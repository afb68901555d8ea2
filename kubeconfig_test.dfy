/** The kubeconfig tests, stated over the provisioner's functions with the
    tests' host, port and token. The CA bundle is a parameter: its bytes
    are not part of the model. */
module KubeconfigTest {
  import opened Wrappers
  import opened Bytes
  import opened HostFs
  import opened KubeconfigFormat
  import opened Kubeconfig

  const ServiceHost: Bytes := Ascii("10.96.0.1")
  const NewServiceHost: Bytes := Ascii("50.76.2.1")
  const ServicePort: Bytes := Ascii("443")
  const KubeCaFilepath: Bytes := Ascii("testdata/kube-ca.crt")
  const SaToken: Bytes := Ascii("service_account_token_string")

  function Config(netDir: Bytes, filename: Bytes, caFile: Bytes, host: Bytes, port: Bytes, skip: bool): InstallConfig
  {
    InstallConfig(netDir, filename, caFile, [], host, port, skip)
  }

  /** The server URL the tests expect: https (the protocol is unset), the
      service host, and port 443. */
  lemma TestServerUrl(netDir: Bytes, caFile: Bytes, skip: bool)
    ensures ServerUrl(Config(netDir, [], caFile, ServiceHost, ServicePort, skip)) == Ascii("https://10.96.0.1:443")
  {
    AsciiConcat("https", "://");
    AsciiConcat("https://", "10.96.0.1");
    AsciiConcat("https://10.96.0.1", ":");
    AsciiConcat("https://10.96.0.1:", "443");
  }

  /** TestCreateValidKubeconfigFile, "k8s service host not set": fails. */
  lemma CreateMissingHostCase(netDir: Bytes, ca: Bytes)
    ensures CreateKubeConfig(Config(netDir, [], [], [], [], false), Some(SaToken), Some(ca)) == Err(MissingServiceHost)
  {
  }

  /** TestCreateValidKubeconfigFile, "k8s service port not set": fails. */
  lemma CreateMissingPortCase(netDir: Bytes, ca: Bytes)
    ensures CreateKubeConfig(Config(netDir, [], [], ServiceHost, [], false), Some(SaToken), Some(ca)) == Err(MissingServicePort)
  {
    assert ServiceHost != [];
  }

  /** TestCreateValidKubeconfigFile, "skip TLS verify": a skip-verify
      document for https://10.96.0.1:443 with the token. */
  lemma CreateSkipVerifyCase(netDir: Bytes, ca: Bytes)
    ensures var r := CreateKubeConfig(Config(netDir, [], [], ServiceHost, ServicePort, true), Some(SaToken), Some(ca));
      r.Ok? && Parse(r.value.full) == Some(Document(Ascii("https://10.96.0.1:443"), SkipVerify, SaToken))
  {
    TestServerUrl(netDir, [], true);
  }

  /** TestCreateValidKubeconfigFile, "TLS verify": a document
      for https://10.96.0.1:443 trusting the CA bundle, with the token. */
  lemma CreateCaCase(netDir: Bytes, ca: Bytes)
    ensures var r := CreateKubeConfig(Config(netDir, [], KubeCaFilepath, ServiceHost, ServicePort, false), Some(SaToken), Some(ca));
      r.Ok? && Parse(r.value.full) == Some(Document(Ascii("https://10.96.0.1:443"), CaData(ca), SaToken))
  {
    TestServerUrl(netDir, KubeCaFilepath, false);
  }

  /** TestCreateValidKubeconfigFile, "nonexistent net.d dir":
      the same result as the skip-verify case. */
  lemma CreateMissingNetDirCase(netDir: Bytes, missingDir: Bytes, ca: Bytes)
    ensures CreateKubeConfig(Config(missingDir, [], [], ServiceHost, ServicePort, true), Some(SaToken), Some(ca))
         == CreateKubeConfig(Config(netDir, [], [], ServiceHost, ServicePort, true), Some(SaToken), Some(ca))
  {
    CreateIgnoresNetDir(Config(netDir, [], [], ServiceHost, ServicePort, true),
                        Config(missingDir, [], [], ServiceHost, ServicePort, true), Some(SaToken), Some(ca));
  }

  lemma HostsDiffer()
    ensures ServiceHost != NewServiceHost
  {
    assert ServiceHost[0] as int == 49;
    assert NewServiceHost[0] as int == 53;
  }

  /** TestReplaceInvalidKubeconfigFile: the same CA configuration in a
      different net dir gives the same document, and moving the service
      host to 50.76.2.1 gives a different one. */
  lemma ReplaceInvalidKubeconfigCase(netDir: Bytes, otherDir: Bytes, ca: Bytes)
    ensures var first := CreateKubeConfig(Config(netDir, [], KubeCaFilepath, ServiceHost, ServicePort, false), Some(SaToken), Some(ca));
      var again := CreateKubeConfig(Config(otherDir, [], KubeCaFilepath, ServiceHost, ServicePort, false), Some(SaToken), Some(ca));
      var moved := CreateKubeConfig(Config(netDir, [], KubeCaFilepath, NewServiceHost, ServicePort, false), Some(SaToken), Some(ca));
      first.Ok? && again.Ok? && moved.Ok? && first == again && first.value.full != moved.value.full
  {
    var c := Config(netDir, [], KubeCaFilepath, ServiceHost, ServicePort, false);
    var m := Config(netDir, [], KubeCaFilepath, NewServiceHost, ServicePort, false);
    CreateIgnoresNetDir(c, Config(otherDir, [], KubeCaFilepath, ServiceHost, ServicePort, false), Some(SaToken), Some(ca));
    HostsDiffer();
    CreateHostSensitive(c, m, Some(SaToken), Some(ca));
  }

  /** TestCheckNoExistingKubeConfig: with nothing written to a fresh net
      dir, the check fails because the file is missing. */
  lemma CheckNoExistingKubeconfigCase(fs: Fs, netDir: Bytes, ca: Bytes)
    requires netDir in fs && fs[netDir] == map[]
    ensures var kc := CreateKubeConfig(Config(netDir, [], KubeCaFilepath, ServiceHost, ServicePort, false), Some(SaToken), Some(ca));
      kc.Ok? && CheckExistingKubeConfigFile(fs, Config(netDir, [], KubeCaFilepath, ServiceHost, ServicePort, false), kc.value)
                == Fail(KubeconfigMissing)
  {
  }

  /** TestCheckMismatchedExistingKubeConfig: after the built document is
      written to `dork.cfg` in the net dir, the check passes. */
  lemma CheckWrittenKubeconfigCase(fs: Fs, netDir: Bytes, ca: Bytes)
    ensures var cfg := Config(netDir, Ascii("dork.cfg"), KubeCaFilepath, ServiceHost, ServicePort, false);
      var kc := CreateKubeConfig(cfg, Some(SaToken), Some(ca));
      kc.Ok? && CheckExistingKubeConfigFile(WriteFile(fs, netDir, Ascii("dork.cfg"), kc.value.full), cfg, kc.value) == Pass
  {
    var cfg := Config(netDir, Ascii("dork.cfg"), KubeCaFilepath, ServiceHost, ServicePort, false);
    CheckPassesAfterWrite(fs, cfg, CreateKubeConfig(cfg, Some(SaToken), Some(ca)).value);
  }
}
