/** The kubeconfig provisioner: building the kubeconfig the installed plugin
    uses to reach the API server, and checking the file already on disk
    against it. */
module Kubeconfig {
  import opened Wrappers
  import opened Bytes
  import opened HostFs
  import opened KubeconfigFormat

  /** The installer configuration fields the provisioner reads. The token
      and the CA bundle are not read from paths here: the caller passes
      the bytes it read (see `CreateKubeConfig`). */
  datatype InstallConfig = InstallConfig(
    mountedCniNetDir: Bytes,
    kubeconfigFilename: Bytes,
    kubeCaFile: Bytes,
    k8sServiceProtocol: Bytes,
    k8sServiceHost: Bytes,
    k8sServicePort: Bytes,
    skipTlsVerify: bool)

  /** A built kubeconfig; `full` is the whole document. */
  datatype KubeConfig = KubeConfig(full: Bytes)

  datatype KubeconfigError =
    | MissingServiceHost
    | MissingServicePort
    | TokenUnreadable
    | CaFileUnreadable
    | NoTrustMaterial
    | KubeconfigMissing
    | KubeconfigDiffers

  const DefaultProtocol: Bytes := Ascii("https")
  const DefaultKubeconfigFilename: Bytes := Ascii("ZZZ-istio-cni-kubeconfig")

  /** The URL scheme: the configured protocol, https when none is set. */
  function Protocol(cfg: InstallConfig): (p: Bytes)
    ensures p != []
  {
    if cfg.k8sServiceProtocol == [] then DefaultProtocol else cfg.k8sServiceProtocol
  }

  /** `<protocol>://<host>:<port>`. */
  function ServerUrl(cfg: InstallConfig): (url: Bytes)
    ensures StartsWith(url, Protocol(cfg) + Ascii("://"))
    ensures var start := |Protocol(cfg)| + 3;
      start + |cfg.k8sServiceHost| <= |url| && url[start..start + |cfg.k8sServiceHost|] == cfg.k8sServiceHost
    ensures url[|Protocol(cfg)| + 3 + |cfg.k8sServiceHost|..] == Ascii(":") + cfg.k8sServicePort
  {
    var front := Protocol(cfg) + Ascii("://");
    var url := front + cfg.k8sServiceHost + Ascii(":") + cfg.k8sServicePort;
    assert url == front + (cfg.k8sServiceHost + (Ascii(":") + cfg.k8sServicePort));
    DropFront(front, cfg.k8sServiceHost + (Ascii(":") + cfg.k8sServicePort));
    DropFront(front + cfg.k8sServiceHost, Ascii(":") + cfg.k8sServicePort);
    url
  }

  /** With the protocol and port fixed, the URL determines the host. */
  lemma ServerUrlHostInjective(c1: InstallConfig, c2: InstallConfig)
    requires Protocol(c1) == Protocol(c2) && c1.k8sServicePort == c2.k8sServicePort
    ensures ServerUrl(c1) == ServerUrl(c2) <==> c1.k8sServiceHost == c2.k8sServiceHost
  {
    if ServerUrl(c1) == ServerUrl(c2) {
      var url, start := ServerUrl(c1), |Protocol(c1)| + 3;
      var tail := Ascii(":") + c1.k8sServicePort;
      assert |url| == start + |c1.k8sServiceHost| + |tail| == start + |c2.k8sServiceHost| + |tail|;
    }
  }

  /** Builds the kubeconfig for `cfg`. `token` is the service-account token
      as read from the mounted token file and `caData` the bundle read from
      `cfg.kubeCaFile`; `None` stands for a file that could not be read.
      The host and the port must be set; skip-verify takes precedence over
      a CA file, and with neither there is no trust material. */
  function CreateKubeConfig(cfg: InstallConfig, token: Option<Bytes>, caData: Option<Bytes>)
    : (r: Result<KubeConfig, KubeconfigError>)
    ensures cfg.k8sServiceHost == [] ==> r == Err(MissingServiceHost)
    ensures cfg.k8sServiceHost != [] && cfg.k8sServicePort == [] ==> r == Err(MissingServicePort)
    ensures cfg.k8sServiceHost != [] && cfg.k8sServicePort != [] && token.Some?
         && ((cfg.skipTlsVerify && cfg.kubeCaFile == []) || (!cfg.skipTlsVerify && cfg.kubeCaFile != [] && caData.Some?))
         ==> r.Ok?
    ensures r.Ok? ==> token.Some? && Parse(r.value.full).Some?
    ensures r.Ok? ==> Parse(r.value.full).value.server == ServerUrl(cfg)
    ensures r.Ok? ==> Parse(r.value.full).value.token == token.value
    ensures r.Ok? && cfg.skipTlsVerify && cfg.kubeCaFile == [] ==> Parse(r.value.full).value.trust == SkipVerify
    ensures r.Ok? && !cfg.skipTlsVerify ==> caData.Some? && Parse(r.value.full).value.trust == CaData(caData.value)
  {
    if cfg.k8sServiceHost == [] then Err(MissingServiceHost)
    else if cfg.k8sServicePort == [] then Err(MissingServicePort)
    else if token.None? then Err(TokenUnreadable)
    else
      var trust: Option<Trust> :=
        if cfg.skipTlsVerify then Some(SkipVerify)
        else if cfg.kubeCaFile != [] && caData.Some? then Some(CaData(caData.value))
        else None;
      if trust.None? then
        Err(if cfg.kubeCaFile == [] then NoTrustMaterial else CaFileUnreadable)
      else
        var doc := Document(ServerUrl(cfg), trust.value, token.value);
        ParseSerialize(doc);
        Ok(KubeConfig(Serialize(doc)))
  }

  /** The name of the kubeconfig file under the mounted CNI net dir. */
  function KubeconfigFilename(cfg: InstallConfig): (name: Bytes)
    ensures name != []
    ensures cfg.kubeconfigFilename != [] ==> name == cfg.kubeconfigFilename
  {
    if cfg.kubeconfigFilename == [] then DefaultKubeconfigFilename else cfg.kubeconfigFilename
  }

  /** The kubeconfig file exists and holds exactly `full`. */
  predicate KubeconfigCurrent(fs: Fs, cfg: InstallConfig, full: Bytes)
  {
    FileExists(fs, cfg.mountedCniNetDir, KubeconfigFilename(cfg))
    && fs[cfg.mountedCniNetDir][KubeconfigFilename(cfg)] == full
  }

  /** Reads the kubeconfig file and compares it with `expected`, without
      writing anything. */
  function CheckExistingKubeConfigFile(fs: Fs, cfg: InstallConfig, expected: KubeConfig)
    : (r: Outcome<KubeconfigError>)
    ensures r == Pass <==> KubeconfigCurrent(fs, cfg, expected.full)
    ensures !FileExists(fs, cfg.mountedCniNetDir, KubeconfigFilename(cfg)) ==> r == Fail(KubeconfigMissing)
  {
    var dir, name := cfg.mountedCniNetDir, KubeconfigFilename(cfg);
    if !FileExists(fs, dir, name) then Fail(KubeconfigMissing)
    else if fs[dir][name] == expected.full then Pass
    else Fail(KubeconfigDiffers)
  }

  /** The build reads neither the net dir nor the file name: two
      configurations that differ only there give the same result, whether
      or not the directory exists. */
  lemma CreateIgnoresNetDir(c1: InstallConfig, c2: InstallConfig, token: Option<Bytes>, caData: Option<Bytes>)
    requires c2 == c1.(mountedCniNetDir := c2.mountedCniNetDir, kubeconfigFilename := c2.kubeconfigFilename)
    ensures CreateKubeConfig(c1, token, caData) == CreateKubeConfig(c2, token, caData)
  {
  }

  /** Skip-verify and CA trust give different documents for the same
      server and token. */
  lemma CreateTlsModesDiffer(skip: InstallConfig, ca: InstallConfig, token: Option<Bytes>, caData: Option<Bytes>)
    requires skip.k8sServiceHost != [] && skip.k8sServicePort != [] && token.Some? && caData.Some?
    requires skip.skipTlsVerify && skip.kubeCaFile == []
    requires ca == skip.(skipTlsVerify := false, kubeCaFile := ca.kubeCaFile) && ca.kubeCaFile != []
    ensures CreateKubeConfig(skip, token, caData).Ok? && CreateKubeConfig(ca, token, caData).Ok?
    ensures CreateKubeConfig(skip, token, caData).value.full != CreateKubeConfig(ca, token, caData).value.full
  {
  }

  /** Changing only the service host changes the document. */
  lemma CreateHostSensitive(c1: InstallConfig, c2: InstallConfig, token: Option<Bytes>, caData: Option<Bytes>)
    requires c2 == c1.(k8sServiceHost := c2.k8sServiceHost)
    requires c1.k8sServiceHost != c2.k8sServiceHost
    ensures CreateKubeConfig(c1, token, caData).Ok? && CreateKubeConfig(c2, token, caData).Ok? ==>
      CreateKubeConfig(c1, token, caData).value.full != CreateKubeConfig(c2, token, caData).value.full
  {
    ServerUrlHostInjective(c1, c2);
  }

  /** Once the expected document is written to the kubeconfig path, the
      check passes. */
  lemma CheckPassesAfterWrite(fs: Fs, cfg: InstallConfig, expected: KubeConfig)
    ensures CheckExistingKubeConfigFile(
              WriteFile(fs, cfg.mountedCniNetDir, KubeconfigFilename(cfg), expected.full), cfg, expected) == Pass
  {
  }
}
