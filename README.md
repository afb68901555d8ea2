# Istio CNI installer: binary synchronizer and kubeconfig provisioner

This project models the two decision routines of the node-local Istio CNI
installer and proves properties of them in Dafny.

- **Binary synchronizer** (`copyBinaries(srcDir, targetDirs, prefix)`). It
  copies every file of the source directory into each target directory as
  `prefix + name`. Whatever file already has that name is replaced. It
  returns the set of destination names.
- **Kubeconfig provisioner.** `createKubeConfig(cfg)` builds the kubeconfig
  document (`Full`) that the installed plugin uses to reach the API server.
  It validates the service host and port and chooses skip-verify or CA
  trust. `checkExistingKubeConfigFile(cfg, expected)` compares the file at
  `MountedCNINetDir/KubeconfigFilename` with `expected.Full`. It writes
  nothing.

`binaries.go` and `kubeconfig.go` are not part of this model. The behaviour
modelled here is the behaviour their unit tests fix
(`cni/pkg/install/binaries_test.go`, `cni/pkg/install/kubeconfig_test.go`).
Where the tests are silent, the model chooses as follows:

- Missing target directories are created.
- Skip-verify wins over a CA file.
- With neither skip-verify nor a CA file, the build fails.

An empty kubeconfig file name means `ZZZ-istio-cni-kubeconfig`. The test
"no existing kubeconfig" runs the check with no file name set
(kubeconfig_test.go:157-162), and the model reads the default-named file
there.

A destination whose contents are already identical to the source is still
written and reported. The test "update binaries" expects the identical
`istio-iptables` in the returned set (binaries_test.go:41, 72-79), so the
model has no "skip identical files" shortcut (`IdenticalStillReported`). When
the source directory is not one of the targets, a second run therefore
reports the same names again and leaves the filesystem unchanged
(`SecondRunChangesNothing`). When the source directory is also a target and
the prefix is not empty, a second run copies the first run's prefixed files
again under a doubled prefix.

Modelling choices:

- The filesystem is a value: `Fs` maps a directory path to a `Dir`, and a
  `Dir` maps a file name to its bytes. Go's `string` and `[]byte` are both
  `Bytes` (a sequence of 0..255).
- The single write primitive is `HostFs.WriteFile`, an atomic replace of one
  file. The copy writes through it, and so does the test that writes
  `dork.cfg`. The copy tests build their starting filesystem directly as a
  map.
- `CopyBinaries` takes the filesystem and returns the new one. It lists and
  reads the source directory once. Then it walks the target directories in
  order. It creates each one if it is missing and copies every source file
  into it (`CopyIntoDir`).
- `CreateKubeConfig` takes the service-account token and the CA bundle as
  parameters. `None` means the file could not be read. The tests instead
  set the process-wide `constants.ServiceAccountPath`
  (kubeconfig_test.go:37).
- `Full` is a fixed, deterministic layout shaped like a kubeconfig. It
  holds a cluster with the server URL and either the skip-verify flag or the
  CA data, a user with the token, and a context. It is not the golden
  files' exact YAML. `KubeconfigFormat.Parse` reads it back, and
  `ParseSerialize` proves the round trip. The model gets from this that
  `Full` differs whenever the server URL, the trust choice or the token
  differs.

## Model

| member | source | states |
|---|---|---|
| `HostFs.WriteFile` | cni/pkg/install/kubeconfig_test.go:193 | after the write the named file exists and holds exactly the written bytes; the same primitive is the copy's per-file write (binaries_test.go:64) |
| `Binaries.CopyBinaries` | cni/pkg/install/binaries_test.go:64-67 | a missing source directory is an error that changes nothing and reports nothing; otherwise there is no error, the new filesystem is `Synced` of the old one, and the returned set is `Copied` (every destination name once a target exists) |
| `Binaries.CopyIntoDir` | cni/pkg/install/binaries_test.go:64 | copying into one target leaves that directory as its old files overridden by the prefixed source files, creates it if missing, and returns exactly the destination names |
| `Binaries.SyncedAt` | cni/pkg/install/binaries_test.go:64-71 | after the copy a directory exists iff it existed or is a target; a target holds its old files overridden by the prefixed source files; every other directory is unchanged |
| `Binaries.CopyInstallsEverySource` | cni/pkg/install/binaries_test.go:69-71 | every source file `n` is, in every target, the file `prefix + n` with exactly the source bytes, whatever the target held before |
| `Binaries.CopyKeepsOtherFiles` | cni/pkg/install/binaries_test.go:60-64 | a file outside the targets, or one that is no destination name, is not created, removed or changed |
| `Binaries.EmptyPrefixKeepsNames` | cni/pkg/install/binaries_test.go:33-37 | with an empty prefix the destination names are the source names and the copied files are the source directory itself |
| `Binaries.IdenticalStillReported` | cni/pkg/install/binaries_test.go:41-42 | a destination whose contents already equal the source is still in the returned set and keeps those contents |
| `Binaries.CopiedIsDestNames` | cni/pkg/install/binaries_test.go:72-79 | with a target present, a name is reported iff it is `prefix` followed by the name of a source file |
| `Binaries.SecondRunChangesNothing` | cni/pkg/install/binaries_test.go:38-43 | when the source directory is not one of the targets, a second run from the same source changes no directory and reports the same names |
| `BinariesTest.BasicCase` | cni/pkg/install/binaries_test.go:33-37 | "basic": an empty target ends holding exactly istio-cni and istio-iptables with the source bytes, and both names are returned |
| `BinariesTest.UpdateCase` | cni/pkg/install/binaries_test.go:38-43 | "update binaries": stale istio-cni is replaced, identical istio-iptables is kept, the target holds exactly the source bytes, and both names are returned |
| `BinariesTest.PrefixCase` | cni/pkg/install/binaries_test.go:44-49 | "binaries prefix": the target holds exactly prefix-istio-cni and prefix-istio-iptables with the source bytes, and those two names are returned |
| `KubeconfigFormat.ParseSerialize` | cni/pkg/install/kubeconfig_test.go:105-110 | parsing the serialized document gives back its server URL, trust choice and token |
| `KubeconfigFormat.Serialize` | cni/pkg/install/kubeconfig_test.go:105-110 | the document `Full` begins with the cluster header and the quoted server URL and ends with the quoted token and the context stanza |
| `KubeconfigFormat.SerializeInjective` | cni/pkg/install/kubeconfig_test.go:105-110 | two documents have the same bytes iff they are the same document |
| `Kubeconfig.ServerUrl` | cni/pkg/install/kubeconfig_test.go:86-93 | the URL starts with the protocol (https when unset) and `://`, followed by the service host, and ends with `:` and the service port |
| `Kubeconfig.ServerUrlHostInjective` | cni/pkg/install/kubeconfig_test.go:135-148 | with protocol and port fixed, two URLs are equal iff the hosts are |
| `Kubeconfig.CreateKubeConfig` | cni/pkg/install/kubeconfig_test.go:48-110 | an empty host fails; a set host with an empty port fails; host, port and token with skip-verify (no CA file) or with a readable CA file succeed; a built `Full` parses to the server URL, the token, and skip-verify or the CA bundle as configured |
| `Kubeconfig.CreateIgnoresNetDir` | cni/pkg/install/kubeconfig_test.go:69-75 | configurations that differ only in net dir and kubeconfig file name build the same result, so a missing net dir does not matter |
| `Kubeconfig.CreateTlsModesDiffer` | cni/pkg/install/kubeconfig_test.go:57-68 | for the same host, port and token, the skip-verify build and the CA build both succeed and give different documents |
| `Kubeconfig.CreateHostSensitive` | cni/pkg/install/kubeconfig_test.go:135-148 | when both builds succeed, changing only the service host changes `Full` |
| `Kubeconfig.KubeconfigFilename` | cni/pkg/install/kubeconfig_test.go:185-193 | the file the check reads is the configured kubeconfig file name whenever one is set (`dork.cfg` in the test); the name is never empty |
| `Kubeconfig.CheckExistingKubeConfigFile` | cni/pkg/install/kubeconfig_test.go:168-172 | passes iff the kubeconfig file exists and holds exactly `expected.Full`; a missing file is the missing-file error |
| `Kubeconfig.CheckPassesAfterWrite` | cni/pkg/install/kubeconfig_test.go:193-199 | once `expected.Full` is written at the kubeconfig path, the check passes |
| `KubeconfigTest.TestServerUrl` | cni/pkg/install/kubeconfig_test.go:86-93 | with the protocol unset, host 10.96.0.1 and port 443, the server URL is exactly `https://10.96.0.1:443` |
| `KubeconfigTest.CreateMissingHostCase` | cni/pkg/install/kubeconfig_test.go:48-51 | "k8s service host not set" fails with the missing-host error |
| `KubeconfigTest.CreateMissingPortCase` | cni/pkg/install/kubeconfig_test.go:52-56 | "k8s service port not set" fails with the missing-port error |
| `KubeconfigTest.CreateSkipVerifyCase` | cni/pkg/install/kubeconfig_test.go:57-62 | "skip TLS verify" succeeds with a skip-verify document for `https://10.96.0.1:443` carrying the token |
| `KubeconfigTest.CreateCaCase` | cni/pkg/install/kubeconfig_test.go:63-68 | "TLS verify" succeeds with a document for `https://10.96.0.1:443` trusting the CA bundle and carrying the token |
| `KubeconfigTest.CreateMissingNetDirCase` | cni/pkg/install/kubeconfig_test.go:69-75 | "nonexistent net.d dir" gives the same result as the skip-verify case |
| `KubeconfigTest.ReplaceInvalidKubeconfigCase` | cni/pkg/install/kubeconfig_test.go:115-148 | the CA build is the same in another net dir, and moving the host to 50.76.2.1 changes `Full` |
| `KubeconfigTest.CheckNoExistingKubeconfigCase` | cni/pkg/install/kubeconfig_test.go:151-172 | with an empty net dir the check fails with the missing-file error |
| `KubeconfigTest.CheckWrittenKubeconfigCase` | cni/pkg/install/kubeconfig_test.go:175-199 | after the built document is written to `dork.cfg`, the check passes |

## Left out

- Filesystem mechanics are not modelled: temporary files, write-then-rename, permission bits and directory writability. Every write succeeds. The only error of the copy is a missing source directory.
- Subdirectories of the source directory are not modelled. A `Dir` holds only regular files.
- CopyBinaries: the order of the copies is not modelled. On success the result is the same for every order. The source is read once, before the first write, even when it is also a target.
- Skipping identical destinations is not modelled: the tests require such files to be written and reported.
- The golden files' exact YAML is not reproduced (`testdata/kubeconfig-*` is not part of this model), and neither is the base64 encoding of the CA data. The model uses its own fixed layout; `KubeconfigFormat` describes it.
- Reading the token and the CA file is left to the caller, who passes the bytes in. The tests' global `constants.ServiceAccountPath` is replaced by that parameter.
- CreateKubeConfig: the contract does not cover two cases the tests do not exercise. With both skip-verify and a CA file set, the function lets skip-verify win. With neither set, it fails (`NoTrustMaterial`). No contract or lemma claims either behaviour.
- CheckExistingKubeConfigFile: a file with different contents fails the check (`KubeconfigDiffers`), as a read-and-compare does. No test exercises that case. The test named "Mismatched" writes the matching document.
- The reconciling write of the kubeconfig file (rewriting a stale file) is not modelled as an operation. `HostFs.WriteFile` stands for that write.
- An empty kubeconfig file name means the default name `ZZZ-istio-cni-kubeconfig` (`DefaultKubeconfigFilename`). That value comes from the installer's configuration defaults, which are not part of this model. The test "no existing kubeconfig" leaves the name empty (kubeconfig_test.go:157-162). There the model's check fails because the default-named file is missing from the empty net dir. If the name stayed empty, joining it to the net dir as kubeconfig_test.go:193 does would give the net dir itself, which is not a regular file, and the model has no such case.
- The Go kubeconfig value has other fields besides `Full`. Only `Full` is modelled, because only `Full` is used by the tests.
- `tests/integration/servicemesh/gateway/gateway_test.go` is not modelled. It is a live-cluster integration suite with no local decision logic.
