/** The three cases of the TestCopyBinaries table, each stated against the
    synchronizer's contract. File contents are left as parameters, so each
    case holds for all contents, not only for the table's strings. */
module BinariesTest {
  import opened Wrappers
  import opened Bytes
  import opened HostFs
  import opened Binaries

  const SrcDir: Bytes := Ascii("/tmp/src")
  const TargetDir: Bytes := Ascii("/tmp/target")
  const IstioCni: Bytes := Ascii("istio-cni")
  const IstioIptables: Bytes := Ascii("istio-iptables")

  /** A source directory holding the two artifacts. */
  function Artifacts(cni: Bytes, iptables: Bytes): (d: Dir)
    ensures d.Keys == {IstioCni, IstioIptables}
  {
    map[IstioCni := cni, IstioIptables := iptables]
  }

  /** The prefixed copy of the two artifacts. */
  lemma PrefixedArtifacts(cni: Bytes, iptables: Bytes, prefix: Bytes)
    ensures Prefixed(Artifacts(cni, iptables), prefix)
         == map[prefix + IstioCni := cni, prefix + IstioIptables := iptables]
    ensures DestNames({IstioCni, IstioIptables}, prefix) == {prefix + IstioCni, prefix + IstioIptables}
  {
    var src := Artifacts(cni, iptables);
    var want := map[prefix + IstioCni := cni, prefix + IstioIptables := iptables];
    PrefixedAt(src, prefix, IstioCni);
    PrefixedAt(src, prefix, IstioIptables);
    forall m | m in Prefixed(src, prefix) ensures m in want {
      PrefixedFrom(src, prefix, m);
    }
    assert Prefixed(src, prefix).Keys == want.Keys;
  }

  /** Runs the synchronizer with one existing, initially `existing`, target
      directory and returns that directory afterwards. */
  method RunCase(cni: Bytes, iptables: Bytes, existing: Dir, prefix: Bytes)
    returns (target: Dir, copied: set<Bytes>, err: Option<CopyError>)
    ensures err == None
    ensures target == existing + map[prefix + IstioCni := cni, prefix + IstioIptables := iptables]
    ensures copied == {prefix + IstioCni, prefix + IstioIptables}
  {
    var src := Artifacts(cni, iptables);
    var fs: Fs := map[SrcDir := src, TargetDir := existing];
    var fs';
    fs', copied, err := CopyBinaries(fs, SrcDir, [TargetDir], prefix);
    SyncedAt(fs, [TargetDir], src, prefix, TargetDir);
    PrefixedArtifacts(cni, iptables, prefix);
    target := fs'[TargetDir];
  }

  /** "basic": no prefix, empty target directory; the target receives both
      artifacts under their own names and both names are reported. */
  method BasicCase(cni: Bytes, iptables: Bytes) returns (target: Dir, copied: set<Bytes>)
    ensures target == map[IstioCni := cni, IstioIptables := iptables]
    ensures copied == {IstioCni, IstioIptables}
  {
    var err;
    target, copied, err := RunCase(cni, iptables, map[], []);
    assert [] + IstioCni == IstioCni && [] + IstioIptables == IstioIptables;
  }

  /** "update binaries": the stale istio-cni is replaced, the identical
      istio-iptables keeps its contents, and both are reported. */
  method UpdateCase(cni: Bytes, iptables: Bytes, stale: Bytes) returns (target: Dir, copied: set<Bytes>)
    ensures target == map[IstioCni := cni, IstioIptables := iptables]
    ensures copied == {IstioCni, IstioIptables}
  {
    var err;
    target, copied, err := RunCase(cni, iptables, map[IstioCni := stale, IstioIptables := iptables], []);
    assert [] + IstioCni == IstioCni && [] + IstioIptables == IstioIptables;
  }

  /** "binaries prefix": with prefix "prefix-" the artifacts arrive as
      prefix-istio-cni and prefix-istio-iptables. */
  method PrefixCase(cni: Bytes, iptables: Bytes) returns (target: Dir, copied: set<Bytes>)
    ensures target == map[Ascii("prefix-istio-cni") := cni, Ascii("prefix-istio-iptables") := iptables]
    ensures copied == {Ascii("prefix-istio-cni"), Ascii("prefix-istio-iptables")}
  {
    var err;
    target, copied, err := RunCase(cni, iptables, map[], Ascii("prefix-"));
    AsciiConcat("prefix-", "istio-cni");
    AsciiConcat("prefix-", "istio-iptables");
    assert "prefix-" + "istio-cni" == "prefix-istio-cni";
    assert "prefix-" + "istio-iptables" == "prefix-istio-iptables";
  }
}
