/** The binary synchronizer: every artifact of the source directory is
    copied into each target directory under the name `prefix + name`,
    replacing whatever file had that name, and the destination names are
    returned as a set. */
module Binaries {
  import opened Wrappers
  import opened Bytes
  import opened HostFs

  datatype CopyError = SourceDirMissing

  /** The destination name of each source name. */
  function DestNames(names: set<Bytes>, prefix: Bytes): set<Bytes>
  {
    set n | n in names :: prefix + n
  }

  /** The source files renamed to their destination names. */
  function Prefixed(src: Dir, prefix: Bytes): Dir
  {
    map m | m in DestNames(src.Keys, prefix) :: src[m[|prefix|..]]
  }

  /** Every source file appears under its destination name, unchanged. */
  lemma PrefixedAt(src: Dir, prefix: Bytes, n: Bytes)
    requires n in src
    ensures prefix + n in Prefixed(src, prefix)
    ensures Prefixed(src, prefix)[prefix + n] == src[n]
  {
    assert (prefix + n)[|prefix|..] == n;
  }

  /** Every renamed file comes from the source file its name ends with. */
  lemma PrefixedFrom(src: Dir, prefix: Bytes, m: Bytes)
    requires m in Prefixed(src, prefix)
    ensures |prefix| <= |m| && m == prefix + m[|prefix|..]
    ensures m[|prefix|..] in src && Prefixed(src, prefix)[m] == src[m[|prefix|..]]
  {
    var n :| n in src && m == prefix + n;
    assert m[|prefix|..] == n;
  }

  /** The filesystem after every target directory, in order, has been
      created if needed and has received the prefixed copy of `src`. */
  function Synced(fs: Fs, targets: seq<Bytes>, src: Dir, prefix: Bytes): Fs
    decreases |targets|
  {
    if targets == [] then fs
    else
      var before := Synced(fs, targets[..|targets| - 1], src, prefix);
      var target := targets[|targets| - 1];
      before[target := DirAt(before, target) + Prefixed(src, prefix)]
  }

  /** The names reported as copied: every destination name, once there is a
      target directory to copy to. */
  function Copied(src: Dir, targets: seq<Bytes>, prefix: Bytes): set<Bytes>
  {
    if targets == [] then {} else DestNames(src.Keys, prefix)
  }

  /** Copies every file of `srcDir` into each of `targetDirs` as
      `prefix + name`. The source directory is listed and read once, before
      the first write. */
  method CopyBinaries(fs: Fs, srcDir: Bytes, targetDirs: seq<Bytes>, prefix: Bytes)
    returns (fs': Fs, copied: set<Bytes>, err: Option<CopyError>)
    ensures srcDir !in fs ==> err == Some(SourceDirMissing) && fs' == fs && copied == {}
    ensures srcDir in fs ==> err == None
    ensures srcDir in fs ==> fs' == Synced(fs, targetDirs, fs[srcDir], prefix)
    ensures srcDir in fs ==> copied == Copied(fs[srcDir], targetDirs, prefix)
  {
    if srcDir !in fs {
      return fs, {}, Some(SourceDirMissing);
    }
    var src := fs[srcDir];
    fs', copied, err := fs, {}, None;
    for i := 0 to |targetDirs|
      invariant fs' == Synced(fs, targetDirs[..i], src, prefix)
      invariant copied == Copied(src, targetDirs[..i], prefix)
    {
      var written;
      fs', written := CopyIntoDir(fs', targetDirs[i], src, prefix);
      copied := copied + written;
      assert targetDirs[..i + 1][..i] == targetDirs[..i];
    }
    assert targetDirs[..|targetDirs|] == targetDirs;
  }

  /** Copies every file of `src` into the directory `target` (created if it
      does not exist) as `prefix + name`, and returns the names written. */
  method CopyIntoDir(fs: Fs, target: Bytes, src: Dir, prefix: Bytes)
    returns (fs': Fs, written: set<Bytes>)
    ensures fs' == fs[target := DirAt(fs, target) + Prefixed(src, prefix)]
    ensures written == DestNames(src.Keys, prefix)
  {
    var dir := DirAt(fs, target);
    fs', written := fs[target := dir], {};
    var pending := src.Keys;
    NothingCopiedYet(src, dir, prefix);
    while pending != {}
      invariant pending <= src.Keys
      invariant fs' == fs[target := dir + Prefixed(src - pending, prefix)]
      invariant written == DestNames((src - pending).Keys, prefix)
      decreases pending
    {
      var name :| name in pending;
      CopyOneFile(fs, target, dir, src, pending, name, prefix);
      fs' := WriteFile(fs', target, prefix + name, src[name]);
      written := written + {prefix + name};
      pending := pending - {name};
    }
    assert src - pending == src;
  }

  /** Before the first write the directory is the old one. */
  lemma NothingCopiedYet(src: Dir, dir: Dir, prefix: Bytes)
    ensures dir + Prefixed(src - src.Keys, prefix) == dir
    ensures DestNames((src - src.Keys).Keys, prefix) == {}
  {
    assert (src - src.Keys).Keys == {};
    assert Prefixed(src - src.Keys, prefix) == map[];
  }

  /** Writing one more source file into the target extends the copied part
      by exactly that file and its name. */
  lemma CopyOneFile(fs: Fs, target: Bytes, dir: Dir, src: Dir, pending: set<Bytes>, name: Bytes, prefix: Bytes)
    requires pending <= src.Keys && name in pending
    ensures WriteFile(fs[target := dir + Prefixed(src - pending, prefix)], target, prefix + name, src[name])
         == fs[target := dir + Prefixed(src - (pending - {name}), prefix)]
    ensures DestNames((src - (pending - {name})).Keys, prefix) == DestNames((src - pending).Keys, prefix) + {prefix + name}
  {
    var part := Prefixed(src - pending, prefix);
    assert src - (pending - {name}) == (src - pending)[name := src[name]];
    PrefixedUpdate(src - pending, name, src[name], prefix);
    OverrideUpdate(dir, part, prefix + name, src[name]);
    WriteFileAfterReplace(fs, target, dir + part, prefix + name, src[name]);
  }

  /** Updating one key of an override updates the right-hand map. */
  lemma OverrideUpdate(a: Dir, b: Dir, k: Bytes, v: Bytes)
    ensures (a + b)[k := v] == a + b[k := v]
  {
  }

  /** Adding or replacing one source file adds or replaces exactly its
      destination file. */
  lemma PrefixedUpdate(sub: Dir, name: Bytes, v: Bytes, prefix: Bytes)
    ensures Prefixed(sub[name := v], prefix) == Prefixed(sub, prefix)[prefix + name := v]
  {
    var a := Prefixed(sub[name := v], prefix);
    var b := Prefixed(sub, prefix)[prefix + name := v];
    forall m | m in a ensures m in b && a[m] == b[m] {
      PrefixedUpdateAt(sub, name, v, prefix, m);
    }
    forall m | m in b ensures m in a {
      if m != prefix + name {
        PrefixedFrom(sub, prefix, m);
        PrefixedAt(sub[name := v], prefix, m[|prefix|..]);
      } else {
        PrefixedAt(sub[name := v], prefix, name);
      }
    }
    SameDir(a, b);
  }

  lemma PrefixedUpdateAt(sub: Dir, name: Bytes, v: Bytes, prefix: Bytes, m: Bytes)
    requires m in Prefixed(sub[name := v], prefix)
    ensures m in Prefixed(sub, prefix)[prefix + name := v]
    ensures Prefixed(sub[name := v], prefix)[m] == Prefixed(sub, prefix)[prefix + name := v][m]
  {
    PrefixedFrom(sub[name := v], prefix, m);
    var n := m[|prefix|..];
    if n != name {
      PrefixedAt(sub, prefix, n);
      if m == prefix + name { PrefixCancel(prefix, n, name); }
    }
  }

  /** Two directories with the same files and contents are equal. */
  lemma SameDir(a: Dir, b: Dir)
    requires forall m :: m in a ==> m in b && a[m] == b[m]
    requires forall m :: m in b ==> m in a
    ensures a == b
  {
  }

  /** Membership in a non-empty sequence splits into its initial part and
      its last element. */
  lemma InInitOrLast(s: seq<Bytes>, x: Bytes)
    requires s != []
    ensures x in s <==> x in s[..|s| - 1] || x == s[|s| - 1]
  {
    assert s == s[..|s| - 1] + [s[|s| - 1]];
  }

  /** Overriding twice with the same files is overriding once. */
  lemma OverrideTwice(a: Dir, b: Dir)
    ensures (a + b) + b == a + b
  {
  }

  /** What the synchronizer leaves in each directory: a target directory
      holds its old files overridden by the prefixed source files (and exists
      afterwards even if it did not before); every other directory is as it
      was. */
  lemma {:induction false} SyncedAt(fs: Fs, targets: seq<Bytes>, src: Dir, prefix: Bytes, path: Bytes)
    ensures path in Synced(fs, targets, src, prefix) <==> path in fs || path in targets
    ensures path in Synced(fs, targets, src, prefix) ==>
      Synced(fs, targets, src, prefix)[path]
        == if path in targets then DirAt(fs, path) + Prefixed(src, prefix) else fs[path]
    decreases |targets|
  {
    if targets != [] {
      var init := targets[..|targets| - 1];
      var last := targets[|targets| - 1];
      var p := Prefixed(src, prefix);
      var before := Synced(fs, init, src, prefix);
      var after := Synced(fs, targets, src, prefix);
      assert after == before[last := DirAt(before, last) + p];
      SyncedAt(fs, init, src, prefix, path);
      InInitOrLast(targets, path);
      if path == last {
        if path in init {
          assert DirAt(before, last) == DirAt(fs, path) + p;
          OverrideTwice(DirAt(fs, path), p);
        } else {
          assert DirAt(before, last) == DirAt(fs, path);
        }
      } else {
        assert path in after <==> path in before;
        assert path in after ==> after[path] == before[path];
      }
    }
  }

  /** Every source file ends up in every target directory under its
      prefixed name, with exactly the source contents, whatever the target
      held before. */
  lemma CopyInstallsEverySource(fs: Fs, targets: seq<Bytes>, src: Dir, prefix: Bytes, target: Bytes, name: Bytes)
    requires target in targets && name in src
    ensures FileExists(Synced(fs, targets, src, prefix), target, prefix + name)
    ensures Synced(fs, targets, src, prefix)[target][prefix + name] == src[name]
  {
    SyncedAt(fs, targets, src, prefix, target);
    PrefixedAt(src, prefix, name);
  }

  /** A file that is not the destination of some source file, or that lies
      outside the target directories, is neither created, removed nor
      changed. */
  lemma CopyKeepsOtherFiles(fs: Fs, targets: seq<Bytes>, src: Dir, prefix: Bytes, path: Bytes, name: Bytes)
    requires path !in targets || name !in DestNames(src.Keys, prefix)
    ensures FileExists(Synced(fs, targets, src, prefix), path, name) <==> FileExists(fs, path, name)
    ensures FileExists(fs, path, name) ==> Synced(fs, targets, src, prefix)[path][name] == fs[path][name]
  {
    SyncedAt(fs, targets, src, prefix, path);
    assert name !in Prefixed(src, prefix) || path !in targets;
  }

  /** With an empty prefix the destination names are the source names and
      the prefixed copy is the source directory itself. */
  lemma EmptyPrefixKeepsNames(src: Dir)
    ensures DestNames(src.Keys, []) == src.Keys
    ensures Prefixed(src, []) == src
  {
    forall n | n in src ensures n in Prefixed(src, []) && Prefixed(src, [])[n] == src[n] {
      assert [] + n == n;
      PrefixedAt(src, [], n);
    }
    forall m | m in Prefixed(src, []) ensures m in src {
      PrefixedFrom(src, [], m);
    }
  }

  /** A destination whose contents were already identical to the source is
      still reported as copied, and still holds those contents. */
  lemma IdenticalStillReported(fs: Fs, targets: seq<Bytes>, src: Dir, prefix: Bytes, target: Bytes, name: Bytes)
    requires target in targets && name in src
    requires FileExists(fs, target, prefix + name) && fs[target][prefix + name] == src[name]
    ensures prefix + name in Copied(src, targets, prefix)
    ensures FileExists(Synced(fs, targets, src, prefix), target, prefix + name)
    ensures Synced(fs, targets, src, prefix)[target][prefix + name] == fs[target][prefix + name]
  {
    CopyInstallsEverySource(fs, targets, src, prefix, target, name);
  }

  /** The returned set holds exactly the destination names, once there is a
      target directory. */
  lemma CopiedIsDestNames(src: Dir, targets: seq<Bytes>, prefix: Bytes, m: Bytes)
    requires targets != []
    ensures m in Copied(src, targets, prefix) <==>
      (StartsWith(m, prefix) && m[|prefix|..] in src)
  {
    if m in Copied(src, targets, prefix) {
      var n :| n in src && m == prefix + n;
      assert m[|prefix|..] == n;
    }
    if StartsWith(m, prefix) && m[|prefix|..] in src {
      assert m == prefix + m[|prefix|..];
      assert m in DestNames(src.Keys, prefix);
    }
  }

  /** Running the synchronizer again, from a source directory that is not
      itself a target, changes nothing on the filesystem and reports the
      same names. */
  lemma SecondRunChangesNothing(fs: Fs, srcDir: Bytes, targets: seq<Bytes>, prefix: Bytes)
    requires srcDir in fs && srcDir !in targets
    ensures var fs1 := Synced(fs, targets, fs[srcDir], prefix);
      && srcDir in fs1 && fs1[srcDir] == fs[srcDir]
      && Synced(fs1, targets, fs1[srcDir], prefix) == fs1
      && Copied(fs1[srcDir], targets, prefix) == Copied(fs[srcDir], targets, prefix)
  {
    var src := fs[srcDir];
    var fs1 := Synced(fs, targets, src, prefix);
    SyncedAt(fs, targets, src, prefix, srcDir);
    var fs2 := Synced(fs1, targets, src, prefix);
    forall p | p in fs2 ensures p in fs1 && fs2[p] == fs1[p] {
      SyncedAt(fs1, targets, src, prefix, p);
      SyncedAt(fs, targets, src, prefix, p);
      if p in targets {
        OverrideTwice(DirAt(fs, p), Prefixed(src, prefix));
      }
    }
    forall p | p in fs1 ensures p in fs2 {
      SyncedAt(fs1, targets, src, prefix, p);
    }
  }
}
