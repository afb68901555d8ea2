/** The node's filesystem as the installer sees it: directories, each a map
    from file name to contents. Permission bits, temporary files and the
    write-then-rename dance are below this level of abstraction. */
module HostFs {
  import opened Bytes

  /** The regular files directly under one directory. */
  type Dir = map<Bytes, Bytes>

  /** Directory path to directory. */
  type Fs = map<Bytes, Dir>

  /** The directory at `path`, or an empty one when it does not exist. */
  function DirAt(fs: Fs, path: Bytes): (d: Dir)
    ensures path in fs ==> d == fs[path]
    ensures path !in fs ==> d == map[]
  {
    if path in fs then fs[path] else map[]
  }

  /** The file `name` under `path`, when it exists. */
  predicate FileExists(fs: Fs, path: Bytes, name: Bytes)
  {
    path in fs && name in fs[path]
  }

  /** Atomic replace of one file: afterwards `path/name` holds exactly
      `content` (the directory is created if needed) and nothing else on
      the filesystem differs. This is the one write primitive of the model;
      both the binary copy and the kubeconfig write go through it. */
  function WriteFile(fs: Fs, path: Bytes, name: Bytes, content: Bytes): (fs': Fs)
    ensures FileExists(fs', path, name) && fs'[path][name] == content
  {
    fs[path := DirAt(fs, path)[name := content]]
  }

  /** A write touches nothing but the one file: every other file keeps its
      contents, and the only directory that may be new is `path`. */
  lemma WriteFileFrame(fs: Fs, path: Bytes, name: Bytes, content: Bytes, p: Bytes, n: Bytes)
    requires p != path || n != name
    ensures FileExists(WriteFile(fs, path, name, content), p, n) <==> FileExists(fs, p, n)
    ensures FileExists(fs, p, n) ==> WriteFile(fs, path, name, content)[p][n] == fs[p][n]
    ensures p in WriteFile(fs, path, name, content) <==> p in fs || p == path
  {
  }

  /** Writing into a directory that was just replaced as a whole is the same
      as replacing it by the updated directory. */
  lemma WriteFileAfterReplace(fs: Fs, path: Bytes, d: Dir, name: Bytes, content: Bytes)
    ensures WriteFile(fs[path := d], path, name, content) == fs[path := d[name := content]]
  {
    assert DirAt(fs[path := d], path) == d;
  }
}
