/**
 * The part of the local filesystem the signature-checking provider touches:
 * a map from path to file content, with the three operations it performs on
 * it (the write done by a backend, `os.Remove` and `os.RemoveAll`).
 */
module Files {
  import opened Wrappers

  newtype byte = x: int | 0 <= x < 256

  type Bytes = seq<byte>

  type Path = string

  /** A directory path that `Join` accepts: not empty and without a trailing
      separator. It need not be clean; see `Join`. */
  predicate IsDirName(dir: Path) {
    dir != "" && dir[|dir| - 1] != '/'
  }

  /** `p` is the directory `dir` itself or lies somewhere below it. */
  predicate Under(p: Path, dir: Path) {
    p == dir || (|dir| < |p| && p[..|dir| + 1] == dir + "/")
  }

  /** `dir + "/" + name`: on a "/"-separated platform this is
      `filepath.Join(dir, name)` when `dir` is already clean (no "//", "."
      or ".." element) and `name` is a clean relative name; cleaning is not
      modelled. */
  function Join(dir: Path, name: Path): (p: Path)
    requires IsDirName(dir) && name != "" && name[0] != '/'
    ensures Under(p, dir) && p != dir
    ensures |p| == |dir| + 1 + |name| && p[|dir| + 1..] == name
  {
    dir + "/" + name
  }

  /** What reading `p` yields: its content, or None when there is no such file. */
  function Read(files: map<Path, Bytes>, p: Path): (r: Option<Bytes>)
    ensures r.Some? <==> p in files
    ensures r.Some? ==> r.value == files[p]
  {
    if p in files then Some(files[p]) else None
  }

  /** No file lies under `dir`: a freshly created temporary directory. */
  predicate NothingUnder(files: map<Path, Bytes>, dir: Path) {
    forall p :: p in files ==> !Under(p, dir)
  }

  /** The files left once `os.RemoveAll(dir)` has run. */
  function WithoutTree(files: map<Path, Bytes>, dir: Path): (r: map<Path, Bytes>)
    ensures NothingUnder(r, dir)
    ensures forall p :: p in files && !Under(p, dir) ==> p in r && r[p] == files[p]
    ensures forall p :: p in r ==> p in files
  {
    map p | p in files && !Under(p, dir) :: files[p]
  }

  class FileSystem {
    var files: map<Path, Bytes>

    constructor (files: map<Path, Bytes>)
      ensures this.files == files
    {
      this.files := files;
    }

    /** Creates or overwrites `p`. */
    method Write(p: Path, content: Bytes)
      modifies this
      ensures files == old(files)[p := content]
    {
      files := files[p := content];
    }

    /** `os.Remove(p)`, modelled as always succeeding. Its only caller
        discards the error, so a removal that fails in the code would leave
        `p` in place unnoticed; the model does not capture that case. */
    method Remove(p: Path)
      modifies this
      ensures files == old(files) - {p}
    {
      files := files - {p};
    }

    /** `os.RemoveAll(dir)`: removes `dir` and everything below it, modelled
        as always succeeding (its only caller discards the error too). */
    method RemoveAll(dir: Path)
      modifies this
      ensures files == WithoutTree(old(files), dir)
    {
      files := WithoutTree(files, dir);
    }
  }
}
