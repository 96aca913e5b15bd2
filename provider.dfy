/**
 * The Provider interface every update source implements (Open, Close,
 * GetLatestVersion, Walk, Retrieve). A backend is described by what each of
 * those calls answers. `Source` plays a backend whose answers are fixed for
 * the session, whose Retrieve either leaves `dest` alone or writes it and
 * touches no other path, and whose Walk changes no file (visitors are pure
 * functions). A backend that deletes `dest`, such as a `Secure` wrapped in
 * another `Secure`, or a walk whose visitor has effects, is not covered.
 */
module Provider {
  import opened Wrappers
  import opened Files

  /** The part of `os.FileInfo` a visitor looks at. */
  datatype FileInfo = FileInfo(isDir: bool)

  /** `WalkFunc`: called with an entry's path, its metadata and any traversal
      error; a failure it returns aborts the walk. */
  type WalkFunc = (Path, FileInfo, Option<Error>) -> Outcome

  /** What a backend's Retrieve does to the destination path. */
  datatype DestEffect = Untouched | Written(content: Bytes)

  /** A backend's Retrieve: the error it returns, and its effect on `dest`
      (a failing call may still leave a partial file behind). */
  datatype Delivery = Delivery(result: Outcome, effect: DestEffect)

  /** The answers a backend gives to each call of the interface. */
  datatype Behaviour = Behaviour(
    open: Outcome,
    close: Outcome,
    latest: Result<string>,
    walk: WalkFunc -> Outcome,
    retrieve: (Path, Path) -> Delivery)

  /** The calls a backend has received, in order. */
  datatype Call = OpenCall | CloseCall | LatestCall | WalkCall | RetrieveCall(src: Path, dest: Path)

  /** The filesystem after a backend's Retrieve had the effect `e` on `dest`. */
  function Delivered(files: map<Path, Bytes>, dest: Path, e: DestEffect): (r: map<Path, Bytes>)
    ensures forall p :: p != dest ==> (p in r <==> p in files)
    ensures forall p :: p != dest && p in r ==> r[p] == files[p]
    ensures e.Written? ==> dest in r && r[dest] == e.content
    ensures e.Untouched? ==> r == files
  {
    match e
    case Untouched => files
    case Written(content) => files[dest := content]
  }

  /** A backend of the Provider interface. */
  class Source {
    const behaviour: Behaviour
    ghost var log: seq<Call>

    constructor (behaviour: Behaviour)
      ensures this.behaviour == behaviour && log == []
    {
      this.behaviour := behaviour;
      log := [];
    }

    method Open() returns (err: Outcome)
      modifies this`log
      ensures err == behaviour.open
      ensures log == old(log) + [OpenCall]
    {
      err := behaviour.open;
      log := log + [OpenCall];
    }

    method Close() returns (err: Outcome)
      modifies this`log
      ensures err == behaviour.close
      ensures log == old(log) + [CloseCall]
    {
      err := behaviour.close;
      log := log + [CloseCall];
    }

    method GetLatestVersion() returns (r: Result<string>)
      modifies this`log
      ensures r == behaviour.latest
      ensures log == old(log) + [LatestCall]
    {
      r := behaviour.latest;
      log := log + [LatestCall];
    }

    method Walk(walkFn: WalkFunc) returns (err: Outcome)
      modifies this`log
      ensures err == behaviour.walk(walkFn)
      ensures log == old(log) + [WalkCall]
    {
      err := behaviour.walk(walkFn);
      log := log + [WalkCall];
    }

    /** Copies `src` of the backend to `dest` on `fs`. */
    method Retrieve(src: Path, dest: Path, fs: FileSystem) returns (err: Outcome)
      modifies this`log, fs
      ensures err == behaviour.retrieve(src, dest).result
      ensures fs.files == Delivered(old(fs.files), dest, behaviour.retrieve(src, dest).effect)
      ensures log == old(log) + [RetrieveCall(src, dest)]
    {
      var d := behaviour.retrieve(src, dest);
      if d.effect.Written? {
        fs.Write(dest, d.effect.content);
      }
      err := d.result;
      log := log + [RetrieveCall(src, dest)];
    }
  }
}
