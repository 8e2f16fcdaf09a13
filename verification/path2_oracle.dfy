/** `Path2` seen from the outside. Its implementation is not part of this
    model: a path value is known only by its two string forms, and each
    filesystem query it offers is an answer recorded in an `Oracle`. */
module Path2Oracle {
  import opened PyErrors

  /** A `Path2` instance: `strForm` is what `str()` returns, `path` is its
      `.path` property. */
  datatype Path2 = Path2(strForm: string, path: string)

  /** The part of an `os.stat_result` the snapshot exposes. */
  datatype Stat = Stat(size: nat, mode: nat, mtimeNs: int)

  /** What the filesystem answers, at construction time, for one entry:
      the instance `Path2(path)` builds, and the result (or exception) of
      each query made on it. Whether a query follows links is decided
      inside `Path2` and is already reflected in its answer. */
  datatype Oracle = Oracle(
    instance: Path2,
    isSymlink: Result<bool>,
    isFile: Result<bool>,
    isDir: Result<bool>,
    stat: Result<Stat>,
    resolve: Result<Path2>)

  /** The exceptions of the four queries made before resolving, in the
      order the constructor makes them. */
  function QueryErrors(o: Oracle): (es: seq<Error>)
    ensures |es| <= 4
    ensures |es| == 0 <==> QueriesSucceed(o)
    ensures o.isSymlink.Err? ==> es[0] == o.isSymlink.error
    ensures o.isSymlink.Ok? && o.isFile.Err? ==> es[0] == o.isFile.error
    ensures o.isSymlink.Ok? && o.isFile.Ok? && o.isDir.Err? ==> es[0] == o.isDir.error
    ensures o.isSymlink.Ok? && o.isFile.Ok? && o.isDir.Ok? && o.stat.Err? ==> es[0] == o.stat.error
  {
    (if o.isSymlink.Err? then [o.isSymlink.error] else [])
    + (if o.isFile.Err? then [o.isFile.error] else [])
    + (if o.isDir.Err? then [o.isDir.error] else [])
    + (if o.stat.Err? then [o.stat.error] else [])
  }

  /** All four queries made before resolving returned a value. */
  predicate QueriesSucceed(o: Oracle) {
    o.isSymlink.Ok? && o.isFile.Ok? && o.isDir.Ok? && o.stat.Ok?
  }
}
