/** The `DirEntryPath` snapshot: a `Path2` built from a directory entry (or
    a path) together with its type flags, its stat and the outcome of
    resolving it, all captured once, at construction. */
module DirEntryPaths {
  import opened PyErrors
  import opened Path2Oracle
  import PyRepr

  /** The attributes a constructed `DirEntryPath` holds. */
  datatype DirEntryPath = DirEntryPath(
    pathInstance: Path2,
    path: string,
    isSymlink: bool,
    isFile: bool,
    isDir: bool,
    stat: Stat,
    resolvedPath: Option<Path2>,
    resolveError: Option<Error>,
    differentPath: bool)

  /** The `onerror` argument: the default `print`, which never raises, or
      a caller's callback, which may raise the given exception. */
  datatype OnError = Print | Callback(raises: Option<Error>) {
    function Raises(): Option<Error> {
      match this
      case Print => None
      case Callback(x) => x
    }
  }

  /** What a call of the constructor comes to: the snapshot, or the
      exception that escaped it; in both cases the messages that were
      handed to `onerror`, in order. */
  datatype Outcome =
    | Built(snapshot: DirEntryPath, onerrorCalls: seq<string>)
    | Raised(error: Error, onerrorCalls: seq<string>)

  /** The three terminal states a snapshot is classified into. */
  datatype Identity = SamePath | DifferentTarget | Unresolvable

  /** The text handed to `onerror`: `"Resolve %r error: %s" % (path, err)`. */
  function ResolveMessage(path: string, err: Error): (m: string)
    // the fixed text, then the quoted path literal, then the fixed text
    // and the error's text
    ensures var n := |PyRepr.Repr(path)|;
      && |m| == 8 + n + 8 + |err.text|
      && m[..8] == "Resolve "
      && m[8] == m[8 + n - 1] == PyRepr.QuoteFor(path)
      && m[8 + n..8 + n + 8] == " error: "
      && m[8 + n + 8..] == err.text
  {
    "Resolve " + PyRepr.Repr(path) + " error: " + err.text
  }

  /** Reads back the path and the error text from a message. */
  function ParseResolveMessage(m: string): Option<(string, string)> {
    if |m| < 8 || m[..8] != "Resolve " then None
    else
      match PyRepr.ParseRepr(m[8..])
      case None => None
      case Some((path, rest)) =>
        if |rest| < 8 || rest[..8] != " error: " then None
        else Some((path, rest[8..]))
  }

  /** `different_path`: a path that did not resolve counts as different;
      a resolved one differs when its `.path` is not the entry's `.path`. */
  function DifferentPath(instance: Path2, resolvedPath: Option<Path2>): (different: bool)
    ensures resolvedPath.None? ==> different
    ensures !different <==> resolvedPath.Some? && resolvedPath.value.path == instance.path
  {
    if resolvedPath.None? then true else instance.path != resolvedPath.value.path
  }

  /** `DirEntryPath(path, onerror)`, where `o` answers every query made on
      `Path2(path)`. The four queries run in order and the first exception
      escapes before resolving is tried; a `PermissionError` or
      `FileNotFoundError` from `resolve()` is reported once to `onerror`
      and kept in the snapshot; any other exception from `resolve()`
      escapes, and so does one raised by `onerror`. */
  function Construct(o: Oracle, onerror: OnError): (r: Outcome)
    // a built snapshot holds exactly one of a resolved path and an error
    ensures r.Built? ==> (r.snapshot.resolvedPath.None? <==> r.snapshot.resolveError.Some?)
    // the path and the four query answers are stored as the oracle gave them
    ensures r.Built? ==>
      && QueriesSucceed(o)
      && r.snapshot.pathInstance == o.instance
      && r.snapshot.path == o.instance.strForm
      && r.snapshot.isSymlink == o.isSymlink.value
      && r.snapshot.isFile == o.isFile.value
      && r.snapshot.isDir == o.isDir.value
      && r.snapshot.stat == o.stat.value
    // a successful resolve is kept, and compared by `.path`
    ensures r.Built? && o.resolve.Ok? ==>
      && r.snapshot.resolvedPath == Some(o.resolve.value)
      && (r.snapshot.differentPath <==> o.instance.path != o.resolve.value.path)
    // a caught resolve error is kept, and the path counts as different
    ensures r.Built? && o.resolve.Err? ==>
      && r.snapshot.resolveError == Some(o.resolve.error)
      && r.snapshot.differentPath
    // the only ways construction fails
    ensures r.Raised? <==>
      || !QueriesSucceed(o)
      || (o.resolve.Err? && (!CaughtByResolve(o.resolve.error) || onerror.Raises().Some?))
    // a failing query escapes first, with no call of onerror
    ensures !QueriesSucceed(o) ==> r == Raised(QueryErrors(o)[0], [])
    // an uncaught resolve error escapes unchanged, with no call of onerror
    ensures QueriesSucceed(o) && o.resolve.Err? && !CaughtByResolve(o.resolve.error) ==>
      r == Raised(o.resolve.error, [])
    // onerror is called once exactly when resolve raised a caught error
    ensures |r.onerrorCalls| <= 1
    ensures |r.onerrorCalls| == 1 <==>
      QueriesSucceed(o) && o.resolve.Err? && CaughtByResolve(o.resolve.error)
    ensures |r.onerrorCalls| == 1 ==>
      r.onerrorCalls[0] == ResolveMessage(o.instance.strForm, o.resolve.error)
  {
    var instance := o.instance;
    var path := instance.strForm;
    match o.isSymlink
    case Err(e) => Raised(e, [])
    case Ok(isSymlink) =>
      match o.isFile
      case Err(e) => Raised(e, [])
      case Ok(isFile) =>
        match o.isDir
        case Err(e) => Raised(e, [])
        case Ok(isDir) =>
          match o.stat
          case Err(e) => Raised(e, [])
          case Ok(stat) =>
            match o.resolve
            case Ok(resolved) =>
              Built(DirEntryPath(instance, path, isSymlink, isFile, isDir, stat,
                                 Some(resolved), None, DifferentPath(instance, Some(resolved))),
                    [])
            case Err(e) =>
              if !CaughtByResolve(e) then Raised(e, [])
              else
                var message := ResolveMessage(path, e);
                match onerror.Raises()
                case Some(x) => Raised(x, [message])
                case None =>
                  Built(DirEntryPath(instance, path, isSymlink, isFile, isDir, stat,
                                     None, Some(e), DifferentPath(instance, None)),
                        [message])
  }

  /** The terminal state a snapshot was classified into. */
  function Classify(d: DirEntryPath): Identity {
    if d.resolvedPath.None? then Unresolvable
    else if d.differentPath then DifferentTarget
    else SamePath
  }

  /** Each built snapshot lands in the state its resolve answer calls for:
      same path, a different target, or unresolvable. */
  lemma ClassifyBuilt(o: Oracle, onerror: OnError)
    requires Construct(o, onerror).Built?
    ensures var s := Classify(Construct(o, onerror).snapshot);
      && (s == SamePath <==> o.resolve.Ok? && o.resolve.value.path == o.instance.path)
      && (s == DifferentTarget <==> o.resolve.Ok? && o.resolve.value.path != o.instance.path)
      && (s == Unresolvable <==> o.resolve.Err? && CaughtByResolve(o.resolve.error))
  {
  }

  /** The classification does not come from `is_symlink`: changing that
      answer alone keeps the snapshot built, stores the new flag and leaves
      the state as it was (so a junction, not a symlink, can be different). */
  lemma ClassificationIndependentOfSymlinkFlag(o: Oracle, onerror: OnError, flag: bool)
    requires Construct(o, onerror).Built?
    ensures var o' := o.(isSymlink := Ok(flag));
      && Construct(o', onerror).Built?
      && Construct(o', onerror).snapshot.isSymlink == flag
      && Classify(Construct(o', onerror).snapshot) == Classify(Construct(o, onerror).snapshot)
  {
  }

  /** A query that fails means resolve is never consulted: any resolve
      answer gives the same outcome, and `onerror` is not called. */
  lemma QueryFailureSkipsResolve(o: Oracle, onerror: OnError, answer: Result<Path2>, other: OnError)
    requires !QueriesSucceed(o)
    ensures Construct(o.(resolve := answer), other) == Construct(o, onerror)
    ensures Construct(o, onerror).onerrorCalls == []
  {
  }

  /** The flags and stat do not depend on the resolve outcome. */
  lemma FlagsIndependentOfResolve(o: Oracle, answer: Result<Path2>, onerror: OnError)
    requires Construct(o, onerror).Built? && Construct(o.(resolve := answer), onerror).Built?
    ensures var a := Construct(o, onerror).snapshot;
            var b := Construct(o.(resolve := answer), onerror).snapshot;
      && a.isSymlink == b.isSymlink && a.isFile == b.isFile
      && a.isDir == b.isDir && a.stat == b.stat
      && a.path == b.path && a.pathInstance == b.pathInstance
  {
  }

  /** The `onerror` argument only matters when resolve raised a caught error. */
  lemma OnErrorUnusedWithoutCaughtError(o: Oracle, h1: OnError, h2: OnError)
    requires !(QueriesSucceed(o) && o.resolve.Err? && CaughtByResolve(o.resolve.error))
    ensures Construct(o, h1) == Construct(o, h2)
  {
  }

  /** An exception raised by `onerror` escapes the constructor, after its
      one call. */
  lemma OnErrorExceptionEscapes(o: Oracle, x: Error)
    requires QueriesSucceed(o) && o.resolve.Err? && CaughtByResolve(o.resolve.error)
    ensures Construct(o, Callback(Some(x))) ==
      Raised(x, [ResolveMessage(o.instance.strForm, o.resolve.error)])
  {
  }

  /** The message handed to `onerror` can be read back: it names the entry's
      path and the error text unambiguously. */
  lemma ResolveMessageRoundTrip(path: string, err: Error)
    ensures ParseResolveMessage(ResolveMessage(path, err)) == Some((path, err.text))
  {
    var m := ResolveMessage(path, err);
    var tail := " error: " + err.text;
    assert m == "Resolve " + (PyRepr.Repr(path) + tail);
    assert m[..8] == "Resolve ";
    assert m[8..] == PyRepr.Repr(path) + tail;
    PyRepr.ReprRoundTrip(path, tail);
    assert tail[..8] == " error: ";
    assert tail[8..] == err.text;
  }

  /** Two entries whose messages are equal have the same path. */
  lemma ResolveMessageInjective(p1: string, e1: Error, p2: string, e2: Error)
    requires ResolveMessage(p1, e1) == ResolveMessage(p2, e2)
    ensures p1 == p2 && e1.text == e2.text
  {
    ResolveMessageRoundTrip(p1, e1);
    ResolveMessageRoundTrip(p2, e2);
  }
}
