/** The situations the class documentation and the test suite describe,
    each as a concrete oracle, with what the snapshot must hold. */
module Scenarios {
  import opened PyErrors
  import opened Path2Oracle
  import opened DirEntryPaths

  function P(s: string): Path2 {
    Path2(s, s)
  }

  const FileStat := Stat(0, 0x81A4, 0)
  const DirStat := Stat(0, 0x41ED, 0)
  const LinkStat := Stat(15, 0xA1FF, 0)

  /** An ordinary file, listed from its directory: it resolves to itself. */
  lemma NormalFile()
    ensures var o := Oracle(P("/tmp/t/normal_file.txt"), Ok(false), Ok(true), Ok(false),
                            Ok(FileStat), Ok(P("/tmp/t/normal_file.txt")));
            var r := Construct(o, Print);
      && r.Built? && r.onerrorCalls == []
      && !r.snapshot.isSymlink && r.snapshot.isFile
      && !r.snapshot.differentPath
      && r.snapshot.resolvedPath == Some(P("/tmp/t/normal_file.txt"))
      && r.snapshot.resolveError == None
      && Classify(r.snapshot) == SamePath
  {
  }

  /** A directory junction: not a symlink, yet it resolves elsewhere. */
  lemma Junction()
    ensures var o := Oracle(P("C:\\t\\dir2"), Ok(false), Ok(false), Ok(true),
                            Ok(DirStat), Ok(P("C:\\t\\dir1")));
            var r := Construct(o, Print);
      && r.Built? && r.onerrorCalls == []
      && !r.snapshot.isSymlink
      && r.snapshot.differentPath
      && r.snapshot.resolvedPath == Some(P("C:\\t\\dir1"))
      && r.snapshot.resolveError == None
      && Classify(r.snapshot) == DifferentTarget
  {
  }

  /** A junction whose target was renamed away: resolving raises
      `FileNotFoundError`, which is reported once and kept. The oracle lets
      `stat` answer for the broken junction, which holds only if
      `Path2.stat` does not follow it (see `BrokenSymlinkFollowingStat`). */
  lemma BrokenJunction(text: string)
    ensures var o := Oracle(P("C:\\t\\dir2"), Ok(false), Ok(false), Ok(true),
                            Ok(DirStat), Err(NotFound(text)));
            var r := Construct(o, Print);
      && r.Built?
      && !r.snapshot.isSymlink
      && r.snapshot.differentPath
      && r.snapshot.resolvedPath == None
      && r.snapshot.resolveError == Some(NotFound(text))
      && |r.onerrorCalls| == 1
      && ParseResolveMessage(r.onerrorCalls[0]) == Some(("C:\\t\\dir2", text))
      && Classify(r.snapshot) == Unresolvable
  {
    ResolveMessageRoundTrip("C:\\t\\dir2", NotFound(text));
  }

  /** A symlink to an existing file, resolving to the source file. The
      oracle answers `is_file` False, as the test expects; that holds only
      if `Path2.is_file` does not follow links (see `SymlinkFollowingQueries`
      for the answers of the following queries). */
  lemma Symlink()
    ensures var o := Oracle(P("./destination.txt"), Ok(true), Ok(false), Ok(false),
                            Ok(LinkStat), Ok(P("/tmp/t/source_file.txt")));
            var r := Construct(o, Print);
      && r.Built? && r.onerrorCalls == []
      && r.snapshot.path == "./destination.txt"
      && r.snapshot.isSymlink && !r.snapshot.isFile
      && r.snapshot.differentPath
      && r.snapshot.resolvedPath == Some(P("/tmp/t/source_file.txt"))
      && Classify(r.snapshot) == DifferentTarget
  {
  }

  /** The same symlink after its source was deleted. The oracle lets
      `stat` answer for the dangling link, as the test's outcome requires;
      that holds only if `Path2.stat` does not follow links (see
      `BrokenSymlinkFollowingStat`). */
  lemma BrokenSymlink(text: string)
    ensures var o := Oracle(P("./destination.txt"), Ok(true), Ok(false), Ok(false),
                            Ok(LinkStat), Err(NotFound(text)));
            var r := Construct(o, Print);
      && r.Built?
      && r.snapshot.path == "./destination.txt"
      && r.snapshot.isSymlink && !r.snapshot.isFile
      && r.snapshot.differentPath
      && r.snapshot.resolvedPath == None
      && r.snapshot.resolveError == Some(NotFound(text))
      && |r.onerrorCalls| == 1
      && ParseResolveMessage(r.onerrorCalls[0]) == Some(("./destination.txt", text))
  {
    ResolveMessageRoundTrip("./destination.txt", NotFound(text));
  }

  /** A symlink loop makes resolve raise something other than the two
      caught kinds: no snapshot, no call of `onerror`. */
  lemma ResolveLoopEscapes(text: string)
    ensures var o := Oracle(P("./loop"), Ok(true), Ok(false), Ok(false),
                            Ok(LinkStat), Err(Other(text)));
      Construct(o, Print) == Raised(Other(text), [])
  {
  }

  /** A stat that fails escapes before resolve, whatever resolve would say. */
  lemma StatFailureEscapes(text: string, answer: Result<Path2>)
    ensures var o := Oracle(P("./gone"), Ok(false), Ok(false), Ok(false),
                            Err(NotFound(text)), answer);
      Construct(o, Print) == Raised(NotFound(text), [])
  {
  }

  /** A directory listed with its plain form resolves to the extended form
      of itself: `str()` of the two differs, their `.path` does not, and
      only `.path` is compared. */
  lemma ResolvesToExtendedFormOfItself()
    ensures var o := Oracle(P("C:\\t\\dir1"), Ok(false), Ok(false), Ok(true),
                            Ok(DirStat), Ok(Path2("\\\\?\\C:\\t\\dir1", "C:\\t\\dir1")));
            var r := Construct(o, Print);
      && r.Built?
      && r.snapshot.resolvedPath.value.strForm != r.snapshot.path
      && !r.snapshot.differentPath
      && Classify(r.snapshot) == SamePath
  {
  }

  /** An entry whose `str()` is the extended form `\\?\<plain>` of its
      `.path`: the snapshot's `path` and the `onerror` message name the
      `str()` form, not `.path`. */
  lemma MessageNamesStrForm(plain: string, text: string)
    ensures var ext := "\\\\?\\" + plain;
            var o := Oracle(Path2(ext, plain), Ok(false), Ok(false), Ok(true),
                            Ok(DirStat), Err(PermissionErr(text)));
            var r := Construct(o, Print);
      && r.Built?
      && r.snapshot.path == ext
      && |r.onerrorCalls| == 1
      && ParseResolveMessage(r.onerrorCalls[0]) == Some((ext, text))
  {
    ResolveMessageRoundTrip("\\\\?\\" + plain, PermissionErr(text));
  }

  /** The message for a broken Windows entry, written out: the backslash
      of the path is doubled by `%r`. */
  lemma BrokenJunctionMessageText(text: string)
    ensures ResolveMessage("C:\\t", NotFound(text))
      == "Resolve 'C:\\\\t' error: " + text
  {
    PyRepr.ReprDoublesBackslash();
  }

  /** A symlink to an existing file when `is_file` and `stat` follow links,
      as `pathlib`'s do: `is_file` is True and `stat` is the target's; the
      snapshot is still a symlink resolving elsewhere. */
  lemma SymlinkFollowingQueries()
    ensures var o := Oracle(P("./destination.txt"), Ok(true), Ok(true), Ok(false),
                            Ok(FileStat), Ok(P("/tmp/t/source_file.txt")));
            var r := Construct(o, Print);
      && r.Built? && r.onerrorCalls == []
      && r.snapshot.isSymlink && r.snapshot.isFile
      && r.snapshot.stat == FileStat
      && Classify(r.snapshot) == DifferentTarget
  {
  }

  /** A dangling link when `stat` follows links, as `pathlib`'s does:
      `is_file` answers False, `stat` raises `FileNotFoundError`, and that
      escapes before resolve is tried. No snapshot is built and `onerror` is
      never called, whatever resolve would answer. */
  lemma BrokenSymlinkFollowingStat(text: string, answer: Result<Path2>)
    ensures var o := Oracle(P("./destination.txt"), Ok(true), Ok(false), Ok(false),
                            Err(NotFound(text)), answer);
      Construct(o, Print) == Raised(NotFound(text), [])
  {
  }
}
