# DirEntryPath snapshot, modelled in Dafny

`pathlib_revised` adds a `DirEntryPath` class on top of its `Path2` path type.
A `DirEntryPath` is built from one directory entry, or from a path. It captures
the entry's type flags (`is_symlink`, `is_file`, `is_dir`) and its `stat` once,
at construction. It then tries to resolve the path and classifies the result
into one of three terminal states:

- resolved to the same path (`different_path = False`);
- resolved to a different target, such as a symlink or a Windows junction
  (`different_path = True`);
- unresolvable, such as a broken link (`resolved_path = None`, `resolve_error`
  set, `different_path = True`).

Only `PermissionError` and `FileNotFoundError` from `resolve()` are caught.
A caught error is reported once to the `onerror` callback, whose default is
`print`. The message is `"Resolve %r error: %s"`, built from the entry's path
and the error.

The model is functional. `Path2` is not part of this model. It appears as an
`Oracle` record that holds the instance `Path2(path)` builds, known by its
`str()` form and its `.path` property, and the answer (value or exception) of
each of the five queries the constructor makes. `DirEntryPaths.Construct` is a
pure function from the oracle and the `onerror` argument. It returns
`Built(snapshot, onerrorCalls)` or `Raised(error, onerrorCalls)`, where
`onerrorCalls` lists the messages handed to `onerror`. Exceptions form the
closed type `PermissionErr | NotFound | Other`.

Files:

- `py_errors.dfy` (`PyErrors`): exception kinds, `Result`, `Option`, and which
  kinds the resolve step catches.
- `path2_oracle.dfy` (`Path2Oracle`): the `Path2` value, `Stat` and the oracle
  record.
- `py_repr.dfy` (`PyRepr`): Python's `repr()` of a `str`, which is what `%r`
  produces in the message, with a decoder and the round-trip proof.
- `dir_entry_path.dfy` (`DirEntryPaths`): the snapshot, the constructor, the
  classification and the lemmas about them.
- `scenarios.dfy` (`Scenarios`): the cases in the class docstring and the test
  suite, as concrete oracles.

The class docstring lists four cases (symlink, broken symlink, junction,
broken junction). The code classifies into three states. "Resolved to a
symlink target" and "resolved to a junction target" are the same state and
differ only in `is_symlink`. The model follows the code.

## Model

| member | source | states |
|---|---|---|
| DirEntryPaths.Construct | pathlib_revised/dir_entry_path.py:45-69 | Exactly one of `resolved_path` and `resolve_error` is set. The path and the four query answers are stored as returned. A successful resolve is kept, and `different_path` is true iff the two `.path` strings differ. A caught error is kept with `different_path` true. Construction raises iff a query fails, or resolve raises an uncaught kind, or `onerror` raises. A failing query raises its own exception first. `onerror` is called at most once, and exactly once iff resolve raised a caught error, with the message naming the path and error. |
| DirEntryPaths.ClassifyBuilt | pathlib_revised/dir_entry_path.py:63-69 | A built snapshot is "same path" iff resolve succeeded to an equal `.path`. It is "different target" iff resolve succeeded to another `.path`. It is "unresolvable" iff resolve raised a caught error. |
| DirEntryPaths.ClassificationIndependentOfSymlinkFlag | pathlib_revised/dir_entry_path.py:15-43 | Changing `is_symlink` keeps the snapshot built, stores the new flag, and leaves the classification unchanged. So a junction (`is_symlink = False`) can still be "different". |
| DirEntryPaths.QueryFailureSkipsResolve | pathlib_revised/dir_entry_path.py:49-55 | When a query before resolve fails, the outcome does not depend on the resolve answer or on `onerror`, and `onerror` is never called. |
| DirEntryPaths.FlagsIndependentOfResolve | pathlib_revised/dir_entry_path.py:46-52 | The flags, stat, path and path instance of two built snapshots that differ only in the resolve answer are equal. |
| DirEntryPaths.OnErrorUnusedWithoutCaughtError | pathlib_revised/dir_entry_path.py:54-61 | Unless resolve raised a caught error, the `onerror` argument does not change the outcome. |
| DirEntryPaths.OnErrorExceptionEscapes | pathlib_revised/dir_entry_path.py:56-57 | An exception raised by `onerror` escapes the constructor after that one call. |
| DirEntryPaths.ResolveMessage | pathlib_revised/dir_entry_path.py:57 | The `onerror` text is `Resolve `, then the `%r` literal of the entry's `str()` form, opening and closing with its quote, then ` error: `, then the error's text, and nothing else. |
| DirEntryPaths.DifferentPath | pathlib_revised/dir_entry_path.py:63-69 | An unresolved path is always different. `different_path` is false exactly when the path resolved to one with an equal `.path`. |
| DirEntryPaths.ResolveMessageRoundTrip | pathlib_revised/dir_entry_path.py:57 | The path and the error text can be read back from the `onerror` message. |
| DirEntryPaths.ResolveMessageInjective | pathlib_revised/dir_entry_path.py:57 | Equal messages come from equal paths and equal error texts. |
| PyRepr.QuoteFor | pathlib_revised/dir_entry_path.py:57 | The `%r` quote is `'` or `"`. It is `"` exactly when the text holds `'` and no `"`. |
| PyRepr.EscapeChar | pathlib_revised/dir_entry_path.py:57 | Python's per-character `%r` rule: a character is written as itself exactly when it is not the quote, not a backslash, not tab/newline/carriage return and not a hex-escaped control. The quote and backslash get a backslash before them. Tab, newline and carriage return become `\t`, `\n`, `\r`. A control becomes `\x` and two lower-case hex digits of its code. |
| PyRepr.EscapeBody | pathlib_revised/dir_entry_path.py:57 | Escaping at most quadruples the length. A text whose every character is plain for the quote comes out unchanged. |
| PyRepr.Repr | pathlib_revised/dir_entry_path.py:57 | `%r` output opens and closes with the same quote, and is at least two characters longer than the text. |
| PyRepr.UnescapeEscapeBody | pathlib_revised/dir_entry_path.py:57 | The escaped body, followed by its closing quote, decodes back to the text and leaves what follows untouched. |
| PyRepr.ReprRoundTrip | pathlib_revised/dir_entry_path.py:57 | Reading a literal back from `Repr(s) + rest` yields `s` and `rest`. |
| PyRepr.ReprInjective | pathlib_revised/dir_entry_path.py:57 | Different texts have different `%r` renderings, even with arbitrary text after them. |
| PyRepr.ReprDoublesBackslash | pathlib_revised/dir_entry_path.py:57 | Example: `repr` of the text `C:\t` (with a literal backslash) is `'C:\\t'`. The general rule is stated by `PyRepr.EscapeChar`. |
| Path2Oracle.QueryErrors | pathlib_revised/dir_entry_path.py:49-52 | There are no query exceptions iff all four queries answer. The first exception is that of the first failing query in the call order `is_symlink`, `is_file`, `is_dir`, `stat`. |
| Scenarios.NormalFile | pathlib_revised/tests/test_dir_entry_path.py:21-42 | An ordinary file is not a symlink. It resolves to itself, with `different_path` false, no error and no `onerror` call. |
| Scenarios.Junction | pathlib_revised/tests/test_dir_entry_path.py:132-140 | A junction is not a symlink. It resolves to its target with `different_path` true. |
| Scenarios.BrokenJunction | pathlib_revised/tests/test_dir_entry_path.py:142-157 | A junction whose target is gone keeps `is_symlink` false. It has no resolved path, a `FileNotFoundError`, `different_path` true, and one `onerror` message naming the entry. |
| Scenarios.Symlink | pathlib_revised/tests/test_dir_entry_path.py:175-190 | A symlink is a symlink, not a file, and resolves to its source with `different_path` true. |
| Scenarios.BrokenSymlink | pathlib_revised/tests/test_dir_entry_path.py:192-207 | A broken symlink keeps its flags. It has no resolved path, a `FileNotFoundError`, `different_path` true, and one `onerror` message naming `./destination.txt`. |
| Scenarios.ResolveLoopEscapes | pathlib_revised/dir_entry_path.py:54-56 | Any other resolve exception escapes unchanged, with no `onerror` call. |
| Scenarios.StatFailureEscapes | pathlib_revised/dir_entry_path.py:49-54 | A failing `stat` escapes whatever resolve would answer. |
| Scenarios.ResolvesToExtendedFormOfItself | pathlib_revised/dir_entry_path.py:66-69 | Resolving to a path whose `str()` differs but whose `.path` is equal gives `different_path` false: only `.path` is compared. |
| Scenarios.MessageNamesStrForm | pathlib_revised/dir_entry_path.py:47-57 | For an entry whose `str()` is the `\\?\` extended form of its `.path`, the snapshot's `path` and the `onerror` message use the `str()` form. |
| Scenarios.SymlinkFollowingQueries | pathlib_revised/dir_entry_path.py:49-52 | If `is_file` and `stat` follow links, a symlink to a file has `is_file` true and the target's stat, and is still a symlink resolving elsewhere. |
| Scenarios.BrokenSymlinkFollowingStat | pathlib_revised/dir_entry_path.py:52-57 | If `stat` follows links, a dangling link makes `stat` raise `FileNotFoundError`. That exception escapes before resolve, with no snapshot and no `onerror` call. |
| Scenarios.BrokenJunctionMessageText | pathlib_revised/dir_entry_path.py:57 | Example: the full message for a broken Windows entry, with its backslashes doubled by `%r`. |

## Left out

- `Path2` itself (`pathlib_revised/pathlib.py` is not part of this model). Its
  construction, `resolve`, the `is_*` queries, `stat`, `extended_path` (the
  `\\?\` prefix), `relative_to`, `expanduser` and the filesystem operations
  appear only as oracle answers. So the model says nothing about the Windows
  extended-path prefix or about relative paths.
- Whether each query follows links, including the difference between building
  from an `os.DirEntry` and from a path, is decided inside `Path2`. It is
  folded into the oracle's answers.
- `Path2(path)` and `str()` are taken never to raise.
- Scenarios.Symlink: assumes `Path2.is_file` does not follow links, so a symlink to a file reports `is_file` false, as the test expects. `pathlib.py` is not part of this model. A `pathlib` query follows links and would report true; `Scenarios.SymlinkFollowingQueries` gives that case.
- Scenarios.BrokenSymlink: assumes `Path2.stat` does not follow links, so `stat` answers for a dangling link and the snapshot is built. A following `stat` raises `FileNotFoundError` first. Then no snapshot is built and `onerror` is not called, as `Scenarios.BrokenSymlinkFollowingStat` proves. The docstring's broken-link cases need the non-following form.
- Scenarios.BrokenJunction: rests on the same `Path2.stat` assumption as `Scenarios.BrokenSymlink`.
- `pformat` and `__str__` (`dir_entry_path.py:71-86`): display formatting only.
- PyRepr.Repr: non-ASCII characters above U+00A0, other than the soft
  hyphen, are kept verbatim. Python also escapes the rest of Unicode's
  non-printable characters (for example U+2028) as `\uXXXX` or `\UXXXXXXXX`,
  which needs the Unicode database. Paths holding lone surrogates are outside
  the model's domain: a Dafny `string` holds Unicode scalar values only. On
  POSIX, `os.scandir` puts such surrogates (U+DC80 to U+DCFF) into a path for
  bytes it cannot decode, and `%r` writes them as `\udcXX`.
- `str(err)` is kept abstract as the error's `text`. Python's
  `[Errno N] ...: 'path'` layout is not modelled.
- `print`'s effect on standard output is represented only by the recorded
  message. The model assumes `print` itself never raises.
- Real filesystem effects, the `mklink` subprocess calls and the temporary
  directory fixtures of the tests. `setup.py` is packaging only.
