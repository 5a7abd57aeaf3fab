# Playlist persistence of the ffplayout engine, modelled in Dafny

This project models the decision logic of `engine/src/utils/playlist.rs`,
the layer that keeps one JSON playlist document per calendar date for a
playout channel:

- **Date-keyed layout** (`Layout`): a date is split on `-`. Its playlist
  lives at `<playlists>/<d[0]>/<d[1]>/<date>.json`.
- **Read, write, delete** (`Store`): each is a pure transition over an
  abstract file store. The store is a map from path to entry, where an entry
  is either a document the JSON reader accepts (`Valid(doc)`) or one it
  rejects (`Corrupt`). Write and delete return their answer together with
  the store they leave behind; read returns only its answer and leaves the
  store as it is.
- **Generation** (`Generation`): the template is taken out of the
  configuration and each source's media paths are rewritten through the
  path normaliser. The template is put back, the external generator runs,
  and its answer is interpreted. The two critical sections of the source
  are modelled as sequential steps.

Files: `types.dfy` (Option/Result, `ServiceError`, messages, the playlist
record), `paths.dfy` (paths as component lists, `join`, `extension`, the
case-insensitive "json" test), `layout.dfy`, `config.dfy` (the
configuration fields this code touches), `store.dfy`, `generate.dfy`.

Collaborators that cannot be seen become parameters:

- the JSON writer and file removal become an `IoOutcome` (`Done` or `Failed`);
- `norm_abs_path` becomes a `Resolver` function from the storage root and a
  path to a resolved path or an error;
- `playlist_generator` becomes a `Generator` function from the
  configuration it sees to a list of playlists or an error.

Outcomes of `playlist.rs` worth knowing:

- Read of a date with no file answers `NoContent`.
- Read of a file the JSON reader rejects answers `Conflict`.
- A date without `-` makes the code panic when it indexes `d[1]`. The model
  states the `-` as a precondition of read, delete and by-date write.
- A media path the normaliser refuses ends generation through `?` with the
  normaliser's own error. The template is then not put back into the
  configuration (`RejectionLosesTemplate`).

## Model

| member | source | states |
|---|---|---|
| Layout.Split | engine/src/utils/playlist.rs:15 | `split('-')` gives at least one piece, at least two exactly when the date contains a dash, and no piece contains a dash |
| Layout.SplitJoinRoundTrip | engine/src/utils/playlist.rs:15 | gluing the pieces back together with `-` gives the original date: splitting loses nothing |
| Layout.JoinSplitRoundTrip | engine/src/utils/playlist.rs:15 | splitting dash-free pieces glued with `-` gives those pieces back, so `d[0]`/`d[1]` are the first two pieces of the date |
| Layout.DatePath | engine/src/utils/playlist.rs:15-22 | for a date with a `-` and no `.` or `/`, the date's file lies under the playlists root, at most three components deeper, and its name is the date followed by `.json` |
| Layout.CanonicalLayout | engine/src/utils/playlist.rs:15-22 | for a date `Y-M-D` whose pieces are free of `-`, `.` and `/`, with non-empty year and month, the file is exactly `root/Y/M/Y-M-D.json` |
| Layout.DatePathInjective | engine/src/utils/playlist.rs:15-22 | among dates with a `-` and no `.` or `/`, two different dates never map to the same file |
| Layout.LayoutByFirstTwoPieces | engine/src/utils/playlist.rs:15-22 | for a date with a `-` and no `.` or `/` whose first two pieces are non-empty, the file is exactly `root/d[0]/d[1]/<date>.json`, whatever the number of pieces |
| Layout.YearMonthLayout | engine/src/utils/playlist.rs:15-22 | for a date `Y-M` with non-empty pieces free of `-`, `.` and `/`, the file is exactly `root/Y/M/Y-M.json` |
| Layout.DatePathIsJsonFile | engine/src/utils/playlist.rs:42-52 | a date's file itself passes write's "is a JSON file" test and is never the playlists root |
| Store.DateFileAsLocation | engine/src/utils/playlist.rs:42-53 | when the playlists location is configured as some date's own file, write targets exactly that file, whatever date the document carries |
| Paths.IsJsonFileIff | engine/src/utils/playlist.rs:42-46 | the root counts as a JSON file exactly when its last component is a non-empty stem followed by `.json` in any ASCII case |
| Store.Read | engine/src/utils/playlist.rs:11-31 | no file at the date's path gives `NoContent`; an undecodable file gives `Conflict`; otherwise the stored document is returned |
| Store.Write | engine/src/utils/playlist.rs:34-86 | the target is the root when it is a JSON file, else the date's file. An equal stored document gives `Conflict` and no change. Otherwise a working writer always succeeds, storing the document at the target and changing no other path, and reports `Updated` exactly when a file (even an undecodable one) was there. A failing writer gives `InternalServerError` and no change |
| Store.Delete | engine/src/utils/playlist.rs:132-153 | a present file is removed with `Deleted` and no other path changes. An absent file gives `NothingToDelete` and no change. A failing removal gives `InternalServerError` and no change |
| Store.WriteThenRead | engine/src/utils/playlist.rs:48-78 | a by-date write with a working writer and no equal document in place is read back as the written document |
| Store.WriteTwiceConflicts | engine/src/utils/playlist.rs:61-69 | when a first write of a document goes through, writing the same document again is a `Conflict` that leaves the store as the first write left it |
| Store.OverwriteOnChange | engine/src/utils/playlist.rs:61-78 | when writing A goes through, writing a different B for the same date reports `Updated`, and a read then returns B |
| Store.DeleteTwice | engine/src/utils/playlist.rs:142-152 | after a successful delete, a second delete of the date succeeds with `NothingToDelete` and changes nothing |
| Store.DeleteThenRead | engine/src/utils/playlist.rs:136-152 | after a successful delete, reading the date gives `NoContent` |
| Store.FileLocationNotReadBack | engine/src/utils/playlist.rs:42-53 | when the playlists location is itself a JSON file, write replaces that file, and reading the document's date answers exactly as before the write |
| Store.ExampleTarget | engine/src/utils/playlist.rs:15-22 | under `/data/playlists`, read, write and delete of `2024-03-07` all address `/data/playlists/2024/03/2024-03-07.json` |
| Store.ExampleWrite | engine/src/utils/playlist.rs:34-86 | from an empty store, writing the `2024-03-07` document creates that one file with `Written`, and reading the date returns the document |
| Store.ExampleDelete | engine/src/utils/playlist.rs:132-153 | deleting the `2024-03-07` file empties the store with `Deleted`, and a second delete reports `NothingToDelete` |
| Generation.ResolvePaths | engine/src/utils/playlist.rs:99-106 | it succeeds exactly when every path resolves, and then yields a list of the same length with element i the resolution of path i. Otherwise it fails with the error of the first refused path |
| Generation.ResolveSources | engine/src/utils/playlist.rs:97-107 | every source keeps its position and gets its paths rewritten element by element. It succeeds exactly when all paths of all sources resolve. Otherwise it fails with the error of the first refused path, sources in order |
| Generation.Interpret | engine/src/utils/playlist.rs:115-129 | a non-empty generator result gives its first playlist; an empty one gives `Conflict`; a generator error gives `InternalServerError` |
| Generation.Generate | engine/src/utils/playlist.rs:88-130 | channel settings never change. Without a template the configuration is untouched. With one, a refused path yields that error and leaves the template absent. Otherwise the template comes back rewritten path by path, and the generator's answer is read on that configuration |
| Generation.RejectionLosesTemplate | engine/src/utils/playlist.rs:89-113 | after a refused path the call fails and the template is gone: the next generation runs the generator on the configuration unchanged |
| Generation.ResolvePathsStable | engine/src/utils/playlist.rs:101-104 | with an idempotent normaliser, resolving an already resolved list gives the same list |
| Generation.RewriteIsStable | engine/src/utils/playlist.rs:97-113 | with an idempotent normaliser, a second generation puts back exactly the template the first one stored |

## Left out

- Asynchronous execution (tokio) and the `RwLock` on the configuration are
  not modelled. The two critical sections of generation are sequential
  steps, so the race in which a concurrent generation finds no template is
  outside the model.
- `fs::create_dir_all` is not modelled: directory creation is taken to
  succeed. How `?` converts its I/O error into a `ServiceError` is not
  visible in this file.
- `is_file` is read as "the path is a key of the store". Directories at a
  playlist path are not modelled.
- JSON reading and writing are not modelled. A stored entry is `Valid(doc)`
  or `Corrupt`, and document equality is value equality of the record. Any
  failure of `json_reader` counts as `Corrupt`.
- Store.Write: a failing writer leaves the store unchanged. A partially
  written file is not modelled.
- `norm_abs_path` is an arbitrary function. No claim is made about keeping
  paths inside the storage root, and its other two results are dropped as
  the source drops them.
- `playlist_generator` is an arbitrary function of the configuration. The
  files it writes itself are not part of the store model.
- Logging and the exact message and conflict strings are not modelled.
  Messages keep only their kind and date.
- Layout.ValidDate: besides the `-` that `d[1]` needs, a date must contain
  no `.`, so that `with_extension("json")` only appends. It must also
  contain no `/`, so that each `join` adds at most one component. Dates that
  break these rules are outside the model.
- Layout.DatePath: its containment under the playlists root holds only for
  dates without `/`. `PathBuf::join` of an absolute piece replaces the
  whole path, so in the source a written document whose date is, say,
  `/tmp/x-y` goes to `/tmp/x-y.json`, outside the playlists root. The date
  comes from the document body. This escape is not modelled.
- Layout.DatePathInjective: holds only for dates without `.`. In the source
  `with_extension("json")` replaces whatever follows the date's last `.`,
  so dates differing only after their last `.` share one file: read, write
  and delete of `2024-03-07.bak` all act on `<root>/2024/03/2024-03-07.json`,
  the file of `2024-03-07`. Such dates are outside the model.
- A template path is kept as text. The lossy UTF-8 conversion of
  `to_string_lossy` is not modelled.
