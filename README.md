# vscode-diagnostics-dumper: the snapshot builder

This project models the part of the VS Code extension that produces
`vscode-diagnostics.json`, the diagnostics snapshot that a diagnostics hook
later reads. Each time the extension dumps, it does the following:

- It picks the output directory. This is the trimmed `diagnosticsDumper.outputDir`
  setting, or `<home>/Desktop/vscode-diagnostics-dumper` when the setting is
  absent or blank.
- It reads the editor's current list of `(file, diagnostics[])` pairs.
- It merges that list into a module-level, insertion-ordered set of every file
  ever reported. It also puts the list into a path-to-diagnostics map, where the
  last write for a path wins.
- It writes one entry per seen file, in first-seen order. Each diagnostic becomes
  a flat record. A file that is no longer reported gets an empty list.

Modules:

- `JsString` (`js_string.dfy`): `String.prototype.trim` over the ECMAScript
  white-space and line-terminator characters, with its characterisation.
- `Diagnostics` (`diagnostics.dfy`): the editor's diagnostic, the flat record that
  is written, the reverse lookup of the severity enumeration
  (`Error`=0, `Warning`=1, `Information`=2, `Hint`=3), code normalisation, and the
  round trip that shows which fields are copied unchanged.
- `Extension` (`extension.dfy`): `getOutputDir`, plus the merge specification
  (`RememberAll` for the seen set and `Collect` for the map). It also holds the
  class `Dumper`, whose field `seen` is the seen-files set. Its method `Dump`
  runs the source's `for` loop and is proved against those functions.
- `DumpProperties` (`dump_properties.dfy`): what a snapshot promises, and how the
  seen set evolves over a series of dumps.
- `Wrappers` (`wrappers.dfy`): `Option`, which stands for an optional (possibly
  `undefined`) value.

The editor's API, `os.homedir()`, `path.join` and the file system are outside
the model. The setting, the home directory, the current diagnostics list and a
`join` function come in as parameters. The method returns the output path and
the entries instead of writing them.

Each written diagnostic carries `message`, `severity`, `level`, `source`,
`code`, `start` and `end`, where `level` is the name of the severity
(src/extension.ts:50-56).

## Model

| member | source | states |
|---|---|---|
| `JsString.TrimStart` | src/extension.ts:11 | Only leading white space is dropped. What remains is a suffix of the input, and it does not start with white space. |
| `JsString.TrimEnd` | src/extension.ts:11 | Only trailing white space is dropped. What remains is a prefix of the input, and it does not end with white space. |
| `JsString.TrimIsInfix` | src/extension.ts:11 | `trim()` returns the infix left after removing white space from both ends. The result has no white space at either end. |
| `JsString.TrimEmptyIffAllSpace` | src/extension.ts:11-14 | The trimmed setting is empty, and so falsy, exactly when the setting is all white space. |
| `Extension.GetOutputDir` | src/extension.ts:9-18 | If the setting is present and not all white space, the result is the trimmed setting: non-empty, with no white space at its ends. Otherwise the result is `join([home, "Desktop", "vscode-diagnostics-dumper"])`. |
| `Extension.RememberAll` | src/extension.ts:38-42 | After the merge, the old seen files come first, unchanged and in their order. The new files are exactly the reported paths not seen before. A path is in the result iff it was seen or is reported now. No path is listed twice. |
| `Extension.Collect` | src/extension.ts:36-42 | The map's keys are exactly the reported paths. Each path maps to the diagnostics of the last list element that reports it. |
| `Extension.Dumper.constructor` | src/extension.ts:24 | The seen-files set starts empty and duplicate-free. |
| `Extension.Dumper.Dump` | src/extension.ts:29-59 | The new seen set is the old one merged with the current list. It stays duplicate-free. The entries are the snapshot of the old seen set and the list, with one entry per seen file. The output path is `join([GetOutputDir(..), "vscode-diagnostics.json"])`, which does not depend on the seen set. |
| `Diagnostics.LevelName` | src/extension.ts:52 | `level` is present iff `0 <= severity <= 3`. When present, it names the enumeration member whose number is `severity`. |
| `Diagnostics.LevelNameInvertsSeverityNumber` | src/extension.ts:52 | The reverse lookup maps each member's number back to that member's name. |
| `Diagnostics.NormaliseCode` | src/extension.ts:54 | The written code is absent iff the diagnostic has no code. For an object code it is the object's `value`. Otherwise it is the code itself. |
| `Diagnostics.FlattenRoundTrip` | src/extension.ts:49-57 | The diagnostic can be rebuilt from its written record, except that an object code is written as its bare value: both its link target and the fact that it was an object are lost. Message, severity, source, code value and both range ends are copied unchanged. |
| `Diagnostics.FlattenIdentifiesUpToLink` | src/extension.ts:49-57 | Two diagnostics get equal records iff they agree once each object code is reduced to its bare value; so an object code `{value: v, target: t}` gives the same record as the bare code `v`. |
| `Diagnostics.FlattenAll` | src/extension.ts:49 | A file's records match its diagnostics one to one and in order; each record rebuilds its diagnostic (up to the object code) and its `level` is `LevelName` of its severity. |
| `DumpProperties.SnapshotListsSeenFilesOnce` | src/extension.ts:45 | The entries' files are the seen set after the merge. No file repeats. The old seen files come first, in order. A file is listed iff it was seen before or is reported now. |
| `DumpProperties.StaleFileHasNoDiagnostics` | src/extension.ts:46 | An entry whose file the current list does not report was seen before. Its diagnostics are `[]`. |
| `DumpProperties.ReportedFileHasLatestDiagnostics` | src/extension.ts:46-57 | An entry whose file is reported holds the flattened diagnostics of the last element reporting it, one to one and in order. |
| `DumpProperties.NewFilesInFirstReportOrder` | src/extension.ts:38-45 | Files a dump adds to the seen set are listed in the order they are first reported in the current list. |
| `DumpProperties.RememberAllAccumulates` | src/extension.ts:24-41 | Two dumps in a row leave the same seen set as one dump of both lists joined. So the set accumulates every path ever reported, in first-reported order. |
| `DumpProperties.RememberAllKnownPaths` | src/extension.ts:41 | Adding paths that were all seen already leaves the set unchanged. |
| `DumpProperties.RepeatedDumpIsStable` | src/extension.ts:29-59 | Dumping again with the same current list leaves the seen set unchanged and writes the same snapshot. |
| `DumpProperties.LastReportWins` | src/extension.ts:40 | When a path is reported more than once, the map holds the diagnostics of its last report. |

## Left out

- Editor API and event wiring: `workspace.getConfiguration`, `languages.getDiagnostics`, `uri.fsPath`, the `onDidChangeDiagnostics` and `onDidChangeConfiguration` subscriptions, `registerCommand`, and `activate`/`deactivate`. These are foreign calls. Their results (the setting and the list of path/diagnostics pairs) are inputs to `Dump`.
- The 200 ms debounce in `scheduleDump`, and its `try`/`catch`. This is timer scheduling; it has no stateable logic.
- File-system and console work: `existsSync`, `mkdirSync`, `writeFileSync` and `console.log`. This is I/O. `Dump` returns the output path and the entries. The logged count is `|entries|`, which `Dump` states equals the size of the seen set.
- `JSON.stringify` formatting, including dropping keys whose value is `undefined`. This belongs to the runtime's serialiser.
- `os.homedir()` and `path.join`. These are parameters, so the model assumes no normalisation of the joined path.
- Exceptions: a non-string setting value, where `trim` would throw, and a failed `mkdirSync` before the merge. A throw would leave the seen set unchanged. In the model, `Dump` always completes.
- JavaScript numbers are modelled as integers: severity and numeric codes are `int`, and line and character offsets are `nat`. A `null` code is excluded by the editor's types and is not modelled.
- `src/resource/diagnostics_parser.js`: a file read with `JSON.parse` that returns `null` on failure, a prompt-file read, and one `String.prototype.replace` printed to the console. All of it is I/O around a library call.
- The diagnostics hook that reads `vscode-diagnostics.json` is a separate program from the extension and is not modelled here.
