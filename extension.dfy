/** The dumper extension: where the snapshot goes, which files it lists and
    what it says about each of them. The editor's API, the file system and the
    console are outside the model; what they supply (the setting, the home
    directory, `path.join`, the current diagnostics) comes in as parameters. */
module Extension {
  import opened Wrappers
  import opened JsString
  import opened Diagnostics

  /** The name of the snapshot file inside the output directory. */
  const OutputFileName: string := "vscode-diagnostics.json"

  /** The output directory: the `diagnosticsDumper.outputDir` setting with
      its surrounding white space trimmed when that leaves something, and
      `<home>/Desktop/vscode-diagnostics-dumper` otherwise. */
  function GetOutputDir(setting: Option<string>, home: string, join: seq<string> -> string): (r: string)
    ensures setting.Some? && !AllSpace(setting.value) ==>
      r == Trim(setting.value) && r != [] && Trimmed(r)
    ensures setting.None? || AllSpace(setting.value) ==>
      r == join([home, "Desktop", "vscode-diagnostics-dumper"])
  {
    var custom := if setting.Some? then Trim(setting.value) else [];
    if setting.Some? then
      TrimEmptyIffAllSpace(setting.value);
      TrimIsInfix(setting.value);
      if custom != [] then custom else join([home, "Desktop", "vscode-diagnostics-dumper"])
    else
      join([home, "Desktop", "vscode-diagnostics-dumper"])
  }

  /** The full path the snapshot is written to. */
  function OutputPath(setting: Option<string>, home: string, join: seq<string> -> string): string {
    join([GetOutputDir(setting, home, join), OutputFileName])
  }

  /** `f` is the path of some element of the current diagnostics list. */
  predicate Reports(raw: seq<FileDiagnostics>, f: string) {
    exists i :: 0 <= i < |raw| && raw[i].path == f
  }

  predicate NoDuplicates(s: seq<string>) {
    forall i, j :: 0 <= i < j < |s| ==> s[i] != s[j]
  }

  /** The position of the first element of `raw` that reports `f`. */
  function FirstIndex(raw: seq<FileDiagnostics>, f: string): (k: nat)
    requires Reports(raw, f)
    ensures k < |raw| && raw[k].path == f
    ensures forall j :: 0 <= j < k ==> raw[j].path != f
    decreases |raw|
  {
    var init := raw[..|raw| - 1];
    if Reports(init, f) then
      FirstIndex(init, f)
    else
      assert forall j :: 0 <= j < |raw| - 1 ==> init[j] == raw[j];
      |raw| - 1
  }

  /** The position of the last element of `raw` that reports `f`. */
  function LastIndex(raw: seq<FileDiagnostics>, f: string): (k: nat)
    requires Reports(raw, f)
    ensures k < |raw| && raw[k].path == f
    ensures forall j :: k < j < |raw| ==> raw[j].path != f
    decreases |raw|
  {
    var init := raw[..|raw| - 1];
    if raw[|raw| - 1].path == f then
      |raw| - 1
    else
      assert Reports(init, f) by {
        var i :| 0 <= i < |raw| && raw[i].path == f;
        assert init[i] == raw[i];
      }
      LastIndex(init, f)
  }

  /** `Set.prototype.add` on the insertion-ordered set of seen files. */
  function Remember(seen: seq<string>, f: string): seq<string> {
    if f in seen then seen else seen + [f]
  }

  /** The seen files after every path of `raw` has been added in turn: the
      old ones stay, first and in their order; the new ones are exactly the
      reported paths not seen before; no path is listed twice. */
  function RememberAll(seen: seq<string>, raw: seq<FileDiagnostics>): (r: seq<string>)
    ensures |seen| <= |r| && r[..|seen|] == seen
    ensures forall f :: f in r <==> f in seen || Reports(raw, f)
    ensures forall k :: |seen| <= k < |r| ==> r[k] !in seen && Reports(raw, r[k])
    ensures NoDuplicates(seen) ==> NoDuplicates(r)
    decreases |raw|
  {
    if raw == [] then seen
    else
      var init := raw[..|raw| - 1];
      assert forall f :: Reports(raw, f) <==> Reports(init, f) || raw[|raw| - 1].path == f by {
        forall f | Reports(raw, f) && raw[|raw| - 1].path != f
          ensures Reports(init, f)
        {
          var i :| 0 <= i < |raw| && raw[i].path == f;
          assert init[i] == raw[i];
        }
        forall f | Reports(init, f)
          ensures Reports(raw, f)
        {
          var i :| 0 <= i < |init| && init[i].path == f;
          assert raw[i] == init[i];
        }
      }
      Remember(RememberAll(seen, init), raw[|raw| - 1].path)
  }

  /** The `diagMap` built from the current list: each reported path maps to
      the diagnostics of the LAST element that reports it (`Map.set`
      overwrites), and no other path is a key. */
  function Collect(raw: seq<FileDiagnostics>): (m: map<string, seq<Diagnostic>>)
    ensures forall f :: f in m <==> Reports(raw, f)
    ensures forall f :: f in m ==> m[f] == raw[LastIndex(raw, f)].diagnostics
    decreases |raw|
  {
    if raw == [] then map[]
    else
      var init := raw[..|raw| - 1];
      var last := raw[|raw| - 1];
      assert forall f :: Reports(raw, f) <==> Reports(init, f) || last.path == f by {
        forall f | Reports(raw, f) && last.path != f
          ensures Reports(init, f)
        {
          var i :| 0 <= i < |raw| && raw[i].path == f;
          assert init[i] == raw[i];
        }
        forall f | Reports(init, f)
          ensures Reports(raw, f)
        {
          var i :| 0 <= i < |init| && init[i].path == f;
          assert raw[i] == init[i];
        }
      }
      Collect(init)[last.path := last.diagnostics]
  }

  /** The entry written for one seen file: its current diagnostics,
      flattened, or none when the current list does not report it. */
  function EntryFor(file: string, current: map<string, seq<Diagnostic>>): Entry {
    Entry(file, FlattenAll(if file in current then current[file] else []))
  }

  /** One entry per seen file, in the order the files were first seen. */
  function BuildEntries(files: seq<string>, current: map<string, seq<Diagnostic>>): seq<Entry> {
    seq(|files|, i requires 0 <= i < |files| => EntryFor(files[i], current))
  }

  /** The files the entries are about, in order. */
  function Files(entries: seq<Entry>): seq<string> {
    seq(|entries|, i requires 0 <= i < |entries| => entries[i].file)
  }

  /** The snapshot written when the current list is `raw` and the files seen
      before are `seen`. */
  function Snapshot(seen: seq<string>, raw: seq<FileDiagnostics>): seq<Entry> {
    BuildEntries(RememberAll(seen, raw), Collect(raw))
  }

  /** The dumper's state across dumps: the module-level set of every file
      path ever reported, in the order the paths were first reported. */
  class Dumper {
    var seen: seq<string>

    ghost predicate Valid()
      reads this
    {
      NoDuplicates(seen)
    }

    /** The set starts empty when the extension is loaded. */
    constructor ()
      ensures Valid() && seen == []
    {
      seen := [];
    }

    /** `dumpAllDiagnostics` without its file-system and console calls: it
        picks the output path, merges the current list `raw` into the seen
        files and a map from path to diagnostics, and returns the path and
        the entries it writes there. */
    method Dump(raw: seq<FileDiagnostics>, setting: Option<string>, home: string,
                join: seq<string> -> string)
      returns (outPath: string, entries: seq<Entry>)
      requires Valid()
      modifies this
      ensures Valid()
      ensures seen == RememberAll(old(seen), raw)
      ensures entries == Snapshot(old(seen), raw) && |entries| == |seen|
      ensures outPath == OutputPath(setting, home, join)
    {
      var outDir := GetOutputDir(setting, home, join);
      outPath := join([outDir, OutputFileName]);

      var diagMap: map<string, seq<Diagnostic>> := map[];
      for i := 0 to |raw|
        invariant NoDuplicates(seen)
        invariant seen == RememberAll(old(seen), raw[..i])
        invariant diagMap == Collect(raw[..i])
      {
        assert raw[..i + 1][..i] == raw[..i];
        var file := raw[i].path;
        diagMap := diagMap[file := raw[i].diagnostics];
        if file !in seen {
          seen := seen + [file];
        }
      }
      assert raw[..|raw|] == raw;

      entries := BuildEntries(seen, diagMap);
    }
  }
}
