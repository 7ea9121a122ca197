/** What a snapshot promises about the files it lists and the diagnostics it
    gives them, and how the seen files evolve over a series of dumps. */
module DumpProperties {
  import opened Diagnostics
  import opened Extension

  /** The snapshot lists every seen file exactly once: the files seen before
      come first and in their old order, followed by the newly reported ones;
      nothing else is listed. So the number of entries is the number of
      seen files. */
  lemma SnapshotListsSeenFilesOnce(seen: seq<string>, raw: seq<FileDiagnostics>)
    requires NoDuplicates(seen)
    ensures Files(Snapshot(seen, raw)) == RememberAll(seen, raw)
    ensures NoDuplicates(Files(Snapshot(seen, raw)))
    ensures |seen| <= |Snapshot(seen, raw)| && Files(Snapshot(seen, raw))[..|seen|] == seen
    ensures forall f :: f in Files(Snapshot(seen, raw)) <==> f in seen || Reports(raw, f)
  {
  }

  /** A file seen in an earlier dump that the current list no longer
      reports is written with no diagnostics. */
  lemma StaleFileHasNoDiagnostics(seen: seq<string>, raw: seq<FileDiagnostics>, i: nat)
    requires i < |Snapshot(seen, raw)|
    requires !Reports(raw, Snapshot(seen, raw)[i].file)
    ensures Snapshot(seen, raw)[i].file in seen
    ensures Snapshot(seen, raw)[i].diagnostics == []
  {
  }

  /** A file the current list reports is written with the diagnostics of the
      last element reporting it, one record per diagnostic and in order, each
      record carrying that diagnostic's fields unchanged. */
  lemma ReportedFileHasLatestDiagnostics(seen: seq<string>, raw: seq<FileDiagnostics>, i: nat)
    requires i < |Snapshot(seen, raw)|
    requires Reports(raw, Snapshot(seen, raw)[i].file)
    ensures var ds := raw[LastIndex(raw, Snapshot(seen, raw)[i].file)].diagnostics;
      && |Snapshot(seen, raw)[i].diagnostics| == |ds|
      && forall k :: 0 <= k < |ds| ==>
           Snapshot(seen, raw)[i].diagnostics[k] == Flatten(ds[k])
  {
  }

  /** The paths that a dump adds to the seen files are listed in the order
      of their first report in the current list. */
  lemma {:induction false} NewFilesInFirstReportOrder(seen: seq<string>, raw: seq<FileDiagnostics>, i: nat, j: nat)
    requires |seen| <= i < j < |RememberAll(seen, raw)|
    ensures Reports(raw, RememberAll(seen, raw)[i]) && Reports(raw, RememberAll(seen, raw)[j])
    ensures FirstIndex(raw, RememberAll(seen, raw)[i]) < FirstIndex(raw, RememberAll(seen, raw)[j])
    decreases |raw|
  {
    var r := RememberAll(seen, raw);
    var init := raw[..|raw| - 1];
    var p := raw[|raw| - 1].path;
    var r0 := RememberAll(seen, init);
    assert r == Remember(r0, p);
    if j < |r0| {
      NewFilesInFirstReportOrder(seen, init, i, j);
      FirstIndexOfPrefix(raw, r0[i]);
      FirstIndexOfPrefix(raw, r0[j]);
    } else {
      // r[j] is the newly added last path, first reported at the very end
      assert r[j] == p && p !in r0;
      assert !Reports(init, p);
      FirstIndexOfPrefix(raw, r0[i]);
    }
  }

  /** A path already reported by `raw` minus its last element has the same
      first report in `raw`. */
  lemma FirstIndexOfPrefix(raw: seq<FileDiagnostics>, f: string)
    requires raw != [] && Reports(raw[..|raw| - 1], f)
    ensures Reports(raw, f)
    ensures FirstIndex(raw, f) == FirstIndex(raw[..|raw| - 1], f) < |raw| - 1
  {
  }

  /** Two dumps in a row leave the seen files as one dump of both lists,
      one after the other, would: the set accumulates every path ever
      reported, in first-reported order. */
  lemma {:induction false} RememberAllAccumulates(seen: seq<string>, a: seq<FileDiagnostics>, b: seq<FileDiagnostics>)
    ensures RememberAll(RememberAll(seen, a), b) == RememberAll(seen, a + b)
    decreases |b|
  {
    if b == [] {
      assert a + b == a;
    } else {
      var binit := b[..|b| - 1];
      RememberAllAccumulates(seen, a, binit);
      assert (a + b)[..|a + b| - 1] == a + binit;
    }
  }

  /** Adding paths that are all seen already changes nothing. */
  lemma {:induction false} RememberAllKnownPaths(seen: seq<string>, raw: seq<FileDiagnostics>)
    requires forall i :: 0 <= i < |raw| ==> raw[i].path in seen
    ensures RememberAll(seen, raw) == seen
    decreases |raw|
  {
    if raw != [] {
      var init := raw[..|raw| - 1];
      assert forall i :: 0 <= i < |init| ==> init[i] == raw[i];
      RememberAllKnownPaths(seen, init);
    }
  }

  /** Dumping again while the editor reports the same diagnostics writes
      the same snapshot and leaves the seen files as they are. */
  lemma RepeatedDumpIsStable(seen: seq<string>, raw: seq<FileDiagnostics>)
    ensures RememberAll(RememberAll(seen, raw), raw) == RememberAll(seen, raw)
    ensures Snapshot(RememberAll(seen, raw), raw) == Snapshot(seen, raw)
  {
    var s1 := RememberAll(seen, raw);
    forall i | 0 <= i < |raw|
      ensures raw[i].path in s1
    {
      assert Reports(raw, raw[i].path);
    }
    RememberAllKnownPaths(s1, raw);
  }

  /** When a path is reported more than once, the last report wins. */
  lemma LastReportWins(raw: seq<FileDiagnostics>, f: string, ds: seq<Diagnostic>, later: seq<FileDiagnostics>)
    requires forall i :: 0 <= i < |later| ==> later[i].path != f
    ensures f in Collect(raw + [FileDiagnostics(f, ds)] + later)
    ensures Collect(raw + [FileDiagnostics(f, ds)] + later)[f] == ds
  {
    var all := raw + [FileDiagnostics(f, ds)] + later;
    LastIndexIsLastReport(all, |raw|, f);
  }

  /** An element that reports `f` with no later element reporting it is the
      last report of `f`. */
  lemma LastIndexIsLastReport(all: seq<FileDiagnostics>, k: nat, f: string)
    requires k < |all| && all[k].path == f
    requires forall j :: k < j < |all| ==> all[j].path != f
    ensures Reports(all, f) && LastIndex(all, f) == k
  {
  }
}
