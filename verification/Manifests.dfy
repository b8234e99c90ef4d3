/** The manifest a run answers with, and what it says of the live files before and after the run. */
module Manifests {
  import opened Strings
  import opened Json
  import opened Results
  import opened Tables
  import opened Checkpoints
  import opened Disks
  import opened Outputs
  import opened Runs
  import opened System
  import opened Logs
  import Consumers
  import JsonProofs
  import Jsonl

  datatype TableManifest = TableManifest(
    table: string,
    deltaRowCount: nat,
    lakePaths: seq<Path>,
    sharePath: Option<Path>,
    schemaFingerprint: string)

  datatype Manifest = Manifest(
    runId: string,
    dryRun: bool,
    checkpointBefore: Json,
    checkpointAfter: Json,
    tables: seq<TableManifest>)

  function TableManifestOf(cfg: Config, t: TableSpec, rows: seq<Row>): TableManifest
    requires ValidConfig(cfg) && ValidSpec(t) && ValidRows(t, rows)
  {
    RowsAreTimed(t, rows);
    TableManifest(t.name, |rows|, PredictLake(t, rows), PredictShare(t, rows), Fingerprint(cfg, t))
  }

  function TableManifests(cfg: Config, deltas: Deltas): (ms: seq<TableManifest>)
    requires ValidConfig(cfg) && ValidDeltas(cfg.tables, deltas)
    ensures |ms| == |cfg.tables|
    ensures forall i :: 0 <= i < |ms| ==> ms[i] == TableManifestOf(cfg, cfg.tables[i], deltas[cfg.tables[i].name])
  {
    seq(|cfg.tables|, i requires 0 <= i < |cfg.tables| =>
      TableManifestOf(cfg, cfg.tables[i], deltas[cfg.tables[i].name]))
  }

  /** What a run has worked out before it writes anything. */
  datatype Decision = Decision(id: string, before: Checkpoint, after: Checkpoint, deltas: Deltas)

  function DecisionOf(run: Run): Decision { Decision(run.id, run.before, run.after, run.deltas) }

  ghost predicate Reportable(cfg: Config, d: Decision) {
    && ValidConfig(cfg) && ValidCheckpoint(d.before) && ValidCheckpoint(d.after)
    && ValidDeltas(cfg.tables, d.deltas)
  }

  /** The manifest of a run, its two clock readings aside. */
  function ManifestOf(cfg: Config, d: Decision, dryRun: bool): Manifest
    requires Reportable(cfg, d)
  {
    Manifest(d.id, dryRun, ToDict(d.before), ToDict(d.after), TableManifests(cfg, d.deltas))
  }

  // ------------------------------------------------------------ what it says

  /** The member, printed and loaded as a checkpoint file is, is this checkpoint. */
  ghost predicate Says(v: Json, cp: Checkpoint) {
    HoldsCheckpoint(Canonical(v), cp)
  }

  lemma {:induction false} DictSays(cp: Checkpoint)
    requires ValidCheckpoint(cp)
    ensures Says(ToDict(cp), cp)
  {
    hide NormalizeFields, EntriesFrom, EntryFields, Load, Canonical, HoldsCheckpoint;
    JsonProofs.LoadDumped(ToDict(cp));
    NormalizedObj(ToDict(cp).fields);
    DictRoundTrip(cp);
    LoadsExactly({}, Canonical(ToDict(cp)), cp);
  }

  /** One of the table's partitions. */
  ghost predicate Partition(t: TableSpec, p: Path) {
    exists key :: p == LakeLive(t, key)
  }

  /** The text of these rows was added to the partitions of their dates, and nothing else was. */
  ghost predicate LakeGained(t: TableSpec, rows: seq<Row>, live0: LiveFiles, live1: LiveFiles) {
    && ValidRows(t, rows) && Timed(rows)
    && (forall key :: key in DateKeys(rows) ==>
          && LakeLive(t, key) in live1 && ValidRows(t, OnDate(rows, key))
          && live1[LakeLive(t, key)] == Merged(TextAt(live0, LakeLive(t, key)), Encode(t, OnDate(rows, key))))
    && (forall key :: key !in DateKeys(rows) ==> Unchanged(live0, live1, LakeLive(t, key)))
  }

  /** The row count is that of the rows added to the lake, the lake paths are exactly the partitions that
      changed, each once, and the share path is that of the rows' records, if there are any. */
  ghost predicate TableTold(cfg: Config, t: TableSpec, rows: seq<Row>, m: Manifest, tm: TableManifest,
      after: Checkpoint, live0: LiveFiles, live1: LiveFiles)
  {
    && ValidConfig(cfg) && ValidSpec(t) && ValidCheckpoint(after)
    && tm.table == t.name && tm.schemaFingerprint == Fingerprint(cfg, t)
    && LakeGained(t, rows, live0, live1) && tm.deltaRowCount == |rows|
    && (forall p :: p in tm.lakePaths <==> Partition(t, p) && !Unchanged(live0, live1, p))
    && (forall i, j :: 0 <= i < j < |tm.lakePaths| ==> tm.lakePaths[i] != tm.lakePaths[j])
    && (rows == [] ==> tm.sharePath == None && Unchanged(live0, live1, ShareLive(t)))
    && (rows != [] ==>
          && tm.sharePath == Some(ShareLive(t)) && ShareLive(t) in live1
          && live1[ShareLive(t)] == ShareText(cfg, t, rows, m.runId, after))
  }

  function EventOf(m: Manifest, tm: TableManifest, after: Checkpoint): Consumers.Event {
    Consumers.Event(tm.table, m.runId, tm.schemaFingerprint, tm.deltaRowCount, tm.lakePaths, tm.sharePath, after)
  }

  /** The events file named after the run says, table by table, what the manifest says. */
  ghost predicate EventsTold(m: Manifest, after: Checkpoint, live: LiveFiles) {
    && EventsLive(m.runId) in live
    && var es := Consumers.ReadEvents(live[EventsLive(m.runId)]);
       && es.Some? && |es.value| == |m.tables|
       && forall i :: 0 <= i < |m.tables| ==> es.value[i] == EventOf(m, m.tables[i], after)
  }

  /** What a manifest says of the live files before its run and of those the run leaves: the checkpoints
      that load from them, and what was added for each table. */
  ghost predicate Tells(cfg: Config, deltas: Deltas, m: Manifest, live0: LiveFiles, live1: LiveFiles) {
    var before, after := LoadCheckpoint(cfg, live0), LoadCheckpoint(cfg, live1);
    && before.Usable? && Says(m.checkpointBefore, before.cp)
    && after.Usable? && Says(m.checkpointAfter, after.cp)
    && EventsTold(m, after.cp, live1)
    && |m.tables| == |cfg.tables|
    && forall i :: 0 <= i < |cfg.tables| ==>
         && cfg.tables[i].name in deltas
         && TableTold(cfg, cfg.tables[i], deltas[cfg.tables[i].name], m, m.tables[i], after.cp, live0, live1)
  }

  lemma {:induction false} EncodeIsSome(t: TableSpec, rows: seq<Row>)
    requires ValidRows(t, rows) && rows != []
    ensures Encode(t, rows) != ""
  {
    hide RowJson, ValidRow, Canonical;
    var vs := RowJsons(t, rows);
    assert Jsonl.Text(vs) == Jsonl.Text(vs[..|vs| - 1]) + Line(vs[|vs| - 1]);
  }

  lemma TouchedIsChanged(t: TableSpec, rows: seq<Row>, live0: LiveFiles, live1: LiveFiles, key: string)
    requires LakeGained(t, rows, live0, live1) && key in DateKeys(rows)
    ensures !Unchanged(live0, live1, LakeLive(t, key))
  {
    hide ValidRow, DateKeyOf, Encode, LakeLive;
    SomeOnDate(rows, key);
    EncodeIsSome(t, OnDate(rows, key));
  }

  lemma LakeIsGained(cfg: Config, run: Run, i: nat)
    requires Publishable(cfg, run) && i < |cfg.tables|
    ensures cfg.tables[i].name in run.deltas
    ensures LakeGained(cfg.tables[i], run.deltas[cfg.tables[i].name], run.base, After(run))
  {
    hide After, LakeLive, DateKeys, Publishable, Encode, Merged, OnDate, Timed, ValidRows, ValidSpec;
    BatchFits(cfg, run, i);
    var t := cfg.tables[i];
    var rows := run.deltas[t.name];
    forall key | key in DateKeys(rows)
      ensures LakeLive(t, key) in After(run) && ValidRows(t, OnDate(rows, key))
      ensures After(run)[LakeLive(t, key)] == Merged(TextAt(run.base, LakeLive(t, key)), Encode(t, OnDate(rows, key)))
    {
      TouchedPartitionAfter(cfg, run, i, key);
      OnDateValid(t, rows, key);
    }
    forall key | key !in DateKeys(rows) ensures Unchanged(run.base, After(run), LakeLive(t, key)) {
      OtherPartitionAfter(cfg, run, i, key);
    }
  }

  lemma PredictedAreChanged(t: TableSpec, rows: seq<Row>, live0: LiveFiles, live1: LiveFiles)
    requires LakeGained(t, rows, live0, live1)
    ensures forall p :: p in PredictLake(t, rows) <==> Partition(t, p) && !Unchanged(live0, live1, p)
  {
    hide LakeLive, DateKeyOf, ValidRows, OnDate, Encode, Merged, Unchanged;
    var keys := SortedKeys(DateKeys(rows));
    var ps := PredictLake(t, rows);
    if rows == [] { assert DateKeys(rows) == {}; }
    forall p ensures p in ps <==> Partition(t, p) && !Unchanged(live0, live1, p) {
      if p in ps {
        var i :| 0 <= i < |ps| && ps[i] == p;
        assert keys[i] in keys;
        TouchedIsChanged(t, rows, live0, live1, keys[i]);
      }
      if Partition(t, p) && !Unchanged(live0, live1, p) {
        var key :| p == LakeLive(t, key);
        assert key in keys;
        var i :| 0 <= i < |keys| && keys[i] == key;
        assert ps[i] == p;
      }
    }
  }

  lemma PredictedOnce(t: TableSpec, rows: seq<Row>)
    requires Timed(rows)
    ensures forall i, j :: 0 <= i < j < |PredictLake(t, rows)| ==> PredictLake(t, rows)[i] != PredictLake(t, rows)[j]
  {
    hide LakeLive, DateKeyOf, DateKeys;
    var keys := SortedKeys(DateKeys(rows));
    var ps := PredictLake(t, rows);
    SortedKeysAscend(DateKeys(rows));
    forall i, j | 0 <= i < j < |ps| ensures ps[i] != ps[j] {
      AscendingDistinct(keys, i, j);
      LakeLiveInjective(t, keys[i], t, keys[j]);
    }
  }

  lemma TableIsTold(cfg: Config, run: Run, m: Manifest, i: nat)
    requires Publishable(cfg, run) && i < |cfg.tables| && m.runId == run.id
    ensures var t := cfg.tables[i];
            && t.name in run.deltas && ValidSpec(t) && ValidRows(t, run.deltas[t.name])
            && TableTold(cfg, t, run.deltas[t.name], m, TableManifestOf(cfg, t, run.deltas[t.name]), run.after,
                 run.base, After(run))
  {
    hide After, LakeGained, Unchanged, ShareLive, ShareText, AllOutputs, ValidConfig, ValidSpec, ValidRow, PredictLake;
    hide Fingerprint, Partition, TimedDeltas, Timed;
    BatchFits(cfg, run, i);
    LakeIsGained(cfg, run, i);
    var rows := run.deltas[cfg.tables[i].name];
    PredictedAreChanged(cfg.tables[i], rows, run.base, After(run));
    PredictedOnce(cfg.tables[i], rows);
    if rows == [] { OtherShareAfter(cfg, run, i); } else { TouchedShareAfter(cfg, run, i); }
  }

  lemma EventsAreTold(cfg: Config, run: Run, dryRun: bool)
    requires Publishable(cfg, run) && Reportable(cfg, DecisionOf(run))
    ensures EventsTold(ManifestOf(cfg, DecisionOf(run), dryRun), run.after, After(run))
  {
    hide After, EventsText, AllOutputs, ValidConfig, ValidSpec, ValidRow, PredictLake, PredictShare, Fingerprint;
    hide Consumers.ReadEvents, Timed, EventsLive, ToDict;
    EndsAfter(cfg, run);
    Consumers.EventsReadBack(cfg, run.deltas, run.id, run.after);
  }

  /** The manifest of a run, dry or real, tells what the run finds and what it leaves. */
  lemma {:induction false} ManifestTells(cfg: Config, run: Run, dryRun: bool)
    requires Publishable(cfg, run) && Computed(cfg, run) && Reportable(cfg, DecisionOf(run))
    ensures Tells(cfg, run.deltas, ManifestOf(cfg, DecisionOf(run), dryRun), run.base, After(run))
  {
    hide After, Publishable, LoadCheckpoint, ValidConfig, Fetch, Advance, RunId, TableTold, EventsTold, Says, ToDict;
    hide TableManifestOf, ValidSource, TimedDeltas, ValidRow, ValidSpec;
    var m := ManifestOf(cfg, DecisionOf(run), dryRun);
    EndsAfter(cfg, run);
    DictSays(run.before);
    DictSays(run.after);
    EventsAreTold(cfg, run, dryRun);
    forall i | 0 <= i < |cfg.tables|
      ensures cfg.tables[i].name in run.deltas
      ensures TableTold(cfg, cfg.tables[i], run.deltas[cfg.tables[i].name], m, m.tables[i], run.after, run.base,
                After(run))
    {
      TableIsTold(cfg, run, m, i);
    }
  }

  /** For each table the lake, read whole, grew by as many rows as the manifest counts. */
  ghost predicate CountsRows(cfg: Config, m: Manifest, live0: LiveFiles, live1: LiveFiles) {
    && |m.tables| == |cfg.tables|
    && forall i :: 0 <= i < |cfg.tables| ==>
         var rows0, rows1 := WholeLake(cfg.tables[i], live0), WholeLake(cfg.tables[i], live1);
         && rows0.Some? && rows1.Some? && rows0.value <= rows1.value
         && |rows1.value| == |rows0.value| + m.tables[i].deltaRowCount
  }

  lemma {:induction false} ManifestCounts(cfg: Config, runs: seq<Run>, run: Run, dryRun: bool)
    requires ValidConfig(cfg) && Chained(cfg, runs + [run]) && Reportable(cfg, DecisionOf(run))
    ensures CountsRows(cfg, ManifestOf(cfg, DecisionOf(run), dryRun), LiveAfter(runs), LiveAfter(runs + [run]))
  {
    hide Chained, LiveAfter, WholeLake, ValidConfig, TableManifestOf, ToDict, Publishable, Computed, Log;
    assert (runs + [run])[..|runs|] == runs;
    LastRun(cfg, runs + [run]);
    forall i | 0 <= i < |cfg.tables|
      ensures WholeLake(cfg.tables[i], LiveAfter(runs)) == Some(Log(cfg.tables[i].name, runs))
      ensures WholeLake(cfg.tables[i], LiveAfter(runs + [run]))
           == Some(Log(cfg.tables[i].name, runs) + run.deltas[cfg.tables[i].name])
      ensures ManifestOf(cfg, DecisionOf(run), dryRun).tables[i].deltaRowCount == |run.deltas[cfg.tables[i].name]|
    {
      LakeIsLog(cfg, runs, i);
      LakeIsLog(cfg, runs + [run], i);
      OneMoreBatch(cfg, runs, run, i);
    }
  }

  lemma OneMoreBatch(cfg: Config, runs: seq<Run>, run: Run, i: nat)
    requires i < |cfg.tables| && Reportable(cfg, DecisionOf(run))
    ensures var name := cfg.tables[i].name;
            name in run.deltas && Log(name, runs + [run]) == Log(name, runs) + run.deltas[name]
    ensures TableManifestOf(cfg, cfg.tables[i], run.deltas[cfg.tables[i].name]).deltaRowCount
         == |run.deltas[cfg.tables[i].name]|
  {
    hide ValidSpec, ValidRow, Fingerprint, PredictLake, PredictShare;
    assert (runs + [run])[..|runs|] == runs;
  }
}
