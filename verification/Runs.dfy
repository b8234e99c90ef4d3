/** One ingest run as a function of the live files and a source snapshot: what it reads, what it
    stages, and the live files it leaves when its whole plan has been carried out. */
module Runs {
  import opened Strings
  import opened Results
  import opened Tables
  import opened Checkpoints
  import opened Disks
  import opened Staging
  import opened Outputs
  import Source

  type LiveFiles = map<Path, string>

  type Snapshots = map<string, Source.Snapshot>

  datatype Run = Run(
    base: LiveFiles,
    snapshot: Snapshots,
    id: string,
    before: Checkpoint,
    after: Checkpoint,
    deltas: Deltas,
    outputs: seq<Output>)

  predicate ValidSource(tables: seq<TableSpec>, src: Snapshots) {
    forall i :: 0 <= i < |tables| ==> tables[i].name in src && Source.ValidSnapshot(tables[i], src[tables[i].name])
  }

  predicate DistinctTables(tables: seq<TableSpec>) {
    forall i, j :: 0 <= i < j < |tables| ==> Apart(tables[i], tables[j])
  }

  function CheckpointFileIn(live: LiveFiles): CheckpointFile {
    if CHECKPOINT_LIVE in live then Present(live[CHECKPOINT_LIVE]) else Missing
  }

  function LoadCheckpoint(cfg: Config, live: LiveFiles): (r: LoadResult)
    ensures r.Usable? ==> ValidCheckpoint(r.cp)
  {
    LoadFile(TableNames(cfg.tables), CheckpointFileIn(live))
  }

  // ------------------------------------------------------------ fetch and advance

  /** `_fetch_deltas`: each table's delta from its watermark, all from one snapshot. */
  function Fetch(tables: seq<TableSpec>, cp: Checkpoint, src: Snapshots): Deltas
    requires ValidSource(tables, src)
  {
    if tables == [] then map[]
    else
      var n := |tables| - 1;
      var t := tables[n];
      Fetch(tables[..n], cp, src)[t.name := Source.Delta(t, src[t.name], WatermarkOf(cp, t.name))]
  }

  /** `advance_checkpoint`: each table with rows moves to its last row. */
  function Advance(tables: seq<TableSpec>, cp: Checkpoint, deltas: Deltas): Checkpoint
    requires forall i :: 0 <= i < |tables| ==> tables[i].name in deltas
  {
    if tables == [] then cp
    else
      var n := |tables| - 1;
      var t, rest := tables[n], Advance(tables[..n], cp, deltas);
      if deltas[t.name] == [] then rest
      else rest[t.name := Source.Advanced(t, WatermarkOf(cp, t.name), deltas[t.name])]
  }

  lemma {:induction false} FetchAt(tables: seq<TableSpec>, cp: Checkpoint, src: Snapshots, i: nat)
    requires ValidSource(tables, src) && DistinctTables(tables) && i < |tables|
    ensures tables[i].name in Fetch(tables, cp, src)
    ensures Fetch(tables, cp, src)[tables[i].name]
         == Source.Delta(tables[i], src[tables[i].name], WatermarkOf(cp, tables[i].name))
  {
    hide Source.Delta;
    var n := |tables| - 1;
    if i < n {
      FetchAt(tables[..n], cp, src, i);
      assert Apart(tables[i], tables[n]);
    }
  }

  lemma {:induction false} AdvanceAt(tables: seq<TableSpec>, cp: Checkpoint, deltas: Deltas, i: nat)
    requires DistinctTables(tables) && i < |tables|
    requires forall j :: 0 <= j < |tables| ==> tables[j].name in deltas
    ensures WatermarkOf(Advance(tables, cp, deltas), tables[i].name)
         == Source.Advanced(tables[i], WatermarkOf(cp, tables[i].name), deltas[tables[i].name])
    decreases |tables|
  {
    hide Source.Advanced;
    var n := |tables| - 1;
    if i < n {
      AdvanceAt(tables[..n], cp, deltas, i);
      assert Apart(tables[i], tables[n]);
    } else {
      AdvanceElsewhere(tables[..n], cp, deltas, tables[n].name);
      AdvancedNothing(tables[n], WatermarkOf(cp, tables[n].name));
    }
  }

  lemma AdvancedNothing(t: TableSpec, w: Watermark)
    ensures Source.Advanced(t, w, []) == w
  {
  }

  lemma {:induction false} AdvanceElsewhere(tables: seq<TableSpec>, cp: Checkpoint, deltas: Deltas, name: string)
    requires forall j :: 0 <= j < |tables| ==> tables[j].name in deltas && tables[j].name != name
    ensures name in Advance(tables, cp, deltas) <==> name in cp
    ensures name in cp ==> Advance(tables, cp, deltas)[name] == cp[name]
  {
    hide Source.Advanced;
    if tables != [] { AdvanceElsewhere(tables[..|tables| - 1], cp, deltas, name); }
  }

  lemma DeltaRowsValid(t: TableSpec, m: Source.Snapshot, w: Watermark)
    requires Source.ValidSnapshot(t, m)
    ensures Source.KeyedByPk(t, m) && ValidRows(t, Source.Delta(t, m, w))
    ensures forall i :: 0 <= i < |Source.Delta(t, m, w)| ==>
      var row := Source.Delta(t, m, w)[i];
      Source.PkOf(t, row) >= 0 && Before(EMPTY, Source.KeyOf(t, row)) && Before(w, Source.KeyOf(t, row))
  {
    hide Source.Delta;
    Source.DeltaIsDelta(t, m, w);
    var rows := Source.Delta(t, m, w);
    assert forall i :: 0 <= i < |rows| ==> rows[i] in rows;
  }

  lemma FetchedAreValid(cfg: Config, cp: Checkpoint, src: Snapshots)
    requires ValidConfig(cfg) && ValidSource(cfg.tables, src)
    ensures ValidDeltas(cfg.tables, Fetch(cfg.tables, cp, src)) && TimedDeltas(cfg.tables, Fetch(cfg.tables, cp, src))
    ensures ValidCheckpoint(cp) ==> ValidCheckpoint(Advance(cfg.tables, cp, Fetch(cfg.tables, cp, src)))
  {
    hide Source.Delta, Fetch, ValidRow, Timed;
    var deltas := Fetch(cfg.tables, cp, src);
    forall i | 0 <= i < |cfg.tables|
      ensures cfg.tables[i].name in deltas
      ensures ValidRows(cfg.tables[i], deltas[cfg.tables[i].name]) && Timed(deltas[cfg.tables[i].name])
      ensures deltas[cfg.tables[i].name]
           == Source.Delta(cfg.tables[i], src[cfg.tables[i].name], WatermarkOf(cp, cfg.tables[i].name))
    {
      var t := cfg.tables[i];
      FetchAt(cfg.tables, cp, src, i);
      DeltaRowsValid(t, src[t.name], WatermarkOf(cp, t.name));
      RowsAreTimed(t, deltas[t.name]);
    }
    if ValidCheckpoint(cp) { AdvanceIsValid(cfg.tables, cp, src, deltas); }
  }

  lemma {:induction false} AdvanceIsValid(tables: seq<TableSpec>, cp: Checkpoint, src: Snapshots, deltas: Deltas)
    requires ValidSource(tables, src) && ValidCheckpoint(cp) && ValidTables(tables)
    requires forall i :: 0 <= i < |tables| ==> tables[i].name in deltas
    requires forall i :: 0 <= i < |tables| ==>
      deltas[tables[i].name] == Source.Delta(tables[i], src[tables[i].name], WatermarkOf(cp, tables[i].name))
    ensures ValidCheckpoint(Advance(tables, cp, deltas))
  {
    if tables != [] {
      var n := |tables| - 1;
      AdvanceIsValid(tables[..n], cp, src, deltas);
      if deltas[tables[n].name] != [] {
        LastRowIsWatermark(tables[n], src[tables[n].name], WatermarkOf(cp, tables[n].name));
      }
    }
  }

  lemma LastRowIsWatermark(t: TableSpec, m: Source.Snapshot, w: Watermark)
    requires ValidSpec(t) && Source.ValidSnapshot(t, m) && Source.Delta(t, m, w) != []
    ensures ValidWatermark(Source.Advanced(t, w, Source.Delta(t, m, w)))
  {
    hide Source.Delta;
    DeltaRowsValid(t, m, w);
    var rows := Source.Delta(t, m, w);
    SpecialCells(t, rows[|rows| - 1]);
  }

  // ------------------------------------------------------------ outputs

  function LakeAll(tables: seq<TableSpec>, deltas: Deltas, live: LiveFiles, id: string): seq<Output>
    requires ValidTables(tables) && ValidDeltas(tables, deltas) && TimedDeltas(tables, deltas)
  {
    if tables == [] then []
    else
      var n := |tables| - 1;
      LakeAll(tables[..n], deltas, live, id) + LakeOutputs(tables[n], deltas[tables[n].name], live, id)
  }

  function ShareAll(cfg: Config, tables: seq<TableSpec>, deltas: Deltas, id: string, after: Checkpoint): seq<Output>
    requires ValidConfig(cfg) && ValidTables(tables) && ValidDeltas(tables, deltas) && ValidCheckpoint(after)
  {
    if tables == [] then []
    else
      var n := |tables| - 1;
      ShareAll(cfg, tables[..n], deltas, id, after) + ShareOutputs(cfg, tables[n], deltas[tables[n].name], id, after)
  }

  function EventsOutput(cfg: Config, deltas: Deltas, id: string, after: Checkpoint): Output
    requires ValidConfig(cfg) && ValidDeltas(cfg.tables, deltas) && ValidCheckpoint(after)
  {
    At(id, EventsLive(id), "events", EventsText(cfg, deltas, id, after))
  }

  function CheckpointOutput(id: string, after: Checkpoint): Output
    requires ValidCheckpoint(after)
  {
    At(id, CHECKPOINT_LIVE, "checkpoint", FileText(after))
  }

  /** `_stage_outputs`: lake, then share, then events, and the checkpoint last. */
  function AllOutputs(cfg: Config, live: LiveFiles, id: string, deltas: Deltas, after: Checkpoint): seq<Output>
    requires ValidConfig(cfg) && ValidDeltas(cfg.tables, deltas) && TimedDeltas(cfg.tables, deltas)
    requires ValidCheckpoint(after)
  {
    LakeAll(cfg.tables, deltas, live, id) + ShareAll(cfg, cfg.tables, deltas, id, after)
      + [EventsOutput(cfg, deltas, id, after), CheckpointOutput(id, after)]
  }

  /** The run that starts from these live files and this snapshot; none if the checkpoint file is
      unusable. Nothing else enters into it. */
  function Prepare(cfg: Config, live: LiveFiles, src: Snapshots): Option<Run>
    requires ValidConfig(cfg) && ValidSource(cfg.tables, src)
  {
    match LoadCheckpoint(cfg, live)
    case Corrupt => None
    case Usable(before) =>
      FetchedAreValid(cfg, before, src);
      var deltas := Fetch(cfg.tables, before, src);
      var after := Advance(cfg.tables, before, deltas);
      var id := RunId(cfg, before, deltas);
      Some(Run(live, src, id, before, after, deltas, AllOutputs(cfg, live, id, deltas, after)))
  }

  function Steps(os: seq<Output>): (steps: seq<CommitStep>)
    ensures |steps| == |os| && forall i :: 0 <= i < |os| ==> steps[i] == os[i].step
  {
    seq(|os|, i requires 0 <= i < |os| => os[i].step)
  }

  /** The live files after the outputs have been moved into place, in order. */
  function ApplyOutputs(base: LiveFiles, os: seq<Output>): LiveFiles {
    if os == [] then base
    else ApplyOutputs(base, os[..|os| - 1])[os[|os| - 1].step.livePath := os[|os| - 1].data]
  }

  /** The live files a committed run leaves. */
  function After(run: Run): LiveFiles {
    ApplyOutputs(run.base, run.outputs)
  }

  // ------------------------------------------------------------ the outputs are sane

  predicate KnownLive(p: Path) {
    p == CHECKPOINT_LIVE || (|p| > 1 && (p[0] == "lake" || p[0] == "share" || p[0] == "events"))
  }

  predicate PlainId(id: string) { id != "" && HexText(id) }

  /** An output staged in the run's directory under its live place. */
  predicate Proper(id: string, o: Output) {
    && KnownLive(o.step.livePath) && ValidPath(o.step.livePath) && !IsTemp(o.step.livePath)
    && o.step.stagedPath == Staged(id, o.step.livePath)
  }

  predicate AllProper(id: string, os: seq<Output>) {
    forall i :: 0 <= i < |os| ==> Proper(id, os[i])
  }

  ghost predicate DistinctLive(os: seq<Output>) {
    forall i, j :: 0 <= i < j < |os| ==> os[i].step.livePath != os[j].step.livePath
  }

  lemma HexIsPlain(id: string)
    requires PlainId(id)
    ensures Free('/', id) && id[0] != '.'
    ensures ValidPath(RunRoot(id)) && ValidPath(EventsLive(id)) && !IsTemp(EventsLive(id))
  {
    assert (id + ".jsonl")[0] == id[0];
  }

  lemma StagedIsProper(id: string, o: Output)
    requires PlainId(id) && Proper(id, o)
    ensures Movable(id, o.step) && ValidStep(o.step) && !IsTemp(o.step.stagedPath)
  {
    HexIsPlain(id);
    var p, q := o.step.livePath, o.step.stagedPath;
    if p == CHECKPOINT_LIVE {
      assert q == ["state", "runs", id, "checkpoint.json"];
      assert q[3] != PlanPath(id)[3] && q[3] != ReadyPath(id)[3];
    } else {
      assert q == ["state", "runs", id] + p;
      assert |q| > |PlanPath(id)| && |q| > |ReadyPath(id)|;
      assert q[|q| - 1] == p[|p| - 1];
      forall i | 0 <= i < |q| ensures q[i] != "" && Free('/', q[i]) { assert i >= 3 ==> q[i] == p[i - 3]; }
    }
  }

  lemma StagedInjective(id: string, p: Path, q: Path)
    requires KnownLive(p) && KnownLive(q) && Staged(id, p) == Staged(id, q)
    ensures p == q
  {
    var a, b := Staged(id, p), Staged(id, q);
    assert p != CHECKPOINT_LIVE ==> a == RunRoot(id) + p && |a| > 4 && a[3..] == p;
    assert q != CHECKPOINT_LIVE ==> b == RunRoot(id) + q && |b| > 4 && b[3..] == q;
  }

  lemma {:induction false} PlanIsSane(id: string, os: seq<Output>)
    requires PlainId(id) && AllProper(id, os) && DistinctLive(os)
    ensures SanePlan(id, Steps(os)) && ValidSteps(Steps(os))
  {
    hide Proper, Movable, ValidStep, Staged;
    var steps := Steps(os);
    forall i | 0 <= i < |steps| ensures Movable(id, steps[i]) && ValidStep(steps[i]) { StagedIsProper(id, os[i]); }
    forall i, j | 0 <= i < j < |steps| ensures steps[i].stagedPath != steps[j].stagedPath {
      StagedApart(id, os[i], os[j]);
    }
  }

  lemma StagedApart(id: string, o: Output, u: Output)
    requires Proper(id, o) && Proper(id, u) && o.step.livePath != u.step.livePath
    ensures o.step.stagedPath != u.step.stagedPath
  {
    if o.step.stagedPath == u.step.stagedPath { StagedInjective(id, o.step.livePath, u.step.livePath); }
  }

  // ------------------------------------------------------------ which files a run writes

  lemma DateComponent(key: string)
    requires Free('/', key)
    ensures "date=" + key != "" && Free('/', "date=" + key)
  {
  }

  lemma LakeLiveIsKnown(t: TableSpec, key: string)
    requires ValidSpec(t) && Free('/', key)
    ensures KnownLive(LakeLive(t, key)) && ValidPath(LakeLive(t, key)) && !IsTemp(LakeLive(t, key))
  {
    DateComponent(key);
    assert Free('/', "lake") && Free('/', "data.jsonl");
    assert "data.jsonl"[0] != '.';
  }

  lemma ShareLiveIsKnown(t: TableSpec)
    requires ValidSpec(t)
    ensures KnownLive(ShareLive(t)) && ValidPath(ShareLive(t)) && !IsTemp(ShareLive(t))
  {
    assert Free('/', "share") && Free('/', "changes.jsonl");
    assert "changes.jsonl"[0] != '.';
  }

  lemma LakeLiveInjective(s: TableSpec, k: string, t: TableSpec, l: string)
    ensures LakeLive(s, k) == LakeLive(t, l) ==> s.lakeSubdir == t.lakeSubdir && k == l
    ensures ShareLive(s) == ShareLive(t) ==> s.shareSubdir == t.shareSubdir
  {
    if LakeLive(s, k) == LakeLive(t, l) {
      assert LakeLive(s, k)[1] == LakeLive(t, l)[1] && LakeLive(s, k)[2] == LakeLive(t, l)[2];
      assert ("date=" + k)[5..] == k && ("date=" + l)[5..] == l;
    }
    if ShareLive(s) == ShareLive(t) {
      assert ShareLive(s)[1] == ShareLive(t)[1];
    }
  }

  /** A lake output of one of these tables. */
  ghost predicate LakePart(tables: seq<TableSpec>, deltas: Deltas, live: LiveFiles, id: string, o: Output, i: int,
      key: string)
    requires ValidTables(tables) && ValidDeltas(tables, deltas) && TimedDeltas(tables, deltas)
  {
    && 0 <= i < |tables| && key in DateKeys(deltas[tables[i].name])
    && o == LakeOutput(tables[i], deltas[tables[i].name], key, live, id)
  }

  /** The lake outputs are exactly one for each touched partition of each table. */
  lemma {:induction false} LakeAllParts(tables: seq<TableSpec>, deltas: Deltas, live: LiveFiles, id: string)
    requires ValidTables(tables) && ValidDeltas(tables, deltas) && TimedDeltas(tables, deltas) && DistinctTables(tables)
    ensures forall o :: o in LakeAll(tables, deltas, live, id) ==>
      exists i, key :: LakePart(tables, deltas, live, id, o, i, key)
    ensures forall i, key :: 0 <= i < |tables| && key in DateKeys(deltas[tables[i].name]) ==>
      LakeOutput(tables[i], deltas[tables[i].name], key, live, id) in LakeAll(tables, deltas, live, id)
    ensures DistinctLive(LakeAll(tables, deltas, live, id))
    decreases |tables|
  {
    hide LakeOutput, LakeOutputs, DateKeys, DistinctLive, LakeLive;
    if tables != [] {
      var n := |tables| - 1;
      var t, rows := tables[n], deltas[tables[n].name];
      var front, back := LakeAll(tables[..n], deltas, live, id), LakeOutputs(t, rows, live, id);
      LakeAllParts(tables[..n], deltas, live, id);
      LakeOutputsParts(t, rows, live, id);
      forall o | o in front + back ensures exists i, key :: LakePart(tables, deltas, live, id, o, i, key) {
        if o in front {
          var i, key :| LakePart(tables[..n], deltas, live, id, o, i, key);
          assert LakePart(tables, deltas, live, id, o, i, key);
        } else {
          var key :| key in DateKeys(rows) && o == LakeOutput(t, rows, key, live, id);
          assert LakePart(tables, deltas, live, id, o, n, key);
        }
      }
      forall i, key | 0 <= i < |tables| && key in DateKeys(deltas[tables[i].name])
        ensures LakeOutput(tables[i], deltas[tables[i].name], key, live, id) in front + back
      {
        if i < n { assert tables[..n][i] == tables[i]; }
      }
      forall o, u | o in front && u in back ensures o.step.livePath != u.step.livePath {
        var i, key :| LakePart(tables[..n], deltas, live, id, o, i, key);
        var other :| other in DateKeys(rows) && u == LakeOutput(t, rows, other, live, id);
        assert Apart(tables[i], t);
        LakePartPlace(tables[i], deltas[tables[i].name], key, live, id);
        LakePartPlace(t, rows, other, live, id);
        LakeLiveInjective(tables[i], key, t, other);
      }
      DistinctJoins(front, back);
    } else {
      FewDistinct([]);
    }
  }

  lemma FewDistinct(os: seq<Output>)
    requires |os| <= 1
    ensures DistinctLive(os)
  {
  }

  lemma SharePartPlace(cfg: Config, t: TableSpec, rows: seq<Row>, id: string, after: Checkpoint)
    requires ValidConfig(cfg) && ValidSpec(t) && ValidRows(t, rows) && ValidCheckpoint(after)
    ensures ShareOutput(cfg, t, rows, id, after).step.livePath == ShareLive(t)
  {
  }

  lemma LakePartPlace(t: TableSpec, rows: seq<Row>, key: string, live: LiveFiles, id: string)
    requires ValidSpec(t) && ValidRows(t, rows) && Timed(rows)
    ensures LakeOutput(t, rows, key, live, id).step.livePath == LakeLive(t, key)
  {
  }

  lemma LakeOutputsParts(t: TableSpec, rows: seq<Row>, live: LiveFiles, id: string)
    requires ValidSpec(t) && ValidRows(t, rows) && Timed(rows)
    ensures forall o :: o in LakeOutputs(t, rows, live, id) <==>
      exists key :: key in DateKeys(rows) && o == LakeOutput(t, rows, key, live, id)
    ensures DistinctLive(LakeOutputs(t, rows, live, id))
  {
    hide LakeOutput, LakeOutputsFor, DateKeys;
    var keys := SortedKeys(DateKeys(rows));
    var os := LakeOutputs(t, rows, live, id);
    SortedKeysAscend(DateKeys(rows));
    forall i | 0 <= i < |os| ensures os[i] == LakeOutput(t, rows, keys[i], live, id) {
      LakeOutputAt(t, rows, keys, live, id, i);
    }
    forall key | key in DateKeys(rows) ensures LakeOutput(t, rows, key, live, id) in os {
      var i :| 0 <= i < |keys| && keys[i] == key;
      assert os[i] == LakeOutput(t, rows, key, live, id);
    }
    forall o | o in os ensures exists key :: key in DateKeys(rows) && o == LakeOutput(t, rows, key, live, id) {
      var i :| 0 <= i < |os| && os[i] == o;
      assert keys[i] in DateKeys(rows);
    }
    forall i, j | 0 <= i < j < |os| ensures os[i].step.livePath != os[j].step.livePath {
      AscendingDistinct(keys, i, j);
      LakePartPlace(t, rows, keys[i], live, id);
      LakePartPlace(t, rows, keys[j], live, id);
      LakeLiveInjective(t, keys[i], t, keys[j]);
    }
  }

  lemma DistinctJoins(a: seq<Output>, b: seq<Output>)
    requires DistinctLive(a) && DistinctLive(b)
    requires forall o, u :: o in a && u in b ==> o.step.livePath != u.step.livePath
    ensures DistinctLive(a + b)
  {
    forall i, j | 0 <= i < j < |a + b| ensures (a + b)[i].step.livePath != (a + b)[j].step.livePath {
      if i < |a| && j >= |a| { assert a[i] in a && b[j - |a|] in b; }
    }
  }

  ghost predicate SharePart(cfg: Config, tables: seq<TableSpec>, deltas: Deltas, id: string, after: Checkpoint,
      o: Output, i: int)
    requires ValidConfig(cfg) && ValidTables(tables) && ValidDeltas(tables, deltas) && ValidCheckpoint(after)
  {
    && 0 <= i < |tables| && deltas[tables[i].name] != []
    && o == ShareOutput(cfg, tables[i], deltas[tables[i].name], id, after)
  }

  /** The share outputs are exactly one for each table with rows. */
  lemma {:induction false} ShareAllParts(cfg: Config, tables: seq<TableSpec>, deltas: Deltas, id: string,
      after: Checkpoint)
    requires ValidConfig(cfg) && ValidTables(tables) && ValidDeltas(tables, deltas) && ValidCheckpoint(after)
    requires DistinctTables(tables)
    ensures forall o :: o in ShareAll(cfg, tables, deltas, id, after) ==>
      exists i :: SharePart(cfg, tables, deltas, id, after, o, i)
    ensures forall i :: 0 <= i < |tables| && deltas[tables[i].name] != [] ==>
      ShareOutput(cfg, tables[i], deltas[tables[i].name], id, after) in ShareAll(cfg, tables, deltas, id, after)
    ensures DistinctLive(ShareAll(cfg, tables, deltas, id, after))
    decreases |tables|
  {
    hide SharePart, ShareOutput, ShareLive, DistinctLive, ValidSpec, ValidRow, ValidConfig;
    if tables != [] {
      var n := |tables| - 1;
      var t, rows := tables[n], deltas[tables[n].name];
      var front, back := ShareAll(cfg, tables[..n], deltas, id, after), ShareOutputs(cfg, t, rows, id, after);
      ShareAllParts(cfg, tables[..n], deltas, id, after);
      forall o | o in front ensures exists i :: SharePart(cfg, tables, deltas, id, after, o, i) {
        var i :| SharePart(cfg, tables[..n], deltas, id, after, o, i);
        EarlierSharePart(cfg, tables, deltas, id, after, o, i);
      }
      forall o | o in back ensures exists i :: SharePart(cfg, tables, deltas, id, after, o, i) {
        LastSharePart(cfg, tables, deltas, id, after, o);
      }
      forall i | 0 <= i < n && deltas[tables[i].name] != []
        ensures ShareOutput(cfg, tables[i], deltas[tables[i].name], id, after) in front
      {
        assert tables[..n][i] == tables[i];
      }
      SharesApart(cfg, tables[..n], t, deltas, id, after, front, back);
      FewDistinct(back);
      DistinctJoins(front, back);
    } else {
      FewDistinct([]);
    }
  }

  lemma EarlierSharePart(cfg: Config, tables: seq<TableSpec>, deltas: Deltas, id: string, after: Checkpoint,
      o: Output, i: int)
    requires ValidConfig(cfg) && ValidTables(tables) && ValidDeltas(tables, deltas) && ValidCheckpoint(after)
    requires tables != [] && SharePart(cfg, tables[..|tables| - 1], deltas, id, after, o, i)
    ensures SharePart(cfg, tables, deltas, id, after, o, i)
  {
    hide ShareOutput, ValidSpec, ValidRow, ValidConfig;
    assert tables[..|tables| - 1][i] == tables[i];
  }

  lemma LastSharePart(cfg: Config, tables: seq<TableSpec>, deltas: Deltas, id: string, after: Checkpoint, o: Output)
    requires ValidConfig(cfg) && ValidTables(tables) && ValidDeltas(tables, deltas) && ValidCheckpoint(after)
    requires tables != []
    requires var t := tables[|tables| - 1]; o in ShareOutputs(cfg, t, deltas[t.name], id, after)
    ensures SharePart(cfg, tables, deltas, id, after, o, |tables| - 1)
  {
    hide ShareOutput, ValidSpec, ValidRow, ValidConfig;
  }

  lemma SharesApart(cfg: Config, earlier: seq<TableSpec>, t: TableSpec, deltas: Deltas, id: string,
      after: Checkpoint, front: seq<Output>, back: seq<Output>)
    requires ValidConfig(cfg) && ValidTables(earlier) && ValidDeltas(earlier, deltas) && ValidCheckpoint(after)
    requires ValidSpec(t) && t.name in deltas && ValidRows(t, deltas[t.name])
    requires forall i :: 0 <= i < |earlier| ==> Apart(earlier[i], t)
    requires forall o :: o in front ==> exists i :: SharePart(cfg, earlier, deltas, id, after, o, i)
    requires forall u :: u in back ==> u == ShareOutput(cfg, t, deltas[t.name], id, after)
    ensures forall o, u :: o in front && u in back ==> o.step.livePath != u.step.livePath
  {
    hide ShareOutput, ShareLive, ValidSpec;
    forall o, u | o in front && u in back ensures o.step.livePath != u.step.livePath {
      var i :| SharePart(cfg, earlier, deltas, id, after, o, i);
      SharePartPlace(cfg, earlier[i], deltas[earlier[i].name], id, after);
      SharePartPlace(cfg, t, deltas[t.name], id, after);
      LakeLiveInjective(earlier[i], "", t, "");
    }
  }

  // ------------------------------------------------------------ all outputs together

  lemma {:induction false} EveryOutputIsProper(cfg: Config, live: LiveFiles, id: string, deltas: Deltas,
      after: Checkpoint)
    requires ValidConfig(cfg) && ValidDeltas(cfg.tables, deltas) && TimedDeltas(cfg.tables, deltas)
    requires ValidCheckpoint(after)
    requires PlainId(id)
    ensures AllProper(id, AllOutputs(cfg, live, id, deltas, after))
    ensures DistinctLive(AllOutputs(cfg, live, id, deltas, after))
  {
    hide LakeAll, ShareAll, LakeOutput, ShareOutput, DistinctLive, DateKeys, FileText, EventsText, ValidSpec;
    var lake := LakeAll(cfg.tables, deltas, live, id);
    var share := ShareAll(cfg, cfg.tables, deltas, id, after);
    var ends := [EventsOutput(cfg, deltas, id, after), CheckpointOutput(id, after)];
    LakeAllParts(cfg.tables, deltas, live, id);
    ShareAllParts(cfg, cfg.tables, deltas, id, after);
    forall o | o in lake ensures Proper(id, o) && o.step.livePath[0] == "lake" {
      var i, key :| LakePart(cfg.tables, deltas, live, id, o, i, key);
      LakeIsProper(cfg.tables[i], deltas[cfg.tables[i].name], key, live, id);
    }
    forall o | o in share ensures Proper(id, o) && o.step.livePath[0] == "share" {
      var i :| SharePart(cfg, cfg.tables, deltas, id, after, o, i);
      ShareIsProper(cfg, cfg.tables[i], deltas[cfg.tables[i].name], id, after);
    }
    EndsAreProper(cfg, deltas, id, after);
    forall o | o in ends ensures Proper(id, o) && (o.step.livePath[0] == "events" || o.step.livePath[0] == "state") {
      assert o == ends[0] || o == ends[1];
    }
    DistinctJoins(lake, share);
    DistinctJoins(lake + share, ends);
    MembersAreProper(id, lake + share + ends);
  }

  lemma MembersAreProper(id: string, os: seq<Output>)
    requires forall o :: o in os ==> Proper(id, o)
    ensures AllProper(id, os)
  {
  }

  lemma LakeIsProper(t: TableSpec, rows: seq<Row>, key: string, live: LiveFiles, id: string)
    requires ValidSpec(t) && ValidRows(t, rows) && Timed(rows) && key in DateKeys(rows)
    ensures Proper(id, LakeOutput(t, rows, key, live, id))
    ensures LakeOutput(t, rows, key, live, id).step.livePath[0] == "lake"
  {
    var i :| 0 <= i < |rows| && DateKeyOf(rows[i]) == key;
    LakeLiveIsKnown(t, key);
  }

  lemma ShareIsProper(cfg: Config, t: TableSpec, rows: seq<Row>, id: string, after: Checkpoint)
    requires ValidConfig(cfg) && ValidSpec(t) && ValidRows(t, rows) && ValidCheckpoint(after)
    ensures Proper(id, ShareOutput(cfg, t, rows, id, after))
    ensures ShareOutput(cfg, t, rows, id, after).step.livePath[0] == "share"
  {
    ShareLiveIsKnown(t);
  }

  lemma EndsAreProper(cfg: Config, deltas: Deltas, id: string, after: Checkpoint)
    requires ValidConfig(cfg) && ValidDeltas(cfg.tables, deltas) && ValidCheckpoint(after) && PlainId(id)
    ensures Proper(id, EventsOutput(cfg, deltas, id, after)) && Proper(id, CheckpointOutput(id, after))
    ensures EventsOutput(cfg, deltas, id, after).step.livePath == EventsLive(id) != CHECKPOINT_LIVE
    ensures CheckpointOutput(id, after).step.livePath == CHECKPOINT_LIVE
    ensures DistinctLive([EventsOutput(cfg, deltas, id, after), CheckpointOutput(id, after)])
  {
    HexIsPlain(id);
    assert EventsLive(id)[0] == "events" && CHECKPOINT_LIVE[0] == "state";
    assert Free('/', "state") && Free('/', "checkpoint.json") && "checkpoint.json"[0] != '.';
  }

  /** A run computed from some live files and some snapshot. */
  ghost predicate Prepared(cfg: Config, run: Run) {
    ValidConfig(cfg) && ValidSource(cfg.tables, run.snapshot) && Prepare(cfg, run.base, run.snapshot) == Some(run)
  }

  /** The outputs are those of this identity, these rows and this checkpoint over these live files. */
  ghost predicate Publishable(cfg: Config, run: Run) {
    && ValidConfig(cfg) && PlainId(run.id) && ValidCheckpoint(run.after)
    && ValidDeltas(cfg.tables, run.deltas) && TimedDeltas(cfg.tables, run.deltas)
    && run.outputs == AllOutputs(cfg, run.base, run.id, run.deltas, run.after)
  }

  /** The identity, rows and checkpoint are those computed from the live files and the snapshot. */
  ghost predicate Computed(cfg: Config, run: Run) {
    && ValidConfig(cfg) && ValidSource(cfg.tables, run.snapshot)
    && LoadCheckpoint(cfg, run.base) == Usable(run.before)
    && run.deltas == Fetch(cfg.tables, run.before, run.snapshot)
    && TimedDeltas(cfg.tables, run.deltas)
    && run.after == Advance(cfg.tables, run.before, run.deltas)
    && run.id == RunId(cfg, run.before, run.deltas)
  }

  lemma PreparedParts(cfg: Config, run: Run)
    requires Prepared(cfg, run)
    ensures Publishable(cfg, run) && Computed(cfg, run) && ValidCheckpoint(run.before)
  {
    hide AllOutputs, Fetch, Advance, RunId;
    FetchedAreValid(cfg, run.before, run.snapshot);
  }

  /** The plan of a run moves distinct staged files of its own directory onto distinct live ones,
      the checkpoint last. */
  ghost predicate SaneRun(run: Run) {
    && PlainId(run.id) && AllProper(run.id, run.outputs) && DistinctLive(run.outputs)
    && SanePlan(run.id, Steps(run.outputs)) && ValidSteps(Steps(run.outputs))
    && |run.outputs| > 1
    && run.outputs[|run.outputs| - 1].step.livePath == CHECKPOINT_LIVE
  }

  /** What holds of every run, whatever it read. */
  lemma {:induction false} PublishableIsSane(cfg: Config, run: Run)
    requires Publishable(cfg, run)
    ensures SaneRun(run)
  {
    hide AllProper, DistinctLive, SanePlan, ValidSteps, LakeAll, ShareAll, EventsOutput, CheckpointOutput;
    EveryOutputIsProper(cfg, run.base, run.id, run.deltas, run.after);
    PlanIsSane(run.id, run.outputs);
    EndsAreProper(cfg, run.deltas, run.id, run.after);
  }

  /** The label names the kind of the file that is moved, and its table and partition. */
  ghost predicate Labelled(cfg: Config, id: string, s: CommitStep) {
    || (exists i, key :: 0 <= i < |cfg.tables| && s.livePath == LakeLive(cfg.tables[i], key)
         && s.tag == "lake:" + cfg.tables[i].name + ":" + key)
    || (exists i :: 0 <= i < |cfg.tables| && s.livePath == ShareLive(cfg.tables[i])
         && s.tag == "share:" + cfg.tables[i].name)
    || (s.livePath == EventsLive(id) && s.tag == "events")
    || (s.livePath == CHECKPOINT_LIVE && s.tag == "checkpoint")
  }

  /** Every step of a run's plan is labelled after the live file it moves into place. */
  lemma {:induction false} LabelsTell(cfg: Config, run: Run, o: Output)
    requires Publishable(cfg, run) && o in run.outputs
    ensures Labelled(cfg, run.id, o.step)
  {
    hide LakeAll, ShareAll, DateKeys, DistinctLive, ValidSpec, LakeLive, ShareLive, EventsLive, Staged, ValidConfig;
    hide Merged, Encode, ShareText, EventsText, FileText, ValidRow, Timed;
    PublishableHasTables(cfg, run);
    LakeAllParts(cfg.tables, run.deltas, run.base, run.id);
    ShareAllParts(cfg, cfg.tables, run.deltas, run.id, run.after);
    if o in LakeAll(cfg.tables, run.deltas, run.base, run.id) {
      var j, key :| LakePart(cfg.tables, run.deltas, run.base, run.id, o, j, key);
      assert o.step.livePath == LakeLive(cfg.tables[j], key);
    } else if o in ShareAll(cfg, cfg.tables, run.deltas, run.id, run.after) {
      var j :| SharePart(cfg, cfg.tables, run.deltas, run.id, run.after, o, j);
      assert o.step.livePath == ShareLive(cfg.tables[j]);
    } else {
      assert o == EventsOutput(cfg, run.deltas, run.id, run.after) || o == CheckpointOutput(run.id, run.after);
    }
  }

  lemma PublishableHasTables(cfg: Config, run: Run)
    requires Publishable(cfg, run)
    ensures ValidTables(cfg.tables) && DistinctTables(cfg.tables)
  {
    hide AllOutputs, ValidSpec, ValidRow, Timed, Apart;
  }

  // ------------------------------------------------------------ the files afterwards

  lemma {:induction false} AppliedAt(base: LiveFiles, os: seq<Output>, i: nat)
    requires DistinctLive(os) && i < |os|
    ensures os[i].step.livePath in ApplyOutputs(base, os)
    ensures ApplyOutputs(base, os)[os[i].step.livePath] == os[i].data
  {
    var n := |os| - 1;
    if i < n { AppliedAt(base, os[..n], i); }
  }

  lemma {:induction false} AppliedElsewhere(base: LiveFiles, os: seq<Output>, p: Path)
    requires forall o :: o in os ==> o.step.livePath != p
    ensures p in ApplyOutputs(base, os) <==> p in base
    ensures p in base ==> ApplyOutputs(base, os)[p] == base[p]
  {
    if os != [] {
      var n := |os| - 1;
      assert os[n] in os;
      AppliedElsewhere(base, os[..n], p);
    }
  }

  lemma AppliedMember(base: LiveFiles, os: seq<Output>, o: Output)
    requires DistinctLive(os) && o in os
    ensures o.step.livePath in ApplyOutputs(base, os) && ApplyOutputs(base, os)[o.step.livePath] == o.data
  {
    var i :| 0 <= i < |os| && os[i] == o;
    AppliedAt(base, os, i);
  }

  /** A committed run's lake: touched partitions hold their old text and the new lines. */
  lemma {:induction false} TouchedPartitionAfter(cfg: Config, run: Run, i: nat, key: string)
    requires Publishable(cfg, run) && i < |cfg.tables| && key in DateKeys(run.deltas[cfg.tables[i].name])
    ensures LakeLive(cfg.tables[i], key) in After(run)
    ensures After(run)[LakeLive(cfg.tables[i], key)]
         == LakeOutput(cfg.tables[i], run.deltas[cfg.tables[i].name], key, run.base, run.id).data
  {
    hide LakeAll, ShareAll, LakeOutput, ShareOutput, DistinctLive, DateKeys, AllProper, SanePlan, ValidSteps;
    hide EventsOutput, CheckpointOutput, ValidSpec;
    PublishableIsSane(cfg, run);
    var t := cfg.tables[i];
    LakeAllParts(cfg.tables, run.deltas, run.base, run.id);
    var o := LakeOutput(t, run.deltas[t.name], key, run.base, run.id);
    assert o in run.outputs;
    LakePartPlace(t, run.deltas[t.name], key, run.base, run.id);
    AppliedMember(run.base, run.outputs, o);
  }

  /** No other partition changes. */
  lemma {:induction false} OtherPartitionAfter(cfg: Config, run: Run, i: nat, key: string)
    requires Publishable(cfg, run) && i < |cfg.tables| && key !in DateKeys(run.deltas[cfg.tables[i].name])
    ensures Unchanged(run.base, After(run), LakeLive(cfg.tables[i], key))
  {
    hide LakeAll, ShareAll, DateKeys, EventsOutput, CheckpointOutput, ValidSpec, AllOutputs;
    forall o | o in run.outputs ensures o.step.livePath != LakeLive(cfg.tables[i], key) {
      NotThatPartition(cfg, run, i, key, o);
    }
    AppliedElsewhere(run.base, run.outputs, LakeLive(cfg.tables[i], key));
  }

  /** The path holds in both what it holds in either. */
  predicate Unchanged(a: LiveFiles, b: LiveFiles, p: Path) {
    (p in a <==> p in b) && (p in a ==> a[p] == b[p])
  }

  lemma NotThatPartition(cfg: Config, run: Run, i: nat, key: string, o: Output)
    requires Publishable(cfg, run) && i < |cfg.tables|
    requires key !in DateKeys(run.deltas[cfg.tables[i].name])
    requires o in run.outputs
    ensures o.step.livePath != LakeLive(cfg.tables[i], key)
  {
    hide LakeOutput, ShareOutput, DateKeys, LakeAll, ShareAll, DistinctLive, EventsOutput, CheckpointOutput, ValidSpec;
    LakeAllParts(cfg.tables, run.deltas, run.base, run.id);
    ShareAllParts(cfg, cfg.tables, run.deltas, run.id, run.after);
    EndsAreProper(cfg, run.deltas, run.id, run.after);
    if o in LakeAll(cfg.tables, run.deltas, run.base, run.id) {
      var j, other :| LakePart(cfg.tables, run.deltas, run.base, run.id, o, j, other);
      LakePartPlace(cfg.tables[j], run.deltas[cfg.tables[j].name], other, run.base, run.id);
      LakeLiveInjective(cfg.tables[j], other, cfg.tables[i], key);
      if j != i { TablesApart(cfg, i, j); }
    } else if o in ShareAll(cfg, cfg.tables, run.deltas, run.id, run.after) {
      var j :| SharePart(cfg, cfg.tables, run.deltas, run.id, run.after, o, j);
      SharePartPlace(cfg, cfg.tables[j], run.deltas[cfg.tables[j].name], run.id, run.after);
      assert ShareLive(cfg.tables[j])[0] != LakeLive(cfg.tables[i], key)[0];
    } else {
      assert EventsLive(run.id)[0] != LakeLive(cfg.tables[i], key)[0];
      assert CHECKPOINT_LIVE[0] != LakeLive(cfg.tables[i], key)[0];
    }
  }

  /** A committed run replaces the share file of a table with rows. */
  lemma {:induction false} TouchedShareAfter(cfg: Config, run: Run, i: nat)
    requires Publishable(cfg, run) && i < |cfg.tables| && run.deltas[cfg.tables[i].name] != []
    ensures ShareLive(cfg.tables[i]) in After(run)
    ensures After(run)[ShareLive(cfg.tables[i])]
         == ShareText(cfg, cfg.tables[i], run.deltas[cfg.tables[i].name], run.id, run.after)
  {
    hide LakeAll, ShareAll, ShareText, DistinctLive, AllProper, SanePlan, ValidSteps, EventsOutput;
    hide CheckpointOutput, ValidSpec;
    PublishableIsSane(cfg, run);
    var t := cfg.tables[i];
    ShareAllParts(cfg, cfg.tables, run.deltas, run.id, run.after);
    var o := ShareOutput(cfg, t, run.deltas[t.name], run.id, run.after);
    assert o in run.outputs;
    AppliedMember(run.base, run.outputs, o);
  }

  /** It leaves alone the share file of a table without rows. */
  lemma {:induction false} OtherShareAfter(cfg: Config, run: Run, i: nat)
    requires Publishable(cfg, run) && i < |cfg.tables| && run.deltas[cfg.tables[i].name] == []
    ensures Unchanged(run.base, After(run), ShareLive(cfg.tables[i]))
  {
    hide LakeAll, ShareAll, EventsOutput, CheckpointOutput, ValidSpec, AllOutputs;
    forall o | o in run.outputs ensures o.step.livePath != ShareLive(cfg.tables[i]) { NotThatShare(cfg, run, i, o); }
    AppliedElsewhere(run.base, run.outputs, ShareLive(cfg.tables[i]));
  }

  lemma NotThatShare(cfg: Config, run: Run, i: nat, o: Output)
    requires Publishable(cfg, run) && i < |cfg.tables|
    requires run.deltas[cfg.tables[i].name] == []
    requires o in run.outputs
    ensures o.step.livePath != ShareLive(cfg.tables[i])
  {
    hide LakeOutput, ShareOutput, DateKeys, LakeAll, ShareAll, DistinctLive, EventsOutput, CheckpointOutput, ValidSpec;
    LakeAllParts(cfg.tables, run.deltas, run.base, run.id);
    ShareAllParts(cfg, cfg.tables, run.deltas, run.id, run.after);
    EndsAreProper(cfg, run.deltas, run.id, run.after);
    if o in LakeAll(cfg.tables, run.deltas, run.base, run.id) {
      var j, other :| LakePart(cfg.tables, run.deltas, run.base, run.id, o, j, other);
      LakePartPlace(cfg.tables[j], run.deltas[cfg.tables[j].name], other, run.base, run.id);
      assert LakeLive(cfg.tables[j], other)[0] != ShareLive(cfg.tables[i])[0];
    } else if o in ShareAll(cfg, cfg.tables, run.deltas, run.id, run.after) {
      var j :| SharePart(cfg, cfg.tables, run.deltas, run.id, run.after, o, j);
      SharePartPlace(cfg, cfg.tables[j], run.deltas[cfg.tables[j].name], run.id, run.after);
      LakeLiveInjective(cfg.tables[j], "", cfg.tables[i], "");
      if j != i { TablesApart(cfg, i, j); }
    } else {
      assert EventsLive(run.id)[0] != ShareLive(cfg.tables[i])[0] && CHECKPOINT_LIVE[0] != ShareLive(cfg.tables[i])[0];
    }
  }

  /** A committed run leaves its events file and its checkpoint. */
  lemma {:induction false} EndsAfter(cfg: Config, run: Run)
    requires Publishable(cfg, run)
    ensures EventsLive(run.id) in After(run)
         && After(run)[EventsLive(run.id)] == EventsText(cfg, run.deltas, run.id, run.after)
    ensures CHECKPOINT_LIVE in After(run) && After(run)[CHECKPOINT_LIVE] == FileText(run.after)
    ensures LoadCheckpoint(cfg, After(run)) == Usable(run.after)
  {
    hide LakeAll, ShareAll, EventsText, FileText, DistinctLive, AllProper, SanePlan, ValidSteps, LoadFile;
    PublishableIsSane(cfg, run);
    var n := |run.outputs|;
    assert run.outputs[n - 2] == EventsOutput(cfg, run.deltas, run.id, run.after);
    assert run.outputs[n - 1] == CheckpointOutput(run.id, run.after);
    AppliedAt(run.base, run.outputs, n - 2);
    AppliedAt(run.base, run.outputs, n - 1);
    FileRoundTrip(run.after, TableNames(cfg.tables));
  }
}
