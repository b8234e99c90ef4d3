/** What a history of applied runs leaves for each table: one ordered change log, spread over date
    partitions, its last key in the checkpoint, and the latest batch in the share file. */
module Logs {
  import opened Strings
  import opened Results
  import opened Tables
  import opened Checkpoints
  import opened Outputs
  import opened Runs
  import opened System
  import Instants
  import LakeWriter
  import Source

  /** The rows a table has published so far, batch after batch. */
  function Log(name: string, runs: seq<Run>): seq<Row> {
    if runs == [] then []
    else Log(name, runs[..|runs| - 1]) + Batch(name, runs[|runs| - 1])
  }

  function Batch(name: string, run: Run): seq<Row> {
    if name in run.deltas then run.deltas[name] else []
  }

  /** The checkpoint a history leaves. */
  function CheckpointAfter(cfg: Config, runs: seq<Run>): Checkpoint {
    if runs == [] then Checkpoints.Initial(TableNames(cfg.tables)) else runs[|runs| - 1].after
  }

  function MarkAfter(cfg: Config, runs: seq<Run>, t: TableSpec): Watermark {
    WatermarkOf(CheckpointAfter(cfg, runs), t.name)
  }

  // ------------------------------------------------------------ one run

  lemma LastRun(cfg: Config, runs: seq<Run>)
    requires Chained(cfg, runs) && runs != []
    ensures var n := |runs| - 1;
            && Chained(cfg, runs[..n]) && runs[n].base == LiveAfter(runs[..n])
            && Publishable(cfg, runs[n]) && Computed(cfg, runs[n]) && ValidCheckpoint(runs[n].before)
  {
    hide Publishable, Computed, Prepared;
    PreparedParts(cfg, runs[|runs| - 1]);
  }

  lemma InitialMark(cfg: Config, t: TableSpec)
    ensures MarkAfter(cfg, [], t) == EMPTY
    ensures LoadCheckpoint(cfg, map[]) == Usable(CheckpointAfter(cfg, []))
  {
  }

  /** The checkpoint file that a history leaves always loads. */
  lemma CheckpointLoads(cfg: Config, runs: seq<Run>)
    requires Chained(cfg, runs)
    ensures LoadCheckpoint(cfg, LiveAfter(runs)) == Usable(CheckpointAfter(cfg, runs))
  {
    hide Chained, Publishable, Computed, LoadCheckpoint, After;
    InitialMark(cfg, TableSpec("", "", [], "", ""));
    if runs != [] {
      LastRun(cfg, runs);
      EndsAfter(cfg, runs[|runs| - 1]);
    }
  }

  /** Each run starts from the checkpoint the one before it left. */
  lemma BeforeIsPrevious(cfg: Config, runs: seq<Run>)
    requires Chained(cfg, runs) && runs != []
    ensures runs[|runs| - 1].before == CheckpointAfter(cfg, runs[..|runs| - 1])
  {
    hide Publishable, Prepared, Chained, LoadCheckpoint, Fetch, Advance, RunId, ValidConfig, ValidSource, After;
    var n := |runs| - 1;
    LastRun(cfg, runs);
    if n == 0 {
      InitialMark(cfg, TableSpec("", "", [], "", ""));
    } else {
      LastRun(cfg, runs[..n]);
      EndsAfter(cfg, runs[n - 1]);
      assert runs[..n][n - 1] == runs[n - 1];
    }
  }

  /** A run's batch for a table is the table's delta, and its checkpoint moves past it. */
  lemma RunBatch(cfg: Config, run: Run, i: nat)
    requires Computed(cfg, run) && i < |cfg.tables|
    ensures var t := cfg.tables[i];
            && t.name in run.snapshot && Source.ValidSnapshot(t, run.snapshot[t.name])
            && Source.KeyedByPk(t, run.snapshot[t.name]) && t.name in run.deltas
            && Batch(t.name, run) == run.deltas[t.name]
            && Batch(t.name, run) == Source.Delta(t, run.snapshot[t.name], WatermarkOf(run.before, t.name))
            && WatermarkOf(run.after, t.name) == Source.Advanced(t, WatermarkOf(run.before, t.name), Batch(t.name, run))
  {
    hide Source.Delta, Source.Advanced, RunId, LoadCheckpoint, Fetch, Advance, Source.ValidSnapshot, Source.KeyedByPk;
    var t := cfg.tables[i];
    assert Source.ValidSnapshot(t, run.snapshot[t.name]);
    SnapshotIsKeyed(t, run.snapshot[t.name]);
    FetchAt(cfg.tables, run.before, run.snapshot, i);
    AllNamed(cfg, run);
    AdvanceAt(cfg.tables, run.before, run.deltas, i);
  }

  lemma SnapshotIsKeyed(t: TableSpec, m: Source.Snapshot)
    requires Source.ValidSnapshot(t, m)
    ensures Source.KeyedByPk(t, m)
  {
  }

  lemma AllNamed(cfg: Config, run: Run)
    requires Computed(cfg, run)
    ensures forall j :: 0 <= j < |cfg.tables| ==> cfg.tables[j].name in run.deltas
  {
    hide LoadCheckpoint, Fetch, Advance, RunId, ValidSource, Timed;
  }

  // ------------------------------------------------------------ the log

  /** A table's log: valid rows, strictly ascending, above the initial watermark; the checkpoint is
      at its last key. */
  ghost predicate LogSound(t: TableSpec, rows: seq<Row>, mark: Watermark) {
    && ValidRows(t, rows) && Timed(rows) && Source.InOrder(t, rows)
    && (forall i :: 0 <= i < |rows| ==> Before(EMPTY, Source.KeyOf(t, rows[i])))
    && mark == Source.Advanced(t, EMPTY, rows)
  }

  /** One delta more. */
  lemma LogGrows(t: TableSpec, rows: seq<Row>, mark: Watermark, m: Source.Snapshot)
    requires ValidSpec(t) && LogSound(t, rows, mark) && Source.ValidSnapshot(t, m) && Source.KeyedByPk(t, m)
    ensures var more := Source.Delta(t, m, mark);
            LogSound(t, rows + more, Source.Advanced(t, mark, more))
  {
    hide Source.Delta, Source.ValidSnapshot, Source.KeyedByPk, Source.KeyOf, ValidRow, ValidSpec;
    var more := Source.Delta(t, m, mark);
    DeltaRowsValid(t, m, mark);
    RowsAreTimed(t, more);
    Source.DeltaIsDelta(t, m, mark);
    var all := rows + more;
    forall i, j | 0 <= i < j < |all| ensures Before(Source.KeyOf(t, all[i]), Source.KeyOf(t, all[j])) {
      if i < |rows| && j >= |rows| {
        AtMostLast(t, rows, i);
        assert Before(mark, Source.KeyOf(t, more[j - |rows|]));
      }
    }
    assert more == [] ==> all == rows;
  }

  lemma AtMostLast(t: TableSpec, rows: seq<Row>, i: nat)
    requires Source.InOrder(t, rows) && i < |rows|
    ensures AtOrBefore(Source.KeyOf(t, rows[i]), Source.Advanced(t, EMPTY, rows))
  {
    hide Source.KeyOf;
    assert i < |rows| - 1 ==> Before(Source.KeyOf(t, rows[i]), Source.KeyOf(t, rows[|rows| - 1]));
  }

  /** Exactly-once ordered log: a table's committed deltas, in run order, are strictly increasing in
      (updated_at, pk), so nothing is published twice, and the watermark is the last key. */
  lemma {:induction false} LogIsSound(cfg: Config, runs: seq<Run>, i: nat)
    requires ValidConfig(cfg) && Chained(cfg, runs) && i < |cfg.tables|
    ensures LogSound(cfg.tables[i], Log(cfg.tables[i].name, runs), MarkAfter(cfg, runs, cfg.tables[i]))
    decreases |runs|
  {
    hide Chained, Publishable, Source.Delta, Source.Advanced, Source.InOrder, LogSound, Source.KeyedByPk;
    hide Source.ValidSnapshot, Fetch, Advance, RunId, LoadCheckpoint, ValidSource, ValidSpec;
    var t := cfg.tables[i];
    if runs == [] {
      InitialMark(cfg, t);
      EmptyLog(t);
    } else {
      var n := |runs| - 1;
      LastRun(cfg, runs);
      LogIsSound(cfg, runs[..n], i);
      BeforeIsPrevious(cfg, runs);
      RunBatch(cfg, runs[n], i);
      LogGrows(t, Log(t.name, runs[..n]), MarkAfter(cfg, runs[..n], t), runs[n].snapshot[t.name]);
    }
  }

  lemma EmptyLog(t: TableSpec)
    ensures LogSound(t, [], EMPTY)
  {
  }

  /** The watermark of a table never moves back, over any number of runs. */
  lemma {:induction false} MarksNeverMoveBack(cfg: Config, runs: seq<Run>, n: nat, i: nat)
    requires ValidConfig(cfg) && Chained(cfg, runs) && n <= |runs| && i < |cfg.tables|
    ensures AtOrBefore(MarkAfter(cfg, runs[..n], cfg.tables[i]), MarkAfter(cfg, runs, cfg.tables[i]))
    decreases |runs|
  {
    hide Chained, Publishable, Source.Delta, Source.Advanced, Fetch, Advance, RunId, LoadCheckpoint, ValidSource;
    hide ValidSpec, CheckpointAfter, Source.KeyedByPk, Source.ValidSnapshot;
    if n < |runs| {
      var k, t := |runs| - 1, cfg.tables[i];
      LastRun(cfg, runs);
      MarksNeverMoveBack(cfg, runs[..k], n, i);
      assert runs[..k][..n] == runs[..n];
      BeforeIsPrevious(cfg, runs);
      RunBatch(cfg, runs[k], i);
      Source.AdvanceReadsAll(t, runs[k].snapshot[t.name], WatermarkOf(runs[k].before, t.name));
      LastMark(cfg, runs, t);
      MarkTransitive(MarkAfter(cfg, runs[..n], t), MarkAfter(cfg, runs[..k], t), MarkAfter(cfg, runs, t));
    } else {
      assert runs[..n] == runs;
    }
  }

  lemma LastMark(cfg: Config, runs: seq<Run>, t: TableSpec)
    requires runs != []
    ensures MarkAfter(cfg, runs, t) == WatermarkOf(runs[|runs| - 1].after, t.name)
  {
  }

  lemma MarkTransitive(a: Watermark, b: Watermark, c: Watermark)
    requires AtOrBefore(a, b) && AtOrBefore(b, c)
    ensures AtOrBefore(a, c)
  {
  }

  // ------------------------------------------------------------ the lake

  lemma {:induction false} OnDateJoins(a: seq<Row>, b: seq<Row>, key: string)
    requires Timed(a) && Timed(b)
    ensures Timed(a + b) && OnDate(a + b, key) == OnDate(a, key) + OnDate(b, key)
  {
    hide DateKeyOf, OnDate, Instants.InRange, Source.TimeOf;
    if b == [] {
      OnDateNothing(a, b, key);
    } else {
      var k := |b| - 1;
      OnDateJoins(a, b[..k], key);
      FrontOfSum(a, b);
      OnDateSnoc(a + b, key);
      OnDateSnoc(b, key);
      Associate(OnDate(a, key), OnDate(b[..k], key), if DateKeyOf(b[k]) == key then [b[k]] else []);
    }
  }

  lemma OnDateNothing(a: seq<Row>, b: seq<Row>, key: string)
    requires Timed(a) && b == []
    ensures Timed(a + b) && OnDate(a + b, key) == OnDate(a, key) + OnDate(b, key)
  {
    hide DateKeyOf;
    assert a + b == a && OnDate(b, key) == [];
  }

  lemma OnDateSnoc(rows: seq<Row>, key: string)
    requires Timed(rows) && rows != []
    ensures var n := |rows| - 1;
            OnDate(rows, key) == OnDate(rows[..n], key) + (if DateKeyOf(rows[n]) == key then [rows[n]] else [])
  {
    hide DateKeyOf;
  }

  lemma {:induction false} SomeOnDate(rows: seq<Row>, key: string)
    requires Timed(rows) && key in DateKeys(rows)
    ensures OnDate(rows, key) != []
  {
    hide DateKeyOf;
    var n := |rows| - 1;
    var j :| 0 <= j < |rows| && DateKeyOf(rows[j]) == key;
    if j < n {
      assert rows[..n][j] == rows[j];
      LakeWriter.KeyIsThere(rows[..n], j);
      SomeOnDate(rows[..n], key);
    }
  }

  lemma MergedRows(t: TableSpec, a: seq<Row>, b: seq<Row>, key: string)
    requires ValidRows(t, a) && Timed(a) && ValidRows(t, b) && Timed(b)
    ensures Timed(a + b) && ValidRows(t, OnDate(a, key)) && ValidRows(t, OnDate(b, key))
    ensures ValidRows(t, OnDate(a + b, key))
    ensures Merged(Encode(t, OnDate(a, key)), Encode(t, OnDate(b, key))) == Encode(t, OnDate(a + b, key))
  {
    hide ValidRow, OnDate, RowJsons;
    OnDateValid(t, a, key);
    OnDateValid(t, b, key);
    OnDateJoins(a, b, key);
    EncodeAppends(t, OnDate(a, key), OnDate(b, key));
  }

  /** The partition holds the log's rows of that date, and exists if there are any. */
  ghost predicate HoldsPartition(live: LiveFiles, t: TableSpec, rows: seq<Row>, key: string) {
    && ValidRows(t, rows) && Timed(rows) && ValidRows(t, OnDate(rows, key))
    && TextAt(live, LakeLive(t, key)) == Encode(t, OnDate(rows, key))
    && (LakeLive(t, key) in live <==> OnDate(rows, key) != [])
  }

  lemma PartitionGrows(t: TableSpec, base: LiveFiles, live: LiveFiles, a: seq<Row>, b: seq<Row>, key: string,
      id: string)
    requires ValidSpec(t) && HoldsPartition(base, t, a, key) && ValidRows(t, b) && Timed(b)
    requires key in DateKeys(b) ==>
      LakeLive(t, key) in live && live[LakeLive(t, key)] == LakeOutput(t, b, key, base, id).data
    requires key !in DateKeys(b) ==> Unchanged(base, live, LakeLive(t, key))
    ensures HoldsPartition(live, t, a + b, key)
  {
    hide ValidRow, OnDate, Encode, DateKeys, LakeLive, LakeOutput, ValidSpec, Merged;
    MergedRows(t, a, b, key);
    OnDateJoins(a, b, key);
    RowsJoin(t, a, b);
    LakeWriter.LakeFile(t, b, key, base, id);
    if key in DateKeys(b) {
      SomeOnDate(b, key);
    } else {
      LakeWriter.NoneOnDate(b, key);
      assert OnDate(a + b, key) == OnDate(a, key);
    }
  }

  lemma RowsJoin(t: TableSpec, a: seq<Row>, b: seq<Row>)
    requires ValidRows(t, a) && ValidRows(t, b)
    ensures ValidRows(t, a + b)
  {
  }

  /** Every partition of a table holds exactly the log's rows of its date, in log order. */
  lemma {:induction false} LakeHoldsLog(cfg: Config, runs: seq<Run>, i: nat, key: string)
    requires ValidConfig(cfg) && Chained(cfg, runs) && i < |cfg.tables|
    ensures HoldsPartition(LiveAfter(runs), cfg.tables[i], Log(cfg.tables[i].name, runs), key)
    decreases |runs|
  {
    hide Chained, Publishable, Computed, HoldsPartition, DateKeys, LakeLive, After, LakeOutput;
    var t := cfg.tables[i];
    if runs == [] {
      NoPartition(t, key);
    } else {
      var n := |runs| - 1;
      LastRun(cfg, runs);
      LakeHoldsLog(cfg, runs[..n], i, key);
      RunBatch(cfg, runs[n], i);
      BatchFits(cfg, runs[n], i);
      if key in DateKeys(runs[n].deltas[t.name]) {
        TouchedPartitionAfter(cfg, runs[n], i, key);
      } else {
        OtherPartitionAfter(cfg, runs[n], i, key);
      }
      PartitionGrows(t, runs[n].base, LiveAfter(runs), Log(t.name, runs[..n]), Batch(t.name, runs[n]), key, runs[n].id);
    }
  }

  lemma BatchFits(cfg: Config, run: Run, i: nat)
    requires Publishable(cfg, run) && i < |cfg.tables|
    ensures var t := cfg.tables[i];
            ValidSpec(t) && t.name in run.deltas && ValidRows(t, run.deltas[t.name]) && Timed(run.deltas[t.name])
  {
    hide AllOutputs, ValidSpec, ValidRow, Timed;
  }

  lemma NoPartition(t: TableSpec, key: string)
    ensures HoldsPartition(map[], t, [], key)
  {
  }

  // ------------------------------------------------------------ reading the lake back

  /** The rows of a table's partitions, read by parsing them, day after day up to day n. */
  function LakeRows(t: TableSpec, live: LiveFiles, n: nat): Option<seq<Row>>
    requires n <= Instants.CALENDAR_DAYS
  {
    if n == 0 then Some([])
    else
      var earlier, day := LakeRows(t, live, n - 1), Decode(t, TextAt(live, LakeLive(t, Instants.DateKey(n - 1))));
      if earlier.None? || day.None? then None else Some(earlier.value + day.value)
  }

  /** All of them. */
  function WholeLake(t: TableSpec, live: LiveFiles): Option<seq<Row>> {
    LakeRows(t, live, Instants.CALENDAR_DAYS)
  }

  function Day(row: Row): nat
    requires Instants.InRange(Source.TimeOf(row))
  {
    Instants.DayOf(Source.TimeOf(row))
  }

  predicate DaysAscend(rows: seq<Row>)
    requires Timed(rows)
  {
    forall i, j :: 0 <= i < j < |rows| ==> Day(rows[i]) <= Day(rows[j])
  }

  lemma OrderedDays(t: TableSpec, rows: seq<Row>)
    requires Timed(rows) && Source.InOrder(t, rows)
    ensures DaysAscend(rows)
  {
    forall i, j | 0 <= i < j < |rows| ensures Day(rows[i]) <= Day(rows[j]) {
      assert Before(Source.KeyOf(t, rows[i]), Source.KeyOf(t, rows[j]));
    }
  }

  /** How many rows lie before day n. */
  function Upto(rows: seq<Row>, n: nat): (k: nat)
    requires Timed(rows)
    ensures k <= |rows|
    ensures forall i :: 0 <= i < k ==> Day(rows[i]) < n
    ensures k < |rows| ==> Day(rows[k]) >= n
  {
    if rows == [] || Day(rows[0]) >= n then 0
    else
      var k := Upto(rows[1..], n);
      assert forall i :: 1 <= i < k + 1 ==> rows[i] == rows[1..][i - 1];
      k + 1
  }

  lemma {:induction false} NoneOfDay(rows: seq<Row>, n: nat)
    requires Timed(rows) && n < Instants.CALENDAR_DAYS
    requires forall i :: 0 <= i < |rows| ==> Day(rows[i]) != n
    ensures OnDate(rows, Instants.DateKey(n)) == []
  {
    hide Instants.DateKey, Day;
    if rows != [] {
      KeyOfDay(rows[|rows| - 1], n);
      NoneOfDay(rows[..|rows| - 1], n);
    }
  }

  lemma {:induction false} AllOfDay(rows: seq<Row>, n: nat)
    requires Timed(rows) && n < Instants.CALENDAR_DAYS
    requires forall i :: 0 <= i < |rows| ==> Day(rows[i]) == n
    ensures OnDate(rows, Instants.DateKey(n)) == rows
  {
    hide Instants.DateKey, Day;
    if rows != [] {
      var k := |rows| - 1;
      KeyOfDay(rows[k], n);
      AllOfDay(rows[..k], n);
      LastBack(rows);
    }
  }

  /** A stretch of rows of one day, with other days before it and after it. */
  lemma {:induction false} OneDay(rows: seq<Row>, n: nat, a: nat, b: nat)
    requires Timed(rows) && n < Instants.CALENDAR_DAYS && a <= b <= |rows|
    requires forall i :: 0 <= i < |rows| ==> (Day(rows[i]) == n <==> a <= i < b)
    ensures OnDate(rows, Instants.DateKey(n)) == rows[a..b]
  {
    hide Instants.DateKey, Day, OnDate;
    var key := Instants.DateKey(n);
    ThreeParts(rows, a, b);
    NoneOfDay(rows[..a], n);
    AllOfDay(rows[a..b], n);
    NoneOfDay(rows[b..], n);
    OnDateJoins(rows[..a], rows[a..b], key);
    OnDateJoins(rows[..a] + rows[a..b], rows[b..], key);
    Padding(rows[a..b]);
  }

  lemma ThreeParts(rows: seq<Row>, a: nat, b: nat)
    requires a <= b <= |rows|
    ensures rows == rows[..a] + rows[a..b] + rows[b..]
  {
  }

  lemma Padding(rows: seq<Row>)
    ensures [] + rows + [] == rows
  {
  }

  lemma KeyOfDay(row: Row, n: nat)
    requires Instants.InRange(Source.TimeOf(row)) && n < Instants.CALENDAR_DAYS
    ensures DateKeyOf(row) == Instants.DateKey(n) <==> Day(row) == n
  {
    hide Instants.DateKey;
    if DateKeyOf(row) == Instants.DateKey(n) { Instants.DateKeyInjective(Day(row), n); }
  }

  lemma UptoSplits(rows: seq<Row>, n: nat)
    requires Timed(rows) && DaysAscend(rows)
    ensures Upto(rows, n) <= Upto(rows, n + 1)
    ensures forall i :: 0 <= i < |rows| ==> (Day(rows[i]) == n <==> Upto(rows, n) <= i < Upto(rows, n + 1))
  {
    hide Day;
    var a, b := Upto(rows, n), Upto(rows, n + 1);
    forall i | 0 <= i < |rows| ensures Day(rows[i]) == n <==> a <= i < b {
      if i >= a { assert a == i || Day(rows[a]) <= Day(rows[i]); }
      if i >= b { assert b == i || Day(rows[b]) <= Day(rows[i]); }
    }
  }

  /** Partition texts of the log's rows, read day after day, give the log back. */
  lemma {:induction false} ReadDays(t: TableSpec, live: LiveFiles, rows: seq<Row>, n: nat)
    requires ValidSpec(t) && n <= Instants.CALENDAR_DAYS && Timed(rows) && DaysAscend(rows)
    requires forall key :: HoldsPartition(live, t, rows, key)
    ensures LakeRows(t, live, n) == Some(rows[..Upto(rows, n)])
  {
    hide HoldsPartition, Upto, Encode, Decode, Instants.DateKey, ValidSpec, OnDate, DaysAscend, LakeLive, Timed, Day;
    hide ValidRow, TextAt;
    if n == 0 {
      NothingBefore(rows);
    } else {
      ReadDays(t, live, rows, n - 1);
      var key := Instants.DateKey(n - 1);
      UptoSplits(rows, n - 1);
      OneDay(rows, n - 1, Upto(rows, n - 1), Upto(rows, n));
      PartitionText(live, t, rows, key);
      DecodeEncode(t, OnDate(rows, key));
      TwoTakes(rows, Upto(rows, n - 1), Upto(rows, n));
    }
  }

  lemma TwoTakes(rows: seq<Row>, a: nat, b: nat)
    requires a <= b <= |rows|
    ensures rows[..b] == rows[..a] + rows[a..b]
  {
  }

  lemma PartitionText(live: LiveFiles, t: TableSpec, rows: seq<Row>, key: string)
    requires HoldsPartition(live, t, rows, key)
    ensures Timed(rows) && ValidRows(t, OnDate(rows, key))
    ensures TextAt(live, LakeLive(t, key)) == Encode(t, OnDate(rows, key))
  {
  }

  lemma NothingBefore(rows: seq<Row>)
    requires Timed(rows)
    ensures Upto(rows, 0) == 0
  {
  }

  lemma EverythingBefore(rows: seq<Row>)
    requires Timed(rows)
    ensures Upto(rows, Instants.CALENDAR_DAYS) == |rows|
  {
  }

  /** The lake is the log: parsing a table's partitions in date order gives the committed deltas,
      concatenated in run order. */
  lemma {:induction false} LakeIsLog(cfg: Config, runs: seq<Run>, i: nat)
    requires ValidConfig(cfg) && Chained(cfg, runs) && i < |cfg.tables|
    ensures WholeLake(cfg.tables[i], LiveAfter(runs)) == Some(Log(cfg.tables[i].name, runs))
  {
    hide Chained, LiveAfter, Log, HoldsPartition, LakeRows, Upto, ValidSpec, DaysAscend, MarkAfter;
    var t := cfg.tables[i];
    var rows := Log(t.name, runs);
    LogIsSound(cfg, runs, i);
    OrderedDays(t, rows);
    forall key ensures HoldsPartition(LiveAfter(runs), t, rows, key) { LakeHoldsLog(cfg, runs, i, key); }
    ReadDays(t, LiveAfter(runs), rows, Instants.CALENDAR_DAYS);
    EverythingBefore(rows);
    assert rows[..|rows|] == rows;
  }

  // ------------------------------------------------------------ the share file

  /** The last run with rows for the table. */
  function LastWith(name: string, runs: seq<Run>): Option<Run> {
    if runs == [] then None
    else if Batch(name, runs[|runs| - 1]) != [] then Some(runs[|runs| - 1])
    else LastWith(name, runs[..|runs| - 1])
  }

  /** The records of that run's batch. */
  ghost predicate HoldsShare(cfg: Config, live: LiveFiles, t: TableSpec, latest: Option<Run>) {
    match latest
    case None => ShareLive(t) !in live
    case Some(run) =>
      && ValidConfig(cfg) && ValidSpec(t) && ValidRows(t, Batch(t.name, run)) && ValidCheckpoint(run.after)
      && ShareLive(t) in live
      && live[ShareLive(t)] == ShareText(cfg, t, Batch(t.name, run), run.id, run.after)
  }

  /** The share file of a table is the latest non-empty batch, or absent if there was none. */
  lemma {:induction false} ShareHoldsLatest(cfg: Config, runs: seq<Run>, i: nat)
    requires ValidConfig(cfg) && Chained(cfg, runs) && i < |cfg.tables|
    ensures HoldsShare(cfg, LiveAfter(runs), cfg.tables[i], LastWith(cfg.tables[i].name, runs))
    decreases |runs|
  {
    hide Chained, Publishable, Computed, ShareLive, After, ShareText, ValidSpec;
    var t := cfg.tables[i];
    if runs != [] {
      var n := |runs| - 1;
      LastRun(cfg, runs);
      ShareHoldsLatest(cfg, runs[..n], i);
      RunBatch(cfg, runs[n], i);
      BatchFits(cfg, runs[n], i);
      if Batch(t.name, runs[n]) != [] {
        TouchedShareAfter(cfg, runs[n], i);
        AfterIsValid(cfg, runs[n]);
      } else {
        OtherShareAfter(cfg, runs[n], i);
      }
    }
  }

  lemma AfterIsValid(cfg: Config, run: Run)
    requires Publishable(cfg, run)
    ensures ValidCheckpoint(run.after) && ValidConfig(cfg)
  {
    hide AllOutputs, ValidConfig;
  }
}
