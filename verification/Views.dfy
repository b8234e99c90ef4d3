/** What readers of the lake, the share files and the checkpoint can rely on, in every state that
    any execution reaches. */
module Views {
  import opened Results
  import opened Tables
  import opened Checkpoints
  import opened Disks
  import opened Staging
  import opened Recovery
  import opened Outputs
  import opened Runs
  import opened System
  import opened Refinement
  import opened Traces
  import opened Logs
  import opened Reruns
  import opened EventLog
  import Instants
  import Source

  // ------------------------------------------------------------ the source beside the log

  function LastSnapshot(runs: seq<Run>, name: string): Source.Snapshot {
    if runs != [] && name in runs[|runs| - 1].snapshot then runs[|runs| - 1].snapshot[name] else map[]
  }

  /** The log folds to the snapshot of the last applied run; the source has moved on from it, and
      from the snapshot of a run in memory, only above the respective watermark. */
  ghost predicate InStep(cfg: Config, s: Sys, t: TableSpec) {
    var log, mark := Log(t.name, s.applied), MarkAfter(cfg, s.applied, t);
    && t.name in s.source && Source.AheadOf(t, s.source[t.name], log, mark)
    && Source.Fold(t, log) == LastSnapshot(s.applied, t.name)
    && (s.memory.Some? ==>
         var run := s.memory.value.run;
         && t.name in run.snapshot && Source.AheadOf(t, run.snapshot[t.name], log, mark)
         && Source.MovedOn(t, run.snapshot[t.name], s.source[t.name], WatermarkOf(run.after, t.name)))
  }

  lemma WriteMovesOn(t: TableSpec, earlier: Source.Snapshot, m: Source.Snapshot, w: Watermark, row: Row)
    requires Source.MovedOn(t, earlier, m, w) && Before(w, Source.KeyOf(t, row))
    ensures Source.MovedOn(t, earlier, m[Source.PkOf(t, row) := row], w)
  {
  }

  lemma SameMovesOn(t: TableSpec, m: Source.Snapshot, w: Watermark)
    ensures Source.MovedOn(t, m, m, w)
  {
  }

  /** The watermark a source write must exceed is that of the last decided run. */
  lemma NewestMark(cfg: Config, s: Sys, i: nat)
    requires Inv(cfg, s) && i < |cfg.tables|
    ensures WatermarkOf(Newest(s), cfg.tables[i].name) == MarkAfter(cfg, Decided(s), cfg.tables[i])
    ensures AtOrBefore(MarkAfter(cfg, s.applied, cfg.tables[i]), WatermarkOf(Newest(s), cfg.tables[i].name))
  {
    hide Prepared, ValidConfig, ValidSource, Tidy, AtRest, LiveAfter;
    var t := cfg.tables[i];
    InitialMark(cfg, t);
    DecidedChained(cfg, s);
    var n := |s.applied|;
    assert Decided(s)[..n] == s.applied;
    MarksNeverMoveBack(cfg, Decided(s), n, i);
  }

  lemma DecidedChained(cfg: Config, s: Sys)
    requires Inv(cfg, s)
    ensures Chained(cfg, Decided(s))
  {
    hide Prepared, ValidConfig, ValidSource, Tidy, AtRest, LiveAfter, Holds, FilesToWrite;
    if s.memory.Some? {
      assert Decided(s)[..|s.applied|] == s.applied;
    }
  }

  /** The last run read a table that had moved on from the log so far only above the watermark. */
  ghost predicate ReadAhead(cfg: Config, runs: seq<Run>, t: TableSpec)
    requires runs != []
  {
    && t.name in runs[|runs| - 1].snapshot
    && var front := runs[..|runs| - 1];
       Source.AheadOf(t, runs[|runs| - 1].snapshot[t.name], Log(t.name, front), MarkAfter(cfg, front, t))
  }

  /** A batch brings the log level with the snapshot it was read from exactly when the table had moved
      on only above the watermark. */
  lemma {:induction false} BatchCatchesUp(cfg: Config, runs: seq<Run>, i: nat)
    requires ValidConfig(cfg) && Chained(cfg, runs) && i < |cfg.tables| && runs != []
    ensures Source.Fold(cfg.tables[i], Log(cfg.tables[i].name, runs)) == LastSnapshot(runs, cfg.tables[i].name)
      <==> ReadAhead(cfg, runs, cfg.tables[i])
  {
    hide Chained, Publishable, Computed, Source.AheadOf, Source.Fold, Source.Delta, Source.KeyedByPk;
    hide Source.ValidSnapshot, ValidConfig, CheckpointAfter;
    var n, t := |runs| - 1, cfg.tables[i];
    LastRun(cfg, runs);
    BeforeIsPrevious(cfg, runs);
    RunBatch(cfg, runs[n], i);
    Source.DeltaCatchesUp(t, runs[n].snapshot[t.name], Log(t.name, runs[..n]), MarkAfter(cfg, runs[..n], t));
  }

  lemma WriteKeepsInStep(cfg: Config, s: Sys, j: nat, row: Row, i: nat)
    requires Inv(cfg, s) && Enabled(cfg, s, SourceWrite(j, row)) && i < |cfg.tables| && InStep(cfg, s, cfg.tables[i])
    ensures InStep(cfg, Do(cfg, s, SourceWrite(j, row)), cfg.tables[i])
  {
    hide Inv, ValidSource, ValidSpec, Source.MovedOn, Source.Fold, Source.KeyOf, Source.PkOf, Log, MarkAfter, ValidRow;
    var t := cfg.tables[i];
    if j == i {
      NewestMark(cfg, s, i);
      var log, mark := Log(t.name, s.applied), MarkAfter(cfg, s.applied, t);
      BeforeWeaken(mark, WatermarkOf(Newest(s), t.name), Source.KeyOf(t, row));
      WriteMovesOn(t, Source.Fold(t, log), s.source[t.name], mark, row);
      if s.memory.Some? {
        var run := s.memory.value.run;
        WriteMovesOn(t, run.snapshot[t.name], s.source[t.name], WatermarkOf(run.after, t.name), row);
      }
    } else {
      TablesApart(cfg, i, j);
    }
  }

  lemma BeforeWeaken(a: Watermark, b: Watermark, c: Watermark)
    requires AtOrBefore(a, b) && Before(b, c)
    ensures Before(a, c)
  {
  }

  lemma ReadyKeepsInStep(cfg: Config, s: Sys, e: Event, i: nat)
    requires Inv(cfg, s) && Enabled(cfg, s, e) && MarksReady(s, e) && i < |cfg.tables| && InStep(cfg, s, cfg.tables[i])
    ensures InStep(cfg, Do(cfg, s, e), cfg.tables[i])
  {
    hide Inv, ValidSource, ValidConfig, Source.MovedOn, Source.Fold, Chained, FilesToWrite;
    var t := cfg.tables[i];
    var run := s.memory.value.run;
    var runs := s.applied + [run];
    DecidedChained(cfg, s);
    assert runs[..|s.applied|] == s.applied && runs[|s.applied|] == run;
    InvHasConfig(cfg, s);
    BatchCatchesUp(cfg, runs, i);
  }

  lemma InvHasConfig(cfg: Config, s: Sys)
    requires Inv(cfg, s)
    ensures ValidConfig(cfg) && ValidSource(cfg.tables, s.source) && Chained(cfg, s.applied)
  {
  }

  lemma StepKeepsInStep(cfg: Config, s: Sys, e: Event, i: nat)
    requires Inv(cfg, s) && Enabled(cfg, s, e) && i < |cfg.tables| && InStep(cfg, s, cfg.tables[i])
    ensures InStep(cfg, Do(cfg, s, e), cfg.tables[i])
  {
    hide Inv, ValidSource, ValidConfig, Source.Fold, Chained, FilesToWrite, MarkAfter, Log, RecoveryStep;
    hide StagingStep, Source.MovedOn, LastSnapshot;
    var t := cfg.tables[i];
    if e.SourceWrite? {
      WriteKeepsInStep(cfg, s, e.table, e.row, i);
    } else if MarksReady(s, e) {
      ReadyKeepsInStep(cfg, s, e, i);
    } else if e.ReadSource? {
      FetchKeepsInv(cfg, s);
      SameMovesOn(t, s.source[t.name], WatermarkOf(Do(cfg, s, e).memory.value.run.after, t.name));
    }
  }

  lemma FreshInStep(cfg: Config, s: Sys, i: nat)
    requires FreshInstall(cfg, s) && i < |cfg.tables|
    ensures InStep(cfg, s, cfg.tables[i])
  {
    hide ValidRow, ValidConfig, Source.KeyOf;
    var t := cfg.tables[i];
    InitialMark(cfg, t);
    assert Source.ValidSnapshot(t, s.source[t.name]);
    assert Source.Fold(t, []) == map[];
  }

  lemma {:induction false} InStepAlways(cfg: Config, s0: Sys, es: seq<Event>, i: nat)
    requires FreshInstall(cfg, s0) && Possible(cfg, s0, es) && i < |cfg.tables|
    ensures Inv(cfg, DoAll(cfg, s0, es)) && InStep(cfg, DoAll(cfg, s0, es), cfg.tables[i])
    decreases |es|
  {
    hide Inv, Enabled, Do, InStep, FreshInstall;
    InitialHasInv(cfg, s0);
    InvAlways(cfg, s0, es);
    if es == [] {
      FreshInStep(cfg, s0, i);
    } else {
      var front := es[..|es| - 1];
      InStepAlways(cfg, s0, front, i);
      StepKeepsInStep(cfg, DoAll(cfg, s0, front), es[|es| - 1], i);
    }
  }

  /** Materialisation. In every reachable state with no run pending, reading a table's partitions in
      date order and folding the rows as upserts by primary key gives exactly the snapshot of the
      source that the last committed run read, whatever crashes happened on the way. */
  lemma {:induction false} Materialises(cfg: Config, s0: Sys, es: seq<Event>, i: nat)
    requires FreshInstall(cfg, s0) && Possible(cfg, s0, es) && i < |cfg.tables|
    requires var s := DoAll(cfg, s0, es); s.memory.Some? || s.disk.runs == {}
    ensures var s, t := DoAll(cfg, s0, es), cfg.tables[i];
            var rows := WholeLake(t, Live(s.disk));
            rows.Some? && Source.Fold(t, rows.value) == LastSnapshot(s.applied, t.name)
  {
    hide Inv, Enabled, Do, WholeLake, LiveAfter, Log, Source.Fold, LastSnapshot, FreshInstall, ValidConfig;
    var s := DoAll(cfg, s0, es);
    InStepAlways(cfg, s0, es, i);
    InvHasConfig(cfg, s);
    PromiseKept(cfg, s);
    LakeIsLog(cfg, s.applied, i);
  }

  /** Exactly-once ordered log. In every reachable state with no run pending, a table's partitions,
      read in date order, are its committed deltas in run order, strictly increasing in
      (updated_at, pk) whatever crashes happened, and the live checkpoint is at the last of them. */
  lemma {:induction false} LogIsExact(cfg: Config, s0: Sys, es: seq<Event>, i: nat)
    requires FreshInstall(cfg, s0) && Possible(cfg, s0, es) && i < |cfg.tables|
    requires var s := DoAll(cfg, s0, es); s.memory.Some? || s.disk.runs == {}
    ensures var s, t := DoAll(cfg, s0, es), cfg.tables[i];
            var log, loaded := Log(t.name, s.applied), LoadCheckpoint(cfg, Live(s.disk));
            && WholeLake(t, Live(s.disk)) == Some(log)
            && loaded.Usable? && LogSound(t, log, WatermarkOf(loaded.cp, t.name))
  {
    hide Inv, Enabled, Do, WholeLake, LiveAfter, Log, LogSound, FreshInstall, ValidConfig, LoadCheckpoint;
    hide CheckpointAfter;
    var s := DoAll(cfg, s0, es);
    InitialHasInv(cfg, s0);
    InvAlways(cfg, s0, es);
    InvHasConfig(cfg, s);
    PromiseKept(cfg, s);
    LakeIsLog(cfg, s.applied, i);
    LogIsSound(cfg, s.applied, i);
    RestIsBetween(cfg, s.applied);
  }

  /** Share snapshot. In every reachable state with no run pending, a table's share file is the last
      non-empty committed batch, or absent if there was none. */
  lemma {:induction false} ShareIsLatestBatch(cfg: Config, s0: Sys, es: seq<Event>, i: nat)
    requires FreshInstall(cfg, s0) && Possible(cfg, s0, es) && i < |cfg.tables|
    requires var s := DoAll(cfg, s0, es); s.memory.Some? || s.disk.runs == {}
    ensures var s, t := DoAll(cfg, s0, es), cfg.tables[i];
            HoldsShare(cfg, Live(s.disk), t, LastWith(t.name, s.applied))
  {
    hide Inv, Enabled, Do, LiveAfter, FreshInstall, ValidConfig, HoldsShare, LastWith;
    var s := DoAll(cfg, s0, es);
    InitialHasInv(cfg, s0);
    InvAlways(cfg, s0, es);
    InvHasConfig(cfg, s);
    PromiseKept(cfg, s);
    ShareHoldsLatest(cfg, s.applied, i);
  }

  /** The source with one row written. */
  function Written(src: Snapshots, t: TableSpec, row: Row): Snapshots
    requires t.name in src
  {
    src[t.name := src[t.name][Source.PkOf(t, row) := row]]
  }

  /** The log of the table already ends with that very row for its key. */
  predicate LogHolds(t: TableSpec, log: seq<Row>, row: Row) {
    Source.PkOf(t, row) in Source.Fold(t, log) && Source.Fold(t, log)[Source.PkOf(t, row)] == row
  }

  /** The surroundings are free. After every execution the process may die; and any row may be written
      whose key is above the initial one and above the watermark of the newest run, applied or in
      memory, and no other row. */
  lemma {:induction false} AnythingMayHappen(cfg: Config, s0: Sys, es: seq<Event>, i: nat, row: Row)
    requires FreshInstall(cfg, s0) && Possible(cfg, s0, es) && i < |cfg.tables|
    ensures Possible(cfg, s0, es + [Lose]) && DoAll(cfg, s0, es + [Lose]) == DoAll(cfg, s0, es).(memory := None)
    ensures var s, t := DoAll(cfg, s0, es), cfg.tables[i];
            Possible(cfg, s0, es + [SourceWrite(i, row)]) <==>
              && ValidRow(t, row) && Source.PkOf(t, row) >= 0 && Before(EMPTY, Source.KeyOf(t, row))
              && Before(WatermarkOf(Newest(s), t.name), Source.KeyOf(t, row))
    ensures var s, t := DoAll(cfg, s0, es), cfg.tables[i];
            Possible(cfg, s0, es + [SourceWrite(i, row)]) ==>
              && t.name in s.source
              && DoAll(cfg, s0, es + [SourceWrite(i, row)]) == s.(source := Written(s.source, t, row))
  {
    hide Inv, Enabled, Do, Possible, DoAll, FreshInstall, ValidRow, Before, Source.KeyOf, Source.PkOf, Newest;
    InitialHasInv(cfg, s0);
    InvAlways(cfg, s0, es);
    OneMoreEvent(cfg, s0, es, Lose);
    OneMoreEvent(cfg, s0, es, SourceWrite(i, row));
    MayLoseOrWrite(cfg, DoAll(cfg, s0, es), i, row);
  }

  lemma OneMoreEvent(cfg: Config, s0: Sys, es: seq<Event>, e: Event)
    requires Possible(cfg, s0, es)
    ensures Possible(cfg, s0, es + [e]) <==> Enabled(cfg, DoAll(cfg, s0, es), e)
    ensures Possible(cfg, s0, es + [e]) ==> DoAll(cfg, s0, es + [e]) == Do(cfg, DoAll(cfg, s0, es), e)
  {
    hide Enabled, Do;
    assert (es + [e])[..|es|] == es;
  }

  lemma MayLoseOrWrite(cfg: Config, s: Sys, i: nat, row: Row)
    requires Inv(cfg, s) && i < |cfg.tables|
    ensures Enabled(cfg, s, Lose) && Do(cfg, s, Lose) == s.(memory := None)
    ensures Enabled(cfg, s, SourceWrite(i, row)) <==>
      && ValidRow(cfg.tables[i], row) && Source.PkOf(cfg.tables[i], row) >= 0
      && Before(EMPTY, Source.KeyOf(cfg.tables[i], row))
      && Before(WatermarkOf(Newest(s), cfg.tables[i].name), Source.KeyOf(cfg.tables[i], row))
    ensures Enabled(cfg, s, SourceWrite(i, row)) ==>
      && cfg.tables[i].name in s.source
      && Do(cfg, s, SourceWrite(i, row)) == s.(source := Written(s.source, cfg.tables[i], row))
  {
    hide Inv, ValidRow, Before, Source.KeyOf, Source.PkOf, Newest, ValidConfig, ValidSource, RecoveryStep, StagingStep;
    hide Prepare, WatermarkOf, Chained;
    InvHasConfig(cfg, s);
    SourceIsKeyed(cfg, s.source, i);
  }

  /** How high a source write must be, exactly. In every reachable state without a run in memory, a
      READY run pending or not, write any row: the next run brings the table's lake level with the
      source if and only if the row's key is above the watermark of the last applied run, which a
      pending run counts as, or nothing was changed. */
  lemma {:induction false} NextRunSeesWriteExactly(cfg: Config, s0: Sys, es: seq<Event>, i: nat, row: Row, run: Run)
    requires FreshInstall(cfg, s0) && Possible(cfg, s0, es) && i < |cfg.tables| && DoAll(cfg, s0, es).memory.None?
    requires ValidConfig(cfg) && cfg.tables[i].name in DoAll(cfg, s0, es).source
    requires ValidSource(cfg.tables, Written(DoAll(cfg, s0, es).source, cfg.tables[i], row))
    requires var s := DoAll(cfg, s0, es);
      Prepare(cfg, LiveAfter(s.applied), Written(s.source, cfg.tables[i], row)) == Some(run)
    ensures var s, t := DoAll(cfg, s0, es), cfg.tables[i];
            && Chained(cfg, s.applied + [run])
            && (Source.Fold(t, Log(t.name, s.applied + [run])) == Written(s.source, t, row)[t.name] <==>
                 Before(MarkAfter(cfg, s.applied, t), Source.KeyOf(t, row)) || LogHolds(t, Log(t.name, s.applied), row))
  {
    hide Inv, Enabled, Do, LiveAfter, FreshInstall, ValidConfig, ValidSource, Log, MarkAfter, Source.Fold;
    hide Source.MovedOn, Source.KeyOf, Source.PkOf, Prepare, Source.Delta, Prepared, LastSnapshot;
    var s, t := DoAll(cfg, s0, es), cfg.tables[i];
    InStepAlways(cfg, s0, es, i);
    InvHasConfig(cfg, s);
    RunFollows(cfg, s.applied, Written(s.source, t, row), run);
    SourceIsKeyed(cfg, s.source, i);
    Source.WriteIsSeenExactly(t, s.source[t.name], Log(t.name, s.applied), MarkAfter(cfg, s.applied, t), row);
    NextBatch(cfg, s.applied, run, i);
  }

  lemma RunFollows(cfg: Config, runs: seq<Run>, src: Snapshots, run: Run)
    requires Chained(cfg, runs) && ValidConfig(cfg) && ValidSource(cfg.tables, src)
    requires Prepare(cfg, LiveAfter(runs), src) == Some(run)
    ensures Chained(cfg, runs + [run]) && run.snapshot == src
  {
    hide ValidConfig, ValidSource, LiveAfter, LoadCheckpoint, Fetch, Advance, RunId, AllOutputs;
    assert run.base == LiveAfter(runs) && run.snapshot == src;
    assert Prepared(cfg, run);
    FrontIs(runs, run);
  }

  lemma SourceIsKeyed(cfg: Config, src: Snapshots, i: nat)
    requires ValidSource(cfg.tables, src) && i < |cfg.tables|
    ensures cfg.tables[i].name in src && Source.KeyedByPk(cfg.tables[i], src[cfg.tables[i].name])
  {
    hide ValidRow;
    assert Source.ValidSnapshot(cfg.tables[i], src[cfg.tables[i].name]);
  }

  /** The batch of one more run is the delta above the history's watermark. */
  lemma NextBatch(cfg: Config, runs: seq<Run>, run: Run, i: nat)
    requires ValidConfig(cfg) && Chained(cfg, runs + [run]) && i < |cfg.tables|
    ensures var t := cfg.tables[i];
            && t.name in run.snapshot && Source.KeyedByPk(t, run.snapshot[t.name])
            && Log(t.name, runs + [run])
                 == Log(t.name, runs) + Source.Delta(t, run.snapshot[t.name], MarkAfter(cfg, runs, t))
  {
    hide Chained, Publishable, Computed, Source.Delta, Source.KeyedByPk, Source.ValidSnapshot, ValidConfig;
    hide CheckpointAfter;
    FrontIs(runs, run);
    LastRun(cfg, runs + [run]);
    BeforeIsPrevious(cfg, runs + [run]);
    RunBatch(cfg, run, i);
  }

  // ------------------------------------------------------------ one snapshot for all tables

  /** Every row's reference is to a row of the parent table. */
  predicate References(child: Source.Snapshot, column: string, parent: Source.Snapshot) {
    forall pk :: pk in child && column in child[pk] && child[pk][column].IntCell? ==> child[pk][column].n in parent
  }

  /** The source never shows a broken reference. */
  ghost predicate AlwaysReferences(cfg: Config, s0: Sys, es: seq<Event>, child: string, column: string, parent: string)
    requires Possible(cfg, s0, es)
  {
    forall n, src :: SourceAt(cfg, s0, es, n, src) ==>
      child in src && parent in src && References(src[child], column, src[parent])
  }

  /** A foreign key that held in the source at every moment holds between the folded lakes, because
      all tables of a run are read from one snapshot. */
  lemma {:induction false} ForeignKeysHold(cfg: Config, s0: Sys, es: seq<Event>, i: nat, column: string, j: nat)
    requires FreshInstall(cfg, s0) && Possible(cfg, s0, es) && i < |cfg.tables| && j < |cfg.tables|
    requires AlwaysReferences(cfg, s0, es, cfg.tables[i].name, column, cfg.tables[j].name)
    requires var s := DoAll(cfg, s0, es); s.memory.Some? || s.disk.runs == {}
    ensures var s, t, u := DoAll(cfg, s0, es), cfg.tables[i], cfg.tables[j];
            var rows, more := WholeLake(t, Live(s.disk)), WholeLake(u, Live(s.disk));
            rows.Some? && more.Some? && References(Source.Fold(t, rows.value), column, Source.Fold(u, more.value))
  {
    hide Enabled, Do, WholeLake, FreshInstall, Possible, DoAll, Live, Source.Fold, SourceAt, References;
    var s := DoAll(cfg, s0, es);
    Materialises(cfg, s0, es, i);
    Materialises(cfg, s0, es, j);
    var times := SnapshotsAreReal(cfg, s0, es);
    if s.applied == [] {
      NoReferences(column);
    } else {
      var n := |s.applied| - 1;
      assert Decided(s)[n] == s.applied[n];
      assert SourceAt(cfg, s0, es, times[n], s.applied[n].snapshot);
    }
  }

  lemma NoReferences(column: string)
    ensures References(map[], column, map[])
  {
  }

  // ------------------------------------------------------------ mid-commit

  /** The plan of the last applied run is on the disk and its first k steps are done: their staged
      files are gone and the live files hold their bytes, the rest are still staged and their live
      files are as they were, and the checkpoint file is this run's exactly when k is the length. */
  ghost predicate PlanUnderWay(s: Sys) {
    && s.applied != [] && s.applied[|s.applied| - 1].id == s.current
    && var run := s.applied[|s.applied| - 1];
       var k := Progress(Steps(run.outputs), s.disk.files);
       && PlanOn(s.disk, s.current) == Some(Steps(run.outputs))
       && Live(s.disk) == ApplyOutputs(run.base, run.outputs[..k])
       && (forall j :: 0 <= j < k ==> run.outputs[j].step.stagedPath !in s.disk.files)
       && (forall j :: k <= j < |run.outputs| ==> Waiting(s.disk, run.outputs[j]))
       && CheckpointIs(Live(s.disk), run, k == |run.outputs|)
  }

  ghost predicate CheckpointIs(live: LiveFiles, run: Run, done: bool) {
    if done then ValidCheckpoint(run.after) && CheckpointFileIn(live) == Present(FileText(run.after))
    else CheckpointFileIn(live) == CheckpointFileIn(run.base)
  }

  /** Prefix invariant: while a READY run's plan is on the disk, what has been done of it is a prefix
      of it, the checkpoint last. */
  lemma {:induction false} PrefixInvariant(cfg: Config, s: Sys)
    requires Inv(cfg, s) && s.memory.None? && Ready(s.disk, s.current) && PlanPath(s.current) in s.disk.files
    ensures PlanUnderWay(s)
  {
    hide Prepared, ValidConfig, ValidSource, Chained, LiveAfter, ApplyOutputs, PlanText, FileText, Publishable;
    hide AllProper, SanePlan, ValidSteps, LoadPlan, Live, GoodFiles, FilesToWrite, Tidy, LoadCheckpoint;
    hide CheckpointIs, DistinctLive;
    var run := s.applied[|s.applied| - 1];
    LastIsPrepared(cfg, s.applied);
    PreparedIsSane(cfg, run);
    PlanIsOwn(s.disk, run);
    var k := Progress(Steps(run.outputs), s.disk.files);
    forall j | 0 <= j < k ensures run.outputs[j].step.stagedPath !in s.disk.files {
      assert Steps(run.outputs)[j] == run.outputs[j].step;
    }
    CheckpointComesLast(cfg, run, k);
  }

  lemma CheckpointComesLast(cfg: Config, run: Run, k: nat)
    requires Publishable(cfg, run) && SaneRun(run) && k <= |run.outputs|
    ensures CheckpointIs(ApplyOutputs(run.base, run.outputs[..k]), run, k == |run.outputs|)
  {
    hide ValidConfig, ApplyOutputs, FileText, Publishable, SaneRun, LoadCheckpoint;
    if k == |run.outputs| {
      assert run.outputs[..k] == run.outputs;
      EndsAfter(cfg, run);
      AfterIsValid(cfg, run);
    } else {
      CheckpointIsLast(run, k);
      AppliedElsewhere(run.base, run.outputs[..k], CHECKPOINT_LIVE);
    }
  }

  lemma CheckpointIsLast(run: Run, k: nat)
    requires SaneRun(run) && k < |run.outputs|
    ensures forall o :: o in run.outputs[..k] ==> o.step.livePath != CHECKPOINT_LIVE
  {
    hide PlainId, AllProper, SanePlan, ValidSteps;
    forall o | o in run.outputs[..k] ensures o.step.livePath != CHECKPOINT_LIVE {
      var j :| 0 <= j < k && run.outputs[..k][j] == o;
      assert run.outputs[j].step.livePath != run.outputs[|run.outputs| - 1].step.livePath;
    }
  }

  ghost predicate HasOwnCheckpoint(live: LiveFiles, run: Run) {
    ValidCheckpoint(run.after) && CheckpointFileIn(live) == Present(FileText(run.after))
  }

  /** For a run with rows the checkpoint file tells: it is the run's own exactly when the plan is done. */
  lemma {:induction false} CheckpointTellsDone(cfg: Config, s: Sys, i: nat)
    requires Inv(cfg, s) && s.memory.None? && Ready(s.disk, s.current) && PlanPath(s.current) in s.disk.files
    requires i < |cfg.tables|
    ensures s.applied != []
    ensures var run := s.applied[|s.applied| - 1];
            Batch(cfg.tables[i].name, run) != [] ==>
              (HasOwnCheckpoint(Live(s.disk), run) <==> Progress(Steps(run.outputs), s.disk.files) == |run.outputs|)
  {
    hide Inv, Publishable, Computed, Chained, Live, FileText, Progress, ApplyOutputs, PlanOn, Ready, LoadFile, Batch;
    PrefixInvariant(cfg, s);
    InvHasConfig(cfg, s);
    var run := s.applied[|s.applied| - 1];
    LastRun(cfg, s.applied);
    AfterIsValid(cfg, run);
    if Batch(cfg.tables[i].name, run) != [] {
      RowsMoveTheCheckpoint(cfg, run, i);
      ComputedLoads(cfg, run);
      FileRoundTrip(run.after, TableNames(cfg.tables));
    }
  }

  /** While a READY run with rows is not finished, the live checkpoint is strictly behind the watermark
      that the source must write above; so a write above the live checkpoint, that watermark itself
      for one, may still be too low to be seen. */
  lemma {:induction false} LiveCheckpointLags(cfg: Config, s: Sys, i: nat)
    requires Inv(cfg, s) && s.memory.None? && Ready(s.disk, s.current) && PlanPath(s.current) in s.disk.files
    requires i < |cfg.tables| && s.applied != [] && Batch(cfg.tables[i].name, s.applied[|s.applied| - 1]) != []
    requires var run := s.applied[|s.applied| - 1]; Progress(Steps(run.outputs), s.disk.files) < |run.outputs|
    ensures var t, loaded := cfg.tables[i], LoadCheckpoint(cfg, Live(s.disk));
            && loaded.Usable?
            && Before(WatermarkOf(loaded.cp, t.name), MarkAfter(cfg, s.applied, t))
            && MarkAfter(cfg, s.applied, t) == WatermarkOf(Newest(s), t.name)
  {
    hide Inv, Publishable, Computed, Chained, Live, FileText, Progress, ApplyOutputs, PlanOn, Ready, LoadFile, Batch;
    PrefixInvariant(cfg, s);
    InvHasConfig(cfg, s);
    LastRun(cfg, s.applied);
    RowsMoveTheCheckpoint(cfg, s.applied[|s.applied| - 1], i);
    ComputedLoads(cfg, s.applied[|s.applied| - 1]);
    LastMark(cfg, s.applied, cfg.tables[i]);
  }

  lemma ComputedLoads(cfg: Config, run: Run)
    requires Computed(cfg, run)
    ensures LoadFile(TableNames(cfg.tables), CheckpointFileIn(run.base)) == Usable(run.before)
  {
    hide LoadFile, Fetch, Advance, RunId, ValidConfig, ValidSource, Timed;
  }

  /** A partly carried out plan leaves each file as it was or as it will be. */
  lemma EitherOldOrNew(base: LiveFiles, os: seq<Output>, k: nat, p: Path)
    requires DistinctLive(os) && k <= |os|
    ensures var live := ApplyOutputs(base, os[..k]);
            Unchanged(base, live, p) || Unchanged(ApplyOutputs(base, os), live, p)
  {
    hide ApplyOutputs;
    if j :| 0 <= j < |os| && os[j].step.livePath == p {
      AppliedAt(base, os, j);
      if j < k {
        AppliedAt(base, os[..k], j);
      } else {
        forall o | o in os[..k] ensures o.step.livePath != p {
          var i :| 0 <= i < k && os[..k][i] == o;
          assert os[i].step.livePath != os[j].step.livePath;
        }
        AppliedElsewhere(base, os[..k], p);
      }
    } else {
      forall o | o in os[..k] ensures o.step.livePath != p {
        var i :| 0 <= i < k && os[..k][i] == o;
        assert os[i] == o;
      }
      AppliedElsewhere(base, os[..k], p);
    }
  }

  /** The live files, mid-commit included, lie between the history the live checkpoint belongs to
      and the whole history. */
  ghost predicate Between(cfg: Config, live: LiveFiles, c: seq<Run>, runs: seq<Run>) {
    && LoadCheckpoint(cfg, live) == Usable(CheckpointAfter(cfg, c))
    && forall p :: Unchanged(LiveAfter(c), live, p) || Unchanged(LiveAfter(runs), live, p)
  }

  lemma RestIsBetween(cfg: Config, runs: seq<Run>)
    requires Chained(cfg, runs)
    ensures Between(cfg, LiveAfter(runs), runs, runs)
  {
    hide Chained, LoadCheckpoint, ApplyOutputs, LiveAfter, CheckpointAfter;
    CheckpointLoads(cfg, runs);
  }

  /** The committed history the live checkpoint stands for: all the applied runs, or all but the one
      whose plan is not finished. */
  lemma LiveIsBetween(cfg: Config, s: Sys) returns (c: seq<Run>)
    requires Inv(cfg, s)
    ensures c == s.applied || (s.memory.None? && s.applied != [] && c == s.applied[..|s.applied| - 1])
    ensures Between(cfg, Live(s.disk), c, s.applied)
  {
    hide Prepared, ValidConfig, ValidSource, Chained, ApplyOutputs, PlanText, Publishable, GoodFiles, FilesToWrite;
    hide Tidy, LoadCheckpoint, LoadFile, MidCommit, Progress, SaneRun, Computed, Holds;
    c := s.applied;
    if s.memory.None? && Ready(s.disk, s.current) && PlanPath(s.current) in s.disk.files {
      PrefixInvariant(cfg, s);
      var n := |s.applied| - 1;
      var run := s.applied[n];
      var k := Progress(Steps(run.outputs), s.disk.files);
      LastRun(cfg, s.applied);
      if k < |run.outputs| {
        c := s.applied[..n];
        RestIsBetween(cfg, c);
        SameCheckpoint(cfg, run.base, Live(s.disk));
        PublishableIsSane(cfg, run);
        SaneIsDistinct(run);
        forall p ensures Unchanged(LiveAfter(c), Live(s.disk), p) || Unchanged(LiveAfter(s.applied), Live(s.disk), p) {
          EitherOldOrNew(run.base, run.outputs, k, p);
        }
      } else {
        assert run.outputs[..k] == run.outputs;
        RestIsBetween(cfg, s.applied);
      }
    } else {
      RestIsBetween(cfg, s.applied);
    }
  }

  lemma SaneIsDistinct(run: Run)
    requires SaneRun(run)
    ensures DistinctLive(run.outputs)
  {
  }

  lemma SameCheckpoint(cfg: Config, a: LiveFiles, b: LiveFiles)
    requires CheckpointFileIn(a) == CheckpointFileIn(b)
    ensures LoadCheckpoint(cfg, a) == LoadCheckpoint(cfg, b)
  {
  }

  lemma {:induction false} OnItsDate(rows: seq<Row>, row: Row)
    requires Timed(rows) && row in rows && Instants.InRange(Source.TimeOf(row))
    ensures row in OnDate(rows, DateKeyOf(row))
  {
    hide DateKeyOf;
    var n := |rows| - 1;
    var i :| 0 <= i < |rows| && rows[i] == row;
    if i < n {
      assert rows[..n][i] == row;
      OnItsDate(rows[..n], row);
    }
  }

  /** A row at or below the watermark of a history was published by that history. */
  lemma BelowTheMark(cfg: Config, runs: seq<Run>, i: nat, row: Row)
    requires ValidConfig(cfg) && Chained(cfg, runs) && runs != [] && i < |cfg.tables|
    requires row in Log(cfg.tables[i].name, runs)
    requires AtOrBefore(Source.KeyOf(cfg.tables[i], row), MarkAfter(cfg, runs[..|runs| - 1], cfg.tables[i]))
    ensures row in Log(cfg.tables[i].name, runs[..|runs| - 1])
  {
    hide Chained, Publishable, Computed, Source.Delta, Source.KeyedByPk, Source.ValidSnapshot, Source.KeyOf;
    hide ValidConfig, CheckpointAfter, ValidRow, Source.PkOf;
    var n, t := |runs| - 1, cfg.tables[i];
    LastRun(cfg, runs);
    BeforeIsPrevious(cfg, runs);
    RunBatch(cfg, runs[n], i);
    var mark := MarkAfter(cfg, runs[..n], t);
    DeltaRowsValid(t, runs[n].snapshot[t.name], mark);
    forall k | 0 <= k < |Batch(t.name, runs[n])| ensures Batch(t.name, runs[n])[k] != row {
      NotBack(mark, Source.KeyOf(t, Batch(t.name, runs[n])[k]));
    }
  }

  /** The row is in its partition of the lake. */
  ghost predicate InLake(t: TableSpec, live: LiveFiles, row: Row) {
    && Instants.InRange(Source.TimeOf(row))
    && var rows := Decode(t, TextAt(live, LakeLive(t, DateKeyOf(row))));
       rows.Some? && row in rows.value
  }

  lemma LogIsInLake(cfg: Config, runs: seq<Run>, i: nat, row: Row)
    requires ValidConfig(cfg) && Chained(cfg, runs) && i < |cfg.tables| && row in Log(cfg.tables[i].name, runs)
    ensures InLake(cfg.tables[i], LiveAfter(runs), row)
  {
    hide Chained, LiveAfter, Log, MarkAfter, ValidRow, Encode, Decode, LakeLive, DateKeyOf, OnDate;
    var t := cfg.tables[i];
    var rows := Log(t.name, runs);
    LogIsSound(cfg, runs, i);
    var k :| 0 <= k < |rows| && rows[k] == row;
    OnItsDate(rows, row);
    LakeHoldsLog(cfg, runs, i, DateKeyOf(row));
    PartitionText(LiveAfter(runs), t, rows, DateKeyOf(row));
    DecodeEncode(t, OnDate(rows, DateKeyOf(row)));
  }

  lemma SameTextAt(a: LiveFiles, b: LiveFiles, p: Path)
    requires Unchanged(a, b, p)
    ensures TextAt(a, p) == TextAt(b, p)
  {
  }

  /** The checkpoint is never ahead of the lake, wherever the invariant holds. */
  lemma {:induction false} CheckpointNeverAheadIn(cfg: Config, s: Sys, i: nat, row: Row)
    requires Inv(cfg, s) && i < |cfg.tables| && row in Log(cfg.tables[i].name, Decided(s))
    ensures LoadCheckpoint(cfg, Live(s.disk)).Usable?
    ensures var t, cp := cfg.tables[i], LoadCheckpoint(cfg, Live(s.disk)).cp;
            AtOrBefore(Source.KeyOf(t, row), WatermarkOf(cp, t.name)) ==> InLake(t, Live(s.disk), row)
  {
    hide Inv, Chained, ValidConfig, ValidSource, LiveAfter, Live, LoadCheckpoint, InLake, Log, CheckpointAfter;
    hide Source.KeyOf, Unchanged;
    var t := cfg.tables[i];
    var c := LiveIsBetween(cfg, s);
    InvHasConfig(cfg, s);
    DecidedChained(cfg, s);
    if AtOrBefore(Source.KeyOf(t, row), MarkAfter(cfg, c, t)) {
      var runs := Decided(s);
      if |c| < |runs| {
        assert runs[..|runs| - 1] == c;
        BelowTheMark(cfg, runs, i, row);
      } else {
        assert runs == c;
      }
      InBoth(cfg, s, c, i, row);
    }
  }

  /** The checkpoint is never ahead of the lake. In every reachable state, mid-commit and mid-resume
      included, the live checkpoint is readable, and every row that any committed or pending run
      selected with a key at or below its watermark is in the live lake. */
  lemma {:induction false} CheckpointNeverAhead(cfg: Config, s0: Sys, es: seq<Event>, i: nat, row: Row)
    requires FreshInstall(cfg, s0) && Possible(cfg, s0, es) && i < |cfg.tables|
    requires row in Log(cfg.tables[i].name, Decided(DoAll(cfg, s0, es)))
    ensures var s, t := DoAll(cfg, s0, es), cfg.tables[i];
            var loaded := LoadCheckpoint(cfg, Live(s.disk));
            && loaded.Usable?
            && (AtOrBefore(Source.KeyOf(t, row), WatermarkOf(loaded.cp, t.name)) ==> InLake(t, Live(s.disk), row))
  {
    hide Inv, Enabled, Do, LiveAfter, FreshInstall, ValidConfig, Live, LoadCheckpoint, InLake, Log, Source.KeyOf;
    InitialHasInv(cfg, s0);
    InvAlways(cfg, s0, es);
    CheckpointNeverAheadIn(cfg, DoAll(cfg, s0, es), i, row);
  }

  lemma InBoth(cfg: Config, s: Sys, c: seq<Run>, i: nat, row: Row)
    requires ValidConfig(cfg) && Chained(cfg, s.applied) && i < |cfg.tables|
    requires c == s.applied || (s.applied != [] && c == s.applied[..|s.applied| - 1])
    requires Between(cfg, Live(s.disk), c, s.applied) && row in Log(cfg.tables[i].name, c)
    ensures InLake(cfg.tables[i], Live(s.disk), row)
  {
    hide Chained, ValidConfig, LiveAfter, Live, LoadCheckpoint, Decode, Unchanged, LakeLive, DateKeyOf;
    var t := cfg.tables[i];
    if c != s.applied { LastRun(cfg, s.applied); }
    LogIsInLake(cfg, c, i, row);
    LogIsInLake(cfg, s.applied, i, row);
    var p := LakeLive(t, DateKeyOf(row));
    if Unchanged(LiveAfter(c), Live(s.disk), p) {
      SameTextAt(LiveAfter(c), Live(s.disk), p);
    } else {
      SameTextAt(LiveAfter(s.applied), Live(s.disk), p);
    }
  }

  // ------------------------------------------------------------ discarded runs

  /** A run that died before READY is reproduced: once its remains are discarded, and if the source
      still shows the same snapshot, the next run is the very same run, with the same identity and
      the same bytes in every file. */
  lemma {:induction false} DiscardedRunIsReproduced(cfg: Config, s: Sys, ops: seq<Op>)
    requires Inv(cfg, s) && s.memory.Some?
    requires Recovering(ops, s.disk) && ApplyAll(ops, s.disk).runs == {}
    ensures var again := s.(memory := None, disk := ApplyAll(ops, s.disk), source := s.memory.value.run.snapshot);
            && Enabled(cfg, again, ReadSource)
            && Do(cfg, again, ReadSource).memory == Some(Memory(s.memory.value.run, 0))
  {
    hide Chained, ValidConfig, ValidSource, Prepare, LiveAfter, Tidy, AtRest, Possible, DoAll, Live, RecoveryStep;
    var run := s.memory.value.run;
    var lost := s.(memory := None, source := run.snapshot);
    LoseKeepsInv(cfg, s.(source := run.snapshot));
    RecoveryTrace(cfg, lost, ops);
    LeadsToInv(cfg, lost, FileOps(ops), lost.(disk := ApplyAll(ops, s.disk)));
    PromiseKept(cfg, lost.(disk := ApplyAll(ops, s.disk)));
  }

  // ------------------------------------------------------------ runs without rows, and events

  /** Of two moments with no run pending, one run apart. */
  ghost predicate OneRunLater(s: Sys, t: Sys, run: Run) {
    && (s.memory.Some? || s.disk.runs == {}) && (t.memory.Some? || t.disk.runs == {})
    && t.applied == s.applied + [run]
  }

  /** A run without rows leaves every live file but its events file as it was, exactly if it is not
      the first run. */
  lemma {:induction false} NoRowsKeepFilesExactly(cfg: Config, s: Sys, t: Sys, run: Run)
    requires Inv(cfg, s) && Inv(cfg, t) && OneRunLater(s, t, run) && ZeroDelta(cfg.tables, run.deltas)
    ensures OnlyDiffersAt(Live(s.disk), Live(t.disk), EventsLive(run.id)) <==> s.applied != []
  {
    hide Inv, Chained, Live, LiveAfter, EventsLive, Publishable, Computed;
    InvHasConfig(cfg, s);
    InvHasConfig(cfg, t);
    PromiseKept(cfg, s);
    PromiseKept(cfg, t);
    FrontIs(s.applied, run);
    if s.applied == [] {
      FirstRunCreatesCheckpoint(cfg, t.applied);
      EventsAreNoCheckpoint(run.id);
      assert !Unchanged(Live(s.disk), Live(t.disk), CHECKPOINT_LIVE);
    } else {
      NoRowsAfter(cfg, t.applied);
    }
  }

  lemma FrontIs(runs: seq<Run>, run: Run)
    ensures (runs + [run])[..|runs|] == runs && (runs + [run])[|runs|] == run && (runs + [run])[..0] == []
  {
  }

  /** No-op fixed point on the disk: a run without rows after another one leaves every live file as it
      was, and has its identity. */
  lemma {:induction false} NoOpKeepsEveryFile(cfg: Config, s0: Sys, es: seq<Event>, more: seq<Event>, run: Run)
    requires FreshInstall(cfg, s0) && Possible(cfg, s0, es) && Possible(cfg, s0, es + more)
    requires OneRunLater(DoAll(cfg, s0, es), DoAll(cfg, s0, es + more), run) && ZeroDelta(cfg.tables, run.deltas)
    requires DoAll(cfg, s0, es).applied != [] && ZeroDelta(cfg.tables, LastOf(DoAll(cfg, s0, es).applied).deltas)
    ensures Live(DoAll(cfg, s0, es + more).disk) == Live(DoAll(cfg, s0, es).disk)
    ensures run.id == LastOf(DoAll(cfg, s0, es).applied).id
  {
    hide Inv, Enabled, Do, Chained, Live, LiveAfter, FreshInstall, ValidConfig, ZeroDelta;
    var s, t := DoAll(cfg, s0, es), DoAll(cfg, s0, es + more);
    InitialHasInv(cfg, s0);
    InvAlways(cfg, s0, es);
    InvAlways(cfg, s0, es + more);
    InvHasConfig(cfg, t);
    PromiseKept(cfg, s);
    PromiseKept(cfg, t);
    FrontIs(s.applied, run);
    NoOpFixedPoint(cfg, t.applied);
  }

  function LastOf(runs: seq<Run>): Run
    requires runs != []
  {
    runs[|runs| - 1]
  }

  /** A run without rows in any execution. */
  lemma {:induction false} NoRowsOnDisk(cfg: Config, s0: Sys, es: seq<Event>, more: seq<Event>, run: Run)
    requires FreshInstall(cfg, s0) && Possible(cfg, s0, es) && Possible(cfg, s0, es + more)
    requires OneRunLater(DoAll(cfg, s0, es), DoAll(cfg, s0, es + more), run) && ZeroDelta(cfg.tables, run.deltas)
    ensures OnlyDiffersAt(Live(DoAll(cfg, s0, es).disk), Live(DoAll(cfg, s0, es + more).disk), EventsLive(run.id))
      <==> DoAll(cfg, s0, es).applied != []
  {
    hide Inv, Enabled, Do, Chained, Live, LiveAfter, FreshInstall, ValidConfig, ZeroDelta, OnlyDiffersAt;
    InitialHasInv(cfg, s0);
    InvAlways(cfg, s0, es);
    InvAlways(cfg, s0, es + more);
    NoRowsKeepFilesExactly(cfg, DoAll(cfg, s0, es), DoAll(cfg, s0, es + more), run);
  }

  /** In every reachable state with no run pending the events file of every applied run holds what
      that run wrote, unless the digest collides. */
  lemma {:induction false} EventsSurvive(cfg: Config, s0: Sys, es: seq<Event>, k: nat)
    requires FreshInstall(cfg, s0) && Possible(cfg, s0, es)
    requires var s := DoAll(cfg, s0, es);
      (s.memory.Some? || s.disk.runs == {}) && k < |s.applied| && NoCollision(cfg, s.applied)
    ensures HoldsEvents(cfg, Live(DoAll(cfg, s0, es).disk), DoAll(cfg, s0, es).applied[k])
  {
    hide Inv, Enabled, Do, Chained, Live, LiveAfter, FreshInstall, ValidConfig, NoCollision, HoldsEvents;
    var s := DoAll(cfg, s0, es);
    InitialHasInv(cfg, s0);
    InvAlways(cfg, s0, es);
    InvHasConfig(cfg, s);
    PromiseKept(cfg, s);
    EventsAreKept(cfg, s.applied, k);
  }

  /** In every reachable state of a READY run whose plan is on the disk, a prefix of it is done. */
  lemma {:induction false} PrefixAlways(cfg: Config, s0: Sys, es: seq<Event>)
    requires FreshInstall(cfg, s0) && Possible(cfg, s0, es)
    requires var s := DoAll(cfg, s0, es);
      s.memory.None? && Ready(s.disk, s.current) && PlanPath(s.current) in s.disk.files
    ensures PlanUnderWay(DoAll(cfg, s0, es))
  {
    hide Inv, Enabled, Do, PlanUnderWay, FreshInstall, Ready;
    InitialHasInv(cfg, s0);
    InvAlways(cfg, s0, es);
    PrefixInvariant(cfg, DoAll(cfg, s0, es));
  }
}
