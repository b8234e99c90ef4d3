/** Every execution of the service, with any number of crashes, is an execution of one that applies
    whole batches atomically. */
module Refinement {
  import opened Strings
  import opened Results
  import opened Checkpoints
  import opened Disks
  import opened Staging
  import opened Recovery
  import opened Writes
  import opened Outputs
  import opened Runs
  import opened System
  import Tables
  import Source

  // ------------------------------------------------------------ executions

  /** The events can happen one after the other from this state. */
  ghost predicate Possible(cfg: Config, s: Sys, es: seq<Event>)
    decreases |es|, 0
  {
    es == [] ||
    (Possible(cfg, s, es[..|es| - 1]) && Enabled(cfg, DoAll(cfg, s, es[..|es| - 1]), es[|es| - 1]))
  }

  ghost function DoAll(cfg: Config, s: Sys, es: seq<Event>): Sys
    requires Possible(cfg, s, es)
    decreases |es|, 1
  {
    if es == [] then s else Do(cfg, DoAll(cfg, s, es[..|es| - 1]), es[|es| - 1])
  }

  lemma {:induction false} PossibleJoins(cfg: Config, s: Sys, a: seq<Event>, b: seq<Event>)
    requires Possible(cfg, s, a) && Possible(cfg, DoAll(cfg, s, a), b)
    ensures Possible(cfg, s, a + b) && DoAll(cfg, s, a + b) == DoAll(cfg, DoAll(cfg, s, a), b)
  {
    hide Enabled, Do;
    if b == [] {
      assert a + b == a;
    } else {
      var k := |b| - 1;
      PossibleJoins(cfg, s, a, b[..k]);
      assert (a + b)[..|a| + k] == a + b[..k];
    }
  }

  lemma PossibleOne(cfg: Config, s: Sys, e: Event)
    requires Enabled(cfg, s, e)
    ensures Possible(cfg, s, [e]) && DoAll(cfg, s, [e]) == Do(cfg, s, e)
  {
    hide Enabled, Do;
    assert [e][..0] == [];
    assert Possible(cfg, s, []);
  }

  // ------------------------------------------------------------ the invariant is one

  lemma WriteKeepsSource(cfg: Config, src: Snapshots, i: nat, row: Tables.Row, newest: Checkpoint)
    requires ValidConfig(cfg) && ValidSource(cfg.tables, src) && i < |cfg.tables|
    requires SourceMayWrite(cfg.tables[i], row, newest)
    ensures var t := cfg.tables[i];
            ValidSource(cfg.tables, src[t.name := src[t.name][Source.PkOf(t, row) := row]])
  {
    hide Source.PkOf, Source.KeyOf, Tables.ValidRow, Tables.ValidSpec;
    var t := cfg.tables[i];
    var next := src[t.name := src[t.name][Source.PkOf(t, row) := row]];
    forall j | 0 <= j < |cfg.tables|
      ensures cfg.tables[j].name in next && Source.ValidSnapshot(cfg.tables[j], next[cfg.tables[j].name])
    {
      if j != i { TablesApart(cfg, i, j); }
    }
  }

  lemma FetchKeepsInv(cfg: Config, s: Sys)
    requires Inv(cfg, s) && Enabled(cfg, s, ReadSource)
    ensures Inv(cfg, Do(cfg, s, ReadSource))
    ensures var m := Do(cfg, s, ReadSource).memory;
            m.Some? && Prepared(cfg, m.value.run) && m.value.run.snapshot == s.source
  {
    hide Chained, LiveAfter, Committing, PlanText, ValidSource, ValidConfig, AllOutputs, Runs.Fetch, RunId, Advance;
    var run := Prepare(cfg, Live(s.disk), s.source).value;
    assert Prepared(cfg, run);
    PreparedIsSane(cfg, run);
    JournalPaths(s.current);
    assert !Ready(s.disk, s.current);
    NothingHeld(s.disk, run.id, FilesToWrite(run));
  }

  lemma NothingHeld(fs: FS, run: string, files: seq<File>)
    requires GoodFiles(run, files) && forall p :: p in fs.files ==> IsLive(p)
    ensures Holds(fs, files, 0)
  {
  }

  lemma LoseKeepsInv(cfg: Config, s: Sys)
    requires Inv(cfg, s)
    ensures Inv(cfg, s.(memory := None))
  {
    hide Chained, LiveAfter, Committing, ValidSource, ValidConfig, Prepared, FilesToWrite, Ready;
    if s.memory.Some? {
      var m := s.memory.value;
      NotYetReady(m.run, s.disk, m.written);
    }
  }

  /** Only the operation that makes READY appear applies a run, and it applies the one in memory. */
  ghost predicate MarksReady(s: Sys, e: Event) {
    && s.memory.Some? && e.FileOp? && e.op.Publish?
    && s.memory.value.written + 1 == |FilesToWrite(s.memory.value.run)|
  }

  /** Every event, crash included, keeps the invariant, and every event but one leaves the applied
      runs as they are. */
  lemma {:induction false} StepKeepsInv(cfg: Config, s: Sys, e: Event)
    requires Inv(cfg, s) && Enabled(cfg, s, e)
    ensures Inv(cfg, Do(cfg, s, e))
    ensures Do(cfg, s, e).applied == if MarksReady(s, e) then s.applied + [s.memory.value.run] else s.applied
  {
    hide Chained, LiveAfter, Prepare, Prepared, InProgress, AtRest, Tidy, RecoveryStep, ValidSource, ValidConfig;
    hide FilesToWrite;
    match e
    case SourceWrite(i, row) => WriteKeepsInv(cfg, s, i, row);
    case ReadSource => FetchKeepsInv(cfg, s);
    case Lose => LoseKeepsInv(cfg, s);
    case FileOp(op) =>
      if s.memory.Some? { StagingKeepsInv(cfg, s, op); } else { RecoveryKeepsInv(cfg, s, op); }
  }

  lemma WriteKeepsInv(cfg: Config, s: Sys, i: nat, row: Tables.Row)
    requires Inv(cfg, s) && Enabled(cfg, s, SourceWrite(i, row))
    ensures Inv(cfg, Do(cfg, s, SourceWrite(i, row)))
  {
    hide Chained, LiveAfter, Committing, Prepared, ValidConfig, ValidSource, Tidy, FilesToWrite, Ready, Holds;
    hide SourceMayWrite;
    WriteKeepsSource(cfg, s.source, i, row, Newest(s));
  }

  lemma InitialHasInv(cfg: Config, s: Sys)
    requires FreshInstall(cfg, s)
    ensures Inv(cfg, s)
  {
    hide ValidConfig, ValidSource;
    assert Live(s.disk) == map[];
  }

  /** Safety over every execution. */
  lemma {:induction false} InvAlways(cfg: Config, s: Sys, es: seq<Event>)
    requires Inv(cfg, s) && Possible(cfg, s, es)
    ensures Inv(cfg, DoAll(cfg, s, es))
    decreases |es|
  {
    hide Inv, Enabled, Do;
    if es != [] {
      InvAlways(cfg, s, es[..|es| - 1]);
      StepKeepsInv(cfg, DoAll(cfg, s, es[..|es| - 1]), es[|es| - 1]);
    }
  }

  // ------------------------------------------------------------ the atomic specification

  /** One whole batch at once. */
  ghost function OneBatch(cfg: Config, live: LiveFiles, src: Snapshots): LiveFiles
    requires ValidConfig(cfg) && ValidSource(cfg.tables, src)
  {
    match Prepare(cfg, live, src)
    case None => live
    case Some(run) => After(run)
  }

  ghost predicate ValidSources(cfg: Config, srcs: seq<Snapshots>) {
    forall i :: 0 <= i < |srcs| ==> ValidSource(cfg.tables, srcs[i])
  }

  /** Batch after batch from nothing, each read from its own snapshot of the source. */
  ghost function Batches(cfg: Config, srcs: seq<Snapshots>): LiveFiles
    requires ValidConfig(cfg) && ValidSources(cfg, srcs)
  {
    if srcs == [] then map[]
    else OneBatch(cfg, Batches(cfg, srcs[..|srcs| - 1]), srcs[|srcs| - 1])
  }

  function Snapped(runs: seq<Run>): (srcs: seq<Snapshots>)
    ensures |srcs| == |runs| && forall i :: 0 <= i < |runs| ==> srcs[i] == runs[i].snapshot
  {
    seq(|runs|, i requires 0 <= i < |runs| => runs[i].snapshot)
  }

  lemma {:induction false} ChainedIsBatches(cfg: Config, runs: seq<Run>)
    requires ValidConfig(cfg) && Chained(cfg, runs)
    ensures ValidSources(cfg, Snapped(runs)) && LiveAfter(runs) == Batches(cfg, Snapped(runs))
  {
    hide ValidConfig, ValidSource, Prepare, After;
    if runs != [] {
      var n := |runs| - 1;
      ChainedIsBatches(cfg, runs[..n]);
      assert Snapped(runs)[..n] == Snapped(runs[..n]);
      forall i | 0 <= i < |runs| ensures ValidSource(cfg.tables, Snapped(runs)[i]) {
        if i < n { assert Snapped(runs[..n])[i] == Snapped(runs)[i]; }
      }
    }
  }

  /** The plan, carried out from where it stands, leaves the whole batch. */
  lemma {:induction false} RestOfPlan(run: Run, fs: FS, k: nat, n: nat)
    requires SaneRun(run) && k <= n <= |run.outputs|
    requires Live(fs) == ApplyOutputs(run.base, run.outputs[..k])
    requires forall j :: 0 <= j < k ==> run.outputs[j].step.stagedPath !in fs.files
    requires forall j :: k <= j < |run.outputs| ==> Waiting(fs, run.outputs[j])
    ensures var g := ExecSteps(Steps(run.outputs)[..n], fs);
            && Live(g) == ApplyOutputs(run.base, run.outputs[..n])
            && forall j :: n <= j < |run.outputs| ==> Waiting(g, run.outputs[j])
    decreases n
  {
    hide ApplyOutputs, SaneRun, Live, Waiting, ExecSteps, Apply;
    var steps := Steps(run.outputs);
    if n == k {
      forall i | 0 <= i < |steps[..n]| ensures steps[..n][i].stagedPath !in fs.files {
        assert steps[i] == run.outputs[i].step;
      }
      ExecNothing(steps[..n], fs);
    } else {
      RestOfPlan(run, fs, k, n - 1);
      var g := ExecSteps(steps[..n - 1], fs);
      var o := run.outputs[n - 1];
      LastStep(steps, n - 1, fs);
      SwungIsMovable(run, n - 1);
      JournalIsNotLive(o.step.stagedPath, run.id);
      SwungLive(g, o);
      AppliedNext(run.base, run.outputs, n - 1);
      forall j | n <= j < |run.outputs|
        ensures Waiting(Apply(Swing(o.step.stagedPath, o.step.livePath), g), run.outputs[j])
      {
        OthersWait(g, run, n - 1, j);
      }
    }
  }

  lemma OthersWait(fs: FS, run: Run, i: nat, j: nat)
    requires SaneRun(run) && i < j < |run.outputs| && Waiting(fs, run.outputs[j])
    ensures Waiting(Apply(Swing(run.outputs[i].step.stagedPath, run.outputs[i].step.livePath), fs), run.outputs[j])
  {
    hide AllProper, DistinctLive, ValidSteps, PlainId;
    SwungIsMovable(run, i);
    SwungIsMovable(run, j);
    assert Steps(run.outputs)[i].stagedPath != Steps(run.outputs)[j].stagedPath;
  }

  lemma JournalIsNotLive(p: Path, run: string)
    requires InRun(p, run)
    ensures !IsLive(p)
  {
  }

  lemma CommittingPromises(fs: FS, run: Run)
    requires SaneRun(run) && Committing(fs, run) && Ready(fs, run.id)
    ensures Target(fs, run.id) == After(run)
  {
    hide ApplyOutputs, PlanText, AllProper, DistinctLive, SanePlan, LoadPlan, Live, ExecSteps;
    PlanIsOwn(fs, run);
    if PlanPath(run.id) in fs.files {
      var n := |run.outputs|;
      var k := Progress(Steps(run.outputs), fs.files);
      forall j | 0 <= j < k ensures run.outputs[j].step.stagedPath !in fs.files {
        assert Steps(run.outputs)[j] == run.outputs[j].step;
      }
      RestOfPlan(run, fs, k, n);
      assert Steps(run.outputs)[..n] == Steps(run.outputs) && run.outputs[..n] == run.outputs;
    }
  }

  /** What the journal on disk promises is exactly the batches applied so far. */
  lemma PromiseKept(cfg: Config, s: Sys)
    requires Inv(cfg, s)
    ensures Target(s.disk, s.current) == LiveAfter(s.applied)
    ensures s.memory.Some? || s.disk.runs == {} ==> Live(s.disk) == LiveAfter(s.applied)
  {
    hide Chained, Prepared, ValidConfig, ValidSource, SaneRun, Committing, ExecSteps, FilesToWrite, After, Live, Holds;
    if s.memory.Some? {
      NotYetReady(s.memory.value.run, s.disk, s.memory.value.written);
    } else if Ready(s.disk, s.current) {
      LastIsPrepared(cfg, s.applied);
      PreparedIsSane(cfg, s.applied[|s.applied| - 1]);
      CommittingPromises(s.disk, s.applied[|s.applied| - 1]);
      JournalPaths(s.current);
      JournalIsNotLive(ReadyPath(s.current), s.current);
    }
  }

  /** Refinement. Whatever happens, crashes at any file operation included: the journal promises
      the batches that reached READY, each applied once and in order, each read from one snapshot;
      and with no run pending that is what the live files are. */
  lemma {:induction false} Refines(cfg: Config, s0: Sys, es: seq<Event>)
    requires FreshInstall(cfg, s0) && Possible(cfg, s0, es)
    ensures var s := DoAll(cfg, s0, es);
            && ValidSources(cfg, Snapped(s.applied))
            && Target(s.disk, s.current) == Batches(cfg, Snapped(s.applied))
            && (s.memory.Some? || s.disk.runs == {} ==> Live(s.disk) == Batches(cfg, Snapped(s.applied)))
  {
    hide Chained, Tidy, AtRest, InProgress, Target, Batches, LiveAfter, Enabled, Do;
    InitialHasInv(cfg, s0);
    InvAlways(cfg, s0, es);
    PromiseKept(cfg, DoAll(cfg, s0, es));
    ChainedIsBatches(cfg, DoAll(cfg, s0, es).applied);
  }

  /** The moments at which the applied runs, and the one in memory, read the source. */
  ghost predicate ReadAt(cfg: Config, s0: Sys, es: seq<Event>, runs: seq<Run>, times: seq<nat>)
    requires Possible(cfg, s0, es)
  {
    && |times| == |runs|
    && (forall i, j :: 0 <= i < j < |times| ==> times[i] < times[j])
    && forall i :: 0 <= i < |times| ==> SourceAt(cfg, s0, es, times[i], runs[i].snapshot)
  }

  ghost predicate SourceAt(cfg: Config, s0: Sys, es: seq<Event>, n: nat, src: Snapshots)
    requires Possible(cfg, s0, es)
  {
    n < |es| && Possible(cfg, s0, es[..n]) && DoAll(cfg, s0, es[..n]).source == src
  }

  function Decided(s: Sys): seq<Run> {
    if s.memory.Some? then s.applied + [s.memory.value.run] else s.applied
  }

  lemma ReadAtExtends(cfg: Config, s0: Sys, es: seq<Event>, runs: seq<Run>, times: seq<nat>)
    requires Possible(cfg, s0, es) && es != []
    requires Possible(cfg, s0, es[..|es| - 1]) && ReadAt(cfg, s0, es[..|es| - 1], runs, times)
    ensures ReadAt(cfg, s0, es, runs, times)
  {
    hide Possible, DoAll;
    var front := es[..|es| - 1];
    forall i | 0 <= i < |times| ensures SourceAt(cfg, s0, es, times[i], runs[i].snapshot) {
      assert SourceAt(cfg, s0, front, times[i], runs[i].snapshot);
      assert es[..times[i]] == front[..times[i]];
    }
  }

  /** No batch mixes moments or invents data: the snapshots are states the source was really in,
      one for each run, in the order the runs were applied. */
  lemma {:induction false} SnapshotsAreReal(cfg: Config, s0: Sys, es: seq<Event>) returns (times: seq<nat>)
    requires FreshInstall(cfg, s0) && Possible(cfg, s0, es)
    ensures ReadAt(cfg, s0, es, Decided(DoAll(cfg, s0, es)), times)
    decreases |es|
  {
    hide Inv, Enabled, Prepare, FilesToWrite, ValidConfig, ValidSource;
    times := [];
    if es != [] {
      var front, e := es[..|es| - 1], es[|es| - 1];
      var s := DoAll(cfg, s0, front);
      var earlier := SnapshotsAreReal(cfg, s0, front);
      InitialHasInv(cfg, s0);
      InvAlways(cfg, s0, front);
      StepKeepsInv(cfg, s, e);
      ReadAtExtends(cfg, s0, es, Decided(s), earlier);
      times := NextTimes(cfg, s0, es, s, e, earlier);
    }
  }

  lemma NextTimes(cfg: Config, s0: Sys, es: seq<Event>, s: Sys, e: Event, earlier: seq<nat>) returns (times: seq<nat>)
    requires Possible(cfg, s0, es) && es != [] && e == es[|es| - 1]
    requires Possible(cfg, s0, es[..|es| - 1]) && s == DoAll(cfg, s0, es[..|es| - 1])
    requires Inv(cfg, s) && Enabled(cfg, s, e)
    requires ReadAt(cfg, s0, es, Decided(s), earlier)
    requires forall i :: 0 <= i < |earlier| ==> earlier[i] < |es| - 1
    ensures ReadAt(cfg, s0, es, Decided(Do(cfg, s, e)), times)
  {
    hide Inv, Possible, DoAll, Prepare, FilesToWrite, RecoveryStep, StagingStep, SourceMayWrite;
    if e.ReadSource? {
      FetchKeepsInv(cfg, s);
      times := earlier + [|es| - 1];
      assert SourceAt(cfg, s0, es, |es| - 1, s.source);
    } else {
      times := if e.Lose? then earlier[..|s.applied|] else earlier;
      assert e.Lose? ==> forall i :: 0 <= i < |times| ==> Decided(s)[i] == s.applied[i];
    }
  }

  // ------------------------------------------------------------ a reachable journal is sound

  lemma InvIsSound(cfg: Config, s: Sys)
    requires Inv(cfg, s) && s.memory.None?
    ensures SoleRun(s.disk, s.current) && SaneJournal(s.disk)
    ensures Ready(s.disk, s.current) ==>
      s.applied != [] && s.current == s.applied[|s.applied| - 1].id && SaneRun(s.applied[|s.applied| - 1])
  {
    hide Chained, Prepared, Publishable, ValidConfig, ValidSource, SaneRun, Committing, FilesToWrite, LoadPlan;
    hide After, Live, SanePlan, GoodFiles, LiveAfter;
    if Ready(s.disk, s.current) {
      var run := s.applied[|s.applied| - 1];
      LastIsPrepared(cfg, s.applied);
      PreparedIsSane(cfg, run);
      PlanIsOwn(s.disk, run);
      SanePlanOf(run);
    }
  }

  lemma SanePlanOf(run: Run)
    requires SaneRun(run)
    ensures SanePlan(run.id, Steps(run.outputs))
  {
  }

  /** Single journal: in every reachable state there is at most one run directory, so the order in
      which resume visits directories cannot matter. */
  lemma {:induction false} SingleJournal(cfg: Config, s0: Sys, es: seq<Event>)
    requires FreshInstall(cfg, s0) && Possible(cfg, s0, es)
    ensures |DoAll(cfg, s0, es).disk.runs| <= 1
  {
    hide Inv, Enabled, Do;
    InitialHasInv(cfg, s0);
    InvAlways(cfg, s0, es);
    AtMostOne(cfg, DoAll(cfg, s0, es));
  }

  lemma AtMostOne(cfg: Config, s: Sys)
    requires Inv(cfg, s)
    ensures |s.disk.runs| <= 1
  {
    hide Chained, AtRest, InProgress, ValidConfig, ValidSource;
    if s.disk.runs != {} { assert s.disk.runs == {s.current}; }
  }

  /** Resuming from any reachable state, if it runs to its end, leaves exactly the applied batches
      and an empty journal; it refuses only a directory whose plan was swept away before READY. */
  lemma {:induction false} ResumeRestores(cfg: Config, s: Sys)
    requires Inv(cfg, s) && s.memory.None?
    ensures var end := RecoverRuns(s.disk, SortedKeys(s.disk.runs));
            && (end.None? <==> SweptTooEarly(s.disk, s.current))
            && (end.Some? ==> Live(end.value) == LiveAfter(s.applied) && end.value.runs == {})
            && (end.Some? ==> Inv(cfg, s.(disk := end.value)))
  {
    hide Inv, RecoverRun, LiveAfter, Target, SaneJournal, Live, SortedKeys;
    InvIsSound(cfg, s);
    PromiseKept(cfg, s);
    OneRun(cfg, s);
    if s.current in s.disk.runs {
      assert SortedKeys(s.disk.runs)[1..] == [];
      RecoverReachesTarget(s.disk, s.current);
      StrandedHere(cfg, s);
      var end := RecoverRun(s.disk, s.current);
      if end.Some? { RestedInv(cfg, s, end.value); }
    }
  }

  lemma OneRun(cfg: Config, s: Sys)
    requires Inv(cfg, s)
    ensures s.disk.runs == {} || s.disk.runs == {s.current}
    ensures SortedKeys(s.disk.runs) == if s.current in s.disk.runs then [s.current] else []
  {
    hide Chained, AtRest, InProgress, ValidConfig, ValidSource;
    if s.current in s.disk.runs {
      assert s.disk.runs == {s.current};
      HasFirst(SortedKeys(s.disk.runs));
    } else {
      assert s.disk.runs == {};
    }
  }

  lemma StrandedHere(cfg: Config, s: Sys)
    requires Inv(cfg, s) && s.memory.None?
    ensures Ready(s.disk, s.current) ==>
      (PlanOn(s.disk, s.current).None? <==> PlanPath(s.current) !in s.disk.files)
  {
    hide Chained, Prepared, ValidConfig, ValidSource, SaneRun, Committing, LoadPlan, After, Live, LiveAfter, Tidy;
    hide FilesToWrite;
    if Ready(s.disk, s.current) {
      LastIsPrepared(cfg, s.applied);
      PreparedIsSane(cfg, s.applied[|s.applied| - 1]);
      PlanIsOwn(s.disk, s.applied[|s.applied| - 1]);
    }
  }

  lemma RestedInv(cfg: Config, s: Sys, fs: FS)
    requires Inv(cfg, s) && s.memory.None? && Live(fs) == LiveAfter(s.applied) && fs.runs == {}
    requires RecoverRun(s.disk, s.current) == Some(fs)
    ensures Inv(cfg, s.(disk := fs))
  {
    hide Chained, ValidConfig, ValidSource, Committing, LiveAfter, ExecSteps, LoadPlan, SaneJournal, SoleRun;
    hide SaneRun, Live, Movable;
    JournalPaths(s.current);
    if Ready(s.disk, s.current) {
      InvIsSound(cfg, s);
      PlanIsMovable(s.disk, s.current);
      ExecFrame(s.current, PlanOn(s.disk, s.current).value, s.disk);
    }
  }

  lemma PlanIsMovable(fs: FS, run: string)
    requires SoleRun(fs, run) && SaneJournal(fs) && Ready(fs, run) && PlanOn(fs, run).Some? && run in fs.runs
    ensures forall i :: 0 <= i < |PlanOn(fs, run).value| ==> Movable(run, PlanOn(fs, run).value[i])
  {
    hide LoadPlan;
  }
}
