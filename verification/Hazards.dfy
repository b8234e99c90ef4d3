/** How a cleanup can strand the journal in executions of the service, down to one from a fresh
    install. */
module Hazards {
  import opened Results
  import opened Checkpoints
  import opened Disks
  import opened Staging
  import opened Recovery
  import opened Writes
  import opened Outputs
  import opened Runs
  import opened System
  import opened Refinement
  import opened Traces
  import opened Durability
  import Strings

  /** Resuming refuses this disk, although its live files are the applied batches. */
  ghost predicate Refused(s: Sys) {
    && s.memory.None? && RecoverRuns(s.disk, Strings.SortedKeys(s.disk.runs)).None?
    && Live(s.disk) == LiveAfter(s.applied)
  }

  // ------------------------------------------------------------ from READY

  lemma ReadyRun(cfg: Config, s: Sys) returns (run: Run)
    requires Inv(cfg, s) && s.memory.None? && Ready(s.disk, s.current) && PlanPath(s.current) in s.disk.files
    ensures s.applied != [] && run == s.applied[|s.applied| - 1] && run.id == s.current && s.current in s.disk.runs
    ensures SaneRun(run) && MidCommit(s.disk, run) && PlanOn(s.disk, s.current) == Some(Steps(run.outputs))
  {
    hide Chained, Prepared, ValidConfig, ValidSource, SaneRun, MidCommit, LoadPlan, PlanText, LiveAfter, After;
    hide ValidSteps;
    hide GoodFiles, FilesToWrite, Publishable;
    run := s.applied[|s.applied| - 1];
    LastIsPrepared(cfg, s.applied);
    PreparedIsSane(cfg, run);
    PlanIsOwn(s.disk, run);
    JournalPaths(s.current);
    JournalIsNotLive(ReadyPath(s.current), s.current);
  }

  /** A READY run's outstanding renames, one after the other. */
  lemma {:induction false} FinishPlan(cfg: Config, s: Sys, left: nat) returns (es: seq<Event>, t: Sys)
    requires Inv(cfg, s) && s.memory.None? && Ready(s.disk, s.current) && PlanPath(s.current) in s.disk.files
    requires s.applied != []
    requires var run := s.applied[|s.applied| - 1];
      |run.outputs| - Progress(Steps(run.outputs), s.disk.files) == left
    ensures Leads(cfg, s, es, t) && Inv(cfg, t) && t.memory.None? && t.applied == s.applied && t.current == s.current
    ensures Ready(t.disk, t.current) && PlanPath(t.current) in t.disk.files
    ensures t.current in t.disk.runs && Disposable(t.disk, t.current)
    decreases left
  {
    hide Inv, Leads, Progress, MidCommit, SaneRun, PlanOn, Ready, PlanPath, ApplyAll, Recovering, FileOps, RecoveryStep;
    var run := ReadyRun(cfg, s);
    var steps, k := Steps(run.outputs), Progress(Steps(run.outputs), s.disk.files);
    if left == 0 {
      es, t := [], s;
      LeadsNowhere(cfg, s);
      DoneIsDisposable(s.disk, s.current, steps);
    } else {
      var op := Swing(run.outputs[k].step.stagedPath, run.outputs[k].step.livePath);
      var next := s.(disk := Apply(op, s.disk));
      SwingAdvances(s.disk, run);
      NextRename(s.disk, run, k);
      RecoveringOne(op, s.disk);
      RecoveryTrace(cfg, s, [op]);
      OneFileOp(op);
      LeadsToInv(cfg, s, [FileOp(op)], next);
      JournalStays(s.disk, run, k);
      var rest;
      rest, t := FinishPlan(cfg, next, left - 1);
      es := [FileOp(op)] + rest;
      LeadsOn(cfg, s, [FileOp(op)], next, rest, t);
    }
  }

  lemma DoneIsDisposable(fs: FS, run: string, steps: seq<CommitStep>)
    requires PlanOn(fs, run) == Some(steps) && Progress(steps, fs.files) == |steps|
    ensures Disposable(fs, run)
  {
    hide LoadPlan;
  }

  lemma NextRename(fs: FS, run: Run, k: nat)
    requires SaneRun(run) && run.id in fs.runs && Ready(fs, run.id) && PlanOn(fs, run.id) == Some(Steps(run.outputs))
    requires k == Progress(Steps(run.outputs), fs.files) && k < |run.outputs|
    ensures RecoveryStep(Swing(run.outputs[k].step.stagedPath, run.outputs[k].step.livePath), fs)
  {
    hide Progress, SaneRun, PlanOn, Ready;
    SwungIsMovable(run, k);
    assert Steps(run.outputs)[k] == run.outputs[k].step;
  }

  lemma JournalStays(fs: FS, run: Run, k: nat)
    requires SaneRun(run) && k < |run.outputs| && Ready(fs, run.id) && PlanPath(run.id) in fs.files
    ensures var g := Apply(Swing(run.outputs[k].step.stagedPath, run.outputs[k].step.livePath), fs);
            Ready(g, run.id) && PlanPath(run.id) in g.files
  {
    hide SaneRun;
    SwungIsMovable(run, k);
    JournalPaths(run.id);
  }

  /** From any moment of any READY run a crash in the cleanup can leave a journal that resuming
      refuses. */
  lemma {:induction false} ReadyRunCanStrand(cfg: Config, s: Sys) returns (es: seq<Event>, t: Sys)
    requires Inv(cfg, s) && s.memory.None? && Ready(s.disk, s.current) && PlanPath(s.current) in s.disk.files
    ensures Leads(cfg, s, es, t) && Refused(t) && t.applied == s.applied
  {
    hide Inv, Leads, Progress, Ready, PlanPath, LiveAfter, Live, Disposable, RecoverRuns, Strings.SortedKeys, ReadyPath;
    var run := ReadyRun(cfg, s);
    var first, done := FinishPlan(cfg, s, |run.outputs| - Progress(Steps(run.outputs), s.disk.files));
    var p := PlanPath(done.current);
    t := done.(disk := Apply(Unlink(p), done.disk));
    JournalPaths(done.current);
    RemovalIsAStep(cfg, done, p);
    es := first + [FileOp(Unlink(p))];
    LeadsOn(cfg, s, first, done, [FileOp(Unlink(p))], t);
    PlanGone(done.disk, done.current);
    ResumeRestores(cfg, t);
    StrandedIsLive(cfg, t);
  }

  lemma PlanGone(fs: FS, run: string)
    requires Ready(fs, run)
    ensures var g := Apply(Unlink(PlanPath(run)), fs); Ready(g, run) && PlanPath(run) !in g.files && g.runs == fs.runs
    ensures ReadyPath(run) in Apply(Unlink(PlanPath(run)), fs).files
  {
    JournalPaths(run);
  }

  lemma StrandedIsLive(cfg: Config, s: Sys)
    requires Inv(cfg, s) && s.memory.None? && Ready(s.disk, s.current) && PlanPath(s.current) !in s.disk.files
    ensures Live(s.disk) == LiveAfter(s.applied)
  {
    hide Chained, ValidConfig, ValidSource, Tidy, After, MidCommit;
  }

  // ------------------------------------------------------------ from nothing

  /** Each file written whole. */
  function WriteOps(files: seq<File>): seq<Op>
    requires forall i :: 0 <= i < |files| ==> files[i].path != []
  {
    if files == [] then []
    else
      var f := files[|files| - 1];
      var temp := TempPath(f.path, "");
      WriteOps(files[..|files| - 1]) + [Scratch(temp, ""), Publish(temp, f.path, f.data)]
  }

  lemma {:induction false} WriteOpsWrite(files: seq<File>)
    requires forall i :: 0 <= i < |files| ==> files[i].path != []
    ensures Writing(files, WriteOps(files)) && |WriteOps(files)| == 2 * |files|
  {
    hide Writing, IsTempOf, TempPath;
    if files == [] {
      NothingWritten();
    } else {
      var n := |files| - 1;
      WriteOpsWrite(files[..n]);
      TempIsTemp(files[n].path);
      var temp := TempPath(files[n].path, "");
      NextWrite(files[..n], WriteOps(files[..n]), files[n], [Scratch(temp, ""), Publish(temp, files[n].path,
          files[n].data)], temp, "");
      Strings.LastBack(files);
    }
  }

  lemma TempIsTemp(p: Path)
    requires p != []
    ensures IsTempOf(TempPath(p, ""), p)
  {
  }

  /** Any run that the service decides on can be staged, committed and stranded. */
  lemma {:induction false} DecidedRunCanStrand(cfg: Config, s: Sys, run: Run) returns (es: seq<Event>, t: Sys)
    requires Inv(cfg, s) && s.memory.None? && s.disk.runs == {} && Prepare(cfg, Live(s.disk), s.source) == Some(run)
    ensures Leads(cfg, s, es, t) && Refused(t) && t.applied == s.applied + [run]
  {
    hide Inv, Leads, Prepare, Prepared, Live, GoodFiles, FilesToWrite, Writing, Refused, Publishable, SaneRun;
    hide ApplyAll, Committing;
    var s1 := s.(memory := Some(Memory(run, 0)), current := run.id);
    ReadTrace(cfg, s, run);
    LeadsToInv(cfg, s, [ReadSource], s1);
    InMemoryIsPrepared(cfg, s1);
    PreparedIsSane(cfg, run);
    var s2 := s1.(disk := Apply(MakeRun(run.id), s.disk));
    MakeTrace(cfg, s1, run);
    LeadsOn(cfg, s, [ReadSource], s1, [FileOp(MakeRun(run.id))], s2);
    LeadsToInv(cfg, s1, [FileOp(MakeRun(run.id))], s2);
    GoodPaths(run.id, FilesToWrite(run));
    var ops := WriteOps(FilesToWrite(run));
    WriteOpsWrite(FilesToWrite(run));
    StagingTrace(cfg, s2, run, ops);
    var s3 := StagedSoFar(s2, run, ops);
    var staged := [ReadSource] + [FileOp(MakeRun(run.id))] + FileOps(ops);
    LeadsOn(cfg, s, [ReadSource] + [FileOp(MakeRun(run.id))], s2, FileOps(ops), s3);
    LeadsToInv(cfg, s, staged, s3);
    WrittenIsReady(cfg, s2, run, ops);
    var rest;
    rest, t := ReadyRunCanStrand(cfg, s3);
    es := staged + rest;
    LeadsOn(cfg, s, staged, s3, rest, t);
  }

  lemma InMemoryIsPrepared(cfg: Config, s: Sys)
    requires Inv(cfg, s) && s.memory.Some?
    ensures Prepared(cfg, s.memory.value.run)
  {
    hide Prepared, Chained, ValidConfig, ValidSource, Tidy, Holds, FilesToWrite;
  }

  lemma GoodPaths(run: string, files: seq<File>)
    requires GoodFiles(run, files)
    ensures forall i :: 0 <= i < |files| ==> files[i].path != []
  {
  }

  /** Once the last file is there, so are READY and the plan. */
  lemma {:induction false} WrittenIsReady(cfg: Config, s: Sys, run: Run, ops: seq<Op>)
    requires Inv(cfg, s) && s.memory == Some(Memory(run, 0)) && run.id in s.disk.runs && run.id == s.current
    requires GoodFiles(run.id, FilesToWrite(run)) && Writing(FilesToWrite(run), ops)
    requires |ops| == 2 * |FilesToWrite(run)|
    ensures Ready(ApplyAll(ops, s.disk), run.id) && PlanPath(run.id) in ApplyAll(ops, s.disk).files
  {
    hide FilesToWrite, Writing, GoodFiles, Inv, ApplyAll, InRun;
    var files := FilesToWrite(run);
    var n := |run.outputs|;
    AllThere(run.id, files, ops, s.disk, |files|);
    Strings.TakeAll(ops);
    LastTwo(run);
  }

  lemma LastTwo(run: Run)
    ensures FilesToWrite(run)[|run.outputs|].path == PlanPath(run.id)
    ensures FilesToWrite(run)[|run.outputs| + 1].path == ReadyPath(run.id)
  {
  }

  lemma {:induction false} AllThere(run: string, files: seq<File>, ops: seq<Op>, fs: FS, n: nat)
    requires GoodFiles(run, files) && Writing(files, ops) && n <= |files| && 2 * n <= |ops|
    ensures forall i :: 0 <= i < n ==> files[i].path in ApplyAll(ops[..2 * n], fs).files
    decreases n
  {
    hide GoodFiles;
    if n > 0 {
      AllThere(run, files, ops, fs, n - 1);
      assert WriteAt(files, ops, 2 * n - 2) && WriteAt(files, ops, 2 * n - 1);
      var a, b := ops[2 * n - 2], ops[2 * n - 1];
      TwoMore(ops, n);
      ApplyAllJoins(ops[..2 * n - 2], [a, b], fs);
      TwoOps(a, b, ApplyAll(ops[..2 * n - 2], fs));
      TempsAreOthers(run, files, a.temp);
    }
  }

  lemma TwoMore(ops: seq<Op>, n: nat)
    requires 0 < n && 2 * n <= |ops|
    ensures ops[..2 * n] == ops[..2 * n - 2] + [ops[2 * n - 2], ops[2 * n - 1]]
  {
  }

  lemma TwoOps(a: Op, b: Op, fs: FS)
    ensures ApplyAll([a, b], fs) == Apply(b, Apply(a, fs))
  {
    assert [a, b][..1] == [a] && [a][..0] == [];
    assert ApplyAll([a], fs) == Apply(a, ApplyAll([a][..0], fs));
  }

  lemma TempsAreOthers(run: string, files: seq<File>, temp: Path)
    requires GoodFiles(run, files) && IsTemp(temp)
    ensures forall i :: 0 <= i < |files| ==> files[i].path != temp
  {
  }

  /** From any fresh install, whatever its tables and their rows, one whole execution ends there: the
      first run is committed, the machine stops in its cleanup, and resuming refuses what is left. */
  lemma {:induction false} StrandedExample(cfg: Config, s0: Sys) returns (es: seq<Event>)
    requires FreshInstall(cfg, s0)
    ensures Possible(cfg, s0, es) && Refused(DoAll(cfg, s0, es))
  {
    hide Refused, Possible, DoAll, LoadFile, AllOutputs, Fetch, Advance, RunId, ValidConfig, ValidSource;
    InitialHasInv(cfg, s0);
    NothingLive(cfg);
    var run := Prepare(cfg, Live(s0.disk), s0.source).value;
    var t;
    es, t := DecidedRunCanStrand(cfg, s0, run);
  }

  lemma NothingLive(cfg: Config)
    ensures Live(FS(map[], {})) == map[]
    ensures LoadCheckpoint(cfg, map[]).Usable?
  {
    assert Live(FS(map[], {})) == map[];
  }
}
