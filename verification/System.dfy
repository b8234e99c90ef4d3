/** The whole service as a transition system: a disk, an evolving source, a process that may die
    between any two file operations, and the runs that have been decided so far. */
module System {
  import opened Results
  import opened Tables
  import opened Checkpoints
  import opened Disks
  import opened Staging
  import opened Recovery
  import opened Writes
  import opened Outputs
  import opened Runs
  import Source

  /** A run in the process's memory: what it decided, and how many of its files it has written. */
  datatype Memory = Memory(run: Run, written: nat)

  datatype Sys = Sys(
    disk: FS,
    source: Snapshots,
    memory: Option<Memory>, // the run being staged; lost when the process dies
    current: string,        // the identity of the last run that fetched
    applied: seq<Run>)      // the runs that were marked READY, in order

  datatype Event =
    | SourceWrite(table: nat, row: Row)
    | ReadSource            // load the checkpoint, read the deltas from one snapshot
    | Lose                  // the process dies, or returns without staging
    | FileOp(op: Op)

  /** Every file a run writes, in order: its outputs, then the plan, then READY. */
  function FilesToWrite(run: Run): (files: seq<File>)
    ensures |files| == |run.outputs| + 2
  {
    var steps := Steps(run.outputs);
    var plan := if ValidSteps(steps) then PlanText(steps) else "";
    FilesOf(run.outputs) + [File(PlanPath(run.id), plan), File(ReadyPath(run.id), READY_TEXT)]
  }

  /** The next file operation of staging a run. */
  predicate StagingStep(op: Op, disk: FS, m: Memory) {
    match op
    case MakeRun(run) => run == m.run.id
    case Scratch(temp, _) => IsTemp(temp) && InRun(temp, m.run.id) && m.run.id in disk.runs
    case Publish(temp, target, data) =>
      && IsTemp(temp) && InRun(temp, m.run.id) && m.run.id in disk.runs
      && m.written < |FilesToWrite(m.run)| && FilesToWrite(m.run)[m.written] == File(target, data)
    case _ => false
  }

  /** The newest checkpoint any run still counts on. */
  function Newest(s: Sys): Checkpoint {
    if s.memory.Some? then s.memory.value.run.after
    else if s.applied == [] then map[]
    else s.applied[|s.applied| - 1].after
  }

  /** What the source may do: insert or update a row, never delete one, and never at or below a
      key that a run which is decided or under way has passed. */
  predicate SourceMayWrite(t: TableSpec, row: Row, newest: Checkpoint) {
    && ValidRow(t, row) && Source.PkOf(t, row) >= 0
    && Before(EMPTY, Source.KeyOf(t, row))
    && Before(WatermarkOf(newest, t.name), Source.KeyOf(t, row))
  }

  ghost predicate Enabled(cfg: Config, s: Sys, e: Event) {
    && ValidConfig(cfg) && ValidSource(cfg.tables, s.source)
    && match e
       case SourceWrite(i, row) => i < |cfg.tables| && SourceMayWrite(cfg.tables[i], row, Newest(s))
       case ReadSource => s.memory.None? && s.disk.runs == {} && Prepare(cfg, Live(s.disk), s.source).Some?
       case Lose => true
       case FileOp(op) => if s.memory.Some? then StagingStep(op, s.disk, s.memory.value) else RecoveryStep(op, s.disk)
  }

  function Staged1(s: Sys, m: Memory): Sys {
    if m.written + 1 == |FilesToWrite(m.run)| then s.(memory := None, applied := s.applied + [m.run])
    else s.(memory := Some(Memory(m.run, m.written + 1)))
  }

  ghost function Do(cfg: Config, s: Sys, e: Event): Sys
    requires Enabled(cfg, s, e)
  {
    match e
    case SourceWrite(i, row) =>
      var t := cfg.tables[i];
      s.(source := s.source[t.name := s.source[t.name][Source.PkOf(t, row) := row]])
    case ReadSource =>
      var run := Prepare(cfg, Live(s.disk), s.source).value;
      s.(memory := Some(Memory(run, 0)), current := run.id)
    case Lose => s.(memory := None)
    case FileOp(op) =>
      var after := s.(disk := Apply(op, s.disk));
      if s.memory.Some? && op.Publish? then Staged1(after, s.memory.value) else after
  }

  ghost predicate FreshInstall(cfg: Config, s: Sys) {
    && ValidConfig(cfg) && ValidSource(cfg.tables, s.source)
    && s.disk == FS(map[], {}) && s.memory.None? && s.applied == []
  }

  // ------------------------------------------------------------ the invariant

  /** The live files once these runs have been carried out, one whole batch after another. */
  function LiveAfter(runs: seq<Run>): LiveFiles {
    if runs == [] then map[] else After(runs[|runs| - 1])
  }

  /** Each run was computed from what the runs before it left. */
  ghost predicate Chained(cfg: Config, runs: seq<Run>) {
    runs == [] ||
    (var n := |runs| - 1;
     Chained(cfg, runs[..n]) && Prepared(cfg, runs[n]) && runs[n].base == LiveAfter(runs[..n]))
  }

  /** The journal holds at most one run, and every journal file is in its directory. */
  ghost predicate Tidy(fs: FS, run: string) {
    fs.runs <= {run} && forall p :: p in fs.files && !IsLive(p) ==> InRun(p, run) && run in fs.runs
  }

  /** The first n of the files are on the disk, the others not. */
  ghost predicate Holds(fs: FS, files: seq<File>, n: nat) {
    && n <= |files|
    && (forall j :: 0 <= j < n ==> files[j].path in fs.files && fs.files[files[j].path] == files[j].data)
    && (forall j :: n <= j < |files| ==> files[j].path !in fs.files)
  }

  /** A run is being staged: no live file has changed. */
  ghost predicate InProgress(cfg: Config, s: Sys, m: Memory) {
    && Prepared(cfg, m.run) && m.run.base == LiveAfter(s.applied) == Live(s.disk)
    && m.run.id == s.current
    && m.written < |FilesToWrite(m.run)| && Holds(s.disk, FilesToWrite(m.run), m.written)
  }

  /** Mid-commit: the first k renames are done and the rest are not begun. */
  ghost predicate MidCommit(fs: FS, run: Run) {
    var k := Progress(Steps(run.outputs), fs.files);
    && Live(fs) == ApplyOutputs(run.base, run.outputs[..k])
    && forall j :: k <= j < |run.outputs| ==> Waiting(fs, run.outputs[j])
  }

  predicate Waiting(fs: FS, o: Output) {
    o.step.stagedPath in fs.files && fs.files[o.step.stagedPath] == o.data
  }

  /** A READY run: its plan is the one it was staged with and partly carried out, or is swept away
      after having been carried out. */
  ghost predicate Committing(fs: FS, run: Run) {
    if PlanPath(run.id) in fs.files then
      && ValidSteps(Steps(run.outputs)) && fs.files[PlanPath(run.id)] == PlanText(Steps(run.outputs))
      && MidCommit(fs, run)
    else Live(fs) == After(run)
  }

  /** No run in memory: the journal is that of the last applied run, or is of no consequence. */
  ghost predicate AtRest(s: Sys) {
    if Ready(s.disk, s.current) then
      && s.applied != []
      && s.applied[|s.applied| - 1].id == s.current && Committing(s.disk, s.applied[|s.applied| - 1])
    else Live(s.disk) == LiveAfter(s.applied)
  }

  ghost predicate Inv(cfg: Config, s: Sys) {
    && ValidConfig(cfg) && ValidSource(cfg.tables, s.source)
    && Chained(cfg, s.applied) && Tidy(s.disk, s.current)
    && if s.memory.Some? then InProgress(cfg, s, s.memory.value) else AtRest(s)
  }

  // ------------------------------------------------------------ facts about a run's files

  /** Plan entry or journal entry, all places are different, inside the run and not temporary. */
  ghost predicate GoodFiles(run: string, files: seq<File>) {
    && (forall i :: 0 <= i < |files| ==> InRun(files[i].path, run) && !IsTemp(files[i].path))
    && (forall i, j :: 0 <= i < j < |files| ==> files[i].path != files[j].path)
  }

  lemma FilesAreGood(run: Run)
    requires SaneRun(run)
    ensures GoodFiles(run.id, FilesToWrite(run))
  {
    hide PlanText, ValidSteps, DistinctLive;
    var files := FilesToWrite(run);
    var n := |run.outputs|;
    JournalPaths(run.id);
    assert PlanPath(run.id)[3][0] != '.' && ReadyPath(run.id)[3][0] != '.';
    forall i | 0 <= i < n ensures InRun(files[i].path, run.id) && !IsTemp(files[i].path)
      && files[i].path != PlanPath(run.id) && files[i].path != ReadyPath(run.id)
    {
      assert files[i].path == run.outputs[i].step.stagedPath;
      StagedIsProper(run.id, run.outputs[i]);
    }
    forall i, j | 0 <= i < j < n ensures files[i].path != files[j].path {
      assert Steps(run.outputs)[i].stagedPath != Steps(run.outputs)[j].stagedPath;
    }
  }

  lemma PreparedIsSane(cfg: Config, run: Run)
    requires Prepared(cfg, run)
    ensures SaneRun(run) && Publishable(cfg, run) && GoodFiles(run.id, FilesToWrite(run))
  {
    hide Prepared, Publishable, Computed, SaneRun;
    PreparedParts(cfg, run);
    PublishableIsSane(cfg, run);
    FilesAreGood(run);
  }

  lemma LastIsPrepared(cfg: Config, runs: seq<Run>)
    requires Chained(cfg, runs) && runs != []
    ensures Prepared(cfg, runs[|runs| - 1])
  {
  }

  /** The plan of a READY run of this system is the run's own. */
  lemma PlanIsOwn(fs: FS, run: Run)
    requires SaneRun(run) && Committing(fs, run)
    ensures PlanOn(fs, run.id) == if PlanPath(run.id) in fs.files then Some(Steps(run.outputs)) else None
  {
    hide PlanText, LoadPlan, MidCommit, AllProper, DistinctLive, SanePlan;
    if PlanPath(run.id) in fs.files { PlanRoundTrip(Steps(run.outputs)); }
  }

  // ------------------------------------------------------------ staging keeps it

  lemma ScratchKeeps(run: string, files: seq<File>, n: nat, temp: Path, junk: string, fs: FS)
    requires GoodFiles(run, files) && Holds(fs, files, n) && Tidy(fs, run)
    requires IsTemp(temp) && InRun(temp, run) && run in fs.runs
    ensures var g := Apply(Scratch(temp, junk), fs);
            Holds(g, files, n) && Tidy(g, run) && Live(g) == Live(fs)
  {
  }

  lemma PublishKeeps(run: string, files: seq<File>, n: nat, temp: Path, fs: FS)
    requires GoodFiles(run, files) && Holds(fs, files, n) && n < |files| && Tidy(fs, run)
    requires IsTemp(temp) && InRun(temp, run) && run in fs.runs
    ensures var g := Apply(Publish(temp, files[n].path, files[n].data), fs);
            Holds(g, files, n + 1) && Tidy(g, run) && Live(g) == Live(fs)
  {
  }

  /** All files written: the run is READY, with its whole plan before it. */
  lemma {:induction false} ReadyStarts(run: Run, fs: FS)
    requires SaneRun(run) && Holds(fs, FilesToWrite(run), |FilesToWrite(run)|) && Live(fs) == run.base
    ensures Ready(fs, run.id) && Committing(fs, run)
  {
    hide PlanText, AllProper, DistinctLive, SanePlan;
    var files, n := FilesToWrite(run), |run.outputs|;
    assert files[n + 1].path == ReadyPath(run.id) && files[n].path == PlanPath(run.id);
    forall j | 0 <= j < n ensures Waiting(fs, run.outputs[j]) {
      assert files[j] == File(run.outputs[j].step.stagedPath, run.outputs[j].data);
    }
    assert Steps(run.outputs)[0].stagedPath == run.outputs[0].step.stagedPath;
    assert run.outputs[..0] == [];
  }

  /** Until READY is written there is no READY. */
  lemma NotYetReady(run: Run, fs: FS, n: nat)
    requires n < |FilesToWrite(run)| && Holds(fs, FilesToWrite(run), n)
    ensures !Ready(fs, run.id)
  {
    assert FilesToWrite(run)[|run.outputs| + 1].path == ReadyPath(run.id);
  }

  lemma {:induction false} StagingKeepsInv(cfg: Config, s: Sys, op: Op)
    requires Inv(cfg, s) && s.memory.Some? && Enabled(cfg, s, FileOp(op))
    ensures Inv(cfg, Do(cfg, s, FileOp(op)))
    ensures var m, t := s.memory.value, Do(cfg, s, FileOp(op));
            if op.Publish? && m.written + 1 == |FilesToWrite(m.run)| then
              t.applied == s.applied + [m.run] && t.memory.None?
            else t.applied == s.applied
  {
    hide Prepared, Prepare, ValidConfig, ValidSource, SaneRun, Publishable, FilesToWrite, Committing, GoodFiles;
    hide Holds, Tidy, Live, LiveAfter, Ready;
    var m := s.memory.value;
    var t := Do(cfg, s, FileOp(op));
    PreparedIsSane(cfg, m.run);
    match op
    case MakeRun(run) => MakeKeeps(s.disk, s.current, FilesToWrite(m.run), m.written);
    case Scratch(temp, junk) => ScratchKeeps(s.current, FilesToWrite(m.run), m.written, temp, junk, s.disk);
    case Publish(temp, _, _) =>
      PublishKeeps(s.current, FilesToWrite(m.run), m.written, temp, s.disk);
      if m.written + 1 == |FilesToWrite(m.run)| {
        ReadyStarts(m.run, t.disk);
        assert t.applied[..|t.applied| - 1] == s.applied;
      }
  }

  lemma MakeKeeps(fs: FS, run: string, files: seq<File>, n: nat)
    requires Tidy(fs, run) && Holds(fs, files, n)
    ensures var g := Apply(MakeRun(run), fs);
            Tidy(g, run) && Holds(g, files, n) && Live(g) == Live(fs)
  {
  }

  // ------------------------------------------------------------ recovery keeps it

  /** One more rename. */
  lemma {:induction false} SwingAdvances(fs: FS, run: Run)
    requires SaneRun(run) && MidCommit(fs, run)
    requires Progress(Steps(run.outputs), fs.files) < |run.outputs|
    ensures var k := Progress(Steps(run.outputs), fs.files);
            var s := run.outputs[k].step;
            var g := Apply(Swing(s.stagedPath, s.livePath), fs);
            MidCommit(g, run) && Progress(Steps(run.outputs), g.files) == k + 1
  {
    hide ApplyOutputs, Progress, AllProper, DistinctLive, ValidSteps, PlainId;
    var steps := Steps(run.outputs);
    var k := Progress(steps, fs.files);
    var o := run.outputs[k];
    var g := Apply(Swing(o.step.stagedPath, o.step.livePath), fs);
    assert Waiting(fs, o);
    assert forall j :: 0 <= j < |steps| ==> Movable(run.id, steps[j]) && steps[j] == run.outputs[j].step;
    forall j | 0 <= j < |steps| && j != k
      ensures steps[j].stagedPath != steps[k].stagedPath && steps[j].stagedPath != steps[k].livePath
    {
      assert Movable(run.id, steps[j]) && Movable(run.id, steps[k]);
    }
    assert steps[k].stagedPath != steps[k].livePath;
    forall j | k < j < |run.outputs| ensures Waiting(g, run.outputs[j]) { assert Waiting(fs, run.outputs[j]); }
    ProgressIs(steps, g.files, k + 1);
    SwungLive(fs, o);
    AppliedNext(run.base, run.outputs, k);
  }

  lemma ProgressIs(steps: seq<CommitStep>, files: map<Path, string>, k: nat)
    requires k <= |steps| && (forall i :: 0 <= i < k ==> steps[i].stagedPath !in files)
    requires k < |steps| ==> steps[k].stagedPath in files
    ensures Progress(steps, files) == k
  {
  }

  lemma SwungLive(fs: FS, o: Output)
    requires Waiting(fs, o) && IsLive(o.step.livePath) && !IsLive(o.step.stagedPath)
    ensures Live(Apply(Swing(o.step.stagedPath, o.step.livePath), fs)) == Live(fs)[o.step.livePath := o.data]
  {
  }

  lemma AppliedNext(base: LiveFiles, os: seq<Output>, k: nat)
    requires k < |os|
    ensures ApplyOutputs(base, os[..k + 1]) == ApplyOutputs(base, os[..k])[os[k].step.livePath := os[k].data]
  {
    assert os[..k + 1][..k] == os[..k];
  }

  /** A removal in a run directory that is no longer needed. */
  lemma UnlinkKeepsCommitting(fs: FS, run: Run, p: Path)
    requires SaneRun(run) && Ready(fs, run.id) && Committing(fs, run) && InRun(p, run.id) && Disposable(fs, run.id)
    ensures var g := Apply(Unlink(p), fs);
            Live(g) == Live(fs) == After(run) && Committing(g, run)
  {
    hide ApplyOutputs, PlanText, AllProper, DistinctLive, SanePlan, Progress, LoadPlan;
    PlanIsOwn(fs, run);
    var g := Apply(Unlink(p), fs);
    var n := |run.outputs|;
    assert run.outputs[..n] == run.outputs;
    assert Live(g) == Live(fs);
    if PlanPath(run.id) in g.files {
      ProgressIs(Steps(run.outputs), g.files, n);
    }
  }

  lemma {:induction false} RecoveryKeepsInv(cfg: Config, s: Sys, op: Op)
    requires Inv(cfg, s) && s.memory.None? && RecoveryStep(op, s.disk)
    ensures Inv(cfg, s.(disk := Apply(op, s.disk)))
  {
    hide Prepared, ValidConfig, ValidSource, SaneRun, Publishable, Chained, LiveAfter, MidCommit, PlanText;
    hide LoadPlan, Progress, Finished, GoodFiles, FilesToWrite;
    if s.applied != [] {
      LastIsPrepared(cfg, s.applied);
      PreparedIsSane(cfg, s.applied[|s.applied| - 1]);
    }
    match op
    case Swing(_, _) => SwingKeepsInv(cfg, s, op);
    case Unlink(p) => UnlinkKeepsInv(cfg, s, p);
    case DropRun(run) => DropKeepsInv(cfg, s, run);
  }

  lemma SwingKeepsInv(cfg: Config, s: Sys, op: Op)
    requires Inv(cfg, s) && s.memory.None? && op.Swing? && RecoveryStep(op, s.disk)
    requires s.applied != [] ==> SaneRun(s.applied[|s.applied| - 1])
    ensures Inv(cfg, s.(disk := Apply(op, s.disk)))
  {
    hide Prepared, ValidConfig, ValidSource, SaneRun, Chained, LiveAfter, MidCommit, PlanText, LoadPlan, Progress;
    hide After, Live, ValidSteps;
    var run := s.applied[|s.applied| - 1];
    PlanIsOwn(s.disk, run);
    SwingAdvances(s.disk, run);
    SwungIsMovable(run, Progress(Steps(run.outputs), s.disk.files));
    JournalPaths(run.id);
  }

  lemma SwungIsMovable(run: Run, k: nat)
    requires SaneRun(run) && k < |run.outputs|
    ensures Movable(run.id, run.outputs[k].step)
  {
    assert Movable(run.id, Steps(run.outputs)[k]);
  }

  lemma UnlinkKeepsInv(cfg: Config, s: Sys, p: Path)
    requires Inv(cfg, s) && s.memory.None? && RecoveryStep(Unlink(p), s.disk)
    requires s.applied != [] ==> SaneRun(s.applied[|s.applied| - 1])
    ensures Inv(cfg, s.(disk := Apply(Unlink(p), s.disk)))
  {
    hide Prepared, ValidConfig, ValidSource, SaneRun, Chained, Committing, PlanOn, Finished, After;
    assert InRun(p, s.current);
    if Ready(s.disk, s.current) {
      UnlinkKeepsCommitting(s.disk, s.applied[|s.applied| - 1], p);
    } else {
      assert Live(Apply(Unlink(p), s.disk)) == Live(s.disk);
    }
  }

  lemma DropKeepsInv(cfg: Config, s: Sys, run: string)
    requires Inv(cfg, s) && s.memory.None? && RecoveryStep(DropRun(run), s.disk)
    ensures Inv(cfg, s.(disk := Apply(DropRun(run), s.disk)))
  {
    hide Prepared, ValidConfig, ValidSource, Chained, Committing, After;
    assert run == s.current;
    JournalPaths(run);
    assert Live(Apply(DropRun(run), s.disk)) == Live(s.disk);
  }
}
