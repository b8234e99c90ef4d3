/** What resuming does to a disk, as functions and as a step relation, and why it does not matter
    where or how often the machine stops on the way. */
module Recovery {
  import opened Results
  import opened Strings
  import opened Disks
  import opened Staging

  // ------------------------------------------------------------ outcome

  /** Plan execution: each staged file that is still there is moved into place, in plan order. */
  function ExecSteps(steps: seq<CommitStep>, fs: FS): FS {
    if steps == [] then fs
    else
      var last := steps[|steps| - 1];
      Apply(Swing(last.stagedPath, last.livePath), ExecSteps(steps[..|steps| - 1], fs))
  }

  /** The disk once a run's directory has been removed. */
  function WithoutRun(fs: FS, run: string): FS {
    FS(map p | p in fs.files && !InRun(p, run) :: fs.files[p], fs.runs - {run})
  }

  /** One run directory brought to an end: completed if READY, dropped if not; an error when READY
      is there but the plan is missing or unreadable. */
  function RecoverRun(fs: FS, run: string): Option<FS> {
    if !Ready(fs, run) then Some(WithoutRun(fs, run))
    else
      match PlanOn(fs, run)
      case None => None
      case Some(steps) => Some(WithoutRun(ExecSteps(steps, fs), run))
  }

  function RecoverRuns(fs: FS, runs: seq<string>): Option<FS>
    decreases |runs|
  {
    if runs == [] then Some(fs)
    else
      match RecoverRun(fs, runs[0])
      case None => None
      case Some(next) => RecoverRuns(next, runs[1..])
  }

  // ------------------------------------------------------------ steps

  /** Every step of the run's plan has been performed, or the plan is already swept away. */
  predicate Finished(fs: FS, run: string) {
    PlanPath(run) !in fs.files ||
    (PlanOn(fs, run).Some? && Progress(PlanOn(fs, run).value, fs.files) == |PlanOn(fs, run).value|)
  }

  /** The run's directory holds nothing that is still needed. */
  predicate Disposable(fs: FS, run: string) {
    !Ready(fs, run) || Finished(fs, run)
  }

  /** A file operation that committing or resuming may perform next: the first outstanding rename
      of a READY run, a removal inside a disposable run directory, in any order, or the removal of
      an empty one. */
  predicate RecoveryStep(op: Op, fs: FS) {
    match op
    case Swing(src, dst) =>
      && |src| > 3 && src[2] in fs.runs && Ready(fs, src[2]) && PlanOn(fs, src[2]).Some?
      && var steps := PlanOn(fs, src[2]).value;
         var k := Progress(steps, fs.files);
         k < |steps| && steps[k].stagedPath == src && steps[k].livePath == dst
    case Unlink(p) => p in fs.files && |p| > 3 && InRun(p, p[2]) && p[2] in fs.runs && Disposable(fs, p[2])
    case DropRun(run) => run in fs.runs && forall p :: p in fs.files ==> !InRun(p, run)
    case _ => false
  }

  /** A sequence of such operations, stopped anywhere. */
  predicate Recovering(ops: seq<Op>, fs: FS) {
    ops == [] ||
    (Recovering(ops[..|ops| - 1], fs) && RecoveryStep(ops[|ops| - 1], ApplyAll(ops[..|ops| - 1], fs)))
  }

  lemma {:induction false} RecoveringJoins(a: seq<Op>, b: seq<Op>, fs: FS)
    requires Recovering(a, fs) && Recovering(b, ApplyAll(a, fs))
    ensures Recovering(a + b, fs)
  {
    hide RecoveryStep;
    if b == [] {
      assert a + b == a;
    } else {
      var k := |b| - 1;
      RecoveringJoins(a, b[..k], fs);
      assert (a + b)[..|a| + k] == a + b[..k];
      ApplyAllJoins(a, b[..k], fs);
    }
  }

  lemma RecoveringOne(op: Op, fs: FS)
    requires RecoveryStep(op, fs)
    ensures Recovering([op], fs) && ApplyAll([op], fs) == Apply(op, fs)
  {
    assert [op][..0] == [];
  }

  /** The operations logged since fs0 are recovery steps. */
  ghost predicate Recovered(log0: seq<Op>, fs0: FS, log: seq<Op>, fs: FS) {
    Follows(log0, fs0, log, fs) && Recovering(log[|log0|..], fs0)
  }

  lemma RecoveredStep(log0: seq<Op>, fs0: FS, log: seq<Op>, fs: FS, op: Op)
    requires Recovered(log0, fs0, log, fs) && RecoveryStep(op, fs)
    ensures Recovered(log0, fs0, log + [op], Apply(op, fs))
  {
    RecoveringOne(op, fs);
    RecoveringJoins(log[|log0|..], [op], fs0);
    ApplyAllJoins(log[|log0|..], [op], fs0);
    assert (log + [op])[|log0|..] == log[|log0|..] + [op];
  }

  lemma RecoveredRecovered(log0: seq<Op>, fs0: FS, log1: seq<Op>, fs1: FS, log2: seq<Op>, fs2: FS)
    requires Recovered(log0, fs0, log1, fs1) && Recovered(log1, fs1, log2, fs2)
    ensures Recovered(log0, fs0, log2, fs2)
  {
    hide RecoveryStep, Apply, ApplyAll, Recovering;
    FollowsFollows(log0, fs0, log1, fs1, log2, fs2);
    RecoveringJoins(log1[|log0|..], log2[|log1|..], fs0);
    assert log2[|log0|..] == log1[|log0|..] + log2[|log1|..];
  }

  // ------------------------------------------------------------ plan execution facts

  lemma {:induction false} ExecSplit(steps: seq<CommitStep>, k: nat, fs: FS)
    requires k <= |steps|
    ensures ExecSteps(steps, fs) == ExecSteps(steps[k..], ExecSteps(steps[..k], fs))
  {
    if k == |steps| {
      assert steps[..k] == steps;
    } else {
      var n := |steps| - 1;
      ExecSplit(steps[..n], k, fs);
      assert steps[..n][..k] == steps[..k];
      assert steps[k..][..n - k] == steps[..n][k..];
    }
  }

  predicate NoneStaged(steps: seq<CommitStep>, files: map<Path, string>) {
    forall i :: 0 <= i < |steps| ==> steps[i].stagedPath !in files
  }

  lemma {:induction false} ExecNothing(steps: seq<CommitStep>, fs: FS)
    requires NoneStaged(steps, fs.files)
    ensures ExecSteps(steps, fs) == fs
  {
    if steps != [] { ExecNothing(steps[..|steps| - 1], fs); }
  }

  /** Performing the first outstanding step leaves the outcome of the whole plan as it was. */
  lemma {:induction false} SwingKeepsOutcome(run: string, steps: seq<CommitStep>, fs: FS)
    requires SanePlan(run, steps)
    requires Progress(steps, fs.files) < |steps|
    ensures var s := steps[Progress(steps, fs.files)];
            ExecSteps(steps, Apply(Swing(s.stagedPath, s.livePath), fs)) == ExecSteps(steps, fs)
  {
    hide ExecSteps, Progress, SanePlan, NoneStaged, Apply;
    var k := Progress(steps, fs.files);
    var next := Apply(Swing(steps[k].stagedPath, steps[k].livePath), fs);
    FirstSwing(steps, k, fs);
    SwungIsGone(run, steps, k, fs);
    ExecNothing(steps[..k + 1], next);
    ExecSplit(steps, k + 1, fs);
    ExecSplit(steps, k + 1, next);
  }

  lemma SwungIsGone(run: string, steps: seq<CommitStep>, k: nat, fs: FS)
    requires SanePlan(run, steps) && k < |steps|
    requires forall i :: 0 <= i < k ==> steps[i].stagedPath !in fs.files
    ensures NoneStaged(steps[..k + 1], Apply(Swing(steps[k].stagedPath, steps[k].livePath), fs).files)
  {
    forall i | 0 <= i < k + 1
      ensures steps[i].stagedPath !in Apply(Swing(steps[k].stagedPath, steps[k].livePath), fs).files
    {
      assert Movable(run, steps[i]) && Movable(run, steps[k]);
    }
  }

  lemma LastStep(steps: seq<CommitStep>, n: nat, fs: FS)
    requires n < |steps|
    ensures ExecSteps(steps[..n + 1], fs)
         == Apply(Swing(steps[n].stagedPath, steps[n].livePath), ExecSteps(steps[..n], fs))
  {
    hide Apply;
    FrontOfTake(steps, n);
  }

  lemma FirstSwing(steps: seq<CommitStep>, k: nat, fs: FS)
    requires k < |steps| && forall i :: 0 <= i < k ==> steps[i].stagedPath !in fs.files
    ensures ExecSteps(steps[..k + 1], fs) == Apply(Swing(steps[k].stagedPath, steps[k].livePath), fs)
  {
    hide ExecSteps, Apply;
    LastStep(steps, k, fs);
    ExecNothing(steps[..k], fs);
  }

  /** A sane plan touches neither another run nor this run's plan and marker. */
  lemma {:induction false} ExecFrame(run: string, steps: seq<CommitStep>, fs: FS)
    requires forall i :: 0 <= i < |steps| ==> Movable(run, steps[i])
    ensures var g := ExecSteps(steps, fs);
            && g.runs == fs.runs
            && (forall p :: !IsLive(p) && !InRun(p, run) ==> (p in g.files <==> p in fs.files))
            && (forall p :: !IsLive(p) && p in g.files ==> p in fs.files && g.files[p] == fs.files[p])
            && (forall p :: p == PlanPath(run) || p == ReadyPath(run) ==> (p in g.files <==> p in fs.files))
  {
    if steps != [] {
      var n := |steps| - 1;
      ExecFrame(run, steps[..n], fs);
      assert Movable(run, steps[n]);
    }
  }

  // ------------------------------------------------------------ the target

  /** The live files the run's directory promises: with a READY plan, those the whole plan leaves. */
  function Target(fs: FS, run: string): map<Path, string> {
    if Ready(fs, run) && PlanOn(fs, run).Some? then Live(ExecSteps(PlanOn(fs, run).value, fs)) else Live(fs)
  }

  /** At most the one run directory, with nothing of any other. */
  predicate SoleRun(fs: FS, run: string) {
    fs.runs <= {run} && forall p :: p in fs.files && !IsLive(p) && |p| > 3 ==> InRun(p, run)
  }

  lemma {:induction false} UnlinkKeepsTarget(p: Path, fs: FS, run: string)
    requires InRun(p, run) && Disposable(fs, run)
    ensures Target(Apply(Unlink(p), fs), run) == Target(fs, run) == Live(fs) == Live(Apply(Unlink(p), fs))
    ensures Disposable(Apply(Unlink(p), fs), run)
  {
    var next := Apply(Unlink(p), fs);
    assert Live(next) == Live(fs);
    if Ready(fs, run) && PlanOn(fs, run).Some? {
      ExecNothing(PlanOn(fs, run).value, fs);
      if Ready(next, run) && PlanOn(next, run).Some? {
        assert PlanOn(next, run) == PlanOn(fs, run);
        ExecNothing(PlanOn(next, run).value, next);
      }
    }
  }

  /** No recovery step changes what the directory promises. */
  lemma StepKeepsTarget(op: Op, fs: FS, run: string)
    requires RecoveryStep(op, fs) && SoleRun(fs, run) && SaneJournal(fs)
    ensures SoleRun(Apply(op, fs), run) && SaneJournal(Apply(op, fs))
    ensures Target(Apply(op, fs), run) == Target(fs, run)
  {
    match op
    case Swing(_, _) => SwingKeepsTarget(op, fs, run);
    case Unlink(p) => UnlinkKeepsTarget(p, fs, run); UnlinkKeepsSane(p, fs, run);
    case DropRun(_) => DropKeepsTarget(fs, run);
  }

  lemma SwingKeepsTarget(op: Op, fs: FS, run: string)
    requires op.Swing? && RecoveryStep(op, fs) && SoleRun(fs, run) && SaneJournal(fs)
    ensures SoleRun(Apply(op, fs), run) && SaneJournal(Apply(op, fs))
    ensures Target(Apply(op, fs), run) == Target(fs, run)
  {
    hide ExecSteps, Progress, LoadPlan, SanePlan, Live, Apply;
    var steps := PlanOn(fs, run).value;
    var k := Progress(steps, fs.files);
    StepIsMovable(run, steps, k);
    SwingFrame(fs, run, steps[k]);
    SwingKeepsOutcome(run, steps, fs);
  }

  lemma StepIsMovable(run: string, steps: seq<CommitStep>, k: nat)
    requires SanePlan(run, steps) && k < |steps|
    ensures Movable(run, steps[k])
  {
  }

  /** A rename of a sane plan leaves the journal's other files, and their directory, in place. */
  lemma SwingFrame(fs: FS, run: string, s: CommitStep)
    requires Movable(run, s) && SoleRun(fs, run)
    ensures var next := Apply(Swing(s.stagedPath, s.livePath), fs);
            && SoleRun(next, run) && next.runs == fs.runs
            && (Ready(next, run) <==> Ready(fs, run)) && PlanOn(next, run) == PlanOn(fs, run)
  {
    hide LoadPlan;
    JournalPaths(run);
  }

  lemma UnlinkKeepsSane(p: Path, fs: FS, run: string)
    requires InRun(p, run) && SoleRun(fs, run) && SaneJournal(fs)
    ensures SoleRun(Apply(Unlink(p), fs), run) && SaneJournal(Apply(Unlink(p), fs))
  {
    var next := Apply(Unlink(p), fs);
    assert PlanOn(next, run).Some? ==> PlanOn(next, run) == PlanOn(fs, run);
  }

  lemma DropKeepsTarget(fs: FS, run: string)
    requires SoleRun(fs, run) && run in fs.runs && forall p :: p in fs.files ==> !InRun(p, run)
    ensures SoleRun(Apply(DropRun(run), fs), run) && SaneJournal(Apply(DropRun(run), fs))
    ensures Target(Apply(DropRun(run), fs), run) == Target(fs, run)
  {
    JournalPaths(run);
    assert !Ready(fs, run);
    assert Live(Apply(DropRun(run), fs)) == Live(fs);
  }

  /** Any number of partial commits and resumes, each stopped anywhere, leads towards one and the
      same live file system. */
  lemma {:induction false} RecoveringKeepsTarget(ops: seq<Op>, fs: FS, run: string)
    requires Recovering(ops, fs) && SoleRun(fs, run) && SaneJournal(fs)
    ensures SoleRun(ApplyAll(ops, fs), run) && SaneJournal(ApplyAll(ops, fs))
    ensures Target(ApplyAll(ops, fs), run) == Target(fs, run)
  {
    if ops != [] {
      RecoveringKeepsTarget(ops[..|ops| - 1], fs, run);
      StepKeepsTarget(ops[|ops| - 1], ApplyAll(ops[..|ops| - 1], fs), run);
    }
  }

  /** Recovery that runs to its end leaves exactly the promised live files and an empty journal. */
  lemma {:induction false} RecoverReachesTarget(fs: FS, run: string)
    requires SoleRun(fs, run) && SaneJournal(fs) && run in fs.runs
    ensures RecoverRun(fs, run).None? <==> Ready(fs, run) && PlanOn(fs, run).None?
    ensures RecoverRun(fs, run).Some? ==>
      var end := RecoverRun(fs, run).value;
      Live(end) == Target(fs, run) && end.runs == {} && SoleRun(end, run)
  {
    hide ExecSteps, LoadPlan, Live, SanePlan, WithoutRun;
    if RecoverRun(fs, run).Some? {
      if Ready(fs, run) {
        var steps := PlanOn(fs, run).value;
        SaneIsMovable(run, steps);
        ExecFrame(run, steps, fs);
        Emptied(fs, ExecSteps(steps, fs), run);
      } else {
        Emptied(fs, fs, run);
      }
    }
  }

  lemma SaneIsMovable(run: string, steps: seq<CommitStep>)
    requires SanePlan(run, steps)
    ensures forall i :: 0 <= i < |steps| ==> Movable(run, steps[i])
  {
  }

  /** Removing the only run directory empties the journal and moves nothing live. */
  lemma Emptied(fs0: FS, fs: FS, run: string)
    requires SoleRun(fs0, run) && fs.runs == fs0.runs
    requires forall p :: !IsLive(p) && p in fs.files ==> p in fs0.files
    ensures var end := WithoutRun(fs, run);
            Live(end) == Live(fs) && end.runs == {} && SoleRun(end, run)
  {
    assert Live(WithoutRun(fs, run)) == Live(fs);
  }

  /** Crash-schedule confluence: stop committing or resuming anywhere, any number of times; once a
      resume runs to its end the live files are those of one uninterrupted recovery. */
  lemma {:induction false} CrashesDoNotMatter(ops: seq<Op>, fs: FS, run: string)
    requires Recovering(ops, fs) && SoleRun(fs, run) && SaneJournal(fs) && run in fs.runs
    requires RecoverRun(fs, run).Some?
    ensures var stopped := ApplyAll(ops, fs);
            && (run !in stopped.runs ==> Live(stopped) == Live(RecoverRun(fs, run).value))
            && (run in stopped.runs && RecoverRun(stopped, run).Some? ==>
                 Live(RecoverRun(stopped, run).value) == Live(RecoverRun(fs, run).value))
  {
    var stopped := ApplyAll(ops, fs);
    RecoveringKeepsTarget(ops, fs, run);
    RecoverReachesTarget(fs, run);
    if run in stopped.runs {
      RecoverReachesTarget(stopped, run);
    } else {
      DroppedIsEmpty(ops, fs, run);
    }
  }

  /** A run's directory is only dropped once it is empty. */
  lemma {:induction false} DroppedIsEmpty(ops: seq<Op>, fs: FS, run: string)
    requires Recovering(ops, fs) && SoleRun(fs, run) && SaneJournal(fs) && run in fs.runs
    requires run !in ApplyAll(ops, fs).runs
    ensures forall p :: p in ApplyAll(ops, fs).files ==> !InRun(p, run)
    ensures Target(ApplyAll(ops, fs), run) == Live(ApplyAll(ops, fs))
  {
    var n := |ops| - 1;
    var before := ApplyAll(ops[..n], fs);
    RecoveringKeepsTarget(ops[..n], fs, run);
    if run !in before.runs {
      DroppedIsEmpty(ops[..n], fs, run);
      assert before.runs == {};
    }
    JournalPaths(run);
  }

  // ------------------------------------------------------------ progress

  function JournalFiles(fs: FS): set<Path> {
    set p | p in fs.files && !IsLive(p)
  }

  /** What is left to do: files in the journal, and run directories. */
  function Remaining(fs: FS): nat {
    |JournalFiles(fs)| + |fs.runs|
  }

  /** Every recovery step leaves less to do. */
  lemma StepsRunOut(op: Op, fs: FS)
    requires RecoveryStep(op, fs) && SaneJournal(fs)
    ensures Remaining(Apply(op, fs)) == Remaining(fs) - 1
  {
    hide PlanOn, Progress, Ready, Finished;
    var next := Apply(op, fs);
    match op
    case Swing(src, dst) =>
      var steps := PlanOn(fs, src[2]).value;
      assert Movable(src[2], steps[Progress(steps, fs.files)]);
      OneFewer(JournalFiles(fs), JournalFiles(next), src);
    case Unlink(p) => OneFewer(JournalFiles(fs), JournalFiles(next), p);
    case DropRun(run) =>
      assert JournalFiles(fs) == JournalFiles(next);
      OneFewer(fs.runs, next.runs, run);
  }

  lemma OneFewer<T>(all: set<T>, rest: set<T>, x: T)
    requires x in all && rest == all - {x}
    ensures |rest| == |all| - 1
  {
  }

  /** However it is interrupted, recovery performs at most this many operations in all. */
  lemma {:induction false} RecoveringIsBounded(ops: seq<Op>, fs: FS, run: string)
    requires Recovering(ops, fs) && SoleRun(fs, run) && SaneJournal(fs)
    ensures |ops| + Remaining(ApplyAll(ops, fs)) == Remaining(fs)
  {
    if ops != [] {
      var n := |ops| - 1;
      RecoveringIsBounded(ops[..n], fs, run);
      RecoveringKeepsTarget(ops[..n], fs, run);
      StepsRunOut(ops[n], ApplyAll(ops[..n], fs));
    }
  }

  // ------------------------------------------------------------ a stranded journal

  /** READY without a readable plan: resuming raises here. */
  predicate Stranded(fs: FS, run: string) {
    Ready(fs, run) && PlanOn(fs, run).None?
  }

  /** The plan is gone and READY is not. */
  predicate SweptTooEarly(fs: FS, run: string) {
    run in fs.runs && ReadyPath(run) in fs.files && PlanPath(run) !in fs.files
  }

  /** The hazard in cleaning up: the directory is removed file by file in no particular order, and
      a machine that stops after the plan is gone but before READY is leaves a journal that
      resuming refuses, although every file of the run is already in place. */
  lemma {:induction false} CleanupCanStrand(fs: FS, run: string)
    requires run in fs.runs && Ready(fs, run) && PlanOn(fs, run).Some? && Finished(fs, run)
    ensures var stopped := Apply(Unlink(PlanPath(run)), fs);
            && RecoveryStep(Unlink(PlanPath(run)), fs)
            && Stranded(stopped, run) && RecoverRun(stopped, run).None?
            && Live(stopped) == Target(fs, run)
  {
    JournalPaths(run);
    UnlinkKeepsTarget(PlanPath(run), fs, run);
  }

  /** It is the only way: from a sound journal, a stopped recovery is stranded exactly when the
      plan has been swept away and READY has not; so removing READY before the plan is safe. */
  lemma {:induction false} StrandedExactly(ops: seq<Op>, fs: FS, run: string)
    requires Recovering(ops, fs) && SoleRun(fs, run) && SaneJournal(fs) && !Stranded(fs, run)
    ensures var stopped := ApplyAll(ops, fs);
            Stranded(stopped, run) <==> ReadyPath(run) in stopped.files && PlanPath(run) !in stopped.files
  {
    JournalOnlyShrinks(ops, fs, run);
  }

  /** Recovery never adds a journal file and never changes one. */
  lemma {:induction false} JournalOnlyShrinks(ops: seq<Op>, fs: FS, run: string)
    requires Recovering(ops, fs) && SoleRun(fs, run) && SaneJournal(fs)
    ensures forall p :: !IsLive(p) && p in ApplyAll(ops, fs).files ==>
      p in fs.files && ApplyAll(ops, fs).files[p] == fs.files[p]
  {
    hide RecoveryStep, Apply, SaneJournal, SoleRun;
    if ops != [] {
      var n := |ops| - 1;
      var before := ApplyAll(ops[..n], fs);
      JournalOnlyShrinks(ops[..n], fs, run);
      RecoveringKeepsTarget(ops[..n], fs, run);
      StepOnlyShrinks(ops[n], before, run);
    }
  }

  lemma StepOnlyShrinks(op: Op, fs: FS, run: string)
    requires RecoveryStep(op, fs) && SoleRun(fs, run) && SaneJournal(fs)
    ensures forall p :: !IsLive(p) && p in Apply(op, fs).files ==>
      p in fs.files && Apply(op, fs).files[p] == fs.files[p]
  {
    hide LoadPlan, Progress, SanePlan, Finished;
    if op.Swing? {
      var steps := PlanOn(fs, run).value;
      StepIsMovable(run, steps, Progress(steps, fs.files));
    }
  }

  /** READY is removed before the plan. */
  predicate ReadyFirst(ops: seq<Op>, fs: FS, run: string) {
    forall i :: 0 <= i < |ops| && ops[i] == Unlink(PlanPath(run)) ==> !Ready(ApplyAll(ops[..i], fs), run)
  }

  /** Progress: a recovery that takes READY away before the plan is never stranded, wherever and
      however often it stops, so the next resume can always finish it. */
  lemma {:induction false} ReadyFirstIsSafe(ops: seq<Op>, fs: FS, run: string)
    requires Recovering(ops, fs) && SoleRun(fs, run) && SaneJournal(fs) && !Stranded(fs, run)
    requires ReadyFirst(ops, fs, run)
    ensures RecoverRun(ApplyAll(ops, fs), run).Some?
  {
    hide RecoverRun, RecoveryStep, LoadPlan;
    NotStranded(ApplyAll(ops, fs), run);
    if ops != [] {
      var n := |ops| - 1;
      var before := ApplyAll(ops[..n], fs);
      ReadyFirstFront(ops, fs, run, n);
      ReadyFirstIsSafe(ops[..n], fs, run);
      NotStranded(before, run);
      RecoveringKeepsTarget(ops[..n], fs, run);
      StepStrandsOnlyByPlan(ops[n], before, run);
    }
  }

  lemma {:induction false} RecoveringFront(ops: seq<Op>, fs: FS, n: nat)
    requires Recovering(ops, fs) && n <= |ops|
    ensures Recovering(ops[..n], fs)
    decreases |ops|
  {
    hide RecoveryStep;
    if n < |ops| {
      RecoveringFront(ops[..|ops| - 1], fs, n);
      assert ops[..|ops| - 1][..n] == ops[..n];
    } else {
      assert ops[..n] == ops;
    }
  }

  lemma ApplyNext(ops: seq<Op>, fs: FS, i: nat)
    requires i < |ops|
    ensures ApplyAll(ops[..i + 1], fs) == Apply(ops[i], ApplyAll(ops[..i], fs))
  {
    hide Apply;
    FrontOfTake(ops, i);
  }

  lemma ReadyFirstFront(ops: seq<Op>, fs: FS, run: string, n: nat)
    requires ReadyFirst(ops, fs, run) && n <= |ops|
    ensures ReadyFirst(ops[..n], fs, run)
  {
    forall i | 0 <= i < n && ops[..n][i] == Unlink(PlanPath(run)) ensures !Ready(ApplyAll(ops[..n][..i], fs), run) {
      assert ops[..n][..i] == ops[..i];
    }
  }

  /** However far it got, the recovery can be finished. */
  ghost predicate AlwaysResumable(ops: seq<Op>, fs: FS, run: string) {
    forall n :: 0 <= n <= |ops| ==> RecoverRun(ApplyAll(ops[..n], fs), run).Some?
  }

  /** Exactly: of a recovery that is stopped anywhere the next resume can finish every stop if and only
      if READY goes before the plan. */
  lemma {:induction false} ReadyFirstExactly(ops: seq<Op>, fs: FS, run: string)
    requires Recovering(ops, fs) && SoleRun(fs, run) && SaneJournal(fs) && !Stranded(fs, run)
    ensures ReadyFirst(ops, fs, run) <==> AlwaysResumable(ops, fs, run)
  {
    hide Recovering, SoleRun, SaneJournal, RecoverRun, Apply, ApplyAll, Stranded;
    if ReadyFirst(ops, fs, run) {
      forall n | 0 <= n <= |ops| ensures RecoverRun(ApplyAll(ops[..n], fs), run).Some? {
        RecoveringFront(ops, fs, n);
        ReadyFirstFront(ops, fs, run, n);
        ReadyFirstIsSafe(ops[..n], fs, run);
      }
    }
    if AlwaysResumable(ops, fs, run) {
      forall i | 0 <= i < |ops| && ops[i] == Unlink(PlanPath(run)) ensures !Ready(ApplyAll(ops[..i], fs), run) {
        ApplyNext(ops, fs, i);
        assert RecoverRun(ApplyAll(ops[..i + 1], fs), run).Some?;
        PlanFirstStrands(ApplyAll(ops[..i], fs), run);
      }
    }
  }

  lemma PlanFirstStrands(fs: FS, run: string)
    ensures Ready(fs, run) ==> RecoverRun(Apply(Unlink(PlanPath(run)), fs), run).None?
  {
    hide LoadPlan, ExecSteps;
    JournalPaths(run);
  }

  lemma NotStranded(fs: FS, run: string)
    ensures RecoverRun(fs, run).Some? <==> !Stranded(fs, run)
  {
    hide ExecSteps, LoadPlan;
  }

  lemma StepStrandsOnlyByPlan(op: Op, fs: FS, run: string)
    requires RecoveryStep(op, fs) && SoleRun(fs, run) && SaneJournal(fs) && !Stranded(fs, run)
    requires op == Unlink(PlanPath(run)) ==> !Ready(fs, run)
    ensures !Stranded(Apply(op, fs), run)
  {
    hide LoadPlan, Progress;
    JournalPaths(run);
    if op.Swing? {
      var steps := PlanOn(fs, run).value;
      assert Movable(run, steps[Progress(steps, fs.files)]);
    }
  }
}
