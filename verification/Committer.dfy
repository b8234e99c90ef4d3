/** The commit executor and the resume scanner. */
module Committer {
  import opened Strings
  import opened Results
  import opened Disks
  import opened Staging
  import opened Recovery

  /** Whether the steps are the sane plan of a READY run of this disk. */
  ghost predicate Committable(fs: FS, run: string, steps: seq<CommitStep>) {
    run in fs.runs && Ready(fs, run) && PlanOn(fs, run) == Some(steps) && SanePlan(run, steps)
  }

  /** Mid-plan, the outstanding steps are exactly those not yet reached. */
  lemma {:induction false} MidPlan(fs: FS, run: string, steps: seq<CommitStep>, i: nat)
    requires SanePlan(run, steps) && i <= |steps|
    ensures var g := ExecSteps(steps[..i], fs);
            && (forall j :: 0 <= j < i ==> steps[j].stagedPath !in g.files)
            && (forall j :: i <= j < |steps| ==> (steps[j].stagedPath in g.files <==> steps[j].stagedPath in fs.files))
  {
    hide ExecSteps, SanePlan;
    if i == 0 {
      ExecNothing(steps[..i], fs);
    } else {
      MidPlan(fs, run, steps, i - 1);
      LastStep(steps, i - 1, fs);
      forall j | 0 <= j < |steps| ensures steps[j].stagedPath != steps[i - 1].livePath
        ensures j != i - 1 ==> steps[j].stagedPath != steps[i - 1].stagedPath
      {
        StepsApart(run, steps, i - 1, j);
      }
    }
  }

  lemma StepsApart(run: string, steps: seq<CommitStep>, i: nat, j: nat)
    requires SanePlan(run, steps) && i < |steps| && j < |steps|
    ensures steps[j].stagedPath != steps[i].livePath
    ensures i != j ==> steps[j].stagedPath != steps[i].stagedPath
  {
    assert Movable(run, steps[i]) && Movable(run, steps[j]);
  }

  lemma NextSwing(fs: FS, run: string, steps: seq<CommitStep>, i: nat)
    requires Committable(fs, run, steps) && i < |steps|
    requires steps[i].stagedPath in ExecSteps(steps[..i], fs).files
    ensures RecoveryStep(Swing(steps[i].stagedPath, steps[i].livePath), ExecSteps(steps[..i], fs))
  {
    hide ExecSteps, LoadPlan, Progress;
    MidPlan(fs, run, steps, i);
    forall j | 0 <= j < |steps[..i]| ensures Movable(run, steps[..i][j]) { assert Movable(run, steps[j]); }
    ExecFrame(run, steps[..i], fs);
    assert Movable(run, steps[i]);
    JournalPaths(run);
  }

  /** `_execute_step`: a staged file that is gone means the rename already happened. */
  method ExecuteStep(disk: Disk, step: CommitStep) returns (r: Outcome<()>)
    modifies disk
    ensures disk.fuel + |disk.log| == old(disk.fuel) + |old(disk.log)|
    ensures !r.Raised? && Follows(old(disk.log), old(disk.fs), disk.log, disk.fs)
    ensures r.Done? ==> disk.fs == Apply(Swing(step.stagedPath, step.livePath), old(disk.fs))
    ensures r.Done? ==> disk.log == if step.stagedPath in old(disk.fs).files
                                    then old(disk.log) + [Swing(step.stagedPath, step.livePath)] else old(disk.log)
    ensures r.Dead? ==> disk.fuel == 0 && disk.fs == old(disk.fs) && disk.log == old(disk.log)
  {
    var there := disk.Exists(step.stagedPath);
    if !there {
      assert ApplyAll([], disk.fs) == disk.fs;
      return Done(());
    }
    r := disk.AtomicRename(step.stagedPath, step.livePath);
  }

  /** `_execute_steps`. Wherever the machine stops, a prefix of the plan has been performed. */
  method ExecuteSteps(disk: Disk, steps: seq<CommitStep>, ghost run: string) returns (r: Outcome<()>)
    modifies disk
    ensures disk.fuel + |disk.log| == old(disk.fuel) + |old(disk.log)|
    ensures !r.Raised? && Follows(old(disk.log), old(disk.fs), disk.log, disk.fs)
    ensures r.Done? ==> disk.fs == ExecSteps(steps, old(disk.fs))
    ensures r.Dead? ==> disk.fuel == 0 && exists k :: 0 <= k < |steps| && disk.fs == ExecSteps(steps[..k], old(disk.fs))
    ensures Committable(old(disk.fs), run, steps) ==> Recovered(old(disk.log), old(disk.fs), disk.log, disk.fs)
  {
    var i := 0;
    assert ApplyAll([], disk.fs) == disk.fs;
    while i < |steps|
      invariant 0 <= i <= |steps|
      invariant disk.fs == ExecSteps(steps[..i], old(disk.fs))
      invariant Follows(old(disk.log), old(disk.fs), disk.log, disk.fs)
      invariant disk.fuel + |disk.log| == old(disk.fuel) + |old(disk.log)|
      invariant Committable(old(disk.fs), run, steps) ==> Recovered(old(disk.log), old(disk.fs), disk.log, disk.fs)
    {
      ghost var log1, fs1 := disk.log, disk.fs;
      var step := ExecuteStep(disk, steps[i]);
      FollowsFollows(old(disk.log), old(disk.fs), log1, fs1, disk.log, disk.fs);
      if step.Dead? {
        return Dead;
      }
      assert steps[..i + 1][..i] == steps[..i];
      if Committable(old(disk.fs), run, steps) && steps[i].stagedPath in fs1.files {
        NextSwing(old(disk.fs), run, steps, i);
        RecoveredStep(old(disk.log), old(disk.fs), log1, fs1, Swing(steps[i].stagedPath, steps[i].livePath));
      }
      i := i + 1;
    }
    assert steps[..i] == steps;
    return Done(());
  }

  /** The files of a run directory, some of them removed, and nothing else different. */
  ghost predicate PartlySwept(fs0: FS, fs: FS, run: string) {
    && fs.runs == fs0.runs
    && (forall p :: p in fs.files ==> p in fs0.files && fs.files[p] == fs0.files[p])
    && (forall p :: p in fs0.files && !InRun(p, run) ==> p in fs.files)
  }

  lemma SweptStaysDisposable(fs0: FS, fs: FS, run: string)
    requires Disposable(fs0, run) && PartlySwept(fs0, fs, run)
    ensures Disposable(fs, run)
  {
    if Ready(fs, run) && PlanPath(run) in fs.files {
      var steps := PlanOn(fs0, run).value;
      assert PlanOn(fs, run) == PlanOn(fs0, run);
    }
  }

  lemma UnlinkIsRecovery(fs0: FS, fs: FS, run: string, p: Path)
    requires run in fs0.runs && Disposable(fs0, run) && PartlySwept(fs0, fs, run)
    requires p in fs.files && InRun(p, run)
    ensures RecoveryStep(Unlink(p), fs)
  {
    SweptStaysDisposable(fs0, fs, run);
  }

  lemma DropIsRecovery(fs0: FS, fs: FS, run: string)
    requires run in fs0.runs && PartlySwept(fs0, fs, run) && forall p :: p in fs.files ==> !InRun(p, run)
    ensures RecoveryStep(DropRun(run), fs)
  {
  }

  lemma SweptOne(fs0: FS, fs: FS, run: string, p: Path)
    requires PartlySwept(fs0, fs, run) && InRun(p, run)
    ensures PartlySwept(fs0, Apply(Unlink(p), fs), run)
  {
  }

  lemma SweptAll(fs0: FS, fs: FS, run: string)
    requires PartlySwept(fs0, fs, run) && forall p :: p in fs.files ==> !InRun(p, run)
    ensures Apply(DropRun(run), fs) == WithoutRun(fs0, run)
  {
    assert fs.files == WithoutRun(fs0, run).files;
  }

  lemma SweptNothing(fs: FS, run: string)
    ensures PartlySwept(fs, fs, run)
  {
  }

  /** `shutil.rmtree`: one file at a time, in whatever order the directory lists them. */
  method Rmtree(disk: Disk, run: string) returns (r: Outcome<()>)
    modifies disk
    ensures disk.fuel + |disk.log| == old(disk.fuel) + |old(disk.log)|
    ensures !r.Raised? && Follows(old(disk.log), old(disk.fs), disk.log, disk.fs)
    ensures r.Done? ==> disk.fs == WithoutRun(old(disk.fs), run)
    ensures r.Dead? ==> disk.fuel == 0 && PartlySwept(old(disk.fs), disk.fs, run)
    ensures run in old(disk.fs).runs && Disposable(old(disk.fs), run) ==>
      Recovered(old(disk.log), old(disk.fs), disk.log, disk.fs)
  {
    hide Recovered, Follows, Disposable, RecoveryStep, PartlySwept, WithoutRun, InRun;
    ghost var sound := run in disk.fs.runs && Disposable(disk.fs, run);
    SweptNothing(disk.fs, run);
    Nothing(disk.log, disk.fs);
    while exists p :: p in disk.fs.files && InRun(p, run)
      invariant PartlySwept(old(disk.fs), disk.fs, run)
      invariant Follows(old(disk.log), old(disk.fs), disk.log, disk.fs)
      invariant disk.fuel + |disk.log| == old(disk.fuel) + |old(disk.log)|
      invariant sound ==> Recovered(old(disk.log), old(disk.fs), disk.log, disk.fs)
      decreases |disk.fs.files|
    {
      var p :| p in disk.fs.files && InRun(p, run);
      ghost var log1, fs1 := disk.log, disk.fs;
      if sound { UnlinkIsRecovery(old(disk.fs), fs1, run, p); }
      SweptOne(old(disk.fs), fs1, run, p);
      var step := disk.Perform(Unlink(p));
      FollowsFollows(old(disk.log), old(disk.fs), log1, fs1, disk.log, disk.fs);
      if step.Dead? {
        return Dead;
      }
      if sound { RecoveredStep(old(disk.log), old(disk.fs), log1, fs1, Unlink(p)); }
      assert fs1.files.Keys == disk.fs.files.Keys + {p};
    }
    ghost var log2, fs2 := disk.log, disk.fs;
    SweptAll(old(disk.fs), fs2, run);
    r := disk.Perform(DropRun(run));
    FollowsFollows(old(disk.log), old(disk.fs), log2, fs2, disk.log, disk.fs);
    if r.Done? && sound {
      DropIsRecovery(old(disk.fs), fs2, run);
      RecoveredStep(old(disk.log), old(disk.fs), log2, fs2, DropRun(run));
    }
  }

  lemma ExecutedIsFinished(fs: FS, run: string, steps: seq<CommitStep>)
    requires Committable(fs, run, steps)
    ensures run in ExecSteps(steps, fs).runs && Disposable(ExecSteps(steps, fs), run)
  {
    hide ExecSteps, LoadPlan, Progress;
    MidPlan(fs, run, steps, |steps|);
    assert steps[..|steps|] == steps;
    forall j | 0 <= j < |steps| ensures Movable(run, steps[j]) { }
    ExecFrame(run, steps, fs);
    JournalPaths(run);
  }

  /** Executes a READY run's plan and removes its directory; shared by commit and resume. */
  method Complete(disk: Disk, run: string) returns (r: Outcome<()>)
    requires Ready(disk.fs, run)
    modifies disk
    ensures disk.fuel + |disk.log| == old(disk.fuel) + |old(disk.log)|
    ensures Follows(old(disk.log), old(disk.fs), disk.log, disk.fs)
    ensures r.Done? ==> RecoverRun(old(disk.fs), run) == Some(disk.fs)
    ensures r.Raised? <==> Stranded(old(disk.fs), run)
    ensures r.Raised? ==> r.error == CorruptPlan && disk.fs == old(disk.fs)
    ensures r.Dead? ==> disk.fuel == 0
    ensures run in old(disk.fs).runs && SaneJournal(old(disk.fs)) ==>
      Recovered(old(disk.log), old(disk.fs), disk.log, disk.fs)
  {
    assert ApplyAll([], disk.fs) == disk.fs;
    var planned := disk.Exists(PlanPath(run));
    if !planned {
      return Raised(CorruptPlan);
    }
    var text := disk.ReadBytes(PlanPath(run));
    var plan := LoadPlan(text);
    if plan.None? {
      return Raised(CorruptPlan);
    }
    ghost var sound := run in disk.fs.runs && SaneJournal(disk.fs);
    assert sound ==> Committable(disk.fs, run, plan.value);
    r := ExecuteSteps(disk, plan.value, run);
    if r.Done? {
      if sound { ExecutedIsFinished(old(disk.fs), run, plan.value); }
      ghost var log1, fs1 := disk.log, disk.fs;
      r := Rmtree(disk, run);
      FollowsFollows(old(disk.log), old(disk.fs), log1, fs1, disk.log, disk.fs);
      if sound { RecoveredRecovered(old(disk.log), old(disk.fs), log1, fs1, disk.log, disk.fs); }
    }
  }

  /** `commit`: refuses a run that is not READY. */
  method Commit(disk: Disk, run: string) returns (r: Outcome<()>)
    modifies disk
    ensures disk.fuel + |disk.log| == old(disk.fuel) + |old(disk.log)|
    ensures Follows(old(disk.log), old(disk.fs), disk.log, disk.fs)
    ensures r == Raised(NotReady) <==> !Ready(old(disk.fs), run)
    ensures r.Raised? ==> (r.error == NotReady || r.error == CorruptPlan) && disk.fs == old(disk.fs)
    ensures r == Raised(CorruptPlan) <==> Stranded(old(disk.fs), run)
    ensures r.Done? ==> RecoverRun(old(disk.fs), run) == Some(disk.fs)
    ensures r.Dead? ==> disk.fuel == 0
    ensures run in old(disk.fs).runs && SaneJournal(old(disk.fs)) ==>
      Recovered(old(disk.log), old(disk.fs), disk.log, disk.fs)
  {
    assert ApplyAll([], disk.fs) == disk.fs;
    var ready := disk.Exists(ReadyPath(run));
    if !ready {
      return Raised(NotReady);
    }
    r := Complete(disk, run);
  }

  lemma Nothing(log: seq<Op>, fs: FS)
    ensures Follows(log, fs, log, fs) && Recovered(log, fs, log, fs)
  {
    assert log[|log|..] == [];
  }

  /** One leftover run directory: completed if READY, discarded if not. */
  method RecoverOne(disk: Disk, run: string) returns (r: Outcome<()>)
    modifies disk
    ensures disk.fuel + |disk.log| == old(disk.fuel) + |old(disk.log)|
    ensures Follows(old(disk.log), old(disk.fs), disk.log, disk.fs)
    ensures r.Done? ==> RecoverRun(old(disk.fs), run) == Some(disk.fs)
    ensures r.Raised? <==> Stranded(old(disk.fs), run)
    ensures r.Raised? ==> r.error == CorruptPlan && disk.fs == old(disk.fs)
    ensures r.Dead? ==> disk.fuel == 0
    ensures run in old(disk.fs).runs && SaneJournal(old(disk.fs)) ==>
      Recovered(old(disk.log), old(disk.fs), disk.log, disk.fs)
  {
    var ready := disk.Exists(ReadyPath(run));
    if ready {
      r := Complete(disk, run);
    } else {
      r := Rmtree(disk, run);
    }
  }

  /** The run directories still to be visited are there. */
  predicate Listed(runs: seq<string>, from: nat, there: set<string>) {
    forall i :: from <= i < |runs| ==> runs[i] in there
  }

  lemma AllAreListed(there: set<string>)
    ensures Listed(SortedKeys(there), 0, there)
  {
  }

  lemma NextListed(fs: FS, runs: seq<string>, i: nat)
    requires i < |runs| && Ascending(runs) && Listed(runs, i, fs.runs)
    ensures runs[i] in fs.runs && Listed(runs, i + 1, fs.runs - {runs[i]})
    ensures RecoverRuns(fs, runs[i..]) ==
      match RecoverRun(fs, runs[i])
      case None => None
      case Some(next) => RecoverRuns(next, runs[i + 1..])
  {
    forall j | i < j < |runs| ensures runs[j] != runs[i] { AscendingDistinct(runs, i, j); }
    assert runs[i..][0] == runs[i] && runs[i..][1..] == runs[i + 1..];
  }

  lemma AllListed(fs: FS, runs: seq<string>)
    ensures RecoverRuns(fs, runs[|runs|..]) == Some(fs)
  {
  }

  /** The directories before a stranded one have been brought to an end, and nothing else was done. */
  ghost predicate StoppedAt(fs0: FS, runs: seq<string>, fs: FS) {
    exists k :: 0 <= k < |runs| && RecoverRuns(fs0, runs[..k]) == Some(fs) && Stranded(fs, runs[k])
  }

  lemma {:induction false} RecoveredUpTo(fs0: FS, runs: seq<string>, k: nat)
    requires k < |runs| && RecoverRuns(fs0, runs[..k]).Some?
    ensures RecoverRuns(fs0, runs[..k + 1]) == RecoverRun(RecoverRuns(fs0, runs[..k]).value, runs[k])
    decreases k
  {
    hide RecoverRun;
    if k > 0 {
      assert runs[..k][1..] == runs[1..][..k - 1] && runs[..k + 1][1..] == runs[1..][..k];
      RecoveredUpTo(RecoverRun(fs0, runs[0]).value, runs[1..], k - 1);
    }
  }

  /** `resume_pending`: every leftover run directory, in name order, is completed or discarded. */
  method ResumePending(disk: Disk) returns (r: Outcome<seq<string>>)
    modifies disk
    ensures disk.fuel + |disk.log| == old(disk.fuel) + |old(disk.log)|
    ensures Follows(old(disk.log), old(disk.fs), disk.log, disk.fs)
    ensures r.Done? ==> r.value == SortedKeys(old(disk.fs).runs)
    ensures r.Done? ==> RecoverRuns(old(disk.fs), r.value) == Some(disk.fs)
    ensures r.Raised? ==> r.error == CorruptPlan && RecoverRuns(old(disk.fs), SortedKeys(old(disk.fs).runs)) == None
    ensures r.Raised? ==> StoppedAt(old(disk.fs), SortedKeys(old(disk.fs).runs), disk.fs)
    ensures r.Dead? ==> disk.fuel == 0
    ensures SaneJournal(old(disk.fs)) ==> Recovered(old(disk.log), old(disk.fs), disk.log, disk.fs)
  {
    hide RecoverRun, RecoverRuns, Recovered, SaneJournal, Follows, Ascending, Listed, SortedKeys, Ready, Stranded;
    ghost var sound := SaneJournal(disk.fs);
    Nothing(disk.log, disk.fs);
    var runs := SortedKeys(disk.fs.runs);
    SortedKeysAscend(disk.fs.runs);
    AllAreListed(disk.fs.runs);
    AllListed(disk.fs, []);
    var processed: seq<string> := [];
    while |processed| < |runs|
      invariant |processed| <= |runs| && processed == runs[..|processed|]
      invariant Follows(old(disk.log), old(disk.fs), disk.log, disk.fs)
      invariant disk.fuel + |disk.log| == old(disk.fuel) + |old(disk.log)|
      invariant RecoverRuns(old(disk.fs), runs) == RecoverRuns(disk.fs, runs[|processed|..])
      invariant RecoverRuns(old(disk.fs), runs[..|processed|]) == Some(disk.fs)
      invariant Listed(runs, |processed|, disk.fs.runs)
      invariant sound ==> SaneJournal(disk.fs)
      invariant sound ==> Recovered(old(disk.log), old(disk.fs), disk.log, disk.fs)
    {
      var run := runs[|processed|];
      ghost var log1, fs1 := disk.log, disk.fs;
      NextListed(fs1, runs, |processed|);
      var step := RecoverOne(disk, run);
      FollowsFollows(old(disk.log), old(disk.fs), log1, fs1, disk.log, disk.fs);
      if sound {
        RecoveredRecovered(old(disk.log), old(disk.fs), log1, fs1, disk.log, disk.fs);
      }
      if step.Dead? {
        return Dead;
      }
      if step.Raised? {
        StrandedIsRefused(fs1, run);
        return Raised(step.error);
      }
      RecoveredUpTo(old(disk.fs), runs, |processed|);
      RecoverRunFrame(fs1, run);
      processed := processed + [run];
    }
    AllListed(disk.fs, runs);
    return Done(processed);
  }

  lemma StrandedIsRefused(fs: FS, run: string)
    requires Stranded(fs, run)
    ensures RecoverRun(fs, run).None?
  {
  }

  lemma {:induction false} ExecKeepsRuns(steps: seq<CommitStep>, fs: FS)
    ensures ExecSteps(steps, fs).runs == fs.runs
  {
    if steps != [] { ExecKeepsRuns(steps[..|steps| - 1], fs); }
  }

  /** Recovering one run leaves the other directories there, and their plans sane. */
  lemma RecoverRunFrame(fs: FS, run: string)
    requires RecoverRun(fs, run).Some?
    ensures RecoverRun(fs, run).value.runs == fs.runs - {run}
    ensures run in fs.runs && SaneJournal(fs) ==> SaneJournal(RecoverRun(fs, run).value)
  {
    hide ExecSteps, LoadPlan, SanePlan;
    var end := RecoverRun(fs, run).value;
    if Ready(fs, run) { ExecKeepsRuns(PlanOn(fs, run).value, fs); }
    if run in fs.runs && SaneJournal(fs) {
      if Ready(fs, run) {
        var steps := PlanOn(fs, run).value;
        SaneIsMovable(run, steps);
        ExecFrame(run, steps, fs);
      }
      forall other | other in end.runs && Ready(end, other) && PlanOn(end, other).Some?
        ensures SanePlan(other, PlanOn(end, other).value)
      {
        JournalPaths(other);
        assert Ready(fs, other) && PlanOn(fs, other) == PlanOn(end, other);
      }
    }
  }
}
