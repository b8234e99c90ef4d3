/** From what the methods log to what the system can do: a logged recovery, and a logged staging of
    a run, are executions of the transition system. */
module Traces {
  import opened Results
  import opened Strings
  import opened Disks
  import opened Recovery
  import opened Writes
  import opened Outputs
  import opened Runs
  import opened System
  import opened Refinement

  function FileOps(ops: seq<Op>): (es: seq<Event>)
    ensures |es| == |ops| && forall i :: 0 <= i < |ops| ==> es[i] == FileOp(ops[i])
  {
    seq(|ops|, i requires 0 <= i < |ops| => FileOp(ops[i]))
  }

  lemma FileOpsFront(ops: seq<Op>)
    requires ops != []
    ensures FileOps(ops)[..|ops| - 1] == FileOps(ops[..|ops| - 1]) && FileOps(ops)[|ops| - 1] == FileOp(ops[|ops| - 1])
  {
  }

  /** The file operations among the events. */
  function OpsOf(es: seq<Event>): seq<Op> {
    if es == [] then []
    else OpsOf(es[..|es| - 1]) + (if es[|es| - 1].FileOp? then [es[|es| - 1].op] else [])
  }

  lemma {:induction false} OpsOfJoins(a: seq<Event>, b: seq<Event>)
    ensures OpsOf(a + b) == OpsOf(a) + OpsOf(b)
  {
    hide OpsOf;
    if b == [] {
      OpsOfNothing(a, b);
    } else {
      var e := b[|b| - 1];
      OpsOfJoins(a, b[..|b| - 1]);
      FrontOfSum(a, b);
      OpsOfSnoc(a + b);
      OpsOfSnoc(b);
      Associate(OpsOf(a), OpsOf(b[..|b| - 1]), if e.FileOp? then [e.op] else []);
    }
  }

  lemma OpsOfSnoc(es: seq<Event>)
    requires es != []
    ensures var e := es[|es| - 1]; OpsOf(es) == OpsOf(es[..|es| - 1]) + (if e.FileOp? then [e.op] else [])
  {
  }

  lemma OpsOfNothing(a: seq<Event>, b: seq<Event>)
    requires b == []
    ensures OpsOf(b) == [] && OpsOf(a + b) == OpsOf(a) + OpsOf(b)
  {
    assert a + b == a;
  }

  lemma OpsOfOne(e: Event)
    ensures OpsOf([e]) == if e.FileOp? then [e.op] else []
  {
    assert [e][..0] == [] && OpsOf([e][..0]) == [];
  }

  lemma {:induction false} OpsOfFileOps(ops: seq<Op>)
    ensures OpsOf(FileOps(ops)) == ops
  {
    hide FileOps;
    if ops == [] {
      assert FileOps(ops) == [];
    } else {
      OpsOfFileOps(ops[..|ops| - 1]);
      FileOpsFront(ops);
    }
  }

  /** The events lead from one state to the other. */
  ghost predicate Leads(cfg: Config, s: Sys, es: seq<Event>, t: Sys) {
    Possible(cfg, s, es) && DoAll(cfg, s, es) == t
  }

  lemma LeadsNowhere(cfg: Config, s: Sys)
    ensures Leads(cfg, s, [], s)
  {
  }

  lemma LeadsOn(cfg: Config, s: Sys, a: seq<Event>, t: Sys, b: seq<Event>, u: Sys)
    requires Leads(cfg, s, a, t) && Leads(cfg, t, b, u)
    ensures Leads(cfg, s, a + b, u)
  {
    PossibleJoins(cfg, s, a, b);
  }

  lemma LeadsToInv(cfg: Config, s: Sys, es: seq<Event>, t: Sys)
    requires Inv(cfg, s) && Leads(cfg, s, es, t)
    ensures Inv(cfg, t)
  {
    InvAlways(cfg, s, es);
  }

  lemma LeadsOneMore(cfg: Config, s: Sys, es: seq<Event>, e: Event, t: Sys)
    requires es != [] && es[|es| - 1] == e
    requires Leads(cfg, s, es[..|es| - 1], t) && Enabled(cfg, t, e)
    ensures Leads(cfg, s, es, Do(cfg, t, e))
  {
    hide Enabled, Do;
  }

  /** A recovery stopped anywhere. */
  lemma {:induction false} RecoveryTrace(cfg: Config, s: Sys, ops: seq<Op>)
    requires Inv(cfg, s) && s.memory.None? && Recovering(ops, s.disk)
    ensures Leads(cfg, s, FileOps(ops), s.(disk := ApplyAll(ops, s.disk)))
  {
    hide Chained, Tidy, AtRest, InProgress, Leads, RecoveryStep, Possible, DoAll, ValidConfig, ValidSource;
    if ops == [] {
      LeadsNowhere(cfg, s);
      assert FileOps(ops) == [];
    } else {
      var n := |ops| - 1;
      RecoveryTrace(cfg, s, ops[..n]);
      FileOpsFront(ops);
      LeadsOneMore(cfg, s, FileOps(ops), FileOp(ops[n]), s.(disk := ApplyAll(ops[..n], s.disk)));
    }
  }

  /** The state in which this many operations of writing the run's files have been performed. */
  function StagedSoFar(s: Sys, run: Run, ops: seq<Op>): Sys {
    var t := s.(disk := ApplyAll(ops, s.disk));
    if |ops| == 2 * |FilesToWrite(run)| then t.(memory := None, applied := s.applied + [run])
    else t.(memory := Some(Memory(run, |ops| / 2)))
  }

  /** Writing a run's files, stopped anywhere. */
  lemma {:induction false} StagingTrace(cfg: Config, s: Sys, run: Run, ops: seq<Op>)
    requires Inv(cfg, s) && s.memory == Some(Memory(run, 0)) && run.id in s.disk.runs
    requires GoodFiles(run.id, FilesToWrite(run)) && Writing(FilesToWrite(run), ops)
    ensures Leads(cfg, s, FileOps(ops), StagedSoFar(s, run, ops)) && run.id in ApplyAll(ops, s.disk).runs
  {
    hide Chained, Tidy, AtRest, InProgress, Leads, Possible, DoAll, ValidConfig, ValidSource, FilesToWrite;
    hide GoodFiles, WriteAt;
    if ops == [] {
      LeadsNowhere(cfg, s);
      assert FileOps(ops) == [];
    } else {
      var n := |ops| - 1;
      WritingFront(FilesToWrite(run), ops, n);
      StagingTrace(cfg, s, run, ops[..n]);
      FileOpsFront(ops);
      var t := StagedSoFar(s, run, ops[..n]);
      NextIsStaging(run, FilesToWrite(run), ops, t.disk);
      StagedNext(cfg, s, run, ops);
      LeadsOneMore(cfg, s, FileOps(ops), FileOp(ops[n]), t);
    }
  }

  /** One operation more of the staging. */
  lemma StagedNext(cfg: Config, s: Sys, run: Run, ops: seq<Op>)
    requires ValidConfig(cfg) && ValidSource(cfg.tables, s.source)
    requires s.memory == Some(Memory(run, 0)) && ops != [] && |ops| <= 2 * |FilesToWrite(run)|
    requires StagingStep(ops[|ops| - 1], ApplyAll(ops[..|ops| - 1], s.disk), Memory(run, (|ops| - 1) / 2))
    requires ops[|ops| - 1].Publish? <==> |ops| % 2 == 0
    ensures var t, e := StagedSoFar(s, run, ops[..|ops| - 1]), FileOp(ops[|ops| - 1]);
            Enabled(cfg, t, e) && Do(cfg, t, e) == StagedSoFar(s, run, ops)
  {
    hide ValidConfig, ValidSource, FilesToWrite, StagingStep, Apply;
  }

  lemma NextIsStaging(run: Run, files: seq<File>, ops: seq<Op>, disk: FS)
    requires files == FilesToWrite(run) && GoodFiles(run.id, files) && Writing(files, ops) && ops != []
    requires run.id in disk.runs
    ensures StagingStep(ops[|ops| - 1], disk, Memory(run, (|ops| - 1) / 2))
    ensures Apply(ops[|ops| - 1], disk).runs == disk.runs
    ensures ops[|ops| - 1].Publish? <==> |ops| % 2 == 0
  {
    hide FilesToWrite;
    var n := |ops| - 1;
    assert WriteAt(files, ops, n) && InRun(files[n / 2].path, run.id);
    if n % 2 == 1 { assert WriteAt(files, ops, n - 1) && (n - 1) / 2 == n / 2; }
    TempsStayInRun(ops[n].temp, files[n / 2].path, run.id);
  }

  /** Making the run's directory. */
  lemma MakeTrace(cfg: Config, s: Sys, run: Run)
    requires Inv(cfg, s) && s.memory == Some(Memory(run, 0))
    ensures Leads(cfg, s, [FileOp(MakeRun(run.id))], s.(disk := Apply(MakeRun(run.id), s.disk)))
  {
    hide Chained, Tidy, AtRest, InProgress, Possible, DoAll, ValidConfig, ValidSource, FilesToWrite;
    PossibleOne(cfg, s, FileOp(MakeRun(run.id)));
  }

  /** Reading the source, once nothing is left over. */
  lemma ReadTrace(cfg: Config, s: Sys, run: Run)
    requires Inv(cfg, s) && s.memory.None? && s.disk.runs == {}
    requires Prepare(cfg, Live(s.disk), s.source) == Some(run)
    ensures Leads(cfg, s, [ReadSource], s.(memory := Some(Memory(run, 0)), current := run.id))
  {
    hide Chained, Tidy, AtRest, InProgress, Possible, DoAll, ValidConfig, ValidSource, Prepare;
    PossibleOne(cfg, s, ReadSource);
  }

  lemma LoseTrace(cfg: Config, s: Sys)
    requires Inv(cfg, s)
    ensures Leads(cfg, s, [Lose], s.(memory := None))
  {
    hide Chained, Tidy, AtRest, InProgress, Possible, DoAll, ValidConfig, ValidSource;
    PossibleOne(cfg, s, Lose);
  }
}
