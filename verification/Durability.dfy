/** Disks that forget: what a crash may undo without leading anywhere new. */
module Durability {
  import opened Results
  import opened Checkpoints
  import opened Disks
  import opened Staging
  import opened Recovery
  import opened Outputs
  import opened Runs
  import opened System
  import opened Refinement
  import opened Traces
  import opened Logs
  import opened Views
  import Committer
  import Strings

  // ------------------------------------------------------------ a lost suffix

  function WritesOf(es: seq<Event>): seq<Event> {
    if es == [] then []
    else WritesOf(es[..|es| - 1]) + (if es[|es| - 1].SourceWrite? then [es[|es| - 1]] else [])
  }

  /** The service as it was, beside a later source. */
  function Forgotten(s: Sys, src: Snapshots): Sys {
    s.(memory := None, source := src)
  }

  lemma {:induction false} AppliedGrows(cfg: Config, s: Sys, es: seq<Event>)
    requires Inv(cfg, s) && Possible(cfg, s, es)
    ensures var runs := DoAll(cfg, s, es).applied; |s.applied| <= |runs| && runs[..|s.applied|] == s.applied
    decreases |es|
  {
    hide Inv, Enabled, Do, MarksReady;
    if es != [] {
      var front := es[..|es| - 1];
      AppliedGrows(cfg, s, front);
      InvAlways(cfg, s, front);
      StepKeepsInv(cfg, DoAll(cfg, s, front), es[|es| - 1]);
    }
  }

  /** A write that the source may make later it may make earlier. */
  lemma {:induction false} WriteComesEarlier(cfg: Config, s: Sys, mid: Sys, e: Event)
    requires Inv(cfg, s) && Inv(cfg, mid) && e.SourceWrite? && Enabled(cfg, mid, e)
    requires |s.applied| <= |mid.applied| && mid.applied[..|s.applied|] == s.applied
    ensures Inv(cfg, Forgotten(s, mid.source)) && Enabled(cfg, Forgotten(s, mid.source), e)
  {
    hide Inv, Chained, ValidConfig, ValidSource, Tables.ValidRow, Source.PkOf, Source.KeyOf;
    var u := Forgotten(s, mid.source);
    InvHasConfig(cfg, mid);
    OtherSource(cfg, s, mid.source);
    var i, t := e.table, cfg.tables[e.table];
    NewestMark(cfg, u, i);
    NewestMark(cfg, mid, i);
    MarksNeverMoveBack(cfg, mid.applied, |s.applied|, i);
    MarkTransitive(MarkAfter(cfg, s.applied, t), MarkAfter(cfg, mid.applied, t), WatermarkOf(Newest(mid), t.name));
    BeforeWeaken(MarkAfter(cfg, s.applied, t), WatermarkOf(Newest(mid), t.name), Source.KeyOf(t, e.row));
  }

  lemma OtherSource(cfg: Config, s: Sys, src: Snapshots)
    requires Inv(cfg, s) && ValidConfig(cfg) && ValidSource(cfg.tables, src)
    ensures Inv(cfg, Forgotten(s, src)) && Chained(cfg, s.applied)
  {
    hide Chained, Tidy, ValidConfig, ValidSource, InProgress, Committing, Ready, Live, LiveAfter;
    LoseKeepsInv(cfg, s);
  }

  /** A disk that, when the machine stops, forgets any number of its latest operations, because they
      were not yet synced, is in the state of an earlier crash: the source's writes since then lead
      there from that crash, and so nothing new can be reached. */
  lemma {:induction false} LostSuffixIsAnEarlierCrash(cfg: Config, s: Sys, es: seq<Event>)
    requires Inv(cfg, s) && Possible(cfg, s, es)
    ensures Leads(cfg, s, [Lose] + WritesOf(es), Forgotten(s, DoAll(cfg, s, es).source))
    decreases |es|
  {
    hide Inv, Enabled, Do, Leads, SourceMayWrite;
    if es == [] {
      LoseTrace(cfg, s);
      NoWrites();
    } else {
      var front, e := es[..|es| - 1], es[|es| - 1];
      var mid := DoAll(cfg, s, front);
      var u := Forgotten(s, mid.source);
      LostSuffixIsAnEarlierCrash(cfg, s, front);
      if e.SourceWrite? {
        InvAlways(cfg, s, front);
        AppliedGrows(cfg, s, front);
        WriteComesEarlier(cfg, s, mid, e);
        OneWrite(cfg, u, e);
        SameWrite(cfg, u, mid, e);
        LeadsOn(cfg, s, [Lose] + WritesOf(front), u, [e], Do(cfg, u, e));
        Strings.Associate([Lose], WritesOf(front), [e]);
      } else {
        SourceStays(cfg, mid, e);
        Strings.Associate([Lose], WritesOf(front), []);
        Strings.AddNothing([Lose] + WritesOf(front));
      }
    }
  }

  lemma NoWrites()
    ensures [Lose] + WritesOf([]) == [Lose]
  {
  }

  lemma OneWrite(cfg: Config, u: Sys, e: Event)
    requires Enabled(cfg, u, e)
    ensures Leads(cfg, u, [e], Do(cfg, u, e))
  {
    hide Enabled, Do;
    PossibleOne(cfg, u, e);
  }

  lemma SameWrite(cfg: Config, u: Sys, mid: Sys, e: Event)
    requires e.SourceWrite? && Enabled(cfg, u, e) && Enabled(cfg, mid, e) && u.source == mid.source
    ensures Do(cfg, u, e) == u.(source := Do(cfg, mid, e).source)
  {
    hide ValidConfig, ValidSource, SourceMayWrite, Source.PkOf;
  }

  lemma SourceStays(cfg: Config, mid: Sys, e: Event)
    requires Enabled(cfg, mid, e) && !e.SourceWrite?
    ensures Do(cfg, mid, e).source == mid.source
  {
    hide ValidConfig, ValidSource, Prepare, RecoveryStep, StagingStep, FilesToWrite, Apply;
  }

  // ------------------------------------------------------------ lost removals

  /** A disk that keeps any of a cleanup's removals and loses the others is in the state of a cleanup
      that made just those, in some order. */
  lemma {:induction false} AnyRemovalsMayBeLost(cfg: Config, s: Sys, fs: FS) returns (es: seq<Event>)
    requires Inv(cfg, s) && s.memory.None? && s.current in s.disk.runs && Disposable(s.disk, s.current)
    requires Committer.PartlySwept(s.disk, fs, s.current)
    ensures Leads(cfg, s, es, s.(disk := fs))
    decreases |s.disk.files|
  {
    hide Inv, Leads, Disposable, Committer.PartlySwept, InRun, RecoveryStep;
    if p :| p in s.disk.files && p !in fs.files {
      var next := s.(disk := Apply(Unlink(p), s.disk));
      SweptIsInRun(s.disk, fs, s.current, p);
      RemovalIsAStep(cfg, s, p);
      SweptFurther(s.disk, fs, s.current, p);
      var rest := AnyRemovalsMayBeLost(cfg, next, fs);
      es := [FileOp(Unlink(p))] + rest;
      LeadsOn(cfg, s, [FileOp(Unlink(p))], next, rest, s.(disk := fs));
    } else {
      es := [];
      NothingSwept(s.disk, fs, s.current);
      LeadsNowhere(cfg, s);
    }
  }

  lemma SweptIsInRun(fs0: FS, fs: FS, run: string, p: Path)
    requires Committer.PartlySwept(fs0, fs, run) && p in fs0.files && p !in fs.files
    ensures InRun(p, run)
  {
  }

  lemma NothingSwept(fs0: FS, fs: FS, run: string)
    requires Committer.PartlySwept(fs0, fs, run) && forall p :: p in fs0.files ==> p in fs.files
    ensures fs0 == fs
  {
    assert fs0.files == fs.files;
  }

  lemma SweptFurther(fs0: FS, fs: FS, run: string, p: Path)
    requires Committer.PartlySwept(fs0, fs, run) && Disposable(fs0, run)
    requires p in fs0.files && p !in fs.files && InRun(p, run)
    ensures var next := Apply(Unlink(p), fs0);
            && Committer.PartlySwept(next, fs, run) && Disposable(next, run)
            && |next.files| < |fs0.files| && next.runs == fs0.runs
  {
    hide Disposable;
    var next := Apply(Unlink(p), fs0);
    assert fs0.files.Keys == next.files.Keys + {p};
    Committer.SweptNothing(fs0, run);
    Committer.SweptOne(fs0, fs0, run, p);
    Committer.SweptStaysDisposable(fs0, next, run);
  }

  lemma RemovalIsAStep(cfg: Config, s: Sys, p: Path)
    requires Inv(cfg, s) && s.memory.None? && s.current in s.disk.runs && Disposable(s.disk, s.current)
    requires p in s.disk.files && InRun(p, s.current)
    ensures var next := s.(disk := Apply(Unlink(p), s.disk));
            Leads(cfg, s, [FileOp(Unlink(p))], next) && Inv(cfg, next)
  {
    hide Inv, Disposable, Apply, RecoveryStep, Recovering, ApplyAll, Possible, DoAll, FileOps;
    Committer.SweptNothing(s.disk, s.current);
    Committer.UnlinkIsRecovery(s.disk, s.disk, s.current, p);
    RecoveringOne(Unlink(p), s.disk);
    RecoveryTrace(cfg, s, [Unlink(p)]);
    OneFileOp(Unlink(p));
    LeadsToInv(cfg, s, [FileOp(Unlink(p))], s.(disk := Apply(Unlink(p), s.disk)));
  }

  lemma OneFileOp(op: Op)
    ensures FileOps([op]) == [FileOp(op)]
  {
  }
}
