/** The events directory over a history of runs. */
module EventLog {
  import opened Tables
  import opened Checkpoints
  import opened Outputs
  import opened Runs
  import opened System
  import opened Logs
  import opened Reruns
  import opened Identity
  import Json

  lemma EventsLiveInjective(a: string, b: string)
    ensures EventsLive(a) == EventsLive(b) ==> a == b
  {
    if EventsLive(a) == EventsLive(b) {
      assert EventsLive(a)[1] == a + ".jsonl" && EventsLive(b)[1] == b + ".jsonl";
      assert (a + ".jsonl")[..|a|] == a && (b + ".jsonl")[..|b|] == b;
      assert |a| == |b|;
    }
  }

  lemma NotThoseEvents(cfg: Config, run: Run, id: string, o: Output)
    requires Publishable(cfg, run) && id != run.id && o in run.outputs
    ensures o.step.livePath != EventsLive(id)
  {
    hide LakeOutput, ShareOutput, DateKeys, LakeAll, ShareAll, DistinctLive, EventsOutput, CheckpointOutput, ValidSpec;
    LakeAllParts(cfg.tables, run.deltas, run.base, run.id);
    ShareAllParts(cfg, cfg.tables, run.deltas, run.id, run.after);
    EndsAreProper(cfg, run.deltas, run.id, run.after);
    if o in LakeAll(cfg.tables, run.deltas, run.base, run.id) {
      var j, key :| LakePart(cfg.tables, run.deltas, run.base, run.id, o, j, key);
      LakePartPlace(cfg.tables[j], run.deltas[cfg.tables[j].name], key, run.base, run.id);
      assert LakeLive(cfg.tables[j], key)[0] != EventsLive(id)[0];
    } else if o in ShareAll(cfg, cfg.tables, run.deltas, run.id, run.after) {
      var j :| SharePart(cfg, cfg.tables, run.deltas, run.id, run.after, o, j);
      SharePartPlace(cfg, cfg.tables[j], run.deltas[cfg.tables[j].name], run.id, run.after);
      assert ShareLive(cfg.tables[j])[0] != EventsLive(id)[0];
    } else {
      EventsLiveInjective(run.id, id);
      assert CHECKPOINT_LIVE[0] != EventsLive(id)[0];
    }
  }

  /** A run touches no other run's events file. */
  lemma OtherEventsAfter(cfg: Config, run: Run, id: string)
    requires Publishable(cfg, run) && id != run.id
    ensures Unchanged(run.base, After(run), EventsLive(id))
  {
    hide AllOutputs, ValidConfig;
    forall o | o in run.outputs ensures o.step.livePath != EventsLive(id) { NotThoseEvents(cfg, run, id, o); }
    AppliedElsewhere(run.base, run.outputs, EventsLive(id));
  }

  /** A run of the history, as the one it was when it was last. */
  lemma {:induction false} RunAt(cfg: Config, runs: seq<Run>, k: nat)
    requires Chained(cfg, runs) && k < |runs|
    ensures Chained(cfg, runs[..k + 1]) && Chained(cfg, runs[..k])
    ensures Publishable(cfg, runs[k]) && Computed(cfg, runs[k]) && runs[k].before == CheckpointAfter(cfg, runs[..k])
    decreases |runs|
  {
    hide Chained, Publishable, Computed;
    var n := |runs| - 1;
    LastRun(cfg, runs);
    if k < n {
      RunAt(cfg, runs[..n], k);
      assert runs[..n][..k] == runs[..k] && runs[..n][..k + 1] == runs[..k + 1];
    } else {
      assert runs[..k + 1] == runs;
      BeforeIsPrevious(cfg, runs);
    }
  }

  /** Runs that hash the same text are the same but for what they started on: all of them found
      nothing, and they publish the same events. */
  lemma {:induction false} SameInputSameEvents(cfg: Config, runs: seq<Run>, k: nat, j: nat)
    requires Chained(cfg, runs) && k < j < |runs|
    requires Computed(cfg, runs[k]) && Computed(cfg, runs[j]) && HashInput(cfg, runs[k]) == HashInput(cfg, runs[j])
    ensures runs[j].deltas == runs[k].deltas && runs[j].after == runs[k].after && ZeroDelta(cfg.tables, runs[k].deltas)
  {
    hide Chained, Computed, Publishable, Json.Canonical, Payload, Identities, CheckpointAfter;
    RunAt(cfg, runs, k);
    RunAt(cfg, runs, j);
    ComputedHasConfig(cfg, runs[k]);
    ComputedHasConfig(cfg, runs[j]);
    ConfigNames(cfg);
    PayloadExactly(cfg.tables, runs[k].before, runs[k].deltas, runs[j].before, runs[j].deltas);
    forall i | 0 <= i < |cfg.tables|
      ensures cfg.tables[i].name in runs[k].deltas && runs[k].deltas[cfg.tables[i].name] == []
      ensures cfg.tables[i].name in runs[j].deltas && runs[j].deltas[cfg.tables[i].name] == []
    {
      NothingSince(cfg, runs, k, j, i);
      RunBatch(cfg, runs[k], i);
      RunBatch(cfg, runs[j], i);
      var t := cfg.tables[i];
      assert |Identities(t, runs[k].deltas[t.name])| == |Identities(t, runs[j].deltas[t.name])|;
    }
    EmptyBatchesAgree(cfg, runs[k], runs[j]);
    NoRowsOutputs(cfg, runs[k]);
    NoRowsOutputs(cfg, runs[j]);
  }

  /** Two consecutive runs hash the same text exactly when both found nothing. */
  lemma {:induction false} SameTextExactly(cfg: Config, runs: seq<Run>)
    requires Chained(cfg, runs) && |runs| > 1
    ensures Computed(cfg, runs[|runs| - 1]) && Computed(cfg, runs[|runs| - 2])
    ensures HashInput(cfg, runs[|runs| - 1]) == HashInput(cfg, runs[|runs| - 2]) <==>
      ZeroDelta(cfg.tables, runs[|runs| - 1].deltas) && ZeroDelta(cfg.tables, runs[|runs| - 2].deltas)
  {
    hide Chained, Computed, Publishable, Json.Canonical, Payload, CheckpointAfter;
    var n := |runs| - 1;
    RunAt(cfg, runs, n);
    RunAt(cfg, runs, n - 1);
    if HashInput(cfg, runs[n]) == HashInput(cfg, runs[n - 1]) {
      SameInputSameEvents(cfg, runs, n - 1, n);
    }
    if ZeroDelta(cfg.tables, runs[n].deltas) && ZeroDelta(cfg.tables, runs[n - 1].deltas) {
      NoRowsOutputs(cfg, runs[n - 1]);
      LastRun(cfg, runs);
      BeforeIsPrevious(cfg, runs);
      AfterOfLast(cfg, runs[..n], runs[n - 1]);
      EmptyBatchesAgree(cfg, runs[n], runs[n - 1]);
      ComputedHasConfig(cfg, runs[n]);
    }
  }

  lemma AfterOfLast(cfg: Config, runs: seq<Run>, run: Run)
    requires runs != [] && runs[|runs| - 1] == run
    ensures CheckpointAfter(cfg, runs) == run.after
  {
  }

  /** A run that an equal checkpoint follows read no rows. */
  lemma NothingSince(cfg: Config, runs: seq<Run>, k: nat, j: nat, i: nat)
    requires Chained(cfg, runs) && k < j < |runs| && i < |cfg.tables|
    requires Computed(cfg, runs[k]) && Computed(cfg, runs[j]) && runs[k].before == runs[j].before
    ensures Batch(cfg.tables[i].name, runs[k]) == []
  {
    hide Chained, Computed, Publishable, CheckpointAfter, Batch;
    var t := cfg.tables[i];
    RunAt(cfg, runs, k);
    RunAt(cfg, runs, j);
    ComputedHasConfig(cfg, runs[k]);
    MarksNeverMoveBack(cfg, runs[..j], k + 1, i);
    assert runs[..j][..k + 1] == runs[..k + 1];
    assert runs[..k + 1][k] == runs[k];
    LastMark(cfg, runs[..k + 1], t);
    if Batch(t.name, runs[k]) != [] {
      RowsMoveTheCheckpoint(cfg, runs[k], i);
      NotBack(WatermarkOf(runs[k].before, t.name), WatermarkOf(runs[k].after, t.name));
    }
  }

  /** The part of the digest that identities are. */
  ghost function DigestPrefix(cfg: Config, text: string): string
    requires ValidConfig(cfg)
  {
    cfg.digest(text)[..cfg.idLength]
  }

  /** The digest does not collide on what the runs of a history hash. */
  ghost predicate NoCollision(cfg: Config, runs: seq<Run>) {
    && (forall k :: 0 <= k < |runs| ==> Computed(cfg, runs[k]))
    && forall k, j :: 0 <= k < j < |runs| ==>
         (DigestPrefix(cfg, HashInput(cfg, runs[k])) == DigestPrefix(cfg, HashInput(cfg, runs[j])) ==>
            HashInput(cfg, runs[k]) == HashInput(cfg, runs[j]))
  }

  lemma IdIsPrefix(cfg: Config, run: Run)
    requires Computed(cfg, run)
    ensures ValidConfig(cfg) && run.id == DigestPrefix(cfg, HashInput(cfg, run))
  {
    hide Payload, Json.Canonical, ValidConfig, ValidSource, Timed, Fetch, Advance;
  }

  /** Unless the digest collides, two runs of a history have one identity exactly when they started
      from one checkpoint and selected, table by table, the same rows in the same order. */
  lemma {:induction false} IdentityExactly(cfg: Config, runs: seq<Run>, k: nat, j: nat)
    requires NoCollision(cfg, runs) && k < j < |runs|
    ensures runs[k].id == runs[j].id <==> HashInput(cfg, runs[k]) == HashInput(cfg, runs[j])
    ensures runs[k].id == runs[j].id <==>
      runs[k].before == runs[j].before && SameSelection(cfg.tables, runs[k].deltas, runs[j].deltas)
  {
    hide Computed, Json.Canonical, Payload, ValidConfig, Identities, Timed;
    IdIsPrefix(cfg, runs[k]);
    IdIsPrefix(cfg, runs[j]);
    ComputedHasConfig(cfg, runs[k]);
    ComputedHasConfig(cfg, runs[j]);
    ConfigNames(cfg);
    PayloadExactly(cfg.tables, runs[k].before, runs[k].deltas, runs[j].before, runs[j].deltas);
  }

  /** The events file of a run. */
  ghost predicate HoldsEvents(cfg: Config, live: LiveFiles, run: Run) {
    && Publishable(cfg, run) && EventsLive(run.id) in live
    && live[EventsLive(run.id)] == EventsText(cfg, run.deltas, run.id, run.after)
  }

  lemma NoCollisionFront(cfg: Config, runs: seq<Run>)
    requires NoCollision(cfg, runs) && runs != []
    ensures NoCollision(cfg, runs[..|runs| - 1])
  {
    hide Computed, HashInput, DigestPrefix;
  }

  /** Events are never lost: unless the digest collides, every run's events file stays what that run
      wrote, for as long as the service runs; a later run that shares its name writes the same. */
  lemma {:induction false} EventsAreKept(cfg: Config, runs: seq<Run>, k: nat)
    requires Chained(cfg, runs) && NoCollision(cfg, runs) && k < |runs|
    ensures HoldsEvents(cfg, LiveAfter(runs), runs[k])
    decreases |runs|
  {
    hide Chained, Computed, Publishable, EventsText, After, HashInput, EventsLive;
    var n := |runs| - 1;
    LastRun(cfg, runs);
    RunAt(cfg, runs, k);
    EndsAfter(cfg, runs[n]);
    if k < n {
      NoCollisionFront(cfg, runs);
      EventsAreKept(cfg, runs[..n], k);
      IdentityExactly(cfg, runs, k, n);
      if runs[k].id == runs[n].id {
        SameInputSameEvents(cfg, runs, k, n);
      } else {
        OtherEventsAfter(cfg, runs[n], runs[k].id);
      }
    }
  }
}
