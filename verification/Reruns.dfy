/** Runs that find nothing new: what they leave alone, and why repeating them changes nothing. */
module Reruns {
  import opened Tables
  import opened Checkpoints
  import opened Disks
  import opened Outputs
  import opened Runs
  import opened System
  import opened Logs
  import Json
  import JsonProofs
  import Source
  import Strings

  /** No table had a row to read. */
  predicate ZeroDelta(tables: seq<TableSpec>, deltas: Deltas) {
    forall i :: 0 <= i < |tables| ==> tables[i].name in deltas && deltas[tables[i].name] == []
  }

  lemma {:induction false} NothingAdvances(tables: seq<TableSpec>, cp: Checkpoint, deltas: Deltas)
    requires ZeroDelta(tables, deltas)
    ensures Advance(tables, cp, deltas) == cp
  {
    if tables != [] { NothingAdvances(tables[..|tables| - 1], cp, deltas); }
  }

  lemma {:induction false} NothingForLake(tables: seq<TableSpec>, deltas: Deltas, live: LiveFiles, id: string)
    requires ValidTables(tables) && ValidDeltas(tables, deltas) && TimedDeltas(tables, deltas)
    requires ZeroDelta(tables, deltas)
    ensures LakeAll(tables, deltas, live, id) == []
  {
    hide ValidSpec, ValidRow;
    if tables != [] {
      var n := |tables| - 1;
      NothingForLake(tables[..n], deltas, live, id);
      NoRowsNoPartitions(tables[n], live, id);
    }
  }

  lemma NoRowsNoPartitions(t: TableSpec, live: LiveFiles, id: string)
    requires ValidSpec(t)
    ensures LakeOutputs(t, [], live, id) == []
  {
    assert DateKeys([]) == {};
  }

  lemma {:induction false} NothingForShare(cfg: Config, tables: seq<TableSpec>, deltas: Deltas, id: string,
      after: Checkpoint)
    requires ValidConfig(cfg) && ValidTables(tables) && ValidDeltas(tables, deltas) && ValidCheckpoint(after)
    requires ZeroDelta(tables, deltas)
    ensures ShareAll(cfg, tables, deltas, id, after) == []
  {
    hide ValidSpec, ValidRow, ValidConfig;
    if tables != [] { NothingForShare(cfg, tables[..|tables| - 1], deltas, id, after); }
  }

  /** A run without rows stages its events file and the checkpoint it started from, nothing else. */
  lemma {:induction false} NoRowsOutputs(cfg: Config, run: Run)
    requires Publishable(cfg, run) && Computed(cfg, run) && ZeroDelta(cfg.tables, run.deltas)
    ensures run.after == run.before
    ensures run.outputs == [EventsOutput(cfg, run.deltas, run.id, run.after), CheckpointOutput(run.id, run.after)]
  {
    hide LakeAll, ShareAll, EventsOutput, CheckpointOutput, Advance, Fetch, RunId, LoadCheckpoint, ValidSource;
    hide ValidSpec, ValidRow, Timed;
    NothingAdvances(cfg.tables, run.before, run.deltas);
    NothingForLake(cfg.tables, run.deltas, run.base, run.id);
    NothingForShare(cfg, cfg.tables, run.deltas, run.id, run.after);
  }

  lemma TwoApplied(base: LiveFiles, o: Output, u: Output)
    ensures ApplyOutputs(base, [o, u]) == base[o.step.livePath := o.data][u.step.livePath := u.data]
  {
    assert [o][..0] == [] && ApplyOutputs(base, [o][..0]) == base;
    assert ApplyOutputs(base, [o]) == base[o.step.livePath := o.data];
    assert [o, u][..1] == [o];
  }

  /** What a run without rows does to the live files: its events file and the checkpoint file, as the
      service writes it, and no lake, share or other file. */
  lemma {:induction false} NoRowsLeaves(cfg: Config, run: Run)
    requires Publishable(cfg, run) && Computed(cfg, run) && ZeroDelta(cfg.tables, run.deltas)
    ensures run.after == run.before
    ensures CHECKPOINT_LIVE in After(run) && After(run)[CHECKPOINT_LIVE] == FileText(run.after)
    ensures forall p :: p != EventsLive(run.id) && p != CHECKPOINT_LIVE ==> Unchanged(run.base, After(run), p)
  {
    hide Computed, Publishable, EventsText, FileText, LoadCheckpoint, ApplyOutputs;
    NoRowsOutputs(cfg, run);
    EndsAfter(cfg, run);
    AfterIsValid(cfg, run);
    TwoEnds(cfg, run);
  }

  lemma TwoEnds(cfg: Config, run: Run)
    requires Publishable(cfg, run)
    requires run.outputs == [EventsOutput(cfg, run.deltas, run.id, run.after), CheckpointOutput(run.id, run.after)]
    ensures After(run) == run.base[EventsLive(run.id) := EventsText(cfg, run.deltas, run.id, run.after)]
                                  [CHECKPOINT_LIVE := FileText(run.after)]
  {
    hide EventsText, FileText, AllOutputs, ApplyOutputs;
    TwoApplied(run.base, EventsOutput(cfg, run.deltas, run.id, run.after), CheckpointOutput(run.id, run.after));
  }

  /** No file but this one differs. */
  ghost predicate OnlyDiffersAt(a: LiveFiles, b: LiveFiles, q: Path) {
    forall p :: p != q ==> Unchanged(a, b, p)
  }

  /** Exactly when a run without rows changes nothing but its events file: the live checkpoint file
      already holds the checkpoint in the service's own form. */
  lemma {:induction false} NoRowsChangeNothingExactly(cfg: Config, run: Run)
    requires Publishable(cfg, run) && Computed(cfg, run) && ZeroDelta(cfg.tables, run.deltas)
    ensures ValidCheckpoint(run.before)
    ensures OnlyDiffersAt(run.base, After(run), EventsLive(run.id)) <==>
      CHECKPOINT_LIVE in run.base && run.base[CHECKPOINT_LIVE] == FileText(run.before)
  {
    hide Computed, Publishable, FileText, After, EventsLive;
    NoRowsLeaves(cfg, run);
    AfterIsValid(cfg, run);
    EventsAreNoCheckpoint(run.id);
    assert OnlyDiffersAt(run.base, After(run), EventsLive(run.id)) ==> Unchanged(run.base, After(run), CHECKPOINT_LIVE);
  }

  lemma EventsAreNoCheckpoint(id: string)
    ensures EventsLive(id) != CHECKPOINT_LIVE
  {
    assert EventsLive(id)[0] != CHECKPOINT_LIVE[0];
  }

  /** A first run without rows is not such a run: it creates the checkpoint file. */
  lemma {:induction false} FirstRunCreatesCheckpoint(cfg: Config, runs: seq<Run>)
    requires Chained(cfg, runs) && |runs| == 1 && ZeroDelta(cfg.tables, runs[0].deltas)
    ensures CHECKPOINT_LIVE !in LiveAfter(runs[..0]) && CHECKPOINT_LIVE in LiveAfter(runs)
  {
    hide Chained, Publishable, Computed, After;
    LastRun(cfg, runs);
    EndsAfter(cfg, runs[0]);
  }

  /** For instance a service that is installed beside empty tables. */
  lemma {:induction false} EmptySourceExample(cfg: Config, src: Snapshots)
    requires ValidConfig(cfg) && ValidSource(cfg.tables, src)
    requires forall i :: 0 <= i < |cfg.tables| ==> src[cfg.tables[i].name] == map[]
    ensures Prepare(cfg, map[], src).Some?
    ensures var run := Prepare(cfg, map[], src).value;
            ZeroDelta(cfg.tables, run.deltas) && CHECKPOINT_LIVE !in run.base && CHECKPOINT_LIVE in After(run)
  {
    hide LoadFile, Fetch, Advance, RunId, AllOutputs, After, Publishable, ValidConfig, ValidSource, Source.Delta;
    InitialMark(cfg, TableSpec("", "", [], "", ""));
    var run := Prepare(cfg, map[], src).value;
    assert Prepared(cfg, run);
    PreparedParts(cfg, run);
    forall i | 0 <= i < |cfg.tables| ensures cfg.tables[i].name in run.deltas && run.deltas[cfg.tables[i].name] == [] {
      RunBatch(cfg, run, i);
      NothingToRead(cfg.tables[i], WatermarkOf(run.before, cfg.tables[i].name));
    }
    EndsAfter(cfg, run);
  }

  lemma NothingToRead(t: TableSpec, w: Watermark)
    ensures Source.Delta(t, map[], w) == []
  {
    assert Source.Matching(t, map[], w) == map[];
  }

  /** Nor is a run on a checkpoint file that someone wrote in compact form: it loads, and is written
      again in the service's form. */
  lemma {:induction false} CompactCheckpointExample(cfg: Config, cp: Checkpoint, live: LiveFiles)
    requires ValidCheckpoint(cp)
    requires CHECKPOINT_LIVE in live && live[CHECKPOINT_LIVE] == Json.Canonical(ToDict(cp))
    ensures LoadCheckpoint(cfg, live) == Usable(cp) && live[CHECKPOINT_LIVE] != FileText(cp)
  {
    hide Json.Canonical, Json.Load, EntriesFrom, Json.NormalizeFields, EntryFields, Json.PrintTo;
    JsonProofs.LoadDumped(ToDict(cp));
    NormalizedObj(ToDict(cp).fields);
    DictRoundTrip(cp);
    JsonProofs.CanonicalIsOneLine(ToDict(cp));
    EndsInNewline(Json.PrintTo(Json.Indented, 0, ToDict(cp), ""));
  }

  lemma EndsInNewline(s: string)
    ensures !Strings.Free('\n', s + "\n")
  {
    assert (s + "\n")[|s|] == '\n';
  }

  /** After any other run a run without rows leaves every file but its events file byte for byte as
      it was, the checkpoint included. */
  lemma {:induction false} NoRowsAfter(cfg: Config, runs: seq<Run>)
    requires Chained(cfg, runs) && |runs| > 1 && ZeroDelta(cfg.tables, runs[|runs| - 1].deltas)
    ensures var run := runs[|runs| - 1];
            && run.after == run.before && Publishable(cfg, run)
            && OnlyDiffersAt(LiveAfter(runs[..|runs| - 1]), LiveAfter(runs), EventsLive(run.id))
  {
    hide Chained, Computed, FileText, Publishable, LoadCheckpoint, EventsLive, After;
    var n := |runs| - 1;
    LastRun(cfg, runs);
    LastRun(cfg, runs[..n]);
    assert runs[..n][n - 1] == runs[n - 1];
    BeforeIsPrevious(cfg, runs);
    EndsAfter(cfg, runs[n - 1]);
    NoRowsLeaves(cfg, runs[n]);
    NoRowsChangeNothingExactly(cfg, runs[n]);
  }

  lemma {:induction false} FetchNames(tables: seq<TableSpec>, cp: Checkpoint, src: Snapshots)
    requires ValidSource(tables, src)
    ensures Fetch(tables, cp, src).Keys == TableNames(tables)
  {
    hide Source.Delta, Source.ValidSnapshot;
    if tables != [] {
      var n := |tables| - 1;
      FetchNames(tables[..n], cp, src);
      NamesGrow(tables);
    } else {
      assert TableNames(tables) == {};
    }
  }

  lemma NamesGrow(tables: seq<TableSpec>)
    requires tables != []
    ensures TableNames(tables) == TableNames(tables[..|tables| - 1]) + {tables[|tables| - 1].name}
  {
    var n := |tables| - 1;
    forall x ensures x in TableNames(tables) <==> x in TableNames(tables[..n]) + {tables[n].name} {
      if x in TableNames(tables) {
        var i :| 0 <= i < |tables| && tables[i].name == x;
        assert i < n ==> tables[..n][i].name == x;
      }
      if x in TableNames(tables[..n]) {
        var i :| 0 <= i < n && tables[..n][i].name == x;
        assert tables[i].name == x;
      }
    }
  }

  /** The empty batches of two runs are one and the same value. */
  lemma EmptyBatchesAgree(cfg: Config, a: Run, b: Run)
    requires Computed(cfg, a) && Computed(cfg, b) && ZeroDelta(cfg.tables, a.deltas) && ZeroDelta(cfg.tables, b.deltas)
    ensures a.deltas == b.deltas
  {
    hide Fetch, Advance, RunId, LoadCheckpoint, ValidSource, Timed;
    FetchNames(cfg.tables, a.before, a.snapshot);
    FetchNames(cfg.tables, b.before, b.snapshot);
    forall k | k in a.deltas ensures a.deltas[k] == b.deltas[k] {
      var i :| 0 <= i < |cfg.tables| && cfg.tables[i].name == k;
    }
  }

  /** No-op fixed point: of two consecutive runs that find nothing, the second has the identity of
      the first and leaves every live file, the events file included, exactly as it was. */
  lemma {:induction false} NoOpFixedPoint(cfg: Config, runs: seq<Run>)
    requires Chained(cfg, runs) && |runs| > 1
    requires ZeroDelta(cfg.tables, runs[|runs| - 1].deltas) && ZeroDelta(cfg.tables, runs[|runs| - 2].deltas)
    ensures runs[|runs| - 1].id == runs[|runs| - 2].id
    ensures LiveAfter(runs) == LiveAfter(runs[..|runs| - 1])
  {
    hide Chained, Computed, EventsText, FileText, Publishable, RunId, After;
    var n := |runs| - 1;
    var run, earlier := runs[n], runs[n - 1];
    LastRun(cfg, runs);
    LastRun(cfg, runs[..n]);
    assert runs[..n][n - 1] == earlier;
    BeforeIsPrevious(cfg, runs);
    NoRowsOutputs(cfg, earlier);
    NoRowsAfter(cfg, runs);
    EmptyBatchesAgree(cfg, run, earlier);
    SameIdentity(cfg, run, earlier);
    EndsAfter(cfg, earlier);
    EndsAfter(cfg, run);
    SameFiles(LiveAfter(runs[..n]), LiveAfter(runs));
  }

  lemma SameFiles(a: LiveFiles, b: LiveFiles)
    requires forall p :: Unchanged(a, b, p)
    ensures a == b
  {
    assert forall p :: p in a <==> p in b by {
      forall p ensures p in a <==> p in b { assert Unchanged(a, b, p); }
    }
    forall p | p in a ensures a[p] == b[p] { assert Unchanged(a, b, p); }
  }

  lemma SameIdentity(cfg: Config, a: Run, b: Run)
    requires Computed(cfg, a) && Computed(cfg, b) && a.before == b.before && a.deltas == b.deltas
    ensures a.id == b.id && a.after == b.after
  {
    hide Fetch, RunId, Advance, LoadCheckpoint, ValidSource, ValidConfig, Timed;
  }

  /** A run with rows for a table leaves a later watermark than it started from. */
  lemma RowsMoveTheCheckpoint(cfg: Config, run: Run, i: nat)
    requires Computed(cfg, run) && i < |cfg.tables| && Batch(cfg.tables[i].name, run) != []
    ensures Before(WatermarkOf(run.before, cfg.tables[i].name), WatermarkOf(run.after, cfg.tables[i].name))
    ensures run.after != run.before
  {
    hide Fetch, RunId, Advance, LoadCheckpoint, Source.Delta, Source.KeyedByPk, Source.ValidSnapshot, Source.KeyOf;
    hide Timed, ValidRow, Source.PkOf;
    var t := cfg.tables[i];
    RunBatch(cfg, run, i);
    var rows := Batch(t.name, run);
    DeltaRowsValid(t, run.snapshot[t.name], WatermarkOf(run.before, t.name));
    assert Before(WatermarkOf(run.before, t.name), Source.KeyOf(t, rows[|rows| - 1]));
  }
}
