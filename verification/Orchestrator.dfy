/** One ingest run, end to end, over a disk that may stop at any operation. */
module Orchestrator {
  import opened Strings
  import opened Json
  import opened Results
  import opened Tables
  import opened Checkpoints
  import opened Disks
  import opened Staging
  import opened Recovery
  import opened Writes
  import opened Outputs
  import opened Runs
  import opened System
  import opened Refinement
  import opened Traces
  import opened Logs
  import opened Manifests
  import CheckpointAdvance
  import CheckpointStore
  import Committer
  import EventWriter
  import Jsonl
  import LakeWriter
  import ShareWriter
  import Source

  // ------------------------------------------------------------ fetching

  lemma SourceFront(tables: seq<TableSpec>, src: Snapshots, i: nat)
    requires ValidSource(tables, src) && i <= |tables|
    ensures ValidSource(tables[..i], src)
    ensures i < |tables| ==> tables[i].name in src && Source.KeyedByPk(tables[i], src[tables[i].name])
  {
  }

  /** `_fetch_deltas`. */
  method FetchDeltas(tables: seq<TableSpec>, cp: Checkpoint, src: Snapshots) returns (deltas: Deltas)
    requires ValidSource(tables, src)
    ensures deltas == Fetch(tables, cp, src)
  {
    hide Source.Delta, ValidSource, Source.KeyedByPk;
    deltas := map[];
    SourceFront(tables, src, 0);
    for i := 0 to |tables|
      invariant ValidSource(tables[..i], src)
      invariant deltas == Fetch(tables[..i], cp, src)
    {
      SourceFront(tables, src, i);
      SourceFront(tables, src, i + 1);
      assert tables[..i + 1][..i] == tables[..i];
      deltas := deltas[tables[i].name := Source.Delta(tables[i], src[tables[i].name], WatermarkOf(cp, tables[i].name))];
    }
    assert tables[..|tables|] == tables;
  }

  // ------------------------------------------------------------ events and manifest

  /** `_build_events`. */
  method BuildEvents(cfg: Config, deltas: Deltas, id: string, after: Checkpoint) returns (out: seq<Json>)
    requires ValidConfig(cfg) && ValidDeltas(cfg.tables, deltas) && ValidCheckpoint(after)
    ensures out == EventJsons(cfg, cfg.tables, deltas, id, after)
  {
    hide EventJson, ValidSpec, ValidRow;
    out := [];
    ghost var all := EventJsons(cfg, cfg.tables, deltas, id, after);
    for i := 0 to |cfg.tables|
      invariant out == all[..i]
    {
      out := out + [EventJson(cfg, cfg.tables[i], deltas[cfg.tables[i].name], id, after)];
    }
  }

  /** `_build_manifest`. */
  method BuildManifest(cfg: Config, d: Decision, dryRun: bool) returns (m: Manifest)
    requires Reportable(cfg, d)
    ensures m == ManifestOf(cfg, d, dryRun)
  {
    hide TableManifestOf, ValidSpec, ValidRow, ToDict;
    var tables := [];
    ghost var all := TableManifests(cfg, d.deltas);
    for i := 0 to |cfg.tables|
      invariant tables == all[..i]
    {
      tables := tables + [TableManifestOf(cfg, cfg.tables[i], d.deltas[cfg.tables[i].name])];
    }
    return Manifest(d.id, dryRun, ToDict(d.before), ToDict(d.after), tables);
  }

  // ------------------------------------------------------------ staging every output

  lemma StepsJoin(a: seq<Output>, b: seq<Output>)
    ensures Steps(a + b) == Steps(a) + Steps(b) && FilesOf(a + b) == FilesOf(a) + FilesOf(b)
  {
  }

  /** The plan steps for the staged partitions are those of the lake outputs. */
  lemma PartitionSteps(t: TableSpec, rows: seq<Row>, keys: seq<string>, live: LiveFiles, id: string, i: nat)
    requires ValidSpec(t) && ValidRows(t, rows) && Timed(rows) && i < |keys|
    ensures Steps(LakeOutputsFor(t, rows, keys, live, id))[i]
         == CommitStep(Staged(id, LakeLive(t, keys[i])), LakeLive(t, keys[i]), "lake:" + t.name + ":" + keys[i])
  {
    LakeOutputAt(t, rows, keys, live, id, i);
    OnDateValid(t, rows, keys[i]);
  }

  ghost predicate Stageable(cfg: Config, deltas: Deltas, after: Checkpoint) {
    ValidConfig(cfg) && ValidDeltas(cfg.tables, deltas) && TimedDeltas(cfg.tables, deltas) && ValidCheckpoint(after)
  }

  lemma StageableAt(cfg: Config, deltas: Deltas, after: Checkpoint, i: nat)
    requires Stageable(cfg, deltas, after) && i <= |cfg.tables|
    ensures ValidTables(cfg.tables[..i]) && ValidDeltas(cfg.tables[..i], deltas) && TimedDeltas(cfg.tables[..i], deltas)
    ensures i < |cfg.tables| ==>
      var t := cfg.tables[i];
      ValidSpec(t) && t.name in deltas && ValidRows(t, deltas[t.name]) && Timed(deltas[t.name])
  {
    hide ValidSpec, ValidRow, Timed;
  }

  lemma LakeAllGrows(cfg: Config, deltas: Deltas, after: Checkpoint, live: LiveFiles, id: string, i: nat)
    requires Stageable(cfg, deltas, after) && i < |cfg.tables|
    requires ValidTables(cfg.tables[..i]) && ValidDeltas(cfg.tables[..i], deltas)
    requires TimedDeltas(cfg.tables[..i], deltas)
    requires ValidTables(cfg.tables[..i + 1]) && ValidDeltas(cfg.tables[..i + 1], deltas)
    requires TimedDeltas(cfg.tables[..i + 1], deltas)
    ensures LakeAll(cfg.tables[..i + 1], deltas, live, id)
         == LakeAll(cfg.tables[..i], deltas, live, id)
          + LakeOutputs(cfg.tables[i], deltas[cfg.tables[i].name], live, id)
  {
    hide LakeOutputs, ValidSpec, ValidRow, Timed;
    assert cfg.tables[..i + 1][..i] == cfg.tables[..i];
  }

  lemma ShareAllGrows(cfg: Config, deltas: Deltas, after: Checkpoint, id: string, i: nat)
    requires Stageable(cfg, deltas, after) && i < |cfg.tables|
    requires ValidTables(cfg.tables[..i]) && ValidDeltas(cfg.tables[..i], deltas)
    requires ValidTables(cfg.tables[..i + 1]) && ValidDeltas(cfg.tables[..i + 1], deltas)
    ensures ShareAll(cfg, cfg.tables[..i + 1], deltas, id, after)
         == ShareAll(cfg, cfg.tables[..i], deltas, id, after)
          + ShareOutputs(cfg, cfg.tables[i], deltas[cfg.tables[i].name], id, after)
  {
    hide ShareOutputs, ValidSpec, ValidRow;
    assert cfg.tables[..i + 1][..i] == cfg.tables[..i];
  }

  lemma {:induction false} LakeAllPrefix(tables: seq<TableSpec>, deltas: Deltas, live: LiveFiles,
      id: string, i: nat)
    requires ValidTables(tables) && ValidDeltas(tables, deltas) && TimedDeltas(tables, deltas) && i <= |tables|
    ensures LakeAll(tables[..i], deltas, live, id) <= LakeAll(tables, deltas, live, id)
    decreases |tables|
  {
    hide LakeOutputs, ValidSpec, ValidRow, Timed;
    if i < |tables| {
      var n := |tables| - 1;
      LakeAllPrefix(tables[..n], deltas, live, id, i);
      assert tables[..n][..i] == tables[..i];
    } else {
      assert tables[..i] == tables;
    }
  }

  lemma {:induction false} ShareAllPrefix(cfg: Config, tables: seq<TableSpec>, deltas: Deltas, id: string,
      after: Checkpoint, i: nat)
    requires ValidConfig(cfg) && ValidTables(tables) && ValidDeltas(tables, deltas) && ValidCheckpoint(after)
    requires i <= |tables|
    ensures ShareAll(cfg, tables[..i], deltas, id, after) <= ShareAll(cfg, tables, deltas, id, after)
    decreases |tables|
  {
    hide ShareOutputs, ValidSpec, ValidRow;
    if i < |tables| {
      var n := |tables| - 1;
      ShareAllPrefix(cfg, tables[..n], deltas, id, after, i);
      assert tables[..n][..i] == tables[..i];
    } else {
      assert tables[..i] == tables;
    }
  }

  /** Some of the outputs written, and no more. */
  lemma WrotePrefix(a: seq<Output>, b: seq<Output>, log0: seq<Op>, fs0: FS, log: seq<Op>, fs: FS)
    requires Wrote(FilesOf(a), log0, fs0, log, fs) && a <= b
    ensures Wrote(FilesOf(b), log0, fs0, log, fs)
  {
    hide Wrote;
    assert b == a + b[|a|..];
    StepsJoin(a, b[|a|..]);
    WroteOnly(FilesOf(a), FilesOf(b[|a|..]), log0, fs0, log, fs);
  }

  /** These outputs written after those. */
  lemma WroteMore(a: seq<Output>, b: seq<Output>, log0: seq<Op>, fs0: FS, log1: seq<Op>, fs1: FS, log: seq<Op>, fs: FS)
    requires WroteAll(FilesOf(a), log0, fs0, log1, fs1) && Wrote(FilesOf(b), log1, fs1, log, fs)
    ensures Wrote(FilesOf(a + b), log0, fs0, log, fs) && Live(fs) == Live(fs0)
    ensures WroteAll(FilesOf(b), log1, fs1, log, fs) ==> WroteAll(FilesOf(a + b), log0, fs0, log, fs)
  {
    hide WroteAll;
    StepsJoin(a, b);
    WroteThen(FilesOf(a), FilesOf(b), log0, fs0, log1, fs1, log, fs);
    WroteLive(FilesOf(a + b), log0, fs0, log, fs);
  }

  /** The lake part of `_stage_outputs`. */
  method StageLake(disk: Disk, cfg: Config, id: string, deltas: Deltas,
      ghost after: Checkpoint) returns (r: Outcome<seq<CommitStep>>)
    requires Stageable(cfg, deltas, after)
    modifies disk
    ensures var os := LakeAll(cfg.tables, deltas, Live(old(disk.fs)), id);
            && Wrote(FilesOf(os), old(disk.log), old(disk.fs), disk.log, disk.fs)
            && (r.Done? ==> WroteAll(FilesOf(os), old(disk.log), old(disk.fs), disk.log, disk.fs))
            && (r.Done? ==> r.value == Steps(os))
    ensures !r.Raised? && (r.Dead? ==> disk.fuel == 0)
    ensures disk.fuel + |disk.log| == old(disk.fuel) + |old(disk.log)|
  {
    hide LakeOutputs, LakeOutputsFor, Wrote, WroteAll, ValidSpec, ValidRow, Timed, LakeAll, FilesOf, Stageable;
    hide Steps, LakeWriter.StagedPartition, DateKeys, SortedKeys, LakeLive, Staged;
    ghost var live := Live(disk.fs);
    var steps: seq<CommitStep> := [];
    StageableAt(cfg, deltas, after, 0);
    StageableIsValid(cfg, deltas, after);
    NoLake(cfg.tables[..0], deltas, live, id);
    WroteNothing(disk.log, disk.fs);
    for i := 0 to |cfg.tables|
      invariant ValidTables(cfg.tables[..i]) && ValidDeltas(cfg.tables[..i], deltas)
      invariant TimedDeltas(cfg.tables[..i], deltas)
      invariant WroteAll(FilesOf(LakeAll(cfg.tables[..i], deltas, live, id)),
                  old(disk.log), old(disk.fs), disk.log, disk.fs)
      invariant disk.fuel + |disk.log| == old(disk.fuel) + |old(disk.log)|
      invariant Live(disk.fs) == live && steps == Steps(LakeAll(cfg.tables[..i], deltas, live, id))
    {
      var t := cfg.tables[i];
      StageableAt(cfg, deltas, after, i);
      StageableAt(cfg, deltas, after, i + 1);
      LakeAllGrows(cfg, deltas, after, live, id, i);
      ghost var log1, fs1 := disk.log, disk.fs;
      var staged := LakeWriter.StagePartitions(disk, t, deltas[t.name], id);
      ghost var before := LakeAll(cfg.tables[..i], deltas, live, id);
      WroteMore(before, LakeOutputs(t, deltas[t.name], live, id), old(disk.log), old(disk.fs), log1, fs1, disk.log,
          disk.fs);
      if staged.Dead? {
        LakeAllPrefix(cfg.tables, deltas, live, id, i + 1);
        WrotePrefix(LakeAll(cfg.tables[..i + 1], deltas, live, id), LakeAll(cfg.tables, deltas, live, id),
            old(disk.log), old(disk.fs), disk.log, disk.fs);
        return Dead;
      }
      StepsJoin(before, LakeOutputs(t, deltas[t.name], live, id));
      var more := PlanPartitions(t, staged.value, deltas[t.name], live, id);
      steps := steps + more;
    }
    assert cfg.tables[..|cfg.tables|] == cfg.tables;
    WroteIsWroteAll(FilesOf(LakeAll(cfg.tables, deltas, live, id)), old(disk.log), old(disk.fs), disk.log, disk.fs);
    return Done(steps);
  }

  lemma NoLake(tables: seq<TableSpec>, deltas: Deltas, live: LiveFiles, id: string)
    requires tables == []
    ensures LakeAll(tables, deltas, live, id) == [] && FilesOf([]) == [] && Steps([]) == []
  {
  }

  lemma NoShare(cfg: Config, tables: seq<TableSpec>, deltas: Deltas, id: string, after: Checkpoint)
    requires ValidConfig(cfg) && ValidCheckpoint(after) && tables == []
    ensures ShareAll(cfg, tables, deltas, id, after) == [] && FilesOf([]) == [] && Steps([]) == []
  {
  }

  /** One plan step for each staged partition. */
  method PlanPartitions(t: TableSpec, parts: seq<LakeWriter.StagedLakePartition>, ghost rows: seq<Row>,
      ghost live: LiveFiles, id: string)
    returns (steps: seq<CommitStep>)
    requires ValidSpec(t) && ValidRows(t, rows) && Timed(rows)
    requires parts == LakeWriter.StagedPartitions(t, rows, SortedKeys(DateKeys(rows)), id)
    ensures steps == Steps(LakeOutputs(t, rows, live, id))
  {
    hide LakeOutput, LakeOutputsFor, OnDate, DateKeys, SortedKeys, ValidSpec, ValidRow, Timed, LakeLive, Staged;
    ghost var keys := SortedKeys(DateKeys(rows));
    ghost var all := Steps(LakeOutputs(t, rows, live, id));
    steps := [];
    for i := 0 to |parts|
      invariant steps == all[..i]
    {
      PartitionSteps(t, rows, keys, live, id, i);
      steps := steps + [CommitStep(parts[i].stagedPath, parts[i].livePath, "lake:" + t.name + ":" + parts[i].dateKey)];
    }
  }

  /** The share part of `_stage_outputs`. */
  method StageShares(disk: Disk, cfg: Config, id: string, deltas: Deltas,
      after: Checkpoint) returns (r: Outcome<seq<CommitStep>>)
    requires Stageable(cfg, deltas, after)
    modifies disk
    ensures var os := ShareAll(cfg, cfg.tables, deltas, id, after);
            && Wrote(FilesOf(os), old(disk.log), old(disk.fs), disk.log, disk.fs)
            && (r.Done? ==> WroteAll(FilesOf(os), old(disk.log), old(disk.fs), disk.log, disk.fs))
            && (r.Done? ==> r.value == Steps(os))
    ensures !r.Raised? && (r.Dead? ==> disk.fuel == 0)
    ensures disk.fuel + |disk.log| == old(disk.fuel) + |old(disk.log)|
  {
    hide ShareOutputs, Wrote, WroteAll, ValidSpec, ValidRow, Timed, ShareAll, FilesOf, Stageable, Steps, ShareLive;
    hide Staged, ValidConfig, ShareText, Jsonl.CountsLines, Live, Follows;
    var steps: seq<CommitStep> := [];
    StageableAt(cfg, deltas, after, 0);
    StageableIsValid(cfg, deltas, after);
    NoShare(cfg, cfg.tables[..0], deltas, id, after);
    WroteNothing(disk.log, disk.fs);
    for i := 0 to |cfg.tables|
      invariant ValidTables(cfg.tables[..i]) && ValidDeltas(cfg.tables[..i], deltas)
      invariant WroteAll(FilesOf(ShareAll(cfg, cfg.tables[..i], deltas, id, after)),
                  old(disk.log), old(disk.fs), disk.log, disk.fs)
      invariant disk.fuel + |disk.log| == old(disk.fuel) + |old(disk.log)|
      invariant steps == Steps(ShareAll(cfg, cfg.tables[..i], deltas, id, after))
    {
      var t := cfg.tables[i];
      StageableAt(cfg, deltas, after, i);
      StageableAt(cfg, deltas, after, i + 1);
      ShareAllGrows(cfg, deltas, after, id, i);
      ghost var log1, fs1 := disk.log, disk.fs;
      var staged := ShareWriter.StageShare(disk, cfg, t, deltas[t.name], id, after);
      ghost var before := ShareAll(cfg, cfg.tables[..i], deltas, id, after);
      ghost var here := ShareOutputs(cfg, t, deltas[t.name], id, after);
      WroteMore(before, here, old(disk.log), old(disk.fs), log1, fs1, disk.log, disk.fs);
      if staged.Dead? {
        ShareAllPrefix(cfg, cfg.tables, deltas, id, after, i + 1);
        WrotePrefix(ShareAll(cfg, cfg.tables[..i + 1], deltas, id, after), ShareAll(cfg, cfg.tables, deltas, id,
            after), old(disk.log), old(disk.fs), disk.log, disk.fs);
        return Dead;
      }
      StepsJoin(before, here);
      ShareSteps(cfg, t, deltas[t.name], id, after);
      if staged.value.Some? {
        steps := steps + [CommitStep(staged.value.value.stagedPath, staged.value.value.livePath, "share:" + t.name)];
      }
    }
    assert cfg.tables[..|cfg.tables|] == cfg.tables;
    WroteIsWroteAll(FilesOf(ShareAll(cfg, cfg.tables, deltas, id, after)), old(disk.log), old(disk.fs), disk.log,
        disk.fs);
    return Done(steps);
  }

  lemma StageableIsValid(cfg: Config, deltas: Deltas, after: Checkpoint)
    requires Stageable(cfg, deltas, after)
    ensures ValidConfig(cfg) && ValidCheckpoint(after)
    ensures ValidTables(cfg.tables) && ValidDeltas(cfg.tables, deltas) && TimedDeltas(cfg.tables, deltas)
  {
  }

  lemma ShareSteps(cfg: Config, t: TableSpec, rows: seq<Row>, id: string, after: Checkpoint)
    requires ValidConfig(cfg) && ValidSpec(t) && ValidRows(t, rows) && ValidCheckpoint(after)
    ensures Steps(ShareOutputs(cfg, t, rows, id, after))
         == if rows == [] then [] else [CommitStep(Staged(id, ShareLive(t)), ShareLive(t), "share:" + t.name)]
  {
    hide ShareText;
  }

  lemma OneOutput(o: Output)
    ensures FilesOf([o]) == [File(o.step.stagedPath, o.data)] && Steps([o]) == [o.step]
  {
  }

  lemma EndFiles(cfg: Config, id: string, deltas: Deltas, after: Checkpoint)
    requires Stageable(cfg, deltas, after)
    ensures FilesOf([EventsOutput(cfg, deltas, id, after)])
         == [File(Staged(id, EventsLive(id)), Jsonl.Text(EventJsons(cfg, cfg.tables, deltas, id, after)))]
    ensures FilesOf([CheckpointOutput(id, after)]) == [File(Staged(id, CHECKPOINT_LIVE), FileText(after))]
    ensures Steps([EventsOutput(cfg, deltas, id, after)])
         == [CommitStep(Staged(id, EventsLive(id)), EventsLive(id), "events")]
    ensures Steps([CheckpointOutput(id, after)])
         == [CommitStep(Staged(id, CHECKPOINT_LIVE), CHECKPOINT_LIVE, "checkpoint")]
  {
    hide EventJsons, FileText, ValidSpec, ValidRow, Staged, EventsLive, FilesOf, Steps, ValidConfig, Timed;
    OneOutput(EventsOutput(cfg, deltas, id, after));
    OneOutput(CheckpointOutput(id, after));
  }

  /** `_stage_outputs`: every output is staged, lake first and checkpoint last, and the plan lists
      them in that order. */
  method StageOutputs(disk: Disk, cfg: Config, id: string, deltas: Deltas,
      after: Checkpoint) returns (r: Outcome<seq<CommitStep>>)
    requires Stageable(cfg, deltas, after)
    modifies disk
    ensures var os := AllOutputs(cfg, Live(old(disk.fs)), id, deltas, after);
            && Wrote(FilesOf(os), old(disk.log), old(disk.fs), disk.log, disk.fs)
            && (r.Done? ==> WroteAll(FilesOf(os), old(disk.log), old(disk.fs), disk.log, disk.fs))
            && (r.Done? ==> r.value == Steps(os))
    ensures !r.Raised? && (r.Dead? ==> disk.fuel == 0)
    ensures disk.fuel + |disk.log| == old(disk.fuel) + |old(disk.log)|
  {
    hide Wrote, WroteAll, LakeAll, ShareAll, EventsOutput, CheckpointOutput, Stageable, FilesOf, Steps, EventJsons;
    hide EventsLive, Staged, FileText;
    StageableIsValid(cfg, deltas, after);
    EndFiles(cfg, id, deltas, after);
    ghost var lake, share := LakeAll(cfg.tables, deltas, Live(disk.fs), id), ShareAll(cfg, cfg.tables, deltas, id,
        after);
    ghost var events, checkpoint := EventsOutput(cfg, deltas, id, after), CheckpointOutput(id, after);
    ghost var all := lake + share + [events, checkpoint];
    assert all == lake + share + [events] + [checkpoint];
    var lakeSteps := StageLake(disk, cfg, id, deltas, after);
    if lakeSteps.Dead? {
      WrotePrefix(lake, all, old(disk.log), old(disk.fs), disk.log, disk.fs);
      return Dead;
    }
    ghost var log1, fs1 := disk.log, disk.fs;
    var shareSteps := StageShares(disk, cfg, id, deltas, after);
    WroteMore(lake, share, old(disk.log), old(disk.fs), log1, fs1, disk.log, disk.fs);
    if shareSteps.Dead? {
      WrotePrefix(lake + share, all, old(disk.log), old(disk.fs), disk.log, disk.fs);
      return Dead;
    }
    var jsons := BuildEvents(cfg, deltas, id, after);
    ghost var log2, fs2 := disk.log, disk.fs;
    var staged := EventWriter.StageEvents(disk, jsons, id);
    WroteMore(lake + share, [events], old(disk.log), old(disk.fs), log2, fs2, disk.log, disk.fs);
    if staged.Dead? {
      WrotePrefix(lake + share + [events], all, old(disk.log), old(disk.fs), disk.log, disk.fs);
      return Dead;
    }
    ghost var log3, fs3 := disk.log, disk.fs;
    var last := CheckpointStore.Stage(disk, after, id);
    WroteMore(lake + share + [events], [checkpoint], old(disk.log), old(disk.fs), log3, fs3, disk.log, disk.fs);
    if last.Dead? {
      return Dead;
    }
    StepsJoin(lake, share);
    StepsJoin(lake + share, [events]);
    StepsJoin(lake + share + [events], [checkpoint]);
    return Done(lakeSteps.value + shareSteps.value
      + [CommitStep(staged.value.stagedPath, staged.value.livePath, "events"),
         CommitStep(Staged(id, CHECKPOINT_LIVE), CHECKPOINT_LIVE, "checkpoint")]);
  }

  // ------------------------------------------------------------ staging a run

  lemma PublishableIsStageable(cfg: Config, run: Run)
    requires Publishable(cfg, run)
    ensures Stageable(cfg, run.deltas, run.after)
    ensures run.outputs == AllOutputs(cfg, run.base, run.id, run.deltas, run.after)
  {
    hide AllOutputs;
  }

  lemma FilesInOrder(run: Run)
    requires SaneRun(run)
    ensures FilesToWrite(run)
         == FilesOf(run.outputs) + [File(PlanPath(run.id), PlanText(Steps(run.outputs)))]
          + [File(ReadyPath(run.id), READY_TEXT)]
    ensures InRun(PlanPath(run.id), run.id) && InRun(ReadyPath(run.id), run.id)
    ensures PlanPath(run.id) != ReadyPath(run.id) && !IsTemp(PlanPath(run.id)) && ValidSteps(Steps(run.outputs))
  {
    hide PlanText, AllProper, DistinctLive, SanePlan;
    JournalPaths(run.id);
    assert PlanPath(run.id)[3][0] != '.';
  }

  /** Everything up to READY: the directory, every output, the plan, the marker. Nothing live moves. */
  method StageRun(disk: Disk, cfg: Config, id: string, deltas: Deltas, after: Checkpoint, ghost run: Run)
    returns (r: Outcome<()>, ghost made: bool, ghost ops: seq<Op>)
    requires Publishable(cfg, run) && run.base == Live(disk.fs)
    requires id == run.id && deltas == run.deltas && after == run.after
    modifies disk
    ensures disk.log == old(disk.log) + (if made then [MakeRun(id)] + ops else [])
    ensures Follows(old(disk.log), old(disk.fs), disk.log, disk.fs)
    ensures Writing(FilesToWrite(run), ops) && Live(disk.fs) == Live(old(disk.fs))
    ensures r.Done? ==> made && |ops| == 2 * |FilesToWrite(run)|
    ensures r.Done? ==> Ready(disk.fs, id) && PlanOn(disk.fs, id) == Some(Steps(run.outputs))
    ensures !r.Raised? && (r.Dead? ==> disk.fuel == 0)
    ensures disk.fuel + |disk.log| == old(disk.fuel) + |old(disk.log)|
  {
    hide Publishable, SaneRun, FilesToWrite, AllOutputs, PlanText, LoadPlan, Stageable, FilesOf, Steps, Writing;
    hide PlanPath, ReadyPath, ValidSteps;
    PublishableIsSane(cfg, run);
    PublishableIsStageable(cfg, run);
    FilesInOrder(run);
    SanePlanRoundTrip(run);
    ghost var outputs, plan, ready := FilesOf(run.outputs), File(PlanPath(id), PlanText(Steps(run.outputs))),
        File(ReadyPath(id), READY_TEXT);
    made, ops := false, [];
    NoneYet(FilesToWrite(run));
    ghost var log0, fs0 := disk.log, disk.fs;
    r := disk.Perform(MakeRun(id));
    if r.Dead? {
      return;
    }
    made := true;
    ghost var log1, fs1 := disk.log, disk.fs;
    assert Live(fs1) == Live(fs0);
    var staged := StageOutputs(disk, cfg, id, deltas, after);
    if staged.Dead? {
      WroteOnly(outputs, [plan] + [ready], log1, fs1, disk.log, disk.fs);
      Associate(outputs, [plan], [ready]);
      ops := StagedOps(run, id, log0, fs0, log1, fs1, disk.log, disk.fs);
      return Dead, made, ops;
    }
    ghost var log2, fs2 := disk.log, disk.fs;
    r := WriteInRun(disk, File(PlanPath(id), PlanText(staged.value)), id);
    WroteThen(outputs, [plan], log1, fs1, log2, fs2, disk.log, disk.fs);
    if r.Dead? {
      WroteOnly(outputs + [plan], [ready], log1, fs1, disk.log, disk.fs);
      ops := StagedOps(run, id, log0, fs0, log1, fs1, disk.log, disk.fs);
      return;
    }
    ghost var log3, fs3 := disk.log, disk.fs;
    r := WriteReady(disk, id);
    WroteThen(outputs + [plan], [ready], log1, fs1, log3, fs3, disk.log, disk.fs);
    ops := StagedOps(run, id, log0, fs0, log1, fs1, disk.log, disk.fs);
  }

  lemma NoneYet(files: seq<File>)
    ensures Writing(files, [])
  {
  }

  lemma SanePlanRoundTrip(run: Run)
    requires SaneRun(run)
    ensures LoadPlan(PlanText(Steps(run.outputs))) == Some(Steps(run.outputs))
  {
    hide PlanText, LoadPlan, AllProper, DistinctLive, SanePlan;
    PlanRoundTrip(Steps(run.outputs));
  }

  /** `mark_ready`; the plan beside it stays. */
  method WriteReady(disk: Disk, id: string) returns (r: Outcome<()>)
    modifies disk
    ensures !r.Raised? && Wrote([File(ReadyPath(id), READY_TEXT)], old(disk.log), old(disk.fs), disk.log, disk.fs)
    ensures r.Done? ==> WroteAll([File(ReadyPath(id), READY_TEXT)], old(disk.log), old(disk.fs), disk.log, disk.fs)
    ensures r.Done? ==> Ready(disk.fs, id) && PlanOn(disk.fs, id) == PlanOn(old(disk.fs), id)
    ensures r.Dead? ==> disk.fuel == 0
    ensures disk.fuel + |disk.log| == old(disk.fuel) + |old(disk.log)|
  {
    hide LoadPlan, Wrote;
    JournalPaths(id);
    assert PlanPath(id)[3][0] != '.' && ReadyPath(id)[3][0] != '.';
    r := WriteInRun(disk, File(ReadyPath(id), READY_TEXT), id);
    if r.Done? { PlanStays(disk.log, old(disk.log), disk.fs, old(disk.fs), id); }
  }

  lemma PlanStays(log: seq<Op>, log0: seq<Op>, fs: FS, fs0: FS, id: string)
    requires WroteAll([File(ReadyPath(id), READY_TEXT)], log0, fs0, log, fs)
    requires PlanPath(id) != ReadyPath(id) && !IsTemp(PlanPath(id))
    ensures PlanOn(fs, id) == PlanOn(fs0, id)
  {
    hide LoadPlan, PlanPath, ReadyPath, IsTemp;
    var ops := log[|log0|..];
    var files := [File(ReadyPath(id), READY_TEXT)];
    assert WriteAt(files, ops, 0) && WriteAt(files, ops, 1);
    assert ops == [ops[0]] + [ops[1]];
    ApplyAllJoins([ops[0]], [ops[1]], fs0);
    assert [ops[0]][..0] == [] && [ops[1]][..0] == [];
    assert IsTemp(ops[0].temp) && ops[0].temp == ops[1].temp;
  }

  /** The logged operations of a staging, after the directory was made. */
  lemma StagedOps(run: Run, id: string, log0: seq<Op>, fs0: FS, log1: seq<Op>, fs1: FS, log: seq<Op>,
      fs: FS) returns (ops: seq<Op>)
    requires Follows(log0, fs0, log1, fs1) && log1 == log0 + [MakeRun(id)]
    requires SaneRun(run) && Wrote(FilesToWrite(run), log1, fs1, log, fs) && Live(fs1) == Live(fs0)
    ensures log == log0 + ([MakeRun(id)] + ops) && Writing(FilesToWrite(run), ops)
    ensures Follows(log0, fs0, log, fs) && Live(fs) == Live(fs0)
    ensures WroteAll(FilesToWrite(run), log1, fs1, log, fs) ==> |ops| == 2 * |FilesToWrite(run)|
  {
    hide Writing, FilesToWrite, SaneRun, Live;
    FollowsFollows(log0, fs0, log1, fs1, log, fs);
    ops := log[|log1|..];
  }

  // ------------------------------------------------------------ the run

  /** The system is at rest in this state, with this disk and this source. */
  ghost predicate Sound(cfg: Config, s: Sys, fs: FS, src: Snapshots) {
    Inv(cfg, s) && s.memory.None? && s.disk == fs && s.source == src
  }

  /** How a run leaves the system: a finished real run is applied once and is what the live files
      are; a dry run, and one that raised, apply nothing; one cut short is applied or it is not. */
  ghost predicate Ended(r: Outcome<Manifest>, dryRun: bool, decided: Option<Run>, before: seq<Run>, t: Sys) {
    match r
    case Done(_) =>
      && t.disk.runs == {} && Live(t.disk) == LiveAfter(t.applied)
      && (if dryRun then t.applied == before else decided.Some? && t.applied == before + [decided.value])
    case Raised(_) => t.applied == before
    case Dead => t.applied == before || (!dryRun && decided.Some? && t.applied == before + [decided.value])
  }

  /** The events led from one resting state to another, with this disk. */
  ghost predicate Went(cfg: Config, s: Sys, es: seq<Event>, t: Sys, fs: FS) {
    && Leads(cfg, s, es, t) && Inv(cfg, t)
    && t.disk == fs && t.source == s.source && t.memory.None?
  }

  lemma ResumeWent(cfg: Config, s: Sys, log0: seq<Op>, log: seq<Op>, fs: FS)
    requires Inv(cfg, s) && s.memory.None? && Recovered(log0, s.disk, log, fs)
    ensures var es, t := FileOps(log[|log0|..]), s.(disk := fs);
            Went(cfg, s, es, t, fs) && log == log0 + OpsOf(es)
  {
    hide Inv, Recovering, ApplyAll, FileOps, Possible, DoAll, OpsOf;
    OpsOfFileOps(log[|log0|..]);
    LogWhole(log0, log);
    RecoveryTrace(cfg, s, log[|log0|..]);
    LeadsToInv(cfg, s, FileOps(log[|log0|..]), s.(disk := fs));
  }

  lemma LogWhole(log0: seq<Op>, log: seq<Op>)
    requires log0 <= log
    ensures log == log0 + log[|log0|..]
  {
  }

  lemma LogsJoin(log0: seq<Op>, log1: seq<Op>, log: seq<Op>, a: seq<Event>, b: seq<Event>)
    requires log1 == log0 + OpsOf(a) && log == log1 + OpsOf(b)
    ensures log == log0 + OpsOf(a + b)
  {
    hide OpsOf;
    OpsOfJoins(a, b);
    Associate(log0, OpsOf(a), OpsOf(b));
  }

  lemma WentOn(cfg: Config, s: Sys, a: seq<Event>, t: Sys, fs1: FS, b: seq<Event>, u: Sys, fs: FS)
    requires Went(cfg, s, a, t, fs1) && Went(cfg, t, b, u, fs)
    ensures Went(cfg, s, a + b, u, fs)
  {
    hide Inv, Leads;
    LeadsOn(cfg, s, a, t, b, u);
  }

  /** A run that is read and then dropped, as a dry run is. */
  lemma DryWent(cfg: Config, s: Sys, run: Run)
    requires Inv(cfg, s) && s.memory.None? && s.disk.runs == {}
    requires Prepare(cfg, Live(s.disk), s.source) == Some(run)
    ensures Went(cfg, s, [ReadSource] + [Lose], s.(current := run.id), s.disk)
    ensures OpsOf([ReadSource] + [Lose]) == []
  {
    hide Inv, Leads, Prepare, Live, OpsOf;
    OpsOfOne(ReadSource);
    OpsOfOne(Lose);
    OpsOfJoins([ReadSource], [Lose]);
    var s1 := s.(memory := Some(Memory(run, 0)), current := run.id);
    ReadTrace(cfg, s, run);
    LeadsToInv(cfg, s, [ReadSource], s1);
    LoseTrace(cfg, s1);
    LeadsOn(cfg, s, [ReadSource], s1, [Lose], s.(current := run.id));
    LeadsToInv(cfg, s, [ReadSource] + [Lose], s.(current := run.id));
  }

  /** A run that is read and staged, as far as it got; whatever was in memory is then gone. */
  lemma StageWent(cfg: Config, s: Sys, run: Run, made: bool, ops: seq<Op>, fs: FS)
    returns (es: seq<Event>, t: Sys)
    requires Inv(cfg, s) && s.memory.None? && s.disk.runs == {}
    requires Prepare(cfg, Live(s.disk), s.source) == Some(run) && Prepared(cfg, run)
    requires Writing(FilesToWrite(run), ops)
    requires fs == ApplyAll(if made then [MakeRun(run.id)] + ops else [], s.disk)
    ensures Went(cfg, s, es, t, fs) && t.current == run.id
    ensures t.applied == if made && |ops| == 2 * |FilesToWrite(run)| then s.applied + [run] else s.applied
    ensures made ==> run.id in fs.runs
    ensures OpsOf(es) == if made then [MakeRun(run.id)] + ops else []
  {
    hide Inv, Leads, Prepare, Live, Prepared, FilesToWrite, Writing, OpsOf, Apply, Went;
    if made {
      es, t := MadeWent(cfg, s, run, ops);
    } else {
      var s1 := s.(memory := Some(Memory(run, 0)), current := run.id);
      ReadTrace(cfg, s, run);
      LeadsNowhere(cfg, s1);
      StagedOpsOf(run.id, []);
      es, t := Dropped(cfg, s, [ReadSource], s1, [], s1);
    }
  }

  lemma MadeWent(cfg: Config, s: Sys, run: Run, ops: seq<Op>) returns (es: seq<Event>, t: Sys)
    requires Inv(cfg, s) && s.memory.None? && s.disk.runs == {}
    requires Prepare(cfg, Live(s.disk), s.source) == Some(run) && Prepared(cfg, run)
    requires Writing(FilesToWrite(run), ops)
    ensures Went(cfg, s, es, t, ApplyAll([MakeRun(run.id)] + ops, s.disk)) && t.current == run.id
    ensures t.applied == if |ops| == 2 * |FilesToWrite(run)| then s.applied + [run] else s.applied
    ensures run.id in ApplyAll([MakeRun(run.id)] + ops, s.disk).runs && OpsOf(es) == [MakeRun(run.id)] + ops
  {
    hide Inv, Leads, Prepare, Live, Prepared, GoodFiles, FilesToWrite, Writing, OpsOf, FileOps, ApplyAll, Went;
    hide Publishable, SaneRun;
    var s1 := s.(memory := Some(Memory(run, 0)), current := run.id);
    var made := [ReadSource] + [FileOp(MakeRun(run.id))];
    var s2 := s1.(disk := Apply(MakeRun(run.id), s.disk));
    ReadTrace(cfg, s, run);
    LeadsToInv(cfg, s, [ReadSource], s1);
    MakeTrace(cfg, s1, run);
    LeadsOn(cfg, s, [ReadSource], s1, [FileOp(MakeRun(run.id))], s2);
    LeadsToInv(cfg, s1, [FileOp(MakeRun(run.id))], s2);
    PreparedIsSane(cfg, run);
    StagingTrace(cfg, s2, run, ops);
    AppliedAfter(MakeRun(run.id), ops, s.disk);
    StagedOpsOf(run.id, ops);
    es, t := Dropped(cfg, s, made, s2, FileOps(ops), StagedSoFar(s2, run, ops));
  }

  lemma StagedOpsOf(id: string, ops: seq<Op>)
    ensures OpsOf([ReadSource] + [FileOp(MakeRun(id))]) + OpsOf(FileOps(ops)) == [MakeRun(id)] + ops
    ensures OpsOf([ReadSource]) + OpsOf([]) == []
  {
    hide OpsOf;
    OpsOfOne(ReadSource);
    OpsOfOne(FileOp(MakeRun(id)));
    OpsOfJoins([ReadSource], [FileOp(MakeRun(id))]);
    OpsOfFileOps(ops);
    OpsOfNothing([ReadSource], []);
  }

  lemma AppliedAfter(op: Op, ops: seq<Op>, fs: FS)
    ensures ApplyAll([op] + ops, fs) == ApplyAll(ops, Apply(op, fs))
  {
    ApplyAllJoins([op], ops, fs);
    assert [op][..0] == [];
  }

  lemma Dropped(cfg: Config, s: Sys, a: seq<Event>, s1: Sys, b: seq<Event>, s2: Sys) returns (es: seq<Event>, t: Sys)
    requires Inv(cfg, s) && Leads(cfg, s, a, s1) && Leads(cfg, s1, b, s2) && s2.source == s.source
    ensures Went(cfg, s, es, t, s2.disk) && t == s2.(memory := None)
    ensures OpsOf(es) == OpsOf(a) + OpsOf(b)
  {
    hide Inv, Leads, OpsOf;
    DroppedOps(a, b);
    t := s2.(memory := None);
    LeadsOn(cfg, s, a, s1, b, s2);
    LeadsToInv(cfg, s, a + b, s2);
    LoseTrace(cfg, s2);
    LeadsOn(cfg, s, a + b, s2, [Lose], t);
    es := a + b + [Lose];
    LeadsToInv(cfg, s, es, t);
  }

  lemma DroppedOps(a: seq<Event>, b: seq<Event>)
    ensures OpsOf(a + b + [Lose]) == OpsOf(a) + OpsOf(b)
  {
    OpsOfJoins(a, b);
    OpsOfJoins(a + b, [Lose]);
    OpsOfOne(Lose);
  }

  /** A commit that ran to its end from a READY run of the system. */
  lemma CommitRests(cfg: Config, s: Sys, fs: FS)
    requires Inv(cfg, s) && s.memory.None? && s.current in s.disk.runs
    requires RecoverRun(s.disk, s.current) == Some(fs)
    ensures fs.runs == {} && Live(fs) == LiveAfter(s.applied)
  {
    hide Inv, RecoverRun, LiveAfter, Target, SaneJournal, Live, SoleRun;
    InvIsSound(cfg, s);
    PromiseKept(cfg, s);
    RecoverReachesTarget(s.disk, s.current);
  }

  lemma PrepareIsPrepared(cfg: Config, live: LiveFiles, src: Snapshots, run: Run)
    requires ValidConfig(cfg) && ValidSource(cfg.tables, src) && Prepare(cfg, live, src) == Some(run)
    ensures Prepared(cfg, run) && Publishable(cfg, run) && Computed(cfg, run) && ValidCheckpoint(run.before)
    ensures run.base == live && run.snapshot == src && Reportable(cfg, DecisionOf(run))
  {
    hide Publishable, Computed, Fetch, Advance, RunId, AllOutputs;
    assert Prepared(cfg, run);
    PreparedParts(cfg, run);
    FetchedAreValid(cfg, run.before, src);
  }

  /** The checkpoint, the deltas, the identity and the new checkpoint, before anything is written. */
  method Decide(disk: Disk, cfg: Config, src: Snapshots) returns (r: Outcome<Decision>)
    requires ValidConfig(cfg) && ValidSource(cfg.tables, src)
    ensures match Prepare(cfg, Live(disk.fs), src)
            case None => r == Raised(CorruptCheckpoint) && LoadCheckpoint(cfg, Live(disk.fs)).Corrupt?
            case Some(run) => r == Done(DecisionOf(run))
  {
    hide Fetch, Advance, RunId, AllOutputs, LoadFile;
    var loaded := CheckpointStore.Load(disk, cfg);
    if loaded.Raised? {
      return Raised(loaded.error);
    }
    var before := loaded.value;
    var deltas := FetchDeltas(cfg.tables, before, src);
    FetchedAreValid(cfg, before, src);
    BatchAdvances(cfg, before, src);
    var id := RunId(cfg, before, deltas);
    var advanced := CheckpointAdvance.AdvanceCheckpoint(before, deltas, cfg.tables);
    return Done(Decision(id, before, advanced.value, deltas));
  }

  lemma BatchAdvances(cfg: Config, cp: Checkpoint, src: Snapshots)
    requires ValidConfig(cfg) && ValidSource(cfg.tables, src)
    ensures var deltas := Fetch(cfg.tables, cp, src);
            && (forall j :: 0 <= j < |cfg.tables| ==> cfg.tables[j].name in deltas)
            && CheckpointAdvance.Advanceable(cfg.tables, deltas)
  {
    hide Fetch, CheckpointAdvance.LastPkFits;
    if cfg.tables != [] { CheckpointAdvance.AdvanceReadsAll(cfg, cp, src, 0); }
  }

  /** Operations that are enough to stage a run and commit it: one for its directory and two for each
      file, and then at most one for each that these put there. */
  function Room(run: Run): nat {
    2 * (1 + 2 * |FilesToWrite(run)|)
  }

  /** What there is to recover grows by at most one with each operation. */
  lemma {:induction false} RemainingGrows(ops: seq<Op>, fs: FS)
    ensures Remaining(ApplyAll(ops, fs)) <= Remaining(fs) + |ops|
  {
    hide Remaining;
    if ops != [] {
      RemainingGrows(ops[..|ops| - 1], fs);
      OneMore(ops[|ops| - 1], ApplyAll(ops[..|ops| - 1], fs));
    }
  }

  lemma OneMore(op: Op, fs: FS)
    ensures Remaining(Apply(op, fs)) <= Remaining(fs) + 1
  {
    var next := Apply(op, fs);
    var added: set<Path> := match op
      case Scratch(temp, _) => {temp}
      case Publish(_, target, _) => {target}
      case Swing(_, dst) => {dst}
      case _ => {};
    assert JournalFiles(next) <= JournalFiles(fs) + added;
    SmallerSet(JournalFiles(next), JournalFiles(fs) + added);
    match op
    case MakeRun(run) =>
      assert JournalFiles(next) == JournalFiles(fs);
      SmallerSet(next.runs, fs.runs + {run});
    case _ => SmallerSet(next.runs, fs.runs);
  }

  lemma {:induction false} SmallerSet<T>(a: set<T>, b: set<T>)
    requires a <= b
    ensures |a| <= |b|
  {
    if x :| x in a { SmallerSet(a - {x}, b - {x}); }
  }

  lemma NothingRemains(cfg: Config, s: Sys)
    requires Inv(cfg, s) && s.disk.runs == {}
    ensures Remaining(s.disk) == 0
  {
    hide Chained, AtRest, InProgress, ValidConfig, ValidSource;
    assert JournalFiles(s.disk) == {};
  }

  /** A commit needs no more operations than were staged. */
  lemma CommitIsShort(cfg: Config, s: Sys, t: Sys, run: Run, fs0: FS, staged: seq<Op>, ops: seq<Op>)
    requires Inv(cfg, s) && s.disk.runs == {} && s.disk == fs0
    requires Inv(cfg, t) && t.memory.None? && t.disk == ApplyAll(staged, fs0) && Recovering(ops, t.disk)
    requires |staged| <= 1 + 2 * |FilesToWrite(run)|
    ensures |staged| + |ops| <= Room(run)
  {
    hide Inv, Remaining, Recovering, SoleRun, SaneJournal, FilesToWrite, SaneRun;
    NothingRemains(cfg, s);
    RemainingGrows(staged, fs0);
    InvIsSound(cfg, t);
    RecoveringIsBounded(ops, t.disk, t.current);
  }

  /** A real run that has been staged, and committed as far as it got. */
  ghost predicate Carried(r: Outcome<()>, run: Run, before: seq<Run>, t: Sys) {
    match r
    case Done(_) => t.disk.runs == {} && Live(t.disk) == LiveAfter(t.applied) && t.applied == before + [run]
    case Raised(_) => false
    case Dead => t.applied == before || t.applied == before + [run]
  }

  /** The log grew by one commit, or a part of one. */
  lemma CommitWent(cfg: Config, s: Sys, es: seq<Event>, t: Sys, fs1: FS, log1: seq<Op>, log: seq<Op>, fs: FS,
      done: bool)
    returns (es2: seq<Event>, u: Sys)
    requires Inv(cfg, s) && Went(cfg, s, es, t, fs1) && Recovered(log1, fs1, log, fs)
    requires done ==> t.current in fs1.runs && RecoverRun(fs1, t.current) == Some(fs)
    ensures Went(cfg, s, es2, u, fs) && u.applied == t.applied
    ensures forall log0 :: log1 == log0 + OpsOf(es) ==> log == log0 + OpsOf(es2)
    ensures done ==> fs.runs == {} && Live(fs) == LiveAfter(u.applied)
  {
    hide Inv, RecoverRun, Live, LiveAfter, Recovering, Leads, OpsOf, FileOps;
    u := t.(disk := fs);
    es2 := es + FileOps(log[|log1|..]);
    ResumeWent(cfg, t, log1, log, fs);
    WentOn(cfg, s, es, t, fs1, FileOps(log[|log1|..]), u, fs);
    forall log0 | log1 == log0 + OpsOf(es) ensures log == log0 + OpsOf(es2) {
      LogsJoin(log0, log1, log, es, FileOps(log[|log1|..]));
    }
    if done { CommitRests(cfg, t, fs); }
  }

  /** This run has just been decided. */
  ghost predicate Begun(cfg: Config, s: Sys, fs: FS, run: Run) {
    && ValidConfig(cfg) && ValidSource(cfg.tables, run.snapshot)
    && Sound(cfg, s, fs, run.snapshot) && Prepare(cfg, Live(fs), run.snapshot) == Some(run)
  }

  /** The real half of `_run_locked`: stage everything, mark READY, commit. */
  method StageAndCommit(disk: Disk, cfg: Config, d: Decision, ghost run: Run, ghost s: Sys)
    returns (r: Outcome<()>, ghost es: seq<Event>, ghost t: Sys)
    requires Prepared(cfg, run) && Publishable(cfg, run) && d == DecisionOf(run)
    requires run.base == Live(disk.fs) && disk.fs.runs == {}
    modifies disk
    ensures !r.Raised? && (r.Dead? ==> disk.fuel == 0)
    ensures disk.fuel + |disk.log| == old(disk.fuel) + |old(disk.log)|
    ensures Begun(cfg, s, old(disk.fs), run) ==> Went(cfg, s, es, t, disk.fs) && Carried(r, run, s.applied, t)
    ensures Begun(cfg, s, old(disk.fs), run) ==> |disk.log| <= |old(disk.log)| + Room(run)
    ensures Begun(cfg, s, old(disk.fs), run) ==> disk.log == old(disk.log) + OpsOf(es)
  {
    hide Inv, Prepare, Prepared, Publishable, Live, LiveAfter, FilesToWrite, Went, Writing, Ready, PlanOn;
    hide RecoverRun, Recovered, SaneJournal, Follows, ValidConfig, ValidSource, ApplyAll, LoadPlan, GoodFiles;
    hide SaneRun, OpsOf;
    ghost var sound := Begun(cfg, s, disk.fs, run);
    ghost var log0, fs0 := disk.log, disk.fs;
    es, t := [], s;
    ghost var made, ops;
    r, made, ops := StageRun(disk, cfg, d.id, d.deltas, d.after, run);
    if sound {
      SuffixOf(log0, if made then [MakeRun(run.id)] + ops else []);
      Grew(log0, fs0, disk.log, disk.fs);
      FewOps(run, ops);
      es, t := StageWent(cfg, s, run, made, ops, disk.fs);
    }
    if r.Dead? {
      return;
    }
    ghost var log1, fs1 := disk.log, disk.fs;
    if sound {
      SoundAgain(cfg, s, es, t, fs1);
      InvIsSound(cfg, t);
    }
    assert !Stranded(fs1, run.id);
    r := Committer.Commit(disk, d.id);
    if sound {
      CommitIsShort(cfg, s, t, run, fs0, log1[|log0|..], CommitOps(log1, fs1, disk.log, disk.fs));
      es, t := CommitWent(cfg, s, es, t, fs1, log1, disk.log, disk.fs, r.Done?);
      SoundAgain(cfg, s, es, t, disk.fs);
    }
  }

  lemma FewOps(run: Run, ops: seq<Op>)
    requires Writing(FilesToWrite(run), ops)
    ensures |ops| <= 2 * |FilesToWrite(run)|
  {
    hide FilesToWrite;
  }

  ghost function CommitOps(log0: seq<Op>, fs0: FS, log: seq<Op>, fs: FS): (ops: seq<Op>)
    requires Recovered(log0, fs0, log, fs)
    ensures Recovering(ops, fs0) && |log| == |log0| + |ops|
  {
    log[|log0|..]
  }

  lemma Grew(log0: seq<Op>, fs0: FS, log: seq<Op>, fs: FS)
    requires Follows(log0, fs0, log, fs)
    ensures fs == ApplyAll(log[|log0|..], fs0)
  {
  }

  /** Operations that are enough once nothing is left over. */
  function RoomFor(decided: Option<Run>, dryRun: bool): nat {
    if decided.None? || dryRun then 0 else Room(decided.value)
  }

  /** What a finished run reports. */
  ghost predicate Reported(cfg: Config, r: Outcome<Manifest>, decided: Option<Run>, dryRun: bool) {
    r.Done? ==>
      && decided.Some? && Reportable(cfg, DecisionOf(decided.value))
      && r.value == ManifestOf(cfg, DecisionOf(decided.value), dryRun)
  }

  /** The manifest is that of the run decided on, and tells what it finds and what it leaves. */
  ghost predicate Told(cfg: Config, r: Outcome<Manifest>, decided: Option<Run>, live: LiveFiles) {
    r.Done? ==> decided.Some? && Tells(cfg, decided.value.deltas, r.value, live, After(decided.value))
  }

  /** What a finished real run leaves is what its manifest tells, and the lake holds as many rows more. */
  ghost predicate TrulyLeft(cfg: Config, r: Outcome<Manifest>, decided: Option<Run>, live0: LiveFiles,
      live1: LiveFiles)
  {
    r.Done? ==> decided.Some? && live1 == After(decided.value) && CountsRows(cfg, r.value, live0, live1)
  }

  lemma RealRunLeft(cfg: Config, s: Sys, t: Sys, run: Run, m: Manifest)
    requires Inv(cfg, s) && s.memory.None? && s.disk.runs == {}
    requires Inv(cfg, t) && t.applied == s.applied + [run] && Live(t.disk) == LiveAfter(t.applied)
    requires Reportable(cfg, DecisionOf(run)) && m == ManifestOf(cfg, DecisionOf(run), false)
    ensures Live(t.disk) == After(run) && CountsRows(cfg, m, Live(s.disk), Live(t.disk))
  {
    hide Inv, Live, CountsRows, After, Reportable, ManifestOf;
    RestedLive(cfg, s);
    InvHasChain(cfg, t);
    InvHasValidConfig(cfg, t);
    ManifestCounts(cfg, s.applied, run, false);
  }

  lemma InvHasValidConfig(cfg: Config, s: Sys)
    requires Inv(cfg, s)
    ensures ValidConfig(cfg)
  {
  }

  /** `_run_locked`, from the moment nothing is left over: decide, then report or stage and commit. */
  method Ingest(disk: Disk, cfg: Config, src: Snapshots, dryRun: bool, ghost s: Sys)
    returns (r: Outcome<Manifest>, ghost decided: Option<Run>, ghost es: seq<Event>, ghost t: Sys)
    requires ValidConfig(cfg) && ValidSource(cfg.tables, src) && disk.fs.runs == {}
    modifies disk
    ensures Prepare(cfg, Live(old(disk.fs)), src) == decided && Reported(cfg, r, decided, dryRun)
    ensures Told(cfg, r, decided, Live(old(disk.fs)))
    ensures Sound(cfg, s, old(disk.fs), src) && !dryRun ==>
      TrulyLeft(cfg, r, decided, Live(old(disk.fs)), Live(disk.fs))
    ensures dryRun || r.Raised? ==> disk.fs == old(disk.fs)
    ensures r.Raised? <==> decided.None?
    ensures r.Raised? ==> r.error == CorruptCheckpoint && LoadCheckpoint(cfg, Live(old(disk.fs))).Corrupt?
    ensures r.Dead? ==> disk.fuel == 0
    ensures Sound(cfg, s, old(disk.fs), src) ==> Went(cfg, s, es, t, disk.fs) && Ended(r, dryRun, decided, s.applied, t)
    ensures Sound(cfg, s, old(disk.fs), src) ==> |disk.log| <= |old(disk.log)| + RoomFor(decided, dryRun)
    ensures Sound(cfg, s, old(disk.fs), src) ==> disk.log == old(disk.log) + OpsOf(es)
    ensures disk.fuel + |disk.log| == old(disk.fuel) + |old(disk.log)|
  {
    hide Inv, Prepare, Prepared, Publishable, Computed, Live, LiveAfter, Reportable, ManifestOf, Went;
    hide LoadCheckpoint, ValidConfig, ValidSource, OpsOf, Tells, After, CountsRows;
    NoOps(disk.log);
    decided := Prepare(cfg, Live(disk.fs), src);
    es, t := [], s;
    var decision := Decide(disk, cfg, src);
    if decision.Raised? {
      if Sound(cfg, s, disk.fs, src) { RestsHere(cfg, s); }
      return Raised(decision.error), decided, es, t;
    }
    ghost var run := decided.value;
    PrepareIsPrepared(cfg, Live(disk.fs), src, run);
    if dryRun {
      if Sound(cfg, s, disk.fs, src) {
        DryWent(cfg, s, run);
        es, t := [ReadSource] + [Lose], s.(current := run.id);
        RestedLive(cfg, s);
      }
      var preview := BuildManifest(cfg, decision.value, true);
      ManifestTells(cfg, run, true);
      return Done(preview), decided, es, t;
    }
    var carried;
    ghost var sound := Sound(cfg, s, disk.fs, src);
    carried, es, t := StageAndCommit(disk, cfg, decision.value, run, s);
    if carried.Dead? {
      return Dead, decided, es, t;
    }
    var manifest := BuildManifest(cfg, decision.value, false);
    ManifestTells(cfg, run, false);
    if sound {
      SoundAgain(cfg, s, es, t, disk.fs);
      RealRunLeft(cfg, s, t, run, manifest);
    }
    return Done(manifest), decided, es, t;
  }

  lemma NoOps(log: seq<Op>)
    ensures OpsOf([]) == [] && log + [] == log
  {
  }

  lemma RestsHere(cfg: Config, s: Sys)
    requires Inv(cfg, s) && s.memory.None?
    ensures Went(cfg, s, [], s, s.disk)
  {
    hide Inv;
    LeadsNowhere(cfg, s);
  }

  lemma SoundAgain(cfg: Config, s: Sys, es: seq<Event>, t: Sys, fs: FS)
    requires Went(cfg, s, es, t, fs)
    ensures Inv(cfg, t) && t.memory.None? && t.disk == fs && t.source == s.source
  {
  }

  lemma RestedLive(cfg: Config, s: Sys)
    requires Inv(cfg, s) && s.memory.None? && s.disk.runs == {}
    ensures Live(s.disk) == LiveAfter(s.applied)
  {
    PromiseKept(cfg, s);
  }

  /** `_run_locked`: resume what is left over, then ingest. On a sound disk the operations it logs
      are an execution of the system, whatever point the machine stops at, and the result is
      atomic; a dry run leaves exactly what resuming leaves. */
  method RunLocked(disk: Disk, cfg: Config, src: Snapshots, dryRun: bool, ghost s: Sys)
    returns (r: Outcome<Manifest>, ghost decided: Option<Run>, ghost es: seq<Event>, ghost t: Sys)
    requires ValidConfig(cfg) && ValidSource(cfg.tables, src)
    modifies disk
    ensures var resumed := RecoverRuns(old(disk.fs), SortedKeys(old(disk.fs).runs));
      && (r.Raised? && r.error == CorruptPlan ==> resumed.None?)
      && (r.Raised? && r.error != CorruptPlan ==>
           r.error == CorruptCheckpoint && resumed == Some(disk.fs) && LoadCheckpoint(cfg, Live(disk.fs)).Corrupt?)
      && (r.Done? ==> resumed.Some? && decided.Some? && Prepare(cfg, Live(resumed.value), src) == decided)
      && (r.Done? && dryRun ==> resumed == Some(disk.fs))
    ensures Reported(cfg, r, decided, dryRun)
    ensures var resumed := RecoverRuns(old(disk.fs), SortedKeys(old(disk.fs).runs));
      && (r.Done? ==> resumed.Some? && Told(cfg, r, decided, Live(resumed.value)))
      && (r.Done? && Sound(cfg, s, old(disk.fs), src) && !dryRun ==>
            TrulyLeft(cfg, r, decided, Live(resumed.value), Live(disk.fs)))
    ensures r.Dead? ==> disk.fuel == 0
    ensures Sound(cfg, s, old(disk.fs), src) ==> Went(cfg, s, es, t, disk.fs) && Ended(r, dryRun, decided, s.applied, t)
    ensures Sound(cfg, s, old(disk.fs), src) ==> disk.log == old(disk.log) + OpsOf(es)
    ensures Sound(cfg, s, old(disk.fs), src) && !r.Dead? ==>
      (r.Raised? <==> SweptTooEarly(old(disk.fs), s.current))
    ensures Sound(cfg, s, old(disk.fs), src) && r.Dead? ==>
      old(disk.fuel) <= Remaining(old(disk.fs)) + RoomFor(decided, dryRun)
  {
    hide Remaining, Recovering, SoleRun, RoomFor, OpsOf, FileOps, SweptTooEarly, Follows, SaneRun, Chained, Ready;
    hide Inv, Prepare, Live, LiveAfter, Reportable, ManifestOf, Went, LoadCheckpoint, ValidConfig, ValidSource;
    hide RecoverRuns, SortedKeys, Recovered, SaneJournal, CheckpointAfter, Told, TrulyLeft;
    NoOps(disk.log);
    ghost var sound := Sound(cfg, s, disk.fs, src);
    decided, es, t := None, [], s;
    ghost var log0, fs0 := disk.log, disk.fs;
    if sound {
      InvIsSound(cfg, s);
      ResumeRestores(cfg, s);
    }
    var resumed := Committer.ResumePending(disk);
    if sound {
      ResumeWent(cfg, s, log0, disk.log, disk.fs);
      RecoveringIsBounded(CommitOps(log0, fs0, disk.log, disk.fs), fs0, s.current);
      es, t := FileOps(disk.log[|log0|..]), s.(disk := disk.fs);
    }
    if resumed.Dead? {
      return Dead, decided, es, t;
    }
    if resumed.Raised? {
      return Raised(resumed.error), decided, es, t;
    }
    AllRecovered(fs0, SortedKeys(fs0.runs), disk.fs);
    ghost var fs1 := disk.fs;
    ghost var log1, more, u := disk.log, [], t;
    if sound {
      SoundAgain(cfg, s, es, t, fs1);
      InvHasChain(cfg, s);
      CheckpointLoads(cfg, s.applied);
    }
    r, decided, more, u := Ingest(disk, cfg, src, dryRun, t);
    if sound {
      WentOn(cfg, s, es, t, fs1, more, u, disk.fs);
      LogsJoin(log0, log1, disk.log, es, more);
      es, t := es + more, u;
    }
  }

  lemma InvHasChain(cfg: Config, s: Sys)
    requires Inv(cfg, s)
    ensures Chained(cfg, s.applied)
  {
  }

  /** Resuming to the end leaves no run directory. */
  lemma {:induction false} AllRecovered(fs: FS, runs: seq<string>, end: FS)
    requires RecoverRuns(fs, runs) == Some(end) && forall run :: run in fs.runs ==> run in runs
    ensures end.runs == {}
    decreases |runs|
  {
    hide RecoverRun;
    if runs != [] {
      var next := RecoverRun(fs, runs[0]).value;
      Committer.RecoverRunFrame(fs, runs[0]);
      forall run | run in next.runs ensures run in runs[1..] {
        var i :| 0 <= i < |runs| && runs[i] == run;
        assert runs[1..][i - 1] == run;
      }
      AllRecovered(next, runs[1..], end);
    }
  }

  /** `startup_resume`: on a sound disk, given room for as many operations as there are files and
      directories left over, it ends; and when it ends normally, the live files are the applied
      batches and nothing is left over. It raises only on a plan swept away before READY. */
  method StartupResume(disk: Disk, ghost cfg: Config, ghost s: Sys) returns (r: Outcome<seq<string>>,
      ghost es: seq<Event>, ghost t: Sys)
    modifies disk
    ensures Sound(cfg, s, old(disk.fs), s.source) ==> Went(cfg, s, es, t, disk.fs) && t.applied == s.applied
    ensures Sound(cfg, s, old(disk.fs), s.source) ==> disk.log == old(disk.log) + OpsOf(es)
    ensures Sound(cfg, s, old(disk.fs), s.source) && r.Done? ==>
      disk.fs.runs == {} && Live(disk.fs) == LiveAfter(s.applied)
    ensures Sound(cfg, s, old(disk.fs), s.source) && !r.Dead? ==>
      (r.Raised? <==> SweptTooEarly(old(disk.fs), s.current))
    ensures Sound(cfg, s, old(disk.fs), s.source) && old(disk.fuel) > Remaining(old(disk.fs)) ==> !r.Dead?
  {
    hide Inv, Live, LiveAfter, Went, RecoverRuns, SortedKeys, Recovering, SaneJournal, SoleRun, Remaining;
    hide OpsOf, FileOps;
    ghost var sound := Sound(cfg, s, disk.fs, s.source);
    es, t := [], s;
    ghost var log0, fs0 := disk.log, disk.fs;
    if sound { InvIsSound(cfg, s); }
    r := Committer.ResumePending(disk);
    if sound {
      ResumeWent(cfg, s, log0, disk.log, disk.fs);
      es, t := FileOps(disk.log[|log0|..]), s.(disk := disk.fs);
      ResumeRestores(cfg, s);
      RecoveringIsBounded(disk.log[|log0|..], fs0, s.current);
    }
  }

  // ------------------------------------------------------------ predictions

  function LivePaths(os: seq<Output>): (ps: seq<Path>)
    ensures |ps| == |os| && forall i :: 0 <= i < |os| ==> ps[i] == os[i].step.livePath
  {
    seq(|os|, i requires 0 <= i < |os| => os[i].step.livePath)
  }

  /** The lake paths a manifest lists, table by table. */
  function LakeListed(ms: seq<TableManifest>): seq<Path> {
    if ms == [] then [] else LakeListed(ms[..|ms| - 1]) + ms[|ms| - 1].lakePaths
  }

  /** The share paths it lists. */
  function ShareListed(ms: seq<TableManifest>): seq<Path> {
    if ms == [] then []
    else ShareListed(ms[..|ms| - 1]) + (if ms[|ms| - 1].sharePath.Some? then [ms[|ms| - 1].sharePath.value] else [])
  }

  lemma {:induction false} PredictedPartitions(t: TableSpec, rows: seq<Row>, live: LiveFiles, id: string)
    requires ValidSpec(t) && ValidRows(t, rows) && Timed(rows)
    ensures LivePaths(LakeOutputs(t, rows, live, id)) == PredictLake(t, rows)
  {
    hide LakeOutput, DateKeyOf, LakeLive;
    var keys := SortedKeys(DateKeys(rows));
    forall i | 0 <= i < |keys| ensures LakeOutputs(t, rows, live, id)[i].step.livePath == LakeLive(t, keys[i]) {
      LakeOutputAt(t, rows, keys, live, id, i);
      LakePartPlace(t, rows, keys[i], live, id);
    }
    if rows == [] { assert DateKeys([]) == {}; }
  }

  lemma {:induction false} LakeIsPredicted(tables: seq<TableSpec>, deltas: Deltas, live: LiveFiles,
      id: string, ms: seq<TableManifest>)
    requires ValidTables(tables) && ValidDeltas(tables, deltas) && TimedDeltas(tables, deltas) && |ms| == |tables|
    requires forall i :: 0 <= i < |ms| ==> ms[i].lakePaths == PredictLake(tables[i], deltas[tables[i].name])
    ensures LivePaths(LakeAll(tables, deltas, live, id)) == LakeListed(ms)
    decreases |tables|
  {
    hide LakeOutputs, PredictLake, ValidSpec, ValidRow, Timed;
    if tables != [] {
      var n := |tables| - 1;
      LakeIsPredicted(tables[..n], deltas, live, id, ms[..n]);
      PredictedPartitions(tables[n], deltas[tables[n].name], live, id);
      PathsJoin(LakeAll(tables[..n], deltas, live, id), LakeOutputs(tables[n], deltas[tables[n].name], live, id));
    }
  }

  lemma PathsJoin(a: seq<Output>, b: seq<Output>)
    ensures LivePaths(a + b) == LivePaths(a) + LivePaths(b)
  {
  }

  lemma {:induction false} ShareIsPredicted(cfg: Config, tables: seq<TableSpec>, deltas: Deltas, id: string,
      after: Checkpoint, ms: seq<TableManifest>)
    requires ValidConfig(cfg) && ValidTables(tables) && ValidDeltas(tables, deltas) && ValidCheckpoint(after)
    requires |ms| == |tables|
    requires forall i :: 0 <= i < |ms| ==> ms[i].sharePath == PredictShare(tables[i], deltas[tables[i].name])
    ensures LivePaths(ShareAll(cfg, tables, deltas, id, after)) == ShareListed(ms)
    decreases |tables|
  {
    hide ShareText, ValidSpec, ValidRow, ShareLive, ValidConfig;
    if tables != [] {
      var n := |tables| - 1;
      ShareIsPredicted(cfg, tables[..n], deltas, id, after, ms[..n]);
      PathsJoin(ShareAll(cfg, tables[..n], deltas, id, after), ShareOutputs(cfg, tables[n], deltas[tables[n].name],
          id, after));
    }
  }

  /** Dry and real runs agree: both report the same manifest but for the flag, and the paths it
      predicts are, in order, exactly the live paths the real run's plan renames onto, between
      them and the checkpoint only the events file. */
  lemma {:induction false} PredictionsArePlan(cfg: Config, run: Run, dryRun: bool)
    requires Publishable(cfg, run) && Reportable(cfg, DecisionOf(run))
    ensures var m := ManifestOf(cfg, DecisionOf(run), dryRun);
            && m == ManifestOf(cfg, DecisionOf(run), !dryRun).(dryRun := dryRun)
            && LivePaths(run.outputs)
                 == LakeListed(m.tables) + ShareListed(m.tables) + [EventsLive(m.runId), CHECKPOINT_LIVE]
  {
    hide LakeAll, ShareAll, PredictLake, PredictShare, ValidSpec, ValidRow, Timed, EventsText, FileText, ToDict;
    hide Fingerprint;
    var ms := TableManifests(cfg, run.deltas);
    var lake, share := LakeAll(cfg.tables, run.deltas, run.base, run.id), ShareAll(cfg, cfg.tables, run.deltas,
        run.id, run.after);
    var ends := [EventsOutput(cfg, run.deltas, run.id, run.after), CheckpointOutput(run.id, run.after)];
    LakeIsPredicted(cfg.tables, run.deltas, run.base, run.id, ms);
    ShareIsPredicted(cfg, cfg.tables, run.deltas, run.id, run.after, ms);
    PathsJoin(lake + share, ends);
    PathsJoin(lake, share);
    assert LivePaths(ends) == [EventsLive(run.id), CHECKPOINT_LIVE];
  }
}
