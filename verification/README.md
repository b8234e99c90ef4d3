# Crash-consistent incremental ingest: a verified model

The service copies new and changed rows from Postgres tables into three kinds of files: a *lake*
(an append-only change log in date partitions), *share* files (the latest batch of each table) and
*events* files (one per run). A *checkpoint* file holds one `(updated_at, pk)` watermark per table.
One run resumes whatever a crashed run left, loads the checkpoint, reads every table's delta from one
snapshot, stages all outputs in `state/runs/<run_id>/`, writes a commit plan and a READY marker, renames
the staged files into place in plan order with the checkpoint last, and removes its directory.

This project models that pipeline and proves what it is for: whatever the machine's crashes, the live
files are the result of whole batches, each applied once.

## How the model is laid out

* `Strings`, `Json`, `JsonProofs`, `JsonLayout`, `JsonGrammar`, `Jsonl`: code-point order, the sorted-key
  printer (compact and indented) with a reader for RFC 8259 texts and a declarative grammar of them, and JSON
  Lines.
* `Instants`, `InstantProofs`: timestamps in the canonical UTC form of section 5.6 of RFC 3339, over the
  proleptic Gregorian calendar of years 1 to 9999, and which texts are read as which instant.
* `Tables`, `Checkpoints`, `Source`: rows and their JSON form, watermarks and the checkpoint file, and the
  incremental query over a snapshot.
* `Disks`, `Writes`, `Staging`: the file system as a map from paths to texts plus the set of run
  directories; the machine is an object that performs one atomic operation at a time and may stop before
  any of them. A write is two operations (a temporary file appears, then it is renamed with all its data).
* `Recovery`, `Committer`: plan execution, resuming and cleanup, as functions, as a step relation, and as
  methods over the disk.
* `Outputs`, `Runs`: one run as a function of the live files and a source snapshot: its identity, every
  file it stages, its plan, and the live files it leaves.
* `LakeWriter`, `ShareWriter`, `EventWriter`, `CheckpointStore`, `CheckpointAdvance`, `Orchestrator`: the
  imperative code, as methods with loops over the disk object.
* `System`, `Refinement`, `Traces`: the service as a transition system whose events are source writes, the
  reading of the source, the loss of the process, and single file operations; its invariant; executions;
  the refinement to whole batches; and the link from what the methods log to executions.
* `Logs`, `Reruns`, `Identity`, `Schemas`, `Manifests`, `EventLog`, `Views`, `Consumers`: what the hashed
  texts, the manifest and the files tell, and what their readers can rely on.
* `Durability`, `Hazards`: disks that forget what was not yet synced, and how a cleanup can strand the journal.

## Decisions a reader should know

* **When a batch counts as applied.** Comments in the code call the rename of the checkpoint the commit
  point. Once READY exists, though, resuming always rolls the run forward, so the model counts a batch as
  applied from READY on (`System.Do`), and the abstraction of a state is the live files that its journal
  promises (`Recovery.Target`).
* **Cleanup is not atomic.** A directory is removed one file at a time in any order. If the plan goes before
  READY and the machine stops there, resuming raises. Safety holds always; progress holds exactly when that
  has not happened (`Recovery.StrandedExactly`), and it holds wherever the machine stops exactly when READY
  goes before the plan (`Recovery.ReadyFirstExactly`). Every run the service can decide on can come to a
  refusal (`Hazards.DecidedRunCanStrand`), the first run of any fresh install included
  (`Hazards.StrandedExample`).
* **What the source may do.** Rows are inserted or updated, never deleted, and each write has a key
  `(updated_at, pk)` above the watermark of the newest run that is applied or in memory. Keys are above
  `(0001-01-01T00:00:00Z, 0)` and primary keys are not negative. The bound is exact: with no run in
  memory, the next run sees a write if and only if its key is above the watermark of the last applied run, a
  READY run that waits to be resumed included, or it changes nothing (`Views.NextRunSeesWriteExactly`).
  "Above the live checkpoint" would not be enough, since while such a run has rows and is not finished, the
  live checkpoint is strictly below that watermark (`Views.LiveCheckpointLags`).
* **Dry runs resume first.** So "writes nothing" means: leaves exactly what resuming leaves.
* **Two runs, one identity.** `tests/integration/test_first_and_replay.py:101` expects the first run and the
  no-op run after it to have one run_id. The code hashes the checkpoint the run starts from, so they hash
  different texts; two consecutive runs hash one text exactly when both found nothing
  (`EventLog.SameTextExactly`).
* **A run without rows still writes the checkpoint.** It never touches a lake or share file. The checkpoint file
  stays byte for byte the same exactly when it was already there in the service's own form
  (`Reruns.NoRowsChangeNothingExactly`). Two classes of runs fail that: the first run of a service beside empty
  tables creates the file (`Reruns.FirstRunCreatesCheckpoint`, `Reruns.EmptySourceExample`), and a run on a
  checkpoint file that was written in another layout, such as compact text, rewrites it
  (`Reruns.CompactCheckpointExample`). In executions from a fresh install only the first happens
  (`Views.NoRowsOnDisk`).
* **Key columns and share records.** A share record is a dict with the key column's name among its keys. If that
  name is also one of the fixed members, one value replaces the other, and the record cannot be read back;
  otherwise it can (`Consumers.ShareEntryBack`).
* **Order of tables.** `event_writer.py` describes the table order as alphabetical; the code iterates its
  configured tuple, (customers, cases). The model keeps the configured order.
* **Date keys.** `%Y` is not zero-padded by the C library on Linux, so the text order in which partitions are
  staged is calendar order only under the condition proved in `Instants.DateKeyOrderExactly`. Nothing read
  from the lake depends on it: `Logs.LakeIsLog` reads partitions by calendar day.
* **SHA-256** is a function parameter of the configuration. Where distinct identities or fingerprints matter, it
  is an explicit premise that the digest's prefix does not collide on the texts that are hashed.

## Model

| member | source | states |
|---|---|---|
| Disks.Disk.WriteBytesAtomic | src/caseware_sync/utils/fs.py:65-92 | the target either keeps what it had or holds all of the data; a stop in between leaves at most a hidden temporary file in the same directory |
| Disks.Disk.AtomicRename | src/caseware_sync/utils/fs.py:95-102 | the rename happens completely or not at all |
| Writes.WritingKeepsLive | src/caseware_sync/utils/fs.py:65-92 | any prefix of any sequence of atomic writes below a run directory leaves every live file unchanged |
| Durability.LostSuffixIsAnEarlierCrash | src/caseware_sync/utils/fs.py:7-16 | a disk that, when the machine stops, forgets any number of its latest operations reaches no state that an earlier crash and the source's writes since then do not reach |
| Durability.AnyRemovalsMayBeLost | src/caseware_sync/pipeline/staging.py:175-182 | a disk that keeps any subset of a cleanup's removals and loses the others is in a state the service reaches anyway |
| Json.NormalFormIsEquality | src/caseware_sync/utils/jsonio.py:73-88 | two values have the same sorted-key form if and only if they are equal as JSON values, objects as maps and booleans apart from numbers, so insertion order never matters |
| Strings.LessAtFirstDifference | src/caseware_sync/utils/jsonio.py:73-88 | keys, partitions and run directories sort by the character where they first differ, a prefix first |
| JsonProofs.LoadDumped | src/caseware_sync/utils/jsonio.py:73-113 | reading a compact text, a JSONL line or an indented text gives the value back up to key order |
| JsonProofs.DumpIsInjective | src/caseware_sync/utils/jsonio.py:73-113 | two values have one text, compact or indented, if and only if they are equal as JSON values |
| JsonProofs.CanonicalIsOneLine | src/caseware_sync/utils/jsonio.py:91-97 | the compact text never contains a newline, whatever is in its strings |
| JsonLayout.CanonicalIsShortest | src/caseware_sync/utils/jsonio.py:73-88 | of all texts that are read as the sorted value the canonical one is the shortest and the only one of its length, but for capital hexadecimal digits; so there is no white space and every escape is needed and short |
| JsonLayout.PrettyIsLaidOut | src/caseware_sync/utils/jsonio.py:100-113 | the indented text is the compact one with a line break and two spaces for each open bracket put after brackets and commas, a space after colons, and a newline at the end |
| JsonGrammar.LoadExactly | src/caseware_sync/pipeline/staging.py:151-153 | reading accepts exactly the texts of the RFC 8259 grammar, stated declaratively, each as the value it is a text of |
| Jsonl.SplitText | src/caseware_sync/utils/jsonio.py:91-97 | splitting a JSONL text at newlines gives exactly one piece per value, whatever text follows |
| Jsonl.ReadBack | src/caseware_sync/utils/jsonio.py:91-97 | a file of lines reads back as the values it was written from |
| Instants.IsoUtcZIsStamp | src/caseware_sync/utils/jsonio.py:30-40 | the text is the canonical text of the reading less its offset; naive datetimes and instants out of range are errors |
| Instants.TimestampRoundTrip | src/caseware_sync/utils/jsonio.py:30-51 | a datetime prints exactly when it has an offset and its instant is in range, and then parsing the text gives the reading less its offset |
| Instants.StampInjective | src/caseware_sync/utils/jsonio.py:30-40 | different instants have different texts |
| Instants.DateKeyInjective | src/caseware_sync/outputs/lake_writer.py:163 | different days have different partitions, for all years |
| Instants.DateKeyOrder | src/caseware_sync/outputs/lake_writer.py:119 | among years with the same number of digits the sorted order of keys is calendar order |
| Instants.DateKeyMonotone | src/caseware_sync/outputs/lake_writer.py:119 | in years 1000 to 9999 the partition of a later instant never sorts before that of an earlier one |
| Instants.DateKeyOrderExactly | src/caseware_sync/outputs/lake_writer.py:119 | for any two days, the key of the earlier sorts first if and only if the years have the same number of digits or the shorter year is at most the leading digits of the longer |
| Instants.DateKeyOrderFails | src/caseware_sync/outputs/lake_writer.py:119 | 999-12-31 sorts after the next day, 1000-01-01 |
| InstantProofs.CalendarIsCounted | src/caseware_sync/outputs/lake_writer.py:163 | day numbers count the calendar: the first is 0001-01-01, each date is the day after the one before it by the lengths of the months and the leap rule, and the last is 9999-12-31 |
| InstantProofs.SameInstantPrintsAlike | src/caseware_sync/utils/jsonio.py:30-40 | readings at any two offsets print alike if and only if they are one instant |
| InstantProofs.ZoneIsTakenAway | src/caseware_sync/utils/jsonio.py:43-51 | a reading followed by any signed offset of hours and minutes is read as the reading less that offset, and one followed by Z or by nothing as UTC; out of range is an error |
| InstantProofs.ParsesExactly | src/caseware_sync/utils/jsonio.py:43-51 | exactly which texts are read as which instant: a date and time, with or without six zeros for a whole second, and a zone |
| InstantProofs.StampIsShortest | src/caseware_sync/utils/jsonio.py:15-20 | of the texts that end in Z and are read as an instant the one that is printed is the shortest, so microseconds appear only if they are not zero |
| InstantProofs.TimestampTexts | tests/unit/test_serialization.py:29-50 | the three texts the tests fix, with microseconds and at another offset |
| InstantProofs.DateKeyIsPrinted | src/caseware_sync/outputs/lake_writer.py:163 | the partition of an instant is the date that its own timestamp prints, without leading zeros; from year 1000 on it is the first ten characters |
| Tables.EncodeAppends | src/caseware_sync/outputs/lake_writer.py:195-215 | the text of two batches is the text of one batch after the other |
| Tables.DecodeEncode | src/caseware_sync/outputs/lake_writer.py:195-215 | parsing a lake text gives back exactly the rows it was written from |
| Checkpoints.WatermarkBack | src/caseware_sync/domain/checkpoint.py:51-59 | a watermark survives its dict form |
| Checkpoints.DictRoundTrip | src/caseware_sync/domain/checkpoint.py:88-98 | a checkpoint survives its dict form, whatever the order of its members |
| Checkpoints.DictShape | src/caseware_sync/domain/checkpoint.py:51-52 | the dict form has one member for each table, holding its time and its key and nothing else |
| Checkpoints.FileRoundTrip | tests/unit/test_checkpoint_store.py:61-69 | loading a stored checkpoint gives it back, for every checkpoint |
| Checkpoints.FileTextInjective | src/caseware_sync/domain/checkpoint.py:88-103 | two checkpoints have one dict form, or one file, only if they are equal |
| Checkpoints.LoadsExactly | tests/unit/test_checkpoint_store.py:32-57 | a file loads as a checkpoint if and only if it is one JSON object that says for each of its tables, and no others, that watermark; of two members with one key the later counts |
| Checkpoints.CorruptExactly | tests/unit/test_checkpoint_store.py:44-57 | it is corrupt if and only if it is no JSON object or some member says no watermark |
| CheckpointStore.Load | tests/unit/test_checkpoint_store.py:26-57 | a missing file is the checkpoint with every table unread; a present file gives exactly the checkpoint it holds, and an error if it holds none; nothing is written |
| CheckpointStore.Stage | tests/unit/test_checkpoint_store.py:83-92 | the staged file holds the checkpoint and no live file moves |
| CheckpointAdvance.AdvanceCheckpoint | src/caseware_sync/pipeline/checkpoint_advance.py:18-43 | each table with rows moves to its last row, others stay; a negative key is an error |
| CheckpointAdvance.RaisesExactly | src/caseware_sync/domain/checkpoint.py:41-45 | it raises if and only if the advanced checkpoint would hold a watermark that is none |
| CheckpointAdvance.AdvanceReadsAll | src/caseware_sync/pipeline/checkpoint_advance.py:23-29 | for every table the watermark does not move back and the same source has nothing left to read |
| Source.DeltaIsDelta | src/caseware_sync/source/repository.py:107-115 | the query returns exactly the rows strictly above the watermark in (updated_at, pk) order, each once, ascending |
| Source.DeltaIsUnique | src/caseware_sync/source/repository.py:107-115 | any answer with those properties is the query's answer |
| Source.FirstDeltaReadsAll | src/caseware_sync/domain/checkpoint.py:12-15 | a table never read is read whole, but for a row keyed (0001-01-01T00:00:00Z, 0) |
| Source.DeltaComposes | src/caseware_sync/source/repository.py:107-115 | reading up to any later watermark and then on from it reads what one query would, ties in updated_at included |
| Source.AdvanceReadsAll | src/caseware_sync/source/repository.py:107-115 | after the last row nothing is selected again from the same snapshot |
| Source.DeltaCatchesUp | src/caseware_sync/source/repository.py:107-115 | a log extended by the delta and folded as upserts is the source, if and only if the source moved on from the log only above the watermark |
| Source.WriteIsSeenExactly | src/caseware_sync/source/repository.py:107-115 | a row written to a source the log can catch up with is caught up with if and only if its key is above the watermark or the folded log already holds that very row |
| LakeWriter.GroupByUtcDate | src/caseware_sync/outputs/lake_writer.py:142-165 | every partition lists its rows in batch order; a row without a timestamp, or whose timestamp has no offset, is an error |
| Consumers.FiledByPrintedDate | src/caseware_sync/outputs/lake_writer.py:115-124 | a row's line is filed at lake/<table>/date=<d>/data.jsonl where d is the date its own updated_at member prints |
| LakeWriter.PartitionCountsSum | src/caseware_sync/outputs/lake_writer.py:128-136 | the row counts that the staged partitions report sum to the size of the batch |
| LakeWriter.BuildMergedContent | src/caseware_sync/outputs/lake_writer.py:167-193 | the live text, closed with a newline if it was not, then one line per new row |
| LakeWriter.MergedLines | src/caseware_sync/outputs/lake_writer.py:175-188 | old bytes stay a prefix, and the lines are the old lines, an unclosed last one included, followed by exactly the new ones |
| LakeWriter.StagePartitions | src/caseware_sync/outputs/lake_writer.py:91-138 | the log grows by the writes of one file per touched partition in key order, up to where the machine stops, and no live file moves |
| ShareWriter.StageShare | src/caseware_sync/outputs/share_writer.py:71-114 | nothing for a table without rows, otherwise one file with one record per row in batch order; the row count it reports is the number of lines |
| Consumers.Places | src/caseware_sync/outputs/share_writer.py:58-69 | the paths at which consumers find share, events and checkpoint files |
| Consumers.ShareEntryBack | src/caseware_sync/outputs/share_writer.py:118-154 | a parsed record gives the row complete, its key and time, the run, the fingerprint and the checkpoint the run led to, and has no other members, exactly if the key column is not named like another member; otherwise it does not parse |
| Consumers.ShareReadsBack | src/caseware_sync/outputs/share_writer.py:94-105 | parsing a share file gives exactly the batch, in order, on the same condition |
| Consumers.EventBack | src/caseware_sync/pipeline/orchestrator.py:335-347 | a parsed event gives the table, run, fingerprint, row count, predicted lake and share paths and checkpoint, and has no other members |
| Consumers.EventsReadBack | src/caseware_sync/outputs/event_writer.py:65-85 | parsing an events file gives one event per table in configured order, tables without rows included |
| EventWriter.StageEvents | src/caseware_sync/outputs/event_writer.py:65-85 | one line per event, in the file named after the run; the event count it reports is the number of lines |
| Outputs.RunId | src/caseware_sync/pipeline/run_id.py:66-85 | the identity is lower-case hex text of the configured length |
| Identity.PayloadBack | src/caseware_sync/pipeline/run_id.py:48-56 | the hash input can be read: it says the checkpoint the run started from and the table, key and time of every row selected, in order, and nothing else |
| Identity.PayloadExactly | src/caseware_sync/pipeline/run_id.py:76-84 | two hash inputs are equal if and only if the checkpoints are and, table by table, the ordered row identities are |
| Identity.TableOrderIsIrrelevant | src/caseware_sync/pipeline/run_id.py:76-84 | the order in which tables enter the dictionary does not show in the hash input |
| Identity.NextRunHashesOtherText | src/caseware_sync/pipeline/run_id.py:76-84 | the run after one that found rows never hashes the same text |
| EventLog.SameTextExactly | src/caseware_sync/pipeline/run_id.py:76-84 | two consecutive runs hash the same text if and only if both found nothing |
| EventLog.IdentityExactly | src/caseware_sync/pipeline/run_id.py:76-85 | unless the digest's prefix collides on the hashed texts, two runs of a history have one identity if and only if they hash one text, that is, started from one checkpoint and selected the same rows in the same order |
| Schemas.SchemaBack | src/caseware_sync/pipeline/fingerprint.py:38-43 | the text a fingerprint hashes can be read: it says the table's name and its ordered columns with their types, and nothing else |
| Schemas.FingerprintExactly | src/caseware_sync/pipeline/fingerprint.py:26-44 | unless the digest's prefix collides, two fingerprints are equal if and only if the tables have one name and the same ordered columns and types |
| Staging.PlanRoundTrip | src/caseware_sync/pipeline/staging.py:147-153 | the plan that is loaded is the plan that was written, step by step in order |
| Staging.PlanLoadsExactly | src/caseware_sync/pipeline/staging.py:83-86 | a plan file loads as some steps if and only if it is a JSON object that lists them, or none, as its steps |
| Runs.LabelsTell | src/caseware_sync/pipeline/orchestrator.py:254-317 | every step of a run's plan is labelled with the kind, table and partition of the live file it moves |
| Consumers.StagedPlaces | src/caseware_sync/pipeline/staging.py:105-131 | the paths of staged files, plan and marker, all in the run's own directory |
| Runs.PlanIsSane | src/caseware_sync/pipeline/staging.py:64-86 | a plan built from distinct live places has distinct staged places inside its run directory, never the plan or READY, and survives its file form |
| Runs.LakeAllParts | src/caseware_sync/pipeline/orchestrator.py:254-266 | the lake outputs are exactly one for each touched partition of each table, at distinct places |
| Runs.ShareAllParts | src/caseware_sync/pipeline/orchestrator.py:268-285 | the share outputs are exactly one for each table with rows, at distinct places |
| Runs.EveryOutputIsProper | src/caseware_sync/pipeline/orchestrator.py:252-319 | all outputs of a run lie at pairwise distinct live places outside state/runs and mirror them in the run directory |
| Runs.PublishableIsSane | src/caseware_sync/pipeline/orchestrator.py:309-319 | every run's plan is sane and ends with the checkpoint |
| Runs.TouchedPartitionAfter | src/caseware_sync/outputs/lake_writer.py:118-136 | a committed run leaves in a touched partition its old text and the new lines |
| Runs.OtherPartitionAfter | src/caseware_sync/outputs/lake_writer.py:118-136 | it leaves every other partition as it was |
| Runs.TouchedShareAfter | src/caseware_sync/outputs/share_writer.py:87-114 | it replaces the share file of a table with rows |
| Runs.OtherShareAfter | src/caseware_sync/outputs/share_writer.py:23-30 | it neither creates nor changes the share file of a table without rows |
| Runs.EndsAfter | src/caseware_sync/pipeline/orchestrator.py:287-319 | it leaves its events file, and a checkpoint file that loads as the advanced checkpoint |
| Committer.ExecuteStep | src/caseware_sync/pipeline/commit.py:112-119 | a staged file that is there moves to its live place; one that is gone is skipped |
| Committer.ExecuteSteps | src/caseware_sync/pipeline/commit.py:108-110 | wherever the machine stops, a prefix of the plan has been performed, and every operation logged is a recovery step |
| Committer.Rmtree | src/caseware_sync/pipeline/staging.py:175-182 | in whatever order, only files of that run directory go, and at the end all of them and the directory |
| Committer.Commit | src/caseware_sync/pipeline/commit.py:52-68 | refuses exactly when READY is missing or the plan is missing or unreadable, changing nothing; otherwise carries out the plan and cleans up |
| Committer.RecoverOne | src/caseware_sync/pipeline/commit.py:85-102 | a READY directory is completed, any other is discarded; it raises exactly for READY without a usable plan, changing nothing |
| Committer.ResumePending | src/caseware_sync/pipeline/commit.py:72-104 | all leftover directories in name order; returns their names; if it raises, the directories before a stranded one have been brought to an end and nothing else was done; on a sound journal every logged operation is a recovery step |
| Recovery.SwingKeepsOutcome | src/caseware_sync/pipeline/commit.py:112-119 | performing the next rename leaves the outcome of re-executing the whole plan as it was |
| Recovery.UnlinkKeepsTarget | src/caseware_sync/pipeline/staging.py:175-182 | no removal during cleanup changes a live file or what the journal promises |
| Recovery.RecoveringKeepsTarget | src/caseware_sync/pipeline/commit.py:72-119 | any number of partial commits, resumes and cleanups leaves the promised live files the same |
| Recovery.RecoverReachesTarget | src/caseware_sync/pipeline/commit.py:72-104 | a recovery that ends leaves exactly the promised live files and no run directory |
| Recovery.CrashesDoNotMatter | src/caseware_sync/pipeline/commit.py:72-119 | crash-schedule confluence: stopped anywhere any number of times, finishing gives the live files of one uninterrupted recovery |
| Recovery.RecoveringIsBounded | src/caseware_sync/pipeline/commit.py:72-119 | operations done plus files and directories left is constant, so recovery cannot go on for ever |
| Recovery.JournalOnlyShrinks | src/caseware_sync/pipeline/commit.py:25-28 | recovery never adds or rewrites a journal file |
| Recovery.CleanupCanStrand | src/caseware_sync/pipeline/commit.py:91-96 | after any finished plan, a cleanup stopped once the plan is gone and READY is not leaves a journal that resuming refuses, although every live file is right |
| Hazards.ReadyRunCanStrand | src/caseware_sync/pipeline/commit.py:91-96 | from any moment of any READY run of a reachable state, an execution leads to a disk that resuming refuses although its live files are right |
| Hazards.DecidedRunCanStrand | src/caseware_sync/pipeline/staging.py:175-182 | so does one from the moment any run is decided on |
| Hazards.StrandedExample | src/caseware_sync/pipeline/commit.py:91-96 | from any fresh install, whatever its tables and rows, one whole execution ends there |
| Recovery.StrandedExactly | src/caseware_sync/pipeline/commit.py:91-96 | a stopped recovery is refused if and only if READY is there and the plan is not |
| Recovery.ReadyFirstIsSafe | src/caseware_sync/pipeline/staging.py:175-182 | a recovery that removes READY before the plan can always be resumed to its end |
| Recovery.ReadyFirstExactly | src/caseware_sync/pipeline/staging.py:175-182 | a recovery can be resumed to its end from every point where it may stop if and only if READY goes before the plan |
| Orchestrator.FetchDeltas | src/caseware_sync/pipeline/orchestrator.py:228-238 | every table's delta from its own watermark, all from one snapshot |
| Orchestrator.BuildEvents | src/caseware_sync/pipeline/orchestrator.py:323-348 | one event per table, rows or no rows, in configured order |
| Orchestrator.BuildManifest | src/caseware_sync/pipeline/orchestrator.py:370-404 | one entry per configured table with its counts, predicted paths and fingerprint; what it tells is `Manifests.ManifestTells` |
| Manifests.ManifestTells | src/caseware_sync/pipeline/orchestrator.py:370-404 | the manifest of a run, dry or real, tells the checkpoints that load before and after it, and for each table the number of rows whose text is added, exactly the partitions that change and the share file that is replaced; the events file named after the run says the same |
| Manifests.ManifestCounts | src/caseware_sync/domain/manifest.py:28-33 | in any history the table's lake, read whole, grows by exactly the counted rows |
| Orchestrator.StageOutputs | src/caseware_sync/pipeline/orchestrator.py:240-319 | writes lake, share, events and checkpoint files in that order, returns the plan in that order, and moves nothing live, wherever it stops |
| Orchestrator.Decide | src/caseware_sync/pipeline/orchestrator.py:126-137 | checkpoint, deltas, identity and new checkpoint are those of the run determined by the live files and the snapshot; only an unusable checkpoint raises |
| Orchestrator.StageRun | src/caseware_sync/pipeline/orchestrator.py:173-189 | the log grows by the directory and then the writes of every output, the plan and READY, in that order, cut anywhere |
| Orchestrator.WriteReady | src/caseware_sync/pipeline/staging.py:166-173 | READY appears and the plan beside it stays |
| Orchestrator.StageAndCommit | src/caseware_sync/pipeline/orchestrator.py:173-193 | on a sound disk the operations logged are exactly those of an execution of the system; finished, the run is applied and is what the live files are; cut short, it is applied or it is not |
| Orchestrator.Ingest | src/caseware_sync/pipeline/orchestrator.py:124-224 | a dry run and a run that raises change nothing; it raises exactly when nothing can be decided; on a sound disk the operations logged are those of an execution, and a real run is atomic as above; the manifest is that of the determined run |
| Orchestrator.RunLocked | src/caseware_sync/pipeline/orchestrator.py:118-224 | from any sound disk, stopped at any operation, the operations logged are exactly those of an execution of the system, and the run is atomic; unless it is cut short it raises exactly when a plan was swept away before READY; it is cut short only if the machine has room for no more operations than are left over plus a fixed number for each file of the run; its manifest tells what it found and, after a real run, what the live files now are; a dry run leaves exactly what resuming leaves |
| Orchestrator.StartupResume | src/caseware_sync/pipeline/orchestrator.py:102-110 | on a sound disk it logs exactly the operations of an execution; given room for as many operations as files and directories are left over it ends, leaving the applied batches and nothing else; it raises exactly when the plan was swept away before READY |
| Orchestrator.PredictedPartitions | src/caseware_sync/outputs/lake_writer.py:70-89 | the predicted paths of a table are, in order, the live paths of what is staged |
| Orchestrator.PredictionsArePlan | src/caseware_sync/pipeline/orchestrator.py:142-171 | dry and real manifests differ only in the flag, and the predicted paths are, in order, the live paths of the plan up to events and checkpoint |
| System.StagingKeepsInv | src/caseware_sync/pipeline/orchestrator.py:173-189 | every single operation of staging keeps the invariant, and only the one that makes READY appear applies the run |
| System.ReadyStarts | src/caseware_sync/pipeline/orchestrator.py:187-189 | when READY appears the whole plan is still to be done and every staged file is in place |
| System.SwingAdvances | src/caseware_sync/pipeline/commit.py:108-119 | one more rename extends the finished prefix of the plan by one |
| System.RecoveryKeepsInv | src/caseware_sync/pipeline/commit.py:72-119 | every single rename, removal and directory removal of committing, resuming and cleaning up keeps the invariant |
| Refinement.StepKeepsInv | src/caseware_sync/pipeline/commit.py:62-104 | every event, crash included, keeps the invariant and leaves the applied runs alone, except that writing READY applies the run in memory |
| Refinement.InvAlways | src/caseware_sync/pipeline/commit.py:62-104 | the invariant holds after every execution |
| Refinement.Refines | src/caseware_sync/pipeline/orchestrator.py:118-224 | in every reachable state the journal promises, and with no run pending the live files are, the batches that reached READY applied whole, once and in order |
| Refinement.SnapshotsAreReal | src/caseware_sync/pipeline/orchestrator.py:228-238 | each applied batch was read from one state the source was really in, and these moments are in the order of the batches |
| Refinement.SingleJournal | src/caseware_sync/pipeline/commit.py:83-85 | in every reachable state there is at most one run directory |
| Refinement.ResumeRestores | src/caseware_sync/pipeline/commit.py:72-104 | from every reachable state, resuming to its end gives exactly the applied batches and an empty journal, and is refused only if the plan was swept away before READY |
| Traces.RecoveryTrace | src/caseware_sync/pipeline/commit.py:72-119 | a logged recovery, stopped anywhere, is an execution of the system |
| Traces.StagingTrace | src/caseware_sync/pipeline/orchestrator.py:173-189 | a logged staging, stopped anywhere, is an execution of the system that applies the run exactly if READY was written |
| Logs.LogIsSound | src/caseware_sync/outputs/lake_writer.py:8-29 | a table's committed deltas in run order are strictly increasing in (updated_at, pk), so nothing is published twice, and the watermark is the last key |
| Logs.MarksNeverMoveBack | src/caseware_sync/pipeline/checkpoint_advance.py:23-29 | over any number of runs no watermark moves back |
| Logs.CheckpointLoads | src/caseware_sync/pipeline/orchestrator.py:309-317 | the checkpoint file that any history of runs leaves loads as the last run's checkpoint, or as the initial one if there was none |
| Logs.LakeHoldsLog | src/caseware_sync/outputs/lake_writer.py:115-136 | every partition holds exactly the log's rows of its date in log order, and exists only if there are any |
| Logs.LakeIsLog | src/caseware_sync/outputs/lake_writer.py:115-136 | parsing a table's partitions in date order gives its committed deltas concatenated in run order |
| Logs.ShareHoldsLatest | src/caseware_sync/outputs/share_writer.py:7-9 | the share file is exactly the records of the last run with rows for the table, and absent if there was none |
| Views.Materialises | src/caseware_sync/pipeline/orchestrator.py:228-238 | in every reachable state with no run pending, the lake folded as upserts is the source snapshot of the last committed run |
| Views.BatchCatchesUp | src/caseware_sync/pipeline/orchestrator.py:228-238 | the log of a history, its last batch included, folds to that run's snapshot if and only if the source had moved on from the earlier log only above the earlier watermark |
| Views.AnythingMayHappen | src/caseware_sync/source/repository.py:107-115 | after every execution the process may die and a row may be written if and only if its key is above the initial one and above the newest run's watermark, so nothing else is assumed of the source |
| Views.NextRunSeesWriteExactly | src/caseware_sync/source/repository.py:107-115 | in every reachable state with no run in memory, a READY run pending or not, the next run brings a table level with a source in which any one row was written if and only if the row's key is above the watermark of the last applied run or the log already holds the row |
| Views.LogIsExact | src/caseware_sync/outputs/lake_writer.py:8-29 | in every reachable state with no run pending, a table's partitions in date order are its committed deltas in run order, strictly increasing in (updated_at, pk), and the live checkpoint is at the last |
| Views.ShareIsLatestBatch | src/caseware_sync/outputs/share_writer.py:6-9 | in every reachable state with no run pending, the share file is the last non-empty committed batch, or absent |
| Views.ForeignKeysHold | src/caseware_sync/pipeline/orchestrator.py:228-238 | a foreign key that always held in the source holds between the folded lakes |
| Views.PrefixInvariant | src/caseware_sync/pipeline/commit.py:108-119 | while a READY plan is on the disk, a prefix of it is done and live, the rest is staged and its live files untouched; the checkpoint file is still the old one until the plan is done, and then the run's own |
| Views.PrefixAlways | src/caseware_sync/pipeline/commit.py:108-119 | the same in every reachable state |
| Views.CheckpointTellsDone | src/caseware_sync/pipeline/commit.py:6-9 | for a run with rows the live checkpoint file is the run's own exactly when the plan is done |
| Views.LiveCheckpointLags | src/caseware_sync/pipeline/orchestrator.py:309-317 | while a READY run with rows is not finished the live checkpoint is strictly before the watermark of the applied runs, which the next delta starts from |
| Views.CheckpointNeverAheadIn | src/caseware_sync/pipeline/orchestrator.py:309-317 | wherever the invariant holds, the live checkpoint loads and every selected row at or below it is in the live lake |
| Views.CheckpointNeverAhead | src/caseware_sync/pipeline/orchestrator.py:309-317 | in every reachable state, mid-commit and mid-resume included, the live checkpoint loads and every row that any applied or pending run selected at or below it is in the live lake |
| Views.DiscardedRunIsReproduced | src/caseware_sync/pipeline/orchestrator.py:122-185 | a run that died before READY is, on the same source, the very same run again: same identity, same bytes in every file |
| Reruns.NoRowsOutputs | src/caseware_sync/outputs/share_writer.py:23-30 | a run without rows stages its events file and the checkpoint it started from, nothing else |
| Reruns.NoRowsLeaves | src/caseware_sync/pipeline/orchestrator.py:287-319 | it changes no file but its events file and the checkpoint file, and leaves the latter in the service's own form |
| Reruns.NoRowsChangeNothingExactly | src/caseware_sync/pipeline/orchestrator.py:309-317 | a run without rows changes nothing but its events file if and only if the live checkpoint file is there and is in the service's own form |
| Reruns.FirstRunCreatesCheckpoint | src/caseware_sync/pipeline/orchestrator.py:309-317 | a first run without rows creates the checkpoint file |
| Reruns.EmptySourceExample | src/caseware_sync/pipeline/orchestrator.py:126-129 | beside empty tables the first run is such a run |
| Reruns.CompactCheckpointExample | tests/unit/test_checkpoint_store.py:37-39 | a checkpoint file in compact text loads but is not what the service writes |
| Reruns.NoRowsAfter | src/caseware_sync/pipeline/orchestrator.py:287-319 | a run without rows that is not the first leaves every lake, share, checkpoint and other file byte for byte as it was, its events file apart |
| Views.NoRowsOnDisk | src/caseware_sync/pipeline/orchestrator.py:287-319 | in every execution, a run without rows leaves all live files but its events file as they were if and only if it is not the first |
| Reruns.NoOpFixedPoint | src/caseware_sync/pipeline/run_id.py:1-14 | of two consecutive runs without rows the second has the first's identity and changes no live file at all |
| Views.NoOpKeepsEveryFile | src/caseware_sync/pipeline/run_id.py:1-14 | the same of the live disk in every execution |
| EventLog.SameInputSameEvents | src/caseware_sync/pipeline/run_id.py:76-85 | two runs of a history that hash one text both found nothing and publish the same events |
| EventLog.EventsAreKept | src/caseware_sync/outputs/event_writer.py:65-85 | unless the digest collides on what the runs of a history hash, every run's events file stays what that run wrote, for ever |
| Views.EventsSurvive | src/caseware_sync/outputs/event_writer.py:65-85 | the same of the live disk in every reachable state with no run pending |

## Left out

- Bytes: file contents are sequences of Unicode characters; the UTF-8 encoding and lone surrogates are not modelled.
- JSON numbers are integers: floats, `Decimal`, `bytes` and `date` values of the encoder are not modelled, nor are `\u` surrogate pairs in the reader.
- Instants.FromIsoFormat: reads the extended form that the service writes, with optional microseconds and offset; the other ISO 8601 forms that `datetime.fromisoformat` accepts are errors here.
- Checkpoints.WatermarkFrom: `last_pk` must be a JSON integer where Python's `int()` would also take text such as "30", and `updated_at` must be text where `str()` makes a date of a number such as 20240131.
- Staging.StepFrom: a label must be text where Python takes any JSON value; the service never writes another.
- Staging.PlanLoadsExactly: has the same limit as `Staging.StepFrom`.
- Cells hold 64-bit integers as unbounded ones, text, time instants and timestamps without an offset; the last are an error where partitions are formed, and no valid row holds them elsewhere. NULL and other column types are not modelled.
- `state/checkpoint_store.py` is not part of this model beyond the behaviour that `tests/unit/test_checkpoint_store.py` fixes.
- Paths are kept as given: resolving relative paths, symlinks and configurable roots are left out, the roots being `state`, `lake`, `share` and `events`.
- Sub-directories of a run directory: only its files and the directory itself are operations; new directories are taken to be durable.
- Durability.LostSuffixIsAnEarlierCrash: a disk that keeps an operation and loses an earlier one is covered only for the removals of one cleanup (`Durability.AnyRemovalsMayBeLost`); other reorderings, such as a rename whose target entry lasts and whose source entry reappears, are not modelled.
- I/O errors other than a stop of the machine, such as a full disk, and the fsync calls themselves.
- The file lock and processes that run at the same time: runs are serialised, as the lock intends; `startup_resume`, which takes no lock, is assumed not to overlap a run.
- Postgres connections, cursors and SQL text: the source is a map from primary key to row per table, with one snapshot per run.
- Clocks: the two timestamps of the manifest. Logging and the stdout mirror of events.
- The FastAPI application, settings and dependency wiring; a run_id length outside 8 to 64 is excluded by the configuration instead of raising.
- `compute_schema_fingerprint` is modelled as text that enters the outputs; properties of its own would only be injectivity again.
