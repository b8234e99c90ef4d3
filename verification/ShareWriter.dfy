/** The share writer: the latest batch of a table, one record a row, replacing what was there. */
module ShareWriter {
  import opened Json
  import opened Results
  import opened Tables
  import opened Checkpoints
  import opened Disks
  import opened Outputs
  import opened Writes
  import Jsonl

  datatype StagedShareFile = StagedShareFile(stagedPath: Path, livePath: Path, table: string, rowCount: nat)

  lemma ShareFile(cfg: Config, t: TableSpec, rows: seq<Row>, id: string, after: Checkpoint)
    requires ValidConfig(cfg) && ValidSpec(t) && ValidRows(t, rows) && ValidCheckpoint(after) && rows != []
    ensures FilesOf(ShareOutputs(cfg, t, rows, id, after))
         == [File(Staged(id, ShareLive(t)), ShareText(cfg, t, rows, id, after))]
    ensures InRun(Staged(id, ShareLive(t)), id)
  {
    hide ShareText;
  }

  function StagedShare(t: TableSpec, rows: seq<Row>, id: string): Option<StagedShareFile> {
    if rows == [] then None else Some(StagedShareFile(Staged(id, ShareLive(t)), ShareLive(t), t.name, |rows|))
  }

  /** `stage_share`: nothing is staged for a table without rows. */
  method StageShare(disk: Disk, cfg: Config, t: TableSpec, rows: seq<Row>, id: string, after: Checkpoint)
    returns (r: Outcome<Option<StagedShareFile>>)
    requires ValidConfig(cfg) && ValidSpec(t) && ValidRows(t, rows) && ValidCheckpoint(after)
    modifies disk
    ensures var files := FilesOf(ShareOutputs(cfg, t, rows, id, after));
            && Wrote(files, old(disk.log), old(disk.fs), disk.log, disk.fs)
            && (r.Done? ==> WroteAll(files, old(disk.log), old(disk.fs), disk.log, disk.fs))
    ensures r.Done? ==> r.value == StagedShare(t, rows, id)
    ensures r.Done? && r.value.Some? ==> Jsonl.CountsLines(r.value.value.rowCount, ShareText(cfg, t, rows, id, after))
    ensures !r.Raised? && (r.Dead? ==> disk.fuel == 0)
    ensures disk.fuel + |disk.log| == old(disk.fuel) + |old(disk.log)|
  {
    hide ShareRecord, ValidRow, ValidSpec, Line, Wrote, Staged, ShareLive, ValidConfig, Jsonl.CountsLines;
    if rows == [] {
      WroteNothing(disk.log, disk.fs);
      WroteIsWroteAll([], disk.log, disk.fs, disk.log, disk.fs);
      return Done(None);
    }
    ghost var vs := ShareRecords(cfg, t, rows, id, after);
    var buf := "";
    for i := 0 to |rows|
      invariant buf == Jsonl.Text(vs[..i])
    {
      assert vs[..i + 1][..i] == vs[..i];
      buf := buf + Line(ShareRecord(cfg, t, rows[i], id, after));
    }
    assert vs[..|rows|] == vs;
    Jsonl.LinesAreCounted(vs);
    ShareFile(cfg, t, rows, id, after);
    var step := WriteInRun(disk, File(Staged(id, ShareLive(t)), buf), id);
    if step.Dead? {
      return Dead;
    }
    return Done(Some(StagedShareFile(Staged(id, ShareLive(t)), ShareLive(t), t.name, |rows|)));
  }
}
