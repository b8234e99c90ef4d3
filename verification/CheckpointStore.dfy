/** Loading and staging the checkpoint file. */
module CheckpointStore {
  import opened Results
  import opened Checkpoints
  import opened Disks
  import opened Outputs
  import opened Writes
  import Runs

  /** `load`: a missing file is the initial checkpoint, every table unread; a file that holds no
      checkpoint is an error; the disk is only read. */
  method Load(disk: Disk, cfg: Config) returns (r: Outcome<Checkpoint>)
    ensures match Runs.LoadCheckpoint(cfg, Live(disk.fs))
            case Corrupt => r == Raised(CorruptCheckpoint)
            case Usable(cp) => r == Done(cp)
    ensures CHECKPOINT_LIVE !in disk.fs.files ==> r == Done(map t | t in TableNames(cfg.tables) :: EMPTY)
    ensures CHECKPOINT_LIVE in disk.fs.files ==>
      forall cp :: r == Done(cp) <==> HoldsCheckpoint(disk.fs.files[CHECKPOINT_LIVE], cp)
  {
    hide LoadFile, HoldsCheckpoint;
    forall cp, text
      ensures LoadFile(TableNames(cfg.tables), Present(text)) == Usable(cp) <==> HoldsCheckpoint(text, cp)
    {
      LoadsExactly(TableNames(cfg.tables), text, cp);
    }
    MissingIsInitial(TableNames(cfg.tables));
    var file := Missing;
    var there := disk.Exists(CHECKPOINT_LIVE);
    if there {
      var text := disk.ReadBytes(CHECKPOINT_LIVE);
      file := Present(text);
    }
    match LoadFile(TableNames(cfg.tables), file)
    case Corrupt => return Raised(CorruptCheckpoint);
    case Usable(cp) => return Done(cp);
  }

  lemma MissingIsInitial(tables: set<string>)
    ensures LoadFile(tables, Missing) == Usable(map t | t in tables :: EMPTY)
  {
  }

  /** `stage`: the live file is not touched. */
  method Stage(disk: Disk, cp: Checkpoint, id: string) returns (r: Outcome<()>)
    requires ValidCheckpoint(cp)
    modifies disk
    ensures var files := [File(Staged(id, CHECKPOINT_LIVE), FileText(cp))];
            && Wrote(files, old(disk.log), old(disk.fs), disk.log, disk.fs)
            && (r.Done? ==> WroteAll(files, old(disk.log), old(disk.fs), disk.log, disk.fs))
    ensures !r.Raised? && (r.Dead? ==> disk.fuel == 0)
    ensures disk.fuel + |disk.log| == old(disk.fuel) + |old(disk.log)|
  {
    hide Wrote, FileText;
    r := WriteInRun(disk, File(Staged(id, CHECKPOINT_LIVE), FileText(cp)), id);
  }
}
