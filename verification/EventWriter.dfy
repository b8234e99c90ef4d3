/** The event writer: one line per table, in a file named after the run. */
module EventWriter {
  import opened Json
  import opened Results
  import opened Disks
  import opened Outputs
  import opened Writes
  import Jsonl

  datatype StagedEventFile = StagedEventFile(stagedPath: Path, livePath: Path, runId: string, eventCount: nat)

  lemma EventsPlace(id: string)
    ensures InRun(Staged(id, EventsLive(id)), id)
  {
    assert EventsLive(id)[0] == "events";
  }

  /** `stage_events`. */
  method StageEvents(disk: Disk, events: seq<Json>, id: string) returns (r: Outcome<StagedEventFile>)
    modifies disk
    ensures var files := [File(Staged(id, EventsLive(id)), Jsonl.Text(events))];
            && Wrote(files, old(disk.log), old(disk.fs), disk.log, disk.fs)
            && (r.Done? ==> WroteAll(files, old(disk.log), old(disk.fs), disk.log, disk.fs))
    ensures r.Done? ==> r.value == StagedEventFile(Staged(id, EventsLive(id)), EventsLive(id), id, |events|)
    ensures r.Done? ==> Jsonl.CountsLines(r.value.eventCount, Jsonl.Text(events))
    ensures !r.Raised? && (r.Dead? ==> disk.fuel == 0)
    ensures disk.fuel + |disk.log| == old(disk.fuel) + |old(disk.log)|
  {
    hide Line, Wrote, Staged, EventsLive, Jsonl.CountsLines;
    var buf := "";
    for i := 0 to |events|
      invariant buf == Jsonl.Text(events[..i])
    {
      assert events[..i + 1][..i] == events[..i];
      buf := buf + Line(events[i]);
    }
    assert events[..|events|] == events;
    Jsonl.LinesAreCounted(events);
    EventsPlace(id);
    var step := WriteInRun(disk, File(Staged(id, EventsLive(id)), buf), id);
    if step.Dead? {
      return Dead;
    }
    return Done(StagedEventFile(Staged(id, EventsLive(id)), EventsLive(id), id, |events|));
  }
}
