/** Sequences of atomic file writes, finished or cut short, as staging performs them. */
module Writes {
  import opened Results
  import opened Strings
  import opened Disks

  datatype File = File(path: Path, data: string)

  /** Operation j of writing these files one after the other, two operations a file. */
  ghost predicate WriteAt(files: seq<File>, ops: seq<Op>, j: int) {
    && 0 <= j < |ops| && j / 2 < |files|
    && var f := files[j / 2];
       if j % 2 == 0 then ops[j].Scratch? && IsTempOf(ops[j].temp, f.path)
       else ops[j - 1].Scratch? && ops[j] == Publish(ops[j - 1].temp, f.path, f.data)
  }

  /** The operations write these files in this order, up to wherever they stop. */
  ghost predicate Writing(files: seq<File>, ops: seq<Op>) {
    |ops| <= 2 * |files| && forall j :: 0 <= j < |ops| ==> WriteAt(files, ops, j)
  }

  ghost predicate StaysInRun(files: seq<File>, run: string) {
    forall i :: 0 <= i < |files| ==> InRun(files[i].path, run)
  }

  lemma NothingWritten()
    ensures Writing([], [])
  {
  }

  /** One more file, written completely or in part. */
  lemma NextWrite(files: seq<File>, ops: seq<Op>, f: File, more: seq<Op>, temp: Path, junk: string)
    requires Writing(files, ops) && |ops| == 2 * |files| && IsTempOf(temp, f.path)
    requires more <= [Scratch(temp, junk), Publish(temp, f.path, f.data)]
    ensures Writing(files + [f], ops + more)
  {
    var all := ops + more;
    forall j | 0 <= j < |all| ensures WriteAt(files + [f], all, j) {
      if j < |ops| {
        assert WriteAt(files, ops, j);
        assert (files + [f])[j / 2] == files[j / 2];
      } else {
        assert (files + [f])[j / 2] == f;
        if j % 2 == 0 { assert all[j] == more[0]; } else { assert all[j] == more[1] && all[j - 1] == more[0]; }
      }
    }
  }

  /** More files to come do not change what was written so far. */
  lemma WritingExtends(files: seq<File>, rest: seq<File>, ops: seq<Op>)
    requires Writing(files, ops)
    ensures Writing(files + rest, ops)
  {
    forall j | 0 <= j < |ops| ensures WriteAt(files + rest, ops, j) {
      assert WriteAt(files, ops, j) && (files + rest)[j / 2] == files[j / 2];
    }
  }

  lemma WritingJoins(a: seq<File>, b: seq<File>, opsA: seq<Op>, opsB: seq<Op>)
    requires Writing(a, opsA) && |opsA| == 2 * |a| && Writing(b, opsB)
    ensures Writing(a + b, opsA + opsB)
  {
    var all := opsA + opsB;
    forall j | 0 <= j < |all| ensures WriteAt(a + b, all, j) {
      if j < |opsA| {
        assert WriteAt(a, opsA, j) && (a + b)[j / 2] == a[j / 2];
      } else {
        var k := j - |opsA|;
        assert WriteAt(b, opsB, k) && (a + b)[j / 2] == b[k / 2];
        assert all[j] == opsB[k] && (k % 2 == 1 ==> all[j - 1] == opsB[k - 1]);
      }
    }
  }

  lemma WritingFront(files: seq<File>, ops: seq<Op>, n: nat)
    requires Writing(files, ops) && n <= |ops|
    ensures Writing(files, ops[..n])
  {
    forall j | 0 <= j < n ensures WriteAt(files, ops[..n], j) { assert WriteAt(files, ops, j); }
  }

  /** Writing inside a run directory leaves the live files alone. */
  lemma {:induction false} WritingKeepsLive(files: seq<File>, ops: seq<Op>, run: string, fs: FS)
    requires Writing(files, ops) && StaysInRun(files, run)
    ensures Live(ApplyAll(ops, fs)) == Live(fs)
  {
    if ops != [] {
      var n := |ops| - 1;
      WritingFront(files, ops, n);
      WritingKeepsLive(files, ops[..n], run, fs);
      assert WriteAt(files, ops, n);
      if n % 2 == 1 { assert WriteAt(files, ops, n - 1); }
      TempsStayInRun(ops[n].temp, files[n / 2].path, run);
    }
  }

  /** What a staging call promises: the log since then writes these files, and nothing live moved. */
  ghost predicate Wrote(files: seq<File>, log0: seq<Op>, fs0: FS, log: seq<Op>, fs: FS) {
    Follows(log0, fs0, log, fs) && Writing(files, log[|log0|..]) && Live(fs) == Live(fs0)
  }

  ghost predicate WroteAll(files: seq<File>, log0: seq<Op>, fs0: FS, log: seq<Op>, fs: FS) {
    Wrote(files, log0, fs0, log, fs) && |log| == |log0| + 2 * |files|
  }

  lemma WroteNothing(log: seq<Op>, fs: FS)
    ensures WroteAll([], log, fs, log, fs)
  {
    assert log[|log|..] == [];
  }

  lemma WroteIsWroteAll(files: seq<File>, log0: seq<Op>, fs0: FS, log: seq<Op>, fs: FS)
    requires WroteAll(files, log0, fs0, log, fs)
    ensures Wrote(files, log0, fs0, log, fs)
  {
  }

  lemma WroteLive(files: seq<File>, log0: seq<Op>, fs0: FS, log: seq<Op>, fs: FS)
    requires Wrote(files, log0, fs0, log, fs)
    ensures Live(fs) == Live(fs0) && Follows(log0, fs0, log, fs)
  {
  }

  lemma WroteThen(a: seq<File>, b: seq<File>, log0: seq<Op>, fs0: FS, log1: seq<Op>, fs1: FS, log2: seq<Op>, fs2: FS)
    requires WroteAll(a, log0, fs0, log1, fs1) && Wrote(b, log1, fs1, log2, fs2)
    ensures Wrote(a + b, log0, fs0, log2, fs2)
    ensures WroteAll(b, log1, fs1, log2, fs2) ==> WroteAll(a + b, log0, fs0, log2, fs2)
  {
    FollowsFollows(log0, fs0, log1, fs1, log2, fs2);
    WritingJoins(a, b, log1[|log0|..], log2[|log1|..]);
    assert log2[|log0|..] == log1[|log0|..] + log2[|log1|..];
  }

  lemma WroteOnly(a: seq<File>, b: seq<File>, log0: seq<Op>, fs0: FS, log: seq<Op>, fs: FS)
    requires Wrote(a, log0, fs0, log, fs)
    ensures Wrote(a + b, log0, fs0, log, fs)
  {
    WritingExtends(a, b, log[|log0|..]);
  }

  /** One write, finished or cut short. */
  lemma WroteOne(f: File, run: string, log0: seq<Op>, fs0: FS, log: seq<Op>, fs: FS, ops: seq<Op>, temp: Path,
      junk: string)
    requires InRun(f.path, run) && IsTempOf(temp, f.path)
    requires Follows(log0, fs0, log, fs) && log == log0 + ops
    requires ops <= [Scratch(temp, junk), Publish(temp, f.path, f.data)]
    ensures Wrote([f], log0, fs0, log, fs)
    ensures |ops| == 2 ==> WroteAll([f], log0, fs0, log, fs)
  {
    hide Writing, InRun, IsTempOf, Apply, ApplyAll;
    NothingWritten();
    NextWrite([], [], f, ops, temp, junk);
    FromNothing(ops, f);
    SuffixOf(log0, ops);
    InRunOnly(f, run);
    WritingKeepsLive([f], ops, run, fs0);
  }

  lemma FromNothing(ops: seq<Op>, f: File)
    ensures [] + ops == ops && [] + [f] == [f]
  {
  }

  lemma InRunOnly(f: File, run: string)
    requires InRun(f.path, run)
    ensures StaysInRun([f], run)
  {
  }

  /** The pair of operations of one whole write, and what is left of it when it is cut. */
  lemma CutWrite(temp: Path, junk: string, f: File)
    ensures var both := [Scratch(temp, junk), Publish(temp, f.path, f.data)];
            [] <= both && [Scratch(temp, junk)] <= both && both <= both
  {
  }

  /** One atomic write into a run directory. */
  method WriteInRun(disk: Disk, f: File, ghost run: string) returns (r: Outcome<()>)
    requires InRun(f.path, run)
    modifies disk
    ensures !r.Raised? && Wrote([f], old(disk.log), old(disk.fs), disk.log, disk.fs)
    ensures r.Done? ==> WroteAll([f], old(disk.log), old(disk.fs), disk.log, disk.fs)
    ensures r.Done? ==> f.path in disk.fs.files && disk.fs.files[f.path] == f.data
    ensures r.Dead? ==> disk.fuel == 0
    ensures disk.fuel + |disk.log| == old(disk.fuel) + |old(disk.log)|
  {
    hide Wrote, WroteAll, Follows, IsTempOf, InRun;
    RunPathIsSome(f.path, run);
    ghost var temp, junk;
    r, temp, junk := disk.WriteBytesAtomic(f.path, f.data);
    ghost var ops := if r.Done? then [Scratch(temp, junk), Publish(temp, f.path, f.data)]
      else if disk.log == old(disk.log) then [] else [Scratch(temp, junk)];
    CutWrite(temp, junk, f);
    AddNothing(old(disk.log));
    WroteOne(f, run, old(disk.log), old(disk.fs), disk.log, disk.fs, ops, temp, junk);
  }

  lemma RunPathIsSome(p: Path, run: string)
    requires InRun(p, run)
    ensures p != []
  {
  }

}
