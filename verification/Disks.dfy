/** The file system under the service: paths, files, run directories, and a machine that can stop
    between any two file operations. */
module Disks {
  import opened Results

  /** Path components below the service's working directory. */
  type Path = seq<string>

  /** Files by path, and the run directories that exist under state/runs. */
  datatype FS = FS(files: map<Path, string>, runs: set<string>)

  function RunRoot(run: string): Path { ["state", "runs", run] }

  /** The path of a file inside the run's staging directory. */
  predicate InRun(p: Path, run: string) {
    |p| > 3 && p[0] == "state" && p[1] == "runs" && p[2] == run
  }

  /** Everything outside state/runs is live. */
  predicate IsLive(p: Path) {
    !(|p| > 1 && p[0] == "state" && p[1] == "runs")
  }

  function Live(fs: FS): map<Path, string> {
    map p | p in fs.files && IsLive(p) :: fs.files[p]
  }

  // ------------------------------------------------------------ operations

  /** The atomic file operations. A write is two of them: a temporary file appears, with any content
      while it is being filled, and is then renamed onto its target with all of its data. */
  datatype Op =
    | Scratch(temp: Path, junk: string)
    | Publish(temp: Path, target: Path, data: string)
    | Swing(src: Path, dst: Path)
    | Unlink(path: Path)
    | MakeRun(run: string)
    | DropRun(run: string)

  function Apply(op: Op, fs: FS): FS {
    match op
    case Scratch(temp, junk) => fs.(files := fs.files[temp := junk])
    case Publish(temp, target, data) => fs.(files := (fs.files - {temp})[target := data])
    case Swing(src, dst) => if src in fs.files then fs.(files := (fs.files - {src})[dst := fs.files[src]]) else fs
    case Unlink(p) => fs.(files := fs.files - {p})
    case MakeRun(run) => fs.(runs := fs.runs + {run})
    case DropRun(run) => fs.(runs := fs.runs - {run})
  }

  function ApplyAll(ops: seq<Op>, fs: FS): FS {
    if ops == [] then fs else Apply(ops[|ops| - 1], ApplyAll(ops[..|ops| - 1], fs))
  }

  lemma {:induction false} ApplyAllJoins(a: seq<Op>, b: seq<Op>, fs: FS)
    ensures ApplyAll(a + b, fs) == ApplyAll(b, ApplyAll(a, fs))
  {
    if b == [] {
      assert a + b == a;
    } else {
      ApplyAllJoins(a, b[..|b| - 1], fs);
      assert (a + b)[..|a + b| - 1] == a + b[..|b| - 1];
    }
  }

  /** Later is reached from earlier by the operations that were logged in between. */
  ghost predicate Follows(log0: seq<Op>, fs0: FS, log: seq<Op>, fs: FS) {
    log0 <= log && fs == ApplyAll(log[|log0|..], fs0)
  }

  lemma FollowsFollows(log0: seq<Op>, fs0: FS, log1: seq<Op>, fs1: FS, log2: seq<Op>, fs2: FS)
    requires Follows(log0, fs0, log1, fs1) && Follows(log1, fs1, log2, fs2)
    ensures Follows(log0, fs0, log2, fs2)
  {
    ApplyAllJoins(log1[|log0|..], log2[|log1|..], fs0);
    assert log2[|log0|..] == log1[|log0|..] + log2[|log1|..];
  }

  // ------------------------------------------------------------ the machine

  class Disk {
    var fs: FS
    var fuel: nat          // operations left before the machine stops
    ghost var log: seq<Op> // every operation performed so far

    constructor (fs: FS, fuel: nat)
      ensures this.fs == fs && this.fuel == fuel && log == []
    {
      this.fs := fs;
      this.fuel := fuel;
      this.log := [];
    }

    /** One atomic operation, unless the machine has stopped. */
    method Perform(op: Op) returns (r: Outcome<()>)
      modifies this
      ensures r == if old(fuel) > 0 then Done(()) else Dead
      ensures r.Done? ==> fuel == old(fuel) - 1 && fs == Apply(op, old(fs)) && log == old(log) + [op]
      ensures r.Dead? ==> fuel == 0 && fs == old(fs) && log == old(log)
      ensures Follows(old(log), old(fs), log, fs)
      ensures fuel + |log| == old(fuel) + |old(log)|
    {
      if fuel == 0 {
        return Dead;
      }
      fs := Apply(op, fs);
      fuel := fuel - 1;
      log := log + [op];
      assert log[|old(log)|..] == [op];
      assert [op][..0] == [];
      return Done(());
    }

    method Exists(p: Path) returns (b: bool)
      ensures b <==> p in fs.files
    {
      b := p in fs.files;
    }

    method ReadBytes(p: Path) returns (text: string)
      requires p in fs.files
      ensures text == fs.files[p]
    {
      text := fs.files[p];
    }

    /** `atomic_rename`. */
    method AtomicRename(src: Path, dst: Path) returns (r: Outcome<()>)
      requires src in fs.files
      modifies this
      ensures r.Done? ==> fs == Apply(Swing(src, dst), old(fs)) && log == old(log) + [Swing(src, dst)]
      ensures r.Dead? ==> fuel == 0 && fs == old(fs) && log == old(log)
      ensures !r.Raised? && Follows(old(log), old(fs), log, fs)
      ensures fuel + |log| == old(fuel) + |old(log)|
    {
      r := Perform(Swing(src, dst));
    }

    /** `write_bytes_atomic`: the target either keeps what it had or holds all of data; a stop in
        between leaves at most a temporary file beside it. */
    method WriteBytesAtomic(target: Path, data: string) returns (r: Outcome<()>, ghost temp: Path, ghost junk: string)
      requires target != []
      modifies this
      ensures IsTempOf(temp, target)
      ensures r.Done? ==> fs == Apply(Publish(temp, target, data), Apply(Scratch(temp, junk), old(fs)))
      ensures r.Done? ==> log == old(log) + [Scratch(temp, junk), Publish(temp, target, data)]
      ensures r.Dead? ==> fuel == 0 && (log == old(log) || log == old(log) + [Scratch(temp, junk)])
      ensures !r.Raised? && Follows(old(log), old(fs), log, fs)
      ensures fuel + |log| == old(fuel) + |old(log)|
    {
      var unique: string := *;
      var partial: string := *;
      var path := TempPath(target, unique);
      temp, junk := path, partial;
      r := Perform(Scratch(path, partial));
      if r.Done? {
        ghost var log1, fs1 := log, fs;
        r := Perform(Publish(path, target, data));
        FollowsFollows(old(log), old(fs), log1, fs1, log, fs);
      }
    }
  }

  /** `mkstemp` beside the target: ".<name>.<random>.tmp". */
  function TempPath(target: Path, unique: string): Path
    requires target != []
  {
    target[..|target| - 1] + ["." + target[|target| - 1] + "." + unique + ".tmp"]
  }

  predicate IsTemp(p: Path) {
    p != [] && "." <= p[|p| - 1]
  }

  ghost predicate IsTempOf(temp: Path, target: Path) {
    && target != [] && |temp| == |target|
    && temp[..|target| - 1] == target[..|target| - 1]
    && IsTemp(temp)
  }

  lemma TempsStayInRun(temp: Path, target: Path, run: string)
    requires IsTempOf(temp, target) && InRun(target, run)
    ensures InRun(temp, run)
  {
    var k := |target| - 1;
    assert forall i :: 0 <= i < k ==> temp[i] == temp[..k][i] == target[..k][i] == target[i];
  }
}
