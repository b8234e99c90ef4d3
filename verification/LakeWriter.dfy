/** The lake writer: grouping a batch by UTC date, appending to partitions by replacement, and
    staging one file for each touched partition. */
module LakeWriter {
  import opened Strings
  import opened Json
  import opened Results
  import opened Tables
  import opened Disks
  import opened Outputs
  import opened Writes
  import Jsonl

  datatype StagedLakePartition = StagedLakePartition(
    stagedPath: Path,
    livePath: Path,
    table: string,
    dateKey: string,
    rowCount: nat)

  // ------------------------------------------------------------ grouping

  /** The row has an updated_at that is a timestamp with an offset. */
  predicate Dated(row: Row) { "updated_at" in row && row["updated_at"].TimeCell? }

  predicate AllDated(rows: seq<Row>) {
    forall i :: 0 <= i < |rows| ==> Dated(rows[i])
  }

  /** The batch, partition by partition. */
  function Groups(rows: seq<Row>): map<string, seq<Row>>
    requires Timed(rows)
  {
    map key | key in DateKeys(rows) :: OnDate(rows, key)
  }

  lemma GroupsGrow(rows: seq<Row>, i: nat)
    requires Timed(rows) && i < |rows|
    ensures var front, key := Groups(rows[..i]), DateKeyOf(rows[i]);
            Groups(rows[..i + 1]) == front[key := (if key in front then front[key] else []) + [rows[i]]]
  {
    hide DateKeyOf, DateKeys;
    var key := DateKeyOf(rows[i]);
    var front := Groups(rows[..i]);
    DateKeysGrow(rows, i);
    assert rows[..i + 1][..i] == rows[..i];
    assert forall k :: OnDate(rows[..i + 1], k) == OnDate(rows[..i], k) + (if key == k then [rows[i]] else []);
    if key !in front { NoneOnDate(rows[..i], key); }
    forall k | k in DateKeys(rows[..i]) && k != key ensures OnDate(rows[..i + 1], k) == front[k] {
      assert OnDate(rows[..i], k) + [] == OnDate(rows[..i], k);
    }
  }

  lemma KeyIsThere(rows: seq<Row>, i: nat)
    requires Timed(rows) && i < |rows|
    ensures DateKeyOf(rows[i]) in DateKeys(rows)
  {
  }

  lemma DateKeysGrow(rows: seq<Row>, i: nat)
    requires Timed(rows) && i < |rows|
    ensures DateKeys(rows[..i + 1]) == DateKeys(rows[..i]) + {DateKeyOf(rows[i])}
  {
    hide DateKeyOf;
    var a, b := rows[..i + 1], rows[..i];
    forall k | k in DateKeys(a) ensures k in DateKeys(b) || k == DateKeyOf(rows[i]) {
      var j :| 0 <= j < |a| && DateKeyOf(a[j]) == k;
      if j < i { assert b[j] == a[j]; KeyIsThere(b, j); }
    }
    forall k | k in DateKeys(b) ensures k in DateKeys(a) {
      var j :| 0 <= j < |b| && DateKeyOf(b[j]) == k;
      assert b[j] == a[j];
      KeyIsThere(a, j);
    }
    KeyIsThere(a, i);
  }

  lemma {:induction false} NoneOnDate(rows: seq<Row>, key: string)
    requires Timed(rows) && key !in DateKeys(rows)
    ensures OnDate(rows, key) == []
  {
    hide DateKeyOf, DateKeys;
    if rows != [] {
      var n := |rows| - 1;
      DateKeysGrow(rows, n);
      TakeAll(rows);
      NoneOnDate(rows[..n], key);
    }
  }

  /** `_group_by_utc_date`: a row without a timestamp, or with one that has no offset, is an error;
      otherwise every partition lists its rows in batch order. */
  method GroupByUtcDate(rows: seq<Row>) returns (r: Outcome<map<string, seq<Row>>>)
    requires Timed(rows)
    ensures r == if AllDated(rows) then Done(Groups(rows)) else Raised(ValueError)
  {
    hide Groups, OnDate, DateKeys, DateKeyOf;
    var out: map<string, seq<Row>> := map[];
    NoGroups();
    for i := 0 to |rows|
      invariant AllDated(rows[..i])
      invariant out == Groups(rows[..i])
    {
      var row := rows[i];
      if "updated_at" !in row || !(row["updated_at"].TimeCell? || row["updated_at"].NaiveCell?) {
        assert !Dated(rows[i]);
        return Raised(ValueError);
      }
      if row["updated_at"].NaiveCell? {
        assert !Dated(rows[i]);
        return Raised(ValueError);
      }
      var key := DateKeyOf(row);
      if key !in out {
        out := out[key := []];
      }
      out := out[key := out[key] + [row]];
      GroupsGrow(rows, i);
    }
    assert rows[..|rows|] == rows;
    return Done(out);
  }

  lemma NoGroups()
    ensures Groups([]) == map[]
  {
  }

  /** Rows over the partitions, counted. */
  function Counted(rows: seq<Row>, keys: seq<string>): nat
    requires Timed(rows)
  {
    if keys == [] then 0 else Counted(rows, keys[..|keys| - 1]) + |OnDate(rows, keys[|keys| - 1])|
  }

  lemma {:induction false} CountedGrows(rows: seq<Row>, keys: seq<string>)
    requires rows != [] && Timed(rows) && Ascending(keys)
    ensures var n := |rows| - 1;
            Counted(rows, keys) == Counted(rows[..n], keys) + (if DateKeyOf(rows[n]) in keys then 1 else 0)
  {
    hide DateKeyOf;
    if keys != [] {
      var k := |keys| - 1;
      CountedGrows(rows, keys[..k]);
      if keys[k] in keys[..k] {
        var i :| 0 <= i < k && keys[..k][i] == keys[k];
        AscendingDistinct(keys, i, k);
      }
    }
  }

  lemma {:induction false} RowCountsSum(rows: seq<Row>, keys: seq<string>)
    requires Timed(rows) && Ascending(keys)
    requires forall i :: 0 <= i < |rows| ==> DateKeyOf(rows[i]) in keys
    ensures Counted(rows, keys) == |rows|
  {
    hide DateKeyOf;
    if rows == [] {
      NothingCounted(keys);
    } else {
      CountedGrows(rows, keys);
      RowCountsSum(rows[..|rows| - 1], keys);
    }
  }

  lemma {:induction false} NothingCounted(keys: seq<string>)
    ensures Counted([], keys) == 0
  {
    if keys != [] { NothingCounted(keys[..|keys| - 1]); }
  }

  // ------------------------------------------------------------ appending

  /** The complete lines of a text, an unfinished last one included. */
  function LinesOf(text: string): seq<string> {
    var pieces := Split('\n', text);
    if pieces[|pieces| - 1] == "" then pieces[..|pieces| - 1] else pieces
  }

  lemma {:induction false} LastPiece(s: string)
    ensures var p := Split('\n', s); p[|p| - 1] == "" <==> s == "" || Jsonl.EndsWithNewline(s)
  {
    if s != "" {
      LastPiece(s[1..]);
      if |s| == 1 {
        assert s[1..] == "";
      } else {
        assert s[1..][|s| - 2] == s[|s| - 1];
      }
      if s[0] != '\n' { assert s[|s| - 1] == '\n' ==> |s| > 1; }
    }
  }

  lemma {:induction false} SplitThen(a: string, b: string)
    ensures Split('\n', a + ['\n'] + b) == Split('\n', a) + Split('\n', b)
  {
    var s := a + ['\n'] + b;
    if a == "" {
      assert s[1..] == b;
    } else {
      SplitThen(a[1..], b);
      SplitStep(a, a[1..]);
      SplitStep(s, a[1..] + ['\n'] + b);
      FrontJoins(a[0], Split('\n', a[1..]), Split('\n', b));
    }
  }

  lemma SplitStep(s: string, rest: string)
    requires s != "" && s[1..] == rest
    ensures Split('\n', s) == Front(s[0], Split('\n', rest))
  {
  }

  /** One more character at the front of the pieces. */
  function Front(c: char, pieces: seq<string>): seq<string>
    requires |pieces| > 0
  {
    if c == '\n' then [""] + pieces else [[c] + pieces[0]] + pieces[1..]
  }

  lemma FrontJoins(c: char, a: seq<string>, b: seq<string>)
    requires |a| > 0
    ensures Front(c, a + b) == Front(c, a) + b
  {
    assert (a + b)[1..] == a[1..] + b;
  }

  /** Replacing a partition with its merged text is an append: the old bytes stay a prefix, and the
      lines are the old lines, even where the last was not closed, then one line for each new row. */
  lemma {:induction false} MergedLines(existing: string, t: TableSpec, rows: seq<Row>)
    requires ValidRows(t, rows)
    ensures var text := Merged(existing, Encode(t, rows));
            existing <= text && LinesOf(text) == LinesOf(existing) + Jsonl.Canonicals(RowJsons(t, rows))
  {
    hide Split, Canonical, RowJson, ValidRow, Jsonl.Text, Jsonl.Canonicals, RowJsons, Encode, LinesOf;
    var vs := RowJsons(t, rows);
    Jsonl.SplitText(vs, "");
    EncodeIsText(t, rows);
    SplitNothing();
    if existing == "" {
      NothingBefore(Encode(t, rows));
      OnlyLines(Encode(t, rows), Jsonl.Canonicals(vs));
    } else if Jsonl.EndsWithNewline(existing) {
      var body := existing[..|existing| - 1];
      ClosedText(existing, body, Encode(t, rows));
      SplitThen(body, "");
      SplitThen(body, Encode(t, rows));
      LinesBefore(Split('\n', body), existing, []);
      LinesBefore(Split('\n', body), existing + Encode(t, rows), Jsonl.Canonicals(vs));
    } else {
      OpenLines(existing);
      OpenText(existing, Encode(t, rows));
      SplitThen(existing, Encode(t, rows));
      LinesBefore(Split('\n', existing), existing + "\n" + Encode(t, rows), Jsonl.Canonicals(vs));
    }
  }

  lemma EncodeIsText(t: TableSpec, rows: seq<Row>)
    requires ValidRows(t, rows)
    ensures Jsonl.Text(RowJsons(t, rows)) + "" == Encode(t, rows)
  {
    hide Jsonl.Text;
  }

  /** A text that splits into these pieces, these lines and nothing after them. */
  lemma LinesBefore(pieces: seq<string>, text: string, ls: seq<string>)
    requires Split('\n', text) == pieces + (ls + [""])
    ensures LinesOf(text) == pieces + ls
  {
    hide Split;
    assert pieces + (ls + [""]) == (pieces + ls) + [""];
  }

  lemma OnlyLines(text: string, ls: seq<string>)
    requires Split('\n', text) == ls + [""]
    ensures LinesOf(text) == LinesOf("") + ls
  {
    hide Split;
    SplitNothing();
    assert LinesOf("") == [];
  }

  lemma NothingBefore(lines: string)
    ensures "" + lines == lines
  {
  }

  lemma OpenLines(text: string)
    requires text != "" && !Jsonl.EndsWithNewline(text)
    ensures LinesOf(text) == Split('\n', text)
  {
    LastPiece(text);
  }

  lemma ClosedText(existing: string, body: string, lines: string)
    requires Jsonl.EndsWithNewline(existing) && body == existing[..|existing| - 1]
    ensures existing == body + ['\n'] + "" && existing + lines == body + ['\n'] + lines
    ensures existing <= existing + lines
  {
  }

  lemma OpenText(existing: string, lines: string)
    ensures existing + "\n" + lines == existing + ['\n'] + lines && existing <= existing + "\n" + lines
  {
  }

  lemma SplitNothing()
    ensures Split('\n', "") == [""]
  {
  }

  lemma RowIsFit(t: TableSpec, rows: seq<Row>, i: nat)
    requires ValidRows(t, rows) && i < |rows|
    ensures RowFits(t.columns, rows[i])
  {
  }

  lemma LineAdded(existing: string, vs: seq<Json>, i: nat)
    requires i < |vs|
    ensures existing + Jsonl.Text(vs[..i + 1]) == existing + Jsonl.Text(vs[..i]) + Line(vs[i])
  {
    hide Line;
    FrontOfTake(vs, i);
  }

  lemma AllLines(vs: seq<Json>)
    ensures vs[..|vs|] == vs && Jsonl.Text(vs[..0]) == ""
  {
  }

  /** `_build_merged_content`. */
  method BuildMergedContent(disk: Disk, t: TableSpec, livePath: Path, newRows: seq<Row>) returns (text: string)
    requires ValidRows(t, newRows)
    ensures text == Merged(TextAt(disk.fs.files, livePath), Encode(t, newRows))
  {
    hide RowJson, ValidRow, Line, Jsonl.Text;
    var existing := "";
    var there := disk.Exists(livePath);
    if there {
      existing := disk.ReadBytes(livePath);
    }
    if existing != "" && existing[|existing| - 1] != '\n' {
      existing := existing + "\n";
    }
    var appended := existing;
    ghost var vs := RowJsons(t, newRows);
    AllLines(vs);
    for i := 0 to |newRows|
      invariant appended == existing + Jsonl.Text(vs[..i])
    {
      LineAdded(existing, vs, i);
      RowIsFit(t, newRows, i);
      appended := appended + Line(RowJson(t, newRows[i]));
    }
    return appended;
  }

  // ------------------------------------------------------------ staging

  function StagedPartition(t: TableSpec, rows: seq<Row>, key: string, id: string): StagedLakePartition
    requires Timed(rows)
  {
    StagedLakePartition(Staged(id, LakeLive(t, key)), LakeLive(t, key), t.name, key, |OnDate(rows, key)|)
  }

  function StagedPartitions(t: TableSpec, rows: seq<Row>, keys: seq<string>, id: string): (ps: seq<StagedLakePartition>)
    requires Timed(rows)
    ensures |ps| == |keys| && forall i :: 0 <= i < |keys| ==> ps[i] == StagedPartition(t, rows, keys[i], id)
  {
    seq(|keys|, i requires 0 <= i < |keys| => StagedPartition(t, rows, keys[i], id))
  }

  function RowCounts(ps: seq<StagedLakePartition>): nat {
    if ps == [] then 0 else RowCounts(ps[..|ps| - 1]) + ps[|ps| - 1].rowCount
  }

  lemma {:induction false} RowCountsAreCounted(t: TableSpec, rows: seq<Row>, keys: seq<string>, id: string)
    requires Timed(rows)
    ensures RowCounts(StagedPartitions(t, rows, keys, id)) == Counted(rows, keys)
  {
    hide OnDate, LakeLive, Staged;
    if keys != [] {
      var n := |keys| - 1;
      RowCountsAreCounted(t, rows, keys[..n], id);
      assert StagedPartitions(t, rows, keys, id)[..n] == StagedPartitions(t, rows, keys[..n], id);
    }
  }

  /** No row is lost or counted twice: the staged partitions' row counts sum to the batch. */
  lemma {:induction false} PartitionCountsSum(t: TableSpec, rows: seq<Row>, id: string)
    requires Timed(rows)
    ensures RowCounts(StagedPartitions(t, rows, SortedKeys(DateKeys(rows)), id)) == |rows|
  {
    hide StagedPartitions, RowCounts, Counted;
    SortedKeysAscend(DateKeys(rows));
    RowCountsSum(rows, SortedKeys(DateKeys(rows)));
    RowCountsAreCounted(t, rows, SortedKeys(DateKeys(rows)), id);
  }

  lemma LakeFile(t: TableSpec, rows: seq<Row>, key: string, live: map<Path, string>, id: string)
    requires ValidSpec(t) && ValidRows(t, rows) && Timed(rows)
    ensures ValidRows(t, OnDate(rows, key))
    ensures LakeOutput(t, rows, key, live, id).step.stagedPath == Staged(id, LakeLive(t, key))
    ensures LakeOutput(t, rows, key, live, id).data
         == Merged(TextAt(live, LakeLive(t, key)), Encode(t, OnDate(rows, key)))
    ensures InRun(Staged(id, LakeLive(t, key)), id) && IsLive(LakeLive(t, key))
  {
    OnDateValid(t, rows, key);
  }

  lemma LakeFilesGrow(t: TableSpec, rows: seq<Row>, keys: seq<string>, live: map<Path, string>, id: string, i: nat)
    requires ValidSpec(t) && ValidRows(t, rows) && Timed(rows) && i < |keys|
    ensures FilesOf(LakeOutputsFor(t, rows, keys[..i + 1], live, id))
         == FilesOf(LakeOutputsFor(t, rows, keys[..i], live, id))
          + [File(LakeOutput(t, rows, keys[i], live, id).step.stagedPath, LakeOutput(t, rows, keys[i], live, id).data)]
  {
    hide LakeOutput;
    assert keys[..i + 1][..i] == keys[..i];
  }

  lemma LakeFilesPrefix(t: TableSpec, rows: seq<Row>, keys: seq<string>, live: map<Path, string>, id: string, i: nat)
    requires ValidSpec(t) && ValidRows(t, rows) && Timed(rows) && i <= |keys|
    ensures FilesOf(LakeOutputsFor(t, rows, keys[..i], live, id)) <= FilesOf(LakeOutputsFor(t, rows, keys, live, id))
  {
    hide LakeOutput;
    var a, b := LakeOutputsFor(t, rows, keys[..i], live, id), LakeOutputsFor(t, rows, keys, live, id);
    forall j | 0 <= j < i ensures a[j] == b[j] {
      LakeOutputAt(t, rows, keys[..i], live, id, j);
      LakeOutputAt(t, rows, keys, live, id, j);
    }
  }

  /** `stage_partitions`: one staged file for each touched partition, in key order, holding what
      the partition will hold. */
  method StagePartitions(disk: Disk, t: TableSpec, rows: seq<Row>,
      id: string) returns (r: Outcome<seq<StagedLakePartition>>)
    requires ValidSpec(t) && ValidRows(t, rows) && Timed(rows)
    modifies disk
    ensures var files := FilesOf(LakeOutputs(t, rows, Live(old(disk.fs)), id));
            && Wrote(files, old(disk.log), old(disk.fs), disk.log, disk.fs)
            && (r.Done? ==> WroteAll(files, old(disk.log), old(disk.fs), disk.log, disk.fs))
    ensures r.Done? ==> r.value == StagedPartitions(t, rows, SortedKeys(DateKeys(rows)), id)
    ensures !r.Raised? && (r.Dead? ==> disk.fuel == 0)
    ensures disk.fuel + |disk.log| == old(disk.fuel) + |old(disk.log)|
  {
    hide LakeOutput, LakeOutputsFor, OnDate, DateKeys, Wrote, WroteAll, ValidSpec, ValidRow, SortedKeys, FilesOf;
    hide LakeLive, Staged, StagedPartition, StagedPartitions, Encode, Merged, DateKeyOf, Live, ValidRows, Timed;
    ghost var live := Live(disk.fs);
    WroteNothing(disk.log, disk.fs);
    WroteIsWroteAll([], disk.log, disk.fs, disk.log, disk.fs);
    if rows == [] {
      NoPartitions(t, live, id);
      return Done([]);
    }
    RowsAreDated(t, rows);
    var grouped := GroupByUtcDate(rows);
    var partitions := grouped.value;
    var keys := SortedKeys(partitions.Keys);
    var out: seq<StagedLakePartition> := [];
    ghost var all := FilesOf(LakeOutputsFor(t, rows, keys, live, id));
    NoLakeFiles(t, rows, keys[..0], live, id);
    while |out| < |keys|
      invariant |out| <= |keys| && out == StagedPartitions(t, rows, keys[..|out|], id)
      invariant WroteAll(FilesOf(LakeOutputsFor(t, rows, keys[..|out|], live, id)),
                  old(disk.log), old(disk.fs), disk.log, disk.fs)
      invariant Live(disk.fs) == live
      invariant disk.fuel + |disk.log| == old(disk.fuel) + |old(disk.log)|
    {
      var i := |out|;
      var key := keys[i];
      var stagedPath, livePath := Staged(id, LakeLive(t, key)), LakeLive(t, key);
      LakeFile(t, rows, key, live, id);
      LakeFilesGrow(t, rows, keys, live, id, i);
      LakeFilesPrefix(t, rows, keys, live, id, i + 1);
      LiveText(disk.fs, livePath);
      var merged := BuildMergedContent(disk, t, livePath, partitions[key]);
      ghost var log1, fs1 := disk.log, disk.fs;
      ghost var f := File(stagedPath, merged);
      var step := WriteInRun(disk, File(stagedPath, merged), id);
      ghost var done := FilesOf(LakeOutputsFor(t, rows, keys[..i], live, id));
      WroteThen(done, [f], old(disk.log), old(disk.fs), log1, fs1, disk.log, disk.fs);
      WroteLive(done + [f], old(disk.log), old(disk.fs), disk.log, disk.fs);
      if step.Dead? {
        WroteOnly(done + [f], all[|done| + 1..], old(disk.log), old(disk.fs), disk.log, disk.fs);
        assert all == done + [f] + all[|done| + 1..];
        return Dead;
      }
      out := out + [StagedLakePartition(stagedPath, livePath, t.name, key, |partitions[key]|)];
      PartitionListed(t, rows, keys, id, i);
      PartitionFields(t, rows, key, id);
    }
    assert keys[..|keys|] == keys;
    WroteIsWroteAll(all, old(disk.log), old(disk.fs), disk.log, disk.fs);
    return Done(out);
  }

  lemma PartitionListed(t: TableSpec, rows: seq<Row>, keys: seq<string>, id: string, i: nat)
    requires Timed(rows) && i < |keys|
    ensures StagedPartitions(t, rows, keys[..i + 1], id)
         == StagedPartitions(t, rows, keys[..i], id) + [StagedPartition(t, rows, keys[i], id)]
  {
    hide StagedPartition;
    var all, front := StagedPartitions(t, rows, keys[..i + 1], id), StagedPartitions(t, rows, keys[..i], id);
    FrontOfTake(keys, i);
    forall j | 0 <= j < i ensures all[j] == front[j] { assert keys[..i + 1][j] == keys[..i][j]; }
  }

  lemma PartitionFields(t: TableSpec, rows: seq<Row>, key: string, id: string)
    requires Timed(rows)
    ensures StagedPartition(t, rows, key, id)
         == StagedLakePartition(Staged(id, LakeLive(t, key)), LakeLive(t, key), t.name, key, |OnDate(rows, key)|)
  {
  }

  lemma RowsAreDated(t: TableSpec, rows: seq<Row>)
    requires ValidSpec(t) && ValidRows(t, rows) && Timed(rows)
    ensures AllDated(rows)
    ensures Groups(rows).Keys == DateKeys(rows)
    ensures forall key :: key in DateKeys(rows) ==> Groups(rows)[key] == OnDate(rows, key)
  {
    forall i | 0 <= i < |rows| ensures Dated(rows[i]) { SpecialCells(t, rows[i]); }
  }

  lemma NoPartitions(t: TableSpec, live: map<Path, string>, id: string)
    requires ValidSpec(t)
    ensures DateKeys([]) == {} && SortedKeys({}) == []
    ensures FilesOf(LakeOutputs(t, [], live, id)) == []
  {
    assert DateKeys([]) == {};
  }

  lemma NoLakeFiles(t: TableSpec, rows: seq<Row>, keys: seq<string>, live: map<Path, string>, id: string)
    requires ValidSpec(t) && ValidRows(t, rows) && Timed(rows) && keys == []
    ensures FilesOf(LakeOutputsFor(t, rows, keys, live, id)) == []
  {
  }

  lemma LiveText(fs: FS, p: Path)
    requires IsLive(p)
    ensures TextAt(Live(fs), p) == TextAt(fs.files, p)
  {
  }
}
