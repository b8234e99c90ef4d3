/** The source tables and the incremental query over them: which rows a watermark selects, in what
    order, and how successive deltas compose and accumulate. */
module Source {
  import opened Strings
  import opened Tables
  import opened Checkpoints

  /** One snapshot of a table, by primary key. */
  type Snapshot = map<int, Row>

  function PkOf(t: TableSpec, row: Row): int {
    if t.primaryKey in row && row[t.primaryKey].IntCell? then row[t.primaryKey].n else 0
  }

  function TimeOf(row: Row): int {
    if "updated_at" in row && row["updated_at"].TimeCell? then row["updated_at"].t else 0
  }

  /** The watermark this row leaves when it is the last one read. */
  function KeyOf(t: TableSpec, row: Row): Watermark {
    Watermark(TimeOf(row), PkOf(t, row))
  }

  /** The WHERE clause of the delta query. */
  predicate Selects(t: TableSpec, w: Watermark, row: Row) {
    TimeOf(row) > w.updatedAt || (TimeOf(row) == w.updatedAt && PkOf(t, row) > w.lastPk)
  }

  /** A table of the source: rows are stored under their own key, which is a non-negative identity
      above the initial watermark. */
  predicate ValidSnapshot(t: TableSpec, m: Snapshot) {
    forall pk :: pk in m ==>
      ValidRow(t, m[pk]) && PkOf(t, m[pk]) == pk && pk >= 0 && Before(EMPTY, KeyOf(t, m[pk]))
  }

  predicate InOrder(t: TableSpec, rows: seq<Row>) {
    forall i, j :: 0 <= i < j < |rows| ==> Before(KeyOf(t, rows[i]), KeyOf(t, rows[j]))
  }

  // ------------------------------------------------------------ the query

  predicate IsFirst(t: TableSpec, m: Snapshot, pk: int) {
    pk in m && forall q :: q in m && q != pk ==> Before(KeyOf(t, m[pk]), KeyOf(t, m[q]))
  }

  predicate KeyedByPk(t: TableSpec, m: Snapshot) {
    forall pk :: pk in m ==> PkOf(t, m[pk]) == pk
  }

  lemma HasKey(m: Snapshot)
    ensures m == map[] || exists pk :: pk in m
  {
    if !exists pk :: pk in m { assert m == map[]; }
  }

  lemma {:induction false} FirstExists(t: TableSpec, m: Snapshot)
    requires KeyedByPk(t, m) && m != map[]
    ensures exists pk :: IsFirst(t, m, pk)
    decreases |m|
  {
    HasKey(m);
    var k :| k in m;
    var rest := m - {k};
    if rest == map[] {
      assert forall q :: q in m && q != k ==> q in rest;
      assert IsFirst(t, m, k);
    } else {
      FirstExists(t, rest);
      var p :| IsFirst(t, rest, p);
      assert PkOf(t, m[p]) == p && PkOf(t, m[k]) == k;
      var f := if Before(KeyOf(t, m[p]), KeyOf(t, m[k])) then p else k;
      forall q | q in m && q != f ensures Before(KeyOf(t, m[f]), KeyOf(t, m[q])) {
        assert q == k || q in rest;
        assert q in rest && q != p ==> Before(KeyOf(t, rest[p]), KeyOf(t, rest[q]));
      }
      assert IsFirst(t, m, f);
    }
  }

  function First(t: TableSpec, m: Snapshot): (pk: int)
    requires KeyedByPk(t, m) && m != map[]
    ensures IsFirst(t, m, pk)
  {
    FirstExists(t, m);
    var pk :| pk in m && IsFirst(t, m, pk);
    pk
  }

  /** ORDER BY updated_at ASC, pk ASC. */
  function Ordered(t: TableSpec, m: Snapshot): (rows: seq<Row>)
    requires KeyedByPk(t, m)
    decreases |m|
  {
    if m == map[] then [] else
      var pk := First(t, m);
      assert |m - {pk}| < |m| by { assert m.Keys == (m - {pk}).Keys + {pk}; }
      [m[pk]] + Ordered(t, m - {pk})
  }

  function Matching(t: TableSpec, m: Snapshot, w: Watermark): (s: Snapshot)
    requires KeyedByPk(t, m)
    ensures KeyedByPk(t, s)
  {
    map pk | pk in m && Selects(t, w, m[pk]) :: m[pk]
  }

  /** The rows the incremental query returns for a watermark, in its order. */
  function Delta(t: TableSpec, m: Snapshot, w: Watermark): seq<Row>
    requires KeyedByPk(t, m)
  {
    Ordered(t, Matching(t, m, w))
  }

  /** What the query promises, without saying how it is evaluated. */
  ghost predicate IsDelta(t: TableSpec, m: Snapshot, w: Watermark, rows: seq<Row>) {
    && InOrder(t, rows)
    && forall row :: row in rows <==> PkOf(t, row) in m && m[PkOf(t, row)] == row && Before(w, KeyOf(t, row))
  }

  lemma {:induction false} OrderedHolds(t: TableSpec, m: Snapshot)
    requires KeyedByPk(t, m)
    ensures InOrder(t, Ordered(t, m))
    ensures forall row :: row in Ordered(t, m) <==> PkOf(t, row) in m && m[PkOf(t, row)] == row
    decreases |m|
  {
    if m != map[] {
      var pk := First(t, m);
      var rest := m - {pk};
      assert |rest| < |m| by { assert m.Keys == rest.Keys + {pk}; }
      OrderedHolds(t, rest);
      var tail := Ordered(t, rest);
      forall j | 0 <= j < |tail| ensures Before(KeyOf(t, m[pk]), KeyOf(t, tail[j])) {
        assert tail[j] in tail;
        assert m[PkOf(t, tail[j])] == tail[j];
      }
      forall row ensures row in Ordered(t, m) <==> PkOf(t, row) in m && m[PkOf(t, row)] == row {
        assert row in Ordered(t, m) <==> row == m[pk] || row in tail;
      }
    }
  }

  /** The predicate selects exactly the rows strictly above the watermark in (updated_at, pk)
      order, each once, in ascending order. */
  lemma {:induction false} DeltaIsDelta(t: TableSpec, m: Snapshot, w: Watermark)
    requires KeyedByPk(t, m)
    ensures IsDelta(t, m, w, Delta(t, m, w))
  {
    OrderedHolds(t, Matching(t, m, w));
  }

  lemma {:induction false} InOrderUnique(t: TableSpec, a: seq<Row>, b: seq<Row>)
    requires InOrder(t, a) && InOrder(t, b) && forall row :: row in a <==> row in b
    ensures a == b
  {
    HasFirst(a);
    HasFirst(b);
    if a != [] {
      assert a[0] == b[0] by {
        var i :| 0 <= i < |b| && b[i] == a[0];
        var j :| 0 <= j < |a| && a[j] == b[0];
        if i > 0 && j > 0 {
          assert Before(KeyOf(t, b[0]), KeyOf(t, b[i])) && Before(KeyOf(t, a[0]), KeyOf(t, a[j]));
        }
      }
      forall row ensures row in a[1..] <==> row in b[1..] {
        TailMembers(t, a, row);
        TailMembers(t, b, row);
      }
      InOrderUnique(t, a[1..], b[1..]);
      assert a == [a[0]] + a[1..] && b == [b[0]] + b[1..];
    }
  }

  lemma TailMembers(t: TableSpec, a: seq<Row>, row: Row)
    requires a != [] && InOrder(t, a)
    ensures row in a[1..] <==> row in a && row != a[0]
  {
    if row in a[1..] {
      var i :| 0 <= i < |a[1..]| && a[1..][i] == row;
      assert Before(KeyOf(t, a[0]), KeyOf(t, a[i + 1]));
    }
    if row in a && row != a[0] {
      var i :| 0 <= i < |a| && a[i] == row;
      assert a[1..][i - 1] == row;
    }
  }

  /** The query's answer does not depend on how the database finds it. */
  lemma {:induction false} DeltaIsUnique(t: TableSpec, m: Snapshot, w: Watermark, rows: seq<Row>)
    requires KeyedByPk(t, m) && IsDelta(t, m, w, rows)
    ensures rows == Delta(t, m, w)
  {
    DeltaIsDelta(t, m, w);
    InOrderUnique(t, rows, Delta(t, m, w));
  }

  // ------------------------------------------------------------ composition

  /** The longest prefix of the rows at or below a watermark. */
  function UpTo(t: TableSpec, rows: seq<Row>, w: Watermark): (n: nat)
    ensures n <= |rows|
    ensures forall i :: 0 <= i < n ==> AtOrBefore(KeyOf(t, rows[i]), w)
    ensures n < |rows| ==> !AtOrBefore(KeyOf(t, rows[n]), w)
  {
    if rows == [] || !AtOrBefore(KeyOf(t, rows[0]), w) then 0
    else
      var k := UpTo(t, rows[1..], w);
      assert forall i :: 1 <= i < k + 1 ==> rows[i] == rows[1..][i - 1];
      k + 1
  }

  /** Reading up to a later watermark and then on from it reads exactly what one query would:
      nothing is skipped or read twice, ties in updated_at included. */
  lemma {:induction false} DeltaComposes(t: TableSpec, m: Snapshot, w: Watermark, v: Watermark)
    requires KeyedByPk(t, m) && AtOrBefore(w, v)
    ensures var rows := Delta(t, m, w);
            rows == rows[..UpTo(t, rows, v)] + Delta(t, m, v)
  {
    hide Delta, IsDelta, UpTo, KeyedByPk, AtOrBefore;
    DeltaIsDelta(t, m, w);
    var rows := Delta(t, m, w);
    var n := UpTo(t, rows, v);
    TailIsDelta(t, m, w, v, rows);
    DeltaIsUnique(t, m, v, rows[n..]);
    Rejoin(rows, n);
  }

  lemma TailIsDelta(t: TableSpec, m: Snapshot, w: Watermark, v: Watermark, rows: seq<Row>)
    requires IsDelta(t, m, w, rows) && AtOrBefore(w, v)
    ensures IsDelta(t, m, v, rows[UpTo(t, rows, v)..])
  {
    hide UpTo, PkOf, TimeOf;
    var tail := rows[UpTo(t, rows, v)..];
    forall row ensures row in tail <==> PkOf(t, row) in m && m[PkOf(t, row)] == row && Before(v, KeyOf(t, row)) {
      AboveIsTail(t, rows, v, row);
      assert row in rows <==> PkOf(t, row) in m && m[PkOf(t, row)] == row && Before(w, KeyOf(t, row));
    }
  }

  lemma AboveIsTail(t: TableSpec, rows: seq<Row>, v: Watermark, row: Row)
    requires InOrder(t, rows)
    ensures row in rows[UpTo(t, rows, v)..] <==> row in rows && Before(v, KeyOf(t, row))
  {
    hide UpTo, KeyOf;
    var n := UpTo(t, rows, v);
    if row in rows[n..] {
      var i :| 0 <= i < |rows[n..]| && rows[n..][i] == row;
      assert rows[n + i] == row;
      assert i == 0 || Before(KeyOf(t, rows[n]), KeyOf(t, rows[n + i]));
    }
    if row in rows && Before(v, KeyOf(t, row)) {
      var i :| 0 <= i < |rows| && rows[i] == row;
      assert i >= n;
      assert rows[n..][i - n] == row;
    }
  }

  /** Where reading a delta leaves the watermark: its last row, or where it was. */
  function Advanced(t: TableSpec, w: Watermark, rows: seq<Row>): Watermark {
    if rows == [] then w else KeyOf(t, rows[|rows| - 1])
  }

  /** A table that was never read is read whole: the first delta holds every row but one keyed
      (0001-01-01T00:00:00Z, 0). */
  lemma {:induction false} FirstDeltaReadsAll(t: TableSpec, m: Snapshot, row: Row)
    requires KeyedByPk(t, m) && (forall pk :: pk in m ==> pk >= 0 && TimeOf(m[pk]) >= 0)
    requires PkOf(t, row) in m && m[PkOf(t, row)] == row
    ensures row in Delta(t, m, WatermarkOf(Initial({}), t.name)) <==> !(TimeOf(row) == 0 && PkOf(t, row) == 0)
  {
    hide Delta, PkOf, TimeOf;
    DeltaIsDelta(t, m, EMPTY);
  }

  /** After the advance the same source has nothing left to read, and the watermark never moves
      back. */
  lemma {:induction false} AdvanceReadsAll(t: TableSpec, m: Snapshot, w: Watermark)
    requires KeyedByPk(t, m)
    ensures var v := Advanced(t, w, Delta(t, m, w));
            AtOrBefore(w, v) && Delta(t, m, v) == []
  {
    DeltaIsDelta(t, m, w);
    var rows := Delta(t, m, w);
    var v := Advanced(t, w, rows);
    if rows != [] {
      var k := |rows| - 1;
      assert rows[k] in rows;
      forall i | 0 <= i < |rows| ensures !Before(v, KeyOf(t, rows[i])) {
        assert i == k || Before(KeyOf(t, rows[i]), KeyOf(t, rows[k]));
      }
      DeltaIsDelta(t, m, v);
      HasFirst(Delta(t, m, v));
    }
  }

  // ------------------------------------------------------------ upserts

  /** The change log folded as upserts by primary key. */
  function Fold(t: TableSpec, log: seq<Row>): Snapshot {
    if log == [] then map[]
    else Fold(t, log[..|log| - 1])[PkOf(t, log[|log| - 1]) := log[|log| - 1]]
  }

  /** The table has moved on from an earlier state only by writes above the watermark. */
  ghost predicate MovedOn(t: TableSpec, earlier: Snapshot, m: Snapshot, w: Watermark) {
    && (forall pk :: pk in earlier ==> pk in m)
    && (forall pk :: pk in m ==> Before(w, KeyOf(t, m[pk])) || (pk in earlier && earlier[pk] == m[pk]))
  }

  /** It has moved on from what the log says. */
  ghost predicate AheadOf(t: TableSpec, m: Snapshot, log: seq<Row>, w: Watermark) {
    MovedOn(t, Fold(t, log), m, w)
  }

  predicate HasPk(t: TableSpec, rows: seq<Row>, pk: int) {
    exists i :: 0 <= i < |rows| && PkOf(t, rows[i]) == pk
  }

  lemma HasPkSnoc(t: TableSpec, rows: seq<Row>, pk: int)
    requires rows != []
    ensures HasPk(t, rows, pk) <==> HasPk(t, rows[..|rows| - 1], pk) || PkOf(t, rows[|rows| - 1]) == pk
  {
    hide PkOf;
    var k := |rows| - 1;
    if i :| 0 <= i < |rows| && PkOf(t, rows[i]) == pk { assert i == k || rows[..k][i] == rows[i]; }
    if j :| 0 <= j < k && PkOf(t, rows[..k][j]) == pk { assert rows[j] == rows[..k][j]; }
  }

  lemma FoldSnoc(t: TableSpec, log: seq<Row>)
    requires log != []
    ensures var row := log[|log| - 1]; Fold(t, log) == Fold(t, log[..|log| - 1])[PkOf(t, row) := row]
  {
    hide PkOf;
  }

  /** Rows with different keys, folded onto a log: they are there, and nothing else has changed. */
  lemma {:induction false} FoldAppends(t: TableSpec, log: seq<Row>, rows: seq<Row>)
    requires forall i, j :: 0 <= i < j < |rows| ==> PkOf(t, rows[i]) != PkOf(t, rows[j])
    ensures var f := Fold(t, log + rows);
            && (forall pk :: pk in f <==> pk in Fold(t, log) || HasPk(t, rows, pk))
            && (forall i :: 0 <= i < |rows| ==> PkOf(t, rows[i]) in f && f[PkOf(t, rows[i])] == rows[i])
            && (forall pk :: pk in Fold(t, log) && !HasPk(t, rows, pk) ==> f[pk] == Fold(t, log)[pk])
  {
    hide PkOf, Fold, HasPk;
    if rows == [] {
      FoldNothing(t, log, rows);
    } else {
      var k := |rows| - 1;
      FoldAppends(t, log, rows[..k]);
      FrontOfSum(log, rows);
      FoldSnoc(t, log + rows);
      forall pk ensures HasPk(t, rows, pk) <==> HasPk(t, rows[..k], pk) || PkOf(t, rows[k]) == pk {
        HasPkSnoc(t, rows, pk);
      }
    }
  }

  lemma FoldNothing(t: TableSpec, log: seq<Row>, rows: seq<Row>)
    requires rows == []
    ensures log + rows == log && forall pk :: !HasPk(t, rows, pk)
  {
  }

  lemma DeltaDistinctPks(t: TableSpec, m: Snapshot, w: Watermark, i: nat, j: nat)
    requires KeyedByPk(t, m) && i < j < |Delta(t, m, w)|
    ensures PkOf(t, Delta(t, m, w)[i]) != PkOf(t, Delta(t, m, w)[j])
  {
    DeltaIsDelta(t, m, w);
    var rows := Delta(t, m, w);
    assert rows[i] in rows && rows[j] in rows;
    assert Before(KeyOf(t, rows[i]), KeyOf(t, rows[j]));
  }

  /** What appending a delta leaves of each key: the delta's row if it has one, else the log's. */
  lemma DeltaFolds(t: TableSpec, m: Snapshot, log: seq<Row>, w: Watermark)
    requires KeyedByPk(t, m)
    ensures var f := Fold(t, log + Delta(t, m, w));
            && (forall pk :: pk in f <==> pk in Fold(t, log) || (pk in m && Before(w, KeyOf(t, m[pk]))))
            && (forall pk :: pk in m && Before(w, KeyOf(t, m[pk])) ==> f[pk] == m[pk])
            && (forall pk :: pk in Fold(t, log) && !(pk in m && Before(w, KeyOf(t, m[pk]))) ==>
                  f[pk] == Fold(t, log)[pk])
  {
    hide Delta, Fold, KeyOf, PkOf;
    var rows := Delta(t, m, w);
    forall i, j | 0 <= i < j < |rows| ensures PkOf(t, rows[i]) != PkOf(t, rows[j]) {
      DeltaDistinctPks(t, m, w, i, j);
    }
    FoldAppends(t, log, rows);
    forall pk ensures HasPk(t, rows, pk) <==> pk in m && Before(w, KeyOf(t, m[pk])) {
      DeltaHasPk(t, m, w, pk);
    }
    forall pk | pk in m && Before(w, KeyOf(t, m[pk])) ensures Fold(t, log + rows)[pk] == m[pk] {
      DeltaRowAt(t, m, w, pk);
    }
  }

  lemma DeltaHasPk(t: TableSpec, m: Snapshot, w: Watermark, pk: int)
    requires KeyedByPk(t, m)
    ensures HasPk(t, Delta(t, m, w), pk) <==> pk in m && Before(w, KeyOf(t, m[pk]))
  {
    hide Delta, KeyOf, PkOf;
    DeltaIsDelta(t, m, w);
    var rows := Delta(t, m, w);
    if i :| 0 <= i < |rows| && PkOf(t, rows[i]) == pk { assert rows[i] in rows; }
    if pk in m && Before(w, KeyOf(t, m[pk])) { DeltaRowAt(t, m, w, pk); }
  }

  lemma DeltaRowAt(t: TableSpec, m: Snapshot, w: Watermark, pk: int)
    requires KeyedByPk(t, m) && pk in m && Before(w, KeyOf(t, m[pk]))
    ensures exists i :: 0 <= i < |Delta(t, m, w)| && Delta(t, m, w)[i] == m[pk] && PkOf(t, Delta(t, m, w)[i]) == pk
  {
    hide Delta, KeyOf, PkOf;
    DeltaIsDelta(t, m, w);
    assert PkOf(t, m[pk]) == pk;
    assert m[pk] in Delta(t, m, w);
  }

  /** Appending a delta brings the folded log level with the source it was read from, updates and
      insertions included, exactly when the source has moved on from the log only above the
      watermark. */
  lemma {:induction false} DeltaCatchesUp(t: TableSpec, m: Snapshot, log: seq<Row>, w: Watermark)
    requires KeyedByPk(t, m)
    ensures Fold(t, log + Delta(t, m, w)) == m <==> AheadOf(t, m, log, w)
  {
    hide Delta, Fold, KeyOf, PkOf, Before;
    DeltaFolds(t, m, log, w);
    var f := Fold(t, log + Delta(t, m, w));
    if AheadOf(t, m, log, w) {
      forall pk ensures (pk in f <==> pk in m) && (pk in m ==> f[pk] == m[pk]) { }
      assert f == m;
    }
  }

  /** A write to a source that the log can catch up with is caught up with exactly when its key is
      above the watermark, or the log already ends with that very row. */
  lemma {:induction false} WriteIsSeenExactly(t: TableSpec, m: Snapshot, log: seq<Row>, w: Watermark, row: Row)
    requires KeyedByPk(t, m) && AheadOf(t, m, log, w)
    ensures var pk := PkOf(t, row);
            var n := m[pk := row];
            && KeyedByPk(t, n)
            && (Fold(t, log + Delta(t, n, w)) == n <==>
                 Before(w, KeyOf(t, row)) || (pk in Fold(t, log) && Fold(t, log)[pk] == row))
  {
    hide Delta, Fold, KeyOf, PkOf, Before;
    var n := m[PkOf(t, row) := row];
    DeltaCatchesUp(t, n, log, w);
  }
}
