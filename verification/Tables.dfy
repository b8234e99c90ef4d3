/** Table specs, rows as the source returns them, their JSON projection and its inverse. */
module Tables {
  import opened Strings
  import opened Json
  import opened Results
  import Instants
  import Jsonl

  /** BIGINT, TEXT and TIMESTAMPTZ values; a timestamptz is an instant. A reading without an offset is
      a value no column of a valid row holds. */
  datatype Cell = IntCell(n: int) | TextCell(s: string) | TimeCell(t: int) | NaiveCell(local: int)

  type Row = map<string, Cell>

  datatype Column = Column(name: string, pgType: string)

  datatype TableSpec = TableSpec(
    name: string,
    primaryKey: string,
    columns: seq<Column>,
    lakeSubdir: string,
    shareSubdir: string)

  function Names(columns: seq<Column>): set<string> {
    set i | 0 <= i < |columns| :: columns[i].name
  }

  predicate DistinctNames(columns: seq<Column>) {
    forall i, j :: 0 <= i < j < |columns| ==> columns[i].name != columns[j].name
  }

  predicate Component(s: string) { s != "" && Free('/', s) }

  /** What `TableSpec` checks on construction, plus the types the pipeline counts on for its two
      special columns and output sub-directories that are single path components. */
  predicate ValidSpec(t: TableSpec) {
    && DistinctNames(t.columns)
    && Column(t.primaryKey, "bigint") in t.columns
    && Column("updated_at", "timestamptz") in t.columns
    && Component(t.lakeSubdir) && Component(t.shareSubdir)
  }

  predicate CellFits(pgType: string, c: Cell) {
    match c
    case IntCell(_) => pgType == "bigint"
    case TextCell(_) => pgType == "text"
    case TimeCell(t) => pgType == "timestamptz" && Instants.InRange(t)
    case NaiveCell(_) => false
  }

  /** A row of the table: exactly its columns, each of its type. */
  predicate ValidRow(t: TableSpec, row: Row) {
    RowFits(t.columns, row) && row.Keys == Names(t.columns)
  }

  predicate RowFits(columns: seq<Column>, row: Row) {
    forall i :: 0 <= i < |columns| ==> columns[i].name in row && CellFits(columns[i].pgType, row[columns[i].name])
  }

  predicate ValidRows(t: TableSpec, rows: seq<Row>) {
    forall i :: 0 <= i < |rows| ==> ValidRow(t, rows[i])
  }

  lemma SpecialCells(t: TableSpec, row: Row)
    requires ValidSpec(t) && RowFits(t.columns, row)
    ensures t.primaryKey in row && row[t.primaryKey].IntCell?
    ensures "updated_at" in row && row["updated_at"].TimeCell? && Instants.InRange(row["updated_at"].t)
  {
    var i :| 0 <= i < |t.columns| && t.columns[i] == Column(t.primaryKey, "bigint");
    var j :| 0 <= j < |t.columns| && t.columns[j] == Column("updated_at", "timestamptz");
  }

  // ------------------------------------------------------------ projection

  function CellJson(c: Cell): Json
    requires !c.NaiveCell? && (c.TimeCell? ==> Instants.InRange(c.t))
  {
    match c
    case IntCell(n) => Int(n)
    case TextCell(s) => Str(s)
    case TimeCell(t) => Str(Instants.Stamp(t))
  }

  function RowFields(columns: seq<Column>, row: Row): (f: Fields)
    requires RowFits(columns, row)
    ensures Keys(f) == Names(columns)
  {
    if columns == [] then NoField
    else
      assert Names(columns) == {columns[0].name} + Names(columns[1..]) by { NamesCons(columns); }
      assert RowFits(columns[1..], row);
      Field(columns[0].name, CellJson(row[columns[0].name]), RowFields(columns[1..], row))
  }

  lemma NamesCons(columns: seq<Column>)
    requires columns != []
    ensures Names(columns) == {columns[0].name} + Names(columns[1..])
  {
    forall x ensures x in Names(columns) <==> x in {columns[0].name} + Names(columns[1..]) {
      if x in Names(columns) {
        var i :| 0 <= i < |columns| && columns[i].name == x;
        assert i == 0 || columns[1..][i - 1].name == x;
      }
      if x in Names(columns[1..]) {
        var i :| 0 <= i < |columns[1..]| && columns[1..][i].name == x;
        assert columns[i + 1].name == x;
      }
    }
  }

  /** `_row_to_jsonl`: the spec's columns only, timestamps in canonical text. */
  function RowJson(t: TableSpec, row: Row): Json
    requires RowFits(t.columns, row)
  {
    Obj(RowFields(t.columns, row))
  }

  function RowJsons(t: TableSpec, rows: seq<Row>): (vs: seq<Json>)
    requires ValidRows(t, rows)
    ensures |vs| == |rows| && forall i :: 0 <= i < |rows| ==> vs[i] == RowJson(t, rows[i])
  {
    seq(|rows|, i requires 0 <= i < |rows| => RowJson(t, rows[i]))
  }

  /** The rows as canonical JSON lines. */
  function Encode(t: TableSpec, rows: seq<Row>): string
    requires ValidRows(t, rows)
  {
    Jsonl.Text(RowJsons(t, rows))
  }

  lemma {:induction false} EncodeAppends(t: TableSpec, a: seq<Row>, b: seq<Row>)
    requires ValidRows(t, a) && ValidRows(t, b)
    ensures ValidRows(t, a + b) && Encode(t, a + b) == Encode(t, a) + Encode(t, b)
  {
    hide ValidRow, RowJson, Jsonl.Text;
    Jsonl.TextAppends(RowJsons(t, a), RowJsons(t, b));
    assert RowJsons(t, a + b) == RowJsons(t, a) + RowJsons(t, b);
  }

  // ------------------------------------------------------------ reading rows back

  /** A cell read from JSON, by the column's type. */
  function CellFrom(pgType: string, v: Json): Option<Cell> {
    if v.Int? && pgType == "bigint" then Some(IntCell(v.n))
    else if v.Str? && pgType == "timestamptz" then
      var dt := Instants.ParseIsoUtc(v.s);
      if dt.Ok? then Some(TimeCell(dt.value.local)) else None
    else if v.Str? && pgType == "text" then Some(TextCell(v.s))
    else None
  }

  function CellsFrom(columns: seq<Column>, f: Fields): Option<Row> {
    if columns == [] then Some(map[])
    else if columns[0].name !in Keys(f) then None
    else
      var c, rest := CellFrom(columns[0].pgType, Lookup(f, columns[0].name)), CellsFrom(columns[1..], f);
      if c.None? || rest.None? then None else Some(rest.value[columns[0].name := c.value])
  }

  function RowFrom(t: TableSpec, v: Json): Option<Row> {
    if v.Obj? && Keys(v.fields) == Names(t.columns) then CellsFrom(t.columns, v.fields) else None
  }

  function RowsFrom(t: TableSpec, vs: seq<Json>): Option<seq<Row>> {
    if vs == [] then Some([])
    else
      var row, rest := RowFrom(t, vs[0]), RowsFrom(t, vs[1..]);
      if row.None? || rest.None? then None else Some([row.value] + rest.value)
  }

  /** The rows of a lake text, read by parsing it. */
  function Decode(t: TableSpec, text: string): Option<seq<Row>> {
    var lines := Jsonl.Read(text);
    if lines.Torn? then None else RowsFrom(t, lines.vs)
  }

  lemma CellBack(pgType: string, c: Cell)
    requires CellFits(pgType, c)
    ensures CellFrom(pgType, CellJson(c)) == Some(c)
  {
    if c.TimeCell? { Instants.ParseStamp(c.t); }
  }

  lemma {:induction false} RowFieldsLookup(columns: seq<Column>, row: Row, i: nat)
    requires RowFits(columns, row) && DistinctNames(columns) && i < |columns|
    ensures columns[i].name in Keys(RowFields(columns, row))
    ensures Lookup(RowFields(columns, row), columns[i].name) == CellJson(row[columns[i].name])
  {
    if i > 0 {
      assert RowFits(columns[1..], row);
      RowFieldsLookup(columns[1..], row, i - 1);
    }
  }

  lemma {:induction false} RowFieldsUnique(columns: seq<Column>, row: Row)
    requires RowFits(columns, row) && DistinctNames(columns)
    ensures UniqueKeys(RowFields(columns, row)) && WellFormedFields(RowFields(columns, row))
  {
    if columns != [] {
      assert RowFits(columns[1..], row);
      RowFieldsUnique(columns[1..], row);
    }
  }

  lemma NoNames(columns: seq<Column>)
    requires columns == []
    ensures Names(columns) == {}
  {
  }

  lemma CellIsPlain(c: Cell)
    requires !c.NaiveCell? && (c.TimeCell? ==> Instants.InRange(c.t))
    ensures Normalize(CellJson(c)) == CellJson(c)
  {
  }

  lemma {:induction false} CellsBack(columns: seq<Column>, row: Row, f: Fields)
    requires RowFits(columns, row) && DistinctNames(columns)
    requires forall i :: 0 <= i < |columns| ==>
      columns[i].name in Keys(f) && Lookup(f, columns[i].name) == Normalize(CellJson(row[columns[i].name]))
    ensures CellsFrom(columns, f) == Some(map k | k in Names(columns) && k in row :: row[k])
  {
    hide CellFrom, CellJson, Normalize, Instants.InRange, Lookup, Keys, Names;
    if columns == [] {
      NoNames(columns);
    } else {
      CellIsPlain(row[columns[0].name]);
      CellsBack(columns[1..], row, f);
      CellBack(columns[0].pgType, row[columns[0].name]);
      NamesCons(columns);
      OnlyGrows(row, Names(columns[1..]), columns[0].name);
    }
  }

  lemma OnlyGrows(row: Row, names: set<string>, x: string)
    requires x in row
    ensures (map k | k in {x} + names && k in row :: row[k]) == (map k | k in names && k in row :: row[k])[x := row[x]]
  {
  }

  lemma RowBack(t: TableSpec, row: Row)
    requires ValidSpec(t) && ValidRow(t, row)
    ensures RowFrom(t, Normalize(RowJson(t, row))) == Some(row)
  {
    hide NormalizeFields, CellsFrom, CellJson, Lookup, Keys, UniqueKeys, WellFormedFields, RowFields, Ordered;
    var f := RowFields(t.columns, row);
    RowFieldsUnique(t.columns, row);
    NormalizeFieldsOrdered(f);
    forall i | 0 <= i < |t.columns|
      ensures t.columns[i].name in Keys(f)
           && Lookup(NormalizeFields(f), t.columns[i].name) == Normalize(CellJson(row[t.columns[i].name]))
    {
      RowFieldsLookup(t.columns, row, i);
    }
    CellsBack(t.columns, row, NormalizeFields(f));
    assert (map k | k in Names(t.columns) && k in row :: row[k]) == row;
  }

  lemma {:induction false} RowsBack(t: TableSpec, rows: seq<Row>)
    requires ValidSpec(t) && ValidRows(t, rows)
    ensures RowsFrom(t, Jsonl.Normalized(RowJsons(t, rows))) == Some(rows)
  {
    hide ValidRow, RowJson, Normalize, RowFrom, ValidSpec;
    if rows != [] {
      RowBack(t, rows[0]);
      RowsBack(t, rows[1..]);
      assert Jsonl.Normalized(RowJsons(t, rows))[1..] == Jsonl.Normalized(RowJsons(t, rows[1..]));
      assert rows == [rows[0]] + rows[1..];
    }
  }

  /** Parsing a lake text gives back exactly the rows it was written from. */
  lemma {:induction false} DecodeEncode(t: TableSpec, rows: seq<Row>)
    requires ValidSpec(t) && ValidRows(t, rows)
    ensures Decode(t, Encode(t, rows)) == Some(rows)
  {
    Jsonl.ReadBack(RowJsons(t, rows));
    RowsBack(t, rows);
  }
}
