/** What a schema fingerprint stands for: the table's name and its ordered columns with their types. */
module Schemas {
  import opened Json
  import opened Results
  import opened Tables
  import opened Outputs
  import Checkpoints
  import Consumers
  import JsonProofs

  function ColumnFrom(v: Json): Option<Column> {
    if !v.Obj? || Keys(v.fields) != {"name", "type"} then None
    else
      var name, pgType := Consumers.TextOf(v.fields, "name"), Consumers.TextOf(v.fields, "type");
      if name.None? || pgType.None? then None else Some(Column(name.value, pgType.value))
  }

  function ColumnsFrom(items: Items): Option<seq<Column>> {
    match items
    case NoItem => Some([])
    case Item(head, tail) =>
      var c, rest := ColumnFrom(head), ColumnsFrom(tail);
      if c.None? || rest.None? then None else Some([c.value] + rest.value)
  }

  /** A table's name and columns, read from the hashed text. */
  function SchemaFrom(text: string): Option<(string, seq<Column>)> {
    match Load(text)
    case Loaded(Obj(f)) =>
      var name := Consumers.TextOf(f, "table");
      var columns := if "columns" in Keys(f) && Lookup(f, "columns").Arr? then ColumnsFrom(Lookup(f, "columns").items)
                     else None;
      if Keys(f) != {"table", "columns"} || name.None? || columns.None? then None else Some((name.value, columns.value))
    case _ => None
  }

  lemma PairPrinted(a: string, x: Json, b: string, y: Json)
    requires a != b
    ensures var f := Field(a, x, Field(b, y, NoField));
            var g := NormalizeFields(f);
            && Normalize(Obj(f)) == Obj(g) && Keys(g) == {a, b}
            && Lookup(g, a) == Normalize(x) && Lookup(g, b) == Normalize(y)
  {
    hide NormalizeFields, Normalize;
    var f := Field(a, x, Field(b, y, NoField));
    Checkpoints.PairLookup(a, x, b, y);
    assert Keys(Field(b, y, NoField)) == {b} + {};
    assert UniqueKeys(NoField) && UniqueKeys(Field(b, y, NoField)) && UniqueKeys(f);
    Consumers.Printed(f);
  }

  lemma {:induction false} ColumnsBack(columns: seq<Column>)
    ensures ColumnsFrom(NormalizeItems(ColumnItems(columns))) == Some(columns)
  {
    hide Lookup, Keys, NormalizeFields;
    if columns != [] {
      PairPrinted("name", Str(columns[0].name), "type", Str(columns[0].pgType));
      ColumnsBack(columns[1..]);
      assert columns == [columns[0]] + columns[1..];
    }
  }

  /** The hashed text can be read: it says the table's name and its columns in order, each with its
      name and type. */
  lemma {:induction false} SchemaBack(t: TableSpec)
    ensures SchemaFrom(Canonical(SchemaJson(t))) == Some((t.name, t.columns))
  {
    hide Load, Canonical, Lookup, Keys, NormalizeFields, NormalizeItems, ColumnItems, ColumnsFrom;
    JsonProofs.LoadDumped(SchemaJson(t));
    PairPrinted("table", Str(t.name), "columns", Arr(ColumnItems(t.columns)));
    ColumnsBack(t.columns);
  }

  /** The digest does not collide on what the two tables' fingerprints hash. */
  ghost predicate NoSchemaCollision(cfg: Config, t: TableSpec, u: TableSpec)
    requires ValidConfig(cfg)
  {
    var a, b := Canonical(SchemaJson(t)), Canonical(SchemaJson(u));
    cfg.digest(a)[..16] == cfg.digest(b)[..16] ==> a == b
  }

  /** Unless the digest collides, two fingerprints are equal exactly when the tables have one name and
      the same columns, by name and type, in the same order. */
  lemma {:induction false} FingerprintExactly(cfg: Config, t: TableSpec, u: TableSpec)
    requires ValidConfig(cfg) && NoSchemaCollision(cfg, t, u)
    ensures |Fingerprint(cfg, t)| == 16 && HexText(Fingerprint(cfg, t))
    ensures Fingerprint(cfg, t) == Fingerprint(cfg, u) <==> t.name == u.name && t.columns == u.columns
  {
    hide Canonical, SchemaFrom;
    SchemaBack(t);
    SchemaBack(u);
  }
}
