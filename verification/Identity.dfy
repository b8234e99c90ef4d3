/** What a run's identity stands for: the text that is hashed determines the checkpoint the run
    started from and the ordered identities of the rows it read, and nothing else enters into it. */
module Identity {
  import opened Json
  import opened Results
  import opened Tables
  import opened Checkpoints
  import opened Outputs
  import opened Runs
  import opened System
  import opened Logs
  import opened Reruns
  import Consumers
  import Instants
  import JsonProofs
  import Source
  import Staging

  datatype RowIdentity = RowIdentity(table: string, pk: int, updatedAt: int)

  function IdentityOf(t: TableSpec, row: Row): RowIdentity {
    RowIdentity(t.name, Source.PkOf(t, row), Source.TimeOf(row))
  }

  function Identities(t: TableSpec, rows: seq<Row>): (ids: seq<RowIdentity>)
    ensures |ids| == |rows|
  {
    if rows == [] then [] else [IdentityOf(t, rows[0])] + Identities(t, rows[1..])
  }

  /** A row identity, read from the hash input. */
  function IdentityFrom(v: Json): Option<RowIdentity> {
    if !v.Obj? || Keys(v.fields) != {"table", "pk", "updated_at"} then None
    else
      var f := v.fields;
      var table, pk, at := Consumers.TextOf(f, "table"), Consumers.IntOf(f, "pk"), Consumers.InstantOf(f, "updated_at");
      if table.None? || pk.None? || at.None? then None else Some(RowIdentity(table.value, pk.value, at.value))
  }

  function IdentitiesFrom(items: Items): Option<seq<RowIdentity>> {
    match items
    case NoItem => Some([])
    case Item(head, tail) =>
      var id, rest := IdentityFrom(head), IdentitiesFrom(tail);
      if id.None? || rest.None? then None else Some([id.value] + rest.value)
  }

  // ------------------------------------------------------------ the payload is a Python value

  lemma IdentityWellFormed(t: TableSpec, row: Row)
    requires Instants.InRange(Source.TimeOf(row))
    ensures WellFormed(IdentityJson(t, row))
    ensures IdentityFrom(Normalize(IdentityJson(t, row))) == Some(IdentityOf(t, row))
  {
    hide Instants.Stamp, Source.PkOf, Source.TimeOf;
    var a, b, c := Str(t.name), Int(Source.PkOf(t, row)), Str(Instants.Stamp(Source.TimeOf(row)));
    Staging.ThreeFields("table", a, "pk", b, "updated_at", c);
    var h := Field("updated_at", c, NoField);
    var g := Field("pk", b, h);
    assert WellFormed(a) && WellFormed(b) && WellFormed(c) && WellFormedFields(NoField);
    assert WellFormedFields(h) && WellFormedFields(g) && WellFormedFields(Field("table", a, g));
    Consumers.Printed(IdentityJson(t, row).fields);
    Consumers.PrintedInstant(NormalizeFields(IdentityJson(t, row).fields), "updated_at", Source.TimeOf(row));
  }

  lemma {:induction false} ItemsWellFormed(t: TableSpec, rows: seq<Row>)
    requires Timed(rows)
    ensures WellFormedItems(IdentityItems(t, rows))
    ensures IdentitiesFrom(NormalizeItems(IdentityItems(t, rows))) == Some(Identities(t, rows))
  {
    hide IdentityJson, IdentityFrom, Normalize;
    if rows != [] {
      IdentityWellFormed(t, rows[0]);
      ItemsWellFormed(t, rows[1..]);
    }
  }

  lemma TablesRest(tables: seq<TableSpec>, deltas: Deltas)
    requires TimedDeltas(tables, deltas) && tables != []
    ensures TimedDeltas(tables[1..], deltas)
  {
    forall i | 0 <= i < |tables[1..]| ensures tables[1..][i].name in deltas && Timed(deltas[tables[1..][i].name]) {
      assert tables[1..][i] == tables[i + 1];
    }
  }

  predicate NamesDistinct(tables: seq<TableSpec>) {
    forall i, j :: 0 <= i < j < |tables| ==> tables[i].name != tables[j].name
  }

  /** The member of a table is the list of its identities. */
  lemma {:induction false} IdentityMembers(tables: seq<TableSpec>, deltas: Deltas)
    requires TimedDeltas(tables, deltas) && NamesDistinct(tables)
    ensures var f := IdentityFields(tables, deltas);
            && UniqueKeys(f) && WellFormedFields(f) && Keys(f) == TableNames(tables)
            && forall i :: 0 <= i < |tables| ==>
                 && tables[i].name in Keys(f)
                 && Lookup(f, tables[i].name) == Arr(IdentityItems(tables[i], deltas[tables[i].name]))
  {
    hide IdentityItems, Timed;
    if tables == [] {
      assert TableNames(tables) == {};
    } else {
      var rest := tables[1..];
      TablesRest(tables, deltas);
      IdentityMembers(rest, deltas);
      ItemsWellFormed(tables[0], deltas[tables[0].name]);
      NamesFirst(tables);
      assert tables[0].name !in TableNames(rest);
      forall i | 0 <= i < |tables|
        ensures tables[i].name in Keys(IdentityFields(tables, deltas))
        ensures Lookup(IdentityFields(tables, deltas), tables[i].name)
             == Arr(IdentityItems(tables[i], deltas[tables[i].name]))
      {
        if i > 0 { assert rest[i - 1] == tables[i]; }
      }
    }
  }

  lemma NamesFirst(tables: seq<TableSpec>)
    requires tables != []
    ensures TableNames(tables) == {tables[0].name} + TableNames(tables[1..])
  {
    forall x ensures x in TableNames(tables) <==> x in {tables[0].name} + TableNames(tables[1..]) {
      if x in TableNames(tables) {
        var i :| 0 <= i < |tables| && tables[i].name == x;
        assert i > 0 ==> tables[1..][i - 1].name == x;
      }
      if x in TableNames(tables[1..]) {
        var i :| 0 <= i < |tables[1..]| && tables[1..][i].name == x;
        assert tables[i + 1].name == x;
      }
    }
  }

  lemma PayloadParts(tables: seq<TableSpec>, before: Checkpoint, deltas: Deltas)
    requires ValidCheckpoint(before) && TimedDeltas(tables, deltas) && NamesDistinct(tables)
    ensures WellFormed(Payload(tables, before, deltas))
    ensures var f := Payload(tables, before, deltas).fields;
            && UniqueKeys(f) && Keys(f) == {"checkpoint_before", "tables"}
            && Lookup(f, "checkpoint_before") == ToDict(before)
            && Lookup(f, "tables") == Obj(IdentityFields(tables, deltas))
  {
    hide ToDict, IdentityFields;
    IdentityMembers(tables, deltas);
    ToDictWellFormed(before);
    PairWellFormed("checkpoint_before", ToDict(before), "tables", Obj(IdentityFields(tables, deltas)));
    PairLookup("checkpoint_before", ToDict(before), "tables", Obj(IdentityFields(tables, deltas)));
    var inner := Field("tables", Obj(IdentityFields(tables, deltas)), NoField);
    assert Keys(inner) == {"tables"} + {};
  }

  // ------------------------------------------------------------ what the text says

  /** The hash input can be read: it says the checkpoint the run started from and, for each table, the
      table, key and time of every row that was selected, in order. */
  lemma {:induction false} PayloadBack(tables: seq<TableSpec>, before: Checkpoint, deltas: Deltas)
    returns (f: Fields, g: Fields)
    requires ValidCheckpoint(before) && TimedDeltas(tables, deltas) && NamesDistinct(tables)
    ensures Load(Canonical(Payload(tables, before, deltas))) == Loaded(Obj(f))
    ensures Keys(f) == {"checkpoint_before", "tables"}
    ensures Consumers.CheckpointOf(f, "checkpoint_before") == Some(before)
    ensures "tables" in Keys(f) && Lookup(f, "tables") == Obj(g) && Keys(g) == TableNames(tables)
    ensures forall i :: 0 <= i < |tables| ==> tables[i].name in Keys(g) && Says(g, tables[i], deltas[tables[i].name])
  {
    hide ToDict, IdentityFields, Canonical, WellFormed, IdentityItems, Timed, Keys, Lookup, NormalizeFields, Identities;
    hide IdentitiesFrom, Consumers.CheckpointOf, NormalizeItems;
    var p := Payload(tables, before, deltas);
    PayloadParts(tables, before, deltas);
    JsonProofs.LoadDumped(p);
    Consumers.Printed(p.fields);
    f := NormalizeFields(p.fields);
    Consumers.PrintedCheckpoint(f, "checkpoint_before", before);
    IdentityMembers(tables, deltas);
    Consumers.Printed(IdentityFields(tables, deltas));
    g := NormalizeFields(IdentityFields(tables, deltas));
    forall i | 0 <= i < |tables| ensures tables[i].name in Keys(g) && Says(g, tables[i], deltas[tables[i].name]) {
      var t := tables[i];
      ItemsWellFormed(t, deltas[t.name]);
      assert Lookup(g, t.name) == Arr(NormalizeItems(IdentityItems(t, deltas[t.name])));
    }
  }

  /** The table's member lists the identities of these rows. */
  ghost predicate Says(g: Fields, t: TableSpec, rows: seq<Row>)
    requires t.name in Keys(g)
  {
    Lookup(g, t.name).Arr? && IdentitiesFrom(Lookup(g, t.name).items) == Some(Identities(t, rows))
  }

  lemma {:induction false} SameIdentityItems(t: TableSpec, a: seq<Row>, b: seq<Row>)
    requires Timed(a) && Timed(b) && Identities(t, a) == Identities(t, b)
    ensures IdentityItems(t, a) == IdentityItems(t, b)
  {
    if a != [] {
      assert Identities(t, a)[0] == Identities(t, b)[0] && Identities(t, a)[1..] == Identities(t, b)[1..];
      SameIdentityItems(t, a[1..], b[1..]);
    }
  }

  lemma {:induction false} SameIdentityFields(tables: seq<TableSpec>, deltas: Deltas, deltas2: Deltas)
    requires TimedDeltas(tables, deltas) && TimedDeltas(tables, deltas2) && SameSelection(tables, deltas, deltas2)
    ensures IdentityFields(tables, deltas) == IdentityFields(tables, deltas2)
  {
    hide Identities, IdentityItems, Timed;
    if tables != [] {
      TablesRest(tables, deltas);
      TablesRest(tables, deltas2);
      SameIdentityItems(tables[0], deltas[tables[0].name], deltas2[tables[0].name]);
      SameIdentityFields(tables[1..], deltas, deltas2);
    }
  }

  /** Table by table the same rows were selected in the same order, as far as identities tell. */
  ghost predicate SameSelection(tables: seq<TableSpec>, deltas: Deltas, deltas2: Deltas)
  {
    forall i :: 0 <= i < |tables| ==>
      && tables[i].name in deltas && tables[i].name in deltas2
      && Identities(tables[i], deltas[tables[i].name]) == Identities(tables[i], deltas2[tables[i].name])
  }

  /** Two hash inputs are equal exactly when the checkpoints are equal and, table by table, the ordered
      row identities are. */
  lemma {:induction false} PayloadExactly(tables: seq<TableSpec>, before: Checkpoint, deltas: Deltas,
      before2: Checkpoint, deltas2: Deltas)
    requires ValidCheckpoint(before) && ValidCheckpoint(before2) && NamesDistinct(tables)
    requires TimedDeltas(tables, deltas) && TimedDeltas(tables, deltas2)
    ensures Canonical(Payload(tables, before, deltas)) == Canonical(Payload(tables, before2, deltas2)) <==>
      before == before2 && SameSelection(tables, deltas, deltas2)
  {
    hide ToDict, IdentityFields, Identities, Canonical, Timed, Load, IdentitiesFrom, Consumers.CheckpointOf, Keys;
    if Canonical(Payload(tables, before, deltas)) == Canonical(Payload(tables, before2, deltas2)) {
      var f, g := PayloadBack(tables, before, deltas);
      var f2, g2 := PayloadBack(tables, before2, deltas2);
      assert f == f2 && g == g2;
      forall i | 0 <= i < |tables|
        ensures Identities(tables[i], deltas[tables[i].name]) == Identities(tables[i], deltas2[tables[i].name])
      {
        assert Says(g, tables[i], deltas[tables[i].name]) && Says(g2, tables[i], deltas2[tables[i].name]);
      }
    }
    if before == before2 && SameSelection(tables, deltas, deltas2) {
      SameIdentityFields(tables, deltas, deltas2);
    }
  }

  // ------------------------------------------------------------ and nothing else does

  lemma SameAsItself(v: Json)
    requires WellFormed(v)
    ensures Same(v, v)
  {
    NormalFormIsEquality(v, v);
  }

  lemma LookupIsWellFormed(f: Fields, k: string)
    requires UniqueKeys(f) && WellFormedFields(f) && k in Keys(f)
    ensures WellFormed(Lookup(f, k))
  {
    LookupWellFormed(f, k);
  }

  /** The order in which the tables were put into the dictionary does not show in the hash input. */
  lemma {:induction false} TableOrderIsIrrelevant(tables: seq<TableSpec>, tables2: seq<TableSpec>,
      before: Checkpoint, deltas: Deltas)
    requires ValidCheckpoint(before) && NamesDistinct(tables) && NamesDistinct(tables2)
    requires TimedDeltas(tables, deltas) && TimedDeltas(tables2, deltas)
    requires forall t :: t in tables <==> t in tables2
    ensures Canonical(Payload(tables, before, deltas)) == Canonical(Payload(tables2, before, deltas))
  {
    hide ToDict, IdentityFields, Canonical, WellFormed, IdentityItems, Timed, Keys, Lookup;
    var p, q := Payload(tables, before, deltas), Payload(tables2, before, deltas);
    PayloadParts(tables, before, deltas);
    PayloadParts(tables2, before, deltas);
    SameFields(tables, tables2, deltas);
    ToDictWellFormed(before);
    SameAsItself(ToDict(before));
    JsonProofs.DumpIsInjective(p, q);
  }

  lemma SameFields(tables: seq<TableSpec>, tables2: seq<TableSpec>, deltas: Deltas)
    requires NamesDistinct(tables) && NamesDistinct(tables2)
    requires TimedDeltas(tables, deltas) && TimedDeltas(tables2, deltas)
    requires forall t :: t in tables <==> t in tables2
    ensures Same(Obj(IdentityFields(tables, deltas)), Obj(IdentityFields(tables2, deltas)))
  {
    hide IdentityFields, IdentityItems, Timed, Lookup, WellFormed, TableNames, Keys;
    var f, g := IdentityFields(tables, deltas), IdentityFields(tables2, deltas);
    IdentityMembers(tables, deltas);
    IdentityMembers(tables2, deltas);
    NamesOfMembers(tables, tables2);
    NamesOfMembers(tables2, tables);
    forall k | k in Keys(f) ensures Same(Lookup(f, k), Lookup(g, k)) {
      var i, j := NamedInBoth(tables, tables2, k);
      LookupIsWellFormed(f, k);
      SameAsItself(Lookup(f, k));
    }
  }

  lemma NamedInBoth(a: seq<TableSpec>, b: seq<TableSpec>, k: string) returns (i: nat, j: nat)
    requires k in TableNames(a) && forall t :: t in a ==> t in b
    ensures i < |a| && j < |b| && a[i] == b[j] && a[i].name == k
  {
    i :| i < |a| && a[i].name == k;
    assert a[i] in b;
    j :| j < |b| && b[j] == a[i];
  }

  lemma NamesOfMembers(a: seq<TableSpec>, b: seq<TableSpec>)
    requires forall t :: t in a ==> t in b
    ensures TableNames(a) <= TableNames(b)
  {
    forall x | x in TableNames(a) ensures x in TableNames(b) {
      var i :| 0 <= i < |a| && a[i].name == x;
      assert a[i] in b;
      var j :| 0 <= j < |b| && b[j] == a[i];
    }
  }

  // ------------------------------------------------------------ runs and their identities

  lemma ConfigNames(cfg: Config)
    requires ValidConfig(cfg)
    ensures NamesDistinct(cfg.tables)
  {
    forall i, j | 0 <= i < j < |cfg.tables| ensures cfg.tables[i].name != cfg.tables[j].name { TablesApart(cfg, i, j); }
  }

  /** The text a run's identity is the hash of. */
  ghost function HashInput(cfg: Config, run: Run): string
    requires Computed(cfg, run)
  {
    Canonical(Payload(cfg.tables, run.before, run.deltas))
  }

  /** The run after one that found rows hashes another text, even if it finds nothing itself: it
      starts from another checkpoint. Their identities agree only if the digest collides. */
  lemma {:induction false} NextRunHashesOtherText(cfg: Config, runs: seq<Run>, i: nat)
    requires Chained(cfg, runs) && |runs| > 1 && i < |cfg.tables|
    requires Batch(cfg.tables[i].name, runs[|runs| - 2]) != []
    ensures Computed(cfg, runs[|runs| - 1]) && Computed(cfg, runs[|runs| - 2])
    ensures HashInput(cfg, runs[|runs| - 1]) != HashInput(cfg, runs[|runs| - 2])
  {
    hide Chained, Computed, Publishable, Canonical, Payload, LiveAfter, Identities;
    var n := |runs| - 1;
    LastRun(cfg, runs);
    LastRun(cfg, runs[..n]);
    assert runs[..n][n - 1] == runs[n - 1];
    BeforeIsPrevious(cfg, runs);
    RowsMoveTheCheckpoint(cfg, runs[n - 1], i);
    ComputedHasConfig(cfg, runs[n]);
    ComputedHasConfig(cfg, runs[n - 1]);
    ConfigNames(cfg);
    if HashInput(cfg, runs[n]) == HashInput(cfg, runs[n - 1]) {
      PayloadExactly(cfg.tables, runs[n].before, runs[n].deltas, runs[n - 1].before, runs[n - 1].deltas);
    }
  }

  lemma ComputedHasConfig(cfg: Config, run: Run)
    requires Computed(cfg, run)
    ensures ValidConfig(cfg) && ValidCheckpoint(run.before) && TimedDeltas(cfg.tables, run.deltas)
  {
    hide Fetch, Advance, RunId, ValidConfig, ValidSource, Timed;
  }
}
