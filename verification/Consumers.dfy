/** What a consumer that parses the share and events files learns from them. */
module Consumers {
  import opened Strings
  import opened Json
  import opened Results
  import opened Tables
  import opened Checkpoints
  import opened Disks
  import opened Staging
  import opened Outputs
  import Instants
  import InstantProofs
  import Jsonl
  import Runs
  import Source

  // ------------------------------------------------------------ members

  /** One more member in front of an object. */
  lemma {:induction false} Front(k: string, v: Json, rest: Fields)
    requires k !in Keys(rest) && UniqueKeys(rest)
    ensures var f := Field(k, v, rest);
            && UniqueKeys(f) && Keys(f) == {k} + Keys(rest) && Lookup(f, k) == v
            && forall x :: x in Keys(rest) ==> Lookup(f, x) == Lookup(rest, x)
  {
  }

  lemma NoMembers()
    ensures Keys(NoField) == {} && UniqueKeys(NoField)
  {
  }

  function TextOf(f: Fields, k: string): Option<string> {
    if k in Keys(f) && Lookup(f, k).Str? then Some(Lookup(f, k).s) else None
  }

  function IntOf(f: Fields, k: string): Option<int> {
    if k in Keys(f) && Lookup(f, k).Int? then Some(Lookup(f, k).n) else None
  }

  function InstantOf(f: Fields, k: string): Option<int> {
    var text := TextOf(f, k);
    if text.None? then None
    else
      var dt := Instants.ParseIsoUtc(text.value);
      if dt.Ok? then Some(dt.value.local) else None
  }

  function CheckpointOf(f: Fields, k: string): Option<Checkpoint> {
    if k in Keys(f) && Lookup(f, k).Obj? then EntriesFrom(Lookup(f, k).fields) else None
  }

  /** What the printed object still says of each member. */
  lemma {:induction false} Printed(f: Fields)
    requires UniqueKeys(f)
    ensures Normalize(Obj(f)) == Obj(NormalizeFields(f)) && Keys(NormalizeFields(f)) == Keys(f)
    ensures forall k :: k in Keys(f) ==> Lookup(NormalizeFields(f), k) == Normalize(Lookup(f, k))
  {
    NormalizeFieldsOrdered(f);
  }

  lemma {:induction false} PrintedInstant(g: Fields, k: string, t: int)
    requires Instants.InRange(t) && k in Keys(g) && Lookup(g, k) == Str(Instants.Stamp(t))
    ensures InstantOf(g, k) == Some(t)
  {
    hide Instants.ParseIsoUtc, Instants.Stamp;
    Instants.ParseStamp(t);
  }

  lemma {:induction false} PrintedCheckpoint(g: Fields, k: string, cp: Checkpoint)
    requires ValidCheckpoint(cp) && k in Keys(g) && Lookup(g, k) == Normalize(ToDict(cp))
    ensures CheckpointOf(g, k) == Some(cp)
  {
    hide EntriesFrom, NormalizeFields, EntryFields;
    NormalizedObj(ToDict(cp).fields);
    DictRoundTrip(cp);
  }

  // ------------------------------------------------------------ share

  datatype ShareEntry = ShareEntry(
    table: string,
    op: string,
    pk: int,
    updatedAt: int,
    runId: string,
    fingerprint: string,
    after: Checkpoint,
    row: Row)

  const SHARE_MEMBERS: set<string> :=
    {"table", "op", "updated_at", "run_id", "schema_fingerprint", "checkpoint_after", "record"}

  function ShareEntryFrom(t: TableSpec, v: Json): Option<ShareEntry> {
    if !v.Obj? || Keys(v.fields) != SHARE_MEMBERS + {t.primaryKey} then None
    else
      var f := v.fields;
      var table, op, pk, at := TextOf(f, "table"), TextOf(f, "op"), IntOf(f, t.primaryKey), InstantOf(f, "updated_at");
      var id, mark := TextOf(f, "run_id"), TextOf(f, "schema_fingerprint");
      var after, row := CheckpointOf(f, "checkpoint_after"), RowFrom(t, Lookup(f, "record"));
      if table.None? || op.None? || pk.None? || at.None? || id.None? || mark.None? || after.None? || row.None? then None
      else Some(ShareEntry(table.value, op.value, pk.value, at.value, id.value, mark.value, after.value, row.value))
  }

  function ShareEntryOf(cfg: Config, t: TableSpec, row: Row, id: string, after: Checkpoint): ShareEntry
    requires ValidConfig(cfg)
  {
    ShareEntry(t.name, "upsert", Source.PkOf(t, row), Source.TimeOf(row), id, Fingerprint(cfg, t), after, row)
  }

  /** The members of a record; the key column's is one of the others' if it is named like it. */
  lemma {:induction false} ShareMembers(pk: string, a: Json, b: Json, c: Json, d: Json, e: Json, p: Json, h: Json,
      r: Json)
    ensures var g := Put(Put(Field("table", a, Field("op", b, NoField)), pk, c), "updated_at", d);
            var f := Put(Put(Put(Put(g, "run_id", e), "schema_fingerprint", p), "checkpoint_after", h), "record", r);
            && UniqueKeys(f) && Keys(f) == SHARE_MEMBERS + {pk}
            && Lookup(f, "table") == (if pk == "table" then c else a)
            && Lookup(f, "op") == (if pk == "op" then c else b)
            && (pk !in SHARE_MEMBERS ==> Lookup(f, pk) == c)
            && Lookup(f, "updated_at") == d && Lookup(f, "run_id") == e && Lookup(f, "schema_fingerprint") == p
            && Lookup(f, "checkpoint_after") == h && Lookup(f, "record") == r
  {
    hide Keys, Lookup, UniqueKeys, Put;
    NoMembers();
    Front("op", b, NoField);
    Front("table", a, Field("op", b, NoField));
    var f2 := Field("table", a, Field("op", b, NoField));
    PutMembers(f2, pk, c);
    var f3 := Put(f2, pk, c);
    PutMembers(f3, "updated_at", d);
    var f4 := Put(f3, "updated_at", d);
    PutMembers(f4, "run_id", e);
    var f5 := Put(f4, "run_id", e);
    PutMembers(f5, "schema_fingerprint", p);
    var f6 := Put(f5, "schema_fingerprint", p);
    PutMembers(f6, "checkpoint_after", h);
    PutMembers(Put(f6, "checkpoint_after", h), "record", r);
  }

  /** What is printed of a record, member by member. */
  ghost predicate PrintedRecord(cfg: Config, t: TableSpec, row: Row, id: string, after: Checkpoint, g: Fields)
    requires ValidConfig(cfg) && ValidSpec(t) && ValidRow(t, row) && ValidCheckpoint(after)
    requires Instants.InRange(Source.TimeOf(row)) && RowFits(t.columns, row)
  {
    && Keys(g) == SHARE_MEMBERS + {t.primaryKey}
    && Lookup(g, "table") == (if t.primaryKey == "table" then Int(Source.PkOf(t, row)) else Str(t.name))
    && Lookup(g, "op") == (if t.primaryKey == "op" then Int(Source.PkOf(t, row)) else Str("upsert"))
    && (t.primaryKey !in SHARE_MEMBERS ==> Lookup(g, t.primaryKey) == Int(Source.PkOf(t, row)))
    && Lookup(g, "updated_at") == Str(Instants.Stamp(Source.TimeOf(row)))
    && Lookup(g, "run_id") == Str(id) && Lookup(g, "schema_fingerprint") == Str(Fingerprint(cfg, t))
    && Lookup(g, "checkpoint_after") == Normalize(ToDict(after)) && Lookup(g, "record") == Normalize(RowJson(t, row))
  }

  lemma {:induction false} RecordIsPrinted(cfg: Config, t: TableSpec, row: Row, id: string,
      after: Checkpoint) returns (g: Fields)
    requires ValidConfig(cfg) && ValidSpec(t) && ValidRow(t, row) && ValidCheckpoint(after)
    requires Instants.InRange(Source.TimeOf(row)) && RowFits(t.columns, row)
    ensures Normalize(ShareRecord(cfg, t, row, id, after)) == Obj(g) && PrintedRecord(cfg, t, row, id, after, g)
  {
    hide Keys, Lookup, UniqueKeys, NormalizeFields, ToDict, RowJson, Instants.Stamp, ValidSpec, ValidRow, Put;
    hide Fingerprint, ValidConfig, Source.PkOf, Source.TimeOf, RowFits, Instants.InRange;
    var pk, c, d := t.primaryKey, Int(Source.PkOf(t, row)), Str(Instants.Stamp(Source.TimeOf(row)));
    var f := ShareRecord(cfg, t, row, id, after).fields;
    ShareMembers(pk, Str(t.name), Str("upsert"), c, d, Str(id), Str(Fingerprint(cfg, t)), ToDict(after), RowJson(t,
        row));
    Printed(f);
    g := NormalizeFields(f);
  }

  /** One record says which row of which table was upserted by which run, and where that run ended;
      it can be read so exactly if the key column is not named like another member, which the
      record could not then hold both of. */
  lemma {:induction false} ShareEntryBack(cfg: Config, t: TableSpec, row: Row, id: string, after: Checkpoint)
    requires ValidConfig(cfg) && ValidSpec(t) && ValidRow(t, row) && ValidCheckpoint(after)
    ensures ShareEntryFrom(t, Normalize(ShareRecord(cfg, t, row, id, after)))
         == if t.primaryKey in SHARE_MEMBERS then None else Some(ShareEntryOf(cfg, t, row, id, after))
  {
    hide Keys, Lookup, UniqueKeys, Normalize, RowFrom, ToDict, RowJson, Instants.Stamp, ValidSpec, ValidRow;
    hide Fingerprint, ValidConfig, Source.PkOf, Source.TimeOf, InstantOf, CheckpointOf, ShareRecord, RowFits;
    SpecialIsInRange(t, row);
    var g := RecordIsPrinted(cfg, t, row, id, after);
    PrintedInstant(g, "updated_at", Source.TimeOf(row));
    PrintedCheckpoint(g, "checkpoint_after", after);
    RowBack(t, row);
    PrintedObjects(t, row, after);
    if t.primaryKey in SHARE_MEMBERS { NotAKey(t); }
  }

  lemma PrintedObjects(t: TableSpec, row: Row, after: Checkpoint)
    requires RowFits(t.columns, row) && ValidCheckpoint(after)
    ensures Normalize(ToDict(after)).Obj? && Normalize(RowJson(t, row)).Obj?
  {
    hide EntryFields, RowFields, NormalizeFields;
  }

  lemma NotAKey(t: TableSpec)
    requires ValidSpec(t) && t.primaryKey in SHARE_MEMBERS
    ensures t.primaryKey in {"table", "op", "run_id", "schema_fingerprint", "checkpoint_after", "record", "updated_at"}
  {
  }

  lemma {:induction false} SpecialIsInRange(t: TableSpec, row: Row)
    requires ValidSpec(t) && ValidRow(t, row)
    ensures Instants.InRange(Source.TimeOf(row)) && RowFits(t.columns, row)
  {
    SpecialCells(t, row);
  }

  function ShareEntriesFrom(t: TableSpec, vs: seq<Json>): Option<seq<ShareEntry>> {
    if vs == [] then Some([])
    else
      var e, rest := ShareEntryFrom(t, vs[0]), ShareEntriesFrom(t, vs[1..]);
      if e.None? || rest.None? then None else Some([e.value] + rest.value)
  }

  /** The entries of a share file, read by parsing it. */
  function ReadShare(t: TableSpec, text: string): Option<seq<ShareEntry>> {
    var lines := Jsonl.Read(text);
    if lines.Torn? then None else ShareEntriesFrom(t, lines.vs)
  }

  function ShareEntriesOf(cfg: Config, t: TableSpec, rows: seq<Row>, id: string,
      after: Checkpoint): (es: seq<ShareEntry>)
    requires ValidConfig(cfg)
    ensures |es| == |rows| && forall i :: 0 <= i < |rows| ==> es[i] == ShareEntryOf(cfg, t, rows[i], id, after)
  {
    seq(|rows|, i requires 0 <= i < |rows| => ShareEntryOf(cfg, t, rows[i], id, after))
  }

  lemma {:induction false} ShareEntriesBack(cfg: Config, t: TableSpec, rows: seq<Row>, id: string, after: Checkpoint)
    requires ValidConfig(cfg) && ValidSpec(t) && ValidRows(t, rows) && ValidCheckpoint(after)
    ensures ShareEntriesFrom(t, Jsonl.Normalized(ShareRecords(cfg, t, rows, id, after)))
         == if rows != [] && t.primaryKey in SHARE_MEMBERS then None else Some(ShareEntriesOf(cfg, t, rows, id, after))
  {
    hide ShareRecord, ShareEntryFrom, Normalize, ValidSpec, ValidRow, ShareEntryOf, ValidConfig;
    if rows != [] {
      ShareEntryBack(cfg, t, rows[0], id, after);
      ShareEntriesBack(cfg, t, rows[1..], id, after);
      assert Jsonl.Normalized(ShareRecords(cfg, t, rows, id, after))[1..]
          == Jsonl.Normalized(ShareRecords(cfg, t, rows[1..], id, after));
      assert ShareEntriesOf(cfg, t, rows, id, after)
          == [ShareEntryOf(cfg, t, rows[0], id, after)] + ShareEntriesOf(cfg, t, rows[1..], id, after);
    }
  }

  /** The share file tells a consumer exactly the batch: every row, in order, complete, with its key,
      its time, the run that published it and the checkpoint it led to; unless the key column is
      named like another member of the record, when it cannot. */
  lemma {:induction false} ShareReadsBack(cfg: Config, t: TableSpec, rows: seq<Row>, id: string, after: Checkpoint)
    requires ValidConfig(cfg) && ValidSpec(t) && ValidRows(t, rows) && ValidCheckpoint(after)
    ensures ReadShare(t, ShareText(cfg, t, rows, id, after))
         == if rows != [] && t.primaryKey in SHARE_MEMBERS then None else Some(ShareEntriesOf(cfg, t, rows, id, after))
  {
    hide ShareRecord, ShareEntryFrom, ValidSpec, ValidRow, ShareEntryOf, ValidConfig, Jsonl.Read, Jsonl.Text;
    Jsonl.ReadBack(ShareRecords(cfg, t, rows, id, after));
    ShareEntriesBack(cfg, t, rows, id, after);
  }

  // ------------------------------------------------------------ lake

  lemma PrintedUpdatedAt(t: TableSpec, row: Row)
    requires ValidSpec(t) && RowFits(t.columns, row) && Instants.InRange(Source.TimeOf(row))
    ensures var f := RowFields(t.columns, row);
            "updated_at" in Keys(f) && Lookup(f, "updated_at") == Str(Instants.Stamp(Source.TimeOf(row)))
  {
    hide Instants.Stamp, Lookup, Keys, RowFields;
    SpecialCells(t, row);
    var i :| 0 <= i < |t.columns| && t.columns[i] == Column("updated_at", "timestamptz");
    RowFieldsLookup(t.columns, row, i);
  }

  /** A row's line is filed under the date that its own updated_at prints, without leading zeros. */
  lemma {:induction false} FiledByPrintedDate(t: TableSpec, row: Row) returns (at: string)
    requires ValidSpec(t) && ValidRow(t, row)
    ensures RowFits(t.columns, row) && Instants.InRange(Source.TimeOf(row))
    ensures var f := RowFields(t.columns, row); "updated_at" in Keys(f) && Lookup(f, "updated_at") == Str(at)
    ensures |at| > 10
    ensures PathText(LakeLive(t, DateKeyOf(row)))
         == "lake/" + t.lakeSubdir + "/date=" + InstantProofs.WithoutZeros(at[..10]) + "/data.jsonl"
  {
    hide Instants.Stamp, Instants.DateKey, InstantProofs.WithoutZeros, Lookup, Keys, RowFields, PathText, ValidSpec;
    hide ValidRow, RowFits, Source.TimeOf, Instants.InRange;
    SpecialIsInRange(t, row);
    at := Instants.Stamp(Source.TimeOf(row));
    PrintedUpdatedAt(t, row);
    InstantProofs.DateKeyIsPrinted(Source.TimeOf(row));
    FourPieces("lake", t.lakeSubdir, "date=" + DateKeyOf(row), "data.jsonl");
  }

  /** Where consumers find the latest batch, a run's events and the checkpoint. */
  lemma {:induction false} Places(t: TableSpec, id: string)
    ensures PathText(ShareLive(t)) == "share/" + t.shareSubdir + "/changes.jsonl"
    ensures PathText(EventsLive(id)) == "events/" + id + ".jsonl"
    ensures PathText(CHECKPOINT_LIVE) == "state/checkpoint.json"
  {
    TwoPieces("state", "checkpoint.json");
    TwoPieces("events", id + ".jsonl");
    TwoPieces(t.shareSubdir, "changes.jsonl");
    assert ShareLive(t)[1..] == [t.shareSubdir, "changes.jsonl"];
    assert "share" + ['/'] + (t.shareSubdir + "/" + "changes.jsonl") == "share/" + t.shareSubdir + "/changes.jsonl";
  }

  /** Where a run stages its files: in its own directory, under the live file's path, but for the
      checkpoint; the plan and READY are beside them. */
  lemma {:induction false} StagedPlaces(id: string, p: Path)
    requires p != []
    ensures PathText(Staged(id, p))
         == "state/runs/" + id + "/" + (if p == CHECKPOINT_LIVE then "checkpoint.json" else PathText(p))
    ensures PathText(PlanPath(id)) == "state/runs/" + id + "/commit_plan.json"
    ensures PathText(ReadyPath(id)) == "state/runs/" + id + "/READY"
  {
    UnderRun(id, p);
    UnderRun(id, ["checkpoint.json"]);
    UnderRun(id, ["commit_plan.json"]);
    UnderRun(id, ["READY"]);
  }

  lemma UnderRun(id: string, p: Path)
    requires p != []
    ensures PathText(RunRoot(id) + p) == "state/runs/" + id + "/" + PathText(p)
  {
    var q := RunRoot(id) + p;
    assert q[1..][1..] == [id] + p && q[1..][0] == "runs" && ([id] + p)[1..] == p;
    assert Join('/', [id] + p) == id + "/" + Join('/', p);
    assert q[1..] == ["runs"] + ([id] + p);
    assert Join('/', q[1..]) == "runs/" + (id + "/" + Join('/', p));
    assert "state" + ['/'] + ("runs/" + (id + "/" + Join('/', p))) == "state/runs/" + id + "/" + Join('/', p);
  }

  lemma TwoPieces(a: string, b: string)
    ensures Join('/', [a, b]) == a + "/" + b
  {
    assert [a, b][1..] == [b];
  }

  lemma FourPieces(a: string, b: string, c: string, d: string)
    ensures PathText([a, b, c, d]) == a + "/" + b + "/" + c + "/" + d
  {
    assert [a, b, c, d][1..] == [b, c, d] && [b, c, d][1..] == [c, d] && [c, d][1..] == [d];
    assert Join('/', [d]) == d && Join('/', [c, d]) == c + "/" + d;
    assert Join('/', [b, c, d]) == b + "/" + (c + "/" + d);
    assert a + "/" + (b + "/" + (c + "/" + d)) == a + "/" + b + "/" + c + "/" + d;
  }

  // ------------------------------------------------------------ events

  datatype Event = Event(
    table: string,
    runId: string,
    fingerprint: string,
    deltaRowCount: int,
    lakePaths: seq<Path>,
    sharePath: Option<Path>,
    after: Checkpoint)

  function PathsFrom(items: Items): Option<seq<Path>> {
    match items
    case NoItem => Some([])
    case Item(head, tail) =>
      var rest := PathsFrom(tail);
      if !head.Str? || rest.None? then None else Some([PathFrom(head.s)] + rest.value)
  }

  function EventFrom(v: Json): Option<Event> {
    if !v.Obj? || Keys(v.fields) != EVENT_MEMBERS then None
    else
      var f := v.fields;
      var table, id, mark, count := TextOf(f, "table"), TextOf(f, "run_id"), TextOf(f, "schema_fingerprint"),
          IntOf(f, "delta_row_count");
      var lake, share := Lookup(f, "lake_paths"), Lookup(f, "share_path");
      var paths := if lake.Arr? then PathsFrom(lake.items) else None;
      var after := CheckpointOf(f, "checkpoint_after");
      if table.None? || id.None? || mark.None? || count.None? || paths.None? || after.None? then None
      else if share.Null? then
        Some(Event(table.value, id.value, mark.value, count.value, paths.value, None, after.value))
      else if share.Str? then
        Some(Event(table.value, id.value, mark.value, count.value, paths.value, Some(PathFrom(share.s)), after.value))
      else None
  }

  function EventOf(cfg: Config, t: TableSpec, rows: seq<Row>, id: string, after: Checkpoint): Event
    requires ValidConfig(cfg) && ValidSpec(t) && ValidRows(t, rows)
  {
    RowsAreTimed(t, rows);
    Event(t.name, id, Fingerprint(cfg, t), |rows|, PredictLake(t, rows), PredictShare(t, rows), after)
  }

  predicate AllValidPaths(ps: seq<Path>) {
    forall i :: 0 <= i < |ps| ==> ValidPath(ps[i])
  }

  lemma {:induction false} PathsBack(ps: seq<Path>)
    requires AllValidPaths(ps)
    ensures PathsFrom(NormalizeItems(PathItems(ps))) == Some(ps)
  {
    hide PathText, PathFrom, ValidPath;
    if ps != [] {
      ValidIsSome(ps[0]);
      PathBack(ps[0]);
      PathsBack(ps[1..]);
      assert ps == [ps[0]] + ps[1..];
    }
  }

  lemma ValidIsSome(p: Path)
    requires ValidPath(p)
    ensures p != []
  {
  }

  lemma {:induction false} PredictedAreValid(t: TableSpec, rows: seq<Row>)
    requires ValidSpec(t) && ValidRows(t, rows) && Timed(rows)
    ensures AllValidPaths(PredictLake(t, rows))
    ensures PredictShare(t, rows).Some? ==> ValidPath(PredictShare(t, rows).value)
  {
    hide ValidSpec, ValidRow, LakeLive, ShareLive, ValidPath;
    var ps := PredictLake(t, rows);
    forall i | 0 <= i < |ps| ensures ValidPath(ps[i]) {
      var key := SortedKeys(DateKeys(rows))[i];
      assert key in DateKeys(rows);
      KeyIsFree(rows, key);
      Runs.LakeLiveIsKnown(t, key);
    }
    Runs.ShareLiveIsKnown(t);
  }

  lemma KeyIsFree(rows: seq<Row>, key: string)
    requires Timed(rows) && key in DateKeys(rows)
    ensures Free('/', key)
  {
    var j :| 0 <= j < |rows| && DateKeyOf(rows[j]) == key;
  }

  const EVENT_MEMBERS: set<string> :=
    {"table", "run_id", "schema_fingerprint", "delta_row_count", "lake_paths", "share_path", "checkpoint_after"}

  lemma {:induction false} EventMembers(a: Json, b: Json, c: Json, d: Json, e: Json, g: Json, h: Json)
    ensures var f := Field("table", a, Field("run_id", b, Field("schema_fingerprint", c, Field("delta_row_count", d,
              Field("lake_paths", e, Field("share_path", g, Field("checkpoint_after", h, NoField)))))));
            && UniqueKeys(f) && Keys(f) == EVENT_MEMBERS
            && Lookup(f, "table") == a && Lookup(f, "run_id") == b && Lookup(f, "schema_fingerprint") == c
            && Lookup(f, "delta_row_count") == d && Lookup(f, "lake_paths") == e && Lookup(f, "share_path") == g
            && Lookup(f, "checkpoint_after") == h
  {
    hide Keys, Lookup, UniqueKeys;
    NoMembers();
    var f1 := Field("checkpoint_after", h, NoField);
    Front("checkpoint_after", h, NoField);
    var f2 := Field("share_path", g, f1);
    Front("share_path", g, f1);
    var f3 := Field("lake_paths", e, f2);
    Front("lake_paths", e, f2);
    var f4 := Field("delta_row_count", d, f3);
    Front("delta_row_count", d, f3);
    var f5 := Field("schema_fingerprint", c, f4);
    Front("schema_fingerprint", c, f4);
    var f6 := Field("run_id", b, f5);
    Front("run_id", b, f5);
    Front("table", a, f6);
  }

  function ShareJson(share: Option<Path>): Json
    requires share.Some? ==> share.value != []
  {
    if share.Some? then Str(PathText(share.value)) else Null
  }

  /** What is printed of an event, member by member. */
  ghost predicate PrintedEvent(cfg: Config, t: TableSpec, rows: seq<Row>, id: string, after: Checkpoint, g: Fields)
    requires ValidConfig(cfg) && ValidCheckpoint(after) && Timed(rows)
  {
    && Keys(g) == EVENT_MEMBERS
    && Lookup(g, "table") == Str(t.name) && Lookup(g, "run_id") == Str(id)
    && Lookup(g, "schema_fingerprint") == Str(Fingerprint(cfg, t)) && Lookup(g, "delta_row_count") == Int(|rows|)
    && Lookup(g, "lake_paths") == Arr(NormalizeItems(PathItems(PredictLake(t, rows))))
    && Lookup(g, "share_path") == ShareJson(PredictShare(t, rows))
    && Lookup(g, "checkpoint_after") == Normalize(ToDict(after))
  }

  lemma {:induction false} EventIsPrinted(cfg: Config, t: TableSpec, rows: seq<Row>, id: string, after: Checkpoint)
    returns (g: Fields)
    requires ValidConfig(cfg) && ValidSpec(t) && ValidRows(t, rows) && ValidCheckpoint(after) && Timed(rows)
    ensures Normalize(EventJson(cfg, t, rows, id, after)) == Obj(g) && PrintedEvent(cfg, t, rows, id, after, g)
  {
    hide Keys, Lookup, UniqueKeys, NormalizeFields, ToDict, ValidSpec, ValidRow, Fingerprint, ValidConfig;
    hide PredictLake, PredictShare, PathText, PathItems, Timed, NormalizeItems;
    var f := EventJson(cfg, t, rows, id, after).fields;
    EventMembers(Str(t.name), Str(id), Str(Fingerprint(cfg, t)), Int(|rows|), Arr(PathItems(PredictLake(t, rows))),
      ShareJson(PredictShare(t, rows)), ToDict(after));
    Printed(f);
    g := NormalizeFields(f);
  }

  /** An event says how many rows of which table a run published, where, and where it ended. */
  lemma {:induction false} EventBack(cfg: Config, t: TableSpec, rows: seq<Row>, id: string, after: Checkpoint)
    requires ValidConfig(cfg) && ValidSpec(t) && ValidRows(t, rows) && ValidCheckpoint(after)
    ensures EventFrom(Normalize(EventJson(cfg, t, rows, id, after))) == Some(EventOf(cfg, t, rows, id, after))
  {
    hide Keys, Lookup, Normalize, ToDict, ValidSpec, ValidRow, Fingerprint, ValidConfig, CheckpointOf, EventJson;
    hide PredictLake, PredictShare, PathText, PathFrom, PathItems, PathsFrom, Timed, ValidPath, NormalizeItems;
    RowsAreTimed(t, rows);
    PredictedAreValid(t, rows);
    var g := EventIsPrinted(cfg, t, rows, id, after);
    PrintedCheckpoint(g, "checkpoint_after", after);
    PathsBack(PredictLake(t, rows));
    if PredictShare(t, rows).Some? { PathBack(PredictShare(t, rows).value); }
  }

  function EventsFrom(vs: seq<Json>): Option<seq<Event>> {
    if vs == [] then Some([])
    else
      var e, rest := EventFrom(vs[0]), EventsFrom(vs[1..]);
      if e.None? || rest.None? then None else Some([e.value] + rest.value)
  }

  /** The events of a file, read by parsing it. */
  function ReadEvents(text: string): Option<seq<Event>> {
    var lines := Jsonl.Read(text);
    if lines.Torn? then None else EventsFrom(lines.vs)
  }

  function EventsOf(cfg: Config, tables: seq<TableSpec>, deltas: Deltas, id: string,
      after: Checkpoint): (es: seq<Event>)
    requires ValidConfig(cfg) && ValidTables(tables) && ValidDeltas(tables, deltas)
    ensures |es| == |tables|
    ensures forall i :: 0 <= i < |tables| ==> es[i] == EventOf(cfg, tables[i], deltas[tables[i].name], id, after)
  {
    seq(|tables|, i requires 0 <= i < |tables| => EventOf(cfg, tables[i], deltas[tables[i].name], id, after))
  }

  lemma {:induction false} EventsBack(cfg: Config, tables: seq<TableSpec>, deltas: Deltas, id: string,
      after: Checkpoint)
    requires ValidConfig(cfg) && ValidTables(tables) && ValidDeltas(tables, deltas) && ValidCheckpoint(after)
    ensures EventsFrom(Jsonl.Normalized(EventJsons(cfg, tables, deltas, id, after)))
         == Some(EventsOf(cfg, tables, deltas, id, after))
  {
    hide EventJson, EventFrom, EventOf, Normalize, ValidSpec, ValidRow, ValidConfig;
    if tables != [] {
      TablesRest(tables, deltas);
      EventBack(cfg, tables[0], deltas[tables[0].name], id, after);
      EventsBack(cfg, tables[1..], deltas, id, after);
      assert Jsonl.Normalized(EventJsons(cfg, tables, deltas, id, after))[1..]
          == Jsonl.Normalized(EventJsons(cfg, tables[1..], deltas, id, after));
      assert EventsOf(cfg, tables, deltas, id, after)
          == [EventOf(cfg, tables[0], deltas[tables[0].name], id, after)]
           + EventsOf(cfg, tables[1..], deltas, id, after);
    }
  }

  lemma TablesRest(tables: seq<TableSpec>, deltas: Deltas)
    requires ValidTables(tables) && ValidDeltas(tables, deltas) && tables != []
    ensures ValidTables(tables[1..]) && ValidDeltas(tables[1..], deltas)
  {
    hide ValidSpec, ValidRow;
  }

  /** The events file tells a consumer, table by table in configured order, what the run did, tables
      without rows included. */
  lemma {:induction false} EventsReadBack(cfg: Config, deltas: Deltas, id: string, after: Checkpoint)
    requires ValidConfig(cfg) && ValidDeltas(cfg.tables, deltas) && ValidCheckpoint(after)
    ensures ValidTables(cfg.tables)
    ensures ReadEvents(EventsText(cfg, deltas, id, after)) == Some(EventsOf(cfg, cfg.tables, deltas, id, after))
  {
    hide EventJson, EventFrom, EventOf, ValidSpec, ValidRow, Jsonl.Read, Jsonl.Text;
    assert ValidTables(cfg.tables);
    Jsonl.ReadBack(EventJsons(cfg, cfg.tables, deltas, id, after));
    EventsBack(cfg, cfg.tables, deltas, id, after);
  }
}
