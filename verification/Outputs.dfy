/** What one run publishes: its identity, and the content and place of every file it stages. */
module Outputs {
  import opened Strings
  import opened Json
  import opened Results
  import opened Tables
  import opened Checkpoints
  import opened Disks
  import opened Staging
  import opened Writes
  import Instants
  import Jsonl
  import Source

  /** The configured tables, in processing order, the SHA-256 hex digest, and the run_id length. */
  datatype Config = Config(tables: seq<TableSpec>, digest: string -> string, idLength: nat)

  predicate HexText(s: string) {
    forall i :: 0 <= i < |s| ==> IsDigit(s[i]) || 'a' <= s[i] <= 'f'
  }

  ghost predicate ValidConfig(cfg: Config) {
    && (forall i :: 0 <= i < |cfg.tables| ==> ValidSpec(cfg.tables[i]))
    && (forall i, j :: 0 <= i < j < |cfg.tables| ==> Apart(cfg.tables[i], cfg.tables[j]))
    && 8 <= cfg.idLength <= 64
    && (forall x :: |cfg.digest(x)| == 64 && HexText(cfg.digest(x)))
  }

  /** Tables differ in name and in both output sub-directories. */
  predicate Apart(s: TableSpec, t: TableSpec) {
    s.name != t.name && s.lakeSubdir != t.lakeSubdir && s.shareSubdir != t.shareSubdir
  }

  lemma TablesApart(cfg: Config, i: nat, j: nat)
    requires ValidConfig(cfg) && i < |cfg.tables| && j < |cfg.tables| && i != j
    ensures Apart(cfg.tables[i], cfg.tables[j])
  {
    var a, b := if i < j then i else j, if i < j then j else i;
    assert Apart(cfg.tables[a], cfg.tables[b]);
  }

  function TableNames(tables: seq<TableSpec>): set<string> {
    set i | 0 <= i < |tables| :: tables[i].name
  }

  /** The rows each table's query returned, by table name. */
  type Deltas = map<string, seq<Row>>

  predicate ValidDeltas(tables: seq<TableSpec>, deltas: Deltas) {
    forall i :: 0 <= i < |tables| ==> tables[i].name in deltas && ValidRows(tables[i], deltas[tables[i].name])
  }

  // ------------------------------------------------------------ identity

  /** A row identity: table, primary key, updated_at. */
  function IdentityJson(t: TableSpec, row: Row): Json
    requires Instants.InRange(Source.TimeOf(row))
  {
    Obj(Field("table", Str(t.name),
        Field("pk", Int(Source.PkOf(t, row)),
        Field("updated_at", Str(Instants.Stamp(Source.TimeOf(row))), NoField))))
  }

  predicate Timed(rows: seq<Row>) {
    forall i :: 0 <= i < |rows| ==> Instants.InRange(Source.TimeOf(rows[i]))
  }

  function IdentityItems(t: TableSpec, rows: seq<Row>): Items
    requires Timed(rows)
  {
    if rows == [] then NoItem else Item(IdentityJson(t, rows[0]), IdentityItems(t, rows[1..]))
  }

  predicate TimedDeltas(tables: seq<TableSpec>, deltas: Deltas) {
    forall i :: 0 <= i < |tables| ==> tables[i].name in deltas && Timed(deltas[tables[i].name])
  }

  function IdentityFields(tables: seq<TableSpec>, deltas: Deltas): Fields
    requires TimedDeltas(tables, deltas)
  {
    if tables == [] then NoField
    else
      assert TimedDeltas(tables[1..], deltas) by {
        forall i | 0 <= i < |tables[1..]| ensures tables[1..][i].name in deltas && Timed(deltas[tables[1..][i].name]) {
          assert tables[1..][i] == tables[i + 1];
        }
      }
      Field(tables[0].name, Arr(IdentityItems(tables[0], deltas[tables[0].name])), IdentityFields(tables[1..], deltas))
  }

  /** What run_id hashes: the checkpoint the run starts from and the ordered identities of exactly
      the rows it selected. */
  function Payload(tables: seq<TableSpec>, before: Checkpoint, deltas: Deltas): Json
    requires ValidCheckpoint(before) && TimedDeltas(tables, deltas)
  {
    Obj(Field("checkpoint_before", ToDict(before),
        Field("tables", Obj(IdentityFields(tables, deltas)), NoField)))
  }

  /** `compute_run_id`. */
  function RunId(cfg: Config, before: Checkpoint, deltas: Deltas): (id: string)
    requires ValidConfig(cfg) && ValidCheckpoint(before) && TimedDeltas(cfg.tables, deltas)
    ensures |id| == cfg.idLength && HexText(id)
  {
    cfg.digest(Canonical(Payload(cfg.tables, before, deltas)))[..cfg.idLength]
  }

  function ColumnItems(columns: seq<Column>): Items {
    if columns == [] then NoItem
    else
      var c := Obj(Field("name", Str(columns[0].name), Field("type", Str(columns[0].pgType), NoField)));
      Item(c, ColumnItems(columns[1..]))
  }

  /** What a schema fingerprint hashes. */
  function SchemaJson(t: TableSpec): Json {
    Obj(Field("table", Str(t.name), Field("columns", Arr(ColumnItems(t.columns)), NoField)))
  }

  /** `compute_schema_fingerprint`. */
  function Fingerprint(cfg: Config, t: TableSpec): string
    requires ValidConfig(cfg)
  {
    cfg.digest(Canonical(SchemaJson(t)))[..16]
  }

  // ------------------------------------------------------------ places

  function LakeLive(t: TableSpec, key: string): Path { ["lake", t.lakeSubdir, "date=" + key, "data.jsonl"] }

  function ShareLive(t: TableSpec): Path { ["share", t.shareSubdir, "changes.jsonl"] }

  function EventsLive(id: string): Path { ["events", id + ".jsonl"] }

  const CHECKPOINT_LIVE: Path := ["state", "checkpoint.json"]

  /** Staged files mirror the live layout under the run's directory. */
  function Staged(id: string, live: Path): Path {
    if live == CHECKPOINT_LIVE then RunRoot(id) + ["checkpoint.json"] else RunRoot(id) + live
  }

  datatype Output = Output(step: CommitStep, data: string)

  function At(id: string, live: Path, tag: string, data: string): Output {
    Output(CommitStep(Staged(id, live), live, tag), data)
  }

  /** The files that staging these outputs writes. */
  function FilesOf(os: seq<Output>): (files: seq<File>)
    ensures |files| == |os| && forall i :: 0 <= i < |os| ==> files[i] == File(os[i].step.stagedPath, os[i].data)
  {
    seq(|os|, i requires 0 <= i < |os| => File(os[i].step.stagedPath, os[i].data))
  }

  // ------------------------------------------------------------ lake

  /** The partition of a row: the UTC date of its updated_at. */
  function DateKeyOf(row: Row): (key: string)
    requires Instants.InRange(Source.TimeOf(row))
    ensures key != "" && Free('/', key)
  {
    Instants.DateKey(Instants.DayOf(Source.TimeOf(row)))
  }

  /** The rows of one partition, in their order. */
  function OnDate(rows: seq<Row>, key: string): (part: seq<Row>)
    requires Timed(rows)
    ensures forall i :: 0 <= i < |part| ==> part[i] in rows
  {
    if rows == [] then []
    else
      var last := rows[|rows| - 1];
      OnDate(rows[..|rows| - 1], key) + (if DateKeyOf(last) == key then [last] else [])
  }

  function DateKeys(rows: seq<Row>): set<string>
    requires Timed(rows)
  {
    set i | 0 <= i < |rows| :: DateKeyOf(rows[i])
  }

  /** Append by replacement: the existing text, closed with a newline if it was not, then the new
      lines. */
  function Merged(existing: string, lines: string): string {
    if existing != "" && !Jsonl.EndsWithNewline(existing) then existing + "\n" + lines else existing + lines
  }

  function TextAt(live: map<Path, string>, p: Path): string {
    if p in live then live[p] else ""
  }

  lemma RowsAreTimed(t: TableSpec, rows: seq<Row>)
    requires ValidSpec(t) && ValidRows(t, rows)
    ensures Timed(rows)
  {
    forall i | 0 <= i < |rows| ensures Instants.InRange(Source.TimeOf(rows[i])) { SpecialCells(t, rows[i]); }
  }

  lemma OnDateValid(t: TableSpec, rows: seq<Row>, key: string)
    requires ValidRows(t, rows) && Timed(rows)
    ensures ValidRows(t, OnDate(rows, key))
  {
    forall i | 0 <= i < |OnDate(rows, key)| ensures ValidRow(t, OnDate(rows, key)[i]) {
      var j :| 0 <= j < |rows| && rows[j] == OnDate(rows, key)[i];
    }
  }

  /** One touched partition. */
  function LakeOutput(t: TableSpec, rows: seq<Row>, key: string, live: map<Path, string>, id: string): Output
    requires ValidSpec(t) && ValidRows(t, rows) && Timed(rows)
  {
    OnDateValid(t, rows, key);
    At(id, LakeLive(t, key), "lake:" + t.name + ":" + key,
       Merged(TextAt(live, LakeLive(t, key)), Encode(t, OnDate(rows, key))))
  }

  /** The touched partitions, in the order of these keys. */
  function LakeOutputsFor(t: TableSpec, rows: seq<Row>, keys: seq<string>, live: map<Path, string>,
      id: string): (os: seq<Output>)
    requires ValidSpec(t) && ValidRows(t, rows) && Timed(rows)
    ensures |os| == |keys|
  {
    if keys == [] then []
    else
      var n := |keys| - 1;
      LakeOutputsFor(t, rows, keys[..n], live, id) + [LakeOutput(t, rows, keys[n], live, id)]
  }

  /** `stage_partitions`: the touched partitions, in key order. */
  function LakeOutputs(t: TableSpec, rows: seq<Row>, live: map<Path, string>, id: string): seq<Output>
    requires ValidSpec(t) && ValidRows(t, rows) && Timed(rows)
  {
    LakeOutputsFor(t, rows, SortedKeys(DateKeys(rows)), live, id)
  }

  lemma {:induction false} LakeOutputAt(t: TableSpec, rows: seq<Row>, keys: seq<string>, live: map<Path, string>,
      id: string, i: nat)
    requires ValidSpec(t) && ValidRows(t, rows) && Timed(rows) && i < |keys|
    ensures LakeOutputsFor(t, rows, keys, live, id)[i] == LakeOutput(t, rows, keys[i], live, id)
  {
    hide LakeOutput;
    var n := |keys| - 1;
    if i < n { LakeOutputAt(t, rows, keys[..n], live, id, i); }
  }

  /** The live places of these partitions. */
  function LakeLives(t: TableSpec, keys: seq<string>): (ps: seq<Path>)
    ensures |ps| == |keys| && forall i :: 0 <= i < |keys| ==> ps[i] == LakeLive(t, keys[i]) && ps[i] != []
  {
    seq(|keys|, i requires 0 <= i < |keys| => LakeLive(t, keys[i]))
  }

  /** `predict_partitions`. */
  function PredictLake(t: TableSpec, rows: seq<Row>): (ps: seq<Path>)
    requires Timed(rows)
    ensures forall i :: 0 <= i < |ps| ==> ps[i] != []
  {
    if rows == [] then [] else LakeLives(t, SortedKeys(DateKeys(rows)))
  }

  // ------------------------------------------------------------ share

  /** `_build_record`. */
  function ShareRecord(cfg: Config, t: TableSpec, row: Row, id: string, after: Checkpoint): Json
    requires ValidConfig(cfg) && ValidSpec(t) && ValidRow(t, row) && ValidCheckpoint(after)
  {
    SpecialCells(t, row);
    var f := Field("table", Str(t.name), Field("op", Str("upsert"), NoField));
    var g := Put(Put(f, t.primaryKey, Int(Source.PkOf(t, row))), "updated_at", Str(Instants.Stamp(Source.TimeOf(row))));
    var h := Put(Put(g, "run_id", Str(id)), "schema_fingerprint", Str(Fingerprint(cfg, t)));
    Obj(Put(Put(h, "checkpoint_after", ToDict(after)), "record", RowJson(t, row)))
  }

  function ShareRecords(cfg: Config, t: TableSpec, rows: seq<Row>, id: string, after: Checkpoint): (vs: seq<Json>)
    requires ValidConfig(cfg) && ValidSpec(t) && ValidRows(t, rows) && ValidCheckpoint(after)
    ensures |vs| == |rows|
    ensures forall i :: 0 <= i < |rows| ==> vs[i] == ShareRecord(cfg, t, rows[i], id, after)
  {
    seq(|rows|, i requires 0 <= i < |rows| => ShareRecord(cfg, t, rows[i], id, after))
  }

  /** The share file's text: one record per row of the batch, in batch order. */
  function ShareText(cfg: Config, t: TableSpec, rows: seq<Row>, id: string, after: Checkpoint): string
    requires ValidConfig(cfg) && ValidSpec(t) && ValidRows(t, rows) && ValidCheckpoint(after)
  {
    Jsonl.Text(ShareRecords(cfg, t, rows, id, after))
  }

  function ShareOutput(cfg: Config, t: TableSpec, rows: seq<Row>, id: string, after: Checkpoint): Output
    requires ValidConfig(cfg) && ValidSpec(t) && ValidRows(t, rows) && ValidCheckpoint(after)
  {
    At(id, ShareLive(t), "share:" + t.name, ShareText(cfg, t, rows, id, after))
  }

  /** `stage_share`: nothing for a table without rows. */
  function ShareOutputs(cfg: Config, t: TableSpec, rows: seq<Row>, id: string, after: Checkpoint): seq<Output>
    requires ValidConfig(cfg) && ValidSpec(t) && ValidRows(t, rows) && ValidCheckpoint(after)
  {
    if rows == [] then [] else [ShareOutput(cfg, t, rows, id, after)]
  }

  /** `predict_share_path`. */
  function PredictShare(t: TableSpec, rows: seq<Row>): (p: Option<Path>)
    ensures p.Some? ==> p.value != []
  {
    if rows == [] then None else Some(ShareLive(t))
  }

  // ------------------------------------------------------------ events

  function PathItems(ps: seq<Path>): Items
    requires forall i :: 0 <= i < |ps| ==> ps[i] != []
  {
    if ps == [] then NoItem else Item(Str(PathText(ps[0])), PathItems(ps[1..]))
  }

  /** One event, as it is dumped. */
  function EventJson(cfg: Config, t: TableSpec, rows: seq<Row>, id: string, after: Checkpoint): Json
    requires ValidConfig(cfg) && ValidSpec(t) && ValidRows(t, rows) && ValidCheckpoint(after)
  {
    RowsAreTimed(t, rows);
    var share := PredictShare(t, rows);
    Obj(Field("table", Str(t.name),
        Field("run_id", Str(id),
        Field("schema_fingerprint", Str(Fingerprint(cfg, t)),
        Field("delta_row_count", Int(|rows|),
        Field("lake_paths", Arr(PathItems(PredictLake(t, rows))),
        Field("share_path", if share.Some? then Str(PathText(share.value)) else Null,
        Field("checkpoint_after", ToDict(after), NoField))))))))
  }

  predicate ValidTables(tables: seq<TableSpec>) {
    forall i :: 0 <= i < |tables| ==> ValidSpec(tables[i])
  }

  /** `_build_events`: one event per table, rows or no rows. */
  function EventJsons(cfg: Config, tables: seq<TableSpec>, deltas: Deltas, id: string,
      after: Checkpoint): (vs: seq<Json>)
    requires ValidConfig(cfg) && ValidTables(tables) && ValidDeltas(tables, deltas) && ValidCheckpoint(after)
    ensures |vs| == |tables|
    ensures forall i :: 0 <= i < |tables| ==>
      vs[i] == EventJson(cfg, tables[i], deltas[tables[i].name], id, after)
  {
    seq(|tables|, i requires 0 <= i < |tables| => EventJson(cfg, tables[i], deltas[tables[i].name], id, after))
  }

  function EventsText(cfg: Config, deltas: Deltas, id: string, after: Checkpoint): string
    requires ValidConfig(cfg) && ValidDeltas(cfg.tables, deltas) && ValidCheckpoint(after)
  {
    Jsonl.Text(EventJsons(cfg, cfg.tables, deltas, id, after))
  }
}
