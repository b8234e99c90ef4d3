/** Composite watermarks, the checkpoint that holds one per table, and its file. */
module Checkpoints {
  import opened Strings
  import opened Json
  import JsonProofs
  import opened Results
  import Instants

  datatype Watermark = Watermark(updatedAt: int, lastPk: int)

  /** (0001-01-01T00:00:00Z, 0): the watermark of a table never read. */
  const EMPTY := Watermark(0, 0)

  predicate ValidWatermark(w: Watermark) { Instants.InRange(w.updatedAt) && w.lastPk >= 0 }

  /** Strict lexicographic order on (updated_at, pk). */
  predicate Before(a: Watermark, b: Watermark) {
    a.updatedAt < b.updatedAt || (a.updatedAt == b.updatedAt && a.lastPk < b.lastPk)
  }

  predicate AtOrBefore(a: Watermark, b: Watermark) { a == b || Before(a, b) }

  lemma NotBack(a: Watermark, b: Watermark)
    ensures Before(a, b) <==> !AtOrBefore(b, a)
  {
  }

  type Checkpoint = map<string, Watermark>

  predicate ValidCheckpoint(cp: Checkpoint) {
    forall t :: t in cp ==> ValidWatermark(cp[t])
  }

  function Initial(tables: set<string>): Checkpoint {
    map t | t in tables :: EMPTY
  }

  /** `Checkpoint.watermark`: a table the checkpoint does not mention has never been read. */
  function WatermarkOf(cp: Checkpoint, table: string): Watermark {
    if table in cp then cp[table] else EMPTY
  }

  // ------------------------------------------------------------ dict form

  function WatermarkJson(w: Watermark): Json
    requires ValidWatermark(w)
  {
    Obj(Field("updated_at", Str(Instants.Stamp(w.updatedAt)), Field("last_pk", Int(w.lastPk), NoField)))
  }

  function EntryFields(cp: Checkpoint, names: seq<string>): (f: Fields)
    requires ValidCheckpoint(cp) && forall n :: n in names ==> n in cp
    ensures forall n :: n in Keys(f) <==> n in names
  {
    if names == [] then NoField
    else Field(names[0], WatermarkJson(cp[names[0]]), EntryFields(cp, names[1..]))
  }

  /** `Checkpoint.to_dict`: tables in name order. */
  function ToDict(cp: Checkpoint): Json
    requires ValidCheckpoint(cp)
  {
    Obj(EntryFields(cp, SortedKeys(cp.Keys)))
  }

  function WatermarkFrom(v: Json): (w: Option<Watermark>)
    ensures w.Some? ==> ValidWatermark(w.value)
  {
    if !v.Obj? || "updated_at" !in Keys(v.fields) || "last_pk" !in Keys(v.fields) then None
    else
      var at, pk := Final(v.fields, "updated_at"), Final(v.fields, "last_pk");
      if !at.Str? || !pk.Int? || pk.n < 0 then None
      else
        var dt := Instants.ParseIsoUtc(at.s);
        if dt.Ok? then Some(Watermark(dt.value.local, pk.n)) else None
  }

  function EntriesFrom(f: Fields): (cp: Option<Checkpoint>)
    ensures cp.Some? ==> ValidCheckpoint(cp.value)
  {
    match f
    case NoField => Some(map[])
    case Field(k, v, rest) =>
      if k in Keys(rest) then EntriesFrom(rest)
      else
        var w, others := WatermarkFrom(v), EntriesFrom(rest);
        if w.None? || others.None? then None else Some(others.value[k := w.value])
  }

  // ------------------------------------------------------------ the file

  datatype CheckpointFile = Missing | Present(text: string)

  datatype LoadResult = Corrupt | Usable(cp: Checkpoint)

  /** The stored text of a checkpoint. */
  function FileText(cp: Checkpoint): string
    requires ValidCheckpoint(cp)
  {
    Pretty(ToDict(cp))
  }

  /** Loading: a missing file is the initial checkpoint, an unusable one is an error. */
  function LoadFile(tables: set<string>, file: CheckpointFile): (r: LoadResult)
    ensures r.Usable? ==> ValidCheckpoint(r.cp)
  {
    match file
    case Missing => Usable(Initial(tables))
    case Present(text) =>
      var v := Load(text);
      if v.NotJson? || !v.value.Obj? then Corrupt
      else
        var cp := EntriesFrom(v.value.fields);
        if cp.None? then Corrupt else Usable(cp.value)
  }

  // ------------------------------------------------------------ which files load

  /** The value is an object that says this watermark: a text that is read as its instant, and a
      primary key that is not negative. */
  ghost predicate SaysWatermark(v: Json, w: Watermark) {
    && v.Obj? && {"updated_at", "last_pk"} <= Keys(v.fields)
    && var at, pk := Final(v.fields, "updated_at"), Final(v.fields, "last_pk");
       && at.Str? && Instants.ParseIsoUtc(at.s) == Instants.Ok(Instants.DateTime(w.updatedAt, Instants.Offset(0)))
       && pk == Int(w.lastPk) && w.lastPk >= 0
  }

  ghost predicate SaysNone(v: Json) {
    forall w :: !SaysWatermark(v, w)
  }

  lemma WatermarkExactly(v: Json, w: Watermark)
    ensures WatermarkFrom(v) == Some(w) <==> SaysWatermark(v, w)
  {
    hide Instants.ParseIsoUtc;
  }

  lemma {:induction false} EntriesHold(f: Fields)
    ensures match EntriesFrom(f)
      case Some(cp) => cp.Keys == Keys(f) && forall k :: k in Keys(f) ==> WatermarkFrom(Final(f, k)) == Some(cp[k])
      case None => exists k :: k in Keys(f) && WatermarkFrom(Final(f, k)).None?
  {
    hide WatermarkFrom;
    if f.Field? {
      EntriesHold(f.rest);
      if EntriesFrom(f.rest).None? {
        var k :| k in Keys(f.rest) && WatermarkFrom(Final(f.rest, k)).None?;
        assert k in Keys(f) && Final(f, k) == Final(f.rest, k);
      } else if f.key !in Keys(f.rest) && WatermarkFrom(f.value).None? {
        assert f.key in Keys(f) && Final(f, f.key) == f.value;
      }
    }
  }

  /** The text is one JSON object that says, for each of the checkpoint's tables and no others, that
      table's watermark. */
  ghost predicate HoldsCheckpoint(text: string, cp: Checkpoint) {
    && ObjectIn(text).Some?
    && var f := ObjectIn(text).value;
       cp.Keys == Keys(f) && forall k :: k in Keys(f) ==> SaysWatermark(Final(f, k), cp[k])
  }

  /** A file loads as a checkpoint exactly when it holds it. */
  lemma {:induction false} LoadsExactly(tables: set<string>, text: string, cp: Checkpoint)
    ensures LoadFile(tables, Present(text)) == Usable(cp) <==> HoldsCheckpoint(text, cp)
  {
    hide WatermarkFrom, SaysWatermark, EntriesFrom, Load, Final, Keys;
    if ObjectIn(text).Some? {
      var f := ObjectIn(text).value;
      EntriesHold(f);
      forall v, w ensures WatermarkFrom(v) == Some(w) <==> SaysWatermark(v, w) { WatermarkExactly(v, w); }
      if EntriesFrom(f).Some? && cp.Keys == Keys(f)
         && forall k :: k in Keys(f) ==> WatermarkFrom(Final(f, k)) == Some(cp[k])
      {
        assert EntriesFrom(f).value == cp;
      }
    }
  }

  /** It is corrupt exactly when it is no JSON object or some member of it says no watermark. */
  lemma {:induction false} CorruptExactly(tables: set<string>, text: string)
    ensures LoadFile(tables, Present(text)).Corrupt? <==>
      || ObjectIn(text).None?
      || var f := ObjectIn(text).value; exists k :: k in Keys(f) && SaysNone(Final(f, k))
  {
    hide WatermarkFrom, SaysNone, EntriesFrom, Load, Final, Keys;
    if ObjectIn(text).Some? {
      var f := ObjectIn(text).value;
      EntriesHold(f);
      forall k | k in Keys(f) ensures WatermarkFrom(Final(f, k)).None? <==> SaysNone(Final(f, k)) {
        NoneIsNever(Final(f, k));
      }
    }
  }

  lemma NoneIsNever(v: Json)
    ensures WatermarkFrom(v).None? <==> SaysNone(v)
  {
    hide SaysWatermark, WatermarkFrom;
    forall w ensures WatermarkFrom(v) == Some(w) <==> SaysWatermark(v, w) { WatermarkExactly(v, w); }
    if WatermarkFrom(v).Some? { assert SaysWatermark(v, WatermarkFrom(v).value); }
  }

  // ------------------------------------------------------------ round trip

  lemma {:induction false} WatermarkBack(w: Watermark)
    requires ValidWatermark(w)
    ensures WatermarkFrom(Normalize(WatermarkJson(w))) == Some(w)
  {
    hide Instants.ParseIsoUtc, Instants.Stamp;
    Instants.ParseStamp(w.updatedAt);
    var at := Str(Instants.Stamp(w.updatedAt));
    NormalizePair("updated_at", at, "last_pk", Int(w.lastPk));
    PairLookup("last_pk", Int(w.lastPk), "updated_at", at);
  }

  lemma PairLookup(a: string, x: Json, b: string, y: Json)
    requires a != b
    ensures var f := Field(a, x, Field(b, y, NoField));
            && a in Keys(f) && b in Keys(f) && Lookup(f, a) == Final(f, a) == x && Lookup(f, b) == Final(f, b) == y
  {
    var inner := Field(b, y, NoField);
    assert Keys(inner) == {b} + {};
    assert Lookup(inner, b) == y;
  }

  lemma NormalizePair(a: string, x: Json, b: string, y: Json)
    requires Less(b, a)
    ensures Normalize(Obj(Field(a, x, Field(b, y, NoField))))
         == Obj(Field(b, Normalize(y), Field(a, Normalize(x), NoField)))
  {
    LessTotal(a, b);
    var tail := NormalizeFields(Field(b, y, NoField));
    assert tail == Insert(b, Normalize(y), NoField) == Field(b, Normalize(y), NoField);
    assert NormalizeFields(Field(a, x, Field(b, y, NoField))) == Insert(a, Normalize(x), tail);
    assert Insert(a, Normalize(x), NoField) == Field(a, Normalize(x), NoField);
  }

  lemma WatermarkWellFormed(w: Watermark)
    requires ValidWatermark(w)
    ensures WellFormed(WatermarkJson(w))
  {
    hide Instants.Stamp;
    PairWellFormed("updated_at", Str(Instants.Stamp(w.updatedAt)), "last_pk", Int(w.lastPk));
  }

  lemma PairWellFormed(a: string, x: Json, b: string, y: Json)
    requires a != b && WellFormed(x) && WellFormed(y)
    ensures WellFormed(Obj(Field(a, x, Field(b, y, NoField))))
  {
    var inner := Field(b, y, NoField);
    assert Keys(inner) == {b} + {};
    assert WellFormedFields(NoField) && WellFormedFields(inner);
    assert UniqueKeys(NoField) && UniqueKeys(inner);
  }

  lemma {:induction false} EntryFieldsLookup(cp: Checkpoint, names: seq<string>, n: string)
    requires ValidCheckpoint(cp) && (forall m :: m in names ==> m in cp) && n in names
    ensures Lookup(EntryFields(cp, names), n) == WatermarkJson(cp[n])
  {
    if names[0] != n { EntryFieldsLookup(cp, names[1..], n); }
  }

  /** The member of a table says its time and its key and nothing else. */
  ghost predicate SaysOnly(v: Json, w: Watermark)
    requires ValidWatermark(w)
  {
    && v.Obj? && UniqueKeys(v.fields) && Keys(v.fields) == {"updated_at", "last_pk"}
    && Lookup(v.fields, "updated_at") == Str(Instants.Stamp(w.updatedAt))
    && Lookup(v.fields, "last_pk") == Int(w.lastPk)
  }

  lemma WatermarkShape(w: Watermark)
    requires ValidWatermark(w)
    ensures SaysOnly(WatermarkJson(w), w)
  {
    hide Instants.Stamp;
    PairLookup("updated_at", Str(Instants.Stamp(w.updatedAt)), "last_pk", Int(w.lastPk));
    WatermarkWellFormed(w);
    assert Keys(Field("last_pk", Int(w.lastPk), NoField)) == {"last_pk"} + {};
  }

  /** The dict form has one member for each table and no other. */
  lemma {:induction false} DictShape(cp: Checkpoint)
    requires ValidCheckpoint(cp)
    ensures var f := ToDict(cp).fields;
            && UniqueKeys(f) && Keys(f) == cp.Keys
            && forall t :: t in cp ==> SaysOnly(Lookup(f, t), cp[t])
  {
    hide WatermarkJson, SaysOnly, Lookup;
    var names := SortedKeys(cp.Keys);
    SortedKeysAscend(cp.Keys);
    EntryFieldsUnique(cp, names);
    forall t | t in cp ensures SaysOnly(Lookup(ToDict(cp).fields, t), cp[t]) {
      EntryFieldsLookup(cp, names, t);
      WatermarkShape(cp[t]);
    }
  }

  lemma {:induction false} EntryFieldsUnique(cp: Checkpoint, names: seq<string>)
    requires ValidCheckpoint(cp) && (forall m :: m in names ==> m in cp) && Ascending(names)
    ensures UniqueKeys(EntryFields(cp, names)) && WellFormedFields(EntryFields(cp, names))
  {
    hide WatermarkJson, ValidWatermark, WellFormed, Less;
    if names != [] {
      WatermarkWellFormed(cp[names[0]]);
      if names[0] in names[1..] {
        var i :| 0 <= i < |names[1..]| && names[1..][i] == names[0];
        AscendingDistinct(names, 0, i + 1);
      }
      EntryFieldsUnique(cp, names[1..]);
    }
  }

  lemma ToDictWellFormed(cp: Checkpoint)
    requires ValidCheckpoint(cp)
    ensures WellFormed(ToDict(cp))
  {
    SortedKeysAscend(cp.Keys);
    EntryFieldsUnique(cp, SortedKeys(cp.Keys));
  }

  lemma {:induction false} EntriesBack(cp: Checkpoint, f: Fields)
    requires ValidCheckpoint(cp) && UniqueKeys(f)
    requires forall k :: k in Keys(f) ==> k in cp && Lookup(f, k) == Normalize(WatermarkJson(cp[k]))
    ensures EntriesFrom(f) == Some(map k | k in Keys(f) :: cp[k])
  {
    hide WatermarkJson, WatermarkFrom, ValidWatermark, Normalize;
    if f.Field? {
      assert f.key in Keys(f);
      WatermarkBack(cp[f.key]);
      forall k | k in Keys(f.rest) ensures k in cp && Lookup(f.rest, k) == Normalize(WatermarkJson(cp[k])) {
        assert k in Keys(f) && Lookup(f, k) == Lookup(f.rest, k);
      }
      EntriesBack(cp, f.rest);
      var others := map k | k in Keys(f.rest) :: cp[k];
      assert (map k | k in Keys(f) :: cp[k]) == others[f.key := cp[f.key]];
    } else {
      assert Keys(f) == {};
    }
  }

  /** A checkpoint survives its dict form, in whatever order its members are. */
  lemma DictRoundTrip(cp: Checkpoint)
    requires ValidCheckpoint(cp)
    ensures EntriesFrom(NormalizeFields(ToDict(cp).fields)) == Some(cp)
  {
    hide Normalize, NormalizeFields, EntriesFrom, Lookup, UniqueKeys, WatermarkJson, EntryFields, WellFormedFields;
    hide Ordered, Keys;
    var names := SortedKeys(cp.Keys);
    var f := EntryFields(cp, names);
    SortedKeysAscend(cp.Keys);
    EntryFieldsUnique(cp, names);
    NormalizeFieldsOrdered(f);
    var g := NormalizeFields(f);
    OrderedIsUnique(g);
    forall k | k in Keys(g) ensures k in cp && Lookup(g, k) == Normalize(WatermarkJson(cp[k])) {
      EntryFieldsLookup(cp, names, k);
    }
    EntriesBack(cp, g);
    assert (map k | k in Keys(g) :: cp[k]) == cp;
  }

  /** A checkpoint survives its file: `load(stage(cp)) == cp`. */
  lemma {:induction false} FileRoundTrip(cp: Checkpoint, tables: set<string>)
    requires ValidCheckpoint(cp)
    ensures LoadFile(tables, Present(FileText(cp))) == Usable(cp)
  {
    hide NormalizeFields, EntriesFrom, EntryFields, Pretty, Load;
    JsonProofs.LoadDumped(ToDict(cp));
    NormalizedObj(ToDict(cp).fields);
    DictRoundTrip(cp);
  }

  lemma NormalizedObj(f: Fields)
    ensures Normalize(Obj(f)) == Obj(NormalizeFields(f))
  {
  }

  /** Two checkpoints have one dict form, and one file text, only if they are equal. */
  lemma {:induction false} FileTextInjective(a: Checkpoint, b: Checkpoint)
    requires ValidCheckpoint(a) && ValidCheckpoint(b)
    requires FileText(a) == FileText(b) || Same(ToDict(a), ToDict(b))
    ensures a == b
  {
    ToDictWellFormed(a);
    ToDictWellFormed(b);
    JsonProofs.DumpIsInjective(ToDict(a), ToDict(b));
    FileRoundTrip(a, {});
    FileRoundTrip(b, {});
  }
}
