/** The JSON values the service writes, its one sorted-key printer (compact for hash inputs and
    JSONL, indented for the checkpoint and the commit plan), and a reader for RFC 8259 texts. */
module Json {
  import opened Strings
  import opened Results

  /** Objects keep their members in insertion order, as a Python dict does. */
  datatype Json =
    | Null
    | Bool(b: bool)
    | Int(n: int)
    | Str(s: string)
    | Arr(items: Items)
    | Obj(fields: Fields)

  datatype Items = NoItem | Item(head: Json, tail: Items)

  datatype Fields = NoField | Field(key: string, value: Json, rest: Fields)

  datatype Style = Compact | Indented

  // ------------------------------------------------------------ dictionaries

  function Keys(f: Fields): set<string> {
    match f
    case NoField => {}
    case Field(k, _, rest) => {k} + Keys(rest)
  }

  function Lookup(f: Fields, k: string): (v: Json)
    requires k in Keys(f)
    ensures v < f
  {
    if f.key == k then f.value else Lookup(f.rest, k)
  }

  /** Of two members with one key, the dict that `json.loads` builds keeps the later. */
  function Final(f: Fields, k: string): (v: Json)
    requires k in Keys(f)
    ensures v < f
  {
    if k in Keys(f.rest) then Final(f.rest, k) else f.value
  }

  lemma {:induction false} FinalIsLookup(f: Fields, k: string)
    requires UniqueKeys(f) && k in Keys(f)
    ensures Final(f, k) == Lookup(f, k)
  {
    if f.key != k { FinalIsLookup(f.rest, k); }
  }

  predicate UniqueKeys(f: Fields) {
    f.Field? ==> f.key !in Keys(f.rest) && UniqueKeys(f.rest)
  }

  /** Assigning a key of a dict: a key that is there keeps its place. */
  function Put(f: Fields, k: string, v: Json): (g: Fields)
    ensures Keys(g) == Keys(f) + {k}
  {
    match f
    case NoField => Field(k, v, NoField)
    case Field(k2, v2, rest) => if k2 == k then Field(k, v, rest) else Field(k2, v2, Put(rest, k, v))
  }

  lemma {:induction false} PutMembers(f: Fields, k: string, v: Json)
    requires UniqueKeys(f)
    ensures UniqueKeys(Put(f, k, v)) && Lookup(Put(f, k, v), k) == v
    ensures forall x :: x in Keys(f) && x != k ==> Lookup(Put(f, k, v), x) == Lookup(f, x)
  {
    if f.Field? && f.key != k { PutMembers(f.rest, k, v); }
  }

  /** A value Python can hold: no object has two members with one key. */
  predicate WellFormed(v: Json) {
    match v
    case Arr(items) => WellFormedItems(items)
    case Obj(fields) => UniqueKeys(fields) && WellFormedFields(fields)
    case _ => true
  }

  predicate WellFormedItems(items: Items) {
    items.Item? ==> WellFormed(items.head) && WellFormedItems(items.tail)
  }

  predicate WellFormedFields(f: Fields) {
    f.Field? ==> WellFormed(f.value) && WellFormedFields(f.rest)
  }

  /** Equality as JSON values: objects compare as maps, arrays in order. It is Python's `==` but for
      `True == 1`, whose texts differ. */
  ghost predicate Same(v: Json, w: Json) {
    match (v, w)
    case (Arr(a), Arr(b)) => SameItems(a, b)
    case (Obj(f), Obj(g)) =>
      Keys(f) == Keys(g) && forall k :: k in Keys(f) ==> Same(Lookup(f, k), Lookup(g, k))
    case _ => v == w
  }

  ghost predicate SameItems(a: Items, b: Items) {
    match (a, b)
    case (Item(x, s), Item(y, t)) => Same(x, y) && SameItems(s, t)
    case _ => a == b
  }

  // ------------------------------------------------------------ key sorting

  function Insert(k: string, v: Json, f: Fields): (g: Fields)
    ensures Keys(g) == Keys(f) + {k}
  {
    match f
    case NoField => Field(k, v, NoField)
    case Field(k2, v2, rest) => if Less(k2, k) then Field(k2, v2, Insert(k, v, rest)) else Field(k, v, f)
  }

  /** The value with every object's members in key order: what `sort_keys=True` prints. */
  function Normalize(v: Json): Json {
    match v
    case Arr(items) => Arr(NormalizeItems(items))
    case Obj(fields) => Obj(NormalizeFields(fields))
    case _ => v
  }

  function NormalizeItems(items: Items): Items {
    match items
    case NoItem => NoItem
    case Item(head, tail) => Item(Normalize(head), NormalizeItems(tail))
  }

  function NormalizeFields(f: Fields): (g: Fields)
    ensures Keys(g) == Keys(f)
  {
    match f
    case NoField => NoField
    case Field(k, v, rest) => Insert(k, Normalize(v), NormalizeFields(rest))
  }

  predicate KeysAbove(k: string, f: Fields) {
    f.Field? ==> Less(k, f.key) && KeysAbove(k, f.rest)
  }

  predicate Ordered(f: Fields) {
    f.Field? ==> KeysAbove(f.key, f.rest) && Ordered(f.rest)
  }

  lemma {:induction false} AboveIsAbove(k: string, f: Fields, x: string)
    requires KeysAbove(k, f) && x in Keys(f)
    ensures Less(k, x)
  {
    if x != f.key { AboveIsAbove(k, f.rest, x); }
  }

  lemma {:induction false} AboveWeaken(j: string, k: string, f: Fields)
    requires Less(j, k) && KeysAbove(k, f)
    ensures KeysAbove(j, f)
  {
    if f.Field? { LessTransitive(j, k, f.key); AboveWeaken(j, k, f.rest); }
  }

  lemma {:induction false} InsertOrdered(k: string, v: Json, f: Fields)
    requires Ordered(f) && k !in Keys(f)
    ensures Ordered(Insert(k, v, f))
    ensures forall j :: Less(j, k) && KeysAbove(j, f) ==> KeysAbove(j, Insert(k, v, f))
    ensures Lookup(Insert(k, v, f), k) == v
    ensures forall x :: x in Keys(f) ==> Lookup(Insert(k, v, f), x) == Lookup(f, x)
  {
    if f.Field? {
      InsertOrdered(k, v, f.rest);
      LessTotal(f.key, k);
      if !Less(f.key, k) { AboveWeaken(k, f.key, f.rest); }
    }
  }

  lemma {:induction false} NormalizeFieldsOrdered(f: Fields)
    requires UniqueKeys(f)
    ensures Ordered(NormalizeFields(f))
    ensures forall x :: x in Keys(f) ==> Lookup(NormalizeFields(f), x) == Normalize(Lookup(f, x))
  {
    if f.Field? {
      NormalizeFieldsOrdered(f.rest);
      InsertOrdered(f.key, Normalize(f.value), NormalizeFields(f.rest));
    }
  }

  /** Two key-ordered member lists with the same contents are the same list. */
  lemma {:induction false} OrderedUnique(f: Fields, g: Fields)
    requires Ordered(f) && Ordered(g) && Keys(f) == Keys(g)
    requires forall x :: x in Keys(f) ==> Lookup(f, x) == Lookup(g, x)
    ensures f == g
  {
    EmptyKeys(f);
    EmptyKeys(g);
    if f.Field? {
      LessTotal(f.key, g.key);
      if f.key != g.key {
        if Less(f.key, g.key) { AboveIsAbove(g.key, g.rest, f.key); } else { AboveIsAbove(f.key, f.rest, g.key); }
      }
      OrderedRest(f);
      OrderedRest(g);
      assert Keys(f.rest) == Keys(f) - {f.key} == Keys(g) - {g.key} == Keys(g.rest);
      forall x | x in Keys(f.rest) ensures Lookup(f.rest, x) == Lookup(g.rest, x) {
        assert Lookup(f, x) == Lookup(g, x);
      }
      OrderedUnique(f.rest, g.rest);
    }
  }

  lemma EmptyKeys(f: Fields)
    ensures Keys(f) == {} <==> f.NoField?
  {
    if f.Field? { assert f.key in Keys(f); }
  }

  lemma OrderedRest(f: Fields)
    requires f.Field? && Ordered(f)
    ensures f.key !in Keys(f.rest)
  {
    if f.key in Keys(f.rest) {
      AboveIsAbove(f.key, f.rest, f.key);
      LessTotal(f.key, f.key);
    }
  }

  lemma {:induction false} OrderedIsUnique(f: Fields)
    requires Ordered(f)
    ensures UniqueKeys(f)
  {
    if f.Field? { OrderedRest(f); OrderedIsUnique(f.rest); }
  }

  /** Insertion order never matters, and nothing else is forgotten: two values sort to one form
      exactly when they are equal as JSON values. */
  lemma {:induction false} NormalFormIsEquality(v: Json, w: Json)
    requires WellFormed(v) && WellFormed(w)
    ensures Normalize(v) == Normalize(w) <==> Same(v, w)
  {
    if v.Arr? && w.Arr? {
      NormalItemsAreEqual(v.items, w.items);
    } else if v.Obj? && w.Obj? {
      var f, g := v.fields, w.fields;
      NormalizeFieldsOrdered(f);
      NormalizeFieldsOrdered(g);
      if Keys(f) == Keys(g) {
        forall k | k in Keys(f)
          ensures Normalize(Lookup(f, k)) == Normalize(Lookup(g, k)) <==> Same(Lookup(f, k), Lookup(g, k))
        {
          LookupWellFormed(f, k);
          LookupWellFormed(g, k);
          assert Lookup(f, k) < v;
          NormalFormIsEquality(Lookup(f, k), Lookup(g, k));
        }
        if Same(v, w) {
          OrderedUnique(NormalizeFields(f), NormalizeFields(g));
        }
        if Normalize(v) == Normalize(w) {
          forall k | k in Keys(f) ensures Same(Lookup(f, k), Lookup(g, k)) {
            assert Lookup(NormalizeFields(f), k) == Lookup(NormalizeFields(g), k);
          }
        }
      }
    }
  }

  lemma {:induction false} NormalItemsAreEqual(a: Items, b: Items)
    requires WellFormedItems(a) && WellFormedItems(b)
    ensures NormalizeItems(a) == NormalizeItems(b) <==> SameItems(a, b)
  {
    if a.Item? && b.Item? {
      NormalFormIsEquality(a.head, b.head);
      NormalItemsAreEqual(a.tail, b.tail);
    }
  }

  lemma {:induction false} LookupWellFormed(f: Fields, k: string)
    requires WellFormedFields(f) && k in Keys(f)
    ensures WellFormed(Lookup(f, k))
  {
    if f.key != k { LookupWellFormed(f.rest, k); }
  }

  // ------------------------------------------------------------ printing

  function HexChar(d: nat): char
    requires d < 16
  {
    if d < 10 then DigitChar(d) else 'a' + (d - 10) as char
  }

  /** RFC 8259 section 7 escapes, with non-ASCII characters left alone (`ensure_ascii=False`). */
  function Escape(c: char): (e: string)
    ensures e != ""
  {
    if c == '\"' then "\\\""
    else if c == '\\' then "\\\\"
    else if c == '\n' then "\\n"
    else if c == '\r' then "\\r"
    else if c == '\t' then "\\t"
    else if c as int == 8 then "\\b"
    else if c as int == 12 then "\\f"
    else if c as int < 32 then "\\u00" + [HexChar(c as int / 16), HexChar(c as int % 16)]
    else [c]
  }

  function EscapeTo(s: string, tail: string): string {
    if s == "" then tail else Escape(s[0]) + EscapeTo(s[1..], tail)
  }

  function QuoteTo(s: string, tail: string): string {
    "\"" + EscapeTo(s, "\"" + tail)
  }

  function IntTo(n: int, tail: string): string {
    if n < 0 then "-" + (Digits(-n) + tail) else Digits(n) + tail
  }

  function Spaces(n: nat): string {
    if n == 0 then "" else " " + Spaces(n - 1)
  }

  /** The line break and indent before an item (two spaces a level), or nothing when compact. */
  function Gap(style: Style, level: nat): string {
    if style.Compact? then "" else "\n" + Spaces(2 * level)
  }

  function Colon(style: Style): string {
    if style.Compact? then ":" else ": "
  }

  /** Prints v in front of tail, members in the order they are listed. */
  function PrintTo(style: Style, level: nat, v: Json, tail: string): string
    decreases v
  {
    match v
    case Null => "null" + tail
    case Bool(b) => (if b then "true" else "false") + tail
    case Int(n) => IntTo(n, tail)
    case Str(s) => QuoteTo(s, tail)
    case Arr(items) =>
      if items.NoItem? then "[]" + tail
      else "[" + ItemsTo(style, level + 1, items, Gap(style, level) + ("]" + tail))
    case Obj(fields) =>
      if fields.NoField? then "{}" + tail
      else "{" + FieldsTo(style, level + 1, fields, Gap(style, level) + ("}" + tail))
  }

  function ItemsTo(style: Style, level: nat, items: Items, tail: string): string
    requires items.Item?
    decreases items
  {
    var more := if items.tail.NoItem? then tail else "," + ItemsTo(style, level, items.tail, tail);
    Gap(style, level) + PrintTo(style, level, items.head, more)
  }

  function FieldsTo(style: Style, level: nat, f: Fields, tail: string): string
    requires f.Field?
    decreases f
  {
    var more := if f.rest.NoField? then tail else "," + FieldsTo(style, level, f.rest, tail);
    Gap(style, level) + QuoteTo(f.key, Colon(style) + PrintTo(style, level, f.value, more))
  }

  /** `canonical_json_bytes`: sorted keys, no whitespace. */
  function Canonical(v: Json): string {
    PrintTo(Compact, 0, Normalize(v), "")
  }

  /** `canonical_json_line`. */
  function Line(v: Json): string {
    Canonical(v) + "\n"
  }

  /** `pretty_json_bytes`: sorted keys, two-space indent, final newline. */
  function Pretty(v: Json): string {
    PrintTo(Indented, 0, Normalize(v), "") + "\n"
  }

  // ------------------------------------------------------------ reading

  predicate IsSpace(c: char) { c == ' ' || c == '\n' || c == '\t' || c == '\r' }

  function SkipSpace(s: string): (t: string)
    ensures |t| <= |s|
  {
    if s != "" && IsSpace(s[0]) then SkipSpace(s[1..]) else s
  }

  function HexValue(c: char): Parsed<nat> {
    if IsDigit(c) then Good(DigitValue(c), "")
    else if 'a' <= c <= 'f' then Good((c - 'a') as nat + 10, "")
    else if 'A' <= c <= 'F' then Good((c - 'A') as nat + 10, "")
    else Bad
  }

  function ReadHex4(s: string): (r: Parsed<char>)
    ensures r.Good? ==> |r.rest| < |s|
  {
    if |s| < 4 then Bad
    else
      var a, b, c, d := HexValue(s[0]), HexValue(s[1]), HexValue(s[2]), HexValue(s[3]);
      if a.Bad? || b.Bad? || c.Bad? || d.Bad? then Bad
      else
        var n := 4096 * a.value + 256 * b.value + 16 * c.value + d.value;
        if n < 0xD800 || 0xE000 <= n < 0x10000 then Good(n as char, s[4..]) else Bad
  }

  /** One character of a string body, escapes resolved. */
  function ReadChar(s: string): (r: Parsed<char>)
    ensures r.Good? ==> |r.rest| < |s|
  {
    if s == "" || s[0] as int < 32 || s[0] == '\"' then Bad
    else if s[0] != '\\' then Good(s[0], s[1..])
    else if |s| < 2 then Bad
    else if s[1] == '\"' || s[1] == '\\' || s[1] == '/' then Good(s[1], s[2..])
    else if s[1] == 'n' then Good('\n', s[2..])
    else if s[1] == 'r' then Good('\r', s[2..])
    else if s[1] == 't' then Good('\t', s[2..])
    else if s[1] == 'b' then Good(8 as char, s[2..])
    else if s[1] == 'f' then Good(12 as char, s[2..])
    else if s[1] == 'u' then ReadHex4(s[2..])
    else Bad
  }

  /** A string body up to and including its closing quote. */
  function ReadBody(s: string): (r: Parsed<string>)
    ensures r.Good? ==> |r.rest| < |s|
  {
    if s == "" then Bad
    else if s[0] == '\"' then Good("", s[1..])
    else
      var c := ReadChar(s);
      if c.Bad? then Bad
      else
        var more := ReadBody(c.rest);
        if more.Bad? then Bad else Good([c.value] + more.value, more.rest)
  }

  function ReadNumber(s: string): (r: Parsed<nat>)
    ensures r.Good? ==> |r.rest| < |s|
  {
    if s == "" || !IsDigit(s[0]) then Bad
    else if s[0] == '0' then Good(0, s[1..])
    else var n := ReadNat(s[1..], DigitValue(s[0])); Good(n.0, n.1)
  }

  function ReadInt(s: string): (r: Parsed<int>)
    ensures r.Good? ==> |r.rest| < |s|
  {
    if s != "" && s[0] == '-' then
      var n := ReadNumber(s[1..]);
      if n.Bad? then Bad else var m: int := n.value; Good(-m, n.rest)
    else
      var n := ReadNumber(s); if n.Bad? then Bad else Good(n.value, n.rest)
  }

  function ReadValue(s: string): (r: Parsed<Json>)
    ensures r.Good? ==> |r.rest| < |s|
    decreases |s|, 2
  {
    ReadHere(SkipSpace(s))
  }

  /** A value that starts right here. */
  function ReadHere(t: string): (r: Parsed<Json>)
    ensures r.Good? ==> |r.rest| < |t|
    decreases |t|, 1
  {
    if t == "" then Bad
    else if t[0] == '{' then
      var u := SkipSpace(t[1..]);
      if u != "" && u[0] == '}' then Good(Obj(NoField), u[1..])
      else
        var f := ReadFields(u);
        if f.Bad? then Bad else Good(Obj(f.value), f.rest)
    else if t[0] == '[' then
      var u := SkipSpace(t[1..]);
      if u != "" && u[0] == ']' then Good(Arr(NoItem), u[1..])
      else
        var items := ReadItems(u);
        if items.Bad? then Bad else Good(Arr(items.value), items.rest)
    else if t[0] == '\"' then
      var body := ReadBody(t[1..]);
      if body.Bad? then Bad else Good(Str(body.value), body.rest)
    else if "null" <= t then Good(Null, t[4..])
    else if "true" <= t then Good(Bool(true), t[4..])
    else if "false" <= t then Good(Bool(false), t[5..])
    else
      var n := ReadInt(t);
      if n.Bad? then Bad else Good(Int(n.value), n.rest)
  }

  /** At least one item, up to and including the closing bracket. */
  function ReadItems(s: string): (r: Parsed<Items>)
    ensures r.Good? ==> |r.rest| < |s|
    decreases |s|, 3
  {
    var head := ReadValue(s);
    if head.Bad? then Bad
    else
      var tail := ReadMoreItems(SkipSpace(head.rest));
      if tail.Bad? then Bad else Good(Item(head.value, tail.value), tail.rest)
  }

  function ReadMoreItems(t: string): (r: Parsed<Items>)
    ensures r.Good? ==> |r.rest| < |t|
    decreases |t|, 0
  {
    if t == "" then Bad
    else if t[0] == ']' then Good(NoItem, t[1..])
    else if t[0] == ',' then ReadItems(t[1..])
    else Bad
  }

  /** At least one member, up to and including the closing brace. */
  function ReadFields(s: string): (r: Parsed<Fields>)
    ensures r.Good? ==> |r.rest| < |s|
    decreases |s|, 3
  {
    var t := SkipSpace(s);
    if t == "" || t[0] != '\"' then Bad
    else
      var key := ReadBody(t[1..]);
      if key.Bad? then Bad
      else
        var v := ReadMember(SkipSpace(key.rest));
        if v.Bad? then Bad
        else
          var more := ReadMoreFields(SkipSpace(v.rest));
          if more.Bad? then Bad else Good(Field(key.value, v.value, more.value), more.rest)
  }

  /** The colon and the value after a member's key. */
  function ReadMember(t: string): (r: Parsed<Json>)
    ensures r.Good? ==> |r.rest| < |t|
    decreases |t|, 0
  {
    if t == "" || t[0] != ':' then Bad else ReadValue(t[1..])
  }

  function ReadMoreFields(t: string): (r: Parsed<Fields>)
    ensures r.Good? ==> |r.rest| < |t|
    decreases |t|, 0
  {
    if t == "" then Bad
    else if t[0] == '}' then Good(NoField, t[1..])
    else if t[0] == ',' then ReadFields(t[1..])
    else Bad
  }

  datatype Loaded = NotJson | Loaded(value: Json)

  /** `json.loads`: one value, surrounded by nothing but whitespace. */
  function Load(s: string): Loaded {
    var r := ReadValue(s);
    if r.Good? && SkipSpace(r.rest) == "" then Loaded(r.value) else NotJson
  }

  /** The object of a text, if the text is one. */
  function ObjectIn(text: string): Option<Fields> {
    match Load(text)
    case Loaded(Obj(f)) => Some(f)
    case _ => None
  }
}
