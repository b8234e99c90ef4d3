/** How JSON texts are laid out: the compact text of a value is the shortest text that is read as it,
    and the indented text is the compact one with line breaks put in. */
module JsonLayout {
  import opened Strings
  import opened Json
  import opened JsonProofs

  // ------------------------------------------------------------ the compact text is the shortest

  /** The same characters, but for hexadecimal digits that are lower-case letters in t and may be
      capitals in s. */
  predicate SameButCapitals(s: string, t: string) {
    |s| == |t| && forall i :: 0 <= i < |s| ==> s[i] == t[i] || ('a' <= t[i] <= 'f' && s[i] == t[i] - ('a' - 'A'))
  }

  /** The text s is longer than t, or is t, capitals aside. */
  predicate NotShorter(s: string, t: string) {
    |s| > |t| || SameButCapitals(s, t)
  }

  lemma Itself(s: string)
    ensures NotShorter(s, s)
  {
  }

  lemma Chain(s: string, t: string, u: string)
    requires NotShorter(s, t) && NotShorter(t, u)
    ensures NotShorter(s, u)
  {
  }

  lemma SameFront(a: string, s: string, t: string)
    requires NotShorter(s, t)
    ensures NotShorter(a + s, a + t)
  {
  }

  lemma Fronts(a: string, b: string, s: string, t: string)
    requires NotShorter(a, b) && NotShorter(s, t)
    ensures NotShorter(a + s, b + t)
  {
  }

  lemma {:induction false} SkipIsShorter(s: string, t: string)
    requires NotShorter(SkipSpace(s), t)
    ensures NotShorter(s, t)
  {
    if s != "" && IsSpace(s[0]) {
      SkipIsShorter(s[1..], t);
    }
  }

  lemma HexIsLower(c: char)
    requires HexValue(c).Good?
    ensures HexValue(c).value < 16
    ensures var h := HexChar(HexValue(c).value); c == h || ('a' <= h <= 'f' && c == h - ('a' - 'A'))
  {
  }

  /** Four hexadecimal digits of a control character. */
  lemma UnicodeIsShortest(s: string)
    requires |s| >= 2 && s[..2] == "\\u" && ReadHex4(s[2..]).Good?
    ensures var r := ReadHex4(s[2..]); NotShorter(s, Escape(r.value) + r.rest)
  {
    var w := s[2..];
    var r := ReadHex4(w);
    var a, b, c, d := HexValue(w[0]).value, HexValue(w[1]).value, HexValue(w[2]).value, HexValue(w[3]).value;
    HexIsLower(w[0]);
    HexIsLower(w[1]);
    HexIsLower(w[2]);
    HexIsLower(w[3]);
    assert s == (s[..2] + w[..4]) + r.rest;
    if |Escape(r.value)| == 6 {
      FourDigits(a, b, c, d);
      assert Escape(r.value) == ['\\', 'u', HexChar(a), HexChar(b), HexChar(c), HexChar(d)];
    }
    assert NotShorter(s[..2] + w[..4], Escape(r.value));
    Fronts(s[..2] + w[..4], Escape(r.value), r.rest, r.rest);
  }

  lemma FourDigits(a: nat, b: nat, c: nat, d: nat)
    requires a < 16 && b < 16 && c < 16 && d < 16 && 4096 * a + 256 * b + 16 * c + d < 32
    ensures a == 0 && b == 0 && c == (16 * c + d) / 16 && d == (16 * c + d) % 16
  {
  }

  /** Every way to write a character in a string is longer than the printer's, or is the printer's. */
  lemma {:induction false} EscapeIsShortest(s: string)
    requires ReadChar(s).Good?
    ensures var r := ReadChar(s); NotShorter(s, Escape(r.value) + r.rest)
  {
    hide ReadHex4, HexChar;
    if s[0] != '\\' {
      assert s == [s[0]] + s[1..];
    } else if s[1] == 'u' {
      UnicodeIsShortest(s);
    } else {
      assert s == [s[0], s[1]] + s[2..];
    }
  }

  lemma {:induction false} BodyIsShortest(s: string)
    requires ReadBody(s).Good?
    ensures var r := ReadBody(s); NotShorter(s, EscapeTo(r.value, "\"" + r.rest))
    decreases |s|
  {
    hide ReadChar, Escape, NotShorter;
    if s[0] == '\"' {
      assert s == "\"" + s[1..];
      Itself(s);
    } else {
      var c, r := ReadChar(s), ReadBody(s);
      EscapeIsShortest(s);
      BodyIsShortest(c.rest);
      SameFront(Escape(c.value), c.rest, EscapeTo(ReadBody(c.rest).value, "\"" + r.rest));
      Chain(s, Escape(c.value) + c.rest, EscapeTo(r.value, "\"" + r.rest));
    }
  }

  lemma DigitsGrow(n: nat, c: char)
    requires n > 0 && IsDigit(c)
    ensures Digits(10 * n + DigitValue(c)) == Digits(n) + [c]
  {
    assert (10 * n + DigitValue(c)) / 10 == n && (10 * n + DigitValue(c)) % 10 == DigitValue(c);
  }

  lemma {:induction false} DigitsAreAll(s: string, n: nat)
    requires n > 0
    ensures var r := ReadNat(s, n); Digits(n) + s == Digits(r.0) + r.1
  {
    hide Digits;
    if s != "" && IsDigit(s[0]) {
      var m := 10 * n + DigitValue(s[0]);
      DigitsAreAll(s[1..], m);
      DigitsGrow(n, s[0]);
      FirstApart(s);
      Associate(Digits(n), [s[0]], s[1..]);
    }
  }

  lemma NumberIsShortest(s: string)
    requires ReadNumber(s).Good?
    ensures var r := ReadNumber(s); s == Digits(r.value) + r.rest
  {
    assert s == [s[0]] + s[1..];
    if s[0] != '0' {
      DigitsAreAll(s[1..], DigitValue(s[0]));
    }
  }

  lemma IntIsShortest(s: string)
    requires ReadInt(s).Good?
    ensures var r := ReadInt(s); NotShorter(s, IntTo(r.value, r.rest))
  {
    hide Digits;
    if s != "" && s[0] == '-' {
      NumberIsShortest(s[1..]);
      assert s == "-" + s[1..];
    } else {
      NumberIsShortest(s);
    }
  }

  lemma TailShrinks(level: nat, v: Json, s: string, t: string)
    requires NotShorter(s, t)
    ensures NotShorter(PrintTo(Compact, level, v, s), PrintTo(Compact, level, v, t))
  {
    hide PrintTo, NotShorter;
    PrintAppends(Compact, level, v, "", s);
    PrintAppends(Compact, level, v, "", t);
    assert "" + s == s && "" + t == t;
    SameFront(PrintTo(Compact, level, v, ""), s, t);
  }

  lemma QuotedShrinks(key: string, s: string, t: string)
    requires NotShorter(s, t)
    ensures NotShorter(QuoteTo(key, s), QuoteTo(key, t))
  {
    hide QuoteTo, NotShorter;
    QuoteAppends(key, "", s);
    QuoteAppends(key, "", t);
    assert "" + s == s && "" + t == t;
    SameFront(QuoteTo(key, ""), s, t);
  }

  /** Any text that starts with a value is longer than the value's compact text, or is that text. */
  lemma {:induction false} ValueIsShortest(level: nat, t: string)
    requires ReadHere(t).Good?
    ensures var r := ReadHere(t); NotShorter(t, PrintTo(Compact, level, r.value, r.rest))
    decreases |t|, 1
  {
    hide NotShorter, ReadItems, ReadFields, ReadBody, ReadInt, SkipSpace, ItemsTo, FieldsTo, IntTo;
    var r := ReadHere(t);
    var u := SkipSpace(t[1..]);
    FirstApart(t);
    if t[0] == '{' {
      ObjectIsShortest(level, t);
    } else if t[0] == '[' {
      ArrayIsShortest(level, t);
    } else if t[0] == '\"' {
      BodyIsShortest(t[1..]);
      SameFront("\"", t[1..], EscapeTo(ReadBody(t[1..]).value, "\"" + r.rest));
    } else if "null" <= t || "true" <= t || "false" <= t {
      var n := if "false" <= t then 5 else 4;
      Rejoin(t, n);
      assert t[..n] == "null" || t[..n] == "true" || t[..n] == "false";
      assert t[0] == t[..n][0];
      Itself(t);
    } else {
      IntIsShortest(t);
    }
  }

  lemma FirstApart(t: string)
    requires t != ""
    ensures t == [t[0]] + t[1..]
  {
  }

  /** An array after its opening bracket. */
  function ArrayBody(level: nat, items: Items, rest: string): string {
    if items.NoItem? then "]" + rest else ItemsTo(Compact, level + 1, items, "]" + rest)
  }

  lemma PrintArray(level: nat, items: Items, rest: string)
    ensures PrintTo(Compact, level, Arr(items), rest) == "[" + ArrayBody(level, items, rest)
  {
    hide ItemsTo;
    assert "" + ("]" + rest) == "]" + rest && "[" + ("]" + rest) == "[]" + rest;
  }

  lemma ReadArray(t: string)
    requires t != "" && t[0] == '[' && ReadHere(t).Good?
    ensures var r, u := ReadHere(t), SkipSpace(t[1..]);
            if u != "" && u[0] == ']' then r == Good(Arr(NoItem), u[1..])
            else ReadItems(u).Good? && r == Good(Arr(ReadItems(u).value), ReadItems(u).rest)
  {
    hide SkipSpace, ReadItems, ReadFields, ReadBody, ReadInt;
  }

  lemma {:induction false} ArrayIsShortest(level: nat, t: string)
    requires t != "" && t[0] == '[' && ReadHere(t).Good?
    ensures var r := ReadHere(t); NotShorter(t, PrintTo(Compact, level, r.value, r.rest))
    decreases |t|, 0
  {
    hide NotShorter, ReadHere, PrintTo, ReadItems, SkipSpace, ItemsTo;
    ReadArray(t);
    var r, u := ReadHere(t), SkipSpace(t[1..]);
    var body := ArrayBody(level, r.value.items, r.rest);
    assert NotShorter(u, body) by {
      if u != "" && u[0] == ']' {
        FirstApart(u);
        Itself(u);
      } else {
        ItemsAreShortest(level + 1, u);
      }
    }
    SkipIsShorter(t[1..], body);
    SameFront("[", t[1..], body);
    FirstApart(t);
    PrintArray(level, r.value.items, r.rest);
  }

  /** An object after its opening bracket. */
  function ObjectBody(level: nat, fields: Fields, rest: string): string {
    if fields.NoField? then "}" + rest else FieldsTo(Compact, level + 1, fields, "}" + rest)
  }

  lemma PrintObject(level: nat, fields: Fields, rest: string)
    ensures PrintTo(Compact, level, Obj(fields), rest) == "{" + ObjectBody(level, fields, rest)
  {
    hide FieldsTo;
    assert "" + ("}" + rest) == "}" + rest && "{" + ("}" + rest) == "{}" + rest;
  }

  lemma ReadObject(t: string)
    requires t != "" && t[0] == '{' && ReadHere(t).Good?
    ensures var r, u := ReadHere(t), SkipSpace(t[1..]);
            if u != "" && u[0] == '}' then r == Good(Obj(NoField), u[1..])
            else ReadFields(u).Good? && r == Good(Obj(ReadFields(u).value), ReadFields(u).rest)
  {
    hide SkipSpace, ReadItems, ReadFields, ReadBody, ReadInt;
  }

  lemma {:induction false} ObjectIsShortest(level: nat, t: string)
    requires t != "" && t[0] == '{' && ReadHere(t).Good?
    ensures var r := ReadHere(t); NotShorter(t, PrintTo(Compact, level, r.value, r.rest))
    decreases |t|, 0
  {
    hide NotShorter, ReadHere, PrintTo, ReadFields, SkipSpace, FieldsTo;
    ReadObject(t);
    var r, u := ReadHere(t), SkipSpace(t[1..]);
    var body := ObjectBody(level, r.value.fields, r.rest);
    assert NotShorter(u, body) by {
      if u != "" && u[0] == '}' {
        FirstApart(u);
        Itself(u);
      } else {
        FieldsAreShortest(level + 1, u);
      }
    }
    SkipIsShorter(t[1..], body);
    SameFront("{", t[1..], body);
    FirstApart(t);
    PrintObject(level, r.value.fields, r.rest);
  }

  /** What follows an item of an array. */
  function MoreItems(level: nat, items: Items, rest: string): string {
    if items.NoItem? then "]" + rest else "," + ItemsTo(Compact, level, items, "]" + rest)
  }

  function MoreFields(level: nat, f: Fields, rest: string): string {
    if f.NoField? then "}" + rest else "," + FieldsTo(Compact, level, f, "}" + rest)
  }

  lemma {:induction false} ItemsAreShortest(level: nat, s: string)
    requires ReadItems(s).Good?
    ensures var r := ReadItems(s); r.value.Item? && NotShorter(s, ItemsTo(Compact, level, r.value, "]" + r.rest))
    decreases |s|, 3
  {
    hide NotShorter, ReadHere, SkipSpace, PrintTo;
    var r, h := ReadItems(s), SkipSpace(s);
    var head := ReadHere(h);
    var more := MoreItems(level, r.value.tail, r.rest);
    ValueIsShortest(level, h);
    MoreItemsAreShortest(level, SkipSpace(head.rest));
    SkipIsShorter(head.rest, more);
    TailShrinks(level, head.value, head.rest, more);
    Chain(h, PrintTo(Compact, level, head.value, head.rest), PrintTo(Compact, level, head.value, more));
    SkipIsShorter(s, PrintTo(Compact, level, head.value, more));
    assert "" + PrintTo(Compact, level, head.value, more) == PrintTo(Compact, level, head.value, more);
  }

  lemma {:induction false} MoreItemsAreShortest(level: nat, t: string)
    requires ReadMoreItems(t).Good?
    ensures var r := ReadMoreItems(t); NotShorter(t, MoreItems(level, r.value, r.rest))
    decreases |t|, 0
  {
    hide NotShorter, ReadItems, ItemsTo;
    FirstApart(t);
    if t[0] == ']' {
      Itself(t);
    } else {
      ItemsAreShortest(level, t[1..]);
      var r := ReadItems(t[1..]);
      SameFront(",", t[1..], ItemsTo(Compact, level, r.value, "]" + r.rest));
    }
  }

  lemma {:induction false} FieldsAreShortest(level: nat, s: string)
    requires ReadFields(s).Good?
    ensures var r := ReadFields(s); r.value.Field? && NotShorter(s, FieldsTo(Compact, level, r.value, "}" + r.rest))
    decreases |s|, 3
  {
    hide NotShorter, ReadHere, SkipSpace, PrintTo, ReadBody, ReadMember, ReadMoreFields, EscapeTo;
    var r, t := ReadFields(s), SkipSpace(s);
    var key := ReadBody(t[1..]);
    var v := ReadMember(SkipSpace(key.rest));
    var more := MoreFields(level, r.value.rest, r.rest);
    MemberIsShortest(level, key.rest, more);
    var member := ":" + PrintTo(Compact, level, v.value, more);
    BodyIsShortest(t[1..]);
    SameFront("\"", t[1..], EscapeTo(key.value, "\"" + key.rest));
    FirstApart(t);
    QuotedShrinks(key.value, key.rest, member);
    Chain(t, QuoteTo(key.value, key.rest), QuoteTo(key.value, member));
    SkipIsShorter(s, QuoteTo(key.value, member));
    assert "" + QuoteTo(key.value, member) == QuoteTo(key.value, member);
  }

  lemma {:induction false} MemberIsShortest(level: nat, s: string, more: string)
    requires var v := ReadMember(SkipSpace(s)); v.Good? && ReadMoreFields(SkipSpace(v.rest)).Good?
    requires var m := ReadMoreFields(SkipSpace(ReadMember(SkipSpace(s)).rest));
             more == MoreFields(level, m.value, m.rest)
    ensures NotShorter(s, ":" + PrintTo(Compact, level, ReadMember(SkipSpace(s)).value, more))
    decreases |s|, 2
  {
    hide NotShorter, ReadHere, SkipSpace, PrintTo, ReadMoreFields, MoreFields;
    var t := SkipSpace(s);
    var v := ReadMember(t);
    var h := SkipSpace(t[1..]);
    ValueIsShortest(level, h);
    MoreFieldsAreShortest(level, SkipSpace(v.rest));
    SkipIsShorter(v.rest, more);
    TailShrinks(level, v.value, v.rest, more);
    Chain(h, PrintTo(Compact, level, v.value, v.rest), PrintTo(Compact, level, v.value, more));
    SkipIsShorter(t[1..], PrintTo(Compact, level, v.value, more));
    SameFront(":", t[1..], PrintTo(Compact, level, v.value, more));
    FirstApart(t);
    SkipIsShorter(s, ":" + PrintTo(Compact, level, v.value, more));
  }

  lemma {:induction false} MoreFieldsAreShortest(level: nat, t: string)
    requires ReadMoreFields(t).Good?
    ensures var r := ReadMoreFields(t); NotShorter(t, MoreFields(level, r.value, r.rest))
    decreases |t|, 0
  {
    hide NotShorter, ReadFields, FieldsTo;
    FirstApart(t);
    if t[0] == '}' {
      Itself(t);
    } else {
      FieldsAreShortest(level, t[1..]);
      var r := ReadFields(t[1..]);
      SameFront(",", t[1..], FieldsTo(Compact, level, r.value, "}" + r.rest));
    }
  }

  /** The canonical text is the one shortest text that is read as the sorted value: every other is
      longer, or writes a hexadecimal digit as a capital. So it holds no white space, no escape that
      is not needed, and the short form of each that is. */
  lemma {:induction false} CanonicalIsShortest(v: Json, s: string)
    requires Load(s) == Loaded(Normalize(v))
    ensures |s| > |Canonical(v)| || SameButCapitals(s, Canonical(v))
  {
    hide ReadHere, SkipSpace, PrintTo, SameButCapitals, NotShorter;
    var r := ReadValue(s);
    ValueIsShortest(0, SkipSpace(s));
    Itself("");
    SkipIsShorter(r.rest, "");
    TailShrinks(0, r.value, r.rest, "");
    Chain(SkipSpace(s), PrintTo(Compact, 0, r.value, r.rest), Canonical(v));
    SkipIsShorter(s, Canonical(v));
    Meaning(s, Canonical(v));
  }

  lemma Meaning(s: string, t: string)
    ensures NotShorter(s, t) <==> |s| > |t| || SameButCapitals(s, t)
  {
  }

  // ------------------------------------------------------------ the indented text is the compact one, laid out

  predicate Opens(c: char) { c == '[' || c == '{' }

  predicate Closes(c: char) { c == ']' || c == '}' }

  /** A new line, indented by two spaces for every bracket that is open. */
  function LineBreak(open: int): string {
    ['\n'] + seq(if open > 0 then 2 * open else 0, _ => ' ')
  }

  /** Compact text laid out with so many brackets open, outside of strings: a line break after every
      opening bracket and comma and before every closing bracket, and a space after every colon; but
      empty brackets stay together. */
  function Outside(open: int, s: string): string
    decreases |s|
  {
    if s == "" then ""
    else if s[0] == '\"' then "\"" + Inside(open, s[1..])
    else if Opens(s[0]) && |s| > 1 && Closes(s[1]) then s[..2] + Outside(open, s[2..])
    else if Opens(s[0]) then [s[0]] + LineBreak(open + 1) + Outside(open + 1, s[1..])
    else if Closes(s[0]) then LineBreak(open - 1) + [s[0]] + Outside(open - 1, s[1..])
    else if s[0] == ',' then "," + LineBreak(open) + Outside(open, s[1..])
    else if s[0] == ':' then ": " + Outside(open, s[1..])
    else [s[0]] + Outside(open, s[1..])
  }

  /** The same inside a string, which stays as it is. */
  function Inside(open: int, s: string): string
    decreases |s|
  {
    if s == "" then ""
    else if s[0] == '\"' then "\"" + Outside(open, s[1..])
    else if s[0] == '\\' && |s| > 1 then s[..2] + Inside(open, s[2..])
    else [s[0]] + Inside(open, s[1..])
  }

  lemma {:induction false} SpacesAre(n: nat)
    ensures Spaces(n) == seq(n, _ => ' ')
  {
    if n > 0 { SpacesAre(n - 1); }
  }

  lemma GapIsBreak(level: nat)
    ensures Gap(Indented, level) == LineBreak(level)
  {
    SpacesAre(2 * level);
  }

  lemma EscapeStays(open: int, c: char, tail: string)
    ensures Inside(open, Escape(c) + tail) == Escape(c) + Inside(open, tail)
  {
    hide Outside;
    var e := Escape(c);
    var s := e + tail;
    if |e| == 1 {
      assert s[1..] == tail;
    } else if |e| == 2 {
      assert s[2..] == tail && s[..2] == e;
    } else {
      assert |e| == 6 && s[..2] == e[..2];
      HexIsPlain(c as int / 16);
      HexIsPlain(c as int % 16);
      PlainStays(open, e[2..], tail);
      assert s[2..] == e[2..] + tail;
      Associate(e[..2], e[2..], Inside(open, tail));
    }
  }

  lemma HexIsPlain(d: nat)
    requires d < 16
    ensures HexChar(d) != '\"' && HexChar(d) != '\\'
  {
  }

  lemma {:induction false} PlainStays(open: int, w: string, tail: string)
    requires forall i :: 0 <= i < |w| ==> w[i] != '\"' && w[i] != '\\'
    ensures Inside(open, w + tail) == w + Inside(open, tail)
  {
    hide Outside;
    if w == "" {
      assert w + tail == tail && w + Inside(open, tail) == Inside(open, tail);
    } else {
      PlainStays(open, w[1..], tail);
      assert (w + tail)[1..] == w[1..] + tail;
      assert w == [w[0]] + w[1..];
    }
  }

  lemma {:induction false} TextStays(open: int, x: string, tail: string)
    ensures Inside(open, EscapeTo(x, "\"" + tail)) == EscapeTo(x, "\"" + Outside(open, tail))
  {
    hide Outside;
    if x == "" {
      assert ("\"" + tail)[1..] == tail;
    } else {
      EscapeStays(open, x[0], EscapeTo(x[1..], "\"" + tail));
      TextStays(open, x[1..], tail);
    }
  }

  lemma QuoteStays(open: int, x: string, tail: string)
    ensures Outside(open, QuoteTo(x, tail)) == QuoteTo(x, Outside(open, tail))
  {
    hide Inside;
    TextStays(open, x, tail);
    assert QuoteTo(x, tail)[1..] == EscapeTo(x, "\"" + tail);
  }

  /** Characters that lay-out leaves alone. */
  predicate Bland(c: char) { !Opens(c) && !Closes(c) && c != '\"' && c != ',' && c != ':' }

  lemma {:induction false} BlandStays(open: int, w: string, tail: string)
    requires forall i :: 0 <= i < |w| ==> Bland(w[i])
    ensures Outside(open, w + tail) == w + Outside(open, tail)
  {
    hide Inside;
    if w == "" {
      assert w + tail == tail && w + Outside(open, tail) == Outside(open, tail);
    } else {
      BlandStays(open, w[1..], tail);
      assert (w + tail)[1..] == w[1..] + tail;
      assert w == [w[0]] + w[1..];
    }
  }

  lemma IntStays(open: int, n: int, tail: string)
    ensures Outside(open, IntTo(n, tail)) == IntTo(n, Outside(open, tail))
  {
    hide Outside, Digits;
    BlandStays(open, Digits(if n < 0 then -n else n), tail);
    if n < 0 { BlandStays(open, "-", Digits(-n) + tail); }
  }

  lemma {:induction false} ValueLaidOut(level: nat, v: Json, tail: string)
    ensures Outside(level, PrintTo(Compact, level, v, tail)) == PrintTo(Indented, level, v, Outside(level, tail))
    decreases v
  {
    hide Outside, IntTo, QuoteTo, ItemsTo, FieldsTo;
    match v
    case Null => BlandStays(level, "null", tail);
    case Bool(b) => BlandStays(level, if b then "true" else "false", tail);
    case Int(n) => IntStays(level, n, tail);
    case Str(s) => QuoteStays(level, s, tail);
    case Arr(items) =>
      if items.NoItem? { EmptyStays(level, "[]", tail); } else { ArrayLaidOut(level, items, tail); }
    case Obj(fields) =>
      if fields.NoField? { EmptyStays(level, "{}", tail); } else { ObjectLaidOut(level, fields, tail); }
  }

  lemma EmptyStays(open: int, w: string, tail: string)
    requires w == "[]" || w == "{}"
    ensures Outside(open, w + tail) == w + Outside(open, tail)
  {
    hide Inside;
    assert (w + tail)[..2] == w && (w + tail)[2..] == tail;
  }

  lemma Opened(level: nat, c: char, s: string)
    requires Opens(c) && s != "" && !Closes(s[0])
    ensures Outside(level, [c] + s) == [c] + (Gap(Indented, level + 1) + Outside(level + 1, s))
  {
    hide Inside, Gap, LineBreak;
    GapIsBreak(level + 1);
    assert ([c] + s)[1..] == s;
    Associate([c], LineBreak(level + 1), Outside(level + 1, s));
  }

  lemma Closed(level: nat, c: char, tail: string)
    requires Closes(c)
    ensures Outside(level + 1, [c] + tail) == Gap(Indented, level) + ([c] + Outside(level, tail))
  {
    hide Inside, Gap, LineBreak;
    GapIsBreak(level);
    assert ([c] + tail)[1..] == tail;
    Associate(LineBreak(level), [c], Outside(level, tail));
  }

  lemma Comma(level: nat, s: string)
    ensures Outside(level, "," + s) == "," + (Gap(Indented, level) + Outside(level, s))
  {
    hide Inside, Gap, LineBreak;
    GapIsBreak(level);
    assert ("," + s)[1..] == s;
    Associate(",", LineBreak(level), Outside(level, s));
  }

  lemma ColonLaidOut(level: nat, s: string)
    ensures Outside(level, ":" + s) == ": " + Outside(level, s)
  {
    hide Inside;
    assert (":" + s)[1..] == s;
  }

  lemma ArrayLaidOut(level: nat, items: Items, tail: string)
    requires items.Item?
    ensures Outside(level, PrintTo(Compact, level, Arr(items), tail))
         == PrintTo(Indented, level, Arr(items), Outside(level, tail))
    decreases items, 1
  {
    hide Outside, ItemsTo, Gap;
    var s := ItemsTo(Compact, level + 1, items, "]" + tail);
    assert Gap(Compact, level) + ("]" + tail) == "]" + tail by { NoGap(level, "]" + tail); }
    ItemsStart(level + 1, items, "]" + tail);
    Opened(level, '[', s);
    ItemsLaidOut(level + 1, items, "]" + tail);
    Closed(level, ']', tail);
  }

  lemma ObjectLaidOut(level: nat, f: Fields, tail: string)
    requires f.Field?
    ensures Outside(level, PrintTo(Compact, level, Obj(f), tail))
         == PrintTo(Indented, level, Obj(f), Outside(level, tail))
    decreases f, 1
  {
    hide Outside, FieldsTo, Gap;
    var s := FieldsTo(Compact, level + 1, f, "}" + tail);
    assert Gap(Compact, level) + ("}" + tail) == "}" + tail by { NoGap(level, "}" + tail); }
    FieldsStart(level + 1, f, "}" + tail);
    Opened(level, '{', s);
    FieldsLaidOut(level + 1, f, "}" + tail);
    Closed(level, '}', tail);
  }

  lemma NoGap(level: nat, s: string)
    ensures Gap(Compact, level) + s == s
  {
  }

  lemma ItemsStart(level: nat, items: Items, tail: string)
    requires items.Item?
    ensures var s := ItemsTo(Compact, level, items, tail); s != "" && !Closes(s[0])
  {
    hide PrintTo;
    var more := if items.tail.NoItem? then tail else "," + ItemsTo(Compact, level, items.tail, tail);
    NoGap(level, PrintTo(Compact, level, items.head, more));
    ValueStarts(level, items.head, more);
  }

  lemma FieldsStart(level: nat, f: Fields, tail: string)
    requires f.Field?
    ensures var s := FieldsTo(Compact, level, f, tail); s != "" && !Closes(s[0])
  {
    hide PrintTo;
  }

  lemma ValueStarts(level: nat, v: Json, tail: string)
    ensures var s := PrintTo(Compact, level, v, tail); s != "" && !Closes(s[0])
  {
    hide ItemsTo, FieldsTo;
  }

  lemma {:induction false} ItemsLaidOut(level: nat, items: Items, tail: string)
    requires items.Item?
    ensures Gap(Indented, level) + Outside(level, ItemsTo(Compact, level, items, tail))
         == ItemsTo(Indented, level, items, Outside(level, tail))
    decreases items, 0
  {
    hide Outside, PrintTo, Gap;
    var more := if items.tail.NoItem? then tail else "," + ItemsTo(Compact, level, items.tail, tail);
    NoGap(level, PrintTo(Compact, level, items.head, more));
    ValueLaidOut(level, items.head, more);
    if items.tail.Item? {
      Comma(level, ItemsTo(Compact, level, items.tail, tail));
      ItemsLaidOut(level, items.tail, tail);
    }
  }

  lemma {:induction false} FieldsLaidOut(level: nat, f: Fields, tail: string)
    requires f.Field?
    ensures Gap(Indented, level) + Outside(level, FieldsTo(Compact, level, f, tail))
         == FieldsTo(Indented, level, f, Outside(level, tail))
    decreases f, 0
  {
    hide Outside, PrintTo, Gap, QuoteTo;
    var more := if f.rest.NoField? then tail else "," + FieldsTo(Compact, level, f.rest, tail);
    var value := PrintTo(Compact, level, f.value, more);
    NoGap(level, QuoteTo(f.key, ":" + value));
    QuoteStays(level, f.key, ":" + value);
    ColonLaidOut(level, value);
    ValueLaidOut(level, f.value, more);
    if f.rest.Field? {
      Comma(level, FieldsTo(Compact, level, f.rest, tail));
      FieldsLaidOut(level, f.rest, tail);
    }
  }

  /** The indented text is the compact one, laid out, and a newline. */
  lemma {:induction false} PrettyIsLaidOut(v: Json)
    ensures Pretty(v) == Outside(0, Canonical(v)) + "\n"
  {
    ValueLaidOut(0, Normalize(v), "");
  }
}
