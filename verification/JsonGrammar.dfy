/** Which texts are JSON, declaratively (the grammar of RFC 8259, numbers being integers), and that the
    reader reads exactly those, each as its value. */
module JsonGrammar {
  import opened Strings
  import opened Json
  import opened JsonProofs
  import opened JsonLayout

  // ------------------------------------------------------------ the grammar

  /** White space. */
  predicate Blank(w: string) {
    forall i :: 0 <= i < |w| ==> w[i] == ' ' || w[i] == '\n' || w[i] == '\t' || w[i] == '\r'
  }

  /** The text is a core between white space. */
  predicate Padding(s: string, before: string, core: string, after: string) {
    Blank(before) && Blank(after) && s == before + core + after
  }

  /** The text is a core between white space, then a character, then the rest. */
  predicate PaddedTo(s: string, before: string, core: string, after: string, c: char, rest: string) {
    Blank(before) && Blank(after) && s == before + core + after + [c] + rest
  }

  /** An integer: no leading zeros, and minus zero is zero. */
  predicate IsNumber(s: string, n: int) {
    (n >= 0 && s == Digits(n)) || (n <= 0 && s == "-" + Digits(-n))
  }

  predicate HexDigit(c: char, d: int) {
    (0 <= d < 10 && c == DigitChar(d)) || (10 <= d < 16 && (c == 'a' + (d - 10) as char || c == 'A' + (d - 10) as char))
  }

  /** Four hexadecimal digits of the character's code. */
  ghost predicate IsUnicode(u: string, x: char) {
    && |u| == 6 && u[0] == '\\' && u[1] == 'u'
    && exists a, b, c, d :: HexDigit(u[2], a) && HexDigit(u[3], b) && HexDigit(u[4], c) && HexDigit(u[5], d)
         && x as int == 4096 * a + 256 * b + 16 * c + d
  }

  /** The ways to write a character inside a string. */
  ghost predicate IsChar(u: string, x: char) {
    || (u == [x] && x as int >= 32 && x != '\"' && x != '\\')
    || (u == ['\\', x] && (x == '\"' || x == '\\' || x == '/'))
    || (u == "\\n" && x == '\n') || (u == "\\r" && x == '\r') || (u == "\\t" && x == '\t')
    || (u == "\\b" && x as int == 8) || (u == "\\f" && x as int == 12)
    || IsUnicode(u, x)
  }

  predicate Parts(s: string, a: string, b: string) { s == a + b }

  ghost predicate IsBody(s: string, x: string)
    decreases |x|
  {
    if x == "" then s == "" else exists u, rest :: Parts(s, u, rest) && IsChar(u, x[0]) && IsBody(rest, x[1..])
  }

  /** A string with its quotes. */
  ghost predicate IsQuoted(s: string, x: string) {
    |s| >= 2 && s[0] == '\"' && s[|s| - 1] == '\"' && IsBody(s[1..|s| - 1], x)
  }

  predicate Bracketed(s: string, open: char, body: string, close: char) { s == [open] + body + [close] }

  ghost predicate IsValue(s: string, v: Json)
    decreases v
  {
    match v
    case Null => s == "null"
    case Bool(b) => s == if b then "true" else "false"
    case Int(n) => IsNumber(s, n)
    case Str(x) => IsQuoted(s, x)
    case Arr(items) =>
      exists body :: Bracketed(s, '[', body, ']') && (if items.NoItem? then Blank(body) else IsItems(body, items))
    case Obj(f) =>
      exists body :: Bracketed(s, '{', body, '}') && (if f.NoField? then Blank(body) else IsMembers(body, f))
  }

  ghost predicate IsItems(s: string, items: Items)
    requires items.Item?
    decreases items
  {
    if items.tail.NoItem? then exists a, t, b :: Padding(s, a, t, b) && IsValue(t, items.head)
    else exists a, t, b, rest :: PaddedTo(s, a, t, b, ',', rest) && IsValue(t, items.head) && IsItems(rest, items.tail)
  }

  ghost predicate IsMembers(s: string, f: Fields)
    requires f.Field?
    decreases f
  {
    exists a, k, b, rest :: PaddedTo(s, a, k, b, ':', rest) && IsQuoted(k, f.key) && IsRest(rest, f)
  }

  /** A member's value, and the members after it. */
  ghost predicate IsRest(s: string, f: Fields)
    requires f.Field?
    decreases f, 0
  {
    if f.rest.NoField? then exists a, t, b :: Padding(s, a, t, b) && IsValue(t, f.value)
    else exists a, t, b, rest :: PaddedTo(s, a, t, b, ',', rest) && IsValue(t, f.value) && IsMembers(rest, f.rest)
  }

  /** A JSON text of the value. */
  ghost predicate IsText(s: string, v: Json) {
    exists a, t, b :: Padding(s, a, t, b) && IsValue(t, v)
  }

  // ------------------------------------------------------------ whatever is read is in the grammar

  lemma {:induction false} Skipped(s: string) returns (w: string)
    ensures Blank(w) && s == w + SkipSpace(s)
  {
    hide Blank;
    if s != "" && IsSpace(s[0]) {
      var v := Skipped(s[1..]);
      w := [s[0]] + v;
      OneMoreBlank(s[0], v);
      FirstApart(s);
      Associate([s[0]], v, SkipSpace(s[1..]));
    } else {
      w := "";
      NoBlank(s);
    }
  }

  lemma OneMoreBlank(c: char, v: string)
    requires IsSpace(c) && Blank(v)
    ensures Blank([c] + v)
  {
  }

  lemma NoBlank(s: string)
    ensures Blank("") && "" + s == s
  {
  }

  lemma HexIsDigit(c: char)
    requires HexValue(c).Good?
    ensures HexDigit(c, HexValue(c).value)
  {
  }

  lemma CharSound(s: string) returns (u: string)
    requires ReadChar(s).Good?
    ensures s == u + ReadChar(s).rest && IsChar(u, ReadChar(s).value)
  {
    hide IsUnicode, ReadHex4;
    if s[0] != '\\' {
      u := s[..1];
    } else if s[1] == 'u' {
      u := UnicodeSound(s);
    } else {
      u := s[..2];
      assert s == s[..2] + s[2..];
    }
  }

  lemma UnicodeSound(s: string) returns (u: string)
    requires |s| >= 2 && s[0] == '\\' && s[1] == 'u' && ReadHex4(s[2..]).Good?
    ensures s == u + ReadHex4(s[2..]).rest && IsUnicode(u, ReadHex4(s[2..]).value)
  {
    u := s[..6];
    var w := s[2..];
    HexIsDigit(w[0]);
    HexIsDigit(w[1]);
    HexIsDigit(w[2]);
    HexIsDigit(w[3]);
    assert w[4..] == s[6..];
    Rejoin(s, 6);
    assert u[2] == w[0] && u[3] == w[1] && u[4] == w[2] && u[5] == w[3];
  }

  lemma {:induction false} BodySound(s: string) returns (b: string)
    requires ReadBody(s).Good?
    ensures s == b + "\"" + ReadBody(s).rest && IsBody(b, ReadBody(s).value)
    decreases |s|
  {
    hide IsChar, ReadChar;
    if s[0] == '\"' {
      b := "";
      FirstApart(s);
      assert "" + "\"" + s[1..] == s;
    } else {
      var c := ReadChar(s);
      var u := CharSound(s);
      var more := BodySound(c.rest);
      b := u + more;
      assert Parts(b, u, more);
      assert ReadBody(s).value[1..] == ReadBody(c.rest).value;
      assert u + (more + "\"" + ReadBody(c.rest).rest) == b + "\"" + ReadBody(c.rest).rest;
    }
  }

  lemma IntSound(s: string) returns (p: string)
    requires ReadInt(s).Good?
    ensures s == p + ReadInt(s).rest && IsNumber(p, ReadInt(s).value)
  {
    hide Digits;
    if s != "" && s[0] == '-' {
      NumberIsShortest(s[1..]);
      p := "-" + Digits(ReadNumber(s[1..]).value);
      FirstApart(s);
    } else {
      NumberIsShortest(s);
      p := Digits(ReadNumber(s).value);
    }
  }

  lemma {:induction false} ValueSound(t: string) returns (p: string)
    requires ReadHere(t).Good?
    ensures t == p + ReadHere(t).rest && IsValue(p, ReadHere(t).value)
    decreases |t|, 1
  {
    hide ReadItems, ReadFields, ReadInt, SkipSpace, IsItems, IsMembers, IsNumber, IsBody, ReadBody;
    var r := ReadHere(t);
    if t[0] == '{' {
      p := ObjectSound(t);
    } else if t[0] == '[' {
      p := ArraySound(t);
    } else if t[0] == '\"' {
      var b := BodySound(t[1..]);
      p := "\"" + b + "\"";
      FirstApart(t);
      assert p[1..|p| - 1] == b;
    } else if "null" <= t || "true" <= t || "false" <= t {
      var n := if "false" <= t then 5 else 4;
      Rejoin(t, n);
      p := t[..n];
      assert p == "null" || p == "true" || p == "false";
      assert t[0] == p[0];
    } else {
      p := IntSound(t);
    }
  }

  lemma {:induction false} ArraySound(t: string) returns (p: string)
    requires t != "" && t[0] == '[' && ReadHere(t).Good?
    ensures t == p + ReadHere(t).rest && IsValue(p, ReadHere(t).value)
    decreases |t|, 0
  {
    hide ReadHere, ReadItems, SkipSpace, IsItems;
    ReadArray(t);
    var u := SkipSpace(t[1..]);
    var w := Skipped(t[1..]);
    FirstApart(t);
    var body;
    if u != "" && u[0] == ']' {
      body := w;
      FirstApart(u);
    } else {
      var b := ItemsSound(u);
      BlankBefore(w, b, ReadItems(u).value);
      body := w + b;
    }
    p := ['['] + body + [']'];
    assert Bracketed(p, '[', body, ']');
    assert t == ['['] + t[1..];
    assert t == p + ReadHere(t).rest;
  }

  lemma {:induction false} ObjectSound(t: string) returns (p: string)
    requires t != "" && t[0] == '{' && ReadHere(t).Good?
    ensures t == p + ReadHere(t).rest && IsValue(p, ReadHere(t).value)
    decreases |t|, 0
  {
    hide ReadHere, ReadFields, SkipSpace, IsMembers;
    ReadObject(t);
    var u := SkipSpace(t[1..]);
    var w := Skipped(t[1..]);
    FirstApart(t);
    var body;
    if u != "" && u[0] == '}' {
      body := w;
      FirstApart(u);
    } else {
      var b := MembersSound(u);
      BlankBeforeMembers(w, b, ReadFields(u).value);
      body := w + b;
    }
    p := ['{'] + body + ['}'];
    assert Bracketed(p, '{', body, '}');
    assert t == ['{'] + t[1..];
    assert t == p + ReadHere(t).rest;
  }

  lemma BlankJoins(w: string, v: string)
    requires Blank(w) && Blank(v)
    ensures Blank(w + v)
  {
  }

  lemma PadMore(w: string, s: string, a: string, t: string, b: string)
    requires Blank(w) && Padding(s, a, t, b)
    ensures Padding(w + s, w + a, t, b)
  {
    BlankJoins(w, a);
    assert w + (a + t + b) == (w + a) + t + b;
  }

  lemma PadMoreTo(w: string, s: string, a: string, t: string, b: string, c: char, rest: string)
    requires Blank(w) && PaddedTo(s, a, t, b, c, rest)
    ensures PaddedTo(w + s, w + a, t, b, c, rest)
  {
    BlankJoins(w, a);
    assert w + (a + t + b + [c] + rest) == (w + a) + t + b + [c] + rest;
  }

  lemma BlankBefore(w: string, s: string, items: Items)
    requires Blank(w) && items.Item? && IsItems(s, items)
    ensures IsItems(w + s, items)
  {
    hide IsValue, Padding, PaddedTo, Blank;
    if items.tail.NoItem? {
      var a, t, b :| Padding(s, a, t, b) && IsValue(t, items.head);
      PadMore(w, s, a, t, b);
    } else {
      var a, t, b, rest :| PaddedTo(s, a, t, b, ',', rest) && IsValue(t, items.head) && IsItems(rest, items.tail);
      PadMoreTo(w, s, a, t, b, ',', rest);
    }
  }

  lemma BlankBeforeMembers(w: string, s: string, f: Fields)
    requires Blank(w) && f.Field? && IsMembers(s, f)
    ensures IsMembers(w + s, f)
  {
    hide IsRest, IsQuoted, PaddedTo, Blank;
    var a, k, b, rest :| PaddedTo(s, a, k, b, ':', rest) && IsQuoted(k, f.key) && IsRest(rest, f);
    PadMoreTo(w, s, a, k, b, ':', rest);
  }

  /** Pieces put back together. */
  lemma Pieces(s: string, a: string, t: string, b: string, m: string, h: string, r: string, tail: string)
    requires s == a + h && h == t + r && r == b + m && m == tail
    ensures s == a + t + b + tail
  {
    assert a + (t + (b + tail)) == a + t + b + tail;
  }

  lemma ListEnds(front: string, rest: string, close: string, after: string, m: string)
    requires m == [','] + (rest + close + after)
    ensures front + m == front + [','] + rest + close + after
  {
  }

  lemma {:induction false} ItemsSound(s: string) returns (body: string)
    requires ReadItems(s).Good?
    ensures s == body + "]" + ReadItems(s).rest && ReadItems(s).value.Item? && IsItems(body, ReadItems(s).value)
    decreases |s|, 3
  {
    hide ReadHere, SkipSpace, IsValue, Blank;
    var h := SkipSpace(s);
    var head := ReadHere(h);
    var m := SkipSpace(head.rest);
    var a := Skipped(s);
    var t := ValueSound(h);
    var b := Skipped(head.rest);
    FirstApart(m);
    Pieces(s, a, t, b, m, h, head.rest, m);
    var r := ReadItems(s);
    if m[0] == ']' {
      body := a + t + b;
      assert Padding(body, a, t, b);
      assert m == "]" + r.rest;
    } else {
      var rest := ItemsSound(m[1..]);
      body := a + t + b + [','] + rest;
      assert PaddedTo(body, a, t, b, ',', rest);
      ListEnds(a + t + b, rest, "]", r.rest, m);
    }
  }

  lemma {:induction false} MembersSound(s: string) returns (body: string)
    requires ReadFields(s).Good?
    ensures s == body + "}" + ReadFields(s).rest && ReadFields(s).value.Field? && IsMembers(body, ReadFields(s).value)
    decreases |s|, 3
  {
    hide ReadHere, SkipSpace, IsRest, IsBody, ReadBody, ReadMember, ReadMoreFields;
    var h := SkipSpace(s);
    var key := ReadBody(h[1..]);
    var m := SkipSpace(key.rest);
    var a := Skipped(s);
    var kb := BodySound(h[1..]);
    var k := "\"" + kb + "\"";
    assert k[1..|k| - 1] == kb;
    var b := Skipped(key.rest);
    var rest := RestSound(m, ReadFields(s).value, ReadFields(s).rest);
    FirstApart(h);
    body := a + k + b + [':'] + rest;
    assert PaddedTo(body, a, k, b, ':', rest);
    assert s == a + ("\"" + (kb + "\"" + (b + ([':'] + (rest + "}" + ReadFields(s).rest)))));
  }

  lemma {:induction false} RestSound(m: string, f: Fields, after: string) returns (body: string)
    requires f.Field? && ReadMember(m).Good? && ReadMember(m).value == f.value
    requires ReadMoreFields(SkipSpace(ReadMember(m).rest)) == Good(f.rest, after)
    ensures m == [':'] + (body + "}" + after) && IsRest(body, f)
    decreases |m|, 2
  {
    hide ReadHere, SkipSpace, IsValue, ReadFields, Blank;
    var h := SkipSpace(m[1..]);
    var v := ReadHere(h);
    var n := SkipSpace(v.rest);
    FirstApart(m);
    var a := Skipped(m[1..]);
    var t := ValueSound(h);
    var b := Skipped(v.rest);
    FirstApart(n);
    Pieces(m[1..], a, t, b, n, h, v.rest, n);
    if n[0] == '}' {
      body := a + t + b;
      assert Padding(body, a, t, b);
      assert n == "}" + after;
    } else {
      var rest := MembersSound(n[1..]);
      body := a + t + b + [','] + rest;
      assert PaddedTo(body, a, t, b, ',', rest);
      ListEnds(a + t + b, rest, "}", after, n);
    }
  }

  // ------------------------------------------------------------ whatever is in the grammar is read

  lemma {:induction false} SkipBlank(w: string, s: string)
    requires Blank(w)
    ensures SkipSpace(w + s) == SkipSpace(s)
  {
    if w == "" {
      assert w + s == s;
    } else {
      SkipBlank(w[1..], s);
      assert (w + s)[1..] == w[1..] + s;
    }
  }

  lemma BlankDelimits(b: string, m: string)
    requires Blank(b) && m != "" && !IsDigit(m[0])
    ensures Delimits(b + m)
  {
    if b != "" { assert (b + m)[0] == b[0]; }
  }

  lemma CharRead(u: string, x: char, tail: string)
    requires IsChar(u, x)
    ensures ReadChar(u + tail) == Good(x, tail) && u != "" && u[0] != '\"'
  {
    hide IsUnicode, ReadHex4;
    var s := u + tail;
    if IsUnicode(u, x) {
      UnicodeRead(u, x, tail);
    } else if u == [x] {
      assert s[1..] == tail;
    } else {
      assert |u| == 2 && s[2..] == tail;
    }
  }

  lemma UnicodeRead(u: string, x: char, tail: string)
    requires IsUnicode(u, x)
    ensures |u| == 6 && u[0] == '\\' && ReadChar(u + tail) == Good(x, tail)
  {
    hide ReadHex4, HexDigit;
    var s := u + tail;
    var a, b, c, d :| HexDigit(u[2], a) && HexDigit(u[3], b) && HexDigit(u[4], c) && HexDigit(u[5], d)
         && x as int == 4096 * a + 256 * b + 16 * c + d;
    FourRead(s[2..], a, b, c, d, x);
    assert s[2..][4..] == tail;
  }

  lemma FourRead(w: string, a: int, b: int, c: int, d: int, x: char)
    requires |w| >= 4 && HexDigit(w[0], a) && HexDigit(w[1], b) && HexDigit(w[2], c) && HexDigit(w[3], d)
    requires x as int == 4096 * a + 256 * b + 16 * c + d
    ensures ReadHex4(w) == Good(x, w[4..])
  {
    hide HexDigit, HexValue;
    DigitIsHex(w[0], a);
    DigitIsHex(w[1], b);
    DigitIsHex(w[2], c);
    DigitIsHex(w[3], d);
  }

  lemma DigitIsHex(c: char, d: int)
    requires HexDigit(c, d)
    ensures 0 <= d < 16 && HexValue(c).Good? && HexValue(c).value == d
  {
  }

  lemma {:induction false} BodyRead(b: string, x: string, tail: string)
    requires IsBody(b, x)
    ensures ReadBody(b + ("\"" + tail)) == Good(x, tail)
    decreases |x|
  {
    hide IsChar, ReadChar;
    if x == "" {
      assert b + ("\"" + tail) == "\"" + tail && ("\"" + tail)[1..] == tail;
    } else {
      var u, rest :| Parts(b, u, rest) && IsChar(u, x[0]) && IsBody(rest, x[1..]);
      CharRead(u, x[0], rest + ("\"" + tail));
      BodyRead(rest, x[1..], tail);
      assert b + ("\"" + tail) == u + (rest + ("\"" + tail));
      assert x == [x[0]] + x[1..];
    }
  }

  lemma QuotedRead(k: string, x: string, tail: string)
    requires IsQuoted(k, x)
    ensures k != "" && k[0] == '\"' && (k + tail)[0] == '\"' && ReadBody((k + tail)[1..]) == Good(x, tail)
  {
    hide ReadBody, IsBody;
    var b := k[1..|k| - 1];
    BodyRead(b, x, tail);
    assert (k + tail)[1..] == b + ("\"" + tail);
  }

  lemma NumberRead(p: string, n: int, tail: string)
    requires IsNumber(p, n) && Delimits(tail)
    ensures p != "" && (p[0] == '-' || IsDigit(p[0])) && ReadInt(p + tail) == Good(n, tail)
  {
    hide Digits, ReadNumber;
    ReadNumberBack(if n < 0 then -n else n, tail);
    if n <= 0 && p == "-" + Digits(-n) {
      assert (p + tail)[1..] == Digits(-n) + tail;
    }
  }

  lemma ScalarRead(p: string, v: Json, tail: string)
    requires IsValue(p, v) && Delimits(tail) && !v.Arr? && !v.Obj?
    ensures Reads(p + tail, v, tail)
  {
    hide Reads, IsNumber, IsQuoted;
    match v
    case Null => ReadWord("null", v, tail);
    case Bool(b) => ReadWord(if b then "true" else "false", v, tail);
    case Int(n) =>
      NumberRead(p, n, tail);
      NumberHere(p + tail, n, tail);
    case Str(x) =>
      QuotedRead(p, x, tail);
      TextHere(p + tail, x, tail);
  }

  lemma NumberHere(t: string, n: int, tail: string)
    requires t != "" && (t[0] == '-' || IsDigit(t[0])) && ReadInt(t) == Good(n, tail)
    ensures Reads(t, Int(n), tail)
  {
    hide SkipSpace, ReadFields, ReadItems, ReadBody, ReadInt;
    assert !("null" <= t) && !("true" <= t) && !("false" <= t);
  }

  lemma TextHere(t: string, x: string, tail: string)
    requires t != "" && t[0] == '\"' && ReadBody(t[1..]) == Good(x, tail)
    ensures Reads(t, Str(x), tail)
  {
    hide SkipSpace, ReadFields, ReadItems, ReadBody, ReadInt;
  }

  lemma {:induction false} ValueRead(p: string, v: Json, tail: string)
    requires IsValue(p, v) && Delimits(tail)
    ensures Reads(p + tail, v, tail)
    decreases v, 0
  {
    hide Reads, IsItems, IsMembers, IsNumber, IsQuoted, Blank;
    match v
    case Arr(items) => ArrayRead(p, items, tail);
    case Obj(f) => ObjectRead(p, f, tail);
    case _ => ScalarRead(p, v, tail);
  }

  lemma {:induction false} ArrayRead(p: string, items: Items, tail: string)
    requires IsValue(p, Arr(items))
    ensures Reads(p + tail, Arr(items), tail)
    decreases items, 2
  {
    hide Reads, IsItems, SkipSpace, ReadItems, Blank;
    var body :| Bracketed(p, '[', body, ']') && (if items.NoItem? then Blank(body) else IsItems(body, items));
    assert p + tail == "[" + (body + ("]" + tail));
    if items.NoItem? {
      SkipBlank(body, "]" + tail);
      SkipNone("]" + tail);
      EmptyRead('[', ']', body + ("]" + tail), tail);
    } else {
      ItemsRead(body, items, tail);
      ReadOpenArr(body + ("]" + tail), items, tail);
    }
  }

  lemma {:induction false} ObjectRead(p: string, f: Fields, tail: string)
    requires IsValue(p, Obj(f))
    ensures Reads(p + tail, Obj(f), tail)
    decreases f, 3
  {
    hide Reads, IsMembers, SkipSpace, ReadFields, Blank;
    var body :| Bracketed(p, '{', body, '}') && (if f.NoField? then Blank(body) else IsMembers(body, f));
    assert p + tail == "{" + (body + ("}" + tail));
    if f.NoField? {
      SkipBlank(body, "}" + tail);
      SkipNone("}" + tail);
      EmptyRead('{', '}', body + ("}" + tail), tail);
    } else {
      MembersRead(body, f, tail);
      ReadOpenObj(body + ("}" + tail), f, tail);
    }
  }

  lemma EmptyRead(open: char, close: char, s: string, tail: string)
    requires (open == '[' && close == ']') || (open == '{' && close == '}')
    requires SkipSpace(s) == [close] + tail
    ensures Reads([open] + s, if open == '[' then Arr(NoItem) else Obj(NoField), tail)
  {
    hide SkipSpace, ReadFields, ReadItems, ReadBody, ReadInt;
    assert ([open] + s)[1..] == s && ([close] + tail)[1..] == tail;
  }

  /** One value between white space, before the character m begins with. */
  lemma {:induction false} CoreRead(a: string, t: string, b: string, v: Json, m: string)
    requires Blank(a) && Blank(b) && IsValue(t, v) && m != "" && !IsDigit(m[0]) && !IsSpace(m[0])
    ensures var s := SkipSpace(a + (t + (b + m)));
            && s != "" && s[0] !in ['}', ']', ',', ':'] && ReadHere(s) == Good(v, b + m)
    ensures SkipSpace(b + m) == m
    decreases v, 1
  {
    hide Blank, IsValue, ReadHere;
    BlankDelimits(b, m);
    ValueRead(t, v, b + m);
    SkipBlank(a, t + (b + m));
    SkipNone(t + (b + m));
    SkipBlank(b, m);
    SkipNone(m);
  }

  lemma PaddingTail(s: string, a: string, t: string, b: string, m: string)
    requires Padding(s, a, t, b)
    ensures Blank(a) && Blank(b) && s + m == a + (t + (b + m))
  {
  }

  lemma PaddedTail(s: string, a: string, t: string, b: string, c: char, rest: string, m: string)
    requires PaddedTo(s, a, t, b, c, rest)
    ensures Blank(a) && Blank(b) && s + m == a + (t + (b + ([c] + (rest + m)))) && ([c] + (rest + m))[1..] == rest + m
  {
  }

  lemma {:induction false} ItemsRead(body: string, items: Items, tail: string)
    requires items.Item? && IsItems(body, items)
    ensures var s := SkipSpace(body + ("]" + tail)); s != "" && s[0] != ']' && ReadItems(s) == Good(items, tail)
    decreases items, 1
  {
    hide ReadHere, SkipSpace, IsValue, Blank, Padding, PaddedTo;
    SkipTwice(body + ("]" + tail));
    if items.tail.NoItem? {
      var a, t, b :| Padding(body, a, t, b) && IsValue(t, items.head);
      PaddingTail(body, a, t, b, "]" + tail);
      CoreRead(a, t, b, items.head, "]" + tail);
      assert ("]" + tail)[1..] == tail;
    } else {
      var a, t, b, rest :| PaddedTo(body, a, t, b, ',', rest) && IsValue(t, items.head) && IsItems(rest, items.tail);
      var m := "," + (rest + ("]" + tail));
      PaddedTail(body, a, t, b, ',', rest, "]" + tail);
      CoreRead(a, t, b, items.head, m);
      ItemsRead(rest, items.tail, tail);
      ReadItemsSkips(rest + ("]" + tail));
    }
  }

  lemma {:induction false} MembersRead(body: string, f: Fields, tail: string)
    requires f.Field? && IsMembers(body, f)
    ensures var s := SkipSpace(body + ("}" + tail)); s != "" && s[0] != '}' && ReadFields(s) == Good(f, tail)
    decreases f, 2
  {
    hide ReadHere, SkipSpace, IsRest, Blank, ReadBody, IsQuoted, ReadMember, ReadMoreFields, PaddedTo;
    var a, k, b, rest :| PaddedTo(body, a, k, b, ':', rest) && IsQuoted(k, f.key) && IsRest(rest, f);
    var m := ":" + (rest + ("}" + tail));
    PaddedTail(body, a, k, b, ':', rest, "}" + tail);
    QuotedRead(k, f.key, b + m);
    SkipBlank(a, k + (b + m));
    SkipNone(k + (b + m));
    SkipBlank(b, m);
    SkipNone(m);
    SkipTwice(body + ("}" + tail));
    RestRead(rest, f, tail);
  }

  lemma {:induction false} RestRead(s: string, f: Fields, tail: string)
    requires f.Field? && IsRest(s, f)
    ensures var v := ReadMember(":" + (s + ("}" + tail)));
            v.Good? && v.value == f.value && ReadMoreFields(SkipSpace(v.rest)) == Good(f.rest, tail)
    decreases f, 1
  {
    hide ReadHere, SkipSpace, IsValue, Blank, ReadFields, Padding, PaddedTo;
    var whole := ":" + (s + ("}" + tail));
    assert whole[1..] == s + ("}" + tail);
    if f.rest.NoField? {
      var a, t, b :| Padding(s, a, t, b) && IsValue(t, f.value);
      PaddingTail(s, a, t, b, "}" + tail);
      CoreRead(a, t, b, f.value, "}" + tail);
      assert ("}" + tail)[1..] == tail;
    } else {
      var a, t, b, rest :| PaddedTo(s, a, t, b, ',', rest) && IsValue(t, f.value) && IsMembers(rest, f.rest);
      var m := "," + (rest + ("}" + tail));
      PaddedTail(s, a, t, b, ',', rest, "}" + tail);
      CoreRead(a, t, b, f.value, m);
      MembersRead(rest, f.rest, tail);
      ReadFieldsSkips(rest + ("}" + tail));
    }
  }

  /** The reader reads exactly the JSON texts, each as the value that it is a text of. */
  lemma {:induction false} LoadExactly(s: string, v: Json)
    ensures Load(s) == Loaded(v) <==> IsText(s, v)
  {
    hide ReadHere, SkipSpace, IsValue, Blank;
    if Load(s) == Loaded(v) {
      var h := SkipSpace(s);
      var a := Skipped(s);
      var t := ValueSound(h);
      var b := Skipped(ReadHere(h).rest);
      assert Padding(s, a, t, b);
    }
    if IsText(s, v) {
      var a, t, b :| Padding(s, a, t, b) && IsValue(t, v);
      TextRead(a, t, b, v);
      assert s == a + (t + b);
    }
  }

  lemma TextRead(a: string, t: string, b: string, v: Json)
    requires Blank(a) && Blank(b) && IsValue(t, v)
    ensures Load(a + (t + b)) == Loaded(v)
  {
    hide ReadHere, SkipSpace, IsValue;
    assert Delimits(b);
    ValueRead(t, v, b);
    SkipBlank(a, t + b);
    SkipNone(t + b);
    SkipBlank(b, "");
    assert b + "" == b && SkipSpace("") == "" by { NothingToSkip(); }
  }

  lemma NothingToSkip()
    ensures SkipSpace("") == ""
  {
  }
}
