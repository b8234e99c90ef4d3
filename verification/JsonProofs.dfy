/** What the printer and the reader of Json guarantee together: texts load back to the value that
    was dumped, equal texts mean equal values, and a compact text is a single line. */
module JsonProofs {
  import opened Strings
  import opened Json

  // ------------------------------------------------------------ print then read

  lemma {:induction false} SkipSpaces(n: nat, tail: string)
    ensures SkipSpace(Spaces(n) + tail) == SkipSpace(tail)
  {
    if n == 0 {
      assert Spaces(0) + tail == tail;
    } else {
      SkipSpaces(n - 1, tail);
      assert (Spaces(n) + tail)[1..] == Spaces(n - 1) + tail;
    }
  }

  lemma SkipGap(style: Style, level: nat, tail: string)
    ensures SkipSpace(Gap(style, level) + tail) == SkipSpace(tail)
  {
    if style.Compact? {
      assert Gap(style, level) + tail == tail;
    } else {
      SkipSpaces(2 * level, tail);
      assert (Gap(style, level) + tail)[1..] == Spaces(2 * level) + tail;
    }
  }

  lemma ReadEscape(c: char, tail: string)
    ensures ReadChar(Escape(c) + tail) == Good(c, tail)
    ensures Escape(c)[0] != '\"'
  {
    var s := Escape(c) + tail;
    if c == '\"' || c == '\\' || c == '\n' || c == '\r' || c == '\t' || c as int == 8 || c as int == 12 {
      assert s[2..] == tail;
    } else if c as int < 32 {
      var h := [HexChar(c as int / 16), HexChar(c as int % 16)];
      assert s[2..] == "00" + h + tail;
      assert s[2..][4..] == tail;
    } else {
      assert s[1..] == tail;
    }
  }

  lemma {:induction false} ReadEscaped(x: string, tail: string)
    ensures ReadBody(EscapeTo(x, "\"" + tail)) == Good(x, tail)
  {
    if x == "" {
      assert ("\"" + tail)[1..] == tail;
    } else {
      ReadEscape(x[0], EscapeTo(x[1..], "\"" + tail));
      ReadEscaped(x[1..], tail);
      assert EscapeTo(x, "\"" + tail)[0] == Escape(x[0])[0];
      assert x == [x[0]] + x[1..];
    }
  }

  /** No digit follows, so a number printed before this text ends where it should. */
  predicate Delimits(s: string) { s == "" || !IsDigit(s[0]) }

  lemma ReadNumberBack(n: nat, tail: string)
    requires Delimits(tail)
    ensures ReadNumber(Digits(n) + tail) == Good(n, tail)
  {
    ReadDigits(n, tail);
    var d := Digits(n) + tail;
    assert d[0] == Digits(n)[0];
    assert n == 0 ==> d[1..] == tail;
  }

  lemma ReadIntBack(n: int, tail: string)
    requires Delimits(tail)
    ensures ReadInt(IntTo(n, tail)) == Good(n, tail)
    ensures var c := IntTo(n, tail)[0]; c == '-' || IsDigit(c)
  {
    ReadNumberBack(if n < 0 then -n else n, tail);
    if n < 0 {
      assert IntTo(n, tail)[1..] == Digits(-n) + tail;
    }
  }

  /** What one printed value looks like to the reader. */
  ghost predicate Reads(p: string, v: Json, tail: string) {
    && p != ""
    && !IsSpace(p[0])
    && p[0] !in ['}', ']', ',', ':']
    && ReadHere(p) == Good(v, tail)
  }

  lemma SkipNone(s: string)
    requires s != "" && !IsSpace(s[0])
    ensures SkipSpace(s) == s
  {
  }

  lemma {:induction false} SkipTwice(s: string)
    ensures SkipSpace(SkipSpace(s)) == SkipSpace(s)
  {
    if s != "" && IsSpace(s[0]) { SkipTwice(s[1..]); }
  }

  lemma CloseAfterGap(style: Style, level: nat, close: string)
    requires close != "" && !IsSpace(close[0]) && !IsDigit(close[0])
    ensures Delimits(Gap(style, level) + close)
    ensures SkipSpace(Gap(style, level) + close) == close
  {
    SkipGap(style, level, close);
    SkipNone(close);
  }

  /** Reading back what was printed gives the value, members in the order printed. */
  lemma {:induction false} ReadPrinted(style: Style, level: nat, v: Json, tail: string)
    requires Delimits(tail)
    ensures Reads(PrintTo(style, level, v, tail), v, tail)
    decreases v
  {
    match v
    case Arr(items) => if items.Item? { ReadPrintedArr(style, level, items, tail); } else { ReadEmpty(tail); }
    case Obj(fields) => if fields.Field? { ReadPrintedObj(style, level, fields, tail); } else { ReadEmpty(tail); }
    case _ => ReadPrintedScalar(style, level, v, tail);
  }

  lemma ReadPrintedScalar(style: Style, level: nat, v: Json, tail: string)
    requires Delimits(tail) && !v.Arr? && !v.Obj?
    ensures Reads(PrintTo(style, level, v, tail), v, tail)
  {
    hide Reads, IntTo, QuoteTo;
    match v
    case Null => ReadWord("null", v, tail);
    case Bool(b) => ReadWord(if b then "true" else "false", v, tail);
    case Int(n) => ReadIntHere(n, tail);
    case Str(s) => ReadTextHere(s, tail);
  }

  lemma ReadWord(word: string, v: Json, tail: string)
    requires v == Null || v.Bool?
    requires word == match v case Null => "null" case Bool(b) => if b then "true" else "false" case _ => ""
    ensures Reads(word + tail, v, tail)
  {
    hide SkipSpace, ReadFields, ReadItems, ReadBody, ReadInt;
    var p := word + tail;
    assert p[0] == word[0] && p[|word|..] == tail;
    assert "null" <= p <==> word == "null" by { assert word[0] != 'n' ==> !("null" <= p); }
  }

  lemma ReadIntHere(n: int, tail: string)
    requires Delimits(tail)
    ensures Reads(IntTo(n, tail), Int(n), tail)
  {
    hide SkipSpace, ReadFields, ReadItems, ReadBody, ReadInt, IntTo;
    ReadIntBack(n, tail);
    var p := IntTo(n, tail);
    IntIsSome(n, tail);
    assert p[0] == '-' || IsDigit(p[0]);
    assert !("null" <= p) && !("true" <= p) && !("false" <= p);
  }

  lemma IntIsSome(n: int, tail: string)
    ensures IntTo(n, tail) != ""
  {
  }

  lemma ReadTextHere(s: string, tail: string)
    ensures Reads(QuoteTo(s, tail), Str(s), tail)
  {
    hide SkipSpace, ReadFields, ReadItems, ReadInt, ReadBody, EscapeTo;
    ReadEscaped(s, tail);
    assert QuoteTo(s, tail)[1..] == EscapeTo(s, "\"" + tail);
  }

  lemma ReadEmpty(tail: string)
    ensures Reads("[]" + tail, Arr(NoItem), tail)
    ensures Reads("{}" + tail, Obj(NoField), tail)
  {
    var p, q := "[]" + tail, "{}" + tail;
    assert p[1..] == "]" + tail && q[1..] == "}" + tail;
    assert p[1..][1..] == tail && q[1..][1..] == tail;
  }

  lemma ReadOpenArr(body: string, items: Items, tail: string)
    requires var u := SkipSpace(body); u != "" && u[0] != ']' && ReadItems(u) == Good(items, tail)
    ensures Reads("[" + body, Arr(items), tail)
  {
    hide SkipSpace, ReadItems, ReadFields, ReadBody, ReadInt;
    assert ("[" + body)[1..] == body;
  }

  lemma ReadOpenObj(body: string, f: Fields, tail: string)
    requires var u := SkipSpace(body); u != "" && u[0] != '}' && ReadFields(u) == Good(f, tail)
    ensures Reads("{" + body, Obj(f), tail)
  {
    hide SkipSpace, ReadItems, ReadFields, ReadBody, ReadInt;
    assert ("{" + body)[1..] == body;
  }

  lemma {:induction false} ReadPrintedArr(style: Style, level: nat, items: Items, tail: string)
    requires items.Item?
    ensures Reads(PrintTo(style, level, Arr(items), tail), Arr(items), tail)
    decreases items, 1
  {
    hide Reads, ReadItems, SkipSpace, ItemsTo, Gap;
    ReadPrintedItems(style, level + 1, items, level, tail);
    ReadOpenArr(ItemsTo(style, level + 1, items, Gap(style, level) + ("]" + tail)), items, tail);
  }

  lemma {:induction false} ReadPrintedObj(style: Style, level: nat, fields: Fields, tail: string)
    requires fields.Field?
    ensures Reads(PrintTo(style, level, Obj(fields), tail), Obj(fields), tail)
    decreases fields, 1
  {
    hide Reads, ReadFields, SkipSpace, FieldsTo, Gap;
    ReadPrintedFields(style, level + 1, fields, level, tail);
    ReadOpenObj(FieldsTo(style, level + 1, fields, Gap(style, level) + ("}" + tail)), fields, tail);
  }

  lemma {:induction false} ReadPrintedItems(style: Style, level: nat, items: Items, outer: nat, tail: string)
    requires items.Item?
    ensures var s := SkipSpace(ItemsTo(style, level, items, Gap(style, outer) + ("]" + tail)));
            s != "" && s[0] != ']' && ReadItems(s) == Good(items, tail)
    decreases items, 0
  {
    hide PrintTo, Gap, ReadHere;
    var close := Gap(style, outer) + ("]" + tail);
    CloseAfterGap(style, outer, "]" + tail);
    var more := if items.tail.NoItem? then close else "," + ItemsTo(style, level, items.tail, close);
    var head := PrintTo(style, level, items.head, more);
    ReadPrinted(style, level, items.head, more);
    SkipGap(style, level, head);
    SkipNone(head);
    assert SkipSpace(ItemsTo(style, level, items, close)) == head;
    assert ReadMoreItems(SkipSpace(more)) == Good(items.tail, tail) by {
      if items.tail.NoItem? {
        assert ("]" + tail)[1..] == tail;
      } else {
        ReadPrintedItems(style, level, items.tail, outer, tail);
        assert more[1..] == ItemsTo(style, level, items.tail, close);
        ReadItemsSkips(more[1..]);
      }
    }
  }

  lemma ReadItemsSkips(s: string)
    ensures ReadItems(s) == ReadItems(SkipSpace(s))
  {
    SkipTwice(s);
  }

  lemma ReadFieldsSkips(s: string)
    ensures ReadFields(s) == ReadFields(SkipSpace(s))
  {
    SkipTwice(s);
  }

  lemma {:induction false} ReadPrintedFields(style: Style, level: nat, f: Fields, outer: nat, tail: string)
    requires f.Field?
    ensures var s := SkipSpace(FieldsTo(style, level, f, Gap(style, outer) + ("}" + tail)));
            s != "" && s[0] != '}' && ReadFields(s) == Good(f, tail)
    decreases f, 0
  {
    hide PrintTo, Gap, ReadHere, ReadFields, QuoteTo;
    var close := Gap(style, outer) + ("}" + tail);
    CloseAfterGap(style, outer, "}" + tail);
    var more := if f.rest.NoField? then close else "," + FieldsTo(style, level, f.rest, close);
    ReadPrinted(style, level, f.value, more);
    var afterKey := Colon(style) + PrintTo(style, level, f.value, more);
    ReadPrintedMember(style, PrintTo(style, level, f.value, more), f.value, more);
    assert ReadMoreFields(SkipSpace(more)) == Good(f.rest, tail) by {
      if f.rest.NoField? {
        assert ("}" + tail)[1..] == tail;
      } else {
        ReadPrintedFields(style, level, f.rest, outer, tail);
        assert more[1..] == FieldsTo(style, level, f.rest, close);
        ReadFieldsSkips(more[1..]);
      }
    }
    ReadPrintedKey(style, level, f, afterKey, more, tail);
  }

  lemma ReadPrintedMember(style: Style, p: string, v: Json, tail: string)
    requires Reads(p, v, tail)
    ensures ReadMember(SkipSpace(Colon(style) + p)) == Good(v, tail)
  {
    var t := Colon(style) + p;
    SkipNone(t);
    SkipNone(p);
    if style.Compact? {
      assert t[1..] == p;
    } else {
      assert t[1..] == " " + p && (" " + p)[1..] == p;
    }
  }

  lemma ReadPrintedKey(style: Style, level: nat, f: Fields, afterKey: string, more: string, tail: string)
    requires f.Field?
    requires ReadMember(SkipSpace(afterKey)) == Good(f.value, more)
    requires ReadMoreFields(SkipSpace(more)) == Good(f.rest, tail)
    ensures var s := SkipSpace(Gap(style, level) + QuoteTo(f.key, afterKey));
            s != "" && s[0] != '}' && ReadFields(s) == Good(f, tail)
  {
    var s := QuoteTo(f.key, afterKey);
    SkipGap(style, level, s);
    SkipNone(s);
    ReadEscaped(f.key, afterKey);
    assert s[1..] == EscapeTo(f.key, "\"" + afterKey);
  }

  /** Loading a dumped value gives the value with its members sorted, in either style. */
  lemma {:induction false} LoadDumped(v: Json)
    ensures Load(Canonical(v)) == Loaded(Normalize(v))
    ensures Load(Line(v)) == Loaded(Normalize(v))
    ensures Load(Pretty(v)) == Loaded(Normalize(v))
  {
    var n := Normalize(v);
    ReadPrinted(Compact, 0, n, "");
    ReadPrinted(Compact, 0, n, "\n");
    ReadPrinted(Indented, 0, n, "\n");
    PrintAppends(Compact, 0, n, "", "\n");
    PrintAppends(Indented, 0, n, "", "\n");
    assert "" + "\n" == "\n" && SkipSpace("\n") == "";
    SkipNone(PrintTo(Compact, 0, n, ""));
    SkipNone(PrintTo(Compact, 0, n, "\n"));
    SkipNone(PrintTo(Indented, 0, n, "\n"));
  }

  /** Two values are dumped to the same text exactly when they are equal as JSON values. */
  lemma {:induction false} DumpIsInjective(v: Json, w: Json)
    requires WellFormed(v) && WellFormed(w)
    ensures Canonical(v) == Canonical(w) <==> Same(v, w)
    ensures Pretty(v) == Pretty(w) <==> Same(v, w)
  {
    LoadDumped(v);
    LoadDumped(w);
    NormalFormIsEquality(v, w);
  }

  // ------------------------------------------------------------ framing

  lemma {:induction false} EscapeAppends(x: string, tail: string, more: string)
    ensures EscapeTo(x, tail + more) == EscapeTo(x, tail) + more
  {
    if x != "" { EscapeAppends(x[1..], tail, more); }
  }

  lemma QuoteAppends(x: string, tail: string, more: string)
    ensures QuoteTo(x, tail + more) == QuoteTo(x, tail) + more
  {
    EscapeAppends(x, "\"" + tail, more);
    assert "\"" + (tail + more) == ("\"" + tail) + more;
  }

  /** Printing in front of a longer tail only makes the text longer at its end. */
  lemma {:induction false} PrintAppends(style: Style, level: nat, v: Json, tail: string, more: string)
    ensures PrintTo(style, level, v, tail + more) == PrintTo(style, level, v, tail) + more
    decreases v
  {
    match v
    case Str(s) => QuoteAppends(s, tail, more);
    case Arr(items) => if items.Item? { ArrAppends(style, level, items, tail, more); }
    case Obj(fields) => if fields.Field? { ObjAppends(style, level, fields, tail, more); }
    case Int(n) => IntAppends(n, tail, more);
    case _ =>
  }

  lemma IntAppends(n: int, tail: string, more: string)
    ensures IntTo(n, tail + more) == IntTo(n, tail) + more
  {
    hide Digits;
    var d := Digits(if n < 0 then -n else n);
    Associate(d, tail, more);
    if n < 0 { Associate("-", d + tail, more); }
  }

  lemma {:induction false} ArrAppends(style: Style, level: nat, items: Items, tail: string, more: string)
    requires items.Item?
    ensures PrintTo(style, level, Arr(items), tail + more) == PrintTo(style, level, Arr(items), tail) + more
    decreases items, 1
  {
    hide FieldsTo, ItemsTo, QuoteTo, IntTo, Gap;
    var close := Gap(style, level) + ("]" + tail);
    ItemsAppend(style, level + 1, items, close, more);
    assert Gap(style, level) + ("]" + (tail + more)) == close + more;
    Associate("[", ItemsTo(style, level + 1, items, close), more);
  }

  lemma {:induction false} ObjAppends(style: Style, level: nat, fields: Fields, tail: string, more: string)
    requires fields.Field?
    ensures PrintTo(style, level, Obj(fields), tail + more) == PrintTo(style, level, Obj(fields), tail) + more
    decreases fields, 1
  {
    hide FieldsTo, ItemsTo, QuoteTo, IntTo, Gap;
    var close := Gap(style, level) + ("}" + tail);
    FieldsAppend(style, level + 1, fields, close, more);
    assert Gap(style, level) + ("}" + (tail + more)) == close + more;
    Associate("{", FieldsTo(style, level + 1, fields, close), more);
  }

  lemma {:induction false} ItemsAppend(style: Style, level: nat, items: Items, tail: string, more: string)
    requires items.Item?
    ensures ItemsTo(style, level, items, tail + more) == ItemsTo(style, level, items, tail) + more
    decreases items, 0
  {
    hide PrintTo, Gap;
    if items.tail.NoItem? {
      Associate(Gap(style, level), PrintTo(style, level, items.head, tail), more);
      PrintAppends(style, level, items.head, tail, more);
    } else {
      var t := "," + ItemsTo(style, level, items.tail, tail);
      ItemsAppend(style, level, items.tail, tail, more);
      PrintAppends(style, level, items.head, t, more);
      assert "," + ItemsTo(style, level, items.tail, tail + more) == t + more;
      Associate(Gap(style, level), PrintTo(style, level, items.head, t), more);
    }
  }

  lemma {:induction false} FieldsAppend(style: Style, level: nat, f: Fields, tail: string, more: string)
    requires f.Field?
    ensures FieldsTo(style, level, f, tail + more) == FieldsTo(style, level, f, tail) + more
    decreases f, 0
  {
    if f.rest.NoField? {
      PrintAppends(style, level, f.value, tail, more);
      MemberAppends(style, level, f.key, PrintTo(style, level, f.value, tail), more);
    } else {
      var t := "," + FieldsTo(style, level, f.rest, tail);
      FieldsAppend(style, level, f.rest, tail, more);
      assert "," + FieldsTo(style, level, f.rest, tail + more) == t + more;
      PrintAppends(style, level, f.value, t, more);
      MemberAppends(style, level, f.key, PrintTo(style, level, f.value, t), more);
    }
  }

  lemma MemberAppends(style: Style, level: nat, key: string, v: string, more: string)
    ensures Gap(style, level) + QuoteTo(key, Colon(style) + (v + more))
         == Gap(style, level) + QuoteTo(key, Colon(style) + v) + more
  {
    QuoteAppends(key, Colon(style) + v, more);
    assert Colon(style) + (v + more) == (Colon(style) + v) + more;
  }

  lemma {:induction false} EscapeHasNoNewline(x: string, tail: string)
    requires Free('\n', tail)
    ensures Free('\n', EscapeTo(x, tail))
  {
    if x != "" { EscapeHasNoNewline(x[1..], tail); }
  }

  /** A compact text is one line: newlines inside strings are escaped and there are no others. */
  lemma {:induction false} CompactIsOneLine(level: nat, v: Json, tail: string)
    requires Free('\n', tail)
    ensures Free('\n', PrintTo(Compact, level, v, tail))
    decreases v
  {
    match v
    case Str(s) => EscapeHasNoNewline(s, "\"" + tail);
    case Arr(items) => if items.Item? { ItemsOneLine(level + 1, items, Gap(Compact, level) + ("]" + tail)); }
    case Obj(fields) => if fields.Field? { FieldsOneLine(level + 1, fields, Gap(Compact, level) + ("}" + tail)); }
    case _ =>
  }

  lemma {:induction false} ItemsOneLine(level: nat, items: Items, tail: string)
    requires items.Item? && Free('\n', tail)
    ensures Free('\n', ItemsTo(Compact, level, items, tail))
    decreases items
  {
    if items.tail.Item? {
      ItemsOneLine(level, items.tail, tail);
      CompactIsOneLine(level, items.head, "," + ItemsTo(Compact, level, items.tail, tail));
    } else {
      CompactIsOneLine(level, items.head, tail);
    }
  }

  lemma {:induction false} FieldsOneLine(level: nat, f: Fields, tail: string)
    requires f.Field? && Free('\n', tail)
    ensures Free('\n', FieldsTo(Compact, level, f, tail))
    decreases f
  {
    var t := if f.rest.NoField? then tail else "," + FieldsTo(Compact, level, f.rest, tail);
    if f.rest.Field? { FieldsOneLine(level, f.rest, tail); }
    CompactIsOneLine(level, f.value, t);
    EscapeHasNoNewline(f.key, "\"" + (Colon(Compact) + PrintTo(Compact, level, f.value, t)));
  }

  lemma {:induction false} CanonicalIsOneLine(v: Json)
    ensures Free('\n', Canonical(v))
  {
    CompactIsOneLine(0, Normalize(v), "");
  }
}
