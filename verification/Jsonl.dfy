/** JSON Lines: one compact value a line, each line closed by a newline. */
module Jsonl {
  import opened Strings
  import opened Json
  import JsonProofs

  /** The lines of the values, one after the other. */
  function Text(vs: seq<Json>): (s: string)
    ensures s == "" || EndsWithNewline(s)
  {
    if vs == [] then "" else Text(vs[..|vs| - 1]) + Line(vs[|vs| - 1])
  }

  predicate EndsWithNewline(s: string) { s != "" && s[|s| - 1] == '\n' }

  lemma {:induction false} TextAppends(a: seq<Json>, b: seq<Json>)
    ensures Text(a + b) == Text(a) + Text(b)
  {
    hide Line, EndsWithNewline, Text;
    if b == [] {
      TextOfNothing(a, b);
    } else {
      var front, last := b[..|b| - 1], b[|b| - 1];
      TextAppends(a, front);
      FrontOfSum(a, b);
      TextSnoc(a + b);
      TextSnoc(b);
      Associate(Text(a), Text(front), Line(last));
    }
  }

  lemma TextSnoc(vs: seq<Json>)
    requires vs != []
    ensures Text(vs) == Text(vs[..|vs| - 1]) + Line(vs[|vs| - 1])
  {
  }

  lemma TextOfNothing(a: seq<Json>, b: seq<Json>)
    requires b == []
    ensures Text(a + b) == Text(a) + Text(b)
  {
    hide Line;
    assert a + b == a && Text(b) == "";
  }

  lemma TextCons(v: Json, rest: seq<Json>, tail: string)
    ensures Text([v] + rest) + tail == Canonical(v) + ['\n'] + (Text(rest) + tail)
  {
    hide Canonical;
    TextAppends([v], rest);
    assert [v][..0] == [];
    assert Text([v]) == Line(v) by { assert "" + Line(v) == Line(v); }
    Associate(Line(v), Text(rest), tail);
  }

  /** Each value as its own text, without the newline. */
  function Canonicals(vs: seq<Json>): (ls: seq<string>)
    ensures |ls| == |vs| && forall i :: 0 <= i < |vs| ==> ls[i] == Canonical(vs[i])
  {
    seq(|vs|, i requires 0 <= i < |vs| => Canonical(vs[i]))
  }

  /** No value breaks its line, so splitting at newlines finds exactly the lines, whatever text
      follows them. */
  lemma {:induction false} SplitText(vs: seq<Json>, tail: string)
    ensures Split('\n', Text(vs) + tail) == Canonicals(vs) + Split('\n', tail)
  {
    hide Canonical, Split, Text, Canonicals;
    if vs == [] {
      NoLines(vs, tail);
    } else {
      var v, rest := vs[0], vs[1..];
      TextCons(v, rest, tail);
      SplitText(rest, tail);
      JsonProofs.CanonicalIsOneLine(v);
      SplitPiece('\n', Canonical(v), Text(rest) + tail);
      CanonicalsCons(vs);
      Associate([Canonical(v)], Canonicals(rest), Split('\n', tail));
    }
  }

  lemma NoLines(vs: seq<Json>, tail: string)
    requires vs == []
    ensures Split('\n', Text(vs) + tail) == Canonicals(vs) + Split('\n', tail)
  {
    hide Split;
    assert Text(vs) + tail == tail;
    assert Canonicals(vs) + Split('\n', tail) == Split('\n', tail);
  }

  lemma CanonicalsCons(vs: seq<Json>)
    requires vs != []
    ensures Canonicals(vs) == [Canonical(vs[0])] + Canonicals(vs[1..]) && [vs[0]] + vs[1..] == vs
  {
    hide Canonical;
  }

  datatype Values = Torn | Values(vs: seq<Json>)

  function LoadAll(lines: seq<string>): Values {
    if lines == [] then Values([])
    else
      var v, rest := Load(lines[0]), LoadAll(lines[1..]);
      if v.NotJson? || rest.Torn? then Torn else Values([v.value] + rest.vs)
  }

  /** Reads a JSONL text whose every line, the last included, is closed. */
  function Read(text: string): Values {
    var pieces := Split('\n', text);
    if pieces[|pieces| - 1] != "" then Torn else LoadAll(pieces[..|pieces| - 1])
  }

  function Normalized(vs: seq<Json>): (ws: seq<Json>)
    ensures |ws| == |vs| && forall i :: 0 <= i < |vs| ==> ws[i] == Normalize(vs[i])
  {
    seq(|vs|, i requires 0 <= i < |vs| => Normalize(vs[i]))
  }

  lemma {:induction false} LoadAllBack(vs: seq<Json>)
    ensures LoadAll(Canonicals(vs)) == Values(Normalized(vs))
  {
    if vs != [] {
      LoadAllBack(vs[1..]);
      JsonProofs.LoadDumped(vs[0]);
      assert Canonicals(vs)[1..] == Canonicals(vs[1..]);
      assert Normalized(vs) == [Normalize(vs[0])] + Normalized(vs[1..]);
    }
  }

  /** A file of lines reads back as the values it was written from. */
  lemma {:induction false} ReadBack(vs: seq<Json>)
    ensures Read(Text(vs)) == Values(Normalized(vs))
  {
    SplitText(vs, "");
    assert Text(vs) + "" == Text(vs);
    var pieces := Canonicals(vs) + [""];
    assert pieces[..|pieces| - 1] == Canonicals(vs);
    LoadAllBack(vs);
  }

  /** The text is so many lines, each a value. */
  ghost predicate CountsLines(n: nat, text: string) {
    Read(text).Values? && |Read(text).vs| == n
  }

  lemma LinesAreCounted(vs: seq<Json>)
    ensures CountsLines(|vs|, Text(vs))
  {
    hide Text, Read;
    ReadBack(vs);
  }
}
