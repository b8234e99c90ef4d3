/** Text helpers shared by the JSON codec, the path renderer and the JSONL framing:
    code-point order, sorted key lists, decimal digits, and separator-joined text. */
module Strings {

  lemma Associate<T>(a: seq<T>, b: seq<T>, c: seq<T>)
    ensures a + (b + c) == (a + b) + c
  {
  }

  lemma Rejoin<T>(s: seq<T>, n: nat)
    requires n <= |s|
    ensures s == s[..n] + s[n..]
  {
  }

  lemma AddNothing<T>(s: seq<T>)
    ensures s + [] == s
  {
  }

  lemma TakeAll<T>(s: seq<T>)
    ensures s[..|s|] == s
  {
  }

  lemma LastBack<T>(s: seq<T>)
    requires s != []
    ensures s == s[..|s| - 1] + [s[|s| - 1]]
  {
  }

  lemma SuffixOf<T>(a: seq<T>, b: seq<T>)
    ensures (a + b)[|a|..] == b
  {
  }

  lemma FrontOfSum<T>(a: seq<T>, b: seq<T>)
    requires b != []
    ensures (a + b)[..|a + b| - 1] == a + b[..|b| - 1] && (a + b)[|a + b| - 1] == b[|b| - 1]
  {
  }

  lemma FrontOfTake<T>(s: seq<T>, n: nat)
    requires n < |s|
    ensures s[..n + 1][..n] == s[..n] && s[..n + 1][n] == s[n]
  {
  }

  lemma HasFirst<T>(s: seq<T>)
    ensures s != [] ==> s[0] in s
  {
  }

  /** Python's `<` on str: lexicographic by code point. */
  predicate Less(a: string, b: string) {
    if b == "" then false
    else if a == "" then true
    else if a[0] != b[0] then a[0] < b[0]
    else Less(a[1..], b[1..])
  }

  lemma {:induction false} LessTransitive(a: string, b: string, c: string)
    requires Less(a, b) && Less(b, c)
    ensures Less(a, c)
  {
    if a != "" && a[0] == b[0] && b[0] == c[0] {
      LessTransitive(a[1..], b[1..], c[1..]);
    }
  }

  lemma {:induction false} LessTotal(a: string, b: string)
    ensures Less(a, b) || a == b || Less(b, a)
    ensures !(Less(a, b) && Less(b, a))
    ensures !Less(a, a)
  {
    if a != "" {
      LessTotal(a[1..], a[1..]);
      if b != "" {
        LessTotal(a[1..], b[1..]);
        assert a == [a[0]] + a[1..] && b == [b[0]] + b[1..];
      }
    }
  }

  lemma SameStart(a: string, b: string, k: nat)
    requires 0 < k <= |a| && k < |b| && a[0] != b[0]
    ensures a[..k] != b[..k]
  {
    assert a[..k][0] == a[0] && b[..k][0] == b[0];
  }

  /** Two texts are in the order of the characters where they first differ, or the shorter is first. */
  lemma {:induction false} LessAtFirstDifference(a: string, b: string)
    ensures Less(a, b) <==> exists k :: 0 <= k <= |a| && k < |b| && a[..k] == b[..k] && (k == |a| || a[k] < b[k])
  {
    if a == "" || b == "" {
      assert a[..0] == b[..0];
    } else if a[0] == b[0] {
      LessAtFirstDifference(a[1..], b[1..]);
      var c, d := a[1..], b[1..];
      if k :| 0 <= k <= |c| && k < |d| && c[..k] == d[..k] && (k == |c| || c[k] < d[k]) {
        assert a[..k + 1] == [a[0]] + c[..k] == b[..k + 1];
      }
      if k :| 0 <= k <= |a| && k < |b| && a[..k] == b[..k] && (k == |a| || a[k] < b[k]) {
        assert k > 0;
        assert a[1..][..k - 1] == a[..k][1..] == b[..k][1..] == b[1..][..k - 1];
      }
    } else {
      assert a[..0] == b[..0];
      forall k | 0 < k <= |a| && k < |b| ensures a[..k] != b[..k] { SameStart(a, b, k); }
    }
  }

  predicate IsLeast(x: string, keys: set<string>) {
    x in keys && forall y :: y in keys && y != x ==> Less(x, y)
  }

  lemma {:induction false} LeastExists(keys: set<string>)
    requires keys != {}
    ensures exists x :: IsLeast(x, keys)
    decreases |keys|
  {
    var k :| k in keys;
    if keys == {k} {
      assert IsLeast(k, keys);
    } else {
      LeastExists(keys - {k});
      var x :| IsLeast(x, keys - {k});
      LessTotal(x, k);
      var m := if Less(x, k) then x else k;
      forall y | y in keys && y != m ensures Less(m, y) {
        if m == k && y != x { LessTransitive(k, x, y); }
      }
      assert IsLeast(m, keys);
    }
  }

  /** Python's `min` of a non-empty set of strings. */
  function Least(keys: set<string>): (x: string)
    requires keys != {}
    ensures IsLeast(x, keys)
  {
    LeastExists(keys);
    assert forall x, y :: IsLeast(x, keys) && IsLeast(y, keys) ==> x == y by {
      forall x, y | IsLeast(x, keys) && IsLeast(y, keys) ensures x == y { LessTotal(x, y); }
    }
    var x :| x in keys && IsLeast(x, keys);
    x
  }

  /** Python's `sorted` of a set of strings. */
  function SortedKeys(keys: set<string>): (xs: seq<string>)
    ensures forall x :: x in xs <==> x in keys
    ensures |xs| == |keys|
    decreases |keys|
  {
    if keys == {} then [] else
      var x := Least(keys);
      var rest := SortedKeys(keys - {x});
      assert forall y :: y in keys <==> y == x || y in rest;
      [x] + rest
  }

  ghost predicate Ascending(xs: seq<string>) {
    forall i, j :: 0 <= i < j < |xs| ==> Less(xs[i], xs[j])
  }

  /** `sorted` really is in order, so it lists no key twice. */
  lemma {:induction false} SortedKeysAscend(keys: set<string>)
    ensures Ascending(SortedKeys(keys))
    decreases |keys|
  {
    if keys != {} {
      var x := Least(keys);
      SortedKeysAscend(keys - {x});
      var rest := SortedKeys(keys - {x});
      forall j | 0 <= j < |rest| ensures Less(x, rest[j]) { assert rest[j] in rest; }
    }
  }

  lemma AscendingDistinct(xs: seq<string>, i: nat, j: nat)
    requires Ascending(xs) && i < j < |xs|
    ensures xs[i] != xs[j]
  {
    LessTotal(xs[i], xs[i]);
  }

  // ------------------------------------------------------------------ decimal

  predicate IsDigit(c: char) { '0' <= c <= '9' }

  function DigitChar(d: nat): (c: char)
    requires d < 10
    ensures IsDigit(c)
  {
    '0' + d as char
  }

  function DigitValue(c: char): (d: nat)
    requires IsDigit(c)
    ensures d < 10
  {
    (c - '0') as nat
  }

  /** Decimal digits without leading zeros, as `str(n)` prints a natural number. */
  function Digits(n: nat): (s: string)
    ensures s != "" && forall i :: 0 <= i < |s| ==> IsDigit(s[i])
    ensures s[0] == '0' ==> n == 0
  {
    if n < 10 then [DigitChar(n)] else Digits(n / 10) + [DigitChar(n % 10)]
  }

  datatype Parsed<+T> = Bad | Good(value: T, rest: string)

  /** Reads the longest run of digits, accumulating onto acc. */
  function ReadNat(s: string, acc: nat): (r: (nat, string))
    ensures |r.1| <= |s|
  {
    if s != "" && IsDigit(s[0]) then ReadNat(s[1..], 10 * acc + DigitValue(s[0])) else (acc, s)
  }

  lemma {:induction false} ReadDigits(n: nat, tail: string)
    ensures ReadNat(Digits(n) + tail, 0) == ReadNat(tail, n)
  {
    if n < 10 {
      assert (Digits(n) + tail)[1..] == tail;
    } else {
      var c := [DigitChar(n % 10)];
      assert Digits(n) + tail == Digits(n / 10) + (c + tail);
      ReadDigits(n / 10, c + tail);
      assert (c + tail)[1..] == tail;
      assert n == 10 * (n / 10) + n % 10;
    }
  }

  /** Zero-padded decimal of exactly `width` digits (the number taken modulo 10^width). */
  function Padded(width: nat, n: nat): (s: string)
    ensures |s| == width && forall i :: 0 <= i < |s| ==> IsDigit(s[i])
  {
    if width == 0 then "" else Padded(width - 1, n / 10) + [DigitChar(n % 10)]
  }

  function Pow10(width: nat): (p: nat)
    ensures p >= 1
  {
    if width == 0 then 1 else 10 * Pow10(width - 1)
  }

  /** Reads exactly `width` digits. */
  function ReadPadded(width: nat, s: string): Parsed<nat> {
    if |s| < width || (exists i :: 0 <= i < width && !IsDigit(s[i])) then Bad
    else Good(ReadNat(s[..width], 0).0, s[width..])
  }

  lemma {:induction false} ReadNatPadded(width: nat, n: nat, tail: string)
    requires n < Pow10(width)
    ensures ReadNat(Padded(width, n) + tail, 0) == ReadNat(tail, n)
  {
    if width == 0 {
      assert Padded(0, n) + tail == tail;
    } else {
      var c := [DigitChar(n % 10)];
      assert Padded(width, n) + tail == Padded(width - 1, n / 10) + (c + tail);
      ReadNatPadded(width - 1, n / 10, c + tail);
      assert (c + tail)[1..] == tail;
    }
  }

  lemma ReadPaddedBack(width: nat, n: nat, tail: string)
    requires n < Pow10(width)
    ensures ReadPadded(width, Padded(width, n) + tail) == Good(n, tail)
  {
    ReadNatPadded(width, n, "");
    var s := Padded(width, n) + tail;
    assert s[..width] == Padded(width, n) == Padded(width, n) + "";
    assert s[width..] == tail;
  }

  predicate AllDigits(s: string) {
    forall i :: 0 <= i < |s| ==> IsDigit(s[i])
  }

  lemma {:induction false} ReadNatSnoc(s: string, c: char, acc: nat)
    requires AllDigits(s) && IsDigit(c)
    ensures ReadNat(s + [c], acc) == (10 * ReadNat(s, acc).0 + DigitValue(c), "")
  {
    if s == "" {
      assert (s + [c])[1..] == "";
    } else {
      assert (s + [c])[1..] == s[1..] + [c];
      ReadNatSnoc(s[1..], c, 10 * acc + DigitValue(s[0]));
    }
  }

  /** The number that digits are read as, padded to their width, is those digits. */
  lemma {:induction false} PaddedOfRead(s: string)
    requires AllDigits(s)
    ensures ReadNat(s, 0).0 < Pow10(|s|) && Padded(|s|, ReadNat(s, 0).0) == s
  {
    if s != "" {
      var n := |s| - 1;
      PaddedOfRead(s[..n]);
      ReadNatSnoc(s[..n], s[n], 0);
      LastBack(s);
    }
  }

  /** What is read as a padded number is nothing but that number, padded. */
  lemma ReadPaddedExactly(width: nat, s: string)
    requires ReadPadded(width, s).Good?
    ensures ReadPadded(width, s).value < Pow10(width)
    ensures s == Padded(width, ReadPadded(width, s).value) + ReadPadded(width, s).rest
  {
    PaddedOfRead(s[..width]);
    Rejoin(s, width);
  }

  /** Numbers of equal width compare as text exactly as they compare as numbers. */
  lemma {:induction false} PaddedOrder(width: nat, m: nat, n: nat, a: string, b: string)
    requires m < Pow10(width) && n < Pow10(width)
    ensures Less(Padded(width, m) + a, Padded(width, n) + b) <==> m < n || (m == n && Less(a, b))
  {
    if width == 0 {
      assert Padded(0, m) + a == a && Padded(0, n) + b == b;
    } else {
      var c, d := [DigitChar(m % 10)], [DigitChar(n % 10)];
      assert Padded(width, m) + a == Padded(width - 1, m / 10) + (c + a);
      assert Padded(width, n) + b == Padded(width - 1, n / 10) + (d + b);
      PaddedOrder(width - 1, m / 10, n / 10, c + a, d + b);
      assert (c + a)[1..] == a && (d + b)[1..] == b;
    }
  }

  // ------------------------------------------------------- separated pieces

  predicate Free(c: char, s: string) { c !in s }

  /** The pieces joined by a separator character. */
  function Join(sep: char, pieces: seq<string>): string
    requires |pieces| > 0
  {
    if |pieces| == 1 then pieces[0] else pieces[0] + [sep] + Join(sep, pieces[1..])
  }

  /** The inverse of Join; like `str.split`, it always returns at least one piece. */
  function Split(sep: char, s: string): (pieces: seq<string>)
    ensures |pieces| > 0
  {
    if s == "" then [""]
    else if s[0] == sep then [""] + Split(sep, s[1..])
    else var rest := Split(sep, s[1..]); [[s[0]] + rest[0]] + rest[1..]
  }

  lemma {:induction false} SplitPiece(sep: char, piece: string, tail: string)
    requires Free(sep, piece)
    ensures Split(sep, piece + [sep] + tail) == [piece] + Split(sep, tail)
    ensures Split(sep, piece) == [piece]
  {
    var s := piece + [sep] + tail;
    if piece == "" {
      assert s[1..] == tail;
    } else {
      SplitPiece(sep, piece[1..], tail);
      assert s[1..] == piece[1..] + [sep] + tail;
      assert piece == [piece[0]] + piece[1..];
      assert piece[0] in piece;
    }
  }

  lemma {:induction false} SplitJoin(sep: char, pieces: seq<string>)
    requires |pieces| > 0 && forall i :: 0 <= i < |pieces| ==> Free(sep, pieces[i])
    ensures Split(sep, Join(sep, pieces)) == pieces
  {
    if |pieces| == 1 {
      SplitPiece(sep, pieces[0], "");
      assert pieces == [pieces[0]];
    } else {
      SplitJoin(sep, pieces[1..]);
      SplitPiece(sep, pieces[0], Join(sep, pieces[1..]));
      assert pieces == [pieces[0]] + pieces[1..];
    }
  }
}
