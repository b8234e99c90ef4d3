/** What timestamps mean: the calendar counted day by day, offsets taken away, and exactly which
    texts are read as which instant. */
module InstantProofs {
  import opened Strings
  import opened Instants

  // ------------------------------------------------------------ the calendar, counted

  /** Thirty days hath September, April, June and November. */
  function DaysIn(year: nat, month: nat): nat {
    if month == 2 then (if IsLeap(year) then 29 else 28)
    else if month == 4 || month == 6 || month == 9 || month == 11 then 30 else 31
  }

  function Tomorrow(d: Date): Date {
    if d.day < DaysIn(d.year, d.month) then Date(d.year, d.month, d.day + 1)
    else if d.month < 12 then Date(d.year, d.month + 1, 1)
    else Date(d.year + 1, 1, 1)
  }

  /** Every date is the date of its day number. */
  lemma {:induction false} DateBack(d: Date)
    requires ValidDate(d)
    ensures DayNumber(d) < CALENDAR_DAYS && DateOf(DayNumber(d)) == d
  {
    hide DateOf, IsLeap;
    DateFits(d);
    DatesCompare(d, DateOf(DayNumber(d)));
    DatesCompare(DateOf(DayNumber(d)), d);
  }

  lemma DateFits(d: Date)
    requires ValidDate(d)
    ensures DayNumber(d) < CALENDAR_DAYS
  {
    hide IsLeap;
    YearLength(d.year);
    YearsGrow(d.year + 1, 10000);
    MonthsGrow(IsLeap(d.year), d.month + 1, 13);
  }

  lemma Ends()
    ensures ValidDate(Date(1, 1, 1)) && DayNumber(Date(1, 1, 1)) == 0
    ensures ValidDate(Date(9999, 12, 31)) && DayNumber(Date(9999, 12, 31)) == CALENDAR_DAYS - 1
  {
  }

  lemma TomorrowIsNext(d: Date)
    requires ValidDate(d) && d != Date(9999, 12, 31)
    ensures ValidDate(Tomorrow(d)) && DayNumber(Tomorrow(d)) == DayNumber(d) + 1
  {
    YearLength(d.year);
  }

  /** Day numbers count the days of the calendar: the first is 1 January of year 1, each is the day
      after the one before it, and the last is 31 December 9999. */
  lemma {:induction false} CalendarIsCounted(n: nat)
    requires n < CALENDAR_DAYS
    ensures n == 0 ==> DateOf(n) == Date(1, 1, 1)
    ensures n + 1 < CALENDAR_DAYS ==> DateOf(n + 1) == Tomorrow(DateOf(n))
    ensures n + 1 == CALENDAR_DAYS <==> DateOf(n) == Date(9999, 12, 31)
  {
    hide DateOf, DayNumber, ValidDate, Tomorrow;
    Ends();
    DateBack(Date(1, 1, 1));
    DateBack(Date(9999, 12, 31));
    if DateOf(n) != Date(9999, 12, 31) {
      TomorrowIsNext(DateOf(n));
      DateBack(Tomorrow(DateOf(n)));
    }
  }

  // ------------------------------------------------------------ offsets

  /** Readings at two offsets print alike exactly when they are one instant. */
  lemma {:induction false} SameInstantPrintsAlike(a: int, b: int, x: int, y: int)
    requires InRange(a) && InRange(b)
    ensures IsoUtcZ(DateTime(a + x, Offset(x))) == IsoUtcZ(DateTime(b + y, Offset(y))) <==> a == b
  {
    hide IsoUtcZ, Stamp;
    IsoUtcZIsStamp(DateTime(a + x, Offset(x)));
    IsoUtcZIsStamp(DateTime(b + y, Offset(y)));
    if Stamp(a) == Stamp(b) { StampInjective(a, b); }
  }

  // ------------------------------------------------------------ texts and readings

  /** The canonical reading of an instant, without its zone. */
  function Bare(t: int): (s: string)
    requires InRange(t)
  {
    IsoDate(t / MICROS_PER_DAY) + "T" + IsoTime(t % MICROS_PER_DAY)
  }

  /** The text spells the instant: canonically, or with six zeros for a whole second. */
  ghost predicate Spells(w: string, t: int) {
    InRange(t) && (w == Bare(t) || (t % 1_000_000 == 0 && w == Bare(t) + ".000000"))
  }

  lemma ReadPairExactly(mark: char, s: string)
    requires ReadPair(mark, s).Good?
    ensures var r := ReadPair(mark, s);
            && r.value.0 < 100 && r.value.1 < 100
            && s == Padded(2, r.value.0) + ([mark] + (Padded(2, r.value.1) + r.rest))
  {
    Pow10Values();
    ReadPaddedExactly(2, s);
    var m := Expect(mark, ReadPadded(2, s).rest);
    ReadPaddedExactly(2, m.rest);
  }

  lemma ReadDateExactly(s: string)
    requires ReadDate(s).Good?
    ensures var r := ReadDate(s); r.value < CALENDAR_DAYS && s == IsoDate(r.value) + r.rest
  {
    hide ReadPair, ReadPadded, ValidDate, DayNumber, DateOf, Padded;
    ReadPaddedExactly(4, s);
    var y := ReadPadded(4, s);
    var m := Expect('-', y.rest);
    var md := ReadPair('-', m.rest);
    ReadPairExactly('-', m.rest);
    var d := Date(y.value, md.value.0, md.value.1);
    DateBack(d);
    var a, b, c := Padded(4, d.year), Padded(2, d.month), Padded(2, d.day);
    assert s == a + ("-" + (b + ("-" + (c + md.rest))));
    assert s == (a + "-" + b + "-" + c) + md.rest;
  }

  /** The fraction of a second, which a whole second need not have. */
  function Fraction(frac: nat, long: bool): string {
    if frac == 0 && !long then "" else "." + Padded(6, frac)
  }

  /** A time of day, with or without the zeros of a whole second. */
  function TimeText(us: nat, long: bool): string {
    var secs := us / 1_000_000;
    Padded(2, secs / 3600) + (":" + (Padded(2, secs / 60 % 60) + (":" + (Padded(2, secs % 60)
      + Fraction(us % 1_000_000, long)))))
  }

  lemma PlainTime(us: nat)
    requires us < MICROS_PER_DAY
    ensures TimeText(us, false) == IsoTime(us)
    ensures us % 1_000_000 == 0 ==> TimeText(us, true) == IsoTime(us) + ".000000"
  {
    hide Padded;
    var secs := us / 1_000_000;
    var a, b, c := Padded(2, secs / 3600), Padded(2, secs / 60 % 60), Padded(2, secs % 60);
    FiveParts(a, b, c, Fraction(us % 1_000_000, false));
    FiveParts(a, b, c, ".000000");
    SixZeros();
    assert a + ":" + b + ":" + c + "" == a + ":" + b + ":" + c;
  }

  lemma FiveParts(a: string, b: string, c: string, d: string)
    ensures a + (":" + (b + (":" + (c + d)))) == a + ":" + b + ":" + c + d
  {
  }

  lemma SixZeros()
    ensures Padded(6, 0) == "000000"
  {
  }

  lemma TimeOfDay(h: nat, m: nat, sec: nat, frac: nat)
    requires h < 24 && m < 60 && sec < 60 && frac < 1_000_000
    ensures var us := ((h * 60 + m) * 60 + sec) * 1_000_000 + frac;
            && us < MICROS_PER_DAY && us % 1_000_000 == frac
            && us / 1_000_000 / 3600 == h && us / 1_000_000 / 60 % 60 == m && us / 1_000_000 % 60 == sec
  {
    var secs := (h * 60 + m) * 60 + sec;
    assert (secs * 1_000_000 + frac) / 1_000_000 == secs;
  }

  lemma FractionRead(s: string)
    requires Expect('.', s).Good? && ReadPadded(6, Expect('.', s).rest).Good?
    ensures var frac := ReadPadded(6, Expect('.', s).rest);
            frac.value < 1_000_000 && s == "." + Padded(6, frac.value) + frac.rest
  {
    hide Padded, ReadPadded;
    Pow10Values();
    ReadPaddedExactly(6, Expect('.', s).rest);
    assert s == "." + Expect('.', s).rest;
  }

  lemma ReadTimeExactly(s: string) returns (long: bool)
    requires ReadTime(s).Good?
    ensures var r := ReadTime(s); r.value < MICROS_PER_DAY && s == TimeText(r.value, long) + r.rest
    ensures long ==> ReadTime(s).value % 1_000_000 == 0
  {
    hide ReadPair, ReadPadded, Padded;
    var r := ReadTime(s);
    var hm := ReadPair(':', s);
    ReadPairExactly(':', s);
    var m := Expect(':', hm.rest);
    var sec := ReadPadded(2, m.rest);
    ReadPaddedExactly(2, m.rest);
    var dot := Expect('.', sec.rest);
    var frac := 0;
    var f := "";
    long := false;
    if dot.Good? {
      FractionRead(sec.rest);
      frac := ReadPadded(6, dot.rest).value;
      long := frac == 0;
      f := "." + Padded(6, frac);
    }
    assert sec.rest == f + r.rest;
    TimeOfDay(hm.value.0, hm.value.1, sec.value, frac);
    JoinTime(Padded(2, hm.value.0), Padded(2, hm.value.1), Padded(2, sec.value), f, r.rest);
  }

  lemma JoinTime(a: string, b: string, c: string, f: string, tail: string)
    ensures a + ([':'] + (b + ([':'] + (c + (f + tail))))) == (a + (":" + (b + (":" + (c + f))))) + tail
  {
  }

  lemma TimeHasNoPlus(us: nat, long: bool)
    requires us < MICROS_PER_DAY && (long ==> us % 1_000_000 == 0)
    ensures Free('+', TimeText(us, long))
  {
    PlainTime(us);
  }

  lemma Spelled(n: nat, us: nat, long: bool)
    requires n < CALENDAR_DAYS && us < MICROS_PER_DAY && (long ==> us % 1_000_000 == 0)
    ensures var w := IsoDate(n) + "T" + TimeText(us, long); Spells(w, n * MICROS_PER_DAY + us) && Free('+', w)
  {
    hide IsoDate, IsoTime, TimeText, InRange;
    PlainTime(us);
    TimeHasNoPlus(us, long);
    DayAndTime(n, us);
    assert us % 1_000_000 == 0 ==> (n * MICROS_PER_DAY + us) % 1_000_000 == 0;
    assert IsoDate(n) + "T" + (IsoTime(us) + ".000000") == IsoDate(n) + "T" + IsoTime(us) + ".000000";
  }

  /** Whatever is read as a date and time spells the instant that is read, up to where the zone begins. */
  lemma FromIsoExactly(text: string) returns (w: string, z: string)
    requires FromIsoFormat(text).Ok?
    ensures var dt := FromIsoFormat(text).value;
            text == w + z && Spells(w, dt.local) && Free('+', w) && ReadZone(z) == Ok(dt.zone)
  {
    hide ReadDate, ReadTime, ReadZone, IsoDate, TimeText, Spells, Free;
    var d := ReadDate(text);
    var t := Expect('T', d.rest);
    var us := ReadTime(t.rest);
    ReadDateExactly(text);
    var long := ReadTimeExactly(t.rest);
    Spelled(d.value, us.value, long);
    w, z := IsoDate(d.value) + "T" + TimeText(us.value, long), us.rest;
    assert d.rest == ['T'] + t.rest;
  }

  lemma DayAndTime(n: nat, us: nat)
    requires n < CALENDAR_DAYS && us < MICROS_PER_DAY
    ensures var t := n * MICROS_PER_DAY + us; InRange(t) && t / MICROS_PER_DAY == n && t % MICROS_PER_DAY == us
  {
  }

  /** A zone that may follow a reading. */
  predicate ZoneText(z: string) { z != "" ==> z[0] == '+' || z[0] == '-' }

  lemma ReadLongTime(us: nat, tail: string)
    requires us < MICROS_PER_DAY && us % 1_000_000 == 0
    ensures ReadTime(IsoTime(us) + ".000000" + tail) == Good(us, tail)
  {
    hide ReadTime, Padded, ReadPadded, ReadPair, IsoTime;
    Pow10Values();
    TimeParts(us);
    PlainTime(us);
    var secs := us / 1_000_000;
    var a, b, c := Padded(2, secs / 3600), Padded(2, secs / 60 % 60), Padded(2, secs % 60);
    var afterSec := "." + Padded(6, 0) + tail;
    JoinTime(a, b, c, "." + Padded(6, 0), tail);
    assert TimeText(us, true) == a + (":" + (b + (":" + (c + ("." + Padded(6, 0))))));
    ReadPairBack(':', secs / 3600, secs / 60 % 60, [':'] + (c + afterSec));
    ReadPaddedBack(2, secs % 60, afterSec);
    ReadPaddedBack(6, 0, tail);
    assert afterSec[1..] == Padded(6, 0) + tail;
    ReadPieces(IsoTime(us) + ".000000" + tail, secs / 3600, secs / 60 % 60, secs % 60, c + afterSec, afterSec, tail);
  }

  lemma ReadPieces(s: string, h: nat, m: nat, sec: nat, afterPair: string, afterSec: string, tail: string)
    requires h < 24 && m < 60 && sec < 60
    requires ReadPair(':', s) == Good((h, m), [':'] + afterPair) && ReadPadded(2, afterPair) == Good(sec, afterSec)
    requires Expect('.', afterSec).Good? && ReadPadded(6, Expect('.', afterSec).rest) == Good(0, tail)
    ensures ReadTime(s) == Good(((h * 60 + m) * 60 + sec) * 1_000_000, tail)
  {
    assert ([':'] + afterPair)[1..] == afterPair;
  }

  /** Either spelling is read as the instant, in whatever zone follows. */
  lemma SpelledIsRead(w: string, t: int, z: string)
    requires Spells(w, t) && ZoneText(z) && ReadZone(z).Ok?
    ensures FromIsoFormat(w + z) == Ok(DateTime(t, ReadZone(z).value))
  {
    hide ReadDate, ReadTime, ReadZone, IsoDate, IsoTime;
    var n, us := t / MICROS_PER_DAY, t % MICROS_PER_DAY;
    var time := if w == Bare(t) then IsoTime(us) else IsoTime(us) + ".000000";
    assert w + z == IsoDate(n) + (['T'] + (time + z));
    ReadDateBack(n, ['T'] + (time + z));
    assert (['T'] + (time + z))[1..] == time + z;
    if w == Bare(t) {
      ReadTimeBack(us, z);
    } else {
      assert us % 1_000_000 == 0;
      ReadLongTime(us, z);
    }
  }

  // ------------------------------------------------------------ which texts are which instant

  function HourMinute(h: nat, m: nat): string { Padded(2, h) + ":" + Padded(2, m) }

  /** How far ahead of UTC a signed offset says the reading is, in microseconds. */
  function Ahead(sign: char, h: nat, m: nat): int {
    var us: int := (h * 3600 + m * 60) * 1_000_000;
    if sign == '+' then us else -us
  }

  predicate Signed(z: string, sign: char, h: nat, m: nat) {
    (sign == '+' || sign == '-') && h < 24 && m < 60 && z == [sign] + HourMinute(h, m)
  }

  /** The end of a timestamp, and how far ahead of UTC it says the reading is. */
  ghost predicate ZoneMeans(z: string, offset: int) {
    || ((z == "" || z == "Z") && offset == 0)
    || exists sign, h, m :: Signed(z, sign, h, m) && offset == Ahead(sign, h, m)
  }

  lemma ReadSigned(sign: char, h: nat, m: nat)
    requires (sign == '+' || sign == '-') && h < 24 && m < 60
    ensures ReadZone([sign] + HourMinute(h, m)) == Ok(Offset(Ahead(sign, h, m)))
  {
    hide ReadPair, Padded;
    ReadPairBack(':', h, m, "");
    assert ([sign] + HourMinute(h, m))[1..] == Padded(2, h) + ([':'] + (Padded(2, m) + ""));
  }

  lemma ReadSignedExactly(z: string) returns (h: nat, m: nat)
    requires z != "" && ReadZone(z).Ok?
    ensures Signed(z, z[0], h, m)
    ensures ReadZone(z) == Ok(Offset(Ahead(z[0], h, m)))
  {
    hide ReadPair, Padded;
    var hm := ReadPair(':', z[1..]);
    ReadPairExactly(':', z[1..]);
    h, m := hm.value.0, hm.value.1;
    assert z[1..] == HourMinute(h, m);
    assert z == [z[0]] + z[1..];
  }

  lemma SpelledEnds(w: string, t: int)
    requires Spells(w, t)
    ensures w != "" && IsDigit(w[|w| - 1])
  {
    hide IsoDate, Padded;
    PlainTime(t % MICROS_PER_DAY);
    assert ".000000"[6] == '0';
  }

  lemma SignedEnds(sign: char, h: nat, m: nat)
    ensures var z := [sign] + HourMinute(h, m); |z| == 6 && IsDigit(z[5])
  {
  }

  lemma LastOfSum(a: string, b: string)
    requires b != ""
    ensures a + b != "" && (a + b)[|a + b| - 1] == b[|b| - 1] && (a + b)[..|a + b| - 1] == a + b[..|b| - 1]
  {
  }

  /** A reading with a zone after it is read as the reading, less what the zone is ahead of UTC. */
  lemma ZoneIsTakenAway(w: string, z: string, local: int, offset: int)
    requires Spells(w, local) && ZoneMeans(z, offset)
    ensures ParseIsoUtc(w + z)
         == if InRange(local - offset) then Ok(DateTime(local - offset, Offset(0))) else OverflowError
  {
    hide Spells, FromIsoFormat, HourMinute, ReadZone, InRange;
    SpelledEnds(w, local);
    if z == "Z" {
      LastOfSum(w, z);
      assert w + z[..0] == w;
      ReadUtcOffset();
      SpelledIsRead(w, local, "+00:00");
    } else if z == "" {
      assert w + z == w;
      NoZone();
      SpelledIsRead(w, local, z);
    } else {
      var sign, h, m :| Signed(z, sign, h, m) && offset == Ahead(sign, h, m);
      SignedEnds(sign, h, m);
      LastOfSum(w, z);
      ReadSigned(sign, h, m);
      SpelledIsRead(w, local, z);
    }
  }

  lemma NoZone()
    ensures ReadZone("") == Ok(Naive)
  {
  }

  /** The texts that are read as an instant: a reading, spelled one of the two ways, and a zone. */
  lemma {:induction false} ParsesExactly(s: string, t: int)
    ensures ParseIsoUtc(s) == Ok(DateTime(t, Offset(0))) <==>
      InRange(t) && exists w, z, offset :: s == w + z && Spells(w, t + offset) && ZoneMeans(z, offset)
  {
    hide Spells, FromIsoFormat, ReadZone, InRange, HourMinute, Signed;
    if ParseIsoUtc(s) == Ok(DateTime(t, Offset(0))) {
      var w, z, offset := ParsedPieces(s);
      assert s == w + z && Spells(w, t + offset) && ZoneMeans(z, offset);
    }
    if w, z, offset :| s == w + z && Spells(w, t + offset) && ZoneMeans(z, offset) {
      ZoneIsTakenAway(w, z, t + offset, offset);
    }
  }

  lemma ParsedPieces(s: string) returns (w: string, z: string, offset: int)
    requires ParseIsoUtc(s).Ok?
    ensures s == w + z && Spells(w, ParseIsoUtc(s).value.local + offset) && ZoneMeans(z, offset)
  {
    hide Spells, FromIsoFormat, ReadZone, HourMinute, Signed;
    var text := if EndsWith(s, 'Z') then s[..|s| - 1] + "+00:00" else s;
    w, z := FromIsoExactly(text);
    if EndsWith(s, 'Z') {
      ReadUtcOffset();
      PlusIsTheZone(s[..|s| - 1], w, z);
      offset := 0;
      z := "Z";
      LastBack(s);
    } else if z == "" {
      NoZone();
      offset := 0;
    } else {
      var h, m := ReadSignedExactly(z);
      offset := Ahead(z[0], h, m);
    }
  }

  /** The zone of a text that ends in a UTC offset is that offset. */
  lemma PlusIsTheZone(v: string, w: string, z: string)
    requires v + "+00:00" == w + z && Free('+', w) && ReadZone(z).Ok?
    ensures v == w && z == "+00:00"
  {
    var text := v + "+00:00";
    assert text[|v|] == '+';
    forall i | 0 <= i < |w| ensures w[i] != '+' && text[i] == w[i] { assert w[i] in w; }
    if z != "" {
      var h, m := ReadSignedExactly(z);
      SignedEnds(z[0], h, m);
    }
    assert |w| <= |v|;
    assert |z| == 6;
    assert text[..|v|] == v && text[..|w|] == w && text[|v|..] == "+00:00" && text[|w|..] == z;
  }

  /** Of the texts that end in Z and are read as the instant the canonical one is the shortest, so it
      has microseconds only if they are not zero. */
  lemma {:induction false} StampIsShortest(s: string, t: int)
    requires InRange(t) && EndsWith(s, 'Z') && ParseIsoUtc(s) == Ok(DateTime(t, Offset(0)))
    ensures s == Stamp(t) || |s| > |Stamp(t)|
  {
    hide ParseIsoUtc, IsoDate, IsoTime, HourMinute;
    ParsesExactly(s, t);
    var w, z, offset :| s == w + z && Spells(w, t + offset) && ZoneMeans(z, offset);
    SpelledEnds(w, t + offset);
    if z != "Z" {
      if z != "" {
        var sign, h, m :| Signed(z, sign, h, m) && offset == Ahead(sign, h, m);
        SignedEnds(sign, h, m);
        LastOfSum(w, z);
      }
    }
  }

  // ------------------------------------------------------------ date keys

  function Zeros(k: nat): string { seq(k, _ => '0') }

  lemma {:induction false} PaddedWithZeros(width: nat, k: nat, n: nat)
    requires n < Pow10(width)
    ensures Padded(k + width, n) == Zeros(k) + Padded(width, n)
    decreases k + width
  {
    if width > 0 {
      PaddedWithZeros(width - 1, k, n / 10);
      Associate(Zeros(k), Padded(width - 1, n / 10), [DigitChar(n % 10)]);
    } else if k > 0 {
      PaddedWithZeros(0, k - 1, 0);
    }
  }

  /** `lstrip("0")`. */
  function WithoutZeros(s: string): string {
    if s != "" && s[0] == '0' then WithoutZeros(s[1..]) else s
  }

  lemma {:induction false} ZerosGo(k: nat, s: string)
    requires s != "" && s[0] != '0'
    ensures WithoutZeros(Zeros(k) + s) == s
  {
    if k == 0 {
      assert Zeros(0) + s == s;
    } else {
      ZerosGo(k - 1, s);
      assert (Zeros(k) + s)[1..] == Zeros(k - 1) + s;
    }
  }

  /** How many digits a year has. */
  function Width(year: nat): nat {
    if year < 10 then 1 else if year < 100 then 2 else if year < 1000 then 3 else 4
  }

  lemma YearDigits(year: nat)
    requires 1 <= year <= 9999
    ensures Padded(4, year) == Zeros(4 - Width(year)) + Digits(year) && Digits(year)[0] != '0'
  {
    hide Padded, Digits;
    assert Pow10(1) == 10 && Pow10(2) == 100 && Pow10(3) == 1000 && Pow10(4) == 10_000;
    DigitsArePadded(year, Width(year));
    PaddedWithZeros(Width(year), 4 - Width(year), year);
  }

  /** The partition of an instant is the date its own timestamp prints, without leading zeros; so
      from year 1000 on it is the first ten characters of the timestamp. */
  lemma {:induction false} DateKeyIsPrinted(t: int)
    requires InRange(t)
    ensures |Stamp(t)| > 10 && DateKey(DayOf(t)) == WithoutZeros(Stamp(t)[..10])
    ensures Stamp(t)[0] != '0' ==> DateKey(DayOf(t)) == Stamp(t)[..10]
  {
    hide DateOf, Padded, Digits, IsoTime;
    var d := DateOf(t / MICROS_PER_DAY);
    YearDigits(d.year);
    var z, y, rest := Zeros(4 - Width(d.year)), Digits(d.year), MonthDay(d);
    assert IsoDate(t / MICROS_PER_DAY) == (z + y) + rest;
    Associate(z, y, rest);
    assert Stamp(t)[..10] == IsoDate(t / MICROS_PER_DAY);
    ZerosGo(4 - Width(d.year), y + rest);
  }

  // ------------------------------------------------------------ texts that tests fix

  /** 31 March 2026, 12:00:00 UTC. */
  function Noon(): int { 739_705 * MICROS_PER_DAY + 43_200_000_000 }

  lemma NoonDate()
    ensures InRange(Noon()) && IsoDate(739_705) == "2026-03-31"
  {
    hide DateOf, DayNumber, ValidDate, Padded;
    NoonNumber();
    DateBack(Date(2026, 3, 31));
    TwoDigits();
    assert "2026" + "-" + "03" + "-" + "31" == "2026-03-31";
  }

  lemma NoonNumber()
    ensures ValidDate(Date(2026, 3, 31)) && DayNumber(Date(2026, 3, 31)) == 739_705
  {
  }

  lemma TwoDigits()
    ensures Padded(2, 0) == "00" && Padded(2, 3) == "03" && Padded(2, 12) == "12" && Padded(2, 31) == "31"
    ensures Padded(4, 2026) == "2026" && Padded(6, 123456) == "123456"
  {
  }

  lemma NoonTime()
    ensures IsoTime(43_200_000_000) == "12:00:00" && IsoTime(43_200_123_456) == "12:00:00.123456"
  {
    hide Padded;
    TwoDigits();
    assert Clock(12, 0, 0, 0) == "12:00:00" && Clock(12, 0, 0, 123456) == "12:00:00.123456";
  }

  /** Whole seconds have no fraction, microseconds are kept, and another offset is brought to UTC. */
  lemma {:induction false} TimestampTexts()
    ensures IsoUtcZ(DateTime(Noon(), Offset(0))) == Ok("2026-03-31T12:00:00Z")
    ensures IsoUtcZ(DateTime(Noon() + 123456, Offset(0))) == Ok("2026-03-31T12:00:00.123456Z")
    ensures IsoUtcZ(DateTime(Noon() + 5 * 3600 * 1_000_000, Offset(5 * 3600 * 1_000_000))) == Ok("2026-03-31T12:00:00Z")
  {
    hide IsoUtcZ, IsoDate, IsoTime;
    NoonDate();
    NoonTime();
    IsoUtcZIsStamp(DateTime(Noon(), Offset(0)));
    IsoUtcZIsStamp(DateTime(Noon() + 123456, Offset(0)));
    IsoUtcZIsStamp(DateTime(Noon() + 5 * 3600 * 1_000_000, Offset(5 * 3600 * 1_000_000)));
    assert "2026-03-31" + "T" + "12:00:00" + "Z" == "2026-03-31T12:00:00Z";
    assert "2026-03-31" + "T" + "12:00:00.123456" + "Z" == "2026-03-31T12:00:00.123456Z";
  }
}
