/** Timestamps: the proleptic Gregorian calendar of Python's datetime (years 1 to 9999), the one
    canonical UTC text form (RFC 3339 section 5.6), its reader, and the lake's date keys. */
module Instants {
  import opened Strings

  const MICROS_PER_DAY := 86_400_000_000
  const MICROS_PER_MINUTE := 60_000_000

  /** Days in the years 1 to 9999. */
  const CALENDAR_DAYS := 3_652_059

  datatype Zone = Naive | Offset(micros: int)

  /** A wall-clock reading, in microseconds since 0001-01-01T00:00:00, with its UTC offset. */
  datatype DateTime = DateTime(local: int, zone: Zone)

  datatype Outcome<+T> = Ok(value: T) | ValueError | OverflowError

  /** An instant datetime can hold, in microseconds since 0001-01-01T00:00:00Z. */
  predicate InRange(t: int) { 0 <= t < CALENDAR_DAYS * MICROS_PER_DAY }

  /** `astimezone(timezone.utc)`, as the instant. */
  function ToUtc(dt: DateTime): Outcome<int> {
    match dt.zone
    case Naive => ValueError
    case Offset(us) => if InRange(dt.local - us) then Ok(dt.local - us) else OverflowError
  }

  // ------------------------------------------------------------ calendar

  predicate IsLeap(y: nat) { y % 4 == 0 && (y % 100 != 0 || y % 400 == 0) }

  function DaysBeforeYear(y: nat): nat
    requires y >= 1
  {
    (y - 1) * 365 + (y - 1) / 4 - (y - 1) / 100 + (y - 1) / 400
  }

  lemma YearLength(y: nat)
    requires y >= 1
    ensures DaysBeforeYear(y + 1) == DaysBeforeYear(y) + (if IsLeap(y) then 366 else 365)
  {
    NextFourth(y - 1);
    NextCentury(y - 1);
    NextCycle(y - 1);
  }

  lemma NextFourth(x: nat)
    ensures (x + 1) / 4 == x / 4 + (if (x + 1) % 4 == 0 then 1 else 0)
  {
  }

  lemma NextCentury(x: nat)
    ensures (x + 1) / 100 == x / 100 + (if (x + 1) % 100 == 0 then 1 else 0)
    ensures (x + 1) % 100 == 0 ==> (x + 1) % 4 == 0
  {
  }

  lemma NextCycle(x: nat)
    ensures (x + 1) / 400 == x / 400 + (if (x + 1) % 400 == 0 then 1 else 0)
    ensures (x + 1) % 400 == 0 ==> (x + 1) % 100 == 0
  {
  }

  /** Days of the year before month m; month 13 stands for the end of December. */
  function DaysBeforeMonth(leap: bool, m: nat): nat
    requires 1 <= m <= 13
  {
    var feb := if leap then 29 else 28;
    if m == 1 then 0 else if m == 2 then 31 else
      31 + feb + [0, 31, 61, 92, 122, 153, 184, 214, 245, 275, 306][m - 3]
  }

  datatype Date = Date(year: nat, month: nat, day: nat)

  predicate ValidDate(d: Date) {
    && 1 <= d.year <= 9999
    && 1 <= d.month <= 12
    && 1 <= d.day <= DaysBeforeMonth(IsLeap(d.year), d.month + 1) - DaysBeforeMonth(IsLeap(d.year), d.month)
  }

  /** Days since 0001-01-01. */
  function DayNumber(d: Date): nat
    requires ValidDate(d)
  {
    DaysBeforeYear(d.year) + DaysBeforeMonth(IsLeap(d.year), d.month) + d.day - 1
  }

  function YearOf(n: nat, from: nat := 1): (y: nat)
    requires from >= 1 && DaysBeforeYear(from) <= n
    ensures y >= from && DaysBeforeYear(y) <= n < DaysBeforeYear(y + 1)
    decreases n - DaysBeforeYear(from)
  {
    YearLength(from);
    if n < DaysBeforeYear(from + 1) then from else YearOf(n, from + 1)
  }

  function MonthOf(leap: bool, n: nat, from: nat := 1): (m: nat)
    requires 1 <= from <= 12 && DaysBeforeMonth(leap, from) <= n < DaysBeforeMonth(leap, 13)
    ensures from <= m <= 12 && DaysBeforeMonth(leap, m) <= n < DaysBeforeMonth(leap, m + 1)
    decreases 12 - from
  {
    if n < DaysBeforeMonth(leap, from + 1) then from else MonthOf(leap, n, from + 1)
  }

  lemma {:induction false} YearsGrow(y: nat, z: nat)
    requires 1 <= y <= z
    ensures DaysBeforeYear(y) + 365 * (z - y) <= DaysBeforeYear(z)
    decreases z - y
  {
    if y < z { YearLength(y); YearsGrow(y + 1, z); }
  }

  lemma YearBound(y: nat, n: nat)
    requires y >= 1 && DaysBeforeYear(y) <= n < CALENDAR_DAYS
    ensures y <= 9999
  {
    if y > 9999 {
      YearsGrow(10000, y);
      assert false;
    }
  }

  /** The calendar date of a day number. */
  function DateOf(n: nat): (d: Date)
    requires n < CALENDAR_DAYS
    ensures ValidDate(d) && DayNumber(d) == n
  {
    var y := YearOf(n);
    YearBound(y, n);
    YearLength(y);
    var m := MonthOf(IsLeap(y), n - DaysBeforeYear(y));
    Date(y, m, n - DaysBeforeYear(y) - DaysBeforeMonth(IsLeap(y), m) + 1)
  }

  ghost predicate DateBefore(a: Date, b: Date) {
    a.year < b.year || (a.year == b.year && (a.month < b.month || (a.month == b.month && a.day < b.day)))
  }

  lemma MonthsGrow(leap: bool, m: nat, k: nat)
    requires 1 <= m <= k <= 13
    ensures DaysBeforeMonth(leap, m) <= DaysBeforeMonth(leap, k)
  {
  }

  /** Calendar order is day order. */
  lemma DateOrder(m: nat, n: nat)
    requires m < CALENDAR_DAYS && n < CALENDAR_DAYS
    ensures m < n <==> DateBefore(DateOf(m), DateOf(n))
  {
    DatesCompare(DateOf(m), DateOf(n));
  }

  lemma DatesCompare(a: Date, b: Date)
    requires ValidDate(a) && ValidDate(b)
    ensures DayNumber(a) < DayNumber(b) <==> DateBefore(a, b)
  {
    if DateBefore(a, b) {
      DatesApart(a, b);
    } else if a != b {
      DatesApart(b, a);
    }
  }

  lemma DatesApart(a: Date, b: Date)
    requires ValidDate(a) && ValidDate(b) && DateBefore(a, b)
    ensures DayNumber(a) < DayNumber(b)
  {
    YearLength(a.year);
    MonthsGrow(IsLeap(a.year), a.month + 1, 13);
    if a.year < b.year {
      YearsGrow(a.year + 1, b.year);
    } else if a.month < b.month {
      MonthsGrow(IsLeap(a.year), a.month + 1, b.month);
    }
  }

  // ------------------------------------------------------------ writing

  /** `date.isoformat()`. */
  function IsoDate(n: nat): (s: string)
    requires n < CALENDAR_DAYS
    ensures |s| == 10 && Free('+', s)
  {
    var d := DateOf(n);
    Padded(4, d.year) + "-" + Padded(2, d.month) + "-" + Padded(2, d.day)
  }

  /** `time.isoformat()`: microseconds appear only when they are not zero. */
  function IsoTime(us: nat): (s: string)
    requires us < MICROS_PER_DAY
    ensures Free('+', s)
  {
    var secs := us / 1_000_000;
    Clock(secs / 3600, secs / 60 % 60, secs % 60, us % 1_000_000)
  }

  function Clock(h: nat, m: nat, sec: nat, frac: nat): (s: string)
    ensures Free('+', s)
  {
    Padded(2, h) + ":" + Padded(2, m) + ":" + Padded(2, sec) + (if frac == 0 then "" else "." + Padded(6, frac))
  }

  /** `datetime.isoformat()` of a UTC instant. */
  function IsoFormat(t: int): string
    requires InRange(t)
  {
    IsoDate(t / MICROS_PER_DAY) + "T" + IsoTime(t % MICROS_PER_DAY) + "+00:00"
  }

  /** `str.replace`: every occurrence, left to right. */
  function Replace(s: string, find: string, put: string): string
    requires find != ""
  {
    if s == "" then ""
    else if find <= s then put + Replace(s[|find|..], find, put)
    else [s[0]] + Replace(s[1..], find, put)
  }

  /** `iso_utc_z`. */
  function IsoUtcZ(dt: DateTime): Outcome<string> {
    match ToUtc(dt)
    case Ok(t) => Ok(Replace(IsoFormat(t), "+00:00", "Z"))
    case ValueError => ValueError
    case OverflowError => OverflowError
  }

  /** The canonical text of an instant. */
  function Stamp(t: int): string
    requires InRange(t)
  {
    IsoDate(t / MICROS_PER_DAY) + "T" + IsoTime(t % MICROS_PER_DAY) + "Z"
  }

  lemma {:induction false} ReplaceOffset(body: string)
    requires Free('+', body)
    ensures Replace(body + "+00:00", "+00:00", "Z") == body + "Z"
  {
    var s := body + "+00:00";
    if body == "" {
      assert s[6..] == "" && "+00:00" <= s;
      assert "Z" + "" == body + "Z";
    } else {
      assert body[0] in body;
      assert "+00:00"[0] != body[0] == s[0];
      ReplaceOffset(body[1..]);
      assert s[1..] == body[1..] + "+00:00";
      assert [body[0]] + (body[1..] + "Z") == body + "Z";
    }
  }

  /** The text is that of the reading less its offset: it depends on the instant alone. */
  lemma {:induction false} IsoUtcZIsStamp(dt: DateTime)
    ensures IsoUtcZ(dt) == match dt.zone
      case Naive => ValueError
      case Offset(us) => if InRange(dt.local - us) then Ok(Stamp(dt.local - us)) else OverflowError
  {
    hide IsoDate, IsoTime, Replace;
    if dt.zone.Offset? && InRange(dt.local - dt.zone.micros) {
      var t := dt.local - dt.zone.micros;
      ReplaceOffset(IsoDate(t / MICROS_PER_DAY) + "T" + IsoTime(t % MICROS_PER_DAY));
    }
  }

  // ------------------------------------------------------------ reading

  function Expect(c: char, s: string): Parsed<()> {
    if s != "" && s[0] == c then Good((), s[1..]) else Bad
  }

  /** Two digits, a mark, two more: "HH:MM", say. */
  function ReadPair(mark: char, s: string): Parsed<(nat, nat)> {
    var a := ReadPadded(2, s);
    if a.Bad? then Bad else
      var m := Expect(mark, a.rest);
      if m.Bad? then Bad else
        var b := ReadPadded(2, m.rest);
        if b.Bad? then Bad else Good((a.value, b.value), b.rest)
  }

  function ReadDate(s: string): Parsed<nat> {
    var y := ReadPadded(4, s);
    if y.Bad? then Bad else
      var m := Expect('-', y.rest);
      if m.Bad? then Bad else
        var md := ReadPair('-', m.rest);
        if md.Bad? then Bad else
          var d := Date(y.value, md.value.0, md.value.1);
          if ValidDate(d) then Good(DayNumber(d), md.rest) else Bad
  }

  function ReadTime(s: string): Parsed<nat> {
    var hm := ReadPair(':', s);
    if hm.Bad? || hm.value.0 >= 24 || hm.value.1 >= 60 then Bad else
      var m := Expect(':', hm.rest);
      if m.Bad? then Bad else
        var sec := ReadPadded(2, m.rest);
        if sec.Bad? || sec.value >= 60 then Bad else
          var whole := ((hm.value.0 * 60 + hm.value.1) * 60 + sec.value) * 1_000_000;
          var dot := Expect('.', sec.rest);
          if dot.Bad? then Good(whole, sec.rest) else
            var frac := ReadPadded(6, dot.rest);
            if frac.Bad? then Bad else Good(whole + frac.value, frac.rest)
  }

  /** The end of the text: nothing, or a signed offset. */
  function ReadZone(s: string): Outcome<Zone> {
    if s == "" then Ok(Naive)
    else if s[0] != '+' && s[0] != '-' then ValueError
    else
      var hm := ReadPair(':', s[1..]);
      if hm.Bad? || hm.rest != "" || hm.value.0 >= 24 || hm.value.1 >= 60 then ValueError
      else
        var us: int := (hm.value.0 * 60 + hm.value.1) * MICROS_PER_MINUTE;
        Ok(Offset(if s[0] == '+' then us else -us))
  }

  /** `datetime.fromisoformat`, for the extended form with optional microseconds and offset. */
  function FromIsoFormat(s: string): Outcome<DateTime> {
    var d := ReadDate(s);
    if d.Bad? then ValueError else
      var t := Expect('T', d.rest);
      if t.Bad? then ValueError else
        var us := ReadTime(t.rest);
        if us.Bad? then ValueError else
          var z := ReadZone(us.rest);
          if z.Ok? then Ok(DateTime(d.value * MICROS_PER_DAY + us.value, z.value)) else ValueError
  }

  predicate EndsWith(s: string, c: char) { s != "" && s[|s| - 1] == c }

  /** `parse_iso_utc`: 'Z' or an offset, and a bare reading is taken as UTC; the instant, in UTC. */
  function ParseIsoUtc(s: string): (r: Outcome<DateTime>)
    ensures r.Ok? ==> InRange(r.value.local) && r.value.zone == Offset(0)
  {
    var text := if EndsWith(s, 'Z') then s[..|s| - 1] + "+00:00" else s;
    match FromIsoFormat(text)
    case Ok(dt) =>
      var aware := if dt.zone.Naive? then dt.(zone := Offset(0)) else dt;
      (match ToUtc(aware)
       case Ok(t) => Ok(DateTime(t, Offset(0)))
       case ValueError => ValueError
       case OverflowError => OverflowError)
    case ValueError => ValueError
    case OverflowError => OverflowError
  }

  lemma Pow10Values()
    ensures Pow10(2) == 100 && Pow10(4) == 10_000 && Pow10(6) == 1_000_000
  {
  }

  lemma ReadPairBack(mark: char, a: nat, b: nat, tail: string)
    requires a < 100 && b < 100
    ensures ReadPair(mark, Padded(2, a) + ([mark] + (Padded(2, b) + tail))) == Good((a, b), tail)
  {
    Pow10Values();
    var rest := Padded(2, b) + tail;
    ReadPaddedBack(2, a, [mark] + rest);
    ReadPaddedBack(2, b, tail);
    assert ([mark] + rest)[1..] == rest;
  }

  lemma ReadDateBack(n: nat, tail: string)
    requires n < CALENDAR_DAYS
    ensures ReadDate(IsoDate(n) + tail) == Good(n, tail)
  {
    hide DateOf, DayNumber, ReadPair, ReadPadded, Padded, DaysBeforeMonth;
    Pow10Values();
    var d := DateOf(n);
    var y, m, day := Padded(4, d.year), Padded(2, d.month), Padded(2, d.day);
    var md := m + (['-'] + (day + tail));
    Regroup(y, "-", m, "-", day, "", tail);
    assert (y + "-" + m + "-" + day) + tail == (y + "-" + m + "-" + day + "") + tail;
    assert IsoDate(n) + tail == y + (['-'] + md) by { assert "" + tail == tail; }
    MonthDayInRange(d);
    ReadPaddedBack(4, d.year, ['-'] + md);
    assert (['-'] + md)[1..] == md;
    ReadPairBack('-', d.month, d.day, tail);
  }

  lemma Regroup(a: string, b: string, c: string, d: string, e: string, f: string, tail: string)
    ensures (a + b + c + d + e + f) + tail == a + (b + (c + (d + (e + (f + tail)))))
  {
  }

  lemma MonthDayInRange(d: Date)
    requires ValidDate(d)
    ensures 1 <= d.year <= 9999 && d.month < 100 && d.day < 100
  {
  }

  lemma TimeParts(us: nat)
    requires us < MICROS_PER_DAY
    ensures var secs := us / 1_000_000;
            secs / 3600 < 24 &&
            us == ((secs / 3600 * 60 + secs / 60 % 60) * 60 + secs % 60) * 1_000_000 + us % 1_000_000
  {
  }

  lemma ReadClockBack(h: nat, m: nat, sec: nat, frac: nat, tail: string)
    requires h < 24 && m < 60 && sec < 60 && frac < 1_000_000 && (tail != "" ==> tail[0] != '.')
    ensures ReadTime(Clock(h, m, sec, frac) + tail) == Good(((h * 60 + m) * 60 + sec) * 1_000_000 + frac, tail)
  {
    Pow10Values();
    var f := if frac == 0 then "" else "." + Padded(6, frac);
    Regroup(Padded(2, h), ":", Padded(2, m), ":", Padded(2, sec), f, tail);
    ReadPairBack(':', h, m, [':'] + (Padded(2, sec) + (f + tail)));
    assert ([':'] + (Padded(2, sec) + (f + tail)))[1..] == Padded(2, sec) + (f + tail);
    ReadPaddedBack(2, sec, f + tail);
    ReadFraction(frac, tail);
    ReadTimePieces(Clock(h, m, sec, frac) + tail, h, m, sec, frac, Padded(2, sec) + (f + tail), f + tail, tail);
  }

  lemma ReadFraction(frac: nat, tail: string)
    requires frac < 1_000_000 && (tail != "" ==> tail[0] != '.')
    ensures var s := (if frac == 0 then "" else "." + Padded(6, frac)) + tail;
            if frac == 0 then s == tail && Expect('.', s).Bad?
            else Expect('.', s).Good? && ReadPadded(6, Expect('.', s).rest) == Good(frac, tail)
  {
    Pow10Values();
    if frac != 0 {
      ReadPaddedBack(6, frac, tail);
      assert (("." + Padded(6, frac)) + tail)[1..] == Padded(6, frac) + tail;
    }
  }

  lemma ReadTimePieces(s: string, h: nat, m: nat, sec: nat, frac: nat, afterPair: string, afterSec: string,
      tail: string)
    requires h < 24 && m < 60 && sec < 60
    requires ReadPair(':', s) == Good((h, m), [':'] + afterPair)
    requires ([':'] + afterPair)[1..] == afterPair && ReadPadded(2, afterPair) == Good(sec, afterSec)
    requires if frac == 0 then afterSec == tail && Expect('.', afterSec).Bad?
             else Expect('.', afterSec).Good? && ReadPadded(6, Expect('.', afterSec).rest) == Good(frac, tail)
    ensures ReadTime(s) == Good(((h * 60 + m) * 60 + sec) * 1_000_000 + frac, tail)
  {
  }

  lemma ReadTimeBack(us: nat, tail: string)
    requires us < MICROS_PER_DAY && (tail != "" ==> tail[0] != '.')
    ensures ReadTime(IsoTime(us) + tail) == Good(us, tail)
  {
    hide ReadTime, Clock;
    TimeParts(us);
    var secs := us / 1_000_000;
    ReadClockBack(secs / 3600, secs / 60 % 60, secs % 60, us % 1_000_000, tail);
  }

  lemma ReadUtcOffset()
    ensures ReadZone("+00:00") == Ok(Offset(0))
  {
    ReadPairBack(':', 0, 0, "");
    assert "+00:00"[1..] == Padded(2, 0) + ([':'] + (Padded(2, 0) + ""));
  }

  lemma FromIsoPieces(text: string, n: nat, us: nat, rest: string)
    requires ReadDate(text) == Good(n, ['T'] + rest) && ReadTime(rest) == Good(us, "+00:00")
    ensures FromIsoFormat(text) == Ok(DateTime(n * MICROS_PER_DAY + us, Offset(0)))
  {
    hide ReadDate, ReadTime, ReadZone;
    assert (['T'] + rest)[1..] == rest;
    ReadUtcOffset();
  }

  lemma ParsePieces(s: string, t: int)
    requires InRange(t) && EndsWith(s, 'Z')
    requires FromIsoFormat(s[..|s| - 1] + "+00:00") == Ok(DateTime(t, Offset(0)))
    ensures ParseIsoUtc(s) == Ok(DateTime(t, Offset(0)))
  {
    hide FromIsoFormat;
  }

  /** Every microsecond value survives: reading the canonical text of an instant gives it back. */
  lemma ParseStamp(t: int)
    requires InRange(t)
    ensures ParseIsoUtc(Stamp(t)) == Ok(DateTime(t, Offset(0)))
  {
    hide FromIsoFormat, ReadDate, ReadTime, IsoDate, IsoTime, ParseIsoUtc;
    var n, us := t / MICROS_PER_DAY, t % MICROS_PER_DAY;
    var rest := IsoTime(us) + "+00:00";
    ReadDateBack(n, ['T'] + rest);
    ReadTimeBack(us, "+00:00");
    FromIsoPieces(IsoDate(n) + (['T'] + rest), n, us, rest);
    ZuluText(IsoDate(n), IsoTime(us));
    ParsePieces(Stamp(t), t);
  }

  lemma ZuluText(d: string, time: string)
    ensures var s := d + "T" + time + "Z";
            EndsWith(s, 'Z') && s[..|s| - 1] + "+00:00" == d + (['T'] + (time + "+00:00"))
  {
  }

  /** `parse_iso_utc(iso_utc_z(dt)) == dt`, for every aware datetime whose instant is in range. */
  lemma {:induction false} TimestampRoundTrip(dt: DateTime)
    ensures IsoUtcZ(dt).Ok? <==> dt.zone.Offset? && InRange(dt.local - dt.zone.micros)
    ensures IsoUtcZ(dt).Ok? ==> ParseIsoUtc(IsoUtcZ(dt).value) == Ok(DateTime(dt.local - dt.zone.micros, Offset(0)))
  {
    hide IsoUtcZ, ParseIsoUtc, Stamp;
    IsoUtcZIsStamp(dt);
    if IsoUtcZ(dt).Ok? { ParseStamp(dt.local - dt.zone.micros); }
  }

  lemma {:induction false} StampInjective(t: int, u: int)
    requires InRange(t) && InRange(u) && Stamp(t) == Stamp(u)
    ensures t == u
  {
    ParseStamp(t);
    ParseStamp(u);
  }

  // ------------------------------------------------------------ date keys

  function DayOf(t: int): (n: nat)
    requires InRange(t)
    ensures n < CALENDAR_DAYS
  {
    t / MICROS_PER_DAY
  }

  /** `strftime("%Y-%m-%d")` of a day; %Y is not zero-padded by the C library on Linux. */
  function DateKey(n: nat): (key: string)
    requires n < CALENDAR_DAYS
    ensures key != "" && Free('/', key)
  {
    KeyText(DateOf(n))
  }

  function KeyText(d: Date): (key: string)
    ensures key != "" && Free('/', key)
  {
    Digits(d.year) + MonthDay(d)
  }

  function MonthDay(d: Date): (s: string)
    ensures Free('/', s)
  {
    "-" + (Padded(2, d.month) + ("-" + Padded(2, d.day)))
  }

  lemma {:induction false} DigitsArePadded(n: nat, width: nat)
    requires width > 0 && n < Pow10(width) && (n >= Pow10(width - 1) || width == 1)
    ensures Digits(n) == Padded(width, n)
  {
    if width > 1 {
      assert n / 10 >= Pow10(width - 2) && n / 10 < Pow10(width - 1);
      DigitsArePadded(n / 10, width - 1);
    } else {
      assert Padded(0, n / 10) == "";
    }
  }

  lemma DigitsInjective(m: nat, n: nat)
    requires Digits(m) == Digits(n)
    ensures m == n
  {
    ReadDigits(m, "");
    ReadDigits(n, "");
    assert Digits(m) + "" == Digits(n) + "";
  }

  lemma KeyTextInjective(a: Date, b: Date)
    requires ValidDate(a) && ValidDate(b) && KeyText(a) == KeyText(b)
    ensures a == b
  {
    var x, y := MonthDay(a), MonthDay(b);
    var k := |Digits(a.year)|;
    assert |x| == |y| == 6;
    assert KeyText(a)[..k] == Digits(a.year) && KeyText(b)[..k] == Digits(b.year);
    DigitsInjective(a.year, b.year);
    assert KeyText(a)[k..] == x && KeyText(b)[k..] == y;
    Pow10Values();
    ReadMonthDay(a);
    ReadMonthDay(b);
  }

  lemma ReadMonthDay(d: Date)
    requires ValidDate(d)
    ensures ReadPair('-', MonthDay(d)[1..]) == Good((d.month, d.day), "")
  {
    ReadPairBack('-', d.month, d.day, "");
    assert MonthDay(d)[1..] == Padded(2, d.month) + (['-'] + (Padded(2, d.day) + ""));
  }

  /** Different days get different partitions, whatever the years. */
  lemma {:induction false} DateKeyInjective(m: nat, n: nat)
    requires m < CALENDAR_DAYS && n < CALENDAR_DAYS && DateKey(m) == DateKey(n)
    ensures m == n
  {
    KeyTextInjective(DateOf(m), DateOf(n));
  }

  lemma LessAfterDash(a: string, b: string)
    ensures Less("-" + a, "-" + b) <==> Less(a, b)
  {
    assert ("-" + a)[1..] == a && ("-" + b)[1..] == b;
  }

  lemma MonthDayOrder(a: Date, b: Date)
    requires ValidDate(a) && ValidDate(b)
    ensures Less(MonthDay(a), MonthDay(b)) <==> a.month < b.month || (a.month == b.month && a.day < b.day)
  {
    Pow10Values();
    var x, y := "-" + Padded(2, a.day), "-" + Padded(2, b.day);
    LessAfterDash(Padded(2, a.month) + x, Padded(2, b.month) + y);
    PaddedOrder(2, a.month, b.month, x, y);
    LessAfterDash(Padded(2, a.day), Padded(2, b.day));
    PaddedOrder(2, a.day, b.day, "", "");
    assert Padded(2, a.day) + "" == Padded(2, a.day) && Padded(2, b.day) + "" == Padded(2, b.day);
  }

  /** The year has exactly this many digits. */
  predicate YearWidth(d: Date, width: nat) {
    width > 0 && d.year < Pow10(width) && (width == 1 || Pow10(width - 1) <= d.year)
  }

  lemma KeyTextOrder(a: Date, b: Date, width: nat)
    requires ValidDate(a) && ValidDate(b) && YearWidth(a, width) && YearWidth(b, width)
    ensures Less(KeyText(a), KeyText(b)) <==> DateBefore(a, b)
  {
    DigitsArePadded(a.year, width);
    DigitsArePadded(b.year, width);
    PaddedOrder(width, a.year, b.year, MonthDay(a), MonthDay(b));
    MonthDayOrder(a, b);
  }

  /** Within years of one width (all of 1000 to 9999, say) the text order of the keys, which the
      writer sorts by, is calendar order. */
  lemma {:induction false} DateKeyOrder(m: nat, n: nat, width: nat)
    requires m < CALENDAR_DAYS && n < CALENDAR_DAYS
    requires YearWidth(DateOf(m), width) && YearWidth(DateOf(n), width)
    ensures Less(DateKey(m), DateKey(n)) <==> m < n
  {
    KeyTextOrder(DateOf(m), DateOf(n), width);
    DateOrder(m, n);
  }

  /** In years 1000 to 9999 the partition of a later instant never sorts first. */
  lemma {:induction false} DateKeyMonotone(t: int, u: int)
    requires InRange(t) && InRange(u) && t <= u
    requires DateOf(DayOf(t)).year >= 1000
    ensures DateKey(DayOf(t)) == DateKey(DayOf(u)) || Less(DateKey(DayOf(t)), DateKey(DayOf(u)))
  {
    hide DateKey, Less;
    var m, n := DayOf(t), DayOf(u);
    if m < n {
      DateOrder(m, n);
      assert Pow10(3) == 1000 && Pow10(4) == 10_000;
      DateKeyOrder(m, n, 4);
    }
  }

  /** Across widths it is not: 999-12-31 is the day before 1000-01-01 but sorts after it. */
  lemma {:induction false} DateKeyOrderFails()
    ensures ValidDate(Date(999, 12, 31)) && ValidDate(Date(1000, 1, 1))
    ensures DayNumber(Date(999, 12, 31)) + 1 == DayNumber(Date(1000, 1, 1))
    ensures Less(KeyText(Date(1000, 1, 1)), KeyText(Date(999, 12, 31)))
  {
    assert Digits(1000) == "1000" && Digits(999) == "999";
  }

  /** The number without its last k decimal digits. */
  function Leading(n: nat, k: nat): nat {
    if k == 0 then n else Leading(n / 10, k - 1)
  }

  /** A padded number is its leading digits, padded, and then the others. */
  lemma {:induction false} PaddedSplits(v: nat, k: nat, n: nat)
    ensures Padded(v + k, n) == Padded(v, Leading(n, k)) + Padded(k, n)
  {
    if k == 0 {
      assert Padded(v, n) + Padded(0, n) == Padded(v, n);
    } else {
      PaddedSplits(v, k - 1, n / 10);
      Associate(Padded(v, Leading(n, k)), Padded(k - 1, n / 10), [DigitChar(n % 10)]);
    }
  }

  lemma {:induction false} LeadingFits(y: nat, v: nat, k: nat)
    requires y < Pow10(v + k)
    ensures Leading(y, k) < Pow10(v)
  {
    if k > 0 { LeadingFits(y / 10, v, k - 1); }
  }

  lemma KeyTextOrderAcross(a: Date, b: Date, v: nat, w: nat)
    requires ValidDate(a) && ValidDate(b) && YearWidth(a, v) && YearWidth(b, w) && v < w
    ensures Less(KeyText(a), KeyText(b)) <==> a.year <= Leading(b.year, w - v)
  {
    hide Padded, Less, DateOf, Leading, Pow10;
    var k := w - v;
    var p := Leading(b.year, k);
    DigitsArePadded(a.year, v);
    DigitsArePadded(b.year, w);
    PaddedSplits(v, k, b.year);
    LeadingFits(b.year, v, k);
    Associate(Padded(v, p), Padded(k, b.year), MonthDay(b));
    PaddedOrder(v, a.year, p, MonthDay(a), Padded(k, b.year) + MonthDay(b));
    DashIsLess(MonthDay(a), Padded(k, b.year) + MonthDay(b));
  }

  lemma DashIsLess(x: string, y: string)
    requires x != "" && y != "" && x[0] == '-' && IsDigit(y[0])
    ensures Less(x, y)
  {
  }

  lemma WidthsGrow(a: Date, b: Date, v: nat, w: nat)
    requires YearWidth(a, v) && YearWidth(b, w) && a.year <= b.year
    ensures v <= w
  {
    if v > w { Pow10Grows(w, v - 1); }
  }

  lemma {:induction false} Pow10Grows(v: nat, w: nat)
    requires v <= w
    ensures Pow10(v) <= Pow10(w)
    decreases w
  {
    if v < w { Pow10Grows(v, w - 1); }
  }

  /** Exactly when the key of an earlier day sorts first: the two years have the same number of
      digits, or the shorter one is at most the leading digits of the longer. */
  lemma {:induction false} DateKeyOrderExactly(m: nat, n: nat, v: nat, w: nat)
    requires m < n < CALENDAR_DAYS && YearWidth(DateOf(m), v) && YearWidth(DateOf(n), w)
    ensures v <= w
    ensures Less(DateKey(m), DateKey(n)) <==> v == w || DateOf(m).year <= Leading(DateOf(n).year, w - v)
  {
    hide KeyText, YearWidth, Less, Leading;
    DateOrder(m, n);
    WidthsGrow(DateOf(m), DateOf(n), v, w);
    if v == w {
      DateKeyOrder(m, n, v);
    } else {
      KeyTextOrderAcross(DateOf(m), DateOf(n), v, w);
    }
  }
}
