/**
  Dates from timestamps (`freshness.rs`): the loops that split a Unix timestamp, and the
  20-byte text they are printed as, in the form of section 5.6 of RFC 3339.
 */
module Calendar {
  import opened Base

  const U32_MODULUS := 0x1_0000_0000

  /** The first second of the year 10000. */
  const YEAR_10000 := 253_402_300_800

  type byte = x: int | 0 <= x < 256

  datatype Parts = Parts(year: nat, month: nat, day: nat, hour: nat, minute: nat, second: nat)

  /** The leap year rule of Appendix C of RFC 3339. */
  predicate IsLeap(year: nat) { (year % 4 == 0 && year % 100 != 0) || year % 400 == 0 }

  function DaysInYear(year: nat): nat { if IsLeap(year) then 366 else 365 }

  /** The month lengths of section 5.7 of RFC 3339. */
  function DaysInMonth(year: nat, month: nat): nat {
    if month == 2 then (if IsLeap(year) then 29 else 28)
    else if month == 4 || month == 6 || month == 9 || month == 11 then 30
    else 31
  }

  /** A date and time that exists; there are no leap seconds in Unix time. */
  predicate ValidParts(p: Parts) {
    && p.year >= 1970 && 1 <= p.month <= 12 && 1 <= p.day <= DaysInMonth(p.year, p.month)
    && p.hour < 24 && p.minute < 60 && p.second < 60
  }

  /** Days from 1970-01-01 to the first day of a year. */
  function DaysBeforeYear(year: nat): nat {
    if year <= 1970 then 0 else DaysBeforeYear(year - 1) + DaysInYear(year - 1)
  }

  /** Days from the first day of the year to the first day of a month. */
  function DaysBeforeMonth(year: nat, month: nat): nat {
    if month <= 1 then 0 else DaysBeforeMonth(year, month - 1) + DaysInMonth(year, month - 1)
  }

  /** Seconds since the epoch, counted from the calendar. */
  function SecondsOf(p: Parts): nat
    requires p.day >= 1
  {
    (DaysBeforeYear(p.year) + DaysBeforeMonth(p.year, p.month) + p.day - 1) * SECONDS_PER_DAY
    + p.hour * 3600 + p.minute * 60 + p.second
  }

  /* ---- the calendar ---- */

  /** The days before a year in closed form: 365 a year and one for each leap year since. */
  lemma {:induction false} YearsInClosedForm(year: nat)
    requires year >= 1970
    ensures DaysBeforeYear(year) == 365 * (year - 1970) + ((year - 1) / 4 - (year - 1) / 100 + (year - 1) / 400) - 477
  {
    if year > 1970 {
      YearsInClosedForm(year - 1);
      LeapStep(year - 1);
    }
  }

  lemma LeapStep(y: nat)
    requires y >= 1
    ensures (y / 4 - y / 100 + y / 400) - ((y - 1) / 4 - (y - 1) / 100 + (y - 1) / 400) == if IsLeap(y) then 1 else 0
  {
    MultipleStep(y, 4);
    MultipleStep(y, 100);
    MultipleStep(y, 400);
    if y % 400 == 0 {
      MultipleOf(y, 100, 4 * (y / 400));
    }
    if y % 100 == 0 {
      MultipleOf(y, 4, 25 * (y / 100));
    }
  }

  lemma MultipleOf(y: nat, d: nat, q: nat)
    requires d >= 1 && y == q * d
    ensures y % d == 0
  {
    DivUnique(y, d, q, 0);
  }

  lemma MultipleStep(y: nat, d: nat)
    requires y >= 1 && d >= 1
    ensures y / d - (y - 1) / d == if y % d == 0 then 1 else 0
  {
    var q, r := y / d, y % d;
    assert y == q * d + r;
    if r == 0 {
      assert y - 1 == (q - 1) * d + (d - 1);
      DivUnique(y - 1, d, q - 1, d - 1);
    } else {
      assert y - 1 == q * d + (r - 1);
      DivUnique(y - 1, d, q, r - 1);
    }
  }

  lemma DivUnique(x: int, d: nat, q: int, r: nat)
    requires d >= 1 && x == q * d + r && r < d
    ensures x / d == q
  {
    var e := x / d - q;
    assert x == (x / d) * d + x % d;
    assert e * d == r - x % d;
    if e > 0 {
      MulLe(d, 1, e);
    } else if e < 0 {
      MulLe(d, e, -1);
    }
  }

  /** The twelve months make up the year. */
  lemma MonthsMakeYear(year: nat)
    ensures DaysBeforeMonth(year, 12) + DaysInMonth(year, 12) == DaysInYear(year)
    ensures DaysBeforeMonth(year, 13) == DaysInYear(year)
  {
    assert DaysBeforeMonth(year, 2) == 31;
    assert DaysBeforeMonth(year, 4) == 90 + DaysInYear(year) - 365;
    assert DaysBeforeMonth(year, 6) == DaysBeforeMonth(year, 4) + 61;
    assert DaysBeforeMonth(year, 8) == DaysBeforeMonth(year, 6) + 61;
    assert DaysBeforeMonth(year, 10) == DaysBeforeMonth(year, 8) + 61;
    assert DaysBeforeMonth(year, 12) == DaysBeforeMonth(year, 10) + 61;
  }

  lemma {:induction false} YearsGrow(a: nat, b: nat)
    requires 1970 <= a <= b
    ensures a < b ==> DaysBeforeYear(a) + DaysInYear(a) <= DaysBeforeYear(b)
    decreases b
  {
    if a < b - 1 {
      YearsGrow(a, b - 1);
    }
  }

  lemma {:induction false} MonthsGrow(year: nat, a: nat, b: nat)
    requires 1 <= a <= b
    ensures a < b ==> DaysBeforeMonth(year, a) + DaysInMonth(year, a) <= DaysBeforeMonth(year, b)
    decreases b
  {
    if a < b - 1 {
      MonthsGrow(year, a, b - 1);
    }
  }

  /** Day within the year, from 0. */
  function YearDay(p: Parts): int { DaysBeforeMonth(p.year, p.month) + p.day - 1 }

  lemma YearDayFits(p: Parts)
    requires ValidParts(p)
    ensures 0 <= YearDay(p) < DaysInYear(p.year)
  {
    MonthsMakeYear(p.year);
    MonthsGrow(p.year, p.month, 13);
  }

  /* ---- dates in order ---- */

  predicate DateBefore(p: Parts, q: Parts) {
    p.year < q.year || (p.year == q.year && (p.month < q.month || (p.month == q.month && p.day < q.day)))
  }

  predicate SameDate(p: Parts, q: Parts) { p.year == q.year && p.month == q.month && p.day == q.day }

  predicate TimeBefore(p: Parts, q: Parts) {
    p.hour < q.hour || (p.hour == q.hour && (p.minute < q.minute || (p.minute == q.minute && p.second < q.second)))
  }

  predicate Before(p: Parts, q: Parts) { DateBefore(p, q) || (SameDate(p, q) && TimeBefore(p, q)) }

  lemma DaysInOrder(p: Parts, q: Parts)
    requires ValidParts(p) && ValidParts(q) && DateBefore(p, q)
    ensures DaysBeforeYear(p.year) + YearDay(p) < DaysBeforeYear(q.year) + YearDay(q)
  {
    YearDayFits(p);
    YearDayFits(q);
    if p.year < q.year {
      YearsGrow(p.year, q.year);
    } else if p.month < q.month {
      MonthsGrow(p.year, p.month, q.month);
    }
  }

  /** The calendar order of valid dates is the order of their seconds. */
  lemma SecondsInOrder(p: Parts, q: Parts)
    requires ValidParts(p) && ValidParts(q) && Before(p, q)
    ensures SecondsOf(p) < SecondsOf(q)
  {
    if DateBefore(p, q) {
      DaysInOrder(p, q);
    }
  }

  /** So a timestamp is the seconds of one date only, and comparing dates is comparing seconds. */
  lemma SecondsCompareDates(p: Parts, q: Parts)
    requires ValidParts(p) && ValidParts(q)
    ensures Before(p, q) <==> SecondsOf(p) < SecondsOf(q)
    ensures p == q <==> SecondsOf(p) == SecondsOf(q)
  {
    if Before(p, q) {
      SecondsInOrder(p, q);
    } else if Before(q, p) {
      SecondsInOrder(q, p);
    } else {
      assert p == q;
    }
  }

  /* ---- the loops ---- */

  /** The year loop: leave whole years out of `days`, from `year` on. */
  function SplitYear(days: nat, year: nat): (nat, nat)
    decreases days
  {
    if days < DaysInYear(year) then (year, days) else SplitYear(days - DaysInYear(year), year + 1)
  }

  /** The month loop. */
  function SplitMonth(days: nat, year: nat, month: nat): (nat, nat)
    requires month <= 13
    decreases 13 - month
  {
    if month == 13 || days < DaysInMonth(year, month) then (month, days)
    else SplitMonth(days - DaysInMonth(year, month), year, month + 1)
  }

  /** What `unix_to_parts` computes. */
  function PartsOf(unixSecs: u64): Parts {
    var minutes := unixSecs / 60;
    var hours := minutes / 60;
    var (year, yearDays) := SplitYear(hours / 24 % U32_MODULUS, 1970);
    var (month, rest) := SplitMonth(yearDays, year, 1);
    Parts(year, month, rest + 1, hours % 24, minutes % 60, unixSecs % 60)
  }

  const MONTH_LENGTHS: seq<nat> := [31, 28, 31, 30, 31, 30, 31, 31, 30, 31, 30, 31]

  method UnixToParts(unixSecs: u64) returns (p: Parts)
    ensures p == PartsOf(unixSecs)
  {
    var sec := unixSecs % 60;
    var mins := unixSecs / 60;
    var min := mins % 60;
    var hours := mins / 60;
    var hour := hours % 24;
    var year, yearDays := FindYear(hours / 24 % U32_MODULUS);
    var month, rest := FindMonth(yearDays, year);
    p := Parts(year, month, rest + 1, hour, min, sec);
  }

  method FindYear(allDays: nat) returns (year: nat, days: nat)
    ensures (year, days) == SplitYear(allDays, 1970)
  {
    year, days := 1970, allDays;
    while true
      invariant SplitYear(days, year) == SplitYear(allDays, 1970)
      decreases days
    {
      var daysInYear := if IsLeap(year) then 366 else 365;
      if days < daysInYear {
        break;
      }
      days := days - daysInYear;
      year := year + 1;
    }
  }

  method FindMonth(yearDays: nat, year: nat) returns (month: nat, days: nat)
    ensures (month, days) == SplitMonth(yearDays, year, 1)
  {
    var monthDays := MONTH_LENGTHS[1 := if IsLeap(year) then 29 else 28];
    month, days := 1, yearDays;
    for i := 0 to 12
      invariant month == i + 1
      invariant SplitMonth(days, year, month) == SplitMonth(yearDays, year, 1)
    {
      if days < monthDays[i] {
        break;
      }
      days := days - monthDays[i];
      month := month + 1;
    }
  }

  lemma {:induction false} YearSplit(days: nat, year: nat)
    requires year >= 1970
    ensures var (y, rest) := SplitYear(days, year);
      y >= year && rest < DaysInYear(y) && DaysBeforeYear(y) + rest == DaysBeforeYear(year) + days
    decreases days
  {
    if days >= DaysInYear(year) {
      YearSplit(days - DaysInYear(year), year + 1);
    }
  }

  lemma {:induction false} MonthSplit(days: nat, year: nat, month: nat)
    requires 1 <= month <= 12 && DaysBeforeMonth(year, month) + days < DaysInYear(year)
    ensures var (m, rest) := SplitMonth(days, year, month);
      month <= m <= 12 && rest < DaysInMonth(year, m) && DaysBeforeMonth(year, m) + rest == DaysBeforeMonth(year, month) + days
    decreases 13 - month
  {
    hide IsLeap, DaysInMonth, DaysInYear;
    MonthsMakeYear(year);
    if days >= DaysInMonth(year, month) && month < 12 {
      MonthSplit(days - DaysInMonth(year, month), year, month + 1);
    }
  }

  /** The calendar the loops find is the one counted from the epoch. */
  lemma DaysSplit(days: nat)
    ensures var (year, yearDays) := SplitYear(days, 1970); var (month, rest) := SplitMonth(yearDays, year, 1);
      && year >= 1970 && 1 <= month <= 12 && rest < DaysInMonth(year, month)
      && DaysBeforeYear(year) + DaysBeforeMonth(year, month) + rest == days
  {
    hide IsLeap, DaysInMonth, DaysInYear, SplitYear, SplitMonth;
    YearSplit(days, 1970);
    MonthSplit(SplitYear(days, 1970).1, SplitYear(days, 1970).0, 1);
  }

  /**
    For every timestamp the loops give a date that exists, and counting its seconds gives the timestamp back;
    past 2^32 days the cast to `u32` wraps.
   */
  lemma DateIsExact(unixSecs: u64)
    ensures ValidParts(PartsOf(unixSecs))
    ensures SecondsOf(PartsOf(unixSecs)) == (unixSecs / SECONDS_PER_DAY % U32_MODULUS) * SECONDS_PER_DAY + unixSecs % SECONDS_PER_DAY
    ensures SecondsOf(PartsOf(unixSecs)) == unixSecs <==> unixSecs < U32_MODULUS * SECONDS_PER_DAY
  {
    hide IsLeap, DaysInMonth, DaysInYear, DaysBeforeMonth, DaysBeforeYear, SplitYear, SplitMonth;
    var days := unixSecs / 60 / 60 / 24 % U32_MODULUS;
    DaysSplit(days);
    TimeSplit(unixSecs);
    var p := PartsOf(unixSecs);
    var (year, yearDays) := SplitYear(days, 1970);
    var (month, rest) := SplitMonth(yearDays, year, 1);
    assert p == Parts(year, month, rest + 1, unixSecs / 60 / 60 % 24, unixSecs / 60 % 60, unixSecs % 60);
    assert SecondsOf(p) == days * SECONDS_PER_DAY + unixSecs % SECONDS_PER_DAY;
    WrapIsExact(unixSecs);
  }

  lemma TimeSplit(unixSecs: nat)
    ensures unixSecs / 60 / 60 / 24 == unixSecs / SECONDS_PER_DAY
    ensures (unixSecs / 60 / 60 % 24) * 3600 + (unixSecs / 60 % 60) * 60 + unixSecs % 60 == unixSecs % SECONDS_PER_DAY
  {
  }

  lemma WrapIsExact(unixSecs: nat)
    ensures (unixSecs / SECONDS_PER_DAY % U32_MODULUS) * SECONDS_PER_DAY + unixSecs % SECONDS_PER_DAY == unixSecs
       <==> unixSecs < U32_MODULUS * SECONDS_PER_DAY
  {
    var days := unixSecs / SECONDS_PER_DAY;
    assert unixSecs == days * SECONDS_PER_DAY + unixSecs % SECONDS_PER_DAY;
  }

  /* ---- the text ---- */

  const ZERO: byte := 48
  const DASH: byte := 45
  const COLON: byte := 58
  const TEE: byte := 84
  const ZED: byte := 90

  /** `value` in `width` decimal digits; higher digits are lost. */
  function Padded(value: nat, width: nat): (s: seq<byte>)
    ensures |s| == width
  {
    if width == 0 then [] else Padded(value / 10, width - 1) + [(ZERO + value % 10) as byte]
  }

  /** One field of the text and the separator behind it. */
  function Field(value: nat, width: nat, separator: byte): (s: seq<byte>)
    ensures |s| == width + 1
  {
    Padded(value, width) + [separator]
  }

  /** The 20 bytes of section 5.6 of RFC 3339: full-date, "T", full-time with offset "Z". */
  function Iso(p: Parts): (s: seq<byte>)
    ensures |s| == 20
  {
    Field(p.year, 4, DASH) + (Field(p.month, 2, DASH) + (Field(p.day, 2, TEE)
    + (Field(p.hour, 2, COLON) + (Field(p.minute, 2, COLON) + Field(p.second, 2, ZED)))))
  }

  lemma TwoDigits(value: nat)
    requires value < 100
    ensures Padded(value, 2) == [(48 + value / 10) as byte, (48 + value % 10) as byte]
  {
    assert Padded(value / 10, 1) == Padded(value / 100, 0) + [(48 + value / 10) as byte];
  }

  lemma FourDigits(value: nat)
    requires value < 10_000
    ensures Padded(value, 4) == [(48 + value / 1_000) as byte, (48 + value / 100 % 10) as byte,
                                 (48 + value / 10 % 10) as byte, (48 + value % 10) as byte]
  {
    TwoDigits(value / 100);
    assert value / 10 / 10 == value / 100 && value / 100 / 10 == value / 1_000;
    assert Padded(value / 10, 3) == Padded(value / 100, 2) + [(48 + value / 10 % 10) as byte];
  }

  /** The number that the digits from `i` to `j` stand for. */
  function Reading(text: seq<byte>, i: nat, j: nat): int
    requires i <= j <= |text|
    decreases j
  {
    if i == j then 0 else 10 * Reading(text, i, j - 1) + text[j - 1] - 48
  }

  lemma ReadTwo(text: seq<byte>, i: nat, value: nat)
    requires i + 2 <= |text| && value < 100
    requires text[i] == (48 + value / 10) as byte && text[i + 1] == (48 + value % 10) as byte
    ensures Reading(text, i, i + 2) == value
  {
    assert Reading(text, i, i + 1) == text[i] - 48;
  }

  /** The text shows each part where section 5.6 of RFC 3339 puts it: year-month-dayThour:minute:secondZ, in decimal. */
  lemma TextShowsParts(p: Parts)
    requires ValidParts(p) && p.year < 10_000
    ensures var text := Iso(p);
      && Reading(text, 0, 4) == p.year && text[4] == 45 && Reading(text, 5, 7) == p.month && text[7] == 45
      && Reading(text, 8, 10) == p.day && text[10] == 84 && Reading(text, 11, 13) == p.hour && text[13] == 58
      && Reading(text, 14, 16) == p.minute && text[16] == 58 && Reading(text, 17, 19) == p.second && text[19] == 90
  {
    hide Padded, ValidParts, IsLeap;
    var text := Iso(p);
    PartsFit(p);
    FourDigits(p.year);
    TwoDigits(p.month);
    TwoDigits(p.day);
    TwoDigits(p.hour);
    TwoDigits(p.minute);
    TwoDigits(p.second);
    ReadFour(text, p.year);
    ReadTwo(text, 5, p.month);
    ReadTwo(text, 8, p.day);
    ReadTwo(text, 11, p.hour);
    ReadTwo(text, 14, p.minute);
    ReadTwo(text, 17, p.second);
  }

  lemma PartsFit(p: Parts)
    requires ValidParts(p)
    ensures p.month < 100 && p.day < 100 && p.hour < 100 && p.minute < 100 && p.second < 100
  {
  }

  lemma ReadFour(text: seq<byte>, value: nat)
    requires |text| >= 4 && value < 10_000
    requires text[..4] == [(48 + value / 1_000) as byte, (48 + value / 100 % 10) as byte,
                           (48 + value / 10 % 10) as byte, (48 + value % 10) as byte]
    ensures Reading(text, 0, 4) == value
  {
    var a, b, c := value / 1_000, value / 100, value / 10;
    Tenths(value);
    assert text[0] == text[..4][0] && text[1] == text[..4][1] && text[2] == text[..4][2] && text[3] == text[..4][3];
    assert Reading(text, 0, 1) == 10 * Reading(text, 0, 0) + text[0] - 48 == a;
    assert Reading(text, 0, 2) == 10 * a + text[1] - 48 == b;
    assert Reading(text, 0, 3) == 10 * b + text[2] - 48 == c;
  }

  lemma Tenths(value: nat)
    ensures value == 10 * (value / 10) + value % 10
    ensures value / 10 == 10 * (value / 100) + value / 10 % 10
    ensures value / 100 == 10 * (value / 1_000) + value / 100 % 10
  {
  }

  /** Digits are written from the last position of the slice to its first. */
  method WriteU32Padded(buf: array<byte>, start: nat, value: nat, width: nat)
    requires start + width <= buf.Length
    modifies buf
    ensures buf[..] == old(buf[..start]) + Padded(value, width) + old(buf[start + width..])
  {
    var v := value;
    for i := width downto 0
      invariant Padded(value, width) == Padded(v, i) + buf[start + i..start + width]
      invariant buf[..start + i] == old(buf[..start + i]) && buf[start + width..] == old(buf[start + width..])
    {
      ghost var tail := buf[start + i + 1..start + width];
      buf[start + i] := (ZERO + v % 10) as byte;
      assert buf[start + i..start + width] == [buf[start + i]] + tail;
      assert buf[..start + i] == old(buf[..start + i + 1])[..start + i];
      v := v / 10;
    }
    assert buf[..] == buf[..start] + buf[start..start + width] + buf[start + width..];
  }

  method WriteField(buf: array<byte>, start: nat, value: nat, width: nat, separator: byte)
    requires start + width < buf.Length
    modifies buf
    ensures buf[..start + width + 1] == old(buf[..start]) + Field(value, width, separator)
  {
    WriteU32Padded(buf, start, value, width);
    assert buf[..start + width] == old(buf[..start]) + Padded(value, width);
    buf[start + width] := separator;
  }

  /** The text of a timestamp, written field by field into a 20-byte buffer. */
  method UnixToIso8601(unixSecs: u64) returns (buf: array<byte>)
    ensures fresh(buf) && buf.Length == 20 && buf[..] == Iso(PartsOf(unixSecs))
  {
    hide Padded, Field, PartsOf;
    var p := UnixToParts(unixSecs);
    buf := new byte[20](_ => 0);
    assert buf[..0] == [];
    WriteField(buf, 0, p.year, 4, DASH);
    WriteField(buf, 5, p.month, 2, DASH);
    WriteField(buf, 8, p.day, 2, TEE);
    WriteField(buf, 11, p.hour, 2, COLON);
    WriteField(buf, 14, p.minute, 2, COLON);
    WriteField(buf, 17, p.second, 2, ZED);
    assert buf[..20] == buf[..];
  }

  /* ---- texts in order ---- */

  /** Lexicographic order of byte strings. */
  predicate LexLess(a: seq<byte>, b: seq<byte>) {
    if |b| == 0 then false
    else if |a| == 0 then true
    else a[0] < b[0] || (a[0] == b[0] && LexLess(a[1..], b[1..]))
  }

  lemma {:induction false} LexBehind(a: seq<byte>, x: seq<byte>, y: seq<byte>)
    requires LexLess(x, y)
    ensures LexLess(a + x, a + y)
  {
    if |a| == 0 {
      assert a + x == x && a + y == y;
    } else {
      LexBehind(a[1..], x, y);
      assert (a + x)[1..] == a[1..] + x && (a + y)[1..] == a[1..] + y;
    }
  }

  lemma {:induction false} LexInFront(a: seq<byte>, b: seq<byte>, x: seq<byte>, y: seq<byte>)
    requires |a| == |b| && LexLess(a, b)
    ensures LexLess(a + x, b + y)
  {
    assert (a + x)[1..] == a[1..] + x && (b + y)[1..] == b[1..] + y;
    if a[0] == b[0] {
      LexInFront(a[1..], b[1..], x, y);
    }
  }

  lemma {:induction false} LexIrreflexive(a: seq<byte>)
    ensures !LexLess(a, a)
  {
    if |a| > 0 {
      LexIrreflexive(a[1..]);
    }
  }

  lemma {:induction false} LexAsymmetric(a: seq<byte>, b: seq<byte>)
    requires LexLess(a, b)
    ensures !LexLess(b, a)
  {
    if |a| > 0 && a[0] == b[0] {
      LexAsymmetric(a[1..], b[1..]);
    }
  }

  function Power10(width: nat): nat { if width == 0 then 1 else 10 * Power10(width - 1) }

  /** Numbers that fit the width are ordered as their digits. */
  lemma {:induction false} PaddedInOrder(x: nat, y: nat, width: nat)
    requires x < y < Power10(width)
    ensures LexLess(Padded(x, width), Padded(y, width))
  {
    var dx, dy: seq<byte> := [(ZERO + x % 10) as byte], [(ZERO + y % 10) as byte];
    if x / 10 < y / 10 {
      PaddedInOrder(x / 10, y / 10, width - 1);
      LexInFront(Padded(x / 10, width - 1), Padded(y / 10, width - 1), dx, dy);
    } else {
      assert x / 10 == y / 10 && x % 10 < y % 10;
      assert LexLess(dx, dy);
      LexBehind(Padded(x / 10, width - 1), dx, dy);
    }
  }

  /** A field decides the order, or, where it is equal, leaves it to the fields behind it. */
  lemma FieldsInOrder(v: nat, v': nat, width: nat, separator: byte, rest: seq<byte>, rest': seq<byte>)
    requires v < v' < Power10(width) || (v == v' && LexLess(rest, rest'))
    ensures LexLess(Field(v, width, separator) + rest, Field(v', width, separator) + rest')
  {
    if v < v' {
      PaddedInOrder(v, v', width);
      LexInFront(Padded(v, width), Padded(v', width), [separator], [separator]);
      LexInFront(Field(v, width, separator), Field(v', width, separator), rest, rest');
    } else {
      LexBehind(Field(v, width, separator), rest, rest');
    }
  }

  lemma SmallFields()
    ensures Power10(2) == 100 && Power10(4) == 10_000
  {
    assert Power10(0) == 1 && Power10(1) == 10 && Power10(3) == 10 * Power10(2);
  }

  lemma TimesInOrder(p: Parts, q: Parts)
    requires ValidParts(p) && ValidParts(q) && TimeBefore(p, q)
    ensures LexLess(Field(p.hour, 2, COLON) + (Field(p.minute, 2, COLON) + Field(p.second, 2, ZED)),
                    Field(q.hour, 2, COLON) + (Field(q.minute, 2, COLON) + Field(q.second, 2, ZED)))
  {
    hide Field, Padded, LexLess, Power10;
    SmallFields();
    var ps, qs := Field(p.second, 2, ZED), Field(q.second, 2, ZED);
    if p.hour == q.hour {
      if p.minute == q.minute {
        FieldsInOrder(p.second, q.second, 2, ZED, [], []);
        assert ps + [] == ps && qs + [] == qs;
      }
      FieldsInOrder(p.minute, q.minute, 2, COLON, ps, qs);
    }
    FieldsInOrder(p.hour, q.hour, 2, COLON, Field(p.minute, 2, COLON) + ps, Field(q.minute, 2, COLON) + qs);
  }

  lemma TextsInOrder(p: Parts, q: Parts)
    requires ValidParts(p) && ValidParts(q) && q.year <= 9999 && Before(p, q)
    ensures LexLess(Iso(p), Iso(q))
  {
    hide Field, Padded, LexLess, Power10, DaysInMonth;
    SmallFields();
    DayFits(p);
    DayFits(q);
    var pt := Field(p.hour, 2, COLON) + (Field(p.minute, 2, COLON) + Field(p.second, 2, ZED));
    var qt := Field(q.hour, 2, COLON) + (Field(q.minute, 2, COLON) + Field(q.second, 2, ZED));
    var pd, qd := Field(p.day, 2, TEE) + pt, Field(q.day, 2, TEE) + qt;
    var pm, qm := Field(p.month, 2, DASH) + pd, Field(q.month, 2, DASH) + qd;
    if p.year == q.year {
      if p.month == q.month {
        if p.day == q.day {
          TimesInOrder(p, q);
        }
        FieldsInOrder(p.day, q.day, 2, TEE, pt, qt);
      }
      FieldsInOrder(p.month, q.month, 2, DASH, pd, qd);
    }
    FieldsInOrder(p.year, q.year, 4, DASH, pm, qm);
  }

  lemma DayFits(p: Parts)
    requires ValidParts(p)
    ensures p.day <= 31
  {
  }

  /** Timestamps before the year 10000 fall in four-digit years. */
  lemma FourDigitYears(unixSecs: u64)
    requires unixSecs < YEAR_10000
    ensures PartsOf(unixSecs).year <= 9999
  {
    hide DaysInYear, DaysInMonth, DaysBeforeMonth, IsLeap, PartsOf;
    var p := PartsOf(unixSecs);
    DateIsExact(unixSecs);
    YearsInClosedForm(10_000);
    if p.year >= 10_000 {
      YearsGrow(10_000, p.year);
    }
  }

  /**
    Section 5.1 of RFC 3339: up to the end of the year 9999, the texts order as strings exactly as the
    timestamps order as numbers.
   */
  lemma TextsOrderAsTimestamps(a: u64, b: u64)
    requires a < YEAR_10000 && b < YEAR_10000
    ensures LexLess(Iso(PartsOf(a)), Iso(PartsOf(b))) <==> a < b
    ensures Iso(PartsOf(a)) == Iso(PartsOf(b)) <==> a == b
  {
    hide PartsOf, Iso, LexLess, SecondsOf, ValidParts, Before;
    var p, q := PartsOf(a), PartsOf(b);
    DateIsExact(a);
    DateIsExact(b);
    FourDigitYears(a);
    FourDigitYears(b);
    SecondsCompareDates(p, q);
    SecondsCompareDates(q, p);
    if a < b {
      TextsInOrder(p, q);
      LexIrreflexive(Iso(p));
    } else if b < a {
      TextsInOrder(q, p);
      LexAsymmetric(Iso(q), Iso(p));
      LexIrreflexive(Iso(p));
    } else {
      LexIrreflexive(Iso(p));
    }
  }

  /**
    The bound is sharp: the first second of the year 10000 is printed with the year 0000, before every earlier
    text.
   */
  lemma OrderBreaksAtYear10000(a: u64)
    requires a < YEAR_10000
    ensures LexLess(Iso(PartsOf(YEAR_10000)), Iso(PartsOf(a)))
  {
    hide PartsOf, LexLess, SecondsOf, DaysBeforeYear, SplitYear, SplitMonth;
    FirstOfYear10000();
    DateIsExact(a);
    FourDigitYears(a);
    var p, q := Parts(10_000, 1, 1, 0, 0, 0), PartsOf(a);
    SmallFields();
    assert Padded(10_000, 4) == Padded(0, 4) by {
      assert Padded(10_000, 0) == Padded(0, 0) && Padded(1, 0) == Padded(0, 0);
      assert Padded(10, 1) == Padded(0, 1) && Padded(100, 2) == Padded(0, 2) && Padded(1_000, 3) == Padded(0, 3);
    }
    FieldsInOrder(0, q.year, 4, DASH, Iso(p)[5..], Iso(q)[5..]);
    assert Iso(p) == Field(0, 4, DASH) + Iso(p)[5..] && Iso(q) == Field(q.year, 4, DASH) + Iso(q)[5..];
  }

  lemma FirstOfYear10000()
    ensures PartsOf(YEAR_10000) == Parts(10_000, 1, 1, 0, 0, 0)
  {
    hide PartsOf, IsLeap, DaysInYear, SplitYear, SplitMonth;
    var p := Parts(10_000, 1, 1, 0, 0, 0);
    YearsInClosedForm(10_000);
    assert DaysBeforeMonth(10_000, 1) == 0;
    assert SecondsOf(p) == YEAR_10000;
    DateIsExact(YEAR_10000);
    SecondsCompareDates(PartsOf(YEAR_10000), p);
  }
}
