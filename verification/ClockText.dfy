/**
 * Times as the journals store them: ISO text. Reading and writing are inverse, text order is time order
 * up to the end of year 9999, and no further: from year 10000 on the text starts with a sign, which sorts
 * before every digit.
 */
module ClockText {
  import opened Foundation
  import opened Clock

  // ---- the calendar ---------------------------------------------------------------------------

  predicate Leap(y: int) {
    y % 4 == 0 && (y % 100 != 0 || y % 400 == 0)
  }

  function YearDays(y: int): int {
    if Leap(y) then 366 else 365
  }

  /** Days from the start of year 0 to the start of year `y`, negative before. */
  function YearStart(y: int): int {
    365 * y + (y + 3) / 4 - (y + 99) / 100 + (y + 399) / 400
  }

  lemma Fours(y: int)
    ensures (y + 4) / 4 == (y + 3) / 4 + if y % 4 == 0 then 1 else 0
  {
  }

  lemma Hundreds(y: int)
    ensures (y + 100) / 100 == (y + 99) / 100 + if y % 100 == 0 then 1 else 0
    ensures y % 100 == 0 ==> y % 4 == 0
  {
    var q, r := y / 100, y % 100;
    assert y == 100 * q + r;
    assert (y + 99) / 100 == if r == 0 then q else q + 1;
    assert r == 0 ==> y == 4 * (25 * q);
  }

  lemma FourHundreds(y: int)
    ensures (y + 400) / 400 == (y + 399) / 400 + if y % 400 == 0 then 1 else 0
    ensures y % 400 == 0 ==> y % 100 == 0
  {
    var q, r := y / 400, y % 400;
    assert y == 400 * q + r;
    assert (y + 399) / 400 == if r == 0 then q else q + 1;
    assert r == 0 ==> y == 100 * (4 * q);
  }

  lemma NextYear(y: int)
    ensures YearStart(y + 1) == YearStart(y) + YearDays(y)
  {
    Fours(y);
    Hundreds(y);
    FourHundreds(y);
  }

  lemma {:induction false} YearsGrow(a: int, b: int)
    requires a < b
    ensures YearStart(a) + 365 <= YearStart(b)
    decreases b - a
  {
    NextYear(b - 1);
    if a < b - 1 {
      YearsGrow(a, b - 1);
    }
  }

  /** Days of the year before month `m`, months counted from 0; month 12 is the end of the year. */
  function MonthStart(leap: bool, m: int): int
    requires 0 <= m <= 12
  {
    [0, 31, 59, 90, 120, 151, 181, 212, 243, 273, 304, 334, 365][m] + if leap && m >= 2 then 1 else 0
  }

  function MonthDays(leap: bool, m: int): int
    requires 0 <= m < 12
  {
    MonthStart(leap, m + 1) - MonthStart(leap, m)
  }

  /** Days from the start of year 0 to 1 January 1970. */
  const EPOCH_DAY: int := 719_528

  /** Months and days count from 1. */
  datatype Moment = Moment(year: int, month: int, day: int, hour: int, minute: int, second: int, milli: int)

  /** Every field has a digit form; the day may still be past the end of its month. */
  predicate Shaped(t: Moment) {
    && 1 <= t.month <= 12 && 1 <= t.day <= 31 && 0 <= t.hour < 100
    && 0 <= t.minute < 100 && 0 <= t.second < 100 && 0 <= t.milli < 1000
  }

  predicate Real(t: Moment) {
    && 1 <= t.month <= 12 && 1 <= t.day <= MonthDays(Leap(t.year), t.month - 1)
    && 0 <= t.hour < 24 && 0 <= t.minute < 60 && 0 <= t.second < 60 && 0 <= t.milli < 1000
  }

  function DayOf(t: Moment): int
    requires 1 <= t.month <= 12
  {
    YearStart(t.year) + MonthStart(Leap(t.year), t.month - 1) + t.day - 1
  }

  function InDay(t: Moment): int {
    ((t.hour * 60 + t.minute) * 60 + t.second) * 1000 + t.milli
  }

  function ToMs(t: Moment): int
    requires 1 <= t.month <= 12
  {
    (DayOf(t) - EPOCH_DAY) * DAY_MS + InDay(t)
  }

  /** The largest year that has started by `day`, looked for from `y` on. */
  function YearFrom(day: int, y: int): (r: int)
    requires YearStart(y) <= day
    ensures YearStart(r) <= day < YearStart(r + 1)
    decreases day - YearStart(y)
  {
    NextYear(y);
    if day < YearStart(y + 1) then y else YearFrom(day, y + 1)
  }

  function MonthFrom(leap: bool, day: int, m: int): (r: int)
    requires 0 <= m < 12 && MonthStart(leap, m) <= day < MonthStart(leap, 12)
    ensures m <= r < 12 && MonthStart(leap, r) <= day < MonthStart(leap, r + 1)
    decreases 12 - m
  {
    if day < MonthStart(leap, m + 1) then m else MonthFrom(leap, day, m + 1)
  }

  const FIRST_YEAR: int := -271_821

  function HourOf(rest: int): int { rest / 1000 / 60 / 60 }

  function MinuteOf(rest: int): int { rest / 1000 / 60 % 60 }

  function SecondOf(rest: int): int { rest / 1000 % 60 }

  lemma TimeSplits(rest: int)
    requires 0 <= rest < DAY_MS
    ensures 0 <= HourOf(rest) < 24 && 0 <= MinuteOf(rest) < 60 && 0 <= SecondOf(rest) < 60
    ensures ((HourOf(rest) * 60 + MinuteOf(rest)) * 60 + SecondOf(rest)) * 1000 + rest % 1000 == rest
  {
    var seconds := rest / 1000;
    var minutes := seconds / 60;
    assert rest == seconds * 1000 + rest % 1000;
    assert seconds == minutes * 60 + seconds % 60;
    assert minutes == minutes / 60 * 60 + minutes % 60;
  }

  /** The calendar moment of a time; years are found from 1 January of the first year a date can have. */
  function FromMs(ms: int): (t: Moment)
    requires IsDate(ms)
    ensures Real(t) && ToMs(t) == ms
  {
    var day := ms / DAY_MS + EPOCH_DAY;
    var rest := ms % DAY_MS;
    TimeSplits(rest);
    var year := YearFrom(day, FIRST_YEAR);
    NextYear(year);
    var leap := Leap(year);
    var ofYear := day - YearStart(year);
    var month := MonthFrom(leap, ofYear, 0);
    Moment(year, month + 1, ofYear - MonthStart(leap, month) + 1, HourOf(rest), MinuteOf(rest), SecondOf(rest), rest % 1000)
  }

  // ---- moments in order -----------------------------------------------------------------------

  predicate Before(t: Moment, u: Moment) {
    t.year < u.year || (t.year == u.year && BeforeInYear(t, u))
  }

  predicate BeforeInYear(t: Moment, u: Moment) {
    t.month < u.month || (t.month == u.month && (t.day < u.day || (t.day == u.day && BeforeInDay(t, u))))
  }

  predicate BeforeInDay(t: Moment, u: Moment) {
    || t.hour < u.hour
    || (t.hour == u.hour && (t.minute < u.minute || (t.minute == u.minute &&
       (t.second < u.second || (t.second == u.second && t.milli < u.milli)))))
  }

  lemma {:induction false} MonthsGrow(leap: bool, a: int, b: int)
    requires 0 <= a < b <= 12
    ensures MonthStart(leap, a + 1) <= MonthStart(leap, b)
  {
  }

  lemma DayInYear(t: Moment)
    requires Real(t)
    ensures YearStart(t.year) <= DayOf(t) < YearStart(t.year + 1)
    ensures 0 <= InDay(t) < DAY_MS
  {
    NextYear(t.year);
    MonthsGrow(Leap(t.year), t.month - 1, 12);
  }

  /** Field by field is the order of time. */
  lemma MomentsInOrder(t: Moment, u: Moment)
    requires Real(t) && Real(u) && Before(t, u)
    ensures ToMs(t) < ToMs(u)
  {
    DayInYear(t);
    DayInYear(u);
    if t.year < u.year {
      assert YearStart(t.year + 1) <= YearStart(u.year) by {
        if t.year + 1 < u.year {
          YearsGrow(t.year + 1, u.year);
        }
      }
      assert DayOf(t) < DayOf(u);
    } else if t.month < u.month {
      MonthsGrow(Leap(t.year), t.month - 1, u.month - 1);
      assert DayOf(t) < DayOf(u);
    } else if t.day == u.day {
      assert InDay(t) < InDay(u);
    }
  }

  /** The two conversions are inverse. */
  lemma MomentOf(t: Moment)
    requires Real(t) && IsDate(ToMs(t))
    ensures FromMs(ToMs(t)) == t
  {
    var u := FromMs(ToMs(t));
    if Before(t, u) {
      MomentsInOrder(t, u);
    } else if Before(u, t) {
      MomentsInOrder(u, t);
    }
  }

  lemma YearOrder(t: Moment, y: int)
    requires Real(t)
    ensures t.year < y <==> ToMs(t) < (YearStart(y) - EPOCH_DAY) * DAY_MS
  {
    DayInYear(t);
    if t.year + 1 < y {
      YearsGrow(t.year + 1, y);
    } else if y < t.year {
      YearsGrow(y, t.year);
    }
  }

  /** A time that 24 characters hold lies in years 0 to 9999, and no other does. */
  lemma StampYears(ms: int)
    requires IsDate(ms)
    ensures IsStamp(ms) <==> 0 <= FromMs(ms).year <= 9999
    ensures ms > STAMP_MAX <==> FromMs(ms).year > 9999
  {
    assert YearStart(0) == 0 && YearStart(10_000) == 3_652_425;
    YearOrder(FromMs(ms), 0);
    YearOrder(FromMs(ms), 10_000);
  }

  // ---- text -----------------------------------------------------------------------------------

  function Digit(n: int): (c: char)
    requires 0 <= n < 10
    ensures '0' <= c <= '9'
  {
    ('0' as int + n) as char
  }

  function D2(n: int): (s: string)
    requires 0 <= n < 100
    ensures |s| == 2 && forall k :: 0 <= k < |s| ==> IsDigit(s[k])
  {
    [Digit(n / 10), Digit(n % 10)]
  }

  function D3(n: int): (s: string)
    requires 0 <= n < 1000
    ensures |s| == 3 && forall k :: 0 <= k < |s| ==> IsDigit(s[k])
  {
    [Digit(n / 100)] + D2(n % 100)
  }

  function D4(n: int): (s: string)
    requires 0 <= n < 10_000
    ensures |s| == 4 && forall k :: 0 <= k < |s| ==> IsDigit(s[k])
  {
    D2(n / 100) + D2(n % 100)
  }

  /** Years outside four digits carry a sign and six digits. */
  function YearText(y: int): (s: string)
    requires -999_999 <= y <= 999_999
    ensures |s| == if 0 <= y <= 9999 then 4 else 7
  {
    if 0 <= y <= 9999 then D4(y)
    else if y > 9999 then "+" + D2(y / 10_000) + D4(y % 10_000)
    else "-" + D2(-y / 10_000) + D4(-y % 10_000)
  }

  function MilliText(t: Moment): string
    requires Real(t)
  {
    "." + D3(t.milli) + "Z"
  }

  function SecondText(t: Moment): string
    requires Real(t)
  {
    ":" + D2(t.second) + MilliText(t)
  }

  function MinuteText(t: Moment): string
    requires Real(t)
  {
    ":" + D2(t.minute) + SecondText(t)
  }

  function HourText(t: Moment): string
    requires Real(t)
  {
    "T" + D2(t.hour) + MinuteText(t)
  }

  function DayText(t: Moment): string
    requires Real(t)
  {
    "-" + D2(t.day) + HourText(t)
  }

  function MonthText(t: Moment): string
    requires Real(t)
  {
    "-" + D2(t.month) + DayText(t)
  }

  function Write(t: Moment): string
    requires Real(t) && -999_999 <= t.year <= 999_999
  {
    YearText(t.year) + MonthText(t)
  }

  lemma DateYears(ms: int)
    requires IsDate(ms)
    ensures -271_821 <= FromMs(ms).year <= 275_760
  {
    assert YearStart(275_761) == 100_719_528 + 110;
    YearOrder(FromMs(ms), 275_761);
  }

  /** The text of a time. */
  function Iso(ms: int): string
    requires IsDate(ms)
  {
    DateYears(ms);
    Write(FromMs(ms))
  }

  // ---- text order -----------------------------------------------------------------------------

  /** Character by character; a text sorts after its prefixes. */
  predicate Less(a: string, b: string) {
    b != [] && (a == [] || a[0] < b[0] || (a[0] == b[0] && Less(a[1..], b[1..])))
  }

  lemma {:induction false} LessConcat(a: string, b: string, c: string, d: string)
    requires |a| == |b|
    ensures Less(a + c, b + d) <==> Less(a, b) || (a == b && Less(c, d))
    decreases |a|
  {
    if a == [] {
      assert a + c == c && b + d == d;
    } else {
      assert (a + c)[1..] == a[1..] + c && (b + d)[1..] == b[1..] + d;
      LessConcat(a[1..], b[1..], c, d);
      assert a == [a[0]] + a[1..] && b == [b[0]] + b[1..];
    }
  }

  lemma TwoDigits(n: int, m: int)
    requires 0 <= n < 100 && 0 <= m < 100
    ensures Less(D2(n), D2(m)) <==> n < m
    ensures D2(n) == D2(m) <==> n == m
  {
    assert Less(D2(n)[1..], D2(m)[1..]) <==> n % 10 < m % 10;
    assert D2(n)[0] == Digit(n / 10) && D2(m)[0] == Digit(m / 10);
    assert D2(n)[1] == Digit(n % 10) && D2(m)[1] == Digit(m % 10);
  }

  lemma FourDigits(n: int, m: int)
    requires 0 <= n < 10_000 && 0 <= m < 10_000
    ensures Less(D4(n), D4(m)) <==> n < m
    ensures D4(n) == D4(m) <==> n == m
  {
    TwoDigits(n / 100, m / 100);
    TwoDigits(n % 100, m % 100);
    LessConcat(D2(n / 100), D2(m / 100), D2(n % 100), D2(m % 100));
    assert D4(n)[..2] == D2(n / 100) && D4(m)[..2] == D2(m / 100);
    assert D4(n)[2..] == D2(n % 100) && D4(m)[2..] == D2(m % 100);
  }

  lemma ThreeDigits(n: int, m: int)
    requires 0 <= n < 1000 && 0 <= m < 1000
    ensures Less(D3(n), D3(m)) <==> n < m
  {
    var a, b := [Digit(n / 100)], [Digit(m / 100)];
    TwoDigits(n % 100, m % 100);
    LessConcat(a, b, D2(n % 100), D2(m % 100));
    assert a[0] < b[0] <==> n / 100 < m / 100;
    assert a == b <==> n / 100 == m / 100;
  }

  /** A mark, two digits, and the rest: the digits decide, then the rest. */
  lemma FieldOrder(mark: char, n: int, m: int, c: string, d: string)
    requires 0 <= n < 100 && 0 <= m < 100
    ensures Less([mark] + D2(n) + c, [mark] + D2(m) + d) <==> n < m || (n == m && Less(c, d))
  {
    TwoDigits(n, m);
    LessConcat([mark], [mark], D2(n), D2(m));
    assert !Less([mark], [mark]);
    LessConcat([mark] + D2(n), [mark] + D2(m), c, d);
    assert ([mark] + D2(n))[1..] == D2(n) && ([mark] + D2(m))[1..] == D2(m);
  }

  lemma TimeTextOrder(t: Moment, u: Moment)
    requires Real(t) && Real(u)
    ensures Less(HourText(t), HourText(u)) <==> BeforeInDay(t, u)
  {
    ThreeDigits(t.milli, u.milli);
    LessConcat(".", ".", D3(t.milli), D3(u.milli));
    LessConcat("." + D3(t.milli), "." + D3(u.milli), "Z", "Z");
    assert !Less(".", ".") && !Less("Z", "Z");
    FieldOrder(':', t.second, u.second, MilliText(t), MilliText(u));
    FieldOrder(':', t.minute, u.minute, SecondText(t), SecondText(u));
    FieldOrder('T', t.hour, u.hour, MinuteText(t), MinuteText(u));
  }

  lemma MonthTextOrder(t: Moment, u: Moment)
    requires Real(t) && Real(u)
    ensures Less(MonthText(t), MonthText(u)) <==> BeforeInYear(t, u)
  {
    hide HourText, D2, Less;
    TimeTextOrder(t, u);
    FieldOrder('-', t.day, u.day, HourText(t), HourText(u));
    FieldOrder('-', t.month, u.month, DayText(t), DayText(u));
  }

  lemma WriteOrder(t: Moment, u: Moment)
    requires Real(t) && Real(u) && 0 <= t.year <= 9999 && 0 <= u.year <= 9999
    ensures Less(Write(t), Write(u)) <==> Before(t, u)
  {
    hide MonthText, D4, Less;
    MonthTextOrder(t, u);
    FourDigits(t.year, u.year);
    LessConcat(D4(t.year), D4(u.year), MonthText(t), MonthText(u));
  }

  /** Years past 9999 have six digits after the same sign. */
  lemma LongWriteOrder(t: Moment, u: Moment)
    requires Real(t) && Real(u) && 9999 < t.year <= 999_999 && 9999 < u.year <= 999_999
    ensures Less(Write(t), Write(u)) <==> Before(t, u)
  {
    hide MonthText, D4, D2, Less;
    MonthTextOrder(t, u);
    var a, b := D4(t.year % 10_000), D4(u.year % 10_000);
    FourDigits(t.year % 10_000, u.year % 10_000);
    LessConcat(a, b, MonthText(t), MonthText(u));
    FieldOrder('+', t.year / 10_000, u.year / 10_000, a + MonthText(t), b + MonthText(u));
    assert Write(t) == "+" + D2(t.year / 10_000) + (a + MonthText(t));
    assert Write(u) == "+" + D2(u.year / 10_000) + (b + MonthText(u));
  }

  /** Up to the year 9999 the order of the texts is the order of time. */
  lemma TextOrderIsTimeOrder(a: int, b: int)
    requires IsStamp(a) && IsStamp(b)
    ensures Less(Iso(a), Iso(b)) <==> a < b
  {
    StampYears(a);
    StampYears(b);
    var t, u := FromMs(a), FromMs(b);
    WriteOrder(t, u);
    if Before(t, u) {
      MomentsInOrder(t, u);
    } else if t != u {
      MomentsInOrder(u, t);
    }
  }

  /** A signed year sorts before every plain one, whichever way it lies. */
  lemma SignSortsFirst(stamp: int, other: int)
    requires IsStamp(stamp) && IsDate(other) && !IsStamp(other)
    ensures Less(Iso(other), Iso(stamp)) && !Less(Iso(stamp), Iso(other))
  {
    hide FromMs, MonthText, D4, D2;
    StampYears(stamp);
    StampYears(other);
    DateYears(other);
    assert Iso(stamp)[0] == D4(FromMs(stamp).year)[0];
    var sign := Iso(other)[0];
    assert sign == '+' || sign == '-';
    assert '0' <= Iso(stamp)[0];
  }

  // ---- freshness ------------------------------------------------------------------------------

  /** What the text comparison of a deadline with the clock decides: `After` is exactly it. */
  lemma FreshnessByText(deadline: int, now: int)
    requires IsStamp(deadline) && IsDate(now)
    ensures Less(Iso(deadline), Iso(now)) <==> After(now, deadline)
  {
    if IsStamp(now) {
      TextOrderIsTimeOrder(deadline, now);
    } else {
      SignSortsFirst(deadline, now);
    }
  }

  lemma LongTextOrder(a: int, b: int)
    requires IsDate(a) && IsDate(b) && a > STAMP_MAX && b > STAMP_MAX
    ensures Less(Iso(a), Iso(b)) <==> a < b
  {
    StampYears(a);
    StampYears(b);
    DateYears(a);
    DateYears(b);
    var t, u := FromMs(a), FromMs(b);
    LongWriteOrder(t, u);
    if Before(t, u) {
      MomentsInOrder(t, u);
    } else if t != u {
      MomentsInOrder(u, t);
    }
  }

  /** A deadline past year 9999 counts as missed at every time up to year 9999, and is kept only until itself. */
  lemma LongDeadlineByText(deadline: int, now: int)
    requires IsDate(deadline) && deadline > STAMP_MAX && IsDate(now)
    ensures !Less(Iso(deadline), Iso(now)) <==> STAMP_MAX < now <= deadline
  {
    if IsStamp(now) {
      SignSortsFirst(now, deadline);
    } else if now > STAMP_MAX {
      LongTextOrder(deadline, now);
    } else {
      PlusSortsFirst(deadline, now);
    }
  }

  lemma PlusSortsFirst(late: int, early: int)
    requires IsDate(late) && late > STAMP_MAX && IsDate(early) && early < STAMP_MIN
    ensures Less(Iso(late), Iso(early))
  {
    hide FromMs, MonthText, D4, D2;
    StampYears(late);
    StampYears(early);
    DateYears(late);
    DateYears(early);
    assert Iso(late)[0] == '+' && Iso(early)[0] == '-';
  }

  /** The text comparison agrees with the numbers for every deadline until year 9999 ends, and for none after. */
  lemma TextAgreesUntilYear10000(deadline: int, now: int)
    requires IsStamp(deadline) && IsDate(now)
    ensures (Less(Iso(deadline), Iso(now)) <==> deadline < now) <==> now <= STAMP_MAX
  {
    FreshnessByText(deadline, now);
  }

  // ---- reading --------------------------------------------------------------------------------

  predicate IsDigit(c: char) {
    '0' <= c <= '9'
  }

  function Number(s: string): (n: int)
    requires forall k :: 0 <= k < |s| ==> IsDigit(s[k])
    ensures n >= 0
  {
    if s == [] then 0
    else
      var last := s[|s| - 1];
      assert IsDigit(last);
      Number(s[..|s| - 1]) * 10 + (last as int - '0' as int)
  }

  /** YYYY-MM-DDThh:mm:ss.sssZ */
  predicate StampShape(s: string) {
    && |s| == 24 && s[4] == '-' && s[7] == '-' && s[10] == 'T' && s[13] == ':' && s[16] == ':' && s[19] == '.' && s[23] == 'Z'
    && forall k :: 0 <= k < 23 && k !in {4, 7, 10, 13, 16, 19} ==> IsDigit(s[k])
  }

  function Fields(s: string): Moment
    requires StampShape(s)
  {
    Moment(Number(s[0..4]), Number(s[5..7]), Number(s[8..10]), Number(s[11..13]), Number(s[14..16]), Number(s[17..19]),
           Number(s[20..23]))
  }

  /** A day past the end of its month rolls over, so the time found is written again and compared with the text. */
  function Read(s: string): Option<int> {
    if !StampShape(s) || !Shaped(Fields(s)) then None
    else
      var ms := ToMs(Fields(s));
      if IsStamp(ms) && Iso(ms) == s then Some(ms) else None
  }

  lemma NumberOne(a: char)
    requires IsDigit(a)
    ensures Number([a]) == a as int - '0' as int
  {
    assert [a][..0] == "";
  }

  lemma NumberTwo(a: char, b: char)
    requires IsDigit(a) && IsDigit(b)
    ensures Number([a, b]) == (a as int - '0' as int) * 10 + (b as int - '0' as int)
  {
    NumberOne(a);
    assert [a, b][..1] == [a];
  }

  lemma TwoDigitsRead(n: int)
    requires 0 <= n < 100
    ensures Number(D2(n)) == n
  {
    NumberTwo(Digit(n / 10), Digit(n % 10));
  }

  lemma NumberSplits(a: string, b: char, c: char)
    requires (forall k :: 0 <= k < |a| ==> IsDigit(a[k])) && IsDigit(b) && IsDigit(c)
    ensures forall k :: 0 <= k < |a + [b, c]| ==> IsDigit((a + [b, c])[k])
    ensures Number(a + [b, c]) == Number(a) * 100 + Number([b, c])
  {
    var s := a + [b, c];
    assert s[..|s| - 1] == a + [b];
    assert (a + [b])[..|a|] == a;
    NumberTwo(b, c);
  }

  lemma ThreeDigitsRead(n: int)
    requires 0 <= n < 1000
    ensures Number(D3(n)) == n
  {
    NumberSplits([Digit(n / 100)], D2(n % 100)[0], D2(n % 100)[1]);
    TwoDigitsRead(n % 100);
    NumberOne(Digit(n / 100));
    assert [D2(n % 100)[0], D2(n % 100)[1]] == D2(n % 100);
  }

  lemma FourDigitsRead(n: int)
    requires 0 <= n < 10_000
    ensures Number(D4(n)) == n
  {
    NumberSplits(D2(n / 100), D2(n % 100)[0], D2(n % 100)[1]);
    TwoDigitsRead(n / 100);
    TwoDigitsRead(n % 100);
    assert [D2(n % 100)[0], D2(n % 100)[1]] == D2(n % 100);
  }

  lemma TwoDigitsWritten(s: string)
    requires |s| == 2 && IsDigit(s[0]) && IsDigit(s[1])
    ensures 0 <= Number(s) < 100 && D2(Number(s)) == s
  {
    NumberTwo(s[0], s[1]);
    assert s == [s[0], s[1]];
  }

  lemma ThreeDigitsWritten(s: string)
    requires |s| == 3 && IsDigit(s[0]) && IsDigit(s[1]) && IsDigit(s[2])
    ensures 0 <= Number(s) < 1000 && D3(Number(s)) == s
  {
    hide D2;
    assert s == [s[0]] + [s[1], s[2]];
    NumberOne(s[0]);
    NumberSplits([s[0]], s[1], s[2]);
    TwoDigitsWritten([s[1], s[2]]);
    assert Number(s) / 100 == Number([s[0]]) && Number(s) % 100 == Number([s[1], s[2]]);
  }

  lemma FourDigitsWritten(s: string)
    requires |s| == 4 && IsDigit(s[0]) && IsDigit(s[1]) && IsDigit(s[2]) && IsDigit(s[3])
    ensures 0 <= Number(s) < 10_000 && D4(Number(s)) == s
  {
    hide D2;
    var a, b := [s[0], s[1]], [s[2], s[3]];
    assert s == a + b;
    NumberSplits(a, s[2], s[3]);
    TwoDigitsWritten(a);
    TwoDigitsWritten(b);
    assert Number(s) / 100 == Number(a) && Number(s) % 100 == Number(b);
  }

  lemma TimeInPlace(t: Moment)
    requires Real(t)
    ensures var s := HourText(t);
            && |s| == 14 && s[0] == 'T' && s[3] == ':' && s[6] == ':' && s[9] == '.' && s[13] == 'Z'
            && s[1..3] == D2(t.hour) && s[4..6] == D2(t.minute) && s[7..9] == D2(t.second) && s[10..13] == D3(t.milli)
  {
    hide D3, D2;
    var s := HourText(t);
    assert s[3..] == MinuteText(t);
    assert s[6..] == SecondText(t);
    assert s[9..] == MilliText(t);
  }

  lemma DateInPlace(t: Moment)
    requires Real(t) && 0 <= t.year <= 9999
    ensures var s := Write(t);
            && |s| == 24 && s[4] == '-' && s[7] == '-'
            && s[0..4] == D4(t.year) && s[5..7] == D2(t.month) && s[8..10] == D2(t.day) && s[10..] == HourText(t)
  {
    TimeInPlace(t);
    hide D4, D3, D2, HourText, Real;
    var s, m, d := Write(t), MonthText(t), DayText(t);
    assert |d| == 17 && d[0] == '-' && d[1..3] == D2(t.day) && d[3..] == HourText(t);
    assert |m| == 20 && m[0] == '-' && m[1..3] == D2(t.month) && m[3..] == d;
    assert s == D4(t.year) + m;
    assert s[4..] == m && s[7..] == d;
  }

  /** Every part of a written stamp is where it is read from. */
  lemma PartsInPlace(t: Moment)
    requires Real(t) && 0 <= t.year <= 9999
    ensures var s := Write(t);
            && |s| == 24 && s[4] == '-' && s[7] == '-' && s[10] == 'T' && s[13] == ':' && s[16] == ':'
            && s[19] == '.' && s[23] == 'Z'
            && s[0..4] == D4(t.year) && s[5..7] == D2(t.month) && s[8..10] == D2(t.day) && s[11..13] == D2(t.hour)
            && s[14..16] == D2(t.minute) && s[17..19] == D2(t.second) && s[20..23] == D3(t.milli)
  {
    hide D4, D3, D2, HourText, Write;
    DateInPlace(t);
    TimeInPlace(t);
    var s, h := Write(t), HourText(t);
    assert h == s[10..];
    assert s[11..13] == h[1..3] && s[14..16] == h[4..6] && s[17..19] == h[7..9] && s[20..23] == h[10..13];
  }

  /** Writing and reading the fields are inverse, in both directions. */
  lemma WrittenIsRead(t: Moment)
    requires Real(t) && 0 <= t.year <= 9999
    ensures StampShape(Write(t)) && Fields(Write(t)) == t
  {
    hide D4, D3, D2, Number, Write;
    PartsInPlace(t);
    FourDigitsRead(t.year);
    TwoDigitsRead(t.month);
    TwoDigitsRead(t.day);
    TwoDigitsRead(t.hour);
    TwoDigitsRead(t.minute);
    TwoDigitsRead(t.second);
    ThreeDigitsRead(t.milli);
    var s := Write(t);
    forall k | 0 <= k < 23 && k !in {4, 7, 10, 13, 16, 19} ensures IsDigit(s[k]) {
      assert k < 4 ==> s[k] == s[0..4][k];
      assert 5 <= k < 7 ==> s[k] == s[5..7][k - 5];
      assert 8 <= k < 10 ==> s[k] == s[8..10][k - 8];
      assert 11 <= k < 13 ==> s[k] == s[11..13][k - 11];
      assert 14 <= k < 16 ==> s[k] == s[14..16][k - 14];
      assert 17 <= k < 19 ==> s[k] == s[17..19][k - 17];
      assert 20 <= k ==> s[k] == s[20..23][k - 20];
    }
  }

  lemma ReadIsWritten(s: string)
    requires StampShape(s) && Real(Fields(s))
    ensures 0 <= Fields(s).year <= 9999 && Write(Fields(s)) == s
  {
    hide D4, D3, D2;
    FourDigitsWritten(s[0..4]);
    TwoDigitsWritten(s[5..7]);
    TwoDigitsWritten(s[8..10]);
    TwoDigitsWritten(s[11..13]);
    TwoDigitsWritten(s[14..16]);
    TwoDigitsWritten(s[17..19]);
    ThreeDigitsWritten(s[20..23]);
    var t := Fields(s);
    assert MilliText(t) == s[19..];
    assert SecondText(t) == s[16..];
    assert MinuteText(t) == s[13..];
    assert HourText(t) == s[10..];
    assert DayText(t) == s[7..];
    assert MonthText(t) == s[4..];
  }

  lemma StampOfYear(t: Moment)
    requires Real(t) && 0 <= t.year <= 9999
    ensures IsStamp(ToMs(t))
  {
    assert YearStart(0) == 0 && YearStart(10_000) == 3_652_425;
    YearOrder(t, 0);
    YearOrder(t, 10_000);
  }

  lemma IsoFields(ms: int)
    requires IsStamp(ms)
    ensures StampShape(Iso(ms)) && Fields(Iso(ms)) == FromMs(ms) && Shaped(FromMs(ms))
  {
    hide Write, StampShape, Fields, FromMs;
    StampYears(ms);
    WrittenIsRead(FromMs(ms));
  }

  lemma FieldsIso(s: string)
    requires StampShape(s) && Real(Fields(s))
    ensures IsStamp(ToMs(Fields(s))) && Iso(ToMs(Fields(s))) == s && Shaped(Fields(s))
  {
    hide Write, StampShape, Fields, FromMs;
    ReadIsWritten(s);
    StampOfYear(Fields(s));
    MomentOf(Fields(s));
  }

  /** A text is read as a time exactly when it is how that time is written. */
  lemma ReadExactly(s: string, ms: int)
    ensures Read(s) == Some(ms) <==> IsStamp(ms) && Iso(ms) == s
  {
    hide StampShape, Fields, Shaped, Iso, ToMs, FromMs;
    if IsStamp(ms) && Iso(ms) == s {
      IsoFields(ms);
    }
  }

  /** A text is accepted exactly when its fields name a day and a time of day that exist. */
  lemma ReadAccepts(s: string)
    ensures Read(s).Some? <==> StampShape(s) && Real(Fields(s))
  {
    hide StampShape, Fields, Shaped, Iso, ToMs, FromMs, Real;
    if StampShape(s) && Real(Fields(s)) {
      FieldsIso(s);
    }
    if Read(s).Some? {
      IsoFields(Read(s).value);
    }
  }

  // ---- the window of a session ----------------------------------------------------------------

  /** The deadline text of a session, from its commit text. */
  function FreshUntil(committedAt: string): Option<string> {
    match Read(committedAt)
    case None => None
    case Some(ms) => if IsDate(ms + TTL_MS) then Some(Iso(ms + TTL_MS)) else None
  }

  /** For 900 seconds a session is fresh, then expired, and from year 10000 on fresh again for ever. */
  lemma FreshWindow(committedAt: string, now: int)
    requires Read(committedAt).Some? && IsStamp(Read(committedAt).value + TTL_MS) && IsDate(now)
    ensures FreshUntil(committedAt).Some?
    ensures !Less(FreshUntil(committedAt).value, Iso(now)) <==>
              now <= Read(committedAt).value + TTL_MS || now > STAMP_MAX
  {
    hide Iso, StampShape, Fields, Shaped, ToMs, FromMs, Less;
    FreshnessByText(Read(committedAt).value + TTL_MS, now);
  }

  lemma IsoLength(ms: int)
    requires IsDate(ms)
    ensures |Iso(ms)| == 24 <==> IsStamp(ms)
  {
    hide FromMs;
    DateYears(ms);
    StampYears(ms);
    assert |MonthText(FromMs(ms))| == 20;
  }

  /** A deadline is stored only when it fits 24 characters: the last 900 seconds of year 9999 admit nothing. */
  lemma DeadlineFits(committedAt: string)
    requires Read(committedAt).Some?
    ensures FreshUntil(committedAt).Some?
    ensures |FreshUntil(committedAt).value| == 24 <==> Read(committedAt).value <= STAMP_MAX - TTL_MS
  {
    hide Iso, StampShape, Fields, Shaped, ToMs, FromMs;
    IsoLength(Read(committedAt).value + TTL_MS);
  }
}
