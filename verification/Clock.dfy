/**
 Instants and the clock minute.  An instant is a number of nanoseconds since
 the start of year 1 in UTC, Go's zero time, so truncation to a minute is
 arithmetic.  The Redis limiter names the minute with the layout 200601021504;
 the name is built here digit by digit and shown to identify the minute.
 */
module Clock {
  type Time = nat

  const SECOND: nat := 1_000_000_000
  const MINUTE: nat := 60_000_000_000

  function MinuteOf(t: Time): nat { t / MINUTE }

  function StartOf(minute: nat): Time { minute * MINUTE }

  /** t.Truncate(time.Minute) */
  function Truncate(t: Time): Time { t - t % MINUTE }

  lemma TruncateIsStart(t: Time)
    ensures Truncate(t) == StartOf(MinuteOf(t))
    ensures Truncate(t) <= t < Truncate(t) + MINUTE
  {
  }

  lemma MinuteOfMonotone(a: Time, b: Time)
    requires a <= b
    ensures MinuteOf(a) <= MinuteOf(b)
  {
  }

  // ---- The civil calendar ----

  datatype Civil = Civil(year: nat, month: nat, day: nat, hour: nat, minute: nat)

  predicate IsLeap(year: nat) {
    year % 4 == 0 && (year % 100 != 0 || year % 400 == 0)
  }

  function DaysInYear(year: nat): nat {
    if IsLeap(year) then 366 else 365
  }

  function DaysInMonth(year: nat, month: nat): nat {
    if month == 2 then (if IsLeap(year) then 29 else 28)
    else if month in {4, 6, 9, 11} then 30
    else 31
  }

  /** The year a day number falls in, counting from day 0 of `year`, and the day within it. */
  function YearAndDay(days: nat, year: nat): (nat, nat)
    decreases days
  {
    if days < DaysInYear(year) then (year, days) else YearAndDay(days - DaysInYear(year), year + 1)
  }

  /** The month a day of the year falls in, counting from `month`, and the day within it. */
  function MonthAndDay(year: nat, days: nat, month: nat): (nat, nat)
    decreases days
  {
    if days < DaysInMonth(year, month) || month >= 12 then (month, days)
    else MonthAndDay(year, days - DaysInMonth(year, month), month + 1)
  }

  function CivilOf(minute: nat): Civil {
    var (year, dayOfYear) := YearAndDay(minute / 1440, 1);
    var (month, day) := MonthAndDay(year, dayOfYear, 1);
    Civil(year, month, day + 1, minute % 1440 / 60, minute % 60)
  }

  /** Days from the start of year `from` to the start of year `year`. */
  function DaysToYear(from: nat, year: nat): nat
    decreases year - from
  {
    if from >= year then 0 else DaysInYear(from) + DaysToYear(from + 1, year)
  }

  function DaysToMonth(year: nat, from: nat, month: nat): nat
    decreases month - from
  {
    if from >= month then 0 else DaysInMonth(year, from) + DaysToMonth(year, from + 1, month)
  }

  function MinuteAt(c: Civil): int {
    (DaysToYear(1, c.year) + DaysToMonth(c.year, 1, c.month) + c.day - 1) * 1440 + c.hour * 60 + c.minute
  }

  lemma {:induction false} YearAndDayRecovers(days: nat, year: nat)
    ensures var (y, d) := YearAndDay(days, year);
            year <= y && d < DaysInYear(y) && DaysToYear(year, y) + d == days
    decreases days
  {
    if days >= DaysInYear(year) {
      YearAndDayRecovers(days - DaysInYear(year), year + 1);
    }
  }

  lemma {:induction false} MonthAndDayRecovers(year: nat, days: nat, month: nat)
    requires 1 <= month <= 12
    ensures var (m, d) := MonthAndDay(year, days, month);
            month <= m <= 12 && DaysToMonth(year, month, m) + d == days
            && (days < DaysToMonth(year, month, 13) ==> d < 31)
    decreases days
  {
    if days >= DaysInMonth(year, month) && month < 12 {
      MonthAndDayRecovers(year, days - DaysInMonth(year, month), month + 1);
    } else {
      assert DaysToMonth(year, 13, 13) == 0;
    }
  }

  lemma MonthsFillTheYear(year: nat)
    ensures DaysToMonth(year, 1, 13) == DaysInYear(year)
  {
    assert DaysToMonth(year, 10, 13) == 92;
    assert DaysToMonth(year, 7, 13) == 184;
    assert DaysToMonth(year, 4, 13) == 275;
  }

  /** The fields of a date side by side, two digits to a field after the year. */
  function SideBySide(c: Civil): int {
    (((c.year * 100 + c.month) * 100 + c.day) * 100 + c.hour) * 100 + c.minute
  }

  predicate TwoDigitFields(c: Civil) {
    c.month < 100 && c.day < 100 && c.hour < 100 && c.minute < 100
  }

  lemma {:induction false} OneMoreYear(from: nat, year: nat)
    requires from <= year
    ensures DaysToYear(from, year + 1) == DaysToYear(from, year) + DaysInYear(year)
    decreases year - from
  {
    if from < year {
      OneMoreYear(from + 1, year);
    }
  }

  lemma MultipleAtLeast(n: int, k: int)
    requires n >= 1 && k >= 1
    ensures n * k >= k
  {
  }

  lemma QuotientIs(a: int, b: int, q: int, r: int, k: int)
    requires k >= 1 && a * k + b == q * k + r && 0 <= b < k && 0 <= r < k
    ensures a == q && b == r
  {
    assert (a - q) * k == r - b && (q - a) * k == b - r;
    if a > q {
      MultipleAtLeast(a - q, k);
    } else if a < q {
      MultipleAtLeast(q - a, k);
    }
  }

  /** Counting one further, the quotient grows at multiples. */
  lemma QuotientStep(y: nat, k: nat)
    requires y >= 1 && k >= 1
    ensures y / k == (y - 1) / k + if y % k == 0 then 1 else 0
  {
    var q, r := (y - 1) / k, (y - 1) % k;
    if r + 1 == k {
      assert y == (q + 1) * k + 0;
      QuotientIs(y / k, y % k, q + 1, 0, k);
    } else {
      QuotientIs(y / k, y % k, q, r + 1, k);
    }
  }

  lemma HundredsAreFourths(y: nat)
    ensures y % 100 == 0 ==> y % 4 == 0
  {
    if y % 100 == 0 {
      QuotientIs(y / 4, y % 4, 25 * (y / 100), 0, 4);
    }
  }

  lemma FourHundredsAreHundreds(y: nat)
    ensures y % 400 == 0 ==> y % 100 == 0
  {
    if y % 400 == 0 {
      QuotientIs(y / 100, y % 100, 4 * (y / 400), 0, 100);
    }
  }

  /** The leap days up to a year, one year at a time. */
  lemma LeapDay(y: nat)
    requires y >= 1
    ensures y / 4 - y / 100 + y / 400 == (y - 1) / 4 - (y - 1) / 100 + (y - 1) / 400 + if IsLeap(y) then 1 else 0
  {
    QuotientStep(y, 4);
    QuotientStep(y, 100);
    QuotientStep(y, 400);
    HundredsAreFourths(y);
    FourHundredsAreHundreds(y);
  }

  /** The days before a year: 365 for each before it, and a leap day every fourth, but for centuries not divisible by 400. */
  lemma {:induction false} GregorianYears(year: nat)
    requires year >= 1
    ensures DaysToYear(1, year) == 365 * (year - 1) + (year - 1) / 4 - (year - 1) / 100 + (year - 1) / 400
  {
    if year > 1 {
      GregorianYears(year - 1);
      OneMoreYear(1, year - 1);
      LeapDay(year - 1);
    }
  }

  /** The civil date and time of a minute determines the minute, and its fields are two digits wide. */
  lemma CivilOfRecovers(minute: nat)
    ensures var c := CivilOf(minute);
            MinuteAt(c) == minute && TwoDigitFields(c)
  {
    DateRecovers(minute / 1440);
    TimeRecovers(minute);
  }

  lemma DateRecovers(days: nat)
    ensures var (year, dayOfYear) := YearAndDay(days, 1);
            var (month, day) := MonthAndDay(year, dayOfYear, 1);
            DaysToYear(1, year) + DaysToMonth(year, 1, month) + day == days && month <= 12 && day < 31
  {
    var (year, dayOfYear) := YearAndDay(days, 1);
    YearAndDayRecovers(days, 1);
    MonthAndDayRecovers(year, dayOfYear, 1);
    MonthsFillTheYear(year);
  }

  lemma TimeRecovers(minute: nat)
    ensures minute / 1440 * 1440 + minute % 1440 / 60 * 60 + minute % 60 == minute
    ensures minute % 1440 / 60 < 24
  {
    assert minute % 1440 % 60 == minute % 60;
  }

  // ---- The name of a minute ----

  function Digit(n: nat): char
    requires n < 10
  {
    ('0' as int + n) as char
  }

  predicate IsDigit(c: char) { '0' <= c <= '9' }

  predicate AllDigits(s: string) {
    forall i :: 0 <= i < |s| ==> IsDigit(s[i])
  }

  function Decimal(n: nat): string {
    if n < 10 then [Digit(n)] else Decimal(n / 10) + [Digit(n % 10)]
  }

  /** A year, padded with zeros to at least four digits. */
  function YearDigits(n: nat): string {
    if n < 10 then "000" + Decimal(n)
    else if n < 100 then "00" + Decimal(n)
    else if n < 1000 then "0" + Decimal(n)
    else Decimal(n)
  }

  function TwoDigits(n: nat): string
    requires n < 100
  {
    [Digit(n / 10), Digit(n % 10)]
  }

  function MinuteName(minute: nat): string {
    var c := CivilOf(minute);
    CivilOfRecovers(minute);
    YearDigits(c.year) + TwoDigits(c.month) + TwoDigits(c.day) + TwoDigits(c.hour) + TwoDigits(c.minute)
  }

  function Value(s: string): int {
    if s == "" then 0 else Value(s[..|s| - 1]) * 10 + (s[|s| - 1] as int - '0' as int)
  }

  lemma ValueOfTwoMore(s: string, n: nat)
    requires n < 100
    ensures Value(s + TwoDigits(n)) == Value(s) * 100 + n
  {
    var t := s + TwoDigits(n);
    assert t[..|t| - 1] == s + [Digit(n / 10)];
    assert (s + [Digit(n / 10)])[..|s|] == s;
  }

  lemma {:induction false} ValueOfDecimal(n: nat)
    ensures AllDigits(Decimal(n)) && Value(Decimal(n)) == n
  {
    if n >= 10 {
      ValueOfDecimal(n / 10);
      var s := Decimal(n);
      assert s[..|s| - 1] == Decimal(n / 10);
    }
  }

  lemma {:induction false} ValueOfPadded(s: string)
    ensures Value("0" + s) == Value(s)
  {
    if s != "" {
      ValueOfPadded(s[..|s| - 1]);
      assert ("0" + s)[..|s|] == "0" + s[..|s| - 1];
    }
  }

  /** A text of digits with a zero before it is the same number. */
  lemma ZeroBefore(s: string)
    requires AllDigits(s)
    ensures AllDigits("0" + s) && Value("0" + s) == Value(s)
  {
    ValueOfPadded(s);
  }

  lemma ZerosBefore(s: string)
    requires AllDigits(s)
    ensures AllDigits("0" + s) && Value("0" + s) == Value(s)
    ensures AllDigits("00" + s) && Value("00" + s) == Value(s)
    ensures AllDigits("000" + s) && Value("000" + s) == Value(s)
  {
    ZeroBefore(s);
    assert "0" + ("0" + s) == "00" + s;
    ZeroBefore("0" + s);
    assert "0" + ("00" + s) == "000" + s;
    ZeroBefore("00" + s);
  }

  lemma ValueOfYear(n: nat)
    ensures AllDigits(YearDigits(n)) && Value(YearDigits(n)) == n
  {
    var s := Decimal(n);
    ValueOfDecimal(n);
    ZerosBefore(s);
    assert YearDigits(n) == s || YearDigits(n) == "0" + s || YearDigits(n) == "00" + s || YearDigits(n) == "000" + s;
  }

  /** A text of digits, read as one decimal number. */
  predicate Reads(s: string, value: int) { AllDigits(s) && Value(s) == value }

  lemma ReadsTwoMore(s: string, value: int, n: nat)
    requires Reads(s, value) && n < 100
    ensures Reads(s + TwoDigits(n), value * 100 + n)
  {
    ValueOfTwoMore(s, n);
  }

  /** The name, read as one decimal number, is the date's fields side by side. */
  lemma MinuteNameValue(minute: nat)
    ensures Reads(MinuteName(minute), SideBySide(CivilOf(minute)))
  {
    var c := CivilOf(minute);
    CivilOfRecovers(minute);
    ValueOfYear(c.year);
    var y := YearDigits(c.year);
    ReadsTwoMore(y, c.year, c.month);
    ReadsTwoMore(y + TwoDigits(c.month), c.year * 100 + c.month, c.day);
    var date := y + TwoDigits(c.month) + TwoDigits(c.day);
    ReadsTwoMore(date, (c.year * 100 + c.month) * 100 + c.day, c.hour);
    ReadsTwoMore(date + TwoDigits(c.hour), ((c.year * 100 + c.month) * 100 + c.day) * 100 + c.hour, c.minute);
  }

  lemma SideBySideInjective(c: Civil, d: Civil)
    requires TwoDigitFields(c) && TwoDigitFields(d)
    requires SideBySide(c) == SideBySide(d)
    ensures c == d
  {
    var c3, d3 := (c.year * 100 + c.month) * 100 + c.day, (d.year * 100 + d.month) * 100 + d.day;
    LastFieldInjective(c3 * 100 + c.hour, d3 * 100 + d.hour, c.minute, d.minute);
    LastFieldInjective(c3, d3, c.hour, d.hour);
    LastFieldInjective(c.year * 100 + c.month, d.year * 100 + d.month, c.day, d.day);
    LastFieldInjective(c.year, d.year, c.month, d.month);
  }

  lemma LastFieldInjective(a: int, b: int, x: int, y: int)
    requires a * 100 + x == b * 100 + y && 0 <= x < 100 && 0 <= y < 100
    ensures a == b && x == y
  {
  }

  /** Different minutes have different names. */
  lemma MinuteNameInjective(a: nat, b: nat)
    requires MinuteName(a) == MinuteName(b)
    ensures a == b
  {
    MinuteNameValue(a);
    MinuteNameValue(b);
    CivilOfRecovers(a);
    CivilOfRecovers(b);
    SideBySideInjective(CivilOf(a), CivilOf(b));
  }
}
