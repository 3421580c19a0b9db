/** The proleptic Gregorian calendar in UTC. Days are numbered from 1 January of
    year 1, an instant is a nanosecond of a day, and a month number is
    12 * year + month, with January as month 0. */
module Calendar {
  const DAY := 86_400_000_000_000

  type Nano = n: int | 0 <= n < DAY

  datatype Instant = At(day: int, nano: Nano)

  predicate NotAfter(a: Instant, b: Instant) {
    a.day < b.day || (a.day == b.day && a.nano <= b.nano)
  }

  /** The nanoseconds from one instant to another. */
  function Span(a: Instant, b: Instant): int {
    (b.day - a.day) * DAY + b.nano - a.nano
  }

  lemma SpanOrders(a: Instant, b: Instant, c: Instant)
    ensures Span(a, b) <= Span(a, c) <==> NotAfter(b, c)
    ensures Span(a, b) == 0 <==> a == b
  {
  }

  /** One nanosecond earlier. */
  function Before(t: Instant): Instant {
    if t.nano > 0 then At(t.day, t.nano - 1) else At(t.day - 1, DAY - 1)
  }

  lemma BeforeIsNext(t: Instant)
    ensures Span(Before(t), t) == 1
  {
  }

  /** 1 January of year 1 was a Monday; Sunday is weekday 0. */
  function Weekday(day: int): int {
    (day + 1) % 7
  }

  predicate IsLeap(year: int) {
    year % 4 == 0 && (year % 100 != 0 || year % 400 == 0)
  }

  /** Thirty days has September. */
  function DaysIn(m: int): (days: int)
    ensures 28 <= days <= 31
  {
    if m % 12 == 1 then (if IsLeap(m / 12) then 29 else 28)
    else if m % 12 == 3 || m % 12 == 5 || m % 12 == 8 || m % 12 == 10 then 30
    else 31
  }

  /** The day number of the first of a month: the months are laid end to end on
      both sides of January of year 1. */
  function MonthStart(m: int): int
    decreases if m < 12 then 12 - m else m - 12
  {
    if m == 12 then 0
    else if m > 12 then MonthStart(m - 1) + DaysIn(m - 1)
    else MonthStart(m + 1) - DaysIn(m)
  }

  lemma MonthLength(m: int)
    ensures MonthStart(m + 1) - MonthStart(m) == DaysIn(m)
  {
  }

  lemma {:induction false} MonthsAscend(a: int, b: int)
    requires a < b
    ensures MonthStart(a) < MonthStart(b)
    decreases b - a
  {
    MonthLength(b - 1);
    if a < b - 1 {
      MonthsAscend(a, b - 1);
    }
  }

  /** The month a day lies in, looked for from a guess. */
  function MonthFrom(day: int, guess: int): (m: int)
    ensures MonthStart(m) <= day < MonthStart(m + 1)
    decreases if day < MonthStart(guess) then MonthStart(guess) - day
              else if day >= MonthStart(guess + 1) then day - MonthStart(guess + 1) + 1
              else 0
  {
    if day < MonthStart(guess) then
      MonthLength(guess - 1);
      MonthFrom(day, guess - 1)
    else if day >= MonthStart(guess + 1) then
      MonthLength(guess + 1);
      MonthFrom(day, guess + 1)
    else guess
  }

  function MonthOf(day: int): (m: int)
    ensures MonthStart(m) <= day < MonthStart(m + 1)
  {
    MonthFrom(day, 12 + day / 31)
  }

  lemma MonthIsUnique(day: int, m: int)
    requires MonthStart(m) <= day < MonthStart(m + 1)
    ensures MonthOf(day) == m
  {
    var n := MonthOf(day);
    if n < m {
      if n + 1 < m { MonthsAscend(n + 1, m); }
    } else if m < n {
      if m + 1 < n { MonthsAscend(m + 1, n); }
    }
  }

  /** The start of a day given as a month and a distance from its first, which
      may run over the month's end either way. */
  function DateOf(m: int, days: int): Instant {
    At(MonthStart(m) + days, 0)
  }

  /** Adding to the parts of a date: too many months run into other years, too
      many days into other months. */
  function AddDate(t: Instant, years: int, months: int, days: int): Instant {
    var m := MonthOf(t.day);
    At(MonthStart(m + 12 * years + months) + t.day - MonthStart(m) + days, t.nano)
  }

  lemma StartOfMonthMoves(m: int, years: int, months: int)
    ensures MonthOf(MonthStart(m)) == m
    ensures AddDate(DateOf(m, 0), years, months, 0) == DateOf(m + 12 * years + months, 0)
  {
    hide MonthStart;
    MonthLength(m);
    MonthIsUnique(MonthStart(m), m);
  }

  lemma WholeYears(m: int, years: int)
    ensures (m + 12 * years) % 12 == m % 12 && (m + 12 * years) / 12 == m / 12 + years
  {
  }

  /** Only February differs between years, by one day. */
  lemma SameMonthOfOtherYear(m: int, n: int)
    requires m % 12 == n % 12 && DaysIn(n) < DaysIn(m)
    ensures DaysIn(m) == DaysIn(n) + 1 && (n + 1) / 12 == n / 12
  {
  }

  lemma LandsInYear(m: int, n: int, over: nat)
    requires m % 12 == n % 12 && over < DaysIn(m)
    ensures MonthOf(MonthStart(n) + over) / 12 == n / 12
  {
    hide MonthStart;
    MonthLength(n);
    if over < DaysIn(n) {
      MonthIsUnique(MonthStart(n) + over, n);
    } else {
      SameMonthOfOtherYear(m, n);
      MonthLength(n + 1);
      MonthIsUnique(MonthStart(n) + over, n + 1);
    }
  }

  /** A whole number of years away, a date stays in the year counted off, even
      if it is 29 February and that year has none. */
  lemma AddYearsStaysInYear(t: Instant, years: int)
    ensures MonthOf(AddDate(t, years, 0, 0).day) / 12 == MonthOf(t.day) / 12 + years
  {
    hide MonthStart;
    var m := MonthOf(t.day);
    WholeYears(m, years);
    MonthLength(m);
    LandsInYear(m, m + 12 * years, t.day - MonthStart(m));
  }

  // The months laid end to end make the years of the Gregorian rule.

  lemma MonthOfYear(year: int, k: nat)
    requires k < 12
    ensures DaysIn(12 * year + k)
         == if k == 1 then (if IsLeap(year) then 29 else 28) else if k == 3 || k == 5 || k == 8 || k == 10 then 30 else 31
  {
    assert (12 * year + k) % 12 == k && (12 * year + k) / 12 == year;
  }

  lemma {:induction false} MonthsOfYear(year: int, k: nat)
    requires k <= 12
    ensures MonthStart(12 * year + k) - MonthStart(12 * year)
         == [0, 31, 59, 90, 120, 151, 181, 212, 243, 273, 304, 334, 365][k] + if k > 1 && IsLeap(year) then 1 else 0
  {
    hide MonthStart, DaysIn, IsLeap;
    if k > 0 {
      MonthsOfYear(year, k - 1);
      MonthLength(12 * year + k - 1);
      MonthOfYear(year, k - 1);
    }
  }

  lemma Multiples(n: int)
    ensures n % 100 == 0 ==> n % 4 == 0
    ensures n % 400 == 0 ==> n % 100 == 0
  {
  }

  function LeapDaysBefore(year: int): int {
    (year - 1) / 4 - (year - 1) / 100 + (year - 1) / 400
  }

  lemma QuotientSteps(n: int, d: int)
    requires d == 4 || d == 100 || d == 400
    ensures n / d - (n - 1) / d == if n % d == 0 then 1 else 0
  {
  }

  lemma LeapDaysStep(year: int)
    ensures LeapDaysBefore(year + 1) - LeapDaysBefore(year) == if IsLeap(year) then 1 else 0
  {
    QuotientSteps(year, 4);
    QuotientSteps(year, 100);
    QuotientSteps(year, 400);
    Multiples(year);
  }

  /** Years start where the Gregorian rule says. */
  lemma {:induction false} YearStart(year: int)
    ensures MonthStart(12 * year) == 365 * (year - 1) + LeapDaysBefore(year)
    decreases if year < 1 then 1 - year else year - 1
  {
    hide IsLeap;
    if year > 1 {
      hide MonthStart, LeapDaysBefore;
      YearStart(year - 1);
      MonthsOfYear(year - 1, 12);
      LeapDaysStep(year - 1);
    } else if year < 1 {
      hide MonthStart, LeapDaysBefore;
      YearStart(year + 1);
      MonthsOfYear(year, 12);
      LeapDaysStep(year);
    }
  }

  /** 1 January 1970, from which Unix time counts, was a Thursday. */
  lemma UnixEpoch()
    ensures MonthStart(12 * 1970) == 719_162 && Weekday(719_162) == 4
  {
    hide MonthStart;
    YearStart(1970);
  }

  // The boundaries of the units a moment lies in.

  function BeginningOfDay(t: Instant): Instant {
    At(t.day, 0)
  }

  function EndOfDay(t: Instant): Instant {
    At(t.day, DAY - 1)
  }

  function BeginningOfWeek(t: Instant): Instant {
    AddDate(BeginningOfDay(t), 0, 0, -Weekday(t.day))
  }

  function EndOfWeek(t: Instant): Instant {
    Before(AddDate(BeginningOfWeek(t), 0, 0, 7))
  }

  function BeginningOfMonth(t: Instant): Instant {
    DateOf(MonthOf(t.day), 0)
  }

  function EndOfMonth(t: Instant): Instant {
    Before(AddDate(BeginningOfMonth(t), 0, 1, 0))
  }

  function BeginningOfQuarter(t: Instant): Instant {
    AddDate(BeginningOfMonth(t), 0, -(MonthOf(t.day) % 12 % 3), 0)
  }

  function EndOfQuarter(t: Instant): Instant {
    Before(AddDate(BeginningOfQuarter(t), 0, 3, 0))
  }

  function BeginningOfYear(t: Instant): Instant {
    DateOf(12 * (MonthOf(t.day) / 12), 0)
  }

  function EndOfYear(t: Instant): Instant {
    Before(AddDate(BeginningOfYear(t), 1, 0, 0))
  }
}
