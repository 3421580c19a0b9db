/** The named periods of the dashboard, and the processor that reports on one. */
module Periods {
  import opened Options
  import opened ObjectIds
  import opened Calendar

  datatype Period =
    | CurrentDay | PreviousDay | TwoDaysAgo
    | CurrentWeek | PreviousWeek | TwoWeeksAgo
    | CurrentMonth | PreviousMonth | TwoMonthsAgo
    | CurrentQuarter | PreviousQuarter | TwoQuarterAgo
    | CurrentYear | PreviousYear | TwoYearsAgo
    | Other(name: string)

  /** Both ends belong to the window. */
  datatype Window = Window(gte: Instant, lte: Instant)

  /** The period a report is compared with; the table has no row for the rest. */
  function PreviousOf(p: Period): Period {
    match p
    case CurrentDay => PreviousDay
    case PreviousDay => TwoDaysAgo
    case CurrentWeek => PreviousWeek
    case PreviousWeek => TwoWeeksAgo
    case CurrentMonth => PreviousMonth
    case PreviousMonth => TwoMonthsAgo
    case CurrentQuarter => PreviousQuarter
    case PreviousQuarter => TwoQuarterAgo
    case CurrentYear => PreviousYear
    case PreviousYear => TwoYearsAgo
    case _ => Other("")
  }

  function DayWindow(t: Instant): Window {
    Window(BeginningOfDay(t), EndOfDay(t))
  }

  function WeekWindow(t: Instant): Window {
    Window(BeginningOfWeek(t), EndOfWeek(t))
  }

  function MonthWindow(t: Instant): Window {
    Window(BeginningOfMonth(t), EndOfMonth(t))
  }

  function QuarterWindow(t: Instant): Window {
    Window(BeginningOfQuarter(t), EndOfQuarter(t))
  }

  function YearWindow(t: Instant): Window {
    Window(BeginningOfYear(t), EndOfYear(t))
  }

  function StartAndEnd(p: Period, now: Instant): Option<Window> {
    match p
    case CurrentDay => Some(DayWindow(now))
    case PreviousDay => Some(DayWindow(AddDate(now, 0, 0, -1)))
    case TwoDaysAgo => Some(DayWindow(AddDate(now, 0, 0, -2)))
    case CurrentWeek => Some(WeekWindow(now))
    case PreviousWeek => Some(WeekWindow(AddDate(now, 0, 0, -7)))
    case TwoWeeksAgo => Some(WeekWindow(AddDate(now, 0, 0, -14)))
    case CurrentMonth => Some(MonthWindow(now))
    case PreviousMonth => Some(MonthWindow(AddDate(BeginningOfMonth(now), 0, -1, 0)))
    case TwoMonthsAgo => Some(MonthWindow(AddDate(BeginningOfMonth(now), 0, -2, 0)))
    case CurrentQuarter => Some(QuarterWindow(now))
    case PreviousQuarter => Some(QuarterWindow(AddDate(BeginningOfQuarter(now), 0, -1, 0)))
    case TwoQuarterAgo => Some(QuarterWindow(AddDate(BeginningOfQuarter(now), 0, -4, 0)))
    case CurrentYear => Some(YearWindow(now))
    case PreviousYear => Some(YearWindow(AddDate(now, -1, 0, 0)))
    case TwoYearsAgo => Some(YearWindow(AddDate(now, -2, 0, 0)))
    case Other(_) => None
  }

  // What the windows mean: time is divided into numbered units, and a period
  // is the unit some way back from the one of the moment.

  datatype Grid = Days | Weeks | Months | Quarters | Years

  /** The first day of a unit. Weeks start on Sunday. */
  function FirstDay(g: Grid, n: int): int {
    match g
    case Days => n
    case Weeks => 7 * n - 1
    case Months => MonthStart(n)
    case Quarters => MonthStart(3 * n)
    case Years => MonthStart(12 * n)
  }

  function UnitWindow(g: Grid, n: int): Window {
    Window(At(FirstDay(g, n), 0), Before(At(FirstDay(g, n + 1), 0)))
  }

  function UnitOf(g: Grid, day: int): int {
    match g
    case Days => day
    case Weeks => (day + 1) / 7
    case Months => MonthOf(day)
    case Quarters => MonthOf(day) / 3
    case Years => MonthOf(day) / 12
  }

  function GridOf(p: Period): Grid {
    match p
    case CurrentDay | PreviousDay | TwoDaysAgo => Days
    case CurrentWeek | PreviousWeek | TwoWeeksAgo => Weeks
    case CurrentMonth | PreviousMonth | TwoMonthsAgo => Months
    case CurrentQuarter | PreviousQuarter | TwoQuarterAgo => Quarters
    case CurrentYear | PreviousYear | TwoYearsAgo | Other(_) => Years
  }

  function UnitsBack(p: Period): nat {
    match p
    case CurrentDay | CurrentWeek | CurrentMonth | CurrentQuarter | CurrentYear => 0
    case PreviousDay | PreviousWeek | PreviousMonth | PreviousQuarter | PreviousYear => 1
    case TwoDaysAgo | TwoWeeksAgo | TwoMonthsAgo | TwoQuarterAgo | TwoYearsAgo => 2
    case Other(_) => 3
  }

  function Meaning(p: Period, today: int): Option<Window> {
    if p.Other? then None
    else Some(UnitWindow(GridOf(p), UnitOf(GridOf(p), today) - UnitsBack(p)))
  }

  lemma MonthsKeepOrder(a: int, b: int)
    requires a <= b
    ensures MonthStart(a) <= MonthStart(b)
    ensures a < b ==> MonthStart(a) < MonthStart(b)
  {
    if a < b {
      MonthsAscend(a, b);
    }
  }

  lemma UnitsAscend(g: Grid, a: int, b: int)
    requires a < b
    ensures FirstDay(g, a) < FirstDay(g, b)
  {
    match g
    case Days =>
    case Weeks =>
    case Months => MonthsAscend(a, b);
    case Quarters => MonthsAscend(3 * a, 3 * b);
    case Years => MonthsAscend(12 * a, 12 * b);
  }

  /** Every day lies in a unit of each grid ... */
  lemma UnitHolds(g: Grid, day: int)
    ensures FirstDay(g, UnitOf(g, day)) <= day < FirstDay(g, UnitOf(g, day) + 1)
  {
    hide MonthStart;
    var m := MonthOf(day);
    match g
    case Days =>
    case Weeks =>
    case Months =>
    case Quarters =>
      MonthsKeepOrder(3 * (m / 3), m);
      MonthsKeepOrder(m + 1, 3 * (m / 3 + 1));
    case Years =>
      MonthsKeepOrder(12 * (m / 12), m);
      MonthsKeepOrder(m + 1, 12 * (m / 12 + 1));
  }

  /** ... and in no other. */
  lemma UnitIsUnique(g: Grid, day: int, n: int)
    ensures UnitOf(g, day) == n <==> FirstDay(g, n) <= day < FirstDay(g, n + 1)
  {
    hide MonthStart, MonthOf;
    UnitHolds(g, day);
    var m := UnitOf(g, day);
    if m < n {
      if m + 1 < n { UnitsAscend(g, m + 1, n); }
    } else if n < m {
      if n + 1 < m { UnitsAscend(g, n + 1, m); }
    }
  }

  lemma WeeksStartOnSunday(n: int)
    ensures Weekday(FirstDay(Weeks, n)) == 0
  {
  }

  // The five kinds of window are the units of the five grids.

  lemma DayWindowIsUnit(t: Instant)
    ensures DayWindow(t) == UnitWindow(Days, UnitOf(Days, t.day))
  {
  }

  lemma WeekWindowIsUnit(t: Instant)
    ensures WeekWindow(t) == UnitWindow(Weeks, UnitOf(Weeks, t.day))
  {
    assert t.day - Weekday(t.day) == 7 * ((t.day + 1) / 7) - 1;
  }

  lemma MonthWindowIsUnit(t: Instant)
    ensures MonthWindow(t) == UnitWindow(Months, UnitOf(Months, t.day))
  {
    StartOfMonthMoves(MonthOf(t.day), 0, 1);
  }

  lemma QuarterMonths(m: int)
    ensures m - m % 12 % 3 == 3 * (m / 3)
  {
  }

  lemma QuarterBegins(t: Instant)
    ensures BeginningOfQuarter(t) == DateOf(3 * UnitOf(Quarters, t.day), 0)
  {
    hide MonthStart;
    var m := MonthOf(t.day);
    QuarterMonths(m);
    StartOfMonthMoves(m, 0, -(m % 12 % 3));
  }

  lemma QuarterWindowIsUnit(t: Instant)
    ensures QuarterWindow(t) == UnitWindow(Quarters, UnitOf(Quarters, t.day))
  {
    hide MonthStart;
    QuarterBegins(t);
    StartOfMonthMoves(3 * UnitOf(Quarters, t.day), 0, 3);
  }

  lemma YearBounds(y: int)
    ensures UnitWindow(Years, y) == Window(DateOf(12 * y, 0), Before(AddDate(DateOf(12 * y, 0), 1, 0, 0)))
  {
    hide MonthStart;
    StartOfMonthMoves(12 * y, 1, 0);
  }

  lemma YearWindowIsUnit(t: Instant)
    ensures YearWindow(t) == UnitWindow(Years, UnitOf(Years, t.day))
  {
    YearBounds(UnitOf(Years, t.day));
  }

  // Stepping back from the moment, or from the start of its unit, lands in the
  // unit meant.

  lemma WeeksBack(t: Instant, weeks: int)
    ensures UnitOf(Weeks, AddDate(t, 0, 0, 7 * weeks).day) == UnitOf(Weeks, t.day) + weeks
  {
  }

  lemma MonthsBack(t: Instant, months: int)
    ensures UnitOf(Months, AddDate(BeginningOfMonth(t), 0, months, 0).day) == UnitOf(Months, t.day) + months
  {
    hide MonthStart;
    var m := MonthOf(t.day);
    StartOfMonthMoves(m, 0, months);
    StartOfMonthMoves(m + months, 0, 0);
  }

  /** One month before a quarter is in the quarter before, and four months
      before it are in the one before that. */
  lemma QuartersBack(t: Instant, months: int)
    ensures UnitOf(Quarters, AddDate(BeginningOfQuarter(t), 0, months, 0).day)
         == UnitOf(Quarters, t.day) + months / 3
  {
    hide MonthStart;
    var q := UnitOf(Quarters, t.day);
    QuarterBegins(t);
    StartOfMonthMoves(3 * q, 0, months);
    StartOfMonthMoves(3 * q + months, 0, 0);
  }

  lemma YearsBack(t: Instant, years: int)
    ensures UnitOf(Years, AddDate(t, years, 0, 0).day) == UnitOf(Years, t.day) + years
  {
    AddYearsStaysInYear(t, years);
  }

  lemma DayPeriods(p: Period, now: Instant)
    requires GridOf(p) == Days
    ensures StartAndEnd(p, now) == Meaning(p, now.day)
  {
    var back := AddDate(now, 0, 0, 0 - UnitsBack(p));
    DayWindowIsUnit(now);
    DayWindowIsUnit(back);
  }

  lemma WeekPeriods(p: Period, now: Instant)
    requires GridOf(p) == Weeks
    ensures StartAndEnd(p, now) == Meaning(p, now.day)
  {
    hide MonthStart;
    var weeks := 0 - UnitsBack(p);
    WeekWindowIsUnit(now);
    WeekWindowIsUnit(AddDate(now, 0, 0, 7 * weeks));
    WeeksBack(now, weeks);
  }

  lemma MonthWindowBack(now: Instant, months: int)
    ensures MonthWindow(AddDate(BeginningOfMonth(now), 0, months, 0))
         == UnitWindow(Months, UnitOf(Months, now.day) + months)
  {
    hide MonthStart, MonthWindow, UnitWindow, UnitOf, AddDate;
    MonthWindowIsUnit(AddDate(BeginningOfMonth(now), 0, months, 0));
    MonthsBack(now, months);
  }

  lemma MonthPeriods(p: Period, now: Instant)
    requires GridOf(p) == Months
    ensures StartAndEnd(p, now) == Meaning(p, now.day)
  {
    hide MonthWindow, UnitWindow, UnitOf, AddDate, BeginningOfMonth;
    MonthWindowIsUnit(now);
    MonthWindowBack(now, -1);
    MonthWindowBack(now, -2);
  }

  lemma QuarterWindowBack(now: Instant, months: int)
    ensures QuarterWindow(AddDate(BeginningOfQuarter(now), 0, months, 0))
         == UnitWindow(Quarters, UnitOf(Quarters, now.day) + months / 3)
  {
    hide MonthStart, QuarterWindow, UnitWindow, UnitOf, AddDate;
    QuarterWindowIsUnit(AddDate(BeginningOfQuarter(now), 0, months, 0));
    QuartersBack(now, months);
  }

  lemma QuarterPeriods(p: Period, now: Instant)
    requires GridOf(p) == Quarters
    ensures StartAndEnd(p, now) == Meaning(p, now.day)
  {
    hide QuarterWindow, UnitWindow, UnitOf, AddDate, BeginningOfQuarter;
    QuarterWindowIsUnit(now);
    QuarterWindowBack(now, -1);
    QuarterWindowBack(now, -4);
  }

  lemma YearWindowBack(now: Instant, years: int)
    ensures YearWindow(AddDate(now, years, 0, 0)) == UnitWindow(Years, UnitOf(Years, now.day) + years)
  {
    hide MonthStart, YearWindow, UnitWindow, UnitOf, AddDate;
    YearWindowIsUnit(AddDate(now, years, 0, 0));
    YearsBack(now, years);
  }

  lemma YearPeriods(p: Period, now: Instant)
    requires GridOf(p) == Years && !p.Other?
    ensures StartAndEnd(p, now) == Meaning(p, now.day)
  {
    hide YearWindow, UnitWindow, UnitOf, AddDate;
    YearWindowIsUnit(now);
    YearWindowBack(now, -1);
    YearWindowBack(now, -2);
  }

  /** Every known period is the unit of its grid as many units back as its name
      says, at every instant; an unknown one is refused. */
  lemma PeriodIsUnit(p: Period, now: Instant)
    ensures StartAndEnd(p, now) == Meaning(p, now.day)
  {
    if !p.Other? {
      match GridOf(p)
      case Days => DayPeriods(p, now);
      case Weeks => WeekPeriods(p, now);
      case Months => MonthPeriods(p, now);
      case Quarters => QuarterPeriods(p, now);
      case Years => YearPeriods(p, now);
    }
  }

  predicate Current(p: Period) {
    p.CurrentDay? || p.CurrentWeek? || p.CurrentMonth? || p.CurrentQuarter? || p.CurrentYear?
  }

  predicate Has(w: Window, t: Instant) {
    NotAfter(w.gte, t) && NotAfter(t, w.lte)
  }

  /** A unit holds exactly the instants of its days. */
  lemma UnitWindowHas(g: Grid, n: int, t: Instant)
    ensures Has(UnitWindow(g, n), t) <==> UnitOf(g, t.day) == n
  {
    UnitIsUnique(g, t.day, n);
  }

  /** The first window ends a nanosecond before the second, and they share no
      instant. */
  ghost predicate Adjoin(v: Window, w: Window) {
    Span(v.lte, w.gte) == 1 && forall t :: Has(v, t) ==> !Has(w, t)
  }

  lemma UnitsAdjoin(g: Grid, n: int)
    ensures Adjoin(UnitWindow(g, n), UnitWindow(g, n + 1))
  {
    BeforeIsNext(At(FirstDay(g, n + 1), 0));
    forall t | Has(UnitWindow(g, n), t) ensures !Has(UnitWindow(g, n + 1), t) {
      UnitWindowHas(g, n, t);
      UnitWindowHas(g, n + 1, t);
    }
  }

  /** The moment is in the current window; the window it is compared with comes
      right before it, and the one before that right before both. */
  lemma WindowsTile(p: Period, now: Instant)
    requires Current(p)
    ensures var prev, two := PreviousOf(p), PreviousOf(PreviousOf(p));
            var w, v, u := StartAndEnd(p, now), StartAndEnd(prev, now), StartAndEnd(two, now);
            && w.Some? && v.Some? && u.Some?
            && Has(w.value, now) && Adjoin(v.value, w.value) && Adjoin(u.value, v.value)
  {
    hide StartAndEnd, UnitWindow, UnitOf, Has, Adjoin;
    var g := GridOf(p);
    var n := UnitOf(g, now.day);
    PeriodIsUnit(p, now);
    PeriodIsUnit(PreviousOf(p), now);
    PeriodIsUnit(PreviousOf(PreviousOf(p)), now);
    UnitWindowHas(g, n, now);
    UnitsAdjoin(g, n - 1);
    UnitsAdjoin(g, n - 2);
  }

  /** A period two units back has none to be compared with, so a report on it
      is refused. */
  lemma TwoBackIsLast(p: Period, now: Instant)
    requires !p.Other?
    ensures StartAndEnd(PreviousOf(p), now).None? <==> UnitsBack(p) == 2
  {
  }

  // How long a report on a period may be kept.

  function EndOfUnit(p: Period, now: Instant): Instant {
    match GridOf(p)
    case Days => EndOfDay(now)
    case Weeks => EndOfWeek(now)
    case Months => EndOfMonth(now)
    case Quarters => EndOfQuarter(now)
    case Years => EndOfYear(now)
  }

  lemma UnitEnds(p: Period, now: Instant)
    requires !p.Other?
    ensures EndOfUnit(p, now) == UnitWindow(GridOf(p), UnitOf(GridOf(p), now.day)).lte
  {
    match GridOf(p)
    case Days => DayWindowIsUnit(now);
    case Weeks => WeekWindowIsUnit(now);
    case Months => MonthWindowIsUnit(now);
    case Quarters => QuarterWindowIsUnit(now);
    case Years => YearWindowIsUnit(now);
  }

  /** Zero means that reports are not kept. */
  function Expiry(p: Period, now: Instant): int {
    if Current(p) || p.Other? then 0 else Span(now, EndOfUnit(p, now))
  }

  lemma DifferentUnitsDiffer(g: Grid, m: int, n: int)
    ensures UnitWindow(g, m) == UnitWindow(g, n) <==> m == n
  {
    if m < n {
      UnitsAscend(g, m, n);
    } else if n < m {
      UnitsAscend(g, n, m);
    }
  }

  /** A report on a past period is kept for exactly as long as the name of the
      period goes on to mean the same window. */
  lemma ReportNeverOutlivesItsMeaning(p: Period, now: Instant, later: Instant)
    requires !Current(p) && !p.Other? && NotAfter(now, later)
    ensures Span(now, later) <= Expiry(p, now) <==> StartAndEnd(p, later) == StartAndEnd(p, now)
    ensures 0 <= Expiry(p, now)
  {
    hide StartAndEnd, UnitOf, EndOfUnit, FirstDay;
    var g := GridOf(p);
    var n := UnitOf(g, now.day);
    PeriodIsUnit(p, now);
    PeriodIsUnit(p, later);
    UnitEnds(p, now);
    UnitWindowHas(g, n, now);
    UnitWindowHas(g, n, later);
    SpanOrders(now, later, EndOfUnit(p, now));
    SpanOrders(now, now, EndOfUnit(p, now));
    DifferentUnitsDiffer(g, UnitOf(g, later.day) - UnitsBack(p), n - UnitsBack(p));
  }

  datatype Grouping = ByHour | ByPeriodInDay | ByDay | ByWeek | ByMonth

  function GroupingOf(g: Grid): Grouping {
    match g
    case Days => ByHour
    case Weeks => ByPeriodInDay
    case Months => ByDay
    case Quarters => ByWeek
    case Years => ByMonth
  }

  /** The orders a report is about. */
  datatype Match = Match(merchant: string, status: string, closed: Window)

  class Processor {
    var filter: Match
    var groupBy: Grouping
    var cacheExpire: int
    var cacheKey: string

    constructor (filter: Match)
      ensures this.filter == filter && cacheExpire == 0 && cacheKey == "" && groupBy == ByHour
    {
      this.filter, groupBy, cacheExpire, cacheKey := filter, ByHour, 0, "";
    }

    /** Sets the window, the grouping and the time a report is kept, which it
        leaves alone for current periods. */
    method SetPeriod(period: Period, now: Instant) returns (known: bool)
      modifies this`filter, this`groupBy, this`cacheExpire
      ensures known <==> !period.Other?
      ensures known ==>
                && Some(filter.closed) == StartAndEnd(period, now)
                && filter == old(filter).(closed := filter.closed)
                && groupBy == GroupingOf(GridOf(period))
                && cacheExpire == if Current(period) then old(cacheExpire) else Expiry(period, now)
    {
      hide AddDate, BeginningOfWeek, BeginningOfMonth, BeginningOfQuarter, BeginningOfYear;
      hide EndOfWeek, EndOfMonth, EndOfQuarter, EndOfYear, Span, MonthOf;
      match period {
        case CurrentDay =>
          groupBy := ByHour;
          filter := filter.(closed := Window(BeginningOfDay(now), EndOfDay(now)));
        case PreviousDay | TwoDaysAgo =>
          var decrement := if period == TwoDaysAgo then -2 else -1;
          var previousDay := AddDate(now, 0, 0, decrement);
          groupBy := ByHour;
          filter := filter.(closed := Window(BeginningOfDay(previousDay), EndOfDay(previousDay)));
          cacheExpire := Span(now, EndOfDay(now));
        case CurrentWeek =>
          groupBy := ByPeriodInDay;
          filter := filter.(closed := Window(BeginningOfWeek(now), EndOfWeek(now)));
        case PreviousWeek | TwoWeeksAgo =>
          var decrement := if period == TwoWeeksAgo then -14 else -7;
          var previousWeek := AddDate(now, 0, 0, decrement);
          groupBy := ByPeriodInDay;
          filter := filter.(closed := Window(BeginningOfWeek(previousWeek), EndOfWeek(previousWeek)));
          cacheExpire := Span(now, EndOfWeek(now));
        case CurrentMonth =>
          groupBy := ByDay;
          filter := filter.(closed := Window(BeginningOfMonth(now), EndOfMonth(now)));
        case PreviousMonth | TwoMonthsAgo =>
          var decrement := if period == TwoMonthsAgo then -2 else -1;
          var previousMonth := AddDate(BeginningOfMonth(now), 0, decrement, 0);
          groupBy := ByDay;
          filter := filter.(closed := Window(BeginningOfMonth(previousMonth), EndOfMonth(previousMonth)));
          cacheExpire := Span(now, EndOfMonth(now));
        case CurrentQuarter =>
          groupBy := ByWeek;
          filter := filter.(closed := Window(BeginningOfQuarter(now), EndOfQuarter(now)));
        case PreviousQuarter | TwoQuarterAgo =>
          var decrement := if period == TwoQuarterAgo then -4 else -1;
          var previousQuarter := AddDate(BeginningOfQuarter(now), 0, decrement, 0);
          groupBy := ByWeek;
          filter := filter.(closed := Window(BeginningOfQuarter(previousQuarter), EndOfQuarter(previousQuarter)));
          cacheExpire := Span(now, EndOfQuarter(now));
        case CurrentYear =>
          groupBy := ByMonth;
          filter := filter.(closed := Window(BeginningOfYear(now), EndOfYear(now)));
        case PreviousYear | TwoYearsAgo =>
          var decrement := if period == TwoYearsAgo then -2 else -1;
          var previousYear := AddDate(now, decrement, 0, 0);
          groupBy := ByMonth;
          filter := filter.(closed := Window(BeginningOfYear(previousYear), EndOfYear(previousYear)));
          cacheExpire := Span(now, EndOfYear(now));
        case Other(_) =>
          return false;
      }
      return true;
    }
  }

  /** The processor for a period, or none for a malformed merchant id or an
      unknown period. `digest` stands for the hash of the filter. */
  method NewProcessor(merchantId: string, period: Period, mask: string, status: string, now: Instant,
                      digest: Match -> string)
    returns (p: Processor?)
    ensures p == null <==> ParseId(merchantId).None? || period.Other?
    ensures p != null ==> fresh(p)
    ensures p != null ==>
              && Some(p.filter.closed) == StartAndEnd(period, now)
              && p.filter == Match(ParseId(merchantId).value, status, p.filter.closed)
              && p.groupBy == GroupingOf(GridOf(period))
              && (p.groupBy == ByHour <==> period in {CurrentDay, PreviousDay, TwoDaysAgo})
              && (p.groupBy == ByPeriodInDay <==> period in {CurrentWeek, PreviousWeek, TwoWeeksAgo})
              && (p.groupBy == ByDay <==> period in {CurrentMonth, PreviousMonth, TwoMonthsAgo})
              && (p.groupBy == ByWeek <==> period in {CurrentQuarter, PreviousQuarter, TwoQuarterAgo})
              && (p.groupBy == ByMonth <==> period in {CurrentYear, PreviousYear, TwoYearsAgo})
              && p.cacheExpire == Expiry(period, now)
              && p.cacheKey == if p.cacheExpire > 0 then mask + digest(p.filter) else ""
  {
    hide StartAndEnd, Span, EndOfUnit, ParseId;
    var merchant := ParseId(merchantId);
    if merchant.None? {
      return null;
    }
    p := new Processor(Match(merchant.value, status, Window(now, now)));
    var known := p.SetPeriod(period, now);
    if !known {
      return null;
    }
    if p.cacheExpire > 0 {
      p.cacheKey := mask + digest(p.filter);
    }
  }

  // Reports from the cache.

  /** What each kind of report, told by its key mask, makes of the data and a
      filter; none when the query fails. */
  type Queries<-D, +R> = (D, string, Match) -> Option<R>

  /** A digest is as long as any other and belongs to one filter. */
  ghost predicate Digests(digest: Match -> string) {
    forall a, b :: |digest(a)| == |digest(b)| && (digest(a) == digest(b) ==> a == b)
  }

  lemma KeyTellsReport(digest: Match -> string, mask: string, a: Match, mask': string, b: Match)
    requires Digests(digest) && mask + digest(a) == mask' + digest(b)
    ensures mask == mask' && a == b
  {
    var s, t := mask + digest(a), mask' + digest(b);
    assert |mask| == |mask'|;
    assert s[..|mask|] == mask && t[..|mask'|] == mask';
    assert s[|mask|..] == digest(a) && t[|mask'|..] == digest(b);
  }

  class ReportCache<D(!new), R(==)> {
    var kept: map<string, R>

    /** Whatever is kept under the key of a report was that report at some state
        the data has been in. */
    ghost predicate Faithful(queries: Queries<D, R>, digest: Match -> string, past: seq<D>)
      reads this
    {
      forall mask, filter :: mask + digest(filter) in kept ==>
        exists i :: 0 <= i < |past| && queries(past[i], mask, filter) == Some(kept[mask + digest(filter)])
    }

    constructor ()
      ensures kept == map[]
    {
      kept := map[];
    }

    /** A report that is not kept is that of the data as they are. One that is may
        be of an earlier state of the data, but never of another filter or kind;
        so it is the present one if the data of its filter have not changed. */
    method ExecuteReport(p: Processor, mask: string, queries: Queries<D, R>, digest: Match -> string, data: D,
                         ghost past: seq<D>)
      returns (report: Option<R>)
      requires Digests(digest) && Faithful(queries, digest, past)
      requires p.cacheExpire > 0 ==> p.cacheKey == mask + digest(p.filter)
      modifies this
      ensures Faithful(queries, digest, past + [data])
      ensures p.cacheExpire <= 0 ==> report == queries(data, mask, p.filter) && kept == old(kept)
      ensures report == queries(data, mask, p.filter)
              || (report.Some? && exists i :: 0 <= i < |past| && queries(past[i], mask, p.filter) == report)
      ensures (forall i :: 0 <= i < |past| ==> queries(past[i], mask, p.filter) == queries(data, mask, p.filter)) ==>
                report == queries(data, mask, p.filter)
      ensures kept == if p.cacheExpire > 0 && report.Some? then old(kept)[p.cacheKey := report.value] else old(kept)
    {
      ghost var now := past + [data];
      assert forall i :: 0 <= i < |past| ==> now[i] == past[i];
      assert now[|past|] == data;
      if p.cacheExpire > 0 && p.cacheKey in kept {
        assert old(kept) == old(kept)[p.cacheKey := kept[p.cacheKey]];
        return Some(kept[p.cacheKey]);
      }
      report := queries(data, mask, p.filter);
      if report.Some? && p.cacheExpire > 0 {
        kept := kept[p.cacheKey := report.value];
        forall mask', filter | mask' + digest(filter) in kept
          ensures exists i :: 0 <= i < |now| && queries(now[i], mask', filter) == Some(kept[mask' + digest(filter)]) {
          if mask' + digest(filter) == p.cacheKey {
            KeyTellsReport(digest, mask', filter, mask, p.filter);
            assert queries(now[|past|], mask', filter) == Some(kept[mask' + digest(filter)]);
          } else {
            var i :| 0 <= i < |past| && queries(past[i], mask', filter) == Some(old(kept)[mask' + digest(filter)]);
            assert now[i] == past[i];
          }
        }
      }
    }
  }
}
