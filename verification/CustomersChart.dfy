/** The chart of new and returning customers: a sparse list of daily counts
    spread over the days of a window. */
module CustomersChart {
  import opened Options
  import opened Calendar

  const UNIX_EPOCH := 719_162
  const SECONDS_A_DAY := 86_400

  /** What the database counted for a day, which it writes as year-month-day. */
  datatype DateCount = DateCount(date: string, count: int)

  datatype ChartItem = ChartItem(unix: int, value: int)

  predicate Digits(s: string) {
    forall i :: 0 <= i < |s| ==> '0' <= s[i] <= '9'
  }

  function Number(s: string): int
    requires Digits(s)
  {
    if s == [] then 0 else 10 * Number(s[..|s| - 1]) + (s[|s| - 1] as int - '0' as int)
  }

  /** The day number of a date, if it is one. */
  function ParseDate(s: string): Option<int> {
    if |s| == 10 && s[4] == '-' && s[7] == '-' && Digits(s[..4]) && Digits(s[5..7]) && Digits(s[8..]) then
      var year, month, day := Number(s[..4]), Number(s[5..7]), Number(s[8..]);
      var m := 12 * year + month - 1;
      if 1 <= month <= 12 && 1 <= day <= DaysIn(m) then Some(MonthStart(m) + day - 1) else None
    else None
  }

  // The dates the database writes.

  function Power(width: nat): nat {
    if width == 0 then 1 else 10 * Power(width - 1)
  }

  function Text(n: nat, width: nat): (s: string)
    ensures |s| == width && Digits(s)
  {
    if width == 0 then "" else Text(n / 10, width - 1) + [(n % 10) as char + '0']
  }

  lemma {:induction false} TextIsNumber(n: nat, width: nat)
    requires n < Power(width)
    ensures Number(Text(n, width)) == n
  {
    if width > 0 {
      TextIsNumber(n / 10, width - 1);
      assert Text(n, width)[..width - 1] == Text(n / 10, width - 1);
    }
  }

  predicate Writable(day: int) {
    0 <= MonthOf(day) / 12 <= 9999
  }

  function DateText(day: int): string
    requires Writable(day)
  {
    var m := MonthOf(day);
    MonthLength(m);
    Text(m / 12, 4) + "-" + Text(m % 12 + 1, 2) + "-" + Text(day - MonthStart(m) + 1, 2)
  }

  /** What the database writes for a day of a four-digit year is read back as
      that day. */
  lemma DatesReadBack(day: int)
    requires Writable(day)
    ensures ParseDate(DateText(day)) == Some(day)
  {
    hide MonthStart, DaysIn, Text;
    var m := MonthOf(day);
    MonthLength(m);
    var s := DateText(day);
    assert s[..4] == Text(m / 12, 4) && s[5..7] == Text(m % 12 + 1, 2) && s[8..] == Text(day - MonthStart(m) + 1, 2);
    assert Power(4) == 10000 && Power(2) == 100;
    TextIsNumber(m / 12, 4);
    TextIsNumber(m % 12 + 1, 2);
    TextIsNumber(day - MonthStart(m) + 1, 2);
  }

  function Label(day: int): int {
    (day - UNIX_EPOCH) * SECONDS_A_DAY
  }

  /** Labels are Unix time: zero on the first of January 1970 and 86400 more from
      day to day, so that two days have their own. */
  lemma LabelsAreUnixTime(day: int)
    ensures Label(MonthStart(12 * 1970)) == 0
    ensures Label(day) == Label(0) + 86400 * day
  {
    UnixEpoch();
    hide MonthStart;
  }

  predicate Dated(rows: seq<DateCount>, j: nat)
    requires j < |rows|
  {
    ParseDate(rows[j].date).Some?
  }

  function DateAt(rows: seq<DateCount>, j: nat): int
    requires j < |rows| && Dated(rows, j)
  {
    ParseDate(rows[j].date).value
  }

  /** The first k rows are dated and go forward in time. */
  predicate Ascending(rows: seq<DateCount>, k: nat) {
    && k <= |rows|
    && (forall j :: 0 <= j < k ==> Dated(rows, j))
    && (forall i, j :: 0 <= i < j < k ==> DateAt(rows, i) < DateAt(rows, j))
  }

  /** The first day the row after the first k can still be drawn at. */
  function Frontier(rows: seq<DateCount>, k: nat, start: int): int
    requires Ascending(rows, k)
  {
    if k == 0 then start else DateAt(rows, k - 1) + 1
  }

  /** The first k rows go forward within the window. */
  predicate Drawable(rows: seq<DateCount>, k: nat, start: int, days: nat) {
    Ascending(rows, k) && forall j :: 0 <= j < k ==> start <= DateAt(rows, j) < start + days
  }

  /** How many rows go forward within the window, from the first on. */
  function Drawn(rows: seq<DateCount>, k: nat, start: int, days: nat): (n: nat)
    requires Drawable(rows, k, start, days)
    ensures Drawable(rows, n, start, days) && (n == |rows| || !Drawable(rows, n + 1, start, days))
    decreases |rows| - k
  {
    if k < |rows| && Drawable(rows, k + 1, start, days) then Drawn(rows, k + 1, start, days) else k
  }

  lemma DrawnIsLongest(rows: seq<DateCount>, n: nat, start: int, days: nat)
    requires Drawable(rows, n, start, days) && (n == |rows| || !Drawable(rows, n + 1, start, days))
    ensures n == Drawn(rows, 0, start, days)
  {
    var k := Drawn(rows, 0, start, days);
    assert k < n ==> Drawable(rows, k + 1, start, days);
    assert n < k ==> Drawable(rows, n + 1, start, days);
  }

  /** The count of a day among the first k rows. */
  function CountOn(rows: seq<DateCount>, k: nat, day: int): int
    requires Ascending(rows, k)
  {
    if k == 0 then 0
    else if DateAt(rows, k - 1) == day then rows[k - 1].count
    else CountOn(rows, k - 1, day)
  }

  /** Whether a date is reached that cannot be read. */
  predicate Unreadable(rows: seq<DateCount>, k: nat, start: int, days: nat)
    requires Ascending(rows, k)
  {
    k < |rows| && !Dated(rows, k) && Frontier(rows, k, start) < start + days
  }

  ghost predicate Draws(chart: seq<ChartItem>, rows: seq<DateCount>, k: nat, start: int, days: nat)
    requires Ascending(rows, k)
  {
    |chart| == days
    && forall i :: 0 <= i < days ==> chart[i] == ChartItem(Label(start + i), CountOn(rows, k, start + i))
  }

  lemma {:induction false} NothingCountedPast(rows: seq<DateCount>, k: nat, day: int)
    requires Ascending(rows, k) && (forall j :: 0 <= j < k ==> DateAt(rows, j) != day)
    ensures CountOn(rows, k, day) == 0
  {
    if k > 0 {
      NothingCountedPast(rows, k - 1, day);
    }
  }

  /** Draws exactly the longest run of rows that goes forward within the window,
      each at its day and zero elsewhere, or fails at a date it cannot read. */
  method ExecuteCustomersChart(rows: seq<DateCount>, start: int, days: nat) returns (chart: Option<seq<ChartItem>>)
    ensures var k := Drawn(rows, 0, start, days);
            && (chart.None? <==> Unreadable(rows, k, start, days))
            && (chart.Some? ==> Draws(chart.value, rows, k, start, days))
  {
    hide ParseDate, Label;
    var items := [];
    var lastDate := start - 1;
    var currIndex := 0;
    for i := 0 to days
      invariant lastDate == start + i - 1
      invariant Drawable(rows, currIndex, start, i)
      invariant Pending(rows, currIndex, start, i)
      invariant Draws(items, rows, currIndex, start, i)
    {
      lastDate := lastDate + 1;
      var value := 0;
      NothingCountedPast(rows, currIndex, lastDate);
      if currIndex < |rows| {
        var currDate := ParseDate(rows[currIndex].date);
        if currDate.None? {
          DrawnIsLongest(rows, currIndex, start, days);
          return None;
        }
        if currDate.value == lastDate {
          OldCountsStay(rows, currIndex, start, i);
          value := rows[currIndex].count;
          currIndex := currIndex + 1;
        }
      }
      items := items + [ChartItem(Label(lastDate), value)];
    }
    DrawnIsLongest(rows, currIndex, start, days);
    return Some(items);
  }

  /** The row waiting to be drawn is still to come, has been missed for good, or
      is unreadable and about to be looked at. */
  predicate Pending(rows: seq<DateCount>, k: nat, start: int, i: int)
    requires Ascending(rows, k)
  {
    k < |rows| ==>
      if Dated(rows, k) then DateAt(rows, k) >= start + i || DateAt(rows, k) < Frontier(rows, k, start)
      else Frontier(rows, k, start) == start + i
  }

  lemma OldCountsStay(rows: seq<DateCount>, k: nat, start: int, i: nat)
    requires Drawable(rows, k, start, i) && k < |rows| && Dated(rows, k) && DateAt(rows, k) == start + i
    ensures Drawable(rows, k + 1, start, i + 1)
    ensures forall day :: day < start + i ==> CountOn(rows, k + 1, day) == CountOn(rows, k, day)
    ensures CountOn(rows, k + 1, start + i) == rows[k].count
  {
    forall day | day < start + i ensures CountOn(rows, k + 1, day) == CountOn(rows, k, day) {
      assert DateAt(rows, k) != day;
    }
  }

  // For a list in the order the database sorts it in, none of it before the
  // window, the chart is a lookup day by day.

  /** Rows dated, in ascending order, from the start on. */
  predicate Sorted(rows: seq<DateCount>, start: int) {
    Ascending(rows, |rows|) && forall j :: 0 <= j < |rows| ==> start <= DateAt(rows, j)
  }

  lemma {:induction false} CountsFound(rows: seq<DateCount>, k: nat, j: nat)
    requires j < k && Ascending(rows, k)
    ensures CountOn(rows, k, DateAt(rows, j)) == rows[j].count
  {
    if j < k - 1 {
      CountsFound(rows, k - 1, j);
    }
  }

  lemma {:induction false} LaterRowsDoNotShow(rows: seq<DateCount>, k: nat, n: nat, day: int)
    requires k <= n && Ascending(rows, n) && (forall j :: k <= j < n ==> DateAt(rows, j) != day)
    ensures CountOn(rows, n, day) == CountOn(rows, k, day)
    decreases n
  {
    if k < n {
      LaterRowsDoNotShow(rows, k, n - 1, day);
    }
  }

  /** For a list none of which is before the window, the rows drawn are those of
      the window. */
  lemma SortedListsDrawTheWindow(rows: seq<DateCount>, start: int, days: nat)
    requires Sorted(rows, start)
    ensures var k := Drawn(rows, 0, start, days);
            forall j :: 0 <= j < |rows| ==> (j < k <==> DateAt(rows, j) < start + days)
  {
    hide ParseDate;
  }

  /** Entry i is labelled with the i-th day of the window and holds that day's
      count, or zero if the list has no row for it. */
  lemma ChartIsLookup(rows: seq<DateCount>, start: int, days: nat, chart: seq<ChartItem>)
    requires Sorted(rows, start)
    requires Draws(chart, rows, Drawn(rows, 0, start, days), start, days)
    ensures !Unreadable(rows, Drawn(rows, 0, start, days), start, days)
    ensures forall i :: 0 <= i < days ==> chart[i].unix == Label(start + i)
    ensures forall i, j :: 0 <= i < days && 0 <= j < |rows| && DateAt(rows, j) == start + i ==>
              chart[i].value == rows[j].count
    ensures forall i :: 0 <= i < days && (forall j :: 0 <= j < |rows| ==> DateAt(rows, j) != start + i) ==>
              chart[i].value == 0
  {
    hide ParseDate, Label, CountOn;
    var k := Drawn(rows, 0, start, days);
    SortedListsDrawTheWindow(rows, start, days);
    hide Drawn;
    forall i | 0 <= i < days ensures chart[i].value == CountOn(rows, |rows|, start + i) {
      LaterRowsDoNotShow(rows, k, |rows|, start + i);
    }
    forall j | 0 <= j < |rows| ensures CountOn(rows, |rows|, DateAt(rows, j)) == rows[j].count {
      CountsFound(rows, |rows|, j);
    }
    forall i | 0 <= i < days && (forall j :: 0 <= j < |rows| ==> DateAt(rows, j) != start + i)
      ensures chart[i].value == 0
    {
      NothingCountedPast(rows, |rows|, start + i);
    }
  }

  // Totals

  function Total(chart: seq<ChartItem>): int {
    if chart == [] then 0 else Total(chart[..|chart| - 1]) + chart[|chart| - 1].value
  }

  function SumCounts(rows: seq<DateCount>): int {
    if rows == [] then 0 else SumCounts(rows[..|rows| - 1]) + rows[|rows| - 1].count
  }

  function SumDays(rows: seq<DateCount>, k: nat, start: int, days: nat): int
    requires Ascending(rows, k)
  {
    if days == 0 then 0 else SumDays(rows, k, start, days - 1) + CountOn(rows, k, start + days - 1)
  }

  lemma {:induction false} NoRowsNoSum(rows: seq<DateCount>, start: int, days: nat)
    ensures SumDays(rows, 0, start, days) == 0
  {
    if days > 0 {
      NoRowsNoSum(rows, start, days - 1);
    }
  }

  lemma {:induction false} OneMoreRow(rows: seq<DateCount>, k: nat, start: int, days: nat)
    requires k < |rows| && Ascending(rows, k + 1)
    ensures SumDays(rows, k + 1, start, days) - SumDays(rows, k, start, days)
         == if start <= DateAt(rows, k) < start + days then rows[k].count else 0
  {
    if days > 0 {
      OneMoreRow(rows, k, start, days - 1);
      if DateAt(rows, k) == start + days - 1 {
        NothingCountedPast(rows, k, start + days - 1);
      }
    }
  }

  lemma {:induction false} DaysSumToCounts(rows: seq<DateCount>, k: nat, start: int, days: nat)
    requires Drawable(rows, k, start, days)
    ensures SumDays(rows, k, start, days) == SumCounts(rows[..k])
    decreases k
  {
    if k == 0 {
      NoRowsNoSum(rows, start, days);
    } else {
      DaysSumToCounts(rows, k - 1, start, days);
      OneMoreRow(rows, k - 1, start, days);
      assert rows[..k][..k - 1] == rows[..k - 1];
    }
  }

  lemma {:induction false} ChartSumsDays(chart: seq<ChartItem>, rows: seq<DateCount>, k: nat, start: int, days: nat)
    requires Ascending(rows, k) && Draws(chart, rows, k, start, days)
    ensures Total(chart) == SumDays(rows, k, start, days)
    decreases days
  {
    if days > 0 {
      ChartSumsDays(chart[..days - 1], rows, k, start, days - 1);
    }
  }

  /** Nothing drawn is lost or counted twice: the chart adds up to the rows
      drawn, whatever the list. */
  lemma ChartConserves(rows: seq<DateCount>, start: int, days: nat, chart: seq<ChartItem>)
    requires Draws(chart, rows, Drawn(rows, 0, start, days), start, days)
    ensures Total(chart) == SumCounts(rows[..Drawn(rows, 0, start, days)])
  {
    var k := Drawn(rows, 0, start, days);
    ChartSumsDays(chart, rows, k, start, days);
    DaysSumToCounts(rows, k, start, days);
  }

  /** One row before the window leaves the whole chart at zero. */
  lemma EarlyRowBlanksTheChart(rows: seq<DateCount>, start: int, days: nat, chart: seq<ChartItem>)
    requires rows != [] && Dated(rows, 0) && DateAt(rows, 0) < start
    requires Draws(chart, rows, Drawn(rows, 0, start, days), start, days)
    ensures forall i :: 0 <= i < days ==> chart[i].value == 0
  {
  }

  /** No date the database writes is unreadable, so no chart of its rows fails. */
  lemma WrittenDatesNeverFail(rows: seq<DateCount>, days: seq<int>, k: nat, start: int, n: nat)
    requires |days| == |rows| && Ascending(rows, k)
    requires forall j :: 0 <= j < |rows| ==> Writable(days[j]) && rows[j].date == DateText(days[j])
    ensures !Unreadable(rows, k, start, n)
  {
    if k < |rows| {
      DatesReadBack(days[k]);
    }
  }
}
