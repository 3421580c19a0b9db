/** The royalty summary of a merchant: order views are matched, unwound into one
    row an item, grouped by product and region, and totalled. */
module RoyaltySummary {
  import opened Options
  import opened Amounts
  import opened Ledger
  import opened OrderViews

  datatype Window = Window(merchantId: string, currency: string, from: int, to: int)

  predicate Matches(v: View, w: Window) {
    && v.merchantId == w.merchantId
    && v.payoutCurrency == w.currency
    && w.from <= v.closedAt <= w.to
    && (v.status == Processed || v.status == Refunded || v.status == Chargeback)
    && v.isProduction
  }

  function Matched(views: seq<View>, w: Window): (found: seq<View>)
    ensures forall v :: v in found <==> v in views && Matches(v, w)
  {
    if views == [] then [] else (if Matches(views[0], w) then [views[0]] else []) + Matched(views[1..], w)
  }

  datatype Row = Row(view: View, product: Option<string>)

  /** A view without items is one row under the project's English name, which
      it may lack. */
  function RowsOf(v: View): seq<Row> {
    if v.items == [] then
      [Row(v, if "en" in v.projectNames then Some(v.projectNames["en"]) else None)]
    else
      seq(|v.items|, i requires 0 <= i < |v.items| => Row(v, Some(v.items[i])))
  }

  function Unwind(views: seq<View>): seq<Row> {
    if views == [] then [] else Unwind(views[..|views| - 1]) + RowsOf(views[|views| - 1])
  }

  /** The two summaries: one adds the exact amounts, the other amounts rounded
      row by row. */
  datatype Basis = Exact | Rounded

  function Part(f: Figure, basis: Basis): real {
    if basis.Exact? then f.amount else Round(f.rounded)
  }

  datatype Totals = Totals(
    transactions: int, sales: int,
    grossSales: real, grossReturns: real, fees: real, refundFees: real,
    tax: real, refundTax: real, net: real, reverse: real)

  const ZERO_TOTALS := Totals(0, 0, 0.0, 0.0, 0.0, 0.0, 0.0, 0.0, 0.0, 0.0)

  function Add(t: Totals, u: Totals): Totals {
    Totals(t.transactions + u.transactions, t.sales + u.sales,
           t.grossSales + u.grossSales, t.grossReturns + u.grossReturns, t.fees + u.fees, t.refundFees + u.refundFees,
           t.tax + u.tax, t.refundTax + u.refundTax, t.net + u.net, t.reverse + u.reverse)
  }

  function ViewTotals(v: View, basis: Basis): Totals {
    Totals(1, if v.kind == Purchase then 1 else 0,
           Part(v.payment.grossRevenue, basis), Part(v.refund.refundGrossRevenue, basis),
           Part(v.payment.feesTotal, basis), Part(v.refund.refundFeesTotal, basis),
           Part(v.payment.taxFeeTotal, basis), Part(v.refund.refundTaxFeeTotal, basis),
           Part(v.payment.netRevenue, basis), Part(v.refund.refundReverseRevenue, basis))
  }

  /** What each row adds. */
  function Parts(rows: seq<Row>, basis: Basis): (parts: seq<Totals>)
    ensures |parts| == |rows|
    ensures forall i :: 0 <= i < |rows| ==> parts[i] == ViewTotals(rows[i].view, basis)
  {
    if rows == [] then [] else Parts(rows[..|rows| - 1], basis) + [ViewTotals(rows[|rows| - 1].view, basis)]
  }

  function Sum(parts: seq<Totals>): Totals {
    if parts == [] then ZERO_TOTALS else Add(Sum(parts[..|parts| - 1]), parts[|parts| - 1])
  }

  /** A line of the report: the sums and what is derived from them. */
  datatype Line = Line(
    totals: Totals, returnsCount: int, grossTotal: real, totalFees: real, totalVat: real, payout: real)

  function Derived(t: Totals): Line {
    Line(t, t.transactions - t.sales, t.grossSales - t.grossReturns, t.fees + t.refundFees,
         t.tax - t.refundTax, t.net - t.reverse)
  }

  function RoundedTotals(t: Totals): Totals {
    Totals(t.transactions, t.sales, Round(t.grossSales), Round(t.grossReturns), Round(t.fees), Round(t.refundFees),
           Round(t.tax), Round(t.refundTax), Round(t.net), Round(t.reverse))
  }

  /** The rounded summary rounds every amount of a line once more at the end. */
  function LineOf(t: Totals, basis: Basis): Line {
    var l := Derived(t);
    if basis.Exact? then l
    else Line(RoundedTotals(t), l.returnsCount, Round(l.grossTotal), Round(l.totalFees), Round(l.totalVat), Round(l.payout))
  }

  datatype Key = Key(product: Option<string>, region: string)

  datatype Group = Group(key: Key, currency: string, totals: Totals)

  function KeyOf(r: Row): Key {
    Key(r.product, r.view.country)
  }

  function RowGroup(r: Row, basis: Basis): Group {
    Group(KeyOf(r), r.view.payoutCurrency, ViewTotals(r.view, basis))
  }

  /** Adds a row, seen as a group of its own, to the group of its product and
      region, which it opens if need be; a group shows the currency of its
      first row. */
  function Grouped(groups: seq<Group>, g: Group): seq<Group> {
    if groups == [] then [g]
    else if groups[0].key == g.key then [groups[0].(totals := Add(groups[0].totals, g.totals))] + groups[1..]
    else [groups[0]] + Grouped(groups[1..], g)
  }

  function GroupBy(rows: seq<Row>, basis: Basis): seq<Group> {
    if rows == [] then []
    else Grouped(GroupBy(rows[..|rows| - 1], basis), RowGroup(rows[|rows| - 1], basis))
  }

  datatype Item = Item(key: Key, currency: string, line: Line)

  function Items(groups: seq<Group>, basis: Basis): (items: seq<Item>)
    ensures |items| == |groups|
    ensures forall i :: 0 <= i < |groups| ==>
              items[i] == Item(groups[i].key, groups[i].currency, LineOf(groups[i].totals, basis))
  {
    if groups == [] then []
    else [Item(groups[0].key, groups[0].currency, LineOf(groups[0].totals, basis))] + Items(groups[1..], basis)
  }

  function OrderIds(rows: seq<Row>): seq<string> {
    if rows == [] then [] else OrderIds(rows[..|rows| - 1]) + [rows[|rows| - 1].view.id]
  }

  datatype Summary = Summary(items: seq<Item>, total: Line, orderIds: seq<string>)

  /** What is returned before the last formatting of the amounts. The order of
      the items is left open by the source, which sorts by a Go map of fields. */
  function SummaryOfRows(rows: seq<Row>, basis: Basis): Summary {
    Summary(Items(GroupBy(rows, basis), basis), LineOf(Sum(Parts(rows, basis)), basis), OrderIds(rows))
  }

  function SummaryIn(views: seq<View>, w: Window, basis: Basis): Summary {
    SummaryOfRows(Unwind(Matched(views, w)), basis)
  }

  // Groups

  /** The rows of a product and region. */
  function Select(rows: seq<Row>, k: Key): (found: seq<Row>)
    ensures forall r :: r in found <==> r in rows && KeyOf(r) == k
  {
    if rows == [] then []
    else Select(rows[..|rows| - 1], k) + (if KeyOf(rows[|rows| - 1]) == k then [rows[|rows| - 1]] else [])
  }

  ghost predicate DistinctKeys(groups: seq<Group>) {
    forall i, j :: 0 <= i < j < |groups| ==> groups[i].key != groups[j].key
  }

  ghost function KeysOf(groups: seq<Group>): set<Key> {
    set g | g in groups :: g.key
  }

  function TotalsAt(groups: seq<Group>, k: Key): Totals {
    if groups == [] then ZERO_TOTALS
    else if groups[0].key == k then groups[0].totals
    else TotalsAt(groups[1..], k)
  }

  lemma {:induction false} KeysGrouped(groups: seq<Group>, g: Group)
    ensures KeysOf(Grouped(groups, g)) == KeysOf(groups) + {g.key}
  {
    var after := Grouped(groups, g);
    KeysOfCons(after);
    if groups != [] {
      KeysOfCons(groups);
      if groups[0].key == g.key {
        assert after[1..] == groups[1..];
      } else {
        KeysGrouped(groups[1..], g);
        assert after[1..] == Grouped(groups[1..], g);
      }
    }
  }

  lemma KeysOfCons(groups: seq<Group>)
    ensures groups != [] ==> KeysOf(groups) == {groups[0].key} + KeysOf(groups[1..])
  {
    if groups != [] {
      assert groups == [groups[0]] + groups[1..];
    }
  }

  lemma {:induction false} GroupedKeepsDistinct(groups: seq<Group>, g: Group)
    requires DistinctKeys(groups)
    ensures DistinctKeys(Grouped(groups, g))
  {
    if groups != [] && groups[0].key != g.key {
      var rest := Grouped(groups[1..], g);
      GroupedKeepsDistinct(groups[1..], g);
      KeysGrouped(groups[1..], g);
      forall h | h in rest ensures h.key != groups[0].key {
        assert h.key in KeysOf(rest);
      }
    }
  }

  lemma {:induction false} TotalsGrouped(groups: seq<Group>, g: Group, k: Key)
    ensures TotalsAt(Grouped(groups, g), k)
            == if k == g.key then Add(TotalsAt(groups, k), g.totals) else TotalsAt(groups, k)
  {
    if groups != [] && groups[0].key != g.key {
      TotalsGrouped(groups[1..], g, k);
      assert Grouped(groups, g)[1..] == Grouped(groups[1..], g);
    }
  }

  ghost function RowKeys(rows: seq<Row>): set<Key> {
    set r | r in rows :: KeyOf(r)
  }

  /** The groups are exactly the products and regions that occur, each once,
      and the sums of a group are those of its rows alone. */
  lemma {:induction false} GroupsPartitionRows(rows: seq<Row>, basis: Basis)
    ensures DistinctKeys(GroupBy(rows, basis))
    ensures KeysOf(GroupBy(rows, basis)) == RowKeys(rows)
  {
    if rows != [] {
      var n := |rows| - 1;
      GroupsPartitionRows(rows[..n], basis);
      GroupedKeepsDistinct(GroupBy(rows[..n], basis), RowGroup(rows[n], basis));
      KeysGrouped(GroupBy(rows[..n], basis), RowGroup(rows[n], basis));
      assert rows == rows[..n] + [rows[n]];
      assert RowKeys(rows) == RowKeys(rows[..n]) + {KeyOf(rows[n])};
    }
  }

  lemma {:induction false} GroupSums(rows: seq<Row>, basis: Basis, k: Key)
    ensures TotalsAt(GroupBy(rows, basis), k) == Sum(Parts(Select(rows, k), basis))
  {
    if rows != [] {
      var n := |rows| - 1;
      GroupSums(rows[..n], basis, k);
      TotalsGrouped(GroupBy(rows[..n], basis), RowGroup(rows[n], basis), k);
      if KeyOf(rows[n]) == k {
        SumSnoc(Select(rows[..n], k), rows[n], basis);
      } else {
        assert Select(rows, k) == Select(rows[..n], k);
      }
    }
  }

  lemma SumSnoc(rows: seq<Row>, r: Row, basis: Basis)
    ensures Sum(Parts(rows + [r], basis)) == Add(Sum(Parts(rows, basis)), ViewTotals(r.view, basis))
  {
    assert (rows + [r])[..|rows|] == rows;
    assert Parts(rows + [r], basis) == Parts(rows, basis) + [ViewTotals(r.view, basis)];
  }

  lemma {:induction false} TotalsOfMember(groups: seq<Group>, i: nat)
    requires DistinctKeys(groups) && i < |groups|
    ensures groups[i].totals == TotalsAt(groups, groups[i].key)
  {
    if i > 0 {
      TotalsOfMember(groups[1..], i - 1);
    }
  }

  function SumGroups(groups: seq<Group>): Totals {
    if groups == [] then ZERO_TOTALS else Add(groups[0].totals, SumGroups(groups[1..]))
  }

  lemma {:induction false} SumGrouped(groups: seq<Group>, g: Group)
    ensures SumGroups(Grouped(groups, g)) == Add(SumGroups(groups), g.totals)
  {
    if groups != [] {
      var after := Grouped(groups, g);
      if groups[0].key == g.key {
        assert after[1..] == groups[1..];
      } else {
        SumGrouped(groups[1..], g);
        assert after[1..] == Grouped(groups[1..], g);
      }
    }
  }

  lemma RowAddsUp(groups: seq<Group>, r: Row, basis: Basis)
    ensures SumGroups(Grouped(groups, RowGroup(r, basis))) == Add(SumGroups(groups), ViewTotals(r.view, basis))
  {
    hide ViewTotals, Add, Grouped, SumGroups;
    SumGrouped(groups, RowGroup(r, basis));
  }

  lemma NothingAddsUp(basis: Basis)
    ensures SumGroups([]) == Sum(Parts([], basis))
  {
  }

  lemma {:induction false} GroupsAddUp(rows: seq<Row>, basis: Basis)
    ensures SumGroups(GroupBy(rows, basis)) == Sum(Parts(rows, basis))
  {
    hide Grouped, RowGroup, ViewTotals, Add, Sum, Parts, SumGroups;
    NothingAddsUp(basis);
    if rows != [] {
      var n := |rows| - 1;
      GroupsAddUp(rows[..n], basis);
      RowAddsUp(GroupBy(rows[..n], basis), rows[n], basis);
      SumSnoc(rows[..n], rows[n], basis);
      assert rows[..n] + [rows[n]] == rows;
    }
  }

  // Lines

  const ZERO_LINE := Line(ZERO_TOTALS, 0, 0.0, 0.0, 0.0, 0.0)

  function AddLines(l: Line, m: Line): Line {
    Line(Add(l.totals, m.totals), l.returnsCount + m.returnsCount, l.grossTotal + m.grossTotal,
         l.totalFees + m.totalFees, l.totalVat + m.totalVat, l.payout + m.payout)
  }

  function SumLines(items: seq<Item>): Line {
    if items == [] then ZERO_LINE else AddLines(items[0].line, SumLines(items[1..]))
  }

  predicate WholeTotals(t: Totals) {
    Whole(t.grossSales) && Whole(t.grossReturns) && Whole(t.fees) && Whole(t.refundFees)
    && Whole(t.tax) && Whole(t.refundTax) && Whole(t.net) && Whole(t.reverse)
  }

  lemma WholeTotalsAdd(t: Totals, u: Totals)
    requires WholeTotals(t) && WholeTotals(u)
    ensures WholeTotals(Add(t, u))
  {
    WholeClosed(t.grossSales, u.grossSales);
    WholeClosed(t.grossReturns, u.grossReturns);
    WholeClosed(t.fees, u.fees);
    WholeClosed(t.refundFees, u.refundFees);
    WholeClosed(t.tax, u.tax);
    WholeClosed(t.refundTax, u.refundTax);
    WholeClosed(t.net, u.net);
    WholeClosed(t.reverse, u.reverse);
  }

  lemma RoundedRowsAreWhole(v: View)
    ensures WholeTotals(ViewTotals(v, Rounded))
  {
    RoundBounds(v.payment.grossRevenue.rounded);
    RoundBounds(v.refund.refundGrossRevenue.rounded);
    RoundBounds(v.payment.feesTotal.rounded);
    RoundBounds(v.refund.refundFeesTotal.rounded);
    RoundBounds(v.payment.taxFeeTotal.rounded);
    RoundBounds(v.refund.refundTaxFeeTotal.rounded);
    RoundBounds(v.payment.netRevenue.rounded);
    RoundBounds(v.refund.refundReverseRevenue.rounded);
  }

  lemma {:induction false} WholeSum(parts: seq<Totals>)
    requires forall i :: 0 <= i < |parts| ==> WholeTotals(parts[i])
    ensures WholeTotals(Sum(parts))
  {
    if parts != [] {
      WholeSum(parts[..|parts| - 1]);
      WholeTotalsAdd(Sum(parts[..|parts| - 1]), parts[|parts| - 1]);
    }
  }

  /** Rows are rounded before they are grouped, so the rounding of the finished
      line changes nothing. */
  lemma FinalRoundingIsIdle(t: Totals)
    requires WholeTotals(t)
    ensures LineOf(t, Rounded) == Derived(t)
  {
    WholeClosed(t.grossSales, t.grossReturns);
    WholeClosed(t.fees, t.refundFees);
    WholeClosed(t.tax, t.refundTax);
    WholeClosed(t.net, t.reverse);
    RoundFixesWhole(t.grossSales);
    RoundFixesWhole(t.grossReturns);
    RoundFixesWhole(t.fees);
    RoundFixesWhole(t.refundFees);
    RoundFixesWhole(t.tax);
    RoundFixesWhole(t.refundTax);
    RoundFixesWhole(t.net);
    RoundFixesWhole(t.reverse);
    RoundFixesWhole(t.grossSales - t.grossReturns);
    RoundFixesWhole(t.fees + t.refundFees);
    RoundFixesWhole(t.tax - t.refundTax);
    RoundFixesWhole(t.net - t.reverse);
  }

  /** Either way a line is derived from the sums over some rows. */
  lemma LineIsDerived(rows: seq<Row>, basis: Basis)
    ensures LineOf(Sum(Parts(rows, basis)), basis) == Derived(Sum(Parts(rows, basis)))
  {
    if basis.Rounded? {
      forall i | 0 <= i < |rows| ensures WholeTotals(Parts(rows, basis)[i]) {
        RoundedRowsAreWhole(rows[i].view);
      }
      WholeSum(Parts(rows, basis));
      FinalRoundingIsIdle(Sum(Parts(rows, basis)));
    }
  }

  // What a summary says

  /** Every product and region that occurs has exactly one item, ... */
  lemma ItemKeys(rows: seq<Row>, basis: Basis)
    ensures var items := SummaryOfRows(rows, basis).items;
            && (forall i, j :: 0 <= i < j < |items| ==> items[i].key != items[j].key)
            && (forall k :: k in RowKeys(rows) <==> exists i :: 0 <= i < |items| && items[i].key == k)
  {
    var groups := GroupBy(rows, basis);
    GroupsPartitionRows(rows, basis);
    forall k ensures k in KeysOf(groups) <==> exists i :: 0 <= i < |groups| && groups[i].key == k {
      if k in KeysOf(groups) {
        var g :| g in groups && g.key == k;
        var i :| 0 <= i < |groups| && groups[i] == g;
      }
    }
  }

  /** ... and that item is derived from its own rows alone: in the rounded
      summary too, because the rows were rounded first. */
  lemma ItemIsDerived(rows: seq<Row>, basis: Basis, item: Item)
    requires item in SummaryOfRows(rows, basis).items
    ensures item.line == Derived(Sum(Parts(Select(rows, item.key), basis)))
  {
    var groups := GroupBy(rows, basis);
    GroupsPartitionRows(rows, basis);
    var i :| 0 <= i < |groups| && Items(groups, basis)[i] == item;
    TotalsOfMember(groups, i);
    GroupSums(rows, basis, groups[i].key);
    LineIsDerived(Select(rows, groups[i].key), basis);
  }

  // What the sums are sums of

  function SumOver(rows: seq<Row>, f: View -> real): real {
    if rows == [] then 0.0 else SumOver(rows[..|rows| - 1], f) + f(rows[|rows| - 1].view)
  }

  function CountOver(rows: seq<Row>, p: View -> bool): nat {
    if rows == [] then 0 else CountOver(rows[..|rows| - 1], p) + if p(rows[|rows| - 1].view) then 1 else 0
  }

  /** The line of some rows, field by field: how many there are, how many are of
      purchases, and what the figures of their views come to, each counted for
      so many cents. */
  ghost predicate AddsUp(l: Line, rows: seq<Row>, cents: Figure -> real) {
    && l.totals.transactions == |rows|
    && l.totals.sales == CountOver(rows, (v: View) => v.kind == Purchase)
    && l.returnsCount == CountOver(rows, (v: View) => v.kind != Purchase)
    && l.totals.grossSales == SumOver(rows, (v: View) => cents(v.payment.grossRevenue))
    && l.totals.grossReturns == SumOver(rows, (v: View) => cents(v.refund.refundGrossRevenue))
    && l.totals.fees == SumOver(rows, (v: View) => cents(v.payment.feesTotal))
    && l.totals.refundFees == SumOver(rows, (v: View) => cents(v.refund.refundFeesTotal))
    && l.totals.tax == SumOver(rows, (v: View) => cents(v.payment.taxFeeTotal))
    && l.totals.refundTax == SumOver(rows, (v: View) => cents(v.refund.refundTaxFeeTotal))
    && l.totals.net == SumOver(rows, (v: View) => cents(v.payment.netRevenue))
    && l.totals.reverse == SumOver(rows, (v: View) => cents(v.refund.refundReverseRevenue))
    && l.grossTotal == SumOver(rows, (v: View) => cents(v.payment.grossRevenue) - cents(v.refund.refundGrossRevenue))
    && l.totalFees == SumOver(rows, (v: View) => cents(v.payment.feesTotal) + cents(v.refund.refundFeesTotal))
    && l.totalVat == SumOver(rows, (v: View) => cents(v.payment.taxFeeTotal) - cents(v.refund.refundTaxFeeTotal))
    && l.payout == SumOver(rows, (v: View) => cents(v.payment.netRevenue) - cents(v.refund.refundReverseRevenue))
  }

  lemma OneMoreAddsUp(rows: seq<Row>, r: Row, t: Totals, basis: Basis, cents: Figure -> real)
    requires forall f: Figure :: cents(f) == Part(f, basis)
    requires AddsUp(Derived(t), rows, cents)
    ensures AddsUp(Derived(Add(t, ViewTotals(r.view, basis))), rows + [r], cents)
  {
    hide Part;
    assert (rows + [r])[..|rows|] == rows;
    forall f: View -> real ensures SumOver(rows + [r], f) == SumOver(rows, f) + f(r.view) {
    }
    forall p: View -> bool
      ensures CountOver(rows + [r], p) == CountOver(rows, p) + if p(r.view) then 1 else 0
    {
    }
    hide SumOver, CountOver;
  }

  lemma NoRowsAddUp(rows: seq<Row>, basis: Basis, cents: Figure -> real)
    requires rows == []
    ensures AddsUp(Derived(Sum(Parts(rows, basis))), rows, cents)
  {
  }

  lemma {:induction false} DerivedAddUp(rows: seq<Row>, basis: Basis, cents: Figure -> real)
    requires forall f: Figure :: cents(f) == Part(f, basis)
    ensures AddsUp(Derived(Sum(Parts(rows, basis))), rows, cents)
  {
    hide AddsUp, Part, ViewTotals, Derived, Add, Sum, Parts;
    if rows == [] {
      NoRowsAddUp(rows, basis, cents);
    } else {
      var n := |rows| - 1;
      DerivedAddUp(rows[..n], basis, cents);
      OneMoreAddsUp(rows[..n], rows[n], Sum(Parts(rows[..n], basis)), basis, cents);
      SumSnoc(rows[..n], rows[n], basis);
      assert rows[..n] + [rows[n]] == rows;
    }
  }

  /** The total adds up all rows and every item its own, figure by figure: exact
      amounts in the one summary, amounts rounded row by row in the other. */
  lemma SummariesAddUp(rows: seq<Row>)
    ensures var e, amount := SummaryOfRows(rows, Exact), (f: Figure) => f.amount;
            && AddsUp(e.total, rows, amount)
            && forall item :: item in e.items ==> AddsUp(item.line, Select(rows, item.key), amount)
    ensures var r, rounded := SummaryOfRows(rows, Rounded), (f: Figure) => Round(f.rounded);
            && AddsUp(r.total, rows, rounded)
            && forall item :: item in r.items ==> AddsUp(item.line, Select(rows, item.key), rounded)
  {
    LinesAddUp(rows, Exact, (f: Figure) => f.amount);
    LinesAddUp(rows, Rounded, (f: Figure) => Round(f.rounded));
  }

  lemma LinesAddUp(rows: seq<Row>, basis: Basis, cents: Figure -> real)
    requires forall f: Figure :: cents(f) == Part(f, basis)
    ensures AddsUp(SummaryOfRows(rows, basis).total, rows, cents)
    ensures forall item :: item in SummaryOfRows(rows, basis).items ==>
              AddsUp(item.line, Select(rows, item.key), cents)
  {
    hide AddsUp, Part, Derived, Sum, Parts, LineOf, Round;
    LineIsDerived(rows, basis);
    DerivedAddUp(rows, basis, cents);
    forall item | item in SummaryOfRows(rows, basis).items ensures AddsUp(item.line, Select(rows, item.key), cents) {
      ItemIsDerived(rows, basis, item);
      DerivedAddUp(Select(rows, item.key), basis, cents);
    }
  }

  /** Group conservation: the items add up to the total in every field, summed
      or derived, exact or rounded. */
  lemma ItemsAddUpToTotal(rows: seq<Row>, basis: Basis)
    ensures SumLines(SummaryOfRows(rows, basis).items) == SummaryOfRows(rows, basis).total
  {
    GroupsPartitionRows(rows, basis);
    var groups := GroupBy(rows, basis);
    forall i | 0 <= i < |groups| ensures LineOf(groups[i].totals, basis) == Derived(groups[i].totals) {
      TotalsOfMember(groups, i);
      GroupSums(rows, basis, groups[i].key);
      LineIsDerived(Select(rows, groups[i].key), basis);
    }
    DerivedAddsUp(groups, basis);
    GroupsAddUp(rows, basis);
    LineIsDerived(rows, basis);
  }

  lemma {:induction false} DerivedAddsUp(groups: seq<Group>, basis: Basis)
    requires forall i :: 0 <= i < |groups| ==> LineOf(groups[i].totals, basis) == Derived(groups[i].totals)
    ensures SumLines(Items(groups, basis)) == Derived(SumGroups(groups))
  {
    if groups != [] {
      DerivedAddsUp(groups[1..], basis);
      assert Items(groups, basis)[1..] == Items(groups[1..], basis);
      DerivedIsAdditive(groups[0].totals, SumGroups(groups[1..]));
    }
  }

  lemma DerivedIsAdditive(t: Totals, u: Totals)
    ensures Derived(Add(t, u)) == AddLines(Derived(t), Derived(u))
  {
  }

  function Scale(k: nat, t: Totals): Totals {
    if k == 0 then ZERO_TOTALS else Add(Scale(k - 1, t), t)
  }

  function Weight(v: View): nat {
    if v.items == [] then 1 else |v.items|
  }

  function WeightedSum(views: seq<View>, basis: Basis): Totals {
    if views == [] then ZERO_TOTALS
    else Add(WeightedSum(views[..|views| - 1], basis),
             Scale(Weight(views[|views| - 1]), ViewTotals(views[|views| - 1], basis)))
  }

  /** The total counts an order once for every item it has, and once if it has
      none: the amounts of an order with several items are counted several
      times. */
  lemma {:induction false} TotalIsWeighted(views: seq<View>, basis: Basis)
    ensures Sum(Parts(Unwind(views), basis)) == WeightedSum(views, basis)
  {
    if views != [] {
      var n := |views| - 1;
      TotalIsWeighted(views[..n], basis);
      PartsConcat(Unwind(views[..n]), RowsOf(views[n]), basis);
      PartsOfOneView(views[n], basis);
      SumOfEqualParts(Parts(Unwind(views[..n]), basis), Parts(RowsOf(views[n]), basis), ViewTotals(views[n], basis));
    }
  }

  lemma PartsConcat(rows: seq<Row>, more: seq<Row>, basis: Basis)
    ensures Parts(rows + more, basis) == Parts(rows, basis) + Parts(more, basis)
  {
  }

  lemma PartsOfOneView(v: View, basis: Basis)
    ensures |RowsOf(v)| == Weight(v)
    ensures forall i :: 0 <= i < Weight(v) ==> Parts(RowsOf(v), basis)[i] == ViewTotals(v, basis)
  {
    forall i | 0 <= i < Weight(v) ensures Parts(RowsOf(v), basis)[i] == ViewTotals(v, basis) {
      assert RowsOf(v)[i].view == v;
    }
  }

  lemma {:induction false} SumOfEqualParts(before: seq<Totals>, parts: seq<Totals>, t: Totals)
    requires forall i :: 0 <= i < |parts| ==> parts[i] == t
    ensures Sum(before + parts) == Add(Sum(before), Scale(|parts|, t))
  {
    if parts == [] {
      assert before + parts == before;
      AddZero(Sum(before));
    } else {
      var n := |parts| - 1;
      SumOfEqualParts(before, parts[..n], t);
      assert (before + parts)[..|before + parts| - 1] == before + parts[..n];
      AddRegroups(Sum(before), Scale(n, t), t);
    }
  }

  lemma AddRegroups(t: Totals, u: Totals, w: Totals)
    ensures Add(Add(t, u), w) == Add(t, Add(u, w))
  {
  }

  lemma AddZero(t: Totals)
    ensures Add(t, ZERO_TOTALS) == t
  {
  }

  // Payout

  /** The figures of the view come from some book of entries. */
  ghost predicate FromLedger(v: View) {
    exists b: Book :: Reports(v, b)
  }

  function Delta(v: View): real {
    v.refund.refundTaxFeeCurrencyExchangeFee.amount
  }

  function Deltas(rows: seq<Row>): (deltas: seq<real>)
    ensures |deltas| == |rows|
    ensures forall i :: 0 <= i < |rows| ==> deltas[i] == Delta(rows[i].view)
  {
    if rows == [] then [] else Deltas(rows[..|rows| - 1]) + [Delta(rows[|rows| - 1].view)]
  }

  function SumOf(amounts: seq<real>): real {
    if amounts == [] then 0.0 else SumOf(amounts[..|amounts| - 1]) + amounts[|amounts| - 1]
  }

  /** Payout less what the report says it is made of. */
  function Gap(l: Line): real {
    l.payout - (l.grossTotal - l.totalVat - l.totalFees)
  }

  lemma RowGap(v: View)
    requires FromLedger(v)
    ensures Gap(Derived(ViewTotals(v, Exact))) == -2.0 * Delta(v)
  {
  }

  lemma {:induction false} SumGap(parts: seq<Totals>, deltas: seq<real>)
    requires |parts| == |deltas|
    requires forall i :: 0 <= i < |parts| ==> Gap(Derived(parts[i])) == -2.0 * deltas[i]
    ensures Gap(Derived(Sum(parts))) == -2.0 * SumOf(deltas)
  {
    if parts != [] {
      var n := |parts| - 1;
      SumGap(parts[..n], deltas[..n]);
      assert Gap(Derived(parts[n])) == -2.0 * deltas[n];
    }
  }

  lemma RowsGap(rows: seq<Row>)
    requires forall r :: r in rows ==> FromLedger(r.view)
    ensures Gap(Derived(Sum(Parts(rows, Exact)))) == -2.0 * SumOf(Deltas(rows))
  {
    forall i | 0 <= i < |rows| ensures Gap(Derived(Parts(rows, Exact)[i])) == -2.0 * Deltas(rows)[i] {
      RowGap(rows[i].view);
    }
    SumGap(Parts(rows, Exact), Deltas(rows));
  }

  /** In the exact summary payout is gross less VAT less fees, less twice the
      exchange deltas of the refunds, for the total and for every product and
      region; so the report balances exactly where the deltas cancel. */
  lemma PayoutBalances(rows: seq<Row>)
    requires forall r :: r in rows ==> FromLedger(r.view)
    ensures var s := SummaryOfRows(rows, Exact);
            && Gap(s.total) == -2.0 * SumOf(Deltas(rows))
            && forall item :: item in s.items ==> Gap(item.line) == -2.0 * SumOf(Deltas(Select(rows, item.key)))
  {
    RowsGap(rows);
    forall item | item in SummaryOfRows(rows, Exact).items
      ensures Gap(item.line) == -2.0 * SumOf(Deltas(Select(rows, item.key)))
    {
      ItemIsDerived(rows, Exact, item);
      RowsGap(Select(rows, item.key));
    }
  }

  // Rounding drift

  /** Two lines differ by at most these many cents a row. */
  predicate LinesDrift(exact: Line, rounded: Line, rows: int) {
    var n := rows as real;
    && -n <= rounded.grossTotal - exact.grossTotal <= n
    && -n <= rounded.totalFees - exact.totalFees <= n
    && -n <= rounded.totalVat - exact.totalVat <= n
    && -3.0 * n <= rounded.payout - exact.payout <= 3.0 * n
  }

  predicate Drifts(exact: Totals, rounded: Totals, rows: int) {
    LinesDrift(Derived(exact), Derived(rounded), rows)
  }

  /** The entries behind the view were booked in whole cents within half a cent
      of their amount, and are all of a payment or all of a refund. */
  ghost predicate FromTidyLedger(v: View) {
    exists b: Book :: Reports(v, b) && TidyBook(b) && (NoRefundSide(b) || NoPaymentSide(b))
  }

  predicate Within(f: Figure, cents: real) {
    -cents <= Part(f, Rounded) - Part(f, Exact) <= cents
  }

  predicate Near(f: Figure, cents: real) {
    Whole(f.rounded) && -cents <= f.rounded - f.amount <= cents
  }

  lemma NearAdds(f: Figure, c: real, g: Figure, d: real)
    requires Near(f, c) && Near(g, d)
    ensures Near(Plus(f, g), c + d) && Near(Minus(f, g), c + d)
  {
    WholeClosed(f.rounded, g.rounded);
  }

  /** A figure is rounded when it is shown and again when its row is built. */
  lemma NearShown(f: Figure, c: real)
    requires Near(f, c)
    ensures Within(Shown(f), c)
  {
    RoundFixesWhole(f.rounded);
  }

  lemma TidyPayment(b: Book)
    requires TidyBook(b)
    ensures Within(GrossRevenue(b), 1.0)
    ensures Within(FeesTotal(b), 1.0)
    ensures Within(TaxFeeTotal(b), 1.0)
    ensures Within(NetRevenue(b), 3.0)
  {
    var g, x, f := b(RealGrossRevenue).common, b(PsGrossRevenueFx).common, b(MerchantPsFixedFee).common;
    var c, m, t := b(MerchantTaxFeeCentralBankFx).common, b(PsMethodFee).common, b(MerchantTaxFeeCostValue).common;
    assert Near(g, 0.5) && Near(x, 0.5) && Near(f, 0.5) && Near(c, 0.5) && Near(m, 0.5) && Near(t, 0.5);
    NearAdds(g, 0.5, x, 0.5);
    NearAdds(m, 0.5, f, 0.5);
    NearAdds(t, 0.5, c, 0.5);
    NearAdds(Minus(g, x), 1.0, f, 0.5);
    NearAdds(Minus(Minus(g, x), f), 1.5, c, 0.5);
    NearAdds(Minus(Minus(Minus(g, x), f), c), 2.0, m, 0.5);
    NearAdds(Minus(Minus(Minus(Minus(g, x), f), c), m), 2.5, t, 0.5);
    NearShown(Minus(g, x), 1.0);
    NearShown(Plus(m, f), 1.0);
    NearShown(Plus(t, c), 1.0);
    NearShown(Minus(Minus(Minus(Minus(Minus(g, x), f), c), m), t), 3.0);
  }

  lemma TidyRefund(b: Book)
    requires TidyBook(b)
    ensures Within(RefundGrossRevenue(b), 1.0)
    ensures Within(RefundFeesTotal(b), 1.0)
    ensures Within(RefundTaxFeeTotal(b), 1.0)
    ensures Within(RefundReverseRevenue(b), 3.0)
  {
    var r, f, x := b(MerchantRefund).common, b(MerchantRefundFee).common, b(MerchantRefundFixedFee).common;
    var d, t := b(ReverseTaxFeeDelta).common, b(ReverseTaxFee).common;
    assert Near(r, 0.5) && Near(f, 0.5) && Near(x, 0.5) && Near(d, 0.5) && Near(t, 0.5);
    NearAdds(f, 0.5, x, 0.5);
    NearAdds(t, 0.5, d, 0.5);
    NearAdds(r, 0.5, f, 0.5);
    NearAdds(Plus(r, f), 1.0, x, 0.5);
    NearAdds(Plus(Plus(r, f), x), 1.5, d, 0.5);
    NearAdds(Plus(Plus(Plus(r, f), x), d), 2.0, t, 0.5);
    NearShown(r, 1.0);
    NearShown(Plus(f, x), 1.0);
    NearShown(Plus(t, d), 1.0);
    NearShown(Minus(Plus(Plus(Plus(r, f), x), d), t), 3.0);
  }

  predicate PaymentWithin(p: PaymentFigures, cents: real) {
    && Within(p.grossRevenue, cents) && Within(p.feesTotal, cents) && Within(p.taxFeeTotal, cents)
    && Within(p.netRevenue, 3.0 * cents)
  }

  predicate RefundWithin(r: RefundFigures, cents: real) {
    && Within(r.refundGrossRevenue, cents) && Within(r.refundFeesTotal, cents) && Within(r.refundTaxFeeTotal, cents)
    && Within(r.refundReverseRevenue, 3.0 * cents)
  }

  lemma PaymentRowWithin(v: View, b: Book)
    requires Reports(v, b) && TidyBook(b) && NoRefundSide(b)
    ensures PaymentWithin(v.payment, 1.0) && RefundWithin(v.refund, 0.0)
  {
    RefundSideBlank(b);
    NearShown(NOTHING, 0.0);
    TidyPayment(b);
  }

  lemma RefundRowWithin(v: View, b: Book)
    requires Reports(v, b) && TidyBook(b) && NoPaymentSide(b)
    ensures PaymentWithin(v.payment, 0.0) && RefundWithin(v.refund, 1.0)
  {
    PaymentSideBlank(b);
    NearShown(NOTHING, 0.0);
    TidyRefund(b);
  }

  lemma RowDrift(v: View)
    requires FromTidyLedger(v)
    ensures Drifts(ViewTotals(v, Exact), ViewTotals(v, Rounded), 1)
  {
    var b: Book :| Reports(v, b) && TidyBook(b) && (NoRefundSide(b) || NoPaymentSide(b));
    if NoRefundSide(b) {
      PaymentRowWithin(v, b);
    } else {
      RefundRowWithin(v, b);
    }
    OneSideDrifts(v);
  }

  lemma OneSideDrifts(v: View)
    requires (PaymentWithin(v.payment, 1.0) && RefundWithin(v.refund, 0.0))
             || (PaymentWithin(v.payment, 0.0) && RefundWithin(v.refund, 1.0))
    ensures Drifts(ViewTotals(v, Exact), ViewTotals(v, Rounded), 1)
  {
  }

  lemma {:induction false} SumDrift(exact: seq<Totals>, rounded: seq<Totals>)
    requires |exact| == |rounded|
    requires forall i :: 0 <= i < |exact| ==> Drifts(exact[i], rounded[i], 1)
    ensures Drifts(Sum(exact), Sum(rounded), |exact|)
  {
    if exact != [] {
      var n := |exact| - 1;
      SumDrift(exact[..n], rounded[..n]);
      assert Drifts(exact[n], rounded[n], 1);
      DriftAdds(Sum(exact[..n]), Sum(rounded[..n]), n, exact[n], rounded[n]);
    }
  }

  lemma DriftAdds(e: Totals, r: Totals, n: nat, f: Totals, s: Totals)
    requires Drifts(e, r, n) && Drifts(f, s, 1)
    ensures Drifts(Add(e, f), Add(r, s), n + 1)
  {
  }

  lemma RowsDrift(rows: seq<Row>)
    requires forall r :: r in rows ==> FromTidyLedger(r.view)
    ensures Drifts(Sum(Parts(rows, Exact)), Sum(Parts(rows, Rounded)), |rows|)
  {
    hide ViewTotals, Drifts, FromTidyLedger, Sum;
    forall i | 0 <= i < |rows| ensures Drifts(Parts(rows, Exact)[i], Parts(rows, Rounded)[i], 1) {
      RowDrift(rows[i].view);
    }
    SumDrift(Parts(rows, Exact), Parts(rows, Rounded));
  }

  /** The two summaries list the same groups in the same order, ... */
  lemma {:induction false} SameGroups(rows: seq<Row>)
    ensures |GroupBy(rows, Exact)| == |GroupBy(rows, Rounded)|
    ensures forall i :: 0 <= i < |GroupBy(rows, Exact)| ==>
              GroupBy(rows, Exact)[i].key == GroupBy(rows, Rounded)[i].key
  {
    if rows != [] {
      var n := |rows| - 1;
      SameGroups(rows[..n]);
      GroupedByKey(GroupBy(rows[..n], Exact), GroupBy(rows[..n], Rounded),
                   RowGroup(rows[n], Exact), RowGroup(rows[n], Rounded));
    }
  }

  lemma {:induction false} GroupedByKey(groups: seq<Group>, others: seq<Group>, g: Group, h: Group)
    requires |groups| == |others| && g.key == h.key
    requires forall i :: 0 <= i < |groups| ==> groups[i].key == others[i].key
    ensures |Grouped(groups, g)| == |Grouped(others, h)|
    ensures forall i :: 0 <= i < |Grouped(groups, g)| ==> Grouped(groups, g)[i].key == Grouped(others, h)[i].key
  {
    if groups != [] && groups[0].key != g.key {
      GroupedByKey(groups[1..], others[1..], g, h);
    }
  }

  /** ... and no line of one is further from the other than a cent a row in
      gross, fees and VAT, and three cents a row in payout. */
  lemma SummariesDrift(rows: seq<Row>)
    requires forall r :: r in rows ==> FromTidyLedger(r.view)
    ensures var e, r := SummaryOfRows(rows, Exact), SummaryOfRows(rows, Rounded);
            && |e.items| == |r.items|
            && LinesDrift(e.total, r.total, |rows|)
            && forall i :: 0 <= i < |e.items| ==>
                 && e.items[i].key == r.items[i].key
                 && LinesDrift(e.items[i].line, r.items[i].line, |Select(rows, e.items[i].key)|)
  {
    SameGroups(rows);
    RowsDrift(rows);
    LineIsDerived(rows, Exact);
    LineIsDerived(rows, Rounded);
    var e, r := SummaryOfRows(rows, Exact), SummaryOfRows(rows, Rounded);
    forall i | 0 <= i < |e.items|
      ensures LinesDrift(e.items[i].line, r.items[i].line, |Select(rows, e.items[i].key)|)
    {
      ItemIsDerived(rows, Exact, e.items[i]);
      ItemIsDerived(rows, Rounded, r.items[i]);
      RowsDrift(Select(rows, e.items[i].key));
    }
  }}
