/** From the ledger to the royalty report: the laws of the summary, restated for
    a store whose views are up to date. */
module RoyaltyReports {
  import opened Options
  import opened Amounts
  import opened Ledger
  import opened OrderViews
  import opened OrderRepository
  import opened RoyaltySummary

  /** The collection scanned holds views that are up to date. */
  ghost predicate UpToDate(views: seq<View>, orders: map<string, Order>, ledger: seq<Entry>) {
    forall v :: v in views ==> v.id in orders && orders[v.id].id == v.id && Shows(v, orders[v.id], ledger)
  }

  /** Each order's entries are booked tidily and on one side. */
  ghost predicate TidyLedger(ledger: seq<Entry>) {
    && (forall e :: e in ledger ==> Tidy(e.common))
    && (forall id :: PaymentOnly(Of(ledger, id)) || RefundOnly(Of(ledger, id)))
  }

  lemma ShownViewReports(v: View, o: Order, ledger: seq<Entry>)
    requires Shows(v, o, ledger)
    ensures Reports(v, BookOf(Of(ledger, o.id)))
  {
    ViewReports(o, BookOf(Of(ledger, o.id)));
  }

  lemma {:induction false} UnwoundViews(views: seq<View>, r: Row)
    requires r in Unwind(views)
    ensures r.view in views
  {
    var n := |views| - 1;
    if r in Unwind(views[..n]) {
      UnwoundViews(views[..n], r);
    }
  }

  lemma RowsFromLedger(views: seq<View>, w: Window, orders: map<string, Order>, ledger: seq<Entry>, r: Row)
    requires UpToDate(views, orders, ledger) && r in Unwind(Matched(views, w))
    ensures r.view in views && Matches(r.view, w)
    ensures Reports(r.view, BookOf(Of(ledger, r.view.id)))
  {
    UnwoundViews(Matched(views, w), r);
    ShownViewReports(r.view, orders[r.view.id], ledger);
  }

  /** Whatever the ledgers and the window, payout equals gross less VAT less fees
      less twice the exchange deltas that the ledgers of the listed orders hold,
      counted once for every row of an order: in the total and in every item. */
  lemma ReportBalances(views: seq<View>, w: Window, orders: map<string, Order>, ledger: seq<Entry>)
    requires UpToDate(views, orders, ledger)
    ensures var rows := Unwind(Matched(views, w));
            var s := SummaryIn(views, w, Exact);
            && Gap(s.total) == -2.0 * SumOf(Deltas(rows))
            && (forall item :: item in s.items ==> Gap(item.line) == -2.0 * SumOf(Deltas(Select(rows, item.key))))
            && (forall r :: r in rows ==>
                  Delta(r.view) == Latest(Of(ledger, r.view.id), ReverseTaxFeeDelta).common.amount)
  {
    var rows := Unwind(Matched(views, w));
    forall r | r in rows
      ensures FromLedger(r.view)
      ensures Delta(r.view) == Latest(Of(ledger, r.view.id), ReverseTaxFeeDelta).common.amount
    {
      RowsFromLedger(views, w, orders, ledger, r);
      assert RefundTaxDelta(BookOf(Of(ledger, r.view.id))).amount
             == Latest(Of(ledger, r.view.id), ReverseTaxFeeDelta).common.amount;
    }
    PayoutBalances(rows);
  }

  /** Over a tidy ledger the rounded report is within a cent a row of the exact
      one in gross, fees and VAT, and within three cents a row in payout. */
  lemma ReportsDrift(views: seq<View>, w: Window, orders: map<string, Order>, ledger: seq<Entry>)
    requires UpToDate(views, orders, ledger) && TidyLedger(ledger)
    ensures var rows := Unwind(Matched(views, w));
            var e, r := SummaryIn(views, w, Exact), SummaryIn(views, w, Rounded);
            && |e.items| == |r.items|
            && LinesDrift(e.total, r.total, |rows|)
            && forall i :: 0 <= i < |e.items| ==>
                 && e.items[i].key == r.items[i].key
                 && LinesDrift(e.items[i].line, r.items[i].line, |Select(rows, e.items[i].key)|)
  {
    var rows := Unwind(Matched(views, w));
    forall r | r in rows ensures FromTidyLedger(r.view) {
      RowsFromLedger(views, w, orders, ledger, r);
      var own := Of(ledger, r.view.id);
      TidyEntriesMakeTidyBook(own);
      OneSidedBooks(own);
      assert Reports(r.view, BookOf(own)) && TidyBook(BookOf(own));
    }
    SummariesDrift(rows);
  }

  /** The items of a report add up to its total, and the total counts every
      matched order once for each of its items. */
  lemma ReportConserves(views: seq<View>, w: Window, basis: Basis)
    ensures var s := SummaryIn(views, w, basis);
            && SumLines(s.items) == s.total
            && s.total == Derived(WeightedSum(Matched(views, w), basis))
  {
    var rows := Unwind(Matched(views, w));
    ItemsAddUpToTotal(rows, basis);
    LineIsDerived(rows, basis);
    TotalIsWeighted(Matched(views, w), basis);
  }

  // What a report lists

  lemma {:induction false} UnwoundRows(views: seq<View>, r: Row)
    ensures r in Unwind(views) <==> r.view in views && r in RowsOf(r.view)
  {
    if views != [] {
      var n := |views| - 1;
      UnwoundRows(views[..n], r);
      assert views == views[..n] + [views[n]];
      if r in RowsOf(views[n]) {
        RowsShowTheirView(views[n], r);
      }
    }
  }

  lemma RowsShowTheirView(v: View, r: Row)
    requires r in RowsOf(v)
    ensures r.view == v
  {
  }

  /** The rows of a report are those of the merchant's production orders that
      were closed within the window, processed, refunded or charged back, and
      paid out in the currency: one for each item, or one for the project under
      its English name. */
  lemma ListedRows(views: seq<View>, w: Window, r: Row)
    ensures var v := r.view;
            r in Unwind(Matched(views, w))
            <==> && v in views
                 && v.merchantId == w.merchantId && v.payoutCurrency == w.currency && v.isProduction
                 && w.from <= v.closedAt && v.closedAt <= w.to
                 && v.status in {Processed, Refunded, Chargeback}
                 && if v.items != [] then r.product.Some? && r.product.value in v.items
                    else r.product == if "en" in v.projectNames then Some(v.projectNames["en"]) else None
  {
    UnwoundRows(Matched(views, w), r);
    var v := r.view;
    if v.items == [] {
      assert RowsOf(v) == [RowsOf(v)[0]];
    } else if r.product.Some? && r.product.value in v.items {
      var i :| 0 <= i < |v.items| && v.items[i] == r.product.value;
      assert RowsOf(v)[i] == r;
    }
  }

  /** It has one item for each product and country among them, in the report's
      currency, and names the order of every row. */
  lemma ReportItems(views: seq<View>, w: Window, basis: Basis)
    ensures var rows, s := Unwind(Matched(views, w)), SummaryIn(views, w, basis);
            && (forall i, j :: 0 <= i < j < |s.items| ==> s.items[i].key != s.items[j].key)
            && (forall p, c ::
                  (exists i :: 0 <= i < |s.items| && s.items[i].key == Key(p, c))
                  <==> exists r :: r in rows && r.product == p && r.view.country == c)
            && (forall item :: item in s.items ==> item.currency == w.currency)
            && |s.orderIds| == |rows| && forall i :: 0 <= i < |rows| ==> s.orderIds[i] == rows[i].view.id
  {
    var rows, s := Unwind(Matched(views, w)), SummaryIn(views, w, basis);
    ItemKeys(rows, basis);
    hide GroupBy, RowsOf, LineOf, Parts;
    forall p, c ensures Key(p, c) in RowKeys(rows) <==> exists r :: r in rows && r.product == p && r.view.country == c {
    }
    forall r | r in rows ensures r.view.payoutCurrency == w.currency {
      UnwoundRows(Matched(views, w), r);
    }
    GroupsKeepCurrency(rows, basis, w.currency);
    OrderIdsOfRows(rows);
  }

  lemma {:induction false} OrderIdsOfRows(rows: seq<Row>)
    ensures |OrderIds(rows)| == |rows| && forall i :: 0 <= i < |rows| ==> OrderIds(rows)[i] == rows[i].view.id
  {
    if rows != [] {
      OrderIdsOfRows(rows[..|rows| - 1]);
    }
  }

  lemma {:induction false} GroupsKeepCurrency(rows: seq<Row>, basis: Basis, currency: string)
    requires forall r :: r in rows ==> r.view.payoutCurrency == currency
    ensures forall g :: g in GroupBy(rows, basis) ==> g.currency == currency
  {
    if rows != [] {
      var n := |rows| - 1;
      GroupsKeepCurrency(rows[..n], basis, currency);
      GroupedKeepsCurrency(GroupBy(rows[..n], basis), RowGroup(rows[n], basis), currency);
    }
  }

  lemma {:induction false} GroupedKeepsCurrency(groups: seq<Group>, g: Group, currency: string)
    requires g.currency == currency && forall h :: h in groups ==> h.currency == currency
    ensures forall h :: h in Grouped(groups, g) ==> h.currency == currency
  {
    if groups != [] && groups[0].key != g.key {
      GroupedKeepsCurrency(groups[1..], g, currency);
    }
  }

  // From orders and ledgers

  function Booked(ledger: seq<Entry>, id: string, k: Kind): Figure {
    Latest(Of(ledger, id), k).common
  }

  /** An order whose ledger has one side is in the window of the currency that
      side was booked in and of no other. */
  lemma OrdersReported(v: View, o: Order, ledger: seq<Entry>, views: seq<View>, w: Window)
    requires Shows(v, o, ledger) && v in views
    requires if o.kind == Purchase then PaymentOnly(Of(ledger, o.id)) else RefundOnly(Of(ledger, o.id))
    ensures v in Matched(views, w)
            <==> && o.merchantId == w.merchantId && o.isProduction && w.from <= o.closedAt <= w.to
                 && o.status in {Processed, Refunded, Chargeback}
                 && w.currency
                    == Booked(ledger, o.id, if o.kind == Purchase then RealGrossRevenue else MerchantRefund).currency
  {
    hide ViewOf, Shows, Booked, PaymentOnly, RefundOnly, Of, BookOf;
    ShownFields(v, o, ledger);
    ShownCurrency(o, ledger);
  }

  /** The rows of a listed order are one for each of its items, or one for its
      project, ... */
  lemma OrderRows(v: View, o: Order, ledger: seq<Entry>, views: seq<View>, w: Window, product: Option<string>)
    requires Shows(v, o, ledger) && v in Matched(views, w)
    ensures Row(v, product) in Unwind(Matched(views, w))
            <==> if o.items != [] then product.Some? && product.value in o.items
                 else product == if "en" in o.projectNames then Some(o.projectNames["en"]) else None
  {
    hide Shows, Of, Unwind, RowsOf;
    ShownFields(v, o, ledger);
    MatchedAreViews(views, w, v);
    ListedRows(views, w, Row(v, product));
  }

  /** ... and for each of them there is an item of its country in the report,
      which names the order. */
  lemma OrderIsNamed(v: View, o: Order, ledger: seq<Entry>, views: seq<View>, w: Window, basis: Basis,
                     product: Option<string>)
    requires Shows(v, o, ledger) && Row(v, product) in Unwind(Matched(views, w))
    ensures var s := SummaryIn(views, w, basis);
            && o.id in s.orderIds
            && exists i :: 0 <= i < |s.items| && s.items[i].key == Key(product, o.country)
  {
    hide Shows, Of, Unwind, Matched, RowsOf, SummaryIn, ViewOf;
    ShownFields(v, o, ledger);
    ReportItems(views, w, basis);
    var rows, s := Unwind(Matched(views, w)), SummaryIn(views, w, basis);
    var i :| 0 <= i < |rows| && rows[i] == Row(v, product);
    assert s.orderIds[i] == o.id;
    var k := Key(product, o.country);
    assert exists r :: r in rows && r.product == k.product && r.view.country == k.region;
  }

  lemma MatchedAreViews(views: seq<View>, w: Window, v: View)
    requires v in Matched(views, w)
    ensures v in views && v.merchantId == w.merchantId && v.payoutCurrency == w.currency && v.isProduction
    ensures w.from <= v.closedAt <= w.to && v.status in {Processed, Refunded, Chargeback}
  {
  }

  lemma ShownCurrency(o: Order, ledger: seq<Entry>)
    requires o.taxRate.Some?
    requires if o.kind == Purchase then PaymentOnly(Of(ledger, o.id)) else RefundOnly(Of(ledger, o.id))
    ensures ViewOf(o, BookOf(Of(ledger, o.id))).payoutCurrency
         == Booked(ledger, o.id, if o.kind == Purchase then RealGrossRevenue else MerchantRefund).currency
  {
    var own := Of(ledger, o.id);
    OneSidedBooks(own);
    hide ViewOf, NoRefundSide, NoPaymentSide, PaymentOnly, RefundOnly;
    if o.kind == Purchase {
      PaymentViewCurrency(o, BookOf(own));
    } else {
      RefundViewCurrency(o, BookOf(own));
    }
  }

  lemma ShownFields(v: View, o: Order, ledger: seq<Entry>)
    requires Shows(v, o, ledger)
    ensures o.taxRate.Some? && v.merchantId == o.merchantId && v.isProduction == o.isProduction
    ensures v.closedAt == o.closedAt && v.status == o.status
    ensures v.id == o.id && v.items == o.items && v.projectNames == o.projectNames && v.country == o.country
    ensures v.payoutCurrency == ViewOf(o, BookOf(Of(ledger, o.id))).payoutCurrency
  {
    hide PaymentFiguresOf, RefundFiguresOf, Round;
    var shown := ViewOf(o, BookOf(Of(ledger, o.id)));
    assert v.id == shown.id && v.items == shown.items && v.projectNames == shown.projectNames;
    assert v.country == shown.country && v.merchantId == shown.merchantId;
    assert v.closedAt == shown.closedAt && v.status == shown.status;
  }

  lemma {:induction false} SumsAgree(rows: seq<Row>, f: View -> real, g: View -> real)
    requires forall r :: r in rows ==> f(r.view) == g(r.view)
    ensures SumOver(rows, f) == SumOver(rows, g)
  {
    if rows != [] {
      SumsAgree(rows[..|rows| - 1], f, g);
    }
  }

  // What the entries of an order come to: gross sales less returns, fees of either
  // kind, tax less tax given back, and what of the revenue is not paid back.

  function BookedGross(ledger: seq<Entry>, id: string): real {
    var of := (k: Kind) => Booked(ledger, id, k).amount;
    of(RealGrossRevenue) - of(PsGrossRevenueFx) - of(MerchantRefund)
  }

  function BookedFees(ledger: seq<Entry>, id: string): real {
    var of := (k: Kind) => Booked(ledger, id, k).amount;
    of(PsMethodFee) + of(MerchantPsFixedFee) + of(MerchantRefundFee) + of(MerchantRefundFixedFee)
  }

  function BookedVat(ledger: seq<Entry>, id: string): real {
    var of := (k: Kind) => Booked(ledger, id, k).amount;
    of(MerchantTaxFeeCostValue) + of(MerchantTaxFeeCentralBankFx) - of(ReverseTaxFee) - of(ReverseTaxFeeDelta)
  }

  function BookedPayout(ledger: seq<Entry>, id: string): real {
    var of := (k: Kind) => Booked(ledger, id, k).amount;
    of(RealGrossRevenue) - of(PsGrossRevenueFx)
    - of(MerchantTaxFeeCostValue) - of(MerchantTaxFeeCentralBankFx) - of(PsMethodFee) - of(MerchantPsFixedFee)
    - of(MerchantRefund) - of(MerchantRefundFee) - of(MerchantRefundFixedFee)
    - of(ReverseTaxFeeDelta) + of(ReverseTaxFee)
  }

  function Over(rows: seq<Row>, ledger: seq<Entry>, booked: (seq<Entry>, string) -> real): real {
    SumOver(rows, (v: View) => booked(ledger, v.id))
  }

  /** What a line of the exact report says, in entries. */
  ghost predicate AddsUpEntries(l: Line, rows: seq<Row>, ledger: seq<Entry>) {
    && l.grossTotal == Over(rows, ledger, BookedGross)
    && l.totalFees == Over(rows, ledger, BookedFees)
    && l.totalVat == Over(rows, ledger, BookedVat)
    && l.payout == Over(rows, ledger, BookedPayout)
  }

  ghost predicate ShowsEntries(v: View, ledger: seq<Entry>) {
    && v.payment.grossRevenue.amount - v.refund.refundGrossRevenue.amount == BookedGross(ledger, v.id)
    && v.payment.feesTotal.amount + v.refund.refundFeesTotal.amount == BookedFees(ledger, v.id)
    && v.payment.taxFeeTotal.amount - v.refund.refundTaxFeeTotal.amount == BookedVat(ledger, v.id)
    && v.payment.netRevenue.amount - v.refund.refundReverseRevenue.amount == BookedPayout(ledger, v.id)
  }

  lemma ReportedAmounts(v: View, ledger: seq<Entry>)
    requires Reports(v, BookOf(Of(ledger, v.id)))
    ensures ShowsEntries(v, ledger)
  {
    hide Round, Latest, Of;
  }

  lemma LineAddsUpEntries(l: Line, rows: seq<Row>, ledger: seq<Entry>)
    requires AddsUp(l, rows, (f: Figure) => f.amount)
    requires forall r :: r in rows ==> ShowsEntries(r.view, ledger)
    ensures AddsUpEntries(l, rows, ledger)
  {
    var cents := (f: Figure) => f.amount;
    hide BookedGross, BookedFees, BookedVat, BookedPayout, SumOver, CountOver;
    OverAgrees(rows, ledger, BookedGross,
               (v: View) => cents(v.payment.grossRevenue) - cents(v.refund.refundGrossRevenue));
    OverAgrees(rows, ledger, BookedFees,
               (v: View) => cents(v.payment.feesTotal) + cents(v.refund.refundFeesTotal));
    OverAgrees(rows, ledger, BookedVat,
               (v: View) => cents(v.payment.taxFeeTotal) - cents(v.refund.refundTaxFeeTotal));
    OverAgrees(rows, ledger, BookedPayout,
               (v: View) => cents(v.payment.netRevenue) - cents(v.refund.refundReverseRevenue));
  }

  lemma OverAgrees(rows: seq<Row>, ledger: seq<Entry>, booked: (seq<Entry>, string) -> real, f: View -> real)
    requires forall r :: r in rows ==> f(r.view) == booked(ledger, r.view.id)
    ensures Over(rows, ledger, booked) == SumOver(rows, f)
  {
    SumsAgree(rows, (v: View) => booked(ledger, v.id), f);
  }

  /** The exact report adds up the entries of the listed orders, in the total and
      in every item. */
  lemma ReportAddsUpEntries(views: seq<View>, w: Window, orders: map<string, Order>, ledger: seq<Entry>)
    requires UpToDate(views, orders, ledger)
    ensures var rows, s := Unwind(Matched(views, w)), SummaryIn(views, w, Exact);
            && AddsUpEntries(s.total, rows, ledger)
            && forall item :: item in s.items ==> AddsUpEntries(item.line, Select(rows, item.key), ledger)
  {
    var rows, s := Unwind(Matched(views, w)), SummaryIn(views, w, Exact);
    forall r | r in rows ensures ShowsEntries(r.view, ledger) {
      RowsFromLedger(views, w, orders, ledger, r);
      ReportedAmounts(r.view, ledger);
    }
    SummariesAddUp(rows);
    hide ShowsEntries, AddsUp, AddsUpEntries, SummaryOfRows;
    LineAddsUpEntries(s.total, rows, ledger);
    forall item | item in s.items ensures AddsUpEntries(item.line, Select(rows, item.key), ledger) {
      LineAddsUpEntries(item.line, Select(rows, item.key), ledger);
    }
  }
}
