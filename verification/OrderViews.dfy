/** The order view: about fifty money figures computed from the book of an
    order, and the laws that tie them together. */
module OrderViews {
  import opened Options
  import opened Amounts
  import opened Ledger

  /** Signed sums of figures. The currency shown is that of the first term. */
  function Plus(f: Figure, g: Figure): Figure {
    Figure(f.amount + g.amount, f.currency, f.rounded + g.rounded)
  }

  function Minus(f: Figure, g: Figure): Figure {
    Figure(f.amount - g.amount, f.currency, f.rounded - g.rounded)
  }

  /** The figure stored in a view: the rounded part is rounded once more. */
  function Shown(f: Figure): Figure {
    f.(rounded := Round(f.rounded))
  }

  datatype PaymentFigures = PaymentFigures(
    paymentGrossRevenueLocal: Figure,
    paymentGrossRevenueOrigin: Figure,
    paymentGrossRevenue: Figure,
    paymentTaxFee: Figure,
    paymentTaxFeeLocal: Figure,
    paymentTaxFeeOrigin: Figure,
    paymentTaxFeeCurrencyExchangeFee: Figure,
    paymentTaxFeeTotal: Figure,
    paymentGrossRevenueFx: Figure,
    paymentGrossRevenueFxTaxFee: Figure,
    paymentGrossRevenueFxProfit: Figure,
    grossRevenue: Figure,
    taxFee: Figure,
    taxFeeCurrencyExchangeFee: Figure,
    taxFeeTotal: Figure,
    methodFeeTotal: Figure,
    methodFeeTariff: Figure,
    methodFeeTariffSelfCost: Figure,
    methodFeeProfit: Figure,
    methodFixedFeeTariff: Figure,
    methodFixedFeeTariffFxProfit: Figure,
    methodFixedFeeTariffSelfCost: Figure,
    methodFixedFeeTariffTotalProfit: Figure,
    paysuperFixedFee: Figure,
    paysuperFixedFeeFxProfit: Figure,
    feesTotal: Figure,
    feesTotalLocal: Figure,
    netRevenue: Figure,
    paysuperMethodTotalProfit: Figure,
    paysuperTotalProfit: Figure)

  datatype RefundFigures = RefundFigures(
    paymentRefundGrossRevenueLocal: Figure,
    paymentRefundGrossRevenueOrigin: Figure,
    paymentRefundGrossRevenue: Figure,
    paymentRefundTaxFee: Figure,
    paymentRefundTaxFeeLocal: Figure,
    paymentRefundTaxFeeOrigin: Figure,
    paymentRefundFeeTariff: Figure,
    methodRefundFixedFeeTariff: Figure,
    refundGrossRevenue: Figure,
    refundGrossRevenueFx: Figure,
    methodRefundFeeTariff: Figure,
    methodRefundFeeTariffProfit: Figure,
    methodRefundFixedFeeTariffSelfCost: Figure,
    merchantRefundFixedFeeTariff: Figure,
    methodRefundFixedFeeTariffProfit: Figure,
    refundTaxFee: Figure,
    refundTaxFeeCurrencyExchangeFee: Figure,
    paysuperRefundTaxFeeCurrencyExchangeFee: Figure,
    refundTaxFeeTotal: Figure,
    refundReverseRevenue: Figure,
    refundFeesTotal: Figure,
    refundFeesTotalLocal: Figure,
    paysuperRefundTotalProfit: Figure)

  // The figures that reports are built on.

  function PaymentCharged(b: Book): Figure {
    Shown(b(RealGrossRevenue).origin)
  }

  function GrossRevenue(b: Book): Figure {
    Shown(Minus(b(RealGrossRevenue).common, b(PsGrossRevenueFx).common))
  }

  function TaxFeeTotal(b: Book): Figure {
    Shown(Plus(b(MerchantTaxFeeCostValue).common, b(MerchantTaxFeeCentralBankFx).common))
  }

  function FeesTotal(b: Book): Figure {
    Shown(Plus(b(PsMethodFee).common, b(MerchantPsFixedFee).common))
  }

  function NetRevenue(b: Book): Figure {
    Shown(Minus(Minus(Minus(Minus(Minus(b(RealGrossRevenue).common, b(PsGrossRevenueFx).common),
                                  b(MerchantPsFixedFee).common),
                            b(MerchantTaxFeeCentralBankFx).common),
                      b(PsMethodFee).common),
                b(MerchantTaxFeeCostValue).common))
  }

  function RefundCharged(b: Book): Figure {
    Shown(b(RealRefund).origin)
  }

  function RefundGrossRevenue(b: Book): Figure {
    Shown(b(MerchantRefund).common)
  }

  function RefundTaxDelta(b: Book): Figure {
    Shown(b(ReverseTaxFeeDelta).common)
  }

  function RefundTaxFeeTotal(b: Book): Figure {
    Shown(Plus(b(ReverseTaxFee).common, b(ReverseTaxFeeDelta).common))
  }

  function RefundFeesTotal(b: Book): Figure {
    Shown(Plus(b(MerchantRefundFee).common, b(MerchantRefundFixedFee).common))
  }

  function RefundReverseRevenue(b: Book): Figure {
    Shown(Minus(Plus(Plus(Plus(b(MerchantRefund).common, b(MerchantRefundFee).common),
                          b(MerchantRefundFixedFee).common),
                     b(ReverseTaxFeeDelta).common),
                b(ReverseTaxFee).common))
  }

  function PaymentFiguresOf(b: Book): PaymentFigures {
    PaymentFigures(
      Shown(b(RealGrossRevenue).local),
      PaymentCharged(b),
      Shown(b(RealGrossRevenue).common),
      Shown(b(RealTaxFee).common),
      Shown(b(RealTaxFee).local),
      Shown(b(RealTaxFee).origin),
      Shown(b(CentralBankTaxFee).origin),
      Shown(Plus(b(RealTaxFee).common, b(CentralBankTaxFee).common)),
      Shown(b(PsGrossRevenueFx).common),
      Shown(b(PsGrossRevenueFxTaxFee).common),
      Shown(Minus(b(PsGrossRevenueFx).common, b(PsGrossRevenueFxTaxFee).common)),
      GrossRevenue(b),
      Shown(b(MerchantTaxFeeCostValue).common),
      Shown(b(MerchantTaxFeeCentralBankFx).common),
      TaxFeeTotal(b),
      Shown(b(PsMethodFee).common),
      Shown(b(MerchantMethodFee).common),
      Shown(b(MerchantMethodFeeCostValue).common),
      Shown(Minus(b(MerchantMethodFee).common, b(MerchantMethodFeeCostValue).common)),
      Shown(b(MerchantMethodFixedFee).common),
      Shown(Minus(b(MerchantMethodFixedFee).common, b(RealMerchantMethodFixedFee).common)),
      Shown(b(RealMerchantMethodFixedFeeCostValue).common),
      Shown(Minus(b(RealMerchantMethodFixedFee).common, b(RealMerchantMethodFixedFeeCostValue).common)),
      Shown(b(MerchantPsFixedFee).common),
      Shown(Minus(b(MerchantPsFixedFee).common, b(RealMerchantPsFixedFee).common)),
      FeesTotal(b),
      Shown(Plus(b(PsMethodFee).local, b(MerchantPsFixedFee).local)),
      NetRevenue(b),
      Shown(Minus(Minus(Plus(b(PsMethodFee).common, b(MerchantPsFixedFee).common),
                        b(MerchantMethodFeeCostValue).common),
                  b(RealMerchantMethodFixedFeeCostValue).common)),
      Shown(Minus(Minus(Minus(Minus(Plus(Plus(b(PsGrossRevenueFx).common, b(PsMethodFee).common),
                                         b(MerchantPsFixedFee).common),
                                    b(CentralBankTaxFee).common),
                              b(PsGrossRevenueFxTaxFee).common),
                        b(MerchantMethodFeeCostValue).common),
                  b(RealMerchantMethodFixedFeeCostValue).common)))
  }

  function RefundFiguresOf(b: Book): RefundFigures {
    RefundFigures(
      Shown(b(RealRefund).local),
      RefundCharged(b),
      Shown(b(RealRefund).common),
      Shown(b(RealRefundTaxFee).common),
      Shown(b(RealRefundTaxFee).local),
      Shown(b(RealRefundTaxFee).origin),
      Shown(b(RealRefundFee).common),
      Shown(b(RealRefundFixedFee).common),
      RefundGrossRevenue(b),
      Shown(Minus(b(MerchantRefund).common, b(RealRefund).common)),
      Shown(b(MerchantRefundFee).common),
      Shown(Minus(b(MerchantRefundFee).common, b(RealRefundFee).common)),
      Shown(b(MerchantRefundFixedFeeCostValue).common),
      Shown(b(MerchantRefundFixedFee).common),
      Shown(Minus(b(MerchantRefundFixedFee).common, b(RealRefundFixedFee).common)),
      Shown(b(ReverseTaxFee).common),
      RefundTaxDelta(b),
      Shown(b(PsReverseTaxFeeDelta).common),
      RefundTaxFeeTotal(b),
      RefundReverseRevenue(b),
      RefundFeesTotal(b),
      Shown(Plus(b(MerchantRefundFee).local, b(MerchantRefundFixedFee).local)),
      Shown(Minus(Minus(Plus(Plus(b(MerchantRefundFee).common, b(MerchantRefundFixedFee).common),
                             b(PsReverseTaxFeeDelta).common),
                        b(RealRefundFixedFee).common),
                  b(RealRefundFee).common)))
  }

  datatype OrderType = Purchase | Refund | OtherType(name: string)

  datatype Status = Processed | Refunded | Chargeback | OtherStatus(name: string)

  /** The fields of an order that a view copies or computes with. `items` are
      the item names, `projectNames` the project's name by language; times are
      seconds, amounts cents. */
  datatype Order = Order(
    id: string,
    kind: OrderType,
    status: Status,
    merchantId: string,
    country: string,
    closedAt: int,
    isProduction: bool,
    items: seq<string>,
    projectNames: map<string, string>,
    chargeAmount: real,
    chargeCurrency: string,
    taxRate: Option<real>,
    userLocale: Option<string>,
    terminalId: Option<string>,
    metadata: map<string, string>,
    royaltyReportId: string)

  datatype ReportSummary = ReportSummary(
    status: Status, charge: Figure, gross: Figure, vat: Figure, fees: Figure, revenue: Figure)

  /** A stored view. `metadataValues` come in the order a Go map happens to be
      iterated in, so two views of the same order may differ in that order. */
  datatype View = View(
    id: string,
    kind: OrderType,
    status: Status,
    merchantId: string,
    country: string,
    closedAt: int,
    isProduction: bool,
    items: seq<string>,
    projectNames: map<string, string>,
    payment: PaymentFigures,
    refund: RefundFigures,
    orderCharge: Figure,
    orderChargeBeforeVat: Figure,
    payoutCurrency: string,
    taxRate: real,
    locale: string,
    terminalId: string,
    royaltyReportId: string,
    summary: ReportSummary,
    metadataValues: seq<string>)

  /** A difference shown without a second rounding; the currencies are glued
      together on the understanding that one of them is empty. */
  function Net(f: Figure, g: Figure): Figure {
    Figure(f.amount - g.amount, f.currency + g.currency, f.rounded - g.rounded)
  }

  function Magnitude(f: Figure): Figure {
    Figure(Abs(f.amount), f.currency, Abs(f.rounded))
  }

  function SummaryOf(kind: OrderType, status: Status, p: PaymentFigures, r: RefundFigures): ReportSummary {
    ReportSummary(
      if kind == Purchase && (status == Refunded || status == Chargeback) then Processed else status,
      Net(p.paymentGrossRevenueOrigin, r.paymentRefundGrossRevenueOrigin),
      Net(p.grossRevenue, r.refundGrossRevenue),
      Net(p.taxFeeTotal, r.refundTaxFeeTotal),
      Magnitude(Net(p.feesTotal, r.refundFeesTotal)),
      Net(p.netRevenue, r.refundReverseRevenue))
  }

  /** The view of an order, given its book, before its metadata values are
      collected. */
  function ViewOf(o: Order, b: Book): View
    requires o.taxRate.Some?
  {
    var p, r := PaymentFiguresOf(b), RefundFiguresOf(b);
    var beforeVat := Minus(Minus(Figure(o.chargeAmount, o.chargeCurrency, o.chargeAmount),
                                 ByAmount(b(RealTaxFee).origin)),
                           ByAmount(b(RealRefundTaxFee).origin));
    View(o.id, o.kind, o.status, o.merchantId, o.country, o.closedAt, o.isProduction, o.items, o.projectNames,
         p, r,
         Shown(Figure(o.chargeAmount, o.chargeCurrency, o.chargeAmount)),
         Shown(beforeVat),
         if o.kind == Purchase then p.netRevenue.currency else r.refundReverseRevenue.currency,
         o.taxRate.value,
         if o.userLocale.Some? then o.userLocale.value else "",
         if o.terminalId.Some? then o.terminalId.value else "",
         o.royaltyReportId,
         SummaryOf(o.kind, o.status, p, r),
         [])
  }

  /** The charge before VAT is rounded from the exact amounts, not from the
      booked roundings. */
  function ByAmount(f: Figure): Figure {
    f.(rounded := f.amount)
  }

  /** What a payment brings in is split, to the last fraction of a cent, between
      the merchant, the platform, the tax offices and the two self costs. */
  lemma PaymentValueConserved(b: Book)
    ensures var p := PaymentFiguresOf(b);
            p.paymentGrossRevenue.amount ==
              p.netRevenue.amount + p.paysuperTotalProfit.amount + p.taxFeeTotal.amount
              + b(CentralBankTaxFee).common.amount + p.paymentGrossRevenueFxTaxFee.amount
              + p.methodFeeTariffSelfCost.amount + p.methodFixedFeeTariffSelfCost.amount
  {
  }

  /** On the rounded figures the merchant's share is gross less tax less fees:
      exactly when the entries were booked in whole cents, and within two cents
      whatever they hold. */
  lemma RoundedPaymentSplit(b: Book)
    ensures var gap := NetRevenue(b).rounded
                       - (GrossRevenue(b).rounded - TaxFeeTotal(b).rounded - FeesTotal(b).rounded);
            -2.0 <= gap <= 2.0 && (TidyBook(b) ==> gap == 0.0)
  {
    hide Round, Whole;
    SplitOfRoundedSums(b(RealGrossRevenue).common.rounded, b(PsGrossRevenueFx).common.rounded,
                       b(MerchantPsFixedFee).common.rounded, b(MerchantTaxFeeCentralBankFx).common.rounded,
                       b(PsMethodFee).common.rounded, b(MerchantTaxFeeCostValue).common.rounded);
  }

  lemma SplitOfRoundedSums(g: real, x: real, f: real, c: real, m: real, t: real)
    ensures var gap := Round(g - x - f - c - m - t) - (Round(g - x) - Round(t + c) - Round(m + f));
            && -2.0 <= gap <= 2.0
            && (Whole(g) && Whole(x) && Whole(f) && Whole(c) && Whole(m) && Whole(t) ==> gap == 0.0)
  {
    if Whole(g) && Whole(x) && Whole(f) && Whole(c) && Whole(m) && Whole(t) {
      WholeClosed(g, x);
      WholeClosed(t, c);
      WholeClosed(m, f);
      WholeClosed(g - x, m + f);
      WholeClosed(g - x - (m + f), t + c);
      assert g - x - f - c - m - t == g - x - (m + f) - (t + c);
    }
  }

  /** The platform's profit is its fee margin plus its exchange margin less the
      central bank's tax; each tariff is its self cost plus the margins on it. */
  lemma PlatformProfitSplit(b: Book)
    ensures var p := PaymentFiguresOf(b);
            && p.paysuperTotalProfit.amount == p.paysuperMethodTotalProfit.amount
                                               + p.paymentGrossRevenueFxProfit.amount - b(CentralBankTaxFee).common.amount
            && p.paysuperMethodTotalProfit.amount == p.feesTotal.amount
                                               - p.methodFeeTariffSelfCost.amount - p.methodFixedFeeTariffSelfCost.amount
            && p.methodFeeTariff.amount == p.methodFeeTariffSelfCost.amount + p.methodFeeProfit.amount
            && p.methodFixedFeeTariff.amount == p.methodFixedFeeTariffFxProfit.amount
                                               + p.methodFixedFeeTariffTotalProfit.amount + p.methodFixedFeeTariffSelfCost.amount
  {
  }

  /** What a refund takes back from the merchant: the refund and its fees, less
      the tax that comes back, plus twice the exchange delta on that tax, since
      the delta is added both to the tax total and to the merchant's charge. */
  lemma RefundChargeSplit(b: Book)
    ensures var r := RefundFiguresOf(b);
            && r.refundReverseRevenue.amount == r.refundGrossRevenue.amount + r.refundFeesTotal.amount
                                                - r.refundTaxFeeTotal.amount
                                                + 2.0 * r.refundTaxFeeCurrencyExchangeFee.amount
            && r.paysuperRefundTotalProfit.amount == r.methodRefundFeeTariffProfit.amount
                                                + r.methodRefundFixedFeeTariffProfit.amount
                                                + r.paysuperRefundTaxFeeCurrencyExchangeFee.amount
            && r.refundGrossRevenue.amount == r.refundGrossRevenueFx.amount + r.paymentRefundGrossRevenue.amount
  {
  }

  // What the figures of a view have in common.

  ghost predicate CommonOfPayment(p: PaymentFigures, ok: Figure -> bool) {
    && ok(p.paymentGrossRevenue) && ok(p.paymentTaxFee) && ok(p.paymentTaxFeeTotal) && ok(p.paymentGrossRevenueFx)
    && ok(p.paymentGrossRevenueFxTaxFee) && ok(p.paymentGrossRevenueFxProfit) && ok(p.grossRevenue) && ok(p.taxFee)
    && ok(p.taxFeeCurrencyExchangeFee) && ok(p.taxFeeTotal) && ok(p.methodFeeTotal) && ok(p.methodFeeTariff)
    && ok(p.methodFeeTariffSelfCost) && ok(p.methodFeeProfit) && ok(p.methodFixedFeeTariff)
    && ok(p.methodFixedFeeTariffFxProfit) && ok(p.methodFixedFeeTariffSelfCost)
    && ok(p.methodFixedFeeTariffTotalProfit) && ok(p.paysuperFixedFee) && ok(p.paysuperFixedFeeFxProfit)
    && ok(p.feesTotal) && ok(p.netRevenue) && ok(p.paysuperMethodTotalProfit) && ok(p.paysuperTotalProfit)
  }

  ghost predicate CommonOfRefund(r: RefundFigures, ok: Figure -> bool) {
    && ok(r.paymentRefundGrossRevenue) && ok(r.paymentRefundTaxFee) && ok(r.paymentRefundFeeTariff)
    && ok(r.methodRefundFixedFeeTariff) && ok(r.refundGrossRevenue) && ok(r.refundGrossRevenueFx)
    && ok(r.methodRefundFeeTariff) && ok(r.methodRefundFeeTariffProfit) && ok(r.methodRefundFixedFeeTariffSelfCost)
    && ok(r.merchantRefundFixedFeeTariff) && ok(r.methodRefundFixedFeeTariffProfit) && ok(r.refundTaxFee)
    && ok(r.refundTaxFeeCurrencyExchangeFee) && ok(r.paysuperRefundTaxFeeCurrencyExchangeFee)
    && ok(r.refundTaxFeeTotal) && ok(r.refundReverseRevenue) && ok(r.refundFeesTotal)
    && ok(r.paysuperRefundTotalProfit)
  }

  ghost predicate LocalOfPayment(p: PaymentFigures, ok: Figure -> bool) {
    && ok(p.paymentGrossRevenueLocal) && ok(p.paymentTaxFeeLocal) && ok(p.feesTotalLocal)
  }

  ghost predicate LocalOfRefund(r: RefundFigures, ok: Figure -> bool) {
    && ok(r.paymentRefundGrossRevenueLocal) && ok(r.paymentRefundTaxFeeLocal) && ok(r.refundFeesTotalLocal)
  }

  ghost predicate OriginOfPayment(p: PaymentFigures, ok: Figure -> bool) {
    && ok(p.paymentGrossRevenueOrigin) && ok(p.paymentTaxFeeOrigin) && ok(p.paymentTaxFeeCurrencyExchangeFee)
  }

  ghost predicate OriginOfRefund(r: RefundFigures, ok: Figure -> bool) {
    && ok(r.paymentRefundGrossRevenueOrigin) && ok(r.paymentRefundTaxFeeOrigin)
  }

  ghost predicate AllRead(b: Book, ok: Entry -> bool) {
    forall k: Kind :: !k.Unread? ==> ok(b(k))
  }

  ghost predicate InCurrencies(b: Book, common: string, origin: string, local: string) {
    AllRead(b, (e: Entry) =>
      e.common.currency == common && e.origin.currency == origin && e.local.currency == local)
  }

  /** Every figure is in the currency its kind is kept in, ... */
  lemma FiguresKeepCurrencies(b: Book, common: string, origin: string, local: string)
    requires InCurrencies(b, common, origin, local)
    ensures var p, r := PaymentFiguresOf(b), RefundFiguresOf(b);
            && CommonOfPayment(p, (f: Figure) => f.currency == common)
            && OriginOfPayment(p, (f: Figure) => f.currency == origin)
            && LocalOfPayment(p, (f: Figure) => f.currency == local)
            && CommonOfRefund(r, (f: Figure) => f.currency == common)
            && OriginOfRefund(r, (f: Figure) => f.currency == origin)
            && LocalOfRefund(r, (f: Figure) => f.currency == local)
  {
    CommonPaymentCurrency(b, common, origin, local);
    CommonRefundCurrency(b, common, origin, local);
    hide CommonOfPayment, CommonOfRefund, Round;
  }

  lemma CommonPaymentCurrency(b: Book, common: string, origin: string, local: string)
    requires InCurrencies(b, common, origin, local)
    ensures CommonOfPayment(PaymentFiguresOf(b), (f: Figure) => f.currency == common)
  {
    hide Round;
  }

  lemma CommonRefundCurrency(b: Book, common: string, origin: string, local: string)
    requires InCurrencies(b, common, origin, local)
    ensures CommonOfRefund(RefundFiguresOf(b), (f: Figure) => f.currency == common)
  {
    hide Round;
  }

  ghost predicate Exactly(b: Book) {
    AllRead(b, (e: Entry) => e.common.rounded == e.common.amount && e.origin.rounded == e.origin.amount
                             && e.local.rounded == e.local.amount)
  }

  /** ... and shows its amount rounded, if the entries hold theirs exactly. */
  lemma FiguresShowTheirAmount(b: Book)
    requires Exactly(b)
    ensures var p, ok := PaymentFiguresOf(b), (f: Figure) => f.rounded == Round(f.amount);
            CommonOfPayment(p, ok) && OriginOfPayment(p, ok) && LocalOfPayment(p, ok)
    ensures var r, ok := RefundFiguresOf(b), (f: Figure) => f.rounded == Round(f.amount);
            CommonOfRefund(r, ok) && OriginOfRefund(r, ok) && LocalOfRefund(r, ok)
  {
    PaymentShowsItsAmounts(b);
    RefundShowsItsAmounts(b);
  }

  lemma PaymentShowsItsAmounts(b: Book)
    requires Exactly(b)
    ensures var p, ok := PaymentFiguresOf(b), (f: Figure) => f.rounded == Round(f.amount);
            CommonOfPayment(p, ok) && OriginOfPayment(p, ok) && LocalOfPayment(p, ok)
  {
    PaymentShowsCommonAmounts(b);
    PaymentShowsOtherAmounts(b);
    hide CommonOfPayment, OriginOfPayment, LocalOfPayment, PaymentFiguresOf, Round, Exactly;
  }

  lemma PaymentShowsOtherAmounts(b: Book)
    requires Exactly(b)
    ensures var p, ok := PaymentFiguresOf(b), (f: Figure) => f.rounded == Round(f.amount);
            OriginOfPayment(p, ok) && LocalOfPayment(p, ok)
  {
    hide Round;
  }

  lemma PaymentShowsCommonAmounts(b: Book)
    requires Exactly(b)
    ensures CommonOfPayment(PaymentFiguresOf(b), (f: Figure) => f.rounded == Round(f.amount))
  {
    hide Round;
  }

  lemma RefundShowsItsAmounts(b: Book)
    requires Exactly(b)
    ensures var r, ok := RefundFiguresOf(b), (f: Figure) => f.rounded == Round(f.amount);
            CommonOfRefund(r, ok) && OriginOfRefund(r, ok) && LocalOfRefund(r, ok)
  {
    hide Round;
  }

  /** Each side reads the entries of its side alone. */
  lemma PaymentSideIsApart(b: Book, c: Book)
    requires forall k: Kind :: !k.OfRefund() ==> b(k) == c(k)
    ensures PaymentFiguresOf(b) == PaymentFiguresOf(c)
  {
    hide Round;
  }

  lemma RefundSideIsApart(b: Book, c: Book)
    requires forall k: Kind :: k.OfRefund() ==> b(k) == c(k)
    ensures RefundFiguresOf(b) == RefundFiguresOf(c)
  {
  }

  /** Where all three currencies are one, the figures kept in the payer's or the
      tax office's say the same as those in the merchant's. */
  lemma DomesticFiguresAgree(b: Book)
    requires AllRead(b, (e: Entry) => e.common == e.origin == e.local)
    ensures var p, r := PaymentFiguresOf(b), RefundFiguresOf(b);
            && p.paymentGrossRevenueLocal == p.paymentGrossRevenueOrigin == p.paymentGrossRevenue
            && p.paymentTaxFeeLocal == p.paymentTaxFeeOrigin == p.paymentTaxFee
            && p.feesTotalLocal == p.feesTotal
            && r.paymentRefundGrossRevenueLocal == r.paymentRefundGrossRevenueOrigin == r.paymentRefundGrossRevenue
            && r.paymentRefundTaxFeeLocal == r.paymentRefundTaxFeeOrigin == r.paymentRefundTaxFee
            && r.refundFeesTotalLocal == r.refundFeesTotal
            && p.paymentTaxFeeTotal.amount == p.paymentTaxFee.amount + p.paymentTaxFeeCurrencyExchangeFee.amount
  {
    hide Round;
  }

  /** Totals are their parts, and a profit is what a tariff leaves of its cost. */
  lemma FiguresAddUp(b: Book)
    ensures var p := PaymentFiguresOf(b);
            && p.paymentGrossRevenue.amount == p.grossRevenue.amount + p.paymentGrossRevenueFx.amount
            && p.paymentGrossRevenueFx.amount
               == p.paymentGrossRevenueFxProfit.amount + p.paymentGrossRevenueFxTaxFee.amount
            && p.taxFeeTotal.amount == p.taxFee.amount + p.taxFeeCurrencyExchangeFee.amount
            && p.feesTotal.amount == p.methodFeeTotal.amount + p.paysuperFixedFee.amount
            && p.paysuperFixedFee.amount == p.paysuperFixedFeeFxProfit.amount + b(RealMerchantPsFixedFee).common.amount
            && p.netRevenue.amount == p.grossRevenue.amount - p.taxFeeTotal.amount - p.feesTotal.amount
    ensures var r := RefundFiguresOf(b);
            && r.refundTaxFeeTotal.amount == r.refundTaxFee.amount + r.refundTaxFeeCurrencyExchangeFee.amount
            && r.refundFeesTotal.amount == r.methodRefundFeeTariff.amount + r.merchantRefundFixedFeeTariff.amount
            && r.methodRefundFixedFeeTariffSelfCost.amount == b(MerchantRefundFixedFeeCostValue).common.amount
            && r.methodRefundFeeTariff.amount
               == r.methodRefundFeeTariffProfit.amount + r.paymentRefundFeeTariff.amount
            && r.merchantRefundFixedFeeTariff.amount
               == r.methodRefundFixedFeeTariffProfit.amount + r.methodRefundFixedFeeTariff.amount
  {
  }

  function Opposite(f: Figure): Figure {
    Figure(-f.amount, f.currency, -f.rounded)
  }

  /** What reports need to know of a view: which book its figures come from. */
  ghost predicate Reports(v: View, b: Book) {
    && v.payment.paymentGrossRevenueOrigin == PaymentCharged(b)
    && v.payment.grossRevenue == GrossRevenue(b)
    && v.payment.taxFeeTotal == TaxFeeTotal(b)
    && v.payment.feesTotal == FeesTotal(b)
    && v.payment.netRevenue == NetRevenue(b)
    && v.refund.paymentRefundGrossRevenueOrigin == RefundCharged(b)
    && v.refund.refundGrossRevenue == RefundGrossRevenue(b)
    && v.refund.refundTaxFeeCurrencyExchangeFee == RefundTaxDelta(b)
    && v.refund.refundTaxFeeTotal == RefundTaxFeeTotal(b)
    && v.refund.refundFeesTotal == RefundFeesTotal(b)
    && v.refund.refundReverseRevenue == RefundReverseRevenue(b)
    && v.summary == SummaryOf(v.kind, v.status, v.payment, v.refund)
  }

  lemma ViewReports(o: Order, b: Book)
    requires o.taxRate.Some?
    ensures Reports(ViewOf(o, b), b)
  {
  }

  lemma RefundSideBlank(b: Book)
    requires NoRefundSide(b)
    ensures RefundCharged(b) == RefundGrossRevenue(b) == RefundTaxFeeTotal(b) == NOTHING
    ensures RefundReverseRevenue(b) == RefundFeesTotal(b) == RefundTaxDelta(b) == NOTHING
  {
  }

  lemma PaymentSideBlank(b: Book)
    requires NoPaymentSide(b)
    ensures PaymentCharged(b) == GrossRevenue(b) == TaxFeeTotal(b) == NOTHING
    ensures NetRevenue(b) == FeesTotal(b) == NOTHING
  {
    assert b(RealGrossRevenue) == b(PsGrossRevenueFx) == b(MerchantTaxFeeCostValue) == BLANK;
    assert b(MerchantTaxFeeCentralBankFx) == b(PsMethodFee) == b(MerchantPsFixedFee) == BLANK;
    assert Minus(NOTHING, NOTHING) == NOTHING;
  }

  lemma NetOfOneSide(f: Figure)
    ensures Net(f, NOTHING) == f
    ensures Net(NOTHING, f) == Opposite(f)
  {
    assert f.currency + "" == f.currency == "" + f.currency;
  }

  /** A payment's summary shows the payment side and its currencies alone. The
      summary's revenue is gross less VAT less fees exactly when the fees are
      not negative. */
  lemma PaymentSummary(v: View, b: Book)
    requires Reports(v, b) && NoRefundSide(b)
    ensures v.summary.charge == v.payment.paymentGrossRevenueOrigin
    ensures v.summary.gross == v.payment.grossRevenue
    ensures v.summary.vat == v.payment.taxFeeTotal
    ensures v.summary.fees == Magnitude(v.payment.feesTotal)
    ensures v.summary.revenue == v.payment.netRevenue
    ensures v.summary.revenue.amount == v.summary.gross.amount - v.summary.vat.amount - v.summary.fees.amount
            <==> v.payment.feesTotal.amount >= 0.0
  {
    RefundSideBlank(b);
    NetOfOneSide(PaymentCharged(b));
    NetOfOneSide(GrossRevenue(b));
    NetOfOneSide(TaxFeeTotal(b));
    NetOfOneSide(FeesTotal(b));
    NetOfOneSide(NetRevenue(b));
  }

  /** A refund's summary shows the refund side with its sign turned, fees
      excepted. The summary's revenue misses gross less VAT less fees by twice
      the exchange delta; the two agree exactly when that delta is zero, or when
      negative fees happen to cancel it. */
  lemma RefundSummary(v: View, b: Book)
    requires Reports(v, b) && NoPaymentSide(b)
    ensures v.summary.charge == Opposite(v.refund.paymentRefundGrossRevenueOrigin)
    ensures v.summary.gross == Opposite(v.refund.refundGrossRevenue)
    ensures v.summary.vat == Opposite(v.refund.refundTaxFeeTotal)
    ensures v.summary.fees == Magnitude(v.refund.refundFeesTotal)
    ensures v.summary.revenue == Opposite(v.refund.refundReverseRevenue)
    ensures var delta, fees := v.refund.refundTaxFeeCurrencyExchangeFee.amount, v.refund.refundFeesTotal.amount;
            var gap := v.summary.revenue.amount
                       - (v.summary.gross.amount - v.summary.vat.amount - v.summary.fees.amount);
            && (fees >= 0.0 ==> gap == -2.0 * delta)
            && (gap == 0.0 <==> delta == if fees >= 0.0 then 0.0 else -fees)
  {
    RefundSummaryIsOneSided(v, b);
    RefundChargeSplit(b);
    hide Reports, SummaryOf, NoPaymentSide;
  }

  lemma RefundSummaryIsOneSided(v: View, b: Book)
    requires Reports(v, b) && NoPaymentSide(b)
    ensures v.summary.charge == Opposite(v.refund.paymentRefundGrossRevenueOrigin)
    ensures v.summary.gross == Opposite(v.refund.refundGrossRevenue)
    ensures v.summary.vat == Opposite(v.refund.refundTaxFeeTotal)
    ensures v.summary.fees == Magnitude(v.refund.refundFeesTotal)
    ensures v.summary.revenue == Opposite(v.refund.refundReverseRevenue)
    ensures v.refund.refundGrossRevenue == RefundFiguresOf(b).refundGrossRevenue
    ensures v.refund.refundTaxFeeTotal == RefundFiguresOf(b).refundTaxFeeTotal
    ensures v.refund.refundFeesTotal == RefundFiguresOf(b).refundFeesTotal
    ensures v.refund.refundReverseRevenue == RefundFiguresOf(b).refundReverseRevenue
    ensures v.refund.refundTaxFeeCurrencyExchangeFee == RefundFiguresOf(b).refundTaxFeeCurrencyExchangeFee
  {
    PaymentSideBlank(b);
    hide NoPaymentSide, Round;
    NetOfOneSide(RefundCharged(b));
    NetOfOneSide(RefundGrossRevenue(b));
    NetOfOneSide(RefundTaxFeeTotal(b));
    NetOfOneSide(RefundFeesTotal(b));
    NetOfOneSide(RefundReverseRevenue(b));
  }
  // What of an order its view shows beside the figures.

  /** A payment's view is kept in the currency of its gross revenue, ... */
  lemma PaymentViewCurrency(o: Order, b: Book)
    requires o.taxRate.Some? && o.kind == Purchase && NoRefundSide(b)
    ensures var v := ViewOf(o, b);
            v.payoutCurrency == b(RealGrossRevenue).common.currency == v.summary.revenue.currency
  {
    PaymentSummary(ViewOf(o, b), b);
  }

  /** ... any other order's in the currency of what the merchant pays back. */
  lemma RefundViewCurrency(o: Order, b: Book)
    requires o.taxRate.Some? && o.kind != Purchase && NoPaymentSide(b)
    ensures var v := ViewOf(o, b);
            v.payoutCurrency == b(MerchantRefund).common.currency == v.summary.revenue.currency
  {
    RefundSummary(ViewOf(o, b), b);
    hide NoPaymentSide, Round, Reports;
  }

  /** A refunded or charged back purchase is still reported as processed; no
      other order is reported in another status than its own. */
  lemma ReportedStatus(o: Order, b: Book)
    requires o.taxRate.Some?
    ensures var v := ViewOf(o, b);
            && v.status == o.status
            && (v.summary.status != o.status <==> o.kind == Purchase && (o.status == Refunded || o.status == Chargeback))
            && (v.summary.status != o.status ==> v.summary.status == Processed)
  {
  }

  /** Tax rate, locale and terminal are the order's; a missing locale or terminal
      shows as an empty one. */
  lemma ViewsKeepOrders(o: Order, b: Book)
    requires o.taxRate.Some?
    ensures var v := ViewOf(o, b);
            && Some(v.taxRate) == o.taxRate && v.royaltyReportId == o.royaltyReportId
            && (o.userLocale == Some(v.locale) || (o.userLocale == None && v.locale == ""))
            && (o.terminalId == Some(v.terminalId) || (o.terminalId == None && v.terminalId == ""))
  {
    hide PaymentFiguresOf, RefundFiguresOf, SummaryOf, Round;
  }

  lemma TaxOnOneSide(b: Book)
    ensures NoRefundSide(b) ==> b(RealRefundTaxFee) == BLANK
    ensures NoPaymentSide(b) ==> b(RealTaxFee) == BLANK
  {
  }

  /** The charge before VAT is the charge less the payer's tax, whichever side
      it is booked on, rounded once. */
  lemma ChargeBeforeVat(o: Order, b: Book)
    requires o.taxRate.Some?
    ensures var f := ViewOf(o, b).orderChargeBeforeVat;
            && f.currency == o.chargeCurrency && f.rounded == Round(f.amount)
            && (NoRefundSide(b) ==> f.amount == o.chargeAmount - b(RealTaxFee).origin.amount)
            && (NoPaymentSide(b) ==> f.amount == o.chargeAmount - b(RealRefundTaxFee).origin.amount)
    ensures ViewOf(o, b).orderCharge == Figure(o.chargeAmount, o.chargeCurrency, Round(o.chargeAmount))
  {
    TaxOnOneSide(b);
    hide Round, NoRefundSide, NoPaymentSide, PaymentFiguresOf, RefundFiguresOf, SummaryOf;
  }
}
