/** The accounting entries of one order and the book they are folded into. */
module Ledger {
  import opened Amounts

  /** The same amount as the source carries it three times: its value, its
      currency, and its value rounded when the entry was booked. */
  datatype Figure = Figure(amount: real, currency: string, rounded: real)

  const NOTHING := Figure(0.0, "", 0.0)

  /** Entry types that an order view reads; every other type is `Unread`. */
  datatype Kind =
      // booked by a payment
    | RealGrossRevenue | RealTaxFee | CentralBankTaxFee
    | PsGrossRevenueFx | PsGrossRevenueFxTaxFee
    | MerchantTaxFeeCostValue | MerchantTaxFeeCentralBankFx
    | PsMethodFee | MerchantMethodFee | MerchantMethodFeeCostValue
    | MerchantMethodFixedFee | RealMerchantMethodFixedFee | RealMerchantMethodFixedFeeCostValue
    | MerchantPsFixedFee | RealMerchantPsFixedFee
      // booked by a refund or a chargeback
    | RealRefund | RealRefundTaxFee | RealRefundFee | RealRefundFixedFee
    | MerchantRefund | MerchantRefundFee | MerchantRefundFixedFeeCostValue | MerchantRefundFixedFee
    | ReverseTaxFee | ReverseTaxFeeDelta | PsReverseTaxFeeDelta
    | Unread(name: string)
  {
    predicate OfRefund() {
      RealRefund? || RealRefundTaxFee? || RealRefundFee? || RealRefundFixedFee?
      || MerchantRefund? || MerchantRefundFee? || MerchantRefundFixedFeeCostValue? || MerchantRefundFixedFee?
      || ReverseTaxFee? || ReverseTaxFeeDelta? || PsReverseTaxFeeDelta?
    }

    predicate OfPayment() {
      !OfRefund() && !Unread?
    }
  }

  /** `common` is in the merchant's royalty currency, `origin` in the currency
      charged, `local` in the currency of the payer's tax office. */
  datatype Entry = Entry(source: string, kind: Kind, common: Figure, origin: Figure, local: Figure)

  const BLANK := Entry("", Unread(""), NOTHING, NOTHING, NOTHING)

  const READ_KINDS: set<Kind> := {
    RealGrossRevenue, RealTaxFee, CentralBankTaxFee, PsGrossRevenueFx, PsGrossRevenueFxTaxFee,
    MerchantTaxFeeCostValue, MerchantTaxFeeCentralBankFx, PsMethodFee, MerchantMethodFee,
    MerchantMethodFeeCostValue, MerchantMethodFixedFee, RealMerchantMethodFixedFee,
    RealMerchantMethodFixedFeeCostValue, MerchantPsFixedFee, RealMerchantPsFixedFee,
    RealRefund, RealRefundTaxFee, RealRefundFee, RealRefundFixedFee, MerchantRefund,
    MerchantRefundFee, MerchantRefundFixedFeeCostValue, MerchantRefundFixedFee,
    ReverseTaxFee, ReverseTaxFeeDelta, PsReverseTaxFeeDelta }

  /** Entries looked up by type; a type nothing was booked under has a blank. */
  type Book = Kind -> Entry

  /** The entry a view reads for a type: the last one booked. */
  function Latest(list: seq<Entry>, k: Kind): Entry {
    if list == [] then BLANK
    else if list[|list| - 1].kind == k then list[|list| - 1]
    else Latest(list[..|list| - 1], k)
  }

  function BookOf(list: seq<Entry>): Book {
    (k: Kind) => Latest(list, k)
  }

  /** The entries booked for one source, in collection order. */
  function Of(ledger: seq<Entry>, source: string): (own: seq<Entry>)
    ensures forall e :: e in own <==> e in ledger && e.source == source
  {
    if ledger == [] then []
    else (if ledger[0].source == source then [ledger[0]] else []) + Of(ledger[1..], source)
  }

  ghost predicate Books(list: seq<Entry>, k: Kind) {
    exists e :: e in list && e.kind == k
  }

  /** What is read, without mentioning how the list is folded: an entry with no
      other of its type behind it, ... */
  lemma {:induction false} LatestIsLast(list: seq<Entry>, i: nat)
    requires i < |list| && forall j :: i < j < |list| ==> list[j].kind != list[i].kind
    ensures Latest(list, list[i].kind) == list[i]
  {
    var n := |list| - 1;
    if i < n {
      assert list[..n][i] == list[i];
      LatestIsLast(list[..n], i);
    }
  }

  /** ... and a blank for a type nothing was booked under. */
  lemma {:induction false} LatestIsBlank(list: seq<Entry>, k: Kind)
    requires !Books(list, k)
    ensures Latest(list, k) == BLANK
  {
    if list != [] {
      LatestIsBlank(list[..|list| - 1], k);
    }
  }

  lemma {:induction false} LatestIsBooked(list: seq<Entry>, k: Kind)
    requires Books(list, k)
    ensures Latest(list, k) in list && Latest(list, k).kind == k
  {
    var n := |list| - 1;
    if list[n].kind != k {
      assert list == list[..n] + [list[n]];
      LatestIsBooked(list[..n], k);
    }
  }

  ghost predicate DistinctKinds(list: seq<Entry>) {
    forall i, j :: 0 <= i < j < |list| ==> list[i].kind != list[j].kind
  }

  /** With one entry a type the order of the entries is irrelevant. */
  lemma LatestIgnoresOrder(a: seq<Entry>, b: seq<Entry>, k: Kind)
    requires DistinctKinds(a) && DistinctKinds(b)
    requires forall e :: e in a <==> e in b
    ensures Latest(a, k) == Latest(b, k)
  {
    if Books(a, k) {
      LatestIsBooked(a, k);
      LatestIsBooked(b, k);
    } else {
      LatestIsBlank(a, k);
      LatestIsBlank(b, k);
    }
  }

  /** With two entries of a type it is not: the later one is the one shown. */
  lemma RepeatedKindMakesOrderMatter(e: Entry, f: Entry)
    requires e.kind == f.kind && e != f
    ensures Latest([e, f], e.kind) == f && Latest([f, e], e.kind) == e
  {
    assert [e, f][..1] == [e] && [f, e][..1] == [f];
  }

  ghost predicate PaymentOnly(list: seq<Entry>) {
    forall e :: e in list ==> !e.kind.OfRefund()
  }

  ghost predicate RefundOnly(list: seq<Entry>) {
    forall e :: e in list ==> !e.kind.OfPayment()
  }

  /** No refund entry, respectively no payment entry, was ever booked. */
  ghost predicate NoRefundSide(b: Book) {
    forall k: Kind :: k.OfRefund() ==> b(k) == BLANK
  }

  ghost predicate NoPaymentSide(b: Book) {
    forall k: Kind :: k.OfPayment() ==> b(k) == BLANK
  }

  lemma OneSidedBooks(list: seq<Entry>)
    ensures PaymentOnly(list) ==> NoRefundSide(BookOf(list))
    ensures RefundOnly(list) ==> NoPaymentSide(BookOf(list))
  {
    forall k: Kind | !Books(list, k)
      ensures BookOf(list)(k) == BLANK
    {
      LatestIsBlank(list, k);
    }
  }

  /** Booked rounding: whole cents, within half a cent of the exact value. */
  predicate Tidy(f: Figure) {
    Whole(f.rounded) && -0.5 <= f.rounded - f.amount <= 0.5
  }

  ghost predicate TidyBook(b: Book) {
    forall k: Kind :: Tidy(b(k).common)
  }

  lemma TidyEntriesMakeTidyBook(list: seq<Entry>)
    requires forall e :: e in list ==> Tidy(e.common)
    ensures TidyBook(BookOf(list))
  {
    forall k: Kind ensures Tidy(BookOf(list)(k).common) {
      if Books(list, k) {
        LatestIsBooked(list, k);
      } else {
        LatestIsBlank(list, k);
      }
    }
  }
}
