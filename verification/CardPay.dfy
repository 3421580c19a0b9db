/** The payment gateway's callbacks: what they do to an order and to a refund. */
module CardPay {
  import opened Options

  /** The statuses a callback may report. */
  datatype Reported =
    | Declined | Cancelled | Completed
    | Authorized | InProgress | Pending | Refunded
    | OtherReport(name: string)

  datatype Kind = BankCard | EWallet | Crypto | UnknownKind

  /** What the gateway is built on: the hash a callback is signed with, the
      statuses callbacks may carry, those that mean success for a recurring
      payment, the reading of a callback's time, the kind of a payment method
      and the names of two parameters. */
  datatype Rules = Rules(
    hash: string -> string,
    paymentAllowed: Reported -> bool,
    refundAllowed: Reported -> bool,
    success: Reported -> bool,
    timestamp: string -> Option<int>,
    kindOf: string -> Kind,
    declineCode: string,
    declineReason: string)

  predicate Signed(rules: Rules, secret: string, raw: string, signature: string) {
    rules.hash(raw + secret) == signature
  }

  // Refunds

  datatype RefundStatus = Created | Rejected | Underway | RefundCompleted | RefundDeclined | RefundCanceled

  datatype RefundCallback = RefundCallback(
    method_: string,
    amount: real,
    currency: string,
    status: Reported,
    id: string,
    raw: string,
    signature: string)

  datatype RefundError = BadSignature | BadStatus | BadMethod | BadAmountOrCurrency | Skipped

  /** What is known of the order refunded. */
  datatype Account = Account(secret: string, method_: string)

  /** The value of a refund; amount and currency never change. */
  datatype RefundState = RefundState(
    amount: real,
    currency: string,
    status: RefundStatus,
    externalId: string,
    updatedAt: int)

  predicate Matches(rules: Rules, a: Account, amount: real, currency: string, c: RefundCallback) {
    && Signed(rules, a.secret, c.raw, c.signature)
    && rules.refundAllowed(c.status)
    && c.method_ == a.method_
    && c.amount == amount && c.currency == currency
  }

  predicate Final(status: Reported) {
    status.Declined? || status.Cancelled? || status.Completed?
  }

  /** A callback is skipped if all of it is in order and it is not final. */
  predicate Temporary(rules: Rules, a: Account, r: RefundState, c: RefundCallback) {
    Matches(rules, a, r.amount, r.currency, c) && !Final(c.status)
  }

  /** The status a callback that is not skipped leads to. */
  function Verdict(rules: Rules, a: Account, r: RefundState, c: RefundCallback): RefundStatus {
    if !Matches(rules, a, r.amount, r.currency, c) then Rejected
    else match c.status
      case Declined => RefundDeclined
      case Cancelled => RefundCanceled
      case Completed => RefundCompleted
      case _ => Rejected
  }

  /** One callback, whatever the refund's status before it. */
  function After(rules: Rules, a: Account, r: RefundState, c: RefundCallback, now: int): RefundState {
    if Temporary(rules, a, r, c) then r
    else
      var judged := r.(status := Verdict(rules, a, r, c));
      if Matches(rules, a, r.amount, r.currency, c) then judged.(externalId := c.id, updatedAt := now) else judged
  }

  class Refund {
    const amount: real
    const currency: string
    var status: RefundStatus
    var externalId: string
    var updatedAt: int

    constructor (s: RefundState)
      ensures State() == s
    {
      amount, currency, status, externalId, updatedAt := s.amount, s.currency, s.status, s.externalId, s.updatedAt;
    }

    function State(): RefundState
      reads this
    {
      RefundState(amount, currency, status, externalId, updatedAt)
    }

    /** Rejects the refund first and lifts that only on the way out. */
    method ProcessRefund(rules: Rules, a: Account, c: RefundCallback, now: int) returns (err: Option<RefundError>)
      modifies this
      ensures State() == After(rules, a, old(State()), c, now)
      ensures err == Some(Skipped) <==> Temporary(rules, a, old(State()), c)
      ensures err.None? <==> Matches(rules, a, amount, currency, c) && Final(c.status)
      ensures err == Some(BadSignature) <==> !Signed(rules, a.secret, c.raw, c.signature)
    {
      var initial := status;
      status := Rejected;
      if rules.hash(c.raw + a.secret) != c.signature {
        return Some(BadSignature);
      }
      if !rules.refundAllowed(c.status) {
        return Some(BadStatus);
      }
      if c.method_ != a.method_ {
        return Some(BadMethod);
      }
      if c.amount != amount || c.currency != currency {
        return Some(BadAmountOrCurrency);
      }
      match c.status {
        case Declined => status := RefundDeclined;
        case Cancelled => status := RefundCanceled;
        case Completed => status := RefundCompleted;
        case _ =>
          status := initial;
          return Some(Skipped);
      }
      externalId := c.id;
      updatedAt := now;
      return None;
    }

    /** Asks the gateway for a refund; its answer is none if the request failed
        in any way, or else a status and an id. The id is kept only on success. */
    method CreateRefund(answer: Option<(Reported, string)>) returns (ok: bool)
      modifies this
      ensures ok <==> answer.Some? && answer.value.0 != Declined && answer.value.0 != Cancelled
                      && !answer.value.0.OtherReport?
      ensures State() == old(State()).(
                status := if ok then Underway else Rejected,
                externalId := if ok then answer.value.1 else old(externalId))
    {
      status := Rejected;
      if answer.None? || !Welcome(answer.value.0) {
        return false;
      }
      status := Underway;
      externalId := answer.value.1;
      return true;
    }
  }

  predicate Welcome(status: Reported) {
    status == Authorized || status == InProgress || status == Pending || status == Refunded || status == Completed
  }

  /** Any sequence of callbacks, each with the time it arrives at. */
  type Arrivals = seq<(RefundCallback, int)>

  function AfterAll(rules: Rules, a: Account, r: RefundState, arrivals: Arrivals): RefundState
    decreases arrivals
  {
    if arrivals == [] then r
    else
      var n := |arrivals| - 1;
      After(rules, a, AfterAll(rules, a, r, arrivals[..n]), arrivals[n].0, arrivals[n].1)
  }

  /** Whether callback i is not skipped and all later ones are. */
  predicate LastWord(rules: Rules, a: Account, r: RefundState, arrivals: Arrivals, i: nat)
    requires i < |arrivals|
  {
    && !Temporary(rules, a, r, arrivals[i].0)
    && forall j :: i < j < |arrivals| ==> Temporary(rules, a, r, arrivals[j].0)
  }

  lemma {:induction false} TermsNeverChange(rules: Rules, a: Account, r: RefundState, arrivals: Arrivals)
    ensures AfterAll(rules, a, r, arrivals).amount == r.amount
    ensures AfterAll(rules, a, r, arrivals).currency == r.currency
    decreases arrivals
  {
    if arrivals != [] {
      TermsNeverChange(rules, a, r, arrivals[..|arrivals| - 1]);
    }
  }

  /** Skipped callbacks leave no trace. */
  lemma {:induction false} SkippedLeaveNoTrace(rules: Rules, a: Account, r: RefundState, arrivals: Arrivals)
    requires forall j :: 0 <= j < |arrivals| ==> Temporary(rules, a, r, arrivals[j].0)
    ensures AfterAll(rules, a, r, arrivals) == r
    decreases arrivals
  {
    if arrivals != [] {
      SkippedLeaveNoTrace(rules, a, r, arrivals[..|arrivals| - 1]);
    }
  }

  /** However many callbacks arrive in whatever order, the last one that is not
      skipped decides the status, and earlier ones decide nothing about it. */
  lemma {:induction false} LastWordDecides(rules: Rules, a: Account, r: RefundState, arrivals: Arrivals, i: nat)
    requires i < |arrivals| && LastWord(rules, a, r, arrivals, i)
    ensures AfterAll(rules, a, r, arrivals).status == Verdict(rules, a, r, arrivals[i].0)
    decreases arrivals
  {
    var n := |arrivals| - 1;
    TermsNeverChange(rules, a, r, arrivals[..n]);
    if i < n {
      assert Temporary(rules, a, r, arrivals[n].0);
      LastWordDecides(rules, a, r, arrivals[..n], i);
    }
  }

  /** A refund that was not complete is so after a run exactly if the last word
      was a signed callback that reported completion and matched the method, the
      amount and the currency. */
  lemma CompletionIsEarned(rules: Rules, a: Account, r: RefundState, arrivals: Arrivals)
    requires r.status != RefundCompleted
    ensures AfterAll(rules, a, r, arrivals).status == RefundCompleted
            <==> exists i :: 0 <= i < |arrivals| && LastWord(rules, a, r, arrivals, i)
                             && Matches(rules, a, r.amount, r.currency, arrivals[i].0) && arrivals[i].0.status == Completed
  {
    var i := LastWordOf(rules, a, r, arrivals);
    if i == |arrivals| {
      SkippedLeaveNoTrace(rules, a, r, arrivals);
    } else {
      LastWordDecides(rules, a, r, arrivals, i);
      forall j | 0 <= j < |arrivals| && LastWord(rules, a, r, arrivals, j) ensures j == i {
        OneLastWord(rules, a, r, arrivals, i, j);
      }
    }
  }

  lemma OneLastWord(rules: Rules, a: Account, r: RefundState, arrivals: Arrivals, i: nat, j: nat)
    requires i < |arrivals| && LastWord(rules, a, r, arrivals, i)
    requires j < |arrivals| && LastWord(rules, a, r, arrivals, j)
    ensures i == j
  {
  }

  /** Where the last word is, if anywhere. */
  function LastWordOf(rules: Rules, a: Account, r: RefundState, arrivals: Arrivals): (i: nat)
    ensures i <= |arrivals|
    ensures i < |arrivals| ==> LastWord(rules, a, r, arrivals, i)
    ensures i == |arrivals| ==> forall j :: 0 <= j < |arrivals| ==> Temporary(rules, a, r, arrivals[j].0)
    decreases arrivals
  {
    if arrivals == [] then 0
    else
      var n := |arrivals| - 1;
      if !Temporary(rules, a, r, arrivals[n].0) then n
      else
        var i := LastWordOf(rules, a, r, arrivals[..n]);
        if i == n then n + 1 else i
  }

  /** Completion is not kept: the next callback that is neither skipped nor
      another completion takes it away, signed or not. */
  lemma CompletionIsNotKept(rules: Rules, a: Account, r: RefundState, c: RefundCallback, now: int)
    requires r.status == RefundCompleted
    ensures After(rules, a, r, c, now).status == RefundCompleted
            <==> Matches(rules, a, r.amount, r.currency, c) && (!Final(c.status) || c.status == Completed)
  {
  }

  /** The id the gateway knows the refund by changes only to that of a callback
      that matched, and only together with a final status. */
  lemma {:induction false} ExternalIdOnSuccess(rules: Rules, a: Account, r: RefundState, arrivals: Arrivals)
    ensures AfterAll(rules, a, r, arrivals).externalId == r.externalId
            || exists i :: 0 <= i < |arrivals| && AfterAll(rules, a, r, arrivals).externalId == arrivals[i].0.id
                           && Matches(rules, a, r.amount, r.currency, arrivals[i].0) && Final(arrivals[i].0.status)
    decreases arrivals
  {
    if arrivals != [] {
      var n := |arrivals| - 1;
      var before := AfterAll(rules, a, r, arrivals[..n]);
      TermsNeverChange(rules, a, r, arrivals[..n]);
      ExternalIdOnSuccess(rules, a, r, arrivals[..n]);
      if before.externalId != r.externalId {
        var i :| 0 <= i < n && before.externalId == arrivals[..n][i].0.id
                 && Matches(rules, a, r.amount, r.currency, arrivals[..n][i].0) && Final(arrivals[..n][i].0.status);
        assert arrivals[i] == arrivals[..n][i];
      }
    }
  }

  /** What the statuses of a refund say of the callbacks that led to them. A
      refund with another status before is complete, declined or cancelled after
      a run exactly if one callback was signed, of an allowed status, and for the
      method of the payment and the amount and currency of the refund, said just
      that, and all callbacks behind it were as good but said nothing final. */
  lemma StatusesAreReported(rules: Rules, a: Account, r: RefundState, arrivals: Arrivals, said: Reported)
    requires said == Completed || said == Declined || said == Cancelled
    requires r.status != Outcome(said)
    ensures AfterAll(rules, a, r, arrivals).status == Outcome(said)
            <==> exists i :: 0 <= i < |arrivals| && arrivals[i].0.status == said
                   && forall j :: i <= j < |arrivals| ==>
                        var c := arrivals[j].0;
                        && rules.hash(c.raw + a.secret) == c.signature && rules.refundAllowed(c.status)
                        && c.method_ == a.method_ && c.amount == r.amount && c.currency == r.currency
                        && (j == i || (c.status != Completed && c.status != Declined && c.status != Cancelled))
  {
    var end := AfterAll(rules, a, r, arrivals).status;
    var n := LastWordOf(rules, a, r, arrivals);
    if n == |arrivals| {
      SkippedLeaveNoTrace(rules, a, r, arrivals);
    } else {
      LastWordDecides(rules, a, r, arrivals, n);
    }
    if end == Outcome(said) {
      assert arrivals[n].0.status == said;
    }
  }

  /** The status of a refund for which a callback reported this. */
  function Outcome(said: Reported): RefundStatus
    requires said == Completed || said == Declined || said == Cancelled
  {
    if said == Completed then RefundCompleted else if said == Declined then RefundDeclined else RefundCanceled
  }

  /** It is rejected after a run exactly if one callback failed one of these
      checks, and all behind it passed them and said nothing final. */
  lemma RejectionIsReported(rules: Rules, a: Account, r: RefundState, arrivals: Arrivals)
    requires r.status != Rejected
    ensures AfterAll(rules, a, r, arrivals).status == Rejected
            <==> exists i :: 0 <= i < |arrivals|
                   && (var b := arrivals[i].0;
                       rules.hash(b.raw + a.secret) != b.signature || !rules.refundAllowed(b.status)
                       || b.method_ != a.method_ || b.amount != r.amount || b.currency != r.currency)
                   && forall j :: i < j < |arrivals| ==>
                        var c := arrivals[j].0;
                        && rules.hash(c.raw + a.secret) == c.signature && rules.refundAllowed(c.status)
                        && c.method_ == a.method_ && c.amount == r.amount && c.currency == r.currency
                        && c.status != Completed && c.status != Declined && c.status != Cancelled
  {
    var end := AfterAll(rules, a, r, arrivals).status;
    var n := LastWordOf(rules, a, r, arrivals);
    if n == |arrivals| {
      SkippedLeaveNoTrace(rules, a, r, arrivals);
    } else {
      LastWordDecides(rules, a, r, arrivals, n);
    }
    if end == Rejected {
      assert !Matches(rules, a, r.amount, r.currency, arrivals[n].0);
    }
  }

  /** A refund bears the id and the time of the last callback that passed the
      checks and said something final, whatever came behind it; without such a
      callback it keeps its own. */
  lemma {:induction false} LastGoodWordNames(rules: Rules, a: Account, r: RefundState, arrivals: Arrivals, n: nat)
    requires n <= |arrivals|
    requires forall j :: n <= j < |arrivals| ==>
               var c := arrivals[j].0;
               !(rules.hash(c.raw + a.secret) == c.signature && rules.refundAllowed(c.status)
                 && c.method_ == a.method_ && c.amount == r.amount && c.currency == r.currency
                 && c.status in {Completed, Declined, Cancelled})
    requires n > 0 ==>
               var c := arrivals[n - 1].0;
               && rules.hash(c.raw + a.secret) == c.signature && rules.refundAllowed(c.status)
               && c.method_ == a.method_ && c.amount == r.amount && c.currency == r.currency
               && c.status in {Completed, Declined, Cancelled}
    ensures var end := AfterAll(rules, a, r, arrivals);
            && end.externalId == (if n == 0 then r.externalId else arrivals[n - 1].0.id)
            && end.updatedAt == (if n == 0 then r.updatedAt else arrivals[n - 1].1)
    decreases arrivals
  {
    if arrivals != [] {
      var last := |arrivals| - 1;
      TermsNeverChange(rules, a, r, arrivals[..last]);
      if n <= last {
        assert forall j :: 0 <= j < last ==> arrivals[..last][j] == arrivals[j];
        LastGoodWordNames(rules, a, r, arrivals[..last], n);
      }
    }
  }

  // Payments

  datatype OrderStatus =
    | InProcess | PaymentRejected | PaymentDeclined | PaymentCanceled | PaymentComplete
    | OtherStatus(code: int)

  type Params = map<string, string>

  datatype PaymentCallback = PaymentCallback(
    method_: string,
    amount: real,
    currency: string,
    status: Reported,
    id: string,
    time: string,
    recurring: bool,
    filing: Option<string>,
    params: Kind -> Params,
    raw: string,
    signature: string)

  datatype PaymentError = PaymentUnsigned | PaymentBadStatus | PaymentBadRecurringId | PaymentBadTime
                        | PaymentBadMethod | PaymentBadAmountOrCurrency | PaymentSkipped

  datatype Cancellation = Cancellation(code: string, reason: string)

  datatype OrderState = OrderState(
    status: OrderStatus,
    txnParams: Params,
    canceledAt: Option<int>,
    refundAllowed: bool,
    cancellation: Option<Cancellation>,
    transaction: string,
    closedAt: Option<int>)

  /** What of an order no callback changes. */
  datatype Terms = Terms(account: Account, amount: real, currency: string, refundable: bool)

  /** The checks every callback must pass, in any order. */
  predicate InOrder(rules: Rules, t: Terms, c: PaymentCallback) {
    && Signed(rules, t.account.secret, c.raw, c.signature)
    && rules.paymentAllowed(c.status)
    && (c.recurring && rules.success(c.status) ==> c.filing.Some? && c.filing.value != "")
    && rules.timestamp(c.time).Some?
    && c.method_ == t.account.method_ && rules.kindOf(c.method_) != UnknownKind
    && c.amount == t.amount && c.currency == t.currency
  }

  function PaymentVerdict(rules: Rules, t: Terms, c: PaymentCallback): OrderStatus {
    if !InOrder(rules, t, c) then PaymentRejected
    else match c.status
      case Declined => PaymentDeclined
      case Cancelled => PaymentCanceled
      case Completed => PaymentComplete
      case _ => PaymentRejected
  }

  /** Why a payment failed, as far as the gateway says. */
  function CancellationOf(rules: Rules, params: Params, before: Option<Cancellation>): Option<Cancellation> {
    if rules.declineCode in params || rules.declineReason in params
    then Some(Cancellation(if rules.declineCode in params then params[rules.declineCode] else "",
                           if rules.declineReason in params then params[rules.declineReason] else ""))
    else before
  }

  /** The order after a callback. What a skipped one leaves is not the order as
      it was: a rejection, and the parameters of the callback. */
  function Processed(rules: Rules, t: Terms, s: OrderState, c: PaymentCallback, now: int): OrderState {
    var judged := s.(status := PaymentVerdict(rules, t, c));
    if !InOrder(rules, t, c) then judged
    else
      var params := c.params(rules.kindOf(c.method_));
      if !Final(c.status) then judged.(txnParams := params)
      else
        judged.(
          txnParams := params,
          transaction := c.id,
          closedAt := rules.timestamp(c.time),
          canceledAt := if c.status == Cancelled then Some(now) else s.canceledAt,
          refundAllowed := if c.status == Completed then t.refundable else s.refundAllowed,
          cancellation := if c.status == Completed then s.cancellation else CancellationOf(rules, params, s.cancellation))
  }

  class Order {
    const terms: Terms
    var status: OrderStatus
    var txnParams: Params
    var canceledAt: Option<int>
    var refundAllowed: bool
    var cancellation: Option<Cancellation>
    var transaction: string
    var closedAt: Option<int>

    constructor (terms: Terms, s: OrderState)
      ensures this.terms == terms && State() == s
    {
      this.terms := terms;
      status, txnParams, canceledAt, refundAllowed := s.status, s.txnParams, s.canceledAt, s.refundAllowed;
      cancellation, transaction, closedAt := s.cancellation, s.transaction, s.closedAt;
    }

    function State(): OrderState
      reads this
    {
      OrderState(status, txnParams, canceledAt, refundAllowed, cancellation, transaction, closedAt)
    }

    method NoteCancellation(rules: Rules)
      modifies this`cancellation
      ensures cancellation == CancellationOf(rules, txnParams, old(cancellation))
    {
      if rules.declineCode in txnParams || rules.declineReason in txnParams {
        cancellation := Some(Cancellation("", ""));
      }
      if rules.declineCode in txnParams && txnParams[rules.declineCode] != "" {
        cancellation := Some(cancellation.value.(code := txnParams[rules.declineCode]));
      }
      if rules.declineReason in txnParams && txnParams[rules.declineReason] != "" {
        cancellation := Some(cancellation.value.(reason := txnParams[rules.declineReason]));
      }
    }

    /** Rejects the payment first; unlike for a refund, a callback that is
        skipped leaves the rejection standing. */
    method ProcessPayment(rules: Rules, c: PaymentCallback, now: int) returns (err: Option<PaymentError>)
      modifies this
      ensures State() == Processed(rules, terms, old(State()), c, now)
      ensures err.None? <==> InOrder(rules, terms, c) && Final(c.status)
      ensures err == Some(PaymentUnsigned) <==> !Signed(rules, terms.account.secret, c.raw, c.signature)
      ensures err == Some(PaymentSkipped) <==> InOrder(rules, terms, c) && !Final(c.status)
    {
      status := PaymentRejected;
      if rules.hash(c.raw + terms.account.secret) != c.signature {
        return Some(PaymentUnsigned);
      }
      if !rules.paymentAllowed(c.status) {
        return Some(PaymentBadStatus);
      }
      if c.recurring && rules.success(c.status) && (c.filing.None? || c.filing.value == "") {
        return Some(PaymentBadRecurringId);
      }
      var ts := rules.timestamp(c.time);
      if ts.None? {
        return Some(PaymentBadTime);
      }
      if c.method_ != terms.account.method_ {
        return Some(PaymentBadMethod);
      }
      if c.amount != terms.amount || c.currency != terms.currency {
        return Some(PaymentBadAmountOrCurrency);
      }
      var kind := rules.kindOf(c.method_);
      if kind == UnknownKind {
        return Some(PaymentBadMethod);
      }
      txnParams := c.params(kind);
      match c.status {
        case Declined =>
          status := PaymentDeclined;
        case Cancelled =>
          status := PaymentCanceled;
          canceledAt := Some(now);
        case Completed =>
          status := PaymentComplete;
          refundAllowed := terms.refundable;
        case _ =>
          return Some(PaymentSkipped);
      }
      if c.status == Declined || c.status == Cancelled {
        NoteCancellation(rules);
      }
      transaction := c.id;
      closedAt := ts;
      return None;
    }
  }
}
