/** What the service makes of the gateway's callbacks: which of them reach the
    stored orders and refunds. */
module Callbacks {
  import opened Options
  import opened CardPay

  // Payments

  datatype Stored = Stored(terms: Terms, state: OrderState)

  datatype Notified = NotFound | AlreadyProcessed | Handled(err: Option<PaymentError>)

  predicate Passed(rules: Rules, t: Terms, c: PaymentCallback) {
    InOrder(rules, t, c) && !Final(c.status)
  }

  /** What a callback leaves in the store: nothing new if it is skipped or comes
      too late. */
  function StoredAfter(rules: Rules, s: Stored, c: PaymentCallback, now: int): Stored {
    if s.state.status != InProcess || Passed(rules, s.terms, c) then s
    else s.(state := Processed(rules, s.terms, s.state, c, now))
  }

  class OrderDesk {
    var orders: map<string, Stored>

    constructor (orders: map<string, Stored>)
      ensures this.orders == orders
    {
      this.orders := orders;
    }

    /** Works on a copy of the order, which a skipped callback's rejection never
        leaves. */
    method PaymentCallbackProcess(rules: Rules, id: string, c: PaymentCallback, now: int) returns (answer: Notified)
      modifies this
      ensures orders == if id in old(orders) then old(orders)[id := StoredAfter(rules, old(orders)[id], c, now)]
                        else old(orders)
      ensures answer == NotFound <==> id !in orders
      ensures answer == AlreadyProcessed <==> id in orders && old(orders)[id].state.status != InProcess
      ensures answer.Handled? ==>
                var t := old(orders)[id].terms;
                && (answer.err.None? <==> InOrder(rules, t, c) && Final(c.status))
                && (answer.err == Some(PaymentSkipped) <==> Passed(rules, t, c))
                && (answer.err == Some(PaymentUnsigned) <==> !Signed(rules, t.account.secret, c.raw, c.signature))
    {
      if id !in orders {
        return NotFound;
      }
      assert orders == orders[id := orders[id]];
      if orders[id].state.status != InProcess {
        return AlreadyProcessed;
      }
      var order := new Order(orders[id].terms, orders[id].state);
      var err := order.ProcessPayment(rules, c, now);
      answer := Handled(err);
      if err == Some(PaymentSkipped) {
        return;
      }
      orders := orders[id := Stored(order.terms, order.State())];
    }
  }

  type PaymentArrivals = seq<(PaymentCallback, int)>

  function StoredAfterAll(rules: Rules, s: Stored, arrivals: PaymentArrivals): Stored
    decreases arrivals
  {
    if arrivals == [] then s
    else StoredAfterAll(rules, StoredAfter(rules, s, arrivals[0].0, arrivals[0].1), arrivals[1..])
  }

  lemma {:induction false} ProcessedOrdersStay(rules: Rules, s: Stored, arrivals: PaymentArrivals)
    requires s.state.status != InProcess
    ensures StoredAfterAll(rules, s, arrivals) == s
    decreases arrivals
  {
    if arrivals != [] {
      ProcessedOrdersStay(rules, s, arrivals[1..]);
    }
  }

  /** The first callback that is not skipped decides everything about the order,
      for ever; as long as all are skipped the order stays as it was. */
  lemma {:induction false} FirstWordDecides(rules: Rules, s: Stored, arrivals: PaymentArrivals, i: nat)
    requires s.state.status == InProcess
    requires i <= |arrivals| && forall j :: 0 <= j < i ==> Passed(rules, s.terms, arrivals[j].0)
    requires i < |arrivals| ==> !Passed(rules, s.terms, arrivals[i].0)
    ensures StoredAfterAll(rules, s, arrivals)
         == if i == |arrivals| then s
            else s.(state := Processed(rules, s.terms, s.state, arrivals[i].0, arrivals[i].1))
    decreases arrivals
  {
    if arrivals != [] {
      var rest := arrivals[1..];
      if i == 0 {
        ProcessedOrdersStay(rules, StoredAfter(rules, s, arrivals[0].0, arrivals[0].1), rest);
      } else {
        assert forall j :: 0 <= j < |rest| ==> rest[j] == arrivals[j + 1];
        FirstWordDecides(rules, s, rest, i - 1);
      }
    }
  }

  /** Where the first word is, if anywhere. */
  function FirstWord(rules: Rules, t: Terms, arrivals: PaymentArrivals): (i: nat)
    ensures i <= |arrivals| && forall j :: 0 <= j < i ==> Passed(rules, t, arrivals[j].0)
    ensures i < |arrivals| ==> !Passed(rules, t, arrivals[i].0)
    decreases arrivals
  {
    if arrivals == [] || !Passed(rules, t, arrivals[0].0) then 0
    else
      assert forall j :: 0 < j < |arrivals| ==> arrivals[j] == arrivals[1..][j - 1];
      1 + FirstWord(rules, t, arrivals[1..])
  }

  /** An order is complete exactly if that first callback was signed, reported
      completion and matched the order; it names the transaction. */
  lemma PaymentIsEarned(rules: Rules, s: Stored, arrivals: PaymentArrivals)
    requires s.state.status == InProcess
    ensures var i := FirstWord(rules, s.terms, arrivals);
            var end := StoredAfterAll(rules, s, arrivals).state;
            && (end.status == PaymentComplete <==>
                  i < |arrivals| && InOrder(rules, s.terms, arrivals[i].0) && arrivals[i].0.status == Completed)
            && (end.status == PaymentComplete ==> end.transaction == arrivals[i].0.id)
            && (end.status == InProcess <==> i == |arrivals|)
  {
    FirstWordDecides(rules, s, arrivals, FirstWord(rules, s.terms, arrivals));
  }

  /** A callback with nothing wrong: it is signed, of an allowed status and readable
      time, for a known method and the method, amount and currency of the order,
      with the filing a recurring success needs. */
  predicate Faultless(rules: Rules, t: Terms, c: PaymentCallback) {
    && rules.hash(c.raw + t.account.secret) == c.signature
    && rules.paymentAllowed(c.status) && rules.timestamp(c.time) != None
    && rules.kindOf(c.method_) != UnknownKind && c.method_ == t.account.method_
    && c.amount == t.amount && c.currency == t.currency
    && (c.recurring && rules.success(c.status) ==> c.filing != None && c.filing != Some(""))
  }

  lemma FaultlessIsInOrder(rules: Rules, t: Terms, c: PaymentCallback)
    ensures Faultless(rules, t, c) <==> InOrder(rules, t, c)
  {
  }

  /** What the status of a stored order says of the callbacks for it. An order in
      progress ends complete, declined or cancelled exactly if some faultless
      callback said just that, and all before it were faultless too but said
      nothing final. */
  lemma PaymentsAreReported(rules: Rules, s: Stored, arrivals: PaymentArrivals, said: Reported)
    requires s.state.status == InProcess && (said == Completed || said == Declined || said == Cancelled)
    ensures StoredAfterAll(rules, s, arrivals).state.status
            == (if said == Completed then PaymentComplete else if said == Declined then PaymentDeclined
                else PaymentCanceled)
            <==> exists i :: 0 <= i < |arrivals| && arrivals[i].0.status == said
                   && forall j :: 0 <= j <= i ==>
                        && Faultless(rules, s.terms, arrivals[j].0)
                        && (j == i || !(arrivals[j].0.status in {Completed, Declined, Cancelled}))
  {
    var n := FirstWord(rules, s.terms, arrivals);
    FirstWordDecides(rules, s, arrivals, n);
    FirstFinalWord(rules, s.terms, arrivals, said, n);
    hide Passed, InOrder, StoredAfterAll, Faultless;
  }

  lemma FirstFinalWord(rules: Rules, t: Terms, arrivals: PaymentArrivals, said: Reported, n: nat)
    requires Final(said) && n <= |arrivals|
    requires forall j :: 0 <= j < n ==> Passed(rules, t, arrivals[j].0)
    requires n < |arrivals| ==> !Passed(rules, t, arrivals[n].0)
    ensures n < |arrivals| && InOrder(rules, t, arrivals[n].0) && arrivals[n].0.status == said
            <==> exists i :: 0 <= i < |arrivals| && arrivals[i].0.status == said
                   && forall j :: 0 <= j <= i ==>
                        && Faultless(rules, t, arrivals[j].0)
                        && (j == i || !(arrivals[j].0.status in {Completed, Declined, Cancelled}))
  {
    hide Faultless, InOrder;
    forall j | 0 <= j < |arrivals| ensures Faultless(rules, t, arrivals[j].0) <==> InOrder(rules, t, arrivals[j].0) {
      FaultlessIsInOrder(rules, t, arrivals[j].0);
    }
  }

  /** What a decided order says of a failure: a declined or cancelled one the code
      and the reason in its parameters, as far as they are there. */
  predicate Explains(rules: Rules, end: OrderState, before: Option<Cancellation>) {
    var code, reason := rules.declineCode in end.txnParams, rules.declineReason in end.txnParams;
    if end.status == PaymentComplete || !(code || reason) then end.cancellation == before
    else
      && end.cancellation.Some?
      && end.cancellation.value.code == (if code then end.txnParams[rules.declineCode] else "")
      && end.cancellation.value.reason == (if reason then end.txnParams[rules.declineReason] else "")
  }

  /** The callback that decides is the only one the order remembers. */
  lemma DecidedOrder(rules: Rules, s: Stored, arrivals: PaymentArrivals)
    requires s.state.status == InProcess
    ensures var end := StoredAfterAll(rules, s, arrivals).state;
            end.status in {PaymentComplete, PaymentDeclined, PaymentCanceled} ==>
              exists i :: 0 <= i < |arrivals|
                && var c := arrivals[i].0;
                   && end.transaction == c.id && end.closedAt == rules.timestamp(c.time)
                   && end.txnParams == c.params(rules.kindOf(c.method_))
                   && end.canceledAt == (if end.status == PaymentCanceled then Some(arrivals[i].1)
                                         else s.state.canceledAt)
                   && end.refundAllowed == (if end.status == PaymentComplete then s.terms.refundable
                                            else s.state.refundAllowed)
                   && Explains(rules, end, s.state.cancellation)
  {
    FirstWordDecides(rules, s, arrivals, FirstWord(rules, s.terms, arrivals));
  }

  // Refunds

  /** A stored refund and the refund orders ever made for it. */
  datatype RefundCase = RefundCase(refund: RefundState, createdOrderId: string, made: seq<string>)

  /** `newId` is the id of the order made for the refund if one has to be, or
      none if that fails. */
  datatype Arrival = Arrival(callback: RefundCallback, now: int, newId: Option<string>)

  predicate NeedsOrder(rules: Rules, a: Account, d: RefundCase, c: RefundCallback) {
    Matches(rules, a, d.refund.amount, d.refund.currency, c) && c.status == Completed && d.createdOrderId == ""
  }

  function CaseAfter(rules: Rules, a: Account, d: RefundCase, x: Arrival): RefundCase {
    var moved := d.(refund := After(rules, a, d.refund, x.callback, x.now));
    if NeedsOrder(rules, a, d, x.callback) && x.newId.Some?
    then moved.(createdOrderId := x.newId.value, made := d.made + [x.newId.value])
    else moved
  }

  class RefundDesk {
    var refund: RefundState
    var createdOrderId: string
    var made: seq<string>

    constructor (d: RefundCase)
      ensures Case() == d
    {
      refund, createdOrderId, made := d.refund, d.createdOrderId, d.made;
    }

    function Case(): RefundCase
      reads this
    {
      RefundCase(refund, createdOrderId, made)
    }

    /** Stores whatever the gateway made of the refund, and makes the refund
        order the first time it is complete. */
    method ProcessRefundCallback(rules: Rules, a: Account, x: Arrival) returns (err: Option<RefundError>)
      modifies this
      ensures Case() == CaseAfter(rules, a, old(Case()), x)
      ensures err.None? <==> Matches(rules, a, refund.amount, refund.currency, x.callback) && Final(x.callback.status)
    {
      var r := new Refund(refund);
      err := r.ProcessRefund(rules, a, x.callback, x.now);
      refund := r.State();
      if err.Some? {
        return;
      }
      if r.status == RefundCompleted && createdOrderId == "" {
        if x.newId.None? {
          return;
        }
        made := made + [x.newId.value];
        createdOrderId := x.newId.value;
      }
    }
  }

  function CaseAfterAll(rules: Rules, a: Account, d: RefundCase, arrivals: seq<Arrival>): RefundCase
    decreases arrivals
  {
    if arrivals == [] then d
    else
      var n := |arrivals| - 1;
      CaseAfter(rules, a, CaseAfterAll(rules, a, d, arrivals[..n]), arrivals[n])
  }

  /** New ids are not empty. */
  predicate Named(arrivals: seq<Arrival>) {
    forall i :: 0 <= i < |arrivals| && arrivals[i].newId.Some? ==> arrivals[i].newId.value != ""
  }

  /** The order made for a refund, if any, is the one the refund names. */
  predicate OrderMadeOnce(d: RefundCase) {
    d.made == if d.createdOrderId == "" then [] else [d.createdOrderId]
  }

  /** However often completion is reported, and whatever comes in between, at
      most one order is ever made for a refund, and one that is made stays; ... */
  lemma {:induction false} AtMostOneRefundOrder(rules: Rules, a: Account, d: RefundCase, arrivals: seq<Arrival>)
    requires OrderMadeOnce(d) && Named(arrivals)
    ensures var end := CaseAfterAll(rules, a, d, arrivals);
            OrderMadeOnce(end) && |end.made| <= 1 && (d.made != [] ==> end.made == d.made)
    decreases arrivals
  {
    if arrivals != [] {
      AtMostOneRefundOrder(rules, a, d, arrivals[..|arrivals| - 1]);
    }
  }

  lemma {:induction false} CaseTermsNeverChange(rules: Rules, a: Account, d: RefundCase, arrivals: seq<Arrival>)
    ensures CaseAfterAll(rules, a, d, arrivals).refund.amount == d.refund.amount
    ensures CaseAfterAll(rules, a, d, arrivals).refund.currency == d.refund.currency
    decreases arrivals
  {
    if arrivals != [] {
      CaseTermsNeverChange(rules, a, d, arrivals[..|arrivals| - 1]);
    }
  }

  /** ... it is made exactly if a signed callback for the right method, amount
      and currency reported completion and making the order did not fail. */
  lemma {:induction false} RefundOrderIsEarned(rules: Rules, a: Account, d: RefundCase, arrivals: seq<Arrival>)
    requires OrderMadeOnce(d) && d.made == [] && Named(arrivals)
    ensures CaseAfterAll(rules, a, d, arrivals).made != []
            <==> exists i :: 0 <= i < |arrivals| && Earns(rules, a, d, arrivals[i])
    decreases arrivals
  {
    if arrivals != [] {
      var n := |arrivals| - 1;
      RefundOrderIsEarned(rules, a, d, arrivals[..n]);
      AtMostOneRefundOrder(rules, a, d, arrivals[..n]);
      CaseTermsNeverChange(rules, a, d, arrivals[..n]);
      assert forall i :: 0 <= i < n ==> arrivals[i] == arrivals[..n][i];
    }
  }

  /** The same, said of the callbacks themselves. */
  lemma RefundOrdersAreReported(rules: Rules, a: Account, d: RefundCase, arrivals: seq<Arrival>)
    requires d.createdOrderId == "" && d.made == [] && Named(arrivals)
    ensures CaseAfterAll(rules, a, d, arrivals).made != []
            <==> exists i :: 0 <= i < |arrivals|
                   && var c := arrivals[i].callback;
                      && rules.hash(c.raw + a.secret) == c.signature && rules.refundAllowed(Completed)
                      && c.method_ == a.method_ && c.amount == d.refund.amount && c.currency == d.refund.currency
                      && c.status == Completed && arrivals[i].newId != None
  {
    RefundOrderIsEarned(rules, a, d, arrivals);
    forall i | 0 <= i < |arrivals|
      ensures Earns(rules, a, d, arrivals[i])
              <==> var c := arrivals[i].callback;
                   && rules.hash(c.raw + a.secret) == c.signature && rules.refundAllowed(Completed)
                   && c.method_ == a.method_ && c.amount == d.refund.amount && c.currency == d.refund.currency
                   && c.status == Completed && arrivals[i].newId != None
    {
    }
  }

  predicate Earns(rules: Rules, a: Account, d: RefundCase, x: Arrival) {
    && Matches(rules, a, d.refund.amount, d.refund.currency, x.callback)
    && x.callback.status == Completed && x.newId.Some?
  }

  /** The refund order does not follow the status back: a refused callback after
      completion leaves a rejected refund with its order made. */
  lemma OrderOutlivesCompletion(rules: Rules, a: Account, d: RefundCase, x: Arrival)
    requires OrderMadeOnce(d) && d.made != [] && d.refund.status == RefundCompleted
    requires !Signed(rules, a.secret, x.callback.raw, x.callback.signature)
    ensures var end := CaseAfter(rules, a, d, x);
            end.refund.status == Rejected && end.made == d.made
  {
  }
}
