/** Marking the orders of a royalty report and rebuilding their views, which the
    service does in batches. */
module RoyaltyMarking {
  import opened ObjectIds
  import opened Ledger
  import opened OrderViews
  import opened OrderRepository

  ghost predicate AllShown(views: map<string, View>, orders: map<string, Order>, ledger: seq<Entry>) {
    forall id :: id in views && id in orders ==> Shows(views[id], orders[id], ledger)
  }

  /** If the views rebuilt after marking include those of the marked orders, all
      views are up to date again, the marked orders' bear the report id, and the
      others' are as they were. */
  lemma MarkingThenRebuilding(before: map<string, View>, after: map<string, View>, orders: map<string, Order>,
                              ledger: seq<Entry>, reportId: string, marked: set<string>, rebuilt: set<string>)
    requires AllShown(before, orders, ledger) && marked <= rebuilt
    requires Rebuilt(before, after, Current(Marked(orders, reportId, marked), ledger), rebuilt)
    ensures AllShown(after, Marked(orders, reportId, marked), ledger)
    ensures forall id :: id in marked ==> id in after && after[id].royaltyReportId == reportId
    ensures forall id :: id in before && id !in rebuilt ==> id in after && after[id] == before[id]
  {
    var now := Marked(orders, reportId, marked);
    forall id | id in rebuilt
      ensures id in after && id in now && Shows(after[id], now[id], ledger)
      ensures id in marked ==> after[id].royaltyReportId == reportId
    {
      assert Current(now, ledger)(id, after[id]);
      ShownReportId(after[id], now[id], ledger);
    }
    hide Shows;
    forall id | id in after && id in now && id !in rebuilt ensures Shows(after[id], now[id], ledger) {
      assert now[id] == orders[id] && after[id] == before[id];
    }
  }

  lemma ShownReportId(v: View, o: Order, ledger: seq<Entry>)
    requires Shows(v, o, ledger)
    ensures v.royaltyReportId == o.royaltyReportId
  {
  }

  // Batches

  function Concat(batches: seq<seq<string>>): seq<string> {
    if batches == [] then [] else Concat(batches[..|batches| - 1]) + batches[|batches| - 1]
  }

  lemma RebuiltInTurn<V>(before: map<string, V>, mid: map<string, V>, after: map<string, V>,
                         current: (string, V) -> bool, first: set<string>, second: set<string>)
    requires Rebuilt(before, mid, current, first) && Rebuilt(mid, after, current, second)
    ensures Rebuilt(before, after, current, first + second)
  {
  }

  lemma IdsOfConcat(a: seq<string>, b: seq<string>)
    ensures IdsOf(a + b) == IdsOf(a) + IdsOf(b)
    ensures AllParse(a + b) <==> AllParse(a) && AllParse(b)
  {
    var ab := a + b;
    assert forall i :: 0 <= i < |a| ==> ab[i] == a[i];
    assert forall i :: 0 <= i < |b| ==> ab[|a| + i] == b[i];
    forall id | id in IdsOf(a) ensures id in IdsOf(ab) {
      var i :| 0 <= i < |a| && ParseId(a[i]).Some? && ParseId(a[i]).value == id;
      assert ParseId(ab[i]).value == id;
    }
    forall id | id in IdsOf(b) ensures id in IdsOf(ab) {
      var i :| 0 <= i < |b| && ParseId(b[i]).Some? && ParseId(b[i]).value == id;
      assert ParseId(ab[|a| + i]).value == id;
    }
    forall id | id in IdsOf(ab) ensures id in IdsOf(a) + IdsOf(b) {
      var i :| 0 <= i < |ab| && ParseId(ab[i]).Some? && ParseId(ab[i]).value == id;
      assert ab[i] == if i < |a| then a[i] else b[i - |a|];
    }
  }

  function Delayed(outcome: Outcome, n: nat): Outcome {
    match outcome
    case Done => Done
    case InvalidId(at) => InvalidId(at + n)
    case NilOrder(at) => NilOrder(at + n)
    case NilTax(at) => NilTax(at + n)
  }

  /** What working off the ids one after the other would come to. */
  ghost predicate WorkedOff(ids: seq<string>, outcome: Outcome, before: map<string, View>, after: map<string, View>,
                            orders: map<string, Order>, ledger: seq<Entry>) {
    && (outcome != Done ==> outcome.at < |ids|)
    && AllParse(Handled(ids, outcome))
    && Rebuilt(before, after, Current(orders, ledger), IdsOf(Handled(ids, outcome)))
    && (outcome.InvalidId? ==> ParseId(ids[outcome.at]).None?)
    && (outcome.NilOrder? ==> ParseId(ids[outcome.at]).Some? && ParseId(ids[outcome.at]).value !in orders)
    && (outcome.NilTax? ==> ParseId(ids[outcome.at]).Some? && ParseId(ids[outcome.at]).value in orders
                            && orders[ParseId(ids[outcome.at]).value].taxRate.None?)
  }

  lemma WorkedOffInTurn(a: seq<string>, b: seq<string>, tail: seq<string>, outcome: Outcome,
                        before: map<string, View>, mid: map<string, View>, after: map<string, View>,
                        orders: map<string, Order>, ledger: seq<Entry>)
    requires WorkedOff(a, Done, before, mid, orders, ledger) && WorkedOff(b, outcome, mid, after, orders, ledger)
    ensures outcome == Done ==> WorkedOff(a + b, Done, before, after, orders, ledger)
    ensures outcome != Done ==> WorkedOff(a + b + tail, Delayed(outcome, |a|), before, after, orders, ledger)
  {
    hide Rebuilt, IdsOf, AllParse, Current, ParseId;
    RebuiltInTurn(before, mid, after, Current(orders, ledger), IdsOf(a), IdsOf(Handled(b, outcome)));
    IdsOfConcat(a, Handled(b, outcome));
    if outcome != Done {
      var all := a + b + tail;
      assert all[..|a| + outcome.at] == a + b[..outcome.at];
      assert all[|a| + outcome.at] == b[outcome.at];
    }
  }

  lemma NothingWorkedOff(views: map<string, View>, orders: map<string, Order>, ledger: seq<Entry>)
    ensures WorkedOff([], Done, views, views, orders, ledger)
  {
  }

  /** No ids stand for all sources of entries. */
  function Meant(ids: seq<string>, sources: seq<string>): seq<string> {
    if ids == [] then sources else ids
  }

  /** Splitting the ids into batches changes nothing about what is done. */
  method UpdateOrderViews(repository: Repository, ids: seq<string>, batchSize: nat, sources: seq<string>)
    returns (outcome: Outcome)
    requires repository.Valid() && batchSize > 0
    modifies repository`views
    ensures WorkedOff(Meant(ids, sources), outcome, old(repository.views), repository.views,
                      repository.orders, repository.ledger)
  {
    var rest := ids;
    if |rest| == 0 {
      rest := sources;
    }
    if 0 < |rest| <= batchSize {
      outcome := repository.UpdateOrderView(rest);
      return;
    }
    ghost var all := rest;
    var batches: seq<seq<string>> := [];
    while batchSize < |rest|
      invariant Concat(batches) + rest == all
    {
      var batch := rest[..batchSize];
      assert (batches + [batch])[..|batches|] == batches;
      assert Concat(batches) + batch + rest[batchSize..] == all;
      rest, batches := rest[batchSize..], batches + [batch];
    }
    assert (batches + [rest])[..|batches|] == batches;
    batches := batches + [rest];
    assert Concat(batches) == all;
    NothingWorkedOff(repository.views, repository.orders, repository.ledger);
    hide WorkedOff;
    for i := 0 to |batches|
      invariant WorkedOff(Concat(batches[..i]), Done, old(repository.views), repository.views,
                          repository.orders, repository.ledger)
    {
      ghost var mid := repository.views;
      outcome := UpdateBatch(repository, batches[i]);
      ghost var tail := RestOf(batches, i);
      WorkedOffInTurn(Concat(batches[..i]), batches[i], tail, outcome, old(repository.views), mid, repository.views,
                      repository.orders, repository.ledger);
      if outcome != Done {
        outcome := Delayed(outcome, |Concat(batches[..i])|);
        return;
      }
      assert batches[..i + 1][..i] == batches[..i];
    }
    assert batches[..|batches|] == batches;
    return Done;
  }

  method UpdateBatch(repository: Repository, ids: seq<string>) returns (outcome: Outcome)
    requires repository.Valid()
    modifies repository`views
    ensures WorkedOff(ids, outcome, old(repository.views), repository.views, repository.orders, repository.ledger)
  {
    outcome := repository.UpdateOrderView(ids);
  }

  ghost function RestOf(batches: seq<seq<string>>, i: nat): (tail: seq<string>)
    requires i < |batches|
    ensures Concat(batches) == Concat(batches[..i]) + batches[i] + tail
    decreases |batches| - i
  {
    if i == |batches| - 1 then
      assert batches[..i + 1] == batches;
      []
    else
      assert batches[..i + 1][..i] == batches[..i];
      batches[i + 1] + RestOf(batches, i + 1)
  }

  function SetOf(ids: seq<string>): set<string> {
    set id | id in ids
  }

  lemma CanonicalIds(ids: seq<string>)
    requires forall i :: 0 <= i < |ids| ==> Canonical(ids[i])
    ensures AllParse(ids) && IdsOf(ids) == SetOf(ids)
  {
    forall id | id in ids ensures id in IdsOf(ids) {
      var i :| 0 <= i < |ids| && ids[i] == id;
      assert ParseId(ids[i]).value == id;
    }
  }

  /** Marks the orders of a report and rebuilds their views, in batches of any
      size. If they exist and have tax, then from an up-to-date repository every
      view is up to date again, every listed order's view bears the report id, and
      every other is as it was; an empty list rebuilds the views of all sources. */
  method MarkOrdersIncluded(repository: Repository, reportId: string, orderIds: seq<string>, batchSize: nat,
                            sources: seq<string>)
    returns (outcome: Outcome)
    requires repository.Valid() && batchSize > 0
    requires forall i :: 0 <= i < |orderIds| ==> Canonical(orderIds[i])
    requires forall i :: 0 <= i < |sources| ==> Canonical(sources[i])
    modifies repository`orders, repository`views
    ensures repository.Valid() && repository.orders == Marked(old(repository.orders), reportId, SetOf(orderIds))
    ensures WorkedOff(Meant(orderIds, sources), outcome, old(repository.views), repository.views,
                      repository.orders, repository.ledger)
    ensures (forall id :: id in Meant(orderIds, sources) ==>
               id in old(repository.orders) && old(repository.orders)[id].taxRate.Some?) ==> outcome == Done
    ensures outcome == Done && old(repository.Coherent()) ==>
              && repository.Coherent()
              && (forall id :: id in orderIds ==>
                    id in repository.views && repository.views[id].royaltyReportId == reportId)
              && (forall id :: id in old(repository.views) && id !in Meant(orderIds, sources) ==>
                    id in repository.views && repository.views[id] == old(repository.views)[id])
  {
    hide Shows, ParseId;
    repository.IncludeOrdersToRoyaltyReport(reportId, SetOf(orderIds));
    outcome := UpdateOrderViews(repository, orderIds, batchSize, sources);
    ghost var meant := Meant(orderIds, sources);
    CanonicalIds(meant);
    if outcome == Done && old(repository.Coherent()) {
      MarkingThenRebuilding(old(repository.views), repository.views, old(repository.orders), repository.ledger,
                            reportId, SetOf(orderIds), SetOf(meant));
    }
  }
}
