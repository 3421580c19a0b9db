/** The store of orders, accounting entries and order views, with the two
    operations that write it. */
module OrderRepository {
  import opened Ledger
  import opened ObjectIds
  import opened OrderViews

  /** A Go map is iterated in an unspecified order: `values` holds each value
      as often as some key has it. */
  ghost predicate ValuesOf(values: seq<string>, m: map<string, string>) {
    forall v :: multiset(values)[v] == |KeysHaving(m, v)|
  }

  ghost function KeysHaving(m: map<string, string>, v: string): set<string> {
    set k | k in m && m[k] == v
  }

  /** The view stored for an order is the one its present fields and its
      present ledger give. */
  ghost predicate Shows(v: View, o: Order, ledger: seq<Entry>) {
    && o.taxRate.Some?
    && ValuesOf(v.metadataValues, o.metadata)
    && v.(metadataValues := []) == ViewOf(o, BookOf(Of(ledger, o.id)))
  }

  /** Equal but for the order of the metadata values. */
  ghost predicate SameView(v: View, w: View) {
    && multiset(v.metadataValues) == multiset(w.metadataValues)
    && v.(metadataValues := []) == w.(metadataValues := [])
  }

  /** The views an order may be stored with. */
  ghost function Current(orders: map<string, Order>, ledger: seq<Entry>): (string, View) -> bool {
    (id, v) => id in orders && Shows(v, orders[id], ledger)
  }

  /** `written` are the ids whose documents were rebuilt; the rest is untouched. */
  ghost predicate Rebuilt<V>(before: map<string, V>, after: map<string, V>,
                             current: (string, V) -> bool, written: set<string>) {
    && after.Keys == before.Keys + written
    && (forall id :: id in written ==> current(id, after[id]))
    && (forall id :: id in before && id !in written ==> after[id] == before[id])
  }

  ghost function IdsOf(ids: seq<string>): set<string> {
    set i | 0 <= i < |ids| && ParseId(ids[i]).Some? :: ParseId(ids[i]).value
  }

  ghost predicate AllParse(ids: seq<string>) {
    forall i :: 0 <= i < |ids| ==> ParseId(ids[i]).Some?
  }

  /** Whether a batch can be worked off, and if not, at which id it stops and
      why. A missing order is not an error of the source but a read through a
      nil pointer, as is an order without tax. */
  datatype Outcome = Done | InvalidId(at: nat) | NilOrder(at: nat) | NilTax(at: nat)

  function Handled(ids: seq<string>, outcome: Outcome): seq<string>
    requires outcome != Done ==> outcome.at <= |ids|
  {
    if outcome == Done then ids else ids[..outcome.at]
  }

  /** The order of the metadata values is the only freedom a view has. */
  lemma ShownViewsAgree(v: View, w: View, o: Order, ledger: seq<Entry>)
    requires Shows(v, o, ledger) && Shows(w, o, ledger)
    ensures SameView(v, w)
  {
    SameValues(v.metadataValues, w.metadataValues, o.metadata);
  }

  lemma SameValues(a: seq<string>, b: seq<string>, m: map<string, string>)
    requires ValuesOf(a, m) && ValuesOf(b, m)
    ensures multiset(a) == multiset(b)
  {
    forall v ensures multiset(a)[v] == multiset(b)[v] {
      assert multiset(a)[v] == |KeysHaving(m, v)|;
    }
  }

  /** Rebuilding the same views again changes nothing, for whatever batches. */
  lemma RebuildingAgainChangesNothing(
      before: map<string, View>, once: map<string, View>, twice: map<string, View>,
      orders: map<string, Order>, ledger: seq<Entry>, first: set<string>, second: set<string>)
    requires Rebuilt(before, once, Current(orders, ledger), first)
    requires Rebuilt(once, twice, Current(orders, ledger), second) && second <= first
    ensures twice.Keys == once.Keys
    ensures forall id :: id in once ==> SameView(once[id], twice[id])
  {
    forall id | id in once ensures SameView(once[id], twice[id]) {
      if id in second {
        assert Current(orders, ledger)(id, once[id]) && Current(orders, ledger)(id, twice[id]);
        ShownViewsAgree(once[id], twice[id], orders[id], ledger);
      }
    }
  }

  /** If an order has one entry a type, the order in which the collection
      returns its entries does not show in the view. */
  lemma EntryOrderDoesNotShow(v: View, o: Order, ledger: seq<Entry>, shuffled: seq<Entry>)
    requires Shows(v, o, ledger)
    requires DistinctKinds(Of(ledger, o.id)) && DistinctKinds(Of(shuffled, o.id))
    requires forall e :: e in ledger <==> e in shuffled
    ensures Shows(v, o, shuffled)
  {
    var a, b := Of(ledger, o.id), Of(shuffled, o.id);
    forall k: Kind ensures BookOf(a)(k) == BookOf(b)(k) {
      LatestIgnoresOrder(a, b, k);
    }
    ViewReadsByType(o, BookOf(a), BookOf(b));
  }

  lemma ViewReadsByType(o: Order, b: Book, c: Book)
    requires o.taxRate.Some?
    requires forall k: Kind :: !k.Unread? ==> b(k) == c(k)
    ensures ViewOf(o, b) == ViewOf(o, c)
  {
  }

  lemma NoValues(m: map<string, string>)
    requires |m| == 0
    ensures ValuesOf([], m)
  {
    forall v ensures KeysHaving(m, v) == {} {
    }
  }

  lemma OneMoreRebuilt<V>(before: map<string, V>, after: map<string, V>, current: (string, V) -> bool,
                          written: set<string>, v: V, id: string)
    requires Rebuilt(before, after, current, written) && current(id, v)
    ensures Rebuilt(before, after[id := v], current, written + {id})
  {
  }

  lemma OneMoreId(ids: seq<string>, n: nat)
    requires n < |ids| && AllParse(ids[..n]) && ParseId(ids[n]).Some?
    ensures AllParse(ids[..n + 1])
    ensures IdsOf(ids[..n + 1]) == IdsOf(ids[..n]) + {ParseId(ids[n]).value}
  {
    var longer, shorter := ids[..n + 1], ids[..n];
    assert longer[n] == ids[n];
    forall id | id in IdsOf(shorter) ensures id in IdsOf(longer) {
      var i :| 0 <= i < n && ParseId(shorter[i]).Some? && ParseId(shorter[i]).value == id;
      assert longer[i] == shorter[i];
    }
    forall id | id in IdsOf(longer) ensures id in IdsOf(shorter) + {ParseId(ids[n]).value} {
      var i :| 0 <= i < n + 1 && ParseId(longer[i]).Some? && ParseId(longer[i]).value == id;
      if i < n {
        assert longer[i] == shorter[i];
      }
    }
  }

  class Repository {
    var orders: map<string, Order>
    var ledger: seq<Entry>
    var views: map<string, View>

    /** Orders are filed under their own id. */
    ghost predicate Valid() reads this {
      forall id :: id in orders ==> orders[id].id == id
    }

    /** Every stored view is up to date. */
    ghost predicate Coherent() reads this {
      forall id :: id in views && id in orders ==> Shows(views[id], orders[id], ledger)
    }

    method UpdateOrderView(ids: seq<string>) returns (outcome: Outcome)
      requires Valid()
      modifies this`views
      ensures outcome != Done ==> outcome.at < |ids|
      ensures Rebuilt(old(views), views, Current(orders, ledger), IdsOf(Handled(ids, outcome)))
      ensures AllParse(Handled(ids, outcome))
      ensures outcome.InvalidId? ==> ParseId(ids[outcome.at]).None?
      ensures outcome.NilOrder? ==> ParseId(ids[outcome.at]).Some? && ParseId(ids[outcome.at]).value !in orders
      ensures outcome.NilTax? ==> ParseId(ids[outcome.at]).Some? && ParseId(ids[outcome.at]).value in orders
                                  && orders[ParseId(ids[outcome.at]).value].taxRate.None?
      ensures old(Coherent()) ==> Coherent()
    {
      var n := 0;
      while n < |ids|
        invariant 0 <= n <= |ids|
        invariant Rebuilt(old(views), views, Current(orders, ledger), IdsOf(ids[..n]))
        invariant AllParse(ids[..n])
      {
        var oid := ParseId(ids[n]);
        if oid.None? {
          return InvalidId(n);
        }
        if oid.value !in orders {
          return NilOrder(n);
        }
        if orders[oid.value].taxRate.None? {
          return NilTax(n);
        }
        var view := BuildView(orders[oid.value], Of(ledger, oid.value));
        assert Current(orders, ledger)(oid.value, view);
        OneMoreRebuilt(old(views), views, Current(orders, ledger), IdsOf(ids[..n]), view, oid.value);
        OneMoreId(ids, n);
        views := views[oid.value := view];
        n := n + 1;
      }
      assert ids[..n] == ids;
      return Done;
    }

    /** The report id reaches the orders only; it shows in the views from their
        next rebuilding on. */
    method IncludeOrdersToRoyaltyReport(reportId: string, orderIds: set<string>)
      requires Valid()
      modifies this`orders
      ensures Valid()
      ensures orders == Marked(old(orders), reportId, orderIds)
    {
      orders := map id | id in orders ::
        if id in orderIds then orders[id].(royaltyReportId := reportId) else orders[id];
    }
  }

  function Marked(orders: map<string, Order>, reportId: string, ids: set<string>): map<string, Order> {
    map id | id in orders :: if id in ids then orders[id].(royaltyReportId := reportId) else orders[id]
  }

  /** Marking orders leaves a view up to date exactly when its order is not
      among them or bore that report id already. */
  lemma MarkedViewsLag(v: View, orders: map<string, Order>, ledger: seq<Entry>,
                       reportId: string, ids: set<string>, id: string)
    requires id in orders && Shows(v, orders[id], ledger)
    ensures Shows(v, Marked(orders, reportId, ids)[id], ledger)
            <==> id !in ids || orders[id].royaltyReportId == reportId
  {
    var o := orders[id];
    if id in ids && o.royaltyReportId != reportId {
      assert v.royaltyReportId == o.royaltyReportId;
    } else {
      assert Marked(orders, reportId, ids)[id] == o;
    }
  }

  /** The entries by type, overwritten one by one over empty values. */
  method CurrentEntries(list: seq<Entry>) returns (entries: map<Kind, Entry>)
    ensures forall k: Kind :: !k.Unread? ==> k in entries
    ensures forall k :: k in entries ==> entries[k] == Latest(list, k)
  {
    entries := map k | k in READ_KINDS :: BLANK;
    for i := 0 to |list|
      invariant forall k: Kind :: !k.Unread? ==> k in entries
      invariant forall k :: k in entries ==> entries[k] == Latest(list[..i], k)
    {
      assert list[..i + 1][..i] == list[..i];
      entries := entries[list[i].kind := list[i]];
    }
    assert list[..|list|] == list;
  }

  method BuildView(order: Order, list: seq<Entry>) returns (view: View)
    requires order.taxRate.Some?
    ensures ValuesOf(view.metadataValues, order.metadata)
    ensures view.(metadataValues := []) == ViewOf(order, BookOf(list))
  {
    var entries := CurrentEntries(list);
    var lookup := (k: Kind) => if k in entries then entries[k] else BLANK;
    ViewReadsByType(order, lookup, BookOf(list));
    view := ViewOf(order, lookup);
    var values := [];
    if |order.metadata| > 0 {
      values := MetadataValues(order.metadata);
    } else {
      NoValues(order.metadata);
    }
    view := view.(metadataValues := values);
  }

  method MetadataValues(metadata: map<string, string>) returns (values: seq<string>)
    ensures ValuesOf(values, metadata)
  {
    values := [];
    var rest := metadata.Keys;
    ghost var seen: set<string> := {};
    while rest != {}
      invariant seen == metadata.Keys - rest && rest <= metadata.Keys
      invariant ValuesAmong(values, metadata, seen)
      decreases rest
    {
      var k :| k in rest;
      OneMoreValue(values, metadata, seen, k);
      values := values + [metadata[k]];
      rest := rest - {k};
      seen := seen + {k};
    }
    AllValues(values, metadata, seen);
  }

  lemma AllValues(values: seq<string>, m: map<string, string>, keys: set<string>)
    requires ValuesAmong(values, m, keys) && keys == m.Keys
    ensures ValuesOf(values, m)
  {
    forall v ensures multiset(values)[v] == |KeysHaving(m, v)| {
      assert KeysHaving(m, v) * keys == KeysHaving(m, v);
    }
  }

  ghost predicate ValuesAmong(values: seq<string>, m: map<string, string>, keys: set<string>) {
    forall v :: multiset(values)[v] == |KeysHaving(m, v) * keys|
  }

  lemma OneMoreValue(values: seq<string>, m: map<string, string>, keys: set<string>, k: string)
    requires ValuesAmong(values, m, keys) && k in m && k !in keys
    ensures ValuesAmong(values + [m[k]], m, keys + {k})
  {
    forall v ensures multiset(values + [m[k]])[v] == |KeysHaving(m, v) * (keys + {k})| {
      assert multiset(values + [m[k]])[v] == multiset(values)[v] + (if m[k] == v then 1 else 0);
      if m[k] == v {
        assert KeysHaving(m, v) * (keys + {k}) == KeysHaving(m, v) * keys + {k};
      } else {
        assert KeysHaving(m, v) * (keys + {k}) == KeysHaving(m, v) * keys;
      }
    }
  }
}
