/** The four tariff collections, and the keys that their queries, documents and
    lists are cached under. */
module TariffKeys {
  import opened CacheKeys
  import opened Strings
  import opened TariffLookup

  datatype Collection = ChannelSystem | ChannelMerchant | MoneyBackSystem | MoneyBackMerchant

  /** Collections of a merchant's tariffs, listed for each merchant. */
  predicate OfMerchants(c: Collection) {
    c.ChannelMerchant? || c.MoneyBackMerchant?
  }

  /** The fields a collection does not have are empty. */
  predicate Fits(c: Collection, owner: string, t: Terms) {
    && (!OfMerchants(c) ==> owner == "")
    && (c.ChannelSystem? ==> t.payoutCurrency == "")
    && (c.ChannelSystem? || c.ChannelMerchant? ==> t.undoReason == "" && t.paymentStage == 0)
    && (OfMerchants(c) ==> t.operatingCompany == "")
  }

  function PrefixOf(c: Collection): string {
    match c
    case ChannelSystem => "pccs"
    case ChannelMerchant => "pccm"
    case MoneyBackSystem => "pucs"
    case MoneyBackMerchant => "pucm"
  }

  function LabelsOf(c: Collection): (labels: seq<string>)
    ensures labels != []
  {
    match c
    case ChannelSystem => ["n", "r", "c", "mcc", "oc"]
    case ChannelMerchant => ["m", "n", "pc", "r", "c", "mcc"]
    case MoneyBackSystem => ["n", "pc", "ur", "r", "c", "ps", "mcc", "oc"]
    case MoneyBackMerchant => ["m", "n", "pc", "ur", "r", "c", "ps", "mcc"]
  }

  function FieldsOf(c: Collection, q: Query): (fields: seq<string>)
    ensures |fields| == |LabelsOf(c)|
  {
    var t := q.terms;
    match c
    case ChannelSystem => [q.name, q.region, q.country, t.mccCode, t.operatingCompany]
    case ChannelMerchant => [q.owner, q.name, t.payoutCurrency, q.region, q.country, t.mccCode]
    case MoneyBackSystem =>
      [q.name, t.payoutCurrency, t.undoReason, q.region, q.country, Decimal(t.paymentStage), t.mccCode,
       t.operatingCompany]
    case MoneyBackMerchant =>
      [q.owner, q.name, t.payoutCurrency, t.undoReason, q.region, q.country, Decimal(t.paymentStage), t.mccCode]
  }

  function Labelled(labels: seq<string>, fields: seq<string>): seq<string>
    requires |labels| == |fields|
  {
    if labels == [] then [] else [labels[0], fields[0]] + Labelled(labels[1..], fields[1..])
  }

  function PartsOf(c: Collection, q: Query): seq<string> {
    [PrefixOf(c)] + Labelled(LabelsOf(c), FieldsOf(c, q))
  }

  function QueryKey(c: Collection, q: Query): string {
    Join(PartsOf(c, q))
  }

  function IdKey(c: Collection, id: string): string {
    PrefixOf(c) + ":id:" + id
  }

  /** The tariffs that belong to no merchant are one list. */
  function ListKey(c: Collection, owner: string): string {
    if OfMerchants(c) then PrefixOf(c) + ":all:m:" + owner else PrefixOf(c) + ":all"
  }

  // Keys of one collection

  lemma {:induction false} LabelledPlain(labels: seq<string>, fields: seq<string>)
    requires |labels| == |fields| && AllPlain(labels) && AllPlain(fields)
    ensures AllPlain(Labelled(labels, fields))
  {
    if labels != [] {
      assert AllPlain(labels[1..]) && AllPlain(fields[1..]);
      LabelledPlain(labels[1..], fields[1..]);
    }
  }

  lemma {:induction false} LabelledLength(labels: seq<string>, fields: seq<string>)
    requires |labels| == |fields|
    ensures |Labelled(labels, fields)| == 2 * |labels|
  {
    if labels != [] {
      LabelledLength(labels[1..], fields[1..]);
    }
  }

  lemma {:induction false} LabelledInjective(labels: seq<string>, a: seq<string>, b: seq<string>)
    requires |labels| == |a| == |b| && Labelled(labels, a) == Labelled(labels, b)
    ensures a == b
  {
    if labels != [] {
      var x, y := Labelled(labels, a), Labelled(labels, b);
      assert x[1] == a[0] && y[1] == b[0];
      assert x[2..] == Labelled(labels[1..], a[1..]) && y[2..] == Labelled(labels[1..], b[1..]);
      LabelledInjective(labels[1..], a[1..], b[1..]);
      assert a == [a[0]] + a[1..] && b == [b[0]] + b[1..];
    }
  }

  lemma LabelsArePlain(c: Collection)
    ensures AllPlain(LabelsOf(c)) && Plain(PrefixOf(c))
  {
  }

  /** A query without colons shares its key with no query, colons or not, that
      differs in a field the collection is asked by. */
  lemma QueryKeyInjective(c: Collection, p: Query, q: Query)
    requires AllPlain(FieldsOf(c, p)) && QueryKey(c, p) == QueryKey(c, q)
    ensures FieldsOf(c, p) == FieldsOf(c, q)
  {
    var labels, a, b := LabelsOf(c), FieldsOf(c, p), FieldsOf(c, q);
    LabelsArePlain(c);
    hide LabelsOf, PrefixOf, FieldsOf;
    LabelledPlain(labels, a);
    LabelledLength(labels, a);
    LabelledLength(labels, b);
    PlainKeysStandAlone(PartsOf(c, p), PartsOf(c, q));
    assert PartsOf(c, p)[1..] == Labelled(labels, a) && PartsOf(c, q)[1..] == Labelled(labels, b);
    LabelledInjective(labels, a, b);
  }

  lemma FieldsDetermine(c: Collection, p: Query, q: Query)
    requires Fits(c, p.owner, p.terms) && Fits(c, q.owner, q.terms) && FieldsOf(c, p) == FieldsOf(c, q)
    ensures p == q
  {
    hide Decimal;
    var a, b := FieldsOf(c, p), FieldsOf(c, q);
    assert forall i :: 0 <= i < |a| ==> a[i] == b[i];
    match c
    case ChannelSystem =>
      assert a[0] == b[0] && a[1] == b[1] && a[2] == b[2] && a[3] == b[3] && a[4] == b[4];
    case ChannelMerchant =>
      assert a[0] == b[0] && a[1] == b[1] && a[2] == b[2] && a[3] == b[3] && a[4] == b[4] && a[5] == b[5];
    case MoneyBackSystem =>
      assert a[0] == b[0] && a[1] == b[1] && a[2] == b[2] && a[3] == b[3] && a[4] == b[4];
      assert a[5] == b[5] && a[6] == b[6] && a[7] == b[7];
      DecimalInjective(p.terms.paymentStage, q.terms.paymentStage);
    case MoneyBackMerchant =>
      assert a[0] == b[0] && a[1] == b[1] && a[2] == b[2] && a[3] == b[3] && a[4] == b[4];
      assert a[5] == b[5] && a[6] == b[6] && a[7] == b[7];
      DecimalInjective(p.terms.paymentStage, q.terms.paymentStage);
  }

  /** What the collection can be asked, with no colon in it. */
  predicate Askable(c: Collection, q: Query) {
    Fits(c, q.owner, q.terms) && forall i :: 0 <= i < |FieldsOf(c, q)| ==> Plain(FieldsOf(c, q)[i])
  }

  /** Nothing else the collection can be asked is cached under its key. */
  lemma AskableKey(c: Collection, p: Query, q: Query)
    requires Askable(c, p) && Fits(c, q.owner, q.terms) && QueryKey(c, p) == QueryKey(c, q)
    ensures p == q
  {
    hide FieldsOf, QueryKey, Fits, Plain;
    QueryKeyInjective(c, p, q);
    FieldsDetermine(c, p, q);
  }

  /** The character behind the prefix tells what a key is for. */
  lemma QueryKeyKind(c: Collection, q: Query)
    ensures |QueryKey(c, q)| > 5 && (QueryKey(c, q)[5] == 'n' || QueryKey(c, q)[5] == 'm')
  {
    var labels, fields := LabelsOf(c), FieldsOf(c, q);
    var tail := Labelled(labels, fields);
    assert PartsOf(c, q)[1..] == tail;
    assert QueryKey(c, q) == PrefixOf(c) + ":" + Join(tail);
    assert tail[0] == labels[0];
    assert Join(tail) == tail[0] + ":" + Join(tail[1..]);
    assert QueryKey(c, q)[5] == Join(tail)[0] == labels[0][0];
  }

  lemma KindsApart(c: Collection, q: Query, id: string, owner: string)
    ensures QueryKey(c, q) != IdKey(c, id) && QueryKey(c, q) != ListKey(c, owner)
    ensures IdKey(c, id) != ListKey(c, owner)
  {
    QueryKeyKind(c, q);
    IdsAndListsApart(c, id, owner);
  }

  lemma IdsAndListsApart(c: Collection, id: string, owner: string)
    ensures |IdKey(c, id)| > 5 && IdKey(c, id)[5] == 'i'
    ensures |ListKey(c, owner)| > 5 && ListKey(c, owner)[5] == 'a'
  {
  }

  lemma IdKeyInjective(c: Collection, a: string, b: string)
    requires IdKey(c, a) == IdKey(c, b)
    ensures a == b
  {
    assert IdKey(c, a)[8..] == a && IdKey(c, b)[8..] == b;
  }

  lemma ListKeyInjective(c: Collection, a: string, b: string)
    requires ListKey(c, a) == ListKey(c, b) && (!OfMerchants(c) ==> a == "" && b == "")
    ensures a == b
  {
    if OfMerchants(c) {
      assert ListKey(c, a)[11..] == a && ListKey(c, b)[11..] == b;
    }
  }

  /** The four collections share one cache without meeting in it. */
  lemma CollectionsApart(c: Collection, d: Collection, p: Query, q: Query, id: string, owner: string)
    requires c != d
    ensures var there := {QueryKey(d, q), IdKey(d, id), ListKey(d, owner)};
            QueryKey(c, p) !in there && IdKey(c, id) !in there && ListKey(c, owner) !in there
  {
    KeyHasPrefix(c, p, id, owner);
    KeyHasPrefix(d, q, id, owner);
    assert PrefixOf(c) != PrefixOf(d) by {
      assert PrefixOf(c)[1] != PrefixOf(d)[1] || PrefixOf(c)[3] != PrefixOf(d)[3];
    }
  }

  lemma KeyHasPrefix(c: Collection, q: Query, id: string, owner: string)
    ensures |QueryKey(c, q)| >= 4 && QueryKey(c, q)[..4] == PrefixOf(c)
    ensures |IdKey(c, id)| >= 4 && IdKey(c, id)[..4] == PrefixOf(c)
    ensures |ListKey(c, owner)| >= 4 && ListKey(c, owner)[..4] == PrefixOf(c)
  {
    hide Labelled;
    LabelledLength(LabelsOf(c), FieldsOf(c, q));
    assert PartsOf(c, q)[0] == PrefixOf(c);
    assert QueryKey(c, q) == PrefixOf(c) + ":" + Join(PartsOf(c, q)[1..]);
  }

  // The keys as they are printed

  lemma {:induction false} LabelledAt(labels: seq<string>, fields: seq<string>, i: nat)
    requires |labels| == |fields| && i < |labels|
    ensures |Labelled(labels, fields)| == 2 * |labels|
    ensures Labelled(labels, fields)[2 * i] == labels[i] && Labelled(labels, fields)[2 * i + 1] == fields[i]
  {
    LabelledLength(labels, fields);
    if i > 0 {
      var rest := Labelled(labels[1..], fields[1..]);
      LabelledAt(labels[1..], fields[1..], i - 1);
      assert Labelled(labels, fields) == [labels[0], fields[0]] + rest;
      assert Labelled(labels, fields)[2 * i] == rest[2 * (i - 1)];
      assert Labelled(labels, fields)[2 * i + 1] == rest[2 * (i - 1) + 1];
    }
  }

  function Printed(c: Collection, q: Query): seq<string> {
    var t := q.terms;
    match c
    case ChannelSystem =>
      ["pccs", "n", q.name, "r", q.region, "c", q.country, "mcc", t.mccCode, "oc", t.operatingCompany]
    case ChannelMerchant =>
      ["pccm", "m", q.owner, "n", q.name, "pc", t.payoutCurrency, "r", q.region, "c", q.country, "mcc", t.mccCode]
    case MoneyBackSystem =>
      ["pucs", "n", q.name, "pc", t.payoutCurrency, "ur", t.undoReason, "r", q.region, "c", q.country,
       "ps", Decimal(t.paymentStage), "mcc", t.mccCode, "oc", t.operatingCompany]
    case MoneyBackMerchant =>
      ["pucm", "m", q.owner, "n", q.name, "pc", t.payoutCurrency, "ur", t.undoReason, "r", q.region,
       "c", q.country, "ps", Decimal(t.paymentStage), "mcc", t.mccCode]
  }

  /** What stands between the colons of a query's key, ... */
  lemma PrintedQuery(c: Collection, q: Query)
    ensures PartsOf(c, q) == Printed(c, q) && QueryKey(c, q) == Join(Printed(c, q))
  {
    if c.ChannelSystem? || c.ChannelMerchant? {
      PrintedChannels(c, q);
    } else {
      PrintedMoneyBack(c, q);
    }
  }

  lemma PrintedChannels(c: Collection, q: Query)
    requires c.ChannelSystem? || c.ChannelMerchant?
    ensures PartsOf(c, q) == Printed(c, q)
  {
    hide Labelled, Join, Decimal, PartsOf;
    PartAt(c, q, 0);
    PartAt(c, q, 1);
    PartAt(c, q, 2);
    PartAt(c, q, 3);
    PartAt(c, q, 4);
    if c.ChannelMerchant? {
      PartAt(c, q, 5);
    }
  }

  lemma PrintedMoneyBack(c: Collection, q: Query)
    requires c.MoneyBackSystem? || c.MoneyBackMerchant?
    ensures PartsOf(c, q) == Printed(c, q)
  {
    hide Labelled, Join, Decimal, PartsOf;
    PartAt(c, q, 0);
    PartAt(c, q, 1);
    PartAt(c, q, 2);
    PartAt(c, q, 3);
    PartAt(c, q, 4);
    PartAt(c, q, 5);
    PartAt(c, q, 6);
    PartAt(c, q, 7);
  }

  lemma PartAt(c: Collection, q: Query, i: nat)
    requires i < |LabelsOf(c)|
    ensures |PartsOf(c, q)| == 1 + 2 * |LabelsOf(c)|
    ensures PartsOf(c, q)[0] == PrefixOf(c)
    ensures PartsOf(c, q)[1 + 2 * i] == LabelsOf(c)[i] && PartsOf(c, q)[2 + 2 * i] == FieldsOf(c, q)[i]
  {
    LabelledAt(LabelsOf(c), FieldsOf(c, q), i);
  }

  /** ... and the keys of documents and lists. */
  lemma PrintedIdsAndLists(id: string, owner: string)
    ensures IdKey(ChannelSystem, id) == "pccs:id:" + id && ListKey(ChannelSystem, owner) == "pccs:all"
    ensures IdKey(ChannelMerchant, id) == "pccm:id:" + id && ListKey(ChannelMerchant, owner) == "pccm:all:m:" + owner
    ensures IdKey(MoneyBackSystem, id) == "pucs:id:" + id && ListKey(MoneyBackSystem, owner) == "pucs:all"
    ensures IdKey(MoneyBackMerchant, id) == "pucm:id:" + id && ListKey(MoneyBackMerchant, owner) == "pucm:all:m:" + owner
  {
    assert "pccs" + ":id:" == "pccs:id:" && "pccm" + ":id:" == "pccm:id:";
    assert "pucs" + ":id:" == "pucs:id:" && "pucm" + ":id:" == "pucm:id:";
    assert "pccs" + ":all" == "pccs:all" && "pucs" + ":all" == "pucs:all";
    assert "pccm" + ":all:m:" == "pccm:all:m:" && "pucm" + ":all:m:" == "pucm:all:m:";
  }

  // Keys with colons

  /** With colons two different queries can share a key. */
  lemma ColonsCollide(terms: Terms)
    ensures QueryKey(ChannelSystem, Query("", "a:r:b", "c", "", terms))
         == QueryKey(ChannelSystem, Query("", "a", "b:r:c", "", terms))
  {
    PrintedQuery(ChannelSystem, Query("", "a:r:b", "c", "", terms));
    PrintedQuery(ChannelSystem, Query("", "a", "b:r:c", "", terms));
    hide Labelled, LabelsOf, FieldsOf, Join;
    var back := ["c", "", "mcc", terms.mccCode, "oc", terms.operatingCompany];
    JoinSplits(["pccs", "n"], "a", "r:b", ["r", "c"] + back);
    JoinSplits(["pccs", "n", "a"], "r", "b", ["r", "c"] + back);
    JoinSplits(["pccs", "n", "a", "r"], "b", "r:c", back);
    JoinSplits(["pccs", "n", "a", "r", "b"], "r", "c", back);
    assert "a" + ":" + "r:b" == "a:r:b" && "r" + ":" + "b" == "r:b";
    assert "b" + ":" + "r:c" == "b:r:c" && "r" + ":" + "c" == "r:c";
    var all := ["pccs", "n", "a", "r", "b", "r", "c"] + back;
    assert ["pccs", "n", "a"] + ["r", "b"] + (["r", "c"] + back) == all;
    assert ["pccs", "n"] + ["a", "r:b"] + (["r", "c"] + back) == ["pccs", "n", "a"] + ["r:b"] + (["r", "c"] + back);
    assert ["pccs", "n", "a", "r", "b"] + ["r", "c"] + back == all;
    assert ["pccs", "n", "a", "r"] + ["b", "r:c"] + back == ["pccs", "n", "a", "r", "b"] + ["r:c"] + back;
    assert ["pccs", "n"] + ["a:r:b"] + (["r", "c"] + back)
           == ["pccs", "n", "a:r:b", "r", "c", "c", "", "mcc", terms.mccCode, "oc", terms.operatingCompany];
    assert ["pccs", "n", "a", "r"] + ["b:r:c"] + back
           == ["pccs", "n", "a", "r", "b:r:c", "c", "", "mcc", terms.mccCode, "oc", terms.operatingCompany];
  }
}
