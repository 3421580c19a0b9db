/** Payout documents: a store in front of which every document is cached under
    two keys, and the balance paid out so far. */
module Payouts {
  import opened Options
  import opened ObjectIds
  import opened Amounts
  import opened CacheKeys

  datatype PayoutStatus = Skip | Pending | Paid | Canceled | Failed

  datatype Document = Document(id: string, merchantId: string, currency: string, status: PayoutStatus, totalFees: real)

  const ID_PREFIX := "payout_document:id:"
  const PAIR_INFIX := "merchant:id:"

  function IdKey(id: string): string {
    ID_PREFIX + id
  }

  function PairKey(id: string, merchantId: string): string {
    ID_PREFIX + (id + ":" + (PAIR_INFIX + merchantId))
  }

  lemma PrintedKeys(id: string, merchantId: string)
    ensures IdKey(id) == "payout_document:id:" + id
    ensures PairKey(id, merchantId) == "payout_document:id:" + id + ":merchant:id:" + merchantId
  {
    assert ":" + PAIR_INFIX == ":merchant:id:";
    assert PairKey(id, merchantId) == ID_PREFIX + id + (":" + PAIR_INFIX) + merchantId;
  }

  lemma IdKeyInjective(a: string, b: string)
    requires IdKey(a) == IdKey(b)
    ensures a == b
  {
    assert IdKey(a)[|ID_PREFIX|..] == a && IdKey(b)[|ID_PREFIX|..] == b;
  }

  lemma PairKeyInjective(a: string, m: string, b: string, n: string)
    requires Plain(a) && Plain(b) && PairKey(a, m) == PairKey(b, n)
    ensures a == b && m == n
  {
    IdKeyInjective(a + ":" + (PAIR_INFIX + m), b + ":" + (PAIR_INFIX + n));
    HeadDetermined(a, PAIR_INFIX + m, b, PAIR_INFIX + n);
    assert (PAIR_INFIX + m)[|PAIR_INFIX|..] == m && (PAIR_INFIX + n)[|PAIR_INFIX|..] == n;
  }

  /** The two kinds of key are told apart by the colon an id does not have. */
  lemma KeysApart(a: string, b: string, n: string)
    requires Plain(a)
    ensures IdKey(a) != PairKey(b, n)
  {
    var text := b + ":" + (PAIR_INFIX + n);
    assert text[|b|] == ':';
    if IdKey(a) == IdKey(text) {
      IdKeyInjective(a, text);
    }
  }

  datatype State = State(db: map<string, Document>, cache: map<string, Document>)

  ghost predicate WellStored(db: map<string, Document>) {
    forall id :: id in db ==> Canonical(id) && db[id].id == id && Canonical(db[id].merchantId)
  }

  function Fresh(db: map<string, Document>, id: string): Option<Document> {
    var oid := ParseId(id);
    if oid.Some? && oid.value in db then Some(db[oid.value]) else None
  }

  /** An empty merchant id asks for any merchant. */
  function FreshPair(db: map<string, Document>, id: string, merchantId: string): Option<Document> {
    var found := Fresh(db, id);
    if found.None? || merchantId == "" then found
    else if ParseId(merchantId) == Some(found.value.merchantId) then found
    else None
  }

  /** What is read by an id, and by an id and a merchant, is what is stored. */
  ghost predicate Coherent(s: State) {
    && (forall id :: Plain(id) && IdKey(id) in s.cache ==> Some(s.cache[IdKey(id)]) == Fresh(s.db, id))
    && (forall id, m :: Plain(id) && PairKey(id, m) in s.cache ==>
          Some(s.cache[PairKey(id, m)]) == FreshPair(s.db, id, m))
  }

  function Filled(cache: map<string, Document>, d: Document): map<string, Document> {
    cache[IdKey(d.id) := d][PairKey(d.id, d.merchantId) := d]
  }

  function Written(s: State, d: Document): State {
    State(s.db[d.id := d], Filled(s.cache, d))
  }

  lemma CanonicalIsPlain(id: string)
    requires ParseId(id).Some?
    ensures Plain(id)
  {
    assert forall i :: 0 <= i < |id| ==> HexDigit(id[i]);
  }

  lemma FilledKey(cache: map<string, Document>, d: Document, id: string)
    requires Plain(id) && Plain(d.id)
    ensures IdKey(id) in Filled(cache, d) <==> id == d.id || IdKey(id) in cache
    ensures IdKey(id) in Filled(cache, d) ==>
              Filled(cache, d)[IdKey(id)] == if id == d.id then d else cache[IdKey(id)]
  {
    KeysApart(id, d.id, d.merchantId);
    if IdKey(id) == IdKey(d.id) {
      IdKeyInjective(id, d.id);
    }
  }

  lemma FilledPair(cache: map<string, Document>, d: Document, id: string, m: string)
    requires Plain(id) && Plain(d.id)
    ensures PairKey(id, m) in Filled(cache, d) <==> (id == d.id && m == d.merchantId) || PairKey(id, m) in cache
    ensures PairKey(id, m) in Filled(cache, d) ==>
              Filled(cache, d)[PairKey(id, m)] == if id == d.id && m == d.merchantId then d else cache[PairKey(id, m)]
  {
    KeysApart(d.id, id, m);
    if PairKey(id, m) == PairKey(d.id, d.merchantId) {
      PairKeyInjective(id, m, d.id, d.merchantId);
    }
  }

  /** A document that is stored may be cached at any time. */
  lemma FillKeepsCoherence(s: State, d: Document)
    requires WellStored(s.db) && Coherent(s) && d.id in s.db && s.db[d.id] == d
    ensures Coherent(s.(cache := Filled(s.cache, d)))
  {
    hide Filled, ParseId, PairKey, IdKey;
    CanonicalIsPlain(d.id);
    forall id | Plain(id) && IdKey(id) in Filled(s.cache, d)
      ensures Some(Filled(s.cache, d)[IdKey(id)]) == Fresh(s.db, id)
    {
      FilledKey(s.cache, d, id);
    }
    forall id, m | Plain(id) && PairKey(id, m) in Filled(s.cache, d)
      ensures Some(Filled(s.cache, d)[PairKey(id, m)]) == FreshPair(s.db, id, m)
    {
      FilledPair(s.cache, d, id, m);
    }
  }

  /** Only keys written as the database writes its ids are ever filled. */
  ghost predicate Tidy(s: State) {
    && (forall id :: Plain(id) && IdKey(id) in s.cache ==> Canonical(id))
    && (forall id, m :: Plain(id) && PairKey(id, m) in s.cache ==> Canonical(id) && Canonical(m))
  }

  lemma FillKeepsTidy(s: State, d: Document, db: map<string, Document>)
    requires Tidy(s) && Canonical(d.id) && Canonical(d.merchantId)
    ensures Tidy(State(db, Filled(s.cache, d)))
  {
    hide Filled, ParseId, PairKey, IdKey, Canonical;
    assert Plain(d.id) by { assert Canonical(d.id); CanonicalPlain(d.id); }
    forall id | Plain(id) && IdKey(id) in Filled(s.cache, d) ensures Canonical(id) {
      FilledKey(s.cache, d, id);
    }
    forall id, m | Plain(id) && PairKey(id, m) in Filled(s.cache, d) ensures Canonical(id) && Canonical(m) {
      FilledPair(s.cache, d, id, m);
    }
  }

  lemma CanonicalPlain(id: string)
    requires Canonical(id)
    ensures Plain(id)
  {
    CanonicalIsPlain(id);
  }

  /** Writing a document keeps every cached read right exactly if no entry is
      left under the merchant it is taken from. */
  lemma WriteKeepsReads(s: State, d: Document)
    requires WellStored(s.db) && Coherent(s) && Tidy(s) && Canonical(d.id) && Canonical(d.merchantId)
    ensures Coherent(Written(s, d))
            <==> d.id !in s.db || s.db[d.id].merchantId == d.merchantId
                 || PairKey(d.id, s.db[d.id].merchantId) !in s.cache
  {
    hide Filled, ParseId, PairKey, IdKey, FreshPair, Fresh;
    CanonicalPlain(d.id);
    OtherPairsUncached(s, d.id);
    var w := Written(s, d);
    forall id | Plain(id) && IdKey(id) in w.cache ensures Some(w.cache[IdKey(id)]) == Fresh(w.db, id) {
      FilledKey(s.cache, d, id);
      WrittenRead(s, d, id);
    }
    forall id, m | Plain(id) && PairKey(id, m) in w.cache
      ensures Some(w.cache[PairKey(id, m)]) == FreshPair(w.db, id, m)
              <==> id != d.id || m == d.merchantId || d.id !in s.db || s.db[d.id].merchantId == d.merchantId
    {
      FilledPair(s.cache, d, id, m);
      WrittenPairRead(s, d, id, m);
    }
    if d.id in s.db && s.db[d.id].merchantId != d.merchantId {
      var m := s.db[d.id].merchantId;
      FilledPair(s.cache, d, d.id, m);
      WrittenPairRead(s, d, d.id, m);
      assert PairKey(d.id, m) in s.cache ==> !Coherent(w);
      forall n | PairKey(d.id, n) in w.cache && n != d.merchantId ensures n == m {
        FilledPair(s.cache, d, d.id, n);
      }
    }
  }

  lemma WrittenRead(s: State, d: Document, id: string)
    requires Canonical(d.id)
    ensures Canonical(id) ==> Fresh(Written(s, d).db, id) == if id == d.id then Some(d) else Fresh(s.db, id)
  {
  }

  lemma WrittenPairRead(s: State, d: Document, id: string, m: string)
    requires Canonical(d.id) && Canonical(d.merchantId)
    ensures Canonical(id) && Canonical(m) ==>
              FreshPair(Written(s, d).db, id, m)
              == if id != d.id then FreshPair(s.db, id, m) else if m == d.merchantId then Some(d) else None
  {
  }

  /** A document is cached under its own merchant only. */
  lemma OtherPairsUncached(s: State, id: string)
    requires WellStored(s.db) && Coherent(s) && Tidy(s) && Canonical(id)
    ensures forall m :: PairKey(id, m) in s.cache ==> id in s.db && m == s.db[id].merchantId
  {
    hide PairKey, IdKey;
    CanonicalPlain(id);
    forall m | PairKey(id, m) in s.cache ensures id in s.db && m == s.db[id].merchantId {
      assert Canonical(m) && FreshPair(s.db, id, m).Some?;
    }
  }

  /** An id that holds a colon can read what another query cached, where the
      database would refuse it. */
  lemma ColonIdReadsAPair(s: State, d: Document)
    ensures var id := d.id + ":" + (PAIR_INFIX + d.merchantId);
            IdKey(id) in Written(s, d).cache && Fresh(Written(s, d).db, id) == None
  {
    var id := d.id + ":" + (PAIR_INFIX + d.merchantId);
    assert !HexDigit(id[|d.id|]);
  }

  /** Any number of reads, writes that keep the merchant of a document, and
      losses of entries, in any order. */
  datatype Op = Write(d: Document) | Read(id: string) | ReadPair(id: string, merchantId: string) | Lose(key: string)

  function Step(s: State, op: Op): State {
    match op
    case Write(d) => Written(s, d)
    case Read(id) =>
      if IdKey(id) in s.cache || Fresh(s.db, id).None? then s
      else s.(cache := Filled(s.cache, Fresh(s.db, id).value))
    case ReadPair(id, m) =>
      if PairKey(id, m) in s.cache || FreshPair(s.db, id, m).None? then s
      else s.(cache := Filled(s.cache, FreshPair(s.db, id, m).value))
    case Lose(key) => s.(cache := s.cache - {key})
  }

  predicate KeepsMerchant(s: State, op: Op) {
    op.Write? ==> Canonical(op.d.id) && Canonical(op.d.merchantId)
                  && (op.d.id in s.db ==> s.db[op.d.id].merchantId == op.d.merchantId)
  }

  function Run(s: State, ops: seq<Op>): State
    decreases ops
  {
    if ops == [] then s else Step(Run(s, ops[..|ops| - 1]), ops[|ops| - 1])
  }

  predicate MerchantsKept(s: State, ops: seq<Op>) {
    forall i :: 0 <= i < |ops| ==> KeepsMerchant(Run(s, ops[..i]), ops[i])
  }

  ghost predicate Good(s: State) {
    WellStored(s.db) && Coherent(s) && Tidy(s)
  }

  lemma StepKeepsGood(s: State, op: Op)
    requires Good(s) && KeepsMerchant(s, op)
    ensures Good(Step(s, op))
  {
    hide Filled, ParseId, PairKey, IdKey, Coherent, Tidy;
    match op
    case Write(d) =>
      WriteKeepsReads(s, d);
      FillKeepsTidy(s, d, s.db[d.id := d]);
    case Read(id) =>
      if !(IdKey(id) in s.cache) && Fresh(s.db, id).Some? {
        FillKeepsCoherence(s, Fresh(s.db, id).value);
        FillKeepsTidy(s, Fresh(s.db, id).value, s.db);
      }
    case ReadPair(id, m) =>
      if !(PairKey(id, m) in s.cache) && FreshPair(s.db, id, m).Some? {
        FillKeepsCoherence(s, Fresh(s.db, id).value);
        FillKeepsTidy(s, Fresh(s.db, id).value, s.db);
      }
    case Lose(key) =>
      LosingIsHarmless(s, key);
  }

  lemma LosingIsHarmless(s: State, key: string)
    requires Coherent(s) && Tidy(s)
    ensures Coherent(s.(cache := s.cache - {key})) && Tidy(s.(cache := s.cache - {key}))
  {
    hide ParseId, PairKey, IdKey, Fresh, FreshPair, Canonical;
  }

  /** After any run both cached reads answer like the store, for every id and
      merchant without a colon in the id. */
  lemma {:induction false} ReadsStayCoherent(s: State, ops: seq<Op>)
    requires Good(s) && MerchantsKept(s, ops)
    ensures Good(Run(s, ops))
    decreases ops
  {
    hide Good, KeepsMerchant;
    if ops != [] {
      var n := |ops| - 1;
      assert forall i :: 0 <= i < n ==> ops[..n][..i] == ops[..i] && ops[..n][i] == ops[i];
      ReadsStayCoherent(s, ops[..n]);
      StepKeepsGood(Run(s, ops[..n]), ops[n]);
    }
  }

  /** Updating a document that is not stored is no error; it caches one that
      does not exist. */
  lemma UpdateOfMissing(s: State, d: Document)
    requires Canonical(d.id) && d.id !in s.db
    ensures !Coherent(s.(cache := Filled(s.cache, d)))
  {
    CanonicalPlain(d.id);
    FilledKey(s.cache, d, d.id);
  }

  class Repository {
    var db: map<string, Document>
    var cache: map<string, Document>

    constructor (s: State)
      ensures Content() == s
    {
      db, cache := s.db, s.cache;
    }

    function Content(): State
      reads this
    {
      State(db, cache)
    }

    method UpdateCaches(d: Document)
      modifies this`cache
      ensures cache == Filled(old(cache), d)
    {
      cache := cache[IdKey(d.id) := d];
      cache := cache[PairKey(d.id, d.merchantId) := d];
    }

    method Insert(d: Document) returns (ok: bool)
      requires Canonical(d.id) && Canonical(d.merchantId)
      modifies this
      ensures ok <==> d.id !in old(db)
      ensures Content() == if ok then Written(old(Content()), d) else old(Content())
    {
      if d.id in db {
        return false;
      }
      db := db[d.id := d];
      UpdateCaches(d);
      return true;
    }

    method Update(d: Document)
      requires Canonical(d.id) && Canonical(d.merchantId)
      modifies this
      ensures Content() == if d.id in old(db) then Written(old(Content()), d) else State(old(db), Filled(old(cache), d))
    {
      if d.id in db {
        db := db[d.id := d];
      }
      UpdateCaches(d);
    }

    method GetById(id: string) returns (found: Option<Document>)
      requires Good(Content())
      modifies this`cache
      ensures Content() == Step(old(Content()), Read(id)) && Good(Content())
      ensures Plain(id) ==> found == Fresh(db, id)
    {
      StepKeepsGood(Content(), Read(id));
      if IdKey(id) in cache {
        return Some(cache[IdKey(id)]);
      }
      var oid := ParseId(id);
      if oid.None? || oid.value !in db {
        return None;
      }
      found := Some(db[oid.value]);
      UpdateCaches(found.value);
    }

    method GetByIdMerchantId(id: string, merchantId: string) returns (found: Option<Document>)
      requires Good(Content())
      modifies this`cache
      ensures Content() == Step(old(Content()), ReadPair(id, merchantId)) && Good(Content())
      ensures Plain(id) ==> found == FreshPair(db, id, merchantId)
    {
      StepKeepsGood(Content(), ReadPair(id, merchantId));
      if PairKey(id, merchantId) in cache {
        return Some(cache[PairKey(id, merchantId)]);
      }
      var oid := ParseId(id);
      if oid.None? {
        return None;
      }
      if merchantId != "" && ParseId(merchantId).None? {
        return None;
      }
      if oid.value !in db || (merchantId != "" && ParseId(merchantId) != Some(db[oid.value].merchantId)) {
        return None;
      }
      found := Some(db[oid.value]);
      UpdateCaches(found.value);
    }
  }

  // The balance

  predicate Counts(d: Document, merchantId: string, currency: string) {
    d.merchantId == merchantId && d.currency == currency && (d.status == Pending || d.status == Paid)
  }

  /** What the query returns of the documents that count: the currency and the
      fees in whole cents. */
  function Listed(docs: seq<Document>, merchantId: string, currency: string): (rows: seq<(string, real)>)
    ensures forall i :: 0 <= i < |rows| ==> rows[i].0 == currency && Whole(rows[i].1)
  {
    if docs == [] then []
    else
      var d := docs[|docs| - 1];
      var rest := Listed(docs[..|docs| - 1], merchantId, currency);
      RoundBounds(d.totalFees);
      if Counts(d, merchantId, currency) then rest + [(currency, Round(d.totalFees))] else rest
  }

  function Owed(docs: seq<Document>, merchantId: string, currency: string): real {
    if docs == [] then 0.0
    else
      var d := docs[|docs| - 1];
      Owed(docs[..|docs| - 1], merchantId, currency)
      + if Counts(d, merchantId, currency) then Round(d.totalFees) else 0.0
  }

  function SumRows(rows: seq<(string, real)>): real {
    if rows == [] then 0.0 else SumRows(rows[..|rows| - 1]) + rows[|rows| - 1].1
  }

  lemma {:induction false} ListedSum(docs: seq<Document>, merchantId: string, currency: string)
    ensures SumRows(Listed(docs, merchantId, currency)) == Owed(docs, merchantId, currency)
  {
    hide Round, Whole;
    if docs != [] {
      ListedSum(docs[..|docs| - 1], merchantId, currency);
    }
  }

  /** What is owed grows by the rounded fees of every pending or paid document of
      the merchant in the currency, and by nothing else. */
  lemma OwedGrows(docs: seq<Document>, d: Document, merchantId: string, currency: string)
    ensures Owed([], merchantId, currency) == 0.0
    ensures Owed(docs + [d], merchantId, currency) - Owed(docs, merchantId, currency)
            == if d.status in {Pending, Paid} && d.merchantId == merchantId && d.currency == currency
               then Round(d.totalFees) else 0.0
  {
    hide Round;
    assert (docs + [d])[..|docs|] == docs;
  }

  /** Nearest whole cent, a tie going away from zero. */
  function RoundAway(v: real): real {
    if v >= 0.0 then (v + 0.5).Floor as real else -((0.5 - v).Floor as real)
  }

  lemma RoundAwayFixesWhole(v: real)
    requires Whole(v)
    ensures RoundAway(v) == v
  {
    var n := v.Floor;
    assert (n as real + 0.5).Floor == n && (0.5 - n as real).Floor == -n;
  }

  /** The error for a balance in several currencies never happens, and the last
      rounding changes nothing: the balance is the sum of the rounded fees. */
  method GetBalanceAmount(docs: seq<Document>, merchantId: string, currency: string) returns (amount: Option<real>)
    ensures amount == match ParseId(merchantId)
                      case None => None
                      case Some(m) => Some(Owed(docs, m, currency))
  {
    var merchant := ParseId(merchantId);
    if merchant.None? {
      return None;
    }
    hide Round, Whole, Owed, Counts;
    var rows := Listed(docs, merchant.value, currency);
    ListedSum(docs, merchant.value, currency);
    if |rows| <= 0 {
      return Some(0.0);
    }
    var balance: map<string, real> := map[];
    for i := 0 to |rows|
      invariant balance == if i == 0 then map[] else map[currency := SumRows(rows[..i])]
      invariant Whole(SumRows(rows[..i]))
    {
      ZeroIsWhole();
      WholeClosed(SumRows(rows[..i]), rows[i].1);
      assert rows[..i + 1][..i] == rows[..i];
      var sum := if rows[i].0 in balance then balance[rows[i].0] else 0.0;
      balance := balance[rows[i].0 := sum + rows[i].1];
    }
    assert rows[..|rows|] == rows;
    if |balance| > 1 {
      return None;
    }
    RoundAwayFixesWhole(balance[rows[0].0]);
    return Some(RoundAway(balance[rows[0].0]));
  }

  lemma ZeroIsWhole()
    ensures Whole(0.0)
  {
  }
}
