/** Replacing all tariffs of a merchant at once. The deletion does not reach the
    cache, and the insertion only if it is complete. */
module TariffReplacing {
  import opened Options
  import opened Documents
  import opened ObjectIds
  import opened TariffLookup
  import opened TariffKeys
  import opened TariffAnswers
  import opened TariffCache

  /** Active tariffs of the owner. */
  predicate Doomed(t: Tariff, owner: string) {
    t.owner == owner && t.active
  }

  function ActiveDeleted(db: seq<Tariff>, owner: string): seq<Tariff> {
    if db == [] then []
    else
      var rest := ActiveDeleted(db[..|db| - 1], owner);
      if Doomed(db[|db| - 1], owner) then rest else rest + [db[|db| - 1]]
  }

  function ActiveOf(db: seq<Tariff>, owner: string): seq<Tariff> {
    if db == [] then []
    else
      var rest := ActiveOf(db[..|db| - 1], owner);
      if Doomed(db[|db| - 1], owner) then rest + [db[|db| - 1]] else rest
  }

  function Activated(c: Collection, ts: seq<Tariff>): (stored: seq<Tariff>)
    ensures |stored| == |ts|
    ensures forall i :: 0 <= i < |ts| ==> stored[i] == if c.ChannelMerchant? then ts[i] else ts[i].(active := true)
  {
    if ts == [] then []
    else [if c.ChannelMerchant? then ts[0] else ts[0].(active := true)] + Activated(c, ts[1..])
  }

  /** A bulk insert fails at once if one of the tariffs has an id that is none. */
  predicate AllStorable(c: Collection, ts: seq<Tariff>) {
    forall i :: 0 <= i < |ts| ==> Stored(c, ts[i]).Some?
  }

  function StoredAll(c: Collection, ts: seq<Tariff>): (stored: seq<Tariff>)
    requires AllStorable(c, ts)
    ensures |stored| == |ts| && forall i :: 0 <= i < |ts| ==> Stored(c, ts[i]) == Some(stored[i])
  {
    seq(|ts|, i requires 0 <= i < |ts| => Stored(c, ts[i]).value)
  }

  /** Those of the new tariffs that get in, up to the first id that is taken. `o`
      is the merchant's id as the database writes it. */
  function AddedOf(c: Collection, s: State, o: string, ts: seq<Tariff>): seq<Tariff> {
    if AllStorable(c, ts) then Admitted(ActiveDeleted(s.db, o), TariffId, StoredAll(c, ts)) else []
  }

  /** Nothing to insert is an error, as is an id that is none or is taken. */
  predicate Complete(c: Collection, s: State, o: string, ts: seq<Tariff>) {
    ts != [] && AllStorable(c, ts) && |AddedOf(c, s, o, ts)| == |ts|
  }

  function AllCachesUpdated(c: Collection, s: State, ts: seq<Tariff>): State
    decreases ts
  {
    if ts == [] then s else AllCachesUpdated(c, CachesUpdated(c, s, ts[0]), ts[1..])
  }

  function DbAfter(c: Collection, s: State, o: string, ts: seq<Tariff>): seq<Tariff> {
    ActiveDeleted(s.db, o) + AddedOf(c, s, o, ts)
  }

  /** A merchant id that is none is refused at once. */
  function AllReplaced(c: Collection, s: State, owner: string, ts: seq<Tariff>): State {
    if ParseId(owner).None? then s
    else
      var o := ParseId(owner).value;
      var t := s.(db := DbAfter(c, s, o, ts));
      if Complete(c, s, o, ts) then AllCachesUpdated(c, t, ts) else t
  }

  ghost predicate AllFit(c: Collection, ts: seq<Tariff>) {
    forall i :: 0 <= i < |ts| ==> Fits(c, ts[i].owner, ts[i].terms)
  }

  lemma TailsFit(c: Collection, ts: seq<Tariff>)
    requires ts != [] && AllFit(c, ts)
    ensures Fits(c, ts[0].owner, ts[0].terms) && AllFit(c, ts[1..])
    ensures forall i :: 0 <= i < |ts| - 1 ==> ts[1..][i] == ts[i + 1]
  {
  }

  // What reaches the cache

  predicate AnyEvicts(ts: seq<Tariff>, q: Query) {
    exists i :: 0 <= i < |ts| && Evicts(ts[i], q)
  }

  predicate AnyOwned(ts: seq<Tariff>, o: string) {
    exists i :: 0 <= i < |ts| && ts[i].owner == o
  }

  /** Whether the insertion was complete and one of the tariffs drops the query. */
  predicate QueryReached(c: Collection, s: State, o: string, ts: seq<Tariff>, q: Query) {
    Complete(c, s, o, ts) && AnyEvicts(ts, q)
  }

  predicate ListReached(c: Collection, s: State, o: string, ts: seq<Tariff>, p: string) {
    Complete(c, s, o, ts) && AnyOwned(ts, p)
  }

  predicate IdReached(c: Collection, s: State, o: string, ts: seq<Tariff>, id: string) {
    Complete(c, s, o, ts) && exists i :: 0 <= i < |ts| && ts[i].id == id
  }

  lemma {:induction false} DbStays(c: Collection, s: State, ts: seq<Tariff>)
    ensures AllCachesUpdated(c, s, ts).db == s.db
    decreases ts
  {
    if ts != [] {
      DbStays(c, CachesUpdated(c, s, ts[0]), ts[1..]);
    }
  }

  lemma AnyEvictsSplit(ts: seq<Tariff>, q: Query)
    requires ts != []
    ensures AnyEvicts(ts, q) <==> Evicts(ts[0], q) || AnyEvicts(ts[1..], q)
  {
    hide Evicts;
    assert forall i :: 0 < i < |ts| ==> ts[i] == ts[1..][i - 1];
    assert forall i :: 0 <= i < |ts| - 1 ==> ts[1..][i] == ts[i + 1];
  }

  lemma AnyOwnedSplit(ts: seq<Tariff>, o: string)
    requires ts != []
    ensures AnyOwned(ts, o) <==> ts[0].owner == o || AnyOwned(ts[1..], o)
  {
    assert forall i :: 0 < i < |ts| ==> ts[i] == ts[1..][i - 1];
    assert forall i :: 0 <= i < |ts| - 1 ==> ts[1..][i] == ts[i + 1];
  }

  lemma {:induction false} QueriesUpdated(c: Collection, s: State, ts: seq<Tariff>, q: Query)
    requires Askable(c, q) && AllFit(c, ts)
    ensures if AnyEvicts(ts, q) then QueryKey(c, q) !in AllCachesUpdated(c, s, ts).cache
            else SameAt(AllCachesUpdated(c, s, ts).cache, s.cache, QueryKey(c, q))
    decreases ts
  {
    if ts != [] {
      hide CachesUpdated, QueryKey, Askable, Fits, Evicts;
      TailsFit(c, ts);
      AnyEvictsSplit(ts, q);
      hide AnyEvicts, AllFit;
      UpdatedQuery(c, s, ts[0], q);
      QueriesUpdated(c, CachesUpdated(c, s, ts[0]), ts[1..], q);
    }
  }

  lemma {:induction false} ListsUpdated(c: Collection, s: State, ts: seq<Tariff>, o: string)
    requires Owns(c, o) && AllFit(c, ts)
    ensures if AnyOwned(ts, o) then ListKey(c, o) !in AllCachesUpdated(c, s, ts).cache
            else SameAt(AllCachesUpdated(c, s, ts).cache, s.cache, ListKey(c, o))
    decreases ts
  {
    if ts != [] {
      TailsFit(c, ts);
      AnyOwnedSplit(ts, o);
      hide CachesUpdated, ListKey, AnyOwned, AllFit;
      UpdatedList(c, s, ts[0], o);
      ListsUpdated(c, CachesUpdated(c, s, ts[0]), ts[1..], o);
    }
  }

  ghost predicate DistinctIds(ts: seq<Tariff>) {
    forall i, j :: 0 <= i < j < |ts| ==> ts[i].id != ts[j].id
  }

  lemma {:induction false} OtherIdsStay(c: Collection, s: State, ts: seq<Tariff>, id: string)
    requires forall i :: 0 <= i < |ts| ==> ts[i].id != id
    ensures SameAt(AllCachesUpdated(c, s, ts).cache, s.cache, IdKey(c, id))
    decreases ts
  {
    if ts != [] {
      hide CachesUpdated, IdKey;
      UpdatedId(c, s, ts[0], id);
      OtherIdsStay(c, CachesUpdated(c, s, ts[0]), ts[1..], id);
    }
  }

  lemma {:induction false} OwnIdIsSet(c: Collection, s: State, ts: seq<Tariff>, i: nat)
    requires DistinctIds(ts) && i < |ts|
    ensures var key, after := IdKey(c, ts[i].id), AllCachesUpdated(c, s, ts).cache;
            (key in after <==> ts[i].active) && (ts[i].active ==> after[key] == Document(ts[i]))
    decreases ts
  {
    hide CachesUpdated, IdKey;
    var next := CachesUpdated(c, s, ts[0]);
    if i == 0 {
      UpdatedId(c, s, ts[0], ts[0].id);
      OtherIdsStay(c, next, ts[1..], ts[0].id);
    } else {
      assert ts[1..][i - 1] == ts[i];
      OwnIdIsSet(c, next, ts[1..], i - 1);
    }
  }

  // Cached answers

  lemma {:induction false} DeletedMatching(db: seq<Tariff>, owner: string, q: Query)
    ensures Matching(ActiveDeleted(db, owner), q) == if q.owner == owner then [] else Matching(db, q)
  {
    if db != [] {
      var n := |db| - 1;
      DeletedMatching(db[..n], owner, q);
      assert Doomed(db[n], owner) <==> db[n].owner == owner && db[n].active;
      assert Matches(db[n], q) ==> db[n].owner == q.owner && db[n].active;
      hide Matches, Doomed;
      if !Doomed(db[n], owner) {
        MatchingConcat(ActiveDeleted(db[..n], owner), [db[n]], q);
        assert [db[n]][..0] == [];
      }
    }
  }

  lemma SetsDetermine(a: seq<Tariff>, b: seq<Tariff>, q: Query)
    ensures Sets(a, q) == Sets(b, q) <==> Specific(a, q) == Specific(b, q) && Generic(a, q) == Generic(b, q)
  {
    hide Sets, Matches, GroupByCountry, SortedDown, ForCountry;
    SetsAreSpecificThenGeneric(a, q);
    SetsAreSpecificThenGeneric(b, q);
    if q.country == GENERIC {
      MatchingCountries(a, q);
      MatchingCountries(b, q);
      assert forall i :: 0 <= i < |Matching(a, q)| ==> Matching(a, q)[i] in Matching(a, q);
      assert forall i :: 0 <= i < |Matching(b, q)| ==> Matching(b, q)[i] in Matching(b, q);
      OneGroup(Matching(a, q), GENERIC);
      OneGroup(Matching(b, q), GENERIC);
      NonEmptyDetermines(GENERIC, Matching(a, q), Matching(b, q));
    } else {
      TwoSetsDetermine(q.country, Specific(a, q), Generic(a, q), Specific(b, q), Generic(b, q));
    }
  }

  lemma NonEmptyDetermines(country: string, a: seq<Tariff>, b: seq<Tariff>)
    ensures NonEmpty(country, a) == NonEmpty(country, b) <==> a == b
  {
    assert a != [] ==> NonEmpty(country, a)[0].tariffs == a;
    assert b != [] ==> NonEmpty(country, b)[0].tariffs == b;
  }

  lemma TwoSetsDetermine(country: string, s: seq<Tariff>, g: seq<Tariff>, u: seq<Tariff>, h: seq<Tariff>)
    requires country != GENERIC
    ensures NonEmpty(country, s) + NonEmpty(GENERIC, g) == NonEmpty(country, u) + NonEmpty(GENERIC, h)
            <==> s == u && g == h
  {
    var x, y := NonEmpty(country, s) + NonEmpty(GENERIC, g), NonEmpty(country, u) + NonEmpty(GENERIC, h);
    assert s != [] ==> x[0] == CountrySet(country, s);
    assert u != [] ==> y[0] == CountrySet(country, u);
    assert g != [] ==> x[|x| - 1] == CountrySet(GENERIC, g);
    assert h != [] ==> y[|y| - 1] == CountrySet(GENERIC, h);
  }

  /** The replacement leaves the query the same answer: the merchant's own query
      the same tariffs, and another's none of the new ones. */
  predicate Unaffected(c: Collection, s: State, o: string, ts: seq<Tariff>, q: Query) {
    var added, r := AddedOf(c, s, o, ts), Resolved(c, q);
    r.Some? ==>
      if r.value.owner == o
      then Specific(added, r.value) == Specific(s.db, r.value) && Generic(added, r.value) == Generic(s.db, r.value)
      else Matching(added, r.value) == []
  }

  lemma ReplacedSets(db: seq<Tariff>, o: string, added: seq<Tariff>, r: Query)
    ensures Sets(ActiveDeleted(db, o) + added, r) == Sets(db, r)
            <==> if r.owner == o then Specific(added, r) == Specific(db, r) && Generic(added, r) == Generic(db, r)
                 else Matching(added, r) == []
  {
    hide Sets, Matches;
    var kept := ActiveDeleted(db, o);
    SetsDetermine(kept + added, db, r);
    DeletedMatching(db, o, r);
    MatchingConcat(kept, added, r);
    if r.owner == o {
      assert [] + Matching(added, r) == Matching(added, r);
    } else {
      ForCountryConcat(Matching(db, r), Matching(added, r), r.country);
      ForCountryConcat(Matching(db, r), Matching(added, r), GENERIC);
      MatchingCountries(added, r);
      NoneMatches(added, r);
    }
  }

  lemma ReplacedAnswer(c: Collection, s: State, o: string, ts: seq<Tariff>, q: Query)
    requires OfMerchants(c)
    ensures Fresh(c, DbAfter(c, s, o, ts), q) == Fresh(c, s.db, q) <==> Unaffected(c, s, o, ts, q)
  {
    hide Sets, AddedOf, ActiveDeleted, Specific, Generic, Matching;
    if Resolved(c, q).Some? {
      ReplacedSets(s.db, o, AddedOf(c, s, o, ts), Resolved(c, q).value);
    }
  }

  lemma NoneMatches(db: seq<Tariff>, q: Query)
    ensures Matching(db, q) == [] <==> Specific(db, q) == [] && Generic(db, q) == []
  {
    MatchingCountries(db, q);
    if Matching(db, q) != [] {
      var t := Matching(db, q)[0];
      assert t in Matching(db, q);
      assert t in Specific(db, q) || t in Generic(db, q);
    }
  }

  lemma AfterReplacing(c: Collection, s: State, owner: string, o: string, ts: seq<Tariff>)
    requires ParseId(owner) == Some(o)
    ensures var t := s.(db := DbAfter(c, s, o, ts));
            && AllReplaced(c, s, owner, ts) == (if Complete(c, s, o, ts) then AllCachesUpdated(c, t, ts) else t)
            && AllReplaced(c, s, owner, ts).db == DbAfter(c, s, o, ts)
  {
    DbStays(c, s.(db := DbAfter(c, s, o, ts)), ts);
  }

  /** Replacing a merchant's tariffs keeps every cached Find right exactly if the
      cached queries that the insertion does not reach, which are all of them
      when it fails, are left the same answers. */
  lemma ReplacingKeepsQueries(c: Collection, scope: Scope, s: State, owner: string, o: string, ts: seq<Tariff>)
    requires OfMerchants(c) && QueriesCoherent(c, scope, s) && AllFit(c, ts) && ParseId(owner) == Some(o)
    ensures QueriesCoherent(c, scope, AllReplaced(c, s, owner, ts))
            <==> forall q :: Asked(c, scope, q) && QueryKey(c, q) in s.cache && !QueryReached(c, s, o, ts, q) ==>
                   Unaffected(c, s, o, ts, q)
  {
    var after := AllReplaced(c, s, owner, ts);
    AfterReplacing(c, s, owner, o, ts);
    hide QueryKey, Askable, Fresh, Unaffected, Evicts, Complete, AllCachesUpdated, AllReplaced, DbAfter, OwnerIn, AnyEvicts;
    forall q | Asked(c, scope, q)
      ensures if QueryReached(c, s, o, ts, q) then QueryKey(c, q) !in after.cache
              else SameAt(after.cache, s.cache, QueryKey(c, q))
      ensures Fresh(c, after.db, q) == Fresh(c, s.db, q) <==> Unaffected(c, s, o, ts, q)
    {
      QueriesUpdated(c, s.(db := DbAfter(c, s, o, ts)), ts, q);
      ReplacedAnswer(c, s, o, ts, q);
    }
  }

  /** In particular, replacing them by nothing leaves the cache wrong as soon as
      one cached Find of the merchant, however he is spelled, has an answer. */
  lemma ReplacingByNothing(c: Collection, scope: Scope, s: State, owner: string, o: string)
    requires OfMerchants(c) && QueriesCoherent(c, scope, s) && ParseId(owner) == Some(o)
    ensures QueriesCoherent(c, scope, AllReplaced(c, s, owner, []))
            <==> forall q :: Asked(c, scope, q) && QueryKey(c, q) in s.cache && ReadOwner(c, q.owner) == Some(o) ==>
                   Matching(s.db, Resolved(c, q).value) == []
  {
    hide QueryKey, Askable, AllReplaced, Fresh, OwnerIn, ReadOwner;
    ReplacingKeepsQueries(c, scope, s, owner, o, []);
    assert AddedOf(c, s, o, []) == [];
    forall q
      ensures Unaffected(c, s, o, [], q)
              <==> (ReadOwner(c, q.owner) == Some(o) ==> Matching(s.db, Resolved(c, q).value) == [])
      ensures !QueryReached(c, s, o, [], q)
    {
      if Resolved(c, q).Some? {
        NoneMatches(s.db, Resolved(c, q).value);
      }
    }
  }

  // Cached lists

  lemma {:induction false} DeletedListed(c: Collection, db: seq<Tariff>, owner: string, o: string)
    ensures multiset(Listed(c, db, o))
         == multiset(Listed(c, ActiveDeleted(db, owner), o))
            + if o == owner then multiset(ActiveOf(db, owner)) else multiset{}
  {
    if db != [] {
      var n := |db| - 1;
      DeletedListed(c, db[..n], owner, o);
      ListedConcat(c, ActiveDeleted(db[..n], owner), [db[n]], o);
      ListedOne(c, db[n], o);
    }
  }

  lemma Cancels(a: multiset<Tariff>, x: multiset<Tariff>, y: multiset<Tariff>)
    ensures a + x == a + y <==> x == y
  {
    if a + x == a + y {
      forall t ensures x[t] == y[t] {
        assert (a + x)[t] == (a + y)[t];
      }
    }
  }

  /** The list of merchant `p`, as the database writes his id, gains what it
      loses. */
  predicate ListUnaffected(c: Collection, s: State, o: string, ts: seq<Tariff>, p: string) {
    multiset(Listed(c, AddedOf(c, s, o, ts), p)) == if p == o then multiset(ActiveOf(s.db, o)) else multiset{}
  }

  lemma ReplacedLists(c: Collection, s: State, o: string, ts: seq<Tariff>, p: string)
    ensures multiset(Listed(c, DbAfter(c, s, o, ts), p)) == multiset(Listed(c, s.db, p))
            <==> ListUnaffected(c, s, o, ts, p)
  {
    hide Listed, ActiveOf, AddedOf, ActiveDeleted;
    var kept, added := ActiveDeleted(s.db, o), AddedOf(c, s, o, ts);
    ListedConcat(c, kept, added, p);
    DeletedListed(c, s.db, o, p);
    Cancels(multiset(Listed(c, kept, p)), multiset(Listed(c, added, p)),
            if p == o then multiset(ActiveOf(s.db, o)) else multiset{});
  }

  lemma ReachedList(c: Collection, s: State, owner: string, o: string, ts: seq<Tariff>, p: string)
    requires Owns(c, p) && AllFit(c, ts) && ParseId(owner) == Some(o)
    ensures var after := AllReplaced(c, s, owner, ts);
            if ListReached(c, s, o, ts, p) then ListKey(c, p) !in after.cache
            else SameAt(after.cache, s.cache, ListKey(c, p))
  {
    AfterReplacing(c, s, owner, o, ts);
    hide ListKey, Complete, AllCachesUpdated, AllReplaced, DbAfter, AnyOwned;
    ListsUpdated(c, s.(db := DbAfter(c, s, o, ts)), ts, p);
  }

  lemma UnreachedList(c: Collection, s: State, o: string, ts: seq<Tariff>, p: string)
    requires ListKey(c, p) in s.cache && ListRight(c, s, p)
    ensures ListRight(c, s.(db := DbAfter(c, s, o, ts)), p) <==> ListUnaffected(c, s, o, ts, ReadOwner(c, p).value)
  {
    hide ListKey, Listed, DbAfter, ReadOwner, ListUnaffected;
    ReplacedLists(c, s, o, ts, ReadOwner(c, p).value);
  }

  /** It keeps every cached list right exactly if the lists that the insertion
      does not reach, which include those under other spellings, gain what they
      lose. */
  lemma ReplacingKeepsLists(c: Collection, scope: Scope, s: State, owner: string, o: string, ts: seq<Tariff>)
    requires ListsCoherent(c, scope, s) && AllFit(c, ts) && ParseId(owner) == Some(o)
    ensures ListsCoherent(c, scope, AllReplaced(c, s, owner, ts))
            <==> forall p :: OwnerIn(c, scope, p) && ListKey(c, p) in s.cache && !ListReached(c, s, o, ts, p) ==>
                   ListUnaffected(c, s, o, ts, ReadOwner(c, p).value)
  {
    var after := AllReplaced(c, s, owner, ts);
    AfterReplacing(c, s, owner, o, ts);
    hide ListKey, AllReplaced, DbAfter, ReadOwner, IdIn, ListReached, ListUnaffected, AllFit, Lists;
    forall p | OwnerIn(c, scope, p)
      ensures if ListReached(c, s, o, ts, p) then ListKey(c, p) !in after.cache
              else SameAt(after.cache, s.cache, ListKey(c, p))
      ensures ListKey(c, p) in s.cache && ListRight(c, s, p) && !ListReached(c, s, o, ts, p) ==>
                (ListRight(c, after, p) <==> ListUnaffected(c, s, o, ts, ReadOwner(c, p).value))
    {
      ReachedList(c, s, owner, o, ts, p);
      if ListKey(c, p) in s.cache && ListRight(c, s, p) {
        UnreachedList(c, s, o, ts, p);
      }
    }
  }

  // Cached documents

  lemma {:induction false} DeletedIds(db: seq<Tariff>, owner: string)
    requires UniqueIds(db)
    ensures UniqueIds(ActiveDeleted(db, owner))
    ensures forall t :: t in ActiveDeleted(db, owner) <==> t in db && !Doomed(t, owner)
  {
    if db != [] {
      var n := |db| - 1;
      DeletedIds(db[..n], owner);
      var rest := ActiveDeleted(db[..n], owner);
      assert db == db[..n] + [db[n]];
      forall i | 0 <= i < |rest| ensures rest[i].id != db[n].id {
        assert rest[i] in db[..n];
      }
    }
  }

  lemma ByIdOfStored(db: seq<Tariff>, t: Tariff)
    requires UniqueIds(db) && t in db && t.active
    ensures ById(db, t.id) == Some(t)
  {
    var i :| 0 <= i < |db| && db[i] == t;
    ByIdOfUnique(db, i);
  }

  lemma AddedIdsAreUnique(c: Collection, s: State, o: string, ts: seq<Tariff>)
    requires UniqueIds(s.db)
    ensures UniqueIds(DbAfter(c, s, o, ts))
    ensures DistinctIds(AddedOf(c, s, o, ts))
    ensures AllStorable(c, ts) ==> AddedOf(c, s, o, ts) == StoredAll(c, ts)[..|AddedOf(c, s, o, ts)|]
    ensures Complete(c, s, o, ts) ==> AddedOf(c, s, o, ts) == StoredAll(c, ts)
  {
    var kept, added := ActiveDeleted(s.db, o), AddedOf(c, s, o, ts);
    DeletedIds(s.db, o);
    if AllStorable(c, ts) {
      AdmittedIdsAreNew(kept, TariffId, StoredAll(c, ts));
      assert forall i :: 0 <= i < |added| ==> !HasId(kept, TariffId, added[i].id);
      forall i, j | 0 <= i < |kept| && 0 <= j < |added| ensures kept[i].id != added[j].id {
        assert TariffId(kept[i]) == kept[i].id && TariffId(added[j]) == added[j].id;
      }
      forall i, j | 0 <= i < j < |added| ensures added[i].id != added[j].id {
        assert TariffId(added[i]) != TariffId(added[j]);
      }
    }
  }

  lemma SpelledDistinct(c: Collection, ts: seq<Tariff>)
    requires AllStorable(c, ts) && DistinctIds(StoredAll(c, ts))
    ensures DistinctIds(ts)
  {
    forall i, j | 0 <= i < j < |ts| ensures ts[i].id != ts[j].id {
      assert StoredAll(c, ts)[i].id != StoredAll(c, ts)[j].id;
    }
  }

  /** What the cached document is in the database stays so, or comes back. */
  predicate DocumentUnaffected(c: Collection, s: State, o: string, ts: seq<Tariff>, id: string)
    requires IdKey(c, id) in s.cache && DocumentRight(c, s, id)
  {
    var d := Stored(c, s.cache[IdKey(c, id)].tariff).value;
    d.owner != o || d in AddedOf(c, s, o, ts)
  }

  lemma ReachedDocument(c: Collection, s: State, owner: string, o: string, ts: seq<Tariff>, id: string)
    requires UniqueIds(s.db) && ParseId(owner) == Some(o)
    ensures var after := AllReplaced(c, s, owner, ts);
            if IdReached(c, s, o, ts, id) then IdKey(c, id) in after.cache ==> DocumentRight(c, after, id)
            else SameAt(after.cache, s.cache, IdKey(c, id))
  {
    var after, mid := AllReplaced(c, s, owner, ts), s.(db := DbAfter(c, s, o, ts));
    AfterReplacing(c, s, owner, o, ts);
    AddedIdsAreUnique(c, s, o, ts);
    if Complete(c, s, o, ts) {
      SpelledDistinct(c, ts);
      hide IdKey, ById, AllCachesUpdated, AllReplaced, UniqueIds, ReadId, ActiveDeleted, Stored;
      if i :| 0 <= i < |ts| && ts[i].id == id {
        var u := StoredAll(c, ts)[i];
        OwnIdIsSet(c, mid, ts, i);
        StoredIsStored(c, ts[i]);
        StoredKeepsActive(c, ts[i]);
        assert u in AddedOf(c, s, o, ts) && u in DbAfter(c, s, o, ts);
        if ts[i].active {
          ByIdOfStored(DbAfter(c, s, o, ts), u);
        }
      } else {
        OtherIdsStay(c, mid, ts, id);
      }
    }
  }

  lemma StoredKeepsActive(c: Collection, t: Tariff)
    ensures Stored(c, t).Some? ==> Stored(c, t).value.active == t.active
  {
  }

  lemma UnreachedDocument(c: Collection, s: State, o: string, ts: seq<Tariff>, id: string)
    requires UniqueIds(s.db) && IdKey(c, id) in s.cache && DocumentRight(c, s, id)
    ensures DocumentRight(c, s.(db := DbAfter(c, s, o, ts)), id) <==> DocumentUnaffected(c, s, o, ts, id)
  {
    hide IdKey, ById, AddedOf, ActiveDeleted, UniqueIds, Stored, ReadId;
    var d := Stored(c, s.cache[IdKey(c, id)].tariff).value;
    var oid, db := ReadId(c, id).value, DbAfter(c, s, o, ts);
    AddedIdsAreUnique(c, s, o, ts);
    ByIdIsStored(s.db, oid);
    ByIdIsStored(db, oid);
    DeletedIds(s.db, o);
    if d in db {
      ByIdOfStored(db, d);
    }
  }

  /** It keeps every cached document right exactly if those that the insertion
      does not reach, under the spelling they are cached with, are another
      merchant's, or inserted again unchanged. */
  lemma ReplacingKeepsIds(c: Collection, scope: Scope, s: State, owner: string, o: string, ts: seq<Tariff>)
    requires UniqueIds(s.db) && IdsCoherent(c, scope, s) && ParseId(owner) == Some(o)
    ensures IdsCoherent(c, scope, AllReplaced(c, s, owner, ts))
            <==> forall id :: IdIn(scope, id) && IdKey(c, id) in s.cache && !IdReached(c, s, o, ts, id) ==>
                   DocumentUnaffected(c, s, o, ts, id)
  {
    var after := AllReplaced(c, s, owner, ts);
    AfterReplacing(c, s, owner, o, ts);
    hide IdKey, AllCachesUpdated, AddedOf, ActiveDeleted, UniqueIds, AllReplaced, DbAfter, IdIn, IdReached, DocumentUnaffected;
    forall id
      ensures IdReached(c, s, o, ts, id) && IdKey(c, id) in after.cache ==> DocumentRight(c, after, id)
      ensures !IdReached(c, s, o, ts, id) ==> SameAt(after.cache, s.cache, IdKey(c, id))
      ensures IdKey(c, id) in s.cache && DocumentRight(c, s, id) && !IdReached(c, s, o, ts, id) ==>
                (DocumentRight(c, after, id) <==> DocumentUnaffected(c, s, o, ts, id))
    {
      ReachedDocument(c, s, owner, o, ts, id);
      if IdKey(c, id) in s.cache && DocumentRight(c, s, id) {
        UnreachedDocument(c, s, o, ts, id);
      }
    }
  }
}
