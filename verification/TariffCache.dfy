/** Tariff collections read through a cache, and when the cache keeps telling
    what the collection would.

    The cache is one map from printed keys to entries. The pure steps on a
    `State` are what the methods of the repository do. */
module TariffCache {
  import opened Options
  import opened Documents
  import opened ObjectIds
  import opened TariffLookup
  import opened TariffKeys
  import opened TariffAnswers

  datatype Entry = Answer(reply: Reply) | Document(tariff: Tariff) | Listing(tariffs: seq<Tariff>)

  datatype State = State(db: seq<Tariff>, cache: map<string, Entry>)

  // Coherence, for reads that spell ids in any way or for those only that spell
  // them as the database does

  datatype Scope = AnySpelling | AsStored

  predicate IdIn(scope: Scope, id: string) {
    scope.AnySpelling? || Canonical(id)
  }

  predicate OwnerIn(c: Collection, scope: Scope, owner: string) {
    Owns(c, owner) && (!OfMerchants(c) || IdIn(scope, owner))
  }

  predicate Asked(c: Collection, scope: Scope, q: Query) {
    Askable(c, q) && OwnerIn(c, scope, q.owner)
  }

  /** Every cached answer to a query without colons is the collection's. */
  ghost predicate QueriesCoherent(c: Collection, scope: Scope, s: State) {
    forall q :: Asked(c, scope, q) && QueryKey(c, q) in s.cache ==>
      s.cache[QueryKey(c, q)] == Answer(Fresh(c, s.db, q))
  }

  /** Every cached document is the one stored, but for the spelling of its ids:
      a write caches it as the caller spelled them. */
  predicate DocumentRight(c: Collection, s: State, id: string)
    requires IdKey(c, id) in s.cache
  {
    var entry := s.cache[IdKey(c, id)];
    entry.Document? && Stored(c, entry.tariff).Some? && FreshById(c, s.db, id) == Stored(c, entry.tariff)
  }

  ghost predicate IdsCoherent(c: Collection, scope: Scope, s: State) {
    forall id :: IdIn(scope, id) && IdKey(c, id) in s.cache ==> DocumentRight(c, s, id)
  }

  predicate ListRight(c: Collection, s: State, owner: string)
    requires ListKey(c, owner) in s.cache
  {
    s.cache[ListKey(c, owner)].Listing? && Lists(c, s.cache[ListKey(c, owner)].tariffs, s.db, owner)
  }

  ghost predicate ListsCoherent(c: Collection, scope: Scope, s: State) {
    forall owner :: OwnerIn(c, scope, owner) && ListKey(c, owner) in s.cache ==> ListRight(c, s, owner)
  }

  // What a write does to the cache

  function QueryFor(t: Tariff, country: string): Query {
    Query(t.owner, t.name, t.region, country, t.terms)
  }

  function DroppedKeys(c: Collection, t: Tariff): set<string> {
    {QueryKey(c, QueryFor(t, t.country)), QueryKey(c, QueryFor(t, GENERIC)), ListKey(c, t.owner), IdKey(c, t.id)}
  }

  function CachesUpdated(c: Collection, s: State, t: Tariff): State {
    var left := s.cache - DroppedKeys(c, t);
    s.(cache := if t.active then left[IdKey(c, t.id) := Document(t)] else left)
  }

  /** The queries a write means to drop. */
  predicate Evicts(t: Tariff, q: Query) {
    q == QueryFor(t, t.country) || q == QueryFor(t, GENERIC)
  }

  /** The entry under one key is the same before and after, or absent in both. */
  predicate SameAt(a: map<string, Entry>, b: map<string, Entry>, key: string) {
    (key in a <==> key in b) && (key in a ==> a[key] == b[key])
  }

  /** Of the queries without colons it drops exactly those, ... */
  lemma UpdatedQuery(c: Collection, s: State, t: Tariff, q: Query)
    requires Askable(c, q) && Fits(c, t.owner, t.terms)
    ensures if Evicts(t, q) then QueryKey(c, q) !in CachesUpdated(c, s, t).cache
            else SameAt(CachesUpdated(c, s, t).cache, s.cache, QueryKey(c, q))
  {
    hide QueryKey, IdKey, ListKey, Askable, Fits;
    KindsApart(c, q, t.id, t.owner);
    if QueryKey(c, q) == QueryKey(c, QueryFor(t, t.country)) {
      AskableKey(c, q, QueryFor(t, t.country));
    }
    if QueryKey(c, q) == QueryKey(c, QueryFor(t, GENERIC)) {
      AskableKey(c, q, QueryFor(t, GENERIC));
    }
  }

  /** ... of the documents its own, which it sets if it is active, ... */
  lemma UpdatedId(c: Collection, s: State, t: Tariff, id: string)
    ensures var after := CachesUpdated(c, s, t).cache;
            if id != t.id then SameAt(after, s.cache, IdKey(c, id))
            else (IdKey(c, id) in after <==> t.active) && (t.active ==> after[IdKey(c, id)] == Document(t))
  {
    hide QueryKey, IdKey, ListKey;
    KindsApart(c, QueryFor(t, t.country), id, t.owner);
    KindsApart(c, QueryFor(t, GENERIC), id, t.owner);
    KindsApart(c, QueryFor(t, t.country), t.id, t.owner);
    KindsApart(c, QueryFor(t, GENERIC), t.id, t.owner);
    if IdKey(c, id) == IdKey(c, t.id) {
      IdKeyInjective(c, id, t.id);
    }
  }

  /** ... and of the lists its owner's. */
  lemma UpdatedList(c: Collection, s: State, t: Tariff, owner: string)
    requires Owns(c, owner) && Owns(c, t.owner)
    ensures if owner == t.owner then ListKey(c, owner) !in CachesUpdated(c, s, t).cache
            else SameAt(CachesUpdated(c, s, t).cache, s.cache, ListKey(c, owner))
  {
    hide QueryKey, IdKey, ListKey;
    KindsApart(c, QueryFor(t, t.country), t.id, owner);
    KindsApart(c, QueryFor(t, GENERIC), t.id, owner);
    if ListKey(c, owner) == ListKey(c, t.owner) {
      ListKeyInjective(c, owner, t.owner);
    }
  }

  /** The four keys, printed: after a write nothing is cached for its own country's
      query, for the generic one or for its owner's list, colons or not, and under
      its id the tariff if it is active and else nothing. */
  lemma WriteReaches(c: Collection, s: State, t: Tariff)
    ensures var after := CachesUpdated(c, s, t).cache;
            && QueryKey(c, Query(t.owner, t.name, t.region, t.country, t.terms)) !in after
            && QueryKey(c, Query(t.owner, t.name, t.region, "", t.terms)) !in after
            && ListKey(c, t.owner) !in after
            && if t.active then IdKey(c, t.id) in after && after[IdKey(c, t.id)] == Document(t)
               else IdKey(c, t.id) !in after
  {
    hide QueryKey, IdKey, ListKey;
    KindsApart(c, QueryFor(t, t.country), t.id, t.owner);
    KindsApart(c, QueryFor(t, GENERIC), t.id, t.owner);
  }

  // Steps

  /** Inserting under an id that is taken, or that is none, fails and changes
      nothing. */
  function Inserted(c: Collection, s: State, t: Tariff): State {
    var u := Stored(c, t);
    if u.None? || HasId(s.db, TariffId, u.value.id) then s else CachesUpdated(c, s.(db := s.db + [u.value]), t)
  }

  /** The caches are updated whether or not there was a document to replace, and
      under the ids as the caller spelled them. */
  function Written(c: Collection, s: State, t: Tariff): State {
    var u := Stored(c, t);
    if u.None? then s else CachesUpdated(c, s.(db := Replaced(s.db, TariffId, u.value)), t)
  }

  function FoundAndCached(c: Collection, s: State, q: Query): State {
    var k, r := QueryKey(c, q), Fresh(c, s.db, q);
    if (k in s.cache && s.cache[k].Answer?) || r == NoDocuments || r == Refused then s
    else s.(cache := s.cache[k := Answer(r)])
  }

  function GotAndCached(c: Collection, s: State, id: string): State {
    var k, t := IdKey(c, id), FreshById(c, s.db, id);
    if (k in s.cache && s.cache[k].Document?) || t.None? then s else s.(cache := s.cache[k := Document(t.value)])
  }

  /** `list` is the database's answer. */
  function ListedAndCached(c: Collection, s: State, owner: string, list: seq<Tariff>): State {
    var k := ListKey(c, owner);
    if k in s.cache && s.cache[k].Listing? then s else s.(cache := s.cache[k := Listing(list)])
  }

  // When Find goes stale

  lemma DbReplaced(s: State, u: Tariff, i: nat)
    requires UniqueIds(s.db) && i < |s.db| && s.db[i].id == u.id
    ensures Replaced(s.db, TariffId, u) == s.db[..i] + [u] + s.db[i + 1..]
    ensures s.db == s.db[..i] + [s.db[i]] + s.db[i + 1..]
  {
    assert forall j :: 0 <= j < i ==> s.db[j].id != s.db[i].id;
    ReplacedAround(s.db, TariffId, u, i);
  }

  /** The tariff is stored as `u`, in place of document i. */
  ghost predicate Replaces(c: Collection, s: State, t: Tariff, u: Tariff, i: nat) {
    && UniqueIds(s.db) && Fits(c, t.owner, t.terms) && Stored(c, t) == Some(u)
    && i < |s.db| && s.db[i].id == u.id
  }

  lemma WrittenDb(c: Collection, s: State, t: Tariff)
    ensures Stored(c, t).Some? ==> Written(c, s, t) == CachesUpdated(c, s.(db := Written(c, s, t).db), t)
    ensures Stored(c, t).Some? ==> Written(c, s, t).db == Replaced(s.db, TariffId, Stored(c, t).value)
    ensures Stored(c, t).Some? && !HasId(s.db, TariffId, Stored(c, t).value.id) ==>
              Inserted(c, s, t).db == s.db + [Stored(c, t).value]
              && Inserted(c, s, t) == CachesUpdated(c, s.(db := Inserted(c, s, t).db), t)
  {
  }

  /** A cached answer the write leaves behind although it changed it. */
  ghost predicate Stranded(c: Collection, scope: Scope, s: State, i: nat, t: Tariff, u: Tariff, q: Query)
    requires i < |s.db|
  {
    && Asked(c, scope, q) && QueryKey(c, q) in s.cache && !Evicts(t, q) && s.db[i] != u
    && (Answers(c, s.db, q, s.db[i]) || Answers(c, Replaced(s.db, TariffId, u), q, u))
  }

  /** Updating or deleting a stored tariff keeps every cached Find right exactly
      if no cached query that its keys miss is answered with the tariff, before
      or after. */
  lemma WriteKeepsQueries(c: Collection, scope: Scope, s: State, i: nat, t: Tariff, u: Tariff)
    requires QueriesCoherent(c, scope, s) && Replaces(c, s, t, u, i)
    ensures QueriesCoherent(c, scope, Written(c, s, t)) <==> forall q :: !Stranded(c, scope, s, i, t, u, q)
  {
    var after := Written(c, s, t);
    WrittenDb(c, s, t);
    hide QueryKey, Evicts, Fresh, CachesUpdated, Answers, Askable, Written, Stored, Fits;
    forall q | Asked(c, scope, q)
      ensures if Evicts(t, q) then QueryKey(c, q) !in after.cache
              else SameAt(after.cache, s.cache, QueryKey(c, q))
      ensures QueryKey(c, q) in s.cache && !Evicts(t, q) ==>
                (s.cache[QueryKey(c, q)] == Answer(Fresh(c, after.db, q)) <==> !Stranded(c, scope, s, i, t, u, q))
    {
      UpdatedQuery(c, s.(db := after.db), t, q);
      DbReplaced(s, u, i);
      ReplacingChangesFresh(c, s.db[..i], s.db[i], u, s.db[i + 1..], q);
    }
  }

  ghost predicate KeepsKey(t: Tariff, u: Tariff) {
    t.id == u.id && t.owner == u.owner && t.name == u.name && t.region == u.region
    && t.country == u.country && t.terms == u.terms
  }

  /** A write that keeps the key fields misses a query it bears on only when the
      query spells the name in another case or the merchant's id in another way,
      or when the tariff is generic and the query asks for a country. */
  lemma BlindSpot(c: Collection, t: Tariff, q: Query)
    requires Stored(c, t).Some? && Resolved(c, q).Some? && Covers(Stored(c, t).value, Resolved(c, q).value)
    ensures !Evicts(t, q)
            <==> q.name != t.name || q.owner != t.owner || (t.country == GENERIC && q.country != GENERIC)
  {
  }

  /** Cached queries for the merchant spell his id as the tariff does, and its
      name. */
  ghost predicate SpelledAlike(c: Collection, scope: Scope, s: State, t: Tariff) {
    forall q :: Asked(c, scope, q) && QueryKey(c, q) in s.cache && SameName(q.name, t.name)
                && ReadOwner(c, q.owner) == ReadOwner(c, t.owner) ==>
      q.name == t.name && q.owner == t.owner
  }

  /** For reads that spell ids as the database does, and a tariff that does, only
      the name is left to chance. */
  lemma StoredIdsAreSpelledAlike(c: Collection, s: State, t: Tariff)
    requires OwnerIn(c, AsStored, t.owner)
    requires forall q :: Asked(c, AsStored, q) && QueryKey(c, q) in s.cache && SameName(q.name, t.name) ==>
               q.name == t.name
    ensures SpelledAlike(c, AsStored, s, t)
  {
    hide QueryKey, Askable, SameName, ParseId;
  }

  lemma AnsweredInKeys(c: Collection, db: seq<Tariff>, q: Query, t: Tariff, u: Tariff)
    requires Stored(c, t).Some? && KeepsKey(Stored(c, t).value, u) && Answers(c, db, q, u)
    ensures Resolved(c, q).Some? && Covers(Stored(c, t).value, Resolved(c, q).value)
    ensures SameName(q.name, t.name) && ReadOwner(c, q.owner) == ReadOwner(c, t.owner)
  {
    CoveredIfAnswered(c, db, q, u);
    StoredIsStored(c, t);
  }

  /** So with one spelling for each name and id, writing a tariff of some country
      never leaves a cached Find wrong; ... */
  lemma CountryWriteIsSafe(c: Collection, scope: Scope, s: State, i: nat, t: Tariff, u: Tariff)
    requires QueriesCoherent(c, scope, s) && Replaces(c, s, t, u, i) && KeepsKey(u, s.db[i])
    requires t.country != GENERIC && SpelledAlike(c, scope, s, t)
    ensures QueriesCoherent(c, scope, Written(c, s, t))
  {
    WriteKeepsQueries(c, scope, s, i, t, u);
    hide QueryKey, Askable, Fresh, Answers, CachesUpdated, Stored, Covers, Evicts, Written, Resolved, ReadOwner;
    forall q ensures !Stranded(c, scope, s, i, t, u, q) {
      if Stranded(c, scope, s, i, t, u, q) {
        StrandedIsBlind(c, scope, s, i, t, u, q);
      }
    }
  }

  lemma StrandedIsBlind(c: Collection, scope: Scope, s: State, i: nat, t: Tariff, u: Tariff, q: Query)
    requires Replaces(c, s, t, u, i) && KeepsKey(u, s.db[i]) && Stranded(c, scope, s, i, t, u, q)
    ensures SameName(q.name, t.name) && ReadOwner(c, q.owner) == ReadOwner(c, t.owner)
    ensures q.name != t.name || q.owner != t.owner || (t.country == GENERIC && q.country != GENERIC)
  {
    hide Askable, Answers, Stored, Covers, Evicts, Resolved, ReadOwner, QueryKey, SameName;
    if Answers(c, s.db, q, s.db[i]) {
      AnsweredInKeys(c, s.db, q, t, s.db[i]);
    } else {
      AnsweredInKeys(c, Replaced(s.db, TariffId, u), q, t, u);
    }
    BlindSpot(c, t, q);
  }

  /** ... writing a generic one does exactly if some country's cached Find was,
      or would now be, answered with it. */
  lemma GenericWriteIsUnsafe(c: Collection, scope: Scope, s: State, i: nat, t: Tariff, u: Tariff)
    requires QueriesCoherent(c, scope, s) && Replaces(c, s, t, u, i) && KeepsKey(u, s.db[i]) && s.db[i] != u
    requires t.country == GENERIC && SpelledAlike(c, scope, s, t)
    ensures QueriesCoherent(c, scope, Written(c, s, t))
            <==> forall q :: Asked(c, scope, q) && QueryKey(c, q) in s.cache && q.country != GENERIC ==>
                   !Answers(c, s.db, q, s.db[i]) && !Answers(c, Replaced(s.db, TariffId, u), q, u)
  {
    WriteKeepsQueries(c, scope, s, i, t, u);
    hide QueryKey, Askable, Fresh, Answers, CachesUpdated, Stored, Covers, Written, Resolved, ReadOwner;
    forall q | Asked(c, scope, q) && QueryKey(c, q) in s.cache
      ensures Stranded(c, scope, s, i, t, u, q)
              <==> q.country != GENERIC
                   && (Answers(c, s.db, q, s.db[i]) || Answers(c, Replaced(s.db, TariffId, u), q, u))
    {
      if Stranded(c, scope, s, i, t, u, q) {
        StrandedIsBlind(c, scope, s, i, t, u, q);
      }
    }
  }

  /** Inserting keeps every cached Find right exactly if no cached query that its
      keys miss is now answered with the new tariff. */
  lemma InsertKeepsQueries(c: Collection, scope: Scope, s: State, t: Tariff, u: Tariff)
    requires QueriesCoherent(c, scope, s) && Fits(c, t.owner, t.terms)
    requires Stored(c, t) == Some(u) && !HasId(s.db, TariffId, u.id)
    ensures QueriesCoherent(c, scope, Inserted(c, s, t))
            <==> forall q :: Asked(c, scope, q) && QueryKey(c, q) in s.cache && !Evicts(t, q) ==>
                   !Answers(c, s.db + [u], q, u)
  {
    var after := Inserted(c, s, t);
    WrittenDb(c, s, t);
    hide QueryKey, Evicts, Fresh, CachesUpdated, Answers, Askable, Inserted, Stored, Fits, HasId;
    forall q | Asked(c, scope, q)
      ensures if Evicts(t, q) then QueryKey(c, q) !in after.cache
              else SameAt(after.cache, s.cache, QueryKey(c, q))
      ensures Fresh(c, after.db, q) == Fresh(c, s.db, q) <==> !Answers(c, s.db + [u], q, u)
    {
      UpdatedQuery(c, s.(db := after.db), t, q);
      InsertingChangesFresh(c, s.db, u, q);
    }
  }

  lemma CountryInsertIsSafe(c: Collection, scope: Scope, s: State, t: Tariff)
    requires QueriesCoherent(c, scope, s) && Fits(c, t.owner, t.terms)
    requires t.country != GENERIC && SpelledAlike(c, scope, s, t)
    ensures QueriesCoherent(c, scope, Inserted(c, s, t))
  {
    var stored := Stored(c, t);
    if stored.Some? && !HasId(s.db, TariffId, stored.value.id) {
      var u := stored.value;
      InsertKeepsQueries(c, scope, s, t, u);
      hide QueryKey, Askable, Fresh, Answers, CachesUpdated, Stored, Covers, Inserted, Resolved, ReadOwner, Evicts;
      forall q | Asked(c, scope, q) && QueryKey(c, q) in s.cache && !Evicts(t, q)
        ensures !Answers(c, s.db + [u], q, u)
      {
        if Answers(c, s.db + [u], q, u) {
          AnsweredInKeys(c, s.db + [u], q, t, u);
          BlindSpot(c, t, q);
        }
      }
    }
  }

  // Documents

  lemma ByIdAround(a: seq<Tariff>, t: Tariff, b: seq<Tariff>, id: string)
    requires t.id != id
    ensures ById(a + [t] + b, id) == if ById(a, id).Some? then ById(a, id) else ById(b, id)
  {
    ByIdConcat(a + [t], b, id);
    ByIdConcat(a, [t], id);
    assert [t][1..] == [];
  }

  lemma ReplacedDocument(s: State, u: Tariff, i: nat, id: string)
    requires UniqueIds(s.db) && i < |s.db| && s.db[i].id == u.id
    ensures var db := Replaced(s.db, TariffId, u);
            if id != u.id then ById(db, id) == ById(s.db, id)
            else ById(db, id) == (if u.active then Some(u) else None)
                 && ById(s.db, id) == if s.db[i].active then Some(s.db[i]) else None
  {
    DbReplaced(s, u, i);
    var db := Replaced(s.db, TariffId, u);
    if id == u.id {
      ReplacedKeepsIds(s.db, u);
      assert db[i] == u;
      ByIdOfUnique(db, i);
      ByIdOfUnique(s.db, i);
    } else {
      ByIdAround(s.db[..i], u, s.db[i + 1..], id);
      ByIdAround(s.db[..i], s.db[i], s.db[i + 1..], id);
    }
  }

  lemma WrittenId(c: Collection, s: State, i: nat, t: Tariff, u: Tariff, id: string)
    requires Replaces(c, s, t, u, i)
    ensures var after := Written(c, s, t);
            && (id == t.id && IdKey(c, id) in after.cache ==> DocumentRight(c, after, id))
            && (id != t.id ==> SameAt(after.cache, s.cache, IdKey(c, id)))
            && (id != t.id && IdKey(c, id) in s.cache && DocumentRight(c, s, id) ==>
                  (DocumentRight(c, after, id) <==> ReadId(c, id) != Some(u.id) || u == s.db[i]))
  {
    var after := Written(c, s, t);
    WrittenDb(c, s, t);
    StoredIsStored(c, t);
    hide IdKey, CachesUpdated, ById, Written, Stored, Fits, ReadId, UniqueIds, Replaced;
    UpdatedId(c, s.(db := after.db), t, id);
    if ReadId(c, id).Some? {
      ReplacedDocument(s, u, i, ReadId(c, id).value);
    }
  }

  /** Writing a stored document keeps every cached document right exactly if it
      changes nothing, or none is cached under another spelling of its id. */
  lemma WriteKeepsIds(c: Collection, scope: Scope, s: State, i: nat, t: Tariff, u: Tariff)
    requires IdsCoherent(c, scope, s) && Replaces(c, s, t, u, i)
    ensures IdsCoherent(c, scope, Written(c, s, t))
            <==> u == s.db[i]
                 || forall id :: IdIn(scope, id) && id != t.id && ReadId(c, id) == Some(u.id) ==> IdKey(c, id) !in s.cache
  {
    hide IdKey, Written, ReadId, IdIn, DocumentRight, UniqueIds, Fits, Stored;
    var after := Written(c, s, t);
    forall id
      ensures id == t.id && IdKey(c, id) in after.cache ==> DocumentRight(c, after, id)
      ensures id != t.id ==> SameAt(after.cache, s.cache, IdKey(c, id))
      ensures id != t.id && IdKey(c, id) in s.cache && DocumentRight(c, s, id) ==>
                (DocumentRight(c, after, id) <==> ReadId(c, id) != Some(u.id) || u == s.db[i])
    {
      WrittenId(c, s, i, t, u, id);
    }
  }

  lemma InsertedId(c: Collection, s: State, t: Tariff, u: Tariff, id: string)
    requires Stored(c, t) == Some(u) && !HasId(s.db, TariffId, u.id)
    ensures var after := Inserted(c, s, t);
            && (id == t.id && IdKey(c, id) in after.cache ==> DocumentRight(c, after, id))
            && (id != t.id ==> SameAt(after.cache, s.cache, IdKey(c, id)))
            && (id != t.id && IdKey(c, id) in s.cache && DocumentRight(c, s, id) ==> DocumentRight(c, after, id))
  {
    var after := Inserted(c, s, t);
    WrittenDb(c, s, t);
    StoredIsStored(c, t);
    assert forall i :: 0 <= i < |s.db| ==> TariffId(s.db[i]) != u.id;
    NoSuchId(s.db, u.id);
    hide IdKey, CachesUpdated, Inserted, Stored, ReadId, HasId, ById;
    UpdatedId(c, s.(db := after.db), t, id);
    if ReadId(c, id).Some? {
      ByIdConcat(s.db, [u], ReadId(c, id).value);
      ByIdOfOne(u, ReadId(c, id).value);
    }
  }

  /** An id that is new is cached in no spelling. */
  lemma InsertKeepsIds(c: Collection, scope: Scope, s: State, t: Tariff)
    requires IdsCoherent(c, scope, s)
    ensures IdsCoherent(c, scope, Inserted(c, s, t))
  {
    var stored := Stored(c, t);
    if stored.Some? && !HasId(s.db, TariffId, stored.value.id) {
      var after := Inserted(c, s, t);
      hide IdKey, Inserted, Stored, IdIn, DocumentRight, HasId;
      forall id | IdIn(scope, id) && IdKey(c, id) in after.cache ensures DocumentRight(c, after, id) {
        InsertedId(c, s, t, stored.value, id);
      }
    }
  }

  lemma ByIdOfOne(u: Tariff, id: string)
    ensures ById([u], id) == if u.id == id && u.active then Some(u) else None
  {
    assert [u][1..] == [];
  }

  /** Writing an id that does not exist plants a document that is not there,
      unless it is a deletion. */
  lemma PhantomWrite(c: Collection, scope: Scope, s: State, t: Tariff, u: Tariff)
    requires IdsCoherent(c, scope, s) && IdIn(scope, t.id)
    requires Stored(c, t) == Some(u) && !HasId(s.db, TariffId, u.id)
    ensures IdsCoherent(c, scope, Written(c, s, t)) <==> !t.active
  {
    var after := Written(c, s, t);
    WrittenDb(c, s, t);
    StoredIsStored(c, t);
    NothingReplaced(s.db, TariffId, u);
    assert forall i :: 0 <= i < |s.db| ==> TariffId(s.db[i]) != u.id;
    NoSuchId(s.db, u.id);
    hide QueryKey, IdKey, ListKey, CachesUpdated, ById, Written, Stored, ReadId, Canonical, HasId;
    forall id
      ensures if id != t.id then SameAt(after.cache, s.cache, IdKey(c, id))
              else (IdKey(c, id) in after.cache <==> t.active)
      ensures IdKey(c, id) in after.cache && IdKey(c, id) in s.cache && id != t.id ==>
                (DocumentRight(c, after, id) <==> DocumentRight(c, s, id))
      ensures t.active ==> IdKey(c, t.id) in after.cache && !DocumentRight(c, after, t.id)
    {
      UpdatedId(c, s.(db := after.db), t, id);
      UpdatedId(c, s.(db := after.db), t, t.id);
    }
  }

  // Lists

  /** The list of an owner looks the same with either document on it. */
  predicate ListSame(c: Collection, a: Tariff, b: Tariff, owner: string) {
    a == b || (!OnList(c, a, owner) && !OnList(c, b, owner))
  }

  lemma ReplacedList(c: Collection, s: State, u: Tariff, i: nat, owner: string)
    requires UniqueIds(s.db) && i < |s.db| && s.db[i].id == u.id
    ensures multiset(Listed(c, Replaced(s.db, TariffId, u), owner)) == multiset(Listed(c, s.db, owner))
            <==> ListSame(c, s.db[i], u, owner)
  {
    DbReplaced(s, u, i);
    SwappedOnList(c, s.db[..i], s.db[i], u, s.db[i + 1..], owner);
  }

  lemma SwappedOnList(c: Collection, a: seq<Tariff>, was: Tariff, u: Tariff, b: seq<Tariff>, owner: string)
    ensures multiset(Listed(c, a + [u] + b, owner)) == multiset(Listed(c, a + [was] + b, owner))
            <==> ListSame(c, was, u, owner)
  {
    hide OnList, Listed;
    ListedAround(c, a, u, b, owner);
    ListedAround(c, a, was, b, owner);
    ListedOne(c, u, owner);
    ListedOne(c, was, owner);
    var rest := multiset(Listed(c, a, owner)) + multiset(Listed(c, b, owner));
    assert multiset(Listed(c, a + [u] + b, owner)) == rest + multiset(Listed(c, [u], owner));
    assert multiset(Listed(c, a + [was] + b, owner)) == rest + multiset(Listed(c, [was], owner));
    OneMoreDiffers(rest, was, u);
  }

  lemma OneMoreDiffers(rest: multiset<Tariff>, was: Tariff, u: Tariff)
    ensures rest + multiset([was]) == rest + multiset([u]) <==> was == u
    ensures rest + multiset([was]) != rest + multiset([])
    ensures rest + multiset([u]) != rest + multiset([])
  {
    assert (rest + multiset([was]))[was] == rest[was] + 1;
    assert (rest + multiset([u]))[u] == rest[u] + 1;
    assert was != u ==> (rest + multiset([u]))[was] == rest[was];
  }

  /** Writing a stored document keeps every cached list right exactly if the lists
      it does not drop, which are those of other owners and of other spellings of
      its own, look the same with it. */
  lemma WriteKeepsLists(c: Collection, scope: Scope, s: State, i: nat, t: Tariff, u: Tariff)
    requires ListsCoherent(c, scope, s) && Replaces(c, s, t, u, i)
    ensures ListsCoherent(c, scope, Written(c, s, t))
            <==> forall o :: OwnerIn(c, scope, o) && ListKey(c, o) in s.cache && o != t.owner ==>
                   ReadOwner(c, o).Some? && ListSame(c, s.db[i], u, ReadOwner(c, o).value)
  {
    var after := Written(c, s, t);
    WrittenDb(c, s, t);
    hide ListKey, CachesUpdated, Listed, Written, Stored, ReadId, Canonical, ReadOwner, ListSame;
    forall o | OwnerIn(c, scope, o)
      ensures if o == t.owner then ListKey(c, o) !in after.cache else SameAt(after.cache, s.cache, ListKey(c, o))
      ensures ReadOwner(c, o).Some? ==>
                (multiset(Listed(c, after.db, ReadOwner(c, o).value)) == multiset(Listed(c, s.db, ReadOwner(c, o).value))
                 <==> ListSame(c, s.db[i], u, ReadOwner(c, o).value))
    {
      UpdatedList(c, s.(db := after.db), t, o);
      if ReadOwner(c, o).Some? {
        ReplacedList(c, s, u, i, ReadOwner(c, o).value);
      }
    }
  }

  /** Inserting does exactly if no list under another spelling of its owner's id
      is cached that it belongs on. */
  lemma InsertKeepsLists(c: Collection, scope: Scope, s: State, t: Tariff, u: Tariff)
    requires ListsCoherent(c, scope, s) && Fits(c, t.owner, t.terms)
    requires Stored(c, t) == Some(u) && !HasId(s.db, TariffId, u.id)
    ensures ListsCoherent(c, scope, Inserted(c, s, t))
            <==> forall o :: OwnerIn(c, scope, o) && ListKey(c, o) in s.cache && o != t.owner ==>
                   ReadOwner(c, o).Some? && !OnList(c, u, ReadOwner(c, o).value)
  {
    var after := Inserted(c, s, t);
    WrittenDb(c, s, t);
    hide ListKey, CachesUpdated, Listed, Inserted, Stored, ReadId, Canonical, ReadOwner, OnList, HasId;
    forall o | OwnerIn(c, scope, o)
      ensures if o == t.owner then ListKey(c, o) !in after.cache else SameAt(after.cache, s.cache, ListKey(c, o))
      ensures ReadOwner(c, o).Some? ==>
                (multiset(Listed(c, after.db, ReadOwner(c, o).value)) == multiset(Listed(c, s.db, ReadOwner(c, o).value))
                 <==> !OnList(c, u, ReadOwner(c, o).value))
    {
      UpdatedList(c, s.(db := after.db), t, o);
      if ReadOwner(c, o).Some? {
        var x := ReadOwner(c, o).value;
        ListedConcat(c, s.db, [u], x);
        ListedOne(c, u, x);
        OneMoreDiffers(multiset(Listed(c, s.db, x)), u, u);
        assert Listed(c, s.db, x) + [] == Listed(c, s.db, x);
      }
    }
  }

  // Reading

  /** Caching what was read keeps the cache right; a query with colons may be
      cached under the key of another one with colons, but never of one without. */
  lemma FindKeepsCoherence(c: Collection, scope: Scope, s: State, q: Query)
    requires Fits(c, q.owner, q.terms)
    ensures QueriesCoherent(c, scope, s) ==> QueriesCoherent(c, scope, FoundAndCached(c, s, q))
    ensures IdsCoherent(c, scope, s) ==> IdsCoherent(c, scope, FoundAndCached(c, s, q))
    ensures ListsCoherent(c, scope, s) ==> ListsCoherent(c, scope, FoundAndCached(c, s, q))
  {
    hide QueryKey, IdKey, ListKey, FreshById, Listed, Lists, Askable, Fresh, Stored, OwnerIn, IdIn;
    forall p | Askable(c, p) && QueryKey(c, p) == QueryKey(c, q) ensures p == q {
      AskableKey(c, p, q);
    }
    forall id ensures QueryKey(c, q) != IdKey(c, id) {
      KindsApart(c, q, id, "");
    }
    forall owner ensures QueryKey(c, q) != ListKey(c, owner) {
      KindsApart(c, q, "", owner);
    }
  }

  lemma StoredIfRead(c: Collection, db: seq<Tariff>, id: string)
    requires WellStored(c, db) && FreshById(c, db, id).Some?
    ensures Stored(c, FreshById(c, db, id).value) == FreshById(c, db, id)
  {
    ByIdIsStored(db, ReadId(c, id).value);
  }

  lemma GetKeepsCoherence(c: Collection, scope: Scope, s: State, id: string)
    requires WellStored(c, s.db)
    ensures QueriesCoherent(c, scope, s) ==> QueriesCoherent(c, scope, GotAndCached(c, s, id))
    ensures IdsCoherent(c, scope, s) ==> IdsCoherent(c, scope, GotAndCached(c, s, id))
    ensures ListsCoherent(c, scope, s) ==> ListsCoherent(c, scope, GotAndCached(c, s, id))
  {
    hide QueryKey, IdKey, ListKey, FreshById, Lists, Askable, Fresh, Stored, OwnerIn, IdIn, WellStored;
    forall q ensures QueryKey(c, q) != IdKey(c, id) {
      KindsApart(c, q, id, "");
    }
    forall owner ensures IdKey(c, id) != ListKey(c, owner) {
      IdsAndListsApart(c, id, owner);
    }
    GetKeepsIds(c, scope, s, id);
  }

  lemma GetKeepsIds(c: Collection, scope: Scope, s: State, id: string)
    requires WellStored(c, s.db)
    ensures IdsCoherent(c, scope, s) ==> IdsCoherent(c, scope, GotAndCached(c, s, id))
  {
    if FreshById(c, s.db, id).Some? {
      StoredIfRead(c, s.db, id);
    }
    hide IdKey, FreshById, Stored, IdIn, WellStored;
    forall i | IdKey(c, i) == IdKey(c, id) ensures i == id {
      IdKeyInjective(c, i, id);
    }
  }

  lemma ListKeepsCoherence(c: Collection, scope: Scope, s: State, owner: string, list: seq<Tariff>)
    requires Owns(c, owner) && Lists(c, list, s.db, owner)
    ensures QueriesCoherent(c, scope, s) ==> QueriesCoherent(c, scope, ListedAndCached(c, s, owner, list))
    ensures IdsCoherent(c, scope, s) ==> IdsCoherent(c, scope, ListedAndCached(c, s, owner, list))
    ensures ListsCoherent(c, scope, s) ==> ListsCoherent(c, scope, ListedAndCached(c, s, owner, list))
  {
    hide QueryKey, IdKey, ListKey, FreshById, Listed, Lists, Askable, Fresh, Stored, IdIn;
    forall o | Owns(c, o) && ListKey(c, o) == ListKey(c, owner) ensures o == owner {
      ListKeyInjective(c, o, owner);
    }
    forall q ensures QueryKey(c, q) != ListKey(c, owner) {
      KindsApart(c, q, "", owner);
    }
    forall id ensures IdKey(c, id) != ListKey(c, owner) {
      IdsAndListsApart(c, id, owner);
    }
  }
}
