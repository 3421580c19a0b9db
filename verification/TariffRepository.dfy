/** Whole runs of a tariff repository, and the repository itself. */
module TariffRepository {
  import opened Options
  import opened Documents
  import opened ObjectIds
  import opened TariffLookup
  import opened TariffKeys
  import opened TariffAnswers
  import opened TariffCache
  import opened TariffReplacing

  /** What callers, and the cache itself, may do: entries may vanish any time.
      `list` is the order in which the database returns a list. */
  datatype Op =
    | Find(query: Query)
    | GetById(id: string)
    | GetAll(owner: string, list: seq<Tariff>)
    | Insert(tariff: Tariff)
    | Write(tariff: Tariff)
    | ReplaceAll(owner: string, tariffs: seq<Tariff>)
    | Lose(keys: set<string>)

  function Step(c: Collection, s: State, op: Op): State {
    match op
    case Find(q) => FoundAndCached(c, s, q)
    case GetById(id) => GotAndCached(c, s, id)
    case GetAll(owner, list) => ListedAndCached(c, s, owner, list)
    case Insert(t) => Inserted(c, s, t)
    case Write(t) => Written(c, s, t)
    case ReplaceAll(owner, ts) => AllReplaced(c, s, owner, ts)
    case Lose(keys) => s.(cache := s.cache - keys)
  }

  function Run(c: Collection, s: State, ops: seq<Op>): State
    decreases ops
  {
    if ops == [] then s else Run(c, Step(c, s, ops[0]), ops[1..])
  }

  /** What can happen at all. Only merchants' tariffs are replaced at once. */
  ghost predicate Possible(c: Collection, s: State, op: Op) {
    match op
    case Find(q) => Fits(c, q.owner, q.terms)
    case GetAll(owner, list) => Owns(c, owner) && Lists(c, list, s.db, owner)
    case Insert(t) => Fits(c, t.owner, t.terms)
    case Write(t) => Fits(c, t.owner, t.terms)
    case ReplaceAll(_, ts) => OfMerchants(c) && AllFit(c, ts)
    case _ => true
  }

  /** The database keeps ids unique and writes them in its own way. */
  ghost predicate Kept(c: Collection, db: seq<Tariff>) {
    UniqueIds(db) && WellStored(c, db)
  }

  lemma DbStaysKept(c: Collection, s: State, op: Op)
    requires Kept(c, s.db)
    ensures Kept(c, Step(c, s, op).db)
  {
    hide CachesUpdated, AllCachesUpdated, Stored;
    match op
    case Insert(t) =>
      if Stored(c, t).Some? && !HasId(s.db, TariffId, Stored(c, t).value.id) {
        StoredIsStored(c, t);
        WrittenDb(c, s, t);
        assert forall i :: 0 <= i < |s.db| ==> TariffId(s.db[i]) != Stored(c, t).value.id;
      }
    case Write(t) =>
      if Stored(c, t).Some? {
        StoredIsStored(c, t);
        WrittenDb(c, s, t);
        ReplacedKeepsIds(s.db, Stored(c, t).value);
        ReplacedIsOneOf(s.db, Stored(c, t).value);
      }
    case ReplaceAll(owner, ts) => ReplacingStaysKept(c, s, owner, ts);
    case _ =>
  }

  lemma {:induction false} ReplacedIsOneOf(db: seq<Tariff>, u: Tariff)
    ensures |Replaced(db, TariffId, u)| == |db|
    ensures forall i :: 0 <= i < |db| ==> Replaced(db, TariffId, u)[i] == db[i] || Replaced(db, TariffId, u)[i] == u
  {
    if db != [] {
      ReplacedIsOneOf(db[1..], u);
    }
  }

  lemma ReplacingStaysKept(c: Collection, s: State, owner: string, ts: seq<Tariff>)
    requires Kept(c, s.db)
    ensures Kept(c, AllReplaced(c, s, owner, ts).db)
  {
    if ParseId(owner).Some? {
      var o := ParseId(owner).value;
      AfterReplacing(c, s, owner, o, ts);
      AddedIdsAreUnique(c, s, o, ts);
      DeletedIds(s.db, o);
      var kept, added := ActiveDeleted(s.db, o), AddedOf(c, s, o, ts);
      hide Stored, ActiveDeleted, AddedOf, AllReplaced;
      forall i | 0 <= i < |kept| ensures Stored(c, kept[i]) == Some(kept[i]) {
        assert kept[i] in s.db;
      }
      if AllStorable(c, ts) {
        forall i | 0 <= i < |added| ensures Stored(c, added[i]) == Some(added[i]) {
          assert added[i] == StoredAll(c, ts)[i];
          StoredIsStored(c, ts[i]);
        }
      } else {
        NothingAdded(c, s, o, ts);
      }
    }
  }

  lemma NothingAdded(c: Collection, s: State, o: string, ts: seq<Tariff>)
    requires !AllStorable(c, ts)
    ensures AddedOf(c, s, o, ts) == []
  {
  }

  // Documents and lists

  /** Nothing is cached under other spellings of the tariff's ids. */
  ghost predicate OneSpelling(c: Collection, scope: Scope, s: State, t: Tariff) {
    && (forall id :: IdIn(scope, id) && IdKey(c, id) in s.cache && ReadId(c, id) == ReadId(c, t.id) ==> id == t.id)
    && (forall o :: OwnerIn(c, scope, o) && ListKey(c, o) in s.cache && ReadOwner(c, o) == ReadOwner(c, t.owner) ==>
          o == t.owner)
  }

  /** For reads that spell ids as the database does, a tariff that does is enough. */
  lemma StoredIdsHaveOneSpelling(c: Collection, s: State, t: Tariff)
    requires Canonical(t.id) && OwnerIn(c, AsStored, t.owner)
    ensures OneSpelling(c, AsStored, s, t)
  {
    hide IdKey, ListKey, ParseId;
  }

  /** All the new tariffs are the merchant's and all get in. */
  ghost predicate ReplacesOwn(c: Collection, s: State, o: string, ts: seq<Tariff>) {
    Complete(c, s, o, ts) && forall i :: 0 <= i < |ts| ==> Stored(c, ts[i]).value.owner == o
  }

  /** Only documents that exist are written, and they keep their owner; ids are
      spelled in one way; and what is cached of a merchant whose tariffs are
      replaced has its key among those that are then dropped or set. */
  ghost predicate Sound(c: Collection, scope: Scope, s: State, op: Op) {
    Possible(c, s, op)
    && match op
       case Insert(t) => Stored(c, t).Some? ==> OneSpelling(c, scope, s, t)
       case Write(t) =>
         Stored(c, t).Some? ==>
           OneSpelling(c, scope, s, t)
           && exists i: nat :: Replaces(c, s, t, Stored(c, t).value, i) && s.db[i].owner == Stored(c, t).value.owner
       case ReplaceAll(owner, ts) =>
         ParseId(owner).Some? ==>
           var o := ParseId(owner).value;
           && ReplacesOwn(c, s, o, ts)
           && (forall id :: IdIn(scope, id) && IdKey(c, id) in s.cache && s.cache[IdKey(c, id)].Document?
                            && Stored(c, s.cache[IdKey(c, id)].tariff).Some?
                            && Stored(c, s.cache[IdKey(c, id)].tariff).value.owner == o ==>
                 exists i :: 0 <= i < |ts| && ts[i].id == id)
           && (forall p :: OwnerIn(c, scope, p) && ListKey(c, p) in s.cache && ReadOwner(c, p) == Some(o) ==>
                 AnyOwned(ts, p))
       case _ => true
  }

  ghost predicate SoundRun(c: Collection, scope: Scope, s: State, ops: seq<Op>)
    decreases ops
  {
    ops == [] || (Sound(c, scope, s, ops[0]) && SoundRun(c, scope, Step(c, s, ops[0]), ops[1..]))
  }

  lemma SoundWrite(c: Collection, scope: Scope, s: State, t: Tariff)
    requires IdsCoherent(c, scope, s) && ListsCoherent(c, scope, s) && Sound(c, scope, s, Op.Write(t))
    ensures IdsCoherent(c, scope, Written(c, s, t)) && ListsCoherent(c, scope, Written(c, s, t))
  {
    if Stored(c, t).Some? {
      var u := Stored(c, t).value;
      var i: nat :| Replaces(c, s, t, u, i) && s.db[i].owner == u.owner;
      StoredIsStored(c, t);
      hide IdKey, ListKey, Written, Stored, ReadId, ReadOwner, IdIn, UniqueIds;
      WriteKeepsIds(c, scope, s, i, t, u);
      WriteKeepsLists(c, scope, s, i, t, u);
      forall o | OwnerIn(c, scope, o) && ListKey(c, o) in s.cache && o != t.owner
        ensures ReadOwner(c, o).Some? && ListSame(c, s.db[i], u, ReadOwner(c, o).value)
      {
        assert ListRight(c, s, o);
      }
    }
  }

  lemma SoundInsert(c: Collection, scope: Scope, s: State, t: Tariff)
    requires IdsCoherent(c, scope, s) && ListsCoherent(c, scope, s) && Sound(c, scope, s, Op.Insert(t))
    ensures IdsCoherent(c, scope, Inserted(c, s, t)) && ListsCoherent(c, scope, Inserted(c, s, t))
  {
    InsertKeepsIds(c, scope, s, t);
    if Stored(c, t).Some? && !HasId(s.db, TariffId, Stored(c, t).value.id) {
      var u := Stored(c, t).value;
      StoredIsStored(c, t);
      hide IdKey, ListKey, Inserted, Stored, ReadId, ReadOwner, IdIn, HasId;
      InsertKeepsLists(c, scope, s, t, u);
      forall o | OwnerIn(c, scope, o) && ListKey(c, o) in s.cache && o != t.owner
        ensures ReadOwner(c, o).Some? && !OnList(c, u, ReadOwner(c, o).value)
      {
        assert ListRight(c, s, o);
      }
    }
  }

  lemma OwnAddedOnly(c: Collection, s: State, o: string, ts: seq<Tariff>)
    requires ReplacesOwn(c, s, o, ts) && UniqueIds(s.db)
    ensures forall i :: 0 <= i < |AddedOf(c, s, o, ts)| ==> AddedOf(c, s, o, ts)[i].owner == o
  {
    AddedIdsAreUnique(c, s, o, ts);
    hide Stored, AddedOf;
  }

  lemma {:induction false} NoneListed(c: Collection, db: seq<Tariff>, p: string)
    requires forall i :: 0 <= i < |db| ==> db[i].owner != p
    ensures Listed(c, db, p) == []
  {
    if db != [] {
      NoneListed(c, db[..|db| - 1], p);
    }
  }

  lemma SoundReplacing(c: Collection, scope: Scope, s: State, owner: string, ts: seq<Tariff>)
    requires UniqueIds(s.db) && IdsCoherent(c, scope, s) && ListsCoherent(c, scope, s)
    requires Sound(c, scope, s, Op.ReplaceAll(owner, ts))
    ensures IdsCoherent(c, scope, AllReplaced(c, s, owner, ts)) && ListsCoherent(c, scope, AllReplaced(c, s, owner, ts))
  {
    if ParseId(owner).Some? {
      var o := ParseId(owner).value;
      OwnAddedOnly(c, s, o, ts);
      hide IdKey, ListKey, Stored, ReadId, ReadOwner, IdIn, AddedOf, AllReplaced, UniqueIds, AnyOwned;
      ReplacingKeepsIds(c, scope, s, owner, o, ts);
      ReplacingKeepsLists(c, scope, s, owner, o, ts);
      forall id | IdIn(scope, id) && IdKey(c, id) in s.cache && !IdReached(c, s, o, ts, id)
        ensures DocumentRight(c, s, id) && DocumentUnaffected(c, s, o, ts, id)
      {
        assert DocumentRight(c, s, id);
      }
      forall p | OwnerIn(c, scope, p) && ListKey(c, p) in s.cache && !ListReached(c, s, o, ts, p)
        ensures ListUnaffected(c, s, o, ts, ReadOwner(c, p).value)
      {
        assert ListRight(c, s, p);
        NoneListed(c, AddedOf(c, s, o, ts), ReadOwner(c, p).value);
      }
    }
  }

  lemma SoundStep(c: Collection, scope: Scope, s: State, op: Op)
    requires Kept(c, s.db) && IdsCoherent(c, scope, s) && ListsCoherent(c, scope, s) && Sound(c, scope, s, op)
    ensures IdsCoherent(c, scope, Step(c, s, op)) && ListsCoherent(c, scope, Step(c, s, op))
  {
    match op
    case Find(q) => FindKeepsCoherence(c, scope, s, q);
    case GetById(id) => GetKeepsCoherence(c, scope, s, id);
    case GetAll(owner, list) => ListKeepsCoherence(c, scope, s, owner, list);
    case Insert(t) => SoundInsert(c, scope, s, t);
    case Write(t) => SoundWrite(c, scope, s, t);
    case ReplaceAll(owner, ts) => SoundReplacing(c, scope, s, owner, ts);
    case Lose(keys) => LosingIsHarmless(c, scope, s, keys);
  }

  lemma LosingIsHarmless(c: Collection, scope: Scope, s: State, keys: set<string>)
    ensures var t := s.(cache := s.cache - keys);
            && (QueriesCoherent(c, scope, s) ==> QueriesCoherent(c, scope, t))
            && (IdsCoherent(c, scope, s) ==> IdsCoherent(c, scope, t))
            && (ListsCoherent(c, scope, s) ==> ListsCoherent(c, scope, t))
  {
    hide IdKey, ListKey, QueryKey, Asked, OwnerIn, IdIn, Fresh, FreshById, Lists, Stored;
  }

  /** In every run that writes only existing documents, keeps their owner, spells
      ids in one way, and replaces a merchant's tariffs completely and only where
      the cache is reached, GetById and the lists always answer what the
      collection would: to reads in any spelling, or to those that spell ids as
      the database does whatever other spellings are read. */
  lemma {:induction false} IdsAndListsStayCoherent(c: Collection, scope: Scope, s: State, ops: seq<Op>)
    requires Kept(c, s.db) && IdsCoherent(c, scope, s) && ListsCoherent(c, scope, s) && SoundRun(c, scope, s, ops)
    ensures IdsCoherent(c, scope, Run(c, s, ops)) && ListsCoherent(c, scope, Run(c, s, ops))
    decreases ops
  {
    hide IdsCoherent, ListsCoherent, Sound, Step, Kept;
    if ops != [] {
      SoundStep(c, scope, s, ops[0]);
      DbStaysKept(c, s, ops[0]);
      IdsAndListsStayCoherent(c, scope, Step(c, s, ops[0]), ops[1..]);
    }
  }

  // Queries

  /** Writes keep the key fields and are never generic, nor are inserts; names and
      merchants are spelled alike; and the cached queries of a merchant whose
      tariffs are replaced have their keys among those that are then dropped. */
  ghost predicate Careful(c: Collection, scope: Scope, s: State, op: Op) {
    Possible(c, s, op)
    && match op
       case Insert(t) => t.country != GENERIC && SpelledAlike(c, scope, s, t)
       case Write(t) =>
         Stored(c, t).Some? ==>
           && t.country != GENERIC && SpelledAlike(c, scope, s, t)
           && exists i: nat :: Replaces(c, s, t, Stored(c, t).value, i) && KeepsKey(Stored(c, t).value, s.db[i])
       case ReplaceAll(owner, ts) =>
         ParseId(owner).Some? ==>
           var o := ParseId(owner).value;
           && ReplacesOwn(c, s, o, ts)
           && forall q :: Asked(c, scope, q) && QueryKey(c, q) in s.cache && ReadOwner(c, q.owner) == Some(o) ==>
                AnyEvicts(ts, q)
       case _ => true
  }

  ghost predicate CarefulRun(c: Collection, scope: Scope, s: State, ops: seq<Op>)
    decreases ops
  {
    ops == [] || (Careful(c, scope, s, ops[0]) && CarefulRun(c, scope, Step(c, s, ops[0]), ops[1..]))
  }

  lemma CarefulWrite(c: Collection, scope: Scope, s: State, t: Tariff)
    requires QueriesCoherent(c, scope, s) && Careful(c, scope, s, Op.Write(t))
    ensures QueriesCoherent(c, scope, Written(c, s, t))
  {
    if Stored(c, t).Some? {
      var u := Stored(c, t).value;
      var i: nat :| Replaces(c, s, t, u, i) && KeepsKey(u, s.db[i]);
      hide QueriesCoherent, Stored, Written, SpelledAlike, Askable, Fits, QueryKey, UniqueIds, KeepsKey;
      CountryWriteIsSafe(c, scope, s, i, t, u);
    }
  }

  lemma CarefulReplacing(c: Collection, scope: Scope, s: State, owner: string, ts: seq<Tariff>)
    requires UniqueIds(s.db) && QueriesCoherent(c, scope, s) && Careful(c, scope, s, Op.ReplaceAll(owner, ts))
    ensures QueriesCoherent(c, scope, AllReplaced(c, s, owner, ts))
  {
    if ParseId(owner).Some? {
      var o := ParseId(owner).value;
      OwnAddedOnly(c, s, o, ts);
      hide QueryKey, Askable, Fresh, Stored, ReadId, AddedOf, AllReplaced, UniqueIds, AnyEvicts, OwnerIn;
      ReplacingKeepsQueries(c, scope, s, owner, o, ts);
      forall q | Asked(c, scope, q) && QueryKey(c, q) in s.cache && !QueryReached(c, s, o, ts, q)
        ensures Unaffected(c, s, o, ts, q)
      {
        if Resolved(c, q).Some? && Resolved(c, q).value.owner != o {
          NoneOfAnother(AddedOf(c, s, o, ts), Resolved(c, q).value);
        }
      }
    }
  }

  lemma {:induction false} NoneOfAnother(db: seq<Tariff>, r: Query)
    requires forall i :: 0 <= i < |db| ==> db[i].owner != r.owner
    ensures Matching(db, r) == []
  {
    if db != [] {
      NoneOfAnother(db[..|db| - 1], r);
    }
  }

  lemma CarefulStep(c: Collection, scope: Scope, s: State, op: Op)
    requires Kept(c, s.db) && QueriesCoherent(c, scope, s) && Careful(c, scope, s, op)
    ensures QueriesCoherent(c, scope, Step(c, s, op))
  {
    match op
    case Find(q) => FindKeepsCoherence(c, scope, s, q);
    case GetById(id) => GetKeepsCoherence(c, scope, s, id);
    case GetAll(owner, list) => ListKeepsCoherence(c, scope, s, owner, list);
    case Insert(t) => CountryInsertIsSafe(c, scope, s, t);
    case Write(t) => CarefulWrite(c, scope, s, t);
    case ReplaceAll(owner, ts) => CarefulReplacing(c, scope, s, owner, ts);
    case Lose(keys) => LosingIsHarmless(c, scope, s, keys);
  }

  /** In every run that maintains country tariffs only, spells names and merchants
      in one way, and replaces a merchant's tariffs completely and only where the
      cache is reached, Find always answers what the collection would to every
      query without a colon, whatever entries the cache loses and whatever else is
      asked: in any spelling of the merchant, or in the database's own whatever
      other spellings are read. */
  lemma {:induction false} FindStaysCoherent(c: Collection, scope: Scope, s: State, ops: seq<Op>)
    requires Kept(c, s.db) && QueriesCoherent(c, scope, s) && CarefulRun(c, scope, s, ops)
    ensures QueriesCoherent(c, scope, Run(c, s, ops))
    decreases ops
  {
    hide QueriesCoherent, Careful, Step, Kept;
    if ops != [] {
      CarefulStep(c, scope, s, ops[0]);
      DbStaysKept(c, s, ops[0]);
      FindStaysCoherent(c, scope, Step(c, s, ops[0]), ops[1..]);
    }
  }

  // The repository

  lemma AskedInAnySpelling(c: Collection, q: Query)
    ensures Askable(c, q) ==> Asked(c, AnySpelling, q)
  {
  }

  lemma DroppedInTurn(m: map<string, Entry>, a: string, b: string, c: string, d: string)
    ensures m - {a} - {b} - {c} - {d} == m - {a, b, c, d}
  {
  }

  class Repository {
    const c: Collection
    var db: seq<Tariff>
    var cache: map<string, Entry>

    constructor (c: Collection)
      ensures this.c == c && Now() == State([], map[])
    {
      this.c := c;
      db, cache := [], map[];
    }

    function Now(): State reads this {
      State(db, cache)
    }

    method Find(q: Query) returns (r: Reply)
      requires Fits(c, q.owner, q.terms)
      modifies this`cache
      ensures Now() == Step(c, old(Now()), Op.Find(q))
      ensures r == if QueryKey(c, q) in old(cache) && old(cache)[QueryKey(c, q)].Answer?
                   then old(cache)[QueryKey(c, q)].reply else Fresh(c, db, q)
      ensures old(QueriesCoherent(c, AnySpelling, Now())) && Askable(c, q) ==> r == Fresh(c, db, q)
      ensures old(QueriesCoherent(c, AsStored, Now())) && Asked(c, AsStored, q) ==> r == Fresh(c, db, q)
    {
      var key := QueryKey(c, q);
      hide QueryKey, Fresh, Askable, OwnerIn;
      AskedInAnySpelling(c, q);
      if key in cache && cache[key].Answer? {
        return cache[key].reply;
      }
      r := Fresh(c, db, q);
      if r != NoDocuments && r != Refused {
        cache := cache[key := Answer(r)];
      }
    }

    /** A cached document has its ids as they were spelled when it was written. */
    method GetById(id: string) returns (r: Option<Tariff>)
      modifies this`cache
      ensures Now() == Step(c, old(Now()), Op.GetById(id))
      ensures r == if IdKey(c, id) in old(cache) && old(cache)[IdKey(c, id)].Document?
                   then Some(old(cache)[IdKey(c, id)].tariff) else FreshById(c, db, id)
      ensures WellStored(c, db)
              && (old(IdsCoherent(c, AnySpelling, Now())) || (Canonical(id) && old(IdsCoherent(c, AsStored, Now())))) ==>
                if r.None? then FreshById(c, db, id) == None else Stored(c, r.value) == FreshById(c, db, id)
    {
      var key := IdKey(c, id);
      if WellStored(c, db) && FreshById(c, db, id).Some? {
        StoredIfRead(c, db, id);
      }
      hide IdKey, FreshById, Stored, WellStored;
      if key in cache && cache[key].Document? {
        return Some(cache[key].tariff);
      }
      r := FreshById(c, db, id);
      if r.Some? {
        cache := cache[key := Document(r.value)];
      }
    }

    /** `list` is the database's answer, should it be asked; none if it is not,
        because the merchant's id cannot be read. */
    method GetAll(owner: string, list: Option<seq<Tariff>>) returns (r: Option<seq<Tariff>>)
      requires Owns(c, owner)
      requires if list.Some? then Lists(c, list.value, db, owner) else ReadOwner(c, owner).None?
      modifies this`cache
      ensures list.Some? ==> Now() == Step(c, old(Now()), Op.GetAll(owner, list.value))
      ensures list.None? ==> Now() == old(Now())
      ensures r == if ListKey(c, owner) in old(cache) && old(cache)[ListKey(c, owner)].Listing?
                   then Some(old(cache)[ListKey(c, owner)].tariffs) else list
      ensures old(ListsCoherent(c, AnySpelling, Now())) || (OwnerIn(c, AsStored, owner) && old(ListsCoherent(c, AsStored, Now()))) ==>
                if r.Some? then Lists(c, r.value, db, owner) else ReadOwner(c, owner).None?
    {
      var key := ListKey(c, owner);
      hide ListKey, Lists, ReadOwner;
      assert old(ListsCoherent(c, AnySpelling, Now())) ==> OwnerIn(c, AnySpelling, owner);
      if key in cache && cache[key].Listing? {
        return Some(cache[key].tariffs);
      }
      if list.None? {
        return None;
      }
      cache := cache[key := Listing(list.value)];
      return list;
    }

    method UpdateCaches(t: Tariff)
      modifies this`cache
      ensures Now() == CachesUpdated(c, old(Now()), t)
    {
      var groupKeys := [QueryKey(c, QueryFor(t, t.country)), QueryKey(c, QueryFor(t, GENERIC)), ListKey(c, t.owner)];
      var key := IdKey(c, t.id);
      hide QueryKey, ListKey, IdKey;
      DroppedInTurn(cache, groupKeys[0], groupKeys[1], groupKeys[2], key);
      cache := cache - {groupKeys[0]};
      cache := cache - {groupKeys[1]};
      cache := cache - {groupKeys[2]};
      cache := cache - {key};
      if t.active {
        cache := cache[key := Document(t)];
      }
    }

    method Insert(t: Tariff) returns (ok: bool)
      requires Fits(c, t.owner, t.terms)
      modifies this
      ensures ok == (Stored(c, t).Some? && !HasId(old(db), TariffId, Stored(c, t).value.id))
      ensures Now() == Step(c, old(Now()), Op.Insert(t.(active := true)))
    {
      var given := t.(active := true);
      var stored := Stored(c, given);
      hide CachesUpdated, HasId;
      ok := stored.Some? && !HasId(db, TariffId, stored.value.id);
      if ok {
        db := db + [stored.value];
        UpdateCaches(given);
      }
    }

    method Update(t: Tariff) returns (ok: bool)
      requires Fits(c, t.owner, t.terms)
      modifies this
      ensures ok == Stored(c, t).Some?
      ensures Now() == Step(c, old(Now()), Op.Write(if c.ChannelMerchant? then t else t.(active := true)))
    {
      ok := Replace(if c.ChannelMerchant? then t else t.(active := true));
    }

    method Delete(t: Tariff) returns (ok: bool)
      requires Fits(c, t.owner, t.terms)
      modifies this
      ensures ok == Stored(c, t).Some?
      ensures Now() == Step(c, old(Now()), Op.Write(t.(active := false)))
    {
      ok := Replace(t.(active := false));
    }

    method Replace(t: Tariff) returns (ok: bool)
      requires Fits(c, t.owner, t.terms)
      modifies this
      ensures ok == Stored(c, t).Some?
      ensures Now() == Written(c, old(Now()), t)
    {
      var stored := Stored(c, t);
      hide CachesUpdated;
      if stored.None? {
        return false;
      }
      db := Replaced(db, TariffId, stored.value);
      UpdateCaches(t);
      return true;
    }

    method DeleteAndInsertMany(owner: string, ts: seq<Tariff>) returns (ok: bool)
      requires OfMerchants(c) && AllFit(c, ts)
      modifies this
      ensures Now() == Step(c, old(Now()), Op.ReplaceAll(owner, Activated(c, ts)))
      ensures ok ==> ts != [] && |db| >= |ts|
      ensures ok == (ParseId(owner).Some? && Complete(c, old(Now()), ParseId(owner).value, Activated(c, ts)))
    {
      hide CachesUpdated, Fits, Stored;
      var oid := ParseId(owner);
      if oid.None? {
        return false;
      }
      ghost var was := Now();
      db := ActiveDeleted(db, oid.value);
      var given := Activated(c, ts);
      if !AllStorable(c, given) {
        assert db + [] == db;
        return false;
      }
      var added := Admitted(db, TariffId, StoredAll(c, given));
      assert added == AddedOf(c, was, oid.value, given);
      db := db + added;
      if ts == [] || |added| < |ts| {
        return false;
      }
      ghost var before := Now();
      for i := 0 to |given|
        invariant db == before.db
        invariant AllCachesUpdated(c, Now(), given[i..]) == AllCachesUpdated(c, before, given)
      {
        assert given[i..][1..] == given[i + 1..];
        UpdateCaches(given[i]);
      }
      return true;
    }
  }
}
