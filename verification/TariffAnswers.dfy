/** What the four tariff collections answer, and which answers a change of one
    document changes. */
module TariffAnswers {
  import opened Options
  import opened Documents
  import opened ObjectIds
  import opened TariffLookup
  import opened TariffKeys

  // Ids and how they are spelled. The database reads their value and writes them
  // in lower case, the cache goes by the text.

  const ZERO_ID := "000000000000000000000000"

  /** The id a text stands for when it is read by. Two of the collections take a
      text that is no id for the zero id. */
  function ReadId(c: Collection, text: string): Option<string> {
    if ParseId(text).Some? then ParseId(text)
    else if c.ChannelSystem? || c.ChannelMerchant? then Some(ZERO_ID)
    else None
  }

  /** Only collections of merchants have owners. */
  predicate Owns(c: Collection, owner: string) {
    !OfMerchants(c) ==> owner == ""
  }

  function ReadOwner(c: Collection, owner: string): Option<string> {
    if OfMerchants(c) then ReadId(c, owner) else Some(owner)
  }

  /** A text of 24 hex digits stands for the id in lower case; any other for 24
      zeros in the two collections for channels, and for nothing in the others. */
  lemma MalformedIdsRead(c: Collection, text: string)
    ensures ParseId(text).Some? ==> ReadId(c, text) == ParseId(text)
    ensures ParseId(text).None? ==>
              ReadId(c, text) == if c in {ChannelSystem, ChannelMerchant} then Some(seq(24, i => '0')) else None
  {
    assert ZERO_ID == seq(24, i => '0');
  }

  /** The document the database stores for a tariff, if its ids are ids. */
  function Stored(c: Collection, t: Tariff): Option<Tariff> {
    var owner := if OfMerchants(c) then ParseId(t.owner) else Some(t.owner);
    if ParseId(t.id).None? || owner.None? then None
    else Some(t.(id := ParseId(t.id).value, owner := owner.value))
  }

  lemma StoredIsStored(c: Collection, t: Tariff)
    requires Stored(c, t).Some?
    ensures Stored(c, Stored(c, t).value) == Stored(c, t)
    ensures ReadId(c, t.id) == Some(Stored(c, t).value.id)
    ensures ReadOwner(c, t.owner) == Some(Stored(c, t).value.owner)
  {
    ParsedIsCanonical(t.id);
    ParsedIsCanonical(t.owner);
  }

  ghost predicate WellStored(c: Collection, db: seq<Tariff>) {
    forall i :: 0 <= i < |db| ==> Stored(c, db[i]) == Some(db[i])
  }

  // Answers

  datatype Reply = One(tariff: Tariff) | Many(sets: seq<CountrySet>) | NoDocuments | Refused

  /** One collection answers with a single tariff or reports no documents; the
      others answer with a list of sets. */
  function FreshOf(c: Collection, db: seq<Tariff>, q: Query): Reply {
    if c.ChannelSystem? then
      var t := Single(db, q);
      if t.None? then NoDocuments else One(t.value)
    else Many(Sets(db, q))
  }

  /** The query the database is asked, if the merchant's id can be read. */
  function Resolved(c: Collection, q: Query): Option<Query> {
    var owner := ReadOwner(c, q.owner);
    if owner.None? then None else Some(q.(owner := owner.value))
  }

  function Fresh(c: Collection, db: seq<Tariff>, q: Query): Reply {
    if Resolved(c, q).None? then Refused else FreshOf(c, db, Resolved(c, q).value)
  }

  function TariffId(t: Tariff): string {
    t.id
  }

  function ById(db: seq<Tariff>, id: string): Option<Tariff> {
    if db == [] then None
    else if db[0].id == id && db[0].active then Some(db[0])
    else ById(db[1..], id)
  }

  /** Inactive tariffs are on the lists of one collection. */
  predicate OnList(c: Collection, t: Tariff, owner: string) {
    t.owner == owner && (t.active || c.ChannelMerchant?)
  }

  function Listed(c: Collection, db: seq<Tariff>, owner: string): seq<Tariff> {
    if db == [] then []
    else
      var rest := Listed(c, db[..|db| - 1], owner);
      if OnList(c, db[|db| - 1], owner) then rest + [db[|db| - 1]] else rest
  }

  /** What is read by an id, in any spelling. */
  function FreshById(c: Collection, db: seq<Tariff>, id: string): Option<Tariff> {
    var oid := ReadId(c, id);
    if oid.None? then None else ById(db, oid.value)
  }

  /** The list of an owner, in whatever order: the source sorts by several fields
      at once, whose precedence it leaves to an unordered map. */
  predicate Lists(c: Collection, list: seq<Tariff>, db: seq<Tariff>, owner: string) {
    ReadOwner(c, owner).Some? && multiset(list) == multiset(Listed(c, db, ReadOwner(c, owner).value))
  }

  ghost predicate UniqueIds(db: seq<Tariff>) {
    forall i, j :: 0 <= i < j < |db| ==> db[i].id != db[j].id
  }

  // Which answers a write changes

  /** The tariff is, or is among, what the query is answered with. */
  predicate AnswersOf(c: Collection, db: seq<Tariff>, q: Query, t: Tariff) {
    if c.ChannelSystem? then Single(db, q) == Some(t) else t in db && Matches(t, q)
  }

  lemma {:induction false} MatchingConcat(a: seq<Tariff>, b: seq<Tariff>, q: Query)
    ensures Matching(a + b, q) == Matching(a, q) + Matching(b, q)
  {
    hide Matches;
    if b == [] {
      assert a + b == a;
    } else {
      var n := |b| - 1;
      MatchingConcat(a, b[..n], q);
      assert (a + b)[..|a + b| - 1] == a + b[..n];
    }
  }

  lemma {:induction false} ForCountryConcat(a: seq<Tariff>, b: seq<Tariff>, country: string)
    ensures ForCountry(a + b, country) == ForCountry(a, country) + ForCountry(b, country)
  {
    if b == [] {
      assert a + b == a;
    } else {
      var n := |b| - 1;
      ForCountryConcat(a, b[..n], country);
      assert (a + b)[..|a + b| - 1] == a + b[..n];
    }
  }

  /** A document that is not the answer does not matter to the answer. */
  lemma NonAnswerIsIdle(a: seq<Tariff>, t: Tariff, b: seq<Tariff>, q: Query)
    ensures Single(a + [t] + b, q) == Some(t) || Single(a + [t] + b, q) == Single(a + b, q)
  {
    SingleIsSpecificElseGeneric(a + [t] + b, q);
    SingleIsSpecificElseGeneric(a + b, q);
    SplitAround(a, t, b, q, q.country);
    SplitAround(a, t, b, q, GENERIC);
  }

  lemma SplitAround(a: seq<Tariff>, t: Tariff, b: seq<Tariff>, q: Query, country: string)
    ensures var l, r := ForCountry(Matching(a, q), country), ForCountry(Matching(b, q), country);
            && ForCountry(Matching(a + b, q), country) == l + r
            && ForCountry(Matching(a + [t] + b, q), country)
               == if Matches(t, q) && t.country == country then l + [t] + r else l + r
  {
    MatchingConcat(a, b, q);
    MatchingConcat(a + [t], b, q);
    MatchingConcat(a, [t], q);
    ForCountryConcat(Matching(a, q), Matching(b, q), country);
    ForCountryConcat(Matching(a + [t], q), Matching(b, q), country);
    ForCountryConcat(Matching(a, q), Matching([t], q), country);
    assert [t][..0] == [];
  }

  lemma SingleIsStored(db: seq<Tariff>, q: Query)
    ensures Single(db, q).Some? ==> Single(db, q).value in db && Matches(Single(db, q).value, q)
  {
    SingleIsSpecificElseGeneric(db, q);
    if Specific(db, q) != [] {
      assert Specific(db, q)[0] in Matching(db, q);
    } else if Generic(db, q) != [] {
      assert Generic(db, q)[0] in Matching(db, q);
    }
  }

  /** Replacing a document changes the answer to a query exactly if the old one
      was, or the new one is, part of that answer. */
  lemma ReplacingChangesAnswer(c: Collection, a: seq<Tariff>, was: Tariff, now: Tariff, b: seq<Tariff>, q: Query)
    requires UniqueIds(a + [was] + b) && was.id == now.id
    ensures var before, after := a + [was] + b, a + [now] + b;
            FreshOf(c, after, q) != FreshOf(c, before, q)
            <==> was != now && (AnswersOf(c, before, q, was) || AnswersOf(c, after, q, now))
  {
    var before, after := a + [was] + b, a + [now] + b;
    if was != now {
      OnlyOneWithId(a, was, now, b);
      if c.ChannelSystem? {
        NonAnswerIsIdle(a, was, b, q);
        NonAnswerIsIdle(a, now, b, q);
        SingleIsStored(before, q);
        SingleIsStored(after, q);
      } else {
        MatchingAround(a, was, b, q);
        MatchingAround(a, now, b, q);
        SetsPartitionMatches(before, q, was);
        SetsPartitionMatches(after, q, was);
        SetsPartitionMatches(before, q, now);
        SetsPartitionMatches(after, q, now);
      }
    }
  }

  lemma OnlyOneWithId(a: seq<Tariff>, was: Tariff, now: Tariff, b: seq<Tariff>)
    requires UniqueIds(a + [was] + b) && was.id == now.id && was != now
    ensures was !in a + [now] + b && now !in a + [was] + b
    ensures was in a + [was] + b && now in a + [now] + b
  {
    var db := a + [was] + b;
    assert db[|a|] == was && (a + [now] + b)[|a|] == now;
    forall i | 0 <= i < |a| ensures a[i].id != was.id {
      assert db[i] == a[i];
    }
    forall i | 0 <= i < |b| ensures b[i].id != was.id {
      assert db[|a| + 1 + i] == b[i];
    }
  }

  lemma MatchingAround(a: seq<Tariff>, t: Tariff, b: seq<Tariff>, q: Query)
    ensures !Matches(t, q) ==> Matching(a + [t] + b, q) == Matching(a, q) + Matching(b, q)
  {
    MatchingConcat(a + [t], b, q);
    MatchingConcat(a, [t], q);
    assert [t][..0] == [];
  }

  /** Inserting changes it exactly if the new document is part of the answer. */
  lemma InsertingChangesAnswer(c: Collection, db: seq<Tariff>, t: Tariff, q: Query)
    requires !HasId(db, TariffId, t.id)
    ensures FreshOf(c, db + [t], q) != FreshOf(c, db, q) <==> AnswersOf(c, db + [t], q, t)
  {
    assert t !in db;
    assert (db + [t])[|db|] == t;
    assert db + [t] == db + [t] + [] && db == db + [];
    if c.ChannelSystem? {
      NonAnswerIsIdle(db, t, [], q);
      SingleIsStored(db, q);
      SingleIsStored(db + [t], q);
    } else {
      MatchingAround(db, t, [], q);
      SetsPartitionMatches(db, q, t);
      SetsPartitionMatches(db + [t], q, t);
    }
  }

  lemma {:induction false} ByIdOfUnique(db: seq<Tariff>, i: nat)
    requires UniqueIds(db) && i < |db|
    ensures ById(db, db[i].id) == if db[i].active then Some(db[i]) else None
  {
    if i > 0 {
      ByIdOfUnique(db[1..], i - 1);
    } else {
      NoSuchId(db[1..], db[0].id);
    }
  }

  lemma {:induction false} NoSuchId(db: seq<Tariff>, id: string)
    requires forall i :: 0 <= i < |db| ==> db[i].id != id
    ensures ById(db, id) == None
  {
    if db != [] {
      NoSuchId(db[1..], id);
    }
  }

  lemma {:induction false} ByIdConcat(a: seq<Tariff>, b: seq<Tariff>, id: string)
    ensures ById(a + b, id) == if ById(a, id).Some? then ById(a, id) else ById(b, id)
  {
    if a == [] {
      assert a + b == b;
    } else {
      ByIdConcat(a[1..], b, id);
      assert (a + b)[1..] == a[1..] + b;
    }
  }

  lemma {:induction false} ListedConcat(c: Collection, a: seq<Tariff>, b: seq<Tariff>, owner: string)
    ensures Listed(c, a + b, owner) == Listed(c, a, owner) + Listed(c, b, owner)
  {
    if b == [] {
      assert a + b == a;
    } else {
      var n := |b| - 1;
      ListedConcat(c, a, b[..n], owner);
      assert (a + b)[..|a + b| - 1] == a + b[..n];
    }
  }

  lemma ListedOne(c: Collection, t: Tariff, owner: string)
    ensures Listed(c, [t], owner) == if OnList(c, t, owner) then [t] else []
  {
    assert [t][..0] == [];
  }

  lemma ListedAround(c: Collection, a: seq<Tariff>, t: Tariff, b: seq<Tariff>, owner: string)
    ensures Listed(c, a + [t] + b, owner)
            == Listed(c, a, owner) + Listed(c, [t], owner) + Listed(c, b, owner)
    ensures t.owner != owner ==> Listed(c, [t], owner) == []
  {
    ListedConcat(c, a + [t], b, owner);
    ListedConcat(c, a, [t], owner);
    ListedOne(c, t, owner);
  }

  lemma {:induction false} ReplacedKeepsIds(db: seq<Tariff>, t: Tariff)
    ensures |Replaced(db, TariffId, t)| == |db|
    ensures forall i :: 0 <= i < |db| ==> Replaced(db, TariffId, t)[i].id == db[i].id
  {
    if db != [] {
      ReplacedKeepsIds(db[1..], t);
    }
  }

  // What reads by id and by owner answer

  /** A tariff is read by an id, in either case, exactly if it is stored under it
      and active. */
  lemma ReadByIdMeans(c: Collection, db: seq<Tariff>, id: string, t: Tariff)
    requires UniqueIds(db)
    ensures FreshById(c, db, id) == Some(t) <==> t in db && t.active && ReadId(c, id) == Some(t.id)
  {
    if ReadId(c, id).Some? {
      ByIdIsStored(db, ReadId(c, id).value);
      if t in db && t.id == ReadId(c, id).value {
        var i :| 0 <= i < |db| && db[i] == t;
        ByIdOfUnique(db, i);
      }
    }
  }

  /** A list holds the tariffs of its owner, in either case of his id, each as
      often as it is stored; inactive ones only in one collection. */
  lemma ListHolds(c: Collection, list: seq<Tariff>, db: seq<Tariff>, owner: string, t: Tariff)
    requires Lists(c, list, db, owner)
    ensures multiset(list)[t]
            == if ReadOwner(c, owner) == Some(t.owner) && (t.active || c == ChannelMerchant) then multiset(db)[t] else 0
  {
    ListedCounts(c, db, ReadOwner(c, owner).value, t);
  }

  lemma {:induction false} ListedCounts(c: Collection, db: seq<Tariff>, owner: string, t: Tariff)
    ensures multiset(Listed(c, db, owner))[t]
            == if t.owner == owner && (t.active || c == ChannelMerchant) then multiset(db)[t] else 0
  {
    if db != [] {
      var n := |db| - 1;
      ListedCounts(c, db[..n], owner, t);
      assert db == db[..n] + [db[n]];
    }
  }

  // The same for queries that spell the merchant's id in any way

  predicate Answers(c: Collection, db: seq<Tariff>, q: Query, t: Tariff) {
    Resolved(c, q).Some? && AnswersOf(c, db, Resolved(c, q).value, t)
  }

  lemma ReplacingChangesFresh(c: Collection, a: seq<Tariff>, was: Tariff, now: Tariff, b: seq<Tariff>, q: Query)
    requires UniqueIds(a + [was] + b) && was.id == now.id
    ensures var before, after := a + [was] + b, a + [now] + b;
            Fresh(c, after, q) != Fresh(c, before, q)
            <==> was != now && (Answers(c, before, q, was) || Answers(c, after, q, now))
  {
    hide FreshOf, AnswersOf, UniqueIds;
    if Resolved(c, q).Some? {
      ReplacingChangesAnswer(c, a, was, now, b, Resolved(c, q).value);
    }
  }

  lemma InsertingChangesFresh(c: Collection, db: seq<Tariff>, t: Tariff, q: Query)
    requires !HasId(db, TariffId, t.id)
    ensures Fresh(c, db + [t], q) != Fresh(c, db, q) <==> Answers(c, db + [t], q, t)
  {
    hide FreshOf, AnswersOf, HasId;
    if Resolved(c, q).Some? {
      InsertingChangesAnswer(c, db, t, Resolved(c, q).value);
    }
  }

  lemma CoveredIfAnswered(c: Collection, db: seq<Tariff>, q: Query, t: Tariff)
    requires Answers(c, db, q, t)
    ensures t in db && Matches(t, Resolved(c, q).value)
  {
    SingleIsStored(db, Resolved(c, q).value);
  }

  lemma {:induction false} ByIdIsStored(db: seq<Tariff>, id: string)
    ensures ById(db, id).Some? ==> ById(db, id).value in db && ById(db, id).value.id == id && ById(db, id).value.active
    ensures ById(db, id).None? ==> forall t :: t in db && t.id == id ==> !t.active
  {
    if db != [] {
      ByIdIsStored(db[1..], id);
    }
  }
}
