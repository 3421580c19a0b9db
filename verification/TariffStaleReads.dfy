/** Runs that begin with an empty cache and end with a wrong read: what goes wrong
    where the theorems on whole runs do not reach. */
module TariffStaleReads {
  import opened Options
  import opened Documents
  import opened ObjectIds
  import opened TariffLookup
  import opened TariffKeys
  import opened TariffAnswers
  import opened TariffCache
  import opened TariffReplacing
  import opened TariffRepository

  lemma RunOfOne(c: Collection, s: State, op: Op)
    ensures Run(c, s, [op]) == Step(c, s, op)
  {
    hide Step;
    assert [op][1..] == [];
  }

  lemma RunOfTwo(c: Collection, s: State, first: Op, second: Op)
    ensures Run(c, s, [first, second]) == Step(c, Step(c, s, first), second)
  {
    hide Step;
    assert [first, second][1..] == [second];
    RunOfOne(c, Step(c, s, first), second);
  }

  /** The stored tariff is alone and active, and its ids are the database's. */
  ghost predicate OnlyTariff(c: Collection, t: Tariff) {
    Stored(c, t) == Some(t) && t.active && Fits(c, t.owner, t.terms)
  }

  function Alone(t: Tariff): State {
    State([t], map[])
  }

  lemma AloneAnswers(c: Collection, t: Tariff, q: Query)
    requires Resolved(c, q).Some? && Matches(t, Resolved(c, q).value)
    ensures Answers(c, [t], q, t) && Fresh(c, [t], q) != NoDocuments && Fresh(c, [t], q) != Refused
    ensures Fresh(c, [], q) != Fresh(c, [t], q)
  {
    hide Matches, FreshOf, AnswersOf;
    assert [] + [t] == [t];
    AloneAnswersOf(c, t, Resolved(c, q).value);
    InsertingChangesFresh(c, [], t, q);
  }

  lemma AloneAnswersOf(c: Collection, t: Tariff, r: Query)
    requires Matches(t, r)
    ensures AnswersOf(c, [t], r, t) && FreshOf(c, [t], r) != NoDocuments && FreshOf(c, [t], r) != Refused
  {
    hide Matches, Sets;
    assert t in [t];
    SingleIsSpecificElseGeneric([t], r);
    SingleIsStored([t], r);
  }

  lemma AloneCached(c: Collection, t: Tariff, q: Query)
    requires Resolved(c, q).Some? && Matches(t, Resolved(c, q).value)
    ensures Step(c, Alone(t), Find(q)) == State([t], map[QueryKey(c, q) := Answer(Fresh(c, [t], q))])
  {
    hide QueryKey, Fresh, Matches;
    AloneAnswers(c, t, q);
  }

  /** What is cached under the query's key is an answer, and not the collection's. */
  predicate Misled(c: Collection, s: State, q: Query) {
    QueryKey(c, q) in s.cache && s.cache[QueryKey(c, q)].Answer? && s.cache[QueryKey(c, q)].reply != Fresh(c, s.db, q)
  }

  // Deleting a tariff

  lemma DeletionChangesAnswer(c: Collection, t: Tariff, q: Query)
    requires Resolved(c, q).Some? && Matches(t, Resolved(c, q).value) && t.active
    ensures Fresh(c, [t.(active := false)], q) != Fresh(c, [t], q)
  {
    var off := t.(active := false);
    AloneAnswers(c, t, q);
    hide Fresh, Answers, Matches, Resolved;
    assert [] + [t] + [] == [t] && [] + [off] + [] == [off];
    ReplacingChangesFresh(c, [], t, off, [], q);
  }

  lemma DeletedAlone(c: Collection, t: Tariff, s: State)
    requires OnlyTariff(c, t) && s.db == [t]
    ensures var off := t.(active := false);
            Fits(c, off.owner, off.terms) && Written(c, s, off) == CachesUpdated(c, s.(db := [off]), off)
  {
    hide CachesUpdated;
    var off := t.(active := false);
    assert Stored(c, off) == Some(off);
    assert Replaced(s.db, TariffId, off) == [off] + s.db[1..] == [off];
  }

  /** Find, then delete: the second Find is wrong whenever the keys of the tariff
      miss the query. */
  lemma DeletedButFound(c: Collection, t: Tariff, q: Query)
    requires OnlyTariff(c, t) && Askable(c, q) && Resolved(c, q).Some? && Matches(t, Resolved(c, q).value)
    ensures Misled(c, Run(c, Alone(t), [Find(q), Write(t.(active := false))]), q) <==> !Evicts(t, q)
  {
    var off := t.(active := false);
    var mid := State([t], map[QueryKey(c, q) := Answer(Fresh(c, [t], q))]);
    var after := Written(c, mid, off);
    AloneCached(c, t, q);
    DeletionChangesAnswer(c, t, q);
    DeletedAlone(c, t, mid);
    hide QueryKey, Fresh, Askable, CachesUpdated, Run, Written, Resolved, Matches, Stored, Fits;
    RunOfTwo(c, Alone(t), Find(q), Write(off));
    UpdatedQuery(c, mid.(db := [off]), off, q);
  }

  /** So a country's query is still answered with the generic tariff deleted after
      it. */
  lemma GenericTariffOutlivesDeletion(c: Collection, t: Tariff, country: string)
    requires OnlyTariff(c, t) && t.country == GENERIC && country != GENERIC && Askable(c, QueryFor(t, country))
    ensures var s := Run(c, Alone(t), [Find(QueryFor(t, country)), Write(t.(active := false))]);
            Misled(c, s, QueryFor(t, country))
  {
    hide QueryKey, Fresh, Askable, Run;
    StoredIsStored(c, t);
    DeletedButFound(c, t, QueryFor(t, country));
  }

  /** So is a query that spells the merchant's id, or the name, in another case. */
  lemma OtherSpellingOutlivesDeletion(c: Collection, t: Tariff, owner: string, name: string)
    requires OnlyTariff(c, t) && ReadOwner(c, owner) == Some(t.owner) && SameName(name, t.name)
    requires Askable(c, QueryFor(t, t.country).(owner := owner, name := name))
    ensures var q := QueryFor(t, t.country).(owner := owner, name := name);
            && Matches(t, Resolved(c, q).value)
            && (Misled(c, Run(c, Alone(t), [Find(q), Write(t.(active := false))]), q)
                <==> owner != t.owner || name != t.name)
  {
    hide QueryKey, Fresh, Askable, Run, ReadOwner, SameName;
    DeletedButFound(c, t, QueryFor(t, t.country).(owner := owner, name := name));
  }

  /** A document read by another spelling of its id is still read by it once it is
      deleted. */
  lemma OtherIdOutlivesDeletion(c: Collection, t: Tariff, id: string)
    requires OnlyTariff(c, t) && ReadId(c, id) == Some(t.id)
    ensures var s := Run(c, Alone(t), [GetById(id), Write(t.(active := false))]);
            && FreshById(c, s.db, id) == None
            && (IdKey(c, id) in s.cache <==> id != t.id)
            && (id != t.id ==> s.cache[IdKey(c, id)] == Document(t))
  {
    var off := t.(active := false);
    var mid := State([t], map[IdKey(c, id) := Document(t)]);
    hide IdKey, CachesUpdated, Run, ReadId, Written;
    RunOfTwo(c, Alone(t), GetById(id), Write(off));
    ByIdOfOne(t, t.id);
    ByIdOfOne(off, t.id);
    assert Step(c, Alone(t), GetById(id)) == mid;
    WrittenDb(c, mid, off);
    UpdatedId(c, mid.(db := Written(c, mid, off).db), off, id);
  }

  const LOWER := "5dbac6de120a810001a8fe7a"
  const UPPER := "5DBAC6DE120A810001A8FE7A"

  lemma ReadsAs(a: string, b: string)
    requires |a| == |b| == 24 && forall i :: 0 <= i < 24 ==> HexDigit(a[i]) && LowerHex(a[i]) == b[i]
    ensures ParseId(a) == Some(b)
  {
    assert ParseId(a).value == b;
  }

  lemma LowerIsRead()
    ensures Canonical(LOWER)
  {
    hide ParseId;
    ReadsAs(LOWER, LOWER);
  }

  /** There are such spellings. */
  lemma UpperIsRead()
    ensures ParseId(UPPER) == Some(LOWER) && UPPER != LOWER
  {
    hide ParseId;
    assert UPPER[1] == 'D' && LOWER[1] == 'd';
    ReadsAs(UPPER, LOWER);
  }

  /** The run is sound for reads that spell ids as the database does, and shows
      what becomes of the others. */
  lemma UpperCaseIdOutlivesDeletion(c: Collection, t: Tariff)
    requires OnlyTariff(c, t) && t.id == LOWER
    ensures var ops := [GetById(UPPER), Write(t.(active := false))];
            var s := Run(c, Alone(t), ops);
            && SoundRun(c, AsStored, Alone(t), ops)
            && IdKey(c, UPPER) in s.cache && s.cache[IdKey(c, UPPER)] == Document(t)
            && FreshById(c, s.db, UPPER) == None
  {
    var off := t.(active := false);
    UpperIsRead();
    OtherIdOutlivesDeletion(c, t, UPPER);
    SoundDeletion(c, Step(c, Alone(t), GetById(UPPER)), t);
    hide Step, IdKey, ParseId, OneSpelling;
    assert [GetById(UPPER), Write(off)][1..] == [Write(off)] && [Write(off)][1..] == [];
    assert Sound(c, AsStored, Alone(t), GetById(UPPER));
    var s := Step(c, Alone(t), GetById(UPPER));
    assert SoundRun(c, AsStored, Step(c, s, Write(off)), []);
    assert SoundRun(c, AsStored, s, [Write(off)]);
  }

  lemma SoundDeletion(c: Collection, s: State, t: Tariff)
    requires OnlyTariff(c, t) && s.db == [t]
    ensures Sound(c, AsStored, s, Write(t.(active := false)))
  {
    var off := t.(active := false);
    StoredIdsHaveOneSpelling(c, s, off);
    hide OneSpelling, ParseId;
    assert Replaces(c, s, off, off, 0);
  }

  /** The same for a Find that spells the merchant's id in upper case. */
  lemma UpperCaseMerchantOutlivesDeletion(t: Tariff)
    requires OnlyTariff(ChannelMerchant, t) && t.owner == LOWER
    requires Askable(ChannelMerchant, QueryFor(t, t.country).(owner := UPPER))
    ensures var q := QueryFor(t, t.country).(owner := UPPER);
            Misled(ChannelMerchant, Run(ChannelMerchant, Alone(t), [Find(q), Write(t.(active := false))]), q)
  {
    UpperIsRead();
    hide QueryKey, Fresh, Askable, Run, ParseId;
    OtherSpellingOutlivesDeletion(ChannelMerchant, t, UPPER, t.name);
  }

  // Replacing a merchant's tariffs

  /** Replacing them by nothing deletes them and reports an error, and what was
      found before is found still. */
  lemma ReplacedButFound(c: Collection, t: Tariff, owner: string)
    requires OfMerchants(c) && OnlyTariff(c, t) && ParseId(owner) == Some(t.owner)
    requires Askable(c, QueryFor(t, t.country))
    ensures var q := QueryFor(t, t.country);
            var s := Run(c, Alone(t), [Find(q), ReplaceAll(owner, [])]);
            s.db == [] && Misled(c, s, q)
  {
    var q := QueryFor(t, t.country);
    hide QueryKey, Fresh, Askable, Run, ParseId;
    RunOfTwo(c, Alone(t), Find(q), ReplaceAll(owner, []));
    AloneCached(c, t, q);
    AloneAnswers(c, t, q);
    assert [t][..0] == [];
    assert ActiveDeleted([t], t.owner) == [];
  }

  // Queries with colons

  /** Of two queries with one key the second is answered like the first. */
  lemma SharedKeySharesAnswer(c: Collection, s: State, p: Query, q: Query)
    requires QueryKey(c, p) == QueryKey(c, q) && QueryKey(c, p) !in s.cache
    requires Fresh(c, s.db, p) != NoDocuments && Fresh(c, s.db, p) != Refused
    ensures var t := Run(c, s, [Find(p)]);
            && QueryKey(c, q) in t.cache && t.cache[QueryKey(c, q)] == Answer(Fresh(c, s.db, p))
            && (t.cache[QueryKey(c, q)] == Answer(Fresh(c, t.db, q)) <==> Fresh(c, s.db, p) == Fresh(c, s.db, q))
  {
    RunOfOne(c, s, Find(p));
  }

  lemma SingleOfTwo(t: Tariff, u: Tariff, q: Query)
    requires q.country == GENERIC
    ensures Matches(t, q) && !Matches(u, q) ==> Single([t, u], q) == Some(t) && Single([u, t], q) == Some(t)
  {
    hide Matches, Sets;
    if Matches(t, q) && !Matches(u, q) {
      SingleIsStored([t, u], q);
      SingleIsStored([u, t], q);
      SingleIsSpecificElseGeneric([t, u], q);
      SingleIsSpecificElseGeneric([u, t], q);
      assert t in [t, u] && t in [u, t];
    }
  }

  const NEXT := "5dbac6de120a810001a8fe7b"
  const NO_TERMS := Terms("", "", 0, "", "")
  const ONE := Tariff(LOWER, "", "a:r:b", "c", GENERIC, NO_TERMS, true, 0.0, 0.0)
  const OTHER := Tariff(NEXT, "", "a", "b:r:c", GENERIC, NO_TERMS, true, 0.0, 0.0)
  const FOR_ONE := Query("", "a:r:b", "c", GENERIC, NO_TERMS)
  const FOR_OTHER := Query("", "a", "b:r:c", GENERIC, NO_TERMS)

  lemma EachIsAnswered()
    ensures Fresh(ChannelSystem, [ONE, OTHER], FOR_ONE) == Reply.One(ONE)
    ensures Fresh(ChannelSystem, [ONE, OTHER], FOR_OTHER) == Reply.One(OTHER)
  {
    assert |"a:r:b"| != |"a"|;
    assert Matches(ONE, FOR_ONE) && !Matches(OTHER, FOR_ONE) && Matches(OTHER, FOR_OTHER) && !Matches(ONE, FOR_OTHER);
    hide Matches, Single;
    SingleOfTwo(ONE, OTHER, FOR_ONE);
    SingleOfTwo(OTHER, ONE, FOR_OTHER);
  }

  lemma NextIsRead()
    ensures Canonical(NEXT)
  {
    hide ParseId;
    ReadsAs(NEXT, NEXT);
  }

  lemma BothAreKept()
    ensures Kept(ChannelSystem, [ONE, OTHER])
  {
    hide ParseId;
    LowerIsRead();
    NextIsRead();
    assert LOWER[23] != NEXT[23];
  }

  /** So colons can make Find answer with another query's tariff, in a run that is
      careful in every other way. */
  lemma ColonsMisleadFind()
    ensures var s := State([ONE, OTHER], map[]);
            var t := Run(ChannelSystem, s, [Find(FOR_ONE)]);
            && Kept(ChannelSystem, s.db) && CarefulRun(ChannelSystem, AnySpelling, s, [Find(FOR_ONE)])
            && Fits(ChannelSystem, FOR_OTHER.owner, FOR_OTHER.terms)
            && QueryKey(ChannelSystem, FOR_OTHER) in t.cache
            && t.cache[QueryKey(ChannelSystem, FOR_OTHER)] == Answer(Reply.One(ONE))
            && Fresh(ChannelSystem, t.db, FOR_OTHER) == Reply.One(OTHER)
  {
    var s := State([ONE, OTHER], map[]);
    hide QueryKey, Fresh, Kept;
    BothAreKept();
    ColonsCollide(NO_TERMS);
    EachIsAnswered();
    SharedKeySharesAnswer(ChannelSystem, s, FOR_ONE, FOR_OTHER);
    RunOfOne(ChannelSystem, s, Find(FOR_ONE));
    assert [Find(FOR_ONE)][1..] == [];
    assert CarefulRun(ChannelSystem, AnySpelling, Step(ChannelSystem, s, Find(FOR_ONE)), []);
    assert Careful(ChannelSystem, AnySpelling, s, Find(FOR_ONE));
  }
}
