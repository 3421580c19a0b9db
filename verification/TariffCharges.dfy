/** What a payment or a refund is charged: a tariff is found through the cache and
    chosen by its threshold. */
module TariffCharges {
  import opened Options
  import opened TariffLookup
  import opened TariffKeys
  import opened TariffAnswers
  import opened TariffCache
  import opened TariffRepository

  /** Whether a document is for the query, field by field: the merchant's id in
      either case, the name in any, the terms and the region asked. */
  predicate Serves(c: Collection, q: Query, t: Tariff) {
    t.active && ReadOwner(c, q.owner) == Some(t.owner) && SameName(q.name, t.name)
    && t.terms == q.terms && t.region == q.region
  }

  /** What the collection answers, said of its documents: the collection that
      answers with one tariff takes the first for exactly the country, else the
      first for no country; the others list the tariffs for the country, if there
      are any, before those for no country, if there are any. */
  lemma FreshIsSpecificThenGeneric(c: Collection, db: seq<Tariff>, q: Query)
    requires Resolved(c, q).Some?
    ensures var r := Resolved(c, q).value;
            var own, rest := Specific(db, r), Generic(db, r);
            Fresh(c, db, q)
            == if c.ChannelSystem? then
                 if own != [] then One(own[0]) else if rest != [] then One(rest[0]) else NoDocuments
               else if q.country == GENERIC || own == [] then
                 Many(if rest == [] then [] else [CountrySet(GENERIC, rest)])
               else
                 Many([CountrySet(q.country, own)] + if rest == [] then [] else [CountrySet(GENERIC, rest)])
  {
    var r := Resolved(c, q).value;
    SingleIsSpecificElseGeneric(db, r);
    SetsAreSpecificThenGeneric(db, r);
    if q.country == GENERIC {
      var ts := Matching(db, r);
      assert forall i :: 0 <= i < |ts| ==> ts[i] in ts;
      OneGroup(ts, GENERIC);
    }
  }

  lemma TariffsServed(c: Collection, db: seq<Tariff>, q: Query)
    requires Resolved(c, q).Some?
    ensures var r := Resolved(c, q).value;
            && (forall t :: t in Specific(db, r) <==> t in db && Serves(c, q, t) && t.country == q.country)
            && (forall t :: t in Generic(db, r) <==> t in db && Serves(c, q, t) && t.country == GENERIC)
  {
  }

  /** Find caches what it found, and in the collection that answers with one tariff
      not that it found none. */
  lemma FoundIsCached(c: Collection, s: State, q: Query)
    requires QueryKey(c, q) !in s.cache
    ensures QueryKey(c, q) in Step(c, s, Find(q)).cache
            <==> ReadOwner(c, q.owner).Some?
                 && (c != ChannelSystem
                     || exists t :: t in s.db && Serves(c, q, t) && (t.country == q.country || t.country == GENERIC))
  {
    hide QueryKey, Sets, Specific, Generic;
    if Resolved(c, q).Some? {
      FreshIsSpecificThenGeneric(c, s.db, q);
      TariffsServed(c, s.db, q);
      hide Serves, Fresh;
      var r := Resolved(c, q).value;
      assert Specific(s.db, r) != [] ==> Specific(s.db, r)[0] in Specific(s.db, r);
      assert Generic(s.db, r) != [] ==> Generic(s.db, r)[0] in Generic(s.db, r);
    }
  }

  /** The tariff chosen: the amount reaches its threshold and no greater one; it is
      for the country, or for none while the amount reaches no threshold of the
      country's. */
  ghost predicate ChosenOf(own: set<Tariff>, rest: set<Tariff>, amount: real, choice: Choice) {
    match choice
    case Chosen(t) =>
      && t.threshold <= amount
      && if t in own then forall u :: u in own && u.threshold <= amount ==> u.threshold <= t.threshold
         else && t in rest && (forall u :: u in own ==> amount < u.threshold)
              && forall u :: u in rest && u.threshold <= amount ==> u.threshold <= t.threshold
    case NothingForCountry => forall u :: u !in own && u !in rest
    case NothingForAmount =>
      && (exists u :: u in own || u in rest)
      && forall u :: u in own || u in rest ==> amount < u.threshold
  }

  /** The same, said of the documents stored. */
  ghost predicate Charged(c: Collection, db: seq<Tariff>, q: Query, amount: real, choice: Choice) {
    var own := set t | t in db && Serves(c, q, t) && t.country == q.country;
    var rest := set t | t in db && Serves(c, q, t) && t.country == GENERIC;
    ChosenOf(own, rest, amount, choice)
  }

  lemma ChoiceIsCharged(c: Collection, db: seq<Tariff>, q: Query, amount: real, choice: Choice)
    requires Resolved(c, q).Some? && Chooses(Sets(db, Resolved(c, q).value), amount, choice)
    ensures Charged(c, db, q, amount, choice)
  {
    var r := Resolved(c, q).value;
    TariffsServed(c, db, q);
    hide Serves, Fresh, Chooses, Sets, Specific, Generic, ChosenOf;
    var own := set t | t in db && Serves(c, q, t) && t.country == q.country;
    var rest := set t | t in db && Serves(c, q, t) && t.country == GENERIC;
    ChoiceOfSets(db, r, own, rest, amount, choice);
  }

  lemma ChoiceOfSets(db: seq<Tariff>, r: Query, own: set<Tariff>, rest: set<Tariff>, amount: real, choice: Choice)
    requires Chooses(Sets(db, r), amount, choice)
    requires forall t :: t in own <==> t in Specific(db, r)
    requires forall t :: t in rest <==> t in Generic(db, r)
    ensures ChosenOf(own, rest, amount, choice)
  {
    ChosenTariff(db, r, amount, choice);
    SetsHoldTariffs(db, r);
    assert forall t :: t in Specific(db, r) || t in Generic(db, r) ==> t in Matching(db, r);
    assert choice == NothingForAmount ==> Sets(db, r) != [];
    hide Sets, Chooses, Specific, Generic, Matching;
    if choice.Chosen? {
      var t := choice.tariff;
      if t !in own {
        assert Best(t, Generic(db, r), amount);
        assert forall u :: u in own ==> !Eligible(u, amount);
      }
    }
  }

  lemma SetsHoldTariffs(db: seq<Tariff>, r: Query)
    ensures Sets(db, r) != [] ==> exists t :: t in Specific(db, r) || t in Generic(db, r)
  {
    hide Matches;
    SetsAreSpecificThenGeneric(db, r);
    SingleIsSpecificElseGeneric(db, r);
    assert Specific(db, r) != [] ==> Specific(db, r)[0] in Specific(db, r);
    assert Generic(db, r) != [] ==> Generic(db, r)[0] in Generic(db, r);
  }

  /** Query, cache and choice in one: over a coherent cache, what is charged is
      what the collection's documents say, or the merchant's id is refused. */
  method GetCost(repository: Repository, q: Query, amount: real) returns (choice: Option<Choice>)
    requires !repository.c.ChannelSystem? && Fits(repository.c, q.owner, q.terms)
    modifies repository`cache
    ensures repository.Now() == Step(repository.c, old(repository.Now()), Find(q))
    ensures var c := repository.c;
            (old(QueriesCoherent(c, AnySpelling, repository.Now())) && Askable(c, q))
            || (old(QueriesCoherent(c, AsStored, repository.Now())) && Asked(c, AsStored, q)) ==>
              if ReadOwner(c, q.owner).None? then choice == None
              else choice.Some? && Charged(c, repository.db, q, amount, choice.value)
  {
    hide QueriesCoherent, Askable, Charged, Chooses, Step;
    var reply := repository.Find(q);
    if !reply.Many? {
      return None;
    }
    var chosen := ChooseTariff(reply.sets, amount);
    if reply == Fresh(repository.c, repository.db, q) {
      ChoiceIsCharged(repository.c, repository.db, q, amount, chosen);
    }
    return Some(chosen);
  }
}
