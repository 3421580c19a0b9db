/** Looking a tariff up: for exactly the requested country if there is one, else
    the generic one of the region. Four collections share this query; they differ
    in the fields that have to agree exactly, which are the `owner` (a merchant,
    or nobody) and the `terms` here. */
module TariffLookup {
  import opened Options
  import opened Strings

  /** The fields that have to agree exactly; those a collection lacks are empty. */
  datatype Terms = Terms(
    payoutCurrency: string, undoReason: string, paymentStage: int, mccCode: string, operatingCompany: string)

  /** `threshold` is the smallest amount, or the first day, the tariff is for;
      `charge` stands for its prices. */
  datatype Tariff = Tariff(
    id: string, owner: string, name: string, region: string, country: string, terms: Terms,
    active: bool, threshold: real, charge: real)

  datatype Query = Query(owner: string, name: string, region: string, country: string, terms: Terms)

  const GENERIC := ""

  function LowerCase(c: char): char {
    if 'A' <= c <= 'Z' then c - 'A' + 'a' else c
  }

  /** The name is matched whole and without regard to case. */
  predicate SameName(a: string, b: string) {
    |a| == |b| && forall i :: 0 <= i < |a| ==> LowerCase(a[i]) == LowerCase(b[i])
  }

  /** Letter by letter the same, or the same letter in the other case. */
  lemma NamesIgnoreCase(a: string, b: string)
    ensures SameName(a, b)
            <==> |a| == |b| && forall i :: 0 <= i < |a| ==>
                   || a[i] == b[i]
                   || ('A' <= a[i] <= 'Z' && b[i] as int == a[i] as int + 32)
                   || ('A' <= b[i] <= 'Z' && a[i] as int == b[i] as int + 32)
  {
  }

  predicate Covers(t: Tariff, q: Query) {
    && t.owner == q.owner && SameName(q.name, t.name) && t.terms == q.terms
    && t.region == q.region && (t.country == q.country || t.country == GENERIC)
  }

  predicate Matches(t: Tariff, q: Query) {
    t.active && Covers(t, q)
  }

  function Matching(db: seq<Tariff>, q: Query): (found: seq<Tariff>)
    ensures forall t :: t in found <==> t in db && Matches(t, q)
  {
    if db == [] then []
    else
      var rest := Matching(db[..|db| - 1], q);
      if Matches(db[|db| - 1], q) then rest + [db[|db| - 1]] else rest
  }

  // The aggregation: group by country, sort the countries downwards

  datatype CountrySet = CountrySet(country: string, tariffs: seq<Tariff>)

  function Pushed(sets: seq<CountrySet>, t: Tariff): seq<CountrySet> {
    if sets == [] then [CountrySet(t.country, [t])]
    else if sets[0].country == t.country then [sets[0].(tariffs := sets[0].tariffs + [t])] + sets[1..]
    else [sets[0]] + Pushed(sets[1..], t)
  }

  function GroupByCountry(ts: seq<Tariff>): seq<CountrySet> {
    if ts == [] then [] else Pushed(GroupByCountry(ts[..|ts| - 1]), ts[|ts| - 1])
  }

  function Placed(s: CountrySet, sets: seq<CountrySet>): seq<CountrySet> {
    if sets == [] || Less(sets[0].country, s.country) then [s] + sets
    else [sets[0]] + Placed(s, sets[1..])
  }

  function SortedDown(sets: seq<CountrySet>): seq<CountrySet> {
    if sets == [] then [] else Placed(sets[0], SortedDown(sets[1..]))
  }

  /** The list form of the query. */
  function Sets(db: seq<Tariff>, q: Query): seq<CountrySet> {
    SortedDown(GroupByCountry(Matching(db, q)))
  }

  /** The single form keeps the first document of the first set. */
  function Single(db: seq<Tariff>, q: Query): Option<Tariff> {
    var sets := Sets(db, q);
    if sets == [] || sets[0].tariffs == [] then None else Some(sets[0].tariffs[0])
  }

  // What the aggregation means

  function ForCountry(ts: seq<Tariff>, country: string): (found: seq<Tariff>)
    ensures forall t :: t in found <==> t in ts && t.country == country
  {
    if ts == [] then []
    else
      var rest := ForCountry(ts[..|ts| - 1], country);
      if ts[|ts| - 1].country == country then rest + [ts[|ts| - 1]] else rest
  }

  function Specific(db: seq<Tariff>, q: Query): seq<Tariff> {
    ForCountry(Matching(db, q), q.country)
  }

  function Generic(db: seq<Tariff>, q: Query): seq<Tariff> {
    ForCountry(Matching(db, q), GENERIC)
  }

  function NonEmpty(country: string, ts: seq<Tariff>): seq<CountrySet> {
    if ts == [] then [] else [CountrySet(country, ts)]
  }

  /** A set, or no set, after another tariff for its country. */
  function Grown(sets: seq<CountrySet>, t: Tariff): seq<CountrySet> {
    if sets == [] then [CountrySet(t.country, [t])] else [sets[0].(tariffs := sets[0].tariffs + [t])]
  }

  lemma GrownNonEmpty(ts: seq<Tariff>, country: string)
    requires ts != []
    ensures var n := |ts| - 1;
            NonEmpty(country, ForCountry(ts, country))
            == if ts[n].country == country then Grown(NonEmpty(country, ForCountry(ts[..n], country)), ts[n])
               else NonEmpty(country, ForCountry(ts[..n], country))
  {
    var before := ForCountry(ts[..|ts| - 1], country);
    assert before == [] ==> before + [ts[|ts| - 1]] == [ts[|ts| - 1]];
  }

  /** Of tariffs for one country and generic ones, at most two groups are made,
      in the order of their first members. */
  lemma {:induction false} TwoGroups(ts: seq<Tariff>, country: string)
    requires country != GENERIC
    requires forall i :: 0 <= i < |ts| ==> ts[i].country == country || ts[i].country == GENERIC
    ensures var s, g := NonEmpty(country, ForCountry(ts, country)), NonEmpty(GENERIC, ForCountry(ts, GENERIC));
            GroupByCountry(ts) == s + g || GroupByCountry(ts) == g + s
  {
    if ts != [] {
      var n := |ts| - 1;
      TwoGroups(ts[..n], country);
      GrownNonEmpty(ts, country);
      GrownNonEmpty(ts, GENERIC);
      var s, g := NonEmpty(country, ForCountry(ts[..n], country)), NonEmpty(GENERIC, ForCountry(ts[..n], GENERIC));
      TwoSetsPushed(s, country, g, GENERIC, ts[n]);
      TwoSetsPushed(g, GENERIC, s, country, ts[n]);
    }
  }

  lemma TwoSetsPushed(a: seq<CountrySet>, x: string, b: seq<CountrySet>, y: string, t: Tariff)
    requires |a| <= 1 && |b| <= 1 && x != y && (t.country == x || t.country == y)
    requires (a != [] ==> a[0].country == x) && (b != [] ==> b[0].country == y)
    ensures t.country == x ==> Pushed(a + b, t) == if a == [] then b + Grown(a, t) else Grown(a, t) + b
    ensures t.country == y ==> Pushed(a + b, t) == a + Grown(b, t)
  {
    var both := a + b;
    if both != [] {
      assert both[1..] == if a == [] then [] else b;
      if |both| > 1 {
        assert both[1..][1..] == [];
      }
    }
  }

  lemma {:induction false} OneGroup(ts: seq<Tariff>, country: string)
    requires forall i :: 0 <= i < |ts| ==> ts[i].country == country
    ensures ForCountry(ts, country) == ts
    ensures GroupByCountry(ts) == NonEmpty(country, ts)
  {
    if ts != [] {
      var n := |ts| - 1;
      OneGroup(ts[..n], country);
      assert ts[..n] + [ts[n]] == ts;
      GrownNonEmpty(ts, country);
      var s := NonEmpty(country, ts[..n]);
      assert s + [] == s;
      TwoSetsPushed(s, country, [], country + "*", ts[n]);
    }
  }

  lemma MatchingCountries(db: seq<Tariff>, q: Query)
    ensures forall t :: t in Matching(db, q) ==> t.country == q.country || t.country == GENERIC
  {
  }

  /** The query returns the tariffs for exactly the requested country, if there
      are any, before the generic ones, if there are any, each in the order of
      the collection, and nothing else. */
  lemma SetsAreSpecificThenGeneric(db: seq<Tariff>, q: Query)
    ensures Sets(db, q) == if q.country == GENERIC then NonEmpty(GENERIC, Matching(db, q))
                           else NonEmpty(q.country, Specific(db, q)) + NonEmpty(GENERIC, Generic(db, q))
  {
    hide Matches, GroupByCountry, SortedDown, ForCountry;
    var ts := Matching(db, q);
    MatchingCountries(db, q);
    assert forall i :: 0 <= i < |ts| ==> ts[i] in ts;
    if q.country == GENERIC {
      OneGroup(ts, GENERIC);
      SortTwo([], NonEmpty(GENERIC, ts));
      assert [] + NonEmpty(GENERIC, ts) == NonEmpty(GENERIC, ts);
    } else {
      TwoGroups(ts, q.country);
      SortTwo(NonEmpty(q.country, Specific(db, q)), NonEmpty(GENERIC, Generic(db, q)));
    }
  }

  lemma SortTwo(s: seq<CountrySet>, g: seq<CountrySet>)
    requires |s| <= 1 && |g| <= 1
    requires s != [] ==> s[0].country != GENERIC
    requires g != [] ==> g[0].country == GENERIC
    ensures SortedDown(s + g) == s + g == SortedDown(g + s)
  {
    if s != [] && g != [] {
      assert (s + g)[1..] == g && (g + s)[1..] == s && g[1..] == [] && s[1..] == [];
      assert SortedDown(g) == g && SortedDown(s) == s;
      assert Less(GENERIC, s[0].country);
    } else {
      assert s + g == (if s == [] then g else s) == g + s;
      assert s != [] ==> s[1..] == [];
      assert g != [] ==> g[1..] == [];
    }
  }

  /** The single form answers with a tariff for exactly the requested country if
      one is active, else with a generic one, and with nothing exactly when
      there is neither. */
  lemma SingleIsSpecificElseGeneric(db: seq<Tariff>, q: Query)
    ensures Single(db, q) == if Specific(db, q) != [] then Some(Specific(db, q)[0])
                             else if Generic(db, q) != [] then Some(Generic(db, q)[0])
                             else None
    ensures Single(db, q).None? <==> forall t :: t in db ==> !Matches(t, q)
  {
    SetsAreSpecificThenGeneric(db, q);
    var ts := Matching(db, q);
    if q.country == GENERIC {
      assert forall i :: 0 <= i < |ts| ==> ts[i] in ts;
      OneGroup(ts, GENERIC);
    }
    if Single(db, q).None? {
      forall t | t in db ensures !Matches(t, q) {
        assert t in ts ==> t in Specific(db, q) + Generic(db, q);
      }
    } else {
      assert Single(db, q).value in ts;
    }
  }

  lemma SetsHold(country: string, s: seq<Tariff>, g: seq<Tariff>, t: Tariff)
    requires country != GENERIC
    requires t in s ==> t.country == country
    requires t in g ==> t.country == GENERIC
    ensures var sets := NonEmpty(country, s) + NonEmpty(GENERIC, g);
            && (t in s || t in g <==> exists i :: 0 <= i < |sets| && t in sets[i].tariffs)
            && (forall i :: 0 <= i < |sets| && t in sets[i].tariffs ==> sets[i].country == t.country)
            && (forall i, j :: 0 <= i < j < |sets| ==> sets[i].country != sets[j].country)
  {
    var sets := NonEmpty(country, s) + NonEmpty(GENERIC, g);
    assert t in s ==> t in sets[0].tariffs;
    assert t in g ==> t in sets[|sets| - 1].tariffs;
  }

  /** Every matching tariff is in exactly one of the sets, and a set for a
      country holds the tariffs of that country. */
  lemma SetsPartitionMatches(db: seq<Tariff>, q: Query, t: Tariff)
    ensures Matches(t, q) && t in db <==> exists i :: 0 <= i < |Sets(db, q)| && t in Sets(db, q)[i].tariffs
    ensures forall i :: 0 <= i < |Sets(db, q)| && t in Sets(db, q)[i].tariffs ==> Sets(db, q)[i].country == t.country
    ensures forall i, j :: 0 <= i < j < |Sets(db, q)| ==> Sets(db, q)[i].country != Sets(db, q)[j].country
  {
    hide Sets, Matches, GroupByCountry, SortedDown, NonEmpty;
    SetsAreSpecificThenGeneric(db, q);
    MatchingCountries(db, q);
    if q.country == GENERIC {
      assert NonEmpty(GENERIC + "*", []) + NonEmpty(GENERIC, Matching(db, q)) == NonEmpty(GENERIC, Matching(db, q)) by {
        NothingNoSet(GENERIC + "*", NonEmpty(GENERIC, Matching(db, q)));
      }
      SetsHold(GENERIC + "*", [], Matching(db, q), t);
    } else {
      SetsHold(q.country, Specific(db, q), Generic(db, q), t);
    }
  }

  lemma NothingNoSet(country: string, sets: seq<CountrySet>)
    ensures NonEmpty(country, []) + sets == sets
  {
  }

  // Choosing by threshold

  datatype Choice = Chosen(tariff: Tariff) | NothingForCountry | NothingForAmount

  predicate Eligible(t: Tariff, amount: real) {
    amount >= t.threshold
  }

  predicate Best(t: Tariff, ts: seq<Tariff>, amount: real) {
    t in ts && Eligible(t, amount) && forall u :: u in ts && Eligible(u, amount) ==> u.threshold <= t.threshold
  }

  /** The best tariff of the first set that has an eligible one. */
  ghost predicate Chooses(sets: seq<CountrySet>, amount: real, choice: Choice) {
    match choice
    case NothingForCountry => sets == []
    case NothingForAmount => sets != [] && forall s, t :: s in sets && t in s.tariffs ==> !Eligible(t, amount)
    case Chosen(t) => exists i :: 0 <= i < |sets| && Best(t, sets[i].tariffs, amount)
                                  && forall j, u :: 0 <= j < i && u in sets[j].tariffs ==> !Eligible(u, amount)
  }

  /** Of equal thresholds any may be taken, as the source's sort is not stable. */
  method ChooseTariff(sets: seq<CountrySet>, amount: real) returns (choice: Choice)
    ensures Chooses(sets, amount, choice)
  {
    if sets == [] {
      return NothingForCountry;
    }
    for i := 0 to |sets|
      invariant forall j, u :: 0 <= j < i && u in sets[j].tariffs ==> !Eligible(u, amount)
    {
      var ts := sets[i].tariffs;
      var matched: seq<nat> := [];
      for k := 0 to |ts|
        invariant forall m :: 0 <= m < |matched| ==> matched[m] < k && Eligible(ts[matched[m]], amount)
        invariant forall l :: 0 <= l < k && Eligible(ts[l], amount) ==> l in matched
      {
        if amount >= ts[k].threshold {
          matched := matched + [k];
        }
      }
      if matched != [] {
        var best := matched[0];
        for m := 1 to |matched|
          invariant best in matched
          invariant forall l :: 0 <= l < m ==> ts[matched[l]].threshold <= ts[best].threshold
        {
          if ts[matched[m]].threshold > ts[best].threshold {
            best := matched[m];
          }
        }
        assert Best(ts[best], sets[i].tariffs, amount);
        return Chosen(ts[best]);
      }
    }
    return NothingForAmount;
  }

  /** Query and choice together: the tariff for exactly the country with the
      greatest threshold the amount reaches; if the amount reaches none of those,
      the generic tariff with the greatest threshold it reaches. */
  lemma ChosenTariff(db: seq<Tariff>, q: Query, amount: real, choice: Choice)
    requires Chooses(Sets(db, q), amount, choice)
    ensures var s := Specific(db, q);
            var reached := exists t :: t in s && Eligible(t, amount);
            match choice
            case Chosen(t) => if reached then Best(t, s, amount) else Best(t, Generic(db, q), amount)
            case NothingForCountry => Matching(db, q) == []
            case NothingForAmount => forall t :: t in Matching(db, q) ==> !Eligible(t, amount)
  {
    SetsAreSpecificThenGeneric(db, q);
    var ts, sets := Matching(db, q), Sets(db, q);
    if q.country == GENERIC {
      assert forall i :: 0 <= i < |ts| ==> ts[i] in ts;
      OneGroup(ts, GENERIC);
    }
    match choice
    case NothingForCountry =>
    case NothingForAmount =>
      forall t | t in ts ensures !Eligible(t, amount) {
        SetsPartitionMatches(db, q, t);
        var i :| 0 <= i < |sets| && t in sets[i].tariffs;
        assert sets[i] in sets;
      }
    case Chosen(t) =>
      var i :| 0 <= i < |sets| && Best(t, sets[i].tariffs, amount)
               && forall j, u :: 0 <= j < i && u in sets[j].tariffs ==> !Eligible(u, amount);
      if Specific(db, q) != [] {
        assert sets[0].tariffs == Specific(db, q);
      }
  }
}
