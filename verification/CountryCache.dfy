/** The country collection: one cached document a code, and four cached lists. */
module CountryCache {
  import opened Options
  import opened Documents
  import opened Strings

  datatype Country = Country(
    id: string, code: string,
    vatEnabled: bool, vatRatesPolicy: string, vatPeriodMonth: int,
    paymentsAllowed: bool, highRiskPaymentsAllowed: bool)

  datatype ListKind = All | WithVat | ByRisk(high: bool)

  predicate Belongs(c: Country, kind: ListKind) {
    match kind
    case All => true
    case WithVat => c.vatEnabled && c.code != "US" && c.vatRatesPolicy != "" && c.vatPeriodMonth > 0
    case ByRisk(high) => if high then c.highRiskPaymentsAllowed else c.paymentsAllowed
  }

  datatype State = State(db: seq<Country>, byCode: map<string, Country>, lists: map<ListKind, seq<Country>>)

  // Queries against the collection

  /** The first document with the code, in collection order. */
  function ByCode(db: seq<Country>, code: string): Option<Country> {
    if db == [] then None
    else if db[0].code == code then Some(db[0])
    else ByCode(db[1..], code)
  }

  function Placed(c: Country, list: seq<Country>): seq<Country> {
    if list == [] || Less(c.code, list[0].code) then [c] + list
    else [list[0]] + Placed(c, list[1..])
  }

  /** The list of a kind, sorted by code. */
  function Listed(db: seq<Country>, kind: ListKind): seq<Country> {
    if db == [] then []
    else
      var rest := Listed(db[..|db| - 1], kind);
      if Belongs(db[|db| - 1], kind) then Placed(db[|db| - 1], rest) else rest
  }

  /** A list holds what belongs on it, and nothing twice that is stored once. */
  lemma {:induction false} ListedHolds(db: seq<Country>, kind: ListKind, c: Country)
    ensures multiset(Listed(db, kind))[c] == if Belongs(c, kind) then multiset(db)[c] else 0
  {
    if db != [] {
      var n := |db| - 1;
      ListedHolds(db[..n], kind, c);
      assert db == db[..n] + [db[n]];
      PlacedAdds(db[n], Listed(db[..n], kind));
    }
  }

  /** In the fields of a country: it is on the list of all of them, on that of tax
      payers if it has a rate policy and a period and is not the United States,
      on the high risk list if high risk payments are allowed, and on the normal
      one if payments are. */
  lemma ListsByFields(db: seq<Country>, c: Country)
    ensures c in Listed(db, All) <==> c in db
    ensures c in Listed(db, WithVat)
            <==> c in db && c.vatEnabled && c.code != "US" && c.vatRatesPolicy != "" && c.vatPeriodMonth > 0
    ensures c in Listed(db, ByRisk(true)) <==> c in db && c.highRiskPaymentsAllowed
    ensures c in Listed(db, ByRisk(false)) <==> c in db && c.paymentsAllowed
  {
    ListedHolds(db, All, c);
    ListedHolds(db, WithVat, c);
    ListedHolds(db, ByRisk(true), c);
    ListedHolds(db, ByRisk(false), c);
    hide Listed;
    assert forall s: seq<Country> :: c in s <==> multiset(s)[c] > 0;
  }

  lemma {:induction false} PlacedAdds(c: Country, list: seq<Country>)
    ensures multiset(Placed(c, list)) == multiset(list) + multiset{c}
  {
    if list != [] {
      assert list == [list[0]] + list[1..];
      if !Less(c.code, list[0].code) {
        PlacedAdds(c, list[1..]);
      }
    }
  }

  ghost predicate Ascending(list: seq<Country>) {
    forall i, j :: 0 <= i < j < |list| ==> !Less(list[j].code, list[i].code)
  }

  lemma {:induction false} PlacedAscends(c: Country, list: seq<Country>)
    requires Ascending(list)
    ensures Ascending(Placed(c, list))
  {
    if list != [] {
      if Less(c.code, list[0].code) {
        forall j | 0 <= j < |list| ensures !Less(list[j].code, c.code) {
          LessIsOrder(c.code, list[0].code, list[j].code);
        }
      } else {
        var rest := Placed(c, list[1..]);
        PlacedAscends(c, list[1..]);
        PlacedAdds(c, list[1..]);
        forall d | d in rest ensures !Less(d.code, list[0].code) {
          assert d in multiset(rest);
          if d != c {
            assert d in multiset(list[1..]);
            assert d in list[1..];
          }
        }
      }
    }
  }

  lemma {:induction false} ListedAscends(db: seq<Country>, kind: ListKind)
    ensures Ascending(Listed(db, kind))
  {
    if db != [] {
      ListedAscends(db[..|db| - 1], kind);
      if Belongs(db[|db| - 1], kind) {
        PlacedAscends(db[|db| - 1], Listed(db[..|db| - 1], kind));
      }
    }
  }

  // Steps

  function CountryId(c: Country): string {
    c.id
  }

  predicate HasCode(db: seq<Country>, code: string) {
    exists i :: 0 <= i < |db| && db[i].code == code
  }

  /** A single write sets the entry of its code; every write drops all lists. */
  function CacheUpdated(s: State, written: Option<Country>): State {
    s.(byCode := if written.Some? then s.byCode[written.value.code := written.value] else s.byCode, lists := map[])
  }

  function Inserted(s: State, c: Country): State {
    if HasId(s.db, CountryId, c.id) then s else CacheUpdated(s.(db := s.db + [c]), Some(c))
  }

  function Updated(s: State, c: Country): State {
    CacheUpdated(s.(db := Replaced(s.db, CountryId, c)), Some(c))
  }

  function AddedOf(s: State, cs: seq<Country>): seq<Country> {
    Admitted(s.db, CountryId, cs)
  }

  /** Nothing to insert is an error, as is an id that is taken. */
  predicate Complete(s: State, cs: seq<Country>) {
    cs != [] && |AddedOf(s, cs)| == |cs|
  }

  /** A bulk insert that fails leaves what got in before, and the cache as it was. */
  function ManyInserted(s: State, cs: seq<Country>): State {
    var t := s.(db := s.db + AddedOf(s, cs));
    if Complete(s, cs) then CacheUpdated(t, None) else t
  }

  datatype Op =
    | GetByIsoCodeA2(code: string)
    | List(kind: ListKind)
    | Insert(country: Country)
    | MultipleInsert(countries: seq<Country>)
    | Update(country: Country)
    | Lose(codes: set<string>, kinds: set<ListKind>)

  function Step(s: State, op: Op): State {
    match op
    case GetByIsoCodeA2(code) =>
      var c := ByCode(s.db, code);
      if code in s.byCode || c.None? then s else s.(byCode := s.byCode[code := c.value])
    case List(kind) => if kind in s.lists then s else s.(lists := s.lists[kind := Listed(s.db, kind)])
    case Insert(c) => Inserted(s, c)
    case MultipleInsert(cs) => ManyInserted(s, cs)
    case Update(c) => Updated(s, c)
    case Lose(codes, kinds) => s.(byCode := s.byCode - codes, lists := s.lists - kinds)
  }

  function Run(s: State, ops: seq<Op>): State
    decreases ops
  {
    if ops == [] then s else Run(Step(s, ops[0]), ops[1..])
  }

  // Coherence

  ghost predicate CodesCoherent(s: State) {
    forall code :: code in s.byCode ==> ByCode(s.db, code) == Some(s.byCode[code])
  }

  ghost predicate ListsCoherent(s: State) {
    forall kind :: kind in s.lists ==> s.lists[kind] == Listed(s.db, kind)
  }

  ghost predicate UniqueCodes(db: seq<Country>) {
    forall i, j :: 0 <= i < j < |db| ==> db[i].code != db[j].code
  }

  lemma {:induction false} ListedGrows(db: seq<Country>, added: seq<Country>, kind: ListKind)
    ensures |Listed(db + added, kind)| >= |Listed(db, kind)|
    ensures Listed(db + added, kind) == Listed(db, kind) <==> forall i :: 0 <= i < |added| ==> !Belongs(added[i], kind)
    ensures (exists i :: 0 <= i < |added| && Belongs(added[i], kind)) ==> |Listed(db + added, kind)| > |Listed(db, kind)|
    decreases added
  {
    hide Belongs;
    if added == [] {
      assert db + added == db;
    } else {
      var n := |added| - 1;
      ListedGrows(db, added[..n], kind);
      assert (db + added)[..|db + added| - 1] == db + added[..n];
      PlacedLonger(added[n], Listed(db + added[..n], kind));
      assert forall i :: 0 <= i < n ==> added[..n][i] == added[i];
    }
  }

  lemma {:induction false} PlacedLonger(c: Country, list: seq<Country>)
    ensures |Placed(c, list)| == |list| + 1
  {
    if list != [] {
      PlacedLonger(c, list[1..]);
    }
  }

  /** The cached lists survive every operation but a bulk insert that fails,
      however codes and ids are used; after that they are right exactly if no
      country that got in belongs on one of them. */
  lemma ListsStayCoherent(s: State, op: Op)
    requires ListsCoherent(s)
    ensures ListsCoherent(Step(s, op))
            <==> (op.MultipleInsert? && !Complete(s, op.countries) ==> ListsMissNothing(s, op.countries))
  {
    hide Listed, Belongs, Complete, AddedOf;
    if op.MultipleInsert? {
      forall kind ensures Listed(s.db + AddedOf(s, op.countries), kind) == Listed(s.db, kind)
                          <==> forall i :: 0 <= i < |AddedOf(s, op.countries)| ==> !Belongs(AddedOf(s, op.countries)[i], kind)
      {
        ListedGrows(s.db, AddedOf(s, op.countries), kind);
      }
    }
  }

  ghost predicate ListsMissNothing(s: State, cs: seq<Country>) {
    forall kind, i :: kind in s.lists && 0 <= i < |AddedOf(s, cs)| ==> !Belongs(AddedOf(s, cs)[i], kind)
  }

  lemma {:induction false} ByCodeConcat(a: seq<Country>, b: seq<Country>, code: string)
    ensures ByCode(a + b, code) == if ByCode(a, code).Some? then ByCode(a, code) else ByCode(b, code)
  {
    if a == [] {
      assert a + b == b;
    } else {
      ByCodeConcat(a[1..], b, code);
      assert (a + b)[1..] == a[1..] + b;
    }
  }

  lemma {:induction false} ByCodeFinds(db: seq<Country>, code: string)
    ensures ByCode(db, code).Some? <==> HasCode(db, code)
    ensures ByCode(db, code).Some? ==> ByCode(db, code).value in db && ByCode(db, code).value.code == code
  {
    if db != [] && db[0].code != code {
      ByCodeFinds(db[1..], code);
      if HasCode(db, code) {
        var i :| 0 <= i < |db| && db[i].code == code;
        assert db[1..][i - 1] == db[i];
      }
    }
  }

  lemma {:induction false} ByCodeOfUnique(db: seq<Country>, i: nat)
    requires UniqueCodes(db) && i < |db|
    ensures ByCode(db, db[i].code) == Some(db[i])
  {
    if i > 0 {
      ByCodeOfUnique(db[1..], i - 1);
    }
  }

  lemma ByCodeAround(a: seq<Country>, c: Country, b: seq<Country>, code: string)
    ensures ByCode(a + [c] + b, code)
            == if ByCode(a, code).Some? then ByCode(a, code)
               else if c.code == code then Some(c)
               else ByCode(b, code)
  {
    ByCodeConcat(a + [c], b, code);
    ByCodeConcat(a, [c], code);
    assert [c][1..] == [];
  }

  /** Inserting keeps the entries by code right exactly if the code is new. */
  lemma InsertKeepsCodes(s: State, c: Country)
    requires CodesCoherent(s) && !HasId(s.db, CountryId, c.id)
    ensures CodesCoherent(Inserted(s, c)) <==> !HasCode(s.db, c.code)
  {
    var after := Inserted(s, c);
    forall code ensures ByCode(after.db, code)
                        == if ByCode(s.db, code).Some? then ByCode(s.db, code)
                           else if c.code == code then Some(c) else None {
      ByCodeAround(s.db, c, [], code);
      assert s.db + [c] + [] == s.db + [c];
    }
    ByCodeFinds(s.db, c.code);
    if HasCode(s.db, c.code) {
      var d := ByCode(s.db, c.code).value;
      assert after.byCode[c.code] == c;
      assert d.id != c.id by {
        var i :| 0 <= i < |s.db| && s.db[i] == d;
      }
    }
  }

  lemma MultipleInsertKeepsCodes(s: State, cs: seq<Country>)
    requires CodesCoherent(s)
    ensures CodesCoherent(Step(s, MultipleInsert(cs)))
  {
    hide AddedOf, Complete;
    forall code | code in s.byCode ensures ByCode(s.db + AddedOf(s, cs), code) == ByCode(s.db, code) {
      ByCodeConcat(s.db, AddedOf(s, cs), code);
    }
  }

  /** Updating a stored country, with codes unique before and after, keeps the
      entries by code right exactly if its code stays or its old code is not
      cached: nothing ever drops the entry of a code. */
  lemma UpdateKeepsCodes(s: State, i: nat, c: Country)
    requires CodesCoherent(s) && UniqueCodes(s.db) && UniqueCodes(Replaced(s.db, CountryId, c))
    requires i < |s.db| && s.db[i].id == c.id && forall j :: 0 <= j < i ==> s.db[j].id != c.id
    ensures CodesCoherent(Updated(s, c)) <==> s.db[i].code == c.code || s.db[i].code !in s.byCode
  {
    ReplacedAround(s.db, CountryId, c, i);
    var a, was, b := s.db[..i], s.db[i], s.db[i + 1..];
    ByCodeOfUnique(Replaced(s.db, CountryId, c), i);
    assert ByCode(a + [c] + b, c.code) == Some(c);
    forall code | code != c.code && code != was.code ensures ByCode(a + [c] + b, code) == ByCode(s.db, code) {
      ByCodeAround(a, was, b, code);
      ByCodeAround(a, c, b, code);
    }
    if was.code != c.code {
      OldCodeIsGone(a, was, b, c);
    }
    CodesAfterWrite(s, a + [c] + b, was.code, c);
  }

  lemma CodesAfterWrite(s: State, db: seq<Country>, oldCode: string, c: Country)
    requires CodesCoherent(s) && ByCode(db, c.code) == Some(c)
    requires forall code :: code != c.code && code != oldCode ==> ByCode(db, code) == ByCode(s.db, code)
    requires oldCode != c.code ==> ByCode(db, oldCode) == None
    ensures CodesCoherent(CacheUpdated(s.(db := db), Some(c))) <==> oldCode == c.code || oldCode !in s.byCode
  {
    var after := CacheUpdated(s.(db := db), Some(c));
    if oldCode != c.code && oldCode in s.byCode {
      assert oldCode in after.byCode;
    }
  }

  lemma OldCodeIsGone(a: seq<Country>, was: Country, b: seq<Country>, c: Country)
    requires UniqueCodes(a + [was] + b) && was.code != c.code
    ensures ByCode(a + [c] + b, was.code) == None
  {
    var db := a + [was] + b;
    ByCodeFinds(a + [c] + b, was.code);
    forall i | 0 <= i < |a + [c] + b| ensures (a + [c] + b)[i].code != was.code {
      assert db[|a|] == was;
      if i != |a| {
        assert db[i] == (a + [c] + b)[i];
      }
    }
  }

  /** Updating a country that is not stored plants a document in the cache that
      the collection does not have. */
  lemma UpdateOfMissing(s: State, c: Country)
    requires CodesCoherent(s) && !HasId(s.db, CountryId, c.id)
    ensures !CodesCoherent(Updated(s, c))
  {
    NothingReplaced(s.db, CountryId, c);
    ByCodeFinds(s.db, c.code);
    assert c.code in Updated(s, c).byCode;
    assert c !in s.db;
  }

  /** Codes are unique and never change, and bulk inserts are complete or leave the
      cached lists right. */
  ghost predicate Sound(s: State, op: Op) {
    match op
    case Insert(c) => HasId(s.db, CountryId, c.id) || !HasCode(s.db, c.code)
    case MultipleInsert(cs) =>
      UniqueCodes(s.db + AddedOf(s, cs)) && (Complete(s, cs) || ListsMissNothing(s, cs))
    case Update(c) => exists i :: 0 <= i < |s.db| && s.db[i].id == c.id && s.db[i].code == c.code
                                  && forall j :: 0 <= j < i ==> s.db[j].id != c.id
    case _ => true
  }

  ghost predicate SoundRun(s: State, ops: seq<Op>)
    decreases ops
  {
    ops == [] || (Sound(s, ops[0]) && SoundRun(Step(s, ops[0]), ops[1..]))
  }

  lemma SameCodes(db: seq<Country>, c: Country, i: nat)
    requires UniqueCodes(db) && i < |db| && db[i].id == c.id && db[i].code == c.code
    requires forall j :: 0 <= j < i ==> db[j].id != c.id
    ensures UniqueCodes(Replaced(db, CountryId, c))
  {
    ReplacedAround(db, CountryId, c, i);
    forall j | 0 <= j < |db| ensures Replaced(db, CountryId, c)[j].code == db[j].code {
    }
  }

  lemma SoundStep(s: State, op: Op)
    requires UniqueCodes(s.db) && CodesCoherent(s) && Sound(s, op)
    ensures UniqueCodes(Step(s, op).db) && CodesCoherent(Step(s, op))
  {
    match op
    case Insert(c) =>
      if !HasId(s.db, CountryId, c.id) {
        InsertKeepsCodes(s, c);
      }
    case MultipleInsert(cs) => MultipleInsertKeepsCodes(s, cs);
    case Update(c) =>
      var i :| 0 <= i < |s.db| && s.db[i].id == c.id && s.db[i].code == c.code
               && forall j :: 0 <= j < i ==> s.db[j].id != c.id;
      SameCodes(s.db, c, i);
      UpdateKeepsCodes(s, i, c);
    case _ =>
  }

  /** In every run with unique and unchanging codes, every cached read answers
      what the collection would, whatever entries the cache loses. */
  lemma {:induction false} ReadsStayCoherent(s: State, ops: seq<Op>)
    requires UniqueCodes(s.db) && CodesCoherent(s) && ListsCoherent(s) && SoundRun(s, ops)
    ensures CodesCoherent(Run(s, ops)) && ListsCoherent(Run(s, ops))
    decreases ops
  {
    if ops != [] {
      SoundStep(s, ops[0]);
      ListsStayCoherent(s, ops[0]);
      ReadsStayCoherent(Step(s, ops[0]), ops[1..]);
    }
  }

  lemma FourLists(kinds: set<ListKind>)
    ensures kinds <= {All, WithVat, ByRisk(false), ByRisk(true)}
  {
    forall k | k in kinds ensures k in {All, WithVat, ByRisk(false), ByRisk(true)} {
      match k
      case All =>
      case WithVat =>
      case ByRisk(high) =>
    }
  }

  class Repository {
    var db: seq<Country>
    var byCode: map<string, Country>
    var lists: map<ListKind, seq<Country>>

    ghost function Now(): State reads this {
      State(db, byCode, lists)
    }

    method GetByIsoCodeA2(code: string) returns (c: Option<Country>)
      modifies this`byCode
      ensures c == if code in old(byCode) then Some(old(byCode)[code]) else ByCode(db, code)
      ensures Now() == Step(old(Now()), Op.GetByIsoCodeA2(code))
    {
      if code in byCode {
        return Some(byCode[code]);
      }
      c := ByCode(db, code);
      if c.Some? {
        byCode := byCode[code := c.value];
      }
    }

    /** GetAll, FindByVatEnabled and FindByHighRisk. */
    method List(kind: ListKind) returns (list: seq<Country>)
      modifies this`lists
      ensures list == if kind in old(lists) then old(lists)[kind] else Listed(db, kind)
      ensures Now() == Step(old(Now()), Op.List(kind))
    {
      if kind in lists {
        return lists[kind];
      }
      list := Listed(db, kind);
      lists := lists[kind := list];
    }

    method UpdateCache(written: Option<Country>)
      modifies this`byCode, this`lists
      ensures Now() == CacheUpdated(old(Now()), written)
    {
      if written.Some? {
        byCode := byCode[written.value.code := written.value];
      }
      lists := lists - {All};
      lists := lists - {WithVat};
      lists := lists - {ByRisk(false)};
      lists := lists - {ByRisk(true)};
      FourLists(old(lists).Keys);
    }

    method Insert(c: Country) returns (ok: bool)
      modifies this
      ensures ok == !HasId(old(db), CountryId, c.id)
      ensures Now() == Step(old(Now()), Op.Insert(c))
    {
      ok := !HasId(db, CountryId, c.id);
      if ok {
        db := db + [c];
        UpdateCache(Some(c));
      }
    }

    method MultipleInsert(cs: seq<Country>) returns (ok: bool)
      modifies this
      ensures Now() == Step(old(Now()), Op.MultipleInsert(cs))
      ensures ok == Complete(old(Now()), cs) && (ok ==> cs != [])
    {
      var added := Admitted(db, CountryId, cs);
      db := db + added;
      if cs == [] || |added| < |cs| {
        return false;
      }
      UpdateCache(None);
      return true;
    }

    method Update(c: Country)
      modifies this
      ensures Now() == Step(old(Now()), Op.Update(c))
    {
      db := Replaced(db, CountryId, c);
      UpdateCache(Some(c));
    }
  }
}
