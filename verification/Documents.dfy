/** Collections of documents that are told apart by an id. */
module Documents {

  predicate HasId<T>(db: seq<T>, idOf: T -> string, id: string) {
    exists i :: 0 <= i < |db| && idOf(db[i]) == id
  }

  /** Replaces the first document with the same id, if there is one. */
  function Replaced<T>(db: seq<T>, idOf: T -> string, t: T): seq<T> {
    if db == [] then []
    else if idOf(db[0]) == idOf(t) then [t] + db[1..]
    else [db[0]] + Replaced(db[1..], idOf, t)
  }

  lemma {:induction false} ReplacedAround<T>(db: seq<T>, idOf: T -> string, t: T, i: nat)
    requires i < |db| && idOf(db[i]) == idOf(t)
    requires forall j :: 0 <= j < i ==> idOf(db[j]) != idOf(t)
    ensures Replaced(db, idOf, t) == db[..i] + [t] + db[i + 1..]
    ensures db == db[..i] + [db[i]] + db[i + 1..]
  {
    if i > 0 {
      ReplacedAround(db[1..], idOf, t, i - 1);
      assert db[1..][..i - 1] == db[1..i] && db[1..][i..] == db[i + 1..];
    }
  }

  lemma {:induction false} NothingReplaced<T>(db: seq<T>, idOf: T -> string, t: T)
    requires !HasId(db, idOf, idOf(t))
    ensures Replaced(db, idOf, t) == db
  {
    if db != [] {
      assert idOf(db[0]) != idOf(t);
      assert forall i :: 0 <= i < |db| - 1 ==> db[1..][i] == db[i + 1];
      NothingReplaced(db[1..], idOf, t);
    }
  }

  /** A bulk insert stops at the first id that is taken. */
  function Admitted<T>(db: seq<T>, idOf: T -> string, ts: seq<T>): (added: seq<T>)
    ensures |added| <= |ts|
    decreases ts
  {
    if ts == [] || HasId(db, idOf, idOf(ts[0])) then []
    else [ts[0]] + Admitted(db + [ts[0]], idOf, ts[1..])
  }

  lemma {:induction false} AdmittedIdsAreNew<T>(db: seq<T>, idOf: T -> string, ts: seq<T>)
    ensures var added := Admitted(db, idOf, ts);
            && added == ts[..|added|]
            && (forall i :: 0 <= i < |added| ==> !HasId(db, idOf, idOf(added[i])))
            && (forall i, j :: 0 <= i < j < |added| ==> idOf(added[i]) != idOf(added[j]))
    decreases ts
  {
    if ts != [] && !HasId(db, idOf, idOf(ts[0])) {
      var longer := db + [ts[0]];
      var rest := Admitted(longer, idOf, ts[1..]);
      AdmittedIdsAreNew(longer, idOf, ts[1..]);
      assert longer[|db|] == ts[0];
      assert forall i :: 0 <= i < |db| ==> longer[i] == db[i];
      var added := Admitted(db, idOf, ts);
      assert forall i :: 1 <= i < |added| ==> added[i] == rest[i - 1];
      forall i | 0 <= i < |added| ensures !HasId(db, idOf, idOf(added[i])) {
        assert i > 0 ==> !HasId(longer, idOf, idOf(rest[i - 1]));
      }
      forall i, j | 0 <= i < j < |added| ensures idOf(added[i]) != idOf(added[j]) {
        if i == 0 {
          assert idOf(longer[|db|]) == idOf(added[0]) && !HasId(longer, idOf, idOf(rest[j - 1]));
        }
      }
    }
  }
}
