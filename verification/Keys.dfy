/** Product keys: reservation by an order, redeeming, cancelling, and the daemon
    that returns expired reservations to the stock.

    Every operation is one atomic step of the database, so any interleaving of
    buyers and daemon is a sequence of the events below. */
module Keys {
  import opened Options

  type Id = string

  /** Seconds; the zero time stands for "not set". */
  type Time = int

  const NEVER: Time := 0

  datatype Key = Key(product: Id, platform: string, order: Option<Id>, reservedTo: Time, redeemedAt: Time)

  type Stock = map<Id, Key>

  predicate Free(k: Key, product: Id, platform: string) {
    k.product == product && k.platform == platform && k.order.None?
  }

  predicate Redeemed(k: Key) {
    k.redeemedAt != NEVER
  }

  predicate Reserved(k: Key) {
    k.reservedTo != NEVER
  }

  /** What `FindUnfinished` looks for. */
  predicate Expired(k: Key, now: Time) {
    NEVER < k.reservedTo < now
  }

  /** One step of the store. `Reserve` names the free key the database picked. */
  datatype Event =
    | Insert(id: Id, product: Id, platform: string)
    | Reserve(product: Id, platform: string, order: Id, deadline: Time, picked: Id)
    | Cancel(id: Id)
    | Finish(id: Id, at: Time)

  /** Steps that find nothing to do fail and change nothing, so only the others
      are listed: no restriction on who calls them, or when. The clock never
      shows the zero time, nor does a deadline computed from it. */
  predicate Enabled(s: Stock, e: Event) {
    match e
    case Insert(id, _, _) => id !in s
    case Reserve(product, platform, _, deadline, picked) =>
      picked in s && Free(s[picked], product, platform) && deadline > NEVER
    case Cancel(id) => id in s
    case Finish(id, at) => id in s && at > NEVER
  }

  function Apply(s: Stock, e: Event): Stock
    requires Enabled(s, e)
  {
    match e
    case Insert(id, product, platform) => s[id := Key(product, platform, None, NEVER, NEVER)]
    case Reserve(_, _, order, deadline, picked) => s[picked := s[picked].(order := Some(order), reservedTo := deadline)]
    case Cancel(id) => s[id := s[id].(order := None, reservedTo := NEVER)]
    case Finish(id, at) => s[id := s[id].(reservedTo := NEVER, redeemedAt := at)]
  }

  predicate Runs(s: Stock, events: seq<Event>)
    decreases events
  {
    events == [] || (Enabled(s, events[0]) && Runs(Apply(s, events[0]), events[1..]))
  }

  function After(s: Stock, events: seq<Event>): Stock
    requires Runs(s, events)
    decreases events
  {
    if events == [] then s else After(Apply(s, events[0]), events[1..])
  }

  /** Cancelling only what is still reserved, finishing only what an order
      holds: the discipline the store itself does not enforce. */
  predicate Guarded(s: Stock, e: Event) {
    match e
    case Cancel(id) => id in s && Reserved(s[id])
    case Finish(id, _) => id in s && s[id].order.Some?
    case _ => true
  }

  predicate GuardedRun(s: Stock, events: seq<Event>)
    requires Runs(s, events)
    decreases events
  {
    events == [] || (Guarded(s, events[0]) && GuardedRun(Apply(s, events[0]), events[1..]))
  }

  // Every run

  /** A deadline is only ever found on a key an order holds. */
  ghost predicate DeadlinesHeld(s: Stock) {
    forall id :: id in s ==> s[id].reservedTo >= NEVER && (Reserved(s[id]) ==> s[id].order.Some?)
  }

  lemma {:induction false} DeadlinesStayHeld(s: Stock, events: seq<Event>)
    requires DeadlinesHeld(s) && Runs(s, events)
    ensures DeadlinesHeld(After(s, events))
    decreases events
  {
    if events != [] {
      DeadlinesStayHeld(Apply(s, events[0]), events[1..]);
    }
  }

  function FreeKeys(s: Stock, product: Id, platform: string): set<Id> {
    set id | id in s && Free(s[id], product, platform)
  }

  function HeldKeys(s: Stock, product: Id, platform: string): set<Id> {
    set id | id in s && s[id].product == product && s[id].platform == platform && s[id].order.Some?
  }

  function Inserted(events: seq<Event>, product: Id, platform: string): nat {
    if events == [] then 0
    else (if events[0].Insert? && events[0].product == product && events[0].platform == platform then 1 else 0)
         + Inserted(events[1..], product, platform)
  }

  function AllKeys(s: Stock, product: Id, platform: string): set<Id> {
    set id | id in s && s[id].product == product && s[id].platform == platform
  }

  lemma StockPartition(s: Stock, product: Id, platform: string)
    ensures |FreeKeys(s, product, platform)| + |HeldKeys(s, product, platform)| == |AllKeys(s, product, platform)|
  {
    var free, held := FreeKeys(s, product, platform), HeldKeys(s, product, platform);
    assert free !! held && free + held == AllKeys(s, product, platform);
  }

  lemma StepCounted(s: Stock, e: Event, product: Id, platform: string)
    requires Enabled(s, e)
    ensures |AllKeys(Apply(s, e), product, platform)| == |AllKeys(s, product, platform)| + Inserted([e], product, platform)
  {
    if e.Insert? && e.product == product && e.platform == platform {
      assert AllKeys(Apply(s, e), product, platform) == AllKeys(s, product, platform) + {e.id};
    } else {
      assert AllKeys(Apply(s, e), product, platform) == AllKeys(s, product, platform);
    }
  }

  lemma {:induction false} KeysCounted(s: Stock, events: seq<Event>, product: Id, platform: string)
    requires Runs(s, events)
    ensures |AllKeys(After(s, events), product, platform)|
            == |AllKeys(s, product, platform)| + Inserted(events, product, platform)
    decreases events
  {
    if events != [] {
      StepCounted(s, events[0], product, platform);
      KeysCounted(Apply(s, events[0]), events[1..], product, platform);
    }
  }

  /** Key conservation: whatever buyers and daemon did, the keys still free and
      the keys held by some order are together the keys ever inserted. */
  lemma KeysConserved(events: seq<Event>, product: Id, platform: string)
    requires Runs(map[], events)
    ensures var s := After(map[], events);
            |FreeKeys(s, product, platform)| + |HeldKeys(s, product, platform)| == Inserted(events, product, platform)
    ensures DeadlinesHeld(After(map[], events))
  {
    var none: Stock := map[];
    assert AllKeys(none, product, platform) == {};
    KeysCounted(none, events, product, platform);
    StockPartition(After(none, events), product, platform);
    DeadlinesStayHeld(none, events);
  }

  // Selling a key once

  /** The order holds the key now and after every step of the run. */
  predicate HeldThroughout(s: Stock, events: seq<Event>, id: Id, order: Id)
    requires Runs(s, events)
    decreases events
  {
    && id in s && s[id].order == Some(order)
    && (events == [] || HeldThroughout(Apply(s, events[0]), events[1..], id, order))
  }

  predicate Issued(events: seq<Event>, id: Id) {
    exists i :: 0 <= i < |events| && events[i].Reserve? && events[i].picked == id
  }

  /** A key stays with its order exactly as long as nobody cancels it; while it
      stays, no reservation is given it. */
  lemma {:induction false} HeldUntilCancelled(s: Stock, events: seq<Event>, id: Id, order: Id)
    requires Runs(s, events) && id in s && s[id].order == Some(order)
    ensures HeldThroughout(s, events, id, order) <==> Cancel(id) !in events
    ensures HeldThroughout(s, events, id, order) ==> !Issued(events, id)
    decreases events
  {
    if events != [] {
      var e, t := events[0], Apply(s, events[0]);
      if e != Cancel(id) {
        HeldUntilCancelled(t, events[1..], id, order);
        assert events == [e] + events[1..];
        if Issued(events, id) {
          var i :| 0 <= i < |events| && events[i].Reserve? && events[i].picked == id;
          if i > 0 {
            assert events[1..][i - 1] == events[i];
          }
        }
      }
    }
  }

  /** In a disciplined run a redeemed key is held and carries no deadline. */
  ghost predicate Sold(s: Stock) {
    forall id :: id in s && Redeemed(s[id]) ==> s[id].order.Some? && !Reserved(s[id])
  }

  lemma {:induction false} GuardedRunsStaySold(s: Stock, events: seq<Event>)
    requires Sold(s) && Runs(s, events) && GuardedRun(s, events)
    ensures Sold(After(s, events))
    decreases events
  {
    if events != [] {
      GuardedRunsStaySold(Apply(s, events[0]), events[1..]);
    }
  }

  lemma {:induction false} GuardedRunsNeverCancelSold(s: Stock, events: seq<Event>, id: Id)
    requires Sold(s) && Runs(s, events) && GuardedRun(s, events)
    requires id in s && Redeemed(s[id])
    ensures Cancel(id) !in events
    decreases events
  {
    if events != [] {
      GuardedRunsNeverCancelSold(Apply(s, events[0]), events[1..], id);
      assert events == [events[0]] + events[1..];
    }
  }

  /** In every disciplined run a key once redeemed keeps its order for ever and
      is never given to another. */
  lemma RedeemedForGood(before: seq<Event>, later: seq<Event>, id: Id)
    requires Runs(map[], before) && GuardedRun(map[], before)
    requires Runs(After(map[], before), later) && GuardedRun(After(map[], before), later)
    requires id in After(map[], before) && Redeemed(After(map[], before)[id])
    ensures var k := After(map[], before)[id];
            k.order.Some? && HeldThroughout(After(map[], before), later, id, k.order.value)
    ensures !Issued(later, id)
  {
    var s := After(map[], before);
    GuardedRunsStaySold(map[], before);
    GuardedRunsNeverCancelSold(s, later, id);
    HeldUntilCancelled(s, later, id, s[id].order.value);
  }

  // The daemon

  predicate Finishes(events: seq<Event>, id: Id) {
    exists i :: 0 <= i < |events| && events[i].Finish? && events[i].id == id
  }

  predicate Touches(e: Event, id: Id) {
    match e
    case Insert(i, _, _) => i == id
    case Reserve(_, _, _, _, picked) => picked == id
    case Cancel(i) => i == id
    case Finish(i, _) => i == id
  }

  /** Nothing ever clears the time of redeeming, not even a cancellation. */
  lemma {:induction false} RedeemedOnlyByFinish(s: Stock, events: seq<Event>, id: Id)
    requires Runs(s, events) && id in s
    ensures id in After(s, events)
    ensures Redeemed(After(s, events)[id]) <==> Redeemed(s[id]) || Finishes(events, id)
    decreases events
  {
    if events != [] {
      var e, t, rest := events[0], Apply(s, events[0]), events[1..];
      RedeemedOnlyByFinish(t, rest, id);
      if Finishes(rest, id) {
        var i :| 0 <= i < |rest| && rest[i].Finish? && rest[i].id == id;
        assert events[i + 1] == rest[i];
      }
      if Finishes(events, id) && !(e.Finish? && e.id == id) {
        var i :| 0 <= i < |events| && events[i].Finish? && events[i].id == id;
        assert rest[i - 1] == events[i];
      }
    }
  }

  lemma {:induction false} UntouchedKeyStays(s: Stock, events: seq<Event>, id: Id)
    requires Runs(s, events) && id in s
    requires forall i :: 0 <= i < |events| ==> !Touches(events[i], id)
    ensures id in After(s, events) && After(s, events)[id] == s[id]
    decreases events
  {
    if events != [] {
      assert !Touches(events[0], id);
      UntouchedKeyStays(Apply(s, events[0]), events[1..], id);
    }
  }

  /** The daemon finds an expired reservation and cancels it later, while others
      go on. Its cancellation takes a redeemed key away from its buyer, and
      makes it free to be issued again, exactly if the key was redeemed between
      the two steps. */
  lemma DaemonRace(s: Stock, now: Time, between: seq<Event>, id: Id)
    requires Sold(s) && id in s && Expired(s[id], now)
    requires Runs(s, between)
    ensures var t := After(s, between);
            && id in t && Enabled(t, Cancel(id))
            && (Redeemed(t[id]) <==> Finishes(between, id))
            && Free(Apply(t, Cancel(id))[id], t[id].product, t[id].platform)
    ensures (forall i :: 0 <= i < |between| ==> !Touches(between[i], id)) ==> After(s, between)[id] == s[id]
  {
    RedeemedOnlyByFinish(s, between, id);
    if forall i :: 0 <= i < |between| ==> !Touches(between[i], id) {
      UntouchedKeyStays(s, between, id);
    }
  }

  /** Once that has happened the key goes to the next buyer although the first
      has redeemed it: the guard on cancelling is needed. */
  lemma LostRedeemIsReissued(s: Stock, id: Id, next: Id, deadline: Time)
    requires id in s && Redeemed(s[id]) && deadline > NEVER
    ensures var again := [Cancel(id), Reserve(s[id].product, s[id].platform, next, deadline, id)];
            && Runs(s, again)
            && id in After(s, again) && After(s, again)[id] == s[id].(order := Some(next), reservedTo := deadline)
            && (GuardedRun(s, again) <==> Reserved(s[id]))
  {
    var reserve := Reserve(s[id].product, s[id].platform, next, deadline, id);
    var again := [Cancel(id), reserve];
    assert again[1..] == [reserve];
    assert [reserve][1..] == [];
    TwoSteps(s, Cancel(id), reserve);
    var t := Apply(s, Cancel(id));
    assert GuardedRun(Apply(t, reserve), []);
    assert GuardedRun(t, [reserve]);
  }

  const UPLOADED := Insert("k", "p", "steam")
  const TAKEN := Reserve("p", "steam", "first", 10, "k")
  const USED := Finish("k", 11)
  const TAKEN_BACK := Cancel("k")
  const TAKEN_AGAIN := Reserve("p", "steam", "second", 30, "k")

  lemma {:induction false} RunsInTwo(s: Stock, a: seq<Event>, b: seq<Event>)
    requires Runs(s, a) && Runs(After(s, a), b)
    ensures Runs(s, a + b) && After(s, a + b) == After(After(s, a), b)
    decreases a
  {
    if a == [] {
      assert a + b == b;
    } else {
      RunsInTwo(Apply(s, a[0]), a[1..], b);
      assert (a + b)[1..] == a[1..] + b;
    }
  }

  lemma TwoSteps(s: Stock, e: Event, f: Event)
    requires Enabled(s, e) && Enabled(Apply(s, e), f)
    ensures Runs(s, [e, f]) && After(s, [e, f]) == Apply(Apply(s, e), f)
  {
    assert [e, f][1..] == [f] && [f][1..] == [];
    var t := Apply(s, e);
    assert Runs(Apply(t, f), []) && After(Apply(t, f), []) == Apply(t, f);
    assert Runs(t, [f]) && After(t, [f]) == After(Apply(t, f), []);
  }

  /** The whole run from an empty store: a key is uploaded and reserved, the
      daemon finds it expired, its buyer redeems it, the daemon cancels it, and
      it goes to a second buyer although the first has used it. */
  lemma RedeemCanBeLost()
    ensures var before, later := [UPLOADED, TAKEN], [USED] + [TAKEN_BACK, TAKEN_AGAIN];
            && Runs(map[], before) && "k" in After(map[], before) && Expired(After(map[], before)["k"], 11)
            && Runs(map[], before + later)
            && "k" in After(map[], before + later)
            && After(map[], before + later)["k"] == Key("p", "steam", Some("second"), 30, 11)
  {
    var empty: Stock := map[];
    TwoSteps(empty, UPLOADED, TAKEN);
    var held := Apply(Apply(empty, UPLOADED), TAKEN);
    var used := Apply(held, USED);
    assert [USED][1..] == [] && Runs(held, [USED]) && After(held, [USED]) == used;
    TwoSteps(used, TAKEN_BACK, TAKEN_AGAIN);
    RunsInTwo(held, [USED], [TAKEN_BACK, TAKEN_AGAIN]);
    RunsInTwo(empty, [UPLOADED, TAKEN], [USED] + [TAKEN_BACK, TAKEN_AGAIN]);
  }

  ghost function Returned(s: Stock, ids: set<Id>): Stock {
    map id | id in s :: if id in ids then s[id].(order := None, reservedTo := NEVER) else s[id]
  }

  lemma OneMoreReturned(s: Stock, ids: set<Id>, id: Id)
    requires id in s && id !in ids
    ensures Enabled(Returned(s, ids), Cancel(id))
    ensures Apply(Returned(s, ids), Cancel(id)) == Returned(s, ids + {id})
  {
  }

  lemma AllReturned(s: Stock, ids: set<Id>, now: Time)
    requires forall id :: id in ids <==> id in s && Expired(s[id], now)
    ensures Returned(s, ids) == Swept(s, now)
    ensures ids == set id | id in s && Expired(s[id], now)
  {
  }

  function Swept(s: Stock, now: Time): Stock {
    map id | id in s :: if Expired(s[id], now) then s[id].(order := None, reservedTo := NEVER) else s[id]
  }

  /** A sweep that nothing interrupts leaves no reservation that had expired,
      touches nothing else, and in particular takes no sold key away. */
  lemma SweepIsSafe(s: Stock, now: Time)
    ensures Swept(s, now).Keys == s.Keys
    ensures forall id :: id in s ==> !Expired(Swept(s, now)[id], now)
    ensures forall id :: id in s && !Expired(s[id], now) ==> Swept(s, now)[id] == s[id]
    ensures forall id :: id in s && Expired(s[id], now) ==> Free(Swept(s, now)[id], s[id].product, s[id].platform)
    ensures Sold(s) ==> forall id :: id in s && Redeemed(s[id]) ==> Swept(s, now)[id] == s[id]
    ensures Sold(s) ==> Sold(Swept(s, now))
  {
  }

  /** A reserved key that nobody cancels keeps its order; its deadline is the one
      given until the key is redeemed, and then none. */
  lemma {:induction false} ReservedUntilFinished(s: Stock, events: seq<Event>, id: Id, order: Id, deadline: Time)
    requires Runs(s, events) && id in s && Cancel(id) !in events
    requires s[id].order == Some(order) && s[id].reservedTo == deadline
    ensures var t := After(s, events);
            id in t && t[id].order == Some(order) && t[id].reservedTo == if Finishes(events, id) then 0 else deadline
    decreases events
  {
    if events != [] {
      var e, rest := events[0], events[1..];
      assert events == [e] + rest;
      var held := if e.Finish? && e.id == id then 0 else deadline;
      ReservedUntilFinished(Apply(s, e), rest, id, order, held);
      if Finishes(rest, id) {
        var i :| 0 <= i < |rest| && rest[i].Finish? && rest[i].id == id;
        assert events[i + 1] == rest[i];
      }
      if Finishes(events, id) && !(e.Finish? && e.id == id) {
        var i :| 0 <= i < |events| && events[i].Finish? && events[i].id == id;
        assert rest[i - 1] == events[i];
      }
    }
  }

  /** A key reserved with a deadline, whatever happens short of a cancellation of
      it, keeps its order through a sweep exactly if it has been redeemed or the
      clock has not passed the deadline; else it is free again. */
  lemma ReservationLasts(s: Stock, product: Id, platform: string, order: Id, deadline: Time, id: Id,
                         later: seq<Event>, now: Time)
    requires Enabled(s, Reserve(product, platform, order, deadline, id))
    requires var t := Apply(s, Reserve(product, platform, order, deadline, id)); Runs(t, later)
    requires Cancel(id) !in later
    ensures var held := Apply(s, Reserve(product, platform, order, deadline, id));
            var left := Swept(After(held, later), now);
            && held[id].order == Some(order)
            && id in left
            && left[id].order == (if Finishes(later, id) || now <= deadline then Some(order) else None)
            && left[id].product == product && left[id].platform == platform
  {
    var t := Apply(s, Reserve(product, platform, order, deadline, id));
    ReservedUntilFinished(t, later, id, order, deadline);
    KeysStayWhatTheyAre(t, later, id);
  }

  lemma {:induction false} KeysStayWhatTheyAre(s: Stock, events: seq<Event>, id: Id)
    requires Runs(s, events) && id in s
    ensures var t := After(s, events);
            id in t && t[id].product == s[id].product && t[id].platform == s[id].platform
    decreases events
  {
    if events != [] {
      KeysStayWhatTheyAre(Apply(s, events[0]), events[1..], id);
    }
  }

  class KeyRepository {
    var keys: Stock

    constructor ()
      ensures keys == map[]
    {
      keys := map[];
    }

    method Insert(id: Id, product: Id, platform: string) returns (ok: bool)
      modifies this
      ensures ok == Enabled(old(keys), Event.Insert(id, product, platform))
      ensures keys == if ok then Apply(old(keys), Event.Insert(id, product, platform)) else old(keys)
    {
      ok := id !in keys;
      if ok {
        keys := keys[id := Key(product, platform, None, NEVER, NEVER)];
      }
    }

    method ReserveKey(product: Id, platform: string, order: Id, now: Time, ttl: int) returns (picked: Option<Id>)
      requires now + ttl > NEVER
      modifies this
      ensures picked.None? <==> FreeKeys(old(keys), product, platform) == {}
      ensures picked.None? ==> keys == old(keys)
      ensures picked.Some? ==> var e := Reserve(product, platform, order, now + ttl, picked.value);
                               Enabled(old(keys), e) && keys == Apply(old(keys), e)
      ensures picked.Some? ==>
                && picked.value in old(keys) && old(keys)[picked.value].order == None
                && keys == old(keys)[picked.value := Key(product, platform, Some(order), now + ttl,
                                                         old(keys)[picked.value].redeemedAt)]
    {
      var free := FreeKeys(keys, product, platform);
      if free == {} {
        return None;
      }
      var id :| id in free;
      keys := keys[id := keys[id].(order := Some(order), reservedTo := now + ttl)];
      return Some(id);
    }

    method CancelById(id: Id) returns (ok: bool)
      modifies this
      ensures ok == Enabled(old(keys), Cancel(id))
      ensures keys == if ok then Apply(old(keys), Cancel(id)) else old(keys)
    {
      ok := id in keys;
      if ok {
        keys := keys[id := keys[id].(reservedTo := NEVER, order := None)];
      }
    }

    method FinishRedeemById(id: Id, now: Time) returns (ok: bool)
      requires now > NEVER
      modifies this
      ensures ok == Enabled(old(keys), Finish(id, now))
      ensures keys == if ok then Apply(old(keys), Finish(id, now)) else old(keys)
    {
      ok := id in keys;
      if ok {
        keys := keys[id := keys[id].(reservedTo := NEVER, redeemedAt := now)];
      }
    }

    method CountKeysByProductPlatform(product: Id, platform: string) returns (count: nat)
      ensures count == |FreeKeys(keys, product, platform)|
      ensures count + |HeldKeys(keys, product, platform)| == |AllKeys(keys, product, platform)|
    {
      StockPartition(keys, product, platform);
      count := |FreeKeys(keys, product, platform)|;
    }

    /** The documents come in no particular order, each once. */
    method FindUnfinished(now: Time) returns (found: seq<Id>)
      ensures forall id :: id in found <==> id in keys && 0 < keys[id].reservedTo && keys[id].reservedTo < now
      ensures forall i, j :: 0 <= i < j < |found| ==> found[i] != found[j]
    {
      found := [];
      var rest := set id | id in keys && Expired(keys[id], now);
      while rest != {}
        invariant forall id :: id in keys && Expired(keys[id], now) <==> id in found || id in rest
        invariant forall id :: id in rest ==> id !in found
        invariant forall i, j :: 0 <= i < j < |found| ==> found[i] != found[j]
        decreases rest
      {
        var id :| id in rest;
        found := found + [id];
        rest := rest - {id};
      }
    }

    /** One turn of the daemon, with no step of anyone else in between. */
    method KeyDaemonProcess(now: Time) returns (counter: nat)
      modifies this
      ensures keys == Swept(old(keys), now)
      ensures forall id :: id in old(keys) ==>
                var was := old(keys)[id];
                id in keys && keys[id] == if 0 < was.reservedTo && was.reservedTo < now
                                          then Key(was.product, was.platform, None, 0, was.redeemedAt) else was
      ensures counter == |set id | id in old(keys) && Expired(old(keys)[id], now)|
    {
      counter := 0;
      var found := FindUnfinished(now);
      ghost var done: set<Id> := {};
      for i := 0 to |found|
        invariant counter == |done|
        invariant forall id :: id in done <==> id in found[..i]
        invariant keys == Returned(old(keys), done)
      {
        assert found[i] in found && found[i] !in found[..i];
        assert found[..i + 1] == found[..i] + [found[i]];
        OneMoreReturned(old(keys), done, found[i]);
        var ok := CancelById(found[i]);
        done := done + {found[i]};
        if ok {
          counter := counter + 1;
        }
      }
      assert found[..|found|] == found;
      AllReturned(old(keys), done, now);
    }
  }
}
