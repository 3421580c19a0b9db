/** The gateway's access tokens, one per terminal, kept behind a lock. */
module CardPayTokens {
  import opened Options

  /** The tokens a server grants, with the seconds each is good for. */
  datatype Grant = Grant(access: string, refresh: string, accessFor: int, refreshFor: int)

  datatype Token = Token(grant: Grant, accessUntil: int, refreshUntil: int)

  /** A request fails, or its body is not what was asked for, or it is. */
  datatype Answer = Failed | Malformed | Granted(grant: Grant)

  datatype Vault = Vault(tokens: map<string, Token>, locked: bool)

  datatype Outcome = Ready | Refused | Stuck

  function Issued(g: Grant, now: int): Token {
    Token(g, now + g.accessFor, now + g.refreshFor)
  }

  predicate AccessGood(v: Vault, key: string, now: int) {
    key in v.tokens && v.tokens[key].grant.accessFor > 0 && v.tokens[key].accessUntil >= now
  }

  predicate RefreshGood(v: Vault, key: string, now: int) {
    key in v.tokens && v.tokens[key].grant.refreshFor > 0 && v.tokens[key].refreshUntil >= now
  }

  /** Storing an answer waits for the lock, and a malformed answer takes the lock
      and never gives it back. */
  function Kept(v: Vault, key: string, answer: Answer, now: int): (Vault, Outcome) {
    if answer == Failed then (v, Refused)
    else if v.locked then (v, Stuck)
    else match answer
      case Granted(g) => (v.(tokens := v.tokens[key := Issued(g, now)]), Ready)
      case _ => (v.(locked := true), Refused)
  }

  /** One request for authorisation: what is at hand, else a refresh, else a new
      grant. */
  function Authorised(v: Vault, key: string, now: int, refreshed: Answer, granted: Answer): (Vault, Outcome) {
    if AccessGood(v, key, now) then (v, Ready)
    else if RefreshGood(v, key, now) then
      var (w, outcome) := Kept(v, key, refreshed, now);
      if outcome == Refused then Kept(w, key, granted, now) else (w, outcome)
    else Kept(v, key, granted, now)
  }

  class TokenStore {
    var tokens: map<string, Token>
    var locked: bool

    constructor ()
      ensures Content() == Vault(map[], false)
    {
      tokens, locked := map[], false;
    }

    function Content(): Vault
      reads this
    {
      Vault(tokens, locked)
    }

    /** Stores the token in an answered body; none stands for one that is not
        well formed. */
    method SetToken(body: Option<Grant>, key: string, now: int) returns (outcome: Outcome)
      modifies this
      ensures (Content(), outcome)
           == Kept(old(Content()), key, if body.Some? then Granted(body.value) else Malformed, now)
    {
      if locked {
        return Stuck;
      }
      locked := true;
      if body.None? {
        return Refused;
      }
      tokens := tokens[key := Token(body.value, now + body.value.accessFor, now + body.value.refreshFor)];
      locked := false;
      return Ready;
    }

    /** A token good for access, if need be by a refresh. */
    method GetToken(key: string, now: int, refreshed: Answer) returns (token: Option<Token>, stuck: bool)
      modifies this
      ensures !AccessGood(old(Content()), key, now) && RefreshGood(old(Content()), key, now)
              ==> var (w, outcome) := Kept(old(Content()), key, refreshed, now);
                  Content() == w && stuck == (outcome == Stuck) && token.Some? == (outcome == Ready)
      ensures AccessGood(old(Content()), key, now) || !RefreshGood(old(Content()), key, now)
              ==> Content() == old(Content()) && !stuck && token.Some? == AccessGood(Content(), key, now)
      ensures token.Some? ==> key in tokens && token.value == tokens[key]
    {
      stuck := false;
      if key !in tokens {
        return None, false;
      }
      var kept := tokens[key];
      if kept.grant.accessFor > 0 && kept.accessUntil >= now {
        return Some(kept), false;
      }
      if kept.grant.refreshFor <= 0 || kept.refreshUntil < now {
        return None, false;
      }
      if refreshed == Failed {
        return None, false;
      }
      var outcome := SetToken(if refreshed.Granted? then Some(refreshed.grant) else None, key, now);
      if outcome != Ready {
        return None, outcome == Stuck;
      }
      return Some(tokens[key]), false;
    }

    method Auth(key: string, now: int, refreshed: Answer, granted: Answer) returns (outcome: Outcome)
      modifies this
      ensures (Content(), outcome) == Authorised(old(Content()), key, now, refreshed, granted)
    {
      var token, stuck := GetToken(key, now, refreshed);
      if stuck {
        return Stuck;
      }
      if token.Some? {
        return Ready;
      }
      if granted == Failed {
        return Refused;
      }
      outcome := SetToken(if granted.Granted? then Some(granted.grant) else None, key, now);
    }
  }

  // Runs

  datatype Request = Request(key: string, now: int, refreshed: Answer, granted: Answer)

  function Next(v: Vault, r: Request): Vault {
    Authorised(v, r.key, r.now, r.refreshed, r.granted).0
  }

  function Reply(v: Vault, r: Request): Outcome {
    Authorised(v, r.key, r.now, r.refreshed, r.granted).1
  }

  function AfterAll(v: Vault, requests: seq<Request>): Vault
    decreases requests
  {
    if requests == [] then v else Next(AfterAll(v, requests[..|requests| - 1]), requests[|requests| - 1])
  }

  /** Whether the request reads a malformed answer. */
  predicate Jams(v: Vault, r: Request) {
    && !AccessGood(v, r.key, r.now)
    && if RefreshGood(v, r.key, r.now)
       then r.refreshed == Malformed || (r.refreshed == Failed && r.granted == Malformed)
       else r.granted == Malformed
  }

  lemma JamsLock(v: Vault, r: Request)
    ensures Next(v, r).locked <==> v.locked || Jams(v, r)
  {
  }

  predicate JamsAt(v: Vault, requests: seq<Request>, i: nat)
    requires i < |requests|
  {
    Jams(AfterAll(v, requests[..i]), requests[i])
  }

  lemma EarlierRequestsOfPrefix(v: Vault, requests: seq<Request>, n: nat, i: nat)
    requires i < n <= |requests|
    ensures JamsAt(v, requests[..n], i) == JamsAt(v, requests, i)
  {
    assert requests[..n][..i] == requests[..i] && requests[..n][i] == requests[i];
  }

  /** The lock is lost in a run exactly at the first request that reads a
      malformed answer. */
  lemma {:induction false} LockIsLostByMalformedAnswer(v: Vault, requests: seq<Request>)
    requires !v.locked
    ensures AfterAll(v, requests).locked <==> exists i :: 0 <= i < |requests| && JamsAt(v, requests, i)
    decreases requests
  {
    hide Next, Jams;
    if requests != [] {
      var n := |requests| - 1;
      LockIsLostByMalformedAnswer(v, requests[..n]);
      JamsLock(AfterAll(v, requests[..n]), requests[n]);
      assert JamsAt(v, requests, n) == Jams(AfterAll(v, requests[..n]), requests[n]);
      hide JamsAt;
      forall i | 0 <= i < n ensures JamsAt(v, requests[..n], i) == JamsAt(v, requests, i) {
        EarlierRequestsOfPrefix(v, requests, n, i);
      }
    }
  }

  lemma LockedStays(v: Vault, r: Request)
    requires v.locked
    ensures Next(v, r) == v
  {
  }

  /** From then on no token is ever stored again, and a request is served only
      while the token from before the loss lasts; the rest are refused or wait
      for ever. */
  lemma {:induction false} LossIsForGood(v: Vault, requests: seq<Request>, r: Request)
    requires v.locked
    ensures AfterAll(v, requests) == v
    ensures Reply(AfterAll(v, requests), r) == Ready <==> AccessGood(v, r.key, r.now)
    ensures Reply(AfterAll(v, requests), r) == Refused
            <==> !AccessGood(v, r.key, r.now) && r.granted == Failed
                 && (RefreshGood(v, r.key, r.now) ==> r.refreshed == Failed)
    decreases requests
  {
    if requests != [] {
      LossIsForGood(v, requests[..|requests| - 1], r);
      LockedStays(v, requests[|requests| - 1]);
    }
  }

  /** A grant that is stored serves every later request up to the end of its access
      time, and a refresh up to the end of its refresh time; after that a new grant
      is needed. */
  lemma GrantLasts(v: Vault, key: string, g: Grant, at: int, r: Request)
    requires !v.locked && r.key == key
    ensures var w := Kept(v, key, Granted(g), at).0;
            && !w.locked && key in w.tokens && w.tokens[key].grant == g
            && (Reply(w, r.(refreshed := Failed, granted := Failed)) == Ready
                <==> 0 < g.accessFor && r.now <= at + g.accessFor)
            && (Reply(w, r.(granted := Failed)) == Ready
                <==> (0 < g.accessFor && r.now <= at + g.accessFor)
                     || (0 < g.refreshFor && r.now <= at + g.refreshFor && r.refreshed.Granted?))
            && forall other :: other != key ==>
                 (other in w.tokens <==> other in v.tokens) && (other in v.tokens ==> w.tokens[other] == v.tokens[other])
  {
  }

  /** As long as the lock is held by nobody, a request is served exactly if a
      token is good for access or a well-formed answer is read before a malformed
      one, and never waits unless it loses the lock itself. */
  lemma ServedWhileUnlocked(v: Vault, r: Request)
    requires !v.locked
    ensures Reply(v, r) == Ready
            <==> AccessGood(v, r.key, r.now)
                 || (RefreshGood(v, r.key, r.now) && r.refreshed.Granted?)
                 || (r.granted.Granted? && !(RefreshGood(v, r.key, r.now) && r.refreshed == Malformed))
    ensures Reply(v, r) == Stuck ==> Jams(v, r)
  {
  }
}
