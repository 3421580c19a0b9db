/** The versioned cache: every key is stored under its version, an index ranks
    the versions by age, and all but the two newest are cleaned away. */
module CacheVersions {
  import opened Options
  import opened CacheKeys

  const VERSION_LIMIT := 2

  function Prefix(version: string): string {
    "cache:" + version + ":"
  }

  function StorageKey(version: string, key: string): string {
    Prefix(version) + key
  }

  /** The scan pattern of a version, which holds no wildcard of its own, selects
      what starts like its keys. */
  predicate KeyOf(version: string, stored: string) {
    Prefix(version) <= stored
  }

  /** A version and a key are read back from a stored key, if versions hold no
      colon. */
  lemma StorageKeyInjective(v: string, k: string, w: string, l: string)
    requires Plain(v) && Plain(w) && StorageKey(v, k) == StorageKey(w, l)
    ensures v == w && k == l
  {
    var s, t := StorageKey(v, k), StorageKey(w, l);
    assert s[6..] == v + ":" + k && t[6..] == w + ":" + l;
    HeadDetermined(v, k, w, l);
  }

  lemma VersionsApart(v: string, w: string, stored: string)
    requires Plain(v) && Plain(w) && KeyOf(v, stored) && KeyOf(w, stored)
    ensures v == w
  {
    var k, l := stored[|Prefix(v)|..], stored[|Prefix(w)|..];
    assert stored == StorageKey(v, k) == StorageKey(w, l);
    StorageKeyInjective(v, k, w, l);
  }

  /** A colon in a version lets one version's pattern select another's keys. */
  lemma ColonVersionsMix(v: string, w: string, k: string)
    ensures KeyOf(v, StorageKey(v + ":" + w, k))
  {
    assert StorageKey(v + ":" + w, k) == Prefix(v) + (w + ":" + k);
  }

  /** What the server answers to one step of a scan, and to unlinking what that
      step found. */
  datatype Reply = Page(keys: seq<string>, unlinked: bool) | ScanFailed

  type Store = map<string, string>

  function SetOf(keys: seq<string>): set<string> {
    set k | k in keys
  }

  /** What is stored after working off the replies: the first failure ends the
      scan. */
  function Remaining(store: Store, replies: seq<Reply>): Store
    decreases replies
  {
    if replies == [] || replies[0].ScanFailed? then store
    else if replies[0].keys == [] then Remaining(store, replies[1..])
    else if replies[0].unlinked then Remaining(store - SetOf(replies[0].keys), replies[1..])
    else store
  }

  /** Whether success is reported. A failed unlinking is: the wrong error is
      returned for it. */
  predicate Reported(replies: seq<Reply>)
    decreases replies
  {
    replies == []
    || (replies[0].Page? && ((replies[0].keys != [] && !replies[0].unlinked) || Reported(replies[1..])))
  }

  predicate Succeeds(r: Reply) {
    r.Page? && (r.keys == [] || r.unlinked)
  }

  /** A finished scan has shown every key that was stored all the while, and
      nothing the pattern does not select. */
  ghost predicate FullScan(store: Store, version: string, replies: seq<Reply>) {
    && (forall k :: k in store && KeyOf(version, k) ==> exists i :: 0 <= i < |replies| && Shows(replies[i], k))
    && (forall i, k :: 0 <= i < |replies| && Shows(replies[i], k) ==> KeyOf(version, k))
  }

  predicate Shows(r: Reply, k: string) {
    r.Page? && k in r.keys
  }

  /** Whether a step that succeeded, after none that failed, showed the key. */
  predicate Worked(replies: seq<Reply>, k: string)
    decreases replies
  {
    replies != [] && Succeeds(replies[0]) && (Shows(replies[0], k) || Worked(replies[1..], k))
  }

  lemma {:induction false} WorkedKeysAreGone(store: Store, replies: seq<Reply>, k: string)
    ensures k in Remaining(store, replies) <==> k in store && !Worked(replies, k)
    ensures k in Remaining(store, replies) ==> Remaining(store, replies)[k] == store[k]
    decreases replies
  {
    if replies != [] && replies[0].Page? && (replies[0].keys == [] || replies[0].unlinked) {
      WorkedKeysAreGone(if replies[0].keys == [] then store else store - SetOf(replies[0].keys), replies[1..], k);
    }
  }

  lemma {:induction false} CleanScanWorksShown(replies: seq<Reply>, k: string)
    requires forall i :: 0 <= i < |replies| ==> Succeeds(replies[i])
    ensures Worked(replies, k) <==> exists i :: 0 <= i < |replies| && Shows(replies[i], k)
    ensures Reported(replies)
    decreases replies
  {
    if replies != [] {
      assert Succeeds(replies[0]);
      assert forall i :: 0 <= i < |replies| - 1 ==> replies[1..][i] == replies[i + 1];
      CleanScanWorksShown(replies[1..], k);
      if exists i :: 0 <= i < |replies| && Shows(replies[i], k) {
        var i :| 0 <= i < |replies| && Shows(replies[i], k);
        assert i > 0 ==> Shows(replies[1..][i - 1], k);
      }
    }
  }

  /** The replies the server gives when a version is scanned. */
  type Server = string -> seq<Reply>

  /** What is stored after the versions are cleaned in turn, up to the first
      that reports a failure. */
  function CleanedStore(store: Store, versions: seq<string>, server: Server): Store
    decreases versions
  {
    if versions == [] then store
    else
      var next := Remaining(store, server(versions[0]));
      if Reported(server(versions[0])) then CleanedStore(next, versions[1..], server) else next
  }

  /** The versions then taken out of the index. */
  function CleanedVersions(versions: seq<string>, server: Server): seq<string>
    decreases versions
  {
    if versions == [] || !Reported(server(versions[0])) then []
    else [versions[0]] + CleanedVersions(versions[1..], server)
  }

  predicate AllReported(versions: seq<string>, server: Server) {
    forall i :: 0 <= i < |versions| ==> Reported(server(versions[i]))
  }

  /** Whether a version that is reached gets the key deleted. */
  predicate Dropped(versions: seq<string>, server: Server, k: string)
    decreases versions
  {
    versions != []
    && (Worked(server(versions[0]), k)
        || (Reported(server(versions[0])) && Dropped(versions[1..], server, k)))
  }

  lemma {:induction false} DroppedKeysAreGone(store: Store, versions: seq<string>, server: Server, k: string)
    ensures k in CleanedStore(store, versions, server) <==> k in store && !Dropped(versions, server, k)
    ensures k in CleanedStore(store, versions, server) ==> CleanedStore(store, versions, server)[k] == store[k]
    decreases versions
  {
    if versions != [] {
      WorkedKeysAreGone(store, server(versions[0]), k);
      if Reported(server(versions[0])) {
        DroppedKeysAreGone(Remaining(store, server(versions[0])), versions[1..], server, k);
      }
    }
  }

  /** A scan selects by its pattern; it may end early. */
  ghost predicate Selective(version: string, replies: seq<Reply>) {
    forall i, k :: 0 <= i < |replies| && Shows(replies[i], k) ==> KeyOf(version, k)
  }

  lemma {:induction false} WorkedKeysMatch(version: string, replies: seq<Reply>, k: string)
    requires Selective(version, replies) && Worked(replies, k)
    ensures KeyOf(version, k)
    decreases replies
  {
    if !Shows(replies[0], k) {
      assert forall i :: 0 <= i < |replies| - 1 ==> replies[1..][i] == replies[i + 1];
      WorkedKeysMatch(version, replies[1..], k);
    }
  }

  predicate Distinct(versions: seq<string>) {
    forall i, j :: 0 <= i < j < |versions| ==> versions[i] != versions[j]
  }

  ghost predicate AllSelective(versions: seq<string>, server: Server) {
    forall i :: 0 <= i < |versions| ==> Selective(versions[i], server(versions[i]))
  }

  lemma TailsAreWell(versions: seq<string>, server: Server)
    requires versions != [] && AllPlain(versions) && Distinct(versions) && AllSelective(versions, server)
    ensures AllPlain(versions[1..]) && Distinct(versions[1..]) && AllSelective(versions[1..], server)
    ensures forall i :: 0 <= i < |versions| - 1 ==> versions[1..][i] == versions[i + 1]
  {
    assert forall i :: 0 <= i < |versions| - 1 ==> versions[1..][i] == versions[i + 1];
  }

  lemma {:induction false} OnlyOwnScanDrops(versions: seq<string>, server: Server, n: nat, k: string)
    requires n < |versions| && AllPlain(versions) && Distinct(versions) && AllSelective(versions, server)
    requires AllReported(versions[..n], server) && KeyOf(versions[n], k)
    ensures Dropped(versions, server, k) <==> Worked(server(versions[n]), k)
    decreases n
  {
    TailsAreWell(versions, server);
    if n == 0 {
      OtherScansSpare(versions[1..], server, versions[0], k);
    } else {
      assert versions[..n][0] == versions[0];
      if Worked(server(versions[0]), k) {
        WorkedKeysMatch(versions[0], server(versions[0]), k);
        VersionsApart(versions[0], versions[n], k);
      }
      assert versions[1..][..n - 1] == versions[..n][1..];
      OnlyOwnScanDrops(versions[1..], server, n - 1, k);
    }
  }

  lemma {:induction false} OtherScansSpare(versions: seq<string>, server: Server, kept: string, k: string)
    requires AllPlain(versions) && Distinct(versions) && AllSelective(versions, server)
    requires Plain(kept) && kept !in versions && KeyOf(kept, k)
    ensures !Dropped(versions, server, k)
    decreases versions
  {
    if versions != [] {
      TailsAreWell(versions, server);
      if Worked(server(versions[0]), k) {
        WorkedKeysMatch(versions[0], server(versions[0]), k);
        VersionsApart(versions[0], kept, k);
      }
      OtherScansSpare(versions[1..], server, kept, k);
    }
  }

  /** No key of a version that is not cleaned is touched, whatever fails. */
  lemma KeptVersionsKeepKeys(store: Store, versions: seq<string>, server: Server, kept: string, k: string)
    requires AllPlain(versions) && Distinct(versions) && AllSelective(versions, server)
    requires Plain(kept) && kept !in versions && KeyOf(kept, k)
    ensures k in CleanedStore(store, versions, server) <==> k in store
    ensures k in store ==> CleanedStore(store, versions, server)[k] == store[k]
  {
    OtherScansSpare(versions, server, kept, k);
    DroppedKeysAreGone(store, versions, server, k);
  }

  lemma {:induction false} CleanedIsPrefix(versions: seq<string>, server: Server)
    ensures var n := |CleanedVersions(versions, server)|;
            n <= |versions| && CleanedVersions(versions, server) == versions[..n]
            && AllReported(versions[..n], server)
            && (n < |versions| ==> !Reported(server(versions[n])))
    decreases versions
  {
    if versions != [] && Reported(server(versions[0])) {
      CleanedIsPrefix(versions[1..], server);
      var n := |CleanedVersions(versions[1..], server)|;
      assert versions[..n + 1] == [versions[0]] + versions[1..][..n];
    }
  }

  lemma LeftBehind(store: Store, versions: seq<string>, server: Server, n: nat, k: string)
    requires n < |versions| && AllPlain(versions) && Distinct(versions) && AllSelective(versions, server)
    requires AllReported(versions[..n], server)
    requires KeyOf(versions[n], k) && k in store
    ensures versions[n] in CleanedVersions(versions, server) <==> Reported(server(versions[n]))
    ensures k in CleanedStore(store, versions, server) <==> !Worked(server(versions[n]), k)
  {
    OnlyOwnScanDrops(versions, server, n, k);
    DroppedKeysAreGone(store, versions, server, k);
    CleanedIsPrefix(versions, server);
    var m := |CleanedVersions(versions, server)|;
    if m <= n {
      assert versions[n] !in versions[..m];
    } else {
      assert versions[..m][n] == versions[n];
    }
  }

  /** Page i is the first step to fail, by an unlinking. */
  predicate FirstFails(replies: seq<Reply>, i: nat) {
    && i < |replies| && replies[i].Page? && replies[i].keys != [] && !replies[i].unlinked
    && forall j :: 0 <= j < i ==> Succeeds(replies[j])
  }

  predicate NoScanFails(replies: seq<Reply>) {
    forall i :: 0 <= i < |replies| ==> replies[i].Page?
  }

  /** Pages before the failing one are worked off, later ones are never seen. */
  lemma {:induction false} WorkedUpToFailure(replies: seq<Reply>, i: nat, k: string)
    requires FirstFails(replies, i)
    ensures Reported(replies)
    ensures Worked(replies, k) <==> exists j :: 0 <= j < i && Shows(replies[j], k)
    decreases replies
  {
    if i > 0 {
      var rest := replies[1..];
      assert Succeeds(replies[0]) && forall j :: 0 <= j < |rest| ==> rest[j] == replies[j + 1];
      WorkedUpToFailure(rest, i - 1, k);
      if exists j :: 0 <= j < i && Shows(replies[j], k) {
        var j :| 0 <= j < i && Shows(replies[j], k);
        assert j > 0 ==> Shows(rest[j - 1], k);
      }
    }
  }

  lemma FailsSomewhereOrNot(replies: seq<Reply>) returns (i: nat)
    requires NoScanFails(replies)
    ensures i <= |replies| && (forall j :: 0 <= j < i ==> Succeeds(replies[j]))
    ensures i < |replies| ==> FirstFails(replies, i)
  {
    i := 0;
    while i < |replies| && Succeeds(replies[i])
      invariant i <= |replies| && forall j :: 0 <= j < i ==> Succeeds(replies[j])
    {
      i := i + 1;
    }
  }

  ghost predicate ShownBefore(replies: seq<Reply>, i: nat, k: string) {
    exists j :: 0 <= j < i && j < |replies| && Shows(replies[j], k)
  }

  /** A finished scan of a version that is reached leaves the version out of the
      index with one of its keys still stored exactly when a page could not be
      unlinked, none before it failed, and some key of the version is on none of
      the pages before. */
  lemma KeysLeftBehind(store: Store, versions: seq<string>, server: Server, n: nat)
    requires n < |versions| && AllPlain(versions) && Distinct(versions) && AllSelective(versions, server)
    requires AllReported(versions[..n], server)
    requires NoScanFails(server(versions[n])) && FullScan(store, versions[n], server(versions[n]))
    ensures var left := CleanedStore(store, versions, server);
            versions[n] in CleanedVersions(versions, server) && (exists k :: k in left && KeyOf(versions[n], k))
            <==> exists i :: FirstFails(server(versions[n]), i)
                             && exists k :: k in store && KeyOf(versions[n], k) && !ShownBefore(server(versions[n]), i, k)
  {
    var replies := server(versions[n]);
    var left := CleanedStore(store, versions, server);
    forall k ensures k in left ==> k in store {
      DroppedKeysAreGone(store, versions, server, k);
    }
    forall k | k in store && KeyOf(versions[n], k)
      ensures versions[n] in CleanedVersions(versions, server) <==> Reported(replies)
      ensures k in left <==> !Worked(replies, k)
    {
      LeftBehind(store, versions, server, n, k);
    }
    var i := FailsSomewhereOrNot(replies);
    if i < |replies| {
      forall k ensures Reported(replies) && (Worked(replies, k) <==> ShownBefore(replies, i, k)) {
        WorkedUpToFailure(replies, i, k);
      }
      assert forall j :: FirstFails(replies, j) ==> j == i;
    } else {
      forall k | k in store && KeyOf(versions[n], k) ensures Worked(replies, k) {
        CleanScanWorksShown(replies, k);
      }
    }
  }

  /** One failed unlinking is enough: success is reported, the version is
      forgotten and its key stays for ever out of reach of later cleanings. */
  lemma FailedUnlinkStrands(version: string, k: string, value: string)
    requires Plain(version)
    ensures var stored := StorageKey(version, k);
            var server := (v: string) => [Page([stored], false)];
            Selective(version, server(version))
            && CleanedVersions([version], server) == [version]
            && stored in CleanedStore(map[stored := value], [version], server)
  {
    var stored := StorageKey(version, k);
    var server := (v: string) => [Page([stored], false)];
    assert Remaining(map[stored := value], server(version)) == map[stored := value];
    assert [version][1..] == [];
    assert CleanedVersions([version][1..], server) == [];
    assert CleanedStore(map[stored := value], [version][1..], server) == map[stored := value];
  }

  ghost predicate CleanScans(store: Store, versions: seq<string>, server: Server) {
    forall i :: 0 <= i < |versions| ==>
      FullScan(store, versions[i], server(versions[i])) && AllSucceed(server(versions[i]))
  }

  predicate AllSucceed(replies: seq<Reply>) {
    forall i :: 0 <= i < |replies| ==> Succeeds(replies[i])
  }

  lemma {:induction false} CleanScansDrop(store: Store, versions: seq<string>, server: Server, k: string)
    requires CleanScans(store, versions, server) && k in store
    ensures Dropped(versions, server, k) <==> exists i :: 0 <= i < |versions| && KeyOf(versions[i], k)
    ensures AllReported(versions, server)
    decreases versions
  {
    if versions != [] {
      var rest := versions[1..];
      assert forall i :: 0 <= i < |rest| ==> rest[i] == versions[i + 1];
      assert FullScan(store, versions[0], server(versions[0])) && AllSucceed(server(versions[0]));
      CleanScanWorksShown(server(versions[0]), k);
      CleanScansDrop(store, rest, server, k);
      assert forall i :: 0 < i < |versions| ==> versions[i] == rest[i - 1];
    }
  }

  type Index = map<string, int>

  /** The index read from the newest version to the oldest. */
  ghost predicate Ranked(index: Index, ranked: seq<string>) {
    && Distinct(ranked)
    && (forall v :: v in index <==> v in ranked)
    && (forall i, j :: 0 <= i < j < |ranked| && ranked[i] in index && ranked[j] in index ==>
          index[ranked[i]] >= index[ranked[j]])
  }

  /** Those past the newest two. */
  function Outdated(ranked: seq<string>): seq<string> {
    if |ranked| <= VERSION_LIMIT then [] else ranked[VERSION_LIMIT..]
  }

  function CleanedIndex(index: Index, ranked: seq<string>, server: Server): Index {
    index - SetOf(CleanedVersions(Outdated(ranked), server))
  }

  /** With scans that finish and deletes that succeed, the index is left with
      the two newest versions, or all of them if they are fewer; every key of a
      dropped version is gone and every key of a kept one is still there. */
  lemma CleaningKeepsTheNewest(store: Store, index: Index, ranked: seq<string>, server: Server)
    requires Ranked(index, ranked) && AllPlain(ranked)
    requires CleanScans(store, Outdated(ranked), server)
    ensures var kept := CleanedIndex(index, ranked, server);
            var left := CleanedStore(store, Outdated(ranked), server);
            && AllReported(Outdated(ranked), server)
            && (forall v :: v in kept <==> exists i :: 0 <= i < |ranked| && i < VERSION_LIMIT && ranked[i] == v)
            && (forall v, w :: v in kept && w in index && w !in kept ==> index[v] >= index[w])
            && (forall k :: k in left ==> k in store && left[k] == store[k])
            && (forall v, k :: v in kept && k in store && KeyOf(v, k) ==> k in left)
            && (forall v, k :: v in index && v !in kept && KeyOf(v, k) ==> k !in left)
  {
    var outdated := Outdated(ranked);
    var kept := CleanedIndex(index, ranked, server);
    var left := CleanedStore(store, outdated, server);
    forall i | 0 <= i < |outdated| ensures Reported(server(outdated[i])) {
      assert FullScan(store, outdated[i], server(outdated[i])) && AllSucceed(server(outdated[i]));
      CleanScanWorksShown(server(outdated[i]), "");
    }
    IndexKeepsTheNewest(index, ranked, server);
    forall k ensures k in left <==> k in store && !exists i :: 0 <= i < |outdated| && KeyOf(outdated[i], k)
             ensures k in left ==> left[k] == store[k] {
      DroppedKeysAreGone(store, outdated, server, k);
      if k in store {
        CleanScansDrop(store, outdated, server, k);
      }
    }
    assert forall i :: 0 <= i < |outdated| ==> outdated[i] == ranked[i + VERSION_LIMIT];
    forall v, k | v in kept && k in store && KeyOf(v, k) ensures k in left {
      if exists i :: 0 <= i < |outdated| && KeyOf(outdated[i], k) {
        var i :| 0 <= i < |outdated| && KeyOf(outdated[i], k);
        VersionsApart(outdated[i], v, k);
      }
    }
    forall v, k | v in index && v !in kept && KeyOf(v, k) ensures k !in left {
      var j :| 0 <= j < |ranked| && ranked[j] == v;
      assert v == outdated[j - VERSION_LIMIT];
    }
  }

  lemma {:induction false} DistinctSize(versions: seq<string>)
    requires Distinct(versions)
    ensures |SetOf(versions)| == |versions|
  {
    if versions != [] {
      var n := |versions| - 1;
      DistinctSize(versions[..n]);
      assert SetOf(versions) == SetOf(versions[..n]) + {versions[n]};
    }
  }

  /** That is, two versions are left, or all if there were fewer. */
  lemma TwoVersionsStay(index: Index, ranked: seq<string>, server: Server)
    requires Ranked(index, ranked) && AllReported(Outdated(ranked), server)
    ensures |CleanedIndex(index, ranked, server)| == if |index| < 2 then |index| else 2
  {
    var outdated := Outdated(ranked);
    CleanedIsPrefix(outdated, server);
    assert CleanedVersions(outdated, server) == outdated;
    assert index.Keys == SetOf(ranked);
    hide CleanedVersions, AllReported, Ranked;
    DistinctSize(ranked);
    DistinctSize(outdated);
    hide Distinct;
    assert SetOf(outdated) <= SetOf(ranked);
    assert CleanedIndex(index, ranked, server).Keys == index.Keys - SetOf(outdated);
  }

  lemma IndexKeepsTheNewest(index: Index, ranked: seq<string>, server: Server)
    requires Ranked(index, ranked) && AllReported(Outdated(ranked), server)
    ensures var kept := CleanedIndex(index, ranked, server);
            && (forall v :: v in kept <==> exists i :: 0 <= i < |ranked| && i < VERSION_LIMIT && ranked[i] == v)
            && (forall v, w :: v in kept && w in index && w !in kept ==> index[v] >= index[w])
  {
    var outdated := Outdated(ranked);
    var kept := CleanedIndex(index, ranked, server);
    CleanedIsPrefix(outdated, server);
    assert CleanedVersions(outdated, server) == outdated;
    assert forall i :: 0 <= i < |outdated| ==> outdated[i] == ranked[i + VERSION_LIMIT];
    forall v ensures v in kept <==> exists i :: 0 <= i < |ranked| && i < VERSION_LIMIT && ranked[i] == v {
      if v in index {
        var j :| 0 <= j < |ranked| && ranked[j] == v;
        assert j >= VERSION_LIMIT ==> v == outdated[j - VERSION_LIMIT];
      }
    }
    forall v, w | v in kept && w in index && w !in kept ensures index[v] >= index[w] {
      var i :| 0 <= i < |ranked| && i < VERSION_LIMIT && ranked[i] == v;
      var j :| 0 <= j < |ranked| && ranked[j] == w;
      assert j >= VERSION_LIMIT;
    }
  }

  /** The index itself is under no version's keys, so it is never scanned away. */
  lemma IndexIsNoVersionsKey(version: string)
    ensures !KeyOf(version, "cache:versions")
  {
    assert Prefix(version)[6 + |version|] == ':';
    assert "cache:versions"[6..] == "versions" && ':' !in "versions";
    assert forall i :: 6 <= i < |"cache:versions"| ==> "cache:versions"[i] == "versions"[i - 6];
  }

  /** Halfway through a cleaning: the first n versions are done and out of the
      index, and cleaning the rest will finish the job. */
  ghost predicate Pending(store: Store, index: Index, versions: seq<string>, store': Store, index': Index, n: int,
                          server: Server) {
    && 0 <= n <= |versions|
    && CleanedStore(store, versions, server) == CleanedStore(store', versions[n..], server)
    && index - SetOf(CleanedVersions(versions, server)) == index' - SetOf(CleanedVersions(versions[n..], server))
    && (AllReported(versions, server) <==> AllReported(versions[n..], server))
  }

  lemma PendingStep(store: Store, index: Index, versions: seq<string>, store': Store, index': Index, n: nat,
                    server: Server)
    requires n < |versions| && Pending(store, index, versions, store', index', n, server)
    ensures var next := Remaining(store', server(versions[n]));
            if Reported(server(versions[n])) then
              Pending(store, index, versions, next, index' - {versions[n]}, n + 1, server)
            else
              CleanedStore(store, versions, server) == next
              && index - SetOf(CleanedVersions(versions, server)) == index'
              && !AllReported(versions, server)
  {
    var tail, rest := versions[n..], versions[n + 1..];
    assert tail[0] == versions[n] && tail[1..] == rest;
    if Reported(server(versions[n])) {
      assert SetOf([tail[0]] + CleanedVersions(rest, server)) == {tail[0]} + SetOf(CleanedVersions(rest, server));
      assert index' - SetOf(CleanedVersions(tail, server))
          == index' - {versions[n]} - SetOf(CleanedVersions(rest, server));
      assert forall i :: 0 < i < |tail| ==> tail[i] == rest[i - 1];
      assert forall i :: 0 <= i < |rest| ==> rest[i] == tail[i + 1];
    } else {
      assert index' - SetOf(CleanedVersions(tail, server)) == index';
    }
  }

  lemma PendingEnd(store: Store, index: Index, versions: seq<string>, store': Store, index': Index, server: Server)
    requires Pending(store, index, versions, store', index', |versions|, server)
    ensures store' == CleanedStore(store, versions, server)
    ensures index' == index - SetOf(CleanedVersions(versions, server))
    ensures AllReported(versions, server)
  {
    assert versions[|versions|..] == [];
    assert index' - SetOf([]) == index';
  }

  lemma PendingStart(store: Store, index: Index, versions: seq<string>, server: Server)
    ensures Pending(store, index, versions, store, index, 0, server)
  {
    assert versions[0..] == versions;
  }

  function At(store: Store, stored: string): Option<string> {
    if stored in store then Some(store[stored]) else None
  }

  /** What a process of a version reads under a key. */
  function Read(store: Store, version: string, key: string): Option<string> {
    At(store, StorageKey(version, key))
  }

  /** A version younger than all others is ranked first, so it is not outdated. */
  lemma NewestRanksFirst(index: Index, ranked: seq<string>, version: string)
    requires Ranked(index, ranked) && version in index
    requires forall v :: v in index && v != version ==> index[v] < index[version]
    ensures ranked != [] && ranked[0] == version && version !in Outdated(ranked)
  {
    var i :| 0 <= i < |ranked| && ranked[i] == version;
    assert ranked[0] in index && index[ranked[0]] >= index[ranked[i]];
  }

  /** One process's view of the shared server. */
  class Cache {
    var store: Store
    var index: Index
    const version: string

    constructor (store: Store, index: Index, version: string, now: int)
      ensures this.store == store && this.version == version
      ensures this.index == index[version := now]
      ensures (forall v :: v in index ==> index[v] < now || v == version) ==>
                forall ranked :: Ranked(this.index, ranked) ==> version !in Outdated(ranked)
    {
      this.store, this.index, this.version := store, index[version := now], version;
      new;
      if forall v :: v in index ==> index[v] < now || v == version {
        forall ranked | Ranked(this.index, ranked) ensures version !in Outdated(ranked) {
          NewestRanksFirst(this.index, ranked, version);
        }
      }
    }

    /** Seen under the own version and key, and under no other of any version. */
    method Set(key: string, value: string)
      modifies this`store
      ensures Read(store, version, key) == Some(value) == At(store, "cache:" + version + ":" + key)
      ensures forall stored :: stored != StorageKey(version, key) ==> At(store, stored) == At(old(store), stored)
      ensures Plain(version) ==> forall v, k :: Plain(v) && (v != version || k != key) ==>
                Read(store, v, k) == Read(old(store), v, k)
    {
      forall v, k | Plain(version) && Plain(v) && StorageKey(v, k) == StorageKey(version, key)
        ensures v == version && k == key
      {
        StorageKeyInjective(v, k, version, key);
      }
      store := store[StorageKey(version, key) := value];
    }

    method Get(key: string) returns (found: Option<string>)
      ensures found == Read(store, version, key)
    {
      var storageKey := StorageKey(version, key);
      if storageKey in store {
        found := Some(store[storageKey]);
      } else {
        found := None;
      }
    }

    /** Gone under the own version and key, and untouched under any other. */
    method Delete(key: string)
      modifies this`store
      ensures Read(store, version, key) == None
      ensures forall stored :: stored != StorageKey(version, key) ==> At(store, stored) == At(old(store), stored)
      ensures Plain(version) ==> forall v, k :: Plain(v) && (v != version || k != key) ==>
                Read(store, v, k) == Read(old(store), v, k)
    {
      forall v, k | Plain(version) && Plain(v) && StorageKey(v, k) == StorageKey(version, key)
        ensures v == version && k == key
      {
        StorageKeyInjective(v, k, version, key);
      }
      store := store - {StorageKey(version, key)};
    }

    /** Deletes what the scan of a version shows, page by page. */
    method CleanVersion(replies: seq<Reply>) returns (ok: bool)
      modifies this`store
      ensures store == Remaining(old(store), replies) && ok == Reported(replies)
    {
      var i := 0;
      while i < |replies|
        invariant 0 <= i <= |replies|
        invariant Remaining(old(store), replies) == Remaining(store, replies[i..])
        invariant Reported(replies) == Reported(replies[i..])
      {
        assert replies[i..][1..] == replies[i + 1..];
        match replies[i]
        case ScanFailed =>
          return false;
        case Page(keys, unlinked) =>
          if keys != [] {
            if !unlinked {
              return true;
            }
            store := store - SetOf(keys);
          }
        i := i + 1;
      }
      return true;
    }

    /** Cleans the outdated versions from the newest of them to the oldest. */
    method CleanOldestVersion(ranked: seq<string>, server: Server) returns (ok: bool)
      requires Ranked(index, ranked)
      modifies this`store, this`index
      ensures store == CleanedStore(old(store), Outdated(ranked), server)
      ensures index == CleanedIndex(old(index), ranked, server)
      ensures ok == AllReported(Outdated(ranked), server)
    {
      ghost var outdated := Outdated(ranked);
      hide CleanedStore, CleanedVersions, Remaining, Reported, Ranked, AllReported, Pending;
      PendingStart(store, index, outdated, server);
      if |ranked| <= VERSION_LIMIT {
        PendingEnd(store, index, outdated, store, index, server);
        return true;
      }
      var i := VERSION_LIMIT;
      while i < |ranked|
        invariant VERSION_LIMIT <= i <= |ranked|
        invariant Pending(old(store), old(index), outdated, store, index, i - VERSION_LIMIT, server)
      {
        assert outdated[i - VERSION_LIMIT] == ranked[i];
        PendingStep(old(store), old(index), outdated, store, index, i - VERSION_LIMIT, server);
        var cleaned := CleanVersion(server(ranked[i]));
        if !cleaned {
          return false;
        }
        index := index - {ranked[i]};
        i := i + 1;
      }
      PendingEnd(old(store), old(index), outdated, store, index, server);
      return true;
    }
  }
}
