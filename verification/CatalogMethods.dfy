/** Each public method of the catalog keeps the derived tables exact. */
module CatalogMethods {
  import opened ByteStrings
  import opened BoundedRecentMap
  import opened NodeIdentity
  import opened CatalogSpec
  import opened CatalogIndexes

  lemma BlankIndexed(s: Settings)
    ensures Indexed(s, Blank())
  {
    hide AwaitsCheck, Fetchable, NeedsLookup;
    forall tag ensures Kept(Blank(), tag) == |Tagged(Blank(), tag)| {
      assert Tagged(Blank(), tag) == {};
    }
  }

  // ----- changes of one entry

  /** c1 is c but for the tables at the entry's own hash; a change of the entry is about to complete it. */
  ghost predicate Prepared(s: Settings, c: Catalog, c1: Catalog, id: Id) {
    Nearly(s, c, At(c, id).hash) && Live(c, id) && id < |c.heap| && Touches(c, c1, id) && c1.heap == c.heap &&
    c1.documents == c.documents && c1.orphans == c.orphans && OwnPlaces(c1, At(c, id).hash, id)
  }

  predicate OwnPlaces(c: Catalog, h: Hash, id: Id) {
    OnlyAs(c.needsCheck.m, h, id) && OnlyAs(c.needsLookup.m, h, id) && OnlyAs(c.counters.m, h, id)
  }

  /** Where the fetched table must hold the entry, and whether a queued document may lose its metadata. */
  predicate Fits(c: Catalog, id: Id, e: Entry) {
    e.hash == At(c, id).hash && HoldsAt(c.fetched, e.hash, e.meta.Some?, id) &&
    (e.hash in c.documents.m && c.documents.m[e.hash] == id ==> e.meta.Some?)
  }

  /** Everything is exact again after the change of one entry, and nothing else moved. */
  ghost predicate Became(c: Catalog, c': Catalog, id: Id, e: Entry) {
    c'.entries == c.entries && |c'.heap| == |c.heap| && At(c', id) == e && (forall j: Id :: j != id ==> At(c', j) == At(c, j)) &&
    c'.documents == c.documents && c'.orphans == c.orphans && c'.tracking == c.tracking
  }

  lemma Replace(s: Settings, c: Catalog, c1: Catalog, id: Id, e: Entry)
    requires Prepared(s, c, c1, id) && Fits(c1, id, e)
    ensures Indexed(s, Replaced(s, c1, id, e)) && Became(c1, Replaced(s, c1, id, e), id, e)
  {
    hide Nearly, Indexed, CountMoved, SameAt, InOrder, Reindexed;
    var c2 := Moved(c1, id, e);
    SameHeap(c, c1);
    MovedTouches(c1, id, e);
    TouchesTwice(c, c1, c2, id);
    assert OwnPlaces(c2, e.hash, id) && ReadyToIndex(s, c2, e.hash);
    Settle(s, c, c2, id);
    ReindexKeeps(s, c2, id);
  }

  lemma ReindexKeeps(s: Settings, c: Catalog, id: Id)
    ensures var c' := Reindexed(s, c, id);
            c'.heap == c.heap && c'.entries == c.entries && c'.documents == c.documents && c'.orphans == c.orphans && c'.tracking == c.tracking &&
            c'.counters == c.counters
    ensures forall j: Id :: At(Reindexed(s, c, id), j) == At(c, j)
  {
    hide Pop, SetDefault, AwaitsCheck, Fetchable, NeedsLookup, Ordered;
  }

  lemma LiveHere(s: Settings, c: Catalog, h: Hash)
    requires Indexed(s, c) && h in c.entries.m
    ensures var id := c.entries.m[h];
            Live(c, id) && id < |c.heap| && At(c, id).hash == h && Prepared(s, c, c, id) && Fits(c, id, At(c, id)) && ExactAt(s, c, h)
  {
    hide Ordered, AwaitsCheck, Fetchable, NeedsLookup, Counted;
    NearlyFrom(s, c, h);
    assert ExactAt(s, c, h);
    if h in c.documents.m { assert DocumentAt(c, h); }
  }

  /** A live entry changes, keeping or not having metadata as before. */
  lemma ReplaceLive(s: Settings, c: Catalog, h: Hash, e: Entry)
    requires Indexed(s, c) && h in c.entries.m && e.hash == h && (e.meta.Some? <==> At(c, c.entries.m[h]).meta.Some?)
    ensures var id := c.entries.m[h]; Indexed(s, Replaced(s, c, id, e)) && Became(c, Replaced(s, c, id, e), id, e)
  {
    hide Indexed, Prepared, Replaced, Became, ExactAt;
    LiveHere(s, c, h);
    Replace(s, c, c, c.entries.m[h], e);
  }

  lemma SameHeap(c: Catalog, c': Catalog)
    requires c'.heap == c.heap
    ensures forall j: Id :: At(c', j) == At(c, j)
  {
  }

  /** The queues and the set of live entries are the same. */
  predicate Steady(c: Catalog, c': Catalog) {
    c'.entries == c.entries && |c'.heap| == |c.heap| && c'.documents == c.documents && c'.orphans == c.orphans && c'.tracking == c.tracking
  }

  /** Fields that no table depends on may differ. */
  predicate SameTables(c: Catalog, c': Catalog) {
    c'.heap == c.heap && c'.entries == c.entries && c'.fetched == c.fetched && c'.fetchable == c.fetchable && c'.needsLookup == c.needsLookup &&
    c'.needsCheck == c.needsCheck && c'.counts == c.counts && c'.lookupsInProgress == c.lookupsInProgress && c'.knownDone == c.knownDone &&
    c'.documents == c.documents && c'.counters == c.counters && c'.orphans == c.orphans
  }

  lemma SameTablesIndexed(s: Settings, c: Catalog, c': Catalog)
    requires SameTables(c, c') && Indexed(s, c)
    ensures Indexed(s, c')
  {
    hide Ordered, AwaitsCheck, Fetchable, NeedsLookup;
    SameHeap(c, c');
    forall h ensures ExactAt(s, c', h) { assert ExactAt(s, c, h); }
    forall tag ensures Kept(c', tag) == |Tagged(c', tag)| { assert Kept(c, tag) == |Tagged(c, tag)|; assert Tagged(c', tag) == Tagged(c, tag); }
    forall id | id in c'.orphans ensures OrphanAt(c', id) { assert OrphanAt(c, id); }
    forall h | h in c'.documents.m ensures DocumentAt(c', h) { assert DocumentAt(c, h); }
  }

  lemma {:induction false} AddPeersOnly(s: Settings, e: Entry, peers: seq<Peer>)
    ensures AddPeers(s, e, peers) == e.(peers := AddPeers(s, e, peers).peers)
    decreases |peers|
  {
    if peers != [] { AddPeersOnly(s, AddPeer(s, e, peers[0]), peers[1..]); }
  }

  lemma {:induction false} ForgetPeersOnly(e: Entry, peers: seq<Peer>)
    ensures ForgetPeers(e, peers) == e.(peers := ForgetPeers(e, peers).peers, failed := ForgetPeers(e, peers).failed)
    decreases |peers|
  {
    if peers != [] { ForgetPeersOnly(ForgetPeer(e, peers[0]), peers[1..]); }
  }

  // ----- record_hash

  lemma NotedIndexed(s: Settings, c: Catalog, h: Hash, announce: bool, peer: Option<Peer>, now: real)
    requires Indexed(s, c)
    ensures var (c1, id) := GotOrCreated(c, h, now);
            Indexed(s, Noted(s, c, h, announce, peer, now)) && Live(c1, id) && At(c1, id).hash == h && id < |c1.heap| &&
            Became(c1, Noted(s, c, h, announce, peer, now), id, Sighted(s, At(c1, id), announce, peer, now))
  {
    hide Indexed, Nearly, Replaced, GotOrCreated, NoteCounters, Pop, Became, AddPeer;
    var (c1, id) := GotOrCreated(c, h, now);
    CreatedNearly(s, c, h, now);
    var e := Sighted(s, At(c1, id), announce, peer, now);
    var popped := c1.(needsLookup := Pop(c1.needsLookup, h), observations := c1.observations + 1);
    SightedTags(s, At(c1, id), announce, peer, now);
    PopPrepared(s, c1, id);
    Replace(s, c1, popped, id, e);
    SameBefore(c1, popped, Replaced(s, popped, id, e), id, e);
    BecameLive(c1, Replaced(s, popped, id, e), id, e);
    NoteIndexed(s, Replaced(s, popped, id, e), id);
    NoteBecame(c1, Replaced(s, popped, id, e), id, e, h);
  }

  lemma SightedTags(s: Settings, e: Entry, announce: bool, peer: Option<Peer>, now: real)
    ensures var e' := Sighted(s, e, announce, peer, now);
            e' == e.(seen := e.seen + 1, announced := e.announced + One(announce), lastSeen := e'.lastSeen, peers := e'.peers)
  {
  }

  lemma PopPrepared(s: Settings, c: Catalog, id: Id)
    requires Nearly(s, c, At(c, id).hash) && Live(c, id) && id < |c.heap|
    ensures var popped := c.(needsLookup := Pop(c.needsLookup, At(c, id).hash), observations := c.observations + 1);
            Prepared(s, c, popped, id) && forall e: Entry :: Fits(c, id, e) <==> Fits(popped, id, e)
    ensures forall e: Entry :: e.hash == At(c, id).hash && (e.meta.Some? <==> At(c, id).meta.Some?) ==> Fits(c, id, e)
  {
    hide Ordered, Without, AwaitsCheck, Fetchable, NeedsLookup, Counted;
    var h := At(c, id).hash;
    if h in c.documents.m { assert DocumentAt(c, h); }
  }

  lemma SameBefore(c: Catalog, c1: Catalog, c': Catalog, id: Id, e: Entry)
    requires Became(c1, c', id, e) && c1.heap == c.heap && c1.entries == c.entries && c1.documents == c.documents && c1.orphans == c.orphans &&
             c1.tracking == c.tracking
    ensures Became(c, c', id, e)
  {
    SameHeap(c, c1);
  }

  lemma BecameLive(c: Catalog, c': Catalog, id: Id, e: Entry)
    requires Became(c, c', id, e) && e.hash == At(c, id).hash
    ensures forall j: Id :: At(c', j).hash == At(c, j).hash && (Live(c', j) <==> Live(c, j))
  {
    hide At;
  }

  lemma NoteBecame(c: Catalog, c': Catalog, id: Id, e: Entry, h: Hash)
    requires Became(c, c', id, e)
    ensures Became(c, NoteCounters(c', h, id), id, e)
  {
    SameHeap(c', NoteCounters(c', h, id));
  }

  lemma NoteIndexed(s: Settings, c: Catalog, id: Id)
    requires Indexed(s, c) && Live(c, id)
    ensures Indexed(s, NoteCounters(c, At(c, id).hash, id))
  {
    hide Indexed, Nearly, Touches, ExactAt, ReadyToIndex, Prepared, Fits;
    LiveHere(s, c, At(c, id).hash);
    NearlyFrom(s, c, At(c, id).hash);
    NoteTouches(c, id);
    var c1 := NoteCounters(c, At(c, id).hash, id);
    SameHeap(c, c1);
    NotedExact(s, c, id);
    assert Fits(c, id, At(c, id));
    assert QueuesKept(c, c1, id) by { FitsKept(c, c1, id); }
    Stay(s, c, c1, id);
  }

  lemma FitsKept(c: Catalog, c1: Catalog, id: Id)
    requires Fits(c, id, At(c1, id)) && c1.documents == c.documents && c1.orphans == c.orphans
    ensures QueuesKept(c, c1, id)
  {
  }

  lemma NotedExact(s: Settings, c: Catalog, id: Id)
    requires Live(c, id) && ExactAt(s, c, At(c, id).hash)
    ensures ExactAt(s, NoteCounters(c, At(c, id).hash, id), At(c, id).hash)
  {
    hide Ordered, AwaitsCheck, Fetchable, NeedsLookup;
  }

  // ----- eviction

  /** Entries that can be evicted together. */
  ghost predicate Evictees(c: Catalog, victims: seq<Id>) {
    Distinct(victims) && forall v :: v in victims ==> Live(c, v) && Evictable(At(c, v))
  }

  /** The victims are gone; nothing else changed but the queue of orphans. */
  ghost predicate Gone(c: Catalog, c': Catalog, victims: seq<Id>) {
    |c'.heap| == |c.heap| && c'.documents == c.documents && c'.tracking == c.tracking &&
    (forall j: Id :: At(c', j) == (if j in victims then At(c, j).(known := false) else At(c, j))) &&
    (forall j: Id :: Live(c', j) <==> Live(c, j) && j !in victims) &&
    (forall h :: h in c'.entries.m ==> h in c.entries.m && c'.entries.m[h] == c.entries.m[h])
  }

  lemma {:induction false} EvictedEachIndexed(s: Settings, c: Catalog, victims: seq<Id>)
    requires Indexed(s, c) && Evictees(c, victims)
    ensures Indexed(s, EvictedEach(c, victims)) && Gone(c, EvictedEach(c, victims), victims)
    ensures |EvictedEach(c, victims).entries.m| == |c.entries.m| - |victims|
    decreases |victims|
  {
    hide Indexed, At, EvictedOne, Live;
    if victims != [] {
      var v, rest := victims[0], victims[1..];
      assert v in victims;
      EvictIndexed(s, c, v);
      EvictedGone(s, c, v);
      var c1 := EvictedOne(c, v);
      forall x | x in rest ensures Live(c1, x) && Evictable(At(c1, x)) {
        assert x in victims && x != v;
      }
      EvictedEachIndexed(s, c1, rest);
      assert victims[..1] == [v];
      GoneTwice(c, c1, EvictedEach(c1, rest), victims);
    } else {
      assert EvictedEach(c, victims) == c;
    }
  }

  lemma EvictedGone(s: Settings, c: Catalog, v: Id)
    requires Indexed(s, c) && Live(c, v)
    ensures Gone(c, EvictedOne(c, v), [v]) && |EvictedOne(c, v).entries.m| == |c.entries.m| - 1
    ensures forall x: Id :: x != v && Live(c, x) ==> Live(EvictedOne(c, v), x) && At(EvictedOne(c, v), x) == At(c, x)
  {
    hide EvictedOne, Ordered, Indexed, HasNews, Without, At, Bump, OrphansWith, Live;
    LiveSplit(s, c, v);
    EvictedFields(c, v);
    var c', h := EvictedOne(c, v), At(c, v).hash;
    OneLess(c.entries.m, h);
    forall j: Id ensures Live(c', j) <==> Live(c, j) && j != v {
      LiveAfter(c, c', v, j);
    }
    forall j: Id ensures At(c', j) == (if j in [v] then At(c, j).(known := false) else At(c, j)) {
    }
  }

  lemma LiveSplit(s: Settings, c: Catalog, v: Id)
    requires Indexed(s, c) && Live(c, v)
    ensures v < |c.heap| && At(c, v).hash in c.entries.m && c.entries.m[At(c, v).hash] == v
  {
    hide Ordered, Exact, Counted, Queued;
  }

  lemma LiveAfter(c: Catalog, c': Catalog, v: Id, j: Id)
    requires At(c, v).hash in c.entries.m && c.entries.m[At(c, v).hash] == v
    requires c'.entries.m == c.entries.m - {At(c, v).hash} && At(c', j).hash == At(c, j).hash
    ensures Live(c', j) <==> Live(c, j) && j != v
  {
    hide At;
  }

  lemma OneLess(m: map<Hash, Id>, h: Hash)
    requires h in m
    ensures |m - {h}| == |m| - 1
  {
    assert (m - {h}).Keys == m.Keys - {h};
    assert |m.Keys| == |m| && |(m - {h}).Keys| == |m - {h}|;
  }

  lemma GoneTwice(c: Catalog, c1: Catalog, c2: Catalog, victims: seq<Id>)
    requires victims != [] && Distinct(victims) && Gone(c, c1, victims[..1]) && Gone(c1, c2, victims[1..])
    ensures Gone(c, c2, victims)
  {
    hide At, Live;
    assert victims == victims[..1] + victims[1..];
    assert forall j: Id :: j in victims <==> j in victims[..1] || j in victims[1..];
    assert victims[0] !in victims[1..];
  }

  // ----- lookups

  lemma SteadyLive(c: Catalog, c': Catalog, j: Id)
    requires c'.entries == c.entries && At(c', j).hash == At(c, j).hash
    ensures Live(c', j) <==> Live(c, j)
  {
  }

  predicate IsDue(c: Catalog, h: Hash, now: real) {
    h in c.needsLookup.m && At(c, c.needsLookup.m[h]).nextLookup <= now
  }

  /** Only what is due is claimed, and a due torrent is passed over only when the limit was used up on newer ones. */
  lemma {:induction false} NewestDueFirst(c: Catalog, keys: seq<Hash>, limit: nat, now: real, i: nat)
    requires i < |keys| && IsDue(c, keys[i], now) && keys[i] !in NewestDue(c, keys, limit, now)
    ensures var due := NewestDue(c, keys, limit, now);
            |due| == limit && forall h :: h in due ==> IsDue(c, h, now) && h in keys[i + 1..]
    decreases |keys|
  {
    hide At;
    var last := |keys| - 1;
    if limit > 0 && i < last {
      var h, rest := keys[last], keys[..last];
      var more := if IsDue(c, h, now) then limit - 1 else limit;
      assert keys[i + 1..] == rest[i + 1..] + [h];
      NewestDueFirst(c, rest, more, now, i);
    }
  }

  lemma {:induction false} LookingEachIndexed(s: Settings, c: Catalog, hashes: seq<Hash>)
    requires Indexed(s, c)
    ensures var c' := LookingEach(s, c, hashes);
            Indexed(s, c') && Steady(c, c') &&
            forall j: Id :: At(c', j) == if Live(c, j) && At(c, j).hash in hashes then At(c, j).(looking := true) else At(c, j)
    decreases |hashes|
  {
    hide Indexed, At, Replaced, Live;
    if hashes != [] {
      var h, rest := hashes[0], hashes[1..];
      assert forall x :: x in hashes <==> x == h || x in rest;
      if h in c.entries.m {
        var id := c.entries.m[h];
        LiveHere(s, c, h);
        ReplaceLive(s, c, h, At(c, id).(looking := true));
        var c1 := Replaced(s, c, id, At(c, id).(looking := true));
        LookingEachIndexed(s, c1, rest);
        forall j: Id ensures Live(c1, j) <==> Live(c, j) { SteadyLive(c, c1, j); }
        forall j: Id | Live(c, j) && At(c, j).hash == h ensures j == id { OneLive(c, j, id); }
      } else {
        LookingEachIndexed(s, c, rest);
        forall j: Id | Live(c, j) ensures At(c, j).hash != h { LiveIn(c, j); }
      }
    }
  }

  lemma OneLive(c: Catalog, i: Id, j: Id)
    requires Live(c, i) && Live(c, j) && At(c, i).hash == At(c, j).hash
    ensures i == j
  {
  }

  lemma LiveIn(c: Catalog, j: Id)
    requires Live(c, j)
    ensures At(c, j).hash in c.entries.m
  {
  }

  lemma LookupReleasedIndexed(s: Settings, c: Catalog, h: Hash)
    requires Indexed(s, c)
    ensures var c' := LookupReleased(s, c, h);
            Indexed(s, c') && if h in c.entries.m then var id := c.entries.m[h]; Became(c, c', id, At(c, id).(looking := false)) else c' == c
  {
    hide Indexed, Replaced;
    if h in c.entries.m {
      LiveHere(s, c, h);
      ReplaceLive(s, c, h, At(c, c.entries.m[h]).(looking := false));
    }
  }

  lemma PeersAddedIndexed(s: Settings, c: Catalog, h: Hash, peers: seq<Peer>)
    requires Indexed(s, c)
    ensures var c' := PeersAdded(s, c, h, peers);
            Indexed(s, c') && if h in c.entries.m then var id := c.entries.m[h]; Became(c, c', id, AddPeers(s, At(c, id), peers)) else c' == c
  {
    hide Indexed, Replaced, AddPeers, At;
    if h in c.entries.m {
      LiveHere(s, c, h);
      AddPeersOnly(s, At(c, c.entries.m[h]), peers);
      ReplaceLive(s, c, h, AddPeers(s, At(c, c.entries.m[h]), peers));
    }
  }

  lemma LookupFinishedIndexed(s: Settings, c: Catalog, h: Hash, peers: seq<Peer>, now: real)
    requires Indexed(s, c)
    ensures var c' := LookupFinished(s, c, h, peers, now);
            Indexed(s, c') && if h in c.entries.m then var id := c.entries.m[h]; Became(c, c', id, AfterLookup(s, At(c, id), peers, now)) else c' == c
  {
    hide Indexed, Replaced, AfterLookup, At;
    if h in c.entries.m {
      LiveHere(s, c, h);
      AfterLookupKeeps(s, At(c, c.entries.m[h]), peers, now);
      ReplaceLive(s, c, h, AfterLookup(s, At(c, c.entries.m[h]), peers, now));
    }
  }

  lemma AfterLookupKeeps(s: Settings, e: Entry, peers: seq<Peer>, now: real)
    ensures var e' := AfterLookup(s, e, peers, now);
            e' == e.(looking := false, lookups := e.lookups + 1, peers := e'.peers, nextLookup := e'.nextLookup, error := e'.error, state := e'.state)
  {
    hide AddPeers;
    AddPeersOnly(s, e.(looking := false, lookups := e.lookups + 1), peers);
  }

  // ----- fetching

  lemma {:induction false} FetchingEachIndexed(s: Settings, c: Catalog, ids: seq<Id>)
    requires Indexed(s, c) && forall id :: id in ids ==> Live(c, id)
    ensures var c' := FetchingEach(s, c, ids);
            Indexed(s, c') && Steady(c, c') && FetchingSet(c, c', ids)
    decreases |ids|
  {
    hide Indexed, At, Replaced, Live, FetchingSet, Became, Steady;
    if ids != [] {
      var id, rest := ids[0], ids[1..];
      assert id in ids;
      LiveIn(c, id);
      LiveHere(s, c, At(c, id).hash);
      LiveSplit(s, c, id);
      ReplaceLive(s, c, At(c, id).hash, At(c, id).(state := InProgress));
      var c1 := Replaced(s, c, id, At(c, id).(state := InProgress));
      forall j | j in rest ensures Live(c1, j) { assert j in ids; BecameLive(c, c1, id, At(c, id).(state := InProgress)); }
      FetchingEachIndexed(s, c1, rest);
      FetchingTwice(c, c1, FetchingEach(s, c1, rest), ids);
    } else {
      FetchingNone(c);
    }
  }

  ghost predicate FetchingSet(c: Catalog, c': Catalog, ids: seq<Id>) {
    forall j: Id :: At(c', j) == if j in ids then At(c, j).(state := InProgress) else At(c, j)
  }

  lemma FetchingNone(c: Catalog)
    ensures Steady(c, c) && FetchingSet(c, c, [])
  {
  }

  lemma FetchingTwice(c: Catalog, c1: Catalog, c2: Catalog, ids: seq<Id>)
    requires ids != [] && Became(c, c1, ids[0], At(c, ids[0]).(state := InProgress)) && Steady(c1, c2) && FetchingSet(c1, c2, ids[1..])
    ensures Steady(c, c2) && FetchingSet(c, c2, ids)
  {
    hide At;
    forall j: Id ensures At(c2, j) == if j in ids then At(c, j).(state := InProgress) else At(c, j) {
      assert j in ids <==> j == ids[0] || j in ids[1..];
    }
  }

  lemma FetchFailedIndexed(s: Settings, c: Catalog, h: Hash, tried: seq<Peer>, reason: string, now: real)
    requires Indexed(s, c)
    ensures var c' := FetchFailed(s, c, h, tried, reason, now);
            Indexed(s, c') && if h in c.entries.m then var id := c.entries.m[h]; Became(c, c', id, AfterFailure(s, At(c, id), tried, reason, now)) else c' == c
  {
    hide Indexed, Replaced, AfterFailure, At;
    if h in c.entries.m {
      LiveHere(s, c, h);
      AfterFailureKeeps(s, At(c, c.entries.m[h]), tried, reason, now);
      ReplaceLive(s, c, h, AfterFailure(s, At(c, c.entries.m[h]), tried, reason, now));
    }
  }

  lemma AfterFailureKeeps(s: Settings, e: Entry, tried: seq<Peer>, reason: string, now: real)
    ensures var e' := AfterFailure(s, e, tried, reason, now);
            e' == e.(attempts := e.attempts + 1, peers := e'.peers, failed := e'.failed, nextLookup := e'.nextLookup, error := e'.error, state := e'.state)
  {
    hide ForgetPeers;
    ForgetPeersOnly(e, tried);
  }

  lemma FetchReleasedIndexed(s: Settings, c: Catalog, h: Hash)
    requires Indexed(s, c)
    ensures var c' := FetchReleased(s, c, h);
            Indexed(s, c') && if h in c.entries.m && At(c, c.entries.m[h]).state == InProgress
                              then var id := c.entries.m[h]; Became(c, c', id, At(c, id).(state := Pending)) else c' == c
  {
    hide Indexed, Replaced;
    if h in c.entries.m {
      LiveHere(s, c, h);
      ReplaceLive(s, c, h, At(c, c.entries.m[h]).(state := Pending));
    }
  }

  // ----- the queues

  lemma FewerCounters(s: Settings, c: Catalog, counters: RawDict<Hash, Id>)
    requires Indexed(s, c) && Ordered(counters) && forall h :: h in counters.m ==> h in c.counters.m && counters.m[h] == c.counters.m[h]
    ensures Indexed(s, c.(counters := counters))
  {
    hide Ordered, AwaitsCheck, Fetchable, NeedsLookup;
    var c' := c.(counters := counters);
    SameHeap(c, c');
    forall h ensures ExactAt(s, c', h) { assert ExactAt(s, c, h); }
    forall tag ensures Kept(c', tag) == |Tagged(c', tag)| { assert Kept(c, tag) == |Tagged(c, tag)|; assert Tagged(c', tag) == Tagged(c, tag); }
    forall id | id in c'.orphans ensures OrphanAt(c', id) { assert OrphanAt(c, id); }
    forall h | h in c'.documents.m ensures DocumentAt(c', h) { assert DocumentAt(c, h); }
  }

  predicate DocumentOf(c: Catalog, h: Hash, id: Id) {
    id < |c.heap| && At(c, id).hash == h && At(c, id).meta.Some?
  }

  lemma OtherQueues(s: Settings, c: Catalog, documents: RawDict<Hash, Id>, orphans: seq<Id>)
    requires Indexed(s, c) && Ordered(documents) && |orphans| <= MAX_ORPHANS
    requires forall h :: h in documents.m ==> DocumentOf(c, h, documents.m[h])
    requires forall id :: id in orphans ==> OrphanAt(c, id)
    ensures Indexed(s, c.(documents := documents, orphans := orphans))
  {
    hide Ordered, AwaitsCheck, Fetchable, NeedsLookup;
    var c' := c.(documents := documents, orphans := orphans);
    SameHeap(c, c');
    forall h ensures ExactAt(s, c', h) { assert ExactAt(s, c, h); }
    forall tag ensures Kept(c', tag) == |Tagged(c', tag)| { assert Kept(c, tag) == |Tagged(c, tag)|; assert Tagged(c', tag) == Tagged(c, tag); }
    forall id | id in c'.orphans ensures OrphanAt(c', id) { assert OrphanAt(c, id); }
  }

  lemma QueuesOf(s: Settings, c: Catalog)
    requires Indexed(s, c)
    ensures Ordered(c.documents) && Ordered(c.counters) && |c.orphans| <= MAX_ORPHANS
    ensures forall h :: h in c.documents.m ==> DocumentOf(c, h, c.documents.m[h])
    ensures forall id :: id in c.orphans ==> OrphanAt(c, id)
  {
    hide Ordered, Exact, Counted;
    forall h | h in c.documents.m ensures DocumentOf(c, h, c.documents.m[h]) { assert DocumentAt(c, h); }
  }

  /** A torrent whose document was dropped before it was written is to be fetched again. */
  function Undocumented(e: Entry): Entry {
    e.(meta := None, checked := true, state := Pending)
  }

  /** The queue of documents may overflow, which makes entries pending again. */
  ghost predicate Overflowed(c: Catalog, c': Catalog) {
    c'.entries == c.entries && |c'.heap| == |c.heap| && c'.orphans == c.orphans && c'.tracking == c.tracking && c'.dropped >= c.dropped &&
    forall j: Id :: At(c', j) == At(c, j) || (Live(c, j) && DropsMetadata(At(c, j)) && At(c', j) == Undocumented(At(c, j)))
  }

  predicate DropsMetadata(e: Entry) {
    e.meta.Some? && e.state == Done
  }

  /** Documents leave the queue only when it overflows. */
  ghost predicate OnlyOverflow(c: Catalog, c': Catalog) {
    c'.dropped == c.dropped ==> forall h :: h in c.documents.m ==> h in c'.documents.m && c'.documents.m[h] == c.documents.m[h]
  }

  /** A queued document, and a change of its entry, concern the entry given or one that was queued before. */
  ghost predicate QueuesOne(c: Catalog, c': Catalog, id: Id) {
    (forall h :: h in c'.documents.m ==> QueuedAs(c, h, c'.documents.m[h]) || (h == At(c, id).hash && c'.documents.m[h] == id)) &&
    forall j: Id :: At(c', j) != At(c, j) ==> j == id || QueuedAs(c, At(c, j).hash, j)
  }

  predicate QueuedAs(c: Catalog, h: Hash, id: Id) {
    h in c.documents.m && c.documents.m[h] == id
  }

  lemma DropUnwrittenIndexed(s: Settings, c: Catalog, id: Id)
    requires Indexed(s, c) && At(c, id).hash !in c.documents.m
    ensures Indexed(s, DropUnwritten(s, c, id)) && Overflowed(c, DropUnwritten(s, c, id))
    ensures forall j: Id :: j != id ==> At(DropUnwritten(s, c, id), j) == At(c, j)
    ensures DropUnwritten(s, c, id).documents == c.documents && DropUnwritten(s, c, id).dropped == c.dropped
  {
    hide Indexed, Prepared, Replaced, Nearly, ExactAt;
    var e := At(c, id);
    if Live(c, id) && e.meta.Some? && e.state == Done {
      LiveHere(s, c, e.hash);
      var c1 := c.(fetched := c.fetched - {e.hash});
      UnfetchPrepared(s, c, id);
      Replace(s, c, c1, id, Undocumented(e));
      ReplacedKeeps(s, c1, id, Undocumented(e));
      SameHeap(c, c1);
    }
  }

  lemma ReplacedKeeps(s: Settings, c: Catalog, id: Id, e: Entry)
    ensures Replaced(s, c, id, e).dropped == c.dropped
  {
    hide Pop, SetDefault, AwaitsCheck, Fetchable, NeedsLookup, Ordered, Bump;
  }

  lemma UnfetchPrepared(s: Settings, c: Catalog, id: Id)
    requires Prepared(s, c, c, id) && At(c, id).hash !in c.documents.m
    ensures var c1 := c.(fetched := c.fetched - {At(c, id).hash}); Prepared(s, c, c1, id) && Fits(c1, id, Undocumented(At(c, id)))
  {
    hide Nearly, Ordered, AwaitsCheck, Fetchable, NeedsLookup;
  }

  lemma QueueDocumentIndexed(s: Settings, c: Catalog, id: Id)
    requires Indexed(s, c) && id < |c.heap| && At(c, id).meta.Some?
    ensures var c' := QueueDocument(s, c, id); Indexed(s, c') && Overflowed(c, c') && OnlyOverflow(c, c') && QueuesOne(c, c', id)
  {
    hide Indexed, WithDocument, OldestDropped, Overflowed, At, OnlyOverflow, QueuesOne;
    var c1 := WithDocument(c, At(c, id).hash, id);
    WithDocumentIndexed(s, c, id);
    if !(At(c, id).hash in c.documents.m || |c1.documents.m| <= c.maxPending) {
      OldestDroppedIndexed(s, c1);
      OverflowFrom(c, c1, OldestDropped(s, c1));
      MoreDropped(c, OldestDropped(s, c1));
      QueuesThen(c, c1, OldestDropped(s, c1), id);
    }
  }

  lemma QueuesThen(c: Catalog, c1: Catalog, c2: Catalog, id: Id)
    requires QueuesOne(c, c1, id) && c1.heap == c.heap
    requires forall h :: h in c2.documents.m ==> h in c1.documents.m && c2.documents.m[h] == c1.documents.m[h]
    requires forall j: Id :: At(c2, j) != At(c1, j) ==> QueuedAs(c1, At(c1, j).hash, j)
    ensures QueuesOne(c, c2, id)
  {
    SameHeap(c, c1);
    hide At;
    forall j: Id | At(c2, j) != At(c, j) ensures j == id || QueuedAs(c, At(c, j).hash, j) {
      assert QueuedAs(c1, At(c1, j).hash, j);
    }
  }

  lemma MoreDropped(c: Catalog, c': Catalog)
    requires c'.dropped == c.dropped + 1
    ensures OnlyOverflow(c, c')
  {
  }

  lemma WithDocumentIndexed(s: Settings, c: Catalog, id: Id)
    requires Indexed(s, c) && id < |c.heap| && At(c, id).meta.Some?
    ensures var c' := WithDocument(c, At(c, id).hash, id);
            Indexed(s, c') && Overflowed(c, c') && OnlyOverflow(c, c') && c'.dropped == c.dropped && c'.heap == c.heap && c'.entries == c.entries &&
            c'.orphans == c.orphans && c'.tracking == c.tracking && QueuesOne(c, c', id)
  {
    hide Indexed, Ordered, At, Without, Overflowed, Live;
    var h := At(c, id).hash;
    QueuesOf(s, c);
    var documents := if h in c.documents.m then c.documents else Put(c.documents, h, id);
    var c1 := c.(documents := documents, orphans := c.orphans);
    OtherQueues(s, c, documents, c.orphans);
    QueuesOf(s, c1);
    FewerCounters(s, c1, Pop(c1.counters, h));
    assert WithDocument(c, h, id) == c1.(counters := Pop(c1.counters, h));
    QuietOverflow(c, WithDocument(c, h, id));
    SameHeap(c, WithDocument(c, h, id));
  }

  lemma FirstIn(d: RawDict<Hash, Id>)
    requires Ordered(d) && d.keys != []
    ensures d.keys[0] in d.m
  {
    assert d.keys[0] in d.keys;
  }

  lemma QuietOverflow(c: Catalog, c': Catalog)
    requires c'.heap == c.heap && c'.entries == c.entries && c'.orphans == c.orphans && c'.tracking == c.tracking && c'.dropped == c.dropped
    ensures Overflowed(c, c')
  {
    SameHeap(c, c');
  }

  /** The first state may differ in tables that do not matter. */
  lemma OverflowFrom(c: Catalog, c1: Catalog, c2: Catalog)
    requires Overflowed(c1, c2) && c1.heap == c.heap && c1.entries == c.entries && c1.orphans == c.orphans && c1.tracking == c.tracking
    requires c1.dropped >= c.dropped
    ensures Overflowed(c, c2)
  {
    SameHeap(c, c1);
    forall j: Id ensures Live(c1, j) == Live(c, j) { SteadyLive(c, c1, j); }
    hide At, Live;
  }

  lemma OldestDroppedIndexed(s: Settings, c: Catalog)
    requires Indexed(s, c) && c.documents.keys != []
    ensures var c' := OldestDropped(s, c); Indexed(s, c') && Overflowed(c, c') && c'.dropped == c.dropped + 1
    ensures forall h :: h in OldestDropped(s, c).documents.m ==> h in c.documents.m && OldestDropped(s, c).documents.m[h] == c.documents.m[h]
    ensures forall j: Id :: At(OldestDropped(s, c), j) != At(c, j) ==> QueuedAs(c, At(c, j).hash, j)
  {
    hide Indexed, DropUnwritten, At, Distinct, Overflowed, Ordered;
    var oldest := c.documents.keys[0];
    QueuesOf(s, c);
    FirstIn(c.documents);
    FirstGone(c.documents);
    var c0, c1 := c.(documents := PopFirst(c.documents), orphans := c.orphans), c.(documents := PopFirst(c.documents), dropped := c.dropped + 1);
    OtherQueues(s, c, PopFirst(c.documents), c.orphans);
    SameTablesIndexed(s, c0, c1);
    SameHeap(c, c1);
    assert DocumentOf(c, oldest, c.documents.m[oldest]);
    DropUnwrittenIndexed(s, c1, c.documents.m[oldest]);
    OverflowFrom(c, c1, DropUnwritten(s, c1, c.documents.m[oldest]));
  }

  lemma FirstGone(d: RawDict<Hash, Id>)
    requires d.keys != []
    ensures d.keys[0] !in PopFirst(d).m
  {
  }

  lemma StoredIndexed(s: Settings, c: Catalog, meta: Metadata, now: real)
    requires Indexed(s, c)
    ensures var (c1, id) := GotOrCreated(c, meta.hash, now);
            var c2 := Replaced(s, c1.(fetched := c1.fetched[meta.hash := id]), id, StoredEntry(At(c1, id), meta));
            var c' := Stored(s, c, meta, now);
            Indexed(s, c') && Live(c1, id) && id < |c1.heap| && At(c1, id).hash == meta.hash && Indexed(s, c2) && Became(c1, c2, id, StoredEntry(At(c1, id), meta)) &&
            c2.dropped == c.dropped && Overflowed(c2, c') && OnlyOverflow(c2, c') && QueuesOne(c2, c', id)
  {
    hide Indexed, Nearly, Prepared, Replaced, At, QueueDocument, Live;
    var (c1, id) := GotOrCreated(c, meta.hash, now);
    CreatedNearly(s, c, meta.hash, now);
    var e := StoredEntry(At(c1, id), meta);
    var c0 := c1.(fetched := c1.fetched[meta.hash := id]);
    StorePrepared(s, c1, id, meta);
    SameHeap(c1, c0);
    Replace(s, c1, c0, id, e);
    var c2 := Replaced(s, c0, id, e);
    SameBefore(c1, c0, c2, id, e);
    ReplacedKeeps(s, c0, id, e);
    QueueDocumentIndexed(s, c2, id);
    QuietOverflow(c2, c2);
  }

  function StoredEntry(e: Entry, meta: Metadata): Entry {
    e.(known := false, meta := Some(meta), error := "", state := Done)
  }

  lemma StorePrepared(s: Settings, c: Catalog, id: Id, meta: Metadata)
    requires Nearly(s, c, At(c, id).hash) && Live(c, id) && id < |c.heap| && At(c, id).hash == meta.hash
    ensures var c0 := c.(fetched := c.fetched[meta.hash := id]); Prepared(s, c, c0, id) && Fits(c0, id, StoredEntry(At(c0, id), meta))
  {
    hide CountMoved, Ordered, AwaitsCheck, Fetchable, NeedsLookup, Counted, Queued;
    FetchedTouches(c, id, c.fetched[meta.hash := id]);
  }
}
