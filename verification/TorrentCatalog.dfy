/**
 * torrent_catalog.py in its own form: tables, queues and counts updated in place under one lock. Entries are records
 * in an arena that only grows; the tables hold their places in it. Each method is proved against its specification,
 * and keeps the derived tables and the running counts exact.
 */
module TorrentCatalog {
  import opened ByteStrings
  import opened BoundedRecentMap
  import opened NodeIdentity
  import opened CatalogSpec
  import opened CatalogIndexes
  import opened CatalogMethods
  import opened CatalogFlushing
  import opened CatalogEviction

  class TorrentCatalog {
    const s: Settings
    var heap: seq<Entry>
    var entries: RawDict<Hash, Id>
    var fetched: map<Hash, Id>
    var fetchable: map<Hash, Id>
    var needsLookup: RawDict<Hash, Id>
    var needsCheck: RawDict<Hash, Id>
    var counts: StateCounts
    var lookupsInProgress: int
    var knownDone: int
    var documents: RawDict<Hash, Id>
    var counters: RawDict<Hash, Id>
    var orphans: seq<Id>
    var observations: nat
    var discovered: nat
    var evicted: nat
    var dropped: nat
    var tracking: bool
    var maxPending: nat
    var checkDatabase: bool

    /** The state the fields make up. */
    ghost function Model(): Catalog
      reads this
    {
      Catalog(heap, entries, fetched, fetchable, needsLookup, needsCheck, counts, lookupsInProgress, knownDone,
              documents, counters, orphans, observations, discovered, evicted, dropped, tracking, maxPending, checkDatabase)
    }

    /** Every derived table is exact, every count is the true count. */
    ghost predicate Valid()
      reads this
    {
      Indexed(s, Model())
    }

    constructor (s: Settings)
      ensures Valid() && Model() == Blank() && this.s == s
    {
      this.s := s;
      heap, entries, needsLookup, needsCheck, documents, counters := [], Empty(), Empty(), Empty(), Empty(), Empty();
      fetched, fetchable, orphans := map[], map[], [];
      counts, lookupsInProgress, knownDone := StateCounts(0, 0, 0, 0), 0, 0;
      observations, discovered, evicted, dropped := 0, 0, 0, 0;
      tracking, maxPending, checkDatabase := false, 100000, false;
      new;
      BlankIndexed(s);
    }

    /** An entry in memory has its place. */
    lemma PlaceOf(h: Hash)
      requires Valid() && h in entries.m
      ensures entries.m[h] < |heap| && heap[entries.m[h]].hash == h && Live(Model(), entries.m[h]) && At(Model(), entries.m[h]) == heap[entries.m[h]]
    {
      hide Exact, Counted, Queued, InOrder, Ordered;
    }

    // ----- helpers under the lock

    /** _set_state_locked */
    method SetState(id: Id, state: FetchState)
      requires id < |heap|
      modifies this`counts, this`heap
      ensures heap == old(heap)[id := old(heap)[id].(state := state)]
      ensures counts == Bump(Bump(old(counts), old(heap)[id].state, -1), state, 1)
    {
      hide Bump;
      counts := Bump(counts, heap[id].state, -1);
      heap := heap[id := heap[id].(state := state)];
      counts := Bump(counts, state, 1);
    }

    /** _index_entry_locked */
    method IndexEntry(id: Id)
      requires id < |heap|
      modifies this`needsCheck, this`fetchable, this`needsLookup
      ensures Model() == Reindexed(s, old(Model()), id)
    {
      hide Ordered, Without;
      var e := heap[id];
      var pending := e.state == Pending;
      if pending && !e.checked {
        needsCheck := SetDefault(needsCheck, e.hash, id);
      } else {
        needsCheck := Pop(needsCheck, e.hash);
      }
      var ready := pending && e.checked;
      if ready && e.peers != [] {
        fetchable := fetchable[e.hash := id];
      } else {
        fetchable := fetchable - {e.hash};
      }
      if ready && e.peers == [] && !e.looking && e.lookups < s.maxLookups {
        needsLookup := SetDefault(needsLookup, e.hash, id);
      } else {
        needsLookup := Pop(needsLookup, e.hash);
      }
    }

    /** _add_peer_locked: a blamed peer is skipped; the others are remembered, the newest last. */
    method AddPeer(id: Id, p: Peer)
      requires id < |heap|
      modifies this`heap
      ensures heap == old(heap)[id := CatalogSpec.AddPeer(s, old(heap)[id], p)]
    {
      hide RememberedKeys;
      if p !in heap[id].failed {
        heap := heap[id := heap[id].(peers := RememberedKeys(heap[id].peers, p, s.maxPeers))];
      }
    }

    method AddPeers(id: Id, peers: seq<Peer>)
      requires id < |heap|
      modifies this`heap
      ensures heap == old(heap)[id := CatalogSpec.AddPeers(s, old(heap)[id], peers)]
    {
      hide CatalogSpec.AddPeer;
      assert peers[0..] == peers;
      var i := 0;
      while i < |peers|
        invariant 0 <= i <= |peers| && id < |heap| && heap == old(heap)[id := heap[id]]
        invariant CatalogSpec.AddPeers(s, heap[id], peers[i..]) == CatalogSpec.AddPeers(s, old(heap)[id], peers)
      {
        assert peers[i..][0] == peers[i] && peers[i..][1..] == peers[i + 1..];
        AddPeer(id, peers[i]);
        i := i + 1;
      }
    }

    /** _forget_peer_locked for each of the peers tried. */
    method ForgetPeers(id: Id, tried: seq<Peer>)
      requires id < |heap|
      modifies this`heap
      ensures heap == old(heap)[id := CatalogSpec.ForgetPeers(old(heap)[id], tried)]
    {
      hide Without;
      assert tried[0..] == tried;
      var i := 0;
      while i < |tried|
        invariant 0 <= i <= |tried| && id < |heap| && heap == old(heap)[id := heap[id]]
        invariant CatalogSpec.ForgetPeers(heap[id], tried[i..]) == CatalogSpec.ForgetPeers(old(heap)[id], tried)
      {
        assert tried[i..][0] == tried[i] && tried[i..][1..] == tried[i + 1..];
        var e := heap[id];
        heap := heap[id := e.(peers := Without(e.peers, tried[i]), failed := e.failed + {tried[i]})];
        i := i + 1;
      }
    }

    /** _forget_known_locked */
    method ForgetKnown(id: Id)
      requires id < |heap|
      modifies this`heap, this`knownDone
      ensures heap == old(heap)[id := old(heap)[id].(known := false)] && knownDone == old(knownDone) - One(old(heap)[id].known)
    {
      if heap[id].known {
        heap := heap[id := heap[id].(known := false)];
        knownDone := knownDone - 1;
      }
    }

    /** _add_orphan_locked */
    method AddOrphan(id: Id)
      modifies this`orphans, this`dropped
      ensures orphans == OrphansWith(old(orphans), id) && dropped == old(dropped) + (if |old(orphans)| >= MAX_ORPHANS then 1 else 0)
    {
      orphans := orphans + [id];
      if |orphans| > MAX_ORPHANS {
        orphans := orphans[1..];
        dropped := dropped + 1;
      }
    }

    /** The part of _drop_unwritten_metadata_locked that changes the entry. */
    method DropMetadata(id: Id)
      requires id < |heap|
      modifies this`heap, this`counts
      ensures heap == old(heap)[id := Undocumented(old(heap)[id])] && counts == Bump(Bump(old(counts), old(heap)[id].state, -1), Pending, 1)
    {
      hide Bump;
      heap := heap[id := heap[id].(meta := None, checked := true)];
      SetState(id, Pending);
    }

    /** _drop_unwritten_metadata_locked */
    method DropUnwrittenMetadata(id: Id)
      requires id < |heap|
      modifies this
      ensures Model() == DropUnwritten(s, old(Model()), id)
    {
      hide Reindexed, Bump, Ordered;
      var e := heap[id];
      if e.hash in entries.m && entries.m[e.hash] == id && e.meta.Some? && e.state == Done {
        fetched := fetched - {e.hash};
        ghost var c1 := Model();
        DropMetadata(id);
        assert Model() == Moved(c1, id, Undocumented(e));
        IndexEntry(id);
      }
    }

    /** A document joins the queue, unless one of its torrent is there already. */
    method AddDocument(id: Id)
      requires id < |heap|
      modifies this`counters, this`documents
      ensures Model() == WithDocument(old(Model()), heap[id].hash, id)
    {
      hide Pop, Put;
      var h := heap[id].hash;
      counters := Pop(counters, h);
      if h !in documents.m {
        documents := Put(documents, h, id);
      }
    }

    method DropOldest()
      requires documents.keys != [] && Ordered(documents) && forall h :: h in documents.m ==> documents.m[h] < |heap|
      modifies this
      ensures Model() == OldestDropped(s, old(Model()))
    {
      hide DropUnwritten, Distinct, PopFirst;
      FirstIn(documents);
      var oldest := documents.m[documents.keys[0]];
      documents := PopFirst(documents);
      dropped := dropped + 1;
      DropUnwrittenMetadata(oldest);
    }

    /** _queue_document_locked */
    method QueueDocumentLocked(id: Id)
      requires id < |heap| && Ordered(documents) && forall h :: h in documents.m ==> documents.m[h] < |heap|
      modifies this
      ensures Model() == QueueDocument(s, old(Model()), id)
    {
      hide OldestDropped, Distinct, Put, Pop;
      var isNew := heap[id].hash !in documents.m;
      AddDocument(id);
      if isNew && |documents.m| > maxPending {
        DropOldest();
      }
    }

    /** _get_or_create_locked */
    method GetOrCreate(h: Hash, now: real) returns (id: Id)
      modifies this
      ensures (Model(), id) == GotOrCreated(old(Model()), h, now)
    {
      hide Put, Bump, NewEntry;
      if h in entries.m {
        id := entries.m[h];
      } else {
        id := |heap|;
        heap := heap + [NewEntry(h, now, !checkDatabase)];
        entries := Put(entries, h, id);
        counts := Bump(counts, Pending, 1);
        discovered := discovered + 1;
      }
    }

    // ----- lookups

    /** add_peers */
    method AddPeersTo(h: Hash, peers: seq<Peer>)
      requires Valid()
      modifies this
      ensures Valid() && Model() == PeersAdded(s, old(Model()), h, peers)
    {
      hide Reindexed, Bump, CatalogSpec.AddPeers, Indexed;
      PeersAddedIndexed(s, Model(), h, peers);
      if h in entries.m {
        var id := entries.m[h];
        PlaceOf(h);
        AddPeersOnly(s, heap[id], peers);
        AddPeers(id, peers);
        BumpBack(counts, heap[id].state);
        assert Model() == Moved(old(Model()), id, heap[id]);
        IndexEntry(id);
      }
    }

    /** release_lookup_claim */
    method ReleaseLookupClaim(h: Hash)
      requires Valid()
      modifies this
      ensures Valid() && Model() == LookupReleased(s, old(Model()), h)
    {
      hide Reindexed, Bump, Indexed;
      LookupReleasedIndexed(s, Model(), h);
      if h in entries.m {
        var id := entries.m[h];
        PlaceOf(h);
        if heap[id].looking {
          heap := heap[id := heap[id].(looking := false)];
          lookupsInProgress := lookupsInProgress - 1;
          BumpBack(counts, heap[id].state);
          assert Model() == Moved(old(Model()), id, heap[id]);
          IndexEntry(id);
        }
      }
    }

    /** The part of add_lookup_result that changes the entry. */
    method FinishLookup(id: Id, peers: seq<Peer>, now: real)
      requires id < |heap|
      modifies this`heap, this`counts, this`lookupsInProgress
      ensures heap == old(heap)[id := AfterLookup(s, old(heap)[id], peers, now)]
      ensures counts == Bump(Bump(old(counts), old(heap)[id].state, -1), heap[id].state, 1)
      ensures lookupsInProgress == old(lookupsInProgress) - One(old(heap)[id].looking)
    {
      hide Bump, CatalogSpec.AddPeers;
      if heap[id].looking {
        heap := heap[id := heap[id].(looking := false)];
        lookupsInProgress := lookupsInProgress - 1;
      }
      heap := heap[id := heap[id].(lookups := heap[id].lookups + 1)];
      assert heap == old(heap)[id := old(heap)[id].(looking := false, lookups := old(heap)[id].lookups + 1)];
      AddPeersOnly(s, heap[id], peers);
      AddPeers(id, peers);
      BumpBack(counts, heap[id].state);
      if heap[id].peers == [] {
        heap := heap[id := heap[id].(nextLookup := now + s.retry * heap[id].lookups as real)];
        if heap[id].lookups >= s.maxLookups && heap[id].state == Pending {
          heap := heap[id := heap[id].(error := "no_peers")];
          SetState(id, Failed);
        }
      }
    }

    /** add_lookup_result */
    method AddLookupResult(h: Hash, peers: seq<Peer>, now: real)
      requires Valid()
      modifies this
      ensures Valid() && Model() == LookupFinished(s, old(Model()), h, peers, now)
    {
      hide Reindexed, Bump, Indexed, AfterLookup;
      LookupFinishedIndexed(s, Model(), h, peers, now);
      if h in entries.m {
        var id := entries.m[h];
        PlaceOf(h);
        AfterLookupKeeps(s, heap[id], peers, now);
        FinishLookup(id, peers, now);
        assert Model() == Moved(old(Model()), id, AfterLookup(s, old(heap)[id], peers, now));
        IndexEntry(id);
      }
    }

    /** The first loop of hashes_needing_peers: the newest that are due. */
    method DueHashes(limit: nat, now: real) returns (chosen: seq<Hash>)
      requires Valid()
      ensures chosen == NewestDue(Model(), needsLookup.keys, limit, now)
    {
      hide Indexed, At;
      chosen := [];
      var n := |needsLookup.keys|;
      assert needsLookup.keys[..n] == needsLookup.keys;
      while n > 0 && |chosen| < limit
        invariant 0 <= n <= |needsLookup.keys| && |chosen| <= limit
        invariant chosen + NewestDue(Model(), needsLookup.keys[..n], limit - |chosen|, now) == NewestDue(Model(), needsLookup.keys, limit, now)
      {
        var h := needsLookup.keys[n - 1];
        assert needsLookup.keys[..n][n - 1] == h && needsLookup.keys[..n][..n - 1] == needsLookup.keys[..n - 1];
        WaitingPlace(n - 1);
        ghost var before := chosen;
        if heap[needsLookup.m[h]].nextLookup <= now {
          chosen := chosen + [h];
          assert before + ([h] + NewestDue(Model(), needsLookup.keys[..n - 1], limit - |chosen|, now)) ==
                 chosen + NewestDue(Model(), needsLookup.keys[..n - 1], limit - |chosen|, now);
        }
        n := n - 1;
      }
      assert chosen + [] == chosen;
    }

    lemma WaitingPlace(i: nat)
      requires Valid() && i < |needsLookup.keys|
      ensures var h := needsLookup.keys[i];
              h in needsLookup.m && needsLookup.m[h] < |heap| && At(Model(), needsLookup.m[h]) == heap[needsLookup.m[h]] && h in entries.m
    {
      hide Counted, Queued, Distinct, AwaitsCheck, CatalogSpec.Fetchable, NeedsLookup, Placed;
      assert needsLookup.keys[i] in needsLookup.keys;
      assert ExactAt(s, Model(), needsLookup.keys[i]);
      PlaceOf(needsLookup.keys[i]);
    }

    /** hashes_needing_peers: those returned are claimed. */
    method HashesNeedingPeers(limit: nat, now: real) returns (chosen: seq<Hash>)
      requires Valid()
      modifies this
      ensures Valid() && Model() == LookupsClaimed(s, old(Model()), limit, now) && chosen == NewestDue(old(Model()), old(needsLookup).keys, limit, now)
    {
      hide Indexed, Replaced, NewestDue, At;
      chosen := DueHashes(limit, now);
      LookingEachIndexed(s, Model(), chosen);
      assert chosen[0..] == chosen;
      var i := 0;
      while i < |chosen|
        invariant 0 <= i <= |chosen| && Valid() && LookingEach(s, Model(), chosen[i..]) == LookingEach(s, old(Model()), chosen)
      {
        assert chosen[i..][0] == chosen[i] && chosen[i..][1..] == chosen[i + 1..];
        ClaimOne(chosen[i]);
        i := i + 1;
      }
    }

    /** One turn of the second loop; only unclaimed hashes that are in memory come here. */
    method ClaimOne(h: Hash)
      requires Valid()
      modifies this
      ensures Valid() && LookingEach(s, old(Model()), [h]) == Model()
      ensures forall rest :: LookingEach(s, Model(), rest) == LookingEach(s, old(Model()), [h] + rest)
    {
      hide Indexed, Reindexed, Bump;
      ghost var c := Model();
      LookingEachIndexed(s, c, [h]);
      LookingOne(s, c, h);
      if h in entries.m {
        var id := entries.m[h];
        PlaceOf(h);
        lookupsInProgress := lookupsInProgress + (if heap[id].looking then 0 else 1);
        heap := heap[id := heap[id].(looking := true)];
        BumpBack(counts, heap[id].state);
        assert Model() == Moved(c, id, c.heap[id].(looking := true));
        IndexEntry(id);
      }
    }

    // ----- fetches

    /** The part of mark_fetch_failed that changes the entry. */
    method FailEntry(id: Id, tried: seq<Peer>, reason: string, now: real)
      requires id < |heap|
      modifies this`heap, this`counts
      ensures heap == old(heap)[id := AfterFailure(s, old(heap)[id], tried, reason, now)]
      ensures counts == Bump(Bump(old(counts), old(heap)[id].state, -1), heap[id].state, 1)
    {
      hide Bump, CatalogSpec.ForgetPeers;
      ForgetPeersOnly(heap[id], tried);
      ForgetPeers(id, tried);
      heap := heap[id := heap[id].(attempts := heap[id].attempts + 1, error := reason)];
      assert heap == old(heap)[id := CatalogSpec.ForgetPeers(old(heap)[id], tried).(attempts := old(heap)[id].attempts + 1, error := reason)];
      if heap[id].attempts >= s.maxAttempts {
        SetState(id, Failed);
      } else if heap[id].peers == [] && heap[id].lookups >= s.maxLookups && !heap[id].looking {
        heap := heap[id := heap[id].(error := "no_peers")];
        SetState(id, Failed);
      } else {
        SetState(id, Pending);
        if heap[id].peers == [] {
          heap := heap[id := heap[id].(nextLookup := now)];
        }
      }
    }

    /** mark_fetch_failed; the result is the state the entry is left in. */
    method MarkFetchFailed(h: Hash, tried: seq<Peer>, reason: string, now: real) returns (state: FetchState)
      requires Valid()
      modifies this
      ensures Valid() && Model() == FetchFailed(s, old(Model()), h, tried, reason, now)
      ensures state == if h in old(entries).m then AfterFailure(s, At(old(Model()), old(entries).m[h]), tried, reason, now).state else Failed
    {
      hide Reindexed, Bump, Indexed, AfterFailure;
      FetchFailedIndexed(s, Model(), h, tried, reason, now);
      if h !in entries.m {
        return Failed;
      }
      var id := entries.m[h];
      PlaceOf(h);
      AfterFailureKeeps(s, heap[id], tried, reason, now);
      FailEntry(id, tried, reason, now);
      assert Model() == Moved(old(Model()), id, AfterFailure(s, old(heap)[id], tried, reason, now));
      state := heap[id].state;
      IndexEntry(id);
    }

    /** release_fetch_claim */
    method ReleaseFetchClaim(h: Hash)
      requires Valid()
      modifies this
      ensures Valid() && Model() == FetchReleased(s, old(Model()), h)
    {
      hide Reindexed, Bump, Indexed;
      FetchReleasedIndexed(s, Model(), h);
      if h in entries.m {
        var id := entries.m[h];
        PlaceOf(h);
        if heap[id].state == InProgress {
          SetState(id, Pending);
          assert Model() == Moved(old(Model()), id, old(heap)[id].(state := Pending));
          IndexEntry(id);
        }
      }
    }

    /** The part of store_metadata that changes the entry. */
    method StoreEntry(id: Id, meta: Metadata)
      requires id < |heap|
      modifies this`heap, this`counts, this`knownDone
      ensures heap == old(heap)[id := StoredEntry(old(heap)[id], meta)]
      ensures counts == Bump(Bump(old(counts), old(heap)[id].state, -1), Done, 1)
      ensures knownDone == old(knownDone) - One(old(heap)[id].known)
    {
      hide Bump;
      ForgetKnown(id);
      heap := heap[id := heap[id].(meta := Some(meta), error := "")];
      SetState(id, Done);
    }

    /** store_metadata; the result tells whether the entry had to be made. */
    method StoreMetadata(meta: Metadata, now: real) returns (created: bool)
      requires Valid()
      modifies this
      ensures Valid() && Model() == Stored(s, old(Model()), meta, now) && created == (meta.hash !in old(entries).m)
    {
      hide Reindexed, Bump, Indexed, QueueDocument, Nearly, GotOrCreated, StoredEntry, Became, Overflowed, OnlyOverflow, QueuesOne;
      StoredIndexed(s, Model(), meta, now);
      CreatedNearly(s, Model(), meta.hash, now);
      created := meta.hash !in entries.m;
      var id := GetOrCreate(meta.hash, now);
      ghost var c1 := Model();
      StoreEntry(id, meta);
      fetched := fetched[meta.hash := id];
      StoredFlags(c1.heap[id], meta);
      assert Model() == Moved(c1.(fetched := c1.fetched[meta.hash := id]), id, StoredEntry(c1.heap[id], meta));
      IndexEntry(id);
      ghost var c2 := Model();
      StoredUnfolds(s, c1, id, meta);
      if tracking {
        DocumentPlaces(s, c2);
        QueueDocumentLocked(id);
      }
    }

    /** next_fetch_candidates: the most seen first, each with its peers; those returned are claimed. */
    method NextFetchCandidates(limit: nat) returns (result: seq<(Hash, seq<Peer>)>, ghost ids: seq<Id>)
      requires Valid()
      modifies this
      ensures Valid() && TopCandidates(old(Model()), ids, limit) && Model() == FetchingEach(s, old(Model()), ids)
      ensures |result| == |ids| && forall i :: 0 <= i < |ids| ==> ids[i] < |old(heap)| && result[i] == (old(heap)[ids[i]].hash, old(heap)[ids[i]].peers)
    {
      hide Indexed, TopCandidates, Live, CatalogSpec.Fetchable, FetchingEach, FetchingSet, Steady;
      ghost var c := Model();
      var best := Candidates(limit);
      ids := best;
      CandidatesLive(s, c, best, limit);
      FetchingEachIndexed(s, c, best);
      result := StartFetches(best);
    }

    /** heapq.nlargest over the fetchable entries. */
    method Candidates(limit: nat) returns (best: seq<Id>)
      requires Valid()
      ensures TopCandidates(Model(), best, limit)
    {
      hide Indexed, TopCandidates, RanksBelow, Distinct;
      var pool := FetchablePlaces();
      var held := heap;
      RanksOrdered(Model(), pool);
      best := Best(pool, limit, RankOrder(held));
      TopChosen(s, Model(), pool, best, limit);
    }

    method StartFetches(best: seq<Id>) returns (result: seq<(Hash, seq<Peer>)>)
      requires forall id :: id in best ==> id < |heap|
      modifies this
      ensures Model() == FetchingEach(s, old(Model()), best) && |result| == |best|
      ensures forall i :: 0 <= i < |best| ==> best[i] < |old(heap)| && result[i] == (old(heap)[best[i]].hash, old(heap)[best[i]].peers)
    {
      hide Replaced;
      var held := heap;
      assert best[0..] == best;
      result := [];
      var i := 0;
      while i < |best|
        invariant 0 <= i <= |best| && |result| == i && |heap| == |held|
        invariant FetchingEach(s, Model(), best[i..]) == FetchingEach(s, old(Model()), best)
        invariant forall j :: 0 <= j < i ==> best[j] < |held| && result[j] == (held[best[j]].hash, held[best[j]].peers)
        invariant forall j :: 0 <= j < |held| ==> heap[j].hash == held[j].hash && heap[j].peers == held[j].peers
      {
        assert best[i..][0] == best[i] && best[i..][1..] == best[i + 1..];
        var id := best[i];
        assert id in best;
        ReplacedHeap(s, Model(), id, heap[id].(state := InProgress));
        StartFetch(id);
        result := result + [(heap[id].hash, heap[id].peers)];
        i := i + 1;
      }
    }

    /** One turn of the loop of next_fetch_candidates. */
    method StartFetch(id: Id)
      requires id < |heap|
      modifies this
      ensures Model() == Replaced(s, old(Model()), id, old(heap)[id].(state := InProgress))
    {
      hide Reindexed, Bump;
      SetState(id, InProgress);
      assert Model() == Moved(old(Model()), id, old(heap)[id].(state := InProgress));
      IndexEntry(id);
    }

    /** fetchable.values() */
    method FetchablePlaces() returns (pool: seq<Id>)
      requires Valid()
      ensures Distinct(pool) && |pool| == |fetchable| && forall id: Id :: id in pool <==> id < |heap| && heap[id].hash in fetchable && fetchable[heap[id].hash] == id
    {
      hide Indexed;
      FetchablePlaced(s, Model());
      pool := [];
      var left := fetchable.Keys;
      while left != {}
        invariant left <= fetchable.Keys && Distinct(pool) && |pool| + |left| == |fetchable|
        invariant forall id: Id :: id in pool <==> id < |heap| && heap[id].hash in fetchable && heap[id].hash !in left && fetchable[heap[id].hash] == id
        decreases |left|
      {
        var h :| h in left;
        pool := pool + [fetchable[h]];
        left := left - {h};
      }
    }

    // ----- recording

    /** _record_locked */
    method Record(h: Hash, announce: bool, peer: Option<Peer>, now: real) returns (created: bool, ghost victims: seq<Id>)
      requires Valid()
      modifies this
      ensures Valid() && Model() == Recorded(s, old(Model()), h, announce, peer, now, victims) && created == (h !in old(entries).m)
      ensures var noted := Noted(s, old(Model()), h, announce, peer, now);
              if |noted.entries.m| > s.maxEntries then ChosenVictims(s, noted, victims) else victims == []
    {
      hide Indexed, Noted, ChosenVictims, EvictedEach;
      ghost var c := Model();
      NotedIndexed(s, c, h, announce, peer, now);
      created := h !in entries.m;
      Note(h, announce, peer, now);
      victims := [];
      if |entries.m| > s.maxEntries {
        victims := Evict();
      }
    }

    /** The part of _record_locked that changes the entry. */
    method SightEntry(id: Id, announce: bool, peer: Option<Peer>, now: real)
      requires id < |heap|
      modifies this`heap
      ensures heap == old(heap)[id := Sighted(s, old(heap)[id], announce, peer, now)]
    {
      hide CatalogSpec.AddPeer, Max;
      var e := heap[id];
      e := e.(seen := e.seen + 1, lastSeen := Max(e.lastSeen, now));
      if announce {
        e := e.(announced := e.announced + 1);
      }
      heap := heap[id := e];
      if peer.Some? && e.state != Done {
        AddPeer(id, peer.value);
      }
    }

    /** _record_locked between the creation and the eviction. */
    method NoteEntry(id: Id, announce: bool, peer: Option<Peer>, now: real)
      requires id < |heap|
      modifies this
      ensures var c1 := old(Model()); var e := Sighted(s, c1.heap[id], announce, peer, now);
              Model() == Replaced(s, c1.(needsLookup := Pop(c1.needsLookup, e.hash), observations := c1.observations + 1), id, e)
    {
      hide Reindexed, Bump, Sighted, Pop;
      ghost var c1 := Model();
      ghost var e := Sighted(s, heap[id], announce, peer, now);
      SightedTags(s, heap[id], announce, peer, now);
      SightEntry(id, announce, peer, now);
      needsLookup := Pop(needsLookup, heap[id].hash);
      observations := observations + 1;
      BumpBack(counts, e.state);
      assert Model() == Moved(c1.(needsLookup := Pop(c1.needsLookup, e.hash), observations := c1.observations + 1), id, e);
      IndexEntry(id);
    }

    /** _record_locked up to the eviction. */
    method Note(h: Hash, announce: bool, peer: Option<Peer>, now: real)
      requires Valid()
      modifies this
      ensures Model() == Noted(s, old(Model()), h, announce, peer, now)
    {
      hide Replaced, Indexed, Nearly, Sighted, GotOrCreated, Pop, SetDefault;
      CreatedNearly(s, Model(), h, now);
      var id := GetOrCreate(h, now);
      ghost var c1 := Model();
      ghost var e := Sighted(s, heap[id], announce, peer, now);
      SightedTags(s, heap[id], announce, peer, now);
      NoteEntry(id, announce, peer, now);
      ReplacedHeap(s, c1.(needsLookup := Pop(c1.needsLookup, h), observations := c1.observations + 1), id, e);
      if tracking && (heap[id].meta.Some? || heap[id].inDatabase) {
        counters := SetDefault(counters, h, id);
      }
    }

    /** The first pass of _evict_locked. */
    method CheapVictims(wanted: nat) returns (victims: seq<Id>)
      requires Valid()
      ensures victims == FirstCheap(Model(), entries.keys, wanted)
    {
      hide Indexed, Cheap, FirstCheap, At;
      victims := [];
      assert entries.keys[0..] == entries.keys;
      var i := 0;
      while i < |entries.keys| && |victims| < wanted
        invariant 0 <= i <= |entries.keys| && |victims| <= wanted
        invariant victims + FirstCheap(Model(), entries.keys[i..], wanted - |victims|) == FirstCheap(Model(), entries.keys, wanted)
      {
        var h := entries.keys[i];
        KeyIn(h, i);
        PlaceOf(h);
        CheapNext(Model(), entries.keys, i, wanted - |victims|);
        ghost var before := victims;
        if Cheap(heap[entries.m[h]]) {
          victims := victims + [entries.m[h]];
          assert before + ([entries.m[h]] + FirstCheap(Model(), entries.keys[i + 1..], wanted - |victims|)) ==
                 victims + FirstCheap(Model(), entries.keys[i + 1..], wanted - |victims|);
        }
        i := i + 1;
      }
      CheapDone(Model(), entries.keys[i..], wanted - |victims|);
      assert victims + [] == victims;
    }

    lemma KeyIn(h: Hash, i: nat)
      requires Valid() && i < |entries.keys| && entries.keys[i] == h
      ensures h in entries.m
    {
      hide Exact, Counted, Queued, InOrder, Distinct;
      assert h in entries.keys;
    }

    /** The entries left for the second pass. */
    method OtherVictims(taken: seq<Id>) returns (pool: seq<Id>)
      requires Valid()
      ensures pool == Remaining(Model(), entries.keys, taken)
    {
      hide Indexed, Evictable;
      pool := [];
      assert entries.keys[0..] == entries.keys;
      var i := 0;
      while i < |entries.keys|
        invariant 0 <= i <= |entries.keys|
        invariant pool + Remaining(Model(), entries.keys[i..], taken) == Remaining(Model(), entries.keys, taken)
      {
        var h := entries.keys[i];
        assert entries.keys[i..][0] == h && entries.keys[i..][1..] == entries.keys[i + 1..];
        KeyIn(h, i);
        PlaceOf(h);
        ghost var before := pool;
        if entries.m[h] !in taken && Evictable(heap[entries.m[h]]) {
          pool := pool + [entries.m[h]];
          assert before + ([entries.m[h]] + Remaining(Model(), entries.keys[i + 1..], taken)) == pool + Remaining(Model(), entries.keys[i + 1..], taken);
        }
        i := i + 1;
      }
      assert pool + [] == pool;
    }

    /** The choice made by _evict_locked. */
    method ChooseVictims() returns (victims: seq<Id>)
      requires Valid()
      ensures ChosenVictims(s, Model(), victims)
    {
      hide Indexed, ChosenVictims, KeyAtMost, Cheap, Evictable, FirstCheap, Remaining, EvictableSet, Live;
      var wanted := Wanted(s);
      victims := CheapVictims(wanted);
      if |victims| < wanted {
        var pool := OtherVictims(victims);
        PoolsComplete(s, Model());
        var held := heap;
        PoolPlaces(s, Model());
        KeysOrdered(Model(), pool);
        var rest := Best(pool, wanted - |victims|, KeyOrder(held));
        SecondPass(s, Model(), victims, pool, rest);
        victims := victims + rest;
      } else {
        FirstPass(s, Model(), victims);
      }
    }

    method EvictAll(victims: seq<Id>)
      requires forall v :: v in victims ==> v < |heap|
      modifies this
      ensures Model() == EvictedEach(old(Model()), victims)
    {
      hide EvictedOne;
      assert victims[0..] == victims;
      var i := 0;
      while i < |victims|
        invariant 0 <= i <= |victims| && EvictedEach(Model(), victims[i..]) == EvictedEach(old(Model()), victims)
        invariant |heap| == |old(heap)|
      {
        assert victims[i..][0] == victims[i] && victims[i..][1..] == victims[i + 1..];
        assert victims[i] in victims;
        EvictedFields(Model(), victims[i]);
        EvictEntry(victims[i]);
        i := i + 1;
      }
    }

    /** _evict_locked */
    method Evict() returns (victims: seq<Id>)
      requires Valid()
      modifies this
      ensures Valid() && ChosenVictims(s, old(Model()), victims) && Model() == EvictedEach(old(Model()), victims)
    {
      hide Indexed, ChosenVictims, Evictees, EvictedEach;
      victims := ChooseVictims();
      VictimsEvictable(s, Model(), victims);
      EvictedEachIndexed(s, Model(), victims);
      EvictAll(victims);
    }

    /** An evicted hash leaves every table. */
    method RemoveFromTables(h: Hash)
      modifies this`entries, this`fetched, this`fetchable, this`needsLookup, this`needsCheck, this`counters
      ensures entries == Pop(old(entries), h) && fetched == old(fetched) - {h} && fetchable == old(fetchable) - {h}
      ensures needsLookup == Pop(old(needsLookup), h) && needsCheck == Pop(old(needsCheck), h) && counters == Pop(old(counters), h)
    {
      hide Pop;
      entries := Pop(entries, h);
      fetched := fetched - {h};
      fetchable := fetchable - {h};
      needsLookup := Pop(needsLookup, h);
      needsCheck := Pop(needsCheck, h);
      counters := Pop(counters, h);
    }

    /** An evicted entry is remembered while the database lacks some of its counts, and is no longer counted. */
    method LeaveCounts(id: Id)
      requires id < |heap|
      modifies this`orphans, this`dropped, this`heap, this`knownDone, this`counts, this`evicted
      ensures var e := old(heap)[id]; var owed := e.base.Some? && HasNews(e);
              orphans == (if owed then OrphansWith(old(orphans), id) else old(orphans)) &&
              dropped == old(dropped) + (if owed && |old(orphans)| >= MAX_ORPHANS then 1 else 0) &&
              heap == old(heap)[id := e.(known := false)] && knownDone == old(knownDone) - One(e.known) &&
              counts == Bump(old(counts), e.state, -1) && evicted == old(evicted) + 1
    {
      hide Bump, OrphansWith, HasNews;
      var e := heap[id];
      if e.base.Some? && HasNews(e) {
        AddOrphan(id);
      }
      ForgetKnown(id);
      counts := Bump(counts, e.state, -1);
      evicted := evicted + 1;
    }

    /** One turn of the last loop of _evict_locked. */
    method EvictEntry(id: Id)
      requires id < |heap|
      modifies this
      ensures Model() == EvictedOne(old(Model()), id)
    {
      hide Pop, Bump, OrphansWith, HasNews, Ordered;
      var e := heap[id];
      RemoveFromTables(e.hash);
      LeaveCounts(id);
    }

    // ----- the index thread's side

    /** enable_index_tracking */
    method EnableIndexTracking(maxPending: nat, checkDatabase: bool)
      requires Valid()
      modifies this`tracking, this`maxPending, this`checkDatabase
      ensures Valid() && Model() == TrackingEnabled(old(Model()), maxPending, checkDatabase)
    {
      hide Indexed;
      ghost var c := Model();
      this.tracking := true;
      this.maxPending := maxPending;
      this.checkDatabase := checkDatabase;
      SameTablesIndexed(s, c, Model());
    }

    /** drain_index_documents */
    method DrainIndexDocuments(limit: nat) returns (batch: seq<Snapshot>)
      requires Valid()
      modifies this`documents
      ensures Valid() && (Model(), batch) == DocumentsDrained(old(Model()), limit)
    {
      hide Indexed, From, Ordered, PopFirst, SnapshotOf, At, OrphanAt, DocumentOf;
      ghost var c, d := Model(), documents;
      QueuesOf(s, c);
      FromOrdered(d, 0);
      DocumentsDrainedIndexed(s, c, limit);
      DocumentPlaces(s, c);
      batch := [];
      while documents.keys != [] && |batch| < limit
        invariant |batch| <= |d.keys| && |batch| <= limit && documents == From(d, |batch|) && |documents.keys| == |d.keys| - |batch|
        invariant batch == SnapshotsOf(c, d, |batch|)
        decreases |documents.keys|
      {
        ghost var k := |batch|;
        FromKeys(d, k);
        FromNext(d, k);
        FromSize(d, k + 1);
        var h := documents.keys[0];
        var id := documents.m[h];
        documents := PopFirst(documents);
        SnapshotsNext(c, d, k);
        AtHeap(c, id);
        batch := batch + [SnapshotOf(id, heap[id])];
      }
    }

    /** The first loop of drain_index_counters. */
    method DrainOrphans(limit: nat) returns (batch: seq<Snapshot>)
      requires Valid()
      modifies this`orphans
      ensures Valid() && (Model(), batch) == OrphansDrained(old(Model()), limit)
    {
      hide Indexed, SnapshotOf, At, Empty?, OrphanAt;
      ghost var c := Model();
      OrphansDrainedIndexed(s, c, limit);
      OrphanPlaces(s, c);
      batch := [];
      assert [] + OrphansDrained(c, limit).1 == OrphansDrained(c, limit).1;
      while orphans != [] && |batch| < limit
        invariant |batch| <= limit && (forall o :: o in orphans ==> o < |heap|)
        invariant var (c1, rest) := OrphansDrained(Model(), limit - |batch|); OrphansDrained(c, limit) == (c1, batch + rest)
        decreases |orphans|
      {
        var o := orphans[0];
        assert o in orphans;
        ghost var before := Model();
        AtHeap(before, o);
        var x := SnapshotOf(o, heap[o]);
        assert forall y :: y in orphans[1..] ==> y in orphans;
        orphans := orphans[1..];
        OrphansNext(before, limit - |batch|, batch);
        if !Empty?(x) {
          batch := batch + [x];
        }
      }
      OrphansDone(Model(), limit - |batch|, batch);
    }

    /** The second loop of drain_index_counters. */
    method DrainCounters(limit: nat) returns (batch: seq<Snapshot>)
      requires Valid()
      modifies this
      ensures Valid() && (Model(), batch) == CountersDrained(s, old(Model()), limit, |old(counters).keys|)
    {
      hide Indexed, SnapshotOf, At, HasNews, QueueDocument, Ordered, PopFirst, Overflowed, OnlyOverflow, QueuesLive, CountersDrained;
      ghost var c := Model();
      ghost var turns := |counters.keys|;
      CountersDrainedIndexed(s, c, limit, turns);
      batch := [];
      assert [] + CountersDrained(s, c, limit, turns).1 == CountersDrained(s, c, limit, turns).1;
      while counters.keys != [] && |batch| < limit
        invariant Valid() && |batch| <= limit && |counters.keys| <= turns
        invariant var (c1, rest) := CountersDrained(s, Model(), limit - |batch|, turns); CountersDrained(s, c, limit, |c.counters.keys|) == (c1, batch + rest)
        decreases turns
      {
        ghost var before := Model();
        QueuesOf(s, before);
        FirstIn(counters);
        var h := counters.keys[0];
        CounterPlace(s, before, h);
        var id := counters.m[h];
        AtHeap(before, id);
        FewerCounters(s, before, PopFirst(counters));
        PoppedKeys(counters);
        counters := PopFirst(counters);
        CountersNext(s, before, limit - |batch|, turns, batch);
        if heap[id].base.None? {
          if heap[id].meta.Some? {
            AtHeap(Model(), id);
            QueueDocumentIndexed(s, Model(), id);
            DocumentPlaces(s, Model());
            QueueKeys(s, Model(), id);
            QueueDocumentLocked(id);
          }
        } else if HasNews(heap[id]) {
          batch := batch + [SnapshotOf(id, heap[id])];
        }
        turns := turns - 1;
      }
      CountersDone(s, Model(), limit - |batch|, turns, batch);
    }

    /** drain_index_counters */
    method DrainIndexCounters(limit: nat) returns (batch: seq<Snapshot>)
      requires Valid()
      modifies this
      ensures Valid() && (Model(), batch) == AllCountersDrained(s, old(Model()), limit)
    {
      hide Indexed, OrphansDrained, CountersDrained;
      batch := DrainOrphans(limit);
      var rest := DrainCounters(limit - |batch|);
      batch := batch + rest;
    }

    /** requeue_index_documents, for snapshots the catalog handed out. */
    method RequeueIndexDocuments(batch: seq<Snapshot>)
      requires Valid() && forall x :: x in batch ==> DocumentOf(Model(), x.hash, x.id)
      modifies this`documents
      ensures Valid() && Model() == DocumentsRequeued(old(Model()), batch)
    {
      hide Indexed, DocumentOf, Ordered, HasId;
      ghost var c := Model();
      DocumentsRequeuedIndexed(s, c, batch);
      assert batch[..|batch|] == batch;
      var n := |batch|;
      while n > 0
        invariant 0 <= n <= |batch| && DocumentsRequeued(Model(), batch[..n]) == DocumentsRequeued(c, batch)
      {
        n := n - 1;
        assert batch[..n + 1][n] == batch[n] && batch[..n + 1][..n] == batch[..n];
        if batch[n].hash !in documents.m {
          documents := PutFirst(documents, batch[n].hash, batch[n].id);
        }
      }
    }

    /** requeue_index_counters */
    method RequeueIndexCounters(batch: seq<Snapshot>)
      requires Valid() && forall x :: x in batch ==> Countable(Model(), x)
      modifies this`counters, this`orphans, this`dropped
      ensures Valid() && Model() == CountersRequeued(old(Model()), batch)
    {
      hide Indexed, Countable, OrphansWith, SetDefault, Ordered, NewestOrphans, OrphanAt, DocumentOf;
      ghost var c := Model();
      QueuesOf(s, c);
      NewestIs(c.orphans);
      CountersRequeuedIndexed(s, c, batch, c.orphans);
      assert batch[0..] == batch;
      var i := 0;
      while i < |batch|
        invariant 0 <= i <= |batch| && CountersRequeued(Model(), batch[i..]) == CountersRequeued(c, batch)
      {
        assert batch[i..][0] == batch[i] && batch[i..][1..] == batch[i + 1..];
        var x := batch[i];
        if x.hash in entries.m && entries.m[x.hash] == x.id {
          counters := SetDefault(counters, x.hash, x.id);
        } else {
          AddOrphan(x.id);
        }
        i := i + 1;
      }
    }

    /** mark_counters_written */
    method MarkCountersWritten(batch: seq<Snapshot>)
      requires Valid() && forall x :: x in batch ==> x.id < |heap|
      modifies this`heap
      ensures Valid() && Model() == CountersMarked(old(Model()), batch)
    {
      hide Indexed, SumFor, FlushedBy, At;
      ghost var c := Model();
      CountersMarkedIndexed(s, c, batch);
      assert batch[0..] == batch;
      var i := 0;
      while i < |batch|
        invariant 0 <= i <= |batch| && |heap| == |c.heap| && CountersMarked(Model(), batch[i..]) == CountersMarked(c, batch)
      {
        assert batch[i..][0] == batch[i] && batch[i..][1..] == batch[i + 1..];
        var x := batch[i];
        assert x in batch;
        AtHeap(Model(), x.id);
        heap := heap[x.id := FlushedBy(heap[x.id], x)];
        i := i + 1;
      }
    }

    /** mark_index_written, for a snapshot the catalog handed out; its entry is done when its metadata is released. */
    method MarkIndexWritten(x: Snapshot, base: Base)
      requires Valid() && x.id < |heap| && heap[x.id].hash == x.hash
      requires Live(Model(), x.id) && heap[x.id].meta == x.meta ==> heap[x.id].state == Done
      modifies this
      ensures Valid() && Model() == DocumentMarked(old(Model()), x, base)
    {
      hide Indexed, MarkedEntry, Unqueued, MetadataReleased;
      ghost var c := Model();
      DocumentMarkedIndexed(s, c, x, base);
      var id := x.id;
      heap := heap[id := FlushedBy(heap[id], x)];
      if x.hash in entries.m && entries.m[x.hash] == id {
        heap := heap[id := heap[id].(base := Some(base))];
        ghost var c1 := Model();
        assert c1 == SetEntry(c, id, FlushedBy(c.heap[id], x).(base := Some(base)));
        if heap[id].meta == x.meta {
          Unqueue(x.hash, id);
          UnqueuedHeap(c1, x.hash, id);
          ReleaseMetadata(id);
        }
      }
    }

    /** What mark_index_written does to a document queued again meanwhile. */
    method Unqueue(h: Hash, id: Id)
      modifies this`documents, this`counters
      ensures Model() == Unqueued(old(Model()), h, id)
    {
      hide Pop, SetDefault;
      if h in documents.m {
        documents := Pop(documents, h);
        counters := SetDefault(counters, h, id);
      }
    }

    /** _release_metadata_locked */
    method ReleaseMetadata(id: Id)
      requires id < |heap|
      modifies this`heap, this`fetched
      ensures Model() == MetadataReleased(old(Model()), id)
    {
      heap := heap[id := heap[id].(meta := None, inDatabase := true, peers := [], failed := {})];
      fetched := fetched - {heap[id].hash};
    }

    /** set_database_check */
    method SetDatabaseCheck(enabled: bool)
      requires Valid()
      modifies this
      ensures Valid() && Model() == CheckSwitched(s, old(Model()), enabled)
    {
      hide Indexed, Replaced;
      ghost var c := Model();
      CheckSwitchedIndexed(s, c, enabled);
      checkDatabase := enabled;
      if !enabled {
        ghost var c1 := Model();
        SameTablesIndexed(s, c, c1);
        var hashes := needsCheck.keys;
        CheckedEachIndexed(s, c1, hashes);
        assert hashes[0..] == hashes;
        var i := 0;
        while i < |hashes|
          invariant 0 <= i <= |hashes| && Valid() && CheckedEach(s, Model(), hashes[i..]) == CheckedEach(s, c1, hashes)
        {
          assert hashes[i..][0] == hashes[i] && hashes[i..][1..] == hashes[i + 1..];
          CheckOne(hashes[i]);
          i := i + 1;
        }
      }
    }

    /** One turn of its loop. */
    method CheckOne(h: Hash)
      requires Valid()
      modifies this
      ensures Valid() && Model() == if h in old(entries).m then Replaced(s, old(Model()), old(entries).m[h], At(old(Model()), old(entries).m[h]).(checked := true)) else old(Model())
    {
      hide Indexed, Replaced, Became, Prepared, Fits, ExactAt;
      if h in entries.m {
        PlaceOf(h);
        LiveHere(s, Model(), h);
        ReplaceLive(s, Model(), h, heap[entries.m[h]].(checked := true));
        BecomeChecked(entries.m[h]);
      }
    }

    method BecomeChecked(id: Id)
      requires id < |heap|
      modifies this
      ensures Model() == Replaced(s, old(Model()), id, old(heap)[id].(checked := true))
    {
      hide Reindexed, Bump;
      heap := heap[id := heap[id].(checked := true)];
      BumpBack(counts, heap[id].state);
      assert Model() == Moved(old(Model()), id, heap[id]);
      IndexEntry(id);
    }

    /** pending_database_checks */
    method PendingDatabaseChecks(limit: nat) returns (hashes: seq<Hash>)
      ensures hashes == needsCheck.keys[..Least(limit, |needsCheck.keys|)]
    {
      hashes := needsCheck.keys[..if limit < |needsCheck.keys| then limit else |needsCheck.keys|];
    }

    /** apply_database_checks */
    method ApplyDatabaseChecks(hashes: seq<Hash>, found: map<Hash, Base>)
      requires Valid()
      modifies this
      ensures Valid() && Model() == ChecksApplied(s, old(Model()), hashes, found)
    {
      hide Indexed, OneCheckApplied;
      ghost var c := Model();
      assert hashes[0..] == hashes;
      var i := 0;
      while i < |hashes|
        invariant 0 <= i <= |hashes| && Valid() && ChecksApplied(s, Model(), hashes[i..], found) == ChecksApplied(s, c, hashes, found)
      {
        assert hashes[i..][0] == hashes[i] && hashes[i..][1..] == hashes[i + 1..];
        ApplyCheck(hashes[i], found);
        i := i + 1;
      }
    }

    /** One turn of its loop. */
    method ApplyCheck(h: Hash, found: map<Hash, Base>)
      requires Valid()
      modifies this
      ensures Valid() && Model() == OneCheckApplied(s, old(Model()), h, found)
    {
      hide Indexed, Replaced, Became, CheckedEntry, Pop, SetDefault;
      ghost var c := Model();
      OneCheckAppliedIndexed(s, c, h, found);
      CheckPlace(s, c, h);
      if h in needsCheck.m {
        var id := needsCheck.m[h];
        PlaceOf(h);
        needsCheck := Pop(needsCheck, h);
        if !heap[id].checked {
          if h in found && heap[id].state == Pending {
            BecomeKnown(id, found[h]);
            if tracking {
              counters := SetDefault(counters, h, id);
            }
          } else {
            BecomeChecked(id);
          }
        }
      }
    }

    method BecomeKnown(id: Id, base: Base)
      requires id < |heap|
      modifies this
      ensures Model() == Replaced(s, old(Model()), id, old(heap)[id].(checked := true, base := Some(base), inDatabase := true, peers := [], failed := {}, known := true, state := Done))
    {
      hide Reindexed, Bump;
      ghost var c := Model();
      KnowEntry(id, base);
      assert Model() == Moved(c, id, heap[id]);
      IndexEntry(id);
    }

    /** An entry found in the database is done without a fetch. */
    method KnowEntry(id: Id, base: Base)
      requires id < |heap|
      modifies this`heap, this`counts, this`knownDone
      ensures heap == old(heap)[id := old(heap)[id].(checked := true, base := Some(base), inDatabase := true, peers := [], failed := {}, known := true, state := Done)]
      ensures counts == Bump(Bump(old(counts), old(heap)[id].state, -1), Done, 1) && knownDone == old(knownDone) - One(old(heap)[id].known) + 1
    {
      hide Bump;
      var wasKnown := heap[id].known;
      heap := heap[id := heap[id].(checked := true, base := Some(base), inDatabase := true, peers := [], failed := {}, known := true)];
      knownDone := if wasKnown then knownDone else knownDone + 1;
      SetState(id, Done);
    }

    /** reset_index_base */
    method ResetIndexBase(h: Hash)
      requires Valid()
      modifies this
      ensures Valid() && Model() == BaseReset(s, old(Model()), h)
    {
      hide Indexed, Replaced, QueueDocument, Pop, Ordered;
      ghost var c := Model();
      BaseResetIndexed(s, c, h);
      if h in entries.m {
        var id := entries.m[h];
        PlaceOf(h);
        DocumentPlaces(s, c);
        heap := heap[id := heap[id].(base := None, flushedSeen := 0, flushedAnnounced := 0)];
        counters := Pop(counters, h);
        assert Model() == SetEntry(c, id, c.heap[id].(base := None, flushedSeen := 0, flushedAnnounced := 0)).(counters := Pop(c.counters, h));
        if heap[id].meta.Some? {
          QueueDocumentLocked(id);
        } else if heap[id].inDatabase {
          FetchAgain(id);
        }
      }
    }

    method FetchAgain(id: Id)
      requires id < |heap|
      modifies this
      ensures var e := old(heap)[id];
              Model() == Replaced(s, old(Model()), id, e.(inDatabase := false, checked := true, known := false, state := if e.state == Done then Pending else e.state))
    {
      hide Reindexed, Bump;
      ghost var c := Model();
      ForgetBase(id);
      assert Model() == Moved(c, id, heap[id]);
      IndexEntry(id);
    }

    /** A torrent that is no longer in the database is to be fetched again. */
    method ForgetBase(id: Id)
      requires id < |heap|
      modifies this`heap, this`counts, this`knownDone
      ensures var e := old(heap)[id]; var e' := e.(inDatabase := false, checked := true, known := false, state := if e.state == Done then Pending else e.state);
              heap == old(heap)[id := e'] && counts == Bump(Bump(old(counts), e.state, -1), e'.state, 1) && knownDone == old(knownDone) - One(e.known)
    {
      hide Bump;
      heap := heap[id := heap[id].(inDatabase := false, checked := true)];
      ForgetKnown(id);
      BumpBack(counts, heap[id].state);
      if heap[id].state == Done {
        SetState(id, Pending);
      }
    }
  }

  lemma LookingOne(s: Settings, c: Catalog, h: Hash)
    ensures forall rest :: LookingEach(s, c, [h] + rest) == LookingEach(s, LookingEach(s, c, [h]), rest)
  {
    hide Replaced, At;
    assert [h][1..] == [];
    forall rest ensures LookingEach(s, c, [h] + rest) == LookingEach(s, LookingEach(s, c, [h]), rest) {
      assert ([h] + rest)[1..] == rest;
    }
  }

  function RankOrder(heap: seq<Entry>): (Id, Id) -> bool {
    (a: Id, b: Id) => a < |heap| && b < |heap| && RanksBelow(heap[b], heap[a])
  }

  lemma RanksOrdered(c: Catalog, pool: seq<Id>)
    requires forall id :: id in pool ==> id < |c.heap|
    ensures Preorder(pool, RankOrder(c.heap))
  {
  }

  lemma FetchablePlaced(s: Settings, c: Catalog)
    requires Indexed(s, c)
    ensures forall h :: h in c.fetchable ==> c.fetchable[h] < |c.heap| && c.heap[c.fetchable[h]].hash == h
  {
    hide Indexed, CatalogSpec.Fetchable;
    AllLive(s, c);
    forall h | h in c.fetchable ensures c.fetchable[h] < |c.heap| && c.heap[c.fetchable[h]].hash == h { FetchableIs(s, c, h); }
  }

  lemma FetchableIs(s: Settings, c: Catalog, h: Hash)
    requires Indexed(s, c) && h in c.fetchable
    ensures h in c.entries.m && c.fetchable[h] == c.entries.m[h]
  {
    hide AwaitsCheck, CatalogSpec.Fetchable, NeedsLookup, Counted, Queued, Placed;
    assert ExactAt(s, c, h);
  }

  lemma TopChosen(s: Settings, c: Catalog, pool: seq<Id>, best: seq<Id>, limit: nat)
    requires Indexed(s, c) && |pool| == |c.fetchable|
    requires forall id: Id :: id in pool <==> id < |c.heap| && c.heap[id].hash in c.fetchable && c.fetchable[c.heap[id].hash] == id
    requires Distinct(best) && |best| == Least(limit, |pool|) && forall x :: x in best ==> x in pool
    requires forall i, j :: 0 <= i < j < |best| ==> RankOrder(c.heap)(best[i], best[j])
    requires forall x, i :: x in pool && x !in best && 0 <= i < |best| ==> RankOrder(c.heap)(best[i], x)
    ensures TopCandidates(c, best, limit)
  {
    hide Indexed, RanksBelow, Distinct;
    FetchablePlaced(s, c);
    forall h, i | h in c.fetchable && c.fetchable[h] !in best && 0 <= i < |best| ensures RanksBelow(At(c, c.fetchable[h]), At(c, best[i])) {
      assert c.fetchable[h] in pool;
      assert RankOrder(c.heap)(best[i], c.fetchable[h]);
    }
    forall i, j | 0 <= i < j < |best| ensures RanksBelow(At(c, best[j]), At(c, best[i])) {
      assert RankOrder(c.heap)(best[i], best[j]);
    }
  }

  lemma CandidatesLive(s: Settings, c: Catalog, ids: seq<Id>, limit: nat)
    requires Indexed(s, c) && TopCandidates(c, ids, limit)
    ensures forall id :: id in ids ==> Live(c, id) && id < |c.heap|
  {
    hide Indexed, RanksBelow, Distinct;
    AllLive(s, c);
    forall id | id in ids ensures Live(c, id) { FetchableIs(s, c, At(c, id).hash); }
  }

  lemma CheapNext(c: Catalog, keys: seq<Hash>, i: nat, wanted: nat)
    requires i < |keys| && wanted > 0 && keys[i] in c.entries.m
    ensures var id, rest := c.entries.m[keys[i]], keys[i + 1..];
            FirstCheap(c, keys[i..], wanted) == if Cheap(At(c, id)) then [id] + FirstCheap(c, rest, wanted - 1) else FirstCheap(c, rest, wanted)
  {
    hide Cheap, At;
    assert keys[i..][0] == keys[i] && keys[i..][1..] == keys[i + 1..];
  }

  lemma CheapDone(c: Catalog, keys: seq<Hash>, wanted: nat)
    requires keys == [] || wanted == 0
    ensures FirstCheap(c, keys, wanted) == []
  {
  }

  lemma ReplacedHeap(s: Settings, c: Catalog, id: Id, e: Entry)
    requires id < |c.heap|
    ensures Replaced(s, c, id, e).heap == c.heap[id := e]
  {
    hide Pop, SetDefault, AwaitsCheck, CatalogSpec.Fetchable, NeedsLookup, Bump;
  }

  lemma AtHeap(c: Catalog, id: Id)
    ensures id < |c.heap| ==> At(c, id) == c.heap[id]
  {
  }

  lemma FromKeys(d: RawDict<Hash, Id>, k: nat)
    requires Ordered(d) && k < |d.keys|
    ensures From(d, k).keys != [] && From(d, k).keys[0] == d.keys[k] && d.keys[k] in From(d, k).m && From(d, k).m[d.keys[k]] == d.m[d.keys[k]] && d.keys[k] in d.m
  {
    assert d.keys[k] in d.keys && d.keys[k..][0] == d.keys[k];
  }

  lemma SnapshotsNext(c: Catalog, d: RawDict<Hash, Id>, k: nat)
    requires k < |d.keys| && d.keys[k] in d.m
    ensures SnapshotsOf(c, d, k + 1) == SnapshotsOf(c, d, k) + [SnapshotOf(d.m[d.keys[k]], At(c, d.m[d.keys[k]]))]
  {
    hide SnapshotOf, At;
  }

  lemma OrphanPlaces(s: Settings, c: Catalog)
    requires Indexed(s, c)
    ensures forall o :: o in c.orphans ==> o < |c.heap|
  {
    hide Indexed, DocumentOf, Ordered;
    QueuesOf(s, c);
  }

  lemma OrphansNext(c: Catalog, limit: nat, batch: seq<Snapshot>)
    requires c.orphans != [] && limit > 0
    ensures var x, c1 := SnapshotOf(c.orphans[0], At(c, c.orphans[0])), c.(orphans := c.orphans[1..]);
            if Empty?(x) then OrphansDrained(c, limit) == OrphansDrained(c1, limit)
            else OrphansDrained(c, limit) == (OrphansDrained(c1, limit - 1).0, [x] + OrphansDrained(c1, limit - 1).1) &&
                 batch + OrphansDrained(c, limit).1 == batch + [x] + OrphansDrained(c1, limit - 1).1
  {
    hide SnapshotOf, At, Empty?;
  }

  lemma OrphansDone(c: Catalog, limit: nat, batch: seq<Snapshot>)
    requires c.orphans == [] || limit == 0
    ensures OrphansDrained(c, limit) == (c, []) && batch + [] == batch
  {
  }

  lemma PoppedKeys(d: RawDict<Hash, Id>)
    requires d.keys != []
    ensures |PopFirst(d).keys| == |d.keys| - 1
  {
  }

  lemma QueueKeys(s: Settings, c: Catalog, id: Id)
    requires Ordered(c.counters)
    ensures |QueueDocument(s, c, id).counters.keys| <= |c.counters.keys|
  {
    hide At, OldestDropped, Put, Ordered;
    var c1 := WithDocument(c, At(c, id).hash, id);
    if c1.documents.keys != [] { OldestCounters(s, c1); }
  }

  lemma CountersNext(s: Settings, c: Catalog, limit: nat, turns: nat, batch: seq<Snapshot>)
    requires c.counters.keys != [] && c.counters.keys[0] in c.counters.m && limit > 0 && turns > 0
    ensures var id := c.counters.m[c.counters.keys[0]]; var e, c1 := At(c, id), c.(counters := PopFirst(c.counters));
            if e.base.None? then CountersDrained(s, c, limit, turns) == CountersDrained(s, if e.meta.Some? then QueueDocument(s, c1, id) else c1, limit, turns - 1)
            else if HasNews(e) then
              var next := CountersDrained(s, c1, limit - 1, turns - 1);
              CountersDrained(s, c, limit, turns) == (next.0, [SnapshotOf(id, e)] + next.1) && batch + ([SnapshotOf(id, e)] + next.1) == batch + [SnapshotOf(id, e)] + next.1
            else CountersDrained(s, c, limit, turns) == CountersDrained(s, c1, limit, turns - 1)
  {
    hide SnapshotOf, At, HasNews, QueueDocument, PopFirst;
  }

  lemma CountersDone(s: Settings, c: Catalog, limit: nat, turns: nat, batch: seq<Snapshot>)
    requires c.counters.keys == [] || limit == 0
    ensures CountersDrained(s, c, limit, turns) == (c, []) && batch + [] == batch
  {
  }

  lemma NewestIs(orphans: seq<Id>)
    requires |orphans| <= MAX_ORPHANS
    ensures NewestOrphans(orphans) == orphans
  {
  }

  lemma UnqueuedHeap(c: Catalog, h: Hash, id: Id)
    ensures Unqueued(c, h, id).heap == c.heap
  {
  }

  lemma PoolPlaces(s: Settings, c: Catalog)
    requires Indexed(s, c)
    ensures forall id :: id in EvictableSet(c) ==> id < |c.heap|
  {
  }

  lemma StoredFlags(e: Entry, meta: Metadata)
    ensures var e' := StoredEntry(e, meta); e'.state == Done && !e'.known && e'.looking == e.looking && e'.hash == e.hash
  {
  }

  lemma StoredUnfolds(s: Settings, c1: Catalog, id: Id, meta: Metadata)
    ensures forall c: Catalog, now: real :: GotOrCreated(c, meta.hash, now) == (c1, id) ==>
              var c2 := Replaced(s, c1.(fetched := c1.fetched[meta.hash := id]), id, StoredEntry(At(c1, id), meta));
              Stored(s, c, meta, now) == if c2.tracking then QueueDocument(s, c2, id) else c2
  {
    hide Replaced, QueueDocument;
  }

  /** heapq.nsmallest and heapq.nlargest: the best of a pool, the best first. */
  method Best(pool: seq<Id>, limit: nat, before: (Id, Id) -> bool) returns (best: seq<Id>)
    requires Distinct(pool) && Preorder(pool, before)
    ensures Distinct(best) && |best| == Least(limit, |pool|) && forall x :: x in best ==> x in pool
    ensures forall i, j :: 0 <= i < j < |best| ==> before(best[i], best[j])
    ensures forall x, i :: x in pool && x !in best && 0 <= i < |best| ==> before(best[i], x)
  {
    best := [];
    var rest := pool;
    while |best| < limit && rest != []
      invariant |best| <= limit && |best| + |rest| == |pool| && Distinct(best) && Distinct(rest)
      invariant forall x :: x in pool <==> x in best || x in rest
      invariant forall x :: x in best ==> x !in rest
      invariant forall i, j :: 0 <= i < j < |best| ==> before(best[i], best[j])
      invariant forall x, i :: x in rest && 0 <= i < |best| ==> before(best[i], x)
      decreases |rest|
    {
      var m := BestIndex(pool, rest, before);
      RemoveAt(rest, m);
      assert rest[m] in rest;
      best := best + [rest[m]];
      rest := rest[..m] + rest[m + 1..];
    }
  }

  ghost predicate Preorder(pool: seq<Id>, before: (Id, Id) -> bool) {
    (forall a, b :: a in pool && b in pool ==> before(a, b) || before(b, a)) &&
    forall a, b, c :: a in pool && b in pool && c in pool && before(a, b) && before(b, c) ==> before(a, c)
  }

  method BestIndex(pool: seq<Id>, rest: seq<Id>, before: (Id, Id) -> bool) returns (m: nat)
    requires rest != [] && Preorder(pool, before) && forall x :: x in rest ==> x in pool
    ensures m < |rest| && forall x :: x in rest ==> before(rest[m], x)
  {
    m := 0;
    assert rest[0] in rest;
    var i := 1;
    while i < |rest|
      invariant 1 <= i <= |rest| && m < i && forall j :: 0 <= j < i ==> before(rest[m], rest[j])
    {
      assert rest[i] in rest && rest[m] in rest;
      if !before(rest[m], rest[i]) {
        forall j | 0 <= j <= i ensures before(rest[i], rest[j]) { assert rest[j] in rest; }
        m := i;
      }
      i := i + 1;
    }
  }

  lemma RemoveAt(rest: seq<Id>, m: nat)
    requires m < |rest| && Distinct(rest)
    ensures var less := rest[..m] + rest[m + 1..];
            Distinct(less) && |less| == |rest| - 1 && rest[m] !in less && forall x :: x in rest <==> x == rest[m] || x in less
  {
    var less := rest[..m] + rest[m + 1..];
    forall x | x in rest ensures x == rest[m] || x in less {
      var i :| 0 <= i < |rest| && rest[i] == x;
      if i < m { assert less[i] == x; } else if i > m { assert less[i - 1] == x; }
    }
  }

  // ----- the two passes of an eviction choose what the specification asks for

  function Remaining(c: Catalog, keys: seq<Hash>, taken: seq<Id>): seq<Id>
    decreases |keys|
  {
    if keys == [] then []
    else
      (if keys[0] in c.entries.m && c.entries.m[keys[0]] !in taken && Evictable(At(c, c.entries.m[keys[0]])) then [c.entries.m[keys[0]]] else []) +
      Remaining(c, keys[1..], taken)
  }

  lemma DocumentPlaces(s: Settings, c: Catalog)
    requires Indexed(s, c)
    ensures Ordered(c.documents) && forall h :: h in c.documents.m ==> c.documents.m[h] < |c.heap|
  {
    hide Indexed, OrphanAt, Ordered;
    QueuesOf(s, c);
  }

  lemma AllLive(s: Settings, c: Catalog)
    requires Indexed(s, c)
    ensures Distinct(c.entries.keys) && (forall h :: h in c.entries.keys <==> h in c.entries.m)
    ensures forall h :: h in c.entries.m ==> c.entries.m[h] < |c.heap| && At(c, c.entries.m[h]).hash == h && Live(c, c.entries.m[h])
    ensures forall id: Id :: Live(c, id) ==> id < |c.heap| && At(c, id).hash in c.entries.keys
  {
    hide Exact, Counted, Queued, InOrder;
  }

  lemma {:induction false} FirstCheapOf(s: Settings, c: Catalog, keys: seq<Hash>, limit: nat)
    requires Indexed(s, c) && Distinct(keys) && forall h :: h in keys ==> h in c.entries.m
    ensures var r := FirstCheap(c, keys, limit);
            Distinct(r) && forall id :: id in r ==> Live(c, id) && Cheap(At(c, id)) && At(c, id).hash in keys
    decreases |keys|
  {
    hide Indexed, Cheap;
    if keys != [] && limit > 0 {
      AllLive(s, c);
      FirstCheapOf(s, c, keys[1..], limit - 1);
      FirstCheapOf(s, c, keys[1..], limit);
      assert keys[0] !in keys[1..];
    }
  }

  lemma {:induction false} RemainingOf(s: Settings, c: Catalog, keys: seq<Hash>, taken: seq<Id>)
    requires Indexed(s, c) && Distinct(keys) && forall h :: h in keys ==> h in c.entries.m
    ensures var r := Remaining(c, keys, taken);
            Distinct(r) && forall id :: id in r <==> Live(c, id) && Evictable(At(c, id)) && At(c, id).hash in keys && id !in taken
    decreases |keys|
  {
    hide Indexed, Evictable;
    if keys != [] {
      AllLive(s, c);
      RemainingOf(s, c, keys[1..], taken);
      assert keys[0] !in keys[1..];
      assert forall h :: h in keys <==> h == keys[0] || h in keys[1..];
    }
  }

  /** The two pools hold the evictable entries, each once. */
  lemma PoolsComplete(s: Settings, c: Catalog)
    requires Indexed(s, c)
    ensures var first := FirstCheap(c, c.entries.keys, Wanted(s)); var pool := Remaining(c, c.entries.keys, first);
            Distinct(first) && Distinct(pool) && |first| + |pool| == |EvictableSet(c)| &&
            (forall id :: id in first ==> Live(c, id) && Evictable(At(c, id))) &&
            forall id :: id in pool <==> id in EvictableSet(c) && id !in first
  {
    hide Indexed, Cheap, Evictable, Live;
    var first := FirstCheap(c, c.entries.keys, Wanted(s));
    AllLive(s, c);
    FirstCheapOf(s, c, c.entries.keys, Wanted(s));
    RemainingOf(s, c, c.entries.keys, first);
    var pool := Remaining(c, c.entries.keys, first);
    forall id | id in first ensures Evictable(At(c, id)) { CheapCanGo(At(c, id)); }
    BothDistinct(first, pool);
    DistinctSize(first + pool, EvictableSet(c));
  }

  lemma CheapCanGo(e: Entry)
    ensures Cheap(e) ==> Evictable(e)
  {
  }

  lemma BothDistinct(a: seq<Id>, b: seq<Id>)
    requires Distinct(a) && Distinct(b) && forall x :: x in b ==> x !in a
    ensures Distinct(a + b)
  {
    forall i, j | 0 <= i < j < |a + b| ensures (a + b)[i] != (a + b)[j] {
      if i < |a| <= j { assert b[j - |a|] in b; }
    }
  }

  function KeyOrder(heap: seq<Entry>): (Id, Id) -> bool {
    (a: Id, b: Id) => a < |heap| && b < |heap| && KeyAtMost(heap[a], heap[b])
  }

  lemma KeysOrdered(c: Catalog, pool: seq<Id>)
    requires forall id :: id in pool ==> id < |c.heap|
    ensures Preorder(pool, KeyOrder(c.heap))
  {
  }

  lemma FirstPass(s: Settings, c: Catalog, first: seq<Id>)
    requires Indexed(s, c) && first == FirstCheap(c, c.entries.keys, Wanted(s)) && |first| >= Wanted(s)
    ensures ChosenVictims(s, c, first)
  {
    hide Indexed, Evictable, Live, FirstCheap, EvictableSet;
    PoolsComplete(s, c);
  }

  lemma SecondPass(s: Settings, c: Catalog, first: seq<Id>, pool: seq<Id>, rest: seq<Id>)
    requires Indexed(s, c) && first == FirstCheap(c, c.entries.keys, Wanted(s)) && |first| < Wanted(s) && pool == Remaining(c, c.entries.keys, first)
    requires Distinct(rest) && |rest| == Least(Wanted(s) - |first|, |pool|) && forall x :: x in rest ==> x in pool
    requires forall x, i :: x in pool && x !in rest && 0 <= i < |rest| ==> KeyOrder(c.heap)(rest[i], x)
    ensures ChosenVictims(s, c, first + rest)
  {
    hide Indexed, Evictable, Live, FirstCheap, Remaining, KeyAtMost;
    PoolsComplete(s, c);
    BothDistinct(first, rest);
    var victims := first + rest;
    forall i, id | |first| <= i < |victims| && id in EvictableSet(c) && id !in victims ensures KeyAtMost(At(c, victims[i]), At(c, id)) {
      assert victims[i] == rest[i - |first|];
    }
  }

  lemma VictimsEvictable(s: Settings, c: Catalog, victims: seq<Id>)
    requires Indexed(s, c) && ChosenVictims(s, c, victims)
    ensures Evictees(c, victims) && (forall v :: v in victims ==> v < |c.heap|)
  {
    hide Indexed, Evictable, Live;
    AllLive(s, c);
  }

  lemma BumpBack(counts: StateCounts, state: FetchState)
    ensures Bump(Bump(counts, state, -1), state, 1) == counts
  {
  }
}
