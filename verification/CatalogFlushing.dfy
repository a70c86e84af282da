/** The catalog's side of the index thread: drains, marks, requeues, database checks and resets keep the tables exact. */
module CatalogFlushing {
  import opened ByteStrings
  import opened BoundedRecentMap
  import opened NodeIdentity
  import opened CatalogSpec
  import opened CatalogIndexes
  import opened CatalogMethods

  /** Nothing but the queues differs. */
  predicate QueuesOnly(c: Catalog, c': Catalog) {
    c'.heap == c.heap && c'.entries == c.entries && c'.tracking == c.tracking
  }

  /** A snapshot holds the entry's hash, its base and all it has not flushed. */
  predicate CountsFit(c: Catalog, x: Snapshot) {
    var e := At(c, x.id);
    x.id < |c.heap| && x.hash == e.hash && x.base == e.base && x.seen == Unflushed(e, Sightings) && x.announced == Unflushed(e, Announces)
  }

  ghost predicate DistinctIds(batch: seq<Snapshot>) {
    forall i, j :: 0 <= i < j < |batch| ==> batch[i].id != batch[j].id
  }

  predicate HasId(batch: seq<Snapshot>, id: Id) {
    exists x :: x in batch && x.id == id
  }

  // ----- drain_index_documents

  lemma DocumentsDrainedIndexed(s: Settings, c: Catalog, limit: nat)
    requires Indexed(s, c)
    ensures Indexed(s, DocumentsDrained(c, limit).0) && QueuesOnly(c, DocumentsDrained(c, limit).0)
  {
    hide Indexed, Ordered, OrphanAt, DocumentOf;
    var n := Least(limit, |c.documents.keys|);
    QueuesOf(s, c);
    FromOrdered(c.documents, n);
    OtherQueues(s, c, From(c.documents, n), c.orphans);
  }

  /** The batch holds the first documents, each of another torrent; the rest stay queued. */
  lemma DocumentsDrainedBatch(s: Settings, c: Catalog, limit: nat)
    requires Indexed(s, c)
    ensures var (c', batch) := DocumentsDrained(c, limit);
            (forall x :: x in batch ==> CountsFit(c', x) && DocumentOf(c', x.hash, x.id) && x.meta == At(c', x.id).meta) &&
            (forall i, j :: 0 <= i < j < |batch| ==> batch[i].hash != batch[j].hash) && DistinctIds(batch) &&
            (forall x :: x in batch ==> x.hash !in c'.documents.m && QueuedAs(c, x.hash, x.id)) &&
            (forall h :: h in c.documents.m ==> (h in c'.documents.m && c'.documents.m[h] == c.documents.m[h]) || HasId(batch, c.documents.m[h])) &&
            (forall h :: h in c'.documents.m ==> h in c.documents.m && c'.documents.m[h] == c.documents.m[h])
  {
    hide Indexed, DocumentOf, OrphanAt, HasId, CountsFit, Ordered;
    QueuesOf(s, c);
    var n := Least(limit, |c.documents.keys|);
    var (c', batch) := DocumentsDrained(c, limit);
    SameHeap(c, c');
    forall i | 0 <= i < n
      ensures c.documents.keys[i] in c.documents.m && batch[i].hash == c.documents.keys[i] && batch[i].id == c.documents.m[c.documents.keys[i]] && CountsFit(c', batch[i]) &&
              DocumentOf(c', batch[i].hash, batch[i].id) && batch[i].meta == At(c', batch[i].id).meta {
      DrainedOne(c, c', i);
    }
    forall i, j | 0 <= i < j < n ensures c.documents.keys[i] != c.documents.keys[j] { KeysDiffer(c.documents, i, j); }
    forall i, j | 0 <= i < j < |batch| ensures batch[i].id != batch[j].id {
      SameHashIfSame(c', batch[i], batch[j]);
    }
    forall h | h in c.documents.m ensures (h in c'.documents.m && c'.documents.m[h] == c.documents.m[h]) || HasId(batch, c.documents.m[h]) {
      KeyAt(c.documents, n, h);
      if h !in c'.documents.m {
        var i :| 0 <= i < n && c.documents.keys[i] == h;
        HasOne(batch, i);
      }
    }
    forall x | x in batch ensures x.hash !in c'.documents.m && QueuedAs(c, x.hash, x.id) {
      var i :| 0 <= i < n && x == batch[i];
      NotAfter(c.documents, n, i);
    }
  }

  lemma DrainedOne(c: Catalog, c': Catalog, i: nat)
    requires Ordered(c.documents) && i < |c.documents.keys| && c'.heap == c.heap
    requires forall h :: h in c.documents.m ==> DocumentOf(c, h, c.documents.m[h])
    ensures var h := c.documents.keys[i]; h in c.documents.m && var id := c.documents.m[h]; var x := SnapshotOf(id, At(c, id));
            x.hash == h && x.id == id && CountsFit(c', x) && DocumentOf(c', x.hash, x.id) && x.meta == At(c', x.id).meta
  {
    assert c.documents.keys[i] in c.documents.keys;
    assert DocumentOf(c, c.documents.keys[i], c.documents.m[c.documents.keys[i]]);
  }

  lemma KeysDiffer(d: RawDict<Hash, Id>, i: nat, j: nat)
    requires Ordered(d) && i < j < |d.keys|
    ensures d.keys[i] != d.keys[j]
  {
  }

  lemma SameHashIfSame(c: Catalog, x: Snapshot, y: Snapshot)
    requires CountsFit(c, x) && CountsFit(c, y) && x.hash != y.hash
    ensures x.id != y.id
  {
  }

  lemma KeyAt(d: RawDict<Hash, Id>, n: nat, h: Hash)
    requires Ordered(d) && n <= |d.keys| && h in d.m
    ensures (h in From(d, n).m && From(d, n).m[h] == d.m[h]) || exists i :: 0 <= i < n && d.keys[i] == h
  {
    var i :| 0 <= i < |d.keys| && d.keys[i] == h;
    if i >= n { assert d.keys[n..][i - n] == h; }
  }

  lemma NotAfter(d: RawDict<Hash, Id>, n: nat, i: nat)
    requires Ordered(d) && i < n <= |d.keys|
    ensures d.keys[i] !in From(d, n).m
  {
  }

  lemma HasOne(batch: seq<Snapshot>, i: nat)
    requires i < |batch|
    ensures HasId(batch, batch[i].id)
  {
    assert batch[i] in batch;
  }

  // ----- drain_index_counters

  lemma {:induction false} OrphansDrainedIndexed(s: Settings, c: Catalog, limit: nat)
    requires Indexed(s, c)
    ensures var c' := OrphansDrained(c, limit).0;
            Indexed(s, c') && QueuesOnly(c, c') && c'.counters == c.counters && c'.documents == c.documents && c'.dropped == c.dropped
    decreases |c.orphans|
  {
    hide Indexed, OrphanAt, Ordered, At;
    if c.orphans != [] && limit > 0 {
      QueuesOf(s, c);
      OtherQueues(s, c, c.documents, c.orphans[1..]);
      var c1 := c.(documents := c.documents, orphans := c.orphans[1..]);
      OrphansDrainedIndexed(s, c1, limit);
      OrphansDrainedIndexed(s, c1, limit - 1);
    }
  }

  /** Every orphan is still queued, in the batch, or had nothing left to flush. */
  lemma {:induction false} OrphansDrainedBatch(s: Settings, c: Catalog, limit: nat)
    requires Indexed(s, c)
    ensures var (c', batch) := OrphansDrained(c, limit);
            (forall x :: x in batch ==> CountsFit(c, x) && x.base.Some? && !Live(c, x.id) && x.id in c.orphans) &&
            (forall o :: o in c.orphans ==> o in c'.orphans || HasId(batch, o) || !HasUnflushed(At(c, o))) &&
            forall o :: o in c'.orphans ==> o in c.orphans
    decreases |c.orphans|
  {
    hide Indexed, OrphanAt, Ordered, At, CountsFit, HasId, HasUnflushed, Live;
    if c.orphans != [] && limit > 0 {
      QueuesOf(s, c);
      OtherQueues(s, c, c.documents, c.orphans[1..]);
      var o := c.orphans[0];
      var c1 := c.(documents := c.documents, orphans := c.orphans[1..]);
      SameHeap(c, c1);
      forall x: Snapshot ensures CountsFit(c1, x) <==> CountsFit(c, x) { SameFits(c, c1, x); }
      forall j: Id ensures Live(c1, j) <==> Live(c, j) { SteadyLive(c, c1, j); }
      var x := SnapshotOf(o, At(c, o));
      assert o in c.orphans;
      OrphanSnapshot(c, o);
      if Empty?(x) {
        OrphansDrainedBatch(s, c1, limit);
      } else {
        OrphansDrainedBatch(s, c1, limit - 1);
        var (c2, rest) := OrphansDrained(c1, limit - 1);
        HasMore(x, rest);
      }
    }
  }

  /** No entry is drained twice, if none was queued twice. */
  lemma {:induction false} OrphansDrainedDistinct(c: Catalog, limit: nat)
    requires Distinct(c.orphans)
    ensures var (c', batch) := OrphansDrained(c, limit);
            DistinctIds(batch) && Distinct(c'.orphans) && (forall x :: x in batch ==> x.id in c.orphans && x.id !in c'.orphans) &&
            forall o :: o in c'.orphans ==> o in c.orphans
    decreases |c.orphans|
  {
    hide At, SnapshotOf;
    if c.orphans != [] && limit > 0 {
      var c1 := c.(orphans := c.orphans[1..]);
      var x := SnapshotOf(c.orphans[0], At(c, c.orphans[0]));
      assert x.id == c.orphans[0] by { SnapshotId(c.orphans[0], At(c, c.orphans[0])); }
      assert x.id !in c1.orphans;
      if Empty?(x) {
        OrphansDrainedDistinct(c1, limit);
      } else {
        OrphansDrainedDistinct(c1, limit - 1);
        OneMoreId(x, OrphansDrained(c1, limit - 1).1);
      }
    }
  }

  lemma SnapshotId(id: Id, e: Entry)
    ensures SnapshotOf(id, e).id == id && SnapshotOf(id, e).hash == e.hash && SnapshotOf(id, e).base == e.base
  {
  }

  predicate HasUnflushed(e: Entry) {
    Unflushed(e, Sightings) != 0 || Unflushed(e, Announces) != 0
  }

  lemma SameFits(c: Catalog, c1: Catalog, x: Snapshot)
    requires c1.heap == c.heap
    ensures CountsFit(c1, x) <==> CountsFit(c, x)
  {
  }

  lemma OrphanSnapshot(c: Catalog, o: Id)
    requires OrphanAt(c, o)
    ensures var x := SnapshotOf(o, At(c, o));
            CountsFit(c, x) && x.base.Some? && !Live(c, o) && x.id == o && (Empty?(x) <==> !HasUnflushed(At(c, o)))
  {
  }

  lemma HasMore(x: Snapshot, rest: seq<Snapshot>)
    ensures forall id :: HasId([x] + rest, id) <==> id == x.id || HasId(rest, id)
  {
    forall id ensures HasId([x] + rest, id) <==> id == x.id || HasId(rest, id) {
      if HasId(rest, id) {
        var y :| y in rest && y.id == id;
        assert y in [x] + rest;
      }
      assert x in [x] + rest;
    }
  }

  lemma OneMoreId(x: Snapshot, rest: seq<Snapshot>)
    requires DistinctIds(rest) && forall y :: y in rest ==> y.id != x.id
    ensures DistinctIds([x] + rest)
  {
  }

  /** What the counters queue holds is a live entry. */
  lemma CounterPlace(s: Settings, c: Catalog, h: Hash)
    requires Indexed(s, c) && h in c.counters.m
    ensures var id := c.counters.m[h]; Live(c, id) && id < |c.heap| && At(c, id).hash == h
  {
    hide Indexed, AwaitsCheck, Fetchable, NeedsLookup, Prepared;
    IndexedAt(s, c, h);
    LiveHere(s, c, h);
  }

  lemma IndexedAt(s: Settings, c: Catalog, h: Hash)
    requires Indexed(s, c)
    ensures ExactAt(s, c, h)
  {
  }

  lemma OverflowTwice(c: Catalog, c1: Catalog, c2: Catalog)
    requires Overflowed(c, c1) && Overflowed(c1, c2)
    ensures Overflowed(c, c2) && (OnlyOverflow(c, c1) && OnlyOverflow(c1, c2) ==> OnlyOverflow(c, c2))
  {
    hide At, Live;
    forall j: Id ensures Live(c1, j) == Live(c, j) { SteadyLive(c, c1, j); }
  }

  /** An overflow changes no counter. */
  lemma OverflowFits(c: Catalog, c': Catalog, x: Snapshot)
    requires Overflowed(c, c')
    ensures CountsFit(c', x) <==> CountsFit(c, x)
    ensures Live(c', x.id) <==> Live(c, x.id)
  {
  }

  lemma QueueCounters(s: Settings, c: Catalog, id: Id)
    ensures forall h :: h in QueueDocument(s, c, id).counters.m ==> h in c.counters.m
  {
    hide At, OldestDropped, Put, Ordered;
    var c1 := WithDocument(c, At(c, id).hash, id);
    if c1.documents.keys != [] { OldestCounters(s, c1); }
  }

  lemma OldestCounters(s: Settings, c: Catalog)
    requires c.documents.keys != []
    ensures OldestDropped(s, c).counters == c.counters
  {
    hide At, DropUnwritten, Ordered, PopFirst;
    var c1 := c.(documents := PopFirst(c.documents), dropped := c.dropped + 1);
    var oldest := c.documents.keys[0];
    if oldest in c.documents.m { DropCounters(s, c1, c.documents.m[oldest]); }
  }

  lemma DropCounters(s: Settings, c: Catalog, id: Id)
    ensures DropUnwritten(s, c, id).counters == c.counters
  {
    hide Replaced;
    ReplacedCounters(s, c.(fetched := c.fetched - {At(c, id).hash}), id, Undocumented(At(c, id)));
  }

  lemma ReplacedCounters(s: Settings, c: Catalog, id: Id, e: Entry)
    ensures Replaced(s, c, id, e).counters == c.counters
  {
    hide At, Pop, SetDefault, AwaitsCheck, Fetchable, NeedsLookup, Ordered, Bump;
  }

  /** Whatever is queued anew is in memory. */
  ghost predicate QueuesLive(c: Catalog, c': Catalog) {
    forall h :: h in c'.documents.m ==> QueuedAs(c, h, c'.documents.m[h]) || Live(c', c'.documents.m[h])
  }

  lemma QueuesLiveTwice(c: Catalog, c1: Catalog, c2: Catalog)
    requires QueuesLive(c, c1) && QueuesLive(c1, c2) && forall j: Id :: Live(c1, j) ==> Live(c2, j)
    ensures QueuesLive(c, c2)
  {
    hide Live;
    forall h | h in c2.documents.m ensures QueuedAs(c, h, c2.documents.m[h]) || Live(c2, c2.documents.m[h]) { assert QueuedAs(c1, h, c2.documents.m[h]) || Live(c2, c2.documents.m[h]); }
  }

  lemma QueuesOneLive(c: Catalog, c': Catalog, id: Id)
    requires QueuesOne(c, c', id) && Live(c', id)
    ensures QueuesLive(c, c')
  {
    hide Live, At;
  }

  /** Each entry drained is live, was written before, has something to flush, and is drained once. */
  lemma {:induction false} CountersDrainedIndexed(s: Settings, c: Catalog, limit: nat, turns: nat)
    requires Indexed(s, c)
    ensures var (c', batch) := CountersDrained(s, c, limit, turns);
            Indexed(s, c') && Overflowed(c, c') && OnlyOverflow(c, c') && QueuesLive(c, c') && DistinctIds(batch) &&
            forall x :: x in batch ==> CountsFit(c', x) && Live(c', x.id) && x.base.Some? && x.hash in c.counters.m
    decreases turns
  {
    hide Indexed, At, QueueDocument, HasNews, Ordered, Distinct, Live, Overflowed, OnlyOverflow, CountsFit, SnapshotOf, DistinctIds, QueuesLive, QueuesOne;
    if turns > 0 && c.counters.keys != [] && limit > 0 {
      QueuesOf(s, c);
      var h := c.counters.keys[0];
      FirstIn(c.counters);
      FirstGone(c.counters);
      CounterPlace(s, c, h);
      var id := c.counters.m[h];
      FewerCounters(s, c, PopFirst(c.counters));
      var c1 := c.(counters := PopFirst(c.counters));
      SameHeap(c, c1);
      QuietOverflow(c, c1);
      SameDocuments(c, c1);
      if At(c, id).base.None? {
        var c2 := if At(c, id).meta.Some? then QueueDocument(s, c1, id) else c1;
        if At(c, id).meta.Some? {
          QueueDocumentIndexed(s, c1, id);
          QueueCounters(s, c1, id);
          OverflowTwice(c, c1, c2);
          SteadyLive(c, c1, id);
          OverflowLive(c1, c2, id);
          QueuesOneLive(c1, c2, id);
        }
        CountersDrainedIndexed(s, c2, limit, turns - 1);
        OverflowTwice(c, c2, CountersDrained(s, c2, limit, turns - 1).0);
        SameQueues(c, c1);
        if At(c, id).meta.Some? { QueuesStay(c, c1, c2); }
        QueuesStay(c, c2, CountersDrained(s, c2, limit, turns - 1).0);
      } else if HasNews(At(c, id)) {
        CountersDrainedIndexed(s, c1, limit - 1, turns - 1);
        var (c2, rest) := CountersDrained(s, c1, limit - 1, turns - 1);
        OverflowTwice(c, c1, c2);
        SameQueues(c, c1);
        QueuesStay(c, c1, c2);
        DrainedFits(c, c2, id);
        SnapshotId(id, At(c, id));
        forall y | y in rest ensures y.id != id { FitsHash(c2, y, id); OverflowHash(c, c2, id); }
        OneMoreId(SnapshotOf(id, At(c, id)), rest);
      } else {
        CountersDrainedIndexed(s, c1, limit, turns - 1);
        OverflowTwice(c, c1, CountersDrained(s, c1, limit, turns - 1).0);
        SameQueues(c, c1);
        QueuesStay(c, c1, CountersDrained(s, c1, limit, turns - 1).0);
      }
    } else {
      QuietOverflow(c, c);
      SameDocuments(c, c);
      SameQueues(c, c);
      NoIds();
    }
  }

  lemma SameQueues(c: Catalog, c': Catalog)
    requires c'.documents == c.documents
    ensures QueuesLive(c, c')
  {
    hide Live;
  }

  lemma QueuesStay(c: Catalog, c1: Catalog, c2: Catalog)
    requires QueuesLive(c, c1) && QueuesLive(c1, c2) && Overflowed(c1, c2)
    ensures QueuesLive(c, c2)
  {
    forall j: Id ensures Live(c1, j) ==> Live(c2, j) { OverflowLive(c1, c2, j); }
    QueuesLiveTwice(c, c1, c2);
  }

  lemma NoIds()
    ensures DistinctIds([])
  {
  }

  lemma SameDocuments(c: Catalog, c': Catalog)
    requires c'.documents == c.documents
    ensures OnlyOverflow(c, c')
  {
  }

  lemma FitsHash(c: Catalog, y: Snapshot, id: Id)
    requires CountsFit(c, y) && y.hash != At(c, id).hash
    ensures y.id != id
  {
  }

  lemma OverflowHash(c: Catalog, c': Catalog, id: Id)
    requires Overflowed(c, c')
    ensures At(c', id).hash == At(c, id).hash
  {
  }

  lemma DrainedFits(c: Catalog, c': Catalog, id: Id)
    requires Overflowed(c, c') && id < |c.heap| && Live(c, id)
    ensures var x := SnapshotOf(id, At(c, id)); CountsFit(c', x) && Live(c', x.id)
  {
    OverflowFits(c, c', SnapshotOf(id, At(c, id)));
  }

  lemma AllCountersDrainedIndexed(s: Settings, c: Catalog, limit: nat)
    requires Indexed(s, c)
    ensures var (c', batch) := AllCountersDrained(s, c, limit);
            Indexed(s, c') && c'.entries == c.entries && |c'.heap| == |c.heap| && c'.tracking == c.tracking && c'.dropped >= c.dropped &&
            (forall j: Id :: At(c', j) == At(c, j) || (Live(c, j) && DropsMetadata(At(c, j)) && At(c', j) == Undocumented(At(c, j)))) &&
            OnlyOverflow(c, c') && QueuesLive(c, c') &&
            (forall x :: x in batch ==> CountsFit(c', x) && x.base.Some? && (x.id in c.orphans || Live(c, x.id))) &&
            (forall o :: o in c.orphans ==> o in c'.orphans || HasId(batch, o) || !HasUnflushed(At(c, o))) &&
            (forall o :: o in c'.orphans ==> o in c.orphans) &&
            (Distinct(c.orphans) ==> DistinctIds(batch) && Distinct(c'.orphans) && forall x :: x in batch ==> x.id !in c'.orphans)
  {
    hide Indexed, OrphansDrained, CountersDrained, CountsFit, HasId, At, Live, HasUnflushed, OnlyOverflow, OrphanAt, QueuesLive;
    var (c1, first) := OrphansDrained(c, limit);
    OrphansDrainedIndexed(s, c, limit);
    OrphansDrainedBatch(s, c, limit);
    var turns := |c1.counters.keys|;
    var (c2, rest) := CountersDrained(s, c1, limit - |first|, turns);
    CountersDrainedIndexed(s, c1, limit - |first|, turns);
    SameHeap(c, c1);
    forall j: Id ensures Live(c1, j) == Live(c, j) && Live(c2, j) == Live(c, j) { SteadyLive(c, c1, j); OverflowLive(c1, c2, j); }
    SameDocuments(c, c1);
    DocumentsTwice(c, c1, c2);
    SameQueues(c, c1);
    QueuesStay(c, c1, c2);
    forall x | x in first ensures CountsFit(c2, x) { SameFits(c, c1, x); OverflowFits(c1, c2, x); }
    HasBoth(first, rest);
    if Distinct(c.orphans) {
      OrphansDrainedDistinct(c, limit);
      forall x | x in rest ensures x.id !in c.orphans { QueuesOf(s, c); if x.id in c.orphans { OrphanSnapshot(c, x.id); } }
      BothDistinct(first, rest);
    }
  }

  lemma OverflowLive(c: Catalog, c': Catalog, j: Id)
    requires Overflowed(c, c')
    ensures Live(c', j) <==> Live(c, j)
  {
  }

  lemma DocumentsTwice(c: Catalog, c1: Catalog, c2: Catalog)
    requires c1.documents == c.documents && c1.dropped == c.dropped && OnlyOverflow(c1, c2)
    ensures OnlyOverflow(c, c2)
  {
  }

  lemma HasBoth(first: seq<Snapshot>, rest: seq<Snapshot>)
    ensures forall id :: HasId(first, id) || HasId(rest, id) ==> HasId(first + rest, id)
  {
    forall id | HasId(first, id) || HasId(rest, id) ensures HasId(first + rest, id) {
      var y :| (y in first || y in rest) && y.id == id;
      assert y in first + rest;
    }
  }

  lemma BothDistinct(first: seq<Snapshot>, rest: seq<Snapshot>)
    requires DistinctIds(first) && DistinctIds(rest) && forall x, y :: x in first && y in rest ==> x.id != y.id
    ensures DistinctIds(first + rest)
  {
  }

  // ----- requeue_index_documents

  lemma {:induction false} DocumentsRequeuedIndexed(s: Settings, c: Catalog, batch: seq<Snapshot>)
    requires Indexed(s, c) && forall x :: x in batch ==> DocumentOf(c, x.hash, x.id)
    ensures var c' := DocumentsRequeued(c, batch);
            Indexed(s, c') && QueuesOnly(c, c') && c'.orphans == c.orphans && c'.dropped == c.dropped &&
            (forall h :: h in c.documents.m ==> h in c'.documents.m && c'.documents.m[h] == c.documents.m[h]) &&
            (forall x :: x in batch ==> x.hash in c'.documents.m) &&
            forall h :: h in c'.documents.m ==> QueuedAs(c, h, c'.documents.m[h]) || HasId(batch, c'.documents.m[h])
    decreases |batch|
  {
    hide Indexed, Ordered, OrphanAt, DocumentOf, HasId;
    if batch != [] {
      var last, rest := batch[|batch| - 1], batch[..|batch| - 1];
      assert last in batch && forall x :: x in batch ==> x == last || x in rest;
      if last.hash in c.documents.m {
        DocumentsRequeuedIndexed(s, c, rest);
      } else {
        QueuesOf(s, c);
        var documents := PutFirst(c.documents, last.hash, last.id);
        OtherQueues(s, c, documents, c.orphans);
        var c1 := c.(documents := documents, orphans := c.orphans);
        forall x | x in rest ensures DocumentOf(c1, x.hash, x.id) { assert x in batch; SameDocumentOf(c, c1, x.hash, x.id); }
        DocumentsRequeuedIndexed(s, c1, rest);
        HasId1(last, batch);
      }
      HasRest(batch);
    }
  }

  lemma HasId1(x: Snapshot, batch: seq<Snapshot>)
    requires x in batch
    ensures HasId(batch, x.id)
  {
  }

  lemma HasRest(batch: seq<Snapshot>)
    requires batch != []
    ensures forall id :: HasId(batch[..|batch| - 1], id) ==> HasId(batch, id)
  {
    forall id | HasId(batch[..|batch| - 1], id) ensures HasId(batch, id) {
      var x :| x in batch[..|batch| - 1] && x.id == id;
      assert x in batch;
    }
  }

  lemma SameDocumentOf(c: Catalog, c1: Catalog, h: Hash, id: Id)
    requires c1.heap == c.heap
    ensures DocumentOf(c1, h, id) <==> DocumentOf(c, h, id)
  {
  }

  /** A document is queued again, unless its torrent was queued in the meantime. */
  lemma {:induction false} DocumentsRequeuedAll(c: Catalog, batch: seq<Snapshot>, x: Snapshot)
    requires x in batch && x.hash !in c.documents.m && forall i, j :: 0 <= i < j < |batch| ==> batch[i].hash != batch[j].hash
    ensures var c' := DocumentsRequeued(c, batch); x.hash in c'.documents.m && c'.documents.m[x.hash] == x.id
    decreases |batch|
  {
    hide Ordered;
    var last, rest := batch[|batch| - 1], batch[..|batch| - 1];
    var c1 := if last.hash in c.documents.m then c else c.(documents := PutFirst(c.documents, last.hash, last.id));
    if x == last {
      DocumentsStay(c1, rest, x.hash);
    } else {
      assert x in rest;
      DocumentsRequeuedAll(c1, rest, x);
    }
  }

  lemma {:induction false} DocumentsStay(c: Catalog, batch: seq<Snapshot>, h: Hash)
    requires h in c.documents.m
    ensures h in DocumentsRequeued(c, batch).documents.m && DocumentsRequeued(c, batch).documents.m[h] == c.documents.m[h]
    decreases |batch|
  {
    hide Ordered;
    if batch != [] {
      var last, rest := batch[|batch| - 1], batch[..|batch| - 1];
      DocumentsStay(if last.hash in c.documents.m then c else c.(documents := PutFirst(c.documents, last.hash, last.id)), rest, h);
    }
  }

  // ----- requeue_index_counters

  /** A snapshot whose counters can be queued again: its entry was written before. */
  predicate Countable(c: Catalog, x: Snapshot) {
    x.id < |c.heap| && At(c, x.id).hash == x.hash && At(c, x.id).base.Some?
  }

  /** The entries of a batch that were evicted. */
  function DeadIds(c: Catalog, batch: seq<Snapshot>): seq<Id> {
    if batch == [] then []
    else (if batch[0].hash in c.entries.m && c.entries.m[batch[0].hash] == batch[0].id then [] else [batch[0].id]) + DeadIds(c, batch[1..])
  }

  function NewestOrphans(orphans: seq<Id>): seq<Id> {
    if |orphans| <= MAX_ORPHANS then orphans else orphans[|orphans| - MAX_ORPHANS..]
  }

  lemma NewestWith(all: seq<Id>, orphans: seq<Id>, id: Id)
    requires orphans == NewestOrphans(all)
    ensures OrphansWith(orphans, id) == NewestOrphans(all + [id])
  {
    if |all| >= MAX_ORPHANS {
      assert (all + [id])[|all| + 1 - MAX_ORPHANS..] == (all[|all| - MAX_ORPHANS..] + [id])[1..];
    }
  }

  /** Live entries go back to the counters, evicted ones to the orphans, the oldest of which make room. */
  lemma {:induction false} CountersRequeuedIndexed(s: Settings, c: Catalog, batch: seq<Snapshot>, all: seq<Id>)
    requires Indexed(s, c) && (forall x :: x in batch ==> Countable(c, x)) && c.orphans == NewestOrphans(all)
    ensures var c' := CountersRequeued(c, batch);
            Indexed(s, c') && QueuesOnly(c, c') && c'.documents == c.documents && c'.orphans == NewestOrphans(all + DeadIds(c, batch)) &&
            c'.dropped == c.dropped + |c.orphans| + |DeadIds(c, batch)| - |c'.orphans|
    decreases |batch|
  {
    hide Indexed, NoteCounters, AddOrphan, Countable, NewestOrphans;
    if batch != [] {
      var x := batch[0];
      assert x in batch;
      var dead := !(x.hash in c.entries.m && c.entries.m[x.hash] == x.id);
      CounterRequeued(s, c, x, all);
      var c1 := if dead then AddOrphan(c, x.id) else NoteCounters(c, x.hash, x.id);
      var all1 := if dead then all + [x.id] else all;
      forall y | y in batch[1..] ensures Countable(c1, y) { assert y in batch; SameCountable(c, c1, y); }
      CountersRequeuedIndexed(s, c1, batch[1..], all1);
      SameDead(c, c1, batch[1..]);
      assert all1 + DeadIds(c1, batch[1..]) == all + DeadIds(c, batch);
    } else {
      assert all + DeadIds(c, batch) == all;
    }
  }

  lemma {:induction false} SameDead(c: Catalog, c1: Catalog, batch: seq<Snapshot>)
    requires c1.entries == c.entries
    ensures DeadIds(c1, batch) == DeadIds(c, batch)
  {
    if batch != [] { SameDead(c, c1, batch[1..]); }
  }

  lemma SameCountable(c: Catalog, c1: Catalog, x: Snapshot)
    requires c1.heap == c.heap
    ensures Countable(c1, x) <==> Countable(c, x)
  {
  }

  lemma CounterRequeued(s: Settings, c: Catalog, x: Snapshot, all: seq<Id>)
    requires Indexed(s, c) && Countable(c, x) && c.orphans == NewestOrphans(all)
    ensures var dead := !(x.hash in c.entries.m && c.entries.m[x.hash] == x.id);
            var c1 := if dead then AddOrphan(c, x.id) else NoteCounters(c, x.hash, x.id);
            Indexed(s, c1) && QueuesOnly(c, c1) && c1.documents == c.documents && c1.orphans == NewestOrphans(if dead then all + [x.id] else all) &&
            c1.dropped == c.dropped + |c.orphans| + (if dead then 1 else 0) - |c1.orphans|
  {
    hide Indexed, Ordered, DocumentOf, NewestOrphans;
    if x.hash in c.entries.m && c.entries.m[x.hash] == x.id {
      NoteIndexed(s, c, x.id);
    } else {
      QueuesOf(s, c);
      assert OrphanAt(c, x.id);
      OrphansWithAll(c, x.id);
      NewestWith(all, c.orphans, x.id);
      var c0, c1 := c.(documents := c.documents, orphans := OrphansWith(c.orphans, x.id)), AddOrphan(c, x.id);
      OtherQueues(s, c, c.documents, OrphansWith(c.orphans, x.id));
      SameTablesIndexed(s, c0, c1);
    }
  }

  lemma OrphansWithAll(c: Catalog, id: Id)
    requires |c.orphans| <= MAX_ORPHANS && OrphanAt(c, id) && forall o :: o in c.orphans ==> OrphanAt(c, o)
    ensures |OrphansWith(c.orphans, id)| <= MAX_ORPHANS && forall o :: o in OrphansWith(c.orphans, id) ==> OrphanAt(c, o)
    ensures |OrphansWith(c.orphans, id)| == |c.orphans| + 1 - (if |c.orphans| >= MAX_ORPHANS then 1 else 0)
  {
    hide OrphanAt;
  }

  // ----- mark_counters_written

  /** What a batch flushes of one entry. */
  function SumFor(batch: seq<Snapshot>, id: Id, k: Kind): int {
    if batch == [] then 0 else (if batch[0].id == id then Delta(batch[0], k) else 0) + SumFor(batch[1..], id, k)
  }

  /** The same entry for all tables: only its flushed counts and its base may differ. */
  predicate SameEntry(e: Entry, e': Entry) {
    e' == e.(flushedSeen := e'.flushedSeen, flushedAnnounced := e'.flushedAnnounced, base := e'.base) && (e.base.Some? ==> e'.base.Some?)
  }

  lemma FlushIndexed(s: Settings, c: Catalog, id: Id, e: Entry)
    requires Indexed(s, c) && SameEntry(At(c, id), e)
    ensures Indexed(s, SetEntry(c, id, e))
  {
    hide Ordered;
    var c' := SetEntry(c, id, e);
    forall j: Id ensures SameEntry(At(c, j), At(c', j)) { }
    SetFields(c, id, e);
    hide SetEntry, At, AwaitsCheck, Fetchable, NeedsLookup;
    forall h ensures ExactAt(s, c', h) {
      assert ExactAt(s, c, h);
      if h in c.entries.m { SameEntryTables(s, At(c, c.entries.m[h]), At(c', c.entries.m[h])); }
    }
    forall tag ensures Kept(c', tag) == |Tagged(c', tag)| {
      assert Kept(c, tag) == |Tagged(c, tag)|;
      assert Tagged(c', tag) == Tagged(c, tag) by { SameTagged(c, c', tag); }
    }
    forall o | o in c'.orphans ensures OrphanAt(c', o) { assert OrphanAt(c, o); }
    forall h | h in c'.documents.m ensures DocumentAt(c', h) { assert DocumentAt(c, h); }
  }

  lemma SetFields(c: Catalog, id: Id, e: Entry)
    ensures var c' := SetEntry(c, id, e); c' == c.(heap := c'.heap) && |c'.heap| == |c.heap|
    ensures (id < |c.heap| ==> At(SetEntry(c, id, e), id) == e) && forall j: Id :: j != id ==> At(SetEntry(c, id, e), j) == At(c, j)
  {
  }

  lemma SameTagged(c: Catalog, c': Catalog, tag: Tag)
    requires c'.entries == c.entries && forall j: Id :: SameEntry(At(c, j), At(c', j))
    ensures Tagged(c', tag) == Tagged(c, tag)
  {
    hide At;
    forall h | h in c.entries.m ensures h in Tagged(c, tag) <==> h in Tagged(c', tag) {
      assert SameEntry(At(c, c.entries.m[h]), At(c', c.entries.m[h]));
    }
  }

  lemma SameEntryTables(s: Settings, e: Entry, e': Entry)
    requires SameEntry(e, e')
    ensures AwaitsCheck(e) == AwaitsCheck(e') && Fetchable(e) == Fetchable(e') && NeedsLookup(s, e) == NeedsLookup(s, e') && e.meta == e'.meta
  {
  }

  /** Each entry's flushed counts grow by what the batch holds of it. */
  lemma {:induction false} CountersMarkedIndexed(s: Settings, c: Catalog, batch: seq<Snapshot>)
    requires Indexed(s, c) && forall x :: x in batch ==> x.id < |c.heap|
    ensures var c' := CountersMarked(c, batch);
            Indexed(s, c') && Steady(c, c') && c'.dropped == c.dropped &&
            forall j: Id :: At(c', j) == At(c, j).(flushedSeen := At(c, j).flushedSeen + SumFor(batch, j, Sightings),
                                                   flushedAnnounced := At(c, j).flushedAnnounced + SumFor(batch, j, Announces))
    decreases |batch|
  {
    hide Indexed, At, SetEntry;
    if batch != [] {
      var x := batch[0];
      assert x in batch;
      var e := FlushedBy(At(c, x.id), x);
      FlushIndexed(s, c, x.id, e);
      SetFields(c, x.id, e);
      var c1 := SetEntry(c, x.id, e);
      CountersMarkedIndexed(s, c1, batch[1..]);
    }
  }

  // ----- mark_index_written

  /** The entry of a written document: its counts are flushed, and a live entry gets its base and lets its metadata go. */
  function MarkedEntry(e: Entry, x: Snapshot, base: Base, live: bool): Entry {
    var e1 := FlushedBy(e, x);
    if !live then e1
    else if e.meta != x.meta then e1.(base := Some(base))
    else e1.(base := Some(base), meta := None, inDatabase := true, peers := [], failed := {})
  }

  /** For an entry that is done when its metadata is released, as _release_metadata_locked demands. */
  lemma DocumentMarkedIndexed(s: Settings, c: Catalog, x: Snapshot, base: Base)
    requires Indexed(s, c) && x.id < |c.heap| && At(c, x.id).hash == x.hash
    requires Live(c, x.id) && At(c, x.id).meta == x.meta ==> At(c, x.id).state == Done
    ensures var c' := DocumentMarked(c, x, base);
            Indexed(s, c') && c'.entries == c.entries && |c'.heap| == |c.heap| && c'.orphans == c.orphans && c'.dropped == c.dropped &&
            c'.tracking == c.tracking && At(c', x.id) == MarkedEntry(At(c, x.id), x, base, Live(c, x.id)) &&
            (forall j: Id :: j != x.id ==> At(c', j) == At(c, j)) &&
            forall h :: h in c'.documents.m <==> h in c.documents.m && !(h == x.hash && Live(c, x.id) && At(c, x.id).meta == x.meta)
    ensures forall h :: h in DocumentMarked(c, x, base).documents.m ==> DocumentMarked(c, x, base).documents.m[h] == c.documents.m[h]
  {
    hide Indexed, Ordered, MetadataReleased, Unqueued, SetEntry, At;
    var e := FlushedBy(At(c, x.id), x);
    FlushIndexed(s, c, x.id, e);
    SetFields(c, x.id, e);
    if Live(c, x.id) {
      var c1 := SetEntry(c, x.id, e.(base := Some(base)));
      FlushIndexed(s, c, x.id, e.(base := Some(base)));
      SetFields(c, x.id, e.(base := Some(base)));
      if e.meta == x.meta {
        UnqueueIndexed(s, c1, x.id);
        SameHeap(c1, Unqueued(c1, x.hash, x.id));
        ReleaseIndexed(s, Unqueued(c1, x.hash, x.id), x.id);
      }
    }
  }

  lemma UnqueueIndexed(s: Settings, c: Catalog, id: Id)
    requires Indexed(s, c) && Live(c, id)
    ensures var h := At(c, id).hash;
            var c1 := Unqueued(c, h, id);
            Indexed(s, c1) && QueuesOnly(c, c1) && c1.documents.m == c.documents.m - {h} && c1.orphans == c.orphans && c1.dropped == c.dropped
  {
    hide Indexed, Ordered, DocumentOf, Without, OrphanAt, Pop, SetDefault;
    var h := At(c, id).hash;
    if h in c.documents.m {
      QueuesOf(s, c);
      OtherQueues(s, c, Pop(c.documents, h), c.orphans);
      var c0 := c.(documents := Pop(c.documents, h), orphans := c.orphans);
      SameHeap(c, c0);
      NoteIndexed(s, c0, id);
      assert Unqueued(c, h, id) == NoteCounters(c0, h, id);
    }
  }

  lemma ReleaseIndexed(s: Settings, c: Catalog, id: Id)
    requires Indexed(s, c) && Live(c, id) && At(c, id).state == Done && At(c, id).hash !in c.documents.m && id < |c.heap|
    ensures var c' := MetadataReleased(c, id);
            Indexed(s, c') && Steady(c, c') && c'.dropped == c.dropped &&
            At(c', id) == At(c, id).(meta := None, inDatabase := true, peers := [], failed := {}) && forall j: Id :: j != id ==> At(c', j) == At(c, j)
  {
    hide Indexed, Nearly, ReadyToIndex, CountMoved, SameAt, InOrder, Prepared, Fits;
    var e := At(c, id);
    LiveHere(s, c, e.hash);
    NearlyFrom(s, c, e.hash);
    ReleaseTouches(c, id);
    ReleasedExact(s, c, id);
    Stay(s, c, MetadataReleased(c, id), id);
  }

  lemma ReleaseTouches(c: Catalog, id: Id)
    requires id < |c.heap|
    ensures Touches(c, MetadataReleased(c, id), id)
  {
    hide Ordered;
  }

  lemma ReleasedExact(s: Settings, c: Catalog, id: Id)
    requires id < |c.heap| && Live(c, id) && At(c, id).state == Done && ExactAt(s, c, At(c, id).hash)
    ensures ExactAt(s, MetadataReleased(c, id), At(c, id).hash)
  {
    hide Ordered;
  }

  // ----- database checks

  ghost predicate CheckedSet(c: Catalog, c': Catalog, hashes: seq<Hash>) {
    forall j: Id :: At(c', j) == if Live(c, j) && At(c, j).hash in hashes then At(c, j).(checked := true) else At(c, j)
  }

  lemma {:induction false} CheckedEachIndexed(s: Settings, c: Catalog, hashes: seq<Hash>)
    requires Indexed(s, c)
    ensures Indexed(s, CheckedEach(s, c, hashes)) && Steady(c, CheckedEach(s, c, hashes)) && CheckedSet(c, CheckedEach(s, c, hashes), hashes)
    ensures CheckedEach(s, c, hashes).dropped == c.dropped
    decreases |hashes|
  {
    hide Indexed, At, Replaced, Live, CheckedSet;
    if hashes != [] {
      var h, rest := hashes[0], hashes[1..];
      if h in c.entries.m {
        var id := c.entries.m[h];
        LiveHere(s, c, h);
        var e := At(c, id).(checked := true);
        ReplaceLive(s, c, h, e);
        ReplacedKeeps(s, c, id, e);
        var c1 := Replaced(s, c, id, e);
        CheckedEachIndexed(s, c1, rest);
        CheckedTwice(c, c1, CheckedEach(s, c1, rest), hashes);
      } else {
        CheckedEachIndexed(s, c, rest);
        CheckedSkip(c, CheckedEach(s, c, rest), hashes);
      }
    } else {
      CheckedNone(c);
    }
  }

  lemma CheckedNone(c: Catalog)
    ensures CheckedSet(c, c, [])
  {
  }

  lemma CheckedSkip(c: Catalog, c': Catalog, hashes: seq<Hash>)
    requires hashes != [] && hashes[0] !in c.entries.m && CheckedSet(c, c', hashes[1..])
    ensures CheckedSet(c, c', hashes)
  {
  }

  lemma CheckedTwice(c: Catalog, c1: Catalog, c2: Catalog, hashes: seq<Hash>)
    requires hashes != [] && hashes[0] in c.entries.m && Live(c, c.entries.m[hashes[0]]) && At(c, c.entries.m[hashes[0]]).hash == hashes[0]
    requires Became(c, c1, c.entries.m[hashes[0]], At(c, c.entries.m[hashes[0]]).(checked := true)) && CheckedSet(c1, c2, hashes[1..])
    ensures CheckedSet(c, c2, hashes)
  {
    var h, id := hashes[0], c.entries.m[hashes[0]];
    forall j: Id ensures At(c2, j) == if Live(c, j) && At(c, j).hash in hashes then At(c, j).(checked := true) else At(c, j) {
      assert At(c, j).hash in hashes <==> At(c, j).hash == h || At(c, j).hash in hashes[1..];
      SteadyLive(c, c1, j);
    }
  }

  lemma CheckSwitchedIndexed(s: Settings, c: Catalog, enabled: bool)
    requires Indexed(s, c)
    ensures var c' := CheckSwitched(s, c, enabled);
            Indexed(s, c') && Steady(c, c') && c'.dropped == c.dropped && CheckedSet(c, c', if enabled then [] else c.needsCheck.keys)
  {
    hide Indexed, CheckedEach, At;
    var c1 := c.(checkDatabase := enabled);
    SameTablesIndexed(s, c, c1);
    CheckedEachIndexed(s, c1, c.needsCheck.keys);
    SameHeap(c, c1);
    forall j: Id ensures Live(c1, j) <==> Live(c, j) { SteadyLive(c, c1, j); }
    CheckedNone(c);
  }

  lemma PreparedUncheck(s: Settings, c: Catalog, id: Id)
    requires Prepared(s, c, c, id)
    ensures Prepared(s, c, c.(needsCheck := Pop(c.needsCheck, At(c, id).hash)), id)
  {
    hide Nearly, Ordered, CountMoved, Without;
    var c2 := c.(needsCheck := Pop(c.needsCheck, At(c, id).hash));
    SameHeap(c, c2);
    UncheckTouches(c, id);
  }

  lemma UncheckTouches(c: Catalog, id: Id)
    ensures Touches(c, c.(needsCheck := Pop(c.needsCheck, At(c, id).hash)), id)
  {
    hide Ordered, Without;
  }

  lemma CheckPlace(s: Settings, c: Catalog, h: Hash)
    requires Indexed(s, c)
    ensures h in c.needsCheck.m <==> h in c.entries.m && AwaitsCheck(At(c, c.entries.m[h]))
    ensures h in c.needsCheck.m ==> c.needsCheck.m[h] == c.entries.m[h]
    ensures h !in c.needsCheck.m ==> c.(needsCheck := Pop(c.needsCheck, h)) == c
  {
    hide AwaitsCheck, Fetchable, NeedsLookup, Counted, Queued, Placed;
    assert ExactAt(s, c, h);
  }

  /** What a check makes of an entry. */
  function CheckedEntry(e: Entry, found: map<Hash, Base>): Entry {
    if !AwaitsCheck(e) then e
    else if e.hash in found then
      e.(checked := true, base := Some(found[e.hash]), inDatabase := true, peers := [], failed := {}, known := true, state := Done)
    else e.(checked := true)
  }

  lemma OneCheckAppliedIndexed(s: Settings, c: Catalog, h: Hash, found: map<Hash, Base>)
    requires Indexed(s, c)
    ensures var c' := OneCheckApplied(s, c, h, found);
            Indexed(s, c') && c'.dropped == c.dropped &&
            if h in c.entries.m then Became(c, c', c.entries.m[h], CheckedEntry(At(c, c.entries.m[h]), found)) else c' == c
  {
    hide Indexed, Prepared, At, Live, Replaced, NoteCounters, Pop, ExactAt, Became;
    CheckPlace(s, c, h);
    if h in c.needsCheck.m {
      var id := c.needsCheck.m[h];
      LiveHere(s, c, h);
      var c1 := c.(needsCheck := Pop(c.needsCheck, h));
      SameHeap(c, c1);
      PreparedUncheck(s, c, id);
      var e := CheckedEntry(At(c, id), found);
      assert Fits(c1, id, e);
      Replace(s, c, c1, id, e);
      var c2 := Replaced(s, c1, id, e);
      SameBefore(c, c1, c2, id, e);
      ReplacedKeeps(s, c1, id, e);
      BecameLive(c, c2, id, e);
      NoteIndexed(s, c2, id);
      NoteBecame(c, c2, id, e, h);
      NoteDropped(c2, h, id);
    } else if h in c.entries.m {
      BecameSame(c, c.entries.m[h]);
    }
  }

  lemma NoteDropped(c: Catalog, h: Hash, id: Id)
    ensures NoteCounters(c, h, id).dropped == c.dropped
  {
  }

  lemma BecameSame(c: Catalog, id: Id)
    ensures Became(c, c, id, At(c, id))
  {
  }

  ghost predicate AppliedSet(c: Catalog, c': Catalog, hashes: seq<Hash>, found: map<Hash, Base>) {
    forall j: Id :: At(c', j) == if Live(c, j) && At(c, j).hash in hashes then CheckedEntry(At(c, j), found) else At(c, j)
  }

  lemma {:induction false} ChecksAppliedIndexed(s: Settings, c: Catalog, hashes: seq<Hash>, found: map<Hash, Base>)
    requires Indexed(s, c)
    ensures var c' := ChecksApplied(s, c, hashes, found);
            Indexed(s, c') && Steady(c, c') && c'.dropped == c.dropped && AppliedSet(c, c', hashes, found)
    decreases |hashes|
  {
    hide Indexed, OneCheckApplied, At, Live, AppliedSet;
    if hashes != [] {
      var h, rest := hashes[0], hashes[1..];
      OneCheckAppliedIndexed(s, c, h, found);
      var c1 := OneCheckApplied(s, c, h, found);
      ChecksAppliedIndexed(s, c1, rest, found);
      if h in c.entries.m { LiveHere(s, c, h); }
      AppliedTwice(c, c1, ChecksApplied(s, c1, rest, found), hashes, found);
    } else {
      AppliedNone(c, found);
    }
  }

  lemma AppliedNone(c: Catalog, found: map<Hash, Base>)
    ensures AppliedSet(c, c, [], found)
  {
  }

  lemma AppliedTwice(c: Catalog, c1: Catalog, c2: Catalog, hashes: seq<Hash>, found: map<Hash, Base>)
    requires hashes != [] && AppliedSet(c1, c2, hashes[1..], found)
    requires if hashes[0] in c.entries.m then
               var id := c.entries.m[hashes[0]];
               Live(c, id) && At(c, id).hash == hashes[0] && Became(c, c1, id, CheckedEntry(At(c, id), found))
             else c1 == c
    ensures AppliedSet(c, c2, hashes, found)
  {
    hide AwaitsCheck;
    var h := hashes[0];
    forall j: Id ensures At(c2, j) == if Live(c, j) && At(c, j).hash in hashes then CheckedEntry(At(c, j), found) else At(c, j) {
      assert At(c, j).hash in hashes <==> At(c, j).hash == h || At(c, j).hash in hashes[1..];
      CheckedOnce(At(c, j), found);
    }
  }

  lemma CheckedOnce(e: Entry, found: map<Hash, Base>)
    ensures CheckedEntry(CheckedEntry(e, found), found) == CheckedEntry(e, found) && CheckedEntry(e, found).hash == e.hash
  {
  }

  // ----- reset_index_base

  lemma BaseDropped(s: Settings, c: Catalog, id: Id, e: Entry)
    requires Indexed(s, c) && Live(c, id) && id < |c.heap| && e == At(c, id).(base := None, flushedSeen := 0, flushedAnnounced := 0)
    ensures Indexed(s, SetEntry(c, id, e))
  {
    hide Indexed, Nearly, ReadyToIndex, CountMoved, SameAt, InOrder, Prepared;
    LiveHere(s, c, e.hash);
    NearlyFrom(s, c, e.hash);
    SetTouches(c, id, e);
    SetExact(s, c, id, e);
    Stay(s, c, SetEntry(c, id, e), id);
  }

  lemma SetTouches(c: Catalog, id: Id, e: Entry)
    requires id < |c.heap| && e == At(c, id).(base := None, flushedSeen := 0, flushedAnnounced := 0)
    ensures Touches(c, SetEntry(c, id, e), id)
  {
    hide Ordered;
  }

  lemma SetExact(s: Settings, c: Catalog, id: Id, e: Entry)
    requires id < |c.heap| && e == At(c, id).(base := None, flushedSeen := 0, flushedAnnounced := 0) && ExactAt(s, c, e.hash)
    ensures ExactAt(s, SetEntry(c, id, e), e.hash)
  {
    hide Ordered;
  }

  lemma BaseResetIndexed(s: Settings, c: Catalog, h: Hash)
    requires Indexed(s, c)
    ensures Indexed(s, BaseReset(s, c, h))
  {
    hide Indexed, Prepared, SetEntry, Replaced, QueueDocument, Ordered, At, Live, Pop;
    if h in c.entries.m {
      var id := c.entries.m[h];
      LiveHere(s, c, h);
      var e := At(c, id).(base := None, flushedSeen := 0, flushedAnnounced := 0);
      var c0 := SetEntry(c, id, e);
      BaseDropped(s, c, id, e);
      SetFields(c, id, e);
      QueuesOf(s, c0);
      var c1 := c0.(counters := Pop(c0.counters, h));
      FewerCounters(s, c0, Pop(c0.counters, h));
      SameHeap(c0, c1);
      if e.meta.Some? {
        QueueDocumentIndexed(s, c1, id);
      } else if e.inDatabase {
        ReplaceLive(s, c1, h, e.(inDatabase := false, checked := true, known := false, state := if e.state == Done then Pending else e.state));
      }
    }
  }
}
