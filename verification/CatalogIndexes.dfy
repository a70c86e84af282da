/**
 * The derived tables of the catalog are exact: after every public method each of them holds just the entries
 * that its purpose calls for, and the running counts are the true counts.
 */
module CatalogIndexes {
  import opened ByteStrings
  import opened BoundedRecentMap
  import opened NodeIdentity
  import opened CatalogSpec

  // ----- what is kept

  /** A table holds h exactly when it should, and then as the given entry. */
  predicate HoldsAt(d: map<Hash, Id>, h: Hash, wanted: bool, id: Id) {
    if wanted then h in d && d[h] == id else h !in d
  }

  predicate ExactAt(s: Settings, c: Catalog, h: Hash) {
    var live := h in c.entries.m;
    var id := if live then c.entries.m[h] else 0;
    var e := At(c, id);
    HoldsAt(c.needsCheck.m, h, live && AwaitsCheck(e), id) && HoldsAt(c.fetchable, h, live && Fetchable(e), id) &&
    HoldsAt(c.needsLookup.m, h, live && NeedsLookup(s, e), id) && HoldsAt(c.fetched, h, live && e.meta.Some?, id) &&
    (h in c.counters.m ==> live && c.counters.m[h] == id)
  }

  ghost predicate Exact(s: Settings, c: Catalog) {
    forall h :: ExactAt(s, c, h)
  }

  /** Tables with an order list each of their keys once. */
  ghost predicate InOrder(c: Catalog) {
    Ordered(c.needsLookup) && Ordered(c.needsCheck) && Ordered(c.counters)
  }

  ghost predicate Placed(c: Catalog) {
    Ordered(c.entries) && forall h :: h in c.entries.m ==> c.entries.m[h] < |c.heap| && At(c, c.entries.m[h]).hash == h
  }

  predicate DocumentAt(c: Catalog, h: Hash)
    requires h in c.documents.m
  {
    var id := c.documents.m[h];
    id < |c.heap| && At(c, id).hash == h && At(c, id).meta.Some?
  }

  predicate OrphanAt(c: Catalog, id: Id) {
    id < |c.heap| && !Live(c, id) && At(c, id).base.Some?
  }

  /** Queued documents have metadata; orphans are entries that were evicted after they had been written. */
  ghost predicate Queued(c: Catalog) {
    Ordered(c.documents) && (forall h :: h in c.documents.m ==> DocumentAt(c, h)) && (forall id :: id in c.orphans ==> OrphanAt(c, id)) &&
    |c.orphans| <= MAX_ORPHANS
  }

  datatype Tag = InState(state: FetchState) | Known | Looking

  predicate Has(e: Entry, tag: Tag) {
    match tag
    case InState(state) => e.state == state
    case Known => e.known
    case Looking => e.looking
  }

  /** The running count kept for a tag. */
  function Kept(c: Catalog, tag: Tag): int {
    match tag
    case InState(Pending) => c.counts.pending
    case InState(InProgress) => c.counts.inProgress
    case InState(Done) => c.counts.done
    case InState(Failed) => c.counts.failed
    case Known => c.knownDone
    case Looking => c.lookupsInProgress
  }

  function Tagged(c: Catalog, tag: Tag): set<Hash> {
    set h | h in c.entries.m && Has(At(c, c.entries.m[h]), tag)
  }

  ghost predicate Counted(c: Catalog) {
    forall tag :: Kept(c, tag) == |Tagged(c, tag)|
  }

  ghost predicate Indexed(s: Settings, c: Catalog) {
    Placed(c) && InOrder(c) && Exact(s, c) && Counted(c) && Queued(c)
  }

  // ----- steps that touch one entry

  predicate SameAt(c: Catalog, c': Catalog, x: Hash) {
    Agree(c.needsCheck.m, c'.needsCheck.m, x) && Agree(c.fetchable, c'.fetchable, x) && Agree(c.needsLookup.m, c'.needsLookup.m, x) &&
    Agree(c.fetched, c'.fetched, x) && Agree(c.counters.m, c'.counters.m, x)
  }

  predicate Agree(d: map<Hash, Id>, d': map<Hash, Id>, x: Hash) {
    (x in d <==> x in d') && (x in d ==> d[x] == d'[x])
  }

  predicate CountMoved(c: Catalog, c': Catalog, id: Id, tag: Tag) {
    Kept(c', tag) - One(Has(At(c', id), tag)) == Kept(c, tag) - One(Has(At(c, id), tag))
  }

  /** Only the entry at id and its places in the tables may change, and the counts move with it. */
  ghost predicate Touches(c: Catalog, c': Catalog, id: Id) {
    c'.entries == c.entries && |c'.heap| == |c.heap| && At(c', id).hash == At(c, id).hash && (InOrder(c) ==> InOrder(c')) &&
    (forall j :: j != id ==> At(c', j) == At(c, j)) && (forall tag :: CountMoved(c, c', id, tag)) &&
    forall x :: x != At(c, id).hash ==> SameAt(c, c', x)
  }

  lemma TouchesTwice(c: Catalog, c1: Catalog, c2: Catalog, id: Id)
    requires Touches(c, c1, id) && Touches(c1, c2, id)
    ensures Touches(c, c2, id)
  {
    hide At, InOrder, Has, Kept;
    forall tag ensures CountMoved(c, c2, id, tag) {
      assert CountMoved(c, c1, id, tag) && CountMoved(c1, c2, id, tag);
    }
    forall x | x != At(c, id).hash ensures SameAt(c, c2, x) {
      assert SameAt(c, c1, x) && SameAt(c1, c2, x);
    }
  }

  lemma MovedTouches(c: Catalog, id: Id, e: Entry)
    requires id < |c.heap| && e.hash == At(c, id).hash
    ensures Touches(c, Moved(c, id, e), id) && At(Moved(c, id, e), id) == e
  {
    hide Ordered;
    forall tag ensures CountMoved(c, Moved(c, id, e), id, tag) {
    }
  }

  lemma ReindexTouches(s: Settings, c: Catalog, id: Id)
    ensures Touches(c, Reindexed(s, c, id), id)
  {
    hide Ordered, Without;
  }

  lemma NoteTouches(c: Catalog, id: Id)
    ensures Touches(c, NoteCounters(c, At(c, id).hash, id), id)
  {
    hide Ordered, Without;
  }

  lemma FetchedTouches(c: Catalog, id: Id, fetched: map<Hash, Id>)
    requires fetched == c.fetched[At(c, id).hash := id] || fetched == c.fetched - {At(c, id).hash}
    ensures Touches(c, c.(fetched := fetched), id)
  {
    hide Ordered;
  }

  /** One set of entries with a tag changes by at most one. */
  lemma TaggedMoves(c: Catalog, c': Catalog, id: Id, tag: Tag)
    requires Placed(c) && Live(c, id) && Touches(c, c', id)
    ensures |Tagged(c', tag)| - One(Has(At(c', id), tag)) == |Tagged(c, tag)| - One(Has(At(c, id), tag))
  {
    hide CountMoved, SameAt, InOrder, Ordered;
    var h := At(c, id).hash;
    var others := set x | x in c.entries.m && x != h && Has(At(c, c.entries.m[x]), tag);
    TaggedSplit(c, id, tag, others);
    assert forall x :: x in c.entries.m && x != h ==> At(c', c.entries.m[x]) == At(c, c.entries.m[x]);
    assert others == set x | x in c'.entries.m && x != h && Has(At(c', c'.entries.m[x]), tag);
    TaggedSplit(c', id, tag, others);
  }

  lemma TaggedSplit(c: Catalog, id: Id, tag: Tag, others: set<Hash>)
    requires Live(c, id)
    requires others == set x | x in c.entries.m && x != At(c, id).hash && Has(At(c, c.entries.m[x]), tag)
    ensures |Tagged(c, tag)| == |others| + One(Has(At(c, id), tag))
  {
    var h := At(c, id).hash;
    if Has(At(c, id), tag) {
      assert Tagged(c, tag) == others + {h};
    } else {
      assert Tagged(c, tag) == others;
    }
  }

  lemma CountedAfter(c: Catalog, c': Catalog, id: Id)
    requires Placed(c) && Counted(c) && Live(c, id) && Touches(c, c', id)
    ensures Counted(c')
  {
    hide SameAt, InOrder, Tagged, Kept, Has;
    forall tag ensures Kept(c', tag) == |Tagged(c', tag)| {
      TaggedMoves(c, c', id, tag);
      assert CountMoved(c, c', id, tag);
    }
  }

  /** The queues stay as they are, and no queued document loses its metadata. */
  ghost predicate QueuesKept(c: Catalog, c': Catalog, id: Id) {
    c'.documents == c.documents && c'.orphans == c.orphans &&
    (At(c, id).hash in c.documents.m && c.documents.m[At(c, id).hash] == id ==> At(c', id).meta.Some?)
  }

  lemma QueuedAfter(c: Catalog, c': Catalog, id: Id)
    requires Placed(c) && Queued(c) && Live(c, id) && Touches(c, c', id) && QueuesKept(c, c', id)
    ensures Queued(c')
  {
    hide CountMoved, SameAt, Ordered, InOrder;
    forall o | o in c'.orphans ensures OrphanAt(c', o) {
      assert OrphanAt(c, o);
    }
  }

  // ----- the three tables of _index_entry_locked

  lemma ReindexedExact(s: Settings, c: Catalog, id: Id)
    requires Live(c, id) && ReadyToIndex(s, c, At(c, id).hash)
    ensures ExactAt(s, Reindexed(s, c, id), At(c, id).hash)
  {
    hide Ordered, Without, AwaitsCheck, Fetchable, NeedsLookup;
  }

  /** What _index_entry_locked needs of an entry: any stale place in a table is its own, and the other two tables are right. */
  predicate ReadyToIndex(s: Settings, c: Catalog, h: Hash) {
    h in c.entries.m && var id := c.entries.m[h];
    OnlyAs(c.needsCheck.m, h, id) && OnlyAs(c.needsLookup.m, h, id) &&
    HoldsAt(c.fetched, h, At(c, id).meta.Some?, id) && OnlyAs(c.counters.m, h, id)
  }

  predicate OnlyAs(d: map<Hash, Id>, h: Hash, id: Id) {
    h in d ==> d[h] == id
  }

  // ----- one entry at a time

  /** Everything is in place but the three tables of _index_entry_locked at h. */
  ghost predicate Nearly(s: Settings, c: Catalog, h: Hash) {
    Placed(c) && InOrder(c) && Counted(c) && Queued(c) && ReadyToIndex(s, c, h) && forall x :: x != h ==> ExactAt(s, c, x)
  }

  lemma NearlyFrom(s: Settings, c: Catalog, h: Hash)
    requires Indexed(s, c) && h in c.entries.m
    ensures Nearly(s, c, h) && Live(c, c.entries.m[h]) && c.entries.m[h] < |c.heap| && At(c, c.entries.m[h]).hash == h
  {
    hide AwaitsCheck, Fetchable, NeedsLookup, InOrder, Counted, Queued, Ordered;
    assert ExactAt(s, c, h);
  }

  /** After any change of one entry, _index_entry_locked puts everything in place. */
  lemma Settle(s: Settings, c: Catalog, c1: Catalog, id: Id)
    requires Nearly(s, c, At(c, id).hash) && Live(c, id) && Touches(c, c1, id) && QueuesKept(c, c1, id)
    requires ReadyToIndex(s, c1, At(c, id).hash)
    ensures Indexed(s, Reindexed(s, c1, id)) && Touches(c, Reindexed(s, c1, id), id) && At(Reindexed(s, c1, id), id) == At(c1, id)
  {
    hide ExactAt, Counted, Ordered, CountMoved, SameAt, ReadyToIndex, AwaitsCheck, Fetchable, NeedsLookup, Without, Pop, SetDefault;
    var c2 := Reindexed(s, c1, id);
    ReindexTouches(s, c1, id);
    TouchesTwice(c, c1, c2, id);
    CountedAfter(c, c2, id);
    QueuedAfter(c, c2, id);
    ReindexedExact(s, c1, id);
    forall x ensures ExactAt(s, c2, x) {
      if x != At(c, id).hash { ExactElsewhere(s, c, c2, id, x); }
    }
  }

  lemma ExactElsewhere(s: Settings, c: Catalog, c': Catalog, id: Id, x: Hash)
    requires Placed(c) && Live(c, id) && Touches(c, c', id) && x != At(c, id).hash && ExactAt(s, c, x)
    ensures ExactAt(s, c', x)
  {
    hide CountMoved, InOrder, Ordered, AwaitsCheck, Fetchable, NeedsLookup, Counted;
    assert SameAt(c, c', x);
  }

  /** A change of one entry that needs no new place in the tables. */
  lemma Stay(s: Settings, c: Catalog, c': Catalog, id: Id)
    requires Nearly(s, c, At(c, id).hash) && Live(c, id) && Touches(c, c', id) && QueuesKept(c, c', id)
    requires ExactAt(s, c', At(c, id).hash)
    ensures Indexed(s, c')
  {
    hide ExactAt, Counted, Ordered, CountMoved, SameAt, ReadyToIndex;
    CountedAfter(c, c', id);
    QueuedAfter(c, c', id);
    forall x ensures ExactAt(s, c', x) {
      if x != At(c, id).hash { ExactElsewhere(s, c, c', id, x); }
    }
  }

  lemma CreatedFields(c: Catalog, h: Hash, now: real)
    requires h !in c.entries.m
    ensures var (c1, id) := GotOrCreated(c, h, now);
            id == |c.heap| && |c1.heap| == |c.heap| + 1 && At(c1, id) == NewEntry(h, now, !c.checkDatabase) &&
            (forall j: Id :: j != id ==> At(c1, j) == At(c, j)) && c1.entries == Put(c.entries, h, id) &&
            c1.needsCheck == c.needsCheck && c1.needsLookup == c.needsLookup && c1.fetchable == c.fetchable && c1.fetched == c.fetched &&
            c1.counters == c.counters && c1.documents == c.documents && c1.orphans == c.orphans && c1.counts == Bump(c.counts, Pending, 1) &&
            c1.knownDone == c.knownDone && c1.lookupsInProgress == c.lookupsInProgress
  {
    hide Put, Bump, NewEntry;
  }

  lemma CreatedNearly(s: Settings, c: Catalog, h: Hash, now: real)
    requires Indexed(s, c)
    ensures var (c1, id) := GotOrCreated(c, h, now);
            Nearly(s, c1, h) && Live(c1, id) && id < |c1.heap| && At(c1, id).hash == h
  {
    if h in c.entries.m {
      hide Indexed, Nearly, Live, At;
      NearlyFrom(s, c, h);
    } else {
      hide GotOrCreated, At, Ordered, Counted, Tagged, ExactAt, AwaitsCheck, Fetchable, NeedsLookup, ReadyToIndex;
      var (c1, id) := GotOrCreated(c, h, now);
      CreatedFields(c, h, now);
      CreatedCounted(c, h, now);
      CreatedReady(s, c, h, now);
      forall x | x != h ensures ExactAt(s, c1, x) {
        CreatedElsewhere(s, c, h, now, x);
      }
      forall o | o in c1.orphans ensures OrphanAt(c1, o) {
        assert OrphanAt(c, o);
      }
      assert forall x :: x in c1.documents.m ==> DocumentAt(c, x);
    }
  }

  lemma CreatedReady(s: Settings, c: Catalog, h: Hash, now: real)
    requires h !in c.entries.m && ExactAt(s, c, h)
    ensures ReadyToIndex(s, GotOrCreated(c, h, now).0, h)
  {
    hide GotOrCreated, At, AwaitsCheck, Fetchable, NeedsLookup;
    CreatedFields(c, h, now);
  }

  lemma CreatedElsewhere(s: Settings, c: Catalog, h: Hash, now: real, x: Hash)
    requires Placed(c) && h !in c.entries.m && x != h && ExactAt(s, c, x)
    ensures ExactAt(s, GotOrCreated(c, h, now).0, x)
  {
    hide GotOrCreated, At, AwaitsCheck, Fetchable, NeedsLookup, Ordered, Without;
    CreatedFields(c, h, now);
  }

  lemma CreatedCounted(c: Catalog, h: Hash, now: real)
    requires Placed(c) && Counted(c) && h !in c.entries.m
    ensures Counted(GotOrCreated(c, h, now).0)
  {
    hide Ordered, Has, Tagged, GotOrCreated;
    CreatedFields(c, h, now);
    var (c1, id) := GotOrCreated(c, h, now);
    forall tag ensures Kept(c1, tag) == |Tagged(c1, tag)| {
      assert Kept(c, tag) == |Tagged(c, tag)|;
      CreatedTagged(c, h, now, tag);
      NewEntryTags(h, now, !c.checkDatabase, tag);
    }
  }

  lemma NewEntryTags(h: Hash, now: real, checked: bool, tag: Tag)
    ensures Has(NewEntry(h, now, checked), tag) <==> tag == InState(Pending)
  {
  }

  lemma CreatedTagged(c: Catalog, h: Hash, now: real, tag: Tag)
    requires Placed(c) && h !in c.entries.m
    ensures |Tagged(GotOrCreated(c, h, now).0, tag)| == |Tagged(c, tag)| + One(Has(NewEntry(h, now, !c.checkDatabase), tag))
  {
    hide Ordered, Has, GotOrCreated, At;
    CreatedFields(c, h, now);
    var (c1, id) := GotOrCreated(c, h, now);
    assert forall x :: x in c.entries.m ==> At(c1, c1.entries.m[x]) == At(c, c.entries.m[x]);
    assert Tagged(c, tag) == set x | x in c1.entries.m && x != h && Has(At(c1, c1.entries.m[x]), tag);
    TaggedSplit(c1, id, tag, Tagged(c, tag));
  }

  // ----- eviction

  lemma EvictIndexed(s: Settings, c: Catalog, id: Id)
    requires Indexed(s, c) && Live(c, id) && !At(c, id).looking
    ensures Indexed(s, EvictedOne(c, id)) && EvictedOne(c, id).entries.m == c.entries.m - {At(c, id).hash}
    ensures forall j :: j != id ==> At(EvictedOne(c, id), j) == At(c, j)
  {
    hide Indexed, ExactAt, Counted, Queued, Exact, InOrder, AddOrphan, HasNews, Ordered, Pop;
    var c' := EvictedOne(c, id);
    assert Placed(c) && InOrder(c) && Exact(s, c) && Counted(c) && Queued(c) by { IndexedParts(s, c); }
    EvictedFields(c, id);
    assert id < |c.heap|;
    EvictedOrder(c, id);
    EvictedCounted(c, id);
    EvictedQueued(c, id);
    EvictedExact(s, c, id);
    IndexedParts(s, c');
  }

  lemma IndexedParts(s: Settings, c: Catalog)
    ensures Indexed(s, c) <==> Placed(c) && InOrder(c) && Exact(s, c) && Counted(c) && Queued(c)
  {
  }

  lemma EvictedFields(c: Catalog, id: Id)
    ensures var e, c' := At(c, id), EvictedOne(c, id);
            c'.entries == Pop(c.entries, e.hash) && c'.fetched == c.fetched - {e.hash} && c'.fetchable == c.fetchable - {e.hash} &&
            c'.needsLookup == Pop(c.needsLookup, e.hash) && c'.needsCheck == Pop(c.needsCheck, e.hash) &&
            c'.counters == Pop(c.counters, e.hash) && c'.documents == c.documents && |c'.heap| == |c.heap| && c'.tracking == c.tracking &&
            (id < |c.heap| ==> At(c', id) == e.(known := false)) && (forall j: Id :: j != id ==> At(c', j) == At(c, j)) &&
            c'.counts == Bump(c.counts, e.state, -1) && c'.knownDone == c.knownDone - One(e.known) && c'.lookupsInProgress == c.lookupsInProgress &&
            c'.orphans == if e.base.Some? && HasNews(e) then OrphansWith(c.orphans, id) else c.orphans
  {
    hide Pop, HasNews, Bump, OrphansWith, Ordered;
  }

  lemma EvictedOrder(c: Catalog, id: Id)
    requires Placed(c) && InOrder(c) && Live(c, id) && id < |c.heap|
    ensures Placed(EvictedOne(c, id)) && InOrder(EvictedOne(c, id))
  {
    hide EvictedOne, Ordered, AddOrphan, HasNews, Without, At;
    EvictedFields(c, id);
  }

  lemma EvictedCounted(c: Catalog, id: Id)
    requires Placed(c) && Counted(c) && Live(c, id) && id < |c.heap| && !At(c, id).looking
    ensures Counted(EvictedOne(c, id))
  {
    hide EvictedOne, Ordered, AddOrphan, HasNews, Without, At;
    EvictedFields(c, id);
    var c', h := EvictedOne(c, id), At(c, id).hash;
    forall tag ensures Kept(c', tag) == |Tagged(c', tag)| {
      var others := set x | x in c.entries.m && x != h && Has(At(c, c.entries.m[x]), tag);
      TaggedSplit(c, id, tag, others);
      assert forall x :: x in c'.entries.m ==> x != h && At(c', c'.entries.m[x]) == At(c, c.entries.m[x]);
      assert Tagged(c', tag) == others;
      assert Kept(c, tag) == |Tagged(c, tag)|;
    }
  }

  lemma EvictedQueued(c: Catalog, id: Id)
    requires Placed(c) && Queued(c) && Live(c, id) && id < |c.heap|
    ensures Queued(EvictedOne(c, id))
  {
    hide EvictedOne, Ordered, HasNews, Without, At;
    EvictedFields(c, id);
    var c' := EvictedOne(c, id);
    assert forall x :: x in c'.documents.m ==> DocumentAt(c, x);
    forall o | o in c'.orphans ensures OrphanAt(c', o) {
      assert o == id || OrphanAt(c, o);
    }
  }

  lemma EvictedExact(s: Settings, c: Catalog, id: Id)
    requires Placed(c) && Exact(s, c) && Live(c, id) && id < |c.heap|
    ensures Exact(s, EvictedOne(c, id))
  {
    hide ExactAt;
    forall x ensures ExactAt(s, EvictedOne(c, id), x) {
      assert ExactAt(s, c, x);
      EvictedExactAt(s, c, id, x);
    }
  }

  lemma EvictedExactAt(s: Settings, c: Catalog, id: Id, x: Hash)
    requires Placed(c) && ExactAt(s, c, x) && Live(c, id) && id < |c.heap|
    ensures ExactAt(s, EvictedOne(c, id), x)
  {
    hide EvictedOne, Ordered, HasNews, Without, AwaitsCheck, Fetchable, NeedsLookup, OrphansWith, At;
    EvictedFields(c, id);
  }
}
