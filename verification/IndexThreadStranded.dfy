/**
 * A torrent whose row is deleted from outside. Its base is then reset, and if its lookups were used up before it was
 * written it waits for nothing: no run of the threads alone leads there, but one deleted row is enough.
 */
module IndexThreadStranded {
  import opened ByteStrings
  import opened BoundedRecentMap
  import opened NodeIdentity
  import opened CatalogSpec
  import opened CatalogIndexes
  import opened CatalogMethods
  import opened CatalogFlushing
  import opened CatalogEviction
  import opened CatalogEntries
  import opened IndexThread
  import opened IndexThreadSafety
  import opened IndexThreadCounts
  import opened IndexThreadLateSighting
  import W = IndexThreadWitness

  // ----- histories: steps of the threads, and rows deleted from outside

  datatype Happening = Thread(step: Step) | RowDeleted(h: Hash)

  function Happened(s: Settings, y: System, e: Happening): System {
    match e
    case Thread(step) => Next(s, y, step)
    case RowDeleted(h) => y.(rows := y.rows - {h})
  }

  ghost predicate MayHappen(s: Settings, y: System, e: Happening) {
    e.Thread? ==> Enabled(s, y, e.step)
  }

  ghost predicate History(s: Settings, y: System, events: seq<Happening>)
    decreases |events|
  {
    events == [] || (MayHappen(s, y, events[0]) && History(s, Happened(s, y, events[0]), events[1..]))
  }

  function AfterHistory(s: Settings, y: System, events: seq<Happening>): System
    decreases |events|
  {
    if events == [] then y else AfterHistory(s, Happened(s, y, events[0]), events[1..])
  }

  function Threads(steps: seq<Step>): (r: seq<Happening>)
    ensures |r| == |steps|
  {
    if steps == [] then [] else [Thread(steps[0])] + Threads(steps[1..])
  }

  /** A run of the threads is a history. */
  lemma {:induction false} RunIsHistory(s: Settings, y: System, steps: seq<Step>)
    requires Run(s, y, steps)
    ensures History(s, y, Threads(steps)) && AfterHistory(s, y, Threads(steps)) == After(s, y, steps)
    decreases |steps|
  {
    hide Enabled, Next;
    if steps != [] {
      assert Threads(steps)[1..] == Threads(steps[1..]);
      RunIsHistory(s, Next(s, y, steps[0]), steps[1..]);
    }
  }

  lemma {:induction false} HistoryGrows(s: Settings, y: System, events: seq<Happening>, z: System, e: Happening)
    requires History(s, y, events) && AfterHistory(s, y, events) == z && MayHappen(s, z, e)
    ensures History(s, y, events + [e]) && AfterHistory(s, y, events + [e]) == Happened(s, z, e)
    decreases |events|
  {
    hide MayHappen, Happened;
    if events == [] {
      assert [] + [e] == [e] && [e][1..] == [];
    } else {
      assert (events + [e])[0] == events[0] && (events + [e])[1..] == events[1..] + [e];
      HistoryGrows(s, Happened(s, y, events[0]), events[1..], z, e);
    }
  }

  // ----- the exact condition

  /** After a reset a torrent waits for nothing if and only if it has no peers and no lookup left or running. */
  lemma ResetStrandsIff(s: Settings, c: Catalog, h: Hash)
    requires Indexed(s, c) && h in c.entries.m
    requires var e := At(c, c.entries.m[h]); e.state == Done && e.meta.None? && e.inDatabase
    ensures var e, c' := At(c, c.entries.m[h]), BaseReset(s, c, h);
            h in c'.entries.m && At(c', c'.entries.m[h]).state == Pending &&
            ((h !in c'.needsCheck.m && h !in c'.fetchable && h !in c'.needsLookup.m && !At(c', c'.entries.m[h]).looking) <==>
             (e.peers == [] && !e.looking && e.lookups >= s.maxLookups))
  {
    hide Indexed, Replaced, QueueDocument, Ordered, At, Live, Pop, ExactAt, Prepared, Fits, SetEntry;
    var id := c.entries.m[h];
    LiveHere(s, c, h);
    var e := At(c, id).(base := None, flushedSeen := 0, flushedAnnounced := 0);
    var c0 := SetEntry(c, id, e);
    BaseDropped(s, c, id, e);
    SetFields(c, id, e);
    QueuesOf(s, c0);
    var c1 := c0.(counters := Pop(c0.counters, h));
    FewerCounters(s, c0, Pop(c0.counters, h));
    CatalogMethods.SameHeap(c0, c1);
    var e1 := e.(inDatabase := false, checked := true, known := false, state := Pending);
    ReplaceLive(s, c1, h, e1);
    var c2 := Replaced(s, c1, id, e1);
    assert BaseReset(s, c, h) == c2;
    IndexedAt(s, c2, h);
    ExactHere(s, c2, h);
  }

  // ----- a torrent is looked up, fetched and written, and sighted once more

  function Tight1(): Settings {
    Settings(1, 1, 1, 1, 0.0)
  }

  function Seen(h: Hash): Entry {
    NewEntry(h, 0.0, true).(seen := 1)
  }

  function LookedUpEntry(h: Hash, p: Peer): Entry {
    Seen(h).(lookups := 1, peers := [p])
  }

  function StoredTorrent(h: Hash, p: Peer, meta: Metadata): Entry {
    StoredEntry(LookedUpEntry(h, p).(state := InProgress), meta)
  }

  /** Written, its one lookup used up, its peers released. */
  function WrittenTorrent(h: Hash, p: Peer, meta: Metadata): Entry {
    MarkedEntry(StoredTorrent(h, p, meta), SnapshotOf(0, StoredTorrent(h, p, meta)), NO_BASE, true)
  }

  lemma FirstSeen(s: Settings, y: System, h: Hash)
    requires y == NothingYet() && Sound(s, y)
    ensures var step := Record(h, false, None, 0.0, []); var y' := Next(s, y, step);
            Enabled(s, y, step) && y' == y.(cat := y'.cat) && Alone(y'.cat, Seen(h)) && y'.cat.documents == Empty()
  {
    hide Sound, Next, Enabled, Ordered, Indexed, Noted;
    RecordsInRoom(s, y, h, None, 0.0);
    Notes(s, y.cat, h, None, 0.0);
    var c1 := GotOrCreated(y.cat, h, 0.0).0;
    assert c1.entries == Dict([h], map[h := 0]);
    assert At(c1, 0) == NewEntry(h, 0.0, true);
  }

  lemma OnlyDue(s: Settings, c: Catalog, e: Entry)
    requires Indexed(s, c) && Alone(c, e) && NeedsLookup(s, e) && e.nextLookup <= 0.0
    ensures NewestDue(c, c.needsLookup.keys, 1, 0.0) == [e.hash]
  {
    hide Counted, Queued, At, NewestDue;
    assert ExactAt(s, c, e.hash);
    assert |map[e.hash := 0]| == 1;
    AllDue(s, c, 2, 0.0, e.hash);
    forall x | x in c.needsLookup.m ensures x == e.hash { assert ExactAt(s, c, x); }
    var keys := c.needsLookup.keys;
    OrderedSize(c.needsLookup);
    assert c.needsLookup.m.Keys == {e.hash};
    assert |keys| == |{e.hash}|;
    assert keys == [keys[0]] && keys[0] in keys;
    DueOne(c, keys, e.hash);
  }

  lemma DueOne(c: Catalog, keys: seq<Hash>, h: Hash)
    requires keys == [h] && IsDue(c, h, 0.0)
    ensures NewestDue(c, keys, 1, 0.0) == [h]
  {
    assert keys[..0] == [];
    assert NewestDue(c, keys[..0], 0, 0.0) == [];
  }

  lemma LookupClaimed(s: Settings, y: System, e: Entry)
    requires Sound(s, y) && Alone(y.cat, e) && NeedsLookup(s, e) && e.nextLookup <= 0.0
    ensures var step := ClaimLookups(1, 0.0); var y' := Next(s, y, step);
            Enabled(s, y, step) && y' == y.(cat := y'.cat, lookups := y.lookups + {e.hash}) && Alone(y'.cat, e.(looking := true)) && y'.cat.documents == y.cat.documents
  {
    hide Sound, Indexed, LookingEach, NewestDue, At, NeedsLookup;
    SoundParts(s, y);
    OnlyDue(s, y.cat, e);
    LookingEachIndexed(s, y.cat, [e.hash]);
    LookingFlags(s, y.cat, [e.hash]);
    LookingPending(s, y.cat, [e.hash]);
    AloneLive(y.cat, e);
  }

  lemma AloneLive(c: Catalog, e: Entry)
    requires Alone(c, e)
    ensures Live(c, 0) && e.hash in c.entries.m && c.entries.m[e.hash] == 0
  {
  }

  lemma {:induction false} LookingPending(s: Settings, c: Catalog, hashes: seq<Hash>)
    ensures LookingEach(s, c, hashes).maxPending == c.maxPending
    decreases |hashes|
  {
    hide At, Bump, Ordered, Without, SetAt, AwaitsCheck, CatalogSpec.Fetchable, NeedsLookup;
    if hashes != [] {
      if hashes[0] in c.entries.m {
        LookingPending(s, Replaced(s, c, c.entries.m[hashes[0]], At(c, c.entries.m[hashes[0]]).(looking := true)), hashes[1..]);
      } else {
        LookingPending(s, c, hashes[1..]);
      }
    }
  }

  lemma LookupEnds(s: Settings, y: System, h: Hash, p: Peer)
    requires Sound(s, y) && Alone(y.cat, Seen(h).(looking := true)) && h in y.lookups && s.maxLookups >= 1
    ensures var step := IndexThread.FinishLookup(h, [p], 0.0); var y' := Next(s, y, step);
            Enabled(s, y, step) && y' == y.(cat := y'.cat, lookups := y.lookups - {h}) && Alone(y'.cat, LookedUpEntry(h, p)) && y'.cat.documents == y.cat.documents
  {
    hide Sound, Indexed, LookupFinished, AfterLookup, At;
    SoundParts(s, y);
    var e := Seen(h).(looking := true);
    AloneLive(y.cat, e);
    FoundPeer(s, h, p);
    LookupFinishedIndexed(s, y.cat, h, [p], 0.0);
    FinishedFlags(s, y.cat, h, [p], 0.0);
    BecameAll(y.cat, LookupFinished(s, y.cat, h, [p], 0.0), 0, LookedUpEntry(h, p));
  }

  lemma FoundPeer(s: Settings, h: Hash, p: Peer)
    ensures AfterLookup(s, Seen(h).(looking := true), [p], 0.0) == LookedUpEntry(h, p)
  {
    hide RememberedKeys;
    OnlyOne([], p, s.maxPeers);
    var e := Seen(h).(lookups := 1);
    assert [p][1..] == [];
    assert AddPeers(s, e, [p]) == AddPeers(s, AddPeer(s, e, p), []);
  }

  lemma FinishedFlags(s: Settings, c: Catalog, h: Hash, peers: seq<Peer>, now: real)
    ensures LookupFinished(s, c, h, peers, now).maxPending == c.maxPending && LookupFinished(s, c, h, peers, now).checkDatabase == c.checkDatabase
  {
    hide At, Bump, Ordered, Without, SetAt, AwaitsCheck, CatalogSpec.Fetchable, NeedsLookup, AfterLookup;
  }

  lemma RowWritten(s: Settings, y: System, e: Entry, x: Snapshot)
    requires Alone(y.cat, e) && y.rows == map[] && y.phase == DocumentsOut([x]) && x.hash == e.hash && x.base.None?
    ensures var y' := Next(s, y, WriteDocuments);
            Enabled(s, y, WriteDocuments) && y' == y.(rows := y'.rows, phase := DocumentsToMark([x], [NO_BASE])) && e.hash in y'.rows
  {
    hide Alone;
    OneWritten(y.rows, y.phase.batch, x);
  }

  lemma TorrentMarked(s: Settings, y: System, e: Entry, x: Snapshot)
    requires Sound(s, y) && Alone(y.cat, e) && y.phase == DocumentsToMark([x], [NO_BASE]) && x.id == 0 && x.hash == e.hash && y.cat.documents == Empty()
    ensures var y' := Next(s, y, MarkDocument);
            Enabled(s, y, MarkDocument) && y' == y.(cat := y'.cat, phase := Idle) && Alone(y'.cat, MarkedEntry(e, x, NO_BASE, true)) && y'.cat.documents == Empty()
  {
    hide Sound, Indexed, EntriesOk, Claims, RowsExist, DocumentMarked, MarkedEntry, At;
    SoundParts(s, y);
    assert x in y.phase.batch;
    OutHere(y.cat, x);
    DocumentMarkedIndexed(s, y.cat, x, NO_BASE);
    MarkedFlags(y.cat, x, NO_BASE);
    AloneLive(y.cat, e);
    MarkedFields(e, x, NO_BASE, true);
    assert [x][1..] == [] && [NO_BASE][1..] == [];
    NoneQueued(DocumentMarked(y.cat, x, NO_BASE).documents);
  }

  lemma NoneQueued(d: RawDict<Hash, Id>)
    ensures d.keys == [] && d.m == map[] ==> d == Empty()
  {
  }

  /** The switches of the catalog, and that no document is queued. */
  predicate SameFlags(c: Catalog, c': Catalog) {
    c'.maxPending == c.maxPending && c'.checkDatabase == c.checkDatabase && (c.documents == Empty() ==> c'.documents == Empty())
  }

  lemma SetFlags(c: Catalog, id: Id, e: Entry)
    ensures SameFlags(c, SetEntry(c, id, e))
  {
    hide SetAt;
  }

  lemma UnqueuedFlags(c: Catalog, h: Hash, id: Id)
    ensures SameFlags(c, Unqueued(c, h, id))
  {
    hide Ordered, Without, SetDefault;
  }

  lemma ReleasedFlags(c: Catalog, id: Id)
    ensures SameFlags(c, MetadataReleased(c, id))
  {
    hide At, SetAt;
  }

  lemma MarkedFlags(c: Catalog, x: Snapshot, base: Base)
    ensures SameFlags(c, DocumentMarked(c, x, base))
  {
    hide At, SetEntry, Unqueued, MetadataReleased, FlushedBy;
    var e := FlushedBy(At(c, x.id), x);
    SetFlags(c, x.id, e);
    SetFlags(c, x.id, e.(base := Some(base)));
    var c1 := SetEntry(c, x.id, e.(base := Some(base)));
    UnqueuedFlags(c1, x.hash, x.id);
    ReleasedFlags(Unqueued(c1, x.hash, x.id), x.id);
  }

  function NewsTorrent(h: Hash, p: Peer, meta: Metadata): Entry {
    WrittenTorrent(h, p, meta).(seen := 2, lastSeen := 1.0)
  }

  lemma WrittenFields(h: Hash, p: Peer, meta: Metadata)
    requires meta.hash == h
    ensures var e, x := StoredTorrent(h, p, meta), SnapshotOf(0, StoredTorrent(h, p, meta));
            e.hash == h && x.hash == h && x.id == 0 && x.base.None? &&
            var w := WrittenTorrent(h, p, meta);
            w.hash == h && w.inDatabase && w.state == Done && w.base.Some? &&
            var n := NewsTorrent(h, p, meta);
            n.hash == h && n.state == Done && n.meta.None? && n.inDatabase && n.base.Some? && HasNews(n) && n.peers == [] && !n.looking && n.lookups == 1
  {
  }

  lemma SightedNews(s: Settings, h: Hash, p: Peer, meta: Metadata)
    requires meta.hash == h
    ensures Sighted(s, WrittenTorrent(h, p, meta), false, None, 1.0) == NewsTorrent(h, p, meta)
  {
  }

  /** Its counters are the only ones noted. */
  lemma CounterNoted(s: Settings, c: Catalog, h: Hash, id: Id)
    requires Indexed(s, c) && c.entries == Dict([h], map[h := id]) && h in c.counters.m
    ensures c.counters == Dict([h], map[h := id])
  {
    hide Counted, Queued, Placed, At;
    forall x | x in c.counters.m ensures x == h && c.counters.m[x] == id { assert ExactAt(s, c, x); }
    assert c.counters.m == map[h := id];
    OrderedSize(c.counters);
    assert c.counters.m.Keys == {h};
    assert |c.counters.keys| == |{h}|;
    assert c.counters.keys == [c.counters.keys[0]] && c.counters.keys[0] in c.counters.keys;
  }

  lemma NotesCounter(s: Settings, c: Catalog, h: Hash)
    requires h in c.entries.m && c.tracking && At(c, c.entries.m[h]).inDatabase
    ensures h in Noted(s, c, h, false, None, 1.0).counters.m
  {
    hide Bump, Ordered, Without, SetAt, AwaitsCheck, CatalogSpec.Fetchable, NeedsLookup, At, Replaced;
    ReindexKeepsTracking(s, c.(needsLookup := Pop(c.needsLookup, h), observations := c.observations + 1), c.entries.m[h], Sighted(s, At(c, c.entries.m[h]), false, None, 1.0));
  }

  lemma ReindexKeepsTracking(s: Settings, c: Catalog, id: Id, e: Entry)
    ensures Replaced(s, c, id, e).tracking == c.tracking
  {
    hide At, Bump, Ordered, Without, SetAt, AwaitsCheck, CatalogSpec.Fetchable, NeedsLookup;
  }

  lemma SightedOnce(s: Settings, y: System, h: Hash, p: Peer, meta: Metadata)
    requires Sound(s, y) && meta.hash == h && Alone(y.cat, WrittenTorrent(h, p, meta))
    ensures var step := Record(h, false, None, 1.0, []); var y' := Next(s, y, step);
            Enabled(s, y, step) && y' == y.(cat := y'.cat) && Alone(y'.cat, NewsTorrent(h, p, meta)) && y'.cat.counters == Dict([h], map[h := 0])
  {
    hide Sound, Next, Enabled, Ordered, Indexed, Noted, WrittenTorrent, NewsTorrent, Sighted;
    WrittenFields(h, p, meta);
    SightedNews(s, h, p, meta);
    assert |map[h := 0]| == 1;
    RecordsInRoom(s, y, h, None, 1.0);
    Notes(s, y.cat, h, None, 1.0);
    NotesCounter(s, y.cat, h);
    CounterNoted(s, Noted(s, y.cat, h, false, None, 1.0), h, 0);
  }

  /** Waits for nothing: no check, no fetch, no lookup. */
  predicate Stranded(y: System, h: Hash) {
    h in y.cat.entries.m && At(y.cat, y.cat.entries.m[h]).state == Pending && !At(y.cat, y.cat.entries.m[h]).looking &&
    h !in y.cat.needsCheck.m && h !in y.cat.fetchable && h !in y.cat.needsLookup.m
  }

  lemma WrittenRun(h: Hash, p: Peer, meta: Metadata) returns (steps: seq<Step>, z: System)
    requires meta.hash == h
    ensures Leads(Tight1(), NothingYet(), steps, z, h, 2) && Alone(z.cat, NewsTorrent(h, p, meta)) && z.phase == Idle && h in z.rows &&
            z.cat.counters == Dict([h], map[h := 0])
  {
    hide Leads, Enabled, Next, Alone, SnapshotOf, StoredTorrent, WrittenTorrent, NewsTorrent, LookedUpEntry, NeedsLookup;
    var s, y := Tight1(), NothingYet();
    NothingYetStarts();
    Begins(s, y, h);
    LeadsSound(s, y, [], y, h, 0);
    FirstSeen(s, y, h);
    var step := Record(h, false, None, 0.0, []);
    ThenStep(s, y, [], y, h, 0, step);
    steps, z := [] + [step], Next(s, y, step);
    LeadsSound(s, y, steps, z, h, 1);
    assert NeedsLookup(s, Seen(h)) by { SeenNeeds(s, h); }
    LookupClaimed(s, z, Seen(h));
    step := ClaimLookups(1, 0.0);
    ThenStep(s, y, steps, z, h, 1, step);
    steps, z := steps + [step], Next(s, z, step);
    LeadsSound(s, y, steps, z, h, 1);
    LookupEnds(s, z, h, p);
    step := IndexThread.FinishLookup(h, [p], 0.0);
    ThenStep(s, y, steps, z, h, 1, step);
    steps, z := steps + [step], Next(s, z, step);
    steps, z := FetchedAndWritten(s, steps, z, h, p, meta);
    LeadsSound(s, y, steps, z, h, 1);
    SightedOnce(s, z, h, p, meta);
    step := Record(h, false, None, 1.0, []);
    ThenStep(s, y, steps, z, h, 1, step);
    steps, z := steps + [step], Next(s, z, step);
  }

  lemma SeenNeeds(s: Settings, h: Hash)
    requires s.maxLookups >= 1
    ensures NeedsLookup(s, Seen(h))
  {
  }

  lemma LookedUpReady(h: Hash, p: Peer)
    ensures var e := LookedUpEntry(h, p); e.hash == h && e.state == Pending && e.checked && e.peers != []
  {
  }

  lemma FetchedAndWritten(s: Settings, before: seq<Step>, y1: System, h: Hash, p: Peer, meta: Metadata) returns (steps: seq<Step>, z: System)
    requires Leads(s, NothingYet(), before, y1, h, 1) && Alone(y1.cat, LookedUpEntry(h, p)) && y1.rows == map[] && y1.phase == Idle
    requires y1.cat.documents == Empty() && meta.hash == h
    ensures Leads(s, NothingYet(), steps, z, h, 1) && Alone(z.cat, WrittenTorrent(h, p, meta)) && z.phase == Idle && h in z.rows
  {
    hide Leads, Enabled, Next, Alone, SnapshotOf, StoredTorrent, WrittenTorrent, NewsTorrent, LookedUpEntry;
    var y := NothingYet();
    steps, z := before, y1;
    LeadsSound(s, y, steps, z, h, 1);
    LookedUpReady(h, p);
    WrittenFields(h, p, meta);
    Claimed(s, z, LookedUpEntry(h, p));
    ThenStep(s, y, steps, z, h, 1, ClaimFetches([0], 1));
    steps, z := steps + [ClaimFetches([0], 1)], Next(s, z, ClaimFetches([0], 1));
    LeadsSound(s, y, steps, z, h, 1);
    StoredAlone(s, z, LookedUpEntry(h, p).(state := InProgress), meta);
    StoredIs(h, p, meta);
    ThenStep(s, y, steps, z, h, 1, StoreMetadata(meta, 0.0));
    steps, z := steps + [StoreMetadata(meta, 0.0)], Next(s, z, StoreMetadata(meta, 0.0));
    LeadsSound(s, y, steps, z, h, 1);
    var e, x := StoredTorrent(h, p, meta), SnapshotOf(0, StoredTorrent(h, p, meta));
    DocumentTaken(s, z, e);
    ThenStep(s, y, steps, z, h, 1, DrainDocuments(1));
    steps, z := steps + [DrainDocuments(1)], Next(s, z, DrainDocuments(1));
    RowWritten(s, z, e, x);
    ThenStep(s, y, steps, z, h, 1, WriteDocuments);
    steps, z := steps + [WriteDocuments], Next(s, z, WriteDocuments);
    LeadsSound(s, y, steps, z, h, 1);
    TorrentMarked(s, z, e, x);
    WrittenIs(h, p, meta);
    ThenStep(s, y, steps, z, h, 1, MarkDocument);
    steps, z := steps + [MarkDocument], Next(s, z, MarkDocument);
  }

  lemma StoredIs(h: Hash, p: Peer, meta: Metadata)
    ensures StoredTorrent(h, p, meta) == StoredEntry(LookedUpEntry(h, p).(state := InProgress), meta)
  {
  }

  lemma WrittenIs(h: Hash, p: Peer, meta: Metadata)
    ensures WrittenTorrent(h, p, meta) == MarkedEntry(StoredTorrent(h, p, meta), SnapshotOf(0, StoredTorrent(h, p, meta)), NO_BASE, true)
  {
  }

  // ----- its row is deleted

  /** After d: its counters taken. */
  function Taken(d: System, e: Entry): System {
    d.(cat := d.cat.(counters := Empty()), phase := CountersOut([SnapshotOf(0, e)]))
  }

  lemma CounterTaken(s: Settings, d: System, h: Hash, e: Entry)
    requires Indexed(s, d.cat) && Alone(d.cat, e) && d.phase == Idle && d.cat.counters == Dict([h], map[h := 0]) && e.base.Some? && HasNews(e)
    ensures MayHappen(s, d, Thread(DrainCounters(1))) && Happened(s, d, Thread(DrainCounters(1))) == Taken(d, e)
  {
    hide Indexed, AllCountersDrained, SnapshotOf, HasNews, At;
    W.DrainOne(s, d.cat, h, 0, e);
  }

  lemma RowNotFound(s: Settings, d: System, e: Entry)
    requires e.hash !in d.rows
    ensures MayHappen(s, Taken(d, e), Thread(WriteCounters))
    ensures Happened(s, Taken(d, e), Thread(WriteCounters)) == Taken(d, e).(phase := CountersToMark([SnapshotOf(0, e)], [e.hash]))
  {
    hide SnapshotOf, MissingFrom, CountersWritten;
    SnapshotHash(e);
    RowGone(d.rows, [SnapshotOf(0, e)], SnapshotOf(0, e));
  }

  lemma NothingMarked(s: Settings, d: System, e: Entry)
    ensures var y := Taken(d, e).(phase := CountersToMark([SnapshotOf(0, e)], [e.hash]));
            MayHappen(s, y, Thread(MarkCounters)) && Happened(s, y, Thread(MarkCounters)) == Taken(d, e).(phase := ToReset([e.hash]))
  {
    hide SnapshotOf, NotMissing;
    SnapshotHash(e);
    NoneMarked([SnapshotOf(0, e)], [e.hash], SnapshotOf(0, e));
  }

  lemma LeftStranded(s: Settings, d: System, h: Hash, e: Entry)
    requires Indexed(s, d.cat) && Alone(d.cat, e) && e.hash == h
    requires e.state == Done && e.meta.None? && e.inDatabase && e.peers == [] && !e.looking && e.lookups >= s.maxLookups
    ensures var y := Taken(d, e).(phase := ToReset([h]));
            MayHappen(s, y, Thread(ResetMissing)) && Stranded(Happened(s, y, Thread(ResetMissing)), h) && Happened(s, y, Thread(ResetMissing)).phase == Idle
  {
    hide Indexed, BaseReset, SnapshotOf, At;
    var c1 := d.cat.(counters := Empty());
    FewerCounters(s, d.cat, Empty());
    CatalogMethods.SameHeap(d.cat, c1);
    AloneLive(d.cat, e);
    ResetStrandsIff(s, c1, h);
  }

  /** Drained, not found by the write, and reset. */
  lemma ResetRun(s: Settings, d: System, h: Hash, e: Entry) returns (events: seq<Happening>)
    requires Indexed(s, d.cat) && Alone(d.cat, e) && d.phase == Idle && e.hash == h && h !in d.rows && d.cat.counters == Dict([h], map[h := 0])
    requires e.state == Done && e.meta.None? && e.inDatabase && e.base.Some? && HasNews(e) && e.peers == [] && !e.looking && e.lookups >= s.maxLookups
    ensures events == [Thread(DrainCounters(1)), Thread(WriteCounters), Thread(MarkCounters), Thread(ResetMissing)]
    ensures History(s, d, events) && Stranded(AfterHistory(s, d, events), h) && AfterHistory(s, d, events).phase == Idle
  {
    hide Indexed, SnapshotOf, HasNews, Alone, Taken, MayHappen, Happened, Stranded;
    CounterTaken(s, d, h, e);
    RowNotFound(s, d, e);
    NothingMarked(s, d, e);
    LeftStranded(s, d, h, e);
    var d2, d3 := Taken(d, e).(phase := CountersToMark([SnapshotOf(0, e)], [e.hash])), Taken(d, e).(phase := ToReset([e.hash]));
    events := [Thread(DrainCounters(1)), Thread(WriteCounters), Thread(MarkCounters), Thread(ResetMissing)];
    FourEvents(s, d, Taken(d, e), d2, d3, Happened(s, d3, Thread(ResetMissing)), events);
  }

  lemma FourEvents(s: Settings, d: System, d1: System, d2: System, d3: System, d4: System, events: seq<Happening>)
    requires |events| == 4 && MayHappen(s, d, events[0]) && Happened(s, d, events[0]) == d1 && MayHappen(s, d1, events[1]) && Happened(s, d1, events[1]) == d2
    requires MayHappen(s, d2, events[2]) && Happened(s, d2, events[2]) == d3 && MayHappen(s, d3, events[3]) && Happened(s, d3, events[3]) == d4
    ensures History(s, d, events) && AfterHistory(s, d, events) == d4
  {
    hide MayHappen, Happened;
    assert events[1..][0] == events[1] && events[1..][1..] == events[2..] && events[2..][0] == events[2] && events[2..][1..] == events[3..];
    assert events[3..][0] == events[3] && events[3..][1..] == [];
    assert AfterHistory(s, d3, events[3..]) == AfterHistory(s, d4, []);
    assert AfterHistory(s, d2, events[2..]) == AfterHistory(s, d3, events[3..]);
    assert AfterHistory(s, d1, events[1..]) == AfterHistory(s, d2, events[2..]);
    assert History(s, d3, events[3..]) && History(s, d2, events[2..]) && History(s, d1, events[1..]);
  }

  lemma SnapshotHash(e: Entry)
    ensures SnapshotOf(0, e).hash == e.hash
  {
  }

  lemma RowGone(rows: Rows, batch: seq<Snapshot>, x: Snapshot)
    requires batch == [x] && x.hash !in rows
    ensures CountersWritten(rows, batch) == rows && MissingFrom(rows, batch) == [x.hash]
  {
    assert batch[1..] == [];
    assert CountersWritten(rows, batch) == CountersWritten(CounterWritten(rows, x), []);
  }

  lemma NoneMarked(batch: seq<Snapshot>, missing: seq<Hash>, x: Snapshot)
    requires batch == [x] && missing == [x.hash]
    ensures NotMissing(batch, missing) == []
  {
    assert batch[1..] == [];
  }

  /** From a start, with lookups allowed, and one row deleted on the way: the torrent ends up waiting for nothing. */
  lemma TorrentStranded(h: Hash, p: Peer, meta: Metadata) returns (events: seq<Happening>)
    requires meta.hash == h
    ensures var s, y := Tight1(), NothingYet();
            s.maxLookups >= 1 && Start(y) && History(s, y, events) && Stranded(AfterHistory(s, y, events), h) && AfterHistory(s, y, events).phase == Idle
    ensures exists before: seq<Step>, rest: seq<Step> :: events == Threads(before) + [RowDeleted(h)] + Threads(rest)
  {
    hide Leads, Enabled, Next, Alone, NewsTorrent, WrittenTorrent, Stranded, History, AfterHistory, Run, After, Start, RecordedIn;
    var s, y := Tight1(), NothingYet();
    var steps, z := WrittenRun(h, p, meta);
    Led(s, y, steps, z, h, 2);
    LeadsSound(s, y, steps, z, h, 2);
    SoundParts(s, z);
    RunIsHistory(s, y, steps);
    HistoryGrows(s, y, Threads(steps), z, RowDeleted(h));
    var d := z.(rows := z.rows - {h});
    WrittenFields(h, p, meta);
    var rest := ResetRun(s, d, h, NewsTorrent(h, p, meta));
    events := Threads(steps) + [RowDeleted(h)] + rest;
    HistoryJoins(s, y, Threads(steps) + [RowDeleted(h)], rest);
    var last := [DrainCounters(1), WriteCounters, MarkCounters, ResetMissing];
    FourThreads(last);
    assert events == Threads(steps) + [RowDeleted(h)] + Threads(last);
  }

  lemma FourThreads(steps: seq<Step>)
    requires |steps| == 4
    ensures Threads(steps) == [Thread(steps[0]), Thread(steps[1]), Thread(steps[2]), Thread(steps[3])]
  {
    assert steps[1..][0] == steps[1] && steps[1..][1..] == steps[2..] && steps[2..][0] == steps[2] && steps[2..][1..] == steps[3..];
    assert steps[3..][0] == steps[3] && steps[3..][1..] == [];
    assert Threads(steps[3..]) == [Thread(steps[3])] + Threads([]);
    assert Threads(steps[2..]) == [Thread(steps[2])] + Threads(steps[3..]);
    assert Threads(steps[1..]) == [Thread(steps[1])] + Threads(steps[2..]);
  }

  lemma {:induction false} HistoryJoins(s: Settings, y: System, a: seq<Happening>, b: seq<Happening>)
    requires History(s, y, a) && History(s, AfterHistory(s, y, a), b)
    ensures History(s, y, a + b) && AfterHistory(s, y, a + b) == AfterHistory(s, AfterHistory(s, y, a), b)
    decreases |a|
  {
    hide MayHappen, Happened;
    if a == [] {
      assert a + b == b;
    } else {
      assert (a + b)[0] == a[0] && (a + b)[1..] == a[1..] + b;
      HistoryJoins(s, Happened(s, y, a[0]), a[1..], b);
    }
  }
}
