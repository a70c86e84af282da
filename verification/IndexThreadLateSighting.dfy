/**
 * A run that leaves a row one sighting short: a torrent is drained as a document, sighted again and evicted before its
 * document is marked. Its entry was never written before, so it is not made an orphan, and the sighting is in no queue.
 */
module IndexThreadLateSighting {
  import opened ByteStrings
  import opened BoundedRecentMap
  import opened NodeIdentity
  import opened CatalogSpec
  import opened CatalogIndexes
  import opened CatalogMethods
  import opened CatalogFlushing
  import opened CatalogEviction
  import opened CatalogEntries
  import opened IndexThread
  import opened IndexThreadSafety
  import opened IndexThreadCounts
  import opened IndexThreadFlow
  import opened IndexThreadResults
  import opened IndexThreadLosses

  // ----- runs that grow at their end

  /** A run from a start leads to z and records n sightings of h. */
  ghost predicate Leads(s: Settings, y: System, steps: seq<Step>, z: System, h: Hash, n: nat) {
    Start(y) && Run(s, y, steps) && After(s, y, steps) == z && RecordedIn(steps, h, Sightings) == n && Sound(s, z)
  }

  lemma {:induction false} RecordedJoin(a: seq<Step>, b: seq<Step>, h: Hash)
    ensures RecordedIn(a + b, h, Sightings) == RecordedIn(a, h, Sightings) + RecordedIn(b, h, Sightings)
    decreases |a|
  {
    hide Recorded1;
    if a == [] {
      assert a + b == b;
    } else {
      assert (a + b)[0] == a[0] && (a + b)[1..] == a[1..] + b;
      RecordedJoin(a[1..], b, h);
    }
  }

  lemma ThenStep(s: Settings, y: System, steps: seq<Step>, z: System, h: Hash, n: nat, step: Step)
    requires Leads(s, y, steps, z, h, n) && Enabled(s, z, step)
    ensures Leads(s, y, steps + [step], Next(s, z, step), h, n + Recorded1(step, h, Sightings))
  {
    hide Sound, Enabled, Next, Start, Recorded1;
    OneStep(s, z, step);
    RunJoin(s, y, steps, [step]);
    RecordedJoin(steps, [step], h);
    assert [step][1..] == [];
  }

  lemma Begins(s: Settings, y: System, h: Hash)
    requires Start(y)
    ensures Leads(s, y, [], y, h, 0)
  {
    hide Sound, Start;
    StartSound(s, y);
  }

  // ----- recording when there is room

  /** What a sighting does before anything is evicted. */
  lemma Notes(s: Settings, c: Catalog, h: Hash, peer: Option<Peer>, now: real)
    requires Indexed(s, c)
    ensures var c' := Noted(s, c, h, false, peer, now);
            var (c1, id) := GotOrCreated(c, h, now);
            c'.entries == c1.entries && |c'.heap| == |c1.heap| && id < |c1.heap| &&
            At(c', id) == Sighted(s, At(c1, id), false, peer, now) && (forall j: Id :: j != id ==> At(c', j) == At(c1, j)) &&
            c'.documents == c.documents && c'.orphans == c.orphans && c'.tracking == c.tracking &&
            c'.maxPending == c.maxPending && c'.checkDatabase == c.checkDatabase && Indexed(s, c') &&
            |c'.entries.m| <= |c.entries.m| + (if h in c.entries.m then 0 else 1)
  {
    hide Noted, Indexed, Sighted, At, Live, Became, GotOrCreated;
    NotedIndexed(s, c, h, false, peer, now);
    NotedSize(s, c, h, false, peer, now);
    NotedFlags(s, c, h, false, peer, now);
    NotedOrphans(s, c, h, false, peer, now);
    var (c1, id) := GotOrCreated(c, h, now);
    CreatedQueues(c, h, now);
    BecameAll(c1, Noted(s, c, h, false, peer, now), id, Sighted(s, At(c1, id), false, peer, now));
  }

  /** When there is room that is all. */
  lemma RecordsInRoom(s: Settings, y: System, h: Hash, peer: Option<Peer>, now: real)
    requires Sound(s, y) && |y.cat.entries.m| + (if h in y.cat.entries.m then 0 else 1) <= s.maxEntries
    ensures var step := Record(h, false, peer, now, []);
            Enabled(s, y, step) && Next(s, y, step) == y.(cat := Noted(s, y.cat, h, false, peer, now)) && Indexed(s, y.cat)
  {
    hide Sound, Noted, Indexed, Sighted, At, Live, Became, GotOrCreated;
    SoundParts(s, y);
    Notes(s, y.cat, h, peer, now);
  }

  lemma BecameAll(c: Catalog, c': Catalog, id: Id, e: Entry)
    requires Became(c, c', id, e)
    ensures c'.entries == c.entries && |c'.heap| == |c.heap| && At(c', id) == e && (forall j: Id :: j != id ==> At(c', j) == At(c, j)) &&
            c'.documents == c.documents && c'.orphans == c.orphans && c'.tracking == c.tracking
  {
  }

  lemma CreatedQueues(c: Catalog, h: Hash, now: real)
    ensures var c1 := GotOrCreated(c, h, now).0; c1.documents == c.documents && c1.tracking == c.tracking
  {
    hide Bump, Ordered;
  }

  lemma NotedFlags(s: Settings, c: Catalog, h: Hash, announce: bool, peer: Option<Peer>, now: real)
    ensures var c' := Noted(s, c, h, announce, peer, now); c'.maxPending == c.maxPending && c'.checkDatabase == c.checkDatabase
  {
    hide Sighted, At, Bump, Ordered, Without, SetAt, AwaitsCheck, CatalogSpec.Fetchable, NeedsLookup;
  }

  // ----- one torrent is fetched and its document drained

  /** The only entry in memory is e, at the first place. */
  predicate Alone(c: Catalog, e: Entry) {
    |c.heap| == 1 && At(c, 0) == e && c.entries == Dict([e.hash], map[e.hash := 0]) && c.orphans == [] && c.tracking && c.maxPending >= 1 && !c.checkDatabase
  }

  function Fresh(h: Hash, p: Peer): Entry {
    NewEntry(h, 0.0, true).(seen := 1, peers := [p])
  }

  function NothingYet(): System {
    System(TrackingEnabled(Blank(), 1, false), map[], Idle, {}, {})
  }

  lemma NothingYetStarts()
    ensures Start(NothingYet())
  {
  }

  lemma FirstRecord(s: Settings, y: System, h: Hash, p: Peer)
    requires y == NothingYet() && Sound(s, y)
    ensures var step := Record(h, false, Some(p), 0.0, []); var y' := Next(s, y, step);
            Enabled(s, y, step) && y' == y.(cat := y'.cat) && Alone(y'.cat, Fresh(h, p)) && y'.cat.documents == Empty()
  {
    hide Sound, Next, Enabled, Sighted, Ordered, Indexed;
    RecordsInRoom(s, y, h, Some(p), 0.0);
    Notes(s, y.cat, h, Some(p), 0.0);
    FirstSighted(s, h, p);
    var c1 := GotOrCreated(y.cat, h, 0.0).0;
    assert c1.entries == Dict([h], map[h := 0]);
    assert At(c1, 0) == NewEntry(h, 0.0, true);
  }

  lemma FirstSighted(s: Settings, h: Hash, p: Peer)
    ensures Sighted(s, NewEntry(h, 0.0, true), false, Some(p), 0.0) == Fresh(h, p)
  {
    hide RememberedKeys;
    OnlyOne([], p, s.maxPeers);
  }

  lemma OnlyOne(keys: seq<Peer>, p: Peer, limit: nat)
    requires keys == [] && limit >= 1
    ensures RememberedKeys(keys, p, limit) == [p]
  {
    hide RememberedKeys;
    var r := RememberedKeys(keys, p, limit);
    assert Distinct(keys);
    forall x ensures x in r <==> x in {p} {}
    DistinctSize(r, {p});
    assert r == [r[0]];
    assert r[0] in r;
  }

  lemma OnlyHere(s: Settings, c: Catalog, e: Entry)
    requires Indexed(s, c) && Alone(c, e) && e.state == Pending && e.checked && e.peers != []
    ensures c.fetchable == map[e.hash := 0] && TopCandidates(c, [0], 1)
  {
    hide Counted, Queued, Placed, InOrder, RanksBelow;
    assert ExactAt(s, c, e.hash);
    forall x | x in c.fetchable ensures x == e.hash && c.fetchable[x] == 0 { assert ExactAt(s, c, x); }
    assert c.fetchable == map[e.hash := 0];
    assert c.fetchable.Keys == {e.hash};
    assert |c.fetchable| == |{e.hash}|;
  }

  lemma Claimed(s: Settings, y: System, e: Entry)
    requires Sound(s, y) && Alone(y.cat, e) && e.state == Pending && e.checked && e.peers != []
    ensures var step := ClaimFetches([0], 1); var y' := Next(s, y, step);
            Enabled(s, y, step) && y' == y.(cat := y'.cat, jobs := y.jobs + {e.hash}) && Alone(y'.cat, e.(state := InProgress)) && y'.cat.documents == y.cat.documents
  {
    hide Sound, Indexed, FetchingEach, TopCandidates, RanksBelow;
    SoundParts(s, y);
    OnlyHere(s, y.cat, e);
    CandidatesHere(s, y.cat, [0], 1);
    FetchingEachIndexed(s, y.cat, [0]);
    FetchingFlags(s, y.cat, [0]);
    assert 0 in [0];
    assert HashesOf(y.cat, [0]) == {e.hash};
  }

  lemma {:induction false} FetchingFlags(s: Settings, c: Catalog, ids: seq<Id>)
    ensures FetchingEach(s, c, ids).maxPending == c.maxPending && FetchingEach(s, c, ids).checkDatabase == c.checkDatabase
    decreases |ids|
  {
    hide At, Bump, Ordered, Without, SetAt, AwaitsCheck, CatalogSpec.Fetchable, NeedsLookup;
    if ids != [] { FetchingFlags(s, Replaced(s, c, ids[0], At(c, ids[0]).(state := InProgress)), ids[1..]); }
  }

  lemma StoredAlone(s: Settings, y: System, e: Entry, meta: Metadata)
    requires Sound(s, y) && Alone(y.cat, e) && meta.hash == e.hash && e.hash in y.jobs && y.cat.documents == Empty()
    ensures var step := StoreMetadata(meta, 0.0); var y' := Next(s, y, step);
            Enabled(s, y, step) && y' == y.(cat := y'.cat, jobs := y.jobs - {e.hash}) && Alone(y'.cat, StoredEntry(e, meta)) &&
            y'.cat.documents == Dict([e.hash], map[e.hash := 0])
  {
    hide Sound, Ordered, Without, Bump, Reindexed;
    var c := y.cat;
    var e2 := StoredEntry(e, meta);
    var c1 := c.(fetched := c.fetched[meta.hash := 0]);
    var c2 := Replaced(s, c1, 0, e2);
    ReindexKeeps(s, Moved(c1, 0, e2), 0);
    ReindexFlags(s, Moved(c1, 0, e2), 0);
    assert At(c2, 0) == e2 && c2.documents == Empty();
    assert |map[e.hash := 0]| == 1;
    assert QueueDocument(s, c2, 0) == WithDocument(c2, e.hash, 0);
  }

  lemma ReindexFlags(s: Settings, c: Catalog, id: Id)
    ensures Reindexed(s, c, id).maxPending == c.maxPending && Reindexed(s, c, id).checkDatabase == c.checkDatabase
  {
    hide At, Ordered, Without, AwaitsCheck, CatalogSpec.Fetchable, NeedsLookup;
  }

  lemma DocumentTaken(s: Settings, y: System, e: Entry)
    requires Sound(s, y) && Alone(y.cat, e) && y.phase == Idle && y.cat.documents == Dict([e.hash], map[e.hash := 0])
    ensures var step := DrainDocuments(1); var y' := Next(s, y, step);
            Enabled(s, y, step) && y' == y.(cat := y'.cat, phase := DocumentsOut([SnapshotOf(0, e)])) && Alone(y'.cat, e) && y'.cat.documents == Empty()
  {
    hide Sound, SnapshotOf;
    assert From(y.cat.documents, 1) == Empty();
    assert SnapshotsOf(y.cat, y.cat.documents, 1) == [SnapshotOf(0, e)];
  }

  // ----- it is sighted again, and others fill the catalog

  /** The entry fetched, its document drained after one sighting. */
  function FetchedEntry(h: Hash, p: Peer, meta: Metadata): Entry {
    StoredEntry(Fresh(h, p).(state := InProgress), meta)
  }

  function SeenTwice(h: Hash, p: Peer, meta: Metadata): Entry {
    FetchedEntry(h, p, meta).(seen := 2, lastSeen := 1.0)
  }

  function Other(h: Hash, j: nat): Entry {
    NewEntry(h + j, 1.0, true).(seen := 1)
  }

  /** Torrent h at the first place, i others behind it, all in memory, and document x with the index thread. */
  ghost predicate Crowd(y: System, h: Hash, d: Entry, i: nat, x: Snapshot) {
    d.hash == h && |y.cat.heap| == i + 1 && |y.cat.entries.m| == i + 1 && AllLive(y.cat) && At(y.cat, 0) == d &&
    (forall j: Id :: 1 <= j <= i ==> At(y.cat, j) == Other(h, j)) && y.cat.orphans == [] && y.cat.documents == Empty() && y.cat.tracking && !y.cat.checkDatabase &&
    y.rows == map[] && y.phase == DocumentsOut([x])
  }

  lemma SeenAgain(s: Settings, y: System, h: Hash, p: Peer, meta: Metadata, x: Snapshot)
    requires Sound(s, y) && meta.hash == h && Alone(y.cat, FetchedEntry(h, p, meta)) && y.rows == map[] && y.phase == DocumentsOut([x]) && y.cat.documents == Empty()
    ensures var step := Record(h, false, None, 1.0, []);
            Enabled(s, y, step) && Crowd(Next(s, y, step), h, SeenTwice(h, p, meta), 0, x)
  {
    hide Sound, Next, Enabled, Ordered, Indexed, Noted;
    assert |map[h := 0]| == 1;
    RecordsInRoom(s, y, h, None, 1.0);
    Notes(s, y.cat, h, None, 1.0);
  }

  lemma OneMoreOther(s: Settings, y: System, h: Hash, d: Entry, i: nat, x: Snapshot)
    requires Sound(s, y) && Crowd(y, h, d, i, x) && i + 2 <= s.maxEntries
    ensures var step := Record(h + i + 1, false, None, 1.0, []);
            Enabled(s, y, step) && Crowd(Next(s, y, step), h, d, i + 1, x)
  {
    hide Sound, Next, Enabled, Crowd, Noted, Indexed, At, Placed, Put, AllLive;
    var g := h + i + 1;
    OtherNoted(s, y, h, d, i, x);
    CrowdSize(y, h, d, i, x);
    RecordsInRoom(s, y, g, None, 1.0);
  }

  lemma CrowdSize(y: System, h: Hash, d: Entry, i: nat, x: Snapshot)
    requires Crowd(y, h, d, i, x)
    ensures |y.cat.entries.m| == i + 1 && |y.cat.heap| == i + 1 && y.phase == DocumentsOut([x])
  {
    hide At, AllLive;
  }

  /** The catalog after one more torrent was seen, before anything is evicted. */
  lemma OtherNoted(s: Settings, y: System, h: Hash, d: Entry, i: nat, x: Snapshot)
    requires Sound(s, y) && Crowd(y, h, d, i, x)
    ensures var c' := Noted(s, y.cat, h + i + 1, false, None, 1.0);
            Crowd(y.(cat := c'), h, d, i + 1, x) && c'.entries == Put(y.cat.entries, h + i + 1, i + 1) && Indexed(s, c') && h + i + 1 !in y.cat.entries.m
  {
    hide Sound, Ordered, Indexed, Noted, At, Live, Sighted, AllLive, GotOrCreated;
    var g := h + i + 1;
    SoundParts(s, y);
    OtherIsNew(y, h, d, i, x);
    Notes(s, y.cat, g, None, 1.0);
    CreatedFields(y.cat, g, 1.0);
    SightedOther(s, h, i + 1);
    CrowdGrows(y.cat, Noted(s, y.cat, g, false, None, 1.0), g);
  }

  lemma SightedOther(s: Settings, h: Hash, j: nat)
    ensures Sighted(s, NewEntry(h + j, 1.0, true), false, None, 1.0) == Other(h, j)
  {
  }

  lemma OtherIsNew(y: System, h: Hash, d: Entry, i: nat, x: Snapshot)
    requires Placed(y.cat) && Crowd(y, h, d, i, x)
    ensures h + i + 1 !in y.cat.entries.m
  {
    hide Ordered, Live, At, AllLive;
    var g := h + i + 1;
    forall j: Id | j < |y.cat.heap| ensures At(y.cat, j).hash != g {
      if j > 0 { assert At(y.cat, j) == Other(h, j); }
    }
  }

  lemma CrowdGrows(c: Catalog, c': Catalog, g: Hash)
    requires AllLive(c) && g !in c.entries.m && c'.entries == Put(c.entries, g, |c.heap|) && |c'.heap| == |c.heap| + 1
    requires At(c', |c.heap|).hash == g && forall j: Id :: j < |c.heap| ==> At(c', j) == At(c, j)
    ensures AllLive(c') && |c'.entries.m| == |c.entries.m| + 1
  {
    hide At, Ordered;
    forall id: Id | id < |c'.heap| ensures Live(c', id) { if id < |c.heap| { assert Live(c, id); } }
    assert c'.entries.m.Keys == c.entries.m.Keys + {g};
    assert |c'.entries.m.Keys| == |c.entries.m.Keys| + 1;
  }

  lemma {:induction false} Fills(s: Settings, y0: System, steps: seq<Step>, y: System, h: Hash, n: nat, d: Entry, i: nat, x: Snapshot, upTo: nat)
    returns (steps': seq<Step>, z: System)
    requires Leads(s, y0, steps, y, h, n) && Crowd(y, h, d, i, x) && i <= upTo && upTo + 1 <= s.maxEntries
    ensures Leads(s, y0, steps', z, h, n) && Crowd(z, h, d, upTo, x)
    decreases upTo - i
  {
    hide Leads, Crowd, Enabled, Next;
    steps', z := steps, y;
    if i < upTo {
      LeadsSound(s, y0, steps, y, h, n);
      OneMoreOther(s, y, h, d, i, x);
      var step := Record(h + i + 1, false, None, 1.0, []);
      ThenStep(s, y0, steps, y, h, n, step);
      steps', z := Fills(s, y0, steps + [step], Next(s, y, step), h, n, d, i + 1, x, upTo);
    }
  }

  lemma LeadsSound(s: Settings, y: System, steps: seq<Step>, z: System, h: Hash, n: nat)
    requires Leads(s, y, steps, z, h, n)
    ensures Sound(s, z)
  {
  }

  // ----- the others' lookups are claimed, so that only torrent h and the newest can be evicted

  lemma {:induction false} DueAtMost(c: Catalog, keys: seq<Hash>, limit: nat, now: real)
    ensures |NewestDue(c, keys, limit, now)| <= |keys|
    decreases |keys|
  {
    hide At;
    if keys != [] && limit > 0 {
      DueAtMost(c, keys[..|keys| - 1], limit - 1, now);
      DueAtMost(c, keys[..|keys| - 1], limit, now);
    }
  }

  /** With a limit above the number of torrents waiting, every due one is claimed. */
  lemma AllDue(s: Settings, c: Catalog, limit: nat, now: real, h: Hash)
    requires Indexed(s, c) && limit > |c.entries.m| && IsDue(c, h, now)
    ensures h in NewestDue(c, c.needsLookup.keys, limit, now)
  {
    hide Counted, Queued, At, NewestDue;
    var keys := c.needsLookup.keys;
    assert h in keys;
    var i :| 0 <= i < |keys| && keys[i] == h;
    DueAtMost(c, keys, limit, now);
    FewerWaiting(s, c);
    if h !in NewestDue(c, keys, limit, now) { NewestDueFirst(c, keys, limit, now, i); }
  }

  lemma FewerWaiting(s: Settings, c: Catalog)
    requires Indexed(s, c)
    ensures |c.needsLookup.keys| <= |c.entries.m|
  {
    hide Counted, Queued, At, Placed;
    OrderedSize(c.needsLookup);
    forall h | h in c.needsLookup.m ensures h in c.entries.m { assert ExactAt(s, c, h); }
    Subset(c.needsLookup.m.Keys, c.entries.m.Keys);
  }

  lemma Subset(a: set<Hash>, b: set<Hash>)
    requires a <= b
    ensures |a| <= |b|
  {
    assert b == a + (b - a);
  }

  /** Torrent h can be evicted, the others not. */
  ghost predicate CrowdLooking(y: System, h: Hash, d: Entry, i: nat, x: Snapshot) {
    d.hash == h && |y.cat.heap| == i + 1 && |y.cat.entries.m| == i + 1 && AllLive(y.cat) && At(y.cat, 0) == d &&
    (forall j: Id :: 1 <= j <= i ==> At(y.cat, j) == Other(h, j).(looking := true)) && y.cat.orphans == [] && y.cat.documents == Empty() &&
    y.cat.tracking && !y.cat.checkDatabase && y.rows == map[] && y.phase == DocumentsOut([x])
  }

  lemma OthersLooking(s: Settings, y: System, h: Hash, d: Entry, i: nat, x: Snapshot, limit: nat)
    requires Sound(s, y) && Crowd(y, h, d, i, x) && limit > i + 1 && s.maxLookups >= 1 && d.state == Done
    ensures var step := ClaimLookups(limit, 1.0);
            Enabled(s, y, step) && CrowdLooking(Next(s, y, step), h, d, i, x)
  {
    hide Sound, Indexed, At, Live, NewestDue, LookingEach;
    SoundParts(s, y);
    var c := y.cat;
    var due := NewestDue(c, c.needsLookup.keys, limit, 1.0);
    LookingEachIndexed(s, c, due);
    LookingFlags(s, c, due);
    var c' := LookingEach(s, c, due);
    forall j: Id | 1 <= j <= i ensures At(c', j) == Other(h, j).(looking := true) {
      assert Live(c, j) && At(c, j) == Other(h, j);
      OtherDue(s, c, h, j);
      AllDue(s, c, limit, 1.0, At(c, j).hash);
    }
    NotDue(s, c, limit, 1.0, d);
    forall id: Id | id < |c'.heap| ensures Live(c', id) { assert Live(c, id); LookingHash(At(c, id), At(c', id)); SteadyLive(c, c', id); }
  }

  lemma LookingHash(e: Entry, e': Entry)
    ensures e' == e || e' == e.(looking := true) ==> e'.hash == e.hash
  {
  }

  lemma OtherDue(s: Settings, c: Catalog, h: Hash, j: nat)
    requires Indexed(s, c) && Live(c, j) && At(c, j) == Other(h, j) && s.maxLookups >= 1
    ensures IsDue(c, At(c, j).hash, 1.0)
  {
    hide Counted, Queued, Placed, InOrder;
    assert ExactAt(s, c, h + j);
  }

  lemma NotDue(s: Settings, c: Catalog, limit: nat, now: real, d: Entry)
    requires Indexed(s, c) && Live(c, 0) && At(c, 0) == d && d.state == Done
    ensures d.hash !in NewestDue(c, c.needsLookup.keys, limit, now)
  {
    hide Counted, Queued, Placed, At;
    OnlyKnownDue(c, c.needsLookup.keys, limit, now);
    assert ExactAt(s, c, d.hash);
  }

  lemma {:induction false} OnlyKnownDue(c: Catalog, keys: seq<Hash>, limit: nat, now: real)
    ensures forall h :: h in NewestDue(c, keys, limit, now) ==> h in c.needsLookup.m
    decreases |keys|
  {
    hide At;
    if keys != [] && limit > 0 {
      OnlyKnownDue(c, keys[..|keys| - 1], limit - 1, now);
      OnlyKnownDue(c, keys[..|keys| - 1], limit, now);
    }
  }

  lemma {:induction false} LookingFlags(s: Settings, c: Catalog, hashes: seq<Hash>)
    ensures LookingEach(s, c, hashes).checkDatabase == c.checkDatabase
    decreases |hashes|
  {
    hide At, Bump, Ordered, Without, SetAt, AwaitsCheck, CatalogSpec.Fetchable, NeedsLookup;
    if hashes != [] {
      if hashes[0] in c.entries.m {
        LookingFlags(s, Replaced(s, c, c.entries.m[hashes[0]], At(c, c.entries.m[hashes[0]]).(looking := true)), hashes[1..]);
      } else {
        LookingFlags(s, c, hashes[1..]);
      }
    }
  }

  // ----- the newest torrent and torrent h are evicted together

  /** Forty others: one more torrent makes the catalog evict two entries. */
  const CROWD: nat := 39

  predicate Large(s: Settings) {
    s.maxEntries == CROWD + 1 && s.maxLookups >= 1
  }

  lemma NewestNoted(s: Settings, y: System, h: Hash, d: Entry, x: Snapshot)
    requires Sound(s, y) && CrowdLooking(y, h, d, CROWD, x)
    ensures var c, c' := y.cat, Noted(s, y.cat, h + CROWD + 1, false, None, 1.0);
            Indexed(s, c') && |c'.heap| == CROWD + 2 && |c'.entries.m| == CROWD + 2 && AllLive(c') && At(c', 0) == d &&
            (forall j: Id :: 1 <= j <= CROWD ==> At(c', j) == Other(h, j).(looking := true)) && At(c', CROWD + 1) == Other(h, CROWD + 1) &&
            c'.orphans == [] && c'.documents == Empty() && Indexed(s, c)
  {
    hide Sound, Ordered, Indexed, Noted, At, Live, Sighted, AllLive, GotOrCreated;
    var n := CROWD + 1;
    var g := h + n;
    SoundParts(s, y);
    NewestIsNew(y, h, d, x);
    Notes(s, y.cat, g, None, 1.0);
    CreatedFields(y.cat, g, 1.0);
    SightedOther(s, h, n);
    CrowdGrows(y.cat, Noted(s, y.cat, g, false, None, 1.0), g);
  }

  lemma NewestIsNew(y: System, h: Hash, d: Entry, x: Snapshot)
    requires Placed(y.cat) && CrowdLooking(y, h, d, CROWD, x)
    ensures h + CROWD + 1 !in y.cat.entries.m
  {
    hide Ordered, Live, At, AllLive;
    var g := h + CROWD + 1;
    forall j: Id | j < |y.cat.heap| ensures At(y.cat, j).hash != g {
      if j > 0 { assert At(y.cat, j) == Other(h, j).(looking := true); }
    }
  }

  /** When one entry only is cheap, the first pass finds it and nothing else. */
  lemma {:induction false} OneCheap(c: Catalog, keys: seq<Hash>, limit: nat, id: Id)
    requires Distinct(keys) && limit >= 1
    requires forall k :: k in keys && k in c.entries.m && Cheap(At(c, c.entries.m[k])) ==> c.entries.m[k] == id
    requires forall k, l :: k in c.entries.m && l in c.entries.m && c.entries.m[k] == c.entries.m[l] ==> k == l
    requires forall k :: k in c.entries.m && c.entries.m[k] == id ==> Cheap(At(c, id))
    ensures FirstCheap(c, keys, limit) == if exists k :: k in keys && k in c.entries.m && c.entries.m[k] == id then [id] else []
    decreases |keys|
  {
    hide At, Cheap;
    if keys != [] {
      var k := keys[0];
      assert k !in keys[1..];
      DistinctSuffix(keys, 1);
      assert forall l :: l in keys <==> l == k || l in keys[1..];
      if k in c.entries.m && c.entries.m[k] == id {
        if limit > 1 { OneCheap(c, keys[1..], limit - 1, id); }
        assert FirstCheap(c, keys[1..], limit - 1) == [];
      } else {
        OneCheap(c, keys[1..], limit, id);
      }
    }
  }

  lemma CrowdKinds(h: Hash, j: nat)
    ensures Cheap(Other(h, j)) && !Evictable(Other(h, j).(looking := true)) && !Cheap(Other(h, j).(looking := true))
  {
  }

  lemma TwoVictims(s: Settings, c: Catalog, h: Hash, d: Entry)
    requires Large(s) && Indexed(s, c) && |c.heap| == CROWD + 2 && AllLive(c) && At(c, 0) == d && d.meta.Some? && Evictable(d)
    requires forall j: Id :: 1 <= j <= CROWD ==> At(c, j) == Other(h, j).(looking := true)
    requires At(c, CROWD + 1) == Other(h, CROWD + 1)
    ensures ChosenVictims(s, c, [CROWD + 1, 0])
  {
    hide Indexed, At, Live, Evictable, AllLive, Cheap;
    var n := CROWD + 1;
    CrowdKinds(h, n);
    CheapIsNot(d);
    forall j: Id | 1 <= j <= CROWD ensures !Evictable(At(c, j)) && !Cheap(At(c, j)) { CrowdKinds(h, j); }
    FirstIsNewest(s, c, n);
    AllLiveAt(c, 0);
    AllLiveAt(c, n);
    CheapCanGo(At(c, n));
    assert EvictableSet(c) == {0, n};
    assert [n] <= [n, 0];
  }

  lemma CheapIsNot(e: Entry)
    ensures e.meta.Some? ==> !Cheap(e)
  {
  }

  lemma CheapCanGo(e: Entry)
    ensures Cheap(e) ==> Evictable(e)
  {
  }

  lemma AllLiveAt(c: Catalog, id: Id)
    requires AllLive(c) && id < |c.heap|
    ensures Live(c, id)
  {
  }

  lemma FirstIsNewest(s: Settings, c: Catalog, n: Id)
    requires Large(s) && Indexed(s, c) && |c.heap| == n + 1 && AllLive(c) && Cheap(At(c, n)) && forall j: Id :: j < n ==> !Cheap(At(c, j))
    ensures FirstCheap(c, c.entries.keys, Wanted(s)) == [n]
  {
    hide Exact, Counted, Queued, InOrder, Cheap;
    AllLiveAt(c, n);
    var k := At(c, n).hash;
    assert k in c.entries.m && c.entries.m[k] == n && k in c.entries.keys;
    OneCheap(c, c.entries.keys, Wanted(s), n);
  }

  /** Torrent h has left memory and is in no queue; the index thread may still hold its document. */
  ghost predicate Gone0(c: Catalog, h: Hash, e: Entry) {
    e.hash == h && |c.heap| == CROWD + 2 && At(c, 0) == e && !Live(c, 0) && h !in c.entries.m && c.orphans == [] && c.documents == Empty() &&
    forall j: Id :: 1 <= j <= CROWD + 1 ==> At(c, j).hash == h + j
  }

  lemma BothEvicted(s: Settings, y: System, h: Hash, d: Entry, x: Snapshot)
    requires Sound(s, y) && CrowdLooking(y, h, d, CROWD, x) && Large(s) && d.meta.Some? && Evictable(d) && d.base.None?
    ensures var step := Record(h + CROWD + 1, false, None, 1.0, [CROWD + 1, 0]); var y' := Next(s, y, step);
            Enabled(s, y, step) && y' == y.(cat := y'.cat) && Gone0(y'.cat, h, d.(known := false))
  {
    hide Sound, Noted, Indexed, ChosenVictims, EvictedEach, AllLive, At, Live, Evictable, NewestOrphans, Gone0;
    var g, victims := h + CROWD + 1, [CROWD + 1, 0];
    var c2 := Noted(s, y.cat, g, false, None, 1.0);
    NewestNoted(s, y, h, d, x);
    TwoVictims(s, c2, h, d);
    ChosenEvictees(s, c2, victims);
    EvictedEachIndexed(s, c2, victims);
    AllLiveAt(c2, 0);
    NothingOwed(s, c2, victims);
    GoneCrowd(c2, EvictedEach(c2, victims), h, d, victims);
  }

  lemma NothingOwed(s: Settings, c: Catalog, victims: seq<Id>)
    requires Indexed(s, c) && Evictees(c, victims) && c.orphans == [] && forall v :: v in victims ==> At(c, v).base.None?
    ensures EvictedEach(c, victims).orphans == []
  {
    hide Indexed, At, EvictedEach, HasNews, Evictable, Live;
    assert NewestOrphans([]) == [];
    EvictedOrphans(s, c, victims, []);
    NoneOwed(c, victims);
  }

  lemma {:induction false} NoneOwed(c: Catalog, victims: seq<Id>)
    requires forall v :: v in victims ==> At(c, v).base.None?
    ensures Owed(c, victims) == []
  {
    hide At, HasNews;
    if victims != [] { NoneOwed(c, victims[1..]); }
  }

  lemma GoneCrowd(c: Catalog, c': Catalog, h: Hash, d: Entry, victims: seq<Id>)
    requires Gone(c, c', victims) && victims == [CROWD + 1, 0] && |c.heap| == CROWD + 2 && At(c, 0) == d && d.hash == h && Live(c, 0)
    requires forall j: Id :: 1 <= j <= CROWD ==> At(c, j) == Other(h, j).(looking := true)
    requires At(c, CROWD + 1) == Other(h, CROWD + 1) && c.documents == Empty() && c'.orphans == []
    ensures Gone0(c', h, d.(known := false))
  {
    hide At;
    assert 0 in victims && CROWD + 1 in victims;
    forall j: Id | 1 <= j <= CROWD + 1 ensures At(c', j).hash == h + j {
      if j <= CROWD { assert j !in victims; }
    }
  }

  // ----- its document is written and marked

  lemma WrittenOne(s: Settings, y: System, h: Hash, e: Entry, x: Snapshot)
    requires Gone0(y.cat, h, e) && y.rows == map[] && y.phase == DocumentsOut([x]) && x.hash == h && x.base.None? && x.id == 0
    ensures var y' := Next(s, y, WriteDocuments);
            Enabled(s, y, WriteDocuments) && y' == y.(rows := y'.rows, phase := DocumentsToMark([x], [NO_BASE])) && RowCount(y'.rows, h, Sightings) == x.seen
  {
    hide Gone0;
    OneWritten(y.rows, y.phase.batch, x);
  }

  lemma OneWritten(rows: Rows, batch: seq<Snapshot>, x: Snapshot)
    requires rows == map[] && batch == [x] && x.base.None?
    ensures x.hash in DocumentsWritten(rows, batch) && DocumentsWritten(rows, batch)[x.hash].seen == x.seen && BasesFor(batch, Previous(rows, batch)) == [NO_BASE]
  {
    var row := Row(x.seen, x.announced, x.first, x.last);
    assert batch[1..] == [];
    assert DocumentWritten(rows, x) == rows[x.hash := row];
    assert DocumentsWritten(rows, batch) == DocumentsWritten(rows[x.hash := row], []);
    assert Previous(rows[x.hash := row], []) == map[];
    assert BasesFor(batch, map[]) == [NO_BASE] + BasesFor(batch[1..], map[]);
  }

  lemma MarkedGone(s: Settings, y: System, h: Hash, e: Entry, x: Snapshot)
    requires Gone0(y.cat, h, e) && y.phase == DocumentsToMark([x], [NO_BASE]) && x.hash == h && x.id == 0
    ensures var y' := Next(s, y, MarkDocument);
            Enabled(s, y, MarkDocument) && y' == y.(cat := y'.cat, phase := Idle) && Gone0(y'.cat, h, FlushedBy(e, x))
  {
    hide At;
    assert [x][1..] == [] && [NO_BASE][1..] == [];
    var c, c' := y.cat, SetEntry(y.cat, 0, FlushedBy(e, x));
    SetFields(c, 0, FlushedBy(e, x));
    assert FlushedBy(e, x).hash == h;
    SteadyLive(c, c', 0);
  }

  /** Nothing in hand is torrent h's. */
  lemma {:induction false} NothingInHand(y: System, h: Hash, e: Entry, n: nat)
    requires Gone0(y.cat, h, e) && y.phase == Idle && n <= CROWD + 2
    ensures HeldBelow(y, n, h, Sightings) == 0
  {
    hide At, Live;
    if n > 0 { NothingInHand(y, h, e, n - 1); }
  }

  function Roomy(): Settings {
    Settings(CROWD + 1, 1, 1, 1, 0.0)
  }

  lemma SnapshotOnce(h: Hash, p: Peer, meta: Metadata)
    requires meta.hash == h
    ensures var x, d := SnapshotOf(0, FetchedEntry(h, p, meta)), SeenTwice(h, p, meta);
            x.hash == h && x.id == 0 && x.base.None? && x.seen == 1 && d.hash == h && d.state == Done && d.meta.Some? && d.base.None? && Evictable(d) &&
            FetchedEntry(h, p, meta).hash == h
  {
  }

  lemma FetchedRun(h: Hash, p: Peer, meta: Metadata) returns (steps: seq<Step>, z: System)
    requires meta.hash == h
    ensures var s, e := Roomy(), FetchedEntry(h, p, meta);
            Leads(s, NothingYet(), steps, z, h, 1) && Alone(z.cat, e) && z.rows == map[] && z.phase == DocumentsOut([SnapshotOf(0, e)]) && z.cat.documents == Empty()
  {
    hide Leads, Enabled, Next, Alone, SnapshotOf;
    var s, y := Roomy(), NothingYet();
    NothingYetStarts();
    Begins(s, y, h);
    LeadsSound(s, y, [], y, h, 0);
    FirstRecord(s, y, h, p);
    ThenStep(s, y, [], y, h, 0, Record(h, false, Some(p), 0.0, []));
    steps, z := [] + [Record(h, false, Some(p), 0.0, [])], Next(s, y, Record(h, false, Some(p), 0.0, []));
    LeadsSound(s, y, steps, z, h, 1);
    Claimed(s, z, Fresh(h, p));
    ThenStep(s, y, steps, z, h, 1, ClaimFetches([0], 1));
    steps, z := steps + [ClaimFetches([0], 1)], Next(s, z, ClaimFetches([0], 1));
    LeadsSound(s, y, steps, z, h, 1);
    StoredAlone(s, z, Fresh(h, p).(state := InProgress), meta);
    ThenStep(s, y, steps, z, h, 1, StoreMetadata(meta, 0.0));
    steps, z := steps + [StoreMetadata(meta, 0.0)], Next(s, z, StoreMetadata(meta, 0.0));
    LeadsSound(s, y, steps, z, h, 1);
    DocumentTaken(s, z, FetchedEntry(h, p, meta));
    ThenStep(s, y, steps, z, h, 1, DrainDocuments(1));
    steps, z := steps + [DrainDocuments(1)], Next(s, z, DrainDocuments(1));
  }

  lemma EvictedRun(h: Hash, p: Peer, meta: Metadata) returns (steps: seq<Step>, z: System)
    requires meta.hash == h
    ensures var s := Roomy();
            Leads(s, NothingYet(), steps, z, h, 2) && Gone0(z.cat, h, SeenTwice(h, p, meta).(known := false)) && z.rows == map[] &&
            z.phase == DocumentsOut([SnapshotOf(0, FetchedEntry(h, p, meta))])
  {
    hide Leads, Enabled, Next, Alone, SnapshotOf, Crowd, CrowdLooking, Gone0, SeenTwice, FetchedEntry, Evictable;
    var s, y, d, x := Roomy(), NothingYet(), SeenTwice(h, p, meta), SnapshotOf(0, FetchedEntry(h, p, meta));
    SnapshotOnce(h, p, meta);
    steps, z := FetchedRun(h, p, meta);
    LeadsSound(s, y, steps, z, h, 1);
    SeenAgain(s, z, h, p, meta, x);
    ThenStep(s, y, steps, z, h, 1, Record(h, false, None, 1.0, []));
    steps, z := Fills(s, y, steps + [Record(h, false, None, 1.0, [])], Next(s, z, Record(h, false, None, 1.0, [])), h, 2, d, 0, x, CROWD);
    LeadsSound(s, y, steps, z, h, 2);
    var claim := ClaimLookups(CROWD + 2, 1.0);
    OthersLooking(s, z, h, d, CROWD, x, CROWD + 2);
    ThenStep(s, y, steps, z, h, 2, claim);
    steps, z := steps + [claim], Next(s, z, claim);
    LeadsSound(s, y, steps, z, h, 2);
    var last := Record(h + CROWD + 1, false, None, 1.0, [CROWD + 1, 0]);
    BothEvicted(s, z, h, d, x);
    LookingPhase(z, h, d, x);
    ThenStep(s, y, steps, z, h, 2, last);
    steps, z := steps + [last], Next(s, z, last);
  }

  lemma LookingPhase(y: System, h: Hash, d: Entry, x: Snapshot)
    requires CrowdLooking(y, h, d, CROWD, x)
    ensures y.rows == map[] && y.phase == DocumentsOut([x])
  {
    hide At, AllLive;
  }

  /** Two sightings of one torrent; its row has one, and the other is in no entry in memory, no queue and no batch. */
  lemma RowOneShort(h: Hash, p: Peer, meta: Metadata) returns (steps: seq<Step>)
    requires meta.hash == h
    ensures var s, y := Roomy(), NothingYet(); var z := After(s, y, steps);
            Start(y) && Run(s, y, steps) && RecordedIn(steps, h, Sightings) == 2 && z.phase == Idle && h !in z.cat.entries.m &&
            RowCount(z.rows, h, Sightings) == 1 && InHand(z, h, Sightings) == 0 && Lost(z, h, Sightings) == 1
  {
    hide Leads, Enabled, Next, SnapshotOf, Gone0, SeenTwice, FetchedEntry, FlushedBy, RowCount, Lost, Run, After, RecordedIn, Start, HeldBelow, BatchSum;
    var s, y, x := Roomy(), NothingYet(), SnapshotOf(0, FetchedEntry(h, p, meta));
    SnapshotOnce(h, p, meta);
    var z;
    steps, z := EvictedRun(h, p, meta);
    var e := SeenTwice(h, p, meta).(known := false);
    WrittenOne(s, z, h, e, x);
    ThenStep(s, y, steps, z, h, 2, WriteDocuments);
    steps, z := steps + [WriteDocuments], Next(s, z, WriteDocuments);
    MarkedGone(s, z, h, e, x);
    ThenStep(s, y, steps, z, h, 2, MarkDocument);
    steps, z := steps + [MarkDocument], Next(s, z, MarkDocument);
    Led(s, y, steps, z, h, 2);
    Account(s, y, steps, h, Sightings);
    GoneSize(z.cat, h, FlushedBy(e, x));
    NothingInHand(z, h, FlushedBy(e, x), CROWD + 2);
    NoRows(y, h);
    assert BatchSum([], h, Sightings) == 0 by { EmptySum(h); }
  }

  lemma Led(s: Settings, y: System, steps: seq<Step>, z: System, h: Hash, n: nat)
    requires Leads(s, y, steps, z, h, n)
    ensures Start(y) && Run(s, y, steps) && After(s, y, steps) == z && RecordedIn(steps, h, Sightings) == n
  {
    hide Sound, Start, Run, After, RecordedIn;
  }

  lemma GoneSize(c: Catalog, h: Hash, e: Entry)
    requires Gone0(c, h, e)
    ensures |c.heap| == CROWD + 2 && h !in c.entries.m
  {
    hide At, Live;
  }

  lemma NoRows(y: System, h: Hash)
    requires y == NothingYet()
    ensures RowCount(y.rows, h, Sightings) == 0
  {
  }

  lemma EmptySum(h: Hash)
    ensures BatchSum([], h, Sightings) == 0
  {
  }
}
