/**
 * torrent_catalog.py: what each method of the catalog does, as a function of its state.
 *
 * An entry is an object of the source with an identity of its own: it lives at a fixed place of the heap,
 * and the tables and queues hold places. An entry that was evicted keeps its place, so an older entry
 * and a newer one of the same hash are told apart.
 */
module CatalogSpec {
  import opened ByteStrings
  import opened BoundedRecentMap
  import opened NodeIdentity

  type Hash = NodeId
  type Peer = Address
  type Id = nat
  type Positive = n: nat | n >= 1 witness 1

  const MAX_ORPHANS: nat := 100000
  const EVICTION_DIVISOR: nat := 20

  datatype Settings = Settings(maxEntries: Positive, maxPeers: Positive, maxAttempts: Positive, maxLookups: nat, retry: real)

  datatype FetchState = Pending | InProgress | Done | Failed

  /** The fetched metadata; the serial number tells one fetch from another. */
  datatype Metadata = Metadata(hash: Hash, serial: nat)

  /** The two counters kept for a torrent. */
  datatype Kind = Sightings | Announces

  datatype Base = Base(seen: int, announced: int, first: Option<real>)

  datatype Entry = Entry(
    hash: Hash, firstSeen: real, lastSeen: real, seen: nat, announced: nat, peers: seq<Peer>, failed: set<Peer>,
    state: FetchState, attempts: nat, error: string, lookups: nat, looking: bool, nextLookup: real, meta: Option<Metadata>,
    base: Option<Base>, inDatabase: bool, checked: bool, known: bool, flushedSeen: int, flushedAnnounced: int)

  /** A copy of an entry's counters for the index thread, and the entry itself. */
  datatype Snapshot = Snapshot(id: Id, hash: Hash, meta: Option<Metadata>, base: Option<Base>, seen: int, announced: int, first: real, last: real)

  datatype StateCounts = StateCounts(pending: int, inProgress: int, done: int, failed: int)

  datatype Catalog = Catalog(
    heap: seq<Entry>, entries: RawDict<Hash, Id>, fetched: map<Hash, Id>, fetchable: map<Hash, Id>,
    needsLookup: RawDict<Hash, Id>, needsCheck: RawDict<Hash, Id>, counts: StateCounts, lookupsInProgress: int, knownDone: int,
    documents: RawDict<Hash, Id>, counters: RawDict<Hash, Id>, orphans: seq<Id>,
    observations: nat, discovered: nat, evicted: nat, dropped: nat, tracking: bool, maxPending: nat, checkDatabase: bool)

  // ----- entries

  function NewEntry(h: Hash, now: real, checked: bool): Entry {
    Entry(h, now, now, 0, 0, [], {}, Pending, 0, "", 0, false, 0.0, None, None, false, checked, false, 0, 0)
  }

  function Count(e: Entry, k: Kind): nat {
    if k.Sightings? then e.seen else e.announced
  }

  function Flushed(e: Entry, k: Kind): int {
    if k.Sightings? then e.flushedSeen else e.flushedAnnounced
  }

  function Unflushed(e: Entry, k: Kind): int {
    Count(e, k) - Flushed(e, k)
  }

  function Delta(s: Snapshot, k: Kind): int {
    if k.Sightings? then s.seen else s.announced
  }

  function BaseCount(b: Base, k: Kind): int {
    if k.Sightings? then b.seen else b.announced
  }

  /** cumulative_counters: what is shown for an entry. */
  function Displayed(e: Entry, k: Kind): int {
    if e.base.Some? then BaseCount(e.base.value, k) + Count(e, k) else Count(e, k)
  }

  /** index_snapshot */
  function SnapshotOf(id: Id, e: Entry): Snapshot {
    Snapshot(id, e.hash, e.meta, e.base, Unflushed(e, Sightings), Unflushed(e, Announces), e.firstSeen, e.lastSeen)
  }

  predicate Evictable(e: Entry) {
    e.state != InProgress && !e.looking
  }

  predicate AwaitsCheck(e: Entry) {
    e.state == Pending && !e.checked
  }

  predicate Fetchable(e: Entry) {
    e.state == Pending && e.checked && e.peers != []
  }

  predicate NeedsLookup(s: Settings, e: Entry) {
    e.state == Pending && e.checked && e.peers == [] && !e.looking && e.lookups < s.maxLookups
  }

  predicate HasNews(e: Entry) {
    e.seen > e.flushedSeen || e.announced > e.flushedAnnounced
  }

  /** The entry at a place. */
  function At(c: Catalog, id: Id): Entry {
    if id < |c.heap| then c.heap[id] else NewEntry(0, 0.0, true)
  }

  function SetAt(heap: seq<Entry>, id: Id, e: Entry): seq<Entry> {
    if id < |heap| then heap[id := e] else heap
  }

  function SetEntry(c: Catalog, id: Id, e: Entry): Catalog {
    c.(heap := SetAt(c.heap, id, e))
  }

  predicate Live(c: Catalog, id: Id) {
    At(c, id).hash in c.entries.m && c.entries.m[At(c, id).hash] == id
  }

  // ----- changes of one entry

  function Bump(counts: StateCounts, state: FetchState, d: int): StateCounts {
    match state
    case Pending => counts.(pending := counts.pending + d)
    case InProgress => counts.(inProgress := counts.inProgress + d)
    case Done => counts.(done := counts.done + d)
    case Failed => counts.(failed := counts.failed + d)
  }

  function One(b: bool): int {
    if b then 1 else 0
  }

  /** An entry takes new values, and the running counts follow it. */
  function Moved(c: Catalog, id: Id, e: Entry): Catalog {
    var was := At(c, id);
    c.(heap := SetAt(c.heap, id, e), counts := Bump(Bump(c.counts, was.state, -1), e.state, 1),
       lookupsInProgress := c.lookupsInProgress - One(was.looking) + One(e.looking), knownDone := c.knownDone - One(was.known) + One(e.known))
  }

  /** _add_peer_locked */
  function AddPeer(s: Settings, e: Entry, p: Peer): Entry {
    if p in e.failed then e else e.(peers := RememberedKeys(e.peers, p, s.maxPeers))
  }

  function AddPeers(s: Settings, e: Entry, peers: seq<Peer>): Entry
    decreases |peers|
  {
    if peers == [] then e else AddPeers(s, AddPeer(s, e, peers[0]), peers[1..])
  }

  /** _forget_peer_locked */
  function ForgetPeer(e: Entry, p: Peer): Entry {
    e.(peers := Without(e.peers, p), failed := e.failed + {p})
  }

  function ForgetPeers(e: Entry, peers: seq<Peer>): Entry
    decreases |peers|
  {
    if peers == [] then e else ForgetPeers(ForgetPeer(e, peers[0]), peers[1..])
  }

  /** What an entry is after a finished lookup: it is given up when no lookup is left and no peer was found. */
  function AfterLookup(s: Settings, e: Entry, peers: seq<Peer>, now: real): Entry {
    var e1 := AddPeers(s, e.(looking := false, lookups := e.lookups + 1), peers);
    if e1.peers != [] then e1
    else
      var e2 := e1.(nextLookup := now + s.retry * e1.lookups as real);
      if e2.lookups >= s.maxLookups && e2.state == Pending then e2.(error := "no_peers", state := Failed) else e2
  }

  /** What an entry is after a failed fetch. */
  function AfterFailure(s: Settings, e: Entry, tried: seq<Peer>, reason: string, now: real): Entry {
    var e1 := ForgetPeers(e, tried).(attempts := e.attempts + 1, error := reason);
    if e1.attempts >= s.maxAttempts then e1.(state := Failed)
    else if e1.peers == [] && e1.lookups >= s.maxLookups && !e1.looking then e1.(error := "no_peers", state := Failed)
    else if e1.peers == [] then e1.(state := Pending, nextLookup := now)
    else e1.(state := Pending)
  }

  /** _index_entry_locked */
  function Reindexed(s: Settings, c: Catalog, id: Id): Catalog {
    var e := At(c, id);
    c.(needsCheck := if AwaitsCheck(e) then SetDefault(c.needsCheck, e.hash, id) else Pop(c.needsCheck, e.hash),
       fetchable := if Fetchable(e) then c.fetchable[e.hash := id] else c.fetchable - {e.hash},
       needsLookup := if NeedsLookup(s, e) then SetDefault(c.needsLookup, e.hash, id) else Pop(c.needsLookup, e.hash))
  }

  function Replaced(s: Settings, c: Catalog, id: Id, e: Entry): Catalog {
    Reindexed(s, Moved(c, id, e), id)
  }

  // ----- the queues of the index thread

  /** The orphan queue is bounded: the oldest makes room. */
  function OrphansWith(orphans: seq<Id>, id: Id): seq<Id> {
    if |orphans| < MAX_ORPHANS then orphans + [id] else (orphans + [id])[1..]
  }

  /** _add_orphan_locked */
  function AddOrphan(c: Catalog, id: Id): Catalog {
    c.(orphans := OrphansWith(c.orphans, id), dropped := c.dropped + (if |c.orphans| >= MAX_ORPHANS then 1 else 0))
  }

  /** _drop_unwritten_metadata_locked */
  function DropUnwritten(s: Settings, c: Catalog, id: Id): Catalog {
    var e := At(c, id);
    if Live(c, id) && e.meta.Some? && e.state == Done then
      Replaced(s, c.(fetched := c.fetched - {e.hash}), id, e.(meta := None, checked := true, state := Pending))
    else c
  }

  /** The oldest document makes room. */
  function OldestDropped(s: Settings, c: Catalog): Catalog
    requires c.documents.keys != []
  {
    var oldest := c.documents.keys[0];
    var c1 := c.(documents := PopFirst(c.documents), dropped := c.dropped + 1);
    if oldest in c.documents.m then DropUnwritten(s, c1, c.documents.m[oldest]) else c1
  }

  function WithDocument(c: Catalog, h: Hash, id: Id): (r: Catalog)
    ensures h !in c.documents.m ==> r.documents.keys != []
  {
    c.(counters := Pop(c.counters, h), documents := if h in c.documents.m then c.documents else Put(c.documents, h, id))
  }

  /** _queue_document_locked */
  function QueueDocument(s: Settings, c: Catalog, id: Id): Catalog {
    var c1 := WithDocument(c, At(c, id).hash, id);
    if At(c, id).hash in c.documents.m || |c1.documents.m| <= c.maxPending then c1 else OldestDropped(s, c1)
  }

  function NoteCounters(c: Catalog, h: Hash, id: Id): Catalog {
    c.(counters := SetDefault(c.counters, h, id))
  }

  // ----- recording and eviction

  /** _get_or_create_locked */
  function GotOrCreated(c: Catalog, h: Hash, now: real): (r: (Catalog, Id)) {
    if h in c.entries.m then (c, c.entries.m[h])
    else (c.(heap := c.heap + [NewEntry(h, now, !c.checkDatabase)], entries := Put(c.entries, h, |c.heap|),
             counts := Bump(c.counts, Pending, 1), discovered := c.discovered + 1), |c.heap|)
  }

  function Max(a: real, b: real): real {
    if a >= b then a else b
  }

  function Sighted(s: Settings, e: Entry, announce: bool, peer: Option<Peer>, now: real): Entry {
    var e1 := e.(seen := e.seen + 1, lastSeen := Max(e.lastSeen, now), announced := e.announced + (if announce then 1 else 0));
    if peer.Some? && e.state != Done then AddPeer(s, e1, peer.value) else e1
  }

  /** One entry leaves memory; it is remembered as an orphan when the database still lacks some of its counts. */
  function EvictedOne(c: Catalog, id: Id): Catalog {
    var e := At(c, id);
    var owed := e.base.Some? && HasNews(e);
    c.(entries := Pop(c.entries, e.hash), fetched := c.fetched - {e.hash}, fetchable := c.fetchable - {e.hash},
       needsLookup := Pop(c.needsLookup, e.hash), needsCheck := Pop(c.needsCheck, e.hash), counters := Pop(c.counters, e.hash),
       orphans := if owed then OrphansWith(c.orphans, id) else c.orphans,
       dropped := c.dropped + (if owed && |c.orphans| >= MAX_ORPHANS then 1 else 0),
       heap := SetAt(c.heap, id, e.(known := false)), knownDone := c.knownDone - (if e.known then 1 else 0),
       counts := Bump(c.counts, e.state, -1), evicted := c.evicted + 1)
  }

  function EvictedEach(c: Catalog, victims: seq<Id>): Catalog
    decreases |victims|
  {
    if victims == [] then c else EvictedEach(EvictedOne(c, victims[0]), victims[1..])
  }

  /** The first part of _record_locked: everything before the eviction. */
  function Noted(s: Settings, c: Catalog, h: Hash, announce: bool, peer: Option<Peer>, now: real): Catalog {
    var (c1, id) := GotOrCreated(c, h, now);
    var e := Sighted(s, At(c1, id), announce, peer, now);
    var c2 := Replaced(s, c1.(needsLookup := Pop(c1.needsLookup, h), observations := c1.observations + 1), id, e);
    if c2.tracking && (e.meta.Some? || e.inDatabase) then NoteCounters(c2, h, id) else c2
  }

  /** _record_locked, given the entries chosen for eviction. */
  function Recorded(s: Settings, c: Catalog, h: Hash, announce: bool, peer: Option<Peer>, now: real, victims: seq<Id>): Catalog {
    var c1 := Noted(s, c, h, announce, peer, now);
    if |c1.entries.m| > s.maxEntries then EvictedEach(c1, victims) else c1
  }

  // ----- lookups

  function NewestDue(c: Catalog, keys: seq<Hash>, limit: nat, now: real): (r: seq<Hash>)
    ensures |r| <= limit
    decreases |keys|
  {
    if keys == [] || limit == 0 then []
    else
      var h, rest := keys[|keys| - 1], keys[..|keys| - 1];
      if h in c.needsLookup.m && At(c, c.needsLookup.m[h]).nextLookup <= now then [h] + NewestDue(c, rest, limit - 1, now)
      else NewestDue(c, rest, limit, now)
  }

  function LookingEach(s: Settings, c: Catalog, hashes: seq<Hash>): Catalog
    decreases |hashes|
  {
    if hashes == [] then c
    else if hashes[0] in c.entries.m then
      var id := c.entries.m[hashes[0]];
      LookingEach(s, Replaced(s, c, id, At(c, id).(looking := true)), hashes[1..])
    else LookingEach(s, c, hashes[1..])
  }

  /** hashes_needing_peers: the newest entries first. */
  function LookupsClaimed(s: Settings, c: Catalog, limit: nat, now: real): Catalog {
    LookingEach(s, c, NewestDue(c, c.needsLookup.keys, limit, now))
  }

  function LookupReleased(s: Settings, c: Catalog, h: Hash): Catalog {
    if h in c.entries.m && At(c, c.entries.m[h]).looking then
      Replaced(s, c, c.entries.m[h], At(c, c.entries.m[h]).(looking := false))
    else c
  }

  function PeersAdded(s: Settings, c: Catalog, h: Hash, peers: seq<Peer>): Catalog {
    if h in c.entries.m then
      Replaced(s, c, c.entries.m[h], AddPeers(s, At(c, c.entries.m[h]), peers))
    else c
  }

  /** add_lookup_result */
  function LookupFinished(s: Settings, c: Catalog, h: Hash, peers: seq<Peer>, now: real): Catalog {
    if h in c.entries.m then Replaced(s, c, c.entries.m[h], AfterLookup(s, At(c, c.entries.m[h]), peers, now)) else c
  }

  // ----- fetching

  function FetchingEach(s: Settings, c: Catalog, ids: seq<Id>): Catalog
    decreases |ids|
  {
    if ids == [] then c else FetchingEach(s, Replaced(s, c, ids[0], At(c, ids[0]).(state := InProgress)), ids[1..])
  }

  /** store_metadata */
  function Stored(s: Settings, c: Catalog, meta: Metadata, now: real): Catalog {
    var (c1, id) := GotOrCreated(c, meta.hash, now);
    var e := At(c1, id).(known := false, meta := Some(meta), error := "", state := Done);
    var c2 := Replaced(s, c1.(fetched := c1.fetched[meta.hash := id]), id, e);
    if c2.tracking then QueueDocument(s, c2, id) else c2
  }

  /** mark_fetch_failed */
  function FetchFailed(s: Settings, c: Catalog, h: Hash, tried: seq<Peer>, reason: string, now: real): Catalog {
    if h in c.entries.m then Replaced(s, c, c.entries.m[h], AfterFailure(s, At(c, c.entries.m[h]), tried, reason, now)) else c
  }

  /** release_fetch_claim */
  function FetchReleased(s: Settings, c: Catalog, h: Hash): Catalog {
    if h in c.entries.m && At(c, c.entries.m[h]).state == InProgress then
      Replaced(s, c, c.entries.m[h], At(c, c.entries.m[h]).(state := Pending))
    else c
  }

  // ----- the index thread

  function SnapshotsOf(c: Catalog, d: RawDict<Hash, Id>, n: nat): (r: seq<Snapshot>)
    requires n <= |d.keys|
    ensures |r| == n
  {
    seq(n, i requires 0 <= i < n => var id := if d.keys[i] in d.m then d.m[d.keys[i]] else 0; SnapshotOf(id, At(c, id)))
  }

  function Least(a: nat, b: nat): nat {
    if a < b then a else b
  }

  /** drain_index_documents */
  function DocumentsDrained(c: Catalog, limit: nat): (Catalog, seq<Snapshot>) {
    var n := Least(limit, |c.documents.keys|);
    (c.(documents := From(c.documents, n)), SnapshotsOf(c, c.documents, n))
  }

  predicate Empty?(s: Snapshot) {
    s.seen == 0 && s.announced == 0
  }

  /** The first loop of drain_index_counters. */
  function OrphansDrained(c: Catalog, limit: nat): (r: (Catalog, seq<Snapshot>))
    ensures |r.1| <= limit
    decreases |c.orphans|
  {
    if c.orphans == [] || limit == 0 then (c, [])
    else
      var s := SnapshotOf(c.orphans[0], At(c, c.orphans[0]));
      var c1 := c.(orphans := c.orphans[1..]);
      if Empty?(s) then OrphansDrained(c1, limit)
      else
        var (c2, rest) := OrphansDrained(c1, limit - 1);
        (c2, [s] + rest)
  }

  /** The second loop of drain_index_counters. */
  function CountersDrained(s: Settings, c: Catalog, limit: nat, turns: nat): (r: (Catalog, seq<Snapshot>))
    ensures |r.1| <= limit
    decreases turns
  {
    if turns == 0 || c.counters.keys == [] || limit == 0 then (c, [])
    else
      var h := c.counters.keys[0];
      var id := if h in c.counters.m then c.counters.m[h] else 0;
      var e := At(c, id);
      var c1 := c.(counters := PopFirst(c.counters));
      if e.base.None? then CountersDrained(s, if e.meta.Some? then QueueDocument(s, c1, id) else c1, limit, turns - 1)
      else if HasNews(e) then
        var (c2, rest) := CountersDrained(s, c1, limit - 1, turns - 1);
        (c2, [SnapshotOf(id, e)] + rest)
      else CountersDrained(s, c1, limit, turns - 1)
  }

  /** drain_index_counters */
  function AllCountersDrained(s: Settings, c: Catalog, limit: nat): (Catalog, seq<Snapshot>) {
    var (c1, first) := OrphansDrained(c, limit);
    var (c2, rest) := CountersDrained(s, c1, limit - |first|, |c1.counters.keys|);
    (c2, first + rest)
  }

  /** requeue_index_documents: the last snapshot first, each to the front. */
  function DocumentsRequeued(c: Catalog, batch: seq<Snapshot>): Catalog
    decreases |batch|
  {
    if batch == [] then c
    else
      var last, rest := batch[|batch| - 1], batch[..|batch| - 1];
      DocumentsRequeued(if last.hash in c.documents.m then c else c.(documents := PutFirst(c.documents, last.hash, last.id)), rest)
  }

  /** requeue_index_counters */
  function CountersRequeued(c: Catalog, batch: seq<Snapshot>): Catalog
    decreases |batch|
  {
    if batch == [] then c
    else
      var s := batch[0];
      CountersRequeued(if s.hash in c.entries.m && c.entries.m[s.hash] == s.id then NoteCounters(c, s.hash, s.id) else AddOrphan(c, s.id), batch[1..])
  }

  function FlushedBy(e: Entry, s: Snapshot): Entry {
    e.(flushedSeen := e.flushedSeen + s.seen, flushedAnnounced := e.flushedAnnounced + s.announced)
  }

  /** mark_counters_written */
  function CountersMarked(c: Catalog, batch: seq<Snapshot>): Catalog
    decreases |batch|
  {
    if batch == [] then c
    else CountersMarked(SetEntry(c, batch[0].id, FlushedBy(At(c, batch[0].id), batch[0])), batch[1..])
  }

  /** _release_metadata_locked */
  function MetadataReleased(c: Catalog, id: Id): Catalog {
    var e := At(c, id);
    c.(heap := SetAt(c.heap, id, e.(meta := None, inDatabase := true, peers := [], failed := {})), fetched := c.fetched - {e.hash})
  }

  /** A document queued once more is not needed: its counters are noted instead. */
  function Unqueued(c: Catalog, h: Hash, id: Id): Catalog {
    if h in c.documents.m then c.(documents := Pop(c.documents, h), counters := SetDefault(c.counters, h, id)) else c
  }

  /** mark_index_written */
  function DocumentMarked(c: Catalog, s: Snapshot, base: Base): Catalog {
    var e := FlushedBy(At(c, s.id), s);
    if !(s.hash in c.entries.m && c.entries.m[s.hash] == s.id) then SetEntry(c, s.id, e)
    else
      var c1 := SetEntry(c, s.id, e.(base := Some(base)));
      if e.meta != s.meta then c1 else MetadataReleased(Unqueued(c1, s.hash, s.id), s.id)
  }

  function CheckedEach(s: Settings, c: Catalog, ids: seq<Hash>): Catalog
    decreases |ids|
  {
    if ids == [] then c
    else if ids[0] in c.entries.m then
      var id := c.entries.m[ids[0]];
      CheckedEach(s, Replaced(s, c, id, At(c, id).(checked := true)), ids[1..])
    else CheckedEach(s, c, ids[1..])
  }

  /** set_database_check */
  function CheckSwitched(s: Settings, c: Catalog, enabled: bool): Catalog {
    var c1 := c.(checkDatabase := enabled);
    if enabled then c1 else CheckedEach(s, c1, c.needsCheck.keys)
  }

  function OneCheckApplied(s: Settings, c: Catalog, h: Hash, found: map<Hash, Base>): Catalog {
    var c1 := c.(needsCheck := Pop(c.needsCheck, h));
    if h !in c.needsCheck.m || At(c, c.needsCheck.m[h]).checked then c1
    else
      var id := c.needsCheck.m[h];
      var e := At(c, id).(checked := true);
      if h in found && e.state == Pending then
        var c2 := Replaced(s, c1, id, e.(base := Some(found[h]), inDatabase := true, peers := [], failed := {}, known := true, state := Done));
        if c2.tracking then NoteCounters(c2, h, id) else c2
      else Replaced(s, c1, id, e)
  }

  /** apply_database_checks */
  function ChecksApplied(s: Settings, c: Catalog, hashes: seq<Hash>, found: map<Hash, Base>): Catalog
    decreases |hashes|
  {
    if hashes == [] then c else ChecksApplied(s, OneCheckApplied(s, c, hashes[0], found), hashes[1..], found)
  }

  /** reset_index_base */
  function BaseReset(s: Settings, c: Catalog, h: Hash): Catalog {
    if h !in c.entries.m then c
    else
      var id := c.entries.m[h];
      var e := At(c, id).(base := None, flushedSeen := 0, flushedAnnounced := 0);
      var c1 := SetEntry(c, id, e).(counters := Pop(c.counters, h));
      if e.meta.Some? then QueueDocument(s, c1, id)
      else if e.inDatabase then
        Replaced(s, c1, id, e.(inDatabase := false, checked := true, known := false, state := if e.state == Done then Pending else e.state))
      else c1
  }

  /** enable_index_tracking */
  function TrackingEnabled(c: Catalog, maxPending: nat, checkDatabase: bool): Catalog {
    c.(tracking := true, maxPending := maxPending, checkDatabase := checkDatabase)
  }

  function Blank(): Catalog {
    Catalog([], Empty(), map[], map[], Empty(), Empty(), StateCounts(0, 0, 0, 0), 0, 0, Empty(), Empty(), [], 0, 0, 0, 0, false, 100000, false)
  }
}
