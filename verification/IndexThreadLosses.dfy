/**
 * Where sightings are lost: an entry that is neither in memory nor in a queue nor on its way to the database keeps
 * what it holds for ever. Entries with unwritten counts get there at a few named points and nowhere else.
 */
module IndexThreadLosses {
  import opened ByteStrings
  import opened BoundedRecentMap
  import opened NodeIdentity
  import opened CatalogSpec
  import opened CatalogIndexes
  import opened CatalogMethods
  import opened CatalogFlushing
  import opened CatalogEviction
  import opened CatalogEntries
  import opened IndexThread
  import opened IndexThreadSafety
  import opened IndexThreadCounts
  import opened IndexThreadFlow
  import opened IndexThreadResults

  /** The snapshots the index thread holds. */
  function Held(phase: Phase): seq<Snapshot> {
    match phase
    case DocumentsOut(batch) => batch
    case DocumentsToMark(batch, bases) => batch
    case CountersOut(batch) => batch
    case CountersToMark(batch, missing) => batch
    case _ => []
  }

  /** In memory, queued as a document, queued as an orphan, or held by the index thread. */
  predicate Reachable(y: System, id: Id) {
    Live(y.cat, id) || QueuedIn(y.cat, id) || id in y.cat.orphans || HasId(Held(y.phase), id)
  }

  /** The entry leaves reach in this step, with counts the database lacks. It may have been made by the same step. */
  predicate Leaves(y: System, y': System, id: Id) {
    id < |y'.cat.heap| && (id < |y.cat.heap| ==> Reachable(y, id)) && !Reachable(y', id) && HasUnflushed(At(y'.cat, id))
  }

  /** A bounded queue overflowed, and the entry was in it or was about to join it. */
  predicate PushedOut(y: System, y': System, step: Step, id: Id) {
    y'.cat.dropped != y.cat.dropped &&
    if step.Record? then id in y.cat.orphans || (Live(y.cat, id) && At(y'.cat, id).base.Some?)
    else if step.CountersFail? then id in y.cat.orphans || HasId(Held(y.phase), id)
    else QueuedIn(y.cat, id)
  }

  /** One of the snapshots marked is the entry's, and lacks some of what the entry holds; the entry has left memory. */
  predicate LateSighting(y: System, id: Id, marked: seq<Snapshot>) {
    HasId(marked, id) && !Live(y.cat, id) &&
    (SumFor(marked, id, Sightings) < Unflushed(At(y.cat, id), Sightings) || SumFor(marked, id, Announces) < Unflushed(At(y.cat, id), Announces))
  }

  /** What can make an entry leave. */
  predicate Cause(y: System, y': System, step: Step, id: Id) {
    || PushedOut(y, y', step, id)
    // evicted before it was ever written
    || (step.Record? && (id < |y.cat.heap| ==> Live(y.cat, id)) && At(y'.cat, id).base.None?)
    // its document failed after it was evicted, while a newer entry of the torrent is queued
    || (step.DocumentsFail? && HasId(Held(y.phase), id) && !Live(y.cat, id) && At(y.cat, id).hash in y.cat.documents.m)
    // sighted after it was drained, then evicted before it was marked
    || (step.MarkDocument? && y.phase.DocumentsToMark? && y.phase.batch != [] && LateSighting(y, id, y.phase.batch[..1]))
    || (step.MarkCounters? && y.phase.CountersToMark? && LateSighting(y, id, y.phase.batch))
  }

  /** The named points at which an entry drops out with counts the database lacks. */
  predicate DropPoint(y: System, y': System, step: Step, id: Id) {
    Leaves(y, y', id) && Cause(y, y', step, id)
  }

  /** Entries and orphans stay, documents stay unless the queue overflows, and what is queued anew is in memory. */
  ghost predicate QueueKept(c: Catalog, c': Catalog) {
    c'.entries == c.entries && |c'.heap| == |c.heap| && c'.orphans == c.orphans && OnlyOverflow(c, c') && QueuesLive(c, c') &&
    forall j: Id :: j < |c.heap| ==> At(c', j).hash == At(c, j).hash
  }

  lemma BecameQueues(c: Catalog, c': Catalog, id: Id, e: Entry)
    requires Became(c, c', id, e) && e.hash == At(c, id).hash
    ensures QueueKept(c, c')
  {
    SameDocuments(c, c');
    SameQueues(c, c');
    hide At;
  }

  lemma SteadyQueues(c: Catalog, c': Catalog)
    requires Steady(c, c') && forall j: Id :: At(c', j).hash == At(c, j).hash
    ensures QueueKept(c, c')
  {
    SameDocuments(c, c');
    SameQueues(c, c');
  }

  lemma CrawlQueues(s: Settings, y: System, step: Step)
    requires Sound(s, y) && Enabled(s, y, step) && Crawls(step)
    ensures QueueKept(y.cat, Next(s, y, step).cat)
  {
    hide Sound, QueueKept, Became, Indexed, At, Live, AddPeers, AfterLookup, AfterFailure, EntriesOk, Claims, PhaseOk, RowsExist, ChosenVictims, TopCandidates,
      Steady, FetchingSet, CheckedSet, PeersAdded, LookupReleased, LookupFinished, FetchFailed, FetchReleased, FetchingEach, LookingEach, CheckSwitched, Stored, NewestDue;
    SoundParts(s, y);
    var c := y.cat;
    match step
    case StreamPeers(h, peers) =>
      PeersAddedIndexed(s, c, h, peers);
      if h in c.entries.m {
        AddPeersOnly(s, At(c, c.entries.m[h]), peers);
        BecameQueues(c, PeersAdded(s, c, h, peers), c.entries.m[h], AddPeers(s, At(c, c.entries.m[h]), peers));
      } else {
        SameCatalogQueues(c);
      }
    case ReleaseLookup(h) =>
      LookupReleasedIndexed(s, c, h);
      ClaimedLookup(s, y, h);
      BecameQueues(c, LookupReleased(s, c, h), c.entries.m[h], At(c, c.entries.m[h]).(looking := false));
    case FinishLookup(h, peers, now) =>
      LookupFinishedIndexed(s, c, h, peers, now);
      ClaimedLookup(s, y, h);
      AfterLookupKeeps(s, At(c, c.entries.m[h]), peers, now);
      BecameQueues(c, LookupFinished(s, c, h, peers, now), c.entries.m[h], AfterLookup(s, At(c, c.entries.m[h]), peers, now));
    case FailFetch(h, tried, reason, now) =>
      FetchFailedIndexed(s, c, h, tried, reason, now);
      ClaimedJob(s, y, h);
      AfterFailureKeeps(s, At(c, c.entries.m[h]), tried, reason, now);
      BecameQueues(c, FetchFailed(s, c, h, tried, reason, now), c.entries.m[h], AfterFailure(s, At(c, c.entries.m[h]), tried, reason, now));
    case ReleaseFetch(h) =>
      FetchReleasedIndexed(s, c, h);
      ClaimedJob(s, y, h);
      BecameQueues(c, FetchReleased(s, c, h), c.entries.m[h], At(c, c.entries.m[h]).(state := Pending));
    case ClaimLookups(limit, now) =>
      LookingEachIndexed(s, c, NewestDue(c, c.needsLookup.keys, limit, now));
      SteadyQueues(c, LookingEach(s, c, NewestDue(c, c.needsLookup.keys, limit, now)));
    case ClaimFetches(ids, limit) => ClaimQueues(s, c, ids, limit);
    case StoreMetadata(meta, now) => StoreQueues(s, y, meta, now);
    case SwitchChecks(enabled) => SwitchQueues(s, c, enabled);
  }

  lemma SameCatalogQueues(c: Catalog)
    ensures QueueKept(c, c)
  {
    SameDocuments(c, c);
    SameQueues(c, c);
  }

  lemma ClaimQueues(s: Settings, c: Catalog, ids: seq<Id>, limit: nat)
    requires Indexed(s, c) && TopCandidates(c, ids, limit)
    ensures QueueKept(c, FetchingEach(s, c, ids))
  {
    hide Indexed, At, Live, TopCandidates, Fetchable, QueueKept, FetchingEach;
    CandidatesHere(s, c, ids, limit);
    FetchingEachIndexed(s, c, ids);
    SteadyQueues(c, FetchingEach(s, c, ids));
  }

  lemma SwitchQueues(s: Settings, c: Catalog, enabled: bool)
    requires Indexed(s, c)
    ensures QueueKept(c, CheckSwitched(s, c, enabled))
  {
    hide Indexed, At, Live, QueueKept, CheckSwitched;
    CheckSwitchedIndexed(s, c, enabled);
    SteadyQueues(c, CheckSwitched(s, c, enabled));
  }

  lemma StoreQueues(s: Settings, y: System, meta: Metadata, now: real)
    requires Sound(s, y) && meta.hash in y.jobs
    ensures QueueKept(y.cat, Stored(s, y.cat, meta, now))
  {
    hide Sound, Stored, Indexed, EntriesOk, Claims, EntryOk, Became, Overflowed, QueuesOne, At, Replaced, OnlyOverflow, QueuesLive, Live;
    SoundParts(s, y);
    ClaimedJob(s, y, meta.hash);
    var c := y.cat;
    var id := c.entries.m[meta.hash];
    StoredIndexed(s, c, meta, now);
    var e := StoredEntry(At(c, id), meta);
    var c2 := Replaced(s, c.(fetched := c.fetched[meta.hash := id]), id, e);
    StoredQueues(c, c2, Stored(s, c, meta, now), id, e);
  }

  lemma StoredQueues(c: Catalog, c2: Catalog, c': Catalog, id: Id, e: Entry)
    requires Live(c, id) && Became(c, c2, id, e) && e.hash == At(c, id).hash && Overflowed(c2, c') && QueuesOne(c2, c', id) && OnlyOverflow(c2, c') && c2.dropped == c.dropped
    ensures QueueKept(c, c')
  {
    BecameLive(c, c2, id, e);
    OverflowLive(c2, c', id);
    QueuesOneLive(c2, c', id);
    SameQueues(c, c2);
    QueuesStay(c, c2, c');
    DocumentsTwice(c, c2, c');
    forall j: Id ensures At(c', j).hash == At(c, j).hash { OverflowHash(c2, c', j); }
  }

  // ----- what stays reachable

  lemma KeptReachable(y: System, y': System, id: Id)
    requires QueueKept(y.cat, y'.cat) && y'.phase == y.phase && id < |y.cat.heap|
    ensures Reachable(y, id) ==> Reachable(y', id) || (y'.cat.dropped != y.cat.dropped && QueuedIn(y.cat, id))
    ensures Reachable(y', id) ==> Reachable(y, id)
  {
    hide At, HasId;
  }

  lemma {:induction false} SumForHeld(batch: seq<Snapshot>, id: Id, k: Kind)
    requires !HasId(batch, id)
    ensures SumFor(batch, id, k) == 0
  {
    SumForNone(batch, id, k);
  }

  /** Nobody changes the counts of an entry out of reach, and it never comes back into reach. */
  lemma UnreachableStays(s: Settings, y: System, step: Step, id: Id)
    requires Sound(s, y) && Enabled(s, y, step) && id < |y.cat.heap| && !Reachable(y, id)
    ensures !Reachable(Next(s, y, step), id) && SameFlow(At(y.cat, id), At(Next(s, y, step).cat, id))
  {
    hide Sound, Enabled, Next, At, Crawl, Still, QueueKept, Reachable, SameFlow;
    match step
    case Record(h, announce, peer, now, victims) => RecordUnreachable(s, y, h, announce, peer, now, victims, id);
    case MarkDocument => MarkUnreachable(s, y, id);
    case MarkCounters => MarkCountersUnreachable(s, y, id);
    case ResetMissing => ResetEnabled(s, y); NoReset(s, y);
    case _ =>
      if Crawls(step) {
        CrawlQueues(s, y, step);
        OutsideKept(s, y, step);
        KeptReachable(y, Next(s, y, step), id);
        CrawlSteps(s, y, step);
        StillFlow(y.cat, Next(s, y, step).cat, id);
      } else {
        QueueUnreachable(s, y, step, id);
      }
  }

  lemma StillFlow(c: Catalog, c': Catalog, id: Id)
    requires Crawl(c, c') && Still(c, c') && id < |c.heap|
    ensures SameFlow(At(c, id), At(c', id))
  {
    assert CrawlAt(c, c', id) && StillAt(c, c', id);
  }

  lemma RecordUnreachable(s: Settings, y: System, h: Hash, announce: bool, peer: Option<Peer>, now: real, victims: seq<Id>, id: Id)
    requires Sound(s, y) && Enabled(s, y, Record(h, announce, peer, now, victims)) && id < |y.cat.heap| && !Reachable(y, id)
    ensures var y' := Next(s, y, Record(h, announce, peer, now, victims)); !Reachable(y', id) && SameFlow(At(y.cat, id), At(y'.cat, id))
  {
    hide Sound, Recorded, ChosenVictims, Indexed, At, Live, HasId, QueuedIn;
    RecordFates(s, y, h, announce, peer, now, victims, id);
  }

  /** What recording a sighting does to an entry there was before. */
  lemma RecordFates(s: Settings, y: System, h: Hash, announce: bool, peer: Option<Peer>, now: real, victims: seq<Id>, id: Id)
    requires Sound(s, y) && Enabled(s, y, Record(h, announce, peer, now, victims)) && id < |y.cat.heap|
    ensures var c, c' := y.cat, Next(s, y, Record(h, announce, peer, now, victims)).cat;
            (QueuedIn(c', id) <==> QueuedIn(c, id)) && (Live(c', id) ==> Live(c, id)) && At(c', id).base == At(c, id).base &&
            (!Live(c, id) ==> SameFlow(At(c, id), At(c', id))) &&
            (id in c'.orphans ==> id in c.orphans || Live(c, id)) && (id in c.orphans ==> id in c'.orphans || c'.dropped != c.dropped) &&
            (Live(c, id) && !Live(c', id) && At(c', id).base.Some? && HasNews(At(c', id)) ==> id in c'.orphans || c'.dropped != c.dropped)
  {
    hide Sound, Noted, EvictedEach, ChosenVictims, Indexed, Live, Evictees, Became, GotOrCreated, At, Sighted, EntriesOk, Claims, PhaseOk, RowsExist, NewestOrphans, Owed, HasNews;
    SoundParts(s, y);
    var c2 := Noted(s, y.cat, h, announce, peer, now);
    NotedIndexed(s, y.cat, h, announce, peer, now);
    NotedFates(s, y, h, announce, peer, now, id);
    if |c2.entries.m| > s.maxEntries {
      ChosenEvictees(s, c2, victims);
      EvictedEachIndexed(s, c2, victims);
      EvictedFates(s, c2, victims, id);
    }
  }

  lemma NotedFates(s: Settings, y: System, h: Hash, announce: bool, peer: Option<Peer>, now: real, id: Id)
    requires Sound(s, y) && id < |y.cat.heap|
    ensures var c, c2 := y.cat, Noted(s, y.cat, h, announce, peer, now);
            (QueuedIn(c2, id) <==> QueuedIn(c, id)) && (Live(c2, id) <==> Live(c, id)) && At(c2, id).base == At(c, id).base &&
            (!Live(c, id) ==> SameFlow(At(c, id), At(c2, id))) && c2.orphans == c.orphans && c2.dropped == c.dropped
  {
    hide Sound, Noted, Indexed, Sighted, EntriesOk, Claims, PhaseOk, RowsExist, At, Live, Became;
    SoundParts(s, y);
    var (c1, i) := GotOrCreated(y.cat, h, now);
    NotedIndexed(s, y.cat, h, announce, peer, now);
    NotedOrphans(s, y.cat, h, announce, peer, now);
    NotedDropped(s, y.cat, h, announce, peer, now);
    SightedTags(s, At(c1, i), announce, peer, now);
    CreatedOthers(s, y.cat, h, now, id);
    BecameFates(c1, Noted(s, y.cat, h, announce, peer, now), i, Sighted(s, At(c1, i), announce, peer, now), id);
  }

  lemma NotedDropped(s: Settings, c: Catalog, h: Hash, announce: bool, peer: Option<Peer>, now: real)
    ensures Noted(s, c, h, announce, peer, now).dropped == c.dropped
  {
    hide Sighted, At, Replaced, Pop, Put, SetDefault, NewEntry;
    var (c1, id) := GotOrCreated(c, h, now);
    ReplacedKeeps(s, c1.(needsLookup := Pop(c1.needsLookup, h), observations := c1.observations + 1), id, Sighted(s, At(c1, id), announce, peer, now));
  }

  lemma CreatedOthers(s: Settings, c: Catalog, h: Hash, now: real, id: Id)
    requires Indexed(s, c) && id < |c.heap|
    ensures var c1 := GotOrCreated(c, h, now).0;
            At(c1, id) == At(c, id) && (Live(c1, id) <==> Live(c, id)) && c1.documents == c.documents && (QueuedIn(c1, id) <==> QueuedIn(c, id))
  {
    hide Indexed, Ordered;
    if h !in c.entries.m {
      CreatedFields(c, h, now);
      hide GotOrCreated, At;
    }
  }

  lemma BecameFates(c: Catalog, c': Catalog, i: Id, e: Entry, id: Id)
    requires Became(c, c', i, e) && e.hash == At(c, i).hash && e.base == At(c, i).base && Live(c, i)
    ensures (QueuedIn(c', id) <==> QueuedIn(c, id)) && (Live(c', id) <==> Live(c, id)) && At(c', id).base == At(c, id).base &&
            (!Live(c, id) ==> SameFlow(At(c, id), At(c', id)))
  {
    BecameLive(c, c', i, e);
    hide At, Live;
  }

  lemma EvictedFates(s: Settings, c: Catalog, victims: seq<Id>, id: Id)
    requires Indexed(s, c) && Evictees(c, victims)
    ensures var c' := EvictedEach(c, victims);
            (QueuedIn(c', id) <==> QueuedIn(c, id)) && (Live(c', id) ==> Live(c, id)) && SameFlow(At(c, id), At(c', id)) && At(c', id).base == At(c, id).base &&
            (id in c'.orphans ==> id in c.orphans || Live(c, id)) && (id in c.orphans ==> id in c'.orphans || c'.dropped != c.dropped) &&
            (Live(c, id) && !Live(c', id) && At(c', id).base.Some? && HasNews(At(c', id)) ==> id in c'.orphans || c'.dropped != c.dropped)
  {
    hide Indexed, At, Live, HasNews, EvictedEach, Evictable;
    EvictedEachIndexed(s, c, victims);
    ShortQueue(s, c);
    EvictedOrphans(s, c, victims, c.orphans);
    OwedOf(c, victims);
    OwedIff(c, victims, id);
    NewestKeeps(c.orphans + Owed(c, victims));
    SameNews(At(c, id));
  }

  lemma SameNews(e: Entry)
    ensures HasNews(e.(known := false)) == HasNews(e)
  {
  }

  lemma {:induction false} OwedIff(c: Catalog, victims: seq<Id>, id: Id)
    ensures id in Owed(c, victims) <==> id in victims && At(c, id).base.Some? && HasNews(At(c, id))
  {
    hide HasNews, At;
    if victims != [] {
      OwedIff(c, victims[1..], id);
      assert id in victims <==> id == victims[0] || id in victims[1..];
    }
  }

  lemma NewestKeeps(all: seq<Id>)
    ensures forall o :: o in NewestOrphans(all) ==> o in all
    ensures |NewestOrphans(all)| == |all| ==> NewestOrphans(all) == all
  {
  }

  // ----- the index thread

  lemma NoneHeld(id: Id)
    ensures !HasId([], id)
  {
  }

  lemma MarkFates(s: Settings, y: System, id: Id)
    requires Sound(s, y) && Enabled(s, y, MarkDocument)
    ensures var c, c', x := y.cat, Next(s, y, MarkDocument).cat, y.phase.batch[0];
            (Live(c', id) <==> Live(c, id)) && (QueuedIn(c', id) <==> QueuedIn(c, id)) && c'.orphans == c.orphans && c'.dropped == c.dropped &&
            |c'.heap| == |c.heap| && (id != x.id ==> SameFlow(At(c, id), At(c', id))) && forall k :: Unflushed(At(c', id), k) == Unflushed(At(c, id), k) - SumFor([x], id, k)
  {
    hide Sound, Indexed, DocumentMarked, EntriesOk, Claims, RowsExist, Live, At, DistinctHashes, EntryOk, MarkedEntry;
    SoundParts(s, y);
    var c, x, base := y.cat, y.phase.batch[0], y.phase.bases[0];
    assert x in y.phase.batch;
    OutHere(c, x);
    OutAlone(c, x);
    DocumentMarkedIndexed(s, c, x, base);
    var c' := DocumentMarked(c, x, base);
    MarkedFields(At(c, x.id), x, base, Live(c, x.id));
    SteadyLive(c, c', id);
    forall k ensures Unflushed(At(c', id), k) == Unflushed(At(c, id), k) - SumFor([x], id, k) {
      SumForSingle(x, id, k);
      MarkedShare(At(c, x.id), x, base, Live(c, x.id), k);
    }
  }

  lemma SumForSingle(x: Snapshot, id: Id, k: Kind)
    ensures SumFor([x], id, k) == if x.id == id then Delta(x, k) else 0
  {
    assert [x][1..] == [];
  }

  lemma OutAlone(c: Catalog, x: Snapshot)
    requires DocumentOutOk(c, x)
    ensures Live(c, x.id) ==> x.hash !in c.documents.m
  {
  }

  lemma MarkUnreachable(s: Settings, y: System, id: Id)
    requires Sound(s, y) && Enabled(s, y, MarkDocument) && id < |y.cat.heap| && !Reachable(y, id)
    ensures !Reachable(Next(s, y, MarkDocument), id) && SameFlow(At(y.cat, id), At(Next(s, y, MarkDocument).cat, id))
  {
    hide Sound, DocumentMarked, Live, At, QueuedIn, HasId;
    MarkFates(s, y, id);
    HasSplit(y.phase.batch, id);
    NoneHeld(id);
  }

  lemma HasSplit(batch: seq<Snapshot>, id: Id)
    requires batch != []
    ensures HasId(batch, id) <==> batch[0].id == id || HasId(batch[1..], id)
  {
    HasMore(batch[0], batch[1..]);
    assert batch == [batch[0]] + batch[1..];
  }

  lemma MarkCountersFates(s: Settings, y: System, id: Id)
    requires Sound(s, y) && Enabled(s, y, MarkCounters)
    ensures var c, c' := y.cat, Next(s, y, MarkCounters).cat;
            (Live(c', id) <==> Live(c, id)) && (QueuedIn(c', id) <==> QueuedIn(c, id)) && c'.orphans == c.orphans && c'.dropped == c.dropped &&
            SameSeen(At(c, id), At(c', id)) && At(c', id).hash == At(c, id).hash && |c'.heap| == |c.heap| &&
            forall k :: Flushed(At(c', id), k) == Flushed(At(c, id), k) + SumFor(y.phase.batch, id, k)
  {
    hide Sound, Indexed, CountersMarked, EntriesOk, Claims, RowsExist, Countable, SumFor, At, Live;
    SoundParts(s, y);
    MarkCountersSound(s, y);
    forall x | x in y.phase.batch ensures x.id < |y.cat.heap| { InRange(y.cat, x); }
    CountersMarkedIndexed(s, y.cat, y.phase.batch);
    SteadyLive(y.cat, Next(s, y, MarkCounters).cat, id);
  }

  lemma MarkCountersUnreachable(s: Settings, y: System, id: Id)
    requires Sound(s, y) && Enabled(s, y, MarkCounters) && id < |y.cat.heap| && !Reachable(y, id)
    ensures !Reachable(Next(s, y, MarkCounters), id) && SameFlow(At(y.cat, id), At(Next(s, y, MarkCounters).cat, id))
  {
    hide Sound, CountersMarked, Live, At, QueuedIn, HasId, SumFor;
    MarkCountersFates(s, y, id);
    SumForHeld(y.phase.batch, id, Sightings);
    SumForHeld(y.phase.batch, id, Announces);
    NoneHeld(id);
    FlushedBoth(At(y.cat, id), At(Next(s, y, MarkCounters).cat, id));
  }

  lemma FlushedBoth(e: Entry, e': Entry)
    requires SameSeen(e, e') && e'.hash == e.hash && Flushed(e', Sightings) == Flushed(e, Sightings) && Flushed(e', Announces) == Flushed(e, Announces)
    ensures SameFlow(e, e')
  {
  }

  predicate QueueStep(step: Step) {
    step.DrainDocuments? || step.WriteDocuments? || step.DocumentsFail? || step.DrainCounters? || step.WriteCounters? || step.CountersFail? ||
    step.TakeChecks? || step.ReadChecks? || step.ApplyChecks? || step.ChecksFail?
  }

  lemma QueueFlow(s: Settings, y: System, step: Step, id: Id)
    requires Sound(s, y) && Enabled(s, y, step) && QueueStep(step)
    ensures SameFlow(At(y.cat, id), At(Next(s, y, step).cat, id)) && |Next(s, y, step).cat.heap| == |y.cat.heap|
  {
    if !step.WriteDocuments? && !step.WriteCounters? {
      hide Sound, Enabled, Next;
      FlowKept(s, y, step);
    } else {
      hide Sound;
    }
  }

  lemma QueueUnreachable(s: Settings, y: System, step: Step, id: Id)
    requires Sound(s, y) && Enabled(s, y, step) && QueueStep(step) && id < |y.cat.heap| && !Reachable(y, id)
    ensures !Reachable(Next(s, y, step), id) && SameFlow(At(y.cat, id), At(Next(s, y, step).cat, id))
  {
    hide Sound, Enabled, Next, At, QueuedIn, Live, HasId;
    QueueFlow(s, y, step, id);
    QueueFates(s, y, step, id);
  }

  /** What the steps between the queues do to an entry: it comes into reach by none, and leaves by the named ones only. */
  lemma QueueFates(s: Settings, y: System, step: Step, id: Id)
    requires Sound(s, y) && Enabled(s, y, step) && QueueStep(step)
    ensures var y' := Next(s, y, step);
            (Reachable(y', id) ==> Reachable(y, id)) && (Reachable(y, id) ==> Reachable(y', id) || !HasUnflushed(At(y.cat, id)) || Cause(y, y', step, id))
  {
    hide Sound, Enabled, Next, At, QueuedIn, Live, HasId, Reachable, HasUnflushed, LateSighting;
    match step
    case DrainDocuments(limit) => DrainDocumentsFates(s, y, limit, id);
    case DocumentsFail => DocumentsFailFates(s, y, id);
    case DrainCounters(limit) => DrainCountersFates(s, y, limit, id);
    case CountersFail => CountersFailFates(s, y, id);
    case ApplyChecks => ApplyChecksFates(s, y, id);
    case _ => SameFates(s, y, step, id);
  }

  lemma SameFates(s: Settings, y: System, step: Step, id: Id)
    requires Sound(s, y) && Enabled(s, y, step)
    requires step.WriteDocuments? || step.WriteCounters? || step.TakeChecks? || step.ReadChecks? || step.ChecksFail?
    ensures Reachable(Next(s, y, step), id) <==> Reachable(y, id)
  {
    hide Sound, At, QueuedIn, Live, HasId, DocumentsWritten, CountersWritten, BasesFor;
    if step.WriteDocuments? && y.phase.batch == [] { assert Held(y.phase) == []; }
  }

  lemma DrainDocumentsFates(s: Settings, y: System, limit: nat, id: Id)
    requires Sound(s, y) && Enabled(s, y, DrainDocuments(limit))
    ensures Reachable(Next(s, y, DrainDocuments(limit)), id) <==> Reachable(y, id)
  {
    hide Sound, Indexed, DocumentsDrained, EntriesOk, Claims, RowsExist, At, Live, DistinctIds, DocumentOf, CountsFit, HasId;
    SoundParts(s, y);
    DocumentsDrainedIndexed(s, y.cat, limit);
    DocumentsDrainedBatch(s, y.cat, limit);
    DrainedOrphans(y.cat, limit);
    var (c', batch) := DocumentsDrained(y.cat, limit);
    SameHeap(y.cat, c');
    SteadyLive(y.cat, c', id);
    NoneHeld(id);
    if HasId(batch, id) { HeldQueued(y.cat, c', batch, id); }
  }

  lemma HeldQueued(c: Catalog, c': Catalog, batch: seq<Snapshot>, id: Id)
    requires HasId(batch, id) && QueuesOnly(c, c') && forall x :: x in batch ==> CountsFit(c', x) && QueuedAs(c, x.hash, x.id)
    ensures QueuedIn(c, id)
  {
    SameHeap(c, c');
  }

  lemma DocumentsFailFates(s: Settings, y: System, id: Id)
    requires Sound(s, y) && Enabled(s, y, DocumentsFail)
    ensures var y' := Next(s, y, DocumentsFail);
            (Reachable(y', id) ==> Reachable(y, id)) && (Reachable(y, id) ==> Reachable(y', id) || Cause(y, y', DocumentsFail, id))
  {
    hide Sound, Indexed, DocumentsRequeued, EntriesOk, Claims, RowsExist, At, Live, DocumentOf, HasId, LateSighting;
    SoundParts(s, y);
    var c, batch := y.cat, y.phase.batch;
    DocumentsRequeuedIndexed(s, c, batch);
    var c' := DocumentsRequeued(c, batch);
    SameHeap(c, c');
    SteadyLive(c, c', id);
    NoneHeld(id);
    if HasId(batch, id) && At(c, id).hash !in c.documents.m {
      HeldHash(c, batch, id);
      var x :| x in batch && x.id == id && x.hash == At(c, id).hash;
      DocumentsRequeuedAll(c, batch, x);
    }
  }

  lemma HeldHash(c: Catalog, batch: seq<Snapshot>, id: Id)
    requires HasId(batch, id) && forall x :: x in batch ==> DocumentOf(c, x.hash, x.id)
    ensures exists x :: x in batch && x.id == id && x.hash == At(c, id).hash
  {
    var x :| x in batch && x.id == id;
    assert DocumentOf(c, x.hash, x.id);
  }

  lemma DrainCountersFates(s: Settings, y: System, limit: nat, id: Id)
    requires Sound(s, y) && Enabled(s, y, DrainCounters(limit))
    ensures var y' := Next(s, y, DrainCounters(limit));
            (Reachable(y', id) ==> Reachable(y, id)) &&
            (Reachable(y, id) ==> Reachable(y', id) || !HasUnflushed(At(y.cat, id)) || (y'.cat.dropped != y.cat.dropped && QueuedIn(y.cat, id)))
  {
    hide Sound, Indexed, AllCountersDrained, EntriesOk, Claims, RowsExist, At, Live, DistinctIds, CountsFit, HasId, HasUnflushed;
    SoundParts(s, y);
    AllCountersDrainedIndexed(s, y.cat, limit);
    var (c', batch) := AllCountersDrained(s, y.cat, limit);
    assert At(c', id).hash == At(y.cat, id).hash;
    SteadyLive(y.cat, c', id);
    NoneHeld(id);
    if HasId(batch, id) { HeldInReach(y.cat, batch, id); }
  }

  lemma HeldInReach(c: Catalog, batch: seq<Snapshot>, id: Id)
    requires HasId(batch, id) && forall x :: x in batch ==> x.id in c.orphans || Live(c, x.id)
    ensures id in c.orphans || Live(c, id)
  {
  }

  lemma CountersFailFates(s: Settings, y: System, id: Id)
    requires Sound(s, y) && Enabled(s, y, CountersFail)
    ensures var y' := Next(s, y, CountersFail);
            (Reachable(y', id) ==> Reachable(y, id)) && (Reachable(y, id) ==> Reachable(y', id) || PushedOut(y, y', CountersFail, id))
  {
    hide Sound, Indexed, CountersRequeued, EntriesOk, Claims, RowsExist, NewestOrphans, At, Live, HasId;
    SoundParts(s, y);
    var c, batch := y.cat, y.phase.batch;
    ShortQueue(s, c);
    CountersRequeuedIndexed(s, c, batch, c.orphans);
    var c' := CountersRequeued(c, batch);
    SameHeap(c, c');
    SteadyLive(c, c', id);
    NoneHeld(id);
    NewestKeeps(c.orphans + DeadIds(c, batch));
    if id in DeadIds(c, batch) { DeadHeld(c, batch, id); }
    if HasId(batch, id) && !Live(c, id) { HeldDead(c, batch, id); }
  }

  lemma {:induction false} DeadHeld(c: Catalog, batch: seq<Snapshot>, id: Id)
    requires id in DeadIds(c, batch)
    ensures HasId(batch, id)
  {
    HasSplit(batch, id);
    if batch[0].id != id { DeadHeld(c, batch[1..], id); }
  }

  lemma {:induction false} HeldDead(c: Catalog, batch: seq<Snapshot>, id: Id)
    requires HasId(batch, id) && !Live(c, id) && forall x :: x in batch ==> Countable(c, x)
    ensures id in DeadIds(c, batch)
  {
    HasSplit(batch, id);
    assert batch[0] in batch && Countable(c, batch[0]);
    if batch[0].id != id { HeldDead(c, batch[1..], id); }
  }

  lemma ApplyChecksFates(s: Settings, y: System, id: Id)
    requires Sound(s, y) && Enabled(s, y, ApplyChecks)
    ensures Reachable(Next(s, y, ApplyChecks), id) <==> Reachable(y, id)
  {
    hide Sound, Indexed, ChecksApplied, Claims, RowsExist, At, EntriesOk, Live, HasId, CheckedEntry;
    SoundParts(s, y);
    ChecksAppliedIndexed(s, y.cat, y.phase.hashes, y.phase.found);
    var c' := ChecksApplied(s, y.cat, y.phase.hashes, y.phase.found);
    CheckedHow(At(y.cat, id), y.phase.found);
    assert At(c', id).hash == At(y.cat, id).hash;
    SteadyLive(y.cat, c', id);
  }

  // ----- the theorem

  /**
   * An entry leaves reach holding counts the database lacks only for a named cause: a bounded queue pushed it out, it was
   * evicted before it was ever written, a newer entry took its place in the queue, or it was sighted too late.
   */
  lemma LostOnlyAtNamedPoints(s: Settings, y: System, step: Step, id: Id)
    requires Sound(s, y) && Tight(y) && Enabled(s, y, step) && Leaves(y, Next(s, y, step), id)
    ensures Cause(y, Next(s, y, step), step, id)
  {
    hide Sound, Enabled, Next, At, Crawl, Still, QueueKept, Reachable, SameFlow, Tight, Cause, HasUnflushed, QueuedIn;
    if id >= |y.cat.heap| {
      LeavesInHeap(y, Next(s, y, step), id);
      NewLeaves(s, y, step, id);
    } else {
      match step
      case Record(h, announce, peer, now, victims) => RecordLoses(s, y, h, announce, peer, now, victims, id);
      case MarkDocument => MarkLoses(s, y, id);
      case MarkCounters => MarkCountersLoses(s, y, id);
      case ResetMissing => ResetEnabled(s, y); NoReset(s, y);
      case _ =>
        if Crawls(step) {
          CrawlQueues(s, y, step);
          OutsideKept(s, y, step);
          KeptReachable(y, Next(s, y, step), id);
          Overflow(y, Next(s, y, step), step, id);
        } else {
          QueueFlow(s, y, step, id);
          QueueFates(s, y, step, id);
          SameUnflushed(At(y.cat, id), At(Next(s, y, step).cat, id));
        }
    }
  }

  lemma NewLeaves(s: Settings, y: System, step: Step, id: Id)
    requires Sound(s, y) && Enabled(s, y, step) && |y.cat.heap| <= id < |Next(s, y, step).cat.heap| && HasUnflushed(At(Next(s, y, step).cat, id))
    ensures Cause(y, Next(s, y, step), step, id)
  {
    hide Sound, Enabled, Next, At, PushedOut, LateSighting;
    var h := At(Next(s, y, step).cat, id).hash;
    NewShare(s, y, step, id, h, Sightings);
    NewShare(s, y, step, id, h, Announces);
  }

  lemma SameUnflushed(e: Entry, e': Entry)
    requires SameFlow(e, e')
    ensures HasUnflushed(e') <==> HasUnflushed(e)
  {
  }

  lemma Overflow(y: System, y': System, step: Step, id: Id)
    requires !step.Record? && !step.CountersFail?
    ensures y'.cat.dropped != y.cat.dropped && QueuedIn(y.cat, id) ==> Cause(y, y', step, id)
  {
    hide At, Live, LateSighting, QueuedIn;
  }

  lemma RecordLoses(s: Settings, y: System, h: Hash, announce: bool, peer: Option<Peer>, now: real, victims: seq<Id>, id: Id)
    requires Sound(s, y) && Tight(y) && Enabled(s, y, Record(h, announce, peer, now, victims)) && id < |y.cat.heap|
    requires var y' := Next(s, y, Record(h, announce, peer, now, victims)); Reachable(y, id) && !Reachable(y', id) && HasUnflushed(At(y'.cat, id))
    ensures Cause(y, Next(s, y, Record(h, announce, peer, now, victims)), Record(h, announce, peer, now, victims), id)
  {
    var step := Record(h, announce, peer, now, victims);
    var y' := Next(s, y, step);
    hide Sound, Recorded, ChosenVictims, Indexed, At, Live, HasId, QueuedIn, Tight, HasUnflushed, HasNews, LateSighting;
    RecordFates(s, y, h, announce, peer, now, victims, id);
    if At(y'.cat, id).base.Some? && y'.cat.dropped == y.cat.dropped {
      StepTight(s, y, step);
      TightNews(y', id);
    }
  }

  /** Unflushed counts are never negative, so whatever is unflushed is news. */
  lemma TightNews(y: System, id: Id)
    requires Tight(y)
    ensures HasUnflushed(At(y.cat, id)) ==> HasNews(At(y.cat, id))
  {
    hide Tight, At;
    TightPositive(y, id);
  }

  lemma MarkLoses(s: Settings, y: System, id: Id)
    requires Sound(s, y) && Tight(y) && Enabled(s, y, MarkDocument) && id < |y.cat.heap|
    requires var y' := Next(s, y, MarkDocument); Reachable(y, id) && !Reachable(y', id) && HasUnflushed(At(y'.cat, id))
    ensures Cause(y, Next(s, y, MarkDocument), MarkDocument, id)
  {
    hide Sound, DocumentMarked, Live, At, QueuedIn, HasId, Tight, SumFor;
    MarkFates(s, y, id);
    HasSplit(y.phase.batch, id);
    NoneHeld(id);
    StepTight(s, y, MarkDocument);
    TightPositive(Next(s, y, MarkDocument), id);
    assert y.phase.batch[..1] == [y.phase.batch[0]];
    HasSplit([y.phase.batch[0]], id);
  }

  lemma TightPositive(y: System, id: Id)
    requires Tight(y)
    ensures Unflushed(At(y.cat, id), Sightings) >= 0 && Unflushed(At(y.cat, id), Announces) >= 0
  {
    hide PhaseTight, Distinct, Flow, Unmarked, At;
    FlowPositive(y.cat, y.rows, Unmarked(y.phase), id, Sightings);
    FlowPositive(y.cat, y.rows, Unmarked(y.phase), id, Announces);
  }

  lemma FlowPositive(c: Catalog, rows: Rows, unmarked: seq<Snapshot>, id: Id, k: Kind)
    requires Flow(c, rows, unmarked)
    ensures Unflushed(At(c, id), k) >= 0
  {
    hide Flow;
    if id < |c.heap| {
      FlowHere(c, rows, unmarked, id, k);
    } else {
      assert At(c, id) == NewEntry(0, 0.0, true);
    }
  }

  lemma FlowHere(c: Catalog, rows: Rows, unmarked: seq<Snapshot>, id: Id, k: Kind)
    requires Flow(c, rows, unmarked) && id < |c.heap|
    ensures Unflushed(At(c, id), k) >= 0
  {
    hide SumFor, RowCount, At, Unflushed;
    assert FlowAt(c, rows, unmarked, id, k);
  }

  lemma MarkCountersLoses(s: Settings, y: System, id: Id)
    requires Sound(s, y) && Tight(y) && Enabled(s, y, MarkCounters) && id < |y.cat.heap|
    requires var y' := Next(s, y, MarkCounters); Reachable(y, id) && !Reachable(y', id) && HasUnflushed(At(y'.cat, id))
    ensures Cause(y, Next(s, y, MarkCounters), MarkCounters, id)
  {
    hide Sound, CountersMarked, Live, At, QueuedIn, HasId, SumFor, Tight;
    MarkCountersFates(s, y, id);
    NoneHeld(id);
    StepTight(s, y, MarkCounters);
    TightPositive(Next(s, y, MarkCounters), id);
  }

  // ----- the exact conditions

  /**
   * An entry that is evicted with counts the database lacks drops out if and only if it is not queued as a document, not
   * with the index thread, and was never written (or the full orphan queue has no place for it).
   */
  lemma EvictionLosesIff(s: Settings, y: System, h: Hash, announce: bool, peer: Option<Peer>, now: real, victims: seq<Id>, id: Id)
    requires Sound(s, y) && Tight(y) && Enabled(s, y, Record(h, announce, peer, now, victims)) && id < |y.cat.heap| && Live(y.cat, id)
    requires var y' := Next(s, y, Record(h, announce, peer, now, victims)); !Live(y'.cat, id) && HasUnflushed(At(y'.cat, id))
    ensures var y' := Next(s, y, Record(h, announce, peer, now, victims));
            (Leaves(y, y', id) <==>
              !QueuedIn(y.cat, id) && !HasId(Held(y.phase), id) && (At(y.cat, id).base.None? || id !in y'.cat.orphans)) &&
            (At(y.cat, id).base.Some? && y'.cat.dropped == y.cat.dropped ==> id in y'.cat.orphans)
  {
    var step := Record(h, announce, peer, now, victims);
    var y' := Next(s, y, step);
    hide Sound, Recorded, ChosenVictims, Indexed, At, Live, HasId, QueuedIn, Tight, HasUnflushed, HasNews;
    RecordFates(s, y, h, announce, peer, now, victims, id);
    HeapGrows(s, y, step, id);
    StepTight(s, y, step);
    TightNews(y', id);
    StepSound(s, y, step);
    if id in y'.cat.orphans { SoundOrphan(s, y', id); }
  }

  /** An evicted document drops out when it is marked, if and only if its snapshot lacks some of what its entry holds. */
  lemma MarkLosesIff(s: Settings, y: System, id: Id)
    requires Sound(s, y) && Tight(y) && Enabled(s, y, MarkDocument) && id == y.phase.batch[0].id && !Live(y.cat, id)
    ensures var x, e := y.phase.batch[0], At(y.cat, id);
            Leaves(y, Next(s, y, MarkDocument), id) <==>
              id !in y.cat.orphans && (Delta(x, Sightings) < Unflushed(e, Sightings) || Delta(x, Announces) < Unflushed(e, Announces))
  {
    hide Sound, DocumentMarked, Live, At, Tight, HasId, QueuedIn;
    var y' := Next(s, y, MarkDocument);
    MarkFates(s, y, id);
    HeapGrows(s, y, MarkDocument, id);
    HeldOnce(s, y);
    NoneHeld(id);
    HasSplit(y.phase.batch, id);
    StepTight(s, y, MarkDocument);
    TightPositive(y', id);
    SumForSingle(y.phase.batch[0], id, Sightings);
    SumForSingle(y.phase.batch[0], id, Announces);
  }

  /** The document about to be marked is neither queued again nor a second time in the batch. */
  lemma HeldOnce(s: Settings, y: System)
    requires Sound(s, y) && Tight(y) && Enabled(s, y, MarkDocument)
    ensures var id := y.phase.batch[0].id; id < |y.cat.heap| && !QueuedIn(y.cat, id) && !HasId(y.phase.batch[1..], id)
  {
    hide Indexed, EntriesOk, Claims, RowsExist, Flow, Distinct, Live, At, QueuedIn, DistinctHashes, BaseFits;
    assert y.phase.batch[0] in y.phase.batch;
    SmallerBatch(y.phase.batch);
  }

  /** A failed document of an evicted entry drops out if and only if a newer entry of the torrent is queued. */
  lemma FailureLosesIff(s: Settings, y: System, id: Id)
    requires Sound(s, y) && Tight(y) && Enabled(s, y, DocumentsFail) && HasId(y.phase.batch, id) && !Live(y.cat, id) && HasUnflushed(At(y.cat, id))
    ensures Leaves(y, Next(s, y, DocumentsFail), id) <==> id !in y.cat.orphans && At(y.cat, id).hash in y.cat.documents.m
  {
    hide Sound, Indexed, DocumentsRequeued, At, Live, DocumentOf, HasId, LateSighting, Tight, HasUnflushed, QueuedIn;
    var y' := Next(s, y, DocumentsFail);
    QueueFlow(s, y, DocumentsFail, id);
    SameUnflushed(At(y.cat, id), At(y'.cat, id));
    DocumentsFailFates(s, y, id);
    FailedStays(s, y, id);
    NoneHeld(id);
  }

  lemma FailedStays(s: Settings, y: System, id: Id)
    requires Sound(s, y) && Enabled(s, y, DocumentsFail) && HasId(y.phase.batch, id) && !Live(y.cat, id)
    ensures var c, c' := y.cat, Next(s, y, DocumentsFail).cat;
            id < |c.heap| && At(c', id) == At(c, id) && !Live(c', id) && c'.orphans == c.orphans && c'.dropped == c.dropped &&
            (QueuedIn(c', id) <==> At(c, id).hash !in c.documents.m)
  {
    hide Sound, Indexed, DocumentsRequeued, EntriesOk, Claims, RowsExist, At, Live, HasId;
    SoundParts(s, y);
    var c, batch := y.cat, y.phase.batch;
    DocumentsRequeuedIndexed(s, c, batch);
    var c' := DocumentsRequeued(c, batch);
    SameHeap(c, c');
    SteadyLive(c, c', id);
    HeldHash(c, batch, id);
    var x :| x in batch && x.id == id && x.hash == At(c, id).hash;
    assert DocumentOutOk(c, x);
    if At(c, id).hash !in c.documents.m { DocumentsRequeuedAll(c, batch, x); }
  }

  lemma SoundOrphan(s: Settings, y: System, id: Id)
    requires Sound(s, y) && id in y.cat.orphans
    ensures At(y.cat, id).base.Some?
  {
    hide Exact, Counted, Placed, InOrder, EntriesOk, Claims, PhaseOk, RowsExist;
    assert OrphanAt(y.cat, id);
  }

  // ----- the account

  function LostShare(y: System, id: Id, h: Hash, k: Kind): int {
    if Reachable(y, id) then 0 else Share(y.cat, id, h, k)
  }

  function LostBelow(y: System, n: nat, h: Hash, k: Kind): int {
    if n == 0 then 0 else LostBelow(y, n - 1, h, k) + LostShare(y, n - 1, h, k)
  }

  /** What entries out of reach hold for a hash: it will never be written. */
  function Lost(y: System, h: Hash, k: Kind): int {
    LostBelow(y, |y.cat.heap|, h, k)
  }

  function HeldBelow(y: System, n: nat, h: Hash, k: Kind): int {
    if n == 0 then 0 else HeldBelow(y, n - 1, h, k) + (if Reachable(y, n - 1) then Share(y.cat, n - 1, h, k) else 0)
  }

  /** What entries in memory, in the queues and with the index thread hold unflushed. */
  function InHand(y: System, h: Hash, k: Kind): int {
    HeldBelow(y, |y.cat.heap|, h, k)
  }

  lemma {:induction false} SharesSplit(y: System, n: nat, h: Hash, k: Kind)
    ensures SharesBelow(y.cat, n, h, k) == HeldBelow(y, n, h, k) + LostBelow(y, n, h, k)
  {
    hide Share, Reachable;
    if n > 0 { SharesSplit(y, n - 1, h, k); }
  }

  lemma {:induction false} LostGrows(y: System, y': System, n: nat, h: Hash, k: Kind)
    requires forall id: Id :: LostShare(y', id, h, k) >= LostShare(y, id, h, k)
    ensures LostBelow(y', n, h, k) >= LostBelow(y, n, h, k)
    ensures LostBelow(y', n, h, k) == LostBelow(y, n, h, k) <==> forall id: Id :: id < n ==> LostShare(y', id, h, k) == LostShare(y, id, h, k)
  {
    hide LostShare;
    if n > 0 { LostGrows(y, y', n - 1, h, k); }
  }

  lemma {:induction false} LostBeyond(y: System, n: nat, h: Hash, k: Kind)
    requires n >= |y.cat.heap|
    ensures LostBelow(y, n, h, k) == Lost(y, h, k)
  {
    hide Reachable;
    if n > |y.cat.heap| { LostBeyond(y, n - 1, h, k); }
  }

  /** An entry made by the step. */
  lemma NewShare(s: Settings, y: System, step: Step, id: Id, h: Hash, k: Kind)
    requires Sound(s, y) && Enabled(s, y, step) && id >= |y.cat.heap|
    ensures Share(Next(s, y, step).cat, id, h, k) == 0 || (step.Record? && At(Next(s, y, step).cat, id).base.None?)
  {
    hide Sound, Enabled, Next, At, Crawl, Still;
    match step
    case Record(g, announce, peer, now, victims) => RecordSound(s, y, g, announce, peer, now, victims); FreshBase(y.cat, Next(s, y, step).cat, id);
    case MarkDocument => MarkFates(s, y, id);
    case MarkCounters => MarkCountersFates(s, y, id);
    case ResetMissing => ResetEnabled(s, y); NoReset(s, y);
    case _ =>
      if Crawls(step) {
        CrawlSteps(s, y, step);
        FreshShare(y.cat, Next(s, y, step).cat, id, h, k);
      } else {
        QueueFlow(s, y, step, id);
      }
  }

  lemma FreshBase(c: Catalog, c': Catalog, id: Id)
    requires Crawl(c, c') && id >= |c.heap|
    ensures At(c', id).base.None?
  {
    assert CrawlAt(c, c', id);
  }

  lemma FreshShare(c: Catalog, c': Catalog, id: Id, h: Hash, k: Kind)
    requires Crawl(c, c') && Still(c, c') && id >= |c.heap|
    ensures Share(c', id, h, k) == 0
  {
    assert CrawlAt(c, c', id) && StillAt(c, c', id);
  }

  /** Exactly what leaves is lost. */
  lemma LostShareStep(s: Settings, y: System, step: Step, id: Id, h: Hash, k: Kind)
    requires Sound(s, y) && Tight(y) && Enabled(s, y, step)
    ensures var y' := Next(s, y, step);
            LostShare(y', id, h, k) == LostShare(y, id, h, k) + (if Leaves(y, y', id) then Share(y'.cat, id, h, k) else 0)
  {
    hide Sound, Tight, Enabled, Next, Reachable, At;
    var y' := Next(s, y, step);
    if id < |y.cat.heap| {
      HeapGrows(s, y, step, id);
      if !Reachable(y, id) { UnreachableStays(s, y, step, id); }
    } else {
      NoShareBeyond(y.cat, id, h, k);
      NoShareBeyond(y'.cat, id, h, k);
    }
  }

  lemma NoShareBeyond(c: Catalog, id: Id, h: Hash, k: Kind)
    ensures id >= |c.heap| ==> Share(c, id, h, k) == 0
  {
  }

  lemma HeapGrows(s: Settings, y: System, step: Step, id: Id)
    requires Sound(s, y) && Enabled(s, y, step)
    ensures |Next(s, y, step).cat.heap| >= |y.cat.heap|
  {
    hide Sound, Enabled, Next, At, Still, SameFlow;
    match step
    case Record(g, announce, peer, now, victims) => RecordSound(s, y, g, announce, peer, now, victims);
    case MarkDocument => MarkFates(s, y, id);
    case MarkCounters => MarkCountersFates(s, y, id);
    case ResetMissing => ResetEnabled(s, y); NoReset(s, y);
    case _ => if Crawls(step) { CrawlSteps(s, y, step); } else { QueueFlow(s, y, step, id); }
  }

  /** An entry drops out with some of the counts of a torrent. */
  predicate Drops(y: System, y': System, step: Step, id: Id, h: Hash, k: Kind) {
    DropPoint(y, y', step, id) && Share(y'.cat, id, h, k) != 0
  }

  /** The lost tally never shrinks, and it grows in a step if and only if an entry drops out at a named point. */
  lemma LostStep(s: Settings, y: System, step: Step, h: Hash, k: Kind)
    requires Sound(s, y) && Tight(y) && Enabled(s, y, step) && WritesOnce(y, step)
    ensures var y' := Next(s, y, step);
            Lost(y', h, k) >= Lost(y, h, k) && (Lost(y', h, k) > Lost(y, h, k) <==> exists id: Id :: Drops(y, y', step, id, h, k))
  {
    hide Sound, Tight, Enabled, Next, WritesOnce, Leaves, Cause, LostShare, Lost, Share;
    var y' := Next(s, y, step);
    StepTight(s, y, step);
    forall id: Id
      ensures LostShare(y', id, h, k) >= LostShare(y, id, h, k)
      ensures LostShare(y', id, h, k) == LostShare(y, id, h, k) <==> !Drops(y, y', step, id, h, k)
      ensures Drops(y, y', step, id, h, k) ==> id < |y'.cat.heap|
    {
      LostShareStep(s, y, step, id, h, k);
      SharePositive(y', id, h, k);
      if Leaves(y, y', id) { LostOnlyAtNamedPoints(s, y, step, id); LeavesInHeap(y, y', id); }
    }
    HeapGrows(s, y, step, |y.cat.heap|);
    LostGrows(y, y', |y'.cat.heap|, h, k);
    LostBeyond(y, |y'.cat.heap|, h, k);
    LostBeyond(y', |y'.cat.heap|, h, k);
  }

  lemma LeavesInHeap(y: System, y': System, id: Id)
    ensures Leaves(y, y', id) ==> id < |y'.cat.heap|
  {
    hide Reachable, HasUnflushed;
  }

  lemma SharePositive(y: System, id: Id, h: Hash, k: Kind)
    requires Tight(y)
    ensures Share(y.cat, id, h, k) >= 0
  {
    hide Tight, At;
    TightPositive(y, id);
  }

  /**
   * The account of a torrent over any interleaving: its row, what is in hand less what is written but not yet marked,
   * and what was lost make up what was there at the start and every sighting since.
   */
  lemma Account(s: Settings, y: System, steps: seq<Step>, h: Hash, k: Kind)
    requires Start(y) && Run(s, y, steps)
    ensures var z := After(s, y, steps);
            RowCount(z.rows, h, k) + InHand(z, h, k) - BatchSum(Unmarked(z.phase), h, k) + Lost(z, h, k) == RowCount(y.rows, h, k) + RecordedIn(steps, h, k)
  {
    hide Sound, Run, After, RowCount, Start, Unmarked, Reachable, Share;
    StartSound(s, y);
    StartTight(s, y);
    RunConserves(s, y, steps, h, k);
    SharesSplit(After(s, y, steps), |After(s, y, steps).cat.heap|, h, k);
    assert Total(y, h, k) == RowCount(y.rows, h, k);
  }

  /** No step of the run drops counts of the torrent. */
  ghost predicate NoDrops(s: Settings, y: System, steps: seq<Step>, h: Hash, k: Kind)
    decreases |steps|
  {
    steps == [] ||
    ((forall id: Id :: !Drops(y, Next(s, y, steps[0]), steps[0], id, h, k)) && NoDrops(s, Next(s, y, steps[0]), steps[1..], h, k))
  }

  /** A run loses nothing of a torrent if and only if no entry drops out with some of its counts. */
  lemma {:induction false} RunLosesNothing(s: Settings, y: System, steps: seq<Step>, h: Hash, k: Kind)
    requires Sound(s, y) && Tight(y) && Run(s, y, steps) && GuardedRun(s, y, steps)
    ensures Lost(After(s, y, steps), h, k) >= Lost(y, h, k)
    ensures Lost(After(s, y, steps), h, k) == Lost(y, h, k) <==> NoDrops(s, y, steps, h, k)
    decreases |steps|
  {
    hide Sound, Tight, Enabled, Next, WritesOnce, Drops, Lost;
    if steps != [] {
      LostStep(s, y, steps[0], h, k);
      StepSound(s, y, steps[0]);
      StepTight(s, y, steps[0]);
      RunLosesNothing(s, Next(s, y, steps[0]), steps[1..], h, k);
    }
  }

  // ----- runs without eviction

  /** A step that records a sighting finds room for it. */
  predicate EvictsNothing(s: Settings, y: System, step: Step) {
    match step
    case Record(h, announce, peer, now, _) => |Noted(s, y.cat, h, announce, peer, now).entries.m| <= s.maxEntries
    case _ => true
  }

  ghost predicate AllLive(c: Catalog) {
    forall id: Id :: id < |c.heap| ==> Live(c, id)
  }

  lemma AllStayLive(s: Settings, y: System, step: Step)
    requires Sound(s, y) && Enabled(s, y, step) && EvictsNothing(s, y, step) && AllLive(y.cat)
    ensures AllLive(Next(s, y, step).cat)
  {
    hide Sound, Enabled, Next, At, Live;
    var y' := Next(s, y, step);
    forall id: Id | id < |y'.cat.heap| ensures Live(y'.cat, id) { StaysLive(s, y, step, id); }
  }

  lemma StaysLive(s: Settings, y: System, step: Step, id: Id)
    requires Sound(s, y) && Enabled(s, y, step) && EvictsNothing(s, y, step) && AllLive(y.cat) && id < |Next(s, y, step).cat.heap|
    ensures Live(Next(s, y, step).cat, id)
  {
    hide Sound, Enabled, Next, At, Live, EvictsNothing, QueueKept;
    match step
    case Record(h, announce, peer, now, victims) => RecordedLive(s, y, h, announce, peer, now, victims, id);
    case MarkDocument => MarkLive(s, y, id);
    case MarkCounters => MarkCountersLive(s, y, id);
    case ResetMissing => ResetEnabled(s, y); NoReset(s, y);
    case _ =>
      if Crawls(step) {
        CrawlQueues(s, y, step);
        KeptLive(y.cat, Next(s, y, step).cat, id);
      } else {
        QueueLive(s, y, step, id);
      }
  }

  lemma KeptLive(c: Catalog, c': Catalog, id: Id)
    requires QueueKept(c, c') && AllLive(c) && id < |c'.heap|
    ensures Live(c', id)
  {
    hide At, OnlyOverflow, QueuesLive, Live;
    assert Live(c, id);
    SteadyLive(c, c', id);
  }

  lemma RecordedLive(s: Settings, y: System, h: Hash, announce: bool, peer: Option<Peer>, now: real, victims: seq<Id>, id: Id)
    requires Sound(s, y) && EvictsNothing(s, y, Record(h, announce, peer, now, victims)) && AllLive(y.cat)
    requires id < |Next(s, y, Record(h, announce, peer, now, victims)).cat.heap|
    ensures Live(Next(s, y, Record(h, announce, peer, now, victims)).cat, id)
  {
    hide Sound, Noted, Indexed, Sighted, At, Live, Became;
    SoundParts(s, y);
    var (c1, i) := GotOrCreated(y.cat, h, now);
    var c2 := Noted(s, y.cat, h, announce, peer, now);
    NotedIndexed(s, y.cat, h, announce, peer, now);
    SightedTags(s, At(c1, i), announce, peer, now);
    BecameFates(c1, c2, i, Sighted(s, At(c1, i), announce, peer, now), id);
    BecameSize(c1, c2, i, Sighted(s, At(c1, i), announce, peer, now));
    if id < |y.cat.heap| {
      CreatedOthers(s, y.cat, h, now, id);
    } else {
      assert id == i;
    }
  }

  lemma BecameSize(c: Catalog, c': Catalog, id: Id, e: Entry)
    requires Became(c, c', id, e)
    ensures |c'.heap| == |c.heap|
  {
  }

  /** In any state: a sighting that finds room loses nothing. */
  lemma RoomLosesNothing(s: Settings, y: System, h: Hash, announce: bool, peer: Option<Peer>, now: real, victims: seq<Id>, x: Hash, k: Kind)
    requires Sound(s, y) && Tight(y) && Enabled(s, y, Record(h, announce, peer, now, victims)) && EvictsNothing(s, y, Record(h, announce, peer, now, victims))
    ensures Lost(Next(s, y, Record(h, announce, peer, now, victims)), x, k) == Lost(y, x, k)
  {
    var step := Record(h, announce, peer, now, victims);
    var y' := Next(s, y, step);
    hide Sound, Tight, Enabled, Next, WritesOnce, Leaves, Cause, LostShare, Lost, Share, Noted;
    assert WritesOnce(y, step) by { RecordNoWrite(y, step); }
    LostStep(s, y, step, x, k);
    forall id: Id ensures !Drops(y, y', step, id, x, k) { RoomKeeps(s, y, h, announce, peer, now, victims, id); }
  }

  lemma RecordNoWrite(y: System, step: Step)
    ensures step.Record? ==> WritesOnce(y, step)
  {
  }

  lemma RoomKeeps(s: Settings, y: System, h: Hash, announce: bool, peer: Option<Peer>, now: real, victims: seq<Id>, id: Id)
    requires Sound(s, y) && EvictsNothing(s, y, Record(h, announce, peer, now, victims))
    ensures !Leaves(y, Next(s, y, Record(h, announce, peer, now, victims)), id)
  {
    hide Sound, Noted, Indexed, Sighted, At, Live, Became, HasId, QueuedIn, HasUnflushed;
    SoundParts(s, y);
    if id < |y.cat.heap| {
      NotedFates(s, y, h, announce, peer, now, id);
    } else {
      var (c1, i) := GotOrCreated(y.cat, h, now);
      var e := Sighted(s, At(c1, i), announce, peer, now);
      NotedIndexed(s, y.cat, h, announce, peer, now);
      SightedTags(s, At(c1, i), announce, peer, now);
      BecameLive(c1, Noted(s, y.cat, h, announce, peer, now), i, e);
      BecameSize(c1, Noted(s, y.cat, h, announce, peer, now), i, e);
    }
  }

  ghost predicate RunEvictsNothing(s: Settings, y: System, steps: seq<Step>)
    decreases |steps|
  {
    steps == [] || (EvictsNothing(s, y, steps[0]) && RunEvictsNothing(s, Next(s, y, steps[0]), steps[1..]))
  }

  lemma {:induction false} RunStaysLive(s: Settings, y: System, steps: seq<Step>)
    requires Sound(s, y) && AllLive(y.cat) && Run(s, y, steps) && RunEvictsNothing(s, y, steps)
    ensures AllLive(After(s, y, steps).cat)
    decreases |steps|
  {
    hide Sound, Enabled, Next, EvictsNothing, AllLive;
    if steps != [] {
      AllStayLive(s, y, steps[0]);
      StepSound(s, y, steps[0]);
      RunStaysLive(s, Next(s, y, steps[0]), steps[1..]);
    }
  }

  lemma {:induction false} LiveLosesNothing(y: System, n: nat, h: Hash, k: Kind)
    requires AllLive(y.cat) && n <= |y.cat.heap|
    ensures LostBelow(y, n, h, k) == 0
  {
    hide At, Live, QueuedIn, HasId, Share;
    if n > 0 { LiveLosesNothing(y, n - 1, h, k); }
  }

  /** As long as nothing is evicted nothing is lost, whatever fails, overflows or is requeued. */
  lemma NothingEvictedNothingLost(s: Settings, y: System, steps: seq<Step>, h: Hash, k: Kind)
    requires Start(y) && Run(s, y, steps) && RunEvictsNothing(s, y, steps)
    ensures Lost(After(s, y, steps), h, k) == 0
  {
    hide Sound, Run, After, RunEvictsNothing;
    StartSound(s, y);
    RunStaysLive(s, y, steps);
    LiveLosesNothing(After(s, y, steps), |After(s, y, steps).cat.heap|, h, k);
  }
}
