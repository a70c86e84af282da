/**
 * Conservation of sightings: what the database holds, plus what entries have not flushed, less what is written but
 * not yet marked, is what was there at the start plus every sighting recorded.
 */
module IndexThreadCounts {
  import opened ByteStrings
  import opened BoundedRecentMap
  import opened NodeIdentity
  import opened CatalogSpec
  import opened CatalogIndexes
  import opened CatalogMethods
  import opened CatalogFlushing
  import opened CatalogEviction
  import opened CatalogEntries
  import opened IndexThread
  import opened IndexThreadSafety

  // ----- sums

  /** What the entry at a place holds unflushed for a hash; entries of every incarnation have their place. */
  function Share(c: Catalog, id: Id, h: Hash, k: Kind): int {
    if id < |c.heap| && At(c, id).hash == h then Unflushed(At(c, id), k) else 0
  }

  function SharesBelow(c: Catalog, n: nat, h: Hash, k: Kind): int {
    if n == 0 then 0 else SharesBelow(c, n - 1, h, k) + Share(c, n - 1, h, k)
  }

  function AllShares(c: Catalog, h: Hash, k: Kind): int {
    SharesBelow(c, |c.heap|, h, k)
  }

  function BatchSum(batch: seq<Snapshot>, h: Hash, k: Kind): int {
    if batch == [] then 0 else (if batch[0].hash == h then Delta(batch[0], k) else 0) + BatchSum(batch[1..], h, k)
  }

  /** The snapshots written to the database whose entries still count them as unflushed. */
  function Unmarked(phase: Phase): seq<Snapshot> {
    match phase
    case DocumentsToMark(batch, bases) => batch
    case CountersToMark(batch, missing) => NotMissing(batch, missing)
    case _ => []
  }

  /** Everything ever counted for a hash, wherever it is now. */
  function Total(y: System, h: Hash, k: Kind): int {
    RowCount(y.rows, h, k) + AllShares(y.cat, h, k) - BatchSum(Unmarked(y.phase), h, k)
  }

  /** What a step records for a hash. */
  function Recorded1(step: Step, h: Hash, k: Kind): nat {
    if step.Record? && step.h == h && (k.Sightings? || step.announce) then 1 else 0
  }

  function RecordedIn(steps: seq<Step>, h: Hash, k: Kind): nat {
    if steps == [] then 0 else Recorded1(steps[0], h, k) + RecordedIn(steps[1..], h, k)
  }

  lemma {:induction false} SharesSame(c: Catalog, c': Catalog, n: nat, h: Hash, k: Kind)
    requires forall j: Id :: j < n ==> Share(c', j, h, k) == Share(c, j, h, k)
    ensures SharesBelow(c', n, h, k) == SharesBelow(c, n, h, k)
  {
    hide Share;
    if n > 0 { SharesSame(c, c', n - 1, h, k); }
  }

  lemma {:induction false} SharesOne(c: Catalog, c': Catalog, n: nat, id: Id, h: Hash, k: Kind)
    requires id < n && forall j: Id :: j != id ==> Share(c', j, h, k) == Share(c, j, h, k)
    ensures SharesBelow(c', n, h, k) - Share(c', id, h, k) == SharesBelow(c, n, h, k) - Share(c, id, h, k)
  {
    hide Share;
    if id == n - 1 {
      SharesSame(c, c', n - 1, h, k);
    } else {
      SharesOne(c, c', n - 1, id, h, k);
    }
  }

  lemma {:induction false} SharesBeyond(c: Catalog, n: nat, h: Hash, k: Kind)
    requires n >= |c.heap|
    ensures SharesBelow(c, n, h, k) == AllShares(c, h, k)
  {
    if n > |c.heap| { SharesBeyond(c, n - 1, h, k); }
  }

  /** A change of one entry, new or old. */
  lemma ShareMoves(c: Catalog, c': Catalog, id: Id, h: Hash, k: Kind)
    requires id < |c'.heap| && forall j: Id :: j != id ==> Share(c', j, h, k) == Share(c, j, h, k)
    ensures AllShares(c', h, k) - Share(c', id, h, k) == AllShares(c, h, k) - Share(c, id, h, k)
  {
    hide Share;
    var n := if |c.heap| > |c'.heap| then |c.heap| else |c'.heap|;
    SharesOne(c, c', n, id, h, k);
    SharesBeyond(c, n, h, k);
    SharesBeyond(c', n, h, k);
  }

  lemma SharesKept(c: Catalog, c': Catalog, h: Hash, k: Kind)
    requires forall j: Id :: Share(c', j, h, k) == Share(c, j, h, k)
    ensures AllShares(c', h, k) == AllShares(c, h, k)
  {
    hide Share;
    var n := if |c.heap| > |c'.heap| then |c.heap| else |c'.heap|;
    SharesSame(c, c', n, h, k);
    SharesBeyond(c, n, h, k);
    SharesBeyond(c', n, h, k);
  }

  lemma CrawlShares(c: Catalog, c': Catalog, h: Hash, k: Kind)
    requires Crawl(c, c') && Still(c, c')
    ensures AllShares(c', h, k) == AllShares(c, h, k)
  {
    forall j: Id ensures Share(c', j, h, k) == Share(c, j, h, k) {
      assert CrawlAt(c, c', j) && StillAt(c, c', j);
      hide QueuedIn, Live;
    }
    SharesKept(c, c', h, k);
  }

  lemma HeapShares(c: Catalog, c': Catalog, h: Hash, k: Kind)
    requires |c'.heap| == |c.heap| && forall j: Id :: SameFlow(At(c, j), At(c', j))
    ensures AllShares(c', h, k) == AllShares(c, h, k)
  {
    hide At;
    forall j: Id ensures Share(c', j, h, k) == Share(c, j, h, k) { assert SameFlow(At(c, j), At(c', j)); }
    SharesKept(c, c', h, k);
  }

  /** The same hash and the same counts, flushed or not. */
  predicate SameFlow(e: Entry, e': Entry) {
    e'.hash == e.hash && SameSeen(e, e') && e'.flushedSeen == e.flushedSeen && e'.flushedAnnounced == e.flushedAnnounced
  }

  // ----- recording

  lemma RecordShares(s: Settings, y: System, h: Hash, announce: bool, peer: Option<Peer>, now: real, victims: seq<Id>, x: Hash, k: Kind)
    requires Sound(s, y) && Enabled(s, y, Record(h, announce, peer, now, victims))
    ensures AllShares(Next(s, y, Record(h, announce, peer, now, victims)).cat, x, k) ==
            AllShares(y.cat, x, k) + (if x == h then (if k.Sightings? then 1 else One(announce)) else 0)
  {
    hide Sound, Noted, EvictedEach, ChosenVictims, Indexed, Crawl, Placed, Live, Evictees, Gone, Became, GotOrCreated, At, Sighted, AllShares, Still, EntriesOk, Claims;
    SoundParts(s, y);
    CreatedSound(s, y, h, now);
    var (c1, id) := GotOrCreated(y.cat, h, now);
    var c2 := Noted(s, y.cat, h, announce, peer, now);
    CrawlCreated(s, y.cat, h, now);
    CrawlShares(y.cat, c1, x, k);
    NotedIndexed(s, y.cat, h, announce, peer, now);
    SightedTags(s, At(c1, id), announce, peer, now);
    NotedShares(c1, c2, id, Sighted(s, At(c1, id), announce, peer, now), announce, x, k);
    if |c2.entries.m| > s.maxEntries {
      ChosenEvictees(s, c2, victims);
      EvictedEachIndexed(s, c2, victims);
      CrawlGone(c2, EvictedEach(c2, victims), victims);
      CrawlShares(c2, EvictedEach(c2, victims), x, k);
    }
  }

  lemma NotedShares(c1: Catalog, c2: Catalog, id: Id, e: Entry, announce: bool, x: Hash, k: Kind)
    requires Became(c1, c2, id, e) && id < |c1.heap| && e.hash == At(c1, id).hash
    requires e == At(c1, id).(seen := At(c1, id).seen + 1, announced := At(c1, id).announced + One(announce), lastSeen := e.lastSeen, peers := e.peers)
    ensures AllShares(c2, x, k) == AllShares(c1, x, k) + (if x == e.hash then (if k.Sightings? then 1 else One(announce)) else 0)
  {
    hide At;
    forall j: Id | j != id ensures Share(c2, j, x, k) == Share(c1, j, x, k) { }
    ShareMoves(c1, c2, id, x, k);
  }

  // ----- writing and marking

  lemma {:induction false} DocumentsCounted(rows: Rows, batch: seq<Snapshot>, h: Hash, k: Kind)
    ensures RowCount(DocumentsWritten(rows, batch), h, k) == RowCount(rows, h, k) + BatchSum(batch, h, k)
    decreases |batch|
  {
    if batch != [] { DocumentsCounted(DocumentWritten(rows, batch[0]), batch[1..], h, k); }
  }

  lemma {:induction false} CountersCounted(rows: Rows, batch: seq<Snapshot>, h: Hash, k: Kind)
    requires MissingFrom(rows, batch) == []
    ensures RowCount(CountersWritten(rows, batch), h, k) == RowCount(rows, h, k) + BatchSum(batch, h, k)
    decreases |batch|
  {
    if batch != [] {
      MissingLater(rows, CounterWritten(rows, batch[0]), batch[1..]);
      CountersCounted(CounterWritten(rows, batch[0]), batch[1..], h, k);
    }
  }

  lemma {:induction false} MissingLater(rows: Rows, rows': Rows, batch: seq<Snapshot>)
    requires forall h :: h in rows' <==> h in rows
    ensures MissingFrom(rows', batch) == MissingFrom(rows, batch)
  {
    if batch != [] { MissingLater(rows, rows', batch[1..]); }
  }

  lemma {:induction false} MarkedShares(c: Catalog, batch: seq<Snapshot>, h: Hash, k: Kind)
    requires forall x :: x in batch ==> x.id < |c.heap| && At(c, x.id).hash == x.hash
    ensures AllShares(CountersMarked(c, batch), h, k) == AllShares(c, h, k) - BatchSum(batch, h, k)
    decreases |batch|
  {
    if batch != [] {
      var x := batch[0];
      assert x in batch;
      var c1 := SetEntry(c, x.id, FlushedBy(At(c, x.id), x));
      SetFields(c, x.id, FlushedBy(At(c, x.id), x));
      hide SetEntry, At;
      forall j: Id | j != x.id ensures Share(c1, j, h, k) == Share(c, j, h, k) { }
      ShareMoves(c, c1, x.id, h, k);
      forall z | z in batch[1..] ensures z.id < |c1.heap| && At(c1, z.id).hash == z.hash { assert z in batch; }
      hide AllShares, Share;
      MarkedShares(c1, batch[1..], h, k);
    }
  }

  lemma DocumentShares(c: Catalog, c': Catalog, x: Snapshot, base: Base, h: Hash, k: Kind)
    requires Marks(c, c', x, base) && x.id < |c.heap| && At(c, x.id).hash == x.hash
    ensures AllShares(c', h, k) == AllShares(c, h, k) - BatchSum([x], h, k)
  {
    hide At, Live, AllShares, MarkedEntry;
    forall j: Id | j != x.id ensures Share(c', j, h, k) == Share(c, j, h, k) { }
    ShareMoves(c, c', x.id, h, k);
    MarkedShare(At(c, x.id), x, base, Live(c, x.id), k);
    SingleSum(x, h, k);
  }

  lemma MarkedShare(e: Entry, x: Snapshot, base: Base, live: bool, k: Kind)
    ensures MarkedEntry(e, x, base, live).hash == e.hash && Unflushed(MarkedEntry(e, x, base, live), k) == Unflushed(e, k) - Delta(x, k)
  {
  }

  lemma SingleSum(x: Snapshot, h: Hash, k: Kind)
    ensures BatchSum([x], h, k) == if x.hash == h then Delta(x, k) else 0
  {
    assert [x][1..] == [];
  }

  // ----- each kind of step

  lemma MarkDocumentConserves(s: Settings, y: System, h: Hash, k: Kind)
    requires Sound(s, y) && Enabled(s, y, MarkDocument)
    ensures Total(Next(s, y, MarkDocument), h, k) == Total(y, h, k)
  {
    hide Sound, Indexed, DocumentMarked, EntriesOk, Claims, RowsExist, Live, At, MarkedEntry, DistinctHashes, AllShares;
    SoundParts(s, y);
    var batch := y.phase.batch;
    var x, base := batch[0], y.phase.bases[0];
    assert x in batch;
    OutHere(y.cat, x);
    DocumentMarkedIndexed(s, y.cat, x, base);
    DocumentShares(y.cat, DocumentMarked(y.cat, x, base), x, base, h, k);
    assert batch == [x] + batch[1..];
    BatchSumSplit([x], batch[1..], h, k);
  }

  lemma {:induction false} BatchSumSplit(a: seq<Snapshot>, b: seq<Snapshot>, h: Hash, k: Kind)
    ensures BatchSum(a + b, h, k) == BatchSum(a, h, k) + BatchSum(b, h, k)
  {
    if a == [] {
      assert a + b == b;
    } else {
      assert (a + b)[1..] == a[1..] + b;
      BatchSumSplit(a[1..], b, h, k);
    }
  }

  lemma MarkCountersConserves(s: Settings, y: System, h: Hash, k: Kind)
    requires Sound(s, y) && Enabled(s, y, MarkCounters)
    ensures Total(Next(s, y, MarkCounters), h, k) == Total(y, h, k)
  {
    hide Sound, Indexed, CountersMarked, EntriesOk, Claims, RowsExist, At, AllShares, Countable;
    SoundParts(s, y);
    MarkCountersSound(s, y);
    forall x | x in y.phase.batch ensures x.id < |y.cat.heap| && At(y.cat, x.id).hash == x.hash { InRange(y.cat, x); }
    MarkedShares(y.cat, y.phase.batch, h, k);
  }

  lemma WriteConserves(s: Settings, y: System, step: Step, h: Hash, k: Kind)
    requires Sound(s, y) && Enabled(s, y, step) && (step.WriteDocuments? || step.WriteCounters?)
    ensures Total(Next(s, y, step), h, k) == Total(y, h, k)
  {
    hide Sound, Indexed, DocumentsWritten, CountersWritten, EntriesOk, Claims, RowsExist, AllShares, BasesFor, Countable;
    SoundParts(s, y);
    if step.WriteDocuments? {
      DocumentsCounted(y.rows, y.phase.batch, h, k);
    } else {
      NothingMissing(y.cat, y.rows, y.phase.batch);
      CountersCounted(y.rows, y.phase.batch, h, k);
    }
  }

  /** Drains, requeues and checks move entries between queues and change no count. */
  lemma QueueConserves(s: Settings, y: System, step: Step, h: Hash, k: Kind)
    requires Sound(s, y) && Enabled(s, y, step)
    requires step.DrainDocuments? || step.DocumentsFail? || step.DrainCounters? || step.CountersFail? || step.TakeChecks? || step.ReadChecks? || step.ApplyChecks? || step.ChecksFail?
    ensures Total(Next(s, y, step), h, k) == Total(y, h, k)
  {
    hide Sound, AllShares;
    FlowKept(s, y, step);
    HeapShares(y.cat, Next(s, y, step).cat, h, k);
    SamePhase(s, y, step);
  }

  lemma SamePhase(s: Settings, y: System, step: Step)
    requires Sound(s, y) && Enabled(s, y, step)
    requires step.DrainDocuments? || step.DocumentsFail? || step.DrainCounters? || step.CountersFail? || step.TakeChecks? || step.ReadChecks? || step.ApplyChecks? || step.ChecksFail?
    ensures Unmarked(Next(s, y, step).phase) == [] && Unmarked(y.phase) == [] && Next(s, y, step).rows == y.rows
  {
    hide Sound, DocumentsDrained, AllCountersDrained, DocumentsRequeued, CountersRequeued, ChecksApplied;
  }

  lemma FlowKept(s: Settings, y: System, step: Step)
    requires Sound(s, y) && Enabled(s, y, step)
    requires step.DrainDocuments? || step.DocumentsFail? || step.DrainCounters? || step.CountersFail? || step.TakeChecks? || step.ReadChecks? || step.ApplyChecks? || step.ChecksFail?
    ensures |Next(s, y, step).cat.heap| == |y.cat.heap| && forall j: Id :: SameFlow(At(y.cat, j), At(Next(s, y, step).cat, j))
  {
    hide Sound, Indexed, DocumentsDrained, AllCountersDrained, DocumentsRequeued, CountersRequeued, ChecksApplied, EntriesOk, Claims, RowsExist, At, Live,
      DistinctHashes, DocumentOf, Countable, OnlyOverflow, HasId, HasUnflushed, CountsFit, NewestOrphans;
    SoundParts(s, y);
    match step
    case DrainDocuments(limit) => DocumentsDrainedIndexed(s, y.cat, limit); SameHeap(y.cat, DocumentsDrained(y.cat, limit).0);
    case DocumentsFail => DocumentsRequeuedIndexed(s, y.cat, y.phase.batch); SameHeap(y.cat, DocumentsRequeued(y.cat, y.phase.batch));
    case DrainCounters(limit) => AllCountersDrainedIndexed(s, y.cat, limit);
    case CountersFail =>
      ShortQueue(s, y.cat);
      CountersRequeuedIndexed(s, y.cat, y.phase.batch, y.cat.orphans);
      SameHeap(y.cat, CountersRequeued(y.cat, y.phase.batch));
    case ApplyChecks => ChecksAppliedIndexed(s, y.cat, y.phase.hashes, y.phase.found);
    case _ =>
  }

  /** No step loses or makes up a count: the total grows by what the step records, and by nothing else. */
  lemma Conserved(s: Settings, y: System, step: Step, h: Hash, k: Kind)
    requires Sound(s, y) && Enabled(s, y, step)
    ensures Total(Next(s, y, step), h, k) == Total(y, h, k) + Recorded1(step, h, k)
  {
    hide Sound, AllShares, Enabled, Next, RowCount;
    match step
    case Record(g, announce, peer, now, victims) => RecordShares(s, y, g, announce, peer, now, victims, h, k); OutsideKept(s, y, step);
    case WriteDocuments => WriteConserves(s, y, step, h, k);
    case WriteCounters => WriteConserves(s, y, step, h, k);
    case MarkDocument => MarkDocumentConserves(s, y, h, k);
    case MarkCounters => MarkCountersConserves(s, y, h, k);
    case ResetMissing => ResetEnabled(s, y); NoReset(s, y);
    case _ =>
      if Crawls(step) {
        CrawlSteps(s, y, step);
        CrawlShares(y.cat, Next(s, y, step).cat, h, k);
        OutsideKept(s, y, step);
      } else {
        QueueConserves(s, y, step, h, k);
      }
  }

  lemma ResetEnabled(s: Settings, y: System)
    requires Enabled(s, y, ResetMissing)
    ensures y.phase.ToReset?
  {
  }

  predicate Crawls(step: Step) {
    step.StreamPeers? || step.ClaimLookups? || step.ReleaseLookup? || step.FinishLookup? || step.ClaimFetches? || step.StoreMetadata? ||
    step.FailFetch? || step.ReleaseFetch? || step.SwitchChecks?
  }

  lemma OutsideKept(s: Settings, y: System, step: Step)
    requires step.Record? || Crawls(step)
    ensures Next(s, y, step).rows == y.rows && Next(s, y, step).phase == y.phase
  {
  }

  /** The steps of the crawler and of the fetch engine but for recording. */
  lemma CrawlSteps(s: Settings, y: System, step: Step)
    requires Sound(s, y) && Enabled(s, y, step) && Crawls(step)
    ensures Crawl(y.cat, Next(s, y, step).cat) && Still(y.cat, Next(s, y, step).cat) && Next(s, y, step).cat.orphans == y.cat.orphans
  {
    hide Sound, Enabled, Next, Crawl, Still;
    match step
    case StreamPeers(h, peers) => StreamPeersSound(s, y, h, peers);
    case ClaimLookups(limit, now) => ClaimLookupsSound(s, y, limit, now);
    case ReleaseLookup(h) => ReleaseLookupSound(s, y, h);
    case FinishLookup(h, peers, now) => FinishLookupSound(s, y, h, peers, now);
    case ClaimFetches(ids, limit) => ClaimFetchesSound(s, y, ids, limit);
    case StoreMetadata(meta, now) => StoreSound(s, y, meta, now);
    case FailFetch(h, tried, reason, now) => FailFetchSound(s, y, h, tried, reason, now);
    case ReleaseFetch(h) => ReleaseFetchSound(s, y, h);
    case SwitchChecks(enabled) => SwitchSound(s, y, enabled);
    case _ =>
  }

  /** Over every interleaving of the three threads. */
  lemma {:induction false} RunConserves(s: Settings, y: System, steps: seq<Step>, h: Hash, k: Kind)
    requires Sound(s, y) && Run(s, y, steps)
    ensures Total(After(s, y, steps), h, k) == Total(y, h, k) + RecordedIn(steps, h, k)
    decreases |steps|
  {
    hide Sound, Enabled, Next, Total;
    if steps != [] {
      StepSound(s, y, steps[0]);
      Conserved(s, y, steps[0], h, k);
      RunConserves(s, Next(s, y, steps[0]), steps[1..], h, k);
    }
  }
}
