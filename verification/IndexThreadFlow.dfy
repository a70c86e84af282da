/**
 * No sighting is counted twice: as long as no batch of counters that is written holds an entry twice,
 * every entry holds at least what is written of it, and no base is ahead of its row.
 */
module IndexThreadFlow {
  import opened ByteStrings
  import opened BoundedRecentMap
  import opened NodeIdentity
  import opened CatalogSpec
  import opened CatalogIndexes
  import opened CatalogMethods
  import opened CatalogFlushing
  import opened CatalogEviction
  import opened CatalogEntries
  import opened IndexThread
  import opened IndexThreadSafety
  import opened IndexThreadCounts

  // ----- the invariant

  /** What is written and not yet marked of an entry is still unflushed there, and its base is not ahead of the row. */
  predicate FlowAt(c: Catalog, rows: Rows, unmarked: seq<Snapshot>, id: Id, k: Kind) {
    var e, out := At(c, id), SumFor(unmarked, id, k);
    0 <= out <= Unflushed(e, k) && (e.base.Some? ==> BaseCount(e.base.value, k) + Flushed(e, k) + out <= RowCount(rows, e.hash, k))
  }

  ghost predicate Flow(c: Catalog, rows: Rows, unmarked: seq<Snapshot>) {
    forall id: Id, k: Kind :: id < |c.heap| ==> FlowAt(c, rows, unmarked, id, k)
  }

  predicate DeltaFits(c: Catalog, x: Snapshot, k: Kind) {
    0 <= Delta(x, k) <= Unflushed(At(c, x.id), k)
  }

  /** A snapshot taken and not yet written: its entry still holds all of it. */
  ghost predicate Taken(c: Catalog, x: Snapshot) {
    x.id < |c.heap| && At(c, x.id).hash == x.hash && forall k :: DeltaFits(c, x, k)
  }

  /** A base about to be set: with what was flushed and what the snapshot adds it is exactly the row. */
  predicate BaseFits(c: Catalog, rows: Rows, x: Snapshot, base: Base, k: Kind) {
    Live(c, x.id) ==> BaseCount(base, k) + Flushed(At(c, x.id), k) + Delta(x, k) == RowCount(rows, x.hash, k)
  }

  ghost predicate PhaseTight(c: Catalog, rows: Rows, phase: Phase) {
    match phase
    case DocumentsOut(batch) => DistinctIds(batch) && forall x :: x in batch ==> Taken(c, x) && (Live(c, x.id) ==> x.base.None?)
    case DocumentsToMark(batch, bases) =>
      DistinctIds(batch) && |bases| == |batch| && (forall x :: x in batch ==> x.id < |c.heap|) &&
      forall i, k :: 0 <= i < |batch| ==> BaseFits(c, rows, batch[i], bases[i], k) && 0 <= Delta(batch[i], k)
    case CountersOut(batch) => forall x :: x in batch ==> Taken(c, x) && !Empty?(x)
    case CountersToMark(batch, missing) => missing == [] && DistinctIds(batch) && forall x :: x in batch ==> x.id < |c.heap|
    case _ => true
  }

  ghost predicate Tight(y: System) {
    PhaseTight(y.cat, y.rows, y.phase) && Flow(y.cat, y.rows, Unmarked(y.phase))
  }

  /** A batch of counters that is written holds each entry once. */
  ghost predicate WritesOnce(y: System, step: Step) {
    step.WriteCounters? && y.phase.CountersOut? ==> DistinctIds(y.phase.batch)
  }

  // ----- steps of the crawler and of the fetch engine

  lemma CrawlTight(y: System, y': System)
    requires Tight(y) && PhaseTight(y.cat, y.rows, y.phase) && y'.rows == y.rows && y'.phase == y.phase && Crawl(y.cat, y'.cat)
    requires PhaseOk(y.cat, y.rows, y.phase)
    ensures Tight(y')
  {
    hide At, QueuedIn, Live, Flow, SumFor, PhaseOk, PhaseTight;
    CrawlPhaseTight(y.cat, y'.cat, y.rows, y.phase);
    UnmarkedInHeap(y);
    CrawlFlow(y.cat, y'.cat, y.rows, Unmarked(y.phase));
  }

  lemma UnmarkedInHeap(y: System)
    requires PhaseTight(y.cat, y.rows, y.phase)
    ensures forall x :: x in Unmarked(y.phase) ==> x.id < |y.cat.heap|
  {
  }

  lemma CrawlFlow(c: Catalog, c': Catalog, rows: Rows, unmarked: seq<Snapshot>)
    requires Flow(c, rows, unmarked) && Crawl(c, c') && forall x :: x in unmarked ==> x.id < |c.heap|
    ensures Flow(c', rows, unmarked)
  {
    hide At, QueuedIn, Live, SumFor, RowCount;
    forall id: Id, k: Kind | id < |c'.heap| ensures FlowAt(c', rows, unmarked, id, k) {
      assert CrawlAt(c, c', id);
      if id < |c.heap| {
        assert FlowAt(c, rows, unmarked, id, k);
      } else {
        SumForNone(unmarked, id, k);
      }
    }
  }

  lemma CrawlPhaseTight(c: Catalog, c': Catalog, rows: Rows, phase: Phase)
    requires PhaseTight(c, rows, phase) && Crawl(c, c')
    ensures PhaseTight(c', rows, phase)
  {
    hide At, QueuedIn, Live, RowCount, DistinctIds;
    match phase
    case DocumentsOut(batch) => forall x | x in batch ensures Taken(c', x) && (Live(c', x.id) ==> x.base.None?) { CrawlTaken(c, c', x); }
    case CountersOut(batch) => forall x | x in batch ensures Taken(c', x) && !Empty?(x) { CrawlTaken(c, c', x); }
    case DocumentsToMark(batch, bases) =>
      forall i, k | 0 <= i < |batch| ensures BaseFits(c', rows, batch[i], bases[i], k) && 0 <= Delta(batch[i], k) {
        assert batch[i] in batch;
        assert CrawlAt(c, c', batch[i].id) && BaseFits(c, rows, batch[i], bases[i], k);
      }
    case _ =>
  }

  lemma CrawlTaken(c: Catalog, c': Catalog, x: Snapshot)
    requires Taken(c, x) && Crawl(c, c')
    ensures Taken(c', x) && (Live(c', x.id) ==> Live(c, x.id))
  {
    hide At, QueuedIn, Live;
    assert CrawlAt(c, c', x.id);
    forall k ensures DeltaFits(c', x, k) { assert DeltaFits(c, x, k); }
  }

  lemma RecordTight(s: Settings, y: System, h: Hash, announce: bool, peer: Option<Peer>, now: real, victims: seq<Id>)
    requires Sound(s, y) && Tight(y) && Enabled(s, y, Record(h, announce, peer, now, victims))
    ensures Tight(Next(s, y, Record(h, announce, peer, now, victims)))
  {
    hide Sound, Recorded, Crawl, PhaseTight, Flow, PhaseOk;
    SoundParts(s, y);
    RecordSound(s, y, h, announce, peer, now, victims);
    CrawlTight(y, Next(s, y, Record(h, announce, peer, now, victims)));
  }

  lemma NotedOrphans(s: Settings, c: Catalog, h: Hash, announce: bool, peer: Option<Peer>, now: real)
    requires Indexed(s, c)
    ensures Noted(s, c, h, announce, peer, now).orphans == c.orphans
  {
    hide Indexed, Noted, Became, At, Sighted, Live;
    NotedIndexed(s, c, h, announce, peer, now);
    BecameOrphans(GotOrCreated(c, h, now).0, Noted(s, c, h, announce, peer, now), GotOrCreated(c, h, now).1, Sighted(s, At(GotOrCreated(c, h, now).0, GotOrCreated(c, h, now).1), announce, peer, now));
  }

  lemma BecameOrphans(c: Catalog, c': Catalog, id: Id, e: Entry)
    requires Became(c, c', id, e)
    ensures c'.orphans == c.orphans
  {
  }

  lemma {:induction false} OwedOf(c: Catalog, victims: seq<Id>)
    requires Distinct(victims)
    ensures Distinct(Owed(c, victims)) && forall v :: v in Owed(c, victims) ==> v in victims
  {
    hide HasNews, At;
    if victims != [] {
      OwedOf(c, victims[1..]);
      assert victims[0] !in victims[1..];
    }
  }

  // ----- the index thread

  /** Steps that leave every entry's counts and base and all rows as they are, with nothing written and unmarked. */
  lemma IdleFlow(c: Catalog, c': Catalog, rows: Rows)
    requires Flow(c, rows, []) && |c'.heap| == |c.heap| && forall j: Id :: SameFlow(At(c, j), At(c', j)) && At(c', j).base == At(c, j).base
    ensures Flow(c', rows, [])
  {
    hide At, RowCount;
    forall id: Id, k: Kind | id < |c'.heap| ensures FlowAt(c', rows, [], id, k) {
      assert FlowAt(c, rows, [], id, k) && SameFlow(At(c, id), At(c', id));
    }
  }

  lemma DrainDocumentsTight(s: Settings, y: System, limit: nat)
    requires Sound(s, y) && Tight(y) && Enabled(s, y, DrainDocuments(limit))
    ensures Tight(Next(s, y, DrainDocuments(limit)))
  {
    hide Sound, Indexed, DocumentsDrained, EntriesOk, Claims, RowsExist, EntryOk, At, Live, DistinctIds, DocumentOf, CountsFit, HasId, Flow, Distinct, PhaseOk, Taken;
    SoundParts(s, y);
    DocumentsDrainedIndexed(s, y.cat, limit);
    DocumentsDrainedBatch(s, y.cat, limit);
    var (c', batch) := DocumentsDrained(y.cat, limit);
    SameHeap(y.cat, c');
    IdleFlow(y.cat, c', y.rows);
    DrainedOrphans(y.cat, limit);
    forall x | x in batch ensures Taken(c', x) && (Live(c', x.id) ==> x.base.None?) {
      FitsTaken(c', y.rows, x);
      DrainedBase(s, y.cat, c', x);
    }
  }

  lemma DrainedOrphans(c: Catalog, limit: nat)
    ensures DocumentsDrained(c, limit).0.orphans == c.orphans
  {
  }

  lemma FitsTaken(c: Catalog, rows: Rows, x: Snapshot)
    requires Flow(c, rows, []) && CountsFit(c, x)
    ensures Taken(c, x)
  {
    forall k ensures DeltaFits(c, x, k) { assert FlowAt(c, rows, [], x.id, k); }
  }

  lemma DrainedBase(s: Settings, c: Catalog, c': Catalog, x: Snapshot)
    requires EntriesOk(s, c) && QueuesOnly(c, c') && CountsFit(c', x) && DocumentOf(c', x.hash, x.id)
    ensures Live(c', x.id) ==> x.base.None?
  {
    SteadyLive(c, c', x.id);
    SameHeap(c, c');
    if Live(c', x.id) { assert EntryOk(s, At(c, x.id)); }
  }

  /** Different entries: a batch holds at most one snapshot of each. */
  lemma {:induction false} SumForOne(batch: seq<Snapshot>, x: Snapshot, k: Kind)
    requires DistinctIds(batch) && x in batch
    ensures SumFor(batch, x.id, k) == Delta(x, k)
  {
    if batch[0] == x {
      SumForNone(batch[1..], x.id, k);
    } else {
      var i :| 0 <= i < |batch| && batch[i] == x;
      assert batch[0].id != batch[i].id;
      assert batch[1..][i - 1] == x;
      SumForOne(batch[1..], x, k);
    }
  }

  lemma {:induction false} SumBelowBatch(c: Catalog, batch: seq<Snapshot>, id: Id, k: Kind)
    requires forall x :: x in batch ==> Taken(c, x)
    ensures SumFor(batch, id, k) <= BatchSum(batch, At(c, id).hash, k)
  {
    hide At;
    if batch != [] {
      assert batch[0] in batch;
      assert DeltaFits(c, batch[0], k);
      SumBelowBatch(c, batch[1..], id, k);
    }
  }

  /** A transaction that commits moves a batch from taken to written. */
  lemma WriteFlow(c: Catalog, rows: Rows, rows': Rows, batch: seq<Snapshot>)
    requires Flow(c, rows, []) && DistinctIds(batch) && forall x :: x in batch ==> Taken(c, x)
    requires forall h, k :: RowCount(rows', h, k) == RowCount(rows, h, k) + BatchSum(batch, h, k)
    ensures Flow(c, rows', batch)
  {
    hide At, RowCount, DistinctIds, SumFor, BatchSum, Taken;
    forall id: Id, k: Kind | id < |c.heap| ensures FlowAt(c, rows', batch, id, k) {
      assert FlowAt(c, rows, [], id, k);
      SumForEmpty(id, k);
      SumBelowBatch(c, batch, id, k);
      SumWithin(c, batch, id, k);
      assert RowCount(rows', At(c, id).hash, k) == RowCount(rows, At(c, id).hash, k) + BatchSum(batch, At(c, id).hash, k);
    }
  }

  lemma SumForEmpty(id: Id, k: Kind)
    ensures SumFor([], id, k) == 0
  {
  }

  lemma SumWithin(c: Catalog, batch: seq<Snapshot>, id: Id, k: Kind)
    requires DistinctIds(batch) && (forall x :: x in batch ==> Taken(c, x)) && Unflushed(At(c, id), k) >= 0
    ensures 0 <= SumFor(batch, id, k) <= Unflushed(At(c, id), k)
  {
    if x :| x in batch && x.id == id {
      SumForOne(batch, x, k);
      assert DeltaFits(c, x, k);
    } else {
      SumForNone(batch, id, k);
    }
  }

  /** With different hashes, the counters found before are those of the rows before. */
  lemma {:induction false} PreviousIs(rows: Rows, batch: seq<Snapshot>, h: Hash)
    requires DistinctHashes(batch)
    ensures h in Previous(rows, batch) <==> h in rows && exists x :: x in batch && x.hash == h
    ensures h in Previous(rows, batch) ==> Previous(rows, batch)[h] == BaseOf(rows[h])
    decreases |batch|
  {
    if batch != [] {
      assert forall x :: x in batch <==> x == batch[0] || x in batch[1..];
      assert forall x :: x in batch[1..] ==> x.hash != batch[0].hash;
      PreviousIs(DocumentWritten(rows, batch[0]), batch[1..], h);
    }
  }

  lemma {:induction false} BaseForEach(batch: seq<Snapshot>, previous: map<Hash, Base>, i: nat)
    requires i < |batch|
    ensures BasesFor(batch, previous)[i] ==
            if batch[i].base.Some? then batch[i].base.value else if batch[i].hash in previous then previous[batch[i].hash] else NO_BASE
  {
    if i > 0 { BaseForEach(batch[1..], previous, i - 1); }
  }

  lemma {:induction false} BatchSumOne(batch: seq<Snapshot>, x: Snapshot, k: Kind)
    requires DistinctHashes(batch) && x in batch
    ensures BatchSum(batch, x.hash, k) == Delta(x, k)
  {
    if batch[0] == x {
      BatchSumNone(batch[1..], x.hash, k);
    } else {
      var i :| 0 <= i < |batch| && batch[i] == x;
      assert batch[0].hash != batch[i].hash;
      assert batch[1..][i - 1] == x;
      BatchSumOne(batch[1..], x, k);
    }
  }

  lemma {:induction false} BatchSumNone(batch: seq<Snapshot>, h: Hash, k: Kind)
    requires forall x :: x in batch ==> x.hash != h
    ensures BatchSum(batch, h, k) == 0
  {
    if batch != [] {
      assert batch[0] in batch;
      BatchSumNone(batch[1..], h, k);
    }
  }

  lemma WriteDocumentsTight(s: Settings, y: System)
    requires Sound(s, y) && Tight(y) && Enabled(s, y, WriteDocuments)
    ensures Tight(Next(s, y, WriteDocuments))
  {
    hide Sound, Indexed, DocumentsWritten, EntriesOk, Claims, RowsExist, DistinctHashes, DocumentOutOk, Flow, Taken, Live, Previous, BasesFor, Distinct, RowCount, BatchSum, DistinctIds, BaseFits;
    SoundParts(s, y);
    var c, batch := y.cat, y.phase.batch;
    var rows' := DocumentsWritten(y.rows, batch);
    forall h, k ensures RowCount(rows', h, k) == RowCount(y.rows, h, k) + BatchSum(batch, h, k) { DocumentsCounted(y.rows, batch, h, k); }
    WriteFlow(c, y.rows, rows', batch);
    var bases := BasesFor(batch, Previous(y.rows, batch));
    forall i, k | 0 <= i < |batch| ensures BaseFits(c, rows', batch[i], bases[i], k) && 0 <= Delta(batch[i], k) && batch[i].id < |c.heap| {
      assert batch[i] in batch;
      NewBaseFits(s, c, y.rows, rows', batch, i, k);
    }
    forall x | x in batch ensures x.id < |c.heap| { TakenHere(c, x); }
    UnmarkedAfter(batch, bases);
  }

  lemma TakenHere(c: Catalog, x: Snapshot)
    requires Taken(c, x)
    ensures x.id < |c.heap| && At(c, x.id).hash == x.hash && forall k :: 0 <= Delta(x, k) <= Unflushed(At(c, x.id), k)
  {
    forall k ensures 0 <= Delta(x, k) <= Unflushed(At(c, x.id), k) { assert DeltaFits(c, x, k); }
  }

  lemma NewBaseFits(s: Settings, c: Catalog, rows: Rows, rows': Rows, batch: seq<Snapshot>, i: nat, k: Kind)
    requires EntriesOk(s, c) && DistinctHashes(batch) && i < |batch| && Taken(c, batch[i]) && DocumentOutOk(c, batch[i])
    requires Live(c, batch[i].id) ==> batch[i].base.None?
    requires forall h, k :: RowCount(rows', h, k) == RowCount(rows, h, k) + BatchSum(batch, h, k)
    ensures BaseFits(c, rows', batch[i], BasesFor(batch, Previous(rows, batch))[i], k) && 0 <= Delta(batch[i], k) && batch[i].id < |c.heap|
  {
    hide DistinctHashes, BatchSum, Previous, BasesFor;
    var x := batch[i];
    assert x in batch;
    assert DeltaFits(c, x, k);
    BaseForEach(batch, Previous(rows, batch), i);
    PreviousIs(rows, batch, x.hash);
    BatchSumOne(batch, x, k);
    if Live(c, x.id) {
      assert EntryOk(s, At(c, x.id));
      DoneFlushed(s, At(c, x.id));
    }
  }

  /** Metadata is kept only until the first write, so nothing was flushed before it. */
  lemma DoneFlushed(s: Settings, e: Entry)
    requires EntryOk(s, e) && e.meta.Some?
    ensures e.base.None? && e.flushedSeen == 0 && e.flushedAnnounced == 0
  {
  }

  lemma DocumentsFailTight(s: Settings, y: System)
    requires Sound(s, y) && Tight(y) && Enabled(s, y, DocumentsFail)
    ensures Tight(Next(s, y, DocumentsFail))
  {
    hide Sound, Indexed, DocumentsRequeued, EntriesOk, Claims, RowsExist, DistinctHashes, DocumentOf, Flow, Distinct, Taken, DistinctIds, At;
    SoundParts(s, y);
    DocumentsRequeuedIndexed(s, y.cat, y.phase.batch);
    SameHeap(y.cat, DocumentsRequeued(y.cat, y.phase.batch));
    IdleFlow(y.cat, DocumentsRequeued(y.cat, y.phase.batch), y.rows);
  }

  lemma MarkDocumentTight(s: Settings, y: System)
    requires Sound(s, y) && Tight(y) && Enabled(s, y, MarkDocument)
    ensures Tight(Next(s, y, MarkDocument))
  {
    hide Sound, Indexed, DocumentMarked, EntriesOk, Claims, RowsExist, Live, At, MarkedEntry, DistinctHashes, Flow, Distinct, DistinctIds, BaseFits;
    SoundParts(s, y);
    var batch, bases := y.phase.batch, y.phase.bases;
    var x, base := batch[0], bases[0];
    assert x in batch;
    OutHere(y.cat, x);
    DocumentMarkedIndexed(s, y.cat, x, base);
    var c' := DocumentMarked(y.cat, x, base);
    assert Marks(y.cat, c', x, base);
    forall k ensures BaseFits(y.cat, y.rows, x, base, k) { assert BaseFits(y.cat, y.rows, batch[0], bases[0], k); }
    MarkedFlow(y.cat, c', y.rows, batch, base);
    SmallerBatch(batch);
    forall i, k | 0 <= i < |batch[1..]| ensures BaseFits(c', y.rows, batch[1..][i], bases[1..][i], k) && 0 <= Delta(batch[1..][i], k) {
      assert BaseFits(y.cat, y.rows, batch[i + 1], bases[i + 1], k) && 0 <= Delta(batch[i + 1], k);
      OtherBaseFits(y.cat, c', y.rows, x, base, batch[i + 1], bases[i + 1], k);
    }
    UnmarkedAfter(batch[1..], bases[1..]);
  }

  lemma UnmarkedAfter(batch: seq<Snapshot>, bases: seq<Base>)
    ensures Unmarked(ToMark(batch, bases)) == batch
  {
  }

  lemma SmallerBatch(batch: seq<Snapshot>)
    requires DistinctIds(batch) && batch != []
    ensures DistinctIds(batch[1..]) && forall x :: x in batch[1..] ==> x in batch && x.id != batch[0].id
    ensures forall i :: 0 < i < |batch| ==> batch[i].id != batch[0].id
  {
  }

  lemma OtherBaseFits(c: Catalog, c': Catalog, rows: Rows, x: Snapshot, base: Base, z: Snapshot, zbase: Base, k: Kind)
    requires Marks(c, c', x, base) && BaseFits(c, rows, z, zbase, k) && z.id != x.id
    ensures BaseFits(c', rows, z, zbase, k)
  {
    SteadyLive(c, c', z.id);
  }

  lemma MarkedFlow(c: Catalog, c': Catalog, rows: Rows, batch: seq<Snapshot>, base: Base)
    requires batch != [] && DistinctIds(batch) && Flow(c, rows, batch) && Marks(c, c', batch[0], base)
    requires At(c, batch[0].id).hash == batch[0].hash && forall k :: BaseFits(c, rows, batch[0], base, k)
    ensures Flow(c', rows, batch[1..])
  {
    var x := batch[0];
    SmallerBatch(batch);
    hide At, RowCount, DistinctIds, Live, MarkedEntry, FlowAt, SumFor, BaseFits;
    forall id: Id, k: Kind | id < |c'.heap| ensures FlowAt(c', rows, batch[1..], id, k) {
      assert FlowAt(c, rows, batch, id, k) && BaseFits(c, rows, x, base, k);
      if id == x.id {
        SumForNone(batch[1..], id, k);
        MarkedFlowAt(c, c', rows, batch, base, k);
      } else {
        OtherFlowAt(c, c', rows, batch, id, k);
      }
    }
  }

  lemma MarkedFlowAt(c: Catalog, c': Catalog, rows: Rows, batch: seq<Snapshot>, base: Base, k: Kind)
    requires batch != [] && FlowAt(c, rows, batch, batch[0].id, k) && BaseFits(c, rows, batch[0], base, k) && At(c, batch[0].id).hash == batch[0].hash
    requires At(c', batch[0].id) == MarkedEntry(At(c, batch[0].id), batch[0], base, Live(c, batch[0].id)) && SumFor(batch[1..], batch[0].id, k) == 0
    ensures FlowAt(c', rows, batch[1..], batch[0].id, k)
  {
    hide At, RowCount, Live;
  }

  lemma OtherFlowAt(c: Catalog, c': Catalog, rows: Rows, batch: seq<Snapshot>, id: Id, k: Kind)
    requires batch != [] && FlowAt(c, rows, batch, id, k) && id != batch[0].id && At(c', id) == At(c, id)
    ensures FlowAt(c', rows, batch[1..], id, k)
  {
    hide At, RowCount;
  }

  lemma DrainCountersTight(s: Settings, y: System, limit: nat)
    requires Sound(s, y) && Tight(y) && Enabled(s, y, DrainCounters(limit))
    ensures Tight(Next(s, y, DrainCounters(limit)))
  {
    hide Sound, Indexed, AllCountersDrained, EntriesOk, Claims, RowsExist, At, Live, DistinctIds, CountsFit, HasId, HasUnflushed, OnlyOverflow, Flow, Distinct, Taken;
    SoundParts(s, y);
    AllCountersDrainedIndexed(s, y.cat, limit);
    var (c', batch) := AllCountersDrained(s, y.cat, limit);
    IdleFlow(y.cat, c', y.rows);
    DrainedNotEmpty(s, y.cat, limit);
    forall x | x in batch ensures Taken(c', x) { FitsTaken(c', y.rows, x); }
  }

  /** Nothing is drained that has no news. */
  lemma DrainedNotEmpty(s: Settings, c: Catalog, limit: nat)
    ensures forall x :: x in AllCountersDrained(s, c, limit).1 ==> !Empty?(x)
  {
    hide OrphansDrained, CountersDrained, Empty?;
    var (c1, first) := OrphansDrained(c, limit);
    OrphansNotEmpty(c, limit);
    CountersNotEmpty(s, c1, limit - |first|, |c1.counters.keys|);
  }

  lemma {:induction false} OrphansNotEmpty(c: Catalog, limit: nat)
    ensures forall x :: x in OrphansDrained(c, limit).1 ==> !Empty?(x)
    decreases |c.orphans|
  {
    hide At, SnapshotOf, Empty?;
    if c.orphans != [] && limit > 0 {
      var c1 := c.(orphans := c.orphans[1..]);
      OrphansNotEmpty(c1, limit);
      OrphansNotEmpty(c1, limit - 1);
    }
  }

  lemma {:induction false} CountersNotEmpty(s: Settings, c: Catalog, limit: nat, turns: nat)
    ensures forall x :: x in CountersDrained(s, c, limit, turns).1 ==> !Empty?(x)
    decreases turns
  {
    hide At, QueueDocument, SnapshotOf, HasNews, Empty?, PopFirst, Ordered;
    if turns > 0 && c.counters.keys != [] && limit > 0 {
      var h := c.counters.keys[0];
      var id := if h in c.counters.m then c.counters.m[h] else 0;
      var c1 := c.(counters := PopFirst(c.counters));
      NewsNotEmpty(id, At(c, id));
      CountersNotEmpty(s, QueueDocument(s, c1, id), limit, turns - 1);
      CountersNotEmpty(s, c1, limit, turns - 1);
      CountersNotEmpty(s, c1, limit - 1, turns - 1);
    }
  }

  lemma NewsNotEmpty(id: Id, e: Entry)
    ensures HasNews(e) ==> !Empty?(SnapshotOf(id, e))
  {
  }

  lemma WriteCountersTight(s: Settings, y: System)
    requires Sound(s, y) && Tight(y) && Enabled(s, y, WriteCounters) && WritesOnce(y, WriteCounters)
    ensures Tight(Next(s, y, WriteCounters))
  {
    hide Sound, Indexed, CountersWritten, EntriesOk, Claims, RowsExist, Countable, Flow, Taken, Distinct, RowCount, BatchSum, DistinctIds;
    SoundParts(s, y);
    var batch := y.phase.batch;
    NothingMissing(y.cat, y.rows, batch);
    forall h, k ensures RowCount(CountersWritten(y.rows, batch), h, k) == RowCount(y.rows, h, k) + BatchSum(batch, h, k) { CountersCounted(y.rows, batch, h, k); }
    WriteFlow(y.cat, y.rows, CountersWritten(y.rows, batch), batch);
    forall x | x in batch ensures x.id < |y.cat.heap| { TakenHere(y.cat, x); }
  }

  lemma CountersFailTight(s: Settings, y: System)
    requires Sound(s, y) && Tight(y) && Enabled(s, y, CountersFail)
    ensures Tight(Next(s, y, CountersFail))
  {
    hide Sound, Indexed, CountersRequeued, EntriesOk, Claims, RowsExist, Countable, NewestOrphans, Flow, Taken, At;
    SoundParts(s, y);
    ShortQueue(s, y.cat);
    CountersRequeuedIndexed(s, y.cat, y.phase.batch, y.cat.orphans);
    SameHeap(y.cat, CountersRequeued(y.cat, y.phase.batch));
    IdleFlow(y.cat, CountersRequeued(y.cat, y.phase.batch), y.rows);
  }

  lemma MarkCountersTight(s: Settings, y: System)
    requires Sound(s, y) && Tight(y) && Enabled(s, y, MarkCounters)
    ensures Tight(Next(s, y, MarkCounters))
  {
    hide Sound, Indexed, CountersMarked, EntriesOk, Claims, RowsExist, Countable, SumFor, At, Flow, Distinct;
    SoundParts(s, y);
    MarkCountersSound(s, y);
    CountersMarkedIndexed(s, y.cat, y.phase.batch);
    FlushedFlow(y.cat, CountersMarked(y.cat, y.phase.batch), y.rows, y.phase.batch);
  }

  lemma FlushedFlow(c: Catalog, c': Catalog, rows: Rows, batch: seq<Snapshot>)
    requires Flow(c, rows, batch) && Flushes(c, c', batch)
    ensures Flow(c', rows, [])
  {
    hide At, RowCount;
    forall id: Id, k: Kind | id < |c'.heap| ensures FlowAt(c', rows, [], id, k) {
      assert FlowAt(c, rows, batch, id, k);
      hide SumFor;
      SumForEmpty(id, k);
    }
  }

  lemma ApplyChecksTight(s: Settings, y: System)
    requires Sound(s, y) && Tight(y) && Enabled(s, y, ApplyChecks)
    ensures Tight(Next(s, y, ApplyChecks))
  {
    hide Sound, Indexed, ChecksApplied, Claims, RowsExist, At, AppliedSet, EntriesOk, Flow, Distinct;
    SoundParts(s, y);
    ChecksAppliedIndexed(s, y.cat, y.phase.hashes, y.phase.found);
    AppliedFlow(s, y.cat, ChecksApplied(s, y.cat, y.phase.hashes, y.phase.found), y.rows, y.phase.hashes, y.phase.found);
  }

  lemma AppliedFlow(s: Settings, c: Catalog, c': Catalog, rows: Rows, hashes: seq<Hash>, found: map<Hash, Base>)
    requires EntriesOk(s, c) && Flow(c, rows, []) && Steady(c, c') && AppliedSet(c, c', hashes, found)
    requires forall h :: h in found ==> h in rows && found[h] == BaseOf(rows[h])
    ensures Flow(c', rows, [])
  {
    hide At, Live, EntryOk, CheckedEntry;
    forall id: Id, k: Kind | id < |c'.heap| ensures FlowAt(c', rows, [], id, k) {
      assert FlowAt(c, rows, [], id, k);
      if Live(c, id) && At(c, id).hash in hashes {
        assert EntryOk(s, At(c, id));
        CheckedFlow(s, At(c, id), rows, found, k);
      }
    }
  }

  /** A torrent found in the database starts from exactly what its row holds. */
  lemma CheckedFlow(s: Settings, e: Entry, rows: Rows, found: map<Hash, Base>, k: Kind)
    requires EntryOk(s, e) && forall h :: h in found ==> h in rows && found[h] == BaseOf(rows[h])
    ensures var e' := CheckedEntry(e, found);
            SameFlow(e, e') && (e'.base == e.base || (e'.base.Some? && BaseCount(e'.base.value, k) + Flushed(e', k) == RowCount(rows, e'.hash, k)))
  {
  }

  lemma IdleChecksTight(s: Settings, y: System, step: Step)
    requires Sound(s, y) && Tight(y) && Enabled(s, y, step) && (step.TakeChecks? || step.ReadChecks? || step.ChecksFail?)
    ensures Tight(Next(s, y, step))
  {
    hide Sound, Flow, Distinct;
  }

  lemma StepTight(s: Settings, y: System, step: Step)
    requires Sound(s, y) && Tight(y) && Enabled(s, y, step) && WritesOnce(y, step)
    ensures Tight(Next(s, y, step))
  {
    hide Sound, Enabled, Next, Flow, PhaseTight, Crawl, Still, PhaseOk, Distinct, Unmarked;
    match step
    case Record(h, announce, peer, now, victims) => RecordTight(s, y, h, announce, peer, now, victims);
    case DrainDocuments(limit) => DrainDocumentsTight(s, y, limit);
    case WriteDocuments => WriteDocumentsTight(s, y);
    case DocumentsFail => DocumentsFailTight(s, y);
    case MarkDocument => MarkDocumentTight(s, y);
    case DrainCounters(limit) => DrainCountersTight(s, y, limit);
    case WriteCounters => WriteCountersTight(s, y);
    case CountersFail => CountersFailTight(s, y);
    case MarkCounters => MarkCountersTight(s, y);
    case ResetMissing => ResetEnabled(s, y); NoReset(s, y);
    case ApplyChecks => ApplyChecksTight(s, y);
    case _ =>
      if Crawls(step) {
        SoundParts(s, y);
        CrawlSteps(s, y, step);
        OutsideKept(s, y, step);
        CrawlTight(y, Next(s, y, step));
      } else {
        IdleChecksTight(s, y, step);
      }
  }
}
