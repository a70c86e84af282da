/**
 * When a sighting is stored twice. An entry that is drained as a counter, evicted (which makes it an orphan) and then
 * requeued because the write failed is among the orphans twice; when both places are drained into one batch, and that
 * batch is written, its counts are added twice. This is the only way.
 */
module IndexThreadRepeats {
  import opened ByteStrings
  import opened BoundedRecentMap
  import opened NodeIdentity
  import opened CatalogSpec
  import opened CatalogIndexes
  import opened CatalogMethods
  import opened CatalogFlushing
  import opened CatalogEviction
  import opened CatalogEntries
  import opened IndexThread
  import opened IndexThreadSafety
  import opened IndexThreadCounts
  import opened IndexThreadFlow
  import opened IndexThreadResults
  import opened IndexThreadLosses

  // ----- how an orphan comes to be queued twice

  /** No entry whose write failed is an orphan already. */
  predicate NoDoubleOrphan(y: System, step: Step) {
    step.CountersFail? && y.phase.CountersOut? ==> forall x :: x in y.phase.batch ==> x.id !in y.cat.orphans
  }

  /** A failed write leaves the orphans without repeats if and only if none of its entries is an orphan already. */
  lemma RequeueRepeatsIff(s: Settings, y: System)
    requires Sound(s, y) && Enabled(s, y, CountersFail) && Next(s, y, CountersFail).cat.dropped == y.cat.dropped
    requires Distinct(y.cat.orphans) && DistinctIds(y.phase.batch)
    ensures Distinct(Next(s, y, CountersFail).cat.orphans) <==> NoDoubleOrphan(y, CountersFail)
  {
    hide Sound, Indexed, CountersRequeued, EntriesOk, Claims, RowsExist, NewestOrphans, Flow, Taken, At, Live;
    SoundParts(s, y);
    var c, batch := y.cat, y.phase.batch;
    ShortQueue(s, c);
    CountersRequeuedIndexed(s, c, batch, c.orphans);
    var all := c.orphans + DeadIds(c, batch);
    NewestAll(all);
    if NoDoubleOrphan(y, CountersFail) {
      DeadDistinct(c, batch);
      DistinctSum(c.orphans, DeadIds(c, batch));
    } else {
      var x :| x in batch && x.id in c.orphans;
      OrphanDead(s, c, x.id);
      DeadListed(c, batch, x);
      RepeatIn(c.orphans, DeadIds(c, batch), x.id);
    }
  }

  lemma NewestAll(all: seq<Id>)
    ensures |NewestOrphans(all)| == |all| ==> NewestOrphans(all) == all
  {
  }

  lemma OrphanDead(s: Settings, c: Catalog, id: Id)
    requires Indexed(s, c) && id in c.orphans
    ensures !Live(c, id)
  {
    hide Exact, Counted, Placed, InOrder;
    assert OrphanAt(c, id);
  }

  lemma {:induction false} DeadListed(c: Catalog, batch: seq<Snapshot>, x: Snapshot)
    requires x in batch && Countable(c, x) && !Live(c, x.id)
    ensures x.id in DeadIds(c, batch)
  {
    if batch[0] != x { DeadListed(c, batch[1..], x); }
  }

  lemma RepeatIn(a: seq<Id>, b: seq<Id>, id: Id)
    requires id in a && id in b
    ensures !Distinct(a + b)
  {
    var i :| 0 <= i < |a| && a[i] == id;
    var j :| 0 <= j < |b| && b[j] == id;
    assert (a + b)[i] == (a + b)[|a| + j];
  }

  lemma DistinctSum(a: seq<Id>, b: seq<Id>)
    requires Distinct(a) && Distinct(b) && forall x :: x in b ==> x !in a
    ensures Distinct(a + b)
  {
    forall i, j | 0 <= i < j < |a + b| ensures (a + b)[i] != (a + b)[j] {
      if i < |a| <= j { assert b[j - |a|] in b; }
    }
  }

  lemma DistinctNewest(a: seq<Id>)
    requires Distinct(a)
    ensures Distinct(NewestOrphans(a))
  {
  }

  lemma {:induction false} DeadDistinct(c: Catalog, batch: seq<Snapshot>)
    requires DistinctIds(batch)
    ensures Distinct(DeadIds(c, batch)) && forall id :: id in DeadIds(c, batch) ==> exists x :: x in batch && x.id == id
  {
    if batch != [] {
      SmallerBatch(batch);
      DeadDistinct(c, batch[1..]);
      assert batch[0] in batch;
      DistinctSum([batch[0].id], DeadIds(c, batch[1..]));
      forall id | id in DeadIds(c, batch) ensures exists x :: x in batch && x.id == id {
        if id in DeadIds(c, batch[1..]) { var x :| x in batch[1..] && x.id == id; assert x in batch; }
      }
    }
  }

  /** Victims were in memory, so none of them is an orphan yet. */
  lemma OwedDistinct(s: Settings, c: Catalog, victims: seq<Id>)
    requires Indexed(s, c) && Evictees(c, victims) && Distinct(c.orphans)
    ensures Distinct(NewestOrphans(c.orphans + Owed(c, victims)))
  {
    hide Indexed, HasNews, Evictable, At;
    QueuesOf(s, c);
    OwedOf(c, victims);
    forall o | o in c.orphans ensures o !in Owed(c, victims) { assert OrphanAt(c, o); }
    DistinctSum(c.orphans, Owed(c, victims));
    DistinctNewest(c.orphans + Owed(c, victims));
  }

  lemma RecordDistinct(s: Settings, y: System, h: Hash, announce: bool, peer: Option<Peer>, now: real, victims: seq<Id>)
    requires Sound(s, y) && Distinct(y.cat.orphans) && Enabled(s, y, Record(h, announce, peer, now, victims))
    ensures Distinct(Next(s, y, Record(h, announce, peer, now, victims)).cat.orphans)
  {
    hide Sound, Noted, EvictedEach, ChosenVictims, Indexed, Live, Evictees, Became, GotOrCreated, At, Sighted, EntriesOk, Claims, NewestOrphans, Owed, PhaseOk, RowsExist, Distinct;
    SoundParts(s, y);
    var c2 := Noted(s, y.cat, h, announce, peer, now);
    NotedIndexed(s, y.cat, h, announce, peer, now);
    NotedOrphans(s, y.cat, h, announce, peer, now);
    if |c2.entries.m| > s.maxEntries {
      ChosenEvictees(s, c2, victims);
      ShortQueue(s, c2);
      EvictedOrphans(s, c2, victims, c2.orphans);
      OwedDistinct(s, c2, victims);
    }
  }

  /** No other step makes an orphan repeat. */
  lemma OnlyRequeuesRepeat(s: Settings, y: System, step: Step)
    requires Sound(s, y) && Distinct(y.cat.orphans) && Enabled(s, y, step) && !step.CountersFail?
    ensures Distinct(Next(s, y, step).cat.orphans)
  {
    hide Sound, Enabled, Next, Distinct, Crawl, Still;
    match step
    case Record(h, announce, peer, now, victims) => RecordDistinct(s, y, h, announce, peer, now, victims);
    case DrainCounters(limit) => DrainDistinct(s, y, limit);
    case ResetMissing => ResetEnabled(s, y); NoReset(s, y);
    case _ => if Crawls(step) { CrawlSteps(s, y, step); } else { SameOrphans(s, y, step); }
  }

  lemma DrainDistinct(s: Settings, y: System, limit: nat)
    requires Sound(s, y) && Distinct(y.cat.orphans) && Enabled(s, y, DrainCounters(limit))
    ensures Distinct(Next(s, y, DrainCounters(limit)).cat.orphans)
  {
    hide Sound, Indexed, AllCountersDrained, EntriesOk, Claims, PhaseOk, RowsExist, At, Live, HasId, HasUnflushed, OnlyOverflow, QueuesLive, Distinct, CountsFit, DistinctIds;
    SoundParts(s, y);
    AllCountersDrainedIndexed(s, y.cat, limit);
  }

  lemma SameOrphans(s: Settings, y: System, step: Step)
    requires Sound(s, y) && Enabled(s, y, step) && !step.Record? && !Crawls(step) && !step.DrainCounters? && !step.CountersFail? && !step.ResetMissing?
    ensures Next(s, y, step).cat.orphans == y.cat.orphans
  {
    hide Sound, Enabled, At, Live, DocumentsRequeued, ChecksApplied, DocumentMarked, CountersMarked, HasId, SumFor;
    SoundParts(s, y);
    match step
    case DrainDocuments(limit) => DrainedOrphans(y.cat, limit);
    case MarkDocument => MarkFates(s, y, 0);
    case MarkCounters => MarkCountersFates(s, y, 0);
    case DocumentsFail => FailOrphans(s, y);
    case ApplyChecks => ApplyOrphans(s, y);
    case _ =>
  }

  lemma ApplyOrphans(s: Settings, y: System)
    requires Sound(s, y) && Enabled(s, y, ApplyChecks)
    ensures Next(s, y, ApplyChecks).cat.orphans == y.cat.orphans
  {
    hide Sound, Indexed, ChecksApplied, EntriesOk, Claims, RowsExist, At, Live;
    SoundParts(s, y);
    ChecksAppliedIndexed(s, y.cat, y.phase.hashes, y.phase.found);
  }

  lemma FailOrphans(s: Settings, y: System)
    requires Sound(s, y) && Enabled(s, y, DocumentsFail)
    ensures Next(s, y, DocumentsFail).cat.orphans == y.cat.orphans
  {
    hide Sound, Indexed, DocumentsRequeued, EntriesOk, Claims, RowsExist, At, Live, DocumentOf;
    SoundParts(s, y);
    DocumentsRequeuedIndexed(s, y.cat, y.phase.batch);
  }

  // ----- how it comes to be drained twice

  function IdsOf(batch: seq<Snapshot>): (r: seq<Id>)
    ensures |r| == |batch|
    ensures forall i :: 0 <= i < |r| ==> r[i] == batch[i].id
  {
    seq(|batch|, i requires 0 <= i < |batch| => batch[i].id)
  }

  /** The orphans among these that have counts to flush. */
  function WithNews(c: Catalog, ids: seq<Id>): (r: seq<Id>)
    ensures forall id :: id in r ==> id in ids
  {
    if ids == [] then [] else (if Empty?(SnapshotOf(ids[0], At(c, ids[0]))) then [] else [ids[0]]) + WithNews(c, ids[1..])
  }

  lemma {:induction false} SameWithNews(c: Catalog, c1: Catalog, ids: seq<Id>)
    requires c1.heap == c.heap
    ensures WithNews(c1, ids) == WithNews(c, ids)
  {
    if ids != [] { SameWithNews(c, c1, ids[1..]); }
  }

  /** The orphans at the front of the queue are taken, and those with news make the first part of the batch. */
  lemma {:induction false} OrphansTaken(c: Catalog, limit: nat) returns (n: nat)
    ensures var (c', first) := OrphansDrained(c, limit);
            n <= |c.orphans| && c'.orphans == c.orphans[n..] && IdsOf(first) == WithNews(c, c.orphans[..n])
    decreases |c.orphans|
  {
    hide At, SnapshotOf;
    if c.orphans == [] || limit == 0 {
      n := 0;
      assert IdsOf([]) == [];
    } else {
      var o := c.orphans[0];
      var c1 := c.(orphans := c.orphans[1..]);
      var x := SnapshotOf(o, At(c, o));
      SnapshotId(o, At(c, o));
      var m;
      if Empty?(x) {
        m := OrphansTaken(c1, limit);
      } else {
        m := OrphansTaken(c1, limit - 1);
        assert IdsOf([x] + OrphansDrained(c1, limit - 1).1) == [o] + IdsOf(OrphansDrained(c1, limit - 1).1);
      }
      n := m + 1;
      SameWithNews(c, c1, c1.orphans[..m]);
      assert c.orphans[..n][0] == o && c.orphans[..n][1..] == c1.orphans[..m];
      assert c.orphans[n..] == c1.orphans[m..];
    }
  }

  /** A batch of counters holds an entry twice if and only if an orphan with news is among the orphans taken twice. */
  lemma DrainRepeatsIff(s: Settings, y: System, limit: nat) returns (n: nat)
    requires Sound(s, y) && Enabled(s, y, DrainCounters(limit))
    ensures n <= |y.cat.orphans|
    ensures DistinctIds(AllCountersDrained(s, y.cat, limit).1) <==> Distinct(WithNews(y.cat, y.cat.orphans[..n]))
    ensures AllCountersDrained(s, y.cat, limit).0.orphans == y.cat.orphans[n..]
  {
    hide Sound, Indexed, OrphansDrained, CountersDrained, EntriesOk, Claims, PhaseOk, RowsExist, CountsFit, HasId, HasUnflushed, At, Live, OrphanAt, QueuesLive, OnlyOverflow, Distinct, DistinctIds;
    SoundParts(s, y);
    var c := y.cat;
    n := OrphansTaken(c, limit);
    var (c1, first) := OrphansDrained(c, limit);
    OrphansDrainedIndexed(s, c, limit);
    OrphansDrainedBatch(s, c, limit);
    var (c2, rest) := CountersDrained(s, c1, limit - |first|, |c1.counters.keys|);
    CountersDrainedIndexed(s, c1, limit - |first|, |c1.counters.keys|);
    SameHeap(c, c1);
    forall j: Id ensures Live(c1, j) == Live(c, j) && Live(c2, j) == Live(c, j) { SteadyLive(c, c1, j); OverflowLive(c1, c2, j); }
    JoinedIds(first, rest);
    IdsDistinct(first);
  }

  lemma IdsDistinct(batch: seq<Snapshot>)
    ensures DistinctIds(batch) <==> Distinct(IdsOf(batch))
  {
    if DistinctIds(batch) {
      forall i, j | 0 <= i < j < |IdsOf(batch)| ensures IdsOf(batch)[i] != IdsOf(batch)[j] { assert batch[i].id != batch[j].id; }
    } else {
      var i, j :| 0 <= i < j < |batch| && batch[i].id == batch[j].id;
      assert IdsOf(batch)[i] == IdsOf(batch)[j];
    }
  }

  lemma JoinedIds(a: seq<Snapshot>, b: seq<Snapshot>)
    requires DistinctIds(b) && forall x, z :: x in a && z in b ==> x.id != z.id
    ensures DistinctIds(a + b) <==> DistinctIds(a)
  {
    if DistinctIds(a) {
      forall i, j | 0 <= i < j < |a + b| ensures (a + b)[i].id != (a + b)[j].id {
        if i < |a| <= j { assert a[i] in a && b[j - |a|] in b; }
      }
    } else {
      var i, j :| 0 <= i < j < |a| && a[i].id == a[j].id;
      assert (a + b)[i] == a[i] && (a + b)[j] == a[j];
    }
  }

  // ----- what a batch holds of an entry that is in it twice

  predicate FullTwice(c: Catalog, x: Snapshot, z: Snapshot, k: Kind) {
    !Live(c, x.id) && Delta(x, k) == Unflushed(At(c, x.id), k) && Delta(z, k) == Unflushed(At(c, x.id), k)
  }

  /** An entry that is in the batch twice has left memory, and both snapshots hold all it has not flushed. */
  ghost predicate RepeatsFull(c: Catalog, batch: seq<Snapshot>) {
    forall i, j, k :: 0 <= i < j < |batch| && batch[i].id == batch[j].id ==> FullTwice(c, batch[i], batch[j], k)
  }

  ghost predicate RepeatsOk(y: System) {
    y.phase.CountersOut? ==> RepeatsFull(y.cat, y.phase.batch)
  }

  lemma RepeatsStep(s: Settings, y: System, step: Step)
    requires Sound(s, y) && Enabled(s, y, step) && RepeatsOk(y)
    ensures RepeatsOk(Next(s, y, step))
  {
    hide Sound, Enabled, Next, RepeatsFull, Crawl, Still;
    match step
    case Record(h, announce, peer, now, victims) =>
      OutsideKept(s, y, step);
      if y.phase.CountersOut? { RecordRepeats(s, y, h, announce, peer, now, victims); }
    case DrainCounters(limit) => DrainRepeats(s, y, limit);
    case ResetMissing => ResetEnabled(s, y); NoReset(s, y);
    case _ =>
      if Crawls(step) {
        OutsideKept(s, y, step);
        if y.phase.CountersOut? { CrawlRepeats(s, y, step); }
      } else {
        LeavesCountersOut(s, y, step);
      }
  }

  lemma LeavesCountersOut(s: Settings, y: System, step: Step)
    requires Sound(s, y) && Enabled(s, y, step) && !step.Record? && !Crawls(step) && !step.DrainCounters?
    ensures !Next(s, y, step).phase.CountersOut?
  {
    hide Sound, DocumentsDrained;
  }

  lemma HeldInHeap(s: Settings, y: System, x: Snapshot)
    requires Sound(s, y) && y.phase.CountersOut? && x in y.phase.batch
    ensures x.id < |y.cat.heap|
  {
    hide Indexed, EntriesOk, Claims, RowsExist;
    InRange(y.cat, x);
  }

  lemma DeadRepeats(c: Catalog, c': Catalog, batch: seq<Snapshot>)
    requires RepeatsFull(c, batch)
    requires forall x :: x in batch && !Live(c, x.id) ==> !Live(c', x.id) && SameFlow(At(c, x.id), At(c', x.id))
    ensures RepeatsFull(c', batch)
  {
    hide At, Live;
    forall i, j, k | 0 <= i < j < |batch| && batch[i].id == batch[j].id ensures FullTwice(c', batch[i], batch[j], k) {
      assert FullTwice(c, batch[i], batch[j], k) && batch[i] in batch;
    }
  }

  lemma RecordRepeats(s: Settings, y: System, h: Hash, announce: bool, peer: Option<Peer>, now: real, victims: seq<Id>)
    requires Sound(s, y) && Enabled(s, y, Record(h, announce, peer, now, victims)) && y.phase.CountersOut? && RepeatsFull(y.cat, y.phase.batch)
    ensures RepeatsFull(Next(s, y, Record(h, announce, peer, now, victims)).cat, y.phase.batch)
  {
    hide Sound, Enabled, Next, RepeatsFull, At, Live, QueuedIn, HasNews;
    var y' := Next(s, y, Record(h, announce, peer, now, victims));
    forall x | x in y.phase.batch && !Live(y.cat, x.id) ensures !Live(y'.cat, x.id) && SameFlow(At(y.cat, x.id), At(y'.cat, x.id)) {
      HeldInHeap(s, y, x);
      RecordFates(s, y, h, announce, peer, now, victims, x.id);
    }
    DeadRepeats(y.cat, y'.cat, y.phase.batch);
  }

  lemma CrawlRepeats(s: Settings, y: System, step: Step)
    requires Sound(s, y) && Enabled(s, y, step) && Crawls(step) && y.phase.CountersOut? && RepeatsFull(y.cat, y.phase.batch)
    ensures RepeatsFull(Next(s, y, step).cat, y.phase.batch)
  {
    hide Sound, Enabled, Next, RepeatsFull, At, Live, Crawl, Still, SameFlow;
    var y' := Next(s, y, step);
    CrawlSteps(s, y, step);
    forall x | x in y.phase.batch && !Live(y.cat, x.id) ensures !Live(y'.cat, x.id) && SameFlow(At(y.cat, x.id), At(y'.cat, x.id)) {
      HeldInHeap(s, y, x);
      CrawlLive(y.cat, y'.cat, x.id);
      StillFlow(y.cat, y'.cat, x.id);
    }
    DeadRepeats(y.cat, y'.cat, y.phase.batch);
  }

  lemma DrainRepeats(s: Settings, y: System, limit: nat)
    requires Sound(s, y) && Enabled(s, y, DrainCounters(limit))
    ensures RepeatsOk(Next(s, y, DrainCounters(limit)))
  {
    hide Sound, Indexed, AllCountersDrained, EntriesOk, Claims, PhaseOk, RowsExist, At, Live, HasId, HasUnflushed, OnlyOverflow, QueuesLive, Distinct, CountsFit;
    SoundParts(s, y);
    AllCountersDrainedIndexed(s, y.cat, limit);
    var (c', batch) := AllCountersDrained(s, y.cat, limit);
    DrainedTwice(s, y.cat, limit);
    forall i, j, k | 0 <= i < j < |batch| && batch[i].id == batch[j].id ensures FullTwice(c', batch[i], batch[j], k) {
      assert batch[i] in batch && batch[j] in batch;
      FitsDelta(c', batch[i], k);
      FitsDelta(c', batch[j], k);
    }
  }

  lemma FitsDelta(c: Catalog, x: Snapshot, k: Kind)
    requires CountsFit(c, x)
    ensures Delta(x, k) == Unflushed(At(c, x.id), k)
  {
  }

  lemma DrainedTwice(s: Settings, c: Catalog, limit: nat)
    requires Indexed(s, c)
    ensures var (c', batch) := AllCountersDrained(s, c, limit);
            forall i, j :: 0 <= i < j < |batch| && batch[i].id == batch[j].id ==> !Live(c', batch[i].id)
  {
    hide Indexed, OrphansDrained, CountersDrained, CountsFit, HasId, HasUnflushed, At, Live, OrphanAt, QueuesLive, OnlyOverflow;
    var (c1, first) := OrphansDrained(c, limit);
    OrphansDrainedIndexed(s, c, limit);
    OrphansDrainedBatch(s, c, limit);
    var (c2, rest) := CountersDrained(s, c1, limit - |first|, |c1.counters.keys|);
    CountersDrainedIndexed(s, c1, limit - |first|, |c1.counters.keys|);
    SameHeap(c, c1);
    forall j: Id ensures Live(c1, j) == Live(c, j) && Live(c2, j) == Live(c, j) { SteadyLive(c, c1, j); OverflowLive(c1, c2, j); }
    var batch := first + rest;
    RestDiffers(first, rest);
    forall i, j | 0 <= i < j < |batch| && batch[i].id == batch[j].id ensures !Live(c2, batch[i].id) {
      if i < |first| { assert batch[i] in first; }
    }
  }

  lemma RestDiffers(first: seq<Snapshot>, rest: seq<Snapshot>)
    requires DistinctIds(rest)
    ensures forall i, j :: |first| <= i < j < |first + rest| ==> (first + rest)[i].id != (first + rest)[j].id
  {
    forall i, j | |first| <= i < j < |first + rest| ensures (first + rest)[i].id != (first + rest)[j].id {
      assert rest[i - |first|].id != rest[j - |first|].id;
    }
  }

  // ----- the exact condition

  /** Something written and not yet marked is more than its entry holds. */
  ghost predicate StoredTwice(y: System) {
    exists id: Id, k: Kind :: SumFor(Unmarked(y.phase), id, k) > Unflushed(At(y.cat, id), k)
  }

  /** A write of counters stores more of an entry than the entry holds if and only if the batch holds an entry twice. */
  lemma WriteTwiceIff(s: Settings, y: System)
    requires Sound(s, y) && Tight(y) && RepeatsOk(y) && Enabled(s, y, WriteCounters)
    ensures StoredTwice(Next(s, y, WriteCounters)) <==> !DistinctIds(y.phase.batch)
  {
    hide Sound, Tight, At, SumFor, CountersWritten, RepeatsFull, MissingFrom, StoredTwice, DistinctIds;
    var batch, y' := y.phase.batch, Next(s, y, WriteCounters);
    WriteCountersSound(s, y);
    if DistinctIds(batch) {
      WriteCountersTight(s, y);
      TightNotTwice(y');
    } else {
      var i, j := Repeated(batch);
      var k := TwiceTooMuch(y, i, j);
      TooMuch(y', batch[i].id, k);
    }
  }

  lemma Repeated(batch: seq<Snapshot>) returns (i: nat, j: nat)
    requires !DistinctIds(batch)
    ensures i < j < |batch| && batch[i].id == batch[j].id
  {
    i, j :| 0 <= i < j < |batch| && batch[i].id == batch[j].id;
  }

  lemma TooMuch(y: System, id: Id, k: Kind)
    requires SumFor(Unmarked(y.phase), id, k) > Unflushed(At(y.cat, id), k)
    ensures StoredTwice(y)
  {
  }

  lemma TightNotTwice(y: System)
    requires Tight(y)
    ensures !StoredTwice(y)
  {
    hide SumFor, At, RowCount;
    forall id: Id, k: Kind ensures SumFor(Unmarked(y.phase), id, k) <= Unflushed(At(y.cat, id), k) {
      if id < |y.cat.heap| {
        assert FlowAt(y.cat, y.rows, Unmarked(y.phase), id, k);
      } else {
        UnmarkedInHeap(y);
        SumForNone(Unmarked(y.phase), id, k);
        NothingBeyond(y.cat, id, k);
      }
    }
  }

  lemma NothingBeyond(c: Catalog, id: Id, k: Kind)
    requires id >= |c.heap|
    ensures Unflushed(At(c, id), k) == 0
  {
  }

  lemma TwiceTooMuch(y: System, i: nat, j: nat) returns (k: Kind)
    requires Tight(y) && RepeatsOk(y) && y.phase.CountersOut?
    requires i < j < |y.phase.batch| && y.phase.batch[i].id == y.phase.batch[j].id
    ensures SumFor(y.phase.batch, y.phase.batch[i].id, k) > Unflushed(At(y.cat, y.phase.batch[i].id), k)
  {
    hide At, Live, RowCount, Flow, SumFor;
    var batch := y.phase.batch;
    assert batch[i] in batch && Taken(y.cat, batch[i]);
    k := if batch[i].seen != 0 then Sightings else Announces;
    assert FullTwice(y.cat, batch[i], batch[j], k) && DeltaFits(y.cat, batch[i], k);
    forall x | x in batch ensures Delta(x, k) >= 0 { assert Taken(y.cat, x) && DeltaFits(y.cat, x, k); }
    SumOfTwo(batch, i, j, k);
  }

  lemma {:induction false} SumOfOne(batch: seq<Snapshot>, j: nat, k: Kind)
    requires j < |batch| && forall x :: x in batch ==> Delta(x, k) >= 0
    ensures SumFor(batch, batch[j].id, k) >= Delta(batch[j], k)
  {
    hide Delta;
    SumForPositive(batch[1..], batch[j].id, k);
    assert batch[0] in batch;
    if j > 0 { SumOfOne(batch[1..], j - 1, k); }
  }

  lemma {:induction false} SumForPositive(batch: seq<Snapshot>, id: Id, k: Kind)
    requires forall x :: x in batch ==> Delta(x, k) >= 0
    ensures SumFor(batch, id, k) >= 0
  {
    hide Delta;
    if batch != [] {
      assert batch[0] in batch;
      SumForPositive(batch[1..], id, k);
    }
  }

  lemma {:induction false} SumOfTwo(batch: seq<Snapshot>, i: nat, j: nat, k: Kind)
    requires i < j < |batch| && batch[i].id == batch[j].id && forall x :: x in batch ==> Delta(x, k) >= 0
    ensures SumFor(batch, batch[i].id, k) >= Delta(batch[i], k) + Delta(batch[j], k)
  {
    hide Delta;
    assert batch[0] in batch;
    if i == 0 { SumOfOne(batch[1..], j - 1, k); } else { SumOfTwo(batch[1..], i - 1, j - 1, k); }
  }

  /** Nothing is stored twice at any point of the run. */
  ghost predicate NeverTwice(s: Settings, y: System, steps: seq<Step>)
    decreases |steps|
  {
    !StoredTwice(y) && (steps != [] ==> NeverTwice(s, Next(s, y, steps[0]), steps[1..]))
  }

  lemma {:induction false} NeverTwiceIff(s: Settings, y: System, steps: seq<Step>)
    requires Sound(s, y) && Tight(y) && RepeatsOk(y) && Run(s, y, steps)
    ensures NeverTwice(s, y, steps) <==> GuardedRun(s, y, steps)
    decreases |steps|
  {
    hide Sound, Tight, Enabled, Next, WritesOnce, StoredTwice, RepeatsOk;
    TightNotTwice(y);
    if steps != [] {
      var y1 := Next(s, y, steps[0]);
      StepSound(s, y, steps[0]);
      RepeatsStep(s, y, steps[0]);
      if WritesOnce(y, steps[0]) {
        StepTight(s, y, steps[0]);
        NeverTwiceIff(s, y1, steps[1..]);
      } else {
        NotOnce(y, steps[0]);
        WriteTwiceIff(s, y);
        assert !NeverTwice(s, y1, steps[1..]);
      }
    }
  }

  lemma NotOnce(y: System, step: Step)
    ensures !WritesOnce(y, step) ==> step == WriteCounters && y.phase.CountersOut? && !DistinctIds(y.phase.batch)
  {
  }

  /** Over every interleaving: nothing is ever stored twice if and only if no batch that is written holds an entry twice. */
  lemma StoredOnceIff(s: Settings, y: System, steps: seq<Step>)
    requires Start(y) && Run(s, y, steps)
    ensures NeverTwice(s, y, steps) <==> GuardedRun(s, y, steps)
  {
    hide Sound, Tight, Run, NeverTwice, GuardedRun;
    StartSound(s, y);
    StartTight(s, y);
    NeverTwiceIff(s, y, steps);
  }
}
