/**
 * What the flush loops of search_indexer.py leave behind: which documents are in the database and which still wait,
 * and that no counter that waited is forgotten.
 */
module FlushOutcomes {
  import opened ByteStrings
  import opened BoundedRecentMap
  import opened NodeIdentity
  import opened CatalogSpec
  import opened CatalogIndexes
  import opened CatalogMethods
  import opened CatalogFlushing
  import opened CatalogEviction
  import opened IndexThread
  import opened IndexThreadSafety
  import Counts = IndexThreadCounts
  import Flow = IndexThreadFlow

  /** How a loop of batches ends: no more time (or batches), nothing left, or a statement that failed. */
  datatype End = OutOfTime | Emptied | Broken

  /** The first n batches were taken in time and went well. */
  predicate Went(works: nat -> bool, inTime: nat -> bool, n: nat) {
    forall i: nat :: i < n ==> inTime(i) && works(i)
  }

  /** Every batch before the last was taken in time and went well, and the last one says how the loop ended. */
  predicate EndsSo(works: nat -> bool, inTime: nat -> bool, rounds: nat, end: End) {
    Went(works, inTime, rounds) &&
    match end
    case OutOfTime => !inTime(rounds)
    case Emptied => inTime(rounds)
    case Broken => inTime(rounds) && !works(rounds)
  }

  lemma WentMore(works: nat -> bool, inTime: nat -> bool, n: nat)
    ensures Went(works, inTime, 0)
    ensures Went(works, inTime, n) && inTime(n) && works(n) ==> Went(works, inTime, n + 1)
  {
  }

  /** How many of `total` are taken by batches of at most `size`. */
  function TakenBy(size: nat, total: nat, rounds: nat): (r: nat)
    ensures r <= total
  {
    if rounds == 0 then 0
    else
      var before := TakenBy(size, total, rounds - 1);
      before + Least(size, total - before)
  }

  // ----- flush_documents

  function EachMarked(n: nat): seq<Step> {
    seq(n, _ => MarkDocument)
  }

  function DocumentRounds(size: nat, total: nat, rounds: nat): seq<Step> {
    if rounds == 0 then []
    else
      DocumentRounds(size, total, rounds - 1) +
      ([DrainDocuments(size), WriteDocuments] + EachMarked(TakenBy(size, total, rounds) - TakenBy(size, total, rounds - 1)))
  }

  /** The steps of flush_documents. */
  function DocumentSteps(size: nat, total: nat, rounds: nat, end: End): seq<Step> {
    DocumentRounds(size, total, rounds) +
    match end
    case OutOfTime => []
    case Emptied => [DrainDocuments(size)]
    case Broken => [DrainDocuments(size), DocumentsFail]
  }

  /** All of an entry's counts are in its row, and while it lives it knows its row and keeps no document. */
  predicate InRow(e: Entry, live: bool) {
    !HasUnflushed(e) && (live ==> e.base.Some? && e.meta.None? && e.inDatabase)
  }

  function QueuedId(c: Catalog, i: nat): Id
    requires i < |c.documents.keys|
  {
    if c.documents.keys[i] in c.documents.m then c.documents.m[c.documents.keys[i]] else 0
  }

  /** The first t documents of c0 are written and marked, and the others wait as they did. */
  ghost predicate WrittenUpTo(c0: Catalog, rows0: Rows, c: Catalog, rows: Rows, t: nat) {
    t <= |c0.documents.keys| && c.documents == From(c0.documents, t) && rows == DocumentsWritten(rows0, SnapshotsOf(c0, c0.documents, t)) &&
    (forall i: nat :: i < t ==> InRow(At(c, QueuedId(c0, i)), Live(c, QueuedId(c0, i)))) &&
    forall i: nat :: t <= i < |c0.documents.keys| ==> At(c, QueuedId(c0, i)) == At(c0, QueuedId(c0, i))
  }

  lemma WrittenNone(c: Catalog, rows: Rows)
    requires Ordered(c.documents)
    ensures WrittenUpTo(c, rows, c, rows, 0)
  {
    FromOrdered(c.documents, 0);
  }

  lemma FromTwice(d: RawDict<Hash, Id>, t: nat, n: nat)
    requires Ordered(d) && t + n <= |d.keys|
    ensures n <= |From(d, t).keys| && From(From(d, t), n) == From(d, t + n)
  {
    assert d.keys[t..][n..] == d.keys[t + n..];
    forall x | x in d.keys[t + n..] ensures x in d.keys[t..] {
      var i :| 0 <= i < |d.keys[t + n..]| && d.keys[t + n..][i] == x;
      assert d.keys[t..][n + i] == x;
    }
    assert From(From(d, t), n).m == From(d, t + n).m;
  }

  lemma {:induction false} WrittenJoin(rows: Rows, a: seq<Snapshot>, b: seq<Snapshot>)
    ensures DocumentsWritten(DocumentsWritten(rows, a), b) == DocumentsWritten(rows, a + b)
    decreases |a|
  {
    hide DocumentWritten;
    if a == [] {
      assert a + b == b;
    } else {
      assert (a + b)[0] == a[0] && (a + b)[1..] == a[1..] + b;
      WrittenJoin(DocumentWritten(rows, a[0]), a[1..], b);
    }
  }

  lemma IdsDiffer(s: Settings, c: Catalog, i: nat, j: nat)
    requires Indexed(s, c) && i < |c.documents.keys| && j < |c.documents.keys| && i != j
    ensures QueuedId(c, i) != QueuedId(c, j)
  {
    hide Indexed, OrphanAt;
    QueuesOf(s, c);
    assert c.documents.keys[i] in c.documents.keys && c.documents.keys[j] in c.documents.keys;
    assert DocumentOf(c, c.documents.keys[i], QueuedId(c, i)) && DocumentOf(c, c.documents.keys[j], QueuedId(c, j));
    if i < j { KeysDiffer(c.documents, i, j); } else { KeysDiffer(c.documents, j, i); }
  }

  /** The i-th snapshot of a later batch is that of the entry as it was queued. */
  lemma LaterSnapshot(c0: Catalog, c: Catalog, t: nat, i: nat)
    requires Ordered(c0.documents) && t + i < |c0.documents.keys| && c.documents == From(c0.documents, t)
    requires At(c, QueuedId(c0, t + i)) == At(c0, QueuedId(c0, t + i))
    ensures i < |c.documents.keys| && QueuedId(c, i) == QueuedId(c0, t + i)
    ensures SnapshotsOf(c, c.documents, i + 1)[i] == SnapshotsOf(c0, c0.documents, t + i + 1)[t + i]
  {
    hide SnapshotOf, At;
    assert c.documents.keys[i] == c0.documents.keys[t + i];
    assert c0.documents.keys[t + i] in c0.documents.keys && c.documents.keys[i] in c0.documents.keys[t..];
  }

  lemma BatchIs(c: Catalog, d: RawDict<Hash, Id>, n: nat, i: nat)
    requires i < n <= |d.keys|
    ensures SnapshotsOf(c, d, n)[i] == SnapshotsOf(c, d, i + 1)[i]
  {
  }

  lemma LaterBatch(c0: Catalog, rows0: Rows, c: Catalog, rows: Rows, t: nat, n: nat)
    requires Ordered(c0.documents) && WrittenUpTo(c0, rows0, c, rows, t) && t + n <= |c0.documents.keys|
    ensures n <= |c.documents.keys| && SnapshotsOf(c0, c0.documents, t + n) == SnapshotsOf(c0, c0.documents, t) + SnapshotsOf(c, c.documents, n)
  {
    hide SnapshotOf, At, InRow, QueuedId, SnapshotsOf;
    assert |c.documents.keys| == |c0.documents.keys| - t;
    var all, first, next := SnapshotsOf(c0, c0.documents, t + n), SnapshotsOf(c0, c0.documents, t), SnapshotsOf(c, c.documents, n);
    forall i: nat | i < t ensures all[i] == first[i] {
      BatchIs(c0, c0.documents, t + n, i);
      BatchIs(c0, c0.documents, t, i);
    }
    forall i: nat | i < n ensures all[t + i] == next[i] {
      BatchIs(c0, c0.documents, t + n, t + i);
      BatchIs(c, c.documents, n, i);
      LaterSnapshot(c0, c, t, i);
    }
    assert all == first + next;
  }

  /** What marking a whole batch does. */
  ghost predicate BatchMarked(c: Catalog, c': Catalog, batch: seq<Snapshot>) {
    c'.documents == c.documents && c'.entries == c.entries &&
    (forall x :: x in batch ==> InRow(At(c', x.id), Live(c', x.id))) &&
    forall j: Id :: !HasId(batch, j) ==> At(c', j) == At(c, j)
  }

  lemma SnapshotIds(c: Catalog, n: nat, i: nat)
    requires i < n <= |c.documents.keys|
    ensures SnapshotsOf(c, c.documents, n)[i].id == QueuedId(c, i)
  {
  }

  /** One more batch. */
  lemma RoundWritten(s: Settings, c0: Catalog, rows0: Rows, c: Catalog, rows: Rows, t: nat, size: nat, c': Catalog, rows': Rows)
    requires Indexed(s, c0) && WrittenUpTo(c0, rows0, c, rows, t)
    requires var (c1, batch) := DocumentsDrained(c, size); BatchMarked(c1, c', batch) && rows' == DocumentsWritten(rows, batch)
    ensures WrittenUpTo(c0, rows0, c', rows', t + Least(size, |c0.documents.keys| - t))
  {
    hide Indexed, OrphanAt, DocumentOf, SnapshotOf, At, InRow, QueuedId, SnapshotsOf, Ordered, Live;
    QueuesOf(s, c0);
    var n := Least(size, |c0.documents.keys| - t);
    FromTwice(c0.documents, t, n);
    LaterBatch(c0, rows0, c, rows, t, n);
    var (c1, batch) := DocumentsDrained(c, size);
    assert |c.documents.keys| == |c0.documents.keys| - t;
    WrittenJoin(rows0, SnapshotsOf(c0, c0.documents, t), batch);
    DrainedHeap(c, size);
    forall i: nat | i < |c0.documents.keys| ensures HasId(batch, QueuedId(c0, i)) <==> t <= i < t + n { InBatch(s, c0, rows0, c, rows, t, n, i); }
    forall i: nat | i < t + n ensures InRow(At(c', QueuedId(c0, i)), Live(c', QueuedId(c0, i))) {
      if i < t {
        SameLive(c, c1, c', QueuedId(c0, i));
      } else {
        var x :| x in batch && x.id == QueuedId(c0, i);
      }
    }
  }

  lemma DrainedHeap(c: Catalog, size: nat)
    ensures var c1 := DocumentsDrained(c, size).0; c1.entries == c.entries && forall j: Id :: At(c1, j) == At(c, j)
  {
  }

  lemma SameLive(c: Catalog, c1: Catalog, c': Catalog, id: Id)
    requires c1.entries == c.entries && c'.entries == c1.entries && At(c1, id) == At(c, id) && At(c', id) == At(c1, id)
    ensures Live(c', id) == Live(c, id)
  {
  }

  lemma InBatch(s: Settings, c0: Catalog, rows0: Rows, c: Catalog, rows: Rows, t: nat, n: nat, i: nat)
    requires Indexed(s, c0) && Ordered(c0.documents) && WrittenUpTo(c0, rows0, c, rows, t) && t + n <= |c0.documents.keys| && i < |c0.documents.keys| && n <= |c.documents.keys|
    ensures HasId(SnapshotsOf(c, c.documents, n), QueuedId(c0, i)) <==> t <= i < t + n
  {
    hide Indexed, SnapshotOf, At, InRow, QueuedId, SnapshotsOf, Ordered;
    var batch := SnapshotsOf(c, c.documents, n);
    forall k: nat | k < n ensures batch[k].id == QueuedId(c0, t + k) {
      SnapshotIds(c, n, k);
      LaterSnapshot(c0, c, t, k);
    }
    if t <= i < t + n {
      assert batch[i - t] in batch;
    } else if HasId(batch, QueuedId(c0, i)) {
      var x :| x in batch && x.id == QueuedId(c0, i);
      var k :| 0 <= k < |batch| && batch[k] == x;
      IdsDiffer(s, c0, i, t + k);
      assert false;
    }
  }

  // ----- a document batch that fails

  lemma PutBack(d: RawDict<Hash, Id>, j: nat)
    requires Ordered(d) && j < |d.keys|
    ensures d.keys[j] in d.m && d.keys[j] !in From(d, j + 1).m && PutFirst(From(d, j + 1), d.keys[j], d.m[d.keys[j]]) == From(d, j)
  {
    hide Distinct;
    FromNext(d, j);
    FirstOf(d, j);
    hide From, Ordered, PopFirst;
    var e := From(d, j);
    assert (e.m - {e.keys[0]})[e.keys[0] := e.m[e.keys[0]]] == e.m;
    assert [e.keys[0]] + e.keys[1..] == e.keys;
  }

  lemma FirstOf(d: RawDict<Hash, Id>, j: nat)
    requires Ordered(d) && j < |d.keys|
    ensures var e := From(d, j); e.keys != [] && e.keys[0] == d.keys[j] && d.keys[j] in d.m && d.keys[j] in e.m && e.m[d.keys[j]] == d.m[d.keys[j]]
  {
    assert d.keys[j] in d.keys && d.keys[j..][0] == d.keys[j];
  }

  lemma {:induction false} PutAllBack(s: Settings, c: Catalog, j: nat)
    requires Indexed(s, c) && j <= |c.documents.keys|
    ensures DocumentsRequeued(c.(documents := From(c.documents, j)), SnapshotsOf(c, c.documents, j)) == c
    decreases j
  {
    hide Indexed, SnapshotsOf, From, PutFirst, OrphanAt, Ordered;
    QueuesOf(s, c);
    var batch := SnapshotsOf(c, c.documents, j);
    if j == 0 {
      FromOrdered(c.documents, 0);
      assert c.(documents := c.documents) == c;
    } else {
      PutBack(c.documents, j - 1);
      LastSnapshot(c, j);
      DrainedOne(c, c, j - 1);
      PutAllBack(s, c, j - 1);
    }
  }

  lemma LastSnapshot(c: Catalog, j: nat)
    requires 1 <= j <= |c.documents.keys| && c.documents.keys[j - 1] in c.documents.m
    ensures var batch := SnapshotsOf(c, c.documents, j); var id := c.documents.m[c.documents.keys[j - 1]];
            batch[j - 1] == SnapshotOf(id, At(c, id)) && batch[..j - 1] == SnapshotsOf(c, c.documents, j - 1)
  {
  }

  /** A failed write leaves the catalog as it was before the drain. */
  lemma FailedAsBefore(s: Settings, c: Catalog, size: nat)
    requires Indexed(s, c)
    ensures var (c1, batch) := DocumentsDrained(c, size); DocumentsRequeued(c1, batch) == c
  {
    hide Indexed, SnapshotsOf, From;
    PutAllBack(s, c, Least(size, |c.documents.keys|));
  }

  // ----- flush_counters

  function CounterRounds(size: nat, rounds: nat): seq<Step> {
    if rounds == 0 then [] else CounterRounds(size, rounds - 1) + [DrainCounters(size), WriteCounters, MarkCounters]
  }

  /** The steps of flush_counters, when no row is ever missing. */
  function CounterSteps(size: nat, rounds: nat, end: End): seq<Step> {
    CounterRounds(size, rounds) +
    match end
    case OutOfTime => []
    case Emptied => [DrainCounters(size)]
    case Broken => [DrainCounters(size), CountersFail]
  }

  predicate CounterQueued(c: Catalog, h: Hash, id: Id) {
    h in c.counters.m && c.counters.m[h] == id
  }

  /** Its counters wait to be written. */
  predicate Waits(c: Catalog, id: Id) {
    id in c.orphans || CounterQueued(c, At(c, id).hash, id)
  }

  /** An entry with a row whose counters waited waits still, or has nothing left to write. */
  predicate Remembers(c: Catalog, c': Catalog, id: Id) {
    At(c, id).base.Some? ==>
      At(c', id).base.Some? && At(c', id).hash == At(c, id).hash &&
      (Waits(c, id) ==> Waits(c', id) || !HasNews(At(c', id))) && (!HasNews(At(c, id)) ==> !HasNews(At(c', id)))
  }

  ghost predicate NoneForgotten(c: Catalog, c': Catalog) {
    forall id: Id :: Remembers(c, c', id)
  }

  lemma ForgottenNever(c: Catalog, c1: Catalog, c2: Catalog)
    requires NoneForgotten(c, c1) && NoneForgotten(c1, c2)
    ensures NoneForgotten(c, c2)
  {
    hide Waits, HasNews, At;
    forall id: Id ensures Remembers(c, c2, id) { assert Remembers(c, c1, id) && Remembers(c1, c2, id); }
  }

  lemma QueueKeepsCounter(s: Settings, c: Catalog, id: Id, h: Hash, other: Id)
    requires CounterQueued(c, h, other) && h != At(c, id).hash
    ensures CounterQueued(QueueDocument(s, c, id), h, other)
  {
    hide At, OldestDropped, Put, Ordered;
    var c1 := WithDocument(c, At(c, id).hash, id);
    if c1.documents.keys != [] { OldestCounters(s, c1); }
  }

  lemma OverflowNews(c: Catalog, c': Catalog, id: Id)
    requires Overflowed(c, c')
    ensures At(c', id).base == At(c, id).base && HasNews(At(c', id)) == HasNews(At(c, id)) && At(c', id).hash == At(c, id).hash
  {
  }

  /** The second loop of the drain passes over an entry only when it has no row or no news. */
  lemma {:induction false} CounterKept(s: Settings, c: Catalog, limit: nat, turns: nat, h: Hash, id: Id)
    requires Indexed(s, c) && CounterQueued(c, h, id) && At(c, id).base.Some?
    ensures var (c', batch) := CountersDrained(s, c, limit, turns); CounterQueued(c', h, id) || HasId(batch, id) || !HasNews(At(c, id))
    decreases turns
  {
    hide Indexed, At, QueueDocument, HasNews, Ordered, Overflowed, OnlyOverflow, SnapshotOf, QueuesOne, HasId, Live;
    if turns > 0 && c.counters.keys != [] && limit > 0 {
      QueuesOf(s, c);
      FirstIn(c.counters);
      var k := c.counters.keys[0];
      CounterPlace(s, c, k);
      var id1 := c.counters.m[k];
      FewerCounters(s, c, PopFirst(c.counters));
      var c1 := c.(counters := PopFirst(c.counters));
      SameHeap(c, c1);
      if At(c, id1).base.None? {
        assert k != h;
        if At(c, id1).meta.Some? {
          QueueDocumentIndexed(s, c1, id1);
          QueueKeepsCounter(s, c1, id1, h, id);
          OverflowNews(c1, QueueDocument(s, c1, id1), id);
          CounterKept(s, QueueDocument(s, c1, id1), limit, turns - 1, h, id);
        } else {
          CounterKept(s, c1, limit, turns - 1, h, id);
        }
      } else if HasNews(At(c, id1)) {
        var rest := CountersDrained(s, c1, limit - 1, turns - 1).1;
        HasMore(SnapshotOf(id1, At(c, id1)), rest);
        SnapshotId(id1, At(c, id1));
        if k != h { CounterKept(s, c1, limit - 1, turns - 1, h, id); }
      } else if k != h {
        CounterKept(s, c1, limit, turns - 1, h, id);
      }
    }
  }

  lemma NoNews(e: Entry)
    requires !HasUnflushed(e)
    ensures !HasNews(e)
  {
  }

  /** What a drain takes out of the queues is in the batch, or has nothing to write. */
  lemma DrainKeeps(s: Settings, c: Catalog, limit: nat, id: Id)
    requires Indexed(s, c) && At(c, id).base.Some? && Waits(c, id)
    ensures var (c', batch) := AllCountersDrained(s, c, limit); Waits(c', id) || HasId(batch, id) || !HasNews(At(c, id))
  {
    hide Indexed, At, HasNews, OrphansDrained, CountersDrained, HasId, Overflowed, HasUnflushed;
    OrphansDrainedIndexed(s, c, limit);
    OrphansDrainedBatch(s, c, limit);
    var (c1, first) := OrphansDrained(c, limit);
    SameHeap(c, c1);
    var limit2 := limit - |first|;
    CountersDrainedIndexed(s, c1, limit2, |c1.counters.keys|);
    var (c2, rest) := CountersDrained(s, c1, limit2, |c1.counters.keys|);
    OverflowNews(c1, c2, id);
    SameOrphans(c1, c2);
    HasBoth(first, rest);
    if id in c.orphans {
      if !HasUnflushed(At(c, id)) { NoNews(At(c, id)); }
    } else {
      CounterKept(s, c1, limit2, |c1.counters.keys|, At(c, id).hash, id);
    }
  }

  lemma SameOrphans(c: Catalog, c': Catalog)
    requires Overflowed(c, c')
    ensures c'.orphans == c.orphans
  {
  }

  lemma DrainNews(s: Settings, c: Catalog, limit: nat, id: Id)
    requires Indexed(s, c)
    ensures var c' := AllCountersDrained(s, c, limit).0;
            At(c', id).base == At(c, id).base && HasNews(At(c', id)) == HasNews(At(c, id)) && At(c', id).hash == At(c, id).hash
  {
    hide Indexed, AllCountersDrained, OnlyOverflow, QueuesLive, CountsFit, HasUnflushed, HasId, Distinct, DistinctIds;
    AllCountersDrainedIndexed(s, c, limit);
  }

  /** Marked, an entry of the batch has nothing left to write. */
  lemma MarkedNews(s: Settings, c: Catalog, batch: seq<Snapshot>, id: Id)
    requires Indexed(s, c) && DistinctIds(batch) && forall x :: x in batch ==> CountsFit(c, x)
    ensures var c' := CountersMarked(c, batch);
            At(c', id).base == At(c, id).base && At(c', id).hash == At(c, id).hash && c'.orphans == c.orphans && c'.counters == c.counters &&
            (HasId(batch, id) || !HasNews(At(c, id)) ==> !HasNews(At(c', id)))
  {
    hide Indexed, CountersMarked, At, SumFor, DistinctIds;
    forall x | x in batch ensures x.id < |c.heap| { assert CountsFit(c, x); }
    CountersMarkedIndexed(s, c, batch);
    SameCounters(c, batch);
    if HasId(batch, id) {
      var x :| x in batch && x.id == id;
      Flow.SumForOne(batch, x, Sightings);
      Flow.SumForOne(batch, x, Announces);
    } else {
      SumForNone(batch, id, Sightings);
      SumForNone(batch, id, Announces);
    }
  }

  lemma {:induction false} SameCounters(c: Catalog, batch: seq<Snapshot>)
    ensures CountersMarked(c, batch).orphans == c.orphans && CountersMarked(c, batch).counters == c.counters
    decreases |batch|
  {
    hide At, FlushedBy;
    if batch != [] { SameCounters(SetEntry(c, batch[0].id, FlushedBy(At(c, batch[0].id), batch[0])), batch[1..]); }
  }

  /** A batch that is written. */
  lemma WrittenRound(s: Settings, c: Catalog, limit: nat)
    requires Indexed(s, c) && Distinct(c.orphans)
    ensures var (c1, batch) := AllCountersDrained(s, c, limit); var c2 := CountersMarked(c1, batch);
            NoneForgotten(c, c2) && Distinct(c2.orphans)
  {
    hide Indexed, AllCountersDrained, CountersMarked, OnlyOverflow, QueuesLive, CountsFit, HasUnflushed, HasId, Distinct, DistinctIds, HasNews, At, Waits, CounterQueued;
    AllCountersDrainedIndexed(s, c, limit);
    var (c1, batch) := AllCountersDrained(s, c, limit);
    var c2 := CountersMarked(c1, batch);
    forall id: Id ensures Remembers(c, c2, id) {
      DrainNews(s, c, limit, id);
      MarkedNews(s, c1, batch, id);
      WaitsSame(c1, c2, id);
      if At(c, id).base.Some? && Waits(c, id) { DrainKeeps(s, c, limit, id); }
    }
    MarkedNews(s, c1, batch, 0);
  }

  lemma WaitsSame(c: Catalog, c': Catalog, id: Id)
    requires c'.orphans == c.orphans && c'.counters == c.counters && At(c', id).hash == At(c, id).hash
    ensures Waits(c', id) == Waits(c, id)
  {
  }

  // ----- a counter batch that fails

  lemma {:induction false} RequeuedCounters(c: Catalog, batch: seq<Snapshot>, h: Hash, id: Id)
    requires CounterQueued(c, h, id)
    ensures CounterQueued(CountersRequeued(c, batch), h, id)
    decreases |batch|
  {
    hide AddOrphan;
    if batch != [] {
      var x := batch[0];
      AddedOrphan(c, x.id);
      if x.hash in c.entries.m && c.entries.m[x.hash] == x.id {
        RequeuedCounters(NoteCounters(c, x.hash, x.id), batch[1..], h, id);
      } else {
        RequeuedCounters(AddOrphan(c, x.id), batch[1..], h, id);
      }
    }
  }

  lemma AddedOrphan(c: Catalog, id: Id)
    ensures AddOrphan(c, id).counters == c.counters && AddOrphan(c, id).entries == c.entries && AddOrphan(c, id).heap == c.heap
  {
  }

  ghost predicate CountersFiled(c: Catalog) {
    forall h :: h in c.counters.m ==> h in c.entries.m && c.counters.m[h] == c.entries.m[h]
  }

  lemma {:induction false} RequeuedLive(c: Catalog, batch: seq<Snapshot>, x: Snapshot)
    requires x in batch && x.hash in c.entries.m && c.entries.m[x.hash] == x.id && CountersFiled(c)
    ensures CounterQueued(CountersRequeued(c, batch), x.hash, x.id)
    decreases |batch|
  {
    hide AddOrphan;
    var y := batch[0];
    AddedOrphan(c, y.id);
    var c1 := if y.hash in c.entries.m && c.entries.m[y.hash] == y.id then NoteCounters(c, y.hash, y.id) else AddOrphan(c, y.id);
    if y == x {
      RequeuedCounters(c1, batch[1..], x.hash, x.id);
    } else {
      RequeuedLive(c1, batch[1..], x);
    }
  }

  lemma {:induction false} DeadIn(c: Catalog, batch: seq<Snapshot>, x: Snapshot)
    requires x in batch && !(x.hash in c.entries.m && c.entries.m[x.hash] == x.id)
    ensures x.id in DeadIds(c, batch)
  {
    if batch[0] != x { DeadIn(c, batch[1..], x); }
  }

  lemma {:induction false} DeadSplit(c: Catalog, a: seq<Snapshot>, b: seq<Snapshot>)
    requires forall x :: x in b ==> x.hash in c.entries.m && c.entries.m[x.hash] == x.id
    ensures |DeadIds(c, a + b)| <= |a|
    decreases |a|
  {
    if a == [] {
      assert a + b == b;
      NoneDead(c, b);
    } else {
      assert (a + b)[0] == a[0] && (a + b)[1..] == a[1..] + b;
      DeadSplit(c, a[1..], b);
    }
  }

  lemma {:induction false} NoneDead(c: Catalog, b: seq<Snapshot>)
    requires forall x :: x in b ==> x.hash in c.entries.m && c.entries.m[x.hash] == x.id
    ensures DeadIds(c, b) == []
  {
    if b != [] { NoneDead(c, b[1..]); }
  }

  lemma {:induction false} OrphansShrink(c: Catalog, limit: nat)
    ensures var (c', batch) := OrphansDrained(c, limit); |c'.orphans| + |batch| <= |c.orphans| && c'.counters == c.counters
    decreases |c.orphans|
  {
    hide At, SnapshotOf, Empty?;
    if c.orphans != [] && limit > 0 {
      OrphansShrink(c.(orphans := c.orphans[1..]), limit);
      OrphansShrink(c.(orphans := c.orphans[1..]), limit - 1);
    }
  }

  /** Put back, the orphans of a batch fit into the queue they came from. */
  lemma RoomForDead(s: Settings, c: Catalog, limit: nat)
    requires Indexed(s, c)
    ensures var (c1, batch) := AllCountersDrained(s, c, limit); |c1.orphans| + |DeadIds(c1, batch)| <= |c.orphans| <= MAX_ORPHANS
  {
    hide Indexed, At, OrphansDrained, CountersDrained, CountsFit, HasUnflushed, HasId, OnlyOverflow, QueuesLive, DistinctIds, DeadIds, OrphanAt, Ordered, DocumentOf;
    QueuesOf(s, c);
    OrphansDrainedIndexed(s, c, limit);
    OrphansShrink(c, limit);
    var (c1, first) := OrphansDrained(c, limit);
    var limit2 := limit - |first|;
    CountersDrainedIndexed(s, c1, limit2, |c1.counters.keys|);
    var (c2, rest) := CountersDrained(s, c1, limit2, |c1.counters.keys|);
    SameOrphans(c1, c2);
    forall x | x in rest ensures x.hash in c2.entries.m && c2.entries.m[x.hash] == x.id { LiveFits(c2, x); }
    DeadSplit(c2, first, rest);
  }

  lemma LiveFits(c: Catalog, x: Snapshot)
    requires CountsFit(c, x)
    ensures Live(c, x.id) <==> x.hash in c.entries.m && c.entries.m[x.hash] == x.id
  {
  }

  lemma FiledIn(s: Settings, c: Catalog)
    requires Indexed(s, c)
    ensures CountersFiled(c)
  {
    hide Indexed, AwaitsCheck, Fetchable, NeedsLookup;
    forall h | h in c.counters.m ensures h in c.entries.m && c.counters.m[h] == c.entries.m[h] { IndexedAt(s, c, h); }
  }

  /** A batch that fails: everything waits as before. */
  lemma FailedRound(s: Settings, c: Catalog, limit: nat)
    requires Indexed(s, c)
    ensures var (c1, batch) := AllCountersDrained(s, c, limit); NoneForgotten(c, CountersRequeued(c1, batch))
  {
    hide Indexed, AllCountersDrained, CountersRequeued, OnlyOverflow, QueuesLive, CountsFit, HasUnflushed, HasId, Distinct, DistinctIds, HasNews, At, Waits, DeadIds, Live;
    AllCountersDrainedIndexed(s, c, limit);
    var (c1, batch) := AllCountersDrained(s, c, limit);
    RoomForDead(s, c, limit);
    forall id: Id ensures Remembers(c, CountersRequeued(c1, batch), id) {
      DrainNews(s, c, limit, id);
      RequeueSame(c1, batch, id);
      if At(c, id).base.Some? && Waits(c, id) {
        DrainKeeps(s, c, limit, id);
        if Waits(c1, id) || HasId(batch, id) { WaitsAgain(s, c1, batch, id); }
      }
    }
  }

  lemma {:induction false} RequeueSame(c: Catalog, batch: seq<Snapshot>, id: Id)
    ensures CountersRequeued(c, batch).heap == c.heap && At(CountersRequeued(c, batch), id) == At(c, id)
    decreases |batch|
  {
    hide AddOrphan, At;
    if batch != [] {
      AddedOrphan(c, batch[0].id);
      RequeueSame(if batch[0].hash in c.entries.m && c.entries.m[batch[0].hash] == batch[0].id then NoteCounters(c, batch[0].hash, batch[0].id)
                  else AddOrphan(c, batch[0].id), batch[1..], id);
      SameHeap(c, NoteCounters(c, batch[0].hash, batch[0].id));
      SameHeap(c, AddOrphan(c, batch[0].id));
    }
  }

  lemma WaitsAgain(s: Settings, c: Catalog, batch: seq<Snapshot>, id: Id)
    requires Indexed(s, c) && (forall x :: x in batch ==> CountsFit(c, x) && x.base.Some?) && |c.orphans| + |DeadIds(c, batch)| <= MAX_ORPHANS
    requires Waits(c, id) || HasId(batch, id)
    ensures Waits(CountersRequeued(c, batch), id)
  {
    hide Indexed, CountersRequeued, CountsFit, At, DeadIds, Countable, Live, CounterQueued;
    var c' := CountersRequeued(c, batch);
    RequeueSame(c, batch, id);
    forall x | x in batch ensures Countable(c, x) { CountableFits(c, x); }
    ShortQueue(s, c);
    CountersRequeuedIndexed(s, c, batch, c.orphans);
    assert c'.orphans == c.orphans + DeadIds(c, batch);
    if CounterQueued(c, At(c, id).hash, id) { RequeuedCounters(c, batch, At(c, id).hash, id); }
    if HasId(batch, id) {
      var x :| x in batch && x.id == id;
      FiledIn(s, c);
      FitHash(c, x);
      if x.hash in c.entries.m && c.entries.m[x.hash] == x.id {
        RequeuedLive(c, batch, x);
      } else {
        DeadIn(c, batch, x);
      }
    }
  }

  lemma CountableFits(c: Catalog, x: Snapshot)
    requires CountsFit(c, x) && x.base.Some?
    ensures Countable(c, x)
  {
  }

  lemma FitHash(c: Catalog, x: Snapshot)
    requires CountsFit(c, x)
    ensures x.hash == At(c, x.id).hash
  {
  }

  // ----- what a flush records

  lemma {:induction false} NoneRecorded(steps: seq<Step>, h: Hash, k: Kind)
    requires forall step :: step in steps ==> !step.Record?
    ensures Counts.RecordedIn(steps, h, k) == 0
  {
    if steps != [] {
      assert steps[0] in steps;
      NoneRecorded(steps[1..], h, k);
    }
  }

  lemma {:induction false} CountersRecordNothing(size: nat, rounds: nat)
    ensures forall step :: step in CounterRounds(size, rounds) ==> !step.Record?
  {
    if rounds > 0 { CountersRecordNothing(size, rounds - 1); }
  }

  /** Rows and unwritten counts together stay what they were. */
  lemma FlushConserves(s: Settings, y: System, size: nat, rounds: nat, end: End, z: System)
    requires Sound(s, y) && Run(s, y, CounterSteps(size, rounds, end)) && After(s, y, CounterSteps(size, rounds, end)) == z
    ensures forall h: Hash, k: Kind :: Counts.Total(z, h, k) == Counts.Total(y, h, k)
  {
    hide Sound, Run, After, Counts.Total;
    var steps := CounterSteps(size, rounds, end);
    CountersRecordNothing(size, rounds);
    assert forall step :: step in steps ==> !step.Record?;
    hide CounterSteps, CounterRounds;
    forall h: Hash, k: Kind ensures Counts.Total(z, h, k) == Counts.Total(y, h, k) {
      Counts.RunConserves(s, y, steps, h, k);
      NoneRecorded(steps, h, k);
    }
  }

  // ----- marking a batch of documents

  predicate Markable(c: Catalog, x: Snapshot) {
    CountsFit(c, x) && x.hash !in c.documents.m && x.meta == At(c, x.id).meta
  }

  ghost predicate MarkedUpTo(c: Catalog, c': Catalog, batch: seq<Snapshot>, n: nat) {
    c'.documents == c.documents && c'.entries == c.entries && |c'.heap| == |c.heap| && n <= |batch| &&
    (forall x :: x in batch[..n] ==> InRow(At(c', x.id), Live(c', x.id))) &&
    forall j: Id :: !HasId(batch[..n], j) ==> At(c', j) == At(c, j)
  }

  lemma MarkedNone(c: Catalog, batch: seq<Snapshot>)
    ensures MarkedUpTo(c, c, batch, 0)
  {
  }

  lemma MarkedAll(c: Catalog, c': Catalog, batch: seq<Snapshot>)
    requires MarkedUpTo(c, c', batch, |batch|)
    ensures BatchMarked(c, c', batch)
  {
    hide InRow, At, Live, HasId;
    assert batch[..|batch|] == batch;
  }

  lemma MarkedQueue(c: Catalog, x: Snapshot, base: Base)
    requires x.hash !in c.documents.m
    ensures DocumentMarked(c, x, base).documents == c.documents && DocumentMarked(c, x, base).entries == c.entries
  {
    hide At, SetAt;
  }

  lemma MarkedInRow(c: Catalog, x: Snapshot, base: Base, live: bool)
    requires CountsFit(c, x) && x.meta == At(c, x.id).meta
    ensures InRow(MarkedEntry(At(c, x.id), x, base, live), live) && MarkedEntry(At(c, x.id), x, base, live).hash == At(c, x.id).hash
  {
    hide At;
  }

  lemma MarkOne(s: Settings, c: Catalog, c1: Catalog, batch: seq<Snapshot>, n: nat, base: Base)
    requires n < |batch| && Indexed(s, c1) && MarkedUpTo(c, c1, batch, n) && DistinctIds(batch) && forall x :: x in batch ==> Markable(c, x)
    requires Live(c1, batch[n].id) && At(c1, batch[n].id).meta == batch[n].meta ==> At(c1, batch[n].id).state == Done
    ensures MarkedUpTo(c, DocumentMarked(c1, batch[n], base), batch, n + 1)
  {
    hide Indexed, DocumentMarked, InRow, MarkedEntry, At, Markable, Live;
    var x := batch[n];
    var c2 := DocumentMarked(c1, x, base);
    assert x in batch && Markable(c, x);
    NotBefore(batch, n);
    MarkableStill(c, c1, x);
    DocumentMarkedIndexed(s, c1, x, base);
    MarkedQueue(c1, x, base);
    MarkedInRow(c1, x, base, Live(c1, x.id));
    LiveKept(c1, c2, x.id);
    assert batch[..n + 1] == batch[..n] + [x];
    forall y | y in batch[..n + 1] ensures InRow(At(c2, y.id), Live(c2, y.id)) {
      if y in batch[..n] && y.id != x.id {
        LiveKept(c1, c2, y.id);
      }
    }
    forall j: Id | !HasId(batch[..n + 1], j) ensures At(c2, j) == At(c, j) { NotHeld(batch, n, j); }
  }

  lemma NotHeld(batch: seq<Snapshot>, n: nat, j: Id)
    requires n < |batch| && !HasId(batch[..n + 1], j)
    ensures !HasId(batch[..n], j) && batch[n].id != j
  {
    assert batch[..n + 1][n] in batch[..n + 1];
    forall x | x in batch[..n] ensures x.id != j { assert x in batch[..n + 1]; }
  }

  lemma NotBefore(batch: seq<Snapshot>, n: nat)
    requires n < |batch| && DistinctIds(batch)
    ensures !HasId(batch[..n], batch[n].id)
  {
    forall x | x in batch[..n] ensures x.id != batch[n].id {
      var i :| 0 <= i < n && batch[i] == x;
    }
  }

  lemma MarkableStill(c: Catalog, c1: Catalog, x: Snapshot)
    requires Markable(c, x) && At(c1, x.id) == At(c, x.id) && c1.documents == c.documents && |c1.heap| == |c.heap|
    ensures Markable(c1, x) && CountsFit(c1, x) && x.hash !in c1.documents.m && x.meta == At(c1, x.id).meta
    ensures x.id < |c1.heap| && At(c1, x.id).hash == x.hash
  {
  }

  lemma LiveKept(c: Catalog, c': Catalog, id: Id)
    requires c'.entries == c.entries && At(c', id).hash == At(c, id).hash
    ensures Live(c', id) == Live(c, id)
  {
    hide At;
  }

  // ----- check_batches

  function CheckRounds(size: nat, rounds: nat): seq<Step> {
    if rounds == 0 then [] else CheckRounds(size, rounds - 1) + [TakeChecks(size), ReadChecks, ApplyChecks]
  }

  /** The steps of check_batches. */
  function CheckSteps(size: nat, rounds: nat, end: End): seq<Step> {
    CheckRounds(size, rounds) +
    match end
    case OutOfTime => []
    case Emptied => [TakeChecks(size)]
    case Broken => [TakeChecks(size), ChecksFail]
  }

  /** The first t hashes of the queue are checked against the rows, as one call would have done it; the others wait. */
  ghost predicate CheckedUpTo(c0: Catalog, rows: Rows, c: Catalog, t: nat) {
    t <= |c0.needsCheck.keys| && c.needsCheck == From(c0.needsCheck, t) && c.entries == c0.entries &&
    AppliedSet(c0, c, c0.needsCheck.keys[..t], LookedUp(rows, c0.needsCheck.keys[..t]))
  }

  lemma CheckedAtFirst(c: Catalog, rows: Rows)
    requires Ordered(c.needsCheck)
    ensures CheckedUpTo(c, rows, c, 0)
  {
    FromOrdered(c.needsCheck, 0);
    assert c.needsCheck.keys[..0] == [];
    AppliedNone(c, LookedUp(rows, []));
  }

  lemma ReplacedCheck(s: Settings, c: Catalog, id: Id, e: Entry)
    requires id < |c.heap| && e.checked && e.hash !in c.needsCheck.m && e.hash !in c.needsCheck.keys
    ensures Replaced(s, c, id, e).needsCheck == c.needsCheck
  {
    hide Ordered, Bump, Fetchable, NeedsLookup, SetDefault, Without;
    WithoutNone(c.needsCheck.keys, e.hash);
  }

  lemma {:induction false} WithoutNone(keys: seq<Hash>, h: Hash)
    requires h !in keys
    ensures Without(keys, h) == keys
  {
  }

  lemma OneCheckQueue(s: Settings, c: Catalog, h: Hash, found: map<Hash, Base>)
    requires Indexed(s, c) && Ordered(c.needsCheck) && h in c.needsCheck.m
    ensures OneCheckApplied(s, c, h, found).needsCheck == Pop(c.needsCheck, h)
  {
    hide Indexed, Replaced, At, Ordered, Pop;
    CheckPlace(s, c, h);
    LiveHere(s, c, h);
    Popped(c.needsCheck, h);
    var c1 := c.(needsCheck := Pop(c.needsCheck, h));
    var id := c.needsCheck.m[h];
    var e := At(c, id).(checked := true);
    ReplacedCheck(s, c1, id, e);
    ReplacedCheck(s, c1, id, if h in found then e.(base := Some(found[h]), inDatabase := true, peers := [], failed := {}, known := true, state := Done) else e);
  }

  lemma Popped(d: RawDict<Hash, Id>, h: Hash)
    requires Ordered(d)
    ensures h !in Pop(d, h).m && h !in Pop(d, h).keys
  {
  }

  lemma PopFirstKey(d: RawDict<Hash, Id>)
    requires Ordered(d) && d.keys != []
    ensures Pop(d, d.keys[0]) == From(d, 1) && d.keys[0] in d.m
  {
    assert d.keys[0] in d.keys;
    assert d.keys[0] !in d.keys[1..];
    WithoutNone(d.keys[1..], d.keys[0]);
    assert (d.m - {d.keys[0]}) == From(d, 1).m by {
      forall x | x in d.m && x != d.keys[0] ensures x in d.keys[1..] { assert x in d.keys; }
    }
  }

  lemma {:induction false} ChecksQueue(s: Settings, c: Catalog, n: nat, hashes: seq<Hash>, found: map<Hash, Base>)
    requires Indexed(s, c) && Ordered(c.needsCheck) && n <= |c.needsCheck.keys| && hashes == c.needsCheck.keys[..n]
    ensures ChecksApplied(s, c, hashes, found).needsCheck == From(c.needsCheck, n)
    decreases n
  {
    hide Indexed, Ordered, OneCheckApplied, From, Pop;
    if n == 0 {
      FromOrdered(c.needsCheck, 0);
    } else {
      var d := c.needsCheck;
      assert hashes[0] == d.keys[0] && hashes[1..] == d.keys[1..][..n - 1];
      PopFirstKey(d);
      OneCheckQueue(s, c, d.keys[0], found);
      OneCheckAppliedIndexed(s, c, d.keys[0], found);
      FromOrdered(d, 1);
      FromTwice(d, 1, n - 1);
      FromKeys(d, 1);
      ChecksQueue(s, OneCheckApplied(s, c, d.keys[0], found), n - 1, hashes[1..], found);
    }
  }

  lemma FromKeys(d: RawDict<Hash, Id>, n: nat)
    requires n <= |d.keys|
    ensures From(d, n).keys == d.keys[n..]
  {
  }

  /** One more batch of checks. */
  lemma RoundChecked(s: Settings, c0: Catalog, rows: Rows, c: Catalog, t: nat, size: nat)
    requires Indexed(s, c) && Ordered(c0.needsCheck) && CheckedUpTo(c0, rows, c, t)
    ensures |c.needsCheck.keys| == |c0.needsCheck.keys| - t
    ensures var hashes := c.needsCheck.keys[..Least(size, |c.needsCheck.keys|)];
            CheckedUpTo(c0, rows, ChecksApplied(s, c, hashes, LookedUp(rows, hashes)), t + |hashes|)
  {
    hide Indexed, Ordered, ChecksApplied, AppliedSet, LookedUp, From;
    FromKeys(c0.needsCheck, t);
    FromOrdered(c0.needsCheck, t);
    var n := Least(size, |c.needsCheck.keys|);
    var hashes := c.needsCheck.keys[..n];
    var c' := ChecksApplied(s, c, hashes, LookedUp(rows, hashes));
    ChecksQueue(s, c, n, hashes, LookedUp(rows, hashes));
    ChecksAppliedIndexed(s, c, hashes, LookedUp(rows, hashes));
    FromTwice(c0.needsCheck, t, n);
    assert c0.needsCheck.keys[..t] + hashes == c0.needsCheck.keys[..t + n];
    AppliedBoth(c0, c, c', rows, c0.needsCheck.keys[..t], hashes);
  }

  lemma AppliedBoth(c: Catalog, c1: Catalog, c2: Catalog, rows: Rows, a: seq<Hash>, b: seq<Hash>)
    requires AppliedSet(c, c1, a, LookedUp(rows, a)) && AppliedSet(c1, c2, b, LookedUp(rows, b)) && c1.entries == c.entries
    ensures AppliedSet(c, c2, a + b, LookedUp(rows, a + b))
  {
    hide At, CheckedEntry, LookedUp;
    var found := LookedUp(rows, a + b);
    forall j: Id ensures At(c2, j) == if Live(c, j) && At(c, j).hash in a + b then CheckedEntry(At(c, j), found) else At(c, j) {
      SameAnswer(At(c, j), rows, a, b);
      CheckedOnce(At(c, j), found);
      LiveKept(c, c1, j);
    }
  }

  /** What a check makes of an entry depends on its own row only. */
  lemma SameAnswer(e: Entry, rows: Rows, a: seq<Hash>, b: seq<Hash>)
    ensures e.hash in a ==> CheckedEntry(e, LookedUp(rows, a)) == CheckedEntry(e, LookedUp(rows, a + b))
    ensures e.hash in b ==> CheckedEntry(e, LookedUp(rows, b)) == CheckedEntry(e, LookedUp(rows, a + b))
    ensures e.hash in a && e.hash in b ==>
              CheckedEntry(CheckedEntry(e, LookedUp(rows, a)), LookedUp(rows, b)) == CheckedEntry(e, LookedUp(rows, a + b))
    ensures CheckedEntry(e, LookedUp(rows, a)).hash == e.hash
  {
  }
}
