/** What the counters shown and stored are worth: never too high, exact but for named losses. */
module IndexThreadResults {
  import opened ByteStrings
  import opened BoundedRecentMap
  import opened NodeIdentity
  import opened CatalogSpec
  import opened CatalogIndexes
  import opened CatalogMethods
  import opened CatalogFlushing
  import opened CatalogEviction
  import opened CatalogEntries
  import opened IndexThread
  import opened IndexThreadSafety
  import opened IndexThreadCounts
  import opened IndexThreadFlow

  // ----- no sighting is counted twice

  /** No write of the run stores a batch of counters that holds an entry twice. */
  ghost predicate GuardedRun(s: Settings, y: System, steps: seq<Step>)
    decreases |steps|
  {
    steps == [] || (WritesOnce(y, steps[0]) && GuardedRun(s, Next(s, y, steps[0]), steps[1..]))
  }

  lemma {:induction false} RunTight(s: Settings, y: System, steps: seq<Step>)
    requires Sound(s, y) && Tight(y) && Run(s, y, steps) && GuardedRun(s, y, steps)
    ensures Sound(s, After(s, y, steps)) && Tight(After(s, y, steps))
    decreases |steps|
  {
    hide Sound, Tight, Enabled, Next, WritesOnce;
    if steps != [] {
      StepSound(s, y, steps[0]);
      StepTight(s, y, steps[0]);
      RunTight(s, Next(s, y, steps[0]), steps[1..]);
    }
  }

  lemma StartTight(s: Settings, y: System)
    requires Start(y)
    ensures Tight(y) && forall h, k :: Total(y, h, k) == RowCount(y.rows, h, k)
  {
  }

  /** What memory still owes the database is never negative. */
  lemma OwesNothingBack(s: Settings, y: System, h: Hash, k: Kind)
    requires Sound(s, y) && Tight(y)
    ensures AllShares(y.cat, h, k) >= BatchSum(Unmarked(y.phase), h, k)
  {
    hide Sound, Indexed, EntriesOk, Claims, RowsExist, Flow, At, AllShares;
    SoundParts(s, y);
    var batch := Unmarked(y.phase);
    forall x | x in batch ensures x.id < |y.cat.heap| && At(y.cat, x.id).hash == x.hash { UnmarkedHere(y, x); }
    CountersMarkedIndexed(s, y.cat, batch);
    MarkedShares(y.cat, batch, h, k);
    FlushedFlow(y.cat, CountersMarked(y.cat, batch), y.rows, batch);
    PositiveShares(CountersMarked(y.cat, batch), y.rows, |CountersMarked(y.cat, batch).heap|, h, k);
    AllSharesIs(CountersMarked(y.cat, batch), h, k);
  }

  lemma AllSharesIs(c: Catalog, h: Hash, k: Kind)
    ensures AllShares(c, h, k) == SharesBelow(c, |c.heap|, h, k)
  {
  }

  lemma UnmarkedHere(y: System, x: Snapshot)
    requires PhaseOk(y.cat, y.rows, y.phase) && x in Unmarked(y.phase)
    ensures x.id < |y.cat.heap| && At(y.cat, x.id).hash == x.hash
  {
    if y.phase.DocumentsToMark? { OutHere(y.cat, x); } else { InRange(y.cat, x); }
  }

  lemma {:induction false} PositiveShares(c: Catalog, rows: Rows, n: nat, h: Hash, k: Kind)
    requires Flow(c, rows, [])
    ensures SharesBelow(c, n, h, k) >= 0
  {
    if n > 0 {
      PositiveShares(c, rows, n - 1, h, k);
      if n - 1 < |c.heap| { assert FlowAt(c, rows, [], n - 1, k); }
    }
  }

  /**
   * Over every interleaving without a double orphan: a row never holds more than it held at the start and the
   * sightings recorded since, and what it lacks of them is still held by entries.
   */
  lemma StoredNeverTooHigh(s: Settings, y: System, steps: seq<Step>, h: Hash, k: Kind)
    requires Start(y) && Run(s, y, steps) && GuardedRun(s, y, steps)
    ensures var z := After(s, y, steps);
            RowCount(z.rows, h, k) <= RowCount(y.rows, h, k) + RecordedIn(steps, h, k) &&
            RowCount(z.rows, h, k) + (AllShares(z.cat, h, k) - BatchSum(Unmarked(z.phase), h, k)) == RowCount(y.rows, h, k) + RecordedIn(steps, h, k)
  {
    hide Sound, Tight, Run, After, AllShares, RowCount, GuardedRun, Start, Unmarked;
    StartSound(s, y);
    StartTight(s, y);
    RunTight(s, y, steps);
    RunConserves(s, y, steps, h, k);
    OwesNothingBack(s, After(s, y, steps), h, k);
    assert Total(y, h, k) == RowCount(y.rows, h, k);
  }

  // ----- what is shown

  /** How far a row is ahead of the base an entry was given and of what the entry has flushed since. */
  function Slack(y: System, id: Id, k: Kind): int {
    var e := At(y.cat, id);
    if e.base.None? then 0 else RowCount(y.rows, e.hash, k) - (BaseCount(e.base.value, k) + Flushed(e, k) + SumFor(Unmarked(y.phase), id, k))
  }

  /** A base stays what it is once it is set, as long as its row exists. */
  lemma BaseStays(s: Settings, y: System, step: Step, id: Id)
    requires Sound(s, y) && Enabled(s, y, step) && id < |y.cat.heap| && At(y.cat, id).base.Some?
    ensures At(Next(s, y, step).cat, id).base == At(y.cat, id).base && At(Next(s, y, step).cat, id).hash == At(y.cat, id).hash
  {
    hide Sound, Enabled, Next, At, Crawl, Still;
    match step
    case Record(h, announce, peer, now, victims) => RecordSound(s, y, h, announce, peer, now, victims); CrawlBase(y.cat, Next(s, y, step).cat, id);
    case MarkDocument => MarkKeepsBase(s, y, id);
    case MarkCounters => MarkCountersBase(s, y, id);
    case ApplyChecks => ApplyKeepsBase(s, y, id);
    case ResetMissing => ResetEnabled(s, y); NoReset(s, y);
    case _ =>
      if Crawls(step) {
        CrawlSteps(s, y, step);
        CrawlBase(y.cat, Next(s, y, step).cat, id);
      } else {
        QueueKeepsBase(s, y, step, id);
      }
  }

  lemma CrawlBase(c: Catalog, c': Catalog, id: Id)
    requires Crawl(c, c') && id < |c.heap|
    ensures At(c', id).base == At(c, id).base && At(c', id).hash == At(c, id).hash &&
            At(c', id).flushedSeen == At(c, id).flushedSeen && At(c', id).flushedAnnounced == At(c, id).flushedAnnounced
  {
    hide At, QueuedIn, Live;
    assert CrawlAt(c, c', id);
  }

  lemma MarkKeepsBase(s: Settings, y: System, id: Id)
    requires Sound(s, y) && Enabled(s, y, MarkDocument) && id < |y.cat.heap| && At(y.cat, id).base.Some?
    ensures At(Next(s, y, MarkDocument).cat, id).base == At(y.cat, id).base && At(Next(s, y, MarkDocument).cat, id).hash == At(y.cat, id).hash
  {
    hide Sound, Indexed, DocumentMarked, EntriesOk, Claims, RowsExist, Live, At, DistinctHashes, EntryOk;
    SoundParts(s, y);
    var x, base := y.phase.batch[0], y.phase.bases[0];
    assert x in y.phase.batch;
    OutHere(y.cat, x);
    DocumentMarkedIndexed(s, y.cat, x, base);
    if id == x.id && Live(y.cat, id) {
      EntryOfLive(s, y.cat, id);
      DoneFlushed(s, At(y.cat, id));
    }
  }

  lemma MarkCountersBase(s: Settings, y: System, id: Id)
    requires Sound(s, y) && Enabled(s, y, MarkCounters)
    ensures At(Next(s, y, MarkCounters).cat, id).base == At(y.cat, id).base && At(Next(s, y, MarkCounters).cat, id).hash == At(y.cat, id).hash
    ensures forall k :: Flushed(At(Next(s, y, MarkCounters).cat, id), k) == Flushed(At(y.cat, id), k) + SumFor(y.phase.batch, id, k)
  {
    hide Sound, Indexed, CountersMarked, EntriesOk, Claims, RowsExist, Countable, SumFor, At;
    SoundParts(s, y);
    MarkCountersSound(s, y);
    forall x | x in y.phase.batch ensures x.id < |y.cat.heap| { InRange(y.cat, x); }
    CountersMarkedIndexed(s, y.cat, y.phase.batch);
  }

  lemma ApplyKeepsBase(s: Settings, y: System, id: Id)
    requires Sound(s, y) && Enabled(s, y, ApplyChecks) && At(y.cat, id).base.Some?
    ensures At(Next(s, y, ApplyChecks).cat, id).base == At(y.cat, id).base && At(Next(s, y, ApplyChecks).cat, id).hash == At(y.cat, id).hash
  {
    hide Sound, Indexed, ChecksApplied, Claims, RowsExist, At, EntriesOk, EntryOk, Live;
    SoundParts(s, y);
    ChecksAppliedIndexed(s, y.cat, y.phase.hashes, y.phase.found);
    if Live(y.cat, id) {
      EntryOfLive(s, y.cat, id);
      BasedNotPending(s, At(y.cat, id));
    }
  }

  lemma BasedNotPending(s: Settings, e: Entry)
    requires EntryOk(s, e) && e.base.Some?
    ensures !AwaitsCheck(e)
  {
  }

  lemma QueueKeepsBase(s: Settings, y: System, step: Step, id: Id)
    requires Sound(s, y) && Enabled(s, y, step)
    requires step.DrainDocuments? || step.WriteDocuments? || step.DocumentsFail? || step.DrainCounters? || step.WriteCounters? || step.CountersFail? || step.TakeChecks? || step.ReadChecks? || step.ChecksFail?
    ensures At(Next(s, y, step).cat, id).base == At(y.cat, id).base && At(Next(s, y, step).cat, id).hash == At(y.cat, id).hash
    ensures At(Next(s, y, step).cat, id).failed == At(y.cat, id).failed && Work(At(Next(s, y, step).cat, id)) == Work(At(y.cat, id))
  {
    hide Sound, Indexed, DocumentsDrained, AllCountersDrained, DocumentsRequeued, CountersRequeued, EntriesOk, Claims, RowsExist, At, Live,
      DistinctHashes, DocumentOf, Countable, OnlyOverflow, HasId, HasUnflushed, CountsFit, NewestOrphans;
    SoundParts(s, y);
    match step
    case DrainDocuments(limit) => DocumentsDrainedIndexed(s, y.cat, limit); SameHeap(y.cat, DocumentsDrained(y.cat, limit).0);
    case DocumentsFail => DocumentsRequeuedIndexed(s, y.cat, y.phase.batch); SameHeap(y.cat, DocumentsRequeued(y.cat, y.phase.batch));
    case DrainCounters(limit) => AllCountersDrainedIndexed(s, y.cat, limit);
    case CountersFail =>
      ShortQueue(s, y.cat);
      CountersRequeuedIndexed(s, y.cat, y.phase.batch, y.cat.orphans);
      SameHeap(y.cat, CountersRequeued(y.cat, y.phase.batch));
    case _ =>
  }

  /** What a step adds to the slack of an entry: what it writes for other entries of the torrent. */
  function WrittenByOthers(y: System, step: Step, id: Id, k: Kind): int {
    if step.WriteDocuments? && y.phase.DocumentsOut? then BatchSum(y.phase.batch, At(y.cat, id).hash, k) - SumFor(y.phase.batch, id, k)
    else if step.WriteCounters? && y.phase.CountersOut? then BatchSum(y.phase.batch, At(y.cat, id).hash, k) - SumFor(y.phase.batch, id, k)
    else 0
  }

  /** What is shown drifts from what is stored only when an earlier entry of the torrent is written. */
  lemma SlackStep(s: Settings, y: System, step: Step, id: Id, k: Kind)
    requires Sound(s, y) && Enabled(s, y, step) && id < |y.cat.heap| && At(y.cat, id).base.Some?
    ensures Slack(Next(s, y, step), id, k) == Slack(y, id, k) + WrittenByOthers(y, step, id, k)
  {
    hide Sound, Enabled, Next, At, Crawl, Still, SumFor, BatchSum, RowCount, Unmarked, Slack, Flushed;
    BaseStays(s, y, step, id);
    match step
    case Record(h, announce, peer, now, victims) =>
      RecordSound(s, y, h, announce, peer, now, victims);
      CrawlBase(y.cat, Next(s, y, step).cat, id);
      OutsideKept(s, y, step);
      SlackSame(y, Next(s, y, step), id, k);
    case MarkDocument => MarkSlack(s, y, id, k);
    case MarkCounters => MarkCountersSlack(s, y, id, k);
    case WriteDocuments => WriteSlack(s, y, step, id, k);
    case WriteCounters => WriteSlack(s, y, step, id, k);
    case ResetMissing => ResetEnabled(s, y); NoReset(s, y);
    case _ =>
      if Crawls(step) { CrawlSlack(s, y, step, id, k); } else { QueueSlack(s, y, step, id, k); }
  }

  lemma CrawlSlack(s: Settings, y: System, step: Step, id: Id, k: Kind)
    requires Sound(s, y) && Enabled(s, y, step) && Crawls(step) && id < |y.cat.heap|
    ensures Slack(Next(s, y, step), id, k) == Slack(y, id, k)
  {
    hide Sound, Enabled, Next, At, Crawl, Still, Slack;
    CrawlSteps(s, y, step);
    CrawlBase(y.cat, Next(s, y, step).cat, id);
    OutsideKept(s, y, step);
    SlackSame(y, Next(s, y, step), id, k);
  }

  lemma QueueSlack(s: Settings, y: System, step: Step, id: Id, k: Kind)
    requires Sound(s, y) && Enabled(s, y, step) && At(Next(s, y, step).cat, id).base == At(y.cat, id).base
    requires step.DrainDocuments? || step.DocumentsFail? || step.DrainCounters? || step.CountersFail? || step.TakeChecks? || step.ReadChecks? || step.ApplyChecks? || step.ChecksFail?
    ensures Slack(Next(s, y, step), id, k) == Slack(y, id, k)
  {
    hide Sound, Enabled, Next, At, Slack;
    FlowKept(s, y, step);
    SamePhase(s, y, step);
    assert SameFlow(At(y.cat, id), At(Next(s, y, step).cat, id));
    SlackSame(y, Next(s, y, step), id, k);
  }

  lemma SlackSame(y: System, y': System, id: Id, k: Kind)
    requires y'.rows == y.rows && Unmarked(y'.phase) == Unmarked(y.phase)
    requires var e, e' := At(y.cat, id), At(y'.cat, id);
             e'.hash == e.hash && e'.base == e.base && e'.flushedSeen == e.flushedSeen && e'.flushedAnnounced == e.flushedAnnounced
    ensures Slack(y', id, k) == Slack(y, id, k)
  {
    hide At, SumFor, RowCount, Unmarked;
  }

  lemma MarkSlack(s: Settings, y: System, id: Id, k: Kind)
    requires Sound(s, y) && Enabled(s, y, MarkDocument) && id < |y.cat.heap| && At(y.cat, id).base.Some?
    ensures Slack(Next(s, y, MarkDocument), id, k) == Slack(y, id, k)
  {
    hide Sound, Indexed, DocumentMarked, EntriesOk, Claims, RowsExist, Live, At, DistinctHashes, MarkedEntry, RowCount;
    SoundParts(s, y);
    MarkKeepsBase(s, y, id);
    var x, base := y.phase.batch[0], y.phase.bases[0];
    assert x in y.phase.batch;
    OutHere(y.cat, x);
    DocumentMarkedIndexed(s, y.cat, x, base);
    MarkedFlushed(At(y.cat, x.id), x, base, Live(y.cat, x.id), k);
    UnmarkedAfter(y.phase.batch[1..], y.phase.bases[1..]);
  }

  lemma MarkedFlushed(e: Entry, x: Snapshot, base: Base, live: bool, k: Kind)
    ensures Flushed(MarkedEntry(e, x, base, live), k) == Flushed(e, k) + Delta(x, k)
  {
  }

  lemma MarkCountersSlack(s: Settings, y: System, id: Id, k: Kind)
    requires Sound(s, y) && Enabled(s, y, MarkCounters) && At(y.cat, id).base.Some?
    ensures Slack(Next(s, y, MarkCounters), id, k) == Slack(y, id, k)
  {
    hide Indexed, EntriesOk, Claims, RowsExist, CountersMarked, At, RowCount;
    MarkCountersBase(s, y, id);
    SumForEmpty(id, k);
  }

  lemma WriteSlack(s: Settings, y: System, step: Step, id: Id, k: Kind)
    requires Sound(s, y) && Enabled(s, y, step) && (step.WriteDocuments? || step.WriteCounters?) && At(y.cat, id).base.Some?
    ensures Slack(Next(s, y, step), id, k) == Slack(y, id, k) + WrittenByOthers(y, step, id, k)
  {
    hide Sound, Indexed, DocumentsWritten, CountersWritten, EntriesOk, Claims, RowsExist, BasesFor, Countable, At, RowCount, BatchSum;
    SoundParts(s, y);
    var h := At(y.cat, id).hash;
    SumForEmpty(id, k);
    if step.WriteDocuments? {
      DocumentsCounted(y.rows, y.phase.batch, h, k);
      UnmarkedAfter(y.phase.batch, BasesFor(y.phase.batch, Previous(y.rows, y.phase.batch)));
    } else {
      NothingMissing(y.cat, y.rows, y.phase.batch);
      CountersCounted(y.rows, y.phase.batch, h, k);
    }
  }

  // ----- blamed peers

  // ----- when a base is set, and what is shown ever after

  /** A base is set when a document is marked or a torrent found in the database, and it is then exactly right. */
  lemma SlackBegins(s: Settings, y: System, step: Step, id: Id, k: Kind)
    requires Sound(s, y) && Tight(y) && Enabled(s, y, step) && At(y.cat, id).base.None? && At(Next(s, y, step).cat, id).base.Some?
    ensures (step.MarkDocument? || step.ApplyChecks?) && Slack(Next(s, y, step), id, k) == 0
  {
    hide Sound, Tight, Enabled, Next, At, Crawl, Still, Slack;
    match step
    case MarkDocument => MarkBegins(s, y, id, k);
    case ApplyChecks => CheckBegins(s, y, id, k);
    case MarkCounters => MarkCountersBase(s, y, id);
    case ResetMissing => ResetEnabled(s, y); NoReset(s, y);
    case Record(h, announce, peer, now, victims) =>
      RecordSound(s, y, h, announce, peer, now, victims);
      CrawlNoBase(y.cat, Next(s, y, step).cat, id);
    case _ =>
      if Crawls(step) {
        CrawlSteps(s, y, step);
        CrawlNoBase(y.cat, Next(s, y, step).cat, id);
      } else {
        QueueKeepsBase(s, y, step, id);
      }
  }

  lemma CrawlNoBase(c: Catalog, c': Catalog, id: Id)
    requires Crawl(c, c') && At(c, id).base.None?
    ensures At(c', id).base.None?
  {
    hide QueuedIn, Live;
    assert CrawlAt(c, c', id);
  }

  lemma MarkBegins(s: Settings, y: System, id: Id, k: Kind)
    requires Sound(s, y) && Tight(y) && Enabled(s, y, MarkDocument) && At(y.cat, id).base.None? && At(Next(s, y, MarkDocument).cat, id).base.Some?
    ensures Slack(Next(s, y, MarkDocument), id, k) == 0
  {
    hide Sound, Indexed, DocumentMarked, EntriesOk, Claims, RowsExist, Live, At, DistinctHashes, Flow, Distinct, DistinctIds, RowCount, MarkedEntry, BaseFits;
    SoundParts(s, y);
    var batch, bases := y.phase.batch, y.phase.bases;
    var x, base := batch[0], bases[0];
    assert x in batch;
    OutHere(y.cat, x);
    DocumentMarkedIndexed(s, y.cat, x, base);
    MarkedBase(At(y.cat, x.id), x, base, Live(y.cat, x.id), k);
    SmallerBatch(batch);
    SumForNone(batch[1..], x.id, k);
    UnmarkedAfter(batch[1..], bases[1..]);
    assert BaseFits(y.cat, y.rows, batch[0], bases[0], k);
    FitsBase(y.cat, y.rows, x, base, k);
  }

  lemma FitsBase(c: Catalog, rows: Rows, x: Snapshot, base: Base, k: Kind)
    requires BaseFits(c, rows, x, base, k)
    ensures Live(c, x.id) ==> BaseCount(base, k) + Flushed(At(c, x.id), k) + Delta(x, k) == RowCount(rows, x.hash, k)
  {
  }

  lemma MarkedBase(e: Entry, x: Snapshot, base: Base, live: bool, k: Kind)
    requires e.base.None?
    ensures var e' := MarkedEntry(e, x, base, live);
            e'.hash == e.hash && Flushed(e', k) == Flushed(e, k) + Delta(x, k) && e'.base == if live then Some(base) else None
  {
  }

  lemma CheckBegins(s: Settings, y: System, id: Id, k: Kind)
    requires Sound(s, y) && Enabled(s, y, ApplyChecks) && At(y.cat, id).base.None? && At(Next(s, y, ApplyChecks).cat, id).base.Some?
    ensures Slack(Next(s, y, ApplyChecks), id, k) == 0
  {
    hide Sound, Indexed, ChecksApplied, Claims, RowsExist, At, EntriesOk, Live, RowCount, CheckedEntry, EntryOk;
    SoundParts(s, y);
    ChecksAppliedIndexed(s, y.cat, y.phase.hashes, y.phase.found);
    LiveOk(s, y.cat, id);
    SumForEmpty(id, k);
    if Live(y.cat, id) { CheckedFlow(s, At(y.cat, id), y.rows, y.phase.found, k); }
  }

  lemma LiveOk(s: Settings, c: Catalog, id: Id)
    requires EntriesOk(s, c)
    ensures Live(c, id) ==> EntryOk(s, At(c, id))
  {
    hide EntryOk, At, Live;
  }

  /** What was written for other entries of the torrent since the entry was given its base. */
  function Drift(s: Settings, y: System, steps: seq<Step>, id: Id, k: Kind): int
    decreases |steps|
  {
    if steps == [] then 0
    else (if At(y.cat, id).base.Some? then WrittenByOthers(y, steps[0], id, k) else 0) + Drift(s, Next(s, y, steps[0]), steps[1..], id, k)
  }

  /** Since the entry was given its base nothing was written for other entries of the torrent. */
  predicate OnlyOwn(s: Settings, y: System, steps: seq<Step>, id: Id, k: Kind)
    decreases |steps|
  {
    steps == [] ||
    ((At(y.cat, id).base.Some? ==> WrittenByOthers(y, steps[0], id, k) == 0) && OnlyOwn(s, Next(s, y, steps[0]), steps[1..], id, k))
  }

  lemma OthersPositive(s: Settings, y: System, step: Step, id: Id, k: Kind)
    requires Tight(y)
    ensures WrittenByOthers(y, step, id, k) >= 0
  {
    hide Flow, Distinct, DistinctIds, Taken, Live, At, SumFor, BatchSum;
    if (step.WriteDocuments? && y.phase.DocumentsOut?) || (step.WriteCounters? && y.phase.CountersOut?) {
      SumBelowBatch(y.cat, y.phase.batch, id, k);
    }
  }

  lemma SlackOneStep(s: Settings, y: System, step: Step, id: Id, k: Kind)
    requires Sound(s, y) && Tight(y) && Enabled(s, y, step)
    ensures Slack(Next(s, y, step), id, k) == Slack(y, id, k) + (if At(y.cat, id).base.Some? then WrittenByOthers(y, step, id, k) else 0)
  {
    hide Sound, Tight, Enabled, Next, At, WrittenByOthers, SumFor, RowCount;
    if At(y.cat, id).base.Some? {
      BasedInHeap(y.cat, id);
      SlackStep(s, y, step, id, k);
    } else if At(Next(s, y, step).cat, id).base.Some? {
      SlackBegins(s, y, step, id, k);
    }
  }

  lemma BasedInHeap(c: Catalog, id: Id)
    ensures At(c, id).base.Some? ==> id < |c.heap|
  {
  }

  /** Over any run without a double orphan the slack grows by the drift, which vanishes only with every part of it. */
  lemma {:induction false} SlackIsDrift(s: Settings, y: System, steps: seq<Step>, id: Id, k: Kind)
    requires Sound(s, y) && Tight(y) && Run(s, y, steps) && GuardedRun(s, y, steps)
    ensures Slack(After(s, y, steps), id, k) == Slack(y, id, k) + Drift(s, y, steps, id, k)
    ensures Drift(s, y, steps, id, k) >= 0 && (Drift(s, y, steps, id, k) == 0 <==> OnlyOwn(s, y, steps, id, k))
    decreases |steps|
  {
    hide Sound, Tight, Enabled, Next, At, WrittenByOthers, Slack, WritesOnce;
    if steps != [] {
      SlackOneStep(s, y, steps[0], id, k);
      OthersPositive(s, y, steps[0], id, k);
      StepSound(s, y, steps[0]);
      StepTight(s, y, steps[0]);
      SlackIsDrift(s, Next(s, y, steps[0]), steps[1..], id, k);
    }
  }

  /**
   * What is shown for a written entry is its row and exactly what is not flushed (less what is written and not yet
   * marked), if and only if nothing was written for another entry of the torrent since this one was given its base;
   * otherwise it falls short by just what was written.
   */
  lemma DisplayedAgrees(s: Settings, y: System, steps: seq<Step>, id: Id, k: Kind)
    requires Start(y) && Run(s, y, steps) && GuardedRun(s, y, steps)
    requires At(After(s, y, steps).cat, id).base.Some?
    ensures var z := After(s, y, steps); var e := At(z.cat, id);
            var stored := RowCount(z.rows, e.hash, k) + Unflushed(e, k) - SumFor(Unmarked(z.phase), id, k);
            e.hash in z.rows && Displayed(e, k) == stored - Drift(s, y, steps, id, k) &&
            Displayed(e, k) <= stored && (Displayed(e, k) == stored <==> OnlyOwn(s, y, steps, id, k))
  {
    hide Sound, Tight, Run, After, RowCount, GuardedRun, Start, SumFor, Indexed, EntriesOk, Claims, PhaseOk, Distinct, At, Drift, OnlyOwn;
    StartSound(s, y);
    StartTight(s, y);
    SlackIsDrift(s, y, steps, id, k);
    NoBaseYet(y, id);
    RunSound(s, y, steps);
    var z := After(s, y, steps);
    SoundParts(s, z);
    BasedInHeap(z.cat, id);
    assert RowBehind(z.rows, At(z.cat, id));
  }

  lemma NoBaseYet(y: System, id: Id)
    requires Start(y)
    ensures At(y.cat, id).base.None?
  {
  }

  /** A blamed peer stays blamed, and so is not tried again, until its torrent is written or found in the database. */
  lemma BlameLasts(s: Settings, y: System, step: Step, id: Id)
    requires Sound(s, y) && Enabled(s, y, step) && id < |y.cat.heap| && At(Next(s, y, step).cat, id).base.None?
    ensures At(y.cat, id).failed <= At(Next(s, y, step).cat, id).failed
  {
    hide Sound, Enabled, Next, At, Crawl, Still;
    match step
    case Record(h, announce, peer, now, victims) => RecordSound(s, y, h, announce, peer, now, victims); CrawlBlame(y.cat, Next(s, y, step).cat, id);
    case MarkDocument => MarkBlame(s, y, id);
    case MarkCounters => MarkCountersBlame(s, y, id);
    case ApplyChecks => ApplyBlame(s, y, id);
    case ResetMissing => ResetEnabled(s, y); NoReset(s, y);
    case _ =>
      if Crawls(step) {
        CrawlSteps(s, y, step);
        CrawlBlame(y.cat, Next(s, y, step).cat, id);
      } else {
        QueueKeepsBase(s, y, step, id);
      }
  }

  lemma CrawlBlame(c: Catalog, c': Catalog, id: Id)
    requires Crawl(c, c') && id < |c.heap|
    ensures At(c, id).failed <= At(c', id).failed && Work(At(c, id)) <= Work(At(c', id))
  {
    hide At, QueuedIn, Live;
    assert CrawlAt(c, c', id);
  }

  lemma MarkBlame(s: Settings, y: System, id: Id)
    requires Sound(s, y) && Enabled(s, y, MarkDocument)
    ensures At(Next(s, y, MarkDocument).cat, id).base.Some? || At(Next(s, y, MarkDocument).cat, id).failed == At(y.cat, id).failed
    ensures Work(At(Next(s, y, MarkDocument).cat, id)) == Work(At(y.cat, id))
  {
    hide Sound, Indexed, DocumentMarked, EntriesOk, Claims, RowsExist, Live, At, DistinctHashes;
    SoundParts(s, y);
    var x, base := y.phase.batch[0], y.phase.bases[0];
    assert x in y.phase.batch;
    OutHere(y.cat, x);
    DocumentMarkedIndexed(s, y.cat, x, base);
  }

  lemma MarkCountersBlame(s: Settings, y: System, id: Id)
    requires Sound(s, y) && Enabled(s, y, MarkCounters)
    ensures At(Next(s, y, MarkCounters).cat, id).failed == At(y.cat, id).failed
    ensures Work(At(Next(s, y, MarkCounters).cat, id)) == Work(At(y.cat, id))
  {
    hide Sound, Indexed, CountersMarked, EntriesOk, Claims, RowsExist, Countable, SumFor, At;
    SoundParts(s, y);
    MarkCountersSound(s, y);
    forall x | x in y.phase.batch ensures x.id < |y.cat.heap| { InRange(y.cat, x); }
    CountersMarkedIndexed(s, y.cat, y.phase.batch);
  }

  lemma ApplyBlame(s: Settings, y: System, id: Id)
    requires Sound(s, y) && Enabled(s, y, ApplyChecks)
    ensures At(Next(s, y, ApplyChecks).cat, id).base.Some? || At(Next(s, y, ApplyChecks).cat, id).failed == At(y.cat, id).failed
    ensures Work(At(Next(s, y, ApplyChecks).cat, id)) == Work(At(y.cat, id))
  {
    hide Sound, Indexed, ChecksApplied, Claims, RowsExist, At, EntriesOk, Live;
    SoundParts(s, y);
    ChecksAppliedIndexed(s, y.cat, y.phase.hashes, y.phase.found);
  }

  // ----- how often a torrent is tried: only a claim that is released costs nothing

  /** Whether a step is a failed fetch or a finished lookup of the entry. */
  function Effort(y: System, step: Step, id: Id): nat {
    if Live(y.cat, id) && ((step.FailFetch? && step.h == At(y.cat, id).hash) || (step.FinishLookup? && step.h == At(y.cat, id).hash)) then 1 else 0
  }

  function EffortIn(s: Settings, y: System, steps: seq<Step>, id: Id): nat
    decreases |steps|
  {
    if steps == [] then 0 else Effort(y, steps[0], id) + EffortIn(s, Next(s, y, steps[0]), steps[1..], id)
  }

  lemma EffortCounts(s: Settings, y: System, step: Step, id: Id)
    requires Sound(s, y) && Enabled(s, y, step) && id < |y.cat.heap|
    ensures Work(At(Next(s, y, step).cat, id)) >= Work(At(y.cat, id)) + Effort(y, step, id)
  {
    hide Sound, Enabled, Next, At, Crawl, Still, Work, Live, Effort;
    NoEffort(y, step, id);
    match step
    case Record(h, announce, peer, now, victims) => RecordSound(s, y, h, announce, peer, now, victims); CrawlBlame(y.cat, Next(s, y, step).cat, id);
    case MarkDocument => MarkBlame(s, y, id);
    case MarkCounters => MarkCountersBlame(s, y, id);
    case ApplyChecks => ApplyBlame(s, y, id);
    case ResetMissing => ResetEnabled(s, y); NoReset(s, y);
    case FailFetch(h, tried, reason, now) => FailureCounts(s, y, h, tried, reason, now, id);
    case FinishLookup(h, peers, now) => LookupCounts(s, y, h, peers, now, id);
    case _ =>
      if Crawls(step) {
        CrawlSteps(s, y, step);
        CrawlBlame(y.cat, Next(s, y, step).cat, id);
      } else {
        QueueKeepsBase(s, y, step, id);
      }
  }

  lemma NoEffort(y: System, step: Step, id: Id)
    ensures !step.FailFetch? && !step.FinishLookup? ==> Effort(y, step, id) == 0
  {
  }

  lemma FailureCounts(s: Settings, y: System, h: Hash, tried: seq<Peer>, reason: string, now: real, id: Id)
    requires Sound(s, y) && Enabled(s, y, FailFetch(h, tried, reason, now)) && id < |y.cat.heap|
    ensures Work(At(Next(s, y, FailFetch(h, tried, reason, now)).cat, id)) >= Work(At(y.cat, id)) + Effort(y, FailFetch(h, tried, reason, now), id)
  {
    hide Sound, FetchFailed, EntryOk, Indexed, At, ForgetPeers, Work, AfterFailure;
    SoundParts(s, y);
    FetchFailedIndexed(s, y.cat, h, tried, reason, now);
    ClaimedJob(s, y, h);
    AfterFailureOk(s, At(y.cat, y.cat.entries.m[h]), tried, reason, now);
  }

  lemma LookupCounts(s: Settings, y: System, h: Hash, peers: seq<Peer>, now: real, id: Id)
    requires Sound(s, y) && Enabled(s, y, FinishLookup(h, peers, now)) && id < |y.cat.heap|
    ensures Work(At(Next(s, y, FinishLookup(h, peers, now)).cat, id)) >= Work(At(y.cat, id)) + Effort(y, FinishLookup(h, peers, now), id)
  {
    hide Sound, LookupFinished, EntryOk, Indexed, At, Work, AfterLookup;
    SoundParts(s, y);
    LookupFinishedIndexed(s, y.cat, h, peers, now);
    ClaimedLookup(s, y, h);
    AfterLookupOk(s, At(y.cat, y.cat.entries.m[h]), peers, now);
  }

  /** Over any run an entry sees at most max_fetch_attempts + max_lookups failed fetches and finished lookups. */
  lemma {:induction false} EffortBounded(s: Settings, y: System, steps: seq<Step>, id: Id)
    requires Sound(s, y) && Run(s, y, steps) && Live(y.cat, id) && id < |y.cat.heap|
    ensures Work(At(y.cat, id)) + EffortIn(s, y, steps, id) <= s.maxAttempts + s.maxLookups
    decreases |steps|
  {
    hide Sound, Enabled, Next, At, Work, Live;
    SoundWork(s, y, id);
    if steps != [] {
      var y1 := Next(s, y, steps[0]);
      StepSound(s, y, steps[0]);
      EffortCounts(s, y, steps[0], id);
      if Live(y1.cat, id) {
        LiveInHeap(s, y1, id);
        EffortBounded(s, y1, steps[1..], id);
      } else {
        LastEffort(s, y, steps[0], id);
        DeadStays(s, y, steps[0], id);
        NoEffortDead(s, y1, steps[1..], id);
      }
    }
  }

  lemma LiveInHeap(s: Settings, y: System, id: Id)
    requires Sound(s, y) && Live(y.cat, id)
    ensures id < |y.cat.heap|
  {
    hide Exact, Counted, Queued, InOrder, EntriesOk, Claims, PhaseOk, RowsExist;
  }

  lemma SoundWork(s: Settings, y: System, id: Id)
    requires Sound(s, y) && Live(y.cat, id)
    ensures Work(At(y.cat, id)) <= s.maxAttempts + s.maxLookups
  {
    hide Indexed, Claims, PhaseOk, RowsExist, PeersOk, StageOk, NotStranded, At, Live;
    assert EntryOk(s, At(y.cat, id));
  }

  /** A step that ends an entry's life in memory is an eviction, not a failure or a lookup. */
  lemma LastEffort(s: Settings, y: System, step: Step, id: Id)
    requires Sound(s, y) && Enabled(s, y, step) && Live(y.cat, id) && !Live(Next(s, y, step).cat, id)
    ensures Effort(y, step, id) == 0
  {
    hide Sound, FetchFailed, LookupFinished, Indexed, At, AfterLookup, AfterFailure;
    SoundParts(s, y);
    if step.FailFetch? {
      FetchFailedIndexed(s, y.cat, step.h, step.tried, step.reason, step.now);
      ClaimedJob(s, y, step.h);
      AfterFailureKeeps(s, At(y.cat, y.cat.entries.m[step.h]), step.tried, step.reason, step.now);
    } else if step.FinishLookup? {
      LookupFinishedIndexed(s, y.cat, step.h, step.peers, step.now);
      ClaimedLookup(s, y, step.h);
      AfterLookupKeeps(s, At(y.cat, y.cat.entries.m[step.h]), step.peers, step.now);
    }
  }

  lemma {:induction false} NoEffortDead(s: Settings, y: System, steps: seq<Step>, id: Id)
    requires Sound(s, y) && Run(s, y, steps) && id < |y.cat.heap| && !Live(y.cat, id)
    ensures EffortIn(s, y, steps, id) == 0
    decreases |steps|
  {
    hide Sound, Enabled, Next, Live;
    if steps != [] {
      StepSound(s, y, steps[0]);
      DeadStays(s, y, steps[0], id);
      NoEffortDead(s, Next(s, y, steps[0]), steps[1..], id);
    }
  }

  /** An evicted entry never comes back; its torrent may, as another entry. */
  lemma DeadStays(s: Settings, y: System, step: Step, id: Id)
    requires Sound(s, y) && Enabled(s, y, step) && id < |y.cat.heap|
    ensures (Live(Next(s, y, step).cat, id) ==> Live(y.cat, id)) && |y.cat.heap| <= |Next(s, y, step).cat.heap|
  {
    hide Sound, Enabled, Next, At, Crawl, Still, Live;
    match step
    case Record(h, announce, peer, now, victims) => RecordSound(s, y, h, announce, peer, now, victims); CrawlLive(y.cat, Next(s, y, step).cat, id);
    case MarkDocument => MarkLive(s, y, id);
    case MarkCounters => MarkCountersLive(s, y, id);
    case ResetMissing => ResetEnabled(s, y); NoReset(s, y);
    case _ =>
      if Crawls(step) {
        CrawlSteps(s, y, step);
        CrawlLive(y.cat, Next(s, y, step).cat, id);
      } else {
        QueueLive(s, y, step, id);
      }
  }

  lemma CrawlLive(c: Catalog, c': Catalog, id: Id)
    requires Crawl(c, c') && id < |c.heap|
    ensures (Live(c', id) ==> Live(c, id)) && |c.heap| <= |c'.heap|
  {
    hide At, QueuedIn, Live;
    assert CrawlAt(c, c', id);
  }

  lemma MarkLive(s: Settings, y: System, id: Id)
    requires Sound(s, y) && Enabled(s, y, MarkDocument)
    ensures (Live(Next(s, y, MarkDocument).cat, id) <==> Live(y.cat, id)) && |Next(s, y, MarkDocument).cat.heap| == |y.cat.heap|
  {
    hide Sound, Indexed, DocumentMarked, EntriesOk, Claims, RowsExist, Live, At, DistinctHashes, MarkedEntry;
    SoundParts(s, y);
    var x, base := y.phase.batch[0], y.phase.bases[0];
    assert x in y.phase.batch;
    OutHere(y.cat, x);
    DocumentMarkedIndexed(s, y.cat, x, base);
    MarkedFields(At(y.cat, x.id), x, base, Live(y.cat, x.id));
    SteadyLive(y.cat, Next(s, y, MarkDocument).cat, id);
  }

  lemma MarkCountersLive(s: Settings, y: System, id: Id)
    requires Sound(s, y) && Enabled(s, y, MarkCounters)
    ensures (Live(Next(s, y, MarkCounters).cat, id) <==> Live(y.cat, id)) && |Next(s, y, MarkCounters).cat.heap| == |y.cat.heap|
  {
    hide Sound, Indexed, CountersMarked, EntriesOk, Claims, RowsExist, Countable, SumFor, At, Live;
    SoundParts(s, y);
    MarkCountersSound(s, y);
    forall x | x in y.phase.batch ensures x.id < |y.cat.heap| { InRange(y.cat, x); }
    CountersMarkedIndexed(s, y.cat, y.phase.batch);
    SteadyLive(y.cat, Next(s, y, MarkCounters).cat, id);
  }

  lemma QueueLive(s: Settings, y: System, step: Step, id: Id)
    requires Sound(s, y) && Enabled(s, y, step)
    requires step.DrainDocuments? || step.WriteDocuments? || step.DocumentsFail? || step.DrainCounters? || step.WriteCounters? || step.CountersFail? ||
             step.TakeChecks? || step.ReadChecks? || step.ApplyChecks? || step.ChecksFail?
    ensures (Live(Next(s, y, step).cat, id) <==> Live(y.cat, id)) && |Next(s, y, step).cat.heap| == |y.cat.heap|
  {
    hide Sound, At, Live, DocumentsWritten, CountersWritten, BasesFor, DocumentsDrained, AllCountersDrained, DocumentsRequeued, CountersRequeued, ChecksApplied;
    if !step.WriteDocuments? && !step.WriteCounters? {
      FlowKept(s, y, step);
      SameEntries(s, y, step);
      assert SameFlow(At(y.cat, id), At(Next(s, y, step).cat, id));
      SteadyLive(y.cat, Next(s, y, step).cat, id);
    }
  }

  lemma SameEntries(s: Settings, y: System, step: Step)
    requires Sound(s, y) && Enabled(s, y, step)
    requires step.DrainDocuments? || step.DocumentsFail? || step.DrainCounters? || step.CountersFail? || step.TakeChecks? || step.ReadChecks? || step.ApplyChecks? || step.ChecksFail?
    ensures Next(s, y, step).cat.entries == y.cat.entries
  {
    hide Sound, Indexed, DocumentsDrained, AllCountersDrained, DocumentsRequeued, CountersRequeued, ChecksApplied, EntriesOk, Claims, RowsExist, At, Live,
      DistinctHashes, DocumentOf, Countable, OnlyOverflow, HasId, HasUnflushed, CountsFit, NewestOrphans;
    SoundParts(s, y);
    match step
    case DrainDocuments(limit) => DocumentsDrainedIndexed(s, y.cat, limit);
    case DocumentsFail => DocumentsRequeuedIndexed(s, y.cat, y.phase.batch);
    case DrainCounters(limit) => AllCountersDrainedIndexed(s, y.cat, limit);
    case CountersFail =>
      ShortQueue(s, y.cat);
      CountersRequeuedIndexed(s, y.cat, y.phase.batch, y.cat.orphans);
    case ApplyChecks => ChecksAppliedIndexed(s, y.cat, y.phase.hashes, y.phase.found);
    case _ =>
  }

  /** No candidate handed to the fetch engine comes with a peer that was blamed before. */
  lemma NoBlamedPeerHandedOut(s: Settings, y: System, ids: seq<Id>, limit: nat, id: Id, p: Peer)
    requires Sound(s, y) && TopCandidates(y.cat, ids, limit) && id in ids && p in At(y.cat, id).peers
    ensures p !in At(y.cat, id).failed && At(y.cat, id).peers != [] && Live(y.cat, id)
  {
    hide Sound, TopCandidates, Live, BudgetOk, StageOk, NotStranded, At;
    SoundParts(s, y);
    CandidatesHere(s, y.cat, ids, limit);
    EntryOfLive(s, y.cat, id);
  }

  // ----- the double orphan
}
