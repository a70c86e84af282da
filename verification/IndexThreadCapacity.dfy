/** Only a sighting adds entries, and it evicts when there are too many: the catalog never outgrows max_entries. */
module IndexThreadCapacity {
  import opened ByteStrings
  import opened BoundedRecentMap
  import opened NodeIdentity
  import opened CatalogSpec
  import opened CatalogIndexes
  import opened CatalogMethods
  import opened CatalogFlushing
  import opened CatalogEviction
  import opened IndexThread
  import opened IndexThreadSafety
  import opened IndexThreadCounts
  import opened IndexThreadResults
  import opened IndexThreadLosses

  lemma EntriesKept(s: Settings, y: System, step: Step)
    requires Sound(s, y) && Enabled(s, y, step) && !step.Record?
    ensures Next(s, y, step).cat.entries == y.cat.entries
  {
    hide Sound, Enabled, Next, At, Live, OnlyOverflow, QueuesLive;
    match step
    case MarkDocument => MarkedEntries(s, y);
    case MarkCounters => CountersEntries(s, y);
    case ResetMissing => ResetEnabled(s, y); NoReset(s, y);
    case _ =>
      if Crawls(step) {
        CrawlQueues(s, y, step);
      } else {
        ThreadEntries(s, y, step);
      }
  }

  lemma ThreadEntries(s: Settings, y: System, step: Step)
    requires Sound(s, y) && Enabled(s, y, step)
    requires !step.Record? && !Crawls(step) && !step.MarkDocument? && !step.MarkCounters? && !step.ResetMissing?
    ensures Next(s, y, step).cat.entries == y.cat.entries
  {
    hide Sound, At, Live, DocumentsWritten, CountersWritten, BasesFor, DocumentsDrained, AllCountersDrained, DocumentsRequeued, CountersRequeued, ChecksApplied;
    if !step.WriteDocuments? && !step.WriteCounters? { SameEntries(s, y, step); }
  }

  lemma MarkedEntries(s: Settings, y: System)
    requires Sound(s, y) && Enabled(s, y, MarkDocument)
    ensures Next(s, y, MarkDocument).cat.entries == y.cat.entries
  {
    hide Sound, Indexed, DocumentMarked, EntriesOk, Claims, RowsExist, Live, At, DistinctHashes, MarkedEntry;
    SoundParts(s, y);
    assert y.phase.batch[0] in y.phase.batch;
    OutHere(y.cat, y.phase.batch[0]);
    DocumentMarkedIndexed(s, y.cat, y.phase.batch[0], y.phase.bases[0]);
  }

  lemma CountersEntries(s: Settings, y: System)
    requires Sound(s, y) && Enabled(s, y, MarkCounters)
    ensures Next(s, y, MarkCounters).cat.entries == y.cat.entries
  {
    hide Sound, Indexed, CountersMarked, EntriesOk, Claims, RowsExist, Countable, SumFor, At, Live;
    SoundParts(s, y);
    MarkCountersSound(s, y);
    forall x | x in y.phase.batch ensures x.id < |y.cat.heap| { InRange(y.cat, x); }
    CountersMarkedIndexed(s, y.cat, y.phase.batch);
  }

  /** One step of any thread. */
  lemma CapacityStep(s: Settings, y: System, step: Step)
    requires Sound(s, y) && Enabled(s, y, step) && |y.cat.entries.m| <= s.maxEntries
    ensures |Next(s, y, step).cat.entries.m| <= s.maxEntries
  {
    hide Sound, Indexed, Noted, ChosenVictims, Recorded, Next;
    if step.Record? {
      SoundParts(s, y);
      CapacityKept(s, y.cat, step.h, step.announce, step.peer, step.now, step.victims);
      RecordedNext(s, y, step);
    } else {
      EntriesKept(s, y, step);
    }
  }

  lemma RecordedNext(s: Settings, y: System, step: Step)
    requires step.Record?
    ensures Next(s, y, step).cat == Recorded(s, y.cat, step.h, step.announce, step.peer, step.now, step.victims)
  {
  }

  lemma {:induction false} WithinFrom(s: Settings, y: System, steps: seq<Step>)
    requires Sound(s, y) && Run(s, y, steps) && |y.cat.entries.m| <= s.maxEntries
    ensures |After(s, y, steps).cat.entries.m| <= s.maxEntries
    decreases |steps|
  {
    hide Sound, Enabled, Next;
    if steps != [] {
      CapacityStep(s, y, steps[0]);
      StepSound(s, y, steps[0]);
      WithinFrom(s, Next(s, y, steps[0]), steps[1..]);
    }
  }

  /** In every reachable state, under every interleaving of the threads. */
  lemma NeverTooMany(s: Settings, y: System, steps: seq<Step>)
    requires Start(y) && Run(s, y, steps)
    ensures |After(s, y, steps).cat.entries.m| <= s.maxEntries
  {
    hide Sound, Run, After;
    StartSound(s, y);
    WithinFrom(s, y, steps);
  }
}
