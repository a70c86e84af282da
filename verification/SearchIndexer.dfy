/**
 * search_indexer.py in its own form: the flush loops drive the catalog and the database. Each of them takes exactly the
 * steps named in FlushOutcomes, which the system of IndexThread takes too, so what is proved of every run there holds
 * of these methods; and each says what it leaves in the queues and in the rows.
 */
module SearchIndexer {
  import opened ByteStrings
  import opened BoundedRecentMap
  import opened NodeIdentity
  import opened CatalogSpec
  import opened CatalogIndexes
  import opened CatalogMethods
  import opened CatalogFlushing
  import opened CatalogEviction
  import opened CatalogEntries
  import opened IndexThread
  import opened IndexThreadSafety
  import opened FlushOutcomes
  import Counts = IndexThreadCounts
  import TorrentCatalog

  /** torrent_database.py, reduced to its counters. */
  class TorrentDatabase {
    var rows: Rows

    /** write_documents: one transaction, which commits whole or fails whole. */
    method WriteDocuments(batch: seq<Snapshot>, commits: bool) returns (previous: map<Hash, Base>)
      modifies this
      ensures rows == if commits then DocumentsWritten(old(rows), batch) else old(rows)
      ensures previous == Previous(old(rows), batch)
    {
      hide DocumentWritten;
      var saved := rows;
      previous := map[];
      assert batch[0..] == batch;
      var i := 0;
      while i < |batch|
        invariant 0 <= i <= |batch|
        invariant DocumentsWritten(rows, batch[i..]) == DocumentsWritten(saved, batch)
        invariant Merged(previous, Previous(rows, batch[i..])) == Previous(saved, batch)
      {
        assert batch[i..][0] == batch[i] && batch[i..][1..] == batch[i + 1..];
        var x := batch[i];
        MergeNext(previous, rows, batch[i..]);
        if x.hash in rows {
          previous := previous[x.hash := BaseOf(rows[x.hash])];
        }
        rows := DocumentWritten(rows, x);
        i := i + 1;
      }
      if !commits {
        rows := saved;
      }
    }

    /** update_counters: hashes without a row are reported missing. */
    method UpdateCounters(batch: seq<Snapshot>, commits: bool) returns (missing: seq<Hash>)
      modifies this
      ensures rows == if commits then CountersWritten(old(rows), batch) else old(rows)
      ensures missing == MissingFrom(old(rows), batch)
    {
      hide CounterWritten;
      var saved := rows;
      missing := [];
      assert batch[0..] == batch;
      var i := 0;
      while i < |batch|
        invariant 0 <= i <= |batch| && rows.Keys == saved.Keys
        invariant CountersWritten(rows, batch[i..]) == CountersWritten(saved, batch)
        invariant missing + MissingFrom(saved, batch[i..]) == MissingFrom(saved, batch)
      {
        assert batch[i..][0] == batch[i] && batch[i..][1..] == batch[i + 1..];
        var x := batch[i];
        assert missing + ([x.hash] + MissingFrom(saved, batch[i + 1..])) == missing + [x.hash] + MissingFrom(saved, batch[i + 1..]);
        SameHashes(rows, x);
        if x.hash in rows {
          rows := CounterWritten(rows, x);
        } else {
          missing := missing + [x.hash];
        }
        i := i + 1;
      }
      assert missing + [] == missing;
      if !commits {
        rows := saved;
      }
    }

    /** lookup_counters */
    method LookupCounters(hashes: seq<Hash>) returns (found: map<Hash, Base>)
      ensures found == LookedUp(rows, hashes)
    {
      found := map h | h in rows && h in hashes :: BaseOf(rows[h]);
    }
  }

  function Merged(a: map<Hash, Base>, b: map<Hash, Base>): map<Hash, Base> {
    a + b
  }

  lemma MergeNext(a: map<Hash, Base>, rows: Rows, batch: seq<Snapshot>)
    requires batch != []
    ensures var x := batch[0]; var rest := Previous(DocumentWritten(rows, x), batch[1..]);
            Merged(a, Previous(rows, batch)) == Merged(if x.hash in rows then a[x.hash := BaseOf(rows[x.hash])] else a, rest)
  {
    hide DocumentWritten;
  }

  lemma SameHashes(rows: Rows, x: Snapshot)
    ensures CounterWritten(rows, x).Keys == rows.Keys && (x.hash !in rows ==> CounterWritten(rows, x) == rows)
  {
  }

  // ----- runs that grow at their end

  lemma {:induction false} RunGrows(s: Settings, y: System, steps: seq<Step>, step: Step)
    requires Run(s, y, steps) && Enabled(s, After(s, y, steps), step)
    ensures Run(s, y, steps + [step]) && After(s, y, steps + [step]) == Next(s, After(s, y, steps), step)
    decreases |steps|
  {
    hide Enabled, Next;
    if steps == [] {
      assert [step][1..] == [];
      assert steps + [step] == [step];
    } else {
      assert (steps + [step])[0] == steps[0] && (steps + [step])[1..] == steps[1..] + [step];
      RunGrows(s, Next(s, y, steps[0]), steps[1..], step);
    }
  }

  class SearchIndexer {
    const catalog: TorrentCatalog.TorrentCatalog
    const database: TorrentDatabase
    const batchSize: Positive

    constructor (catalog: TorrentCatalog.TorrentCatalog, database: TorrentDatabase, batchSize: Positive)
      ensures this.catalog == catalog && this.database == database && this.batchSize == batchSize
    {
      this.catalog, this.database, this.batchSize := catalog, database, batchSize;
    }

    /** The state of the whole system, the index thread being at the given point. */
    ghost function State(phase: Phase, lookups: set<Hash>, jobs: set<Hash>): System
      reads catalog, database
    {
      System(catalog.Model(), database.rows, phase, lookups, jobs)
    }

    /** The steps lead from y to where the system is, the index thread at rest. */
    ghost predicate Stands(y: System, steps: seq<Step>, lookups: set<Hash>, jobs: set<Hash>)
      reads catalog, database
    {
      Sound(catalog.s, State(Idle, lookups, jobs)) && Run(catalog.s, y, steps) && After(catalog.s, y, steps) == State(Idle, lookups, jobs)
    }

    lemma StandsFirst(lookups: set<Hash>, jobs: set<Hash>)
      requires Sound(catalog.s, State(Idle, lookups, jobs))
      ensures Stands(State(Idle, lookups, jobs), [], lookups, jobs)
    {
      hide Sound, Run, After;
      NoSteps(catalog.s, State(Idle, lookups, jobs));
    }

    /** The writes of flush_documents: every document marked, or the whole batch queued again. */
    method WriteBatch(batch: seq<Snapshot>, commits: bool, ghost lookups: set<Hash>, ghost jobs: set<Hash>, ghost y0: System, ghost run: seq<Step>)
      returns (ghost steps: seq<Step>)
      requires batch != [] && Sound(catalog.s, State(DocumentsOut(batch), lookups, jobs))
      requires DistinctIds(batch) && forall x :: x in batch ==> Markable(catalog.Model(), x)
      requires Run(catalog.s, y0, run) && After(catalog.s, y0, run) == State(DocumentsOut(batch), lookups, jobs)
      modifies catalog, database
      ensures Stands(y0, steps, lookups, jobs)
      ensures steps == run + if commits then [WriteDocuments] + EachMarked(|batch|) else [DocumentsFail]
      ensures commits ==> BatchMarked(old(catalog.Model()), catalog.Model(), batch) && database.rows == DocumentsWritten(old(database.rows), batch)
      ensures !commits ==> catalog.Model() == DocumentsRequeued(old(catalog.Model()), batch) && database.rows == old(database.rows)
    {
      hide Sound, Run, After, Indexed, EntriesOk, Claims, RowsExist, DocumentsWritten, Previous, DistinctHashes, DocumentMarked, DocumentsRequeued, BatchMarked, Markable;
      var s := catalog.s;
      ghost var y := State(DocumentsOut(batch), lookups, jobs);
      SoundParts(s, y);
      var previous := database.WriteDocuments(batch, commits);
      if !commits {
        RunGrows(s, y0, run, DocumentsFail);
        steps := run + [DocumentsFail];
        DocumentsFailSound(s, y);
        forall x | x in batch ensures DocumentOf(catalog.Model(), x.hash, x.id) { assert DocumentOutOk(y.cat, x); }
        catalog.RequeueIndexDocuments(batch);
        return;
      }
      RunGrows(s, y0, run, WriteDocuments);
      WriteDocumentsSound(s, y);
      var bases := Bases(batch, previous);
      steps := MarkAll(batch, bases, lookups, jobs, y0, run + [WriteDocuments]);
      assert run + [WriteDocuments] + EachMarked(|batch|) == run + ([WriteDocuments] + EachMarked(|batch|));
    }

    /** The base of each snapshot: its own, or what the database held before. */
    method Bases(batch: seq<Snapshot>, previous: map<Hash, Base>) returns (bases: seq<Base>)
      ensures bases == BasesFor(batch, previous)
    {
      bases := [];
      assert batch[0..] == batch;
      var i := 0;
      while i < |batch|
        invariant 0 <= i <= |batch| && bases + BasesFor(batch[i..], previous) == BasesFor(batch, previous)
      {
        assert batch[i..][0] == batch[i] && batch[i..][1..] == batch[i + 1..];
        var x := batch[i];
        var base := if x.base.Some? then x.base.value else if x.hash in previous then previous[x.hash] else NO_BASE;
        assert bases + ([base] + BasesFor(batch[i + 1..], previous)) == bases + [base] + BasesFor(batch[i + 1..], previous);
        bases := bases + [base];
        i := i + 1;
      }
      assert bases + [] == bases;
    }

    method MarkAll(batch: seq<Snapshot>, bases: seq<Base>, ghost lookups: set<Hash>, ghost jobs: set<Hash>, ghost y0: System, ghost run: seq<Step>)
      returns (ghost steps: seq<Step>)
      requires batch != [] && |bases| == |batch| && Sound(catalog.s, State(DocumentsToMark(batch, bases), lookups, jobs))
      requires DistinctIds(batch) && forall x :: x in batch ==> Markable(catalog.Model(), x)
      requires Run(catalog.s, y0, run) && After(catalog.s, y0, run) == State(DocumentsToMark(batch, bases), lookups, jobs)
      modifies catalog
      ensures Stands(y0, steps, lookups, jobs)
      ensures steps == run + EachMarked(|batch|) && BatchMarked(old(catalog.Model()), catalog.Model(), batch)
    {
      hide Sound, Run, After, DocumentMarked, Indexed, EntriesOk, Claims, RowsExist, PhaseOk, MarkedUpTo, BatchMarked, Markable, DistinctIds;
      var s := catalog.s;
      ghost var c0 := catalog.Model();
      steps := run;
      MarkedNone(c0, batch);
      assert batch[0..] == batch && bases[0..] == bases && run + EachMarked(0) == run;
      var i := 0;
      while i < |batch|
        invariant 0 <= i <= |batch| && Sound(s, State(ToMark(batch[i..], bases[i..]), lookups, jobs))
        invariant Run(s, y0, steps) && After(s, y0, steps) == State(ToMark(batch[i..], bases[i..]), lookups, jobs)
        invariant steps == run + EachMarked(i) && MarkedUpTo(c0, catalog.Model(), batch, i)
      {
        ghost var y := State(ToMark(batch[i..], bases[i..]), lookups, jobs);
        assert batch[i..][0] == batch[i] && batch[i..][1..] == batch[i + 1..] && bases[i..][0] == bases[i] && bases[i..][1..] == bases[i + 1..];
        RunGrows(s, y0, steps, MarkDocument);
        assert run + EachMarked(i) + [MarkDocument] == run + EachMarked(i + 1);
        steps := steps + [MarkDocument];
        MarkDocumentSound(s, y);
        MarkReady(s, y, batch[i], bases[i]);
        MarkOne(s, c0, catalog.Model(), batch, i, bases[i]);
        catalog.MarkIndexWritten(batch[i], bases[i]);
        i := i + 1;
      }
      MarkedAll(c0, catalog.Model(), batch);
    }

    /** One turn of flush_documents: the oldest documents are written and marked, or the queue is as it was. */
    method FlushSome(commits: bool, ghost lookups: set<Hash>, ghost jobs: set<Hash>, ghost y0: System, ghost run: seq<Step>,
                     ghost c0: Catalog, ghost rows0: Rows, ghost t: nat)
      returns (taken: nat, ghost steps: seq<Step>)
      requires Stands(y0, run, lookups, jobs) && Indexed(catalog.s, c0)
      requires Flushed(c0, rows0, t)
      modifies catalog, database
      ensures Stands(y0, steps, lookups, jobs)
      ensures t <= |c0.documents.keys| && taken == Least(batchSize, |c0.documents.keys| - t)
      ensures steps == run + if taken == 0 then [DrainDocuments(batchSize)]
                             else if commits then [DrainDocuments(batchSize), WriteDocuments] + EachMarked(taken)
                             else [DrainDocuments(batchSize), DocumentsFail]
      ensures Flushed(c0, rows0, t + if commits then taken else 0)
      ensures commits && taken > 0 ==> |catalog.documents.m| < |old(catalog.documents).m|
    {
      hide Sound, Run, After, Indexed, EntriesOk, Claims, RowsExist, PhaseOk, DocumentsDrained, WrittenUpTo, BatchMarked, DocumentsRequeued, Markable, DistinctIds;
      var s := catalog.s;
      ghost var y, rows := State(Idle, lookups, jobs), database.rows;
      SoundParts(s, y);
      RunGrows(s, y0, run, DrainDocuments(batchSize));
      DrainDocumentsSound(s, y, batchSize);
      DrainShrinks(s, y.cat, batchSize);
      DrainedMarkable(s, y.cat, batchSize);
      LeftOver(c0, rows0, y.cat, rows, t, batchSize);
      steps := run + [DrainDocuments(batchSize)];
      var batch := catalog.DrainIndexDocuments(batchSize);
      taken := |batch|;
      if batch == [] {
        DrainedNothing(s, y.cat, batchSize);
        return;
      }
      steps := WriteBatch(batch, commits, lookups, jobs, y0, steps);
      if commits {
        RoundWritten(s, c0, rows0, y.cat, rows, t, batchSize, catalog.Model(), database.rows);
        MarkedDocuments(DocumentsDrained(y.cat, batchSize).0, catalog.Model(), batch);
        assert run + [DrainDocuments(batchSize)] + ([WriteDocuments] + EachMarked(taken)) == run + ([DrainDocuments(batchSize), WriteDocuments] + EachMarked(taken));
      } else {
        FailedAsBefore(s, y.cat, batchSize);
        assert run + [DrainDocuments(batchSize)] + [DocumentsFail] == run + [DrainDocuments(batchSize), DocumentsFail];
      }
    }

    /** The first t documents of c0 are written and marked, and the others wait. */
    ghost predicate Flushed(c0: Catalog, rows0: Rows, t: nat)
      reads catalog, database
    {
      WrittenUpTo(c0, rows0, catalog.Model(), database.rows, t)
    }

    /**
     * flush_documents: until no document is queued, a write fails, or the time is up. The documents taken are in the
     * rows and marked, and the others, a batch that failed among them, wait in their order.
     */
    method FlushDocuments(commits: nat -> bool, inTime: nat -> bool, ghost lookups: set<Hash>, ghost jobs: set<Hash>) returns (end: End, ghost rounds: nat)
      requires Sound(catalog.s, State(Idle, lookups, jobs))
      modifies catalog, database
      ensures EndsSo(commits, inTime, rounds, end)
      ensures Stands(old(State(Idle, lookups, jobs)), DocumentSteps(batchSize, |old(catalog.documents).keys|, rounds, end), lookups, jobs)
      ensures Flushed(old(catalog.Model()), old(database.rows), TakenBy(batchSize, |old(catalog.documents).keys|, rounds))
      ensures end.Emptied? ==> TakenBy(batchSize, |old(catalog.documents).keys|, rounds) == |old(catalog.documents).keys|
    {
      hide Sound, Indexed, Flushed, DocumentRounds, TakenBy, EachMarked, Stands, Went;
      ghost var y0, total, size := State(Idle, lookups, jobs), |catalog.documents.keys|, batchSize as nat;
      ghost var c0, rows0 := catalog.Model(), database.rows;
      ghost var steps := [];
      FlushedNone(lookups, jobs);
      StandsFirst(lookups, jobs);
      NoRounds(size, total);
      WentMore(commits, inTime, 0);
      var i := 0;
      while inTime(i)
        invariant Stands(y0, steps, lookups, jobs)
        invariant steps == DocumentRounds(size, total, i) && Went(commits, inTime, i)
        invariant Flushed(c0, rows0, TakenBy(size, total, i))
        decreases |catalog.documents.m|
      {
        OneMoreRound(size, total, i);
        WentMore(commits, inTime, i);
        var taken;
        taken, steps := FlushSome(commits(i), lookups, jobs, y0, steps, c0, rows0, TakenBy(size, total, i));
        if taken == 0 {
          end, rounds := Emptied, i;
          return;
        } else if !commits(i) {
          end, rounds := Broken, i;
          return;
        }
        i := i + 1;
      }
      end, rounds := OutOfTime, i;
      assert steps + [] == steps;
    }

    lemma FlushedNone(lookups: set<Hash>, jobs: set<Hash>)
      requires Sound(catalog.s, State(Idle, lookups, jobs))
      ensures Indexed(catalog.s, catalog.Model()) && Flushed(catalog.Model(), database.rows, 0)
    {
      hide Sound, Indexed, WrittenUpTo, Ordered;
      IndexedSound(catalog.s, State(Idle, lookups, jobs));
      WrittenNone(catalog.Model(), database.rows);
    }

    /**
     * flush_counters: until no counter is queued, a write fails, or the time is up. What waited is written or waits
     * still, and no count is made or lost.
     */
    method FlushCounters(commits: nat -> bool, inTime: nat -> bool, ghost lookups: set<Hash>, ghost jobs: set<Hash>) returns (end: End, ghost rounds: nat)
      requires Sound(catalog.s, State(Idle, lookups, jobs))
      modifies catalog, database
      ensures EndsSo(commits, inTime, rounds, end)
      ensures Stands(old(State(Idle, lookups, jobs)), CounterSteps(batchSize, rounds, end), lookups, jobs)
      ensures end.Emptied? ==> catalog.orphans == [] && catalog.counters.keys == []
      ensures Distinct(old(catalog.orphans)) ==> NoneForgotten(old(catalog.Model()), catalog.Model())
      ensures forall h: Hash, k: Kind :: Counts.Total(State(Idle, lookups, jobs), h, k) == Counts.Total(old(State(Idle, lookups, jobs)), h, k)
    {
      hide Sound, Run, After, Indexed, EntriesOk, Claims, RowsExist, PhaseOk, AllCountersDrained, Enabled, Next, NoneForgotten, CountersMarked, CountersRequeued, CounterRounds, Distinct, Counts.Total;
      var s := catalog.s;
      ghost var y0, c0 := State(Idle, lookups, jobs), catalog.Model();
      ghost var steps := [];
      NoSteps(s, y0);
      NoCounterRounds(batchSize);
      WentMore(commits, inTime, 0);
      AllRemembered(c0);
      var i := 0;
      while inTime(i)
        invariant Stands(y0, steps, lookups, jobs)
        invariant steps == CounterRounds(batchSize, i) && Went(commits, inTime, i)
        invariant Distinct(c0.orphans) ==> NoneForgotten(c0, catalog.Model()) && Distinct(catalog.orphans)
        decreases |catalog.orphans| + |catalog.counters.keys|
      {
        ghost var y := State(Idle, lookups, jobs);
        WentMore(commits, inTime, i);
        SoundParts(s, y);
        DrainStep(s, y, batchSize);
        RunGrows(s, y0, steps, DrainCounters(batchSize));
        DrainCountersSound(s, y, batchSize);
        CountersShrink(s, y.cat, batchSize);
        if Distinct(y.cat.orphans) { WrittenRound(s, y.cat, batchSize); }
        FailedRound(s, y.cat, batchSize);
        var batch := catalog.DrainIndexCounters(batchSize);
        if batch == [] {
          NothingLeft(s, y.cat, batchSize);
          NoneMarked(catalog.Model());
          if Distinct(c0.orphans) { ForgottenNever(c0, y.cat, catalog.Model()); }
          end, rounds := Emptied, i;
          FlushConserves(s, y0, batchSize, i, Emptied, State(Idle, lookups, jobs));
          return;
        }
        ghost var drained := catalog.Model();
        var ok := commits(i);
        ghost var steps1 := WriteCounterBatch(batch, ok, lookups, jobs, y0, steps + [DrainCounters(batchSize)]);
        if Distinct(c0.orphans) { ForgottenNever(c0, y.cat, catalog.Model()); }
        if !ok {
          assert steps1 == CounterRounds(batchSize, i) + [DrainCounters(batchSize), CountersFail];
          end, rounds := Broken, i;
          FlushConserves(s, y0, batchSize, i, Broken, State(Idle, lookups, jobs));
          return;
        }
        OneMoreCounterRound(batchSize, i);
        assert steps1 == steps + [DrainCounters(batchSize), WriteCounters, MarkCounters];
        steps := steps1;
        SameCounters(drained, batch);
        i := i + 1;
      }
      end, rounds := OutOfTime, i;
      assert steps + [] == steps;
      FlushConserves(s, y0, batchSize, i, OutOfTime, State(Idle, lookups, jobs));
    }

    /** One batch of flush_counters: marked, or queued again. Nothing is ever missing, so no base is reset. */
    method WriteCounterBatch(batch: seq<Snapshot>, commits: bool, ghost lookups: set<Hash>, ghost jobs: set<Hash>, ghost y0: System, ghost run: seq<Step>)
      returns (ghost steps: seq<Step>)
      requires Sound(catalog.s, State(CountersOut(batch), lookups, jobs))
      requires Run(catalog.s, y0, run) && After(catalog.s, y0, run) == State(CountersOut(batch), lookups, jobs)
      modifies catalog, database
      ensures Stands(y0, steps, lookups, jobs)
      ensures steps == run + if commits then [WriteCounters, MarkCounters] else [CountersFail]
      ensures commits ==> catalog.Model() == CountersMarked(old(catalog.Model()), batch) && database.rows == CountersWritten(old(database.rows), batch)
      ensures !commits ==> catalog.Model() == CountersRequeued(old(catalog.Model()), batch) && database.rows == old(database.rows)
    {
      hide Sound, Run, After, Indexed, EntriesOk, Claims, RowsExist, CountersWritten, CountersMarked, CountersRequeued, Countable, MissingFrom;
      var s := catalog.s;
      ghost var y := State(CountersOut(batch), lookups, jobs);
      SoundParts(s, y);
      var missing := database.UpdateCounters(batch, commits);
      if !commits {
        RunGrows(s, y0, run, CountersFail);
        steps := run + [CountersFail];
        CountersFailSound(s, y);
        catalog.RequeueIndexCounters(batch);
        return;
      }
      RunGrows(s, y0, run, WriteCounters);
      WriteCountersSound(s, y);
      ghost var y1 := State(CountersToMark(batch, missing), lookups, jobs);
      SoundParts(s, y1);
      RunGrows(s, y0, run + [WriteCounters], MarkCounters);
      steps := run + [WriteCounters] + [MarkCounters];
      assert steps == run + [WriteCounters, MarkCounters];
      MarkCountersSound(s, y1);
      forall x | x in batch ensures x.id < |catalog.heap| { InRange(y1.cat, x); }
      var written := Written(batch, missing);
      if missing != [] {
        // the calls of reset_index_base would be here
        assert false;
      }
      catalog.MarkCountersWritten(written);
    }

    /** The snapshots whose hash is not among the missing. */
    method Written(batch: seq<Snapshot>, missing: seq<Hash>) returns (written: seq<Snapshot>)
      ensures written == NotMissing(batch, missing)
    {
      written := [];
      assert batch[0..] == batch;
      var i := 0;
      while i < |batch|
        invariant 0 <= i <= |batch| && written + NotMissing(batch[i..], missing) == NotMissing(batch, missing)
      {
        assert batch[i..][0] == batch[i] && batch[i..][1..] == batch[i + 1..];
        assert written + ([batch[i]] + NotMissing(batch[i + 1..], missing)) == written + [batch[i]] + NotMissing(batch[i + 1..], missing);
        if batch[i].hash !in missing {
          written := written + [batch[i]];
        }
        i := i + 1;
      }
      assert written + [] == written;
    }

    /** One turn of check_batches: the oldest hashes are checked against the rows, or nothing changes. */
    method CheckSome(size: Positive, answered: bool, ghost lookups: set<Hash>, ghost jobs: set<Hash>, ghost y0: System, ghost run: seq<Step>,
                     ghost c0: Catalog, ghost t: nat)
      returns (taken: nat, ghost steps: seq<Step>)
      requires Stands(y0, run, lookups, jobs) && Ordered(c0.needsCheck)
      requires CheckedUpTo(c0, database.rows, catalog.Model(), t)
      modifies catalog
      ensures Stands(y0, steps, lookups, jobs)
      ensures t <= |c0.needsCheck.keys| && taken == Least(size, |c0.needsCheck.keys| - t)
      ensures steps == run + if taken == 0 then [TakeChecks(size)] else if answered then [TakeChecks(size), ReadChecks, ApplyChecks] else [TakeChecks(size), ChecksFail]
      ensures CheckedUpTo(c0, database.rows, catalog.Model(), t + if answered then taken else 0)
    {
      hide Sound, Run, After, Indexed, EntriesOk, Claims, RowsExist, ChecksApplied, LookedUp, CheckedUpTo, Ordered;
      var s := catalog.s;
      ghost var y := State(Idle, lookups, jobs);
      SoundParts(s, y);
      RunGrows(s, y0, run, TakeChecks(size));
      ChecksSound(s, y, TakeChecks(size));
      RoundChecked(s, c0, database.rows, y.cat, t, size);
      steps := run + [TakeChecks(size)];
      var hashes := catalog.PendingDatabaseChecks(size);
      taken := |hashes|;
      if hashes == [] {
        return;
      }
      ghost var y1 := State(ChecksOut(hashes), lookups, jobs);
      if !answered {
        RunGrows(s, y0, steps, ChecksFail);
        assert steps + [ChecksFail] == run + [TakeChecks(size), ChecksFail];
        ChecksSound(s, y1, ChecksFail);
        steps := steps + [ChecksFail];
        return;
      }
      CheckTurn(y0, y1, s, steps, hashes, lookups, jobs);
      assert steps + [ReadChecks, ApplyChecks] == run + [TakeChecks(size), ReadChecks, ApplyChecks];
      steps := steps + [ReadChecks, ApplyChecks];
    }

    /**
     * check_batches: at most so many batches, until no hash is left to check or a read fails. The hashes taken are
     * checked against the rows and wait no longer; the others wait in their order.
     */
    method CheckBatches(batches: nat, size: Positive, answers: nat -> bool, ghost lookups: set<Hash>, ghost jobs: set<Hash>) returns (end: End, ghost rounds: nat)
      requires Sound(catalog.s, State(Idle, lookups, jobs))
      modifies catalog
      ensures EndsSo(answers, i => i < batches, rounds, end)
      ensures Stands(old(State(Idle, lookups, jobs)), CheckSteps(size, rounds, end), lookups, jobs)
      ensures CheckedUpTo(old(catalog.Model()), database.rows, catalog.Model(), TakenBy(size, |old(catalog.needsCheck).keys|, rounds))
      ensures end.Emptied? ==> TakenBy(size, |old(catalog.needsCheck).keys|, rounds) == |old(catalog.needsCheck).keys|
    {
      hide Sound, Run, After, Indexed, CheckedUpTo, CheckRounds, TakenBy, Stands;
      var s := catalog.s;
      ghost var y0, total := State(Idle, lookups, jobs), |catalog.needsCheck.keys|;
      ghost var c0 := catalog.Model();
      ghost var steps := [];
      IndexedSound(catalog.s, y0);
      StandsFirst(lookups, jobs);
      NoCheckRounds(size, total);
      WentMore(answers, i => i < batches, 0);
      CheckedAtFirst(c0, database.rows);
      var i := 0;
      while i < batches
        invariant i <= batches && Stands(y0, steps, lookups, jobs)
        invariant steps == CheckRounds(size, i) && Went(answers, i => i < batches, i)
        invariant CheckedUpTo(c0, database.rows, catalog.Model(), TakenBy(size, total, i))
      {
        OneMoreCheckRound(size, total, i);
        WentMore(answers, i => i < batches, i);
        var taken;
        taken, steps := CheckSome(size, answers(i), lookups, jobs, y0, steps, c0, TakenBy(size, total, i));
        if taken == 0 {
          end, rounds := Emptied, i;
          return;
        } else if !answers(i) {
          end, rounds := Broken, i;
          return;
        }
        i := i + 1;
      }
      end, rounds := OutOfTime, i;
      assert steps + [] == steps;
    }

    /** The hashes of one batch are looked up, and the answers applied. */
    method CheckTurn(ghost y0: System, ghost y1: System, ghost s: Settings, ghost run: seq<Step>, hashes: seq<Hash>, ghost lookups: set<Hash>, ghost jobs: set<Hash>)
      requires s == catalog.s && y1 == State(ChecksOut(hashes), lookups, jobs) && Sound(s, y1) && Run(s, y0, run) && After(s, y0, run) == y1
      modifies catalog
      ensures Sound(s, State(Idle, lookups, jobs))
      ensures Run(s, y0, run + [ReadChecks, ApplyChecks]) && After(s, y0, run + [ReadChecks, ApplyChecks]) == State(Idle, lookups, jobs)
      ensures catalog.Model() == ChecksApplied(s, old(catalog.Model()), hashes, LookedUp(database.rows, hashes))
    {
      hide Sound, Run, After, Indexed, EntriesOk, Claims, RowsExist, ChecksApplied, LookedUp;
      RunGrows(s, y0, run, ReadChecks);
      ChecksSound(s, y1, ReadChecks);
      var found := database.LookupCounters(hashes);
      ghost var y2 := State(ChecksRead(hashes, found), lookups, jobs);
      SoundParts(s, y2);
      RunGrows(s, y0, run + [ReadChecks], ApplyChecks);
      assert run + [ReadChecks] + [ApplyChecks] == run + [ReadChecks, ApplyChecks];
      ApplyChecksSound(s, y2);
      catalog.ApplyDatabaseChecks(hashes, found);
    }
  }

  /** The runtime's set-up: beside whatever the database holds, an empty catalog that tracks and checks. */
  method SetUp(s: Settings, database: TorrentDatabase, batchSize: Positive, maxPending: nat) returns (indexer: SearchIndexer)
    ensures indexer.database == database && indexer.batchSize == batchSize && indexer.catalog.s == s
    ensures Start(indexer.State(Idle, {}, {})) && indexer.State(Idle, {}, {}).rows == database.rows
  {
    hide Indexed;
    var catalog := new TorrentCatalog.TorrentCatalog(s);
    catalog.EnableIndexTracking(maxPending, true);
    indexer := new SearchIndexer(catalog, database, batchSize);
    assert indexer.State(Idle, {}, {}).cat == TrackingEnabled(Blank(), maxPending, true);
  }

  // ----- the rounds of the loops

  lemma NoRounds(size: nat, total: nat)
    ensures DocumentRounds(size, total, 0) == [] && TakenBy(size, total, 0) == 0
  {
  }

  lemma OneMoreRound(size: nat, total: nat, i: nat)
    ensures var n := Least(size, total - TakenBy(size, total, i));
            TakenBy(size, total, i + 1) == TakenBy(size, total, i) + n &&
            DocumentRounds(size, total, i + 1) == DocumentRounds(size, total, i) + ([DrainDocuments(size), WriteDocuments] + EachMarked(n))
  {
  }

  lemma NoCounterRounds(size: nat)
    ensures CounterRounds(size, 0) == []
  {
  }

  lemma OneMoreCounterRound(size: nat, i: nat)
    ensures CounterRounds(size, i + 1) == CounterRounds(size, i) + [DrainCounters(size), WriteCounters, MarkCounters]
  {
  }

  lemma NoCheckRounds(size: nat, total: nat)
    ensures CheckRounds(size, 0) == [] && TakenBy(size, total, 0) == 0
  {
  }

  lemma OneMoreCheckRound(size: nat, total: nat, i: nat)
    ensures CheckRounds(size, i + 1) == CheckRounds(size, i) + [TakeChecks(size), ReadChecks, ApplyChecks]
    ensures TakenBy(size, total, i + 1) == TakenBy(size, total, i) + Least(size, total - TakenBy(size, total, i))
  {
  }

  lemma IndexedSound(s: Settings, y: System)
    requires Sound(s, y)
    ensures Indexed(s, y.cat) && Ordered(y.cat.documents) && Ordered(y.cat.needsCheck)
  {
    hide Sound, Indexed, Ordered;
    SoundParts(s, y);
    QueuesOf(s, y.cat);
    ChecksOrdered(s, y.cat);
  }

  lemma MarkedDocuments(c: Catalog, c': Catalog, batch: seq<Snapshot>)
    requires BatchMarked(c, c', batch)
    ensures c'.documents == c.documents
  {
    hide InRow, At;
  }

  lemma ChecksOrdered(s: Settings, c: Catalog)
    requires Indexed(s, c)
    ensures Ordered(c.needsCheck)
  {
    hide Ordered, Exact, Counted, Queued, Placed;
  }

  lemma AllRemembered(c: Catalog)
    ensures NoneForgotten(c, c)
  {
    hide Waits, HasNews, At;
  }

  lemma NoneMarked(c: Catalog)
    ensures CountersMarked(c, []) == c
  {
  }

  lemma DrainedMarkable(s: Settings, c: Catalog, limit: nat)
    requires Indexed(s, c)
    ensures var (c1, batch) := DocumentsDrained(c, limit); DistinctIds(batch) && forall x :: x in batch ==> Markable(c1, x)
  {
    hide Indexed, DocumentsDrained, CountsFit, DocumentOf, HasId, At, DistinctIds;
    DocumentsDrainedBatch(s, c, limit);
  }

  lemma DrainedNothing(s: Settings, c: Catalog, limit: nat)
    requires Indexed(s, c) && DocumentsDrained(c, limit).1 == []
    ensures DocumentsDrained(c, limit).0 == c
  {
    hide Indexed, OrphanAt, DocumentOf, Ordered, From;
    QueuesOf(s, c);
    FromOrdered(c.documents, 0);
  }

  /** How many documents are left, and how many the next drain takes. */
  lemma LeftOver(c0: Catalog, rows0: Rows, c: Catalog, rows: Rows, t: nat, limit: nat)
    requires WrittenUpTo(c0, rows0, c, rows, t)
    ensures |c.documents.keys| == |c0.documents.keys| - t && |DocumentsDrained(c, limit).1| == Least(limit, |c.documents.keys|)
  {
    hide InRow, At, QueuedId, DocumentsWritten;
  }

  /** A drain that takes nothing leaves nothing to take. */
  lemma NothingLeft(s: Settings, c: Catalog, limit: nat)
    requires Indexed(s, c) && limit >= 1 && AllCountersDrained(s, c, limit).1 == []
    ensures AllCountersDrained(s, c, limit).0.orphans == [] && AllCountersDrained(s, c, limit).0.counters.keys == []
  {
    hide Indexed, OrphansDrained, CountersDrained;
    OrphansDrainedIndexed(s, c, limit);
    var (c1, first) := OrphansDrained(c, limit);
    assert first == [];
    NoOrphanLeft(c, limit);
    CountersDrainedShrink(s, c1, limit, |c1.counters.keys|);
    NoCounterLeft(s, c1, limit, |c1.counters.keys|);
  }

  lemma {:induction false} NoOrphanLeft(c: Catalog, limit: nat)
    requires limit >= 1 && OrphansDrained(c, limit).1 == []
    ensures OrphansDrained(c, limit).0.orphans == []
    decreases |c.orphans|
  {
    hide At, SnapshotOf, Empty?;
    if c.orphans != [] { NoOrphanLeft(c.(orphans := c.orphans[1..]), limit); }
  }

  lemma {:induction false} NoCounterLeft(s: Settings, c: Catalog, limit: nat, turns: nat)
    requires Indexed(s, c) && limit >= 1 && turns >= |c.counters.keys| && CountersDrained(s, c, limit, turns).1 == []
    ensures CountersDrained(s, c, limit, turns).0.counters.keys == []
    decreases turns
  {
    hide Indexed, At, SnapshotOf, HasNews, QueueDocument, Ordered, PopFirst, Overflowed, OnlyOverflow, QueuesOne;
    if turns > 0 && c.counters.keys != [] {
      QueuesOf(s, c);
      FirstIn(c.counters);
      var h := c.counters.keys[0];
      CounterPlace(s, c, h);
      var id := c.counters.m[h];
      FewerCounters(s, c, PopFirst(c.counters));
      TorrentCatalog.PoppedKeys(c.counters);
      var c1 := c.(counters := PopFirst(c.counters));
      CatalogMethods.SameHeap(c, c1);
      if At(c, id).base.None? && At(c, id).meta.Some? {
        QueueDocumentIndexed(s, c1, id);
        TorrentCatalog.QueueKeys(s, c1, id);
        NoCounterLeft(s, QueueDocument(s, c1, id), limit, turns - 1);
      } else {
        NoCounterLeft(s, c1, limit, turns - 1);
      }
    }
  }

  lemma DrainStep(s: Settings, y: System, limit: nat)
    requires y.phase == Idle
    ensures Enabled(s, y, DrainCounters(limit))
    ensures var (c, batch) := AllCountersDrained(s, y.cat, limit); Next(s, y, DrainCounters(limit)) == y.(cat := c, phase := if batch == [] then Idle else CountersOut(batch))
  {
    hide AllCountersDrained;
  }

  lemma MarkReady(s: Settings, y: System, x: Snapshot, base: Base)
    requires Sound(s, y) && y.phase.DocumentsToMark? && y.phase.batch != [] && x == y.phase.batch[0]
    ensures x.id < |y.cat.heap| && y.cat.heap[x.id].hash == x.hash && Indexed(s, y.cat)
    ensures Live(y.cat, x.id) && y.cat.heap[x.id].meta == x.meta ==> y.cat.heap[x.id].state == Done
    ensures Indexed(s, DocumentMarked(y.cat, x, base)) && forall h :: h in DocumentMarked(y.cat, x, base).documents.m ==> h in y.cat.documents.m
  {
    hide Indexed, EntriesOk, Claims, RowsExist, DocumentMarked, MarkedEntry;
    assert x in y.phase.batch;
    OutHere(y.cat, x);
    DocumentMarkedIndexed(s, y.cat, x, base);
  }

  lemma DrainShrinks(s: Settings, c: Catalog, limit: nat)
    requires Indexed(s, c) && limit > 0
    ensures var (c', batch) := DocumentsDrained(c, limit);
            (batch == [] ==> c'.documents.keys == []) && (batch != [] ==> |c'.documents.m| < |c.documents.m|)
  {
    hide Indexed, OrphanAt, DocumentOf, Ordered;
    QueuesOf(s, c);
    var n := Least(limit, |c.documents.keys|);
    FromOrdered(c.documents, n);
    OrderedSize(c.documents);
  }

  /** Whatever is drained has left a queue. */
  lemma CountersShrink(s: Settings, c: Catalog, limit: nat)
    requires Indexed(s, c)
    ensures var (c', batch) := AllCountersDrained(s, c, limit); |c'.orphans| + |c'.counters.keys| + |batch| <= |c.orphans| + |c.counters.keys|
  {
    hide Indexed, OrphansDrained, CountersDrained;
    OrphansDrainedIndexed(s, c, limit);
    OrphansShrink(c, limit);
    var (c1, first) := OrphansDrained(c, limit);
    CountersDrainedShrink(s, c1, limit - |first|, |c1.counters.keys|);
  }

  lemma {:induction false} CountersDrainedShrink(s: Settings, c: Catalog, limit: nat, turns: nat)
    requires Indexed(s, c)
    ensures var (c', batch) := CountersDrained(s, c, limit, turns); |c'.counters.keys| + |batch| <= |c.counters.keys| && c'.orphans == c.orphans
    decreases turns
  {
    hide Indexed, At, SnapshotOf, HasNews, QueueDocument, Ordered, PopFirst, Overflowed, OnlyOverflow, QueuesOne;
    if turns > 0 && c.counters.keys != [] && limit > 0 {
      QueuesOf(s, c);
      FirstIn(c.counters);
      var h := c.counters.keys[0];
      CounterPlace(s, c, h);
      var id := c.counters.m[h];
      FewerCounters(s, c, PopFirst(c.counters));
      TorrentCatalog.PoppedKeys(c.counters);
      var c1 := c.(counters := PopFirst(c.counters));
      CatalogMethods.SameHeap(c, c1);
      if At(c, id).base.None? {
        if At(c, id).meta.Some? {
          QueueDocumentIndexed(s, c1, id);
          QueuesOf(s, c1);
          TorrentCatalog.QueueKeys(s, c1, id);
          SameOrphans(c1, QueueDocument(s, c1, id));
          CountersDrainedShrink(s, QueueDocument(s, c1, id), limit, turns - 1);
        } else {
          CountersDrainedShrink(s, c1, limit, turns - 1);
        }
      } else {
        CountersDrainedShrink(s, c1, limit - 1, turns - 1);
        CountersDrainedShrink(s, c1, limit, turns - 1);
      }
    }
  }
}
