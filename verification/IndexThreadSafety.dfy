/** What every step of every thread keeps: exact tables, sound entries, claims that match the work, rows behind every base. */
module IndexThreadSafety {
  import opened ByteStrings
  import opened BoundedRecentMap
  import opened NodeIdentity
  import opened CatalogSpec
  import opened CatalogIndexes
  import opened CatalogMethods
  import opened CatalogFlushing
  import opened CatalogEviction
  import opened CatalogEntries
  import opened IndexThread

  // ----- the invariant

  ghost predicate EntriesOk(s: Settings, c: Catalog) {
    forall id: Id :: Live(c, id) ==> EntryOk(s, At(c, id))
  }

  predicate ClaimsAt(y: System, h: Hash) {
    (h in y.lookups <==> h in y.cat.entries.m && At(y.cat, y.cat.entries.m[h]).looking) &&
    (h in y.jobs <==> h in y.cat.entries.m && At(y.cat, y.cat.entries.m[h]).state == InProgress)
  }

  /** The entries marked as looked up or fetched are exactly those whose lookup or fetch is claimed or running. */
  ghost predicate Claims(y: System) {
    forall h :: ClaimsAt(y, h)
  }

  predicate QueuedIn(c: Catalog, id: Id) {
    At(c, id).hash in c.documents.m && c.documents.m[At(c, id).hash] == id
  }

  /** A document on its way to the database: its entry, when still in memory, waits for it to be marked. */
  predicate DocumentOutOk(c: Catalog, x: Snapshot) {
    DocumentOf(c, x.hash, x.id) && !QueuedIn(c, x.id) && x.meta.Some? &&
    (Live(c, x.id) ==> At(c, x.id).state == Done && At(c, x.id).meta == x.meta && x.hash !in c.documents.m)
  }

  ghost predicate DistinctHashes(batch: seq<Snapshot>) {
    forall i, j :: 0 <= i < j < |batch| ==> batch[i].hash != batch[j].hash
  }

  ghost predicate PhaseOk(c: Catalog, rows: Rows, phase: Phase) {
    match phase
    case Idle => true
    case DocumentsOut(batch) => DistinctHashes(batch) && forall x :: x in batch ==> DocumentOutOk(c, x)
    case DocumentsToMark(batch, bases) =>
      batch != [] && |bases| == |batch| && DistinctHashes(batch) && forall x :: x in batch ==> DocumentOutOk(c, x) && x.hash in rows
    case CountersOut(batch) => forall x :: x in batch ==> Countable(c, x)
    case CountersToMark(batch, missing) => missing == [] && forall x :: x in batch ==> Countable(c, x)
    case ToReset(missing) => false
    case ChecksOut(hashes) => true
    case ChecksRead(hashes, found) => forall h :: h in found ==> h in rows && found[h] == BaseOf(rows[h])
  }

  predicate RowBehind(rows: Rows, e: Entry) {
    e.base.Some? ==> e.hash in rows
  }

  /** Every entry that was ever written, in memory or not, has its row. */
  ghost predicate RowsExist(c: Catalog, rows: Rows) {
    forall id: Id :: id < |c.heap| ==> RowBehind(rows, At(c, id))
  }

  ghost predicate Sound(s: Settings, y: System) {
    Indexed(s, y.cat) && EntriesOk(s, y.cat) && Claims(y) && PhaseOk(y.cat, y.rows, y.phase) && RowsExist(y.cat, y.rows)
  }

  // ----- what the crawler and the fetch engine do to entries

  /** Neither thread touches what is flushed, and a finished entry stays finished unless its document is dropped. */
  predicate CrawlEntry(queued: bool, e: Entry, e': Entry) {
    e'.hash == e.hash && e'.base == e.base && e'.flushedSeen == e.flushedSeen && e'.flushedAnnounced == e.flushedAnnounced &&
    e'.seen >= e.seen && e'.announced >= e.announced && e.failed <= e'.failed &&
    e'.attempts >= e.attempts && e'.lookups >= e.lookups &&
    (!queued && e.meta.Some? ==> e'.meta == e.meta && (e.state == Done ==> e'.state == Done))
  }

  predicate SameSeen(e: Entry, e': Entry) {
    e'.seen == e.seen && e'.announced == e.announced
  }

  predicate FreshEntry(e: Entry) {
    e.base.None? && e.flushedSeen == 0 && e.flushedAnnounced == 0
  }

  predicate CrawlAt(c: Catalog, c': Catalog, id: Id) {
    if id < |c.heap| then CrawlEntry(QueuedIn(c, id), At(c, id), At(c', id)) && (Live(c', id) ==> Live(c, id))
    else id < |c'.heap| ==> FreshEntry(At(c', id))
  }

  /** A document queued by the step belongs to an entry that had no metadata before it. */
  predicate NewlyQueued(c: Catalog, c': Catalog, id: Id) {
    QueuedIn(c', id) ==> QueuedIn(c, id) || id >= |c.heap| || At(c, id).meta.None?
  }

  /** While an entry with metadata stays in memory, nothing else is queued under its hash. */
  predicate HashKept(c: Catalog, c': Catalog, id: Id) {
    id < |c.heap| && Live(c', id) && At(c, id).meta.Some? && !QueuedIn(c, id) && At(c, id).hash in c'.documents.m ==> At(c, id).hash in c.documents.m
  }

  ghost predicate Crawl(c: Catalog, c': Catalog) {
    |c.heap| <= |c'.heap| && forall id: Id :: CrawlAt(c, c', id) && NewlyQueued(c, c', id) && HashKept(c, c', id)
  }

  /** The step records nothing. */
  predicate StillAt(c: Catalog, c': Catalog, id: Id) {
    if id < |c.heap| then SameSeen(At(c, id), At(c', id))
    else id < |c'.heap| ==> At(c', id).seen == 0 && At(c', id).announced == 0
  }

  ghost predicate Still(c: Catalog, c': Catalog) {
    forall id: Id :: StillAt(c, c', id)
  }

  lemma CrawlTwice(c: Catalog, c1: Catalog, c2: Catalog)
    requires Crawl(c, c1) && Crawl(c1, c2)
    ensures Crawl(c, c2)
  {
    hide At, QueuedIn, Live;
    forall id: Id ensures CrawlAt(c, c2, id) && NewlyQueued(c, c2, id) && HashKept(c, c2, id) {
      assert CrawlAt(c, c1, id) && NewlyQueued(c, c1, id) && HashKept(c, c1, id);
      assert CrawlAt(c1, c2, id) && NewlyQueued(c1, c2, id) && HashKept(c1, c2, id);
    }
  }

  lemma CrawlBecame(c: Catalog, c': Catalog, id: Id, e: Entry)
    requires Became(c, c', id, e) && CrawlEntry(false, At(c, id), e)
    ensures Crawl(c, c') && (SameSeen(At(c, id), e) ==> Still(c, c')) && c'.orphans == c.orphans
  {
    BecameLive(c, c', id, e);
    hide At, Live;
  }

  lemma CrawlSteady(c: Catalog, c': Catalog)
    requires Steady(c, c') && forall j: Id :: CrawlEntry(false, At(c, j), At(c', j)) && SameSeen(At(c, j), At(c', j))
    ensures Crawl(c, c') && Still(c, c')
  {
    forall j: Id ensures Live(c', j) <==> Live(c, j) { assert CrawlEntry(false, At(c, j), At(c', j)); SteadyLive(c, c', j); }
    hide At, Live;
    forall j: Id ensures CrawlAt(c, c', j) && NewlyQueued(c, c', j) && HashKept(c, c', j) { assert CrawlEntry(false, At(c, j), At(c', j)); }
  }

  lemma CrawlCreated(s: Settings, c: Catalog, h: Hash, now: real)
    requires Indexed(s, c)
    ensures Crawl(c, GotOrCreated(c, h, now).0) && Still(c, GotOrCreated(c, h, now).0)
  {
    hide Indexed;
    if h in c.entries.m {
      CrawlSame(c);
    } else {
      CreatedFields(c, h, now);
      var c1 := GotOrCreated(c, h, now).0;
      hide GotOrCreated, At;
      forall j: Id | j < |c.heap| ensures Live(c1, j) ==> Live(c, j) { }
      assert FreshEntry(At(c1, |c.heap|));
    }
  }

  lemma CrawlSame(c: Catalog)
    ensures Crawl(c, c) && Still(c, c)
  {
  }

  lemma CrawlGone(c: Catalog, c': Catalog, victims: seq<Id>)
    requires Gone(c, c', victims)
    ensures Crawl(c, c') && Still(c, c')
  {
    hide At, Live;
  }

  // ----- a crawl step keeps the index thread's business in order

  lemma PhaseAfterCrawl(c: Catalog, c': Catalog, rows: Rows, phase: Phase)
    requires Crawl(c, c') && PhaseOk(c, rows, phase)
    ensures PhaseOk(c', rows, phase)
  {
    hide At, QueuedIn, Live, DistinctHashes;
    match phase
    case DocumentsOut(batch) => forall x | x in batch ensures DocumentOutOk(c', x) { DocumentAfterCrawl(c, c', x); }
    case DocumentsToMark(batch, bases) => forall x | x in batch ensures DocumentOutOk(c', x) { DocumentAfterCrawl(c, c', x); }
    case CountersOut(batch) => forall x | x in batch ensures Countable(c', x) { assert CrawlAt(c, c', x.id); }
    case CountersToMark(batch, missing) => forall x | x in batch ensures Countable(c', x) { assert CrawlAt(c, c', x.id); }
    case _ =>
  }

  lemma DocumentAfterCrawl(c: Catalog, c': Catalog, x: Snapshot)
    requires Crawl(c, c') && DocumentOutOk(c, x)
    ensures DocumentOutOk(c', x)
  {
    hide At, QueuedIn, Live;
    assert CrawlAt(c, c', x.id) && NewlyQueued(c, c', x.id) && HashKept(c, c', x.id);
  }

  lemma RowsAfterCrawl(c: Catalog, c': Catalog, rows: Rows)
    requires Crawl(c, c') && RowsExist(c, rows)
    ensures RowsExist(c', rows)
  {
    hide At, QueuedIn, Live;
    forall id: Id | id < |c'.heap| ensures RowBehind(rows, At(c', id)) {
      assert CrawlAt(c, c', id);
      if id < |c.heap| { assert RowBehind(rows, At(c, id)); }
    }
  }

  lemma CrawlSound(s: Settings, y: System, y': System)
    requires Sound(s, y) && y'.rows == y.rows && y'.phase == y.phase && Crawl(y.cat, y'.cat)
    requires Indexed(s, y'.cat) && EntriesOk(s, y'.cat) && Claims(y')
    ensures Sound(s, y')
  {
    hide Indexed, EntriesOk, Claims, Crawl, PhaseOk, RowsExist;
    PhaseAfterCrawl(y.cat, y'.cat, y.rows, y.phase);
    RowsAfterCrawl(y.cat, y'.cat, y.rows);
  }

  // ----- one entry at a time

  lemma EntriesBecame(s: Settings, c: Catalog, c': Catalog, id: Id, e: Entry)
    requires EntriesOk(s, c) && Became(c, c', id, e) && e.hash == At(c, id).hash && EntryOk(s, e)
    ensures EntriesOk(s, c')
  {
    BecameLive(c, c', id, e);
    hide At, Live, EntryOk;
  }

  lemma ClaimsBecame(y: System, y': System, id: Id, e: Entry)
    requires Placed(y.cat) && Claims(y) && Live(y.cat, id) && Became(y.cat, y'.cat, id, e) && e.hash == At(y.cat, id).hash
    requires forall h :: h != e.hash ==> (h in y'.lookups <==> h in y.lookups) && (h in y'.jobs <==> h in y.jobs)
    requires (e.hash in y'.lookups <==> e.looking) && (e.hash in y'.jobs <==> e.state == InProgress)
    ensures Claims(y')
  {
    hide At, Ordered;
    forall h ensures ClaimsAt(y', h) {
      assert ClaimsAt(y, h);
    }
  }

  /** A step of the crawler or the fetch engine on one entry. */
  lemma OneEntryStep(s: Settings, y: System, y': System, id: Id, e: Entry)
    requires Sound(s, y) && y'.rows == y.rows && y'.phase == y.phase && Indexed(s, y'.cat) && Live(y.cat, id) && Became(y.cat, y'.cat, id, e)
    requires EntryOk(s, e) && CrawlEntry(false, At(y.cat, id), e) && SameSeen(At(y.cat, id), e)
    requires forall h :: h != e.hash ==> (h in y'.lookups <==> h in y.lookups) && (h in y'.jobs <==> h in y.jobs)
    requires (e.hash in y'.lookups <==> e.looking) && (e.hash in y'.jobs <==> e.state == InProgress)
    ensures Sound(s, y') && Crawl(y.cat, y'.cat) && Still(y.cat, y'.cat) && y'.cat.orphans == y.cat.orphans
  {
    hide Sound, Became, Crawl, Still, EntriesOk, EntryOk, Live, Still;
    SoundParts(s, y);
    EntriesBecame(s, y.cat, y'.cat, id, e);
    ClaimsBecame(y, y', id, e);
    CrawlBecame(y.cat, y'.cat, id, e);
    CrawlSound(s, y, y');
  }

  lemma SoundParts(s: Settings, y: System)
    requires Sound(s, y)
    ensures Indexed(s, y.cat) && Placed(y.cat) && EntriesOk(s, y.cat) && Claims(y) && PhaseOk(y.cat, y.rows, y.phase) && RowsExist(y.cat, y.rows)
  {
    hide EntriesOk, Claims, PhaseOk, RowsExist, Exact, Counted, Queued, Placed, InOrder;
  }

  /** The entry of a hash, when there is one. */
  lemma EntryAt(s: Settings, y: System, h: Hash)
    requires Sound(s, y) && h in y.cat.entries.m
    ensures var id := y.cat.entries.m[h];
            Live(y.cat, id) && id < |y.cat.heap| && At(y.cat, id).hash == h && EntryOk(s, At(y.cat, id)) && ClaimsAt(y, h)
  {
    hide PhaseOk, RowsExist, EntryOk, Indexed;
    LiveHere(s, y.cat, h);
    assert ClaimsAt(y, h);
  }

  lemma StreamPeersSound(s: Settings, y: System, h: Hash, peers: seq<Peer>)
    requires Sound(s, y)
    ensures Sound(s, Next(s, y, StreamPeers(h, peers))) && Crawl(y.cat, Next(s, y, StreamPeers(h, peers)).cat) && Still(y.cat, Next(s, y, StreamPeers(h, peers)).cat)
    ensures Next(s, y, StreamPeers(h, peers)).cat.orphans == y.cat.orphans
  {
    hide Sound, PeersAdded, AddPeers, Became, EntryOk, Live, Indexed, Crawl, Still, At;
    SoundParts(s, y);
    PeersAddedIndexed(s, y.cat, h, peers);
    var y' := Next(s, y, StreamPeers(h, peers));
    if h in y.cat.entries.m {
      EntryAt(s, y, h);
      var id := y.cat.entries.m[h];
      AddPeersOk(s, At(y.cat, id), peers);
      AddPeersOnly(s, At(y.cat, id), peers);
      OneEntryStep(s, y, y', id, AddPeers(s, At(y.cat, id), peers));
    } else {
      assert y' == y;
      CrawlSame(y.cat);
    }
  }

  lemma ReleaseLookupSound(s: Settings, y: System, h: Hash)
    requires Sound(s, y) && Enabled(s, y, ReleaseLookup(h))
    ensures Sound(s, Next(s, y, ReleaseLookup(h))) && Crawl(y.cat, Next(s, y, ReleaseLookup(h)).cat) && Still(y.cat, Next(s, y, ReleaseLookup(h)).cat)
    ensures Next(s, y, ReleaseLookup(h)).cat.orphans == y.cat.orphans
  {
    hide Sound, LookupReleased, Became, EntryOk, Live, Indexed, Crawl, Still, At;
    SoundParts(s, y);
    LookupReleasedIndexed(s, y.cat, h);
    ClaimedLookup(s, y, h);
    var id := y.cat.entries.m[h];
    LookupReleasedOk(s, At(y.cat, id));
    OneEntryStep(s, y, Next(s, y, ReleaseLookup(h)), id, At(y.cat, id).(looking := false));
  }

  lemma ClaimedLookup(s: Settings, y: System, h: Hash)
    requires Sound(s, y) && h in y.lookups
    ensures h in y.cat.entries.m && var id := y.cat.entries.m[h];
            Live(y.cat, id) && At(y.cat, id).hash == h && EntryOk(s, At(y.cat, id)) && At(y.cat, id).looking && ClaimsAt(y, h)
  {
    hide Sound, EntryOk, Live;
    SoundParts(s, y);
    assert ClaimsAt(y, h);
    EntryAt(s, y, h);
  }

  lemma ClaimedJob(s: Settings, y: System, h: Hash)
    requires Sound(s, y) && h in y.jobs
    ensures h in y.cat.entries.m && var id := y.cat.entries.m[h];
            Live(y.cat, id) && At(y.cat, id).hash == h && id < |y.cat.heap| && EntryOk(s, At(y.cat, id)) && At(y.cat, id).state == InProgress && ClaimsAt(y, h)
  {
    hide Sound, EntryOk, Live;
    SoundParts(s, y);
    assert ClaimsAt(y, h);
    EntryAt(s, y, h);
  }

  lemma FinishLookupSound(s: Settings, y: System, h: Hash, peers: seq<Peer>, now: real)
    requires Sound(s, y) && Enabled(s, y, FinishLookup(h, peers, now))
    ensures Sound(s, Next(s, y, FinishLookup(h, peers, now))) && Crawl(y.cat, Next(s, y, FinishLookup(h, peers, now)).cat) && Still(y.cat, Next(s, y, FinishLookup(h, peers, now)).cat)
    ensures Next(s, y, FinishLookup(h, peers, now)).cat.orphans == y.cat.orphans
  {
    hide Sound, LookupFinished, Became, EntryOk, Live, Indexed, Crawl, Still, At, AddPeers;
    SoundParts(s, y);
    LookupFinishedIndexed(s, y.cat, h, peers, now);
    ClaimedLookup(s, y, h);
    var id := y.cat.entries.m[h];
    AfterLookupOk(s, At(y.cat, id), peers, now);
    AfterLookupKeeps(s, At(y.cat, id), peers, now);
    AddPeersOnly(s, At(y.cat, id).(looking := false, lookups := At(y.cat, id).lookups + 1), peers);
    OneEntryStep(s, y, Next(s, y, FinishLookup(h, peers, now)), id, AfterLookup(s, At(y.cat, id), peers, now));
  }

  lemma FailFetchSound(s: Settings, y: System, h: Hash, tried: seq<Peer>, reason: string, now: real)
    requires Sound(s, y) && Enabled(s, y, FailFetch(h, tried, reason, now))
    ensures Sound(s, Next(s, y, FailFetch(h, tried, reason, now))) && Crawl(y.cat, Next(s, y, FailFetch(h, tried, reason, now)).cat) && Still(y.cat, Next(s, y, FailFetch(h, tried, reason, now)).cat)
    ensures Next(s, y, FailFetch(h, tried, reason, now)).cat.orphans == y.cat.orphans
  {
    hide Sound, FetchFailed, Became, EntryOk, Live, Indexed, Crawl, Still, At, ForgetPeers;
    SoundParts(s, y);
    FetchFailedIndexed(s, y.cat, h, tried, reason, now);
    ClaimedJob(s, y, h);
    var id := y.cat.entries.m[h];
    AfterFailureOk(s, At(y.cat, id), tried, reason, now);
    AfterFailureKeeps(s, At(y.cat, id), tried, reason, now);
    JobHasNoMetadata(s, At(y.cat, id));
    BlameGrows(s, At(y.cat, id), tried, reason, now);
    OneEntryStep(s, y, Next(s, y, FailFetch(h, tried, reason, now)), id, AfterFailure(s, At(y.cat, id), tried, reason, now));
  }

  lemma BlameGrows(s: Settings, e: Entry, tried: seq<Peer>, reason: string, now: real)
    requires EntryOk(s, e)
    ensures var e' := AfterFailure(s, e, tried, reason, now); forall p :: p in e'.failed <==> p in e.failed || p in tried
  {
    hide ForgetPeers;
    ForgetPeersOk(s, e, tried);
  }

  lemma JobHasNoMetadata(s: Settings, e: Entry)
    requires EntryOk(s, e) && e.state == InProgress
    ensures e.meta.None?
  {
  }

  lemma ReleaseFetchSound(s: Settings, y: System, h: Hash)
    requires Sound(s, y) && Enabled(s, y, ReleaseFetch(h))
    ensures Sound(s, Next(s, y, ReleaseFetch(h))) && Crawl(y.cat, Next(s, y, ReleaseFetch(h)).cat) && Still(y.cat, Next(s, y, ReleaseFetch(h)).cat)
    ensures Next(s, y, ReleaseFetch(h)).cat.orphans == y.cat.orphans
  {
    hide Sound, FetchReleased, Became, EntryOk, Live, Indexed, Crawl, Still, At;
    SoundParts(s, y);
    FetchReleasedIndexed(s, y.cat, h);
    ClaimedJob(s, y, h);
    var id := y.cat.entries.m[h];
    FetchReleasedOk(s, At(y.cat, id));
    JobHasNoMetadata(s, At(y.cat, id));
    OneEntryStep(s, y, Next(s, y, ReleaseFetch(h)), id, At(y.cat, id).(state := Pending));
  }

  // ----- claims of many entries

  lemma {:induction false} DueIn(c: Catalog, keys: seq<Hash>, limit: nat, now: real)
    ensures forall h :: h in NewestDue(c, keys, limit, now) ==> h in c.needsLookup.m
    decreases |keys|
  {
    hide At;
    if keys != [] && limit > 0 {
      DueIn(c, keys[..|keys| - 1], limit - 1, now);
      DueIn(c, keys[..|keys| - 1], limit, now);
    }
  }

  lemma NeedsLookupHere(s: Settings, c: Catalog, h: Hash)
    requires Indexed(s, c) && h in c.needsLookup.m
    ensures h in c.entries.m && NeedsLookup(s, At(c, c.entries.m[h]))
  {
    hide AwaitsCheck, Fetchable, NeedsLookup, Counted, Queued, Placed;
    assert ExactAt(s, c, h);
  }

  lemma ClaimLookupsSound(s: Settings, y: System, limit: nat, now: real)
    requires Sound(s, y)
    ensures Sound(s, Next(s, y, ClaimLookups(limit, now))) && Crawl(y.cat, Next(s, y, ClaimLookups(limit, now)).cat) && Still(y.cat, Next(s, y, ClaimLookups(limit, now)).cat)
    ensures Next(s, y, ClaimLookups(limit, now)).cat.orphans == y.cat.orphans
  {
    hide Sound, EntryOk, Live, Indexed, Crawl, Still, At, LookingEach, NewestDue, EntriesOk, Claims, Placed;
    SoundParts(s, y);
    var c := y.cat;
    var due := NewestDue(c, c.needsLookup.keys, limit, now);
    var y' := Next(s, y, ClaimLookups(limit, now));
    DueIn(c, c.needsLookup.keys, limit, now);
    LookingEachIndexed(s, c, due);
    forall h | h in due ensures h in c.entries.m && NeedsLookup(s, At(c, c.entries.m[h])) { NeedsLookupHere(s, c, h); }
    LookingEntries(s, c, y'.cat, due);
    LookingClaims(y, y', due);
    CrawlSteady(c, y'.cat);
    CrawlSound(s, y, y');
  }

  lemma LookingEntries(s: Settings, c: Catalog, c': Catalog, due: seq<Hash>)
    requires EntriesOk(s, c) && Steady(c, c') && forall h :: h in due ==> h in c.entries.m && NeedsLookup(s, At(c, c.entries.m[h]))
    requires forall j: Id :: At(c', j) == if Live(c, j) && At(c, j).hash in due then At(c, j).(looking := true) else At(c, j)
    ensures EntriesOk(s, c')
  {
    hide EntryOk, NeedsLookup, At;
    forall j: Id | Live(c', j) ensures EntryOk(s, At(c', j)) {
      assert At(c', j).hash == At(c, j).hash;
      if At(c, j).hash in due { LookupClaimedOk(s, At(c, j)); }
    }
  }

  lemma LookingClaims(y: System, y': System, due: seq<Hash>)
    requires Placed(y.cat) && Claims(y) && Steady(y.cat, y'.cat) && y'.jobs == y.jobs && y'.lookups == y.lookups + set h | h in due
    requires forall h :: h in due ==> h in y.cat.entries.m
    requires forall j: Id :: At(y'.cat, j) == if Live(y.cat, j) && At(y.cat, j).hash in due then At(y.cat, j).(looking := true) else At(y.cat, j)
    ensures Claims(y')
  {
    hide At, Ordered;
    forall h ensures ClaimsAt(y', h) {
      assert ClaimsAt(y, h);
    }
  }

  lemma FetchableHere(s: Settings, c: Catalog, h: Hash)
    requires Indexed(s, c) && h in c.fetchable
    ensures h in c.entries.m && c.fetchable[h] == c.entries.m[h] && Fetchable(At(c, c.entries.m[h]))
  {
    hide AwaitsCheck, Fetchable, NeedsLookup, Counted, Queued, Placed;
    assert ExactAt(s, c, h);
  }

  /** The candidates are live, claimed by nobody, and have peers to try. */
  lemma CandidatesHere(s: Settings, c: Catalog, ids: seq<Id>, limit: nat)
    requires Indexed(s, c) && TopCandidates(c, ids, limit)
    ensures forall id :: id in ids ==> Live(c, id) && Fetchable(At(c, id))
  {
    hide Indexed, Fetchable, Least, RanksBelow;
    forall id | id in ids ensures Live(c, id) && Fetchable(At(c, id)) { FetchableHere(s, c, At(c, id).hash); }
  }

  lemma ClaimFetchesSound(s: Settings, y: System, ids: seq<Id>, limit: nat)
    requires Sound(s, y) && Enabled(s, y, ClaimFetches(ids, limit))
    ensures Sound(s, Next(s, y, ClaimFetches(ids, limit))) && Crawl(y.cat, Next(s, y, ClaimFetches(ids, limit)).cat) && Still(y.cat, Next(s, y, ClaimFetches(ids, limit)).cat)
    ensures Next(s, y, ClaimFetches(ids, limit)).cat.orphans == y.cat.orphans
  {
    hide Sound, EntryOk, Live, Indexed, Crawl, Still, At, FetchingEach, EntriesOk, Claims, Placed, TopCandidates, FetchingSet;
    SoundParts(s, y);
    var c, y' := y.cat, Next(s, y, ClaimFetches(ids, limit));
    CandidatesHere(s, c, ids, limit);
    FetchingEachIndexed(s, c, ids);
    FetchingEntries(s, c, y'.cat, ids);
    FetchingClaims(y, y', ids);
    CrawlFetching(s, c, y'.cat, ids);
    CrawlSound(s, y, y');
  }

  lemma FetchingEntries(s: Settings, c: Catalog, c': Catalog, ids: seq<Id>)
    requires EntriesOk(s, c) && Steady(c, c') && FetchingSet(c, c', ids) && forall id :: id in ids ==> Live(c, id) && Fetchable(At(c, id))
    ensures EntriesOk(s, c')
  {
    hide EntryOk, Fetchable, At;
    forall j: Id | Live(c', j) ensures EntryOk(s, At(c', j)) {
      assert At(c', j).hash == At(c, j).hash;
      if j in ids { FetchClaimedOk(s, At(c, j)); }
    }
  }

  lemma CrawlFetching(s: Settings, c: Catalog, c': Catalog, ids: seq<Id>)
    requires EntriesOk(s, c) && Steady(c, c') && FetchingSet(c, c', ids) && forall id :: id in ids ==> Live(c, id) && Fetchable(At(c, id))
    ensures Crawl(c, c') && Still(c, c')
  {
    hide At, Live, EntryOk, Crawl, Still;
    forall j: Id ensures CrawlEntry(false, At(c, j), At(c', j)) && SameSeen(At(c, j), At(c', j)) { }
    CrawlSteady(c, c');
  }

  lemma FetchingClaims(y: System, y': System, ids: seq<Id>)
    requires Placed(y.cat) && Claims(y) && Steady(y.cat, y'.cat) && y'.lookups == y.lookups && y'.jobs == y.jobs + HashesOf(y.cat, ids)
    requires forall id :: id in ids ==> Live(y.cat, id)
    requires FetchingSet(y.cat, y'.cat, ids)
    ensures Claims(y')
  {
    hide At, Ordered;
    forall h ensures ClaimsAt(y', h) {
      assert ClaimsAt(y, h);
      if h in y.cat.entries.m {
        assert h in HashesOf(y.cat, ids) <==> y.cat.entries.m[h] in ids;
      }
    }
  }

  // ----- record_hash

  lemma CreatedSound(s: Settings, y: System, h: Hash, now: real)
    requires Sound(s, y)
    ensures var c1 := GotOrCreated(y.cat, h, now).0; EntriesOk(s, c1) && Claims(y.(cat := c1)) && Placed(c1) && Crawl(y.cat, c1)
  {
    hide Sound, EntryOk, Indexed, Nearly, Crawl, Still;
    SoundParts(s, y);
    CrawlCreated(s, y.cat, h, now);
    CreatedNearly(s, y.cat, h, now);
    NearlyPlaced(s, GotOrCreated(y.cat, h, now).0, h);
    if h !in y.cat.entries.m {
      CreatedFields(y.cat, h, now);
      NewEntryOk(s, h, now, !y.cat.checkDatabase);
      var c1 := GotOrCreated(y.cat, h, now).0;
      hide GotOrCreated, At, Ordered;
      forall id: Id | Live(c1, id) ensures EntryOk(s, At(c1, id)) { assert id != |y.cat.heap| ==> Live(y.cat, id); }
      forall x ensures ClaimsAt(y.(cat := c1), x) { assert ClaimsAt(y, x); }
    }
  }

  lemma NearlyPlaced(s: Settings, c: Catalog, h: Hash)
    requires Nearly(s, c, h)
    ensures Placed(c)
  {
  }

  lemma GoneSound(s: Settings, y: System, c': Catalog, victims: seq<Id>)
    requires EntriesOk(s, y.cat) && Claims(y) && Placed(y.cat) && Evictees(y.cat, victims) && Gone(y.cat, c', victims)
    requires Placed(c')
    ensures EntriesOk(s, c') && Claims(y.(cat := c'))
  {
    hide EntryOk, Ordered;
    forall id: Id | Live(c', id) ensures EntryOk(s, At(c', id)) { assert Live(y.cat, id) && id !in victims; }
    hide At;
    forall h ensures ClaimsAt(y.(cat := c'), h) {
      assert ClaimsAt(y, h);
      if h in y.cat.entries.m && h !in c'.entries.m {
        assert Live(y.cat, y.cat.entries.m[h]);
        assert y.cat.entries.m[h] in victims;
      } else if h in c'.entries.m {
        assert Live(c', c'.entries.m[h]);
        assert c'.entries.m[h] !in victims;
      }
    }
  }

  lemma RecordSound(s: Settings, y: System, h: Hash, announce: bool, peer: Option<Peer>, now: real, victims: seq<Id>)
    requires Sound(s, y) && Enabled(s, y, Record(h, announce, peer, now, victims))
    ensures var y' := Next(s, y, Record(h, announce, peer, now, victims)); Sound(s, y') && Crawl(y.cat, y'.cat)
  {
    hide Sound, Noted, EvictedEach, ChosenVictims, Indexed, EntriesOk, Claims, Crawl, Still, EntryOk, Placed, Live, Evictees, Gone, Became, GotOrCreated, At, Sighted;
    SoundParts(s, y);
    var (c1, id) := GotOrCreated(y.cat, h, now);
    var c2 := Noted(s, y.cat, h, announce, peer, now);
    CreatedSound(s, y, h, now);
    NotedIndexed(s, y.cat, h, announce, peer, now);
    var e := Sighted(s, At(c1, id), announce, peer, now);
    assert EntryOk(s, At(c1, id)) by { EntryOfLive(s, c1, id); }
    SightedOk(s, At(c1, id), announce, peer, now);
    SightedTags(s, At(c1, id), announce, peer, now);
    EntriesBecame(s, c1, c2, id, e);
    NotedClaims(y, c1, c2, id, e);
    CrawlBecame(c1, c2, id, e);
    CrawlTwice(y.cat, c1, c2);
    var y2 := y.(cat := c2);
    if |c2.entries.m| > s.maxEntries {
      assert Evictees(c2, victims) by { ChosenEvictees(s, c2, victims); }
      EvictedEachIndexed(s, c2, victims);
      var c3 := EvictedEach(c2, victims);
      IndexedPlaced(s, c2);
      IndexedPlaced(s, c3);
      GoneSound(s, y2, c3, victims);
      CrawlGone(c2, c3, victims);
      CrawlTwice(y.cat, c2, c3);
      CrawlSound(s, y, y.(cat := c3));
    } else {
      CrawlSound(s, y, y2);
    }
  }

  lemma EntryOfLive(s: Settings, c: Catalog, id: Id)
    requires EntriesOk(s, c) && Live(c, id)
    ensures EntryOk(s, At(c, id))
  {
  }

  lemma ChosenEvictees(s: Settings, c: Catalog, victims: seq<Id>)
    requires ChosenVictims(s, c, victims)
    ensures Evictees(c, victims)
  {
  }

  lemma IndexedPlaced(s: Settings, c: Catalog)
    requires Indexed(s, c)
    ensures Placed(c)
  {
  }

  lemma NotedClaims(y: System, c1: Catalog, c2: Catalog, id: Id, e: Entry)
    requires Claims(y.(cat := c1)) && Placed(c1) && Live(c1, id) && Became(c1, c2, id, e)
    requires e.hash == At(c1, id).hash && e.looking == At(c1, id).looking && e.state == At(c1, id).state
    ensures Claims(y.(cat := c2))
  {
    hide Claims, Placed, Became;
    assert ClaimsAt(y.(cat := c1), e.hash) by { ClaimsHere(y.(cat := c1), e.hash); }
    ClaimsBecame(y.(cat := c1), y.(cat := c2), id, e);
  }

  lemma ClaimsHere(y: System, h: Hash)
    requires Claims(y)
    ensures ClaimsAt(y, h)
  {
  }

  // ----- store_metadata

  lemma EntriesOverflowed(s: Settings, c: Catalog, c': Catalog)
    requires EntriesOk(s, c) && Overflowed(c, c')
    ensures EntriesOk(s, c')
  {
    forall j: Id | Live(c', j) ensures EntryOk(s, At(c', j)) {
      OverflowLive(c, c', j);
      if At(c', j) != At(c, j) { UndocumentedOk(s, At(c, j)); }
    }
  }

  lemma ClaimsOverflowed(y: System, c': Catalog)
    requires Claims(y) && Overflowed(y.cat, c')
    ensures Claims(y.(cat := c'))
  {
    hide At;
    forall h ensures ClaimsAt(y.(cat := c'), h) {
      assert ClaimsAt(y, h);
    }
  }

  lemma StoreCrawl(c: Catalog, c2: Catalog, c': Catalog, id: Id, meta: Metadata)
    requires Live(c, id) && id < |c.heap| && At(c, id).meta.None? && At(c, id).hash == meta.hash
    requires Became(c, c2, id, StoredEntry(At(c, id), meta)) && Overflowed(c2, c') && QueuesOne(c2, c', id)
    ensures Crawl(c, c') && Still(c, c') && c'.orphans == c.orphans
  {
    BecameLive(c, c2, id, StoredEntry(At(c, id), meta));
    forall j: Id ensures Live(c', j) <==> Live(c2, j) { OverflowLive(c2, c', j); }
    forall j: Id | Live(c', j) && Live(c', id) && At(c', j).hash == At(c', id).hash ensures j == id { }
    hide At, Live;
    forall j: Id ensures CrawlAt(c, c', j) && NewlyQueued(c, c', j) && HashKept(c, c', j) {
      if j != id && At(c', j) != At(c2, j) { assert QueuedAs(c2, At(c2, j).hash, j); }
    }
  }

  lemma StoreSound(s: Settings, y: System, meta: Metadata, now: real)
    requires Sound(s, y) && Enabled(s, y, StoreMetadata(meta, now))
    ensures Sound(s, Next(s, y, StoreMetadata(meta, now))) && Crawl(y.cat, Next(s, y, StoreMetadata(meta, now)).cat) && Still(y.cat, Next(s, y, StoreMetadata(meta, now)).cat)
    ensures Next(s, y, StoreMetadata(meta, now)).cat.orphans == y.cat.orphans
  {
    hide Sound, Stored, Indexed, EntriesOk, Claims, Crawl, Still, EntryOk, Placed, Live, Became, Overflowed, QueuesOne, At, Replaced;
    SoundParts(s, y);
    ClaimedJob(s, y, meta.hash);
    var c := y.cat;
    var id := c.entries.m[meta.hash];
    JobHasNoMetadata(s, At(c, id));
    StoredIndexed(s, c, meta, now);
    var e := StoredEntry(At(c, id), meta);
    var c2 := Replaced(s, c.(fetched := c.fetched[meta.hash := id]), id, e);
    StoredOk(s, At(c, id), meta);
    EntriesBecame(s, c, c2, id, e);
    var y2 := y.(cat := c2, jobs := y.jobs - {meta.hash});
    ClaimsBecame(y, y2, id, e);
    var c' := Stored(s, c, meta, now);
    EntriesOverflowed(s, c2, c');
    ClaimsOverflowed(y2, c');
    StoreCrawl(c, c2, c', id, meta);
    CrawlSound(s, y, y2.(cat := c'));
  }

  // ----- set_database_check

  lemma SwitchSound(s: Settings, y: System, enabled: bool)
    requires Sound(s, y)
    ensures Sound(s, Next(s, y, SwitchChecks(enabled))) && Crawl(y.cat, Next(s, y, SwitchChecks(enabled)).cat) && Still(y.cat, Next(s, y, SwitchChecks(enabled)).cat)
    ensures Next(s, y, SwitchChecks(enabled)).cat.orphans == y.cat.orphans
  {
    hide Sound, CheckSwitched, Indexed, EntriesOk, Claims, Crawl, Still, EntryOk, Live, At, CheckedSet;
    SoundParts(s, y);
    CheckSwitchedIndexed(s, y.cat, enabled);
    var y' := Next(s, y, SwitchChecks(enabled));
    var hashes := if enabled then [] else y.cat.needsCheck.keys;
    SwitchedEntries(s, y, y', hashes);
    CrawlSound(s, y, y');
  }

  lemma SwitchedEntries(s: Settings, y: System, y': System, hashes: seq<Hash>)
    requires EntriesOk(s, y.cat) && Claims(y) && Steady(y.cat, y'.cat) && CheckedSet(y.cat, y'.cat, hashes) && y'.lookups == y.lookups && y'.jobs == y.jobs
    ensures EntriesOk(s, y'.cat) && Claims(y') && Crawl(y.cat, y'.cat) && Still(y.cat, y'.cat)
  {
    hide At, EntryOk, Crawl, Live, Still;
    forall j: Id ensures Live(y'.cat, j) <==> Live(y.cat, j) { SteadyLive(y.cat, y'.cat, j); }
    forall j: Id | Live(y'.cat, j) ensures EntryOk(s, At(y'.cat, j)) { CheckedOk(s, At(y.cat, j)); }
    forall h ensures ClaimsAt(y', h) { assert ClaimsAt(y, h); }
    forall j: Id ensures CrawlEntry(false, At(y.cat, j), At(y'.cat, j)) && SameSeen(At(y.cat, j), At(y'.cat, j)) { }
    CrawlSteady(y.cat, y'.cat);
  }

  // ----- the index thread: documents

  lemma SameCatalog(s: Settings, y: System, y': System)
    requires Sound(s, y) && y'.cat == y.cat && y'.lookups == y.lookups && y'.jobs == y.jobs
    requires PhaseOk(y'.cat, y'.rows, y'.phase) && RowsExist(y'.cat, y'.rows)
    ensures Sound(s, y')
  {
    hide Indexed, PhaseOk, RowsExist, EntriesOk;
    forall h ensures ClaimsAt(y', h) { assert ClaimsAt(y, h); }
  }

  /** Only the queues differ. */
  lemma QueuesSound(s: Settings, y: System, y': System)
    requires Sound(s, y) && QueuesOnly(y.cat, y'.cat) && Indexed(s, y'.cat) && y'.lookups == y.lookups && y'.jobs == y.jobs && y'.rows == y.rows
    requires PhaseOk(y'.cat, y'.rows, y'.phase)
    ensures Sound(s, y')
  {
    hide Indexed, PhaseOk, EntryOk;
    SameHeap(y.cat, y'.cat);
    forall j: Id | Live(y'.cat, j) ensures EntryOk(s, At(y'.cat, j)) { SteadyLive(y.cat, y'.cat, j); }
    hide At;
    forall h ensures ClaimsAt(y', h) { assert ClaimsAt(y, h); }
    forall j: Id | j < |y'.cat.heap| ensures RowBehind(y'.rows, At(y'.cat, j)) { assert RowBehind(y.rows, At(y.cat, j)); }
  }

  lemma DrainDocumentsSound(s: Settings, y: System, limit: nat)
    requires Sound(s, y) && Enabled(s, y, DrainDocuments(limit))
    ensures Sound(s, Next(s, y, DrainDocuments(limit)))
  {
    hide Sound, Indexed, DocumentsDrained, EntriesOk, Claims, RowsExist, EntryOk, At, Live, DistinctIds, DocumentOf, CountsFit, HasId;
    SoundParts(s, y);
    DocumentsDrainedIndexed(s, y.cat, limit);
    DocumentsDrainedBatch(s, y.cat, limit);
    var (c', batch) := DocumentsDrained(y.cat, limit);
    SameHeap(y.cat, c');
    forall x | x in batch ensures DocumentOutOk(c', x) {
      DrainedDocument(s, y.cat, c', x);
    }
    QueuesSound(s, y, Next(s, y, DrainDocuments(limit)));
  }

  lemma DrainedDocument(s: Settings, c: Catalog, c': Catalog, x: Snapshot)
    requires EntriesOk(s, c) && QueuesOnly(c, c') && DocumentOf(c', x.hash, x.id) && x.meta == At(c', x.id).meta && x.hash !in c'.documents.m
    ensures DocumentOutOk(c', x)
  {
    SteadyLive(c, c', x.id);
    SameHeap(c, c');
    if Live(c', x.id) { assert EntryOk(s, At(c, x.id)); }
  }

  lemma {:induction false} WrittenRows(rows: Rows, batch: seq<Snapshot>)
    ensures forall h :: h in DocumentsWritten(rows, batch) <==> h in rows || exists x :: x in batch && x.hash == h
    decreases |batch|
  {
    if batch != [] {
      WrittenRows(DocumentWritten(rows, batch[0]), batch[1..]);
      assert forall x :: x in batch <==> x == batch[0] || x in batch[1..];
    }
  }

  lemma MoreRows(c: Catalog, rows: Rows, rows': Rows)
    requires RowsExist(c, rows) && forall h :: h in rows ==> h in rows'
    ensures RowsExist(c, rows')
  {
    hide At;
    forall j: Id | j < |c.heap| ensures RowBehind(rows', At(c, j)) { assert RowBehind(rows, At(c, j)); }
  }

  lemma WriteDocumentsSound(s: Settings, y: System)
    requires Sound(s, y) && Enabled(s, y, WriteDocuments)
    ensures Sound(s, Next(s, y, WriteDocuments))
  {
    hide Sound, Indexed, DocumentsWritten, EntriesOk, Claims, RowsExist, DistinctHashes, DocumentOutOk;
    SoundParts(s, y);
    WrittenRows(y.rows, y.phase.batch);
    MoreRows(y.cat, y.rows, DocumentsWritten(y.rows, y.phase.batch));
    SameCatalog(s, y, Next(s, y, WriteDocuments));
  }

  lemma DocumentsFailSound(s: Settings, y: System)
    requires Sound(s, y) && Enabled(s, y, DocumentsFail)
    ensures Sound(s, Next(s, y, DocumentsFail))
  {
    hide Sound, Indexed, DocumentsRequeued, EntriesOk, Claims, RowsExist, DistinctHashes, DocumentOf;
    SoundParts(s, y);
    DocumentsRequeuedIndexed(s, y.cat, y.phase.batch);
    QueuesSound(s, y, Next(s, y, DocumentsFail));
  }

  lemma MarkDocumentSound(s: Settings, y: System)
    requires Sound(s, y) && Enabled(s, y, MarkDocument)
    ensures Sound(s, Next(s, y, MarkDocument))
  {
    hide Sound, Indexed, DocumentMarked, EntriesOk, Claims, RowsExist, EntryOk, Live, At, MarkedEntry, DistinctHashes;
    SoundParts(s, y);
    var x, base := y.phase.batch[0], y.phase.bases[0];
    assert x in y.phase.batch;
    OutHere(y.cat, x);
    DocumentMarkedIndexed(s, y.cat, x, base);
    var y' := Next(s, y, MarkDocument);
    assert Marks(y.cat, y'.cat, x, base);
    MarkedPhase(y, y'.cat, x, base);
    MarkedSound(s, y, y', x, base);
  }

  lemma MarkedPhase(y: System, c': Catalog, x: Snapshot, base: Base)
    requires y.phase.DocumentsToMark? && PhaseOk(y.cat, y.rows, y.phase) && x == y.phase.batch[0] && Marks(y.cat, c', x, base)
    requires forall h :: h in c'.documents.m ==> h in y.cat.documents.m && c'.documents.m[h] == y.cat.documents.m[h]
    ensures PhaseOk(c', y.rows, ToMark(y.phase.batch[1..], y.phase.bases[1..]))
  {
    hide MarkedEntry;
    var batch := y.phase.batch;
    forall z | z in batch[1..] ensures DocumentOutOk(c', z) && z.hash in y.rows {
      assert z in batch && DocumentOutOk(y.cat, z);
      var i :| 0 < i < |batch| && batch[i] == z;
      assert z.hash != x.hash;
      assert DocumentOutOk(y.cat, x) by { assert x in batch; }
      DocumentAfterMark(y.cat, c', x, z, base);
    }
  }

  lemma DocumentAfterMark(c: Catalog, c': Catalog, x: Snapshot, z: Snapshot, base: Base)
    requires Marks(c, c', x, base) && DocumentOutOk(c, x) && DocumentOutOk(c, z) && z.hash != x.hash
    requires forall h :: h in c'.documents.m ==> h in c.documents.m && c'.documents.m[h] == c.documents.m[h]
    ensures DocumentOutOk(c', z)
  {
    assert z.id != x.id;
    SteadyLive(c, c', z.id);
    hide At, Live;
  }

  lemma OutHere(c: Catalog, x: Snapshot)
    requires DocumentOutOk(c, x)
    ensures x.id < |c.heap| && At(c, x.id).hash == x.hash && (Live(c, x.id) ==> At(c, x.id).state == Done && At(c, x.id).meta == x.meta) && x.meta.Some?
  {
  }

  /** What marking a document leaves of the catalog. */
  ghost predicate Marks(c: Catalog, c': Catalog, x: Snapshot, base: Base) {
    c'.entries == c.entries && |c'.heap| == |c.heap| && At(c', x.id) == MarkedEntry(At(c, x.id), x, base, Live(c, x.id)) &&
    forall j: Id :: j != x.id ==> At(c', j) == At(c, j)
  }

  lemma MarkedSound(s: Settings, y: System, y': System, x: Snapshot, base: Base)
    requires Sound(s, y) && Indexed(s, y'.cat) && Marks(y.cat, y'.cat, x, base) && y'.rows == y.rows && y'.lookups == y.lookups && y'.jobs == y.jobs
    requires x.hash in y.rows && At(y.cat, x.id).hash == x.hash && x.meta.Some?
    requires Live(y.cat, x.id) ==> At(y.cat, x.id).state == Done && At(y.cat, x.id).meta == x.meta
    requires PhaseOk(y'.cat, y'.rows, y'.phase)
    ensures Sound(s, y')
  {
    hide Indexed, PhaseOk, Ordered, EntryOk;
    if Live(y.cat, x.id) { MarkedEntryOk(s, At(y.cat, x.id), x, base); }
    MarkedFields(At(y.cat, x.id), x, base, Live(y.cat, x.id));
    forall j: Id ensures Live(y'.cat, j) <==> Live(y.cat, j) { SteadyLive(y.cat, y'.cat, j); }
    hide At, MarkedEntry, Live;
    forall h ensures ClaimsAt(y', h) { assert ClaimsAt(y, h); }
    forall j: Id | j < |y'.cat.heap| ensures RowBehind(y'.rows, At(y'.cat, j)) { assert RowBehind(y.rows, At(y.cat, j)); }
    forall j: Id | Live(y'.cat, j) ensures EntryOk(s, At(y'.cat, j)) { }
  }

  lemma MarkedFields(e: Entry, x: Snapshot, base: Base, live: bool)
    ensures var e' := MarkedEntry(e, x, base, live);
            e'.hash == e.hash && e'.state == e.state && e'.looking == e.looking && (e'.base.Some? ==> e.base.Some? || live)
  {
  }

  // ----- the index thread: counters

  lemma DrainCountersSound(s: Settings, y: System, limit: nat)
    requires Sound(s, y) && Enabled(s, y, DrainCounters(limit))
    ensures Sound(s, Next(s, y, DrainCounters(limit)))
  {
    hide Sound, Indexed, AllCountersDrained, EntriesOk, Claims, RowsExist, EntryOk, At, Live, DistinctIds, CountsFit, HasId, HasUnflushed, OnlyOverflow;
    SoundParts(s, y);
    AllCountersDrainedIndexed(s, y.cat, limit);
    var (c', batch) := AllCountersDrained(s, y.cat, limit);
    forall x | x in batch ensures Countable(c', x) { FitsCountable(c', x); }
    DrainedSound(s, y, Next(s, y, DrainCounters(limit)));
  }

  lemma FitsCountable(c: Catalog, x: Snapshot)
    requires CountsFit(c, x) && x.base.Some?
    ensures Countable(c, x)
  {
  }

  lemma DrainedSound(s: Settings, y: System, y': System)
    requires Sound(s, y) && Indexed(s, y'.cat) && y'.lookups == y.lookups && y'.jobs == y.jobs && y'.rows == y.rows && PhaseOk(y'.cat, y'.rows, y'.phase)
    requires y'.cat.entries == y.cat.entries && |y'.cat.heap| == |y.cat.heap|
    requires forall j: Id :: At(y'.cat, j) == At(y.cat, j) || (Live(y.cat, j) && DropsMetadata(At(y.cat, j)) && At(y'.cat, j) == Undocumented(At(y.cat, j)))
    ensures Sound(s, y')
  {
    hide Indexed, PhaseOk, EntryOk;
    forall j: Id ensures Live(y'.cat, j) <==> Live(y.cat, j) { SteadyLive(y.cat, y'.cat, j); }
    hide At, Live;
    forall j: Id | Live(y'.cat, j) ensures EntryOk(s, At(y'.cat, j)) {
      assert EntryOk(s, At(y.cat, j));
      if At(y'.cat, j) != At(y.cat, j) { UndocumentedOk(s, At(y.cat, j)); }
    }
    forall h ensures ClaimsAt(y', h) { assert ClaimsAt(y, h); }
    forall j: Id | j < |y'.cat.heap| ensures RowBehind(y'.rows, At(y'.cat, j)) { assert RowBehind(y.rows, At(y.cat, j)); }
  }

  lemma {:induction false} CountedRows(rows: Rows, batch: seq<Snapshot>)
    ensures forall h :: h in CountersWritten(rows, batch) <==> h in rows
    decreases |batch|
  {
    if batch != [] { CountedRows(CounterWritten(rows, batch[0]), batch[1..]); }
  }

  /** Every counter drained has its row, so update_counters reports nothing missing. */
  lemma {:induction false} NothingMissing(c: Catalog, rows: Rows, batch: seq<Snapshot>)
    requires RowsExist(c, rows) && forall x :: x in batch ==> Countable(c, x)
    ensures MissingFrom(rows, batch) == []
  {
    hide At;
    if batch != [] {
      assert batch[0] in batch && Countable(c, batch[0]);
      assert RowBehind(rows, At(c, batch[0].id));
      NothingMissing(c, rows, batch[1..]);
    }
  }

  lemma WriteCountersSound(s: Settings, y: System)
    requires Sound(s, y) && Enabled(s, y, WriteCounters)
    ensures Sound(s, Next(s, y, WriteCounters)) && Next(s, y, WriteCounters).phase == CountersToMark(y.phase.batch, [])
  {
    hide Sound, Indexed, CountersWritten, EntriesOk, Claims, RowsExist, Countable;
    SoundParts(s, y);
    CountedRows(y.rows, y.phase.batch);
    MoreRows(y.cat, y.rows, CountersWritten(y.rows, y.phase.batch));
    NothingMissing(y.cat, y.rows, y.phase.batch);
    SameCatalog(s, y, Next(s, y, WriteCounters));
  }

  lemma ShortQueue(s: Settings, c: Catalog)
    requires Indexed(s, c)
    ensures NewestOrphans(c.orphans) == c.orphans
  {
    hide Indexed, OrphanAt, DocumentOf, Ordered;
    QueuesOf(s, c);
  }

  lemma CountersFailSound(s: Settings, y: System)
    requires Sound(s, y) && Enabled(s, y, CountersFail)
    ensures Sound(s, Next(s, y, CountersFail))
  {
    hide Sound, Indexed, CountersRequeued, EntriesOk, Claims, RowsExist, Countable, NewestOrphans;
    SoundParts(s, y);
    ShortQueue(s, y.cat);
    CountersRequeuedIndexed(s, y.cat, y.phase.batch, y.cat.orphans);
    QueuesSound(s, y, Next(s, y, CountersFail));
  }

  lemma {:induction false} SumForNone(batch: seq<Snapshot>, id: Id, k: Kind)
    requires forall x :: x in batch ==> x.id != id
    ensures SumFor(batch, id, k) == 0
  {
    if batch != [] {
      assert batch[0] in batch;
      SumForNone(batch[1..], id, k);
    }
  }

  lemma MarkCountersSound(s: Settings, y: System)
    requires Sound(s, y) && Enabled(s, y, MarkCounters)
    ensures Sound(s, Next(s, y, MarkCounters)) && Next(s, y, MarkCounters).cat == CountersMarked(y.cat, y.phase.batch)
  {
    hide Sound, Indexed, CountersMarked, EntriesOk, Claims, RowsExist, Countable, SumFor, At;
    SoundParts(s, y);
    forall x | x in y.phase.batch ensures x.id < |y.cat.heap| { assert Countable(y.cat, x); InRange(y.cat, x); }
    CountersMarkedIndexed(s, y.cat, y.phase.batch);
    FlushedSound(s, y, Next(s, y, MarkCounters), y.phase.batch);
  }

  lemma InRange(c: Catalog, x: Snapshot)
    requires Countable(c, x)
    ensures x.id < |c.heap| && At(c, x.id).hash == x.hash && At(c, x.id).base.Some?
  {
  }

  ghost predicate Flushes(c: Catalog, c': Catalog, batch: seq<Snapshot>) {
    c'.entries == c.entries && |c'.heap| == |c.heap| &&
    forall j: Id :: At(c', j) == At(c, j).(flushedSeen := At(c, j).flushedSeen + SumFor(batch, j, Sightings),
                                           flushedAnnounced := At(c, j).flushedAnnounced + SumFor(batch, j, Announces))
  }

  lemma FlushedSound(s: Settings, y: System, y': System, batch: seq<Snapshot>)
    requires Sound(s, y) && Indexed(s, y'.cat) && Flushes(y.cat, y'.cat, batch) && y'.rows == y.rows && y'.lookups == y.lookups && y'.jobs == y.jobs
    requires (forall x :: x in batch ==> Countable(y.cat, x)) && PhaseOk(y'.cat, y'.rows, y'.phase)
    ensures Sound(s, y')
  {
    hide Indexed, PhaseOk, SumFor, EntryOk;
    forall j: Id ensures Live(y'.cat, j) <==> Live(y.cat, j) { SteadyLive(y.cat, y'.cat, j); }
    hide At, Live, Countable;
    forall j: Id | Live(y'.cat, j) ensures EntryOk(s, At(y'.cat, j)) {
      FlushedEntry(s, y.cat, j, batch);
    }
    forall h ensures ClaimsAt(y', h) { assert ClaimsAt(y, h); }
    forall j: Id | j < |y'.cat.heap| ensures RowBehind(y'.rows, At(y'.cat, j)) { assert RowBehind(y.rows, At(y.cat, j)); }
  }

  lemma FlushedEntry(s: Settings, c: Catalog, j: Id, batch: seq<Snapshot>)
    requires EntryOk(s, At(c, j)) && forall x :: x in batch ==> Countable(c, x)
    ensures EntryOk(s, At(c, j).(flushedSeen := At(c, j).flushedSeen + SumFor(batch, j, Sightings),
                                 flushedAnnounced := At(c, j).flushedAnnounced + SumFor(batch, j, Announces)))
  {
    hide EntryOk, At, Countable, SumFor;
    var e := At(c, j);
    if x :| x in batch && x.id == j {
      assert Countable(c, x);
      InRange(c, x);
      FlushedOk(s, e, e.flushedSeen + SumFor(batch, j, Sightings), e.flushedAnnounced + SumFor(batch, j, Announces));
    } else {
      SumForNone(batch, j, Sightings);
      SumForNone(batch, j, Announces);
      assert e.(flushedSeen := e.flushedSeen + 0, flushedAnnounced := e.flushedAnnounced + 0) == e;
    }
  }

  // ----- the index thread: database checks

  lemma ApplyChecksSound(s: Settings, y: System)
    requires Sound(s, y) && Enabled(s, y, ApplyChecks)
    ensures Sound(s, Next(s, y, ApplyChecks))
  {
    hide Sound, Indexed, ChecksApplied, EntriesOk, Claims, RowsExist, At, AppliedSet;
    SoundParts(s, y);
    ChecksAppliedIndexed(s, y.cat, y.phase.hashes, y.phase.found);
    AppliedSound(s, y, Next(s, y, ApplyChecks), y.phase.hashes, y.phase.found);
  }

  lemma AppliedSound(s: Settings, y: System, y': System, hashes: seq<Hash>, found: map<Hash, Base>)
    requires Sound(s, y) && Indexed(s, y'.cat) && Steady(y.cat, y'.cat) && AppliedSet(y.cat, y'.cat, hashes, found)
    requires y'.rows == y.rows && y'.lookups == y.lookups && y'.jobs == y.jobs && y'.phase == Idle && forall h :: h in found ==> h in y.rows
    ensures Sound(s, y')
  {
    hide Indexed, EntryOk, CheckedEntry;
    forall j: Id ensures CheckedKeeps(At(y.cat, j), found) { CheckedHow(At(y.cat, j), found); }
    forall j: Id ensures Live(y'.cat, j) <==> Live(y.cat, j) { SteadyLive(y.cat, y'.cat, j); }
    hide At, Live;
    forall j: Id | Live(y'.cat, j) ensures EntryOk(s, At(y'.cat, j)) {
      assert EntryOk(s, At(y.cat, j));
      CheckedEntryOk(s, At(y.cat, j), found);
    }
    forall h ensures ClaimsAt(y', h) { assert ClaimsAt(y, h); }
    forall j: Id | j < |y'.cat.heap| ensures RowBehind(y'.rows, At(y'.cat, j)) { assert RowBehind(y.rows, At(y.cat, j)); }
  }

  predicate CheckedKeeps(e: Entry, found: map<Hash, Base>) {
    var e' := CheckedEntry(e, found);
    e'.hash == e.hash && e'.looking == e.looking && (e'.state == InProgress <==> e.state == InProgress) && (e'.base.Some? ==> e.base.Some? || e.hash in found)
  }

  lemma CheckedHow(e: Entry, found: map<Hash, Base>)
    ensures CheckedKeeps(e, found)
  {
  }

  lemma ChecksSound(s: Settings, y: System, step: Step)
    requires Sound(s, y) && Enabled(s, y, step) && (step.TakeChecks? || step.ReadChecks? || step.ChecksFail?)
    ensures Sound(s, Next(s, y, step))
  {
    hide Sound, Indexed, EntriesOk, Claims, RowsExist;
    SoundParts(s, y);
    SameCatalog(s, y, Next(s, y, step));
  }

  // ----- every step, every run

  lemma StepSound(s: Settings, y: System, step: Step)
    requires Sound(s, y) && Enabled(s, y, step)
    ensures Sound(s, Next(s, y, step))
  {
    hide Sound, Next;
    match step
    case Record(h, announce, peer, now, victims) => RecordSound(s, y, h, announce, peer, now, victims);
    case StreamPeers(h, peers) => StreamPeersSound(s, y, h, peers);
    case ClaimLookups(limit, now) => ClaimLookupsSound(s, y, limit, now);
    case ReleaseLookup(h) => ReleaseLookupSound(s, y, h);
    case FinishLookup(h, peers, now) => FinishLookupSound(s, y, h, peers, now);
    case ClaimFetches(ids, limit) => ClaimFetchesSound(s, y, ids, limit);
    case StoreMetadata(meta, now) => StoreSound(s, y, meta, now);
    case FailFetch(h, tried, reason, now) => FailFetchSound(s, y, h, tried, reason, now);
    case ReleaseFetch(h) => ReleaseFetchSound(s, y, h);
    case DrainDocuments(limit) => DrainDocumentsSound(s, y, limit);
    case WriteDocuments => WriteDocumentsSound(s, y);
    case DocumentsFail => DocumentsFailSound(s, y);
    case MarkDocument => MarkDocumentSound(s, y);
    case DrainCounters(limit) => DrainCountersSound(s, y, limit);
    case WriteCounters => WriteCountersSound(s, y);
    case CountersFail => CountersFailSound(s, y);
    case MarkCounters => MarkCountersSound(s, y);
    case ResetMissing => NoReset(s, y);
    case ApplyChecks => ApplyChecksSound(s, y);
    case SwitchChecks(enabled) => SwitchSound(s, y, enabled);
    case _ => ChecksSound(s, y, step);
  }

  lemma NoReset(s: Settings, y: System)
    requires Sound(s, y)
    ensures !y.phase.ToReset?
  {
  }

  lemma StartSound(s: Settings, y: System)
    requires Start(y)
    ensures Sound(s, y)
  {
    hide AwaitsCheck, Fetchable, NeedsLookup, EntryOk;
    forall tag ensures Kept(y.cat, tag) == |Tagged(y.cat, tag)| {
      assert Tagged(y.cat, tag) == {};
    }
  }

  lemma OneStep(s: Settings, y: System, step: Step)
    requires Sound(s, y) && Enabled(s, y, step)
    ensures After(s, y, [step]) == Next(s, y, step) && Sound(s, After(s, y, [step])) && Run(s, y, [step])
  {
    hide Sound, Enabled, Next;
    StepSound(s, y, step);
    assert [step][1..] == [];
  }

  lemma NoSteps(s: Settings, y: System)
    ensures Run(s, y, []) && After(s, y, []) == y
  {
  }

  lemma {:induction false} RunJoin(s: Settings, y: System, a: seq<Step>, b: seq<Step>)
    requires Run(s, y, a) && Run(s, After(s, y, a), b)
    ensures Run(s, y, a + b) && After(s, y, a + b) == After(s, After(s, y, a), b)
    decreases |a|
  {
    hide Enabled, Next;
    if a == [] {
      assert a + b == b;
    } else {
      assert (a + b)[1..] == a[1..] + b;
      RunJoin(s, Next(s, y, a[0]), a[1..], b);
    }
  }

  /** In every state any interleaving of the three threads can reach, everything above holds. */
  lemma {:induction false} RunSound(s: Settings, y: System, steps: seq<Step>)
    requires Sound(s, y) && Run(s, y, steps)
    ensures Sound(s, After(s, y, steps))
    decreases |steps|
  {
    hide Sound, Enabled, Next;
    if steps != [] {
      StepSound(s, y, steps[0]);
      RunSound(s, Next(s, y, steps[0]), steps[1..]);
    }
  }

  lemma {:induction false} NoResetFrom(s: Settings, y: System, steps: seq<Step>)
    requires Sound(s, y) && Run(s, y, steps)
    ensures ResetMissing !in steps
    decreases |steps|
  {
    hide Sound, Next;
    if steps != [] {
      NoReset(s, y);
      StepSound(s, y, steps[0]);
      NoResetFrom(s, Next(s, y, steps[0]), steps[1..]);
      assert steps == [steps[0]] + steps[1..];
    }
  }

  /** While rows are not deleted from outside, no run of the threads resets a base or is about to. */
  lemma NeverReset(s: Settings, y: System, steps: seq<Step>)
    requires Start(y) && Run(s, y, steps)
    ensures ResetMissing !in steps && !After(s, y, steps).phase.ToReset?
  {
    hide Sound, Run, After;
    StartSound(s, y);
    RunSound(s, y, steps);
    NoReset(s, After(s, y, steps));
    NoResetFrom(s, y, steps);
  }

  /** Nothing is claimed by a lookup or a fetch without its entry being in memory, and so marked. */
  lemma ClaimsMatchWork(s: Settings, y: System, steps: seq<Step>)
    requires Start(y) && Run(s, y, steps)
    ensures var z := After(s, y, steps);
            z.lookups == Tagged(z.cat, Looking) && z.jobs == Tagged(z.cat, InState(InProgress)) &&
            z.cat.lookupsInProgress == |z.lookups| && z.cat.counts.inProgress == |z.jobs|
  {
    hide Run, After, Indexed, EntriesOk, PhaseOk, RowsExist;
    StartSound(s, y);
    RunSound(s, y, steps);
    var z := After(s, y, steps);
    hide At;
    forall h ensures (h in z.lookups <==> h in Tagged(z.cat, Looking)) && (h in z.jobs <==> h in Tagged(z.cat, InState(InProgress))) {
      assert ClaimsAt(z, h);
    }
    assert z.lookups == Tagged(z.cat, Looking);
    assert z.jobs == Tagged(z.cat, InState(InProgress));
    CountsOf(s, z.cat);
  }

  lemma CountsOf(s: Settings, c: Catalog)
    requires Indexed(s, c)
    ensures c.lookupsInProgress == |Tagged(c, Looking)| && c.counts.inProgress == |Tagged(c, InState(InProgress))|
    ensures c.counts.pending == |Tagged(c, InState(Pending))| && c.counts.done == |Tagged(c, InState(Done))| && c.counts.failed == |Tagged(c, InState(Failed))|
    ensures c.knownDone == |Tagged(c, Known)|
  {
    hide Tagged, Exact, Placed, Queued, InOrder;
    assert Kept(c, Looking) == |Tagged(c, Looking)| && Kept(c, Known) == |Tagged(c, Known)|;
    assert Kept(c, InState(Pending)) == |Tagged(c, InState(Pending))| && Kept(c, InState(InProgress)) == |Tagged(c, InState(InProgress))|;
    assert Kept(c, InState(Done)) == |Tagged(c, InState(Done))| && Kept(c, InState(Failed)) == |Tagged(c, InState(Failed))|;
  }

  /** With at least one lookup allowed, every pending torrent waits for something that will come. */
  lemma NoStrandedWork(s: Settings, y: System, steps: seq<Step>, h: Hash)
    requires s.maxLookups >= 1 && Start(y) && Run(s, y, steps) && h in After(s, y, steps).cat.entries.m
    ensures var z := After(s, y, steps); var e := At(z.cat, z.cat.entries.m[h]);
            (e.state == Pending ==> h in z.cat.needsCheck.m || h in z.cat.fetchable || h in z.cat.needsLookup.m || h in z.lookups) &&
            Work(e) <= s.maxAttempts + s.maxLookups
  {
    hide Run, After, Indexed, AwaitsCheck, Fetchable, NeedsLookup, ExactAt, Sound;
    StartSound(s, y);
    RunSound(s, y, steps);
    var z := After(s, y, steps);
    SoundParts(s, z);
    EntryAt(s, z, h);
    IndexedAt(s, z.cat, h);
    ExactHere(s, z.cat, h);
  }

  lemma ExactHere(s: Settings, c: Catalog, h: Hash)
    requires ExactAt(s, c, h) && h in c.entries.m
    ensures var e := At(c, c.entries.m[h]);
            (h in c.needsCheck.m <==> AwaitsCheck(e)) && (h in c.fetchable <==> Fetchable(e)) && (h in c.needsLookup.m <==> NeedsLookup(s, e))
  {
    hide AwaitsCheck, Fetchable, NeedsLookup, At;
  }
}
