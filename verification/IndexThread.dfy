/**
 * search_indexer.py with the threads around it: the crawler records, claims and evicts, the fetch engine stores or fails,
 * and between any two of their calls the index thread drains, writes and marks, or requeues when a write fails.
 */
module IndexThread {
  import opened ByteStrings
  import opened BoundedRecentMap
  import opened NodeIdentity
  import opened CatalogSpec
  import opened CatalogIndexes
  import opened CatalogMethods
  import opened CatalogFlushing
  import opened CatalogEviction

  // ----- the database: a transaction commits whole or fails whole

  datatype Row = Row(seen: int, announced: int, first: real, last: real)

  type Rows = map<Hash, Row>

  function RowCount(rows: Rows, h: Hash, k: Kind): int {
    if h !in rows then 0 else if k.Sightings? then rows[h].seen else rows[h].announced
  }

  function BaseOf(row: Row): Base {
    Base(row.seen, row.announced, Some(row.first))
  }

  const NO_BASE := Base(0, 0, None)

  function Min(a: real, b: real): real {
    if a <= b then a else b
  }

  /** One document of write_documents: inserted, or added to the row there is. */
  function DocumentWritten(rows: Rows, x: Snapshot): Rows {
    if x.hash in rows then
      var row := rows[x.hash];
      rows[x.hash := Row(row.seen + x.seen, row.announced + x.announced, Min(row.first, x.first), Max(row.last, x.last))]
    else rows[x.hash := Row(x.seen, x.announced, x.first, x.last)]
  }

  function DocumentsWritten(rows: Rows, batch: seq<Snapshot>): Rows
    decreases |batch|
  {
    if batch == [] then rows else DocumentsWritten(DocumentWritten(rows, batch[0]), batch[1..])
  }

  /** The counters write_documents found before it wrote. */
  function Previous(rows: Rows, batch: seq<Snapshot>): map<Hash, Base>
    decreases |batch|
  {
    if batch == [] then map[]
    else
      var rest := Previous(DocumentWritten(rows, batch[0]), batch[1..]);
      if batch[0].hash in rows && batch[0].hash !in rest then rest[batch[0].hash := BaseOf(rows[batch[0].hash])] else rest
  }

  /** flush_documents: the base each snapshot is marked with. */
  function BasesFor(batch: seq<Snapshot>, previous: map<Hash, Base>): (r: seq<Base>)
    ensures |r| == |batch|
  {
    if batch == [] then []
    else
      var x := batch[0];
      [if x.base.Some? then x.base.value else if x.hash in previous then previous[x.hash] else NO_BASE] + BasesFor(batch[1..], previous)
  }

  /** One update of update_counters: a hash without a row is reported missing. */
  function CounterWritten(rows: Rows, x: Snapshot): Rows {
    if x.hash in rows then
      var row := rows[x.hash];
      rows[x.hash := Row(row.seen + x.seen, row.announced + x.announced, row.first, Max(row.last, x.last))]
    else rows
  }

  function CountersWritten(rows: Rows, batch: seq<Snapshot>): Rows
    decreases |batch|
  {
    if batch == [] then rows else CountersWritten(CounterWritten(rows, batch[0]), batch[1..])
  }

  function MissingFrom(rows: Rows, batch: seq<Snapshot>): seq<Hash> {
    if batch == [] then [] else (if batch[0].hash in rows then [] else [batch[0].hash]) + MissingFrom(rows, batch[1..])
  }

  function LookedUp(rows: Rows, hashes: seq<Hash>): map<Hash, Base> {
    map h | h in rows && h in hashes :: BaseOf(rows[h])
  }

  // ----- the threads

  /** Where the index thread is, between two of its atomic steps. */
  datatype Phase =
    | Idle
    | DocumentsOut(batch: seq<Snapshot>)
    | DocumentsToMark(batch: seq<Snapshot>, bases: seq<Base>)
    | CountersOut(batch: seq<Snapshot>)
    | CountersToMark(batch: seq<Snapshot>, missing: seq<Hash>)
    | ToReset(missing: seq<Hash>)
    | ChecksOut(hashes: seq<Hash>)
    | ChecksRead(hashes: seq<Hash>, found: map<Hash, Base>)

  /** The catalog, the database, the index thread, the lookups claimed or running, and the fetch jobs. */
  datatype System = System(cat: Catalog, rows: Rows, phase: Phase, lookups: set<Hash>, jobs: set<Hash>)

  datatype Step =
    // crawler thread
    | Record(h: Hash, announce: bool, peer: Option<Peer>, now: real, victims: seq<Id>)
    | StreamPeers(h: Hash, peers: seq<Peer>)
    | ClaimLookups(limit: nat, now: real)
    | ReleaseLookup(h: Hash)
    | FinishLookup(h: Hash, peers: seq<Peer>, now: real)
    // fetch thread
    | ClaimFetches(ids: seq<Id>, limit: nat)
    | StoreMetadata(meta: Metadata, now: real)
    | FailFetch(h: Hash, tried: seq<Peer>, reason: string, now: real)
    | ReleaseFetch(h: Hash)
    // index thread
    | DrainDocuments(limit: nat) | WriteDocuments | DocumentsFail | MarkDocument
    | DrainCounters(limit: nat) | WriteCounters | CountersFail | MarkCounters | ResetMissing
    | TakeChecks(limit: nat) | ReadChecks | ApplyChecks | ChecksFail | SwitchChecks(enabled: bool)

  /** What a thread may do next: the guards are the program order of each thread and its claims. */
  ghost predicate Enabled(s: Settings, y: System, step: Step) {
    match step
    case Record(h, announce, peer, now, victims) =>
      var noted := Noted(s, y.cat, h, announce, peer, now);
      if |noted.entries.m| > s.maxEntries then ChosenVictims(s, noted, victims) else victims == []
    case StreamPeers(h, peers) => true
    case ClaimLookups(limit, now) => true
    case ReleaseLookup(h) => h in y.lookups
    case FinishLookup(h, peers, now) => h in y.lookups
    case ClaimFetches(ids, limit) => TopCandidates(y.cat, ids, limit)
    case StoreMetadata(meta, now) => meta.hash in y.jobs
    case FailFetch(h, tried, reason, now) => h in y.jobs
    case ReleaseFetch(h) => h in y.jobs
    case DrainDocuments(limit) => y.phase.Idle?
    case WriteDocuments => y.phase.DocumentsOut?
    case DocumentsFail => y.phase.DocumentsOut?
    case MarkDocument => y.phase.DocumentsToMark? && y.phase.batch != [] && |y.phase.bases| == |y.phase.batch|
    case DrainCounters(limit) => y.phase.Idle?
    case WriteCounters => y.phase.CountersOut?
    case CountersFail => y.phase.CountersOut?
    case MarkCounters => y.phase.CountersToMark?
    case ResetMissing => y.phase.ToReset? && y.phase.missing != []
    case TakeChecks(limit) => y.phase.Idle?
    case ReadChecks => y.phase.ChecksOut?
    case ApplyChecks => y.phase.ChecksRead?
    case ChecksFail => y.phase.ChecksOut?
    case SwitchChecks(enabled) => y.phase.Idle?
  }

  function HashesOf(c: Catalog, ids: seq<Id>): set<Hash> {
    set id | id in ids :: At(c, id).hash
  }

  function ToMark(batch: seq<Snapshot>, bases: seq<Base>): Phase {
    if batch == [] then Idle else DocumentsToMark(batch, bases)
  }

  /** The snapshots whose hash had a row. */
  function NotMissing(batch: seq<Snapshot>, missing: seq<Hash>): (r: seq<Snapshot>)
    ensures forall x :: x in r ==> x in batch
    ensures missing == [] ==> r == batch
  {
    if batch == [] then [] else (if batch[0].hash in missing then [] else [batch[0]]) + NotMissing(batch[1..], missing)
  }

  function Next(s: Settings, y: System, step: Step): System {
    match step
    case Record(h, announce, peer, now, victims) => y.(cat := Recorded(s, y.cat, h, announce, peer, now, victims))
    case StreamPeers(h, peers) => y.(cat := PeersAdded(s, y.cat, h, peers))
    case ClaimLookups(limit, now) =>
      var due := NewestDue(y.cat, y.cat.needsLookup.keys, limit, now);
      y.(cat := LookupsClaimed(s, y.cat, limit, now), lookups := y.lookups + set h | h in due)
    case ReleaseLookup(h) => y.(cat := LookupReleased(s, y.cat, h), lookups := y.lookups - {h})
    case FinishLookup(h, peers, now) => y.(cat := LookupFinished(s, y.cat, h, peers, now), lookups := y.lookups - {h})
    case ClaimFetches(ids, limit) => y.(cat := FetchingEach(s, y.cat, ids), jobs := y.jobs + HashesOf(y.cat, ids))
    case StoreMetadata(meta, now) => y.(cat := Stored(s, y.cat, meta, now), jobs := y.jobs - {meta.hash})
    case FailFetch(h, tried, reason, now) => y.(cat := FetchFailed(s, y.cat, h, tried, reason, now), jobs := y.jobs - {h})
    case ReleaseFetch(h) => y.(cat := FetchReleased(s, y.cat, h), jobs := y.jobs - {h})
    case DrainDocuments(limit) =>
      var (c, batch) := DocumentsDrained(y.cat, limit);
      y.(cat := c, phase := if batch == [] then Idle else DocumentsOut(batch))
    case WriteDocuments =>
      if y.phase.DocumentsOut? then
        y.(rows := DocumentsWritten(y.rows, y.phase.batch), phase := ToMark(y.phase.batch, BasesFor(y.phase.batch, Previous(y.rows, y.phase.batch))))
      else y
    case DocumentsFail => if y.phase.DocumentsOut? then y.(cat := DocumentsRequeued(y.cat, y.phase.batch), phase := Idle) else y
    case MarkDocument =>
      if y.phase.DocumentsToMark? && y.phase.batch != [] && y.phase.bases != [] then
        y.(cat := DocumentMarked(y.cat, y.phase.batch[0], y.phase.bases[0]), phase := ToMark(y.phase.batch[1..], y.phase.bases[1..]))
      else y
    case DrainCounters(limit) =>
      var (c, batch) := AllCountersDrained(s, y.cat, limit);
      y.(cat := c, phase := if batch == [] then Idle else CountersOut(batch))
    case WriteCounters =>
      if y.phase.CountersOut? then
        y.(rows := CountersWritten(y.rows, y.phase.batch), phase := CountersToMark(y.phase.batch, MissingFrom(y.rows, y.phase.batch)))
      else y
    case CountersFail => if y.phase.CountersOut? then y.(cat := CountersRequeued(y.cat, y.phase.batch), phase := Idle) else y
    case MarkCounters =>
      if y.phase.CountersToMark? then
        y.(cat := CountersMarked(y.cat, NotMissing(y.phase.batch, y.phase.missing)), phase := if y.phase.missing == [] then Idle else ToReset(y.phase.missing))
      else y
    case ResetMissing =>
      if y.phase.ToReset? && y.phase.missing != [] then
        y.(cat := BaseReset(s, y.cat, y.phase.missing[0]), phase := if |y.phase.missing| == 1 then Idle else ToReset(y.phase.missing[1..]))
      else y
    case TakeChecks(limit) =>
      var n := Least(limit, |y.cat.needsCheck.keys|);
      y.(phase := if n == 0 then Idle else ChecksOut(y.cat.needsCheck.keys[..n]))
    case ReadChecks => if y.phase.ChecksOut? then y.(phase := ChecksRead(y.phase.hashes, LookedUp(y.rows, y.phase.hashes))) else y
    case ApplyChecks => if y.phase.ChecksRead? then y.(cat := ChecksApplied(s, y.cat, y.phase.hashes, y.phase.found), phase := Idle) else y
    case ChecksFail => y.(phase := Idle)
    case SwitchChecks(enabled) => y.(cat := CheckSwitched(s, y.cat, enabled))
  }

  /** The start: an empty catalog with index tracking on, beside whatever earlier runs left in the database. */
  ghost predicate Start(y: System) {
    y.phase == Idle && y.lookups == {} && y.jobs == {} &&
    exists maxPending: nat, check: bool :: y.cat == TrackingEnabled(Blank(), maxPending, check)
  }

  ghost predicate Run(s: Settings, y: System, steps: seq<Step>)
    decreases |steps|
  {
    steps == [] || (Enabled(s, y, steps[0]) && Run(s, Next(s, y, steps[0]), steps[1..]))
  }

  function After(s: Settings, y: System, steps: seq<Step>): System
    decreases |steps|
  {
    if steps == [] then y else After(s, Next(s, y, steps[0]), steps[1..])
  }
}
