/**
 * fetch_engine.py, run_job and finish_job: the peers of one claimed torrent are tried newest first, a few at a time.
 * What the event loop decides (which peers are known unreachable, which attempts are done when a wait returns) is
 * given as a sequence of turns, one for each round of the loop.
 */
module FetchJob {
  import opened ByteStrings
  import opened BoundedRecentMap
  import opened NodeIdentity
  import opened CatalogSpec

  const SKIPPED := "skipped_unreachable"
  const UNBLAMED: set<string> := {"local_error", "stopped"}

  datatype Outcome = Fetched(meta: Metadata) | Refused(reason: string)

  /** An attempt that is over, or one that was never made since the peer is known unreachable. */
  datatype Try = Try(peer: Peer, outcome: Outcome)

  datatype Job = Job(hash: Hash, waiting: seq<Peer>, running: set<Peer>, blamed: seq<Peer>, reason: string, meta: Option<Metadata>)

  /** One round of the loop: is the next peer known unreachable, and which attempts are done when the wait returns. */
  datatype Turn = Turn(unreachable: bool, done: seq<Try>)

  datatype Ending = Stores(meta: Metadata) | Fails(blamed: seq<Peer>, reason: string) | Releases

  function Reversed(peers: seq<Peer>): (r: seq<Peer>)
    ensures multiset(r) == multiset(peers) && |r| == |peers|
  {
    if peers == [] then []
    else
      assert peers == [peers[0]] + peers[1..];
      Reversed(peers[1..]) + [peers[0]]
  }

  function NewJob(h: Hash, peers: seq<Peer>): Job {
    Job(h, Reversed(peers), {}, [], "stopped", None)
  }

  predicate Over(job: Job) {
    job.meta.Some? || (job.waiting == [] && job.running == {})
  }

  // ----- one round

  predicate MayStart(parallel: nat, job: Job) {
    job.waiting != [] && |job.running| < parallel
  }

  predicate Skips(parallel: nat, job: Job, turn: Turn) {
    MayStart(parallel, job) && turn.unreachable
  }

  /** The job when it begins to wait. */
  function Awaited(parallel: nat, job: Job): Job {
    if MayStart(parallel, job) then job.(waiting := job.waiting[1..], running := job.running + {job.waiting[0]}) else job
  }

  /** One attempt is done. */
  function Settled(job: Job, t: Try): Job {
    match t.outcome
    case Fetched(meta) => job.(running := job.running - {t.peer}, meta := if job.meta.Some? then job.meta else Some(meta))
    case Refused(reason) =>
      job.(running := job.running - {t.peer}, reason := reason,
           blamed := if reason in UNBLAMED then job.blamed else job.blamed + [t.peer])
  }

  function SettledEach(job: Job, done: seq<Try>): Job
    decreases |done|
  {
    if done == [] then job else SettledEach(Settled(job, done[0]), done[1..])
  }

  function Skipped(job: Job): Job
    requires job.waiting != []
  {
    job.(waiting := job.waiting[1..], blamed := job.blamed + [job.waiting[0]], reason := SKIPPED)
  }

  function Taken(parallel: nat, job: Job, turn: Turn): Job {
    if Skips(parallel, job, turn) then Skipped(job) else SettledEach(Awaited(parallel, job), turn.done)
  }

  /** The wait has a timeout: one attempt was just started and another may follow. */
  predicate Timed(parallel: nat, job: Job) {
    MayStart(parallel, job) && MayStart(parallel, Awaited(parallel, job))
  }

  /** Done attempts were running, each once, and metadata belongs to the torrent asked for. */
  ghost predicate DoneOk(job: Job, done: seq<Try>) {
    && (forall i, j :: 0 <= i < j < |done| ==> done[i].peer != done[j].peer)
    && forall t :: t in done ==> t.peer in job.running && (t.outcome.Fetched? ==> t.outcome.meta.hash == job.hash)
  }

  /** What asyncio.wait can return: without a timeout at least one attempt is done. */
  ghost predicate Plausible(parallel: nat, job: Job, turn: Turn) {
    Skips(parallel, job, turn) || (DoneOk(Awaited(parallel, job), turn.done) && (turn.done != [] || Timed(parallel, job)))
  }

  // ----- a whole job

  function Finished(parallel: nat, job: Job, turns: seq<Turn>): Job
    decreases |turns|
  {
    if turns == [] || Over(job) then job else Finished(parallel, Taken(parallel, job, turns[0]), turns[1..])
  }

  ghost predicate PlausibleTurns(parallel: nat, job: Job, turns: seq<Turn>)
    decreases |turns|
  {
    turns == [] || Over(job) || (Plausible(parallel, job, turns[0]) && PlausibleTurns(parallel, Taken(parallel, job, turns[0]), turns[1..]))
  }

  /** finish_job: what the catalog is told. */
  function EndingOf(job: Job): Ending {
    if job.meta.Some? then Stores(job.meta.value) else if job.blamed != [] then Fails(job.blamed, job.reason) else Releases
  }

  /** The peers settled by a round, in order. */
  function TriesOf(parallel: nat, job: Job, turn: Turn): seq<Try> {
    if Skips(parallel, job, turn) then [Try(job.waiting[0], Refused(SKIPPED))] else turn.done
  }

  function AllTries(parallel: nat, job: Job, turns: seq<Turn>): seq<Try>
    decreases |turns|
  {
    if turns == [] || Over(job) then []
    else TriesOf(parallel, job, turns[0]) + AllTries(parallel, Taken(parallel, job, turns[0]), turns[1..])
  }

  /** The peers to blame, by what became of them. */
  function BlamedIn(tries: seq<Try>): seq<Peer> {
    if tries == [] then []
    else (if tries[0].outcome.Refused? && tries[0].outcome.reason !in UNBLAMED then [tries[0].peer] else []) + BlamedIn(tries[1..])
  }

  function PeersOf(tries: seq<Try>): (r: seq<Peer>)
    ensures |r| == |tries|
  {
    if tries == [] then [] else [tries[0].peer] + PeersOf(tries[1..])
  }

  function FirstFetched(tries: seq<Try>): Option<Metadata> {
    if tries == [] then None
    else if tries[0].outcome.Fetched? then Some(tries[0].outcome.meta) else FirstFetched(tries[1..])
  }

  function LastReason(tries: seq<Try>, before: string): string {
    if tries == [] then before
    else LastReason(tries[1..], if tries[0].outcome.Refused? then tries[0].outcome.reason else before)
  }

  /** Rounds still to come: a peer waiting needs two at most, an attempt running one. */
  function Work(job: Job): nat {
    2 * |job.waiting| + |job.running|
  }

  // ----- invariants

  ghost predicate JobOk(parallel: nat, job: Job) {
    Distinct(job.waiting) && (forall p :: p in job.waiting ==> p !in job.running) && |job.running| <= parallel &&
    (job.meta.Some? ==> job.meta.value.hash == job.hash)
  }

  lemma AwaitedOk(parallel: nat, job: Job)
    requires parallel >= 1 && JobOk(parallel, job) && !Over(job)
    ensures var j := Awaited(parallel, job);
            JobOk(parallel, j) && j.running != {} && Work(j) == Work(job) - (if MayStart(parallel, job) then 1 else 0) &&
            multiset(j.waiting) + multiset(j.running) == multiset(job.waiting) + multiset(job.running)
  {
    if MayStart(parallel, job) {
      var p := job.waiting[0];
      assert job.waiting == [p] + job.waiting[1..];
      assert |job.running + {p}| == |job.running| + 1;
      assert p in job.running + {p};
      assert multiset(job.running + {p}) == multiset(job.running) + multiset{p};
    } else if job.waiting != [] {
      assert |job.running| >= 1;
    }
  }

  lemma SettledOk(parallel: nat, job: Job, t: Try)
    requires JobOk(parallel, job) && t.peer in job.running && (t.outcome.Fetched? ==> t.outcome.meta.hash == job.hash)
    ensures var j := Settled(job, t);
            JobOk(parallel, j) && j.hash == job.hash && Work(j) == Work(job) - 1 && j.waiting == job.waiting &&
            multiset(j.running) + multiset{t.peer} == multiset(job.running)
  {
    assert |job.running - {t.peer}| == |job.running| - 1;
    assert multiset(job.running - {t.peer}) + multiset{t.peer} == multiset(job.running);
  }

  lemma {:induction false} SettledEachOk(parallel: nat, job: Job, done: seq<Try>)
    requires JobOk(parallel, job) && DoneOk(job, done)
    ensures var j := SettledEach(job, done);
            JobOk(parallel, j) && j.hash == job.hash && Work(j) == Work(job) - |done| && j.waiting == job.waiting &&
            multiset(j.running) + multiset(PeersOf(done)) == multiset(job.running)
    decreases |done|
  {
    hide JobOk, Work;
    if done == [] {
    } else {
      SettledOk(parallel, job, done[0]);
      SettledEachOk(parallel, Settled(job, done[0]), done[1..]);
      assert PeersOf(done) == [done[0].peer] + PeersOf(done[1..]);
    }
  }

  /** A round settles some peers, keeps the others, and brings the job nearer its end. */
  lemma TakenOk(parallel: nat, job: Job, turn: Turn)
    requires parallel >= 1 && JobOk(parallel, job) && !Over(job) && Plausible(parallel, job, turn)
    ensures var j := Taken(parallel, job, turn);
            JobOk(parallel, j) && j.hash == job.hash && Work(j) < Work(job) &&
            multiset(j.waiting) + multiset(j.running) + multiset(PeersOf(TriesOf(parallel, job, turn))) ==
              multiset(job.waiting) + multiset(job.running)
  {
    hide SettledEach, DoneOk;
    if Skips(parallel, job, turn) {
      assert job.waiting == [job.waiting[0]] + job.waiting[1..];
      assert PeersOf([Try(job.waiting[0], Refused(SKIPPED))]) == [job.waiting[0]];
    } else {
      AwaitedOk(parallel, job);
      SettledEachOk(parallel, Awaited(parallel, job), turn.done);
    }
  }

  /** What is reported is read off the tries alone. */
  ghost predicate Reports(job: Job, tries: seq<Try>, j: Job) {
    j.blamed == job.blamed + BlamedIn(tries) && j.reason == LastReason(tries, job.reason) &&
    j.meta == if job.meta.Some? then job.meta else FirstFetched(tries)
  }

  lemma {:induction false} SettledReports(job: Job, done: seq<Try>)
    ensures Reports(job, done, SettledEach(job, done))
    decreases |done|
  {
    if done != [] { SettledReports(Settled(job, done[0]), done[1..]); }
  }

  lemma {:induction false} BlamedJoin(a: seq<Try>, b: seq<Try>)
    ensures BlamedIn(a + b) == BlamedIn(a) + BlamedIn(b)
    decreases |a|
  {
    if a == [] {
      assert a + b == b;
    } else {
      assert (a + b)[0] == a[0] && (a + b)[1..] == a[1..] + b;
      BlamedJoin(a[1..], b);
    }
  }

  lemma {:induction false} PeersJoin(a: seq<Try>, b: seq<Try>)
    ensures PeersOf(a + b) == PeersOf(a) + PeersOf(b)
    decreases |a|
  {
    if a == [] {
      assert a + b == b;
    } else {
      assert (a + b)[0] == a[0] && (a + b)[1..] == a[1..] + b;
      PeersJoin(a[1..], b);
    }
  }

  lemma {:induction false} ReportsJoin(a: seq<Try>, b: seq<Try>, before: string)
    ensures BlamedIn(a + b) == BlamedIn(a) + BlamedIn(b)
    ensures LastReason(a + b, before) == LastReason(b, LastReason(a, before))
    ensures FirstFetched(a + b) == if FirstFetched(a).Some? then FirstFetched(a) else FirstFetched(b)
    ensures PeersOf(a + b) == PeersOf(a) + PeersOf(b)
    decreases |a|
  {
    hide BlamedIn, PeersOf;
    BlamedJoin(a, b);
    PeersJoin(a, b);
    if a == [] {
      assert a + b == b;
    } else {
      assert (a + b)[0] == a[0] && (a + b)[1..] == a[1..] + b;
      ReportsJoin(a[1..], b, if a[0].outcome.Refused? then a[0].outcome.reason else before);
    }
  }

  lemma TakenReports(parallel: nat, job: Job, turn: Turn)
    ensures Reports(job, TriesOf(parallel, job, turn), Taken(parallel, job, turn))
  {
    hide SettledEach;
    SettledReports(Awaited(parallel, job), turn.done);
    if Skips(parallel, job, turn) {
      var t := Try(job.waiting[0], Refused(SKIPPED));
      assert [t][1..] == [];
      assert BlamedIn([t]) == [t.peer] && LastReason([t], job.reason) == SKIPPED && FirstFetched([t]).None?;
    }
  }

  /** After any number of rounds: nobody is lost or tried twice. */
  lemma {:induction false} JobAccounts(parallel: nat, job: Job, turns: seq<Turn>)
    requires parallel >= 1 && JobOk(parallel, job) && PlausibleTurns(parallel, job, turns)
    ensures var j, tries := Finished(parallel, job, turns), AllTries(parallel, job, turns);
            JobOk(parallel, j) && j.hash == job.hash && (|turns| >= Work(job) ==> Over(j)) &&
            multiset(j.waiting) + multiset(j.running) + multiset(PeersOf(tries)) == multiset(job.waiting) + multiset(job.running)
    decreases |turns|
  {
    hide JobOk, Taken, TriesOf, Over, Plausible, Work, LastReason, BlamedIn, FirstFetched;
    if turns == [] {
      NoWork(job);
    } else if !Over(job) {
      TakenOk(parallel, job, turns[0]);
      var j := Taken(parallel, job, turns[0]);
      JobAccounts(parallel, j, turns[1..]);
      ReportsJoin(TriesOf(parallel, job, turns[0]), AllTries(parallel, j, turns[1..]), job.reason);
    }
  }

  /** What a job reports is what its tries say. */
  lemma {:induction false} JobReports(parallel: nat, job: Job, turns: seq<Turn>)
    ensures Reports(job, AllTries(parallel, job, turns), Finished(parallel, job, turns))
    decreases |turns|
  {
    hide Taken, TriesOf, Over, LastReason, BlamedIn, FirstFetched, PeersOf;
    if turns == [] || Over(job) {
      NoTries(job.reason);
    } else {
      TakenReports(parallel, job, turns[0]);
      var j := Taken(parallel, job, turns[0]);
      JobReports(parallel, j, turns[1..]);
      ReportsJoin(TriesOf(parallel, job, turns[0]), AllTries(parallel, j, turns[1..]), job.reason);
    }
  }

  lemma NoTries(before: string)
    ensures BlamedIn([]) == [] && LastReason([], before) == before && FirstFetched([]).None?
  {
  }

  lemma NoWork(job: Job)
    ensures Work(job) <= 0 ==> Over(job)
  {
  }

  /**
   * Every job ends within two rounds for each peer. It stores the first metadata any attempt brought; without any it has
   * tried every peer once, and fails with just those that are to blame, or lets go of the torrent when none is.
   */
  lemma JobEnds(parallel: nat, h: Hash, peers: seq<Peer>, turns: seq<Turn>)
    requires parallel >= 1 && Distinct(peers) && PlausibleTurns(parallel, NewJob(h, peers), turns) && |turns| >= 2 * |peers|
    ensures var job, tries := Finished(parallel, NewJob(h, peers), turns), AllTries(parallel, NewJob(h, peers), turns);
            Over(job) && multiset(PeersOf(tries)) <= multiset(peers) &&
            match EndingOf(job)
            case Stores(meta) => FirstFetched(tries) == Some(meta) && meta.hash == h
            case Fails(blamed, reason) =>
              FirstFetched(tries).None? && multiset(PeersOf(tries)) == multiset(peers) && blamed == BlamedIn(tries) && blamed != []
            case Releases => FirstFetched(tries).None? && multiset(PeersOf(tries)) == multiset(peers) && BlamedIn(tries) == []
  {
    hide Finished, AllTries, BlamedIn, PeersOf, FirstFetched, LastReason, PlausibleTurns;
    var job := NewJob(h, peers);
    ReversedDistinct(peers);
    BegunOk(parallel, job);
    JobAccounts(parallel, job, turns);
    JobReports(parallel, job, turns);
    var j, tries := Finished(parallel, job, turns), AllTries(parallel, job, turns);
    assert multiset(job.waiting) + multiset(job.running) == multiset(peers);
    if j.meta.None? {
      assert multiset(j.waiting) + multiset(j.running) == multiset{};
    }
  }

  lemma {:induction false} ReversedDistinct(peers: seq<Peer>)
    requires Distinct(peers)
    ensures Distinct(Reversed(peers))
  {
    if peers != [] {
      ReversedDistinct(peers[1..]);
      assert peers[0] !in multiset(peers[1..]);
      assert peers[0] !in Reversed(peers[1..]) by { assert peers[0] !in multiset(Reversed(peers[1..])); }
      DistinctAppend(Reversed(peers[1..]), peers[0]);
    }
  }

  // ----- run_job and finish_job in their own form

  /**
   * run_job up to finish_job, given what the event loop decides in each round. The loop ends before the turns run out,
   * and no wait is entered with nothing to wait for.
   */
  method RunJob(parallel: nat, h: Hash, peers: seq<Peer>, turns: seq<Turn>) returns (ending: Ending)
    requires parallel >= 1 && peers != [] && Distinct(peers)
    requires PlausibleTurns(parallel, NewJob(h, peers), turns) && |turns| >= 2 * |peers|
    ensures ending == EndingOf(Finished(parallel, NewJob(h, peers), turns))
    ensures var tries := AllTries(parallel, NewJob(h, peers), turns);
            match ending
            case Stores(meta) => FirstFetched(tries) == Some(meta) && meta.hash == h
            case Fails(blamed, reason) => FirstFetched(tries).None? && blamed == BlamedIn(tries) && blamed != [] && reason == LastReason(tries, "stopped")
            case Releases => FirstFetched(tries).None? && BlamedIn(tries) == []
  {
    hide Reversed, Distinct, PlausibleTurns, Finished, AllTries, BlamedIn, FirstFetched, LastReason, Plausible, DoneOk, SettledEach, PeersOf;
    ghost var begun := NewJob(h, peers);
    ReversedDistinct(peers);
    JobEnds(parallel, h, peers, turns);
    JobReports(parallel, begun, turns);
    var waiting, running: set<Peer>, blamed := Reversed(peers), {}, [];
    var reason, metadata: Option<Metadata> := "stopped", None;
    var i := 0;
    BegunOk(parallel, begun);
    while metadata.None? && (waiting != [] || running != {})
      invariant 0 <= i <= |turns|
      invariant var job := Job(h, waiting, running, blamed, reason, metadata);
                JobOk(parallel, job) && PlausibleTurns(parallel, job, turns[i..]) && i + Work(job) <= |turns| &&
                Finished(parallel, job, turns[i..]) == Finished(parallel, begun, turns)
      decreases |turns| - i
    {
      ghost var job := Job(h, waiting, running, blamed, reason, metadata);
      assert i < |turns| by { NoWork(job); }
      var turn := turns[i];
      RoundUnfolds(parallel, job, turns, i);
      TakenOk(parallel, job, turn);
      AwaitedOk(parallel, job);
      i := i + 1;
      if waiting != [] && |running| < parallel {
        var peer := waiting[0];
        waiting := waiting[1..];
        if turn.unreachable {
          blamed, reason := blamed + [peer], SKIPPED;
          continue;
        }
        running := running + {peer};
      }
      assert running != {};
      blamed, reason, metadata, running := SettleAll(Job(h, waiting, running, blamed, reason, metadata), turn.done);
    }
    var last := Job(h, waiting, running, blamed, reason, metadata);
    assert Finished(parallel, last, turns[i..]) == last by { FinishedWhenOver(parallel, last, turns[i..]); }
    ending := if metadata.Some? then Stores(metadata.value) else if blamed != [] then Fails(blamed, reason) else Releases;
  }

  /** The loop over the attempts that are done. */
  method SettleAll(job: Job, done: seq<Try>) returns (blamed: seq<Peer>, reason: string, metadata: Option<Metadata>, running: set<Peer>)
    ensures job.(blamed := blamed, reason := reason, meta := metadata, running := running) == SettledEach(job, done)
  {
    blamed, reason, metadata, running := job.blamed, job.reason, job.meta, job.running;
    assert done[0..] == done;
    for i := 0 to |done|
      invariant SettledEach(job.(blamed := blamed, reason := reason, meta := metadata, running := running), done[i..]) == SettledEach(job, done)
    {
      assert done[i..][0] == done[i] && done[i..][1..] == done[i + 1..];
      running := running - {done[i].peer};
      match done[i].outcome
      case Fetched(meta) =>
        if metadata.None? { metadata := Some(meta); }
      case Refused(why) =>
        reason := why;
        if why !in UNBLAMED { blamed := blamed + [done[i].peer]; }
    }
  }

  lemma BegunOk(parallel: nat, job: Job)
    requires Distinct(job.waiting) && job.running == {} && job.meta.None?
    ensures JobOk(parallel, job) && Work(job) == 2 * |job.waiting|
  {
  }

  lemma FinishedWhenOver(parallel: nat, job: Job, turns: seq<Turn>)
    requires Over(job)
    ensures Finished(parallel, job, turns) == job
  {
  }

  lemma RoundUnfolds(parallel: nat, job: Job, turns: seq<Turn>, i: nat)
    requires i < |turns| && !Over(job) && PlausibleTurns(parallel, job, turns[i..])
    ensures Plausible(parallel, job, turns[i]) && PlausibleTurns(parallel, Taken(parallel, job, turns[i]), turns[i + 1..])
    ensures Finished(parallel, job, turns[i..]) == Finished(parallel, Taken(parallel, job, turns[i]), turns[i + 1..])
  {
    hide Taken, Plausible, Over;
    assert turns[i..][0] == turns[i] && turns[i..][1..] == turns[i + 1..];
  }
}
