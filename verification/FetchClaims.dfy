/**
 * fetch_engine.py, main: the fetch thread claims torrents, runs a job for each and ends every claim once, beside the
 * other threads of IndexThread. The entries being fetched are the live jobs.
 */
module FetchClaims {
  import opened ByteStrings
  import opened BoundedRecentMap
  import opened NodeIdentity
  import opened CatalogSpec
  import opened CatalogIndexes
  import opened CatalogMethods
  import opened CatalogEviction
  import opened CatalogEntries
  import opened IndexThread
  import opened IndexThreadSafety
  import J = FetchJob

  datatype Engine = Engine(sys: System, jobs: map<Hash, J.Job>)

  datatype EngineStep =
    | Other(step: Step)
    | ClaimJobs(ids: seq<Id>, free: nat)
    | Round(h: Hash, turn: J.Turn)
    | EndJob(h: Hash, now: real)
    // the engine stops while the job waits
    | CancelJob(h: Hash)

  predicate OfFetches(step: Step) {
    step.ClaimFetches? || step.StoreMetadata? || step.FailFetch? || step.ReleaseFetch?
  }

  function EndingSteps(h: Hash, ending: J.Ending, now: real): seq<Step> {
    match ending
    case Stores(meta) => [StoreMetadata(meta, now)]
    case Fails(blamed, reason) => [FailFetch(h, blamed, reason, now)]
    case Releases => [ReleaseFetch(h)]
  }

  /** What a step calls on the catalog. */
  function CatalogSteps(x: Engine, step: EngineStep): seq<Step> {
    match step
    case Other(st) => [st]
    case ClaimJobs(ids, free) => [ClaimFetches(ids, free)]
    case Round(_, _) => []
    case EndJob(h, now) => if h in x.jobs then EndingSteps(h, J.EndingOf(x.jobs[h]), now) else []
    case CancelJob(h) => [ReleaseFetch(h)]
  }

  function PeersAt(c: Catalog, h: Hash): seq<Peer> {
    if h in c.entries.m then At(c, c.entries.m[h]).peers else []
  }

  function NewJobs(c: Catalog, ids: seq<Id>): map<Hash, J.Job> {
    map h | h in HashesOf(c, ids) :: J.NewJob(h, PeersAt(c, h))
  }

  function Stepped(s: Settings, parallel: nat, x: Engine, step: EngineStep): Engine {
    var sys := After(s, x.sys, CatalogSteps(x, step));
    match step
    case Other(_) => Engine(sys, x.jobs)
    case ClaimJobs(ids, _) => Engine(sys, x.jobs + NewJobs(x.sys.cat, ids))
    case Round(h, turn) => if h in x.jobs then Engine(x.sys, x.jobs[h := J.Taken(parallel, x.jobs[h], turn)]) else x
    case EndJob(h, _) => Engine(sys, x.jobs - {h})
    case CancelJob(h) => Engine(sys, x.jobs - {h})
  }

  ghost predicate MayStep(s: Settings, parallel: nat, x: Engine, step: EngineStep) {
    match step
    case Other(st) => !OfFetches(st) && Enabled(s, x.sys, st)
    case ClaimJobs(ids, free) => TopCandidates(x.sys.cat, ids, free)
    case Round(h, turn) => h in x.jobs && !J.Over(x.jobs[h]) && J.Plausible(parallel, x.jobs[h], turn)
    case EndJob(h, _) => h in x.jobs && J.Over(x.jobs[h])
    case CancelJob(h) => h in x.jobs && !J.Over(x.jobs[h])
  }

  ghost predicate JobsOk(parallel: nat, jobs: map<Hash, J.Job>) {
    forall h :: h in jobs ==> jobs[h].hash == h && J.JobOk(parallel, jobs[h])
  }

  ghost predicate EngineOk(s: Settings, parallel: nat, x: Engine) {
    Sound(s, x.sys) && x.jobs.Keys == x.sys.jobs && JobsOk(parallel, x.jobs)
  }

  // ----- what each step keeps

  lemma OthersKeepJobs(s: Settings, y: System, step: Step)
    requires !OfFetches(step)
    ensures Next(s, y, step).jobs == y.jobs
  {
  }

  lemma JobsAfter(s: Settings, y: System, step: Step)
    ensures step.ClaimFetches? ==> Next(s, y, step).jobs == y.jobs + HashesOf(y.cat, step.ids)
    ensures step.StoreMetadata? ==> Next(s, y, step).jobs == y.jobs - {step.meta.hash}
    ensures step.FailFetch? || step.ReleaseFetch? ==> Next(s, y, step).jobs == y.jobs - {step.h}
  {
    hide FetchingEach, Stored, FetchFailed, FetchReleased;
  }

  /** A claimed torrent has peers to try, all different. */
  lemma NewJobOk(s: Settings, parallel: nat, y: System, ids: seq<Id>, free: nat, h: Hash)
    requires Sound(s, y) && TopCandidates(y.cat, ids, free) && h in HashesOf(y.cat, ids)
    ensures var job := J.NewJob(h, PeersAt(y.cat, h));
            J.JobOk(parallel, job) && job.hash == h && !J.Over(job)
  {
    hide Sound, TopCandidates, Indexed, EntriesOk, Claims, PhaseOk, RowsExist, Placed, At, BudgetOk, StageOk, NotStranded, J.Reversed, Distinct;
    SoundParts(s, y);
    CandidatesHere(s, y.cat, ids, free);
    var id :| id in ids && At(y.cat, id).hash == h;
    EntryAt(s, y, h);
    var peers := PeersAt(y.cat, h);
    J.ReversedDistinct(peers);
    J.BegunOk(parallel, J.NewJob(h, peers));
  }

  lemma ClaimJobsOk(s: Settings, parallel: nat, x: Engine, ids: seq<Id>, free: nat)
    requires EngineOk(s, parallel, x) && MayStep(s, parallel, x, ClaimJobs(ids, free))
    ensures var step := ClaimJobs(ids, free);
            Run(s, x.sys, CatalogSteps(x, step)) && EngineOk(s, parallel, Stepped(s, parallel, x, step))
  {
    hide Sound, TopCandidates, Next, After, Run, J.JobOk, J.NewJob, HashesOf, PeersAt;
    var step := ClaimFetches(ids, free);
    OneStep(s, x.sys, step);
    JobsAfter(s, x.sys, step);
    forall h | h in HashesOf(x.sys.cat, ids) ensures J.JobOk(parallel, J.NewJob(h, PeersAt(x.sys.cat, h))) && J.NewJob(h, PeersAt(x.sys.cat, h)).hash == h {
      NewJobOk(s, parallel, x.sys, ids, free, h);
    }
  }

  lemma EndJobOk(s: Settings, parallel: nat, x: Engine, h: Hash, now: real)
    requires EngineOk(s, parallel, x) && MayStep(s, parallel, x, EndJob(h, now))
    ensures var step := EndJob(h, now);
            Run(s, x.sys, CatalogSteps(x, step)) && EngineOk(s, parallel, Stepped(s, parallel, x, step)) && |CatalogSteps(x, step)| == 1
  {
    hide Sound, Next, After, Run, Distinct;
    var ending := J.EndingOf(x.jobs[h]);
    var step := EndingSteps(h, ending, now)[0];
    OneStep(s, x.sys, step);
    JobsAfter(s, x.sys, step);
  }

  lemma RoundOk(s: Settings, parallel: nat, x: Engine, h: Hash, turn: J.Turn)
    requires parallel >= 1 && EngineOk(s, parallel, x) && MayStep(s, parallel, x, Round(h, turn))
    ensures EngineOk(s, parallel, Stepped(s, parallel, x, Round(h, turn)))
  {
    hide Sound, After, J.JobOk, J.Taken, J.Over, J.Plausible, J.Work;
    J.TakenOk(parallel, x.jobs[h], turn);
  }

  lemma CancelOk(s: Settings, parallel: nat, x: Engine, h: Hash)
    requires EngineOk(s, parallel, x) && MayStep(s, parallel, x, CancelJob(h))
    ensures var step := CancelJob(h);
            Run(s, x.sys, CatalogSteps(x, step)) && EngineOk(s, parallel, Stepped(s, parallel, x, step))
  {
    hide Sound, Next, After, Run, J.JobOk, J.Over;
    OneStep(s, x.sys, ReleaseFetch(h));
    JobsAfter(s, x.sys, ReleaseFetch(h));
  }

  lemma OthersOk(s: Settings, parallel: nat, x: Engine, step: Step)
    requires EngineOk(s, parallel, x) && MayStep(s, parallel, x, Other(step))
    ensures Run(s, x.sys, [step]) && EngineOk(s, parallel, Stepped(s, parallel, x, Other(step)))
  {
    hide Sound, Enabled, Next, After, Run, J.JobOk;
    OneStep(s, x.sys, step);
    OthersKeepJobs(s, x.sys, step);
  }

  lemma EngineStepOk(s: Settings, parallel: nat, x: Engine, step: EngineStep)
    requires parallel >= 1 && EngineOk(s, parallel, x) && MayStep(s, parallel, x, step)
    ensures Run(s, x.sys, CatalogSteps(x, step)) && EngineOk(s, parallel, Stepped(s, parallel, x, step))
    ensures Stepped(s, parallel, x, step).sys == After(s, x.sys, CatalogSteps(x, step))
  {
    hide EngineOk, MayStep, After, Run, HashesOf, NewJobs, J.Taken, J.EndingOf;
    NoSteps(s, x.sys);
    match step
    case Other(st) => OthersOk(s, parallel, x, st);
    case ClaimJobs(ids, free) => ClaimJobsOk(s, parallel, x, ids, free);
    case Round(h, turn) => RoundOk(s, parallel, x, h, turn);
    case EndJob(h, now) => EndJobOk(s, parallel, x, h, now);
    case CancelJob(h) => CancelOk(s, parallel, x, h);
  }

  // ----- runs

  ghost predicate EngineRun(s: Settings, parallel: nat, x: Engine, steps: seq<EngineStep>)
    decreases |steps|
  {
    steps == [] || (MayStep(s, parallel, x, steps[0]) && EngineRun(s, parallel, Stepped(s, parallel, x, steps[0]), steps[1..]))
  }

  function EngineAfter(s: Settings, parallel: nat, x: Engine, steps: seq<EngineStep>): Engine
    decreases |steps|
  {
    if steps == [] then x else EngineAfter(s, parallel, Stepped(s, parallel, x, steps[0]), steps[1..])
  }

  function AllSteps(s: Settings, parallel: nat, x: Engine, steps: seq<EngineStep>): seq<Step>
    decreases |steps|
  {
    if steps == [] then [] else CatalogSteps(x, steps[0]) + AllSteps(s, parallel, Stepped(s, parallel, x, steps[0]), steps[1..])
  }

  /** A run of the engine is a run of the claim protocol. */
  lemma {:induction false} EngineFollowsProtocol(s: Settings, parallel: nat, x: Engine, steps: seq<EngineStep>)
    requires parallel >= 1 && EngineOk(s, parallel, x) && EngineRun(s, parallel, x, steps)
    ensures var all := AllSteps(s, parallel, x, steps);
            Run(s, x.sys, all) && After(s, x.sys, all) == EngineAfter(s, parallel, x, steps).sys
    ensures EngineOk(s, parallel, EngineAfter(s, parallel, x, steps))
    decreases |steps|
  {
    hide EngineOk, MayStep, Stepped, CatalogSteps, Run, After;
    if steps == [] {
      NoSteps(s, x.sys);
    } else {
      EngineStepOk(s, parallel, x, steps[0]);
      var x1 := Stepped(s, parallel, x, steps[0]);
      EngineFollowsProtocol(s, parallel, x1, steps[1..]);
      RunJoin(s, x.sys, CatalogSteps(x, steps[0]), AllSteps(s, parallel, x1, steps[1..]));
    }
  }

  /** In every state a run can reach the entries being fetched are the live jobs, and the running count is their number. */
  lemma FetchesMatchJobs(s: Settings, parallel: nat, x: Engine, steps: seq<EngineStep>)
    requires parallel >= 1 && Start(x.sys) && x.jobs == map[] && EngineRun(s, parallel, x, steps)
    ensures var z := EngineAfter(s, parallel, x, steps);
            Tagged(z.sys.cat, InState(InProgress)) == z.jobs.Keys && z.sys.cat.counts.inProgress == |z.jobs|
  {
    hide EngineRun, EngineAfter, AllSteps, Start, Run, After;
    StartIdle(s, x.sys);
    EngineFollowsProtocol(s, parallel, x, steps);
    ClaimsMatchWork(s, x.sys, AllSteps(s, parallel, x, steps));
    var z := EngineAfter(s, parallel, x, steps);
    assert |z.jobs| == |z.jobs.Keys|;
  }

  lemma StartIdle(s: Settings, y: System)
    requires Start(y)
    ensures y.jobs == {} && Sound(s, y)
  {
    hide Sound;
    StartSound(s, y);
  }

  /** A job whose engine goes on ends with one call on the catalog, and its torrent is then no longer being fetched by it. */
  lemma EachClaimEndsOnce(s: Settings, parallel: nat, x: Engine, step: EngineStep, h: Hash)
    requires parallel >= 1 && EngineOk(s, parallel, x) && MayStep(s, parallel, x, step) && h in x.jobs
    ensures var x' := Stepped(s, parallel, x, step);
            h !in x'.jobs ==>
              |CatalogSteps(x, step)| == 1 && h !in x'.sys.jobs &&
              match CatalogSteps(x, step)[0]
              case StoreMetadata(meta, _) => meta.hash == h
              case FailFetch(g, tried, _, _) => g == h && tried != []
              case ReleaseFetch(g) => g == h
              case _ => false
  {
    hide Sound, Next, After, Run, TopCandidates, J.Taken, J.Over, J.Plausible, Distinct;
    EngineStepOk(s, parallel, x, step);
  }

  /** A claimed job does not start over: every round brings it nearer its end, and nothing else touches it. */
  lemma RoundsRunOut(s: Settings, parallel: nat, x: Engine, step: EngineStep, h: Hash)
    requires parallel >= 1 && EngineOk(s, parallel, x) && MayStep(s, parallel, x, step)
    requires h in x.jobs && h in Stepped(s, parallel, x, step).jobs
    ensures var job, job' := x.jobs[h], Stepped(s, parallel, x, step).jobs[h];
            if step.Round? && step.h == h then J.Work(job') < J.Work(job) else job' == job
  {
    hide Sound, Next, After, Run, J.Taken, J.Over, J.Plausible, J.JobOk, TopCandidates;
    match step
    case Other(_) =>
    case ClaimJobs(ids, free) => ClaimedAnew(s, parallel, x, ids, free, h);
    case Round(g, turn) => if g == h { J.TakenOk(parallel, x.jobs[h], turn); }
    case EndJob(_, _) =>
    case CancelJob(_) =>
  }

  /** A torrent with a job is not claimed again. */
  lemma ClaimedAnew(s: Settings, parallel: nat, x: Engine, ids: seq<Id>, free: nat, h: Hash)
    requires EngineOk(s, parallel, x) && TopCandidates(x.sys.cat, ids, free) && h in x.jobs
    ensures h !in HashesOf(x.sys.cat, ids)
  {
    hide Sound, TopCandidates, Indexed, EntriesOk, PhaseOk, RowsExist, Placed, At, JobsOk, EntryOk;
    SoundParts(s, x.sys);
    CandidatesHere(s, x.sys.cat, ids, free);
    assert ClaimsAt(x.sys, h);
  }
}
