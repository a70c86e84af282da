/**
 * dht_crawler.py, start_pending_lookups and the callbacks of its lookup manager: the crawler thread with the lookup
 * manager of DhtLookup in it, beside the other threads of IndexThread. The catalog's lookup claims are the manager's
 * lookups, and every call the crawler makes on the catalog is one the claim protocol allows.
 */
module CrawlerClaims {
  import opened ByteStrings
  import opened BoundedRecentMap
  import opened NodeIdentity
  import opened CatalogSpec
  import opened CatalogIndexes
  import opened IndexThread
  import opened IndexThreadSafety
  import L = DhtLookup
  import P = DhtLookupProofs
  import R = DhtLookupRuns

  /**
   * The three threads with the lookup manager. Some of the manager's callbacks may not have reached the catalog yet:
   * `delivered` of its events have. `claimed` are the hashes start_pending_lookups has claimed and not come to yet.
   */
  datatype Crawler = Crawler(sys: System, m: L.Manager, delivered: nat, claimed: seq<Hash>)

  datatype CrawlStep =
    | Other(step: Step)
    | Claim(now: real)
    | StartNext(now: real, seeds: seq<Node>, hint: Option<Node>)
    | Invoke(call: R.Call)
    | Deliver(at: real)

  /** The crawler thread is between two rounds of its loop. */
  predicate AtRest(x: Crawler) {
    x.claimed == [] && x.delivered == |x.m.events|
  }

  /** The steps of the catalog that belong to lookups. */
  predicate OfLookups(step: Step) {
    step.ClaimLookups? || step.ReleaseLookup? || step.FinishLookup?
  }

  function Smaller(a: int, b: int): int {
    if a < b then a else b
  }

  /** How many lookups a round may start: free slots, room for fetchable torrents, whole tokens. */
  function Slots(c: L.Config, m: L.Manager, cat: Catalog, target: nat): int {
    Smaller(Smaller(c.limits.maxActive - |m.active.m|, target - |cat.fetchable|), m.tokens.Floor)
  }

  function CallbackSteps(e: L.Event, at: real): seq<Step> {
    match e
    case Started(_) => []
    case Sent(_, _, _) => []
    case Streamed(h, peers) => [StreamPeers(h, peers)]
    case Finished(h, peers) => [IndexThread.FinishLookup(h, peers, at)]
  }

  /** What a step calls on the catalog. */
  function CatalogSteps(c: L.Config, target: nat, x: Crawler, step: CrawlStep): seq<Step> {
    match step
    case Other(st) => [st]
    case Claim(now) =>
      var slots := Slots(c, L.Refilled(c, x.m, now), x.sys.cat, target);
      if slots <= 0 then [] else [ClaimLookups(slots, now)]
    case StartNext(now, seeds, hint) =>
      if x.claimed == [] || L.StartedLookup(c, x.m, x.claimed[0], seeds, now, hint).1 then [] else [ReleaseLookup(x.claimed[0])]
    case Invoke(_) => []
    case Deliver(at) => if x.delivered < |x.m.events| then CallbackSteps(x.m.events[x.delivered], at) else []
  }

  function Crawled(s: Settings, c: L.Config, target: nat, x: Crawler, step: CrawlStep): Crawler {
    var sys := After(s, x.sys, CatalogSteps(c, target, x, step));
    match step
    case Other(_) => x.(sys := sys)
    case Claim(now) =>
      var m := L.Refilled(c, x.m, now);
      var slots := Slots(c, m, x.sys.cat, target);
      Crawler(sys, m, x.delivered, if slots <= 0 then [] else NewestDue(x.sys.cat, x.sys.cat.needsLookup.keys, slots, now))
    case StartNext(now, seeds, hint) =>
      if x.claimed == [] then x
      else
        var m := L.StartedLookup(c, x.m, x.claimed[0], seeds, now, hint).0;
        Crawler(sys, m, |m.events|, x.claimed[1..])
    case Invoke(call) => x.(m := R.Applied(c, x.m, call))
    case Deliver(_) => x.(sys := sys, delivered := x.delivered + 1)
  }

  /** The other threads run at any time; the crawler thread finishes a call and its callbacks before the next. */
  ghost predicate MayCrawl(s: Settings, x: Crawler, k: P.Clock, step: CrawlStep) {
    match step
    case Other(st) => !OfLookups(st) && Enabled(s, x.sys, st)
    case Claim(now) => AtRest(x) && P.Timely(k, now)
    case StartNext(now, _, _) => x.claimed != [] && P.Timely(k, now)
    case Invoke(call) => AtRest(x) && !call.Start? && P.Timely(k, call.now)
    case Deliver(_) => x.delivered < |x.m.events|
  }

  function ClockNext(k: P.Clock, step: CrawlStep): P.Clock {
    if step.Invoke? then R.ClockAfter(k, step.call) else k
  }

  // ----- the invariant

  predicate Running(x: Crawler, h: Hash)
    requires x.delivered <= |x.m.events|
  {
    R.Streaming(x.m.events[..x.delivered], h).Some?
  }

  /** The catalog's claims: what is claimed and not started, and what runs as far as the catalog was told. */
  ghost predicate ClaimsMatch(x: Crawler) {
    x.delivered <= |x.m.events| && forall h: Hash :: h in x.sys.lookups <==> h in x.claimed || Running(x, h)
  }

  ghost predicate CursorOk(x: Crawler) {
    && x.delivered <= |x.m.events| && (x.claimed != [] ==> x.delivered == |x.m.events|)
    && forall i :: x.delivered <= i < |x.m.events| ==> !x.m.events[i].Started?
  }

  /** There is a slot for every claim, and with one query at a time a token too. */
  ghost predicate ClaimsFit(c: L.Config, x: Crawler) {
    && Distinct(x.claimed) && (forall h :: h in x.claimed ==> h !in x.m.active.m)
    && |x.m.active.m| + |x.claimed| <= c.limits.maxActive
    && (c.limits.alpha == 1 ==> |x.claimed| as real <= x.m.tokens)
  }

  ghost predicate CrawlOk(s: Settings, c: L.Config, x: Crawler, w: map<Tid, P.Birth>, k: P.Clock) {
    Sound(s, x.sys) && R.Settings(c, k) && R.Inv(c, x.m, w, k) && CursorOk(x) && ClaimsMatch(x) && ClaimsFit(c, x)
  }

  // ----- steps of the other threads

  lemma OthersKeepLookups(s: Settings, y: System, step: Step)
    requires !OfLookups(step)
    ensures Next(s, y, step).lookups == y.lookups
  {
  }

  lemma LookupsAfter(s: Settings, y: System, step: Step)
    requires OfLookups(step)
    ensures Next(s, y, step).lookups ==
            match step
            case ClaimLookups(limit, now) => y.lookups + set h | h in NewestDue(y.cat, y.cat.needsLookup.keys, limit, now)
            case ReleaseLookup(h) => y.lookups - {h}
            case FinishLookup(h, _, _) => y.lookups - {h}
            case _ => y.lookups
  {
    hide NewestDue, LookupsClaimed, LookupReleased, LookupFinished;
  }

  lemma OtherOk(s: Settings, c: L.Config, target: nat, x: Crawler, w: map<Tid, P.Birth>, k: P.Clock, step: Step)
    requires CrawlOk(s, c, x, w, k) && MayCrawl(s, x, k, Other(step))
    ensures Run(s, x.sys, [step]) && CrawlOk(s, c, Crawled(s, c, target, x, Other(step)), w, k)
  {
    hide Sound, Enabled, Next, R.Inv, R.Settings, Distinct, After, Run, R.Streaming;
    OneStep(s, x.sys, step);
    OthersKeepLookups(s, x.sys, step);
  }

  // ----- start_pending_lookups

  lemma {:induction false} DueOnce(cat: Catalog, keys: seq<Hash>, limit: nat, now: real)
    requires Distinct(keys)
    ensures var due := NewestDue(cat, keys, limit, now);
            Distinct(due) && forall h :: h in due ==> h in keys && h in cat.needsLookup.m
    decreases |keys|
  {
    hide At;
    if keys != [] && limit > 0 {
      var h, rest := keys[|keys| - 1], keys[..|keys| - 1];
      DueOnce(cat, rest, limit - 1, now);
      DueOnce(cat, rest, limit, now);
      assert h !in rest;
      var due := NewestDue(cat, rest, limit - 1, now);
      assert forall i :: 0 <= i < |due| ==> due[i] in due;
    }
  }

  /** A torrent that is due has no lookup. */
  lemma DueUnclaimed(s: Settings, y: System, h: Hash)
    requires Sound(s, y) && h in y.cat.needsLookup.m
    ensures h !in y.lookups
  {
    hide EntriesOk, PhaseOk, RowsExist, Counted, Queued, InOrder;
    assert ExactAt(s, y.cat, h) && ClaimsAt(y, h);
  }

  /** All the events are delivered: what the catalog was told is what runs. */
  lemma RunningIsActive(c: L.Config, m: L.Manager, w: map<Tid, P.Birth>, k: P.Clock, h: Hash)
    requires R.Inv(c, m, w, k)
    ensures R.Streaming(m.events[..|m.events|], h).Some? <==> h in m.active.m
  {
    hide P.TablesAgree, P.CapsHold, P.Budgeted, R.EventsOk, R.StartedCount, R.FinishedCount, R.Streaming;
    assert m.events[..|m.events|] == m.events;
  }

  lemma ClaimOk(s: Settings, c: L.Config, target: nat, x: Crawler, w: map<Tid, P.Birth>, k: P.Clock, now: real)
    requires CrawlOk(s, c, x, w, k) && MayCrawl(s, x, k, Claim(now))
    ensures var step := Claim(now);
            Run(s, x.sys, CatalogSteps(c, target, x, step)) && CrawlOk(s, c, Crawled(s, c, target, x, step), w, k)
  {
    hide Sound, R.Inv, R.Settings, R.Streaming, NewestDue, Distinct, L.Refilled, Next, After, Run;
    NoSteps(s, x.sys);
    var m := L.Refilled(c, x.m, now);
    R.RefillInv(c, x.m, w, k, now, now);
    RefilledSame(c, x.m, now);
    var slots := Slots(c, m, x.sys.cat, target);
    ActiveFits(c, m, w, k);
    if slots > 0 {
      var step := ClaimLookups(slots, now);
      OneStep(s, x.sys, step);
      LookupsAfter(s, x.sys, step);
      var keys := x.sys.cat.needsLookup.keys;
      NeedsOrdered(s, x.sys);
      DueOnce(x.sys.cat, keys, slots, now);
      forall h: Hash ensures Running(x, h) <==> h in x.m.active.m { RunningIsActive(c, x.m, w, k, h); }
      var due := NewestDue(x.sys.cat, keys, slots, now);
      forall h | h in due ensures h !in m.active.m { DueUnclaimed(s, x.sys, h); assert !Running(x, h); }
    }
  }

  lemma NeedsOrdered(s: Settings, y: System)
    requires Sound(s, y)
    ensures Distinct(y.cat.needsLookup.keys)
  {
    hide EntriesOk, PhaseOk, RowsExist, Counted, Queued, Claims, Exact;
  }

  lemma RefilledSame(c: L.Config, m: L.Manager, now: real)
    ensures L.Refilled(c, m, now).events == m.events && L.Refilled(c, m, now).active == m.active
  {
  }

  lemma ActiveFits(c: L.Config, m: L.Manager, w: map<Tid, P.Birth>, k: P.Clock)
    requires R.Inv(c, m, w, k)
    ensures |m.active.m| <= c.limits.maxActive && 0.0 <= m.tokens <= c.limits.queriesPerSecond
  {
    hide P.TablesAgree, R.Lifecycle, P.LookupOk, P.BirthsOk;
  }

  /** With one query at a time a start takes one token at most, and a refusal none. */
  lemma StartTokens(c: L.Config, m: L.Manager, h: Hash, seeds: seq<Node>, now: real, hint: Option<Node>)
    requires c.limits.alpha == 1 && c.limits.maxQueries >= 1 && c.limits.queriesPerSecond > 0.0 && m.tokens <= c.limits.queriesPerSecond
    ensures var (m', ok) := L.StartedLookup(c, m, h, seeds, now, hint);
            m'.tokens >= m.tokens - (if ok then 1.0 else 0.0)
  {
    hide L.Shortlisted, L.Begun, L.Refilled;
    var m1 := L.Refilled(c, m, now);
    RefillNeverTakes(c, m, now);
    var usable := if hint.Some? && !c.usable(hint.value) then None else hint;
    var lookup := L.Shortlisted(c, L.NewLookup(c, h, now), seeds);
    ShortlistedKeeps(c, L.NewLookup(c, h, now), seeds);
    BegunTokens(c, m1, lookup, usable, now);
  }

  lemma ShortlistedKeeps(c: L.Config, lookup: L.Lookup, nodes: seq<Node>)
    ensures var k := L.Shortlisted(c, lookup, nodes); k.pending == lookup.pending && k.sent == lookup.sent
  {
    hide L.PutNodes, L.Values, SelectClosest;
  }

  lemma RefillNeverTakes(c: L.Config, m: L.Manager, now: real)
    requires c.limits.queriesPerSecond > 0.0 && m.tokens <= c.limits.queriesPerSecond
    ensures m.tokens <= L.Refilled(c, m, now).tokens <= c.limits.queriesPerSecond
  {
    if now > m.tokensTime { P.TimesPositive(c.limits.queriesPerSecond, now - m.tokensTime); }
  }

  lemma OneSent(c: L.Config, m: L.Manager, h: Hash, nodes: seq<Node>, now: real)
    requires h in m.active.m && m.active.m[h].hash == h && |nodes| <= 1
    ensures L.SentToEach(c, m, h, nodes, now).tokens >= m.tokens - 1.0
  {
    hide TransactionId, L.Load, L.Asked, L.SetLookup;
    if nodes != [] && m.tokens >= 1.0 {
      var m1 := L.SentTo(m, h, nodes[0], now, c.limits.queryTimeout);
      assert L.SentToEach(c, m, h, nodes, now) == L.SentToEach(c, m1, h, nodes[1..], now);
      assert nodes[1..] == [];
      assert L.SentToEach(c, m1, h, [], now) == m1;
    }
  }

  lemma ToppedUpTokens(c: L.Config, m: L.Manager, h: Hash, now: real)
    requires h in m.active.m && m.active.m[h].hash == h && L.Free(c, m.active.m[h]) <= 1
    requires c.limits.queriesPerSecond > 0.0 && m.tokens <= c.limits.queriesPerSecond
    ensures L.ToppedUp(c, m, h, now).tokens >= m.tokens - 1.0
  {
    hide L.Candidates, SelectClosest, L.Refilled, L.SentToEach, L.Free;
    var free, m1 := L.Free(c, m.active.m[h]), L.Refilled(c, m, now);
    RefillNeverTakes(c, m, now);
    RefilledSame(c, m, now);
    if free > 0 { OneSent(c, m1, h, SelectClosest(L.Candidates(c, m1.inFlight, m.active.m[h]), h, free), now); }
  }

  lemma HintedTokens(c: L.Config, m: L.Manager, h: Hash, node: Node, now: real)
    requires h in m.active.m && m.active.m[h].hash == h
    ensures L.Hinted(c, m, h, node, now).tokens == m.tokens - 1.0
  {
    hide TransactionId, L.Load, L.Asked;
  }

  lemma BegunTokens(c: L.Config, m: L.Manager, lookup: L.Lookup, hint: Option<Node>, now: real)
    requires c.limits.alpha == 1 && c.limits.queriesPerSecond > 0.0 && m.tokens <= c.limits.queriesPerSecond
    requires lookup.pending.m == map[]
    ensures L.Begun(c, m, lookup, hint, now).tokens >= m.tokens - 1.0
  {
    hide L.ToppedUp, L.Hinted;
    var m1 := L.Admitted(m, lookup);
    if hint.Some? {
      HintedTokens(c, m1, lookup.hash, hint.value, now);
    } else {
      ToppedUpTokens(c, m1, lookup.hash, now);
    }
  }

  lemma StartOk(s: Settings, c: L.Config, target: nat, x: Crawler, w: map<Tid, P.Birth>, k: P.Clock, now: real, seeds: seq<Node>, hint: Option<Node>)
    returns (w': map<Tid, P.Birth>)
    requires CrawlOk(s, c, x, w, k) && MayCrawl(s, x, k, StartNext(now, seeds, hint))
    ensures var step := StartNext(now, seeds, hint);
            Run(s, x.sys, CatalogSteps(c, target, x, step)) && CrawlOk(s, c, Crawled(s, c, target, x, step), w', k)
  {
    hide Sound, R.Inv, R.Streaming, L.StartedLookup, R.Measure, P.BudgetAt, P.CycleLongEnough, Next, After, Run;
    var h := x.claimed[0];
    var (m, ok) := L.StartedLookup(c, x.m, h, seeds, now, hint);
    w' := R.StartInv(c, x.m, w, k, h, seeds, now, hint, now);
    ActiveFits(c, x.m, w, k);
    if c.limits.alpha == 1 { StartTokens(c, x.m, h, seeds, now, hint); }
    forall g: Hash ensures Running(x, g) <==> g in x.m.active.m { RunningIsActive(c, x.m, w, k, g); }
    forall g: Hash ensures R.Streaming(m.events[..|m.events|], g).Some? <==> g in m.active.m { RunningIsActive(c, m, w', k, g); }
    FirstOut(x.claimed);
    if ok {
      SizeGrows(x.m.active.m, m.active.m, h);
      NoSteps(s, x.sys);
    } else {
      LookupsAfter(s, x.sys, ReleaseLookup(h));
      OneStep(s, x.sys, ReleaseLookup(h));
    }
  }

  lemma FirstOut(claimed: seq<Hash>)
    requires claimed != [] && Distinct(claimed)
    ensures Distinct(claimed[1..]) && forall g :: g in claimed <==> g == claimed[0] || g in claimed[1..]
    ensures claimed[0] !in claimed[1..]
  {
    assert claimed == [claimed[0]] + claimed[1..];
  }

  lemma SizeGrows<V>(a: map<Hash, V>, b: map<Hash, V>, h: Hash)
    requires h !in a && h in b && forall g :: g != h ==> (g in b <==> g in a)
    ensures |b| == |a| + 1
  {
    assert b.Keys == a.Keys + {h};
    assert |b.Keys| == |a.Keys| + 1;
  }

  // ----- the other calls of the crawler thread start no lookup

  lemma {:induction false} ReleaseStartsNone(m: L.Manager, h: Hash, tids: seq<Tid>)
    requires h in m.active.m && m.active.m[h].hash == h
    ensures L.ReleasedAll(m, h, tids).started == m.started
    decreases |tids|
  {
    hide L.Load;
    if tids != [] {
      ReleaseStartsNone(if tids[0] in m.active.m[h].pending.m then L.Released(m, h, tids[0]) else m, h, tids[1..]);
    }
  }

  lemma {:induction false} SendStartsNone(c: L.Config, m: L.Manager, h: Hash, nodes: seq<Node>, now: real)
    requires h in m.active.m && m.active.m[h].hash == h
    ensures L.SentToEach(c, m, h, nodes, now).started == m.started
    decreases |nodes|
  {
    hide L.Load, TransactionId, L.Asked;
    if nodes != [] && m.tokens >= 1.0 {
      SendStartsNone(c, L.SentTo(m, h, nodes[0], now, c.limits.queryTimeout), h, nodes[1..], now);
    }
  }

  lemma AdvanceStartsNone(c: L.Config, m: L.Manager, h: Hash, now: real)
    requires h in m.active.m && m.active.m[h].hash == h
    ensures L.Advanced(c, m, h, now).started == m.started
  {
    hide L.Candidates, SelectClosest, L.SentToEach, L.FinishedLookup, L.Free, L.CanQueryMore, L.MustFinish;
    var m1 := L.Refilled(c, m, now);
    FinishStartsNone(m, h);
    FinishStartsNone(L.ToppedUp(c, m, h, now), h);
    var free := L.Free(c, m.active.m[h]);
    if free > 0 { SendStartsNone(c, m1, h, SelectClosest(L.Candidates(c, m1.inFlight, m.active.m[h]), h, free), now); }
  }

  lemma FinishStartsNone(m: L.Manager, h: Hash)
    requires h in m.active.m && m.active.m[h].hash == h
    ensures L.FinishedLookup(m, h).started == m.started
  {
    hide L.ReleasedAll, L.SortedPeers;
    ReleaseStartsNone(m, h, m.active.m[h].pending.keys);
  }

  lemma {:induction false} TickStartsNone(c: L.Config, m: L.Manager, hashes: seq<Hash>, now: real)
    ensures L.TickedEach(c, m, hashes, now).started == m.started
    decreases |hashes|
  {
    hide L.Advanced, L.ReleasedAll, L.ExpiredIds;
    if hashes != [] {
      var h := hashes[0];
      if h in m.active.m && m.active.m[h].hash == h {
        ReleaseStartsNone(m, h, L.ExpiredIds(m.active.m[h], now));
        AdvanceStartsNone(c, L.Expired(m, h, now), h, now);
        TickStartsNone(c, L.Advanced(c, L.Expired(m, h, now), h, now), hashes[1..], now);
      } else {
        TickStartsNone(c, m, hashes[1..], now);
      }
    }
  }

  lemma {:induction false} AbortStartsNone(m: L.Manager, hashes: seq<Hash>)
    ensures L.AbortedEach(m, hashes).started == m.started
    decreases |hashes|
  {
    hide L.FinishedLookup;
    if hashes != [] {
      var h := hashes[0];
      if h in m.active.m && m.active.m[h].hash == h {
        FinishStartsNone(m, h);
        AbortStartsNone(L.FinishedLookup(m, h), hashes[1..]);
      } else {
        AbortStartsNone(m, hashes[1..]);
      }
    }
  }

  lemma TakenStartsNone(c: L.Config, m: L.Manager, t: Tid, response: Option<L.Response>, address: Address, now: real)
    requires t in m.transactions && (m.transactions[t] in m.active.m ==> m.active.m[m.transactions[t]].hash == m.transactions[t])
    ensures L.Answered(c, m, t, response, address, now).started == m.started && L.Errored(c, m, t, now).started == m.started
  {
    hide L.Advanced, L.Accepted, L.Shortlisted;
    var h := m.transactions[t];
    if h in m.active.m && t in m.active.m[h].pending.m {
      var m1 := L.Released(m, h, t);
      AdvanceStartsNone(c, m1, h, now);
      if response.Some? { AdvanceStartsNone(c, L.Absorbed(c, m1, h, response.value), h, now); }
    }
  }

  lemma CallStartsNone(c: L.Config, m: L.Manager, call: R.Call)
    requires !call.Start?
    ensures R.Applied(c, m, call).started == m.started
  {
    hide L.Answered, L.Errored, L.TickedEach, L.AbortedEach, L.StartedLookup;
    match call
    case Start(_, _, _, _) =>
    case Answer(now, t, response, address) =>
      if t in m.transactions && (m.transactions[t] in m.active.m ==> m.active.m[m.transactions[t]].hash == m.transactions[t]) {
        TakenStartsNone(c, m, t, response, address, now);
      }
    case Error(now, t) =>
      if t in m.transactions && (m.transactions[t] in m.active.m ==> m.active.m[m.transactions[t]].hash == m.transactions[t]) {
        TakenStartsNone(c, m, t, None, Address(0, 0), now);
      }
    case Tick(now) => TickStartsNone(c, L.Refilled(c, m, now), m.active.keys, now);
    case AbortAll(_) => AbortStartsNone(m, m.active.keys);
  }

  /** Events added without the count of starts growing are no starts. */
  lemma {:induction false} NoStartsAdded(before: seq<L.Event>, events: seq<L.Event>)
    requires before <= events && R.StartedCount(events) == R.StartedCount(before)
    ensures forall i :: |before| <= i < |events| ==> !events[i].Started?
    decreases |events|
  {
    if |before| < |events| {
      StartsGrow(before, events[..|events| - 1]);
      NoStartsAdded(before, events[..|events| - 1]);
      assert forall i :: |before| <= i < |events| - 1 ==> events[i] == events[..|events| - 1][i];
    }
  }

  lemma {:induction false} StartsGrow(before: seq<L.Event>, events: seq<L.Event>)
    requires before <= events
    ensures R.StartedCount(before) <= R.StartedCount(events)
    decreases |events|
  {
    if |before| < |events| {
      StartsGrow(before, events[..|events| - 1]);
    } else {
      assert before == events;
    }
  }

  lemma InvokeOk(s: Settings, c: L.Config, target: nat, x: Crawler, w: map<Tid, P.Birth>, k: P.Clock, call: R.Call)
    returns (w': map<Tid, P.Birth>)
    requires CrawlOk(s, c, x, w, k) && MayCrawl(s, x, k, Invoke(call))
    ensures CrawlOk(s, c, Crawled(s, c, target, x, Invoke(call)), w', R.ClockAfter(k, call))
  {
    hide Sound, R.Inv, R.Streaming, R.Applied, P.BudgetAt, P.CycleLongEnough, R.StartedCount;
    var m := R.Applied(c, x.m, call);
    w' := R.CallInv(c, x.m, w, k, call, call.now);
    CallStartsNone(c, x.m, call);
    StartedIsCount(c, x.m, w, k);
    StartedIsCount(c, m, w', R.ClockAfter(k, call));
    NoStartsAdded(x.m.events, m.events);
    ActiveFits(c, m, w', R.ClockAfter(k, call));
    assert m.events[..x.delivered] == x.m.events[..x.delivered];
    CycleKept(c, k, call);
  }

  lemma CycleKept(c: L.Config, k: P.Clock, call: R.Call)
    requires R.Settings(c, k)
    ensures R.Settings(c, R.ClockAfter(k, call))
  {
  }

  lemma StartedIsCount(c: L.Config, m: L.Manager, w: map<Tid, P.Birth>, k: P.Clock)
    requires R.Inv(c, m, w, k)
    ensures m.started == R.StartedCount(m.events)
  {
    hide P.TablesAgree, P.CapsHold, P.Budgeted, R.EventsOk, R.StartedCount, R.FinishedCount, R.Streaming;
  }

  // ----- the callbacks

  lemma EventAllowed(c: L.Config, m: L.Manager, w: map<Tid, P.Birth>, k: P.Clock, i: nat)
    requires R.Inv(c, m, w, k) && i < |m.events|
    ensures R.EventOk(m.events[..i], m.events[i])
  {
    hide P.TablesAgree, P.CapsHold, P.Budgeted, R.StartedCount, R.FinishedCount, R.Streaming, R.EventOk;
  }

  lemma DeliverOk(s: Settings, c: L.Config, target: nat, x: Crawler, w: map<Tid, P.Birth>, k: P.Clock, at: real)
    requires CrawlOk(s, c, x, w, k) && MayCrawl(s, x, k, Deliver(at))
    ensures var step := Deliver(at);
            Run(s, x.sys, CatalogSteps(c, target, x, step)) && CrawlOk(s, c, Crawled(s, c, target, x, step), w, k)
  {
    hide Sound, R.Inv, R.Streaming, R.Settings, Distinct, Next, After, Run;
    NoSteps(s, x.sys);
    var i := x.delivered;
    var e := x.m.events[i];
    EventAllowed(c, x.m, w, k, i);
    assert x.m.events[..i + 1] == x.m.events[..i] + [e];
    R.StreamingGrows(x.m.events[..i], e);
    assert x.claimed == [] && !e.Started?;
    if e.Finished? {
      assert Running(x, e.hash);
      OneStep(s, x.sys, IndexThread.FinishLookup(e.hash, e.peers, at));
      LookupsAfter(s, x.sys, IndexThread.FinishLookup(e.hash, e.peers, at));
    } else if e.Streamed? {
      OneStep(s, x.sys, StreamPeers(e.hash, e.peers));
      OthersKeepLookups(s, x.sys, StreamPeers(e.hash, e.peers));
    }
  }

  // ----- runs

  lemma CrawlStepOk(s: Settings, c: L.Config, target: nat, x: Crawler, w: map<Tid, P.Birth>, k: P.Clock, step: CrawlStep)
    returns (w': map<Tid, P.Birth>)
    requires CrawlOk(s, c, x, w, k) && MayCrawl(s, x, k, step)
    ensures Run(s, x.sys, CatalogSteps(c, target, x, step)) && CrawlOk(s, c, Crawled(s, c, target, x, step), w', ClockNext(k, step))
    ensures Crawled(s, c, target, x, step).sys == After(s, x.sys, CatalogSteps(c, target, x, step))
  {
    hide CrawlOk, Enabled, After, Run, L.StartedLookup, L.Refilled, R.Applied, AtRest, Slots, R.ClockAfter, NewestDue;
    w' := w;
    match step
    case Other(st) => OtherOk(s, c, target, x, w, k, st);
    case Claim(now) => ClaimOk(s, c, target, x, w, k, now);
    case StartNext(now, seeds, hint) => w' := StartOk(s, c, target, x, w, k, now, seeds, hint);
    case Invoke(call) =>
      w' := InvokeOk(s, c, target, x, w, k, call);
      NoSteps(s, x.sys);
    case Deliver(at) => DeliverOk(s, c, target, x, w, k, at);
  }

  ghost predicate CrawlRun(s: Settings, c: L.Config, target: nat, x: Crawler, k: P.Clock, steps: seq<CrawlStep>)
    decreases |steps|
  {
    steps == [] ||
    (MayCrawl(s, x, k, steps[0]) && CrawlRun(s, c, target, Crawled(s, c, target, x, steps[0]), ClockNext(k, steps[0]), steps[1..]))
  }

  function CrawlAfter(s: Settings, c: L.Config, target: nat, x: Crawler, steps: seq<CrawlStep>): Crawler
    decreases |steps|
  {
    if steps == [] then x else CrawlAfter(s, c, target, Crawled(s, c, target, x, steps[0]), steps[1..])
  }

  /** All that a run calls on the catalog, by any thread. */
  function AllSteps(s: Settings, c: L.Config, target: nat, x: Crawler, steps: seq<CrawlStep>): seq<Step>
    decreases |steps|
  {
    if steps == [] then []
    else CatalogSteps(c, target, x, steps[0]) + AllSteps(s, c, target, Crawled(s, c, target, x, steps[0]), steps[1..])
  }

  /** A run of the crawler is a run of the claim protocol: nothing is called that the protocol does not allow. */
  lemma {:induction false} CrawlerFollowsProtocol(s: Settings, c: L.Config, target: nat, x: Crawler, w: map<Tid, P.Birth>, k: P.Clock, steps: seq<CrawlStep>)
    returns (w': map<Tid, P.Birth>, k': P.Clock)
    requires CrawlOk(s, c, x, w, k) && CrawlRun(s, c, target, x, k, steps)
    ensures var all := AllSteps(s, c, target, x, steps);
            Run(s, x.sys, all) && After(s, x.sys, all) == CrawlAfter(s, c, target, x, steps).sys
    ensures CrawlOk(s, c, CrawlAfter(s, c, target, x, steps), w', k')
    decreases |steps|
  {
    hide CrawlOk, MayCrawl, Crawled, CatalogSteps, Run, After;
    w', k' := w, k;
    if steps == [] {
      NoSteps(s, x.sys);
    } else {
      w' := CrawlStepOk(s, c, target, x, w, k, steps[0]);
      var x1 := Crawled(s, c, target, x, steps[0]);
      w', k' := CrawlerFollowsProtocol(s, c, target, x1, w', ClockNext(k, steps[0]), steps[1..]);
      RunJoin(s, x.sys, CatalogSteps(c, target, x, steps[0]), AllSteps(s, c, target, x1, steps[1..]));
    }
  }

  /** A fresh crawler: nothing claimed, nothing sent. */
  ghost predicate CrawlStart(c: L.Config, x: Crawler, now: real) {
    Start(x.sys) && x.m == L.Initial(c, now) && x.delivered == 0 && x.claimed == []
  }

  lemma StartCrawlOk(s: Settings, c: L.Config, x: Crawler, now: real, gap: real)
    requires CrawlStart(c, x, now) && R.Settings(c, P.Clock(now, gap))
    ensures CrawlOk(s, c, x, map[], P.Clock(now, gap))
  {
    hide Sound, R.Inv, P.LongestTimeout;
    StartSound(s, x.sys);
    R.InitialInv(c, now, gap);
  }

  /** Between two rounds of the crawler the entries marked as being looked up are just the active lookups. */
  lemma AtRestMatches(s: Settings, c: L.Config, x: Crawler, w: map<Tid, P.Birth>, k: P.Clock)
    requires CrawlOk(s, c, x, w, k) && AtRest(x)
    ensures Tagged(x.sys.cat, Looking) == x.m.active.m.Keys
  {
    hide Sound, R.Inv, R.Settings, ClaimsFit, R.Streaming;
    forall h: Hash ensures h in Tagged(x.sys.cat, Looking) <==> h in x.m.active.m.Keys {
      LookingIsClaimed(s, x.sys, h);
      RunningIsActive(c, x.m, w, k, h);
      assert Running(x, h) <==> h in x.m.active.m;
    }
  }

  /**
   * In every state a run can reach, the entries marked as being looked up are those whose lookup is claimed or runs,
   * and between two rounds of the crawler they are just the active lookups of the manager.
   */
  lemma LookupsMatchManager(s: Settings, c: L.Config, target: nat, x: Crawler, now: real, gap: real, steps: seq<CrawlStep>)
    requires CrawlStart(c, x, now) && R.Settings(c, P.Clock(now, gap)) && CrawlRun(s, c, target, x, P.Clock(now, gap), steps)
    ensures var z := CrawlAfter(s, c, target, x, steps);
            z.delivered <= |z.m.events| && (forall h: Hash :: h in Tagged(z.sys.cat, Looking) <==> h in z.claimed || Running(z, h)) &&
            (AtRest(z) ==> Tagged(z.sys.cat, Looking) == z.m.active.m.Keys)
  {
    hide CrawlRun, CrawlAfter, Sound, R.Inv, R.Settings, ClaimsFit, R.Streaming, AllSteps;
    StartCrawlOk(s, c, x, now, gap);
    var w, k := CrawlerFollowsProtocol(s, c, target, x, map[], P.Clock(now, gap), steps);
    var z := CrawlAfter(s, c, target, x, steps);
    forall h: Hash ensures h in z.sys.lookups <==> h in Tagged(z.sys.cat, Looking) { LookingIsClaimed(s, z.sys, h); }
    if AtRest(z) { AtRestMatches(s, c, z, w, k); }
  }

  lemma LookingIsClaimed(s: Settings, y: System, h: Hash)
    requires Sound(s, y)
    ensures h in y.lookups <==> h in Tagged(y.cat, Looking)
  {
    hide Indexed, EntriesOk, PhaseOk, RowsExist;
    assert ClaimsAt(y, h);
  }

  /** With one query at a time a claimed lookup is refused only for its nodes: the hint is loaded, or there is no node. */
  lemma RefusedIff(s: Settings, c: L.Config, x: Crawler, w: map<Tid, P.Birth>, k: P.Clock, now: real, seeds: seq<Node>, hint: Option<Node>)
    requires CrawlOk(s, c, x, w, k) && x.claimed != [] && c.limits.alpha == 1
    ensures var usable := hint.Some? && c.usable(hint.value);
            L.StartedLookup(c, x.m, x.claimed[0], seeds, now, hint).1 <==>
              if usable then L.Load(x.m, AddressOf(hint.value)) < c.limits.maxPerNode
              else SomeNode(seeds, c.usable)
  {
    hide Sound, R.Inv, R.Streaming, L.Begun, L.Refilled, L.Shortlisted, P.CycleLongEnough, CursorOk, ClaimsMatch;
    var h := x.claimed[0];
    ActiveFits(c, x.m, w, k);
    RefillNeverTakes(c, x.m, now);
    RefilledLoad(c, x.m, now);
    assert |x.claimed| >= 1;
    ListedIff(c, L.NewLookup(c, h, now), seeds);
  }

  lemma RefilledLoad(c: L.Config, m: L.Manager, now: real)
    ensures var m1 := L.Refilled(c, m, now); m1.inFlight == m.inFlight && m1.active == m.active
  {
  }

  predicate SomeNode(nodes: seq<Node>, p: Node -> bool) {
    exists n :: n in nodes && p(n)
  }

  lemma SomeNodeFirst(nodes: seq<Node>, p: Node -> bool)
    requires nodes != []
    ensures SomeNode(nodes, p) <==> p(nodes[0]) || SomeNode(nodes[1..], p)
  {
    if SomeNode(nodes[1..], p) {
      var n :| n in nodes[1..] && p(n);
      assert n in nodes;
    }
    if SomeNode(nodes, p) {
      var n :| n in nodes && p(n);
      assert n == nodes[0] || n in nodes[1..];
    }
  }

  lemma {:induction false} PutListed(shortlist: RawDict<NodeId, Node>, nodes: seq<Node>, p: Node -> bool)
    ensures L.PutNodes(shortlist, nodes, p).m.Keys != {} <==> shortlist.m.Keys != {} || SomeNode(nodes, p)
    decreases |nodes|
  {
    hide SomeNode, Ordered;
    if nodes == [] {
      assert !SomeNode([], p) by { NoNode(p); }
    } else {
      SomeNodeFirst(nodes, p);
      var first := if p(nodes[0]) then Put(shortlist, nodes[0].id, nodes[0]) else shortlist;
      PutListed(first, nodes[1..], p);
      assert p(nodes[0]) ==> nodes[0].id in first.m.Keys;
    }
  }

  lemma NoNode(p: Node -> bool)
    ensures !SomeNode([], p)
  {
  }

  /** What is kept of a list that is too long is not empty. */
  lemma TrimmedListed(all: RawDict<NodeId, Node>, target: Hash, size: nat)
    requires Ordered(all) && all.m.Keys != {} && size >= 1
    ensures L.PutNodes(Empty(), SelectClosest(L.Values(all.keys, all.m), target, size), L.Always()).m.Keys != {}
  {
    var id :| id in all.m.Keys;
    assert id in all.keys;
    var i :| 0 <= i < |all.keys| && all.keys[i] == id;
    assert all.m[id] in L.Values(all.keys, all.m);
    var closest := SelectClosest(L.Values(all.keys, all.m), target, size);
    assert |closest| >= 1 by { hide SelectClosest; }
    PutListed(Empty(), closest, L.Always());
    assert closest[0] in closest && L.Always()(closest[0]);
  }

  /** The shortlist of a new lookup is empty only when no seed is usable. */
  lemma ListedIff(c: L.Config, lookup: L.Lookup, seeds: seq<Node>)
    requires lookup.shortlist == Empty() && lookup.queried == {} && c.limits.shortlistSize >= 1
    ensures |L.Shortlisted(c, lookup, seeds).shortlist.m| != 0 <==> SomeNode(seeds, c.usable)
  {
    hide L.Values, SelectClosest, L.PutNodes, SomeNode;
    var all := L.PutNodes(lookup.shortlist, seeds, L.Wanted(c, lookup.queried));
    PutListed(lookup.shortlist, seeds, L.Wanted(c, lookup.queried));
    SomeUsable(c, seeds, lookup.queried);
    if all.m.Keys != {} { TrimmedListed(all, lookup.hash, c.limits.shortlistSize); }
    NoKeys(all.m);
    NoKeys(L.Shortlisted(c, lookup, seeds).shortlist.m);
  }

  lemma NoKeys<K, V>(m: map<K, V>)
    ensures |m| != 0 <==> m.Keys != {}
  {
    assert |m| == |m.Keys|;
  }

  lemma SomeUsable(c: L.Config, seeds: seq<Node>, queried: set<Address>)
    requires queried == {}
    ensures SomeNode(seeds, L.Wanted(c, queried)) <==> SomeNode(seeds, c.usable)
  {
    var p := L.Wanted(c, queried);
    if SomeNode(seeds, p) { var n :| n in seeds && p(n); assert c.usable(n); }
    if SomeNode(seeds, c.usable) { var n :| n in seeds && c.usable(n); assert p(n); }
  }
}
