/**
 * dht_crawler.py, start_pending_lookups in its own form, over the catalog and the lookup manager as objects. It takes
 * only steps of CrawlerClaims, and leaves the claims of the catalog and the lookups of the manager the same hashes.
 */
module DhtCrawler {
  import opened ByteStrings
  import opened BoundedRecentMap
  import opened NodeIdentity
  import opened CatalogSpec
  import opened CatalogIndexes
  import opened IndexThread
  import opened IndexThreadSafety
  import opened CrawlerClaims
  import L = DhtLookup
  import P = DhtLookupProofs
  import R = DhtLookupRuns
  import TorrentCatalog
  import LookupManager

  /** Only the manager's part of the invariant speaks of when queries were sent. */
  lemma Rebirth(s: Settings, c: L.Config, x: Crawler, w: map<Tid, P.Birth>, w': map<Tid, P.Birth>, k: P.Clock)
    requires CrawlOk(s, c, x, w, k) && R.Inv(c, x.m, w', k)
    ensures CrawlOk(s, c, x, w', k)
  {
    hide Sound, R.Settings, R.Inv, CursorOk, ClaimsMatch, ClaimsFit;
  }

  lemma {:induction false} CrawlGrows(s: Settings, c: L.Config, target: nat, x: Crawler, k: P.Clock, steps: seq<CrawlStep>, step: CrawlStep)
    requires CrawlRun(s, c, target, x, k, steps) && (forall st :: st in steps ==> !st.Invoke?) && !step.Invoke?
    requires MayCrawl(s, CrawlAfter(s, c, target, x, steps), k, step)
    ensures CrawlRun(s, c, target, x, k, steps + [step])
    ensures CrawlAfter(s, c, target, x, steps + [step]) == Crawled(s, c, target, CrawlAfter(s, c, target, x, steps), step)
    decreases |steps|
  {
    hide MayCrawl, Crawled;
    if steps == [] {
      assert [step][1..] == [] && [] + [step] == [step];
    } else {
      assert (steps + [step])[0] == steps[0] && (steps + [step])[1..] == steps[1..] + [step];
      CrawlGrows(s, c, target, Crawled(s, c, target, x, steps[0]), k, steps[1..], step);
    }
  }

  /** A start that succeeds makes one more lookup active, and one that does not leaves them as they are. */
  lemma StartCounts(c: L.Config, m: L.Manager, w: map<Tid, P.Birth>, k: P.Clock, h: Hash, seeds: seq<Node>, now: real, hint: Option<Node>)
    requires R.Settings(c, k) && R.Inv(c, m, w, k) && P.Timely(k, now)
    ensures var (m', ok) := L.StartedLookup(c, m, h, seeds, now, hint);
            |m'.active.m| == |m.active.m| + (if ok then 1 else 0)
  {
    hide R.Inv, R.Settings, L.StartedLookup, P.BudgetAt, R.Measure;
    var (m', ok) := L.StartedLookup(c, m, h, seeds, now, hint);
    var w' := R.StartInv(c, m, w, k, h, seeds, now, hint, now);
    if ok { SizeGrows(m.active.m, m'.active.m, h); }
  }

  /** The hashes a round claims: the newest due, as many as there are slots. */
  function DueFor(c: L.Config, target: nat, x: Crawler, now: real): seq<Hash> {
    var slots := Slots(c, L.Refilled(c, x.m, now), x.sys.cat, target);
    if slots <= 0 then [] else NewestDue(x.sys.cat, x.sys.cat.needsLookup.keys, slots, now)
  }

  function StartFor(now: real, h: Hash, hints: map<Hash, Node>, seeds: Hash -> seq<Node>): CrawlStep {
    StartNext(now, seeds(h), if h in hints then Some(hints[h]) else None)
  }

  /** A round: it claims, and makes one start for each hash it claimed, in order. */
  function RoundOf(now: real, hashes: seq<Hash>, hints: map<Hash, Node>, seeds: Hash -> seq<Node>): seq<CrawlStep> {
    [Claim(now)] + StartsFor(now, hashes, hints, seeds)
  }

  function StartsFor(now: real, hashes: seq<Hash>, hints: map<Hash, Node>, seeds: Hash -> seq<Node>): (r: seq<CrawlStep>)
    ensures |r| == |hashes|
  {
    seq(|hashes|, i requires 0 <= i < |hashes| => StartFor(now, hashes[i], hints, seeds))
  }

  lemma NoStarts(now: real, hashes: seq<Hash>, hints: map<Hash, Node>, seeds: Hash -> seq<Node>)
    ensures RoundOf(now, hashes[..0], hints, seeds) == [Claim(now)]
  {
  }

  lemma StartsForGrow(now: real, hashes: seq<Hash>, i: nat, hints: map<Hash, Node>, seeds: Hash -> seq<Node>)
    requires i < |hashes|
    ensures RoundOf(now, hashes[..i + 1], hints, seeds) == RoundOf(now, hashes[..i], hints, seeds) + [StartFor(now, hashes[i], hints, seeds)]
  {
  }

  class DhtCrawler {
    const catalog: TorrentCatalog.TorrentCatalog
    const manager: LookupManager.LookupManager
    /** lookup_fetchable_target */
    const target: nat

    constructor (catalog: TorrentCatalog.TorrentCatalog, manager: LookupManager.LookupManager, target: nat)
      ensures this.catalog == catalog && this.manager == manager && this.target == target
    {
      this.catalog, this.manager, this.target := catalog, manager, target;
    }

    /** The crawler as CrawlerClaims sees it between two calls: every callback has been made. */
    ghost function State(rows: Rows, phase: Phase, lookups: set<Hash>, jobs: set<Hash>, claimed: seq<Hash>): Crawler
      reads this, catalog, manager
    {
      Crawler(System(catalog.Model(), rows, phase, lookups, jobs), manager.Model(), |manager.events|, claimed)
    }

    ghost predicate Ok(rows: Rows, phase: Phase, lookups: set<Hash>, jobs: set<Hash>, claimed: seq<Hash>)
      reads this, catalog, manager
    {
      CrawlOk(catalog.s, manager.c, State(rows, phase, lookups, jobs, claimed), manager.births, manager.clock)
    }

    /** One turn of the loop: the lookup of a claimed hash is started, or its claim released. */
    method StartOne(h: Hash, rest: seq<Hash>, now: real, seeds: seq<Node>, hint: Option<Node>,
                    ghost rows: Rows, ghost phase: Phase, ghost lookups: set<Hash>, ghost jobs: set<Hash>)
      returns (ok: bool, ghost lookups': set<Hash>)
      requires Ok(rows, phase, lookups, jobs, [h] + rest) && P.Timely(manager.clock, now)
      modifies catalog, manager
      ensures Ok(rows, phase, lookups', jobs, rest) && manager.clock == old(manager.clock)
      ensures State(rows, phase, lookups', jobs, rest) ==
              Crawled(catalog.s, manager.c, target, old(State(rows, phase, lookups, jobs, [h] + rest)), StartNext(now, seeds, hint))
      ensures |manager.active.m| == old(|manager.active.m|) + (if ok then 1 else 0)
    {
      hide Sound, R.Inv, R.Settings, L.StartedLookup, ClaimsFit, ClaimsMatch, CursorOk, LookupReleased, Indexed, After, Next;
      ghost var x := State(rows, phase, lookups, jobs, [h] + rest);
      ghost var w := StartOk(catalog.s, manager.c, target, x, manager.births, manager.clock, now, seeds, hint);
      StartCounts(manager.c, x.m, manager.births, manager.clock, h, seeds, now, hint);
      assert ([h] + rest)[0] == h && ([h] + rest)[1..] == rest;
      ok := manager.StartLookup(h, seeds, now, hint);
      lookups' := lookups;
      NoSteps(catalog.s, x.sys);
      if !ok {
        Releases(catalog.s, x.sys, h);
        catalog.ReleaseLookupClaim(h);
        lookups' := lookups - {h};
      }
      Rebirth(catalog.s, manager.c, State(rows, phase, lookups', jobs, rest), w, manager.births, manager.clock);
    }

    /** The hashes due, claimed for as many lookups as there are slots; no slot, no claim. */
    method ClaimDue(now: real, ghost rows: Rows, ghost phase: Phase, ghost lookups: set<Hash>, ghost jobs: set<Hash>)
      returns (slots: int, claimed: seq<Hash>, ghost lookups': set<Hash>)
      requires Ok(rows, phase, lookups, jobs, []) && P.Timely(manager.clock, now)
      modifies catalog, manager
      ensures Ok(rows, phase, lookups', jobs, claimed) && manager.clock == old(manager.clock) && manager.active == old(manager.active)
      ensures State(rows, phase, lookups', jobs, claimed) ==
              Crawled(catalog.s, manager.c, target, old(State(rows, phase, lookups, jobs, [])), Claim(now))
      ensures claimed == DueFor(manager.c, target, old(State(rows, phase, lookups, jobs, [])), now)
      ensures if slots <= 0 then claimed == [] else |claimed| <= slots
    {
      hide CrawlOk, LookupsClaimed, NewestDue, Indexed, Crawled, CatalogSteps, L.Refilled, MayCrawl, Run;
      ghost var x := State(rows, phase, lookups, jobs, []);
      ghost var w, k := manager.births, manager.clock;
      AllowsClaim(catalog.s, x, k, now);
      ClaimOk(catalog.s, manager.c, target, x, w, k, now);
      ClaimEffect(catalog.s, manager.c, target, x, w, k, now);
      var free := manager.c.limits.maxActive - |manager.active.m|;
      var room := target - |catalog.fetchable|;
      var left := manager.Refill(now);
      slots := Smaller(Smaller(free, room), left.Floor);
      claimed, lookups' := [], lookups;
      if slots > 0 {
        claimed := catalog.HashesNeedingPeers(slots, now);
        lookups' := lookups + set h | h in claimed;
      }
    }

    /**
     * start_pending_lookups: the newest due hashes are claimed, as many as there are slots, room and tokens for, and for
     * each of them in turn a lookup is started or the claim released. Counted are the lookups that started, and
     * afterwards the claims of the catalog are again just the lookups of the manager.
     */
    method StartPendingLookups(now: real, hints: map<Hash, Node>, seeds: Hash -> seq<Node>,
                               ghost rows: Rows, ghost phase: Phase, ghost lookups: set<Hash>, ghost jobs: set<Hash>)
      returns (count: nat, ghost lookups': set<Hash>, ghost steps: seq<CrawlStep>)
      requires Ok(rows, phase, lookups, jobs, []) && P.Timely(manager.clock, now)
      modifies catalog, manager
      ensures Ok(rows, phase, lookups', jobs, []) && manager.clock == old(manager.clock)
      ensures var x := old(State(rows, phase, lookups, jobs, []));
              CrawlRun(catalog.s, manager.c, target, x, manager.clock, steps) &&
              CrawlAfter(catalog.s, manager.c, target, x, steps) == State(rows, phase, lookups', jobs, [])
      ensures steps == RoundOf(now, DueFor(manager.c, target, old(State(rows, phase, lookups, jobs, [])), now), hints, seeds)
      ensures |manager.active.m| == old(|manager.active.m|) + count
      ensures Tagged(catalog.Model(), Looking) == manager.active.m.Keys
    {
      hide CrawlOk, CrawlRun, CrawlAfter, Crawled, DueFor, RoundOf;
      ghost var x := State(rows, phase, lookups, jobs, []);
      var s := catalog.s;
      var slots, claimed;
      slots, claimed, lookups' := ClaimDue(now, rows, phase, lookups, jobs);
      steps := [Claim(now)];
      NoStarts(now, claimed, hints, seeds);
      FirstStep(s, manager.c, target, x, manager.clock, Claim(now));
      count := 0;
      var i := 0;
      assert claimed[0..] == claimed;
      while i < |claimed|
        invariant 0 <= i <= |claimed| && count <= i && manager.clock == old(manager.clock)
        invariant Ok(rows, phase, lookups', jobs, claimed[i..])
        invariant forall st :: st in steps ==> !st.Invoke?
        invariant steps == RoundOf(now, claimed[..i], hints, seeds)
        invariant CrawlRun(s, manager.c, target, x, manager.clock, steps)
        invariant CrawlAfter(s, manager.c, target, x, steps) == State(rows, phase, lookups', jobs, claimed[i..])
        invariant |manager.active.m| == old(|manager.active.m|) + count
      {
        var h := claimed[i];
        assert claimed[i..] == [h] + claimed[i + 1..];
        var hint := if h in hints then Some(hints[h]) else None;
        var step := StartNext(now, seeds(h), hint);
        CrawlGrows(s, manager.c, target, x, manager.clock, steps, step);
        steps := steps + [step];
        StartsForGrow(now, claimed, i, hints, seeds);
        var ok;
        ok, lookups' := StartOne(h, claimed[i + 1..], now, seeds(h), hint, rows, phase, lookups', jobs);
        count := count + (if ok then 1 else 0);
        i := i + 1;
      }
      assert claimed[i..] == [] && claimed[..i] == claimed;
      AtRestMatches(s, manager.c, State(rows, phase, lookups', jobs, []), manager.births, manager.clock);
    }
  }

  lemma FirstStep(s: Settings, c: L.Config, target: nat, x: Crawler, k: P.Clock, step: CrawlStep)
    requires MayCrawl(s, x, k, step)
    ensures CrawlRun(s, c, target, x, k, [step]) && CrawlAfter(s, c, target, x, [step]) == Crawled(s, c, target, x, step)
  {
    hide MayCrawl, Crawled;
    assert [step][1..] == [];
  }

  lemma Releases(s: Settings, y: System, h: Hash)
    requires Sound(s, y)
    ensures After(s, y, [ReleaseLookup(h)]) == y.(cat := LookupReleased(s, y.cat, h), lookups := y.lookups - {h}) && Indexed(s, y.cat)
  {
    hide Sound, LookupReleased;
    SoundParts(s, y);
    assert [ReleaseLookup(h)][1..] == [];
  }

  lemma AllowsClaim(s: Settings, x: Crawler, k: P.Clock, now: real)
    requires AtRest(x) && P.Timely(k, now)
    ensures MayCrawl(s, x, k, Claim(now))
  {
  }

  /** What the claiming step makes of the state. */
  lemma ClaimEffect(s: Settings, c: L.Config, target: nat, x: Crawler, w: map<Tid, P.Birth>, k: P.Clock, now: real)
    requires CrawlOk(s, c, x, w, k)
    ensures var m := L.Refilled(c, x.m, now);
            var slots := Slots(c, m, x.sys.cat, target);
            var due := DueFor(c, target, x, now);
            Indexed(s, x.sys.cat) && m.active == x.m.active && m.events == x.m.events &&
            Crawled(s, c, target, x, Claim(now)) ==
              Crawler(if slots <= 0 then x.sys
                      else x.sys.(cat := LookupsClaimed(s, x.sys.cat, slots, now), lookups := x.sys.lookups + set h | h in due),
                      m, x.delivered, due)
  {
    hide Sound, LookupsClaimed, NewestDue, L.Refilled, R.Inv, R.Settings, ClaimsFit, ClaimsMatch, CursorOk;
    SoundParts(s, x.sys);
    RefilledSame(c, x.m, now);
    var slots := Slots(c, L.Refilled(c, x.m, now), x.sys.cat, target);
    if slots <= 0 {
      NoSteps(s, x.sys);
    } else {
      var step := ClaimLookups(slots, now);
      var due := NewestDue(x.sys.cat, x.sys.cat.needsLookup.keys, slots, now);
      assert [step][1..] == [];
      assert After(s, x.sys, [step]) == Next(s, x.sys, step);
      LookupsAfter(s, x.sys, step);
      assert (set h | h in NewestDue(x.sys.cat, x.sys.cat.needsLookup.keys, slots, now)) == set h | h in due;
      assert Next(s, x.sys, step) == x.sys.(cat := LookupsClaimed(s, x.sys.cat, slots, now), lookups := x.sys.lookups + set h | h in due);
    }
  }
}
