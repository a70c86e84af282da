/** Whole runs of the lookup manager: one invariant, kept by every call. */
module DhtLookupRuns {
  import opened ByteStrings
  import opened BoundedRecentMap
  import opened NodeIdentity
  import opened DhtLookup
  import opened DhtLookupProofs

  // ----- the life of a lookup, read off the calls made to the outside

  /** The peers streamed so far by the lookup of h that is running after these events; None when none runs. */
  function Streaming(events: seq<Event>, h: Hash): Option<seq<Address>> {
    if events == [] then None
    else
      var before := Streaming(events[..|events| - 1], h);
      match events[|events| - 1]
      case Started(g) => if g == h then Some([]) else before
      case Sent(_, _, _) => before
      case Streamed(g, peers) => if g == h && before.Some? then Some(before.value + peers) else before
      case Finished(g, _) => if g == h then None else before
  }

  /** A lookup starts when none runs for its hash; while it runs it streams each peer once; it finishes with exactly those, sorted. */
  ghost predicate EventOk(before: seq<Event>, e: Event) {
    match e
    case Started(h) => Streaming(before, h).None?
    case Sent(_, _, h) => Streaming(before, h).Some?
    case Streamed(h, peers) => Streaming(before, h).Some? && peers != [] && Distinct(Streaming(before, h).value + peers)
    case Finished(h, peers) => Streaming(before, h).Some? && multiset(peers) == multiset(Streaming(before, h).value) && InOrder(peers)
  }

  ghost predicate EventsOk(events: seq<Event>) {
    forall k :: 0 <= k < |events| ==> EventOk(events[..k], events[k])
  }

  function StartedCount(events: seq<Event>): nat {
    if events == [] then 0 else StartedCount(events[..|events| - 1]) + (if events[|events| - 1].Started? then 1 else 0)
  }

  function FinishedCount(events: seq<Event>): nat {
    if events == [] then 0 else FinishedCount(events[..|events| - 1]) + (if events[|events| - 1].Finished? then 1 else 0)
  }

  ghost predicate StreamsMatch(events: seq<Event>, active: Lookups) {
    forall h :: Streaming(events, h) == if h in active then Some(active[h].found) else None
  }

  ghost predicate Lifecycle(m: Manager) {
    && EventsOk(m.events) && StreamsMatch(m.events, m.active.m)
    && m.started == StartedCount(m.events) && m.finished == FinishedCount(m.events)
    && m.started == m.finished + |m.active.m|
  }

  lemma EventsGrow(events: seq<Event>, e: Event)
    requires EventsOk(events) && EventOk(events, e)
    ensures EventsOk(events + [e])
    ensures StartedCount(events + [e]) == StartedCount(events) + (if e.Started? then 1 else 0)
    ensures FinishedCount(events + [e]) == FinishedCount(events) + (if e.Finished? then 1 else 0)
  {
    hide EventOk;
    var more := events + [e];
    assert more[..|events|] == events;
    assert forall k :: 0 <= k <= |events| ==> more[..k] == events[..k];
    assert events[..|events|] == events;
  }

  lemma StreamingGrows(events: seq<Event>, e: Event)
    ensures forall h :: Streaming(events + [e], h) ==
              match e
              case Started(g) => if g == h then Some([]) else Streaming(events, h)
              case Sent(_, _, _) => Streaming(events, h)
              case Streamed(g, peers) => if g == h && Streaming(events, h).Some? then Some(Streaming(events, h).value + peers) else Streaming(events, h)
              case Finished(g, _) => if g == h then None else Streaming(events, h)
  {
    assert (events + [e])[..|events|] == events;
  }

  // ----- the invariant

  ghost predicate Inv(c: Config, m: Manager, w: map<Tid, Birth>, k: Clock) {
    TablesAgree(m) && CapsHold(c, m) && Budgeted(c, m, w, k) && Lifecycle(m)
  }

  /** Only the lookup of h was touched. */
  ghost predicate OnlyTouches(m: Manager, m': Manager, h: Hash) {
    && (forall g :: g != h ==> (g in m'.active.m <==> g in m.active.m))
    && (forall g :: g != h && g in m.active.m ==> m'.active.m[g] == m.active.m[g])
  }

  /** What shrinks with every answer, error or expiry: queries still allowed count twice, queries in flight once. */
  function Measure(c: Config, k: Lookup): int {
    2 * (c.limits.maxQueries - k.sent) + |k.pending.m|
  }

  ghost predicate Settings(c: Config, k: Clock) {
    ConfigOk(c) && CycleLongEnough(c, k)
  }

  lemma InvFacts(c: Config, m: Manager, w: map<Tid, Birth>, k: Clock, h: Hash)
    requires Inv(c, m, w, k)
    ensures 0.0 <= m.tokens <= c.limits.queriesPerSecond
    ensures h in m.active.m ==> m.active.m[h].hash == h && LookupOk(c, m.active.m[h])
    ensures Ordered(m.active)
  {
    hide LookupOk, Ordered, BirthsOk, Linked, CountsMatch;
  }

  lemma RefillInv(c: Config, m: Manager, w: map<Tid, Birth>, k: Clock, now: real, T: real)
    requires Settings(c, k) && Inv(c, m, w, k) && Timely(k, now)
    ensures Inv(c, Refilled(c, m, now), w, k) && Later(c, m, Refilled(c, m, now), T)
    ensures Refilled(c, m, now).tokensTime >= now
  {
    hide TablesAgree, EventsOk, StreamsMatch, LookupOk, Later, CycleLongEnough, BirthsOk, InFlightQueries;
    RefillKeeps(c, m, now, T);
    RefillBirths(c, m, w, k, now);
    SameTables(m, Refilled(c, m, now));
  }

  lemma LifecycleSame(m: Manager, m': Manager)
    requires Lifecycle(m) && m'.events == m.events && m'.started == m.started && m'.finished == m.finished
    requires m'.active.m.Keys == m.active.m.Keys && forall h :: h in m.active.m ==> m'.active.m[h].found == m.active.m[h].found
    ensures Lifecycle(m')
  {
    hide EventsOk, StartedCount, FinishedCount, Streaming;
    SameSize(m.active.m, m'.active.m);
  }

  lemma LifecycleSent(m: Manager, m': Manager, h: Hash, t: Tid, node: Node)
    requires Lifecycle(m) && h in m.active.m && m'.events == m.events + [Sent(t, node, h)]
    requires m'.started == m.started && m'.finished == m.finished
    requires m'.active.m.Keys == m.active.m.Keys && forall h :: h in m.active.m ==> m'.active.m[h].found == m.active.m[h].found
    ensures Lifecycle(m')
  {
    EventsGrow(m.events, Sent(t, node, h));
    StreamingGrows(m.events, Sent(t, node, h));
    hide EventsOk, StartedCount, FinishedCount, Streaming;
    SameSize(m.active.m, m'.active.m);
  }

  lemma SendInv(c: Config, m: Manager, w: map<Tid, Birth>, k: Clock, h: Hash, node: Node, now: real, timeout: real, T: real)
    returns (w': map<Tid, Birth>)
    requires Settings(c, k) && Inv(c, m, w, k) && MaySend(c, m, h, AddressOf(node))
    requires Timely(k, now) && T <= now <= m.tokensTime && 0.0 < timeout <= LongestTimeout(c)
    ensures m.active.m[h].hash == h
    ensures var m' := SentTo(m, h, node, now, timeout);
            Inv(c, m', w', k) && Later(c, m, m', T) && OnlyTouches(m, m', h) && h in m'.active.m &&
            Measure(c, m'.active.m[h]) < Measure(c, m.active.m[h]) && m'.tokensTime == m.tokensTime &&
            m'.active.m[h].sent == m.active.m[h].sent + 1 && |m'.active.m[h].pending.m| == |m.active.m[h].pending.m| + 1 &&
            m'.active.m[h].deadline == m.active.m[h].deadline
  {
    hide TransactionId, SentTo, CountsMatch, Linked, BirthsOk, EventsOk, StreamsMatch, LongestTimeout, CycleLongEnough, Ordered, LookupOk, Later;
    NextIdIsFree(c, m, w, k);
    SentFields(m, h, node, now, timeout);
    SendLinks(m, h, node, now, timeout);
    SendCaps(c, m, h, node, now, timeout);
    SendBirths(c, m, w, k, h, node, now, timeout);
    SendBudget(c, m, h, node, now, timeout, T);
    var t := TransactionId(m.sequence);
    NotPending(m, h, t);
    var m' := SentTo(m, h, node, now, timeout);
    LifecycleSent(m, m', h, t, node);
    OneMore(m.active.m[h].pending.m, t, Pending(AddressOf(node), now + timeout));
    w' := w[t := Birth(m.sequence, m.tokensTime)];
  }

  lemma NotPending(m: Manager, h: Hash, t: Tid)
    requires Linked(m.transactions, m.active.m) && t !in m.transactions && h in m.active.m
    ensures t !in m.active.m[h].pending.m
  {
    assert HasPending(m.active.m, h, t) ==> t in m.transactions;
  }

  lemma OneMore<K, V>(m: map<K, V>, t: K, v: V)
    requires t !in m
    ensures |m[t := v]| == |m| + 1
  {
    assert m[t := v].Keys == m.Keys + {t};
    assert |m[t := v]| == |m[t := v].Keys| && |m| == |m.Keys|;
  }

  lemma ReleaseInv(c: Config, m: Manager, w: map<Tid, Birth>, k: Clock, h: Hash, t: Tid, T: real) returns (w': map<Tid, Birth>)
    requires Inv(c, m, w, k) && h in m.active.m && t in m.active.m[h].pending.m
    ensures m.active.m[h].hash == h
    ensures var m' := Released(m, h, t);
            Inv(c, m', w', k) && Later(c, m, m', T) && OnlyTouches(m, m', h) && h in m'.active.m &&
            Measure(c, m'.active.m[h]) < Measure(c, m.active.m[h]) &&
            m'.active.m[h].pending == Pop(m.active.m[h].pending, t) && m'.active.m[h].sent == m.active.m[h].sent &&
            m'.active.m[h].deadline == m.active.m[h].deadline && m'.tokens == m.tokens && m'.tokensTime == m.tokensTime
  {
    hide Released, CountsMatch, Linked, BirthsOk, EventsOk, StreamsMatch, LongestTimeout, Ordered, LookupOk, Pop;
    ReleasedFields(m, h, t);
    ReleaseLinks(m, h, t);
    ReleaseCaps(c, m, h, t);
    ReleaseBirths(c, m, w, k, h, t);
    LifecycleSame(m, Released(m, h, t));
    w' := w - {t};
  }

  // ----- operations made of sends and releases

  /** What an operation on the lookup of h at a time from T on leaves true of everything else. */
  ghost predicate Progress(c: Config, m: Manager, m': Manager, h: Hash, T: real) {
    && Later(c, m, m', T) && OnlyTouches(m, m', h)
    && (h in m.active.m && h in m'.active.m ==>
          Measure(c, m'.active.m[h]) <= Measure(c, m.active.m[h]) && m'.active.m[h].deadline == m.active.m[h].deadline)
  }

  lemma ProgressTransitive(c: Config, m: Manager, m1: Manager, m2: Manager, h: Hash, T: real)
    requires Progress(c, m, m1, h, T) && Progress(c, m1, m2, h, T)
    requires h in m2.active.m && h in m.active.m ==> h in m1.active.m
    ensures Progress(c, m, m2, h, T)
  {
    hide BudgetAt, Measure;
  }

  lemma ProgressHere(c: Config, m: Manager, h: Hash, T: real)
    ensures Progress(c, m, m, h, T)
  {
  }

  ghost predicate AddressesDiffer(nodes: seq<Node>) {
    forall i, j :: 0 <= i < j < |nodes| ==> AddressOf(nodes[i]) != AddressOf(nodes[j])
  }

  /** Each node may be asked, and asking one does not stand in the way of another. */
  ghost predicate AllAskable(c: Config, m: Manager, k: Lookup, nodes: seq<Node>) {
    AddressesDiffer(nodes) && forall n :: n in nodes ==> AddressOf(n) !in k.queried && Load(m, AddressOf(n)) < c.limits.maxPerNode
  }

  lemma RestAskable(c: Config, m: Manager, h: Hash, nodes: seq<Node>, now: real, timeout: real)
    requires h in m.active.m && m.active.m[h].hash == h && nodes != [] && AllAskable(c, m, m.active.m[h], nodes)
    ensures AllAskable(c, SentTo(m, h, nodes[0], now, timeout), SentTo(m, h, nodes[0], now, timeout).active.m[h], nodes[1..])
  {
    hide TransactionId, SentTo;
    SentFields(m, h, nodes[0], now, timeout);
    var m', rest := SentTo(m, h, nodes[0], now, timeout), nodes[1..];
    forall n | n in rest ensures AddressOf(n) !in m'.active.m[h].queried && Load(m', AddressOf(n)) < c.limits.maxPerNode {
      var j :| 0 <= j < |rest| && rest[j] == n;
      assert n == nodes[j + 1] && AddressOf(nodes[0]) != AddressOf(nodes[j + 1]);
    }
  }

  /** top_up's loop. */
  lemma {:induction false} SendEachInv(c: Config, m: Manager, w: map<Tid, Birth>, k: Clock, h: Hash, nodes: seq<Node>, now: real, T: real)
    returns (w': map<Tid, Birth>)
    requires Settings(c, k) && Inv(c, m, w, k) && h in m.active.m && m.active.m[h].hash == h
    requires Timely(k, now) && T <= now <= m.tokensTime
    requires |m.active.m[h].pending.m| + |nodes| <= c.limits.alpha && m.active.m[h].sent + |nodes| <= c.limits.maxQueries
    requires Separate(c) ==> AllAskable(c, m, m.active.m[h], nodes)
    ensures var m' := SentToEach(c, m, h, nodes, now); Inv(c, m', w', k) && Progress(c, m, m', h, T)
    decreases |nodes|
  {
    hide SentTo, Inv, TransactionId, CycleLongEnough, Measure, Load, BudgetAt, Separate, AllAskable;
    if nodes == [] || m.tokens < 1.0 {
      w' := w;
      ProgressHere(c, m, h, T);
    } else {
      var m1 := SentTo(m, h, nodes[0], now, c.limits.queryTimeout);
      if Separate(c) {
        FirstAskable(c, m, m.active.m[h], nodes);
        RestAskable(c, m, h, nodes, now, c.limits.queryTimeout);
      }
      var w1 := SendInv(c, m, w, k, h, nodes[0], now, c.limits.queryTimeout, T);
      w' := SendEachInv(c, m1, w1, k, h, nodes[1..], now, T);
      ProgressTransitive(c, m, m1, SentToEach(c, m1, h, nodes[1..], now), h, T);
    }
  }

  lemma FirstAskable(c: Config, m: Manager, k: Lookup, nodes: seq<Node>)
    requires AllAskable(c, m, k, nodes) && nodes != []
    ensures AddressOf(nodes[0]) !in k.queried && Load(m, AddressOf(nodes[0])) < c.limits.maxPerNode
  {
    assert nodes[0] in nodes;
  }

  lemma TopUpInv(c: Config, m: Manager, w: map<Tid, Birth>, k: Clock, h: Hash, now: real, T: real) returns (w': map<Tid, Birth>)
    requires Settings(c, k) && Inv(c, m, w, k) && h in m.active.m && m.active.m[h].hash == h && Timely(k, now) && T <= now
    ensures var m' := ToppedUp(c, m, h, now); Inv(c, m', w', k) && Progress(c, m, m', h, T)
  {
    hide Inv, Refilled, CycleLongEnough, SelectClosest, SentToEach, Candidates, Later, Measure, Separate, AllAskable;
    var free := Free(c, m.active.m[h]);
    w' := w;
    if free <= 0 {
      ProgressHere(c, m, h, T);
    } else {
      RefillInv(c, m, w, k, now, T);
      var m1 := Refilled(c, m, now);
      RefillTouches(c, m, now, h, T);
      if m1.tokens >= 1.0 {
        var candidates := Candidates(c, m1.inFlight, m.active.m[h]);
        var chosen := SelectClosest(candidates, h, free);
        if Separate(c) { ChosenAskable(c, m1, w, k, h, free); }
        w' := SendEachInv(c, m1, w, k, h, chosen, now, T);
        ProgressTransitive(c, m, m1, SentToEach(c, m1, h, chosen, now), h, T);
      }
    }
  }

  lemma CandidateOk(c: Config, m: Manager, lookup: Lookup, n: Node)
    requires n in Candidates(c, m.inFlight, lookup)
    ensures AddressOf(n) !in lookup.queried && Load(m, AddressOf(n)) < c.limits.maxPerNode
    ensures n in Values(lookup.shortlist.keys, lookup.shortlist.m)
  {
    hide Values;
    var s := Candidates(c, m.inFlight, lookup);
    var i :| 0 <= i < |s| && s[i] == n;
  }

  lemma {:induction false} ValueOf(keys: seq<NodeId>, all: map<NodeId, Node>, n: Node)
    requires n in Values(keys, all)
    ensures exists id :: id in keys && id in all && all[id] == n
  {
    if keys[0] in all && all[keys[0]] == n {
      assert keys[0] in keys;
    } else {
      ValueOf(keys[1..], all, n);
    }
  }

  /** A shortlist holds no node twice, */
  lemma {:induction false} ValuesDistinct(keys: seq<NodeId>, all: map<NodeId, Node>)
    requires Distinct(keys) && forall id :: id in all ==> all[id].id == id
    ensures Distinct(Values(keys, all))
    decreases |keys|
  {
    if keys != [] {
      var rest := Values(keys[1..], all);
      ValuesDistinct(keys[1..], all);
      if keys[0] in all && all[keys[0]] in rest {
        ValueOf(keys[1..], all, all[keys[0]]);
        assert false;
      }
    }
  }

  /** nor do the candidates, */
  lemma {:induction false} FilterDistinct<T(!new)>(s: seq<T>, p: T -> bool)
    requires Distinct(s)
    ensures Distinct(Filter(s, p)) && forall x :: x in Filter(s, p) ==> x in s
    decreases |s|
  {
    if s != [] {
      FilterDistinct(s[1..], p);
      assert forall x :: x in s[1..] ==> x in s && x != s[0];
    }
  }

  lemma {:induction false} DistinctCounts<T(!new)>(s: seq<T>)
    ensures Distinct(s) <==> forall x :: multiset(s)[x] <= 1
    decreases |s|
  {
    if s != [] {
      DistinctCounts(s[1..]);
      assert s == [s[0]] + s[1..];
      assert multiset(s) == multiset{s[0]} + multiset(s[1..]);
      if Distinct(s) {
        assert s[0] !in s[1..];
      } else {
        OneTwice(s);
        if s[0] in s[1..] {
          assert multiset(s)[s[0]] >= 2;
        } else {
          var x :| multiset(s[1..])[x] > 1;
          assert multiset(s)[x] > 1;
        }
      }
    }
  }

  lemma OneTwice<T(!new)>(s: seq<T>)
    requires s != [] && !Distinct(s)
    ensures s[0] in s[1..] || !Distinct(s[1..])
  {
    var i, j :| 0 <= i < j < |s| && s[i] == s[j];
    assert s[1..][j - 1] == s[j];
    if i > 0 { assert s[1..][i - 1] == s[i]; }
  }

  /** nor do the nodes chosen. */
  lemma ClosestDistinct(nodes: seq<Node>, target: NodeId, count: nat)
    requires Distinct(nodes)
    ensures Distinct(SelectClosest(nodes, target, count))
  {
    hide SortByDistance, Distinct;
    DistinctCounts(nodes);
    DistinctCounts(SortByDistance(nodes, target));
    PrefixDistinct(SortByDistance(nodes, target), if |nodes| <= count then |nodes| else count);
    assert SortByDistance(nodes, target)[..|nodes|] == SortByDistance(nodes, target);
  }

  lemma PrefixDistinct<T(!new)>(s: seq<T>, n: nat)
    requires Distinct(s) && n <= |s|
    ensures Distinct(s[..n])
  {
  }

  lemma UsableApart(c: Config, nodes: seq<Node>)
    requires Separate(c) && Distinct(nodes) && (c.limits.alpha == 1 ==> |nodes| <= 1) && forall n :: n in nodes ==> c.usable(n)
    ensures AddressesDiffer(nodes)
  {
    forall i, j | 0 <= i < j < |nodes| ensures AddressOf(nodes[i]) != AddressOf(nodes[j]) {
      assert nodes[i] in nodes && nodes[j] in nodes;
      assert nodes[i] != nodes[j];
    }
  }

  lemma ShortlistOk(c: Config, m: Manager, w: map<Tid, Birth>, k: Clock, h: Hash)
    requires Inv(c, m, w, k) && h in m.active.m
    ensures Ordered(m.active.m[h].shortlist) && Listed(c, m.active.m[h].shortlist.m)
  {
    hide Separate, BirthsOk, CountsMatch, Linked, EventsOk, Ordered, Listed;
  }

  lemma ChosenAskable(c: Config, m: Manager, w: map<Tid, Birth>, k: Clock, h: Hash, free: nat)
    requires Inv(c, m, w, k) && Separate(c) && h in m.active.m && m.active.m[h].hash == h && (c.limits.alpha == 1 ==> free <= 1)
    ensures AllAskable(c, m, m.active.m[h], SelectClosest(Candidates(c, m.inFlight, m.active.m[h]), h, free))
  {
    hide Inv, SelectClosest, Separate, Ordered, Distinct, Values, Candidates, Load, AddressesDiffer, Listed;
    var l := m.active.m[h];
    ShortlistOk(c, m, w, k, h);
    var candidates := Candidates(c, m.inFlight, l);
    var chosen := SelectClosest(candidates, h, free);
    CandidatesDistinct(c, m.inFlight, l);
    ClosestDistinct(candidates, h, free);
    SelectsTheClosest(candidates, h, free);
    forall n | n in chosen ensures AddressOf(n) !in l.queried && Load(m, AddressOf(n)) < c.limits.maxPerNode && c.usable(n) {
      assert n in candidates;
      CandidateOk(c, m, l, n);
      ValueUsable(c, l.shortlist.keys, l.shortlist.m, n);
    }
    UsableApart(c, chosen);
  }

  lemma CandidatesDistinct(c: Config, inFlight: map<Address, nat>, l: Lookup)
    requires Ordered(l.shortlist) && Listed(c, l.shortlist.m)
    ensures Distinct(Candidates(c, inFlight, l))
  {
    hide Values, Filter, Distinct;
    ValuesDistinct(l.shortlist.keys, l.shortlist.m);
    FilterDistinct(Values(l.shortlist.keys, l.shortlist.m), Askable(c, inFlight, l.queried));
  }

  lemma ValueUsable(c: Config, keys: seq<NodeId>, all: map<NodeId, Node>, n: Node)
    requires Listed(c, all) && n in Values(keys, all)
    ensures c.usable(n)
  {
    hide Values;
    ValueOf(keys, all, n);
  }

  lemma RefillTouches(c: Config, m: Manager, now: real, h: Hash, T: real)
    requires Later(c, m, Refilled(c, m, now), T)
    ensures Progress(c, m, Refilled(c, m, now), h, T) && Refilled(c, m, now).active == m.active
  {
    hide Later;
  }

  /** Releasing a list of ids takes exactly those out of the lookup's pending queries. */
  lemma {:induction false} ReleaseAllInv(c: Config, m: Manager, w: map<Tid, Birth>, k: Clock, h: Hash, tids: seq<Tid>, T: real)
    returns (w': map<Tid, Birth>)
    requires Inv(c, m, w, k) && h in m.active.m && m.active.m[h].hash == h
    ensures var m' := ReleasedAll(m, h, tids); var p, p' := m.active.m[h].pending.m, m'.active.m[h].pending.m;
            Inv(c, m', w', k) && Progress(c, m, m', h, T) && m'.tokens == m.tokens &&
            (forall t :: t in p' <==> t in p && t !in tids) && (forall t :: t in p' ==> p'[t] == p[t]) &&
            (|p'| < |p| ==> Measure(c, m'.active.m[h]) < Measure(c, m.active.m[h]))
    decreases |tids|
  {
    hide Released, Inv, BudgetAt, Ordered;
    if tids == [] {
      w' := w;
      ProgressHere(c, m, h, T);
    } else if tids[0] in m.active.m[h].pending.m {
      var m1 := Released(m, h, tids[0]);
      var w1 := ReleaseInv(c, m, w, k, h, tids[0], T);
      w' := ReleaseAllInv(c, m1, w1, k, h, tids[1..], T);
      ProgressTransitive(c, m, m1, ReleasedAll(m1, h, tids[1..]), h, T);
    } else {
      w' := ReleaseAllInv(c, m, w, k, h, tids[1..], T);
    }
  }

  /** A lookup with nothing pending leaves the table. */
  lemma DropInv(c: Config, m: Manager, w: map<Tid, Birth>, k: Clock, h: Hash, T: real)
    requires Inv(c, m, w, k) && h in m.active.m && m.active.m[h].pending.m == map[]
    ensures var m' := m.(active := Pop(m.active, h), finished := m.finished + 1,
                         events := m.events + [Finished(h, SortedPeers(m.active.m[h].found))]);
            Inv(c, m', w, k) && Progress(c, m, m', h, T)
  {
    hide SortedPeers, Ordered, CountsMatch, Linked, Queries, Lifecycle, CapsHold, Budgeted, Later, InOrder;
    var peers := SortedPeers(m.active.m[h].found);
    SortedInOrder(m.active.m[h].found);
    var m' := m.(active := Pop(m.active, h), finished := m.finished + 1, events := m.events + [Finished(h, peers)]);
    DropLinks(m.transactions, m.active.m, h);
    DropLifecycle(m, m', h, peers);
    DropCaps(c, m, m', h);
    BudgetSame(c, m, m', w, k);
    LaterSame(c, m, m', T);
  }

  lemma DropCaps(c: Config, m: Manager, m': Manager, h: Hash)
    requires CapsHold(c, m) && m'.inFlight == m.inFlight && h in m.active.m && m'.active.m == m.active.m - {h}
    ensures CapsHold(c, m')
  {
    hide LookupOk, Separate;
    OneLess(m.active.m, h);
  }

  lemma DropLifecycle(m: Manager, m': Manager, h: Hash, peers: seq<Address>)
    requires Lifecycle(m) && h in m.active.m && m'.active.m == m.active.m - {h} && multiset(peers) == multiset(m.active.m[h].found) && InOrder(peers)
    requires m'.events == m.events + [Finished(h, peers)] && m'.started == m.started && m'.finished == m.finished + 1
    ensures Lifecycle(m')
  {
    hide EventsOk, StartedCount, FinishedCount, Streaming, InOrder;
    assert Streaming(m.events, h) == Some(m.active.m[h].found);
    EventsGrow(m.events, Finished(h, peers));
    StreamingGrows(m.events, Finished(h, peers));
    OneLess(m.active.m, h);
  }

  lemma OneLess<K, V>(m: map<K, V>, h: K)
    requires h in m
    ensures |m - {h}| == |m| - 1
  {
    assert (m - {h}).Keys == m.Keys - {h};
    assert |m - {h}| == |(m - {h}).Keys| && |m| == |m.Keys|;
  }

  lemma SamePending(tr: map<Tid, Hash>, act: Lookups, act': Lookups)
    requires Linked(tr, act)
    requires forall g, t :: HasPending(act', g, t) <==> HasPending(act, g, t)
    requires forall g, t :: HasPending(act, g, t) ==> g in act' && t in act'[g].pending.m && g in act && t in act[g].pending.m && act'[g].pending.m[t] == act[g].pending.m[t]
    ensures Linked(tr, act') && Queries(tr, act') == Queries(tr, act)
  {
    hide HasPending;
    forall u | u in tr ensures HasPending(act', tr[u], u) { assert HasPending(act, tr[u], u); }
    assert Queries(tr, act') == Queries(tr, act);
  }

  lemma DropLinks(tr: map<Tid, Hash>, act: Lookups, h: Hash)
    requires Linked(tr, act) && h in act && act[h].pending.m == map[]
    ensures Linked(tr, act - {h}) && Queries(tr, act - {h}) == Queries(tr, act)
  {
    hide Linked, Queries;
    SamePending(tr, act, act - {h});
  }

  lemma BudgetSame(c: Config, m: Manager, m': Manager, w: map<Tid, Birth>, k: Clock)
    requires Budgeted(c, m, w, k) && m'.transactions == m.transactions && InFlightQueries(m') == InFlightQueries(m)
    requires m'.tokens == m.tokens && m'.tokensTime == m.tokensTime && m'.sequence == m.sequence
    ensures Budgeted(c, m', w, k)
  {
    hide InFlightQueries, BirthsOk, LongestTimeout;
  }

  lemma CapsReplace(c: Config, m: Manager, m': Manager, h: Hash)
    requires CapsHold(c, m) && m'.inFlight == m.inFlight && m'.active.m.Keys == m.active.m.Keys
    requires forall g :: g in m.active.m && g != h ==> m'.active.m[g] == m.active.m[g]
    requires h in m.active.m ==> LookupOk(c, m'.active.m[h])
    ensures CapsHold(c, m')
  {
    hide LookupOk, Separate;
    SameSize(m.active.m, m'.active.m);
  }

  lemma LaterSame(c: Config, m: Manager, m': Manager, T: real)
    requires m'.queries == m.queries && m'.tokens == m.tokens && m'.tokensTime == m.tokensTime && m.events <= m'.events
    ensures Later(c, m, m', T)
  {
  }

  lemma FinishInv(c: Config, m: Manager, w: map<Tid, Birth>, k: Clock, h: Hash, T: real) returns (w': map<Tid, Birth>)
    requires Inv(c, m, w, k) && h in m.active.m && m.active.m[h].hash == h
    ensures var m' := FinishedLookup(m, h);
            Inv(c, m', w', k) && Progress(c, m, m', h, T) && h !in m'.active.m
  {
    hide Inv, BudgetAt, SortedPeers, ReleasedAll, Measure, Ordered, Distinct, Without, Later;
    var tids := m.active.m[h].pending.keys;
    PendingOrdered(c, m, w, k, h);
    var m1 := ReleasedAll(m, h, tids);
    w' := ReleaseAllInv(c, m, w, k, h, tids, T);
    assert m1.active.m[h].pending.m == map[];
    DropInv(c, m1, w', k, h, T);
    ProgressTransitive(c, m, m1, FinishedLookup(m, h), h, T);
  }

  lemma PendingOrdered(c: Config, m: Manager, w: map<Tid, Birth>, k: Clock, h: Hash)
    requires Inv(c, m, w, k) && h in m.active.m
    ensures forall t :: t in m.active.m[h].pending.keys <==> t in m.active.m[h].pending.m
  {
    hide LookupOk, BirthsOk, CountsMatch, Linked, EventsOk;
  }

  lemma AdvanceInv(c: Config, m: Manager, w: map<Tid, Birth>, k: Clock, h: Hash, now: real, T: real) returns (w': map<Tid, Birth>)
    requires Settings(c, k) && Inv(c, m, w, k) && h in m.active.m && m.active.m[h].hash == h && Timely(k, now) && T <= now
    ensures var m' := Advanced(c, m, h, now);
            Inv(c, m', w', k) && Progress(c, m, m', h, T) && (h in m'.active.m ==> now < m'.active.m[h].deadline)
  {
    hide Inv, BudgetAt, FinishedLookup, ToppedUp, CanQueryMore, CycleLongEnough, Measure;
    if MustFinish(c, m.active.m[h], now) {
      w' := FinishInv(c, m, w, k, h, T);
    } else if m.active.m[h].hint.Some? {
      w' := w;
      ProgressHere(c, m, h, T);
    } else {
      var m1 := ToppedUp(c, m, h, now);
      w' := TopUpInv(c, m, w, k, h, now, T);
      if |m1.active.m[h].pending.m| == 0 && !CanQueryMore(c, m1.active.m[h]) {
        w' := FinishInv(c, m1, w', k, h, T);
        ProgressTransitive(c, m, m1, FinishedLookup(m1, h), h, T);
      }
    }
  }

  // ----- answers and errors

  lemma ShortlistedFields(c: Config, lookup: Lookup, nodes: seq<Node>)
    requires Ordered(lookup.shortlist) && Listed(c, lookup.shortlist.m)
    ensures var k := Shortlisted(c, lookup, nodes);
            k == lookup.(shortlist := k.shortlist) && Ordered(k.shortlist) && |k.shortlist.m| <= c.limits.shortlistSize && Listed(c, k.shortlist.m)
  {
    hide SelectClosest, Values, PutNodes, Ordered;
    EmptyOrdered();
    var all := PutNodes(lookup.shortlist, nodes, Wanted(c, lookup.queried));
    assert Listed(c, all.m);
    if |all.m| > c.limits.shortlistSize {
      var closest := SelectClosest(Values(all.keys, all.m), lookup.hash, c.limits.shortlistSize);
      SelectsTheClosest(Values(all.keys, all.m), lookup.hash, c.limits.shortlistSize);
      var kept := PutNodes(Empty(), closest, Always());
      forall id | id in kept.m ensures kept.m[id].id == id && c.usable(kept.m[id]) {
        assert kept.m[id] in closest;
        ValueUsable(c, all.keys, all.m, kept.m[id]);
      }
    }
  }

  lemma AcceptedDistinct(c: Config, found: seq<Address>, values: seq<Address>)
    requires Distinct(found) && |found| <= c.limits.maxPeers
    ensures var all := Accepted(c, found, values);
            Distinct(all) && |all| <= c.limits.maxPeers && found <= all && all == found + all[|found|..]
  {
    hide Distinct, Accepted;
  }

  lemma AbsorbedFields(c: Config, m: Manager, h: Hash, response: Response)
    requires h in m.active.m && m.active.m[h].hash == h && Ordered(m.active.m[h].shortlist) && Listed(c, m.active.m[h].shortlist.m)
    ensures var m' := Absorbed(c, m, h, response); var k := m.active.m[h];
            h in m'.active.m && var k' := m'.active.m[h]; var news := k'.found[|k.found|..];
            k'.found == Accepted(c, k.found, response.values) && Ordered(k'.shortlist) && (|k.shortlist.m| <= c.limits.shortlistSize ==> |k'.shortlist.m| <= c.limits.shortlistSize) && Listed(c, k'.shortlist.m) &&
            k' == k.(found := k'.found, valueResponses := k'.valueResponses, shortlist := k'.shortlist) &&
            m'.active == Put(m.active, h, k') && m' == m.(active := m'.active, events := m'.events) &&
            m'.events == m.events + (if news != [] then [Streamed(h, news)] else [])
  {
    hide Accepted, Shortlisted, Ordered, Listed;
    var k := m.active.m[h];
    var heard := k.(found := Accepted(c, k.found, response.values), valueResponses := k.valueResponses + (if response.values != [] then 1 else 0));
    if response.nodes.Some? { ShortlistedFields(c, heard, response.nodes.value); }
    var with4 := if response.nodes.Some? then Shortlisted(c, heard, response.nodes.value) else heard;
    if response.nodes6.Some? { ShortlistedFields(c, with4, response.nodes6.value); }
  }

  lemma LifecycleStreamed(m: Manager, m': Manager, h: Hash, news: seq<Address>)
    requires Lifecycle(m) && h in m.active.m && h in m'.active.m && m'.started == m.started && m'.finished == m.finished
    requires m'.active.m.Keys == m.active.m.Keys && forall g :: g in m.active.m && g != h ==> m'.active.m[g] == m.active.m[g]
    requires m'.active.m[h].found == m.active.m[h].found + news && Distinct(m'.active.m[h].found)
    requires m'.events == m.events + (if news != [] then [Streamed(h, news)] else [])
    ensures Lifecycle(m')
  {
    hide EventsOk, StartedCount, FinishedCount, Streaming, Distinct;
    SameSize(m.active.m, m'.active.m);
    if news == [] {
      assert m.active.m[h].found + news == m.active.m[h].found;
      assert m.events + [] == m.events;
    } else {
      assert Streaming(m.events, h) == Some(m.active.m[h].found);
      EventsGrow(m.events, Streamed(h, news));
      StreamingGrows(m.events, Streamed(h, news));
    }
  }

  lemma SameLinks(m: Manager, m': Manager)
    requires TablesAgree(m) && m'.transactions == m.transactions && m'.inFlight == m.inFlight && Filed(m')
    requires m'.active.m.Keys == m.active.m.Keys && forall h :: h in m.active.m ==> m'.active.m[h].pending == m.active.m[h].pending
    ensures TablesAgree(m') && InFlightQueries(m') == InFlightQueries(m)
  {
    hide CountsMatch, Ordered;
    SamePending(m.transactions, m.active.m, m'.active.m);
  }

  lemma AbsorbInv(c: Config, m: Manager, w: map<Tid, Birth>, k: Clock, h: Hash, response: Response, T: real)
    requires Inv(c, m, w, k) && h in m.active.m && m.active.m[h].hash == h
    ensures var m' := Absorbed(c, m, h, response);
            Inv(c, m', w, k) && Progress(c, m, m', h, T) && h in m'.active.m && m'.active.m[h].hash == h
  {
    hide Accepted, Absorbed, Ordered, Distinct, CountsMatch, Linked, Lifecycle, Budgeted, InFlightQueries, CapsHold, Later, Separate, Listed;
    CapsAt(c, m, h);
    AbsorbedFields(c, m, h, response);
    var m' := Absorbed(c, m, h, response);
    var a, b := m.active.m[h], m'.active.m[h];
    AcceptedDistinct(c, a.found, response.values);
    SameLinks(m, m');
    CapsReplace(c, m, m', h);
    BudgetSame(c, m, m', w, k);
    LaterSame(c, m, m', T);
    LifecycleStreamed(m, m', h, b.found[|a.found|..]);
  }

  lemma CapsAt(c: Config, m: Manager, h: Hash)
    requires CapsHold(c, m) && h in m.active.m
    ensures LookupOk(c, m.active.m[h])
  {
  }

  lemma AnswerInv(c: Config, m: Manager, w: map<Tid, Birth>, k: Clock, t: Tid, response: Option<Response>, address: Address, now: real, T: real)
    returns (w': map<Tid, Birth>)
    requires Settings(c, k) && Inv(c, m, w, k) && t in m.transactions && Timely(k, now) && T <= now
    ensures m.transactions[t] in m.active.m && m.active.m[m.transactions[t]].hash == m.transactions[t]
    ensures var m' := Answered(c, m, t, response, address, now); var h := m.transactions[t];
            Inv(c, m', w', k) && Progress(c, m, m', h, T) &&
            (Expected(m, t, address) && h in m'.active.m ==> Measure(c, m'.active.m[h]) < Measure(c, m.active.m[h]))
  {
    hide Inv, BudgetAt, Advanced, Absorbed, CycleLongEnough, Measure, Ordered;
    var h := m.transactions[t];
    OwnerActive(c, m, w, k, t);
    if Expected(m, t, address) {
      var m1 := Released(m, h, t);
      var w1 := ReleaseInv(c, m, w, k, h, t, T);
      var m2 := m1;
      if response.Some? {
        AbsorbInv(c, m1, w1, k, h, response.value, T);
        m2 := Absorbed(c, m1, h, response.value);
        ProgressTransitive(c, m, m1, m2, h, T);
      }
      w' := AdvanceInv(c, m2, w1, k, h, now, T);
      ProgressTransitive(c, m, m2, Advanced(c, m2, h, now), h, T);
    } else {
      w' := w;
      ProgressHere(c, m, h, T);
    }
  }

  /** A transaction in the table belongs to an active lookup that has it pending. */
  lemma OwnerActive(c: Config, m: Manager, w: map<Tid, Birth>, k: Clock, t: Tid)
    requires Inv(c, m, w, k) && t in m.transactions
    ensures var h := m.transactions[t]; h in m.active.m && m.active.m[h].hash == h && t in m.active.m[h].pending.m
  {
    hide LookupOk, BirthsOk, CountsMatch, EventsOk, Ordered;
    assert HasPending(m.active.m, m.transactions[t], t);
  }

  lemma ErrorInv(c: Config, m: Manager, w: map<Tid, Birth>, k: Clock, t: Tid, now: real, T: real) returns (w': map<Tid, Birth>)
    requires Settings(c, k) && Inv(c, m, w, k) && t in m.transactions && Timely(k, now) && T <= now
    ensures m.transactions[t] in m.active.m && m.active.m[m.transactions[t]].hash == m.transactions[t]
    ensures var m' := Errored(c, m, t, now); var h := m.transactions[t];
            Inv(c, m', w', k) && Progress(c, m, m', h, T) &&
            (h in m'.active.m ==> Measure(c, m'.active.m[h]) < Measure(c, m.active.m[h]))
  {
    hide Inv, BudgetAt, Advanced, CycleLongEnough, Measure, Ordered;
    var h := m.transactions[t];
    OwnerActive(c, m, w, k, t);
    var m1 := Released(m, h, t);
    var w1 := ReleaseInv(c, m, w, k, h, t, T);
    w' := AdvanceInv(c, m1, w1, k, h, now, T);
    ProgressTransitive(c, m, m1, Advanced(c, m1, h, now), h, T);
  }

  // ----- starting

  /** The entry start_lookup makes before the first query. */
  lemma EnterInv(c: Config, m: Manager, w: map<Tid, Birth>, k: Clock, h: Hash, lookup: Lookup, T: real)
    requires ConfigOk(c) && Inv(c, m, w, k) && h !in m.active.m && |m.active.m| < c.limits.maxActive
    requires lookup.hash == h && lookup.pending == Empty() && Ordered(lookup.shortlist) && |lookup.shortlist.m| <= c.limits.shortlistSize && Listed(c, lookup.shortlist.m)
    requires lookup.found == [] && lookup.sent == 0 && lookup.queried == {} && lookup.hint.None?
    ensures var m' := SetLookup(m, lookup).(started := m.started + 1, events := m.events + [Started(h)]);
            Inv(c, m', w, k) && Progress(c, m, m', h, T) && h in m'.active.m && m'.active.m[h] == lookup
  {
    hide Ordered, CountsMatch, Linked, Queries, Lifecycle, CapsHold, Budgeted, LookupOk, Later, Listed;
    var m' := SetLookup(m, lookup).(started := m.started + 1, events := m.events + [Started(h)]);
    NothingOk(c, lookup);
    EnterLinks(m.transactions, m.active.m, h, lookup);
    EnterCaps(c, m, m', h);
    BudgetSame(c, m, m', w, k);
    LaterSame(c, m, m', T);
    EnterLifecycle(m, m', h);
  }

  lemma EnterCaps(c: Config, m: Manager, m': Manager, h: Hash)
    requires CapsHold(c, m) && m'.inFlight == m.inFlight && h !in m.active.m && |m.active.m| < c.limits.maxActive
    requires h in m'.active.m && m'.active.m == m.active.m[h := m'.active.m[h]] && LookupOk(c, m'.active.m[h])
    ensures CapsHold(c, m')
  {
    hide LookupOk, Separate;
    OneMore(m.active.m, h, m'.active.m[h]);
  }

  lemma EnterLifecycle(m: Manager, m': Manager, h: Hash)
    requires Lifecycle(m) && h !in m.active.m && h in m'.active.m && m'.active.m == m.active.m[h := m'.active.m[h]] && m'.active.m[h].found == []
    requires m'.events == m.events + [Started(h)] && m'.started == m.started + 1 && m'.finished == m.finished
    ensures Lifecycle(m')
  {
    hide EventsOk, StartedCount, FinishedCount, Streaming;
    EventsGrow(m.events, Started(h));
    StreamingGrows(m.events, Started(h));
    OneMore(m.active.m, h, m'.active.m[h]);
  }

  lemma NothingOk(c: Config, lookup: Lookup)
    requires lookup.pending == Empty() && |lookup.shortlist.m| <= c.limits.shortlistSize && Listed(c, lookup.shortlist.m)
    requires lookup.found == [] && lookup.sent == 0 && lookup.queried == {} && lookup.hint.None?
    ensures LookupOk(c, lookup) && Ordered(lookup.pending)
  {
    hide Separate, Listed;
  }

  lemma EnterLinks(tr: map<Tid, Hash>, act: Lookups, h: Hash, lookup: Lookup)
    requires Linked(tr, act) && h !in act && lookup.pending.m == map[]
    ensures Linked(tr, act[h := lookup]) && Queries(tr, act[h := lookup]) == Queries(tr, act)
  {
    hide Linked, Queries;
    SamePending(tr, act, act[h := lookup]);
  }

  lemma HintInv(c: Config, m: Manager, w: map<Tid, Birth>, k: Clock, h: Hash, t: Tid, T: real)
    requires Inv(c, m, w, k) && h in m.active.m && m.active.m[h].hash == h && t in m.active.m[h].pending.m
    ensures var m' := SetLookup(m, m.active.m[h].(hint := Some(t)));
            Inv(c, m', w, k) && Progress(c, m, m', h, T) && m'.active.m.Keys == m.active.m.Keys
  {
    hide Ordered, Distinct, CountsMatch, Linked, Lifecycle, CapsHold, Budgeted, InFlightQueries, Later, Separate, Listed;
    var m' := SetLookup(m, m.active.m[h].(hint := Some(t)));
    SameLinks(m, m');
    CapsAt(c, m, h);
    CapsReplace(c, m, m', h);
    BudgetSame(c, m, m', w, k);
    LaterSame(c, m, m', T);
    LifecycleSame(m, m');
  }

  lemma StartInv(c: Config, m: Manager, w: map<Tid, Birth>, k: Clock, h: Hash, seeds: seq<Node>, now: real, hint: Option<Node>, T: real)
    returns (w': map<Tid, Birth>)
    requires Settings(c, k) && Inv(c, m, w, k) && Timely(k, now) && T <= now
    ensures var (m', ok) := StartedLookup(c, m, h, seeds, now, hint);
            Inv(c, m', w', k) && Progress(c, m, m', h, T) &&
            (ok ==> h !in m.active.m && h in m'.active.m) && (!ok ==> m'.active == m.active)
  {
    hide Inv, BudgetAt, Begun, Shortlisted, CycleLongEnough, Measure, Ordered, Load, Later, Listed;
    w' := w;
    ProgressHere(c, m, h, T);
    if h !in m.active.m && |m.active.m| < c.limits.maxActive {
      var m1 := Refilled(c, m, now);
      RefillInv(c, m, w, k, now, T);
      RefillTouches(c, m, now, h, T);
      var usable := if hint.Some? && !c.usable(hint.value) then None else hint;
      var lookup := Shortlisted(c, NewLookup(c, h, now), seeds);
      EmptyOrdered();
      NothingListed(c, h, now);
      ShortlistedFields(c, NewLookup(c, h, now), seeds);
      if m1.tokens >= 1.0 && !(usable.Some? && Load(m1, AddressOf(usable.value)) >= c.limits.maxPerNode) &&
         !(usable.None? && |lookup.shortlist.m| == 0) {
        w' := BegunInv(c, m1, w, k, lookup, usable, now, T);
        ProgressTransitive(c, m, m1, Begun(c, m1, lookup, usable, now), h, T);
      }
    }
  }

  lemma BegunInv(c: Config, m: Manager, w: map<Tid, Birth>, k: Clock, lookup: Lookup, hint: Option<Node>, now: real, T: real)
    returns (w': map<Tid, Birth>)
    requires Settings(c, k) && Inv(c, m, w, k) && lookup.hash !in m.active.m && |m.active.m| < c.limits.maxActive
    requires lookup.pending == Empty() && Ordered(lookup.shortlist) && |lookup.shortlist.m| <= c.limits.shortlistSize && Listed(c, lookup.shortlist.m)
    requires lookup.found == [] && lookup.sent == 0 && lookup.queried == {} && lookup.hint.None?
    requires Timely(k, now) && T <= now <= m.tokensTime && m.tokens >= 1.0
    requires hint.Some? ==> Load(m, AddressOf(hint.value)) < c.limits.maxPerNode
    ensures var m' := Begun(c, m, lookup, hint, now);
            Inv(c, m', w', k) && Progress(c, m, m', lookup.hash, T) && lookup.hash in m'.active.m
  {
    hide Inv, BudgetAt, ToppedUp, Hinted, CycleLongEnough, Measure, Ordered, Load, Later, Separate, Listed;
    var h, m1 := lookup.hash, Admitted(m, lookup);
    EnterInv(c, m, w, k, h, lookup, T);
    if hint.Some? {
      LoadSame(m, m1, AddressOf(hint.value));
      w' := HintedInv(c, m1, w, k, h, hint.value, now, T);
      ProgressTransitive(c, m, m1, Hinted(c, m1, h, hint.value, now), h, T);
    } else {
      w' := TopUpInv(c, m1, w, k, h, now, T);
      ProgressTransitive(c, m, m1, ToppedUp(c, m1, h, now), h, T);
    }
  }

  /** The first query to the hint node. */
  lemma HintedInv(c: Config, m: Manager, w: map<Tid, Birth>, k: Clock, h: Hash, node: Node, now: real, T: real)
    returns (w': map<Tid, Birth>)
    requires Settings(c, k) && Inv(c, m, w, k) && MaySend(c, m, h, AddressOf(node)) && m.active.m[h].hash == h
    requires Timely(k, now) && T <= now <= m.tokensTime
    ensures var m' := Hinted(c, m, h, node, now);
            Inv(c, m', w', k) && Progress(c, m, m', h, T) && h in m'.active.m
  {
    hide Inv, BudgetAt, SentTo, CycleLongEnough, Measure, Ordered, Load, Later, MaySend;
    MayIsActive(c, m, h, AddressOf(node));
    var m1 := SentTo(m, h, node, now, c.limits.hintTimeout);
    w' := SendInv(c, m, w, k, h, node, now, c.limits.hintTimeout, T);
    SentPending(m, h, node, now, c.limits.hintTimeout);
    HintInv(c, m1, w', k, h, TransactionId(m.sequence), T);
    ProgressTransitive(c, m, m1, Hinted(c, m, h, node, now), h, T);
  }

  lemma MayIsActive(c: Config, m: Manager, h: Hash, a: Address)
    requires MaySend(c, m, h, a)
    ensures h in m.active.m
  {
  }

  lemma LoadSame(m: Manager, m': Manager, a: Address)
    requires m'.inFlight == m.inFlight
    ensures Load(m', a) == Load(m, a)
  {
  }

  lemma NothingListed(c: Config, h: Hash, now: real)
    ensures Listed(c, NewLookup(c, h, now).shortlist.m)
  {
  }

  lemma EmptyOrdered()
    ensures Ordered(Empty<NodeId, Node>())
  {
  }

  lemma SentPending(m: Manager, h: Hash, node: Node, now: real, timeout: real)
    requires h in m.active.m && m.active.m[h].hash == h
    ensures TransactionId(m.sequence) in SentTo(m, h, node, now, timeout).active.m[h].pending.m
  {
  }

  // ----- the tick

  /** Nothing of this lookup is overdue. */
  predicate OnTime(k: Lookup, now: real) {
    now < k.deadline && forall t :: t in k.pending.m ==> now < k.pending.m[t].expiry
  }

  predicate Unexpired(k: Lookup, now: real) {
    forall t :: t in k.pending.m ==> now < k.pending.m[t].expiry
  }

  lemma {:induction false} SendEachUnexpired(c: Config, m: Manager, h: Hash, nodes: seq<Node>, now: real)
    requires ConfigOk(c) && h in m.active.m && m.active.m[h].hash == h && Unexpired(m.active.m[h], now)
    ensures Unexpired(SentToEach(c, m, h, nodes, now).active.m[h], now)
    decreases |nodes|
  {
    hide TransactionId;
    if nodes != [] && m.tokens >= 1.0 {
      SendEachUnexpired(c, SentTo(m, h, nodes[0], now, c.limits.queryTimeout), h, nodes[1..], now);
    }
  }

  lemma AdvanceUnexpired(c: Config, m: Manager, h: Hash, now: real)
    requires ConfigOk(c) && h in m.active.m && m.active.m[h].hash == h && Unexpired(m.active.m[h], now)
    ensures h in Advanced(c, m, h, now).active.m ==> Unexpired(Advanced(c, m, h, now).active.m[h], now)
  {
    hide SentToEach, SelectClosest, Candidates, ReleasedAll, CanQueryMore, SortedPeers, Unexpired;
    var m1 := Refilled(c, m, now);
    SendEachUnexpired(c, m1, h, SelectClosest(Candidates(c, m1.inFlight, m.active.m[h]), h, if Free(c, m.active.m[h]) > 0 then Free(c, m.active.m[h]) else 0), now);
  }

  lemma ExpiredInv(c: Config, m: Manager, w: map<Tid, Birth>, k: Clock, h: Hash, now: real, T: real) returns (w': map<Tid, Birth>)
    requires Inv(c, m, w, k) && h in m.active.m && m.active.m[h].hash == h
    ensures var m' := Expired(m, h, now);
            Inv(c, m', w', k) && Progress(c, m, m', h, T) && h in m'.active.m && m'.active.m[h].hash == h && Unexpired(m'.active.m[h], now) &&
            // something expired: the lookup is nearer its end
            ((exists t :: t in m.active.m[h].pending.m && m.active.m[h].pending.m[t].expiry <= now) ==>
               Measure(c, m'.active.m[h]) < Measure(c, m.active.m[h]))
  {
    hide Inv, ReleasedAll, BudgetAt, Measure;
    var p := m.active.m[h].pending;
    var ids := ExpiredIds(m.active.m[h], now);
    w' := ReleaseAllInv(c, m, w, k, h, ids, T);
    PendingOrdered(c, m, w, k, h);
    ExpiredExactly(m.active.m[h], now);
    var p' := Expired(m, h, now).active.m[h].pending;
    if t :| t in p.m && p.m[t].expiry <= now {
      assert t in p.m.Keys && t !in p'.m.Keys;
      assert p'.m.Keys < p.m.Keys;
      Smaller(p.m, p'.m);
    }
  }

  lemma Smaller<K, V>(m: map<K, V>, m': map<K, V>)
    requires m'.Keys < m.Keys
    ensures |m'| < |m|
  {
    var rest := m.Keys - m'.Keys;
    assert m.Keys == m'.Keys + rest && rest != {};
    assert |m| == |m.Keys| && |m'| == |m'.Keys|;
  }

  lemma ExpiredExactly(k: Lookup, now: real)
    requires forall t :: t in k.pending.keys <==> t in k.pending.m
    ensures forall t :: t in ExpiredIds(k, now) <==> t in k.pending.m && k.pending.m[t].expiry <= now
  {
    var ids := ExpiredIds(k, now);
    forall t ensures t in ids <==> t in k.pending.m && k.pending.m[t].expiry <= now {
      if t in ids { var i :| 0 <= i < |ids| && ids[i] == t; }
      if t in k.pending.m { var i :| 0 <= i < |k.pending.keys| && k.pending.keys[i] == t; }
    }
  }

  /** tick's loop: the lookups still listed may be overdue, the others are not. */
  lemma {:induction false} TickEachInv(c: Config, m: Manager, w: map<Tid, Birth>, k: Clock, hashes: seq<Hash>, now: real, T: real)
    returns (w': map<Tid, Birth>)
    requires Settings(c, k) && Inv(c, m, w, k) && Timely(k, now) && T <= now
    requires forall h :: h in m.active.m && h !in hashes ==> OnTime(m.active.m[h], now)
    ensures var m' := TickedEach(c, m, hashes, now);
            Inv(c, m', w', k) && Later(c, m, m', T) && m'.active.m.Keys <= m.active.m.Keys &&
            forall h :: h in m'.active.m ==> OnTime(m'.active.m[h], now)
    decreases |hashes|
  {
    hide Inv, BudgetAt, Advanced, Expired, CycleLongEnough, Measure, Ordered, OnTime;
    if hashes == [] {
      w' := w;
    } else {
      var h := hashes[0];
      InvFacts(c, m, w, k, h);
      if h in m.active.m {
        var m1 := Expired(m, h, now);
        var w1 := ExpiredInv(c, m, w, k, h, now, T);
        var m2 := Advanced(c, m1, h, now);
        w1 := AdvanceInv(c, m1, w1, k, h, now, T);
        AdvanceUnexpired(c, m1, h, now);
        if h in m2.active.m { OnTimeFrom(m2.active.m[h], now); }
        forall g | g in m2.active.m && g !in hashes[1..] ensures OnTime(m2.active.m[g], now) {
          if g != h { assert g !in hashes; }
        }
        w' := TickEachInv(c, m2, w1, k, hashes[1..], now, T);
      } else {
        w' := TickEachInv(c, m, w, k, hashes[1..], now, T);
      }
    }
  }

  lemma OnTimeFrom(k: Lookup, now: real)
    requires Unexpired(k, now) && now < k.deadline
    ensures OnTime(k, now)
  {
  }

  /** After a tick nothing is overdue, and the clock of the invariant moves on to it. */
  lemma TickInv(c: Config, m: Manager, w: map<Tid, Birth>, k: Clock, now: real, T: real) returns (w': map<Tid, Birth>)
    requires Settings(c, k) && Inv(c, m, w, k) && Timely(k, now) && T <= now
    ensures var m' := Ticked(c, m, now);
            Inv(c, m', w', Clock(now, k.gap)) && Later(c, m, m', T) &&
            forall h :: h in m'.active.m ==> OnTime(m'.active.m[h], now)
  {
    hide Inv, BudgetAt, TickedEach, CycleLongEnough, OnTime;
    RefillInv(c, m, w, k, now, T);
    ActiveListed(c, m, w, k);
    var m1 := Refilled(c, m, now);
    w' := TickEachInv(c, m1, w, k, m.active.keys, now, T);
    ClockMoves(c, Ticked(c, m, now), w', k, now);
  }

  lemma ActiveListed(c: Config, m: Manager, w: map<Tid, Birth>, k: Clock)
    requires Inv(c, m, w, k)
    ensures forall h :: h in m.active.m <==> h in m.active.keys
  {
    hide LookupOk, BirthsOk, CountsMatch, Linked, EventsOk;
  }

  lemma ClockMoves(c: Config, m: Manager, w: map<Tid, Birth>, k: Clock, now: real)
    requires Inv(c, m, w, k) && k.lastTick <= now && forall h :: h in m.active.m ==> OnTime(m.active.m[h], now)
    ensures Inv(c, m, w, Clock(now, k.gap))
  {
    hide CapsHold, CountsMatch, Lifecycle, LongestTimeout;
    var p := InFlightQueries(m);
    forall t | t in w ensures BirthOk(BucketOf(c, m), LongestTimeout(c), now, t, w[t], p[t].expiry) {
      assert BirthOk(BucketOf(c, m), LongestTimeout(c), k.lastTick, t, w[t], p[t].expiry);
      QueryAt(m.transactions, m.active.m, t);
      assert OnTime(m.active.m[m.transactions[t]], now);
    }
  }

  // ----- shutting down

  lemma {:induction false} AbortEachInv(c: Config, m: Manager, w: map<Tid, Birth>, k: Clock, hashes: seq<Hash>, T: real)
    returns (w': map<Tid, Birth>)
    requires Inv(c, m, w, k)
    ensures var m' := AbortedEach(m, hashes);
            Inv(c, m', w', k) && Later(c, m, m', T) && forall h :: h in m'.active.m ==> h in m.active.m && h !in hashes
    decreases |hashes|
  {
    hide Inv, BudgetAt, FinishedLookup, Measure, Ordered;
    w' := w;
    if hashes != [] {
      var h := hashes[0];
      InvFacts(c, m, w, k, h);
      if h in m.active.m {
        w' := FinishInv(c, m, w, k, h, T);
        w' := AbortEachInv(c, FinishedLookup(m, h), w', k, hashes[1..], T);
      } else {
        w' := AbortEachInv(c, m, w, k, hashes[1..], T);
      }
    }
  }

  // ----- runs

  /** What the crawler thread calls. Answers and errors reach the manager only for transactions it owns. */
  datatype Call =
    | Start(now: real, h: Hash, seeds: seq<Node>, hint: Option<Node>)
    | Answer(now: real, t: Tid, response: Option<Response>, address: Address)
    | Error(now: real, t: Tid)
    | Tick(now: real)
    | AbortAll(now: real)

  function Applied(c: Config, m: Manager, call: Call): Manager {
    match call
    case Start(now, h, seeds, hint) => StartedLookup(c, m, h, seeds, now, hint).0
    case Answer(now, t, response, address) =>
      if t in m.transactions && (m.transactions[t] in m.active.m ==> m.active.m[m.transactions[t]].hash == m.transactions[t])
      then Answered(c, m, t, response, address, now) else m
    case Error(now, t) =>
      if t in m.transactions && (m.transactions[t] in m.active.m ==> m.active.m[m.transactions[t]].hash == m.transactions[t])
      then Errored(c, m, t, now) else m
    case Tick(now) => Ticked(c, m, now)
    case AbortAll(now) => AbortedEach(m, m.active.keys)
  }

  function RunAll(c: Config, m: Manager, calls: seq<Call>): Manager
    decreases |calls|
  {
    if calls == [] then m else RunAll(c, Applied(c, m, calls[0]), calls[1..])
  }

  function ClockAfter(k: Clock, call: Call): Clock {
    if call.Tick? then Clock(call.now, k.gap) else k
  }

  /** Every call comes at most `gap` after the last tick, and not before it. */
  predicate TimelyRun(k: Clock, calls: seq<Call>)
    decreases |calls|
  {
    calls != [] ==> Timely(k, calls[0].now) && TimelyRun(ClockAfter(k, calls[0]), calls[1..])
  }

  lemma CallInv(c: Config, m: Manager, w: map<Tid, Birth>, k: Clock, call: Call, T: real) returns (w': map<Tid, Birth>)
    requires Settings(c, k) && Inv(c, m, w, k) && Timely(k, call.now) && T <= call.now
    ensures Inv(c, Applied(c, m, call), w', ClockAfter(k, call)) && Later(c, m, Applied(c, m, call), T)
    ensures call.AbortAll? ==> Applied(c, m, call).active.m == map[]
  {
    hide Inv, BudgetAt, StartedLookup, Answered, Errored, Ticked, AbortedEach, CycleLongEnough, Measure, Ordered;
    w' := w;
    match call
    case Start(now, h, seeds, hint) => w' := StartInv(c, m, w, k, h, seeds, now, hint, T);
    case Answer(now, t, response, address) =>
      if t in m.transactions { w' := AnswerInv(c, m, w, k, t, response, address, now, T); }
    case Error(now, t) =>
      if t in m.transactions { w' := ErrorInv(c, m, w, k, t, now, T); }
    case Tick(now) => w' := TickInv(c, m, w, k, now, T);
    case AbortAll(now) =>
      ActiveListed(c, m, w, k);
      w' := AbortEachInv(c, m, w, k, m.active.keys, T);
  }

  /** Over every run: the tables agree, the caps hold, and every lookup that started finishes once. */
  lemma {:induction false} RunInv(c: Config, m: Manager, w: map<Tid, Birth>, k: Clock, calls: seq<Call>, T: real)
    returns (w': map<Tid, Birth>, k': Clock)
    requires Settings(c, k) && Inv(c, m, w, k) && TimelyRun(k, calls) && forall x :: x in calls ==> T <= x.now
    ensures Inv(c, RunAll(c, m, calls), w', k') && k'.gap == k.gap && Later(c, m, RunAll(c, m, calls), T)
    decreases |calls|
  {
    hide Inv, BudgetAt, Applied, LongestTimeout;
    w', k' := w, k;
    if calls != [] {
      w' := CallInv(c, m, w, k, calls[0], T);
      w', k' := RunInv(c, Applied(c, m, calls[0]), w', ClockAfter(k, calls[0]), calls[1..], T);
    }
  }

  lemma InitialInv(c: Config, now: real, gap: real)
    requires ConfigOk(c) && gap >= 0.0
    ensures Inv(c, Initial(c, now), map[], Clock(now, gap))
  {
    assert forall a :: AskedOf(map[], a) == {};
  }

  /**
   * Between any two moments of a run no more queries are sent than the bucket holds and earns:
   * queries_per_second * (1 + elapsed).
   */
  lemma QueryBudget(c: Config, m: Manager, w: map<Tid, Birth>, k: Clock, calls: seq<Call>, from: real, to: real)
    requires Settings(c, k) && Inv(c, m, w, k) && TimelyRun(k, calls)
    requires m.tokensTime <= from <= to && forall x :: x in calls ==> from <= x.now <= to
    ensures (RunAll(c, m, calls).queries - m.queries) as real <= c.limits.queriesPerSecond * (1.0 + (to - from))
  {
    hide Inv, RunAll, CycleLongEnough, Later;
    var w', k' := RunInv(c, m, w, k, calls, from);
    var m' := RunAll(c, m, calls);
    TokensTimeBound(c, m, calls, to);
    InvFacts(c, m', w', k', 0);
    InvFacts(c, m, w, k, 0);
    BudgetGap(c, m, m', from, to);
  }

  lemma BudgetGap(c: Config, m: Manager, m': Manager, from: real, to: real)
    requires ConfigOk(c) && Later(c, m, m', from) && m.tokensTime <= from <= to && m'.tokensTime <= to
    requires 0.0 <= m'.tokens <= c.limits.queriesPerSecond
    ensures (m'.queries - m.queries) as real <= c.limits.queriesPerSecond * (1.0 + (to - from))
  {
    var q := c.limits.queriesPerSecond;
    SpentBelow(m'.queries, m'.tokens, m'.tokensTime, q, from, to);
    BudgetTop(m.queries, m.tokens, m.tokensTime, q, from);
    assert q * (1.0 + (to - from)) == q + to * q - from * q;
  }

  lemma SpentBelow(queries: nat, tokens: real, tt: real, q: real, from: real, to: real)
    requires q > 0.0 && 0.0 <= tokens <= q && from <= to && tt <= to
    ensures queries as real - to * q <= Budget(queries, tokens, tt, q, from)
  {
    var later := if from > tt then from else tt;
    TimesPositive(q, later - tt);
    TimesMonotone(q, later, to);
  }

  lemma BudgetTop(queries: nat, tokens: real, tt: real, q: real, from: real)
    requires tt <= from
    ensures Budget(queries, tokens, tt, q, from) <= queries as real + q - from * q
  {
  }

  lemma {:induction false} TokensTimeBound(c: Config, m: Manager, calls: seq<Call>, to: real)
    requires m.tokensTime <= to && forall x :: x in calls ==> x.now <= to
    ensures RunAll(c, m, calls).tokensTime <= to
    decreases |calls|
  {
    hide Applied;
    if calls != [] {
      AppliedTime(c, m, calls[0], to);
      TokensTimeBound(c, Applied(c, m, calls[0]), calls[1..], to);
    }
  }

  lemma AppliedTime(c: Config, m: Manager, call: Call, to: real)
    requires m.tokensTime <= to && call.now <= to
    ensures Applied(c, m, call).tokensTime <= to
  {
  }

  /** Once a run has ended with abort_all, every lookup that was started has been reported finished, once. */
  lemma StartedAllFinished(c: Config, now: real, gap: real, calls: seq<Call>, stop: real)
    requires ConfigOk(c) && CycleLongEnough(c, Clock(now, gap)) && TimelyRun(Clock(now, gap), calls + [AbortAll(stop)])
    ensures var events := RunAll(c, Initial(c, now), calls + [AbortAll(stop)]).events;
            EventsOk(events) && StartedCount(events) == FinishedCount(events) && forall h :: Streaming(events, h).None?
  {
    hide Inv, RunAll, EventsOk, CycleLongEnough, Applied, AbortedEach;
    var all := calls + [AbortAll(stop)];
    InitialInv(c, now, gap);
    var k := Clock(now, gap);
    TimelyAfter(k, all);
    var w, k' := RunInv(c, Initial(c, now), map[], k, all, now);
    AbortLast(c, Initial(c, now), map[], k, calls, stop);
    var m := RunAll(c, Initial(c, now), all);
    NothingLeft(c, m, w, k');
  }

  lemma NothingLeft(c: Config, m: Manager, w: map<Tid, Birth>, k: Clock)
    requires Inv(c, m, w, k) && m.active.m == map[]
    ensures EventsOk(m.events) && StartedCount(m.events) == FinishedCount(m.events) && forall h :: Streaming(m.events, h).None?
  {
    hide TablesAgree, CapsHold, Budgeted, EventsOk, StartedCount, FinishedCount, Streaming;
  }

  lemma {:induction false} TimelyAfter(k: Clock, calls: seq<Call>)
    requires TimelyRun(k, calls)
    ensures forall x :: x in calls ==> k.lastTick <= x.now
    decreases |calls|
  {
    if calls != [] { TimelyAfter(ClockAfter(k, calls[0]), calls[1..]); }
  }

  lemma {:induction false} AbortLast(c: Config, m: Manager, w: map<Tid, Birth>, k: Clock, calls: seq<Call>, stop: real)
    requires Settings(c, k) && Inv(c, m, w, k) && TimelyRun(k, calls + [AbortAll(stop)])
    ensures RunAll(c, m, calls + [AbortAll(stop)]).active.m == map[]
    decreases |calls|
  {
    hide Inv, BudgetAt, Applied, LongestTimeout;
    var all := calls + [AbortAll(stop)];
    var w' := CallInv(c, m, w, k, all[0], all[0].now);
    if calls == [] {
      assert all[1..] == [];
      assert RunAll(c, m, all) == Applied(c, m, all[0]);
    } else {
      assert all[1..] == calls[1..] + [AbortAll(stop)];
      AbortLast(c, Applied(c, m, all[0]), w', ClockAfter(k, all[0]), calls[1..], stop);
    }
  }

  /** In every state a run can reach the three tables agree, every cap holds, and the next id is free. */
  lemma ReachableState(c: Config, now: real, gap: real, calls: seq<Call>)
    requires ConfigOk(c) && CycleLongEnough(c, Clock(now, gap)) && TimelyRun(Clock(now, gap), calls)
    ensures var m := RunAll(c, Initial(c, now), calls);
            TablesAgree(m) && CapsHold(c, m) && Lifecycle(m) && 0.0 <= m.tokens <= c.limits.queriesPerSecond &&
            TransactionId(m.sequence) !in m.transactions
  {
    hide TablesAgree, CapsHold, Lifecycle, BirthsOk, InFlightQueries, RunAll, LongestTimeout, TransactionId;
    InitialInv(c, now, gap);
    TimelyAfter(Clock(now, gap), calls);
    var w, k := RunInv(c, Initial(c, now), map[], Clock(now, gap), calls, now);
    NextIdIsFree(c, RunAll(c, Initial(c, now), calls), w, k);
  }
}
