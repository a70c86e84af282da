/**
 * More than one query in flight: top_up may then ask two nodes at one address, so the once-per-address rule and the
 * cap per node hold exactly when the nodes asked leave room for it, and in every run whose usable nodes have
 * different addresses.
 */
module DhtLookupParallel {
  import opened ByteStrings
  import opened BoundedRecentMap
  import opened NodeIdentity
  import opened DhtLookup
  import opened DhtLookupProofs
  import opened DhtLookupRuns

  function Addresses(nodes: seq<Node>): set<Address> {
    set n | n in nodes :: AddressOf(n)
  }

  lemma {:induction false} AddressCount(nodes: seq<Node>)
    ensures |Addresses(nodes)| <= |nodes|
    ensures |Addresses(nodes)| == |nodes| <==> AddressesDiffer(nodes)
    decreases |nodes|
  {
    if nodes == [] {
      assert Addresses(nodes) == {};
    } else {
      AddressCount(nodes[1..]);
      FirstDiffers(nodes);
      AddressesSplit(nodes);
      CountWith(AddressOf(nodes[0]), Addresses(nodes[1..]));
      hide Addresses, AddressesDiffer;
    }
  }

  lemma AddressesSplit(nodes: seq<Node>)
    requires nodes != []
    ensures Addresses(nodes) == {AddressOf(nodes[0])} + Addresses(nodes[1..])
  {
    assert nodes == [nodes[0]] + nodes[1..];
  }

  lemma CountWith(a: Address, others: set<Address>)
    ensures |{a} + others| == |others| + (if a in others then 0 else 1)
  {
    assert a in others ==> {a} + others == others;
  }

  lemma FirstDiffers(nodes: seq<Node>)
    requires nodes != []
    ensures AddressesDiffer(nodes) <==> AddressOf(nodes[0]) !in Addresses(nodes[1..]) && AddressesDiffer(nodes[1..])
  {
    var rest := nodes[1..];
    assert forall j :: 0 < j < |nodes| ==> nodes[j] == rest[j - 1];
    if AddressesDiffer(rest) && AddressOf(nodes[0]) !in Addresses(rest) {
      forall i, j | 0 <= i < j < |nodes| ensures AddressOf(nodes[i]) != AddressOf(nodes[j]) {
        assert rest[j - 1] in rest;
      }
    }
  }

  lemma {:induction false} SendEachAsks(c: Config, m: Manager, h: Hash, nodes: seq<Node>, now: real)
    requires h in m.active.m && m.active.m[h].hash == h && m.tokens >= |nodes| as real
    ensures var k, k' := m.active.m[h], SentToEach(c, m, h, nodes, now).active.m[h];
            k'.sent == k.sent + |nodes| && k'.queried == k.queried + Addresses(nodes)
    decreases |nodes|
  {
    hide TransactionId, Load;
    if nodes != [] {
      SendEachAsks(c, SentTo(m, h, nodes[0], now, c.limits.queryTimeout), h, nodes[1..], now);
      AddressesSplit(nodes);
      hide Addresses;
    } else {
      assert Addresses(nodes) == {};
    }
  }

  /** How many of the nodes are at an address. */
  function AtAddress(nodes: seq<Node>, a: Address): nat {
    if nodes == [] then 0 else (if AddressOf(nodes[0]) == a then 1 else 0) + AtAddress(nodes[1..], a)
  }

  lemma {:induction false} SendEachLoads(c: Config, m: Manager, h: Hash, nodes: seq<Node>, now: real, a: Address)
    requires h in m.active.m && m.active.m[h].hash == h && m.tokens >= |nodes| as real
    ensures Load(SentToEach(c, m, h, nodes, now), a) == Load(m, a) + AtAddress(nodes, a)
    decreases |nodes|
  {
    hide TransactionId, Asked;
    if nodes != [] {
      SendEachLoads(c, SentTo(m, h, nodes[0], now, c.limits.queryTimeout), h, nodes[1..], now, a);
    }
  }

  /** The nodes there are tokens for. */
  function Paid(tokens: real, nodes: seq<Node>): (r: seq<Node>)
    ensures |r| as real <= tokens || r == []
    ensures forall n :: n in r ==> n in nodes
    decreases |nodes|
  {
    if nodes == [] || tokens < 1.0 then [] else [nodes[0]] + Paid(tokens - 1.0, nodes[1..])
  }

  /** The nodes top_up asks. */
  function AskedNow(c: Config, m: Manager, h: Hash, now: real): seq<Node>
    requires h in m.active.m && m.active.m[h].hash == h
  {
    var free := Free(c, m.active.m[h]);
    if free <= 0 then []
    else Paid(Refilled(c, m, now).tokens, SelectClosest(Candidates(c, m.inFlight, m.active.m[h]), h, free))
  }

  lemma {:induction false} OnlyPaid(c: Config, m: Manager, h: Hash, nodes: seq<Node>, now: real)
    requires h in m.active.m && m.active.m[h].hash == h
    ensures SentToEach(c, m, h, nodes, now) == SentToEach(c, m, h, Paid(m.tokens, nodes), now)
    decreases |nodes|
  {
    hide TransactionId, Asked, Load;
    if nodes != [] && m.tokens >= 1.0 {
      var paid := Paid(m.tokens, nodes);
      assert paid[0] == nodes[0] && paid[1..] == Paid(m.tokens - 1.0, nodes[1..]);
      OnlyPaid(c, SentTo(m, h, nodes[0], now, c.limits.queryTimeout), h, nodes[1..], now);
    }
  }

  lemma TopUpAsks(c: Config, m: Manager, h: Hash, now: real)
    requires h in m.active.m && m.active.m[h].hash == h && Free(c, m.active.m[h]) > 0
    ensures var m1 := Refilled(c, m, now);
            m1.active == m.active && m1.inFlight == m.inFlight &&
            ToppedUp(c, m, h, now) == SentToEach(c, m1, h, AskedNow(c, m, h, now), now)
  {
    hide SentToEach, SelectClosest, Candidates, Free;
    var m1 := Refilled(c, m, now);
    var chosen := SelectClosest(Candidates(c, m.inFlight, m.active.m[h]), h, Free(c, m.active.m[h]));
    OnlyPaid(c, m1, h, chosen, now);
    if m1.tokens < 1.0 { NothingSent(c, m1, h, now); }
  }

  lemma NothingSent(c: Config, m: Manager, h: Hash, now: real)
    requires h in m.active.m && m.active.m[h].hash == h
    ensures SentToEach(c, m, h, [], now) == m
  {
  }

  lemma AskedAnew(c: Config, m: Manager, h: Hash, now: real)
    requires h in m.active.m && m.active.m[h].hash == h && Free(c, m.active.m[h]) > 0
    ensures forall n :: n in AskedNow(c, m, h, now) ==> AddressOf(n) !in m.active.m[h].queried
  {
    hide SelectClosest, Candidates, Free, Refilled, Load;
    var candidates := Candidates(c, m.inFlight, m.active.m[h]);
    var chosen := SelectClosest(candidates, h, Free(c, m.active.m[h]));
    SelectsTheClosest(candidates, h, Free(c, m.active.m[h]));
    forall n | n in AskedNow(c, m, h, now) ensures AddressOf(n) !in m.active.m[h].queried {
      assert n in chosen;
      CandidateOk(c, m, m.active.m[h], n);
    }
  }

  /** top_up asks no address twice exactly when the nodes it asks have different addresses. */
  lemma OncePerAddressIff(c: Config, m: Manager, h: Hash, now: real)
    requires h in m.active.m && m.active.m[h].hash == h
    ensures var k, k' := m.active.m[h], ToppedUp(c, m, h, now).active.m[h];
            (k'.sent - k.sent == |k'.queried| - |k.queried|) <==> AddressesDiffer(AskedNow(c, m, h, now))
  {
    hide SentToEach, Refilled, SelectClosest, Candidates, AddressesDiffer, AskedNow;
    var asked := AskedNow(c, m, h, now);
    if Free(c, m.active.m[h]) > 0 {
      TopUpAsks(c, m, h, now);
      AskedAnew(c, m, h, now);
      EnoughTokens(c, m, h, now);
      if asked == [] {
        NothingSent(c, Refilled(c, m, now), h, now);
        NoneDiffer();
      } else {
        SendEachAsks(c, Refilled(c, m, now), h, asked, now);
        AddressCount(asked);
        var q := m.active.m[h].queried;
        assert q !! Addresses(asked);
        assert |q + Addresses(asked)| == |q| + |Addresses(asked)|;
      }
    } else {
      NothingAsked(c, m, h, now);
      NoneDiffer();
    }
  }

  lemma EnoughTokens(c: Config, m: Manager, h: Hash, now: real)
    requires h in m.active.m && m.active.m[h].hash == h && Free(c, m.active.m[h]) > 0
    ensures AskedNow(c, m, h, now) == [] || |AskedNow(c, m, h, now)| as real <= Refilled(c, m, now).tokens
  {
    hide Refilled, SelectClosest, Candidates, Free;
  }

  lemma NothingAsked(c: Config, m: Manager, h: Hash, now: real)
    requires h in m.active.m && m.active.m[h].hash == h && Free(c, m.active.m[h]) <= 0
    ensures AskedNow(c, m, h, now) == [] && ToppedUp(c, m, h, now) == m
  {
  }

  lemma NoneDiffer()
    ensures AddressesDiffer([])
  {
  }

  /** What top_up adds to the load of an address. */
  lemma TopUpLoads(c: Config, m: Manager, h: Hash, now: real, a: Address)
    requires h in m.active.m && m.active.m[h].hash == h
    ensures Load(ToppedUp(c, m, h, now), a) == Load(m, a) + AtAddress(AskedNow(c, m, h, now), a)
  {
    hide SentToEach, Refilled, SelectClosest, Candidates, AskedNow, ToppedUp;
    if Free(c, m.active.m[h]) > 0 {
      TopUpAsks(c, m, h, now);
      EnoughTokens(c, m, h, now);
      if AskedNow(c, m, h, now) == [] {
        NothingSent(c, Refilled(c, m, now), h, now);
      } else {
        SendEachLoads(c, Refilled(c, m, now), h, AskedNow(c, m, h, now), now, a);
      }
    } else {
      NothingAsked(c, m, h, now);
    }
  }

  /** After top_up the cap per node holds exactly when no address gets more of the nodes asked than it has room for. */
  lemma CapPerNodeIff(c: Config, m: Manager, h: Hash, now: real)
    requires h in m.active.m && m.active.m[h].hash == h
    ensures (forall a :: Load(ToppedUp(c, m, h, now), a) <= c.limits.maxPerNode) <==>
            (forall a :: Load(m, a) + AtAddress(AskedNow(c, m, h, now), a) <= c.limits.maxPerNode)
  {
    hide ToppedUp, AskedNow, Load, AtAddress;
    forall a ensures Load(ToppedUp(c, m, h, now), a) == Load(m, a) + AtAddress(AskedNow(c, m, h, now), a) { TopUpLoads(c, m, h, now, a); }
  }

  /** Two ids at one address are both chosen when two queries are free, and the address is asked twice. */
  lemma SharedAddressAskedTwice(c: Config, a: Node, b: Node, h: Hash, now: real)
    requires ConfigOk(c) && c.limits.alpha == 2 && c.limits.maxPerNode == 1 && c.limits.maxQueries >= 2
    requires c.limits.shortlistSize >= 2 && c.limits.queriesPerSecond >= 2.0 && c.usable(a) && c.usable(b)
    requires a.id != b.id && AddressOf(a) == AddressOf(b)
    ensures var (m, started) := StartedLookup(c, Initial(c, now), h, [a, b], now, None);
            started && h in m.active.m && m.active.m[h].sent == 2 && m.active.m[h].queried == {AddressOf(a)} &&
            Load(m, AddressOf(a)) == 2 > c.limits.maxPerNode
  {
    hide SelectClosest, TransactionId, SentToEach, StartedLookup, ConfigOk;
    StartSendsBoth(c, a, b, h, now);
    SelectsTheClosest([a, b], h, 2);
    var chosen := SelectClosest([a, b], h, 2);
    SendEachAsks(c, BegunWith(c, a, b, h, now), h, chosen, now);
    forall n | n in chosen ensures AddressOf(n) == AddressOf(a) { assert n in [a, b]; }
    SendEachLoads(c, BegunWith(c, a, b, h, now), h, chosen, now, AddressOf(a));
    AllAt(chosen, AddressOf(a));
    assert Addresses(chosen) == {AddressOf(a)} by { assert chosen[0] in chosen && chosen[1] in chosen; }
  }

  lemma {:induction false} AllAt(nodes: seq<Node>, a: Address)
    requires forall n :: n in nodes ==> AddressOf(n) == a
    ensures AtAddress(nodes, a) == |nodes|
    decreases |nodes|
  {
    if nodes != [] { AllAt(nodes[1..], a); }
  }

  function BegunWith(c: Config, a: Node, b: Node, h: Hash, now: real): (m: Manager)
    ensures h in m.active.m && m.active.m[h].hash == h && m.active.m[h].sent == 0 && m.active.m[h].queried == {}
    ensures m.tokens == c.limits.queriesPerSecond && Load(m, AddressOf(a)) == 0
  {
    var begun := NewLookup(c, h, now).(shortlist := Dict([a.id, b.id], map[a.id := a, b.id := b]));
    SetLookup(Initial(c, now), begun).(started := 0 + 1, events := [] + [Started(h)])
  }

  lemma StartSendsBoth(c: Config, a: Node, b: Node, h: Hash, now: real)
    requires ConfigOk(c) && c.limits.alpha == 2 && c.limits.maxPerNode == 1 && c.limits.maxQueries >= 2
    requires c.limits.shortlistSize >= 2 && c.limits.queriesPerSecond >= 2.0 && c.usable(a) && c.usable(b)
    requires a.id != b.id && AddressOf(a) == AddressOf(b)
    ensures StartedLookup(c, Initial(c, now), h, [a, b], now, None) ==
            (SentToEach(c, BegunWith(c, a, b, h, now), h, SelectClosest([a, b], h, 2), now), true)
  {
    hide SelectClosest, TransactionId, SentToEach, Shortlisted, Candidates, StartedLookup, ToppedUp;
    TwoShortlisted(c, NewLookup(c, h, now), a, b);
    var m2 := BegunWith(c, a, b, h, now);
    StartUnfolds(c, Initial(c, now), h, [a, b], now);
    ToppedUpSendsAll(c, m2, h, now);
    TwoCandidates(c, m2, m2.active.m[h], a, b);
  }

  lemma StartUnfolds(c: Config, m: Manager, h: Hash, seeds: seq<Node>, now: real)
    requires ConfigOk(c) && h !in m.active.m && |m.active.m| < c.limits.maxActive && m.tokensTime == now
    requires 1.0 <= m.tokens <= c.limits.queriesPerSecond
    requires Shortlisted(c, NewLookup(c, h, now), seeds).shortlist.m != map[] && Shortlisted(c, NewLookup(c, h, now), seeds).hash == h
    ensures StartedLookup(c, m, h, seeds, now, None) ==
            (ToppedUp(c, Admitted(m, Shortlisted(c, NewLookup(c, h, now), seeds)), h, now), true)
  {
    hide Shortlisted, ToppedUp;
    assert Refilled(c, m, now) == m;
  }

  lemma ToppedUpSendsAll(c: Config, m: Manager, h: Hash, now: real)
    requires h in m.active.m && m.active.m[h].hash == h && Free(c, m.active.m[h]) > 0
    requires m.tokensTime == now && 1.0 <= m.tokens <= c.limits.queriesPerSecond
    ensures ToppedUp(c, m, h, now) ==
            SentToEach(c, m, h, SelectClosest(Candidates(c, m.inFlight, m.active.m[h]), h, Free(c, m.active.m[h])), now)
  {
    hide SentToEach, SelectClosest, Candidates, Free;
    assert Refilled(c, m, now) == m;
  }

  lemma TwoShortlisted(c: Config, blank: Lookup, a: Node, b: Node)
    requires c.usable(a) && c.usable(b) && a.id != b.id && blank.shortlist == Empty() && blank.queried == {} && c.limits.shortlistSize >= 2
    ensures var k := Shortlisted(c, blank, [a, b]);
            k == blank.(shortlist := Dict([a.id, b.id], map[a.id := a, b.id := b]))
  {
    hide SelectClosest, Values, Ordered;
    var wanted := Wanted(c, blank.queried);
    assert [a, b][1..] == [b] && [b][1..] == [];
    var s1 := Put(blank.shortlist, a.id, a);
    assert PutNodes(blank.shortlist, [a, b], wanted) == PutNodes(s1, [b], wanted);
    assert PutNodes(s1, [b], wanted) == PutNodes(Put(s1, b.id, b), [], wanted);
    assert Put(s1, b.id, b) == Dict([a.id, b.id], map[a.id := a, b.id := b]);
    assert map[a.id := a, b.id := b].Keys == {a.id, b.id};
    assert |map[a.id := a, b.id := b]| == |{a.id, b.id}|;
  }

  lemma TwoCandidates(c: Config, m: Manager, k: Lookup, a: Node, b: Node)
    requires a.id != b.id && k.shortlist == Dict([a.id, b.id], map[a.id := a, b.id := b]) && k.queried == {} && m.inFlight == map[] && c.limits.maxPerNode >= 1
    ensures Candidates(c, m.inFlight, k) == [a, b]
  {
    var keys, all := k.shortlist.keys, k.shortlist.m;
    assert keys[1..] == [b.id] && [b.id][1..] == [];
    assert Values([b.id], all) == [b];
    assert Values(keys, all) == [a] + [b];
    var p := Askable(c, m.inFlight, k.queried);
    assert [a, b][1..] == [b] && [b][1..] == [];
    assert Filter([b], p) == [b];
    assert Filter([a, b], p) == [a] + [b];
  }

  // ----- runs in which the usable nodes have different addresses

  /** The nodes a call brings in. */
  function NodesOf(call: Call): set<Node> {
    match call
    case Start(_, _, seeds, hint) => (set n | n in seeds) + if hint.Some? then {hint.value} else {}
    case Answer(_, _, response, _) =>
      if response.None? then {}
      else
        (if response.value.nodes.Some? then set n | n in response.value.nodes.value else {}) +
        (if response.value.nodes6.Some? then set n | n in response.value.nodes6.value else {})
    case _ => {}
  }

  function Mentioned(calls: seq<Call>): set<Node> {
    if calls == [] then {} else NodesOf(calls[0]) + Mentioned(calls[1..])
  }

  /** The same limits, and only the known nodes usable. */
  function Restricted(c: Config, known: set<Node>): Config {
    c.(usable := n => c.usable(n) && n in known)
  }

  /** Two configurations that agree on some nodes. */
  ghost predicate Agree(c: Config, d: Config, nodes: set<Node>) {
    c.limits == d.limits && c.routable == d.routable && forall n :: n in nodes ==> (c.usable(n) <==> d.usable(n))
  }

  lemma {:induction false} PutAgree(shortlist: RawDict<NodeId, Node>, nodes: seq<Node>, p: Node -> bool, q: Node -> bool)
    requires forall n :: n in nodes ==> p(n) == q(n)
    ensures PutNodes(shortlist, nodes, p) == PutNodes(shortlist, nodes, q)
    decreases |nodes|
  {
    if nodes != [] {
      assert nodes[0] in nodes;
      PutAgree(if p(nodes[0]) then Put(shortlist, nodes[0].id, nodes[0]) else shortlist, nodes[1..], p, q);
    }
  }

  lemma ShortlistAgrees(c: Config, d: Config, known: set<Node>, k: Lookup, nodes: seq<Node>)
    requires Agree(c, d, known) && forall n :: n in nodes ==> n in known
    ensures Shortlisted(c, k, nodes) == Shortlisted(d, k, nodes)
  {
    hide PutNodes, SelectClosest, Values;
    PutAgree(k.shortlist, nodes, Wanted(c, k.queried), Wanted(d, k.queried));
  }

  lemma {:induction false} FilterAgrees<T>(s: seq<T>, p: T -> bool, q: T -> bool)
    requires forall x :: x in s ==> p(x) == q(x)
    ensures Filter(s, p) == Filter(s, q)
    decreases |s|
  {
    if s != [] { FilterAgrees(s[1..], p, q); }
  }

  lemma {:induction false} SendAgrees(c: Config, d: Config, m: Manager, h: Hash, nodes: seq<Node>, now: real)
    requires c.limits == d.limits && h in m.active.m && m.active.m[h].hash == h
    ensures SentToEach(c, m, h, nodes, now) == SentToEach(d, m, h, nodes, now)
    decreases |nodes|
  {
    hide SentTo;
    if nodes != [] && m.tokens >= 1.0 {
      SendAgrees(c, d, SentTo(m, h, nodes[0], now, c.limits.queryTimeout), h, nodes[1..], now);
    }
  }

  lemma TopUpAgrees(c: Config, d: Config, m: Manager, h: Hash, now: real)
    requires c.limits == d.limits && h in m.active.m && m.active.m[h].hash == h
    ensures ToppedUp(c, m, h, now) == ToppedUp(d, m, h, now)
  {
    hide SentToEach, Filter, SelectClosest, Values, Free;
    var l := m.active.m[h];
    FreeAgrees(c, d, l);
    assert Refilled(c, m, now) == Refilled(d, m, now);
    var m1 := Refilled(c, m, now);
    FilterAgrees(Values(l.shortlist.keys, l.shortlist.m), Askable(c, m1.inFlight, l.queried), Askable(d, m1.inFlight, l.queried));
    if Free(c, l) > 0 { SendAgrees(c, d, m1, h, SelectClosest(Candidates(c, m1.inFlight, l), h, Free(c, l)), now); }
  }

  lemma FreeAgrees(c: Config, d: Config, l: Lookup)
    requires c.limits == d.limits
    ensures Free(c, l) == Free(d, l)
  {
  }

  lemma AdvanceAgrees(c: Config, d: Config, m: Manager, h: Hash, now: real)
    requires c.limits == d.limits && h in m.active.m && m.active.m[h].hash == h
    ensures Advanced(c, m, h, now) == Advanced(d, m, h, now)
  {
    hide ToppedUp, FinishedLookup, Values;
    TopUpAgrees(c, d, m, h, now);
  }

  lemma {:induction false} AcceptAgrees(c: Config, d: Config, found: seq<Address>, values: seq<Address>)
    requires c.limits == d.limits && c.routable == d.routable
    ensures Accepted(c, found, values) == Accepted(d, found, values)
    decreases |values|
  {
    hide Distinct;
    if values != [] {
      AcceptAgrees(c, d, found, values[1..]);
      AcceptAgrees(c, d, found + [values[0]], values[1..]);
    }
  }

  lemma AbsorbAgrees(c: Config, d: Config, m: Manager, h: Hash, response: Response, known: set<Node>)
    requires Agree(c, d, known) && h in m.active.m && m.active.m[h].hash == h
    requires response.nodes.Some? ==> forall n :: n in response.nodes.value ==> n in known
    requires response.nodes6.Some? ==> forall n :: n in response.nodes6.value ==> n in known
    ensures Absorbed(c, m, h, response) == Absorbed(d, m, h, response)
  {
    hide Accepted, Shortlisted;
    var lookup := m.active.m[h];
    AcceptAgrees(c, d, lookup.found, response.values);
    var heard := lookup.(found := Accepted(c, lookup.found, response.values),
                         valueResponses := lookup.valueResponses + (if response.values != [] then 1 else 0));
    if response.nodes.Some? { ShortlistAgrees(c, d, known, heard, response.nodes.value); }
    var with4 := if response.nodes.Some? then Shortlisted(c, heard, response.nodes.value) else heard;
    if response.nodes6.Some? { ShortlistAgrees(c, d, known, with4, response.nodes6.value); }
  }

  lemma BegunAgrees(c: Config, d: Config, m: Manager, lookup: Lookup, hint: Option<Node>, now: real)
    requires c.limits == d.limits
    ensures Begun(c, m, lookup, hint, now) == Begun(d, m, lookup, hint, now)
  {
    hide ToppedUp, SentTo, Admitted;
    TopUpAgrees(c, d, Admitted(m, lookup), lookup.hash, now);
  }

  lemma StartAgrees(c: Config, d: Config, m: Manager, h: Hash, seeds: seq<Node>, now: real, hint: Option<Node>, known: set<Node>)
    requires Agree(c, d, known) && (forall n :: n in seeds ==> n in known) && (hint.Some? ==> hint.value in known)
    ensures StartedLookup(c, m, h, seeds, now, hint) == StartedLookup(d, m, h, seeds, now, hint)
  {
    hide Shortlisted, Begun, Load, Refilled;
    RefillAgrees(c, d, m, now);
    ShortlistAgrees(c, d, known, NewLookup(c, h, now), seeds);
    var usable := if hint.Some? && !c.usable(hint.value) then None else hint;
    BegunAgrees(c, d, Refilled(c, m, now), Shortlisted(c, NewLookup(c, h, now), seeds), usable, now);
  }

  lemma RefillAgrees(c: Config, d: Config, m: Manager, now: real)
    requires c.limits == d.limits
    ensures Refilled(c, m, now) == Refilled(d, m, now)
  {
  }

  lemma {:induction false} TickAgrees(c: Config, d: Config, m: Manager, hashes: seq<Hash>, now: real)
    requires c.limits == d.limits
    ensures TickedEach(c, m, hashes, now) == TickedEach(d, m, hashes, now)
    decreases |hashes|
  {
    hide Advanced, Expired;
    if hashes != [] {
      var h := hashes[0];
      if h in m.active.m && m.active.m[h].hash == h {
        ExpiredHash(m, h, now);
        AdvanceAgrees(c, d, Expired(m, h, now), h, now);
        TickAgrees(c, d, Advanced(c, Expired(m, h, now), h, now), hashes[1..], now);
      } else {
        TickAgrees(c, d, m, hashes[1..], now);
      }
    }
  }

  lemma ExpiredHash(m: Manager, h: Hash, now: real)
    requires h in m.active.m && m.active.m[h].hash == h
    ensures h in Expired(m, h, now).active.m && Expired(m, h, now).active.m[h].hash == h
  {
  }

  lemma AppliedAgrees(c: Config, d: Config, m: Manager, call: Call, known: set<Node>)
    requires Agree(c, d, known) && NodesOf(call) <= known
    ensures Applied(c, m, call) == Applied(d, m, call)
  {
    hide StartedLookup, Advanced, Absorbed, Released, TickedEach, AbortedEach;
    match call
    case Start(now, h, seeds, hint) =>
      forall n | n in seeds ensures n in known { assert n in NodesOf(call); }
      if hint.Some? { assert hint.value in NodesOf(call); }
      StartAgrees(c, d, m, h, seeds, now, hint, known);
    case Answer(now, t, response, address) => AnswerAgrees(c, d, m, call, known);
    case Error(now, t) =>
      if t in m.transactions && m.transactions[t] in m.active.m && m.active.m[m.transactions[t]].hash == m.transactions[t] && t in m.active.m[m.transactions[t]].pending.m {
        AdvanceAgrees(c, d, Released(m, m.transactions[t], t), m.transactions[t], now);
      }
    case Tick(now) =>
      RefillAgrees(c, d, m, now);
      TickAgrees(c, d, Refilled(c, m, now), m.active.keys, now);
    case AbortAll(now) =>
  }

  lemma AnswerAgrees(c: Config, d: Config, m: Manager, call: Call, known: set<Node>)
    requires Agree(c, d, known) && NodesOf(call) <= known && call.Answer?
    ensures Applied(c, m, call) == Applied(d, m, call)
  {
    hide Advanced, Absorbed, Released, StartedLookup, Errored, Ticked, AbortedEach;
    var t := call.t;
    if t in m.transactions && m.transactions[t] in m.active.m && m.active.m[m.transactions[t]].hash == m.transactions[t] && Expected(m, t, call.address) {
      var h := m.transactions[t];
      var m1 := Released(m, h, t);
      if call.response.Some? {
        var response := call.response.value;
        if response.nodes.Some? { forall n | n in response.nodes.value ensures n in known { assert n in NodesOf(call); } }
        if response.nodes6.Some? { forall n | n in response.nodes6.value ensures n in known { assert n in NodesOf(call); } }
        AbsorbAgrees(c, d, m1, h, response, known);
        AbsorbedHash(c, m1, h, response);
        AdvanceAgrees(c, d, Absorbed(c, m1, h, response), h, call.now);
      } else {
        AdvanceAgrees(c, d, m1, h, call.now);
      }
    }
  }

  lemma AbsorbedHash(c: Config, m: Manager, h: Hash, response: Response)
    requires h in m.active.m && m.active.m[h].hash == h
    ensures h in Absorbed(c, m, h, response).active.m && Absorbed(c, m, h, response).active.m[h].hash == h
  {
    hide Accepted;
  }

  lemma {:induction false} RunAgrees(c: Config, d: Config, m: Manager, calls: seq<Call>, known: set<Node>)
    requires Agree(c, d, known) && Mentioned(calls) <= known
    ensures RunAll(c, m, calls) == RunAll(d, m, calls)
    decreases |calls|
  {
    hide Applied, NodesOf;
    if calls != [] {
      AppliedAgrees(c, d, m, calls[0], known);
      RunAgrees(c, d, Applied(c, m, calls[0]), calls[1..], known);
    }
  }

  /** No two usable nodes that a run hears of are at one address. */
  ghost predicate HeardApart(c: Config, calls: seq<Call>) {
    forall x, y :: x in Mentioned(calls) && y in Mentioned(calls) && c.usable(x) && c.usable(y) && AddressOf(x) == AddressOf(y) ==> x == y
  }

  /**
   * However many queries a lookup may have in flight: in a run that hears of no two usable nodes at one address, no
   * lookup asks an address twice and no address has more queries in flight than the cap.
   */
  lemma BothRulesHold(c: Config, now: real, gap: real, calls: seq<Call>)
    requires ConfigOk(c) && CycleLongEnough(c, Clock(now, gap)) && TimelyRun(Clock(now, gap), calls) && HeardApart(c, calls)
    ensures var m := RunAll(c, Initial(c, now), calls);
            (forall h :: h in m.active.m ==> m.active.m[h].sent == |m.active.m[h].queried|) &&
            forall a :: Load(m, a) <= c.limits.maxPerNode
  {
    hide RunAll, TablesAgree, Lifecycle, TransactionId, LongestTimeout, Mentioned, TimelyRun;
    var known := Mentioned(calls);
    var d := Restricted(c, known);
    assert Agree(c, d, known);
    assert Separate(d);
    assert CycleLongEnough(d, Clock(now, gap)) by { CycleAgrees(c, d, Clock(now, gap)); }
    RunAgrees(c, d, Initial(c, now), calls, known);
    assert Initial(d, now) == Initial(c, now);
    ReachableState(d, now, gap, calls);
    CapsFor(d, RunAll(d, Initial(d, now), calls));
  }

  lemma CycleAgrees(c: Config, d: Config, k: Clock)
    requires c.limits == d.limits && CycleLongEnough(c, k)
    ensures CycleLongEnough(d, k)
  {
  }

  lemma CapsFor(d: Config, m: Manager)
    requires CapsHold(d, m) && Separate(d)
    ensures (forall h :: h in m.active.m ==> m.active.m[h].sent == |m.active.m[h].queried|) && forall a :: Load(m, a) <= d.limits.maxPerNode
  {
    hide Separate, Distinct, Listed;
  }
}
