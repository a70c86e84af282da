/** dht_lookup.py: what each operation of the lookup manager does, as a function of its state. */
module DhtLookup {
  import opened ByteStrings
  import opened BoundedRecentMap
  import opened NodeIdentity

  type Hash = NodeId

  datatype Limits = Limits(
    alpha: nat, queryTimeout: real, hintTimeout: real, deadline: real, maxQueries: nat, enoughPeers: nat,
    maxValueResponses: nat, maxActive: nat, queriesPerSecond: real, maxPerNode: nat, shortlistSize: nat, maxPeers: nat)

  /** The limits and the two filters a manager is made with. */
  datatype Config = Config(limits: Limits, usable: Node -> bool, routable: Address -> bool)

  predicate ConfigOk(c: Config) {
    && c.limits.alpha >= 1 && c.limits.maxActive >= 1 && c.limits.queriesPerSecond > 0.0 && c.limits.maxPerNode >= 1
    && c.limits.queryTimeout > 0.0 && c.limits.hintTimeout > 0.0 && c.limits.maxQueries >= 1 && c.limits.shortlistSize >= 1
  }

  datatype Pending = Pending(address: Address, expiry: real)

  datatype Lookup = Lookup(
    hash: Hash, shortlist: RawDict<NodeId, Node>, queried: set<Address>, pending: RawDict<Tid, Pending>,
    found: seq<Address>, sent: nat, valueResponses: nat, hint: Option<Tid>, deadline: real)

  /** The calls made to the outside: a query on the wire, peers handed on, a lookup reported finished. */
  datatype Event =
    | Started(hash: Hash)
    | Sent(tid: Tid, node: Node, hash: Hash)
    | Streamed(hash: Hash, peers: seq<Address>)
    | Finished(hash: Hash, peers: seq<Address>)

  datatype Manager = Manager(
    active: RawDict<Hash, Lookup>, transactions: map<Tid, Hash>, inFlight: map<Address, nat>,
    tokens: real, tokensTime: real, sequence: nat, started: nat, finished: nat, queries: nat, events: seq<Event>)

  datatype Response = Response(values: seq<Address>, nodes: Option<seq<Node>>, nodes6: Option<seq<Node>>)

  // ----- small helpers

  function Values<K(==), V>(keys: seq<K>, m: map<K, V>): (r: seq<V>)
    ensures forall k :: 0 <= k < |keys| && keys[k] in m ==> m[keys[k]] in r
    ensures |r| <= |keys|
  {
    if keys == [] then [] else (if keys[0] in m then [m[keys[0]]] else []) + Values(keys[1..], m)
  }

  function Filter<T>(s: seq<T>, p: T -> bool): (r: seq<T>)
    ensures forall k :: 0 <= k < |r| ==> p(r[k]) && r[k] in s
    ensures forall k :: 0 <= k < |s| && p(s[k]) ==> s[k] in r
  {
    if s == [] then [] else (if p(s[0]) then [s[0]] else []) + Filter(s[1..], p)
  }

  predicate AddressBefore(a: Address, b: Address) {
    a.ip < b.ip || (a.ip == b.ip && a.port <= b.port)
  }

  function InsertPeer(sorted: seq<Address>, a: Address): (r: seq<Address>)
    ensures multiset(r) == multiset(sorted) + multiset{a}
  {
    if sorted == [] then [a]
    else if AddressBefore(a, sorted[0]) then [a] + sorted
    else
      assert sorted == [sorted[0]] + sorted[1..];
      [sorted[0]] + InsertPeer(sorted[1..], a)
  }

  /** sorted(found_peers) */
  function SortedPeers(peers: seq<Address>): (r: seq<Address>)
    ensures multiset(r) == multiset(peers)
  {
    if peers == [] then []
    else
      assert peers == [peers[0]] + peers[1..];
      InsertPeer(SortedPeers(peers[1..]), peers[0])
  }

  // ----- tokens

  /** The token clock does not run ahead of the caller's. */
  predicate NoLater(m: Manager, m': Manager, now: real) {
    m'.tokensTime == m.tokensTime || m'.tokensTime <= now
  }

  function Refilled(c: Config, m: Manager, now: real): Manager {
    var more := if now > m.tokensTime then m.tokens + (now - m.tokensTime) * c.limits.queriesPerSecond else m.tokens;
    m.(tokens := if more < c.limits.queriesPerSecond then more else c.limits.queriesPerSecond,
       tokensTime := if now > m.tokensTime then now else m.tokensTime)
  }

  // ----- the shortlist

  function PutNodes(shortlist: RawDict<NodeId, Node>, nodes: seq<Node>, p: Node -> bool): (r: RawDict<NodeId, Node>)
    ensures Ordered(shortlist) ==> Ordered(r)
    ensures |r.m| <= |shortlist.m| + |nodes|
    ensures forall id :: id in r.m ==> (id in shortlist.m && r.m[id] == shortlist.m[id]) || (r.m[id] in nodes && p(r.m[id]) && r.m[id].id == id)
    decreases |nodes|
  {
    if nodes == [] then shortlist
    else PutNodes(if p(nodes[0]) then Put(shortlist, nodes[0].id, nodes[0]) else shortlist, nodes[1..], p)
  }

  /** The nodes a lookup lists: usable ones whose address it has not asked yet. */
  function Wanted(c: Config, queried: set<Address>): Node -> bool {
    n => c.usable(n) && AddressOf(n) !in queried
  }

  function Always(): Node -> bool {
    n => true
  }

  function Shortlisted(c: Config, lookup: Lookup, nodes: seq<Node>): (r: Lookup)
    ensures r.hash == lookup.hash
  {
    var all := PutNodes(lookup.shortlist, nodes, Wanted(c, lookup.queried));
    if |all.m| <= c.limits.shortlistSize then lookup.(shortlist := all)
    else
      var closest := SelectClosest(Values(all.keys, all.m), lookup.hash, c.limits.shortlistSize);
      lookup.(shortlist := PutNodes(Empty(), closest, Always()))
  }

  // ----- queries

  function Load(m: Manager, a: Address): nat {
    if a in m.inFlight then m.inFlight[a] else 0
  }

  function SetLookup(m: Manager, lookup: Lookup): Manager {
    m.(active := Put(m.active, lookup.hash, lookup))
  }

  /** A lookup with one more query out. */
  function Asked(lookup: Lookup, tid: Tid, a: Address, expiry: real): (r: Lookup)
    ensures r.hash == lookup.hash
  {
    lookup.(pending := Put(lookup.pending, tid, Pending(a, expiry)), queried := lookup.queried + {a}, sent := lookup.sent + 1)
  }

  function SentTo(m: Manager, h: Hash, node: Node, now: real, timeout: real): (r: Manager)
    requires h in m.active.m && m.active.m[h].hash == h
    ensures r.active.m.Keys == m.active.m.Keys && r.active.keys == m.active.keys && r.active.m[h].hash == h
    ensures r.tokensTime == m.tokensTime
  {
    var tid := TransactionId(m.sequence);
    var a := AddressOf(node);
    SetLookup(m, Asked(m.active.m[h], tid, a, now + timeout)).(
      sequence := m.sequence + 1, transactions := m.transactions[tid := h],
      inFlight := m.inFlight[a := Load(m, a) + 1], tokens := m.tokens - 1.0, queries := m.queries + 1,
      events := m.events + [Sent(tid, node, h)])
  }

  function Released(m: Manager, h: Hash, tid: Tid): (r: Manager)
    requires h in m.active.m && m.active.m[h].hash == h && tid in m.active.m[h].pending.m
    ensures r.active.m.Keys == m.active.m.Keys && r.active.keys == m.active.keys && r.active.m[h].hash == h
    ensures r.tokensTime == m.tokensTime
  {
    var lookup := m.active.m[h];
    var a := lookup.pending.m[tid].address;
    var left := lookup.(pending := Pop(lookup.pending, tid), hint := if lookup.hint == Some(tid) then None else lookup.hint);
    SetLookup(m, left).(
      transactions := m.transactions - {tid},
      inFlight := if Load(m, a) > 1 then m.inFlight[a := Load(m, a) - 1] else m.inFlight - {a})
  }

  /** release_transaction for each of the ids still pending, in order. */
  function ReleasedAll(m: Manager, h: Hash, tids: seq<Tid>): (r: Manager)
    requires h in m.active.m && m.active.m[h].hash == h
    ensures r.active.m.Keys == m.active.m.Keys && r.active.keys == m.active.keys && r.active.m[h].hash == h
    ensures r.tokensTime == m.tokensTime
    decreases |tids|
  {
    if tids == [] then m
    else ReleasedAll(if tids[0] in m.active.m[h].pending.m then Released(m, h, tids[0]) else m, h, tids[1..])
  }

  /** The listed nodes top_up may ask: not asked yet, and not loaded to the limit. */
  function Askable(c: Config, inFlight: map<Address, nat>, queried: set<Address>): Node -> bool {
    n => AddressOf(n) !in queried && (if AddressOf(n) in inFlight then inFlight[AddressOf(n)] else 0) < c.limits.maxPerNode
  }

  function Candidates(c: Config, inFlight: map<Address, nat>, lookup: Lookup): seq<Node> {
    Filter(Values(lookup.shortlist.keys, lookup.shortlist.m), Askable(c, inFlight, lookup.queried))
  }

  /** The loop of top_up: it stops when the tokens run out. */
  function SentToEach(c: Config, m: Manager, h: Hash, nodes: seq<Node>, now: real): (r: Manager)
    requires h in m.active.m && m.active.m[h].hash == h
    ensures r.active.m.Keys == m.active.m.Keys && r.active.keys == m.active.keys && r.active.m[h].hash == h
    ensures r.tokensTime == m.tokensTime
    decreases |nodes|
  {
    if nodes == [] || m.tokens < 1.0 then m
    else SentToEach(c, SentTo(m, h, nodes[0], now, c.limits.queryTimeout), h, nodes[1..], now)
  }

  /** How many queries top_up may send. */
  function Free(c: Config, lookup: Lookup): int {
    var a, b := c.limits.alpha - |lookup.pending.m|, c.limits.maxQueries - lookup.sent;
    if a < b then a else b
  }

  function ToppedUp(c: Config, m: Manager, h: Hash, now: real): (r: Manager)
    requires h in m.active.m && m.active.m[h].hash == h
    ensures r.active.m.Keys == m.active.m.Keys && r.active.keys == m.active.keys && r.active.m[h].hash == h
    ensures NoLater(m, r, now)
  {
    var free := Free(c, m.active.m[h]);
    if free <= 0 then m
    else
      var m1 := Refilled(c, m, now);
      if m1.tokens < 1.0 then m1
      else SentToEach(c, m1, h, SelectClosest(Candidates(c, m1.inFlight, m.active.m[h]), h, free), now)
  }

  predicate CanQueryMore(c: Config, lookup: Lookup) {
    lookup.sent < c.limits.maxQueries &&
    exists n :: n in Values(lookup.shortlist.keys, lookup.shortlist.m) && AddressOf(n) !in lookup.queried
  }

  // ----- the course of a lookup

  function FinishedLookup(m: Manager, h: Hash): (r: Manager)
    requires h in m.active.m && m.active.m[h].hash == h
    ensures r.tokensTime == m.tokensTime
  {
    var m1 := ReleasedAll(m, h, m.active.m[h].pending.keys);
    m1.(active := Pop(m1.active, h), finished := m1.finished + 1,
        events := m1.events + [Finished(h, SortedPeers(m1.active.m[h].found))])
  }

  predicate MustFinish(c: Config, lookup: Lookup, now: real) {
    now >= lookup.deadline || |lookup.found| >= c.limits.enoughPeers || lookup.valueResponses >= c.limits.maxValueResponses
  }

  function Advanced(c: Config, m: Manager, h: Hash, now: real): (r: Manager)
    requires h in m.active.m && m.active.m[h].hash == h
    ensures NoLater(m, r, now)
  {
    if MustFinish(c, m.active.m[h], now) then FinishedLookup(m, h)
    else if m.active.m[h].hint.Some? then m
    else
      var m1 := ToppedUp(c, m, h, now);
      if |m1.active.m[h].pending.m| == 0 && !CanQueryMore(c, m1.active.m[h]) then FinishedLookup(m1, h) else m1
  }

  function NewLookup(c: Config, h: Hash, now: real): Lookup {
    Lookup(h, Empty(), {}, Empty(), [], 0, 0, None, now + c.limits.deadline)
  }

  /** A new lookup takes its place among the active ones. */
  function Admitted(m: Manager, lookup: Lookup): (r: Manager)
    ensures lookup.hash in r.active.m && r.active.m[lookup.hash] == lookup && r.tokensTime == m.tokensTime
  {
    SetLookup(m, lookup).(started := m.started + 1, events := m.events + [Started(lookup.hash)])
  }

  /** The one query to the hint node, which is waited for before any other. */
  function Hinted(c: Config, m: Manager, h: Hash, node: Node, now: real): (r: Manager)
    requires h in m.active.m && m.active.m[h].hash == h
    ensures r.tokensTime == m.tokensTime
  {
    var m1 := SentTo(m, h, node, now, c.limits.hintTimeout);
    SetLookup(m1, m1.active.m[h].(hint := Some(TransactionId(m.sequence))))
  }

  function Begun(c: Config, m: Manager, lookup: Lookup, hint: Option<Node>, now: real): (r: Manager)
    ensures NoLater(m, r, now)
  {
    var m1 := Admitted(m, lookup);
    if hint.Some? then Hinted(c, m1, lookup.hash, hint.value, now) else ToppedUp(c, m1, lookup.hash, now)
  }

  /** start_lookup: the new state, and whether a lookup was started. */
  function StartedLookup(c: Config, m: Manager, h: Hash, seeds: seq<Node>, now: real, hint: Option<Node>): (r: (Manager, bool))
    ensures NoLater(m, r.0, now)
  {
    if h in m.active.m || |m.active.m| >= c.limits.maxActive then (m, false)
    else
      var m1 := Refilled(c, m, now);
      var usable := if hint.Some? && !c.usable(hint.value) then None else hint;
      if m1.tokens < 1.0 then (m1, false)
      else if usable.Some? && Load(m1, AddressOf(usable.value)) >= c.limits.maxPerNode then (m1, false)
      else
        var lookup := Shortlisted(c, NewLookup(c, h, now), seeds);
        if usable.None? && |lookup.shortlist.m| == 0 then (m1, false) else (Begun(c, m1, lookup, usable, now), true)
  }

  /** The peers of an answer that are new to the lookup, up to its limit. */
  function Accepted(c: Config, found: seq<Address>, values: seq<Address>): (r: seq<Address>)
    ensures found <= r && (Distinct(found) ==> Distinct(r))
    ensures |found| <= c.limits.maxPeers ==> |r| <= c.limits.maxPeers
    decreases |values|
  {
    if values == [] then found
    else if c.routable(values[0]) && values[0] !in found && |found| < c.limits.maxPeers then
      DistinctAppend(found, values[0]);
      Accepted(c, found + [values[0]], values[1..])
    else Accepted(c, found, values[1..])
  }

  /** The part of handle_response between the release and the advance. */
  function Absorbed(c: Config, m: Manager, h: Hash, response: Response): Manager
    requires h in m.active.m && m.active.m[h].hash == h
  {
    var lookup := m.active.m[h];
    var found := Accepted(c, lookup.found, response.values);
    var news := found[|lookup.found|..];
    var heard := lookup.(found := found, valueResponses := lookup.valueResponses + (if response.values != [] then 1 else 0));
    var with4 := if response.nodes.Some? then Shortlisted(c, heard, response.nodes.value) else heard;
    var with6 := if response.nodes6.Some? then Shortlisted(c, with4, response.nodes6.value) else with4;
    SetLookup(m, with6).(events := m.events + (if news != [] then [Streamed(h, news)] else []))
  }

  /** Only an answer to a query in flight, from the address it was sent to, is taken. */
  predicate Expected(m: Manager, tid: Tid, address: Address)
    requires tid in m.transactions
  {
    var h := m.transactions[tid];
    h in m.active.m && tid in m.active.m[h].pending.m && m.active.m[h].pending.m[tid].address == address
  }

  function Answered(c: Config, m: Manager, tid: Tid, response: Option<Response>, address: Address, now: real): Manager
    requires tid in m.transactions
    requires m.transactions[tid] in m.active.m ==> m.active.m[m.transactions[tid]].hash == m.transactions[tid]
  {
    if !Expected(m, tid, address) then m
    else
      var h := m.transactions[tid];
      var m1 := Released(m, h, tid);
      Advanced(c, if response.Some? then Absorbed(c, m1, h, response.value) else m1, h, now)
  }

  function Errored(c: Config, m: Manager, tid: Tid, now: real): Manager
    requires tid in m.transactions
    requires m.transactions[tid] in m.active.m ==> m.active.m[m.transactions[tid]].hash == m.transactions[tid]
  {
    var h := m.transactions[tid];
    if h in m.active.m && tid in m.active.m[h].pending.m then Advanced(c, Released(m, h, tid), h, now)
    else m.(transactions := m.transactions - {tid})
  }

  function Overdue(pending: map<Tid, Pending>, now: real): Tid -> bool {
    t => t in pending && pending[t].expiry <= now
  }

  function ExpiredIds(lookup: Lookup, now: real): seq<Tid> {
    Filter(lookup.pending.keys, Overdue(lookup.pending.m, now))
  }

  function Expired(m: Manager, h: Hash, now: real): Manager
    requires h in m.active.m && m.active.m[h].hash == h
  {
    ReleasedAll(m, h, ExpiredIds(m.active.m[h], now))
  }

  /** tick's loop over the lookups that were active when it began. */
  function TickedEach(c: Config, m: Manager, hashes: seq<Hash>, now: real): (r: Manager)
    ensures NoLater(m, r, now)
    decreases |hashes|
  {
    if hashes == [] then m
    else if hashes[0] in m.active.m && m.active.m[hashes[0]].hash == hashes[0] then
      TickedEach(c, Advanced(c, Expired(m, hashes[0], now), hashes[0], now), hashes[1..], now)
    else TickedEach(c, m, hashes[1..], now)
  }

  function Ticked(c: Config, m: Manager, now: real): (r: Manager)
    ensures NoLater(m, r, now)
  {
    TickedEach(c, Refilled(c, m, now), m.active.keys, now)
  }

  function AbortedEach(m: Manager, hashes: seq<Hash>): (r: Manager)
    ensures r.tokensTime == m.tokensTime
    decreases |hashes|
  {
    if hashes == [] then m
    else if hashes[0] in m.active.m && m.active.m[hashes[0]].hash == hashes[0] then AbortedEach(FinishedLookup(m, hashes[0]), hashes[1..])
    else AbortedEach(m, hashes[1..])
  }

  function Initial(c: Config, now: real): Manager {
    Manager(Empty(), map[], map[], c.limits.queriesPerSecond, now, 0, 0, 0, 0, [])
  }
}
