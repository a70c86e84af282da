/** What every operation of the lookup manager keeps: its tables agree, its caps and its query budget hold. */
module DhtLookupProofs {
  import opened ByteStrings
  import opened BoundedRecentMap
  import opened NodeIdentity
  import opened DhtLookup

  // ----- the three tables

  type Lookups = map<Hash, Lookup>

  predicate HasPending(active: Lookups, h: Hash, t: Tid) {
    h in active && t in active[h].pending.m
  }

  /** transactions[t] = h exactly when lookup h is active and has t pending. */
  ghost predicate Linked(transactions: map<Tid, Hash>, active: Lookups) {
    && (forall t :: t in transactions ==> HasPending(active, transactions[t], t))
    && (forall h, t :: HasPending(active, h, t) ==> t in transactions && transactions[t] == h)
  }

  /** The pending queries of all lookups, by transaction id. */
  ghost function Queries(transactions: map<Tid, Hash>, active: Lookups): map<Tid, Pending> {
    map t | t in transactions && HasPending(active, transactions[t], t) :: active[transactions[t]].pending.m[t]
  }

  ghost function InFlightQueries(m: Manager): map<Tid, Pending> {
    Queries(m.transactions, m.active.m)
  }

  ghost function AskedOf(p: map<Tid, Pending>, a: Address): set<Tid> {
    set t | t in p && p[t].address == a
  }

  /** in_flight counts the pending queries to each address, and holds no zero. */
  ghost predicate CountsMatch(inFlight: map<Address, nat>, p: map<Tid, Pending>) {
    forall a :: (a in inFlight <==> AskedOf(p, a) != {}) && (a in inFlight ==> inFlight[a] == |AskedOf(p, a)|)
  }

  /** Lookups are filed under their own hash, and each dictionary is one. */
  ghost predicate Filed(m: Manager) {
    Ordered(m.active) &&
    forall h :: h in m.active.m ==>
      m.active.m[h].hash == h && Ordered(m.active.m[h].pending) && Ordered(m.active.m[h].shortlist)
  }

  ghost predicate TablesAgree(m: Manager) {
    Filed(m) && Linked(m.transactions, m.active.m) && CountsMatch(m.inFlight, InFlightQueries(m))
  }

  lemma CountAdd(inFlight: map<Address, nat>, p: map<Tid, Pending>, t: Tid, q: Pending)
    requires CountsMatch(inFlight, p) && t !in p
    ensures CountsMatch(inFlight[q.address := (if q.address in inFlight then inFlight[q.address] else 0) + 1], p[t := q])
  {
    forall a ensures AskedOf(p[t := q], a) == if a == q.address then AskedOf(p, a) + {t} else AskedOf(p, a) {}
    if q.address !in inFlight { assert AskedOf(p, q.address) == {}; }
    assert |AskedOf(p, q.address) + {t}| == |AskedOf(p, q.address)| + 1;
  }

  lemma CountDrop(inFlight: map<Address, nat>, p: map<Tid, Pending>, t: Tid)
    requires CountsMatch(inFlight, p) && t in p
    ensures var a := p[t].address;
            a in inFlight && inFlight[a] >= 1 &&
            CountsMatch(if inFlight[a] > 1 then inFlight[a := inFlight[a] - 1] else inFlight - {a}, p - {t})
  {
    var a := p[t].address;
    assert t in AskedOf(p, a);
    forall b ensures AskedOf(p - {t}, b) == if b == a then AskedOf(p, b) - {t} else AskedOf(p, b) {}
    assert |AskedOf(p, a) - {t}| == |AskedOf(p, a)| - 1;
  }

  lemma SentFields(m: Manager, h: Hash, node: Node, now: real, timeout: real)
    requires h in m.active.m && m.active.m[h].hash == h
    ensures var m' := SentTo(m, h, node, now, timeout); var t, a := TransactionId(m.sequence), AddressOf(node); var k := m.active.m[h];
            m'.active == Put(m.active, h, k.(pending := Put(k.pending, t, Pending(a, now + timeout)), queried := k.queried + {a}, sent := k.sent + 1)) &&
            m'.transactions == m.transactions[t := h] && m'.inFlight == m.inFlight[a := Load(m, a) + 1] &&
            m'.tokens == m.tokens - 1.0 && m'.tokensTime == m.tokensTime && m'.sequence == m.sequence + 1 &&
            m'.queries == m.queries + 1 && m'.events == m.events + [Sent(t, node, h)] &&
            m'.started == m.started && m'.finished == m.finished
  {
  }

  lemma ReleasedFields(m: Manager, h: Hash, t: Tid)
    requires h in m.active.m && m.active.m[h].hash == h && t in m.active.m[h].pending.m
    ensures var m' := Released(m, h, t); var k := m.active.m[h]; var a := k.pending.m[t].address;
            m'.active == Put(m.active, h, k.(pending := Pop(k.pending, t), hint := if k.hint == Some(t) then None else k.hint)) &&
            m'.transactions == m.transactions - {t} &&
            m'.inFlight == (if Load(m, a) > 1 then m.inFlight[a := Load(m, a) - 1] else m.inFlight - {a}) &&
            m'.tokens == m.tokens && m'.tokensTime == m.tokensTime && m'.sequence == m.sequence &&
            m'.queries == m.queries && m'.events == m.events && m'.started == m.started && m'.finished == m.finished
  {
  }

  /** A query more in flight: what Linked and Queries make of it. */
  lemma LinkOne(tr: map<Tid, Hash>, act: Lookups, act': Lookups, h: Hash, t: Tid, q: Pending)
    requires Linked(tr, act) && h in act && t !in tr && act'.Keys == act.Keys
    requires act'[h].pending.m == act[h].pending.m[t := q] && forall g :: g in act && g != h ==> act'[g] == act[g]
    ensures Linked(tr[t := h], act') && Queries(tr[t := h], act') == Queries(tr, act)[t := q] && t !in Queries(tr, act)
  {
    PendingAfter(act, act', h, t, q);
    LinkedAfter(tr, act, act', h, t);
    hide HasPending, Queries, Linked;
    SameQueries(tr, act, tr[t := h], act', t);
    QueryAt(tr[t := h], act', t);
    MapPlus(Queries(tr, act), Queries(tr[t := h], act'), t, q);
  }

  lemma MapPlus<K(!new), V>(p: map<K, V>, p': map<K, V>, t: K, q: V)
    requires forall u :: u != t ==> (u in p' <==> u in p)
    requires forall u :: u != t && u in p ==> p'[u] == p[u]
    requires t in p' && p'[t] == q
    ensures p' == p[t := q]
  {
  }

  lemma LinkedAfter(tr: map<Tid, Hash>, act: Lookups, act': Lookups, h: Hash, t: Tid)
    requires Linked(tr, act) && t !in tr
    requires forall g, u :: HasPending(act', g, u) <==> HasPending(act, g, u) || (g == h && u == t)
    ensures Linked(tr[t := h], act')
  {
    hide HasPending;
    assert !HasPending(act, h, t);
    var tr' := tr[t := h];
    forall u | u in tr' ensures HasPending(act', tr'[u], u) {
      if u != t { assert HasPending(act, tr[u], u); }
    }
  }

  lemma PendingAfter(act: Lookups, act': Lookups, h: Hash, t: Tid, q: Pending)
    requires h in act && act'.Keys == act.Keys
    requires act'[h].pending.m == act[h].pending.m[t := q] && forall g :: g in act && g != h ==> act'[g] == act[g]
    ensures forall g, u :: HasPending(act', g, u) <==> HasPending(act, g, u) || (g == h && u == t)
    ensures forall g, u :: u != t && HasPending(act, g, u) ==>
              g in act' && u in act'[g].pending.m && act'[g].pending.m[u] == act[g].pending.m[u]
  {
  }

  lemma PendingWithout(tr: map<Tid, Hash>, act: Lookups, act': Lookups, h: Hash, t: Tid)
    requires Linked(tr, act) && HasPending(act, h, t) && act'.Keys == act.Keys
    requires act'[h].pending.m == act[h].pending.m - {t} && forall g :: g in act && g != h ==> act'[g] == act[g]
    ensures forall g, u :: HasPending(act', g, u) <==> HasPending(act, g, u) && u != t
    ensures forall g, u :: u != t && HasPending(act, g, u) ==>
              g in act' && u in act'[g].pending.m && act'[g].pending.m[u] == act[g].pending.m[u]
  {
    forall g | HasPending(act, g, t) ensures g == h {}
  }

  lemma SameTables(m: Manager, m': Manager)
    requires m'.active == m.active && m'.transactions == m.transactions && m'.inFlight == m.inFlight
    ensures InFlightQueries(m') == InFlightQueries(m)
    ensures TablesAgree(m) ==> TablesAgree(m')
  {
  }

  lemma QueryAt(tr: map<Tid, Hash>, act: Lookups, t: Tid)
    requires Linked(tr, act) && t in tr
    ensures t in Queries(tr, act) && tr[t] in act && t in act[tr[t]].pending.m
    ensures Queries(tr, act)[t] == act[tr[t]].pending.m[t]
  {
  }

  lemma SameQueries(tr: map<Tid, Hash>, act: Lookups, tr': map<Tid, Hash>, act': Lookups, t: Tid)
    requires Linked(tr, act) && Linked(tr', act')
    requires forall u :: u != t ==> (u in tr' <==> u in tr) && (u in tr ==> tr'[u] == tr[u])
    requires forall g, u :: u != t && HasPending(act, g, u) ==>
               g in act' && u in act'[g].pending.m && act'[g].pending.m[u] == act[g].pending.m[u]
    ensures forall u :: u != t ==> (u in Queries(tr', act') <==> u in Queries(tr, act))
    ensures forall u :: u != t && u in Queries(tr, act) ==> Queries(tr', act')[u] == Queries(tr, act)[u]
    ensures Queries(tr, act).Keys == tr.Keys && Queries(tr', act').Keys == tr'.Keys
  {
    forall u | u != t && u in Queries(tr, act) ensures Queries(tr', act')[u] == Queries(tr, act)[u] {
      assert HasPending(act, tr[u], u);
    }
  }

  lemma UnlinkOne(tr: map<Tid, Hash>, act: Lookups, act': Lookups, h: Hash, t: Tid)
    requires Linked(tr, act) && h in act && t in act[h].pending.m && act'.Keys == act.Keys
    requires act'[h].pending.m == act[h].pending.m - {t} && forall g :: g in act && g != h ==> act'[g] == act[g]
    ensures Linked(tr - {t}, act') && Queries(tr - {t}, act') == Queries(tr, act) - {t}
    ensures t in Queries(tr, act) && t in tr && Queries(tr, act)[t] == act[h].pending.m[t]
  {
    assert HasPending(act, h, t);
    PendingWithout(tr, act, act', h, t);
    QueryAt(tr, act, t);
    hide HasPending, Queries;
    var tr' := tr - {t};
    forall u | u in tr' ensures HasPending(act', tr'[u], u) {
      assert HasPending(act, tr[u], u);
    }
    SameQueries(tr, act, tr', act', t);
    assert Queries(tr', act') == Queries(tr, act) - {t};
  }

  lemma SendLinks(m: Manager, h: Hash, node: Node, now: real, timeout: real)
    requires TablesAgree(m) && h in m.active.m && TransactionId(m.sequence) !in m.transactions
    ensures TablesAgree(SentTo(m, h, node, now, timeout))
    ensures InFlightQueries(SentTo(m, h, node, now, timeout)) ==
            InFlightQueries(m)[TransactionId(m.sequence) := Pending(AddressOf(node), now + timeout)]
  {
    hide TransactionId, CountsMatch, Ordered, SentTo, Linked, Queries;
    var q := Pending(AddressOf(node), now + timeout);
    SentFields(m, h, node, now, timeout);
    LinkOne(m.transactions, m.active.m, SentTo(m, h, node, now, timeout).active.m, h, TransactionId(m.sequence), q);
    CountAdd(m.inFlight, InFlightQueries(m), TransactionId(m.sequence), q);
  }

  lemma ReleaseLinks(m: Manager, h: Hash, tid: Tid)
    requires TablesAgree(m) && h in m.active.m && tid in m.active.m[h].pending.m
    ensures TablesAgree(Released(m, h, tid))
    ensures InFlightQueries(Released(m, h, tid)) == InFlightQueries(m) - {tid}
    ensures tid in InFlightQueries(m) && tid in m.transactions
  {
    hide CountsMatch, Ordered, Released, Linked, Queries;
    ReleasedFields(m, h, tid);
    UnlinkOne(m.transactions, m.active.m, Released(m, h, tid).active.m, h, tid);
    CountDrop(m.inFlight, InFlightQueries(m), tid);
  }

  // ----- caps

  /** One query in flight at a time, or no two usable nodes at one address. */
  ghost predicate Separate(c: Config) {
    c.limits.alpha == 1 || forall x: Node, y: Node :: c.usable(x) && c.usable(y) && AddressOf(x) == AddressOf(y) ==> x == y
  }

  /** Usable nodes, filed under their own ids. */
  predicate Listed(c: Config, shortlist: map<NodeId, Node>) {
    forall id :: id in shortlist ==> shortlist[id].id == id && c.usable(shortlist[id])
  }

  ghost predicate LookupOk(c: Config, k: Lookup) {
    && |k.pending.m| <= c.limits.alpha && k.sent <= c.limits.maxQueries
    && |k.shortlist.m| <= c.limits.shortlistSize && Listed(c, k.shortlist.m)
    && (forall t :: t in k.pending.m ==> k.pending.m[t].address in k.queried)
    && (k.hint.Some? ==> k.hint.value in k.pending.m)
    && Distinct(k.found) && |k.found| <= c.limits.maxPeers
    // no address is asked twice
    && (Separate(c) ==> k.sent == |k.queried|)
  }

  ghost predicate CapsHold(c: Config, m: Manager) {
    && |m.active.m| <= c.limits.maxActive
    && (forall h :: h in m.active.m ==> LookupOk(c, m.active.m[h]))
    && (Separate(c) ==> forall a :: a in m.inFlight ==> m.inFlight[a] <= c.limits.maxPerNode)
  }

  /** What top_up and start_lookup see to before they send. */
  ghost predicate MaySend(c: Config, m: Manager, h: Hash, a: Address) {
    && h in m.active.m && m.tokens >= 1.0
    && |m.active.m[h].pending.m| < c.limits.alpha && m.active.m[h].sent < c.limits.maxQueries
    && (Separate(c) ==> a !in m.active.m[h].queried && Load(m, a) < c.limits.maxPerNode)
  }

  lemma SendCaps(c: Config, m: Manager, h: Hash, node: Node, now: real, timeout: real)
    requires Filed(m) && CapsHold(c, m) && MaySend(c, m, h, AddressOf(node))
    ensures CapsHold(c, SentTo(m, h, node, now, timeout))
  {
    hide TransactionId, Ordered, Distinct, SentTo, LookupOk, Separate;
    SentFields(m, h, node, now, timeout);
    SameSize(m.active.m, SentTo(m, h, node, now, timeout).active.m);
    MayAsk(c, m.active.m[h], TransactionId(m.sequence), Pending(AddressOf(node), now + timeout));
  }

  lemma MayAsk(c: Config, k: Lookup, t: Tid, q: Pending)
    requires LookupOk(c, k) && |k.pending.m| < c.limits.alpha && k.sent < c.limits.maxQueries
    requires Separate(c) ==> q.address !in k.queried
    ensures LookupOk(c, k.(pending := Put(k.pending, t, q), queried := k.queried + {q.address}, sent := k.sent + 1))
  {
    hide Ordered, Distinct, Separate, Listed;
    assert k.pending.m[t := q].Keys == k.pending.m.Keys + {t};
    assert |k.pending.m[t := q]| == |k.pending.m[t := q].Keys|;
    assert |k.pending.m| == |k.pending.m.Keys|;
  }

  lemma ReleaseOk(c: Config, k: Lookup, t: Tid)
    requires LookupOk(c, k) && t in k.pending.m
    ensures LookupOk(c, k.(pending := Pop(k.pending, t), hint := if k.hint == Some(t) then None else k.hint))
    ensures |Pop(k.pending, t).m| == |k.pending.m| - 1
  {
    hide Ordered, Distinct, Separate, Listed;
    assert (k.pending.m - {t}).Keys == k.pending.m.Keys - {t};
    assert |k.pending.m - {t}| == |(k.pending.m - {t}).Keys|;
    assert |k.pending.m| == |k.pending.m.Keys|;
  }

  lemma SameSize<K, V>(m: map<K, V>, m': map<K, V>)
    requires m.Keys == m'.Keys
    ensures |m| == |m'|
  {
    assert |m| == |m.Keys| && |m'| == |m'.Keys|;
  }

  lemma ReleaseCaps(c: Config, m: Manager, h: Hash, tid: Tid)
    requires Filed(m) && CapsHold(c, m) && h in m.active.m && tid in m.active.m[h].pending.m
    ensures CapsHold(c, Released(m, h, tid))
    ensures |Released(m, h, tid).active.m[h].pending.m| == |m.active.m[h].pending.m| - 1
  {
    hide Ordered, Distinct, Released, LookupOk, Separate;
    ReleasedFields(m, h, tid);
    SameSize(m.active.m, Released(m, h, tid).active.m);
    ReleaseOk(c, m.active.m[h], tid);
  }

  // ----- the peers reported

  ghost predicate InOrder(peers: seq<Address>) {
    forall i, j :: 0 <= i < j < |peers| ==> AddressBefore(peers[i], peers[j])
  }

  lemma {:induction false} InsertInOrder(sorted: seq<Address>, a: Address)
    requires InOrder(sorted)
    ensures InOrder(InsertPeer(sorted, a)) && forall x :: x in InsertPeer(sorted, a) <==> x in sorted || x == a
    decreases |sorted|
  {
    if sorted != [] && !AddressBefore(a, sorted[0]) {
      InsertInOrder(sorted[1..], a);
      var rest := InsertPeer(sorted[1..], a);
      forall x | x in rest ensures AddressBefore(sorted[0], x) {
        if x in sorted[1..] { var j :| 0 <= j < |sorted[1..]| && sorted[1..][j] == x; }
      }
    }
  }

  /** sorted(found_peers): the peers found, in order. */
  lemma {:induction false} SortedInOrder(peers: seq<Address>)
    ensures InOrder(SortedPeers(peers)) && multiset(SortedPeers(peers)) == multiset(peers)
    decreases |peers|
  {
    hide AddressBefore;
    if peers != [] {
      SortedInOrder(peers[1..]);
      InsertInOrder(SortedPeers(peers[1..]), peers[0]);
    }
  }

  // ----- tokens and the age of what is in flight

  /** Ghost knowledge about the run: when the last tick was, and how far apart ticks are at most. */
  datatype Clock = Clock(lastTick: real, gap: real)

  /** The number a query was sent under, and the token clock at that moment. */
  datatype Birth = Birth(number: nat, at: real)

  function LongestTimeout(c: Config): real {
    if c.limits.queryTimeout > c.limits.hintTimeout then c.limits.queryTimeout else c.limits.hintTimeout
  }

  /** The budget over the life of a query stays below the cycle of the transaction ids. */
  predicate CycleLongEnough(c: Config, k: Clock) {
    k.gap >= 0.0 && c.limits.queriesPerSecond * (1.0 + LongestTimeout(c) + k.gap) < ID_CYCLE as real
  }

  predicate Timely(k: Clock, now: real) {
    k.lastTick <= now <= k.lastTick + k.gap
  }

  /** The token bucket as one query in flight sees it. */
  datatype Bucket = Bucket(rate: real, sequence: nat, tokens: real, time: real)

  function BucketOf(c: Config, m: Manager): Bucket {
    Bucket(c.limits.queriesPerSecond, m.sequence, m.tokens, m.tokensTime)
  }

  ghost predicate BirthOk(u: Bucket, longest: real, lastTick: real, t: Tid, b: Birth, expiry: real) {
    && t == TransactionId(b.number) && b.number < u.sequence
    // no more queries since than the budget allows
    && (u.sequence - b.number) as real + u.tokens <= u.rate * (1.0 + (u.time - b.at))
    && b.at <= u.time && expiry <= b.at + longest && lastTick < expiry
  }

  ghost predicate BirthsOk(u: Bucket, longest: real, lastTick: real, w: map<Tid, Birth>, p: map<Tid, Pending>) {
    w.Keys == p.Keys && forall t :: t in w ==> BirthOk(u, longest, lastTick, t, w[t], p[t].expiry)
  }

  ghost predicate Budgeted(c: Config, m: Manager, w: map<Tid, Birth>, k: Clock) {
    && 0.0 <= m.tokens <= c.limits.queriesPerSecond && m.tokensTime <= k.lastTick + k.gap
    && w.Keys == m.transactions.Keys
    && BirthsOk(BucketOf(c, m), LongestTimeout(c), k.lastTick, w, InFlightQueries(m))
  }

  lemma TimesMonotone(q: real, x: real, y: real)
    requires q > 0.0 && x <= y
    ensures q * x <= q * y && x * q <= y * q
  {
  }

  lemma TimesPositive(q: real, x: real)
    requires q > 0.0 && x >= 0.0
    ensures x * q >= 0.0
  {
  }

  lemma BirthRecent(u: Bucket, longest: real, lastTick: real, gap: real, t: Tid, b: Birth, expiry: real)
    requires u.rate > 0.0 && u.rate * (1.0 + longest + gap) < ID_CYCLE as real
    requires BirthOk(u, longest, lastTick, t, b, expiry) && 0.0 <= u.tokens && u.time <= lastTick + gap
    ensures b.number < u.sequence < b.number + ID_CYCLE
  {
    hide TransactionId;
    TimesMonotone(u.rate, 1.0 + (u.time - b.at), 1.0 + longest + gap);
    Below(u.sequence - b.number, u.tokens, u.rate * (1.0 + (u.time - b.at)), u.rate * (1.0 + longest + gap));
  }

  lemma Below(n: int, tokens: real, x: real, y: real)
    requires n as real + tokens <= x <= y < ID_CYCLE as real && tokens >= 0.0
    ensures n < ID_CYCLE
  {
  }

  lemma BirthHere(u: Bucket, longest: real, lastTick: real, w: map<Tid, Birth>, p: map<Tid, Pending>, t: Tid)
    requires BirthsOk(u, longest, lastTick, w, p) && t in w
    ensures t in p && BirthOk(u, longest, lastTick, t, w[t], p[t].expiry)
  {
    hide BirthOk;
    assert t in p.Keys;
  }

  lemma BornAs(u: Bucket, longest: real, lastTick: real, t: Tid, b: Birth, expiry: real)
    requires BirthOk(u, longest, lastTick, t, b, expiry)
    ensures t == TransactionId(b.number)
  {
    hide TransactionId;
  }

  lemma CycleBound(c: Config, k: Clock)
    requires CycleLongEnough(c, k)
    ensures c.limits.queriesPerSecond * (1.0 + LongestTimeout(c) + k.gap) < ID_CYCLE as real
  {
  }

  /** So the next transaction id is not in use. */
  lemma NextIdIsFree(c: Config, m: Manager, w: map<Tid, Birth>, k: Clock)
    requires ConfigOk(c) && CycleLongEnough(c, k) && Budgeted(c, m, w, k)
    ensures TransactionId(m.sequence) !in m.transactions
  {
    hide TransactionId, InFlightQueries, LongestTimeout, BirthOk, BirthsOk, CycleLongEnough;
    var t := TransactionId(m.sequence);
    if t in w {
      BirthHere(BucketOf(c, m), LongestTimeout(c), k.lastTick, w, InFlightQueries(m), t);
      CycleBound(c, k);
      BirthRecent(BucketOf(c, m), LongestTimeout(c), k.lastTick, k.gap, t, w[t], InFlightQueries(m)[t].expiry);
      BornAs(BucketOf(c, m), LongestTimeout(c), k.lastTick, t, w[t], InFlightQueries(m)[t].expiry);
      CloseNumbersDiffer(w[t].number, m.sequence);
    }
  }

  /** Queries sent, plus what tokens there could be at T, less what q per second allow by T. */
  function Budget(queries: nat, tokens: real, tokensTime: real, q: real, T: real): real {
    var later := if T > tokensTime then T else tokensTime;
    var available := tokens + (later - tokensTime) * q;
    queries as real + (if available < q then available else q) - later * q
  }

  function BudgetAt(c: Config, m: Manager, T: real): real {
    Budget(m.queries, m.tokens, m.tokensTime, c.limits.queriesPerSecond, T)
  }

  /** Seen from T the budget does not grow, and calls to the outside are only added. */
  ghost predicate Later(c: Config, m: Manager, m': Manager, T: real) {
    && BudgetAt(c, m', T) <= BudgetAt(c, m, T)
    && m.events <= m'.events && m.queries <= m'.queries && m.tokensTime <= m'.tokensTime
  }

  lemma RefillBudget(queries: nat, tokens: real, tt: real, q: real, now: real, T: real)
    requires q > 0.0 && 0.0 <= tokens <= q && tt < now
    ensures var more := tokens + (now - tt) * q;
            Budget(queries, if more < q then more else q, now, q, T) <= Budget(queries, tokens, tt, q, T)
  {
    var later := if T > tt then T else tt;
    if later >= now {
      Products(tt, now, later, q);
    } else {
      Products(tt, later, now, q);
      assert (now - now) * q == 0.0;
    }
  }

  /** The products in the budget, for x <= y <= z. */
  lemma Products(x: real, y: real, z: real, q: real)
    requires x <= y <= z && q > 0.0
    ensures (z - x) * q == (z - y) * q + (y - x) * q && z * q == (z - y) * q + y * q
    ensures (z - y) * q >= 0.0 && (y - x) * q >= 0.0
  {
    TimesPositive(q, z - y);
    TimesPositive(q, y - x);
  }

  lemma RefillKeeps(c: Config, m: Manager, now: real, T: real)
    requires ConfigOk(c) && 0.0 <= m.tokens <= c.limits.queriesPerSecond
    ensures Later(c, m, Refilled(c, m, now), T)
    ensures 0.0 <= Refilled(c, m, now).tokens <= c.limits.queriesPerSecond && Refilled(c, m, now).tokensTime >= now
    ensures Refilled(c, m, now).tokens <= m.tokens + (Refilled(c, m, now).tokensTime - m.tokensTime) * c.limits.queriesPerSecond
  {
    hide Budget;
    var q := c.limits.queriesPerSecond;
    if now > m.tokensTime {
      TimesPositive(q, now - m.tokensTime);
      RefillBudget(m.queries, m.tokens, m.tokensTime, q, now, T);
    }
  }

  /** Births stay in order when the bucket is refilled, */
  lemma BirthsRefill(u: Bucket, longest: real, lastTick: real, w: map<Tid, Birth>, p: map<Tid, Pending>, u': Bucket)
    requires BirthsOk(u, longest, lastTick, w, p)
    requires u'.rate == u.rate && u'.sequence == u.sequence && u.time <= u'.time && u'.tokens <= u.tokens + (u'.time - u.time) * u.rate
    ensures BirthsOk(u', longest, lastTick, w, p)
  {
    hide TransactionId;
    forall t | t in w ensures BirthOk(u', longest, lastTick, t, w[t], p[t].expiry) {
      assert BirthOk(u, longest, lastTick, t, w[t], p[t].expiry);
      assert u.rate * (1.0 + (u'.time - w[t].at)) == u.rate * (1.0 + (u.time - w[t].at)) + (u'.time - u.time) * u.rate;
    }
  }

  /** when a token is spent on another query, */
  lemma BirthsSend(u: Bucket, longest: real, lastTick: real, w: map<Tid, Birth>, p: map<Tid, Pending>, q: Pending)
    requires BirthsOk(u, longest, lastTick, w, p) && u.tokens <= u.rate
    requires q.expiry <= u.time + longest && lastTick < q.expiry
    ensures var t := TransactionId(u.sequence);
            BirthsOk(u.(sequence := u.sequence + 1, tokens := u.tokens - 1.0), longest, lastTick,
                     w[t := Birth(u.sequence, u.time)], p[t := q])
  {
    hide TransactionId;
    var tid := TransactionId(u.sequence);
    var u', w', p' := u.(sequence := u.sequence + 1, tokens := u.tokens - 1.0), w[tid := Birth(u.sequence, u.time)], p[tid := q];
    forall t | t in w' ensures BirthOk(u', longest, lastTick, t, w'[t], p'[t].expiry) {
      if t != tid { assert BirthOk(u, longest, lastTick, t, w[t], p[t].expiry); }
    }
  }

  /** and when a query is released. */
  lemma BirthsRelease(u: Bucket, longest: real, lastTick: real, w: map<Tid, Birth>, p: map<Tid, Pending>, t: Tid)
    requires BirthsOk(u, longest, lastTick, w, p)
    ensures BirthsOk(u, longest, lastTick, w - {t}, p - {t})
  {
    hide BirthOk;
  }

  lemma RefillBirths(c: Config, m: Manager, w: map<Tid, Birth>, k: Clock, now: real)
    requires ConfigOk(c) && Budgeted(c, m, w, k) && now <= k.lastTick + k.gap
    ensures Budgeted(c, Refilled(c, m, now), w, k)
  {
    hide InFlightQueries, Later, BirthsOk, LongestTimeout;
    var m' := Refilled(c, m, now);
    RefillKeeps(c, m, now, now);
    SameTables(m, m');
    BirthsRefill(BucketOf(c, m), LongestTimeout(c), k.lastTick, w, InFlightQueries(m), BucketOf(c, m'));
  }

  lemma SendBudget(c: Config, m: Manager, h: Hash, node: Node, now: real, timeout: real, T: real)
    requires ConfigOk(c) && h in m.active.m && m.active.m[h].hash == h
    requires 1.0 <= m.tokens <= c.limits.queriesPerSecond && T <= m.tokensTime
    ensures Later(c, m, SentTo(m, h, node, now, timeout), T)
  {
    hide TransactionId, SentTo;
    SentFields(m, h, node, now, timeout);
  }

  lemma SendBirths(c: Config, m: Manager, w: map<Tid, Birth>, k: Clock, h: Hash, node: Node, now: real, timeout: real)
    requires ConfigOk(c) && Budgeted(c, m, w, k) && TablesAgree(m) && h in m.active.m && m.tokens >= 1.0
    requires Timely(k, now) && now <= m.tokensTime && 0.0 < timeout <= LongestTimeout(c)
    requires TransactionId(m.sequence) !in m.transactions
    ensures Budgeted(c, SentTo(m, h, node, now, timeout), w[TransactionId(m.sequence) := Birth(m.sequence, m.tokensTime)], k)
  {
    hide TransactionId, CountsMatch, InFlightQueries, SentTo, Linked, BirthsOk, LongestTimeout;
    SentFields(m, h, node, now, timeout);
    SendLinks(m, h, node, now, timeout);
    BirthsSend(BucketOf(c, m), LongestTimeout(c), k.lastTick, w, InFlightQueries(m), Pending(AddressOf(node), now + timeout));
  }

  lemma ReleaseBirths(c: Config, m: Manager, w: map<Tid, Birth>, k: Clock, h: Hash, tid: Tid)
    requires Budgeted(c, m, w, k) && TablesAgree(m) && h in m.active.m && tid in m.active.m[h].pending.m
    ensures Budgeted(c, Released(m, h, tid), w - {tid}, k)
  {
    hide TransactionId, CountsMatch, InFlightQueries, Released, Linked, BirthsOk, LongestTimeout;
    ReleasedFields(m, h, tid);
    ReleaseLinks(m, h, tid);
    BirthsRelease(BucketOf(c, m), LongestTimeout(c), k.lastTick, w, InFlightQueries(m), tid);
  }
}
