/**
 * dht_lookup.py in its own form: the lookup manager's tables updated in place. Each method is proved against the
 * function of DhtLookup that says what it does, and the calls of the crawler keep every invariant of DhtLookupRuns.
 */
module LookupManager {
  import opened ByteStrings
  import opened BoundedRecentMap
  import opened NodeIdentity
  import opened DhtLookup
  import opened DhtLookupProofs
  import opened DhtLookupRuns

  // ----- what the steps leave of a lookup's pending queries

  lemma ReleasedPending(m: Manager, h: Hash, tid: Tid)
    requires h in m.active.m && m.active.m[h].hash == h && tid in m.active.m[h].pending.m
    ensures Released(m, h, tid).active.m[h].pending == Pop(m.active.m[h].pending, tid)
  {
    hide Pop;
  }

  lemma {:induction false} SentEachOrdered(c: Config, m: Manager, h: Hash, nodes: seq<Node>, now: real)
    requires h in m.active.m && m.active.m[h].hash == h && Ordered(m.active.m[h].pending)
    ensures Ordered(SentToEach(c, m, h, nodes, now).active.m[h].pending)
    decreases |nodes|
  {
    hide Ordered, TransactionId, Load;
    if nodes != [] && m.tokens >= 1.0 {
      SentEachOrdered(c, SentTo(m, h, nodes[0], now, c.limits.queryTimeout), h, nodes[1..], now);
    }
  }

  lemma ToppedUpOrdered(c: Config, m: Manager, h: Hash, now: real)
    requires h in m.active.m && m.active.m[h].hash == h && Ordered(m.active.m[h].pending)
    ensures Ordered(ToppedUp(c, m, h, now).active.m[h].pending)
  {
    hide Ordered, SentToEach, Candidates, SelectClosest;
    var free, m1 := Free(c, m.active.m[h]), Refilled(c, m, now);
    if free > 0 && m1.tokens >= 1.0 {
      SentEachOrdered(c, m1, h, SelectClosest(Candidates(c, m1.inFlight, m.active.m[h]), h, free), now);
    }
  }

  lemma {:induction false} ReleasedAllOrdered(m: Manager, h: Hash, tids: seq<Tid>)
    requires h in m.active.m && m.active.m[h].hash == h && Ordered(m.active.m[h].pending)
    ensures Ordered(ReleasedAll(m, h, tids).active.m[h].pending)
    decreases |tids|
  {
    hide Ordered, Released;
    if tids != [] {
      if tids[0] in m.active.m[h].pending.m {
        ReleasedPending(m, h, tids[0]);
        ReleasedAllOrdered(Released(m, h, tids[0]), h, tids[1..]);
      } else {
        ReleasedAllOrdered(m, h, tids[1..]);
      }
    }
  }

  lemma AbsorbedPending(c: Config, m: Manager, h: Hash, response: Response)
    requires h in m.active.m && m.active.m[h].hash == h
    ensures var m' := Absorbed(c, m, h, response);
            h in m'.active.m && m'.active.m[h].hash == h && m'.active.m[h].pending == m.active.m[h].pending
  {
    hide Accepted, PutNodes, SelectClosest, Values;
  }

  lemma OrderedAt(c: Config, m: Manager, w: map<Tid, Birth>, k: Clock, h: Hash)
    requires Inv(c, m, w, k)
    ensures Ordered(m.active) && (h in m.active.m ==> m.active.m[h].hash == h && Ordered(m.active.m[h].pending))
  {
    hide Ordered, Lifecycle, Budgeted, CapsHold, Linked, CountsMatch;
  }

  class LookupManager {
    const c: Config
    var active: RawDict<Hash, Lookup>
    var transactions: map<Tid, Hash>
    var inFlight: map<Address, nat>
    var tokens: real
    var tokensTime: real
    var sequence: nat
    var started: nat
    var finished: nat
    var queries: nat
    /** The callbacks made so far. */
    var events: seq<Event>
    /** When each query in flight was sent, and when the last tick was. */
    ghost var births: map<Tid, Birth>
    ghost var clock: Clock

    /** The state the fields make up. */
    ghost function Model(): Manager
      reads this
    {
      Manager(active, transactions, inFlight, tokens, tokensTime, sequence, started, finished, queries, events)
    }

    /** The tables agree, the caps and the query budget hold, and lookups run their course. */
    ghost predicate Valid()
      reads this
    {
      Settings(c, clock) && Inv(c, Model(), births, clock)
    }

    constructor (c: Config, now: real, ghost gap: real)
      requires Settings(c, Clock(now, gap))
      ensures Valid() && Model() == Initial(c, now) && clock == Clock(now, gap) && this.c == c
    {
      this.c := c;
      active, transactions, inFlight := Empty(), map[], map[];
      tokens, tokensTime, sequence := c.limits.queriesPerSecond, now, 0;
      started, finished, queries, events := 0, 0, 0, [];
      births, clock := map[], Clock(now, gap);
      new;
      InitialInv(c, now, gap);
    }

    // ----- one lookup's steps

    /** refill */
    method Refill(now: real) returns (left: real)
      modifies this`tokens, this`tokensTime
      ensures Model() == Refilled(c, old(Model()), now) && left == tokens
    {
      var elapsed := if now - tokensTime > 0.0 then now - tokensTime else 0.0;
      var more := tokens + elapsed * c.limits.queriesPerSecond;
      tokens := if more < c.limits.queriesPerSecond then more else c.limits.queriesPerSecond;
      tokensTime := if now > tokensTime then now else tokensTime;
      left := tokens;
    }

    /** add_to_shortlist */
    method AddToShortlist(lookup: Lookup, nodes: seq<Node>) returns (r: Lookup)
      ensures r == Shortlisted(c, lookup, nodes)
    {
      hide Put, SelectClosest, Values;
      assert nodes[0..] == nodes;
      var all, i := lookup.shortlist, 0;
      while i < |nodes|
        invariant 0 <= i <= |nodes|
        invariant PutNodes(all, nodes[i..], Wanted(c, lookup.queried)) == PutNodes(lookup.shortlist, nodes, Wanted(c, lookup.queried))
      {
        var node := nodes[i];
        assert nodes[i..][0] == node && nodes[i..][1..] == nodes[i + 1..];
        if c.usable(node) && AddressOf(node) !in lookup.queried {
          all := Put(all, node.id, node);
        }
        i := i + 1;
      }
      if |all.m| > c.limits.shortlistSize {
        var closest := SelectClosest(Values(all.keys, all.m), lookup.hash, c.limits.shortlistSize);
        all := PutNodes(Empty(), closest, Always());
      }
      r := lookup.(shortlist := all);
    }

    /** send_to */
    method SendTo(h: Hash, node: Node, now: real, timeout: real) returns (tid: Tid)
      requires h in active.m && active.m[h].hash == h
      modifies this`active, this`transactions, this`inFlight, this`tokens, this`sequence, this`queries, this`events
      ensures Model() == SentTo(old(Model()), h, node, now, timeout) && tid == TransactionId(old(sequence))
    {
      hide Put, TransactionId, Asked;
      tid := TransactionId(sequence);
      sequence := sequence + 1;
      var address := AddressOf(node);
      active := Put(active, h, Asked(active.m[h], tid, address, now + timeout));
      transactions := transactions[tid := h];
      inFlight := inFlight[address := (if address in inFlight then inFlight[address] else 0) + 1];
      tokens := tokens - 1.0;
      queries := queries + 1;
      events := events + [Sent(tid, node, h)];
    }

    /** release_transaction */
    method ReleaseTransaction(h: Hash, tid: Tid)
      requires h in active.m && active.m[h].hash == h && tid in active.m[h].pending.m
      modifies this`active, this`transactions, this`inFlight
      ensures Model() == Released(old(Model()), h, tid)
    {
      hide Put, Pop;
      var lookup := active.m[h];
      var address := lookup.pending.m[tid].address;
      active := Put(active, h, lookup.(pending := Pop(lookup.pending, tid), hint := if lookup.hint == Some(tid) then None else lookup.hint));
      transactions := transactions - {tid};
      var load: int := if address in inFlight then inFlight[address] else 0;
      var remaining := load - 1;
      if remaining > 0 {
        inFlight := inFlight[address := remaining];
      } else {
        inFlight := inFlight - {address};
      }
    }

    /** The loops of expire_pending and finish: each id is released in turn. */
    method ReleaseEach(h: Hash, tids: seq<Tid>)
      requires h in active.m && active.m[h].hash == h
      requires Distinct(tids) && forall t :: t in tids ==> t in active.m[h].pending.m
      modifies this`active, this`transactions, this`inFlight
      ensures Model() == ReleasedAll(old(Model()), h, tids)
    {
      hide Released;
      assert tids[0..] == tids;
      var i := 0;
      while i < |tids|
        invariant 0 <= i <= |tids| && h in active.m && active.m[h].hash == h
        invariant forall k :: i <= k < |tids| ==> tids[k] in active.m[h].pending.m
        invariant ReleasedAll(Model(), h, tids[i..]) == ReleasedAll(old(Model()), h, tids)
      {
        assert tids[i..][0] == tids[i] && tids[i..][1..] == tids[i + 1..];
        ghost var m := Model();
        ReleaseTransaction(h, tids[i]);
        ReleasedPending(m, h, tids[i]);
        i := i + 1;
      }
    }

    /** top_up */
    method TopUp(h: Hash, now: real)
      requires h in active.m && active.m[h].hash == h
      modifies this`active, this`transactions, this`inFlight, this`tokens, this`tokensTime, this`sequence, this`queries, this`events
      ensures Model() == ToppedUp(c, old(Model()), h, now)
    {
      hide SentTo, Refilled, Candidates, SelectClosest;
      var free := Free(c, active.m[h]);
      if free <= 0 { return; }
      var left := Refill(now);
      if left < 1.0 { return; }
      var nodes := SelectClosest(Candidates(c, inFlight, active.m[h]), h, free);
      ghost var m := Model();
      assert nodes[0..] == nodes;
      var i := 0;
      while i < |nodes|
        invariant 0 <= i <= |nodes| && h in active.m && active.m[h].hash == h
        invariant SentToEach(c, Model(), h, nodes[i..], now) == SentToEach(c, m, h, nodes, now)
      {
        if tokens < 1.0 { break; }
        assert nodes[i..][0] == nodes[i] && nodes[i..][1..] == nodes[i + 1..];
        var tid := SendTo(h, nodes[i], now, c.limits.queryTimeout);
        i := i + 1;
      }
    }

    /** finish */
    method Finish(h: Hash)
      requires h in active.m && active.m[h].hash == h && Ordered(active.m[h].pending)
      modifies this`active, this`transactions, this`inFlight, this`finished, this`events
      ensures Model() == FinishedLookup(old(Model()), h)
    {
      hide ReleasedAll, Pop, SortedPeers, Distinct;
      ReleaseEach(h, active.m[h].pending.keys);
      var peers := SortedPeers(active.m[h].found);
      active := Pop(active, h);
      finished := finished + 1;
      events := events + [Finished(h, peers)];
    }

    /** advance, for a lookup that is not finished */
    method Advance(h: Hash, now: real)
      requires h in active.m && active.m[h].hash == h && Ordered(active.m[h].pending)
      modifies this`active, this`transactions, this`inFlight, this`tokens, this`tokensTime, this`sequence, this`finished, this`queries, this`events
      ensures Model() == Advanced(c, old(Model()), h, now)
    {
      hide ToppedUp, FinishedLookup, Ordered, CanQueryMore;
      if MustFinish(c, active.m[h], now) {
        Finish(h);
      } else if active.m[h].hint.None? {
        ghost var m := Model();
        TopUp(h, now);
        ToppedUpOrdered(c, m, h, now);
        if |active.m[h].pending.m| == 0 && !CanQueryMore(c, active.m[h]) {
          Finish(h);
        }
      }
    }

    // ----- the calls of the crawler thread

    /** The rest of start_lookup, once nothing speaks against it. */
    method Begin(lookup: Lookup, hint: Option<Node>, now: real)
      modifies this`active, this`transactions, this`inFlight, this`tokens, this`tokensTime, this`sequence, this`started, this`queries, this`events
      ensures Model() == Begun(c, old(Model()), lookup, hint, now)
    {
      hide SentTo, ToppedUp, Put;
      var h := lookup.hash;
      active := Put(active, h, lookup);
      started := started + 1;
      events := events + [Started(h)];
      if hint.Some? {
        var tid := SendTo(h, hint.value, now, c.limits.hintTimeout);
        active := Put(active, h, active.m[h].(hint := Some(tid)));
      } else {
        TopUp(h, now);
      }
    }

    /** start_lookup */
    method StartLookup(h: Hash, seeds: seq<Node>, now: real, hint: Option<Node>) returns (ok: bool)
      requires Valid() && Timely(clock, now)
      modifies this
      ensures Valid() && clock == old(clock)
      ensures (Model(), ok) == StartedLookup(c, old(Model()), h, seeds, now, hint)
    {
      hide Inv, Shortlisted, Begun, Refilled, Put, CycleLongEnough, NewLookup;
      births := CallInv(c, Model(), births, clock, Start(now, h, seeds, hint), now);
      if h in active.m || |active.m| >= c.limits.maxActive { return false; }
      var left := Refill(now);
      if left < 1.0 { return false; }
      var usable := if hint.Some? && !c.usable(hint.value) then None else hint;
      if usable.Some? && (if AddressOf(usable.value) in inFlight then inFlight[AddressOf(usable.value)] else 0) >= c.limits.maxPerNode {
        return false;
      }
      var lookup := AddToShortlist(NewLookup(c, h, now), seeds);
      if usable.None? && |lookup.shortlist.m| == 0 { return false; }
      Begin(lookup, usable, now);
      ok := true;
    }

    /** The new peers of an answer, in the order they came. */
    method AcceptPeers(found: seq<Address>, values: seq<Address>) returns (r: seq<Address>)
      ensures r == Accepted(c, found, values) && found <= r
    {
      assert values[0..] == values;
      r := found;
      var i := 0;
      while i < |values|
        invariant 0 <= i <= |values| && found <= r
        invariant Accepted(c, r, values[i..]) == Accepted(c, found, values)
      {
        var peer := values[i];
        assert values[i..][0] == peer && values[i..][1..] == values[i + 1..];
        if c.routable(peer) && peer !in r && |r| < c.limits.maxPeers {
          r := r + [peer];
        }
        i := i + 1;
      }
    }

    /** The part of handle_response that takes the answer in. */
    method Absorb(h: Hash, response: Response)
      requires h in active.m && active.m[h].hash == h
      modifies this`active, this`events
      ensures Model() == Absorbed(c, old(Model()), h, response)
    {
      hide Shortlisted, Accepted, Put;
      var lookup := active.m[h];
      var found := AcceptPeers(lookup.found, response.values);
      var news := found[|lookup.found|..];
      lookup := lookup.(found := found, valueResponses := lookup.valueResponses + (if response.values != [] then 1 else 0));
      if news != [] {
        events := events + [Streamed(h, news)];
      }
      if response.nodes.Some? {
        lookup := AddToShortlist(lookup, response.nodes.value);
      }
      if response.nodes6.Some? {
        lookup := AddToShortlist(lookup, response.nodes6.value);
      }
      active := Put(active, h, lookup);
    }

    /** handle_response */
    method HandleResponse(tid: Tid, response: Option<Response>, address: Address, now: real)
      requires Valid() && Timely(clock, now) && tid in transactions
      modifies this
      ensures Valid() && clock == old(clock)
      ensures Model() == Answered(c, old(Model()), tid, response, address, now)
    {
      hide Inv, Released, Absorbed, Advanced, Ordered, CycleLongEnough, StartedLookup, Errored, Ticked, AbortedEach;
      OwnerActive(c, Model(), births, clock, tid);
      births := CallInv(c, Model(), births, clock, Answer(now, tid, response, address), now);
      var h := transactions[tid];
      if h !in active.m || tid !in active.m[h].pending.m || active.m[h].pending.m[tid].address != address { return; }
      OrderedAt(c, Model(), old(births), clock, h);
      ReleasedPending(Model(), h, tid);
      ReleaseTransaction(h, tid);
      if response.Some? {
        AbsorbedPending(c, Model(), h, response.value);
        Absorb(h, response.value);
      }
      Advance(h, now);
    }

    method TakeError(tid: Tid, now: real)
      requires tid in transactions
      requires transactions[tid] in active.m ==>
               active.m[transactions[tid]].hash == transactions[tid] && Ordered(active.m[transactions[tid]].pending)
      modifies this`active, this`transactions, this`inFlight, this`tokens, this`tokensTime, this`sequence, this`finished, this`queries, this`events
      ensures Model() == Errored(c, old(Model()), tid, now)
    {
      hide Released, Advanced, Ordered;
      var h := transactions[tid];
      if h in active.m && tid in active.m[h].pending.m {
        ReleasedPending(Model(), h, tid);
        ReleaseTransaction(h, tid);
        Advance(h, now);
      } else {
        transactions := transactions - {tid};
      }
    }

    /** handle_error */
    method HandleError(tid: Tid, now: real)
      requires Valid() && Timely(clock, now) && tid in transactions
      modifies this
      ensures Valid() && clock == old(clock)
      ensures Model() == Errored(c, old(Model()), tid, now)
    {
      hide Inv, Errored, Ordered, CycleLongEnough, StartedLookup, Answered, Ticked, AbortedEach;
      OrderedAt(c, Model(), births, clock, transactions[tid]);
      births := CallInv(c, Model(), births, clock, Error(now, tid), now);
      TakeError(tid, now);
    }

    /** expire_pending */
    method ExpirePending(h: Hash, now: real)
      requires h in active.m && active.m[h].hash == h && Ordered(active.m[h].pending)
      modifies this`active, this`transactions, this`inFlight
      ensures Model() == Expired(old(Model()), h, now)
    {
      hide ReleasedAll, Distinct;
      var pending := active.m[h].pending;
      FilterDistinct(pending.keys, Overdue(pending.m, now));
      ReleaseEach(h, ExpiredIds(active.m[h], now));
    }

    /** tick's two steps for one lookup, unless it has finished meanwhile */
    method TickOne(h: Hash, now: real)
      requires h in active.m ==> active.m[h].hash == h && Ordered(active.m[h].pending)
      modifies this`active, this`transactions, this`inFlight, this`tokens, this`tokensTime, this`sequence, this`finished, this`queries, this`events
      ensures Model() == if h in old(active).m then Advanced(c, Expired(old(Model()), h, now), h, now) else old(Model())
    {
      hide ReleasedAll, Advanced, Ordered, ExpiredIds;
      if h in active.m {
        ReleasedAllOrdered(Model(), h, ExpiredIds(active.m[h], now));
        ExpirePending(h, now);
        Advance(h, now);
      }
    }

    /** tick */
    method Tick(now: real)
      requires Valid() && Timely(clock, now)
      modifies this
      ensures Valid() && clock == Clock(now, old(clock).gap)
      ensures Model() == Ticked(c, old(Model()), now)
      ensures forall h :: h in active.m ==> OnTime(active.m[h], now)
    {
      hide Inv, Refilled, Advanced, Expired, Ordered, LongestTimeout, OnTime;
      ghost var w := TickInv(c, Model(), births, clock, now, now);
      RefillInv(c, Model(), births, clock, now, now);
      var hashes := active.keys;
      var left := Refill(now);
      assert hashes[0..] == hashes;
      var i := 0;
      while i < |hashes|
        invariant 0 <= i <= |hashes| && Settings(c, clock) && clock == old(clock) && Inv(c, Model(), births, clock)
        invariant TickedEach(c, Model(), hashes[i..], now) == Ticked(c, old(Model()), now)
      {
        var h := hashes[i];
        assert hashes[i..][0] == h && hashes[i..][1..] == hashes[i + 1..];
        OrderedAt(c, Model(), births, clock, h);
        if h in active.m {
          births := ExpiredInv(c, Model(), births, clock, h, now, now);
          births := AdvanceInv(c, Expired(Model(), h, now), births, clock, h, now, now);
        }
        TickOne(h, now);
        i := i + 1;
      }
      births, clock := w, Clock(now, clock.gap);
    }

    /** abort_all */
    method AbortAllLookups(now: real)
      requires Valid() && Timely(clock, now)
      modifies this
      ensures Valid() && clock == old(clock)
      ensures Model() == AbortedEach(old(Model()), old(active).keys) && active.m == map[]
    {
      hide Inv, Ordered, CycleLongEnough, FinishedLookup;
      ghost var w := CallInv(c, Model(), births, clock, AbortAll(now), now);
      var hashes := active.keys;
      assert hashes[0..] == hashes;
      var i := 0;
      while i < |hashes|
        invariant 0 <= i <= |hashes| && Inv(c, Model(), births, clock) && clock == old(clock)
        invariant AbortedEach(Model(), hashes[i..]) == AbortedEach(old(Model()), hashes)
      {
        var h := hashes[i];
        assert hashes[i..][0] == h && hashes[i..][1..] == hashes[i + 1..];
        OrderedAt(c, Model(), births, clock, h);
        if h in active.m {
          births := FinishInv(c, Model(), births, clock, h, now);
          Finish(h);
        }
        i := i + 1;
      }
      births := w;
    }
  }
}
