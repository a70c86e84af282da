/** utp_transport.py: BEP 29 packets and one outgoing connection over a network that loses, repeats and reorders. */
module UtpTransport {
  import opened ByteStrings
  import opened BigEndian

  const ST_DATA := 0
  const ST_FIN := 1
  const ST_STATE := 2
  const ST_RESET := 3
  const ST_SYN := 4
  const WRAP := 0x1_0000
  const HALF := 0x8000
  const HEADER_SIZE := 20
  const MAX_PAYLOAD := 1200
  const MAX_OUT_OF_ORDER := 1024
  const MAX_RESENDS := 4
  const INITIAL_RESEND_SECONDS := 1.0
  const CLOCK_CYCLE := 0x1_0000_0000

  // ----- packets

  datatype Packet = Packet(kind: nat, connection: nat, timestamp: nat, difference: nat, window: nat, seqNr: nat, ackNr: nat, payload: Bytes)

  ghost predicate Sendable(p: Packet) {
    && p.kind <= ST_SYN && p.connection < WRAP && p.seqNr < WRAP && p.ackNr < WRAP
    && p.timestamp < 0x1_0000_0000 && p.difference < 0x1_0000_0000 && p.window < 0x1_0000_0000
  }

  /** The 20 bytes in front; `extension` names the first extension block, 0 for none. */
  function Header(p: Packet, extension: byte): (r: Bytes)
    requires Sendable(p)
    ensures |r| == HEADER_SIZE
  {
    [p.kind * 16 + 1, extension] + Pack16(p.connection) + Pack32(p.timestamp) + Pack32(p.difference) +
    Pack32(p.window) + Pack16(p.seqNr) + Pack16(p.ackNr)
  }

  function EncodePacket(p: Packet): Bytes
    requires Sendable(p)
  {
    Header(p, 0) + p.payload
  }

  /** Where the payload starts behind a chain of extension blocks; None when the chain runs past the end. */
  function SkipExtensions(data: Bytes, extension: byte, offset: nat): (r: Option<nat>)
    requires offset <= |data|
    ensures r.Some? ==> offset <= r.value <= |data|
    decreases |data| - offset
  {
    if extension == 0 then Some(offset)
    else if offset + 2 > |data| || offset + 2 + data[offset + 1] > |data| then None
    else SkipExtensions(data, data[offset], offset + 2 + data[offset + 1])
  }

  function Decoded(data: Bytes): Option<Packet> {
    if |data| < HEADER_SIZE || data[0] % 16 != 1 || data[0] / 16 > ST_SYN then None
    else
      var start := SkipExtensions(data, data[1], HEADER_SIZE);
      if start.None? then None
      else Some(Packet(data[0] / 16, Unpack16(data, 2), Unpack32(data, 4), Unpack32(data, 8), Unpack32(data, 12),
                       Unpack16(data, 16), Unpack16(data, 18), data[start.value..]))
  }

  method DecodePacket(data: Bytes) returns (r: Option<Packet>)
    ensures r == Decoded(data)
  {
    if |data| < HEADER_SIZE { return None; }
    if data[0] % 16 != 1 || data[0] / 16 > ST_SYN { return None; }
    var extension := data[1];
    var offset := HEADER_SIZE;
    while extension != 0
      invariant HEADER_SIZE <= offset <= |data|
      invariant SkipExtensions(data, extension, offset) == SkipExtensions(data, data[1], HEADER_SIZE)
      decreases |data| - offset
    {
      if offset + 2 > |data| || offset + 2 + data[offset + 1] > |data| { return None; }
      extension, offset := data[offset], offset + 2 + data[offset + 1];
    }
    r := Some(Packet(data[0] / 16, Unpack16(data, 2), Unpack32(data, 4), Unpack32(data, 8), Unpack32(data, 12),
                     Unpack16(data, 16), Unpack16(data, 18), data[offset..]));
  }

  /** Extension blocks as they follow the header: each names the next one. */
  datatype Extension = Extension(kind: byte, content: Bytes)

  ghost predicate ChainOk(chain: seq<Extension>) {
    forall k :: 0 <= k < |chain| ==> chain[k].kind != 0 && |chain[k].content| < 256
  }

  function FirstKind(chain: seq<Extension>): byte {
    if chain == [] then 0 else chain[0].kind
  }

  function ChainBytes(chain: seq<Extension>): Bytes
    requires ChainOk(chain)
  {
    if chain == [] then []
    else [FirstKind(chain[1..]), |chain[0].content|] + chain[0].content + ChainBytes(chain[1..])
  }

  lemma {:induction false} ChainSkipped(data: Bytes, offset: nat, chain: seq<Extension>, payload: Bytes)
    requires ChainOk(chain) && offset <= |data| && data[offset..] == ChainBytes(chain) + payload
    ensures SkipExtensions(data, FirstKind(chain), offset) == Some(|data| - |payload|)
    decreases |chain|
  {
    if chain != [] {
      var next := offset + 2 + |chain[0].content|;
      BlockRead(data, offset, FirstKind(chain[1..]), chain[0].content, ChainBytes(chain[1..]), payload);
      ChainSkipped(data, next, chain[1..], payload);
    }
  }

  lemma BlockRead(data: Bytes, offset: nat, kind: byte, content: Bytes, rest: Bytes, payload: Bytes)
    requires offset <= |data| && |content| < 256
    requires data[offset..] == [kind, |content|] + content + rest + payload
    ensures var next := offset + 2 + |content|;
            next <= |data| && data[offset] == kind && data[offset + 1] == |content| && data[next..] == rest + payload
  {
    var tail := data[offset..];
    assert tail[0] == data[offset] && tail[1] == data[offset + 1];
    assert tail[2 + |content|..] == rest + payload;
    assert data[offset + 2 + |content|..] == tail[2 + |content|..];
  }

  /** A packet sent, with any extension blocks in between, is the packet decoded. */
  lemma PacketRoundTrip(p: Packet, chain: seq<Extension>)
    requires Sendable(p) && ChainOk(chain)
    ensures Decoded(Header(p, FirstKind(chain)) + ChainBytes(chain) + p.payload) == Some(p)
  {
    hide SkipExtensions, ChainBytes, Header, Unpack16, Unpack32;
    var data := Header(p, FirstKind(chain)) + ChainBytes(chain) + p.payload;
    assert data[HEADER_SIZE..] == ChainBytes(chain) + p.payload;
    ChainSkipped(data, HEADER_SIZE, chain, p.payload);
    HeaderFields(data, p, FirstKind(chain));
    assert data[|data| - |p.payload|..] == p.payload;
  }

  /** The packets this side sends, which carry no extension block. */
  lemma SentIsReceived(p: Packet)
    requires Sendable(p)
    ensures Decoded(EncodePacket(p)) == Some(p)
  {
    hide SkipExtensions, Header, Unpack16, Unpack32, Decoded;
    var none: seq<Extension> := [];
    PacketRoundTrip(p, none);
    assert Header(p, FirstKind(none)) + ChainBytes(none) + p.payload == EncodePacket(p);
  }

  lemma HeaderFields(data: Bytes, p: Packet, extension: byte)
    requires Sendable(p) && |data| >= HEADER_SIZE && data[..HEADER_SIZE] == Header(p, extension)
    ensures data[0] / 16 == p.kind && data[0] % 16 == 1 && data[1] == extension
    ensures Unpack16(data, 2) == p.connection && Unpack32(data, 4) == p.timestamp && Unpack32(data, 8) == p.difference
    ensures Unpack32(data, 12) == p.window && Unpack16(data, 16) == p.seqNr && Unpack16(data, 18) == p.ackNr
  {
    hide Unpack16, Unpack32, Pack16, Pack32;
    var h := Header(p, extension);
    assert forall k :: 0 <= k < HEADER_SIZE ==> data[k] == h[k];
    Field(data, 2, Pack16(p.connection), h);
    Field(data, 4, Pack32(p.timestamp), h);
    Field(data, 8, Pack32(p.difference), h);
    Field(data, 12, Pack32(p.window), h);
    Field(data, 16, Pack16(p.seqNr), h);
    Field(data, 18, Pack16(p.ackNr), h);
  }

  lemma Field(data: Bytes, i: nat, a: Bytes, h: Bytes)
    requires i + |a| <= |h| <= |data| && data[..|h|] == h && h[i..i + |a|] == a
    ensures |a| == 2 ==> Unpack16(data, i) == Unpack16(a, 0)
    ensures |a| == 4 ==> Unpack32(data, i) == Unpack32(a, 0)
  {
    hide Unpack16, Unpack32;
    assert data[i..i + |a|] == data[..|h|][i..i + |a|];
    UnpackAt(data, i, a);
  }

  // ----- wrapping sequence numbers

  function Add(a: int, b: int): (r: nat)
    ensures r < WRAP
  {
    (a + b) % WRAP
  }

  /** How far s lies ahead of t on the circle. */
  function Ahead(s: nat, t: nat): (r: nat)
    ensures r < WRAP
  {
    (s - t) % WRAP
  }

  predicate SequenceAfter(later: nat, earlier: nat)
    requires later < WRAP && earlier < WRAP
  {
    later != earlier && Ahead(later, earlier) < HALF
  }

  /** Numbers less than half the circle apart are ordered on the wire as they are in truth. */
  lemma SequenceAfterIsAfter(base: nat, k: int, j: int)
    requires -HALF <= k - j < HALF
    ensures SequenceAfter(Add(base, k), Add(base, j)) <==> k > j
    ensures Add(base, k) == Add(base, j) <==> k == j
    ensures k >= j ==> Ahead(Add(base, k), Add(base, j)) == k - j
  {
  }

  lemma IsNext(base: nat, k: int, a: int)
    requires -HALF <= k - a < HALF
    ensures Add(base, k) == Add(Add(base, a), 1) <==> k == a + 1
  {
  }

  // ----- receiving, as a function of the connection's state

  datatype Receiver = Receiver(ackNr: nat, delivered: Bytes, outOfOrder: map<nat, Bytes>, eofSeq: Option<nat>)

  /** `deliver` for the packet that follows. */
  function AfterDeliver(st: Receiver, payload: Bytes): Receiver {
    st.(ackNr := Add(st.ackNr, 1), delivered := st.delivered + payload)
  }

  /** The loop that delivers what waited for the packet just delivered. */
  function Drained(st: Receiver): Receiver
    decreases |st.outOfOrder|
  {
    var following := Add(st.ackNr, 1);
    if following !in st.outOfOrder then st
    else
      var left := st.outOfOrder - {following};
      assert left.Keys == st.outOfOrder.Keys - {following};
      Drained(AfterDeliver(st, st.outOfOrder[following]).(outOfOrder := left))
  }

  function AfterData(st: Receiver, seqNr: nat, payload: Bytes): Receiver
    requires seqNr < WRAP && st.ackNr < WRAP
  {
    if seqNr == Add(st.ackNr, 1) then Drained(AfterDeliver(st, payload))
    else if SequenceAfter(seqNr, st.ackNr) && |st.outOfOrder| < MAX_OUT_OF_ORDER then
      st.(outOfOrder := st.outOfOrder[seqNr := payload])
    else st
  }

  function AfterFin(st: Receiver, seqNr: nat): Receiver
    requires seqNr < WRAP && st.ackNr < WRAP
  {
    AfterData(st.(eofSeq := Some(seqNr)), seqNr, [])
  }

  /** read_exactly's test for the end of the stream, errors aside. */
  predicate StreamEnded(st: Receiver) {
    st.eofSeq.Some? && st.ackNr == st.eofSeq.value
  }

  // ----- the peer's side of the story

  /** The peer numbers its data packets from 1; the packet after the last one is its FIN. */
  datatype Peer = Peer(base: nat, payloads: seq<Bytes>)

  function Payload(peer: Peer, k: int): Bytes {
    if 1 <= k <= |peer.payloads| then peer.payloads[k - 1] else []
  }

  function StreamUpTo(peer: Peer, n: nat): Bytes {
    if n == 0 then [] else StreamUpTo(peer, n - 1) + Payload(peer, n)
  }

  function Fin(peer: Peer): nat {
    |peer.payloads| + 1
  }

  /** The number a waiting packet stands for, when a packets have been delivered. */
  function NumberOf(st: Receiver, a: nat, s: nat): nat {
    a + Ahead(s, st.ackNr)
  }

  /** Exactly the first a packets were delivered, and what waits is the peer's own, strictly ahead, each number once. */
  ghost predicate InOrder(st: Receiver, peer: Peer, a: nat) {
    && a <= Fin(peer)
    && st.ackNr == Add(peer.base, a)
    && st.delivered == StreamUpTo(peer, a)
    && (forall s :: s in st.outOfOrder ==>
          s < WRAP && 0 < Ahead(s, st.ackNr) < HALF &&
          NumberOf(st, a, s) <= Fin(peer) && st.outOfOrder[s] == Payload(peer, NumberOf(st, a, s)))
    && (st.eofSeq.Some? ==> st.eofSeq.value == Add(peer.base, Fin(peer)) && Fin(peer) - a < HALF)
  }

  /** Nothing deliverable is left waiting. */
  predicate Settled(st: Receiver) {
    Add(st.ackNr, 1) !in st.outOfOrder
  }

  lemma AheadShift(s: nat, ack: nat)
    requires s < WRAP && ack < WRAP && 0 < Ahead(s, ack)
    ensures Ahead(s, Add(ack, 1)) == Ahead(s, ack) - 1
    ensures Ahead(s, ack) == 1 <==> s == Add(ack, 1)
  {
  }

  lemma DeliverNext(st: Receiver, peer: Peer, a: nat, payload: Bytes, rest: map<nat, Bytes>)
    requires InOrder(st, peer, a) && a < Fin(peer) && payload == Payload(peer, a + 1)
    requires rest == st.outOfOrder - {Add(st.ackNr, 1)}
    ensures InOrder(AfterDeliver(st, payload).(outOfOrder := rest), peer, a + 1)
  {
    hide StreamUpTo, Payload;
    var next := AfterDeliver(st, payload).(outOfOrder := rest);
    assert StreamUpTo(peer, a + 1) == StreamUpTo(peer, a) + Payload(peer, a + 1) by { StreamNext(peer, a); }
    forall s | s in rest
      ensures 0 < Ahead(s, next.ackNr) < HALF && NumberOf(next, a + 1, s) == NumberOf(st, a, s)
    {
      AheadShift(s, st.ackNr);
    }
  }

  lemma StreamNext(peer: Peer, a: nat)
    ensures StreamUpTo(peer, a + 1) == StreamUpTo(peer, a) + Payload(peer, a + 1)
  {
  }

  /** Draining delivers on, in order, until nothing deliverable waits; it forgets no packet that is still ahead. */
  lemma {:induction false} DrainInOrder(st: Receiver, peer: Peer, a: nat) returns (a': nat)
    requires InOrder(st, peer, a)
    ensures a <= a' && InOrder(Drained(st), peer, a') && Settled(Drained(st))
    ensures forall k :: a' < k && Add(peer.base, k) in st.outOfOrder && k - a < HALF ==> Add(peer.base, k) in Drained(st).outOfOrder
    ensures |Drained(st).outOfOrder| <= |st.outOfOrder|
    decreases |st.outOfOrder|
  {
    hide StreamUpTo, Payload;
    var following := Add(st.ackNr, 1);
    if following !in st.outOfOrder {
      a' := a;
    } else {
      var left := st.outOfOrder - {following};
      assert left.Keys == st.outOfOrder.Keys - {following};
      assert Ahead(following, st.ackNr) == 1;
      DeliverNext(st, peer, a, st.outOfOrder[following], left);
      a' := DrainInOrder(AfterDeliver(st, st.outOfOrder[following]).(outOfOrder := left), peer, a + 1);
      forall k | a' < k && Add(peer.base, k) in st.outOfOrder && k - a < HALF ensures Add(peer.base, k) in left {
        SequenceAfterIsAfter(peer.base, k, a + 1);
      }
    }
  }

  /** An arrival of the peer's packet number k, anywhere from 2^15 behind to 2^15 - 1 ahead. */
  lemma ArrivalInOrder(st: Receiver, peer: Peer, a: nat, k: nat) returns (a': nat)
    requires InOrder(st, peer, a) && Settled(st) && 1 <= k <= Fin(peer) && -HALF <= k - a < HALF
    ensures var after := AfterData(st, Add(peer.base, k), Payload(peer, k));
            a <= a' && InOrder(after, peer, a') && Settled(after) &&
            // the packet is delivered or kept unless the buffer is full, and nothing kept is lost
            (k <= a' || Add(peer.base, k) in after.outOfOrder || |st.outOfOrder| >= MAX_OUT_OF_ORDER) &&
            (forall j :: a' < j && Add(peer.base, j) in st.outOfOrder && j - a < HALF ==> Add(peer.base, j) in after.outOfOrder) &&
            (|st.outOfOrder| <= MAX_OUT_OF_ORDER ==> |after.outOfOrder| <= MAX_OUT_OF_ORDER)
  {
    hide StreamUpTo, Payload, Drained;
    SequenceAfterIsAfter(peer.base, k, a);
    IsNext(peer.base, k, a);
    var s := Add(peer.base, k);
    if s == Add(st.ackNr, 1) {
      assert k == a + 1;
      assert st.outOfOrder - {s} == st.outOfOrder;
      DeliverNext(st, peer, a, Payload(peer, k), st.outOfOrder);
      a' := DrainInOrder(AfterDeliver(st, Payload(peer, k)), peer, a + 1);
    } else {
      a' := a;
      if k > a && |st.outOfOrder| < MAX_OUT_OF_ORDER { StoredAhead(st, peer, a, k); }
    }
  }

  lemma StoredAhead(st: Receiver, peer: Peer, a: nat, k: nat)
    requires InOrder(st, peer, a) && Settled(st) && a + 1 < k <= Fin(peer) && k - a < HALF
    ensures var more := st.(outOfOrder := st.outOfOrder[Add(peer.base, k) := Payload(peer, k)]);
            InOrder(more, peer, a) && Settled(more) && |more.outOfOrder| <= |st.outOfOrder| + 1
  {
    hide StreamUpTo, Payload;
    SequenceAfterIsAfter(peer.base, k, a);
    SequenceAfterIsAfter(peer.base, k, a + 1);
  }

  // ----- whole runs

  /** What the network hands over: data packet number k, or the FIN. */
  datatype Arrival = Data(k: nat) | FinArrives

  function NumberArriving(peer: Peer, x: Arrival): nat {
    if x.Data? then x.k else Fin(peer)
  }

  function Arrive(st: Receiver, peer: Peer, x: Arrival): Receiver
    requires st.ackNr < WRAP
  {
    if x.Data? then AfterData(st, Add(peer.base, x.k), Payload(peer, x.k)) else AfterFin(st, Add(peer.base, Fin(peer)))
  }

  lemma ArriveKeepsRange(st: Receiver, peer: Peer, x: Arrival)
    requires st.ackNr < WRAP
    ensures Arrive(st, peer, x).ackNr < WRAP
  {
    DrainedRange(AfterDeliver(st, []));
    DrainedRange(AfterDeliver(st, Payload(peer, NumberArriving(peer, x))));
    DrainedRange(AfterDeliver(st.(eofSeq := Some(Add(peer.base, Fin(peer)))), []));
  }

  lemma {:induction false} DrainedRange(st: Receiver)
    requires st.ackNr < WRAP
    ensures Drained(st).ackNr < WRAP
    decreases |st.outOfOrder|
  {
    var following := Add(st.ackNr, 1);
    if following in st.outOfOrder {
      var left := st.outOfOrder - {following};
      assert left.Keys == st.outOfOrder.Keys - {following};
      DrainedRange(AfterDeliver(st, st.outOfOrder[following]).(outOfOrder := left));
    }
  }

  function Run(st: Receiver, peer: Peer, arrivals: seq<Arrival>): (r: Receiver)
    requires st.ackNr < WRAP
    ensures r.ackNr < WRAP
    decreases |arrivals|
  {
    if arrivals == [] then st
    else
      ArriveKeepsRange(st, peer, arrivals[0]);
      Run(Arrive(st, peer, arrivals[0]), peer, arrivals[1..])
  }

  /** As the connection is once the peer's first packet fixed the numbering. */
  function Connected(peer: Peer): Receiver {
    Receiver(Add(peer.base, 0), [], map[], None)
  }

  /**
   * Every arrival is a packet of the peer, and not 2^15 or more away from what was delivered so far. `a` is
   * the number delivered; it is determined by the state.
   */
  ghost predicate Plausible(st: Receiver, peer: Peer, a: nat, arrivals: seq<Arrival>)
    requires st.ackNr < WRAP
    decreases |arrivals|
  {
    arrivals == [] ||
    (var k := NumberArriving(peer, arrivals[0]);
     && (arrivals[0].Data? ==> 1 <= k < Fin(peer))
     && -HALF <= k - a < HALF
     && (ArriveKeepsRange(st, peer, arrivals[0]);
         forall a' :: a <= a' && InOrder(Arrive(st, peer, arrivals[0]), peer, a') ==>
           Plausible(Arrive(st, peer, arrivals[0]), peer, a', arrivals[1..])))
  }

  /** No arrival found the out-of-order buffer full. */
  ghost predicate RoomThroughout(st: Receiver, peer: Peer, arrivals: seq<Arrival>)
    requires st.ackNr < WRAP
    decreases |arrivals|
  {
    arrivals != [] ==>
      |st.outOfOrder| < MAX_OUT_OF_ORDER &&
      (ArriveKeepsRange(st, peer, arrivals[0]); RoomThroughout(Arrive(st, peer, arrivals[0]), peer, arrivals[1..]))
  }

  lemma InOrderRange(st: Receiver, peer: Peer, a: nat)
    requires InOrder(st, peer, a)
    ensures st.ackNr < WRAP
  {
  }

  lemma FinIsAPacket(st: Receiver, peer: Peer, a: nat)
    requires InOrder(st, peer, a) && -HALF <= Fin(peer) - a < HALF
    ensures InOrder(st.(eofSeq := Some(Add(peer.base, Fin(peer)))), peer, a)
  {
  }

  lemma OneArrival(st: Receiver, peer: Peer, a: nat, x: Arrival) returns (a': nat)
    requires InOrder(st, peer, a) && Settled(st)
    requires -HALF <= NumberArriving(peer, x) - a < HALF && (x.Data? ==> 1 <= x.k < Fin(peer))
    ensures var after := Arrive(st, peer, x); var k := NumberArriving(peer, x);
            a <= a' && InOrder(after, peer, a') && Settled(after) &&
            (k <= a' || Add(peer.base, k) in after.outOfOrder || |st.outOfOrder| >= MAX_OUT_OF_ORDER) &&
            (forall j :: a' < j && Add(peer.base, j) in st.outOfOrder && j - a < HALF ==> Add(peer.base, j) in after.outOfOrder) &&
            (|st.outOfOrder| <= MAX_OUT_OF_ORDER ==> |after.outOfOrder| <= MAX_OUT_OF_ORDER)
  {
    hide InOrder, AfterData, Drained;
    if x.Data? {
      a' := ArrivalInOrder(st, peer, a, x.k);
    } else {
      FinIsAPacket(st, peer, a);
      a' := ArrivalInOrder(st.(eofSeq := Some(Add(peer.base, Fin(peer)))), peer, a, Fin(peer));
    }
  }

  /**
   * Whatever was lost, repeated or reordered: the bytes delivered are exactly the peer's first a' packets,
   * in order, and the out-of-order buffer never outgrows its bound.
   */
  lemma {:induction false} RunDeliversInOrder(st: Receiver, peer: Peer, a: nat, arrivals: seq<Arrival>) returns (a': nat)
    requires InOrder(st, peer, a) && Settled(st) && |st.outOfOrder| <= MAX_OUT_OF_ORDER
    requires Plausible(st, peer, a, arrivals)
    ensures a <= a' && InOrder(Run(st, peer, arrivals), peer, a') && Settled(Run(st, peer, arrivals))
    ensures |Run(st, peer, arrivals).outOfOrder| <= MAX_OUT_OF_ORDER
    decreases |arrivals|
  {
    hide InOrder, Arrive;
    if arrivals == [] {
      a' := a;
    } else {
      InOrderRange(st, peer, a);
      ArriveKeepsRange(st, peer, arrivals[0]);
      var b := OneArrival(st, peer, a, arrivals[0]);
      a' := RunDeliversInOrder(Arrive(st, peer, arrivals[0]), peer, b, arrivals[1..]);
    }
  }

  /** The stream ends only when every earlier byte has been delivered: all of them, and nothing else. */
  lemma EndOfStream(st: Receiver, peer: Peer, a: nat)
    requires InOrder(st, peer, a)
    ensures StreamEnded(st) <==> st.eofSeq.Some? && a == Fin(peer)
    ensures StreamEnded(st) ==> st.delivered == StreamUpTo(peer, |peer.payloads|)
  {
    if st.eofSeq.Some? {
      SequenceAfterIsAfter(peer.base, Fin(peer), a);
    }
    if a == Fin(peer) {
      assert StreamUpTo(peer, Fin(peer)) == StreamUpTo(peer, |peer.payloads|) + [];
    }
  }

  /** Packet k has been taken: delivered, or waiting. */
  predicate Taken(st: Receiver, peer: Peer, a: nat, k: nat) {
    k <= a || (k - a < HALF && Add(peer.base, k) in st.outOfOrder)
  }

  /** While the buffer has room no arrival is wasted: every packet that ever arrived is delivered or waiting. */
  lemma {:induction false} NoArrivalWasted(st: Receiver, peer: Peer, a: nat, arrivals: seq<Arrival>, taken: set<nat>) returns (a': nat)
    requires InOrder(st, peer, a) && Settled(st) && Plausible(st, peer, a, arrivals) && RoomThroughout(st, peer, arrivals)
    requires forall k :: k in taken ==> Taken(st, peer, a, k)
    ensures InOrder(Run(st, peer, arrivals), peer, a') && Settled(Run(st, peer, arrivals))
    ensures forall k :: k in taken ==> Taken(Run(st, peer, arrivals), peer, a', k)
    ensures forall x :: x in arrivals ==> Taken(Run(st, peer, arrivals), peer, a', NumberArriving(peer, x))
    decreases |arrivals|
  {
    hide InOrder, Arrive;
    if arrivals == [] {
      a' := a;
    } else {
      var x := arrivals[0];
      InOrderRange(st, peer, a);
      ArriveKeepsRange(st, peer, x);
      var b := OneArrival(st, peer, a, x);
      var after := Arrive(st, peer, x);
      a' := NoArrivalWasted(after, peer, b, arrivals[1..], taken + {NumberArriving(peer, x)});
      forall y | y in arrivals ensures Taken(Run(st, peer, arrivals), peer, a', NumberArriving(peer, y)) {
        if y != x { assert y in arrivals[1..]; }
      }
    }
  }

  /** So once every packet and the FIN arrived, in any order, the whole stream was delivered and has ended. */
  lemma AllArrivedAllDelivered(peer: Peer, arrivals: seq<Arrival>)
    requires Plausible(Connected(peer), peer, 0, arrivals) && RoomThroughout(Connected(peer), peer, arrivals)
    requires FinArrives in arrivals && forall k :: 1 <= k <= |peer.payloads| ==> Data(k) in arrivals
    ensures Run(Connected(peer), peer, arrivals).delivered == StreamUpTo(peer, |peer.payloads|)
    ensures Run(Connected(peer), peer, arrivals).ackNr == Add(peer.base, Fin(peer))
  {
    hide Run, Plausible, RoomThroughout, InOrder, StreamUpTo;
    var st := Run(Connected(peer), peer, arrivals);
    ConnectedInOrder(peer);
    var a := NoArrivalWasted(Connected(peer), peer, 0, arrivals, {});
    var missing := if a + 1 >= Fin(peer) then FinArrives else Data(a + 1);
    assert missing in arrivals;
    AllTaken(st, peer, a);
    WholeStream(peer);
  }

  lemma AllTaken(st: Receiver, peer: Peer, a: nat)
    requires InOrder(st, peer, a) && Settled(st)
    requires Taken(st, peer, a, if a + 1 >= Fin(peer) then Fin(peer) else a + 1)
    ensures a == Fin(peer) && st.ackNr == Add(peer.base, Fin(peer)) && st.delivered == StreamUpTo(peer, Fin(peer))
  {
    hide StreamUpTo, Payload, Ahead, Add;
    AddOne(peer.base, a);
  }

  lemma ConnectedInOrder(peer: Peer)
    ensures InOrder(Connected(peer), peer, 0) && Settled(Connected(peer))
  {
  }

  lemma WholeStream(peer: Peer)
    ensures StreamUpTo(peer, Fin(peer)) == StreamUpTo(peer, |peer.payloads|)
  {
  }

  // ----- sending

  datatype Unacked = Unacked(seqNr: nat, packet: Bytes, sentAt: real, resends: nat)

  /** unacked[seqNr] = ...: a dictionary keeps the place of a key it already has. */
  function Noted(list: seq<Unacked>, u: Unacked): seq<Unacked> {
    if list == [] then [u]
    else if list[0].seqNr == u.seqNr then [u] + list[1..]
    else [list[0]] + Noted(list[1..], u)
  }

  function Remaining(list: seq<Unacked>, ackNr: nat): (r: seq<Unacked>)
    requires ackNr < WRAP && forall u :: u in list ==> u.seqNr < WRAP
    ensures forall u :: u in r <==> u in list && SequenceAfter(u.seqNr, ackNr)
  {
    if list == [] then []
    else if SequenceAfter(list[0].seqNr, ackNr) then [list[0]] + Remaining(list[1..], ackNr)
    else Remaining(list[1..], ackNr)
  }

  /** del unacked[n] */
  function Forgotten(list: seq<Unacked>, n: nat): seq<Unacked> {
    if list == [] then [] else (if list[0].seqNr == n then [] else [list[0]]) + Forgotten(list[1..], n)
  }

  function ForgottenAll(list: seq<Unacked>, numbers: seq<nat>): seq<Unacked> {
    if list == [] then [] else (if list[0].seqNr in numbers then [] else [list[0]]) + ForgottenAll(list[1..], numbers)
  }

  lemma {:induction false} ForgottenMore(list: seq<Unacked>, numbers: seq<nat>, n: nat)
    ensures Forgotten(ForgottenAll(list, numbers), n) == ForgottenAll(list, numbers + [n])
    decreases |list|
  {
    if list != [] {
      ForgottenMore(list[1..], numbers, n);
      var rest := ForgottenAll(list[1..], numbers);
      assert ([list[0]] + rest)[1..] == rest;
      assert [] + rest == rest;
    }
  }

  lemma {:induction false} ForgottenNone(list: seq<Unacked>)
    ensures ForgottenAll(list, []) == list
    decreases |list|
  {
    if list != [] { ForgottenNone(list[1..]); }
  }

  lemma {:induction false} ForgottenRest(list: seq<Unacked>, numbers: seq<nat>, ackNr: nat)
    requires ackNr < WRAP && forall u :: u in list ==> u.seqNr < WRAP
    requires forall u :: u in list ==> (u.seqNr in numbers <==> !SequenceAfter(u.seqNr, ackNr))
    ensures ForgottenAll(list, numbers) == Remaining(list, ackNr)
    decreases |list|
  {
    hide SequenceAfter;
    if list != [] {
      assert list[0] in list;
      ForgottenRest(list[1..], numbers, ackNr);
    }
  }

  /** An acknowledgement of our packet number a removes exactly the packets numbered up to a. */
  lemma AcknowledgeExact(list: seq<Unacked>, base: nat, numbers: seq<int>, a: int)
    requires forall u :: u in list ==> u.seqNr < WRAP
    requires |numbers| == |list| && forall k :: 0 <= k < |list| ==> list[k].seqNr == Add(base, numbers[k]) && -HALF <= numbers[k] - a < HALF
    ensures forall k :: 0 <= k < |list| ==> (list[k] in Remaining(list, Add(base, a)) <==> numbers[k] > a)
  {
    forall k | 0 <= k < |list| ensures list[k] in Remaining(list, Add(base, a)) <==> numbers[k] > a {
      SequenceAfterIsAfter(base, numbers[k], a);
      assert list[k] in list;
    }
  }

  function Joined(chunks: seq<Bytes>): Bytes {
    if chunks == [] then [] else Joined(chunks[..|chunks| - 1]) + chunks[|chunks| - 1]
  }

  /** The wait before resend number n + 1: 1 s, doubling. */
  function Backoff(n: nat): real {
    if n == 0 then INITIAL_RESEND_SECONDS else 2.0 * Backoff(n - 1)
  }

  predicate Due(u: Unacked, now: real) {
    now - u.sentAt >= Backoff(u.resends)
  }

  /** Due after its last resend. */
  predicate WornOut(u: Unacked, now: real) {
    Due(u, now) && u.resends >= MAX_RESENDS
  }

  /** The place of the first packet that is worn out, or the end of the list. */
  function FirstWornOut(list: seq<Unacked>, now: real): (r: nat)
    ensures r <= |list|
  {
    if list == [] || WornOut(list[0], now) then 0 else 1 + FirstWornOut(list[1..], now)
  }

  lemma {:induction false} WornOutAt(list: seq<Unacked>, now: real, k: nat)
    requires k < |list| && WornOut(list[k], now) && forall x :: 0 <= x < k ==> !WornOut(list[x], now)
    ensures FirstWornOut(list, now) == k
    decreases |list|
  {
    hide WornOut;
    if k > 0 { WornOutAt(list[1..], now, k - 1); }
  }

  lemma {:induction false} NoneWornOut(list: seq<Unacked>, now: real)
    requires forall x :: 0 <= x < |list| ==> !WornOut(list[x], now)
    ensures FirstWornOut(list, now) == |list|
    decreases |list|
  {
    hide WornOut;
    if list != [] { NoneWornOut(list[1..], now); }
  }

  /** The packets of the entries that are due, in order. */
  function DuePackets(list: seq<Unacked>, now: real): seq<Bytes> {
    if list == [] then []
    else
      var n := |list| - 1;
      DuePackets(list[..n], now) + if Due(list[n], now) then [list[n].packet] else []
  }

  lemma DueMore(list: seq<Unacked>, now: real, k: nat)
    requires k < |list|
    ensures DuePackets(list[..k + 1], now) == DuePackets(list[..k], now) + if Due(list[k], now) then [list[k].packet] else []
  {
    assert list[..k + 1][..k] == list[..k];
  }

  lemma NoneDue(list: seq<Unacked>, now: real)
    requires list == []
    ensures DuePackets(list, now) == []
  {
  }

  function Resent(u: Unacked, now: real): Unacked {
    u.(sentAt := now, resends := u.resends + 1)
  }

  /** What the timer makes of an entry: those before the first worn-out one are resent when due. */
  function AfterTimer(list: seq<Unacked>, now: real, k: nat): Unacked
    requires k < |list|
  {
    if k < FirstWornOut(list, now) && Due(list[k], now) then Resent(list[k], now) else list[k]
  }

  datatype Failure = NoFailure | FailedClosed | FailedTimeout | FailedConnectTimeout

  /** self.error or reason */
  function FirstFailure(error: Failure, reason: Failure): Failure {
    if error == NoFailure then reason else error
  }

  /** A future is set once. */
  function SetOnce(done: Option<bool>, result: bool): Option<bool> {
    if done.None? then Some(result) else done
  }

  datatype ReadResult = Got(data: Bytes) | Raised(reason: string) | Waiting

  class UtpConnection {
    var seqNr: nat
    var ackNr: nat
    var connectedState: bool
    var closed: bool
    var error: Failure
    /** The future that UtpSocket.connect waits for. */
    var connected: Option<bool>
    var replyMicro: nat
    var buffer: Bytes
    var receivedAny: bool
    var outOfOrder: map<nat, Bytes>
    var eofSeq: Option<nat>
    var unacked: seq<Unacked>
    /** Every byte ever put into the buffer. */
    ghost var delivered: Bytes
    ghost var consumed: Bytes

    ghost predicate Valid()
      reads this
    {
      && seqNr < WRAP && ackNr < WRAP
      && delivered == consumed + buffer
      && (forall u :: u in unacked ==> u.seqNr < WRAP && u.resends <= MAX_RESENDS)
      && (receivedAny <==> delivered != [])
    }

    ghost function Receiving(): Receiver
      reads this
    {
      Receiver(ackNr, delivered, outOfOrder, eofSeq)
    }

    constructor ()
      ensures Valid() && !connectedState && !closed && unacked == [] && delivered == [] && outOfOrder == map[] && eofSeq == None
    {
      seqNr, ackNr, connectedState, closed, error := 1, 0, false, false, NoFailure;
      connected, replyMicro := None, 0;
      buffer, receivedAny, outOfOrder, eofSeq, unacked := [], false, map[], None, [];
      delivered, consumed := [], [];
    }

    method Deliver(payload: Bytes)
      requires Valid()
      modifies this`ackNr, this`buffer, this`receivedAny, this`delivered
      ensures Valid() && Receiving() == AfterDeliver(old(Receiving()), payload)
    {
      ackNr := Add(ackNr, 1);
      if payload != [] {
        buffer := buffer + payload;
        receivedAny := true;
      }
      delivered := delivered + payload;
    }

    method DataReceived(number: nat, payload: Bytes)
      requires Valid() && number < WRAP
      modifies this`ackNr, this`buffer, this`receivedAny, this`delivered, this`outOfOrder
      ensures Valid() && Receiving() == AfterData(old(Receiving()), number, payload)
    {
      hide Drained, Settled;
      if number == Add(ackNr, 1) {
        Deliver(payload);
        var following := Add(ackNr, 1);
        ghost var start := Receiving();
        while following in outOfOrder
          invariant Valid() && following == Add(ackNr, 1) && eofSeq == old(eofSeq)
          invariant Drained(Receiving()) == Drained(start)
          decreases |outOfOrder|
        {
          DrainStep(Receiving());
          var payload := outOfOrder[following];
          var left := outOfOrder - {following};
          assert left.Keys == outOfOrder.Keys - {following};
          outOfOrder := left;
          Deliver(payload);
          following := Add(ackNr, 1);
        }
        DrainStop(Receiving());
      } else if SequenceAfter(number, ackNr) && |outOfOrder| < MAX_OUT_OF_ORDER {
        outOfOrder := outOfOrder[number := payload];
      }
    }

    /** The numbers an acknowledgement covers. */
    method Acknowledged(ack: nat) returns (acked: seq<nat>)
      requires Valid() && ack < WRAP
      ensures forall u :: u in unacked ==> (u.seqNr in acked <==> !SequenceAfter(u.seqNr, ack))
    {
      hide SequenceAfter;
      acked := [];
      var k := 0;
      while k < |unacked|
        invariant 0 <= k <= |unacked|
        invariant forall n :: n in acked ==> n < WRAP && !SequenceAfter(n, ack)
        invariant forall x :: 0 <= x < k && !SequenceAfter(unacked[x].seqNr, ack) ==> unacked[x].seqNr in acked
      {
        assert unacked[k] in unacked;
        if !SequenceAfter(unacked[k].seqNr, ack) { acked := acked + [unacked[k].seqNr]; }
        k := k + 1;
      }
    }

    /** What is acknowledged is forgotten: exactly the packets whose numbers come after `ack` stay, in their order. */
    method Acknowledge(ack: nat)
      requires Valid() && ack < WRAP
      modifies this`unacked
      ensures Valid() && unacked == Remaining(old(unacked), ack)
      ensures forall u :: u in unacked <==> u in old(unacked) && SequenceAfter(u.seqNr, ack)
    {
      hide SequenceAfter, ForgottenAll, Remaining, Forgotten;
      var was := unacked;
      var acked := Acknowledged(ack);
      ForgottenNone(was);
      assert acked[..0] == [];
      var j := 0;
      while j < |acked|
        invariant 0 <= j <= |acked| && unacked == ForgottenAll(was, acked[..j])
      {
        ForgottenMore(was, acked[..j], acked[j]);
        assert acked[..j + 1] == acked[..j] + [acked[j]];
        unacked := Forgotten(unacked, acked[j]);
        j := j + 1;
      }
      assert acked[..j] == acked;
      ForgottenRest(was, acked, ack);
    }

    method Fail(reason: Failure)
      requires Valid()
      modifies this`error, this`closed, this`connected
      ensures Valid() && closed && error == FirstFailure(old(error), reason)
      ensures connected == SetOnce(old(connected), false)
    {
      if error == NoFailure { error := reason; }
      if connected.None? { connected := Some(false); }
      closed := true;
    }

    /** `micros` is the clock's reading in microseconds. */
    method PacketReceived(p: Packet, micros: nat)
      requires Valid() && p.seqNr < WRAP && p.ackNr < WRAP
      modifies this
      ensures Valid() && consumed == old(consumed) && seqNr == old(seqNr)
      ensures old(closed) ==> unchanged(this)
      ensures !old(closed) ==> replyMicro == (micros - p.timestamp) % CLOCK_CYCLE
      ensures p.kind == ST_RESET || (!old(connectedState) && p.kind != ST_STATE) ==>
                Receiving() == old(Receiving()) && unacked == old(unacked) && connectedState == old(connectedState)
      ensures closed == (old(closed) || p.kind == ST_RESET)
      ensures error == if !old(closed) && p.kind == ST_RESET then FirstFailure(old(error), FailedClosed) else old(error)
      ensures connected == if old(closed) then old(connected)
                           else if p.kind == ST_RESET then SetOnce(old(connected), false)
                           else if !old(connectedState) && p.kind == ST_STATE then SetOnce(old(connected), true)
                           else old(connected)
      // the first ST_STATE fixes the peer's numbering: its packets count from this number
      ensures !old(closed) && !old(connectedState) && p.kind == ST_STATE ==>
                connectedState && Receiving() == old(Receiving()).(ackNr := Add(p.seqNr, -1)) && unacked == Remaining(old(unacked), p.ackNr)
      ensures !old(closed) && old(connectedState) && p.kind != ST_RESET ==>
                connectedState && unacked == Remaining(old(unacked), p.ackNr) &&
                Receiving() == (if p.kind == ST_DATA then AfterData(old(Receiving()), p.seqNr, p.payload)
                                else if p.kind == ST_FIN then AfterFin(old(Receiving()), p.seqNr)
                                else old(Receiving()))
    {
      hide AfterData, Remaining;
      if closed { return; }
      replyMicro := (micros - p.timestamp) % CLOCK_CYCLE;
      if p.kind == ST_RESET {
        Fail(FailedClosed);
        return;
      }
      if !connectedState {
        if p.kind != ST_STATE { return; }
        ackNr := Add(p.seqNr, -1);
        connectedState := true;
        Acknowledge(p.ackNr);
        if connected.None? { connected := Some(true); }
        return;
      }
      Acknowledge(p.ackNr);
      if p.kind == ST_DATA {
        DataReceived(p.seqNr, p.payload);
      } else if p.kind == ST_FIN {
        eofSeq := Some(p.seqNr);
        DataReceived(p.seqNr, []);
      }
    }

    /** One turn of read_exactly: the bytes once enough of them wait, why there will be none, or to wait on. */
    method Read(length: nat, now: real, deadline: real, closedReason: string) returns (r: ReadResult)
      requires Valid() && length > 0
      modifies this`buffer, this`consumed
      ensures Valid() && Receiving() == old(Receiving())
      ensures r.Got? <==> length <= old(|buffer|)
      ensures r.Got? ==> |r.data| == length && consumed == old(consumed) + r.data
      ensures !r.Got? ==> unchanged(this)
      ensures !r.Got? ==> (r.Raised? <==> error != NoFailure || StreamEnded(Receiving()) || deadline <= now)
      // before the first byte the caller names the reason; a resend timeout and the deadline are timeouts
      ensures r.Raised? && (error != NoFailure || StreamEnded(Receiving())) ==>
                r.reason == if error == FailedTimeout then "timeout" else if delivered == [] then closedReason else "closed"
      ensures r.Raised? && error == NoFailure && !StreamEnded(Receiving()) ==> r.reason == "timeout"
    {
      if |buffer| < length {
        if error != NoFailure || (eofSeq.Some? && ackNr == eofSeq.value) {
          return Raised(if error == FailedTimeout then "timeout" else if !receivedAny then closedReason else "closed");
        }
        return if deadline - now <= 0.0 then Raised("timeout") else Waiting;
      }
      r := Got(buffer[..length]);
      consumed := consumed + buffer[..length];
      buffer := buffer[length..];
    }

    /** The bytes go out in packets of at most 1200, numbered on from seqNr. `wire` is what the packets carry. */
    method Write(data: Bytes, now: real) returns (wire: seq<Bytes>)
      requires Valid() && data != []
      modifies this`seqNr, this`unacked
      ensures Valid()
      ensures old(closed) ==> wire == [] && unchanged(this)
      ensures !old(closed) ==> Joined(wire) == data && seqNr == Add(old(seqNr), |wire|)
      ensures forall k :: 0 <= k < |wire| ==> 0 < |wire[k]| <= MAX_PAYLOAD
      ensures forall k :: 0 <= k < |wire| - 1 ==> |wire[k]| == MAX_PAYLOAD
      ensures !old(closed) ==> unacked == NotedAll(old(unacked), old(seqNr), wire, now)
    {
      hide Joined, NotedAll, Noted, Add;
      wire := [];
      if closed { return; }
      var start := 0;
      NothingNoted(unacked, seqNr, now);
      while start < |data|
        invariant 0 <= start
        invariant Segments(wire, data, start)
        invariant Valid() && seqNr == Add(old(seqNr), |wire|)
        invariant unacked == NotedAll(old(unacked), old(seqNr), wire, now)
      {
        var end := if start + MAX_PAYLOAD <= |data| then start + MAX_PAYLOAD else |data|;
        var payload := data[start..end];
        SegmentsMore(wire, data, start, end);
        NotedMore(old(unacked), old(seqNr), wire, payload, now);
        NotedOk(unacked, Unacked(seqNr, payload, now, 0));
        AddOne(old(seqNr), |wire|);
        wire := wire + [payload];
        unacked := Noted(unacked, Unacked(seqNr, payload, now, 0));
        seqNr := Add(seqNr, 1);
        start := start + MAX_PAYLOAD;
      }
      SegmentsDone(wire, data, start);
    }

    /**
     * The resend timer: what is due goes out again, at most four times, each wait twice the one before; a
     * packet due after its fourth resend ends the connection, and nothing behind it is sent.
     */
    method CheckResend(now: real) returns (resent: seq<Bytes>)
      requires Valid()
      modifies this
      ensures Valid() && Receiving() == old(Receiving()) && |unacked| == |old(unacked)|
      ensures old(closed) ==> unchanged(this) && resent == []
      ensures !old(closed) ==> resent == DuePackets(old(unacked)[..FirstWornOut(old(unacked), now)], now)
      ensures !old(closed) ==> forall k :: 0 <= k < |unacked| ==> unacked[k] == AfterTimer(old(unacked), now, k)
      ensures !old(closed) ==> (closed <==> FirstWornOut(old(unacked), now) < |old(unacked)|)
      ensures closed && !old(closed) ==> error == FirstFailure(old(error), if connectedState then FailedTimeout else FailedConnectTimeout)
    {
      hide DuePackets, Due, FirstWornOut;
      resent := [];
      if closed { return; }
      var k := 0;
      ghost var was := unacked;
      NoneDue(was[..0], now);
      while k < |unacked|
        invariant 0 <= k <= |unacked| == |was| && Valid() && !closed && Receiving() == old(Receiving()) && error == old(error)
        invariant forall x :: k <= x < |was| ==> unacked[x] == was[x]
        invariant forall x :: 0 <= x < k ==> !WornOut(was[x], now)
        invariant forall x :: 0 <= x < k ==> unacked[x] == if Due(was[x], now) then Resent(was[x], now) else was[x]
        invariant resent == DuePackets(was[..k], now)
      {
        assert was[k] in was && unacked[k] in unacked;
        DueMore(was, now, k);
        if Due(unacked[k], now) {
          if unacked[k].resends >= MAX_RESENDS {
            WornOutAt(was, now, k);
            Fail(if connectedState then FailedTimeout else FailedConnectTimeout);
            return;
          }
          var u := Resent(unacked[k], now);
          resent := resent + [u.packet];
          assert forall v :: v in unacked[k := u] ==> v == u || v in unacked;
          unacked := unacked[k := u];
        }
        k := k + 1;
      }
      NoneWornOut(was, now);
      assert was[..k] == was;
    }
  }

  /** The packets made of the data up to start: full ones, but for the last one at the end. */
  ghost predicate Segments(wire: seq<Bytes>, data: Bytes, start: nat) {
    && Joined(wire) == data[..if start < |data| then start else |data|]
    && (forall k :: 0 <= k < |wire| ==> 0 < |wire[k]| <= MAX_PAYLOAD)
    && (forall k :: 0 <= k < |wire| && (start < |data| || k < |wire| - 1) ==> |wire[k]| == MAX_PAYLOAD)
  }

  lemma SegmentsMore(wire: seq<Bytes>, data: Bytes, start: nat, end: nat)
    requires Segments(wire, data, start) && start < |data|
    requires end == if start + MAX_PAYLOAD <= |data| then start + MAX_PAYLOAD else |data|
    ensures Segments(wire + [data[start..end]], data, start + MAX_PAYLOAD)
  {
    hide Joined;
    JoinedMore(wire, data[start..end]);
    assert data[..start] + data[start..end] == data[..end];
  }

  lemma SegmentsDone(wire: seq<Bytes>, data: Bytes, start: nat)
    requires Segments(wire, data, start) && start >= |data|
    ensures Joined(wire) == data
    ensures forall k :: 0 <= k < |wire| ==> 0 < |wire[k]| <= MAX_PAYLOAD
    ensures forall k :: 0 <= k < |wire| - 1 ==> |wire[k]| == MAX_PAYLOAD
  {
    assert data[..|data|] == data;
  }

  lemma NothingNoted(list: seq<Unacked>, first: nat, now: real)
    requires first < WRAP
    ensures NotedAll(list, first, [], now) == list && Add(first, 0) == first && Joined([]) == []
  {
  }

  lemma AddOne(first: nat, n: nat)
    ensures Add(Add(first, n), 1) == Add(first, n + 1) && Add(first, n) < WRAP
  {
  }

  lemma DrainStep(st: Receiver)
    requires Add(st.ackNr, 1) in st.outOfOrder
    ensures var f := Add(st.ackNr, 1);
            Drained(st) == Drained(AfterDeliver(st, st.outOfOrder[f]).(outOfOrder := st.outOfOrder - {f}))
  {
    var f := Add(st.ackNr, 1);
    assert (st.outOfOrder - {f}).Keys == st.outOfOrder.Keys - {f};
  }

  lemma DrainStop(st: Receiver)
    requires Add(st.ackNr, 1) !in st.outOfOrder
    ensures Drained(st) == st
  {
  }

  /** The packets of a write, entered one after the other. */
  function NotedAll(list: seq<Unacked>, first: nat, wire: seq<Bytes>, now: real): seq<Unacked> {
    if wire == [] then list
    else
      var n := |wire| - 1;
      Noted(NotedAll(list, first, wire[..n], now), Unacked(Add(first, n), wire[n], now, 0))
  }

  lemma NotedMore(list: seq<Unacked>, first: nat, wire: seq<Bytes>, payload: Bytes, now: real)
    ensures NotedAll(list, first, wire + [payload], now) ==
            Noted(NotedAll(list, first, wire, now), Unacked(Add(first, |wire|), payload, now, 0))
  {
    assert (wire + [payload])[..|wire|] == wire;
  }

  lemma {:induction false} NotedOk(list: seq<Unacked>, u: Unacked)
    ensures forall v :: v in Noted(list, u) ==> v == u || v in list
    decreases |list|
  {
    if list != [] { NotedOk(list[1..], u); }
  }

  lemma JoinedMore(chunks: seq<Bytes>, more: Bytes)
    ensures Joined(chunks + [more]) == Joined(chunks) + more
  {
    assert (chunks + [more])[..|chunks|] == chunks;
  }
}
