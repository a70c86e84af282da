/**
 * metadata_fetcher.py: the pipelined ut_metadata download. The peer is any sequence of frames; its end
 * stands for a closed connection or a timeout.
 */
module MetadataFetcher {
  import opened ByteStrings
  import opened BencodeCodec
  import opened BencodeProofs
  import opened PeerWire

  const PIECE_WINDOW := 8

  datatype WireFrame = WireFrame(id: int, body: Bytes)
  datatype Reason = Ended | BadExtended | BadPiece | Reject
  datatype Result<+T> = Ok(value: T) | Err(reason: Reason)

  // ----- what one frame means while some pieces are outstanding

  datatype Meaning = Skip | Fail(reason: Reason) | Piece(piece: nat, data: Bytes)

  function MessageMeaning(m: map<Bytes, Value>, data: Bytes, outstanding: set<nat>, size: nat): Meaning
    requires size > 0 && forall p :: p in outstanding ==> p < PieceCount(size)
  {
    var decoded := DecodeMetadataMessage(m);
    if decoded.None? then Fail(BadPiece)
    else
      var (msgType, piece, total) := decoded.value;
      if piece !in outstanding then Skip
      else if msgType == MSG_TYPE_REJECT then Fail(Reject)
      else if msgType != MSG_TYPE_DATA then Skip
      else if |data| != ExpectedPieceLength(size, piece) || (total.Some? && total.value != size) then Fail(BadPiece)
      else Piece(piece, data)
  }

  function FrameMeaning(f: WireFrame, outstanding: set<nat>, size: nat): Meaning
    requires size > 0 && forall p :: p in outstanding ==> p < PieceCount(size)
  {
    if f.id != MESSAGE_EXTENDED as int then Skip
    else
      var e := DecodeExtendedMessage(f.body);
      if e.None? then Fail(BadExtended)
      else if e.value.0 != UT_METADATA_LOCAL_ID then Skip
      else MessageMeaning(e.value.1, e.value.2, outstanding, size)
  }

  /** receive_extended: skips frames until an extended message with the given id. */
  method ReceiveExtended(frames: seq<WireFrame>, start: nat, extension: byte)
    returns (r: Result<(map<Bytes, Value>, Bytes)>, next: nat)
    requires start <= |frames|
    ensures start <= next <= |frames|
    ensures r.Err? ==> r.reason == Ended || r.reason == BadExtended
    ensures r == Err(Ended) ==> next == |frames|
    ensures r != Err(Ended) ==> start < next
    ensures forall k :: start <= k < (if r == Err(Ended) then next else next - 1) ==>
              frames[k].id != MESSAGE_EXTENDED as int ||
              (DecodeExtendedMessage(frames[k].body).Some? && DecodeExtendedMessage(frames[k].body).value.0 != extension)
    ensures r == Err(BadExtended) ==>
              frames[next - 1].id == MESSAGE_EXTENDED as int && DecodeExtendedMessage(frames[next - 1].body).None?
    ensures r.Ok? ==>
              frames[next - 1].id == MESSAGE_EXTENDED as int &&
              DecodeExtendedMessage(frames[next - 1].body) == Some((extension, r.value.0, r.value.1))
  {
    hide DecodeExtendedMessage;
    next := start;
    while next < |frames|
      invariant start <= next <= |frames|
      invariant forall k :: start <= k < next ==>
              frames[k].id != MESSAGE_EXTENDED as int ||
              (DecodeExtendedMessage(frames[k].body).Some? && DecodeExtendedMessage(frames[k].body).value.0 != extension)
    {
      var frame := frames[next];
      next := next + 1;
      if frame.id == MESSAGE_EXTENDED as int {
        var e := DecodeExtendedMessage(frame.body);
        if e.None? { return Err(BadExtended), next; }
        if e.value.0 == extension { return Ok((e.value.1, e.value.2)), next; }
      }
    }
    r := Err(Ended);
  }

  /** receive_piece: frames that mean nothing for the outstanding pieces are skipped; the next one decides. */
  method ReceivePiece(frames: seq<WireFrame>, start: nat, outstanding: set<nat>, size: nat)
    returns (r: Result<(nat, Bytes)>, next: nat)
    requires start <= |frames| && size > 0 && outstanding != {}
    requires forall p :: p in outstanding ==> p < PieceCount(size)
    ensures start <= next <= |frames|
    ensures r == Err(Ended) ==> next == |frames|
    ensures r != Err(Ended) ==> start < next
    ensures forall k :: start <= k < (if r == Err(Ended) then next else next - 1) ==>
              FrameMeaning(frames[k], outstanding, size) == Skip
    ensures r.Err? && r != Err(Ended) ==> FrameMeaning(frames[next - 1], outstanding, size) == Fail(r.reason)
    ensures r.Ok? ==> FrameMeaning(frames[next - 1], outstanding, size) == Piece(r.value.0, r.value.1)
  {
    hide DecodeExtendedMessage, DecodeMetadataMessage;
    next := start;
    while true
      invariant start <= next <= |frames|
      invariant forall k :: start <= k < next ==> FrameMeaning(frames[k], outstanding, size) == Skip
      decreases |frames| - next
    {
      var message, after := ReceiveExtended(frames, next, UT_METADATA_LOCAL_ID);
      if message.Err? { return Err(message.reason), after; }
      next := after;
      var decoded := DecodeMetadataMessage(message.value.0);
      if decoded.None? { return Err(BadPiece), next; }
      var (msgType, piece, total) := decoded.value;
      if piece !in outstanding { continue; }
      if msgType == MSG_TYPE_REJECT { return Err(Reject), next; }
      if msgType != MSG_TYPE_DATA { continue; }
      if |message.value.1| != ExpectedPieceLength(size, piece) || (total.Some? && total.value != size) {
        return Err(BadPiece), next;
      }
      return Ok((piece, message.value.1)), next;
    }
  }

  // ----- the window over a whole download

  datatype Event = Asked(piece: nat) | Got(piece: nat)

  function Requests(trace: seq<Event>): seq<nat> {
    if trace == [] then []
    else
      var last := trace[|trace| - 1];
      Requests(trace[..|trace| - 1]) + (if last.Asked? then [last.piece] else [])
  }

  function Outstanding(trace: seq<Event>): set<nat> {
    if trace == [] then {}
    else
      var last := trace[|trace| - 1];
      var before := Outstanding(trace[..|trace| - 1]);
      if last.Asked? then before + {last.piece} else before - {last.piece}
  }

  /** At every moment at most eight pieces are outstanding, and only an outstanding piece is accepted. */
  ghost predicate WindowRespected(trace: seq<Event>) {
    && (forall k :: 0 <= k <= |trace| ==> |Outstanding(trace[..k])| <= PIECE_WINDOW)
    && (forall k :: 0 <= k < |trace| && trace[k].Got? ==> trace[k].piece in Outstanding(trace[..k]))
  }

  function FirstNumbers(n: nat): seq<nat> {
    seq(n, k => k)
  }

  /** b"".join of the pieces 0..n. */
  function Joined(pieces: map<nat, Bytes>, n: nat): Bytes
    requires forall k :: 0 <= k < n ==> k in pieces
  {
    if n == 0 then [] else Joined(pieces, n - 1) + pieces[n - 1]
  }

  /** The bytes of metadata M that belong to a piece. */
  function Slice(M: Bytes, piece: nat): (r: Bytes)
    requires |M| > 0 && piece < PieceCount(|M|)
    ensures |r| == ExpectedPieceLength(|M|, piece)
  {
    M[piece * METADATA_PIECE_SIZE..piece * METADATA_PIECE_SIZE + ExpectedPieceLength(|M|, piece)]
  }

  /** Every data message for a piece of M, of the right length, carries that piece of M. */
  ghost predicate Honest(frames: seq<WireFrame>, M: Bytes)
    requires |M| > 0
  {
    forall k, p, data :: 0 <= k < |frames| && 0 <= p < PieceCount(|M|) ==>
      FrameMeaning(frames[k], {p}, |M|) == Piece(p, data) ==> data == Slice(M, p)
  }

  lemma MeaningOfOne(f: WireFrame, outstanding: set<nat>, size: nat, p: nat, data: Bytes)
    requires size > 0 && forall q :: q in outstanding ==> q < PieceCount(size)
    requires FrameMeaning(f, outstanding, size) == Piece(p, data)
    ensures p in outstanding && |data| == ExpectedPieceLength(size, p)
    ensures FrameMeaning(f, {p}, size) == Piece(p, data)
  {
    hide DecodeExtendedMessage, DecodeMetadataMessage;
  }

  lemma {:induction false} JoinedLength(pieces: map<nat, Bytes>, size: nat, n: nat)
    requires size > 0 && n <= PieceCount(size)
    requires forall k :: 0 <= k < n ==> k in pieces && |pieces[k]| == ExpectedPieceLength(size, k)
    ensures |Joined(pieces, n)| == if n == PieceCount(size) then size else n * METADATA_PIECE_SIZE
  {
    if n > 0 { JoinedLength(pieces, size, n - 1); }
  }

  lemma {:induction false} JoinedSlices(pieces: map<nat, Bytes>, M: Bytes, n: nat)
    requires |M| > 0 && n <= PieceCount(|M|)
    requires forall k :: 0 <= k < n ==> k in pieces && pieces[k] == Slice(M, k)
    ensures Joined(pieces, n) == if n == PieceCount(|M|) then M else M[..n * METADATA_PIECE_SIZE]
  {
    if n > 0 { JoinedSlices(pieces, M, n - 1); }
  }

  lemma TraceExtend(trace: seq<Event>, e: Event)
    requires WindowRespected(trace)
    requires e.Asked? ==> |Outstanding(trace)| < PIECE_WINDOW
    requires e.Got? ==> e.piece in Outstanding(trace)
    ensures WindowRespected(trace + [e])
    ensures Outstanding(trace + [e]) ==
            if e.Asked? then Outstanding(trace) + {e.piece} else Outstanding(trace) - {e.piece}
    ensures Requests(trace + [e]) == Requests(trace) + (if e.Asked? then [e.piece] else [])
  {
    var longer := trace + [e];
    assert longer[..|longer| - 1] == trace;
    var before, after := Outstanding(trace), Outstanding(longer);
    assert |after| <= PIECE_WINDOW by {
      assert trace[..|trace|] == trace;
      assert after <= before + {e.piece};
      if e.Got? { assert after <= before; }
    }
    WindowLonger(trace, e);
  }

  lemma WindowLonger(trace: seq<Event>, e: Event)
    requires WindowRespected(trace) && |Outstanding(trace + [e])| <= PIECE_WINDOW
    requires e.Got? ==> e.piece in Outstanding(trace)
    ensures WindowRespected(trace + [e])
  {
    hide Outstanding;
    var longer := trace + [e];
    forall k | 0 <= k <= |longer| ensures |Outstanding(longer[..k])| <= PIECE_WINDOW {
      if k <= |trace| { assert longer[..k] == trace[..k]; } else { assert longer[..k] == longer; }
    }
    forall k | 0 <= k < |longer| && longer[k].Got? ensures longer[k].piece in Outstanding(longer[..k]) {
      assert longer[..k] == trace[..k];
      if k == |trace| { assert trace[..k] == trace; }
    }
  }

  /** Received and outstanding pieces partition [0, next), as the trace shows. */
  ghost predicate Partition(trace: seq<Event>, received: set<nat>, outstanding: set<nat>, next: nat) {
    && received !! outstanding
    && (forall k: nat :: k in received + outstanding <==> k < next)
    && |received| + |outstanding| == next
    && |outstanding| <= PIECE_WINDOW
    && WindowRespected(trace) && Outstanding(trace) == outstanding && Requests(trace) == FirstNumbers(next)
  }

  lemma AskKeeps(trace: seq<Event>, received: set<nat>, outstanding: set<nat>, next: nat)
    requires Partition(trace, received, outstanding, next) && |outstanding| < PIECE_WINDOW
    ensures Partition(trace + [Asked(next)], received, outstanding + {next}, next + 1)
  {
    hide WindowRespected, Outstanding, Requests;
    TraceExtend(trace, Asked(next));
    assert next !in received + outstanding;
  }

  lemma GotKeeps(trace: seq<Event>, received: set<nat>, outstanding: set<nat>, next: nat, piece: nat)
    requires Partition(trace, received, outstanding, next) && piece in outstanding
    ensures Partition(trace + [Got(piece)], received + {piece}, outstanding - {piece}, next)
  {
    hide WindowRespected, Outstanding, Requests;
    TraceExtend(trace, Got(piece));
    assert piece !in received;
    forall k: nat ensures k in (received + {piece}) + (outstanding - {piece}) <==> k in received + outstanding {}
  }

  lemma PartitionDone(trace: seq<Event>, received: set<nat>, outstanding: set<nat>, next: nat, count: nat)
    requires Partition(trace, received, outstanding, next) && next <= count <= |received|
    ensures next == count && outstanding == {} && forall k :: 0 <= k < count ==> k in received
  {
    assert |outstanding| == 0;
    assert received + outstanding == received;
  }

  lemma OutstandingBelow(trace: seq<Event>, received: set<nat>, outstanding: set<nat>, next: nat)
    requires Partition(trace, received, outstanding, next)
    ensures forall p :: p in outstanding ==> p < next
  {
    forall p | p in outstanding ensures p < next { assert p in received + outstanding; }
  }

  ghost predicate RightLengths(size: nat, pieces: map<nat, Bytes>)
    requires size > 0
  {
    forall k :: k in pieces ==> k < PieceCount(size) && |pieces[k]| == ExpectedPieceLength(size, k)
  }

  /** M's own bytes when the peer is honest. */
  ghost predicate TruePieces(frames: seq<WireFrame>, size: nat, pieces: map<nat, Bytes>)
    requires size > 0 && RightLengths(size, pieces)
  {
    forall M, k :: |M| == size && Honest(frames, M) && k in pieces ==> pieces[k] == Slice(M, k)
  }

  /** An answering peer's answers have been taken up to the position, each of them. */
  ghost predicate AnswersTaken(frames: seq<WireFrame>, size: nat, pieces: map<nat, Bytes>, position: nat)
    requires size > 0
  {
    forall M, order, places :: |M| == size && Answers(frames, M, order, places) ==>
      |pieces| <= |order| && position == Behind(places, |pieces|) && pieces.Keys == Seen(order, |pieces|)
  }

  /** What the accepted data is worth. */
  ghost predicate Accepted(frames: seq<WireFrame>, size: nat, pieces: map<nat, Bytes>, position: nat)
    requires size > 0
  {
    RightLengths(size, pieces) && TruePieces(frames, size, pieces) && AnswersTaken(frames, size, pieces, position)
  }

  lemma AcceptKeeps(frames: seq<WireFrame>, size: nat, pieces: map<nat, Bytes>, position: nat, outstanding: set<nat>,
                    piece: nat, data: Bytes, after: nat)
    requires size > 0 && Accepted(frames, size, pieces, position)
    requires outstanding !! pieces.Keys && forall p :: p in outstanding ==> p < PieceCount(size)
    requires position < after <= |frames| && FrameMeaning(frames[after - 1], outstanding, size) == Piece(piece, data)
    requires forall M, order, places :: |M| == size && Answers(frames, M, order, places) ==>
               |pieces| < |order| == |places| && after == places[|pieces|] + 1 && piece == order[|pieces|]
    ensures piece in outstanding && Accepted(frames, size, pieces[piece := data], after)
  {
    hide FrameMeaning, Slice, Honest, Answers, TruePieces, AnswersTaken;
    MeaningOfOne(frames[after - 1], outstanding, size, piece, data);
    TruePiece(frames, size, pieces, piece, data, after - 1);
    AnswerTaken(frames, size, pieces, position, piece, data, after);
  }

  lemma TruePiece(frames: seq<WireFrame>, size: nat, pieces: map<nat, Bytes>, piece: nat, data: Bytes, k: nat)
    requires size > 0 && k < |frames| && piece < PieceCount(size) && |data| == ExpectedPieceLength(size, piece)
    requires RightLengths(size, pieces) && TruePieces(frames, size, pieces) && FrameMeaning(frames[k], {piece}, size) == Piece(piece, data)
    ensures RightLengths(size, pieces[piece := data]) && TruePieces(frames, size, pieces[piece := data])
  {
    hide FrameMeaning, Slice, Honest;
    var more := pieces[piece := data];
    forall M, j | |M| == size && Honest(frames, M) && j in more ensures more[j] == Slice(M, j) {
      if j == piece { HonestPiece(frames, M, k, piece, data); }
    }
  }

  lemma AnswerTaken(frames: seq<WireFrame>, size: nat, pieces: map<nat, Bytes>, position: nat, piece: nat, data: Bytes, after: nat)
    requires size > 0 && piece !in pieces && AnswersTaken(frames, size, pieces, position)
    requires forall M, order, places :: |M| == size && Answers(frames, M, order, places) ==>
               |pieces| < |order| == |places| && after == places[|pieces|] + 1 && piece == order[|pieces|]
    ensures AnswersTaken(frames, size, pieces[piece := data], after)
  {
    hide Answers;
    var more := pieces[piece := data];
    assert more.Keys == pieces.Keys + {piece};
    assert |more| == |pieces| + 1;
    forall M, order, places | |M| == size && Answers(frames, M, order, places)
      ensures |more| <= |order| && after == Behind(places, |more|) && more.Keys == Seen(order, |more|) {
      SeenStep(order, |pieces|);
    }
  }

  lemma HonestPiece(frames: seq<WireFrame>, M: Bytes, k: nat, p: nat, data: Bytes)
    requires |M| > 0 && Honest(frames, M) && k < |frames| && p < PieceCount(|M|)
    requires FrameMeaning(frames[k], {p}, |M|) == Piece(p, data)
    ensures data == Slice(M, p)
  {
    hide FrameMeaning, Slice;
  }

  /**
   * request_pieces. `trace` is what was asked and accepted, in order; the frames decide everything else.
   */
  method RequestPieces(frames: seq<WireFrame>, size: nat) returns (r: Result<Bytes>, trace: seq<Event>)
    requires size > 0
    // each piece is asked for once, in order, never more than eight ahead
    ensures WindowRespected(trace)
    ensures |Requests(trace)| <= PieceCount(size) && Requests(trace) == FirstNumbers(|Requests(trace)|)
    // success: every piece was asked for and answered, and the result has the announced length
    ensures r.Ok? ==> |r.value| == size && |Requests(trace)| == PieceCount(size) && Outstanding(trace) == {}
    // whatever unsolicited, repeated or reordered messages came in, honest pieces give the metadata itself
    ensures forall M :: r.Ok? && |M| == size && Honest(frames, M) ==> r.value == M
    // and a peer that answers every request, whatever it says in between, is never turned away
    ensures forall M, order, places :: |M| == size && Answers(frames, M, order, places) ==> r == Ok(M)
  {
    hide FrameMeaning, Slice, WindowRespected, Outstanding, Requests, Partition, Accepted, Honest, Answers, Joined, Idle, Unneeded;
    var count := PieceCount(size);
    var pieces: map<nat, Bytes> := map[];
    var outstanding: set<nat> := {};
    var nextPiece := 0;
    var position := 0;
    trace := [];
    Start(frames, size);
    while |pieces| < count
      invariant 0 <= nextPiece <= count && position <= |frames|
      invariant Partition(trace, pieces.Keys, outstanding, nextPiece)
      invariant Accepted(frames, size, pieces, position)
      decreases count - |pieces|
    {
      while nextPiece < count && |outstanding| < PIECE_WINDOW
        invariant 0 <= nextPiece <= count
        invariant Partition(trace, pieces.Keys, outstanding, nextPiece)
      {
        AskKeeps(trace, pieces.Keys, outstanding, nextPiece);
        trace := trace + [Asked(nextPiece)];
        outstanding := outstanding + {nextPiece};
        nextPiece := nextPiece + 1;
      }
      WindowFull(trace, pieces.Keys, outstanding, nextPiece, count);
      var answer, after := ReceivePiece(frames, position, outstanding, size);
      forall M, order, places | |M| == size && Answers(frames, M, order, places)
        ensures answer.Ok? && |pieces| < |order| == |places| && after == places[|pieces|] + 1 && answer.value.0 == order[|pieces|]
      {
        AnswerAccepted(frames, M, order, places, position, outstanding, pieces, trace, nextPiece);
      }
      if answer.Err? {
        Stopped(trace, pieces.Keys, outstanding, nextPiece);
        return Err(answer.reason), trace;
      }
      var (piece, data) := answer.value;
      PartitionDisjoint(trace, pieces.Keys, outstanding, nextPiece);
      AcceptKeeps(frames, size, pieces, position, outstanding, piece, data, after);
      GotKeeps(trace, pieces.Keys, outstanding, nextPiece, piece);
      assert pieces[piece := data].Keys == pieces.Keys + {piece};
      trace := trace + [Got(piece)];
      outstanding := outstanding - {piece};
      pieces := pieces[piece := data];
      position := after;
    }
    Stopped(trace, pieces.Keys, outstanding, nextPiece);
    Finished(frames, size, trace, pieces, outstanding, nextPiece, position);
    r := Ok(Joined(pieces, count));
  }

  lemma Start(frames: seq<WireFrame>, size: nat)
    requires size > 0
    ensures Partition([], {}, {}, 0) && Accepted(frames, size, map[], 0)
  {
    var none: seq<Event> := [];
    assert none[..0] == none;
    assert FirstNumbers(0) == [];
  }

  lemma PartitionDisjoint(trace: seq<Event>, received: set<nat>, outstanding: set<nat>, next: nat)
    requires Partition(trace, received, outstanding, next)
    ensures received !! outstanding
  {
  }

  lemma WindowFull(trace: seq<Event>, received: set<nat>, outstanding: set<nat>, next: nat, count: nat)
    requires Partition(trace, received, outstanding, next) && next <= count && |received| < count
    requires next == count || |outstanding| >= PIECE_WINDOW
    ensures outstanding != {} && (forall p :: p in outstanding ==> p < count)
  {
    OutstandingBelow(trace, received, outstanding, next);
  }

  lemma Stopped(trace: seq<Event>, received: set<nat>, outstanding: set<nat>, next: nat)
    requires Partition(trace, received, outstanding, next)
    ensures WindowRespected(trace) && Outstanding(trace) == outstanding && Requests(trace) == FirstNumbers(next)
    ensures |Requests(trace)| == next
  {
  }

  lemma Finished(frames: seq<WireFrame>, size: nat, trace: seq<Event>, pieces: map<nat, Bytes>, outstanding: set<nat>,
                 next: nat, position: nat)
    requires size > 0 && next <= PieceCount(size) <= |pieces|
    requires Partition(trace, pieces.Keys, outstanding, next) && Accepted(frames, size, pieces, position)
    ensures next == PieceCount(size) && outstanding == {}
    ensures forall k :: 0 <= k < PieceCount(size) ==> k in pieces
    ensures |Joined(pieces, PieceCount(size))| == size
    ensures forall M :: |M| == size && Honest(frames, M) ==> Joined(pieces, PieceCount(size)) == M
    ensures forall M, order, places :: |M| == size && Answers(frames, M, order, places) ==> Joined(pieces, PieceCount(size)) == M
  {
    hide FrameMeaning, Slice, Honest, Answers;
    var count := PieceCount(size);
    assert |pieces.Keys| == |pieces|;
    PartitionDone(trace, pieces.Keys, outstanding, next, count);
    JoinedLength(pieces, size, count);
    forall M | |M| == size && Honest(frames, M) ensures Joined(pieces, count) == M {
      JoinedSlices(pieces, M, count);
    }
    forall M, order, places | |M| == size && Answers(frames, M, order, places) ensures Honest(frames, M) {
      AnswersHonest(frames, M, order, places);
    }
  }

  // ----- a peer that answers

  /** The frame an honest peer sends for a piece of M. */
  ghost function DataFrame(M: Bytes, piece: nat): WireFrame
    requires |M| > 0 && piece < PieceCount(|M|)
  {
    WireFrame(MESSAGE_EXTENDED as int, ExtendedBody(UT_METADATA_LOCAL_ID, DataPayload(|M|, piece), Slice(M, piece)))
  }

  ghost function DataPayload(size: nat, piece: nat): map<Bytes, Value> {
    map[Ascii("msg_type") := Int(MSG_TYPE_DATA), Ascii("piece") := Int(piece), Ascii("total_size") := Int(size)]
  }

  /** A frame that means nothing whatever is outstanding: keep-alives, other messages, other extensions. */
  ghost predicate Idle(f: WireFrame, size: nat)
    requires size > 0
  {
    forall outstanding: set<nat> :: (forall p :: p in outstanding ==> p < PieceCount(size)) ==> FrameMeaning(f, outstanding, size) == Skip
  }

  /** A frame the fetcher has no use for: an idle one, or an answer that was given before. */
  ghost predicate Unneeded(frames: seq<WireFrame>, M: Bytes, order: seq<nat>, places: seq<nat>, i: nat)
    requires |M| > 0 && i < |frames| && |order| == |places| && forall k :: 0 <= k < |order| ==> order[k] < PieceCount(|M|)
  {
    Idle(frames[i], |M|) || exists k :: 0 <= k < |order| && places[k] < i && frames[i] == DataFrame(M, order[k])
  }

  /**
   * The frames answer every piece of M, at the given places, in some order in which each piece was already asked for.
   * Frames that are not needed may stand anywhere between the answers.
   */
  ghost predicate Answers(frames: seq<WireFrame>, M: Bytes, order: seq<nat>, places: seq<nat>)
    requires |M| > 0
  {
    && |order| == |places| == PieceCount(|M|)
    && (forall i, j :: 0 <= i < j < |order| ==> order[i] != order[j])
    && (forall i, j :: 0 <= i < j < |places| ==> places[i] < places[j])
    && (forall k :: 0 <= k < |order| ==> order[k] < PieceCount(|M|) && order[k] < k + PIECE_WINDOW)
    && (forall k :: 0 <= k < |places| ==> places[k] < |frames| && frames[places[k]] == DataFrame(M, order[k]))
    && (forall i: nat :: i < |frames| && i !in places ==> Unneeded(frames, M, order, places, i))
  }

  /** The place behind the first n answers. */
  function Behind(places: seq<nat>, n: nat): nat {
    if n == 0 || n > |places| then 0 else places[n - 1] + 1
  }

  function Seen(order: seq<nat>, n: nat): set<nat> {
    set k | 0 <= k < n && k < |order| :: order[k]
  }

  lemma SeenStep(order: seq<nat>, n: nat)
    requires n < |order|
    ensures Seen(order, n + 1) == Seen(order, n) + {order[n]}
  {
  }

  lemma DataFrameMeaning(M: Bytes, piece: nat, outstanding: set<nat>)
    requires |M| > 0 && piece < PieceCount(|M|)
    requires forall p :: p in outstanding ==> p < PieceCount(|M|)
    ensures FrameMeaning(DataFrame(M, piece), outstanding, |M|) ==
            if piece in outstanding then Piece(piece, Slice(M, piece)) else Skip
  {
    hide Encode, DecodeExtendedMessage, ExtendedBody;
    ExtendedRoundTrip(UT_METADATA_LOCAL_ID, DataPayload(|M|, piece), Slice(M, piece));
    KeysDiffer();
  }

  lemma IdleMeans(f: WireFrame, size: nat, outstanding: set<nat>)
    requires size > 0 && Idle(f, size) && forall p :: p in outstanding ==> p < PieceCount(size)
    ensures FrameMeaning(f, outstanding, size) == Skip
  {
    hide FrameMeaning;
  }

  lemma AnswersHonest(frames: seq<WireFrame>, M: Bytes, order: seq<nat>, places: seq<nat>)
    requires |M| > 0 && Answers(frames, M, order, places)
    ensures Honest(frames, M)
  {
    hide FrameMeaning, Slice, DataFrame, Idle;
    forall k, p, data | 0 <= k < |frames| && 0 <= p < PieceCount(|M|) && FrameMeaning(frames[k], {p}, |M|) == Piece(p, data)
      ensures data == Slice(M, p)
    {
      if k in places {
        var j :| 0 <= j < |places| && places[j] == k;
        DataFrameMeaning(M, order[j], {p});
      } else if Idle(frames[k], |M|) {
        IdleMeans(frames[k], |M|, {p});
        assert false;
      } else {
        assert Unneeded(frames, M, order, places, k);
        var j :| 0 <= j < |order| && places[j] < k && frames[k] == DataFrame(M, order[j]);
        DataFrameMeaning(M, order[j], {p});
      }
    }
  }

  /** A frame that is not needed is skipped while the pieces answered before it are not outstanding. */
  lemma UnneededSkipped(frames: seq<WireFrame>, M: Bytes, order: seq<nat>, places: seq<nat>, n: nat, i: nat, outstanding: set<nat>)
    requires |M| > 0 && Answers(frames, M, order, places) && n < |places| && Behind(places, n) <= i < places[n] && i < |frames|
    requires Seen(order, n) !! outstanding && forall p :: p in outstanding ==> p < PieceCount(|M|)
    ensures FrameMeaning(frames[i], outstanding, |M|) == Skip
  {
    hide FrameMeaning, Slice, DataFrame, Idle;
    NoPlaceBetween(places, n, i);
    assert Unneeded(frames, M, order, places, i);
    if Idle(frames[i], |M|) {
      IdleMeans(frames[i], |M|, outstanding);
    } else {
      var k :| 0 <= k < |order| && places[k] < i && frames[i] == DataFrame(M, order[k]);
      Earlier(places, k, n);
      assert order[k] in Seen(order, n);
      DataFrameMeaning(M, order[k], outstanding);
    }
  }

  lemma Earlier(places: seq<nat>, k: nat, n: nat)
    requires (forall i, j :: 0 <= i < j < |places| ==> places[i] < places[j]) && k < |places| && n < |places| && places[k] < places[n]
    ensures k < n
  {
  }

  lemma NoPlaceBetween(places: seq<nat>, n: nat, i: nat)
    requires (forall i, j :: 0 <= i < j < |places| ==> places[i] < places[j]) && n < |places| && Behind(places, n) <= i < places[n]
    ensures i !in places
  {
    forall k | 0 <= k < |places| ensures places[k] != i {
      if k < n && k < n - 1 { assert places[k] < places[n - 1]; }
      if k > n { assert places[n] < places[k]; }
    }
  }

  /** The next answer is for an outstanding piece, and nothing before it means anything, so it is the one accepted. */
  lemma AnswerAccepted(frames: seq<WireFrame>, M: Bytes, order: seq<nat>, places: seq<nat>, position: nat, outstanding: set<nat>,
                       pieces: map<nat, Bytes>, trace: seq<Event>, next: nat)
    requires |M| > 0 && Answers(frames, M, order, places) && |pieces| < PieceCount(|M|)
    requires Accepted(frames, |M|, pieces, position) && Partition(trace, pieces.Keys, outstanding, next)
    requires next == PieceCount(|M|) || (next < PieceCount(|M|) && |outstanding| >= PIECE_WINDOW)
    ensures forall p :: p in outstanding ==> p < PieceCount(|M|)
    ensures |pieces| < |order| == |places| && position <= places[|pieces|] < |frames|
    ensures forall i: nat :: position <= i < places[|pieces|] ==> FrameMeaning(frames[i], outstanding, |M|) == Skip
    ensures var p := order[|pieces|];
            p < PieceCount(|M|) && FrameMeaning(frames[places[|pieces|]], outstanding, |M|) == Piece(p, Slice(M, p))
  {
    hide FrameMeaning, Slice, DataFrame, Honest, WindowRespected, Outstanding, Requests, Idle, Unneeded;
    OutstandingBelow(trace, pieces.Keys, outstanding, next);
    PartitionDisjoint(trace, pieces.Keys, outstanding, next);
    var n := |pieces|;
    assert n == |pieces.Keys| && position == Behind(places, n) && pieces.Keys == Seen(order, n);
    if n > 0 { assert places[n - 1] < places[n]; }
    forall i: nat | position <= i < places[n] ensures FrameMeaning(frames[i], outstanding, |M|) == Skip {
      UnneededSkipped(frames, M, order, places, n, i, outstanding);
    }
    var p := order[n];
    assert p < next;
    assert p in pieces.Keys + outstanding;
    assert p !in Seen(order, n);
    DataFrameMeaning(M, p, outstanding);
  }
}
