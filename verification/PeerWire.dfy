/** peer_wire_messages.py: handshakes, frames and extended messages of BEP 3, BEP 10 and BEP 9. */
module PeerWire {
  import opened ByteStrings
  import opened BigEndian
  import opened BencodeCodec
  import opened BencodeProofs

  const ID_LENGTH := 20
  const HANDSHAKE_LENGTH := 68
  const EXTENSION_BYTE := 25        // 20 + EXTENSION_RESERVED_INDEX
  const EXTENSION_BIT := 0x10
  const MESSAGE_EXTENDED: byte := 20
  const EXTENDED_HANDSHAKE_ID: byte := 0
  const UT_METADATA_LOCAL_ID: byte := 1
  const METADATA_PIECE_SIZE := 16384
  const MAX_METADATA_SIZE := 4 * 1024 * 1024
  const MAX_FRAME_LENGTH := 1024 * 1024
  const MSG_TYPE_REQUEST := 0
  const MSG_TYPE_DATA := 1
  const MSG_TYPE_REJECT := 2

  function Ascii(s: string): (r: Bytes)
    requires forall k :: 0 <= k < |s| ==> s[k] as int < 128
    ensures |r| == |s|
    ensures forall k :: 0 <= k < |s| ==> r[k] == s[k] as int
  {
    seq(|s|, k requires 0 <= k < |s| => s[k] as int)
  }

  // ----- handshake

  function EncodeHandshake(infoHash: Bytes, peerId: Bytes): (r: Bytes)
    requires |infoHash| == ID_LENGTH && |peerId| == ID_LENGTH
    ensures |r| == HANDSHAKE_LENGTH
  {
    [19] + Ascii("BitTorrent protocol") + [0, 0, 0, 0, 0, EXTENSION_BIT, 0, 0] + infoHash + peerId
  }

  /** None stands for the bad_handshake error. */
  function DecodeHandshake(data: Bytes): Option<(Bytes, Bytes, bool)> {
    if |data| != HANDSHAKE_LENGTH || data[0] != 19 || data[1..20] != Ascii("BitTorrent protocol") then None
    else Some((data[28..48], data[48..68], data[EXTENSION_BYTE] / EXTENSION_BIT % 2 == 1))
  }

  lemma HandshakeRoundTrip(infoHash: Bytes, peerId: Bytes)
    requires |infoHash| == ID_LENGTH && |peerId| == ID_LENGTH
    ensures DecodeHandshake(EncodeHandshake(infoHash, peerId)) == Some((infoHash, peerId, true))
  {
    var name := Ascii("BitTorrent protocol");
    var head := [19 as byte] + name;
    var reserved: Bytes := [0, 0, 0, 0, 0, EXTENSION_BIT, 0, 0];
    var data := EncodeHandshake(infoHash, peerId);
    assert |head| == 20;
    assert data == head + reserved + infoHash + peerId;
    assert data[1..20] == name;
    assert data[EXTENSION_BYTE] == reserved[5];
    assert data[28..48] == infoHash && data[48..68] == peerId;
  }

  // ----- frames and extended messages

  function EncodeFrame(id: byte, payload: Bytes): (r: Bytes)
    requires |payload| + 1 < 0x1_0000_0000
    ensures |r| == 5 + |payload|
  {
    Pack32(1 + |payload|) + [id] + payload
  }

  datatype FrameRead = Frame(id: int, body: Bytes, rest: Bytes) | NeedMore | TooLarge

  const KEEP_ALIVE_ID := -1

  /** read_frame on the bytes that follow in the stream. */
  function ReadFrame(data: Bytes): FrameRead {
    if |data| < 4 then NeedMore
    else
      var length := Unpack32(data, 0);
      if length == 0 then Frame(KEEP_ALIVE_ID, [], data[4..])
      else if length > MAX_FRAME_LENGTH then TooLarge
      else if |data| < 4 + length then NeedMore
      else Frame(data[4], data[5..4 + length], data[4 + length..])
  }

  function DecodeExtendedMessage(body: Bytes): Option<(byte, map<Bytes, Value>, Bytes)> {
    if |body| < 2 then None
    else
      var r := ParseValue(body, 1);
      if r.None? || !r.value.0.Dict? then None
      else Some((body[0], r.value.0.m, body[r.value.1..]))
  }

  /** The body of the frame that encode_extended_message sends. */
  ghost function ExtendedBody(extension: byte, payload: map<Bytes, Value>, trailing: Bytes): (r: Bytes)
    ensures |r| >= 3
  {
    [extension] + Encode(Dict(payload)) + trailing
  }

  /** The dictionary and the raw bytes behind it are both recovered. */
  lemma ExtendedRoundTrip(extension: byte, payload: map<Bytes, Value>, trailing: Bytes)
    ensures DecodeExtendedMessage(ExtendedBody(extension, payload, trailing)) == Some((extension, payload, trailing))
  {
    hide Encode, ParseValue;
    var v := Dict(payload);
    PrefixRoundTrip([extension], v, trailing);
    var body := ExtendedBody(extension, payload, trailing);
    assert body[1 + |Encode(v)|..] == trailing;
  }

  lemma FrameRoundTrip(id: byte, payload: Bytes, rest: Bytes)
    requires |payload| + 1 <= MAX_FRAME_LENGTH
    ensures ReadFrame(EncodeFrame(id, payload) + rest) == Frame(id, payload, rest)
  {
    var head := Pack32(1 + |payload|);
    var data := EncodeFrame(id, payload) + rest;
    assert data[0..4] == head;
    UnpackAt(data, 0, head);
    assert data[5..5 + |payload|] == payload;
    assert data[5 + |payload|..] == rest;
  }

  // ----- ut_metadata

  ghost function RequestPayload(piece: nat): map<Bytes, Value> {
    map[Ascii("msg_type") := Int(MSG_TYPE_REQUEST), Ascii("piece") := Int(piece)]
  }

  function IntAt(m: map<Bytes, Value>, key: Bytes): Option<int> {
    if key in m && m[key].Int? then Some(m[key].n) else None
  }

  /** None stands for the bad_piece error; an absent total_size is None inside. */
  function DecodeMetadataMessage(m: map<Bytes, Value>): Option<(nat, nat, Option<nat>)> {
    var msgType, piece, total := IntAt(m, Ascii("msg_type")), IntAt(m, Ascii("piece")), IntAt(m, Ascii("total_size"));
    if msgType.None? || piece.None? || msgType.value < 0 || piece.value < 0 then None
    else if Ascii("total_size") !in m then Some((msgType.value, piece.value, None))
    else if total.None? || total.value < 0 then None
    else Some((msgType.value, piece.value, Some(total.value)))
  }

  lemma KeysDiffer()
    ensures Ascii("msg_type") != Ascii("piece") && Ascii("msg_type") != Ascii("total_size") &&
            Ascii("piece") != Ascii("total_size")
  {
    assert |Ascii("piece")| == 5 && |Ascii("msg_type")| == 8 && |Ascii("total_size")| == 10;
  }

  /** A peer that decodes the frame sent for a request reads a request for that piece. */
  lemma RequestUnderstood(theirId: byte, piece: nat, rest: Bytes)
    requires |ExtendedBody(theirId, RequestPayload(piece), [])| < MAX_FRAME_LENGTH
    ensures var body := ExtendedBody(theirId, RequestPayload(piece), []);
            ReadFrame(EncodeFrame(MESSAGE_EXTENDED, body) + rest) == Frame(MESSAGE_EXTENDED, body, rest) &&
            DecodeExtendedMessage(body) == Some((theirId, RequestPayload(piece), [])) &&
            DecodeMetadataMessage(RequestPayload(piece)) == Some((MSG_TYPE_REQUEST, piece, None))
  {
    hide Encode, ParseValue;
    FrameRoundTrip(MESSAGE_EXTENDED, ExtendedBody(theirId, RequestPayload(piece), []), rest);
    ExtendedRoundTrip(theirId, RequestPayload(piece), []);
    KeysDiffer();
  }

  // ----- pieces

  function PieceCount(size: nat): (n: nat)
    requires size > 0
    ensures (n - 1) * METADATA_PIECE_SIZE < size <= n * METADATA_PIECE_SIZE
  {
    (size + METADATA_PIECE_SIZE - 1) / METADATA_PIECE_SIZE
  }

  function ExpectedPieceLength(size: nat, piece: nat): (n: nat)
    requires size > 0 && piece < PieceCount(size)
    ensures 0 < n <= METADATA_PIECE_SIZE
    ensures piece + 1 < PieceCount(size) ==> n == METADATA_PIECE_SIZE
    ensures piece + 1 == PieceCount(size) ==> piece * METADATA_PIECE_SIZE + n == size
  {
    if METADATA_PIECE_SIZE <= size - piece * METADATA_PIECE_SIZE then METADATA_PIECE_SIZE
    else size - piece * METADATA_PIECE_SIZE
  }
}
