/** bencode_codec.py: the BEP 3 encoder, and the decoder that reads a value at a position of a byte string. */
module BencodeCodec {
  import opened ByteStrings

  datatype Value =
    | Int(n: int)
    | Str(s: Bytes)
    | List(items: seq<Value>)
    | Dict(m: map<Bytes, Value>)

  const CHAR_I: byte := 105
  const CHAR_L: byte := 108
  const CHAR_D: byte := 100
  const CHAR_E: byte := 101

  // ----- encoder

  function IntText(n: int): Bytes {
    if n < 0 then [MINUS] + NatText(-n) else NatText(n)
  }

  function EncodeInt(n: int): Bytes {
    [CHAR_I] + IntText(n) + [CHAR_E]
  }

  function EncodeBytes(s: Bytes): Bytes {
    NatText(|s|) + [COLON] + s
  }

  /** sorted() of a dictionary's keys. */
  ghost function SortedKeys(m: map<Bytes, Value>): (r: seq<Bytes>)
    ensures StrictlySorted(r)
    ensures forall k :: k in r <==> k in m
  {
    var ks := Sorted(m.Keys);
    var r: seq<Bytes> := seq(|ks|, i requires 0 <= i < |ks| => assert ks[i] in m.Keys; var k: Bytes := ks[i]; k);
    assert r == ks;
    r
  }

  ghost function Encode(v: Value): (r: Bytes)
    ensures |r| >= 2
    decreases v, 1, 0
  {
    match v
    case Int(n) => EncodeInt(n)
    case Str(s) => EncodeBytes(s)
    case List(items) => [CHAR_L] + EncodeItems(items) + [CHAR_E]
    case Dict(m) => [CHAR_D] + EncodePairs(v, SortedKeys(m)) + [CHAR_E]
  }

  ghost function EncodeItems(items: seq<Value>): Bytes
    decreases items, 0, 0
  {
    if items == [] then [] else Encode(items[0]) + EncodeItems(items[1..])
  }

  /** The entries of dictionary v at the keys ks, in that order. */
  ghost function EncodePairs(v: Value, ks: seq<Bytes>): Bytes
    requires v.Dict? && forall k :: k in ks ==> k in v.m
    decreases v, 0, |ks|
  {
    if ks == [] then [] else EncodeBytes(ks[0]) + Encode(v.m[ks[0]]) + EncodePairs(v, ks[1..])
  }

  // ----- decoder; None stands for ValueError

  function ParseInt(data: Bytes, i: nat): (r: Option<(int, nat)>)
    requires i < |data|
    ensures r.Some? ==> i < r.value.1 <= |data|
  {
    var end := Find(data, CHAR_E, i + 1);
    if end < 0 then None
    else
      var text := data[i + 1..end];
      var digits := if |text| > 0 && text[0] == MINUS then text[1..] else text;
      if !AllDigits(digits) || (|digits| > 1 && digits[0] == ZERO) || text == [MINUS, ZERO] then None
      else
        var magnitude: int := DigitsValue(digits);
        Some((if text[0] == MINUS then -magnitude else magnitude, end + 1))
  }

  function ParseBytes(data: Bytes, i: nat): (r: Option<(Bytes, nat)>)
    requires i < |data|
    ensures r.Some? ==> i < r.value.1 <= |data|
  {
    var colon := Find(data, COLON, i);
    if colon < 0 || !AllDigits(data[i..colon]) then None
    else
      var start := colon + 1;
      var next := start + DigitsValue(data[i..colon]);
      if next > |data| then None else Some((data[start..next], next))
  }

  function ParseValue(data: Bytes, i: nat): (r: Option<(Value, nat)>)
    requires i < |data|
    ensures r.Some? ==> i < r.value.1 <= |data|
    decreases |data| - i, 0
  {
    if data[i] == CHAR_I then
      var r := ParseInt(data, i);
      if r.None? then None else Some((Int(r.value.0), r.value.1))
    else if data[i] == CHAR_L then
      var r := ParseItems(data, i + 1, []);
      if r.None? then None else Some((List(r.value.0), r.value.1))
    else if data[i] == CHAR_D then
      var r := ParseEntries(data, i + 1, map[]);
      if r.None? then None else Some((Dict(r.value.0), r.value.1))
    else if IsDigit(data[i]) then
      var r := ParseBytes(data, i);
      if r.None? then None else Some((Str(r.value.0), r.value.1))
    else None
  }

  /** The rest of a list whose items so far are acc. */
  function ParseItems(data: Bytes, i: nat, acc: seq<Value>): (r: Option<(seq<Value>, nat)>)
    requires i <= |data|
    ensures r.Some? ==> i < r.value.1 <= |data|
    decreases |data| - i, 1
  {
    if i >= |data| then None
    else if data[i] == CHAR_E then Some((acc, i + 1))
    else
      var r := ParseValue(data, i);
      if r.None? then None else ParseItems(data, r.value.1, acc + [r.value.0])
  }

  /** The rest of a dictionary whose entries so far are acc; a repeated key keeps its last value. */
  function ParseEntries(data: Bytes, i: nat, acc: map<Bytes, Value>): (r: Option<(map<Bytes, Value>, nat)>)
    requires i <= |data|
    ensures r.Some? ==> i < r.value.1 <= |data|
    decreases |data| - i, 1
  {
    if i >= |data| then None
    else if data[i] == CHAR_E then Some((acc, i + 1))
    else if !IsDigit(data[i]) then None
    else
      var key := ParseBytes(data, i);
      if key.None? || key.value.1 >= |data| then None
      else
        var r := ParseValue(data, key.value.1);
        if r.None? then None else ParseEntries(data, r.value.1, acc[key.value.0 := r.value.0])
  }

  // ----- the decoder in the loops of the source

  method DecodeListAt(data: Bytes, index: nat) returns (r: Option<(seq<Value>, nat)>)
    requires index < |data| && data[index] == CHAR_L
    ensures r == ParseItems(data, index + 1, [])
    decreases |data| - index, 0
  {
    var items: seq<Value> := [];
    var position := index + 1;
    while true
      invariant index < position <= |data|
      invariant ParseItems(data, position, items) == ParseItems(data, index + 1, [])
      decreases |data| - position
    {
      if position >= |data| { return None; }
      if data[position] == CHAR_E { break; }
      var item := DecodeValueAt(data, position);
      if item.None? { return None; }
      position := item.value.1;
      items := items + [item.value.0];
    }
    r := Some((items, position + 1));
  }

  method DecodeDictAt(data: Bytes, index: nat) returns (r: Option<(map<Bytes, Value>, nat)>)
    requires index < |data| && data[index] == CHAR_D
    ensures r == ParseEntries(data, index + 1, map[])
    decreases |data| - index, 0
  {
    var items: map<Bytes, Value> := map[];
    var position := index + 1;
    while true
      invariant index < position <= |data|
      invariant ParseEntries(data, position, items) == ParseEntries(data, index + 1, map[])
      decreases |data| - position
    {
      if position >= |data| { return None; }
      if data[position] == CHAR_E { break; }
      if !IsDigit(data[position]) { return None; }
      var key := ParseBytes(data, position);
      if key.None? { return None; }
      if key.value.1 >= |data| { return None; }
      var value := DecodeValueAt(data, key.value.1);
      if value.None? { return None; }
      position := value.value.1;
      items := items[key.value.0 := value.value.0];
    }
    r := Some((items, position + 1));
  }

  method DecodeValueAt(data: Bytes, index: nat) returns (r: Option<(Value, nat)>)
    requires index < |data|
    ensures r == ParseValue(data, index)
    decreases |data| - index, 1
  {
    if data[index] == CHAR_I {
      var n := ParseInt(data, index);
      r := if n.None? then None else Some((Int(n.value.0), n.value.1));
    } else if data[index] == CHAR_L {
      var items := DecodeListAt(data, index);
      r := if items.None? then None else Some((List(items.value.0), items.value.1));
    } else if data[index] == CHAR_D {
      var entries := DecodeDictAt(data, index);
      r := if entries.None? then None else Some((Dict(entries.value.0), entries.value.1));
    } else if IsDigit(data[index]) {
      var s := ParseBytes(data, index);
      r := if s.None? then None else Some((Str(s.value.0), s.value.1));
    } else {
      r := None;
    }
  }

  /** decode_bencode: the whole input must be one value. */
  function Decode(data: Bytes): Option<Value> {
    if data == [] then None
    else
      var r := ParseValue(data, 0);
      if r.None? || r.value.1 != |data| then None else Some(r.value.0)
  }

  method DecodeBencode(data: Bytes) returns (r: Option<Value>)
    ensures r == Decode(data)
  {
    if |data| == 0 { return None; }
    var v := DecodeValueAt(data, 0);
    if v.None? { return None; }
    r := if v.value.1 != |data| then None else Some(v.value.0);
  }
}
