/** What the codec is for: encoding and decoding undo each other, anywhere in a longer byte string. */
module BencodeProofs {
  import opened ByteStrings
  import opened BencodeCodec

  /** e stands in data at position i. */
  predicate At(data: Bytes, i: nat, e: Bytes) {
    i + |e| <= |data| && data[i..i + |e|] == e
  }

  lemma AtSplit(data: Bytes, i: nat, a: Bytes, b: Bytes)
    requires At(data, i, a + b)
    ensures At(data, i, a) && At(data, i + |a|, b)
  {
    assert data[i..i + |a|] == (a + b)[..|a|];
    assert data[i + |a|..i + |a| + |b|] == (a + b)[|a|..];
  }

  lemma AtTwo(data: Bytes, i: nat, a: Bytes, b: Bytes, c: Bytes)
    requires At(data, i, a + b + c)
    ensures At(data, i, a) && At(data, i + |a|, b + c)
  {
    assert a + b + c == a + (b + c);
    AtSplit(data, i, a, b + c);
  }

  lemma AtThree(data: Bytes, i: nat, a: Bytes, b: Bytes, c: Bytes, d: Bytes)
    requires At(data, i, a + b + c + d)
    ensures At(data, i, a) && At(data, i + |a|, b) && At(data, i + |a| + |b|, c + d)
  {
    assert a + b + c + d == a + (b + c) + d;
    AtTwo(data, i, a, b + c, d);
    AtTwo(data, i + |a|, b, c, d);
  }

  lemma AtIndex(data: Bytes, i: nat, e: Bytes)
    requires At(data, i, e)
    ensures forall k :: i <= k < i + |e| ==> data[k] == e[k - i]
  {
    forall k | i <= k < i + |e| ensures data[k] == e[k - i] {
      assert data[i..i + |e|][k - i] == e[k - i];
    }
  }

  lemma FindAt(data: Bytes, b: byte, from: nat, at: nat)
    requires from <= at < |data| && data[at] == b
    requires forall k :: from <= k < at ==> data[k] != b
    ensures Find(data, b, from) == at
  {
  }

  /** A list or dictionary in data: its opening letter, its body, its closing letter. */
  lemma AtFrame(data: Bytes, i: nat, c: byte, body: Bytes)
    requires At(data, i, [c] + body + [CHAR_E])
    ensures i < |data| && data[i] == c && At(data, i + 1, body + [CHAR_E])
  {
    assert [c] + body + [CHAR_E] == [c] + (body + [CHAR_E]);
    AtSplit(data, i, [c], body + [CHAR_E]);
    AtIndex(data, i, [c]);
  }

  // ----- decoding an encoding

  /** Where the decimal length of an encoded string stands and ends. */
  lemma BytesColon(data: Bytes, i: nat, s: Bytes)
    requires At(data, i, EncodeBytes(s))
    ensures var c := i + |NatText(|s|)|;
            c + 1 + |s| <= |data| && Find(data, COLON, i) == c &&
            data[i..c] == NatText(|s|) && data[c + 1..c + 1 + |s|] == s && IsDigit(data[i])
  {
    hide NatText, Find;
    TextColon(data, i, NatText(|s|), s);
  }

  lemma TextColon(data: Bytes, i: nat, text: Bytes, s: Bytes)
    requires AllDigits(text) && At(data, i, text + [COLON] + s)
    ensures var c := i + |text|;
            c + 1 + |s| <= |data| && Find(data, COLON, i) == c &&
            data[i..c] == text && data[c + 1..c + 1 + |s|] == s && IsDigit(data[i])
  {
    hide Find;
    AtSplit(data, i, text + [COLON], s);
    AtSplit(data, i, text, [COLON]);
    AtIndex(data, i, text);
    AtIndex(data, i + |text|, [COLON]);
    assert forall k :: i <= k < i + |text| ==> IsDigit(data[k]);
    FindAt(data, COLON, i, i + |text|);
  }

  lemma BytesRoundTrip(data: Bytes, i: nat, s: Bytes)
    requires At(data, i, EncodeBytes(s))
    ensures i < |data| && IsDigit(data[i])
    ensures ParseBytes(data, i) == Some((s, i + |EncodeBytes(s)|))
  {
    BytesColon(data, i, s);
    NatTextValue(|s|);
  }

  lemma IntEnd(data: Bytes, i: nat, n: int)
    requires At(data, i, EncodeInt(n))
    ensures var end := i + 1 + |IntText(n)|;
            end < |data| && data[i] == CHAR_I && Find(data, CHAR_E, i + 1) == end && data[i + 1..end] == IntText(n)
  {
    var text := IntText(n);
    AtFrame(data, i, CHAR_I, text);
    AtSplit(data, i + 1, text, [CHAR_E]);
    AtIndex(data, i + 1, text);
    AtIndex(data, i + 1 + |text|, [CHAR_E]);
    forall k | i + 1 <= k < i + 1 + |text| ensures data[k] != CHAR_E {
      assert text[k - i - 1] == MINUS || IsDigit(text[k - i - 1]);
    }
    FindAt(data, CHAR_E, i + 1, i + 1 + |text|);
  }

  lemma IntTextShape(n: int)
    ensures var text := IntText(n); var digits := if n < 0 then text[1..] else text;
            |text| > 0 && (text[0] == MINUS <==> n < 0) && AllDigits(digits) && NoLeadingZero(digits) &&
            text != [MINUS, ZERO] && DigitsValue(digits) == if n < 0 then -n else n
  {
    hide NatText, DigitsValue;
    if n < 0 {
      NatTextValue(-n);
      assert IntText(n)[1..] == NatText(-n);
    } else {
      NatTextValue(n);
      assert IsDigit(IntText(n)[0]);
    }
  }

  lemma IntRoundTrip(data: Bytes, i: nat, n: int)
    requires At(data, i, EncodeInt(n))
    ensures i < |data| && data[i] == CHAR_I
    ensures ParseInt(data, i) == Some((n, i + |EncodeInt(n)|))
  {
    hide At, Find, IntText, DigitsValue, AllDigits;
    IntEnd(data, i, n);
    IntTextShape(n);
  }

  lemma {:induction false} RoundTripAt(data: Bytes, i: nat, v: Value)
    requires At(data, i, Encode(v))
    ensures i < |data| && data[i] != CHAR_E
    ensures ParseValue(data, i) == Some((v, i + |Encode(v)|))
    decreases v, 2, 0
  {
    match v
    case Int(n) => IntRoundTrip(data, i, n);
    case Str(s) => BytesRoundTrip(data, i, s);
    case List(_) => ListRoundTrip(data, i, v);
    case Dict(_) => DictRoundTrip(data, i, v);
  }

  lemma {:induction false} ListRoundTrip(data: Bytes, i: nat, v: Value)
    requires v.List? && At(data, i, Encode(v))
    ensures i < |data| && data[i] == CHAR_L
    ensures ParseItems(data, i + 1, []) == Some((v.items, i + |Encode(v)|))
    decreases v, 1, 0
  {
    hide EncodeItems, ParseItems, ParseValue, Encode;
    ListShape(v);
    AtFrame(data, i, CHAR_L, EncodeItems(v.items));
    ItemsRoundTrip(data, i + 1, v.items, []);
    assert [] + v.items == v.items;
  }

  lemma ListShape(v: Value)
    requires v.List?
    ensures Encode(v) == [CHAR_L] + EncodeItems(v.items) + [CHAR_E]
  {
  }

  lemma DictShape(v: Value)
    requires v.Dict?
    ensures Encode(v) == [CHAR_D] + EncodePairs(v, SortedKeys(v.m)) + [CHAR_E]
  {
    hide EncodePairs, SortedKeys;
  }

  lemma {:induction false} DictRoundTrip(data: Bytes, i: nat, v: Value)
    requires v.Dict? && At(data, i, Encode(v))
    ensures i < |data| && data[i] == CHAR_D
    ensures ParseEntries(data, i + 1, map[]) == Some((v.m, i + |Encode(v)|))
    decreases v, 1, 0
  {
    hide EncodePairs, ParseEntries, ParseValue, Encode, SortedKeys;
    var ks := SortedKeys(v.m);
    DictShape(v);
    AtFrame(data, i, CHAR_D, EncodePairs(v, ks));
    PairsRoundTrip(data, i + 1, v, ks, map[]);
    RestrictAll(v.m);
  }

  lemma ItemsStep(data: Bytes, i: nat, acc: seq<Value>, v: Value, n: nat)
    requires i < |data| && data[i] != CHAR_E && ParseValue(data, i) == Some((v, n))
    ensures n <= |data| && ParseItems(data, i, acc) == ParseItems(data, n, acc + [v])
  {
  }

  lemma ItemsSplit(data: Bytes, i: nat, items: seq<Value>)
    requires items != [] && At(data, i, EncodeItems(items) + [CHAR_E])
    ensures var first, rest := Encode(items[0]), EncodeItems(items[1..]);
            At(data, i, first) && At(data, i + |first|, rest + [CHAR_E]) && |EncodeItems(items)| == |first| + |rest|
  {
    hide Encode;
    AtTwo(data, i, Encode(items[0]), EncodeItems(items[1..]), [CHAR_E]);
  }

  lemma {:induction false} ItemsRoundTrip(data: Bytes, i: nat, items: seq<Value>, acc: seq<Value>)
    requires At(data, i, EncodeItems(items) + [CHAR_E])
    ensures ParseItems(data, i, acc) == Some((acc + items, i + |EncodeItems(items)| + 1))
    decreases items, 0, 0
  {
    hide Encode, ParseValue;
    if items == [] {
      AtIndex(data, i, [CHAR_E]);
      assert acc + items == acc;
    } else {
      ItemsSplit(data, i, items);
      var first := Encode(items[0]);
      RoundTripAt(data, i, items[0]);
      ItemsStep(data, i, acc, items[0], i + |first|);
      ItemsRoundTrip(data, i + |first|, items[1..], acc + [items[0]]);
      assert acc + [items[0]] + items[1..] == acc + items;
    }
  }

  /** The entries of m at the keys ks. */
  function Restrict(m: map<Bytes, Value>, ks: seq<Bytes>): map<Bytes, Value> {
    map k | k in m && k in ks :: m[k]
  }

  lemma PairsSplit(data: Bytes, i: nat, v: Value, ks: seq<Bytes>)
    requires v.Dict? && (forall k :: k in ks ==> k in v.m) && ks != []
    requires At(data, i, EncodePairs(v, ks) + [CHAR_E])
    ensures var key, value, rest := EncodeBytes(ks[0]), Encode(v.m[ks[0]]), EncodePairs(v, ks[1..]);
            At(data, i, key) && At(data, i + |key|, value) && At(data, i + |key| + |value|, rest + [CHAR_E]) &&
            |EncodePairs(v, ks)| == |key| + |value| + |rest|
  {
    hide Encode, EncodeBytes;
    AtThree(data, i, EncodeBytes(ks[0]), Encode(v.m[ks[0]]), EncodePairs(v, ks[1..]), [CHAR_E]);
  }

  lemma RestrictAll(m: map<Bytes, Value>)
    ensures map[] + Restrict(m, SortedKeys(m)) == m
  {
  }

  lemma RestrictStep(m: map<Bytes, Value>, ks: seq<Bytes>, acc: map<Bytes, Value>)
    requires ks != [] && ks[0] in m
    ensures acc[ks[0] := m[ks[0]]] + Restrict(m, ks[1..]) == acc + Restrict(m, ks)
  {
    assert forall k :: k in ks <==> k == ks[0] || k in ks[1..];
  }

  lemma EntriesEnd(data: Bytes, i: nat, acc: map<Bytes, Value>)
    requires i < |data| && data[i] == CHAR_E
    ensures ParseEntries(data, i, acc) == Some((acc, i + 1))
  {
  }

  lemma EntriesStep(data: Bytes, i: nat, acc: map<Bytes, Value>, key: Bytes, p: nat, v: Value, n: nat)
    requires i < |data| && IsDigit(data[i]) && ParseBytes(data, i) == Some((key, p))
    requires p < |data| && ParseValue(data, p) == Some((v, n))
    ensures n <= |data| && ParseEntries(data, i, acc) == ParseEntries(data, n, acc[key := v])
  {
    hide ParseBytes, ParseValue;
  }

  lemma {:induction false} PairsRoundTrip(data: Bytes, i: nat, v: Value, ks: seq<Bytes>, acc: map<Bytes, Value>)
    requires v.Dict? && forall k :: k in ks ==> k in v.m
    requires At(data, i, EncodePairs(v, ks) + [CHAR_E])
    ensures ParseEntries(data, i, acc) == Some((acc + Restrict(v.m, ks), i + |EncodePairs(v, ks)| + 1))
    decreases v, 0, |ks|
  {
    hide Encode, ParseValue, ParseBytes, EncodeBytes, ParseEntries;
    if ks == [] {
      AtIndex(data, i, [CHAR_E]);
      EntriesEnd(data, i, acc);
      assert acc + Restrict(v.m, ks) == acc;
    } else {
      PairsSplit(data, i, v, ks);
      var key, value := EncodeBytes(ks[0]), Encode(v.m[ks[0]]);
      BytesRoundTrip(data, i, ks[0]);
      RoundTripAt(data, i + |key|, v.m[ks[0]]);
      EntriesStep(data, i, acc, ks[0], i + |key|, v.m[ks[0]], i + |key| + |value|);
      PairsRoundTrip(data, i + |key| + |value|, v, ks[1..], acc[ks[0] := v.m[ks[0]]]);
      RestrictStep(v.m, ks, acc);
    }
  }

  /** Whatever stands before and after an encoding, decoding at its start gives the value and stops at its end. */
  lemma PrefixRoundTrip(p: Bytes, v: Value, s: Bytes)
    ensures var data := p + Encode(v) + s;
            |p| < |data| && ParseValue(data, |p|) == Some((v, |p| + |Encode(v)|))
  {
    var data := p + Encode(v) + s;
    assert data[|p|..|p| + |Encode(v)|] == Encode(v);
    RoundTripAt(data, |p|, v);
  }

  /** No encoding is a proper prefix of another: a value followed by raw bytes can be split in one way only. */
  lemma PrefixFree(v: Value, w: Value, s: Bytes, t: Bytes)
    requires Encode(v) + s == Encode(w) + t
    ensures v == w && s == t
  {
    var data := Encode(v) + s;
    assert data[0..|Encode(v)|] == Encode(v);
    assert data[0..|Encode(w)|] == Encode(w) by { assert data == Encode(w) + t; }
    RoundTripAt(data, 0, v);
    RoundTripAt(data, 0, w);
    assert s == data[|Encode(v)|..] && t == data[|Encode(w)|..] by { assert data == Encode(w) + t; }
  }

  lemma DecodeEncode(v: Value)
    ensures Decode(Encode(v)) == Some(v)
  {
    PrefixRoundTrip([], v, []);
    assert [] + Encode(v) + [] == Encode(v);
  }

  // ----- encoding a decoding

  /** The string at i writes its length without a superfluous leading zero. */
  predicate CanonicalBytes(data: Bytes, i: nat)
    requires i < |data|
  {
    var colon := Find(data, COLON, i);
    colon >= 0 && NoLeadingZero(data[i..colon])
  }

  /**
   * A check of the input alone: every string length inside the value at i is written without a leading
   * zero, and the keys of every dictionary strictly increase.
   */
  predicate CanonicalValue(data: Bytes, i: nat)
    requires i < |data|
    decreases |data| - i, 0
  {
    if data[i] == CHAR_I then true
    else if data[i] == CHAR_L then CanonicalItems(data, i + 1)
    else if data[i] == CHAR_D then CanonicalEntries(data, i + 1, None)
    else CanonicalBytes(data, i)
  }

  predicate CanonicalItems(data: Bytes, i: nat)
    requires i <= |data|
    decreases |data| - i, 1
  {
    i < |data| && data[i] != CHAR_E ==>
      CanonicalValue(data, i) &&
      var r := ParseValue(data, i);
      r.Some? ==> CanonicalItems(data, r.value.1)
  }

  predicate CanonicalEntries(data: Bytes, i: nat, last: Option<Bytes>)
    requires i <= |data|
    decreases |data| - i, 1
  {
    i < |data| && data[i] != CHAR_E ==>
      CanonicalBytes(data, i) &&
      var key := ParseBytes(data, i);
      key.Some? && key.value.1 < |data| ==>
        (last.Some? ==> LexLess(last.value, key.value.0)) &&
        CanonicalValue(data, key.value.1) &&
        var r := ParseValue(data, key.value.1);
        r.Some? ==> CanonicalEntries(data, r.value.1, Some(key.value.0))
  }

  lemma BytesReencode(data: Bytes, i: nat)
    requires i < |data| && ParseBytes(data, i).Some? && CanonicalBytes(data, i)
    ensures var (s, n) := ParseBytes(data, i).value; data[i..n] == EncodeBytes(s)
  {
    var (s, n) := ParseBytes(data, i).value;
    var colon := Find(data, COLON, i);
    CanonicalDigits(data[i..colon]);
    assert data[i..n] == data[i..colon] + [data[colon]] + data[colon + 1..n];
  }

  /** An integer text the decoder accepts is the one the encoder writes. */
  lemma NegativeText(digits: Bytes)
    requires AllDigits(digits) && NoLeadingZero(digits) && digits != [ZERO]
    ensures IntText(-(DigitsValue(digits) as int)) == [MINUS] + digits
  {
    CanonicalDigits(digits);
    assert NatText(0) == [ZERO];
  }

  lemma PositiveText(digits: Bytes)
    requires AllDigits(digits) && NoLeadingZero(digits)
    ensures IntText(DigitsValue(digits)) == digits
  {
    CanonicalDigits(digits);
  }

  lemma IntTextBack(data: Bytes, i: nat)
    requires i < |data| && ParseInt(data, i).Some?
    ensures var (v, n) := ParseInt(data, i).value;
            n >= i + 2 && data[n - 1] == CHAR_E && data[i + 1..n - 1] == IntText(v)
  {
    hide Find, DigitsValue, NatText, IntText;
    var text := data[i + 1..Find(data, CHAR_E, i + 1)];
    if text[0] == MINUS {
      assert text == [MINUS] + text[1..];
      NegativeText(text[1..]);
    } else {
      PositiveText(text);
    }
  }

  lemma IntReencode(data: Bytes, i: nat)
    requires i < |data| && data[i] == CHAR_I && ParseInt(data, i).Some?
    ensures var (v, n) := ParseInt(data, i).value; data[i..n] == EncodeInt(v)
  {
    hide ParseInt, Find, IntText;
    var (v, n) := ParseInt(data, i).value;
    IntTextBack(data, i);
    Framed(data, i, n, IntText(v));
  }

  lemma {:induction false} ValueReencode(data: Bytes, i: nat)
    requires i < |data| && ParseValue(data, i).Some? && CanonicalValue(data, i)
    ensures var (v, n) := ParseValue(data, i).value; data[i..n] == Encode(v)
    decreases |data| - i, 0
  {
    hide ParseInt, ParseBytes, ParseItems, ParseEntries, EncodeInt, EncodeBytes, EncodeItems, EncodePairs,
         CanonicalItems, CanonicalEntries, CanonicalBytes, SortedKeys;
    var (v, n) := ParseValue(data, i).value;
    match v
    case Int(_) => IntReencode(data, i);
    case Str(_) => BytesReencode(data, i);
    case List(items) =>
      var more := ItemsReencode(data, i + 1, []);
      assert items == more;
      Framed(data, i, n, EncodeItems(items));
    case Dict(m) =>
      var ks := EntriesReencode(data, i + 1, map[], None, v);
      SortedUnique(ks, SortedKeys(m));
      Framed(data, i, n, EncodePairs(v, SortedKeys(m)));
  }

  lemma Framed(data: Bytes, i: nat, n: nat, body: Bytes)
    requires i + 2 <= n <= |data| && data[i + 1..n - 1] == body
    ensures data[i..n] == [data[i]] + body + [data[n - 1]]
  {
  }

  lemma Glue(data: Bytes, i: nat, p: nat, q: nat)
    requires i <= p <= q <= |data|
    ensures data[i..q] == data[i..p] + data[p..q]
  {
  }

  lemma {:induction false} ItemsReencode(data: Bytes, i: nat, acc: seq<Value>) returns (more: seq<Value>)
    requires i <= |data| && ParseItems(data, i, acc).Some? && CanonicalItems(data, i)
    ensures var (items, n) := ParseItems(data, i, acc).value;
            items == acc + more && data[n - 1] == CHAR_E && data[i..n - 1] == EncodeItems(more)
    decreases |data| - i, 1
  {
    hide Encode, ParseValue, CanonicalValue;
    if data[i] == CHAR_E {
      more := [];
    } else {
      var (v, p) := ParseValue(data, i).value;
      ValueReencode(data, i);
      var rest := ItemsReencode(data, p, acc + [v]);
      more := [v] + rest;
      Glue(data, i, p, ParseItems(data, i, acc).value.1 - 1);
      assert more[1..] == rest;
    }
  }

  /** The first entry of a dictionary body that passes the check. */
  lemma EntriesHead(data: Bytes, i: nat, acc: map<Bytes, Value>, last: Option<Bytes>)
    requires i < |data| && data[i] != CHAR_E && ParseEntries(data, i, acc).Some? && CanonicalEntries(data, i, last)
    ensures ParseBytes(data, i).Some? && CanonicalBytes(data, i)
    ensures var (key, p) := ParseBytes(data, i).value;
            p < |data| && (last.Some? ==> LexLess(last.value, key)) &&
            ParseValue(data, p).Some? && CanonicalValue(data, p) &&
            var (v, q) := ParseValue(data, p).value;
            CanonicalEntries(data, q, Some(key)) &&
            ParseEntries(data, i, acc) == ParseEntries(data, q, acc[key := v])
  {
    hide ParseBytes, ParseValue, CanonicalValue, CanonicalBytes, LexLess;
  }

  lemma KeysBefore(acc: map<Bytes, Value>, last: Option<Bytes>, key: Bytes)
    requires forall k :: k in acc ==> last.Some? && (k == last.value || LexLess(k, last.value))
    requires last.Some? ==> LexLess(last.value, key)
    ensures key !in acc && forall k :: k in acc ==> LexLess(k, key)
  {
    hide LexLess;
    forall k | k in acc ensures LexLess(k, key) && k != key {
      if k != last.value { LexTransitive(k, last.value, key); }
      LexTotal(k, key);
    }
  }

  /** `key` after `last`, then `rest` after that. */
  lemma KeysInOrder(last: Option<Bytes>, key: Bytes, rest: seq<Bytes>)
    requires last.Some? ==> LexLess(last.value, key)
    requires StrictlySorted(rest) && forall k :: k in rest ==> LexLess(key, k)
    ensures StrictlySorted([key] + rest)
    ensures last.Some? ==> forall k :: k in [key] + rest ==> LexLess(last.value, k)
  {
    hide LexLess;
    assert forall j :: 0 <= j < |rest| ==> rest[j] in rest;
    if last.Some? {
      forall k | k in rest ensures LexLess(last.value, k) { LexTransitive(last.value, key, k); }
    }
  }

  /** The keys read from i on, and that the bytes read are the encoding of whole's entries at them. */
  lemma {:induction false} EntriesReencode(data: Bytes, i: nat, acc: map<Bytes, Value>, last: Option<Bytes>, whole: Value)
    returns (ks: seq<Bytes>)
    requires i <= |data| && ParseEntries(data, i, acc).Some? && CanonicalEntries(data, i, last)
    requires whole.Dict? && whole.m == ParseEntries(data, i, acc).value.0
    requires forall k :: k in acc ==> last.Some? && (k == last.value || LexLess(k, last.value))
    ensures StrictlySorted(ks)
    ensures last.Some? ==> forall k :: k in ks ==> LexLess(last.value, k)
    ensures forall k :: k in whole.m <==> k in acc || k in ks
    ensures forall k :: k in acc ==> whole.m[k] == acc[k]
    ensures var n := ParseEntries(data, i, acc).value.1;
            data[n - 1] == CHAR_E && data[i..n - 1] == EncodePairs(whole, ks)
    decreases |data| - i, 1
  {
    hide Encode, EncodeBytes, ParseValue, ParseBytes, CanonicalValue, CanonicalBytes, CanonicalEntries, LexLess, ParseEntries, EncodePairs, StrictlySorted;
    EntriesInside(data, i, acc);
    if data[i] == CHAR_E {
      EntriesEnd(data, i, acc);
      ks := [];
      NoPairs(whole);
    } else {
      EntriesHead(data, i, acc, last);
      var (key, p) := ParseBytes(data, i).value;
      var (v, q) := ParseValue(data, p).value;
      BytesReencode(data, i);
      ValueReencode(data, p);
      KeysBefore(acc, last, key);
      var rest := EntriesReencode(data, q, acc[key := v], Some(key), whole);
      ks := [key] + rest;
      KeysInOrder(last, key, rest);
      PairsCons(whole, key, rest);
      var n := ParseEntries(data, i, acc).value.1;
      Glue(data, i, p, q);
      Glue(data, i, q, n - 1);
    }
  }

  lemma EntriesInside(data: Bytes, i: nat, acc: map<Bytes, Value>)
    requires i <= |data| && ParseEntries(data, i, acc).Some?
    ensures i < |data|
  {
  }

  lemma NoPairs(v: Value)
    requires v.Dict?
    ensures EncodePairs(v, []) == [] && StrictlySorted([])
  {
  }

  lemma PairsCons(v: Value, key: Bytes, rest: seq<Bytes>)
    requires v.Dict? && key in v.m && forall k :: k in rest ==> k in v.m
    ensures EncodePairs(v, [key] + rest) == EncodeBytes(key) + Encode(v.m[key]) + EncodePairs(v, rest)
  {
    hide Encode, EncodeBytes;
    assert ([key] + rest)[1..] == rest;
  }

  lemma BytesCanonical(data: Bytes, i: nat, s: Bytes)
    requires At(data, i, EncodeBytes(s))
    ensures i < |data| && CanonicalBytes(data, i)
  {
    BytesColon(data, i, s);
  }

  /** What the encoder writes passes the check. */
  lemma {:induction false} ValueCanonical(data: Bytes, i: nat, v: Value)
    requires At(data, i, Encode(v))
    ensures i < |data| && CanonicalValue(data, i)
    decreases v, 1, 0
  {
    RoundTripAt(data, i, v);
    match v
    case Int(_) =>
    case Str(s) => BytesCanonical(data, i, s);
    case List(items) =>
      AtFrame(data, i, CHAR_L, EncodeItems(items));
      ItemsCanonical(data, i + 1, items);
    case Dict(m) =>
      var ks := SortedKeys(m);
      AtFrame(data, i, CHAR_D, EncodePairs(v, ks));
      PairsCanonical(data, i + 1, v, ks, None);
  }

  lemma {:induction false} ItemsCanonical(data: Bytes, i: nat, items: seq<Value>)
    requires At(data, i, EncodeItems(items) + [CHAR_E])
    ensures i <= |data| && CanonicalItems(data, i)
    decreases items, 0, 0
  {
    hide Encode, ParseValue, CanonicalValue;
    if items == [] {
      AtIndex(data, i, [CHAR_E]);
    } else {
      ItemsSplit(data, i, items);
      RoundTripAt(data, i, items[0]);
      ValueCanonical(data, i, items[0]);
      ItemsCanonical(data, i + |Encode(items[0])|, items[1..]);
    }
  }

  lemma {:induction false} PairsCanonical(data: Bytes, i: nat, v: Value, ks: seq<Bytes>, last: Option<Bytes>)
    requires v.Dict? && (forall k :: k in ks ==> k in v.m) && StrictlySorted(ks)
    requires last.Some? && ks != [] ==> LexLess(last.value, ks[0])
    requires At(data, i, EncodePairs(v, ks) + [CHAR_E])
    ensures i <= |data| && CanonicalEntries(data, i, last)
    decreases v, 0, |ks|
  {
    hide Encode, EncodeBytes, ParseValue, ParseBytes, CanonicalValue, CanonicalBytes, LexLess;
    if ks == [] {
      AtIndex(data, i, [CHAR_E]);
    } else {
      PairsSplit(data, i, v, ks);
      var key, value := EncodeBytes(ks[0]), Encode(v.m[ks[0]]);
      BytesRoundTrip(data, i, ks[0]);
      BytesCanonical(data, i, ks[0]);
      RoundTripAt(data, i + |key|, v.m[ks[0]]);
      ValueCanonical(data, i + |key|, v.m[ks[0]]);
      PairsCanonical(data, i + |key| + |value|, v, ks[1..], Some(ks[0]));
    }
  }

  /** Encoding what was decoded gives back the bytes read exactly when they pass the check. */
  lemma ReencodeIffCanonical(data: Bytes, i: nat)
    requires i < |data| && ParseValue(data, i).Some?
    ensures var (v, n) := ParseValue(data, i).value;
            Encode(v) == data[i..n] <==> CanonicalValue(data, i)
  {
    var (v, n) := ParseValue(data, i).value;
    if CanonicalValue(data, i) {
      ValueReencode(data, i);
    }
    if Encode(v) == data[i..n] {
      assert At(data, i, Encode(v));
      ValueCanonical(data, i, v);
    }
  }

  /** The same for whole messages; and normalising a message twice changes nothing more. */
  lemma DecodeNormalises(x: Bytes)
    requires Decode(x).Some?
    ensures Decode(Encode(Decode(x).value)) == Decode(x)
    ensures Encode(Decode(x).value) == x <==> CanonicalValue(x, 0)
  {
    DecodeEncode(Decode(x).value);
    ReencodeIffCanonical(x, 0);
    assert x[0..|x|] == x;
  }
}
