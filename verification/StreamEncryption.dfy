/** stream_encryption.py: RC4, the stream that encrypts with it, and the receiving half of the negotiation. */
module StreamEncryption {
  import opened ByteStrings
  import opened BigEndian
  import opened Bits

  /** a ^ b */
  function Xor(a: byte, b: byte): byte {
    assert Power2(8) == 256;
    XorBits(a, b, 8)
  }

  lemma XorTwice(a: byte, b: byte)
    ensures Xor(Xor(a, b), b) == a
  {
    assert Power2(8) == 256;
    XorBitsTwice(a, b, 8);
  }

  // ----- RC4 as a function of its state

  type Table = s: seq<byte> | |s| == 256 witness seq(256, _ => 0)
  datatype RcState = RcState(perm: Table, i: byte, j: byte)

  function Identity(): Table {
    seq(256, k requires 0 <= k < 256 => k)
  }

  /** sorted(state) == list(range(256)) */
  predicate IsPermutation(s: seq<byte>) {
    |s| == 256 && multiset(s) == multiset(Identity())
  }

  function Swapped(s: Table, a: byte, b: byte): Table {
    s[a := s[b]][b := s[a]]
  }

  /** (a + b) & 0xFF */
  function Add(a: byte, b: byte): byte {
    (a as int + b as int) % 256
  }

  /** One step of the keystream. */
  function Next(st: RcState): (RcState, byte) {
    var i := Add(st.i, 1);
    var j := Add(st.j, st.perm[i]);
    var perm := Swapped(st.perm, i, j);
    (RcState(perm, i, j), perm[Add(perm[i], perm[j])])
  }

  function Crypt(st: RcState, data: Bytes): (r: (RcState, Bytes))
    ensures |r.1| == |data|
    decreases |data|
  {
    if data == [] then (st, [])
    else
      var (st1, k) := Next(st);
      var (st2, out) := Crypt(st1, data[1..]);
      (st2, [Xor(data[0], k)] + out)
  }

  lemma SwapPermutes(s: Table, a: byte, b: byte)
    ensures multiset(Swapped(s, a, b)) == multiset(s)
  {
    var t := s[a := s[b]];
    assert multiset(t) == multiset(s) - multiset{s[a]} + multiset{s[b]};
    assert multiset(Swapped(s, a, b)) == multiset(t) - multiset{t[b]} + multiset{s[a]};
  }

  /** Encrypting never spoils the permutation. */
  lemma {:induction false} CryptPermutes(st: RcState, data: Bytes)
    requires IsPermutation(st.perm)
    ensures IsPermutation(Crypt(st, data).0.perm)
    decreases |data|
  {
    if data != [] {
      var i := Add(st.i, 1);
      SwapPermutes(st.perm, i, Add(st.j, st.perm[i]));
      CryptPermutes(Next(st).0, data[1..]);
    }
  }

  /** One call on a + b is two calls, on a and then on b. */
  lemma {:induction false} CryptConcat(st: RcState, a: Bytes, b: Bytes)
    ensures Crypt(st, a + b) == (Crypt(Crypt(st, a).0, b).0, Crypt(st, a).1 + Crypt(Crypt(st, a).0, b).1)
    decreases |a|
  {
    hide Next, Xor;
    if a == [] {
      assert a + b == b && a + Crypt(st, b).1 == Crypt(st, b).1;
    } else {
      var (st1, k) := Next(st);
      assert (a + b)[1..] == a[1..] + b;
      CryptConcat(st1, a[1..], b);
      assert a + b != [] && (a + b)[0] == a[0];
      var x, A, B := [Xor(a[0], k)], Crypt(st1, a[1..]).1, Crypt(Crypt(st1, a[1..]).0, b).1;
      assert x + (A + B) == x + A + B;
    }
  }

  /** The same keystream undoes itself and ends in the same state. */
  lemma {:induction false} CryptInverts(st: RcState, data: Bytes)
    ensures Crypt(st, Crypt(st, data).1) == (Crypt(st, data).0, data)
    decreases |data|
  {
    hide Next;
    if data != [] {
      var (st1, k) := Next(st);
      CryptInverts(st1, data[1..]);
      var out := Crypt(st, data).1;
      assert out[1..] == Crypt(st1, data[1..]).1;
      XorTwice(data[0], k);
      assert [data[0]] + data[1..] == data;
    }
  }

  // ----- chunks: what a stream of calls does

  function Flatten(chunks: seq<Bytes>): Bytes {
    if chunks == [] then [] else chunks[0] + Flatten(chunks[1..])
  }

  /** crypt called on each chunk in turn. */
  function CryptEach(st: RcState, chunks: seq<Bytes>): (r: (RcState, seq<Bytes>))
    ensures |r.1| == |chunks|
    decreases |chunks|
  {
    if chunks == [] then (st, [])
    else
      var (st1, out) := Crypt(st, chunks[0]);
      var (st2, rest) := CryptEach(st1, chunks[1..]);
      (st2, [out] + rest)
  }

  lemma {:induction false} ChunksDoNotMatter(st: RcState, chunks: seq<Bytes>)
    ensures CryptEach(st, chunks).0 == Crypt(st, Flatten(chunks)).0
    ensures Flatten(CryptEach(st, chunks).1) == Crypt(st, Flatten(chunks)).1
    decreases |chunks|
  {
    if chunks != [] {
      hide Crypt, Next;
      var (st1, out) := Crypt(st, chunks[0]);
      ChunksDoNotMatter(st1, chunks[1..]);
      CryptConcat(st, chunks[0], Flatten(chunks[1..]));
      var all := CryptEach(st, chunks).1;
      assert all[1..] == CryptEach(st1, chunks[1..]).1;
    } else {
      assert Crypt(st, []) == (st, []);
    }
  }

  /**
   * A stream written in some chunks with one cipher and read in other chunks with a cipher in the same
   * state: the reader gets the written bytes, and both ciphers end in the same state.
   */
  lemma StreamTransparent(st: RcState, written: seq<Bytes>, arrived: seq<Bytes>)
    requires IsPermutation(st.perm)
    requires Flatten(arrived) == Flatten(CryptEach(st, written).1)
    ensures Flatten(CryptEach(st, arrived).1) == Flatten(written)
    ensures CryptEach(st, arrived).0 == CryptEach(st, written).0
    ensures IsPermutation(CryptEach(st, written).0.perm)
  {
    hide Crypt, Next, CryptEach, Flatten, IsPermutation;
    ChunksDoNotMatter(st, written);
    ChunksDoNotMatter(st, arrived);
    CryptInverts(st, Flatten(written));
    CryptPermutes(st, Flatten(written));
  }

  // ----- the class, updated in place

  function KeyStep(s: Table, j: byte, i: byte, key: Bytes): (Table, byte)
    requires key != []
  {
    var j' := Add(Add(j, s[i]), key[i % |key|]);
    (Swapped(s, i, j'), j')
  }

  /** The key schedule after n rounds. */
  function Scheduled(key: Bytes, n: nat): (Table, byte)
    requires key != [] && n <= 256
  {
    if n == 0 then (Identity(), 0) else
      var (s, j) := Scheduled(key, n - 1);
      KeyStep(s, j, n - 1, key)
  }

  lemma {:induction false} SchedulePermutes(key: Bytes, n: nat)
    requires key != [] && n <= 256
    ensures IsPermutation(Scheduled(key, n).0)
  {
    if n > 0 {
      SchedulePermutes(key, n - 1);
      var (s, j) := Scheduled(key, n - 1);
      SwapPermutes(s, n - 1, Add(Add(j, s[n - 1]), key[(n - 1) % |key|]));
    }
  }

  class Rc4 {
    var state: array<byte>
    var i: byte
    var j: byte

    ghost predicate Valid()
      reads this, state
    {
      IsPermutation(state[..])
    }

    ghost function Abs(): (st: RcState)
      reads this, state
      requires Valid()
    {
      RcState(state[..], i, j)
    }

    constructor (key: Bytes)
      requires 1 <= |key| <= 256
      ensures Valid() && fresh(state) && Abs() == RcState(Scheduled(key, 256).0, 0, 0)
    {
      var table := new byte[256](k requires 0 <= k < 256 => k);
      var pos: byte := 0;
      var n := 0;
      assert table[..] == Identity();
      while n < 256
        invariant 0 <= n <= 256
        invariant (table[..], pos) == Scheduled(key, n)
      {
        pos := Add(Add(pos, table[n]), key[n % |key|]);
        table[n], table[pos] := table[pos], table[n];
        n := n + 1;
      }
      SchedulePermutes(key, 256);
      state := table;
      i := 0;
      j := 0;
    }

    constructor Copy(other: Rc4)
      requires other.Valid()
      ensures Valid() && fresh(state) && Abs() == other.Abs()
    {
      var table := new byte[256](k requires 0 <= k < 256 && other.state.Length == 256 reads other, other.state => other.state[k]);
      assert table[..] == other.state[..];
      state := table;
      i := other.i;
      j := other.j;
    }

    /** crypt: the output is made in place on a copy of the input. */
    method Encrypt(data: Bytes) returns (result: Bytes)
      requires Valid()
      modifies this, state
      ensures Valid() && state == old(state)
      ensures (Abs(), result) == Crypt(old(Abs()), data)
    {
      hide Crypt, Xor, IsPermutation;
      PermutationSize(state[..]);
      ghost var start := Abs();
      CryptEmpty(start);
      var output := new byte[|data|](k requires 0 <= k < |data| => data[k]);
      var a, b := i, j;
      var index := 0;
      assert data[..0] == [] && output[..] == data;
      while index < output.Length
        invariant 0 <= index <= output.Length == |data|
        invariant state.Length == 256
        invariant (RcState(state[..], a, b), output[..index]) == Crypt(start, data[..index])
        invariant output[index..] == data[index..]
        modifies state, output
      {
        ghost var before, done := RcState(state[..], a, b), output[..index];
        assert output[index] == data[index] by { assert output[index..][0] == data[index..][0]; }
        a := Add(a, 1);
        b := Add(b, state[a]);
        state[a], state[b] := state[b], state[a];
        output[index] := Xor(output[index], state[Add(state[a], state[b])]);
        assert state[..] == Next(before).0.perm;
        assert output[..index + 1] == done + [Xor(data[index], Next(before).1)];
        CryptOne(start, data, index, before, done);
        index := index + 1;
      }
      i, j := a, b;
      assert data[..|data|] == data && output[..index] == output[..];
      CryptPermutes(start, data);
      result := output[..];
    }
  }

  lemma PermutationSize(s: seq<byte>)
    ensures IsPermutation(s) ==> |s| == 256
  {
  }

  lemma CryptEmpty(st: RcState)
    ensures Crypt(st, []) == (st, [])
  {
  }

  lemma CryptSingle(st: RcState, b: byte)
    ensures Crypt(st, [b]) == (Next(st).0, [Xor(b, Next(st).1)])
  {
    hide Next, Xor;
    var one: Bytes := [b];
    assert one[1..] == [];
    assert Crypt(Next(st).0, []) == (Next(st).0, []);
    assert [Xor(b, Next(st).1)] + [] == [Xor(b, Next(st).1)];
  }

  lemma CryptOne(st: RcState, data: Bytes, index: nat, before: RcState, done: Bytes)
    requires index < |data| && (before, done) == Crypt(st, data[..index])
    ensures Crypt(st, data[..index + 1]) == (Next(before).0, done + [Xor(data[index], Next(before).1)])
  {
    hide Next, Xor;
    assert data[..index + 1] == data[..index] + [data[index]];
    CryptConcat(st, data[..index], [data[index]]);
    CryptSingle(before, data[index]);
  }

  const RC4_DISCARD := 1024

  function Zeros(n: nat): Bytes {
    seq(n, _ => 0)
  }

  /** mse_cipher: the first 1024 bytes of the keystream are thrown away. */
  method MseCipher(key: Bytes) returns (cipher: Rc4)
    requires |key| == 20
    ensures fresh(cipher) && fresh(cipher.state) && cipher.Valid()
    ensures cipher.Abs() == Crypt(RcState(Scheduled(key, 256).0, 0, 0), Zeros(RC4_DISCARD)).0
  {
    cipher := new Rc4(key);
    var _ := cipher.Encrypt(Zeros(RC4_DISCARD));
  }

  /** A stream that decrypts what it reads and encrypts what it writes; without ciphers it changes nothing. */
  class EncryptedStream {
    const encryptor: Rc4?
    const decryptor: Rc4?

    constructor (encryptor: Rc4?, decryptor: Rc4?)
      requires (encryptor == null) == (decryptor == null)
      ensures this.encryptor == encryptor && this.decryptor == decryptor
    {
      this.encryptor, this.decryptor := encryptor, decryptor;
    }

    method Write(data: Bytes) returns (wire: Bytes)
      requires encryptor != null ==> encryptor.Valid()
      modifies encryptor, if encryptor == null then {} else {encryptor.state}
      ensures encryptor == null ==> wire == data
      ensures encryptor != null ==> encryptor.Valid() && encryptor.state == old(encryptor.state)
      ensures encryptor != null ==> (encryptor.Abs(), wire) == Crypt(old(encryptor.Abs()), data)
    {
      if encryptor != null { wire := encryptor.Encrypt(data); } else { wire := data; }
    }

    method Read(wire: Bytes) returns (data: Bytes)
      requires decryptor != null ==> decryptor.Valid()
      modifies decryptor, if decryptor == null then {} else {decryptor.state}
      ensures decryptor == null ==> data == wire
      ensures decryptor != null ==> decryptor.Valid() && decryptor.state == old(decryptor.state)
      ensures decryptor != null ==> (decryptor.Abs(), data) == Crypt(old(decryptor.Abs()), wire)
    {
      if decryptor != null { data := decryptor.Encrypt(wire); } else { data := wire; }
    }
  }

  // ----- the receiving half of negotiate_encryption

  const MAX_PAD_LENGTH := 512
  const CRYPTO_PLAINTEXT := 1
  const CRYPTO_RC4 := 2

  datatype Negotiation = Selected(select: nat) | EncryptionFailed | StreamEnded

  predicate MatchAt(input: Bytes, marker: Bytes, p: nat) {
    p + |marker| <= |input| && input[p..p + |marker|] == marker
  }

  /** p is where the first copy of the marker starts. */
  predicate FirstMatch(input: Bytes, marker: Bytes, p: nat) {
    MatchAt(input, marker, p) && forall q :: 0 <= q < p ==> !MatchAt(input, marker, q)
  }

  /** The stream goes on past where the marker could start, without it. */
  predicate NoMarker(input: Bytes, marker: Bytes) {
    |input| >= MAX_PAD_LENGTH + 8 && forall q :: 0 <= q <= MAX_PAD_LENGTH ==> !MatchAt(input, marker, q)
  }

  /** The loop over `window` and `scanned`; `position` is how far the stream has been read. */
  method ScanForMarker(input: Bytes, marker: Bytes) returns (position: nat, found: bool, gaveUp: bool)
    requires |marker| == 8
    ensures found && gaveUp ==> false
    ensures found ==> position >= 8 && position - 8 <= MAX_PAD_LENGTH && FirstMatch(input, marker, position - 8)
    ensures gaveUp ==> NoMarker(input, marker)
    ensures !found && !gaveUp ==> |input| < MAX_PAD_LENGTH + 8 && forall q :: 0 <= q ==> !MatchAt(input, marker, q)
  {
    found, gaveUp, position := false, false, 0;
    if |input| < |marker| { return; }
    var window := input[..|marker|];
    position := |marker|;
    var scanned := 0;
    while window != marker
      invariant 0 <= scanned <= MAX_PAD_LENGTH && position == scanned + 8 <= |input|
      invariant window == input[scanned..position]
      invariant forall q :: 0 <= q < scanned ==> !MatchAt(input, marker, q)
      decreases MAX_PAD_LENGTH - scanned
    {
      assert !MatchAt(input, marker, scanned);
      if scanned >= MAX_PAD_LENGTH {
        gaveUp := true;
        return;
      }
      if position >= |input| {
        return;
      }
      window := window[1..] + [input[position]];
      position := position + 1;
      scanned := scanned + 1;
    }
    found := true;
  }

  function Select(header: Bytes): nat
    requires |header| == 6
  {
    Unpack32(header, 0)
  }

  function PadLength(header: Bytes): nat
    requires |header| == 6
  {
    Unpack16(header, 4)
  }

  predicate Acceptable(header: Bytes)
    requires |header| == 6
  {
    (Select(header) == CRYPTO_PLAINTEXT || Select(header) == CRYPTO_RC4) && PadLength(header) <= MAX_PAD_LENGTH
  }

  /** What follows the negotiation on the wire: encrypted when RC4 was chosen, plain otherwise. */
  ghost function OnWire(st: RcState, select: nat, traffic: Bytes): Bytes {
    if select == CRYPTO_RC4 then Crypt(st, traffic).1 else traffic
  }

  /** What an EncryptedStream made for the choice reads from it. */
  ghost function ReadBack(st: RcState, select: nat, wire: Bytes): Bytes {
    if select == CRYPTO_RC4 then Crypt(st, wire).1 else wire
  }

  /**
   * What the peer sends: up to 512 bytes of its own padding, then, encrypted, eight zero bytes, the header (choice and
   * pad length) and that much more padding, then its traffic.
   */
  ghost function PeerOutput(st: RcState, pad: Bytes, header: Bytes, morePad: Bytes, traffic: Bytes): Bytes
    requires |header| == 6
  {
    var (after, hidden) := Crypt(st, Zeros(8) + header + morePad);
    pad + hidden + OnWire(after, Select(header), traffic)
  }

  /**
   * Both sides in step: exactly the padding was skipped and exactly the negotiation decrypted, so what follows reads as
   * the peer's traffic, encrypted or plain as was chosen; a choice that is not acceptable is refused.
   */
  ghost predicate InStep(st: RcState, input: Bytes, after: RcState, r: Negotiation, position: nat,
                         pad: Bytes, header: Bytes, morePad: Bytes, traffic: Bytes)
    requires position <= |input| && |header| == 6
  {
    if Acceptable(header) then
      r == Selected(Select(header)) && position == |pad| + 14 + |morePad| &&
      after == Crypt(st, Zeros(8) + header + morePad).0 && ReadBack(after, Select(header), input[position..]) == traffic
    else r == EncryptionFailed
  }

  /** The part of the negotiation behind the marker: the header, and as much padding as it announces. */
  method ReadChoice(input: Bytes, decryptor: Rc4, start: nat, ghost st: RcState) returns (r: Negotiation, position: nat)
    requires decryptor.Valid() && start <= |input| && decryptor.Abs() == Crypt(st, Zeros(8)).0
    modifies decryptor, decryptor.state
    ensures decryptor.Valid() && decryptor.state == old(decryptor.state) && position <= |input|
    ensures forall pad, header, morePad, traffic ::
      |pad| + 8 == start && |header| == 6 && |morePad| == PadLength(header) && input == PeerOutput(st, pad, header, morePad, traffic) ==>
        InStep(st, input, decryptor.Abs(), r, position, pad, header, morePad, traffic)
  {
    hide Crypt, PeerOutput, Select, PadLength, IsPermutation, Zeros, ReadBack;
    position := start;
    forall pad, header, morePad, traffic | |pad| + 8 == position && |header| == 6 && input == PeerOutput(st, pad, header, morePad, traffic)
      ensures position + 6 <= |input| && Crypt(decryptor.Abs(), input[position..position + 6]) == (Crypt(decryptor.Abs(), header).0, header)
    {
      ReadHeader(st, decryptor.Abs(), pad, header, morePad, traffic);
    }
    if position + 6 > |input| { return StreamEnded, position; }
    var header := decryptor.Encrypt(input[position..position + 6]);
    assert |header| == 6;
    ghost var afterHeader := decryptor.Abs();
    position := position + 6;
    if !((Select(header) == CRYPTO_PLAINTEXT || Select(header) == CRYPTO_RC4) && PadLength(header) <= MAX_PAD_LENGTH) {
      return EncryptionFailed, position;
    }
    forall pad, morePad, traffic | |pad| + 14 == position && |morePad| == PadLength(header) && input == PeerOutput(st, pad, header, morePad, traffic)
      ensures position + |morePad| <= |input|
      ensures Crypt(afterHeader, input[position..position + |morePad|]) == (Crypt(st, Zeros(8) + header + morePad).0, morePad)
      ensures ReadBack(Crypt(st, Zeros(8) + header + morePad).0, Select(header), input[position + |morePad|..]) == traffic
    {
      ReadRest(st, pad, header, morePad, traffic);
    }
    if PadLength(header) > 0 {
      if position + PadLength(header) > |input| { return StreamEnded, position; }
      var _ := decryptor.Encrypt(input[position..position + PadLength(header)]);
      position := position + PadLength(header);
    } else {
      CryptNothing(afterHeader, input[position..position]);
    }
    r := Selected(Select(header));
  }

  /** The bytes read up to the end of the negotiation, and how it ends. */
  method NegotiateInput(input: Bytes, decryptor: Rc4) returns (r: Negotiation, position: nat)
    requires decryptor.Valid()
    modifies decryptor, decryptor.state
    ensures decryptor.Valid() && decryptor.state == old(decryptor.state) && position <= |input|
    ensures forall pad, header, morePad, traffic ::
      |pad| <= MAX_PAD_LENGTH && |header| == 6 && |morePad| == PadLength(header) &&
      input == PeerOutput(old(decryptor.Abs()), pad, header, morePad, traffic) &&
      FirstMatch(input, Crypt(old(decryptor.Abs()), Zeros(8)).1, |pad|) ==>
        InStep(old(decryptor.Abs()), input, decryptor.Abs(), r, position, pad, header, morePad, traffic)
    // no copy of the marker among the first 520 bytes: rejected
    ensures NoMarker(input, Crypt(old(decryptor.Abs()), Zeros(8)).1) ==> r == EncryptionFailed
  {
    hide Crypt, FirstMatch, MatchAt, PeerOutput, PadLength, IsPermutation, InStep;
    ghost var st := decryptor.Abs();
    var peek := new Rc4.Copy(decryptor);
    var marker := peek.Encrypt(Zeros(8));
    assert |marker| == 8;
    var found, gaveUp;
    position, found, gaveUp := ScanForMarker(input, marker);
    forall pad: Bytes | |pad| <= MAX_PAD_LENGTH && FirstMatch(input, marker, |pad|) ensures found && position == |pad| + 8 {
      MatchUnique(input, marker, |pad|, position, found, gaveUp);
    }
    if gaveUp { return EncryptionFailed, 0; }
    if !found { return StreamEnded, 0; }
    Within(input, marker, position);
    var _ := decryptor.Encrypt(Zeros(8));
    r, position := ReadChoice(input, decryptor, position, st);
  }

  /** The stream negotiate_encryption returns: with both ciphers when RC4 was chosen, with none for plaintext. */
  method NegotiatedStream(input: Bytes, encryptor: Rc4, decryptor: Rc4) returns (r: Negotiation, position: nat, stream: EncryptedStream?)
    requires decryptor.Valid()
    modifies decryptor, decryptor.state
    ensures decryptor.Valid() && decryptor.state == old(decryptor.state) && position <= |input|
    ensures forall pad, header, morePad, traffic ::
      |pad| <= MAX_PAD_LENGTH && |header| == 6 && |morePad| == PadLength(header) &&
      input == PeerOutput(old(decryptor.Abs()), pad, header, morePad, traffic) &&
      FirstMatch(input, Crypt(old(decryptor.Abs()), Zeros(8)).1, |pad|) ==>
        InStep(old(decryptor.Abs()), input, decryptor.Abs(), r, position, pad, header, morePad, traffic)
    ensures stream != null <==> r.Selected?
    ensures r == Selected(CRYPTO_RC4) ==> stream.encryptor == encryptor && stream.decryptor == decryptor
    ensures r.Selected? && r != Selected(CRYPTO_RC4) ==> stream.encryptor == null && stream.decryptor == null
  {
    hide Crypt, FirstMatch, MatchAt, PeerOutput, PadLength, IsPermutation, InStep, NoMarker;
    stream := null;
    r, position := NegotiateInput(input, decryptor);
    if r.Selected? {
      if r.select == CRYPTO_RC4 {
        stream := new EncryptedStream(encryptor, decryptor);
      } else {
        stream := new EncryptedStream(null, null);
      }
    }
  }

  lemma CryptNothing(st: RcState, data: Bytes)
    requires data == []
    ensures Crypt(st, data).0 == st
  {
  }

  lemma Within(input: Bytes, marker: Bytes, position: nat)
    requires |marker| == 8 <= position && FirstMatch(input, marker, position - 8)
    ensures position <= |input|
    ensures position - 8 <= MAX_PAD_LENGTH ==> !NoMarker(input, marker)
  {
    hide MatchAt;
    assert MatchAt(input, marker, position - 8);
    MatchFits(input, marker, position - 8);
  }

  lemma MatchFits(input: Bytes, marker: Bytes, p: nat)
    requires MatchAt(input, marker, p)
    ensures p + |marker| <= |input|
  {
  }

  lemma MatchUnique(input: Bytes, marker: Bytes, p: nat, position: nat, found: bool, gaveUp: bool)
    requires |marker| == 8 && p <= MAX_PAD_LENGTH && FirstMatch(input, marker, p)
    requires found ==> position >= 8 && FirstMatch(input, marker, position - 8)
    requires gaveUp ==> NoMarker(input, marker)
    requires !found && !gaveUp ==> forall q :: 0 <= q ==> !MatchAt(input, marker, q)
    ensures found && position == p + 8
  {
    hide MatchAt;
    assert MatchAt(input, marker, p);
    if found {
      assert MatchAt(input, marker, position - 8);
    }
  }

  /** Where each part of the peer's output starts, and what decrypting it gives. */
  lemma Parts(st: RcState, pad: Bytes, a: Bytes, b: Bytes, rest: Bytes, input: Bytes)
    requires input == pad + Crypt(st, a + b).1 + rest
    ensures var st1 := Crypt(st, a).0; var p := |pad| + |a|;
            p + |b| <= |input| &&
            Crypt(st1, input[p..p + |b|]) == (Crypt(st1, b).0, b) &&
            Crypt(st, a + b).0 == Crypt(st1, b).0 && input[p + |b|..] == rest
  {
    hide Crypt;
    CryptConcat(st, a, b);
    var st1 := Crypt(st, a).0;
    var p := |pad| + |a|;
    assert input == pad + Crypt(st, a).1 + Crypt(st1, b).1 + rest;
    assert input[p..p + |b|] == Crypt(st1, b).1;
    CryptInverts(st1, b);
  }

  /**
   * The peer's marker is always there, behind its padding. So the scan never gives up on it, and it stops
   * in step with the peer if and only if no copy of the marker starts inside the padding.
   */
  lemma MarkerBehindPad(st: RcState, pad: Bytes, header: Bytes, morePad: Bytes, traffic: Bytes, p: nat)
    requires |header| == 6 && FirstMatch(PeerOutput(st, pad, header, morePad, traffic), Crypt(st, Zeros(8)).1, p)
    ensures p <= |pad|
    ensures p == |pad| <==> forall q :: 0 <= q < |pad| ==> !MatchAt(PeerOutput(st, pad, header, morePad, traffic), Crypt(st, Zeros(8)).1, q)
  {
    hide Crypt, OnWire;
    var input := PeerOutput(st, pad, header, morePad, traffic);
    assert Zeros(8) + header + morePad == Zeros(8) + (header + morePad);
    CryptConcat(st, Zeros(8), header + morePad);
    var marker := Crypt(st, Zeros(8)).1;
    assert input[|pad|..|pad| + 8] == marker;
    assert MatchAt(input, marker, |pad|);
  }

  lemma ReadHeader(st: RcState, st1: RcState, pad: Bytes, header: Bytes, morePad: Bytes, traffic: Bytes)
    requires |header| == 6 && st1 == Crypt(st, Zeros(8)).0
    ensures var input := PeerOutput(st, pad, header, morePad, traffic); var p := |pad| + 8;
            p + |header| <= |input| && Crypt(st1, input[p..p + |header|]) == (Crypt(st1, header).0, header)
  {
    hide Crypt, OnWire;
    var (after, hidden) := Crypt(st, Zeros(8) + header + morePad);
    var (st2, first) := Crypt(st, Zeros(8) + header);
    CryptConcat(st, Zeros(8) + header, morePad);
    var rest := Crypt(st2, morePad).1 + OnWire(after, Select(header), traffic);
    assert PeerOutput(st, pad, header, morePad, traffic) == pad + first + rest;
    Parts(st, pad, Zeros(8), header, rest, PeerOutput(st, pad, header, morePad, traffic));
  }

  lemma ReadRest(st: RcState, pad: Bytes, header: Bytes, morePad: Bytes, traffic: Bytes)
    requires |header| == 6
    ensures var input := PeerOutput(st, pad, header, morePad, traffic); var p := |pad| + 14;
            var st1 := Crypt(Crypt(st, Zeros(8)).0, header).0; var st2 := Crypt(st, Zeros(8) + header + morePad).0;
            p + |morePad| <= |input| &&
            Crypt(st1, input[p..p + |morePad|]) == (st2, morePad) && ReadBack(st2, Select(header), input[p + |morePad|..]) == traffic
  {
    hide Crypt;
    CryptConcat(st, Zeros(8), header);
    CryptConcat(st, Zeros(8) + header, morePad);
    var st2 := Crypt(st, Zeros(8) + header + morePad).0;
    Parts(st, pad, Zeros(8) + header, morePad, OnWire(st2, Select(header), traffic), PeerOutput(st, pad, header, morePad, traffic));
    CryptInverts(st2, traffic);
  }
}
