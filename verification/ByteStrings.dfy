/** Byte strings as the codecs see them: decimal text, searching, byte-wise lexicographic order. */
module ByteStrings {

  type byte = x: int | 0 <= x < 256
  type Bytes = seq<byte>

  datatype Option<+T> = None | Some(value: T)

  // ASCII codes used by the wire formats
  const ZERO: byte := 48
  const MINUS: byte := 45
  const COLON: byte := 58

  predicate IsDigit(b: byte) {
    48 <= b <= 57
  }

  /** Python's bytes.isdigit: false on the empty string. */
  predicate AllDigits(s: Bytes) {
    |s| > 0 && forall k :: 0 <= k < |s| ==> IsDigit(s[k])
  }

  /** int() of a digit string; leading zeros are accepted. */
  function DigitsValue(s: Bytes): nat
    requires forall k :: 0 <= k < |s| ==> IsDigit(s[k])
  {
    if s == [] then 0 else
      assert IsDigit(s[|s| - 1]);
      10 * DigitsValue(s[..|s| - 1]) + (s[|s| - 1] as int - 48)
  }

  /** str() of a non-negative integer. */
  function NatText(n: nat): (s: Bytes)
    ensures AllDigits(s)
    ensures |s| > 1 ==> s[0] != ZERO
    ensures n > 0 ==> s[0] != ZERO
  {
    if n < 10 then [48 + n] else NatText(n / 10) + [48 + n % 10]
  }

  lemma {:induction false} NatTextValue(n: nat)
    ensures DigitsValue(NatText(n)) == n
  {
    if n < 10 {
      assert NatText(n)[..0] == [];
    } else {
      NatTextValue(n / 10);
      assert NatText(n)[..|NatText(n)| - 1] == NatText(n / 10);
    }
  }

  /** Digit strings without a superfluous leading zero are exactly the ones str() produces. */
  predicate NoLeadingZero(s: Bytes) {
    |s| > 1 ==> s[0] != ZERO
  }

  lemma {:induction false} CanonicalDigits(s: Bytes)
    requires AllDigits(s) && NoLeadingZero(s)
    ensures NatText(DigitsValue(s)) == s
    ensures |s| > 1 ==> DigitsValue(s) > 0
  {
    if |s| == 1 {
      assert s[..0] == [];
      assert DigitsValue(s) == s[0] - 48;
    } else {
      var front := s[..|s| - 1];
      CanonicalDigits(front);
      if |front| == 1 {
        assert front[..0] == [];
        assert DigitsValue(front) == front[0] - 48;
      }
      assert DigitsValue(front) > 0;
      assert s == front + [s[|s| - 1]];
    }
  }

  /** Python's bytes.find(b, from): the first position of b at or after `from`, or -1. */
  function Find(data: Bytes, b: byte, from: nat): (r: int)
    ensures r == -1 || (from <= r < |data| && data[r] == b)
    ensures forall k :: from <= k < (if r == -1 then |data| else r) ==> data[k] != b
    decreases |data| - from
  {
    if from >= |data| then -1
    else if data[from] == b then from
    else Find(data, b, from + 1)
  }

  // Lexicographic order, the order of Python's sorted() on bytes and str

  predicate LexLess(a: seq<int>, b: seq<int>) {
    b != [] && (a == [] || a[0] < b[0] || (a[0] == b[0] && LexLess(a[1..], b[1..])))
  }

  lemma {:induction false} LexTotal(a: seq<int>, b: seq<int>)
    ensures LexLess(a, b) || a == b || LexLess(b, a)
    ensures !(LexLess(a, b) && LexLess(b, a))
    ensures a == b ==> !LexLess(a, b)
  {
    if a != [] && b != [] && a[0] == b[0] {
      LexTotal(a[1..], b[1..]);
      assert a == [a[0]] + a[1..] && b == [b[0]] + b[1..];
    }
  }

  lemma {:induction false} LexTransitive(a: seq<int>, b: seq<int>, c: seq<int>)
    requires LexLess(a, b) && LexLess(b, c)
    ensures LexLess(a, c)
  {
    if a != [] && a[0] == b[0] == c[0] {
      LexTransitive(a[1..], b[1..], c[1..]);
    }
  }

  predicate StrictlySorted(s: seq<seq<int>>) {
    forall i, j :: 0 <= i < j < |s| ==> LexLess(s[i], s[j])
  }

  ghost predicate IsLeast(m: seq<int>, s: set<seq<int>>) {
    m in s && forall k :: k in s && k != m ==> LexLess(m, k)
  }

  lemma {:induction false} LeastExists(s: set<seq<int>>)
    requires s != {}
    ensures exists m :: IsLeast(m, s)
  {
    var x :| x in s;
    if s == {x} {
      assert IsLeast(x, s);
    } else {
      var rest := s - {x};
      assert exists r :: r in rest by {
        assert s == {x} + rest;
      }
      LeastExists(rest);
      var m :| IsLeast(m, rest);
      LexTotal(x, m);
      if LexLess(x, m) {
        forall k | k in s && k != x ensures LexLess(x, k) {
          if k != m { LexTransitive(x, m, k); }
        }
        assert IsLeast(x, s);
      } else {
        assert IsLeast(m, s);
      }
    }
  }

  /** Python's sorted() of a set of strings. */
  ghost function Sorted(s: set<seq<int>>): (r: seq<seq<int>>)
    ensures StrictlySorted(r)
    ensures forall k :: k in r <==> k in s
    ensures |r| == |s|
    decreases |s|
  {
    if s == {} then []
    else
      LeastExists(s);
      var m :| IsLeast(m, s);
      var rest := Sorted(s - {m});
      assert forall k :: 0 <= k < |rest| ==> rest[k] in s - {m};
      [m] + rest
  }

  /** A strictly increasing sequence is determined by its elements. */
  lemma {:induction false} SortedUnique(a: seq<seq<int>>, b: seq<seq<int>>)
    requires StrictlySorted(a) && StrictlySorted(b)
    requires forall k :: k in a <==> k in b
    ensures a == b
  {
    if |b| > 0 { assert b[0] in b; }
    if a != [] {
      assert a[0] in a && a[0] in b;
      assert b[0] in b && b[0] in a;
      var i :| 0 <= i < |b| && b[i] == a[0];
      var j :| 0 <= j < |a| && a[j] == b[0];
      LexTotal(a[0], b[0]);
      assert a[0] == b[0];
      forall k ensures k in a[1..] <==> k in b[1..] {
        if k in a[1..] {
          var x :| 1 <= x < |a| && a[x] == k;
          LexTotal(a[0], k);
          assert k in b;
        }
        if k in b[1..] {
          var x :| 1 <= x < |b| && b[x] == k;
          LexTotal(b[0], k);
          assert k in a;
        }
      }
      SortedUnique(a[1..], b[1..]);
      assert a == [a[0]] + a[1..] && b == [b[0]] + b[1..];
    }
  }
}
