/** bounded_recent_map.py, and the insertion-ordered dictionaries of the source. */
module BoundedRecentMap {

  /** A dictionary and the order of its keys. */
  datatype RawDict<K(==), V> = Dict(keys: seq<K>, m: map<K, V>)

  ghost predicate Distinct<K(!new)>(s: seq<K>) {
    forall i, j :: 0 <= i < j < |s| ==> s[i] != s[j]
  }

  ghost predicate Ordered<K(!new), V>(d: RawDict<K, V>) {
    Distinct(d.keys) && forall k :: k in d.keys <==> k in d.m
  }

  function Empty<K(==, !new), V>(): RawDict<K, V> {
    Dict([], map[])
  }

  function Without<K(==, !new)>(keys: seq<K>, k: K): (r: seq<K>)
    ensures Distinct(keys) ==> Distinct(r)
    ensures forall x :: x in r <==> x in keys && x != k
    ensures |r| <= |keys|
    ensures k !in keys ==> r == keys
  {
    if keys == [] then []
    else if keys[0] == k then Without(keys[1..], k)
    else
      var rest := Without(keys[1..], k);
      assert forall i :: 0 <= i < |rest| ==> rest[i] in rest;
      [keys[0]] + rest
  }

  /** d[k] = v: a new key goes to the end, a known key keeps its place. */
  function Put<K(==, !new), V>(d: RawDict<K, V>, k: K, v: V): (r: RawDict<K, V>)
    ensures r.m == d.m[k := v]
    ensures Ordered(d) ==> Ordered(r)
  {
    Dict(if k in d.m then d.keys else d.keys + [k], d.m[k := v])
  }

  /** d.setdefault(k, v) */
  function SetDefault<K(==, !new), V>(d: RawDict<K, V>, k: K, v: V): (r: RawDict<K, V>)
    ensures r.m == if k in d.m then d.m else d.m[k := v]
    ensures Ordered(d) ==> Ordered(r)
  {
    if k in d.m then d else Put(d, k, v)
  }

  /** d.pop(k, None) */
  function Pop<K(==, !new), V>(d: RawDict<K, V>, k: K): (r: RawDict<K, V>)
    ensures r.m == d.m - {k}
    ensures Ordered(d) ==> Ordered(r)
  {
    Dict(Without(d.keys, k), d.m - {k})
  }

  /** d.popitem(last=False) */
  function PopFirst<K(==, !new), V>(d: RawDict<K, V>): (r: RawDict<K, V>)
    requires d.keys != []
    ensures r.m == d.m - {d.keys[0]} && r.keys == d.keys[1..]
    ensures Ordered(d) ==> Ordered(r)
  {
    assert forall k :: k in d.keys <==> k == d.keys[0] || k in d.keys[1..];
    Dict(d.keys[1..], d.m - {d.keys[0]})
  }

  /** A key not in d is put in front. */
  function PutFirst<K(==, !new), V>(d: RawDict<K, V>, k: K, v: V): (r: RawDict<K, V>)
    requires k !in d.m
    ensures r.m == d.m[k := v] && r.keys == [k] + d.keys
    ensures Ordered(d) ==> Ordered(r)
  {
    Dict([k] + d.keys, d.m[k := v])
  }

  /** d[k] = v followed by d.move_to_end(k) */
  function PutLast<K(==, !new), V>(d: RawDict<K, V>, k: K, v: V): (r: RawDict<K, V>)
    ensures r.m == d.m[k := v] && r.keys == Without(d.keys, k) + [k]
    ensures Ordered(d) ==> Ordered(r)
  {
    Dict(Without(d.keys, k) + [k], d.m[k := v])
  }

  lemma OrderedSize<K(!new), V>(d: RawDict<K, V>)
    requires Ordered(d)
    ensures |d.keys| == |d.m|
  {
    DistinctSize(d.keys, d.m.Keys);
  }

  lemma {:induction false} DistinctSize<K(!new)>(s: seq<K>, elements: set<K>)
    requires Distinct(s) && forall k :: k in s <==> k in elements
    ensures |s| == |elements|
  {
    if s == [] {
      assert elements == {};
    } else {
      assert s[0] in elements;
      DistinctSize(s[1..], elements - {s[0]});
    }
  }

  lemma DistinctSuffix<K(!new)>(s: seq<K>, n: nat)
    requires n <= |s|
    ensures Distinct(s) ==> Distinct(s[n..])
    ensures forall x :: x in s[n..] ==> x in s
  {
  }

  lemma DistinctAppend<K(!new)>(s: seq<K>, k: K)
    ensures Distinct(s) && k !in s ==> Distinct(s + [k])
  {
  }

  /** The keys remember() leaves: the newest `limit` of them, k last. */
  function RememberedKeys<K(==, !new)>(keys: seq<K>, k: K, limit: nat): (r: seq<K>)
    requires limit >= 1
    ensures k in r && 1 <= |r| <= limit && r[|r| - 1] == k
    ensures Distinct(keys) ==> Distinct(r)
    ensures forall x :: x in r ==> x == k || x in keys
  {
    hide Distinct;
    DistinctAppend(Without(keys, k), k);
    Suffix(Without(keys, k) + [k], limit)
  }

  /** The last `limit` elements. */
  function Suffix<K(!new)>(s: seq<K>, limit: nat): (r: seq<K>)
    requires s != [] && limit >= 1
    ensures 1 <= |r| <= limit && r[|r| - 1] == s[|s| - 1] && r[|r| - 1] in r
    ensures Distinct(s) ==> Distinct(r)
    ensures forall x :: x in r ==> x in s
  {
    if |s| <= limit then s else s[|s| - limit..]
  }

  /** The entries from position n on. */
  function From<K(==, !new), V>(d: RawDict<K, V>, n: nat): RawDict<K, V>
    requires n <= |d.keys|
  {
    Dict(d.keys[n..], map x | x in d.m && x in d.keys[n..] :: d.m[x])
  }

  lemma FromNext<K(!new), V>(d: RawDict<K, V>, n: nat)
    requires Ordered(d) && n < |d.keys|
    ensures PopFirst(From(d, n)) == From(d, n + 1)
  {
    assert d.keys[n..][1..] == d.keys[n + 1..];
    assert forall x :: x in d.keys[n..] <==> x == d.keys[n] || x in d.keys[n + 1..];
    assert d.keys[n] !in d.keys[n + 1..];
    assert PopFirst(From(d, n)).m == From(d, n + 1).m;
  }

  lemma FromOrdered<K(!new), V>(d: RawDict<K, V>, n: nat)
    requires Ordered(d) && n <= |d.keys|
    ensures Ordered(From(d, n)) && |From(d, n).m| == |d.keys| - n
    ensures n == 0 ==> From(d, n) == d
  {
    assert Ordered(From(d, n)) by { DistinctSuffix(d.keys, n); assert forall k :: k in d.keys[n..] ==> k in d.keys; }
    OrderedSize(From(d, n));
    if n == 0 {
      assert d.keys[0..] == d.keys;
      assert From(d, 0).m == d.m;
    }
  }

  function Remembered<K(==, !new), V>(d: RawDict<K, V>, k: K, v: V, limit: nat): RawDict<K, V>
    requires limit >= 1
  {
    var full := PutLast(d, k, v);
    From(full, if |full.keys| <= limit then 0 else |full.keys| - limit)
  }

  /** remember: the loop that drops the oldest keys. */
  method Remember<K(==, !new), V>(d: RawDict<K, V>, k: K, v: V, limit: nat) returns (r: RawDict<K, V>, isNew: bool)
    requires limit >= 1 && Ordered(d)
    ensures r == Remembered(d, k, v, limit) && Ordered(r) && (isNew <==> k !in d.m)
    ensures |r.m| <= limit && k in r.m && r.m[k] == v && r.keys == RememberedKeys(d.keys, k, limit)
    ensures forall x :: x in r.m && x != k ==> x in d.m && r.m[x] == d.m[x]
  {
    hide Ordered, PutLast, PopFirst, From, Distinct, Without;
    isNew := k !in d.m;
    r := PutLast(d, k, v);
    ghost var full, n := r, 0;
    FromOrdered(full, 0);
    while |r.m| > limit
      invariant n <= |full.keys| && r == From(full, n) && |r.m| == |full.keys| - n && Ordered(r)
      invariant n == 0 || |r.m| >= limit
      decreases |r.m|
    {
      FromSize(full, n);
      FromNext(full, n);
      FromOrdered(full, n + 1);
      r := PopFirst(r);
      n := n + 1;
    }
    RememberedShape(d, k, v, limit);
  }

  lemma FromSize<K(!new), V>(d: RawDict<K, V>, n: nat)
    requires n <= |d.keys|
    ensures |From(d, n).keys| == |d.keys| - n
  {
  }

  lemma RememberedShape<K(!new), V>(d: RawDict<K, V>, k: K, v: V, limit: nat)
    requires limit >= 1 && Ordered(d)
    ensures var r := Remembered(d, k, v, limit);
            Ordered(r) && |r.m| <= limit && k in r.m && r.m[k] == v && r.keys == RememberedKeys(d.keys, k, limit) &&
            forall x :: x in r.m && x != k ==> x in d.m && r.m[x] == d.m[x]
  {
    hide Ordered, Distinct, Without, PutLast, RememberedKeys;
    var full := PutLast(d, k, v);
    FromOrdered(full, if |full.keys| <= limit then 0 else |full.keys| - limit);
    RememberedOrder(d, k, v, limit);
    assert k in Remembered(d, k, v, limit).keys && k in full.m;
  }

  lemma RememberedOrder<K(!new), V>(d: RawDict<K, V>, k: K, v: V, limit: nat)
    requires limit >= 1
    ensures Remembered(d, k, v, limit).keys == RememberedKeys(d.keys, k, limit)
  {
    hide Ordered, Distinct, Without;
    assert PutLast(d, k, v).keys[0..] == PutLast(d, k, v).keys;
  }

  // ----- how long a key stays

  /** remember() called for each of the keys in turn. */
  function RememberAll<K(==, !new)>(keys: seq<K>, more: seq<K>, limit: nat): seq<K>
    requires limit >= 1
    decreases |more|
  {
    if more == [] then keys else RememberAll(RememberedKeys(keys, more[0], limit), more[1..], limit)
  }

  lemma WithoutAfter<K(!new)>(keys: seq<K>, p: nat, x: K)
    requires Distinct(keys) && p < |keys| && x != keys[p]
    ensures exists q :: 0 <= q < |Without(keys, x)| && Without(keys, x)[q] == keys[p] && |Without(keys, x)| - q <= |keys| - p
    decreases |keys|
  {
    var rest := Without(keys[1..], x);
    if p == 0 {
      assert Without(keys, x)[0] == keys[0];
    } else {
      WithoutAfter(keys[1..], p - 1, x);
      var q :| 0 <= q < |rest| && rest[q] == keys[p] && |rest| - q <= |keys| - p;
      if keys[0] == x {
        assert Without(keys, x) == rest;
      } else {
        assert Without(keys, x)[q + 1] == keys[p];
      }
    }
  }

  lemma Nothing<K(!new)>(keys: seq<K>, limit: nat)
    requires limit >= 1
    ensures RememberAll(keys, [], limit) == keys
  {
  }

  lemma OneThenRest<K(!new)>(keys: seq<K>, others: seq<K>, limit: nat)
    requires limit >= 1 && others != []
    ensures RememberAll(keys, others, limit) == RememberAll(RememberedKeys(keys, others[0], limit), others[1..], limit)
  {
  }

  /** A key leaves only after as many other keys were remembered as there were places behind it. */
  lemma {:induction false} StaysRemembered<K(!new)>(keys: seq<K>, p: nat, others: seq<K>, limit: nat)
    requires Distinct(keys) && p < |keys| <= limit && limit >= 1
    requires keys[p] !in others && |keys| - p + |others| <= limit
    ensures keys[p] in RememberAll(keys, others, limit)
    decreases |others|
  {
    hide Without, Distinct, RememberAll;
    if others == [] {
      Nothing(keys, limit);
    } else {
      var x := others[0];
      WithoutAfter(keys, p, x);
      var q :| 0 <= q < |Without(keys, x)| && Without(keys, x)[q] == keys[p] && |Without(keys, x)| - q <= |keys| - p;
      var moved := Without(keys, x) + [x];
      var next := RememberedKeys(keys, x, limit);
      var shift := |moved| - |next|;
      assert next == moved[shift..];
      assert next[q - shift] == keys[p];
      StaysRemembered(next, q - shift, others[1..], limit);
      OneThenRest(keys, others, limit);
    }
  }
}
