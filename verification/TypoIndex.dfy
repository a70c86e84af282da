/** torrent_database.py: the typo index, a table of terms filed under themselves and their one-letter deletions. */
module TypoIndex {
  import opened ByteStrings

  /** A term is a string of code points. */
  type Term = seq<int>

  const MIN_TERM_LENGTH := 3
  const MAX_TERM_LENGTH := 32
  const MIN_TYPO_LENGTH := 4
  const MAX_TYPO_TERMS := 20

  function Without(t: Term, k: nat): Term
    requires k < |t|
  {
    t[..k] + t[k + 1..]
  }

  /** term[:index] + term[index + 1:] for every index */
  function Deletions(t: Term): set<Term> {
    set k | 0 <= k < |t| :: Without(t, k)
  }

  // ----- what "one edit" means

  ghost predicate Substituted(a: Term, b: Term) {
    |a| == |b| && exists k :: 0 <= k < |a| && b == a[k := b[k]]
  }

  ghost predicate Shortened(longer: Term, shorter: Term) {
    exists k :: 0 <= k < |longer| && shorter == Without(longer, k)
  }

  function SwapAt(a: Term, k: nat): Term
    requires k + 1 < |a|
  {
    a[k := a[k + 1]][k + 1 := a[k]]
  }

  ghost predicate NeighboursSwapped(a: Term, b: Term) {
    exists k :: 0 <= k && k + 1 < |a| && b == SwapAt(a, k)
  }

  /** Equal, or one substitution, one deletion, one insertion or one swap of neighbours apart. */
  ghost predicate OneEdit(a: Term, b: Term) {
    a == b || Substituted(a, b) || Shortened(a, b) || Shortened(b, a) || NeighboursSwapped(a, b)
  }

  /** [index for index in range(len(first)) if first[index] != second[index]] */
  function Differences(a: Term, b: Term, n: nat): (r: seq<nat>)
    requires n <= |a| == |b|
    ensures forall k :: k in r <==> 0 <= k < n && a[k] != b[k]
    ensures forall x :: 0 <= x < |r| ==> r[x] < n && a[r[x]] != b[r[x]]
    ensures forall x, y :: 0 <= x < y < |r| ==> r[x] < r[y]
  {
    if n == 0 then []
    else
      var front := Differences(a, b, n - 1);
      if a[n - 1] != b[n - 1] then front + [n - 1] else front
  }

  /** The test on two differing positions. */
  predicate SwapTest(a: Term, b: Term, d: seq<nat>)
    requires |a| == |b| && d == Differences(a, b, |a|)
  {
    |d| == 2 && d[1] == d[0] + 1 && a[d[0]] == b[d[1]] && a[d[1]] == b[d[0]]
  }

  method WithinOneEdit(first: Term, second: Term) returns (r: bool)
    ensures r <==> OneEdit(first, second)
  {
    if |first| > |second| + 1 || |second| > |first| + 1 { return false; }
    if |first| == |second| {
      var d := Differences(first, second, |first|);
      AtMostOneDifference(first, second, d);
      SwapDifferences(first, second, d);
      return |d| <= 1 || SwapTest(first, second, d);
    }
    var shorter, longer := if |first| < |second| then first else second, if |first| < |second| then second else first;
    var index := 0;
    while index < |shorter| && shorter[index] == longer[index]
      invariant 0 <= index <= |shorter|
      invariant shorter[..index] == longer[..index]
    {
      index := index + 1;
    }
    r := shorter[index..] == longer[index + 1..];
    FirstDifference(longer, shorter, index);
  }

  lemma AtMostOneDifference(a: Term, b: Term, d: seq<nat>)
    requires |a| == |b| && d == Differences(a, b, |a|)
    ensures |d| <= 1 <==> a == b || Substituted(a, b)
  {
    if |d| == 0 {
      assert forall k :: 0 <= k < |a| && a[k] != b[k] ==> k in d;
      assert a == b;
    } else if |d| == 1 {
      assert forall k :: 0 <= k < |a| && a[k] != b[k] ==> k in d;
      assert b == a[d[0] := b[d[0]]];
    } else {
      assert d[0] in d && d[1] in d && d[0] < d[1];
    }
  }

  lemma SwapDifferences(a: Term, b: Term, d: seq<nat>)
    requires |a| == |b| && d == Differences(a, b, |a|)
    ensures SwapTest(a, b, d) ==> NeighboursSwapped(a, b)
    ensures NeighboursSwapped(a, b) ==> |d| <= 1 || SwapTest(a, b, d)
  {
    hide Differences;
    if SwapTest(a, b, d) {
      var k := d[0];
      assert forall x :: 0 <= x < |a| && a[x] != b[x] ==> x in d;
      assert b == SwapAt(a, k);
    }
    if NeighboursSwapped(a, b) {
      var k :| 0 <= k && k + 1 < |a| && b == SwapAt(a, k);
      forall x | 0 <= x < |d| ensures d[x] == k || d[x] == k + 1 {
        assert a[d[x]] != b[d[x]];
      }
      PairOfPositions(d, k);
    }
  }

  lemma PairOfPositions(d: seq<nat>, k: nat)
    requires forall x, y :: 0 <= x < y < |d| ==> d[x] < d[y]
    requires forall x :: 0 <= x < |d| ==> d[x] == k || d[x] == k + 1
    ensures |d| <= 2 && (|d| == 2 ==> d == [k, k + 1])
  {
    if |d| > 0 { Spread(d, |d| - 1); }
  }

  lemma {:induction false} Spread(d: seq<nat>, x: nat)
    requires x < |d| && forall x, y :: 0 <= x < y < |d| ==> d[x] < d[y]
    ensures d[x] >= d[0] + x
  {
    if x > 0 { Spread(d, x - 1); }
  }

  lemma FirstDifference(longer: Term, shorter: Term, index: nat)
    requires |longer| == |shorter| + 1 && index <= |shorter| && shorter[..index] == longer[..index]
    requires index < |shorter| ==> shorter[index] != longer[index]
    ensures shorter[index..] == longer[index + 1..] <==> Shortened(longer, shorter)
  {
    if shorter[index..] == longer[index + 1..] {
      assert shorter == shorter[..index] + shorter[index..];
      assert shorter == Without(longer, index);
    }
    if Shortened(longer, shorter) {
      var k :| 0 <= k < |longer| && shorter == Without(longer, k);
      if k < index {
        forall x | index <= x < |shorter| ensures shorter[x] == longer[x + 1] {}
      } else {
        assert forall x :: 0 <= x < k ==> shorter[x] == longer[x];
      }
      assert shorter[index..] == longer[index + 1..];
    }
  }

  // ----- the table

  predicate Indexable(t: Term) {
    MIN_TERM_LENGTH <= |t| <= MAX_TERM_LENGTH
  }

  /** Term t is filed under v. */
  predicate Filed(v: Term, t: Term) {
    Indexable(t) && (v == t || v in Deletions(t))
  }

  /** The rows (variant, term) of the terms table are those of a set of terms. */
  ghost predicate AreRows(rows: seq<(Term, Term)>, terms: set<Term>) {
    forall v, t :: (v, t) in rows <==> t in terms && Filed(v, t)
  }

  method SortedList(s: set<Term>) returns (r: seq<Term>)
    ensures r == Sorted(s)
  {
    r := [];
    var rest := s;
    while rest != {}
      invariant rest <= s
      invariant StrictlySorted(r) && (forall k :: k in r <==> k in s - rest)
      invariant forall x, y :: x in r && y in rest ==> LexLess(x, y)
      decreases |rest|
    {
      var least := Least(rest);
      assert forall k :: 0 <= k < |r| ==> r[k] in r;
      r := r + [least];
      rest := rest - {least};
    }
    SortedUnique(r, Sorted(s));
  }

  method Least(s: set<Term>) returns (m: Term)
    requires s != {}
    ensures IsLeast(m, s)
  {
    m :| m in s;
    var seen := {m};
    while seen != s
      invariant m in seen && seen <= s
      invariant IsLeast(m, seen)
      decreases s - seen
    {
      assert seen < s;
      var x :| x in s && x !in seen;
      LexTotal(x, m);
      if LexLess(x, m) {
        forall k | k in seen + {x} && k != x ensures LexLess(x, k) {
          if k != m { LexTransitive(x, m, k); }
        }
        m := x;
      }
      seen := seen + {x};
    }
  }

  /** set(terms) */
  function Elements(terms: seq<Term>): set<Term> {
    set x | x in terms
  }

  /** term_rows: the rows of a document's terms, in the order they are inserted. */
  method TermRows(terms: seq<Term>) returns (result: seq<(Term, Term)>)
    ensures AreRows(result, Elements(terms))
  {
    hide Deletions, Filed, LexLess, Sorted;
    result := [];
    var distinct := Elements(terms);
    var ordered := SortedList(distinct);
    for k := 0 to |ordered|
      invariant AreRows(result, Elements(ordered[..k]))
    {
      var term := ordered[k];
      assert Elements(ordered[..k + 1]) == Elements(ordered[..k]) + {term} by {
        assert ordered[..k + 1] == ordered[..k] + [term];
      }
      var added: seq<(Term, Term)> := [];
      if MIN_TERM_LENGTH <= |term| <= MAX_TERM_LENGTH {
        var variants := SortedList(Deletions(term));
        added := [(term, term)] + seq(|variants|, x requires 0 <= x < |variants| => (variants[x], term));
        RowsAdded(variants, term);
      } else {
        NotFiled(term);
      }
      RowsGrow(result, Elements(ordered[..k]), added, term);
      result := result + added;
    }
    assert Elements(ordered[..|ordered|]) == distinct by {
      assert ordered[..|ordered|] == ordered;
    }
  }

  lemma NotFiled(term: Term)
    requires !Indexable(term)
    ensures forall v :: !Filed(v, term)
  {
  }

  lemma RowsGrow(rows: seq<(Term, Term)>, terms: set<Term>, added: seq<(Term, Term)>, term: Term)
    requires AreRows(rows, terms)
    requires forall v, t :: (v, t) in added <==> t == term && Filed(v, t)
    ensures AreRows(rows + added, terms + {term})
  {
    hide Filed;
  }

  lemma RowsAdded(variants: seq<Term>, term: Term)
    requires Indexable(term) && forall v :: v in variants <==> v in Deletions(term)
    ensures var added := [(term, term)] + seq(|variants|, x requires 0 <= x < |variants| => (variants[x], term));
            forall v, t :: (v, t) in added <==> t == term && Filed(v, t)
  {
    hide Deletions;
    var more := seq(|variants|, x requires 0 <= x < |variants| => (variants[x], term));
    forall v, t ensures (v, t) in more <==> t == term && v in Deletions(t) {
      if t == term && v in Deletions(t) {
        var x :| 0 <= x < |variants| && variants[x] == v;
        assert more[x] == (v, t);
      }
    }
  }

  // ----- the query

  /** The variants the query is looked up under. */
  predicate Variant(v: Term, query: Term) {
    v == query || v in Deletions(query)
  }

  /** Every term one edit from the query is filed under a variant of the query. */
  lemma NeighbourhoodComplete(query: Term, t: Term) returns (v: Term)
    requires Indexable(t) && OneEdit(query, t)
    ensures Variant(v, query) && Filed(v, t)
  {
    if query == t || Shortened(query, t) {
      v := t;
    } else if Shortened(t, query) {
      v := query;
    } else {
      var k := SharedDeletion(query, t);
      v := Without(query, k);
      assert v in Deletions(query) && v in Deletions(t);
    }
  }

  /** Deleting at the changed position, or either letter of a swap, leaves the same string. */
  lemma SharedDeletion(query: Term, t: Term) returns (k: nat)
    requires Substituted(query, t) || NeighboursSwapped(query, t)
    ensures k < |query| && Without(query, k) in Deletions(t)
  {
    if Substituted(query, t) {
      k :| 0 <= k < |query| && t == query[k := t[k]];
      assert Without(query, k) == Without(t, k);
    } else {
      k :| 0 <= k && k + 1 < |query| && t == SwapAt(query, k);
      assert Without(query, k) == Without(t, k + 1);
    }
  }

  /** The scan the index stands for: all other indexed terms one edit away, in order. */
  ghost function BruteForce(query: Term, terms: set<Term>): seq<Term> {
    Sorted(set t | t in terms && Indexable(t) && t != query && OneEdit(query, t))
  }

  predicate AllDigitsTerm(t: Term, digit: int -> bool) {
    t != [] && forall k :: 0 <= k < |t| ==> digit(t[k])
  }

  function FirstFew(s: seq<Term>): seq<Term> {
    if |s| <= MAX_TYPO_TERMS then s else s[..MAX_TYPO_TERMS]
  }

  /** SELECT DISTINCT term FROM terms WHERE variant IN (...) */
  method SelectTerms(query: Term, rows: seq<(Term, Term)>) returns (found: set<Term>)
    ensures forall t :: t in found <==> exists v :: Variant(v, query) && (v, t) in rows
  {
    hide Deletions;
    var variants := {query} + Deletions(query);
    found := {};
    for k := 0 to |rows|
      invariant forall t :: t in found <==> exists v :: Variant(v, query) && (v, t) in rows[..k]
    {
      assert rows[..k + 1] == rows[..k] + [rows[k]];
      var (v, t) := rows[k];
      if v in variants {
        found := found + {t};
        assert (v, t) in rows[..k + 1];
      }
    }
    assert rows[..|rows|] == rows;
  }

  /** The comprehension that keeps the candidates one edit away. */
  method KeepNear(query: Term, candidates: seq<Term>) returns (kept: seq<Term>)
    requires StrictlySorted(candidates)
    ensures StrictlySorted(kept)
    ensures forall t :: t in kept <==> t in candidates && t != query && OneEdit(query, t)
  {
    hide OneEdit, LexLess, StrictlySorted;
    kept := [];
    assert StrictlySorted(kept) by { NothingSorted(); }
    for k := 0 to |candidates|
      invariant StrictlySorted(kept)
      invariant forall t :: t in kept <==> t in candidates[..k] && t != query && OneEdit(query, t)
    {
      assert candidates[..k + 1] == candidates[..k] + [candidates[k]];
      if candidates[k] != query {
        var near := WithinOneEdit(query, candidates[k]);
        if near {
          KeepSorted(kept, candidates, k);
          kept := kept + [candidates[k]];
        }
      }
    }
    assert candidates[..|candidates|] == candidates;
  }

  lemma NothingSorted()
    ensures StrictlySorted([])
  {
  }

  /** typo_terms over the table of the given terms; `digit` is str.isdigit of one character. */
  method TypoTerms(query: Term, rows: seq<(Term, Term)>, digit: int -> bool, ghost terms: set<Term>) returns (result: seq<Term>)
    requires AreRows(rows, terms)
    ensures result == if |query| < MIN_TYPO_LENGTH || AllDigitsTerm(query, digit) then []
                      else FirstFew(BruteForce(query, terms))
  {
    hide Deletions, OneEdit, Filed, Variant, LexLess, BruteForce, StrictlySorted;
    if |query| < MIN_TYPO_LENGTH || AllDigitsTerm(query, digit) { return []; }
    var found := SelectTerms(query, rows);
    var candidates := SortedList(found);
    var kept := KeepNear(query, candidates);
    KeptAreAll(query, rows, terms, found, kept);
    SortedUnique(kept, BruteForce(query, terms));
    result := FirstFew(kept);
  }

  lemma KeepSorted(kept: seq<Term>, candidates: seq<Term>, k: nat)
    requires k < |candidates| && StrictlySorted(candidates) && StrictlySorted(kept)
    requires forall t :: t in kept ==> t in candidates[..k]
    ensures StrictlySorted(kept + [candidates[k]])
  {
    hide LexLess;
    forall x | 0 <= x < |kept| ensures LexLess(kept[x], candidates[k]) {
      assert kept[x] in kept;
      var y :| 0 <= y < k && candidates[..k][y] == kept[x];
    }
  }

  lemma KeptAreAll(query: Term, rows: seq<(Term, Term)>, terms: set<Term>, found: set<Term>, kept: seq<Term>)
    requires AreRows(rows, terms)
    requires forall t :: t in found <==> exists v :: Variant(v, query) && (v, t) in rows
    requires forall t :: t in kept <==> t in found && t != query && OneEdit(query, t)
    ensures StrictlySorted(BruteForce(query, terms))
    ensures forall t :: t in kept <==> t in BruteForce(query, terms)
  {
    hide Deletions, OneEdit, Variant, LexLess;
    forall t | t in terms && Indexable(t) && t != query && OneEdit(query, t) ensures t in kept {
      var v := NeighbourhoodComplete(query, t);
      assert (v, t) in rows;
    }
  }
}
