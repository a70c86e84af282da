/** Which entries the catalog picks: the victims of an eviction and the candidates of a fetch. */
module CatalogEviction {
  import opened ByteStrings
  import opened BoundedRecentMap
  import opened NodeIdentity
  import opened CatalogSpec
  import opened CatalogIndexes
  import opened CatalogMethods
  import opened CatalogFlushing

  // ----- next_fetch_candidates

  /** RANK_ATTRIBUTES */
  predicate RanksBelow(a: Entry, b: Entry) {
    a.seen < b.seen || (a.seen == b.seen && a.lastSeen <= b.lastSeen)
  }

  /** The `limit` largest of the fetchable entries, the largest first. */
  ghost predicate TopCandidates(c: Catalog, ids: seq<Id>, limit: nat) {
    Distinct(ids) && |ids| == Least(limit, |c.fetchable|) &&
    (forall id :: id in ids ==> At(c, id).hash in c.fetchable && c.fetchable[At(c, id).hash] == id) &&
    (forall i, j :: 0 <= i < j < |ids| ==> RanksBelow(At(c, ids[j]), At(c, ids[i]))) &&
    forall h, i :: h in c.fetchable && c.fetchable[h] !in ids && 0 <= i < |ids| ==> RanksBelow(At(c, c.fetchable[h]), At(c, ids[i]))
  }

  // ----- _evict_locked

  function Wanted(s: Settings): (n: nat)
    ensures n >= 1
  {
    if s.maxEntries / EVICTION_DIVISOR > 1 then s.maxEntries / EVICTION_DIVISOR else 1
  }

  /** No metadata, no peers, seen at most once, not claimed. */
  predicate Cheap(e: Entry) {
    e.meta.None? && e.seen <= 1 && e.peers == [] && Evictable(e)
  }

  /** The first pass: cheap entries, in the order they were created. */
  function FirstCheap(c: Catalog, keys: seq<Hash>, limit: nat): (r: seq<Id>)
    ensures |r| <= limit
    decreases |keys|
  {
    if keys == [] || limit == 0 then []
    else if keys[0] in c.entries.m && Cheap(At(c, c.entries.m[keys[0]])) then
      [c.entries.m[keys[0]]] + FirstCheap(c, keys[1..], limit - 1)
    else FirstCheap(c, keys[1..], limit)
  }

  /** eviction_key, compared: metadata, peers, sightings, last sighting. */
  predicate KeyAtMost(a: Entry, b: Entry) {
    One(a.meta.Some?) < One(b.meta.Some?) || (a.meta.Some? == b.meta.Some? &&
    (One(a.peers != []) < One(b.peers != []) || ((a.peers != []) == (b.peers != []) &&
    (a.seen < b.seen || (a.seen == b.seen && a.lastSeen <= b.lastSeen)))))
  }

  function EvictableSet(c: Catalog): set<Id> {
    set id: Id | id < |c.heap| && Live(c, id) && Evictable(At(c, id))
  }

  /** The victims: first the cheap ones, then the smallest of the rest by eviction_key, up to the number wanted. */
  ghost predicate ChosenVictims(s: Settings, c: Catalog, victims: seq<Id>) {
    var first := FirstCheap(c, c.entries.keys, Wanted(s));
    Evictees(c, victims) && |victims| == Least(Wanted(s), |EvictableSet(c)|) && first <= victims &&
    forall i, id :: |first| <= i < |victims| && id in EvictableSet(c) && id !in victims ==> KeyAtMost(At(c, victims[i]), At(c, id))
  }

  /** What an eviction must respect: metadata first, then peers, then how often an entry was seen. */
  predicate WorthAtMost(a: Entry, b: Entry) {
    One(a.meta.Some?) < One(b.meta.Some?) || (a.meta.Some? == b.meta.Some? &&
    (One(a.peers != []) < One(b.peers != []) || ((a.peers != []) == (b.peers != []) && Most(a.seen, 1) <= Most(b.seen, 1))))
  }

  function Most(a: nat, b: nat): nat {
    if a > b then a else b
  }

  /** No entry kept is worth less than one evicted; no victim is claimed by a fetch or a lookup. */
  lemma EvictionRespectsWorth(s: Settings, c: Catalog, victims: seq<Id>, v: Id, id: Id)
    requires ChosenVictims(s, c, victims) && v in victims && id in EvictableSet(c) && id !in victims
    ensures WorthAtMost(At(c, v), At(c, id)) && At(c, v).state != InProgress && !At(c, v).looking
  {
    var first := FirstCheap(c, c.entries.keys, Wanted(s));
    var i :| 0 <= i < |victims| && victims[i] == v;
    if i < |first| {
      assert first[i] == v;
      FirstCheapAll(c, c.entries.keys, Wanted(s));
    }
  }

  lemma {:induction false} FirstCheapAll(c: Catalog, keys: seq<Hash>, limit: nat)
    ensures forall id :: id in FirstCheap(c, keys, limit) ==> Cheap(At(c, id))
    decreases |keys|
  {
    hide Cheap, At;
    if keys != [] && limit > 0 {
      FirstCheapAll(c, keys[1..], limit - 1);
      FirstCheapAll(c, keys[1..], limit);
    }
  }

  /** Among the cheap ones the oldest go first: an older cheap entry is kept only when no place was left before it. */
  lemma {:induction false} OldestCheapFirst(c: Catalog, keys: seq<Hash>, limit: nat, i: nat, j: nat)
    requires i < j < |keys| && keys[i] in c.entries.m && keys[j] in c.entries.m && Cheap(At(c, c.entries.m[keys[i]]))
    requires forall a, b :: 0 <= a < b < |keys| && keys[a] in c.entries.m && keys[b] in c.entries.m ==> c.entries.m[keys[a]] != c.entries.m[keys[b]]
    requires c.entries.m[keys[j]] in FirstCheap(c, keys, limit)
    ensures c.entries.m[keys[i]] in FirstCheap(c, keys, limit)
    decreases |keys|
  {
    hide Cheap, At;
    if i > 0 {
      var rest := keys[1..];
      assert rest[i - 1] == keys[i] && rest[j - 1] == keys[j];
      if keys[0] in c.entries.m && Cheap(At(c, c.entries.m[keys[0]])) {
        OldestCheapFirst(c, rest, limit - 1, i - 1, j - 1);
      } else {
        OldestCheapFirst(c, rest, limit, i - 1, j - 1);
      }
    }
  }

  /** A recorded sighting never leaves the catalog above its limit. */
  lemma CapacityKept(s: Settings, c: Catalog, h: Hash, announce: bool, peer: Option<Peer>, now: real, victims: seq<Id>)
    requires Indexed(s, c) && |c.entries.m| <= s.maxEntries
    requires |Noted(s, c, h, announce, peer, now).entries.m| > s.maxEntries ==> ChosenVictims(s, Noted(s, c, h, announce, peer, now), victims)
    ensures |Recorded(s, c, h, announce, peer, now, victims).entries.m| <= s.maxEntries
  {
    hide Indexed, Noted, EvictedEach, ChosenVictims, Became, GotOrCreated, Sighted, At, Evictable;
    var c1 := Noted(s, c, h, announce, peer, now);
    NotedIndexed(s, c, h, announce, peer, now);
    NotedSize(s, c, h, announce, peer, now);
    if |c1.entries.m| > s.maxEntries {
      SomeVictim(s, c, h, announce, peer, now, victims);
      EvictedEachIndexed(s, c1, victims);
    }
  }

  lemma NotedSize(s: Settings, c: Catalog, h: Hash, announce: bool, peer: Option<Peer>, now: real)
    requires Indexed(s, c)
    ensures |Noted(s, c, h, announce, peer, now).entries.m| <= |c.entries.m| + (if h in c.entries.m then 0 else 1)
  {
    hide Indexed, Noted, At, Ordered, Sighted, Live;
    NotedIndexed(s, c, h, announce, peer, now);
    if h !in c.entries.m { assert c.entries.m[h := |c.heap|].Keys == c.entries.m.Keys + {h}; }
  }

  /** The entry just created is itself evictable, so an eviction always removes something. */
  lemma SomeVictim(s: Settings, c: Catalog, h: Hash, announce: bool, peer: Option<Peer>, now: real, victims: seq<Id>)
    requires Indexed(s, c) && |c.entries.m| <= s.maxEntries && |Noted(s, c, h, announce, peer, now).entries.m| > s.maxEntries
    requires ChosenVictims(s, Noted(s, c, h, announce, peer, now), victims)
    ensures |victims| >= 1 && Evictees(Noted(s, c, h, announce, peer, now), victims)
  {
    hide Indexed, Noted, FirstCheap, KeyAtMost;
    NotedIndexed(s, c, h, announce, peer, now);
    NotedSize(s, c, h, announce, peer, now);
    var c1 := Noted(s, c, h, announce, peer, now);
    var id := GotOrCreated(c, h, now).1;
    SightedTags(s, At(GotOrCreated(c, h, now).0, id), announce, peer, now);
    assert Evictable(At(c1, id)) && c1.entries.m[h] == id;
    assert id in EvictableSet(c1);
  }

  // ----- what becomes of the victims' unwritten counts

  /** The victims whose counts the database still lacks. */
  function Owed(c: Catalog, victims: seq<Id>): seq<Id> {
    if victims == [] then []
    else (if At(c, victims[0]).base.Some? && HasNews(At(c, victims[0])) then [victims[0]] else []) + Owed(c, victims[1..])
  }

  lemma {:induction false} EvictedOrphans(s: Settings, c: Catalog, victims: seq<Id>, all: seq<Id>)
    requires Indexed(s, c) && Evictees(c, victims) && c.orphans == NewestOrphans(all)
    ensures var c' := EvictedEach(c, victims);
            c'.orphans == NewestOrphans(all + Owed(c, victims)) &&
            c'.dropped == c.dropped + |c.orphans| + |Owed(c, victims)| - |c'.orphans|
    decreases |victims|
  {
    hide Indexed, At, EvictedOne, Live, NewestOrphans, HasNews;
    if victims != [] {
      var v, rest := victims[0], victims[1..];
      assert v in victims;
      EvictIndexed(s, c, v);
      EvictedGone(s, c, v);
      var c1 := EvictedOne(c, v);
      forall x | x in rest ensures Live(c1, x) && Evictable(At(c1, x)) {
        assert x in victims && x != v;
      }
      OrphanedOne(s, c, v, all);
      var all1 := if At(c, v).base.Some? && HasNews(At(c, v)) then all + [v] else all;
      EvictedOrphans(s, c1, rest, all1);
      SameOwed(c, c1, rest);
      assert all1 + Owed(c1, rest) == all + Owed(c, victims);
    } else {
      assert all + Owed(c, victims) == all;
    }
  }

  lemma OrphanedOne(s: Settings, c: Catalog, v: Id, all: seq<Id>)
    requires Indexed(s, c) && c.orphans == NewestOrphans(all)
    ensures var c1, owed := EvictedOne(c, v), At(c, v).base.Some? && HasNews(At(c, v));
            c1.orphans == NewestOrphans(if owed then all + [v] else all) &&
            c1.dropped == c.dropped + |c.orphans| + (if owed then 1 else 0) - |c1.orphans|
  {
    hide Indexed, HasNews, Ordered, At, Pop, Bump;
    QueuesOf(s, c);
    NewestWith(all, c.orphans, v);
  }

  lemma {:induction false} SameOwed(c: Catalog, c1: Catalog, victims: seq<Id>)
    requires forall v :: v in victims ==> At(c1, v) == At(c, v)
    ensures Owed(c1, victims) == Owed(c, victims)
  {
    hide At, HasNews;
    if victims != [] {
      assert victims[0] in victims;
      SameOwed(c, c1, victims[1..]);
    }
  }
}
