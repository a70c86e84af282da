/** Runs that show the limits: a sighting lost with its entry, and a sighting stored twice. */
module IndexThreadWitness {
  import opened ByteStrings
  import opened BoundedRecentMap
  import opened NodeIdentity
  import opened CatalogSpec
  import opened CatalogIndexes
  import opened CatalogMethods
  import opened CatalogFlushing
  import opened CatalogEviction
  import opened CatalogEntries
  import opened IndexThread
  import opened IndexThreadSafety
  import opened IndexThreadCounts
  import opened IndexThreadFlow
  import opened IndexThreadResults
  import opened IndexThreadLosses

  // ----- a catalog with room for one torrent, and two torrents h and g

  function Tiny(): Settings {
    Settings(1, 1, 1, 1, 0.0)
  }

  function SeenOnce(h: Hash, now: real, checked: bool): Entry {
    NewEntry(h, now, checked).(seen := 1)
  }

  lemma SeenFields(h: Hash, now: real, checked: bool)
    ensures var e := SeenOnce(h, now, checked);
            e.hash == h && e.seen == 1 && e.flushedSeen == 0 && e.base.None? && !e.looking && e.state == Pending && Cheap(e) && Unflushed(e, Sightings) == 1
  {
  }

  function OneEntry(h: Hash, check: bool): Catalog {
    Catalog([SeenOnce(h, 0.0, !check)], Dict([h], map[h := 0]), map[], map[],
            if check then Empty() else Dict([h], map[h := 0]), if check then Dict([h], map[h := 0]) else Empty(),
            StateCounts(1, 0, 0, 0), 0, 0, Empty(), Empty(), [], 1, 1, 0, 0, true, 1, check)
  }

  function NothingYet(rows: Rows, check: bool): System {
    System(TrackingEnabled(Blank(), 1, check), rows, Idle, {}, {})
  }

  lemma NothingYetStarts(rows: Rows, check: bool)
    ensures Start(NothingYet(rows, check))
  {
  }

  lemma FirstSighting(h: Hash, check: bool)
    ensures var c := TrackingEnabled(Blank(), 1, check);
            Noted(Tiny(), c, h, false, None, 0.0) == OneEntry(h, check) && Recorded(Tiny(), c, h, false, None, 0.0, []) == OneEntry(h, check)
  {
    var c := TrackingEnabled(Blank(), 1, check);
    var (c1, id) := GotOrCreated(c, h, 0.0);
    assert id == 0 && At(c1, 0) == NewEntry(h, 0.0, !check);
    var e := Sighted(Tiny(), At(c1, 0), false, None, 0.0);
    assert e == SeenOnce(h, 0.0, !check);
    var c2 := Replaced(Tiny(), c1.(needsLookup := Pop(c1.needsLookup, h), observations := 1), 0, e);
    assert c2.heap == [e] && c2.entries == Dict([h], map[h := 0]) && c2.fetchable == map[];
    assert c2.needsCheck == if check then Dict([h], map[h := 0]) else Empty();
    assert c2.needsLookup == if check then Empty() else Dict([h], map[h := 0]);
    assert c2 == OneEntry(h, check);
    assert |map[h := 0]| == 1;
  }

  lemma FirstStep(h: Hash, y: System, check: bool)
    requires y.cat == TrackingEnabled(Blank(), 1, check)
    ensures Enabled(Tiny(), y, Record(h, false, None, 0.0, [])) && Next(Tiny(), y, Record(h, false, None, 0.0, [])) == y.(cat := OneEntry(h, check))
  {
    hide Noted, Recorded;
    FirstSighting(h, check);
    assert |map[h := 0]| == 1;
  }

  /** A second torrent enters a catalog that holds the first one. */
  lemma SecondSighting(c: Catalog, h: Hash, g: Hash)
    requires h != g && |c.heap| == 1 && c.entries == Dict([h], map[h := 0])
    ensures var c2 := Noted(Tiny(), c, g, false, None, 1.0);
            c2.heap == c.heap + [SeenOnce(g, 1.0, !c.checkDatabase)] && c2.entries == Dict([h, g], map[h := 0, g := 1]) && |c2.entries.m| == 2 &&
            c2.documents == c.documents && c2.orphans == c.orphans
  {
    hide Ordered, Without, Bump, Pop, SetDefault, AwaitsCheck, CatalogSpec.Fetchable, NeedsLookup;
    var (c1, id) := GotOrCreated(c, g, 1.0);
    assert id == 1 && At(c1, 1) == NewEntry(g, 1.0, !c.checkDatabase);
    var e := Sighted(Tiny(), At(c1, 1), false, None, 1.0);
    assert e == SeenOnce(g, 1.0, !c.checkDatabase);
    assert SetAt(c1.heap, 1, e) == c.heap + [e];
    assert c1.entries == Dict([h, g], map[h := 0, g := 1]);
    assert map[h := 0, g := 1].Keys == {h, g};
    assert |map[h := 0, g := 1]| == |{h, g}|;
  }

  /** The older of two entries is the victim. */
  lemma OldestIsVictim(c: Catalog, h: Hash, g: Hash)
    requires h != g && c.entries == Dict([h, g], map[h := 0, g := 1]) && |c.heap| == 2 && At(c, 0).hash == h && At(c, 1).hash == g
    requires Cheap(At(c, 0)) && Evictable(At(c, 1))
    ensures ChosenVictims(Tiny(), c, [0])
  {
    hide Cheap, Evictable;
    CheapEvictable(At(c, 0));
    assert FirstCheap(c, [h, g], 1) == [0] + FirstCheap(c, [h, g][1..], 0);
    assert EvictableSet(c) == {0, 1};
  }

  lemma CheapEvictable(e: Entry)
    ensures Cheap(e) ==> Evictable(e)
  {
  }

  lemma ThenStep(s: Settings, y: System, steps: seq<Step>, i: nat, h: Hash)
    requires i < |steps|
    ensures After(s, y, steps[i..]) == After(s, Next(s, y, steps[i]), steps[i + 1..])
    ensures Run(s, y, steps[i..]) <==> Enabled(s, y, steps[i]) && Run(s, Next(s, y, steps[i]), steps[i + 1..])
    ensures RecordedIn(steps[i..], h, Sightings) == Recorded1(steps[i], h, Sightings) + RecordedIn(steps[i + 1..], h, Sightings)
  {
    hide Next, Enabled, Recorded1;
    assert steps[i..][0] == steps[i] && steps[i..][1..] == steps[i + 1..];
  }

  lemma RunsOut(s: Settings, y: System, steps: seq<Step>, h: Hash)
    ensures After(s, y, steps[|steps|..]) == y && Run(s, y, steps[|steps|..]) && RecordedIn(steps[|steps|..], h, Sightings) == 0
  {
  }

  /** The second sighting evicts the first torrent. */
  lemma SecondStep(y: System, h: Hash, g: Hash, e: Entry)
    requires h != g && y.cat.heap == [e] && e.hash == h && Cheap(e) && y.cat.entries == Dict([h], map[h := 0])
    ensures var step := Record(g, false, None, 1.0, [0]); var y' := Next(Tiny(), y, step);
            Enabled(Tiny(), y, step) && y' == y.(cat := y'.cat) && y'.cat == EvictedOne(Noted(Tiny(), y.cat, g, false, None, 1.0), 0) &&
            h !in y'.cat.entries.m && |y'.cat.heap| == 2 && At(y'.cat, 0) == e.(known := false) && At(y'.cat, 1).hash == g && y'.cat.documents == y.cat.documents &&
            y'.cat.orphans == (if e.base.Some? && HasNews(e) then OrphansWith(y.cat.orphans, 0) else y.cat.orphans)
  {
    hide Noted, ChosenVictims, HasNews, OrphansWith, Cheap, Ordered, EvictedOne;
    SecondSighting(y.cat, h, g);
    SeenFields(g, 1.0, !y.cat.checkDatabase);
    var c := Noted(Tiny(), y.cat, g, false, None, 1.0);
    assert At(c, 0) == e && At(c, 1) == SeenOnce(g, 1.0, !y.cat.checkDatabase);
    CheapEvictable(At(c, 1));
    OldestIsVictim(c, h, g);
    EvictedFields(c, 0);
    assert [0][1..] == [];
    assert EvictedEach(c, [0]) == EvictedEach(EvictedOne(c, 0), []);
  }

  // ----- a sighting is lost when its entry is evicted before it was ever written

  function LossSteps(h: Hash, g: Hash): seq<Step> {
    [Record(h, false, None, 0.0, []), Record(g, false, None, 1.0, [0])]
  }

  /** One sighting each of two torrents, with room for one: the first sighting is in no row, no entry and no queue. */
  lemma SightingLost(h: Hash, g: Hash)
    requires h != g
    ensures var y := NothingYet(map[], false);
            Start(y) && Run(Tiny(), y, LossSteps(h, g)) && RecordedIn(LossSteps(h, g), h, Sightings) == 1 &&
            Lost(After(Tiny(), y, LossSteps(h, g)), h, Sightings) == 1 && RowCount(After(Tiny(), y, LossSteps(h, g)).rows, h, Sightings) == 0
  {
    hide Noted, Recorded, ChosenVictims, EvictedEach, Start, Tiny, After, Run, RecordedIn, Lost, SeenOnce, EvictedOne, At, Unflushed, HasNews, Cheap;
    var s, y, steps := Tiny(), NothingYet(map[], false), LossSteps(h, g);
    NothingYetStarts(map[], false);
    assert steps[0..] == steps;
    FirstStep(h, y, false);
    ThenStep(s, y, steps, 0, h);
    var y1 := y.(cat := OneEntry(h, false));
    SeenFields(h, 0.0, true);
    SecondStep(y1, h, g, SeenOnce(h, 0.0, true));
    ThenStep(s, y1, steps, 1, h);
    var y2 := Next(s, y1, steps[1]);
    RunsOut(s, y2, steps, h);
    UnflushedKnown(SeenOnce(h, 0.0, true));
    LostOne(y2, h, g);
  }

  lemma UnflushedKnown(e: Entry)
    ensures Unflushed(e.(known := false), Sightings) == Unflushed(e, Sightings)
  {
  }

  lemma LostOne(y: System, h: Hash, g: Hash)
    requires h != g && y.phase == Idle && |y.cat.heap| == 2 && At(y.cat, 0).hash == h && Unflushed(At(y.cat, 0), Sightings) == 1 && At(y.cat, 1).hash == g
    requires h !in y.cat.entries.m && y.cat.documents.m == map[] && y.cat.orphans == []
    ensures Lost(y, h, Sightings) == 1
  {
    hide At, Reachable, Unflushed;
    NotReachable(y, 0);
    assert LostShare(y, 0, h, Sightings) == 1;
    assert LostShare(y, 1, h, Sightings) == 0;
    hide LostShare;
    assert LostBelow(y, 0, h, Sightings) == 0;
    assert LostBelow(y, 1, h, Sightings) == 1;
    assert LostBelow(y, 2, h, Sightings) == 1;
  }

  lemma NotReachable(y: System, id: Id)
    requires y.phase == Idle && At(y.cat, id).hash !in y.cat.entries.m && At(y.cat, id).hash !in y.cat.documents.m && y.cat.orphans == []
    ensures !Reachable(y, id)
  {
    hide At;
  }

  // ----- a sighting is stored twice when an entry is evicted while its write fails

  function Row5(h: Hash): Rows {
    map[h := Row(5, 0, 0.0, 0.0)]
  }

  /** Torrent h, known to the database, with one sighting to add. */
  function KnownEntry(h: Hash): Entry {
    SeenOnce(h, 0.0, true).(base := Some(Base(5, 0, Some(0.0))), inDatabase := true, known := true, state := Done)
  }

  lemma KnownFields(h: Hash)
    ensures var e := KnownEntry(h);
            var x := SnapshotOf(0, e);
            e.hash == h && e.seen == 1 && e.base.Some? && Cheap(e) && HasNews(e) &&
            x.id == 0 && x.hash == h && x.seen == 1 && x == SnapshotOf(0, e.(known := false)) && !Empty?(x)
  {
  }

  /** Only torrent h is in memory, known to the database. */
  predicate OnlyKnown(c: Catalog, h: Hash, counters: RawDict<Hash, Id>) {
    c.heap == [KnownEntry(h)] && c.entries == Dict([h], map[h := 0]) && c.orphans == [] && c.counters == counters
  }

  lemma CheckFindsTorrent(h: Hash)
    ensures OnlyKnown(ChecksApplied(Tiny(), OneEntry(h, true), [h], LookedUp(Row5(h), [h])), h, Dict([h], map[h := 0]))
  {
    var c, found := OneEntry(h, true), LookedUp(Row5(h), [h]);
    assert found == map[h := Base(5, 0, Some(0.0))];
    assert At(c, 0) == SeenOnce(h, 0.0, false);
    assert [h][1..] == [];
    AppliedOne(c, h, SeenOnce(h, 0.0, false), found);
    hide OneCheckApplied, OnlyKnown;
    assert ChecksApplied(Tiny(), c, [h], found) == ChecksApplied(Tiny(), OneCheckApplied(Tiny(), c, h, found), [], found);
  }

  lemma AppliedOne(c: Catalog, h: Hash, e: Entry, found: map<Hash, Base>)
    requires c.heap == [e] && c.entries == Dict([h], map[h := 0]) && c.orphans == [] && c.counters == Empty() && c.tracking
    requires c.needsCheck == Dict([h], map[h := 0]) && e == SeenOnce(h, 0.0, false) && found == map[h := Base(5, 0, Some(0.0))]
    ensures OnlyKnown(OneCheckApplied(Tiny(), c, h, found), h, Dict([h], map[h := 0]))
  {
    hide Ordered, Without, Bump, SetDefault, AwaitsCheck, CatalogSpec.Fetchable, NeedsLookup, Replaced, KnownEntry;
    assert At(c, 0) == e && !e.checked && e.state == Pending;
    var c1 := c.(needsCheck := Pop(c.needsCheck, h));
    var e1 := e.(checked := true, base := Some(found[h]), inDatabase := true, peers := [], failed := {}, known := true, state := Done);
    assert e1 == KnownEntry(h) by { KnownIs(h); }
    ReplacedOnly(Tiny(), c1, e1);
    NotedOnly(Replaced(Tiny(), c1, 0, e1), h);
  }

  lemma KnownIs(h: Hash)
    ensures KnownEntry(h) == SeenOnce(h, 0.0, false).(checked := true, base := Some(Base(5, 0, Some(0.0))), inDatabase := true, peers := [], failed := {}, known := true, state := Done)
  {
  }

  lemma ReplacedOnly(s: Settings, c: Catalog, e: Entry)
    requires |c.heap| == 1
    ensures var c2 := Replaced(s, c, 0, e);
            c2.heap == [e] && c2.entries == c.entries && c2.orphans == c.orphans && c2.counters == c.counters && c2.tracking == c.tracking
  {
    hide Ordered, Pop, SetDefault, AwaitsCheck, CatalogSpec.Fetchable, NeedsLookup, Bump;
  }

  lemma NotedOnly(c: Catalog, h: Hash)
    requires c.counters == Empty()
    ensures NoteCounters(c, h, 0) == c.(counters := Dict([h], map[h := 0]))
  {
  }

  /** A counter alone in its queue is drained. */
  lemma DrainOne(s: Settings, c: Catalog, h: Hash, id: Id, e: Entry)
    requires c.orphans == [] && c.counters == Dict([h], map[h := id]) && At(c, id) == e && e.base.Some? && HasNews(e)
    ensures AllCountersDrained(s, c, 1) == (c.(counters := Empty()), [SnapshotOf(id, e)])
  {
    hide SnapshotOf, HasNews, At, Ordered;
    assert OrphansDrained(c, 1) == (c, []);
    var c1 := c.(counters := Empty());
    assert PopFirst(c.counters) == Empty();
    assert CountersDrained(s, c1, 0, 0) == (c1, []);
    assert [SnapshotOf(id, e)] + [] == [SnapshotOf(id, e)];
    assert CountersDrained(s, c, 1, 1) == (c1, [SnapshotOf(id, e)] + CountersDrained(s, c1, 0, 0).1);
    assert [] + [SnapshotOf(id, e)] == [SnapshotOf(id, e)];
  }

  lemma RequeuedAgain(c: Catalog, x: Snapshot)
    requires x.hash !in c.entries.m && c.orphans == [x.id]
    ensures CountersRequeued(c, [x]) == c.(orphans := [x.id, x.id])
  {
    assert AddOrphan(c, x.id).orphans == [x.id, x.id];
    assert AddOrphan(c, x.id) == c.(orphans := [x.id, x.id]);
    assert [x][1..] == [];
  }

  /** Two copies of one orphan are drained together, each with the whole of what it has not flushed. */
  lemma DrainTwo(s: Settings, c: Catalog, id: Id, x: Snapshot)
    requires c.orphans == [id, id] && x == SnapshotOf(id, At(c, id)) && !Empty?(x)
    ensures AllCountersDrained(s, c, 2).1 == [x, x]
  {
    hide SnapshotOf, At, Empty?;
    var c1, c2 := c.(orphans := [id]), c.(orphans := []);
    CatalogMethods.SameHeap(c, c1);
    assert [id, id][1..] == [id] && [id][1..] == [];
    assert OrphansDrained(c2, 0) == (c2, []);
    assert [x] + [] == [x];
    assert OrphansDrained(c1, 1) == (c2, [x] + OrphansDrained(c2, 0).1);
    assert OrphansDrained(c, 2) == (c2, [x] + [x]);
    hide OrphansDrained;
    DrainNone(s, c2);
    assert [x, x] + [] == [x, x];
  }

  lemma DrainNone(s: Settings, c: Catalog)
    ensures forall turns: nat :: CountersDrained(s, c, 0, turns) == (c, [])
  {
  }

  lemma WrittenTwice(rows: Rows, x: Snapshot)
    requires x.hash in rows
    ensures RowCount(CountersWritten(rows, [x, x]), x.hash, Sightings) == RowCount(rows, x.hash, Sightings) + 2 * x.seen
  {
    assert [x, x][1..] == [x] && [x][1..] == [];
    assert CountersWritten(CounterWritten(CounterWritten(rows, x), x), []) == CounterWritten(CounterWritten(rows, x), x);
    assert CountersWritten(CounterWritten(rows, x), [x]) == CounterWritten(CounterWritten(rows, x), x);
  }

  function DoubleSteps(h: Hash, g: Hash): (r: seq<Step>)
    ensures |r| == 9
  {
    [Record(h, false, None, 0.0, []), TakeChecks(1), ReadChecks, ApplyChecks, DrainCounters(1), Record(g, false, None, 1.0, [0]), CountersFail,
     DrainCounters(2), WriteCounters]
  }

  lemma TakesFirst(y: System, h: Hash)
    requires y.cat == OneEntry(h, true) && y.phase == Idle
    ensures Next(Tiny(), y, TakeChecks(1)) == y.(phase := ChecksOut([h]))
  {
    assert [h][..1] == [h];
  }

  /** Torrent h is found in the database, and its sighting drained. */
  predicate Drained(z: System, h: Hash) {
    OnlyKnown(z.cat, h, Empty()) && z.rows == Row5(h) && z.phase == CountersOut([SnapshotOf(0, KnownEntry(h))])
  }

  /** z is where the first n steps of the run lead from y. */
  ghost predicate Leads(y: System, z: System, h: Hash, g: Hash, i: nat, n: nat, recorded: nat)
    requires i <= n <= |DoubleSteps(h, g)|
  {
    var s, steps := Tiny(), DoubleSteps(h, g);
    After(s, y, steps[i..]) == After(s, z, steps[n..]) && (Run(s, z, steps[n..]) ==> Run(s, y, steps[i..])) &&
    RecordedIn(steps[i..], h, Sightings) == recorded + RecordedIn(steps[n..], h, Sightings)
  }

  lemma LeadsBy(y: System, h: Hash, g: Hash, i: nat, step: Step)
    requires i < 9 && step == DoubleSteps(h, g)[i] && Enabled(Tiny(), y, step)
    ensures Leads(y, Next(Tiny(), y, step), h, g, i, i + 1, Recorded1(step, h, Sightings))
  {
    hide Next, Enabled, Recorded1, DoubleSteps, After, Run, RecordedIn;
    ThenStep(Tiny(), y, DoubleSteps(h, g), i, h);
  }

  lemma LeadsOn(y: System, z: System, w: System, h: Hash, g: Hash, i: nat, n: nat, m: nat, a: nat, b: nat)
    requires i <= n <= m <= 9 && Leads(y, z, h, g, i, n, a) && Leads(z, w, h, g, n, m, b)
    ensures Leads(y, w, h, g, i, m, a + b)
  {
    hide DoubleSteps, After, Run, RecordedIn;
  }

  lemma ChecksRun(y: System, h: Hash, g: Hash) returns (z: System)
    requires h != g && y == NothingYet(Row5(h), true)
    ensures Leads(y, z, h, g, 0, 4, 1) && OnlyKnown(z.cat, h, Dict([h], map[h := 0])) && z.rows == Row5(h) && z.phase == Idle
  {
    hide Recorded, Noted, ChecksApplied, OneEntry, Start, Row5, LookedUp, OnlyKnown, TrackingEnabled, Blank, Leads, After, Run;
    FirstStep(h, y, true);
    LeadsBy(y, h, g, 0, Record(h, false, None, 0.0, []));
    var y1 := y.(cat := OneEntry(h, true));
    LeadsBy(y1, h, g, 1, TakeChecks(1));
    TakesFirst(y1, h);
    var y2 := y1.(phase := ChecksOut([h]));
    LeadsOn(y, y1, y2, h, g, 0, 1, 2, 1, 0);
    z := AppliedRun(y2, h, g);
    LeadsOn(y, y2, z, h, g, 0, 2, 4, 1, 0);
  }

  lemma AppliedRun(y: System, h: Hash, g: Hash) returns (z: System)
    requires h != g && y.cat == OneEntry(h, true) && y.rows == Row5(h) && y.phase == ChecksOut([h])
    ensures Leads(y, z, h, g, 2, 4, 0) && OnlyKnown(z.cat, h, Dict([h], map[h := 0])) && z.rows == Row5(h) && z.phase == Idle
  {
    hide ChecksApplied, OneEntry, Row5, LookedUp, OnlyKnown, Leads, After, Run;
    LeadsBy(y, h, g, 2, ReadChecks);
    var y3 := y.(phase := ChecksRead([h], LookedUp(Row5(h), [h])));
    LeadsBy(y3, h, g, 3, ApplyChecks);
    CheckFindsTorrent(h);
    z := Next(Tiny(), y3, ApplyChecks);
    LeadsOn(y, y3, z, h, g, 2, 3, 4, 0, 0);
  }

  lemma DrainRun(y: System, h: Hash, g: Hash) returns (z: System)
    requires h != g && OnlyKnown(y.cat, h, Dict([h], map[h := 0])) && y.rows == Row5(h) && y.phase == Idle
    ensures Leads(y, z, h, g, 4, 5, 0) && Drained(z, h)
  {
    hide AllCountersDrained, Row5, SnapshotOf, HasNews, Cheap, KnownEntry, Leads, After, Run;
    LeadsBy(y, h, g, 4, DrainCounters(1));
    KnownFields(h);
    assert At(y.cat, 0) == KnownEntry(h);
    DrainOne(Tiny(), y.cat, h, 0, KnownEntry(h));
    z := Next(Tiny(), y, DrainCounters(1));
  }

  /** Torrent h is evicted, and its snapshot requeued: two copies among the orphans. */
  lemma EvictRun(y: System, h: Hash, g: Hash) returns (z: System)
    requires h != g && Drained(y, h)
    ensures Leads(y, z, h, g, 5, 7, 0) && z.rows == Row5(h) && z.phase == Idle && z.cat.orphans == [0, 0] && At(z.cat, 0) == KnownEntry(h).(known := false)
  {
    hide Noted, Recorded, CountersRequeued, Row5, SnapshotOf, HasNews, Cheap, KnownEntry, Leads, After, Run, EvictedOne, ChosenVictims;
    KnownFields(h);
    SecondStep(y, h, g, KnownEntry(h));
    var step := Record(g, false, None, 1.0, [0]);
    LeadsBy(y, h, g, 5, step);
    var z1 := Next(Tiny(), y, step);
    assert z1.cat.orphans == [0];
    LeadsBy(z1, h, g, 6, CountersFail);
    RequeuedAgain(z1.cat, SnapshotOf(0, KnownEntry(h)));
    z := Next(Tiny(), z1, CountersFail);
    CatalogMethods.SameHeap(z1.cat, z.cat);
    LeadsOn(y, z1, z, h, g, 5, 6, 7, 0, 0);
  }

  lemma WriteRun(y: System, h: Hash, g: Hash) returns (z: System)
    requires h != g && y.rows == Row5(h) && y.phase == Idle && y.cat.orphans == [0, 0] && At(y.cat, 0) == KnownEntry(h).(known := false)
    ensures Leads(y, z, h, g, 7, 9, 0) && RowCount(z.rows, h, Sightings) == 7
  {
    hide AllCountersDrained, CountersWritten, MissingFrom, RowCount, Row5, SnapshotOf, HasNews, Cheap, KnownEntry, Leads, After, Run, At, Empty?;
    var x := SnapshotOf(0, KnownEntry(h));
    KnownFields(h);
    LeadsBy(y, h, g, 7, DrainCounters(2));
    DrainTwo(Tiny(), y.cat, 0, x);
    var z1 := Next(Tiny(), y, DrainCounters(2));
    LeadsBy(z1, h, g, 8, WriteCounters);
    Row5Count(h);
    WrittenTwice(Row5(h), x);
    z := Next(Tiny(), z1, WriteCounters);
    LeadsOn(y, z1, z, h, g, 7, 8, 9, 0, 0);
  }

  lemma LeadsAll(y: System, z: System, h: Hash, g: Hash)
    requires Leads(y, z, h, g, 0, 9, 1)
    ensures var s, steps := Tiny(), DoubleSteps(h, g); Run(s, y, steps) && After(s, y, steps) == z && RecordedIn(steps, h, Sightings) == 1
  {
    hide After, Run, RecordedIn;
    assert DoubleSteps(h, g)[0..] == DoubleSteps(h, g);
    RunsOut(Tiny(), z, DoubleSteps(h, g), h);
  }

  lemma Row5Count(h: Hash)
    ensures RowCount(Row5(h), h, Sightings) == 5 && h in Row5(h)
  {
  }

  /** One sighting of a torrent whose row held 5; the row ends up at 7. */
  lemma SightingStoredTwice(h: Hash, g: Hash)
    requires h != g
    ensures var y := NothingYet(Row5(h), true);
            Start(y) && Run(Tiny(), y, DoubleSteps(h, g)) && RecordedIn(DoubleSteps(h, g), h, Sightings) == 1 &&
            RowCount(y.rows, h, Sightings) == 5 && RowCount(After(Tiny(), y, DoubleSteps(h, g)).rows, h, Sightings) == 7
  {
    hide Run, After, Start, RecordedIn, DoubleSteps, OnlyKnown, Drained, RowCount, Row5, KnownEntry, At, Leads;
    var y := NothingYet(Row5(h), true);
    NothingYetStarts(Row5(h), true);
    Row5Count(h);
    var y4 := ChecksRun(y, h, g);
    var y5 := DrainRun(y4, h, g);
    var y7 := EvictRun(y5, h, g);
    var z := WriteRun(y7, h, g);
    LeadsOn(y, y4, y5, h, g, 0, 4, 5, 1, 0);
    LeadsOn(y, y5, y7, h, g, 0, 5, 7, 1, 0);
    LeadsOn(y, y7, z, h, g, 0, 7, 9, 1, 0);
    LeadsAll(y, z, h, g);
  }
}
