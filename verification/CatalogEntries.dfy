/** The life of one entry: what holds of every entry in memory, and what each event keeps of it. */
module CatalogEntries {
  import opened ByteStrings
  import opened BoundedRecentMap
  import opened NodeIdentity
  import opened CatalogSpec
  import opened CatalogMethods
  import opened CatalogFlushing

  /** No blamed peer is among the peers, which are bounded and all different. */
  ghost predicate PeersOk(s: Settings, e: Entry) {
    Distinct(e.peers) && |e.peers| <= s.maxPeers && forall p :: p in e.peers ==> p !in e.failed
  }

  /** An entry has attempts and lookups left while it is worked on, and its counters never pass their limits. */
  predicate BudgetOk(s: Settings, e: Entry) {
    e.lookups <= s.maxLookups && (e.looking ==> e.lookups < s.maxLookups) && e.attempts <= s.maxAttempts &&
    (e.state == Pending || e.state == InProgress || e.meta.Some? ==> e.attempts < s.maxAttempts) &&
    (!e.checked ==> e.state == Pending && e.lookups == 0 && !e.looking)
  }

  /** Pending work always waits somewhere: for a check, a fetch, a lookup to start, or a lookup to finish. */
  predicate NotStranded(s: Settings, e: Entry) {
    e.state == Pending ==> AwaitsCheck(e) || Fetchable(e) || NeedsLookup(s, e) || e.looking
  }

  /** An entry has metadata or is known to the database when it is done, and at no other time. */
  predicate StageOk(e: Entry) {
    (e.base.None? ==> e.flushedSeen == 0 && e.flushedAnnounced == 0) &&
    (if e.state != Done then e.meta.None? && e.base.None? && !e.inDatabase && !e.known
     else if e.meta.Some? then e.base.None? && !e.inDatabase && !e.known && e.peers != []
     else e.base.Some? && e.inDatabase) &&
    (e.state == InProgress ==> e.checked && e.peers != [])
  }

  ghost predicate EntryOk(s: Settings, e: Entry) {
    PeersOk(s, e) && BudgetOk(s, e) && StageOk(e) && (s.maxLookups >= 1 ==> NotStranded(s, e))
  }

  /** Failures and lookups counted so far; at most max_fetch_attempts + max_lookups. */
  function Work(e: Entry): nat {
    e.attempts + e.lookups
  }

  lemma NewEntryOk(s: Settings, h: Hash, now: real, checked: bool)
    ensures EntryOk(s, NewEntry(h, now, checked))
  {
  }

  lemma AddPeerOk(s: Settings, e: Entry, p: Peer)
    requires EntryOk(s, e)
    ensures EntryOk(s, AddPeer(s, e, p)) && (e.peers != [] ==> AddPeer(s, e, p).peers != [])
  {
    hide RememberedKeys;
  }

  lemma {:induction false} AddPeersOk(s: Settings, e: Entry, peers: seq<Peer>)
    requires EntryOk(s, e)
    ensures EntryOk(s, AddPeers(s, e, peers)) && (e.peers != [] ==> AddPeers(s, e, peers).peers != [])
    decreases |peers|
  {
    hide EntryOk, AddPeer;
    if peers != [] {
      AddPeerOk(s, e, peers[0]);
      AddPeersOk(s, AddPeer(s, e, peers[0]), peers[1..]);
    }
  }

  lemma SightedOk(s: Settings, e: Entry, announce: bool, peer: Option<Peer>, now: real)
    requires EntryOk(s, e)
    ensures EntryOk(s, Sighted(s, e, announce, peer, now))
  {
    hide AddPeer, Max, Distinct;
    var e1 := e.(seen := e.seen + 1, lastSeen := Max(e.lastSeen, now), announced := e.announced + (if announce then 1 else 0));
    assert EntryOk(s, e1);
    if peer.Some? { AddPeerOk(s, e1, peer.value); }
  }

  lemma LookupClaimedOk(s: Settings, e: Entry)
    requires EntryOk(s, e) && NeedsLookup(s, e)
    ensures EntryOk(s, e.(looking := true))
  {
    hide Distinct;
  }

  lemma LookupReleasedOk(s: Settings, e: Entry)
    requires EntryOk(s, e) && e.looking
    ensures EntryOk(s, e.(looking := false))
  {
    hide Distinct;
  }

  lemma AfterLookupOk(s: Settings, e: Entry, peers: seq<Peer>, now: real)
    requires EntryOk(s, e) && e.looking
    ensures EntryOk(s, AfterLookup(s, e, peers, now)) && Work(AfterLookup(s, e, peers, now)) == Work(e) + 1
  {
    hide Distinct, AddPeers;
    var e0 := e.(looking := false, lookups := e.lookups + 1);
    AddPeersOnly(s, e0, peers);
    PeersStayOk(s, e0, peers);
  }

  /** Adding peers keeps the peers in order whatever else holds of the entry. */
  lemma {:induction false} PeersStayOk(s: Settings, e: Entry, peers: seq<Peer>)
    requires PeersOk(s, e)
    ensures PeersOk(s, AddPeers(s, e, peers)) && (e.peers != [] ==> AddPeers(s, e, peers).peers != [])
    decreases |peers|
  {
    if peers != [] {
      assert PeersOk(s, AddPeer(s, e, peers[0])) by { hide RememberedKeys; }
      hide PeersOk, RememberedKeys;
      PeersStayOk(s, AddPeer(s, e, peers[0]), peers[1..]);
    }
  }

  lemma FetchClaimedOk(s: Settings, e: Entry)
    requires EntryOk(s, e) && Fetchable(e)
    ensures EntryOk(s, e.(state := InProgress))
  {
    hide Distinct;
  }

  lemma StoredOk(s: Settings, e: Entry, meta: Metadata)
    requires EntryOk(s, e) && e.state == InProgress
    ensures EntryOk(s, StoredEntry(e, meta))
  {
    hide Distinct;
  }

  /** Every blamed peer is remembered as failed, and none of the others leaves. */
  lemma {:induction false} ForgetPeersOk(s: Settings, e: Entry, tried: seq<Peer>)
    requires PeersOk(s, e)
    ensures var e' := ForgetPeers(e, tried);
            PeersOk(s, e') && (forall p :: p in e'.failed <==> p in e.failed || p in tried) && forall p :: p in e'.peers <==> p in e.peers && p !in tried
    decreases |tried|
  {
    if tried != [] {
      assert PeersOk(s, ForgetPeer(e, tried[0])) by { WithoutShorter(e.peers, tried[0]); }
      hide PeersOk, Without;
      ForgetPeersOk(s, ForgetPeer(e, tried[0]), tried[1..]);
      assert forall p :: p in tried <==> p == tried[0] || p in tried[1..];
    }
  }

  lemma WithoutShorter(peers: seq<Peer>, p: Peer)
    ensures |Without(peers, p)| <= |peers| && p !in Without(peers, p)
  {
  }

  lemma AfterFailureOk(s: Settings, e: Entry, tried: seq<Peer>, reason: string, now: real)
    requires EntryOk(s, e) && e.state == InProgress
    ensures EntryOk(s, AfterFailure(s, e, tried, reason, now)) && Work(AfterFailure(s, e, tried, reason, now)) == Work(e) + 1
  {
    hide Distinct, ForgetPeers;
    ForgetPeersOnly(e, tried);
    ForgetPeersOk(s, e, tried);
  }

  lemma FetchReleasedOk(s: Settings, e: Entry)
    requires EntryOk(s, e) && e.state == InProgress
    ensures EntryOk(s, e.(state := Pending))
  {
    hide Distinct;
  }

  lemma UndocumentedOk(s: Settings, e: Entry)
    requires EntryOk(s, e) && DropsMetadata(e)
    ensures EntryOk(s, Undocumented(e))
  {
    hide Distinct;
  }

  lemma CheckedOk(s: Settings, e: Entry)
    requires EntryOk(s, e)
    ensures EntryOk(s, e.(checked := true))
  {
    hide Distinct;
  }

  lemma CheckedEntryOk(s: Settings, e: Entry, found: map<Hash, Base>)
    requires EntryOk(s, e)
    ensures EntryOk(s, CheckedEntry(e, found))
  {
  }

  lemma MarkedEntryOk(s: Settings, e: Entry, x: Snapshot, base: Base)
    requires EntryOk(s, e) && e.state == Done && e.meta == x.meta && x.meta.Some?
    ensures EntryOk(s, MarkedEntry(e, x, base, true))
  {
  }

  lemma FlushedOk(s: Settings, e: Entry, seen: int, announced: int)
    requires EntryOk(s, e) && e.base.Some?
    ensures EntryOk(s, e.(flushedSeen := seen, flushedAnnounced := announced))
  {
    hide Distinct;
  }
}
