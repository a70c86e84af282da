# Verified model of the DHT scraper

The scraper walks the BitTorrent DHT, records the torrents it hears of, looks up their peers, fetches their
metadata and writes what it learns to SQLite. This project models the parts of it that have to be right together,
and proves what they keep.

**Catalog, index thread and counters.** `CatalogSpec` says what each method of the catalog does to its state, entry by
entry; every entry has an identity, so two incarnations of one torrent are told apart. `CatalogIndexes` states when the
derived tables and running counts are exact, and `CatalogMethods`, `CatalogFlushing` and `CatalogEviction` prove that
every method keeps them so. `CatalogEntries` follows the life of one entry. `IndexThread` is the state machine of the
three threads: between any two steps of the index thread (drain, write, mark or requeue) the crawler and the fetch
engine record, claim and evict, and a transaction commits whole or fails whole. `IndexThreadSafety`,
`IndexThreadCounts`, `IndexThreadFlow`, `IndexThreadRepeats`, `IndexThreadResults`, `IndexThreadLosses` and
`IndexThreadCapacity` prove what holds over every interleaving: exact tables, claims that match the work, conservation
of sightings, when a count is stored twice, when what is shown is what is stored, exactly when a sighting is lost, and
the bound on entries. `IndexThreadWitness`, `IndexThreadLateSighting` and `IndexThreadStranded` hold the runs that show
where the code does less than it seems to. `TorrentCatalog` and `SearchIndexer` are the same operations as methods that
change fields in place, each proved against its specification; `FlushOutcomes` says what the flush loops leave behind.

**Lookups.** `DhtLookup` says what the lookup manager does, `DhtLookupProofs` and `DhtLookupRuns` prove that its three
tables always agree, that its caps and its query budget hold, that no transaction id is in use twice, and that every
lookup that starts finishes once; `DhtLookupParallel` says what more than one query in flight does to the rules on
addresses. `LookupManager` is the manager with its tables changed in place. `CrawlerClaims` and
`DhtCrawler` put it into the crawler thread beside the catalog; `FetchJob` and `FetchClaims` do the same for the fetch
engine.

**Wire formats and streams.** `BencodeCodec` and `BencodeProofs` (BEP 3), `PeerWire` and `MetadataFetcher` (BEP 9 and
BEP 10), `UtpTransport` (BEP 29), `StreamEncryption` (message stream encryption with RC4).

**Search and limits.** `TypoIndex` is the deletion-neighbourhood index for misspelt words, `SendWindow` the cap on packets
to one address, `BoundedRecentMap` the recency map under it, `NodeIdentity` the XOR metric and the transaction ids.
`ByteStrings`, `BigEndian` and `Bits` are the small tools the others share.

Conventions: ids and hashes are natural numbers, bytes are numbers below 256, time is a real number given with each
call. What the network, the clock, the event loop and the disk decide is an argument of the step it decides.
Calls to the outside (queries sent, peers handed on, lookups reported) are recorded as events.

Where the repository's own documentation and its code disagree the model follows the code:

- README.md line 111 says no address receives more than 40 packets in 10 s. The windows are fixed, so the bound for an
  arbitrary interval of 10 s is 79 (`SendWindow.AtMost79`), and it is reached (`SendWindow.SeventyNineAtOnce`). The
  bound of 40 holds for [t, t + 10) exactly when at t the window of the address is over, used up, or no older than t
  (`SendWindow.FortyIff`).
- README.md lines 297-298 say no sighting is lost when an entry is evicted. An entry evicted with unflushed counts loses
  them at once exactly when it is neither queued as a document nor drained, and either was never written or is pushed
  out of the orphan queue (`IndexThreadLosses.EvictionLosesIff`, `IndexThreadWitness.SightingLost`). One that is queued
  or drained can lose them later: when its document is marked it loses what it was sighted after the drain, unless it is
  an orphan (`IndexThreadLosses.MarkLosesIff`, `IndexThreadLateSighting.RowOneShort`), and when its document fails it
  loses them if a newer document of the torrent is queued (`IndexThreadLosses.FailureLosesIff`).

And where the code does less than one would expect of it, the exact condition is proved:

- An entry whose counters are drained and that is evicted meanwhile is an orphan, and is one twice when the write fails
  and it is requeued. Its counts are stored twice exactly when both copies are in one drained batch that is written
  (`IndexThreadRepeats.RequeueRepeatsIff`, `IndexThreadRepeats.WriteTwiceIff`, `IndexThreadWitness.SightingStoredTwice`).
- What `cumulative_counters` shows is the stored row and what is unflushed, less what was written for earlier
  incarnations of the torrent since the base was read (`IndexThreadResults.DisplayedAgrees`).
- With more than one query in flight per lookup, two nodes at one address may both be asked
  (`DhtLookupParallel.SharedAddressAskedTwice`). No address is asked twice exactly when the nodes asked have different
  addresses (`DhtLookupParallel.OncePerAddressIff`); the cap per node holds exactly when every address has room for the
  nodes asked there (`DhtLookupParallel.CapPerNodeIff`); and a run that hears of no two usable nodes at one address
  keeps both rules (`DhtLookupParallel.BothRulesHold`).
- A reset leaves a torrent waiting for nothing exactly when it has no peers and no lookup left or running
  (`IndexThreadStranded.ResetStrandsIff`). The threads alone never reset a base (`IndexThreadSafety.NeverReset`); one row
  deleted from outside is enough (`IndexThreadStranded.TorrentStranded`).

In the table, the rows that begin "In place" come last, grouped by class. They say that a method which changes fields
does what a function of the specification says; what is proved of that function is in the rows above them.

## Model

| member | source | states |
|---|---|---|
| `BencodeProofs.PrefixRoundTrip` | dht_scraper/bencode_codec.py:20-173 | For every value v and all byte strings p and s, decoding p + encode(v) + s at position len(p) gives v and stops exactly at the end of its encoding |
| `BencodeProofs.PrefixFree` | dht_scraper/bencode_codec.py:59-76 | If two encodings followed by raw bytes are the same string, the values and the raw bytes are the same |
| `BencodeProofs.DecodeEncode` | dht_scraper/bencode_codec.py:178-186 | Decoding an encoding gives the value back |
| `BencodeProofs.DecodeNormalises` | dht_scraper/bencode_codec.py:178-186 | Re-encoding an accepted message and decoding it again changes nothing; the bytes come back unchanged exactly when no string length has a superfluous leading zero and all dictionary keys strictly increase |
| `BencodeProofs.ReencodeIffCanonical` | dht_scraper/bencode_codec.py:159-173 | The same condition, exact in both directions, for a value read in the middle of any data |
| `BencodeCodec.DecodeListAt` | dht_scraper/bencode_codec.py:118-131 | The loop over the items of a list reads what the recursive grammar reads, rejects what it rejects, and ends for every input |
| `BencodeCodec.DecodeDictAt` | dht_scraper/bencode_codec.py:136-154 | The same for the entries of a dictionary, where a repeated key keeps its last value |
| `BencodeCodec.DecodeValueAt` | dht_scraper/bencode_codec.py:159-173 | The mutual recursion of the four decoders agrees with the grammar and makes progress on every input |
| `PeerWire.HandshakeRoundTrip` | dht_scraper/peer_wire_messages.py:30-49 | A handshake sent is the handshake read, with the extension bit recognised |
| `PeerWire.FrameRoundTrip` | dht_scraper/peer_wire_messages.py:54-67 | A frame of allowed length is cut out of the stream exactly, whatever follows it |
| `PeerWire.ExtendedRoundTrip` | dht_scraper/peer_wire_messages.py:72-91 | The dictionary of an extended message and the raw bytes behind it are both recovered |
| `PeerWire.RequestUnderstood` | dht_scraper/peer_wire_messages.py:122-141 | The frame sent for a piece is read by the peer as a request for that piece |
| `MetadataFetcher.ReceiveExtended` | dht_scraper/metadata_fetcher.py:229-242 | Skips exactly the frames that are not for the given extension, and stops at the first that is, or that is malformed |
| `MetadataFetcher.ReceivePiece` | dht_scraper/metadata_fetcher.py:260-278 | Skips exactly the frames that mean nothing for the outstanding pieces; the next one decides: a piece, a reject or an error |
| `MetadataFetcher.RequestPieces` | dht_scraper/metadata_fetcher.py:283-300 | Each piece is requested once, in order, never more than eight outstanding; a success has the announced length; with any order of unsolicited and repeated answers, honest pieces of M give M, and a peer that answers every request in any order, with keep-alives, other messages and repeated answers in between, is never turned away |
| `MetadataFetcher.JoinedLength` | dht_scraper/peer_wire_messages.py:146-159 | The lengths of the pieces add up to the size of the metadata |
| `MetadataFetcher.AskKeeps` | dht_scraper/metadata_fetcher.py:283-300 | A request sent below the window keeps received and outstanding pieces a partition of the pieces asked for, in the order of the trace |
| `MetadataFetcher.GotKeeps` | dht_scraper/metadata_fetcher.py:283-300 | So does an outstanding piece that is received |
| `StreamEncryption.CryptPermutes` | dht_scraper/stream_encryption.py:59-71 | The RC4 state stays a permutation of 0..255 |
| `StreamEncryption.CryptConcat` | dht_scraper/stream_encryption.py:59-71 | Encrypting a + b is encrypting a and then b |
| `StreamEncryption.CryptInverts` | dht_scraper/stream_encryption.py:59-71 | A cipher in the same state undoes the encryption and ends in the same state |
| `StreamEncryption.SchedulePermutes` | dht_scraper/stream_encryption.py:45-56 | The key schedule makes a permutation, for every key |
| `StreamEncryption.StreamTransparent` | dht_scraper/stream_encryption.py:102-133 | A stream written in some chunks and read in other chunks arrives unchanged, and both ciphers stay in step |
| `StreamEncryption.MseCipher` | dht_scraper/stream_encryption.py:85-90 | A cipher whose first 1024 keystream bytes are spent |
| `StreamEncryption.ScanForMarker` | dht_scraper/stream_encryption.py:138-166 | The loop over window and scanned stops behind the first copy of the marker within 512 + 8 bytes, and gives up only when there is none |
| `StreamEncryption.NegotiateInput` | dht_scraper/stream_encryption.py:138-166 | For any pad up to 512 bytes whose end is the first copy of the marker, exactly pad, marker, header and second pad are consumed, and what follows reads as what the peer wrote, encrypted or plain as its header chose; any other choice is refused |
| `StreamEncryption.NegotiatedStream` | dht_scraper/stream_encryption.py:138-166 | The stream returned holds both ciphers when RC4 was chosen and none for plaintext, and there is one exactly when a choice was accepted |
| `StreamEncryption.MarkerBehindPad` | dht_scraper/stream_encryption.py:138-166 | The scan stops in step with the peer if and only if no copy of the marker starts inside the padding |
| `UtpTransport.PacketRoundTrip` | dht_scraper/utp_transport.py:42-66 | A packet sent, with any chain of extension blocks in between, is the packet decoded |
| `UtpTransport.SentIsReceived` | dht_scraper/utp_transport.py:42-66 | The same for encode_utp_packet itself |
| `UtpTransport.DecodePacket` | dht_scraper/utp_transport.py:52-66 | The loop over extension blocks ends for every input and agrees with the grammar |
| `UtpTransport.SequenceAfterIsAfter` | dht_scraper/utp_transport.py:71-75 | For numbers from 2^15 behind to 2^15 - 1 ahead the wrapped comparison is the true order |
| `UtpTransport.ArrivalInOrder` | dht_scraper/utp_transport.py:185-207 | One arrival in that range keeps delivery in order, keeps every waiting packet strictly ahead and distinct, and loses nothing while the buffer has room |
| `UtpTransport.RunDeliversInOrder` | dht_scraper/utp_transport.py:150-207 | For any loss, duplication and reordering the bytes delivered are exactly the first packets of the peer, across wraparound, and the out-of-order buffer stays within its bound |
| `UtpTransport.EndOfStream` | dht_scraper/utp_transport.py:264-282 | The stream ends if and only if the FIN arrived and every earlier byte was delivered |
| `UtpTransport.NoArrivalWasted` | dht_scraper/utp_transport.py:185-196 | While the buffer is not full every packet that ever arrived is delivered or waiting |
| `UtpTransport.AllArrivedAllDelivered` | dht_scraper/utp_transport.py:150-207 | Once every packet and the FIN arrived, in any order, the whole stream was delivered |
| `UtpTransport.AcknowledgeExact` | dht_scraper/utp_transport.py:177-181 | An acknowledgement of packet a removes exactly the packets numbered up to a, across wraparound |
| `UtpTransport.UtpConnection.Acknowledge` | dht_scraper/utp_transport.py:177-181 | The two loops over the covered numbers leave exactly the packets whose wrapped numbers come after the acknowledged one, in their order |
| `UtpTransport.UtpConnection.Read` | dht_scraper/utp_transport.py:264-282 | Bytes are handed over in order once enough wait; otherwise it fails exactly when the stream has ended or failed or the deadline has passed, with the reason the state demands, and waits on in all other cases |
| `UtpTransport.UtpConnection.CheckResend` | dht_scraper/utp_transport.py:234-249 | What is sent again is the packets that are due, in order, up to the first that is due after its fourth resend; that one, and only that, ends the connection, with the reason of its state; waits double |
| `TypoIndex.WithinOneEdit` | dht_scraper/torrent_database.py:97-111 | True exactly for equal terms, one substitution, one insertion, one deletion or one swap of neighbours |
| `TypoIndex.TermRows` | dht_scraper/torrent_database.py:116-123 | The rows are exactly the pairs of a variant and its indexed term |
| `TypoIndex.NeighbourhoodComplete` | dht_scraper/torrent_database.py:88-92 | Every indexed term one edit from a query shares a variant with it |
| `TypoIndex.TypoTerms` | dht_scraper/torrent_database.py:128-136 | The result is the first twenty, in order, of the brute-force scan for all other indexed terms one edit away; nothing for queries under four letters or of digits only |
| `BoundedRecentMap.Remember` | dht_scraper/bounded_recent_map.py:8-16 | The key is last, the newest keys up to the limit stay in order, no other value changes |
| `BoundedRecentMap.StaysRemembered` | dht_scraper/bounded_recent_map.py:8-16 | A key leaves only after as many other keys were remembered as there were places behind it |
| `SendWindow.SendLimiter.AllowSend` | dht_scraper/dht_crawler.py:229-240 | The table and the answer are those of the specification: the window of an address steps as stated, other windows stay but for the oldest when the table is full |
| `SendWindow.AtMost79` | dht_scraper/dht_crawler.py:229-240 | Over every run with a monotone clock any half-open interval of 10 s holds at most 79 packets to an address, and at most 40 when it begins with a packet that opened a window |
| `SendWindow.FortyIff` | dht_scraper/dht_crawler.py:229-240 | From any window, [t, t + 10) stays within 40 packets for every schedule of calls if and only if at t the window is over, used up, or no older than t |
| `SendWindow.NeverMore` | dht_scraper/dht_crawler.py:229-240 | From any window no schedule lets more than the stated number of packets through in [t, t + 10) |
| `SendWindow.MostReached` | dht_scraper/dht_crawler.py:229-240 | One schedule lets exactly that number through |
| `SendWindow.SeenFromOne` | dht_scraper/dht_crawler.py:229-240 | In a run over many addresses that share the table, one address sees its own window only, until others have opened as many windows as the table has places behind it |
| `SendWindow.AtMost79OfMany` | dht_scraper/dht_crawler.py:229-240 | So in such a run too an address gets at most 79 packets in any half-open interval of 10 s |
| `SendWindow.CallsKeepTable` | dht_scraper/dht_crawler.py:229-240 | In every run the table keeps its bound and every window its bound of 40 |
| `SendWindow.SeventyNineAtOnce` | dht_scraper/dht_crawler.py:229-240 | A run in which 79 packets fall within 0.1 s, so the 40 packets promised by README.md line 111 are exceeded |
| `NodeIdentity.SelectsTheClosest` | dht_scraper/node_identity.py:64-68 | The selection is sorted by distance, holds given nodes only, and no node left out is closer than one taken |
| `NodeIdentity.DistanceInjective` | dht_scraper/node_identity.py:55-59 | No two ids are equally far from a target |
| `NodeIdentity.WireIdInjective` | dht_scraper/node_identity.py:73-78 | Different counters below 2^24 have different transaction ids on the wire |
| `NodeIdentity.CloseNumbersDiffer` | dht_scraper/node_identity.py:73-78 | Sequence numbers less than 2^24 apart get different ids |
| `DhtLookupProofs.SendLinks` | dht_scraper/dht_lookup.py:179-193 | A query sent under a free id keeps transactions, pending queries and in-flight counts in agreement |
| `DhtLookupProofs.ReleaseLinks` | dht_scraper/dht_lookup.py:197-208 | A query released keeps them in agreement, and leaves no zero count |
| `DhtLookupProofs.NextIdIsFree` | dht_scraper/dht_lookup.py:179-193 | While the query budget over the longest life of a query is below 2^24 the next id is not in flight |
| `DhtLookupProofs.SortedInOrder` | dht_scraper/dht_lookup.py:308-320 | The peers reported are the peers found, in the order of addresses |
| `DhtLookupRuns.AdvanceInv` | dht_scraper/dht_lookup.py:293-304 | Advancing a lookup keeps the whole invariant and touches no other lookup; a lookup that stays active is before its deadline |
| `DhtLookupRuns.AnswerInv` | dht_scraper/dht_lookup.py:240-267 | An answer keeps the invariant; an accepted one strictly lowers 2 * (max_queries - sent) + pending |
| `DhtLookupRuns.ErrorInv` | dht_scraper/dht_lookup.py:271-279 | An error keeps the invariant and strictly lowers the same measure |
| `DhtLookupRuns.ExpiredInv` | dht_scraper/dht_lookup.py:283-289 | Expiry releases exactly the overdue queries, keeps the invariant and lowers the measure when there were any |
| `DhtLookupRuns.StartInv` | dht_scraper/dht_lookup.py:142-163 | A start keeps the invariant; it succeeds only for a hash that was not active, and a refusal changes no lookup |
| `DhtLookupRuns.TickInv` | dht_scraper/dht_lookup.py:324-330 | After a tick no active lookup is past its deadline and no pending query past its expiry |
| `DhtLookupRuns.ReachableState` | dht_scraper/dht_lookup.py:76-355 | In every reachable state the three tables agree, the caps hold, tokens are never negative, the events tell a proper course of every lookup, and the next transaction id is free; with alpha 1, or when no two usable nodes share an address, the cap per node and the once-per-address rule hold too |
| `DhtLookupRuns.QueryBudget` | dht_scraper/dht_lookup.py:132-138 | Between any two moments of a run at most queries_per_second * (1 + elapsed) queries are sent |
| `DhtLookupRuns.StartedAllFinished` | dht_scraper/dht_lookup.py:308-355 | After a run that ends with abort_all every lookup started was finished once, with exactly the peers it streamed, sorted |
| `DhtLookupParallel.OncePerAddressIff` | dht_scraper/dht_lookup.py:212-228 | However many queries it may send, top_up asks no address twice if and only if the nodes it asks have different addresses |
| `DhtLookupParallel.CapPerNodeIff` | dht_scraper/dht_lookup.py:212-228 | After top_up the cap per node holds if and only if at every address the queries in flight and the nodes asked there are together within it |
| `DhtLookupParallel.BothRulesHold` | dht_scraper/dht_lookup.py:76-355 | With any alpha, in every run that hears of no two usable nodes at one address, no lookup asks an address twice and no address has more queries in flight than the cap |
| `DhtLookupParallel.SharedAddressAskedTwice` | dht_scraper/dht_lookup.py:212-228 | With alpha 2 two node ids at one address are both asked, which breaks the rule and the cap per node |
| `CatalogMethods.NotedIndexed` | dht_scraper/torrent_catalog.py:670-687 | Recording a sighting keeps every derived table exact and every running count true, and changes no other entry |
| `CatalogMethods.EvictedEachIndexed` | dht_scraper/torrent_catalog.py:759-787 | Evicting entries keeps every table exact and every count true, and removes exactly the victims |
| `CatalogMethods.LookupFinishedIndexed` | dht_scraper/torrent_catalog.py:272-291 | A finished lookup keeps every table exact and changes its own entry only |
| `CatalogMethods.NewestDueFirst` | dht_scraper/torrent_catalog.py:240-256 | Only torrents whose lookup is due are claimed, and a due one is passed over only when the limit was used up on newer ones |
| `CatalogMethods.FetchFailedIndexed` | dht_scraper/torrent_catalog.py:339-363 | A failed fetch keeps every table exact and changes its own entry only |
| `CatalogMethods.QueueDocumentIndexed` | dht_scraper/torrent_catalog.py:614-623 | Queueing a document keeps every table exact; when the queue overflows, only a document queued before is dropped and its torrent becomes pending again |
| `CatalogEviction.EvictionRespectsWorth` | dht_scraper/torrent_catalog.py:133-146 | No victim is claimed, and no evictable entry kept is worth less than a victim: metadata, then peers, then max(seen_count, 1) |
| `CatalogEviction.OldestCheapFirst` | dht_scraper/torrent_catalog.py:759-787 | Among the cheap entries the oldest go first |
| `CatalogEviction.CapacityKept` | dht_scraper/torrent_catalog.py:670-687 | A recorded sighting never leaves the catalog above max_entries |
| `IndexThreadCapacity.NeverTooMany` | dht_scraper/torrent_catalog.py:670-687 | In every reachable state, under every interleaving of the threads, the catalog holds at most max_entries |
| `CatalogEviction.EvictedOrphans` | dht_scraper/torrent_catalog.py:759-787 | The orphan queue gains exactly the written victims with unflushed counts, in order, and counts what it drops |
| `CatalogEntries.AfterFailureOk` | dht_scraper/torrent_catalog.py:339-363 | A failed fetch blames its peers, keeps the entry workable and uses up one unit of its budget |
| `CatalogEntries.AfterLookupOk` | dht_scraper/torrent_catalog.py:272-291 | A finished lookup keeps the entry workable and uses up one unit of its budget |
| `SearchIndexer.SearchIndexer.FlushDocuments` | dht_scraper/search_indexer.py:223-238 | The loop takes exactly the steps of its rounds and ends as time and writes decide: the documents taken are in the rows and marked, all others, a batch that failed among them, wait in their order; when every write commits and time lasts nothing waits |
| `SearchIndexer.SearchIndexer.FlushCounters` | dht_scraper/search_indexer.py:278-294 | The loop takes exactly the steps of its rounds and ends as time and writes decide: rows and unflushed counts keep their sum, every written torrent whose counters waited waits still or has nothing left to write, and when every write commits and time lasts both queues are empty |
| `SearchIndexer.SearchIndexer.CheckBatches` | dht_scraper/search_indexer.py:264-274 | The loop over batches takes exactly the steps of its rounds: the hashes taken are checked against the rows as one call would do it and wait no longer, the others wait in their order, a batch whose read failed among them |
| `SearchIndexer.SetUp` | dht_scraper/scraper_runtime.py:191-202 | The objects the runtime makes are a start of the system |
| `FlushOutcomes.RoundWritten` | dht_scraper/search_indexer.py:223-238 | A round more: the first t + n documents of the start are in the rows, marked and released, in the order and with the counts they were queued with |
| `FlushOutcomes.FailedAsBefore` | dht_scraper/torrent_catalog.py:440-481 | Documents drained and queued again leave the catalog exactly as it was |
| `FlushOutcomes.WrittenRound` | dht_scraper/torrent_catalog.py:452-503 | Counters drained and marked: each torrent that waited waits still or has nothing left to write |
| `FlushOutcomes.FailedRound` | dht_scraper/torrent_catalog.py:452-493 | Counters drained and queued again: each torrent that waited waits still or had nothing to write, and no bound is hit |
| `FlushOutcomes.RoundChecked` | dht_scraper/torrent_catalog.py:547-578 | A round more of checks is one call with all the hashes so far |
| `IndexThreadSafety.StepSound` | dht_scraper/torrent_catalog.py:844-848 | Every step of every thread keeps the tables exact, every entry workable, the claims equal to the work, and a row behind every base |
| `IndexThreadSafety.ClaimsMatchWork` | dht_scraper/torrent_catalog.py:240-314 | In every reachable state the entries marked as looked up or in progress are those whose lookup or fetch is claimed, and the running counts are their numbers |
| `IndexThreadSafety.NoStrandedWork` | dht_scraper/torrent_catalog.py:739-755 | With max_lookups at least 1 every pending torrent awaits a check, is fetchable, awaits a lookup or has one, and has used no more than its budget |
| `IndexThreadSafety.NothingMissing` | dht_scraper/torrent_database.py:324-336 | Every counter that is drained has its row, so update_counters reports nothing missing |
| `IndexThreadSafety.NeverReset` | dht_scraper/search_indexer.py:278-294 | No run of the threads from a start ever resets a base or is about to |
| `IndexThreadCounts.Conserved` | dht_scraper/torrent_catalog.py:440-530 | One step changes the total of a torrent (row, less what is written and not yet marked, and unflushed counts of all its incarnations) by what it records and by nothing else |
| `IndexThreadCounts.RunConserves` | dht_scraper/torrent_catalog.py:440-530 | Over every interleaving of the three threads the total is the initial total and all sightings recorded |
| `IndexThreadFlow.StepTight` | dht_scraper/torrent_catalog.py:497-530 | Unless a batch that holds an entry twice is written, every snapshot is covered by what its entry has not flushed, and no base is ahead of its row |
| `IndexThreadRepeats.WriteTwiceIff` | dht_scraper/search_indexer.py:278-294 | A write of counters stores more of an entry than the entry holds if and only if the batch holds an entry twice |
| `IndexThreadRepeats.StoredOnceIff` | dht_scraper/search_indexer.py:278-294 | Over every run nothing is ever stored twice if and only if no batch that holds an entry twice is written |
| `IndexThreadRepeats.DrainRepeatsIff` | dht_scraper/torrent_catalog.py:452-469 | A drained batch holds an entry twice if and only if the orphans it takes hold one with unflushed counts twice |
| `IndexThreadRepeats.RequeueRepeatsIff` | dht_scraper/torrent_catalog.py:485-493 | A failed write leaves the orphan queue without repeats if and only if none of its entries is an orphan already |
| `IndexThreadRepeats.OnlyRequeuesRepeat` | dht_scraper/torrent_catalog.py:485-493 | No other step puts an entry among the orphans twice |
| `IndexThreadResults.StoredNeverTooHigh` | dht_scraper/search_indexer.py:223-294 | Without such a write no row ever holds more than it held at the start and the sightings since, and what it lacks is held by entries |
| `IndexThreadResults.DisplayedAgrees` | dht_scraper/torrent_catalog.py:98-107 | What is shown for a written entry is its row and its unflushed counts, less what was written for other incarnations of the torrent since its base was set; so the two are equal if and only if nothing was |
| `IndexThreadResults.SlackBegins` | dht_scraper/torrent_catalog.py:517-578 | A base is set only by a mark or by a check, and then what is shown is exactly what is stored |
| `IndexThreadResults.SlackIsDrift` | dht_scraper/torrent_catalog.py:98-107 | Over any run the difference grows by exactly what is written for other incarnations, which is never negative |
| `IndexThreadResults.SlackStep` | dht_scraper/torrent_catalog.py:98-107 | The slack grows exactly by what is written for other incarnations of the torrent |
| `IndexThreadResults.BlameLasts` | dht_scraper/torrent_catalog.py:718-725 | A blamed peer stays blamed until its torrent is written or found in the database |
| `IndexThreadResults.NoBlamedPeerHandedOut` | dht_scraper/torrent_catalog.py:304-314 | No candidate is handed out with a blamed peer, or without peers |
| `IndexThreadResults.EffortBounded` | dht_scraper/torrent_catalog.py:339-363 | Over any run an entry sees at most max_fetch_attempts + max_lookups failed fetches and finished lookups |
| `IndexThreadLosses.LostOnlyAtNamedPoints` | dht_scraper/torrent_catalog.py:759-787 | An entry goes out of reach with unwritten counts only when it is pushed out of a bounded queue, is evicted before it was ever written, has its failed document give way to a newer one, or was sighted between drain and mark and evicted |
| `IndexThreadLosses.EvictionLosesIff` | dht_scraper/torrent_catalog.py:759-787 | An evicted entry with unflushed counts is lost if and only if it is neither queued as a document nor drained, and was never written or is pushed out of the orphan queue |
| `IndexThreadLosses.MarkLosesIff` | dht_scraper/torrent_catalog.py:517-530 | An evicted entry whose document is marked is lost if and only if the document held less than the entry has unflushed and it is no orphan |
| `IndexThreadLosses.FailureLosesIff` | dht_scraper/torrent_catalog.py:473-481 | An evicted entry whose document failed is lost if and only if a newer document of its torrent is queued and it is no orphan |
| `IndexThreadLosses.LostStep` | dht_scraper/torrent_catalog.py:614-646 | The lost tally of a torrent never shrinks, and grows in a step if and only if an entry goes out of reach with some of its counts, at one of those points |
| `IndexThreadLosses.RunLosesNothing` | dht_scraper/search_indexer.py:223-294 | Over every run the tally of a torrent stays the same if and only if no step of the run drops an entry with some of its counts |
| `IndexThreadLosses.RoomLosesNothing` | dht_scraper/torrent_catalog.py:670-687 | A sighting for which there is room loses nothing, in any reachable state |
| `IndexThreadLosses.NothingEvictedNothingLost` | dht_scraper/torrent_catalog.py:670-687 | A run from a start that evicts nothing loses nothing, whatever fails |
| `IndexThreadLosses.Account` | dht_scraper/torrent_catalog.py:440-530 | Row, unflushed counts in hand and the lost tally make up the initial row and every sighting, over every interleaving |
| `IndexThreadWitness.SightingLost` | dht_scraper/torrent_catalog.py:759-787 | A run of two sightings in which the first is in no row, entry or queue, against the claim of README.md lines 297-298 |
| `IndexThreadWitness.SightingStoredTwice` | dht_scraper/torrent_catalog.py:485-493 | A run of nine steps in which an entry drained, evicted and requeued is written twice: one sighting adds 2 to its row |
| `IndexThreadLateSighting.RowOneShort` | dht_scraper/torrent_catalog.py:519-523 | A run of a torrent recorded, fetched, stored, drained, sighted again and evicted before its document is marked: two sightings, a row of one, and one lost |
| `IndexThreadStranded.ResetStrandsIff` | dht_scraper/torrent_catalog.py:582-601 | A reset leaves a torrent waiting for nothing if and only if it has no peers and no lookup left or running |
| `IndexThreadStranded.TorrentStranded` | dht_scraper/torrent_catalog.py:582-601 | A history of the threads with one row deleted from outside after which a torrent waits for nothing |
| `CrawlerClaims.CrawlerFollowsProtocol` | dht_scraper/dht_crawler.py:558-574 | Every run of the crawler with its lookup manager beside the other threads calls on the catalog only what the claim protocol allows |
| `CrawlerClaims.LookupsMatchManager` | dht_scraper/dht_crawler.py:558-574 | In every reachable state the entries being looked up are the claimed hashes and the lookups running; between two rounds they are exactly the active lookups of the manager |
| `CrawlerClaims.RefusedIff` | dht_scraper/dht_lookup.py:142-163 | With one query at a time a claimed lookup is refused if and only if its hint node is loaded, or it has no hint and no usable seed |
| `DhtCrawler.DhtCrawler.StartPendingLookups` | dht_scraper/dht_crawler.py:558-574 | The steps taken are the claim of the newest due hashes, as many as there are slots, and one start or release for each of them in turn; the number returned is that of the lookups started, and the claims of the catalog equal the lookups of the manager |
| `FetchJob.RunJob` | dht_scraper/fetch_engine.py:190-230 | The loop ends within two rounds for each peer, never waits for nothing, and ends as what became of its attempts demands |
| `FetchJob.JobEnds` | dht_scraper/fetch_engine.py:190-249 | A job stores the first metadata any attempt brought; without any it has tried every peer once, and fails with exactly those to blame, or releases its claim when none is |
| `FetchJob.TakenOk` | dht_scraper/fetch_engine.py:190-230 | A round loses no peer and tries none twice, keeps at most peer_parallelism attempts, and lowers 2 * waiting + running |
| `FetchClaims.EngineFollowsProtocol` | dht_scraper/fetch_engine.py:159-186 | Every run of the fetch engine beside the other threads calls on the catalog only what the claim protocol allows |
| `FetchClaims.FetchesMatchJobs` | dht_scraper/fetch_engine.py:159-186 | In every reachable state the entries in progress are exactly the live jobs, and the running count is their number |
| `FetchClaims.EachClaimEndsOnce` | dht_scraper/fetch_engine.py:234-249 | A job ends with exactly one call on the catalog: store, fail with peers to blame, or release |
| `FetchClaims.RoundsRunOut` | dht_scraper/fetch_engine.py:190-230 | Every round of a job brings it nearer its end and nothing else touches it, so no claim is held for ever |
| `BencodeCodec.DecodeBencode` | dht_scraper/bencode_codec.py:178-186 | In place: the entry point accepts exactly the inputs that are one value from end to end |
| `StreamEncryption.Rc4.constructor` | dht_scraper/stream_encryption.py:45-56 | In place: the key schedule in place on the state list |
| `StreamEncryption.Rc4.Encrypt` | dht_scraper/stream_encryption.py:59-71 | In place: the in-place loop over state, i and j and over the output is the keystream function, and keeps the permutation |
| `StreamEncryption.EncryptedStream.Write` | dht_scraper/stream_encryption.py:125-127 | In place: what goes on the wire is the encryption of what is written, and plain bytes without a cipher |
| `StreamEncryption.EncryptedStream.Read` | dht_scraper/stream_encryption.py:116-123 | In place: what is read is the decryption of what arrived, and plain bytes without a cipher |
| `UtpTransport.UtpConnection.PacketReceived` | dht_scraper/utp_transport.py:150-173 | In place: each kind of packet changes the connection as stated, and nothing else: the reply timestamp, the failure of a reset, the future that connect waits for; the first ST_STATE fixes the numbering of the peer |
| `UtpTransport.UtpConnection.DataReceived` | dht_scraper/utp_transport.py:185-196 | In place: the in-place loop over the out-of-order buffer is the draining function |
| `UtpTransport.UtpConnection.Deliver` | dht_scraper/utp_transport.py:200-207 | In place: the payload is appended to what was delivered and the number acknowledged moves on by one |
| `UtpTransport.UtpConnection.Write` | dht_scraper/utp_transport.py:137-146 | In place: the packets carry exactly the data, in full packets but for the last, numbered on, and all wait for acknowledgement |
| `LookupManager.LookupManager.constructor` | dht_scraper/dht_lookup.py:81-111 | In place: the manager begins in the state from which runs are counted |
| `LookupManager.LookupManager.Refill` | dht_scraper/dht_lookup.py:132-138 | In place: tokens grow with the time elapsed up to the rate; the token clock never goes back |
| `LookupManager.LookupManager.AddToShortlist` | dht_scraper/dht_lookup.py:167-175 | In place: the loop and the trim give the shortlist of the specification |
| `LookupManager.LookupManager.SendTo` | dht_scraper/dht_lookup.py:179-193 | In place: all tables change together in the way the agreement needs |
| `LookupManager.LookupManager.ReleaseTransaction` | dht_scraper/dht_lookup.py:197-208 | In place: the query leaves all three tables, and the hint when it was one |
| `LookupManager.LookupManager.TopUp` | dht_scraper/dht_lookup.py:212-228 | In place: sends to the closest candidates while tokens last |
| `LookupManager.LookupManager.Finish` | dht_scraper/dht_lookup.py:308-320 | In place: releases every pending query and reports the sorted peers |
| `LookupManager.LookupManager.Advance` | dht_scraper/dht_lookup.py:293-304 | In place: finishes, waits for the hint, or tops up and finishes when nothing is left |
| `LookupManager.LookupManager.StartLookup` | dht_scraper/dht_lookup.py:142-163 | In place: the new state and the answer are those of the specification, and every invariant is kept |
| `LookupManager.LookupManager.HandleResponse` | dht_scraper/dht_lookup.py:240-267 | In place: the same for an answer, which counts only from the address that was asked |
| `LookupManager.LookupManager.HandleError` | dht_scraper/dht_lookup.py:271-279 | In place: the same for an error |
| `LookupManager.LookupManager.ExpirePending` | dht_scraper/dht_lookup.py:283-289 | In place: releases exactly the overdue queries, in order |
| `LookupManager.LookupManager.Tick` | dht_scraper/dht_lookup.py:324-330 | In place: the loop over the lookups active at its start is the specification, keeps every invariant, and leaves nothing overdue |
| `LookupManager.LookupManager.AbortAllLookups` | dht_scraper/dht_lookup.py:351-355 | In place: every lookup is finished and none is left |
| `TorrentCatalog.TorrentCatalog.constructor` | dht_scraper/torrent_catalog.py:163-194 | In place: the empty catalog, with exact tables |
| `TorrentCatalog.TorrentCatalog.IndexEntry` | dht_scraper/torrent_catalog.py:739-755 | In place: the three tables of pending entries are put right for one entry |
| `TorrentCatalog.TorrentCatalog.Record` | dht_scraper/torrent_catalog.py:202-222 | In place: records a sighting and, above max_entries, evicts victims chosen as the eviction order demands; the catalog stays exact |
| `TorrentCatalog.TorrentCatalog.Evict` | dht_scraper/torrent_catalog.py:759-787 | In place: both passes over the entries choose and remove the victims of the specification |
| `TorrentCatalog.TorrentCatalog.AddPeersTo` | dht_scraper/torrent_catalog.py:226-236 | In place: streamed peers join the entry unless blamed, the newest last; the catalog stays exact |
| `TorrentCatalog.TorrentCatalog.HashesNeedingPeers` | dht_scraper/torrent_catalog.py:240-256 | In place: the newest due hashes are claimed, and returned; the catalog stays exact |
| `TorrentCatalog.TorrentCatalog.ReleaseLookupClaim` | dht_scraper/torrent_catalog.py:260-268 | In place: the claim is taken back; the catalog stays exact |
| `TorrentCatalog.TorrentCatalog.AddLookupResult` | dht_scraper/torrent_catalog.py:272-291 | In place: the lookup is counted and its peers added, or the entry given up; the catalog stays exact |
| `TorrentCatalog.TorrentCatalog.NextFetchCandidates` | dht_scraper/torrent_catalog.py:304-314 | In place: the candidates claimed are the highest-ranked fetchable entries; the catalog stays exact |
| `TorrentCatalog.TorrentCatalog.StoreMetadata` | dht_scraper/torrent_catalog.py:318-335 | In place: the entry is done and its document queued; the catalog stays exact |
| `TorrentCatalog.TorrentCatalog.MarkFetchFailed` | dht_scraper/torrent_catalog.py:339-363 | In place: blamed peers are forgotten and the entry goes on, waits or fails; the catalog stays exact |
| `TorrentCatalog.TorrentCatalog.ReleaseFetchClaim` | dht_scraper/torrent_catalog.py:367-376 | In place: the claim is taken back; the catalog stays exact |
| `TorrentCatalog.TorrentCatalog.DrainIndexDocuments` | dht_scraper/torrent_catalog.py:440-448 | In place: the oldest queued documents leave the queue as snapshots |
| `TorrentCatalog.TorrentCatalog.DrainIndexCounters` | dht_scraper/torrent_catalog.py:452-469 | In place: orphans first, then changed counters, each with what it has not flushed; torrents not written yet go to the document queue |
| `TorrentCatalog.TorrentCatalog.RequeueIndexDocuments` | dht_scraper/torrent_catalog.py:473-481 | In place: failed documents return to the front in their order, unless a newer one is queued |
| `TorrentCatalog.TorrentCatalog.RequeueIndexCounters` | dht_scraper/torrent_catalog.py:485-493 | In place: failed counters are noted again, or orphaned when their entry has left |
| `TorrentCatalog.TorrentCatalog.MarkIndexWritten` | dht_scraper/torrent_catalog.py:517-530 | In place: what was written counts as flushed, the base is set, and metadata written is released |
| `TorrentCatalog.TorrentCatalog.MarkCountersWritten` | dht_scraper/torrent_catalog.py:497-503 | In place: what was written counts as flushed |
| `TorrentCatalog.TorrentCatalog.ApplyDatabaseChecks` | dht_scraper/torrent_catalog.py:556-578 | In place: torrents found are known and done, the others go on |
| `TorrentCatalog.TorrentCatalog.SetDatabaseCheck` | dht_scraper/torrent_catalog.py:534-543 | In place: switching checks off lets every waiting entry go on |
| `TorrentCatalog.TorrentCatalog.ResetIndexBase` | dht_scraper/torrent_catalog.py:582-601 | In place: an entry whose row is gone is written or fetched again |
| `SearchIndexer.TorrentDatabase.WriteDocuments` | dht_scraper/torrent_database.py:291-320 | In place: the transaction commits whole or leaves the rows as they were, and reports the counters it found |
| `SearchIndexer.TorrentDatabase.UpdateCounters` | dht_scraper/torrent_database.py:324-336 | In place: adds the deltas to the rows there are, or changes nothing; reports the hashes without a row |

## Left out

- Sockets, selectors, DNS, asyncio, threads and signals: each call that runs under a lock, or between two awaits, is one step, and the order of steps is arbitrary.
- SQLite, its schema, full-text search and result ordering: a database is a map of rows, and a failed transaction changes nothing.
- SHA-1, HMAC, random ids and the Diffie-Hellman exchange: keys, hashes and ids are inputs.
- `record_hashes`: it records its hashes in one critical section; the model records them one after the other.
- Entries as objects: entries are records at fixed places of an arena that only grows, and the tables hold places. Aliasing is expressed by equal places; the memory of evicted entries is not reclaimed.
- Order of equals in `heapq`: candidates and victims are any choice the ranking allows, and ties may fall either way.
- `metadata_bytes` and the statistics counters, except those the model names.
- `set_index_base`, `search`, `torrent_detail` and the other views of the catalog: they do not take part in the protocol.
- IndexThreadResults.DisplayedAgrees: it speaks of runs in which no batch that holds an entry twice is written, which by `IndexThreadRepeats.StoredOnceIff` are the runs that store nothing twice.
- IndexThreadLosses.RunLosesNothing: under the same condition, which is part of the invariant it needs; `IndexThreadLosses.NothingEvictedNothingLost` does without.
- IndexThreadSafety.NoStrandedWork: the reset after a missing row cannot be reached while rows are not deleted from outside; what it does when a row is deleted is stated in `IndexThreadStranded`.
- DhtLookupRuns.ReachableState: the distinct transaction ids need ticks at most a fixed time apart and a query budget over the longest timeout and that time below 2^24, as the defaults have it.
- Time as floating point: times and token counts are real numbers, so rounding is not modelled.
- UtpTransport.RunDeliversInOrder: arrivals 2^15 or more away from what was delivered are excluded, since 16-bit numbers cannot tell them apart; congestion control, selective acknowledgement and the handshake timeout of the socket are not modelled.
- SendWindow.AtMost79OfMany: until other addresses have opened 65,535 windows, after which the window of the address may have been pushed out of the table.
- UtpTransport.UtpConnection.PacketReceived: the acknowledgement scheduled for the next pass of the event loop, and the waking of a waiting reader, are not fields of the model.
- Bencode dictionary keys that are text instead of bytes, and the limits of the Python interpreter on recursion and on the digits of integers.
- SearchIndexer.SearchIndexer.FlushDocuments: the method is one undisturbed run of the loop, like the other methods of `SearchIndexer`; that other threads step in between is the matter of `IndexThread`, whose steps it takes.
- DhtCrawler.DhtCrawler.StartPendingLookups: the same, with `CrawlerClaims` for the steps in between.
- The timing of the index thread: back-off after an error, wake-up times, and the bypass of database checks after repeated errors.
- Errors of a database write other than failure of the whole transaction.
- Connection slots, retries over uTP and the cache of unreachable addresses inside one fetch attempt: an attempt is an outcome, and whether a peer is known to be unreachable is an input of the round.
- A fetch job that is cancelled before its first step, which happens only while the program stops: its claim is then not released.
- `krpc_messages.py`, `web_interface.py`, `web_page.py`, `magnet_link.py`, `torrent_info_summary.py`, the command line and the container files: message builders, views and plumbing.
