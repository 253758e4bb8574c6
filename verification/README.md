# A durable work queue and its concurrent users

This project models the parts of a web crawler and scraper that several processes share, and proves what holds in every
one of their interleavings. PostgreSQL is the source of truth: a frontier of urls with leases, failures and link edges,
a second queue of scrape targets, documents waiting for an index, and advisory locks that bound how many pages are
rendered at once.

The modules follow the program.

- `LeaseQueue`, `LeaseSafety`: the lease columns that `urls` and `scrape_targets` share, every statement that writes
  them, and one queue with any number of handlers, a reaper and a clock.
- `Tables`, `Discovery`, `HostSort`, `Known`, `Frontier`: the crawl tables, the statements on them, `add()` with its sort
  and its retries, what it makes known, and the class that owns the tables.
- `ClaimQuery`, `ClaimRuns`, `ClaimRace`: the two-stage claim, first alone, then as steps of the lease queue, then split
  into the phases in which other transactions run.
- `Growth`, `Crawl`, `CrawlSafety`, `CrawlOnce`, `CrawlBounds`, `CrawlHashes`, `RawBlobs`: the crawl as a transition
  system and what all its runs keep.
- `Visits`, `Outcomes`, `Worker`: one visit of a page, as moves of that system, in the tables, and as a method.
- `Locks`, `LockScripts`, `LockCoverage`, `SeedLocks`: transactions as scripts of row locks under the conflict table of
  section 13.3.2 of the PostgreSQL 16 documentation.
- `RenderSlots`, `SlotRuns`: session advisory locks (section 13.3.5) taken through fixed pools by processes that may crash.
- `Bits`, `SimHash`, `NearDuplicate`, `Indexer`, `IndexRuns`, `IndexOfCrawl`: fingerprints, their signed storage, the
  lookup, the drain, and the drain beside a crawl.
- `QueryForm`, `QueryReading`, `PathForm`, `PathNames`: the query and path stages of url normalization.
- `Scrape`: the second queue and its handler.
- `Base`, `Strings`: shared vocabulary.

A run is **lapse-free** when no handler is still at work after its `lease_expires_at`. Terminal calls do not look at
`lease_owner` (`crawler/frontier.py:205`, `:230`, `:237`, `:253`), so exclusivity, absorption and the bounds are proved
under that hypothesis, and `LapseIsExactlyTheGap` shows that without it another handler can take the row. The row
invariant, provenance and crash consistency are proved without it.

A handler catches only the exceptions of the blob store (`crawler/worker.py:126-134`, `crawler/scrape_worker.py:138-146`);
what any other call raises ends up in the log of `run` (`crawler/worker.py:63-69`). A page with a link like
`http://a:99999/` is such a case: `parts.port` (`crawler/normalize.py:54`) raises ValueError for it, and nothing between
there and `run` catches it. The comment at `crawler/worker.py:116-125` names the consequence for the blob store, a retry
at a fixed cadence forever; `RaisingKeepsLease` and `DeathsNeverRetire` show that the other calls still have it.

`hostOf` stands for `registrable_host` and is an arbitrary function, with "" for a url that has no host. The digest of a
shingle is an arbitrary 64-bit function.

## Model

| member | source | states |
|---|---|---|
| LeaseQueue.RowInvariant | crawler/frontier.py:58-65 | whatever stale, repeated or misdirected calls reach a row: it is leased exactly when owner and expiry are set, pending or leased means fewer than 5 failures, failed means at least 5 |
| LeaseQueue.TerminalCallReleases | crawler/frontier.py:224-263 | after a terminal call on a row no renewal by anybody, no reap and no claim changes it any more, except that after a failure below the limit a claim may once its backoff is over |
| LeaseSafety.Exclusivity | db/schema.sql:240-266 | in every lapse-free run at most one handler is in flight for a row, the row is leased, and that handler is its recorded owner with its recorded expiry |
| LeaseSafety.Absorbing | crawler/frontier.py:224-256 | in lapse-free runs a done, failed or skipped row never changes again |
| LeaseSafety.ClaimsBounded | crawler/frontier.py:241-256 | in lapse-free runs a row is claimed at most 5 times more than handlers died on it, and a failed row has exactly 5 recorded failures |
| LeaseSafety.DeathsNeverRetire | crawler/worker.py:63-69 | handlers that end without a terminal call are never counted as failures: for every n a lapse-free run claims a row n times and leaves it pending with no failure |
| LeaseSafety.RetryBackoff | crawler/frontier.py:245-256 | between the first failure of a row and its k-th later one lie at least the backoffs of the failures before, so the old-value reading of the counter and the claim gate together space the retries |
| LeaseSafety.RetirementTakesFifteenMinutes | crawler/frontier.py:245-256 | a retired row spent at least 1 + 2 + 4 + 8 minutes between first and last failure |
| LeaseSafety.LapseIsExactlyTheGap | db/schema.sql:256-266 | reaping and claiming a row under a working handler is possible if and only if that handler is past its deadline, and then exclusivity fails |
| LeaseSafety.LapsedRun | db/schema.sql:256-266 | and a run in which one handler outlives its lease reaches it: two handlers on one row |
| ClaimQuery.Select | db/schema.sql:215-239 | the loop over eligible domains and LATERAL picks returns one unlocked row for each of the first batch-many ready domains that has one, best by priority and then by due time |
| ClaimQuery.PickOne | db/schema.sql:226-239 | the LATERAL subquery returns a candidate no other unlocked candidate of the domain beats, and none only when there is none |
| ClaimQuery.ClaimIsFull | db/schema.sql:215-253 | with no lock holders a claim returns exactly min(batch, ready domains) rows, for the smallest ready domain ids |
| ClaimRace.NoDoubleClaim | db/schema.sql:215-253 | with the claim split into snapshot, per-domain lock and re-check of the row version (section 13.2.1 of the PostgreSQL 16 documentation), and update: between two claims that return one url its row went back to pending |
| ClaimRace.BatchWasPending | db/schema.sql:226-253 | every url of a committed batch, alone in it or not, was pending at the commit and is leased to the claimer afterwards |
| ClaimRace.BatchIsPolite | db/schema.sql:223-253 | no two urls of a committed batch are of one domain |
| ClaimRace.UndisturbedClaim | db/schema.sql:215-239 | undisturbed, the phases take from each of their domains the best row that is pending and due, as the query does when it runs alone |
| Discovery.AddLinksAdds | crawler/frontier.py:296-337 | read without row ids, the loop of _add_once leaves exactly: every new url with the given depth, every edge with the first anchor and rel, every host counter raised by its number of links, documents untouched |
| Discovery.AddLinksCount | crawler/frontier.py:297-337 | the number returned is the number of urls that became known |
| Discovery.AddLinksSound | crawler/frontier.py:300-336 | discovery keeps every unique and foreign key of the tables |
| HostSort.SortIsStable | crawler/frontier.py:286 | the sort by host is a stable sort |
| HostSort.StableSortIsUnique | crawler/frontier.py:286 | a list has one stable sort, so any stable sorting algorithm gives this result |
| HostSort.SortingPreservesAdd | crawler/frontier.py:286-289 | adding the host-sorted links leaves the same urls, depths, edges, anchors, counters and return value as adding them in page order, up to the choice of ids |
| Frontier.PostgresFrontier.Claim | crawler/frontier.py:44-56 | the claim answers the declarative query; each picked row becomes leased to the worker with its expiry and one attempt more, its due time and failures as before, and every other row stays; each task names its row |
| Frontier.ClaimedAreDue | db/schema.sql:214-239 | a claimed row was pending, due and held by nobody, and among such rows of its domain it had the highest priority and, with that, the earliest due time |
| Frontier.UrlClaimIsFull | db/schema.sql:214-253 | with no lock holders a claim takes one row from each domain with a pending due row, up to its batch |
| ClaimRuns.ClaimIsRun | db/schema.sql:240-247 | the rows a claim writes are those of a run of the lease queue with one Take for each pick, lapse-free if the run before was, with a holder for each pick; so the theorems on runs are about what the claim methods write |
| ClaimRuns.ClaimIsExclusive | db/schema.sql:240-247 | in a lapse-free run no handler at work is on a row that a claim picks, and afterwards the row names the claimer |
| Frontier.PostgresFrontier.Renew | crawler/frontier.py:58-65 | a lease is extended if and only if the caller is its recorded owner; nothing else changes |
| Frontier.PostgresFrontier.ReapExpiredLeases | db/schema.sql:256-266 | exactly the expired leases return to pending, and their number is returned |
| Frontier.PostgresFrontier.Complete | crawler/frontier.py:175-222 | by column: the row is settled, its stored hash is a signed 64-bit value that converts back to the hash given, its digest that of the text, the document has the keys and is pending for the index; the crawled counter goes up; nothing when the url has no row |
| Frontier.PostgresFrontier.Fail | crawler/frontier.py:241-263 | one more failure with its backoff, retirement at the limit, one more error of the domain; says whether the row was retired |
| Frontier.PostgresFrontier.AddOnce | crawler/frontier.py:296-337 | a transaction over the links: all of them, or, when cut off as a deadlock victim anywhere, everything but the serial columns as before |
| Frontier.PostgresFrontier.Add | crawler/frontier.py:268-294 | up to two aborts and then success leave what one undisturbed pass in page order leaves, with its return value; three aborts raise and leave the tables as they were |
| Frontier.PostgresFrontier.Seed | crawler/frontier.py:339-367 | the loop inserts the seeds at depth 0 in order and counts the new ones |
| Frontier.PostgresFrontier.FeedOriginRow | crawler/frontier.py:548-566 | after the transaction the origin has a row whose id is returned; without a host nothing happens |
| Frontier.PostgresFrontier.FeedLinksToCrawler | crawler/frontier.py:541-567 | the origin's row first, then add() at depth 0, with its retries and its failure |
| Growth.AddLinksGrows | crawler/frontier.py:300-331 | old rows stay, every new url has the given depth, the domain of its host, a fresh lease and an edge from the page it was found on |
| Growth.SeedUrlsGrows | crawler/frontier.py:339-367 | old rows stay, every new url has depth 0 and the domain of its host |
| Known.SeedsBecomeKnown | crawler/frontier.py:339-367 | every seed with a host has a row afterwards, a new one at depth 0 with priority 1000 and due at once; known rows, edges, documents and counters stay |
| Known.LinksBecomeKnown | crawler/frontier.py:296-337 | the urls known after the links of a page are those before and every link with a host, each with its edge from the page, and a new one has the given depth and priority 100 and is due at once |
| Crawl.LeasesFollow | crawler/worker.py:74-151 | every move of the crawl is, on the lease columns, a step of the lease queue |
| CrawlOnce.CrawlRunsTheQueue | crawler/worker.py:55-151 | every run of the crawl is a run of the lease queue, lapse-free if the crawl is |
| CrawlSafety.Provenance | crawler/worker.py:148-150 | in every reachable state, lapses and crashes included, a url has depth at most 6, ends a path of recorded edges of exactly its depth from a row of depth 0, and belongs to the domain of its host |
| CrawlSafety.BlobBeforeCommit | crawler/worker.py:126-136 | in every reachable state every document's raw and text key, and every record's raw key, names a blob in the store |
| CrawlOnce.OneHandlerPerUrl | crawler/worker.py:74-151 | in lapse-free runs at most one handler works on a url from its claim until its links are added, and until its terminal call it is the recorded owner |
| CrawlOnce.PagesCrawledIsExact | crawler/frontier.py:194-201 | in lapse-free runs pages_crawled of a domain is the number of its urls that have a document |
| CrawlOnce.DocumentsKeepTheirText | crawler/worker.py:126-138 | in lapse-free runs the text blob a document names is, from its commit on, the very text whose hash was committed |
| CrawlHashes.DocumentsKeepTheirHash | crawler/frontier.py:185-209 | in lapse-free runs a url has a document exactly when some move committed it; that move is the only one, and the row has the hash it carried ever after |
| CrawlHashes.CommittedTwins | crawler/db.py:36-47 | for two committed pages the duplicate lookup of one finds the other near exactly when the hashes they were committed with agree on the top byte and are at most d bits apart |
| RawBlobs.RawPageSurvivesExactly | crawler/worker.py:126-138 | for raw blobs no such thing holds, as crawler and scraper name them by ids of two tables; exactly: in lapse-free runs the raw blob a document names holds the page committed with it if and only if the last scrape snapshot put under that name since, if any, has the same body |
| RawBlobs.SnapshotReplacesPage | crawler/scrape_worker.py:136-148 | and it does happen: a lapse-free run, for any url, page and snapshot, in which the first scrape target of a host replaces the committed page of its first url |
| CrawlBounds.FrontierIsBounded | crawler/worker.py:148-150 | in lapse-free runs without the scraper's feed, with s seeds and at most b links a page, there are never more than s (1 + b + ... + b^6) urls |
| CrawlBounds.CrawlEnds | crawler/worker.py:55-69 | claims, blob writes, terminal calls, link insertions and exits together are at most 25 times that bound, plus one budget for each handler that died |
| Worker.CrawlWorker.Handle | crawler/worker.py:74-151 | whatever the policy, fetcher, resolver, extractor, store, terminal call and add() answer or raise, the tables and blobs end up as after the listed moves of the crawl, up to the choice of ids; by column, the url's row and document are what the answers call for; a page committed without a fault, less than six links deep, makes every link with a host known, and no other visit makes any url known |
| Outcomes.VisitLeaves | crawler/worker.py:74-151 | what a visit makes of the tables, without its moves: the row untouched when something raises first, otherwise settled for a week, set aside, settled with hash and digest, or failed once more with its backoff; the document pending for the index only after a commit; new urls one link deeper with an edge from the page; all other rows as before |
| Visits.OneTerminalCall | crawler/worker.py:87-151 | when nothing outside the blob store raises first, a course makes exactly one lease-ending call, writes only blobs before it and only links after it, commits only after both blobs, and adds links only above the depth limit |
| Visits.EndByAnswer | crawler/worker.py:87-138 | which terminal call each answer gets: unchanged if and only if the page, as fetched or as resolved, is not modified; skipped if and only if it has no content; committed, with the signed hash, if and only if it has and both blobs were stored; failed otherwise, also when a challenge stays unresolved |
| Visits.LinksAddedExactly | crawler/worker.py:148-150 | links are added if and only if the page was committed without a fault, is less than six links deep and has any, and add() does not lose three times; then exactly the links of the page |
| Visits.EndsUnlessRaised | crawler/worker.py:63-69 | a course makes a lease-ending call if and only if neither policy, fetch, record, resolver nor extractor raises, nor the terminal call itself before it has had an effect |
| Visits.CommittedExactlyWhenStored | crawler/worker.py:100-138 | a page is committed if and only if it was fetched, itself or by the resolver, has content, both blobs were stored, and none of the calls on the way raised |
| Visits.VisitEndsLease | crawler/worker.py:74-151 | when nothing raises first the lease ends: afterwards the row is not leased and has neither owner nor expiry, also once the links are added |
| Visits.RaisingKeepsLease | crawler/worker.py:63-69 | when something does, no table changes: the row stays leased with its owner and expiry, no failure is counted, so it neither backs off nor retires, and only the reaper returns it |
| Locks.EventKeepsInv | crawler/frontier.py:186-222 | begin, grant, commit and abort keep: locks held are compatible, were requested, are kept to the commit, and no ordered transaction inserts a committed url |
| Locks.GuardsExclude | crawler/frontier.py:305-331 | two transactions never both hold an exclusive lock on one domain row, which is what makes unsorted urls inside a host harmless |
| Locks.SomeoneCanStep | crawler/frontier.py:270-286 | in every reachable state with unfinished transactions one of them has an enabled step |
| LockScripts.NeverDeadlocked | crawler/frontier.py:270-337 | no run of disciplined transactions, with any arrivals and aborts, reaches a deadlock |
| LockScripts.AllFinish | crawler/frontier.py:270-337 | without aborts and arrivals no schedule is longer than the steps left, and one that cannot be continued has finished everybody |
| LockScripts.AddIsDisciplined | crawler/frontier.py:286-337 | add() follows the discipline for any links, any outcome of its inserts, because it sorts by host and its origin has a row |
| LockCoverage.AddLocksWhatItChanges | crawler/frontier.py:300-331 | and its script is not too small: every domain row add() changes it has locked for update, every url it makes it has inserted under its key |
| LockCoverage.OneInserts | crawler/frontier.py:310-317 | in no run do two transactions both make a row for one url: when both have asked to insert it, it has a committed row |
| LockScripts.OthersAreDisciplined | crawler/frontier.py:186-263 | so do complete(), the origin insert of the feed, one-row statements and SKIP LOCKED claims |
| SeedLocks.SeedsDeadlockExactlyWhenCrossed | crawler/frontier.py:350-366 | the unsorted loop of seed() does not: two such transactions can reach a deadlock if and only if each list names, at some point, the host of an earlier seed of the other, and the seeds before have no host in common |
| SeedLocks.DeadlockExactlyWhenCrossed | crawler/frontier.py:350-366 | the same for any two scripts in which each lock comes after an update of its domain row: deadlock is reachable if and only if the scripts cross |
| SeedLocks.SortedSeedsAreDisciplined | crawler/frontier.py:286 | with the sort that add() has, seed() would follow the discipline as well |
| RenderSlots.PlaywrightRenderer.AcquireSlot | crawler/render.py:67-75 | one pass returns the first key nobody holds with a pooled connection, or changes nothing; connections in the pool hold no lock before and after |
| RenderSlots.PlaywrightRenderer.ReleaseSlot | crawler/render.py:77-81 | undoes the acquisition: exactly that lock is gone and the connection is back |
| SlotRuns.AcquireIsRun | crawler/render.py:67-75 | such a pass, from any reachable state, is a run of the processes in which one coroutine moves: it ends rendering in the first slot nobody has, or with everything as it was |
| SlotRuns.ReleaseIsRun | crawler/render.py:77-81 | the release is the run that ends a page: from any reachable state exactly its lock goes and its connection is back in the pool |
| RenderSlots.LocksStack | crawler/render.py:71-79 | session locks stack: after n grants to one session every other one is refused the key until exactly the n-th unlock |
| RenderSlots.SlotsAreSound | crawler/render.py:47-81 | in every run with crashes no key has two holders or a stacked count, idle connections hold nothing, and idle plus busy connections make the page limit of each live process |
| RenderSlots.CapHolds | crawler/render.py:49-75 | whatever the limits of the processes, the pages open at once never exceed the largest limit of a live one |
| RenderSlots.RefusedOnlyWhenTaken | crawler/render.py:69-74 | a try succeeds if and only if nobody renders in that slot and nobody who crashed there is still connected |
| RenderSlots.NoHoldAndWait | crawler/render.py:67-75 | a coroutine waits only while its process has a connection for it or another coroutine that can move: nobody waits while holding |
| RenderSlots.LosingConnection | crawler/render.py:77-81 | the connections must live as long as their pages: in any reachable state losing one keeps the invariant if and only if no coroutine renders with it |
| RenderSlots.LostConnectionBreaksCap | crawler/render.py:77-81 | and when one does, the cap is gone: a run of two processes reaches two open pages under a limit of one |
| SimHash.Compute | crawler/extract.py:30-51 | bit b is set if and only if more than half of the runs of n consecutive tokens have bit b in the digest of their concatenation; at most n tokens hash to the digest of all, no tokens to 0; below 2^64 |
| SimHash.JoinConcatenates | crawler/extract.py:34-37 | the tokens of a shingle are joined with nothing between them |
| SimHash.SimHashBit | crawler/extract.py:47-51 | a bit of the hash is set if and only if the votes of all shingle occurrences for it are in the majority |
| SimHash.WeightedIsTally | crawler/extract.py:40-45 | weighting distinct shingles by their counts equals the plain sum over all occurrences |
| SimHash.OrderIrrelevant | crawler/extract.py:39-45 | the vector depends only on the multiset of shingles |
| SimHash.VectorMoves | crawler/extract.py:33-45 | replacing one token moves each vector entry by at most 2 * ngram |
| SimHash.EditStability | crawler/extract.py:30-55 | so the hashes differ only in bits whose entry is at most 2 * ngram in size, and their distance is at most the number of those |
| NearDuplicate.SignedBijection | crawler/frontier.py:179-185 | the stored form is a bijection from 64-bit unsigned to signed values |
| NearDuplicate.SignedHamming | crawler/extract.py:54-55 | it keeps every Hamming distance |
| NearDuplicate.BucketIsTopByte | crawler/db.py:38-43 | the arithmetic-shift test on stored values is agreement of the hashes on their top 8 bits |
| NearDuplicate.FetchCandidates | crawler/db.py:37-43 | the query returns rows of the bucket only, and all of them while the bucket fits its limit of 500 |
| NearDuplicate.FindNearDuplicate | crawler/db.py:29-47 | a returned id is another url within the distance; up to 500 candidates None is returned if and only if there is none |
| NearDuplicate.LookupMeansTopByteAndDistance | crawler/db.py:36-47 | in terms of the unsigned hashes the lookup is a scan for another url with the same top byte and a small distance |
| NearDuplicate.TopByteFlipIsMissed | crawler/db.py:38-43 | two hashes one bit apart are not found when that bit is in the top byte |
| Indexer.IndexerDB.FetchPendingDocuments | crawler/db.py:15-27 | as many pending documents as there are up to the limit, oldest first, none left out that is older than one taken |
| Indexer.IndexerDB.MarkDuplicates | crawler/db.py:67-75 | the statements for all pairs together suppress exactly those documents and record their duplicates |
| Indexer.Indexer.Sort | crawler/index.py:54-71 | every row lands in exactly one of the two lists, suppressed with a near duplicate or in the payload with the beginning of its text |
| Indexer.Indexer.Process | crawler/index.py:53-77 | a batch that does not raise marks exactly its suppressed and indexed rows and adds exactly its payload; one that raises leaves a prefix of these effects, and it raises only when a call does or a blob cannot be read |
| Indexer.Indexer.Turn | crawler/index.py:38-48 | exactly the batch leaves pending, each row as indexed and searchable, suppressed by a near duplicate, or failed with its whole batch; all other documents stay |
| Indexer.SettledMeans | crawler/index.py:54-71 | by document: only pending ones are taken, at most 200; an indexed one is found under the first 50,000 characters of its blob and no near url is overlooked while its bucket fits; a suppressed one names a url at most 3 bits away |
| Indexer.Indexer.Drain | crawler/index.py:36-48 | a backlog of n documents is drained in exactly ceil(n / 200) turns, whatever raises on the way; when nothing does and every blob is there, each document ends indexed or suppressed |
| IndexRuns.IndexedCanBeFound | crawler/index.py:53-77 | in every run with several indexers, exceptions, crashes and concurrent complete() calls a document in state indexed is in the search index |
| IndexRuns.StaleExactlyWhenChanged | crawler/index.py:62-77 | an indexed document is shown under what some earlier move read of its blob, so the entry is stale if and only if the indexed part of the blob has changed since that read |
| IndexRuns.IndexShowsTheText | crawler/index.py:62-77 | where no text blob is written again after its commit an indexed document is shown under its own text |
| IndexRuns.StaleIndex | crawler/index.py:62-77 | otherwise it need not be: a run in which a document, completed again between the read of its blob and the mark, ends indexed under its old text and no longer pending |
| IndexOfCrawl.CrawlWritesOnce | crawler/worker.py:126-138 | beside a lapse-free crawl, whose writes and commits the indexers see, no text blob is written again after its commit |
| IndexOfCrawl.IndexedUnderItsBlob | crawler/index.py:53-77 | so there every indexed document is found under the beginning of the very blob its row names, whatever the indexers do and wherever they stop |
| QueryForm.UnquoteUndoesQuote | crawler/normalize.py:67-72 | unquoting with plus as space undoes quote_plus, for every string of bytes |
| QueryForm.ParseUndoesPrint | crawler/normalize.py:67-72 | parse_qsl(urlencode(L)) is L for every list of decoded parameters, blank ones and repetitions included |
| QueryReading.ParsedAsRead | crawler/normalize.py:67-72 | text nobody printed: a piece parses to what its two sides read as, plus signs as spaces, escapes in either case as the byte of their value, stray percent signs as themselves; without an equals sign the value is blank |
| QueryReading.EveryTextIsRead | crawler/normalize.py:67-72 | every text can be read so, which makes the row above a full account of decoding |
| QueryReading.ParseJoined | crawler/normalize.py:67-72 | the parameters of two queries joined by an ampersand are those of the first, then those of the second; the empty query has none |
| QueryReading.CaseIsIrrelevant | crawler/normalize.py:67-72 | the case of the digits of an escape, anywhere in a query, does not change what is emitted |
| QueryReading.QuotedByByte | crawler/normalize.py:67-72 | each byte is emitted as itself if it is unreserved, a space as plus, any other as an escape with upper-case digits |
| QueryReading.EmittedIsSorted | crawler/normalize.py:67-72 | what is emitted is a sorted list with each parameter as often as it was parsed, and none of those with a tracking name |
| QueryForm.SortedIsUnique | crawler/normalize.py:68-72 | a multiset of parameters has one sorted list |
| Strings.StrLeMeaning | crawler/normalize.py:67-72 | the order is that of code points: a prefix comes first, otherwise the smaller character where the two first differ |
| QueryForm.CanonicalKeepsMeaning | crawler/normalize.py:66-72 | parsing the emitted query gives the parameters of the original one, sorted, none of them a tracking name |
| QueryForm.CanonicalIsExact | crawler/normalize.py:66-72 | two queries are emitted equal if and only if their parameters, without the tracking ones, are equal as multisets |
| QueryForm.CanonicalIsIdempotent | crawler/normalize.py:66-72 | emitting an emitted query changes nothing |
| PathForm.PassKeepsMeaning | crawler/normalize.py:57-64 | for every decoded path the regular expressions and the strip compute the path of its non-empty segments without an index file at the end |
| PathForm.SamePathSameMeaning | crawler/normalize.py:57-64 | two decoded paths become equal if and only if those lists of segments are equal |
| PathForm.PassIsCanonical | crawler/normalize.py:57-64 | the result starts with a slash, has no double slash, and ends in one only if it is the root |
| PathNames.LastSegment | crawler/normalize.py:24 | a path whose last segment is one of the ten index files, in any case, becomes its directory; any other last segment stays behind its directory |
| PathNames.LastSegmentWithNewline | crawler/normalize.py:24 | before a final newline, which the pattern lets stand, an index file goes and the newline stays |
| PathNames.InnerSegment | crawler/normalize.py:57-64 | segments that are not the last stay whatever their name, unless they are empty, so the three rows determine the result for every path |
| PathForm.SecondPass | crawler/normalize.py:57-64 | a second pass without decoding changes the path if and only if it still ends in an index file, and then shortens it |
| PathForm.SettlesAfterStackedIndexFiles | crawler/normalize.py:57-64 | after the first pass, n more reach a path that does not change any more if and only if n is at least the number of index files stacked at the end |
| Scrape.ScrapeFrontier.ClaimScrape | crawler/frontier.py:376-395 | the claim answers the declarative query restricted to active specs; each picked row becomes leased to the worker with its expiry and one attempt more, every other row stays; each task names its row |
| Scrape.ClaimedAreActive | db/schema.sql:407-435 | a claimed target was due, its spec active, nobody held its row, and no such target of its domain was due earlier |
| Scrape.ScrapeClaimIsFull | db/schema.sql:407-449 | with no lock holders the claim returns exactly min(batch, domains with a due target of an active spec) targets |
| Scrape.EndIsQueueStep | crawler/frontier.py:406-463 | every end of a scrape visit, skipped, failed, unchanged, completed or raising, is an enabled step of the lease queue with that effect on the rows, so its theorems are about this queue too |
| Scrape.EndByAnswer | crawler/scrape_worker.py:96-148 | which end each answer gets: unchanged if and only if the page is not modified, skipped if and only if there is no record, completed if and only if there is one and the body is empty or was stored, failed otherwise |
| Scrape.FedIsKnown | crawler/frontier.py:541-567 | after a feed the known urls are those before, the target, and, unless add() lost three times, every link with a host |
| Scrape.CompletingIsScrapeMoves | crawler/scrape_worker.py:132-148 | a completed visit makes the moves of the crawl system for it: the snapshot unless the body is empty, then the record that names it |
| Scrape.ScrapeFrontier.CompleteScrape | crawler/frontier.py:443-463 | the target is settled and its record replaced; nothing when the target has no row |
| Scrape.ScrapeWorker.Handle | crawler/scrape_worker.py:67-152 | a target whose spec is gone, inactive or needs a missing renderer is skipped before any fetch; otherwise one call ends the lease if and only if nothing outside the blob store raises first, and the row keeps its lease and failures if something does; a record is written only by a completed visit and names only a stored blob, and the crawl tables change only by the feed the spec asks for |

## Left out

- The SHA-256 digests are modelled as what they are computed from: `urlIdx` maps the url itself, `content` holds the
  text itself. A collision of the hash is not modelled.
- Times are read once per statement; each statement of the transition systems is atomic at one time, as `now()` is in an
  autocommit statement or at the start of a transaction.
- Politeness and robots gates: the comments at `db/schema.sql:195-197` and `crawler/worker.py:75-76` promise that claims
  wait for `next_available_at` and `is_crawlable`, but the claim queries never read them and the worker never consults
  the policy it resolves. The model follows the code and has no such gate.
- Periodic re-crawl: a done row gets a due time a week ahead, but nothing makes it pending again in a lapse-free run.
- ClaimRace.NoDoubleClaim: the limit on eligible domains and the order of candidates inside a domain are arbitrary here,
  which allows more claims than the query makes; `ClaimQuery` has them.
- Locks.SomeoneCanStep: covers row locks and the unique keys of rows being inserted. `seed` and `submit_scrape_targets`
  (unsorted hosts), `enroll_scrape_targets` and concurrent reapers are outside the discipline; of these `SeedLocks` has
  the first, two at a time. The queue in front of a
  lock is not modelled: any waiter may be granted a free lock. A new domain row's own unique key is its domain lock.
- Crawl.LeasesFollow: the claim move of the crawl takes any due url, which allows more than the claim query does.
- RenderSlots.PlaywrightRenderer.AcquireSlot: is one pass over the keys, not the endless polling loop around it, and a
  coroutine that runs alone; the interleavings are in the transition system of the same module. Cancellation between
  taking a connection and returning it, and the session reset of the pool's driver, are not modelled.
- Outcomes.VisitLeaves: says nothing of the counters of domains; `PagesCrawledIsExact`, `AddLinksAdds` and the contract of
  `Fail` do.
- Worker.CrawlWorker.Handle: runs alone, with one reading of the clock; the interleavings are those of `Crawl`, whose
  moves it makes. An exception of add() other than the third deadlock leaves what that leaves. The endless loops `CrawlWorker.run`, `ScrapeWorker.run` and `Indexer.run` (beyond its drain) are not
  methods here. No worker calls `renew`; the crawl may nevertheless renew at any time.
- Scrape.ScrapeWorker.Handle: runs alone; its ends are steps of `LeaseQueue` and its completion is made of moves of
  `Crawl`, but the handler as a whole is not shown to be a run of either. Nor is `Indexer.Process` shown to be a run of
  `IndexRuns`.
- RenderSlots.LosingConnection: a lost connection is not a move of the system; its effect is that of ending one session.
- QueryForm.CanonicalIsExact: strings are their UTF-8 bytes; replacing undecodable bytes is a parameter, assumed
  idempotent, and the pattern of tracking names is a parameter on the name.
- PathForm.PassKeepsMeaning: starts from the decoded path; scheme, host, port and fragment of a url, and percent-decoding
  before the path stage, are not modelled. Full idempotence of `normalize` is not claimed.
- Every near-duplicate group keeping an indexed member is not claimed: candidates are all urls with a hash, so two
  pending twins can suppress each other.
- HTTP, rendering, the render heuristic and `mark_js_required`, challenge detection, HTML extraction, robots parsing,
  `crawl_attempts`, metrics, Redis, Meilisearch's own queue, compression and the CLI: their results are arbitrary
  answers to the handlers, or absent.
- Columns that only pass through (`etag`, `last_modified`, titles, languages, spec fields) and the registration and
  listing of specs.
