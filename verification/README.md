# A verified model of Toche

Toche is a local proxy between AI coding clients and their providers. It merges
identical requests in flight, answers repeated ones from a local cache, shortens
tool output, marks requests for the provider's prompt cache, and records what it
did. Its hard part is twofold: bookkeeping shared by concurrent requests, and
rewrites of requests and text that must not change what they are for. This
project models both and proves what they keep.

Run `dafny verify dfyconfig.toml`.

## What is modelled

**Requests in flight** (`Gateway`, `Coalesce`, `SingleFlight`, `Waking`,
`Permits`, `Quotas`, `Bursts`, `Limits`, `CacheWrites`, `Rollbacks`, `Mishaps`,
`Originals`, `Provenance`, `Replays`, `Uninterrupted`). `Gateway` describes the request handler as a
transition system: a state holds the tasks, the free permits, the open flights
with their broadcast channels, the cache tables, the blob directory and the
running orphan cleanups. `Enabled` and `Next` say what each of 24 kinds of step
needs and does (`src/gateway/routes.rs:283-823`). A cached read takes four steps
(open and evict, look up the row, read its blob, count the hit), a cache write
one for each check, the blob, the row and the rollback, a cleanup one for its
scan of the tables, one for its list of files and one for each deletion. Steps of
any tasks, operations on the storage and cleanups interleave freely. The theorems
hold in every state of every run. Without interleaving the steps of a read, a write
and a cleanup are the operations of the sequential cache. `CoalesceStore` is the store itself, as a class.

**Cache, blob store and collector** (`SafeCache`, `ContentStore`, `Timestamps`).
`CacheDb` and `CasStore` are classes with the program's fields and operations;
each method is proved against a function on the tables, and the theorems are
about runs of those functions. The composite of tables, directory and collector
is proved to answer like one plain map.

**Request rewrites** (`JsonTree`, `Fingerprints`, `Breakpoints`, `Efficiency`,
`Reduction`). Methods with the program's loops over an unbounded JSON datatype.
The normal form behind the fingerprint is characterised by edits; a breakpoint
plan is specified by what it selects; reduction is specified by what may differ
and what the store must hold.

**Line filters** (`LineFilter`, `TextLines`). The eight stages, with regular
expressions as arbitrary predicates and rewrites of lines.

**The rest** (`Migration`, `FlightKeys`, `Ledger`, `Upstream`). Configuration
migration and its inverse with colliding identifiers, the textual flight key,
the usage summaries, and the collection of an upstream body.

Iterator expressions and SQL statements appear as functions, loops and in-place
updates as methods. SHA-256 is an ideal hash: a digest stands for its preimage.
Text is identified with its bytes where the program hashes or stores it.

## Where the code differs from what is said about it

- A request coalesced with one that fails is meant to be told so
  (`src/shield/coalesce.rs:50-52`). The handler never resolves a flight whose
  leader timed out waiting for a permit, failed upstream or could not open the
  ledger, so the flight stays open and later requests for the key wait on it
  (`AbandonedFlightStaysOpen`, `FailedCallStrandsWaiter`); the failure answer is
  never given (`NeverToldFailed`).
- The storage limits are checked first and used later. `RowsStayWithinIff` and
  `BytesStayWithinIff` say exactly for which settings they hold; otherwise
  `RowOvershoot` and `ByteOvershoot` bound the excess, and `RowOvershootReached`
  and `ByteOvershootReached` show that the bounds cannot be improved. Reductions
  have no limit at all.
- Tail loss says that its payload and offset reproduce the dropped lines
  (`src/reduce/rtk/toml_filter.rs:387-388`). They do if and only if no kept line
  contains a newline, which a replacement rule can put there (`TailLossRecovers`,
  `BrokenLineNotRecovered`). The cap on lines fails in the same way (`OutputWithinCap`,
  `CapNotKept`).
- The comments on eviction and clearing mention blobs
  (`src/safe_cache/cache_db.rs:265-267`, `src/safe_cache/cache_db.rs:277-280`);
  the code deletes rows only, and blobs go in the orphan cleanup. That cleanup
  takes only hashes the cache registered first, which its comment omits
  (`src/safe_cache/cache_db.rs:446-448`).
- A failed cache insert deletes the blob it created. Another request may have
  stored the same bytes in between and rely on that blob
  (`RollbackTakesNeededIff`, `RollbackCanDangle`), or a reduction may have
  registered them as an original (`OriginalKeptIff`).
- An orphan cleanup deletes what it found at its scan. A row inserted since can
  lose its blob, and so can a request between its blob and its row, or between a
  row and its blob (`CleanupTakesNeededIff`, `CleanupCanDangle`,
  `CleanupUnderWriter`, `ReadCanMiss`).
- An original that a reduction stored is not safe from the cleanup when the cache
  registered the same bytes first (`ReductionSurvivesIff`).
- Only a hash that was unknown is meant to be cache-owned
  (`src/safe_cache/cache_db.rs:215-217`). An insert that fails after registering its
  hash leaves it known and unowned, so the same bytes stored later are never
  collected (`UnclaimedIsNeverCollected`).
- Per-model figures add up to the totals unless an empty model name occurs beside
  others: as a filter, an empty name means all models (`ByModelAddsUpIff`).

## Model

| member | source | states |
|---|---|---|
| `SingleFlight.OneLeaderPerOpenFlight` | src/shield/coalesce.rs:60-111 | in every reachable state the open flights are exactly the keys of tasks that forwarded and have not finished, with one such task for each key |
| `SingleFlight.OneCallPerKey` | src/gateway/routes.rs:283-556 | two upstream calls in flight for one flight key are the same call |
| `SingleFlight.CallsWithinFlights` | src/gateway/routes.rs:283-556 | over a whole run, no more upstream calls are made for a key than flights are opened for it |
| `SingleFlight.ServedTheLeadersResponse` | src/gateway/routes.rs:298-322 | a coalesced request is answered with the status and bytes its leader finished with; the leader had the same URL, trust domain and policy, and a body that differs at most in the stream flag and cache marks |
| `SingleFlight.NeverToldFailed` | src/gateway/routes.rs:324-327 | the answer for a failed prior request is never given, since no flight is cancelled, lagging or closed under a waiter |
| `SingleFlight.WakesIffLeaderFinished` | src/shield/coalesce.rs:84-91 | a waiter can be answered if and only if the task that leads its flight has finished |
| `SingleFlight.AbandonedFlightStaysOpen` | src/gateway/routes.rs:537-556 | once a leader has given up, its flight is open in every later state, and requests with its key that waited or come later are neither answered nor forwarded |
| `Waking.ServedLaterIff` | src/gateway/routes.rs:283-823 | from any reachable state, some continuation answers a waiting request if and only if the leader of its flight has not given up |
| `Provenance.AnswersAreGenuine` | src/gateway/routes.rs:283-823 | whatever a request is answered with was returned by an upstream call for a request of the same meaning and with the same cache key, project included, or was in the row with that key at the start; the key is the request's own, or for a coalesced request that of its leader |
| `Replays.ReplayWithinTtl` | src/gateway/routes.rs:343-385 | among interleaved requests, one answered from the cache evicted first and then read a row of a workspace; the response was stored for its key and that workspace, and, if no row is stamped before a cutoff already used, at an instant not before the cutoff of its own eviction |
| `SingleFlight.FailedCallStrandsWaiter` | src/gateway/routes.rs:548-556 | a run in which a failed upstream call strands a coalesced request for every continuation |
| `SingleFlight.StepKeepsFlights` | src/gateway/routes.rs:283-823 | every step keeps the invariant that ties open flights, channels, leaders and waiters together |
| `Permits.CallsWithinLimit` | src/gateway/server.rs:97 | permits held and permits free are always as many as configured, and no more upstream calls than that are in flight |
| `Quotas.RowOvershoot` | src/gateway/routes.rs:537-763 | under any interleaving the cache has at most `max_entries + max_concurrent_upstream - 1` rows, because the permit is held from the check to the write |
| `Quotas.ReservationsShrink` | src/gateway/routes.rs:598-630 | no step except passing the row check adds a key to those that have a row or are about to |
| `Quotas.ByteOvershoot` | src/gateway/routes.rs:632-710 | under any interleaving the blobs take at most `max_cas_bytes`, one largest entry for all but one of the permits, and what reductions stored in the run |
| `Bursts.RowOvershootReached` | src/gateway/routes.rs:598-735 | as many requests as permits, with keys of their own, reach the bound on rows from one row below the limit |
| `Bursts.ByteOvershootReached` | src/gateway/routes.rs:632-710 | as many requests as permits, with different bodies of the largest size, reach the bound on bytes from one body below the limit |
| `Bursts.BurstWrites` | src/gateway/routes.rs:537-763 | requests that each fit the limits alone are all admitted and all write their row and blob |
| `Limits.RowsStayWithinIff` | src/gateway/routes.rs:598-630 | every run from within the limits keeps `max_entries` if and only if there is one permit, the limit is zero, or no response can be cached |
| `Limits.BytesStayWithinIff` | src/gateway/routes.rs:632-658 | every run without reductions from within the limits keeps `max_cas_bytes` if and only if there is one permit, the row limit is zero, or no two different non-empty bodies can be cached |
| `Coalesce.CoalesceStore.TryAcquire` | src/shield/coalesce.rs:60-83 | leads a new flight if none is open for the key, else subscribes to the open one; keeps the store sound |
| `Coalesce.CoalesceStore.Complete` | src/shield/coalesce.rs:95-102 | closes the flight with the response; does nothing without an open flight |
| `Coalesce.CoalesceStore.Cancel` | src/shield/coalesce.rs:106-111 | closes the flight without a response |
| `Coalesce.ResolvedFlightIsFinal` | src/shield/coalesce.rs:95-111 | no later operation changes the channel of a resolved flight |
| `Coalesce.WaiterHearsFirstResolution` | src/shield/coalesce.rs:72-111 | a subscriber hears exactly the first resolution of its key after it joined, whatever follows, and never lags or finds the channel closed |
| `CacheWrites.OrderlyRunKeepsBlobs` | src/gateway/routes.rs:336-390 | interleaved requests that never write the same bytes at the same time, beside cleanups during which none holds a blob without its row or a row without its blob, keep every row's blob, and a request that found a row finds its blob |
| `CacheWrites.WithoutDeletions` | src/gateway/routes.rs:719-749 | so do runs in which no insert is rolled back and no cleanup deletes, whatever bytes are shared |
| `Rollbacks.RollbackTakesNeededIff` | src/gateway/routes.rs:719-749 | a request that created its blob and was refused its row deletes a blob still needed if and only if another request stored the same bytes in between and is about to insert its row, or has and the row stands or is being read |
| `Rollbacks.CleanupTakesNeededIff` | src/cli/storage.rs:263-275 | a cleanup deletes a blob still needed if and only if a row for it was inserted after the scan and stands, or a request has the blob without its row yet, or a row without its blob yet; where nothing was missing before, exactly then something is missing after |
| `Rollbacks.CleanupTakesNamedIff` | src/cli/storage.rs:263-275 | of these, the rows: a row names the deleted blob if and only if it was inserted after the scan and still stands |
| `Rollbacks.HoldersSinceScan` | src/cli/storage.rs:263-275 | of these, the requests: each held the blob at the scan already, or wrote it since, or read a row inserted since |
| `Mishaps.RollbackCanDangle` | src/gateway/routes.rs:719-749 | a run in which one request's rollback leaves another's row without its blob |
| `Mishaps.CleanupCanDangle` | src/cli/storage.rs:263-275 | a run in which a row inserted between scan and deletion loses its blob |
| `Mishaps.CleanupUnderWriter` | src/gateway/routes.rs:706-735 | a run in which a request finds its blob in place, a cleanup deletes it, and the row is inserted after the deletion |
| `Mishaps.ReadCanMiss` | src/gateway/routes.rs:346-385 | a run in which a request finds a row and then not its blob |
| `Originals.OriginalKeptIff` | src/gateway/routes.rs:519-533 | in a reachable state, an original that is present and registered stays in every continuation of interleaved requests if and only if the cache does not own its hash and no request that created the same bytes may still take them back |
| `Uninterrupted.ReadUninterrupted` | src/gateway/routes.rs:336-390 | the handler's steps of a cached read, with nothing in between, change the storage as the sequential read does, and lead to its answer or to a call |
| `Uninterrupted.WriteUninterrupted` | src/gateway/routes.rs:706-749 | so do the steps of a cache write, whatever statement of the insert fails |
| `Uninterrupted.CleanupUninterrupted` | src/cli/storage.rs:254-275 | so do scan, listing and deletions of a cleanup, of any number of files |
| `Uninterrupted.BypassStaysOut` | src/gateway/routes.rs:336-390 | in every run, a request that bypasses the cache takes no step that reads or writes it |
| `SafeCache.RunKeepsSound` | src/safe_cache/cache_db.rs:165-301 | in every run, with failures at any statement of an insert, every row's blob is present, registered and holds the bytes of its hash |
| `SafeCache.OpeningOldDataIsSound` | src/safe_cache/cache_db.rs:160-168 | opening a database from before the registry establishes that invariant |
| `SafeCache.RunRefinesMap` | src/gateway/routes.rs:336-390 | rows, registry, blobs and collector answer every read of every run as one map from project and fingerprint to the last stored response, with its workspace check; a blob is never found missing |
| `SafeCache.ProtectedForever` | src/safe_cache/cache_db.rs:214-229 | in sequential runs, a hash that is registered and not cache-owned stays so, and its blob stays |
| `SafeCache.ReductionSurvivesIff` | src/gateway/routes.rs:519-533 | in sequential runs, an original that a reduction registers stays recoverable for good if and only if the cache had not registered its bytes first |
| `SafeCache.WrittenBlobKeptIff` | src/safe_cache/cache_db.rs:214-229 | after a response is stored, its blob survives every later run if and only if its hash was registered but not cache-owned before; a hash that was unknown goes in a clear and a cleanup |
| `SafeCache.UnclaimedIsNeverCollected` | src/safe_cache/cache_db.rs:214-229 | bytes whose first insert failed between registration and claim, and that are stored again later, are never collected |
| `SafeCache.EvictionByAge` | src/safe_cache/cache_db.rs:255-275 | eviction keeps a row if and only if it is not older than the cutoff as an instant, and touching a row never extends its life |
| `SafeCache.HitWithinTtl` | src/gateway/routes.rs:343-385 | over all sequential runs with printed timestamps, a replayed response was stored for its key and workspace, with these bytes, at an instant not before the cutoff of the read |
| `SafeCache.CacheDb.constructor` | src/safe_cache/cache_db.rs:160-168 | opening registers the hashes of all rows and claims none for the cache |
| `SafeCache.CacheDb.RegisterCas` | src/safe_cache/cache_db.rs:177-183 | registers a hash, once |
| `SafeCache.CacheDb.Insert` | src/safe_cache/cache_db.rs:214-252 | the row is replaced by one stamped now with one hit; the hash is registered, and claimed for the cache if and only if it was unknown; with the partial state that a failure at each statement leaves |
| `SafeCache.CacheDb.Touch` | src/safe_cache/cache_db.rs:255-263 | counts one more hit and stamps it, for one row and nothing else |
| `SafeCache.CacheDb.EvictExpired` | src/safe_cache/cache_db.rs:268-275 | removes the rows created before the cutoff and counts them |
| `SafeCache.CacheDb.Clear` | src/safe_cache/cache_db.rs:281-301 | removes the rows of a project, or all, and counts them |
| `SafeCache.CacheDb.OrphanCandidates` | src/safe_cache/cache_db.rs:453-535 | lists exactly the files that may be deleted, and exactly those never registered, each once with its size, largest first |
| `SafeCache.StoreResponse` | src/gateway/routes.rs:706-749 | stores blob and row, and deletes a blob it created when the row could not be inserted |
| `SafeCache.Replay` | src/gateway/routes.rs:336-390 | evicts, looks up, checks the workspace, reads the blob and touches the row on a hit |
| `SafeCache.DeleteAll` | src/cli/storage.rs:266-274 | deletes every listed blob once; the sizes found by the scan add up to the bytes freed |
| `SafeCache.CleanupOrphans` | src/cli/storage.rs:254-274 | deletes exactly the collectable blobs; bytes freed and bytes left add up to the bytes before |
| `ContentStore.CasStore.Store` | src/reduce/storage.rs:28-44 | writes the bytes under their hash |
| `ContentStore.CasStore.StoreNew` | src/reduce/storage.rs:47-73 | writes only if no such file exists, and says whether it did |
| `ContentStore.CasStore.Delete` | src/reduce/storage.rs:96-109 | removes the file and says whether there was one |
| `ContentStore.CasStore.CountBytes` | src/safe_cache/cache_db.rs:542-576 | the bytes of all files, in whatever order they are listed |
| `Timestamps.TextOrderIsTimeOrder` | src/safe_cache/cache_db.rs:231-275 | comparing timestamps printed in the format of section 5.6 of RFC 3339 as text compares the instants, although the fractions have 0, 3, 6 or 9 digits |
| `Timestamps.RenderReadsBack` | src/safe_cache/cache_db.rs:231-275 | a printed instant has the fields at their places and widths and reads back to it, the fraction in as few groups of three digits as hold it |
| `Fingerprints.SameFingerprintIffEdited` | src/shield/fingerprint.rs:33-62 | two documents share a fingerprint if and only if setting and removing stream flags and cache marks turns one into the other |
| `Fingerprints.EditsKeepNormalForm` | src/shield/fingerprint.rs:33-62 | no sequence of such edits changes the normal form |
| `Fingerprints.NormalizedByEdits` | src/shield/fingerprint.rs:33-62 | the normal form itself is reached by such edits |
| `Fingerprints.NormalizeIdempotent` | src/shield/fingerprint.rs:33-56 | normalising twice is normalising once |
| `Fingerprints.NormalFormReads` | src/shield/fingerprint.rs:33-62 | the normal form lacks `stream` and the `cache_control` of blocks in the system prompt and in messages, and reads like the document everywhere else |
| `Fingerprints.StripBlocks` | src/shield/fingerprint.rs:58-62 | removes the cache mark of every block in place |
| `Fingerprints.Normalize` | src/shield/fingerprint.rs:33-56 | the in-place loops compute the normal form |
| `Fingerprints.Compute` | src/shield/fingerprint.rs:12-30 | the fingerprint of a body, with the fallback for text that does not parse |
| `Breakpoints.AnyOfType` | src/cache/breakpoint.rs:24-90 | whether a content list has a block of a type |
| `Breakpoints.FindBreakpoints` | src/cache/breakpoint.rs:24-90 | selects the last system block and the last block of the last message with blocks before the first tool interaction; fails exactly on text that does not parse |
| `Breakpoints.PlanUnique` | src/cache/breakpoint.rs:24-90 | the specification leaves one plan |
| `Breakpoints.PlanStopsAtTools` | src/cache/breakpoint.rs:24-90 | no planned message comes at or after an assistant's tool use or a user's tool result; if blocks come before the first of these, one message is planned, no earlier than any of them, at its last block |
| `Breakpoints.PlanFollowsFingerprint` | src/cache/breakpoint.rs:24-90 | documents with one fingerprint have one plan |
| `Breakpoints.InjectCacheControl` | src/cache/inject.rs:10-47 | applies the marks of a plan; an empty plan leaves the body alone |
| `Breakpoints.InjectionInvisible` | src/cache/inject.rs:10-47 | marking by any plan changes neither the fingerprint nor the plan that is found |
| `Breakpoints.InjectionIdempotent` | src/cache/inject.rs:10-47 | marking twice is marking once, for any plan |
| `Breakpoints.InjectionMarksPlan` | src/cache/inject.rs:20-44 | exactly the planned blocks get the ephemeral mark, with their other fields as before, and every other block is untouched |
| `Efficiency.InjectEfficiency` | src/efficiency/inject.rs:21-69 | the last system block reads as the instruction; before it are the blocks there were, or one that reads as the plain prompt; without a prompt, and outside it, nothing changes |
| `Efficiency.InstructedUnique` | src/efficiency/inject.rs:39-57 | that determines the result |
| `Efficiency.BreakpointOnInstruction` | src/efficiency/inject.rs:39-57 | after an injection the system breakpoint is the instruction block, and the message breakpoint has not moved |
| `Reduction.ReduceBody` | src/reduce/transform.rs:52-163 | the whole walk: new messages, tallies and stored originals; nothing when disabled, bypassed, unparsable or without a list of messages |
| `Reduction.ReduceMessages` | src/reduce/transform.rs:87-160 | the loop over messages |
| `Reduction.ReduceBlocks` | src/reduce/transform.rs:93-159 | the loop over content blocks |
| `Reduction.ReduceBlock` | src/reduce/transform.rs:93-158 | one block: bypass list, empty text, command match, filter, store, replace |
| `Reduction.ReducedIff` | src/reduce/transform.rs:94-152 | a block is reduced if and only if it is a tool result with text, its tool is not bypassed, and its command, or else its tool's name, is matched by the pattern set and by a filter; then to the output of the first such filter on its text; tool and command are those of the last assistant blocks with its identifier |
| `Reduction.TokensCounted` | src/reduce/transform.rs:127-152 | the hashes reported are those of the originals in order, and the token figures are the sums over the originals and over the reduced texts |
| `Reduction.OnlyResultsChange` | src/reduce/transform.rs:87-160 | a message keeps everything but the content of tool results, and a list content keeps its parts but for the text of text parts |
| `Reduction.EveryResultCounted` | src/reduce/transform.rs:93-159 | reductions and pass-throughs add up to the tool results in messages with list content, with one hash for each reduction |
| `Reduction.OriginalsStored` | src/reduce/transform.rs:127-152 | the hashes reported are those of the reduced originals, each is stored under its hash, and no other file changes |
| `Reduction.ChangedBlocksRestorable` | src/reduce/transform.rs:127-147 | a block judged to be reduced reads as the filtered text, the marker text with the hash of its original text, and newlines, and the store holds that text under that hash; any other block is unchanged |
| `Reduction.ReductionKeepsPlan` | src/reduce/transform.rs:87-160 | reduction does not move the cache breakpoints |
| `Reduction.ReplacedReads` | src/reduce/transform.rs:238-287 | replaced content reads back as the new text and one newline for each further text part; a list whose text was not empty always has a part to replace |
| `Reduction.ExtractTextContent` | src/reduce/transform.rs:238-257 | the texts of a result joined by newlines, without leading empty ones |
| `Reduction.ExtractedTextReads` | src/reduce/transform.rs:238-257 | the text of a result is its string, or the texts of exactly its text parts in order, joined from the first that is not empty; otherwise empty |
| `Reduction.ReplaceContent` | src/reduce/transform.rs:260-287 | the first text part takes the text and the others become empty; a part is appended when there is none |
| `Reduction.TextReplaced` | src/reduce/transform.rs:260-287 | the string is replaced, or the first text part takes the text, the others become empty and other parts stay, or, without a text part, one that reads as the text is appended; nothing else in the block changes |
| `Reduction.BuildToolMap` | src/reduce/transform.rs:198-234 | the two maps from tool-use identifiers, over all assistant messages |
| `Reduction.FirstFilter` | src/reduce/rtk/toml_filter.rs:371-376 | the first filter whose pattern matches the command, or none if none does |
| `Reduction.LastUseWins` | src/reduce/transform.rs:198-234 | over a whole request, the last assistant block that uses an identifier gives its tool's name, and the last that does so with a command gives the command |
| `Reduction.CommandOfBash` | src/reduce/transform.rs:179-192 | only Bash calls have a command: what is left of the input's command text after leading white space, copies of `sudo ` and then copies of `rtk `, unless nothing is |
| `Reduction.LeadingBlanks` | src/reduce/transform.rs:184-187 | all the leading white space is dropped and nothing after it |
| `Reduction.DropCopies` | src/reduce/transform.rs:184-187 | drops every leading copy of a word and nothing else |
| `Reduction.WordsDropped` | src/reduce/transform.rs:184-187 | a command line is copies of the first prefix, copies of the second, and what is left |
| `LineFilter.ApplyFilterWithInfo` | src/reduce/rtk/toml_filter.rs:396-531 | the eight stages: the message of the first rule that fires, with total loss; else the lines shown, joined, or the message for blank output; and the loss |
| `LineFilter.CleanAll` | src/reduce/rtk/toml_filter.rs:399-421 | stages 1 and 2 |
| `LineFilter.ReplaceAll` | src/reduce/rtk/toml_filter.rs:411-419 | replacement rules chained over one line |
| `LineFilter.MatchOutput` | src/reduce/rtk/toml_filter.rs:423-436 | the message of the first rule whose pattern matches the output and whose exception, if any, does not; none if there is no such rule |
| `LineFilter.CleanedByRules` | src/reduce/rtk/toml_filter.rs:399-421 | each line of the output goes through the colour filter, if that is on, and then through the rules one after the other |
| `LineFilter.KeptLinesPicked` | src/reduce/rtk/toml_filter.rs:438-443 | the kept lines are the cleaned lines at increasing positions: exactly those a strip filter does not match, exactly those a keep filter matches, or all |
| `LineFilter.TruncateAll` | src/reduce/rtk/toml_filter.rs:445-458 | shortens every line to the limit, if there is one, and says whether any changed |
| `LineFilter.NoLossIffFits` | src/reduce/rtk/toml_filter.rs:503-530 | no loss is reported if and only if no rule fired and every guard let the lines through, and then the output is all kept lines or the message for blank output |
| `LineFilter.TailLossIff` | src/reduce/rtk/toml_filter.rs:459-530 | tail loss is reported if and only if no rule fired, no line was shortened, no tail setting is there, and exactly one of the head and the cap cut |
| `LineFilter.BlankMeansUncut` | src/reduce/rtk/toml_filter.rs:503-509 | a blank result means that stages 5 to 7 changed nothing |
| `LineFilter.TailLossShape` | src/reduce/rtk/toml_filter.rs:511-523 | with tail loss the output is a prefix of the kept lines and one marker that counts the rest, and the payload is all of them |
| `LineFilter.TailLossRecovers` | src/reduce/rtk/toml_filter.rs:384-394 | shown lines followed by the payload from the offset on are the kept lines if and only if no kept line contains a newline |
| `LineFilter.KeptLinesNewlineFree` | src/reduce/rtk/toml_filter.rs:396-443 | only a replacement rule can put a newline into a line |
| `LineFilter.BrokenLineNotRecovered` | src/reduce/rtk/toml_filter.rs:384-394 | a filter and an output for which the promised recovery fails |
| `LineFilter.CutsAccountForEveryLine` | src/reduce/rtk/toml_filter.rs:465-501 | a cut shows as many first lines as the head setting says, the marker text with the number left out, and as many last lines as the tail setting says; the cap shows as many first lines as it says and its marker; shown and left out add up |
| `LineFilter.OutputWithinCap` | src/reduce/rtk/toml_filter.rs:465-509 | unless it is the message for blank output, the output cut at its newlines has exactly the lines that stages 5 to 7 left if and only if these contain no newline; if no kept line contains one, it has as many lines as the cuts leave, no more than were kept and at most one above the cap; nothing kept gives an empty output |
| `LineFilter.CapNotKept` | src/reduce/rtk/toml_filter.rs:492-501 | a filter whose replacement rule breaks a line gives three lines under a cap of one |
| `TextLines.TruncateProperties` | src/reduce/rtk/utils.rs:16-25 | a line within the limit stays; a longer one becomes its first characters and three dots, of the limit's length or, below three, the dots alone; shortening is idempotent |
| `TextLines.StripAnsiFirst` | src/reduce/rtk/utils.rs:7-12 | the first escape sequence of a line (introducer, parameters, letter) is dropped, what comes before it stays, and what comes after it is stripped in turn |
| `TextLines.StripAnsiNothingIff` | src/reduce/rtk/utils.rs:7-12 | a line is left alone if and only if it has no escape sequence |
| `TextLines.SplitJoin` | src/reduce/rtk/toml_filter.rs:504-518 | splitting joined lines gives them back if and only if none contains a newline, and otherwise more pieces |
| `TextLines.LinesReadBack` | src/reduce/rtk/toml_filter.rs:397-397 | the lines of a text are those it was put together from, whether they end in a newline or a carriage return and a newline; what follows the last ending is a line unless empty |
| `TextLines.DecimalReadsBack` | src/reduce/rtk/toml_filter.rs:470-500 | the numbers in markers are written in digits without a leading zero and read back |
| `FlightKeys.KeyTextInjective` | src/shield/coalesce.rs:67-70 | flight keys are equal only if URL, fingerprint, trust domain and policy hash are, for any URL |
| `FlightKeys.KeyTextIdentifiesFlight` | src/shield/coalesce.rs:67-70 | the texts of two flights' keys are equal if and only if the flights are |
| `FlightKeys.CompletingNoKey` | src/gateway/routes.rs:283-284 | completing the empty key, which a request outside coalescing carries, never touches an open flight |
| `FlightKeys.StatusSplit` | src/gateway/server.rs:196-203 | the first piece of a key is the URL if and only if the URL has no bar, and then the pieces are the four parts, the third of them the trust domain |
| `Upstream.CollectBody` | src/gateway/routes.rs:78-105 | returns the whole body unless it is longer than the limit, however it was cut into chunks; broken chunks are skipped |
| `Ledger.ViewCountsAddUp` | src/meter/db.rs:271-334 | for every sequence of answered requests and every filter by project and model, the columns of the records written for them are the numbers of forwarded, locally answered and coalesced requests shown, which add up to the requests, and the tokens saved are those of the local hits |
| `Ledger.ViewTokensAddUp` | src/meter/db.rs:271-334 | in the same views, tokens in and out are those of all answers shown, and cached, created and reduced tokens and reductions those of the forwarded ones |
| `Ledger.ByModelAddsUpIff` | src/meter/db.rs:364-384 | the per-model figures add up to the overall ones in every column if and only if no model name is empty or all are |
| `Migration.MigrateV1ToV2` | src/config/migration.rs:151-232 | one integration, upstream and policy for each profile, with its data, references between them, and identifiers derived from its trimmed and lowered name; and the default's identifier |
| `Migration.ConfigToLegacyProfiles` | src/config/migration.rs:69-147 | fails if and only if an integration's upstream is missing; otherwise one profile for each integration |
| `Migration.LegacyFromFirst` | src/config/migration.rs:69-147 | over every configuration: an integration goes back if and only if its upstream is there, to a profile with the target and credential of the first upstream and the settings of the first policy it refers to |
| `Migration.LegacyAuthByHeader` | src/config/migration.rs:69-147 | an inline secret becomes a bearer token if and only if its header is `authorization` in any case, and an API key otherwise; other secrets are not carried over |
| `Migration.LegacyDefaultIsFirst` | src/config/migration.rs:136-144 | the legacy default is the name of the first integration with the default's identifier, or none |
| `Migration.MigrateAndBack` | src/config/migration.rs:69-232 | migrating and converting back never fails, and gives each profile the data of the first profiles with its identifiers |
| `Migration.ProfilesSettle` | src/config/migration.rs:69-232 | a second round changes no profile, whatever identifiers collide |
| `Migration.DefaultSettlesIff` | src/config/migration.rs:136-144 | a second round keeps the default if and only if some profile answers to it |
| `Migration.RoundTripIdempotent` | src/config/migration.rs:69-248 | going there and back is idempotent when only names that normalise alike share identifiers |
| `Migration.RoundTripKeepsDistinct` | src/config/migration.rs:69-248 | of a profile that shares no identifier with an earlier one, a round trip changes only an API key in an authorization header and missing cache settings |
| `Migration.DefaultResolves` | src/config/resolver.rs:62-114 | for every list of profiles, the migrated default resolves to the first profiles with the identifiers, credential included, or to none |
| `Migration.ResolvesToFirst` | src/config/resolver.rs:40-114 | for every configuration, the default resolves if and only if an integration has its identifier, and then to the first that has, with the target of the first upstream and the settings of the first policy it refers to, or empty ones; the credential is the variable's value, the command's output, the inline text, or none |
| `Migration.OnlyOwnSourceMatters` | src/config/resolver.rs:40-57 | without command secrets the result depends on environment variables only, and without environment secrets on command outputs only |
| `Migration.DefaultResolvesToItsProfile` | src/config/resolver.rs:62-114 | a default that shares no identifier with an earlier profile resolves to its own URL, headers, header name, credential and features |
| `Migration.RoundTripResolvesAlike` | src/config/resolver.rs:62-114 | after a round trip the default resolves if and only if it resolved before and a profile answers to its new name; then to the same URL, headers, credential, features and models, with the header name the same but for case and a missing cache policy as the enabled default one |

## Left out

- HTTP, header copying, authentication headers, server-sent events and the async runtime: only the points where a request touches shared state are modelled.
- Liveness: a coalesced request's answer is stated as possible or impossible in a state; no step is promised to happen.
- The number of waiters shown on the status page: the code subtracts a leader it does not count (`src/gateway/server.rs:205`).
- SQLite, its pragmas, integrity check and numbered schema migrations: tables are sets and maps. SQL operations other than `insert` succeed.
- The table of rejected cache entries, and the listing and statistics commands: no other operation reads them.
- SafeCache.CacheDb.Insert: in the concurrent model a task's insert is one step; between its statements no other task moves. So are opening with eviction, and a cleanup's reading of the three tables.
- SafeCache.RunRefinesMap: the runs are sequential, with operations as wholes; interleaved requests are the subject of `CacheWrites`, `Rollbacks`, `Originals`, `Provenance` and `Replays`.
- Quotas.ByteOvershoot: the directory scan is a snapshot.
- `min_free_disk_bytes`: it can only skip a write, which the model allows at any time.
- The inspection that decides whether a response may be cached: an arbitrary predicate on its bytes.
- File system failures, partial writes, the two-level directory and the check of file names: a blob write or delete is atomic.
- SHA-256 collisions; derived identifiers keep four bytes of the hash, so for them collisions are allowed, and lemmas that exclude them say so.
- JSON and TOML text: bodies are parsed values or text that does not parse, which is no document's canonical text; printing a document and parsing it again is the identity.
- Regular expressions and the compilation of filters: arbitrary predicates and rewrites. The truncation cap on saved payloads is not modelled.
- Reduction.ReduceBody: token estimates, the percentage in the marker and the hexadecimal form of hashes are arbitrary functions; the subtraction behind the percentage is not modelled. A failed store is not either.
- Costs, latencies and per-day figures of the ledger; SQL patterns over project paths are an arbitrary choice of paths.
- Ledger.ViewCountsAddUp: the answered requests are any sequence; the ledger is not a part of the concurrent state.
- Ledger.ByModelAddsUpIff: counters are unbounded; the casts to and from 64-bit columns are not modelled.
- Resolution of environment variables and commands: arbitrary results.
- The commands for setup, connection, preview and launch: user interface and simple edits of maps.
