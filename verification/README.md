# A verification model of the gateway's state machines

This project models the stateful core of a local LLM gateway and proves what it keeps: the rolling
paid budget, the persistence of rollups, the stream compiler with its filter, the writer of account
pins, the queue of the metrics file, the fault-control state machines, and a private wire protocol.
Goroutines are atomic steps at lock boundaries; the network, the clock, disk outcomes and peers are
free choices of the steps or parameters. Money is integer micro-USD with exact real prices, time is
integer nanoseconds. Run `dafny verify dfyconfig.toml`.

Each part has a specification made of functions on values, the code's own loops and field updates as
methods and classes proved equal to it, and lemmas over all runs or all inputs about it.

- **Paid budget.** `PaidLedger` is the ledger file and its edits, `PaidWindow` the sliding-window theorem
  over whole runs, `PaidBody` the observer of a response byte by byte, `PaidBill` what it makes of a body
  and what each token costs. `Sums` adds up maps.
- **Rollups.** `RollupCounts` is the algebra of buckets, `RollupFile` the day file at byte level,
  `RollupLog` the protocol of identified deltas, `RollupReader` the deduplicating reader, `RollupTally`
  what buckets and readings hold of the observations, `RollupStore` the store itself.
- **Streams.** `StreamEvents` has the event grammar and what a client rebuilds, `OpenAIStream`,
  `OpenAITranslator` and `OpenAIConverter` the translator, `SseFilter`, `SseFrames` and `SseFilterLoop`
  the filter, `ToolIds` the rewriting of tool ids, `StreamPipeline` the two stages in a row.
- **Account pins.** `PinWriter`.
- **Fault control.** `Circuit`, `NetworkIncident`, `FableQuota`, `PaidFallback`, `OutageEvidence`,
  `HeaderBudget`.
- **Private upstream.** `Wire`, `WireFormat`, `DevinStream`, `ToolHistory`.
- **Metrics.** `MetricsQueue`.

## Where the code does less than it says

- **The paid window is 23 hours, not 24.** README.md:264-280 promises that completed charges expire after
  24 hours. A settlement of unknown outcome passes an instant one hour ahead to the edit, which also
  prunes by it. `PaidWindow.GuaranteedWindow` shows that exactly the windows up to 23 hours are
  guaranteed, `PaidWindow.EarlyPruneBreaks` gives the run, and `PaidWindow.SettlementSafeIffNoVictim`
  says which settlements are safe for 24 hours: those whose prune drops no amount younger than that.
- **A ledger can lock itself out.** Nothing limits what is written, but a file over 8 MiB is refused
  (paid_budget.go:90-93), and provider names have no length limit (config_file.go:272-282).
  `PaidLedger.SafeNamesExactly` gives the longest safe name, `PaidLedger.EditsStayLoadable` the exact
  condition for each edit, `PaidLedger.ReserveLocksOut` a ledger at which it fails. The lock file is also
  marked before the first ledger is written, and `PaidLedger.BrokenBetweenMarkerAndFirstFile` says exactly
  when an edit that stops in between, by a crash or by refusing, leaves nothing that can be loaded.
- **An overtaken network probe can let a second one in.** A foreign success ends an incident while its
  probe is still out; if a second incident has its own probe out when the first one fails, that failure
  is taken for the second's. `NetworkIncident.TwoProbesOut` is the run, `NetworkIncident.ExclusiveIffNeverStale`
  the exact condition over runs, and `NetworkIncident.EpochTellsStale` a test on the record that tells.
- **A reused index after a dropped block loses its deltas.** `SseFilter.ReusedIndexLosesText` is the
  shortest source, `SseFilter.PreservedIffNoRevival` the exact condition; sources with fresh indices, the translator among them, are safe.
- **Rollup shutdown flushes once.** A bucket whose pending line was a retry keeps its newer observations
  unwritten. `RollupStore.ShutdownCanLoseObservations` is the run, and `RollupStore.RollupStore.Close`
  says exactly when everything is on disk.
- **Paid-fallback reasons.** docs/configuration.md:162 names two; the code accepts four
  (config_file.go:779). The model leaves the set of permitted reasons open.

## Model

| member | source | states |
|---|---|---|
| PaidLedger.LedgerFile.Load | paid_budget.go:84-124 | Refuses a ledger over 8 MiB, an invalid one, and a missing one once the lock file is marked; otherwise marks it and hands the edit exactly the entries that are pending or stamped within 24 hours |
| PaidLedger.LedgerFile.Size | paid_budget.go:90-93 | The loop over the entries gives the size of the encoded ledger |
| PaidLedger.LedgerFile.Validate | paid_budget.go:100-116 | Accepts exactly the ledgers within the entry cap whose entries are all valid, and prunes them |
| PaidLedger.LedgerFile.Total | paid_budget.go:203-208 | The loop over the entries, in any order, adds up one provider's entries, pending ones included |
| PaidLedger.LedgerFile.Reserve | paid_budget.go:200-220 | The new ledger and the outcome are those of the reserve edit: refused when the bound is not positive, the limit or the entry cap would be exceeded; otherwise one pending entry is added |
| PaidLedger.LedgerFile.Settle | paid_budget.go:222-241 | The new ledger and the outcome are those of the settle edit: missing reservations and costs above the bound are refused, a zero cost deletes the entry |
| PaidLedger.LedgerFile.Recover | paid_budget.go:159-179 | After a restart every pending entry is charged in full and stamped one attempt lifetime ahead; all others stay |
| PaidLedger.LoadsExactly | paid_budget.go:84-124 | A file can be read back exactly when it has at most 8 MiB and 32768 entries, each with a provider, a time and an amount of at most a million dollars; a missing one exactly while the lock file is not marked |
| PaidLedger.ReservationMeans | paid_budget.go:200-220 | A reservation is made exactly when the entries that count (pending, or less than a day old) leave room in money and number; it is then one new pending entry at its bound, and the others are exactly those that count, unchanged |
| PaidLedger.SettlementMeans | paid_budget.go:222-241 | After a settlement the entry is there if and only if the cost is positive, and then not pending, at that cost and stamped with the time given; all other entries that count are unchanged. It is refused as missing exactly when the entry no longer counts, as too high exactly when the cost is outside the bound |
| PaidLedger.SettledTwice | paid_budget.go:222-241 | After a settlement at zero a second one is refused as missing; after a charge it can only lower the amount, for a day |
| PaidLedger.RecoveryMeans | paid_budget.go:159-179 | After recovery nothing is pending: each pending entry is charged in full and stamped an hour ahead, the others that count are unchanged |
| PaidLedger.EditsStayLoadable | paid_budget.go:90-157 | When an edit leaves a ledger that the next one can load: entries stay valid, so exactly when what the reservation or settlement adds still fits 8 MiB, and for recovery one byte more for each pending entry |
| PaidLedger.SafeNamesExactly | paid_budget.go:90-93 | Every valid ledger can be read back if and only if provider names have at most 120 bytes |
| PaidLedger.CrowdedExists | paid_budget.go:90-93 | A full file of small reservations for a provider with a name of 200 bytes, below the entry cap and any limit |
| PaidLedger.ReserveLocksOut | paid_budget.go:90-93 | On such a file one more reservation is accepted and written, and from then on nothing can be reserved, settled or recovered |
| PaidLedger.BrokenBetweenMarkerAndFirstFile | paid_budget.go:106-149 | A crash inside an edit, or a refusal by its closure, breaks the ledger for good exactly when it comes between the marker and the first replacement |
| PaidLedger.TotalFits | paid_budget.go:203-210 | The running total of any valid ledger plus a bound stays below 2^63, so the signed sum cannot wrap |
| PaidWindow.RunWithinLimits | paid_budget.go:65-241 | Over every legal run of reservations, charges, settlements, crashes, restarts and time: as long as no prune forgets an entry still inside the window, no provider has more real charges in any window than its limit |
| PaidWindow.ReservationUntouched | paid_budget.go:109-241 | Until its own settlement an entry keeps its amount, and a pending one stays where it is until a restart |
| PaidWindow.PendingIsOpen | paid_budget.go:200-241 | Over every run the pending entries are exactly the reservations granted and neither settled, at whatever cost, nor recovered since |
| PaidWindow.LegalRunKeepsSafeWindow | paid_budget.go:109-241 | No legal run ever prunes an entry stamped within the last 23 hours of true time |
| PaidWindow.EarlyPruneBreaks | paid_budget.go:109-115 | A concrete run that puts 20 of real charges within 23 hours and a moment under a limit of 11: a settlement of unknown outcome passes an instant one hour ahead, and the edit prunes by that instant |
| PaidWindow.GuaranteedWindow | README.md:264-280 | Exactly the windows of at most 23 hours are guaranteed on every run; the advertised 24 hours are not |
| PaidWindow.SettlementSafeIffNoVictim | paid_budget.go:222-241 | For every ledger, clock and settlement that goes through: some history behind the ledger lets a provider exceed its limit within 24 hours, with no further settlement, if and only if the settlement's prune drops an amount stamped less than 24 hours ago |
| PaidWindow.DayKeptWithoutVictims | paid_budget.go:109-241 | Over a whole run the advertised 24 hours hold as long as no settlement that goes through drops such an amount |
| PaidBody.PaidBudgetBody.Observe | paid_budget.go:305-326 | One decoded payload updates usage, a terminal cost inside the bound, and completion; undecodable payloads change nothing |
| PaidBody.PaidBudgetBody.Read | paid_budget.go:328-356 | Reading a chunk is feeding its bytes one by one: line splitting, the line bound with its dropping mode, and the payload of a plain JSON body at its end |
| PaidBody.PaidBudgetBody.Close | paid_budget.go:358-401 | The first close settles once, at the known cost now or at the full bound one hour ahead; later closes do nothing |
| PaidBody.FeedAppend | paid_budget.go:328-356 | Feeding two pieces is feeding their concatenation |
| PaidBody.SettlementIgnoresChunking | paid_budget.go:328-401 | The settled cost depends on the bytes and the status alone, however the reads cut the body and however often its end is reported |
| PaidBody.SettlementWithinBound | paid_budget.go:358-401 | The settled cost is never negative and never above the reserved bound |
| PaidBody.SettlementAccepted | paid_budget.go:222-241 | The ledger accepts that cost whenever the reservation is still there |
| PaidBody.BoundCoversUsage | paid_budget.go:181-198 | Usage within the context window and max_tokens never prices above the reserved bound |
| PaidBody.BoundIsValid | paid_budget.go:181-198 | Every bound that is granted is an amount the ledger accepts |
| PaidBody.ObserveIdempotent | usage_tokens.go:76-104 | Observing a payload twice is observing it once |
| PaidBill.StreamIsLines | paid_budget.go:328-353 | An event stream is read as exactly its terminated data lines of at most 1 MiB, once each and in order; a longer line is passed over and the next is read again |
| PaidBill.PlainIsWhole | paid_budget.go:328-365 | A plain body is one payload if it has at most 1 MiB, and none otherwise |
| PaidBill.BodyIsPayloads | paid_budget.go:300-365 | When a body ends, each count is the last one given for its field, usage is inconsistent exactly if the counts ever disagreed, the body is complete exactly if a payload completes it, and the reported cost is the last acceptable one of a payload that ends the message |
| PaidBill.OutputToken | paid_budget.go:382-388 | One more output token adds the output price |
| PaidBill.InputToken | paid_budget.go:382-388 | One more uncached token, or one more token written to the cache, adds the input price |
| PaidBill.CacheReadToken | paid_budget.go:382-388 | One more token read from the cache adds the cache price, or the input price when no cache price is set |
| PaidBill.FirstToken | paid_budget.go:380-388 | No tokens cost nothing; while a cache count is missing the input is billed as a full context at the higher of the two input prices |
| PaidBill.SettlementMeans | paid_budget.go:366-396 | A successful complete response settles at its reported cost, else at its bill rounded up if that is within the bound, both as of now; else a rejected request settles at zero, and everything else at the whole bound an hour ahead |
| PaidBill.WholeBodySettles | paid_budget.go:300-396 | A whole body whose payloads give all counts and no cost is settled at the bill of those counts, rounded up |
| PaidBill.ThreeOneEightZero | paid_budget.go:382-388 | At 3, 15 and 0.3 a thousand uncached tokens, a hundred cache reads and ten of output settle at 3180 |
| PaidBill.BoundIsTight | paid_budget.go:181-198 | The reserved bound is exactly what a response costs that uses all of max_tokens and says nothing about the cache; there is one exactly for requests within the limits |
| RollupCounts.Int64SliceSub | rollups.go:89-114 | The loop gives the elementwise difference of two slices of any lengths, and nothing when all differences are zero |
| RollupCounts.Int64SliceAdd | rollups.go:116-129 | The loop gives the elementwise sum, growing the destination when needed |
| RollupCounts.StringInt64MapSub | rollups.go:131-151 | The loops give the keywise difference without its zero entries |
| RollupCounts.StringInt64MapAdd | rollups.go:153-164 | The loop gives the keywise sum; zero amounts of the source create no entry |
| RollupCounts.ViewSubAdd | rollups.go:166-216 | Seen number by number, bucket subtraction and addition are exact although zero entries and empty slices disappear |
| RollupCounts.ViewClone | rollups.go:226-246 | A clone shows the same numbers |
| RollupCounts.ZeroSub | rollups.go:218-224 | A delta counts as zero if and only if no number of the bucket changed |
| RollupFile.DayFile.RecoverTail | rollups.go:550-575 | The backward scan truncates exactly the torn tail, and fails only for a tail beyond the scan bound or a truncation that fails |
| RollupFile.DayFile.Append | rollups.go:531-586 | Success means one more complete line; whatever else happens, every complete line stays and at most this line or a torn prefix of it is added |
| RollupFile.WriteResult | rollups.go:577-585 | A write that stops after any number of bytes leaves either a torn tail or the whole line |
| RollupLog.RunKeepsInv | rollups.go:337-586 | Over every interleaving of observations, flush steps and appends with any outcome, other processes included: identifiers are unique, acknowledged deltas sum to what was flushed, and every acknowledged line is on disk |
| RollupLog.AppendKeepsInv | rollups.go:531-586 | An append keeps that invariant whatever its outcome |
| RollupLog.WriteKeepsInv | rollups.go:493-508 | A line whose append succeeded is on disk and stays there, whatever is appended before it is acknowledged |
| RollupLog.CommitBalances | rollups.go:493-508 | Acknowledging a pending line moves exactly its delta into the flushed sums |
| RollupReader.ReadRollupLines | rollups.go:646-686 | The reading loops give the lines of the requested hours, each identifier once, or nothing if any text is malformed |
| RollupReader.CollectFaithful | rollups.go:664-684 | A reading holds exactly one line for every identifier it met inside the requested hours |
| RollupReader.ReadingReconstructs | rollups.go:646-686 | Whenever a reading succeeds, the distinct lines of this process sum, number by number, to what it acknowledged plus at most the one pending delta |
| RollupReader.FlushedReadingEqualsBuckets | rollups.go:451-529 | When nothing is pending and everything is flushed, the files reconstruct every bucket |
| RollupReader.ReadingSucceedsExactlyWhen | rollups.go:646-686 | Over any run on files whose lines parse, a reading succeeds exactly when no file ends in a torn record or holds one too long for the scanner |
| RollupReader.ReadsTheSelection | rollups.go:664-684 | The lines read are exactly the lines on disk, in order, that are of the hours asked for and the first with their identifier; lines without an identifier all count |
| RollupTally.OwnersAreTheFirst | rollups.go:359-368 | While at most 10000 keys were observed each has a bucket of its own; from then on exactly the first 10000 have |
| RollupTally.HomeIsSettled | rollups.go:359-368 | A key keeps its bucket for the whole run, its own or the shared one of its hour and route |
| RollupTally.BucketsTally | rollups.go:337-445 | Over every run of a fresh process each bucket holds, number by number, exactly what was observed for the keys that belong there: a known key keeps its own, a new one past the bound adds to the shared bucket of its own hour and route |
| RollupTally.EachKeyItsOwn | rollups.go:337-445 | Over every run that names at most 10000 keys, a key has a bucket exactly if it was observed, and the bucket is the sum of its own observations |
| RollupTally.BucketsAreHomes | rollups.go:359-372 | The buckets are exactly those that some observed key belongs to |
| RollupTally.ObservedIsRead | rollups.go:293-686 | End to end over any run from a fresh process: once everything is flushed the reader recovers exactly what was observed, key by key while there are at most 10000 |
| RollupStore.RollupStore.Observe | rollups.go:337-445 | An observation adds to its bucket, or to its route's shared bucket past the key bound; a closed store ignores it |
| RollupStore.RollupStore.EnqueueDelta | rollups.go:461-479 | A bucket's unflushed difference becomes its pending line with the next identifier; a line already waiting is kept, and a zero difference makes none |
| RollupStore.RollupStore.AppendLine | rollups.go:493-499 | One append to the line's day file, with any outcome |
| RollupStore.RollupStore.Persist | rollups.go:493-508 | A line is acknowledged, at its own snapshot, only when the append fully succeeded |
| RollupStore.RollupStore.Drain | rollups.go:492-509 | Each pending line is tried once; exactly the successful ones are acknowledged |
| RollupStore.RollupStore.Flush | rollups.go:451-529 | A flush succeeds if and only if nothing stays pending, and a bucket is then complete if and only if its line was not a retry older than its last observation |
| RollupStore.RollupStore.Close | rollups.go:626-644 | Shutdown stops observations and flushes once; everything is then on disk if and only if every line was acknowledged and none was a retry older than its bucket's last observation |
| RollupStore.ShutdownCanLoseObservations | rollups.go:461-508 | A concrete run: a failed append, another observation, and a shutdown in which every append succeeds leave the observation unwritten |
| OpenAIStream.RunKeeps | anthropic-proxy.go:10738-10915 | For every sequence of chunks: what is written follows the grammar, open blocks are distinct and are the open text block and the started tools, and until the stream is cut no text or argument piece is lost: it is written in order or buffered in a tool that has not started |
| OpenAIStream.RunHeads | anthropic-proxy.go:10824-10900 | Each started tool's block carries the id and name known when both were first known, and every other block is a text block |
| OpenAIStream.RunLimits | anthropic-proxy.go:10833-10856 | A stream that has not been cut has at most 128 tool indices and 8 MiB of argument pieces, counted exactly |
| OpenAIStream.CallLimits | anthropic-proxy.go:10833-10856 | A fragment cuts the stream exactly when it would exceed one of the two limits |
| OpenAITranslator.FollowsGrammar | anthropic-proxy.go:10620-10975 | For every sequence of frames and every ending: one message_start at most, blocks 0, 1, 2, ..., deltas and stops only for open blocks; a stream that is not cut ends in message_stop with every block stopped once, or in an error event |
| OpenAITranslator.SuccessDelivers | anthropic-proxy.go:10620-10975 | On success the text deltas join to all upstream text in order, each tool index has its own block whose JSON deltas join to all its argument pieces, those before the announcement included. The stop reason is max_tokens exactly if the last reason given is length, refusal exactly if it is content_filter, tool_use exactly if it is tool_calls or function_call or none was given and a tool was announced, and end_turn otherwise |
| OpenAITranslator.SucceedsExactlyWhen | anthropic-proxy.go:10624-10735 | A translation succeeds if and only if no limit was exceeded, nothing malformed came before the end, some chunk arrived, the source did not break off, completion was signalled, and every tool call was announced with object arguments |
| OpenAITranslator.HeardIsTaken | anthropic-proxy.go:10738-10822 | What the translation acts on is what the chunks say: the text of all their choices, their tool fragments and the last finish reason, in order, up to the end marker |
| OpenAITranslator.ToolsByFragments | anthropic-proxy.go:10824-10900 | What is known about a tool depends on the fragments of the chunks alone |
| OpenAIConverter.Converter.ProcessToolCall | anthropic-proxy.go:10824-10915 | One fragment: limits cut the stream without an event, a tool not yet announced buffers, the announcing fragment opens its block, later ones are forwarded |
| OpenAIConverter.Converter.StartBlock | anthropic-proxy.go:10867-10898 | Closes an open text block, starts the tool's block and writes what was buffered, in order |
| OpenAIConverter.Converter.ProcessChunk | anthropic-proxy.go:10738-10822 | One chunk is the run of its operations, cut at the first error |
| OpenAIConverter.Converter.AnyBadTool | anthropic-proxy.go:10921-10944 | The loop over the tools in any order finds malformed or incomplete calls exactly when there are some |
| OpenAIConverter.Converter.FinishMessage | anthropic-proxy.go:10917-10975 | Stops every open block once, then writes the stop reason and message_stop; or an error event for a bad tool call |
| OpenAIConverter.Converter.TranslateAll | anthropic-proxy.go:10620-10735 | The whole loop, its early exits and its ending give exactly the specified stream |
| SseFilter.RemapInjective | anthropic-proxy.go:10142-10184 | On any source, two indices never share a client index and all of them are below the next one |
| SseFilter.DropPreservesMeaning | anthropic-proxy.go:10142-10184 | As long as no dropped index comes back to life, a client rebuilds the source message with the dropped blocks deleted and the rest unchanged, in order |
| SseFilter.PreservedIffNoRevival | anthropic-proxy.go:10155-10172 | A kept block starting at an index keeps the meaning for every following delta if and only if no dropped block used that index before |
| SseFilter.RevivalLoses | anthropic-proxy.go:10170-10172 | A block that reuses a dropped block's index loses its deltas |
| SseFilter.ReusedIndexLosesText | anthropic-proxy.go:10170-10172 | The shortest such source: thinking dropped at an index, then text at the same index, of which the client gets an empty block |
| SseFilter.FreshIndicesNeverRevive | anthropic-proxy.go:10142-10184 | A source that uses each index once is always safe |
| SseFilter.FilterKeepsGrammar | anthropic-proxy.go:10142-10184 | The grammar survives the filter: the client sees blocks 0, 1, 2, ... again |
| SseFilter.FilterIdentity | anthropic-proxy.go:10142-10184 | On a well-formed stream with nothing to drop the filter changes nothing |
| SseFilter.NeverSilentlyTruncated | anthropic-proxy.go:9777-9906 | Whatever the upstream sends: message_stop is written at most once and only after message_start and a stop reason, and a message that was started always ends in message_stop or an error |
| SseFilter.GrammarAccepted | anthropic-proxy.go:9921-9977 | A well-formed stream is never rejected and its message_stop never replaced |
| SseFrames.RejectedExactlyWhen | anthropic-proxy.go:9921-9977 | A run is rejected if and only if some frame is malformed, is an end marker before a finished message, or is an event out of order, told by the frames before it |
| SseFrames.ClientSees | anthropic-proxy.go:9777-9906 | The whole client stream of an accepted run, by its events alone: dropped and renumbered, a message_stop without an earlier reason replaced by an error, and an error added if it ends inside a message |
| SseFrames.ClientSeesUntilRefused | anthropic-proxy.go:9795-9806 | A rejected run shows what came before the first refused frame, and one error |
| SseFrames.CommentsPass | anthropic-proxy.go:9931-9945 | Keep-alive comments change nothing anywhere in any run |
| SseFrames.TrailerPasses | anthropic-proxy.go:9788-9794 | The end marker of a finished message, and comments around it, change nothing |
| SseFrames.GrammarWithNoise | anthropic-proxy.go:9777-9977 | A well-formed stream interrupted by comments and followed by its end marker reaches the client as if its events came alone |
| SseFilterLoop.FilterState.ShouldDrop | anthropic-proxy.go:10142-10184 | One event in place: its tool id is rewritten; a start of a dropped type is withheld and its index remembered; other blocks are renumbered, an index that was never started included |
| SseFilterLoop.FilterLoop.Flush | anthropic-proxy.go:9786-9851 | One frame: comments and a trailing end marker pass, anything invalid writes an error and stops the loop, a message_stop without a stop reason becomes an error, all else is filtered and written |
| SseFilterLoop.FilterLoop.FilterSSE | anthropic-proxy.go:9777-9906 | The whole loop and its ending give exactly the specified client stream |
| StreamPipeline.NormalKeeps | anthropic-proxy.go:8820-8838 | Rewriting tool ids changes neither the shape nor the content of a stream |
| StreamPipeline.IdsAreAccepted | anthropic-proxy.go:8820-8838 | Every tool id on its way is one the provider accepts, one it accepted before is unchanged, and nothing else of any event changes |
| StreamPipeline.FilteredIs | anthropic-proxy.go:9777-9977 | The filter never rejects a well-formed stream; it adds an error event exactly when the stream stops in the middle of a message |
| StreamPipeline.EveryStreamEnds | anthropic-proxy.go:6869-6888 | Translator and filter in a row: the client stream always follows the grammar and ends, in message_stop exactly when the translation succeeded |
| StreamPipeline.ClientRebuilds | anthropic-proxy.go:6869-6888 | The client rebuilds the translated message with the blocks of dropped types deleted |
| StreamPipeline.ClientHasEverything | anthropic-proxy.go:6869-6888 | With text and tool_use kept, a finished client stream has all upstream text in order and, for each announced tool, its block with id, name and all argument pieces |
| StreamPipeline.ClientIsToldWhy | anthropic-proxy.go:10547-10725 | With text and tool_use kept, a finished client stream has the text of the chunks and ends with the reason they gave last, or by whether a tool was announced |
| ToolIds.SanitizedIsAcceptable | anthropic-proxy.go:8840-8895 | Every id, whatever it contains, is rewritten to one that is acceptable |
| ToolIds.SanitizeMeans | anthropic-proxy.go:8840-8872 | An accepted id stays; any other keeps as much as there is room for of its text, with underscores for characters not allowed and none at the ends, or "tool" if nothing is left, and ends in the digest of the whole id |
| ToolIds.SanitizeIdempotent | anthropic-proxy.go:8840-8872 | Rewriting again changes nothing, so ids stay matched over several hops |
| ToolIds.CollisionsNeedTheDigest | anthropic-proxy.go:8840-8872 | Two different ids become equal only if their digests collide or one already was what the other is rewritten to |
| ToolIds.CleanLoop | anthropic-proxy.go:8848-8855 | The character loop keeps allowed characters and replaces every other one |
| PinWriter.RunKeeps | account_affinity.go:92-235 | Over every interleaving: whenever the generation is ahead of the last one read, a wake token is queued or the writer is about to read; what is on disk is the recorded map of one generation |
| PinWriter.FlushMeans | account_affinity.go:204-222 | A flush that returns nil has its target generation or a later one on disk |
| PinWriter.HistoryGrows | account_affinity.go:157-202 | The file never goes back to an earlier generation |
| PinWriter.CloseMeans | account_affinity.go:224-235 | When close returns nil, file and live map agree on every key and profile hash; without a writer nothing had changed |
| PinWriter.ClosedIsFinal | account_affinity.go:92-96 | After shutdown took the flag no request changes the map |
| PinWriter.FlushProgress | account_affinity.go:157-222 | While a flush waits the writer can always move, each of its steps brings it closer, and nothing else pushes it back |
| PinWriter.FlushWithinTenSteps | account_affinity.go:157-222 | In any run, ten steps of the writer are enough for the flush to return |
| PinWriter.CloseProgress | account_affinity.go:157-202 | A stopped writer can always move until it is done, and each of its steps brings it closer |
| PinWriter.CloseWithinSeventeenSteps | account_affinity.go:157-202 | In any run a stopped writer makes at most seventeen more steps, and is done after them |
| PinWriter.EvictsOnlyTheOldest | account_affinity.go:105-121 | The map stays within 10000 pins, the new pin is in it, and only the least recently used other pin is lost |
| PinWriter.RememberMeans | account_affinity.go:92-126 | A conversation seen again on its account only moves its time of use; any other pin is a new generation and wakes the writer |
| PinWriter.LookMeans | account_affinity.go:166-202 | A woken writer writes the live map of that moment exactly when there is a generation it has not attempted, or when it is stopping after a failure |
| PinWriter.TryMeans | account_affinity.go:180-200 | A saved attempt ends the writing, a failed one is repeated until it is the third, and whatever may have reached the file is the snapshot |
| PinWriter.DoneExactlyWhen | account_affinity.go:166-202 | A stopping writer is done exactly when there is nothing to write and no failure to make good, or after it has published its last attempt |
| PinWriter.AccountPins.Remember | account_affinity.go:92-126 | One critical section is one step of the protocol: repeated use of the same account queues nothing |
| PinWriter.AccountPins.OldestPin | account_affinity.go:112-121 | The loop over the map, in any order, finds the least recently used pin other than the newcomer |
| PinWriter.AccountPins.TakeSnapshot | account_affinity.go:166-179 | The writer copies the live map exactly when there is something new, or a failure to repeat at shutdown |
| PinWriter.AccountPins.Publish | account_affinity.go:193-200 | The attempt is published as the protocol says |
| PinWriter.WriteSnapshot | account_affinity.go:180-190 | At most three attempts, stopping at the first success; failure means that all three failed |
| Circuit.LeaseIsExclusive | anthropic-proxy.go:7213-7239 | From a probe's grant until its release, a failure or a success that counts, no other attempt on the leg is admitted |
| Circuit.StaleReleaseIsHarmless | anthropic-proxy.go:7241-7251 | Releasing a probe that no longer holds the lease changes nothing |
| Circuit.RunKeeps | anthropic-proxy.go:7213-7303 | Over every run with strictly increasing clock readings, half-open means exactly that one probe holds the lease, and it is the latest granted |
| Circuit.CoolingGrantsAreApart | anthropic-proxy.go:7226-7233 | A probe granted during cooldown comes at least two seconds after every earlier one |
| Circuit.OpensOnlyOnRepeatedFailure | anthropic-proxy.go:7253-7282 | A circuit opens, for the cooldown its opens call for, only at a failure within the window of another that no success wiped out |
| Circuit.OpensExactlyWhen | anthropic-proxy.go:7253-7282 | A failure opens the circuit exactly when it is at least the second of a chain, each within the window of the one before; for thirty seconds, then twice as long each time, up to five minutes |
| Circuit.OpenStays | anthropic-proxy.go:7253-7303 | Nothing but a failure opens it, and only a success that counts closes it |
| Circuit.AdmitsExactlyWhen | anthropic-proxy.go:7213-7239 | A closed circuit admits everybody; an opened one admits one probe at a time, anybody after the cooldown, and during it only the last leg left, two seconds after the last probe |
| Circuit.CountsExactlyWhen | anthropic-proxy.go:7253-7303 | A success counts exactly when its attempt began no earlier than the last failure on record and the probe that is out, or when its start is unknown |
| Circuit.FailuresAreKnown | anthropic-proxy.go:7253-7303 | The recorded last failure is the last failure since the last success that counted |
| Circuit.ClosesOnlyOnFreshSuccess | anthropic-proxy.go:7288-7303 | An open circuit closes only on a success whose attempt began no earlier than every failure so far |
| Circuit.CooldownDoubles | anthropic-proxy.go:7270-7277 | The cooldown doubles from 30 seconds up to five minutes |
| Circuit.CircuitState.AcquireAttempt | anthropic-proxy.go:7213-7239 | Refuses while half-open, and during cooldown unless this is the last leg and the last probe is two seconds old; on an opened circuit an admitted attempt is a probe named by its time |
| Circuit.CircuitState.ReleaseProbe | anthropic-proxy.go:7241-7251 | Only the probe whose grant time is on record ends the half-open state |
| Circuit.CircuitState.TripAt | anthropic-proxy.go:7253-7282 | A failure ends half-open and counts, from one again after a quiet window; from the second on it opens the circuit for the next cooldown |
| Circuit.CircuitState.ResetAfter | anthropic-proxy.go:7288-7303 | A success wipes the record unless its attempt began before the last failure or the current probe |
| NetworkIncident.InFlightIffRecovering | anthropic-proxy.go:3768-3938 | After any steps a probe is in flight exactly in the recovering phase |
| NetworkIncident.OnlyTheProbe | anthropic-proxy.go:3883-3904 | While the gateway is down only a probe is admitted, and during recovery nothing is |
| NetworkIncident.ProbesWait | anthropic-proxy.go:3768-3918 | No probe goes out before the recovery delay after an incident began or a probe failed; an incident nobody tends ends at its time, one with a probe out does not |
| NetworkIncident.OneProbeAtATime | anthropic-proxy.go:3883-3918 | As long as no overtaken probe fails while another is out, nobody is admitted beside the probe that is out |
| NetworkIncident.ExclusiveIffNeverStale | anthropic-proxy.go:3883-3918 | Over a whole run the probe that is out excludes everybody at every point, if and only if no overtaken probe ever fails while another is out |
| NetworkIncident.EpochTellsStale | anthropic-proxy.go:3906-3918 | The test a failing probe could make: during recovery its failure is an overtaken probe's if and only if the epoch has changed since it was admitted |
| NetworkIncident.TwoProbesOut | anthropic-proxy.go:3906-3918 | A concrete run in which an overtaken probe's failure lets a second probe in beside the one that is out |
| NetworkIncident.DownOnlyWhenCorroborated | anthropic-proxy.go:3842-3881 | The gateway goes down only when the configured number of distinct origins each reported a strong local error within the window, or when an incident's probe fails |
| NetworkIncident.DownExactlyWhen | anthropic-proxy.go:3768-3790 | From a suspicion, one more origin takes the gateway down exactly when enough origins are still within the window and the suspicion itself is not older than it |
| NetworkIncident.AdmitsExactlyWhen | anthropic-proxy.go:3883-3904 | Requests pass while nothing is wrong, during a suspicion and after an incident has run out; in an incident one becomes the probe once its time has come, and all others are refused |
| NetworkIncident.IncidentTimes | anthropic-proxy.go:3842-3918 | The failure that starts an incident sets its end and the time of its first probe; a failed probe sets the time of the next |
| NetworkIncident.FailureMeans | anthropic-proxy.go:3842-3918 | A failure outside an incident starts one exactly if the origins still within the window of a live suspicion, with its own, reach the threshold; otherwise it starts a suspicion or joins it |
| NetworkIncident.EndsMean | anthropic-proxy.go:3906-3938 | One success ends every suspicion and incident; a probe that fails sends the gateway back offline, one that was overtaken changes nothing |
| NetworkIncident.SharedIncident.DropOld | anthropic-proxy.go:3770-3774 | The loop over the signals deletes exactly the ones that are too old |
| NetworkIncident.SharedIncident.Normalize | anthropic-proxy.go:3768-3790 | Forgets old signals, a suspicion older than the window with its signals, and an incident whose time is over with no probe out |
| NetworkIncident.SharedIncident.ObserveFailure | anthropic-proxy.go:3842-3881 | A strong failure starts a suspicion or, with enough origins, takes the gateway down; the provider is spared, and falling back stops while the gateway is down |
| NetworkIncident.SharedIncident.BeginRequest | anthropic-proxy.go:3883-3904 | While offline the first request after the delay becomes the probe and puts the gateway in recovery, all others are refused; otherwise requests pass |
| NetworkIncident.SharedIncident.FinishProbe | anthropic-proxy.go:3906-3918 | A failing probe puts a recovering gateway back offline |
| NetworkIncident.SharedIncident.ObserveSuccess | anthropic-proxy.go:3920-3938 | Any success ends the incident and forgets its signals |
| FableQuota.OneLeaseAtATime | fable_quota.go:47-77 | There is never more than one probe out for a model, and the flag says exactly whether there is one |
| FableQuota.ProbesAreAnHourApart | fable_quota.go:16-37 | Any two probes of a model are at least an hour apart, whatever happens between |
| FableQuota.ProbeNeedsEvidence | fable_quota.go:16-61 | A probe goes out only while a quota rejection blocks the model, every failure so far is an hour old, no other probe is out, and fresh headers of a healthy account allow requests |
| FableQuota.LeaseExactlyWhen | fable_quota.go:16-77 | Requests pass exactly while the model is not blocked. A probe goes out exactly when a quota rejection blocks it, every failure and every probe of the run is at least an hour old, none is out, and the account is neither blocked nor quarantined and has headers of the last five minutes that allow requests |
| FableQuota.BlockMeans | anthropic-proxy.go:4061-4200 | What every event does to the block and its reason, both when it changes them and when it does not |
| FableQuota.OnlyNewerEvidenceLifts | anthropic-proxy.go:4061-4108 | A block ends before its recorded time only by headers or a complete inference of a request that began no earlier than every failure so far, or by the quota header naming an earlier end |
| FableQuota.OnlyNewerEvidenceClears | fable_quota.go:78-90 | A quota rejection gives way only to such evidence, to another failure's longer block, or to its own time |
| FableQuota.ModelRecord.Acquire | fable_quota.go:47-77 | Requests pass when the model is not blocked; a blocked model admits only a request that takes the lease, never a token count |
| FableQuota.ModelRecord.ClearAfter | fable_quota.go:80-90 | A complete inference lifts a quota rejection, then any block that is not about a quota or credentials, unless a failure was recorded after the request began |
| FableQuota.ModelRecord.ObserveRejected | anthropic-proxy.go:4178-4193 | The quota header blocks the model until the time it names |
| FableQuota.ModelRecord.ObserveAllowed | anthropic-proxy.go:4194-4200 | Headers that allow the model lift a quota rejection recorded no later than the request began |
| FableQuota.ModelRecord.MarkBlocked | anthropic-proxy.go:4070-4079 | Another failure on the same record: the longer block wins and names the reason |
| FableQuota.ModelRecord.CheckBlocked | anthropic-proxy.go:3451-3470 | Looking at the record forgets a block whose time has come |
| PaidFallback.GateMeans | config_runtime.go:161-175 | For every policy a configuration can hold, the gate opens exactly when the route opted in, some leg was evaluated, and every recorded reason is permitted, load spill only with soft concurrency; an unexplained leg closes it |
| PaidFallback.PaidOnlyWhenExplained | anthropic-proxy.go:7549-7588 | A route that is not metered sends its first metered request only when it opted in, some non-metered leg was evaluated, and the latest recorded reason of every one evaluated is permitted |
| PaidFallback.UnexplainedBlocks | anthropic-proxy.go:7582-7588 | While some leg's latest reason is missing, no metered leg is sent |
| PaidFallback.SentExactlyWhen | anthropic-proxy.go:7561-7800 | For every sequence of turns of a route that is not metered: exactly which legs are evaluated, which reasons recorded and which requests sent; a leg free of charge always, a metered one when another was sent before or the latest reason on record for every key is excused, nothing after the response |
| PaidFallback.TakeMeans | anthropic-proxy.go:7561-7800 | One turn leaves its whole log if it passes, and otherwise nothing |
| PaidFallback.CheckAllowed | config_runtime.go:165-175 | The loop over the evidence, in any order, is the quota and outage test |
| PaidFallback.CheckLoadAllowed | load_routing.go:17-27 | The loop over the evidence, in any order, is the load test |
| PaidFallback.AttemptLoop.Attempt | anthropic-proxy.go:7561-7800 | One pass: a metered leg is suppressed while nothing was paid and the gate is closed; a non-metered leg is unexplained until a reason is recorded; the first metered request opens the paid stage |
| PaidFallback.AttemptLoop.Attempts | anthropic-proxy.go:7561-7800 | The loop over all attempts is the walk the statements are about |
| OutageEvidence.ConfirmsExactlyWhen | config_runtime.go:194-214 | A report confirms an outage if and only if it is no success and, since the report that began the minute under way, the requests reporting server errors of the route have changed at least three times, the first included |
| OutageEvidence.ConfirmedByThree | config_runtime.go:194-214 | A confirmed outage rests on three server errors of the route in one minute, neighbouring ones from different requests, with no success since |
| OutageEvidence.TwoRequestsConfirm | config_runtime.go:209-212 | Only neighbours are compared: two alternating requests change three times |
| OutageEvidence.Outages.Update | config_runtime.go:194-214 | A success deletes the entry; an entry over a minute old or from the future is renewed; a server error of another request than the last counts; three confirm |
| HeaderBudget.CountLater | anthropic-proxy.go:3640-3661 | The loop with its seen map counts the distinct eligible providers still to come |
| HeaderBudget.ReservedIsShares | anthropic-proxy.go:3663-3676 | What is kept back is one equal share for each later provider, and the current attempt never gets less than a share |
| HeaderBudget.LaterDrops | anthropic-proxy.go:3640-3661 | Going on to the next eligible provider lowers the count by exactly one |
| HeaderBudget.EveryBackupGetsItsShare | anthropic-proxy.go:3663-3676 | With R left and n providers to come, each of the n gets exactly the smaller of 25 seconds and R/(n+1), even if everybody uses all of its time, and nothing of R is lost |
| Wire.VarintRoundTrip | internal/devin/wire.go:21 | Reading a printed varint gives the number back and consumes exactly its bytes |
| Wire.FieldRoundTrip | internal/devin/wire.go:22-29 | A printed field reads back under its tag, whatever follows it |
| Wire.ParseUndoesPrint | internal/devin/wire.go:50-89 | Parsing the concatenation of any printed fields with tags 1 to 2^29-1 succeeds and gives every field in order |
| Wire.ParseConcat | internal/devin/wire.go:50-89 | Two messages one behind the other parse as the fields of one followed by those of the other |
| Wire.ConcatAppendsByTag | internal/devin/wire.go:50-89 | So the map of a concatenation appends the two maps tag by tag |
| Wire.AccessorsReadBack | internal/devin/wire.go:90-102 | String and number accessors give back what was printed first under a tag |
| Wire.GroupedGroups | internal/devin/wire.go:86 | Each tag that occurs holds exactly its values in order |
| WireFormat.VarintExactly | internal/devin/wire.go:53-54 | A varint is read exactly if its bytes are at most ten, chained by their high bits, and say a 64-bit number, which is the value |
| WireFormat.ValueExactly | internal/devin/wire.go:58-84 | A value is read exactly from the bytes its wire type allows |
| WireFormat.MessageExactly | internal/devin/wire.go:50-89 | The parser accepts exactly the messages of the format, defined without a parser, and gives their fields |
| Wire.ReadUvarint | internal/devin/wire.go:53-54 | The byte loop reads a varint, refusing one that runs out or exceeds 64 bits |
| Wire.ReadValue | internal/devin/wire.go:58-84 | The value of each wire type, refusing what does not fit or is not supported |
| Wire.Parse | internal/devin/wire.go:50-89 | The parsing loop succeeds exactly on well-formed bytes and builds the map of their fields |
| DevinStream.ReplayRebuilds | internal/devin/server.go:317-398 | After any accepted frames, replaying the deltas sent rebuilds exactly the accumulated content, reasoning and calls |
| DevinStream.CallsAreReassembled | internal/devin/server.go:345-393 | The calls are the ids in the order first named, each with its first name and all its argument pieces joined in order, where a piece without an id belongs to the call named last |
| DevinStream.AnonymousIsUnambiguous | internal/devin/server.go:360-371 | A piece without an id is accepted only when every other call is already complete |
| DevinStream.AcceptedExactlyWhen | internal/devin/server.go:345-393 | A stream is accepted if and only if each of its pieces names a call or follows one, leaves no other call incomplete unless it names its own, repeats no name wrongly, opens only calls of offered tools and keeps within the limits |
| DevinStream.TextIsKept | internal/devin/server.go:317-344 | Content and thinking are those of all frames in order, finish code and output count the last ones given |
| DevinStream.EndsExactly | internal/devin/server.go:400-422 | Which reason ends a stream, told by its frames: tool_calls exactly with calls whose arguments are all objects, length exactly without calls at the limit, stop exactly without calls, below the limit and with the trusted code |
| DevinStream.TakeKeeps | internal/devin/server.go:372-388 | The id map is the inverse of the call list throughout, and the limits on calls, ids and arguments hold |
| DevinStream.StreamState.TakeFragment | internal/devin/server.go:345-393 | One fragment finds or opens its call, refuses unknown tools, changed names and excess sizes, appends its arguments and gives the delta |
| DevinStream.StreamState.ConsumeFrame | internal/devin/server.go:317-398 | One frame appends content and reasoning, notes finish and usage, takes its fragments in order and refuses the stream at the first bad one |
| DevinStream.StreamState.FinishReason | internal/devin/server.go:400-422 | The ending: tool calls only with object arguments, the length limit, the one trusted finish code |
| ToolHistory.AcceptedIffBijective | internal/devin/request.go:106-152 | The linear pass accepts exactly the histories in which calls and results are in bijection, ids unique and not empty, each call before its result |
| ToolHistory.RunIsSound | internal/devin/request.go:135-147 | Up to any point, the pass has not failed exactly when nothing is wrong yet, and it tracks the calls still open |
| ToolHistory.History.Add | internal/devin/request.go:107-148 | One message is taken exactly when it is well formed and its calls and result fit |
| ToolHistory.Validate | internal/devin/request.go:106-152 | The whole check: every message well formed, and calls and results in bijection |
| MetricsQueue.NothingLostOrDoubled | anthropic-proxy.go:2085-2286 | Over every interleaving of records, flushes and shutdown: file and queue are a selection of what was given, each sample once and in order, the rest is counted as dropped, the queue keeps its capacity, and a queue that is not empty has a timer or a flush under way |
| MetricsQueue.DrainedAccountsForAll | anthropic-proxy.go:2251-2286 | Once drained, what is not in the file is counted as dropped |
| MetricsQueue.RecordMeans | anthropic-proxy.go:2085-2109 | A sample given to an open store is queued behind all others while there is room and counted as dropped otherwise; a closed store ignores it |
| MetricsQueue.NothingLostExactlyWhen | anthropic-proxy.go:2085-2286 | File and queue together are all samples given before the store was closed, in order, if and only if none found the queue full, every written batch could be encoded and no drain gave up |
| MetricsQueue.CommitKeeps | anthropic-proxy.go:2236-2241 | Taking a written batch off the front of the queue keeps the accounting although records arrived meanwhile |
| MetricsQueue.MetricsStore.RecordSample | anthropic-proxy.go:2085-2109 | One record is queued, or counted as dropped when the queue is full |
| MetricsQueue.MetricsStore.FlushBatch | anthropic-proxy.go:2190-2249 | A successful flush appends the encodable samples of the front batch and takes exactly that batch off the queue; a failed one leaves queue and file alone |
| MetricsQueue.MetricsStore.Drain | anthropic-proxy.go:2251-2286 | Shutdown leaves an empty queue, and every sample ever given in the file or counted as dropped |

## Left out

- HTTP, TLS, timers, credentials, process execution and the operating system: only their outcomes appear, as choices of the steps.
- JSON: decoding and validity are parameters, events and chunks are datatypes with the fields that matter; fields the stages only pass on are not modelled, among them the usage numbers of message_start and message_delta, model names and a block's tool_use_id.
- Bytes of SSE framing: the streams begin at decoded frames. Line and frame length limits appear only in `PaidBody` and `PaidBill`.
- Content inside message_start, which the filter also drops by type: it is not modelled.
- A tool block without an id: the model has the empty string for it, which the filter would rewrite.
- Failing writes to the client: the streams' statements are about runs in which they succeed.
- Rounding: prices are exact reals, and durations and amounts unbounded integers; `PaidLedger.TotalFits` shows that the ledger's sum stays far below 2^63, `Wire` bounds varints to 64 bits.
- PaidLedger.EditsStayLoadable: encoded times count with nine fractional digits and a numeric zone; a shorter one saves at most 15 bytes. Whether a rename survives a power failure before the directory is synced is not modelled.
- RollupReader.ReadRollupLines: a file that cannot be read at all also ends the reading; such faults are not modelled.
- Samples' contributions to rollup buckets: an observation adds an arbitrary increment, so the histogram bounds and the classification of samples are not modelled; neither are the retention sweep, the hour of a sample and a delta that cannot be encoded.
- Aliasing of slices and maps: clones are values, so that a clone does not share storage with its source is not shown.
- MetricsQueue.NothingLostOrDoubled: a failed write is always rolled back; what remains after a failed rollback is not modelled, nor are rotation and reloading.
- PinWriter.CloseMeans: the file found at start is taken as it is; a malformed one, which loading ignores, is not on disk by the writer's doing until the first change.
- PaidWindow.RunWithinLimits: a charge falls between its reservation and its stamp and within its settled amount, as the budget's design assumes; a provider that charges later or more is outside the statement.
- Circuit.LeaseIsExclusive: clock readings on a leg strictly increase; with equal readings the time of a probe would not name it.
- PaidFallback.AttemptLoop.Attempt: what happens inside a turn, apart from the gate and the evidence, is a choice; the separate policy for installations without a definition file is not modelled.
- HeaderBudget.EveryBackupGetsItsShare: each eligible provider comes once and routes that are not eligible are not tried in between; whether a provider is eligible is a flag of the attempt.
- DevinStream.ReplayRebuilds: reading of frames (compression, envelope, trailers) and the usage message's own parse errors are not modelled.
- ToolHistory.Validate: the other checks of a request (limits, schemas, content parts) are flags of the message or left out.
- Error classifiers, adaptive scores, model families, account selection, dashboards, statistics, command line and configuration: policy tables, input and output.
- Clients' JSON responses that are not streamed: translated by separate code, not modelled.
