# Buddy2api: a model of its protocols, with proofs

Buddy2api is an OpenAI-compatible gateway in front of several account pools. This project models the parts of it where
behaviour emerges from many steps, and proves what those parts are for. Functions say what is computed, classes and methods
keep the loops and the updates of the original and are proved equal to the functions, and lemmas state the properties over
all inputs, all runs and all interleavings.

- **Event streams.** `SseDecoding` and `SseDecoder`: bytes to events, with a byte-at-a-time scanner as reference.
  `ChatObserver`, `ChatObserverTheorems`, `ChatStreamObserver`: the validating observer. `StreamFailover` and its
  companions: attempts over several accounts, with terminal chunks held back. `CompletionCollect`: the non-streaming path.
- **Responses translation.** `ResponsesEvents` is a strict client that knows only the event protocol.
  `ResponsesTranslation`, `ResponsesTranslator` and `ResponsesWellFormed` show that it accepts every translated stream;
  `ResponsesAgreement` compares the streaming and the non-streaming translation.
- **At-rest envelopes.** `Gf128`, `Gcm`, `Envelope`: AES-GCM over an arbitrary block function, against polynomial arithmetic and
  sections 6.2 to 6.5, 7.1 and 7.2 of NIST SP 800-38D.
- **Message history.** `ToolHistory` and its companions, `OutboundRepair` and its companions: two repairs that move tool results
  next to their calls. `Whitespace`: Python's `strip`. `HistoryTrim`, `HistoryTrimTheorems`, `ContextDispatch`: dropping old
  history, and dispatch within a budget.
- **Accounts.** `RateLimiter` and its companions: first-in first-out pacing under any interleaving. `AccountQueue` and
  `AccountQueueTheorems`: the global order and the sticky picker. `QueueWalk`: the walk over the queue, ownership of streams, and the
  daily reservation. `FailureBackoff`: cooldowns. `QuotaCache`: the merged quota row. `ReasoningControls`: the normaliser of
  reasoning controls.

What the model takes as given: the JSON parser and printer, which are functions or typed fields; the AES block function; which
accounts the picker offers, how upstream answers, the bytes it sends and where a connection breaks; word lists and regular
expressions; clock readings, which only grow, though one may be acted on late. Generated ids are fresh numbers. Ratios, times and
quotas are exact reals.

## Where the code departs from its documentation or from a standard

- The event decoder follows the code where it leaves sections 9.2.5 and 9.2.6 of the HTML Living Standard: an event that is still
  open at the end of input is dispatched, and a `data` line without a colon is ignored.
- The decoder's result depends on how the bytes are cut in one case only: a line of exactly 8 MiB that ends in CR.
  `AcceptedUnderEveryChunking` gives the exact condition and `CutAtFullLine` the failing cut.
- The WorkBuddy repair is not idempotent: dropping an assistant's calls widens the window of the assistant before it.
  `RepairStable` gives the exact condition and `RepairNotIdempotent` an input.
- Repairing tool history leaves the calls of an assistant none of whose calls has an id; `KeptCallsAnswered` gives the condition.
- The sticky picker and the queue differ when the sticky account is neither a candidate's top tier nor first of its own;
  `PicksAreQueue` gives the condition.
- Lazy removal of backoff entries can be seen when a failure or a query acts on a clock reading older than that of an earlier query, since
  the clock is read before the lock is taken; `DroppingUnseen` gives the exact condition and `StaleFailureForgets` a history.
- A cached zero is promised to stand until a newer reading, but a stored row whose peak is no number is thrown away by the next write,
  the zero with it; `ZeroSticks` gives the exact condition.
- A recorded peak is the highest quota seen, but an observed peak is replaced as soon as any quota is known; `PeakIs` says when it counts.
- The streaming translation fails a completed response with a nameless call or arguments that are no JSON object, where the
  non-streaming one reports success; `PathsAgree` gives the condition.

## Model

| member | source | states |
|---|---|---|
| SseDecoder.SseEventDecoder.constructor | proxy.py:812-816 | a new decoder is the empty decoder state |
| SseDecoder.SseEventDecoder.Feed | proxy.py:818-834 | feeding a chunk moves the decoder to the specified state and returns exactly the events that became complete |
| SseDecoder.SseEventDecoder.Finish | proxy.py:836-853 | at the end of input the waiting line is consumed and an open event is flushed |
| SseDecoder.SseEventDecoder.TakeEvents | proxy.py:822-831 | the loop over complete lines, up to the first failure |
| SseDecoder.SseEventDecoder.TakeLine | proxy.py:855-872 | takes the first line ended by LF, CR or CRLF; a CR at the very end of the buffer waits unless the input is over |
| SseDecoder.SseEventDecoder.ConsumeLine | proxy.py:874-895 | collects `data:` values, dispatches on a blank line, enforces the limits of 8 MiB |
| SseDecoder.SseEventDecoder.Fail | proxy.py:897-901 | a failure is kept and everything buffered is dropped |
| SseDecoder.IterChatSseData | responses.py:513-590 | the generator yields, for every cut of the bytes, exactly the events of the byte-at-a-time reference scanner up to the first that is no UTF-8, and ends with that failure or the scanner's |
| SseDecoding.ChunkingDoesNotMatter | proxy.py:818-853 | buffered decoding of any chunks equals the reference scan of the joined bytes, unless a line of exactly the limit ends in CR and the decoder failed |
| SseDecoding.AcceptedUnderEveryChunking | proxy.py:832-833 | all cuts of an input are accepted if and only if the reference accepts it and no line of exactly the limit ends in CR |
| SseDecoding.CutAtFullLine | proxy.py:832-833 | where such a line exists, a concrete cut on which the buffer test fails although the line is allowed |
| SseDecoding.DecodeEncoded | proxy.py:519-520 | decoding a concatenation of encoded payloads, however the bytes are cut, returns the payloads in order if and only if each line is within the limit, and fails otherwise |
| ChatStreamObservers.ChatStreamObserver.ObserveEvent | proxy.py:560-730 | one event leaves the fields and returns the chunk exactly as the observer specification says, on every path including each rejection |
| ChatStreamObservers.ChatStreamObserver.constructor | proxy.py:539-558 | a new observer expects choices 0 to n-1, with n replaced by 1 when it is no integer from 1 to 128 |
| ChatStreamObservers.ValidateChoices | proxy.py:602-687 | the first loop: the validated choices, or the first error in the order of the checks |
| ChatStreamObservers.ValidateChoice | proxy.py:605-643 | the checks of one choice up to its tool deltas |
| ChatStreamObservers.ValidateTools | proxy.py:644-686 | the checks of tool deltas, with the position as default index |
| ChatStreamObservers.ChatStreamObserver.TakeChoices | proxy.py:689-729 | the second loop applies the changes of all choices up to the first changed id or name |
| ChatStreamObservers.ChatStreamObserver.TakeTool | proxy.py:706-729 | one delta of a call: id and name are set once, arguments appended, a conflict stops |
| ChatObserverTheorems.ObserverTracks | proxy.py:536-730 | after any events without an error, seen and finished choices, texts, and each call's id, name and concatenated arguments are those of the chunks let through |
| ChatObserverTheorems.RejectedUnchanged | proxy.py:602-687 | an event not let through leaves choices, content and calls unchanged, unless it validated and a call in it changed its id or name |
| ChatObserverTheorems.FinishedAcceptsNothing | proxy.py:619-621 | an event that names a finished choice is never let through and changes no choice, content or call |
| ChatObserverTheorems.CallsOnlyGrow | proxy.py:705-729 | over any further events a call keeps its id and name once set, and its arguments only get longer |
| ChatObserverTheorems.CleanMeaning | proxy.py:622-682 | the forwarded chunk, without its empty strings, means what the received one meant |
| ChatObserverTheorems.EofMeans | proxy.py:735-786 | a stream may end successfully if and only if nothing went wrong and each requested choice is seen, productive or cut short, and its calls identified with object arguments unless cut short; then the seen choices are exactly those requested |
| StreamFailoverLoop.RunStreamUpstream | proxy.py:1186-1522 | the whole failover loop, with a fresh decoder and observer for each attempt, sends and logs what the specification says |
| StreamFailoverLoop.ReadAttempt | proxy.py:1329-1405 | one attempt: feeding, observing, sending or holding chunks, stopping, flushing at the end |
| StreamFailoverLoop.TakeEvent | proxy.py:1333-1345 | an event let through is sent, or held once a finish reason was seen; held events over 8 MiB are an error |
| StreamFailoverLoop.StreamTurn | proxy.py:1359-1494 | a broken, failed or successful attempt: whether another account follows, what is sent and which status is logged |
| StreamFailoverLoop.RefusedTurn | proxy.py:1259-1327 | a refused attempt: account rule or retryable status decide whether another account follows |
| StreamFailoverLoop.FinishStream | proxy.py:1449-1494 | after a successful check: the held chunks, a made-up finish for choices without one, and the end mark, or a stall failure |
| StreamFailoverTheorems.ReadOk | proxy.py:1333-1345 | what is sent early carries no finish reason, and what is sent and held together are the accepted chunks in order |
| StreamFailoverTheorems.ReadMeans | proxy.py:1329-1405 | the chunks of an attempt without error are exactly those the observer lets through from the decoded events of its bytes, up to where reading stopped |
| StreamFailoverRuns.RunSafe | proxy.py:1203-1236 | every run: accounts in picker order, each once, at most the cap; an account is passed over only if it failed before anything was sent; all output comes from the turn that ended the run; exactly one log row, the last, counts as usage |
| StreamFailoverRuns.NoEarlyFinish | proxy.py:1333-1345 | no finish reason reaches the client unless its attempt passed the final check |
| StreamFailoverRuns.SuccessDelivers | proxy.py:1449-1494 | a successful run delivers the accepted chunks in order, at most one made-up chunk, then the end mark, with exactly one finish reason for each requested choice |
| CompletionCollect.CollectStream | proxy.py:1547-1646 | the aggregation loop computes the fold over all lines up to the end mark |
| CompletionCollect.CollectExploded | proxy.py:940-981 | collecting the explosion of a collectable completion gives its content, reasoning, calls, finish reason and usage back |
| CompletionCollect.CollectedCollectable | proxy.py:1586-1628 | whatever collecting returns has a finish reason and something in it, or was cut short |
| CompletionCollect.CollectStable | proxy.py:940-981 | for every stream that collects, collecting the explosion of the result gives the same result |
| ResponsesTranslator.Translator.constructor | responses.py:606-631 | a new translator has sent nothing and has no item |
| ResponsesTranslator.Translator.Run | responses.py:719-1064 | the translator, fed any data stream to its end, emits the specified events, and a strict client accepts all of them |
| ResponsesTranslator.Translator.Yield | responses.py:624-631 | each event gets the next sequence number |
| ResponsesTranslator.Translator.AddItem | responses.py:796-817 | a new item takes the next output index and is announced |
| ResponsesTranslator.Translator.Close | responses.py:654-717 | closing an item sends its done events once, with the text collected |
| ResponsesTranslator.Translator.OnReasoning | responses.py:772-836 | a reasoning delta opens or continues a reasoning item; after text or an open call it is an error |
| ResponsesTranslator.Translator.OnText | responses.py:847-903 | a text delta closes reasoning, then opens or continues a message |
| ResponsesTranslator.Translator.TextToShow | responses.py:838-843 | text that repeats the reasoning is not shown |
| ResponsesTranslator.Translator.OnTool | responses.py:905-972 | a tool delta closes reasoning and text, opens or continues its call |
| ResponsesTranslator.Translator.Rename | responses.py:952-959 | how fragments of a function name are joined |
| ResponsesTranslator.Translator.OnData | responses.py:722-774 | one data event: end mark, malformed data, error, or a chunk |
| ResponsesTranslator.Translator.CloseAll | responses.py:1036-1039 | all open items are closed in output order |
| ResponsesTranslator.Translator.JudgeStream | responses.py:988-1018 | the chain of branches: failed, cut short, ended too early, empty, or completed |
| ResponsesTranslator.Translator.SomeUnproductive | responses.py:1009-1013 | found if and only if a choice that was not cut short showed nothing |
| ResponsesTranslator.Translator.SomeCallUnusable | responses.py:1020-1034 | the loop over the open calls finds one if and only if some open call lacks a name or object arguments |
| ResponsesTranslator.Translator.Judge | responses.py:988-1034 | only a completed stream has its calls looked at; one unusable call makes it failed |
| ResponsesWellFormed.TranslationAccepted | responses.py:719-1064 | whatever upstream sends, the translated stream is accepted by the strict client |
| ResponsesEvents.AcceptedMeans | responses.py:624-717 | an accepted stream is numbered 0, 1, 2, ...; output indices are opened once, in increasing order, and each is done once with the concatenation of its deltas, all sent while it was open; every text, part and item done event carries the deltas sent before it; exactly one terminal event comes, last |
| ResponsesWellFormed.WrittenInTurn | responses.py:772-972 | before each event that is sent, no choice has reasoning unfinished together with any other unfinished item, or two texts unfinished |
| ResponsesWellFormed.CompletedCallsParse | responses.py:1020-1034 | a response is reported completed only if each of its calls has a name and object arguments |
| ResponsesAgreement.ChatResponseToResponses | responses.py:422-505 | the non-streaming translation: items per choice in order, then status, error, incomplete reason and usage |
| ResponsesAgreement.PathsAgree | responses.py:422-505 | streaming and non-streaming translation of a completion with at most one choice agree on items and usage always, and on everything if and only if the choice was cut short or each call of its message has a name and object arguments; otherwise the stream reports failure |
| Gf128.GfMul | wb_atrest.py:285-296 | the shift-and-reduce loop computes the field product |
| Gf128.ProductIsRemainder | wb_atrest.py:285-296 | the product is the one block congruent to polynomial multiplication modulo x^128+x^7+x^2+x+1 |
| Gf128.ProductCommutes | wb_atrest.py:285-296 | multiplication is commutative |
| Gf128.ProductDistributes | wb_atrest.py:285-296 | multiplication distributes over exclusive or |
| Gf128.ProductAssociates | wb_atrest.py:285-296 | multiplication is associative |
| Gf128.ProductOne | wb_atrest.py:285-296 | the block 80 00 ... 00 is the unit |
| Gcm.Ghash | wb_atrest.py:305-310 | the loop over padded data, padded ciphertext and lengths computes the hash |
| Gcm.GhashMatchesNist | wb_atrest.py:299-310 | it is GHASH of sections 6.4 and 7.1 of NIST SP 800-38D over both inputs, padded, and their 64-bit lengths |
| Gcm.GhashIsPolynomial | wb_atrest.py:305-310 | it evaluates the polynomial whose coefficients are the blocks |
| Gcm.BlocksArePadded | wb_atrest.py:299-302 | the blocks together are the data followed by the zero padding of section 7.1 |
| Gcm.Gctr | wb_atrest.py:320-327 | the counter-mode loop computes the specified output |
| Gcm.GctrByte | wb_atrest.py:320-327 | output byte i is input byte i masked with the key-stream byte of counter 1 + i/16, the counter wrapping in its last 32 bits |
| Gcm.GctrInvolution | wb_atrest.py:320-327 | counter mode undoes itself for every length and every wrap |
| Envelope.ComputeJ0 | wb_atrest.py:313-317 | computes the pre-counter block |
| Envelope.J0MatchesNist | wb_atrest.py:313-317 | for nonces of other lengths than 12 it is the GHASH that section 7.1 prescribes |
| Envelope.GcmOpen | wb_atrest.py:330-337 | checks the tag before decrypting; a bad tag is an error |
| Envelope.OpensOnlyWhatWasSealed | wb_atrest.py:330-356 | opening yields a plaintext if and only if ciphertext and tag are what sealing it yields |
| Envelope.AadInjective | wb_atrest.py:84-101 | the associated data determine key id, suite and framing |
| Envelope.SealedOpens | wb_atrest.py:145-153 | an envelope sealed under a key opens to its plaintext if and only if no foreign key id was named |
| ToolHistory.RepairOpenAiToolHistory | providers/tool_history.py:65-117 | the loop with look-ahead and consumed set computes the repair of the dictionaries in its input |
| ToolHistory.PrepareMessages | providers/qoder/chat.py:122-180 | the twin computes the same list |
| ToolHistory.LookAhead | providers/tool_history.py:79-95 | the inner loop sorts the window up to the next calling assistant into matches and the rest |
| ToolHistory.SurvivingCalls | providers/tool_history.py:96-98 | the normalised calls whose ids were answered |
| ToolHistory.BuildBlock | providers/tool_history.py:99-116 | the assistant, its results or notes, and the rest of its window |
| ToolHistory.BuildPrepared | providers/qoder/chat.py:158-179 | the twin's assembly gives the same block |
| ToolHistoryTheorems.RepairedIsSettled | providers/tool_history.py:65-117 | each tool message of the result stands in the run directly after an assistant that asks for it, and each call of a calling assistant is answered in that run |
| ToolHistoryTheorems.RepairSettled | providers/tool_history.py:65-117 | the same, and there is one output message per input message |
| ToolHistoryTheorems.RepairIdempotent | providers/tool_history.py:65-117 | repairing twice is repairing once |
| ToolHistoryTheorems.SettledFixed | providers/tool_history.py:65-117 | a settled history is left alone |
| ToolHistoryTheorems.SurvivorsForMatches | providers/tool_history.py:96-115 | a call survives exactly when a result matched, so matched results never become notes |
| ToolHistoryOrder.RepairRearranges | providers/tool_history.py:65-117 | the result is the source rearranged: each message once, inside the block of one calling assistant first that assistant, then the results it asks for, then the rest, each group in old order, and each message rewritten as its group says |
| ToolHistoryOrder.KeptCallsAnswered | providers/tool_history.py:52-53 | every call left in the result is answered if and only if no assistant of the source makes calls that all lack ids |
| RateLimiter.Interval | rate_limiter.py:49-59 | the pacing interval is the setting itself up to 600 seconds, 600 above, and none if the setting is unusable or negative |
| RateLimiter.Cap | rate_limiter.py:49-60 | the concurrency cap is the whole part of the setting up to 100, 100 above, and no cap if the setting is unusable or negative |
| RateLimiter.Timeout | rate_limiter.py:49-61 | the queue timeout is the setting between 1 and 600 seconds, the nearer end outside, and 120 if it is unusable or negative |
| RateLimiterState.Limiter.Join | rate_limiter.py:82-90 | joining under the lock: prune, look the account up or create its state, refuse at 256 waiters, else append |
| RateLimiterState.Limiter.DropIdle | rate_limiter.py:84-86 | pruning drops exactly the entries without requests whose last start is more than 600 seconds ago |
| RateLimiterState.Limiter.SetDefault | rate_limiter.py:87 | the account's state object, made if missing |
| RateLimiterState.Limiter.TryAdmit | rate_limiter.py:96-105 | one poll under the lock changes only the token's own state object |
| RateLimiterState.Limiter.Finally | rate_limiter.py:117-121 | leaving gives the slot back or takes the token out of the line |
| RateLimiterTheorems.PollMeans | rate_limiter.py:93-105 | over every interleaving a poll is admitted if and only if all who joined the account earlier have started or left, each earlier start is an interval ago, and fewer than cap requests are in flight |
| RateLimiterTheorems.HistorySafe | rate_limiter.py:93-121 | the same for each poll of each history, so starts are first-in first-out, paced and capped |
| RateLimiterTheorems.EnqueueMeans | rate_limiter.py:88-90 | a newcomer is turned away if and only if 256 requests that joined are neither admitted nor gone |
| RateLimiterTheorems.PruningUnobservable | rate_limiter.py:84-86 | the limiter has the same histories with and without pruning |
| RateLimiterTheorems.Drained | rate_limiter.py:117-121 | once all admitted requests of an account are released, none is in flight and the counter is zero |
| RateLimiterTheorems.Reached | rate_limiter.py:82-121 | in every reachable state the counter is the number of requests admitted and not released, the line is those who joined and did not go, and live requests hold the state object in the table |
| RateLimiterTheorems.PendingInOrder | rate_limiter.py:90 | those waiting stand in the order in which they joined |
| AccountQueue.AccountQueueRows | router.py:599-616 | the collecting loops gather the servable accounts channel by channel |
| AccountQueue.Picker.PickAccount | auth_manager.py:1343-1371 | picks by priority, keeps the sticky account only while no other has more weight, and makes the choice sticky |
| AccountQueue.Picker.NoteDispatched | auth_manager.py:1380-1382 | a dispatched account becomes sticky |
| AccountQueueTheorems.QueueMeans | router.py:563-634 | the queue is a permutation of the accounts that may serve, strictly ordered |
| AccountQueueTheorems.LessTransitive | routing.py:441-453 | the order is transitive |
| AccountQueueTheorems.LessTotal | routing.py:441-453 | two accounts with different ids are ordered one way and not the other |
| AccountQueueTheorems.SortedUnique | router.py:633 | a set of accounts has one strictly sorted arrangement |
| AccountQueueTheorems.DroppingKeepsOrder | router.py:612-616 | accounts that drop out leave the order of the others alone |
| AccountQueueTheorems.PickIsHead | auth_manager.py:1343-1371 | with nothing excluded the picker of a channel takes the head of that channel's queue, or nothing when it is empty |
| AccountQueueTheorems.PicksAreQueue | auth_manager.py:1343-1371 | asking the picker again and again, each time with all earlier picks excluded, gives the queue of the channel if and only if the sticky account is no candidate, or nobody is above it, or it is first of its tier anyway |
| AccountQueueTheorems.HeadIsHarmless | router.py:563-634 | it does so when the sticky account heads the queue or is not in it |
| HistoryTrim.EstimateText | router.py:298-313 | wide characters count one token, others about four to a token |
| HistoryTrim.HistorySegments | router.py:364-382 | the nested loops compute the segments |
| HistoryTrim.TrimHistory | router.py:385-401 | the loop drops segments and rewrites the payload as specified |
| HistoryTrim.FindDrop | router.py:389-398 | the oldest segment before the newest that is not all system messages, else the oldest |
| HistoryTrimTheorems.SegmentsCut | router.py:364-382 | segments put together give the items back, each is one item or a run of linked ones, and linked neighbours are never separated |
| HistoryTrimTheorems.HistoryCost | router.py:316-330 | the estimate is that of the payload without history plus the cost of each item |
| HistoryTrimTheorems.EstimateFalls | router.py:316-330 | after dropping segments the estimate is lower by exactly their cost |
| HistoryTrimTheorems.TrimIsGreedy | router.py:385-401 | what is left is the newest segment and others such that a system segment went only when no other older kind was left and older ones went first; it fits or is one segment; every such choice with more segments is over the limit |
| ContextDispatch.Reserve | context_budget.py:59-69 | what is reserved for the answer is the length asked for, up to a maximum, or else the usual reserve |
| ContextDispatch.InputLimit | context_budget.py:59-72 | limit and reserve together are the budget; where the reserve takes it all the limit is half the budget, and at least one token |
| ContextDispatch.TrimChanges | context_budget.py:75-87 | trimming changes a payload if and only if it is over the limit and has older history |
| ContextDispatch.TrimKeeps | context_budget.py:75-87 | a changed payload keeps whole segments, and only the newest one if that is still too long |
| ContextDispatch.GuardStreamChunks | context_budget.py:389-425 | the watching loop over the first chunks of a stream |
| ContextDispatch.DispatchSends | context_budget.py:329-379 | with a budget the first payload sent is within the limit or is the untrimmable request itself; at most one more call follows, with whole segments dropped, at most half as long unless only the newest segment is left, and none if the request is a retry |
| ContextDispatch.NothingSent | context_budget.py:329-337 | nothing is sent if and only if the request is over a positive budget's limit, has older history, and even its newest segment alone is too long |
| ContextDispatch.RetryCalls | context_budget.py:356-368 | a retry calls upstream if and only if the payload can be shortened |
| OutboundRepair.RepackToolResults | workbuddy_outbound.py:313-338 | the loop with look-ahead and consumed set computes the repacked list |
| OutboundRepair.LookAhead | workbuddy_outbound.py:325-335 | the inner loop sifts the window up to the next calling assistant |
| OutboundRepair.DropOrphanTools | workbuddy_outbound.py:341-374 | the two passes compute the list without orphans |
| OutboundRepair.CollectIds | workbuddy_outbound.py:342-348 | the sets of called and of answered ids |
| OutboundRepairTheorems.RepackPermutes | workbuddy_outbound.py:313-338 | repacking is a permutation |
| OutboundRepairTheorems.RepackBlocks | workbuddy_outbound.py:313-338 | each block keeps its place: the calling assistant, the results of its window, the rest, both in old order; what comes before the first calling assistant stays |
| OutboundRepairTheorems.RepackFixes | workbuddy_outbound.py:313-338 | repacking changes a list if and only if a wanted result of some window stands behind another message |
| OutboundRepairTheorems.RepackIdempotent | workbuddy_outbound.py:313-338 | repacking twice is repacking once |
| OutboundRepairStability.DropPairs | workbuddy_outbound.py:341-374 | afterwards the called ids are the answered ids, namely those that were both before |
| OutboundRepairStability.DropIdempotent | workbuddy_outbound.py:341-374 | dropping orphans twice is dropping them once |
| OutboundRepairStability.RepairStable | workbuddy_outbound.py:308-310 | one repair is enough if and only if no result that an assistant asks for stands behind a later assistant whose calls are all unanswered |
| OutboundRepairStability.RepairNotIdempotent | workbuddy_outbound.py:308-310 | a three-message list on which a second repair changes the first one's result |
| QueueWalk.WalkAccountQueue | router.py:715-783 | the walk returns the specified result and notes exactly the account of the row returned as dispatched; a dispatched stream and its upstream are closed exactly once unless it is the one returned; streams of rows not dispatched are untouched |
| QueueWalk.WalkMeans | router.py:715-783 | the result is the first success in queue order, else the error of the last row dispatched, else that there was no account; a cancellation ends the walk |
| QueueWalk.WalkHop | router.py:734-780 | one hop: a stream that fails at its first chunk is closed |
| QueueWalk.ClosingStream.AClose | streaming.py:52-62 | closing closes the iterator and the upstream, or the callback in its place, once however often it is called |
| QueueWalk.ClosingStream.ANext | streaming.py:43-50 | a closed stream is at its end; the end and every exception close the stream |
| QueueWalk.ChatAfterName | router.py:678-708 | an empty queue is refused without a reservation; otherwise one slot is reserved before anything is dispatched, nothing is dispatched if it is refused, and else the rows up to the one that ends the walk are dispatched in order |
| QueueWalk.DailyUsage.Reserve | database.py:1194-1218 | one reservation compares and adds in one step |
| QueueWalk.ReservationsBounded | database.py:1194-1218 | over any requests a key's count grows by exactly those granted, which are as many as asked or as a fixed positive limit leaves; without a limit all are granted |
| ReasoningControls.NormalizeChatReasoning | reasoning_controls.py:314-366 | the copy with its removals is the specified normal form |
| ReasoningControls.NormalizeKeepsMeaning | reasoning_controls.py:152-366 | when resolving succeeds, resolving the normal form succeeds, whichever fields either pass prefers, with the same chat effort and the same WorkBuddy effort, and normalising again changes nothing |
| ReasoningControls.ChosenIs | reasoning_controls.py:230-283 | a resolved control has a known effort, and is the default only if no switch was given |
| QuotaCache.ResourceCache.Write | database.py:929-985 | one write merges the observed keys over the stored ones and carries the peak forward; a stored row whose peak is no number is thrown away |
| QuotaCache.ResourceCache.StoreQuotaExpiry | resource_sync.py:67-109 | a deadline that is over is ignored; nothing observed, nothing written |
| QuotaCache.ResourceCache.StoreQuotaReading | resource_sync.py:141-162 | a reading is written with the time it was observed |
| QuotaCache.ExhaustedMeans | routing.py:158-202 | after any observations that recorded something an account is exhausted if and only if it is supported and the last reading, or else the quota cached before in a readable row, is zero or less |
| QuotaCache.ZeroSticks | routing.py:410-421 | an exhausted account of a channel that is not exempt stays out of the channel pool through any number of deadlines, if and only if its row is readable or none of them is recorded |
| QuotaCache.PoolMembers | routing.py:512-524 | the pool holds exactly the available accounts |
| QuotaCache.PeakRises | database.py:944-974 | one write, merged or whole: the peak does not fall and covers the quota after, and the quota before unless the old row is unreadable, which counts as no row |
| QuotaCache.PeakCovers | database.py:944-974 | over any observations the final peak is at least every peak cached on the way and every reading made |
| QuotaCache.PeakIs | database.py:944-974 | the final peak is the greatest of the readings and of what the row knew; only if it knew nothing does the first observed peak count, and only if no quota was read by then; so an observed peak survives if and only if one of these is as great |
| QuotaCache.ObservedPeakLost | database.py:967-971 | an observed peak of 5 that comes with a reading of 1 is lost |
| QuotaCache.WritersCommute | database.py:964-974 | a deadline alone and a reading may come in either order, up to source and time of the last write |
| FailureBackoff.FailureTable.MarkFailure | auth_manager.py:118-140 | a failure counts on or starts again after 1800 quiet seconds, the cooldown end is the later of the old one and the new one, and a status of 401 or 403 marks the account expired |
| FailureBackoff.FailureTable.MarkSuccess | auth_manager.py:113-115 | a success clears the account's entry and no other |
| FailureBackoff.FailureTable.IsCoolingDown | auth_manager.py:143-157 | the answer, and the lazy removal of an entry that is over and long quiet |
| FailureBackoff.CooldownDoubles | auth_manager.py:129-134 | the first cooldown is 30 or 5 seconds by status, each further one doubles up to 300, and a hint can only make it longer, up to an hour |
| FailureBackoff.CoolingMeans | auth_manager.py:118-157 | an account cools down if and only if some failure since its last success brought a cooldown that is not over, each cooldown given by the failure's place in its row; without removal this holds for all readings, however stale |
| FailureBackoff.DroppingUnobservable | auth_manager.py:143-157 | if nothing acts on a reading older than that of an earlier query, with and without lazy removal every later query gives the same answer and every later failure the same entry |
| FailureBackoff.DroppingUnseen | auth_manager.py:118-157 | over a whole history, however stale its readings, lazy removal changes no answer and no entry if and only if no event acts on an entry that a query before it has removed |
| FailureBackoff.NoticedIsStale | auth_manager.py:127-157 | an event that acts on a removed entry has a reading older than that of the query that removed it |
| FailureBackoff.DropHarmless | auth_manager.py:151-157 | a removal is missed at no later reading if and only if the entry would be removed at that reading as well |
| FailureBackoff.StaleFailureForgets | auth_manager.py:127-138 | a failure with a reading older than that of a query before it starts its row over, and a later query tells |
| FailureBackoff.EndsBounded | auth_manager.py:131-138 | for all readings, however stale, a failure never moves the end back and no end is more than 3600 seconds after the latest reading of a failure, which is the last failure's when readings are in order |

## Left out

- HTTP clients, provider login and refresh, check-in, signatures, self-update, endpoints, command line and web templates: plumbing.
- SQL, migrations and statistics: only the resource row and the daily reservation are modelled, as maps with atomic steps.
- Process memory, key files, key derivation, the AES key schedule and S-box, base64: foreign calls or codecs. A key is a block function with
  its key id.
- Fingerprint rewriting, prompt relocation, audit and stall phrases, message texts of errors: string tables.
- Model catalogs, aliases, capacity parsers, urgency values: they would only add easy members.
- Task scheduling and polling intervals: the rate limiter takes lock bodies in any order, with possibly stale clock readings.
- ResponsesTranslator.Translator.Run: values that the source turns into strings with `str` or `json.dumps` are already strings, and of the
  request's own fields only those the events carry are kept.
- ResponsesAgreement.ChatResponseToResponses: the identifiers and times of the response are not part of its result.
- ChatObserverTheorems.EofMeans: the per-choice failures at the end of a stream are one error, so which of them is reported is not modelled.
- StreamFailoverRuns.RunSafe: the log rows carry account, status and whether they count, not token numbers, finish names or messages; runs cut
  by another exception than a connection failure, or by closing the stream early, are not modelled.
- StreamFailoverLoop.RunStreamUpstream: whether a turn is a tool stall is given; the picks of accounts are a list.
- CompletionCollect.CollectStream: fields of a wrong JSON type, on which the source raises, and splitting the bytes into lines are not modelled.
- Envelope.SealedOpens: the printed envelope is modelled by its parts, since base64 and JSON undo each other.
- ToolHistory.RepairOpenAiToolHistory: identifiers and names are the strings that `str` gives; an
  item that is no dictionary is dropped and list items that are no dictionary are not part of the calls.
- RateLimiter.Interval: not-a-number and infinite settings count as unusable, as in the source; other conversions of strings are given.
- AccountQueue.Picker.PickAccount: pinned hops, and refreshing expired accounts, are not part of this model.
- AccountQueueTheorems.QueueMeans: requests per weight is an exact quotient, so the rounding of very large counts is not modelled.
- HistoryTrim.TrimHistory: the copy through JSON text before trimming is the identity here.
- ContextDispatch.DispatchSends: the budget of a channel, read from environment and settings, is a number that is given.
- OutboundRepair.RepackToolResults: ids are the strings that `str` gives.
- QueueWalk.WalkAccountQueue: failover across channels is on; with it off the provider walks its own pool, which is not part of this model.
- QueueWalk.ChatAfterName: the queue is given; the refresh of expired accounts when it would be empty is not part of this model.
- QueueWalk.ClosingStream.AClose: a close that fails or times out, which the source only logs, counts as made.
- ReasoningControls.NormalizeKeepsMeaning: which message an invalid control raises is not modelled, not-a-number budgets are not, and only
  ASCII letters are lower-cased.
- QuotaCache.ResourceCache.Write: a stored row that is not JSON counts as absent, and not-a-number values are not modelled.
- QuotaCache.ResourceCache.StoreQuotaExpiry: the fraction of a day is rounded half up to three decimals.
- FailureBackoff.FailureTable.MarkFailure: entries of the older two-part shape, which nothing writes any more, are not modelled.
