# MiniGoAgent: a verified model of the wire layer

This project models the part of MiniGoAgent that talks to language models, and the two runtime
pieces that sit on it, the `Bridge` and the tool executor with its registry, and proves what
they promise. `dafny verify dfyconfig.toml` checks everything.

What is modelled, by module:

- **JSON texts.** `JsonScan` is the byte scanner that `compressJSONArray` and
  `closeTruncatedJSON` share. `JsonGrammar` gives the grammar of RFC 8259 as concrete syntax
  trees, `JsonAutomaton` the validator `json.Valid` as a pushdown automaton; `JsonSound` proves
  the two equivalent and `JsonUnique` that the grammar is unambiguous. On these rest
  `JsonRepair`, `JsonMended` and `JsonCut` (the repair of truncated tool arguments), `JsonCompact`
  and `JsonMeaning` (whitespace compression), and `Canonical` (key-sorted schemas).
- **Conversations.** `Normalize`: names back-filled, results paired with calls, arguments
  repaired, and the fast path beside the repairing loop.
- **Streaming.** `Think` and `ThinkCuts` (the splitter of think tags), `Sse` (decoded events become chunks),
  `Bridge` (chunks become one message), `Delivery` (both ends together), `DeliveryChunks` and
  `DeliveryCancel` (every chunk on the channel, without cancellation and with it).
- **Robustness.** `Breaker`, `Retry` with `RetryExact`, `RateLimit`, `Failover` with
  `FailoverSafe` and `FailoverExact`.
- **Concurrency.** `EventBus`, with `EventBusPublish` and `EventBusLive`, and `Executor` as step
  relations over all interleavings; `Registry` as an object with two maps.

Texts are sequences of characters. The scanners and the validator look only at ASCII characters,
so it makes no difference to them that Go sees bytes; in `Canonical` a character is a code
point. Time is an explicit clock in nanoseconds. The network, the consumer of a channel,
cancellation, random jitter and the tools are parameters (`nat -> bool`, `nat -> Turn`,
`nat -> Try`, `ToolCall -> Behaviour`), and the theorems hold for all of them. Code that updates
state in place is a method or a class, proved equal to a specification function; the lemmas are
about those functions.

Where the code does less than its surroundings suggest, the model follows the code, and a lemma
says exactly what happens:

- A scanner error or a cancellation after output is not reported, and the bridge hands the torn
  answer on as a whole message (`BrokenOffSilently`, `TornDelivered`; `TornText` is such a
  response). An `error` payload and a stall are reported even after output; `ErrorTold` is the
  exact condition over all responses.
- Only a finishing event sends the arguments of the calls and the thought still held back. An
  answer that ends with `[DONE]`, or just ends, loses them (`AnswerDelivered`, `EndToEnd`).
- After `applyFailover` the loop goes on to its next attempt without a request, so a fallback
  is never asked in the call that switches to it (`StreamSafe`).
- The thought of a stream is taken out exactly if the first fragment has the whole opening tag,
  with attributes only at its very start, and no fragment boundary lies inside the closing tag
  (`TagRecognised`; `SplitTagMissed` is a failing input). A second tag in the fragment of the
  closing one is shown as text (`OneFragment`). A stream whose first fragment has no opening tag
  is shown untouched, whatever follows (`FirstFragmentDecides`).
- The bridge matches arguments by ID, so where calls do not share IDs a call keeps its arguments
  exactly if the ID it was announced with is the ID it ends with (`IdDecidesArguments`; `NewIdLosesArguments` is a failing input).
- The rate limiter does not count the caller it releases, so `2 * rpm + 1` callers can pass
  within a minute, for every limit (`BoundMet`), though never more (`LimitsHold`); and there is
  no bound at all on the tokens that pass within a minute (`TokenBoundMet`).
- A tool that is available is refused exactly while its last refusal still stands and is less
  than the time to live ago (`CacheHidesRecovery`; `RecoveryHidden` is such a run). A success
  that the cache hides does not renew the grace period (`SuccessHidden`).
- `Subscribe` does not look at the stop flag: a subscriber that comes after the closing loop of
  the last Stop call keeps that call waiting until another Stop call comes (`StopReturnsIff`;
  `LateSubscriber` is such a run).
- `backoffDelay` overflows from attempt 36 on (`BackoffFails`); it is sensible exactly where the
  sign bit of the product is clear (`BackoffSensible`). `SendWithRetry` stays at 10.
- `HalfOpenMaxCalls` is never read: a half-open breaker lets any number of calls through
  (`HalfOpenUnlimited`).

## Model

| member | source | states |
|---|---|---|
| JsonScan.CompressJsonArray | protocol/content_compress.go:59-88 | The compressor's loop computes `Squeeze`: whitespace outside strings dropped, all else kept. |
| JsonScan.SqueezeMeaning | protocol/content_compress.go:59-88 | On arbitrary bytes: the significant bytes, in-string ones included, are unchanged, no loose whitespace is left, the scanner ends in the same state, and the result is never longer. |
| JsonScan.NormalFormUnique | protocol/content_compress.go:59-88 | Two texts without loose whitespace and with the same significant bytes are equal, so compression is a normal form. |
| JsonScan.SqueezeIdempotent | protocol/content_compress.go:59-88 | Compressing twice is compressing once, on arbitrary bytes. |
| JsonScan.CandidateBalanced | protocol/normalize.go:114-159 | For every byte string the repair candidate rescans to no bracket owed, no open string and no pending escape. |
| JsonScan.CandidateKeeps | protocol/normalize.go:143-159 | For every byte string the candidate begins with all of the text but a dangling backslash, a final comma with whitespace, or the whitespace after a final colon. |
| JsonSound.ValidIffJson | protocol/normalize.go:160-162 | The validator accepts exactly the texts of the RFC 8259 grammar. |
| JsonUnique.UniqueDocument | protocol/openai.go:586-592 | A text is the text of at most one document, so decoding is well defined. |
| JsonRepair.ScanText | protocol/normalize.go:115-142 | The scanning loop computes the scanner's state after the whole text. |
| JsonRepair.AppendClosers | protocol/normalize.go:157-159 | The closing loop appends the owed brackets, innermost first. |
| JsonRepair.CloseTruncatedJson | protocol/normalize.go:114-164 | The whole repair: the candidate if it is valid, `{}` otherwise. |
| JsonRepair.RepairedValid | protocol/normalize.go:160-163 | Whatever comes in, valid JSON comes out. |
| JsonRepair.RepairSucceeds | protocol/normalize.go:114-164 | For every byte string the candidate is valid if and only if the validator's state at its end is mendable, or the text is broken only by a stray final comma: when `{}` is returned, exactly. |
| JsonRepair.RepairKeepsValid | protocol/normalize.go:143-163 | Valid texts are left as they are. |
| JsonMended.RepairMends | protocol/normalize.go:114-164 | For every byte string, by the grammar: the result is a document that begins with the kept part, followed by a quote if the text ends inside a string, by `null` if it ends with a colon, and then brackets only; and where the validator's state allows no such completion it is the empty object. |
| JsonMended.MendedUnique | protocol/normalize.go:114-164 | Only one text has these properties, so they determine the result. |
| JsonMended.BrokenMeansNothing | protocol/normalize.go:160-162 | A text that cannot be completed decodes, after the repair, to an object without members. |
| JsonCut.RepairOfCut | protocol/normalize.go:114-164 | For every document and every cut of its text: the repair succeeds exactly at the mendable cuts; then its result is the text of the same document with only its end left off, and begins with the text before the cut, of which at most a dangling backslash, a final comma with whitespace, or the whitespace after a final colon is missing; at all other cuts it is the empty object. |
| JsonCompact.CompressPrintsCompact | protocol/content_compress.go:59-88 | For every document and every placement of insignificant whitespace the compressor returns the compact printing of the document. |
| JsonCompact.CompressKeepsValid | protocol/content_compress.go:59-88 | Valid texts stay valid. |
| JsonMeaning.CompressKeepsMeaning | protocol/content_compress.go:59-88 | A text that decodes still decodes, to the same value. |
| Canonical.CollectKeys | protocol/openai.go:597-600 | The keys of a map, each once, in whatever order the map yields them. |
| Canonical.SortKeysRecursive | protocol/openai.go:594-630 | The recursive printer computes `Canon`, whatever the map order. |
| Canonical.AscendingUnique | protocol/openai.go:601 | A set of keys has one ascending listing, so the text does not depend on map iteration. |
| Canonical.LessIff | protocol/openai.go:601 | The order of keys is decided by the first character in which they differ, and a proper prefix comes first. |
| Canonical.DecodeEncode | protocol/openai.go:608-609 | String escaping is undone by decoding, for every string. |
| Canonical.EncodedSafe | protocol/openai.go:608-609 | No control character, line separator or HTML-sensitive character is ever printed as it is. |
| Canonical.CanonRoundTrip | protocol/openai.go:594-630 | Decoding the canonical text of a value gives the value back. |
| Canonical.CanonInjective | protocol/openai.go:594-630 | Different values have different canonical texts. |
| Canonical.TreeSorted | protocol/openai.go:601 | The canonical text is a well-formed document with its keys sorted at every depth. |
| JsonMeaning.CanonCompact | protocol/openai.go:594-630 | A canonical text has no whitespace outside strings: compressing it changes nothing. |
| Canonical.DenotePrintable | protocol/openai.go:586-592 | Every value that decoding yields can be printed. |
| Canonical.SortSchemaKeysStable | protocol/openai.go:586-592 | Canonicalising keeps the meaning of a schema, and doing it again changes nothing; undecodable schemas are left as they are. |
| Canonical.SortSchemaKeysDecides | protocol/openai.go:586-592 | Two schemas that decode have the same canonical text if and only if they mean the same. |
| Normalize.IdDistinct | protocol/normalize.go:243-255 | Whether the call IDs are nonempty and distinct. |
| Normalize.ResultsById | protocol/normalize.go:166-204 | The map from IDs to results holds the last result with each ID. |
| Normalize.PairToolResults | protocol/normalize.go:166-204 | One result for each call in order: the last with its ID when IDs are distinct, by position otherwise, the interrupted placeholder when there is none. |
| Normalize.NamesById | protocol/normalize.go:206-241 | The map from IDs to names holds the last nonempty name with each ID. |
| Normalize.BackfillToolCallNames | protocol/normalize.go:206-241 | Empty names are filled from the results, nothing else changes. |
| Normalize.NeedsArgRepair | protocol/normalize.go:82-89 | Whether some nonempty arguments are not valid JSON. |
| Normalize.RepairToolCallArgs | protocol/normalize.go:91-112 | Exactly the broken arguments are repaired. |
| Normalize.ToolTurnWellFormed | protocol/normalize.go:61-80 | The fast path's test of one turn. |
| Normalize.TryFastPath | protocol/normalize.go:39-59 | The fast path's test of a conversation. |
| Normalize.NormalizeMessages | protocol/normalize.go:10-37 | The operation computes `Normalized`. |
| Normalize.Repair | protocol/normalize.go:14-36 | The repairing loop computes `Slow`. |
| Normalize.SlowNormal | protocol/normalize.go:14-36 | The loop's result is normal: every turn with n calls is followed by exactly n results, the k-th with the ID and name of call k, no other tool message exists, and all nonempty arguments are valid JSON. |
| Normalize.FastRefinesSlow | protocol/normalize.go:39-80 | Where the fast path accepts, the loop would change nothing: the two agree on every conversation. |
| Normalize.NormalizeTheorem | protocol/normalize.go:10-37 | The result is normal, a conversation is left as it is if and only if it is normal, and normalising twice is normalising once. |
| Normalize.Conserved | protocol/normalize.go:14-36 | Block by block and in order: other messages survive, call IDs never change, only empty names and arguments that are neither empty nor JSON are rewritten, the latter to what `RepairMends` says, each result has its content from the same turn (the last with that ID when IDs are distinct) or is the placeholder. |
| Think.ThinkSplitter.Push | protocol/think.go:19-70 | One fragment, in each of the three states. |
| Think.ThinkSplitter.ExtractAndEmit | protocol/think.go:72-90 | The text after an opening tag. |
| Think.ThinkSplitter.Flush | protocol/think.go:92-100 | The end of a stream. |
| Think.ThinkTagExact | protocol/think.go:102-113 | The tag found is exactly the prefix of the text that is an opening tag up to its first bracket, with attributes after a space; none is found exactly when there is no such prefix. |
| Think.Lossless | protocol/think.go:19-100 | For every sequence of pushes and flushes: the emitted segments with the dropped tags put back, and the text still held, are the input; segments are properly bracketed; depth is 1 exactly inside a tag, where alone text is held. |
| Think.SplitTagMissed | protocol/think.go:19-47 | A failing input: a tag cut in two by a fragment boundary is not recognised. |
| ThinkCuts.TagRecognised | protocol/think.go:19-100 | For every text, opening tag with or without attributes, thought and further text without a tag, and every cutting into fragments: exactly the thought is taken out and exactly the two texts are shown if the first fragment has the whole opening tag, attributes come only at the very start, and no boundary lies inside the closing tag; and only if, for every opening tag that does not itself contain the closing tag. |
| ThinkCuts.SelfClosingTag | protocol/think.go:102-113 | Why tags that contain the closing tag are left out of the "only if": a stream cut inside such a tag that comes out right by chance. |
| ThinkCuts.OneFragment | protocol/think.go:72-90 | Whatever comes after the closing tag in its fragment is shown, a second tag included. |
| Think.FirstFragmentDecides | protocol/think.go:19-47 | The stream is shown untouched if and only if its first fragment has no opening tag. |
| Sse.ReadStreamState.Send | protocol/openai.go:729-738 | A send either delivers the chunk and marks output, or loses to cancellation. |
| Sse.ReadStreamState.Offer | protocol/openai.go:434-440 | A send that does not wait and does not count as output. |
| Sse.ReadStreamState.ProcessContent | protocol/openai.go:805-823 | Text, through the splitter for MiniMax. |
| Sse.ReadStreamState.ProcessTools | protocol/openai.go:825-845 | Tool fragments are gathered by index and each call is announced once, when its name is known. |
| Sse.ReadStreamState.FinishCalls | protocol/openai.go:854-863 | The finished calls in first-seen order, with made-up IDs where none came. |
| Sse.ReadStreamState.ProcessFinish | protocol/openai.go:848-865 | The end of an answer: held thought, calls, done. |
| Sse.ReadStreamState.ProcessSseData | protocol/openai.go:744-868 | One payload: garbage, API error, usage, delta, finish, and cancellation at any send. |
| Bridge.MatchArgs | internal/adk/llm/bridge.go:122-127 | The first call with the ID gets the arguments, no other changes. |
| Bridge.Stream | internal/adk/llm/bridge.go:84-158 | The loop computes what the chunks amount to, with its error, interruption and cancellation branches. |
| Bridge.EmitDone | internal/adk/llm/bridge.go:128-136 | Without cancellation, up to the done chunk, one message holds all chunks before it. |
| Bridge.EndLikeDone | internal/adk/llm/bridge.go:95-104 | A channel that is closed gives the same messages as one with a done chunk at its end, whatever it carried. |
| Bridge.NoErrorEmits | internal/adk/llm/bridge.go:90-136 | Without cancellation and errors there is exactly one message, of the chunks before the first done chunk. |
| Bridge.EmitError | internal/adk/llm/bridge.go:137-154 | At an error chunk: recovery if it is an interruption, the error itself if not, a made-up one if it has none. |
| Bridge.CancelledOrNot | internal/adk/llm/bridge.go:91-93 | For every channel: if cancellation is noticed before the chunk that ends the answer has been taken nothing is sent on, and otherwise it makes no difference. |
| Delivery.AnswerDelivered | protocol/openai.go:687-714 | Reader and bridge together, for every answer without errors or cancellation, whatever its fragments and however it ends: the one message has all visible text and all reasoning; with a finishing event also the held-back thought, and each announced call has the arguments of the last finished call with its ID, unless an earlier call was announced with that ID; without one no arguments at all. |
| DeliveryChunks.OutputExact | protocol/openai.go:744-868 | Every answer without errors or cancellation: the channel carries exactly the chunks its payloads ask for, in order, read off their fields: usage, warning, reasoning, content, announcements, and at the end the held-back thought, the calls and the done chunk. |
| DeliveryCancel.OutputUnderCancellation | protocol/openai.go:729-738 | The same answer when any send may lose to cancellation: the same chunks without those lost, up to the first lost text, reasoning or tool chunk; the reading fails if and only if there is one. |
| Delivery.EndToEnd | protocol/openai.go:793-866 | If each index's first fragment has its name and an ID of its own, then for every interleaving of fragments the message has everything, one call per index in first-seen order with all its argument fragments, if and only if a finishing event is read or would have nothing left to send. |
| Delivery.SynthReads | protocol/openai.go:854-858 | A made-up ID is `call_` and the index in decimal. |
| Delivery.SynthDistinct | protocol/openai.go:854-858 | Different indices have different made-up IDs. |
| Delivery.TornDelivered | protocol/openai.go:705-707 | An answer torn off before its finishing event gives the same message as one that ends there. |
| Delivery.MiniMaxLossless | protocol/openai.go:805-817 | A MiniMax answer is lossless end to end: its text is the shown and the thought segments of the message with the dropped tags put back, and what is held back. |
| Delivery.IdDecidesArguments | internal/adk/llm/bridge.go:122-127 | For every finished answer whose calls do not share IDs: a call has its arguments if the ID it was announced with is the ID it ends with, made up or changed later, and none otherwise. |
| Delivery.NewIdLosesArguments | internal/adk/llm/bridge.go:122-127 | A failing input: a call that was announced with an ID and then changes it. |
| Breaker.CircuitBreaker.constructor | protocol/types.go:179-188 | A threshold that is not positive becomes 5; the breaker starts closed with a full budget. |
| Breaker.CircuitBreaker.IsFailure | protocol/types.go:198-218 | Any error is a failure: the configured lists make no difference. |
| Breaker.CircuitBreaker.Check | protocol/types.go:220-254 | The transitions of a check, with an error or without, at a given time. |
| Breaker.CircuitBreaker.Success | protocol/types.go:256-267 | A success refills the budget and closes the breaker unless it is open. |
| Breaker.BudgetCounts | protocol/types.go:179-267 | In every run: closed exactly while the budget is in 1..N, the budget being N minus the failures since the last success or closing; otherwise the budget is 0. |
| Breaker.OpensOnNth | protocol/types.go:220-254 | It opens exactly on the N-th such failure, or on a failure while half-open. |
| Breaker.AllowedUnlessOpen | protocol/types.go:220-254 | A check is allowed if and only if it does not leave the breaker open. |
| Breaker.OpenHolds | protocol/types.go:236-242 | An open breaker refuses every check until its timeout is over, whatever is reported to it. |
| Breaker.NoCallWhileOpen | protocol/types.go:236-242 | In every run an open breaker allows a check if and only if the timeout since it opened has passed. |
| Breaker.HalfOpenUnlimited | protocol/types.go:171-177 | Half-open lets any number of calls through. |
| Retry.BackoffSensible | protocol/retry.go:51-63 | Without `Retry-After` the delay is in [0.5 s, 15.25 s) if and only if the 64-bit product is not shifted out and its sign bit is clear; always so for attempts 1 to 35. |
| Retry.BackoffFails | protocol/retry.go:58-62 | At attempt 36 it is not. |
| Retry.BackoffBounded | protocol/retry.go:51-63 | For the attempts that `SendWithRetry` makes, with any `Retry-After`, the delay is between 0 and 15 s, plus jitter from attempt 6 on. |
| Retry.Post | protocol/retry.go:113-149 | What is done with a reply: answered, denied, refused, fatal, or reported and retried. |
| Retry.Attempt | protocol/retry.go:97-149 | One attempt behind the health manager and the vendor's breaker. |
| Retry.SendWithRetry | protocol/retry.go:76-152 | The loop computes `Send`: its log, its end and the breaker it leaves. |
| Retry.RetryTheorem | protocol/retry.go:76-152 | Every run sends at most 11 requests, each immediately after a check of the registered breaker that allowed it; it asks to wait at most 151.245 s in all; only retryable replies are followed by a request, and the end is the verdict on the last reply. |
| Retry.BudgetTheorem | protocol/retry.go:76-152 | From a closed breaker that is asked again within its timeout, a run sends no more requests than the breaker has failures left; if every attempt gets as far as a retryable reply it sends exactly that many, or 11 if that is less, and then the breaker or the health manager refuses the next attempt, or it gives up. |
| RetryExact.SendExact | protocol/retry.go:76-152 | Every call, exactly: one request after the other until the first attempt that is cancelled, refused by the health manager or the breaker, or cannot be built, or whose reply is not retried, or until there have been 11; the pauses, the end and the breaker it leaves are given for each case from the history of the breaker. |
| RetryExact.OneEnd | protocol/retry.go:76-152 | There is only one attempt at which a call can end so. |
| RetryExact.FreeToSend | protocol/retry.go:97-116 | Without a breaker only a cancellation or a request that cannot be built keeps an attempt from sending. |
| RetryExact.HeaderGranted | protocol/retry.go:51-75 | A `Retry-After` of whole seconds is granted, up to 15 seconds and without jitter, for every value that does not overflow. |
| RateLimit.RateLimiter.constructor | protocol/ratelimit.go:18-20 | A new limiter has no window. |
| RateLimit.RateLimiter.Wait | protocol/ratelimit.go:22-58 | One call: counted, and passed, released after a sleep, or cancelled. |
| RateLimit.LimitsHold | protocol/ratelimit.go:22-58 | In every run under a clock that does not run back: windows start at least a minute apart, at most rpm callers and tpm tokens pass in each without waiting, at most one released caller opens it, and any minute at all admits at most 2 * rpm + 1 callers. |
| RateLimit.PassesIff | protocol/ratelimit.go:22-58 | After every run and for every next call: it passes without waiting if and only if the callers since its window opened, itself included, are at most rpm where that limit is on and their tokens at most tpm where that one is on; otherwise it sleeps exactly to the end of its window, unless it is cancelled. |
| RateLimit.OffPasses | protocol/ratelimit.go:23-25 | With both limits off every call passes. |
| RateLimit.BoundMet | protocol/ratelimit.go:52-56 | For every rpm that bound is met: the released caller is not counted. |
| RateLimit.TokenBoundMet | protocol/ratelimit.go:40-56 | For every tpm the bound of 2 * tpm on the tokens of callers that do not wait is met, and with a released caller of n tokens 2 * tpm + n tokens pass within a minute, for every n. |
| Failover.ReadBody | protocol/openai.go:684-714 | The reading loop and its endings: done, stopped, failed, scanner error, stalled, end of stream. |
| Failover.OpenAI.Receive | protocol/openai.go:371-393 | What is done with a response that was read: finished, broken after output, broken before, or to be retried. |
| Failover.OpenAI.Connect | protocol/openai.go:355-370 | One call of `SendWithRetry` and what follows. |
| Failover.OpenAI.StreamWithFailover | protocol/openai.go:303-398 | The loop computes `Call`, and the channel is closed once, at the end. |
| FailoverSafe.ScanLeaves | protocol/openai.go:687-706 | A response leaves at most an error after a done chunk, and it counts as output if and only if something other than a warning was sent. |
| FailoverSafe.StreamSafe | protocol/openai.go:303-398 | Every call: either only warnings and errors are sent, or all that is sent is what one response produced and no request and no failover follows it; only an error follows a done chunk; all requests go to the first target; at most maxReconnect + 1 calls of `SendWithRetry`, with 11 requests each. |
| FailoverExact.CallExact | protocol/openai.go:303-398 | Every call that is not throttled, exactly: it connects up to its number of reconnections until the first attempt that is answered, and not by a reset before output, or that is cancelled while it waits; what is then sent is what that response leaves, with an error at the end if it failed without output; if no attempt is answered so, exactly the allowed switches follow and then the last error, if the channel takes it. |
| FailoverExact.OneEnd | protocol/openai.go:303-398 | There is only one attempt at which a call can end so. |
| FailoverExact.ThrottledExact | protocol/openai.go:308-312 | A call that the rate limiter turns away requests nothing and sends the error, if the channel takes it. |
| FailoverExact.ReadExact | protocol/openai.go:684-714 | For every response: when its reading fails, when that is a reset, when it is an interruption, and that only a stall is told at this point. |
| FailoverExact.PlainError | protocol/openai.go:358-383 | The error at the end of a call without output is never an interruption. |
| FailoverSafe.ScanTells | protocol/openai.go:773-776 | The reader sends an error chunk only at an `error` payload, with its text, and with the interruption flag set if there was output. |
| FailoverSafe.ErrorTold | protocol/openai.go:371-383 | For every response whose reading fails and ends the call: the consumer is told if and only if the reader comes to an `error` payload or a stall and the channel takes the error there, or there was no output and the channel takes it at the end of the call. |
| FailoverSafe.BrokenOffSilently | protocol/openai.go:378-383 | Every response that a scanner error or a cancellation breaks after output: no error is sent, and the bridge emits one whole message, the same as if it had been done. |
| FailoverSafe.TornText | protocol/openai.go:378-383 | Such a response: one text and then a scanner error; the text is all that is sent. |
| FailoverSafe.PayloadErrorRecovers | protocol/openai.go:773-776 | An `error` payload after output that the channel takes makes the bridge recover. |
| EventBus.InvStep | protocol/stream.go:37-125 | Every step of every goroutine keeps the invariant on the lock, the stop protocol, the registrations, the publisher channel and the subscribers' records. |
| EventBus.BusSafe | protocol/stream.go:37-125 | In every interleaving: no send on a closed channel, no channel closed twice, and each subscriber handles accepted chunks in order, none twice. |
| EventBusPublish.AcceptedIsSent | protocol/stream.go:50-78 | In every run, what has been accepted is exactly the chunks of the publishing calls that sent, in that order, and the channel never holds more than its capacity. |
| EventBusPublish.PublishDecided | protocol/stream.go:50-78 | In every run, a publishing call that has returned sent its chunk, unless it found the bus stopped, or the channel full, or its context done. |
| EventBusPublish.SendsOnce | protocol/stream.go:50-78 | No call sends twice. |
| EventBusPublish.RoomAccepts | protocol/stream.go:50-78 | From every state of a running bus with room in its channel, a publishing call can go on to have its chunk accepted. |
| EventBusPublish.ChunkArrives | protocol/stream.go:50-125 | For every capacity and every chunk, a run in which it is published, accepted and handled by a subscriber. |
| EventBus.LossNeedsFullQueue | protocol/stream.go:102-108 | A chunk is lost to a subscriber if and only if it is offered while the queue of 256 is full. |
| EventBus.OfferedFromSubscription | protocol/stream.go:37-48 | In every run after a new subscription, each chunk accepted after it and fanned out is in the subscriber's record or among those it lost to a full queue, never both. |
| EventBus.StopDrains | protocol/stream.go:80-125 | When Stop returns, every accepted chunk has been fanned out, and every subscriber has handled all it was offered but what it lost to a full queue. |
| EventBus.StopClosesAll | protocol/stream.go:88-93 | When a Stop call leaves its closing loop, no subscriber is registered and all there have been are closed. |
| EventBus.NothingAfterStop | protocol/stream.go:50-78 | After Stop has flagged the bus, nothing more is accepted. |
| EventBusLive.StopReturnsIff | protocol/stream.go:80-95 | From every reachable state and for every Stop call in flight: some run of enabled moves without new calls lets it return, if and only if no subscriber is registered or some Stop call, maybe itself, has its closing loop before it. |
| EventBusLive.LateSubscriber | protocol/stream.go:37-48 | A run from the start, for every capacity, to a Stop call that cannot return: a subscriber came after its closing loop. |
| Executor.ExecuteSequential | internal/adk/tool/executor.go:64-84 | The loop computes `Sequential`. |
| Executor.RunTells | internal/adk/tool/executor.go:106-127 | A result carries the name and ID of its call; it is a failure, with an error and without a result, unless the tool is registered and returned. |
| Executor.SequentialMeaning | internal/adk/tool/executor.go:64-84 | All results but the last are those of calls that ran and did not fail; only a failure or cancellation ends the list early. |
| Executor.MaxConcurrency | internal/adk/tool/executor.go:11-16 | The number of CPUs, but at least four. |
| Executor.PoolSafe | internal/adk/tool/executor.go:86-104 | In every schedule at most MaxConcurrency tools are in flight; the executor has returned exactly after seven moves per call and one more, and then every slot has been written exactly once with the result of its own call. |
| Executor.NeverStuck | internal/adk/tool/executor.go:86-104 | Until it has returned, some move is possible: there is no deadlock. |
| Executor.SchedulesAgree | internal/adk/tool/executor.go:86-127 | With deterministic tools all schedules give the same results. |
| Executor.SequentialIsPrefix | internal/adk/tool/executor.go:64-104 | Without cancellation the sequential results are the concurrent ones up to and including the first failure. |
| Registry.ToolRegistry.constructor | internal/adk/tool/registry.go:31-37 | An empty registry, with a time to live of 30 s and a grace period of 60 s. |
| Registry.ToolRegistry.Register | internal/adk/tool/registry.go:39-43 | Registering leaves both caches alone. |
| Registry.ToolRegistry.Unregister | internal/adk/tool/registry.go:45-54 | Unregistering forgets everything about the name. |
| Registry.ToolRegistry.Check | internal/adk/tool/registry.go:114-154 | One check: answered by the cache, refused, or by asking the tool. |
| Registry.ToolRegistry.InvalidateCache | internal/adk/tool/registry.go:156-160 | The cached answer is dropped, the last success is not. |
| Registry.ToolRegistry.ClearCache | internal/adk/tool/registry.go:162-167 | Both are dropped, for all names. |
| Registry.CheckExact | internal/adk/tool/registry.go:114-154 | After every run a check is true if and only if the last successful probe that was made is less than the grace period ago. |
| Registry.CacheHidesRecovery | internal/adk/tool/registry.go:114-154 | After every run, a check of a registered tool that is available answers false if and only if the last refusal was not followed by a successful probe, dropped or forgotten, and is less than the time to live ago. |
| Registry.RecoveryHidden | internal/adk/tool/registry.go:149-153 | Such a run, for every time to live within the grace period and every moment within the time to live. |
| Registry.SuccessHidden | internal/adk/tool/registry.go:118-125 | A run in which a success answered by the cache does not renew the grace period: a later failure is refused that would be forgiven without the cache. |
| Registry.CheckFalse | internal/adk/tool/registry.go:114-154 | False for a registered name means a failing probe within the time to live; an unregistered name is false and in neither map. |
| Registry.StaleCache | internal/adk/tool/registry.go:12-15 | With a time to live beyond the grace period this would fail, for every choice of the two. |

## Left out

- The 10000-level nesting limit of Go's JSON decoder, and invalid UTF-8: foreign code.
- Canonical.CanonRoundTrip: float formatting is a parameter `fl` that says which printed numbers decode and to what; it is assumed faithful, because Go's number formatting is foreign code.
- HTTP transport, request building, the splitting of the body into lines and the stall timer: only their outcomes are modelled.
- Key rotation on authentication errors, hooks, telemetry, logging and the event bus publications of the client: they do not change what is sent or retried.
- Failover.OpenAI.StreamWithFailover: the vendor's breaker after a switch to a fallback is not modelled, because nothing consults it in the same call.
- Delivery.AnswerDelivered: only for sends that are not cancelled and payloads without an `error`; those are in `FailoverSafe.ErrorTold`.
- Retry.RetryTheorem: other goroutines that use the same breaker between two steps of the call are not modelled; the check before each request is its own.
- Retry.BudgetTheorem: the same; a success reported by another goroutine would refill the budget.
- Wall-clock waiting in `streamWithFailover`: its delays are those of `BackoffSensible` and are not summed.
- ThinkCuts.TagRecognised: for an opening tag that itself contains the closing tag, such as `<think </think>`, only the "if" holds; `ThinkCuts.SelfClosingTag` is a stream for which the converse fails.
- EventBus.BusSafe: the wait group is the condition that all goroutines have finished; its own misuse rules are not modelled.
- Registry.CheckExact: runs of one operation after the other; a check that overlaps with `Unregister`, and a nil tool registered under a name, are not modelled.
- EventBusPublish.PublishDecided: the error and the flag that `Publish` and `TryPublish` return are not modelled.
- `Execute`: only the choice between the two ways of running calls.
- `chatWithFailover`, `Generate` and the non-streaming client: the same retries with less state.
- Content-type detection and the compressors for build output, search results and diffs: heuristics without a specification.
- Middleware, session manager, interceptors, vendor detection, message converters, the server and the reference directory are not modelled.
