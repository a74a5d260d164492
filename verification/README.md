# ultiproxy, verified models

Dafny models of the parts of ultiproxy whose correctness spans several functions or several threads, with proofs of
what those parts promise. `dafny verify dfyconfig.toml` checks everything.

The files follow the program:

| file | models |
|---|---|
| `Events.dfy`, `AnthropicEncoder.dfy`, `OpenAIEncoder.dfy` | the neutral stream events and the two SSE encoders |
| `SseText.dfy`, `SseReaders.dfy`, `AnthropicDecoder.dfy` | reading SSE text (sections 9.2.5 and 9.2.6 of the WHATWG HTML Living Standard) and the accumulating decoder |
| `StreamRoundTrip.dfy`, `StreamHeader.dfy`, `StreamGrammar.dfy`, `OpenAIStream.dfy` | what an encoded stream decodes to, content and header, and the grammar or shape of either encoding |
| `ClientObservation.dfy`, `FinishReasons.dfy`, `StreamTexts.dfy` | what a client sees of either encoding and is told in the end, from frames and from bytes |
| `Protobuf.dfy`, `GrpcWebFraming.dfy`, `GrokCredits.dfy` | the schema-less protobuf walker, the gRPC-web unframer, and the billing window read through them |
| `State.dfy`, `SnapshotHeap.dfy`, `UpdateProtocol.dfy`, `FailureStreak.dfy`, `OpenCircuit.dfy`, `ProviderHealth.dfy`, `ModelCatalog.dfy` | provider health: the state manager, snapshots as objects in a heap, the lock-free update under any interleaving, when a circuit trips, how long it stays open, and what else is published of providers and models |
| `Breaker.dfy`, `BreakerTiming.dfy` | the circuit breaker beside it: agreement of the two, and when the breaker opens, refuses and grants |
| `Credentials.dfy`, `CredentialProtocol.dfy`, `CredentialOrder.dfy`, `RevocationProtocol.dfy`, `CredentialFreshness.dfy`, `SoloCredential.dfy` | the credential manager, used by one caller and under any interleaving with crashes, and the agreement of the two |
| `TelemetryWriter.dfy` | the bounded telemetry queue, its worker and Close |
| `ProviderStore.dfy` | the runtime provider store and its JSON file |
| `Router.dfy`, `Dispatch.dfy` | routing and the failover loop |
| `JsonValue.dfy`, `ToolSchema.dfy`, `CacheMarks.dfy` | decoded JSON, the tool-schema sanitizer and validator, and prompt-cache breakpoints |

How the pieces fit: an object of the source is a class here; each of its methods is proved equal to a function of the old
state (`Step`, `Exec`, `Effects`, ...), and the properties are lemmas about runs of that function. A concurrent part is a
machine whose steps are the atomic actions of its threads, and its theorems hold for every list of steps.

Where the code does less than one would expect of it, the model keeps the code. Each line names a lemma at one input (for
a property of runs, a run from the start) where the expectation fails, and then the one that says for all inputs when it
holds:

- Nothing an index carried is lost in the round trip: `UndisciplinedStreamLosesText`, `NothingLostIff` of `StreamRoundTrip`.
- The usage reported last is the usage decoded: `OutputCountsTwice`, `LateInputIsLost`, `UsageSurvivesIff`.
- A client of either encoding is told the same reason in the end: `ReasonsDiverge`, `ReasonsCorrespondIff`.
- The two SSE readers agree on any text: `EmptyDataDiffers`, `ReadersAgree` (all lines are understood by both).
- A closed stream is one grammatical message: `RepeatedToolStartEscapes`, `GrammarIff`.
- A probe answer is the committed attempt's own: `StaleAnswerEscapes`, `AnswerDeterminedIff`.
- Breaker and manager agree on the circuit: `ThresholdsApart`, `AgreeForeverIff` (the breaker's threshold does not exceed
  the manager's, or is at most 1).
- They agree on the probe flag too: `ProbeFlagsDiverge`, `FlagsStayEqualIff` (one call), `FlagsOverRunIff` (runs).
- Clones are deep copies, so no two snapshots share a map: `SyncsShare`, `ClonesShareIff`.
- A generation on disk never goes down: `BlindStoreShrinks`, `DiskNeverShrinksIff` and, for the environment alone,
  `NobodyShrinksIff`.
- Without a crash a reader of the credential cache never sees a generation go back: `CacheMayGoBack`,
  `CacheNeverGoesBackIff`.
- A revoked credential is not handed back: `RejectedIsHandedBack`, `RejectedHandedBackIff`.
- Once a credential is invalidated, no Get returns it: `JoinedFlightReturnsRejected`, `RevokedGetReturnsIff`.
- What replaces it has a larger generation: `GenerationWraps`, `RevocationSticks`.
- Close reports errors of the final flush, as the comment on `flushErr` has it: `OldErrorIsReported`,
  `CloseHandsOverEverything` (the first error of the worker's whole life).
- A stored lane name is well formed: `BlankNameIsStored`, `StoredNameOkIff`.
- A restart brings a lane back as it was: `ValidateIsLost`, `RestartEqualsLiveIff`.
- A restart serves what the file holds: `UnreadableRestartForgets`, `UnreadableRestartIff`.
- Loading a deleted file empties the store: `DeletedFileIsServed`, `DeletedFileIff`.
- Disabling an alias disables the id it stands for: `DisabledAliasStillRoutes`, `KillSwitchReach`.
- A stream recorded as complete had no upstream error, and its usage is recorded: `CutStreamIsComplete`,
  `StreamCompleteIff`.
- Sanitizing does not change what the validator says: `DefsHideViolations`, `SanitizedAcceptedIff`.

The last resort of the failover loop, after all attempts, cannot be reached (`Dispatch`).

## Model

| member | source | states |
|---|---|---|
| AnthropicEncoder.AnthropicStreamEncoder.EncodeEvent | pkg/codec/anthropic.go:570-933 | each event writes the frames of the encoder's step function and leaves its state; the theorems below are about that function |
| AnthropicEncoder.AnthropicStreamEncoder.Close | pkg/codec/anthropic.go:936-966 | closing stops the open block and ends a started message once |
| AnthropicEncoder.AnthropicStreamEncoder.EncodeStream | pkg/codec/anthropic.go:570-966 | a whole stream writes the concatenation of its events' frames and the closing ones |
| AnthropicDecoder.Decoder.HandleOne | pkg/spikes/anthropic/decoder.go:144-229 | one event updates the accumulated state, or leaves it untouched when its payload does not parse |
| AnthropicDecoder.Decoder.Decode | pkg/spikes/anthropic/decoder.go:232-289 | the line loop decodes exactly the dispatched events, stopping at the first bad payload |
| SseText.Scanner.Scan | pkg/provider/internal/sse/sse.go:34-105 | each call takes exactly the next event off the stream, or reports that none is left |
| SseText.DecodeReadsBack | pkg/spikes/anthropic/decoder.go:232-289 | reading written events gives back those events, in order |
| SseText.ScannerReadsBack | pkg/provider/internal/sse/sse.go:34-105 | the two independent SSE readers return the same events on every written stream |
| AnthropicDecoder.BytesToFrames | pkg/spikes/anthropic/decoder.go:144-289 | decoding rendered frames is handling the frames, for any newline-free injective JSON printing |
| AnthropicDecoder.BlockSince | pkg/spikes/anthropic/decoder.go:160-205 | on any payloads, from a block's last start on, redacted data as it was started with, and text as started with and then that of the deltas |
| AnthropicDecoder.PingsAndStops | pkg/spikes/anthropic/decoder.go:205-229 | on any payloads pings are counted and otherwise ignored, and the last stop sequence is kept |
| SseReaders.ReadersAgree | pkg/provider/internal/sse/sse.go:34-105 | on every text whose lines both readers understand (comments, unknown fields and data on several lines included) they return the same events |
| SseReaders.EmptyDataDiffers | pkg/spikes/anthropic/decoder.go:262-279 | an empty first data line is lost to the decoder and kept by the scanner |
| SseReaders.LineEndings | pkg/spikes/anthropic/decoder.go:232-260 | a line may end in a carriage return and line feed or in a line feed alone |
| StreamRoundTrip.StreamRoundTrip | pkg/codec/anthropic.go:523-966 | for every event sequence the decoded text has exactly the touched indices, each with its type, the concatenation of its deltas since its last tool start and its tool id and name, Completed iff a message was opened, the first stop's reason in Anthropic's words and the last error |
| StreamRoundTrip.Relay | pkg/spikes/anthropic/decoder.go:91-289 | the same through the encoder object and the decoder object |
| StreamRoundTrip.NothingLostIff | pkg/spikes/anthropic/decoder.go:172-229 | a block holds everything sent on its index iff nothing was sent before the last tool start on it |
| StreamRoundTrip.DisciplinedStreamsLoseNothing | pkg/codec/anthropic.go:570-933 | when a tool start is the first event on its index nothing is lost |
| StreamRoundTrip.UndisciplinedStreamLosesText | pkg/spikes/anthropic/decoder.go:172-186 | a concrete stream without that discipline whose text is lost |
| StreamHeader.HeaderIs | pkg/codec/anthropic.go:523-966 | for every event sequence the decoded message id, model and role, and as usage what was reported before the message opened plus the output tokens reported by its first stop |
| StreamHeader.UsageSurvivesIff | pkg/codec/anthropic.go:523-548 | the decoded usage is the one last reported iff its input and cache tokens were known when the message opened and its output tokens are not counted besides |
| StreamHeader.OutputCountsTwice | pkg/spikes/anthropic/decoder.go:30-37 | a stream whose output tokens, reported before it opens, are decoded doubled |
| StreamHeader.LateInputIsLost | pkg/codec/anthropic.go:893-905 | a stream whose input tokens, reported after it opened, are not decoded |
| StreamGrammar.AcceptorIsGrammar | pkg/codec/anthropic.go:501-966 | a finite acceptor recognises exactly message_start (start delta* stop)* message_delta message_stop with distinct indices |
| StreamGrammar.GrammarIff | pkg/codec/anthropic.go:551-966 | a closed stream is one grammatical message iff its events keep the index discipline; one that never opens a message carries only errors |
| StreamGrammar.RepeatedToolStartEscapes | pkg/codec/anthropic.go:570-933 | a tool start repeated on the open index leaves the grammar |
| StreamGrammar.EveryStreamReadsWell | pkg/codec/anthropic.go:523-966 | on every event sequence message_start comes at most once and first, the end pair at most once, every stop closes the latest open start, and a started message is ended |
| OpenAIEncoder.OpenAIStreamEncoder.EncodeEvent | pkg/codec/openai.go:479-595 | each event writes the chunks of the encoder's step function |
| OpenAIEncoder.OpenAIStreamEncoder.Close | pkg/codec/openai.go:598-630 | closing writes the usage chunk, if it is wanted and known, and the end mark, once |
| OpenAIStream.StreamShape | pkg/codec/openai.go:479-660 | for every event sequence: the role once and before anything told, at most one finish, the upstream errors in order, every chunk with an id last given, then the last usage iff wanted and known, then one end mark |
| FinishReasons.OpenAIReasonIs | pkg/codec/openai.go:559-581 | the OpenAI client is told nothing without a stop, "tool_calls" if a tool call was started before the first, and otherwise that stop's reason by the literal table |
| FinishReasons.AnthropicReasonIs | pkg/codec/anthropic.go:872-966 | the Anthropic client is told the first stop's reason by the literal table, "end_turn" for an opened message without a stop, and nothing otherwise |
| FinishReasons.ReasonsCorrespondIff | pkg/codec/openai.go:559-581 | the two reasons correspond iff the first stop is for tool calls whenever one was started before it, or there is neither stop nor message |
| FinishReasons.StreamsMeanTheSame | pkg/codec/openai.go:479-630 | same content after every prefix and corresponding reasons in the end iff tools are announced in order and the reasons fit |
| FinishReasons.ReasonsDiverge | pkg/codec/openai.go:559-581 | a stream that tells one client "tool_calls" and the other "end_turn" |
| ClientObservation.StreamObservation.ProcessChunk | pkg/contract/opencode/harness.go:613-773 | what a client adds to its text, reasoning and tool calls for one OpenAI chunk |
| ClientObservation.EncodersMeanTheSame | pkg/codec/openai.go:479-630 | the two clients agree on text, reasoning and ordered tool calls after every prefix iff tools are announced in order, and closing changes nothing seen |
| ClientObservation.PromisedStreamsPair | pkg/contract/opencode/harness.go:613-773 | what providers promise about tool starts and block kinds is enough for that |
| StreamTexts.ObserveStream | pkg/contract/opencode/harness.go:539-611 | the client's line loop reads the text and updates its observation as events are complete |
| StreamTexts.ObserverReadsBack | pkg/contract/opencode/harness.go:539-611 | that loop reads back exactly the events that were written |
| StreamTexts.TextsMeanTheSame | pkg/contract/opencode/harness.go:539-773 | the bytes the two encoders have written show a client the same after every prefix iff tools are announced in order, and so do those of the closed streams |
| StreamTexts.TextsTellReasonsIff | pkg/contract/opencode/harness.go:539-773 | the bytes of the two closed streams tell a client corresponding reasons iff the reasons fit |
| Protobuf.ReadVarint | pkg/provider/openaicompat/quirks_quota.go:135-148 | the loop reads the base-128 value modulo 2^64, and fails on a truncated or overlong one |
| Protobuf.VarintRoundTrip | pkg/provider/openaicompat/quirks_quota.go:135-148 | every uint64 is read back at every offset, consuming its 1 to 10 bytes |
| Protobuf.ProtobufScanner.ScanMessage | pkg/provider/openaicompat/quirks_quota.go:155-218 | the walk terminates in bounds on any bytes and appends the leaves its specification lists |
| Protobuf.ProtobufScanner.ScanField | pkg/provider/openaicompat/quirks_quota.go:160-217 | one round: a field is consumed, or one byte of garbage is skipped |
| Protobuf.ScanBounds | pkg/provider/openaicompat/quirks_quota.go:150-218 | on arbitrary bytes at most len/2 fields and paths of length 1 to 11 |
| Protobuf.ScanInvertsEncoding | pkg/provider/openaicompat/quirks_quota.go:155-218 | scanning an encoded message tree lists its varint and fixed32 leaves in pre-order with full paths, down to nesting 10 |
| Protobuf.NothingLostIff | pkg/provider/openaicompat/quirks_quota.go:155-160 | every leaf is listed iff none lies deeper than the cut-off |
| GrpcWebFraming.UnframeGRPCWeb | pkg/provider/openaicompat/quirks_quota.go:248-266 | the loop returns the payloads of the complete data frames |
| GrpcWebFraming.UnframeInvertsEncoding | pkg/provider/openaicompat/quirks_quota.go:248-266 | unframing gives back the data payloads in order, trailers dropped, whatever is cut off at the end |
| GrpcWebFraming.PrefixUnframesToPrefix | pkg/provider/openaicompat/quirks_quota.go:248-266 | unframing a byte prefix gives a prefix of the payloads, on any bytes |
| GrpcWebFraming.FramingDoesNotMatter | pkg/provider/openaicompat/quirks_quota.go:407-434 | however a message is split over frames, its leaves are the same |
| GrokCredits.ParseGrokCredits | pkg/provider/openaicompat/quirks_quota.go:317-403 | the loops find the least start, the least reset, the least percentage and whether a window is active |
| GrokCredits.ParseResponse | pkg/provider/openaicompat/quirks_quota.go:407-434 | unframing, joining and parsing gives that window, or none when it reports nothing |
| GrokCredits.WindowIsDetermined | pkg/provider/openaicompat/quirks_quota.go:317-403 | the window does not depend on the order or repetition of the leaves |
| GrokCredits.ResponseStandsForTree | pkg/provider/openaicompat/quirks_quota.go:407-422 | however an encoded message is framed, its window is the one its leaves stand for |
| GrokCredits.WindowIsCurrent | pkg/provider/openaicompat/quirks_quota.go:317-403 | the start is the earliest plausible moment not in the future, the reset the earliest in it, and the share a percentage |
| GrokCredits.BillingMessageReads | pkg/provider/openaicompat/quirks_quota.go:317-403 | a message with one past moment, one future one, a percentage under field 1 and the active mark reads as exactly that |
| State.StateManager.AllowProbe | pkg/state/state.go:133-187 | the snapshot published and the answer given by a probe run alone |
| State.StateManager.RecordSuccess | pkg/state/state.go:192-221 | the snapshot a success publishes |
| State.StateManager.RecordFailure | pkg/state/state.go:227-260 | the snapshot a failure publishes |
| UpdateProtocol.PublishedIsFold | pkg/state/state.go:85-95 | in every interleaving the published snapshot is the fold of the committed functions in commit order, and its version counts them modulo 2^64 |
| SnapshotHeap.NothingShared | pkg/state/types.go:97-128 | no map but a score map of the catalog is reachable from two snapshots of a well-owned heap |
| SnapshotHeap.CopyModelOk | pkg/state/types.go:114-125 | one turn of the loop copies the row and its scores, and writes nothing outside the clone |
| SnapshotHeap.WriteOk | pkg/server/server.go:561-586 | a closure's writes in place do to the clone what the closure does to a value, touch nothing else, and leave in it exactly the catalog's score maps that it installs |
| UpdateProtocol.PublishedNeverMutated | pkg/state/types.go:97-128 | once published, neither a snapshot nor any map reachable from it is written again, however the run goes on |
| UpdateProtocol.CatalogReachedIff | pkg/server/server.go:561-586 | a published snapshot or a clone refers to a score map of the catalog iff the closure that has run on it installed that map |
| UpdateProtocol.ClonesShareIff | pkg/server/server.go:561-591 | two snapshots, published or under way, share a map iff it is a score map of the catalog that both their closures installed |
| UpdateProtocol.SyncsShare | pkg/server/server.go:561-586 | two concurrent syncs whose clones share a score map of the catalog |
| UpdateProtocol.StartExists | pkg/state/state.go:64-69 | every snapshot can be laid out in a heap to start from |
| UpdateProtocol.ReturnedAnswerIsCommitted | pkg/state/state.go:133-187 | a returned probe answer is the one of the attempt that committed, on the snapshot it replaced, for a known circuit |
| UpdateProtocol.AnswerDeterminedIff | pkg/state/state.go:134-186 | the answer does not depend on earlier attempts iff the provider is missing, disabled or in a known circuit state |
| UpdateProtocol.StaleAnswerEscapes | pkg/state/state.go:133-187 | a concrete interleaving where the answer of a losing attempt is returned |
| UpdateProtocol.GrantsAreSeparated | pkg/state/state.go:144-183 | between two grants from Open or HalfOpen a report, recovery, trip or explicit write of that provider is committed |
| UpdateProtocol.AtMostOneWinner | pkg/state/state.go:154-183 | of any number of racing callers at most one wins the probe |
| FailureStreak.TripsIff | pkg/state/state.go:192-261 | however the reports of any number of threads interleave, the published circuit is open iff the committed failures once came threshold in a row, and the published count is the current streak |
| OpenCircuit.OpenUntil | pkg/state/state.go:133-261 | in every interleaving, after a commit that opens the circuit at reading t: probes before t + openDuration are refused, and the first one from then on, of an enabled provider, is granted and left in flight; reports before it do not matter |
| OpenCircuit.ClosedGrants | pkg/state/state.go:144-153 | after a recovery or a successful probe every probe of an enabled provider is granted until a failure, trip or explicit write |
| OpenCircuit.FirstReportDecides | pkg/state/state.go:192-261 | the first report after a granted probe closes the circuit, or opens it again from its own reading on |
| OpenCircuit.TripsAgainIff | pkg/state/state.go:192-292 | after a recovery or a successful probe the failures that trip are counted from zero |
| ProviderHealth.FieldsAreLastWritten | pkg/state/state.go:111-292 | in every interleaving quota, admin state, error, the times of attempt and success and the end of the window are what was written last: exhausted by limits, restored by a reset, admin state by explicit writes only |
| ProviderHealth.HealthIsLast | pkg/state/state.go:192-292 | the published health is what the last report, recovery, limit, trip or explicit write left |
| ModelCatalog.SyncIs | pkg/server/server.go:561-586 | after a sync listed aliases show what the catalog lists, known ones stay on or off, new ones are on, and exactly the removed ones are gone |
| ModelCatalog.SwitchStays | pkg/server/server.go:468-484 | in every interleaving a model that was switched stays so through any number of syncs until it is switched again or leaves the catalog |
| Breaker.Normalize | pkg/quota/breaker.go:41-50 | valid settings are kept, and only those; bad ones become 30 seconds, 5 and no jitter |
| Breaker.CircuitBreaker.AllowProbe | pkg/quota/breaker.go:113-166 | the new state of breaker and manager, and the answer |
| Breaker.CircuitBreaker.RecordSuccess | pkg/quota/breaker.go:171-188 | both states after a success |
| Breaker.CircuitBreaker.RecordFailure | pkg/quota/breaker.go:193-223 | both states after a failure: the local trip, the mirrored circuit, then the manager's own count |
| Breaker.CircuitBreaker.RecordLimitError | pkg/quota/breaker.go:226-302 | both states after a limit of each kind |
| Breaker.CircuitBreaker.TripCircuit | pkg/quota/breaker.go:305-321 | both states after an explicit trip |
| Breaker.RunLockstep | pkg/quota/breaker.go:113-342 | over every run that changes circuits only through the breaker, equal circuits and a manager failure count not above the breaker's |
| Breaker.AgreeForeverIff | pkg/quota/breaker.go:193-223 | every such run keeps the circuits equal iff the thresholds fit |
| Breaker.ThresholdsApart | pkg/quota/breaker.go:209-217 | three failures open a manager of threshold 3 and leave a breaker of threshold 5 closed |
| Breaker.FlagsStayEqualIff | pkg/quota/breaker.go:113-342 | in step and with equal flags, a call leaves them different iff it clears only one, by its kind and the local state |
| Breaker.FlagsOverRunIff | pkg/quota/breaker.go:113-342 | over every such run the flags are equal at every point iff no limit of spending, abuse, a quota window or an unrecognised kind below the threshold is met with a probe in flight |
| Breaker.ProbeFlagsDiverge | pkg/quota/breaker.go:239-276 | tripped, probed and met by a quota-window limit, a provider's two flags differ |
| Breaker.BreakerKeepsAdmin | pkg/quota/breaker.go:168-342 | no breaker call changes a provider's admin state |
| Breaker.GrantsAreSeparated | pkg/quota/breaker.go:113-166 | two breaker probes outside Closed are never granted without a report, limit or trip between them |
| Breaker.JitterBounds | pkg/quota/breaker.go:134-143 | the effective cooldown stays within any jitter ratio of the configured one, and is not negative for ratios up to 1 |
| BreakerTiming.OpenForCooldown | pkg/quota/breaker.go:113-321 | over any run, after a call that opens the circuit at reading n with cooldown c (the default for failures in a row, the call's own if positive for limits and trips, the last one given for a failed probe): probes before n + c are refused, and the first one from then on, of an enabled provider, is granted; up to the jitter |
| BreakerTiming.OpensIff | pkg/quota/breaker.go:193-302 | with nothing but reports and counted limits, a circuit not seen before is open iff its failures once came threshold in a row |
| BreakerTiming.OpensAgainIff | pkg/quota/breaker.go:171-223 | and so it is after a successful probe, from zero |
| BreakerTiming.FirstReportDecides | pkg/quota/breaker.go:171-223 | the first report after a granted probe closes the circuit, or opens it again from its own reading on |
| BreakerTiming.ClosedGrants | pkg/quota/breaker.go:113-129 | while it is closed every probe of an enabled provider is granted |
| BreakerTiming.ManagerIsTold | pkg/quota/breaker.go:113-342 | what the manager shows of a provider after each call: quota, health, error, and the circuit open since which reading; other providers unchanged |
| Credentials.Manager.WriteFile | pkg/auth/manager.go:128-180 | a write fails on a newer generation or an I/O error and otherwise replaces the file |
| Credentials.Manager.StoreCredential | pkg/auth/manager.go:114-125 | the credential is published, and its revocation lifted, only when it was persisted |
| Credentials.Manager.Peek | pkg/auth/manager.go:246-266 | the cached or loaded credential, never refreshing |
| Credentials.Manager.Invalidate | pkg/auth/manager.go:210-228 | revokes unless the token is no longer the one in hand |
| Credentials.Manager.Get | pkg/auth/manager.go:272-355 | result and new state of a Get run alone |
| Credentials.GoodCredentialIsReturned | pkg/auth/manager.go:272-306 | with more than five minutes left by a reading of the call and no invalidation, the credential comes back as it is and nothing is written |
| Credentials.RefreshReplaces | pkg/auth/manager.go:299-347 | otherwise a refresher that succeeds is used: its credential, with a higher generation, is returned, cached, on disk and no longer revoked, or the write's error is returned and nothing changes |
| Credentials.OldIsReturnedIff | pkg/auth/manager.go:308-328 | without one the old credential is returned iff it has not expired and, if the refresher failed, nobody rejected it; and which error otherwise |
| Credentials.NothingOffered | pkg/auth/manager.go:183-200 | with nothing to start from the call fails and changes nothing |
| Credentials.InvalidateIff | pkg/auth/manager.go:202-228 | an invalidation takes effect iff the cache holds no other token than the rejected one |
| CredentialFreshness.ReturnedIsVouchedFor | pkg/auth/manager.go:272-355 | in every interleaving a credential returned by a Get was, during that Get or the flight it waited for, found to last five minutes more and not rejected, or found not expired with no refresher or a failed one, or is the refresher's answer |
| Credentials.RunDurable | pkg/auth/manager.go:110-125 | over any sequential run everything in memory is exactly what a restart would load |
| Credentials.RevocationSticks | pkg/auth/manager.go:202-228 | after Invalidate, through any failing refreshes and writes, a Get succeeds iff it refreshes and persists, and then with a larger generation than the rejected credential iff that does not wrap past an unreadable file |
| Credentials.RejectedHandedBackIff | pkg/auth/manager.go:299-328 | the rejected credential is returned iff no refresher is installed and it has not expired |
| Credentials.RejectedIsHandedBack | pkg/auth/manager.go:308-313 | without a refresher a revoked credential is returned |
| Credentials.GenerationWraps | pkg/auth/manager.go:330-333 | past an unreadable file the generation wraps to 0 |
| SoloCredential.SoloCall | pkg/auth/manager.go:114-355 | a call that runs alone through the interleaved steps ends with the result and the store of the sequential Get, Peek or Store |
| CredentialProtocol.DiskNeverShrinksIff | pkg/auth/manager.go:128-140 | in every interleaving a key's disk generation never goes down iff no step overwrites a newer file it could not read |
| CredentialProtocol.BlindStoreShrinks | pkg/auth/manager.go:128-140 | a run in which a store that cannot read the file replaces a newer credential |
| CredentialProtocol.NobodyShrinksIff | pkg/auth/manager.go:128-140 | for all credentials and schedules no file shrinks iff the environment never lets a file be written that cannot be read |
| CredentialProtocol.MemoryIsDurable | pkg/auth/manager.go:114-355 | whatever is cached or was ever returned is no newer than its file |
| CredentialProtocol.CrashLosesNothing | pkg/auth/manager.go:110-355 | whatever is returned after a crash is at least as new as everything returned for that key before it |
| CredentialProtocol.OneRefreshPerKey | pkg/auth/manager.go:299-347 | at most one thread runs the refresh of a key, and nobody waits for a flight without a leader |
| RevocationProtocol.RevokedGetReturnsIff | pkg/auth/manager.go:202-355 | in every interleaving, from an effective Invalidate until a new credential of the key is published or a crash, a Get of it returns a credential iff it was already on its way out with it at the Invalidate, or led or joined a flight that was about to land with it |
| RevocationProtocol.RevokedGetsFail | pkg/auth/manager.go:202-355 | an Invalidate that catches no credential of the key on its way out lets none out |
| RevocationProtocol.JoinedFlightReturnsRejected | pkg/auth/manager.go:293-347 | a run in which a Get that began after the Invalidate joins such a flight and returns the rejected credential |
| CredentialProtocol.CacheMayGoBack | pkg/auth/manager.go:114-125 | a concrete interleaving in which readers see the generation go back |
| CredentialOrder.CacheNeverGoesBackIff | pkg/auth/manager.go:114-347 | over every run without a crash or a blind overwrite, the cached generation of a key never goes back iff no publication of it follows one that was written or loaded later and is newer |
| TelemetryWriter.Writer.Enqueue | pkg/storage/writer.go:180-194 | a record is admitted iff the queue is open and has room or a waiting receiver |
| TelemetryWriter.Writer.Finish | pkg/storage/writer.go:249-294 | over a closed queue the worker's loop exits by steps of the machine, having handed over everything accepted |
| TelemetryWriter.AdmissionIs | pkg/storage/writer.go:180-194 | in every reachable state a record is refused as late iff Close was called, for want of room iff the queue holds its capacity and no receiver waits, and otherwise accepted as the newest |
| TelemetryWriter.DrainsUntil | pkg/storage/writer.go:276-294 | a draining worker takes the oldest record until the batch is full or nothing waits |
| TelemetryWriter.NothingLostOrRepeated | pkg/storage/writer.go:180-294 | in every interleaving accepted records are the batches, the worker's batch and the queue, in order; queue and batches stay within their bounds |
| TelemetryWriter.CloseHandsOverEverything | pkg/storage/writer.go:229-264 | when Close returns, the batches are exactly what was accepted; it reports an error iff some batch of the writer's life failed or the database did not close, and names the first failed batch |
| TelemetryWriter.OldErrorIsReported | pkg/storage/writer.go:229-264 | Close reports a batch that failed long before it |
| TelemetryWriter.ClosedAcceptsNothing | pkg/storage/writer.go:180-194 | nothing is accepted after Close |
| TelemetryWriter.WorkerExits | pkg/storage/writer.go:249-294 | once the queue is closed the worker exits within 3 * queue + 3 of its own steps |
| ProviderStore.RuntimeProviderStore.Add | pkg/server/providers.go:389-414 | an accepted lane is persisted and then published; otherwise nothing changes |
| ProviderStore.RuntimeProviderStore.AddCustom | pkg/server/providers.go:423-451 | the same for a custom lane |
| ProviderStore.RuntimeProviderStore.Remove | pkg/server/providers.go:455-481 | the same for a removal |
| ProviderStore.RuntimeProviderStore.Load | pkg/server/providers.go:486-515 | memory becomes what the file says |
| ProviderStore.RuntimeProviderStore.ApplyStored | pkg/server/providers.go:238-247 | the loop, in any order, sorts every entry into the right map |
| ProviderStore.RuntimeProviderStore.PersistState | pkg/server/providers.go:630-655 | the loops, in any order, write the projection of the maps about to be published |
| ProviderStore.RestartsDoNotMatter | pkg/server/providers.go:366-481 | over any run with write failures, loads and restarts, file and memory are exactly the acknowledged registrations, as if no load or restart had happened; the key sets stay disjoint |
| ProviderStore.LoadThenPersistIff | pkg/server/providers.go:96-153 | loading any file and persisting writes the same file iff every entry is canonical |
| ProviderStore.FreebuffSurvives | pkg/server/providers.go:521-560 | a restored lane has an actor only if it was registered as Freebuff, and then whenever a builder is installed |
| ProviderStore.EnrichIdempotent | pkg/server/providers.go:361-384 | enriching twice is enriching once, for every builder |
| ProviderStore.FilledIn | pkg/server/providers.go:344-384 | what an added lane is given: credentials, token file, discovery flag and actor, and nothing else |
| ProviderStore.AcceptedIff | pkg/server/providers.go:259-275 | which lanes and custom lanes are accepted, by the letters of their trimmed name, the base URL and the type |
| ProviderStore.RestartEqualsLiveIff | pkg/server/providers.go:361-384 | a lane just added equals the one a restart restores iff nothing it carries is unpersisted and the builder builds the same actor on both offers |
| ProviderStore.ValidateIsLost | pkg/server/providers.go:61-77 | the validation flag does not survive a restart |
| ProviderStore.UnreadableRestartIff | pkg/server/providers.go:208-233 | a restart that cannot read the file stays in step with it iff it is empty |
| ProviderStore.UnreadableRestartForgets | pkg/server/providers.go:217-223 | a run after which nothing is served while the file holds a lane |
| ProviderStore.DeletedFileIff | pkg/server/providers.go:494-503 | loading a deleted file empties memory iff there were no custom lanes |
| ProviderStore.DeletedFileIsServed | pkg/server/providers.go:494-503 | a run after which a custom lane of a deleted file is served |
| ProviderStore.StoredNameOkIff | pkg/server/providers.go:259-275 | the stored lane name is well formed iff it had no blanks around it |
| ProviderStore.BlankNameIsStored | pkg/server/providers.go:389-408 | a lane name with a blank is accepted and stored |
| Router.FindLane | pkg/server/router.go:106-116 | the loop returns the first lane whose prefix matches, or the error when that one is excluded |
| Router.PrefixIsFirstMatch | pkg/server/router.go:106-116 | the first registered matching name decides, excluded or not |
| Router.RoutesIff | pkg/server/router.go:63-122 | an id routes to a lane iff it is not disabled, belongs to that lane (by the catalog, or else as the first registered name it begins with in any case), and the lane is registered and not excluded |
| Router.RouteErrorsIff | pkg/server/router.go:63-122 | exactly when each error is given |
| Router.ExclusionNeverDetours | pkg/server/router.go:63-122 | excluding lanes turns the answer into an error or leaves it alone |
| Router.BareIdsNeedAnAlias | pkg/server/router.go:52-62 | an id without a slash that is no alias never routes |
| Router.KillSwitchReach | pkg/server/server.go:497-533 | disabling an alias disables its canonical id iff that id is not an alias itself, or is disabled on its own account |
| Router.DisabledAliasStillRoutes | pkg/server/server.go:497-533 | a disabled alias whose canonical id still routes |
| Dispatch.Dispatcher.Dispatch | pkg/server/handlers.go:588-1007 | the failover loop has exactly the effects of one routing decision and at most one call |
| Dispatch.Dispatcher.StreamRest | pkg/server/handlers.go:857-921 | the streaming loop forwards, notes and stops as its fold over the events says |
| Dispatch.DispatchDiscipline | pkg/server/handlers.go:588-1007 | one call at most, to the lane the model belongs to; exactly one status (none only if the client left first), no call after it and no body before it; the request row before any other; one terminal row whenever a lane was called |
| Dispatch.DispatchStatusIff | pkg/server/handlers.go:588-1007 | which status is sent: 404, the outcome of the call, 409 or 502, and exactly when |
| Dispatch.DispatchRowsIff | pkg/server/handlers.go:588-1007 | which attempt row, and for all but streams which terminal row, is recorded, and exactly when |
| Dispatch.StreamReasonIs | pkg/server/handlers.go:857-942 | the reason recorded for a stream: the upstream error's kind, or the first thing that went wrong |
| Dispatch.StreamCompleteIff | pkg/server/handlers.go:857-942 | stream_complete is recorded iff every event up to the end, or up to an upstream error of empty kind, was encoded with the client there and Close succeeded; which usage and finish reason are recorded |
| Dispatch.CutStreamIsComplete | pkg/server/handlers.go:870-942 | a stream cut by an upstream error is recorded as complete and its usage is not |
| Dispatch.CompleteStreamsSentAll | pkg/server/handlers.go:857-942 | a stream recorded as complete sent each of those events in order and nothing else |
| ToolSchema.ValidateNode | pkg/provider/antigravity/antigravity.go:432-533 | visiting maps in any order, accepts iff the specification does, and otherwise names a node that breaks a rule |
| ToolSchema.AcceptsIff | pkg/provider/antigravity/antigravity.go:432-533 | a schema is accepted iff every node reachable through properties, items, definitions and $defs meets both rules |
| ToolSchema.AcceptedIff | pkg/provider/antigravity/antigravity.go:432-533 | in the words of a schema: accepted iff it breaks no rule itself and its items and every entry of properties, definitions and $defs are accepted |
| ToolSchema.SanitizeAt | pkg/provider/antigravity/antigravity.go:384-419 | sanitizing commutes with walking down any path, and leaves nothing below $defs |
| ToolSchema.KeepsAllowedKeys | pkg/provider/antigravity/antigravity.go:350-419 | a node keeps exactly its whitelisted keys, and what is no sub-schema unchanged |
| ToolSchema.OnlyAllowedKeys | pkg/provider/antigravity/antigravity.go:350-419 | every node reachable in a sanitized schema has whitelisted keys only |
| ToolSchema.SanitizeIdempotent | pkg/provider/antigravity/antigravity.go:384-419 | sanitizing twice is sanitizing once |
| ToolSchema.SanitizedAcceptedIff | pkg/provider/antigravity/antigravity.go:384-533 | a sanitized schema is accepted iff the nodes reachable without $defs meet both rules |
| ToolSchema.SanitizeKeepsAccepted | pkg/provider/antigravity/antigravity.go:384-533 | an accepted schema stays accepted |
| ToolSchema.DefsHideViolations | pkg/provider/antigravity/antigravity.go:515-530 | a concrete schema that is rejected, and accepted once sanitized |
| CacheMarks.DecodeItems | pkg/codec/anthropic.go:139-227 | the loop yields each recognized block, followed by a marker when it carries cache_control |
| CacheMarks.IRToHubPrompt | pkg/provider/hublane/convert.go:84-171 | the loop with its moving target equals the fold the theorems are about |
| CacheMarks.ConvertOneIs | pkg/provider/hublane/convert.go:84-183 | any message becomes its tool results and then its other parts, each marker attached to the block it follows |
| CacheMarks.MarksSurvive | pkg/codec/anthropic.go:96-232 | decoding any request and converting it gives the hub messages read straight off the request, marked where the blocks carry cache_control |
| CacheMarks.BreakpointsAreCached | pkg/provider/hublane/convert.go:39-71 | read back from the Meta of a message's own parts, the breakpoints are exactly the parts whose block carries cache_control, once and in order |
| CacheMarks.RequestReachesMeta | pkg/codec/anthropic.go:96-232 | from the request to every hub message, tool results included: each part says what its item says, key by key, and the breakpoints listed in Meta are exactly the parts whose item carries cache_control |

## Left out

- JSON bytes: printing and parsing are parameters; the round trips assume that printing is injective (and, for frames, newline-free and non-empty).
- Write errors inside the stream encoders: every write succeeds there; `Dispatch` models a failing encoder as part of its input.
- Line length limits of the two SSE readers, and characters outside ASCII in trimming, case folding and name checks.
- ClientObservation.StreamObservation.ProcessChunk: does not collect the usage totals, because the two encoders report usage differently and their comparison is about content.
- GrokCredits.ParseResponse: stops at the window; its label, remaining share, seconds left and detail line are arithmetic and formatting on it.
- TelemetryWriter.Writer.Finish: covers the worker's loop over a queue that is already closed, because waiting on an open queue interleaves with producers; the machine covers that.
- Breaker.CircuitBreaker.RecordFailure: its two updates of the manager, like those of a limit, are one step; updates by others fall between calls only.
- Quota dashboards, the other quota parsers, detail lines and metadata formatting.
- Fixed32 and fixed64 values are kept as bytes; turning one into a rounded percentage is a parameter. Floating point appears only as `real`, there and in the jitter bound.
- `SetSnapshot`, `SetNow` and the options of the state manager; its computed but unused jittered cooldown. The catalog's score maps grow in number but are not written, as nothing in the repository writes one. The closures of the quota observer and the scheduler, which rewrite one provider's entry, have no operation of their own.
- Failure and success counters, durations and clock readings are unbounded integers; snapshot versions and credential generations wrap at 2^64.
- Inside the credential manager, reading the old file and renaming the new one over it is one atomic step. The first read of `Get`, its two lock sections, the end of its flight and its return are separate steps. A flight that ends can no longer be joined and has its result for all who wait, in one step.
- Refreshers, upstream calls, SQL, file permissions and directories are outcomes chosen by the environment.
- Credentials returned by Gets that overlap are not ordered: a caller that joins a flight gets its leader's credential, which may be older than one returned meanwhile.
- A second caller of `Close` on the telemetry writer, which returns at once without waiting, changes nothing in the machine and is not followed further.
- Registering restored lanes and their model discovery; the compiled-in vendor defaults of a lane's config; cleaning of the credential path.
- Classifying an error by its text: a parameter of `Dispatch`. Request timeouts, option building and upstream model names.
- The router, registry, catalog and state are fixed during one dispatch; a registry that changes between two attempts is not modelled.
- Error messages of the schema validator beyond the node they name.
- `sanitizeReasoning`, which drops reasoning blocks but keeps their markers, is not applied between decoding and conversion.
- The options, tools and extra fields of a decoded request.
