# Interview platform: verified model

An AI interview service calls language-model providers through a gateway, keeps a running memory of each call, and
hands transcripts to a platform that owns the interview sessions. This project models the parts of the two whose
correctness depends on state, time or interleaving, and proves what they promise. `dafny verify dfyconfig.toml`
checks everything.

| file | component |
|---|---|
| `CircuitBreaker.dfy` | per-provider cooldowns, the discipline of an event log, the failure-rate bound |
| `GatewaySpec.dfy`, `Gateway.dfy` | what `run`, `run_structured` and `run_stream` do, as functions and as the loops that do it |
| `GatewayTheorems.dfy`, `StructuredTheorems.dfy`, `GatewaySafety.dfy` | what that means for one call and for any sequence of calls |
| `GatewayVerdicts.dfy` | what any call does to the breaker, from a table of its tiers' outcomes |
| `GatewayOverlap.dfy`, `OverlapRate.dfy`, `OverlapTight.dfy` | the same calls interleaving at their awaits |
| `UseCasePolicies.dfy`, `RoutingConfig.dfy`, `RoutingReload.dfy` | the routing table: reordering, loading, the mtime cache |
| `DiscoveryFields.dfy`, `DiscoveryLlm.dfy`, `GatewayLlm.dfy` | the two background-memory protocols |
| `TranscriptDelivery.dfy`, `InterviewIngest.dfy` | outbox, upserting ingest, retention |
| `InterviewSessions.dfy` | join and end requests interleaving at database statements |
| `LatencyMetrics.dfy`, `MetricsLog.dfy`, `MetricsWs.dfy` | bounded structures against unbounded references |
| `MetadataSigning.dfy` | the signed canonical string on both sides |

How it is modelled:

- Code that updates state is a class with the same fields, and each method is proved to make one step of a
  specification function over values; the theorems are about every run of that function. For the asyncio protocols a
  method is one stretch between two awaits, so runs of steps are the interleavings.
- The outside world is an argument: clock readings, provider replies, failures and timeouts form the script of a
  gateway call; faults, lost requests and crashes are actions. Times are reals or integers.
- Beside the specification functions stand theorems that say the same in plain values, without naming them: among
  them `RejectedIsLeftAlone`, `BreakerFollowsVerdicts`, `ServedStreamIsExact`, `LoadedIsTheFile`, `LoadsIff`,
  `LivekitModeIsExact`, `WindowIsTheLastTen`, `IngestStoresOneSession`, `FlushIsExact`, `ClaimedInTime`,
  `EndedViewIsExact`, `StoringKeepsPlaces`, `ReadsTheLastNews` and `AcceptsIffIssued`.
- An action that is not possible in a state does nothing, so theorems about all action sequences are theorems about
  all runs.
- Where a natural claim is false of the code, the exact condition is proved, with a run or an input that breaks it:
  calls inside a cooldown (`CallStartsIff`, `CallInsideCooldown` with `LateSuccess`, `RetryIntoCooldown` and
  `LateFailures`), silent streams (`SilentStream` with `EmptyStreamIsSilent`), stale routing (`RoutesFreshlyIff` with
  `LeavingLivekitModeIsStale`) and empty tables (`UsableIffLastAttemptLoaded` with `BadFileEmptiesTheTable`), failed
  extractions (`FailedTranscriptIsNotRetried` with `OneFailure`), overwritten transcripts (`NoTranscriptLoss` with
  `LateRequestOverwrites`), extended retention (`RedeliveryExtendsRetentionIff` with `FlushRevivesExpired`), recordings
  that outlive their session (`ClosedSessionIsStoppedIff`) and sessions ended twice (`EndedTwice`), both with
  `StaleEndsLeaveRecording`, dropped replies (`ReplyIsMatchedIff` with `TwentyMoreLoseIt`), lost broadcasts
  (`DeliversExactlyOnce` with `CrowdedPollLoses`), and shared signatures (`SharedIffSeparator`,
  `AcceptedForAnotherIff`, both with the other room as their witness). The failure bound of calls that overlap depends
  on how many of them are in flight at a time (`OverlappingFailureRate` with `OverlappingBoundIsTight`).

Where the code and its documentation disagree the model follows the code: a failed extraction is not retried for the
same transcript although the comment in `_extract` expects the next call to do so; a stream whose tiers are all
cooling ends silently although `run` raises; `_structured_attempt` does not classify a double failure although the
docstring of `_handle_provider_exc` says that all three paths do. Where `verify_metadata_signature` raises although its
docstring says that it never does, the model says false (see below).

## Model

| member | source | states |
|---|---|---|
| `CircuitBreaker.ProviderCircuitBreaker.Get` | ai-service/app/model_gateway/circuit_breaker.py:46-49 | the first lookup inserts a fresh state and changes no provider's health |
| `CircuitBreaker.ProviderCircuitBreaker.IsAvailable` | ai-service/app/model_gateway/circuit_breaker.py:51-56 | available exactly when the cooldown is over; the health is unchanged |
| `CircuitBreaker.ProviderCircuitBreaker.RecordSuccess` | ai-service/app/model_gateway/circuit_breaker.py:58-62 | clears this provider's count and cooldown, no other's |
| `CircuitBreaker.ProviderCircuitBreaker.RecordRateLimit` | ai-service/app/model_gateway/circuit_breaker.py:64-75 | a cooldown of `cooldown_s` from now, count cleared; with the default it is the RateLimited event |
| `CircuitBreaker.ProviderCircuitBreaker.RecordFailure` | ai-service/app/model_gateway/circuit_breaker.py:77-89 | count plus one, and a new 60 s cooldown from the third failure on; the count survives a cooldown |
| `CircuitBreaker.ProviderCircuitBreaker.CooldownRemaining` | ai-service/app/model_gateway/circuit_breaker.py:91-95 | never negative, zero exactly when available, otherwise the time to the end of the cooldown |
| `CircuitBreaker.HeldUntilCooldownEnds` | ai-service/app/model_gateway/circuit_breaker.py:51-56 | in an orderly log nothing happens to a provider before its cooldown is over |
| `CircuitBreaker.CooldownRespected` | ai-service/app/model_gateway/circuit_breaker.py:51-89 | in an orderly log every later event of a provider is 300 s after its rate limit and 60 s after a tripping failure |
| `CircuitBreaker.FailuresTakeTime` | ai-service/app/model_gateway/circuit_breaker.py:77-89 | with c failures counted, n more without success or rate limit take at least 60 s for each one from the third on |
| `CircuitBreaker.FailureRateBound` | ai-service/app/model_gateway/circuit_breaker.py:77-89 | from a fresh state, at most 3 + floor(T/60) failures in T seconds without success or rate limit |
| `CircuitBreaker.StretchFailureRate` | ai-service/app/model_gateway/circuit_breaker.py:77-89 | the same bound for any stretch of a longer log in which the provider starts fresh |
| `CircuitBreaker.FailureRateBoundIsTight` | ai-service/app/model_gateway/circuit_breaker.py:77-89 | for every multiple of 60 s an orderly log of that length meets the bound |
| `CircuitBreaker.PassesIffLifted` | ai-service/app/model_gateway/circuit_breaker.py:51-89 | inside a cooldown that a log entry set, a check of the provider passes if and only if a later entry decided it anew and its own cooldown is over |
| `CircuitBreaker.WhatLifts` | ai-service/app/model_gateway/circuit_breaker.py:58-89 | such an entry is a recorded success or, after a rate limit, the third of three failures |
| `Gateway.ModelGateway.HandleProviderExc` | ai-service/app/model_gateway/gateway.py:152-173 | rate limits and missing keys count as rate limits, everything else as a failure; one breaker update |
| `Gateway.ModelGateway.SetLivekitInferenceMode` | ai-service/app/model_gateway/gateway.py:177-212 | each voice use case in the table gets exactly the LiveKit tiers of the given models; every other entry and the key set stay |
| `Gateway.LivekitModeIsExact` | ai-service/app/model_gateway/gateway.py:177-212 | the four voice use cases in the table get the primary model and then the fallbacks in their order, with the given timeout; nothing else changes |
| `Gateway.PrintedLists` | ai-service/app/model_gateway/gateway.py:203-206 | a list of names in the rationale is printed as Python prints it |
| `Gateway.ModelGateway.Run` | ai-service/app/model_gateway/gateway.py:215-261 | the loop does exactly what RunFrom says: result, breaker updates in order, metrics; KeyError for an unknown use case touches nothing |
| `Gateway.ModelGateway.StructuredAttempt` | ai-service/app/model_gateway/gateway.py:315-350 | two tries in order, stops at the first valid reply, one breaker update; a double failure is never a rate limit |
| `Gateway.ModelGateway.StructuredChain` | ai-service/app/model_gateway/gateway.py:287-313 | the loop does exactly what StructuredFrom says |
| `Gateway.ModelGateway.RunStructured` | ai-service/app/model_gateway/gateway.py:263-285 | the chain's result with exactly one metrics record if a value came out, none otherwise |
| `Gateway.ModelGateway.RunStream` | ai-service/app/model_gateway/gateway.py:352-367 | the generator does exactly what StreamFrom says from tier 0 on, for a caller that takes any number of chunks |
| `Gateway.ModelGateway.StreamChain` | ai-service/app/model_gateway/gateway.py:369-392 | the cooldown loop and the recursion on the remaining tiers do what StreamFrom says, and terminate |
| `Gateway.ModelGateway.OpenStream` | ai-service/app/model_gateway/gateway.py:394-431 | which failure passes the tier over, whether a call was made, and the one breaker update for it |
| `Gateway.ModelGateway.StreamTier` | ai-service/app/model_gateway/gateway.py:394-445 | an available tier serves, ends silently, raises on the last tier, or hands on to the next one, as StreamFrom says |
| `Gateway.ModelGateway.StreamServing` | ai-service/app/model_gateway/gateway.py:447-468 | chunks are passed on until the caller stops, the provider fails or the stream ends; success is recorded only at a normal end, metrics always once |
| `GatewayTheorems.RunShape` | ai-service/app/model_gateway/gateway.py:226-261 | a run is the breaker log of the passed-over tiers followed by the first serving tier's call and success, or the last exception |
| `GatewayTheorems.RunAnswersFromFirstWorkingTier` | ai-service/app/model_gateway/gateway.py:215-261 | `run` returns the reply of the first tier that is out of cooldown, constructible and answers, with one metrics record; it raises exactly when there is none, and then what the last tier out of cooldown raised, or RuntimeError if all were cooling |
| `GatewayTheorems.StreamShape` | ai-service/app/model_gateway/gateway.py:369-468 | a stream is the breaker log of the passed-over tiers followed by what one tier served, or nothing |
| `GatewayTheorems.SingleSource` | ai-service/app/model_gateway/gateway.py:369-468 | everything yielded is a prefix of one tier's stream, the first that serves; whole at a normal end; the one metrics record counts exactly the yielded characters |
| `GatewayTheorems.ServedStreamIsExact` | ai-service/app/model_gateway/gateway.py:369-468 | the whole of a stream that tier k serves: chunks, ending, metrics, and events; a success is recorded only for a stream passed on to its end, otherwise the provider stays as the earlier tiers left it |
| `GatewayTheorems.UnservedStreamIsExact` | ai-service/app/model_gateway/gateway.py:369-431 | the whole of a stream that no tier serves: it raises only if the last tier was called, a TimeoutError if its first chunk is later than the tier's own timeout or else four seconds, otherwise the provider's exception |
| `GatewayTheorems.SilentStream` | ai-service/app/model_gateway/gateway.py:381-417 | no output and no exception if and only if the first tier to answer sends an empty stream, or none answers and the last tier's call did not itself fail |
| `GatewayTheorems.EmptyStreamIsSilent` | ai-service/app/model_gateway/gateway.py:414-417 | a silent run: a fresh one-tier chain whose stream is empty |
| `GatewayTheorems.PathAgreement` | ai-service/app/model_gateway/gateway.py:215-261 | with one-chunk providers, no timeout and a drained stream, `run` and `run_stream` make the same breaker updates in the same order, and the stream says what `run` returns |
| `StructuredTheorems.AttemptShape` | ai-service/app/model_gateway/gateway.py:315-350 | a tier yields a value exactly if it is available, constructible and one of two replies validates; one call if the first does, two if not, none without a client; one breaker update unless skipped |
| `StructuredTheorems.AttemptsLogCounts` | ai-service/app/model_gateway/gateway.py:287-350 | k tiers: at most 2k calls and exactly as many breaker updates as tiers tried |
| `StructuredTheorems.StructuredShape` | ai-service/app/model_gateway/gateway.py:287-313 | the tiers before the answering one did not validate, and their logs precede its log |
| `StructuredTheorems.StructuredMetrics` | ai-service/app/model_gateway/gateway.py:263-285 | the metrics record follows from the answering tier and its retries |
| `StructuredTheorems.StructuredAnswersFromFirstValidTier` | ai-service/app/model_gateway/gateway.py:287-350 | the value is the first valid reply of the first tier that has one; NoValidOutput exactly when no tier has; at most 2 calls per tier; one update per tried tier |
| `GatewaySafety.RunIsOrderly` | ai-service/app/model_gateway/gateway.py:226-250 | nothing `run` does to a provider falls into its cooldown, also when it fills several tiers |
| `GatewaySafety.StructuredIsOrderly` | ai-service/app/model_gateway/gateway.py:297-350 | the same for `run_structured` |
| `GatewaySafety.StreamIsOrderly` | ai-service/app/model_gateway/gateway.py:381-468 | the same for `run_stream` |
| `GatewaySafety.WholeLogIsOrderly` | ai-service/app/model_gateway/gateway.py:215-468 | the log of any sequence of non-overlapping calls of the three kinds is orderly |
| `GatewaySafety.CooldownSafety` | ai-service/app/model_gateway/gateway.py:215-468 | over any such run no network call to a provider starts within 300 s of its rate limit or 60 s of its tripping failure |
| `GatewaySafety.FailureRate` | ai-service/app/model_gateway/gateway.py:226-250 | in any stretch of such a run that finds the provider fresh and sees no success or rate limit of it, at most 3 + floor(T/60) failures |
| `GatewayVerdicts.TierByTier` | ai-service/app/model_gateway/gateway.py:152-173 | when a call of any of the three kinds gets to tier k, the breaker is what a table of the tiers' outcomes says: RateLimitError and KeyError give 300 s with no failure counted, any other exception and a double structured failure count one more and from the third on give 60 s |
| `GatewayVerdicts.BreakerFollowsVerdicts` | ai-service/app/model_gateway/gateway.py:152-468 | the same for the whole call, up to the tier that ends it: a success clears the provider, an empty, interrupted or closed stream leaves it |
| `GatewayVerdicts.EveryCallEnds` | ai-service/app/model_gateway/gateway.py:215-468 | every call ends at some tier or at the end of its chain |
| `GatewayVerdicts.RejectedIsLeftAlone` | ai-service/app/model_gateway/gateway.py:152-173 | after a RateLimitError or KeyError at construction, in the call or in the wait for the first chunk, nothing is done to the provider for 300 s, by the rest of the call or by any later one |
| `GatewayOverlap.AloneIsTheCall` | ai-service/app/model_gateway/gateway.py:215-468 | a task that runs from await to await without interruption does to the providers exactly what its `run`, `run_structured` or `run_stream` does; results and metrics are not compared |
| `GatewayOverlap.StepKeepsInv` | ai-service/app/model_gateway/gateway.py:215-468 | in every interleaving each log entry belongs to a tier that was out of cooldown when its task checked it, each retry repeats such a call, and a task checks its next tier after recording the last one |
| `GatewayOverlap.CallInsideCooldown` | ai-service/app/model_gateway/gateway.py:215-468 | in every run of overlapping calls, a call that starts inside a cooldown is the unchecked retry of a call begun before it, or the cooldown was lifted by a late success or, after a rate limit, by three late failures |
| `GatewayOverlap.CallStartsIff` | ai-service/app/model_gateway/gateway.py:215-468 | the next stretch of a task starts a call to a cooling provider if and only if it is such a retry, or the tier can be constructed and the cooldown was lifted |
| `GatewayOverlap.LateSuccess` | ai-service/app/model_gateway/gateway.py:226-257 | a run of three overlapping calls: a late success, and a call two seconds into a cooldown of 300 |
| `GatewayOverlap.RetryIntoCooldown` | ai-service/app/model_gateway/gateway.py:331-344 | a run of two overlapping calls without any success: the retry falls into the cooldown |
| `GatewayOverlap.LateFailures` | ai-service/app/model_gateway/gateway.py:226-250 | a run in which three late failures cut a cooldown of 300 s to 60 |
| `OverlapRate.CoolsAfterTrip` | ai-service/app/model_gateway/circuit_breaker.py:77-89 | after a trip, without success or rate limit, the cooldown lasts at least 60 s from it, however many late failures follow |
| `OverlapRate.FewerThanUnderWay` | ai-service/app/model_gateway/gateway.py:226-250 | a failure and the later ones of tries that were in flight at it are no more than the tries of the provider under way at it: one a task, and not the one that failed |
| `OverlapRate.OverlappingFailureRate` | ai-service/app/model_gateway/gateway.py:226-250 | in any stretch of a run of any number of overlapping calls that finds the provider fresh and sees no success or rate limit of it, with at most k tries of it under way at one time, at most 2 + k + k * floor(T/60) failures; for k = 1 the bound of the breaker itself |
| `OverlapRate.UnderWayIsAwaiting` | ai-service/app/model_gateway/gateway.py:226-250 | the tries that a run ever shows to have been under way at an entry are the entry's own and those of tasks that awaited a reply then |
| `OverlapTight.OverlappingBoundIsTight` | ai-service/app/model_gateway/gateway.py:226-250 | for every k and every number of minutes a run with at most k tries under way at a time meets the bound |
| `UseCasePolicies.PolicyTable.GetPolicy` | ai-service/app/model_gateway/use_case_policy.py:77-80 | the entry, or None for the KeyError |
| `UseCasePolicies.PolicyTable.ApplyProviderPriority` | ai-service/app/model_gateway/use_case_policy.py:93-107 | every named chain reordered, all else unchanged; at the first missing use case it stops with the earlier ones done |
| `UseCasePolicies.PrioritisedIsExact` | ai-service/app/model_gateway/use_case_policy.py:93-107 | named chains are grouped by the order, rationales, keys and all other chains stay |
| `UseCasePolicies.ReorderIsGrouping` | ai-service/app/model_gateway/use_case_policy.py:83-90 | the keyed sort equals the tiers of each provider of `order` in chain order, then the unmentioned ones in chain order; a repeated provider counts where it is named last |
| `UseCasePolicies.ReorderIsStable` | ai-service/app/model_gateway/use_case_policy.py:83-90 | the tiers of each provider, and the unmentioned tiers, keep their relative order |
| `UseCasePolicies.ReorderIsPermutation` | ai-service/app/model_gateway/use_case_policy.py:83-90 | no tier is added or lost |
| `UseCasePolicies.ReorderIsIdempotent` | ai-service/app/model_gateway/use_case_policy.py:83-90 | reordering again changes nothing, although the keys depend on positions |
| `UseCasePolicies.AnySortAgrees` | ai-service/app/model_gateway/use_case_policy.py:83-90 | any arrangement of the enumerated tiers in key order is the grouping, whatever the sorting algorithm |
| `UseCasePolicies.SortedIsUnique` | ai-service/app/model_gateway/use_case_policy.py:83-90 | the key order determines the arrangement |
| `RoutingConfig.NonEmptyChain` | ai-service/app/model_gateway/routing_config.py:76-87 | accepts exactly the non-empty chains without a repeated (provider, model) |
| `RoutingConfig.MissingUseCases` | ai-service/app/model_gateway/routing_config.py:95-100 | none missing exactly if all nine required use cases are present |
| `RoutingConfig.PolicyIsValid` | ai-service/app/model_gateway/routing_config.py:54-87 | accepts exactly known providers, positive timeouts and a valid chain |
| `RoutingConfig.BuildTable` | ai-service/app/model_gateway/routing_config.py:126-139 | one policy per use case of the file, or None exactly if one is invalid |
| `RoutingConfig.LoadRoutingConfig` | ai-service/app/model_gateway/routing_config.py:103-139 | the table of the file, or None for every unreadable, malformed, invalid or incomplete file |
| `RoutingConfig.LoadedIsTheFile` | ai-service/app/model_gateway/routing_config.py:126-139 | the table has the file's use cases, each with the file's rationale and tiers in the file's order: same model, same timeout, the provider with that string value |
| `RoutingConfig.NamedByValue` | ai-service/app/model_gateway/providers.py:30-36 | a provider is found by its string value and by nothing else |
| `RoutingConfig.LoadsIff` | ai-service/app/model_gateway/routing_config.py:24-139 | exactly the files load that parse, have the nine use cases, and only non-empty chains without a repeated (provider, model), with known providers and positive timeouts |
| `RoutingConfig.LoadedTablesAreComplete` | ai-service/app/model_gateway/routing_config.py:76-139 | a loaded table has all required use cases and only non-empty chains of distinct tiers with positive timeouts |
| `RoutingReload.Worker.ReloadIfChanged` | ai-service/app/voice_agent/worker.py:162-191 | one dispatch: cached by mtime, otherwise clear, load, reorder, remember, override; a load error leaves the table empty |
| `RoutingReload.CachedState` | ai-service/app/voice_agent/worker.py:162-191 | after any run over good files the table is the current file in the order of the dispatch that loaded it, under the last LiveKit override since |
| `RoutingReload.ReloadRefinesFreshLoad` | ai-service/app/voice_agent/worker.py:162-191 | the cache is invisible to a LiveKit dispatch, and to another one if no LiveKit dispatch came since the load and the priority is unchanged |
| `RoutingReload.FixedSettingsReload` | ai-service/app/voice_agent/worker.py:162-191 | with one voice provider and one priority every dispatch sees exactly a fresh load, reorder and override |
| `RoutingReload.FreshTablesAreUsable` | ai-service/app/voice_agent/worker.py:184-191 | fresh tables have every required use case, no empty chain, and the file's own chains for non-voice use cases |
| `RoutingReload.FreshRoutes` | ai-service/app/voice_agent/worker.py:162-191 | where a fresh table routes each use case: non-voice as the file says; voice in LiveKit mode to the configured models with eight seconds each, otherwise to the file's tiers in the order of the priority |
| `RoutingReload.RoutesFreshlyIff` | ai-service/app/voice_agent/worker.py:162-191 | after any run over good files, a dispatch outside LiveKit mode routes as a fresh load would if and only if the last LiveKit tiers since the load, or else the order it was loaded in, are what its own priority makes of each voice chain |
| `RoutingReload.LeavingLivekitModeIsStale` | ai-service/app/voice_agent/worker.py:171-180 | a stale run: LiveKit mode is switched off under any unchanged file that names another provider for a voice use case |
| `RoutingReload.UsableIffLastAttemptLoaded` | ai-service/app/voice_agent/worker.py:162-191 | over any run with missing, broken and restored files, all required use cases have a chain if and only if the last file that was tried could be loaded; otherwise the table is empty |
| `RoutingReload.BadFileEmptiesTheTable` | ai-service/app/voice_agent/worker.py:181-186 | after any run, a bad file empties the table and restoring the old file under its old mtime does not bring it back |
| `DiscoveryFields.MergeNamed` | ai-service/app/voice_agent/discovery_fields.py:72-83 | the loop over any list of names: latest wins, but only where it is not null |
| `DiscoveryFields.Merge` | ai-service/app/voice_agent/discovery_fields.py:72-83 | the loop over all sixteen names is the field-wise merge |
| `DiscoveryFields.MergeIsAMonoid` | ai-service/app/voice_agent/discovery_fields.py:72-83 | merge is associative with the all-null record as identity |
| `DiscoveryFields.MissingNeverGrows` | ai-service/app/voice_agent/discovery_fields.py:68-69 | merging removes from the missing list exactly the fields the new record fills |
| `DiscoveryFields.FoldKeepsLastValues` | ai-service/app/voice_agent/discovery_llm.py:143-161 | after any mix of successes and failures each field holds the last non-null value returned for it |
| `DiscoveryLlm.DiscoveryLLM.ScheduleExtraction` | ai-service/app/voice_agent/discovery_llm.py:118-131 | one Schedule step: unchanged transcripts are ignored, a task is created unless the lock is held |
| `DiscoveryLlm.DiscoveryLLM.DrainTurn` | ai-service/app/voice_agent/discovery_llm.py:133-141 | the loop condition: snapshot and await, or unlock |
| `DiscoveryLlm.DiscoveryLLM.TaskAcquiresLock` | ai-service/app/voice_agent/discovery_llm.py:133-141 | one TaskRuns step |
| `DiscoveryLlm.DiscoveryLLM.ExtractionReturns` | ai-service/app/voice_agent/discovery_llm.py:136-161 | one ExtractionEnds step: merge if it succeeded, mark as processed in any case |
| `DiscoveryLlm.DrainLoopIsReliable` | ai-service/app/voice_agent/discovery_llm.py:118-161 | in every interleaving: no lost wake-up, extractions never outnumber accepted calls and keep their order, at rest the last accepted transcript was the last one extracted |
| `DiscoveryLlm.AtMostOneMoreExtraction` | ai-service/app/voice_agent/discovery_llm.py:133-141 | once scheduling stops at most one further extraction starts, none if nothing is due |
| `DiscoveryLlm.SlowExtractionPilesUpNothing` | ai-service/app/voice_agent/discovery_llm.py:118-141 | however many turns are scheduled while an extraction runs, no task is created and only the newest transcript is left waiting |
| `DiscoveryLlm.TaskPerIdleCall` | ai-service/app/voice_agent/discovery_llm.py:118-131 | an accepted call gets a task exactly if no extraction runs |
| `DiscoveryLlm.NewestIsNext` | ai-service/app/voice_agent/discovery_llm.py:133-161 | whatever an extraction returns, the next one starts at once exactly if a different transcript is the newest, and its own counts as processed |
| `DiscoveryLlm.DrainTerminates` | ai-service/app/voice_agent/discovery_llm.py:133-141 | without new calls every possible step uses up some work, and at rest nothing is left unprocessed |
| `DiscoveryLlm.NeverTwiceInARow` | ai-service/app/voice_agent/discovery_llm.py:133-141 | in every interleaving no transcript is extracted twice in a row, whether or not its extraction failed |
| `DiscoveryLlm.FailedTranscriptIsNotRetried` | ai-service/app/voice_agent/discovery_llm.py:118-161 | in every run at rest after a failure, scheduling leads to an extraction if and only if the transcript is non-empty and differs from the failed one |
| `DiscoveryLlm.OneFailure` | ai-service/app/voice_agent/discovery_llm.py:118-161 | such a run: one transcript, whose extraction fails |
| `DiscoveryLlm.FailureMovesOnIff` | ai-service/app/voice_agent/discovery_llm.py:133-161 | when an extraction fails, the newest accepted transcript is extracted at once if and only if it is a different one; the fields stay |
| `GatewayLlm.GatewayLLM.BuildUserPrompt` | ai-service/app/voice_agent/gateway_llm.py:118-125 | the last ten lines, and the summary unless it is empty |
| `GatewayLlm.WindowIsTheLastTen` | ai-service/app/voice_agent/gateway_llm.py:118-125 | the window has ten lines, or all if there are fewer, and they are the last ones in order |
| `GatewayLlm.SummaryIsLastAnswer` | ai-service/app/voice_agent/gateway_llm.py:118-158 | in every run the prompt's summary is the last answer the model gave; a failed call leaves it |
| `GatewayLlm.GatewayLLM.ScheduleConsolidation` | ai-service/app/voice_agent/gateway_llm.py:127-135 | one Schedule step: a task is created for six or more pending lines unless the lock is held |
| `GatewayLlm.ScheduledIff` | ai-service/app/voice_agent/gateway_llm.py:127-135 | a task exactly if at least six lines before the last ten are not folded and no consolidation runs |
| `GatewayLlm.TurnsPassARunningFold` | ai-service/app/voice_agent/gateway_llm.py:127-135 | turns that come while a consolidation runs leave the state as it is |
| `GatewayLlm.FirstFoldIsLarge` | ai-service/app/voice_agent/gateway_llm.py:127-158 | in every run the first consolidation folds at least six lines |
| `GatewayLlm.GatewayLLM.TaskAcquiresLock` | ai-service/app/voice_agent/gateway_llm.py:137-141 | one TaskRuns step: a stale task finds an empty segment and leaves |
| `GatewayLlm.GatewayLLM.ModelCallReturns` | ai-service/app/voice_agent/gateway_llm.py:142-158 | one FoldEnds step: a failure changes nothing, a success moves the count |
| `GatewayLlm.FoldedExactlyOnce` | ai-service/app/voice_agent/gateway_llm.py:127-158 | in every interleaving of fresh, stale and failing tasks the folded segments spell the transcript up to the count, which never goes down |
| `GatewayLlm.SummaryIffFolded` | ai-service/app/voice_agent/gateway_llm.py:142-158 | if the model never answers with an empty summary, there is a summary exactly if something was folded |
| `GatewayLlm.NothingFallsOutOfThePrompt` | ai-service/app/voice_agent/gateway_llm.py:118-135 | right after a turn schedules, its prompt leaves out exactly the gap between what its summary was made of and its window, and the gap has at most five lines or a consolidation is on its way; assumes non-empty answers |
| `GatewayLlm.EmptyAnswerDropsTheFolded` | ai-service/app/voice_agent/gateway_llm.py:118-158 | an empty answer takes everything folded so far out of the prompt |
| `InterviewIngest.InterviewsService.GetTenantSession` | platform/src/interviews/interviews.service.ts:399-408 | the session row, or NotFound, or Forbidden for another tenant |
| `InterviewIngest.InterviewsService.IngestTranscriptAndSummary` | platform/src/interviews/interviews.service.ts:344-397 | both rows upserted together or not at all, `candidateRef` from the session row, the audit event only on full success |
| `InterviewIngest.IngestStoresOneSession` | platform/src/interviews/interviews.service.ts:344-397 | an ingest of the tenant's own session that is not rolled back stores the payload, also when the audit write fails after it, with the new id and time for new rows only; all other ingests and all other sessions change nothing |
| `InterviewIngest.RedeliveryChangesNothing` | platform/src/interviews/interviews.service.ts:358-385 | delivering the same payload again changes no row, id or age |
| `InterviewIngest.InterviewsService.CleanupExpiredTranscripts` | platform/src/interviews/interview-retention.service.ts:22-41 | the loop over the policies removes exactly the rows older than some policy of their tenant |
| `InterviewIngest.CleanupKeepsPairs` | platform/src/interviews/interview-retention.service.ts:22-41 | transcript and summary go together, exactly when older than their own tenant's cutoff |
| `InterviewIngest.RedeliveryExtendsRetentionIff` | platform/src/interviews/interviews.service.ts:358-385 | a redelivery before a cleanup leaves what stays unchanged if and only if the session still has its rows, the ingest does not commit, or the new rows expire at once |
| `TranscriptDelivery.Worker.WriteToOutbox` | ai-service/app/voice_agent/transcript_delivery.py:33-37 | the session's file holds the payload, other files stay |
| `TranscriptDelivery.Worker.DeliverTranscript` | ai-service/app/voice_agent/transcript_delivery.py:61-73 | one request; the file is gone if it was confirmed and holds the payload otherwise |
| `TranscriptDelivery.Worker.FlushPending` | ai-service/app/voice_agent/transcript_delivery.py:76-92 | over the sorted listing every readable file is posted once, in that order, and exactly the confirmed ones are removed |
| `TranscriptDelivery.FlushIsExact` | ai-service/app/voice_agent/transcript_delivery.py:76-92 | what stays are the unreadable files and the unconfirmed ones; each readable file is posted once with its own payload, in the order of the listing |
| `TranscriptDelivery.RunKeepsInv` | ai-service/app/voice_agent/transcript_delivery.py:61-92 | the disk holds the last payload written unless it was committed; the tables hold the last payload committed unless it expired |
| `TranscriptDelivery.NoTranscriptLoss` | ai-service/app/voice_agent/transcript_delivery.py:61-92 | in every run of deliveries, losses, crashes and flushes the payload of a session is in the outbox, or stored by the platform, or was removed by retention; the payloads of one session are stored alike |
| `TranscriptDelivery.NothingWrittenIsForgotten` | ai-service/app/voice_agent/transcript_delivery.py:61-92 | for any payloads: the last one written is on the disk or was committed, and the tables hold the one committed last |
| `TranscriptDelivery.LateRequestOverwrites` | ai-service/app/voice_agent/transcript_delivery.py:61-73 | any two payloads of the session's tenant: in some run an abandoned request arrives late and replaces the newer one, which is lost unless the two are stored alike |
| `TranscriptDelivery.AgeIsFirstCommit` | platform/src/interviews/interviews.service.ts:358-385 | over every run a session has stored rows exactly if it was committed since the start or its last removal, and their age counts from the first such commit |
| `TranscriptDelivery.FlushRevivesExpired` | ai-service/app/voice_agent/transcript_delivery.py:76-92 | a run with one payload: its answer is lost, a cleanup removes the rows, and a flush stores them anew with a new age |
| `TranscriptDelivery.UninterruptedDelivery` | ai-service/app/voice_agent/transcript_delivery.py:61-73 | the protocol without interruption does to the disk and the tables what one delivery and one ingest do |
| `TranscriptDelivery.FlushGetsThrough` | ai-service/app/voice_agent/transcript_delivery.py:76-92 | a leftover file of an acceptable payload is posted, committed and removed once the platform answers |
| `InterviewSessions.InterviewsService.JoinSession` | platform/src/interviews/interviews.service.ts:231-290 | with distinct invites it succeeds exactly if a row has that hash, is PENDING and has not expired, and otherwise no row changes; a row of that hash gets its recording and two audit events |
| `InterviewSessions.JoinedViewIsExact` | platform/src/interviews/interviews.service.ts:231-290 | a join with no row open for its invite changes nothing; otherwise the open row becomes ACTIVE with the egress id of a new recording, and two events are noted |
| `InterviewSessions.InterviewsService.EndSession` | platform/src/interviews/interviews.service.ts:304-337 | stops the recording the row names, completes the session, audits; each rejection changes nothing |
| `InterviewSessions.EndedViewIsExact` | platform/src/interviews/interviews.service.ts:304-337 | only the tenant's own ACTIVE session is completed; the recording its row names is stopped; both are noted; no other row changes |
| `InterviewSessions.UninterruptedJoin` | platform/src/interviews/interviews.service.ts:231-290 | six statements of a join in a row are what JoinSession does |
| `InterviewSessions.UninterruptedEnd` | platform/src/interviews/interviews.service.ts:304-337 | five statements of an end in a row are what EndSession does |
| `InterviewSessions.StepKeepsInv` | platform/src/interviews/interviews.service.ts:231-337 | every statement, failing statement and new request keeps the invariant and moves rows only forward |
| `InterviewSessions.AtMostOneJoinSucceeds` | platform/src/interviews/interviews.service.ts:231-245 | in every interleaving at most one join per invite passes the claim |
| `InterviewSessions.AtMostOneRecording` | platform/src/interviews/interviews.service.ts:269-274 | in every interleaving at most one recording is started per session, and only for a joined one |
| `InterviewSessions.OnlyJoinsActivate` | platform/src/interviews/interviews.service.ts:233-241 | one step of any run: a row stops being PENDING only by the conditional update of a join of its invite, before that has expired, and becomes ACTIVE |
| `InterviewSessions.ClaimedInTime` | platform/src/interviews/interviews.service.ts:233-241 | every session of a run that is not PENDING was claimed while it was, by a join of its invite, before the expiry |
| `InterviewSessions.ClaimSucceedsIff` | platform/src/interviews/interviews.service.ts:233-245 | a join gets past the claim if and only if some row is open for its invite just then; if not no row changes |
| `InterviewSessions.StatusMovesForward` | platform/src/interviews/interviews.service.ts:231-337 | each step leaves a status or moves it PENDING to ACTIVE or ACTIVE to COMPLETED, stale ends included |
| `InterviewSessions.StatusNeverGoesBack` | platform/src/interviews/interviews.service.ts:231-337 | the same over any number of steps |
| `InterviewSessions.StoppedIffSeen` | platform/src/interviews/interviews.service.ts:310-320 | a recording is stopped exactly if an end request read a row naming it and got on |
| `InterviewSessions.ClosedSessionIsStoppedIff` | platform/src/interviews/interviews.service.ts:304-326 | the recording of a session that an end request closed is stopped if and only if some end request of it read a row with an egress id and got on |
| `InterviewSessions.EndAfterEgressStored` | platform/src/interviews/interviews.service.ts:304-326 | an end asked for after the join stored the egress id stops the recording if it completes the session, whatever interleaves |
| `InterviewSessions.EndAfterCompletedIsRefused` | platform/src/interviews/interviews.service.ts:304-308 | an end asked for after COMPLETED never gets past its check |
| `InterviewSessions.BothReadBeforeEitherCloses` | platform/src/interviews/interviews.service.ts:304-326 | when one end request has closed a session and another has read its row, there was a moment when both had read it and neither had closed it |
| `InterviewSessions.EndedTwice` | platform/src/interviews/interviews.service.ts:304-337 | so a second SessionEnded of a session needs two end requests that both read its row before either closed it |
| `InterviewSessions.EndedOncePerRequest` | platform/src/interviews/interviews.service.ts:304-337 | a session is noted as ended exactly as often as end requests of it ran to the end |
| `InterviewSessions.StaleEndsLeaveRecording` | platform/src/interviews/interviews.service.ts:304-337 | a run in which two ends both complete the session and the recording is never stopped |
| `LatencyMetrics.SpeechToSpeechCorrelator.OnEou` | ai-service/app/voice_agent/latency_metrics.py:32-38 | one Eou step: evict the first key if full, store, keep the place of an existing key |
| `LatencyMetrics.SpeechToSpeechCorrelator.OnTts` | ai-service/app/voice_agent/latency_metrics.py:40-53 | one Tts step: remove the key and emit, or nothing |
| `LatencyMetrics.NeverMoreThanTwenty` | ai-service/app/voice_agent/latency_metrics.py:25-38 | over any events the dictionary has at most 20 keys, each once |
| `LatencyMetrics.StoringKeepsPlaces` | ai-service/app/voice_agent/latency_metrics.py:32-38 | a full dictionary loses its first key first; a key stored again keeps its place, a new one goes last |
| `LatencyMetrics.ReplyKeepsPlaces` | ai-service/app/voice_agent/latency_metrics.py:40-45 | a reply takes its key out and leaves the others in place; one to an unknown utterance does nothing |
| `LatencyMetrics.ConsumedAtMostOnce` | ai-service/app/voice_agent/latency_metrics.py:32-53 | an id is emitted, plus pending, at most as often as it was stored |
| `LatencyMetrics.TimelyReplyIsMatched` | ai-service/app/voice_agent/latency_metrics.py:32-53 | a reply is matched with the latest timestamp of its id whenever fewer than 20 stored EOUs follow the one that inserted the key |
| `LatencyMetrics.FreshKeysPushOut` | ai-service/app/voice_agent/latency_metrics.py:35-38 | new ids leave exactly the last twenty keys |
| `LatencyMetrics.TwentyMoreLoseIt` | ai-service/app/voice_agent/latency_metrics.py:35-53 | twenty further new ids lose any key, and its reply is dropped |
| `LatencyMetrics.StaysPendingIff` | ai-service/app/voice_agent/latency_metrics.py:32-53 | until its reply a key is pending, with its latest timestamp, if and only if after its last EOU none with an id arrives while the dictionary is full and the key is its first |
| `LatencyMetrics.ReplyIsMatchedIff` | ai-service/app/voice_agent/latency_metrics.py:32-53 | and its reply is matched with that timestamp under exactly that condition, and is dropped otherwise |
| `LatencyMetrics.OwnEvictionSurvives` | ai-service/app/voice_agent/latency_metrics.py:35-38 | an EOU of the first key of a full dictionary evicts its own key and stores it anew as the last |
| `MetricsLog.MetricsFile.AppendJsonl` | ai-service/app/model_gateway/metrics_log.py:42-54 | trim to a thousand lines if too large, then append; a swallowed OSError leaves the file as far as it got |
| `MetricsLog.MetricsFile.ReadRecentJsonl` | ai-service/app/model_gateway/metrics_log.py:57-74 | the decodable records of the last thousand lines newer than the cursor, cut to `[-limit:]` with Python's meaning for any limit |
| `MetricsLog.MetricsFile.LatestTs` | ai-service/app/model_gateway/metrics_log.py:84-90 | the last record's timestamp, or zero |
| `MetricsLog.FileIsTail` | ai-service/app/model_gateway/metrics_log.py:42-54 | after any appends and faults the file is a suffix of the full log with at least its last min(1000, n) lines |
| `MetricsLog.TrimsIff` | ai-service/app/model_gateway/metrics_log.py:42-54 | an append keeps every line exactly if the file has at most 2,000,000 bytes or a thousand lines; otherwise the last thousand stay |
| `MetricsLog.ReadsTheLastNews` | ai-service/app/model_gateway/metrics_log.py:57-74 | for a positive limit, the last `limit` of the decodable records newer than the cursor among the last thousand lines, in file order |
| `MetricsLog.TrimIsInvisible` | ai-service/app/model_gateway/metrics_log.py:42-74 | for every limit and cursor, reading the trimmed file equals reading a log that is never trimmed |
| `MetricsLog.FileStaysBounded` | ai-service/app/model_gateway/metrics_log.py:42-54 | with lines of at most B bytes the file never exceeds max(2 MB, 1000 B) + B bytes |
| `MetricsWs.Watcher.WatchOnce` | ai-service/app/dev_tools/metrics_ws.py:68-77 | one turn of the loop: nothing without a client, otherwise every new record once in order, and the cursor moves to the last |
| `MetricsWs.PollReads` | ai-service/app/dev_tools/metrics_ws.py:73-77 | a read of the trimmed file gives exactly the last two hundred of the records newer than the cursor |
| `MetricsWs.PollSends` | ai-service/app/dev_tools/metrics_ws.py:73-77 | a poll sends all new records, of more than 200 the newest 200, and leaves none behind the cursor |
| `MetricsWs.DeliversExactlyOnce` | ai-service/app/dev_tools/metrics_ws.py:63-77 | with decodable lines and increasing timestamps the broadcast is exactly the records after the start, once and in order, if and only if no poll with a client finds more than 200 waiting |
| `MetricsWs.CrowdedPollLoses` | ai-service/app/dev_tools/metrics_ws.py:73-77 | a run that loses: n writes before a poll, n above 200, leave the oldest n - 200 unsent |
| `MetadataSigning.ParseCanonical` | platform/src/interviews/room-metadata-signing.ts:31-38 | cutting at the first three separators gives back all four fields, whatever the resume contains |
| `MetadataSigning.CanonicalStringIs` | platform/src/interviews/room-metadata-signing.ts:19-38 | the four fields in order with U+0001 between them, an absent resume empty |
| `MetadataSigning.CanonicalIsInjective` | platform/src/interviews/room-metadata-signing.ts:31-38 | two rooms without separators in the first three fields get the same string exactly if they agree on every field |
| `MetadataSigning.NamesOneRoom` | platform/src/interviews/room-metadata-signing.ts:31-38 | a room without separators in its four fields shares its string with no other room, whatever that contains |
| `MetadataSigning.SharedIffSeparator` | platform/src/interviews/room-metadata-signing.ts:19-38 | a room shares its string with another one if and only if some field of it contains the separator |
| `MetadataSigning.WorkerAcceptsSigned` | ai-service/app/voice_agent/metadata_signing.py:17-48 | the two builders agree: the worker accepts what the platform signed exactly if the three ids are non-empty |
| `MetadataSigning.AcceptsIffIssued` | ai-service/app/voice_agent/metadata_signing.py:25-48 | any received dictionary is accepted if and only if it is what the platform attaches to some room with non-empty ids, under a non-empty digest; a missing field is never accepted |
| `MetadataSigning.AcceptsSameString` | ai-service/app/voice_agent/metadata_signing.py:25-48 | barring a digest collision, a signature is accepted for any received metadata exactly if its ids are non-empty and its string is the signed one |
| `MetadataSigning.WorkerAcceptsOnlySigned` | ai-service/app/voice_agent/metadata_signing.py:25-48 | for a signed room without separators that means exactly if every field is the signed one; assumes no digest collision |
| `MetadataSigning.AcceptedForAnotherIff` | ai-service/app/voice_agent/metadata_signing.py:25-48 | for a room with clean ids the signature is accepted for some other room if and only if its resume contains the separator; assumes no digest collision |

## Left out

- GatewayOverlap.AloneIsTheCall: tasks carry no results, yielded text or metrics; those are the subject of the sequential theorems.
- GatewaySafety.CooldownSafety: calls that do not overlap; GatewayOverlap.CallInsideCooldown says what remains of it when they do.
- GatewayOverlap.CallInsideCooldown: a task checks a tier and calls it in one stretch, as between two awaits of one event loop; several worker processes have breakers of their own.
- InterviewIngest.InterviewsService.IngestTranscriptAndSummary: every payload carries its optional fields; an absent rolling summary, prompt versions or model usage leaves the stored value on update, which the model does not have. The worker always sends all three.
- TranscriptDelivery.NoTranscriptLoss: assumes one delivery in flight per session, and payloads of one session that are stored alike, as when each call ends once; TranscriptDelivery.LateRequestOverwrites shows the need and TranscriptDelivery.NothingWrittenIsForgotten says what holds without the second.
- TranscriptDelivery.RunKeepsInv: undecodable files are in the worker class (FlushPending skips them) but not in the protocol, where no step writes one.
- InterviewSessions.AtMostOneJoinSucceeds: the run assumes that a new session's invite hash is new, as random tokens are; the database has no unique constraint on it.
- MetricsWs.DeliversExactlyOnce: one of the two equal cursors is modelled; timestamps increase strictly, every line decodes, as every appended one does (an undecodable one would use up one of the 1000 kept lines), and the file is not reset while the watcher runs.
- MetadataSigning.VerifyMetadataSignature: `hmac.compare_digest` raises a TypeError for a signature string with a character outside ASCII; the model returns false. Either way nothing is accepted.
- Gateway.ModelGateway.RunStructured: an unknown use case is reported by an out-parameter instead of the KeyError.
- The provider states are values in the breaker's map instead of shared mutable records; no caller keeps a reference to one.
- Closing an abandoned stream at once: the inner generators of a stream that its caller drops may in truth be closed later.
- Cancellation of tasks, and a timeout that exactly meets the arrival of the first chunk.
- Latency, time to first token, rounding, context details, prompts and log lines of a metrics record.
- Provider SDKs, HTTP, LiveKit and Prisma: arguments or abstract tables.
- YAML and JSON parsing: the model starts from the parsed file and from decodable or undecodable lines.
- HMAC-SHA256: a function parameter; that two different strings have different digests is an assumption of the lemmas that need it.
- Half-written files, and `reset_dev_metrics`.
- `createSession` beyond its new row, `mintRecruiterToken`, tokens and room names.
- Quotes and backslashes inside a model name, which Python escapes in the rationale text of a LiveKit override.
- The dashboard, prompt texts, field labels, resume compaction, silence nudges and agent routers: plumbing with shallow claims.
- Auth, users, tenants, roles and prompts on the platform: one-branch checks and row updates.
