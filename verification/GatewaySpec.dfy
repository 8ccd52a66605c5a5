/** What the three call paths of ai-service/app/model_gateway/gateway.py do, as functions of the
    breaker's health and of a script that fixes how the outside world behaves: the clock readings,
    whether a client can be built, and what the provider answers. */
module GatewaySpec {
  import opened Common
  import opened CircuitBreaker
  import opened UseCasePolicies

  const FIRST_CHUNK_TIMEOUT_S: real := 4.0

  datatype Exc = RateLimitError | KeyError | TimeoutError | RuntimeError | OtherError(message: string)

  /** `_handle_provider_exc`: a missing API key is treated like a rate limit. */
  function RecordOf(exc: Exc, p: Provider, at: real): Event {
    if exc.RateLimitError? || exc.KeyError? then RateLimited(p, at) else Failed(p, at)
  }

  /** One tier's share of the outside world. `built` is the exception of client construction, if any. */
  datatype TierScript<+B> =
    TierScript(checkAt: real, built: Option<Exc>, callAt: real, retryAt: real, doneAt: real, body: B)

  predicate ClockOk<B>(now: real, script: seq<TierScript<B>>) {
    && (forall i :: 0 <= i < |script| ==>
          now <= script[i].checkAt <= script[i].callAt <= script[i].retryAt <= script[i].doneAt)
    && (forall i, j :: 0 <= i < j < |script| ==> script[i].doneAt <= script[j].checkAt)
  }

  function EndOf<B>(now: real, script: seq<TierScript<B>>): real {
    if script == [] then now else script[|script| - 1].doneAt
  }

  datatype Metric =
    Metric(provider: Provider, model: Option<string>, outputChars: nat, usedFallback: bool,
           interrupted: bool, retriesUsed: Option<nat>)

  predicate Cooling(h: Health, choice: ProviderChoice, checkAt: real) {
    h[choice.provider].cooldownUntil > checkAt
  }

  // ---------------------------------------------------------------- run

  datatype Reply = Text(text: string) | Raises(exc: Exc)

  datatype RunResult = Returned(text: string) | Raised(exc: Exc)

  datatype RunTrace = RunTrace(result: RunResult, events: seq<Event>, metrics: seq<Metric>)

  function PrependRun(events: seq<Event>, t: RunTrace): RunTrace {
    t.(events := events + t.events)
  }

  function RunFrom(h: Health, chain: seq<ProviderChoice>, script: seq<TierScript<Reply>>, tier: nat,
                   last: Option<Exc>): RunTrace
    requires tier <= |chain| <= |script|
    decreases |chain| - tier
  {
    if tier == |chain| then
      RunTrace(Raised(if last.Some? then last.value else RuntimeError), [], [])
    else
      var choice, s := chain[tier], script[tier];
      var p := choice.provider;
      if Cooling(h, choice, s.checkAt) then
        RunFrom(h, chain, script, tier + 1, last)
      else if s.built.Some? then
        var e := RecordOf(s.built.value, p, s.doneAt);
        PrependRun([e], RunFrom(Advance(h, e), chain, script, tier + 1, s.built))
      else if s.body.Raises? then
        var e := RecordOf(s.body.exc, p, s.doneAt);
        PrependRun([Call(p, s.callAt), e], RunFrom(Advance(h, e), chain, script, tier + 1, Some(s.body.exc)))
      else
        RunTrace(Returned(s.body.text), [Call(p, s.callAt), Succeeded(p, s.doneAt)],
                 [Metric(p, choice.model, |s.body.text|, tier > 0, false, None)])
  }

  // ---------------------------------------------------------------- run_structured

  /** A JSON reply that validated, one that did not, or a raised call. */
  datatype JsonReply = Valid(value: string) | Invalid | JsonRaises(exc: Exc)

  datatype Attempts = Attempts(first: JsonReply, second: JsonReply)

  datatype AttemptTrace = AttemptTrace(parsed: Option<string>, retries: nat, events: seq<Event>)

  /** `_structured_attempt`: two tries, one breaker update, and a double failure is never a rate limit. */
  function Attempt(h: Health, choice: ProviderChoice, s: TierScript<Attempts>): AttemptTrace {
    var p := choice.provider;
    if Cooling(h, choice, s.checkAt) then AttemptTrace(None, 0, [])
    else if s.built.Some? then AttemptTrace(None, 0, [RecordOf(s.built.value, p, s.doneAt)])
    else if s.body.first.Valid? then
      AttemptTrace(Some(s.body.first.value), 0, [Call(p, s.callAt), Succeeded(p, s.doneAt)])
    else if s.body.second.Valid? then
      AttemptTrace(Some(s.body.second.value), 1, [Call(p, s.callAt), Call(p, s.retryAt), Succeeded(p, s.doneAt)])
    else AttemptTrace(None, 0, [Call(p, s.callAt), Call(p, s.retryAt), Failed(p, s.doneAt)])
  }

  datatype StructuredResult = Parsed(value: string, tier: nat, retries: nat) | NoValidOutput

  datatype StructuredTrace = StructuredTrace(result: StructuredResult, events: seq<Event>, metrics: seq<Metric>)

  function StructuredFrom(h: Health, chain: seq<ProviderChoice>, script: seq<TierScript<Attempts>>,
                          tier: nat): StructuredTrace
    requires tier <= |chain| <= |script|
    decreases |chain| - tier
  {
    if tier == |chain| then StructuredTrace(NoValidOutput, [], [])
    else
      var choice := chain[tier];
      var a := Attempt(h, choice, script[tier]);
      if a.parsed.Some? then
        StructuredTrace(Parsed(a.parsed.value, tier, a.retries), a.events,
                        [Metric(choice.provider, choice.model, |a.parsed.value|, tier > 0, false, Some(a.retries))])
      else
        var t := StructuredFrom(After(h, a.events), chain, script, tier + 1);
        t.(events := a.events + t.events)
  }

  // ---------------------------------------------------------------- run_stream

  /** A provider's stream: its chunks, how it ends, and how long the first chunk (or end) takes. */
  datatype ChunkStream = ChunkStream(chunks: seq<string>, failure: Option<Exc>, firstAfter: real)

  datatype StreamEnding = Finished | StreamRaised(exc: Exc) | ClosedByCaller

  datatype StreamTrace =
    StreamTrace(yielded: seq<string>, ending: StreamEnding, events: seq<Event>, metrics: seq<Metric>)

  function TimeoutOf(choice: ProviderChoice): real {
    if choice.timeoutS.Some? then choice.timeoutS.value else FIRST_CHUNK_TIMEOUT_S
  }

  /** The exception that awaiting the first chunk raises, a plain end of the stream aside. */
  function FirstChunkFailure(choice: ProviderChoice, body: ChunkStream): Option<Exc> {
    if body.firstAfter > TimeoutOf(choice) then Some(TimeoutError)
    else if body.chunks == [] then body.failure
    else None
  }

  /** The caller takes `demand` chunks and then closes the generator, unless it ended before. */
  function Serve(choice: ProviderChoice, s: TierScript<ChunkStream>, tier: nat, demand: nat): StreamTrace
    requires demand >= 1 && s.body.chunks != []
  {
    var p, chunks := choice.provider, s.body.chunks;
    var yielded := if demand <= |chunks| then chunks[..demand] else chunks;
    var ending := if demand <= |chunks| then ClosedByCaller
                  else if s.body.failure.Some? then StreamRaised(s.body.failure.value) else Finished;
    StreamTrace(yielded, ending,
                [Call(p, s.callAt)] + if ending == Finished then [Succeeded(p, s.doneAt)] else [],
                [Metric(p, choice.model, TotalLength(yielded), tier > 0, ending != Finished, None)])
  }

  function PrependStream(events: seq<Event>, t: StreamTrace): StreamTrace {
    t.(events := events + t.events)
  }

  function StreamFrom(h: Health, chain: seq<ProviderChoice>, script: seq<TierScript<ChunkStream>>, tier: nat,
                      demand: nat): StreamTrace
    requires tier <= |chain| <= |script| && demand >= 1
    decreases |chain| - tier
  {
    if tier == |chain| then StreamTrace([], Finished, [], [])
    else
      var choice, s := chain[tier], script[tier];
      var p := choice.provider;
      if Cooling(h, choice, s.checkAt) then StreamFrom(h, chain, script, tier + 1, demand)
      else if s.built.Some? then
        var e := RecordOf(s.built.value, p, s.doneAt);
        PrependStream([e], StreamFrom(Advance(h, e), chain, script, tier + 1, demand))
      else
        match FirstChunkFailure(choice, s.body)
        case Some(exc) =>
          var e := RecordOf(exc, p, s.doneAt);
          var events := [Call(p, s.callAt), e];
          if tier == |chain| - 1 then StreamTrace([], StreamRaised(exc), events, [])
          else PrependStream(events, StreamFrom(Advance(h, e), chain, script, tier + 1, demand))
        case None =>
          if s.body.chunks == [] then StreamTrace([], Finished, [Call(p, s.callAt)], [])
          else Serve(choice, s, tier, demand)
  }

  // ---------------------------------------------------------------- passed-over tiers

  /** A tier that does not serve: skipped in cooldown, not constructible, or failing with `fails`. */
  predicate Passed<B>(fails: (ProviderChoice, B) -> Option<Exc>, h: Health, choice: ProviderChoice, s: TierScript<B>) {
    Cooling(h, choice, s.checkAt) || s.built.Some? || fails(choice, s.body).Some?
  }

  /** The one breaker update of a tier that was tried and passed over. */
  function PassLog<B>(fails: (ProviderChoice, B) -> Option<Exc>, h: Health, choice: ProviderChoice,
                      s: TierScript<B>): seq<Event>
  {
    var p := choice.provider;
    if Cooling(h, choice, s.checkAt) then []
    else if s.built.Some? then [RecordOf(s.built.value, p, s.doneAt)]
    else match fails(choice, s.body)
      case Some(exc) => [Call(p, s.callAt), RecordOf(exc, p, s.doneAt)]
      case None => []
  }

  /** The log of passing over the first k tiers, and the health it leaves. */
  function PassesLog<B>(fails: (ProviderChoice, B) -> Option<Exc>, h: Health, chain: seq<ProviderChoice>,
                        script: seq<TierScript<B>>, k: nat): seq<Event>
    requires k <= |chain| <= |script|
  {
    if k == 0 then []
    else
      var before := PassesLog(fails, h, chain, script, k - 1);
      before + PassLog(fails, After(h, before), chain[k - 1], script[k - 1])
  }

  function HealthAt<B>(fails: (ProviderChoice, B) -> Option<Exc>, h: Health, chain: seq<ProviderChoice>,
                       script: seq<TierScript<B>>, k: nat): Health
    requires k <= |chain| <= |script|
  {
    After(h, PassesLog(fails, h, chain, script, k))
  }

  predicate PassedAt<B>(fails: (ProviderChoice, B) -> Option<Exc>, h: Health, chain: seq<ProviderChoice>,
                        script: seq<TierScript<B>>, k: nat)
    requires k < |chain| <= |script|
  {
    Passed(fails, HealthAt(fails, h, chain, script, k), chain[k], script[k])
  }

  /** Tier k serves, and every tier before it was passed over. */
  predicate FirstServing<B>(fails: (ProviderChoice, B) -> Option<Exc>, h: Health, chain: seq<ProviderChoice>,
                            script: seq<TierScript<B>>, k: nat)
    requires |chain| <= |script|
  {
    && k < |chain|
    && !PassedAt(fails, h, chain, script, k)
    && forall i :: 0 <= i < k ==> PassedAt(fails, h, chain, script, i)
  }

  predicate NoneServes<B>(fails: (ProviderChoice, B) -> Option<Exc>, h: Health, chain: seq<ProviderChoice>,
                          script: seq<TierScript<B>>)
    requires |chain| <= |script|
  {
    forall i :: 0 <= i < |chain| ==> PassedAt(fails, h, chain, script, i)
  }

  lemma {:induction false} ServingIsUnique<B>(fails: (ProviderChoice, B) -> Option<Exc>, h: Health,
                                              chain: seq<ProviderChoice>, script: seq<TierScript<B>>, k: nat)
    requires |chain| <= |script| && FirstServing(fails, h, chain, script, k)
    ensures !NoneServes(fails, h, chain, script)
    ensures forall j: nat :: FirstServing(fails, h, chain, script, j) ==> j == k
  {
    hide PassedAt;
  }

  lemma {:induction false} PassOne<B>(fails: (ProviderChoice, B) -> Option<Exc>, h: Health, chain: seq<ProviderChoice>,
                                      script: seq<TierScript<B>>, k: nat)
    requires k < |chain| <= |script|
    ensures HealthAt(fails, h, chain, script, k + 1)
         == After(HealthAt(fails, h, chain, script, k),
                  PassLog(fails, HealthAt(fails, h, chain, script, k), chain[k], script[k]))
  {
    var before := PassesLog(fails, h, chain, script, k);
    AfterConcat(h, before, PassLog(fails, After(h, before), chain[k], script[k]));
  }

  function ReplyFailure(choice: ProviderChoice, body: Reply): Option<Exc> {
    if body.Raises? then Some(body.exc) else None
  }

  /** The exception of the last of the first k tiers that was tried, if any was. */
  function LastFailure(h: Health, chain: seq<ProviderChoice>, script: seq<TierScript<Reply>>, k: nat): Option<Exc>
    requires k <= |chain| <= |script|
  {
    if k == 0 then None
    else if Cooling(HealthAt(ReplyFailure, h, chain, script, k - 1), chain[k - 1], script[k - 1].checkAt) then
      LastFailure(h, chain, script, k - 1)
    else if script[k - 1].built.Some? then script[k - 1].built
    else ReplyFailure(chain[k - 1], script[k - 1].body)
  }
}
