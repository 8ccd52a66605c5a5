/** ai-service/app/model_gateway/gateway.py: the call paths as they run, each proved to do exactly what
    GatewaySpec says. `events` is the ghost log of everything done to a provider. */
module Gateway {
  import opened Common
  import opened CircuitBreaker
  import opened UseCasePolicies
  import opened GatewaySpec
  import opened GatewayTheorems
  import opened StructuredTheorems

  const VOICE_LLM_USE_CASES: seq<string> :=
    ["voice_interview_turn", "voice_interview_summary", "role_discovery_turn", "role_discovery_extraction"]

  const LIVEKIT_TIMEOUT_S: real := 8.0

  function LivekitChain(models: seq<string>, timeoutS: real): seq<ProviderChoice> {
    seq(|models|, i requires 0 <= i < |models| => ProviderChoice(LiveKitInference, Some(models[i]), Some(timeoutS)))
  }

  /** A list of plain names as Python prints it. */
  function Printed(names: seq<string>): string {
    "[" + PrintedItems(names) + "]"
  }

  function PrintedItems(names: seq<string>): string {
    if names == [] then ""
    else "'" + names[0] + "'" + if |names| == 1 then "" else ", " + PrintedItems(names[1..])
  }

  function LivekitPolicy(primary: string, fallbacks: seq<string>, timeoutS: real): UseCasePolicy {
    UseCasePolicy(LivekitChain([primary] + fallbacks, timeoutS),
                  "livekit_inference mode: primary=" + primary + ", fallbacks=" + Printed(fallbacks)
                  + " (set by set_livekit_inference_mode)")
  }

  /** The table with every voice use case that is present routed by one policy. */
  function Overridden(policies: map<string, UseCasePolicy>, policy: UseCasePolicy): map<string, UseCasePolicy> {
    map u | u in policies :: if u in VOICE_LLM_USE_CASES then policy else policies[u]
  }

  /** A voice use case. */
  predicate IsVoice(u: string) {
    || u == "voice_interview_turn" || u == "voice_interview_summary"
    || u == "role_discovery_turn" || u == "role_discovery_extraction"
  }

  lemma {:induction false} VoiceUseCases(u: string)
    ensures u in VOICE_LLM_USE_CASES <==> IsVoice(u)
  {
    var v := VOICE_LLM_USE_CASES;
    assert v[0] in v && v[1] in v && v[2] in v && v[3] in v;
  }

  /** A policy of LiveKit tiers: the primary model first, then the fallbacks in their order. */
  predicate LivekitTiers(policy: UseCasePolicy, primary: string, fallbacks: seq<string>, timeoutS: real) {
    && |policy.chain| == 1 + |fallbacks|
    && policy.chain[0] == ProviderChoice(LiveKitInference, Some(primary), Some(timeoutS))
    && forall i :: 0 <= i < |fallbacks| ==>
         policy.chain[i + 1] == ProviderChoice(LiveKitInference, Some(fallbacks[i]), Some(timeoutS))
  }

  /** LiveKit mode routes the four voice use cases, as far as they are in the table, and nothing else. */
  lemma {:induction false} LivekitModeIsExact(policies: map<string, UseCasePolicy>, primary: string,
                                              fallbacks: seq<string>, timeoutS: real)
    ensures var after := Overridden(policies, LivekitPolicy(primary, fallbacks, timeoutS));
            && after.Keys == policies.Keys
            && forall u :: u in policies ==>
                 if IsVoice(u) then LivekitTiers(after[u], primary, fallbacks, timeoutS) else after[u] == policies[u]
  {
    hide Printed;
    forall u | u in policies {
      VoiceUseCases(u);
    }
  }

  /** Python's rendering of a list of two plain names, and of the empty list. */
  lemma {:induction false} PrintedLists(a: string, b: string)
    ensures Printed([]) == "[]" && Printed([a, b]) == "['" + a + "', '" + b + "']"
  {
    assert [a, b][1..] == [b];
    assert PrintedItems([b]) == "'" + b + "'";
    assert PrintedItems([a, b]) == "'" + a + "'" + (", " + PrintedItems([b]));
  }

  class ModelGateway {
    const breaker: ProviderCircuitBreaker
    const table: PolicyTable
    var metrics: seq<Metric>
    ghost var events: seq<Event>

    constructor (breaker: ProviderCircuitBreaker, table: PolicyTable)
      ensures this.breaker == breaker && this.table == table && metrics == [] && events == []
    {
      this.breaker := breaker;
      this.table := table;
      metrics := [];
      events := [];
    }

    /** `_handle_provider_exc`. */
    method HandleProviderExc(exc: Exc, p: Provider, now: real)
      modifies this`events, breaker
      ensures var s := old(breaker.Health())[p];
              breaker.Health()[p] ==
                if exc == RateLimitError || exc == KeyError then ProviderState(0, now + 300.0)
                else ProviderState(s.failureCount + 1, if s.failureCount >= 2 then now + 60.0 else s.cooldownUntil)
      ensures breaker.Health() == Advance(old(breaker.Health()), RecordOf(exc, p, now))
      ensures events == old(events) + [RecordOf(exc, p, now)]
    {
      events := events + [RecordOf(exc, p, now)];
      if exc == RateLimitError {
        breaker.RecordRateLimit(p, now);
        return;
      }
      if exc == KeyError {
        breaker.RecordRateLimit(p, now);
        return;
      }
      breaker.RecordFailure(p, now);
    }

    method LogSuccess(p: Provider, now: real)
      modifies this`events, breaker
      ensures breaker.Health() == Advance(old(breaker.Health()), Succeeded(p, now))
      ensures events == old(events) + [Succeeded(p, now)]
    {
      events := events + [Succeeded(p, now)];
      breaker.RecordSuccess(p, now);
    }

    method SetLivekitInferenceMode(primary: string, fallbacks: seq<string>, timeoutS: real := LIVEKIT_TIMEOUT_S)
      modifies table
      ensures table.policies == Overridden(old(table.policies), LivekitPolicy(primary, fallbacks, timeoutS))
    {
      var chain := LivekitChain([primary] + fallbacks, timeoutS);
      var rationale := "livekit_inference mode: primary=" + primary + ", fallbacks=" + Printed(fallbacks)
                     + " (set by set_livekit_inference_mode)";
      var policy := UseCasePolicy(chain, rationale);
      for i := 0 to |VOICE_LLM_USE_CASES|
        invariant table.policies.Keys == old(table.policies).Keys
        invariant forall u :: u in table.policies ==>
          table.policies[u] == (if u in VOICE_LLM_USE_CASES[..i] then policy else old(table.policies)[u])
      {
        hide Printed, LivekitChain;
        var useCase := VOICE_LLM_USE_CASES[i];
        if useCase in table.policies {
          table.policies := table.policies[useCase := policy];
        }
        assert VOICE_LLM_USE_CASES[..i + 1] == VOICE_LLM_USE_CASES[..i] + [useCase];
      }
      assert VOICE_LLM_USE_CASES[..|VOICE_LLM_USE_CASES|] == VOICE_LLM_USE_CASES;
      hide Printed, LivekitChain;
    }

    // -------------------------------------------------------------- run

    /** One turn of the loop in `run`: None when the tier is skipped in cooldown. */
    method TryTier(choice: ProviderChoice, s: TierScript<Reply>) returns (r: Option<Reply>)
      modifies this`events, breaker
      ensures r.None? <==> Cooling(old(breaker.Health()), choice, s.checkAt)
      ensures r.Some? ==> r.value == (if s.built.Some? then Raises(s.built.value) else s.body)
      ensures r.None? || r.value.Raises? <==> Passed(ReplyFailure, old(breaker.Health()), choice, s)
      ensures r.Some? && r.value.Raises? && s.built.None? ==> ReplyFailure(choice, s.body) == Some(r.value.exc)
      ensures var h := old(breaker.Health());
              var log := if Passed(ReplyFailure, h, choice, s) then PassLog(ReplyFailure, h, choice, s)
                         else [Call(choice.provider, s.callAt), Succeeded(choice.provider, s.doneAt)];
              events == old(events) + log && breaker.Health() == After(h, log)
    {
      hide ProviderCircuitBreaker.Health;
      var p := choice.provider;
      ghost var h := breaker.Health();
      var available := breaker.IsAvailable(p, s.checkAt);
      if !available {
        return None;
      }
      if s.built.Some? {
        HandleProviderExc(s.built.value, p, s.doneAt);
        AfterOne(h, RecordOf(s.built.value, p, s.doneAt));
        return Some(Raises(s.built.value));
      }
      events := events + [Call(p, s.callAt)];
      match s.body {
        case Raises(exc) =>
          HandleProviderExc(exc, p, s.doneAt);
          AfterTwo(h, Call(p, s.callAt), RecordOf(exc, p, s.doneAt));
        case Text(_) =>
          LogSuccess(p, s.doneAt);
          AfterTwo(h, Call(p, s.callAt), Succeeded(p, s.doneAt));
      }
      return Some(s.body);
    }

    method Run(useCase: string, script: seq<TierScript<Reply>>) returns (r: RunResult)
      requires useCase in table.policies ==> |table.policies[useCase].chain| <= |script|
      modifies this`metrics, this`events, breaker
      ensures useCase !in table.policies ==>
                && r == Raised(KeyError) && metrics == old(metrics) && events == old(events)
                && breaker.Health() == old(breaker.Health())
      ensures useCase in table.policies ==>
                var t := RunFrom(old(breaker.Health()), table.policies[useCase].chain, script, 0, None);
                && r == t.result
                && metrics == old(metrics) + t.metrics
                && events == old(events) + t.events
                && breaker.Health() == After(old(breaker.Health()), t.events)
    {
      hide ProviderCircuitBreaker.Health, RunFrom, PassLog, After, ReplyFailure;
      var policy := table.GetPolicy(useCase);
      if policy.None? {
        return Raised(KeyError);
      }
      var chain := policy.value.chain;
      var lastExc: Option<Exc> := None;
      ghost var h0 := breaker.Health();
      AfterNone(h0);
      ghost var done: seq<Event> := [];
      for tier := 0 to |chain|
        invariant metrics == old(metrics) && events == old(events) + done
        invariant breaker.Health() == After(h0, done)
        invariant RunFrom(h0, chain, script, 0, None)
                  == PrependRun(done, RunFrom(After(h0, done), chain, script, tier, lastExc))
      {
        var choice, s := chain[tier], script[tier];
        ghost var last := lastExc;
        ghost var h := breaker.Health();
        var reply := TryTier(choice, s);
        if reply.Some? && reply.value.Text? {
          var text := reply.value.text;
          metrics := metrics + [Metric(choice.provider, choice.model, |text|, tier > 0, false, None)];
          RunEndsHere(h0, done, chain, script, tier, last);
          return Returned(text);
        }
        if reply.Some? {
          lastExc := Some(reply.value.exc);
        }
        ghost var log := PassLog(ReplyFailure, h, choice, s);
        RunMovesOn(h0, done, chain, script, tier, last, lastExc);
        AfterConcat(h0, done, log);
        done := done + log;
      }
      RunRunsOut(h0, done, chain, script, lastExc);
      if lastExc.Some? {
        return Raised(lastExc.value);
      }
      return Raised(RuntimeError);
    }

    // -------------------------------------------------------------- run_structured

    method StructuredAttempt(choice: ProviderChoice, s: TierScript<Attempts>)
      returns (parsed: Option<string>, retries: nat)
      modifies this`events, breaker
      ensures var a := Attempt(old(breaker.Health()), choice, s);
              && parsed == a.parsed && retries == a.retries
              && events == old(events) + a.events
              && breaker.Health() == After(old(breaker.Health()), a.events)
    {
      hide ProviderCircuitBreaker.Health;
      var p := choice.provider;
      ghost var h0 := breaker.Health();
      var available := breaker.IsAvailable(p, s.checkAt);
      if !available {
        return None, 0;
      }
      if s.built.Some? {
        HandleProviderExc(s.built.value, p, s.doneAt);
        AfterOne(h0, RecordOf(s.built.value, p, s.doneAt));
        return None, 0;
      }
      for attempt := 0 to 2
        invariant breaker.Health() == h0
        invariant events == old(events) + [Call(p, s.callAt), Call(p, s.retryAt)][..attempt]
        invariant attempt >= 1 ==> !s.body.first.Valid?
        invariant attempt == 2 ==> !s.body.second.Valid?
      {
        ghost var before := events;
        events := events + [Call(p, if attempt == 0 then s.callAt else s.retryAt)];
        var raw := if attempt == 0 then s.body.first else s.body.second;
        if raw.Valid? {
          LogSuccess(p, s.doneAt);
          AfterTwo(h0, Call(p, s.callAt), Succeeded(p, s.doneAt));
          AfterThree(h0, Call(p, s.callAt), Call(p, s.retryAt), Succeeded(p, s.doneAt));
          return Some(raw.value), attempt;
        }
      }
      events := events + [Failed(p, s.doneAt)];
      breaker.RecordFailure(p, s.doneAt);
      AfterThree(h0, Call(p, s.callAt), Call(p, s.retryAt), Failed(p, s.doneAt));
      return None, 0;
    }

    /** `_structured_chain`. */
    method StructuredChain(chain: seq<ProviderChoice>, script: seq<TierScript<Attempts>>) returns (r: StructuredResult)
      requires |chain| <= |script|
      modifies this`events, breaker
      ensures var t := StructuredFrom(old(breaker.Health()), chain, script, 0);
              && r == t.result
              && events == old(events) + t.events
              && breaker.Health() == After(old(breaker.Health()), t.events)
    {
      hide ProviderCircuitBreaker.Health, StructuredFrom, Attempt, After;
      ghost var h0 := breaker.Health();
      ghost var done: seq<Event> := [];
      AfterNone(h0);
      for tier := 0 to |chain|
        invariant events == old(events) + done
        invariant breaker.Health() == After(h0, done)
        invariant StructuredFrom(h0, chain, script, 0)
                  == PrependStructured(done, StructuredFrom(After(h0, done), chain, script, tier))
      {
        ghost var a := Attempt(After(h0, done), chain[tier], script[tier]);
        var parsed, retries := StructuredAttempt(chain[tier], script[tier]);
        StructuredTierIsDone(h0, done, chain, script, tier, a);
        done := done + a.events;
        if parsed.Some? {
          return Parsed(parsed.value, tier, retries);
        }
      }
      StructuredRunsOut(h0, done, chain, script);
      return NoValidOutput;
    }

    method RunStructured(useCase: string, script: seq<TierScript<Attempts>>) returns (r: StructuredResult, known: bool)
      requires useCase in table.policies ==> |table.policies[useCase].chain| <= |script|
      modifies this`metrics, this`events, breaker
      ensures known <==> useCase in table.policies
      ensures !known ==>
                && r == NoValidOutput && metrics == old(metrics) && events == old(events)
                && breaker.Health() == old(breaker.Health())
      ensures known ==>
                var t := StructuredFrom(old(breaker.Health()), table.policies[useCase].chain, script, 0);
                && r == t.result
                && metrics == old(metrics) + t.metrics
                && events == old(events) + t.events
                && breaker.Health() == After(old(breaker.Health()), t.events)
    {
      hide ProviderCircuitBreaker.Health, StructuredFrom, Attempt, After;
      var policy := table.GetPolicy(useCase);
      if policy.None? {
        return NoValidOutput, false;
      }
      var chain := policy.value.chain;
      StructuredMetrics(breaker.Health(), chain, script);
      r := StructuredChain(chain, script);
      known := true;
      if r.Parsed? {
        var choice := chain[r.tier];
        metrics := metrics + [Metric(choice.provider, choice.model, |r.value|, r.tier > 0, false, Some(r.retries))];
      }
    }

    // -------------------------------------------------------------- run_stream

    method RunStream(useCase: string, script: seq<TierScript<ChunkStream>>, demand: nat)
      returns (yielded: seq<string>, ending: StreamEnding)
      requires demand >= 1
      requires useCase in table.policies ==> |table.policies[useCase].chain| <= |script|
      modifies this`metrics, this`events, breaker
      ensures useCase !in table.policies ==>
                && yielded == [] && ending == StreamRaised(KeyError) && metrics == old(metrics)
                && events == old(events) && breaker.Health() == old(breaker.Health())
      ensures useCase in table.policies ==>
                var t := StreamFrom(old(breaker.Health()), table.policies[useCase].chain, script, 0, demand);
                && yielded == t.yielded && ending == t.ending
                && metrics == old(metrics) + t.metrics
                && events == old(events) + t.events
                && breaker.Health() == After(old(breaker.Health()), t.events)
    {
      var policy := table.GetPolicy(useCase);
      if policy.None? {
        return [], StreamRaised(KeyError);
      }
      yielded, ending := StreamChain(policy.value.chain, script, 0, demand);
    }

    method StreamChain(chain: seq<ProviderChoice>, script: seq<TierScript<ChunkStream>>, start: nat, demand: nat)
      returns (yielded: seq<string>, ending: StreamEnding)
      requires start <= |chain| <= |script| && demand >= 1
      modifies this`metrics, this`events, breaker
      ensures var t := StreamFrom(old(breaker.Health()), chain, script, start, demand);
              && yielded == t.yielded && ending == t.ending
              && metrics == old(metrics) + t.metrics
              && events == old(events) + t.events
              && breaker.Health() == After(old(breaker.Health()), t.events)
      decreases |chain| - start
    {
      hide ProviderCircuitBreaker.Health;
      var tier := start;
      ghost var h0 := breaker.Health();
      while tier < |chain|
        invariant start <= tier <= |chain|
        invariant metrics == old(metrics) && events == old(events) && breaker.Health() == h0
        invariant StreamFrom(h0, chain, script, start, demand) == StreamFrom(h0, chain, script, tier, demand)
      {
        var available := breaker.IsAvailable(chain[tier].provider, script[tier].checkAt);
        if available {
          break;
        }
        tier := tier + 1;
      }
      if tier >= |chain| {
        return [], Finished;
      }
      yielded, ending := StreamTier(chain, script, tier, demand);
    }

    /** Builds the client and waits for the first chunk: the failure that passes the tier over, if any,
        and whether it came from the call itself. */
    method OpenStream(choice: ProviderChoice, s: TierScript<ChunkStream>) returns (failure: Option<Exc>, called: bool)
      requires !Cooling(breaker.Health(), choice, s.checkAt)
      modifies this`events, breaker
      ensures called <==> s.built.None?
      ensures failure == if called then FirstChunkFailure(choice, s.body) else s.built
      ensures var h := old(breaker.Health());
              var log :=
                if failure.Some? then PassLog(FirstChunkFailure, h, choice, s) else [Call(choice.provider, s.callAt)];
              events == old(events) + log && breaker.Health() == After(h, log)
    {
      hide ProviderCircuitBreaker.Health;
      var p := choice.provider;
      ghost var h := breaker.Health();
      if s.built.Some? {
        HandleProviderExc(s.built.value, p, s.doneAt);
        AfterOne(h, RecordOf(s.built.value, p, s.doneAt));
        return s.built, false;
      }
      events := events + [Call(p, s.callAt)];
      AfterOne(h, Call(p, s.callAt));
      failure, called := FirstChunkFailure(choice, s.body), true;
      if failure.Some? {
        HandleProviderExc(failure.value, p, s.doneAt);
        AfterTwo(h, Call(p, s.callAt), RecordOf(failure.value, p, s.doneAt));
      }
    }

    /** The part of `_stream_chain` after the cooldown loop: the tier is available. */
    method StreamTier(chain: seq<ProviderChoice>, script: seq<TierScript<ChunkStream>>, tier: nat, demand: nat)
      returns (yielded: seq<string>, ending: StreamEnding)
      requires tier < |chain| <= |script| && demand >= 1
      requires !Cooling(breaker.Health(), chain[tier], script[tier].checkAt)
      modifies this`metrics, this`events, breaker
      ensures var t := StreamFrom(old(breaker.Health()), chain, script, tier, demand);
              && yielded == t.yielded && ending == t.ending
              && metrics == old(metrics) + t.metrics
              && events == old(events) + t.events
              && breaker.Health() == After(old(breaker.Health()), t.events)
      decreases |chain| - tier, 0
    {
      hide ProviderCircuitBreaker.Health, StreamFrom, PassLog, After, Serve;
      var choice, s := chain[tier], script[tier];
      ghost var h := breaker.Health();
      var failure, called := OpenStream(choice, s);
      if failure.Some? {
        StreamMovesOn(h, chain, script, tier, demand);
        if tier == |chain| - 1 && called {
          return [], StreamRaised(failure.value);
        }
        yielded, ending := StreamChain(chain, script, tier + 1, demand);
        return;
      }
      StreamServesNow(h, chain, script, tier, demand);
      if s.body.chunks == [] {
        return [], Finished;
      }
      yielded, ending := StreamServing(choice, s, tier, demand);
    }

    /** The serving loop of `_stream_chain`; its call is already in the log. */
    method StreamServing(choice: ProviderChoice, s: TierScript<ChunkStream>, tier: nat, demand: nat)
      returns (yielded: seq<string>, ending: StreamEnding)
      requires demand >= 1 && s.body.chunks != []
      modifies this`metrics, this`events, breaker
      ensures var atEnd, h := demand > |s.body.chunks| && s.body.failure.None?, old(breaker.Health());
              && breaker.Health() == (if atEnd then h[choice.provider := ProviderState(0, 0.0)] else h)
              && events == old(events) + (if atEnd then [Succeeded(choice.provider, s.doneAt)] else [])
              && yielded == (if demand < |s.body.chunks| then s.body.chunks[..demand] else s.body.chunks)
      ensures var t := Serve(choice, s, tier, demand);
              && yielded == t.yielded && ending == t.ending
              && metrics == old(metrics) + t.metrics
              && events == old(events) + t.events[1..]
              && breaker.Health() == After(old(breaker.Health()), t.events[1..])
    {
      hide ProviderCircuitBreaker.Health;
      var p, chunks := choice.provider, s.body.chunks;
      ghost var h := breaker.Health();
      var outputChars := |chunks[0]|;
      var interrupted := true;
      yielded := [chunks[0]];
      OneLength(chunks[0]);
      while |yielded| < demand && |yielded| < |chunks|
        invariant 1 <= |yielded| <= demand && |yielded| <= |chunks| && yielded == chunks[..|yielded|]
        invariant outputChars == TotalLength(yielded)
        invariant metrics == old(metrics) && events == old(events) && breaker.Health() == h
      {
        var chunk := chunks[|yielded|];
        TotalLengthAppend(yielded, chunk);
        outputChars := outputChars + |chunk|;
        yielded := yielded + [chunk];
      }
      assert chunks[..|chunks|] == chunks;
      if |yielded| == demand {
        ending := ClosedByCaller;
      } else if s.body.failure.Some? {
        ending := StreamRaised(s.body.failure.value);
      } else {
        ending := Finished;
        interrupted := false;
      }
      ghost var t := Serve(choice, s, tier, demand);
      assert t.events[1..] == if interrupted then [] else [Succeeded(p, s.doneAt)];
      if !interrupted {
        LogSuccess(p, s.doneAt);
        AfterOne(h, Succeeded(p, s.doneAt));
      }
      metrics := metrics + [Metric(p, choice.model, outputChars, tier > 0, interrupted, None)];
    }

    lemma {:induction false} OneLength(chunk: string)
      ensures TotalLength([chunk]) == |chunk|
    {
      assert [chunk][1..] == [];
    }
  }
}
