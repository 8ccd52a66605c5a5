/** `run_structured`: which tier answers, how many model calls are made, how the breaker is updated. */
module StructuredTheorems {
  import opened Common
  import opened CircuitBreaker
  import opened UseCasePolicies
  import opened GatewaySpec

  function CallCount(log: seq<Event>): nat {
    if log == [] then 0 else (if log[0].Call? then 1 else 0) + CallCount(log[1..])
  }

  function UpdateCount(log: seq<Event>): nat {
    if log == [] then 0 else (if log[0].Call? then 0 else 1) + UpdateCount(log[1..])
  }

  lemma {:induction false} CountsConcat(a: seq<Event>, b: seq<Event>)
    ensures CallCount(a + b) == CallCount(a) + CallCount(b)
    ensures UpdateCount(a + b) == UpdateCount(a) + UpdateCount(b)
  {
    if a == [] {
      assert a + b == b;
    } else {
      assert (a + b)[1..] == a[1..] + b;
      CountsConcat(a[1..], b);
    }
  }

  /** A tier yields a validated value: it is out of cooldown, constructible, and one of two replies validates. */
  predicate Validates(h: Health, choice: ProviderChoice, s: TierScript<Attempts>) {
    !Cooling(h, choice, s.checkAt) && s.built.None? && (s.body.first.Valid? || s.body.second.Valid?)
  }

  /** Everything the first k tiers do to the breaker and the network when they are visited in turn. */
  function AttemptsLog(h: Health, chain: seq<ProviderChoice>, script: seq<TierScript<Attempts>>, k: nat): seq<Event>
    requires k <= |chain| <= |script|
  {
    if k == 0 then []
    else
      var before := AttemptsLog(h, chain, script, k - 1);
      before + Attempt(After(h, before), chain[k - 1], script[k - 1]).events
  }

  function HealthBefore(h: Health, chain: seq<ProviderChoice>, script: seq<TierScript<Attempts>>, k: nat): Health
    requires k <= |chain| <= |script|
  {
    After(h, AttemptsLog(h, chain, script, k))
  }

  predicate ValidatesAt(h: Health, chain: seq<ProviderChoice>, script: seq<TierScript<Attempts>>, k: nat)
    requires k < |chain| <= |script|
  {
    Validates(HealthBefore(h, chain, script, k), chain[k], script[k])
  }

  predicate SkippedAt(h: Health, chain: seq<ProviderChoice>, script: seq<TierScript<Attempts>>, k: nat)
    requires k < |chain| <= |script|
  {
    Cooling(HealthBefore(h, chain, script, k), chain[k], script[k].checkAt)
  }

  /** How many of the first k tiers were tried, that is not skipped in cooldown. */
  function TriedCount(h: Health, chain: seq<ProviderChoice>, script: seq<TierScript<Attempts>>, k: nat): nat
    requires k <= |chain| <= |script|
  {
    if k == 0 then 0
    else TriedCount(h, chain, script, k - 1) + if SkippedAt(h, chain, script, k - 1) then 0 else 1
  }

  lemma {:induction false} CountShort(a: Event, b: Event, c: Event)
    ensures CallCount([a]) == (if a.Call? then 1 else 0) && UpdateCount([a]) == 1 - CallCount([a])
    ensures CallCount([a, b]) == CallCount([a]) + CallCount([b]) && UpdateCount([a, b]) == 2 - CallCount([a, b])
    ensures CallCount([a, b, c]) == CallCount([a, b]) + CallCount([c])
            && UpdateCount([a, b, c]) == 3 - CallCount([a, b, c])
  {
    CountsConcat([a], [b]);
    CountsConcat([a, b], [c]);
    assert [a] + [b] == [a, b] && [a, b] + [c] == [a, b, c];
    assert forall e: Event :: [e][1..] == [];
    assert UpdateCount([a]) == 1 - CallCount([a]) && UpdateCount([b]) == 1 - CallCount([b])
           && UpdateCount([c]) == 1 - CallCount([c]);
  }

  /** One tier: no call if it is skipped or cannot be constructed, a second one only if the first reply did not
      validate, and one breaker update unless it was skipped. */
  lemma {:induction false} AttemptShape(h: Health, choice: ProviderChoice, s: TierScript<Attempts>)
    ensures var a := Attempt(h, choice, s);
            && (a.parsed.Some? <==> Validates(h, choice, s))
            && CallCount(a.events) == (if Cooling(h, choice, s.checkAt) || s.built.Some? then 0
                                       else if s.body.first.Valid? then 1 else 2)
            && UpdateCount(a.events) == (if Cooling(h, choice, s.checkAt) then 0 else 1)
  {
    var p := choice.provider;
    var call, retry := Call(p, s.callAt), Call(p, s.retryAt);
    CountShort(call, Succeeded(p, s.doneAt), call);
    CountShort(call, retry, Succeeded(p, s.doneAt));
    CountShort(call, retry, Failed(p, s.doneAt));
    CountShort(Failed(p, s.doneAt), call, call);
    CountShort(RateLimited(p, s.doneAt), call, call);
  }

  lemma {:induction false} AttemptsLogCounts(h: Health, chain: seq<ProviderChoice>, script: seq<TierScript<Attempts>>,
                                             k: nat)
    requires k <= |chain| <= |script|
    ensures CallCount(AttemptsLog(h, chain, script, k)) <= 2 * k
    ensures UpdateCount(AttemptsLog(h, chain, script, k)) == TriedCount(h, chain, script, k)
  {
    hide Attempt;
    if k > 0 {
      AttemptsLogCounts(h, chain, script, k - 1);
      var before := AttemptsLog(h, chain, script, k - 1);
      AttemptShape(After(h, before), chain[k - 1], script[k - 1]);
      CountsConcat(before, Attempt(After(h, before), chain[k - 1], script[k - 1]).events);
    }
  }

  ghost predicate StructuredEndsAt(h: Health, chain: seq<ProviderChoice>, script: seq<TierScript<Attempts>>,
                                   before: seq<Event>, t: StructuredTrace, end: nat)
    requires end <= |chain| <= |script|
  {
    if end == |chain| then
      t.result == NoValidOutput && t.metrics == [] && before + t.events == AttemptsLog(h, chain, script, end)
    else
      var a := Attempt(HealthBefore(h, chain, script, end), chain[end], script[end]);
      && a.parsed.Some?
      && t.result == Parsed(a.parsed.value, end, a.retries)
      && t.metrics == [Metric(chain[end].provider, chain[end].model, |a.parsed.value|, end > 0, false, Some(a.retries))]
      && before + t.events == AttemptsLog(h, chain, script, end + 1)
  }

  lemma {:induction false} StructuredShape(h: Health, chain: seq<ProviderChoice>, script: seq<TierScript<Attempts>>,
                                           tier: nat)
    returns (end: nat)
    requires tier <= |chain| <= |script|
    ensures tier <= end <= |chain|
    ensures forall i | tier <= i < end :: !ValidatesAt(h, chain, script, i)
    ensures end < |chain| ==> ValidatesAt(h, chain, script, end)
    ensures StructuredEndsAt(h, chain, script, AttemptsLog(h, chain, script, tier),
                             StructuredFrom(HealthBefore(h, chain, script, tier), chain, script, tier), end)
    decreases |chain| - tier
  {
    hide StructuredEndsAt, AttemptsLog, StructuredFrom, Attempt, After;
    if tier == |chain| {
      end := tier;
      StructuredExhausted(h, chain, script);
    } else {
      AttemptShape(HealthBefore(h, chain, script, tier), chain[tier], script[tier]);
      if ValidatesAt(h, chain, script, tier) {
        end := tier;
        StructuredValidatesHere(h, chain, script, tier);
      } else {
        end := StructuredShape(h, chain, script, tier + 1);
        StructuredMovesOn(h, chain, script, tier, end);
      }
    }
  }

  lemma {:induction false} StructuredExhausted(h: Health, chain: seq<ProviderChoice>, script: seq<TierScript<Attempts>>)
    requires |chain| <= |script|
    ensures StructuredEndsAt(h, chain, script, AttemptsLog(h, chain, script, |chain|),
                             StructuredFrom(HealthBefore(h, chain, script, |chain|), chain, script, |chain|), |chain|)
  {
    var before := AttemptsLog(h, chain, script, |chain|);
    assert before + [] == before;
  }

  lemma {:induction false} StructuredValidatesHere(h: Health, chain: seq<ProviderChoice>,
                                                   script: seq<TierScript<Attempts>>, tier: nat)
    requires tier < |chain| <= |script|
    requires Attempt(HealthBefore(h, chain, script, tier), chain[tier], script[tier]).parsed.Some?
    ensures StructuredEndsAt(h, chain, script, AttemptsLog(h, chain, script, tier),
                             StructuredFrom(HealthBefore(h, chain, script, tier), chain, script, tier), tier)
  {
    hide Attempt;
  }

  lemma {:induction false} StructuredMovesOn(h: Health, chain: seq<ProviderChoice>, script: seq<TierScript<Attempts>>,
                                             tier: nat, end: nat)
    requires tier < end <= |chain| <= |script|
    requires Attempt(HealthBefore(h, chain, script, tier), chain[tier], script[tier]).parsed.None?
    requires StructuredEndsAt(h, chain, script, AttemptsLog(h, chain, script, tier + 1),
                              StructuredFrom(HealthBefore(h, chain, script, tier + 1), chain, script, tier + 1), end)
    ensures StructuredEndsAt(h, chain, script, AttemptsLog(h, chain, script, tier),
                             StructuredFrom(HealthBefore(h, chain, script, tier), chain, script, tier), end)
  {
    hide Attempt, StructuredEndsAt;
    var before := AttemptsLog(h, chain, script, tier);
    var ht := HealthBefore(h, chain, script, tier);
    var events := Attempt(ht, chain[tier], script[tier]).events;
    AfterConcat(h, before, events);
    var rest := StructuredFrom(HealthBefore(h, chain, script, tier + 1), chain, script, tier + 1);
    assert StructuredFrom(ht, chain, script, tier) == rest.(events := events + rest.events);
    StructuredEndsEarlier(h, chain, script, before, events, rest, end);
  }

  lemma {:induction false} StructuredEndsEarlier(h: Health, chain: seq<ProviderChoice>,
                                                 script: seq<TierScript<Attempts>>, before: seq<Event>,
                                                 events: seq<Event>, rest: StructuredTrace, end: nat)
    requires end <= |chain| <= |script| && StructuredEndsAt(h, chain, script, before + events, rest, end)
    ensures StructuredEndsAt(h, chain, script, before, rest.(events := events + rest.events), end)
  {
    hide Attempt, HealthBefore, AttemptsLog;
    assert before + (events + rest.events) == (before + events) + rest.events;
  }

  function PrependStructured(events: seq<Event>, t: StructuredTrace): StructuredTrace {
    t.(events := events + t.events)
  }

  lemma {:induction false} StructuredTierIsDone(h: Health, done: seq<Event>, chain: seq<ProviderChoice>,
                                                script: seq<TierScript<Attempts>>,
                                                tier: nat, a: AttemptTrace)
    requires tier < |chain| <= |script| && a == Attempt(After(h, done), chain[tier], script[tier])
    ensures After(h, done + a.events) == After(After(h, done), a.events)
    ensures PrependStructured(done, StructuredFrom(After(h, done), chain, script, tier))
         == if a.parsed.Some?
            then StructuredTrace(Parsed(a.parsed.value, tier, a.retries), done + a.events,
                   [Metric(chain[tier].provider, chain[tier].model, |a.parsed.value|, tier > 0, false,
                           Some(a.retries))])
            else PrependStructured(done + a.events, StructuredFrom(After(h, done + a.events), chain, script, tier + 1))
  {
    hide Attempt, After;
    AfterConcat(h, done, a.events);
    var rest := StructuredFrom(After(h, done + a.events), chain, script, tier + 1).events;
    assert done + (a.events + rest) == (done + a.events) + rest;
  }

  lemma {:induction false} StructuredRunsOut(h: Health, done: seq<Event>, chain: seq<ProviderChoice>,
                                             script: seq<TierScript<Attempts>>)
    requires |chain| <= |script|
    ensures PrependStructured(done, StructuredFrom(After(h, done), chain, script, |chain|))
         == StructuredTrace(NoValidOutput, done, [])
  {
    assert done + [] == done;
  }

  /** The one metrics record of a structured call follows from its result. */
  lemma {:induction false} StructuredMetrics(h: Health, chain: seq<ProviderChoice>, script: seq<TierScript<Attempts>>)
    requires |chain| <= |script|
    ensures var t := StructuredFrom(h, chain, script, 0);
            t.metrics == match t.result
              case Parsed(value, tier, retries) =>
                if tier < |chain| then
                  [Metric(chain[tier].provider, chain[tier].model, |value|, tier > 0, false, Some(retries))]
                else []
              case NoValidOutput => []
    ensures var t := StructuredFrom(h, chain, script, 0);
            t.result.Parsed? ==> t.result.tier < |chain|
  {
    var end := StructuredShape(h, chain, script, 0);
  }

  /** The value comes from the first tier that validates within two tries; NoValidOutput is raised exactly
      when no tier does; at most two calls per tier; one breaker update per tier that was tried. */
  lemma {:induction false} StructuredAnswersFromFirstValidTier(h: Health, chain: seq<ProviderChoice>,
                                                               script: seq<TierScript<Attempts>>)
    requires |chain| <= |script|
    ensures var t := StructuredFrom(h, chain, script, 0);
            && (t.result == NoValidOutput <==> forall k :: 0 <= k < |chain| ==> !ValidatesAt(h, chain, script, k))
            && (t.result.Parsed? ==>
                  var k := t.result.tier;
                  && k < |chain| && ValidatesAt(h, chain, script, k)
                  && (forall i :: 0 <= i < k ==> !ValidatesAt(h, chain, script, i))
                  && var s := script[k].body;
                  && t.result.value == (if s.first.Valid? then s.first.value else s.second.value)
                  && t.result.retries == (if s.first.Valid? then 0 else 1)
                  && UpdateCount(t.events) == TriedCount(h, chain, script, k + 1))
            && (t.result == NoValidOutput ==> UpdateCount(t.events) == TriedCount(h, chain, script, |chain|))
            && CallCount(t.events) <= 2 * |chain|
  {
    var end := StructuredShape(h, chain, script, 0);
    var t := StructuredFrom(h, chain, script, 0);
    assert [] + t.events == t.events;
    AttemptsLogCounts(h, chain, script, if end < |chain| then end + 1 else end);
  }
}
