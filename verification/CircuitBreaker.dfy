/** Per-provider health and cooldown windows: ai-service/app/model_gateway/circuit_breaker.py.
    Times are `time.monotonic()` readings in seconds. */
module CircuitBreaker {
  import opened Common

  datatype Provider = OpenAI | Anthropic | Gemini | Groq | OpenRouter | LiveKitInference

  /** The provider's name in configuration files, the value of the source's string enumeration. */
  function ValueOf(p: Provider): string {
    match p
    case OpenAI => "openai"
    case Anthropic => "anthropic"
    case Gemini => "gemini"
    case Groq => "groq"
    case OpenRouter => "openrouter"
    case LiveKitInference => "livekit_inference"
  }

  const RATE_LIMIT_COOLDOWN_S: real := 300.0
  const FAILURE_COOLDOWN_S: real := 60.0
  const FAILURE_THRESHOLD: nat := 3

  datatype ProviderState = ProviderState(failureCount: nat, cooldownUntil: real)

  const FRESH := ProviderState(0, 0.0)

  /** The breaker as a caller sees it: every provider has a state, untouched ones are fresh. */
  type Health = h: map<Provider, ProviderState> | forall p: Provider :: p in h
    witness map p: Provider | true :: FRESH

  /** What a run of the gateway does to a provider. */
  datatype Event =
    | Call(provider: Provider, at: real)         // a network call starts
    | Succeeded(provider: Provider, at: real)    // record_success
    | RateLimited(provider: Provider, at: real)  // record_rate_limit
    | Failed(provider: Provider, at: real)       // record_failure

  function Advance(h: Health, e: Event): Health {
    match e
    case Call(_, _) => h
    case Succeeded(p, _) => h[p := ProviderState(0, 0.0)]
    case RateLimited(p, at) => h[p := ProviderState(0, at + RATE_LIMIT_COOLDOWN_S)]
    case Failed(p, at) =>
      var n := h[p].failureCount + 1;
      h[p := ProviderState(n, if n >= FAILURE_THRESHOLD then at + FAILURE_COOLDOWN_S else h[p].cooldownUntil)]
  }

  function After(h: Health, log: seq<Event>): Health {
    if log == [] then h else After(Advance(h, log[0]), log[1..])
  }

  lemma {:induction false} AfterConcat(h: Health, a: seq<Event>, b: seq<Event>)
    ensures After(h, a + b) == After(After(h, a), b)
  {
    if a == [] {
      assert a + b == b;
    } else {
      assert (a + b)[1..] == a[1..] + b;
      AfterConcat(Advance(h, a[0]), a[1..], b);
    }
  }

  lemma {:induction false} AfterNone(h: Health)
    ensures After(h, []) == h
  {
  }

  lemma {:induction false} AfterOne(h: Health, e: Event)
    ensures After(h, [e]) == Advance(h, e)
  {
    assert After(h, [e]) == After(Advance(h, e), []);
  }

  lemma {:induction false} AfterSnoc(h: Health, log: seq<Event>, e: Event)
    ensures After(h, log + [e]) == Advance(After(h, log), e)
  {
    AfterConcat(h, log, [e]);
    AfterOne(After(h, log), e);
  }

  /** Calls leave the health alone. */
  lemma {:induction false} AfterTwo(h: Health, call: Event, e: Event)
    requires call.Call?
    ensures After(h, [call, e]) == Advance(h, e)
  {
    assert [call, e] == [call] + [e];
    AfterSnoc(h, [call], e);
    AfterOne(h, call);
  }

  lemma {:induction false} AfterThree(h: Health, call: Event, retry: Event, e: Event)
    requires call.Call? && retry.Call?
    ensures After(h, [call, retry, e]) == Advance(h, e)
  {
    assert [call, retry, e] == [call] + [retry, e];
    AfterConcat(h, [call], [retry, e]);
    AfterOne(h, call);
    AfterTwo(h, retry, e);
  }

  class ProviderCircuitBreaker {
    var states: map<Provider, ProviderState>

    constructor ()
      ensures forall p: Provider :: Health()[p] == FRESH
    {
      states := map[];
    }

    function StateOf(p: Provider): ProviderState
      reads this
    {
      if p in states then states[p] else FRESH
    }

    ghost function Health(): Health
      reads this
    {
      map p: Provider | true :: StateOf(p)
    }

    /** `_get`: the first lookup of a provider inserts a fresh state. */
    method Get(p: Provider) returns (s: ProviderState)
      modifies this
      ensures Health() == old(Health())
      ensures p in states && states[p] == s == Health()[p]
    {
      if p !in states {
        states := states[p := FRESH];
      }
      s := states[p];
    }

    method IsAvailable(p: Provider, now: real) returns (available: bool)
      modifies this
      ensures Health() == old(Health())
      ensures available <==> Health()[p].cooldownUntil <= now
    {
      var s := Get(p);
      if s.cooldownUntil > now {
        return false;
      }
      return true;
    }

    method RecordSuccess(p: Provider, ghost now: real)
      modifies this
      ensures Health() == old(Health())[p := ProviderState(0, 0.0)]
      ensures Health() == Advance(old(Health()), Succeeded(p, now))
    {
      var s := Get(p);
      states := states[p := s.(failureCount := 0, cooldownUntil := 0.0)];
    }

    method RecordRateLimit(p: Provider, now: real, cooldownS: real := RATE_LIMIT_COOLDOWN_S)
      modifies this
      ensures Health() == old(Health())[p := ProviderState(0, now + cooldownS)]
      ensures cooldownS == RATE_LIMIT_COOLDOWN_S ==> Health() == Advance(old(Health()), RateLimited(p, now))
    {
      var s := Get(p);
      s := s.(cooldownUntil := now + cooldownS);
      states := states[p := s.(failureCount := 0)];
    }

    method RecordFailure(p: Provider, now: real)
      modifies this
      ensures var s := old(Health())[p];
              Health() == old(Health())[p := ProviderState(s.failureCount + 1,
                                                           if s.failureCount >= 2 then now + 60.0 else s.cooldownUntil)]
      ensures Health() == Advance(old(Health()), Failed(p, now))
    {
      var s := Get(p);
      s := s.(failureCount := s.failureCount + 1);
      if s.failureCount >= FAILURE_THRESHOLD {
        s := s.(cooldownUntil := now + FAILURE_COOLDOWN_S);
      }
      states := states[p := s];
    }

    /** Seconds left in the cooldown; zero exactly when the provider is available. */
    method CooldownRemaining(p: Provider, now: real) returns (remaining: real)
      modifies this
      ensures Health() == old(Health())
      ensures remaining >= 0.0
      ensures remaining == 0.0 <==> Health()[p].cooldownUntil <= now
      ensures remaining > 0.0 ==> now + remaining == Health()[p].cooldownUntil
    {
      var s := Get(p);
      remaining := s.cooldownUntil - now;
      if remaining < 0.0 {
        remaining := 0.0;
      }
    }
  }

  // ---------------------------------------------------------------- discipline of a log

  /** The clock never runs backwards and nothing happens to a provider inside its cooldown. */
  predicate Orderly(h: Health, now: real, log: seq<Event>)
    decreases |log|
  {
    log == [] ||
    (&& now <= log[0].at
     && h[log[0].provider].cooldownUntil <= log[0].at
     && Orderly(Advance(h, log[0]), log[0].at, log[1..]))
  }

  function EndTime(now: real, log: seq<Event>): real {
    if log == [] then now else log[|log| - 1].at
  }

  lemma {:induction false} OrderlyConcat(h: Health, now: real, a: seq<Event>, b: seq<Event>)
    requires Orderly(h, now, a)
    requires Orderly(After(h, a), EndTime(now, a), b)
    ensures Orderly(h, now, a + b)
    decreases |a|
  {
    if a == [] {
      assert a + b == b;
    } else {
      assert (a + b)[1..] == a[1..] + b;
      OrderlyConcat(Advance(h, a[0]), a[0].at, a[1..], b);
    }
  }

  lemma {:induction false} OrderlySuffix(h: Health, now: real, a: seq<Event>, b: seq<Event>)
    requires Orderly(h, now, a + b)
    ensures Orderly(After(h, a), EndTime(now, a), b)
    decreases |a|
  {
    if a == [] {
      assert a + b == b;
    } else {
      assert (a + b)[0] == a[0] && (a + b)[1..] == a[1..] + b;
      OrderlySuffix(Advance(h, a[0]), a[0].at, a[1..], b);
    }
  }

  lemma {:induction false} OrderlyPrefix(h: Health, now: real, a: seq<Event>, b: seq<Event>)
    requires Orderly(h, now, a + b)
    ensures Orderly(h, now, a)
    decreases |a|
  {
    if a != [] {
      assert (a + b)[0] == a[0] && (a + b)[1..] == a[1..] + b;
      OrderlyPrefix(Advance(h, a[0]), a[0].at, a[1..], b);
    }
  }

  /** A provider in cooldown sees no event before the cooldown ends. */
  lemma {:induction false} HeldUntilCooldownEnds(h: Health, now: real, log: seq<Event>, j: nat)
    requires Orderly(h, now, log) && j < |log|
    ensures log[j].at >= h[log[j].provider].cooldownUntil && log[j].at >= now
    decreases |log|
  {
    if j > 0 {
      HeldUntilCooldownEnds(Advance(h, log[0]), log[0].at, log[1..], j - 1);
      assert log[1..][j - 1] == log[j];
    }
  }

  predicate Trips(h: Health, log: seq<Event>, i: nat)
    requires i < |log|
  {
    log[i].Failed? && After(h, log[..i])[log[i].provider].failureCount + 1 >= FAILURE_THRESHOLD
  }

  /** The breaker's promise: 300 seconds of silence after a rate limit, 60 after a trip. */
  lemma {:induction false} CooldownRespected(h: Health, now: real, log: seq<Event>, i: nat, j: nat)
    requires Orderly(h, now, log) && i < j < |log| && log[i].provider == log[j].provider
    ensures log[i].RateLimited? ==> log[j].at >= log[i].at + 300.0
    ensures Trips(h, log, i) ==> log[j].at >= log[i].at + 60.0
  {
    assert log == log[..i + 1] + log[i + 1..];
    OrderlySuffix(h, now, log[..i + 1], log[i + 1..]);
    assert log[..i + 1] == log[..i] + [log[i]];
    AfterSnoc(h, log[..i], log[i]);
    hide After, Orderly;
    HeldUntilCooldownEnds(After(h, log[..i + 1]), EndTime(now, log[..i + 1]), log[i + 1..], j - i - 1);
    assert log[i + 1..][j - i - 1] == log[j];
  }

  // ---------------------------------------------------------------- failure rate

  function FailureCount(log: seq<Event>, p: Provider): nat {
    if log == [] then 0
    else (if log[0] == Failed(p, log[0].at) then 1 else 0) + FailureCount(log[1..], p)
  }

  predicate NoRecovery(log: seq<Event>, p: Provider) {
    forall e | e in log && e.provider == p :: e.Call? || e.Failed?
  }

  /** With `c` failures already counted, every failure from the third on costs 60 seconds. */
  lemma {:induction false} FailuresTakeTime(h: Health, now: real, log: seq<Event>, p: Provider)
    requires Orderly(h, now, log) && NoRecovery(log, p)
    ensures FailureCount(log, p) >= 1 ==>
              var c := h[p].failureCount;
              && EndTime(now, log) >= h[p].cooldownUntil
              && EndTime(now, log) - now >= 60.0 * (c + FailureCount(log, p) - 1 - Max(c, 2)) as real
              && EndTime(now, log) - h[p].cooldownUntil >= 60.0 * (c + FailureCount(log, p) - 1 - Max(c, 2)) as real
    ensures EndTime(now, log) >= now
    decreases |log|
  {
    if log != [] {
      var e := log[0];
      FailuresTakeTime(Advance(h, e), e.at, log[1..], p);
      assert EndTime(now, log) == EndTime(e.at, log[1..]);
      assert e in log;
    }
  }

  /** From a fresh state, T seconds without a success or a rate limit hold at most 3 + floor(T/60) failures. */
  lemma {:induction false} FailureRateBound(h: Health, now: real, log: seq<Event>, p: Provider, until: real)
    requires Orderly(h, now, log) && NoRecovery(log, p) && h[p] == FRESH
    requires EndTime(now, log) <= until
    ensures FailureCount(log, p) <= 3 + ((until - now) / 60.0).Floor
  {
    FailuresTakeTime(h, now, log, p);
    var n := FailureCount(log, p);
    if n > 3 {
      assert (until - now) / 60.0 >= (n - 3) as real;
    } else {
      assert (until - now) / 60.0 >= 0.0;
    }
  }

  /** The same bound for any stretch of a longer log. */
  lemma {:induction false} StretchFailureRate(h: Health, now: real, log: seq<Event>, a: nat, b: nat, p: Provider,
                                              seconds: real)
    requires Orderly(h, now, log) && a < b <= |log|
    requires After(h, log[..a])[p] == FRESH && NoRecovery(log[a..b], p)
    requires log[b - 1].at - log[a].at <= seconds
    ensures FailureCount(log[a..b], p) <= 3 + (seconds / 60.0).Floor
  {
    hide NoRecovery, FailureCount, After, Orderly;
    var h', stretch := After(h, log[..a]), log[a..b];
    assert log == log[..a] + (stretch + log[b..]);
    OrderlySuffix(h, now, log[..a], stretch + log[b..]);
    OrderlyPrefix(h', EndTime(now, log[..a]), stretch, log[b..]);
    OrderlyFromFirst(h', EndTime(now, log[..a]), stretch);
    assert stretch[0] == log[a] && stretch[|stretch| - 1] == log[b - 1];
    FailureRateBound(h', stretch[0].at, stretch, p, stretch[0].at + seconds);
  }

  lemma {:induction false} OrderlyFromFirst(h: Health, now: real, log: seq<Event>)
    requires Orderly(h, now, log) && log != []
    ensures Orderly(h, log[0].at, log)
  {
  }

  /** `n` failures, 60 seconds apart. */
  function Spaced(p: Provider, start: real, n: nat): seq<Event>
    decreases n
  {
    if n == 0 then [] else [Failed(p, start)] + Spaced(p, start + 60.0, n - 1)
  }

  lemma {:induction false} SpacedIsOrderly(h: Health, now: real, p: Provider, start: real, n: nat)
    requires h[p].failureCount >= 2 && h[p].cooldownUntil <= start && now <= start
    ensures var log := Spaced(p, start, n);
            && Orderly(h, now, log) && NoRecovery(log, p) && FailureCount(log, p) == n
            && (n > 0 ==> EndTime(now, log) == start + 60.0 * (n - 1) as real)
    decreases n
  {
    if n > 0 {
      var e := Failed(p, start);
      SpacedIsOrderly(Advance(h, e), start, p, start + 60.0, n - 1);
      FailureStep(h, now, e, Spaced(p, start + 60.0, n - 1), p);
    }
  }

  /** The bound is met at every multiple of 60 seconds, so no smaller one holds. */
  lemma {:induction false} FailureRateBoundIsTight(h: Health, p: Provider, minutes: nat)
    requires h[p] == FRESH
    ensures exists log: seq<Event> :: (
              && Orderly(h, 0.0, log) && NoRecovery(log, p)
              && EndTime(0.0, log) == 60.0 * minutes as real && FailureCount(log, p) == 3 + minutes)
  {
    var e, rest := Failed(p, 0.0), Spaced(p, 0.0, minutes + 1);
    SpacedIsOrderly(Advance(Advance(h, e), e), 0.0, p, 0.0, minutes + 1);
    FailureStep(Advance(h, e), 0.0, e, rest, p);
    FailureStep(h, 0.0, e, [e] + rest, p);
    var log := [e] + ([e] + rest);
    assert EndTime(0.0, log) == EndTime(0.0, rest);
  }

  lemma {:induction false} FailureStep(h: Health, now: real, e: Event, rest: seq<Event>, p: Provider)
    requires e == Failed(p, e.at) && now <= e.at && h[p].cooldownUntil <= e.at
    requires Orderly(Advance(h, e), e.at, rest) && NoRecovery(rest, p)
    ensures Orderly(h, now, [e] + rest) && NoRecovery([e] + rest, p)
    ensures FailureCount([e] + rest, p) == 1 + FailureCount(rest, p)
  {
    assert ([e] + rest)[1..] == rest;
  }

  // ---------------------------------------------------------------- what ends a cooldown early

  /** Entry m decides its provider's cooldown, until a later entry does. */
  predicate Sets(h: Health, log: seq<Event>, m: nat)
    requires m < |log|
  {
    log[m].Succeeded? || log[m].RateLimited? || Trips(h, log, m)
  }

  function SetsUntil(e: Event): real {
    match e
    case RateLimited(_, at) => at + RATE_LIMIT_COOLDOWN_S
    case Failed(_, at) => at + FAILURE_COOLDOWN_S
    case Succeeded(_, _) => 0.0
    case Call(_, _) => 0.0
  }

  predicate NoneSets(h: Health, log: seq<Event>, p: Provider, from: nat, n: nat)
    requires n <= |log|
  {
    forall m :: from <= m < n && log[m].provider == p ==> !Sets(h, log, m)
  }

  lemma {:induction false} StandsUntil(h: Health, log: seq<Event>, i: nat, n: nat)
    requires i < n <= |log| && Sets(h, log, i) && NoneSets(h, log, log[i].provider, i + 1, n)
    ensures After(h, log[..n])[log[i].provider].cooldownUntil == SetsUntil(log[i])
  {
    assert log[..n] == log[..n - 1] + [log[n - 1]];
    AfterSnoc(h, log[..n - 1], log[n - 1]);
    hide After;
    if n > i + 1 {
      StandsUntil(h, log, i, n - 1);
      assert log[n - 1].provider == log[i].provider ==> !Sets(h, log, n - 1);
    }
  }

  lemma {:induction false} LastSetter(h: Health, log: seq<Event>, i: nat, n: nat) returns (m: nat)
    requires i < n <= |log| && Sets(h, log, i)
    ensures i <= m < n && log[m].provider == log[i].provider && Sets(h, log, m)
    ensures NoneSets(h, log, log[i].provider, m + 1, n)
  {
    hide Sets;
    if n == i + 1 || (log[n - 1].provider == log[i].provider && Sets(h, log, n - 1)) {
      m := n - 1;
    } else {
      m := LastSetter(h, log, i, n - 1);
    }
  }

  /** After entry i and before position n the cooldown of its provider was decided anew, for the last time by an
      entry whose own cooldown is over at `at`. */
  predicate Lifted(h: Health, log: seq<Event>, i: nat, n: nat, at: real)
    requires i < n <= |log|
  {
    exists m :: i < m < n && log[m].provider == log[i].provider && Sets(h, log, m) && SetsUntil(log[m]) <= at &&
                NoneSets(h, log, log[i].provider, m + 1, n)
  }

  /** Inside the cooldown that entry i set, a check of its provider passes if and only if it was lifted. */
  lemma {:induction false} PassesIffLifted(h: Health, log: seq<Event>, i: nat, n: nat, at: real)
    requires i < n <= |log| && Sets(h, log, i) && at < SetsUntil(log[i])
    ensures After(h, log[..n])[log[i].provider].cooldownUntil <= at <==> Lifted(h, log, i, n, at)
  {
    var m := LastSetter(h, log, i, n);
    StandsUntil(h, log, m, n);
    hide Sets, After, SetsUntil;
  }

  lemma {:induction false} CountIsFailures(h: Health, log: seq<Event>, p: Provider)
    ensures After(h, log)[p].failureCount <= h[p].failureCount + FailureCount(log, p)
  {
    if log != [] {
      CountIsFailures(Advance(h, log[0]), log[1..], p);
    }
  }

  predicate TimesGrow(log: seq<Event>) {
    forall i, j :: 0 <= i < j < |log| ==> log[i].at <= log[j].at
  }

  /** Only a recorded success lifts a cooldown early, or, from the longer one after a rate limit to the shorter one,
      three recorded failures. */
  lemma {:induction false} WhatLifts(h: Health, log: seq<Event>, i: nat, n: nat, at: real)
    requires TimesGrow(log) && i < n <= |log| && (log[i].RateLimited? || Trips(h, log, i)) && at < SetsUntil(log[i])
    requires Lifted(h, log, i, n, at)
    ensures || (exists m :: i < m < n && log[m] == Succeeded(log[i].provider, log[m].at))
            || (log[i].RateLimited? && FailureCount(log[i + 1..n], log[i].provider) >= 3)
  {
    var p := log[i].provider;
    var m :| i < m < n && log[m].provider == p && Sets(h, log, m) && SetsUntil(log[m]) <= at;
    if log[m].Succeeded? {
      assert log[m] == Succeeded(p, log[m].at);
    } else {
      assert log[m].Failed? && log[i].RateLimited?;
      ThreeFailures(h, log, i, m);
      assert log[i + 1..n] == log[i + 1..m + 1] + log[m + 1..n];
      FailureCountConcat(log[i + 1..m + 1], log[m + 1..n], p);
    }
  }

  lemma {:induction false} FailureCountConcat(a: seq<Event>, b: seq<Event>, p: Provider)
    ensures FailureCount(a + b, p) == FailureCount(a, p) + FailureCount(b, p)
  {
    if a == [] {
      assert a + b == b;
    } else {
      assert (a + b)[1..] == a[1..] + b;
      FailureCountConcat(a[1..], b, p);
    }
  }

  lemma {:induction false} ThreeFailures(h: Health, log: seq<Event>, i: nat, m: nat)
    requires i < m < |log| && log[i].RateLimited? && log[m].provider == log[i].provider && Trips(h, log, m)
    ensures FailureCount(log[i + 1..m + 1], log[i].provider) >= 3
  {
    var p, tail := log[i].provider, log[i + 1..m];
    assert log[..m] == log[..i] + [log[i]] + tail;
    AfterSnoc(h, log[..i], log[i]);
    AfterConcat(h, log[..i] + [log[i]], tail);
    CountIsFailures(After(h, log[..i] + [log[i]]), tail, p);
    assert log[i + 1..m + 1] == tail + [log[m]];
    FailureCountConcat(tail, [log[m]], p);
    assert [log[m]][1..] == [];
  }
}
