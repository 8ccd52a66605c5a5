/** What a call of any of the three kinds does to the breaker, from a table: the script gives each tier that is tried a
    verdict, and the verdict gives the provider its new state. */
module GatewayVerdicts {
  import opened CircuitBreaker
  import opened UseCasePolicies
  import opened GatewaySpec
  import opened GatewaySafety
  import opened GatewayOverlap

  datatype Verdict =
    | Fails(exc: Exc)    // construction, the call or the wait for the first chunk raises
    | Spoils             // neither of two replies validates
    | Succeeds           // a reply, a valid one, a stream passed on to its end
    | Breaks             // a stream that is empty, raises after its first chunk or is closed early

  function VerdictAt(c: GatewayCall, k: nat): Verdict
    requires Scripted(c) && k < |Chain(c)|
  {
    if Outline(c, k).built.Some? then Fails(Outline(c, k).built.value)
    else
      match c
      case RunCall(_, s) => if s[k].body.Raises? then Fails(s[k].body.exc) else Succeeds
      case StructuredCall(_, s) => if s[k].body.first.Valid? || s[k].body.second.Valid? then Succeeds else Spoils
      case StreamCall(chain, s, demand) =>
        var body, timeoutS := s[k].body, if chain[k].timeoutS.Some? then chain[k].timeoutS.value else 4.0;
        if body.firstAfter > timeoutS then Fails(TimeoutError)
        else if body.chunks == [] then (if body.failure.Some? then Fails(body.failure.value) else Breaks)
        else if body.failure.None? && demand > |body.chunks| then Succeeds
        else Breaks
  }

  function OneMore(s: ProviderState, at: real): ProviderState {
    ProviderState(s.failureCount + 1, if s.failureCount >= 2 then at + 60.0 else s.cooldownUntil)
  }

  function Judged(s: ProviderState, v: Verdict, at: real): ProviderState {
    match v
    case Fails(exc) => if exc == RateLimitError || exc == KeyError then ProviderState(0, at + 300.0) else OneMore(s, at)
    case Spoils => OneMore(s, at)
    case Succeeds => ProviderState(0, 0.0)
    case Breaks => s
  }

  predicate Tried(h: Health, c: GatewayCall, k: nat)
    requires Scripted(c) && k < |Chain(c)|
  {
    h[Chain(c)[k].provider].cooldownUntil <= Outline(c, k).checkAt
  }

  predicate GoesOn(v: Verdict) {
    v.Fails? || v.Spoils?
  }

  /** What tier k makes of the health it finds. */
  function TierHealth(h: Health, c: GatewayCall, k: nat): Health
    requires Scripted(c) && k < |Chain(c)|
  {
    var p := Chain(c)[k].provider;
    if Tried(h, c, k) then h[p := Judged(h[p], VerdictAt(c, k), Outline(c, k).doneAt)] else h
  }

  /** The health once the first k tiers have been visited. */
  function Through(h: Health, c: GatewayCall, k: nat): Health
    requires Scripted(c) && k <= |Chain(c)|
  {
    if k == 0 then h else TierHealth(Through(h, c, k - 1), c, k - 1)
  }

  /** No tier before tier k ends the call. */
  predicate GetsTo(h: Health, c: GatewayCall, k: nat)
    requires Scripted(c) && k <= |Chain(c)|
  {
    forall i :: 0 <= i < k ==> Tried(Through(h, c, i), c, i) ==> GoesOn(VerdictAt(c, i))
  }

  // ---------------------------------------------------------------- one tier

  /** The breaker update of a tier that is tried and goes on. */
  function UpdateOf(c: GatewayCall, k: nat): Event
    requires Scripted(c) && k < |Chain(c)|
  {
    var p, at, v := Chain(c)[k].provider, Outline(c, k).doneAt, VerdictAt(c, k);
    if v == Fails(RateLimitError) || v == Fails(KeyError) then RateLimited(p, at) else Failed(p, at)
  }

  /** What such a tier adds to the log before the call goes on to the next one. */
  function PassedLog(c: GatewayCall, k: nat): seq<Event>
    requires Scripted(c) && k < |Chain(c)| && GoesOn(VerdictAt(c, k))
  {
    var p, s := Chain(c)[k].provider, Outline(c, k);
    (if s.built.Some? then [] else if c.StructuredCall? then [Call(p, s.callAt), Call(p, s.retryAt)]
     else [Call(p, s.callAt)]) + [UpdateOf(c, k)]
  }

  lemma {:induction false} UpdateIsJudged(h: Health, c: GatewayCall, k: nat)
    requires Scripted(c) && k < |Chain(c)| && Tried(h, c, k) && GoesOn(VerdictAt(c, k))
    ensures Advance(h, UpdateOf(c, k)) == TierHealth(h, c, k)
  {
    hide VerdictAt, Outline;
  }

  /** How the three kinds of call record a tier that was called and goes on. */
  lemma {:induction false} CalledUpdate(c: GatewayCall, k: nat)
    requires Scripted(c) && k < |Chain(c)| && GoesOn(VerdictAt(c, k)) && Outline(c, k).built.None?
    ensures var e, o := UpdateOf(c, k), AfterReply(c, k);
            if c.StructuredCall? then o.Repeats? && AfterRetry(c, k) == Passes(e) && VerdictAt(c, k).Spoils?
            else !VerdictAt(c, k).Spoils? && (o == Passes(e) || (k == |Chain(c)| - 1 && o == Ends([e])))
  {
  }

  lemma {:induction false} UnbuiltUpdate(c: GatewayCall, k: nat)
    requires Scripted(c) && k < |Chain(c)| && Outline(c, k).built.Some?
    ensures RecordOf(Outline(c, k).built.value, Chain(c)[k].provider, Outline(c, k).doneAt) == UpdateOf(c, k)
  {
  }

  lemma {:induction false} NothingAfterTheLastTier(h: Health, c: GatewayCall)
    requires Scripted(c)
    ensures EventsFrom(h, c, |Chain(c)|) == []
  {
  }

  lemma {:induction false} UnbuiltTier(h: Health, c: GatewayCall, k: nat)
    requires Scripted(c) && k < |Chain(c)| && Tried(h, c, k) && Outline(c, k).built.Some?
    ensures TierEvents(h, c, k) == [UpdateOf(c, k)] + EventsFrom(Advance(h, UpdateOf(c, k)), c, k + 1)
  {
    UnbuiltUpdate(c, k);
    hide Advance, EventsFrom, AfterReply, AfterRetry, Outline, UpdateOf, RecordOf;
  }

  lemma {:induction false} CalledTier(h: Health, c: GatewayCall, k: nat)
    requires Scripted(c) && k < |Chain(c)| && Tried(h, c, k) && GoesOn(VerdictAt(c, k)) && Outline(c, k).built.None?
    ensures TierEvents(h, c, k) == PassedLog(c, k) + EventsFrom(Advance(h, UpdateOf(c, k)), c, k + 1)
  {
    var p, s, e := Chain(c)[k].provider, Outline(c, k), UpdateOf(c, k);
    CalledUpdate(c, k);
    NothingAfterTheLastTier(Advance(h, e), c);
    hide Advance, EventsFrom, AfterReply, AfterRetry, Outline, UpdateOf, VerdictAt;
    var rest := EventsFrom(Advance(h, e), c, k + 1);
    if c.StructuredCall? {
      assert [Call(p, s.callAt)] + ([Call(p, s.retryAt)] + ([e] + rest))
             == [Call(p, s.callAt), Call(p, s.retryAt)] + [e] + rest;
    } else {
      Associate([Call(p, s.callAt)], [e], rest);
      assert AfterReply(c, k) == Ends([e]) ==> [e] + rest == [e];
    }
  }

  lemma {:induction false} PassedLogAfter(h: Health, c: GatewayCall, k: nat)
    requires Scripted(c) && k < |Chain(c)| && GoesOn(VerdictAt(c, k))
    ensures After(h, PassedLog(c, k)) == Advance(h, UpdateOf(c, k))
  {
    var p, s, e := Chain(c)[k].provider, Outline(c, k), UpdateOf(c, k);
    hide Advance, Outline, UpdateOf, VerdictAt;
    AfterOne(h, e);
    AfterTwo(h, Call(p, s.callAt), e);
    AfterThree(h, Call(p, s.callAt), Call(p, s.retryAt), e);
    hide After;
    assert [] + [e] == [e] && [Call(p, s.callAt)] + [e] == [Call(p, s.callAt), e];
    assert [Call(p, s.callAt), Call(p, s.retryAt)] + [e] == [Call(p, s.callAt), Call(p, s.retryAt), e];
  }

  /** A tier that is tried and goes on: its calls and its update come first, and what follows finds the new health. */
  lemma {:induction false} PassedTier(h: Health, c: GatewayCall, k: nat)
    requires Scripted(c) && k < |Chain(c)| && Tried(h, c, k) && GoesOn(VerdictAt(c, k))
    ensures EventsFrom(h, c, k) == PassedLog(c, k) + EventsFrom(TierHealth(h, c, k), c, k + 1)
    ensures After(h, PassedLog(c, k)) == TierHealth(h, c, k)
  {
    EveryTier(h, c, k);
    UpdateIsJudged(h, c, k);
    PassedLogAfter(h, c, k);
    hide After, Advance, TierHealth, TierEvents, EventsFrom, VerdictAt, Tried, UpdateOf;
    if Outline(c, k).built.Some? {
      UnbuiltTier(h, c, k);
      assert PassedLog(c, k) == [UpdateOf(c, k)];
    } else {
      hide PassedLog;
      CalledTier(h, c, k);
    }
  }

  lemma {:induction false} SkippedTier(h: Health, c: GatewayCall, k: nat)
    requires Scripted(c) && k < |Chain(c)| && !Tried(h, c, k)
    ensures EventsFrom(h, c, k) == EventsFrom(h, c, k + 1) && TierHealth(h, c, k) == h
  {
    EveryTier(h, c, k);
    hide EventsFrom, AfterReply, AfterRetry, Following;
  }

  /** How the three kinds of call record a tier that ends them. */
  lemma {:induction false} EndingUpdate(c: GatewayCall, k: nat)
    requires Scripted(c) && k < |Chain(c)| && !GoesOn(VerdictAt(c, k))
    ensures var e := Succeeded(Chain(c)[k].provider, Outline(c, k).doneAt);
            var last := if VerdictAt(c, k).Succeeds? then [e] else [];
            && Outline(c, k).built.None?
            && if AfterReply(c, k).Repeats? then AfterRetry(c, k) == Ends(last) else AfterReply(c, k) == Ends(last)
  {
    if c.StreamCall? && c.streams[k].body.chunks != [] {
      assert Serve(c.chain[k], c.streams[k], k, c.demand).events[1..]
             == if VerdictAt(c, k).Succeeds? then [Succeeded(c.chain[k].provider, c.streams[k].doneAt)] else [];
    }
  }

  /** A tier that is tried and ends the call: the rest of the log, and the health it leaves. */
  lemma {:induction false} EndingTier(h: Health, c: GatewayCall, k: nat)
    requires Scripted(c) && k < |Chain(c)| && Tried(h, c, k) && !GoesOn(VerdictAt(c, k))
    ensures After(h, EventsFrom(h, c, k)) == TierHealth(h, c, k)
  {
    var p, s := Chain(c)[k].provider, Outline(c, k);
    var call, retry, e := Call(p, s.callAt), Call(p, s.retryAt), Succeeded(p, s.doneAt);
    EveryTier(h, c, k);
    EndingUpdate(c, k);
    EndingLogs(h, call, retry, e);
    assert VerdictAt(c, k).Breaks? ==> h[p := h[p]] == h;
    hide EventsFrom, AfterReply, AfterRetry, Outline, VerdictAt, After;
  }

  lemma {:induction false} EndingLogs(h: Health, call: Event, retry: Event, e: Event)
    requires call.Call? && retry.Call?
    ensures After(h, [call] + []) == After(h, [call] + ([retry] + [])) == h
    ensures After(h, [call] + [e]) == After(h, [call] + ([retry] + [e])) == Advance(h, e)
  {
    AfterOne(h, call);
    AfterTwo(h, call, retry);
    AfterTwo(h, call, e);
    AfterThree(h, call, retry, e);
    assert [call] + [] == [call] && [call] + ([retry] + []) == [call, retry];
    assert [call] + [e] == [call, e] && [call] + ([retry] + [e]) == [call, retry, e];
  }

  // ---------------------------------------------------------------- one call

  lemma {:induction false} CallFromItsStart(h: Health, c: GatewayCall)
    requires Scripted(c)
    ensures EventsOf(h, c) == EventsFrom(h, c, 0)
  {
  }

  lemma {:induction false} GotThrough(h: Health, c: GatewayCall, k: nat)
    requires Scripted(c) && 0 < k <= |Chain(c)| && GetsTo(h, c, k)
    ensures GetsTo(h, c, k - 1) && (Tried(Through(h, c, k - 1), c, k - 1) ==> GoesOn(VerdictAt(c, k - 1)))
  {
    hide Through, VerdictAt, Tried;
  }

  /** When a call gets to tier k its log so far has brought the breaker to what the table says. */
  lemma {:induction false} TierByTier(h: Health, c: GatewayCall, k: nat) returns (log: seq<Event>)
    requires Scripted(c) && k <= |Chain(c)| && GetsTo(h, c, k)
    ensures After(h, log) == Through(h, c, k)
    ensures EventsOf(h, c) == log + EventsFrom(Through(h, c, k), c, k)
    ensures k > 0 && Tried(Through(h, c, k - 1), c, k - 1) ==> log != [] && log[|log| - 1] == UpdateOf(c, k - 1)
  {
    hide EventsOf, EventsFrom, After, VerdictAt, UpdateOf, Tried, GetsTo, TierHealth;
    if k == 0 {
      log := [];
      CallFromItsStart(h, c);
      AfterNone(h);
      assert [] + EventsFrom(h, c, 0) == EventsFrom(h, c, 0);
    } else {
      GotThrough(h, c, k);
      var before := TierByTier(h, c, k - 1);
      var hk := Through(h, c, k - 1);
      if Tried(hk, c, k - 1) {
        PassedTier(hk, c, k - 1);
        log := before + PassedLog(c, k - 1);
        AfterConcat(h, before, PassedLog(c, k - 1));
        Associate(before, PassedLog(c, k - 1), EventsFrom(Through(h, c, k), c, k));
      } else {
        SkippedTier(hk, c, k - 1);
        log := before;
      }
    }
  }

  /** The tier that ends the call, or the length of the chain. */
  predicate EndsAt(h: Health, c: GatewayCall, k: nat)
    requires Scripted(c)
  {
    && k <= |Chain(c)| && GetsTo(h, c, k)
    && (k < |Chain(c)| ==> Tried(Through(h, c, k), c, k) && !GoesOn(VerdictAt(c, k)))
  }

  /** Whatever its kind, a call leaves the breaker as the verdicts on its tiers say, up to the one that ends it. */
  lemma {:induction false} BreakerFollowsVerdicts(h: Health, c: GatewayCall, k: nat)
    requires Scripted(c) && EndsAt(h, c, k)
    ensures After(h, EventsOf(h, c)) == Through(h, c, if k < |Chain(c)| then k + 1 else k)
  {
    var log := TierByTier(h, c, k);
    var hk := Through(h, c, k);
    hide EventsOf, EventsFrom, After, VerdictAt, GetsTo;
    AfterConcat(h, log, EventsFrom(hk, c, k));
    if k < |Chain(c)| {
      EndingTier(hk, c, k);
    } else {
      NothingAfterTheLastTier(hk, c);
      AfterNone(hk);
    }
  }

  /** Every call ends somewhere. */
  lemma {:induction false} EveryCallEnds(h: Health, c: GatewayCall, k: nat) returns (end: nat)
    requires Scripted(c) && k <= |Chain(c)| && GetsTo(h, c, k)
    ensures k <= end && EndsAt(h, c, end)
    decreases |Chain(c)| - k
  {
    hide VerdictAt, Through;
    if k == |Chain(c)| || (Tried(Through(h, c, k), c, k) && !GoesOn(VerdictAt(c, k))) {
      end := k;
    } else {
      end := EveryCallEnds(h, c, k + 1);
    }
  }

  // ---------------------------------------------------------------- after a rate limit or a missing key

  /** The call gets to tier k, which is out of cooldown and raises RateLimitError or KeyError. */
  predicate Rejects(h: Health, c: GatewayCall, k: nat) {
    && Scripted(c) && k < |Chain(c)| && GetsTo(h, c, k) && Tried(Through(h, c, k), c, k)
    && (VerdictAt(c, k) == Fails(RateLimitError) || VerdictAt(c, k) == Fails(KeyError))
  }

  /** Entry m - 1 of the log is the rate limit of p at that time; right after it p has a cooldown of 300 seconds and no
      failure counted, and nothing is done to p before it is over. */
  predicate LeftAlone(h: Health, log: seq<Event>, m: nat, p: Provider, at: real) {
    && 0 < m <= |log| && log[m - 1] == RateLimited(p, at)
    && After(h, log[..m])[p] == ProviderState(0, at + 300.0)
    && forall j :: m <= j < |log| && log[j].provider == p ==> log[j].at >= at + 300.0
  }

  /** If a tier that is tried raises RateLimitError or KeyError, its provider is left alone for 300 seconds, by the rest
      of the call and by every later one. */
  lemma {:induction false} RejectedIsLeftAlone(h: Health, now: real, calls: seq<GatewayCall>, k: nat) returns (m: nat)
    requires calls != [] && NonOverlapping(now, calls) && Rejects(h, calls[0], k)
    ensures LeftAlone(h, WholeLog(h, now, calls), m, Chain(calls[0])[k].provider, Outline(calls[0], k).doneAt)
  {
    var c := calls[0];
    RejectionSetsCooldown(h, c, k);
    WholeLogIsOrderly(h, now, calls);
    hide *;
    var p, at := Chain(c)[k].provider, Outline(c, k).doneAt;
    var done := TierByTier(h, c, k + 1);
    m := |done|;
    var rest := FirstCallIsFirst(h, now, calls, done, EventsFrom(Through(h, c, k + 1), c, k + 1));
    RightAfter(h, now, done, rest, p, at);
  }

  lemma {:induction false} RightAfter(h: Health, now: real, done: seq<Event>, rest: seq<Event>, p: Provider, at: real)
    requires Orderly(h, now, done + rest) && done != [] && done[|done| - 1] == RateLimited(p, at)
    requires After(h, done)[p] == ProviderState(0, at + 300.0)
    ensures LeftAlone(h, done + rest, |done|, p, at)
  {
    hide Orderly, After;
    Silence(h, now, done, rest, p, at + 300.0);
    assert (done + rest)[..|done|] == done;
  }

  lemma {:induction false} RejectionSetsCooldown(h: Health, c: GatewayCall, k: nat)
    requires Rejects(h, c, k)
    ensures var p, at := Chain(c)[k].provider, Outline(c, k).doneAt;
            && Tried(Through(h, c, k), c, k) && GetsTo(h, c, k + 1) && UpdateOf(c, k) == RateLimited(p, at)
            && Through(h, c, k + 1)[p] == ProviderState(0, at + 300.0)
  {
    hide VerdictAt, Outline;
  }

  lemma {:induction false} FirstCallIsFirst(h: Health, now: real, calls: seq<GatewayCall>, a: seq<Event>, b: seq<Event>)
    returns (rest: seq<Event>)
    requires calls != [] && NonOverlapping(now, calls) && EventsOf(h, calls[0]) == a + b
    ensures WholeLog(h, now, calls) == a + rest
  {
    hide EventsOf, After;
    rest := b + WholeLog(After(h, a + b), CallEnd(now, calls[0]), calls[1..]);
    Associate(a, b, WholeLog(After(h, a + b), CallEnd(now, calls[0]), calls[1..]));
  }

  lemma {:induction false} Silence(h: Health, now: real, done: seq<Event>, rest: seq<Event>, p: Provider, until: real)
    requires Orderly(h, now, done + rest) && After(h, done)[p].cooldownUntil == until
    ensures forall j :: |done| <= j < |done + rest| && (done + rest)[j].provider == p ==> (done + rest)[j].at >= until
  {
    hide Orderly, After;
    OrderlySuffix(h, now, done, rest);
    forall j | |done| <= j < |done + rest| && (done + rest)[j].provider == p ensures (done + rest)[j].at >= until {
      HeldUntilCooldownEnds(After(h, done), EndTime(now, done), rest, j - |done|);
    }
  }
}
