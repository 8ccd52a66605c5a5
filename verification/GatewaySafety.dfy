/** Safety of whole runs: any sequence of non-overlapping gateway calls, of any of the three kinds, over any
    chains, against one breaker and a clock that never runs backwards. */
module GatewaySafety {
  import opened Common
  import opened CircuitBreaker
  import opened UseCasePolicies
  import opened GatewaySpec

  datatype GatewayCall =
    | RunCall(chain: seq<ProviderChoice>, replies: seq<TierScript<Reply>>)
    | StructuredCall(chain: seq<ProviderChoice>, attempts: seq<TierScript<Attempts>>)
    | StreamCall(chain: seq<ProviderChoice>, streams: seq<TierScript<ChunkStream>>, demand: nat)

  predicate Scripted(c: GatewayCall) {
    match c
    case RunCall(chain, s) => |s| == |chain|
    case StructuredCall(chain, s) => |s| == |chain|
    case StreamCall(chain, s, demand) => |s| == |chain| && demand >= 1
  }

  function EventsOf(h: Health, c: GatewayCall): seq<Event>
    requires Scripted(c)
  {
    match c
    case RunCall(chain, s) => RunFrom(h, chain, s, 0, None).events
    case StructuredCall(chain, s) => StructuredFrom(h, chain, s, 0).events
    case StreamCall(chain, s, demand) => StreamFrom(h, chain, s, 0, demand).events
  }

  predicate CallClockOk(now: real, c: GatewayCall) {
    match c
    case RunCall(_, s) => ClockOk(now, s)
    case StructuredCall(_, s) => ClockOk(now, s)
    case StreamCall(_, s, _) => ClockOk(now, s)
  }

  function CallEnd(now: real, c: GatewayCall): real {
    match c
    case RunCall(_, s) => EndOf(now, s)
    case StructuredCall(_, s) => EndOf(now, s)
    case StreamCall(_, s, _) => EndOf(now, s)
  }

  /** Each call starts when the one before it is over. */
  predicate NonOverlapping(now: real, calls: seq<GatewayCall>)
    decreases |calls|
  {
    calls == [] ||
    (Scripted(calls[0]) && CallClockOk(now, calls[0]) && NonOverlapping(CallEnd(now, calls[0]), calls[1..]))
  }

  function WholeLog(h: Health, now: real, calls: seq<GatewayCall>): seq<Event>
    requires NonOverlapping(now, calls)
    decreases |calls|
  {
    if calls == [] then []
    else
      var events := EventsOf(h, calls[0]);
      events + WholeLog(After(h, events), CallEnd(now, calls[0]), calls[1..])
  }

  // ---------------------------------------------------------------- one tier, one call

  /** The clock of the tiers from `tier` on, all of them between `now` and `until`. */
  predicate ClockFrom<B>(now: real, script: seq<TierScript<B>>, tier: nat, until: real) {
    && now <= until
    && (forall i :: tier <= i < |script| ==>
          now <= script[i].checkAt <= script[i].callAt <= script[i].retryAt <= script[i].doneAt <= until)
    && (forall i, j :: tier <= i < j < |script| ==> script[i].doneAt <= script[j].checkAt)
  }

  /** The discipline of one call's log: orderly, and over by `until`. */
  predicate Within(h: Health, now: real, log: seq<Event>, until: real) {
    Orderly(h, now, log) && EndTime(now, log) <= until
  }

  lemma {:induction false} WithinPrepend(h: Health, now: real, log: seq<Event>, mid: real, rest: seq<Event>,
                                         until: real)
    requires Within(h, now, log, mid) && Within(After(h, log), mid, rest, until)
    ensures Within(h, now, log + rest, until)
  {
    EarlierStart(After(h, log), EndTime(now, log), mid, rest);
    OrderlyConcat(h, now, log, rest);
  }

  lemma {:induction false} EarlierStart(h: Health, now: real, later: real, log: seq<Event>)
    requires now <= later && Orderly(h, later, log)
    ensures Orderly(h, now, log)
  {
  }

  lemma {:induction false} WithinOne(h: Health, now: real, e: Event)
    requires now <= e.at && h[e.provider].cooldownUntil <= e.at
    ensures Within(h, now, [e], e.at) && After(h, [e]) == Advance(h, e)
  {
    assert Orderly(Advance(h, e), e.at, []);
    AfterOne(h, e);
  }

  /** Calls to an available provider followed by one record of how they went. */
  lemma {:induction false} WithinTwo(h: Health, now: real, call: Event, e: Event)
    requires call.Call? && call.provider == e.provider
    requires h[e.provider].cooldownUntil <= call.at && now <= call.at <= e.at
    ensures Within(h, now, [call, e], e.at) && After(h, [call, e]) == Advance(h, e)
  {
    assert [call, e][1..] == [e];
    WithinOne(h, call.at, e);
  }

  lemma {:induction false} WithinThree(h: Health, now: real, call: Event, retry: Event, e: Event)
    requires call.Call? && retry.Call? && call.provider == retry.provider == e.provider
    requires h[e.provider].cooldownUntil <= call.at && now <= call.at <= retry.at <= e.at
    ensures Within(h, now, [call, retry, e], e.at) && After(h, [call, retry, e]) == Advance(h, e)
  {
    assert [call, retry, e][1..] == [retry, e];
    WithinTwo(h, call.at, retry, e);
  }

  lemma {:induction false} RunIsOrderly(h: Health, now: real, chain: seq<ProviderChoice>,
                                        script: seq<TierScript<Reply>>, tier: nat, last: Option<Exc>, until: real)
    requires tier <= |chain| == |script| && ClockFrom(now, script, tier, until)
    ensures Within(h, now, RunFrom(h, chain, script, tier, last).events, until)
    decreases |chain| - tier
  {
    if tier < |chain| {
      var s, p := script[tier], chain[tier].provider;
      if Cooling(h, chain[tier], s.checkAt) {
        RunIsOrderly(h, now, chain, script, tier + 1, last, until);
      } else if s.built.Some? {
        var e := RecordOf(s.built.value, p, s.doneAt);
        WithinOne(h, now, e);
        RunIsOrderly(Advance(h, e), s.doneAt, chain, script, tier + 1, s.built, until);
        WithinPrepend(h, now, [e], s.doneAt, RunFrom(Advance(h, e), chain, script, tier + 1, s.built).events, until);
      } else if s.body.Raises? {
        var e := RecordOf(s.body.exc, p, s.doneAt);
        WithinTwo(h, now, Call(p, s.callAt), e);
        RunIsOrderly(Advance(h, e), s.doneAt, chain, script, tier + 1, Some(s.body.exc), until);
        WithinPrepend(h, now, [Call(p, s.callAt), e], s.doneAt,
                      RunFrom(Advance(h, e), chain, script, tier + 1, Some(s.body.exc)).events, until);
      } else {
        WithinTwo(h, now, Call(p, s.callAt), Succeeded(p, s.doneAt));
      }
    }
  }

  lemma {:induction false} AttemptIsOrderly(h: Health, now: real, choice: ProviderChoice, s: TierScript<Attempts>)
    requires now <= s.checkAt <= s.callAt <= s.retryAt <= s.doneAt
    ensures Within(h, now, Attempt(h, choice, s).events, s.doneAt)
  {
    var p := choice.provider;
    if !Cooling(h, choice, s.checkAt) {
      if s.built.Some? {
        WithinOne(h, now, RecordOf(s.built.value, p, s.doneAt));
      } else {
        WithinTwo(h, now, Call(p, s.callAt), Succeeded(p, s.doneAt));
        WithinThree(h, now, Call(p, s.callAt), Call(p, s.retryAt), Succeeded(p, s.doneAt));
        WithinThree(h, now, Call(p, s.callAt), Call(p, s.retryAt), Failed(p, s.doneAt));
      }
    }
  }

  lemma {:induction false} StructuredIsOrderly(h: Health, now: real, chain: seq<ProviderChoice>,
                                               script: seq<TierScript<Attempts>>, tier: nat, until: real)
    requires tier <= |chain| == |script| && ClockFrom(now, script, tier, until)
    ensures Within(h, now, StructuredFrom(h, chain, script, tier).events, until)
    decreases |chain| - tier
  {
    if tier < |chain| {
      var s := script[tier];
      var a := Attempt(h, chain[tier], s);
      AttemptIsOrderly(h, now, chain[tier], s);
      if a.parsed.None? {
        hide Attempt;
        StructuredIsOrderly(After(h, a.events), s.doneAt, chain, script, tier + 1, until);
        WithinPrepend(h, now, a.events, s.doneAt, StructuredFrom(After(h, a.events), chain, script, tier + 1).events,
                      until);
      }
    }
  }

  lemma {:induction false} StreamIsOrderly(h: Health, now: real, chain: seq<ProviderChoice>,
                                           script: seq<TierScript<ChunkStream>>, tier: nat, demand: nat, until: real)
    requires tier <= |chain| == |script| && demand >= 1 && ClockFrom(now, script, tier, until)
    ensures Within(h, now, StreamFrom(h, chain, script, tier, demand).events, until)
    decreases |chain| - tier
  {
    if tier < |chain| {
      var s, p := script[tier], chain[tier].provider;
      if Cooling(h, chain[tier], s.checkAt) {
        StreamIsOrderly(h, now, chain, script, tier + 1, demand, until);
      } else if s.built.Some? {
        var e := RecordOf(s.built.value, p, s.doneAt);
        WithinOne(h, now, e);
        StreamIsOrderly(Advance(h, e), s.doneAt, chain, script, tier + 1, demand, until);
        WithinPrepend(h, now, [e], s.doneAt, StreamFrom(Advance(h, e), chain, script, tier + 1, demand).events, until);
      } else {
        StreamCallIsOrderly(h, now, chain, script, tier, demand, until);
      }
    }
  }

  lemma {:induction false} StreamCallIsOrderly(h: Health, now: real, chain: seq<ProviderChoice>,
                                               script: seq<TierScript<ChunkStream>>,
                                               tier: nat, demand: nat, until: real)
    requires tier < |chain| == |script| && demand >= 1 && ClockFrom(now, script, tier, until)
    requires !Cooling(h, chain[tier], script[tier].checkAt) && script[tier].built.None?
    ensures Within(h, now, StreamFrom(h, chain, script, tier, demand).events, until)
    decreases |chain| - tier, 0
  {
    var s, p := script[tier], chain[tier].provider;
    var call := Call(p, s.callAt);
    match FirstChunkFailure(chain[tier], s.body)
    case Some(exc) =>
      var e := RecordOf(exc, p, s.doneAt);
      WithinTwo(h, now, call, e);
      if tier < |chain| - 1 {
        StreamIsOrderly(Advance(h, e), s.doneAt, chain, script, tier + 1, demand, until);
        WithinPrepend(h, now, [call, e], s.doneAt, StreamFrom(Advance(h, e), chain, script, tier + 1, demand).events,
                      until);
      }
    case None =>
      WithinOne(h, now, call);
      WithinTwo(h, now, call, Succeeded(p, s.doneAt));
      assert [call] + [] == [call] && [call] + [Succeeded(p, s.doneAt)] == [call, Succeeded(p, s.doneAt)];
  }

  // ---------------------------------------------------------------- whole runs

  lemma {:induction false} CallIsOrderly(h: Health, now: real, c: GatewayCall)
    requires Scripted(c) && CallClockOk(now, c)
    ensures Within(h, now, EventsOf(h, c), CallEnd(now, c))
  {
    match c
    case RunCall(chain, s) => RunIsOrderly(h, now, chain, s, 0, None, EndOf(now, s));
    case StructuredCall(chain, s) => StructuredIsOrderly(h, now, chain, s, 0, EndOf(now, s));
    case StreamCall(chain, s, demand) => StreamIsOrderly(h, now, chain, s, 0, demand, EndOf(now, s));
  }

  lemma {:induction false} WholeLogIsOrderly(h: Health, now: real, calls: seq<GatewayCall>)
    requires NonOverlapping(now, calls)
    ensures Orderly(h, now, WholeLog(h, now, calls))
    decreases |calls|
  {
    if calls != [] {
      var events, mid := EventsOf(h, calls[0]), CallEnd(now, calls[0]);
      CallIsOrderly(h, now, calls[0]);
      var rest := WholeLog(After(h, events), mid, calls[1..]);
      WholeLogIsOrderly(After(h, events), mid, calls[1..]);
      WithinPrepend(h, now, events, mid, rest, if EndTime(mid, rest) > mid then EndTime(mid, rest) else mid);
    }
  }

  /** No network call to a provider starts within 300 seconds of its rate limit, nor within 60 seconds of the
      failure that trips its breaker, even when it fills several tiers of a chain. */
  lemma {:induction false} CooldownSafety(h: Health, now: real, calls: seq<GatewayCall>, log: seq<Event>, i: nat,
                                          j: nat)
    requires NonOverlapping(now, calls) && log == WholeLog(h, now, calls)
    requires i < j < |log| && log[i].provider == log[j].provider && log[j].Call?
    ensures log[i].RateLimited? ==> log[j].at >= log[i].at + 300.0
    ensures Trips(h, log, i) ==> log[j].at >= log[i].at + 60.0
  {
    WholeLogIsOrderly(h, now, calls);
    CooldownRespected(h, now, log, i, j);
  }

  /** In any stretch log[a..b] of a run that starts with the provider fresh and sees no success and no rate
      limit of it, lasting at most `seconds`, at most 3 + floor(seconds / 60) failures are recorded. */
  lemma {:induction false} FailureRate(h: Health, now: real, calls: seq<GatewayCall>, log: seq<Event>, a: nat, b: nat,
                                       p: Provider, seconds: real)
    requires NonOverlapping(now, calls) && log == WholeLog(h, now, calls)
    requires a < b <= |log| && After(h, log[..a])[p] == FRESH && NoRecovery(log[a..b], p)
    requires log[b - 1].at - log[a].at <= seconds
    ensures FailureCount(log[a..b], p) <= 3 + (seconds / 60.0).Floor
  {
    hide *;
    WholeLogIsOrderly(h, now, calls);
    StretchFailureRate(h, now, log, a, b, p, seconds);
  }
}
