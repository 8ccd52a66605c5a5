/** The properties of the gateway's call paths, for every chain, every health and every script. */
module GatewayTheorems {
  import opened Common
  import opened CircuitBreaker
  import opened UseCasePolicies
  import opened GatewaySpec

  // ---------------------------------------------------------------- run

  predicate RunServes(h: Health, chain: seq<ProviderChoice>, script: seq<TierScript<Reply>>, k: nat)
    requires k < |chain| <= |script|
  {
    !PassedAt(ReplyFailure, h, chain, script, k)
  }

  /** `t` is what `run` does from tier `tier` on when tier `k` is the first to serve, or none is. */
  ghost predicate RunEndsAt(h: Health, chain: seq<ProviderChoice>, script: seq<TierScript<Reply>>, before: seq<Event>,
                            t: RunTrace, k: nat)
    requires k <= |chain| <= |script|
  {
    var passes := PassesLog(ReplyFailure, h, chain, script, k);
    if k < |chain| then
      var p, s := chain[k].provider, script[k];
      && s.body.Text?
      && t.result == Returned(s.body.text)
      && before + t.events == passes + [Call(p, s.callAt), Succeeded(p, s.doneAt)]
      && t.metrics == [Metric(p, chain[k].model, |s.body.text|, k > 0, false, None)]
    else
      var exc := LastFailure(h, chain, script, k);
      && t.result == Raised(if exc.Some? then exc.value else RuntimeError)
      && before + t.events == passes
      && t.metrics == []
  }

  lemma {:induction false} RunShape(h: Health, chain: seq<ProviderChoice>, script: seq<TierScript<Reply>>, tier: nat)
    returns (k: nat)
    requires tier <= |chain| <= |script|
    ensures tier <= k <= |chain|
    ensures forall i | tier <= i < k :: PassedAt(ReplyFailure, h, chain, script, i)
    ensures k < |chain| ==> RunServes(h, chain, script, k)
    ensures RunEndsAt(h, chain, script, PassesLog(ReplyFailure, h, chain, script, tier),
                      RunAt(h, chain, script, tier), k)
    decreases |chain| - tier
  {
    hide RunEndsAt, PassesLog, RunAt;
    if tier == |chain| {
      k := tier;
      RunExhausted(h, chain, script);
    } else if RunServes(h, chain, script, tier) {
      k := tier;
      RunServesHere(h, chain, script, tier);
    } else {
      k := RunShape(h, chain, script, tier + 1);
      RunPassesHere(h, chain, script, tier, k);
    }
  }

  /** What `run` does from tier `tier` on, having passed over every tier before it. */
  function RunAt(h: Health, chain: seq<ProviderChoice>, script: seq<TierScript<Reply>>, tier: nat): RunTrace
    requires tier <= |chain| <= |script|
  {
    RunFrom(HealthAt(ReplyFailure, h, chain, script, tier), chain, script, tier, LastFailure(h, chain, script, tier))
  }

  lemma {:induction false} RunPassesHere(h: Health, chain: seq<ProviderChoice>, script: seq<TierScript<Reply>>,
                                         tier: nat, k: nat)
    requires tier < k <= |chain| <= |script| && PassedAt(ReplyFailure, h, chain, script, tier)
    requires RunEndsAt(h, chain, script, PassesLog(ReplyFailure, h, chain, script, tier + 1),
                       RunAt(h, chain, script, tier + 1), k)
    ensures RunEndsAt(h, chain, script, PassesLog(ReplyFailure, h, chain, script, tier), RunAt(h, chain, script, tier),
                      k)
  {
    var before := PassesLog(ReplyFailure, h, chain, script, tier);
    var ht := After(h, before);
    var log := PassLog(ReplyFailure, ht, chain[tier], script[tier]);
    RunStep(ht, chain, script, tier, LastFailure(h, chain, script, tier));
    PassOne(ReplyFailure, h, chain, script, tier);
    assert PassesLog(ReplyFailure, h, chain, script, tier + 1) == before + log;
    RunEndsEarlier(h, chain, script, before, log, RunAt(h, chain, script, tier + 1), k);
    assert RunAt(h, chain, script, tier) == PrependRun(log, RunAt(h, chain, script, tier + 1));
  }

  lemma {:induction false} RunServesHere(h: Health, chain: seq<ProviderChoice>, script: seq<TierScript<Reply>>, k: nat)
    requires k < |chain| <= |script| && RunServes(h, chain, script, k)
    ensures RunEndsAt(h, chain, script, PassesLog(ReplyFailure, h, chain, script, k),
                      RunAt(h, chain, script, k), k)
  {
  }

  lemma {:induction false} RunExhausted(h: Health, chain: seq<ProviderChoice>, script: seq<TierScript<Reply>>)
    requires |chain| <= |script|
    ensures RunEndsAt(h, chain, script, PassesLog(ReplyFailure, h, chain, script, |chain|),
                      RunAt(h, chain, script, |chain|), |chain|)
  {
    var before := PassesLog(ReplyFailure, h, chain, script, |chain|);
    assert before + [] == before;
  }

  lemma {:induction false} RunEndsEarlier(h: Health, chain: seq<ProviderChoice>, script: seq<TierScript<Reply>>,
                                          before: seq<Event>,
                                          log: seq<Event>, rest: RunTrace, k: nat)
    requires k <= |chain| <= |script| && RunEndsAt(h, chain, script, before + log, rest, k)
    ensures RunEndsAt(h, chain, script, before, PrependRun(log, rest), k)
  {
    assert before + (log + rest.events) == (before + log) + rest.events;
  }

  lemma {:induction false} RunStep(h: Health, chain: seq<ProviderChoice>, script: seq<TierScript<Reply>>, tier: nat,
                                   last: Option<Exc>)
    requires tier < |chain| <= |script|
    requires Passed(ReplyFailure, h, chain[tier], script[tier])
    ensures var log := PassLog(ReplyFailure, h, chain[tier], script[tier]);
            var last' := if Cooling(h, chain[tier], script[tier].checkAt) then last
                         else if script[tier].built.Some? then script[tier].built
                         else ReplyFailure(chain[tier], script[tier].body);
            RunFrom(h, chain, script, tier, last)
              == PrependRun(log, RunFrom(After(h, log), chain, script, tier + 1, last'))
  {
    var s, p := script[tier], chain[tier].provider;
    if Cooling(h, chain[tier], s.checkAt) {
    } else if s.built.Some? {
      AfterOne(h, RecordOf(s.built.value, p, s.doneAt));
    } else {
      AfterSnoc(h, [Call(p, s.callAt)], RecordOf(s.body.exc, p, s.doneAt));
      assert [Call(p, s.callAt)] + [RecordOf(s.body.exc, p, s.doneAt)]
             == [Call(p, s.callAt), RecordOf(s.body.exc, p, s.doneAt)];
    }
  }

  /** Passing over one tier moves its log from the rest of a run to the part already done. */
  lemma {:induction false} RunMovesOn(h: Health, done: seq<Event>, chain: seq<ProviderChoice>,
                                      script: seq<TierScript<Reply>>, tier: nat,
                                      last: Option<Exc>, last': Option<Exc>)
    requires tier < |chain| <= |script| && Passed(ReplyFailure, After(h, done), chain[tier], script[tier])
    requires last' == if Cooling(After(h, done), chain[tier], script[tier].checkAt) then last
                      else if script[tier].built.Some? then script[tier].built
                      else ReplyFailure(chain[tier], script[tier].body)
    ensures var done' := done + PassLog(ReplyFailure, After(h, done), chain[tier], script[tier]);
            PrependRun(done, RunFrom(After(h, done), chain, script, tier, last))
            == PrependRun(done', RunFrom(After(h, done'), chain, script, tier + 1, last'))
  {
    hide PassLog, RunFrom, Passed, Cooling, ReplyFailure, After, PrependRun;
    RunStep(After(h, done), chain, script, tier, last);
    var log := PassLog(ReplyFailure, After(h, done), chain[tier], script[tier]);
    AfterConcat(h, done, log);
    PrependTwice(done, log, RunFrom(After(h, done + log), chain, script, tier + 1, last'));
  }

  lemma {:induction false} PrependTwice(a: seq<Event>, b: seq<Event>, t: RunTrace)
    ensures PrependRun(a, PrependRun(b, t)) == PrependRun(a + b, t)
  {
    assert a + (b + t.events) == (a + b) + t.events;
  }

  /** A serving tier ends the run. */
  lemma {:induction false} RunEndsHere(h: Health, done: seq<Event>, chain: seq<ProviderChoice>,
                                       script: seq<TierScript<Reply>>, tier: nat,
                                       last: Option<Exc>)
    requires tier < |chain| <= |script| && !Passed(ReplyFailure, After(h, done), chain[tier], script[tier])
    ensures script[tier].body.Text?
    ensures var p, s := chain[tier].provider, script[tier];
            var log := [Call(p, s.callAt), Succeeded(p, s.doneAt)];
            && After(h, done + log) == After(After(h, done), log)
            && PrependRun(done, RunFrom(After(h, done), chain, script, tier, last))
               == RunTrace(Returned(s.body.text), done + log,
                           [Metric(p, chain[tier].model, |s.body.text|, tier > 0, false, None)])
  {
    var p, s := chain[tier].provider, script[tier];
    AfterConcat(h, done, [Call(p, s.callAt), Succeeded(p, s.doneAt)]);
  }

  lemma {:induction false} RunRunsOut(h: Health, done: seq<Event>, chain: seq<ProviderChoice>,
                                      script: seq<TierScript<Reply>>, last: Option<Exc>)
    requires |chain| <= |script|
    ensures PrependRun(done, RunFrom(After(h, done), chain, script, |chain|, last))
         == RunTrace(Raised(if last.Some? then last.value else RuntimeError), done, [])
  {
    assert done + [] == done;
  }

  /** Tier k is cooling when `run` gets to it. */
  predicate CoolingAt(h: Health, chain: seq<ProviderChoice>, script: seq<TierScript<Reply>>, k: nat)
    requires k < |chain| <= |script|
  {
    Cooling(HealthAt(ReplyFailure, h, chain, script, k), chain[k], script[k].checkAt)
  }

  /** Tier k, out of cooldown, raised `exc`, and every later one of the first n was cooling. */
  predicate RaisedLast(h: Health, chain: seq<ProviderChoice>, script: seq<TierScript<Reply>>, n: nat, k: nat, exc: Exc)
    requires n <= |chain| <= |script|
  {
    && k < n && !CoolingAt(h, chain, script, k)
    && (forall i :: k < i < n ==> CoolingAt(h, chain, script, i))
    && (script[k].built == Some(exc) || (script[k].built.None? && script[k].body == Raises(exc)))
  }

  lemma {:induction false} LastFailureStep(h: Health, chain: seq<ProviderChoice>, script: seq<TierScript<Reply>>,
                                           n: nat)
    requires 0 < n <= |chain| <= |script| && PassedAt(ReplyFailure, h, chain, script, n - 1)
    ensures var exc := LastFailure(h, chain, script, n);
            if CoolingAt(h, chain, script, n - 1) then exc == LastFailure(h, chain, script, n - 1)
            else exc.Some? && RaisedLast(h, chain, script, n, n - 1, exc.value)
  {
    hide HealthAt;
  }

  /** What the exception remembered after n tiers, if any, says about them. */
  ghost predicate RemembersLast(h: Health, chain: seq<ProviderChoice>, script: seq<TierScript<Reply>>, n: nat,
                                exc: Option<Exc>)
    requires n <= |chain| <= |script|
  {
    match exc
    case None => forall i :: 0 <= i < n ==> CoolingAt(h, chain, script, i)
    case Some(e) => exists k :: RaisedLast(h, chain, script, n, k, e)
  }

  lemma {:induction false} RemembersMore(h: Health, chain: seq<ProviderChoice>, script: seq<TierScript<Reply>>, n: nat,
                                         exc: Option<Exc>)
    requires n < |chain| <= |script| && RemembersLast(h, chain, script, n, exc) && CoolingAt(h, chain, script, n)
    ensures RemembersLast(h, chain, script, n + 1, exc)
  {
    hide CoolingAt;
    if exc.Some? {
      var k :| RaisedLast(h, chain, script, n, k, exc.value);
      assert RaisedLast(h, chain, script, n + 1, k, exc.value);
    }
  }

  lemma {:induction false} RemembersThis(h: Health, chain: seq<ProviderChoice>, script: seq<TierScript<Reply>>, n: nat,
                                         k: nat, exc: Exc)
    requires n <= |chain| <= |script| && RaisedLast(h, chain, script, n, k, exc)
    ensures RemembersLast(h, chain, script, n, Some(exc))
  {
    hide CoolingAt, RaisedLast;
  }

  lemma {:induction false} NothingToRemember(h: Health, chain: seq<ProviderChoice>, script: seq<TierScript<Reply>>)
    requires |chain| <= |script|
    ensures RemembersLast(h, chain, script, 0, LastFailure(h, chain, script, 0))
  {
    hide CoolingAt;
  }

  lemma {:induction false} LastFailureIsLast(h: Health, chain: seq<ProviderChoice>, script: seq<TierScript<Reply>>,
                                             n: nat)
    requires n <= |chain| <= |script| && forall i :: 0 <= i < n ==> PassedAt(ReplyFailure, h, chain, script, i)
    ensures RemembersLast(h, chain, script, n, LastFailure(h, chain, script, n))
  {
    hide *;
    if n == 0 {
      NothingToRemember(h, chain, script);
    } else {
      LastFailureStep(h, chain, script, n);
      LastFailureIsLast(h, chain, script, n - 1);
      var exc := LastFailure(h, chain, script, n);
      if CoolingAt(h, chain, script, n - 1) {
        RemembersMore(h, chain, script, n - 1, exc);
      } else {
        RemembersThis(h, chain, script, n, n - 1, exc.value);
      }
    }
  }

  /** `run` answers from the first tier that is out of cooldown, constructible and replies; when there
      is none it raises the last tried tier's exception, or a RuntimeError if every tier was cooling. */
  lemma {:induction false} RunAnswersFromFirstWorkingTier(h: Health, chain: seq<ProviderChoice>,
                                                          script: seq<TierScript<Reply>>)
    requires |chain| <= |script|
    ensures var t := RunFrom(h, chain, script, 0, None);
            && (t.result.Raised? <==> NoneServes(ReplyFailure, h, chain, script))
            && (t.result.Returned? ==> (exists k: nat ::
                  && FirstServing(ReplyFailure, h, chain, script, k) && script[k].body == Text(t.result.text)
                  && t.metrics == [Metric(chain[k].provider, chain[k].model, |t.result.text|, k > 0, false, None)]))
            && (t.result.Raised? ==>
                  && t.metrics == []
                  && (|| (exists k :: RaisedLast(h, chain, script, |chain|, k, t.result.exc))
                      || (t.result.exc == RuntimeError
                          && forall i :: 0 <= i < |chain| ==> CoolingAt(h, chain, script, i))))
  {
    var k := RunShape(h, chain, script, 0);
    if k < |chain| {
      assert FirstServing(ReplyFailure, h, chain, script, k);
    } else {
      LastFailureIsLast(h, chain, script, |chain|);
    }
    hide PassedAt, RunFrom, RaisedLast, CoolingAt, HealthAt, LastFailure, PassesLog;
  }

  // ---------------------------------------------------------------- run_stream

  predicate StreamServes(h: Health, chain: seq<ProviderChoice>, script: seq<TierScript<ChunkStream>>, k: nat)
    requires k < |chain| <= |script|
  {
    !PassedAt(FirstChunkFailure, h, chain, script, k)
  }

  /** The last tier of the chain was called and failed before its first chunk. */
  predicate LastTierRaises(h: Health, chain: seq<ProviderChoice>, script: seq<TierScript<ChunkStream>>)
    requires |chain| <= |script|
  {
    && chain != []
    && var n := |chain| - 1;
    && !Cooling(HealthAt(FirstChunkFailure, h, chain, script, n), chain[n], script[n].checkAt)
    && script[n].built.None?
    && FirstChunkFailure(chain[n], script[n].body).Some?
  }

  ghost predicate StreamEndsAt(h: Health, chain: seq<ProviderChoice>, script: seq<TierScript<ChunkStream>>,
                               before: seq<Event>, t: StreamTrace, demand: nat, k: nat)
    requires k <= |chain| <= |script| && demand >= 1
  {
    var passes := PassesLog(FirstChunkFailure, h, chain, script, k);
    if k == |chain| then
      && t.yielded == [] && t.metrics == [] && before + t.events == passes
      && t.ending == if LastTierRaises(h, chain, script)
                     then StreamRaised(FirstChunkFailure(chain[k - 1], script[k - 1].body).value) else Finished
    else
      var s := script[k];
      if s.body.chunks == [] then
        t.yielded == [] && t.metrics == [] && t.ending == Finished
        && before + t.events == passes + [Call(chain[k].provider, s.callAt)]
      else
        var v := Serve(chain[k], s, k, demand);
        t.yielded == v.yielded && t.ending == v.ending && t.metrics == v.metrics
        && before + t.events == passes + v.events
  }

  function StreamAt(h: Health, chain: seq<ProviderChoice>, script: seq<TierScript<ChunkStream>>, tier: nat,
                    demand: nat): StreamTrace
    requires tier <= |chain| <= |script| && demand >= 1
  {
    StreamFrom(HealthAt(FirstChunkFailure, h, chain, script, tier), chain, script, tier, demand)
  }

  lemma {:induction false} StreamShape(h: Health, chain: seq<ProviderChoice>, script: seq<TierScript<ChunkStream>>,
                                       tier: nat, demand: nat)
    returns (k: nat)
    requires tier <= |chain| <= |script| && demand >= 1
    requires tier == |chain| ==> !LastTierRaises(h, chain, script)
    ensures tier <= k <= |chain|
    ensures forall i | tier <= i < k :: PassedAt(FirstChunkFailure, h, chain, script, i)
    ensures k < |chain| ==> StreamServes(h, chain, script, k)
    ensures StreamEndsAt(h, chain, script, PassesLog(FirstChunkFailure, h, chain, script, tier),
                         StreamAt(h, chain, script, tier, demand), demand, k)
    decreases |chain| - tier
  {
    hide StreamEndsAt, PassesLog, StreamAt;
    if tier == |chain| {
      k := tier;
      StreamExhausted(h, chain, script, demand);
    } else if StreamServes(h, chain, script, tier) {
      k := tier;
      StreamServesHere(h, chain, script, tier, demand);
    } else if tier == |chain| - 1 && LastTierRaises(h, chain, script) {
      k := |chain|;
      StreamRaisesHere(h, chain, script, demand);
    } else {
      k := StreamShape(h, chain, script, tier + 1, demand);
      StreamPassesHere(h, chain, script, tier, demand, k);
    }
  }

  lemma {:induction false} StreamServesHere(h: Health, chain: seq<ProviderChoice>,
                                            script: seq<TierScript<ChunkStream>>, k: nat, demand: nat)
    requires k < |chain| <= |script| && demand >= 1 && StreamServes(h, chain, script, k)
    ensures StreamEndsAt(h, chain, script, PassesLog(FirstChunkFailure, h, chain, script, k),
                         StreamAt(h, chain, script, k, demand), demand, k)
  {
  }

  lemma {:induction false} StreamRaisesHere(h: Health, chain: seq<ProviderChoice>,
                                            script: seq<TierScript<ChunkStream>>, demand: nat)
    requires |chain| <= |script| && demand >= 1 && LastTierRaises(h, chain, script)
    ensures StreamEndsAt(h, chain, script, PassesLog(FirstChunkFailure, h, chain, script, |chain| - 1),
                         StreamAt(h, chain, script, |chain| - 1, demand), demand, |chain|)
  {
  }

  lemma {:induction false} StreamPassesHere(h: Health, chain: seq<ProviderChoice>,
                                            script: seq<TierScript<ChunkStream>>, tier: nat,
                                            demand: nat, k: nat)
    requires tier < k <= |chain| <= |script| && demand >= 1 && PassedAt(FirstChunkFailure, h, chain, script, tier)
    requires tier < |chain| - 1 || !LastTierRaises(h, chain, script)
    requires StreamEndsAt(h, chain, script, PassesLog(FirstChunkFailure, h, chain, script, tier + 1),
                          StreamAt(h, chain, script, tier + 1, demand), demand, k)
    ensures StreamEndsAt(h, chain, script, PassesLog(FirstChunkFailure, h, chain, script, tier),
                         StreamAt(h, chain, script, tier, demand), demand, k)
  {
    hide StreamEndsAt, PassedAt, LastTierRaises;
    var log := StreamAtStep(h, chain, script, tier, demand);
    StreamEndsEarlier(h, chain, script, PassesLog(FirstChunkFailure, h, chain, script, tier), log,
                      StreamAt(h, chain, script, tier + 1, demand), demand, k);
  }

  lemma {:induction false} StreamAtStep(h: Health, chain: seq<ProviderChoice>, script: seq<TierScript<ChunkStream>>,
                                        tier: nat, demand: nat)
    returns (log: seq<Event>)
    requires tier < |chain| <= |script| && demand >= 1 && PassedAt(FirstChunkFailure, h, chain, script, tier)
    requires tier < |chain| - 1 || !LastTierRaises(h, chain, script)
    ensures PassesLog(FirstChunkFailure, h, chain, script, tier + 1)
            == PassesLog(FirstChunkFailure, h, chain, script, tier) + log
    ensures StreamAt(h, chain, script, tier, demand) == PrependStream(log, StreamAt(h, chain, script, tier + 1, demand))
  {
    var ht := HealthAt(FirstChunkFailure, h, chain, script, tier);
    log := PassLog(FirstChunkFailure, ht, chain[tier], script[tier]);
    StreamStep(ht, chain, script, tier, demand);
    PassOne(FirstChunkFailure, h, chain, script, tier);
  }

  lemma {:induction false} StreamExhausted(h: Health, chain: seq<ProviderChoice>,
                                           script: seq<TierScript<ChunkStream>>, demand: nat)
    requires |chain| <= |script| && demand >= 1 && !LastTierRaises(h, chain, script)
    ensures StreamEndsAt(h, chain, script, PassesLog(FirstChunkFailure, h, chain, script, |chain|),
                         StreamAt(h, chain, script, |chain|, demand), demand, |chain|)
  {
    var before := PassesLog(FirstChunkFailure, h, chain, script, |chain|);
    assert before + [] == before;
  }

  lemma {:induction false} StreamEndsEarlier(h: Health, chain: seq<ProviderChoice>,
                                             script: seq<TierScript<ChunkStream>>, before: seq<Event>,
                                             log: seq<Event>, rest: StreamTrace, demand: nat, k: nat)
    requires k <= |chain| <= |script| && demand >= 1 && StreamEndsAt(h, chain, script, before + log, rest, demand, k)
    ensures StreamEndsAt(h, chain, script, before, PrependStream(log, rest), demand, k)
  {
    assert before + (log + rest.events) == (before + log) + rest.events;
  }

  lemma {:induction false} StreamStep(h: Health, chain: seq<ProviderChoice>, script: seq<TierScript<ChunkStream>>,
                                      tier: nat, demand: nat)
    requires tier < |chain| <= |script| && demand >= 1
    requires Passed(FirstChunkFailure, h, chain[tier], script[tier])
    requires tier < |chain| - 1 || Cooling(h, chain[tier], script[tier].checkAt) || script[tier].built.Some?
    ensures var log := PassLog(FirstChunkFailure, h, chain[tier], script[tier]);
            StreamFrom(h, chain, script, tier, demand)
              == PrependStream(log, StreamFrom(After(h, log), chain, script, tier + 1, demand))
  {
    var s, p := script[tier], chain[tier].provider;
    if Cooling(h, chain[tier], s.checkAt) {
    } else if s.built.Some? {
      AfterOne(h, RecordOf(s.built.value, p, s.doneAt));
    } else {
      var e := RecordOf(FirstChunkFailure(chain[tier], s.body).value, p, s.doneAt);
      AfterSnoc(h, [Call(p, s.callAt)], e);
      assert [Call(p, s.callAt)] + [e] == [Call(p, s.callAt), e];
    }
  }

  /** A tier passed over is followed by the rest of the chain, unless it is the last one and its call failed. */
  lemma {:induction false} StreamMovesOn(h: Health, chain: seq<ProviderChoice>, script: seq<TierScript<ChunkStream>>,
                                         tier: nat, demand: nat)
    requires tier < |chain| <= |script| && demand >= 1
    requires !Cooling(h, chain[tier], script[tier].checkAt)
    requires Passed(FirstChunkFailure, h, chain[tier], script[tier])
    ensures var log := PassLog(FirstChunkFailure, h, chain[tier], script[tier]);
            var t := StreamFrom(h, chain, script, tier, demand);
            if tier == |chain| - 1 && script[tier].built.None? then
              t == StreamTrace([], StreamRaised(FirstChunkFailure(chain[tier], script[tier].body).value), log, [])
            else
              var rest := StreamFrom(After(h, log), chain, script, tier + 1, demand);
              t == PrependStream(log, rest) && After(h, t.events) == After(After(h, log), rest.events)
  {
    if tier < |chain| - 1 || script[tier].built.Some? {
      StreamStep(h, chain, script, tier, demand);
      hide StreamFrom, PassLog;
      var log := PassLog(FirstChunkFailure, h, chain[tier], script[tier]);
      AfterConcat(h, log, StreamFrom(After(h, log), chain, script, tier + 1, demand).events);
    }
  }

  lemma {:induction false} StreamServesNow(h: Health, chain: seq<ProviderChoice>,
                                           script: seq<TierScript<ChunkStream>>, tier: nat, demand: nat)
    requires tier < |chain| <= |script| && demand >= 1
    requires !Passed(FirstChunkFailure, h, chain[tier], script[tier])
    ensures var s, call := script[tier], Call(chain[tier].provider, script[tier].callAt);
            var t := StreamFrom(h, chain, script, tier, demand);
            if s.body.chunks == [] then t == StreamTrace([], Finished, [call], [])
            else
              var v := Serve(chain[tier], s, tier, demand);
              t == v && v.events == [call] + v.events[1..]
              && After(h, v.events) == After(After(h, [call]), v.events[1..])
  {
    if script[tier].body.chunks != [] {
      var call, v := Call(chain[tier].provider, script[tier].callAt), Serve(chain[tier], script[tier], tier, demand);
      assert v.events == [call] + v.events[1..];
      AfterConcat(h, [call], v.events[1..]);
    }
  }

  /** Everything a caller hears comes from one tier: the first that is out of cooldown, constructible and
      delivers a first chunk in time. The stream is whole when it finishes, and then the one metrics
      record counts exactly the characters that were yielded. */
  lemma {:induction false} SingleSource(h: Health, chain: seq<ProviderChoice>, script: seq<TierScript<ChunkStream>>,
                                        demand: nat)
    requires |chain| <= |script| && demand >= 1
    ensures var t := StreamFrom(h, chain, script, 0, demand);
            t.yielded != [] ==> (exists k: nat ::
              && FirstServing(FirstChunkFailure, h, chain, script, k)
              && t.yielded <= script[k].body.chunks
              && (t.ending == Finished ==> t.yielded == script[k].body.chunks && script[k].body.failure.None?)
              && (t.ending.StreamRaised? ==>
                  t.yielded == script[k].body.chunks && script[k].body.failure == Some(t.ending.exc))
              && (t.ending == ClosedByCaller ==> |t.yielded| == demand)
              && |t.metrics| == 1 && t.metrics[0].provider == chain[k].provider
              && t.metrics[0].outputChars == |Concat(t.yielded)|
              && (t.metrics[0].interrupted <==> t.ending != Finished))
    ensures var t := StreamFrom(h, chain, script, 0, demand);
            t.yielded == [] ==> t.metrics == [] && t.ending != ClosedByCaller
  {
    var k := StreamShape(h, chain, script, 0, demand);
    var t := StreamFrom(h, chain, script, 0, demand);
    TotalLengthIsJoinedLength(t.yielded);
    if t.yielded != [] {
      assert FirstServing(FirstChunkFailure, h, chain, script, k);
    }
  }

  /** The whole of a stream that tier k serves: what is yielded, how it ends, what is recorded. Only a stream that was
      passed on to its end is a success; an interrupted one leaves the provider as the passes before left it. */
  lemma {:induction false} ServedStreamIsExact(h: Health, chain: seq<ProviderChoice>,
                                               script: seq<TierScript<ChunkStream>>, k: nat, demand: nat)
    requires |chain| <= |script| && demand >= 1 && FirstServing(FirstChunkFailure, h, chain, script, k)
    ensures var t, s, p := StreamFrom(h, chain, script, 0, demand), script[k], chain[k].provider;
            var chunks, before := s.body.chunks, PassesLog(FirstChunkFailure, h, chain, script, k);
            var atEnd := chunks != [] && demand > |chunks| && s.body.failure.None?;
            && t.yielded == (if demand < |chunks| then chunks[..demand] else chunks)
            && t.ending == (if chunks != [] && demand <= |chunks| then ClosedByCaller
                            else if chunks != [] && s.body.failure.Some? then StreamRaised(s.body.failure.value)
                            else Finished)
            && t.events == before + [Call(p, s.callAt)] + (if atEnd then [Succeeded(p, s.doneAt)] else [])
            && t.metrics == (if chunks == [] then []
                             else [Metric(p, chain[k].model, |Concat(t.yielded)|, k > 0, !atEnd, None)])
            && After(h, t.events)
               == var left := HealthAt(FirstChunkFailure, h, chain, script, k);
                  if atEnd then left[p := ProviderState(0, 0.0)] else left
  {
    var j := StreamShape(h, chain, script, 0, demand);
    hide PassedAt;
    assert j == k;
    ServedEvents(h, chain, script, k, demand);
    hide PassesLog, StreamFrom, After;
    var t, before := StreamFrom(h, chain, script, 0, demand), PassesLog(FirstChunkFailure, h, chain, script, k);
    var call := Call(chain[k].provider, script[k].callAt);
    TotalLengthIsJoinedLength(t.yielded);
    assert [] + t.events == t.events && before + [call] + [] == before + [call];
  }

  lemma {:induction false} ServedEvents(h: Health, chain: seq<ProviderChoice>, script: seq<TierScript<ChunkStream>>,
                                        k: nat, demand: nat)
    requires k < |chain| <= |script|
    ensures var before, p := PassesLog(FirstChunkFailure, h, chain, script, k), chain[k].provider;
            var call, success := Call(p, script[k].callAt), Succeeded(p, script[k].doneAt);
            && After(h, before + [call]) == After(h, before)
            && After(h, before + [call] + [success]) == After(h, before)[p := ProviderState(0, 0.0)]
            && before + ([call] + []) == before + [call] && before + ([call] + [success]) == before + [call] + [success]
  {
    hide PassesLog;
    var before, p := PassesLog(FirstChunkFailure, h, chain, script, k), chain[k].provider;
    AfterSnoc(h, before, Call(p, script[k].callAt));
    AfterSnoc(h, before + [Call(p, script[k].callAt)], Succeeded(p, script[k].doneAt));
  }

  /** The whole of a stream that no tier serves: nothing is yielded, and it raises only if its last tier was called;
      then a late first chunk is a timeout, whatever would have come of it. */
  lemma {:induction false} UnservedStreamIsExact(h: Health, chain: seq<ProviderChoice>,
                                                 script: seq<TierScript<ChunkStream>>, demand: nat)
    requires |chain| <= |script| && demand >= 1 && NoneServes(FirstChunkFailure, h, chain, script)
    ensures var t, n := StreamFrom(h, chain, script, 0, demand), |chain| - 1;
            && t.yielded == [] && t.metrics == []
            && t.events == PassesLog(FirstChunkFailure, h, chain, script, |chain|)
            && (if chain == [] || Cooling(HealthAt(FirstChunkFailure, h, chain, script, n), chain[n], script[n].checkAt)
                   || script[n].built.Some?
                then t.ending == Finished
                else
                  var timeoutS := if chain[n].timeoutS.Some? then chain[n].timeoutS.value else 4.0;
                  if script[n].body.firstAfter > timeoutS then t.ending == StreamRaised(TimeoutError)
                  else t.ending.StreamRaised? && script[n].body.failure == Some(t.ending.exc))
  {
    var k := StreamShape(h, chain, script, 0, demand);
    if chain != [] {
      assert PassedAt(FirstChunkFailure, h, chain, script, |chain| - 1);
    }
    hide PassedAt;
    assert k == |chain|;
    assert [] + StreamFrom(h, chain, script, 0, demand).events == StreamFrom(h, chain, script, 0, demand).events;
    hide StreamFrom, PassesLog, HealthAt;
  }

  predicate SilentlyEnds(t: StreamTrace) {
    t.yielded == [] && t.ending == Finished
  }

  /** The stream ends without output and without an exception exactly when no tier produced a chunk or a
      final error: the first tier to answer sends an empty stream, or no tier answers and the chain's last
      one was cooling or could not be built (or the chain is empty). `run` raises in the latter cases. */
  lemma {:induction false} SilentStream(h: Health, chain: seq<ProviderChoice>, script: seq<TierScript<ChunkStream>>,
                                        demand: nat)
    requires |chain| <= |script| && demand >= 1
    ensures SilentlyEnds(StreamFrom(h, chain, script, 0, demand)) <==>
              || (exists k: nat :: FirstServing(FirstChunkFailure, h, chain, script, k) && script[k].body.chunks == [])
              || (NoneServes(FirstChunkFailure, h, chain, script) && !LastTierRaises(h, chain, script))
  {
    var k := StreamShape(h, chain, script, 0, demand);
    SilentShape(h, chain, script, demand, k);
  }

  /** A run of it: the only tier is fresh, answers in time, and its stream is empty. */
  lemma {:induction false} EmptyStreamIsSilent(h: Health, p: Provider, demand: nat)
    requires h[p] == FRESH && demand >= 1
    ensures exists chain: seq<ProviderChoice>, script: seq<TierScript<ChunkStream>> :: (
              && |chain| == |script| == 1 && ClockOk(0.0, script) && chain[0].provider == p
              && SilentlyEnds(StreamFrom(h, chain, script, 0, demand)))
  {
    var chain := [ProviderChoice(p, None, None)];
    var script := [TierScript(0.0, None, 0.0, 0.0, 0.0, ChunkStream([], None, 0.0))];
    assert ClockOk(0.0, script);
    assert SilentlyEnds(StreamFrom(h, chain, script, 0, demand));
  }

  lemma {:induction false} SilentShape(h: Health, chain: seq<ProviderChoice>, script: seq<TierScript<ChunkStream>>,
                                       demand: nat, k: nat)
    requires k <= |chain| <= |script| && demand >= 1
    requires forall i | 0 <= i < k :: PassedAt(FirstChunkFailure, h, chain, script, i)
    requires k < |chain| ==> StreamServes(h, chain, script, k)
    requires StreamEndsAt(h, chain, script, [], StreamFrom(h, chain, script, 0, demand), demand, k)
    ensures SilentlyEnds(StreamFrom(h, chain, script, 0, demand)) <==>
              || (exists k: nat :: FirstServing(FirstChunkFailure, h, chain, script, k) && script[k].body.chunks == [])
              || (NoneServes(FirstChunkFailure, h, chain, script) && !LastTierRaises(h, chain, script))
  {
    hide PassedAt, LastTierRaises, StreamFrom, PassesLog;
    if k < |chain| {
      assert FirstServing(FirstChunkFailure, h, chain, script, k);
      ServingIsUnique(FirstChunkFailure, h, chain, script, k);
    }
  }

  // ---------------------------------------------------------------- run against run_stream

  /** The default `stream_complete`: one chunk holding the whole completion, here without a timeout. */
  predicate StreamsWholeReply(choice: ProviderChoice, a: TierScript<Reply>, b: TierScript<ChunkStream>) {
    && a.checkAt == b.checkAt && a.built == b.built && a.callAt == b.callAt && a.doneAt == b.doneAt
    && b.body.firstAfter <= TimeoutOf(choice)
    && (match a.body
        case Text(text) => b.body.chunks == [text] && b.body.failure.None?
        case Raises(exc) => b.body.chunks == [] && b.body.failure == Some(exc))
  }

  /** With one-chunk providers, no timeout and a drained stream, `run` and `run_stream` leave the same breaker
      log and the same metrics, and the stream says what `run` returns (and nothing when `run` raises). */
  lemma {:induction false} PathAgreement(h: Health, chain: seq<ProviderChoice>, a: seq<TierScript<Reply>>,
                                         b: seq<TierScript<ChunkStream>>, tier: nat, last: Option<Exc>, demand: nat)
    requires tier <= |chain| <= |a| && |chain| <= |b| && demand >= 2
    requires forall i | tier <= i < |chain| :: StreamsWholeReply(chain[i], a[i], b[i])
    ensures var r, t := RunFrom(h, chain, a, tier, last), StreamFrom(h, chain, b, tier, demand);
            && r.events == t.events && r.metrics == t.metrics
            && (r.result.Returned? ==> t.ending == Finished && Concat(t.yielded) == r.result.text)
            && (r.result.Raised? ==> t.yielded == [])
            && (t.ending.StreamRaised? ==> r.result == Raised(t.ending.exc))
    decreases |chain| - tier
  {
    if tier < |chain| {
      var s, p := a[tier], chain[tier].provider;
      assert StreamsWholeReply(chain[tier], s, b[tier]);
      if Cooling(h, chain[tier], s.checkAt) {
        PathAgreement(h, chain, a, b, tier + 1, last, demand);
      } else if s.built.Some? {
        PathAgreement(Advance(h, RecordOf(s.built.value, p, s.doneAt)), chain, a, b, tier + 1, s.built, demand);
      } else if s.body.Raises? {
        var h' := Advance(h, RecordOf(s.body.exc, p, s.doneAt));
        PathAgreement(h', chain, a, b, tier + 1, Some(s.body.exc), demand);
      } else {
        OneChunk(s.body.text);
        assert Serve(chain[tier], b[tier], tier, demand).yielded == [s.body.text];
      }
    }
  }

  lemma {:induction false} OneChunk(text: string)
    ensures Concat([text]) == text && TotalLength([text]) == |text|
  {
    assert [text][1..] == [];
    assert text + "" == text;
  }
}
