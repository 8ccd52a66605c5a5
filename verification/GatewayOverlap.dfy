/** Gateway calls that overlap: background extraction and consolidation share the breaker with the turn's stream. A
    call is a task of one event loop; between two awaits it checks a tier and calls it, sends its unchecked retry, or
    records how the tier went. */
module GatewayOverlap {
  import opened Common
  import opened CircuitBreaker
  import opened UseCasePolicies
  import opened GatewaySpec
  import opened GatewaySafety

  /** `begun` is the place in the log of the tier's first, checked call. */
  datatype Phase = AtTier | Waiting(begun: nat) | Retrying(begun: nat) | Ended

  datatype Task = Task(call: GatewayCall, tier: nat, phase: Phase)

  /** Which task made a log entry, and the length of the log when it last checked the entry's tier. A call that was
      checked has its own place there; an unchecked retry has the place of the call that it repeats. */
  datatype Origin = Origin(task: nat, since: nat)

  datatype State = State(health: Health, tasks: seq<Task>, log: seq<Event>, origin: seq<Origin>)

  function Chain(c: GatewayCall): seq<ProviderChoice> {
    c.chain
  }

  /** The part of a tier's script that all three kinds of call share. */
  function Outline(c: GatewayCall, k: nat): TierScript<()>
    requires Scripted(c) && k < |Chain(c)|
  {
    match c
    case RunCall(_, s) => TierScript(s[k].checkAt, s[k].built, s[k].callAt, s[k].retryAt, s[k].doneAt, ())
    case StructuredCall(_, s) => TierScript(s[k].checkAt, s[k].built, s[k].callAt, s[k].retryAt, s[k].doneAt, ())
    case StreamCall(_, s, _) => TierScript(s[k].checkAt, s[k].built, s[k].callAt, s[k].retryAt, s[k].doneAt, ())
  }

  /** What follows an awaited reply: the tier is recorded and passed over, the call is repeated, or the task ends. */
  datatype Outcome = Passes(e: Event) | Repeats | Ends(last: seq<Event>)

  function AfterReply(c: GatewayCall, k: nat): Outcome
    requires Scripted(c) && k < |Chain(c)|
  {
    var p := Chain(c)[k].provider;
    match c
    case RunCall(_, s) =>
      if s[k].body.Raises? then Passes(RecordOf(s[k].body.exc, p, s[k].doneAt)) else Ends([Succeeded(p, s[k].doneAt)])
    case StructuredCall(_, s) => if s[k].body.first.Valid? then Ends([Succeeded(p, s[k].doneAt)]) else Repeats
    case StreamCall(chain, s, demand) =>
      match FirstChunkFailure(chain[k], s[k].body)
      case Some(exc) =>
        var e := RecordOf(exc, p, s[k].doneAt);
        if k == |chain| - 1 then Ends([e]) else Passes(e)
      case None => Ends(if s[k].body.chunks == [] then [] else Serve(chain[k], s[k], k, demand).events[1..])
  }

  function AfterRetry(c: GatewayCall, k: nat): (o: Outcome)
    requires Scripted(c) && k < |Chain(c)|
    ensures !o.Repeats?
  {
    var p := Chain(c)[k].provider;
    match c
    case StructuredCall(_, s) =>
      if s[k].body.second.Valid? then Ends([Succeeded(p, s[k].doneAt)]) else Passes(Failed(p, s[k].doneAt))
    case RunCall(_, _) => Ends([])
    case StreamCall(_, _, _) => Ends([])
  }

  predicate TaskOk(t: Task) {
    && Scripted(t.call) && t.tier <= |Chain(t.call)|
    && (t.phase.Waiting? || t.phase.Retrying? ==> t.tier < |Chain(t.call)|)
  }

  function NextTier(t: Task): Task {
    t.(tier := t.tier + 1, phase := AtTier)
  }

  datatype Move = Move(events: seq<Event>, since: nat, next: Task)

  function Settle(t: Task, outcome: Outcome): Move
    requires !outcome.Repeats? && (t.phase.Waiting? || t.phase.Retrying?)
  {
    match outcome
    case Passes(e) => Move([e], t.phase.begun, NextTier(t))
    case Ends(last) => Move(last, t.phase.begun, t.(phase := Ended))
  }

  /** The next stretch of a task, under the health it finds; `n` is the length of the log. */
  function Next(h: Health, n: nat, t: Task): Move
    requires TaskOk(t)
  {
    match t.phase
    case AtTier =>
      if t.tier == |Chain(t.call)| then Move([], n, t.(phase := Ended))
      else
        var choice, s := Chain(t.call)[t.tier], Outline(t.call, t.tier);
        if Cooling(h, choice, s.checkAt) then Move([], n, NextTier(t))
        else if s.built.Some? then Move([RecordOf(s.built.value, choice.provider, s.doneAt)], n, NextTier(t))
        else Move([Call(choice.provider, s.callAt)], n, t.(phase := Waiting(n)))
    case Waiting(begun) =>
      var outcome := AfterReply(t.call, t.tier);
      if outcome.Repeats? then
        Move([Call(Chain(t.call)[t.tier].provider, Outline(t.call, t.tier).retryAt)], begun,
             t.(phase := Retrying(begun)))
      else Settle(t, outcome)
    case Retrying(_) => Settle(t, AfterRetry(t.call, t.tier))
    case Ended => Move([], n, t)
  }

  // ---------------------------------------------------------------- alone, a task is the specified call

  function Rest(t: Task): nat
    requires TaskOk(t)
  {
    var left := 3 * (|Chain(t.call)| - t.tier);
    match t.phase
    case AtTier => left + 3
    case Waiting(_) => left + 2
    case Retrying(_) => left + 1
    case Ended => 0
  }

  lemma {:induction false} NextIsCloser(h: Health, n: nat, t: Task)
    requires TaskOk(t) && t.phase != Ended
    ensures TaskOk(Next(h, n, t).next) && Rest(Next(h, n, t).next) < Rest(t)
  {
  }

  /** Everything a task does when no other task runs in between. */
  function Solo(h: Health, n: nat, t: Task): seq<Event>
    requires TaskOk(t)
    decreases Rest(t)
  {
    if t.phase == Ended then []
    else
      var m := Next(h, n, t);
      NextIsCloser(h, n, t);
      m.events + Solo(After(h, m.events), n + |m.events|, m.next)
  }

  /** What the sequential specification says from tier k on. */
  function EventsFrom(h: Health, c: GatewayCall, k: nat): seq<Event>
    requires Scripted(c) && k <= |Chain(c)|
  {
    match c
    case RunCall(chain, s) => RunFrom(h, chain, s, k, None).events
    case StructuredCall(chain, s) => StructuredFrom(h, chain, s, k).events
    case StreamCall(chain, s, demand) => StreamFrom(h, chain, s, k, demand).events
  }

  function Following(h: Health, c: GatewayCall, k: nat, outcome: Outcome): seq<Event>
    requires Scripted(c) && k < |Chain(c)| && !outcome.Repeats?
  {
    match outcome
    case Passes(e) => [e] + EventsFrom(Advance(h, e), c, k + 1)
    case Ends(last) => last
  }

  /** One tier of the specification, for the three kinds of call alike. */
  function TierEvents(h: Health, c: GatewayCall, k: nat): seq<Event>
    requires Scripted(c) && k < |Chain(c)|
  {
    var p, s := Chain(c)[k].provider, Outline(c, k);
    if Cooling(h, Chain(c)[k], s.checkAt) then EventsFrom(h, c, k + 1)
    else if s.built.Some? then
      var e := RecordOf(s.built.value, p, s.doneAt);
      [e] + EventsFrom(Advance(h, e), c, k + 1)
    else
      [Call(p, s.callAt)] +
      if AfterReply(c, k).Repeats? then [Call(p, s.retryAt)] + Following(h, c, k, AfterRetry(c, k))
      else Following(h, c, k, AfterReply(c, k))
  }

  /** The exception that a run remembers has no effect on what it does to the providers. */
  lemma {:induction false} RunEventsIgnoreLast(h: Health, chain: seq<ProviderChoice>, s: seq<TierScript<Reply>>, k: nat,
                                               a: Option<Exc>, b: Option<Exc>)
    requires k <= |chain| <= |s|
    ensures RunFrom(h, chain, s, k, a).events == RunFrom(h, chain, s, k, b).events
    decreases |chain| - k
  {
    hide Advance, RecordOf;
    if k < |chain| && Cooling(h, chain[k], s[k].checkAt) {
      RunEventsIgnoreLast(h, chain, s, k + 1, a, b);
    }
  }

  lemma {:induction false} RunTier(h: Health, c: GatewayCall, k: nat)
    requires Scripted(c) && k < |Chain(c)| && c.RunCall?
    ensures EventsFrom(h, c, k) == TierEvents(h, c, k)
  {
    var chain, s, p := c.chain, c.replies, c.chain[k].provider;
    if !Cooling(h, chain[k], s[k].checkAt) {
      if s[k].built.Some? {
        var e := RecordOf(s[k].built.value, p, s[k].doneAt);
        RunEventsIgnoreLast(Advance(h, e), chain, s, k + 1, s[k].built, None);
      } else if s[k].body.Raises? {
        var e := RecordOf(s[k].body.exc, p, s[k].doneAt);
        RunEventsIgnoreLast(Advance(h, e), chain, s, k + 1, Some(s[k].body.exc), None);
        Pair(Call(p, s[k].callAt), e, EventsFrom(Advance(h, e), c, k + 1));
      }
    }
    hide Advance, RecordOf;
  }

  lemma {:induction false} Pair<T>(a: T, b: T, rest: seq<T>)
    ensures [a] + ([b] + rest) == [a, b] + rest
  {
  }

  lemma {:induction false} StructuredTier(h: Health, c: GatewayCall, k: nat)
    requires Scripted(c) && k < |Chain(c)| && c.StructuredCall?
    ensures EventsFrom(h, c, k) == TierEvents(h, c, k)
  {
    var s, p := c.attempts[k], c.chain[k].provider;
    var call, retry := Call(p, s.callAt), Call(p, s.retryAt);
    AfterNone(h);
    if !Cooling(h, c.chain[k], s.checkAt) {
      if s.built.Some? {
        AfterOne(h, RecordOf(s.built.value, p, s.doneAt));
      } else if !s.body.first.Valid? && !s.body.second.Valid? {
        var e := Failed(p, s.doneAt);
        AfterThree(h, call, retry, e);
        hide Advance, After;
        var rest := EventsFrom(Advance(h, e), c, k + 1);
        assert [call] + ([retry] + ([e] + rest)) == [call, retry, e] + rest;
      }
    }
    hide Advance, RecordOf, After;
  }

  lemma {:induction false} StreamTier(h: Health, c: GatewayCall, k: nat)
    requires Scripted(c) && k < |Chain(c)| && c.StreamCall?
    ensures EventsFrom(h, c, k) == TierEvents(h, c, k)
  {
    hide Advance, RecordOf;
    var chain, s, p := c.chain, c.streams[k], c.chain[k].provider;
    if !Cooling(h, chain[k], s.checkAt) && s.built.None? {
      var call := Call(p, s.callAt);
      match FirstChunkFailure(chain[k], s.body)
      case Some(exc) =>
        var e := RecordOf(exc, p, s.doneAt);
        Pair(call, e, EventsFrom(Advance(h, e), c, k + 1));
      case None =>
        if s.body.chunks != [] {
          ServeStartsWithCall(chain[k], s, k, c.demand);
        }
    }
  }

  lemma {:induction false} ServeStartsWithCall(choice: ProviderChoice, s: TierScript<ChunkStream>, k: nat, demand: nat)
    requires demand >= 1 && s.body.chunks != []
    ensures Serve(choice, s, k, demand).events
            == [Call(choice.provider, s.callAt)] + Serve(choice, s, k, demand).events[1..]
  {
  }

  lemma {:induction false} EveryTier(h: Health, c: GatewayCall, k: nat)
    requires Scripted(c) && k <= |Chain(c)|
    ensures EventsFrom(h, c, k) == if k == |Chain(c)| then [] else TierEvents(h, c, k)
  {
    if k < |Chain(c)| {
      hide EventsFrom, TierEvents;
      match c
      case RunCall(_, _) => RunTier(h, c, k);
      case StructuredCall(_, _) => StructuredTier(h, c, k);
      case StreamCall(_, _, _) => StreamTier(h, c, k);
    }
  }

  lemma {:induction false} SoloStep(h: Health, n: nat, t: Task)
    requires TaskOk(t) && t.phase != Ended
    ensures var m := Next(h, n, t);
            TaskOk(m.next) && Solo(h, n, t) == m.events + Solo(After(h, m.events), n + |m.events|, m.next)
  {
    hide Next, After, Rest, TaskOk;
    NextIsCloser(h, n, t);
  }

  ghost predicate SoloIsSpec(c: GatewayCall, k: nat)
    requires Scripted(c) && k <= |Chain(c)|
  {
    forall h: Health, n: nat :: Solo(h, n, Task(c, k, AtTier)) == EventsFrom(h, c, k)
  }

  /** A settled tier is followed by the rest of the chain, or by nothing. */
  lemma {:induction false} SoloSettles(h: Health, n: nat, t: Task, outcome: Outcome)
    requires TaskOk(t) && (t.phase.Waiting? || t.phase.Retrying?) && !outcome.Repeats?
    requires SoloIsSpec(t.call, t.tier + 1)
    ensures var m := Settle(t, outcome);
            TaskOk(m.next) && m.events + Solo(After(h, m.events), n, m.next) == Following(h, t.call, t.tier, outcome)
  {
    hide Solo, EventsFrom, SoloIsSpec, Advance;
    match outcome
    case Passes(e) =>
      AfterOne(h, e);
      hide After;
      SoloPassed(Advance(h, e), n, t);
    case Ends(last) =>
      hide After;
      SoloEnded(After(h, last), n, t.(phase := Ended));
      assert last + [] == last;
  }

  lemma {:induction false} SoloEnded(h: Health, n: nat, t: Task)
    requires TaskOk(t) && t.phase.Ended?
    ensures Solo(h, n, t) == []
  {
  }

  lemma {:induction false} CallChangesNothing(h: Health, p: Provider, at: real)
    ensures After(h, [Call(p, at)]) == h
  {
    AfterOne(h, Call(p, at));
  }

  lemma {:induction false} SoloRetry(h: Health, n: nat, t: Task)
    requires TaskOk(t) && t.phase.Retrying?
    requires SoloIsSpec(t.call, t.tier + 1)
    ensures Solo(h, n, t) == Following(h, t.call, t.tier, AfterRetry(t.call, t.tier))
  {
    hide Solo, SoloIsSpec, Advance, After, AfterRetry, Following, Settle;
    var m := Settle(t, AfterRetry(t.call, t.tier));
    assert Next(h, n, t) == m;
    hide Next;
    SoloStep(h, n, t);
    SoloSettles(h, n + |m.events|, t, AfterRetry(t.call, t.tier));
  }

  lemma {:induction false} SoloRepeats(h: Health, n: nat, t: Task)
    requires TaskOk(t) && t.phase.Waiting? && AfterReply(t.call, t.tier).Repeats? && SoloIsSpec(t.call, t.tier + 1)
    ensures Solo(h, n, t) == [Call(Chain(t.call)[t.tier].provider, Outline(t.call, t.tier).retryAt)]
                           + Following(h, t.call, t.tier, AfterRetry(t.call, t.tier))
  {
    hide Outline, AfterReply, AfterRetry, Following, SoloIsSpec, Advance, Solo;
    var p, at, retrying :=
      Chain(t.call)[t.tier].provider, Outline(t.call, t.tier).retryAt, t.(phase := Retrying(t.phase.begun));
    SoloStep(h, n, t);
    CallChangesNothing(h, p, at);
    hide After;
    assert Next(h, n, t).events == [Call(p, at)] && Next(h, n, t).next == retrying;
    hide Next;
    SoloRetry(h, n + 1, retrying);
  }

  lemma {:induction false} SoloReplied(h: Health, n: nat, t: Task)
    requires TaskOk(t) && t.phase.Waiting? && !AfterReply(t.call, t.tier).Repeats? && SoloIsSpec(t.call, t.tier + 1)
    ensures Solo(h, n, t) == Following(h, t.call, t.tier, AfterReply(t.call, t.tier))
  {
    hide Solo, SoloIsSpec, Advance, After, AfterReply, Following, Settle;
    var m := Settle(t, AfterReply(t.call, t.tier));
    assert Next(h, n, t) == m;
    hide Next;
    SoloStep(h, n, t);
    SoloSettles(h, n + |m.events|, t, AfterReply(t.call, t.tier));
  }

  lemma {:induction false} SoloPassed(h: Health, n: nat, t: Task)
    requires TaskOk(t) && t.tier < |Chain(t.call)| && SoloIsSpec(t.call, t.tier + 1)
    ensures TaskOk(NextTier(t)) && Solo(h, n, NextTier(t)) == EventsFrom(h, t.call, t.tier + 1)
  {
    assert NextTier(t) == Task(t.call, t.tier + 1, AtTier);
    hide Solo, EventsFrom;
  }

  lemma {:induction false} SoloCooling(h: Health, n: nat, t: Task)
    requires TaskOk(t) && t.phase.AtTier? && t.tier < |Chain(t.call)| && SoloIsSpec(t.call, t.tier + 1)
    requires Cooling(h, Chain(t.call)[t.tier], Outline(t.call, t.tier).checkAt)
    ensures Solo(h, n, t) == TierEvents(h, t.call, t.tier)
  {
    hide Outline, AfterReply, AfterRetry, Following, SoloIsSpec, EventsFrom, Advance, RecordOf, Solo, Cooling;
    SoloStep(h, n, t);
    AfterNone(h);
    hide After;
    assert Next(h, n, t).events == [] && Next(h, n, t).next == NextTier(t);
    hide Next;
    SoloPassed(h, n, t);
    assert [] + Solo(h, n, NextTier(t)) == Solo(h, n, NextTier(t));
  }

  lemma {:induction false} SoloUnbuilt(h: Health, n: nat, t: Task)
    requires TaskOk(t) && t.phase.AtTier? && t.tier < |Chain(t.call)| && SoloIsSpec(t.call, t.tier + 1)
    requires !Cooling(h, Chain(t.call)[t.tier], Outline(t.call, t.tier).checkAt) && Outline(t.call, t.tier).built.Some?
    ensures Solo(h, n, t) == TierEvents(h, t.call, t.tier)
  {
    hide Outline, AfterReply, AfterRetry, Following, SoloIsSpec, EventsFrom, Advance, RecordOf, Solo, Cooling;
    SoloStep(h, n, t);
    var e := RecordOf(Outline(t.call, t.tier).built.value, Chain(t.call)[t.tier].provider,
                      Outline(t.call, t.tier).doneAt);
    AfterOne(h, e);
    hide After;
    assert Next(h, n, t).events == [e] && Next(h, n, t).next == NextTier(t);
    hide Next;
    SoloPassed(Advance(h, e), n + 1, t);
  }

  lemma {:induction false} SoloCalls(h: Health, n: nat, t: Task)
    requires TaskOk(t) && t.phase.AtTier? && t.tier < |Chain(t.call)| && SoloIsSpec(t.call, t.tier + 1)
    requires !Cooling(h, Chain(t.call)[t.tier], Outline(t.call, t.tier).checkAt) && Outline(t.call, t.tier).built.None?
    ensures Solo(h, n, t) == TierEvents(h, t.call, t.tier)
  {
    hide Outline, AfterReply, AfterRetry, Following, SoloIsSpec, EventsFrom, Advance, Solo, Cooling;
    var call, waiting := Call(Chain(t.call)[t.tier].provider, Outline(t.call, t.tier).callAt), t.(phase := Waiting(n));
    SoloStep(h, n, t);
    CallChangesNothing(h, call.provider, call.at);
    hide After;
    assert Next(h, n, t).events == [call] && Next(h, n, t).next == waiting;
    hide Next;
    if AfterReply(t.call, t.tier).Repeats? {
      SoloRepeats(h, n + 1, waiting);
    } else {
      SoloReplied(h, n + 1, waiting);
    }
  }

  /** From any tier on, without interruption, a task does exactly what the specification of its call says. */
  lemma {:induction false} SoloFromTier(c: GatewayCall, k: nat)
    requires Scripted(c) && k <= |Chain(c)|
    ensures SoloIsSpec(c, k)
    decreases |Chain(c)| - k
  {
    if k < |Chain(c)| {
      SoloFromTier(c, k + 1);
    }
    forall h: Health, n: nat ensures Solo(h, n, Task(c, k, AtTier)) == EventsFrom(h, c, k) {
      var t := Task(c, k, AtTier);
      EveryTier(h, c, k);
      hide TierEvents, EventsFrom, SoloIsSpec;
      if k == |Chain(c)| {
        SoloStep(h, n, t);
      } else {
        hide Solo, Cooling, Outline;
        if Cooling(h, Chain(c)[k], Outline(c, k).checkAt) {
          SoloCooling(h, n, t);
        } else if Outline(c, k).built.Some? {
          SoloUnbuilt(h, n, t);
        } else {
          SoloCalls(h, n, t);
        }
      }
    }
  }

  /** A task that is not interrupted does exactly what its call does on its own. */
  lemma {:induction false} AloneIsTheCall(h: Health, n: nat, c: GatewayCall)
    requires Scripted(c)
    ensures Solo(h, n, Task(c, 0, AtTier)) == EventsOf(h, c)
  {
    SoloFromTier(c, 0);
    hide Solo;
    assert Solo(h, n, Task(c, 0, AtTier)) == EventsFrom(h, c, 0);
  }

  // ---------------------------------------------------------------- overlapping runs

  function Begin(h: Health, calls: seq<GatewayCall>): State {
    State(h, seq(|calls|, i requires 0 <= i < |calls| => Task(calls[i], 0, AtTier)), [], [])
  }

  predicate TasksOk(st: State) {
    forall r :: 0 <= r < |st.tasks| ==> TaskOk(st.tasks[r])
  }

  /** Task r runs to its next await. */
  function Step(st: State, r: nat): State
    requires TasksOk(st)
  {
    if r >= |st.tasks| then st
    else
      var m := Next(st.health, |st.log|, st.tasks[r]);
      State(After(st.health, m.events), st.tasks[r := m.next], st.log + m.events,
            st.origin + seq(|m.events|, i requires 0 <= i < |m.events| => Origin(r, m.since)))
  }

  lemma {:induction false} StepKeepsTasks(st: State, r: nat)
    requires TasksOk(st)
    ensures TasksOk(Step(st, r))
  {
    if r < |st.tasks| {
      var t := st.tasks[r];
      if t.phase != Ended {
        NextIsCloser(st.health, |st.log|, t);
      }
    }
    hide After, TaskOk;
  }

  /** A schedule says which task goes on next. */
  function Run(st: State, schedule: seq<nat>): (after: State)
    requires TasksOk(st)
    ensures TasksOk(after)
  {
    if schedule == [] then st
    else
      var before := Run(st, schedule[..|schedule| - 1]);
      StepKeepsTasks(before, schedule[|schedule| - 1]);
      Step(before, schedule[|schedule| - 1])
  }

  /** Entry b is a call of task r to p that was checked. */
  predicate IsChecked(st: State, b: nat, r: nat, p: Provider)
    requires |st.origin| == |st.log|
  {
    b < |st.log| && st.origin[b] == Origin(r, b) && st.log[b] == Call(p, st.log[b].at)
  }

  /** A task that waits has its checked call in the log, and has recorded nothing since. */
  predicate WaitOk(st: State, r: nat)
    requires TasksOk(st) && r < |st.tasks| && |st.origin| == |st.log|
  {
    var t := st.tasks[r];
    t.phase.Waiting? || t.phase.Retrying? ==> (
      && IsChecked(st, t.phase.begun, r, Chain(t.call)[t.tier].provider)
      && st.log[t.phase.begun].at == Outline(t.call, t.tier).callAt
      && forall i :: 0 <= i < |st.log| && st.origin[i].task == r && !st.log[i].Call? ==> i < t.phase.begun)
  }

  /** The tier of entry j was out of cooldown when it was checked; unless that was just now, it was called then. */
  predicate EntryOk(h: Health, st: State, j: nat)
    requires |st.origin| == |st.log| && j < |st.log|
  {
    var o, p := st.origin[j], st.log[j].provider;
    && o.since <= j && o.task < |st.tasks|
    && After(h, st.log[..o.since])[p].cooldownUntil <= st.log[j].at
    && (o.since < j ==> IsChecked(st, o.since, o.task, p))
  }

  /** A task checks its next tier after it has recorded the last one. */
  predicate Serial(st: State)
    requires |st.origin| == |st.log|
  {
    forall i, j :: 0 <= i < j < |st.log| && st.origin[i].task == st.origin[j].task && !st.log[i].Call? ==>
      st.origin[j].since > i
  }

  predicate Inv(h: Health, st: State) {
    && TasksOk(st) && |st.origin| == |st.log| && st.health == After(h, st.log) && Serial(st)
    && (forall r :: 0 <= r < |st.tasks| ==> WaitOk(st, r))
    && (forall j :: 0 <= j < |st.log| ==> EntryOk(h, st, j))
  }

  /** Each tier's own clock readings are in order. */
  predicate Timed(c: GatewayCall)
    requires Scripted(c)
  {
    forall k :: 0 <= k < |Chain(c)| ==>
      Outline(c, k).checkAt <= Outline(c, k).callAt <= Outline(c, k).retryAt <= Outline(c, k).doneAt
  }

  predicate AllTimed(st: State)
    requires TasksOk(st)
  {
    forall r :: 0 <= r < |st.tasks| ==> Timed(st.tasks[r].call)
  }

  /** What a stretch of one task adds to the log. */
  predicate Shape(h: Health, n: nat, t: Task, m: Move)
    requires TaskOk(t)
  {
    && m.next.call == t.call && |m.events| <= 1
    && (m.events != [] ==>
          && t.tier < |Chain(t.call)| && !t.phase.Ended?
          && var s, e := Outline(t.call, t.tier), m.events[0];
          && e.provider == Chain(t.call)[t.tier].provider
          && (if t.phase.AtTier? then
                m.since == n && !Cooling(h, Chain(t.call)[t.tier], s.checkAt) && (e.at == s.callAt || e.at == s.doneAt)
                && (e.Call? ==> e.at == s.callAt)
              else m.since == t.phase.begun && (e.at == s.retryAt || e.at == s.doneAt)))
    && (m.next.phase.Waiting? || m.next.phase.Retrying? ==>
          && m.next.tier == t.tier < |Chain(t.call)| && m.events != [] && m.events[0].Call?
          && m.next.phase.begun == m.since && !t.phase.Ended?)
  }

  lemma {:induction false} NextShape(h: Health, n: nat, t: Task)
    requires TaskOk(t)
    ensures Shape(h, n, t, Next(h, n, t))
  {
    if t.tier < |Chain(t.call)| {
      RepliesRecord(t.call, t.tier);
    }
    hide AfterReply, AfterRetry;
  }

  /** A reply is recorded once, for the tier's provider, when it is done. */
  predicate IsRecord(e: Event, c: GatewayCall, k: nat)
    requires Scripted(c) && k < |Chain(c)|
  {
    !e.Call? && e.provider == Chain(c)[k].provider && e.at == Outline(c, k).doneAt
  }

  lemma {:induction false} RepliesRecord(c: GatewayCall, k: nat)
    requires Scripted(c) && k < |Chain(c)|
    ensures forall o :: o == AfterReply(c, k) || o == AfterRetry(c, k) ==>
              && (o.Passes? ==> IsRecord(o.e, c, k))
              && (o.Ends? ==> |o.last| <= 1 && (o.last != [] ==> IsRecord(o.last[0], c, k)))
  {
  }

  lemma {:induction false} NewEntryOk(h: Health, st: State, r: nat)
    requires Inv(h, st) && AllTimed(st) && r < |st.tasks| && |Step(st, r).log| > |st.log|
    ensures |Step(st, r).origin| == |Step(st, r).log| == |st.log| + 1 && EntryOk(h, Step(st, r), |st.log|)
  {
    var st', t, n := Step(st, r), st.tasks[r], |st.log|;
    NextShape(st.health, n, t);
    var m := Next(st.health, n, t);
    assert WaitOk(st, r) && Timed(t.call);
    if !t.phase.AtTier? {
      assert EntryOk(h, st, t.phase.begun);
      assert st'.log[..t.phase.begun] == st.log[..t.phase.begun];
    }
    assert st'.log[..n] == st.log;
    hide Next, After, Inv, TasksOk, TaskOk, Serial, Outline;
  }

  lemma {:induction false} OldEntryOk(h: Health, st: State, r: nat, j: nat)
    requires TasksOk(st) && r < |st.tasks| && |st.origin| == |st.log| && j < |st.log| && EntryOk(h, st, j)
    ensures |Step(st, r).origin| == |Step(st, r).log| && |Step(st, r).log| > j && EntryOk(h, Step(st, r), j)
  {
    var st' := Step(st, r);
    assert st'.log[..st.origin[j].since] == st.log[..st.origin[j].since];
    hide Next, After;
  }

  lemma {:induction false} StepKeepsSerial(h: Health, st: State, r: nat)
    requires Inv(h, st) && r < |st.tasks| && |Step(st, r).origin| == |Step(st, r).log|
    ensures Serial(Step(st, r))
  {
    var t, n := st.tasks[r], |st.log|;
    NextShape(st.health, n, t);
    assert WaitOk(st, r);
    hide Next, After, EntryOk, Outline, IsChecked;
  }

  lemma {:induction false} StepKeepsWaits(h: Health, st: State, r: nat)
    requires Inv(h, st) && r < |st.tasks| && TasksOk(Step(st, r)) && |Step(st, r).origin| == |Step(st, r).log|
    ensures var st' := Step(st, r); forall q :: 0 <= q < |st'.tasks| ==> WaitOk(st', q)
  {
    var st', t := Step(st, r), st.tasks[r];
    NextShape(st.health, |st.log|, t);
    assert WaitOk(st, r);
    hide Next, After, Inv, Serial, EntryOk, Outline;
    forall q | 0 <= q < |st'.tasks| ensures WaitOk(st', q) {
      assert WaitOk(st, q);
    }
  }

  lemma {:induction false} StepKeepsInv(h: Health, st: State, r: nat)
    requires Inv(h, st) && AllTimed(st)
    ensures Inv(h, Step(st, r)) && AllTimed(Step(st, r))
  {
    StepKeepsTasks(st, r);
    if r < |st.tasks| {
      var st', m := Step(st, r), Next(st.health, |st.log|, st.tasks[r]);
      NextShape(st.health, |st.log|, st.tasks[r]);
      AfterConcat(h, st.log, m.events);
      hide Next, WaitOk, EntryOk, Timed, Serial, After, TaskOk;
      StepKeepsSerial(h, st, r);
      StepKeepsWaits(h, st, r);
      forall j | 0 <= j < |st'.log| ensures EntryOk(h, st', j) {
        if j < |st.log| {
          OldEntryOk(h, st, r, j);
        } else {
          NewEntryOk(h, st, r);
        }
      }
    }
  }

  // ---------------------------------------------------------------- when a call starts inside a cooldown

  predicate CallsOk(calls: seq<GatewayCall>) {
    forall c :: c in calls ==> Scripted(c) && Timed(c)
  }

  /** The overlapping runs of a set of calls, from any health of the breaker. */
  ghost predicate Reachable(h: Health, calls: seq<GatewayCall>, st: State)
    requires CallsOk(calls)
  {
    BeginIsOk(h, calls);
    exists schedule :: Run(Begin(h, calls), schedule) == st
  }

  lemma {:induction false} BeginIsOk(h: Health, calls: seq<GatewayCall>)
    requires CallsOk(calls)
    ensures Inv(h, Begin(h, calls)) && AllTimed(Begin(h, calls))
  {
    AfterNone(h);
  }

  lemma {:induction false} RunKeepsInv(h: Health, st: State, schedule: seq<nat>)
    requires Inv(h, st) && AllTimed(st)
    ensures Inv(h, Run(st, schedule)) && AllTimed(Run(st, schedule))
  {
    if schedule != [] {
      hide Inv, AllTimed, Step;
      RunKeepsInv(h, st, schedule[..|schedule| - 1]);
      StepKeepsInv(h, Run(st, schedule[..|schedule| - 1]), schedule[|schedule| - 1]);
    }
  }

  lemma {:induction false} ReachableInv(h: Health, calls: seq<GatewayCall>, st: State)
    requires CallsOk(calls) && Reachable(h, calls, st)
    ensures Inv(h, st) && AllTimed(st)
  {
    hide Inv, AllTimed;
    BeginIsOk(h, calls);
    var schedule :| Run(Begin(h, calls), schedule) == st;
    RunKeepsInv(h, Begin(h, calls), schedule);
  }

  /** Something that ends the cooldown of entry i before entry n. */
  predicate LiftedBetween(log: seq<Event>, i: nat, n: nat)
    requires i < n <= |log|
  {
    || (exists m :: i < m < n && log[m] == Succeeded(log[i].provider, log[m].at))
    || (log[i].RateLimited? && FailureCount(log[i + 1..n], log[i].provider) >= 3)
  }

  /** In every overlapping run under a clock that never runs backwards: a call that starts inside a cooldown is the
      unchecked retry of a call begun before it, or the cooldown was lifted first, by a late success or, after a rate
      limit, by three late failures. */
  lemma {:induction false} CallInsideCooldown(h: Health, calls: seq<GatewayCall>, st: State, i: nat, j: nat)
    requires CallsOk(calls) && Reachable(h, calls, st) && TimesGrow(st.log)
    requires i < j < |st.log| && st.log[i].provider == st.log[j].provider && st.log[j].Call?
    requires (st.log[i].RateLimited? || Trips(h, st.log, i)) && st.log[j].at < SetsUntil(st.log[i])
    ensures |st.origin| == |st.log|
    ensures var first := st.origin[j].since;
            && first <= j && first != i && st.log[first] == Call(st.log[j].provider, st.log[first].at)
            && (first < i || LiftedBetween(st.log, i, first))
  {
    ReachableInv(h, calls, st);
    assert EntryOk(h, st, j);
    var first := st.origin[j].since;
    assert EntryOk(h, st, first);
    hide Reachable, Inv, EntryOk;
    if first > i {
      assert st.log[first].at <= st.log[j].at;
      PassesIffLifted(h, st.log, i, first, st.log[first].at);
      hide After, Lifted;
      WhatLifts(h, st.log, i, first, st.log[first].at);
    }
  }

  /** Whether the next stretch of a task starts a call. */
  predicate StartsCall(st: State, r: nat)
    requires TasksOk(st) && r < |st.tasks|
  {
    var events := Next(st.health, |st.log|, st.tasks[r]).events;
    events != [] && events[0].Call?
  }

  /** Inside the cooldown of its provider a task that can be constructed starts a call if and only if the cooldown was
      lifted, and one whose first reply did not validate always repeats its call. */
  lemma {:induction false} CallStartsIff(h: Health, calls: seq<GatewayCall>, st: State, r: nat, i: nat)
    requires CallsOk(calls) && Reachable(h, calls, st) && TasksOk(st)
    requires r < |st.tasks| && st.tasks[r].tier < |Chain(st.tasks[r].call)| && i < |st.log|
    requires st.log[i].provider == Chain(st.tasks[r].call)[st.tasks[r].tier].provider
    requires st.log[i].RateLimited? || Trips(h, st.log, i)
    requires Outline(st.tasks[r].call, st.tasks[r].tier).checkAt < SetsUntil(st.log[i])
    ensures var t := st.tasks[r];
            var s := Outline(t.call, t.tier);
            StartsCall(st, r) <==>
              || (t.phase.AtTier? && s.built.None? && Lifted(h, st.log, i, |st.log|, s.checkAt))
              || (t.phase.Waiting? && AfterReply(t.call, t.tier).Repeats?)
  {
    ReachableInv(h, calls, st);
    var t := st.tasks[r];
    PassesIffLifted(h, st.log, i, |st.log|, Outline(t.call, t.tier).checkAt);
    assert st.log[..|st.log|] == st.log && st.health == After(h, st.log);
    RepliesRecord(t.call, t.tier);
    hide Reachable, Inv, After, Lifted, AfterReply, AfterRetry, Outline;
  }

  // ---------------------------------------------------------------- the three ways, as runs

  function OneTier(p: Provider): seq<ProviderChoice> {
    [ProviderChoice(p, None, None)]
  }

  /** A call on a chain of one tier that starts at `at` and gets its reply at `done`. */
  function RunOnce(p: Provider, at: real, done: real, reply: Reply): GatewayCall {
    RunCall(OneTier(p), [TierScript(at, None, at, done, done, reply)])
  }

  /** One whose first reply, at `retry`, does not validate. */
  function StructuredOnce(p: Provider, at: real, retry: real): GatewayCall {
    StructuredCall(OneTier(p), [TierScript(at, None, at, retry, retry, Attempts(Invalid, Invalid))])
  }

  predicate OnceAt(c: GatewayCall, p: Provider, at: real) {
    && Scripted(c) && c.chain == OneTier(p)
    && Outline(c, 0).checkAt == Outline(c, 0).callAt == at && Outline(c, 0).built.None?
  }

  lemma {:induction false} ReachableStep(h: Health, calls: seq<GatewayCall>, st: State, r: nat) returns (st': State)
    requires CallsOk(calls) && Reachable(h, calls, st) && TasksOk(st)
    ensures TasksOk(st') && st' == Step(st, r) && Reachable(h, calls, st')
  {
    StepKeepsTasks(st, r);
    st' := Step(st, r);
    BeginIsOk(h, calls);
    var schedule :| Run(Begin(h, calls), schedule) == st;
    assert (schedule + [r])[..|schedule|] == schedule;
    assert Run(Begin(h, calls), schedule + [r]) == st';
  }

  lemma {:induction false} ReachableBegin(h: Health, calls: seq<GatewayCall>) returns (st: State)
    requires CallsOk(calls)
    ensures TasksOk(st) && st == Begin(h, calls) && Reachable(h, calls, st)
  {
    BeginIsOk(h, calls);
    st := Begin(h, calls);
    assert Run(st, []) == st;
  }

  /** A task checks its only tier and calls it. */
  lemma {:induction false} Starts(h: Health, calls: seq<GatewayCall>, st: State, r: nat, p: Provider, at: real)
    returns (st': State)
    requires CallsOk(calls) && Reachable(h, calls, st) && TasksOk(st)
    requires r < |st.tasks| && st.tasks[r] == Task(st.tasks[r].call, 0, AtTier) && OnceAt(st.tasks[r].call, p, at)
    requires st.health[p].cooldownUntil <= at
    ensures TasksOk(st') && Reachable(h, calls, st')
    ensures st' == State(st.health, st.tasks[r := st.tasks[r].(phase := Waiting(|st.log|))], st.log + [Call(p, at)],
                         st.origin + [Origin(r, |st.log|)])
  {
    st' := ReachableStep(h, calls, st, r);
    hide Reachable;
    CallChangesNothing(st.health, p, at);
    hide After;
  }

  /** A task that waits for its only tier gets its reply, which is recorded. */
  lemma {:induction false} Records(h: Health, calls: seq<GatewayCall>, st: State, r: nat, e: Event) returns (st': State)
    requires CallsOk(calls) && Reachable(h, calls, st) && TasksOk(st)
    requires r < |st.tasks| && st.tasks[r].phase.Waiting?
    requires AfterReply(st.tasks[r].call, st.tasks[r].tier) == Passes(e)
             || AfterReply(st.tasks[r].call, st.tasks[r].tier) == Ends([e])
    ensures TasksOk(st') && Reachable(h, calls, st') && |st'.tasks| == |st.tasks|
    ensures st'.health == Advance(st.health, e) && st'.log == st.log + [e]
            && st'.origin == st.origin + [Origin(r, st.tasks[r].phase.begun)]
    ensures forall q :: 0 <= q < |st.tasks| && q != r ==> st'.tasks[q] == st.tasks[q]
  {
    st' := ReachableStep(h, calls, st, r);
    hide Reachable, AfterReply;
    AfterOne(st.health, e);
    hide After, Advance;
  }

  lemma {:induction false} RunOnceOk(p: Provider, at: real, done: real, reply: Reply)
    requires at <= done
    ensures var c := RunOnce(p, at, done, reply);
            && Scripted(c) && Timed(c) && OnceAt(c, p, at)
            && AfterReply(c, 0)
               == if reply.Raises? then Passes(RecordOf(reply.exc, p, done)) else Ends([Succeeded(p, done)])
  {
  }

  lemma {:induction false} StructuredOnceOk(p: Provider, at: real, retry: real)
    requires at <= retry
    ensures var c := StructuredOnce(p, at, retry);
            Scripted(c) && Timed(c) && OnceAt(c, p, at) && AfterReply(c, 0).Repeats? && Outline(c, 0).retryAt == retry
  {
  }

  /** The first two calls are in flight and the first is rate limited. */
  lemma {:induction false} OneLimited(h: Health, p: Provider, calls: seq<GatewayCall>) returns (st: State)
    requires h[p] == FRESH && CallsOk(calls) && |calls| >= 2
    requires calls[0] == RunOnce(p, 0.0, 1.0, Raises(RateLimitError)) && OnceAt(calls[1], p, 0.0)
    ensures TasksOk(st) && Reachable(h, calls, st) && |st.tasks| == |calls|
    ensures st.log == [Call(p, 0.0), Call(p, 0.0), RateLimited(p, 1.0)]
            && st.origin == [Origin(0, 0), Origin(1, 1), Origin(0, 0)]
    ensures st.health == Advance(h, RateLimited(p, 1.0)) && st.tasks[1] == Task(calls[1], 0, Waiting(1))
    ensures forall r :: 2 <= r < |calls| ==> st.tasks[r] == Task(calls[r], 0, AtTier)
  {
    RunOnceOk(p, 0.0, 1.0, Raises(RateLimitError));
    st := ReachableBegin(h, calls);
    hide Reachable, After, Inv, CallsOk, AfterReply, Outline, OnceAt, RunOnce, TaskOk, Advance;
    st := Starts(h, calls, st, 0, p, 0.0);
    st := Starts(h, calls, st, 1, p, 0.0);
    st := Records(h, calls, st, 0, RateLimited(p, 1.0));
  }

  /** A late success: the third call starts two seconds into a cooldown of 300. */
  lemma {:induction false} LateSuccess(h: Health, p: Provider) returns (calls: seq<GatewayCall>, st: State)
    requires h[p] == FRESH
    ensures CallsOk(calls) && Reachable(h, calls, st)
    ensures st.log == [Call(p, 0.0), Call(p, 0.0), RateLimited(p, 1.0), Succeeded(p, 2.0), Call(p, 3.0)]
    ensures |st.origin| == 5 && st.origin[4] == Origin(2, 4)
  {
    RunOnceOk(p, 0.0, 1.0, Raises(RateLimitError));
    RunOnceOk(p, 0.0, 2.0, Text(""));
    RunOnceOk(p, 3.0, 4.0, Text(""));
    hide Scripted, Timed, OnceAt, AfterReply, Outline, RunOnce;
    calls := [RunOnce(p, 0.0, 1.0, Raises(RateLimitError)), RunOnce(p, 0.0, 2.0, Text("")),
              RunOnce(p, 3.0, 4.0, Text(""))];
    hide Reachable, After, Inv;
    st := OneLimited(h, p, calls);
    st := Records(h, calls, st, 1, Succeeded(p, 2.0));
    st := Starts(h, calls, st, 2, p, 3.0);
  }

  /** No success at all: the second call repeats itself one second into the cooldown. */
  lemma {:induction false} RetryIntoCooldown(h: Health, p: Provider) returns (calls: seq<GatewayCall>, st: State)
    requires h[p] == FRESH
    ensures CallsOk(calls) && Reachable(h, calls, st)
    ensures st.log == [Call(p, 0.0), Call(p, 0.0), RateLimited(p, 1.0), Call(p, 2.0)]
    ensures |st.origin| == 4 && st.origin[3] == Origin(1, 1)
  {
    RunOnceOk(p, 0.0, 1.0, Raises(RateLimitError));
    StructuredOnceOk(p, 0.0, 2.0);
    hide Scripted, Timed, AfterReply, Outline, RunOnce, StructuredOnce;
    calls := [RunOnce(p, 0.0, 1.0, Raises(RateLimitError)), StructuredOnce(p, 0.0, 2.0)];
    hide Reachable, After, Inv;
    var limited := OneLimited(h, p, calls);
    st := ReachableStep(h, calls, limited, 1);
    assert Next(limited.health, 3, limited.tasks[1]).events == [Call(p, 2.0)];
  }

  /** The first k of four calls are in flight. */
  lemma {:induction false} FourInFlight(h: Health, p: Provider, calls: seq<GatewayCall>, k: nat) returns (st: State)
    requires h[p] == FRESH && CallsOk(calls) && k <= 4 < |calls|
    requires forall r :: 0 <= r < 4 ==> OnceAt(calls[r], p, 0.0)
    ensures TasksOk(st) && Reachable(h, calls, st) && |st.tasks| == |calls| && st.health == h
    ensures st.log == seq(k, r requires 0 <= r < k => Call(p, 0.0))
    ensures forall r :: 0 <= r < |calls| ==> st.tasks[r] == Task(calls[r], 0, if r < k then Waiting(r) else AtTier)
  {
    if k == 0 {
      st := ReachableBegin(h, calls);
      hide *;
    } else {
      var before := FourInFlight(h, p, calls, k - 1);
      hide Reachable, OnceAt, CallsOk, TasksOk;
      st := Starts(h, calls, before, k - 1, p, 0.0);
    }
  }

  /** Three late failures cut the 300 seconds to 60. */
  lemma {:induction false} LateFailures(h: Health, p: Provider) returns (calls: seq<GatewayCall>, st: State)
    requires h[p] == FRESH
    ensures CallsOk(calls) && Reachable(h, calls, st)
    ensures st.log == [Call(p, 0.0), Call(p, 0.0), Call(p, 0.0), Call(p, 0.0), RateLimited(p, 1.0),
                       Failed(p, 2.0), Failed(p, 2.0), Failed(p, 2.0), Call(p, 62.0)]
  {
    RunOnceOk(p, 0.0, 1.0, Raises(RateLimitError));
    RunOnceOk(p, 0.0, 2.0, Raises(RuntimeError));
    RunOnceOk(p, 62.0, 63.0, Text(""));
    hide Scripted, Timed, OnceAt, AfterReply, Outline, RunOnce;
    var fails := RunOnce(p, 0.0, 2.0, Raises(RuntimeError));
    calls := [RunOnce(p, 0.0, 1.0, Raises(RateLimitError)), fails, fails, fails, RunOnce(p, 62.0, 63.0, Text(""))];
    hide Reachable, After, Inv;
    var flying := FourInFlight(h, p, calls, 4);
    assert flying.log == [Call(p, 0.0), Call(p, 0.0), Call(p, 0.0), Call(p, 0.0)];
    hide CallsOk, TaskOk;
    var failed := FourFail(h, p, calls, flying);
    st := Starts(h, calls, failed, 4, p, 62.0);
  }

  lemma {:induction false} FourFail(h: Health, p: Provider, calls: seq<GatewayCall>, st0: State) returns (st: State)
    requires CallsOk(calls) && TasksOk(st0) && Reachable(h, calls, st0) && |st0.tasks| == 5
    requires forall r :: 0 <= r < 4 ==> st0.tasks[r].phase.Waiting?
    requires AfterReply(st0.tasks[0].call, st0.tasks[0].tier) == Passes(RateLimited(p, 1.0))
    requires forall r :: 1 <= r < 4 ==> AfterReply(st0.tasks[r].call, st0.tasks[r].tier) == Passes(Failed(p, 2.0))
    ensures TasksOk(st) && Reachable(h, calls, st) && |st.tasks| == 5 && st.tasks[4] == st0.tasks[4]
    ensures st.log == st0.log + [RateLimited(p, 1.0), Failed(p, 2.0), Failed(p, 2.0), Failed(p, 2.0)]
    ensures st.health[p] == ProviderState(3, 62.0)
  {
    hide Reachable, After, Inv, AfterReply, CallsOk, TaskOk;
    st := Records(h, calls, st0, 0, RateLimited(p, 1.0));
    st := Records(h, calls, st, 1, Failed(p, 2.0));
    st := Records(h, calls, st, 2, Failed(p, 2.0));
    st := Records(h, calls, st, 3, Failed(p, 2.0));
  }
}
