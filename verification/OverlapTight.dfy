/** The failure bound of overlapping calls is met: runs in which blocks of calls are in flight together and all fail. */
module OverlapTight {
  import opened Common
  import opened CircuitBreaker
  import opened GatewaySpec
  import opened GatewaySafety
  import opened GatewayOverlap
  import opened OverlapRate

  /** `size` calls that start together and all fail at once. */
  datatype Block = Block(size: nat, time: real)

  function FailingCall(p: Provider, at: real): GatewayCall {
    RunOnce(p, at, at, Raises(RuntimeError))
  }

  function CallsOf(p: Provider, blocks: seq<Block>): seq<GatewayCall> {
    if blocks == [] then []
    else
      var last := blocks[|blocks| - 1];
      CallsOf(p, blocks[..|blocks| - 1]) + seq(last.size, i => FailingCall(p, last.time))
  }

  function Same<T>(x: T, n: nat): seq<T> {
    seq(n, i => x)
  }

  /** Tasks lo, lo + 1, ... whose tries began at entries n, n + 1, ... */
  function Origins(lo: nat, n: nat, s: nat): seq<Origin> {
    seq(s, i requires 0 <= i < s => Origin(lo + i, n + i))
  }

  function Waiters(st: State, lo: nat, n: nat, s: nat): seq<Task>
    requires lo + s <= |st.tasks|
  {
    seq(|st.tasks|, r requires 0 <= r < |st.tasks| =>
      if lo <= r < lo + s then st.tasks[r].(phase := Waiting(n + r - lo)) else st.tasks[r])
  }

  /** A block starts. */
  lemma {:induction false} StartMany(h: Health, calls: seq<GatewayCall>, st: State, lo: nat, s: nat, p: Provider,
                                     at: real)
    returns (st': State)
    requires CallsOk(calls) && Reachable(h, calls, st) && TasksOk(st) && lo + s <= |st.tasks|
    requires forall r :: lo <= r < lo + s ==>
               st.tasks[r] == Task(st.tasks[r].call, 0, AtTier) && OnceAt(st.tasks[r].call, p, at)
    requires st.health[p].cooldownUntil <= at
    ensures TasksOk(st') && Reachable(h, calls, st')
    ensures st' == State(st.health, Waiters(st, lo, |st.log|, s), st.log + Same(Call(p, at), s),
                         st.origin + Origins(lo, |st.log|, s))
  {
    hide Reachable, OnceAt, CallsOk, TaskOk;
    if s == 0 {
      st' := st;
    } else {
      var before := StartMany(h, calls, st, lo, s - 1, p, at);
      st' := Starts(h, calls, before, lo + s - 1, p, at);
      assert Origins(lo, |st.log|, s) == Origins(lo, |st.log|, s - 1) + [Origin(lo + s - 1, |before.log|)];
      assert Same(Call(p, at), s) == Same(Call(p, at), s - 1) + [Call(p, at)];
    }
  }

  /** What n failures at one time make of a provider. */
  function AfterFailures(s: ProviderState, n: nat, at: real): ProviderState {
    if n == 0 then s
    else ProviderState(s.failureCount + n, if s.failureCount + n >= 3 then at + 60.0 else s.cooldownUntil)
  }

  /** A block fails. */
  lemma {:induction false} RecordMany(h: Health, calls: seq<GatewayCall>, st: State, lo: nat, n: nat, s: nat,
                                      p: Provider, at: real)
    returns (st': State)
    requires CallsOk(calls) && Reachable(h, calls, st) && TasksOk(st) && lo + s <= |st.tasks|
    requires forall r :: lo <= r < lo + s ==>
               && st.tasks[r].phase == Waiting(n + r - lo)
               && AfterReply(st.tasks[r].call, st.tasks[r].tier) == Passes(Failed(p, at))
    ensures TasksOk(st') && Reachable(h, calls, st') && |st'.tasks| == |st.tasks|
    ensures st'.health[p] == AfterFailures(st.health[p], s, at)
    ensures st'.log == st.log + Same(Failed(p, at), s) && st'.origin == st.origin + Origins(lo, n, s)
    ensures forall r :: lo + s <= r < |st.tasks| ==> st'.tasks[r] == st.tasks[r]
  {
    hide Reachable, CallsOk, TaskOk, AfterReply;
    if s == 0 {
      st' := st;
    } else {
      var before := RecordMany(h, calls, st, lo, n, s - 1, p, at);
      st' := Records(h, calls, before, lo + s - 1, Failed(p, at));
      assert Origins(lo, n, s) == Origins(lo, n, s - 1) + [Origin(lo + s - 1, n + s - 1)];
      assert Same(Failed(p, at), s) == Same(Failed(p, at), s - 1) + [Failed(p, at)];
    }
  }

  // ---------------------------------------------------------------- block by block

  function LastTime(blocks: seq<Block>): real {
    if blocks == [] then 0.0 else blocks[|blocks| - 1].time
  }

  /** The provider after the blocks, starting fresh. */
  function StateAfter(blocks: seq<Block>): ProviderState {
    if blocks == [] then FRESH
    else
      var last := blocks[|blocks| - 1];
      AfterFailures(StateAfter(blocks[..|blocks| - 1]), last.size, last.time)
  }

  /** Each block starts when the cooldown that the ones before it left is over. */
  predicate Feasible(blocks: seq<Block>) {
    blocks == [] ||
    (var init, last := blocks[..|blocks| - 1], blocks[|blocks| - 1];
     Feasible(init) && StateAfter(init).cooldownUntil <= last.time && LastTime(init) <= last.time)
  }

  predicate SizesAtMost(blocks: seq<Block>, k: nat) {
    forall b :: b in blocks ==> b.size <= k
  }

  /** A log that is all calls to p and failures of p, its times growing up to `until`. */
  predicate LogOk(log: seq<Event>, p: Provider, until: real) {
    && TimesGrow(log) && 0.0 <= until
    && forall e :: e in log ==> (e == Call(p, e.at) || e == Failed(p, e.at)) && 0.0 <= e.at <= until
  }

  /** Where the run of the blocks has come, with the other tasks still to start. */
  predicate Ran(st: State, p: Provider, blocks: seq<Block>, calls: seq<GatewayCall>, k: nat) {
    && TasksOk(st) && |st.origin| == |st.log| && |CallsOf(p, blocks)| <= |st.tasks| == |calls|
    && (forall r :: |CallsOf(p, blocks)| <= r < |calls| ==> st.tasks[r] == Task(calls[r], 0, AtTier))
    && st.health[p] == StateAfter(blocks)
    && FailureCount(st.log, p) == |CallsOf(p, blocks)|
    && LogOk(st.log, p, LastTime(blocks))
    && AtMost(st, 0, |st.log|, p, k)
  }

  /** What a block of s calls adds: s calls and s failures, all by its own tasks, all since it started. */
  predicate Extends(st: State, st': State, lo: nat, s: nat, p: Provider, at: real)
    requires |st.origin| == |st.log|
  {
    && st'.log == st.log + Same(Call(p, at), s) + Same(Failed(p, at), s)
    && |st'.origin| == |st'.log| && st.origin <= st'.origin
    && (forall j :: |st.log| <= j < |st'.log| ==>
          lo <= st'.origin[j].task < lo + s && |st.log| <= st'.origin[j].since)
  }

  lemma {:induction false} OneBlock(h: Health, calls: seq<GatewayCall>, st: State, lo: nat, s: nat, p: Provider,
                                    at: real)
    returns (st': State)
    requires CallsOk(calls) && Reachable(h, calls, st) && TasksOk(st) && lo + s <= |st.tasks|
    requires |st.origin| == |st.log| && st.health[p].cooldownUntil <= at
    requires forall r :: lo <= r < lo + s ==> st.tasks[r] == Task(FailingCall(p, at), 0, AtTier)
    ensures TasksOk(st') && Reachable(h, calls, st') && |st'.tasks| == |st.tasks|
    ensures st'.health[p] == AfterFailures(st.health[p], s, at) && Extends(st, st', lo, s, p, at)
    ensures forall r :: lo + s <= r < |st.tasks| ==> st'.tasks[r] == st.tasks[r]
  {
    RunOnceOk(p, at, at, Raises(RuntimeError));
    hide Reachable, OnceAt, CallsOk, TaskOk, AfterReply, RunOnce, AfterFailures;
    var flying := StartMany(h, calls, st, lo, s, p, at);
    st' := RecordMany(h, calls, flying, lo, |st.log|, s, p, at);
    BlockExtends(st, st', lo, s, p, at);
    hide Same, Origins, Extends;
  }

  lemma {:induction false} BlockExtends(st: State, st': State, lo: nat, s: nat, p: Provider, at: real)
    requires |st.origin| == |st.log|
    requires st'.log == st.log + Same(Call(p, at), s) + Same(Failed(p, at), s)
    requires st'.origin == st.origin + Origins(lo, |st.log|, s) + Origins(lo, |st.log|, s)
    ensures Extends(st, st', lo, s, p, at)
  {
    assert st'.origin == st.origin + (Origins(lo, |st.log|, s) + Origins(lo, |st.log|, s));
  }

  lemma {:induction false} SameCounts(p: Provider, at: real, s: nat)
    ensures FailureCount(Same(Call(p, at), s), p) == 0 && FailureCount(Same(Failed(p, at), s), p) == s
  {
    if s > 0 {
      assert Same(Call(p, at), s)[1..] == Same(Call(p, at), s - 1);
      assert Same(Failed(p, at), s)[1..] == Same(Failed(p, at), s - 1);
      SameCounts(p, at, s - 1);
    }
  }

  lemma {:induction false} CountGrows(log: seq<Event>, p: Provider, at: real, s: nat)
    ensures FailureCount(log + Same(Call(p, at), s) + Same(Failed(p, at), s), p) == FailureCount(log, p) + s
  {
    hide FailureCount, Same;
    SameCounts(p, at, s);
    FailureCountConcat(log + Same(Call(p, at), s), Same(Failed(p, at), s), p);
    FailureCountConcat(log, Same(Call(p, at), s), p);
  }

  lemma {:induction false} SameMembers<T>(x: T, n: nat)
    ensures forall e :: e in Same(x, n) ==> e == x
  {
  }

  lemma {:induction false} LogGrows(log: seq<Event>, p: Provider, until: real, at: real, s: nat)
    requires LogOk(log, p, until) && until <= at
    ensures LogOk(log + Same(Call(p, at), s) + Same(Failed(p, at), s), p, at)
  {
    hide Same;
    SameMembers(Call(p, at), s);
    SameMembers(Failed(p, at), s);
    TimesJoin(log, Same(Call(p, at), s), until, at);
    TimesJoin(log + Same(Call(p, at), s), Same(Failed(p, at), s), at, at);
    hide TimesGrow;
  }

  lemma {:induction false} TimesJoin(log: seq<Event>, added: seq<Event>, until: real, at: real)
    requires TimesGrow(log) && until <= at && (forall e :: e in log ==> e.at <= until)
             && (forall e :: e in added ==> e.at == at)
    ensures TimesGrow(log + added)
  {
    forall i, j | 0 <= i < j < |log + added| ensures (log + added)[i].at <= (log + added)[j].at {
      assert i < |log| ==> log[i] in log;
      assert j >= |log| ==> added[j - |log|] in added;
      assert i >= |log| ==> added[i - |log|] in added;
    }
  }

  /** Tries under way in earlier blocks are over; in this one they are its own tasks. */
  lemma {:induction false} UnderWayInBlock(st: State, st': State, lo: nat, s: nat, p: Provider, at: real, k: nat,
                                           i: nat)
    requires |st.origin| == |st.log| && Extends(st, st', lo, s, p, at) && AtMost(st, 0, |st.log|, p, k) && s <= k
    requires i < |st'.log| && (i < |st.log| ==> st.log[i].provider == p)
    ensures |UnderWay(st', i, p)| <= k
  {
    if i < |st.log| {
      assert UnderWay(st', i, p) == UnderWay(st, i, p);
    } else {
      RangeHasAll(lo, s);
      assert UnderWay(st', i, p) <= Range(lo, s);
      SubsetSize(UnderWay(st', i, p), Range(lo, s));
    }
  }

  function Range(lo: nat, s: nat): set<nat> {
    if s == 0 then {} else Range(lo, s - 1) + {lo + s - 1}
  }

  lemma {:induction false} RangeHasAll(lo: nat, s: nat)
    ensures |Range(lo, s)| == s && forall r :: r in Range(lo, s) <==> lo <= r < lo + s
  {
    if s > 0 {
      RangeHasAll(lo, s - 1);
    }
  }

  lemma {:induction false} UnderWayStays(st: State, st': State, lo: nat, s: nat, p: Provider, at: real, k: nat)
    requires |st.origin| == |st.log| && Extends(st, st', lo, s, p, at) && AtMost(st, 0, |st.log|, p, k) && s <= k
    requires forall e :: e in st.log ==> e.provider == p
    ensures AtMost(st', 0, |st'.log|, p, k)
  {
    forall i | 0 <= i < |st'.log| && st'.log[i].provider == p ensures |UnderWay(st', i, p)| <= k {
      UnderWayInBlock(st, st', lo, s, p, at, k, i);
    }
  }

  /** One more block. */
  lemma {:induction false} BlockRuns(h: Health, p: Provider, init: seq<Block>, last: Block, calls: seq<GatewayCall>,
                                     k: nat, before: State)
    returns (st: State)
    requires CallsOk(calls) && Reachable(h, calls, before) && Ran(before, p, init, calls, k)
    requires StateAfter(init).cooldownUntil <= last.time && LastTime(init) <= last.time && last.size <= k
    requires var lo := |CallsOf(p, init)|;
             lo + last.size <= |calls| && forall r :: lo <= r < lo + last.size ==> calls[r] == FailingCall(p, last.time)
    ensures Reachable(h, calls, st) && Ran(st, p, init + [last], calls, k)
  {
    var lo, s := |CallsOf(p, init)|, last.size;
    assert (init + [last])[..|init|] == init;
    hide Reachable, CallsOk, TaskOk, AfterFailures, FailingCall, UnderWay;
    st := OneBlock(h, calls, before, lo, s, p, last.time);
    LogGrows(before.log, p, LastTime(init), last.time, s);
    CountGrows(before.log, p, last.time, s);
    UnderWayStays(before, st, lo, s, p, last.time, k);
    hide AtMost, LogOk, FailureCount, Same;
    assert |CallsOf(p, init + [last])| == lo + s;
  }

  lemma {:induction false} BlocksRun(h: Health, p: Provider, blocks: seq<Block>, rest: seq<GatewayCall>, k: nat)
    returns (st: State)
    requires h[p] == FRESH && Feasible(blocks) && SizesAtMost(blocks, k) && CallsOk(CallsOf(p, blocks) + rest)
    ensures var calls := CallsOf(p, blocks) + rest; Reachable(h, calls, st) && Ran(st, p, blocks, calls, k)
    decreases |blocks|
  {
    var calls := CallsOf(p, blocks) + rest;
    if blocks == [] {
      st := ReachableBegin(h, calls);
      hide Reachable, CallsOk;
    } else {
      var init, last := blocks[..|blocks| - 1], blocks[|blocks| - 1];
      var more := seq(last.size, i => FailingCall(p, last.time));
      assert CallsOf(p, init) + (more + rest) == calls && init + [last] == blocks && last in blocks;
      assert Feasible(init) && SizesAtMost(init, k);
      assert forall r :: |CallsOf(p, init)| <= r < |CallsOf(p, init)| + last.size ==>
             calls[r] == FailingCall(p, last.time);
      hide Reachable, CallsOk, StateAfter, Ran, CallsOf, FailingCall, SizesAtMost;
      var before := BlocksRun(h, p, init, more + rest, k);
      st := BlockRuns(h, p, init, last, calls, k, before);
    }
  }

  // ---------------------------------------------------------------- the bound is met

  /** Two failures one after the other, and then k calls together at every full minute. */
  function Rounds(k: nat, minutes: nat): seq<Block> {
    if minutes == 0 then [Block(1, 0.0), Block(1, 0.0), Block(k, 0.0)]
    else Rounds(k, minutes - 1) + [Block(k, 60.0 * minutes as real)]
  }

  lemma {:induction false} AddBlock(p: Provider, init: seq<Block>, last: Block, k: nat)
    requires Feasible(init) && StateAfter(init).cooldownUntil <= last.time && LastTime(init) <= last.time
    requires SizesAtMost(init, k) && last.size <= k
    ensures var b := init + [last];
            && Feasible(b) && SizesAtMost(b, k) && LastTime(b) == last.time
            && StateAfter(b) == AfterFailures(StateAfter(init), last.size, last.time)
            && |CallsOf(p, b)| == |CallsOf(p, init)| + last.size
  {
    assert (init + [last])[..|init|] == init;
    hide AfterFailures;
  }

  lemma {:induction false} FirstRound(p: Provider, k: nat)
    requires k >= 1
    ensures var b := Rounds(k, 0);
            && Feasible(b) && SizesAtMost(b, k) && LastTime(b) == 0.0
            && StateAfter(b) == ProviderState(2 + k, 60.0) && |CallsOf(p, b)| == 2 + k
  {
    var one := Block(1, 0.0);
    assert [] + [one] == [one] && [one] + [one] == [one, one];
    assert [one, one] + [Block(k, 0.0)] == Rounds(k, 0);
    hide Rounds;
    AddBlock(p, [], one, k);
    AddBlock(p, [one], one, k);
    AddBlock(p, [one, one], Block(k, 0.0), k);
    assert StateAfter([]) == FRESH && CallsOf(p, []) == [];
  }

  predicate RoundsOk(p: Provider, k: nat, minutes: nat, b: seq<Block>) {
    && Feasible(b) && SizesAtMost(b, k) && LastTime(b) == 60.0 * minutes as real
    && StateAfter(b) == ProviderState(2 + k + k * minutes, 60.0 * minutes as real + 60.0)
    && |CallsOf(p, b)| == 2 + k + k * minutes
  }

  lemma {:induction false} RoundsAreFeasible(p: Provider, k: nat, minutes: nat)
    requires k >= 1
    ensures RoundsOk(p, k, minutes, Rounds(k, minutes))
  {
    hide Feasible, SizesAtMost, LastTime, StateAfter, CallsOf;
    if minutes == 0 {
      FirstRound(p, k);
    } else {
      RoundsAreFeasible(p, k, minutes - 1);
      OneMoreRound(p, k, minutes, Rounds(k, minutes - 1));
      hide RoundsOk;
    }
  }

  lemma {:induction false} OneMoreRound(p: Provider, k: nat, minutes: nat, b: seq<Block>)
    requires k >= 1 && minutes >= 1 && RoundsOk(p, k, minutes - 1, b)
    ensures RoundsOk(p, k, minutes, b + [Block(k, 60.0 * minutes as real)])
  {
    hide Feasible, SizesAtMost, LastTime, StateAfter, CallsOf;
    assert k * minutes == k * (minutes - 1) + k;
    assert 60.0 * minutes as real == 60.0 * (minutes - 1) as real + 60.0;
    AddBlock(p, b, Block(k, 60.0 * minutes as real), k);
  }

  lemma {:induction false} FailingCallsAreOk(p: Provider, blocks: seq<Block>)
    ensures CallsOk(CallsOf(p, blocks))
  {
    if blocks != [] {
      FailingCallsAreOk(p, blocks[..|blocks| - 1]);
      RunOnceOk(p, blocks[|blocks| - 1].time, blocks[|blocks| - 1].time, Raises(RuntimeError));
      hide Scripted, Timed, RunOnce;
    }
  }

  /** For every k and every number of minutes there is a run, with at most k tries under way at a time, that records as
      many failures in that time as the bound allows. */
  lemma {:induction false} OverlappingBoundIsTight(h: Health, p: Provider, k: nat, minutes: nat)
    returns (calls: seq<GatewayCall>, st: State)
    requires h[p] == FRESH && k >= 1
    ensures CallsOk(calls) && Reachable(h, calls, st) && TimesGrow(st.log) && |st.origin| == |st.log| > 0
    ensures NoRecovery(st.log, p) && AtMost(st, 0, |st.log|, p, k)
    ensures st.log[|st.log| - 1].at - st.log[0].at <= 60.0 * minutes as real
    ensures FailureCount(st.log, p) == 2 + k + k * minutes
  {
    var blocks := Rounds(k, minutes);
    calls := CallsOf(p, blocks);
    RoundsAreFeasible(p, k, minutes);
    FailingCallsAreOk(p, blocks);
    assert calls + [] == calls;
    assert |CallsOf(p, blocks)| >= 2;
    hide Reachable, CallsOk, Feasible, StateAfter, CallsOf, Rounds, SizesAtMost, AtMost;
    st := BlocksRun(h, p, blocks, [], k);
    assert k * minutes >= 0;
    assert st.log != [];
    assert st.log[0] in st.log && st.log[|st.log| - 1] in st.log;
  }
}
