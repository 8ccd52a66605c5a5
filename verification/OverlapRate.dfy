/** How many failures overlapping calls can record: every call under way at a trip may still fail once. */
module OverlapRate {
  import opened CircuitBreaker
  import opened GatewaySpec
  import opened GatewaySafety
  import opened GatewayOverlap

  predicate IsFailure(log: seq<Event>, j: nat, p: Provider)
    requires j < |log|
  {
    log[j] == Failed(p, log[j].at)
  }

  /** The failures of p among the entries from i up to n. */
  function Failures(log: seq<Event>, i: nat, n: nat, p: Provider): nat
    requires i <= n <= |log|
  {
    FailureCount(log[i..n], p)
  }

  lemma {:induction false} FailuresJoin(log: seq<Event>, i: nat, m: nat, n: nat, p: Provider)
    requires i <= m <= n <= |log|
    ensures Failures(log, i, n, p) == Failures(log, i, m, p) + Failures(log, m, n, p)
  {
    assert log[i..n] == log[i..m] + log[m..n];
    FailureCountConcat(log[i..m], log[m..n], p);
  }

  lemma {:induction false} FailuresNext(log: seq<Event>, i: nat, n: nat, p: Provider)
    requires i <= n < |log|
    ensures Failures(log, i, n + 1, p) == Failures(log, i, n, p) + if IsFailure(log, n, p) then 1 else 0
  {
    FailuresJoin(log, i, n, n + 1, p);
    var one := [log[n]];
    assert log[n..n + 1] == one && one[1..] == [] && one[0] == log[n];
    assert FailureCount(one, p) == if IsFailure(log, n, p) then 1 else 0;
  }

  lemma {:induction false} NoFailures(log: seq<Event>, i: nat, p: Provider)
    requires i <= |log|
    ensures Failures(log, i, i, p) == 0
  {
    assert log[i..i] == [];
  }

  /** A stretch of a run in which p starts fresh and is never recorded as successful or rate limited. */
  predicate Stretch(h: Health, log: seq<Event>, a: nat, b: nat, p: Provider) {
    && TimesGrow(log) && a <= b <= |log| && After(h, log[..a])[p] == FRESH
    && (forall j :: a <= j < b && log[j].provider == p ==> log[j].Call? || log[j].Failed?)
  }

  /** One entry of it. */
  lemma {:induction false} StretchStep(h: Health, log: seq<Event>, a: nat, b: nat, p: Provider, m: nat)
    requires Stretch(h, log, a, b, p) && a <= m < b
    ensures var s := After(h, log[..m])[p];
            After(h, log[..m + 1])[p] ==
              if !IsFailure(log, m, p) then s
              else
                ProviderState(s.failureCount + 1, if s.failureCount + 1 >= 3 then log[m].at + 60.0 else s.cooldownUntil)
  {
    assert log[..m + 1] == log[..m] + [log[m]];
    AfterSnoc(h, log[..m], log[m]);
    hide After, TimesGrow;
  }

  /** In such a stretch the breaker counts the failures. */
  lemma {:induction false} CountsFailures(h: Health, log: seq<Event>, a: nat, b: nat, p: Provider, n: nat)
    requires Stretch(h, log, a, b, p) && a <= n <= b
    ensures After(h, log[..n])[p].failureCount == Failures(log, a, n, p)
  {
    hide After, Failures, IsFailure, TimesGrow;
    if n == a {
      NoFailures(log, a, p);
    } else {
      CountsFailures(h, log, a, b, p, n - 1);
      FailuresNext(log, a, n - 1, p);
      StretchStep(h, log, a, b, p, n - 1);
    }
  }

  predicate TripsAt(log: seq<Event>, a: nat, p: Provider, i: nat)
    requires a <= i < |log|
  {
    IsFailure(log, i, p) && Failures(log, a, i + 1, p) >= 3
  }

  /** With two failures counted, the next one sets a new cooldown, and nothing else does. */
  lemma {:induction false} ThirdFailureCools(h: Health, log: seq<Event>, a: nat, b: nat, p: Provider, m: nat)
    requires Stretch(h, log, a, b, p) && a <= m < b && Failures(log, a, m, p) >= 2
    ensures After(h, log[..m + 1])[p].cooldownUntil
         == if IsFailure(log, m, p) then log[m].at + 60.0 else After(h, log[..m])[p].cooldownUntil
  {
    hide After, Failures, IsFailure, Stretch;
    CountsFailures(h, log, a, b, p, m);
    StretchStep(h, log, a, b, p, m);
  }

  /** After a trip the provider is cooling for sixty seconds at least. */
  lemma {:induction false} CoolsAfterTrip(h: Health, log: seq<Event>, a: nat, b: nat, p: Provider, i: nat, n: nat)
    requires Stretch(h, log, a, b, p) && a <= i < n <= b && TripsAt(log, a, p, i)
    ensures After(h, log[..n])[p].cooldownUntil >= log[i].at + 60.0
  {
    var m := n - 1;
    assert m > i ==> log[i].at <= log[m].at;
    hide After, Failures, IsFailure, Stretch, TripsAt;
    TripsFromThen(log, a, p, i, m);
    ThirdFailureCools(h, log, a, b, p, m);
    if m > i {
      CoolsAfterTrip(h, log, a, b, p, i, m);
    }
  }

  /** Once tripped, every failure finds two at least before it. */
  lemma {:induction false} TripsFromThen(log: seq<Event>, a: nat, p: Provider, i: nat, m: nat)
    requires a <= i <= m < |log| && TripsAt(log, a, p, i)
    ensures Failures(log, a, m, p) >= 2 && (i == m ==> IsFailure(log, m, p))
  {
    hide Failures, IsFailure;
    if i == m {
      FailuresNext(log, a, i, p);
    } else {
      FailuresJoin(log, a, i + 1, m, p);
    }
  }

  // ---------------------------------------------------------------- one failure for each task in flight

  /** The tasks whose failures stand between i and n. */
  function Failing(st: State, i: nat, n: nat, p: Provider): set<nat>
    requires i <= n <= |st.log| == |st.origin|
  {
    set j | i <= j < n && IsFailure(st.log, j, p) :: st.origin[j].task
  }

  lemma {:induction false} FailingNext(st: State, i: nat, n: nat, p: Provider)
    requires i <= n < |st.log| == |st.origin|
    ensures Failing(st, i, n + 1, p)
         == Failing(st, i, n, p) + if IsFailure(st.log, n, p) then {st.origin[n].task} else {}
  {
  }

  lemma {:induction false} FailingNone(st: State, i: nat, p: Provider)
    requires i <= |st.log| == |st.origin|
    ensures Failing(st, i, i, p) == {}
  {
  }

  /** All failures from i + 1 up to n come from tiers that were checked before entry i was made. */
  predicate InFlight(st: State, i: nat, n: nat, p: Provider)
    requires n <= |st.log| == |st.origin|
  {
    forall j :: i < j < n && IsFailure(st.log, j, p) ==> st.origin[j].since <= i
  }

  /** The next of them is by a task that has not failed since, nor at i. */
  lemma {:induction false} AnotherTask(st: State, i: nat, m: nat, p: Provider)
    requires i < m < |st.log| == |st.origin| && IsFailure(st.log, i, p) && IsFailure(st.log, m, p)
    requires Serial(st) && st.origin[m].since <= i
    ensures st.origin[m].task !in Failing(st, i + 1, m, p) && st.origin[m].task != st.origin[i].task
  {
    assert forall j :: i <= j < m && IsFailure(st.log, j, p) ==> st.origin[j].task != st.origin[m].task;
  }

  lemma {:induction false} InFlightBefore(st: State, i: nat, m: nat, p: Provider)
    requires m < |st.log| == |st.origin| && i < m && InFlight(st, i, m + 1, p)
    ensures InFlight(st, i, m, p) && (IsFailure(st.log, m, p) ==> st.origin[m].since <= i)
  {
  }

  lemma {:induction false} OneMoreEach(st: State, i: nat, m: nat, p: Provider)
    requires i < m < |st.log| == |st.origin| && IsFailure(st.log, i, p) && Serial(st)
    requires IsFailure(st.log, m, p) ==> st.origin[m].since <= i
    requires |Failing(st, i + 1, m, p)| == Failures(st.log, i + 1, m, p)
             && st.origin[i].task !in Failing(st, i + 1, m, p)
    ensures |Failing(st, i + 1, m + 1, p)| == Failures(st.log, i + 1, m + 1, p)
    ensures st.origin[i].task !in Failing(st, i + 1, m + 1, p)
  {
    hide Failures, Serial, Failing;
    FailingNext(st, i + 1, m, p);
    FailuresNext(st.log, i + 1, m, p);
    if IsFailure(st.log, m, p) {
      AnotherTask(st, i, m, p);
    }
    hide IsFailure;
  }

  /** So each of them is another task's. */
  lemma {:induction false} OneFailureEach(st: State, i: nat, n: nat, p: Provider)
    requires i < n <= |st.log| == |st.origin| && IsFailure(st.log, i, p) && Serial(st) && InFlight(st, i, n, p)
    ensures |Failing(st, i + 1, n, p)| == Failures(st.log, i + 1, n, p)
    ensures st.origin[i].task !in Failing(st, i + 1, n, p)
  {
    hide Failures, Serial, Failing, InFlight, IsFailure;
    if n == i + 1 {
      FailingNone(st, n, p);
      NoFailures(st.log, n, p);
    } else {
      InFlightBefore(st, i, n - 1, p);
      OneFailureEach(st, i, n - 1, p);
      OneMoreEach(st, i, n - 1, p);
    }
  }

  /** The tasks whose try of a tier of p spans entry i: they checked the tier by then, and do something to p at or after
      i in that same try. */
  function UnderWay(st: State, i: nat, p: Provider): set<nat>
    requires i <= |st.log| == |st.origin|
  {
    set j | i <= j < |st.log| && st.log[j].provider == p && st.origin[j].since <= i :: st.origin[j].task
  }

  /** At no entry for p from a up to b are more than k tries of p under way. */
  predicate AtMost(st: State, a: nat, b: nat, p: Provider, k: nat)
    requires b <= |st.log| == |st.origin|
  {
    forall i :: a <= i < b && st.log[i].provider == p ==> |UnderWay(st, i, p)| <= k
  }

  lemma {:induction false} SubsetSize<T>(a: set<T>, b: set<T>)
    requires a <= b
    ensures |a| <= |b|
  {
    assert b == a + (b - a);
  }

  /** So a failure and those in flight at it are no more than the tries under way. */
  lemma {:induction false} FewerThanUnderWay(h: Health, st: State, i: nat, n: nat, p: Provider)
    requires Inv(h, st) && i < n <= |st.log| && IsFailure(st.log, i, p) && InFlight(st, i, n, p)
    ensures Failures(st.log, i + 1, n, p) + 1 <= |UnderWay(st, i, p)|
  {
    OneFailureEach(st, i, n, p);
    assert EntryOk(h, st, i);
    var s := Failing(st, i + 1, n, p) + {st.origin[i].task};
    assert s <= UnderWay(st, i, p);
    hide Inv, Failing, Failures, UnderWay;
    SubsetSize(s, UnderWay(st, i, p));
  }

  // ---------------------------------------------------------------- the bound

  predicate Early(st: State, i: nat, n: nat, p: Provider)
    requires n <= |st.log| && i < |st.log|
  {
    forall j :: i < j < n && IsFailure(st.log, j, p) ==> st.log[j].at < st.log[i].at + 60.0
  }

  /** A failure within sixty seconds of a trip was in flight at the trip. */
  lemma {:induction false} EarlyIsInFlight(h: Health, st: State, a: nat, b: nat, p: Provider, i: nat, n: nat)
    requires Inv(h, st) && Stretch(h, st.log, a, b, p) && a <= i < n <= b && TripsAt(st.log, a, p, i)
             && Early(st, i, n, p)
    ensures InFlight(st, i, n, p)
  {
    forall j | i < j < n && IsFailure(st.log, j, p) ensures st.origin[j].since <= i {
      assert EntryOk(h, st, j);
      var since := st.origin[j].since;
      if since > i {
        CoolsAfterTrip(h, st.log, a, b, p, i, since);
      }
    }
    hide Inv, After;
  }

  /** Minutes that have passed. */
  function Minutes(seconds: real): int {
    (seconds / 60.0).Floor
  }

  /** k for each minute. */
  function Allowed(k: nat, seconds: real): int {
    k * Minutes(seconds)
  }

  lemma {:induction false} OneMoreMinute(early: real, later: real, now: real, k: nat)
    requires early + 60.0 <= later <= now
    ensures k + Allowed(k, now - later) <= Allowed(k, now - early)
  {
    var x, y := Minutes(now - later), Minutes(now - early);
    assert (now - early) / 60.0 >= (now - later) / 60.0 + 1.0;
    assert y >= x + 1;
    assert k * y == k * (x + 1) + k * (y - x - 1);
  }

  lemma {:induction false} MinutesPass(seconds: real, k: nat)
    requires seconds >= 0.0
    ensures Allowed(k, seconds) >= 0
  {
    assert seconds / 60.0 >= 0.0;
  }

  lemma {:induction false} MinutesGrow(a: real, b: real, k: nat)
    requires a <= b
    ensures Allowed(k, a) <= Allowed(k, b)
  {
    assert a / 60.0 <= b / 60.0;
    assert k * Minutes(b) == k * Minutes(a) + k * (Minutes(b) - Minutes(a));
  }

  /** The first failure of p at least a minute after entry i, if there is one. */
  lemma {:induction false} FirstLate(st: State, i: nat, n: nat, p: Provider) returns (j: nat)
    requires i < n <= |st.log|
    ensures i < j <= n && Early(st, i, j, p)
    ensures j < n ==> IsFailure(st.log, j, p) && st.log[j].at >= st.log[i].at + 60.0
  {
    j := i + 1;
    while j < n && !(IsFailure(st.log, j, p) && st.log[j].at >= st.log[i].at + 60.0)
      invariant i < j <= n && Early(st, i, j, p)
    {
      j := j + 1;
    }
  }

  predicate Context(h: Health, st: State, a: nat, b: nat, p: Provider, k: nat) {
    Inv(h, st) && b <= |st.log| && Stretch(h, st.log, a, b, p) && AtMost(st, a, b, p, k)
  }

  predicate Trip(st: State, a: nat, b: nat, p: Provider, i: nat) {
    a <= i < b <= |st.log| && TripsAt(st.log, a, p, i)
  }

  /** The failures after i up to n are as few as the time between allows. */
  predicate Paced(st: State, p: Provider, k: nat, i: nat, n: nat) {
    i < n <= |st.log| && Failures(st.log, i + 1, n, p) <= k - 1 + Allowed(k, st.log[n - 1].at - st.log[i].at)
  }

  /** Fewer than k failures after i up to j, and j is a failure a minute later. */
  predicate Gap(st: State, p: Provider, k: nat, i: nat, j: nat, n: nat) {
    && i < j < n <= |st.log| && Failures(st.log, i + 1, j, p) + 1 <= k
    && st.log[i].at + 60.0 <= st.log[j].at <= st.log[n - 1].at
    && Failures(st.log, i + 1, n, p) == Failures(st.log, i + 1, j, p) + 1 + Failures(st.log, j + 1, n, p)
  }

  lemma {:induction false} PacedAfterGap(st: State, p: Provider, k: nat, i: nat, j: nat, n: nat)
    requires Gap(st, p, k, i, j, n) && Paced(st, p, k, j, n)
    ensures Paced(st, p, k, i, n)
  {
    hide Failures, Allowed;
    OneMoreMinute(st.log[i].at, st.log[j].at, st.log[n - 1].at, k);
  }

  /** Up to the first late failure after a trip there are fewer than k. */
  lemma {:induction false} FewBefore(h: Health, st: State, a: nat, b: nat, p: Provider, k: nat, i: nat, j: nat)
    requires Context(h, st, a, b, p, k) && Trip(st, a, b, p, i) && i < j <= b && Early(st, i, j, p)
    ensures Failures(st.log, i + 1, j, p) + 1 <= k
  {
    assert |UnderWay(st, i, p)| <= k;
    hide AtMost, UnderWay, Failures;
    EarlyIsInFlight(h, st, a, b, p, i, j);
    FewerThanUnderWay(h, st, i, j, p);
    hide Inv, Stretch, InFlight, Early;
  }

  lemma {:induction false} FirstMinute(h: Health, st: State, a: nat, b: nat, p: Provider, k: nat, i: nat, n: nat)
    returns (j: nat)
    requires Context(h, st, a, b, p, k) && Trip(st, a, b, p, i) && i < n <= b
    ensures i < j <= n
    ensures j < n ==> Trip(st, a, b, p, j) && Gap(st, p, k, i, j, n)
    ensures j == n ==> Paced(st, p, k, i, n)
  {
    InContext(h, st, a, b, p, k, i, n - 1);
    j := FirstLate(st, i, n, p);
    hide *;
    FewBefore(h, st, a, b, p, k, i, j);
    if j < n {
      InContext(h, st, a, b, p, k, j, n - 1);
      LateTrip(st, a, b, p, k, i, j, n);
    } else {
      QuietEnd(st, p, k, i, n);
    }
  }

  lemma {:induction false} LateTrip(st: State, a: nat, b: nat, p: Provider, k: nat, i: nat, j: nat, n: nat)
    requires Trip(st, a, b, p, i) && i < j < n <= b && IsFailure(st.log, j, p)
    requires Failures(st.log, i + 1, j, p) + 1 <= k && st.log[i].at + 60.0 <= st.log[j].at <= st.log[n - 1].at
    ensures Trip(st, a, b, p, j) && Gap(st, p, k, i, j, n)
  {
    hide Failures, TripsAt, IsFailure;
    TripAgain(st.log, a, p, i, j);
    FailuresJoin(st.log, i + 1, j, n, p);
    FailuresJoin(st.log, j, j + 1, n, p);
  }

  lemma {:induction false} QuietEnd(st: State, p: Provider, k: nat, i: nat, n: nat)
    requires i < n <= |st.log| && Failures(st.log, i + 1, n, p) + 1 <= k && st.log[i].at <= st.log[n - 1].at
    ensures Paced(st, p, k, i, n)
  {
    hide Failures, Allowed;
    MinutesPass(st.log[n - 1].at - st.log[i].at, k);
  }

  lemma {:induction false} InContext(h: Health, st: State, a: nat, b: nat, p: Provider, k: nat, i: nat, m: nat)
    requires Context(h, st, a, b, p, k) && i <= m < b
    ensures b <= |st.log| == |st.origin| && st.log[i].at <= st.log[m].at
  {
    hide AtMost;
  }

  /** From a trip on, each minute holds at most k failures. */
  lemma {:induction false} FailuresAfterTrip(h: Health, st: State, a: nat, b: nat, p: Provider, k: nat, i: nat, n: nat)
    requires Context(h, st, a, b, p, k) && Trip(st, a, b, p, i) && i < n <= b
    ensures Paced(st, p, k, i, n)
    decreases n - i
  {
    hide *;
    var j := FirstMinute(h, st, a, b, p, k, i, n);
    if j < n {
      FailuresAfterTrip(h, st, a, b, p, k, j, n);
      PacedAfterGap(st, p, k, i, j, n);
    }
  }

  /** A failure after a trip is a trip. */
  lemma {:induction false} TripAgain(log: seq<Event>, a: nat, p: Provider, i: nat, j: nat)
    requires a <= i < j < |log| && TripsAt(log, a, p, i) && IsFailure(log, j, p)
    ensures TripsAt(log, a, p, j) && Failures(log, j, j + 1, p) == 1
  {
    hide Failures;
    FailuresJoin(log, a, i + 1, j + 1, p);
    FailuresNext(log, j, j, p);
    NoFailures(log, j, p);
  }

  lemma {:induction false} ThirdFailure(log: seq<Event>, a: nat, b: nat, p: Provider) returns (i: nat)
    requires a <= b <= |log| && Failures(log, a, b, p) >= 3
    ensures a <= i < b && IsFailure(log, i, p) && Failures(log, a, i + 1, p) == 3
  {
    NoFailures(log, a, p);
    FailuresNext(log, a, b - 1, p);
    if IsFailure(log, b - 1, p) && Failures(log, a, b, p) == 3 {
      i := b - 1;
    } else {
      hide Failures;
      i := ThirdFailure(log, a, b - 1, p);
    }
  }

  /** In any stretch of a run of overlapping calls that finds the provider fresh and records no success and no rate
      limit of it, lasting at most `seconds`, with at most k tries of it under way at a time, at most
      2 + k + k * floor(seconds / 60) failures are recorded. For k == 1 that is the bound of the breaker itself. */
  lemma {:induction false} OverlappingFailureRate(h: Health, calls: seq<GatewayCall>, st: State, a: nat, b: nat,
                                                  p: Provider, k: nat, seconds: real)
    requires CallsOk(calls) && Reachable(h, calls, st) && TimesGrow(st.log) && |st.origin| == |st.log|
    requires a < b <= |st.log| && After(h, st.log[..a])[p] == FRESH && NoRecovery(st.log[a..b], p)
    requires AtMost(st, a, b, p, k) && st.log[b - 1].at - st.log[a].at <= seconds
    ensures FailureCount(st.log[a..b], p) <= 2 + k + k * (seconds / 60.0).Floor
  {
    hide Reachable, Inv, After, NoRecovery, FailureCount, TimesGrow, Stretch, AtMost;
    ReachableInv(h, calls, st);
    IsStretch(h, st.log, a, b, p);
    StretchBound(h, st, a, b, p, k, seconds);
  }

  lemma {:induction false} IsStretch(h: Health, log: seq<Event>, a: nat, b: nat, p: Provider)
    requires TimesGrow(log) && a < b <= |log| && After(h, log[..a])[p] == FRESH && NoRecovery(log[a..b], p)
    ensures Stretch(h, log, a, b, p)
  {
    hide After, TimesGrow;
    forall j | a <= j < b && log[j].provider == p ensures log[j].Call? || log[j].Failed? {
      assert log[a..b][j - a] == log[j] && log[j] in log[a..b];
    }
  }

  lemma {:induction false} StretchBound(h: Health, st: State, a: nat, b: nat, p: Provider, k: nat, seconds: real)
    requires a < b && Context(h, st, a, b, p, k) && st.log[b - 1].at - st.log[a].at <= seconds
    ensures Failures(st.log, a, b, p) <= 2 + k + Allowed(k, seconds)
  {
    InContext(h, st, a, b, p, k, a, b - 1);
    MinutesPass(seconds, k);
    if Failures(st.log, a, b, p) >= 3 {
      var i := ThirdFailure(st.log, a, b, p);
      hide Failures, Context, IsFailure, Allowed;
      InContext(h, st, a, b, p, k, a, i);
      FailuresAfterTrip(h, st, a, b, p, k, i, b);
      hide Paced;
      AfterThird(st, a, b, p, k, i, seconds);
    }
    hide Failures, Allowed;
  }

  lemma {:induction false} AfterThird(st: State, a: nat, b: nat, p: Provider, k: nat, i: nat, seconds: real)
    requires a <= i < b && Paced(st, p, k, i, b) && Failures(st.log, a, i + 1, p) == 3
    requires st.log[b - 1].at - st.log[i].at <= seconds
    ensures Failures(st.log, a, b, p) <= 2 + k + Allowed(k, seconds)
  {
    hide Failures, Allowed;
    FailuresJoin(st.log, a, i + 1, b, p);
    MinutesGrow(st.log[b - 1].at - st.log[i].at, seconds, k);
  }

  // ---------------------------------------------------------------- what is under way is in flight

  predicate Awaits(t: Task) {
    t.phase.Waiting? || t.phase.Retrying?
  }

  /** The tasks that await a reply. */
  function Awaiting(st: State): set<nat> {
    set q | 0 <= q < |st.tasks| && Awaits(st.tasks[q])
  }

  /** All that task q has done to providers from entry n on belongs to tries that it began since. */
  predicate BegunSince(st: State, q: nat, n: nat) {
    && |st.origin| == |st.log| && n <= |st.log|
    && (q < |st.tasks| && Awaits(st.tasks[q]) ==> st.tasks[q].phase.begun >= n)
    && (forall j :: n <= j < |st.log| && st.origin[j].task == q ==> st.origin[j].since >= n)
  }

  lemma {:induction false} StepBegunSince(st: State, r: nat, q: nat, n: nat)
    requires TasksOk(st) && BegunSince(st, q, n)
    ensures BegunSince(Step(st, r), q, n)
  {
    if r < |st.tasks| {
      NextShape(st.health, |st.log|, st.tasks[r]);
      hide Next, After, TaskOk;
    }
  }

  lemma {:induction false} RunBegunSince(st: State, schedule: seq<nat>, q: nat, n: nat)
    requires TasksOk(st) && BegunSince(st, q, n)
    ensures BegunSince(Run(st, schedule), q, n)
  {
    hide Step, BegunSince, TasksOk;
    if schedule != [] {
      RunBegunSince(st, schedule[..|schedule| - 1], q, n);
      StepBegunSince(Run(st, schedule[..|schedule| - 1]), schedule[|schedule| - 1], q, n);
    }
  }

  lemma {:induction false} RunExtends(st: State, schedule: seq<nat>)
    requires TasksOk(st) && |st.origin| == |st.log|
    ensures st.log <= Run(st, schedule).log && st.origin <= Run(st, schedule).origin
    ensures |Run(st, schedule).origin| == |Run(st, schedule).log|
  {
    if schedule != [] {
      RunExtends(st, schedule[..|schedule| - 1]);
      hide Next, After, TaskOk;
    }
  }

  /** The tries under way at an entry, as far as the run ever shows them, are the entry's own and those of tasks that
      await a reply when it is made. So k is the number of calls in flight at a time. */
  lemma {:induction false} UnderWayIsAwaiting(st: State, r: nat, later: seq<nat>, p: Provider)
    requires TasksOk(st) && r < |st.tasks| && |st.origin| == |st.log| && |Step(st, r).log| > |st.log|
    requires TasksOk(Step(st, r))
    ensures var end := Run(Step(st, r), later);
            |st.log| <= |end.log| == |end.origin| && UnderWay(end, |st.log|, p) <= Awaiting(st) + {r}
  {
    var i, next := |st.log|, Step(st, r);
    OneEntry(st, r);
    RunExtends(next, later);
    var end := Run(next, later);
    hide Next, Step, Run, TasksOk;
    forall x | x in UnderWay(end, i, p) ensures x in Awaiting(st) + {r} {
      if x != r && x !in Awaiting(st) {
        NotAwaiting(st, r, later, x);
      }
    }
  }

  lemma {:induction false} NotAwaiting(st: State, r: nat, later: seq<nat>, x: nat)
    requires TasksOk(st) && r < |st.tasks| && |st.origin| == |st.log| && |Step(st, r).log| > |st.log|
    requires TasksOk(Step(st, r)) && x != r && x !in Awaiting(st)
    ensures var end := Run(Step(st, r), later);
            && |st.log| <= |end.log| == |end.origin|
            && forall j :: |st.log| <= j < |end.log| && end.origin[j].task == x ==> end.origin[j].since > |st.log|
  {
    var i, next := |st.log|, Step(st, r);
    OneEntry(st, r);
    RunExtends(next, later);
    hide Next, Step, Run, TasksOk;
    assert x < |st.tasks| ==> next.tasks[x] == st.tasks[x];
    assert BegunSince(next, x, i + 1);
    RunBegunSince(next, later, x, i + 1);
    assert Run(next, later).origin[i] == next.origin[i];
  }

  lemma {:induction false} OneEntry(st: State, r: nat)
    requires TasksOk(st) && r < |st.tasks| && |st.origin| == |st.log| && |Step(st, r).log| > |st.log|
    ensures var next := Step(st, r);
            && |next.log| == |next.origin| == |st.log| + 1 && next.origin[|st.log|].task == r
            && |next.tasks| == |st.tasks| && forall q :: 0 <= q < |st.tasks| && q != r ==> next.tasks[q] == st.tasks[q]
  {
    NextShape(st.health, |st.log|, st.tasks[r]);
    hide Next, After, TaskOk;
  }
}
