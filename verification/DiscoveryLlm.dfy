/** The extraction drain loop of ai-service/app/voice_agent/discovery_llm.py. Tasks of one event loop
    interleave only where the code awaits, so each method below is one stretch between two awaits. */
module DiscoveryLlm {
  import opened Common
  import opened DiscoveryFields

  type Lines = seq<string>

  /** `inFlight` is the snapshot being extracted; its task holds the lock. `queued` counts drain tasks that
      were created but do not hold the lock yet. The last three fields are the history of the call. */
  datatype State = State(
    fields: Fields, pending: Option<Lines>, lastProcessed: Option<Lines>,
    inFlight: Option<Lines>, queued: nat,
    accepted: seq<Lines>, started: seq<Lines>, results: seq<Option<Fields>>)

  const START := State(EMPTY, None, None, None, 0, [], [], [])

  datatype Action =
    | Schedule(lines: Lines)                       // schedule_extraction
    | TaskRuns                                     // a queued drain task gets the lock
    | ExtractionEnds(result: Option<Fields>)       // the awaited extraction returns, or fails with None

  /** The loop condition of `_drain_extractions`. */
  predicate NeedsWork(s: State) {
    s.pending.Some? && s.pending != s.lastProcessed
  }

  function Begin(s: State): State
    requires s.pending.Some?
  {
    s.(inFlight := s.pending, started := s.started + [s.pending.value])
  }

  /** What an action does; one that is not possible now does nothing. */
  function Step(s: State, a: Action): State {
    match a
    case Schedule(lines) =>
      if lines == [] || Some(lines) == s.lastProcessed then s
      else s.(pending := Some(lines), accepted := s.accepted + [lines],
              queued := if s.inFlight.Some? then s.queued else s.queued + 1)
    case TaskRuns =>
      if s.queued == 0 || s.inFlight.Some? then s
      else
        var s' := s.(queued := s.queued - 1);
        if NeedsWork(s') then Begin(s') else s'
    case ExtractionEnds(result) =>
      if s.inFlight.None? then s
      else
        var s' := s.(fields := if result.Some? then Merged(s.fields, result.value) else s.fields,
                     lastProcessed := s.inFlight, inFlight := None, results := s.results + [result]);
        if NeedsWork(s') then Begin(s') else s'
  }

  function Run(s: State, actions: seq<Action>): State {
    if actions == [] then s else Step(Run(s, actions[..|actions| - 1]), actions[|actions| - 1])
  }

  class DiscoveryLLM {
    var state: Fields
    var locked: bool
    var pendingLines: Option<Lines>
    var lastProcessedLines: Option<Lines>
    var snapshot: Lines         // the drain task's local `lines`
    var queuedTasks: nat        // the event loop's share: drain tasks without the lock
    ghost var accepted: seq<Lines>
    ghost var started: seq<Lines>
    ghost var results: seq<Option<Fields>>

    ghost function View(): State
      reads this
    {
      State(state, pendingLines, lastProcessedLines, if locked then Some(snapshot) else None, queuedTasks,
            accepted, started, results)
    }

    constructor ()
      ensures View() == START
    {
      state := EMPTY;
      locked, queuedTasks := false, 0;
      pendingLines, lastProcessedLines, snapshot := None, None, [];
      accepted, started, results := [], [], [];
    }

    method ScheduleExtraction(lines: Lines)
      modifies this
      ensures View() == Step(old(View()), Schedule(lines))
    {
      if lines == [] || Some(lines) == lastProcessedLines {
        return;
      }
      pendingLines := Some(lines);
      accepted := accepted + [lines];
      if !locked {
        queuedTasks := queuedTasks + 1;
      }
    }

    /** The top of the loop in `_drain_extractions`: take a snapshot and await, or leave and unlock. */
    method DrainTurn()
      requires locked
      modifies this
      ensures var s := old(View()).(inFlight := None);
              View() == if NeedsWork(s) then Begin(s) else s
    {
      if pendingLines.Some? && pendingLines != lastProcessedLines {
        snapshot := pendingLines.value;
        started := started + [snapshot];
      } else {
        locked := false;
      }
    }

    /** A queued task acquires the free lock and enters the loop. */
    method TaskAcquiresLock()
      requires queuedTasks > 0 && !locked
      modifies this
      ensures View() == Step(old(View()), TaskRuns)
    {
      queuedTasks := queuedTasks - 1;
      locked := true;
      DrainTurn();
    }

    /** `_extract` returns, the snapshot becomes the last processed transcript, and the loop goes round. */
    method ExtractionReturns(updated: Option<Fields>)
      requires locked
      modifies this
      ensures View() == Step(old(View()), ExtractionEnds(updated))
    {
      if updated.Some? {
        state := Merge(state, updated.value);
      }
      results := results + [updated];
      lastProcessedLines := Some(snapshot);
      DrainTurn();
    }
  }

  // ---------------------------------------------------------------- properties of every interleaving

  /** The newest transcript is neither processed nor being processed. */
  predicate Due(s: State) {
    s.pending.Some? && s.pending != if s.inFlight.Some? then s.inFlight else s.lastProcessed
  }

  /** `a` is `b` with some elements left out, the order kept. */
  predicate Embeds(a: seq<Lines>, b: seq<Lines>)
    decreases |b|
  {
    a == [] ||
    (b != [] && ((a[|a| - 1] == b[|b| - 1] && Embeds(a[..|a| - 1], b[..|b| - 1])) || Embeds(a, b[..|b| - 1])))
  }

  lemma {:induction false} EmbedsMore(a: seq<Lines>, b: seq<Lines>, x: Lines)
    requires Embeds(a, b)
    ensures Embeds(a, b + [x]) && Embeds(a + [x], b + [x])
  {
    assert (b + [x])[..|b + [x]| - 1] == b;
    assert (a + [x])[..|a + [x]| - 1] == a;
  }

  predicate Inv(s: State) {
    // no lost wake-up
    && (Due(s) ==> s.inFlight.Some? || s.queued > 0)
    // each accepted transcript pays for at most one extraction
    && |s.started| + (if Due(s) then 1 else 0) <= |s.accepted|
    // one extraction at a time, each with one result
    && |s.started| == |s.results| + (if s.inFlight.Some? then 1 else 0)
    && (s.inFlight.Some? ==> s.inFlight == Some(s.started[|s.started| - 1]))
    && s.lastProcessed == (if s.results == [] then None else Some(s.started[|s.results| - 1]))
    && s.pending == (if s.accepted == [] then None else Some(s.accepted[|s.accepted| - 1]))
    && s.fields == Fold(EMPTY, s.results)
  }

  /** What has been started is the accepted transcripts, some skipped, in order. */
  predicate InOrder(s: State) {
    if Due(s) then s.accepted != [] && Embeds(s.started, s.accepted[..|s.accepted| - 1])
    else Embeds(s.started, s.accepted)
  }

  lemma {:induction false} StepKeepsInv(s: State, a: Action)
    requires Inv(s)
    ensures Inv(Step(s, a))
  {
    hide Merged;
    if a.ExtractionEnds? {
      assert (s.results + [a.result])[..|s.results|] == s.results;
    }
  }

  lemma {:induction false} StepKeepsOrder(s: State, a: Action)
    requires Inv(s) && InOrder(s)
    ensures InOrder(Step(s, a))
  {
    hide Merged, Fold;
    var s' := Step(s, a);
    if s.accepted != [] {
      var init, last := s.accepted[..|s.accepted| - 1], s.accepted[|s.accepted| - 1];
      assert s.accepted == init + [last];
      if Due(s) {
        EmbedsMore(s.started, init, last);
      }
    }
    if a.Schedule? {
      EmbedsMore(s.started, s.accepted, a.lines);
      assert (s.accepted + [a.lines])[..|s.accepted|] == s.accepted;
    }
  }

  lemma {:induction false} RunKeepsInv(actions: seq<Action>)
    ensures Inv(Run(START, actions)) && InOrder(Run(START, actions))
  {
    hide Step;
    if actions != [] {
      RunKeepsInv(actions[..|actions| - 1]);
      StepKeepsInv(Run(START, actions[..|actions| - 1]), actions[|actions| - 1]);
      StepKeepsOrder(Run(START, actions[..|actions| - 1]), actions[|actions| - 1]);
    }
  }

  lemma {:induction false} StartedInOrder(s: State)
    requires InOrder(s)
    ensures Embeds(s.started, s.accepted)
  {
    hide Due;
  }

  lemma {:induction false} FieldsHoldLastValues(s: State)
    requires Inv(s)
    ensures forall f: FieldName :: s.fields[f] == LastValue(s.results, f)
  {
    assert s.fields == Fold(EMPTY, s.results);
    hide Inv, Fold, LastValue;
    forall f: FieldName ensures s.fields[f] == LastValue(s.results, f) {
      FoldKeepsLastValues(EMPTY, s.results, f);
    }
  }

  /** In every interleaving: no wake-up is lost; extractions never outnumber the accepted calls and run on
      accepted transcripts in their order; once nothing is queued or running, the last accepted transcript
      is the last one that was extracted; and each field holds the last value any extraction returned for it. */
  lemma {:induction false} DrainLoopIsReliable(actions: seq<Action>)
    ensures var s := Run(START, actions);
            && (s.pending.None? || s.pending == s.lastProcessed || s.queued > 0 || s.inFlight.Some?)
            && |s.started| <= |s.accepted| && Embeds(s.started, s.accepted)
            && (s.queued == 0 && s.inFlight.None? && s.accepted != [] ==>
                  && s.lastProcessed == Some(s.accepted[|s.accepted| - 1]) && |s.results| == |s.started| > 0
                  && s.started[|s.started| - 1] == s.accepted[|s.accepted| - 1])
            && (forall f: FieldName :: s.fields[f] == LastValue(s.results, f))
  {
    RunKeepsInv(actions);
    hide Run, Embeds, Fold, LastValue, InOrder;
    StartedInOrder(Run(START, actions));
    FieldsHoldLastValues(Run(START, actions));
  }

  predicate NoSchedule(actions: seq<Action>) {
    forall a :: a in actions ==> !a.Schedule?
  }

  /** Once scheduling stops, at most one further extraction starts, and none if nothing is due. */
  lemma {:induction false} AtMostOneMoreExtraction(s: State, actions: seq<Action>)
    requires NoSchedule(actions)
    ensures var s' := Run(s, actions);
            |s'.started| + (if Due(s') then 1 else 0) <= |s.started| + (if Due(s) then 1 else 0)
  {
    hide Merged;
    if actions != [] {
      var init, last := actions[..|actions| - 1], actions[|actions| - 1];
      assert last in actions;
      assert forall a :: a in init ==> a in actions;
      AtMostOneMoreExtraction(s, init);
    }
  }

  predicate Possible(s: State, a: Action) {
    match a
    case Schedule(_) => true
    case TaskRuns => s.queued > 0 && s.inFlight.None?
    case ExtractionEnds(_) => s.inFlight.Some?
  }

  /** Tasks left over once scheduling stops: every possible step uses some of this up. */
  function WorkLeft(s: State): nat {
    s.queued + (if Due(s) then 2 else 0) + (if s.inFlight.Some? then 1 else 0)
  }

  /** So the loop comes to rest: without new calls only finitely many steps are possible, and when none is
      the last accepted transcript has been processed. */
  lemma {:induction false} DrainTerminates(s: State, a: Action)
    requires Inv(s)
    ensures !a.Schedule? && Possible(s, a) ==> WorkLeft(Step(s, a)) < WorkLeft(s)
    ensures (forall b: Action :: !b.Schedule? ==> !Possible(s, b)) ==>
              !NeedsWork(s) && (s.accepted != [] ==> s.lastProcessed == Some(s.accepted[|s.accepted| - 1]))
  {
    hide Merged, Fold;
    assert Possible(s, TaskRuns) || Possible(s, ExtractionEnds(None)) || (s.queued == 0 && s.inFlight.None?);
  }

  predicate NoRepeats(started: seq<Lines>) {
    forall k :: 0 <= k < |started| - 1 ==> started[k] != started[k + 1]
  }

  lemma {:induction false} StepKeepsNoRepeats(s: State, a: Action)
    requires Inv(s) && NoRepeats(s.started)
    ensures NoRepeats(Step(s, a).started)
  {
    hide Merged, Fold, Due;
  }

  /** In every interleaving no transcript is extracted twice in a row, whether its extraction failed or not. */
  lemma {:induction false} NeverTwiceInARow(actions: seq<Action>, k: nat)
    requires k + 1 < |Run(START, actions).started|
    ensures Run(START, actions).started[k] != Run(START, actions).started[k + 1]
  {
    RunHasNoRepeats(actions);
    hide Run;
  }

  lemma {:induction false} RunHasNoRepeats(actions: seq<Action>)
    ensures NoRepeats(Run(START, actions).started)
  {
    hide Step, NoRepeats;
    if actions == [] {
      assert NoRepeats(START.started) by { NothingRepeats(); }
    } else {
      var init, last := actions[..|actions| - 1], actions[|actions| - 1];
      RunHasNoRepeats(init);
      RunKeepsInv(init);
      StepKeepsNoRepeats(Run(START, init), last);
    }
  }

  lemma {:induction false} NothingRepeats()
    ensures NoRepeats([])
  {
  }

  predicate AtRest(s: State) {
    s.queued == 0 && s.inFlight.None?
  }

  /** A failed extraction counts as processed, although the code's comment expects the next call to try again. In every
      run that has come to rest after a failure: the failed transcript is the last one accepted, scheduling it again
      does nothing, and scheduling leads to an extraction if and only if it brings a different, non-empty transcript. */
  lemma {:induction false} FailedTranscriptIsNotRetried(actions: seq<Action>, next: Lines)
    requires var s := Run(START, actions); AtRest(s) && s.results != [] && s.results[|s.results| - 1] == None
    ensures var s := Run(START, actions);
            && s.started != [] && s.accepted != []
            && var failed := s.started[|s.started| - 1];
            var scheduled := Step(s, Schedule(next));
            && failed == s.accepted[|s.accepted| - 1]
            && (AtRest(scheduled) <==> next == [] || next == failed)
            && (AtRest(scheduled) ==> scheduled == s)
            && (!AtRest(scheduled) ==> Step(scheduled, TaskRuns).started == s.started + [next])
  {
    RunKeepsInv(actions);
    hide Run, Merged, Fold, InOrder;
  }

  /** Such a run: one transcript, whose extraction fails. */
  lemma {:induction false} OneFailure(lines: Lines)
    requires lines != []
    ensures var s := Run(START, [Schedule(lines), TaskRuns, ExtractionEnds(None)]);
            AtRest(s) && s.results == [None] && s.started == [lines] && Step(s, Schedule(lines)) == s
  {
    var actions := [Schedule(lines), TaskRuns, ExtractionEnds(None)];
    assert actions[..2] == [Schedule(lines), TaskRuns] && actions[..2][..1] == [Schedule(lines)]
           && actions[..1][..0] == [];
    assert Run(START, []) == START;
    assert Run(START, [Schedule(lines)]) == Step(START, Schedule(lines));
    assert Run(START, [Schedule(lines), TaskRuns]) == Step(Step(START, Schedule(lines)), TaskRuns);
  }

  /** The calls made while an extraction runs. */
  predicate OnlySchedules(actions: seq<Action>) {
    forall a :: a in actions ==> a.Schedule?
  }

  /** However many turns are scheduled while an extraction runs, no task is created for them and the extraction goes on;
      what is left of them is the newest one that is not empty and not the last one processed. */
  lemma {:induction false} SlowExtractionPilesUpNothing(s: State, actions: seq<Action>)
    requires s.inFlight.Some? && OnlySchedules(actions)
    ensures var s' := Run(s, actions);
            && s' == s.(pending := s'.pending, accepted := s'.accepted)
            && s.accepted <= s'.accepted && |s'.accepted| <= |s.accepted| + |actions|
            && s'.pending == (if s'.accepted == s.accepted then s.pending else Some(s'.accepted[|s'.accepted| - 1]))
            && forall k :: |s.accepted| <= k < |s'.accepted| ==>
                 s'.accepted[k] != [] && Some(s'.accepted[k]) != s.lastProcessed
  {
    hide Merged;
    if actions != [] {
      var init, last := actions[..|actions| - 1], actions[|actions| - 1];
      assert last in actions && forall a :: a in init ==> a in actions;
      SlowExtractionPilesUpNothing(s, init);
    }
  }

  /** Every call that is accepted while no extraction runs gets a task of its own, and no other call gets one. */
  lemma {:induction false} TaskPerIdleCall(s: State, lines: Lines)
    ensures var s' := Step(s, Schedule(lines));
            var news := lines != [] && s.lastProcessed != Some(lines);
            && s'.queued == s.queued + (if news && s.inFlight.None? then 1 else 0)
            && s'.accepted == s.accepted + (if news then [lines] else [])
            && s'.pending == (if news then Some(lines) else s.pending)
  {
    assert s.accepted + [] == s.accepted;
  }

  /** Whatever an extraction returns: the fields it says something about take its values, its own transcript becomes the
      last one processed, and the next extraction starts at once if and only if a different transcript is the newest. */
  lemma {:induction false} NewestIsNext(actions: seq<Action>, result: Option<Fields>)
    requires Run(START, actions).inFlight.Some?
    ensures var s := Run(START, actions);
            var after := Step(s, ExtractionEnds(result));
            && s.accepted != []
            && var newest := s.accepted[|s.accepted| - 1];
            && (forall f: FieldName ::
                  after.fields[f] == if result.Some? && result.value[f].Some? then result.value[f] else s.fields[f])
            && after.lastProcessed == s.inFlight && after.results == s.results + [result] && after.queued == s.queued
            && (after.inFlight.Some? <==> s.inFlight != Some(newest))
            && (after.inFlight.Some? ==> after.started == s.started + [newest] && after.inFlight == Some(newest))
            && (after.inFlight.None? ==> after.started == s.started)
  {
    RunKeepsInv(actions);
    hide Run, Fold, InOrder;
  }

  /** If a newer transcript was accepted while an extraction was failing, that one is extracted at once; if not, the
      loop leaves. Either way the fields stay as they were. */
  lemma {:induction false} FailureMovesOnIff(actions: seq<Action>)
    requires Run(START, actions).inFlight.Some?
    ensures var s := Run(START, actions);
            var after := Step(s, ExtractionEnds(None));
            && s.accepted != []
            && var newest := s.accepted[|s.accepted| - 1];
            && after.fields == s.fields
            && (after.inFlight.Some? <==> s.inFlight != Some(newest))
            && (after.inFlight.Some? ==> after.started == s.started + [newest] && after.inFlight == Some(newest))
  {
    RunKeepsInv(actions);
    hide Run, Merged, Fold, InOrder;
  }
}
