/** The rolling summary of ai-service/app/voice_agent/gateway_llm.py. One consolidation at a time folds a
    segment of the transcript into the summary; tasks interleave only where the code awaits. */
module GatewayLlm {
  import opened Common

  type Lines = seq<string>

  const WINDOW_LINES: nat := 10
  const CONSOLIDATION_BUFFER_LINES: nat := 6

  /** Python's `lines[a:b]` for a non-negative a and a b that may be negative. */
  function Slice(lines: Lines, a: nat, b: int): Lines {
    var from := if a <= |lines| then a else |lines|;
    var to := if b > |lines| then |lines| else if b >= 0 then b else if |lines| + b >= 0 then |lines| + b else 0;
    if from <= to then lines[from..to] else []
  }

  /** `lines[-WINDOW_LINES:]`. */
  function RecentWindow(lines: Lines): Lines {
    if |lines| <= WINDOW_LINES then lines else lines[|lines| - WINDOW_LINES..]
  }

  /** A running `_consolidate`: the `lines` it was given and the segment it is folding in. */
  datatype Consolidation = Consolidation(lines: Lines, segment: Lines)

  /** `queued` are the consolidation tasks that do not hold the lock yet, with the lines they were given;
      `folded` is the history of segments whose fold succeeded. */
  datatype State = State(summary: string, count: nat, running: Option<Consolidation>, queued: seq<Lines>,
                         folded: seq<Lines>)

  const START := State("", 0, None, [], [])

  datatype Action =
    | Schedule(lines: Lines)              // schedule_consolidation
    | TaskRuns(i: nat)                    // the i-th queued task gets the lock
    | FoldEnds(updated: Option<string>)   // the awaited model call returns, or fails with None

  function Without<T>(s: seq<T>, i: nat): seq<T>
    requires i < |s|
  {
    s[..i] + s[i + 1..]
  }

  lemma {:induction false} WithoutMembers<T>(s: seq<T>, i: nat)
    requires i < |s|
    ensures s[i] in s && forall x :: x in Without(s, i) ==> x in s
  {
  }

  function Step(s: State, a: Action): State {
    match a
    case Schedule(lines) =>
      if |lines| - s.count - WINDOW_LINES < CONSOLIDATION_BUFFER_LINES || s.running.Some? then s
      else s.(queued := s.queued + [lines])
    case TaskRuns(i) =>
      if i >= |s.queued| || s.running.Some? then s
      else
        var lines := s.queued[i];
        var segment := Slice(lines, s.count, |lines| - WINDOW_LINES);
        s.(queued := Without(s.queued, i),
           running := if segment == [] then None else Some(Consolidation(lines, segment)))
    case FoldEnds(updated) =>
      if s.running.None? then s
      else if updated.None? then s.(running := None)
      else
        var c := s.running.value;
        State(updated.value, if |c.lines| >= WINDOW_LINES then |c.lines| - WINDOW_LINES else 0, None, s.queued,
              s.folded + [c.segment])
  }

  function Run(s: State, actions: seq<Action>): State {
    if actions == [] then s else Step(Run(s, actions[..|actions| - 1]), actions[|actions| - 1])
  }

  /** The prompt of a turn: the summary, unless it is empty, and the recent window. */
  datatype Prompt = Prompt(summary: Option<string>, recent: Lines)

  function PromptFor(s: State, lines: Lines): Prompt {
    Prompt(if s.summary == "" then None else Some(s.summary), RecentWindow(lines))
  }

  class GatewayLLM {
    var rollingSummary: string
    var summarizedLineCount: nat
    var locked: bool
    var current: Consolidation      // the locals of the task that holds the lock
    var queuedTasks: seq<Lines>     // the event loop's share: tasks without the lock
    ghost var folded: seq<Lines>

    ghost function View(): State
      reads this
    {
      State(rollingSummary, summarizedLineCount, if locked then Some(current) else None, queuedTasks, folded)
    }

    /** A running task was given more than a window of lines; `schedule_consolidation` sees to it. */
    ghost predicate Valid()
      reads this
    {
      && (forall lines :: lines in queuedTasks ==> |lines| >= WINDOW_LINES + CONSOLIDATION_BUFFER_LINES)
      && (locked ==> |current.lines| >= WINDOW_LINES + CONSOLIDATION_BUFFER_LINES)
    }

    constructor ()
      ensures Valid() && View() == START
    {
      rollingSummary, summarizedLineCount := "", 0;
      locked, current, queuedTasks := false, Consolidation([], []), [];
      folded := [];
    }

    method BuildUserPrompt(lines: Lines) returns (p: Prompt)
      ensures p == PromptFor(View(), lines)
      ensures p.recent == (if |lines| > 10 then lines[|lines| - 10..] else lines)
      ensures p.summary == if rollingSummary == "" then None else Some(rollingSummary)
    {
      var recent := RecentWindow(lines);
      if rollingSummary == "" {
        return Prompt(None, recent);
      }
      return Prompt(Some(rollingSummary), recent);
    }

    method ScheduleConsolidation(lines: Lines)
      requires Valid()
      modifies this
      ensures Valid() && View() == Step(old(View()), Schedule(lines))
    {
      var pending := |lines| - summarizedLineCount - WINDOW_LINES;
      if pending < CONSOLIDATION_BUFFER_LINES || locked {
        return;
      }
      queuedTasks := queuedTasks + [lines];
    }

    /** `_consolidate` up to its await: a queued task acquires the free lock. */
    method TaskAcquiresLock(i: nat)
      requires Valid() && i < |queuedTasks| && !locked
      modifies this
      ensures Valid() && View() == Step(old(View()), TaskRuns(i))
    {
      var lines := queuedTasks[i];
      WithoutMembers(queuedTasks, i);
      hide Slice, Without;
      queuedTasks := Without(queuedTasks, i);
      var segment := Slice(lines, summarizedLineCount, |lines| - WINDOW_LINES);
      if segment == [] {
        return;
      }
      locked, current := true, Consolidation(lines, segment);
    }

    /** `_consolidate` from its await on. */
    method ModelCallReturns(updated: Option<string>)
      requires Valid() && locked
      modifies this
      ensures Valid() && View() == Step(old(View()), FoldEnds(updated))
    {
      locked := false;
      if updated.None? {
        return;
      }
      rollingSummary := updated.value;
      summarizedLineCount := |current.lines| - WINDOW_LINES;
      folded := folded + [current.segment];
    }
  }

  // ---------------------------------------------------------------- properties of every interleaving

  /** Every call hands over a prefix of one append-only transcript. */
  predicate PrefixesOf(transcript: Lines, actions: seq<Action>) {
    forall a :: a in actions && a.Schedule? ==> a.lines <= transcript
  }

  predicate Schedulable(transcript: Lines, lines: Lines) {
    lines <= transcript && |lines| >= WINDOW_LINES + CONSOLIDATION_BUFFER_LINES
  }

  predicate Summarised(transcript: Lines, s: State) {
    s.count <= |transcript| && Concat(s.folded) == transcript[..s.count]
  }

  predicate RunningOk(transcript: Lines, s: State) {
    s.running.Some? ==>
      var c := s.running.value;
      && c.lines <= transcript && s.count + WINDOW_LINES < |c.lines|
      && c.segment == transcript[s.count..|c.lines| - WINDOW_LINES]
  }

  predicate Inv(transcript: Lines, s: State) {
    && (forall lines :: lines in s.queued ==> Schedulable(transcript, lines))
    && Summarised(transcript, s)
    && RunningOk(transcript, s)
  }

  lemma {:induction false} TakingKeepsInv(transcript: Lines, s: State, i: nat)
    requires Inv(transcript, s) && i < |s.queued| && s.running.None?
    ensures Inv(transcript, Step(s, TaskRuns(i)))
  {
    var lines := s.queued[i];
    assert lines in s.queued && Schedulable(transcript, lines);
    var n := |lines| - WINDOW_LINES;
    if s.count < n {
      assert lines[s.count..n] == transcript[s.count..n];
    }
    hide Concat, Schedulable;
  }

  lemma {:induction false} FoldingKeepsInv(transcript: Lines, s: State, updated: string)
    requires Inv(transcript, s) && s.running.Some?
    ensures Inv(transcript, Step(s, FoldEnds(Some(updated))))
  {
    hide Schedulable;
    var c := s.running.value;
    ConcatAppend(s.folded, c.segment);
    hide Concat;
    assert transcript[..s.count] + c.segment == transcript[..|c.lines| - WINDOW_LINES];
  }

  lemma {:induction false} StepKeepsInv(transcript: Lines, s: State, a: Action)
    requires Inv(transcript, s) && (a.Schedule? ==> a.lines <= transcript)
    ensures Inv(transcript, Step(s, a)) && s.count <= Step(s, a).count
  {
    hide Concat;
    if a.TaskRuns? && a.i < |s.queued| && s.running.None? {
      TakingKeepsInv(transcript, s, a.i);
    } else if a.FoldEnds? && s.running.Some? && a.updated.Some? {
      FoldingKeepsInv(transcript, s, a.updated.value);
      hide Inv;
    }
  }

  lemma {:induction false} RunKeepsInv(transcript: Lines, actions: seq<Action>)
    requires PrefixesOf(transcript, actions)
    ensures Inv(transcript, Run(START, actions))
  {
    hide Step;
    if actions == [] {
      assert transcript[..0] == [];
    } else {
      var init, last := actions[..|actions| - 1], actions[|actions| - 1];
      assert last in actions;
      assert forall a :: a in init ==> a in actions;
      RunKeepsInv(transcript, init);
      StepKeepsInv(transcript, Run(START, init), last);
    }
  }

  /** Exactly-once folding: whatever the interleaving of fresh, stale and failing consolidations, the folded
      segments spell out the transcript up to the summarised count, and that count never goes down. */
  lemma {:induction false} FoldedExactlyOnce(transcript: Lines, actions: seq<Action>, n: nat)
    requires PrefixesOf(transcript, actions) && n <= |actions|
    ensures var s := Run(START, actions);
            && s.count <= |transcript| && Concat(s.folded) == transcript[..s.count]
            && Run(START, actions[..n]).count <= s.count
    decreases |actions|
  {
    RunKeepsInv(transcript, actions);
    if n == |actions| {
      assert actions[..n] == actions;
    } else {
      var init, last := actions[..|actions| - 1], actions[|actions| - 1];
      assert last in actions;
      assert forall a :: a in init ==> a in actions;
      FoldedExactlyOnce(transcript, init, n);
      assert init[..n] == actions[..n];
      RunKeepsInv(transcript, init);
      StepKeepsInv(transcript, Run(START, init), last);
    }
  }

  /** The model call never succeeds with an empty summary. */
  predicate RepliesNotEmpty(actions: seq<Action>) {
    forall a :: a in actions && a.FoldEnds? && a.updated.Some? ==> a.updated.value != ""
  }

  lemma {:induction false} SummaryIffFolded(actions: seq<Action>)
    requires RepliesNotEmpty(actions)
    ensures var s := Run(START, actions); s.summary != "" <==> s.folded != []
  {
    if actions != [] {
      var init, last := actions[..|actions| - 1], actions[|actions| - 1];
      assert last in actions;
      assert forall a :: a in init ==> a in actions;
      SummaryIffFolded(init);
    }
  }

  /** How many lines of a turn come before its last ten. */
  function BeforeWindow(lines: Lines): nat {
    if |lines| > 10 then |lines| - 10 else 0
  }

  /** The window of every prompt is the last ten lines, or all of them. */
  lemma {:induction false} WindowIsTheLastTen(s: State, lines: Lines)
    ensures var recent := PromptFor(s, lines).recent;
            && |recent| == (if |lines| > 10 then 10 else |lines|)
            && forall i :: 0 <= i < |recent| ==> recent[i] == lines[|lines| - |recent| + i]
  {
  }

  /** Right after a turn has scheduled, at most 5 of its lines are neither folded nor among its last ten, or a
      consolidation is on its way. If the model never answers with an empty summary, the turn's prompt leaves out
      exactly those: the lines its summary was made of, those in between and its last ten are the turn's transcript
      (they overlap if the summary ran ahead of this turn, and then nothing is left out). */
  lemma {:induction false} NothingFallsOutOfThePrompt(transcript: Lines, actions: seq<Action>, lines: Lines)
    requires PrefixesOf(transcript, actions) && lines <= transcript && RepliesNotEmpty(actions)
    ensures var s, w := Step(Run(START, actions), Schedule(lines)), BeforeWindow(lines);
            var p := PromptFor(s, lines);
            && (w - s.count <= 5 || s.queued != [] || s.running.Some?)
            && p.recent == lines[w..] && (p.summary.Some? ==> p.summary.value == s.summary)
            && (s.count <= w ==>
                  (if p.summary.Some? then Concat(s.folded) else []) + lines[s.count..w] + p.recent == lines)
            && (s.count > w ==> p.summary.Some? && lines[..w] <= Concat(s.folded))
  {
    var before := Run(START, actions);
    RunKeepsInv(transcript, actions);
    SummaryIffFolded(actions);
    PromptCovers(transcript, before, lines);
    assert before.folded == [] ==> Concat(before.folded) == [];
    hide Run, Concat;
    assert Step(before, Schedule(lines)).folded == before.folded && Step(before, Schedule(lines)).count == before.count;
  }

  /** A turn leads to a task exactly if at least six lines before its last ten are not folded yet and no consolidation
      is running: turns that come while one runs are not queued. */
  lemma {:induction false} ScheduledIff(s: State, lines: Lines)
    ensures var s' := Step(s, Schedule(lines));
            && s' == s.(queued := s'.queued)
            && (s'.queued == s.queued + [lines] <==> |lines| >= s.count + 16 && s.running.None?)
            && (s'.queued == s.queued <==> |lines| < s.count + 16 || s.running.Some?)
  {
    assert s.queued + [lines] != s.queued;
  }

  /** So a running consolidation finds everything it was scheduled with: however many turns pass meanwhile, the state
      stays as it is. */
  lemma {:induction false} TurnsPassARunningFold(s: State, actions: seq<Action>)
    requires s.running.Some? && forall a :: a in actions ==> a.Schedule?
    ensures Run(s, actions) == s
  {
    if actions != [] {
      var init, last := actions[..|actions| - 1], actions[|actions| - 1];
      assert last in actions && forall a :: a in init ==> a in actions;
      TurnsPassARunningFold(s, init);
    }
  }

  /** In every run the first consolidation folds six lines or more. */
  lemma {:induction false} FirstFoldIsLarge(transcript: Lines, actions: seq<Action>)
    requires PrefixesOf(transcript, actions)
    ensures var s := Run(START, actions); s.folded == [] && s.running.Some? ==> |s.running.value.segment| >= 6
  {
    RunningIsLarge(transcript, actions);
    RunKeepsInv(transcript, actions);
    hide Run;
  }

  lemma {:induction false} RunningIsLarge(transcript: Lines, actions: seq<Action>)
    requires PrefixesOf(transcript, actions)
    ensures var s := Run(START, actions);
            && (s.running.Some? ==> |s.running.value.lines| >= 16)
            && (s.folded == [] ==> s.count == 0)
  {
    if actions != [] {
      var init, last := actions[..|actions| - 1], actions[|actions| - 1];
      assert last in actions && forall a :: a in init ==> a in actions;
      RunningIsLarge(transcript, init);
      RunKeepsInv(transcript, init);
      var s := Run(START, init);
      if last.TaskRuns? && last.i < |s.queued| {
        assert s.queued[last.i] in s.queued;
      }
      hide Slice, Without, Concat;
    }
  }

  /** The last answer of the model that a run received, whether empty or not. */
  function LastAnswer(actions: seq<Action>): string {
    if actions == [] then ""
    else
      var init, last := actions[..|actions| - 1], actions[|actions| - 1];
      if last.FoldEnds? && last.updated.Some? && Run(START, init).running.Some? then last.updated.value
      else LastAnswer(init)
  }

  /** In every run the summary of a prompt is the model's last answer; a failed call leaves it as it was. */
  lemma {:induction false} SummaryIsLastAnswer(actions: seq<Action>, lines: Lines)
    ensures PromptFor(Run(START, actions), lines).summary
         == if LastAnswer(actions) == "" then None else Some(LastAnswer(actions))
  {
    if actions != [] {
      SummaryIsLastAnswer(actions[..|actions| - 1], lines);
    }
  }

  /** An empty answer takes everything folded so far out of the prompt. */
  lemma {:induction false} EmptyAnswerDropsTheFolded(s: State, lines: Lines)
    requires s.running.Some?
    ensures var s' := Step(s, FoldEnds(Some("")));
            PromptFor(s', lines).summary.None? && s'.folded == s.folded + [s.running.value.segment]
  {
  }

  lemma {:induction false} PromptCovers(transcript: Lines, s: State, lines: Lines)
    requires Summarised(transcript, s) && lines <= transcript
    ensures var w := BeforeWindow(lines);
            && RecentWindow(lines) == lines[w..]
            && (s.count <= w ==> Concat(s.folded) + lines[s.count..w] + RecentWindow(lines) == lines)
            && (s.count > w ==> lines[..w] <= Concat(s.folded))
  {
    hide Concat;
    var w := BeforeWindow(lines);
    if s.count <= w {
      assert transcript[..s.count] == lines[..s.count];
    } else {
      assert transcript[..s.count][..w] == lines[..w];
    }
  }
}
