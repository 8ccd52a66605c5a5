/** The watcher of ai-service/app/dev_tools/metrics_ws.py: it follows the trimmed metrics file with a timestamp
    cursor and pushes what is new to the connected clients. */
module MetricsWs {
  import opened Common
  import opened MetricsLog

  const LIMIT: nat := 200

  /** `full` and `sent` record the history: every line ever logged, every record ever broadcast. */
  datatype State = State(file: seq<Line>, full: seq<Line>, cursor: int, sent: seq<Record>)

  datatype Action =
    | Write(append: Append)
    | Poll(connected: bool)     // one turn of the watcher's loop, with or without a client

  function LatestOf(lines: seq<Line>): int {
    var last := ReadRecent(lines, 1, None);
    if last == [] then 0 else Timestamp(last[|last| - 1])
  }

  function Begin(lines: seq<Line>): State {
    State(lines, lines, LatestOf(lines), [])
  }

  function Cursor(cursor: int, news: seq<Record>): int {
    if news == [] then cursor else Timestamp(news[|news| - 1])
  }

  function Step(st: State, a: Action): State {
    match a
    case Write(append) => st.(file := Appended(st.file, append), full := Logged(st.full, append))
    case Poll(connected) =>
      if !connected then st
      else
        var news := ReadRecent(st.file, LIMIT, Some(st.cursor));
        st.(sent := st.sent + news, cursor := Cursor(st.cursor, news))
  }

  function Run(st: State, actions: seq<Action>): State {
    if actions == [] then st else Step(Run(st, actions[..|actions| - 1]), actions[|actions| - 1])
  }

  class Watcher {
    const file: MetricsFile
    var lastLlmTs: int
    var broadcasts: seq<Record>

    constructor (file: MetricsFile)
      ensures this.file == file && lastLlmTs == LatestOf(file.lines) && broadcasts == []
    {
      this.file, lastLlmTs, broadcasts := file, LatestOf(file.lines), [];
    }

    method WatchOnce(connected: bool)
      requires file.Valid() && file as object != this
      modifies this
      ensures var after := Step(State(file.lines, file.lines, old(lastLlmTs), old(broadcasts)), Poll(connected));
              lastLlmTs == after.cursor && broadcasts == after.sent
    {
      if !connected {
        return;
      }
      var news := file.ReadRecentJsonl(LIMIT, Some(lastLlmTs));
      for i := 0 to |news|
        invariant broadcasts == old(broadcasts) + news[..i] && lastLlmTs == old(lastLlmTs)
                  && file.lines == old(file.lines)
      {
        broadcasts := broadcasts + [news[i]];
      }
      assert news[..|news|] == news;
      if news != [] {
        lastLlmTs := Timestamp(news[|news| - 1]);
      }
    }
  }

  // ---------------------------------------------------------------- what is delivered

  /** Every line is a record and later ones carry strictly later, positive timestamps. */
  predicate InOrder(lines: seq<Line>) {
    && (forall i :: 0 <= i < |lines| ==> lines[i].record.Some? && TsAt(lines[i]) > 0)
    && (forall i, j :: 0 <= i < j < |lines| ==> TsAt(lines[i]) < TsAt(lines[j]))
  }

  function TsAt(line: Line): int {
    if line.record.Some? then Timestamp(line.record.value) else 0
  }

  /** The appends since the last poll with a client, and what earlier polls left behind for good. */
  datatype Tally = Tally(backlog: nat, lost: nat)

  function Counted(t: Tally, a: Action): Tally {
    match a
    case Write(append) => if append.fault == NoFault then t.(backlog := t.backlog + 1) else t
    case Poll(connected) =>
      if !connected then t else Tally(0, t.lost + if t.backlog > 200 then t.backlog - 200 else 0)
  }

  function TallyOf(actions: seq<Action>): Tally {
    if actions == [] then Tally(0, 0) else Counted(TallyOf(actions[..|actions| - 1]), actions[|actions| - 1])
  }

  lemma {:induction false} SelectedConcat(a: seq<Line>, b: seq<Line>, afterTs: Option<int>)
    ensures Selected(a + b, afterTs) == Selected(a, afterTs) + Selected(b, afterTs)
    decreases |b|
  {
    hide Picked;
    if b == [] {
      assert a + b == a;
    } else {
      assert (a + b)[..|a + b| - 1] == a + b[..|b| - 1];
      SelectedConcat(a, b[..|b| - 1], afterTs);
    }
  }

  lemma {:induction false} NoneSelected(lines: seq<Line>, cursor: int)
    requires forall i :: 0 <= i < |lines| ==> TsAt(lines[i]) <= cursor
    ensures Selected(lines, Some(cursor)) == []
  {
    if lines != [] {
      NoneSelected(lines[..|lines| - 1], cursor);
    }
  }

  lemma {:induction false} AllSelected(lines: seq<Line>, cursor: int)
    requires forall i :: 0 <= i < |lines| ==> lines[i].record.Some? && TsAt(lines[i]) > cursor
    ensures Selected(lines, Some(cursor)) == Selected(lines, None) && |Selected(lines, None)| == |lines|
    ensures lines != [] ==> Selected(lines, None)[|lines| - 1] == lines[|lines| - 1].record.value
  {
    if lines != [] {
      AllSelected(lines[..|lines| - 1], cursor);
    }
  }

  /** The first p lines are not newer than the cursor, the others are. */
  predicate Splits(lines: seq<Line>, p: nat, cursor: int) {
    && p <= |lines|
    && (forall i :: 0 <= i < p ==> TsAt(lines[i]) <= cursor)
    && (forall i :: p <= i < |lines| ==> lines[i].record.Some? && TsAt(lines[i]) > cursor)
  }

  /** The records of the lines from a up to b. */
  function Between(lines: seq<Line>, a: nat, b: nat): seq<Record>
    requires a <= b <= |lines|
  {
    Selected(lines[a..b], None)
  }

  lemma {:induction false} BetweenJoin(lines: seq<Line>, a: nat, b: nat, c: nat)
    requires a <= b <= c <= |lines|
    ensures Between(lines, a, c) == Between(lines, a, b) + Between(lines, b, c)
  {
    assert lines[a..c] == lines[a..b] + lines[b..c];
    SelectedConcat(lines[a..b], lines[b..c], None);
  }

  lemma {:induction false} BetweenAppend(lines: seq<Line>, line: Line, a: nat, b: nat)
    requires a <= b <= |lines|
    ensures Between(lines + [line], a, b) == Between(lines, a, b)
  {
    assert (lines + [line])[a..b] == lines[a..b];
  }

  lemma {:induction false} BetweenLength(lines: seq<Line>, a: nat, b: nat)
    requires a <= b <= |lines| && InOrder(lines)
    ensures |Between(lines, a, b)| == b - a
    ensures a < b ==> Between(lines, a, b)[b - a - 1] == lines[b - 1].record.value
  {
    AllSelected(lines[a..b], 0);
  }

  lemma {:induction false} BetweenTail(lines: seq<Line>, a: nat, x: nat)
    requires InOrder(lines) && a <= x <= |lines| && (|lines| - a >= LIMIT ==> x == |lines| - LIMIT)
    requires |lines| - a <= LIMIT ==> x == a
    ensures PyTail(Between(lines, a, |lines|), LIMIT) == Between(lines, x, |lines|)
  {
    BetweenJoin(lines, a, x, |lines|);
    BetweenLength(lines, a, x);
    BetweenLength(lines, x, |lines|);
    hide Between, InOrder;
  }

  /** What is newer than the cursor, in a file that has all but the first m lines. */
  lemma {:induction false} SelectedIsBetween(lines: seq<Line>, m: nat, p: nat, cursor: int)
    requires Splits(lines, p, cursor) && m <= |lines|
    ensures Selected(lines[m..], Some(cursor)) == Between(lines, Max(m, p), |lines|)
  {
    var q := Max(m, p);
    hide Selected;
    assert lines[m..] == lines[m..q] + lines[q..|lines|];
    SelectedConcat(lines[m..q], lines[q..|lines|], Some(cursor));
    NoneSelected(lines[m..q], cursor);
    AllSelected(lines[q..|lines|], cursor);
  }

  lemma {:induction false} NewerIsBetween(lines: seq<Line>, p: nat, cursor: int)
    requires Splits(lines, p, cursor)
    ensures Selected(lines, Some(cursor)) == Between(lines, p, |lines|)
  {
    SelectedIsBetween(lines, 0, p, cursor);
    assert lines[0..] == lines;
  }

  /** A poll reads exactly the last two hundred of the new records, trimmed file or not. */
  lemma {:induction false} PollReads(file: seq<Line>, full: seq<Line>, p: nat, cursor: int)
    requires IsTailOf(file, full) && InOrder(full) && Splits(full, p, cursor)
    ensures ReadRecent(file, LIMIT, Some(cursor)) == Between(full, Max(p, |full| - 200), |full|)
  {
    var m := Max(0, |full| - KEEP_LINES_ON_TRIM);
    assert Kept(file) == full[m..];
    hide IsTailOf, Kept, InOrder, Between, Selected;
    SelectedIsBetween(full, m, p, cursor);
    BetweenTail(full, Max(m, p), Max(p, |full| - LIMIT));
  }

  // ---------------------------------------------------------------- whole runs

  lemma {:induction false} PrefixInOrder(st: State, a: Action)
    requires InOrder(Step(st, a).full)
    ensures InOrder(st.full)
  {
    hide Appended, ReadRecent;
    var after := Step(st, a).full;
    assert st.full == after[..|st.full|];
  }

  /** The cursor is the timestamp of the last line seen. */
  predicate CursorAt(full: seq<Line>, p: int, cursor: int) {
    0 <= p <= |full| && cursor == if p == 0 then 0 else TsAt(full[p - 1])
  }

  lemma {:induction false} CursorSplits(full: seq<Line>, p: nat, cursor: int)
    requires InOrder(full) && CursorAt(full, p, cursor)
    ensures Splits(full, p, cursor)
  {
  }

  predicate Grew(lines: seq<Line>, full: seq<Line>) {
    lines <= full
  }

  /** The watcher after a run: it has seen all but the last `backlog` lines, and if it lost none of them it has sent
      each new record once, in order. */
  predicate Watched(st: State, lines: seq<Line>, t: Tally) {
    var p := |st.full| - t.backlog;
    && IsTailOf(st.file, st.full)
    && |lines| <= p && Grew(lines, st.full) && CursorAt(st.full, p, st.cursor)
    && |st.sent| + t.lost == p - |lines|
    && (t.lost == 0 ==> st.sent == Between(st.full, |lines|, p))
  }

  lemma {:induction false} WriteKeepsWatched(st: State, lines: seq<Line>, t: Tally, a: Action)
    requires a.Write? && Watched(st, lines, t)
    ensures Watched(Step(st, a), lines, Counted(t, a))
  {
    hide IsTailOf, Appended, Between, CursorAt, Grew;
    AppendKeepsTail(st.file, st.full, a.append);
    OneMoreLine(st.full, a.append.line, lines, |st.full| - t.backlog, st.cursor);
  }

  lemma {:induction false} OneMoreLine(full: seq<Line>, line: Line, lines: seq<Line>, p: nat, cursor: int)
    requires |lines| <= p <= |full| && Grew(lines, full) && CursorAt(full, p, cursor)
    ensures Grew(lines, full + [line]) && CursorAt(full + [line], p, cursor)
    ensures Between(full + [line], |lines|, p) == Between(full, |lines|, p)
  {
    BetweenAppend(full, line, |lines|, p);
  }

  /** A poll with a client sends all that is new, except what exceeds two hundred: of that it sends the newest. */
  lemma {:induction false} PollSends(st: State, p: nat)
    requires IsTailOf(st.file, st.full) && CursorAt(st.full, p, st.cursor) && InOrder(st.full)
    ensures var st' := Step(st, Poll(true));
            && st'.file == st.file && st'.full == st.full
            && st'.sent == st.sent + Between(st.full, Max(p, |st.full| - 200), |st.full|)
            && |st'.sent| - |st.sent| == (if |st.full| - p > 200 then 200 else |st.full| - p)
            && CursorAt(st.full, |st.full|, st'.cursor)
  {
    hide IsTailOf, Between, Splits, ReadRecent, InOrder, Appended;
    var x, n := Max(p, |st.full| - LIMIT), |st.full|;
    CursorSplits(st.full, p, st.cursor);
    PollReads(st.file, st.full, p, st.cursor);
    var news := Between(st.full, x, n);
    BetweenLength(st.full, x, n);
    assert x < n ==> news[|news| - 1] == st.full[n - 1].record.value && st.full[n - 1].record.Some? by {
      InOrderAt(st.full);
    }
  }

  lemma {:induction false} InOrderAt(lines: seq<Line>)
    requires InOrder(lines)
    ensures lines != [] ==> lines[|lines| - 1].record.Some?
  {
  }

  lemma {:induction false} PollKeepsWatched(st: State, lines: seq<Line>, t: Tally)
    requires Watched(st, lines, t) && InOrder(st.full)
    ensures Watched(Step(st, Poll(true)), lines, Counted(t, Poll(true)))
  {
    hide IsTailOf, Between, Step, InOrder, Grew, ReadRecent;
    var p := |st.full| - t.backlog;
    assert CursorAt(st.full, p, st.cursor);
    hide CursorAt;
    PollSends(st, p);
    BetweenJoin(st.full, |lines|, p, |st.full|);
  }

  lemma {:induction false} RunIsWatched(lines: seq<Line>, actions: seq<Action>)
    requires InOrder(Run(Begin(lines), actions).full)
    ensures Watched(Run(Begin(lines), actions), lines, TallyOf(actions))
  {
    if actions == [] {
      BeginIsWatched(lines);
    } else {
      var init, last := actions[..|actions| - 1], actions[|actions| - 1];
      var st := Run(Begin(lines), init);
      PrefixInOrder(st, last);
      RunIsWatched(lines, init);
      hide Run;
      if last.Write? {
        WriteKeepsWatched(st, lines, TallyOf(init), last);
      } else if last.connected {
        PollKeepsWatched(st, lines, TallyOf(init));
      }
      hide Watched, Begin, InOrder;
    }
  }

  lemma {:induction false} BeginIsWatched(lines: seq<Line>)
    requires InOrder(lines)
    ensures Watched(Begin(lines), lines, Tally(0, 0))
  {
    var m := Max(0, |lines| - KEEP_LINES_ON_TRIM);
    assert Kept(lines) == lines[m..] == lines[m..|lines|];
    assert ReadRecent(lines, 1, None) == PyTail(Between(lines, m, |lines|), 1);
    BetweenLength(lines, m, |lines|);
    assert Between(lines, |lines|, |lines|) == [];
    hide Kept, Between, Selected;
  }

  /** With strictly increasing timestamps the clients get exactly the records logged after the watcher's start,
      each once and in order, across any spells without a client and any trimming of the file, if and only if no
      poll with a client finds more than two hundred of them waiting. */
  lemma {:induction false} DeliversExactlyOnce(lines: seq<Line>, actions: seq<Action>)
    requires InOrder(Run(Begin(lines), actions).full)
    ensures var st, start := Run(Begin(lines), actions), Begin(lines).cursor;
            && |Selected(st.full, Some(st.cursor))| == TallyOf(actions).backlog
            && |st.sent| + TallyOf(actions).lost + TallyOf(actions).backlog == |Selected(st.full, Some(start))|
            && (st.sent + Selected(st.full, Some(st.cursor)) == Selected(st.full, Some(start))
                <==> TallyOf(actions).lost == 0)
  {
    var st, start, t := Run(Begin(lines), actions), Begin(lines).cursor, TallyOf(actions);
    RunIsWatched(lines, actions);
    BeginCursor(lines, st.full);
    hide Begin, Run, IsTailOf, Between;
    var p := |st.full| - t.backlog;
    CursorSplits(st.full, p, st.cursor);
    NewerIsBetween(st.full, p, st.cursor);
    NewerIsBetween(st.full, |lines|, start);
    BetweenLength(st.full, p, |st.full|);
    BetweenLength(st.full, |lines|, |st.full|);
    BetweenJoin(st.full, |lines|, p, |st.full|);
    hide Selected, InOrder, Splits;
  }

  lemma {:induction false} BeginCursor(lines: seq<Line>, full: seq<Line>)
    requires lines <= full && InOrder(full)
    ensures Splits(full, |lines|, Begin(lines).cursor)
  {
    assert InOrder(lines) by {
      assert lines == full[..|lines|];
    }
    BeginIsWatched(lines);
    CursorSplits(full, |lines|, Begin(lines).cursor);
  }

  // ---------------------------------------------------------------- more than two hundred waiting

  function LineAt(ts: int): Line {
    Line(Some(Record(Some(ts), "")), 1)
  }

  /** The records with timestamps 1 to n. */
  function Lines(n: nat): seq<Line> {
    seq(n, i requires 0 <= i < n => LineAt(i + 1))
  }

  function Writes(n: nat): seq<Action> {
    seq(n, i requires 0 <= i < n => Write(Append(LineAt(i + 1), NoFault)))
  }

  lemma {:induction false} LinesInOrder(n: nat)
    ensures InOrder(Lines(n)) && (n > 0 ==> Lines(n) == Lines(n - 1) + [LineAt(n)])
  {
  }

  lemma {:induction false} OneMoreWrite(n: nat)
    requires n > 0
    ensures |Writes(n)| == n && Writes(n)[n - 1] == Write(Append(LineAt(n), NoFault))
            && Writes(n)[..n - 1] == Writes(n - 1)
  {
  }

  lemma {:induction false} WriteStep(st: State, line: Line)
    ensures var st' := Step(st, Write(Append(line, NoFault)));
            st'.full == st.full + [line] && st'.sent == st.sent && st'.cursor == st.cursor
  {
    hide Appended;
  }

  lemma {:induction false} WritesAreLogged(n: nat)
    ensures var st := Run(Begin([]), Writes(n));
            st.full == Lines(n) && st.sent == [] && TallyOf(Writes(n)) == Tally(n, 0)
  {
    if n == 0 {
      assert Writes(0) == [] && Lines(0) == [];
    } else {
      OneMoreWrite(n);
      LinesInOrder(n);
      WritesAreLogged(n - 1);
      WriteStep(Run(Begin([]), Writes(n - 1)), LineAt(n));
      hide Writes, Lines, Begin, Step, InOrder;
    }
  }

  lemma {:induction false} OneMoreAction(st: State, actions: seq<Action>, a: Action)
    ensures Run(st, actions + [a]) == Step(Run(st, actions), a)
    ensures TallyOf(actions + [a]) == Counted(TallyOf(actions), a)
  {
    assert (actions + [a])[..|actions|] == actions;
    hide Step, Counted;
  }

  /** A run that loses records: n writes and then a poll with a client, for any n above two hundred, lose the oldest
      n - 200. With 201 writes one record is never broadcast. */
  lemma {:induction false} CrowdedPollLoses(n: nat)
    requires n > 200
    ensures var actions := Writes(n) + [Poll(true)];
            var st, start := Run(Begin([]), actions), Begin([]).cursor;
            && InOrder(st.full) && TallyOf(actions) == Tally(0, n - 200)
            && st.full == Lines(n) && st.sent == Between(Lines(n), n - 200, n)
            && st.sent + Selected(st.full, Some(st.cursor)) != Selected(st.full, Some(start))
  {
    var actions, before := Writes(n) + [Poll(true)], Run(Begin([]), Writes(n));
    WritesAreLogged(n);
    LinesInOrder(n);
    OneMoreAction(Begin([]), Writes(n), Poll(true));
    RunIsWatched([], Writes(n));
    CrowdedPoll(before, n);
    hide Run, TallyOf, Writes, InOrder, Selected, Between, Lines, Begin, Step, Watched;
    DeliversExactlyOnce([], actions);
  }

  lemma {:induction false} CrowdedPoll(st: State, n: nat)
    requires n > LIMIT && Watched(st, [], Tally(n, 0)) && InOrder(st.full) && |st.full| == n && st.sent == []
    ensures var st' := Step(st, Poll(true)); st'.full == st.full && st'.sent == Between(st.full, n - LIMIT, n)
  {
    hide InOrder, Between, IsTailOf, Selected, Step;
    PollSends(st, 0);
    assert [] + Between(st.full, n - LIMIT, n) == Between(st.full, n - LIMIT, n);
  }
}
