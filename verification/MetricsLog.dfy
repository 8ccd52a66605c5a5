/** The trimmed metrics file of ai-service/app/model_gateway/metrics_log.py against a log that is never trimmed. */
module MetricsLog {
  import opened Common

  const MAX_BYTES_BEFORE_TRIM: nat := 2_000_000
  const KEEP_LINES_ON_TRIM: nat := 1000

  datatype Record = Record(ts: Option<int>, body: string)

  /** One line with its size in bytes; a line that does not decode has no record. */
  datatype Line = Line(record: Option<Record>, bytes: nat)

  /** Where an append can meet an OSError, which is swallowed. */
  datatype Fault = NoFault | BeforeTrim | AfterTrim

  datatype Append = Append(line: Line, fault: Fault)

  function Size(lines: seq<Line>): nat {
    if lines == [] then 0 else Size(lines[..|lines| - 1]) + lines[|lines| - 1].bytes
  }

  /** Python's `s[-n:]`: everything for n == 0, and without the first -n for a negative n. */
  function PyTail<T>(s: seq<T>, n: int): seq<T> {
    if n > 0 then (if n >= |s| then s else s[|s| - n..])
    else if -n >= |s| then [] else s[-n..]
  }

  function Kept(lines: seq<Line>): seq<Line> {
    PyTail(lines, KEEP_LINES_ON_TRIM)
  }

  /** What an append leaves; a missing file has no lines. */
  function Appended(lines: seq<Line>, a: Append): seq<Line> {
    if a.fault == BeforeTrim then lines
    else
      var trimmed := if Size(lines) > MAX_BYTES_BEFORE_TRIM then Kept(lines) else lines;
      if a.fault == AfterTrim then trimmed else trimmed + [a.line]
  }

  /** The same append to a log that is never trimmed. */
  function Logged(lines: seq<Line>, a: Append): seq<Line> {
    if a.fault == NoFault then lines + [a.line] else lines
  }

  function Timestamp(r: Record): int {
    if r.ts.Some? then r.ts.value else 0
  }

  predicate Wanted(line: Line, afterTs: Option<int>) {
    line.record.Some? && (afterTs.Some? ==> Timestamp(line.record.value) > afterTs.value)
  }

  function Picked(line: Line, afterTs: Option<int>): seq<Record> {
    if Wanted(line, afterTs) then [line.record.value] else []
  }

  /** The decodable records newer than the cursor, in file order. */
  function Selected(lines: seq<Line>, afterTs: Option<int>): seq<Record> {
    if lines == [] then [] else Selected(lines[..|lines| - 1], afterTs) + Picked(lines[|lines| - 1], afterTs)
  }

  function ReadRecent(lines: seq<Line>, limit: int, afterTs: Option<int>): seq<Record> {
    PyTail(Selected(Kept(lines), afterTs), limit)
  }

  class MetricsFile {
    var present: bool
    var lines: seq<Line>

    constructor ()
      ensures !present && Valid() && lines == []
    {
      present, lines := false, [];
    }

    ghost predicate Valid()
      reads this
    {
      !present ==> lines == []
    }

    method AppendJsonl(line: Line, fault: Fault)
      requires Valid()
      modifies this
      ensures Valid() && lines == Appended(old(lines), Append(line, fault))
    {
      if fault == BeforeTrim {
        return;
      }
      if present && Size(lines) > MAX_BYTES_BEFORE_TRIM {
        lines := Kept(lines);
      }
      if fault == AfterTrim {
        return;
      }
      present, lines := true, lines + [line];
    }

    method ReadRecentJsonl(limit: int, afterTs: Option<int>) returns (records: seq<Record>)
      requires Valid()
      ensures records == ReadRecent(lines, limit, afterTs)
    {
      if !present {
        return [];
      }
      var recent := Kept(lines);
      records := [];
      for i := 0 to |recent|
        invariant records == Selected(recent[..i], afterTs)
      {
        var line := recent[i];
        assert recent[..i + 1][..i] == recent[..i];
        if line.record.None? {
          continue;
        }
        if afterTs.Some? && Timestamp(line.record.value) <= afterTs.value {
          continue;
        }
        records := records + [line.record.value];
      }
      assert recent[..|recent|] == recent;
      records := PyTail(records, limit);
    }

    /** The watcher's first cursor; None is the KeyError for a record without a timestamp. */
    method LatestTs() returns (ts: Option<int>)
      requires Valid()
      ensures var last := ReadRecent(lines, 1, None);
              ts == if last == [] then Some(0) else last[|last| - 1].ts
    {
      var records := ReadRecentJsonl(1, None);
      ts := if records == [] then Some(0) else records[|records| - 1].ts;
    }
  }

  // ---------------------------------------------------------------- trimming is not observable

  function File(lines: seq<Line>, appends: seq<Append>): seq<Line> {
    if appends == [] then lines else Appended(File(lines, appends[..|appends| - 1]), appends[|appends| - 1])
  }

  function FullLog(lines: seq<Line>, appends: seq<Append>): seq<Line> {
    if appends == [] then lines else Logged(FullLog(lines, appends[..|appends| - 1]), appends[|appends| - 1])
  }

  /** The file is the full log without its first k lines, and if any line is missing a thousand are there. */
  predicate IsTailOf(file: seq<Line>, full: seq<Line>) {
    && |file| <= |full| && file == full[|full| - |file|..]
    && (|file| == |full| || |file| >= 1000)
  }

  lemma {:induction false} KeptIsTail(file: seq<Line>, full: seq<Line>)
    requires IsTailOf(file, full)
    ensures IsTailOf(Kept(file), full)
  {
    if |file| > KEEP_LINES_ON_TRIM {
      var k := |file| - KEEP_LINES_ON_TRIM;
      assert full[|full| - |file|..][k..] == full[|full| - KEEP_LINES_ON_TRIM..];
    }
  }

  lemma {:induction false} BothAppend(file: seq<Line>, full: seq<Line>, line: Line)
    requires IsTailOf(file, full)
    ensures IsTailOf(file + [line], full + [line])
  {
    assert (full + [line])[|full| - |file|..] == full[|full| - |file|..] + [line];
  }

  lemma {:induction false} AppendKeepsTail(file: seq<Line>, full: seq<Line>, a: Append)
    requires IsTailOf(file, full)
    ensures IsTailOf(Appended(file, a), Logged(full, a))
  {
    hide Size, Kept, IsTailOf;
    KeptIsTail(file, full);
    BothAppend(file, full, a.line);
    BothAppend(Kept(file), full, a.line);
  }

  /** Whatever appends happen and fail, the file is a suffix of the full log with at least its last
      min(1000, n) lines. */
  lemma {:induction false} FileIsTail(lines: seq<Line>, appends: seq<Append>)
    ensures IsTailOf(File(lines, appends), FullLog(lines, appends))
  {
    if appends != [] {
      FileIsTail(lines, appends[..|appends| - 1]);
      AppendKeepsTail(File(lines, appends[..|appends| - 1]), FullLog(lines, appends[..|appends| - 1]),
                      appends[|appends| - 1]);
      hide IsTailOf, Appended, Logged;
    }
  }

  /** No reader can tell the trimmed file from the full log, whatever its limit and cursor. */
  lemma {:induction false} TrimIsInvisible(lines: seq<Line>, appends: seq<Append>, limit: int, afterTs: Option<int>)
    ensures ReadRecent(File(lines, appends), limit, afterTs) == ReadRecent(FullLog(lines, appends), limit, afterTs)
  {
    FileIsTail(lines, appends);
    var file, full := File(lines, appends), FullLog(lines, appends);
    hide File, FullLog, Selected;
    assert Kept(file) == Kept(full);
  }

  /** An append that meets no fault loses no line if and only if the file has at most 2,000,000 bytes or at most a
      thousand lines; otherwise exactly its last thousand stay, before the new one. */
  lemma {:induction false} TrimsIff(lines: seq<Line>, line: Line)
    ensures var after := Appended(lines, Append(line, NoFault));
            && (after == lines + [line] <==> Size(lines) <= 2_000_000 || |lines| <= 1000)
            && (after != lines + [line] ==> after == lines[|lines| - 1000..] + [line])
  {
    hide Size;
    assert |lines| > 1000 ==> |lines[|lines| - 1000..] + [line]| == 1001;
  }

  // ---------------------------------------------------------------- what a reader gets

  /** Line i has a record, and it is newer than the cursor if there is one; a record without a timestamp counts as 0. */
  predicate IsNews(line: Line, afterTs: Option<int>) {
    && line.record.Some?
    && (afterTs.None? || (if line.record.value.ts.Some? then line.record.value.ts.value else 0) > afterTs.value)
  }

  /** `at` are the places of the news among the lines, in order. */
  ghost predicate NewsAt(lines: seq<Line>, afterTs: Option<int>, at: seq<nat>) {
    && (forall j, k :: 0 <= j < k < |at| ==> at[j] < at[k])
    && (forall i :: i in at <==> 0 <= i < |lines| && IsNews(lines[i], afterTs))
  }

  /** The records are those of the lines at these places. */
  ghost predicate RecordsAt(lines: seq<Line>, at: seq<nat>, records: seq<Record>) {
    |records| == |at| && forall k :: 0 <= k < |at| ==> at[k] < |lines| && lines[at[k]].record == Some(records[k])
  }

  lemma {:induction false} NewsAtAppend(lines: seq<Line>, line: Line, afterTs: Option<int>, at: seq<nat>)
    requires NewsAt(lines, afterTs, at)
    ensures NewsAt(lines + [line], afterTs, if IsNews(line, afterTs) then at + [|lines|] else at)
  {
    hide IsNews;
    assert forall k :: 0 <= k < |at| ==> at[k] in at;
    assert forall i: nat :: i < |lines| ==> (lines + [line])[i] == lines[i];
    assert forall i :: i in at + [|lines|] <==> i in at || i == |lines|;
  }

  lemma {:induction false} RecordsAtAppend(lines: seq<Line>, line: Line, at: seq<nat>, records: seq<Record>)
    requires RecordsAt(lines, at, records)
    ensures RecordsAt(lines + [line], at, records)
    ensures line.record.Some? ==> RecordsAt(lines + [line], at + [|lines|], records + [line.record.value])
  {
    assert forall i: nat :: i < |lines| ==> (lines + [line])[i] == lines[i];
  }

  lemma {:induction false} PickedIsNews(line: Line, afterTs: Option<int>)
    ensures Picked(line, afterTs) == if IsNews(line, afterTs) then [line.record.value] else []
  {
  }

  lemma {:induction false} NoNews(afterTs: Option<int>)
    ensures NewsAt([], afterTs, []) && RecordsAt([], [], Selected([], afterTs))
  {
  }

  lemma {:induction false} SelectedAreNews(lines: seq<Line>, afterTs: Option<int>) returns (at: seq<nat>)
    ensures NewsAt(lines, afterTs, at) && RecordsAt(lines, at, Selected(lines, afterTs))
  {
    NoNews(afterTs);
    if lines == [] {
      at := [];
      hide *;
    } else {
      var init, last := lines[..|lines| - 1], lines[|lines| - 1];
      assert lines == init + [last];
      assert Selected(lines, afterTs) == Selected(init, afterTs) + Picked(last, afterTs);
      PickedIsNews(last, afterTs);
      assert IsNews(last, afterTs) ==> last.record.Some?;
      hide *;
      var before := SelectedAreNews(init, afterTs);
      NewsAtAppend(init, last, afterTs, before);
      RecordsAtAppend(init, last, before, Selected(init, afterTs));
      at := if IsNews(last, afterTs) then before + [|init|] else before;
    }
  }

  /** What reading gives for a positive limit: of the file's last thousand lines the decodable ones newer than the
      cursor, the last `limit` of them, in file order. */
  lemma {:induction false} ReadsTheLastNews(lines: seq<Line>, limit: nat, afterTs: Option<int>) returns (at: seq<nat>)
    requires limit > 0
    ensures var recent := if |lines| > 1000 then lines[|lines| - 1000..] else lines;
            && NewsAt(recent, afterTs, at)
            && RecordsAt(recent, if |at| > limit then at[|at| - limit..] else at, ReadRecent(lines, limit, afterTs))
  {
    at := SelectedAreNews(Kept(lines), afterTs);
    assert Kept(lines) == if |lines| > 1000 then lines[|lines| - 1000..] else lines;
    hide Selected, NewsAt, Kept;
  }

  // ---------------------------------------------------------------- and the file stays bounded

  lemma {:induction false} SizeBound(lines: seq<Line>, most: nat)
    requires forall l :: l in lines ==> l.bytes <= most
    ensures Size(lines) <= |lines| * most
  {
    if lines != [] {
      SizeBound(lines[..|lines| - 1], most);
      assert |lines| * most == (|lines| - 1) * most + most;
    }
  }

  lemma {:induction false} SizeAppend(lines: seq<Line>, line: Line)
    ensures Size(lines + [line]) == Size(lines) + line.bytes
  {
    assert (lines + [line])[..|lines|] == lines;
  }

  /** What the trim promises: from an empty file on, with lines of at most `most` bytes, the file never exceeds the
      larger of the trigger and a thousand lines by more than one line. */
  lemma {:induction false} FileStaysBounded(appends: seq<Append>, most: nat)
    requires forall a :: a in appends ==> a.line.bytes <= most
    ensures var file, bound := File([], appends), 1000 * most;
            && (forall l :: l in file ==> l.bytes <= most)
            && Size(file) <= (if bound > 2_000_000 then bound else 2_000_000) + most
  {
    if appends != [] {
      var a := appends[|appends| - 1];
      FileStaysBounded(appends[..|appends| - 1], most);
      var file := File([], appends[..|appends| - 1]);
      assert File([], appends) == Appended(file, a);
      assert a in appends;
      var trimmed := if Size(file) > MAX_BYTES_BEFORE_TRIM then Kept(file) else file;
      SizeAppend(trimmed, a.line);
      assert forall l :: l in trimmed ==> l in file;
      KeptBound(file, most);
      hide Size, File, Kept;
    }
  }

  lemma {:induction false} KeptBound(file: seq<Line>, most: nat)
    requires forall l :: l in file ==> l.bytes <= most
    ensures Size(Kept(file)) <= KEEP_LINES_ON_TRIM * most
  {
    SizeBound(Kept(file), most);
    assert |Kept(file)| * most <= KEEP_LINES_ON_TRIM * most by {
      hide Size;
      Grows(|Kept(file)|, KEEP_LINES_ON_TRIM, most);
    }
  }

  lemma {:induction false} Grows(a: nat, b: nat, factor: nat)
    requires a <= b
    ensures a * factor <= b * factor
  {
    assert b * factor == a * factor + (b - a) * factor;
  }
}
