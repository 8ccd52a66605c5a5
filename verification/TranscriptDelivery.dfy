/** The transcript outbox of ai-service/app/voice_agent/transcript_delivery.py, delivering at least once to
    the platform's upserting ingest across lost requests, lost responses, crashes and restarts. */
module TranscriptDelivery {
  import opened Common
  import opened InterviewIngest

  datatype File = Json(dto: Dto) | Garbled

  /** The worker's share, run without interruption. `posts` is the log of requests sent; what becomes of
      them is up to the caller. */
  class Worker {
    var outbox: map<Id, File>
    var posts: seq<(Id, Dto)>

    constructor ()
      ensures outbox == map[] && posts == []
    {
      outbox, posts := map[], [];
    }

    method WriteToOutbox(s: Id, payload: Dto)
      modifies this`outbox
      ensures outbox == old(outbox)[s := Json(payload)]
    {
      outbox := outbox[s := Json(payload)];
    }

    /** The file is there before the request goes out, and is removed only if it was confirmed. */
    method DeliverTranscript(s: Id, payload: Dto, confirmed: bool)
      modifies this
      ensures posts == old(posts) + [(s, payload)]
      ensures outbox == if confirmed then old(outbox) - {s} else old(outbox)[s := Json(payload)]
    {
      WriteToOutbox(s, payload);
      posts := posts + [(s, payload)];
      if confirmed {
        outbox := outbox - {s};
      }
    }

    /** `flush_pending` over the sorted listing of the outbox: every readable file is posted once, in that order, and
        exactly the confirmed ones are removed. */
    method FlushPending(names: seq<Id>, confirmed: set<Id>)
      requires IsSortedListing(names, outbox.Keys)
      modifies this
      ensures outbox == Unconfirmed(old(outbox), names, confirmed)
      ensures posts == old(posts) + PostsFor(names, old(outbox))
    {
      ghost var before := outbox;
      NothingTried(before, confirmed);
      hide PostsFor, Unconfirmed, Less;
      for i := 0 to |names|
        invariant outbox == Unconfirmed(before, names[..i], confirmed)
        invariant posts == old(posts) + PostsFor(names[..i], before)
      {
        var s := names[i];
        assert names[..i + 1] == names[..i] + [s];
        PostsForAppend(names[..i], s, before);
        StillThere(before, names[..i], s, confirmed);
        match outbox[s] {
          case Garbled =>
          case Json(payload) =>
            posts := posts + [(s, payload)];
            if s in confirmed {
              outbox := outbox - {s};
            }
        }
        UnconfirmedAppend(before, names[..i], s, confirmed);
      }
      assert names[..|names|] == names;
    }
  }

  /** Python's order of strings. */
  predicate Less(a: string, b: string) {
    b != "" && (a == "" || a[0] < b[0] || (a[0] == b[0] && Less(a[1..], b[1..])))
  }

  /** The names are in the order of the listing. */
  ghost predicate Listed(names: seq<Id>) {
    forall i, j :: 0 <= i < j < |names| ==> names[i] != names[j] && Less(names[i] + ".json", names[j] + ".json")
  }

  /** `sorted(OUTBOX_DIR.glob("*.json"))`, one file per session. */
  ghost predicate IsSortedListing(names: seq<Id>, files: set<Id>) {
    (forall s :: s in names <==> s in files) && Listed(names)
  }

  /** The files left after the named ones were tried: a readable and confirmed one is gone. */
  ghost function Unconfirmed(files: map<Id, File>, names: seq<Id>, confirmed: set<Id>): map<Id, File> {
    map s | s in files && !(s in names && files[s].Json? && s in confirmed) :: files[s]
  }

  lemma {:induction false} StillThere(files: map<Id, File>, names: seq<Id>, s: Id, confirmed: set<Id>)
    requires s in files && s !in names
    ensures s in Unconfirmed(files, names, confirmed) && Unconfirmed(files, names, confirmed)[s] == files[s]
  {
  }

  lemma {:induction false} NothingTried(files: map<Id, File>, confirmed: set<Id>)
    ensures Unconfirmed(files, [], confirmed) == files && PostsFor([], files) == []
  {
  }

  lemma {:induction false} UnconfirmedAppend(files: map<Id, File>, names: seq<Id>, s: Id, confirmed: set<Id>)
    ensures Unconfirmed(files, names + [s], confirmed)
         == if s in files && files[s].Json? && s in confirmed then Unconfirmed(files, names, confirmed) - {s}
            else Unconfirmed(files, names, confirmed)
  {
  }

  ghost function PostsFor(names: seq<Id>, files: map<Id, File>): seq<(Id, Dto)> {
    if names == [] then []
    else
      (if names[0] in files && files[names[0]].Json? then [(names[0], files[names[0]].dto)] else [])
      + PostsFor(names[1..], files)
  }

  lemma {:induction false} PostsForAppend(names: seq<Id>, s: Id, files: map<Id, File>)
    ensures PostsFor(names + [s], files)
         == PostsFor(names, files) + if s in files && files[s].Json? then [(s, files[s].dto)] else []
  {
    if names == [] {
      assert PostsFor([s][1..], files) == [];
    } else {
      assert (names + [s])[1..] == names[1..] + [s];
      PostsForAppend(names[1..], s, files);
    }
  }

  ghost predicate PostsListed(posts: seq<(Id, Dto)>) {
    forall i, j :: 0 <= i < j < |posts| ==>
      posts[i].0 != posts[j].0 && Less(posts[i].0 + ".json", posts[j].0 + ".json")
  }

  lemma {:induction false} PostsInOrder(names: seq<Id>, files: map<Id, File>)
    requires Listed(names)
    ensures PostsListed(PostsFor(names, files))
    ensures forall s, dto :: (s, dto) in PostsFor(names, files) <==> s in names && s in files && files[s] == Json(dto)
  {
    hide Less;
    if names != [] {
      PostsInOrder(names[1..], files);
      assert forall s :: s in names <==> s == names[0] || s in names[1..];
      var rest := PostsFor(names[1..], files);
      forall j | 0 <= j < |rest| ensures names[0] != rest[j].0 && Less(names[0] + ".json", rest[j].0 + ".json") {
        assert (rest[j].0, rest[j].1) in rest;
        var k :| 0 < k < |names| && names[k] == rest[j].0;
      }
    }
  }

  /** What a flush does to any outbox: the files that stay are the unreadable ones and the readable ones that were not
      confirmed; every readable file is posted, with its own payload, once, in the order of the listing. */
  lemma {:induction false} FlushIsExact(names: seq<Id>, files: map<Id, File>, confirmed: set<Id>)
    requires IsSortedListing(names, files.Keys)
    ensures var left, posts := Unconfirmed(files, names, confirmed), PostsFor(names, files);
            && (forall s :: s in left <==> s in files && (files[s] == Garbled || s !in confirmed))
            && (forall s :: s in left ==> left[s] == files[s])
            && (forall s, dto :: (s, dto) in posts <==> s in files && files[s] == Json(dto))
            && PostsListed(posts)
  {
    hide Less;
    PostsInOrder(names, files);
  }

  // ---------------------------------------------------------------- the protocol

  datatype Request = Request(session: Id, dto: Dto)

  /** Worker disk and memory, the network, the platform, and what has been written and committed so far.
      A request stays in `network` until the platform receives it, however long its sender has given up on it. */
  datatype State = State(
    outbox: map<Id, Dto>,
    posting: map<Id, nat>,              // the delivery in flight of a session: the number of its request
    sent: nat, network: map<nat, Request>, answers: map<nat, bool>,
    tables: Tables,
    written: map<Id, Dto>, committed: map<Id, Dto>, ever: set<(Id, Dto)>, expired: set<Id>)

  datatype Action =
    | Deliver(s: Id, dto: Dto)                            // deliver_transcript up to its POST
    | FlushPost(s: Id)                                    // flush_pending posts a file that it found
    | Receive(n: nat, newId: string, now: int, fault: Fault)  // the platform handles request n, perhaps late
    | Response(s: Id)                                     // the answer reaches the worker
    | PostFails(s: Id)                                    // timeout or network error: request or answer lost
    | Crash                                               // the worker process dies; the disk survives
    | Cleanup(policies: seq<TenantPolicy>, nows: seq<int>)

  function Start(sessions: map<Id, SessionRow>): State {
    State(map[], map[], 0, map[], map[], Tables(sessions, map[], map[]), map[], map[], {}, {})
  }

  function Post(st: State, s: Id, dto: Dto): State {
    st.(posting := st.posting[s := st.sent], network := st.network[st.sent := Request(s, dto)], sent := st.sent + 1)
  }

  /** What an action does; one that is not possible now does nothing. A session has one delivery at a time. */
  function Step(st: State, a: Action): State {
    match a
    case Deliver(s, dto) =>
      if s in st.posting then st
      else Post(st.(outbox := st.outbox[s := dto], written := st.written[s := dto]), s, dto)
    case FlushPost(s) =>
      if s in st.posting || s !in st.outbox then st else Post(st, s, st.outbox[s])
    case Receive(n, newId, now, fault) =>
      if n !in st.network then st
      else
        var r := st.network[n];
        var commits := Commits(st.tables, r.session, r.dto, fault);
        st.(network := st.network - {n},
            answers := st.answers[n := commits && fault == NoFault],
            tables := Ingested(st.tables, r.session, r.dto, newId, now, fault),
            committed := if commits then st.committed[r.session := r.dto] else st.committed,
            ever := if commits then st.ever + {(r.session, r.dto)} else st.ever,
            expired := if commits then st.expired - {r.session} else st.expired)
    case Response(s) =>
      if s !in st.posting || st.posting[s] !in st.answers then st
      else if st.answers[st.posting[s]] then st.(posting := st.posting - {s}, outbox := st.outbox - {s})
      else st.(posting := st.posting - {s})
    case PostFails(s) => st.(posting := st.posting - {s})
    case Crash => st.(posting := map[])
    case Cleanup(policies, nows) =>
      if |policies| != |nows| then st
      else
        var tables := Cleaned(st.tables, policies, nows);
        st.(tables := tables, expired := st.expired + (st.tables.transcripts.Keys - tables.transcripts.Keys))
  }

  function Run(st: State, actions: seq<Action>): State {
    if actions == [] then st else Step(Run(st, actions[..|actions| - 1]), actions[|actions| - 1])
  }

  // ---------------------------------------------------------------- safety

  /** On the disk is always the payload written last, and that one is on the disk or was committed. */
  predicate DiskOk(st: State) {
    && (forall s :: s in st.outbox ==> s in st.written && st.outbox[s] == st.written[s])
    && (forall s :: s in st.written ==> s in st.outbox || (s, st.written[s]) in st.ever)
  }

  /** The delivery in flight of session s is for the file on the disk; a positive answer means its payload
      was committed. */
  predicate PostingOk(st: State, s: Id)
    requires s in st.posting
  {
    var n := st.posting[s];
    && s in st.outbox
    && n < st.sent
    && (n in st.network ==> st.network[n] == Request(s, st.outbox[s]))
    && (n in st.answers && st.answers[n] ==> (s, st.outbox[s]) in st.ever)
  }

  predicate FlightOk(st: State) {
    && (forall n :: n in st.network ==> n < st.sent)
    && (forall n :: n in st.answers ==> n < st.sent)
    && (forall s :: s in st.posting ==> PostingOk(st, s))
  }

  /** The tables hold exactly what was committed last, except where retention removed it since. */
  predicate TablesOk(st: State) {
    && Paired(st.tables)
    && (forall s :: s in st.committed ==> (s, st.committed[s]) in st.ever)
    && (forall p :: p in st.ever ==> p.0 in st.committed)
    && (forall s :: s in st.committed ==> s in st.expired || Holds(st.tables, s, st.committed[s]))
  }

  predicate Inv(st: State) {
    DiskOk(st) && FlightOk(st) && TablesOk(st)
  }

  lemma {:induction false} ReceiveKeepsTables(st: State, a: Action)
    requires a.Receive? && a.n in st.network && TablesOk(st)
    ensures TablesOk(Step(st, a))
  {
    hide Ingested;
    var r := st.network[a.n];
    IngestStoresOneSession(st.tables, r.session, r.dto, a.newId, a.now, a.fault);
    hide Paired;
  }

  lemma {:induction false} CleanupKeepsTables(st: State, a: Action)
    requires a.Cleanup? && |a.policies| == |a.nows| && TablesOk(st)
    ensures TablesOk(Step(st, a))
  {
    hide Expired;
  }

  lemma {:induction false} PostKeepsFlight(st: State, s: Id, dto: Dto)
    requires FlightOk(st) && s !in st.posting && s in st.outbox && st.outbox[s] == dto
    ensures FlightOk(Post(st, s, dto))
  {
    var st' := Post(st, s, dto);
    forall x | x in st'.posting ensures PostingOk(st', x) {
      assert x != s ==> PostingOk(st, x);
    }
  }

  lemma {:induction false} FlushKeepsFlight(st: State, s: Id)
    requires DiskOk(st) && FlightOk(st) && s !in st.posting && s in st.outbox
    ensures DiskOk(Step(st, FlushPost(s))) && FlightOk(Step(st, FlushPost(s)))
  {
    PostKeepsFlight(st, s, st.outbox[s]);
    hide FlightOk;
  }

  lemma {:induction false} DeliverKeepsFlight(st: State, s: Id, dto: Dto)
    requires DiskOk(st) && FlightOk(st) && s !in st.posting
    ensures DiskOk(Step(st, Deliver(s, dto))) && FlightOk(Step(st, Deliver(s, dto)))
  {
    var mid := st.(outbox := st.outbox[s := dto], written := st.written[s := dto]);
    forall x | x in mid.posting ensures PostingOk(mid, x) {
      assert PostingOk(st, x);
    }
    PostKeepsFlight(mid, s, dto);
  }

  lemma {:induction false} ReceiveKeepsFlight(st: State, a: Action)
    requires a.Receive? && a.n in st.network && DiskOk(st) && FlightOk(st)
    ensures DiskOk(Step(st, a)) && FlightOk(Step(st, a))
  {
    hide Ingested, Commits;
    var st' := Step(st, a);
    assert st'.outbox == st.outbox && st'.written == st.written && st.ever <= st'.ever;
    forall x | x in st'.posting ensures PostingOk(st', x) {
      assert PostingOk(st, x);
    }
  }

  lemma {:induction false} ResponseKeepsFlight(st: State, s: Id)
    requires DiskOk(st) && FlightOk(st)
    ensures DiskOk(Step(st, Response(s))) && FlightOk(Step(st, Response(s)))
  {
    var st' := Step(st, Response(s));
    if s in st.posting {
      assert PostingOk(st, s);
    }
    forall x | x in st'.posting ensures PostingOk(st', x) {
      assert PostingOk(st, x);
    }
  }

  lemma {:induction false} StepKeepsFlight(st: State, a: Action)
    requires DiskOk(st) && FlightOk(st)
    ensures DiskOk(Step(st, a)) && FlightOk(Step(st, a))
  {
    hide DiskOk, FlightOk, Ingested, Commits, Cleaned;
    match a
    case Deliver(s, dto) =>
      if s !in st.posting {
        DeliverKeepsFlight(st, s, dto);
      }
    case FlushPost(s) =>
      if s !in st.posting && s in st.outbox {
        FlushKeepsFlight(st, s);
      }
    case Receive(_, _, _, _) =>
      if a.n in st.network {
        ReceiveKeepsFlight(st, a);
      }
    case Response(s) => ResponseKeepsFlight(st, s);
    case PostFails(_) => FewerPostings(st, Step(st, a));
    case Crash => FewerPostings(st, Step(st, a));
    case Cleanup(_, _) => FewerPostings(st, Step(st, a));
  }

  lemma {:induction false} FewerPostings(st: State, st': State)
    requires DiskOk(st) && FlightOk(st)
    requires st'.outbox == st.outbox && st'.written == st.written && st'.ever == st.ever && st'.sent == st.sent
    requires st'.network == st.network && st'.answers == st.answers
    requires forall s :: s in st'.posting ==> s in st.posting && st'.posting[s] == st.posting[s]
    ensures DiskOk(st') && FlightOk(st')
  {
    forall x | x in st'.posting ensures PostingOk(st', x) {
      assert PostingOk(st, x);
    }
  }

  /** Only the platform's own steps touch the tables and their history. */
  lemma {:induction false} StepKeepsTables(st: State, a: Action)
    requires TablesOk(st)
    ensures TablesOk(Step(st, a)) && Step(st, a).tables.sessions == st.tables.sessions
  {
    if a.Receive? && a.n in st.network {
      ReceiveKeepsTables(st, a);
      hide TablesOk;
    } else if a.Cleanup? && |a.policies| == |a.nows| {
      CleanupKeepsTables(st, a);
      hide TablesOk, Expired;
    } else {
      TablesUntouched(st, a);
      hide Step, Paired, Holds;
    }
  }

  lemma {:induction false} TablesUntouched(st: State, a: Action)
    requires a.Receive? ==> a.n !in st.network
    requires a.Cleanup? ==> |a.policies| != |a.nows|
    ensures var st' := Step(st, a);
            st'.tables == st.tables && st'.committed == st.committed && st'.ever == st.ever && st'.expired == st.expired
  {
    hide Ingested, Cleaned, Commits;
  }

  lemma {:induction false} StepKeepsInv(st: State, a: Action)
    requires Inv(st)
    ensures Inv(Step(st, a))
  {
    hide DiskOk, FlightOk, TablesOk, Step;
    StepKeepsFlight(st, a);
    StepKeepsTables(st, a);
  }

  lemma {:induction false} RunKeepsInv(sessions: map<Id, SessionRow>, actions: seq<Action>)
    ensures Inv(Run(Start(sessions), actions))
  {
    hide Step;
    if actions != [] {
      RunKeepsInv(sessions, actions[..|actions| - 1]);
      StepKeepsInv(Run(Start(sessions), actions[..|actions| - 1]), actions[|actions| - 1]);
    }
  }

  /** The platform stores the same for both payloads: it does not keep their candidate reference. */
  predicate StoredAlike(a: Dto, b: Dto) {
    && a.lines == b.lines && a.rollingSummary == b.rollingSummary
    && a.evaluation.(candidateRef := "") == b.evaluation.(candidateRef := "")
    && a.promptVersions == b.promptVersions && a.modelUsage == b.modelUsage
  }

  lemma {:induction false} HoldsBothIffAlike(t: Tables, s: Id, older: Dto, newer: Dto)
    requires Holds(t, s, older)
    ensures Holds(t, s, newer) <==> StoredAlike(older, newer)
  {
    var ref := t.sessions[s].candidateRef;
    assert older.evaluation.(candidateRef := ref) == newer.evaluation.(candidateRef := ref)
      <==> older.evaluation.(candidateRef := "") == newer.evaluation.(candidateRef := "");
  }

  /** All payloads of a session are stored alike, as when each call ends once. */
  predicate OnePayload(actions: seq<Action>) {
    forall a, b :: a in actions && b in actions && a.Deliver? && b.Deliver? && a.s == b.s ==> StoredAlike(a.dto, b.dto)
  }

  /** Everything written, sent or committed came from a Deliver among `actions`. */
  predicate Delivered(st: State, actions: seq<Action>) {
    && (forall s :: s in st.outbox ==> Deliver(s, st.outbox[s]) in actions)
    && (forall s :: s in st.written ==> Deliver(s, st.written[s]) in actions)
    && (forall n :: n in st.network ==> Deliver(st.network[n].session, st.network[n].dto) in actions)
    && (forall p :: p in st.ever ==> Deliver(p.0, p.1) in actions)
  }

  lemma {:induction false} PostDelivered(st: State, s: Id, dto: Dto, actions: seq<Action>)
    requires Delivered(st, actions) && Deliver(s, dto) in actions
    ensures Delivered(Post(st, s, dto), actions)
  {
  }

  lemma {:induction false} WriteDelivered(st: State, s: Id, dto: Dto, actions: seq<Action>)
    requires Delivered(st, actions) && Deliver(s, dto) in actions
    ensures Delivered(Step(st, Deliver(s, dto)), actions)
  {
    PostDelivered(st.(outbox := st.outbox[s := dto], written := st.written[s := dto]), s, dto, actions);
    hide Post;
  }

  lemma {:induction false} FlushDelivered(st: State, s: Id, actions: seq<Action>)
    requires Delivered(st, actions)
    ensures Delivered(Step(st, FlushPost(s)), actions)
  {
    if s in st.outbox {
      PostDelivered(st, s, st.outbox[s], actions);
    }
    hide Post, Delivered;
  }

  lemma {:induction false} ReceiveDelivered(st: State, a: Action, actions: seq<Action>)
    requires a.Receive? && Delivered(st, actions)
    ensures Delivered(Step(st, a), actions)
  {
    hide Ingested, Commits;
  }

  lemma {:induction false} FewerDelivered(st: State, st': State, before: seq<Action>, actions: seq<Action>)
    requires Delivered(st, before) && forall b :: b in before ==> b in actions
    requires forall s :: s in st'.outbox ==> s in st.outbox && st'.outbox[s] == st.outbox[s]
    requires st'.written == st.written && st'.network == st.network && st'.ever == st.ever
    ensures Delivered(st', actions)
  {
  }

  lemma {:induction false} StepDelivered(st: State, a: Action, before: seq<Action>, actions: seq<Action>)
    requires Delivered(st, before) && a in actions && forall b :: b in before ==> b in actions
    ensures Delivered(Step(st, a), actions)
  {
    hide Delivered, Ingested, Commits, Cleaned, Post;
    FewerDelivered(st, st, before, actions);
    match a
    case Deliver(s, dto) => WriteDelivered(st, s, dto, actions);
    case FlushPost(s) => FlushDelivered(st, s, actions);
    case Receive(_, _, _, _) => ReceiveDelivered(st, a, actions);
    case Response(_) => FewerDelivered(st, Step(st, a), before, actions);
    case PostFails(_) => FewerDelivered(st, Step(st, a), before, actions);
    case Crash => FewerDelivered(st, Step(st, a), before, actions);
    case Cleanup(_, _) => FewerDelivered(st, Step(st, a), before, actions);
  }

  lemma {:induction false} OnlyDeliveredPayloads(sessions: map<Id, SessionRow>, actions: seq<Action>)
    ensures Delivered(Run(Start(sessions), actions), actions)
    decreases |actions|
  {
    if actions != [] {
      var init, last := actions[..|actions| - 1], actions[|actions| - 1];
      OnlyDeliveredPayloads(sessions, init);
      assert forall a :: a in init ==> a in actions;
      StepDelivered(Run(Start(sessions), init), last, init, actions);
      hide Delivered, Step;
    }
  }

  /** No transcript is lost: across every run, what was written for a session is still in the outbox, or the
      platform committed it and holds it, about the session row's own candidate, unless retention removed it. */
  lemma {:induction false} NoTranscriptLoss(sessions: map<Id, SessionRow>, actions: seq<Action>, s: Id)
    requires OnePayload(actions) && s in Run(Start(sessions), actions).written
    ensures var st := Run(Start(sessions), actions);
            || (s in st.outbox && st.outbox[s] == st.written[s])
            || Holds(st.tables, s, st.written[s])
            || s in st.expired
  {
    var st := Run(Start(sessions), actions);
    RunKeepsInv(sessions, actions);
    OnlyDeliveredPayloads(sessions, actions);
    if s !in st.outbox {
      assert (s, st.written[s]) in st.ever;
      assert s in st.committed && (s, st.committed[s]) in st.ever;
      var a, b := Deliver(s, st.written[s]), Deliver(s, st.committed[s]);
      assert a in actions && b in actions;
      assert StoredAlike(b.dto, a.dto);
      if s !in st.expired {
        HoldsBothIffAlike(st.tables, s, st.committed[s], st.written[s]);
      }
    }
    hide Run, Holds, StoredAlike;
  }

  /** Without that assumption the payload written last is still on the disk or was committed at some time,
      and the tables hold the payload committed last. */
  lemma {:induction false} NothingWrittenIsForgotten(sessions: map<Id, SessionRow>, actions: seq<Action>, s: Id)
    ensures var st := Run(Start(sessions), actions);
            && (s in st.written ==> (s in st.outbox && st.outbox[s] == st.written[s]) || (s, st.written[s]) in st.ever)
            && (s in st.committed ==> s in st.expired || Holds(st.tables, s, st.committed[s]))
  {
    RunKeepsInv(sessions, actions);
    hide Run, Holds;
  }

  /** Why the assumption is needed: an abandoned first request that arrives late overwrites a second payload that was
      already delivered and removed from the outbox, unless the two are stored alike. */
  lemma {:induction false} LateRequestOverwrites(s: Id, row: SessionRow, older: Dto, newer: Dto)
    requires older.tenantId == newer.tenantId == row.tenantId
    ensures exists actions :: var st := Run(Start(map[s := row]), actions);
              && s in st.written && st.written[s] == newer && s !in st.outbox && st.expired == {}
              && Holds(st.tables, s, older) && (Holds(st.tables, s, newer) <==> StoredAlike(older, newer))
  {
    hide Step, Holds;
    var st0 := Start(map[s := row]);
    var a1, a2, a3 := Deliver(s, older), PostFails(s), Deliver(s, newer);
    var a4, a5, a6 := Receive(1, "row", 0, NoFault), Response(s), Receive(0, "row", 1, NoFault);
    TwoDeliveries(s, row, older, newer);
    var st3 := Step(Step(Step(st0, a1), a2), a3);
    LateOverwrite(st3, s, row, older, newer);
    HoldsBothIffAlike(Step(Step(Step(st3, a4), a5), a6).tables, s, older, newer);
    assert Run(st0, []) == st0;
    var r1 := RunOne(st0, [], a1);
    var r2 := RunOne(st0, [] + [a1], a2);
    var r3 := RunOne(st0, [] + [a1] + [a2], a3);
    var r4 := RunOne(st0, [] + [a1] + [a2] + [a3], a4);
    var r5 := RunOne(st0, [] + [a1] + [a2] + [a3] + [a4], a5);
    var r6 := RunOne(st0, [] + [a1] + [a2] + [a3] + [a4] + [a5], a6);
  }

  lemma {:induction false} TwoDeliveries(s: Id, row: SessionRow, older: Dto, newer: Dto)
    ensures var st := Step(Step(Step(Start(map[s := row]), Deliver(s, older)), PostFails(s)), Deliver(s, newer));
            && st.network == map[0 := Request(s, older), 1 := Request(s, newer)] && st.posting == map[s := 1]
            && st.outbox == st.written == map[s := newer] && st.expired == {}
            && st.tables == Tables(map[s := row], map[], map[])
  {
    var st1 := Step(Start(map[s := row]), Deliver(s, older));
    assert st1.network == map[0 := Request(s, older)] && st1.posting == map[s := 0] && st1.sent == 1;
    var st2 := Step(st1, PostFails(s));
    assert st2.posting == map[];
  }

  lemma {:induction false} LateOverwrite(st: State, s: Id, row: SessionRow, older: Dto, newer: Dto)
    requires older.tenantId == newer.tenantId == row.tenantId
    requires st.network == map[0 := Request(s, older), 1 := Request(s, newer)] && st.posting == map[s := 1]
    requires st.outbox == st.written == map[s := newer] && st.expired == {}
    requires st.tables == Tables(map[s := row], map[], map[])
    ensures var st1 := Step(st, Receive(1, "row", 0, NoFault));
            var st2 := Step(st1, Response(s));
            var st3 := Step(st2, Receive(0, "row", 1, NoFault));
            && st3.written == map[s := newer] && s !in st3.outbox && st3.expired == {} && Holds(st3.tables, s, older)
  {
    hide Ingested, Holds;
    assert Paired(st.tables);
    hide Paired;
    var t1 := Ingested(st.tables, s, newer, "row", 0, NoFault);
    IngestStoresOneSession(st.tables, s, newer, "row", 0, NoFault);
    IngestStoresOneSession(t1, s, older, "row", 1, NoFault);
    var st1 := Step(st, Receive(1, "row", 0, NoFault));
    assert st1.tables == t1 && st1.network == map[0 := Request(s, older)] && st1.answers[1];
    var st2 := Step(st1, Response(s));
    assert st2.tables == t1 && st2.network == map[0 := Request(s, older)];
  }

  lemma {:induction false} RunOne(st: State, before: seq<Action>, a: Action) returns (after: State)
    ensures after == Run(st, before + [a]) == Step(Run(st, before), a)
  {
    assert (before + [a])[..|before|] == before;
    after := Run(st, before + [a]);
  }

  /** Without interruption the protocol does to the disk what `Worker.DeliverTranscript` does, the request being
      confirmed exactly if the platform commits it and gets its answer out. */
  lemma {:induction false} UninterruptedDelivery(st: State, s: Id, dto: Dto, newId: string, now: int, fault: Fault)
    requires Inv(st) && s !in st.posting
    ensures var confirmed := Commits(st.tables, s, dto, fault) && fault == NoFault;
            var done := Step(Step(Step(st, Deliver(s, dto)), Receive(st.sent, newId, now, fault)), Response(s));
            && done.outbox == (if confirmed then st.outbox - {s} else st.outbox[s := dto])
            && done.posting == st.posting && done.network == st.network
            && done.tables == Ingested(st.tables, s, dto, newId, now, fault)
  {
    hide Step, Inv, Commits, Ingested;
    var posted := PostedDelivery(st, s, dto);
    var handled := HandledRequest(posted, st.sent, newId, now, fault);
    var done := AnsweredDelivery(handled, s);
    assert posted.network - {st.sent} == st.network;
    assert st.outbox[s := dto] - {s} == st.outbox - {s};
    assert posted.posting - {s} == st.posting;
  }

  lemma {:induction false} HandledRequest(st: State, n: nat, newId: string, now: int, fault: Fault)
    returns (handled: State)
    requires n in st.network
    ensures handled == Step(st, Receive(n, newId, now, fault))
    ensures var r := st.network[n];
            && handled.tables == Ingested(st.tables, r.session, r.dto, newId, now, fault)
            && n in handled.answers
            && handled.answers[n] == (Commits(st.tables, r.session, r.dto, fault) && fault == NoFault)
            && handled.network == st.network - {n} && handled.posting == st.posting && handled.outbox == st.outbox
            && (Commits(st.tables, r.session, r.dto, fault) ==> r.session !in handled.expired)
  {
    hide Ingested, Commits;
    handled := Step(st, Receive(n, newId, now, fault));
  }

  lemma {:induction false} AnsweredDelivery(st: State, s: Id) returns (done: State)
    requires s in st.posting && st.posting[s] in st.answers
    ensures done == Step(st, Response(s))
    ensures done.outbox == (if st.answers[st.posting[s]] then st.outbox - {s} else st.outbox)
    ensures done.posting == st.posting - {s} && done.network == st.network && done.tables == st.tables
    ensures done.expired == st.expired
  {
    done := Step(st, Response(s));
  }

  lemma {:induction false} PostedDelivery(st: State, s: Id, dto: Dto) returns (posted: State)
    requires Inv(st) && s !in st.posting
    ensures posted == Step(st, Deliver(s, dto))
    ensures st.sent !in st.network && posted.network == st.network[st.sent := Request(s, dto)]
    ensures posted.posting == st.posting[s := st.sent] && posted.outbox == st.outbox[s := dto]
            && posted.tables == st.tables
  {
    posted := Step(st, Deliver(s, dto));
    hide DiskOk, TablesOk;
  }

  // ---------------------------------------------------------------- retention over runs

  /** When the rows of session s, if it has any, were first committed since the start or since a cleanup last removed
      them. */
  function StoredSince(st0: State, actions: seq<Action>, s: Id): Option<int> {
    if actions == [] then None
    else
      var init, last := actions[..|actions| - 1], actions[|actions| - 1];
      var st, since := Run(st0, init), StoredSince(st0, init, s);
      match last
      case Receive(n, _, now, fault) =>
        if since.None? && n in st.network && st.network[n].session == s
           && Commits(st.tables, s, st.network[n].dto, fault)
        then Some(now) else since
      case Cleanup(policies, nows) =>
        if |policies| == |nows| && since.Some? && s in st.tables.sessions
           && Expired(policies, nows, st.tables.sessions[s].tenantId, since.value) then None else since
      case _ => since
  }

  predicate AgeOk(t: Tables, s: Id, since: Option<int>) {
    && (s in t.transcripts <==> since.Some?)
    && (s in t.transcripts ==> t.transcripts[s].createdAt == since.value)
  }

  lemma {:induction false} ReceiveKeepsAge(st: State, a: Action, s: Id, since: Option<int>)
    requires a.Receive? && a.n in st.network && AgeOk(st.tables, s, since) && Paired(st.tables)
    ensures AgeOk(Step(st, a).tables, s,
                  if since.None? && st.network[a.n].session == s && Commits(st.tables, s, st.network[a.n].dto, a.fault)
                  then Some(a.now) else since)
  {
    var r := st.network[a.n];
    IngestStoresOneSession(st.tables, r.session, r.dto, a.newId, a.now, a.fault);
    assert Step(st, a).tables == Ingested(st.tables, r.session, r.dto, a.newId, a.now, a.fault);
    hide Paired, Holds, Step;
  }

  lemma {:induction false} CleanupKeepsAge(st: State, a: Action, s: Id, since: Option<int>)
    requires a.Cleanup? && |a.policies| == |a.nows| && AgeOk(st.tables, s, since) && Paired(st.tables)
    ensures AgeOk(Step(st, a).tables, s,
                  if since.Some? && s in st.tables.sessions
                     && Expired(a.policies, a.nows, st.tables.sessions[s].tenantId, since.value) then None else since)
  {
    hide Expired;
  }

  /** Over every run: a session has stored rows exactly if it was committed since the start or its last removal, and
      their age counts from the first such commit, however often it was redelivered since. */
  lemma {:induction false} AgeIsFirstCommit(sessions: map<Id, SessionRow>, actions: seq<Action>, s: Id)
    ensures var st, since := Run(Start(sessions), actions), StoredSince(Start(sessions), actions, s);
            && (s in st.tables.transcripts <==> since.Some?)
            && (s in st.tables.transcripts ==>
                  && s in st.tables.summaries
                  && st.tables.transcripts[s].createdAt == st.tables.summaries[s].createdAt == since.value)
  {
    RunKeepsInv(sessions, actions);
    RunKeepsAge(sessions, actions, s);
    hide Run, StoredSince;
  }

  lemma {:induction false} RunKeepsAge(sessions: map<Id, SessionRow>, actions: seq<Action>, s: Id)
    ensures AgeOk(Run(Start(sessions), actions).tables, s, StoredSince(Start(sessions), actions, s))
  {
    if actions != [] {
      var init, last := actions[..|actions| - 1], actions[|actions| - 1];
      var st, since := Run(Start(sessions), init), StoredSince(Start(sessions), init, s);
      RunKeepsAge(sessions, init, s);
      RunKeepsInv(sessions, init);
      assert Paired(st.tables);
      hide AgeOk, Paired, Inv, Start, Commits, Expired, Step;
      if last.Receive? && last.n in st.network {
        ReceiveKeepsAge(st, last, s, since);
      } else if last.Cleanup? && |last.policies| == |last.nows| {
        CleanupKeepsAge(st, last, s, since);
      } else {
        TablesUntouched(st, last);
      }
    }
  }

  /** The answer to a committed request is lost, so the file stays in the outbox; a cleanup removes the rows; a flush
      delivers the file again. */
  function Revival(s: Id, dto: Dto, days: nat): (actions: seq<Action>)
    ensures |actions| == 6
  {
    var later := (days + 1) * MS_PER_DAY;
    [Deliver(s, dto), Receive(0, "row", 0, NoFault), PostFails(s),
     Cleanup([TenantPolicy(dto.tenantId, days)], [later]), FlushPost(s), Receive(1, "row", later, NoFault)]
  }

  /** So retention can be extended after all: the transcript that expired is stored anew, with a new age. */
  lemma {:induction false} FlushRevivesExpired(s: Id, row: SessionRow, dto: Dto, days: nat)
    requires dto.tenantId == row.tenantId
    ensures var st0, actions := Start(map[s := row]), Revival(s, dto, days);
            && OnePayload(actions)
            && Run(st0, actions[..3]).tables.transcripts == map[s := TranscriptRow("row", row.tenantId, dto.lines, 0)]
            && Run(st0, actions[..4]).tables.transcripts == map[]
            && Run(st0, actions).tables.transcripts
               == map[s := TranscriptRow("row", row.tenantId, dto.lines, (days + 1) * MS_PER_DAY)]
  {
    var st0, actions := Start(map[s := row]), Revival(s, dto, days);
    var st3 := LostAnswer(s, row, dto);
    var st6 := Revived(st3, s, row, dto, days);
    OneDelivery(s, dto, days);
    hide Step, Run, Expired, OnePayload;
    RunSix(st0, actions);
  }

  lemma {:induction false} OneDelivery(s: Id, dto: Dto, days: nat)
    ensures OnePayload(Revival(s, dto, days))
  {
    assert forall a :: a in Revival(s, dto, days) && a.Deliver? ==> a.dto == dto;
  }

  lemma {:induction false} RunSix(st: State, actions: seq<Action>)
    requires |actions| == 6
    ensures Run(st, actions[..3]) == Step(Step(Step(st, actions[0]), actions[1]), actions[2])
    ensures Run(st, actions[..4]) == Step(Run(st, actions[..3]), actions[3])
    ensures Run(st, actions) == Step(Step(Run(st, actions[..4]), actions[4]), actions[5])
  {
    assert actions[..0] == [] && actions[..6] == actions && Run(st, []) == st;
    hide Step, Run;
    RunPrefix(st, actions, 0);
    RunPrefix(st, actions, 1);
    RunPrefix(st, actions, 2);
    RunPrefix(st, actions, 3);
    RunPrefix(st, actions, 4);
    RunPrefix(st, actions, 5);
  }

  lemma {:induction false} RunPrefix(st: State, actions: seq<Action>, k: nat)
    requires k < |actions|
    ensures Run(st, actions[..k + 1]) == Step(Run(st, actions[..k]), actions[k])
  {
    assert actions[..k + 1][..k] == actions[..k];
  }

  lemma {:induction false} LostAnswer(s: Id, row: SessionRow, dto: Dto) returns (st: State)
    requires dto.tenantId == row.tenantId
    ensures st == Step(Step(Step(Start(map[s := row]), Deliver(s, dto)), Receive(0, "row", 0, NoFault)), PostFails(s))
    ensures st.outbox == map[s := dto] && st.posting == map[] && st.sent == 1 && st.network == map[]
    ensures st.tables.sessions == map[s := row]
    ensures st.tables.transcripts == map[s := TranscriptRow("row", row.tenantId, dto.lines, 0)]
  {
    var st1 := Step(Start(map[s := row]), Deliver(s, dto));
    assert st1.network == map[0 := Request(s, dto)] && st1.posting == map[s := 0] && st1.sent == 1;
    var st2 := Step(st1, Receive(0, "row", 0, NoFault));
    st := Step(st2, PostFails(s));
  }

  lemma {:induction false} Revived(st: State, s: Id, row: SessionRow, dto: Dto, days: nat) returns (st6: State)
    requires dto.tenantId == row.tenantId
    requires st.outbox == map[s := dto] && st.posting == map[] && st.sent == 1 && st.network == map[]
    requires st.tables.sessions == map[s := row]
    requires st.tables.transcripts == map[s := TranscriptRow("row", row.tenantId, dto.lines, 0)]
    ensures var later := (days + 1) * MS_PER_DAY;
            var st4 := Step(st, Cleanup([TenantPolicy(row.tenantId, days)], [later]));
            && st4.tables.transcripts == map[]
            && st6 == Step(Step(st4, FlushPost(s)), Receive(1, "row", later, NoFault))
            && st6.tables.transcripts == map[s := TranscriptRow("row", row.tenantId, dto.lines, later)]
  {
    var later, policies := (days + 1) * MS_PER_DAY, [TenantPolicy(row.tenantId, days)];
    assert later - days * MS_PER_DAY == MS_PER_DAY;
    assert policies[0].tenantId == row.tenantId && 0 < [later][0] - policies[0].retentionDays * MS_PER_DAY;
    assert Expired(policies, [later], row.tenantId, 0);
    hide Expired;
    var st4 := Step(st, Cleanup(policies, [later]));
    assert st4.tables.transcripts == map[] && st4.tables.sessions == st.tables.sessions;
    var st5 := Step(st4, FlushPost(s));
    assert st5.network == map[1 := Request(s, dto)] && st5.tables == st4.tables;
    st6 := Step(st5, Receive(1, "row", later, NoFault));
  }

  // ---------------------------------------------------------------- progress

  /** A file left over from any crash gets through once the platform answers: post, commit, unlink. */
  lemma {:induction false} FlushGetsThrough(st: State, s: Id, newId: string, now: int)
    requires Inv(st) && s in st.outbox && s !in st.posting
    requires Commits(st.tables, s, st.outbox[s], NoFault)
    ensures var posted := Step(st, FlushPost(s));
            var handled := Step(posted, Receive(st.sent, newId, now, NoFault));
            var done := Step(handled, Response(s));
            && s !in done.outbox && s !in done.posting && Holds(done.tables, s, st.outbox[s]) && s !in done.expired
            && done.outbox == st.outbox - {s}
  {
    var dto := st.outbox[s];
    IngestStoresOneSession(st.tables, s, dto, newId, now, NoFault);
    hide Ingested, Holds, DiskOk, FlightOk, TablesOk, Commits;
    var posted := Step(st, FlushPost(s));
    assert posted.network[st.sent] == Request(s, dto) && posted.tables == st.tables && posted.posting[s] == st.sent;
    assert posted.outbox == st.outbox;
    hide Step;
    var handled := HandledRequest(posted, st.sent, newId, now, NoFault);
    var done := AnsweredDelivery(handled, s);
  }
}
