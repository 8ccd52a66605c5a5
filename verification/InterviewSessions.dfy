/** `joinSession` and `endSession` of platform/src/interviews/interviews.service.ts, with any number of requests
    interleaving between their database statements and their calls to the media server. */
module InterviewSessions {
  import opened Common

  type Id = string

  datatype Status = Pending | Active | Completed

  /** An egress is numbered by its place among the recordings started so far. */
  datatype Session = Session(tenantId: string, inviteHash: string, inviteExpiresAt: int, status: Status,
                             egressId: Option<nat>)

  /** How far a join request has come: the statement it ran last. */
  datatype JoinAt =
    | Asking | Refused
    | Claimed                          // the conditional update matched one row
    | Found(s: Id)                     // findFirstOrThrow
    | Greeted(s: Id)                   // audit event, token minted
    | Recording(s: Id, e: nat)         // startRoomCompositeEgress
    | Saved(s: Id, e: nat)             // egressId stored
    | Admitted(s: Id, e: nat)          // audit event

  datatype Rejection = NotFound | Forbidden | BadStatus

  /** How far an end request has come; `row` is the session row that it read at first. */
  datatype EndAt =
    | Requested | Rejected(why: Rejection)
    | Checked(row: Session)
    | Stopped(row: Session)            // stopEgress
    | StopNoted(row: Session)          // audit event
    | Closed(row: Session)             // status COMPLETED stored
    | Done(row: Session)               // audit event

  /** A request that threw is no longer live and stays where it was. */
  datatype Request =
    | Join(hash: string, at: JoinAt, live: bool)
    | End(tenantId: string, s: Id, until: EndAt, live: bool)

  datatype Event = CandidateJoined(s: Id) | RecordingStarted(s: Id) | RecordingCompleted(s: Id) | SessionEnded(s: Id)

  /** `invites` holds every invite hash ever issued; `recordings[e]` is the session that egress e records. */
  datatype State = State(
    rows: map<Id, Session>, requests: map<nat, Request>,
    invites: set<string>, recordings: seq<Id>, stopped: set<nat>, audit: seq<Event>)

  datatype Action =
    | Create(s: Id, row: Session)
    | AskJoin(r: nat, hash: string)
    | AskEnd(r: nat, tenantId: string, s: Id)
    | Proceed(r: nat, now: int, found: Id)                 // the next statement of request r
    | Throw(r: nat, applied: bool, now: int, found: Id)    // it throws, perhaps after taking effect

  const START := State(map[], map[], {}, [], {}, [])

  predicate Claimable(row: Session, hash: string, now: int) {
    row.inviteHash == hash && row.status == Pending && row.inviteExpiresAt > now
  }

  function Matching(rows: map<Id, Session>, hash: string, now: int): set<Id> {
    set s | s in rows && Claimable(rows[s], hash, now)
  }

  /** The conditional `updateMany`. */
  function Flipped(rows: map<Id, Session>, hash: string, now: int): map<Id, Session> {
    map s | s in rows :: if Claimable(rows[s], hash, now) then rows[s].(status := Active) else rows[s]
  }

  function At(st: State, r: nat, q: Request): State {
    st.(requests := st.requests[r := q])
  }

  /** The next statement of a join; `found` is the row that findFirstOrThrow picks. */
  function JoinStatement(st: State, r: nat, q: Request, now: int, found: Id): State
    requires q.Join?
  {
    match q.at
    case Asking =>
      At(st.(rows := Flipped(st.rows, q.hash, now)), r,
         q.(at := if |Matching(st.rows, q.hash, now)| == 1 then Claimed else Refused))
    case Claimed =>
      if found in st.rows && st.rows[found].inviteHash == q.hash then At(st, r, q.(at := Found(found))) else st
    case Found(s) => At(st.(audit := st.audit + [CandidateJoined(s)]), r, q.(at := Greeted(s)))
    case Greeted(s) =>
      At(st.(recordings := st.recordings + [s]), r, q.(at := Recording(s, |st.recordings|)))
    case Recording(s, e) =>
      if s in st.rows then
        At(st.(rows := st.rows[s := st.rows[s].(egressId := Some(e))]), r, q.(at := Saved(s, e)))
      else st
    case Saved(s, e) => At(st.(audit := st.audit + [RecordingStarted(s)]), r, q.(at := Admitted(s, e)))
    case Admitted(_, _) => st
    case Refused => st
  }

  function Close(st: State, r: nat, q: Request, row: Session): State
    requires q.End?
  {
    if q.s in st.rows then
      At(st.(rows := st.rows[q.s := st.rows[q.s].(status := Completed)]), r, q.(until := Closed(row)))
    else st
  }

  /** The next statement of an end request: read, stop, note, close without looking again, note. */
  function EndStatement(st: State, r: nat, q: Request): State
    requires q.End?
  {
    match q.until
    case Requested =>
      At(st, r, q.(until :=
        if q.s !in st.rows then Rejected(NotFound)
        else if st.rows[q.s].tenantId != q.tenantId then Rejected(Forbidden)
        else if st.rows[q.s].status != Active then Rejected(BadStatus)
        else Checked(st.rows[q.s])))
    case Checked(row) =>
      if row.egressId.Some? then At(st.(stopped := st.stopped + {row.egressId.value}), r, q.(until := Stopped(row)))
      else Close(st, r, q, row)
    case Stopped(row) => At(st.(audit := st.audit + [RecordingCompleted(q.s)]), r, q.(until := StopNoted(row)))
    case StopNoted(row) => Close(st, r, q, row)
    case Closed(row) => At(st.(audit := st.audit + [SessionEnded(q.s)]), r, q.(until := Done(row)))
    case Done(_) => st
    case Rejected(_) => st
  }

  function Statement(st: State, r: nat, now: int, found: Id): State
    requires r in st.requests
  {
    var q := st.requests[r];
    if !q.live then st else if q.Join? then JoinStatement(st, r, q, now, found) else EndStatement(st, r, q)
  }

  function Dead(st: State, r: nat): State
    requires r in st.requests
  {
    At(st, r, st.requests[r].(live := false))
  }

  /** What an action does; one that is not possible now does nothing. Invite tokens are random, so a new
      session's hash is new. */
  function Step(st: State, a: Action): State {
    match a
    case Create(s, row) =>
      if s in st.rows || row.inviteHash in st.invites || row.status != Pending || row.egressId.Some? then st
      else st.(rows := st.rows[s := row], invites := st.invites + {row.inviteHash})
    case AskJoin(r, hash) => if r in st.requests then st else At(st, r, Join(hash, Asking, true))
    case AskEnd(r, tenantId, s) => if r in st.requests then st else At(st, r, End(tenantId, s, Requested, true))
    case Proceed(r, now, found) => if r in st.requests then Statement(st, r, now, found) else st
    case Throw(r, applied, now, found) =>
      if r !in st.requests then st else Dead(if applied then Statement(st, r, now, found) else st, r)
  }

  function Run(st: State, actions: seq<Action>): State {
    if actions == [] then st else Step(Run(st, actions[..|actions| - 1]), actions[|actions| - 1])
  }

  // ---------------------------------------------------------------- the invariant

  predicate Passed(q: Request) {
    q.Join? && q.at != Asking && q.at != Refused
  }

  predicate Recorded(q: Request) {
    q.Join? && (q.at.Recording? || q.at.Saved? || q.at.Admitted?)
  }

  predicate HasRow(q: Request) {
    q.End? && !q.until.Requested? && !q.until.Rejected?
  }

  predicate HasClosed(q: Request) {
    q.End? && (q.until.Closed? || q.until.Done?)
  }

  /** A join that got past the claim owns its invite: no row with that hash can be claimed again, and only
      this request can have started a recording for it. */
  predicate JoinOk(st: State, q: Request) {
    Passed(q) ==> (
      && q.hash in st.invites
      && (forall s :: s in st.rows && st.rows[s].inviteHash == q.hash ==> !st.rows[s].status.Pending?)
      && (!q.at.Claimed? ==> q.at.s in st.rows && st.rows[q.at.s].inviteHash == q.hash)
      && (Recorded(q) ==> q.at.e < |st.recordings| && st.recordings[q.at.e] == q.at.s)
      && (!Recorded(q) ==> Unrecorded(st, q.hash)))
  }

  predicate Unrecorded(st: State, hash: string) {
    forall i :: 0 <= i < |st.recordings| && st.recordings[i] in st.rows ==> st.rows[st.recordings[i]].inviteHash != hash
  }

  predicate EndOk(st: State, q: Request) {
    HasRow(q) ==> (
      && q.s in st.rows && !st.rows[q.s].status.Pending?
      && q.until.row.status == Active && q.until.row.tenantId == q.tenantId
      && EgressOf(st, q.until.row.egressId, q.s)
      && (HasClosed(q) ==> st.rows[q.s].status == Completed))
  }

  predicate EgressOf(st: State, egress: Option<nat>, s: Id) {
    egress.Some? ==> egress.value < |st.recordings| && st.recordings[egress.value] == s
  }

  predicate DistinctInvites(rows: map<Id, Session>) {
    forall s, t :: s in rows && t in rows && rows[s].inviteHash == rows[t].inviteHash ==> s == t
  }

  predicate RowsOk(st: State) {
    && (forall s :: s in st.rows ==> st.rows[s].inviteHash in st.invites && EgressOf(st, st.rows[s].egressId, s))
    && DistinctInvites(st.rows)
    && (forall i :: 0 <= i < |st.recordings| ==>
        st.recordings[i] in st.rows && !st.rows[st.recordings[i]].status.Pending?)
  }

  predicate OneJoinPerInvite(st: State) {
    forall r, t :: (r in st.requests && t in st.requests && Passed(st.requests[r]) && Passed(st.requests[t])
                    && st.requests[r].hash == st.requests[t].hash) ==> r == t
  }

  predicate OneRecordingPerSession(st: State) {
    forall i, j :: 0 <= i < j < |st.recordings| ==> st.recordings[i] != st.recordings[j]
  }

  predicate RequestsOk(st: State) {
    forall r :: r in st.requests ==> JoinOk(st, st.requests[r]) && EndOk(st, st.requests[r])
  }

  predicate Inv(st: State) {
    RowsOk(st) && RequestsOk(st) && OneJoinPerInvite(st) && OneRecordingPerSession(st)
  }

  // ---------------------------------------------------------------- one step

  predicate Forward(before: Status, after: Status) {
    before == after || (before == Pending && after == Active) || (before == Active && after == Completed)
  }

  /** What one step can do to the rows and the recordings. */
  predicate Moves(st: State, st': State) {
    && st.invites <= st'.invites && st.recordings <= st'.recordings
    && (forall s :: s in st.rows ==>
          && s in st'.rows && st'.rows[s].inviteHash == st.rows[s].inviteHash
          && st'.rows[s].tenantId == st.rows[s].tenantId
          && Forward(st.rows[s].status, st'.rows[s].status))
    && (forall s :: s in st'.rows && s !in st.rows ==> st'.rows[s].inviteHash !in st.invites)
  }

  /** A request that the step does not run stays right, if the recording started by the step, if any, is not
      for its invite. */
  lemma {:induction false} BystanderJoin(st: State, st': State, q: Request)
    requires Moves(st, st') && JoinOk(st, q) && RowsOk(st)
    requires Passed(q) ==> forall i :: |st.recordings| <= i < |st'.recordings| ==>
               st'.recordings[i] in st.rows && st.rows[st'.recordings[i]].inviteHash != q.hash
    ensures JoinOk(st', q)
  {
    if Passed(q) && !Recorded(q) {
      forall i | 0 <= i < |st'.recordings| && st'.recordings[i] in st'.rows
        ensures st'.rows[st'.recordings[i]].inviteHash != q.hash
      {
        if i < |st.recordings| {
          assert st'.recordings[i] == st.recordings[i];
        }
      }
    }
  }

  lemma {:induction false} BystanderEnd(st: State, st': State, q: Request)
    requires Moves(st, st') && EndOk(st, q)
    ensures EndOk(st', q)
  {
  }

  /** The shape of every step's proof: the tables move on, request r is right afterwards, and nobody else
      was moved. */
  lemma {:induction false} OthersKeep(st: State, st': State, r: nat)
    requires Inv(st) && Moves(st, st')
    requires st'.recordings == st.recordings
    requires forall t :: t in st'.requests && t != r ==> t in st.requests && st'.requests[t] == st.requests[t]
    requires r in st'.requests ==> JoinOk(st', st'.requests[r]) && EndOk(st', st'.requests[r])
    requires (r in st'.requests && Passed(st'.requests[r]) ==>
                forall t :: t in st.requests && t != r && Passed(st.requests[t]) ==>
                  st.requests[t].hash != st'.requests[r].hash)
    ensures RequestsOk(st') && OneJoinPerInvite(st') && OneRecordingPerSession(st')
  {
    forall t | t in st'.requests && t != r ensures JoinOk(st', st'.requests[t]) && EndOk(st', st'.requests[t]) {
      BystanderJoin(st, st', st.requests[t]);
      BystanderEnd(st, st', st.requests[t]);
    }
    hide JoinOk, EndOk, Moves, RowsOk;
  }

  /** Rows that keep their identity and move forward keep the table right. */
  lemma {:induction false} RowsMove(st: State, st': State)
    requires RowsOk(st)
    requires st'.recordings == st.recordings && st'.invites == st.invites && st'.rows.Keys == st.rows.Keys
    requires forall s :: s in st.rows ==> (
               && st'.rows[s].inviteHash == st.rows[s].inviteHash && st'.rows[s].tenantId == st.rows[s].tenantId
               && Forward(st.rows[s].status, st'.rows[s].status)
               && (st'.rows[s].egressId == st.rows[s].egressId || EgressOf(st, st'.rows[s].egressId, s)))
    ensures RowsOk(st') && Moves(st, st')
  {
    assert forall s :: s in st'.rows ==> s in st.rows;
    forall s | s in st'.rows ensures st'.rows[s].inviteHash in st'.invites && EgressOf(st', st'.rows[s].egressId, s) {
      assert EgressOf(st, st.rows[s].egressId, s);
    }
    forall s, t | s in st'.rows && t in st'.rows && st'.rows[s].inviteHash == st'.rows[t].inviteHash ensures s == t {
      assert st.rows[s].inviteHash == st.rows[t].inviteHash;
    }
  }

  /** The claim: among several requests for one invite only one finds the row PENDING. */
  lemma {:induction false} ClaimKeepsInv(st: State, r: nat, now: int)
    requires Inv(st) && r in st.requests && st.requests[r].Join? && st.requests[r].at.Asking?
    ensures var st' := JoinStatement(st, r, st.requests[r], now, ""); Inv(st') && Moves(st, st')
  {
    var q := st.requests[r];
    var st' := JoinStatement(st, r, q, now, "");
    RowsMove(st, st');
    ClaimIsFirst(st, r, now);
    assert EndOk(st', st'.requests[r]);
    hide JoinOk, EgressOf, RowsOk, Flipped, Matching, Moves, EndOk;
    OthersKeep(st, st', r);
  }

  lemma {:induction false} ClaimIsFirst(st: State, r: nat, now: int)
    requires Inv(st) && r in st.requests && st.requests[r].Join? && st.requests[r].at.Asking?
    ensures var st' := JoinStatement(st, r, st.requests[r], now, "");
            && JoinOk(st', st'.requests[r])
            && (Passed(st'.requests[r]) ==>
                  forall t :: t in st.requests && t != r && Passed(st.requests[t]) ==>
                    st.requests[t].hash != st.requests[r].hash)
  {
    var q := st.requests[r];
    var m := Matching(st.rows, q.hash, now);
    if |m| == 1 {
      var s :| s in m;
      assert s in st.rows && Claimable(st.rows[s], q.hash, now);
      assert forall x :: x in st.rows && st.rows[x].inviteHash == q.hash ==> x == s;
      forall t | t in st.requests && t != r && Passed(st.requests[t]) ensures st.requests[t].hash != q.hash {
        assert JoinOk(st, st.requests[t]);
      }
    }
  }

  lemma {:induction false} RecordKeepsInv(st: State, r: nat)
    requires Inv(st) && r in st.requests && st.requests[r].Join? && st.requests[r].at.Greeted?
    ensures var st' := JoinStatement(st, r, st.requests[r], 0, ""); Inv(st') && Moves(st, st')
  {
    var q := st.requests[r];
    var s := q.at.s;
    assert JoinOk(st, q);
    var st' := JoinStatement(st, r, q, 0, "");
    assert st'.recordings == st.recordings + [s] && Moves(st, st');
    forall t | t in st.requests && t != r ensures JoinOk(st', st'.requests[t]) && EndOk(st', st'.requests[t]) {
      assert Passed(st.requests[t]) ==> st.requests[t].hash != q.hash;
      BystanderJoin(st, st', st.requests[t]);
      BystanderEnd(st, st', st.requests[t]);
    }
    assert JoinOk(st', st'.requests[r]);
    assert RowsOk(st') by {
      forall x | x in st'.rows ensures EgressOf(st', st'.rows[x].egressId, x) {
        assert EgressOf(st, st.rows[x].egressId, x);
      }
    }
    hide JoinOk, EndOk, Moves;
  }

  lemma {:induction false} JoinKeepsInv(st: State, r: nat, now: int, found: Id)
    requires Inv(st) && r in st.requests && st.requests[r].Join?
    ensures var st' := JoinStatement(st, r, st.requests[r], now, found); Inv(st') && Moves(st, st')
  {
    var q := st.requests[r];
    if q.at.Asking? {
      ClaimKeepsInv(st, r, now);
      hide *;
    } else if q.at.Greeted? {
      RecordKeepsInv(st, r);
      hide *;
    } else {
      LaterJoinKeepsInv(st, r, now, found);
      hide *;
    }
  }

  /** A statement that leaves the tables alone and moves one request on. */
  lemma {:induction false} QuietStep(st: State, r: nat, q: Request, audit: seq<Event>, stopped: set<nat>)
    requires Inv(st) && r in st.requests && JoinOk(st, q) && EndOk(st, q)
    requires Passed(q) ==> Passed(st.requests[r]) && q.hash == st.requests[r].hash
    ensures var st' := At(st.(audit := audit, stopped := stopped), r, q); Inv(st') && Moves(st, st')
  {
    var st' := At(st.(audit := audit, stopped := stopped), r, q);
    assert Moves(st, st');
    assert JoinOk(st', q) && EndOk(st', q);
    hide JoinOk, EndOk, Moves;
    OthersKeep(st, st', r);
  }

  lemma {:induction false} LaterJoinOk(st: State, r: nat, now: int, found: Id)
    requires r in st.requests && st.requests[r].Join? && JoinOk(st, st.requests[r])
    requires !st.requests[r].at.Asking? && !st.requests[r].at.Greeted? && !st.requests[r].at.Recording?
    ensures var q, st' := st.requests[r], JoinStatement(st, r, st.requests[r], now, found);
            && r in st'.requests && st'.requests[r].Join? && JoinOk(st, st'.requests[r])
            && (Passed(st'.requests[r]) ==> Passed(q) && st'.requests[r].hash == q.hash)
            && st' == At(st.(audit := st'.audit), r, st'.requests[r])
  {
    hide Flipped, Matching, Unrecorded;
  }

  lemma {:induction false} LaterJoinKeepsInv(st: State, r: nat, now: int, found: Id)
    requires Inv(st) && r in st.requests && st.requests[r].Join?
    requires !st.requests[r].at.Asking? && !st.requests[r].at.Greeted?
    ensures var st' := JoinStatement(st, r, st.requests[r], now, found); Inv(st') && Moves(st, st')
  {
    if st.requests[r].at.Recording? {
      SaveKeepsInv(st, r);
      hide Inv, Moves;
    } else {
      assert JoinOk(st, st.requests[r]);
      LaterJoinOk(st, r, now, found);
      hide Inv, Moves, JoinOk, JoinStatement, At;
      var st' := JoinStatement(st, r, st.requests[r], now, found);
      QuietStep(st, r, st'.requests[r], st'.audit, st.stopped);
      assert st.(audit := st'.audit, stopped := st.stopped) == st.(audit := st'.audit);
    }
  }

  lemma {:induction false} SaveKeepsInv(st: State, r: nat)
    requires Inv(st) && r in st.requests && st.requests[r].Join? && st.requests[r].at.Recording?
    ensures var st' := JoinStatement(st, r, st.requests[r], 0, ""); Inv(st') && Moves(st, st')
  {
    var q := st.requests[r];
    var st' := JoinStatement(st, r, q, 0, "");
    assert JoinOk(st, q);
    RowsMove(st, st');
    assert JoinOk(st', st'.requests[r]) && EndOk(st', st'.requests[r]);
    hide JoinOk, EndOk, Moves, RowsOk;
    OthersKeep(st, st', r);
  }

  lemma {:induction false} CloseKeepsInv(st: State, r: nat, row: Session)
    requires Inv(st) && r in st.requests && HasRow(st.requests[r]) && st.requests[r].until.row == row
    ensures var st' := Close(st, r, st.requests[r], row); Inv(st') && Moves(st, st')
  {
    var q := st.requests[r];
    var st' := Close(st, r, q, row);
    assert EndOk(st, q);
    RowsMove(st, st');
    assert JoinOk(st', st'.requests[r]) && EndOk(st', st'.requests[r]);
    hide JoinOk, EndOk, Moves, RowsOk;
    OthersKeep(st, st', r);
  }

  lemma {:induction false} EndKeepsInv(st: State, r: nat)
    requires Inv(st) && r in st.requests && st.requests[r].End?
    ensures var st' := EndStatement(st, r, st.requests[r]); Inv(st') && Moves(st, st')
  {
    var q := st.requests[r];
    var st' := EndStatement(st, r, q);
    assert EndOk(st, q);
    if q.until.StopNoted? || (q.until.Checked? && q.until.row.egressId.None?) {
      CloseKeepsInv(st, r, q.until.row);
    } else {
      assert EndOk(st, st'.requests[r]);
      QuietStep(st, r, st'.requests[r], st'.audit, st'.stopped);
      assert st' == At(st.(audit := st'.audit, stopped := st'.stopped), r, st'.requests[r]);
    }
    hide *;
  }

  lemma {:induction false} DeadKeepsInv(st: State, r: nat)
    requires Inv(st) && r in st.requests
    ensures Inv(Dead(st, r)) && Moves(st, Dead(st, r))
  {
    var q, st' := st.requests[r], Dead(st, r);
    assert JoinOk(st, q) && EndOk(st, q);
    assert Moves(st, st');
    OthersKeep(st, st', r);
  }

  lemma {:induction false} StatementKeepsInv(st: State, r: nat, now: int, found: Id)
    requires Inv(st) && r in st.requests
    ensures var st' := Statement(st, r, now, found); Inv(st') && Moves(st, st')
  {
    var q := st.requests[r];
    assert Moves(st, st);
    hide Inv, Moves, JoinStatement, EndStatement;
    if q.Join? {
      JoinKeepsInv(st, r, now, found);
    } else {
      EndKeepsInv(st, r);
    }
  }

  lemma {:induction false} StatementKeepsRequest(st: State, r: nat, now: int, found: Id)
    requires r in st.requests
    ensures r in Statement(st, r, now, found).requests
  {
    hide Flipped, Matching;
  }

  lemma {:induction false} CreateKeepsRows(st: State, s: Id, row: Session)
    requires RowsOk(st)
    ensures var st' := Step(st, Create(s, row)); RowsOk(st') && Moves(st, st')
  {
  }

  lemma {:induction false} CreateKeepsInv(st: State, s: Id, row: Session)
    requires Inv(st)
    ensures var st' := Step(st, Create(s, row)); Inv(st') && Moves(st, st')
  {
    var st' := Step(st, Create(s, row));
    CreateKeepsRows(st, s, row);
    hide RowsOk, Moves, JoinOk, EndOk;
    forall t | t in st'.requests ensures JoinOk(st', st'.requests[t]) && EndOk(st', st'.requests[t]) {
      BystanderJoin(st, st', st.requests[t]);
      BystanderEnd(st, st', st.requests[t]);
    }
  }

  lemma {:induction false} AskKeepsInv(st: State, r: nat, q: Request)
    requires Inv(st) && r !in st.requests
    requires q.Join? ==> q.at.Asking?
    requires q.End? ==> q.until.Requested?
    ensures Inv(At(st, r, q)) && Moves(st, At(st, r, q))
  {
    assert Moves(st, At(st, r, q));
    OthersKeep(st, At(st, r, q), r);
  }

  lemma {:induction false} ThrowKeepsInv(st: State, r: nat, applied: bool, now: int, found: Id)
    requires Inv(st) && r in st.requests
    ensures var st' := Step(st, Throw(r, applied, now, found)); Inv(st') && Moves(st, st')
  {
    StatementKeepsInv(st, r, now, found);
    StatementKeepsRequest(st, r, now, found);
    var mid := if applied then Statement(st, r, now, found) else st;
    hide Statement;
    DeadKeepsInv(mid, r);
    assert Moves(st, Dead(mid, r));
    hide Inv, Moves;
  }

  lemma {:induction false} StepKeepsInv(st: State, a: Action)
    requires Inv(st)
    ensures Inv(Step(st, a)) && Moves(st, Step(st, a))
  {
    assert Moves(st, st);
    hide Inv, Moves, Statement;
    match a
    case Create(s, row) => CreateKeepsInv(st, s, row);
    case AskJoin(r, hash) =>
      if r !in st.requests {
        AskKeepsInv(st, r, Join(hash, Asking, true));
      }
    case AskEnd(r, tenantId, s) =>
      if r !in st.requests {
        AskKeepsInv(st, r, End(tenantId, s, Requested, true));
      }
    case Proceed(r, now, found) =>
      if r in st.requests {
        StatementKeepsInv(st, r, now, found);
      }
    case Throw(r, applied, now, found) =>
      if r in st.requests {
        ThrowKeepsInv(st, r, applied, now, found);
      }
  }

  lemma {:induction false} RunKeepsInv(st: State, actions: seq<Action>)
    requires Inv(st)
    ensures Inv(Run(st, actions))
  {
    hide Step, Inv;
    if actions != [] {
      RunKeepsInv(st, actions[..|actions| - 1]);
      StepKeepsInv(Run(st, actions[..|actions| - 1]), actions[|actions| - 1]);
    }
  }

  ghost predicate Reachable(st: State) {
    exists actions :: st == Run(START, actions)
  }

  lemma {:induction false} ReachableInv(st: State)
    requires Reachable(st)
    ensures Inv(st)
  {
    var actions :| st == Run(START, actions);
    assert Inv(START);
    RunKeepsInv(START, actions);
  }

  // ---------------------------------------------------------------- safety over every run

  /** However many requests race for one invite, at most one gets past the claim, now or ever. */
  lemma {:induction false} AtMostOneJoinSucceeds(st: State, r: nat, t: nat)
    requires Reachable(st) && r in st.requests && t in st.requests
    requires Passed(st.requests[r]) && Passed(st.requests[t]) && st.requests[r].hash == st.requests[t].hash
    ensures r == t
  {
    ReachableInv(st);
  }

  lemma {:induction false} AtMostOneRecording(st: State, i: nat, j: nat)
    requires Reachable(st) && i < |st.recordings| && j < |st.recordings| && st.recordings[i] == st.recordings[j]
    ensures i == j && st.recordings[i] in st.rows && !st.rows[st.recordings[i]].status.Pending?
  {
    ReachableInv(st);
  }

  // ---------------------------------------------------------------- who makes a session ACTIVE, and when

  /** The action runs the conditional update of a join for this row's invite, and the invite has not expired. */
  predicate ClaimsInTime(st: State, a: Action, row: Session) {
    && (a.Proceed? || (a.Throw? && a.applied)) && a.r in st.requests
    && var q := st.requests[a.r];
    && q.Join? && q.live && q.at.Asking? && q.hash == row.inviteHash && a.now < row.inviteExpiresAt
  }

  /** A row keeps its invite, and stops being PENDING only by such an update, which makes it ACTIVE. */
  predicate KeptOrClaimed(st: State, a: Action, before: Session, after: Session) {
    && after.inviteHash == before.inviteHash && after.inviteExpiresAt == before.inviteExpiresAt
    && (before.status == Pending && after.status != Pending ==> after.status == Active && ClaimsInTime(st, a, before))
  }

  lemma {:induction false} JoinActivates(st: State, a: Action, s: Id)
    requires (a.Proceed? || (a.Throw? && a.applied)) && a.r in st.requests && s in st.rows
    requires st.requests[a.r].Join? && st.requests[a.r].live
    ensures var st' := JoinStatement(st, a.r, st.requests[a.r], a.now, a.found);
            s in st'.rows && KeptOrClaimed(st, a, st.rows[s], st'.rows[s])
  {
    hide Matching;
  }

  lemma {:induction false} EndActivatesNothing(st: State, r: nat, s: Id)
    requires r in st.requests && s in st.rows && st.requests[r].End? && EndOk(st, st.requests[r])
    ensures var st' := EndStatement(st, r, st.requests[r]);
            && s in st'.rows && st'.rows[s].inviteHash == st.rows[s].inviteHash
            && st'.rows[s].inviteExpiresAt == st.rows[s].inviteExpiresAt
            && (st.rows[s].status == Pending ==> st'.rows[s].status == Pending)
  {
    hide EgressOf;
  }

  lemma {:induction false} StatementActivates(st: State, a: Action, s: Id)
    requires Inv(st) && (a.Proceed? || (a.Throw? && a.applied)) && a.r in st.requests && s in st.rows
    ensures var st' := Statement(st, a.r, a.now, a.found);
            s in st'.rows && KeptOrClaimed(st, a, st.rows[s], st'.rows[s])
  {
    assert EndOk(st, st.requests[a.r]);
    hide Inv, EndOk, JoinStatement, EndStatement;
    if st.requests[a.r].live {
      if st.requests[a.r].Join? {
        JoinActivates(st, a, s);
      } else {
        EndActivatesNothing(st, a.r, s);
      }
    }
  }

  /** One step of any run: a row that is not PENDING any more was claimed by a join of its own invite before it expired;
      a new row is PENDING. */
  lemma {:induction false} OnlyJoinsActivate(st: State, a: Action, s: Id)
    requires Reachable(st) && s in Step(st, a).rows
    ensures if s in st.rows then KeptOrClaimed(st, a, st.rows[s], Step(st, a).rows[s])
            else Step(st, a).rows[s].status == Pending
  {
    ReachableInv(st);
    if (a.Proceed? || a.Throw?) && a.r in st.requests {
      StatementKeepsInv(st, a.r, a.now, a.found);
      StatementRows(st, a, s);
    }
    hide Statement, Inv, Reachable;
  }

  lemma {:induction false} StatementRows(st: State, a: Action, s: Id)
    requires Inv(st) && (a.Proceed? || a.Throw?) && a.r in st.requests
    ensures var st' := Statement(st, a.r, a.now, a.found);
            && (s in st'.rows <==> s in st.rows)
            && (s in st.rows && (a.Proceed? || a.applied) ==> KeptOrClaimed(st, a, st.rows[s], st'.rows[s]))
  {
    if s in st.rows && (a.Proceed? || a.applied) {
      StatementActivates(st, a, s);
      hide Statement, Inv, KeptOrClaimed;
    } else {
      hide Inv, Matching;
    }
  }

  /** So every session of a run that is not PENDING was claimed at some moment of it, while it was PENDING, by a join of
      its invite and before that expired. */
  lemma {:induction false} ClaimedInTime(actions: seq<Action>, s: Id) returns (m: nat)
    requires s in Run(START, actions).rows && Run(START, actions).rows[s].status != Pending
    ensures m < |actions|
    ensures var st, row := Run(START, actions[..m]), Run(START, actions).rows[s];
            && s in st.rows && st.rows[s].status == Pending && st.rows[s].inviteHash == row.inviteHash
            && ClaimsInTime(st, actions[m], row)
    decreases |actions|
  {
    var init, last := actions[..|actions| - 1], actions[|actions| - 1];
    var before := Run(START, init);
    assert Reachable(before);
    OnlyJoinsActivate(before, last, s);
    hide Step, Reachable;
    if before.rows[s].status == Pending {
      m := |init|;
    } else {
      m := ClaimedInTime(init, s);
      assert actions[..m] == init[..m];
    }
    hide Run;
  }

  /** Some row can be claimed with this invite: it is PENDING and has not expired. */
  predicate Open(rows: map<Id, Session>, hash: string, now: int) {
    exists s :: s in rows && rows[s].inviteHash == hash && rows[s].status == Pending && now < rows[s].inviteExpiresAt
  }

  lemma {:induction false} OneMatchIff(rows: map<Id, Session>, hash: string, now: int)
    requires DistinctInvites(rows)
    ensures |Matching(rows, hash, now)| == 1 <==> Open(rows, hash, now)
  {
    var m := Matching(rows, hash, now);
    if Open(rows, hash, now) {
      var s :| s in rows && rows[s].inviteHash == hash && rows[s].status == Pending && now < rows[s].inviteExpiresAt;
      assert m == {s};
    } else {
      assert m == {};
    }
  }

  /** In any run a join gets past the claim if and only if some row was open for its invite just then. */
  lemma {:induction false} ClaimSucceedsIff(st: State, r: nat, now: int, found: Id)
    requires Reachable(st) && r in st.requests
    requires st.requests[r].Join? && st.requests[r].live && st.requests[r].at.Asking?
    ensures var st' := Step(st, Proceed(r, now, found));
            && r in st'.requests
            && (Passed(st'.requests[r]) <==> Open(st.rows, st.requests[r].hash, now))
            && (!Passed(st'.requests[r]) ==> st'.rows == st.rows)
  {
    ReachableInv(st);
    OneMatchIff(st.rows, st.requests[r].hash, now);
    MatchIsUnique(st.rows, st.requests[r].hash, now);
    hide Inv, Matching, Flipped, Reachable, Open, DistinctInvites;
  }

  function Rank(status: Status): nat {
    match status case Pending => 0 case Active => 1 case Completed => 2
  }

  /** No request, however stale its read, moves a session backwards or past ACTIVE in one step. */
  lemma {:induction false} StatusMovesForward(st: State, a: Action, s: Id)
    requires Reachable(st) && s in st.rows
    ensures s in Step(st, a).rows && Forward(st.rows[s].status, Step(st, a).rows[s].status)
  {
    ReachableInv(st);
    StepKeepsInv(st, a);
    hide Step, Inv;
  }

  lemma {:induction false} StatusNeverGoesBack(st: State, actions: seq<Action>, s: Id)
    requires Inv(st) && s in st.rows
    ensures s in Run(st, actions).rows && Rank(st.rows[s].status) <= Rank(Run(st, actions).rows[s].status)
  {
    hide Step, Inv;
    if actions != [] {
      StatusNeverGoesBack(st, actions[..|actions| - 1], s);
      RunKeepsInv(st, actions[..|actions| - 1]);
      StepKeepsInv(Run(st, actions[..|actions| - 1]), actions[|actions| - 1]);
    }
  }

  // ---------------------------------------------------------------- is the recording stopped?

  /** The egress that a request has stopped. */
  function StoppedBy(q: Request): Option<nat> {
    if HasRow(q) && !q.until.Checked? then q.until.row.egressId else None
  }

  predicate HasStopped(st: State, r: nat, e: nat) {
    r in st.requests && StoppedBy(st.requests[r]) == Some(e)
  }

  ghost predicate StopsOk(st: State) {
    && (forall r :: r in st.requests && StoppedBy(st.requests[r]).Some? ==>
        StoppedBy(st.requests[r]).value in st.stopped)
    && (forall e :: e in st.stopped ==> exists r :: HasStopped(st, r, e))
  }

  lemma {:induction false} StopsKept(st: State, st': State, r: nat, q: Request)
    requires StopsOk(st) && st'.requests == st.requests[r := q]
    requires r in st.requests && StoppedBy(st.requests[r]).Some? ==> StoppedBy(q) == StoppedBy(st.requests[r])
    requires st'.stopped == if StoppedBy(q).Some? then st.stopped + {StoppedBy(q).value} else st.stopped
    ensures StopsOk(st')
  {
    forall e | e in st'.stopped ensures exists t :: HasStopped(st', t, e) {
      if e in st.stopped {
        var t :| HasStopped(st, t, e);
        assert HasStopped(st', t, e);
      } else {
        assert HasStopped(st', r, e);
      }
    }
  }

  lemma {:induction false} JoinKeepsStops(st: State, r: nat, now: int, found: Id)
    requires StopsOk(st) && r in st.requests && st.requests[r].Join?
    ensures StopsOk(JoinStatement(st, r, st.requests[r], now, found))
  {
    var q, st' := st.requests[r], JoinStatement(st, r, st.requests[r], now, found);
    hide Flipped, Matching;
    assert r in st'.requests && st'.requests == st.requests[r := st'.requests[r]];
    assert st'.requests[r].Join? && st'.stopped == st.stopped;
    hide JoinStatement;
    StopsKept(st, st', r, st'.requests[r]);
  }

  lemma {:induction false} EndKeepsStops(st: State, r: nat)
    requires StopsOk(st) && r in st.requests && st.requests[r].End?
    ensures StopsOk(EndStatement(st, r, st.requests[r]))
  {
    var q, st' := st.requests[r], EndStatement(st, r, st.requests[r]);
    EndStops(st, r);
    assert StoppedBy(q).Some? ==> st.stopped == st.stopped + {StoppedBy(q).value};
    hide StopsOk, EndStatement, StoppedBy;
    StopsKept(st, st', r, st'.requests[r]);
  }

  lemma {:induction false} EndStops(st: State, r: nat)
    requires r in st.requests && st.requests[r].End?
    ensures var q, st' := st.requests[r], EndStatement(st, r, st.requests[r]);
            && r in st'.requests && st'.requests == st.requests[r := st'.requests[r]]
            && (StoppedBy(q).Some? ==> StoppedBy(st'.requests[r]) == StoppedBy(q) && st'.stopped == st.stopped)
            && (StoppedBy(q).None? ==>
                  var now := StoppedBy(st'.requests[r]);
                  st'.stopped == if now.Some? then st.stopped + {now.value} else st.stopped)
  {
    var q, st' := st.requests[r], EndStatement(st, r, st.requests[r]);
    assert st'.requests[r].End? && st'.requests == st.requests[r := st'.requests[r]];
  }

  lemma {:induction false} StatementKeepsStops(st: State, r: nat, now: int, found: Id)
    requires StopsOk(st) && r in st.requests
    ensures StopsOk(Statement(st, r, now, found))
  {
    hide StopsOk, JoinStatement, EndStatement;
    if st.requests[r].Join? {
      JoinKeepsStops(st, r, now, found);
    } else {
      EndKeepsStops(st, r);
    }
  }

  lemma {:induction false} StepKeepsStops(st: State, a: Action)
    requires StopsOk(st)
    ensures StopsOk(Step(st, a))
  {
    match a
    case Create(s, row) => assert forall r, e :: HasStopped(st, r, e) ==> HasStopped(Step(st, a), r, e);
    case AskJoin(r, hash) =>
      if r !in st.requests {
        StopsKept(st, Step(st, a), r, Join(hash, Asking, true));
      }
    case AskEnd(r, tenantId, s) =>
      if r !in st.requests {
        StopsKept(st, Step(st, a), r, End(tenantId, s, Requested, true));
      }
    case Proceed(r, now, found) =>
      if r in st.requests {
        StatementKeepsStops(st, r, now, found);
        hide *;
      }
    case Throw(r, applied, now, found) =>
      if r in st.requests {
        StatementKeepsStops(st, r, now, found);
        StatementKeepsRequest(st, r, now, found);
        hide Statement;
        var mid := if applied then Statement(st, r, now, found) else st;
        StopsKept(mid, Dead(mid, r), r, mid.requests[r].(live := false));
      }
  }

  lemma {:induction false} RunKeepsStops(st: State, actions: seq<Action>)
    requires StopsOk(st)
    ensures StopsOk(Run(st, actions))
  {
    hide Step, StopsOk;
    if actions != [] {
      RunKeepsStops(st, actions[..|actions| - 1]);
      StepKeepsStops(Run(st, actions[..|actions| - 1]), actions[|actions| - 1]);
    }
  }

  lemma {:induction false} ReachableStops(st: State)
    requires Reachable(st)
    ensures StopsOk(st)
  {
    var actions :| st == Run(START, actions);
    RunKeepsStops(START, actions);
  }

  /** A session's recording is stopped exactly if some end request read a row with its egress id and got on. */
  lemma {:induction false} StoppedIffSeen(st: State, e: nat)
    requires Reachable(st)
    ensures e in st.stopped <==> exists r :: HasStopped(st, r, e)
  {
    ReachableStops(st);
  }

  /** An end request of session s that read a row with an egress id and got past stopping it. */
  predicate SawEgress(st: State, t: nat, s: Id) {
    t in st.requests && st.requests[t].End? && st.requests[t].s == s && StoppedBy(st.requests[t]).Some?
  }

  /** COMPLETED does not mean that the recording stopped. Of a session that some end request closed the recording is
      stopped if and only if some end request of it, that one or another, read a row with an egress id and got on. */
  lemma {:induction false} ClosedSessionIsStoppedIff(st: State, r: nat, e: nat)
    requires Reachable(st) && r in st.requests && HasClosed(st.requests[r])
    requires e < |st.recordings| && st.recordings[e] == st.requests[r].s
    ensures st.requests[r].s in st.rows && st.rows[st.requests[r].s].status == Completed
    ensures e in st.stopped <==> exists t :: SawEgress(st, t, st.requests[r].s)
  {
    ReachableInv(st);
    StoppedIffSeen(st, e);
    var s := st.requests[r].s;
    assert EndOk(st, st.requests[r]);
    if e in st.stopped {
      var t :| HasStopped(st, t, e);
      assert EndOk(st, st.requests[t]);
      assert SawEgress(st, t, s);
    }
    if t :| SawEgress(st, t, s) {
      assert EndOk(st, st.requests[t]);
      assert HasStopped(st, t, e);
    }
  }

  // ---------------------------------------------------------------- requests made after the row settled

  /** What a session row can be known for once and for all. */
  datatype Fact = HasEgress(e: nat) | IsCompleted

  predicate Known(row: Session, fact: Fact) {
    match fact case HasEgress(e) => row.egressId == Some(e) case IsCompleted => row.status == Completed
  }

  /** Request r has not read its row yet, or read it when the fact was known. */
  predicate Settled(st: State, r: nat, s: Id, fact: Fact) {
    && s in st.rows && Known(st.rows[s], fact)
    && r in st.requests && Fated(st.requests[r], s, fact)
  }

  predicate Fated(q: Request, s: Id, fact: Fact) {
    q.End? && q.s == s && (HasRow(q) ==> Known(q.until.row, fact))
  }

  lemma {:induction false} JoinKeepsFact(st: State, r: nat, now: int, found: Id, s: Id, fact: Fact)
    requires Inv(st) && s in st.rows && Known(st.rows[s], fact) && r in st.requests && st.requests[r].Join?
    ensures var st' := JoinStatement(st, r, st.requests[r], now, found); s in st'.rows && Known(st'.rows[s], fact)
  {
    var q := st.requests[r];
    assert JoinOk(st, q) && EgressOf(st, st.rows[s].egressId, s);
    assert q.at.Recording? && q.at.s == s && st.rows[s].egressId.Some? ==> st.rows[s].egressId == Some(q.at.e);
    hide Matching, JoinOk, EgressOf, Inv;
  }

  lemma {:induction false} EndKeepsFact(st: State, r: nat, s: Id, fact: Fact)
    requires s in st.rows && Known(st.rows[s], fact) && r in st.requests && st.requests[r].End?
    ensures var st' := EndStatement(st, r, st.requests[r]); s in st'.rows && Known(st'.rows[s], fact)
  {
  }

  lemma {:induction false} StatementKeepsFact(st: State, r: nat, now: int, found: Id, s: Id, fact: Fact)
    requires Inv(st) && s in st.rows && Known(st.rows[s], fact) && r in st.requests
    ensures s in Statement(st, r, now, found).rows && Known(Statement(st, r, now, found).rows[s], fact)
  {
    hide Inv, Known, JoinStatement, EndStatement;
    if st.requests[r].Join? {
      JoinKeepsFact(st, r, now, found, s, fact);
    } else {
      EndKeepsFact(st, r, s, fact);
    }
  }

  lemma {:induction false} StatementKeepsFate(st: State, t: nat, now: int, found: Id, r: nat, s: Id, fact: Fact)
    requires Settled(st, r, s, fact) && t in st.requests
    ensures r in Statement(st, t, now, found).requests && Fated(Statement(st, t, now, found).requests[r], s, fact)
  {
    hide Flipped, Matching;
    if t == r {
      hide JoinStatement;
    }
  }

  lemma {:induction false} StepKeepsSettled(st: State, a: Action, r: nat, s: Id, fact: Fact)
    requires Inv(st) && Settled(st, r, s, fact)
    ensures Settled(Step(st, a), r, s, fact)
  {
    if (a.Proceed? || a.Throw?) && a.r in st.requests {
      StatementKeepsFact(st, a.r, a.now, a.found, s, fact);
      StatementKeepsFate(st, a.r, a.now, a.found, r, s, fact);
      StatementKeepsRequest(st, a.r, a.now, a.found);
    }
    hide Inv, Statement, Known;
  }

  lemma {:induction false} RunKeepsSettled(st: State, actions: seq<Action>, r: nat, s: Id, fact: Fact)
    requires Inv(st) && Settled(st, r, s, fact)
    ensures Inv(Run(st, actions)) && Settled(Run(st, actions), r, s, fact)
  {
    hide Step, Inv, Settled;
    if actions != [] {
      RunKeepsSettled(st, actions[..|actions| - 1], r, s, fact);
      StepKeepsInv(Run(st, actions[..|actions| - 1]), actions[|actions| - 1]);
      StepKeepsSettled(Run(st, actions[..|actions| - 1]), actions[|actions| - 1], r, s, fact);
    }
  }

  /** Ending a session once its join has stored the egress id stops the recording, whatever else goes on. */
  lemma {:induction false} EndAfterEgressStored(st: State, r: nat, tenantId: string, s: Id, e: nat,
                                                actions: seq<Action>)
    requires Reachable(st) && s in st.rows && st.rows[s].egressId == Some(e) && r !in st.requests
    ensures var st' := Run(Step(st, AskEnd(r, tenantId, s)), actions);
            && r in st'.requests
            && (HasClosed(st'.requests[r]) ==> e in st'.stopped && s in st'.rows && st'.rows[s].status == Completed)
  {
    ReachableInv(st);
    ReachableStops(st);
    var ask := AskEnd(r, tenantId, s);
    StepKeepsInv(st, ask);
    StepKeepsStops(st, ask);
    RunKeepsSettled(Step(st, ask), actions, r, s, HasEgress(e));
    RunKeepsStops(Step(st, ask), actions);
    var st' := Run(Step(st, ask), actions);
    assert EndOk(st', st'.requests[r]);
  }

  /** Ending a session that is already COMPLETED is refused, whatever else goes on. */
  lemma {:induction false} EndAfterCompletedIsRefused(st: State, r: nat, tenantId: string, s: Id, actions: seq<Action>)
    requires Reachable(st) && s in st.rows && st.rows[s].status == Completed && r !in st.requests
    ensures var st' := Run(Step(st, AskEnd(r, tenantId, s)), actions);
            r in st'.requests && st'.requests[r].End? && !HasRow(st'.requests[r])
  {
    ReachableInv(st);
    var ask := AskEnd(r, tenantId, s);
    StepKeepsInv(st, ask);
    RunKeepsSettled(Step(st, ask), actions, r, s, IsCompleted);
    var st' := Run(Step(st, ask), actions);
    assert EndOk(st', st'.requests[r]);
  }

  /** Request t, if it is one to end session s, has not read a row of it; and s is COMPLETED. */
  predicate TooLate(st: State, t: nat, s: Id) {
    && s in st.rows && st.rows[s].status == Completed
    && (t in st.requests && st.requests[t].End? && st.requests[t].s == s ==> !HasRow(st.requests[t]))
  }

  lemma {:induction false} StatementKeepsTooLate(st: State, r: nat, now: int, found: Id, t: nat, s: Id)
    requires Inv(st) && TooLate(st, t, s) && r in st.requests
    ensures TooLate(Statement(st, r, now, found), t, s)
  {
    StatementKeepsFact(st, r, now, found, s, IsCompleted);
    hide Inv, Flipped, Matching;
    if r == t && st.requests[t].End? {
      EndStatementTooLate(st, t, s);
    } else {
      OthersUntouched(st, r, now, found, t);
      hide Statement;
    }
  }

  lemma {:induction false} EndStatementTooLate(st: State, t: nat, s: Id)
    requires TooLate(st, t, s) && t in st.requests && st.requests[t].End?
    ensures var st' := EndStatement(st, t, st.requests[t]);
            t in st'.requests && (st'.requests[t].End? && st'.requests[t].s == s ==> !HasRow(st'.requests[t]))
  {
  }

  lemma {:induction false} OthersUntouched(st: State, r: nat, now: int, found: Id, t: nat)
    requires r in st.requests && (t != r || st.requests[r].Join?)
    ensures var st' := Statement(st, r, now, found);
            && (t in st'.requests <==> t in st.requests)
            && (t in st.requests && t != r ==> st'.requests[t] == st.requests[t])
            && (t == r ==> st'.requests[t].Join?)
  {
    hide Flipped, Matching;
  }

  lemma {:induction false} StepKeepsTooLate(st: State, a: Action, t: nat, s: Id)
    requires Inv(st) && TooLate(st, t, s)
    ensures TooLate(Step(st, a), t, s)
  {
    hide Inv, Statement;
    if (a.Proceed? || a.Throw?) && a.r in st.requests {
      StatementKeepsTooLate(st, a.r, a.now, a.found, t, s);
      StatementKeepsRequest(st, a.r, a.now, a.found);
    }
  }

  /** Request r is one to end session s and has read its row. */
  predicate ReadBy(st: State, r: nat, s: Id) {
    r in st.requests && HasRow(st.requests[r]) && st.requests[r].s == s
  }

  predicate ClosedBy(st: State, r: nat, s: Id) {
    ReadBy(st, r, s) && HasClosed(st.requests[r])
  }

  predicate OpenFor(st: State, r: nat, s: Id) {
    ReadBy(st, r, s) && !HasClosed(st.requests[r])
  }

  lemma {:induction false} ClosingStatement(st: State, r: nat, now: int, found: Id, s: Id)
    requires r in st.requests && ClosedBy(Statement(st, r, now, found), r, s)
    ensures ReadBy(st, r, s)
  {
    if st.requests[r].Join? {
      OthersUntouched(st, r, now, found, r);
      hide Statement;
    }
  }

  /** A request closes a session that it has read, and no other request moves. */
  lemma {:induction false} ClosingStep(st: State, a: Action, r: nat, t: nat, s: Id)
    requires r != t && !ClosedBy(st, r, s) && ClosedBy(Step(st, a), r, s)
    ensures OpenFor(st, r, s)
    ensures t in Step(st, a).requests <==> t in st.requests
    ensures t in st.requests ==> Step(st, a).requests[t] == st.requests[t]
  {
    hide Statement;
    if (a.Proceed? || a.Throw?) && a.r in st.requests {
      StatementKeepsRequest(st, a.r, a.now, a.found);
      OthersUntouched(st, a.r, a.now, a.found, if a.r == r then t else r);
      if a.r == r && ClosedBy(Statement(st, r, a.now, a.found), r, s) {
        ClosingStatement(st, r, a.now, a.found, s);
      }
    }
  }

  /** Two end requests of which one has closed the session and the other has read its row: there was a moment when both
      had read it and neither had closed it. */
  lemma {:induction false} BothReadBeforeEitherCloses(actions: seq<Action>, r: nat, t: nat, s: Id) returns (m: nat)
    requires r != t && ClosedBy(Run(START, actions), r, s) && ReadBy(Run(START, actions), t, s)
    ensures m <= |actions|
    ensures var st := Run(START, actions[..m]); OpenFor(st, r, s) && OpenFor(st, t, s)
    decreases |actions|
  {
    var init, last := actions[..|actions| - 1], actions[|actions| - 1];
    var before := Run(START, init);
    RunKeepsInv(START, init);
    if !ClosedBy(before, r, s) {
      ClosingStep(before, last, r, t, s);
      hide Step, Inv, Run;
      if ClosedBy(before, t, s) {
        m := BothReadBeforeEitherCloses(init, t, r, s);
        assert actions[..m] == init[..m];
      } else {
        m := |init|;
      }
    } else {
      if !ReadBy(before, t, s) {
        assert EndOk(before, before.requests[r]);
        StepKeepsTooLate(before, last, t, s);
      }
      hide Step, Inv, Run;
      m := BothReadBeforeEitherCloses(init, r, t, s);
      assert actions[..m] == init[..m];
    }
  }

  // ---------------------------------------------------------------- how often a session is ended

  function EndsOf(audit: seq<Event>, s: Id): nat {
    if audit == [] then 0
    else EndsOf(audit[..|audit| - 1], s) + if audit[|audit| - 1] == SessionEnded(s) then 1 else 0
  }

  lemma {:induction false} EndsOfAppend(audit: seq<Event>, e: Event, s: Id)
    ensures EndsOf(audit + [e], s) == EndsOf(audit, s) + if e == SessionEnded(s) then 1 else 0
  {
    assert (audit + [e])[..|audit|] == audit;
  }

  predicate IsDone(q: Request, s: Id) {
    q.End? && q.s == s && q.until.Done?
  }

  function DoneFor(st: State, s: Id): set<nat> {
    set r | r in st.requests && IsDone(st.requests[r], s)
  }

  predicate EndsCounted(st: State, s: Id) {
    EndsOf(st.audit, s) == |DoneFor(st, s)|
  }

  /** One request moves on and at most one event is noted. */
  lemma {:induction false} CountKept(st: State, st': State, r: nat, q: Request, s: Id)
    requires EndsCounted(st, s) && st'.requests == st.requests[r := q]
    requires var was := r in st.requests && IsDone(st.requests[r], s);
             && (was ==> IsDone(q, s))
             && EndsOf(st'.audit, s) == EndsOf(st.audit, s) + if IsDone(q, s) && !was then 1 else 0
    ensures EndsCounted(st', s)
  {
    hide EndsOf;
    if IsDone(q, s) {
      assert DoneFor(st', s) == DoneFor(st, s) + {r};
    } else {
      assert DoneFor(st', s) == DoneFor(st, s);
    }
  }

  lemma {:induction false} JoinKeepsCount(st: State, r: nat, now: int, found: Id, s: Id)
    requires EndsCounted(st, s) && r in st.requests && st.requests[r].Join?
    ensures EndsCounted(JoinStatement(st, r, st.requests[r], now, found), s)
  {
    var q, st' := st.requests[r], JoinStatement(st, r, st.requests[r], now, found);
    hide EndsOf, DoneFor, Flipped, Matching;
    assert r in st'.requests && st'.requests == st.requests[r := st'.requests[r]] && st'.requests[r].Join?;
    if q.at.Found? {
      EndsOfAppend(st.audit, CandidateJoined(q.at.s), s);
    } else if q.at.Saved? {
      EndsOfAppend(st.audit, RecordingStarted(q.at.s), s);
    }
    assert EndsOf(st'.audit, s) == EndsOf(st.audit, s);
    hide JoinStatement, EndsCounted;
    CountKept(st, st', r, st'.requests[r], s);
  }

  /** A statement of an end request moves its own row of the requests only, and the last one notes the end. */
  predicate OnlyLastNotes(st: State, st': State, r: nat, s: Id)
    requires r in st.requests
  {
    && r in st'.requests && st'.requests == st.requests[r := st'.requests[r]]
    && (IsDone(st.requests[r], s) ==> IsDone(st'.requests[r], s))
    && EndsOf(st'.audit, s)
       == EndsOf(st.audit, s) + if IsDone(st'.requests[r], s) && !IsDone(st.requests[r], s) then 1 else 0
  }

  lemma {:induction false} EndNotes(st: State, r: nat, s: Id)
    requires r in st.requests && st.requests[r].End?
    ensures OnlyLastNotes(st, EndStatement(st, r, st.requests[r]), r, s)
  {
    var q := st.requests[r];
    hide EndsOf;
    match q.until
    case Stopped(_) => EndsOfAppend(st.audit, RecordingCompleted(q.s), s);
    case Closed(_) => EndsOfAppend(st.audit, SessionEnded(q.s), s);
    case _ =>
      assert st.requests == st.requests[r := q];
      assert EndStatement(st, r, q).audit == st.audit;
  }

  lemma {:induction false} EndKeepsCount(st: State, r: nat, s: Id)
    requires EndsCounted(st, s) && r in st.requests && st.requests[r].End?
    ensures EndsCounted(EndStatement(st, r, st.requests[r]), s)
  {
    hide EndsOf, DoneFor, EndsCounted, EndStatement;
    EndNotes(st, r, s);
    var st' := EndStatement(st, r, st.requests[r]);
    CountKept(st, st', r, st'.requests[r], s);
  }

  lemma {:induction false} StepKeepsCount(st: State, a: Action, s: Id)
    requires EndsCounted(st, s)
    ensures EndsCounted(Step(st, a), s)
  {
    hide EndsOf, DoneFor, EndsCounted, JoinStatement, EndStatement;
    match a
    case Create(_, _) => SameCount(st, Step(st, a), s);
    case AskJoin(r, hash) =>
      if r !in st.requests {
        CountKept(st, Step(st, a), r, Join(hash, Asking, true), s);
      }
    case AskEnd(r, tenantId, x) =>
      if r !in st.requests {
        CountKept(st, Step(st, a), r, End(tenantId, x, Requested, true), s);
      }
    case Proceed(r, now, found) =>
      if r in st.requests {
        StatementKeepsCount(st, r, now, found, s);
        hide Statement;
      }
    case Throw(r, applied, now, found) =>
      if r in st.requests {
        StatementKeepsCount(st, r, now, found, s);
        StatementKeepsRequest(st, r, now, found);
        hide Statement;
        var mid := if applied then Statement(st, r, now, found) else st;
        CountKept(mid, Dead(mid, r), r, mid.requests[r].(live := false), s);
      }
  }

  lemma {:induction false} SameCount(st: State, st': State, s: Id)
    requires EndsCounted(st, s) && st'.requests == st.requests && st'.audit == st.audit
    ensures EndsCounted(st', s)
  {
    assert DoneFor(st', s) == DoneFor(st, s);
  }

  lemma {:induction false} StatementKeepsCount(st: State, r: nat, now: int, found: Id, s: Id)
    requires EndsCounted(st, s) && r in st.requests
    ensures EndsCounted(Statement(st, r, now, found), s)
  {
    hide EndsCounted, JoinStatement, EndStatement;
    if st.requests[r].Join? {
      JoinKeepsCount(st, r, now, found, s);
    } else {
      EndKeepsCount(st, r, s);
    }
  }

  lemma {:induction false} RunKeepsEnds(actions: seq<Action>, s: Id)
    ensures EndsCounted(Run(START, actions), s)
  {
    if actions == [] {
      assert DoneFor(START, s) == {};
    } else {
      hide Step, EndsCounted;
      RunKeepsEnds(actions[..|actions| - 1], s);
      StepKeepsCount(Run(START, actions[..|actions| - 1]), actions[|actions| - 1], s);
    }
  }

  /** A session is noted as ended exactly as often as end requests of it ran to the end. */
  lemma {:induction false} EndedOncePerRequest(st: State, s: Id)
    requires Reachable(st)
    ensures EndsOf(st.audit, s) == |DoneFor(st, s)|
  {
    var actions :| st == Run(START, actions);
    RunKeepsEnds(actions, s);
  }

  /** So a session is ended twice only by two requests that both read its row before either of them closed it. */
  lemma {:induction false} EndedTwice(actions: seq<Action>, s: Id) returns (m: nat, r: nat, t: nat)
    requires EndsOf(Run(START, actions).audit, s) >= 2
    ensures m <= |actions| && r != t
    ensures var st := Run(START, actions[..m]); OpenFor(st, r, s) && OpenFor(st, t, s)
  {
    var done := DoneFor(Run(START, actions), s);
    RunKeepsEnds(actions, s);
    r :| r in done;
    assert |done - {r}| >= 1;
    t :| t in done - {r};
    hide Run;
    m := BothReadBeforeEitherCloses(actions, r, t, s);
  }

  lemma {:induction false} ReachableStep(st: State, a: Action) returns (st': State)
    requires Reachable(st)
    ensures st' == Step(st, a) && Reachable(st')
  {
    st' := Step(st, a);
    var actions :| st == Run(START, actions);
    assert (actions + [a])[..|actions|] == actions;
    assert st' == Run(START, actions + [a]);
  }

  /** A session with one join that has claimed its invite and gone no further. */
  lemma {:induction false} ClaimedOnly(s: Id, row: Session, now: int) returns (st: State)
    requires row.status == Pending && row.egressId == None && row.inviteExpiresAt > now
    ensures Reachable(st)
    ensures st == State(map[s := row.(status := Active)], map[0 := Join(row.inviteHash, Claimed, true)],
                        {row.inviteHash}, [], {}, [])
  {
    assert START == Run(START, []);
    hide Reachable, EndStatement;
    st := ReachableStep(START, Create(s, row));
    st := ReachableStep(st, AskJoin(0, row.inviteHash));
    assert st == State(map[s := row], map[0 := Join(row.inviteHash, Asking, true)], {row.inviteHash}, [], {}, []);
    assert Matching(st.rows, row.inviteHash, now) == {s};
    assert Flipped(st.rows, row.inviteHash, now) == map[s := row.(status := Active)];
    hide Flipped, Matching;
    st := ReachableStep(st, Proceed(0, now, s));
  }

  function Ending(row: Session, s: Id, until: EndAt): Request {
    End(row.tenantId, s, until, true)
  }

  /** Two end requests read the row before either one writes it. */
  lemma {:induction false} BothRead(st0: State, s: Id, row: Session) returns (st: State)
    requires Reachable(st0) && row.status == Active && st0.rows == map[s := row] && 1 !in st0.requests
             && 2 !in st0.requests
    ensures Reachable(st)
    ensures st == st0.(requests := st0.requests[1 := Ending(row, s, Checked(row))][2 := Ending(row, s, Checked(row))])
  {
    hide Reachable, JoinStatement;
    st := ReachableStep(st0, AskEnd(1, row.tenantId, s));
    st := ReachableStep(st, AskEnd(2, row.tenantId, s));
    st := ReachableStep(st, Proceed(1, 0, s));
    assert st.requests[1] == Ending(row, s, Checked(row)) && st.requests[2] == Ending(row, s, Requested);
    st := ReachableStep(st, Proceed(2, 0, s));
  }

  /** Whatever the row is by now, an end request that checked it closes it. */
  lemma {:induction false} EndFinishes(st0: State, r: nat, s: Id, row: Session, current: Session) returns (st: State)
    requires Reachable(st0) && row.egressId == None && st0.rows == map[s := current]
    requires r in st0.requests && st0.requests[r] == Ending(row, s, Checked(row))
    ensures Reachable(st)
    ensures st == st0.(rows := map[s := current.(status := Completed)], audit := st0.audit + [SessionEnded(s)],
                       requests := st0.requests[r := Ending(row, s, Done(row))])
  {
    hide Reachable, JoinStatement;
    st := ReachableStep(st0, Proceed(r, 0, s));
    assert st == st0.(rows := map[s := current.(status := Completed)],
                      requests := st0.requests[r := Ending(row, s, Closed(row))]);
    st := ReachableStep(st, Proceed(r, 0, s));
  }

  lemma {:induction false} JoinFinishes(st0: State, s: Id, row: Session, hash: string) returns (st: State)
    requires Reachable(st0) && st0.rows == map[s := row] && row.inviteHash == hash && st0.recordings == []
    requires 0 in st0.requests && st0.requests[0] == Join(hash, Claimed, true)
    ensures Reachable(st)
    ensures st == st0.(rows := map[s := row.(egressId := Some(0))], recordings := [s],
                       audit := st0.audit + [CandidateJoined(s), RecordingStarted(s)],
                       requests := st0.requests[0 := Join(hash, Admitted(s, 0), true)])
  {
    hide Reachable, EndStatement;
    st := ReachableStep(st0, Proceed(0, 0, s));
    assert st == st0.(requests := st0.requests[0 := Join(hash, Found(s), true)]);
    st := ReachableStep(st, Proceed(0, 0, s));
    st := ReachableStep(st, Proceed(0, 0, s));
    assert st == st0.(recordings := [s], audit := st0.audit + [CandidateJoined(s)],
                      requests := st0.requests[0 := Join(hash, Recording(s, 0), true)]);
    st := ReachableStep(st, Proceed(0, 0, s));
    st := ReachableStep(st, Proceed(0, 0, s));
  }

  /** Both conditions matter. Two end requests that read an ACTIVE row without an egress id both run to the end,
      so the session is ended twice; the join then starts a recording that nobody stops. */
  lemma {:induction false} StaleEndsLeaveRecording(s: Id, row: Session, now: int) returns (st: State)
    requires row.status == Pending && row.egressId == None && row.inviteExpiresAt > now
    ensures Reachable(st) && s in st.rows && st.rows[s].status == Completed && st.recordings == [s] && st.stopped == {}
    ensures st.audit == [SessionEnded(s), SessionEnded(s), CandidateJoined(s), RecordingStarted(s)]
  {
    hide Reachable;
    var active, closed := row.(status := Active), row.(status := Completed);
    st := ClaimedOnly(s, row, now);
    st := BothRead(st, s, active);
    st := EndFinishes(st, 1, s, active, active);
    st := EndFinishes(st, 2, s, active, closed);
    st := JoinFinishes(st, s, closed, row.inviteHash);
  }

  // ---------------------------------------------------------------- one request without interruption

  datatype View = View(rows: map<Id, Session>, recordings: seq<Id>, stopped: set<nat>, audit: seq<Event>)

  function ViewOf(st: State): View {
    View(st.rows, st.recordings, st.stopped, st.audit)
  }

  /** Request r runs its next n statements with nobody in between. */
  function Alone(st: State, r: nat, n: nat, now: int, found: Id): State
    decreases n
  {
    if n == 0 then st else Alone(Step(st, Proceed(r, now, found)), r, n - 1, now, found)
  }

  /** What an uninterrupted join comes to; `found` is the row that findFirstOrThrow picks. */
  function JoinedView(v: View, hash: string, now: int, found: Id): View
    requires |Matching(v.rows, hash, now)| == 1 ==> found in v.rows && v.rows[found].inviteHash == hash
  {
    var rows := Flipped(v.rows, hash, now);
    if |Matching(v.rows, hash, now)| != 1 then v.(rows := rows)
    else v.(rows := rows[found := rows[found].(egressId := Some(|v.recordings|))],
            recordings := v.recordings + [found], audit := v.audit + [CandidateJoined(found), RecordingStarted(found)])
  }

  /** What an uninterrupted end comes to. */
  function EndedView(v: View, tenantId: string, s: Id): View {
    if s !in v.rows || v.rows[s].tenantId != tenantId || v.rows[s].status != Active then v
    else
      var egress := v.rows[s].egressId;
      View(v.rows[s := v.rows[s].(status := Completed)], v.recordings,
           if egress.Some? then v.stopped + {egress.value} else v.stopped,
           v.audit + (if egress.Some? then [RecordingCompleted(s)] else []) + [SessionEnded(s)])
  }

  /** At most one row can match, and if one does the update changes that row alone. */
  lemma {:induction false} MatchIsUnique(rows: map<Id, Session>, hash: string, now: int)
    requires DistinctInvites(rows)
    ensures Matching(rows, hash, now) == {} || exists s :: Matching(rows, hash, now) == {s}
    ensures Matching(rows, hash, now) == {} ==> Flipped(rows, hash, now) == rows
    ensures forall s :: Matching(rows, hash, now) == {s} ==>
            s in rows && Flipped(rows, hash, now) == rows[s := rows[s].(status := Active)]
  {
    var m := Matching(rows, hash, now);
    if m != {} {
      var s :| s in m;
      assert m == {s};
    }
    forall s | m == {s} ensures s in rows && Flipped(rows, hash, now) == rows[s := rows[s].(status := Active)] {
      assert s in m;
    }
  }

  /** With distinct invites a join finds the one row that is open for its invite and makes it ACTIVE, with the egress id
      of a new recording; if no row is open it changes nothing. */
  lemma {:induction false} JoinedViewIsExact(v: View, hash: string, now: int, found: Id)
    requires DistinctInvites(v.rows)
    requires |Matching(v.rows, hash, now)| == 1 ==> found in v.rows && v.rows[found].inviteHash == hash
    ensures !Open(v.rows, hash, now) ==> JoinedView(v, hash, now, found) == v
    ensures Open(v.rows, hash, now) ==> (
              && found in v.rows && v.rows[found].inviteHash == hash && v.rows[found].status == Pending
              && now < v.rows[found].inviteExpiresAt
              && JoinedView(v, hash, now, found)
                 == View(v.rows[found := v.rows[found].(status := Active, egressId := Some(|v.recordings|))],
                         v.recordings + [found], v.stopped,
                         v.audit + [CandidateJoined(found), RecordingStarted(found)]))
  {
    OneMatchIff(v.rows, hash, now);
    var claimed := TheClaimed(v.rows, hash, now);
    assert |Matching(v.rows, hash, now)| == 1 ==> claimed in Matching(v.rows, hash, now);
    hide Flipped, DistinctInvites, Open;
  }

  /** An end changes nothing unless it is asked for by the tenant of an ACTIVE session; then it completes the session,
      and stops the recording whose egress id the row has, if it has one. Each of the two is noted. */
  lemma {:induction false} EndedViewIsExact(v: View, tenantId: string, s: Id)
    ensures var after := EndedView(v, tenantId, s);
            var may := s in v.rows && v.rows[s].tenantId == tenantId && v.rows[s].status == Active;
            && after.recordings == v.recordings && after.rows.Keys == v.rows.Keys
            && (forall x :: x in v.rows ==>
                  after.rows[x] == if may && x == s then v.rows[x].(status := Completed) else v.rows[x])
            && (forall e :: e in after.stopped <==> e in v.stopped || (may && v.rows[s].egressId == Some(e)))
            && after.audit == v.audit + (if !may then [] else if v.rows[s].egressId.None? then [SessionEnded(s)]
                                         else [RecordingCompleted(s), SessionEnded(s)])
  {
  }

  /** Six statements of a join in a row. */
  lemma {:induction false} UninterruptedJoin(st: State, r: nat, hash: string, now: int, found: Id)
    requires r in st.requests && st.requests[r] == Join(hash, Asking, true)
    requires |Matching(st.rows, hash, now)| == 1 ==> found in st.rows && st.rows[found].inviteHash == hash
    ensures var st' := Alone(st, r, 6, now, found);
            && ViewOf(st') == JoinedView(ViewOf(st), hash, now, found)
            && r in st'.requests && (Passed(st'.requests[r]) <==> |Matching(st.rows, hash, now)| == 1)
  {
    hide EndStatement, Matching;
    var p := Proceed(r, now, found);
    var s1 := Step(st, p);
    if |Matching(st.rows, hash, now)| == 1 {
      assert s1 == At(st.(rows := Flipped(st.rows, hash, now)), r, Join(hash, Claimed, true));
      JoinRest(s1, r, hash, now, found);
      hide Step;
    } else {
      hide Flipped;
      assert s1 == At(st.(rows := Flipped(st.rows, hash, now)), r, Join(hash, Refused, true));
      assert Step(s1, p) == s1;
      AloneIdle(s1, r, 5, now, found);
    }
  }

  lemma {:induction false} AloneIdle(st: State, r: nat, n: nat, now: int, found: Id)
    requires Step(st, Proceed(r, now, found)) == st
    ensures Alone(st, r, n, now, found) == st
  {
    hide Step;
    if n > 0 {
      AloneIdle(st, r, n - 1, now, found);
    }
  }

  lemma {:induction false} JoinRest(st: State, r: nat, hash: string, now: int, s: Id)
    requires r in st.requests && st.requests[r] == Join(hash, Claimed, true) && s in st.rows
             && st.rows[s].inviteHash == hash
    ensures Alone(st, r, 5, now, s)
         == At(st.(rows := st.rows[s := st.rows[s].(egressId := Some(|st.recordings|))],
                   recordings := st.recordings + [s], audit := st.audit + [CandidateJoined(s), RecordingStarted(s)]),
               r, Join(hash, Admitted(s, |st.recordings|), true))
  {
    hide EndStatement;
    var p, e := Proceed(r, now, s), |st.recordings|;
    var s2 := Step(st, p);
    var s3 := Step(s2, p);
    assert s3 == At(st.(audit := st.audit + [CandidateJoined(s)]), r, Join(hash, Greeted(s), true));
    var s4 := Step(s3, p);
    var s5 := Step(s4, p);
    var s6 := Step(s5, p);
    assert s6.audit == st.audit + [CandidateJoined(s), RecordingStarted(s)];
    hide Step;
    assert Alone(st, r, 5, now, s) == Alone(s2, r, 4, now, s) == Alone(s3, r, 3, now, s);
    assert Alone(s3, r, 3, now, s) == Alone(s4, r, 2, now, s) == Alone(s5, r, 1, now, s) == Alone(s6, r, 0, now, s);
  }

  /** Five statements of an end in a row. */
  lemma {:induction false} UninterruptedEnd(st: State, r: nat, tenantId: string, s: Id, now: int)
    requires r in st.requests && st.requests[r] == End(tenantId, s, Requested, true)
    ensures var st' := Alone(st, r, 5, now, s);
            && ViewOf(st') == EndedView(ViewOf(st), tenantId, s)
            && r in st'.requests
            && (HasRow(st'.requests[r]) <==>
                s in st.rows && st.rows[s].tenantId == tenantId && st.rows[s].status == Active)
  {
    hide JoinStatement;
    var p := Proceed(r, now, s);
    var s1 := Step(st, p);
    if s1.requests[r].until.Rejected? {
      assert Step(s1, p) == s1;
      AloneIdle(s1, r, 4, now, s);
    } else if st.rows[s].egressId.Some? {
      EndRest(s1, r, tenantId, s, now);
    } else {
      EndRestUnrecorded(s1, r, tenantId, s, now);
    }
  }

  lemma {:induction false} EndRest(st: State, r: nat, tenantId: string, s: Id, now: int)
    requires r in st.requests && s in st.rows && st.rows[s].egressId.Some?
    requires st.requests[r] == End(tenantId, s, Checked(st.rows[s]), true)
    ensures var st' := Alone(st, r, 4, now, s);
            && r in st'.requests && HasRow(st'.requests[r])
            && ViewOf(st') == View(st.rows[s := st.rows[s].(status := Completed)], st.recordings,
                                   st.stopped + {st.rows[s].egressId.value},
                                   st.audit + [RecordingCompleted(s)] + [SessionEnded(s)])
  {
    hide JoinStatement;
    var p := Proceed(r, now, s);
    var s2 := Step(st, p);
    var s3 := Step(s2, p);
    var s4 := Step(s3, p);
    var s5 := Step(s4, p);
    assert s5.requests[r] == End(tenantId, s, Done(st.rows[s]), true);
    hide Step;
    assert Alone(st, r, 4, now, s) == Alone(s2, r, 3, now, s) == Alone(s3, r, 2, now, s);
    assert Alone(s3, r, 2, now, s) == Alone(s4, r, 1, now, s) == Alone(s5, r, 0, now, s);
  }

  lemma {:induction false} EndRestUnrecorded(st: State, r: nat, tenantId: string, s: Id, now: int)
    requires r in st.requests && s in st.rows && st.rows[s].egressId.None?
    requires st.requests[r] == End(tenantId, s, Checked(st.rows[s]), true)
    ensures var st' := Alone(st, r, 4, now, s);
            && r in st'.requests && HasRow(st'.requests[r])
            && ViewOf(st')
               == View(st.rows[s := st.rows[s].(status := Completed)], st.recordings, st.stopped,
                       st.audit + [SessionEnded(s)])
  {
    hide JoinStatement;
    var p := Proceed(r, now, s);
    var s2 := Step(st, p);
    var s3 := Step(s2, p);
    var s4 := Step(s3, p);
    assert s4 == s3
           && s3 == At(st.(rows := st.rows[s := st.rows[s].(status := Completed)],
                           audit := st.audit + [SessionEnded(s)]),
                       r, End(tenantId, s, Done(st.rows[s]), true));
    AloneIdle(s3, r, 2, now, s);
    hide Step;
    assert Alone(st, r, 4, now, s) == Alone(s2, r, 3, now, s) == Alone(s3, r, 2, now, s);
  }

  lemma {:induction false} TheClaimed(rows: map<Id, Session>, hash: string, now: int) returns (claimed: Id)
    requires DistinctInvites(rows)
    ensures |Matching(rows, hash, now)| != 1 ==> Matching(rows, hash, now) == {} && Flipped(rows, hash, now) == rows
    ensures |Matching(rows, hash, now)| == 1 ==> (
              && Matching(rows, hash, now) == {claimed}
              && claimed in rows && rows[claimed].inviteHash == hash
              && Flipped(rows, hash, now) == rows[claimed := rows[claimed].(status := Active)]
              && forall s :: s in rows && rows[s].inviteHash == hash ==> s == claimed)
  {
    MatchIsUnique(rows, hash, now);
    var m := Matching(rows, hash, now);
    if m != {} {
      claimed :| m == {claimed};
      assert claimed in m;
    } else {
      claimed := "";
    }
    hide Flipped;
  }

  lemma {:induction false} OneMatch(rows: map<Id, Session>, hash: string, now: int) returns (one: Id)
    ensures |Matching(rows, hash, now)| == 1 ==> one in rows && rows[one].inviteHash == hash
  {
    if |Matching(rows, hash, now)| == 1 {
      one :| one in Matching(rows, hash, now);
    } else {
      one := "";
    }
  }

  /** The two operations as the service runs them when nobody interferes. */
  class InterviewsService {
    var rows: map<Id, Session>
    var recordings: seq<Id>
    var stopped: set<nat>
    var audit: seq<Event>

    constructor (rows: map<Id, Session>)
      ensures Contents() == View(rows, [], {}, [])
    {
      this.rows, recordings, stopped, audit := rows, [], {}, [];
    }

    ghost function Contents(): View
      reads this
    {
      View(rows, recordings, stopped, audit)
    }

    /** `joinSession`; None is its BadRequest. */
    method JoinSession(hash: string, now: int) returns (r: Option<Id>)
      modifies this
      ensures DistinctInvites(old(rows)) ==>
                (r.Some? <==> Open(old(rows), hash, now)) && (r.None? ==> rows == old(rows))
      ensures r.Some? <==> |Matching(old(rows), hash, now)| == 1
      ensures r.Some? ==> r.value in old(rows) && old(rows)[r.value].inviteHash == hash
      ensures Contents() == JoinedView(old(Contents()), hash, now, if r.Some? then r.value else "")
    {
      var matching := Matching(rows, hash, now);
      ghost var one := OneMatch(rows, hash, now);
      if DistinctInvites(rows) {
        OneMatchIff(rows, hash, now);
        MatchIsUnique(rows, hash, now);
      }
      hide Matching, Open, DistinctInvites;
      var count := |matching|;
      rows := Flipped(rows, hash, now);
      if count != 1 {
        return None;
      }
      assert one in rows && rows[one].inviteHash == hash;
      var s :| s in rows && rows[s].inviteHash == hash;
      audit := audit + [CandidateJoined(s)];
      var egress := |recordings|;
      recordings := recordings + [s];
      rows := rows[s := rows[s].(egressId := Some(egress))];
      audit := audit + [RecordingStarted(s)];
      return Some(s);
    }

    /** `endSession`; None is its success. */
    method EndSession(tenantId: string, s: Id) returns (r: Option<Rejection>)
      modifies this
      ensures Contents() == EndedView(old(Contents()), tenantId, s)
      ensures r == if s !in old(rows) then Some(NotFound) else if old(rows)[s].tenantId != tenantId then Some(Forbidden)
                   else if old(rows)[s].status != Active then Some(BadStatus) else None
    {
      if s !in rows {
        return Some(NotFound);
      }
      var session := rows[s];
      if session.tenantId != tenantId {
        return Some(Forbidden);
      }
      if session.status != Active {
        return Some(BadStatus);
      }
      if session.egressId.Some? {
        stopped := stopped + {session.egressId.value};
        audit := audit + [RecordingCompleted(s)];
      }
      rows := rows[s := rows[s].(status := Completed)];
      audit := audit + [SessionEnded(s)];
      return None;
    }
  }
}
