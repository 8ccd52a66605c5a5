/** The platform's idempotent ingest of a finished interview and its retention cleanup:
    platform/src/interviews/interviews.service.ts and interview-retention.service.ts. */
module InterviewIngest {
  import opened Common

  type Id = string

  datatype Evaluation = Evaluation(candidateRef: string, recommendation: string, assessment: string)

  datatype Dto =
    Dto(tenantId: string, lines: seq<string>, rollingSummary: Option<string>, evaluation: Evaluation,
        promptVersions: string, modelUsage: string)

  datatype SessionRow = SessionRow(tenantId: string, candidateRef: string)

  /** `createdAt` is in milliseconds. */
  datatype TranscriptRow = TranscriptRow(id: string, tenantId: string, lines: seq<string>, createdAt: int)

  datatype SummaryRow =
    SummaryRow(id: string, tenantId: string, rollingSummary: Option<string>, evaluation: Evaluation,
               promptVersions: string, modelUsage: string, createdAt: int)

  datatype Tables = Tables(sessions: map<Id, SessionRow>, transcripts: map<Id, TranscriptRow>,
                           summaries: map<Id, SummaryRow>)

  datatype IngestResult = Stored(transcriptId: string, summaryId: string) | NotFound | Forbidden | ServerError

  /** Where a request can break down: before its transaction commits, or in the audit write after it. */
  datatype Fault = NoFault | BeforeCommit | AuditFails

  /** The rows that one ingest asks for, given the session row. */
  function TranscriptFor(row: SessionRow, dto: Dto, id: string, createdAt: int): TranscriptRow {
    TranscriptRow(id, row.tenantId, dto.lines, createdAt)
  }

  function SummaryFor(row: SessionRow, dto: Dto, id: string, createdAt: int): SummaryRow {
    SummaryRow(id, row.tenantId, dto.rollingSummary, dto.evaluation.(candidateRef := row.candidateRef),
               dto.promptVersions, dto.modelUsage, createdAt)
  }

  /** Whether a request gets as far as committing its transaction. */
  predicate Commits(t: Tables, s: Id, dto: Dto, fault: Fault) {
    s in t.sessions && t.sessions[s].tenantId == dto.tenantId && fault != BeforeCommit
  }

  function AfterCommit(t: Tables, s: Id, dto: Dto, newId: string, now: int): Tables
    requires s in t.sessions
  {
    var row := t.sessions[s];
    t.(transcripts := t.transcripts[s :=
         if s in t.transcripts then t.transcripts[s].(lines := dto.lines) else TranscriptFor(row, dto, newId, now)],
       summaries := t.summaries[s :=
         if s in t.summaries then
           SummaryFor(row, dto, t.summaries[s].id, t.summaries[s].createdAt).(tenantId := t.summaries[s].tenantId)
         else SummaryFor(row, dto, newId, now)])
  }

  function Ingested(t: Tables, s: Id, dto: Dto, newId: string, now: int, fault: Fault): Tables {
    if Commits(t, s, dto, fault) then AfterCommit(t, s, dto, newId, now) else t
  }

  datatype TenantPolicy = TenantPolicy(tenantId: string, retentionDays: int)

  const MS_PER_DAY: int := 24 * 60 * 60 * 1000

  datatype AuditEvent = AuditEvent(tenantId: string, actorId: string, eventType: string, entityId: string)

  class InterviewsService {
    var sessions: map<Id, SessionRow>
    var transcripts: map<Id, TranscriptRow>
    var summaries: map<Id, SummaryRow>
    var audit: seq<AuditEvent>

    constructor (sessions: map<Id, SessionRow>)
      ensures View() == Tables(sessions, map[], map[]) && audit == []
    {
      this.sessions := sessions;
      transcripts, summaries, audit := map[], map[], [];
    }

    ghost function View(): Tables
      reads this
    {
      Tables(sessions, transcripts, summaries)
    }

    /** `getTenantSession`: NotFound and Forbidden are its two exceptions. */
    method GetTenantSession(tenantId: string, s: Id) returns (row: Option<SessionRow>, error: IngestResult)
      ensures row.Some? <==> s in sessions && sessions[s].tenantId == tenantId
      ensures row.Some? ==> row.value == sessions[s]
      ensures row.None? ==> error == if s in sessions then Forbidden else NotFound
    {
      if s !in sessions {
        return None, NotFound;
      }
      if sessions[s].tenantId != tenantId {
        return None, Forbidden;
      }
      return Some(sessions[s]), ServerError;
    }

    method IngestTranscriptAndSummary(s: Id, dto: Dto, newId: string, now: int, fault: Fault) returns (r: IngestResult)
      modifies this
      ensures View() == Ingested(old(View()), s, dto, newId, now, fault)
      ensures r.Stored? <==> Commits(old(View()), s, dto, fault) && fault == NoFault
      ensures r.Stored? ==> r == Stored(transcripts[s].id, summaries[s].id)
      ensures r.NotFound? <==> s !in sessions
      ensures r.Forbidden? <==> s in sessions && sessions[s].tenantId != dto.tenantId
      ensures audit == if r.Stored? then
                old(audit) + [AuditEvent(sessions[s].tenantId, "ai-service", "interview.transcript.ingested", s)]
              else old(audit)
    {
      var session, error := GetTenantSession(dto.tenantId, s);
      if session.None? {
        return error;
      }
      if fault == BeforeCommit {
        return ServerError;
      }
      var row := session.value;
      var evaluation := dto.evaluation.(candidateRef := row.candidateRef);
      if s in transcripts {
        transcripts := transcripts[s := transcripts[s].(lines := dto.lines)];
      } else {
        transcripts := transcripts[s := TranscriptRow(newId, row.tenantId, dto.lines, now)];
      }
      if s in summaries {
        summaries := summaries[s := summaries[s].(rollingSummary := dto.rollingSummary, evaluation := evaluation,
                                                  promptVersions := dto.promptVersions, modelUsage := dto.modelUsage)];
      } else {
        summaries := summaries[s := SummaryRow(newId, row.tenantId, dto.rollingSummary, evaluation,
                                               dto.promptVersions, dto.modelUsage, now)];
      }
      if fault == AuditFails {
        return ServerError;
      }
      audit := audit + [AuditEvent(row.tenantId, "ai-service", "interview.transcript.ingested", s)];
      return Stored(transcripts[s].id, summaries[s].id);
    }

    /** `cleanupExpiredTranscripts`; nows[i] is the clock when policy i is handled. */
    method CleanupExpiredTranscripts(policies: seq<TenantPolicy>, nows: seq<int>)
      requires |policies| == |nows|
      modifies this
      ensures View() == Cleaned(old(View()), policies, nows) && audit == old(audit)
    {
      CleanedByNone(View());
      hide Cleaned, Expired;
      for i := 0 to |policies|
        invariant View() == Cleaned(old(View()), policies[..i], nows[..i]) && audit == old(audit)
      {
        CleanedByOneMore(old(View()), policies[..i], nows[..i], policies[i], nows[i]);
        assert policies[..i + 1] == policies[..i] + [policies[i]] && nows[..i + 1] == nows[..i] + [nows[i]];
        var policy, cutoff := policies[i], nows[i] - policies[i].retentionDays * MS_PER_DAY;
        transcripts := map s | s in transcripts &&
          !(transcripts[s].tenantId == policy.tenantId && transcripts[s].createdAt < cutoff) :: transcripts[s];
        summaries := map s | s in summaries &&
          !(summaries[s].tenantId == policy.tenantId && summaries[s].createdAt < cutoff) :: summaries[s];
      }
      assert policies[..|policies|] == policies && nows[..|policies|] == nows;
    }
  }

  // ---------------------------------------------------------------- ingest

  /** Every transcript has its summary, written together for the same tenant, the session's own. */
  predicate Paired(t: Tables) {
    && t.transcripts.Keys == t.summaries.Keys <= t.sessions.Keys
    && forall s :: s in t.transcripts ==>
         && t.transcripts[s].createdAt == t.summaries[s].createdAt
         && t.transcripts[s].tenantId == t.summaries[s].tenantId == t.sessions[s].tenantId
  }

  /** The stored rows of session s say what `dto` says, about the candidate of the session row. */
  predicate Holds(t: Tables, s: Id, dto: Dto) {
    && s in t.sessions && s in t.transcripts && s in t.summaries
    && t.transcripts[s].lines == dto.lines
    && t.summaries[s].rollingSummary == dto.rollingSummary
    && t.summaries[s].evaluation == dto.evaluation.(candidateRef := t.sessions[s].candidateRef)
    && t.summaries[s].promptVersions == dto.promptVersions && t.summaries[s].modelUsage == dto.modelUsage
  }

  /** One ingest of a session of the payload's tenant that is not rolled back stores the payload, even if the audit
      write fails after it; new rows get the new id and the time, existing ones keep theirs. It keeps the pairing and
      leaves every other session alone; any other ingest changes nothing. */
  lemma {:induction false} IngestStoresOneSession(t: Tables, s: Id, dto: Dto, newId: string, now: int, fault: Fault)
    requires Paired(t)
    ensures var t' := Ingested(t, s, dto, newId, now, fault);
            && Paired(t') && t'.sessions == t.sessions
            && (if s in t.sessions && t.sessions[s].tenantId == dto.tenantId && fault != BeforeCommit then
                  && Holds(t', s, dto)
                  && (if s in t.transcripts
                      then t'.transcripts[s].id == t.transcripts[s].id && t'.summaries[s].id == t.summaries[s].id
                           && t'.transcripts[s].createdAt == t.transcripts[s].createdAt
                      else t'.transcripts[s].id == t'.summaries[s].id == newId && t'.transcripts[s].createdAt == now)
                else t' == t)
            && (forall x :: x != s ==>
                  && (x in t'.transcripts <==> x in t.transcripts)
                  && (x in t.transcripts ==>
                      t'.transcripts[x] == t.transcripts[x] && t'.summaries[x] == t.summaries[x]))
  {
  }

  /** Redelivery is idempotent: it changes neither the rows, nor their ids, nor the age that retention sees. */
  lemma {:induction false} RedeliveryChangesNothing(t: Tables, s: Id, dto: Dto, id1: string, now1: int, fault1: Fault,
                                                    id2: string, now2: int, fault2: Fault)
    requires Commits(t, s, dto, fault1)
    ensures var once := Ingested(t, s, dto, id1, now1, fault1);
            Ingested(once, s, dto, id2, now2, fault2) == once
  {
    var once := Ingested(t, s, dto, id1, now1, fault1);
    var twice := Ingested(once, s, dto, id2, now2, fault2);
    assert twice.transcripts == once.transcripts;
    assert twice.summaries == once.summaries;
  }

  // ---------------------------------------------------------------- retention

  /** Older than the retention of some policy of the row's tenant. */
  predicate Expired(policies: seq<TenantPolicy>, nows: seq<int>, tenantId: string, createdAt: int)
    requires |policies| == |nows|
  {
    exists i :: 0 <= i < |policies| && policies[i].tenantId == tenantId &&
                createdAt < nows[i] - policies[i].retentionDays * MS_PER_DAY
  }

  function Cleaned(t: Tables, policies: seq<TenantPolicy>, nows: seq<int>): Tables
    requires |policies| == |nows|
  {
    t.(transcripts := map s | s in t.transcripts &&
         !Expired(policies, nows, t.transcripts[s].tenantId, t.transcripts[s].createdAt) :: t.transcripts[s],
       summaries := map s | s in t.summaries &&
         !Expired(policies, nows, t.summaries[s].tenantId, t.summaries[s].createdAt) :: t.summaries[s])
  }

  lemma {:induction false} CleanedByNone(t: Tables)
    ensures Cleaned(t, [], []) == t
  {
  }

  lemma {:induction false} ExpiredByOneMore(policies: seq<TenantPolicy>, nows: seq<int>, policy: TenantPolicy, now: int,
                                            tenantId: string, createdAt: int)
    requires |policies| == |nows|
    ensures Expired(policies + [policy], nows + [now], tenantId, createdAt) <==>
              || Expired(policies, nows, tenantId, createdAt)
              || (policy.tenantId == tenantId && createdAt < now - policy.retentionDays * MS_PER_DAY)
  {
    var ps, ns := policies + [policy], nows + [now];
    if Expired(policies, nows, tenantId, createdAt) {
      var i :| 0 <= i < |policies| && policies[i].tenantId == tenantId &&
               createdAt < nows[i] - policies[i].retentionDays * MS_PER_DAY;
      assert ps[i] == policies[i] && ns[i] == nows[i];
    }
    assert ps[|policies|] == policy && ns[|policies|] == now;
    if Expired(ps, ns, tenantId, createdAt) {
      var i :| 0 <= i < |ps| && ps[i].tenantId == tenantId && createdAt < ns[i] - ps[i].retentionDays * MS_PER_DAY;
      if i < |policies| {
        assert policies[i] == ps[i] && nows[i] == ns[i];
      }
    }
  }

  /** One policy's two deletions. */
  function CleanedOnce(t: Tables, policy: TenantPolicy, now: int): Tables {
    var cutoff := now - policy.retentionDays * MS_PER_DAY;
    t.(transcripts := map s | s in t.transcripts &&
         !(t.transcripts[s].tenantId == policy.tenantId && t.transcripts[s].createdAt < cutoff) :: t.transcripts[s],
       summaries := map s | s in t.summaries &&
         !(t.summaries[s].tenantId == policy.tenantId && t.summaries[s].createdAt < cutoff) :: t.summaries[s])
  }

  lemma {:induction false} CleanedByOneMore(t: Tables, policies: seq<TenantPolicy>, nows: seq<int>,
                                            policy: TenantPolicy, now: int)
    requires |policies| == |nows|
    ensures Cleaned(t, policies + [policy], nows + [now]) == CleanedOnce(Cleaned(t, policies, nows), policy, now)
  {
    hide Expired;
    forall s | s in t.transcripts {
      ExpiredByOneMore(policies, nows, policy, now, t.transcripts[s].tenantId, t.transcripts[s].createdAt);
    }
    forall s | s in t.summaries {
      ExpiredByOneMore(policies, nows, policy, now, t.summaries[s].tenantId, t.summaries[s].createdAt);
    }
  }

  predicate OnePolicyPerTenant(policies: seq<TenantPolicy>) {
    forall i, j :: 0 <= i < j < |policies| ==> policies[i].tenantId != policies[j].tenantId
  }

  /** A full cleanup pass removes transcript and summary together, exactly those older than their own
      tenant's cutoff; a tenant without a policy keeps everything. */
  lemma {:induction false} CleanupKeepsPairs(t: Tables, policies: seq<TenantPolicy>, nows: seq<int>)
    requires Paired(t) && |policies| == |nows| && OnePolicyPerTenant(policies)
    ensures Paired(Cleaned(t, policies, nows))
    ensures forall i, s ::
              0 <= i < |policies| && s in t.transcripts && t.sessions[s].tenantId == policies[i].tenantId ==>
              (s !in Cleaned(t, policies, nows).transcripts <==>
                 t.transcripts[s].createdAt < nows[i] - policies[i].retentionDays * 86_400_000)
    ensures forall s :: s in t.transcripts && (forall p :: p in policies ==> p.tenantId != t.sessions[s].tenantId) ==>
              s in Cleaned(t, policies, nows).transcripts
  {
  }

  /** A redelivery just before a cleanup does not change what stays, unless it stores a session that has no rows any
      more (or not yet) and is itself not expired at once: the upsert then creates them with a new age. */
  lemma {:induction false} RedeliveryExtendsRetentionIff(t: Tables, s: Id, dto: Dto, newId: string, now: int,
                                                         fault: Fault, policies: seq<TenantPolicy>, nows: seq<int>)
    requires Paired(t) && |policies| == |nows|
    ensures Cleaned(Ingested(t, s, dto, newId, now, fault), policies, nows).transcripts.Keys
         == Cleaned(t, policies, nows).transcripts.Keys
       <==> || s in t.transcripts
            || !Commits(t, s, dto, fault)
            || Expired(policies, nows, t.sessions[s].tenantId, now)
  {
    hide Expired;
    var before, after := Cleaned(t, policies, nows), Cleaned(Ingested(t, s, dto, newId, now, fault), policies, nows);
    if s !in t.transcripts && Commits(t, s, dto, fault) {
      assert s !in before.transcripts;
      assert s in after.transcripts <==> !Expired(policies, nows, t.sessions[s].tenantId, now);
    }
  }
}
