/** The canonical string that platform/src/interviews/room-metadata-signing.ts signs and
    ai-service/app/voice_agent/metadata_signing.py checks. HMAC-SHA256 is a parameter. */
module MetadataSigning {
  import opened Common

  const SEPARATOR: char := 1 as char

  datatype RoomMetadata =
    RoomMetadata(tenantId: string, sessionId: string, sessionType: string, resumeContext: Option<string>)

  /** The worker's dictionary: any field may be missing. */
  datatype Received =
    Received(tenantId: Option<string>, sessionId: Option<string>, sessionType: Option<string>,
             resumeContext: Option<string>, signature: Option<string>)

  function Join(parts: seq<string>): string {
    if parts == [] then []
    else if |parts| == 1 then parts[0]
    else parts[0] + [SEPARATOR] + Join(parts[1..])
  }

  /** `canonicalString` of the platform: an absent resume counts as the empty one. */
  function CanonicalString(m: RoomMetadata): string {
    Join([m.tenantId, m.sessionId, m.sessionType, ResumeOf(m)])
  }

  function ResumeOf(m: RoomMetadata): string {
    if m.resumeContext.None? then "" else m.resumeContext.value
  }

  /** HMAC-SHA256 of a secret and a message, in hexadecimal. */
  type Hmac = (string, string) -> string

  function SignRoomMetadata(hmac: Hmac, secret: string, m: RoomMetadata): string {
    hmac(secret, CanonicalString(m))
  }

  /** Python's `x or ""` and `not x`: a missing and an empty string are both falsy. */
  predicate Falsy(x: Option<string>) {
    x.None? || x.value == ""
  }

  /** `_canonical_string` of the worker. */
  function WorkerCanonicalString(tenantId: string, sessionId: string, sessionType: string,
                                 resume: Option<string>): string {
    Join([tenantId, sessionId, sessionType, if Falsy(resume) then "" else resume.value])
  }

  predicate VerifyMetadataSignature(hmac: Hmac, r: Received, secret: string) {
    if Falsy(r.signature) || Falsy(r.tenantId) || Falsy(r.sessionId) || Falsy(r.sessionType) then false
    else
      hmac(secret, WorkerCanonicalString(r.tenantId.value, r.sessionId.value, r.sessionType.value, r.resumeContext))
        == r.signature.value
  }

  /** The room metadata that createSession attaches. */
  function Attached(m: RoomMetadata, signature: string): Received {
    Received(Some(m.tenantId), Some(m.sessionId), Some(m.sessionType), m.resumeContext, Some(signature))
  }

  // ---------------------------------------------------------------- reading the string back

  /** What stands before and after the first separator. */
  function Cut(s: string): Option<(string, string)> {
    if s == "" then None
    else if s[0] == SEPARATOR then Some(("", s[1..]))
    else
      match Cut(s[1..])
      case None => None
      case Some((before, after)) => Some(([s[0]] + before, after))
  }

  /** The four fields of a canonical string: three cuts, and the rest. */
  function Parse(s: string): Option<(string, string, string, string)> {
    match Cut(s)
    case None => None
    case Some((tenantId, rest1)) =>
      match Cut(rest1)
      case None => None
      case Some((sessionId, rest2)) =>
        match Cut(rest2)
        case None => None
        case Some((sessionType, resume)) => Some((tenantId, sessionId, sessionType, resume))
  }

  predicate Clean(m: RoomMetadata) {
    SEPARATOR !in m.tenantId && SEPARATOR !in m.sessionId && SEPARATOR !in m.sessionType
  }

  lemma {:induction false} CutJoin(field: string, rest: string)
    requires SEPARATOR !in field
    ensures Cut(field + [SEPARATOR] + rest) == Some((field, rest))
  {
    var s := field + [SEPARATOR] + rest;
    if field == "" {
      assert s == [SEPARATOR] + rest;
    } else {
      assert s[1..] == field[1..] + [SEPARATOR] + rest;
      CutJoin(field[1..], rest);
      assert [field[0]] + field[1..] == field;
    }
  }

  lemma {:induction false} JoinFour(a: string, b: string, c: string, d: string)
    ensures Join([a, b, c, d]) == a + [SEPARATOR] + (b + [SEPARATOR] + (c + [SEPARATOR] + d))
  {
    assert [a, b, c, d][1..] == [b, c, d] && [b, c, d][1..] == [c, d] && [c, d][1..] == [d];
    assert Join([d]) == d;
    assert Join([c, d]) == c + [SEPARATOR] + d;
    assert Join([b, c, d]) == b + [SEPARATOR] + Join([c, d]);
  }

  /** The string itself: the four fields with U+0001 between them, an absent resume being empty. */
  lemma {:induction false} CanonicalStringIs(m: RoomMetadata)
    ensures var soh := [1 as char];
            CanonicalString(m) == m.tenantId + soh + (m.sessionId + soh + (m.sessionType + soh +
              if m.resumeContext.Some? then m.resumeContext.value else ""))
  {
    JoinFour(m.tenantId, m.sessionId, m.sessionType, ResumeOf(m));
    hide Join;
  }

  /** All four fields come back, whatever the resume contains. */
  lemma {:induction false} ParseCanonical(m: RoomMetadata)
    requires Clean(m)
    ensures Parse(CanonicalString(m)) == Some((m.tenantId, m.sessionId, m.sessionType, ResumeOf(m)))
  {
    JoinFour(m.tenantId, m.sessionId, m.sessionType, ResumeOf(m));
    hide Join, Cut;
    CutJoin(m.tenantId, m.sessionId + [SEPARATOR] + (m.sessionType + [SEPARATOR] + ResumeOf(m)));
    CutJoin(m.sessionId, m.sessionType + [SEPARATOR] + ResumeOf(m));
    CutJoin(m.sessionType, ResumeOf(m));
  }

  predicate SameFields(m: RoomMetadata, n: RoomMetadata) {
    && m.tenantId == n.tenantId && m.sessionId == n.sessionId && m.sessionType == n.sessionType
    && ResumeOf(m) == ResumeOf(n)
  }

  /** Two rooms with clean ids get the same canonical string exactly if they agree on every field. */
  lemma {:induction false} CanonicalIsInjective(m: RoomMetadata, n: RoomMetadata)
    requires Clean(m) && Clean(n)
    ensures CanonicalString(m) == CanonicalString(n) <==> SameFields(m, n)
  {
    ParseCanonical(m);
    ParseCanonical(n);
    hide Parse, Join;
  }

  // ---------------------------------------------------------------- when the string names one room only

  function Separators(s: string): nat {
    if s == "" then 0 else (if s[0] == SEPARATOR then 1 else 0) + Separators(s[1..])
  }

  lemma {:induction false} SeparatorsConcat(a: string, b: string)
    ensures Separators(a + b) == Separators(a) + Separators(b)
  {
    if a == "" {
      assert a + b == b;
    } else {
      assert (a + b)[1..] == a[1..] + b;
      SeparatorsConcat(a[1..], b);
    }
  }

  lemma {:induction false} NoSeparators(s: string)
    ensures Separators(s) == 0 <==> SEPARATOR !in s
  {
    if s != "" {
      NoSeparators(s[1..]);
      assert s == [s[0]] + s[1..];
    }
  }

  lemma {:induction false} SeparatorsJoin(a: string, rest: string)
    ensures Separators(a + [SEPARATOR] + rest) == Separators(a) + 1 + Separators(rest)
  {
    SeparatorsConcat(a + [SEPARATOR], rest);
    SeparatorsConcat(a, [SEPARATOR]);
    assert [SEPARATOR][1..] == "";
  }

  lemma {:induction false} CanonicalSeparators(m: RoomMetadata)
    ensures Separators(CanonicalString(m))
         == 3 + Separators(m.tenantId) + Separators(m.sessionId) + Separators(m.sessionType) + Separators(ResumeOf(m))
  {
    JoinFour(m.tenantId, m.sessionId, m.sessionType, ResumeOf(m));
    hide Join, Separators;
    SeparatorsJoin(m.sessionType, ResumeOf(m));
    SeparatorsJoin(m.sessionId, m.sessionType + [SEPARATOR] + ResumeOf(m));
    SeparatorsJoin(m.tenantId, m.sessionId + [SEPARATOR] + (m.sessionType + [SEPARATOR] + ResumeOf(m)));
  }

  /** No separator in any of the four fields. */
  predicate AllClean(m: RoomMetadata) {
    Clean(m) && SEPARATOR !in ResumeOf(m)
  }

  /** A room without separators shares its canonical string with no other room at all. */
  lemma {:induction false} NamesOneRoom(m: RoomMetadata, n: RoomMetadata)
    requires AllClean(m)
    ensures CanonicalString(m) == CanonicalString(n) <==> SameFields(m, n)
  {
    CanonicalSeparators(m);
    CanonicalSeparators(n);
    NoSeparators(m.tenantId);
    NoSeparators(m.sessionId);
    NoSeparators(m.sessionType);
    NoSeparators(ResumeOf(m));
    NoSeparators(n.tenantId);
    NoSeparators(n.sessionId);
    NoSeparators(n.sessionType);
    hide Separators, Join;
    if CanonicalString(m) == CanonicalString(n) {
      CanonicalIsInjective(m, n);
    }
  }

  lemma {:induction false} SplitAtSeparator(s: string) returns (x: string, y: string)
    requires SEPARATOR in s
    ensures s == x + [SEPARATOR] + y
  {
    var i :| 0 <= i < |s| && s[i] == SEPARATOR;
    x, y := s[..i], s[i + 1..];
  }

  /** A separator moves the boundary between two neighbouring fields. */
  lemma {:induction false} BoundaryMoves(x: string, y: string, b: string)
    ensures (x + [SEPARATOR] + y) + [SEPARATOR] + b == x + [SEPARATOR] + (y + [SEPARATOR] + b)
    ensures x + [SEPARATOR] + y != x && x + [SEPARATOR] + y != y
  {
    assert |x + [SEPARATOR] + y| == |x| + 1 + |y|;
  }

  /** A room with a separator in some field shares its string with another room. */
  lemma {:induction false} AnotherRoom(m: RoomMetadata) returns (n: RoomMetadata)
    requires !AllClean(m)
    ensures CanonicalString(m) == CanonicalString(n) && !SameFields(m, n)
    ensures Clean(m) ==>
              && (m.tenantId != "" ==> n.tenantId != "") && (m.sessionId != "" ==> n.sessionId != "")
              && n.sessionType != ""
  {
    var a, b, c, d := m.tenantId, m.sessionId, m.sessionType, ResumeOf(m);
    JoinFour(a, b, c, d);
    if SEPARATOR in a {
      var x, y := SplitAtSeparator(a);
      n := RoomMetadata(x, y + [SEPARATOR] + b, c, Some(d));
      BoundaryMoves(x, y, b + [SEPARATOR] + (c + [SEPARATOR] + d));
      BoundaryMoves(y, b, c + [SEPARATOR] + d);
    } else if SEPARATOR in b {
      var x, y := SplitAtSeparator(b);
      n := RoomMetadata(a, x, y + [SEPARATOR] + c, Some(d));
      BoundaryMoves(x, y, c + [SEPARATOR] + d);
      BoundaryMoves(y, c, d);
    } else if SEPARATOR in c {
      var x, y := SplitAtSeparator(c);
      n := RoomMetadata(a, b, x, Some(y + [SEPARATOR] + d));
      BoundaryMoves(x, y, d);
    } else {
      var x, y := SplitAtSeparator(d);
      n := RoomMetadata(a, b, c + [SEPARATOR] + x, Some(y));
      BoundaryMoves(c, x, y);
    }
    JoinFour(n.tenantId, n.sessionId, n.sessionType, ResumeOf(n));
    hide Join;
  }

  /** The canonical string names one room if and only if none of its four fields contains the separator. */
  lemma {:induction false} SharedIffSeparator(m: RoomMetadata)
    ensures (exists n :: CanonicalString(n) == CanonicalString(m) && !SameFields(m, n)) <==> !AllClean(m)
  {
    hide CanonicalString, SameFields;
    if AllClean(m) {
      forall n ensures CanonicalString(n) == CanonicalString(m) ==> SameFields(m, n) {
        NamesOneRoom(m, n);
      }
    } else {
      var n := AnotherRoom(m);
      assert CanonicalString(n) == CanonicalString(m) && !SameFields(m, n);
    }
  }

  // ---------------------------------------------------------------- the two sides together

  /** The worker accepts what the platform signed exactly if the three ids are non-empty, for any digest that is
      never empty. */
  lemma {:induction false} WorkerAcceptsSigned(hmac: Hmac, secret: string, m: RoomMetadata)
    requires hmac(secret, CanonicalString(m)) != ""
    ensures VerifyMetadataSignature(hmac, Attached(m, SignRoomMetadata(hmac, secret, m)), secret)
       <==> m.tenantId != "" && m.sessionId != "" && m.sessionType != ""
  {
    assert WorkerCanonicalString(m.tenantId, m.sessionId, m.sessionType, m.resumeContext) == CanonicalString(m);
  }

  /** What the platform attaches to a room with non-empty ids. */
  predicate IssuedFor(hmac: Hmac, secret: string, m: RoomMetadata, r: Received) {
    && m.tenantId != "" && m.sessionId != "" && m.sessionType != ""
    && r == Attached(m, SignRoomMetadata(hmac, secret, m))
  }

  /** On any received dictionary at all: it is accepted if and only if it was issued for some room, under a digest that
      is not empty. A missing field is never accepted. */
  lemma {:induction false} AcceptsIffIssued(hmac: Hmac, secret: string, r: Received)
    ensures VerifyMetadataSignature(hmac, r, secret) <==>
              r.signature != Some("") && exists m :: IssuedFor(hmac, secret, m, r)
  {
    hide Join;
    if VerifyMetadataSignature(hmac, r, secret) {
      var m := RoomMetadata(r.tenantId.value, r.sessionId.value, r.sessionType.value, r.resumeContext);
      assert WorkerCanonicalString(m.tenantId, m.sessionId, m.sessionType, m.resumeContext) == CanonicalString(m);
      assert IssuedFor(hmac, secret, m, r);
    }
    if m :| IssuedFor(hmac, secret, m, r) {
      assert WorkerCanonicalString(m.tenantId, m.sessionId, m.sessionType, m.resumeContext) == CanonicalString(m);
    }
  }

  predicate Accepts(hmac: Hmac, secret: string, m: RoomMetadata, n: RoomMetadata) {
    VerifyMetadataSignature(hmac, Attached(n, SignRoomMetadata(hmac, secret, m)), secret)
  }

  /** The signature of m on any received metadata n, as long as the two strings do not collide under the digest: it is
      accepted exactly if the ids of n are non-empty and the strings are the same. */
  lemma {:induction false} AcceptsSameString(hmac: Hmac, secret: string, m: RoomMetadata, n: RoomMetadata)
    requires hmac(secret, CanonicalString(m)) != ""
    requires hmac(secret, CanonicalString(m)) == hmac(secret, CanonicalString(n)) ==>
             CanonicalString(m) == CanonicalString(n)
    ensures Accepts(hmac, secret, m, n)
       <==> n.tenantId != "" && n.sessionId != "" && n.sessionType != "" && CanonicalString(m) == CanonicalString(n)
  {
    assert WorkerCanonicalString(n.tenantId, n.sessionId, n.sessionType, n.resumeContext) == CanonicalString(n);
    hide Join;
  }

  /** For a room without separators that is accepted exactly if every field is the signed one. */
  lemma {:induction false} WorkerAcceptsOnlySigned(hmac: Hmac, secret: string, m: RoomMetadata, n: RoomMetadata)
    requires AllClean(m)
    requires hmac(secret, CanonicalString(m)) != ""
    requires hmac(secret, CanonicalString(m)) == hmac(secret, CanonicalString(n)) ==>
             CanonicalString(m) == CanonicalString(n)
    ensures Accepts(hmac, secret, m, n)
       <==> n.tenantId != "" && n.sessionId != "" && n.sessionType != "" && SameFields(m, n)
  {
    AcceptsSameString(hmac, secret, m, n);
    NamesOneRoom(m, n);
    hide Join, AllClean;
  }

  /** The platform's ids contain no separator, but a resume is free text. A signature of such a room is accepted for
      some other room if and only if its resume contains the separator. */
  lemma {:induction false} AcceptedForAnotherIff(hmac: Hmac, secret: string, m: RoomMetadata)
    requires Clean(m) && m.tenantId != "" && m.sessionId != "" && m.sessionType != ""
    requires hmac(secret, CanonicalString(m)) != ""
    requires forall n :: hmac(secret, CanonicalString(m)) == hmac(secret, CanonicalString(n)) ==>
             CanonicalString(m) == CanonicalString(n)
    ensures (exists n :: Accepts(hmac, secret, m, n) && !SameFields(m, n)) <==> SEPARATOR in ResumeOf(m)
  {
    hide Accepts, CanonicalString;
    forall n ensures Accepts(hmac, secret, m, n) ==> CanonicalString(m) == CanonicalString(n) {
      AcceptsSameString(hmac, secret, m, n);
    }
    if SEPARATOR in ResumeOf(m) {
      var n := AnotherRoom(m);
      AcceptsSameString(hmac, secret, m, n);
      assert Accepts(hmac, secret, m, n) && !SameFields(m, n);
    } else {
      forall n ensures Accepts(hmac, secret, m, n) ==> SameFields(m, n) {
        NamesOneRoom(m, n);
      }
    }
  }
}
