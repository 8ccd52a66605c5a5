/** The structured intake record: ai-service/app/voice_agent/discovery_fields.py. */
module DiscoveryFields {
  import opened Common

  datatype FieldName =
    | HiringReason | BusinessProblem | SuccessDefinition | Responsibilities | RequiredSkills | PreferredSkills
    | TeamStructure | Collaboration | DecisionAuthority | Day306090 | SuccessMetrics | FailureModes
    | InterviewProcess | EvaluationCriteria | CompensationConstraints | HiringTimeline

  /** The names, in the order of FIELD_SPECS. */
  function FieldNames(): seq<FieldName> {
    [HiringReason, BusinessProblem, SuccessDefinition, Responsibilities, RequiredSkills, PreferredSkills,
     TeamStructure, Collaboration, DecisionAuthority, Day306090, SuccessMetrics, FailureModes,
     InterviewProcess, EvaluationCriteria, CompensationConstraints, HiringTimeline]
  }

  /** A record has all sixteen fields, each possibly null. */
  type Fields = m: map<FieldName, Option<string>> | forall f: FieldName :: f in m
    witness map f: FieldName | true :: None

  const EMPTY: Fields := map f: FieldName | true :: None

  /** Latest wins, but only where the new record says something. */
  function Merged(older: Fields, newer: Fields): Fields {
    map f: FieldName | true :: if newer[f].Some? then newer[f] else older[f]
  }

  lemma {:induction false} FieldNamesAreComplete(f: FieldName)
    ensures f in FieldNames()
  {
    var s := FieldNames();
    assert |s| == 16;
    match f
    case HiringReason => assert s[0] == f;
    case BusinessProblem => assert s[1] == f;
    case SuccessDefinition => assert s[2] == f;
    case Responsibilities => assert s[3] == f;
    case RequiredSkills => assert s[4] == f;
    case PreferredSkills => assert s[5] == f;
    case TeamStructure => assert s[6] == f;
    case Collaboration => assert s[7] == f;
    case DecisionAuthority => assert s[8] == f;
    case Day306090 => assert s[9] == f;
    case SuccessMetrics => assert s[10] == f;
    case FailureModes => assert s[11] == f;
    case InterviewProcess => assert s[12] == f;
    case EvaluationCriteria => assert s[13] == f;
    case CompensationConstraints => assert s[14] == f;
    case HiringTimeline => assert s[15] == f;
  }

  /** The loop of `merge` over any list of field names, on a copy of the old record. */
  method MergeNamed(names: seq<FieldName>, older: Fields, newer: Fields) returns (merged: Fields)
    ensures forall f: FieldName :: merged[f] == if f in names && newer[f].Some? then newer[f] else older[f]
  {
    merged := older;
    for i := 0 to |names|
      invariant forall f: FieldName :: merged[f] == if f in names[..i] && newer[f].Some? then newer[f] else older[f]
    {
      var name := names[i];
      if newer[name].Some? {
        merged := merged[name := newer[name]];
      }
      assert names[..i + 1] == names[..i] + [name];
    }
    assert names[..|names|] == names;
  }

  lemma {:induction false} AllFieldsAreNamed()
    ensures forall f: FieldName :: f in FieldNames()
  {
    forall f: FieldName ensures f in FieldNames() {
      FieldNamesAreComplete(f);
    }
  }

  /** `merge`. */
  method Merge(older: Fields, newer: Fields) returns (merged: Fields)
    ensures merged == Merged(older, newer)
  {
    hide FieldNames;
    AllFieldsAreNamed();
    merged := MergeNamed(FieldNames(), older, newer);
  }

  /** The fields behind `missing_field_labels`, in the order of FieldNames. */
  function MissingFrom(names: seq<FieldName>, state: Fields): seq<FieldName> {
    if names == [] then []
    else (if state[names[0]].None? then [names[0]] else []) + MissingFrom(names[1..], state)
  }

  function MissingFields(state: Fields): seq<FieldName> {
    MissingFrom(FieldNames(), state)
  }

  lemma {:induction false} MissingMembers(names: seq<FieldName>, state: Fields)
    ensures forall f :: f in MissingFrom(names, state) <==> f in names && state[f].None?
  {
    if names != [] {
      MissingMembers(names[1..], state);
    }
  }

  lemma {:induction false} MergeIsAMonoid(a: Fields, b: Fields, c: Fields)
    ensures Merged(Merged(a, b), c) == Merged(a, Merged(b, c))
    ensures Merged(EMPTY, a) == a && Merged(a, EMPTY) == a
  {
  }

  /** Merging never makes a field missing again. */
  lemma {:induction false} MissingNeverGrows(older: Fields, newer: Fields)
    ensures forall f :: f in MissingFields(Merged(older, newer)) ==> f in MissingFields(older)
    ensures forall f :: f in MissingFields(older) && newer[f].None? ==> f in MissingFields(Merged(older, newer))
  {
    hide FieldNames;
    AllFieldsAreNamed();
    MissingMembers(FieldNames(), older);
    MissingMembers(FieldNames(), Merged(older, newer));
  }

  // ---------------------------------------------------------------- a whole call

  /** The record after a run of extractions; None is an extraction that failed. */
  function Fold(start: Fields, results: seq<Option<Fields>>): Fields {
    if results == [] then start
    else
      var before := Fold(start, results[..|results| - 1]);
      var last := results[|results| - 1];
      if last.Some? then Merged(before, last.value) else before
  }

  /** The last non-null value that any extraction returned for a field. */
  function LastValue(results: seq<Option<Fields>>, f: FieldName): Option<string> {
    if results == [] then None
    else
      var last := results[|results| - 1];
      if last.Some? && last.value[f].Some? then last.value[f] else LastValue(results[..|results| - 1], f)
  }

  lemma {:induction false} FoldKeepsLastValues(start: Fields, results: seq<Option<Fields>>, f: FieldName)
    ensures Fold(start, results)[f] == if LastValue(results, f).Some? then LastValue(results, f) else start[f]
  {
    if results != [] {
      FoldKeepsLastValues(start, results[..|results| - 1], f);
    }
  }
}
