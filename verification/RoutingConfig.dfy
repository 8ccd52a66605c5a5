/** Validation and loading of the routing file, from the parsed YAML on:
    ai-service/app/model_gateway/routing_config.py. */
module RoutingConfig {
  import opened Common
  import opened CircuitBreaker
  import opened UseCasePolicies

  const REQUIRED_USE_CASES: seq<string> :=
    ["role_intake_scorecard", "resume_parsing", "evidence_matching", "interview_evaluation", "candidate_report",
     "voice_interview_turn", "voice_interview_summary", "role_discovery_turn", "role_discovery_extraction"]

  datatype ChainEntry = ChainEntry(provider: string, model: string, timeoutS: Option<real>)

  datatype PolicyEntry = PolicyEntry(chain: seq<ChainEntry>, rationale: string)

  /** What reading and parsing the file can give. */
  datatype FileText = Unreadable | NotYaml | NotAMapping | Parsed(useCases: map<string, PolicyEntry>)

  function ProviderNamed(name: string): Option<Provider> {
    match name
    case "openai" => Some(OpenAI)
    case "anthropic" => Some(Anthropic)
    case "gemini" => Some(Gemini)
    case "groq" => Some(Groq)
    case "openrouter" => Some(OpenRouter)
    case "livekit_inference" => Some(LiveKitInference)
    case _ => None
  }

  /** `_valid_provider` and `_positive_timeout`. */
  predicate ValidEntry(e: ChainEntry) {
    ProviderNamed(e.provider).Some? && (e.timeoutS.Some? ==> e.timeoutS.value > 0.0)
  }

  predicate ValidChain(chain: seq<ChainEntry>) {
    && chain != []
    && forall i, j :: 0 <= i < j < |chain| ==>
      (chain[i].provider, chain[i].model) != (chain[j].provider, chain[j].model)
  }

  predicate ValidPolicy(p: PolicyEntry) {
    (forall e :: e in p.chain ==> ValidEntry(e)) && ValidChain(p.chain)
  }

  predicate ValidConfig(useCases: map<string, PolicyEntry>) {
    && (forall u :: u in useCases ==> ValidPolicy(useCases[u]))
    && (forall u :: u in REQUIRED_USE_CASES ==> u in useCases)
  }

  function ChoiceOf(e: ChainEntry): ProviderChoice
    requires ValidEntry(e)
  {
    ProviderChoice(ProviderNamed(e.provider).value, Some(e.model), e.timeoutS)
  }

  function PolicyOf(p: PolicyEntry): UseCasePolicy
    requires ValidPolicy(p)
  {
    UseCasePolicy(seq(|p.chain|, i requires 0 <= i < |p.chain| => ChoiceOf(p.chain[i])), p.rationale)
  }

  /** The table a file gives; None is RoutingConfigError. */
  function Loaded(text: FileText): Option<map<string, UseCasePolicy>> {
    if text.Parsed? && ValidConfig(text.useCases) then
      Some(map u | u in text.useCases :: PolicyOf(text.useCases[u]))
    else None
  }

  /** `_non_empty_chain`. */
  method NonEmptyChain(chain: seq<ChainEntry>) returns (ok: bool)
    ensures ok <==> ValidChain(chain)
  {
    if chain == [] {
      return false;
    }
    var seen: set<(string, string)> := {};
    for i := 0 to |chain|
      invariant forall k :: k in seen <==> exists j :: 0 <= j < i && (chain[j].provider, chain[j].model) == k
      invariant forall j, l :: 0 <= j < l < i ==>
                (chain[j].provider, chain[j].model) != (chain[l].provider, chain[l].model)
    {
      var key := (chain[i].provider, chain[i].model);
      if key in seen {
        return false;
      }
      seen := seen + {key};
    }
    return true;
  }

  /** `_all_required_present`: the required use cases that are missing. */
  method MissingUseCases(useCases: map<string, PolicyEntry>) returns (missing: seq<string>)
    ensures missing == [] <==> forall u :: u in REQUIRED_USE_CASES ==> u in useCases
  {
    missing := [];
    for i := 0 to |REQUIRED_USE_CASES|
      invariant missing == [] <==> forall u :: u in REQUIRED_USE_CASES[..i] ==> u in useCases
    {
      if REQUIRED_USE_CASES[i] !in useCases {
        missing := missing + [REQUIRED_USE_CASES[i]];
      }
      assert REQUIRED_USE_CASES[..i + 1] == REQUIRED_USE_CASES[..i] + [REQUIRED_USE_CASES[i]];
    }
    assert REQUIRED_USE_CASES[..|REQUIRED_USE_CASES|] == REQUIRED_USE_CASES;
  }

  method PolicyIsValid(p: PolicyEntry) returns (ok: bool)
    ensures ok <==> ValidPolicy(p)
  {
    for i := 0 to |p.chain|
      invariant forall j :: 0 <= j < i ==> ValidEntry(p.chain[j])
    {
      if !ValidEntry(p.chain[i]) {
        return false;
      }
    }
    ok := NonEmptyChain(p.chain);
  }

  /** The build loop: one policy per use case, unless one of them is invalid. */
  method BuildTable(useCases: map<string, PolicyEntry>) returns (r: Option<map<string, UseCasePolicy>>)
    ensures r.None? <==> exists u :: u in useCases && !ValidPolicy(useCases[u])
    ensures r.Some? ==>
              r.value.Keys == useCases.Keys && forall u :: u in useCases ==> r.value[u] == PolicyOf(useCases[u])
  {
    hide ValidPolicy, PolicyOf;
    var policies: map<string, UseCasePolicy> := map[];
    var todo := useCases.Keys;
    while todo != {}
      invariant todo <= useCases.Keys && policies.Keys == useCases.Keys - todo
      invariant forall u :: u in policies ==> ValidPolicy(useCases[u]) && policies[u] == PolicyOf(useCases[u])
      decreases |todo|
    {
      var u :| u in todo;
      var ok := PolicyIsValid(useCases[u]);
      if !ok {
        return None;
      }
      policies := policies[u := PolicyOf(useCases[u])];
      todo := todo - {u};
    }
    return Some(policies);
  }

  method LoadRoutingConfig(text: FileText) returns (r: Option<map<string, UseCasePolicy>>)
    ensures r == Loaded(text)
    ensures r.Some? <==> LoadsFrom(text)
    ensures r.Some? ==>
              && r.value.Keys == text.useCases.Keys
              && forall u :: u in text.useCases ==> SameTiers(r.value[u], text.useCases[u])
  {
    LoadsIff(text);
    if Loaded(text).Some? {
      LoadedIsTheFile(text);
    }
    hide LoadsFrom, SameTiers;
    hide ValidPolicy, PolicyOf;
    if !text.Parsed? {
      return None;
    }
    var missing := MissingUseCases(text.useCases);
    if missing != [] {
      return None;
    }
    r := BuildTable(text.useCases);
    if r.Some? {
      assert r.value == map u | u in text.useCases :: PolicyOf(text.useCases[u]);
    }
  }

  /** Every table that loads has all nine required use cases, each with a non-empty chain of distinct
      (provider, model) tiers and positive timeouts. */
  lemma {:induction false} LoadedTablesAreComplete(text: FileText)
    requires Loaded(text).Some?
    ensures var t := Loaded(text).value;
            && (forall u :: u in REQUIRED_USE_CASES ==> u in t)
            && (forall u :: u in t ==>
                  && t[u].chain != []
                  && (forall i, j :: 0 <= i < j < |t[u].chain| ==>
                        (t[u].chain[i].provider, t[u].chain[i].model) != (t[u].chain[j].provider, t[u].chain[j].model))
                  && (forall c :: c in t[u].chain && c.timeoutS.Some? ==> c.timeoutS.value > 0.0))
  {
    var t := Loaded(text).value;
    forall u | u in t ensures
      && (forall i, j :: 0 <= i < j < |t[u].chain| ==>
            (t[u].chain[i].provider, t[u].chain[i].model) != (t[u].chain[j].provider, t[u].chain[j].model))
      && (forall c :: c in t[u].chain && c.timeoutS.Some? ==> c.timeoutS.value > 0.0)
    {
      var raw := text.useCases[u].chain;
      forall i, j | 0 <= i < j < |raw|
        ensures (t[u].chain[i].provider, t[u].chain[i].model) != (t[u].chain[j].provider, t[u].chain[j].model)
      {
        assert ValidEntry(raw[i]) && ValidEntry(raw[j]);
        if ProviderNamed(raw[i].provider) == ProviderNamed(raw[j].provider) {
          NamesAreDistinct(raw[i].provider, raw[j].provider);
        }
      }
      forall i | 0 <= i < |raw| ensures t[u].chain[i].timeoutS.Some? ==> t[u].chain[i].timeoutS.value > 0.0 {
        assert ValidEntry(raw[i]);
      }
    }
  }

  /** A provider is known by its value and by nothing else. */
  lemma {:induction false} NamedByValue(name: string)
    ensures ProviderNamed(name).Some? ==> ValueOf(ProviderNamed(name).value) == name
    ensures forall p: Provider :: ValueOf(p) == name ==> ProviderNamed(name) == Some(p)
  {
  }

  /** The policy has the entry's own tiers, in the entry's order. */
  predicate SameTiers(policy: UseCasePolicy, entry: PolicyEntry) {
    && policy.rationale == entry.rationale && |policy.chain| == |entry.chain|
    && forall i :: 0 <= i < |entry.chain| ==>
         && policy.chain[i].model == Some(entry.chain[i].model)
         && policy.chain[i].timeoutS == entry.chain[i].timeoutS
         && ValueOf(policy.chain[i].provider) == entry.chain[i].provider
  }

  /** Every use case of a loaded file is in the table with the file's own tiers, in the file's order. */
  lemma {:induction false} LoadedIsTheFile(text: FileText)
    requires Loaded(text).Some?
    ensures Loaded(text).value.Keys == text.useCases.Keys
    ensures forall u :: u in text.useCases ==> SameTiers(Loaded(text).value[u], text.useCases[u])
  {
    forall u | u in text.useCases ensures SameTiers(Loaded(text).value[u], text.useCases[u]) {
      PolicyKeepsTiers(text.useCases[u]);
    }
  }

  lemma {:induction false} PolicyKeepsTiers(entry: PolicyEntry)
    requires ValidPolicy(entry)
    ensures SameTiers(PolicyOf(entry), entry)
  {
    forall i | 0 <= i < |entry.chain|
      ensures ValidEntry(entry.chain[i]) && ValueOf(ChoiceOf(entry.chain[i]).provider) == entry.chain[i].provider
    {
      NamedByValue(entry.chain[i].provider);
      hide ProviderNamed, ValueOf;
    }
    hide ProviderNamed, ValueOf;
  }

  /** A chain that is not empty, has no repeated (provider, model), and names known providers and positive timeouts
      only. */
  ghost predicate GoodChain(chain: seq<ChainEntry>) {
    && chain != []
    && (forall i, j :: 0 <= i < j < |chain| ==>
          chain[i].provider != chain[j].provider || chain[i].model != chain[j].model)
    && (forall e :: e in chain ==>
          && (exists p: Provider :: ValueOf(p) == e.provider)
          && (e.timeoutS.Some? ==> e.timeoutS.value > 0.0))
  }

  /** The use cases that the code refers to. */
  predicate IsRequired(u: string) {
    || u == "role_intake_scorecard" || u == "resume_parsing" || u == "evidence_matching"
    || u == "interview_evaluation" || u == "candidate_report"
    || u == "voice_interview_turn" || u == "voice_interview_summary"
    || u == "role_discovery_turn" || u == "role_discovery_extraction"
  }

  lemma {:induction false} RequiredUseCases(u: string)
    ensures u in REQUIRED_USE_CASES <==> IsRequired(u)
  {
    var r := REQUIRED_USE_CASES;
    assert u in r <==> (|| u == r[0] || u == r[1] || u == r[2] || u == r[3] || u == r[4] || u == r[5] || u == r[6]
                        || u == r[7] || u == r[8]);
  }

  /** The nine use cases are in the file, and every chain is a good one. */
  ghost predicate LoadsFrom(text: FileText) {
    && text.Parsed?
    && (forall u :: IsRequired(u) ==> u in text.useCases)
    && forall u :: u in text.useCases ==> GoodChain(text.useCases[u].chain)
  }

  /** Exactly the files that load. */
  lemma {:induction false} LoadsIff(text: FileText)
    ensures Loaded(text).Some? <==> LoadsFrom(text)
  {
    if text.Parsed? {
      forall u | u in text.useCases ensures ValidPolicy(text.useCases[u]) <==> GoodChain(text.useCases[u].chain) {
        ValidIsGood(text.useCases[u]);
      }
    }
    forall u ensures u in REQUIRED_USE_CASES <==> IsRequired(u) {
      RequiredUseCases(u);
    }
    hide ValidPolicy, GoodChain, IsRequired;
  }

  lemma {:induction false} ValidIsGood(p: PolicyEntry)
    ensures ValidPolicy(p) <==> GoodChain(p.chain)
  {
    forall e | e in p.chain
      ensures ProviderNamed(e.provider).Some? <==> exists p: Provider :: ValueOf(p) == e.provider
    {
      NamedByValue(e.provider);
      hide ProviderNamed, ValueOf;
      if ProviderNamed(e.provider).Some? {
        assert ValueOf(ProviderNamed(e.provider).value) == e.provider;
      }
    }
    hide ProviderNamed, ValueOf;
  }

  lemma {:induction false} NamesAreDistinct(a: string, b: string)
    requires ProviderNamed(a).Some? && ProviderNamed(a) == ProviderNamed(b)
    ensures a == b
  {
  }
}
