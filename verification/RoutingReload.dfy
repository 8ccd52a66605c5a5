/** The per-dispatch reload of the routing table: ai-service/app/voice_agent/worker.py,
    `_reload_routing_config_if_changed`, against loading the file afresh at every dispatch. */
module RoutingReload {
  import opened Common
  import opened CircuitBreaker
  import opened UseCasePolicies
  import opened RoutingConfig
  import opened Gateway

  datatype FileView = Missing | Present(mtime: real, text: FileText)

  datatype Settings = Settings(livekit: bool, llmModel: string, fallbackModels: seq<string>)

  datatype Dispatch = Dispatch(file: FileView, priority: seq<Provider>, settings: Settings)

  datatype RoutingState = RoutingState(policies: map<string, UseCasePolicy>, mtime: Option<real>)

  /** The policy that a LiveKit dispatch gives to the voice use cases. */
  function Livekit(s: Settings): UseCasePolicy {
    LivekitPolicy(s.llmModel, s.fallbackModels, LIVEKIT_TIMEOUT_S)
  }

  function WithOverride(policies: map<string, UseCasePolicy>, s: Settings): map<string, UseCasePolicy> {
    if s.livekit then Overridden(policies, Livekit(s)) else policies
  }

  /** The specification: load, reorder, override, at every dispatch. */
  function Fresh(d: Dispatch): map<string, UseCasePolicy>
    requires d.file.Present? && Loaded(d.file.text).Some?
  {
    WithOverride(Prioritised(Loaded(d.file.text).value, VOICE_LLM_USE_CASES, d.priority), d.settings)
  }

  /** What one dispatch does to the state of the process. */
  function Reloaded(st: RoutingState, d: Dispatch): RoutingState {
    match d.file
    case Missing => st
    case Present(mtime, text) =>
      if st.mtime == Some(mtime) then st.(policies := WithOverride(st.policies, d.settings))
      else match Loaded(text)
        case None => st.(policies := map[])
        case Some(t) => RoutingState(WithOverride(Prioritised(t, VOICE_LLM_USE_CASES, d.priority), d.settings),
                                     Some(mtime))
  }

  class Worker {
    const gateway: ModelGateway
    var routingConfigMtime: Option<real>

    constructor (gateway: ModelGateway)
      ensures this.gateway == gateway && routingConfigMtime == None
    {
      this.gateway := gateway;
      routingConfigMtime := None;
    }

    function State(): RoutingState
      reads this, gateway.table
    {
      RoutingState(gateway.table.policies, routingConfigMtime)
    }

    /** False is a RoutingConfigError leaving the method; the table is then already empty. */
    method ReloadIfChanged(d: Dispatch) returns (ok: bool)
      modifies this, gateway.table
      ensures State() == Reloaded(old(State()), d)
      ensures !ok <==> d.file.Present? && Some(d.file.mtime) != old(routingConfigMtime) && Loaded(d.file.text).None?
    {
      if d.file.Missing? {
        return true;
      }
      var mtime := d.file.mtime;
      if Some(mtime) == routingConfigMtime {
        if d.settings.livekit {
          gateway.SetLivekitInferenceMode(d.settings.llmModel, d.settings.fallbackModels);
        }
        return true;
      }
      gateway.table.policies := map[];
      var loaded := LoadRoutingConfig(d.file.text);
      if loaded.None? {
        return false;
      }
      gateway.table.policies := loaded.value;
      VoiceUseCasesAreRequired();
      ok := gateway.table.ApplyProviderPriority(VOICE_LLM_USE_CASES, d.priority);
      assert ok;
      routingConfigMtime := Some(mtime);
      if d.settings.livekit {
        gateway.SetLivekitInferenceMode(d.settings.llmModel, d.settings.fallbackModels);
      }
    }
  }

  lemma {:induction false} VoiceUseCasesAreRequired()
    ensures forall u :: u in VOICE_LLM_USE_CASES ==> u in REQUIRED_USE_CASES
  {
    var r := REQUIRED_USE_CASES;
    assert r[5] in r && r[6] in r && r[7] in r && r[8] in r;
  }

  // ---------------------------------------------------------------- runs of dispatches

  function RunDispatches(st: RoutingState, ds: seq<Dispatch>): RoutingState {
    if ds == [] then st else Reloaded(RunDispatches(st, ds[..|ds| - 1]), ds[|ds| - 1])
  }

  const START := RoutingState(map[], None)

  /** Readable valid files throughout, and an unchanged mtime means an unchanged file. */
  predicate GoodFiles(ds: seq<Dispatch>) {
    && (forall d :: d in ds ==> d.file.Present? && Loaded(d.file.text).Some?)
    && (forall a, b :: a in ds && b in ds && a.file.mtime == b.file.mtime ==> a.file.text == b.file.text)
  }

  /** The dispatch that last loaded the file: the last one whose mtime differs from its predecessor's. */
  function LoadedBy(ds: seq<Dispatch>): nat
    requires ds != [] && forall d :: d in ds ==> d.file.Present?
    ensures LoadedBy(ds) < |ds|
  {
    var n := |ds| - 1;
    if n == 0 || ds[n].file.mtime != ds[n - 1].file.mtime then n else LoadedBy(ds[..n])
  }

  /** The settings of the last LiveKit dispatch from `lo` on, if there is one. */
  function LastLivekit(ds: seq<Dispatch>, lo: nat): Option<Settings> {
    if |ds| <= lo then None
    else if ds[|ds| - 1].settings.livekit then Some(ds[|ds| - 1].settings)
    else LastLivekit(ds[..|ds| - 1], lo)
  }

  function OverrideBy(policies: map<string, UseCasePolicy>, s: Option<Settings>): map<string, UseCasePolicy> {
    if s.Some? then Overridden(policies, Livekit(s.value)) else policies
  }

  lemma {:induction false} OverrideAbsorbs(policies: map<string, UseCasePolicy>, a: UseCasePolicy, b: UseCasePolicy)
    ensures Overridden(Overridden(policies, a), b) == Overridden(policies, b)
  {
  }

  lemma {:induction false} OverrideIgnoresOrder(policies: map<string, UseCasePolicy>, a: seq<Provider>,
                                                b: seq<Provider>, policy: UseCasePolicy)
    ensures Overridden(Prioritised(policies, VOICE_LLM_USE_CASES, a), policy)
         == Overridden(Prioritised(policies, VOICE_LLM_USE_CASES, b), policy)
  {
  }

  function TableOf(ds: seq<Dispatch>): map<string, UseCasePolicy>
    requires ds != [] && GoodFiles(ds)
  {
    var loader := LoadedBy(ds);
    OverrideBy(Prioritised(Loaded(ds[|ds| - 1].file.text).value, VOICE_LLM_USE_CASES, ds[loader].priority),
               LastLivekit(ds, loader))
  }

  /** The cached state after any good run: the current file, in the order of the dispatch that loaded it,
      under the last LiveKit override since. */
  lemma {:induction false} CachedState(ds: seq<Dispatch>)
    requires ds != [] && GoodFiles(ds)
    ensures RunDispatches(START, ds) == RoutingState(TableOf(ds), Some(ds[|ds| - 1].file.mtime))
    decreases |ds|
  {
    hide Loaded, Prioritised, Overridden;
    var n := |ds| - 1;
    var d, init := ds[n], ds[..n];
    assert d in ds;
    if n == 0 {
      assert LastLivekit(init, 0) == None;
      OverrideTwice(Prioritised(Loaded(d.file.text).value, VOICE_LLM_USE_CASES, d.priority), None, d.settings);
    } else {
      assert ds[n - 1] in ds && init[n - 1] == ds[n - 1];
      assert forall e :: e in init ==> e in ds;
      CachedState(init);
      var base := Prioritised(Loaded(d.file.text).value, VOICE_LLM_USE_CASES, ds[LoadedBy(ds)].priority);
      OverrideTwice(base, LastLivekit(init, LoadedBy(ds)), d.settings);
    }
  }

  lemma {:induction false} OverrideTwice(policies: map<string, UseCasePolicy>, before: Option<Settings>, s: Settings)
    ensures WithOverride(OverrideBy(policies, before), s) == OverrideBy(policies, if s.livekit then Some(s) else before)
  {
    if s.livekit && before.Some? {
      OverrideAbsorbs(policies, Livekit(before.value), Livekit(s));
    }
  }

  /** After every dispatch the table is what loading afresh would give, if the dispatch runs in LiveKit mode,
      or if no dispatch since the file was loaded did and the priority is the one it was loaded with. */
  lemma {:induction false} ReloadRefinesFreshLoad(ds: seq<Dispatch>)
    requires ds != [] && GoodFiles(ds)
    requires var d := ds[|ds| - 1];
             || d.settings.livekit
             || (ds[LoadedBy(ds)].priority == d.priority && LastLivekit(ds, LoadedBy(ds)).None?)
    ensures ds[|ds| - 1] in ds && RunDispatches(START, ds).policies == Fresh(ds[|ds| - 1])
  {
    var d := ds[|ds| - 1];
    assert d in ds;
    CachedState(ds);
    hide *;
    if d.settings.livekit {
      LivekitTableIsFresh(ds);
    } else {
      QuietTableIsFresh(ds);
    }
  }

  lemma {:induction false} LivekitTableIsFresh(ds: seq<Dispatch>)
    requires ds != [] && GoodFiles(ds) && ds[|ds| - 1].settings.livekit
    ensures ds[|ds| - 1] in ds && TableOf(ds) == Fresh(ds[|ds| - 1])
  {
    hide Loaded, Prioritised, Overridden, LoadedBy;
    var d := ds[|ds| - 1];
    assert d in ds;
    LastLivekitNow(ds, LoadedBy(ds));
    OverrideIgnoresOrder(Loaded(d.file.text).value, ds[LoadedBy(ds)].priority, d.priority, Livekit(d.settings));
  }

  lemma {:induction false} QuietTableIsFresh(ds: seq<Dispatch>)
    requires ds != [] && GoodFiles(ds) && !ds[|ds| - 1].settings.livekit
    requires ds[LoadedBy(ds)].priority == ds[|ds| - 1].priority && LastLivekit(ds, LoadedBy(ds)).None?
    ensures ds[|ds| - 1] in ds && TableOf(ds) == Fresh(ds[|ds| - 1])
  {
    hide Loaded, Prioritised, Overridden, LoadedBy, LastLivekit;
    assert ds[|ds| - 1] in ds;
  }

  lemma {:induction false} LastLivekitNow(ds: seq<Dispatch>, lo: nat)
    requires lo < |ds| && ds[|ds| - 1].settings.livekit
    ensures LastLivekit(ds, lo) == Some(ds[|ds| - 1].settings)
  {
  }

  lemma {:induction false} NoLivekitAnywhere(ds: seq<Dispatch>, lo: nat)
    requires forall d :: d in ds ==> !d.settings.livekit
    ensures LastLivekit(ds, lo).None?
  {
    if lo < |ds| {
      assert ds[|ds| - 1] in ds;
      NoLivekitAnywhere(ds[..|ds| - 1], lo);
    }
  }

  /** With one voice provider and one priority for the life of the process, the cache is invisible. */
  lemma {:induction false} FixedSettingsReload(ds: seq<Dispatch>, livekit: bool, priority: seq<Provider>)
    requires ds != [] && GoodFiles(ds)
    requires forall d :: d in ds ==> d.settings.livekit == livekit && d.priority == priority
    ensures ds[|ds| - 1] in ds && RunDispatches(START, ds).policies == Fresh(ds[|ds| - 1])
  {
    hide Loaded, Prioritised, Overridden, RunDispatches, LastLivekit;
    assert ds[|ds| - 1] in ds && ds[LoadedBy(ds)] in ds;
    if !livekit {
      NoLivekitAnywhere(ds, LoadedBy(ds));
    }
    ReloadRefinesFreshLoad(ds);
  }

  /** What every fresh table promises: the required use cases are there, no chain is empty, and the chains
      of use cases that are not voice are the file's own. */
  lemma {:induction false} FreshTablesAreUsable(d: Dispatch)
    requires d.file.Present? && Loaded(d.file.text).Some?
    ensures forall u :: u in REQUIRED_USE_CASES ==> u in Fresh(d)
    ensures forall u :: u in Fresh(d) ==> Fresh(d)[u].chain != []
    ensures forall u :: u in Fresh(d) && u !in VOICE_LLM_USE_CASES ==> Fresh(d)[u] == Loaded(d.file.text).value[u]
  {
    LoadedTablesAreComplete(d.file.text);
    forall u | u in Fresh(d) ensures Fresh(d)[u].chain != [] {
      ReorderIsPermutation(Loaded(d.file.text).value[u].chain, d.priority);
    }
  }

  /** Where a fresh table routes each use case of the file: in LiveKit mode a voice use case goes to the configured
      models, with eight seconds each; otherwise to the file's tiers, in the order of the priority. */
  lemma {:induction false} FreshRoutes(d: Dispatch, u: string)
    requires d.file.Present? && Loaded(d.file.text).Some? && u in Loaded(d.file.text).value
    ensures u in Fresh(d)
    ensures var file, policy := Loaded(d.file.text).value[u], Fresh(d)[u];
            if !IsVoice(u) then policy == file
            else if d.settings.livekit then
              LivekitTiers(policy, d.settings.llmModel, d.settings.fallbackModels, 8.0)
            else
              && policy.rationale == file.rationale
              && policy.chain == Grouped(file.chain, d.priority) + Unmentioned(file.chain, d.priority)
  {
    var file := Loaded(d.file.text).value;
    VoiceUseCases(u);
    PrioritisedIsExact(file, VOICE_LLM_USE_CASES, d.priority);
    hide Loaded, Printed, Prioritised, LivekitPolicy, Overridden;
    LivekitModeIsExact(Prioritised(file, VOICE_LLM_USE_CASES, d.priority), d.settings.llmModel,
                       d.settings.fallbackModels, 8.0);
  }

  predicate SameRouting(a: map<string, UseCasePolicy>, b: map<string, UseCasePolicy>) {
    a.Keys == b.Keys && forall u :: u in a ==> a[u].chain == b[u].chain
  }

  /** The exact condition for a dispatch outside LiveKit mode, after any good run: it routes as a fresh load would if
      and only if, for every voice use case, what the file was last put under since it was loaded (the last LiveKit
      tiers, or else the loader's own order) is what this dispatch's priority makes of the file's chain. */
  lemma {:induction false} RoutesFreshlyIff(ds: seq<Dispatch>)
    requires ds != [] && GoodFiles(ds) && !ds[|ds| - 1].settings.livekit
    ensures ds[|ds| - 1] in ds
    ensures var d, loader := ds[|ds| - 1], LoadedBy(ds);
            var file, last := Loaded(d.file.text).value, LastLivekit(ds, loader);
            SameRouting(RunDispatches(START, ds).policies, Fresh(d)) <==>
              forall u :: u in VOICE_LLM_USE_CASES && u in file ==>
                (if last.Some? then Livekit(last.value).chain else ReorderChain(file[u].chain, ds[loader].priority))
                == ReorderChain(file[u].chain, d.priority)
  {
    var d := ds[|ds| - 1];
    assert d in ds;
    CachedState(ds);
    hide LoadedBy, LastLivekit, Livekit, Loaded, ReorderChain, RunDispatches;
    RoutesLike(Loaded(d.file.text).value, ds[LoadedBy(ds)].priority, d.priority, LastLivekit(ds, LoadedBy(ds)));
  }

  /** A run of it: LiveKit mode is switched off under an unchanged file that names some other provider for a voice use
      case. The LiveKit tiers stay. */
  lemma {:induction false} LeavingLivekitModeIsStale(on: Dispatch, off: Dispatch, u: string, tier: ProviderChoice)
    requires on.file.Present? && Loaded(on.file.text).Some? && off.file == on.file
    requires on.settings.livekit && !off.settings.livekit
    requires u in VOICE_LLM_USE_CASES && u in Loaded(on.file.text).value
    requires tier in Loaded(on.file.text).value[u].chain && tier.provider != LiveKitInference
    ensures !SameRouting(RunDispatches(START, [on, off]).policies, Fresh(off))
  {
    var ds, chain := [on, off], Loaded(on.file.text).value[u].chain;
    assert ds[..1] == [on] && LoadedBy(ds) == 0 && LastLivekit(ds, 0) == Some(on.settings);
    hide Loaded, RunDispatches, LoadedBy, LastLivekit;
    RoutesFreshlyIff(ds);
    ReorderIsPermutation(chain, off.priority);
    assert tier in multiset(ReorderChain(chain, off.priority));
    hide ReorderChain, Printed;
    assert forall c :: c in Livekit(on.settings).chain ==> c.provider == LiveKitInference;
  }

  lemma {:induction false} RoutesLike(file: map<string, UseCasePolicy>, a: seq<Provider>, b: seq<Provider>,
                                      last: Option<Settings>)
    ensures SameRouting(OverrideBy(Prioritised(file, VOICE_LLM_USE_CASES, a), last),
                        Prioritised(file, VOICE_LLM_USE_CASES, b)) <==>
              forall u :: u in VOICE_LLM_USE_CASES && u in file ==>
                (if last.Some? then Livekit(last.value).chain else ReorderChain(file[u].chain, a))
                  == ReorderChain(file[u].chain, b)
  {
    hide Livekit, ReorderChain;
    var p, q := OverrideBy(Prioritised(file, VOICE_LLM_USE_CASES, a), last), Prioritised(file, VOICE_LLM_USE_CASES, b);
    assert p.Keys == q.Keys == file.Keys;
    if SameRouting(p, q) {
      forall u | u in VOICE_LLM_USE_CASES && u in file
        ensures (if last.Some? then Livekit(last.value).chain else ReorderChain(file[u].chain, a))
                == ReorderChain(file[u].chain, b)
      {
        assert u in p && p[u].chain == q[u].chain;
      }
    }
  }

  // ---------------------------------------------------------------- bad and missing files

  /** Every required use case is there with somewhere to go. */
  predicate Usable(policies: map<string, UseCasePolicy>) {
    forall u :: u in REQUIRED_USE_CASES ==> u in policies && policies[u].chain != []
  }

  /** The mtime that the worker remembers: that of the last file it loaded. */
  function Remembered(ds: seq<Dispatch>): Option<real> {
    if ds == [] then None
    else
      var before, file := Remembered(ds[..|ds| - 1]), ds[|ds| - 1].file;
      if file.Present? && before != Some(file.mtime) && Loaded(file.text).Some? then Some(file.mtime) else before
  }

  /** The last dispatch that tried to load its file: its mtime differed from the remembered one. */
  function LastAttempt(ds: seq<Dispatch>): Option<FileText> {
    if ds == [] then None
    else
      var file := ds[|ds| - 1].file;
      if file.Present? && Remembered(ds[..|ds| - 1]) != Some(file.mtime) then Some(file.text)
      else LastAttempt(ds[..|ds| - 1])
  }

  /** Over any run, with missing, broken and restored files: the table is usable if and only if the last file that was
      tried could be loaded, and otherwise it is empty. */
  lemma {:induction false} UsableIffLastAttemptLoaded(ds: seq<Dispatch>)
    ensures var st, last := RunDispatches(START, ds), LastAttempt(ds);
            && st.mtime == Remembered(ds)
            && (Usable(st.policies) <==> last.Some? && Loaded(last.value).Some?)
            && (!Usable(st.policies) ==> st.policies == map[])
  {
    EmptyIsUnusable();
    if ds != [] {
      hide Loaded, Reloaded, Usable;
      UsableIffLastAttemptLoaded(ds[..|ds| - 1]);
      OneDispatch(RunDispatches(START, ds[..|ds| - 1]), ds[|ds| - 1]);
    }
  }

  lemma {:induction false} OneDispatch(st: RoutingState, d: Dispatch)
    requires !Usable(st.policies) ==> st.policies == map[]
    ensures var st' := Reloaded(st, d);
            var tries := d.file.Present? && st.mtime != Some(d.file.mtime);
            && st'.mtime == (if tries && Loaded(d.file.text).Some? then Some(d.file.mtime) else st.mtime)
            && (Usable(st'.policies) <==> if tries then Loaded(d.file.text).Some? else Usable(st.policies))
            && (!Usable(st'.policies) ==> st'.policies == map[])
  {
    EmptyIsUnusable();
    OverrideKeepsUsable(st.policies, d.settings);
    if d.file.Present? && Loaded(d.file.text).Some? {
      assert Fresh(d)
             == WithOverride(Prioritised(Loaded(d.file.text).value, VOICE_LLM_USE_CASES, d.priority), d.settings);
      FreshTablesAreUsable(d);
      assert Usable(Fresh(d));
    }
    hide Loaded, Prioritised, WithOverride, Usable;
  }

  lemma {:induction false} EmptyIsUnusable()
    ensures !Usable(map[])
  {
    assert REQUIRED_USE_CASES[0] in REQUIRED_USE_CASES;
  }

  lemma {:induction false} OverrideKeepsUsable(policies: map<string, UseCasePolicy>, s: Settings)
    ensures Usable(policies) ==> Usable(WithOverride(policies, s))
    ensures WithOverride(map[], s) == map[]
  {
    hide Printed;
    assert |Livekit(s).chain| == 1 + |s.fallbackModels|;
  }

  /** So a broken file empties the table, and putting the old file back under its old mtime does not help. */
  lemma {:induction false} BadFileEmptiesTheTable(ds: seq<Dispatch>, bad: Dispatch, back: Dispatch)
    requires bad.file.Present? && Remembered(ds) != Some(bad.file.mtime) && Loaded(bad.file.text).None?
    requires back.file.Present? && Remembered(ds) == Some(back.file.mtime)
    ensures RunDispatches(START, ds + [bad]).policies == map[]
            && RunDispatches(START, ds + [bad] + [back]).policies == map[]
  {
    assert (ds + [bad])[..|ds|] == ds && (ds + [bad] + [back])[..|ds + [bad]|] == ds + [bad];
    hide Loaded, RunDispatches;
    UsableIffLastAttemptLoaded(ds + [bad]);
    UsableIffLastAttemptLoaded(ds + [bad] + [back]);
  }
}
