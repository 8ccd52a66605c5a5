/** The bounded correlator of ai-service/app/voice_agent/latency_metrics.py: which replies are matched with the
    end of the utterance that they answer. */
module LatencyMetrics {
  import opened Common

  const MAX_PENDING: nat := 20

  datatype Event =
    | Eou(speechId: Option<string>, timestamp: int)
    | Tts(speechId: Option<string>, timestamp: int, ttfb: int)

  /** One appended speech_to_speech metric. */
  datatype Emission = Emission(speechId: string, seconds: int)

  /** The insertion-ordered dictionary and what was emitted. */
  datatype State = State(order: seq<string>, ts: map<string, int>, emitted: seq<Emission>)

  const START := State([], map[], [])

  function Without(order: seq<string>, id: string): seq<string> {
    if order == [] then [] else (if order[0] == id then [] else [order[0]]) + Without(order[1..], id)
  }

  /** The first key goes, if the dictionary is full. */
  function Evicted(st: State): State {
    if |st.order| >= MAX_PENDING then st.(order := st.order[1..], ts := st.ts - {st.order[0]}) else st
  }

  /** Assignment to an existing key keeps its place. */
  function Put(st: State, id: string, timestamp: int): State {
    st.(order := if id in st.ts then st.order else st.order + [id], ts := st.ts[id := timestamp])
  }

  function Step(st: State, e: Event): State {
    if e.speechId.None? then st
    else
      var id := e.speechId.value;
      if e.Eou? then Put(Evicted(st), id, e.timestamp)
      else if id !in st.ts then st
      else State(Without(st.order, id), st.ts - {id},
                 st.emitted + [Emission(id, e.timestamp + e.ttfb - st.ts[id])])
  }

  function Run(st: State, events: seq<Event>): State {
    if events == [] then st else Step(Run(st, events[..|events| - 1]), events[|events| - 1])
  }

  class SpeechToSpeechCorrelator {
    var order: seq<string>
    var pendingEouTs: map<string, int>
    var emitted: seq<Emission>

    constructor ()
      ensures View() == START
    {
      order, pendingEouTs, emitted := [], map[], [];
    }

    ghost function View(): State
      reads this
    {
      State(order, pendingEouTs, emitted)
    }

    method OnEou(speechId: Option<string>, timestamp: int)
      requires DictOk(View())
      modifies this
      ensures View() == Step(old(View()), Eou(speechId, timestamp)) && DictOk(View())
    {
      StepKeepsDict(View(), Eou(speechId, timestamp));
      if speechId.None? {
        return;
      }
      if |order| >= MAX_PENDING {
        var oldest := order[0];
        order, pendingEouTs := order[1..], pendingEouTs - {oldest};
      }
      if speechId.value !in pendingEouTs {
        order := order + [speechId.value];
      }
      pendingEouTs := pendingEouTs[speechId.value := timestamp];
    }

    method OnTts(speechId: Option<string>, timestamp: int, ttfb: int)
      requires DictOk(View())
      modifies this
      ensures View() == Step(old(View()), Tts(speechId, timestamp, ttfb)) && DictOk(View())
    {
      StepKeepsDict(View(), Tts(speechId, timestamp, ttfb));
      if speechId.None? || speechId.value !in pendingEouTs {
        return;
      }
      var eouTs := pendingEouTs[speechId.value];
      order, pendingEouTs := Without(order, speechId.value), pendingEouTs - {speechId.value};
      emitted := emitted + [Emission(speechId.value, timestamp + ttfb - eouTs)];
    }
  }

  // ---------------------------------------------------------------- the dictionary stays bounded

  /** The keys in insertion order, each once, and never more than twenty. */
  ghost predicate DictOk(st: State) {
    && (forall i, j :: 0 <= i < j < |st.order| ==> st.order[i] != st.order[j])
    && (forall id :: id in st.order <==> id in st.ts)
    && |st.order| <= MAX_PENDING
  }

  lemma {:induction false} WithoutIsDistinct(order: seq<string>, id: string)
    requires forall i, j :: 0 <= i < j < |order| ==> order[i] != order[j]
    ensures var w := Without(order, id);
            && (forall i, j :: 0 <= i < j < |w| ==> w[i] != w[j])
            && (forall x :: x in w <==> x in order && x != id)
            && |w| == if id in order then |order| - 1 else |order|
  {
    if order != [] {
      WithoutIsDistinct(order[1..], id);
      assert order == [order[0]] + order[1..];
      assert forall x :: x in order <==> x == order[0] || x in order[1..];
      var w := Without(order[1..], id);
      if order[0] != id {
        assert Without(order, id) == [order[0]] + w;
        assert order[0] !in w;
      } else {
        assert Without(order, id) == w;
      }
    }
  }

  lemma {:induction false} EvictionMakesRoom(st: State)
    requires DictOk(st)
    ensures DictOk(Evicted(st)) && |Evicted(st).order| < MAX_PENDING
  {
    if |st.order| >= MAX_PENDING {
      assert st.order == [st.order[0]] + Evicted(st).order;
    }
  }

  lemma {:induction false} PutKeepsDict(st: State, id: string, timestamp: int)
    requires DictOk(st) && |st.order| < MAX_PENDING
    ensures DictOk(Put(st, id, timestamp))
  {
  }

  lemma {:induction false} StepKeepsDict(st: State, e: Event)
    requires DictOk(st)
    ensures DictOk(Step(st, e))
  {
    if e.speechId.Some? {
      if e.Eou? {
        EvictionMakesRoom(st);
        PutKeepsDict(Evicted(st), e.speechId.value, e.timestamp);
        hide DictOk, Put, Evicted;
      } else {
        WithoutIsDistinct(st.order, e.speechId.value);
      }
    }
  }

  lemma {:induction false} NeverMoreThanTwenty(events: seq<Event>)
    ensures DictOk(Run(START, events)) && |Run(START, events).order| <= 20
  {
    BoundIsTwenty(Run(START, events));
    hide Step, DictOk;
    if events == [] {
      assert DictOk(START) by { StartIsOk(); }
    } else {
      NeverMoreThanTwenty(events[..|events| - 1]);
      StepKeepsDict(Run(START, events[..|events| - 1]), events[|events| - 1]);
    }
  }

  lemma {:induction false} BoundIsTwenty(st: State)
    ensures DictOk(st) ==> |st.order| <= 20
  {
  }

  lemma {:induction false} StartIsOk()
    ensures DictOk(START)
  {
  }

  // ---------------------------------------------------------------- each EOU is used at most once

  function IsEou(e: Event, id: string): nat {
    if e.Eou? && e.speechId == Some(id) then 1 else 0
  }

  function EouCount(events: seq<Event>, id: string): nat {
    if events == [] then 0
    else EouCount(events[..|events| - 1], id) + IsEou(events[|events| - 1], id)
  }

  function EmissionCount(emitted: seq<Emission>, id: string): nat {
    if emitted == [] then 0
    else EmissionCount(emitted[..|emitted| - 1], id) + if emitted[|emitted| - 1].speechId == id then 1 else 0
  }

  lemma {:induction false} EmissionCountAppend(emitted: seq<Emission>, e: Emission, id: string)
    ensures EmissionCount(emitted + [e], id) == EmissionCount(emitted, id) + if e.speechId == id then 1 else 0
  {
    assert (emitted + [e])[..|emitted|] == emitted;
  }

  function Held(st: State, id: string): nat {
    if id in st.ts then 1 else 0
  }

  /** No stored EOU is consumed twice: an id is emitted at most as often as it was stored, and one that is
      pending has an EOU to spare. */
  lemma {:induction false} ConsumedAtMostOnce(events: seq<Event>, id: string)
    ensures var st := Run(START, events);
            EmissionCount(st.emitted, id) + Held(st, id) <= EouCount(events, id)
  {
    if events != [] {
      var init, last := events[..|events| - 1], events[|events| - 1];
      ConsumedAtMostOnce(init, id);
      var st := Run(START, init);
      assert Run(START, events) == Step(st, last) && EouCount(events, id) == EouCount(init, id) + IsEou(last, id);
      if last.Tts? && last.speechId.Some? && last.speechId.value in st.ts {
        EmissionCountAppend(st.emitted,
                            Emission(last.speechId.value, last.timestamp + last.ttfb - st.ts[last.speechId.value]), id);
      }
      hide EmissionCount, EouCount, Without, Run;
      assert EmissionCount(Step(st, last).emitted, id) + Held(Step(st, last), id)
          <= EmissionCount(st.emitted, id) + Held(st, id) + IsEou(last, id);
    }
  }

  // ---------------------------------------------------------------- who is matched

  /** Key id is pending with at most c keys inserted after it. */
  ghost predicate Near(st: State, id: string, c: nat) {
    exists before, after :: st.order == before + [id] + after && |after| <= c
  }

  lemma {:induction false} WithoutConcat(a: seq<string>, b: seq<string>, id: string)
    ensures Without(a + b, id) == Without(a, id) + Without(b, id)
  {
    if a == [] {
      assert a + b == b;
    } else {
      assert (a + b)[1..] == a[1..] + b;
      WithoutConcat(a[1..], b, id);
    }
  }

  lemma {:induction false} WithoutShrinks(order: seq<string>, id: string)
    ensures |Without(order, id)| <= |order|
  {
    if order != [] {
      WithoutShrinks(order[1..], id);
    }
  }

  /** A reply to another utterance brings no key closer to eviction. */
  lemma {:induction false} TtsKeepsNear(st: State, e: Event, id: string, c: nat)
    requires e.Tts? && e.speechId != Some(id) && Near(st, id, c)
    ensures Near(Step(st, e), id, c)
  {
    if e.speechId.Some? && e.speechId.value in st.ts {
      var x := e.speechId.value;
      var before, after :| st.order == before + [id] + after && |after| <= c;
      WithoutConcat(before + [id], after, x);
      WithoutConcat(before, [id], x);
      WithoutShrinks(after, x);
      assert Without([id], x) == [id] + Without([], x);
      assert Step(st, e).order == Without(before, x) + [id] + Without(after, x);
    }
  }

  /** Eviction leaves a key that is not the first where it is. */
  lemma {:induction false} EvictionKeepsNear(st: State, id: string, c: nat)
    requires DictOk(st) && Near(st, id, c) && c < MAX_PENDING - 1
    ensures Near(Evicted(st), id, c) && id in Evicted(st).ts
  {
    var before, after :| st.order == before + [id] + after && |after| <= c;
    assert st.order[|before|] == id && (|before| > 0 ==> st.order[0] != id);
    hide DictOk;
    if |st.order| >= MAX_PENDING {
      assert st.order[1..] == before[1..] + [id] + after;
    }
  }

  lemma {:induction false} PutKeepsNear(st: State, x: string, timestamp: int, id: string, c: nat)
    requires Near(st, id, c)
    ensures Near(Put(st, x, timestamp), id, c + 1)
  {
    var before, after :| st.order == before + [id] + after && |after| <= c;
    assert st.order + [x] == before + [id] + (after + [x]);
    assert |after| <= c + 1 && |after + [x]| <= c + 1;
  }

  /** One stored EOU brings a key at most one place closer, and evicts it only from place twenty. */
  lemma {:induction false} EouKeepsNear(st: State, e: Event, id: string, c: nat)
    requires DictOk(st) && e.Eou? && e.speechId.Some? && Near(st, id, c) && c < MAX_PENDING - 1
    ensures Near(Step(st, e), id, c + 1) && id in Evicted(st).ts
  {
    EvictionKeepsNear(st, id, c);
    PutKeepsNear(Evicted(st), e.speechId.value, e.timestamp, id, c);
    hide Near, DictOk, Put, Evicted;
  }

  /** The number of on_eou calls that store something, and the timestamp of the last one for id. */
  function Eous(events: seq<Event>): nat {
    if events == [] then 0 else Eous(events[..|events| - 1]) + if Stores(events[|events| - 1]) then 1 else 0
  }

  predicate Stores(e: Event) {
    e.Eou? && e.speechId.Some?
  }

  function LastEou(events: seq<Event>, id: string, timestamp: int): int {
    if events == [] then timestamp
    else if events[|events| - 1].Eou? && events[|events| - 1].speechId == Some(id) then events[|events| - 1].timestamp
    else LastEou(events[..|events| - 1], id, timestamp)
  }

  predicate NoReplyTo(events: seq<Event>, id: string) {
    forall e :: e in events && e.Tts? ==> e.speechId != Some(id)
  }

  lemma {:induction false} StaysPending(st: State, id: string, events: seq<Event>)
    requires DictOk(st) && Near(st, id, 0) && NoReplyTo(events, id) && Eous(events) < MAX_PENDING
    ensures var st' := Run(st, events);
            && DictOk(st') && Near(st', id, Eous(events))
            && id in st.ts && id in st'.ts && st'.ts[id] == LastEou(events, id, st.ts[id])
  {
    if events == [] {
      NearIsHeld(st, id, 0);
    } else {
      var init, last := events[..|events| - 1], events[|events| - 1];
      StaysPending(st, id, init);
      var mid := Run(st, init);
      StepKeepsDict(mid, last);
      if Stores(last) {
        EouKeepsNear(mid, last, id, Eous(init));
      } else if last.Tts? {
        TtsKeepsNear(mid, last, id, Eous(init));
      }
      NearIsHeld(Step(mid, last), id, Eous(events));
      hide DictOk, Near, Without;
    }
  }

  lemma {:induction false} NearIsHeld(st: State, id: string, c: nat)
    requires DictOk(st) && Near(st, id, c)
    ensures id in st.ts
  {
    var before, after :| st.order == before + [id] + after && |after| <= c;
    assert st.order[|before|] == id;
  }

  lemma {:induction false} RunConcat(st: State, a: seq<Event>, b: seq<Event>)
    ensures Run(st, a + b) == Run(Run(st, a), b)
    decreases |b|
  {
    if b == [] {
      assert a + b == a;
    } else {
      assert (a + b)[..|a + b| - 1] == a + b[..|b| - 1];
      RunConcat(st, a, b[..|b| - 1]);
    }
  }

  /** A reply is matched with its utterance whenever fewer than twenty on_eou calls follow the one that inserted
      the key, whatever came before and in between; the latest timestamp stored for the id counts. */
  lemma {:induction false} TimelyReplyIsMatched(before: seq<Event>, id: string, stored: int, between: seq<Event>,
                                                reply: Event)
    requires id !in Evicted(Run(START, before)).ts
    requires NoReplyTo(between, id) && Eous(between) < 20
    requires reply.Tts? && reply.speechId == Some(id)
    ensures var events := before + [Eou(Some(id), stored)] + between;
            && Run(START, events + [reply]).emitted
            == Run(START, events).emitted + [Emission(id, reply.timestamp + reply.ttfb - LastEou(between, id, stored))]
            && id !in Run(START, events + [reply]).ts
  {
    var eou := Eou(Some(id), stored);
    var st := Run(START, before);
    NeverMoreThanTwenty(before);
    StepKeepsDict(st, eou);
    assert Near(Step(st, eou), id, 0) by {
      assert Step(st, eou).order == Evicted(st).order + [id] + [];
    }
    StaysPending(Step(st, eou), id, between);
    assert (before + [eou])[..|before|] == before;
    RunConcat(START, before + [eou], between);
    var events := before + [eou] + between;
    assert (events + [reply])[..|events|] == events;
    hide Near, DictOk, Without, NoReplyTo;
    assert Run(START, before + [eou]) == Step(st, eou);
  }

  // ---------------------------------------------------------------- twenty is the bound

  predicate Fresh(st: State, ids: seq<string>) {
    && (forall k :: 0 <= k < |ids| ==> ids[k] !in st.order)
    && (forall j, k :: 0 <= j < k < |ids| ==> ids[j] != ids[k])
  }

  function EousFor(ids: seq<string>, timestamp: int): seq<Event> {
    seq(|ids|, k requires 0 <= k < |ids| => Eou(Some(ids[k]), timestamp))
  }

  lemma {:induction false} NewKey(st: State, id: string, timestamp: int)
    requires DictOk(st) && id !in st.order
    ensures Step(st, Eou(Some(id), timestamp)).order
         == (if |st.order| >= MAX_PENDING then st.order[1..] else st.order) + [id]
  {
  }

  function LastTwenty(keys: seq<string>): seq<string> {
    if |keys| <= MAX_PENDING then keys else keys[|keys| - MAX_PENDING..]
  }

  lemma {:induction false} LastTwentyAppend(keys: seq<string>, id: string)
    ensures var last := LastTwenty(keys);
            LastTwenty(keys + [id]) == (if |last| >= MAX_PENDING then last[1..] else last) + [id]
  {
  }

  lemma {:induction false} EousForAppend(ids: seq<string>, id: string, timestamp: int)
    ensures EousFor(ids + [id], timestamp) == EousFor(ids, timestamp) + [Eou(Some(id), timestamp)]
  {
  }

  /** New keys push out exactly as many old ones as no longer fit. */
  lemma {:induction false} FreshKeysPushOut(st: State, ids: seq<string>, timestamp: int)
    requires DictOk(st) && Fresh(st, ids)
    ensures DictOk(Run(st, EousFor(ids, timestamp)))
    ensures Run(st, EousFor(ids, timestamp)).order == LastTwenty(st.order + ids)
  {
    if ids == [] {
      assert st.order + ids == st.order && |st.order| <= MAX_PENDING;
    } else {
      var init, id := ids[..|ids| - 1], ids[|ids| - 1];
      assert ids == init + [id];
      FreshSplit(st, init, id);
      hide DictOk, Fresh, Step, LastTwenty, EousFor;
      FreshKeysPushOut(st, init, timestamp);
      var events, eou := EousFor(init, timestamp), Eou(Some(id), timestamp);
      RunAppend(st, events, eou);
      EousForAppend(init, id, timestamp);
      hide Run;
      NewKey(Run(st, events), id, timestamp);
      StepKeepsDict(Run(st, events), eou);
      LastTwentyAppend(st.order + init, id);
    }
  }

  lemma {:induction false} FreshSplit(st: State, init: seq<string>, id: string)
    requires Fresh(st, init + [id])
    ensures Fresh(st, init) && id !in LastTwenty(st.order + init)
    ensures st.order + (init + [id]) == (st.order + init) + [id]
  {
    assert (init + [id])[|init|] == id;
    forall k | 0 <= k < |init| ensures init[k] !in st.order && init[k] != id {
      assert (init + [id])[k] == init[k];
    }
    forall j, k | 0 <= j < k < |init| ensures init[j] != init[k] {
      assert (init + [id])[j] == init[j] && (init + [id])[k] == init[k];
    }
  }

  lemma {:induction false} RunAppend(st: State, events: seq<Event>, e: Event)
    ensures Run(st, events + [e]) == Step(Run(st, events), e)
  {
    assert (events + [e])[..|events|] == events;
  }

  /** Twenty further utterances with new ids lose any key, so its reply is dropped. */
  lemma {:induction false} TwentyMoreLoseIt(before: seq<Event>, ids: seq<string>, timestamp: int, id: string,
                                            reply: Event)
    requires |ids| == 20 && Fresh(Run(START, before), ids) && id in Run(START, before).ts
    requires reply.Tts? && reply.speechId == Some(id)
    ensures var st := Run(START, before + EousFor(ids, timestamp));
            id !in st.ts && Run(START, before + EousFor(ids, timestamp) + [reply]) == st
  {
    var st := Run(START, before);
    NeverMoreThanTwenty(before);
    FreshKeysPushOut(st, ids, timestamp);
    RunConcat(START, before, EousFor(ids, timestamp));
    assert (st.order + ids)[|st.order|..] == ids;
    var events := before + EousFor(ids, timestamp);
    assert (events + [reply])[..|events|] == events;
  }

  // ---------------------------------------------------------------- the places of the keys

  /** A full dictionary loses its first key before anything is stored; a key that is still there keeps its place when it
      is stored again, and a new one goes last. No other timestamp changes. */
  lemma {:induction false} StoringKeepsPlaces(st: State, id: string, timestamp: int)
    requires DictOk(st)
    ensures var rest := if |st.order| >= 20 then st.order[1..] else st.order;
            var stored := Step(st, Eou(Some(id), timestamp));
            && stored.order == (if id in rest then rest else rest + [id]) && stored.emitted == st.emitted
            && forall x :: x in rest && x != id ==> x in st.ts && x in stored.ts && stored.ts[x] == st.ts[x]
    ensures var stored := Step(st, Eou(Some(id), timestamp)); id in stored.ts && stored.ts[id] == timestamp
  {
    EvictedIsThere(st);
  }

  /** A reply takes its key out, leaves the others where they are, and one to an unknown utterance does nothing. */
  lemma {:induction false} ReplyKeepsPlaces(st: State, a: seq<string>, id: string, b: seq<string>, timestamp: int,
                                            ttfb: int)
    requires DictOk(st)
    ensures var replied := Step(st, Tts(Some(id), timestamp, ttfb));
            && (id !in st.order ==> replied == st)
            && (st.order == a + [id] + b ==> replied.order == a + b && replied.ts == st.ts - {id})
  {
    if st.order == a + [id] + b {
      assert id in st.order;
      WithoutOne(a, id, b);
    }
    hide Without;
  }

  lemma {:induction false} WithoutOne(a: seq<string>, id: string, b: seq<string>)
    requires var order := a + [id] + b; forall i, j :: 0 <= i < j < |order| ==> order[i] != order[j]
    ensures Without(a + [id] + b, id) == a + b
  {
    var order := a + [id] + b;
    assert forall i :: 0 <= i < |a| ==> order[i] == a[i];
    assert forall i :: 0 <= i < |b| ==> order[|a| + 1 + i] == b[i];
    assert order[|a|] == id && id !in a && id !in b;
    WithoutConcat(a + [id], b, id);
    WithoutConcat(a, [id], id);
    WithoutAbsent(a, id);
    WithoutAbsent(b, id);
    assert Without([id], id) == Without([], id) == [];
    hide Without;
    assert a + [] == a;
  }

  lemma {:induction false} EvictedIsThere(st: State)
    requires DictOk(st)
    ensures forall x :: x in Evicted(st).order <==> x in Evicted(st).ts
  {
    EvictionMakesRoom(st);
    hide Evicted;
  }

  lemma {:induction false} WithoutAbsent(order: seq<string>, id: string)
    requires id !in order
    ensures Without(order, id) == order
  {
    if order != [] {
      WithoutAbsent(order[1..], id);
    }
  }

  // ---------------------------------------------------------------- exactly when a key is lost

  /** A stored EOU that arrives while the dictionary is full and the key is its first. */
  predicate Evicts(st: State, e: Event, id: string) {
    e.Eou? && e.speechId.Some? && |st.order| >= 20 && st.order[0] == id
  }

  /** No such EOU comes after the last one of the key itself, which stores it anew even where it evicts it. */
  predicate Survives(st: State, events: seq<Event>, id: string) {
    if events == [] then id in st.ts
    else
      var init, last := events[..|events| - 1], events[|events| - 1];
      (last.Eou? && last.speechId == Some(id)) || (Survives(st, init, id) && !Evicts(Run(st, init), last, id))
  }

  lemma {:induction false} StepKeepsKeyIff(st: State, e: Event, id: string)
    requires DictOk(st) && (e.Tts? ==> e.speechId != Some(id))
    ensures var own := e.Eou? && e.speechId == Some(id);
            && (id in Step(st, e).ts <==> own || (id in st.ts && !Evicts(st, e, id)))
            && (id in Step(st, e).ts ==> Step(st, e).ts[id] == if own then e.timestamp else st.ts[id])
  {
    hide Without;
  }

  lemma {:induction false} RunKeepsDict(st: State, events: seq<Event>)
    requires DictOk(st)
    ensures DictOk(Run(st, events))
  {
    hide DictOk, Step;
    if events != [] {
      RunKeepsDict(st, events[..|events| - 1]);
      StepKeepsDict(Run(st, events[..|events| - 1]), events[|events| - 1]);
    }
  }

  /** Until its reply a key is pending if and only if it survives, and then with the latest timestamp stored for it. */
  lemma {:induction false} StaysPendingIff(st: State, id: string, events: seq<Event>)
    requires DictOk(st) && NoReplyTo(events, id)
    ensures id in Run(st, events).ts <==> Survives(st, events, id)
    ensures id in Run(st, events).ts ==>
              Run(st, events).ts[id] == LastEou(events, id, if id in st.ts then st.ts[id] else 0)
  {
    if events != [] {
      var init, last := events[..|events| - 1], events[|events| - 1];
      assert last in events && forall e :: e in init ==> e in events;
      StaysPendingIff(st, id, init);
      RunKeepsDict(st, init);
      StepKeepsKeyIff(Run(st, init), last, id);
      hide Step, Evicts, DictOk;
    }
  }

  /** So the next reply to an utterance is matched if and only if its key survived until then, whatever happened before
      and in between. */
  lemma {:induction false} ReplyIsMatchedIff(before: seq<Event>, id: string, between: seq<Event>, reply: Event)
    requires NoReplyTo(between, id) && reply.Tts? && reply.speechId == Some(id)
    ensures var st, events := Run(START, before), before + between;
            var stored := LastEou(between, id, if id in st.ts then st.ts[id] else 0);
            Run(START, events + [reply]).emitted ==
              if Survives(st, between, id) then
                Run(START, events).emitted + [Emission(id, reply.timestamp + reply.ttfb - stored)]
              else Run(START, events).emitted
  {
    NeverMoreThanTwenty(before);
    StaysPendingIff(Run(START, before), id, between);
    RunConcat(START, before, between);
    RunAppend(START, before + between, reply);
    hide DictOk, Survives, Without, Run, LastEou;
  }

  /** An utterance that is stored again just when its own key is the first of a full dictionary is not lost. */
  lemma {:induction false} OwnEvictionSurvives(st: State, id: string, timestamp: int)
    requires DictOk(st) && |st.order| == MAX_PENDING && st.order[0] == id
    ensures var e := Eou(Some(id), timestamp);
            && Evicts(st, e, id) && Survives(st, [e], id)
            && Step(st, e).order == st.order[1..] + [id] && Step(st, e).ts[id] == timestamp
  {
    hide Without;
  }
}
