/** The routing table and its reordering: ai-service/app/model_gateway/use_case_policy.py. */
module UseCasePolicies {
  import opened Common
  import opened CircuitBreaker

  datatype ProviderChoice = ProviderChoice(provider: Provider, model: Option<string>, timeoutS: Option<real>)

  datatype UseCasePolicy = UseCasePolicy(chain: seq<ProviderChoice>, rationale: string)

  // ---------------------------------------------------------------- _reorder_chain

  /** A tier with its position in the chain, as `enumerate` yields it. */
  datatype Ranked = Ranked(index: nat, choice: ProviderChoice)

  function Enumerate(chain: seq<ProviderChoice>, from: nat): seq<Ranked> {
    if chain == [] then [] else [Ranked(from, chain[0])] + Enumerate(chain[1..], from + 1)
  }

  function Choices(s: seq<Ranked>): seq<ProviderChoice> {
    if s == [] then [] else [s[0].choice] + Choices(s[1..])
  }

  /** `{provider: i for i, provider in enumerate(order)}`: a repeated provider keeps its last position. */
  function PriorityMap(order: seq<Provider>): map<Provider, nat> {
    if order == [] then map[]
    else PriorityMap(order[..|order| - 1])[order[|order| - 1] := |order| - 1]
  }

  function Primary(prio: map<Provider, nat>, n: nat, x: Ranked): nat {
    if x.choice.provider in prio then prio[x.choice.provider] else n + x.index
  }

  /** The sort key compared lexicographically: the primary key, then the position. */
  predicate Before(prio: map<Provider, nat>, n: nat, x: Ranked, y: Ranked) {
    Primary(prio, n, x) < Primary(prio, n, y) || (Primary(prio, n, x) == Primary(prio, n, y) && x.index < y.index)
  }

  function Insert(prio: map<Provider, nat>, n: nat, x: Ranked, s: seq<Ranked>): seq<Ranked> {
    if s == [] || Before(prio, n, x, s[0]) then [x] + s else [s[0]] + Insert(prio, n, x, s[1..])
  }

  function SortRanked(prio: map<Provider, nat>, n: nat, s: seq<Ranked>): seq<Ranked> {
    if s == [] then [] else Insert(prio, n, s[0], SortRanked(prio, n, s[1..]))
  }

  /** `_reorder_chain`. */
  function ReorderChain(chain: seq<ProviderChoice>, order: seq<Provider>): seq<ProviderChoice> {
    Choices(SortRanked(PriorityMap(order), |order|, Enumerate(chain, 0)))
  }

  // ---------------------------------------------------------------- the specification

  function TiersOf(chain: seq<ProviderChoice>, p: Provider): seq<ProviderChoice> {
    if chain == [] then []
    else if chain[0].provider == p then [chain[0]] + TiersOf(chain[1..], p)
    else TiersOf(chain[1..], p)
  }

  function Unmentioned(chain: seq<ProviderChoice>, order: seq<Provider>): seq<ProviderChoice> {
    if chain == [] then []
    else if chain[0].provider in order then Unmentioned(chain[1..], order)
    else [chain[0]] + Unmentioned(chain[1..], order)
  }

  /** Provider by provider in `order`; a repeated provider is placed where it is named last. */
  function Grouped(chain: seq<ProviderChoice>, order: seq<Provider>): seq<ProviderChoice> {
    if order == [] then []
    else (if order[0] in order[1..] then [] else TiersOf(chain, order[0])) + Grouped(chain, order[1..])
  }

  // ---------------------------------------------------------------- sorted ranks are grouped ranks

  function GroupAt(prio: map<Provider, nat>, s: seq<Ranked>, i: nat): seq<Ranked> {
    if s == [] then []
    else if s[0].choice.provider in prio && prio[s[0].choice.provider] == i then [s[0]] + GroupAt(prio, s[1..], i)
    else GroupAt(prio, s[1..], i)
  }

  function GroupsFrom(prio: map<Provider, nat>, s: seq<Ranked>, lo: nat, hi: nat): seq<Ranked>
    requires lo <= hi
    decreases hi - lo
  {
    if lo == hi then [] else GroupAt(prio, s, lo) + GroupsFrom(prio, s, lo + 1, hi)
  }

  function NoGroup(prio: map<Provider, nat>, s: seq<Ranked>): seq<Ranked> {
    if s == [] then []
    else if s[0].choice.provider in prio then NoGroup(prio, s[1..])
    else [s[0]] + NoGroup(prio, s[1..])
  }

  predicate AllBefore(prio: map<Provider, nat>, n: nat, s: seq<Ranked>, x: Ranked) {
    forall y :: y in s ==> Before(prio, n, y, x)
  }

  predicate AllAfter(prio: map<Provider, nat>, n: nat, x: Ranked, s: seq<Ranked>) {
    forall y :: y in s ==> Before(prio, n, x, y)
  }

  lemma {:induction false} InsertBetween(prio: map<Provider, nat>, n: nat, a: seq<Ranked>, x: Ranked, b: seq<Ranked>)
    requires AllBefore(prio, n, a, x) && AllAfter(prio, n, x, b)
    ensures Insert(prio, n, x, a + b) == a + [x] + b
  {
    if a == [] {
      assert a + b == b && a + [x] + b == [x] + b;
      assert b != [] ==> b[0] in b;
    } else {
      assert a[0] in a && (a + b)[0] == a[0];
      assert (a + b)[1..] == a[1..] + b;
      InsertBetween(prio, n, a[1..], x, b);
      assert [a[0]] + (a[1..] + [x] + b) == a + [x] + b;
    }
  }

  lemma {:induction false} GroupMembers(prio: map<Provider, nat>, s: seq<Ranked>, i: nat)
    ensures forall y :: y in GroupAt(prio, s, i) ==> y in s && y.choice.provider in prio && prio[y.choice.provider] == i
  {
    if s != [] {
      GroupMembers(prio, s[1..], i);
    }
  }

  lemma {:induction false} GroupsMembers(prio: map<Provider, nat>, s: seq<Ranked>, lo: nat, hi: nat)
    requires lo <= hi
    ensures forall y :: y in GroupsFrom(prio, s, lo, hi) ==>
              y in s && y.choice.provider in prio && lo <= prio[y.choice.provider] < hi
    decreases hi - lo
  {
    if lo < hi {
      GroupMembers(prio, s, lo);
      GroupsMembers(prio, s, lo + 1, hi);
    }
  }

  lemma {:induction false} NoGroupMembers(prio: map<Provider, nat>, s: seq<Ranked>)
    ensures forall y :: y in NoGroup(prio, s) ==> y in s && y.choice.provider !in prio
  {
    if s != [] {
      NoGroupMembers(prio, s[1..]);
    }
  }

  lemma {:induction false} GroupsOfNone(prio: map<Provider, nat>, lo: nat, hi: nat)
    requires lo <= hi
    ensures GroupsFrom(prio, [], lo, hi) == []
    decreases hi - lo
  {
    if lo < hi {
      GroupsOfNone(prio, lo + 1, hi);
    }
  }

  lemma {:induction false} GroupOfCons(prio: map<Provider, nat>, x: Ranked, s: seq<Ranked>, i: nat)
    ensures GroupAt(prio, [x] + s, i)
         == if x.choice.provider in prio && prio[x.choice.provider] == i then [x] + GroupAt(prio, s, i)
            else GroupAt(prio, s, i)
  {
    assert ([x] + s)[1..] == s;
  }

  lemma {:induction false} OtherGroupsOfCons(prio: map<Provider, nat>, x: Ranked, s: seq<Ranked>, lo: nat, hi: nat)
    requires lo <= hi
    requires x.choice.provider in prio ==> !(lo <= prio[x.choice.provider] < hi)
    ensures GroupsFrom(prio, [x] + s, lo, hi) == GroupsFrom(prio, s, lo, hi)
    decreases hi - lo
  {
    if lo < hi {
      GroupOfCons(prio, x, s, lo);
      OtherGroupsOfCons(prio, x, s, lo + 1, hi);
    }
  }

  /** A new head joins the front of its own group and leaves the other groups alone. */
  lemma {:induction false} GroupsOfCons(prio: map<Provider, nat>, x: Ranked, s: seq<Ranked>, n: nat)
    requires x.choice.provider in prio && prio[x.choice.provider] < n
    ensures var k := prio[x.choice.provider];
            GroupsFrom(prio, [x] + s, 0, n) == GroupsFrom(prio, s, 0, k) + ([x] + GroupsFrom(prio, s, k, n))
  {
    hide GroupsFrom, GroupAt;
    var k := prio[x.choice.provider];
    GroupsSplit(prio, [x] + s, 0, k, n);
    OtherGroupsOfCons(prio, x, s, 0, k);
    GroupsHead(prio, [x] + s, k, n);
    GroupOfCons(prio, x, s, k);
    OtherGroupsOfCons(prio, x, s, k + 1, n);
    GroupsHead(prio, s, k, n);
    Associate([x], GroupAt(prio, s, k), GroupsFrom(prio, s, k + 1, n));
  }

  lemma {:induction false} GroupsHead(prio: map<Provider, nat>, s: seq<Ranked>, lo: nat, hi: nat)
    requires lo < hi
    ensures GroupsFrom(prio, s, lo, hi) == GroupAt(prio, s, lo) + GroupsFrom(prio, s, lo + 1, hi)
  {
  }

  lemma {:induction false} Associate<T>(a: seq<T>, b: seq<T>, c: seq<T>)
    ensures (a + b) + c == a + (b + c)
  {
  }

  /** One step of the insertion: the head goes to its place among the sorted rest. */
  lemma {:induction false} InsertIntoGroups(prio: map<Provider, nat>, n: nat, x: Ranked, rest: seq<Ranked>)
    requires forall p :: p in prio ==> prio[p] < n
    requires forall y :: y in rest ==> x.index < y.index
    ensures Insert(prio, n, x, GroupsFrom(prio, rest, 0, n) + NoGroup(prio, rest))
         == GroupsFrom(prio, [x] + rest, 0, n) + NoGroup(prio, [x] + rest)
  {
    hide GroupsFrom, GroupAt, Insert, NoGroup;
    NoGroupMembers(prio, rest);
    NoGroupOfCons(prio, x, rest);
    if x.choice.provider in prio {
      InsertMentioned(prio, n, x, rest, NoGroup(prio, rest));
    } else {
      GroupsMembers(prio, rest, 0, n);
      OtherGroupsOfCons(prio, x, rest, 0, n);
      InsertBetween(prio, n, GroupsFrom(prio, rest, 0, n), x, NoGroup(prio, rest));
      Associate(GroupsFrom(prio, rest, 0, n), [x], NoGroup(prio, rest));
    }
  }

  lemma {:induction false} NoGroupOfCons(prio: map<Provider, nat>, x: Ranked, s: seq<Ranked>)
    ensures NoGroup(prio, [x] + s) == if x.choice.provider in prio then NoGroup(prio, s) else [x] + NoGroup(prio, s)
  {
    assert ([x] + s)[1..] == s;
  }

  lemma {:induction false} InsertMentioned(prio: map<Provider, nat>, n: nat, x: Ranked, rest: seq<Ranked>,
                                           others: seq<Ranked>)
    requires x.choice.provider in prio && prio[x.choice.provider] < n
    requires forall y :: y in rest ==> x.index < y.index
    requires forall y :: y in others ==> y in rest && y.choice.provider !in prio
    ensures Insert(prio, n, x, GroupsFrom(prio, rest, 0, n) + others) == GroupsFrom(prio, [x] + rest, 0, n) + others
  {
    hide GroupsFrom, GroupAt, Insert;
    var k := prio[x.choice.provider];
    var a, b := GroupsFrom(prio, rest, 0, k), GroupsFrom(prio, rest, k, n);
    GroupsMembers(prio, rest, 0, k);
    GroupsMembers(prio, rest, k, n);
    GroupsSplit(prio, rest, 0, k, n);
    GroupsOfCons(prio, x, rest, n);
    InsertBetween(prio, n, a, x, b + others);
    Associate(a, b, others);
    Associate(a, [x], b + others);
    Associate([x], b, others);
    Associate(a, [x] + b, others);
  }

  lemma {:induction false} SortIsGroups(prio: map<Provider, nat>, n: nat, s: seq<Ranked>)
    requires forall p :: p in prio ==> prio[p] < n
    requires forall i, j :: 0 <= i < j < |s| ==> s[i].index < s[j].index
    ensures SortRanked(prio, n, s) == GroupsFrom(prio, s, 0, n) + NoGroup(prio, s)
  {
    if s == [] {
      GroupsOfNone(prio, 0, n);
    } else {
      assert s == [s[0]] + s[1..];
      SortIsGroups(prio, n, s[1..]);
      assert forall y :: y in s[1..] ==> s[0].index < y.index;
      InsertIntoGroups(prio, n, s[0], s[1..]);
    }
  }

  lemma {:induction false} GroupsSplit(prio: map<Provider, nat>, s: seq<Ranked>, lo: nat, k: nat, hi: nat)
    requires lo <= k <= hi
    ensures GroupsFrom(prio, s, lo, hi) == GroupsFrom(prio, s, lo, k) + GroupsFrom(prio, s, k, hi)
    decreases k - lo
  {
    if lo < k {
      GroupsSplit(prio, s, lo + 1, k, hi);
    }
  }

  // ---------------------------------------------------------------- from ranks back to tiers

  lemma {:induction false} ChoicesConcat(a: seq<Ranked>, b: seq<Ranked>)
    ensures Choices(a + b) == Choices(a) + Choices(b)
  {
    if a == [] {
      assert a + b == b;
    } else {
      assert (a + b)[1..] == a[1..] + b;
      ChoicesConcat(a[1..], b);
    }
  }

  lemma {:induction false} PriorityIsLastPosition(order: seq<Provider>, p: Provider)
    ensures p in PriorityMap(order) <==> p in order
    ensures p in order ==>
              var k := PriorityMap(order)[p];
              k < |order| && order[k] == p && p !in order[k + 1..]
  {
    if order != [] {
      var init, last := order[..|order| - 1], order[|order| - 1];
      assert order == init + [last];
      PriorityIsLastPosition(init, p);
      if p in init && p != last {
        var k := PriorityMap(init)[p];
        assert order[k + 1..] == init[k + 1..] + [last];
      }
    }
  }

  lemma {:induction false} GroupIsTiers(order: seq<Provider>, chain: seq<ProviderChoice>, from: nat, i: nat)
    requires i < |order|
    ensures Choices(GroupAt(PriorityMap(order), Enumerate(chain, from), i))
         == if order[i] in order[i + 1..] then [] else TiersOf(chain, order[i])
  {
    if chain != [] {
      var x := Ranked(from, chain[0]);
      assert Enumerate(chain, from)[1..] == Enumerate(chain[1..], from + 1);
      GroupIsTiers(order, chain[1..], from + 1, i);
      HasPriority(order, chain[0].provider, i);
      ChoicesConcat([x], GroupAt(PriorityMap(order), Enumerate(chain[1..], from + 1), i));
      assert Choices([x]) == [chain[0]];
    }
  }

  lemma {:induction false} LastPositionIsUnique(order: seq<Provider>, p: Provider, i: nat, k: nat)
    requires i < |order| && k < |order| && order[i] == order[k] == p
    requires p !in order[i + 1..] && p !in order[k + 1..]
    ensures i == k
  {
    assert forall j :: i < j < |order| ==> order[j] == order[i + 1..][j - i - 1];
    assert forall j :: k < j < |order| ==> order[j] == order[k + 1..][j - k - 1];
  }

  lemma {:induction false} HasPriority(order: seq<Provider>, p: Provider, i: nat)
    requires i < |order|
    ensures p in PriorityMap(order) && PriorityMap(order)[p] == i <==> order[i] == p && p !in order[i + 1..]
  {
    PriorityIsLastPosition(order, p);
    if order[i] == p && p !in order[i + 1..] {
      assert p in order;
      LastPositionIsUnique(order, p, i, PriorityMap(order)[p]);
    }
  }

  lemma {:induction false} GroupsAreGrouped(order: seq<Provider>, chain: seq<ProviderChoice>, lo: nat)
    requires lo <= |order|
    ensures Choices(GroupsFrom(PriorityMap(order), Enumerate(chain, 0), lo, |order|)) == Grouped(chain, order[lo..])
    decreases |order| - lo
  {
    if lo < |order| {
      var prio, s := PriorityMap(order), Enumerate(chain, 0);
      GroupsAreGrouped(order, chain, lo + 1);
      GroupIsTiers(order, chain, 0, lo);
      ChoicesConcat(GroupAt(prio, s, lo), GroupsFrom(prio, s, lo + 1, |order|));
      assert order[lo..][1..] == order[lo + 1..];
    }
  }

  lemma {:induction false} NoGroupIsUnmentioned(order: seq<Provider>, chain: seq<ProviderChoice>, from: nat)
    ensures Choices(NoGroup(PriorityMap(order), Enumerate(chain, from))) == Unmentioned(chain, order)
  {
    if chain != [] {
      var x := Ranked(from, chain[0]);
      assert Enumerate(chain, from)[1..] == Enumerate(chain[1..], from + 1);
      NoGroupIsUnmentioned(order, chain[1..], from + 1);
      PriorityIsLastPosition(order, chain[0].provider);
      ChoicesConcat([x], NoGroup(PriorityMap(order), Enumerate(chain[1..], from + 1)));
      assert Choices([x]) == [chain[0]];
    }
  }

  lemma {:induction false} EnumerateIncreases(chain: seq<ProviderChoice>, from: nat)
    ensures var s := Enumerate(chain, from);
            |s| == |chain| && forall i :: 0 <= i < |s| ==> s[i] == Ranked(from + i, chain[i])
  {
    if chain != [] {
      EnumerateIncreases(chain[1..], from + 1);
    }
  }

  /** The keyed sort is the plain grouping, for every order, repeated providers included. */
  lemma {:induction false} ReorderIsGrouping(chain: seq<ProviderChoice>, order: seq<Provider>)
    ensures ReorderChain(chain, order) == Grouped(chain, order) + Unmentioned(chain, order)
  {
    var prio, s := PriorityMap(order), Enumerate(chain, 0);
    EnumerateIncreases(chain, 0);
    forall p | p in prio ensures prio[p] < |order| {
      PriorityIsLastPosition(order, p);
    }
    SortIsGroups(prio, |order|, s);
    ChoicesConcat(GroupsFrom(prio, s, 0, |order|), NoGroup(prio, s));
    GroupsAreGrouped(order, chain, 0);
    NoGroupIsUnmentioned(order, chain, 0);
    assert order[0..] == order;
  }

  // ---------------------------------------------------------------- consequences

  lemma {:induction false} TiersConcat(a: seq<ProviderChoice>, b: seq<ProviderChoice>, p: Provider)
    ensures TiersOf(a + b, p) == TiersOf(a, p) + TiersOf(b, p)
  {
    if a == [] {
      assert a + b == b;
    } else {
      assert (a + b)[1..] == a[1..] + b;
      TiersConcat(a[1..], b, p);
    }
  }

  lemma {:induction false} UnmentionedConcat(a: seq<ProviderChoice>, b: seq<ProviderChoice>, order: seq<Provider>)
    ensures Unmentioned(a + b, order) == Unmentioned(a, order) + Unmentioned(b, order)
  {
    if a == [] {
      assert a + b == b;
    } else {
      assert (a + b)[1..] == a[1..] + b;
      UnmentionedConcat(a[1..], b, order);
    }
  }

  lemma {:induction false} FiltersCompose(chain: seq<ProviderChoice>, p: Provider, q: Provider, order: seq<Provider>)
    ensures TiersOf(TiersOf(chain, q), p) == if p == q then TiersOf(chain, p) else []
    ensures TiersOf(Unmentioned(chain, order), p) == if p in order then [] else TiersOf(chain, p)
    ensures q in order ==> Unmentioned(TiersOf(chain, q), order) == []
    ensures Unmentioned(Unmentioned(chain, order), order) == Unmentioned(chain, order)
  {
    if chain != [] {
      FiltersCompose(chain[1..], p, q, order);
    }
  }

  lemma {:induction false} TiersOfGrouped(chain: seq<ProviderChoice>, order: seq<Provider>, p: Provider)
    ensures TiersOf(Grouped(chain, order), p) == if p in order then TiersOf(chain, p) else []
  {
    if order != [] {
      var q, rest := order[0], order[1..];
      var head := if q in rest then [] else TiersOf(chain, q);
      assert p in order <==> p == q || p in rest;
      TiersOfGrouped(chain, rest, p);
      FiltersCompose(chain, p, q, order);
      TiersConcat(head, Grouped(chain, rest), p);
      assert head == [] ==> TiersOf(head, p) == [];
      hide TiersOf;
    }
  }

  lemma {:induction false} NoneUnmentionedInGrouped(chain: seq<ProviderChoice>, order: seq<Provider>,
                                                    all: seq<Provider>)
    requires forall q :: q in order ==> q in all
    ensures Unmentioned(Grouped(chain, order), all) == []
  {
    if order != [] {
      var q, rest := order[0], order[1..];
      var head := if q in rest then [] else TiersOf(chain, q);
      NoneUnmentionedInGrouped(chain, rest, all);
      FiltersCompose(chain, q, q, all);
      UnmentionedConcat(head, Grouped(chain, rest), all);
    }
  }

  /** Stability: the tiers of one provider keep their order, and so do the unmentioned tiers. */
  lemma {:induction false} ReorderIsStable(chain: seq<ProviderChoice>, order: seq<Provider>, p: Provider)
    ensures TiersOf(ReorderChain(chain, order), p) == TiersOf(chain, p)
    ensures Unmentioned(ReorderChain(chain, order), order) == Unmentioned(chain, order)
  {
    ReorderIsGrouping(chain, order);
    TiersOfGrouped(chain, order, p);
    NoneUnmentionedInGrouped(chain, order, order);
    FiltersCompose(chain, p, p, order);
    TiersConcat(Grouped(chain, order), Unmentioned(chain, order), p);
    UnmentionedConcat(Grouped(chain, order), Unmentioned(chain, order), order);
  }

  lemma {:induction false} CountInTiers(chain: seq<ProviderChoice>, c: ProviderChoice)
    ensures multiset(chain)[c] == multiset(TiersOf(chain, c.provider))[c]
  {
    if chain != [] {
      assert chain == [chain[0]] + chain[1..];
      CountInTiers(chain[1..], c);
    }
  }

  /** Reordering never adds or removes a tier. */
  lemma {:induction false} ReorderIsPermutation(chain: seq<ProviderChoice>, order: seq<Provider>)
    ensures multiset(ReorderChain(chain, order)) == multiset(chain)
    ensures |ReorderChain(chain, order)| == |chain|
  {
    var r := ReorderChain(chain, order);
    forall c: ProviderChoice ensures multiset(r)[c] == multiset(chain)[c] {
      CountInTiers(r, c);
      CountInTiers(chain, c);
      ReorderIsStable(chain, order, c.provider);
    }
    assert multiset(r) == multiset(chain);
    assert |multiset(r)| == |r| && |multiset(chain)| == |chain|;
  }

  lemma {:induction false} GroupedByTiers(a: seq<ProviderChoice>, b: seq<ProviderChoice>, order: seq<Provider>)
    requires forall p :: TiersOf(a, p) == TiersOf(b, p)
    ensures Grouped(a, order) == Grouped(b, order)
  {
    if order != [] {
      GroupedByTiers(a, b, order[1..]);
    }
  }

  /** Sorting a sorted chain changes nothing, although the sort keys depend on the positions. */
  lemma {:induction false} ReorderIsIdempotent(chain: seq<ProviderChoice>, order: seq<Provider>)
    ensures ReorderChain(ReorderChain(chain, order), order) == ReorderChain(chain, order)
  {
    var r := ReorderChain(chain, order);
    forall p ensures TiersOf(r, p) == TiersOf(chain, p) {
      ReorderIsStable(chain, order, p);
    }
    ReorderIsStable(chain, order, OpenAI);
    ReorderIsGrouping(chain, order);
    ReorderIsGrouping(r, order);
    GroupedByTiers(r, chain, order);
  }

  // ---------------------------------------------------------------- any sorting algorithm will do

  predicate SortedRanks(prio: map<Provider, nat>, n: nat, s: seq<Ranked>) {
    forall i, j :: 0 <= i < j < |s| ==> Before(prio, n, s[i], s[j])
  }

  lemma {:induction false} InsertAddsOne(prio: map<Provider, nat>, n: nat, x: Ranked, s: seq<Ranked>)
    ensures multiset(Insert(prio, n, x, s)) == multiset{x} + multiset(s)
    ensures forall y :: y in Insert(prio, n, x, s) ==> y == x || y in s
  {
    hide Before;
    if s != [] && !Before(prio, n, x, s[0]) {
      InsertAddsOne(prio, n, x, s[1..]);
      assert s == [s[0]] + s[1..];
    }
  }

  lemma {:induction false} InsertKeepsOrder(prio: map<Provider, nat>, n: nat, x: Ranked, s: seq<Ranked>)
    requires SortedRanks(prio, n, s) && forall y :: y in s ==> y.index != x.index
    ensures SortedRanks(prio, n, Insert(prio, n, x, s))
  {
    if s != [] && !Before(prio, n, x, s[0]) {
      InsertKeepsOrder(prio, n, x, s[1..]);
      InsertAddsOne(prio, n, x, s[1..]);
      var r := Insert(prio, n, x, s[1..]);
      assert Before(prio, n, s[0], x);
      forall i | 0 <= i < |r| ensures Before(prio, n, s[0], r[i]) {
        assert r[i] == x || r[i] in s[1..];
      }
    }
  }

  lemma {:induction false} SortIsSorted(prio: map<Provider, nat>, n: nat, s: seq<Ranked>)
    requires forall i, j :: 0 <= i < j < |s| ==> s[i].index < s[j].index
    ensures SortedRanks(prio, n, SortRanked(prio, n, s))
    ensures multiset(SortRanked(prio, n, s)) == multiset(s)
  {
    if s != [] {
      assert s == [s[0]] + s[1..];
      SortIsSorted(prio, n, s[1..]);
      forall y | y in SortRanked(prio, n, s[1..]) ensures y.index != s[0].index {
        assert y in multiset(s[1..]);
      }
      InsertKeepsOrder(prio, n, s[0], SortRanked(prio, n, s[1..]));
      InsertAddsOne(prio, n, s[0], SortRanked(prio, n, s[1..]));
    }
  }

  lemma {:induction false} SameHead(prio: map<Provider, nat>, n: nat, r: seq<Ranked>, t: seq<Ranked>)
    requires r != [] && multiset(r) == multiset(t) && SortedRanks(prio, n, r) && SortedRanks(prio, n, t)
    ensures t != [] && r[0] == t[0]
  {
    assert r[0] in multiset(t);
    assert t[0] in multiset(r);
    var i :| 0 <= i < |t| && t[i] == r[0];
    var j :| 0 <= j < |r| && r[j] == t[0];
    assert i == 0 || Before(prio, n, t[0], r[0]);
    assert j == 0 || Before(prio, n, r[0], t[0]);
  }

  lemma {:induction false} TailMultiset(s: seq<Ranked>)
    requires s != []
    ensures s == [s[0]] + s[1..] && multiset(s[1..]) == multiset(s) - multiset{s[0]}
  {
    assert s == [s[0]] + s[1..];
  }

  lemma {:induction false} SortedTail(prio: map<Provider, nat>, n: nat, s: seq<Ranked>)
    requires s != [] && SortedRanks(prio, n, s)
    ensures SortedRanks(prio, n, s[1..])
  {
    hide Before;
  }

  lemma {:induction false} SortedIsUnique(prio: map<Provider, nat>, n: nat, r: seq<Ranked>, t: seq<Ranked>)
    requires multiset(r) == multiset(t) && SortedRanks(prio, n, r) && SortedRanks(prio, n, t)
    ensures r == t
    decreases |r|
  {
    assert |multiset(r)| == |r| && |multiset(t)| == |t|;
    if r != [] {
      SameHead(prio, n, r, t);
      TailMultiset(r);
      TailMultiset(t);
      SortedTail(prio, n, r);
      SortedTail(prio, n, t);
      hide SortedRanks;
      SortedIsUnique(prio, n, r[1..], t[1..]);
    }
  }

  /** Whatever `list.sort` does, an arrangement of the enumerated tiers in key order is this one. */
  lemma {:induction false} AnySortAgrees(chain: seq<ProviderChoice>, order: seq<Provider>, r: seq<Ranked>)
    requires multiset(r) == multiset(Enumerate(chain, 0)) && SortedRanks(PriorityMap(order), |order|, r)
    ensures Choices(r) == Grouped(chain, order) + Unmentioned(chain, order)
  {
    EnumerateIncreases(chain, 0);
    SortIsSorted(PriorityMap(order), |order|, Enumerate(chain, 0));
    SortedIsUnique(PriorityMap(order), |order|, r, SortRanked(PriorityMap(order), |order|, Enumerate(chain, 0)));
    ReorderIsGrouping(chain, order);
  }

  // ---------------------------------------------------------------- the table

  /** The table with the chain of every named use case reordered. */
  function Prioritised(policies: map<string, UseCasePolicy>, useCases: seq<string>,
                       order: seq<Provider>): map<string, UseCasePolicy> {
    map u | u in policies ::
      if u in useCases then policies[u].(chain := ReorderChain(policies[u].chain, order)) else policies[u]
  }

  /** Reordering touches the chains of the named use cases, and those only in the order of their tiers. */
  lemma {:induction false} PrioritisedIsExact(policies: map<string, UseCasePolicy>, useCases: seq<string>,
                                              order: seq<Provider>)
    ensures var after := Prioritised(policies, useCases, order);
            && after.Keys == policies.Keys
            && forall u :: u in policies ==>
                 && after[u].rationale == policies[u].rationale
                 && after[u].chain == if u in useCases then Grouped(policies[u].chain, order)
                                                          + Unmentioned(policies[u].chain, order)
                                      else policies[u].chain
  {
    hide ReorderChain, Grouped, Unmentioned;
    forall u | u in policies {
      ReorderIsGrouping(policies[u].chain, order);
    }
  }

  class PolicyTable {
    var policies: map<string, UseCasePolicy>

    constructor ()
      ensures policies == map[]
    {
      policies := map[];
    }

    method GetPolicy(useCase: string) returns (policy: Option<UseCasePolicy>)
      ensures policy == if useCase in policies then Some(policies[useCase]) else None
    {
      if useCase !in policies {
        return None;
      }
      return Some(policies[useCase]);
    }

    /** False is the KeyError of the first use case that is missing; the ones before it are reordered. */
    method ApplyProviderPriority(useCases: seq<string>, order: seq<Provider>) returns (ok: bool)
      modifies this
      ensures ok <==> forall u :: u in useCases ==> u in old(policies)
      ensures ok ==> policies == Prioritised(old(policies), useCases, order)
      ensures !ok ==> (exists i :: (
                         && 0 <= i < |useCases| && useCases[i] !in old(policies)
                         && (forall j :: 0 <= j < i ==> useCases[j] in old(policies))
                         && policies == Prioritised(old(policies), useCases[..i], order)))
    {
      for i := 0 to |useCases|
        invariant forall u :: u in useCases[..i] ==> u in old(policies)
        invariant policies == Prioritised(old(policies), useCases[..i], order)
      {
        var u := useCases[i];
        var policy := GetPolicy(u);
        if policy.None? {
          return false;
        }
        policies := policies[u := UseCasePolicy(ReorderChain(policy.value.chain, order), policy.value.rationale)];
        assert useCases[..i + 1] == useCases[..i] + [u];
        PrioritisedStep(old(policies), useCases[..i], u, order);
      }
      assert useCases[..|useCases|] == useCases;
      return true;
    }

    /** A use case named twice is sorted twice, which is the same as once. */
    lemma {:induction false} PrioritisedStep(policies: map<string, UseCasePolicy>, useCases: seq<string>, u: string,
                                             order: seq<Provider>)
      requires u in policies
      ensures var p := Prioritised(policies, useCases, order);
              Prioritised(policies, useCases + [u], order)
              == p[u := UseCasePolicy(ReorderChain(p[u].chain, order), p[u].rationale)]
    {
      ReorderIsIdempotent(policies[u].chain, order);
    }
  }
}
