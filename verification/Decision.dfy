/** Failing over from one decision provider to the next (agent/decision.py). */
module Decision {
  import opened Wrappers
  import opened Sorting
  import opened ProviderHealth

  /** What putting the decision to a provider comes to; a failure carries its kind and the end it states. */
  datatype CallOutcome =
    | Answer(value: int, latency: real)
    | CancelledCall
    | FailedCall(kind: string, parsed: Option<real>)

  /** What the k-th call of an attempt comes to when it is made to a given provider. */
  type Calls = (nat, string) -> CallOutcome

  datatype AttemptResult = Decided(provider: string, value: int) | Cancelled(provider: string) | NobodyReady | AllFailed

  function Kept(ordered: seq<string>, ready: set<string>): seq<string> {
    if ordered == [] then []
    else (if ordered[0] in ready then [ordered[0]] else []) + Kept(ordered[1..], ready)
  }

  function ReadySet(states: map<string, ProviderState>, now: real, names: seq<string>): set<string> {
    set n | n in names && Lookup(states, n).Ready(now)
  }

  /** The providers that may be asked, in the order they would be: ready when the call began, ordered just after. */
  function Queue(
    states: map<string, ProviderState>, scores: map<string, real>, mode: Mode, names: seq<string>,
    began: real, ordered: real): seq<string>
  {
    Kept(Names(Ranked(states, scores, mode, ordered, names)), ReadySet(states, began, names))
  }

  /** The first call, from the `k`-th on, that does not fail; the length of the queue when all of them fail. */
  function Settling(queue: seq<string>, calls: Calls, k: nat): (r: nat)
    requires k <= |queue|
    ensures k <= r <= |queue|
    ensures forall j :: k <= j < r ==> calls(j, queue[j]).FailedCall?
    ensures r < |queue| ==> !calls(r, queue[r]).FailedCall?
    decreases |queue| - k
  {
    if k == |queue| || !calls(k, queue[k]).FailedCall? then k else Settling(queue, calls, k + 1)
  }

  /** Those actually asked: up to and including the first whose call does not fail. */
  function Tried(queue: seq<string>, calls: Calls): seq<string> {
    var k := Settling(queue, calls, 0);
    if k == |queue| then queue else queue[..k + 1]
  }

  function Verdict(queue: seq<string>, calls: Calls): AttemptResult {
    var k := Settling(queue, calls, 0);
    if k == |queue| then AllFailed
    else
      match calls(k, queue[k])
      case Answer(value, _) => Decided(queue[k], value)
      case _ => Cancelled(queue[k])
  }

  function Conclusion(ready: set<string>, queue: seq<string>, calls: Calls): AttemptResult {
    if ready == {} then NobodyReady else Verdict(queue, calls)
  }

  function AfterCall(states: map<string, ProviderState>, name: string, outcome: CallOutcome, now: real)
    : map<string, ProviderState>
  {
    match outcome
    case Answer(_, latency) => states[name := After(Lookup(states, name), Success(now, latency))]
    case CancelledCall => states
    case FailedCall(kind, parsed) =>
      states[name := After(Lookup(states, name), Failure(now, kind, None, parsed, true))]
  }

  /** The registry after asking `tried` one after the other; the k-th outcome is recorded at clock(k). */
  function AfterCalls(
    states: map<string, ProviderState>, tried: seq<string>, calls: Calls, clock: nat -> real)
    : map<string, ProviderState>
  {
    if tried == [] then states
    else
      var n := |tried| - 1;
      AfterCall(AfterCalls(states, tried[..n], calls, clock), tried[n], calls(n, tried[n]), clock(n))
  }

  function ScoreOf(scores: map<string, real>, name: string): real { if name in scores then scores[name] else 1.0 }

  /** These entries of the configuration stand in the order they are to be asked at `at`: those that are
      ready before those that are not; by configured position within either group in CONFIGURED mode; and,
      among the ready in QUALITY mode, by higher score and then by configured position. */
  ghost predicate InAskingOrder(
    states: map<string, ProviderState>, scores: map<string, real>, mode: Mode, at: real, entries: seq<Entrant>)
  {
    forall i, j :: 0 <= i < j < |entries| ==>
      var a, b := entries[i], entries[j];
      var s, t := Lookup(states, a.name), Lookup(states, b.name);
      var readyA, readyB := at >= s.cooldownUntil && !s.probation, at >= t.cooldownUntil && !t.probation;
      && (readyB ==> readyA)
      && (mode == Configured && (readyA <==> readyB) ==> a.index < b.index)
      && (mode == Quality && readyA && readyB ==>
            || ScoreOf(scores, a.name) > ScoreOf(scores, b.name)
            || (ScoreOf(scores, a.name) == ScoreOf(scores, b.name) && a.index < b.index))
  }

  /** The names asked are entries of the configuration, in asking order. */
  ghost predicate AskedInOrder(
    states: map<string, ProviderState>, scores: map<string, real>, mode: Mode, names: seq<string>, at: real,
    asked: seq<string>)
  {
    exists entries: seq<Entrant> ::
      && |entries| == |asked|
      && (forall i :: 0 <= i < |asked| ==>
            && entries[i].name == asked[i]
            && entries[i].index < |names| && names[entries[i].index] == asked[i])
      && InAskingOrder(states, scores, mode, at, entries)
  }

  method ReadyNames(health: ProviderHealthRegistry, names: seq<string>, now: real) returns (ready: seq<string>)
    requires health.Valid()
    modifies health`states, health`history
    ensures health.Valid() && health.states == WithDefaults(old(health.states), names)
    ensures ready == ReadyOf(old(health.states), now,
                             Names(Ranked(old(health.states), health.scores, health.mode, now, names)))
  {
    ghost var before := health.states;
    var ordered := health.Order(names, now);
    ready := PickReady(health.states, now, ordered);
    ReadyOfDefaults(before, names, now, ordered);
  }

  method PickReady(states: map<string, ProviderState>, now: real, ordered: seq<string>) returns (ready: seq<string>)
    ensures ready == ReadyOf(states, now, ordered)
  {
    ready := [];
    var i := 0;
    while i < |ordered|
      invariant 0 <= i <= |ordered|
      invariant ready + ReadyOf(states, now, ordered[i..]) == ReadyOf(states, now, ordered)
    {
      assert ordered[i..][0] == ordered[i] && ordered[i..][1..] == ordered[i + 1..];
      if Lookup(states, ordered[i]).Ready(now) {
        ready := ready + [ordered[i]];
      }
      i := i + 1;
    }
  }

  method Attempt(
    health: ProviderHealthRegistry, names: seq<string>, calls: Calls,
    began: real, ordered: real, clock: nat -> real)
    returns (result: AttemptResult, tried: seq<string>)
    requires health.Valid()
    modifies health`states, health`history
    ensures health.Valid()
    ensures var queue := Queue(old(health.states), health.scores, health.mode, names, began, ordered);
            && tried == Tried(queue, calls)
            && result == Conclusion(ReadySet(old(health.states), began, names), queue, calls)
    ensures AskedInOrder(old(health.states), health.scores, health.mode, names, ordered, tried)
    ensures result == NobodyReady
       <==> forall n :: n in names ==> !Lookup(old(health.states), n).Ready(began)
    ensures health.states == AfterCalls(WithDefaults(old(health.states), names), tried, calls, clock)
  {
    ghost var before := health.states;
    TriedInOrder(before, health.scores, health.mode, names, began, ordered, calls);
    NobodyReadyExactly(before, health.scores, health.mode, names, began, ordered, calls);
    hide AskedInOrder, Verdict, Tried, Queue;
    var readyNames := ReadyNames(health, names, began);
    ReadyNamesAreReadySet(before, health.scores, health.mode, began, names);
    var ready := set n | n in readyNames;
    assert ready == ReadySet(before, began, names);
    if ready == {} {
      NobodyToAsk(before, health.scores, health.mode, names, began, ordered);
      return NobodyReady, [];
    }
    var order := health.Order(names, ordered);
    RankedDefaults(before, health.scores, health.mode, ordered, names);
    DefaultsTwice(before, names);
    result, tried := AskInTurn(health, order, ready, calls, clock);
  }

  /** Record what one call came to; a cancellation records nothing. */
  method AskOne(health: ProviderHealthRegistry, name: string, outcome: CallOutcome, moment: real)
    requires health.Valid()
    modifies health`states, health`history
    ensures health.Valid() && health.states == AfterCall(old(health.states), name, outcome, moment)
  {
    match outcome
    case Answer(_, latency) => health.RecordSuccess(name, moment, latency);
    case CancelledCall =>
    case FailedCall(kind, parsed) => health.RecordFailure(name, moment, kind, None, parsed, true);
  }

  /** Ask the ready providers one after the other until one of them does not fail. */
  method AskInTurn(
    health: ProviderHealthRegistry, order: seq<string>, ready: set<string>, calls: Calls,
    clock: nat -> real)
    returns (result: AttemptResult, tried: seq<string>)
    requires health.Valid()
    modifies health`states, health`history
    ensures health.Valid()
    ensures tried == Tried(Kept(order, ready), calls) && result == Verdict(Kept(order, ready), calls)
    ensures health.states == AfterCalls(old(health.states), tried, calls, clock)
  {
    ghost var base := health.states;
    ghost var queue := Kept(order, ready);
    tried := [];
    var i := 0;
    assert order[0..] == order;
    while i < |order|
      invariant 0 <= i <= |order| && health.Valid()
      invariant queue == tried + Kept(order[i..], ready)
      invariant Settling(queue, calls, 0) == Settling(queue, calls, |tried|)
      invariant health.states == AfterCalls(base, tried, calls, clock)
    {
      hide *;
      var name := order[i];
      KeptStep(order, i, ready);
      i := i + 1;
      if name !in ready {
        continue;
      }
      var outcome := calls(|tried|, name);
      Regroup(tried, name, Kept(order[i..], ready));
      CallOneMore(base, tried, name, calls, clock);
      SettlesAtCall(queue, calls, |tried|);
      AskOne(health, name, outcome, clock(|tried|));
      tried := tried + [name];
      if outcome.Answer? {
        return Decided(name, outcome.value), tried;
      }
      if outcome.CancelledCall? {
        return Cancelled(name), tried;
      }
    }
    NoneSettles(queue, calls);
    result := AllFailed;
  }

  // ----- helpers of the two methods

  lemma KeptStep(order: seq<string>, i: nat, ready: set<string>)
    requires i < |order|
    ensures Kept(order[i..], ready)
         == if order[i] in ready then [order[i]] + Kept(order[i + 1..], ready) else Kept(order[i + 1..], ready)
  {
    assert order[i..][0] == order[i] && order[i..][1..] == order[i + 1..];
  }

  lemma Regroup(tried: seq<string>, name: string, rest: seq<string>)
    ensures tried + ([name] + rest) == (tried + [name]) + rest
    ensures (tried + ([name] + rest))[|tried|] == name
    ensures (tried + ([name] + rest))[..|tried| + 1] == tried + [name]
  {
  }

  lemma SettlesAtCall(queue: seq<string>, calls: Calls, k: nat)
    requires k < |queue| && Settling(queue, calls, 0) == Settling(queue, calls, k)
    ensures calls(k, queue[k]).FailedCall? ==> Settling(queue, calls, 0) == Settling(queue, calls, k + 1)
    ensures !calls(k, queue[k]).FailedCall? ==> Tried(queue, calls) == queue[..k + 1]
    ensures calls(k, queue[k]).Answer? ==> Verdict(queue, calls) == Decided(queue[k], calls(k, queue[k]).value)
    ensures calls(k, queue[k]).CancelledCall? ==> Verdict(queue, calls) == Cancelled(queue[k])
  {
  }

  lemma NoneSettles(queue: seq<string>, calls: Calls)
    requires Settling(queue, calls, 0) == Settling(queue, calls, |queue|)
    ensures Tried(queue, calls) == queue && Verdict(queue, calls) == AllFailed
  {
  }

  lemma CallOneMore(
    base: map<string, ProviderState>, tried: seq<string>, name: string, calls: Calls, clock: nat -> real)
    ensures AfterCalls(base, tried + [name], calls, clock)
         == AfterCall(AfterCalls(base, tried, calls, clock), name, calls(|tried|, name), clock(|tried|))
  {
    assert (tried + [name])[..|tried|] == tried;
  }

  lemma DefaultsTwice(states: map<string, ProviderState>, names: seq<string>)
    ensures WithDefaults(WithDefaults(states, names), names) == WithDefaults(states, names)
  {
  }

  lemma DefaultsAreUnchanged(states: map<string, ProviderState>, names: seq<string>)
    ensures forall n :: Lookup(WithDefaults(states, names), n) == Lookup(states, n)
  {
  }

  lemma {:induction false} ReadyOfDefaults(
    states: map<string, ProviderState>, names: seq<string>, now: real, ordered: seq<string>)
    ensures ReadyOf(WithDefaults(states, names), now, ordered) == ReadyOf(states, now, ordered)
  {
    DefaultsAreUnchanged(states, names);
    if ordered != [] {
      ReadyOfDefaults(states, names, now, ordered[1..]);
    }
  }

  lemma {:induction false} SameInsert<T(!new)>(x: T, s: seq<T>, f: T -> Rank, g: T -> Rank)
    requires forall e :: f(e) == g(e)
    ensures Insert(x, s, f) == Insert(x, s, g)
  {
    if s != [] && f(s[0]).Below(f(x)) {
      SameInsert(x, s[1..], f, g);
    }
  }

  lemma {:induction false} SameSort<T(!new)>(xs: seq<T>, f: T -> Rank, g: T -> Rank)
    requires forall e :: f(e) == g(e)
    ensures SortedBy(xs, f) == SortedBy(xs, g)
  {
    if xs != [] {
      SameSort(xs[1..], f, g);
      SameInsert(xs[0], SortedBy(xs[1..], g), f, g);
    }
  }

  lemma RankedDefaults(
    states: map<string, ProviderState>, scores: map<string, real>, mode: Mode, now: real, names: seq<string>)
    ensures Ranked(WithDefaults(states, names), scores, mode, now, names) == Ranked(states, scores, mode, now, names)
  {
    DefaultsAreUnchanged(states, names);
    var filled := WithDefaults(states, names);
    SameSort(Enumerate(names),
      (e: Entrant) => Key(filled, scores, mode, now, e.name), (e: Entrant) => Key(states, scores, mode, now, e.name));
  }

  lemma {:induction false} ReadyOfMembers(states: map<string, ProviderState>, now: real, ordered: seq<string>, n: string)
    ensures n in ReadyOf(states, now, ordered) <==> n in ordered && Lookup(states, n).Ready(now)
  {
    if ordered != [] {
      ReadyOfMembers(states, now, ordered[1..], n);
      assert ordered == [ordered[0]] + ordered[1..];
    }
  }

  lemma RankedNames(
    states: map<string, ProviderState>, scores: map<string, real>, mode: Mode, now: real, names: seq<string>, n: string)
    ensures n in Names(Ranked(states, scores, mode, now, names)) <==> n in names
  {
    var ranked := Ranked(states, scores, mode, now, names);
    OrderIsSortedPermutation(states, scores, mode, now, names);
    if n in names {
      var i :| 0 <= i < |names| && names[i] == n;
      assert Enumerate(names)[i] in multiset(ranked);
      var k :| 0 <= k < |ranked| && ranked[k] == Enumerate(names)[i];
      assert Names(ranked)[k] == n;
    }
    if n in Names(ranked) {
      var k :| 0 <= k < |ranked| && Names(ranked)[k] == n;
      assert ranked[k] in multiset(Enumerate(names));
      var i :| 0 <= i < |names| && Enumerate(names)[i] == ranked[k];
      assert names[i] == n;
    }
  }

  lemma ReadyNamesAreReadySet(
    states: map<string, ProviderState>, scores: map<string, real>, mode: Mode, now: real, names: seq<string>)
    ensures var ready := ReadyOf(states, now, Names(Ranked(states, scores, mode, now, names)));
            forall n :: n in ready <==> n in ReadySet(states, now, names)
  {
    var ordered := Names(Ranked(states, scores, mode, now, names));
    forall n ensures n in ReadyOf(states, now, ordered) <==> n in ReadySet(states, now, names) {
      ReadyOfMembers(states, now, ordered, n);
      RankedNames(states, scores, mode, now, names, n);
    }
  }

  lemma NobodyToAsk(
    states: map<string, ProviderState>, scores: map<string, real>, mode: Mode, names: seq<string>,
    began: real, ordered: real)
    requires ReadySet(states, began, names) == {}
    ensures Queue(states, scores, mode, names, began, ordered) == []
  {
    KeptNone(Names(Ranked(states, scores, mode, ordered, names)));
  }

  lemma {:induction false} KeptNone(ordered: seq<string>)
    ensures Kept(ordered, {}) == []
  {
    if ordered != [] {
      KeptNone(ordered[1..]);
    }
  }

  // ----- what failing over guarantees

  /** The providers asked, the answers and the result fit together: the first that does not fail settles it. */
  lemma FirstNonFailureSettles(queue: seq<string>, calls: Calls)
    ensures var tried := Tried(queue, calls);
            && tried <= queue
            && (forall k :: 0 <= k < |tried| - 1 ==> calls(k, tried[k]).FailedCall?)
            && match Verdict(queue, calls)
               case Decided(name, value) =>
                 && tried != [] && tried[|tried| - 1] == name
                 && calls(|tried| - 1, name).Answer? && calls(|tried| - 1, name).value == value
               case Cancelled(name) =>
                 tried != [] && tried[|tried| - 1] == name && calls(|tried| - 1, name).CancelledCall?
               case AllFailed => tried == queue && forall k :: 0 <= k < |queue| ==> calls(k, queue[k]).FailedCall?
               case NobodyReady => false
  {
  }

  lemma {:induction false} KeptCounts(ordered: seq<string>, ready: set<string>, n: string)
    ensures multiset(Kept(ordered, ready))[n] == if n in ready then multiset(ordered)[n] else 0
  {
    if ordered != [] {
      KeptCounts(ordered[1..], ready, n);
      assert ordered == [ordered[0]] + ordered[1..];
    }
  }

  lemma {:induction false} InsertKeepsNames(x: Entrant, sorted: seq<Entrant>, rank: Entrant -> Rank)
    ensures multiset(Names(Insert(x, sorted, rank))) == multiset{x.name} + multiset(Names(sorted))
  {
    if sorted == [] || !rank(sorted[0]).Below(rank(x)) {
      assert Names([x] + sorted) == [x.name] + Names(sorted);
    } else {
      InsertKeepsNames(x, sorted[1..], rank);
      assert Names(sorted) == [sorted[0].name] + Names(sorted[1..]);
      assert Names(Insert(x, sorted, rank)) == [sorted[0].name] + Names(Insert(x, sorted[1..], rank));
    }
  }

  lemma {:induction false} SortKeepsNames(xs: seq<Entrant>, rank: Entrant -> Rank)
    ensures multiset(Names(SortedBy(xs, rank))) == multiset(Names(xs))
  {
    if xs != [] {
      SortKeepsNames(xs[1..], rank);
      InsertKeepsNames(xs[0], SortedBy(xs[1..], rank), rank);
      assert Names(xs) == [xs[0].name] + Names(xs[1..]);
    }
  }

  /** A provider ready at the start is queued as often as it is configured, any other never. */
  lemma QueuedAsOftenAsConfigured(
    states: map<string, ProviderState>, scores: map<string, real>, mode: Mode, names: seq<string>,
    began: real, ordered: real, n: string)
    ensures multiset(Queue(states, scores, mode, names, began, ordered))[n]
         == if Lookup(states, n).Ready(began) then multiset(names)[n] else 0
  {
    var ranked := Ranked(states, scores, mode, ordered, names);
    SortKeepsNames(Enumerate(names), (e: Entrant) => Key(states, scores, mode, ordered, e.name));
    assert Names(Enumerate(names)) == names;
    KeptCounts(Names(ranked), ReadySet(states, began, names), n);
    assert n !in names ==> multiset(names)[n] == 0;
  }

  lemma {:induction false} DistinctCountOnce(names: seq<string>, n: string)
    requires Distinct(names)
    ensures multiset(names)[n] <= 1
  {
    if names != [] {
      DistinctCountOnce(names[1..], n);
      assert names == [names[0]] + names[1..];
      assert names[0] !in names[1..];
    }
  }

  lemma TwoPlacesCountTwice(names: seq<string>, i: nat, j: nat)
    requires i < j < |names|
    ensures names[i] == names[j] ==> multiset(names)[names[i]] >= 2
  {
    assert names == names[..i] + [names[i]] + names[i + 1..j] + [names[j]] + names[j + 1..];
  }

  lemma CountedOnceIsDistinct(names: seq<string>)
    requires forall n :: multiset(names)[n] <= 1
    ensures Distinct(names)
  {
    forall i, j | 0 <= i < j < |names| ensures names[i] != names[j] {
      TwoPlacesCountTwice(names, i, j);
      assert multiset(names)[names[i]] <= 1;
    }
  }

  function KeptEntrants(ranked: seq<Entrant>, ready: set<string>): seq<Entrant> {
    if ranked == [] then []
    else
      var n := |ranked| - 1;
      if ranked[n].name in ready then KeptEntrants(ranked[..n], ready) + [ranked[n]] else KeptEntrants(ranked[..n], ready)
  }

  lemma {:induction false} KeptAppend(ordered: seq<string>, n: string, ready: set<string>)
    ensures Kept(ordered + [n], ready) == Kept(ordered, ready) + if n in ready then [n] else []
  {
    if ordered != [] {
      assert (ordered + [n])[1..] == ordered[1..] + [n];
      KeptAppend(ordered[1..], n, ready);
    }
  }

  lemma {:induction false} KeptEntrantsKeep(ranked: seq<Entrant>, ready: set<string>)
    ensures Names(KeptEntrants(ranked, ready)) == Kept(Names(ranked), ready)
    ensures forall e :: e in KeptEntrants(ranked, ready) ==> e in ranked
  {
    if ranked != [] {
      var n := |ranked| - 1;
      KeptEntrantsKeep(ranked[..n], ready);
      assert Names(ranked) == Names(ranked[..n]) + [ranked[n].name];
      KeptAppend(Names(ranked[..n]), ranked[n].name, ready);
    }
  }

  /** What is ordered stays ordered when its last entry is put behind any of those before it. */
  lemma OrderedWithLast(
    ranked: seq<Entrant>, kept: seq<Entrant>, states: map<string, ProviderState>, scores: map<string, real>,
    mode: Mode, now: real)
    requires ranked != [] && OrderedByKey(ranked, states, scores, mode, now)
    requires OrderedByKey(kept, states, scores, mode, now)
    requires forall e :: e in kept ==> e in ranked[..|ranked| - 1]
    ensures OrderedByKey(kept + [ranked[|ranked| - 1]], states, scores, mode, now)
  {
    hide Key;
    var n := |ranked| - 1;
    forall i | 0 <= i < |kept|
      ensures var ka, kb := Key(states, scores, mode, now, kept[i].name), Key(states, scores, mode, now, ranked[n].name);
              ka.Below(kb) || (ka == kb && kept[i].index < ranked[n].index)
    {
      assert kept[i] in kept;
      var k :| 0 <= k < n && ranked[..n][k] == kept[i];
      assert ranked[k] == kept[i];
    }
  }

  lemma {:induction false} KeptEntrantsStayOrdered(
    ranked: seq<Entrant>, ready: set<string>, states: map<string, ProviderState>, scores: map<string, real>, mode: Mode,
    now: real)
    requires OrderedByKey(ranked, states, scores, mode, now)
    ensures OrderedByKey(KeptEntrants(ranked, ready), states, scores, mode, now)
  {
    if ranked != [] {
      var n := |ranked| - 1;
      var kept := KeptEntrants(ranked[..n], ready);
      KeptEntrantsStayOrdered(ranked[..n], ready, states, scores, mode, now);
      KeptEntrantsKeep(ranked[..n], ready);
      OrderedWithLast(ranked, kept, states, scores, mode, now);
    }
  }

  lemma KeyOrderIsAskingOrder(
    entries: seq<Entrant>, states: map<string, ProviderState>, scores: map<string, real>, mode: Mode, now: real)
    requires OrderedByKey(entries, states, scores, mode, now)
    ensures InAskingOrder(states, scores, mode, now, entries)
  {
  }

  /** The entries of the configuration that may be asked, in the order they would be. */
  lemma QueueEntries(
    states: map<string, ProviderState>, scores: map<string, real>, mode: Mode, names: seq<string>,
    began: real, ordered: real)
    returns (entries: seq<Entrant>)
    ensures Names(entries) == Queue(states, scores, mode, names, began, ordered)
    ensures forall i :: 0 <= i < |entries| ==>
              entries[i].index < |names| && names[entries[i].index] == entries[i].name
    ensures InAskingOrder(states, scores, mode, ordered, entries)
  {
    var ranked, ready := Ranked(states, scores, mode, ordered, names), ReadySet(states, began, names);
    hide ReadySet, Key, InAskingOrder;
    assert Queue(states, scores, mode, names, began, ordered) == Kept(Names(ranked), ready);
    hide Ranked, KeptEntrants, Queue;
    entries := KeptEntrants(ranked, ready);
    OrderIsSortedPermutation(states, scores, mode, ordered, names);
    KeptEntrantsStayOrdered(ranked, ready, states, scores, mode, ordered);
    KeptEntrantsKeep(ranked, ready);
    KeyOrderIsAskingOrder(entries, states, scores, mode, ordered);
    forall i | 0 <= i < |entries|
      ensures entries[i].index < |names| && names[entries[i].index] == entries[i].name
    {
      assert entries[i] in entries && entries[i] in ranked;
      assert entries[i] in multiset(ranked);
      assert multiset(ranked) == multiset(Enumerate(names));
      assert entries[i] in multiset(Enumerate(names));
      assert entries[i] in Enumerate(names);
    }
  }

  lemma PrefixInAskingOrder(
    states: map<string, ProviderState>, scores: map<string, real>, mode: Mode, at: real, entries: seq<Entrant>, n: nat)
    requires n <= |entries| && InAskingOrder(states, scores, mode, at, entries)
    ensures InAskingOrder(states, scores, mode, at, entries[..n])
  {
  }

  lemma EntriesAreAsked(
    states: map<string, ProviderState>, scores: map<string, real>, mode: Mode, names: seq<string>, at: real,
    entries: seq<Entrant>, asked: seq<string>)
    requires asked <= Names(entries) && InAskingOrder(states, scores, mode, at, entries)
    requires forall i :: 0 <= i < |entries| ==>
               entries[i].index < |names| && names[entries[i].index] == entries[i].name
    ensures AskedInOrder(states, scores, mode, names, at, asked)
  {
    hide InAskingOrder;
    var first := entries[..|asked|];
    PrefixInAskingOrder(states, scores, mode, at, entries, |asked|);
    forall i | 0 <= i < |asked|
      ensures first[i].name == asked[i] && first[i].index < |names| && names[first[i].index] == asked[i]
    {
      assert Names(entries)[i] == entries[i].name;
    }
  }

  /** Whatever the calls come to, providers are asked in the order their health and the mode give them. */
  lemma TriedInOrder(
    states: map<string, ProviderState>, scores: map<string, real>, mode: Mode, names: seq<string>,
    began: real, ordered: real, calls: Calls)
    ensures AskedInOrder(states, scores, mode, names, ordered,
                         Tried(Queue(states, scores, mode, names, began, ordered), calls))
  {
    hide Queue, Tried, InAskingOrder, AskedInOrder;
    var queue := Queue(states, scores, mode, names, began, ordered);
    var entries := QueueEntries(states, scores, mode, names, began, ordered);
    FirstNonFailureSettles(queue, calls);
    EntriesAreAsked(states, scores, mode, names, ordered, entries, Tried(queue, calls));
  }

  lemma NobodyReadyExactly(
    states: map<string, ProviderState>, scores: map<string, real>, mode: Mode, names: seq<string>,
    began: real, ordered: real, calls: Calls)
    ensures Conclusion(ReadySet(states, began, names), Queue(states, scores, mode, names, began, ordered), calls)
            == NobodyReady
       <==> forall n :: n in names ==> !Lookup(states, n).Ready(began)
  {
    assert forall n :: n in names && Lookup(states, n).Ready(began) ==> n in ReadySet(states, began, names);
    FirstNonFailureSettles(Queue(states, scores, mode, names, began, ordered), calls);
  }

  /** Nobody is asked who was not ready when the call began, or who is not configured. */
  lemma OnlyReadyAreAsked(
    states: map<string, ProviderState>, scores: map<string, real>, mode: Mode, names: seq<string>,
    began: real, ordered: real, calls: Calls, n: string)
    requires n in Tried(Queue(states, scores, mode, names, began, ordered), calls)
    ensures n in names && Lookup(states, n).Ready(began)
  {
    var queue := Queue(states, scores, mode, names, began, ordered);
    FirstNonFailureSettles(queue, calls);
    QueuedAsOftenAsConfigured(states, scores, mode, names, began, ordered, n);
    assert n in multiset(queue);
  }

  predicate NoReadyNameTwice(states: map<string, ProviderState>, names: seq<string>, began: real) {
    forall n :: n in names && Lookup(states, n).Ready(began) ==> multiset(names)[n] <= 1
  }

  lemma DistinctIffCountedOnce(names: seq<string>)
    ensures Distinct(names) <==> forall n :: n in names ==> multiset(names)[n] <= 1
  {
    if Distinct(names) {
      forall n | n in names ensures multiset(names)[n] <= 1 {
        DistinctCountOnce(names, n);
      }
    } else if forall n :: n in names ==> multiset(names)[n] <= 1 {
      forall n ensures multiset(names)[n] <= 1 {
        assert n !in names ==> multiset(names)[n] == 0;
      }
      CountedOnceIsDistinct(names);
    }
  }

  lemma AllFailingTriesAll(queue: seq<string>)
    ensures Tried(queue, (k: nat, n: string) => FailedCall("transient", None)) == queue
  {
  }

  lemma PrefixStaysDistinct(queue: seq<string>, calls: Calls)
    requires Distinct(queue)
    ensures Distinct(Tried(queue, calls))
  {
    FirstNonFailureSettles(queue, calls);
  }

  lemma QueueIsDistinctIff(
    states: map<string, ProviderState>, scores: map<string, real>, mode: Mode, names: seq<string>,
    began: real, ordered: real)
    ensures Distinct(Queue(states, scores, mode, names, began, ordered)) <==> NoReadyNameTwice(states, names, began)
  {
    hide Queue, Lookup, Distinct;
    var queue := Queue(states, scores, mode, names, began, ordered);
    forall n ensures multiset(queue)[n] == if Lookup(states, n).Ready(began) then multiset(names)[n] else 0 {
      QueuedAsOftenAsConfigured(states, scores, mode, names, began, ordered, n);
    }
    DistinctIffCountedOnce(queue);
    assert forall n :: n in queue <==> multiset(queue)[n] > 0;
    assert forall n :: n in names <==> multiset(names)[n] > 0;
  }

  /** Whatever the calls come to, nobody is asked twice: this holds exactly when no name that is ready
      when the call begins is configured twice. */
  lemma AskedAtMostOnce(
    states: map<string, ProviderState>, scores: map<string, real>, mode: Mode, names: seq<string>,
    began: real, ordered: real)
    ensures (forall calls: Calls :: Distinct(Tried(Queue(states, scores, mode, names, began, ordered), calls)))
       <==> NoReadyNameTwice(states, names, began)
  {
    hide Queue, NoReadyNameTwice, Distinct, Tried;
    var queue := Queue(states, scores, mode, names, began, ordered);
    QueueIsDistinctIff(states, scores, mode, names, began, ordered);
    if Distinct(queue) {
      forall calls: Calls ensures Distinct(Tried(queue, calls)) {
        PrefixStaysDistinct(queue, calls);
      }
    } else {
      AllFailingTriesAll(queue);
      assert !Distinct(Tried(queue, (k: nat, n: string) => FailedCall("transient", None)));
    }
  }

  /** A fresh provider configured twice can be asked twice. */
  lemma ConfiguredTwiceIsAskedTwice(mode: Mode)
    ensures exists calls: Calls ::
              !Distinct(Tried(Queue(map[], map[], mode, ["a", "a"], 0.0, 0.0), calls))
  {
    AskedAtMostOnce(map[], map[], mode, ["a", "a"], 0.0, 0.0);
    assert "a" in ["a", "a"] && multiset(["a", "a"])["a"] == 2;
    assert Lookup(map[], "a").Ready(0.0);
  }

  /** The last time a provider is asked. */
  predicate LastAsked(tried: seq<string>, k: nat)
    requires k < |tried|
  {
    forall j :: k < j < |tried| ==> tried[j] != tried[k]
  }

  /** What a call made at `moment` turns a provider's state into, as seen `at` any later time. */
  predicate CallShown(outcome: CallOutcome, moment: real, at: real, found: ProviderState, left: ProviderState) {
    match outcome
    case FailedCall(kind, parsed) =>
      && !left.Ready(at)
      && left.attempts == found.attempts + 1 && left.successes == found.successes
      && kind in left.failuresByKind
      && left.failuresByKind[kind] == 1 + (if kind in found.failuresByKind then found.failuresByKind[kind] else 0)
      && (kind == "rate_limit" && parsed.Some? && parsed.value != 0.0 ==> left.cooldownUntil == parsed.value)
    case Answer(_, latency) =>
      && left.Ready(at)
      && left.attempts == found.attempts + 1 && left.successes == found.successes + 1
      && left.failuresByKind == found.failuresByKind
      && left.latencyTotal == found.latencyTotal + (if latency > 0.0 then latency else 0.0)
      && left.lastSuccessAt == moment
    case CancelledCall => left == found
  }

  lemma CallShows(states: map<string, ProviderState>, name: string, outcome: CallOutcome, now: real, at: real)
    requires at >= 0.0
    ensures CallShown(outcome, now, at, Lookup(states, name), Lookup(AfterCall(states, name, outcome, now), name))
  {
  }

  /** A provider whose last call failed is on probation, so it is not ready at any time; one whose last
      call answered is ready at once; one whose last call was cancelled is as that call found it. */
  lemma {:induction false} RegistryAfterAttempt(
    states: map<string, ProviderState>, tried: seq<string>, calls: Calls, clock: nat -> real, k: nat, at: real)
    requires at >= 0.0 && k < |tried| && LastAsked(tried, k)
    ensures CallShown(calls(k, tried[k]), clock(k), at,
                      Lookup(AfterCalls(states, tried[..k], calls, clock), tried[k]),
                      Lookup(AfterCalls(states, tried, calls, clock), tried[k]))
  {
    hide CallShown, AfterCall, Lookup;
    var m := |tried| - 1;
    var mid := AfterCalls(states, tried[..m], calls, clock);
    if k < m {
      OtherCallChangesNothing(mid, tried[m], calls(m, tried[m]), clock(m), tried[k]);
      assert LastAsked(tried[..m], k);
      RegistryAfterAttempt(states, tried[..m], calls, clock, k, at);
      assert tried[..m][..k] == tried[..k];
    } else {
      CallShows(mid, tried[m], calls(m, tried[m]), clock(m), at);
    }
  }

  lemma OtherCallChangesNothing(
    states: map<string, ProviderState>, name: string, outcome: CallOutcome, now: real, other: string)
    ensures name != other ==> Lookup(AfterCall(states, name, outcome, now), other) == Lookup(states, other)
  {
  }

  lemma {:induction false} NeverAskedIsUntouched(
    states: map<string, ProviderState>, tried: seq<string>, calls: Calls, clock: nat -> real, n: string)
    requires n !in tried
    ensures Lookup(AfterCalls(states, tried, calls, clock), n) == Lookup(states, n)
  {
    if tried != [] {
      NeverAskedIsUntouched(states, tried[..|tried| - 1], calls, clock, n);
    }
  }

  lemma {:induction false} LastPlaceOf(tried: seq<string>, n: string) returns (k: nat)
    requires n in tried
    ensures k < |tried| && tried[k] == n && LastAsked(tried, k)
  {
    var m := |tried| - 1;
    if tried[m] == n {
      k := m;
    } else {
      assert tried == tried[..m] + [tried[m]];
      k := LastPlaceOf(tried[..m], n);
    }
  }

  /** After total failure nobody is ready, whenever one looks. */
  lemma TotalFailureLeavesNobodyReady(
    states: map<string, ProviderState>, scores: map<string, real>, mode: Mode, names: seq<string>,
    began: real, ordered: real, calls: Calls, clock: nat -> real, n: string, at: real)
    requires at >= 0.0 && Verdict(Queue(states, scores, mode, names, began, ordered), calls) == AllFailed
    requires n in names && Lookup(states, n).Ready(began)
    ensures var tried := Tried(Queue(states, scores, mode, names, began, ordered), calls);
            n in tried && !Lookup(AfterCalls(WithDefaults(states, names), tried, calls, clock), n).Ready(at)
  {
    var queue := Queue(states, scores, mode, names, began, ordered);
    FirstNonFailureSettles(queue, calls);
    QueuedAsOftenAsConfigured(states, scores, mode, names, began, ordered, n);
    assert n in multiset(queue);
    var k := LastPlaceOf(queue, n);
    RegistryAfterAttempt(WithDefaults(states, names), queue, calls, clock, k, at);
  }
}
