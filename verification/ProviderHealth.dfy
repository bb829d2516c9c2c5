/** Cooldown, probation and routing order of decision providers (agent/provider_health.py). */
module ProviderHealth {
  import opened Wrappers
  import opened Sorting

  const COOLDOWN_CEILING: real := 900.0
  const PROBE_INTERVAL_SECONDS: real := 300.0

  function BaseCooldown(kind: string): real {
    if kind == "rate_limit" then 300.0
    else if kind == "auth" then 900.0
    else if kind == "transient" then 30.0
    else if kind == "contract" then 15.0
    else 60.0
  }

  function Doubled(base: real, times: nat): real {
    if times == 0 then base else 2.0 * Doubled(base, times - 1)
  }

  /** How long the `streak`-th failure in a row keeps a provider away when no end is stated. */
  function Backoff(kind: string, streak: nat): real
    requires streak > 0
  {
    var wanted := Doubled(BaseCooldown(kind), streak - 1);
    if wanted < COOLDOWN_CEILING then wanted else COOLDOWN_CEILING
  }

  datatype ProviderState = ProviderState(
    consecutiveFailures: nat, cooldownUntil: real, lastErrorKind: string, lastSuccessAt: real, probation: bool,
    lastProbeAt: real, attempts: nat, successes: nat, failuresByKind: map<string, nat>, latencyTotal: real,
    recoversAt: real) {

    predicate AvailableAt(now: real) { now >= cooldownUntil }

    predicate Ready(now: real) { AvailableAt(now) && !probation }

    predicate NeedsProbe(now: real) {
      probation && AvailableAt(now) && now - lastProbeAt >= PROBE_INTERVAL_SECONDS
    }
  }

  const FRESH := ProviderState(0, 0.0, "", 0.0, false, 0.0, 0, 0, map[], 0.0, 0.0)

  /** `recoversAt` is what the caller says, `parsed` what the message says, about when the outage ends. */
  datatype Happening =
    | Success(now: real, latency: real)
    | ProbeSuccess
    | Failure(now: real, kind: string, recoversAt: Option<real>, parsed: Option<real>, attempted: bool)
    | Probe(now: real)
    | Recheck

  /** The stated end of an outage, if there is one still ahead. */
  function Stated(h: Happening): Option<real>
    requires h.Failure?
  {
    if h.recoversAt.Some? && h.recoversAt.value != 0.0 && h.recoversAt.value > h.now then h.recoversAt
    else if h.kind == "rate_limit" && h.parsed.Some? && h.parsed.value != 0.0 then h.parsed
    else None
  }

  function After(s: ProviderState, h: Happening): ProviderState {
    match h
    case Success(now, latency) =>
      s.(attempts := s.attempts + 1, successes := s.successes + 1, consecutiveFailures := 0, cooldownUntil := 0.0,
         lastErrorKind := "", lastSuccessAt := now, probation := false, recoversAt := 0.0,
         latencyTotal := s.latencyTotal + if latency > 0.0 then latency else 0.0)
    case ProbeSuccess =>
      s.(cooldownUntil := 0.0, probation := false, recoversAt := 0.0, lastErrorKind := "")
    case Failure(now, kind, _, _, attempted) =>
      var stated := Stated(h);
      var counted :=
        if attempted then
          s.(attempts := s.attempts + 1,
             failuresByKind := s.failuresByKind[kind := 1 + if kind in s.failuresByKind then s.failuresByKind[kind] else 0])
        else s;
      counted.(consecutiveFailures := s.consecutiveFailures + 1, lastErrorKind := kind, probation := true,
               recoversAt := stated.GetOr(0.0),
               cooldownUntil := stated.GetOr(now + Backoff(kind, s.consecutiveFailures + 1)))
    case Probe(now) => s.(lastProbeAt := now)
    case Recheck => Rechecked(s)
  }

  function Rechecked(s: ProviderState): ProviderState {
    s.(cooldownUntil := 0.0, consecutiveFailures := 0, lastProbeAt := 0.0, recoversAt := 0.0)
  }

  function Health(happenings: seq<Happening>): ProviderState {
    if happenings == [] then FRESH
    else After(Health(happenings[..|happenings| - 1]), happenings[|happenings| - 1])
  }

  // ----- the registry

  function Lookup(states: map<string, ProviderState>, name: string): ProviderState {
    if name in states then states[name] else FRESH
  }

  /** Asking about providers creates the ones not seen before. */
  function WithDefaults(states: map<string, ProviderState>, names: seq<string>): map<string, ProviderState> {
    states + map n | n in names && n !in states :: FRESH
  }

  datatype Mode = Quality | Configured

  datatype Entrant = Entrant(index: nat, name: string)

  function Enumerate(names: seq<string>): seq<Entrant> {
    seq(|names|, i requires 0 <= i < |names| => Entrant(i, names[i]))
  }

  function Names(entrants: seq<Entrant>): seq<string> {
    seq(|entrants|, i requires 0 <= i < |entrants| => entrants[i].name)
  }

  function Bit(b: bool): real { if b then 1.0 else 0.0 }

  function Key(states: map<string, ProviderState>, scores: map<string, real>, mode: Mode, now: real, name: string): Rank {
    var s := Lookup(states, name);
    match mode
    case Configured => Rank(Bit(!s.Ready(now)), 0.0, 0.0)
    case Quality =>
      Rank(Bit(!s.AvailableAt(now)), Bit(s.probation), -(if name in scores then scores[name] else 1.0))
  }

  function Ranked(
    states: map<string, ProviderState>, scores: map<string, real>, mode: Mode, now: real, names: seq<string>): seq<Entrant>
  {
    SortedBy(Enumerate(names), (e: Entrant) => Key(states, scores, mode, now, e.name))
  }

  /** The names of `ranked` that are ready, in order. */
  function ReadyOf(states: map<string, ProviderState>, now: real, ranked: seq<string>): seq<string> {
    if ranked == [] then []
    else (if Lookup(states, ranked[0]).Ready(now) then [ranked[0]] else []) + ReadyOf(states, now, ranked[1..])
  }

  function Past(history: map<string, seq<Happening>>, name: string): seq<Happening> {
    if name in history then history[name] else []
  }

  /** Every state the registry holds is what that provider's own history makes it. */
  predicate Consistent(states: map<string, ProviderState>, history: map<string, seq<Happening>>) {
    && states.Keys == history.Keys
    && forall n :: n in states ==> states[n] == Health(history[n])
  }

  function Noted(history: map<string, seq<Happening>>, name: string, h: Happening): map<string, seq<Happening>> {
    history[name := Past(history, name) + [h]]
  }

  lemma NotedStaysConsistent(
    states: map<string, ProviderState>, history: map<string, seq<Happening>>, name: string, h: Happening)
    requires Consistent(states, history)
    ensures Consistent(states[name := After(Lookup(states, name), h)], Noted(history, name, h))
  {
    var past := Past(history, name);
    assert (past + [h])[..|past|] == past;
    assert Lookup(states, name) == Health(past);
  }

  function WithPasts(history: map<string, seq<Happening>>, names: seq<string>): map<string, seq<Happening>> {
    history + map n | n in names && n !in history :: []
  }

  class ProviderHealthRegistry {
    var states: map<string, ProviderState>
    var scores: map<string, real>
    var mode: Mode
    ghost var history: map<string, seq<Happening>>

    ghost predicate Valid()
      reads this
    {
      Consistent(states, history)
    }

    constructor (names: seq<string>)
      ensures Valid() && states == WithDefaults(map[], names) && scores == map[] && mode == Quality
    {
      states, scores, mode := WithDefaults(map[], names), map[], Quality;
      history := WithPasts(map[], names);
    }

    method Order(names: seq<string>, now: real) returns (ordered: seq<string>)
      requires Valid()
      modifies this`states, this`history
      ensures Valid() && history == WithPasts(old(history), names)
      ensures states == WithDefaults(old(states), names)
      ensures ordered == Names(Ranked(old(states), scores, mode, now, names))
    {
      var known, asked, ranking, moment := states, scores, mode, now;
      ordered := Names(SortedBy(Enumerate(names), (e: Entrant) => Key(known, asked, ranking, moment, e.name)));
      states := WithDefaults(states, names);
      history := WithPasts(history, names);
    }

    method RecordSuccess(name: string, now: real, latency: real)
      requires Valid()
      modifies this`states, this`history
      ensures Valid() && history == Noted(old(history), name, Success(now, latency))
      ensures states == old(states)[name := After(Lookup(old(states), name), Success(now, latency))]
    {
      var s := Lookup(states, name);
      s := s.(attempts := s.attempts + 1);
      s := s.(successes := s.successes + 1);
      s := s.(consecutiveFailures := 0, cooldownUntil := 0.0, lastErrorKind := "", lastSuccessAt := now);
      s := s.(probation := false, recoversAt := 0.0);
      s := s.(latencyTotal := s.latencyTotal + if latency > 0.0 then latency else 0.0);
      Store(name, s, Success(now, latency));
    }

    method RecordProbeSuccess(name: string)
      requires Valid()
      modifies this`states, this`history
      ensures Valid() && history == Noted(old(history), name, ProbeSuccess)
      ensures states == old(states)[name := After(Lookup(old(states), name), ProbeSuccess)]
    {
      var s := Lookup(states, name);
      s := s.(cooldownUntil := 0.0, probation := false, recoversAt := 0.0, lastErrorKind := "");
      Store(name, s, ProbeSuccess);
    }

    method RecordFailure(
      name: string, now: real, kind: string, recoversAt: Option<real>, parsed: Option<real>, attempted: bool)
      requires Valid()
      modifies this`states, this`history
      ensures Valid() && history == Noted(old(history), name, Failure(now, kind, recoversAt, parsed, attempted))
      ensures states == old(states)[name :=
                          After(Lookup(old(states), name), Failure(now, kind, recoversAt, parsed, attempted))]
    {
      var s := CoolDown(Lookup(states, name), now, kind, recoversAt, parsed, attempted);
      Store(name, s, Failure(now, kind, recoversAt, parsed, attempted));
    }

    method Store(name: string, s: ProviderState, ghost h: Happening)
      requires Valid() && s == After(Lookup(states, name), h)
      modifies this`states, this`history
      ensures Valid() && history == Noted(old(history), name, h) && states == old(states)[name := s]
    {
      NotedStaysConsistent(states, history, name, h);
      states, history := states[name := s], Noted(history, name, h);
    }

    method CoolDown(
      state: ProviderState, now: real, kind: string, recoversAt: Option<real>, parsed: Option<real>, attempted: bool)
      returns (s: ProviderState)
      ensures s == After(state, Failure(now, kind, recoversAt, parsed, attempted))
    {
      var stated: Option<real> := None;
      if recoversAt.Some? && recoversAt.value != 0.0 && recoversAt.value > now {
        stated := recoversAt;
      }
      if stated.None? && kind == "rate_limit" {
        stated := parsed;
      }
      if stated == Some(0.0) {
        stated := None;
      }
      s := state;
      if attempted {
        var soFar := if kind in s.failuresByKind then s.failuresByKind[kind] else 0;
        s := s.(attempts := s.attempts + 1, failuresByKind := s.failuresByKind[kind := soFar + 1]);
      }
      s := s.(consecutiveFailures := s.consecutiveFailures + 1, lastErrorKind := kind, probation := true);
      var backoff := Backoff(kind, s.consecutiveFailures);
      s := s.(recoversAt := stated.GetOr(0.0), cooldownUntil := if stated.Some? then stated.value else now + backoff);
    }

    method RecordProbe(name: string, now: real)
      requires Valid()
      modifies this`states, this`history
      ensures Valid() && history == Noted(old(history), name, Probe(now))
      ensures states == old(states)[name := After(Lookup(old(states), name), Probe(now))]
    {
      Store(name, Lookup(states, name).(lastProbeAt := now), Probe(now));
    }

    /** Put one provider, or all of them, back in line; an unknown name clears nothing. */
    method RecheckProviders(name: string) returns (cleared: set<string>)
      requires Valid()
      modifies this`states, this`history
      ensures Valid()
      ensures cleared == if name == "" then old(states).Keys else old(states).Keys * {name}
      ensures states == RecheckedIn(old(states), cleared)
      ensures history == RecheckNoted(old(history), cleared)
    {
      cleared := RecheckEach(if name == "" then states.Keys else {name});
    }

    method RecheckEach(targets: set<string>) returns (cleared: set<string>)
      requires Valid()
      modifies this`states, this`history
      ensures Valid()
      ensures cleared == old(states).Keys * targets
      ensures states == RecheckedIn(old(states), cleared)
      ensures history == RecheckNoted(old(history), cleared)
    {
      ghost var before, past := states, history;
      var left := targets;
      cleared := {};
      NobodyRechecked(past);
      while left != {}
        invariant Valid()
        invariant left <= targets && cleared == past.Keys * (targets - left)
        invariant history == RecheckNoted(past, cleared)
        decreases |left|
      {
        hide *;
        var target :| target in left;
        OneMoreCleared(past.Keys, targets, left, target);
        cleared := RecheckOne(target, cleared, past);
        left := left - {target};
      }
      HistoryDecidesStates(before, past, states, cleared);
    }

    method RecheckOne(target: string, cleared: set<string>, ghost past: map<string, seq<Happening>>)
      returns (longer: set<string>)
      requires Valid() && history == RecheckNoted(past, cleared) && target !in cleared
      modifies this`states, this`history
      ensures Valid() && history == RecheckNoted(past, longer)
      ensures longer == cleared + if target in past then {target} else {}
    {
      OneMoreRechecked(past, cleared, target);
      longer := cleared;
      var known := ClearCooldown(target);
      if known {
        longer := cleared + {target};
      }
    }

    method ClearCooldown(target: string) returns (known: bool)
      requires Valid()
      modifies this`states, this`history
      ensures Valid() && history == if known then Noted(old(history), target, Recheck) else old(history)
      ensures known == (target in old(history))
      ensures states == if known then old(states)[target := Rechecked(old(states)[target])] else old(states)
    {
      known := target in states;
      if known {
        Store(target, Rechecked(states[target]), Recheck);
      }
    }
  }

  function RecheckedIn(states: map<string, ProviderState>, cleared: set<string>): map<string, ProviderState> {
    map n | n in states :: if n in cleared then After(states[n], Recheck) else states[n]
  }

  lemma OneMoreCleared(known: set<string>, targets: set<string>, left: set<string>, name: string)
    requires name in left && left <= targets
    ensures name !in known * (targets - left)
    ensures known * (targets - (left - {name}))
         == known * (targets - left) + if name in known then {name} else {}
  {
  }

  /** One recheck more for each of the cleared providers. */
  function RecheckNoted(history: map<string, seq<Happening>>, cleared: set<string>): map<string, seq<Happening>> {
    map n | n in history :: if n in cleared then history[n] + [Recheck] else history[n]
  }

  lemma NobodyRechecked(history: map<string, seq<Happening>>)
    ensures RecheckNoted(history, {}) == history
  {
  }

  lemma OneMoreRechecked(history: map<string, seq<Happening>>, cleared: set<string>, name: string)
    requires name !in cleared
    ensures name in history ==>
              RecheckNoted(history, cleared + {name}) == Noted(RecheckNoted(history, cleared), name, Recheck)
    ensures RecheckNoted(history, cleared).Keys == history.Keys
  {
  }

  lemma HistoryDecidesStates(
    before: map<string, ProviderState>, past: map<string, seq<Happening>>, now: map<string, ProviderState>,
    cleared: set<string>)
    requires Consistent(before, past) && Consistent(now, RecheckNoted(past, cleared))
    ensures now == RecheckedIn(before, cleared)
  {
    forall n | n in past ensures now[n] == if n in cleared then After(before[n], Recheck) else before[n] {
      assert (past[n] + [Recheck])[..|past[n]|] == past[n];
    }
  }

  // ----- health over every run

  ghost function SumOf(counts: map<string, nat>): nat {
    if counts == map[] then 0
    else
      var k :| k in counts;
      counts[k] + SumOf(counts - {k})
  }

  lemma {:induction false} SumRemove(counts: map<string, nat>, k: string)
    requires k in counts
    ensures SumOf(counts) == counts[k] + SumOf(counts - {k})
    decreases |counts|
  {
    var c :| c in counts && SumOf(counts) == counts[c] + SumOf(counts - {c});
    if c != k {
      SumRemove(counts - {c}, k);
      SumRemove(counts - {k}, c);
      assert counts - {c} - {k} == counts - {k} - {c};
    }
  }

  lemma SumCountsOneMore(counts: map<string, nat>, k: string)
    ensures SumOf(counts[k := 1 + if k in counts then counts[k] else 0]) == SumOf(counts) + 1
  {
    var more := counts[k := 1 + if k in counts then counts[k] else 0];
    SumRemove(more, k);
    assert more - {k} == counts - {k};
    if k in counts {
      SumRemove(counts, k);
    } else {
      assert counts - {k} == counts;
    }
  }

  /** Every attempt is either a success or counted under one failure kind. */
  lemma {:induction false} AttemptsAddUp(hs: seq<Happening>)
    ensures Health(hs).attempts == Health(hs).successes + SumOf(Health(hs).failuresByKind)
  {
    if hs != [] {
      var before, last := hs[..|hs| - 1], hs[|hs| - 1];
      AttemptsAddUp(before);
      if last.Failure? {
        SumCountsOneMore(Health(before).failuresByKind, last.kind);
      }
    }
  }

  /** How many happenings of a history are successes, and failures of one kind after the provider was asked. */
  function SuccessCount(hs: seq<Happening>): nat {
    if hs == [] then 0 else SuccessCount(hs[..|hs| - 1]) + if hs[|hs| - 1].Success? then 1 else 0
  }

  function FailureCount(hs: seq<Happening>, kind: string): nat {
    if hs == [] then 0
    else
      var last := hs[|hs| - 1];
      FailureCount(hs[..|hs| - 1], kind) + if last.Failure? && last.attempted && last.kind == kind then 1 else 0
  }

  function LatencySum(hs: seq<Happening>): real {
    if hs == [] then 0.0
    else
      var last := hs[|hs| - 1];
      LatencySum(hs[..|hs| - 1]) + if last.Success? && last.latency > 0.0 then last.latency else 0.0
  }

  /** The counters are what they are named after. */
  lemma {:induction false} CountersAreCounts(hs: seq<Happening>, kind: string)
    ensures Health(hs).successes == SuccessCount(hs)
    ensures (if kind in Health(hs).failuresByKind then Health(hs).failuresByKind[kind] else 0) == FailureCount(hs, kind)
    ensures Health(hs).latencyTotal == LatencySum(hs)
  {
    if hs != [] {
      CountersAreCounts(hs[..|hs| - 1], kind);
    }
  }

  /** What the newest happening leaves on the state besides the counters. */
  lemma NewestHappeningShows(hs: seq<Happening>, h: Happening)
    ensures var s := Health(hs + [h]);
            && (h.Success? ==> s.lastSuccessAt == h.now && s.lastErrorKind == "" && s.cooldownUntil == 0.0
                               && !s.probation && s.consecutiveFailures == 0 && s.recoversAt == 0.0)
            && (h.ProbeSuccess? ==> s.lastErrorKind == "" && s.cooldownUntil == 0.0 && !s.probation
                                    && s.consecutiveFailures == Health(hs).consecutiveFailures
                                    && s.lastSuccessAt == Health(hs).lastSuccessAt)
            && (h.Failure? ==> s.lastErrorKind == h.kind && s.probation
                               && s.consecutiveFailures == Health(hs).consecutiveFailures + 1
                               && s.lastSuccessAt == Health(hs).lastSuccessAt)
            && (h.Probe? ==> s == Health(hs).(lastProbeAt := h.now))
            && (h == Recheck ==> s == Health(hs).(cooldownUntil := 0.0, consecutiveFailures := 0, lastProbeAt := 0.0,
                                                  recoversAt := 0.0))
  {
    assert (hs + [h])[..|hs|] == hs;
  }

  predicate Proves(h: Happening) { h.Success? || h.ProbeSuccess? }

  /** The latest failure has no success and no probe success after it. */
  predicate FailedLast(hs: seq<Happening>) {
    exists i :: 0 <= i < |hs| && hs[i].Failure? && forall j :: i < j < |hs| ==> !Proves(hs[j])
  }

  /** A provider is on probation exactly while nothing has proved it since its last failure. */
  lemma {:induction false} ProbationMeansUnproved(hs: seq<Happening>)
    ensures Health(hs).probation <==> FailedLast(hs)
  {
    if hs != [] {
      var n := |hs| - 1;
      var before, last := hs[..n], hs[n];
      ProbationMeansUnproved(before);
      assert forall i :: 0 <= i < n ==> before[i] == hs[i];
      if last.Failure? {
        assert FailedLast(hs);
      } else if Proves(last) {
        assert !FailedLast(hs);
      } else if FailedLast(before) {
        var i :| 0 <= i < n && before[i].Failure? && forall j :: i < j < n ==> !Proves(before[j]);
        assert hs[i].Failure?;
        assert FailedLast(hs);
      }
    }
  }

  /** Pressing recheck makes a provider ready exactly when it was not on probation; in particular it
      never readies one that has not proved itself since it failed. */
  lemma RecheckRespectsProbation(hs: seq<Happening>, now: real)
    requires now >= 0.0
    ensures Health(hs + [Recheck]).Ready(now) <==> !FailedLast(hs)
  {
    assert (hs + [Recheck])[..|hs|] == hs;
    ProbationMeansUnproved(hs);
  }

  /** What pressing recheck does do for a provider on probation: it is due for a probe at once. */
  lemma RecheckMakesProbeDue(hs: seq<Happening>, now: real)
    requires now >= PROBE_INTERVAL_SECONDS
    ensures Health(hs + [Recheck]).NeedsProbe(now) <==> FailedLast(hs)
  {
    assert (hs + [Recheck])[..|hs|] == hs;
    ProbationMeansUnproved(hs);
  }

  /** Failures since the last real success or recheck. */
  function Streak(hs: seq<Happening>): nat {
    if hs == [] then 0
    else
      var n := |hs| - 1;
      if hs[n].Success? || hs[n].Recheck? then 0
      else Streak(hs[..n]) + if hs[n].Failure? then 1 else 0
  }

  lemma {:induction false} StreakIsCounted(hs: seq<Happening>)
    ensures Health(hs).consecutiveFailures == Streak(hs)
  {
    if hs != [] {
      StreakIsCounted(hs[..|hs| - 1]);
    }
  }

  lemma {:induction false} DoubledGrows(base: real, m: nat, n: nat)
    requires base >= 0.0 && m <= n
    ensures 0.0 <= Doubled(base, m) <= Doubled(base, n)
    decreases n
  {
    if n > 0 {
      DoubledGrows(base, if m < n then m else n - 1, n - 1);
    }
  }

  /** How long the failure at `i` keeps the provider away. */
  function Wait(hs: seq<Happening>, i: nat): real
    requires i < |hs| && hs[i].Failure?
  {
    Health(hs[..i + 1]).cooldownUntil - hs[i].now
  }

  lemma WaitIsBackoff(hs: seq<Happening>, i: nat)
    requires i < |hs| && hs[i].Failure? && Stated(hs[i]).None?
    ensures Wait(hs, i) == Backoff(hs[i].kind, Streak(hs[..i]) + 1)
  {
    assert hs[..i + 1][..i] == hs[..i];
    StreakIsCounted(hs[..i]);
  }

  predicate NoReset(hs: seq<Happening>, i: nat, j: nat)
    requires i <= j <= |hs|
  {
    forall k :: i <= k < j ==> !hs[k].Success? && !hs[k].Recheck?
  }

  lemma {:induction false} StreakGrows(hs: seq<Happening>, i: nat, j: nat)
    requires i <= j <= |hs| && NoReset(hs, i, j)
    ensures Streak(hs[..i]) <= Streak(hs[..j])
    decreases j
  {
    if i < j {
      assert hs[..j][..j - 1] == hs[..j - 1];
      StreakGrows(hs, i, j - 1);
    }
  }

  /** Between real successes and rechecks, waits for one kind of failure never shrink, probes or not,
      and never exceed the ceiling. */
  lemma WaitsNeverShrink(hs: seq<Happening>, i: nat, j: nat)
    requires i < j < |hs| && hs[i].Failure? && hs[j].Failure? && hs[i].kind == hs[j].kind
    requires Stated(hs[i]).None? && Stated(hs[j]).None? && NoReset(hs, i, j)
    ensures 0.0 < Wait(hs, i) <= Wait(hs, j) <= COOLDOWN_CEILING
  {
    WaitIsBackoff(hs, i);
    WaitIsBackoff(hs, j);
    StreakGrows(hs, i, j);
    DoubledGrows(BaseCooldown(hs[i].kind), 0, Streak(hs[..i]));
    DoubledGrows(BaseCooldown(hs[i].kind), Streak(hs[..i]), Streak(hs[..j]));
  }

  /** The first failure of a streak waits the time its kind is given. */
  lemma FirstWaitIsBase(hs: seq<Happening>, now: real, kind: string, attempted: bool)
    requires Streak(hs) == 0
    ensures Health(hs + [Failure(now, kind, None, None, attempted)]).cooldownUntil - now
         == (if kind == "rate_limit" then 300.0 else if kind == "auth" then 900.0 else if kind == "transient" then 30.0
             else if kind == "contract" then 15.0 else 60.0)
  {
    var longer := hs + [Failure(now, kind, None, None, attempted)];
    assert longer[..|hs|] == hs && longer[..|hs| + 1] == longer;
    WaitIsBackoff(longer, |hs|);
  }

  /** Each further failure of that kind waits twice as long as the one before, up to a quarter of an hour. */
  lemma NextWaitIsDouble(hs: seq<Happening>, i: nat, j: nat)
    requires i < j < |hs| && hs[i].Failure? && hs[j].Failure? && hs[i].kind == hs[j].kind
    requires Stated(hs[i]).None? && Stated(hs[j]).None? && Streak(hs[..j]) == Streak(hs[..i]) + 1
    ensures Wait(hs, j) == if 2.0 * Wait(hs, i) < 900.0 then 2.0 * Wait(hs, i) else 900.0
  {
    WaitIsBackoff(hs, i);
    WaitIsBackoff(hs, j);
    DoubledGrows(BaseCooldown(hs[i].kind), 0, Streak(hs[..i]));
  }

  /** The end of a failure's outage: what the caller states, if it lies ahead; for a rate limit, what the
      message states; otherwise the backoff. A stated end is taken at its word. */
  lemma StatedEndIsKept(
    hs: seq<Happening>, now: real, kind: string, recoversAt: Option<real>, parsed: Option<real>, attempted: bool, at: real)
    ensures var s := Health(hs + [Failure(now, kind, recoversAt, parsed, attempted)]);
            && (s.AvailableAt(at) <==> at >= s.cooldownUntil)
            && (recoversAt.Some? && recoversAt.value != 0.0 && recoversAt.value > now ==>
                  s.cooldownUntil == recoversAt.value == s.recoversAt)
            && (!(recoversAt.Some? && recoversAt.value != 0.0 && recoversAt.value > now) ==>
                  && (kind == "rate_limit" && parsed.Some? && parsed.value != 0.0 ==>
                        s.cooldownUntil == parsed.value == s.recoversAt)
                  && (!(kind == "rate_limit" && parsed.Some? && parsed.value != 0.0) ==>
                        s.cooldownUntil == now + Backoff(kind, Streak(hs) + 1) && s.recoversAt == 0.0))
            && ((parsed.Some? ==> parsed.value > now) ==> s.cooldownUntil > now)
  {
    var h := Failure(now, kind, recoversAt, parsed, attempted);
    assert (hs + [h])[..|hs|] == hs;
    StreakIsCounted(hs);
    DoubledGrows(BaseCooldown(kind), 0, Streak(hs));
  }

  /** A provider is probed while it is unproved and available, and not within five minutes of its last probe. */
  lemma ProbesAreSpaced(hs: seq<Happening>, probed: real, now: real)
    ensures Health(hs + [Probe(probed)]).NeedsProbe(now)
       <==> FailedLast(hs) && now >= Health(hs).cooldownUntil && now >= probed + 300.0
  {
    assert (hs + [Probe(probed)])[..|hs|] == hs;
    ProbationMeansUnproved(hs);
  }

  // ----- the routing order

  ghost predicate OrderedByKey(
    ranked: seq<Entrant>, states: map<string, ProviderState>, scores: map<string, real>, mode: Mode, now: real)
  {
    forall i, j :: 0 <= i < j < |ranked| ==>
      var a, b := ranked[i], ranked[j];
      var ka, kb := Key(states, scores, mode, now, a.name), Key(states, scores, mode, now, b.name);
      ka.Below(kb) || (ka == kb && a.index < b.index)
  }

  /** The order is a permutation of the configured names, sorted by key and then by configured position. */
  lemma OrderIsSortedPermutation(
    states: map<string, ProviderState>, scores: map<string, real>, mode: Mode, now: real, names: seq<string>)
    ensures var ranked := Ranked(states, scores, mode, now, names);
            multiset(ranked) == multiset(Enumerate(names)) && |ranked| == |names|
    ensures OrderedByKey(Ranked(states, scores, mode, now, names), states, scores, mode, now)
  {
    var key := (e: Entrant) => Key(states, scores, mode, now, e.name);
    var position := (e: Entrant) => e.index;
    var ranked := SortedBy(Enumerate(names), key);
    SortKeepsElements(Enumerate(names), key);
    SortOrders(Enumerate(names), key, position);
    forall i, j | 0 <= i < j < |ranked|
      ensures key(ranked[i]).Below(key(ranked[j])) || (key(ranked[i]) == key(ranked[j]) && ranked[i].index < ranked[j].index)
    {
      assert Before(ranked[i], ranked[j], key, position);
    }
  }

  /** Ready providers come first in both modes, so those that may be asked now are a prefix of the order. */
  lemma ReadyFormPrefix(
    states: map<string, ProviderState>, scores: map<string, real>, mode: Mode, now: real, names: seq<string>,
    i: nat, j: nat)
    requires i < j < |Ranked(states, scores, mode, now, names)|
    requires Lookup(states, Ranked(states, scores, mode, now, names)[j].name).Ready(now)
    ensures Lookup(states, Ranked(states, scores, mode, now, names)[i].name).Ready(now)
  {
    OrderIsSortedPermutation(states, scores, mode, now, names);
  }

  /** In configured mode the operator's order is kept among the ready and among the others. */
  lemma ConfiguredOrderIsKept(
    states: map<string, ProviderState>, scores: map<string, real>, now: real, names: seq<string>, i: nat, j: nat)
    requires var ranked := Ranked(states, scores, Configured, now, names);
             && i < j < |ranked|
             && (Lookup(states, ranked[i].name).Ready(now) <==> Lookup(states, ranked[j].name).Ready(now))
    ensures var ranked := Ranked(states, scores, Configured, now, names);
            ranked[i].index < ranked[j].index
  {
    OrderIsSortedPermutation(states, scores, Configured, now, names);
  }

  /** In quality mode the available come first, those off probation before the others, then the better
      measured (1 for one not measured), then the earlier configured. */
  lemma QualityOrderIsKept(
    states: map<string, ProviderState>, scores: map<string, real>, now: real, names: seq<string>, i: nat, j: nat)
    requires i < j < |Ranked(states, scores, Quality, now, names)|
    ensures var a, b := Ranked(states, scores, Quality, now, names)[i], Ranked(states, scores, Quality, now, names)[j];
            var s, t := Lookup(states, a.name), Lookup(states, b.name);
            var scoreA, scoreB := if a.name in scores then scores[a.name] else 1.0,
                                  if b.name in scores then scores[b.name] else 1.0;
            && (now >= t.cooldownUntil ==> now >= s.cooldownUntil)
            && ((now >= s.cooldownUntil <==> now >= t.cooldownUntil) ==>
                  && (s.probation ==> t.probation)
                  && (s.probation == t.probation ==>
                        scoreA > scoreB || (scoreA == scoreB && a.index < b.index)))
  {
    OrderIsSortedPermutation(states, scores, Quality, now, names);
  }

  lemma {:induction false} ReadyOfPrefix(states: map<string, ProviderState>, now: real, ranked: seq<string>)
    requires forall i, j :: 0 <= i < j < |ranked| && Lookup(states, ranked[j]).Ready(now) ==>
               Lookup(states, ranked[i]).Ready(now)
    ensures ReadyOf(states, now, ranked) <= ranked
    ensures forall k :: 0 <= k < |ranked| ==>
              (k < |ReadyOf(states, now, ranked)| <==> Lookup(states, ranked[k]).Ready(now))
  {
    if ranked != [] {
      ReadyOfPrefix(states, now, ranked[1..]);
      if Lookup(states, ranked[0]).Ready(now) {
        assert ReadyOf(states, now, ranked) == [ranked[0]] + ReadyOf(states, now, ranked[1..]);
      } else {
        assert ReadyOf(states, now, ranked[1..]) == [] by {
          if |ranked| > 1 {
            assert !Lookup(states, ranked[1]).Ready(now);
            assert ranked[1..][0] == ranked[1];
          }
        }
      }
    }
  }

  /** ready_names is exactly the ready prefix of the order. */
  lemma ReadyNamesArePrefix(
    states: map<string, ProviderState>, scores: map<string, real>, mode: Mode, now: real, names: seq<string>)
    ensures var ordered := Names(Ranked(states, scores, mode, now, names));
            var ready := ReadyOf(states, now, ordered);
            && ready <= ordered
            && forall k :: 0 <= k < |ordered| ==> (k < |ready| <==> Lookup(states, ordered[k]).Ready(now))
  {
    var ranked := Ranked(states, scores, mode, now, names);
    var ordered := Names(ranked);
    forall i, j | 0 <= i < j < |ordered| && Lookup(states, ordered[j]).Ready(now)
      ensures Lookup(states, ordered[i]).Ready(now)
    {
      ReadyFormPrefix(states, scores, mode, now, names, i, j);
    }
    ReadyOfPrefix(states, now, ordered);
  }
}
