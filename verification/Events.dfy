/** The business-event loop as atomic steps of its threads (runtime/events.py). */
module Events {
  import opened Wrappers

  datatype Item = Envelope(id: nat) | Sentinel

  /** How an envelope ends: with the handler's result or with an error. */
  datatype Outcome = Returned(result: int) | Raised

  /** Where a worker thread is between two atomic steps. */
  datatype Pc =
    | Waiting
    | Taken(id: nat)
    | Admitted(id: nat)
    | Running(id: nat)
    | Handled(id: nat, outcome: Outcome)
    | Counted(id: nat, outcome: Outcome)
    | Exited

  datatype Mark =
    | GateOpened
    | GateClosed
    | Submitted(id: nat)
    | Checked(id: nat, accepting: bool)
    | HandlerRan(id: nat)
    | HandlerEnded(id: nat, outcome: Outcome)

  /** Envelopes are numbered in the order submit enqueues them; `trace` records what the gate, the
      submitters and the worker did. */
  datatype State = State(
    queue: seq<Item>, accepting: bool, thread: Option<nat>, workers: map<nat, Pc>, joining: multiset<nat>,
    submitted: nat, completed: seq<(nat, Outcome)>, processed: nat, failures: nat, trace: seq<Mark>)

  const INITIAL := State([], false, None, map[], multiset{}, 0, [], 0, 0, [])

  datatype Step =
    | Start(t: nat)
    | Submit
    | RequestPause
    | StopBegin
    | StopEnd(t: nat)
    | Take(t: nat)
    | Check(t: nat)
    | RunHandler(t: nat)
    | Finish(t: nat, outcome: Outcome)
    | Count(t: nat)
    | Complete(t: nat)

  predicate Alive(s: State) {
    s.thread.Some? && s.thread.value in s.workers && !s.workers[s.thread.value].Exited?
  }

  /** A worker step is enabled when the worker is where the step begins; a start takes a fresh thread. */
  predicate Enabled(s: State, step: Step) {
    match step
    case Start(t) => t !in s.workers
    case Submit => Alive(s) && s.accepting
    case RequestPause => true
    case StopBegin => true
    case StopEnd(t) => t in s.joining && t in s.workers && s.workers[t].Exited?
    case Take(t) => t in s.workers && s.workers[t].Waiting? && s.queue != []
    case Check(t) => t in s.workers && s.workers[t].Taken?
    case RunHandler(t) => t in s.workers && s.workers[t].Admitted?
    case Finish(t, _) => t in s.workers && s.workers[t].Running?
    case Count(t) => t in s.workers && s.workers[t].Handled?
    case Complete(t) => t in s.workers && s.workers[t].Counted?
  }

  function Apply(s: State, step: Step): State
    requires Enabled(s, step)
  {
    match step
    case Start(t) =>
      if Alive(s) then s
      else
        s.(accepting := true, thread := Some(t), workers := s.workers[t := Waiting], trace := s.trace + [GateOpened])
    case Submit =>
      s.(queue := s.queue + [Envelope(s.submitted)], submitted := s.submitted + 1,
         trace := s.trace + [Submitted(s.submitted)])
    case RequestPause =>
      s.(accepting := false, trace := s.trace + [GateClosed])
    case StopBegin =>
      var closed := s.(accepting := false, trace := s.trace + [GateClosed]);
      if s.thread.None? then closed
      else closed.(queue := s.queue + [Sentinel], joining := s.joining + multiset{s.thread.value})
    case StopEnd(t) =>
      s.(thread := None, joining := s.joining - multiset{t})
    case Take(t) =>
      var pc := if s.queue[0].Sentinel? then Exited else Taken(s.queue[0].id);
      s.(queue := s.queue[1..], workers := s.workers[t := pc])
    case Check(t) =>
      var id := s.workers[t].id;
      var pc := if s.accepting then Admitted(id) else Handled(id, Raised);
      s.(workers := s.workers[t := pc], trace := s.trace + [Checked(id, s.accepting)])
    case RunHandler(t) =>
      var id := s.workers[t].id;
      s.(workers := s.workers[t := Running(id)], trace := s.trace + [HandlerRan(id)])
    case Finish(t, outcome) =>
      var id := s.workers[t].id;
      s.(workers := s.workers[t := Handled(id, outcome)], trace := s.trace + [HandlerEnded(id, outcome)])
    case Count(t) =>
      var pc := s.workers[t];
      s.(workers := s.workers[t := Counted(pc.id, pc.outcome)],
         processed := s.processed + if pc.outcome.Returned? then 1 else 0,
         failures := s.failures + if pc.outcome.Raised? then 1 else 0)
    case Complete(t) =>
      var pc := s.workers[t];
      s.(workers := s.workers[t := Waiting], completed := s.completed + [(pc.id, pc.outcome)])
  }

  predicate WorkerStep(step: Step) {
    step.Take? || step.Check? || step.RunHandler? || step.Finish? || step.Count? || step.Complete?
  }

  /** While a stop is joining its worker there is no second stop, and no start once that worker has left. */
  predicate Serialised(s: State, step: Step) {
    && (step.StopBegin? ==> s.joining == multiset{})
    && (step.Start? ==> s.joining == multiset{} || Alive(s))
  }

  ghost predicate Reachable(s: State, steps: seq<Step>)
    decreases |steps|
  {
    if steps == [] then s == INITIAL
    else
      var n := |steps| - 1;
      exists p ::
        && Reachable(p, steps[..n])
        && Enabled(p, steps[n]) && Serialised(p, steps[n])
        && s == Apply(p, steps[n])
  }

  // ----- the invariant

  function Current(s: State): Pc {
    if s.thread.Some? && s.thread.value in s.workers then s.workers[s.thread.value] else Exited
  }

  function InFlight(pc: Pc): seq<nat> {
    if pc.Waiting? || pc.Exited? then [] else [pc.id]
  }

  function Carried(item: Item): seq<nat> {
    if item.Envelope? then [item.id] else []
  }

  function Pending(queue: seq<Item>): seq<nat> {
    if queue == [] then [] else Carried(queue[0]) + Pending(queue[1..])
  }

  function Ids(completed: seq<(nat, Outcome)>): seq<nat> {
    seq(|completed|, i requires 0 <= i < |completed| => completed[i].0)
  }

  function UpTo(n: nat): seq<nat> { seq(n, i => i) }

  /** Completed, in-flight and queued envelopes are together all that were submitted, in order. */
  predicate InOrder(s: State) {
    Ids(s.completed) + InFlight(Current(s)) + Pending(s.queue) == UpTo(s.submitted)
  }

  predicate NoSentinel(queue: seq<Item>) {
    forall i :: 0 <= i < |queue| ==> queue[i].Envelope?
  }

  /** One worker at a time; a stop leaves exactly one sentinel, behind everything that was accepted. */
  predicate OneWorker(s: State) {
    && (forall t :: t in s.workers && s.thread != Some(t) ==> s.workers[t].Exited?)
    && (s.thread.Some? ==> s.thread.value in s.workers)
    && (s.thread.None? ==> s.queue == [] && s.joining == multiset{} && !s.accepting)
    && (s.joining == multiset{} ==> NoSentinel(s.queue) && (s.thread.Some? ==> !Current(s).Exited?))
    && (s.joining != multiset{} ==>
          && s.thread.Some? && s.joining == multiset{s.thread.value} && !s.accepting
          && if Current(s).Exited? then s.queue == []
             else s.queue != [] && s.queue[|s.queue| - 1].Sentinel? && NoSentinel(s.queue[..|s.queue| - 1]))
  }

  function CountOf(completed: seq<(nat, Outcome)>, returned: bool): nat {
    if completed == [] then 0
    else
      var n := |completed| - 1;
      CountOf(completed[..n], returned) + if completed[n].1.Returned? == returned then 1 else 0
  }

  predicate Counters(s: State) {
    var pc := Current(s);
    && s.processed == CountOf(s.completed, true) + (if pc.Counted? && pc.outcome.Returned? then 1 else 0)
    && s.failures == CountOf(s.completed, false) + (if pc.Counted? && pc.outcome.Raised? then 1 else 0)
  }

  /** Whether the gate is open after `trace`. */
  function Open(trace: seq<Mark>): bool {
    if trace == [] then false
    else
      var last := trace[|trace| - 1];
      if last.GateOpened? then true
      else if last.GateClosed? then false
      else Open(trace[..|trace| - 1])
  }

  /** How many envelopes have passed their acceptance check. */
  function CheckedCount(s: State): nat {
    var pc := Current(s);
    |s.completed| + if pc.Admitted? || pc.Running? || pc.Handled? || pc.Counted? then 1 else 0
  }

  predicate Admits(trace: seq<Mark>, id: nat) {
    Checked(id, true) in trace
  }

  /** Every check saw the gate as it then stood, and belongs to an envelope that has been checked. */
  predicate ChecksSound(trace: seq<Mark>, checked: nat) {
    forall k :: 0 <= k < |trace| && trace[k].Checked? ==>
      trace[k].accepting == Open(trace[..k]) && trace[k].id < checked
  }

  predicate ChecksOrdered(trace: seq<Mark>) {
    forall j, k :: 0 <= j < k < |trace| && trace[j].Checked? && trace[k].Checked? ==> trace[j].id < trace[k].id
  }

  predicate RunsAdmitted(trace: seq<Mark>) {
    forall k :: 0 <= k < |trace| && trace[k].HandlerRan? ==> Admits(trace, trace[k].id)
  }

  predicate TraceSound(s: State) {
    && s.accepting == Open(s.trace)
    && ChecksSound(s.trace, CheckedCount(s))
    && ChecksOrdered(s.trace)
    && RunsAdmitted(s.trace)
  }

  /** The envelope was admitted and ended as its handler did, or it was refused and ended with an error. */
  predicate Earned(trace: seq<Mark>, id: nat, outcome: Outcome) {
    || (Admits(trace, id) && HandlerRan(id) in trace && HandlerEnded(id, outcome) in trace)
    || (Checked(id, false) in trace && outcome == Raised)
  }

  predicate OutcomesEarned(s: State) {
    var pc := Current(s);
    && (pc.Admitted? ==> Admits(s.trace, pc.id))
    && (pc.Running? ==> Admits(s.trace, pc.id) && HandlerRan(pc.id) in s.trace)
    && (pc.Handled? || pc.Counted? ==> Earned(s.trace, pc.id, pc.outcome))
    && (forall i :: 0 <= i < |s.completed| ==> Earned(s.trace, s.completed[i].0, s.completed[i].1))
  }

  /** How many envelopes are past the start of their handler, or have been refused. */
  function PastHandler(s: State): nat {
    var pc := Current(s);
    |s.completed| + if pc.Running? || pc.Handled? || pc.Counted? then 1 else 0
  }

  /** Handlers run in order, so each at most once. */
  predicate RunsOrdered(trace: seq<Mark>, past: nat) {
    && (forall j, k :: 0 <= j < k < |trace| && trace[j].HandlerRan? && trace[k].HandlerRan? ==>
          trace[j].id < trace[k].id)
    && (forall k :: 0 <= k < |trace| && trace[k].HandlerRan? ==> trace[k].id < past)
  }

  /** Nothing is accepted while the gate is closed. */
  predicate SubmitsOpen(trace: seq<Mark>) {
    forall k :: 0 <= k < |trace| && trace[k].Submitted? ==> Open(trace[..k])
  }

  predicate Inv(s: State) {
    && OneWorker(s) && InOrder(s) && Counters(s) && TraceSound(s) && OutcomesEarned(s)
    && RunsOrdered(s.trace, PastHandler(s)) && SubmitsOpen(s.trace)
  }

  lemma {:induction false} PendingAppend(queue: seq<Item>, item: Item)
    ensures Pending(queue + [item]) == Pending(queue) + Carried(item)
  {
    if queue == [] {
      assert queue + [item] == [item];
    } else {
      assert (queue + [item])[1..] == queue[1..] + [item];
      PendingAppend(queue[1..], item);
    }
  }

  /** A worker that only moves on within its loop disturbs nothing the others rely on. */
  lemma OneWorkerMoves(s: State, s': State, t: nat, pc: Pc)
    requires OneWorker(s) && t in s.workers && !s.workers[t].Exited? && !pc.Exited?
    requires s'.workers == s.workers[t := pc]
    requires s'.queue == s.queue && s'.joining == s.joining && s'.thread == s.thread && s'.accepting == s.accepting
    ensures OneWorker(s')
  {
  }

  lemma TakeKeepsOneWorker(s: State, t: nat)
    requires OneWorker(s) && Enabled(s, Take(t))
    ensures OneWorker(Apply(s, Take(t)))
  {
    var s' := Apply(s, Take(t));
    assert s.thread == Some(t);
    if s.joining != multiset{} && s.queue[0].Envelope? {
      assert s'.queue[..|s'.queue| - 1] == s.queue[..|s.queue| - 1][1..];
    }
  }

  lemma OneWorkerKept(s: State, step: Step)
    requires OneWorker(s) && Enabled(s, step) && Serialised(s, step)
    ensures OneWorker(Apply(s, step))
  {
    if step.Take? {
      TakeKeepsOneWorker(s, step.t);
    } else if WorkerStep(step) {
      OneWorkerMoves(s, Apply(s, step), step.t, Apply(s, step).workers[step.t]);
    } else if step.StopBegin? && s.thread.Some? {
      assert Apply(s, step).queue[..|Apply(s, step).queue| - 1] == s.queue;
    }
  }

  /** Serialising starts and stops this far is exactly what keeps one worker and one sentinel. */
  lemma SerialisedIsNeeded(s: State, step: Step)
    requires OneWorker(s) && Enabled(s, step)
    ensures OneWorker(Apply(s, step)) <==> Serialised(s, step)
  {
    if Serialised(s, step) {
      OneWorkerKept(s, step);
    } else if step.Start? {
      assert Apply(s, step).thread == Some(step.t) && Apply(s, step).joining != multiset{step.t};
    } else {
      var t := s.thread.value;
      assert Apply(s, step).joining[t] == 2 && multiset{t}[t] == 1;
    }
  }

  /** Every worker that can step is the current one. */
  lemma StepperIsCurrent(s: State, t: nat)
    requires OneWorker(s) && t in s.workers && !s.workers[t].Exited?
    ensures s.thread == Some(t) && Current(s) == s.workers[t]
  {
  }

  /** Where a step of the worker leaves it. */
  function Moved(s: State, step: Step): Pc
    requires WorkerStep(step) && Enabled(s, step)
  {
    var pc := s.workers[step.t];
    match step
    case Take(_) => if s.queue[0].Sentinel? then Exited else Taken(s.queue[0].id)
    case Check(_) => if s.accepting then Admitted(pc.id) else Handled(pc.id, Raised)
    case RunHandler(_) => Running(pc.id)
    case Finish(_, outcome) => Handled(pc.id, outcome)
    case Count(_) => Counted(pc.id, pc.outcome)
    case Complete(_) => Waiting
  }

  lemma WorkerMoves(s: State, step: Step)
    requires OneWorker(s) && WorkerStep(step) && Enabled(s, step)
    ensures Current(s) == s.workers[step.t] && Current(Apply(s, step)) == Moved(s, step)
    ensures !step.Complete? ==> Apply(s, step).completed == s.completed
    ensures !step.Count? ==> Apply(s, step).processed == s.processed && Apply(s, step).failures == s.failures
  {
    StepperIsCurrent(s, step.t);
  }

  /** Only the worker moves the worker: every other step leaves it where it was, or starts one that waits. */
  lemma CurrentKept(s: State, step: Step)
    requires OneWorker(s) && Enabled(s, step) && Serialised(s, step) && !WorkerStep(step)
    ensures Current(Apply(s, step)) == Current(s)
         || (InFlight(Current(s)) == [] && InFlight(Current(Apply(s, step))) == [])
    ensures Apply(s, step).completed == s.completed
    ensures Apply(s, step).processed == s.processed && Apply(s, step).failures == s.failures
  {
  }

  lemma TakeKeepsOrder(s: State, t: nat)
    requires OneWorker(s) && InOrder(s) && Enabled(s, Take(t))
    ensures InOrder(Apply(s, Take(t)))
  {
    StepperIsCurrent(s, t);
    var s' := Apply(s, Take(t));
    assert InFlight(Current(s)) == [];
    assert InFlight(Current(s')) + Pending(s'.queue) == Pending(s.queue);
  }

  lemma CompleteKeepsOrder(s: State, t: nat)
    requires OneWorker(s) && InOrder(s) && Enabled(s, Complete(t))
    ensures InOrder(Apply(s, Complete(t)))
  {
    StepperIsCurrent(s, t);
    var s' := Apply(s, Complete(t));
    assert InFlight(Current(s')) == [];
    assert Ids(s'.completed) == Ids(s.completed) + InFlight(Current(s));
  }

  lemma InOrderKept(s: State, step: Step)
    requires OneWorker(s) && InOrder(s) && Enabled(s, step) && Serialised(s, step)
    ensures InOrder(Apply(s, step))
  {
    match step
    case Submit =>
      PendingAppend(s.queue, Envelope(s.submitted));
      assert UpTo(s.submitted + 1) == UpTo(s.submitted) + [s.submitted];
    case StopBegin =>
      PendingAppend(s.queue, Sentinel);
    case Take(t) =>
      TakeKeepsOrder(s, t);
    case Complete(t) =>
      CompleteKeepsOrder(s, t);
    case _ =>
      InFlightKept(s, step);
  }

  lemma InFlightKept(s: State, step: Step)
    requires OneWorker(s) && Enabled(s, step) && Serialised(s, step) && !step.Take? && !step.Complete?
    ensures InFlight(Current(Apply(s, step))) == InFlight(Current(s))
  {
    if WorkerStep(step) {
      WorkerMoves(s, step);
    } else {
      CurrentKept(s, step);
    }
  }

  lemma CompleteKeepsCounters(s: State, t: nat)
    requires OneWorker(s) && Counters(s) && Enabled(s, Complete(t))
    ensures Counters(Apply(s, Complete(t)))
  {
    WorkerMoves(s, Complete(t));
    var s' := Apply(s, Complete(t));
    assert s'.completed[..|s'.completed| - 1] == s.completed;
  }

  lemma CountersKept(s: State, step: Step)
    requires OneWorker(s) && Counters(s) && Enabled(s, step) && Serialised(s, step)
    ensures Counters(Apply(s, step))
  {
    if step.Complete? {
      CompleteKeepsCounters(s, step.t);
    } else if WorkerStep(step) {
      WorkerMoves(s, step);
    } else {
      CurrentKept(s, step);
    }
  }

  /** The envelope in flight is the one after the completed ones. */
  lemma InFlightIsNext(s: State)
    requires InOrder(s) && InFlight(Current(s)) != []
    ensures Current(s).id == |s.completed|
  {
    var all := Ids(s.completed) + InFlight(Current(s)) + Pending(s.queue);
    assert all[|s.completed|] == Current(s).id;
    assert UpTo(s.submitted)[|s.completed|] == |s.completed|;
  }

  lemma ChecksSoundAppend(trace: seq<Mark>, checked: nat, m: Mark, checked': nat)
    requires ChecksSound(trace, checked) && checked <= checked'
    requires m.Checked? ==> m.accepting == Open(trace) && m.id < checked'
    ensures ChecksSound(trace + [m], checked')
  {
    var longer := trace + [m];
    assert longer[..|trace|] == trace;
    forall k | 0 <= k < |longer| && longer[k].Checked?
      ensures longer[k].accepting == Open(longer[..k]) && longer[k].id < checked'
    {
      if k < |trace| {
        assert longer[..k] == trace[..k] && longer[k] == trace[k];
      }
    }
  }

  lemma ChecksOrderedAppend(trace: seq<Mark>, checked: nat, m: Mark)
    requires ChecksOrdered(trace) && ChecksSound(trace, checked)
    requires m.Checked? ==> checked <= m.id
    ensures ChecksOrdered(trace + [m])
  {
    var longer := trace + [m];
    forall j, k | 0 <= j < k < |longer| && longer[j].Checked? && longer[k].Checked?
      ensures longer[j].id < longer[k].id
    {
      assert longer[j] == trace[j];
    }
  }

  lemma RunsAdmittedAppend(trace: seq<Mark>, m: Mark)
    requires RunsAdmitted(trace) && (m.HandlerRan? ==> Admits(trace, m.id))
    ensures RunsAdmitted(trace + [m])
  {
    var longer := trace + [m];
    forall k | 0 <= k < |longer| && longer[k].HandlerRan? ensures Admits(longer, longer[k].id) {
      assert k < |trace| ==> longer[k] == trace[k];
    }
  }

  lemma TraceSoundAppend(s: State, s': State, m: Mark)
    requires TraceSound(s) && s'.trace == s.trace + [m] && CheckedCount(s) <= CheckedCount(s')
    requires s'.accepting == if m.GateOpened? then true else if m.GateClosed? then false else s.accepting
    requires m.Checked? ==> m.accepting == s.accepting && CheckedCount(s) <= m.id < CheckedCount(s')
    requires m.HandlerRan? ==> Admits(s.trace, m.id)
    ensures TraceSound(s')
  {
    ChecksSoundAppend(s.trace, CheckedCount(s), m, CheckedCount(s'));
    ChecksOrderedAppend(s.trace, CheckedCount(s), m);
    RunsAdmittedAppend(s.trace, m);
    assert s'.trace[..|s.trace|] == s.trace;
  }

  /** What a step writes on the trace. */
  function MarkOf(s: State, step: Step): seq<Mark>
    requires Enabled(s, step)
  {
    match step
    case Start(_) => if Alive(s) then [] else [GateOpened]
    case RequestPause => [GateClosed]
    case StopBegin => [GateClosed]
    case Check(t) => [Checked(s.workers[t].id, s.accepting)]
    case RunHandler(t) => [HandlerRan(s.workers[t].id)]
    case Submit => [Submitted(s.submitted)]
    case Finish(t, outcome) => [HandlerEnded(s.workers[t].id, outcome)]
    case _ => []
  }

  lemma StepMarks(s: State, step: Step)
    requires Enabled(s, step)
    ensures Apply(s, step).trace == s.trace + MarkOf(s, step)
    ensures Apply(s, step).accepting ==
              if MarkOf(s, step) == [GateOpened] then true
              else if MarkOf(s, step) == [GateClosed] then false
              else s.accepting
  {
  }

  lemma CheckedCountKept(s: State, step: Step)
    requires OneWorker(s) && Enabled(s, step) && Serialised(s, step)
    ensures CheckedCount(Apply(s, step)) == CheckedCount(s) + if step.Check? then 1 else 0
  {
    if WorkerStep(step) {
      WorkerMoves(s, step);
    } else {
      CurrentKept(s, step);
    }
  }

  lemma TraceKept(s: State, step: Step)
    requires OneWorker(s) && InOrder(s) && TraceSound(s) && OutcomesEarned(s)
    requires Enabled(s, step) && Serialised(s, step)
    ensures TraceSound(Apply(s, step))
  {
    StepMarks(s, step);
    CheckedCountKept(s, step);
    if step.Check? || step.RunHandler? {
      StepperIsCurrent(s, step.t);
    }
    if step.Check? {
      InFlightIsNext(s);
    }
    var m := MarkOf(s, step);
    if m != [] {
      TraceSoundAppend(s, Apply(s, step), m[0]);
    }
  }

  lemma EarnedGrows(trace: seq<Mark>, longer: seq<Mark>, id: nat, outcome: Outcome)
    requires Earned(trace, id, outcome) && trace <= longer
    ensures Earned(longer, id, outcome)
  {
    assert forall e :: e in trace ==> e in longer;
  }

  lemma CompletedStayEarned(s: State, trace: seq<Mark>)
    requires OutcomesEarned(s) && s.trace <= trace
    ensures forall i :: 0 <= i < |s.completed| ==> Earned(trace, s.completed[i].0, s.completed[i].1)
  {
    hide Earned;
    forall i | 0 <= i < |s.completed| ensures Earned(trace, s.completed[i].0, s.completed[i].1) {
      EarnedGrows(s.trace, trace, s.completed[i].0, s.completed[i].1);
    }
  }

  /** A longer trace takes nothing back. */
  lemma EarnedStays(s: State, s': State)
    requires OutcomesEarned(s) && s.trace <= s'.trace && s'.completed == s.completed
    requires Current(s') == Current(s) || InFlight(Current(s')) == []
    ensures OutcomesEarned(s')
  {
    CompletedStayEarned(s, s'.trace);
    var pc := Current(s);
    assert forall e :: e in s.trace ==> e in s'.trace;
    if pc.Handled? || pc.Counted? {
      EarnedGrows(s.trace, s'.trace, pc.id, pc.outcome);
    }
  }

  lemma WorkerEarns(s: State, step: Step)
    requires OneWorker(s) && OutcomesEarned(s) && Enabled(s, step) && WorkerStep(step)
    ensures OutcomesEarned(Apply(s, step))
  {
    WorkerMoves(s, step);
    StepMarks(s, step);
    var s', m := Apply(s, step), MarkOf(s, step);
    CompletedStayEarned(s, s'.trace);
    assert forall e :: e in s.trace ==> e in s'.trace;
    assert forall e :: e in m ==> e in s'.trace;
    assert m != [] ==> m[0] in m;
  }

  lemma OutcomesKept(s: State, step: Step)
    requires OneWorker(s) && OutcomesEarned(s) && Enabled(s, step) && Serialised(s, step)
    ensures OutcomesEarned(Apply(s, step))
  {
    if WorkerStep(step) {
      WorkerEarns(s, step);
    } else {
      StepMarks(s, step);
      CurrentKept(s, step);
      EarnedStays(s, Apply(s, step));
    }
  }

  lemma PastHandlerKept(s: State, step: Step)
    requires OneWorker(s) && Enabled(s, step) && Serialised(s, step)
    ensures PastHandler(s) <= PastHandler(Apply(s, step))
    ensures step.RunHandler? ==> PastHandler(s) == |s.completed| && PastHandler(Apply(s, step)) == |s.completed| + 1
  {
    if WorkerStep(step) {
      WorkerMoves(s, step);
    } else {
      CurrentKept(s, step);
    }
  }

  lemma RunsOrderedAppend(trace: seq<Mark>, past: nat, m: Mark, past': nat)
    requires RunsOrdered(trace, past) && past <= past'
    requires m.HandlerRan? ==> past <= m.id < past'
    ensures RunsOrdered(trace + [m], past')
  {
  }

  lemma SubmitsOpenAppend(trace: seq<Mark>, m: Mark)
    requires SubmitsOpen(trace) && (m.Submitted? ==> Open(trace))
    ensures SubmitsOpen(trace + [m])
  {
    var longer := trace + [m];
    forall k | 0 <= k < |longer| && longer[k].Submitted? ensures Open(longer[..k]) {
      assert longer[..k] == if k < |trace| then trace[..k] else trace;
    }
  }

  lemma RunsAndSubmitsKept(s: State, step: Step)
    requires OneWorker(s) && InOrder(s) && TraceSound(s) && Enabled(s, step) && Serialised(s, step)
    requires RunsOrdered(s.trace, PastHandler(s)) && SubmitsOpen(s.trace)
    ensures RunsOrdered(Apply(s, step).trace, PastHandler(Apply(s, step))) && SubmitsOpen(Apply(s, step).trace)
  {
    StepMarks(s, step);
    PastHandlerKept(s, step);
    if step.RunHandler? {
      StepperIsCurrent(s, step.t);
      InFlightIsNext(s);
    }
    var m := MarkOf(s, step);
    hide OneWorker, InOrder, Apply;
    if m != [] {
      RunsOrderedAppend(s.trace, PastHandler(s), m[0], PastHandler(Apply(s, step)));
      SubmitsOpenAppend(s.trace, m[0]);
      assert s.trace + m == s.trace + [m[0]];
    }
  }

  lemma {:induction false} InvHolds(s: State, steps: seq<Step>)
    requires Reachable(s, steps)
    ensures Inv(s)
    decreases |steps|
  {
    if steps != [] {
      var n := |steps| - 1;
      var p :| Reachable(p, steps[..n]) && Enabled(p, steps[n]) && Serialised(p, steps[n]) && s == Apply(p, steps[n]);
      InvHolds(p, steps[..n]);
      OneWorkerKept(p, steps[n]);
      InOrderKept(p, steps[n]);
      CountersKept(p, steps[n]);
      TraceKept(p, steps[n]);
      OutcomesKept(p, steps[n]);
      RunsAndSubmitsKept(p, steps[n]);
    }
  }

  // ----- what it means for submitters and for the operator

  /** Envelopes complete once each, in the order they were enqueued. */
  lemma CompletedOnceInOrder(s: State, steps: seq<Step>)
    requires Reachable(s, steps)
    ensures |s.completed| <= s.submitted
    ensures forall i :: 0 <= i < |s.completed| ==> s.completed[i].0 == i
  {
    InvHolds(s, steps);
    var all := Ids(s.completed) + InFlight(Current(s)) + Pending(s.queue);
    assert |all| == s.submitted;
    forall i | 0 <= i < |s.completed| ensures s.completed[i].0 == i {
      assert all[i] == Ids(s.completed)[i];
      assert UpTo(s.submitted)[i] == i;
    }
  }

  /** A worker that has left, left nothing behind: everything submitted has been completed. */
  lemma NothingLeftBehind(s: State, steps: seq<Step>)
    requires Reachable(s, steps)
    ensures !Alive(s) ==> |s.completed| == s.submitted && s.queue == []
    ensures !Alive(s) ==> s.processed + s.failures == s.submitted
    ensures !Alive(s) ==> s.processed == CountOf(s.completed, true) && s.failures == CountOf(s.completed, false)
  {
    InvHolds(s, steps);
    if !Alive(s) {
      assert s.queue == [] && InFlight(Current(s)) == [];
      assert |Ids(s.completed)| == |UpTo(s.submitted)|;
      CountsAddUp(s.completed);
    }
  }

  lemma {:induction false} CountsAddUp(completed: seq<(nat, Outcome)>)
    ensures CountOf(completed, true) + CountOf(completed, false) == |completed|
  {
    if completed != [] {
      CountsAddUp(completed[..|completed| - 1]);
    }
  }

  /** Each envelope ends as it was dealt with: one admitted while the gate was open reached the handler and
      ended with the handler's own outcome; one refused while it was closed never did, and ended with an error. */
  lemma OutcomeIsEarned(s: State, steps: seq<Step>, i: nat)
    requires Reachable(s, steps) && i < |s.completed|
    ensures Checked(i, true) in s.trace || Checked(i, false) in s.trace
    ensures Checked(i, true) in s.trace ==>
              Checked(i, false) !in s.trace && HandlerRan(i) in s.trace && HandlerEnded(i, s.completed[i].1) in s.trace
    ensures Checked(i, false) in s.trace ==> HandlerRan(i) !in s.trace && s.completed[i].1 == Raised
  {
    InvHolds(s, steps);
    CompletedOnceInOrder(s, steps);
    assert Earned(s.trace, s.completed[i].0, s.completed[i].1);
    OneCheckEach(s.trace, i);
    NoRunWithoutAdmission(s.trace, i);
  }

  lemma OneCheckEach(trace: seq<Mark>, id: nat)
    requires ChecksOrdered(trace)
    ensures !(Checked(id, true) in trace && Checked(id, false) in trace)
  {
    forall j, k | 0 <= j < |trace| && 0 <= k < |trace| && trace[j] == Checked(id, true)
      ensures trace[k] != Checked(id, false)
    {
      assert trace[j].id == id;
      assert trace[k].Checked? && trace[k].id == id ==> j == k;
    }
  }

  lemma NoRunWithoutAdmission(trace: seq<Mark>, id: nat)
    requires RunsAdmitted(trace)
    ensures HandlerRan(id) in trace ==> Checked(id, true) in trace
  {
  }

  lemma {:induction false} OpenExactly(trace: seq<Mark>, k: nat)
    requires k <= |trace|
    ensures Open(trace[..k])
       <==> exists i :: 0 <= i < k && trace[i].GateOpened? && forall j :: i < j < k ==> !trace[j].GateClosed?
  {
    if k > 0 {
      OpenExactly(trace, k - 1);
      assert trace[..k][..k - 1] == trace[..k - 1] && trace[..k][k - 1] == trace[k - 1];
    }
  }

  /** How a check turns out is settled by the gate alone: admitted exactly when it had been opened and not
      closed since. */
  lemma CheckSeesTheGate(s: State, steps: seq<Step>, k: nat)
    requires Reachable(s, steps) && k < |s.trace| && s.trace[k].Checked?
    ensures s.trace[k].accepting
       <==> exists i :: 0 <= i < k && s.trace[i].GateOpened? && forall j :: i < j < k ==> !s.trace[j].GateClosed?
  {
    InvHolds(s, steps);
    OpenExactly(s.trace, k);
  }

  /** Who moves the gate: a start that finds nobody alive opens it, a pause and a stop close it. */
  lemma StepsMoveTheGate(s: State, step: Step)
    requires Enabled(s, step)
    ensures step.Start? && !Alive(s) ==>
              Apply(s, step).accepting && Apply(s, step).trace == s.trace + [GateOpened] && Alive(Apply(s, step))
    ensures step.Start? && Alive(s) ==> Apply(s, step) == s
    ensures step.RequestPause? || step.StopBegin? ==>
              !Apply(s, step).accepting && Apply(s, step).trace == s.trace + [GateClosed]
    ensures !step.Start? && !step.RequestPause? && !step.StopBegin? ==> Apply(s, step).accepting == s.accepting
  {
  }

  /** No envelope reaches the handler twice. */
  lemma HandlerRunsOnce(s: State, steps: seq<Step>, j: nat, k: nat)
    requires Reachable(s, steps) && j < |s.trace| && k < |s.trace|
    requires s.trace[j].HandlerRan? && s.trace[k].HandlerRan? && s.trace[j].id == s.trace[k].id
    ensures j == k
  {
    InvHolds(s, steps);
  }

  /** While the gate is closed nothing is accepted. */
  lemma PauseRefusesSubmissions(s: State, steps: seq<Step>, i: nat, j: nat)
    requires Reachable(s, steps) && i < j <= |s.trace| && ClosedThroughout(s.trace, i, j)
    ensures j == |s.trace| ==> !Enabled(s, Submit)
    ensures j < |s.trace| ==> !s.trace[j].Submitted?
  {
    InvHolds(s, steps);
    StaysClosed(s.trace, i, j);
    assert s.trace[..|s.trace|] == s.trace;
  }

  predicate ClosedThroughout(trace: seq<Mark>, i: nat, j: nat)
    requires i < j <= |trace|
  {
    trace[i].GateClosed? && forall k :: i < k < j ==> !trace[k].GateOpened?
  }

  lemma {:induction false} StaysClosed(trace: seq<Mark>, i: nat, j: nat)
    requires i < j <= |trace| && ClosedThroughout(trace, i, j)
    ensures !Open(trace[..j])
  {
    var pre := trace[..j];
    assert pre[|pre| - 1] == trace[j - 1];
    if i < j - 1 && !trace[j - 1].GateClosed? {
      StaysClosed(trace, i, j - 1);
      assert pre[..|pre| - 1] == trace[..j - 1];
    }
  }

  /** A check made while the gate is closed is the envelope's only one, so it never counts as admitted. */
  lemma RefusedIsNeverAdmitted(s: State, j: nat)
    requires TraceSound(s) && j < |s.trace| && s.trace[j].Checked? && !s.trace[j].accepting
    ensures !Admits(s.trace, s.trace[j].id)
  {
    forall k | 0 <= k < |s.trace| ensures s.trace[k] != Checked(s.trace[j].id, true) {
      if s.trace[k].Checked? && k != j {
        assert s.trace[k].id != s.trace[j].id;
      }
    }
  }

  /** After a pause, and until the loop is started again, no newly checked envelope reaches the
      handler, and if it completes it completes with an error. */
  lemma PauseHolds(s: State, steps: seq<Step>, i: nat, j: nat)
    requires Reachable(s, steps)
    requires i < j < |s.trace| && ClosedThroughout(s.trace, i, j) && s.trace[j].Checked?
    ensures HandlerRan(s.trace[j].id) !in s.trace
    ensures s.trace[j].id < |s.completed| ==> s.completed[s.trace[j].id] == (s.trace[j].id, Raised)
  {
    InvHolds(s, steps);
    CompletedOnceInOrder(s, steps);
    StaysClosed(s.trace, i, j);
    RefusedIsNeverAdmitted(s, j);
    NotAdmittedMeansRaised(s, s.trace[j].id);
  }

  lemma NotAdmittedMeansRaised(s: State, id: nat)
    requires TraceSound(s) && OutcomesEarned(s) && !Admits(s.trace, id)
    ensures HandlerRan(id) !in s.trace
    ensures forall i :: 0 <= i < |s.completed| && s.completed[i].0 == id ==> s.completed[i].1 == Raised
  {
    assert forall k :: 0 <= k < |s.trace| ==> s.trace[k] != HandlerRan(id);
  }

  // ----- the worker keeps going

  function Distance(pc: Pc): nat {
    match pc
    case Waiting => 0
    case Taken(_) => 5
    case Admitted(_) => 4
    case Running(_) => 3
    case Handled(_, _) => 2
    case Counted(_, _) => 1
    case Exited => 0
  }

  function Work(s: State): nat { 6 * |s.queue| + Distance(Current(s)) }

  function NextOf(t: nat, pc: Pc): Step
    requires !pc.Exited?
  {
    match pc
    case Waiting => Take(t)
    case Taken(_) => Check(t)
    case Admitted(_) => RunHandler(t)
    case Running(_) => Finish(t, Raised)
    case Handled(_, _) => Count(t)
    case Counted(_, _) => Complete(t)
  }

  lemma StepBringsEndNearer(s: State, step: Step)
    requires OneWorker(s) && WorkerStep(step) && Enabled(s, step)
    ensures Work(Apply(s, step)) < Work(s)
  {
    WorkerMoves(s, step);
  }

  /** While anything is unfinished the worker has a step, and any step it takes brings the end nearer. */
  lemma WorkerNeverStuck(s: State, steps: seq<Step>)
    requires Reachable(s, steps) && Work(s) > 0
    ensures Alive(s) && Enabled(s, NextOf(s.thread.value, Current(s)))
    ensures forall step :: WorkerStep(step) && Enabled(s, step) ==> Work(Apply(s, step)) < Work(s)
  {
    InvHolds(s, steps);
    forall step | WorkerStep(step) && Enabled(s, step)
      ensures Work(Apply(s, step)) < Work(s)
    {
      StepBringsEndNearer(s, step);
    }
  }

  // ----- why starts and stops must be serialised

  function Exec(s: State, steps: seq<Step>): Option<State>
    decreases |steps|
  {
    if steps == [] then Some(s)
    else if !Enabled(s, steps[0]) then None
    else Exec(Apply(s, steps[0]), steps[1..])
  }

  /** Two overlapping stops leave a second sentinel, and the next worker exits in front of its first envelope. */
  lemma OverlappingStopsStrandAnEnvelope()
    ensures exists steps, end ::
              Exec(INITIAL, steps) == Some(end) && !Alive(end) && end.submitted == 1 && end.completed == []
  {
    var first, stopped := TwoStops();
    var second, joined := JoinBoth(stopped);
    var third, end := NextStartStrands(joined);
    ExecAppend(INITIAL, first, second);
    ExecAppend(INITIAL, first + second, third);
    assert Exec(INITIAL, first + second + third) == Some(end);
  }

  lemma TwoStops() returns (steps: seq<Step>, end: State)
    ensures Exec(INITIAL, steps) == Some(end)
    ensures end.queue == [Sentinel, Sentinel] && end.thread == Some(0) && end.workers == map[0 := Waiting]
    ensures end.joining == multiset{0, 0} && end.submitted == 0 && end.completed == []
  {
    ExecOfThree(INITIAL, Start(0), StopBegin, StopBegin);
    steps := [Start(0), StopBegin, StopBegin];
    end := Apply(Apply(Apply(INITIAL, Start(0)), StopBegin), StopBegin);
  }

  lemma JoinBoth(s: State) returns (steps: seq<Step>, end: State)
    requires s.queue == [Sentinel, Sentinel] && s.workers == map[0 := Waiting]
    requires s.joining == multiset{0, 0} && s.submitted == 0 && s.completed == []
    ensures Exec(s, steps) == Some(end)
    ensures end.queue == [Sentinel] && end.thread == None && end.workers == map[0 := Exited]
    ensures end.submitted == 0 && end.completed == []
  {
    ExecOfThree(s, Take(0), StopEnd(0), StopEnd(0));
    steps := [Take(0), StopEnd(0), StopEnd(0)];
    end := Apply(Apply(Apply(s, Take(0)), StopEnd(0)), StopEnd(0));
  }

  lemma NextStartStrands(s: State) returns (steps: seq<Step>, end: State)
    requires s.queue == [Sentinel] && s.thread == None && s.workers == map[0 := Exited]
    requires s.submitted == 0 && s.completed == []
    ensures Exec(s, steps) == Some(end)
    ensures !Alive(end) && end.submitted == 1 && end.completed == []
  {
    ExecOfThree(s, Start(1), Submit, Take(1));
    steps := [Start(1), Submit, Take(1)];
    end := Apply(Apply(Apply(s, Start(1)), Submit), Take(1));
  }

  /** A start that comes after the worker took the sentinel but before the stop has joined it loses its own
      worker when that join ends, and the next start runs a second worker beside it. */
  lemma StartWhileJoiningDoublesTheWorker()
    ensures exists steps, end, t, u ::
              && Exec(INITIAL, steps) == Some(end)
              && t in end.workers && u in end.workers && t != u
              && end.workers[t].Waiting? && end.workers[u].Waiting?
  {
    var first, left := StoppedWorker();
    var second, end := StartedTwice(left);
    ExecAppend(INITIAL, first, second);
    assert Exec(INITIAL, first + second) == Some(end);
    assert end.workers[1].Waiting? && end.workers[2].Waiting?;
  }

  lemma StoppedWorker() returns (steps: seq<Step>, end: State)
    ensures Exec(INITIAL, steps) == Some(end)
    ensures end.thread == Some(0) && end.workers == map[0 := Exited] && end.joining == multiset{0}
  {
    ExecOfThree(INITIAL, Start(0), StopBegin, Take(0));
    steps := [Start(0), StopBegin, Take(0)];
    end := Apply(Apply(Apply(INITIAL, Start(0)), StopBegin), Take(0));
  }

  lemma StartedTwice(s: State) returns (steps: seq<Step>, end: State)
    requires s.thread == Some(0) && s.workers == map[0 := Exited] && s.joining == multiset{0}
    ensures Exec(s, steps) == Some(end)
    ensures end.workers == map[0 := Exited, 1 := Waiting, 2 := Waiting]
  {
    ExecOfThree(s, Start(1), StopEnd(0), Start(2));
    steps := [Start(1), StopEnd(0), Start(2)];
    end := Apply(Apply(Apply(s, Start(1)), StopEnd(0)), Start(2));
  }

  lemma ExecOfThree(s: State, a: Step, b: Step, c: Step)
    requires Enabled(s, a) && Enabled(Apply(s, a), b) && Enabled(Apply(Apply(s, a), b), c)
    ensures Exec(s, [a, b, c]) == Some(Apply(Apply(Apply(s, a), b), c))
  {
    assert [a, b, c][1..] == [b, c] && [b, c][1..] == [c] && [c][1..] == [];
    assert Exec(Apply(Apply(s, a), b), [c]) == Some(Apply(Apply(Apply(s, a), b), c));
    assert Exec(Apply(s, a), [b, c]) == Some(Apply(Apply(Apply(s, a), b), c));
  }

  lemma {:induction false} ExecAppend(s: State, a: seq<Step>, b: seq<Step>)
    requires Exec(s, a).Some?
    ensures Exec(s, a + b) == Exec(Exec(s, a).value, b)
    decreases |a|
  {
    if a == [] {
      assert a + b == b;
    } else {
      assert (a + b)[1..] == a[1..] + b;
      ExecAppend(Apply(s, a[0]), a[1..], b);
    }
  }
}
