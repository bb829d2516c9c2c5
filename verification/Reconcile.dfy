/** Coalesced reconcile requests as atomic steps (runtime/controller.py). */
module Reconcile {
  import opened Wrappers

  /** Where a reconcile worker is: about to read the generation, reconciling for the generation it
      read, about to compare it, past its exit decision, or killed by something the loop does not catch. */
  datatype Pc = Ready | Reconciling(read: nat) | Comparing(read: nat) | Leaving | Dead

  /** `served` is the newest generation read by a worker that then started a reconcile;
      `lost` says a worker died holding requests nobody has asked about since. */
  datatype State = State(
    generation: nat, thread: Option<nat>, workers: map<nat, Pc>, served: nat, started: nat, lost: bool)

  const INITIAL := State(0, None, map[], 0, 0, false)

  datatype Step =
    | Request(spare: nat)
    | Read(t: nat)
    | Finish(t: nat)
    | Compare(t: nat)
    | Exit(t: nat)
    | Die(t: nat)

  predicate IsAlive(s: State, t: nat) { t in s.workers && !s.workers[t].Dead? }

  predicate Enabled(s: State, step: Step) {
    match step
    case Request(spare) => spare !in s.workers
    case Read(t) => t in s.workers && s.workers[t].Ready?
    case Finish(t) => t in s.workers && s.workers[t].Reconciling?
    case Compare(t) => t in s.workers && s.workers[t].Comparing?
    case Exit(t) => t in s.workers && s.workers[t].Leaving?
    case Die(t) => t in s.workers && s.workers[t].Reconciling?
  }

  function Apply(s: State, step: Step): State
    requires Enabled(s, step)
  {
    match step
    case Request(spare) =>
      var asked := s.(generation := s.generation + 1);
      if s.thread.Some? && IsAlive(s, s.thread.value) then asked
      else asked.(thread := Some(spare), workers := s.workers[spare := Ready], lost := false)
    case Read(t) =>
      s.(workers := s.workers[t := Reconciling(s.generation)], served := s.generation, started := s.started + 1)
    case Finish(t) =>
      s.(workers := s.workers[t := Comparing(s.workers[t].read)])
    case Compare(t) =>
      if s.workers[t].read == s.generation then s.(thread := None, workers := s.workers[t := Leaving])
      else s.(workers := s.workers[t := Ready])
    case Exit(t) =>
      s.(workers := s.workers[t := Dead])
    case Die(t) =>
      s.(workers := s.workers[t := Dead], lost := s.served < s.generation)
  }

  predicate Working(pc: Pc) { pc.Ready? || pc.Reconciling? || pc.Comparing? }

  ghost predicate Reachable(s: State, steps: seq<Step>)
    decreases |steps|
  {
    if steps == [] then s == INITIAL
    else
      var n := |steps| - 1;
      exists p :: Reachable(p, steps[..n]) && Enabled(p, steps[n]) && s == Apply(p, steps[n])
  }

  /** At most one worker has not yet decided to leave, and it is the one requests see. */
  predicate OneWorking(s: State) {
    forall t :: t in s.workers && Working(s.workers[t]) ==> s.thread == Some(t)
  }

  /** The working worker still has to loop for every generation it has not read. */
  predicate Covered(s: State) {
    && s.served <= s.generation
    && (s.thread.Some? ==> s.thread.value in s.workers && !s.workers[s.thread.value].Leaving?)
    && (forall t :: t in s.workers && (s.workers[t].Reconciling? || s.workers[t].Comparing?) ==>
          s.workers[t].read == s.served)
    && (s.served < s.generation && !s.lost ==> s.thread.Some? && Working(s.workers[s.thread.value]))
    && (s.lost ==> s.thread.Some? && s.workers[s.thread.value].Dead?)
  }

  /** Every reconcile that started had a request of its own, and so has the one about to start. */
  predicate Asked(s: State) {
    && s.started <= s.served
    && (forall t :: t in s.workers && s.workers[t].Ready? ==> s.started < s.generation)
  }

  predicate Inv(s: State) { OneWorking(s) && Covered(s) && Asked(s) }

  lemma InvKept(s: State, step: Step)
    requires Inv(s) && Enabled(s, step)
    ensures Inv(Apply(s, step))
  {
  }

  lemma {:induction false} InvHolds(s: State, steps: seq<Step>)
    requires Reachable(s, steps)
    ensures Inv(s)
    decreases |steps|
  {
    if steps != [] {
      var n := |steps| - 1;
      var p :| Reachable(p, steps[..n]) && Enabled(p, steps[n]) && s == Apply(p, steps[n]);
      InvHolds(p, steps[..n]);
      InvKept(p, steps[n]);
    }
  }

  /** In every interleaving, two workers are never both still working. */
  lemma AtMostOneWorker(s: State, steps: seq<Step>, t: nat, u: nat)
    requires Reachable(s, steps)
    requires t in s.workers && u in s.workers && Working(s.workers[t]) && Working(s.workers[u])
    ensures t == u
  {
    InvHolds(s, steps);
  }

  /** Coalescing only saves work: no more reconciles start than were requested. */
  lemma NoReconcileUnasked(s: State, steps: seq<Step>)
    requires Reachable(s, steps)
    ensures s.started <= s.generation
  {
    InvHolds(s, steps);
  }

  /** A worker that has caught up leaves, and one that has not goes on. */
  lemma WorkerLeavesWhenCaughtUp(s: State, steps: seq<Step>, t: nat)
    requires Reachable(s, steps) && Enabled(s, Compare(t))
    ensures s.served == s.generation <==> Apply(s, Compare(t)).workers[t].Leaving?
    ensures s.served < s.generation <==> Apply(s, Compare(t)).workers[t].Ready?
  {
    InvHolds(s, steps);
  }

  predicate StillHasToLoop(s: State, t: nat) {
    t in s.workers
    && (s.workers[t].Ready?
        || ((s.workers[t].Reconciling? || s.workers[t].Comparing?) && s.workers[t].read < s.generation))
  }

  /** No lost wake-up: a request nobody has read yet is waited for by a worker that must loop,
      unless a worker was killed from outside while requests were pending. */
  lemma NoLostWakeUp(s: State, steps: seq<Step>)
    requires Reachable(s, steps) && s.served < s.generation
    ensures !s.lost <==> exists t :: StillHasToLoop(s, t)
  {
    InvHolds(s, steps);
    if !s.lost {
      assert StillHasToLoop(s, s.thread.value);
    } else {
      assert forall t :: t in s.workers && Working(s.workers[t]) ==> s.thread == Some(t);
    }
  }

  /** Steps the worker still needs before it reads the current generation. */
  function Distance(pc: Pc): nat {
    match pc
    case Ready => 1
    case Comparing(_) => 2
    case Reconciling(_) => 3
    case _ => 0
  }

  function NextOf(t: nat, pc: Pc): Step
    requires Working(pc)
  {
    match pc
    case Ready => Read(t)
    case Reconciling(_) => Finish(t)
    case Comparing(_) => Compare(t)
  }

  /** The worker's own next step starts a reconcile that covers every request made so far, or brings it nearer. */
  lemma WorkerServesWithinThreeSteps(s: State, steps: seq<Step>)
    requires Reachable(s, steps) && s.served < s.generation && !s.lost
    ensures s.thread.Some? && s.thread.value in s.workers && Working(s.workers[s.thread.value])
    ensures var t := s.thread.value;
            var next := NextOf(t, s.workers[t]);
            && Enabled(s, next)
            && 1 <= Distance(s.workers[t]) <= 3
            && (next.Read? ==>
                  Apply(s, next).served == s.generation && Apply(s, next).started == s.started + 1)
            && (!next.Read? ==>
                  && Apply(s, next).thread == Some(t) && t in Apply(s, next).workers
                  && Apply(s, next).served == s.served && Apply(s, next).generation == s.generation
                  && Working(Apply(s, next).workers[t])
                  && Distance(Apply(s, next).workers[t]) < Distance(s.workers[t]))
  {
    InvHolds(s, steps);
  }

  /** Requests made meanwhile neither push the reconcile back nor take it away. */
  lemma RequestsDoNotDelay(s: State, steps: seq<Step>, spare: nat)
    requires Reachable(s, steps) && s.served < s.generation && !s.lost && spare !in s.workers
    ensures var after := Apply(s, Request(spare));
            && after.thread == s.thread && after.workers == s.workers
            && after.served < after.generation && !after.lost
  {
    InvHolds(s, steps);
  }

  /** A quiet robot: nobody working means every request was read by a reconcile that then started. */
  lemma IdleMeansServed(s: State, steps: seq<Step>)
    requires Reachable(s, steps) && !s.lost
    requires forall t :: t in s.workers ==> !Working(s.workers[t])
    ensures s.served == s.generation
  {
    InvHolds(s, steps);
  }

  /** A worker killed mid-reconcile loses the requests it had not read; the next request recovers them. */
  lemma NextRequestRecovers(s: State, steps: seq<Step>, spare: nat)
    requires Reachable(s, steps) && s.lost && spare !in s.workers
    ensures var after := Apply(s, Request(spare));
            !after.lost && StillHasToLoop(after, spare)
  {
    InvHolds(s, steps);
  }
}
