/** The cross-topic queue of one cycle (runtime/evaluation.py). */
module Evaluation {
  import opened Sorting

  /** Position `index` of the entries of topic `topic`. */
  datatype Slot = Slot(topic: nat, index: nat)

  predicate Fits<T>(byTopic: seq<seq<T>>, s: Slot) {
    s.topic < |byTopic| && s.index < |byTopic[s.topic]|
  }

  /** Round by round, and within a round topic by topic. */
  predicate Earlier(a: Slot, b: Slot) {
    a.index < b.index || (a.index == b.index && a.topic < b.topic)
  }

  predicate Increasing(plan: seq<Slot>) {
    forall i, j :: 0 <= i < j < |plan| ==> Earlier(plan[i], plan[j])
  }

  /** The plan takes exactly the slots that exist before `limit`, in order. */
  ghost predicate TakesBefore<T>(byTopic: seq<seq<T>>, plan: seq<Slot>, limit: Slot) {
    && Increasing(plan)
    && forall s :: s in plan <==> Fits(byTopic, s) && Earlier(s, limit)
  }

  ghost predicate IsSchedule<T>(byTopic: seq<seq<T>>, plan: seq<Slot>) {
    && Increasing(plan)
    && forall s :: s in plan <==> Fits(byTopic, s)
  }

  ghost predicate Follows<T>(byTopic: seq<seq<T>>, plan: seq<Slot>, queue: seq<T>) {
    && |queue| == |plan|
    && forall k :: 0 <= k < |plan| ==> Fits(byTopic, plan[k]) && queue[k] == byTopic[plan[k].topic][plan[k].index]
  }

  /** The queue takes every entry once, round by round and within a round topic by topic. */
  ghost predicate RoundRobin<T>(byTopic: seq<seq<T>>, queue: seq<T>) {
    exists plan :: IsSchedule(byTopic, plan) && Follows(byTopic, plan, queue)
  }

  function Longest<T>(byTopic: seq<seq<T>>): nat {
    if byTopic == [] then 0
    else
      var rest := Longest(byTopic[1..]);
      if |byTopic[0]| > rest then |byTopic[0]| else rest
  }

  lemma {:induction false} LongestBounds<T>(byTopic: seq<seq<T>>, t: nat)
    requires t < |byTopic|
    ensures |byTopic[t]| <= Longest(byTopic)
  {
    if t > 0 {
      LongestBounds(byTopic[1..], t - 1);
    }
  }

  lemma ExtendPlan<T>(byTopic: seq<seq<T>>, plan: seq<Slot>, limit: Slot)
    requires TakesBefore(byTopic, plan, limit)
    ensures TakesBefore(byTopic, if Fits(byTopic, limit) then plan + [limit] else plan,
                        Slot(limit.topic + 1, limit.index))
  {
    var next := Slot(limit.topic + 1, limit.index);
    var longer := if Fits(byTopic, limit) then plan + [limit] else plan;
    forall s ensures s in longer <==> Fits(byTopic, s) && Earlier(s, next) {
      assert Earlier(s, next) <==> Earlier(s, limit) || s == limit;
    }
    forall i, j | 0 <= i < j < |longer| ensures Earlier(longer[i], longer[j]) {
      assert plan[i] in plan;
    }
  }

  /** Build the queue; `plan` says which slot each place of it came from. */
  method PlanQueue<T>(byTopic: seq<seq<T>>) returns (queue: seq<T>)
    ensures RoundRobin(byTopic, queue)
  {
    ghost var plan: seq<Slot> := [];
    queue := [];
    var index := 0;
    while exists t :: 0 <= t < |byTopic| && index < |byTopic[t]|
      invariant TakesBefore(byTopic, plan, Slot(0, index))
      invariant Follows(byTopic, plan, queue)
      decreases Longest(byTopic) - index
    {
      ghost var open :| 0 <= open < |byTopic| && index < |byTopic[open]|;
      LongestBounds(byTopic, open);
      var t := 0;
      while t < |byTopic|
        invariant 0 <= t <= |byTopic|
        invariant TakesBefore(byTopic, plan, Slot(t, index))
        invariant Follows(byTopic, plan, queue)
      {
        ExtendPlan(byTopic, plan, Slot(t, index));
        if index < |byTopic[t]| {
          queue := queue + [byTopic[t][index]];
          plan := plan + [Slot(t, index)];
        }
        t := t + 1;
      }
      index := index + 1;
      forall s | Fits(byTopic, s)
        ensures Earlier(s, Slot(|byTopic|, index - 1)) <==> Earlier(s, Slot(0, index))
      {
      }
    }
    forall s | Fits(byTopic, s) ensures Earlier(s, Slot(0, index)) {
      assert !(index < |byTopic[s.topic]|);
    }
    assert IsSchedule(byTopic, plan);
  }

  // ----- what a schedule guarantees

  lemma OnePlan<T>(byTopic: seq<seq<T>>, plan: seq<Slot>, other: seq<Slot>)
    requires IsSchedule(byTopic, plan) && IsSchedule(byTopic, other)
    ensures plan == other
  {
    assert Listed(plan, Earlier) && Listed(other, Earlier);
    OneListing(plan, other, Earlier);
  }

  lemma OneFollower<T>(byTopic: seq<seq<T>>, plan: seq<Slot>, queue: seq<T>, other: seq<T>)
    requires Follows(byTopic, plan, queue) && Follows(byTopic, plan, other)
    ensures queue == other
  {
  }

  /** The topics leave no choice: there is one round-robin queue. */
  lemma OneQueue<T>(byTopic: seq<seq<T>>, queue: seq<T>, other: seq<T>)
    requires RoundRobin(byTopic, queue) && RoundRobin(byTopic, other)
    ensures queue == other
  {
    hide IsSchedule, Follows;
    var plan :| IsSchedule(byTopic, plan) && Follows(byTopic, plan, queue);
    var plan' :| IsSchedule(byTopic, plan') && Follows(byTopic, plan', other);
    OnePlan(byTopic, plan, plan');
    OneFollower(byTopic, plan, queue, other);
  }

  /** Every entry has exactly one place in the queue. */
  lemma QueueIsPermutation<T>(byTopic: seq<seq<T>>, plan: seq<Slot>, queue: seq<T>, s: Slot)
    requires IsSchedule(byTopic, plan) && Follows(byTopic, plan, queue) && Fits(byTopic, s)
    ensures exists k :: 0 <= k < |queue| && plan[k] == s && queue[k] == byTopic[s.topic][s.index]
    ensures forall j, k :: 0 <= j < |plan| && 0 <= k < |plan| && plan[j] == s && plan[k] == s ==> j == k
  {
    assert s in plan;
    var k :| 0 <= k < |plan| && plan[k] == s;
    assert queue[k] == byTopic[s.topic][s.index];
  }

  /** What a round-robin queue is, entry by entry: every place has its own entry and every entry a place; a
      later place holds a later entry of its topic's list, or an equally late one of a later topic. */
  lemma QueueIsRoundByRound<T>(byTopic: seq<seq<T>>, queue: seq<T>) returns (plan: seq<Slot>)
    requires RoundRobin(byTopic, queue)
    ensures |plan| == |queue|
    ensures forall k :: 0 <= k < |queue| ==>
              && plan[k].topic < |byTopic| && plan[k].index < |byTopic[plan[k].topic]|
              && queue[k] == byTopic[plan[k].topic][plan[k].index]
    ensures forall j, k :: 0 <= j < k < |queue| ==>
              plan[j].index < plan[k].index || (plan[j].index == plan[k].index && plan[j].topic < plan[k].topic)
    ensures forall t, i :: 0 <= t < |byTopic| && 0 <= i < |byTopic[t]| ==> Slot(t, i) in plan
  {
    plan :| IsSchedule(byTopic, plan) && Follows(byTopic, plan, queue);
    forall j, k | 0 <= j < k < |queue|
      ensures plan[j].index < plan[k].index || (plan[j].index == plan[k].index && plan[j].topic < plan[k].topic)
    {
      assert Earlier(plan[j], plan[k]);
    }
    forall t, i | 0 <= t < |byTopic| && 0 <= i < |byTopic[t]| ensures Slot(t, i) in plan {
      assert Fits(byTopic, Slot(t, i));
    }
  }

  /** How many entries of `topic` the first places of the queue hold. */
  function Taken(plan: seq<Slot>, topic: nat): nat {
    if plan == [] then 0
    else
      var n := |plan| - 1;
      Taken(plan[..n], topic) + if plan[n].topic == topic then 1 else 0
  }

  /** Whatever belongs before a slot of a prefix is in that prefix. */
  lemma PrefixIsClosed<T>(byTopic: seq<seq<T>>, plan: seq<Slot>, n: nat)
    requires IsSchedule(byTopic, plan) && n <= |plan|
    ensures forall k, s :: 0 <= k < n && Fits(byTopic, s) && Earlier(s, plan[k]) ==> s in plan[..k]
    ensures forall k :: 0 <= k < n ==> plan[k] !in plan[..k]
    ensures forall a, s :: a in plan[..n] && Fits(byTopic, s) && Earlier(s, a) ==> s in plan[..n]
  {
    forall k, s | 0 <= k < n && Fits(byTopic, s) && Earlier(s, plan[k]) ensures s in plan[..k] {
      assert s in plan;
      var j :| 0 <= j < |plan| && plan[j] == s;
      assert j < k;
    }
    forall a, s | a in plan[..n] && Fits(byTopic, s) && Earlier(s, a) ensures s in plan[..n] {
      var k :| 0 <= k < n && plan[..n][k] == a;
      assert s in plan[..k];
    }
  }

  /** A prefix holds, of each topic, an initial stretch of its entries, in the topic's own order. */
  lemma {:induction false} PrefixTakesInitialStretch<T>(byTopic: seq<seq<T>>, plan: seq<Slot>, n: nat, topic: nat)
    requires IsSchedule(byTopic, plan) && n <= |plan|
    ensures forall i: nat :: Slot(topic, i) in plan[..n] <==> i < Taken(plan[..n], topic)
  {
    if n > 0 {
      var m := n - 1;
      var c := Taken(plan[..m], topic);
      PrefixTakesInitialStretch(byTopic, plan, m, topic);
      PrefixIsClosed(byTopic, plan, n);
      assert plan[..n][..m] == plan[..m];
      assert plan[..n] == plan[..m] + [plan[m]];
      assert plan[m] in plan;
      if plan[m].topic == topic {
        assert c < plan[m].index ==> Fits(byTopic, Slot(topic, c)) && Earlier(Slot(topic, c), plan[m]);
        assert plan[m] == Slot(topic, plan[m].index);
        assert plan[m].index == c;
      }
    }
  }

  /** In every prefix two topics are served equally, give or take one, unless the less served one is used up. */
  lemma PrefixIsFair<T>(byTopic: seq<seq<T>>, plan: seq<Slot>, n: nat, t: nat, u: nat)
    requires IsSchedule(byTopic, plan) && n <= |plan| && t < |byTopic| && u < |byTopic|
    requires Taken(plan[..n], u) < |byTopic[u]|
    ensures Taken(plan[..n], t) <= Taken(plan[..n], u) + 1
  {
    PrefixTakesInitialStretch(byTopic, plan, n, t);
    PrefixTakesInitialStretch(byTopic, plan, n, u);
    PrefixIsClosed(byTopic, plan, n);
    var behind := Slot(u, Taken(plan[..n], u));
    var ahead := Slot(t, Taken(plan[..n], u) + 1);
    assert Earlier(behind, ahead) && Fits(byTopic, behind) && behind !in plan[..n];
    assert ahead !in plan[..n];
  }

  /** The whole queue holds all of every topic. */
  lemma QueueTakesAll<T>(byTopic: seq<seq<T>>, plan: seq<Slot>, topic: nat)
    requires IsSchedule(byTopic, plan) && topic < |byTopic|
    ensures Taken(plan, topic) == |byTopic[topic]|
  {
    assert plan[..|plan|] == plan;
    PrefixTakesInitialStretch(byTopic, plan, |plan|, topic);
    var c := Taken(plan, topic);
    assert Slot(topic, c) !in plan;
    if c > 0 {
      assert Slot(topic, c - 1) in plan;
    }
  }
}
