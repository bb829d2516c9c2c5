/** The chain of rule engines (core/risk.py). */
module Risk {
  import opened Wrappers
  import opened Domain

  datatype Context = Context(
    protectedTarget: string, platform: string, requestedValue: Option<real>, request: Request)

  /** What running one engine comes to: it raised, or it answered something. */
  datatype Answer = Crashed | Said(outcome: string, adjustedValue: Option<real>)

  /** A deterministic engine: its answer depends on what it is asked and on nothing else. */
  datatype Engine = Engine(target: string, answer: (string, Context) -> Answer)

  datatype Verdict = Allowed | Adjusted(value: real) | Rejected | Halted {
    predicate Refuses() { Rejected? || Halted? }
  }

  /** What one answer contributes to the chain. */
  function Contribution(a: Answer): Verdict {
    match a
    case Crashed => Rejected
    case Said(outcome, adjustedValue) =>
      var o := Upper(outcome);
      if o == "ALLOW" then Allowed
      else if o == "HALT" then Halted
      else if o == "REJECT" then Rejected
      else if o == "ADJUST" && adjustedValue.Some? then Adjusted(adjustedValue.value)
      else Rejected
  }

  function Least(values: seq<real>): real
    requires values != []
  {
    if |values| == 1 then values[0]
    else
      var rest := Least(values[..|values| - 1]);
      var last := values[|values| - 1];
      if last < rest then last else rest
  }

  /** The verdict after consulting `answers` in order, with `caps` collected before them. */
  function Consult(answers: seq<Answer>, caps: seq<real>, requested: Option<real>): Verdict {
    if answers == [] then
      if caps == [] then Allowed
      else Adjusted(Least(caps + if requested.Some? then [requested.value] else []))
    else
      match Contribution(answers[0])
      case Allowed => Consult(answers[1..], caps, requested)
      case Adjusted(v) => Consult(answers[1..], caps + [v], requested)
      case refusal => refusal
  }

  function ChainVerdict(answers: seq<Answer>, requested: Option<real>): Verdict {
    Consult(answers, [], requested)
  }

  function Applicable(engines: seq<Engine>, globMatch: (string, string) -> bool, target: string): seq<Engine> {
    if engines == [] then []
    else
      (if engines[0].target == target || globMatch(target, engines[0].target) then [engines[0]] else [])
      + Applicable(engines[1..], globMatch, target)
  }

  function Answers(chain: seq<Engine>, operation: string, context: Context): seq<Answer> {
    seq(|chain|, i requires 0 <= i < |chain| => chain[i].answer(operation, context))
  }

  /** What the registered engines say about one operation on one target. */
  function EnginesVerdict(
    engines: seq<Engine>, globMatch: (string, string) -> bool, target: string, operation: string, context: Context)
    : Verdict
  {
    ChainVerdict(Answers(Applicable(engines, globMatch, target), operation, context), context.requestedValue)
  }

  class RiskCoordinator {
    var engines: seq<Engine>
    const globMatch: (string, string) -> bool

    constructor (globMatch: (string, string) -> bool)
      ensures engines == [] && this.globMatch == globMatch
    {
      engines, this.globMatch := [], globMatch;
    }

    method Register(engine: Engine)
      modifies this
      ensures engines == old(engines) + [engine]
    {
      engines := engines + [engine];
    }

    /** Consult the chain in enablement order; the first refusal ends it. */
    method Evaluate(target: string, operation: string, context: Context) returns (verdict: Verdict)
      requires context.protectedTarget == target
      ensures verdict == EnginesVerdict(engines, globMatch, target, operation, context)
    {
      var chain := Applicable(engines, globMatch, target);
      if chain == [] {
        return Allowed;
      }
      ghost var answers := Answers(chain, operation, context);
      var adjustments: seq<real> := [];
      var i := 0;
      while i < |chain|
        invariant 0 <= i <= |chain|
        invariant Consult(answers[i..], adjustments, context.requestedValue)
               == ChainVerdict(answers, context.requestedValue)
      {
        var contribution := Contribution(chain[i].answer(operation, context));
        assert answers[i..][0] == answers[i] && answers[i..][1..] == answers[i + 1..];
        if contribution.Refuses() {
          return contribution;
        }
        if contribution.Adjusted? {
          adjustments := adjustments + [contribution.value];
        }
        i := i + 1;
      }
      if adjustments == [] {
        return Allowed;
      }
      verdict := Adjusted(Least(adjustments
        + if context.requestedValue.Some? then [context.requestedValue.value] else []));
    }
  }

  // ----- the chain as a meet

  /** `u` lets through no more than `v` does. Callers treat both refusals alike. */
  predicate NoLooser(u: Verdict, v: Verdict) {
    || u.Refuses()
    || v.Allowed?
    || (u.Adjusted? && v.Adjusted? && u.value <= v.value)
  }

  predicate SameForCallers(u: Verdict, v: Verdict) {
    NoLooser(u, v) && NoLooser(v, u)
  }

  /** What the chain says when `a` is its only engine. */
  function Alone(a: Answer, requested: Option<real>): Verdict {
    ChainVerdict([a], requested)
  }

  predicate Capped(v: real, answers: seq<Answer>) {
    exists i :: 0 <= i < |answers| && Contribution(answers[i]) == Adjusted(v)
  }

  lemma {:induction false} LeastIsLeast(values: seq<real>)
    requires values != []
    ensures Least(values) in values
    ensures forall i :: 0 <= i < |values| ==> Least(values) <= values[i]
  {
    if |values| > 1 {
      LeastIsLeast(values[..|values| - 1]);
    }
  }

  /** Induction behind the characterisation: the chain started with `caps` already collected. */
  lemma {:induction false} ConsultIs(answers: seq<Answer>, caps: seq<real>, requested: Option<real>)
    ensures var v := Consult(answers, caps, requested);
            && (v.Refuses() <==> exists i :: 0 <= i < |answers| && Contribution(answers[i]).Refuses())
            && (v.Allowed? <==> caps == [] && forall i :: 0 <= i < |answers| ==> Contribution(answers[i]) == Allowed)
            && (v.Adjusted? ==>
                  && (v.value in caps || Capped(v.value, answers) || requested == Some(v.value))
                  && (forall c :: c in caps ==> v.value <= c)
                  && (forall i :: 0 <= i < |answers| && Contribution(answers[i]).Adjusted? ==>
                        v.value <= Contribution(answers[i]).value)
                  && (requested.Some? ==> v.value <= requested.value))
  {
    var v := Consult(answers, caps, requested);
    if answers == [] {
      if caps != [] {
        var all := caps + if requested.Some? then [requested.value] else [];
        LeastIsLeast(all);
        if requested.Some? {
          assert all[|caps|] == requested.value;
        }
        forall c | c in caps ensures v.value <= c {
          var k :| 0 <= k < |caps| && caps[k] == c;
          assert all[k] == c;
        }
      }
    } else {
      var first, rest := Contribution(answers[0]), answers[1..];
      var next := if first.Adjusted? then caps + [first.value] else caps;
      ConsultIs(rest, next, requested);
      assert forall i :: 0 <= i < |rest| ==> rest[i] == answers[i + 1];
      assert forall i :: 1 <= i < |answers| ==> answers[i] == rest[i - 1];
      if first.Adjusted? {
        assert first.value in next && forall c :: c in caps ==> c in next;
      }
    }
  }

  /** Exactly when the chain refuses, permits or adjusts, and to what. */
  lemma ChainIsMeetOfEngines(answers: seq<Answer>, requested: Option<real>)
    ensures var v := ChainVerdict(answers, requested);
            && (v.Refuses() <==> exists i :: 0 <= i < |answers| && Contribution(answers[i]).Refuses())
            && (v.Allowed? <==> forall i :: 0 <= i < |answers| ==> Contribution(answers[i]) == Allowed)
            && (v.Adjusted? ==>
                  && (Capped(v.value, answers) || requested == Some(v.value))
                  && (forall i :: 0 <= i < |answers| && Contribution(answers[i]).Adjusted? ==>
                        v.value <= Contribution(answers[i]).value)
                  && (requested.Some? ==> v.value <= requested.value))
  {
    ConsultIs(answers, [], requested);
  }

  /** An answer that lets the action go on, at full size or at a stated smaller one. */
  predicate Answered(a: Answer) {
    && a.Said?
    && (Upper(a.outcome) == "ALLOW" || (Upper(a.outcome) == "ADJUST" && a.adjustedValue.Some?))
  }

  /** A crash, an unknown outcome or an adjustment to no stated value refuses, like a refusal does. */
  lemma ChainFailsClosed(answers: seq<Answer>, requested: Option<real>)
    ensures ChainVerdict(answers, requested).Refuses()
       <==> exists i :: 0 <= i < |answers| && !Answered(answers[i])
  {
    ChainIsMeetOfEngines(answers, requested);
    assert forall i :: 0 <= i < |answers| ==> (Contribution(answers[i]).Refuses() <==> !Answered(answers[i]));
  }

  /** The chain in the words of its answers: permission is unanimous, and when nobody refuses an adjustment
      goes to the least of the stated values and the requested one. */
  lemma ChainInWords(answers: seq<Answer>, requested: Option<real>)
    ensures ChainVerdict(answers, requested) == Allowed
       <==> forall i :: 0 <= i < |answers| ==> answers[i].Said? && Upper(answers[i].outcome) == "ALLOW"
    ensures (forall i :: 0 <= i < |answers| ==> Answered(answers[i]))
         && (exists i :: 0 <= i < |answers| && Upper(answers[i].outcome) == "ADJUST")
       <==> ChainVerdict(answers, requested).Adjusted?
    ensures forall m :: ChainVerdict(answers, requested) == Adjusted(m) ==>
              && (requested == Some(m)
                  || exists i :: 0 <= i < |answers| && Upper(answers[i].outcome) == "ADJUST"
                                 && answers[i].adjustedValue == Some(m))
              && (requested.Some? ==> m <= requested.value)
              && forall i :: 0 <= i < |answers| && Upper(answers[i].outcome) == "ADJUST" ==>
                   m <= answers[i].adjustedValue.value
  {
    ChainIsMeetOfEngines(answers, requested);
    ChainFailsClosed(answers, requested);
    assert forall i :: 0 <= i < |answers| ==>
             (Contribution(answers[i]) == Allowed <==> answers[i].Said? && Upper(answers[i].outcome) == "ALLOW");
    assert forall i :: 0 <= i < |answers| && Answered(answers[i]) && Upper(answers[i].outcome) == "ADJUST" ==>
             Contribution(answers[i]) == Adjusted(answers[i].adjustedValue.value);
  }

  /** The first answer that is no answer decides what is reported: HALT if it says so, otherwise REJECT. */
  lemma {:induction false} FirstRefusalNamesVerdict(answers: seq<Answer>, caps: seq<real>, requested: Option<real>, i: nat)
    requires i < |answers| && !Answered(answers[i])
    requires forall k :: 0 <= k < i ==> Answered(answers[k])
    ensures Consult(answers, caps, requested)
         == if answers[i].Said? && Upper(answers[i].outcome) == "HALT" then Halted else Rejected
  {
    if i > 0 {
      var first := Contribution(answers[0]);
      FirstRefusalNamesVerdict(answers[1..], if first.Adjusted? then caps + [first.value] else caps, requested, i - 1);
    }
  }

  /** The chain is the greatest verdict that is no looser than any engine's own. */
  lemma ChainIsGreatestLowerBound(answers: seq<Answer>, requested: Option<real>, u: Verdict)
    ensures (forall i :: 0 <= i < |answers| ==> NoLooser(u, Alone(answers[i], requested)))
       <==> NoLooser(u, ChainVerdict(answers, requested))
  {
    var v := ChainVerdict(answers, requested);
    ChainIsMeetOfEngines(answers, requested);
    forall i | 0 <= i < |answers|
      ensures NoLooser(v, Alone(answers[i], requested))
      ensures Contribution(answers[i]).Refuses() <==> Alone(answers[i], requested).Refuses()
      ensures Alone(answers[i], requested).Adjusted? ==> Contribution(answers[i]).Adjusted?
      ensures Contribution(answers[i]).Adjusted? ==>
                && Alone(answers[i], requested).Adjusted?
                && Alone(answers[i], requested).value <= Contribution(answers[i]).value
                && (requested.Some? ==> Alone(answers[i], requested).value <= requested.value)
    {
      var one := [answers[i]];
      assert one[0] == answers[i];
      ChainIsMeetOfEngines(one, requested);
    }
    if forall i :: 0 <= i < |answers| ==> NoLooser(u, Alone(answers[i], requested)) {
      if v.Adjusted? && !u.Refuses() {
        var i :| 0 <= i < |answers| && !Contribution(answers[i]).Allowed?;
        assert NoLooser(u, Alone(answers[i], requested));
        if Capped(v.value, answers) {
          var k :| 0 <= k < |answers| && Contribution(answers[k]) == Adjusted(v.value);
          assert NoLooser(u, Alone(answers[k], requested));
        }
      }
    }
  }

  /** A chain with at least these answers is no looser; how often and in which order they come does not matter. */
  lemma MoreAnswersNeverLoosen(more: seq<Answer>, fewer: seq<Answer>, requested: Option<real>)
    requires forall x :: x in fewer ==> x in more
    ensures NoLooser(ChainVerdict(more, requested), ChainVerdict(fewer, requested))
  {
    var v := ChainVerdict(more, requested);
    ChainIsGreatestLowerBound(more, requested, v);
    ChainIsGreatestLowerBound(fewer, requested, v);
    forall i | 0 <= i < |fewer| ensures NoLooser(v, Alone(fewer[i], requested)) {
      assert fewer[i] in more;
      var k :| 0 <= k < |more| && more[k] == fewer[i];
    }
  }

  lemma {:induction false} ApplicableIsFilter(
    engines: seq<Engine>, globMatch: (string, string) -> bool, target: string, e: Engine)
    ensures e in Applicable(engines, globMatch, target)
       <==> e in engines && (e.target == target || globMatch(target, e.target))
  {
    if engines != [] {
      ApplicableIsFilter(engines[1..], globMatch, target, e);
      assert engines == [engines[0]] + engines[1..];
    }
  }

  /** What holds of the answers holds of the engines that give them, whatever part of them a target concerns. */
  lemma MoreEnginesNeverLoosen(
    more: seq<Engine>, fewer: seq<Engine>, globMatch: (string, string) -> bool, target: string, operation: string,
    context: Context)
    requires forall e :: e in fewer ==> e in more
    ensures NoLooser(EnginesVerdict(more, globMatch, target, operation, context),
                     EnginesVerdict(fewer, globMatch, target, operation, context))
  {
    var large, small := Applicable(more, globMatch, target), Applicable(fewer, globMatch, target);
    var answers := Answers(large, operation, context);
    forall x | x in Answers(small, operation, context) ensures x in answers {
      var i :| 0 <= i < |small| && small[i].answer(operation, context) == x;
      ApplicableIsFilter(fewer, globMatch, target, small[i]);
      ApplicableIsFilter(more, globMatch, target, small[i]);
      var k :| 0 <= k < |large| && large[k] == small[i];
      assert answers[k] == x;
    }
    MoreAnswersNeverLoosen(answers, Answers(small, operation, context), context.requestedValue);
  }

  /** The order in which the engines were registered does not matter to a caller. */
  lemma OrderOfEnginesDoesNotMatter(
    a: seq<Engine>, b: seq<Engine>, globMatch: (string, string) -> bool, target: string, operation: string,
    context: Context)
    requires multiset(a) == multiset(b)
    ensures SameForCallers(EnginesVerdict(a, globMatch, target, operation, context),
                           EnginesVerdict(b, globMatch, target, operation, context))
  {
    assert forall e :: e in a <==> e in multiset(a);
    assert forall e :: e in b <==> e in multiset(b);
    MoreEnginesNeverLoosen(a, b, globMatch, target, operation, context);
    MoreEnginesNeverLoosen(b, a, globMatch, target, operation, context);
  }

  /** Registering one more engine, anywhere in the list, never loosens the verdict. */
  lemma ExtraEngineNeverLoosens(
    before: seq<Engine>, extra: Engine, after: seq<Engine>, globMatch: (string, string) -> bool, target: string,
    operation: string, context: Context)
    ensures NoLooser(EnginesVerdict(before + [extra] + after, globMatch, target, operation, context),
                     EnginesVerdict(before + after, globMatch, target, operation, context))
  {
    MoreEnginesNeverLoosen(before + [extra] + after, before + after, globMatch, target, operation, context);
  }

  // ----- which of the two refusals is reported

  predicate Gives(answers: seq<Answer>, v: Verdict) {
    exists i :: 0 <= i < |answers| && Contribution(answers[i]) == v
  }

  /** A refusal is the contribution of some engine. */
  lemma {:induction false} RefusalIsSomeones(answers: seq<Answer>, caps: seq<real>, requested: Option<real>)
    requires Consult(answers, caps, requested).Refuses()
    ensures Gives(answers, Consult(answers, caps, requested))
  {
    var first := Contribution(answers[0]);
    if !first.Refuses() {
      var next := if first.Adjusted? then caps + [first.value] else caps;
      RefusalIsSomeones(answers[1..], next, requested);
      var i :| 0 <= i < |answers[1..]| && Contribution(answers[1..][i]) == Consult(answers, caps, requested);
      assert answers[i + 1] == answers[1..][i];
    }
  }

  /** Asked first, an engine that refuses settles the label. */
  lemma FirstRefusalIsReported(answers: seq<Answer>, requested: Option<real>, v: Verdict) returns (b: seq<Answer>)
    requires v.Refuses() && Gives(answers, v)
    ensures multiset(b) == multiset(answers) && ChainVerdict(b, requested) == v
  {
    var i :| 0 <= i < |answers| && Contribution(answers[i]) == v;
    b := [answers[i]] + answers[..i] + answers[i + 1..];
    assert answers == answers[..i] + [answers[i]] + answers[i + 1..];
  }

  lemma SameVerdictOrOtherLabel(a: seq<Answer>, b: seq<Answer>, requested: Option<real>)
    requires multiset(a) == multiset(b)
    ensures var u, v := ChainVerdict(a, requested), ChainVerdict(b, requested);
            u == v || (u.Refuses() && v.Refuses() && Gives(a, u) && Gives(a, v))
  {
    var u, v := ChainVerdict(a, requested), ChainVerdict(b, requested);
    assert forall x :: x in a <==> x in multiset(a);
    assert forall x :: x in b <==> x in multiset(b);
    MoreAnswersNeverLoosen(a, b, requested);
    MoreAnswersNeverLoosen(b, a, requested);
    if u.Refuses() {
      RefusalIsSomeones(a, [], requested);
      RefusalIsSomeones(b, [], requested);
      var i :| 0 <= i < |b| && Contribution(b[i]) == v;
      assert b[i] in a;
    }
  }

  /** The verdict is the same under every order of the answers, label and all, exactly when no engine
      halts while another rejects, crashes or answers nonsense. */
  lemma RefusalLabelDependsOnOrder(answers: seq<Answer>, requested: Option<real>)
    ensures (forall b: seq<Answer> :: multiset(b) == multiset(answers) ==>
               ChainVerdict(b, requested) == ChainVerdict(answers, requested))
       <==> !(Gives(answers, Halted) && Gives(answers, Rejected))
  {
    if Gives(answers, Halted) && Gives(answers, Rejected) {
      var halting := FirstRefusalIsReported(answers, requested, Halted);
      var rejecting := FirstRefusalIsReported(answers, requested, Rejected);
      assert ChainVerdict(halting, requested) != ChainVerdict(rejecting, requested);
    } else {
      forall b: seq<Answer> | multiset(b) == multiset(answers)
        ensures ChainVerdict(b, requested) == ChainVerdict(answers, requested)
      {
        SameVerdictOrOtherLabel(answers, b, requested);
      }
    }
  }

  /** Two engines that are reported differently by order. */
  lemma HaltAndRejectDiffer()
    ensures ChainVerdict([Said("HALT", None), Said("REJECT", None)], None) == Halted
    ensures ChainVerdict([Said("REJECT", None), Said("HALT", None)], None) == Rejected
  {
    assert Upper("HALT") == "HALT" && Upper("REJECT") == "REJECT";
  }
}
