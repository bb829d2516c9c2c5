/** Making outlier verdicts monotone in confidence (agent/decision_evaluator.py). */
module DecisionEvaluator {
  import opened Wrappers

  /** One reviewed candidate and whether the screener says its verdict stands apart. */
  datatype Review = Review(id: string, trusted: bool)

  datatype Assessment = Assessment(id: string, confidence: Option<real>)

  /** The confidence recorded last for each candidate that has one. */
  function Confidences(assessments: seq<Assessment>): map<string, real> {
    if assessments == [] then map[]
    else
      var n := |assessments| - 1;
      var last := assessments[n];
      if last.confidence.Some? then Confidences(assessments[..n])[last.id := last.confidence.value]
      else Confidences(assessments[..n])
  }

  /** The least confidence among the trusted reviews that have one. */
  function Lowest(reviews: seq<Review>, conf: map<string, real>): Option<real> {
    if reviews == [] then None
    else
      var rest := Lowest(reviews[1..], conf);
      var r := reviews[0];
      if r.trusted && r.id in conf && (rest.None? || conf[r.id] < rest.value) then Some(conf[r.id]) else rest
  }

  function ConsistentUpwards(reviews: seq<Review>, assessments: seq<Assessment>): seq<Review> {
    var conf := Confidences(assessments);
    var lowest := Lowest(reviews, conf);
    if lowest.None? then reviews
    else
      seq(|reviews|, i requires 0 <= i < |reviews| =>
        Review(reviews[i].id,
               reviews[i].trusted || (reviews[i].id in conf && conf[reviews[i].id] >= lowest.value)))
  }

  // ----- the independent reading: the least monotone extension

  predicate SameCandidates(a: seq<Review>, b: seq<Review>) {
    |a| == |b| && forall i :: 0 <= i < |a| ==> a[i].id == b[i].id
  }

  predicate Extends(a: seq<Review>, b: seq<Review>) {
    SameCandidates(a, b) && forall i :: 0 <= i < |a| ==> b[i].trusted ==> a[i].trusted
  }

  /** Whoever is at least as confident as someone trusted is trusted. */
  predicate MonotoneUpwards(reviews: seq<Review>, conf: map<string, real>) {
    forall i, j ::
      && 0 <= i < |reviews| && 0 <= j < |reviews|
      && reviews[i].trusted && reviews[i].id in conf && reviews[j].id in conf
      && conf[reviews[j].id] >= conf[reviews[i].id]
      ==> reviews[j].trusted
  }

  /** The assessment that counts for a candidate: its last one with a confidence. */
  predicate LastSaid(assessments: seq<Assessment>, i: nat)
    requires i < |assessments|
  {
    && assessments[i].confidence.Some?
    && forall j :: i < j < |assessments| && assessments[j].id == assessments[i].id ==> assessments[j].confidence.None?
  }

  lemma {:induction false} ConfidencesCover(assessments: seq<Assessment>, id: string)
    ensures id in Confidences(assessments) <==>
              exists i :: 0 <= i < |assessments| && assessments[i].id == id && assessments[i].confidence.Some?
  {
    if assessments != [] {
      ConfidencesCover(assessments[..|assessments| - 1], id);
    }
  }

  /** Later assessments of a candidate replace earlier ones; those without a confidence replace nothing. */
  lemma {:induction false} ConfidencesAreLatest(assessments: seq<Assessment>, i: nat)
    requires i < |assessments| && LastSaid(assessments, i)
    ensures assessments[i].id in Confidences(assessments)
    ensures Confidences(assessments)[assessments[i].id] == assessments[i].confidence.value
  {
    var n := |assessments| - 1;
    if i < n {
      assert LastSaid(assessments[..n], i);
      ConfidencesAreLatest(assessments[..n], i);
      assert assessments[n].id == assessments[i].id ==> assessments[n].confidence.None?;
    }
  }

  lemma {:induction false} LowestIsLowest(reviews: seq<Review>, conf: map<string, real>)
    ensures var low := Lowest(reviews, conf);
            && (low.None? <==> forall i :: 0 <= i < |reviews| && reviews[i].trusted ==> reviews[i].id !in conf)
            && (low.Some? ==>
                  && (exists i :: 0 <= i < |reviews| && reviews[i].trusted && reviews[i].id in conf
                             && conf[reviews[i].id] == low.value)
                  && (forall i :: 0 <= i < |reviews| && reviews[i].trusted && reviews[i].id in conf ==>
                        low.value <= conf[reviews[i].id]))
  {
    if reviews != [] {
      var rest := reviews[1..];
      LowestIsLowest(rest, conf);
      assert forall i :: 0 <= i < |rest| ==> rest[i] == reviews[i + 1];
      assert forall i :: 1 <= i < |reviews| ==> reviews[i] == rest[i - 1];
    }
  }

  lemma ClosureExtends(reviews: seq<Review>, assessments: seq<Assessment>)
    ensures Extends(ConsistentUpwards(reviews, assessments), reviews)
    ensures MonotoneUpwards(ConsistentUpwards(reviews, assessments), Confidences(assessments))
  {
    LowestIsLowest(reviews, Confidences(assessments));
  }

  /** Every monotone extension of the screener's answers contains the closure. */
  lemma ClosureIsLeast(reviews: seq<Review>, assessments: seq<Assessment>, other: seq<Review>)
    requires Extends(other, reviews) && MonotoneUpwards(other, Confidences(assessments))
    ensures Extends(other, ConsistentUpwards(reviews, assessments))
  {
    LowestIsLowest(reviews, Confidences(assessments));
  }

  /** Answers that already are monotone are left alone; in particular applying the rule twice changes nothing. */
  lemma ClosureFixesMonotone(reviews: seq<Review>, assessments: seq<Assessment>)
    ensures MonotoneUpwards(reviews, Confidences(assessments)) <==> ConsistentUpwards(reviews, assessments) == reviews
    ensures var closed := ConsistentUpwards(reviews, assessments);
            ConsistentUpwards(closed, assessments) == closed
  {
    var closed := ConsistentUpwards(reviews, assessments);
    ClosureExtends(reviews, assessments);
    MonotoneIsFixed(closed, assessments);
    if MonotoneUpwards(reviews, Confidences(assessments)) {
      MonotoneIsFixed(reviews, assessments);
    }
  }

  lemma MonotoneIsFixed(reviews: seq<Review>, assessments: seq<Assessment>)
    requires MonotoneUpwards(reviews, Confidences(assessments))
    ensures ConsistentUpwards(reviews, assessments) == reviews
  {
    var closed := ConsistentUpwards(reviews, assessments);
    ClosureIsLeast(reviews, assessments, reviews);
    ClosureExtends(reviews, assessments);
    assert forall i :: 0 <= i < |reviews| ==> closed[i].trusted == reviews[i].trusted;
    assert forall i :: 0 <= i < |reviews| ==> closed[i] == reviews[i];
  }
}
