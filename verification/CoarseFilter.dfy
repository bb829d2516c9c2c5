/** The coarse screening filter and its quality floor (the filter part of _select in runtime/market_discovery.py). */
module CoarseFilter {
  import opened Wrappers
  import opened Sorting

  const MIN_SCREENING_CONFIDENCE: real := 0.80

  datatype Assessment = Assessment(action: string, quality: real, confidence: Option<real>)

  /** What the screener said this round, and how far it is trusted. */
  datatype Screen = Screen(
    assessments: map<string, Assessment>, failed: bool, threshold: real, outliers: set<string>) {

    predicate HighConfidence(confidence: Option<real>) {
      var effective := if threshold > MIN_SCREENING_CONFIDENCE then threshold else MIN_SCREENING_CONFIDENCE;
      confidence.Some? && confidence.value >= effective
    }

    predicate Excludes(id: string) {
      && id in assessments
      && !failed
      && assessments[id].action in {"DEFER", "REJECT"}
      && (HighConfidence(assessments[id].confidence) || id in outliers)
    }
  }

  /** A topic and its place in the pool. */
  datatype Topic = Topic(id: string, place: nat)

  function Topics(pool: seq<string>): seq<Topic> {
    seq(|pool|, i requires 0 <= i < |pool| => Topic(pool[i], i))
  }

  function Ids(topics: seq<Topic>): seq<string> {
    seq(|topics|, i requires 0 <= i < |topics| => topics[i].id)
  }

  function Keep(topics: seq<Topic>, wanted: set<string>): seq<Topic> {
    if topics == [] then []
    else
      var n := |topics| - 1;
      if topics[n].id in wanted then Keep(topics[..n], wanted) + [topics[n]] else Keep(topics[..n], wanted)
  }

  function ExcludedIds(pool: seq<string>, screen: Screen): set<string> {
    set id | id in pool && screen.Excludes(id)
  }

  function EligibleIds(pool: seq<string>, screen: Screen): set<string> {
    set id | id in pool && !screen.Excludes(id)
  }

  function CeilSqrtFrom(n: nat, r: nat): (root: nat)
    requires r == 0 || (r - 1) * (r - 1) < n
    ensures root * root >= n && (root == 0 || (root - 1) * (root - 1) < n)
    decreases n - r * r
  {
    if r * r >= n then r else CeilSqrtFrom(n, r + 1)
  }

  /** The least number whose square is at least `n`. */
  function CeilSqrt(n: nat): (root: nat)
    ensures root * root >= n && forall m: nat :: m * m >= n ==> root <= m
  {
    var root := CeilSqrtFrom(n, 0);
    assert forall m: nat :: m < root ==> m * m < n by {
      forall m: nat | m < root ensures m * m < n {
        SquareOrder(m, root - 1);
      }
    }
    root
  }

  lemma SquareOrder(a: nat, b: nat)
    requires a <= b
    ensures a * a <= b * b
  {
  }

  function Floor(n: nat): nat { if CeilSqrt(n) > 1 then CeilSqrt(n) else 1 }

  function RestoreCount(excluded: nat, eligible: nat): nat {
    var missing := if Floor(excluded + eligible) > eligible then Floor(excluded + eligible) - eligible else 0;
    if excluded < missing then excluded else missing
  }

  /** Least confident first, and the higher quality first among equals. */
  function Doubt(screen: Screen, id: string): Rank {
    if id in screen.assessments then
      Rank(screen.assessments[id].confidence.GetOr(0.0), -screen.assessments[id].quality, 0.0)
    else Rank(0.0, 0.0, 0.0)
  }

  predicate RestoredBefore(screen: Screen, a: Topic, b: Topic) {
    || Doubt(screen, a.id).Below(Doubt(screen, b.id))
    || (Doubt(screen, a.id) == Doubt(screen, b.id) && a.place < b.place)
  }

  /** A confidence that was not given counts as none at all. */
  function Certainty(a: Assessment): real {
    match a.confidence
    case Some(c) => c
    case None => 0.0
  }

  /** Every restored topic was screened out with less confidence than every one left out; or with the same
      and at a higher quality; or with both the same, and it stands earlier in the pool. */
  ghost predicate LeastCertainRestored(pool: seq<string>, screen: Screen, restored: set<string>) {
    forall i, j ::
      && 0 <= i < |pool| && 0 <= j < |pool|
      && pool[i] in restored && pool[j] in ExcludedIds(pool, screen) - restored
      && pool[i] in screen.assessments && pool[j] in screen.assessments
      ==> var x, y := screen.assessments[pool[i]], screen.assessments[pool[j]];
          || Certainty(x) < Certainty(y)
          || (Certainty(x) == Certainty(y) && (x.quality > y.quality || (x.quality == y.quality && i < j)))
  }

  /** The topics stand in the order of the pool. */
  ghost predicate InPoolOrder(pool: seq<string>, ids: seq<string>) {
    forall i, j :: 0 <= i < j < |ids| ==> exists m, n :: 0 <= m < n < |pool| && pool[m] == ids[i] && pool[n] == ids[j]
  }

  /** In order of doubt: no exclusion left standing comes before a restored one. */
  ghost predicate RestoredFirst(pool: seq<string>, screen: Screen, restored: set<string>) {
    forall a, b ::
      && a in Topics(pool) && b in Topics(pool)
      && a.id in restored && b.id in ExcludedIds(pool, screen) - restored
      ==> RestoredBefore(screen, a, b)
  }

  function PlaceRank(t: Topic): Rank { Rank(t.place as real, 0.0, 0.0) }

  function PlaceOf(t: Topic): int { t.place }

  /** Assessed without errors as one to defer or reject, with a confidence of at least 80 percent and of the
      adaptive threshold, or as an outlier. */
  ghost predicate ScreenedOut(screen: Screen, id: string) {
    && !screen.failed
    && id in screen.assessments
    && (screen.assessments[id].action == "DEFER" || screen.assessments[id].action == "REJECT")
    && (id in screen.outliers
        || exists c :: screen.assessments[id].confidence == Some(c) && c >= 0.8 && c >= screen.threshold)
  }

  method Filter(pool: seq<string>, screen: Screen)
    returns (retained: seq<string>, excluded: seq<string>, restored: set<string>)
    requires Distinct(pool)
    ensures restored <= ExcludedIds(pool, screen)
    ensures |restored| == RestoreCount(|ExcludedIds(pool, screen)|, |EligibleIds(pool, screen)|)
    ensures retained == Ids(Keep(Topics(pool), EligibleIds(pool, screen) + restored))
    ensures excluded == Ids(Keep(Topics(pool), ExcludedIds(pool, screen) - restored))
    ensures LeastCertainRestored(pool, screen, restored)
    ensures InPoolOrder(pool, retained) && InPoolOrder(pool, excluded)
    ensures forall i :: 0 <= i < |pool| ==>
              && (pool[i] in retained <==> !ScreenedOut(screen, pool[i]) || pool[i] in restored)
              && (pool[i] in excluded <==> ScreenedOut(screen, pool[i]) && pool[i] !in restored)
  {
    hide RestoredFirst, LeastCertainRestored, InPoolOrder, RestoredBefore, Doubt, ScreenedOut;
    var topics := Topics(pool);
    var eligible, dropped := Split(pool, screen);
    var out := ExcludedIds(pool, screen);
    KeepCounts(pool, out);
    KeepCounts(pool, EligibleIds(pool, screen));
    EveryTopicIsEitherWay(pool, screen);
    var restoreCount := RestoreCount(|dropped|, |eligible|);
    var key := (t: Topic) => Doubt(screen, t.id);
    var doubtful := SortedBy(dropped, key);
    SortKeepsElements(dropped, key);
    var chosen := doubtful[..restoreCount];
    restored := set t | t in chosen :: t.id;
    DoubtfulInOrder(pool, screen, dropped, doubtful);
    ChosenAreFirst(pool, screen, doubtful, restoreCount, restored);
    var together := eligible + Keep(dropped, restored);
    MergeByPlace(pool, screen, restored);
    retained := Ids(SortedBy(together, PlaceRank));
    KeepTwice(topics, out, restored);
    KeepTwice(topics, out, out - restored);
    excluded := Ids(Keep(dropped, out - restored));
    LeastDoubtedAreLeastCertain(pool, screen, restored);
    SelectionsShow(pool, screen, restored);
  }

  method Split(pool: seq<string>, screen: Screen) returns (eligible: seq<Topic>, dropped: seq<Topic>)
    ensures eligible == Keep(Topics(pool), EligibleIds(pool, screen))
    ensures dropped == Keep(Topics(pool), ExcludedIds(pool, screen))
  {
    ghost var topics := Topics(pool);
    eligible, dropped := [], [];
    var i := 0;
    while i < |pool|
      invariant 0 <= i <= |pool|
      invariant eligible == Keep(topics[..i], EligibleIds(pool, screen))
      invariant dropped == Keep(topics[..i], ExcludedIds(pool, screen))
    {
      assert topics[..i + 1][..i] == topics[..i];
      if screen.Excludes(pool[i]) {
        dropped := dropped + [Topic(pool[i], i)];
      } else {
        eligible := eligible + [Topic(pool[i], i)];
      }
      i := i + 1;
    }
    assert topics[..i] == topics;
  }

  // ----- helpers

  predicate ByPlace(topics: seq<Topic>) {
    forall i, j :: 0 <= i < j < |topics| ==> topics[i].place < topics[j].place
  }

  lemma {:induction false} KeepMembers(topics: seq<Topic>, wanted: set<string>)
    ensures forall t :: t in Keep(topics, wanted) <==> t in topics && t.id in wanted
  {
    if topics != [] {
      var n := |topics| - 1;
      KeepMembers(topics[..n], wanted);
      assert topics == topics[..n] + [topics[n]];
    }
  }

  lemma {:induction false} KeepOrders(topics: seq<Topic>, wanted: set<string>)
    requires ByPlace(topics)
    ensures ByPlace(Keep(topics, wanted))
  {
    if topics != [] {
      var n := |topics| - 1;
      KeepOrders(topics[..n], wanted);
      KeepMembers(topics[..n], wanted);
      var kept := Keep(topics[..n], wanted);
      forall i | 0 <= i < |kept| ensures kept[i].place < topics[n].place {
        assert kept[i] in topics[..n];
      }
    }
  }

  /** Keep takes the wanted topics, all of them and no others, and leaves them in order. */
  lemma KeepIsFilter(topics: seq<Topic>, wanted: set<string>)
    ensures forall t :: t in Keep(topics, wanted) <==> t in topics && t.id in wanted
    ensures ByPlace(topics) ==> ByPlace(Keep(topics, wanted))
  {
    KeepMembers(topics, wanted);
    if ByPlace(topics) {
      KeepOrders(topics, wanted);
    }
  }

  lemma {:induction false} KeepTwice(topics: seq<Topic>, outer: set<string>, inner: set<string>)
    requires inner <= outer
    ensures Keep(Keep(topics, outer), inner) == Keep(topics, inner)
  {
    if topics != [] {
      var n := |topics| - 1;
      KeepTwice(topics[..n], outer, inner);
      if topics[n].id in outer {
        assert Keep(topics, outer)[..|Keep(topics, outer)| - 1] == Keep(topics[..n], outer);
      }
    }
  }

  lemma KeepLast(pool: seq<string>, wanted: set<string>)
    requires Distinct(pool) && pool != []
    ensures Keep(Topics(pool), wanted)
         == Keep(Topics(Front(pool)), wanted - {pool[|pool| - 1]})
            + if pool[|pool| - 1] in wanted then [Topic(pool[|pool| - 1], |pool| - 1)] else []
  {
    var n := |pool| - 1;
    assert Topics(pool)[..n] == Topics(Front(pool));
    KeepIgnores(Topics(Front(pool)), wanted, pool[n]);
  }

  lemma RestIsInFront(pool: seq<string>, wanted: set<string>)
    requires Distinct(pool) && pool != [] && forall id :: id in wanted ==> id in pool
    ensures Distinct(Front(pool))
    ensures forall id :: id in wanted - {pool[|pool| - 1]} ==> id in Front(pool)
  {
    assert pool == Front(pool) + [pool[|pool| - 1]];
  }

  lemma OneFewer(ids: set<string>, id: string)
    ensures |ids| == |ids - {id}| + if id in ids then 1 else 0
  {
    assert ids == (ids - {id}) + if id in ids then {id} else {};
  }

  lemma {:induction false} KeepCounts(pool: seq<string>, wanted: set<string>)
    requires Distinct(pool) && forall id :: id in wanted ==> id in pool
    ensures |Keep(Topics(pool), wanted)| == |wanted|
  {
    if pool != [] {
      hide *;
      RestIsInFront(pool, wanted);
      KeepCounts(Front(pool), wanted - {pool[|pool| - 1]});
      KeepLast(pool, wanted);
      OneFewer(wanted, pool[|pool| - 1]);
    } else {
      assert wanted == {};
    }
  }

  lemma {:induction false} KeepIgnores(topics: seq<Topic>, wanted: set<string>, id: string)
    requires forall t :: t in topics ==> t.id != id
    ensures Keep(topics, wanted) == Keep(topics, wanted - {id})
  {
    if topics != [] {
      var n := |topics| - 1;
      assert topics == topics[..n] + [topics[n]];
      assert topics[n] in topics;
      KeepIgnores(topics[..n], wanted, id);
    }
  }

  lemma EveryTopicIsEitherWay(pool: seq<string>, screen: Screen)
    requires Distinct(pool)
    ensures EligibleIds(pool, screen) !! ExcludedIds(pool, screen)
    ensures |EligibleIds(pool, screen)| + |ExcludedIds(pool, screen)| == |pool|
  {
    var all := EligibleIds(pool, screen) + ExcludedIds(pool, screen);
    KeepCounts(pool, all);
    KeepAll(Topics(pool), all);
  }

  lemma {:induction false} KeepAll(topics: seq<Topic>, wanted: set<string>)
    requires forall t :: t in topics ==> t.id in wanted
    ensures Keep(topics, wanted) == topics
  {
    if topics != [] {
      var n := |topics| - 1;
      assert topics == topics[..n] + [topics[n]];
      assert topics[n] in topics;
      KeepAll(topics[..n], wanted);
    }
  }

  lemma TopicsAreByPlace(pool: seq<string>)
    ensures ByPlace(Topics(pool))
    ensures Distinct(pool) ==> forall a, b :: a in Topics(pool) && b in Topics(pool) && a.id == b.id ==> a == b
  {
  }

  lemma {:induction false} IdsOfDistinct(topics: seq<Topic>)
    requires forall i, j :: 0 <= i < j < |topics| ==> topics[i].id != topics[j].id
    ensures |set t | t in topics :: t.id| == |topics|
  {
    if topics != [] {
      var n := |topics| - 1;
      IdsOfDistinct(topics[..n]);
      var before := set t | t in topics[..n] :: t.id;
      var all := set t | t in topics :: t.id;
      LastIdIsNew(topics, before, all);
      OneFewer(all, topics[n].id);
    }
  }

  lemma LastIdIsNew(topics: seq<Topic>, before: set<string>, all: set<string>)
    requires forall i, j :: 0 <= i < j < |topics| ==> topics[i].id != topics[j].id
    requires topics != [] && before == (set t | t in topics[..|topics| - 1] :: t.id) && all == set t | t in topics :: t.id
    ensures topics[|topics| - 1].id in all && all - {topics[|topics| - 1].id} == before
  {
    var n := |topics| - 1;
    assert topics == topics[..n] + [topics[n]];
    assert topics[n] in topics;
    assert topics[n].id !in before;
    assert all == before + {topics[n].id};
  }

  lemma DoubtfulInOrder(pool: seq<string>, screen: Screen, dropped: seq<Topic>, doubtful: seq<Topic>)
    requires Distinct(pool) && dropped == Keep(Topics(pool), ExcludedIds(pool, screen))
    requires doubtful == SortedBy(dropped, (t: Topic) => Doubt(screen, t.id))
    ensures forall t :: t in doubtful <==> t in Topics(pool) && t.id in ExcludedIds(pool, screen)
    ensures forall i, j :: 0 <= i < j < |doubtful| ==>
              RestoredBefore(screen, doubtful[i], doubtful[j]) && doubtful[i].id != doubtful[j].id
  {
    var key := (t: Topic) => Doubt(screen, t.id);
    TopicsAreByPlace(pool);
    KeepIsFilter(Topics(pool), ExcludedIds(pool, screen));
    SortKeepsElements(dropped, key);
    SameMultisetSameMembers(doubtful, dropped);
    SortOrders(dropped, key, PlaceOf);
    forall i, j | 0 <= i < j < |doubtful|
      ensures RestoredBefore(screen, doubtful[i], doubtful[j]) && doubtful[i].id != doubtful[j].id
    {
      assert Before(doubtful[i], doubtful[j], key, PlaceOf);
      assert doubtful[i] in dropped && doubtful[j] in dropped;
    }
  }

  lemma ChosenAreFirst(
    pool: seq<string>, screen: Screen, doubtful: seq<Topic>, count: nat, restored: set<string>)
    requires forall t :: t in doubtful <==> t in Topics(pool) && t.id in ExcludedIds(pool, screen)
    requires forall i, j :: 0 <= i < j < |doubtful| ==>
               RestoredBefore(screen, doubtful[i], doubtful[j]) && doubtful[i].id != doubtful[j].id
    requires Distinct(pool) && count <= |doubtful|
    requires restored == set t | t in doubtful[..count] :: t.id
    ensures restored <= ExcludedIds(pool, screen) && |restored| == count
    ensures RestoredFirst(pool, screen, restored)
  {
    IdsOfDistinct(doubtful[..count]);
    forall t | t in doubtful[..count] ensures t in doubtful {
    }
    forall a, b | a in Topics(pool) && b in Topics(pool) && a.id in restored
                  && b.id in ExcludedIds(pool, screen) - restored
      ensures RestoredBefore(screen, a, b)
    {
      var t :| t in doubtful[..count] && t.id == a.id;
      assert t in doubtful;
      OneTopicPerId(pool, a, t);
      assert b in doubtful && b !in doubtful[..count];
      EarlierComesFirst(screen, doubtful, count, a, b);
    }
  }

  lemma OneTopicPerId(pool: seq<string>, a: Topic, b: Topic)
    requires Distinct(pool) && a in Topics(pool) && b in Topics(pool) && a.id == b.id
    ensures a == b
  {
  }

  lemma EarlierComesFirst(screen: Screen, doubtful: seq<Topic>, count: nat, a: Topic, b: Topic)
    requires forall i, j :: 0 <= i < j < |doubtful| ==> RestoredBefore(screen, doubtful[i], doubtful[j])
    requires count <= |doubtful| && a in doubtful[..count] && b in doubtful && b !in doubtful[..count]
    ensures RestoredBefore(screen, a, b)
  {
    var i :| 0 <= i < count && doubtful[..count][i] == a;
    assert doubtful == doubtful[..count] + doubtful[count..];
    var j :| 0 <= j < |doubtful[count..]| && doubtful[count..][j] == b;
    assert doubtful[i] == a && doubtful[count + j] == b;
  }

  lemma SameMultisetSameMembers(a: seq<Topic>, b: seq<Topic>)
    requires multiset(a) == multiset(b)
    ensures SameMembers(a, b)
  {
    assert forall t :: t in a <==> t in multiset(a);
    assert forall t :: t in b <==> t in multiset(b);
  }

  /** Two lists of the same topics, both by place, are the same list. */
  lemma OneOrderByPlace(a: seq<Topic>, b: seq<Topic>)
    requires ByPlace(a) && ByPlace(b) && SameMembers(a, b)
    ensures a == b
  {
    OneListing(a, b, (s: Topic, t: Topic) => s.place < t.place);
  }

  /** The two lists, one after the other, are in increasing order once restored topics count as later. */
  lemma JoinedByPosition(pool: seq<string>, first: seq<Topic>, second: seq<Topic>, restored: set<string>)
    requires ByPlace(first) && ByPlace(second)
    requires forall t :: t in first ==> t in Topics(pool) && t.id !in restored
    requires forall t :: t in second ==> t in Topics(pool) && t.id in restored
    ensures ByPosition(first + second, (t: Topic) => if t.id in restored then t.place + |pool| else t.place)
  {
    var together := first + second;
    forall i, j | 0 <= i < j < |together|
      ensures (if together[i].id in restored then together[i].place + |pool| else together[i].place)
            < (if together[j].id in restored then together[j].place + |pool| else together[j].place)
    {
      if j < |first| {
        assert together[i] == first[i] && together[j] == first[j];
        assert together[i] in first && together[j] in first;
      } else if i < |first| {
        assert together[i] in first && together[j] == second[j - |first|] && together[j] in second;
        assert together[i].place < |pool|;
      } else {
        assert together[i] == second[i - |first|] && together[j] == second[j - |first|];
        assert together[i] in second && together[j] in second;
      }
    }
  }

  lemma SortedByPlace(pool: seq<string>, together: seq<Topic>, position: Topic -> int)
    requires ByPosition(together, position)
    requires forall a, b :: a in together && b in together && a.place == b.place ==> a == b
    ensures ByPlace(SortedBy(together, PlaceRank))
    ensures forall t :: t in SortedBy(together, PlaceRank) <==> t in together
  {
    var sorted := SortedBy(together, PlaceRank);
    SortOrders(together, PlaceRank, position);
    SortKeepsElements(together, PlaceRank);
    SameMultisetSameMembers(sorted, together);
    forall i, j | 0 <= i < j < |sorted| ensures sorted[i].place < sorted[j].place {
      assert Before(sorted[i], sorted[j], PlaceRank, position);
      assert sorted[i] in together && sorted[j] in together;
    }
  }

  /** Sorting the eligible topics and the restored ones by place interleaves them as in the pool. */
  lemma MergeByPlace(pool: seq<string>, screen: Screen, restored: set<string>)
    requires Distinct(pool) && restored <= ExcludedIds(pool, screen)
    ensures SortedBy(Keep(Topics(pool), EligibleIds(pool, screen))
                     + Keep(Keep(Topics(pool), ExcludedIds(pool, screen)), restored), PlaceRank)
         == Keep(Topics(pool), EligibleIds(pool, screen) + restored)
  {
    var topics, eligible := Topics(pool), EligibleIds(pool, screen);
    KeepTwice(topics, ExcludedIds(pool, screen), restored);
    var first, second := Keep(topics, eligible), Keep(topics, restored);
    TopicsAreByPlace(pool);
    KeepIsFilter(topics, eligible);
    KeepIsFilter(topics, restored);
    KeepIsFilter(topics, eligible + restored);
    JoinedByPosition(pool, first, second, restored);
    var position := (t: Topic) => if t.id in restored then t.place + |pool| else t.place;
    assert forall t :: t in first + second <==> t in first || t in second;
    assert forall a, b :: a in topics && b in topics && a.place == b.place ==> a == b;
    SortedByPlace(pool, first + second, position);
    OneOrderByPlace(SortedBy(first + second, PlaceRank), Keep(topics, eligible + restored));
  }

  // ----- what the filter guarantees

  /** Retained and excluded divide the pool. */
  lemma FilterDividesPool(pool: seq<string>, screen: Screen, restored: set<string>, id: string)
    requires Distinct(pool) && restored <= ExcludedIds(pool, screen) && id in pool
    ensures var kept := Ids(Keep(Topics(pool), EligibleIds(pool, screen) + restored));
            var gone := Ids(Keep(Topics(pool), ExcludedIds(pool, screen) - restored));
            && |kept| + |gone| == |pool|
            && (id in kept <==> id !in gone)
            && (id in kept <==> !ScreenedOut(screen, id) || id in restored)
  {
    ScreenedOutExactly(screen, id);
    DividedCounts(pool, screen, restored);
    IdsOfKept(pool, EligibleIds(pool, screen) + restored, id);
    IdsOfKept(pool, ExcludedIds(pool, screen) - restored, id);
  }

  lemma DividedCounts(pool: seq<string>, screen: Screen, restored: set<string>)
    requires Distinct(pool) && restored <= ExcludedIds(pool, screen)
    ensures |Keep(Topics(pool), EligibleIds(pool, screen) + restored)|
            + |Keep(Topics(pool), ExcludedIds(pool, screen) - restored)| == |pool|
  {
    var eligible, out := EligibleIds(pool, screen), ExcludedIds(pool, screen);
    EveryTopicIsEitherWay(pool, screen);
    KeepCounts(pool, eligible + restored);
    KeepCounts(pool, out - restored);
    assert |eligible + restored| == |eligible| + |restored|;
    assert |out - restored| == |out| - |restored|;
  }

  /** The rule of the loop is the rule of the screen, and the two selections follow it in pool order. */
  lemma SelectionsShow(pool: seq<string>, screen: Screen, restored: set<string>)
    requires Distinct(pool) && restored <= ExcludedIds(pool, screen)
    ensures var kept := Ids(Keep(Topics(pool), EligibleIds(pool, screen) + restored));
            var gone := Ids(Keep(Topics(pool), ExcludedIds(pool, screen) - restored));
            && InPoolOrder(pool, kept) && InPoolOrder(pool, gone)
            && forall i :: 0 <= i < |pool| ==>
                 && (pool[i] in kept <==> !ScreenedOut(screen, pool[i]) || pool[i] in restored)
                 && (pool[i] in gone <==> ScreenedOut(screen, pool[i]) && pool[i] !in restored)
  {
    hide InPoolOrder, Keep, Ids, ScreenedOut;
    KeptInPoolOrder(pool, EligibleIds(pool, screen) + restored);
    KeptInPoolOrder(pool, ExcludedIds(pool, screen) - restored);
    forall i | 0 <= i < |pool|
      ensures var kept := Ids(Keep(Topics(pool), EligibleIds(pool, screen) + restored));
              pool[i] in kept <==> !ScreenedOut(screen, pool[i]) || pool[i] in restored
      ensures var gone := Ids(Keep(Topics(pool), ExcludedIds(pool, screen) - restored));
              pool[i] in gone <==> ScreenedOut(screen, pool[i]) && pool[i] !in restored
    {
      ScreenedOutExactly(screen, pool[i]);
      IdsOfKept(pool, EligibleIds(pool, screen) + restored, pool[i]);
      IdsOfKept(pool, ExcludedIds(pool, screen) - restored, pool[i]);
    }
  }

  lemma ScreenedOutExactly(screen: Screen, id: string)
    ensures screen.Excludes(id) <==> ScreenedOut(screen, id)
  {
    if id in screen.assessments && screen.assessments[id].confidence.Some? {
      var c := screen.assessments[id].confidence.value;
      assert screen.assessments[id].confidence == Some(c);
    }
  }

  lemma KeptInPoolOrder(pool: seq<string>, wanted: set<string>)
    ensures InPoolOrder(pool, Ids(Keep(Topics(pool), wanted)))
  {
    var kept := Keep(Topics(pool), wanted);
    TopicsAreByPlace(pool);
    KeepIsFilter(Topics(pool), wanted);
    forall i, j | 0 <= i < j < |kept|
      ensures exists m, n :: 0 <= m < n < |pool| && pool[m] == Ids(kept)[i] && pool[n] == Ids(kept)[j]
    {
      assert kept[i] in kept && kept[j] in kept;
      assert kept[i].place < kept[j].place;
      assert pool[kept[i].place] == Ids(kept)[i] && pool[kept[j].place] == Ids(kept)[j];
    }
  }

  lemma LeastDoubtedAreLeastCertain(pool: seq<string>, screen: Screen, restored: set<string>)
    requires RestoredFirst(pool, screen, restored)
    ensures LeastCertainRestored(pool, screen, restored)
  {
    forall i, j |
      && 0 <= i < |pool| && 0 <= j < |pool|
      && pool[i] in restored && pool[j] in ExcludedIds(pool, screen) - restored
      && pool[i] in screen.assessments && pool[j] in screen.assessments
      ensures RestoredBefore(screen, Topic(pool[i], i), Topic(pool[j], j))
    {
      assert Topics(pool)[i] == Topic(pool[i], i) && Topics(pool)[j] == Topic(pool[j], j);
    }
  }

  lemma IdsOfKept(pool: seq<string>, wanted: set<string>, id: string)
    requires id in pool
    ensures id in Ids(Keep(Topics(pool), wanted)) <==> id in wanted
  {
    var kept := Keep(Topics(pool), wanted);
    KeepIsFilter(Topics(pool), wanted);
    var i :| 0 <= i < |pool| && pool[i] == id;
    assert Topics(pool)[i] == Topic(id, i);
    if id in wanted {
      assert Topic(id, i) in kept;
      var k :| 0 <= k < |kept| && kept[k] == Topic(id, i);
      assert Ids(kept)[k] == id;
    }
    if id in Ids(kept) {
      var k :| 0 <= k < |kept| && Ids(kept)[k] == id;
      assert kept[k] in kept;
    }
  }

  /** A pool that is not empty keeps every eligible topic and at least the square root of its size,
      and never restores more than that floor needs. */
  lemma FilterReachesFloorExactly(pool: seq<string>, screen: Screen, restored: set<string>)
    requires Distinct(pool) && pool != [] && restored <= ExcludedIds(pool, screen)
    requires |restored| == RestoreCount(|ExcludedIds(pool, screen)|, |EligibleIds(pool, screen)|)
    ensures |Ids(Keep(Topics(pool), EligibleIds(pool, screen) + restored))|
         == Max(|EligibleIds(pool, screen)|, CeilSqrt(|pool|))
  {
    var wanted := EligibleIds(pool, screen) + restored;
    KeepCounts(pool, wanted);
    EveryTopicIsEitherWay(pool, screen);
    assert |wanted| == |EligibleIds(pool, screen)| + |restored|;
    RestoringReachesFloor(|ExcludedIds(pool, screen)|, |EligibleIds(pool, screen)|);
  }

  lemma RestoringReachesFloor(excluded: nat, eligible: nat)
    requires excluded + eligible > 0
    ensures eligible + RestoreCount(excluded, eligible) == Max(eligible, CeilSqrt(excluded + eligible))
  {
    RootIsWithin(excluded + eligible);
  }

  function Max(a: nat, b: nat): nat { if a < b then b else a }

  lemma RootIsWithin(n: nat)
    requires n > 0
    ensures 1 <= CeilSqrt(n) <= n && Floor(n) == CeilSqrt(n)
  {
    assert n * n >= n;
  }
}
