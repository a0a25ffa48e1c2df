/** The two-level no-regression gate: the candidate's mean, and every baseline item. */
module NoRegression {

  datatype Finding =
    | AggregateBelowBaseline(candidateMean: real, baselineMean: real)
    | Regression(itemId: string, baselineScore: real, candidateScore: real, delta: real)

  /** Scores by item, in insertion order; no item appears twice. */
  type Scores = seq<(string, real)>

  predicate Keyed(s: Scores) {
    forall i, j :: 0 <= i < j < |s| ==> s[i].0 != s[j].0
  }

  function Sum(s: Scores): real {
    if s == [] then 0.0 else s[0].1 + Sum(s[1..])
  }

  /** The mean, and 0.0 for no scores at all. */
  function Mean(s: Scores): real {
    if s == [] then 0.0 else Sum(s) / |s| as real
  }

  predicate Has(s: Scores, item: string) {
    exists i :: 0 <= i < |s| && s[i].0 == item
  }

  /** The score of an item, and 0.0 for an item that is not there. */
  function ScoreOf(s: Scores, item: string): real {
    if s == [] then 0.0 else if s[0].0 == item then s[0].1 else ScoreOf(s[1..], item)
  }

  lemma {:induction false} ScoreAt(s: Scores, i: nat)
    requires Keyed(s) && i < |s|
    ensures ScoreOf(s, s[i].0) == s[i].1
  {
    if i > 0 {
      ScoreAt(s[1..], i - 1);
    }
  }

  lemma {:induction false} ScoreMissing(s: Scores, item: string)
    requires !Has(s, item)
    ensures ScoreOf(s, item) == 0.0
  {
    if s != [] {
      assert s[0].0 != item;
      forall i | 0 <= i < |s[1..]| ensures s[1..][i].0 != item {
        assert s[1..][i] == s[i + 1];
      }
      ScoreMissing(s[1..], item);
    }
  }

  /** The score found for an item: its own where it has one, else zero. */
  ghost predicate Scored(s: Scores, item: string, score: real) {
    || (exists j :: 0 <= j < |s| && s[j].0 == item && s[j].1 == score)
    || ((forall j :: 0 <= j < |s| ==> s[j].0 != item) && score == 0.0)
  }

  lemma ScoreIs(s: Scores, item: string, score: real)
    requires Keyed(s)
    ensures Scored(s, item, score) <==> score == ScoreOf(s, item)
  {
    if Has(s, item) {
      var i :| 0 <= i < |s| && s[i].0 == item;
      ScoreAt(s, i);
      assert forall j :: 0 <= j < |s| && s[j].0 == item ==> j == i;
    } else {
      ScoreMissing(s, item);
    }
  }

  /** The sum of two parts is the sum of the whole, and one item counts with its score. */
  lemma {:induction false} SumSplits(s: Scores, k: nat)
    requires k <= |s|
    ensures Sum(s) == Sum(s[..k]) + Sum(s[k..])
    ensures forall item, x :: Sum([(item, x)]) == x
  {
    if k > 0 {
      SumSplits(s[1..], k - 1);
      assert s[1..][..k - 1] == s[..k][1..] && s[1..][k - 1..] == s[k..];
    } else {
      assert s[0..] == s;
    }
    forall item, x ensures Sum([(item, x)]) == x {
      assert [(item, x)][1..] == [];
    }
  }

  /** A mean is the sum shared out evenly, and zero without any scores. */
  lemma MeanIs(s: Scores)
    ensures Mean(s) * |s| as real == Sum(s)
    ensures s == [] ==> Mean(s) == 0.0
  {
    if s != [] {
      SharedOut(Sum(s), |s| as real);
    }
    hide Sum;
  }

  lemma SharedOut(x: real, n: real)
    requires n > 0.0
    ensures x / n * n == x
  {
  }

  // ---- The gate ------------------------------------------------------------------------------

  predicate Offends(candidate: Scores, item: (string, real), threshold: real) {
    item.1 - ScoreOf(candidate, item.0) > threshold
  }

  /** The gate accepts when the mean has not dropped and no baseline item dropped beyond the threshold. */
  predicate Accepts(candidate: Scores, baseline: Scores, threshold: real) {
    && Mean(candidate) >= Mean(baseline)
    && forall i :: 0 <= i < |baseline| ==> !Offends(candidate, baseline[i], threshold)
  }

  function Report(candidate: Scores, item: (string, real)): Finding {
    var score := ScoreOf(candidate, item.0);
    Regression(item.0, item.1, score, item.1 - score)
  }

  /** No item the candidate has lost more than the threshold, and no item it lacks scored above it. */
  ghost predicate NoneDropped(candidate: Scores, baseline: Scores, threshold: real) {
    && (forall i, j :: 0 <= i < |baseline| && 0 <= j < |candidate| && candidate[j].0 == baseline[i].0 ==>
          baseline[i].1 - candidate[j].1 <= threshold)
    && (forall i :: 0 <= i < |baseline| && (forall j :: 0 <= j < |candidate| ==> candidate[j].0 != baseline[i].0) ==>
          baseline[i].1 <= threshold)
  }

  /** The report lists, in baseline order, one finding for each item that lost more than the threshold. */
  ghost predicate Findings(report: seq<Finding>, candidate: Scores, baseline: Scores, threshold: real) {
    exists at: seq<nat> :: FindingsAt(report, at, candidate, baseline, threshold)
  }

  ghost predicate FindingsAt(report: seq<Finding>, at: seq<nat>, candidate: Scores, baseline: Scores, threshold: real) {
    && |at| == |report|
    && (forall k :: 0 <= k < |at| ==>
          && at[k] < |baseline| && report[k].Regression?
          && report[k].itemId == baseline[at[k]].0 && report[k].baselineScore == baseline[at[k]].1
          && Scored(candidate, baseline[at[k]].0, report[k].candidateScore)
          && report[k].delta == baseline[at[k]].1 - report[k].candidateScore > threshold)
    && (forall i, j :: 0 <= i < j < |at| ==> at[i] < at[j])
    && (forall i, score :: 0 <= i < |baseline| && i !in at && Scored(candidate, baseline[i].0, score) ==>
          baseline[i].1 - score <= threshold)
  }

  lemma AcceptsIff(candidate: Scores, baseline: Scores, threshold: real)
    requires Keyed(candidate)
    ensures Accepts(candidate, baseline, threshold)
       <==> Mean(candidate) >= Mean(baseline) && NoneDropped(candidate, baseline, threshold)
  {
    hide ScoreOf;
    hide Mean;
    forall i | 0 <= i < |baseline|
      ensures forall j :: 0 <= j < |candidate| && candidate[j].0 == baseline[i].0 ==>
                ScoreOf(candidate, baseline[i].0) == candidate[j].1
      ensures (forall j :: 0 <= j < |candidate| ==> candidate[j].0 != baseline[i].0) ==>
                ScoreOf(candidate, baseline[i].0) == 0.0
    {
      ScoreIs(candidate, baseline[i].0, ScoreOf(candidate, baseline[i].0));
    }
  }

  lemma ReportIs(report: seq<Finding>, at: seq<nat>, candidate: Scores, baseline: Scores, threshold: real)
    requires Keyed(candidate) && Reports(report, at, candidate, baseline, threshold, |baseline|)
    ensures Findings(report, candidate, baseline, threshold)
  {
    hide ScoreOf;
    hide Scored;
    forall i, score | 0 <= i < |baseline| && Scored(candidate, baseline[i].0, score)
      ensures score == ScoreOf(candidate, baseline[i].0)
    {
      ScoreIs(candidate, baseline[i].0, score);
    }
    forall i | 0 <= i < |baseline| ensures Scored(candidate, baseline[i].0, ScoreOf(candidate, baseline[i].0)) {
      ScoreIs(candidate, baseline[i].0, ScoreOf(candidate, baseline[i].0));
    }
    assert FindingsAt(report, at, candidate, baseline, threshold);
  }

  /** For a non-empty baseline: accepts exactly when the mean holds and no item dropped; past the mean check
      the report lists exactly the items that did. */
  method PassesNoRegression(candidate: Scores, baseline: Scores, threshold: real)
    returns (ok: bool, report: seq<Finding>)
    requires Keyed(candidate) && Keyed(baseline)
    ensures baseline == [] ==> ok && report == []
    ensures baseline != [] ==>
              (ok <==> Mean(candidate) >= Mean(baseline) && NoneDropped(candidate, baseline, threshold))
    ensures baseline != [] && Mean(candidate) >= Mean(baseline) ==>
              Findings(report, candidate, baseline, threshold)
    ensures baseline != [] && Mean(candidate) < Mean(baseline) ==>
              report == [AggregateBelowBaseline(Mean(candidate), Mean(baseline))]
  {
    hide Mean;
    hide ScoreOf;
    hide NoneDropped;
    hide Findings;
    hide Reports;
    if baseline == [] {
      return true, [];
    }
    AcceptsIff(candidate, baseline, threshold);
    var candidateMean, baselineMean := Mean(candidate), Mean(baseline);
    if candidateMean < baselineMean {
      return false, [AggregateBelowBaseline(candidateMean, baselineMean)];
    }
    report := [];
    ghost var at: seq<nat> := [];
    ReportsNone(candidate, baseline, threshold);
    for i := 0 to |baseline|
      invariant Reports(report, at, candidate, baseline, threshold, i)
    {
      var (itemId, baselineScore) := baseline[i];
      var candidateScore := ScoreOf(candidate, itemId);
      var delta := baselineScore - candidateScore;
      ReportsStep(report, at, candidate, baseline, threshold, i);
      if delta > threshold {
        report, at := report + [Regression(itemId, baselineScore, candidateScore, delta)], at + [i];
      }
    }
    ReportsAll(report, at, candidate, baseline, threshold);
    ReportIs(report, at, candidate, baseline, threshold);
    ok := report == [];
  }

  lemma ReportsNone(candidate: Scores, baseline: Scores, threshold: real)
    ensures Reports([], [], candidate, baseline, threshold, 0)
  {
  }

  lemma ReportsStep(report: seq<Finding>, at: seq<nat>, candidate: Scores, baseline: Scores, threshold: real, i: nat)
    requires Reports(report, at, candidate, baseline, threshold, i) && i < |baseline|
    ensures if Offends(candidate, baseline[i], threshold)
            then Reports(report + [Report(candidate, baseline[i])], at + [i], candidate, baseline, threshold, i + 1)
            else Reports(report, at, candidate, baseline, threshold, i + 1)
  {
    hide Offends;
    hide Report;
  }

  lemma ReportsAll(report: seq<Finding>, at: seq<nat>, candidate: Scores, baseline: Scores, threshold: real)
    requires Reports(report, at, candidate, baseline, threshold, |baseline|)
    ensures report == [] <==> forall i :: 0 <= i < |baseline| ==> !Offends(candidate, baseline[i], threshold)
  {
    hide Offends;
    if report != [] {
      assert Offends(candidate, baseline[at[0]], threshold);
    }
  }

  /** `at` lists, in order, the offending ones of the first n baseline items, and the report is about
      just those. */
  ghost predicate Reports(report: seq<Finding>, at: seq<nat>, candidate: Scores, baseline: Scores, threshold: real,
                          n: nat)
  {
    && |at| == |report| && n <= |baseline|
    && (forall k :: 0 <= k < |at| ==>
          && at[k] < n && Offends(candidate, baseline[at[k]], threshold)
          && report[k] == Report(candidate, baseline[at[k]]))
    && (forall i, j :: 0 <= i < j < |at| ==> at[i] < at[j])
    && (forall i: nat :: i < n && Offends(candidate, baseline[i], threshold) ==> i in at)
  }

  // ---- Raising scores ------------------------------------------------------------------------

  predicate Raised(s: Scores, s': Scores) {
    |s'| == |s| && forall i :: 0 <= i < |s| ==> s'[i].0 == s[i].0 && s'[i].1 >= s[i].1
  }

  lemma {:induction false} RaisedScores(s: Scores, s': Scores, item: string)
    requires Raised(s, s')
    ensures ScoreOf(s', item) >= ScoreOf(s, item) && Sum(s') >= Sum(s)
  {
    if s != [] {
      assert Raised(s[1..], s'[1..]);
      RaisedScores(s[1..], s'[1..], item);
    }
  }

  lemma RaisedMean(s: Scores, s': Scores)
    requires Raised(s, s')
    ensures Mean(s') >= Mean(s)
  {
    if s != [] {
      RaisedScores(s, s', "");
      Quotient(Sum(s), Sum(s'), |s| as real);
    }
  }

  lemma Quotient(x: real, y: real, n: real)
    requires x <= y && n > 0.0
    ensures x / n <= y / n
  {
  }

  /** Raising candidate scores never turns acceptance into rejection. */
  lemma RaisingKeepsAcceptance(candidate: Scores, better: Scores, baseline: Scores, threshold: real)
    requires Raised(candidate, better) && Accepts(candidate, baseline, threshold)
    ensures Accepts(better, baseline, threshold)
  {
    RaisedMean(candidate, better);
    forall i | 0 <= i < |baseline| ensures !Offends(better, baseline[i], threshold) {
      RaisedScores(candidate, better, baseline[i].0);
      assert !Offends(candidate, baseline[i], threshold);
    }
  }

  // ---- Equal key sets ------------------------------------------------------------------------

  /** The candidate scores of the baseline's items, summed in baseline order. */
  function Aligned(candidate: Scores, baseline: Scores): real {
    if baseline == [] then 0.0 else ScoreOf(candidate, baseline[0].0) + Aligned(candidate, baseline[1..])
  }

  function Drops(candidate: Scores, baseline: Scores): real {
    if baseline == [] then 0.0
    else
      var d := baseline[0].1 - ScoreOf(candidate, baseline[0].0);
      (if d > 0.0 then d else 0.0) + Drops(candidate, baseline[1..])
  }

  function Gains(candidate: Scores, baseline: Scores): real {
    if baseline == [] then 0.0
    else
      var d := ScoreOf(candidate, baseline[0].0) - baseline[0].1;
      (if d > 0.0 then d else 0.0) + Gains(candidate, baseline[1..])
  }

  predicate SameItems(a: Scores, b: Scores) {
    (forall i :: 0 <= i < |a| ==> Has(b, a[i].0)) && (forall i :: 0 <= i < |b| ==> Has(a, b[i].0))
  }

  function Without(s: Scores, k: nat): Scores
    requires k < |s|
  {
    s[..k] + s[k + 1..]
  }

  lemma {:induction false} SumWithout(s: Scores, k: nat)
    requires k < |s|
    ensures Sum(Without(s, k)) == Sum(s) - s[k].1
  {
    if k > 0 {
      SumWithout(s[1..], k - 1);
      assert Without(s, k)[1..] == Without(s[1..], k - 1);
    } else {
      assert Without(s, 0) == s[1..];
    }
  }

  lemma {:induction false} ScoreWithout(s: Scores, k: nat, item: string)
    requires Keyed(s) && k < |s| && item != s[k].0
    ensures ScoreOf(Without(s, k), item) == ScoreOf(s, item)
  {
    if k > 0 {
      ScoreWithout(s[1..], k - 1, item);
      assert Without(s, k)[1..] == Without(s[1..], k - 1);
    } else {
      assert Without(s, 0) == s[1..];
    }
  }

  lemma {:induction false} AlignedWithout(candidate: Scores, k: nat, baseline: Scores)
    requires Keyed(candidate) && k < |candidate|
    requires forall i :: 0 <= i < |baseline| ==> baseline[i].0 != candidate[k].0
    ensures Aligned(Without(candidate, k), baseline) == Aligned(candidate, baseline)
  {
    if baseline != [] {
      ScoreWithout(candidate, k, baseline[0].0);
      AlignedWithout(candidate, k, baseline[1..]);
    }
  }

  lemma SameHasFirst(candidate: Scores, baseline: Scores)
    requires SameItems(candidate, baseline) && candidate != []
    ensures baseline != []
  {
    assert Has(candidate, candidate[0].0);
  }

  lemma {:induction false} AlignedIsSum(candidate: Scores, baseline: Scores)
    requires Keyed(candidate) && Keyed(baseline) && SameItems(candidate, baseline)
    ensures Aligned(candidate, baseline) == Sum(candidate) && |candidate| == |baseline|
    decreases |baseline|
  {
    if candidate != [] {
      SameHasFirst(candidate, baseline);
    }
    if baseline != [] {
      assert Has(candidate, baseline[0].0);
      var k :| 0 <= k < |candidate| && candidate[k].0 == baseline[0].0;
      var rest := Without(candidate, k);
      RestSame(candidate, baseline, k);
      AlignedIsSum(rest, baseline[1..]);
      AlignedWithout(candidate, k, baseline[1..]);
      SumWithout(candidate, k);
      ScoreAt(candidate, k);
    }
  }

  lemma RestSame(candidate: Scores, baseline: Scores, k: nat)
    requires Keyed(candidate) && Keyed(baseline) && SameItems(candidate, baseline)
    requires baseline != [] && k < |candidate| && candidate[k].0 == baseline[0].0
    ensures Keyed(Without(candidate, k)) && Keyed(baseline[1..]) && SameItems(Without(candidate, k), baseline[1..])
  {
    var rest, tail := Without(candidate, k), baseline[1..];
    forall i | 0 <= i < |rest| ensures Has(tail, rest[i].0) {
      var i' := if i < k then i else i + 1;
      assert rest[i] == candidate[i'] && Has(baseline, candidate[i'].0);
      var j :| 0 <= j < |baseline| && baseline[j].0 == candidate[i'].0;
      assert tail[j - 1] == baseline[j];
    }
    forall j | 0 <= j < |tail| ensures Has(rest, tail[j].0) {
      assert tail[j] == baseline[j + 1] && Has(candidate, baseline[j + 1].0);
      var i :| 0 <= i < |candidate| && candidate[i].0 == baseline[j + 1].0;
      assert rest[if i < k then i else i - 1] == candidate[i];
    }
  }

  lemma {:induction false} GainsLessDrops(candidate: Scores, baseline: Scores)
    ensures Gains(candidate, baseline) - Drops(candidate, baseline) == Aligned(candidate, baseline) - Sum(baseline)
  {
    if baseline != [] {
      GainsLessDrops(candidate, baseline[1..]);
    }
  }

  lemma Product(x: real, y: real, n: real)
    requires n > 0.0 && x / n <= y / n
    ensures x <= y
  {
  }

  /** Over equal key sets, acceptance means the total of the drops is at most the total of the gains. */
  lemma DropsWithinGains(candidate: Scores, baseline: Scores, threshold: real)
    requires Keyed(candidate) && Keyed(baseline) && SameItems(candidate, baseline)
    requires Accepts(candidate, baseline, threshold)
    ensures Drops(candidate, baseline) <= Gains(candidate, baseline)
  {
    AlignedIsSum(candidate, baseline);
    GainsLessDrops(candidate, baseline);
    if baseline != [] {
      Product(Sum(baseline), Sum(candidate), |baseline| as real);
    }
  }

  // ---- Dropped items -------------------------------------------------------------------------

  /** A baseline item missing from the candidate offends exactly when its baseline score alone exceeds
      the threshold. */
  lemma DroppedOffendsIff(candidate: Scores, item: (string, real), threshold: real)
    requires !Has(candidate, item.0)
    ensures Offends(candidate, item, threshold) <==> item.1 > threshold
  {
    ScoreMissing(candidate, item.0);
  }

  /** Every baseline item but one is within the threshold. */
  predicate OthersHold(candidate: Scores, baseline: Scores, item: string, threshold: real) {
    forall i :: 0 <= i < |baseline| && baseline[i].0 != item ==> !Offends(candidate, baseline[i], threshold)
  }

  /** Dropping an item with a non-negative score turns rejection into acceptance exactly when its
      baseline score is within the threshold, the others hold, and it alone pulled the mean below. */
  lemma DroppingHelpsIff(candidate: Scores, k: nat, baseline: Scores, threshold: real)
    requires Keyed(candidate) && Keyed(baseline) && k < |candidate| && candidate[k].1 >= 0.0
    ensures !Accepts(candidate, baseline, threshold) && Accepts(Without(candidate, k), baseline, threshold)
       <==> && Mean(candidate) < Mean(baseline) <= Mean(Without(candidate, k))
            && OthersHold(candidate, baseline, candidate[k].0, threshold)
            && (forall i :: 0 <= i < |baseline| && baseline[i].0 == candidate[k].0 ==> baseline[i].1 <= threshold)
  {
    var fewer, item := Without(candidate, k), candidate[k].0;
    forall i | 0 <= i < |fewer| ensures fewer[i].0 != item {
      assert fewer[i] == candidate[if i < k then i else i + 1];
    }
    ScoreMissing(fewer, item);
    ScoreAt(candidate, k);
    forall i | 0 <= i < |baseline|
      ensures baseline[i].0 != item ==>
                (Offends(fewer, baseline[i], threshold) <==> Offends(candidate, baseline[i], threshold))
      ensures baseline[i].0 == item ==> (Offends(fewer, baseline[i], threshold) <==> baseline[i].1 > threshold)
      ensures baseline[i].0 == item && baseline[i].1 <= threshold ==> !Offends(candidate, baseline[i], threshold)
    {
      if baseline[i].0 != item {
        ScoreWithout(candidate, k, baseline[i].0);
      }
    }
  }

  /** Such a drop exists, so a dropped item is not always the worst regression. */
  lemma DroppingCanHelp() returns (candidate: Scores, baseline: Scores, threshold: real)
    ensures Keyed(candidate) && Keyed(baseline) && SameItems(candidate, baseline)
    ensures !Accepts(candidate, baseline, threshold)
    ensures |candidate| == 2 && Accepts(Without(candidate, 1), baseline, threshold)
  {
    candidate, baseline, threshold := [("a", 0.5), ("b", 0.0)], [("a", 0.5), ("b", 0.1)], 0.1;
    assert Has(candidate, "a") && Has(candidate, "b") && Has(baseline, "a") && Has(baseline, "b") by {
      assert candidate[0].0 == "a" && candidate[1].0 == "b" && baseline[0].0 == "a" && baseline[1].0 == "b";
    }
    assert candidate[1..] == [("b", 0.0)] && baseline[1..] == [("b", 0.1)];
    assert Sum(candidate) == 0.5 && Sum(baseline) == 0.6;
    assert Without(candidate, 1) == [("a", 0.5)];
    assert Mean(Without(candidate, 1)) == 0.5;
    DroppingHelpsIff(candidate, 1, baseline, threshold);
  }
}
