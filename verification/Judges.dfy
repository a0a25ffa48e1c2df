/** The judge as a statistical gate: order-swapped verdicts, calibration, and a finite-sample test with
    a Type-I guarantee over every sample size and every true win rate at or below the null. */
module Judges {
  import opened Binomial

  datatype Result<+T> = Ok(value: T) | ValueError

  datatype JudgeConfig = JudgeConfig(
    alpha: real, nullWinRate: real, minCalibrationN: int, closeMargin: real, minTpr: real, maxFpr: real)

  // ---- The exact tail and the gate -----------------------------------------------------------

  predicate TailDomain(wins: int, n: int, p: real) {
    n >= 0 && 0.0 <= p <= 1.0 && wins >= 0
  }

  /** The loop sum is the probability of at least `wins` wins in n trials; the two shortcuts and the
      final clamp never change it. */
  method BinomialUpperTail(wins: int, n: int, p: real) returns (tail: Result<real>)
    ensures tail.Ok? <==> n >= 0 && 0.0 <= p <= 1.0 && wins >= 0
    ensures tail.Ok? ==> tail.value == AtLeast(n, wins, p)
  {
    if n < 0 || !(0.0 <= p <= 1.0) {
      return ValueError;
    }
    if wins < 0 {
      return ValueError;
    }
    if wins <= 0 {
      return Ok(1.0);
    }
    if wins > n {
      BeyondReach(n, wins, p);
      return Ok(0.0);
    }
    var sum, k := 0.0, wins;
    assert sum + TermsFrom(k, n, p) == TermsFrom(wins, n, p);
    while k < n + 1
      invariant wins <= k <= n + 1
      invariant sum + TermsFrom(k, n, p) == TermsFrom(wins, n, p)
    {
      hide Term;
      sum := sum + TermOf(n, k, p);
      k := k + 1;
    }
    SumIsAtLeast(wins, n, p);
    AtLeastBounds(n, wins, p);
    tail := Ok(if sum < 1.0 then sum else 1.0);
  }

  /** The summand of the loop. */
  function TermOf(n: nat, k: nat, p: real): (term: real)
    requires k <= n
    ensures term == Term(n, k, p)
  {
    Choose(n, k) as real * Pow(p, k) * Pow(1.0 - p, n - k)
  }

  /** Whether the gate accepts `wins` wins out of n. */
  function Accepts(wins: int, n: int, config: JudgeConfig): Result<bool> {
    if n <= 0 then Ok(false)
    else if !TailDomain(wins, n, config.nullWinRate) then ValueError
    else Ok(AtLeast(n, wins, config.nullWinRate) <= config.alpha)
  }

  method PassesTypeI(wins: int, n: int, config: JudgeConfig) returns (passed: Result<bool>)
    ensures passed == Accepts(wins, n, config)
    ensures n <= 0 ==> passed == Ok(false)
    ensures n > 0 ==> (passed.Ok? <==> 0.0 <= config.nullWinRate <= 1.0 && wins >= 0)
    ensures n > 0 && passed.Ok? ==> (passed.value <==> AtLeast(n, wins, config.nullWinRate) <= config.alpha)
  {
    if n <= 0 {
      return Ok(false);
    }
    var tail := BinomialUpperTail(wins, n, config.nullWinRate);
    passed := if tail.Ok? then Ok(tail.value <= config.alpha) else ValueError;
  }

  // ---- The Type-I guarantee ------------------------------------------------------------------

  /** More wins never turn an acceptance into a refusal. */
  lemma {:induction false} UpwardClosed(wins: int, more: int, n: int, config: JudgeConfig)
    requires wins <= more && Accepts(wins, n, config) == Ok(true)
    ensures Accepts(more, n, config) == Ok(true)
    decreases more - wins
  {
    if wins < more {
      AntitoneInWins(n, wins, config.nullWinRate);
      UpwardClosed(wins + 1, more, n, config);
    }
  }

  /** The probability that the gate accepts after n more independent trials, each won with chance p,
      when `won` are already won out of `total`. */
  function Acceptance(n: nat, won: nat, total: int, config: JudgeConfig, p: real): real {
    if n == 0 then if Accepts(won, total, config) == Ok(true) then 1.0 else 0.0
    else Mix(p, Acceptance(n - 1, won + 1, total, config, p), Acceptance(n - 1, won, total, config, p))
  }

  /** When a threshold separates refusal from acceptance, acceptance means reaching it. */
  lemma {:induction false} ReachThreshold(n: nat, won: nat, total: int, config: JudgeConfig, p: real, threshold: nat)
    requires forall w: nat :: w <= total ==> (Accepts(w, total, config) == Ok(true) <==> w >= threshold)
    requires won + n <= total
    ensures Acceptance(n, won, total, config, p) == AtLeast(n, threshold - won, p)
  {
    hide Mix;
    hide Accepts;
    if n == 0 {
    } else {
      ReachThreshold(n - 1, won + 1, total, config, p, threshold);
      ReachThreshold(n - 1, won, total, config, p, threshold);
      if threshold <= won {
        MixSame(p, 1.0);
      }
    }
  }

  /** The least accepted number of wins, or one more than there are trials. */
  lemma {:induction false} ThresholdExists(n: nat, config: JudgeConfig, from: nat) returns (threshold: nat)
    requires from <= n + 1 && forall w: nat :: w < from ==> Accepts(w, n, config) != Ok(true)
    ensures threshold <= n + 1
    ensures forall w: nat :: w <= n ==> (Accepts(w, n, config) == Ok(true) <==> w >= threshold)
    decreases n + 1 - from
  {
    if from == n + 1 {
      threshold := from;
    } else if Accepts(from, n, config) == Ok(true) {
      threshold := from;
      forall w: nat | from <= w <= n ensures Accepts(w, n, config) == Ok(true) {
        UpwardClosed(from, w, n, config);
      }
    } else {
      threshold := ThresholdExists(n, config, from + 1);
    }
  }

  /** For every sample size and every true win rate at or below a valid null rate, the gate accepts with
      probability at most alpha - exactly when alpha is not negative. */
  lemma TypeIBound(n: nat, config: JudgeConfig, p: real)
    requires 0.0 <= p <= config.nullWinRate <= 1.0
    ensures Acceptance(n, 0, n, config, p) <= config.alpha <==> config.alpha >= 0.0
  {
    hide Mix;
    var threshold := ThresholdExists(n, config, 0);
    ReachThreshold(n, 0, n, config, p, threshold);
    AtLeastBounds(n, threshold, p);
    if threshold <= n {
      assert Accepts(threshold, n, config) == Ok(true);
      MonotoneInRate(n, threshold, p, config.nullWinRate);
    } else {
      BeyondReach(n, threshold, p);
    }
  }

  // ---- Order-swapped verdicts ----------------------------------------------------------------

  datatype Pick = Candidate | Baseline | Tie

  datatype PairwiseVerdict = PairwiseVerdict(forward: Pick, swapped: Pick) {
    predicate CandidateWins() {
      forward == Candidate && swapped == Candidate
    }

    predicate IsPositionBiasFlip() {
      forward in {Candidate, Baseline} && swapped in {Candidate, Baseline} && forward != swapped
    }
  }

  function Normalise(answer: string, candidateIsFirst: bool): Pick {
    if answer == "tie" then Tie
    else if answer == "first" then (if candidateIsFirst then Candidate else Baseline)
    else if answer == "second" then (if candidateIsFirst then Baseline else Candidate)
    else Tie
  }

  function OrderSwapVerdict<T>(candidate: T, baseline: T, compare: (T, T) -> string): PairwiseVerdict {
    PairwiseVerdict(Normalise(compare(candidate, baseline), true), Normalise(compare(baseline, candidate), false))
  }

  function OrderSwapWinCount(verdicts: seq<PairwiseVerdict>): (wins: nat)
    ensures wins <= |verdicts|
  {
    if verdicts == [] then 0
    else (if verdicts[0].CandidateWins() then 1 else 0) + OrderSwapWinCount(verdicts[1..])
  }

  function Mirrored(pick: Pick): Pick {
    match pick
    case Candidate => Baseline
    case Baseline => Candidate
    case Tie => Tie
  }

  /** Exchanging the two responses mirrors the verdict, so both of them cannot win. */
  lemma ExchangeMirrors<T>(x: T, y: T, compare: (T, T) -> string)
    ensures var v, u := OrderSwapVerdict(x, y, compare), OrderSwapVerdict(y, x, compare);
            && u == PairwiseVerdict(Mirrored(v.swapped), Mirrored(v.forward))
            && !(v.CandidateWins() && u.CandidateWins())
            && (u.IsPositionBiasFlip() <==> v.IsPositionBiasFlip())
  {
  }

  /** A win needs both orderings to point at the candidate. */
  lemma WinsIff<T>(candidate: T, baseline: T, compare: (T, T) -> string)
    ensures OrderSwapVerdict(candidate, baseline, compare).CandidateWins()
       <==> compare(candidate, baseline) == "first" && compare(baseline, candidate) == "second"
    ensures OrderSwapVerdict(candidate, baseline, compare).IsPositionBiasFlip()
       <==> compare(candidate, baseline) == compare(baseline, candidate)
            && compare(candidate, baseline) in {"first", "second"}
  {
    var answer := compare(candidate, baseline);
    assert |"first"| != |"second"| && |"tie"| != |"first"| && |"tie"| != |"second"|;
    if answer != "tie" && answer != "first" && answer != "second" {
      assert Normalise(answer, true) == Tie;
    }
  }

  function Verdicts<T>(pairs: seq<(T, T)>, compare: (T, T) -> string): (verdicts: seq<PairwiseVerdict>)
    ensures |verdicts| == |pairs|
    ensures forall i :: 0 <= i < |pairs| ==> verdicts[i] == OrderSwapVerdict(pairs[i].0, pairs[i].1, compare)
  {
    if pairs == [] then [] else [OrderSwapVerdict(pairs[0].0, pairs[0].1, compare)] + Verdicts(pairs[1..], compare)
  }

  /** A judge whose answer depends only on position never gives a win. */
  lemma {:induction false} PositionalNeverWins<T(!new)>(pairs: seq<(T, T)>, compare: (T, T) -> string, answer: string)
    requires forall x, y :: compare(x, y) == answer
    ensures OrderSwapWinCount(Verdicts(pairs, compare)) == 0
    ensures |Verdicts(pairs, compare)| == |pairs|
  {
    if pairs != [] {
      PositionalNeverWins(pairs[1..], compare, answer);
      assert compare(pairs[0].0, pairs[0].1) == compare(pairs[0].1, pairs[0].0) == answer;
      assert Verdicts(pairs, compare)[1..] == Verdicts(pairs[1..], compare);
    }
  }

  // ---- The combined decision -----------------------------------------------------------------

  function Abs(x: real): real {
    if x < 0.0 then -x else x
  }

  predicate IsCloseMargin(candidateScore: real, baselineScore: real, config: JudgeConfig) {
    Abs(candidateScore - baselineScore) <= config.closeMargin
  }

  datatype JudgeDecision = JudgeDecision(
    judgeGo: bool, soleArbiter: bool, closeMargin: bool, typeIPassed: bool, wins: int, n: int)

  /** Where both orderings point at the candidate. */
  function WinPlaces(verdicts: seq<PairwiseVerdict>): set<nat> {
    set i: nat | i < |verdicts| && verdicts[i].CandidateWins()
  }

  lemma {:induction false} WinCountIs(verdicts: seq<PairwiseVerdict>)
    ensures OrderSwapWinCount(verdicts) == |WinPlaces(verdicts)|
  {
    if verdicts != [] {
      WinCountIs(verdicts[1..]);
      var shifted := Shifted(WinPlaces(verdicts[1..]));
      ShiftedSize(WinPlaces(verdicts[1..]));
      FirstWin(verdicts);
      InShifted(WinPlaces(verdicts[1..]), 0);
    } else {
      assert WinPlaces(verdicts) == {};
    }
  }

  function Shifted(places: set<nat>): set<nat> {
    set i: nat | i in places :: i + 1
  }

  lemma InShifted(places: set<nat>, i: nat)
    ensures i in Shifted(places) <==> i > 0 && i - 1 in places
  {
    if i > 0 && i - 1 in places {
      assert (i - 1) + 1 == i;
    }
  }

  lemma FirstWin(verdicts: seq<PairwiseVerdict>)
    requires verdicts != []
    ensures WinPlaces(verdicts)
         == Shifted(WinPlaces(verdicts[1..])) + (if verdicts[0].CandidateWins() then {0} else {})
  {
    forall i: nat ensures i in Shifted(WinPlaces(verdicts[1..])) <==> i > 0 && i in WinPlaces(verdicts) {
      InShifted(WinPlaces(verdicts[1..]), i);
    }
    hide Shifted;
  }

  lemma {:induction false} ShiftedSize(places: set<nat>)
    ensures |Shifted(places)| == |places|
  {
    if places != {} {
      var x :| x in places;
      ShiftedSize(places - {x});
      forall i: nat ensures i in Shifted(places) <==> i in Shifted(places - {x}) + {x + 1} {
        InShifted(places, i);
        InShifted(places - {x}, i);
      }
      InShifted(places - {x}, x + 1);
      hide Shifted;
      assert Shifted(places) == Shifted(places - {x}) + {x + 1};
    } else {
      assert Shifted(places) == {};
    }
  }

  /** What a decision on these scores and verdicts says. The judge says go exactly when so many wins among
      so many verdicts have probability at most alpha under the null rate; it is the sole arbiter exactly
      when the scores lie further apart than the margin, either way. */
  predicate Decides(decision: Result<JudgeDecision>, candidateScore: real, baselineScore: real,
                    verdicts: seq<PairwiseVerdict>, config: JudgeConfig)
  {
    && (decision.Ok? <==> verdicts == [] || 0.0 <= config.nullWinRate <= 1.0)
    && (decision.Ok? ==>
          var d := decision.value;
          && d.n == |verdicts| && d.wins == |WinPlaces(verdicts)| && d.typeIPassed == d.judgeGo
          && (d.judgeGo <==> verdicts != [] && AtLeast(|verdicts|, d.wins, config.nullWinRate) <= config.alpha)
          && (d.soleArbiter <==> candidateScore > baselineScore + config.closeMargin
                                 || baselineScore > candidateScore + config.closeMargin)
          && d.closeMargin == !d.soleArbiter)
  }

  method JudgeDecide(candidateScore: real, baselineScore: real, verdicts: seq<PairwiseVerdict>, config: JudgeConfig)
    returns (decision: Result<JudgeDecision>)
    ensures Decides(decision, candidateScore, baselineScore, verdicts, config)
  {
    var wins, n := OrderSwapWinCount(verdicts), |verdicts|;
    WinCountIs(verdicts);
    var passed := PassesTypeI(wins, n, config);
    var close := IsCloseMargin(candidateScore, baselineScore, config);
    decision := if passed.Ok? then Ok(JudgeDecision(passed.value, !close, close, passed.value, wins, n))
                else ValueError;
  }

  predicate Says(decision: Result<JudgeDecision>, go: bool) {
    decision.Ok? && decision.value.judgeGo == go
  }

  lemma GoIsAcceptance(decision: Result<JudgeDecision>, x: real, y: real, verdicts: seq<PairwiseVerdict>,
                       config: JudgeConfig)
    requires Decides(decision, x, y, verdicts, config)
    ensures Says(decision, true) <==> Accepts(OrderSwapWinCount(verdicts), |verdicts|, config) == Ok(true)
  {
    WinCountIs(verdicts);
  }

  /** The scores settle who arbitrates and nothing else: exchanging them keeps the arbiter, and no scores
      change whether the judge says go. */
  lemma ScoresOnlyArbitrate(decision: Result<JudgeDecision>, x: real, y: real, other: Result<JudgeDecision>, x': real,
                            y': real, verdicts: seq<PairwiseVerdict>, config: JudgeConfig)
    requires Decides(decision, x, y, verdicts, config) && Decides(other, x', y', verdicts, config)
    ensures Says(decision, true) <==> Says(other, true)
    ensures x' == y && y' == x ==> decision == other
    ensures x == y && config.closeMargin >= 0.0 && decision.Ok? ==> !decision.value.soleArbiter
  {
  }

  /** A purely positional judge never says go, on any pairs and for any scores, unless alpha is one or
      more. */
  lemma PositionalNeverGoes<T(!new)>(decision: Result<JudgeDecision>, candidateScore: real, baselineScore: real,
                                     pairs: seq<(T, T)>, compare: (T, T) -> string, answer: string,
                                     config: JudgeConfig)
    requires forall x, y :: compare(x, y) == answer
    requires config.alpha < 1.0
    requires Decides(decision, candidateScore, baselineScore, Verdicts(pairs, compare), config)
    ensures !Says(decision, true)
  {
    PositionalNeverWins(pairs, compare, answer);
    GoIsAcceptance(decision, candidateScore, baselineScore, Verdicts(pairs, compare), config);
  }

  lemma {:induction false} WinCountGrows(verdicts: seq<PairwiseVerdict>, i: nat, better: PairwiseVerdict)
    requires i < |verdicts| && better.CandidateWins()
    ensures OrderSwapWinCount(verdicts[i := better]) >= OrderSwapWinCount(verdicts)
  {
    if i > 0 {
      WinCountGrows(verdicts[1..], i - 1, better);
      assert verdicts[i := better][1..] == verdicts[1..][i - 1 := better];
    } else {
      assert verdicts[0 := better][1..] == verdicts[1..];
    }
  }

  /** Turning any one verdict into a win never turns go into no-go, whatever the scores. */
  lemma AnotherWinKeepsGo(decision: Result<JudgeDecision>, x: real, y: real, verdicts: seq<PairwiseVerdict>,
                          config: JudgeConfig, other: Result<JudgeDecision>, x': real, y': real, i: nat,
                          better: PairwiseVerdict)
    requires i < |verdicts| && better.CandidateWins()
    requires Decides(decision, x, y, verdicts, config) && Says(decision, true)
    requires Decides(other, x', y', verdicts[i := better], config)
    ensures Says(other, true)
  {
    WinCountGrows(verdicts, i, better);
    GoIsAcceptance(decision, x, y, verdicts, config);
    GoIsAcceptance(other, x', y', verdicts[i := better], config);
    UpwardClosed(OrderSwapWinCount(verdicts), OrderSwapWinCount(verdicts[i := better]), |verdicts|, config);
  }

  // ---- Calibration ---------------------------------------------------------------------------

  datatype Calibration = Calibration(
    tpr: real, fpr: real, tp: nat, fp: nat, tn: nat, fn: nat, n: nat, underPowered: bool, trusted: bool)

  /** How often the judge answered `judged` on an item whose human label is `truth`. */
  function Count(judge: seq<bool>, human: seq<bool>, judged: bool, truth: bool): nat
    requires |judge| == |human|
  {
    if judge == [] then 0
    else
      var last := |judge| - 1;
      Count(judge[..last], human[..last], judged, truth)
      + (if judge[last] == judged && human[last] == truth then 1 else 0)
  }

  function Rate(hits: nat, misses: nat): real {
    if hits + misses == 0 then 0.0 else hits as real / (hits + misses) as real
  }

  /** The items of this label that the judge answered so. */
  function Places(judge: seq<bool>, human: seq<bool>, judged: bool, truth: bool): set<nat>
    requires |judge| == |human|
  {
    set i: nat | i < |human| && judge[i] == judged && human[i] == truth
  }

  lemma LastPlace(judge: seq<bool>, human: seq<bool>, judged: bool, truth: bool)
    requires |judge| == |human| > 0
    ensures var last := |judge| - 1;
            var before := Places(judge[..last], human[..last], judged, truth);
            && last !in before
            && Places(judge, human, judged, truth)
               == before + (if judge[last] == judged && human[last] == truth then {last} else {})
  {
  }

  lemma {:induction false} CountIs(judge: seq<bool>, human: seq<bool>, judged: bool, truth: bool)
    requires |judge| == |human|
    ensures Count(judge, human, judged, truth) == |Places(judge, human, judged, truth)|
  {
    if judge != [] {
      CountIs(judge[..|judge| - 1], human[..|judge| - 1], judged, truth);
      LastPlace(judge, human, judged, truth);
    } else {
      assert Places(judge, human, judged, truth) == {};
    }
    hide Places;
  }

  lemma CountsAre(judge: seq<bool>, human: seq<bool>)
    requires |judge| == |human|
    ensures Count(judge, human, true, true) == |Places(judge, human, true, true)|
    ensures Count(judge, human, false, true) == |Places(judge, human, false, true)|
    ensures Count(judge, human, true, false) == |Places(judge, human, true, false)|
    ensures Count(judge, human, false, false) == |Places(judge, human, false, false)|
  {
    CountIs(judge, human, true, true);
    CountIs(judge, human, true, false);
    CountIs(judge, human, false, true);
    CountIs(judge, human, false, false);
    hide Count;
    hide Places;
  }

  /** The confusion counts partition the set, the rates are the fractions of human labels hit, and trust
      asks for enough items and both thresholds. */
  ghost predicate Calibrated(judge: seq<bool>, human: seq<bool>, config: JudgeConfig, c: Calibration)
    requires |judge| == |human|
  {
    && c.tp == |Places(judge, human, true, true)| && c.fn == |Places(judge, human, false, true)|
    && c.fp == |Places(judge, human, true, false)| && c.tn == |Places(judge, human, false, false)|
    && c.n == |human| && c.tp + c.fp + c.tn + c.fn == c.n
    && c.tpr == (if c.tp + c.fn == 0 then 0.0 else c.tp as real / (c.tp + c.fn) as real)
    && c.fpr == (if c.fp + c.tn == 0 then 0.0 else c.fp as real / (c.fp + c.tn) as real)
    && (c.underPowered <==> c.n < config.minCalibrationN)
    && (c.trusted <==> !c.underPowered && c.tpr >= config.minTpr && c.fpr <= config.maxFpr)
  }

  lemma CountStep(judge: seq<bool>, human: seq<bool>, i: nat)
    requires |judge| == |human| && i < |judge|
    ensures forall j, t ::
              Count(judge[..i + 1], human[..i + 1], j, t)
              == Count(judge[..i], human[..i], j, t) + (if judge[i] == j && human[i] == t then 1 else 0)
  {
    assert judge[..i + 1][..i] == judge[..i] && human[..i + 1][..i] == human[..i];
  }

  lemma NoCounts()
    ensures forall j, t :: Count([], [], j, t) == 0
  {
  }

  method Calibrate(judge: seq<bool>, human: seq<bool>, config: JudgeConfig) returns (c: Result<Calibration>)
    ensures c.Ok? <==> |judge| == |human|
    ensures c.Ok? ==> Calibrated(judge, human, config, c.value)
    ensures c.Ok? ==> 0.0 <= c.value.tpr <= 1.0 && 0.0 <= c.value.fpr <= 1.0
  {
    hide Count;
    hide Places;
    if |judge| != |human| {
      return ValueError;
    }
    var tp, fp, tn, fn := 0, 0, 0, 0;
    NoCounts();
    for i := 0 to |human|
      invariant tp == Count(judge[..i], human[..i], true, true) && fn == Count(judge[..i], human[..i], false, true)
      invariant fp == Count(judge[..i], human[..i], true, false) && tn == Count(judge[..i], human[..i], false, false)
      invariant tp + fp + tn + fn == i
    {
      CountStep(judge, human, i);
      if human[i] && judge[i] {
        tp := tp + 1;
      } else if human[i] && !judge[i] {
        fn := fn + 1;
      } else if !human[i] && judge[i] {
        fp := fp + 1;
      } else {
        tn := tn + 1;
      }
    }
    assert judge[..|human|] == judge && human[..|human|] == human;
    CountsAre(judge, human);
    RateBounds(tp, fn);
    RateBounds(fp, tn);
    var tpr := if tp + fn != 0 then tp as real / (tp + fn) as real else 0.0;
    var fpr := if fp + tn != 0 then fp as real / (fp + tn) as real else 0.0;
    var underPowered := |human| < config.minCalibrationN;
    c := Ok(Calibration(tpr, fpr, tp, fp, tn, fn, |human|, underPowered,
                        !underPowered && tpr >= config.minTpr && fpr <= config.maxFpr));
  }

  lemma RateBounds(hits: nat, misses: nat)
    ensures 0.0 <= Rate(hits, misses) <= 1.0
  {
    if hits + misses != 0 {
      RateGrows(0, hits, hits + misses);
      RateGrows(hits, hits + misses, hits + misses);
    }
  }

  lemma RateGrows(a: nat, b: nat, whole: nat)
    requires a <= b && whole > 0
    ensures a as real / whole as real <= b as real / whole as real
  {
  }

  lemma {:induction false} CorrectedCounts(judge: seq<bool>, human: seq<bool>, i: nat)
    requires |judge| == |human| && i < |judge| && judge[i] != human[i]
    ensures var judge' := judge[i := human[i]];
            if human[i] then
              && Count(judge', human, true, true) == Count(judge, human, true, true) + 1
              && Count(judge', human, false, true) == Count(judge, human, false, true) - 1
              && Count(judge', human, true, false) == Count(judge, human, true, false)
              && Count(judge', human, false, false) == Count(judge, human, false, false)
            else
              && Count(judge', human, true, true) == Count(judge, human, true, true)
              && Count(judge', human, false, true) == Count(judge, human, false, true)
              && Count(judge', human, true, false) == Count(judge, human, true, false) - 1
              && Count(judge', human, false, false) == Count(judge, human, false, false) + 1
  {
    var last, judge' := |judge| - 1, judge[i := human[i]];
    if i < last {
      CorrectedCounts(judge[..last], human[..last], i);
      assert judge'[..last] == judge[..last][i := human[i]];
    } else {
      assert judge'[..last] == judge[..last];
    }
  }

  /** Correcting one of the judge's labels to the human one never loses trust. */
  lemma CorrectionKeepsTrust(judge: seq<bool>, human: seq<bool>, config: JudgeConfig, i: nat,
                             c: Calibration, c': Calibration)
    requires |judge| == |human| && i < |judge|
    requires Calibrated(judge, human, config, c) && Calibrated(judge[i := human[i]], human, config, c')
    requires c.trusted
    ensures c'.trusted
  {
    if judge[i] == human[i] {
      assert judge[i := human[i]] == judge;
    } else {
      CorrectedCounts(judge, human, i);
      CountsAre(judge, human);
      CountsAre(judge[i := human[i]], human);
      hide Count;
      hide Places;
      if human[i] {
        RateGrows(c.tp, c'.tp, c.tp + c.fn);
      } else {
        RateGrows(c'.fp, c.fp, c.fp + c.tn);
      }
    }
  }
}
