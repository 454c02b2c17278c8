/** Scores for predictor outputs, as the pure-Python branch computes them. */
module Scoring {
  import opened Wrappers
  import Numeric
  import MetricsAdaptive

  /** The fallback's direction test: zero counts as non-negative. */
  predicate SameDirection(p: real, a: real) {
    (p >= 0.0 && a >= 0.0) || (p < 0.0 && a < 0.0)
  }

  /** The number of positions whose directions agree. */
  function Correct(ps: seq<real>, acts: seq<real>): (n: nat)
    requires |ps| == |acts|
    ensures n <= |ps|
    ensures n == |ps| <==> forall i :: 0 <= i < |ps| ==> SameDirection(ps[i], acts[i])
  {
    if ps == [] then 0
    else
      var rest := Correct(ps[1..], acts[1..]);
      assert forall i :: 1 <= i < |ps| ==> ps[1..][i - 1] == ps[i] && acts[1..][i - 1] == acts[i];
      (if SameDirection(ps[0], acts[0]) then 1 else 0) + rest
  }

  /** accuracy_score: 0 for mismatched lengths or no predictions, else the fraction that agree. */
  function AccuracyScore(predictions: seq<real>, actual: seq<real>): (r: real)
    ensures 0.0 <= r <= 1.0
    ensures |predictions| != |actual| || predictions == [] ==> r == 0.0
  {
    if |predictions| != |actual| || predictions == [] then 0.0
    else
      var c := Correct(predictions, actual) as real;
      var n := |predictions| as real;
      Numeric.DivBetween(c, n, 0.0, 1.0);
      c / n
  }

  /** A perfect directional match scores 1 and only then. */
  lemma PerfectAccuracy(predictions: seq<real>, actual: seq<real>)
    requires |predictions| == |actual| && predictions != []
    ensures AccuracyScore(predictions, actual) == 1.0 <==>
      forall i :: 0 <= i < |predictions| ==> SameDirection(predictions[i], actual[i])
  {
    QuotientOne(Correct(predictions, actual) as real, |predictions| as real);
  }

  lemma QuotientOne(c: real, n: real)
    requires n > 0.0
    ensures c / n == 1.0 <==> c == n
  {
    if c / n == 1.0 {
      assert c == (c / n) * n;
    }
  }

  /** Direction agreement is symmetric, so the score does not care which side is the prediction. */
  lemma AccuracySymmetric(predictions: seq<real>, actual: seq<real>)
    ensures AccuracyScore(predictions, actual) == AccuracyScore(actual, predictions)
  {
    if |predictions| == |actual| {
      CorrectSymmetric(predictions, actual);
    }
  }

  lemma {:induction false} CorrectSymmetric(ps: seq<real>, acts: seq<real>)
    requires |ps| == |acts|
    ensures Correct(ps, acts) == Correct(acts, ps)
  {
    if ps != [] {
      CorrectSymmetric(ps[1..], acts[1..]);
    }
  }

  /** The differences stability_index measures: a single prediction counts as one zero move. */
  function Moves(predictions: seq<real>): (d: seq<real>)
    requires predictions != []
    ensures d != []
  {
    if |predictions| < 2 then [0.0] else Numeric.Diffs(predictions)
  }

  /** stability_index: 0 for no predictions, else 1 / (1 + population std of the moves). */
  function StabilityIndex(predictions: seq<real>, sqrt: real -> real): (r: real)
    requires Numeric.IsSqrt(sqrt)
    ensures predictions == [] ==> r == 0.0
    ensures predictions != [] ==> 0.0 < r <= 1.0
  {
    if predictions == [] then 0.0
    else
      var std := sqrt(Numeric.Variance(Moves(predictions)));
      Numeric.DivBetween(1.0, 1.0 + std, 0.0, 1.0);
      1.0 / (1.0 + std)
  }

  /** Over two or more predictions the index is 1 / (1 + v) for v the volatility AdaptiveMetrics reports for
      the same series, so predictions that move by a constant step are as stable as sqrt(0) allows. */
  lemma StabilityOfVolatility(predictions: seq<real>, sqrt: real -> real)
    requires Numeric.IsSqrt(sqrt) && |predictions| >= 2
    ensures StabilityIndex(predictions, sqrt) == 1.0 / (1.0 + MetricsAdaptive.EquityVolatility(predictions, sqrt))
  {
  }

  /** Steady predictions (a single one, or a constant step) have no spread under the square root. */
  lemma SteadyPredictions(predictions: seq<real>, step: real, sqrt: real -> real)
    requires Numeric.IsSqrt(sqrt) && predictions != []
    requires forall i :: 0 <= i < |predictions| - 1 ==> predictions[i + 1] - predictions[i] == step
    ensures StabilityIndex(predictions, sqrt) == 1.0 / (1.0 + sqrt(0.0))
  {
    if |predictions| < 2 {
      MetricsAdaptive.ConstantMean([0.0], 0.0);
      MetricsAdaptive.ConstantSumSq([0.0], 0.0);
    } else {
      MetricsAdaptive.SteadyEquityCalm(predictions, step, sqrt);
    }
  }

  /** The fallback's direction: 1 for a non-negative prediction, else -1. */
  function Direction(p: real): (d: real)
    ensures d == 1.0 || d == -1.0
  {
    if p >= 0.0 then 1.0 else -1.0
  }

  function AbsSum(rs: seq<real>): (t: real)
    ensures t >= 0.0
  {
    if rs == [] then 0.0 else Numeric.Abs(rs[0]) + AbsSum(rs[1..])
  }

  /** The signed reward; never larger in size than the total absolute reward. */
  function SignedReward(ps: seq<real>, rs: seq<real>): (n: real)
    requires |ps| == |rs|
    ensures -AbsSum(rs) <= n <= AbsSum(rs)
  {
    if ps == [] then 0.0 else Direction(ps[0]) * rs[0] + SignedReward(ps[1..], rs[1..])
  }

  /** reward_factor: 0 for mismatched lengths or no predictions, else the signed reward over the total
      absolute reward (or over 1 when every reward is 0). */
  function RewardFactor(predictions: seq<real>, pnl: seq<real>): (r: real)
    ensures -1.0 <= r <= 1.0
    ensures |predictions| != |pnl| || predictions == [] ==> r == 0.0
    ensures |predictions| == |pnl| && predictions != [] && AbsSum(pnl) == 0.0 ==> r == 0.0
  {
    if |predictions| != |pnl| || predictions == [] then 0.0
    else
      var num := SignedReward(predictions, pnl);
      var den := if AbsSum(pnl) == 0.0 then 1.0 else AbsSum(pnl);
      Numeric.DivBetween(num, den, -1.0, 1.0);
      num / den
  }

  /** Calling every move's direction right earns the full reward. */
  lemma {:induction false} AllRight(ps: seq<real>, rs: seq<real>)
    requires |ps| == |rs|
    requires forall i :: 0 <= i < |ps| ==> SameDirection(ps[i], rs[i])
    ensures SignedReward(ps, rs) == AbsSum(rs)
  {
    if ps != [] {
      assert SameDirection(ps[0], rs[0]);
      AllRight(ps[1..], rs[1..]);
    }
  }

  lemma PerfectReward(predictions: seq<real>, pnl: seq<real>)
    requires |predictions| == |pnl| && predictions != [] && AbsSum(pnl) > 0.0
    requires forall i :: 0 <= i < |predictions| ==> SameDirection(predictions[i], pnl[i])
    ensures RewardFactor(predictions, pnl) == 1.0
  {
    AllRight(predictions, pnl);
    QuotientOne(AbsSum(pnl), AbsSum(pnl));
  }

  /** The scores ScoreEvaluator.evaluate returns. */
  datatype Scores = Scores(accuracy: real, stability: real, reward: real)

  /** ScoreEvaluator.evaluate: pnl defaults to the actual values. */
  function Evaluate(predictions: seq<real>, actual: seq<real>, pnl: Option<seq<real>>, sqrt: real -> real): (s: Scores)
    requires Numeric.IsSqrt(sqrt)
    ensures 0.0 <= s.accuracy <= 1.0 && 0.0 <= s.stability <= 1.0 && -1.0 <= s.reward <= 1.0
    ensures s.accuracy == AccuracyScore(predictions, actual) && s.stability == StabilityIndex(predictions, sqrt)
    ensures pnl.None? ==> s.reward == RewardFactor(predictions, actual)
    ensures pnl.Some? ==> s.reward == RewardFactor(predictions, pnl.value)
  {
    Scores(AccuracyScore(predictions, actual), StabilityIndex(predictions, sqrt),
           RewardFactor(predictions, if pnl.Some? then pnl.value else actual))
  }

  /** With pnl defaulted, calling every actual move's direction right gives full accuracy and reward. */
  lemma PerfectCalls(predictions: seq<real>, actual: seq<real>, sqrt: real -> real)
    requires Numeric.IsSqrt(sqrt)
    requires |predictions| == |actual| && predictions != [] && AbsSum(actual) > 0.0
    requires forall i :: 0 <= i < |predictions| ==> SameDirection(predictions[i], actual[i])
    ensures Evaluate(predictions, actual, None, sqrt).accuracy == 1.0
    ensures Evaluate(predictions, actual, None, sqrt).reward == 1.0
  {
    PerfectAccuracy(predictions, actual);
    PerfectReward(predictions, actual);
  }
}
