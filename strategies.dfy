/** The built-in strategies: a price band crossing and a predictor score band. Both answer -1, 0 or 1. */
module Strategies {
  import opened Wrappers
  import Text
  import Backtester

  const BadBand := "lower threshold must be < upper threshold"
  const NoPrice := "bar requires a price-like field (close or open)"
  const NoFeatures := "bar must include a 'features' sequence for predictor-driven strategy"

  /** ThresholdCrossStrategy: sell at or above `upper`, buy at or below `lower`. */
  datatype ThresholdCross = ThresholdCross(upper: real, lower: real)

  /** ThresholdCrossStrategy.__post_init__: the band must be non-empty. */
  function NewThresholdCross(upper: real, lower: real): (r: Result<ThresholdCross, string>)
    ensures r.Success? <==> lower < upper
    ensures r.Success? ==> r.value.upper == upper && r.value.lower == lower
    ensures r.Failure? ==> r.error == BadBand
  {
    if lower >= upper then Failure(BadBand) else Success(ThresholdCross(upper, lower))
  }

  /** `bar.get("close") or bar.get("open")`: a missing or zero close falls back to open. */
  function Price(bar: Backtester.Bar): (r: Option<real>)
    ensures r.None? <==> ("close" !in bar || bar["close"] == 0.0) && "open" !in bar
    ensures "close" in bar && bar["close"] != 0.0 ==> r == Some(bar["close"])
    ensures ("close" !in bar || bar["close"] == 0.0) && "open" in bar ==> r == Some(bar["open"])
  {
    if "close" in bar && bar["close"] != 0.0 then Some(bar["close"])
    else if "open" in bar then Some(bar["open"])
    else None
  }

  /** The crossing decision on a price. */
  function CrossSignal(s: ThresholdCross, price: real): (d: int)
    requires s.lower < s.upper
    ensures -1 <= d <= 1
    ensures d == -1 <==> price >= s.upper
    ensures d == 1 <==> price <= s.lower
  {
    if price >= s.upper then -1 else if price <= s.lower then 1 else 0
  }

  /** ThresholdCrossStrategy.__call__. */
  function Cross(s: ThresholdCross, bar: Backtester.Bar): (r: Result<int, string>)
    requires s.lower < s.upper
    ensures r.Failure? <==> Price(bar).None?
    ensures r.Failure? ==> r.error == NoPrice
    ensures r.Success? ==> -1 <= r.value <= 1 && r.value == CrossSignal(s, Price(bar).value)
  {
    match Price(bar)
    case None => Failure(NoPrice)
    case Some(p) => Success(CrossSignal(s, p))
  }

  /** A higher price never gives a more bullish signal. */
  lemma CrossAntitone(s: ThresholdCross, p: real, q: real)
    requires s.lower < s.upper && p <= q
    ensures CrossSignal(s, q) <= CrossSignal(s, p)
  {
  }

  /** Every bar the backtester accepts has an open price, so the crossing strategy never fails inside a
      run and every signal it gives is in range. */
  lemma CrossRunsOnValidBars(s: ThresholdCross, prices: seq<Backtester.Bar>)
    requires s.lower < s.upper
    requires forall i :: 0 <= i < |prices| ==> "open" in prices[i] && "close" in prices[i]
    ensures Backtester.ValidBars(prices, bar => Cross(s, bar))
  {
    forall i | 0 <= i < |prices|
      ensures Backtester.Signal(prices[i], bar => Cross(s, bar)).Success?
    {
      assert Price(prices[i]).Some?;
    }
  }

  /** The model behind PredictorThresholdStrategy: its input size and its prediction function. */
  datatype Predictor = Predictor(inputSize: nat, predict: seq<real> -> real)

  /** PredictorThresholdStrategy: buy at or above `upper`, sell at or below `lower`. */
  datatype PredictorThreshold = PredictorThreshold(predictor: Predictor, upper: real, lower: real)

  const DefaultUpper: real := 0.2
  const DefaultLower: real := -0.2

  /** PredictorThresholdStrategy.__post_init__. */
  function NewPredictorThreshold(predictor: Predictor, upper: real, lower: real): (r: Result<PredictorThreshold, string>)
    ensures r.Success? <==> lower < upper
    ensures r.Success? ==> r.value == PredictorThreshold(predictor, upper, lower)
    ensures r.Failure? ==> r.error == BadBand
  {
    if lower >= upper then Failure(BadBand) else Success(PredictorThreshold(predictor, upper, lower))
  }

  /** The default band (-0.2, 0.2) is accepted. */
  lemma DefaultBandAccepted(predictor: Predictor)
    ensures NewPredictorThreshold(predictor, DefaultUpper, DefaultLower).Success?
  {
  }

  /** _extract_features: the bar's "features" sequence, which must have the predictor's input size. */
  function Features(s: PredictorThreshold, features: Option<seq<real>>): (r: Result<seq<real>, string>)
    ensures r.Success? <==> features.Some? && |features.value| == s.predictor.inputSize
    ensures r.Success? ==> r.value == features.value
    ensures features.None? ==> r == Failure(NoFeatures)
  {
    match features
    case None => Failure(NoFeatures)
    case Some(f) =>
      if |f| != s.predictor.inputSize then
        Failure("Strategy expected " + Text.IntToString(s.predictor.inputSize) + " features, received "
                + Text.IntToString(|f|))
      else Success(f)
  }

  /** The band decision on a prediction. */
  function BandSignal(s: PredictorThreshold, prediction: real): (d: int)
    requires s.lower < s.upper
    ensures -1 <= d <= 1
    ensures d == 1 <==> prediction >= s.upper
    ensures d == -1 <==> prediction <= s.lower
  {
    if prediction >= s.upper then 1 else if prediction <= s.lower then -1 else 0
  }

  /** PredictorThresholdStrategy.__call__, on the bar's "features" entry. */
  function Predicted(s: PredictorThreshold, features: Option<seq<real>>): (r: Result<int, string>)
    requires s.lower < s.upper
    ensures r.Success? <==> Features(s, features).Success?
    ensures r.Success? ==> -1 <= r.value <= 1 && r.value == BandSignal(s, s.predictor.predict(features.value))
  {
    match Features(s, features)
    case Failure(e) => Failure(e)
    case Success(f) => Success(BandSignal(s, s.predictor.predict(f)))
  }

  /** A higher score never gives a more bearish signal. */
  lemma BandMonotone(s: PredictorThreshold, p: real, q: real)
    requires s.lower < s.upper && p <= q
    ensures BandSignal(s, p) <= BandSignal(s, q)
  {
  }
}
