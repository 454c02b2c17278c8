/** The reinforcement optimizer: a linear policy over feature vectors, trained by the delta rule, with
    an exploration rate that decays towards a floor and a dead band around zero for suggestions. */
module Optimizer {
  import opened Wrappers
  import opened Json
  import Numeric
  import AuditLog

  /** The exploration rate never decays below this. */
  const EpsilonFloor: real := 0.01
  const EpsilonDecay: real := 0.99
  const BadInputSize := "input_size must be positive"

  /** `sum(w * f for w, f in zip(weights, features))`: the dot product over the shorter length. */
  function Dot(weights: seq<real>, features: seq<real>): real {
    if weights == [] || features == [] then 0.0 else weights[0] * features[0] + Dot(weights[1..], features[1..])
  }

  /** zip stops at the shorter sequence, so only the common prefix counts. */
  lemma {:induction false} DotTruncates(weights: seq<real>, features: seq<real>, n: nat)
    requires n == Numeric.MinInt(|weights|, |features|)
    ensures Dot(weights, features) == Dot(weights[..n], features[..n])
  {
    if n > 0 {
      assert weights[..n][1..] == weights[1..][..n - 1];
      assert features[..n][1..] == features[1..][..n - 1];
      DotTruncates(weights[1..], features[1..], n - 1);
    }
  }

  /** Zero weights give a zero policy. */
  lemma {:induction false} DotZeros(n: nat, features: seq<real>)
    ensures Dot(Zeros(n), features) == 0.0
  {
    if n > 0 && features != [] {
      assert Zeros(n)[1..] == Zeros(n - 1);
      DotZeros(n - 1, features[1..]);
    }
  }

  /** `[0.0] * n`. */
  function Zeros(n: nat): (r: seq<real>)
    ensures |r| == n && forall i :: 0 <= i < n ==> r[i] == 0.0
  {
    if n == 0 then [] else [0.0] + Zeros(n - 1)
  }

  /** `[w + delta * f for w, f in zip(weights, features)]`. */
  function Shifted(weights: seq<real>, features: seq<real>, delta: real): (r: seq<real>)
    ensures |r| == Numeric.MinInt(|weights|, |features|)
  {
    if weights == [] || features == [] then []
    else [weights[0] + delta * features[0]] + Shifted(weights[1..], features[1..], delta)
  }

  /** Each weight moves by `delta` times its own feature. */
  lemma {:induction false} ShiftedAt(weights: seq<real>, features: seq<real>, delta: real, i: nat)
    requires i < |weights| && i < |features|
    ensures Shifted(weights, features, delta)[i] == weights[i] + delta * features[i]
  {
    if i > 0 {
      ShiftedAt(weights[1..], features[1..], delta, i - 1);
    }
  }

  /** The delta rule's effect on the policy: for equally long vectors, shifting by `delta` along the
      features moves the policy on those features by `delta` times their squared length. */
  lemma {:induction false} ShiftedDot(weights: seq<real>, features: seq<real>, delta: real)
    requires |weights| == |features|
    ensures Dot(Shifted(weights, features, delta), features) == Dot(weights, features) + delta * Dot(features, features)
  {
    if weights != [] {
      ShiftedDot(weights[1..], features[1..], delta);
      var s := Shifted(weights, features, delta);
      assert s[0] == weights[0] + delta * features[0];
      assert s[1..] == Shifted(weights[1..], features[1..], delta);
      Regroup(weights[0], delta, features[0], Dot(weights[1..], features[1..]), Dot(features[1..], features[1..]));
    }
  }

  lemma Regroup(a: real, d: real, f: real, rest: real, square: real)
    ensures (a + d * f) * f + (rest + d * square) == (a * f + rest) + d * (f * f + square)
  {
  }

  /** A squared length is never negative. */
  lemma {:induction false} DotSelf(features: seq<real>)
    ensures Dot(features, features) >= 0.0
  {
    if features != [] {
      DotSelf(features[1..]);
      assert features[0] * features[0] >= 0.0;
    }
  }

  /** `max(0.01, epsilon * 0.99)`: never below the floor, and never above a rate already at or above it. */
  function Decayed(epsilon: real): (r: real)
    ensures r >= EpsilonFloor
    ensures epsilon >= EpsilonFloor ==> r <= epsilon
    ensures epsilon > EpsilonFloor / EpsilonDecay ==> r < epsilon
  {
    Numeric.Max(EpsilonFloor, epsilon * EpsilonDecay)
  }

  /** suggest for a policy score: 1 at or above epsilon, -1 at or below its negation, else 0. */
  function Suggestion(score: real, epsilon: real): (r: int)
    ensures -1 <= r <= 1
    ensures r == 1 <==> score >= epsilon
    ensures r == -1 <==> score < epsilon && score <= -epsilon
  {
    if score >= epsilon then 1 else if score <= -epsilon then -1 else 0
  }

  /** train_step's update: the learning rate times the advantage of the reward over the prediction. */
  function Step(rate: real, reward: real, prediction: real): real {
    rate * (reward - prediction)
  }

  /** With a positive epsilon the three answers are told apart by the score alone. */
  lemma SuggestionBands(score: real, epsilon: real)
    requires epsilon > 0.0
    ensures Suggestion(score, epsilon) == 0 <==> -epsilon < score < epsilon
    ensures Suggestion(score, epsilon) == -1 <==> score <= -epsilon
  {
  }

  /** The audit entry construction writes. */
  function InitPayload(sessionId: Option<string>, learningRate: real, gamma: real, epsilon: real): AuditLog.Entry {
    map["module" := JStr("qai.optimizer"), "event" := JStr("init"),
        "session_id" := (if sessionId.Some? then JStr(sessionId.value) else JNull),
        "learning_rate" := JNum(learningRate), "gamma" := JNum(gamma), "epsilon" := JNum(epsilon)]
  }

  /** OptimizerRL with its OptimizerState; `gamma` is stored and read by no method here. */
  class OptimizerRL {
    var learningRate: real
    var weights: seq<real>
    var epsilon: real
    var gamma: real

    constructor (learningRate: real, weights: seq<real>, epsilon: real, gamma: real)
      ensures this.learningRate == learningRate && this.weights == weights
      ensures this.epsilon == epsilon && this.gamma == gamma
    {
      this.learningRate := learningRate;
      this.weights := weights;
      this.epsilon := epsilon;
      this.gamma := gamma;
    }

    /** policy: the weights applied to the features. */
    function Policy(features: seq<real>): real
      reads this
    {
      Dot(weights, features)
    }

    /** suggest: the dead-band decision on the current policy. */
    function Suggest(features: seq<real>): (r: int)
      reads this
      ensures r == Suggestion(Dot(weights, features), epsilon)
    {
      Suggestion(Policy(features), epsilon)
    }

    /** train_step: move the weights by the learning rate times the advantage along the features, decay
        epsilon, and return the old prediction plus that step (not the policy of the new weights). */
    method TrainStep(features: seq<real>, reward: real) returns (r: real)
      modifies this
      ensures weights == Shifted(old(weights), features, Step(old(learningRate), reward, Dot(old(weights), features)))
      ensures r == Dot(old(weights), features) + Step(old(learningRate), reward, Dot(old(weights), features))
      ensures epsilon == Decayed(old(epsilon))
      ensures learningRate == old(learningRate) && gamma == old(gamma)
    {
      var prediction := Policy(features);
      var advantage := reward - prediction;
      var update := learningRate * advantage;
      assert update == Step(old(learningRate), reward, Dot(old(weights), features));
      ApplyUpdate(features, update);
      DecayEpsilon();
      r := prediction + update;
    }

    /** _apply_update. */
    method ApplyUpdate(features: seq<real>, delta: real)
      modifies this
      ensures weights == Shifted(old(weights), features, delta)
      ensures learningRate == old(learningRate) && epsilon == old(epsilon) && gamma == old(gamma)
    {
      weights := Shifted(weights, features, delta);
    }

    /** _decay_epsilon. */
    method DecayEpsilon()
      modifies this
      ensures epsilon == Decayed(old(epsilon))
      ensures learningRate == old(learningRate) && weights == old(weights) && gamma == old(gamma)
    {
      epsilon := Numeric.Max(EpsilonFloor, epsilon * EpsilonDecay);
    }
  }

  /** One training step on a feature vector as long as the weights moves the policy on it from the
      prediction towards the reward: by the step times the squared length, so with a learning rate at
      most the inverse of that length it lands between the prediction and the reward. */
  lemma TrainTowardsReward(weights: seq<real>, features: seq<real>, rate: real, reward: real, delta: real)
    requires |weights| == |features| && 0.0 <= rate && rate * Dot(features, features) <= 1.0
    requires delta == rate * (reward - Dot(weights, features))
    ensures Dot(Shifted(weights, features, delta), features)
      == Dot(weights, features) + rate * Dot(features, features) * (reward - Dot(weights, features))
    ensures Dot(weights, features) <= reward ==>
      Dot(weights, features) <= Dot(Shifted(weights, features, delta), features) <= reward
    ensures reward <= Dot(weights, features) ==>
      reward <= Dot(Shifted(weights, features, delta), features) <= Dot(weights, features)
  {
    ShiftedDot(weights, features, delta);
    DotSelf(features);
    Fraction(Dot(weights, features), Dot(Shifted(weights, features, delta), features), rate, Dot(features, features), reward);
  }

  /** The arithmetic of one delta-rule step: moving by `rate * square` (at most 1) of the way from the
      prediction to the reward stays between them. */
  lemma Fraction(prediction: real, after: real, rate: real, square: real, reward: real)
    requires 0.0 <= rate && 0.0 <= square && rate * square <= 1.0
    requires after == prediction + rate * (reward - prediction) * square
    ensures after == prediction + rate * square * (reward - prediction)
    ensures prediction <= reward ==> prediction <= after <= reward
    ensures reward <= prediction ==> reward <= after <= prediction
  {
    var k := rate * square;
    var t := reward - prediction;
    assert rate * t * square == k * t;
    assert after == prediction + k * t;
    NonNegProduct(rate, square);
    if t >= 0.0 {
      NonNegProduct(k, t);
      NonNegProduct(1.0 - k, t);
    } else {
      NonNegProduct(k, -t);
      NonNegProduct(1.0 - k, -t);
    }
  }

  lemma NonNegProduct(a: real, b: real)
    requires 0.0 <= a && 0.0 <= b
    ensures 0.0 <= a * b
  {
  }

  /** The value train_step returns is not the policy of the trained weights: one feature of 2.0, zero
      weights, reward 1 and rate 0.1 return 0.1 while the trained policy is 0.4. */
  lemma ReturnIsNotNewPolicy()
    ensures Dot([0.0], [2.0]) + 0.1 * (1.0 - Dot([0.0], [2.0])) == 0.1
    ensures Dot(Shifted([0.0], [2.0], 0.1 * (1.0 - Dot([0.0], [2.0]))), [2.0]) == 0.4
  {
    assert Dot([0.0], [2.0]) == 0.0;
    assert Shifted([0.0], [2.0], 0.1) == [0.2];
    assert Dot([0.2], [2.0]) == 0.4;
  }

  /** OptimizerRL.__init__: a ValueError for a non-positive input size; otherwise zero weights of that
      length and, with an audit log, one init entry. */
  method Create(inputSize: int, learningRate: real, gamma: real, epsilon: real, audit: AuditLog.AuditFile?,
                sessionId: Option<string>, hmacKey: Option<string>, env: AuditLog.Env)
    returns (r: Result<OptimizerRL, string>)
    modifies audit
    ensures r.Failure? <==> inputSize <= 0
    ensures r.Failure? ==> r.error == BadInputSize
    ensures r.Success? ==>
      && fresh(r.value) && r.value.weights == Zeros(inputSize) && r.value.learningRate == learningRate
      && r.value.epsilon == epsilon && r.value.gamma == gamma
    ensures audit != null ==>
      audit.lines == old(audit.lines) +
        (if r.Success? then AuditLog.Written(InitPayload(sessionId, learningRate, gamma, epsilon), sessionId, hmacKey, env) else [])
  {
    if inputSize <= 0 {
      return Failure(BadInputSize);
    }
    var o := new OptimizerRL(learningRate, Zeros(inputSize), epsilon, gamma);
    if audit != null {
      var _, _ := audit.AppendSigned(InitPayload(sessionId, learningRate, gamma, epsilon), sessionId, hmacKey, env);
    }
    r := Success(o);
  }
}
