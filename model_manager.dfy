/** The model manager: the ten-value feature vector built from a request, the filter that keeps
    the models that produced a prediction, the weighted ensemble vote over their predictions,
    the rule-based fallback used when the feature vector cannot be built, and the
    feature-importance list. The trained models themselves are not modelled: what each loaded
    model predicted is an input.
    Confidences are integer counts of tenths of a percent, weights integer counts of tenths. */
module ModelManager {
  import opened Common

  // ---------------------------------------------------------------------------------------
  // The feature vector

  /** The model feature names, in vector order. */
  const FeatureNames: seq<string> :=
    ["Credit-Short", "Credit-Long", "Pay_His", "Ti_Lim", "CPH", "CTL", "APH", "ATL", "Quar_Fluc", "Res_Fluc"]

  /** The request key behind each feature, in the same order. */
  const InputKeys: seq<string> :=
    ["creditShort", "creditLong", "paymentHistory", "timeLimitation", "cph", "ctl", "aph", "atl",
     "quarterFluctuation", "residualFluctuation"]

  /** payment_history_map.get(value, 2): the four known words, 2 for anything else; a list
      cannot be a dictionary key. */
  function PaymentHistoryCode(v: Value): (r: Result<real, Error>)
    ensures r.Failure? <==> v.TextList?
    ensures r.Success? ==> 1.0 <= r.value <= 4.0
  {
    match v
    case Text(s) =>
      Success(if s == "excellent" then 4.0
              else if s == "good" then 3.0
              else if s == "fair" then 2.0
              else if s == "poor" then 1.0
              else 2.0)
    case TextList(_) => Failure(Unhashable("paymentHistory"))
    case _ => Success(2.0)
  }

  /** One feature of the vector; an absent payment history reads as 'fair'. */
  function FeatureValue(input: Request, key: string): (r: Result<real, Error>)
    ensures key !in input ==> r == Success(if key == "paymentHistory" then 2.0 else 0.0)
  {
    if key == "paymentHistory" then PaymentHistoryCode(Get(input, key, Text("fair")))
    else ReadNumber(input, key)
  }

  lemma PaymentHistoryOrder()
    ensures PaymentHistoryCode(Text("excellent")) == Success(4.0)
    ensures PaymentHistoryCode(Text("good")) == Success(3.0)
    ensures PaymentHistoryCode(Text("fair")) == Success(2.0)
    ensures PaymentHistoryCode(Text("poor")) == Success(1.0)
    ensures PaymentHistoryCode(Text("unknown")) == Success(2.0)
  {
  }

  /** Any value that is not a list and not one of the four known words reads as 2: another
      word, a number, a boolean or null all miss the dictionary. */
  lemma PaymentHistoryDefault(v: Value)
    requires !v.TextList?
    requires !(v.Text? && v.s in ["excellent", "good", "fair", "poor"])
    ensures PaymentHistoryCode(v) == Success(2.0)
  {
  }

  /** Every feature of the vector converts. */
  ghost predicate Preprocessable(input: Request)
  {
    forall i :: 0 <= i < |InputKeys| ==> FeatureValue(input, InputKeys[i]).Success?
  }

  /** `features` is the vector of `input`: ten values in the fixed key order. */
  ghost predicate IsFeatureVector(input: Request, features: seq<real>)
  {
    && |features| == |FeatureNames|
    && forall i :: 0 <= i < |InputKeys| ==>
         FeatureValue(input, InputKeys[i]).Success? && features[i] == FeatureValue(input, InputKeys[i]).value
  }

  /** The feature loop: appends one value per mapped key, failing at the first bad one. */
  method PreprocessInput(input: Request) returns (r: Result<seq<real>, Error>)
    ensures r.Success? <==> Preprocessable(input)
    ensures r.Success? ==> IsFeatureVector(input, r.value)
  {
    var features: seq<real> := [];
    var i := 0;
    while i < |InputKeys|
      invariant 0 <= i <= |InputKeys|
      invariant |features| == i
      invariant forall j :: 0 <= j < i ==>
        FeatureValue(input, InputKeys[j]).Success? && features[j] == FeatureValue(input, InputKeys[j]).value
    {
      var value :- FeatureValue(input, InputKeys[i]);
      features := features + [value];
      i := i + 1;
    }
    return Success(features);
  }

  /** An empty request gives the vector with 2 for the payment history and 0 elsewhere. */
  lemma EmptyInputVector()
    ensures Preprocessable(map[])
    ensures IsFeatureVector(map[], [0.0, 0.0, 2.0, 0.0, 0.0, 0.0, 0.0, 0.0, 0.0, 0.0])
  {
  }

  // ---------------------------------------------------------------------------------------
  // Collecting the per-model predictions

  /** What one loaded model returned: a prediction (None when it had none or raised) and
      its confidence, already rounded to tenths. */
  datatype ModelOutput = ModelOutput(model: string, prediction: Option<string>, confidence: int)

  /** One entry of the `predictions` dictionary. */
  datatype ModelVote = ModelVote(model: string, prediction: string, confidence: int)

  /** The models that produced a prediction, in model order. */
  function Kept(outputs: seq<ModelOutput>): (kept: seq<ModelVote>)
    ensures |kept| <= |outputs|
    ensures forall i :: 0 <= i < |kept| ==>
      ModelOutput(kept[i].model, Some(kept[i].prediction), kept[i].confidence) in outputs
  {
    if outputs == [] then []
    else
      var o := outputs[|outputs| - 1];
      Kept(outputs[..|outputs| - 1])
        + (if o.prediction.Some? then [ModelVote(o.model, o.prediction.value, o.confidence)] else [])
  }

  /** The filtering loop of predict_all_models. */
  method CollectPredictions(outputs: seq<ModelOutput>) returns (predictions: seq<ModelVote>)
    ensures predictions == Kept(outputs)
  {
    predictions := [];
    var i := 0;
    while i < |outputs|
      invariant 0 <= i <= |outputs|
      invariant predictions == Kept(outputs[..i])
    {
      var o := outputs[i];
      if o.prediction.Some? {
        predictions := predictions + [ModelVote(o.model, o.prediction.value, o.confidence)];
      }
      assert outputs[..i + 1][..i] == outputs[..i];
      i := i + 1;
    }
    assert outputs[..i] == outputs;
  }

  /** A vote is kept exactly when its model produced that prediction. */
  lemma {:induction false} KeptExactly(outputs: seq<ModelOutput>, v: ModelVote)
    ensures v in Kept(outputs) <==> ModelOutput(v.model, Some(v.prediction), v.confidence) in outputs
  {
    if outputs != [] {
      var init := outputs[..|outputs| - 1];
      KeptExactly(init, v);
      assert outputs == init + [outputs[|outputs| - 1]];
    }
  }

  // ---------------------------------------------------------------------------------------
  // The weighted ensemble vote

  /** The model weights in tenths; knn, mlp and any other name weigh 0.1. */
  function Weight(model: string): (w: nat)
    ensures 1 <= w <= 4
    ensures w > 1 <==> model in ["xgboost", "random_forest", "logistic"]
  {
    if model == "xgboost" then 4
    else if model == "random_forest" then 3
    else if model == "logistic" then 2
    else if model == "knn" then 1
    else if model == "mlp" then 1
    else 1
  }

  /** A vote takes part in the ensemble when its prediction names one of the three classes. */
  predicate Counted(v: ModelVote)
  {
    ParseLabel(v.prediction).Some?
  }

  /** The accumulated weight of class c. */
  function Tally(votes: seq<ModelVote>, c: Label): (t: nat)
    ensures t <= 4 * |votes|
  {
    if votes == [] then 0
    else
      var v := votes[|votes| - 1];
      Tally(votes[..|votes| - 1], c) + (if ParseLabel(v.prediction) == Some(c) then Weight(v.model) else 0)
  }

  /** A class has no weight exactly when no vote names it. */
  lemma {:induction false} TallyZero(votes: seq<ModelVote>, c: Label)
    ensures Tally(votes, c) == 0 <==> forall i :: 0 <= i < |votes| ==> ParseLabel(votes[i].prediction) != Some(c)
  {
    if votes != [] {
      var init := votes[..|votes| - 1];
      TallyZero(init, c);
      assert forall i :: 0 <= i < |init| ==> init[i] == votes[i];
    }
  }

  /** total_weight: the weight of the counted votes. */
  function CountedWeight(votes: seq<ModelVote>): (w: nat)
    ensures w <= 4 * |votes|
  {
    if votes == [] then 0
    else
      var v := votes[|votes| - 1];
      CountedWeight(votes[..|votes| - 1]) + (if Counted(v) then Weight(v.model) else 0)
  }

  /** total_confidence: the weighted sum of the counted confidences. */
  function WeightedSum(votes: seq<ModelVote>): (sum: int)
    ensures CountedWeight(votes) == 0 ==> sum == 0
  {
    if votes == [] then 0
    else
      var v := votes[|votes| - 1];
      WeightedSum(votes[..|votes| - 1]) + (if Counted(v) then v.confidence * Weight(v.model) else 0)
  }

  /** max(class_votes, key=class_votes.get): a class with the largest tally, the first in the
      order Very_Good, Normal, Very_Bad among equals. */
  function Plurality(veryGood: int, normal: int, veryBad: int): (w: Label)
    ensures w == VeryGood <==> veryGood >= normal && veryGood >= veryBad
    ensures w == Normal <==> normal > veryGood && normal >= veryBad
    ensures w == VeryBad <==> veryBad > veryGood && veryBad > normal
  {
    if veryGood >= normal && veryGood >= veryBad then VeryGood
    else if normal >= veryBad then Normal
    else VeryBad
  }

  /** round(num / den, 1) on a quotient in tenths: the nearest integer, ties to even. */
  function RoundHalfEven(num: int, den: int): (q: int)
    requires den > 0
    ensures den * (2 * q - 1) <= 2 * num <= den * (2 * q + 1)
    ensures 2 * num == den * (2 * q - 1) || 2 * num == den * (2 * q + 1) ==> q % 2 == 0
  {
    var q, rem := num / den, num % den;
    DivisionSplits(num, den, q, rem);
    if 2 * rem > den || (2 * rem == den && q % 2 == 1) then q + 1 else q
  }

  /** The Euclidean quotient and remainder, stated linearly for the rounding bounds. */
  lemma DivisionSplits(num: int, den: int, q: int, rem: int)
    requires den > 0 && q == num / den && rem == num % den
    ensures 0 <= rem < den
    ensures den * (2 * q - 1) == 2 * num - 2 * rem - den
    ensures den * (2 * q + 1) == 2 * num - 2 * rem + den
    ensures den * (2 * (q + 1) - 1) == 2 * num - 2 * rem + den
    ensures den * (2 * (q + 1) + 1) == 2 * num - 2 * rem + 3 * den
  {
    assert num == den * q + rem;
    Distribute(den, 2 * q, -1);
    Distribute(den, 2 * q, 1);
    Distribute(den, 2 * q, 3);
    assert den * (2 * q) == 2 * (den * q);
  }

  lemma Distribute(a: int, x: int, y: int)
    ensures a * (x + y) == a * x + a * y
  {
  }

  /** The ensemble's answer: Normal at 75.0 for no predictions; otherwise the plurality class
      and the weighted mean confidence, or 75.0 when no vote names a class. */
  function Ensemble(votes: seq<ModelVote>): (r: (Label, int))
    ensures votes != [] ==> forall c :: Tally(votes, c) <= Tally(votes, r.0)
    ensures CountedWeight(votes) == 0 ==> r.1 == 750
  {
    if votes == [] then (Normal, 750)
    else
      var winner := Plurality(Tally(votes, VeryGood), Tally(votes, Normal), Tally(votes, VeryBad));
      PluralityIsMaximal(votes, winner);
      (winner,
       if CountedWeight(votes) > 0 then RoundHalfEven(WeightedSum(votes), CountedWeight(votes)) else 750)
  }

  lemma PluralityIsMaximal(votes: seq<ModelVote>, winner: Label)
    requires winner == Plurality(Tally(votes, VeryGood), Tally(votes, Normal), Tally(votes, VeryBad))
    ensures forall c :: Tally(votes, c) <= Tally(votes, winner)
  {
    forall c ensures Tally(votes, c) <= Tally(votes, winner) {
      match c
      case VeryGood =>
      case Normal =>
      case VeryBad =>
    }
  }

  /** ensemble_prediction: one pass over the predictions accumulating the class votes, the
      weighted confidence and the total weight. */
  method EnsemblePrediction(predictions: seq<ModelVote>) returns (prediction: Label, confidence: int)
    ensures (prediction, confidence) == Ensemble(predictions)
  {
    if |predictions| == 0 {
      return Normal, 750;
    }
    var classVotes: map<Label, int> := map[VeryGood := 0, Normal := 0, VeryBad := 0];
    var totalConfidence := 0;
    var totalWeight := 0;
    var i := 0;
    while i < |predictions|
      invariant 0 <= i <= |predictions|
      invariant classVotes.Keys == {VeryGood, Normal, VeryBad}
      invariant forall c :: c in classVotes ==> classVotes[c] == Tally(predictions[..i], c)
      invariant totalConfidence == WeightedSum(predictions[..i])
      invariant totalWeight == CountedWeight(predictions[..i])
    {
      var entry := predictions[i];
      var weight := Weight(entry.model);
      var cls := ParseLabel(entry.prediction);
      if cls.Some? {
        classVotes := classVotes[cls.value := classVotes[cls.value] + weight];
        totalConfidence := totalConfidence + entry.confidence * weight;
        totalWeight := totalWeight + weight;
      }
      PrefixStep(predictions, i);
      i := i + 1;
    }
    assert predictions[..i] == predictions;
    prediction := Plurality(classVotes[VeryGood], classVotes[Normal], classVotes[VeryBad]);
    confidence := if totalWeight > 0 then RoundHalfEven(totalConfidence, totalWeight) else 750;
  }

  /** What one more vote adds to the tallies, the counted weight and the weighted sum. */
  lemma PrefixStep(votes: seq<ModelVote>, i: nat)
    requires i < |votes|
    ensures forall c :: (Tally(votes[..i + 1], c)
      == Tally(votes[..i], c) + (if ParseLabel(votes[i].prediction) == Some(c) then Weight(votes[i].model) else 0))
    ensures CountedWeight(votes[..i + 1])
      == CountedWeight(votes[..i]) + (if Counted(votes[i]) then Weight(votes[i].model) else 0)
    ensures WeightedSum(votes[..i + 1])
      == WeightedSum(votes[..i]) + (if Counted(votes[i]) then votes[i].confidence * Weight(votes[i].model) else 0)
  {
    assert votes[..i + 1][..i] == votes[..i];
  }

  /** Every counted vote adds its weight to exactly one class. */
  lemma {:induction false} TalliesSumToCountedWeight(votes: seq<ModelVote>)
    ensures CountedWeight(votes) == Tally(votes, VeryGood) + Tally(votes, Normal) + Tally(votes, VeryBad)
  {
    if votes != [] {
      TalliesSumToCountedWeight(votes[..|votes| - 1]);
    }
  }

  /** A class holding more than half of the counted weight wins the vote. */
  lemma MajorityWins(votes: seq<ModelVote>, c: Label)
    requires 2 * Tally(votes, c) > CountedWeight(votes)
    ensures Ensemble(votes).0 == c
  {
    TalliesSumToCountedWeight(votes);
  }

  /** The two empty cases: no predictions at all, and predictions none of which names a class. */
  lemma {:induction false} NothingCounted(votes: seq<ModelVote>)
    requires forall i :: 0 <= i < |votes| ==> !Counted(votes[i])
    ensures CountedWeight(votes) == 0 && WeightedSum(votes) == 0
    ensures votes != [] ==> Ensemble(votes) == (VeryGood, 750)
  {
    if votes != [] {
      NothingCounted(votes[..|votes| - 1]);
    }
    TalliesSumToCountedWeight(votes);
  }

  lemma EmptyEnsemble()
    ensures Ensemble([]) == (Normal, 750)
  {
  }

  lemma MulMonotone(a: int, b: int, w: int)
    requires a <= b && w >= 0
    ensures a * w <= b * w
  {
  }

  /** The weighted sum lies between the smallest and the largest counted confidence, times
      the counted weight. */
  lemma {:induction false} WeightedSumBounds(votes: seq<ModelVote>, lo: int, hi: int)
    requires forall i :: 0 <= i < |votes| && Counted(votes[i]) ==> lo <= votes[i].confidence <= hi
    ensures lo * CountedWeight(votes) <= WeightedSum(votes) <= hi * CountedWeight(votes)
  {
    if votes != [] {
      var init, v := votes[..|votes| - 1], votes[|votes| - 1];
      WeightedSumBounds(init, lo, hi);
      var w := if Counted(v) then Weight(v.model) else 0;
      var t := if Counted(v) then v.confidence * Weight(v.model) else 0;
      assert CountedWeight(votes) == CountedWeight(init) + w;
      assert WeightedSum(votes) == WeightedSum(init) + t;
      if Counted(v) {
        assert lo <= v.confidence <= hi;
        MulMonotone(lo, v.confidence, w);
        MulMonotone(v.confidence, hi, w);
      }
      assert lo * w <= t <= hi * w;
      Distribute(lo, CountedWeight(init), w);
      Distribute(hi, CountedWeight(init), w);
    }
  }

  /** Rounding a quotient that lies in [lo, hi] stays in [lo, hi]. */
  lemma RoundWithin(num: int, den: int, lo: int, hi: int)
    requires den > 0 && lo * den <= num <= hi * den
    ensures lo <= RoundHalfEven(num, den) <= hi
  {
    var q := RoundHalfEven(num, den);
    if q > hi {
      MulMonotone(2 * hi + 1, 2 * q - 1, den);
    }
    if q < lo {
      MulMonotone(2 * q + 1, 2 * lo - 1, den);
    }
  }

  /** The ensemble confidence is a weighted mean: it lies between the smallest and the largest
      confidence of the votes that name a class. */
  lemma EnsembleConfidenceWithin(votes: seq<ModelVote>, lo: int, hi: int)
    requires CountedWeight(votes) > 0
    requires forall i :: 0 <= i < |votes| && Counted(votes[i]) ==> lo <= votes[i].confidence <= hi
    ensures lo <= Ensemble(votes).1 <= hi
  {
    WeightedSumBounds(votes, lo, hi);
    RoundWithin(WeightedSum(votes), CountedWeight(votes), lo, hi);
  }

  /** xgboost alone for Very_Good loses to the three others for Normal (0.4 against 0.6). */
  lemma HeavierDissentWins()
    ensures Ensemble([ModelVote("xgboost", "Very_Good", 900), ModelVote("random_forest", "Normal", 800),
                      ModelVote("logistic", "Normal", 800), ModelVote("knn", "Normal", 800)]) == (Normal, 840)
  {
    var a, b, c, d := ModelVote("xgboost", "Very_Good", 900), ModelVote("random_forest", "Normal", 800),
                      ModelVote("logistic", "Normal", 800), ModelVote("knn", "Normal", 800);
    assert [a][..0] == [] && [a, b][..1] == [a] && [a, b, c][..2] == [a, b] && [a, b, c, d][..3] == [a, b, c];
    assert Tally([a], VeryGood) == 4 && Tally([a], Normal) == 0 && Tally([a], VeryBad) == 0;
    assert CountedWeight([a]) == 4 && WeightedSum([a]) == 3600;
    assert Totals([a, b]) == (4, 3, 0, 7, 6000);
    assert Totals([a, b, c]) == (4, 5, 0, 9, 7600);
    assert Totals([a, b, c, d]) == (4, 6, 0, 10, 8400);
  }

  /** The three class tallies, the counted weight and the weighted sum, side by side. */
  function Totals(votes: seq<ModelVote>): (int, int, int, int, int)
  {
    (Tally(votes, VeryGood), Tally(votes, Normal), Tally(votes, VeryBad), CountedWeight(votes), WeightedSum(votes))
  }

  /** A dead heat goes to the earlier class: xgboost for Very_Good against random_forest and knn
      for Normal is 0.4 against 0.4, and Very_Good wins. */
  lemma TieGoesToEarlierClass()
    ensures Ensemble([ModelVote("xgboost", "Very_Good", 900), ModelVote("random_forest", "Normal", 800),
                      ModelVote("knn", "Normal", 700)]).0 == VeryGood
  {
    var a, b, c := ModelVote("xgboost", "Very_Good", 900), ModelVote("random_forest", "Normal", 800),
                   ModelVote("knn", "Normal", 700);
    assert [a][..0] == [] && [a, b][..1] == [a] && [a, b, c][..2] == [a, b];
    assert Tally([a], VeryGood) == 4 && Tally([a], Normal) == 0 && Tally([a], VeryBad) == 0;
    assert CountedWeight([a]) == 4 && WeightedSum([a]) == 3600;
    assert Totals([a, b]) == (4, 3, 0, 7, 6000);
    assert Totals([a, b, c]) == (4, 4, 0, 8, 6700);
  }

  // ---------------------------------------------------------------------------------------
  // The fallback scorer

  /** A credit score band: above 700, above 600, otherwise. */
  function CreditBand(x: real): int
  {
    if x > 700.0 then 30 else if x > 600.0 then 20 else 10
  }

  /** The payment-history word, compared with == (anything else scores 5). */
  function HistoryPoints(v: Value): int
  {
    if v == Text("excellent") then 25
    else if v == Text("good") then 20
    else if v == Text("fair") then 10
    else 5
  }

  function CphBand(x: real): int
  {
    if x > 0.8 then 15 else if x > 0.6 then 10 else 5
  }

  /** The fallback's point score; an absent payment history reads as 'fair'. */
  function FallbackScore(input: Request): (r: Result<int, Error>)
    ensures r.Success? ==> 30 <= r.value <= 100
    ensures r.Success? <==> Numeric(input, "creditShort") && Numeric(input, "creditLong") && Numeric(input, "cph")
  {
    var creditShort :- ReadNumber(input, "creditShort");
    var creditLong :- ReadNumber(input, "creditLong");
    var cph :- ReadNumber(input, "cph");
    var paymentHistory := Get(input, "paymentHistory", Text("fair"));
    Success(CreditBand(creditShort) + CreditBand(creditLong) + HistoryPoints(paymentHistory) + CphBand(cph))
  }

  /** The result of predict_all_models, or of the fallback in its place. */
  datatype AllPredictions = AllPredictions(
    individual: seq<ModelVote>,
    finalPrediction: Label,
    finalConfidence: int,
    featureValues: seq<real>)

  /** The fixed confidence of each fallback class. */
  function FallbackConfidence(c: Label): int
  {
    match c
    case VeryGood => 880
    case Normal => 750
    case VeryBad => 620
  }

  /** fallback_prediction: a single 'fallback' entry equal to the final result, no features. */
  function FallbackPrediction(input: Request): (r: Result<AllPredictions, Error>)
    ensures r.Success? <==> FallbackScore(input).Success?
    ensures r.Success? ==>
      && r.value.individual == [ModelVote("fallback", r.value.finalPrediction.Name(), r.value.finalConfidence)]
      && r.value.featureValues == []
      && r.value.finalConfidence == FallbackConfidence(r.value.finalPrediction)
      && (r.value.finalPrediction == VeryGood <==> FallbackScore(input).value >= 80)
      && (r.value.finalPrediction == VeryBad <==> FallbackScore(input).value < 50)
  {
    var score :- FallbackScore(input);
    var prediction := if score >= 80 then VeryGood else if score >= 50 then Normal else VeryBad;
    var confidence := FallbackConfidence(prediction);
    Success(AllPredictions([ModelVote("fallback", prediction.Name(), confidence)], prediction, confidence, []))
  }

  /** The fallback reads credit scores on a 300-850 scale: on the 1 / 0 / -1 scale the endpoint
      uses (anything up to 600) it scores at most 60 and never answers Very_Good. */
  lemma FallbackCapsLowCreditScale(input: Request)
    requires FallbackScore(input).Success?
    requires ReadNumber(input, "creditShort").value <= 600.0 && ReadNumber(input, "creditLong").value <= 600.0
    ensures FallbackScore(input).value <= 60
    ensures FallbackPrediction(input).value.finalPrediction != VeryGood
  {
  }

  /** predict_all_models: the feature vector, the kept predictions and their ensemble; when the
      vector cannot be built, the fallback, whose own conversion errors propagate. */
  method PredictAllModels(input: Request, outputs: seq<ModelOutput>) returns (r: Result<AllPredictions, Error>)
    ensures !Preprocessable(input) ==> r == FallbackPrediction(input)
    ensures Preprocessable(input) ==>
      && r.Success?
      && r.value.individual == Kept(outputs)
      && (r.value.finalPrediction, r.value.finalConfidence) == Ensemble(Kept(outputs))
      && IsFeatureVector(input, r.value.featureValues)
  {
    var features := PreprocessInput(input);
    if features.Failure? {
      return FallbackPrediction(input);
    }
    var predictions := CollectPredictions(outputs);
    var finalPrediction, finalConfidence := EnsemblePrediction(predictions);
    return Success(AllPredictions(predictions, finalPrediction, finalConfidence, features.value));
  }

  // ---------------------------------------------------------------------------------------
  // Feature importance

  datatype Importance = Importance(feature: string, importance: real)

  /** The list returned for a model that is not loaded or has no `feature_importances_`. */
  const DefaultImportance: seq<Importance> := [
    Importance("Credit-Short", 0.285), Importance("Credit-Long", 0.267), Importance("CPH", 0.198),
    Importance("Pay_His", 0.156), Importance("APH", 0.094)]

  predicate SortedByImportance(s: seq<Importance>)
  {
    forall i, j :: 0 <= i < j < |s| ==> s[i].importance >= s[j].importance
  }

  lemma DefaultImportanceSorted()
    ensures SortedByImportance(DefaultImportance) && |DefaultImportance| == 5
  {
  }

  /** Places x before the first entry that is not more important than it: x comes earlier in
      the input than every entry of s, so equal importances keep their input order. */
  function InsertByImportance(x: Importance, s: seq<Importance>): (r: seq<Importance>)
    ensures multiset(r) == multiset(s) + multiset{x}
    ensures |r| == |s| + 1
  {
    if s == [] || s[0].importance <= x.importance then [x] + s
    else
      assert s == [s[0]] + s[1..];
      [s[0]] + InsertByImportance(x, s[1..])
  }

  /** Inserting into a sorted list keeps it sorted, and the head is x or the old head. */
  lemma {:induction false} InsertSorted(x: Importance, s: seq<Importance>)
    requires SortedByImportance(s)
    ensures SortedByImportance(InsertByImportance(x, s))
    ensures var r := InsertByImportance(x, s); r[0] == x || (s != [] && r[0] == s[0])
  {
    if s == [] || s[0].importance <= x.importance {
      PrependSorted(x, s);
    } else {
      InsertSorted(x, s[1..]);
      PrependSorted(s[0], InsertByImportance(x, s[1..]));
    }
  }

  /** An entry at least as important as the head of a sorted list may go in front of it. */
  lemma PrependSorted(a: Importance, r: seq<Importance>)
    requires SortedByImportance(r) && (r == [] || r[0].importance <= a.importance)
    ensures SortedByImportance([a] + r)
  {
    assert forall k :: 0 <= k < |r| ==> r[k].importance <= a.importance;
  }

  /** list.sort(key=importance, reverse=True): a stable sort into non-increasing importance. */
  function SortByImportance(s: seq<Importance>): (r: seq<Importance>)
    ensures SortedByImportance(r)
    ensures multiset(r) == multiset(s)
    ensures |r| == |s|
  {
    if s == [] then []
    else
      assert s == [s[0]] + s[1..];
      InsertSorted(s[0], SortByImportance(s[1..]));
      InsertByImportance(s[0], SortByImportance(s[1..]))
  }

  /** The first n importances paired with the feature names. */
  function Named(importances: seq<real>, n: nat): (r: seq<Importance>)
    requires n <= |importances| && n <= |FeatureNames|
    ensures |r| == n
    ensures forall i :: 0 <= i < n ==> r[i] == Importance(FeatureNames[i], importances[i])
  {
    if n == 0 then [] else Named(importances, n - 1) + [Importance(FeatureNames[n - 1], importances[n - 1])]
  }

  function Min(a: nat, b: nat): nat
  {
    if a <= b then a else b
  }

  /** get_feature_importance: the default list unless the model is loaded and has
      `feature_importances_`; then at most the first ten, named, sorted into non-increasing
      importance (an empty importance list gives an empty answer). */
  method GetFeatureImportance(modelName: string, models: map<string, Option<seq<real>>>)
    returns (r: seq<Importance>)
    ensures modelName !in models || models[modelName].None? ==> r == DefaultImportance
    ensures modelName in models && models[modelName].Some? ==>
      var importances := models[modelName].value;
      var n := Min(|importances|, |FeatureNames|);
      && |r| == n
      && SortedByImportance(r)
      && multiset(r) == multiset(Named(importances, n))
      && r == SortByImportance(Named(importances, n))
  {
    if modelName !in models || models[modelName].None? {
      return DefaultImportance;
    }
    var importances := models[modelName].value;
    var featureImportance: seq<Importance> := [];
    var i := 0;
    while i < |importances|
      invariant 0 <= i <= |importances|
      invariant featureImportance == Named(importances, Min(i, |FeatureNames|))
    {
      if i < |FeatureNames| {
        featureImportance := featureImportance + [Importance(FeatureNames[i], importances[i])];
      }
      i := i + 1;
    }
    r := SortByImportance(featureImportance);
  }
}
