/** The prediction endpoint of the web backend: the rule scorer that turns seven applicant
    features into a point score, a class and a confidence; the simulated per-model table built
    from it; the required-field check and field renaming of the endpoint; the loan range and
    the qualitative factors attached to the answer.
    Confidences are integer counts of tenths of a percent (75.0 is 750). */
module LoanApi {
  import opened Common

  /** The seven scored features, after float() conversion. */
  datatype Features = Features(
    creditShort: real, creditLong: real, cph: real, ctl: real,
    aph: real, atl: real, quarterFluctuation: real)

  /** The request keys the scorer reads, in the order it reads them. */
  const ScoredFields: seq<string> :=
    ["creditShort", "creditLong", "cph", "ctl", "aph", "atl", "quarterFluctuation"]

  /** Every scored key converts. */
  predicate AllNumeric(data: Request)
  {
    && Numeric(data, "creditShort") && Numeric(data, "creditLong") && Numeric(data, "cph")
    && Numeric(data, "ctl") && Numeric(data, "aph") && Numeric(data, "atl")
    && Numeric(data, "quarterFluctuation")
  }

  /** The scorer's seven reads; the first value float() rejects raises. */
  function ReadFeatures(data: Request): (r: Result<Features, Error>)
    ensures r.Success? <==> AllNumeric(data)
    ensures r.Failure? ==> r.error.NotANumber? && r.error.field in ScoredFields
                           && !Numeric(data, r.error.field)
  {
    var creditShort :- ReadNumber(data, "creditShort");
    var creditLong :- ReadNumber(data, "creditLong");
    var cph :- ReadNumber(data, "cph");
    var ctl :- ReadNumber(data, "ctl");
    var aph :- ReadNumber(data, "aph");
    var atl :- ReadNumber(data, "atl");
    var quarterFluctuation :- ReadNumber(data, "quarterFluctuation");
    Success(Features(creditShort, creditLong, cph, ctl, aph, atl, quarterFluctuation))
  }

  // ---------------------------------------------------------------------------------------
  // The point tables

  /** A feature on the 1 / 0 / -1 scale: exactly 1, exactly 0, anything else. */
  function LevelPoints(x: real, good: int, normal: int, poor: int): int
  {
    if x == 1.0 then good else if x == 0.0 then normal else poor
  }

  /** An average feature (aph, atl): exactly 1, otherwise non-negative, otherwise negative. */
  function AveragePoints(x: real): int
  {
    if x == 1.0 then 10 else if x >= 0.0 then 5 else 1
  }

  /** The quarterly-fluctuation bonus or penalty. */
  function FluctuationPoints(x: real): int
  {
    if x > 3.0 then 5 else if x >= 0.0 then 2 else -2
  }

  /** The summed point score: at least 5+5+2+2+1+1-2, at most 25+25+20+15+10+10+5. */
  function Score(f: Features): (s: int)
    ensures 14 <= s <= 110
  {
    LevelPoints(f.creditShort, 25, 15, 5) + LevelPoints(f.creditLong, 25, 15, 5)
    + LevelPoints(f.cph, 20, 10, 2) + LevelPoints(f.ctl, 15, 8, 2)
    + AveragePoints(f.aph) + AveragePoints(f.atl)
    + FluctuationPoints(f.quarterFluctuation)
  }

  lemma ScoreBoundsAttained()
    ensures Score(Features(1.0, 1.0, 1.0, 1.0, 1.0, 1.0, 5.0)) == 110
    ensures Score(Features(-1.0, -1.0, -1.0, -1.0, -1.0, -1.0, -1.0)) == 14
  {
  }

  /** The class thresholds on the score. */
  function ClassOf(score: int): (c: Label)
    ensures c == VeryGood <==> score >= 85
    ensures c == Normal <==> 50 <= score < 85
    ensures c == VeryBad <==> score < 50
  {
    if score >= 85 then VeryGood else if score >= 50 then Normal else VeryBad
  }

  lemma ClassMonotone(s1: int, s2: int)
    requires s1 <= s2
    ensures ClassOf(s1).Rank() <= ClassOf(s2).Rank()
  {
  }

  /** The per-class confidence formula, in tenths, before the cap. The three formulas give
      the classes disjoint bands: at least 90.0 for Very_Good, 75.0 to 85.2 for Normal (on
      the scores of that class) and at most 69.8 for Very_Bad. */
  function RawConfidence(score: int): (c: int)
    ensures ClassOf(score) == VeryGood ==> c >= 900
    ensures ClassOf(score) == Normal ==> 750 <= c <= 852
    ensures ClassOf(score) == VeryBad ==> c <= 698
  {
    if score >= 85 then 900 + 2 * (score - 85)
    else if score >= 50 then 750 + 3 * (score - 50)
    else 600 + 2 * score
  }

  /** min(confidence, 95.0). On every score the scorer can produce the cap changes nothing. */
  function FinalConfidence(score: int): (c: int)
    ensures c <= 950
    ensures score <= 110 ==> c == RawConfidence(score)
    ensures 14 <= score <= 110 ==> 628 <= c <= 950
  {
    var raw := RawConfidence(score);
    if raw < 950 then raw else 950
  }

  /** Over the reachable scores the confidence strictly increases with the score, across the
      class boundaries too (69.8 < 75.0 and 85.2 < 90.0). */
  lemma ConfidenceIncreasing(s1: int, s2: int)
    requires s1 < s2 <= 110
    ensures FinalConfidence(s1) < FinalConfidence(s2)
  {
  }

  lemma ConfidenceBoundaries()
    ensures ClassOf(85) == VeryGood && FinalConfidence(85) == 900
    ensures ClassOf(84) == Normal && FinalConfidence(84) == 852
    ensures ClassOf(50) == Normal && FinalConfidence(50) == 750
    ensures ClassOf(49) == VeryBad && FinalConfidence(49) == 698
    ensures ClassOf(110) == VeryGood && FinalConfidence(110) == 950
    ensures ClassOf(14) == VeryBad && FinalConfidence(14) == 628
  {
  }

  // ---------------------------------------------------------------------------------------
  // The simulated per-model table

  /** The model names that get a simulated entry, in the order the scorer tests them. */
  const SimulatedModels: seq<string> := ["xgboost", "random_forest", "logistic", "knn"]

  /** Each simulated model's confidence offset, in tenths. */
  function Offset(model: string): (o: int)
    ensures -30 <= o <= 20
    ensures o != 0 <==> model in SimulatedModels
    ensures o > 0 <==> model == "xgboost"
  {
    if model == "xgboost" then 20
    else if model == "random_forest" then -10
    else if model == "logistic" then -30
    else if model == "knn" then -20
    else 0
  }

  /** One `{name}_prediction` / `{name}_confidence` pair of the result. */
  datatype ModelResult = ModelResult(prediction: Label, confidence: int)

  /** The scorer's result dictionary; `models` holds the per-model pairs keyed by model name. */
  datatype Prediction = Prediction(
    finalPrediction: Label,
    finalConfidence: int,
    processingTimeMs: int,
    serviceType: Value,
    modelsUsed: Value,
    models: map<string, ModelResult>)

  /** The selection may be tested with `in`: a list of names or a string. */
  predicate IsSelection(selected: Value)
  {
    selected.TextList? || selected.Text?
  }

  /** `model in selected_models` */
  predicate Selects(selected: Value, model: string)
  {
    Contains(selected, model, "selectedModels") == Success(true)
  }

  /** The pair for `model` is present exactly when the model is selected, and then copies the
      class with the model's own offset confidence, not capped. */
  ghost predicate PairFor(models: map<string, ModelResult>, model: string, prediction: Label, confidence: int,
                         selected: Value)
  {
    && (model in models <==> Selects(selected, model))
    && (model in models ==> models[model] == ModelResult(prediction, confidence + Offset(model)))
  }

  /** The per-model part of the result: exactly the selected simulated models have a pair. */
  ghost predicate PairsFor(models: map<string, ModelResult>, prediction: Label, confidence: int, selected: Value)
  {
    && models.Keys <= {"xgboost", "random_forest", "logistic", "knn"}
    && PairFor(models, "xgboost", prediction, confidence, selected)
    && PairFor(models, "random_forest", prediction, confidence, selected)
    && PairFor(models, "logistic", prediction, confidence, selected)
    && PairFor(models, "knn", prediction, confidence, selected)
  }

  /** What the scorer reports for a score: the class and capped confidence, the fixed timing,
      the two echoes, and a pair for exactly the selected simulated models; `mlp` and
      unknown names add nothing. */
  ghost predicate Reports(p: Prediction, score: int, serviceType: Value, selected: Value)
  {
    && p.finalPrediction == ClassOf(score)
    && p.finalConfidence == FinalConfidence(score)
    && p.processingTimeMs == 150
    && p.serviceType == serviceType
    && p.modelsUsed == selected
    && PairsFor(p.models, ClassOf(score), FinalConfidence(score), selected)
  }

  /** The scorer's point accumulation, one feature at a time. */
  method AccumulateScore(f: Features) returns (score: int)
    ensures score == Score(f)
  {
    score := 0;
    if f.creditShort == 1.0 { score := score + 25; }
    else if f.creditShort == 0.0 { score := score + 15; }
    else { score := score + 5; }
    assert score == LevelPoints(f.creditShort, 25, 15, 5);
    if f.creditLong == 1.0 { score := score + 25; }
    else if f.creditLong == 0.0 { score := score + 15; }
    else { score := score + 5; }
    ghost var partial := score;
    assert partial == LevelPoints(f.creditShort, 25, 15, 5) + LevelPoints(f.creditLong, 25, 15, 5);
    if f.cph == 1.0 { score := score + 20; }
    else if f.cph == 0.0 { score := score + 10; }
    else { score := score + 2; }
    assert score == partial + LevelPoints(f.cph, 20, 10, 2);
    partial := score;
    if f.ctl == 1.0 { score := score + 15; }
    else if f.ctl == 0.0 { score := score + 8; }
    else { score := score + 2; }
    assert score == partial + LevelPoints(f.ctl, 15, 8, 2);
    partial := score;
    if f.aph == 1.0 { score := score + 10; }
    else if f.aph >= 0.0 { score := score + 5; }
    else { score := score + 1; }
    assert score == partial + AveragePoints(f.aph);
    partial := score;
    if f.atl == 1.0 { score := score + 10; }
    else if f.atl >= 0.0 { score := score + 5; }
    else { score := score + 1; }
    assert score == partial + AveragePoints(f.atl);
    partial := score;
    if f.quarterFluctuation > 3.0 { score := score + 5; }
    else if f.quarterFluctuation >= 0.0 { score := score + 2; }
    else { score := score - 2; }
    assert score == partial + FluctuationPoints(f.quarterFluctuation);
  }

  /** The scorer's class and confidence for a score, with the 95.0 cap applied last. */
  method Classify(score: int) returns (prediction: Label, confidence: int)
    ensures prediction == ClassOf(score) && confidence == FinalConfidence(score)
  {
    if score >= 85 {
      prediction, confidence := VeryGood, 900 + 2 * (score - 85);
    } else if score >= 50 {
      prediction, confidence := Normal, 750 + 3 * (score - 50);
    } else {
      prediction, confidence := VeryBad, 600 + 2 * score;
    }
    confidence := if confidence < 950 then confidence else 950;
  }

  /** `result[model + '_prediction'], result[model + '_confidence'] = prediction, confidence + offset` */
  function WithPair(p: Prediction, model: string): Prediction
  {
    p.(models := p.models[model := ModelResult(p.finalPrediction, p.finalConfidence + Offset(model))])
  }

  /** The four `if name in selected_models:` blocks of the scorer, in source order. The first
      test raises when the selection is not a list or a string; after it none can. */
  method AddSelectedPairs(result: Prediction, selected: Value) returns (r: Result<Prediction, Error>)
    requires result.models == map[]
    ensures r.Success? <==> IsSelection(selected)
    ensures r.Failure? ==> r.error == NotAContainer("selectedModels")
    ensures r.Success? ==> r.value == result.(models := r.value.models)
    ensures r.Success? ==> PairsFor(r.value.models, result.finalPrediction, result.finalConfidence, selected)
  {
    var cls, confidence := result.finalPrediction, result.finalConfidence;
    var next := result;
    var selects :- Contains(selected, "xgboost", "selectedModels");
    if selects { next := WithPair(next, "xgboost"); }
    assert next.models.Keys <= {"xgboost"};
    assert PairFor(next.models, "xgboost", cls, confidence, selected);
    selects := Contains(selected, "random_forest", "selectedModels").value;
    if selects { next := WithPair(next, "random_forest"); }
    assert next.models.Keys <= {"xgboost", "random_forest"};
    assert PairFor(next.models, "xgboost", cls, confidence, selected);
    assert PairFor(next.models, "random_forest", cls, confidence, selected);
    selects := Contains(selected, "logistic", "selectedModels").value;
    if selects { next := WithPair(next, "logistic"); }
    assert next.models.Keys <= {"xgboost", "random_forest", "logistic"};
    assert PairFor(next.models, "xgboost", cls, confidence, selected);
    assert PairFor(next.models, "random_forest", cls, confidence, selected);
    assert PairFor(next.models, "logistic", cls, confidence, selected);
    selects := Contains(selected, "knn", "selectedModels").value;
    if selects { next := WithPair(next, "knn"); }
    return Success(next);
  }

  /** The rule scorer: reads the seven features, accumulates the points, classifies, caps the
      confidence and adds a pair for each selected simulated model. */
  method SimulatePrediction(data: Request, serviceType: Value, selectedModels: Value)
    returns (r: Result<Prediction, Error>)
    ensures ReadFeatures(data).Failure? ==> r == Failure(ReadFeatures(data).error)
    ensures ReadFeatures(data).Success? && !IsSelection(selectedModels) ==>
              r == Failure(NotAContainer("selectedModels"))
    ensures r.Success? <==> ReadFeatures(data).Success? && IsSelection(selectedModels)
    ensures r.Success? ==> Reports(r.value, Score(ReadFeatures(data).value), serviceType, selectedModels)
  {
    var f :- ReadFeatures(data);
    var score := AccumulateScore(f);
    var prediction, confidence := Classify(score);
    var result := Prediction(prediction, confidence, 150, serviceType, selectedModels, map[]);
    result :- AddSelectedPairs(result, selectedModels);
    return Success(result);
  }

  /** An empty input scores 15+15+10+8+5+5+2 = 60: Normal at 78.0. */
  lemma EmptyInputIsNormal()
    ensures ReadFeatures(map[]) == Success(Features(0.0, 0.0, 0.0, 0.0, 0.0, 0.0, 0.0))
    ensures Score(Features(0.0, 0.0, 0.0, 0.0, 0.0, 0.0, 0.0)) == 60
    ensures ClassOf(60) == Normal && FinalConfidence(60) == 780
  {
  }

  /** The per-model offsets are not capped: at the top score xgboost reports 97.0. */
  lemma XgboostExceedsCap(p: Prediction, serviceType: Value)
    requires Reports(p, 110, serviceType, TextList(["xgboost"]))
    ensures "xgboost" in p.models && p.models["xgboost"].confidence == 970
    ensures p.finalConfidence == 950
  {
    assert Selects(TextList(["xgboost"]), SimulatedModels[0]);
  }

  // ---------------------------------------------------------------------------------------
  // Loan range and prediction factors

  /** The loan band for a class name; anything else is 'Unknown'. */
  function LoanRange(prediction: string): (r: string)
    ensures r == "Unknown" <==> ParseLabel(prediction).None?
  {
    if prediction == "Very_Good" then "$50,000 - $200,000"
    else if prediction == "Normal" then "$10,000 - $50,000"
    else if prediction == "Very_Bad" then "Not eligible"
    else "Unknown"
  }

  lemma LoanRangesDistinct(l1: Label, l2: Label)
    requires l1 != l2
    ensures LoanRange(l1.Name()) != LoanRange(l2.Name())
  {
  }

  datatype Rating = Excellent | Good | NeedsImprovement {
    function Name(): string {
      match this
      case Excellent => "Excellent"
      case Good => "Good"
      case NeedsImprovement => "Needs Improvement"
    }
  }

  datatype Factors = Factors(creditScore: Rating, creditPaymentHistory: Rating, avgPaymentHistory: Rating)

  /** creditScore and creditPaymentHistory: exactly 1, exactly 0, anything else. */
  function LevelRating(x: real): (r: Rating)
    ensures r == Excellent <==> x == 1.0
    ensures r == Good <==> x == 0.0
  {
    if x == 1.0 then Excellent else if x == 0.0 then Good else NeedsImprovement
  }

  /** avgPaymentHistory: exactly 1, then at least 0.7, anything else. */
  function AverageRating(x: real): (r: Rating)
    ensures r == Excellent <==> x == 1.0
    ensures r != NeedsImprovement ==> x >= 0.7
  {
    if x == 1.0 then Excellent else if x >= 0.7 then Good else NeedsImprovement
  }

  /** The factors, read from the same dictionary the scorer was given. */
  function PredictionFactors(data: Request): (r: Result<Factors, Error>)
    ensures r.Success? <==> Numeric(data, "creditShort") && Numeric(data, "cph") && Numeric(data, "aph")
  {
    var creditShort :- ReadNumber(data, "creditShort");
    var cph :- ReadNumber(data, "cph");
    var aph :- ReadNumber(data, "aph");
    Success(Factors(LevelRating(creditShort), LevelRating(cph), AverageRating(aph)))
  }

  /** The factors read only keys the scorer reads, so they convert whenever the scorer's did. */
  lemma FactorsAfterScoring(data: Request)
    requires ReadFeatures(data).Success?
    ensures PredictionFactors(data).Success?
  {
    assert AllNumeric(data);
  }

  /** On the 1 / 0 / -1 features the rating follows the point table exactly. */
  lemma LevelRatingFollowsPoints(x: real, good: int, normal: int, poor: int)
    requires good != normal && normal != poor && good != poor
    ensures LevelRating(x) == Excellent <==> LevelPoints(x, good, normal, poor) == good
    ensures LevelRating(x) == Good <==> LevelPoints(x, good, normal, poor) == normal
    ensures LevelRating(x) == NeedsImprovement <==> LevelPoints(x, good, normal, poor) == poor
  {
  }

  /** For aph the rating uses the threshold 0.7 where the scorer uses 0: every value rated Good
      scores the middle 5 points, but a value in [0, 0.7) scores 5 while rated 'Needs Improvement'. */
  lemma AverageRatingStricterThanPoints(x: real)
    ensures AverageRating(x) == Good ==> AveragePoints(x) == 5
    ensures AverageRating(x) == Excellent <==> AveragePoints(x) == 10
    ensures 0.0 <= x < 0.7 ==> AverageRating(x) == NeedsImprovement && AveragePoints(x) == 5
    ensures AverageRating(x) == Good <==> x >= 0.7 && x != 1.0
    ensures AverageRating(x) == NeedsImprovement <==> x < 0.7
  {
  }

  // ---------------------------------------------------------------------------------------
  // The prediction endpoint

  /** The fields the endpoint requires, in the order it checks them. */
  const RequiredFields: seq<string> :=
    ["creditShort", "creditLong", "cph", "ctl", "aph", "atl", "quarterFluctuation"]

  /** Every required field is present, spelled out key by key so that each membership is a
      fact the endpoint's proofs can use directly. */
  predicate HasRequired(data: Request)
  {
    && "creditShort" in data && "creditLong" in data && "cph" in data && "ctl" in data
    && "aph" in data && "atl" in data && "quarterFluctuation" in data
  }

  /** field is the first required field, in check order, that data lacks. */
  predicate FirstMissing(data: Request, field: string)
  {
    exists i :: 0 <= i < |RequiredFields| && RequiredFields[i] == field
      && field !in data
      && forall j :: 0 <= j < i ==> RequiredFields[j] in data
  }

  /** The required-field loop: the first required field absent from the request, if any. */
  method FirstMissingField(data: Request) returns (missing: Option<string>)
    ensures missing.None? <==> HasRequired(data)
    ensures missing.Some? ==> FirstMissing(data, missing.value)
  {
    var i := 0;
    while i < |RequiredFields|
      invariant 0 <= i <= |RequiredFields|
      invariant forall j :: 0 <= j < i ==> RequiredFields[j] in data
    {
      if RequiredFields[i] !in data {
        assert !HasRequired(data) by {
          assert RequiredFields[i] in {"creditShort", "creditLong", "cph", "ctl", "aph", "atl", "quarterFluctuation"};
        }
        return Some(RequiredFields[i]);
      }
      i := i + 1;
    }
    assert HasRequired(data) by {
      assert RequiredFields[0] in data && RequiredFields[1] in data && RequiredFields[2] in data;
      assert RequiredFields[3] in data && RequiredFields[4] in data && RequiredFields[5] in data;
      assert RequiredFields[6] in data;
    }
    return None;
  }

  /** The application record under the endpoint's renaming: the four averages and levels are
      copied under their own names, the credit levels and the fluctuation move to snake_case
      keys, and none of the three camelCase keys the scorer reads survives. */
  predicate Renamed(data: Request, app: Request)
    requires HasRequired(data)
  {
    && "creditShort" !in app && "creditLong" !in app && "quarterFluctuation" !in app
    && "cph" in app && "ctl" in app && "aph" in app && "atl" in app
    && app["cph"] == data["cph"] && app["ctl"] == data["ctl"]
    && app["aph"] == data["aph"] && app["atl"] == data["atl"]
    && "credit_short" in app && app["credit_short"] == data["creditShort"]
    && "credit_long" in app && app["credit_long"] == data["creditLong"]
    && "quarter_fluctuation" in app && app["quarter_fluctuation"] == data["quarterFluctuation"]
  }

  /** The conversion of the request to the application record handed to storage and scorer. */
  function RenameFields(data: Request): (app: Request)
    requires HasRequired(data)
    ensures Renamed(data, app)
  {
    map[
      "credit_short" := data["creditShort"],
      "credit_long" := data["creditLong"],
      "payment_history" := Text("good"),
      "time_limitation" := Get(data, "timeLimitation", Null),
      "cph" := data["cph"],
      "ctl" := data["ctl"],
      "aph" := data["aph"],
      "atl" := data["atl"],
      "quarter_fluctuation" := Get(data, "quarterFluctuation", Null),
      "residual_fluctuation" := Get(data, "residualFluctuation", Null),
      "requested_amount" := Get(data, "requestedAmount", Num(50000.0)),
      "loan_purpose" := Get(data, "loanPurpose", Text("Personal")),
      "employment_status" := Get(data, "employmentStatus", Text("Employed")),
      "annual_income" := Get(data, "annualIncome", Num(60000.0))
    ]
  }

  /** data.get('selectedModels', ['xgboost', 'random_forest']) */
  function Selection(data: Request): Value
  {
    Get(data, "selectedModels", TextList(["xgboost", "random_forest"]))
  }

  /** One entry of the answer's `model_predictions`: the pair, or null and null. */
  datatype ModelReport = ModelReport(prediction: Option<Label>, confidence: Option<int>)

  /** The endpoint's answer (the storage identifiers are not modelled). */
  datatype LoanResponse = LoanResponse(
    prediction: Label,
    confidence: int,
    modelPredictions: map<string, ModelReport>,
    processingTimeMs: int,
    loanRange: string,
    factors: Factors)

  /** `prediction_data.get('{m}_prediction')` and `.get('{m}_confidence')` */
  function ReportOf(p: Prediction, model: string): ModelReport
  {
    if model in p.models
    then ModelReport(Some(p.models[model].prediction), Some(p.models[model].confidence))
    else ModelReport(None, None)
  }

  /** The answer's `model_predictions`: one entry per simulated model, selected or not. */
  function ReportsOf(p: Prediction): map<string, ModelReport>
  {
    map[
      "xgboost" := ReportOf(p, "xgboost"),
      "random_forest" := ReportOf(p, "random_forest"),
      "logistic" := ReportOf(p, "logistic"),
      "knn" := ReportOf(p, "knn")
    ]
  }

  /** The answer's entry for `model`: the simulated pair when the model is selected, null and
      null otherwise. */
  ghost predicate ReportFor(reports: map<string, ModelReport>, model: string, prediction: Label, confidence: int,
                           selected: Value)
  {
    && model in reports
    && reports[model] ==
         if Selects(selected, model)
         then ModelReport(Some(prediction), Some(confidence + Offset(model)))
         else ModelReport(None, None)
  }

  /** All four entries of `model_predictions`, and no other. */
  ghost predicate ReportsFor(reports: map<string, ModelReport>, prediction: Label, confidence: int, selected: Value)
  {
    && reports.Keys <= {"xgboost", "random_forest", "logistic", "knn"}
    && ReportFor(reports, "xgboost", prediction, confidence, selected)
    && ReportFor(reports, "random_forest", prediction, confidence, selected)
    && ReportFor(reports, "logistic", prediction, confidence, selected)
    && ReportFor(reports, "knn", prediction, confidence, selected)
  }

  lemma ReportsFollowPairs(p: Prediction, prediction: Label, confidence: int, selected: Value)
    requires PairsFor(p.models, prediction, confidence, selected)
    ensures ReportsFor(ReportsOf(p), prediction, confidence, selected)
  {
  }

  /** What the answer holds for a score, a selection and the dictionary the scorer read. */
  ghost predicate Answers(resp: LoanResponse, score: int, selected: Value, scored: Request)
  {
    && resp.prediction == ClassOf(score)
    && resp.confidence == FinalConfidence(score)
    && resp.processingTimeMs == 150
    && resp.loanRange == LoanRange(ClassOf(score).Name())
    && PredictionFactors(scored).Success?
    && resp.factors == PredictionFactors(scored).value
    && ReportsFor(resp.modelPredictions, ClassOf(score), FinalConfidence(score), selected)
  }

  /** Scores `scored` and assembles the answer to the request `data`. */
  method Respond(data: Request, scored: Request) returns (r: Result<LoanResponse, Error>)
    ensures ReadFeatures(scored).Failure? ==> r == Failure(ReadFeatures(scored).error)
    ensures ReadFeatures(scored).Success? && !IsSelection(Selection(data)) ==>
              r == Failure(NotAContainer("selectedModels"))
    ensures r.Success? <==> ReadFeatures(scored).Success? && IsSelection(Selection(data))
    ensures r.Success? ==> Answers(r.value, Score(ReadFeatures(scored).value), Selection(data), scored)
  {
    var serviceType := Get(data, "serviceType", Text("loan"));
    var selected := Selection(data);
    var predictionData :- SimulatePrediction(scored, serviceType, selected);
    ghost var score := Score(ReadFeatures(scored).value);
    var reports := ReportsOf(predictionData);
    ReportsFollowPairs(predictionData, ClassOf(score), FinalConfidence(score), selected);
    FactorsAfterScoring(scored);
    var factors := PredictionFactors(scored).value;
    return Success(LoanResponse(
      predictionData.finalPrediction,
      predictionData.finalConfidence,
      reports,
      predictionData.processingTimeMs,
      LoanRange(predictionData.finalPrediction.Name()),
      factors));
  }

  /** The prediction endpoint as written: a missing required field is a client error; otherwise
      the renamed application record is scored and the answer assembled from it. */
  method PredictLoan(data: Request) returns (r: Result<LoanResponse, Error>)
    ensures !HasRequired(data) <==> r.Failure? && r.error.MissingField?
    ensures r.Failure? && r.error.MissingField? ==> FirstMissing(data, r.error.field)
    ensures HasRequired(data) ==>
      && (r.Success? <==> ReadFeatures(RenameFields(data)).Success? && IsSelection(Selection(data)))
      && (r.Success? ==> Answers(r.value, Score(ReadFeatures(RenameFields(data)).value), Selection(data), RenameFields(data)))
  {
    var missing := FirstMissingField(data);
    if missing.Some? {
      return Failure(MissingField(missing.value));
    }
    r := Respond(data, RenameFields(data));
    assert r.Failure? ==> r.error.NotANumber? || r.error.NotAContainer?;
  }

  /** Through the endpoint the scorer never sees the camelCase credit and fluctuation keys:
      it scores them as 0 (15, 15 and 2 points) whatever the request holds, and the factors
      always rate the credit score 'Good'. */
  lemma EndpointScoresFixedFields(data: Request)
    requires HasRequired(data)
    ensures ReadFeatures(RenameFields(data)).Success? <==>
              Numeric(data, "cph") && Numeric(data, "ctl") && Numeric(data, "aph") && Numeric(data, "atl")
    ensures ReadFeatures(RenameFields(data)).Success? ==>
      var f := ReadFeatures(RenameFields(data)).value;
      && f.creditShort == 0.0 && f.creditLong == 0.0 && f.quarterFluctuation == 0.0
      && Score(f) == 32 + LevelPoints(f.cph, 20, 10, 2) + LevelPoints(f.ctl, 15, 8, 2)
                        + AveragePoints(f.aph) + AveragePoints(f.atl)
      && PredictionFactors(RenameFields(data)).value.creditScore == Good
  {
    var app := RenameFields(data);
    assert forall k :: k in ["cph", "ctl", "aph", "atl"] ==> Numeric(app, k) == Numeric(data, k);
    assert Numeric(app, "creditShort") && Numeric(app, "creditLong") && Numeric(app, "quarterFluctuation");
    assert ScoredFields == ["creditShort", "creditLong", "cph", "ctl", "aph", "atl", "quarterFluctuation"];
  }

  /** Two requests that agree on cph, ctl, aph and atl get the same score through the endpoint,
      whatever their creditShort, creditLong and quarterFluctuation. */
  lemma EndpointIgnoresCreditFields(d1: Request, d2: Request)
    requires HasRequired(d1) && HasRequired(d2)
    requires d1["cph"] == d2["cph"] && d1["ctl"] == d2["ctl"]
    requires d1["aph"] == d2["aph"] && d1["atl"] == d2["atl"]
    ensures ReadFeatures(RenameFields(d1)) == ReadFeatures(RenameFields(d2))
    ensures PredictionFactors(RenameFields(d1)) == PredictionFactors(RenameFields(d2))
  {
    var a1, a2 := RenameFields(d1), RenameFields(d2);
    forall k | k in ["creditShort", "creditLong", "cph", "ctl", "aph", "atl", "quarterFluctuation"]
      ensures ReadNumber(a1, k) == ReadNumber(a2, k)
    {
      if k in ["cph", "ctl", "aph", "atl"] {
        assert a1[k] == d1[k] == d2[k] == a2[k];
      } else {
        assert k !in a1 && k !in a2;
      }
    }
  }

  /** A request the endpoint misclassifies, with values the application table accepts (credit
      levels not negative, the averages and levels in [0, 1]): good credit and a rising quarter
      score 100 (Very_Good) on the request's own fields, but 77 (Normal) through the renamed
      record. */
  lemma EndpointMisclassifies()
    ensures var d := map["creditShort" := Num(1.0), "creditLong" := Num(1.0), "cph" := Num(1.0),
                         "ctl" := Num(1.0), "aph" := Num(0.0), "atl" := Num(0.0),
                         "quarterFluctuation" := Num(4.0)];
      && HasRequired(d)
      && ReadFeatures(d).Success? && Score(ReadFeatures(d).value) == 100
      && ClassOf(Score(ReadFeatures(d).value)) == VeryGood
      && ReadFeatures(RenameFields(d)).Success? && Score(ReadFeatures(RenameFields(d)).value) == 77
      && ClassOf(Score(ReadFeatures(RenameFields(d)).value)) == Normal
  {
    var d := map["creditShort" := Num(1.0), "creditLong" := Num(1.0), "cph" := Num(1.0),
                 "ctl" := Num(1.0), "aph" := Num(0.0), "atl" := Num(0.0),
                 "quarterFluctuation" := Num(4.0)];
    assert HasRequired(d);
    EndpointScoresFixedFields(d);
  }

  /** The endpoint as evidently intended: the request's own camelCase fields are scored. */
  method PredictLoanIntended(data: Request) returns (r: Result<LoanResponse, Error>)
    ensures !HasRequired(data) <==> r.Failure? && r.error.MissingField?
    ensures r.Failure? && r.error.MissingField? ==> FirstMissing(data, r.error.field)
    ensures HasRequired(data) ==>
      && (r.Success? <==> ReadFeatures(data).Success? && IsSelection(Selection(data)))
      && (r.Success? ==> Answers(r.value, Score(ReadFeatures(data).value), Selection(data), data))
  {
    var missing := FirstMissingField(data);
    if missing.Some? {
      return Failure(MissingField(missing.value));
    }
    r := Respond(data, data);
    assert r.Failure? ==> r.error.NotANumber? || r.error.NotAContainer?;
  }

  /** The intended endpoint depends on the credit level: raising creditShort from 0 to 1, all
      else equal, raises the score by 10 points. */
  lemma IntendedScoresCreditShort(data: Request)
    requires HasRequired(data) && ReadFeatures(data).Success?
    requires data["creditShort"] == Num(0.0)
    ensures ReadFeatures(data["creditShort" := Num(1.0)]).Success?
    ensures Score(ReadFeatures(data["creditShort" := Num(1.0)]).value) == Score(ReadFeatures(data).value) + 10
  {
    var d2 := data["creditShort" := Num(1.0)];
    var f := ReadFeatures(data).value;
    assert AllNumeric(d2);
    assert ReadFeatures(d2) == Success(f.(creditShort := 1.0));
  }
}
