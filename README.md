# Loan prediction core in Dafny

This project models the decision logic of a loan-prediction service. There are three parts.

- **The prediction endpoint and its rule scorer** (`loan_api.dfy`, module `LoanApi`).
  - Seven credit features (1 / 0 / -1 levels, averages, a quarterly fluctuation) go through fixed point tables to a score in [14, 110].
  - The score gives one of three classes and a confidence.
  - For each of xgboost, random_forest, logistic and knn that the caller selects, the scorer adds a simulated result (the same class, with that model's confidence offset); other names add nothing.
  - The endpoint checks the seven required fields and renames the request keys into an application record. It scores that record and adds a loan band and three qualitative factors.
- **The model manager** (`model_manager.dfy`, module `ModelManager`).
  - It builds the ten-value feature vector from a request and keeps the models that produced a prediction.
  - It combines their votes by fixed weights, with a deterministic tie-break and a weighted-mean confidence.
  - A rule-based fallback is used when the vector cannot be built.
  - It also lists a model's feature importances in order.
- **Configuration rules** (`configuration.dfy`, module `Configuration`).
  - It reads a `.env` file into the process environment without overwriting set variables.
  - It picks the configuration class from the environment name.
  - It applies the numeric and production checks to a configuration's settings.

`common.dfy` (module `Common`) holds what the three parts share:
- the `Result`/`Option` wrappers;
- request values as a JSON decoder delivers them;
- Python's `float()` on such a value;
- Python's `in` test on a string or list;
- the three class names.

**Units.** Confidences are integer tenths of a percent (75.0 is 750). Ensemble weights are integer tenths (0.4 is 4). Every confidence the scorer can produce is an exact multiple of 0.1, so the tenths are exact. `round(x, 1)` and the 95.0 cap are then integer operations.

**State.**
- The scorer's result dictionary is the `Prediction` value. `AddSelectedPairs` adds the per-model entries to it one model at a time.
- The ensemble's `class_votes` dictionary is a `map` that the loop updates.
- `os.environ` is the `vars` field of the class `Configuration.Environ`. Its `SetDefault` and `LoadEnvFile` methods update it in place.

**Inputs that become parameters.**
- The trained models' answers to `predict_single_model` are an input sequence of `ModelOutput`s, in model order.
- The `feature_importances_` of the loaded models are an input map.
- Whether the `.env` file exists, with its lines, is an `Option<seq<string>>`.
- The two filesystem probes of `validate_config` are booleans.
- The configuration values are a `Settings` record.

**Two thresholds for one field.** The scorer's comment at `Backend/app.py:107` gives the average payment history bands as 1 Good, 0 to 0.99 Normal and below 0 Poor. Line 109 follows that comment: any `aph >= 0` earns the middle 5 points. The factor at line 353 uses a different cut: `avgPaymentHistory` is Good only from `aph >= 0.7`. The model follows both lines as written. `LoanApi.AverageRatingStricterThanPoints` states the difference.

## Model

| member | source | states |
|---|---|---|
| Common.ToFloat | Backend/app.py:76-82 | `float(v)` succeeds exactly for numbers and booleans; a number reads itself, True 1.0 and False 0.0; any other value fails naming its field |
| Common.ReadNumber | Backend/app.py:76-82 | `float(data.get(key, 0))`: an absent key reads 0, a number reads itself, a failure names the key |
| Common.ParseLabel | backend/ml_models.py:162-171 | a prediction string names a class exactly when it is one of the three class names |
| Common.ParseLabelName | backend/ml_models.py:162-171 | each class name reads back as its class |
| Common.Contains | Backend/app.py:147-161 | `name in selected`: list membership for a list, Python's substring test for a string (`'knn' in "xgboost,knn"` holds); any other value raises |
| LoanApi.ReadFeatures | Backend/app.py:76-82 | the seven conversions succeed exactly when every scored key is absent, a number or a boolean; a failure names a scored key that is not |
| LoanApi.Score | Backend/app.py:84-123 | the summed points always lie in [14, 110] |
| LoanApi.ScoreBoundsAttained | Backend/app.py:87-123 | both bounds are reached: all-good features with fluctuation above 3 give 110, all-poor give 14 |
| LoanApi.ClassOf | Backend/app.py:124-132 | Very_Good iff score >= 85, Normal iff 50 <= score < 85, Very_Bad iff score < 50 |
| LoanApi.RawConfidence | Backend/app.py:124-132 | the uncapped confidence is at least 90.0 for Very_Good, in [75.0, 85.2] for Normal and at most 69.8 for Very_Bad |
| LoanApi.ClassMonotone | Backend/app.py:124-132 | a higher score never gives a lower class |
| LoanApi.Classify | Backend/app.py:124-135 | the branch-by-branch class and capped confidence equal the threshold class and the final confidence of the score |
| LoanApi.FinalConfidence | Backend/app.py:124-140 | never above 95.0; for every score up to 110 the cap changes nothing; reachable values lie in [62.8, 95.0] |
| LoanApi.ConfidenceIncreasing | Backend/app.py:124-135 | over reachable scores the confidence strictly increases with the score, across both class boundaries |
| LoanApi.ConfidenceBoundaries | Backend/app.py:124-135 | the class and confidence on each side of both thresholds and at both score bounds |
| LoanApi.AccumulateScore | Backend/app.py:84-120 | the step-by-step `+=` score equals the point-table sum |
| LoanApi.Offset | Backend/app.py:146-161 | each per-model offset lies in [-3.0, +2.0]; it is non-zero exactly for xgboost, random_forest, logistic and knn, and positive exactly for xgboost |
| LoanApi.AddSelectedPairs | Backend/app.py:146-161 | fails exactly when the selection is neither a list nor a string; otherwise a pair exists exactly for each of xgboost, random_forest, logistic and knn that the selection contains, carrying the final class and the uncapped +2.0 / -1.0 / -3.0 / -2.0 confidence; nothing else changes |
| LoanApi.SimulatePrediction | Backend/app.py:71-163 | a conversion error propagates; a non-container selection fails; otherwise the result has the threshold class, the capped confidence, 150 ms, both echoes, and exactly the selected pairs |
| LoanApi.EmptyInputIsNormal | Backend/app.py:76-140 | an empty input scores 60 and is Normal at 78.0 |
| LoanApi.XgboostExceedsCap | Backend/app.py:134-149 | at score 110 with xgboost selected the final confidence is 95.0 and xgboost reports 97.0 |
| LoanApi.LoanRange | Backend/app.py:335-342 | total; 'Unknown' exactly for strings that are not a class name |
| LoanApi.LoanRangesDistinct | Backend/app.py:335-342 | the three classes get three different bands |
| LoanApi.PredictionFactors | Backend/app.py:344-354 | succeeds exactly when creditShort, cph and aph convert |
| LoanApi.FactorsAfterScoring | Backend/app.py:344-348 | the factors never fail on a record the scorer accepted |
| LoanApi.LevelRating | Backend/app.py:351-352 | Excellent exactly at 1, Good exactly at 0, Needs Improvement for every other value |
| LoanApi.AverageRating | Backend/app.py:353 | Excellent exactly at 1; Good or Excellent only from 0.7 up |
| LoanApi.LevelRatingFollowsPoints | Backend/app.py:351-352 | for creditScore and creditPaymentHistory the Excellent / Good / Needs Improvement rating matches the scorer's good / normal / poor points exactly |
| LoanApi.AverageRatingStricterThanPoints | Backend/app.py:353 | avgPaymentHistory uses 0.7 where the scorer uses 0: Excellent iff 10 points, Good implies 5 points, Good iff x >= 0.7 and x is not 1, Needs Improvement iff x < 0.7, and [0, 0.7) scores 5 but rates Needs Improvement |
| LoanApi.FirstMissingField | Backend/app.py:264-267 | None exactly when all seven required fields are present; otherwise the first missing one in check order |
| LoanApi.RenameFields | Backend/app.py:270-285 | the record has no camelCase credit or fluctuation keys; it copies cph, ctl, aph and atl, and carries the request's credit values under snake_case names |
| LoanApi.ReportsFollowPairs | Backend/app.py:309-326 | the four `model_predictions` entries hold the class and confidence exactly for the models that have a pair |
| LoanApi.Respond | Backend/app.py:295-330 | a scoring error propagates; otherwise the answer has the prediction, the confidence, the four model entries, 150 ms, the loan band of the class and the factors of the scored record |
| LoanApi.PredictLoan | Backend/app.py:252-330 | a missing required field is a MissingField error, and only then; the error names the first missing required field in check order; otherwise the answer scores the renamed record |
| LoanApi.EndpointScoresFixedFields | Backend/app.py:270-295 | through the endpoint creditShort, creditLong and quarterFluctuation always read 0 (15 + 15 + 2 points) and the credit-score factor is always Good |
| LoanApi.EndpointIgnoresCreditFields | Backend/app.py:270-295 | requests that agree on cph, ctl, aph and atl get the same features and factors through the endpoint |
| LoanApi.EndpointMisclassifies | Backend/app.py:270-295 | a request whose own fields score 100 (Very_Good) scores 77 (Normal) through the endpoint |
| LoanApi.PredictLoanIntended | Backend/app.py:252-330 | the same contract as the endpoint, including the first missing field in check order, with the request's own fields scored |
| LoanApi.IntendedScoresCreditShort | Backend/app.py:76-90 | with the intended endpoint, raising creditShort from 0 to 1 raises the score by 10 points |
| ModelManager.PaymentHistoryCode | backend/ml_models.py:68-80 | fails only on a list (unhashable key); otherwise a code in [1, 4] |
| ModelManager.PaymentHistoryOrder | backend/ml_models.py:68-80 | excellent 4, good 3, fair 2, poor 1 |
| ModelManager.PaymentHistoryDefault | backend/ml_models.py:80 | every value that is not a list and not one of the four known words reads 2: any other word, a number, a boolean or null |
| ModelManager.FeatureValue | backend/ml_models.py:76-83 | an absent key gives 2 for paymentHistory and 0 for every other feature |
| ModelManager.PreprocessInput | backend/ml_models.py:51-89 | succeeds exactly when every feature converts; then exactly ten values in the fixed key order |
| ModelManager.EmptyInputVector | backend/ml_models.py:55-85 | an empty request gives 2 for the payment history and 0 elsewhere |
| ModelManager.Kept | backend/ml_models.py:125-131 | no more votes than outputs, and every kept vote is an output whose prediction was not None |
| ModelManager.CollectPredictions | backend/ml_models.py:125-131 | the kept predictions, in model order |
| ModelManager.KeptExactly | backend/ml_models.py:125-131 | a vote is kept exactly when its model returned that prediction (not None) and confidence |
| ModelManager.Weight | backend/ml_models.py:153-167 | each weight lies in [0.1, 0.4], and is above 0.1 exactly for xgboost, random_forest and logistic |
| ModelManager.Tally | backend/ml_models.py:165-172 | a class's vote total is at most 0.4 per vote |
| ModelManager.TallyZero | backend/ml_models.py:171-172 | a class has no votes exactly when no entry names it |
| ModelManager.CountedWeight | backend/ml_models.py:171-174 | the total weight is at most 0.4 per vote |
| ModelManager.WeightedSum | backend/ml_models.py:171-174 | with no counted weight the weighted confidence sum is 0 |
| ModelManager.Plurality | backend/ml_models.py:176-177 | the winner has the largest tally, and a tie goes to the earlier class in Very_Good, Normal, Very_Bad |
| ModelManager.RoundHalfEven | backend/ml_models.py:180-182 | the nearest integer to num/den, with an exact half going to the even side |
| ModelManager.PluralityIsMaximal | backend/ml_models.py:176-177 | the `max` over the class votes has a tally no smaller than any class's |
| ModelManager.Ensemble | backend/ml_models.py:147-182 | for a non-empty input the winning class has the largest tally; with no counted weight the confidence is 75.0 |
| ModelManager.EnsemblePrediction | backend/ml_models.py:147-182 | the loop's class votes, weighted confidence and total weight give the ensemble answer; the lemmas below state its properties |
| ModelManager.EmptyEnsemble | backend/ml_models.py:149-150 | no predictions give Normal at 75.0 |
| ModelManager.TalliesSumToCountedWeight | backend/ml_models.py:165-174 | each counted vote adds its weight to exactly one class, so the tallies sum to the total weight |
| ModelManager.NothingCounted | backend/ml_models.py:171-180 | entries with no class name add neither weight nor confidence; if every entry is such, the answer is Very_Good at 75.0 |
| ModelManager.MajorityWins | backend/ml_models.py:165-177 | a class holding more than half of the counted weight wins |
| ModelManager.WeightedSumBounds | backend/ml_models.py:166-174 | the weighted sum lies between the smallest and the largest counted confidence times the total weight |
| ModelManager.RoundWithin | backend/ml_models.py:180-182 | rounding a quotient in [lo, hi] stays in [lo, hi] |
| ModelManager.EnsembleConfidenceWithin | backend/ml_models.py:165-182 | the final confidence lies between the smallest and the largest contributing confidence |
| ModelManager.HeavierDissentWins | backend/ml_models.py:153-182 | xgboost alone for Very_Good loses to the other three for Normal (0.4 against 0.6), at 84.0 |
| ModelManager.TieGoesToEarlierClass | backend/ml_models.py:162-177 | 0.4 for Very_Good against 0.3 + 0.1 for Normal gives Very_Good |
| ModelManager.FallbackScore | backend/ml_models.py:188-214 | succeeds exactly when creditShort, creditLong and cph convert; the score lies in [30, 100] |
| ModelManager.FallbackPrediction | backend/ml_models.py:184-232 | score >= 80 gives Very_Good at 88.0; below 50 gives Very_Bad at 62.0; otherwise Normal at 75.0; a single 'fallback' entry equal to the final result; no feature values |
| ModelManager.FallbackCapsLowCreditScale | backend/ml_models.py:194-224 | with credit scores on the 1 / 0 / -1 scale (anything up to 600) the fallback scores at most 60 and never answers Very_Good |
| ModelManager.PredictAllModels | backend/ml_models.py:116-145 | when the vector cannot be built, the fallback's answer; otherwise the kept predictions, their ensemble and the feature vector |
| ModelManager.DefaultImportanceSorted | backend/ml_models.py:236-244 | the default list has five entries in non-increasing importance |
| ModelManager.InsertByImportance | backend/ml_models.py:260-261 | the result holds exactly the old entries plus the new one |
| ModelManager.InsertSorted | backend/ml_models.py:260-261 | inserting into a list sorted by non-increasing importance keeps it sorted, and the head is the new entry or the old head |
| ModelManager.SortByImportance | backend/ml_models.py:260-261 | non-increasing importance and a permutation of the input |
| ModelManager.Named | backend/ml_models.py:253-258 | entry i pairs the i-th feature name with the i-th importance |
| ModelManager.GetFeatureImportance | backend/ml_models.py:234-274 | the default list for a model that is not loaded or has no `feature_importances_` attribute (an empty importance list gives an empty answer); otherwise at most ten entries (the first ones, named), sorted non-increasing, as a permutation; the answer is exactly `SortByImportance` of the named entries, so equal inputs give equal answers |
| Configuration.StripStart | config.py:225 | a suffix of the line that does not start with white space |
| Configuration.StripEnd | config.py:225 | a prefix of the line that does not end with white space |
| Configuration.Strip | config.py:225 | the result starts and ends with no white space |
| Configuration.StripRemovesSpace | config.py:225 | what stripping removes at either end is white space |
| Configuration.StripPadded | config.py:225 | stripping recovers any trimmed string from white-space padding around it |
| Configuration.StripIdempotent | config.py:225 | stripping twice is stripping once |
| Configuration.ParseLine | config.py:225-228 | a line is skipped exactly when it is blank, a comment or has no '=' after stripping; a read key has no '=' and both parts are stripped |
| Configuration.ParseLineRoundTrip | config.py:225-228 | `key = value`, with a non-empty stripped key that has no '=' and does not start with '#', and any white space around key, '=' and value, reads back as (key, value), even when the value contains '=' |
| Configuration.CommentsAndBlanksIgnored | config.py:225-226 | blank lines and lines starting with '#' are skipped |
| Configuration.WithDefault | config.py:228 | setdefault: the key ends up set, to its old value if it had one; every other key is unchanged |
| Configuration.Entries | config.py:224-228 | one parsed entry per line, in file order |
| Configuration.NoOverwrite | config.py:228 | a variable that is already set keeps its value whatever the lines say |
| Configuration.ApplyEntries | config.py:224-228 | applying parsed entries never removes a variable |
| Configuration.ApplyLines | config.py:224-228 | reading lines never removes a variable |
| Configuration.LoadedKeys | config.py:224-228 | the keys afterwards are exactly the keys already set plus the keys the lines set |
| Configuration.FirstOccurrenceWins | config.py:228 | for a key not already set, the first line that sets it decides its value |
| Configuration.FileKeepsSetVariables | config.py:220-228 | reading a file never changes a variable that is already set |
| Configuration.FileKeys | config.py:220-228 | reading a file adds exactly the keys its lines set |
| Configuration.FileFirstLineWins | config.py:220-228 | for a variable not set, the first line of the file that sets it decides it |
| Configuration.LoadOneLine | config.py:224-228 | a one-line `key=value` file sets key unless it is already set |
| Configuration.Environ.SetDefault | config.py:228 | the environment becomes setdefault of the old one; the answer is the key's value afterwards |
| Configuration.Environ.LoadEnvFile | config.py:220-228 | no file changes nothing; otherwise the environment becomes the old one with the file's lines read in order |
| Configuration.GetConfig | config.py:206-217 | 'production' and 'testing' pick their classes and any other name picks development; with no name, FLASK_ENV decides (default 'development') |
| Configuration.GetConfigDefaults | config.py:206-217 | unset gives development, an unknown name gives development, FLASK_ENV=testing gives testing |
| Configuration.SettingsOf | config.py:171-203 | development forces DEBUG on and keeps the base secret key; production forces it off and takes SECRET_KEY from the environment with no default; testing fixes its secret key; the numeric settings are inherited |
| Configuration.ConfigErrors | config.py:84-106 | at most four errors; the range error iff not 300 <= min <= max <= 850; the threshold error iff the threshold is outside [0, 1]; no errors iff both probes pass and both ranges hold |
| Configuration.ValidateConfig | config.py:84-113 | true exactly when both probes pass, 300 <= min <= max <= 850 and the threshold lies in [0, 1] |
| Configuration.ValidateProductionConfig | config.py:187-197 | true exactly when the secret key is set, non-empty and not the development default, DEBUG is off, and validate_config passes |
| Configuration.ProductionVerdict | config.py:176-197 | for the production class the verdict depends only on the SECRET_KEY variable and validate_config, because DEBUG is always off there |
| Configuration.DefaultRangesValid | config.py:101-105 | the defaults 300 / 850 / 0.75 pass, and 299, 851 or min above max fail |

## Left out

- Flask routing, CORS, JWT, password hashing, the database writes of `predict_loan`, and the application and prediction identifiers those writes return. They are web and storage calls. The modelled answer holds everything else the endpoint returns.
- A request body that is not a JSON object, nested objects inside one, and lists of values other than strings (such as `[1, "knn"]`). A request is a map of flat values, and a list value holds strings only. For the `in` test on `selectedModels` the string elements give the same answer.
- `float()` on strings: Python parses numeric strings such as "1". The model treats every string as a conversion error and does not parse numbers from text.
- Floating-point artefacts. Python computes the ensemble in floats with weights 0.1 to 0.4 and rounds the mean with `round(x, 1)`. The model uses exact integer tenths and rounds half to even on the exact quotient. A near-tie that float accumulation would tip, or a float half that is not exact, is not modelled.
- `load_models` and `predict_single_model`: joblib and the trained model objects. What each loaded model answers is an input.
- `ModelManager.SortByImportance`: Python's `list.sort` is stable, and the insertion order here keeps equal importances in input order. That stability is not stated as a lemma, and the in-place sort of the list is modelled as a function on the sequence.
- `ModelManager.Ensemble`, `ModelManager.EnsemblePrediction` and `ModelManager.PredictAllModels`: Python's `predictions` is a dictionary keyed by model name, so no name occurs twice. The model's vote sequence does not exclude a repeated name, and for one it counts both votes. The names come from the keys of the loaded-models dictionary, which cannot repeat, so every input the program can produce has distinct names.
- `ModelManager.EnsemblePrediction`: the confidences arrive already rounded to tenths, as `predict_all_models` rounds them. An arbitrary float confidence is not modelled.
- `Configuration.Environ.SetDefault`: the interpreter's own refusal of an empty variable name or a NUL character is not modelled. Neither is any other failure of `putenv`.
- `Configuration.Environ.LoadEnvFile`: a line such as `=x` parses to the key "" with value "x" and is applied, where Python's `os.environ.setdefault` raises `ValueError`; the same holds for a NUL character in a key or value. A file that exists but cannot be read, which makes `open` raise, is not modelled either.
- Reading the configuration values from the environment when the classes are defined, and the `int()`/`float()` conversions of those values. The values are a `Settings` parameter.
- The messages `validate_config` prints, and the filesystem probes and directory creation it performs. Two booleans say whether the database directory is available and whether the models directory exists.
- `create_env_file`, `get_database_config`, `get_ml_config`, `get_api_config`, the module's start-up calls, and the launcher, setup, training and test scripts. They are not part of this model.
- The CHECK constraints of the application table (`database/sqlite_setup.py`, for example non-negative `credit_short` and `credit_long`). The endpoint stores the record before scoring it, so such a constraint can reject a request before the scorer runs. The model scores every request that passes the required-field check.
- Non-finite floats. A JSON decoder can deliver NaN or an infinity, and `float()` can raise `OverflowError`. A `Num` holds an exact real, so no such value occurs in the model.
- Configuration.ConfigErrors: a NaN `CONFIDENCE_THRESHOLD` passes `validate_config`, because both comparisons at `config.py:104` are false for NaN. The model's threshold is a real number, so the threshold error arises exactly when the value is outside [0, 1].
- Logging: the `logger` calls at `Backend/app.py:73` and `261` and `backend/ml_models.py:88` and `186`, and the other log messages. They produce no result.
- Unicode beyond `str.strip()`'s white-space set. Strings are sequences of code points with no normalisation or case folding.

## Findings

| source | as written | input that shows it | evidently intended | confidence | as-written member | corrected member |
|---|---|---|---|---|---|---|
| Backend/app.py:270-295 | `predict_loan` renames the request into snake_case keys (`credit_short`, `credit_long`, `quarter_fluctuation`). The scorer and the factors read camelCase `creditShort`, `creditLong`, `quarterFluctuation`. Through the endpoint those three always read 0. | creditShort 1, creditLong 1, cph 1, ctl 1, aph 0, atl 0, quarterFluctuation 4 (values the application table accepts) scores 100 (Very_Good) on its own fields, but 77 (Normal) through the endpoint | the request's own credit and fluctuation values are scored and rated | not executed; the arithmetic is proved | LoanApi.PredictLoan, LoanApi.EndpointMisclassifies | LoanApi.PredictLoanIntended, LoanApi.IntendedScoresCreditShort |
