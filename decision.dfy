/** StartupSuccessModel.predict: the feature row goes through the scaler and
    the classifier, and the class-1 probability is turned into a label, a
    confidence and a risk tier. */
module Decision {
  import opened Values
  import opened Features
  import opened FeatureLaws

  /** What `predict_proba(...)[0][1]` can return. */
  type Probability = p: real | 0.0 <= p <= 1.0 witness 0.0

  datatype Label = Acquired | Closed

  datatype RiskLevel = Low | Medium | High

  /** The dictionary predict returns (model_loader.py:103-108). */
  datatype Prediction = Prediction(
    prediction: Label,
    successProbability: real,
    confidence: real,
    riskLevel: RiskLevel)

  /** `"Acquired" if probability >= 0.5 else "Closed"` */
  function Classify(p: real): (l: Label)
    ensures l == Acquired <==> p >= 0.5
  {
    if p >= 0.5 then Acquired else Closed
  }

  /** `max(probability, 1 - probability)`; Python's max keeps its first
      argument unless the second is strictly larger. */
  function Confidence(p: real): (c: real)
    ensures c >= p && c >= 1.0 - p
    ensures c == p || c == 1.0 - p
  {
    if 1.0 - p > p then 1.0 - p else p
  }

  /** The if/elif/else ladder of model_loader.py:96-101: each tier is
      exactly one band of probabilities. */
  function Risk(p: real): (r: RiskLevel)
    ensures r == Low <==> p >= 0.75
    ensures r == Medium <==> 0.5 <= p < 0.75
    ensures r == High <==> p < 0.5
  {
    if p >= 0.75 then Low
    else if p >= 0.5 then Medium
    else High
  }

  /** Risk tiers ordered from safest to riskiest. */
  function Rank(r: RiskLevel): nat {
    match r
    case Low => 0
    case Medium => 1
    case High => 2
  }

  /** For a probability, the confidence lies in [0.5, 1]. */
  lemma ConfidenceRange(p: real)
    requires 0.0 <= p <= 1.0
    ensures 0.5 <= Confidence(p) <= 1.0
  {
  }

  /** The confidence is the probability the model gives to the label it reports. */
  lemma ConfidenceOfPredictedLabel(p: real)
    ensures Classify(p) == Acquired ==> Confidence(p) == p
    ensures Classify(p) == Closed ==> Confidence(p) == 1.0 - p
  {
  }

  /** The label and the tier never disagree: "Closed" is always high risk,
      and "Acquired" is always low or medium risk. */
  lemma ClosedIffHighRisk(p: real)
    ensures Classify(p) == Closed <==> Risk(p) == High
  {
  }

  /** A higher probability never gives a riskier tier or a worse label. */
  lemma RiskMonotone(p: real, q: real)
    requires p <= q
    ensures Rank(Risk(q)) <= Rank(Risk(p))
    ensures Classify(p) == Acquired ==> Classify(q) == Acquired
  {
  }

  /** The decision tail of predict (model_loader.py:92-108), before rounding. */
  function Decide(p: Probability): (r: Prediction)
    ensures r.successProbability == p
    ensures r.prediction == Acquired <==> p >= 0.5
    ensures r.riskLevel == Low <==> p >= 0.75
    ensures r.riskLevel == Medium <==> 0.5 <= p < 0.75
    ensures r.riskLevel == High <==> p < 0.5
    ensures r.prediction == Closed <==> r.riskLevel == High
    ensures 0.5 <= r.confidence <= 1.0
    ensures r.confidence == if r.prediction == Acquired then p else 1.0 - p
  {
    Prediction(Classify(p), p, Confidence(p), Risk(p))
  }

  /** The whole of predict. `score` stands for `scaler.transform` followed by
      `model.predict_proba(...)[0][1]`, which may itself raise. Any exception
      propagates unchanged; the route turns it into an error response. */
  function Predict(input: Input, schema: seq<string>, score: seq<Value> -> Result<Probability>): (r: Result<Prediction>)
    ensures r.Err? <==>
      Reconstruct(input, schema).Err? || score(Reconstruct(input, schema).value).Err?
    ensures r.Ok? ==> r.value == Decide(score(Reconstruct(input, schema).value).value)
    ensures r.Ok? ==>
      && r.value.successProbability == score(Reconstruct(input, schema).value).value
      && 0.5 <= r.value.confidence <= 1.0
      && (r.value.prediction == Closed <==> r.value.riskLevel == High)
  {
    var row :- Reconstruct(input, schema);
    var p :- score(row);
    Ok(Decide(p))
  }

  /** Keys outside the renaming table, such as the `category`, `state` and
      `has_roundA` the route sends, cannot change a prediction. */
  lemma PredictIgnoresUnmappedKeys(input: Input, schema: seq<string>,
                                   score: seq<Value> -> Result<Probability>, k: string, v: Value)
    requires ColumnOf(k).None?
    ensures Predict(input[k := v], schema, score) == Predict(input, schema, score)
  {
    IgnoredKeysHaveNoEffect(input, schema, k, v);
  }

  /** A request built by the route always reaches the classifier: predict
      fails only if the scaler or classifier does. */
  lemma RoutePredictionsReachClassifier(input: Input, schema: seq<string>,
                                        score: seq<Value> -> Result<Probability>)
    requires RouteInput(input)
    ensures Reconstruct(input, schema).Ok?
    ensures Predict(input, schema, score).Err? ==>
      Predict(input, schema, score) == Err(score(Reconstruct(input, schema).value).error)
  {
    RouteRequestsSucceed(input, schema);
    ClassifierErrorsPropagate(input, schema, score);
  }

  lemma ClassifierErrorsPropagate(input: Input, schema: seq<string>,
                                  score: seq<Value> -> Result<Probability>)
    requires Reconstruct(input, schema).Ok?
    ensures Predict(input, schema, score).Err? ==>
      Predict(input, schema, score) == Err(score(Reconstruct(input, schema).value).error)
  {
  }
}
