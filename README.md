# Startup success predictor: feature reconstruction and decision rule

This project models the core of the startup success predictor. A web route
receives a loosely-typed dictionary of startup attributes. The predictor then does two things:

1. `StartupSuccessModel.apply_defaults` turns the dictionary into one row laid
   out exactly as the classifier's trained feature list.
2. `StartupSuccessModel.predict` turns the classifier's class-1 probability
   into a label ("Acquired" or "Closed"), a confidence and a risk tier.

The model has three modules, plus the laws proved about it:

- `Values` (values.dfy) holds the part of Python's dynamic values that the code
  touches: numbers (int, float and bool), the float NaN, None and strings. It
  also holds Python's `v > 0` (false on NaN; TypeError on None or a string),
  pandas' `fillna(0)` on one cell, and the exceptions as a `Result` type.
- `Features` (features.dfy) holds apply_defaults.
  - `ApplyDefaults` is the method, run the way the source runs it: one
    dictionary (a `map`) built up and then updated.
  - It is proved equal to the declarative `Reconstruct`.
  - The feature list is the `schema` parameter; apply_defaults never changes
    the object, so there is no class.
  - A missing `funding_total_usd` raises a KeyError, and a comparison of
    None or a string raises a TypeError. Both are error results, not
    preconditions.
- `FeatureLaws` (feature_laws.dfy) states what the row is, column by column.
  It compares the row with a reference (`Column`) that never mentions the
  dictionary. It also proves:
  - exactly when apply_defaults fails;
  - which input keys can influence the row;
  - what the web route's requests lead to.
- `Decision` (decision.dfy) holds the decision tail of `predict`. The scaler
  and classifier are the `score` parameter of `Predict`.

The model follows the code as written, including where it is surprising:

- Every feature starts at 0.
- `category` and `state` are never read.
- Only `funding_velocity` and `funding_per_round` are derived.
- The probability is the fixed entry `[0][1]`.
- The renaming table reads `has_series_a`, while the route (app.py:28) sends
  `has_roundA`. The route's flag therefore never reaches the row: the
  `has_roundA` column is always 0 for a route request
  (`FeatureLaws.RouteRequestsSucceed`).

`model_loader.py` does not implement, and the model therefore does not contain:

- defaults taken from the scaler's per-feature means (every default is 0);
- one-hot columns for category or state, or any normalisation of those strings;
- derived features other than the two ratios;
- an input-validation error naming the offending field.

## Model

| member | source | states |
|---|---|---|
| Values.GreaterThanZero | model_loader.py:69 | Python's `v > 0`: raises TypeError exactly when v is None or a string; true exactly for a positive number; NaN compares false |
| Values.FillNa | model_loader.py:80 | `fillna(0)` on a cell: NaN and None become 0, a number or a string is kept unchanged |
| Features.KeyAt | model_loader.py:36-65 | the input key read by each of the ten copies, in source order; it equals the column written except for the three renamings (funding_total, has_vc, has_series_a) |
| Features.ColumnAt | model_loader.py:36-65 | the column written by each of the ten copies, in source order; no copy writes funding_velocity or funding_per_round |
| Features.KeyStep | model_loader.py:36-65 | locates which guarded copy reads a given input key, or reports that none does |
| Features.ColumnStep | model_loader.py:36-65 | locates which guarded copy writes a given feature column, or reports that none does |
| Features.StepsDistinct | model_loader.py:36-65 | no two copies read the same key or write the same column, so the renaming is one-to-one |
| Features.ColumnKeyRoundTrip | model_loader.py:36-65 | key k is copied into column c exactly when column c is written from key k |
| Features.Initial | model_loader.py:33 | the initial dictionary has exactly the schema names as keys, each holding 0 |
| Features.InitialFeatures | model_loader.py:33 | building the dictionary one schema name at a time gives exactly `Initial(schema)` |
| Features.CopyKey | model_loader.py:36-37 | one guarded copy never removes a key |
| Features.RenamedUpTo | model_loader.py:36-65 | the copies only add or overwrite keys, never remove them |
| Features.Copied | model_loader.py:33-65 | after the copies every schema name is still a key |
| Features.RenamedUpToAt | model_loader.py:36-65 | after the first n copies, a column holds the input's value when its copy is among them and its key was supplied, and is otherwise unchanged; no other key appears |
| Features.CopiedAt | model_loader.py:33-65 | after the copies, a column is a key exactly when it is a schema name or the input wrote it; it holds the input's value, or 0 when unwritten |
| Features.DeriveRatio | model_loader.py:68-74 | a ratio rule keeps the key set and every other column; it writes num/den only when both are strictly positive, with the target and den present; KeyError exactly when den > 0 held and num is absent; TypeError exactly when a comparison meets None or a string; no other error arises |
| Features.Project | model_loader.py:76-80 | the row has one cell per schema name, in schema order, each the `fillna(0)` of that column |
| Features.DeriveAndProject | model_loader.py:67-80 | on success the row has the schema's length |
| Features.Reconstruct | model_loader.py:29-80 | apply_defaults as one function (initialise, copy, two ratio rules, project); a successful row has the schema's length, and FeatureLaws.ReconstructColumns states its cells |
| Features.ApplyDefaults | model_loader.py:29-80 | the in-place run (initialise, copy, two ratio rules, project) yields exactly `Reconstruct(input, schema)`; a successful row has the schema's length |
| FeatureLaws.ReconstructColumns | model_loader.py:33-80 | each cell of a successful row is the reference value of its column: the derived ratio where the rule fires, otherwise the supplied value (NaN/None as 0) or 0 |
| FeatureLaws.UnwrittenColumnsAreZero | model_loader.py:33 | a schema column that no key wrote and no ratio rule filled is 0 in the row |
| FeatureLaws.DerivedColumns | model_loader.py:68-74 | funding_velocity / funding_per_round hold funding_total_usd divided by a strictly positive startup_age / funding_rounds when the rule fires, and 0 otherwise |
| FeatureLaws.FailsExactlyOnMissingFunding | model_loader.py:68-74 | with a number (or NaN) in the three ratio operands (other columns may hold anything), apply_defaults fails exactly when a ratio rule passes its denominator test while funding_total_usd is neither a schema column nor supplied; the error is then KeyError('funding_total_usd') |
| FeatureLaws.FailureKinds | model_loader.py:68-74 | for every input, apply_defaults fails only with KeyError('funding_total_usd') or TypeError, and a TypeError needs None or a string in funding_total_usd, startup_age or funding_rounds |
| FeatureLaws.EmptyInputGivesZeroRow | model_loader.py:29-80 | the empty request never fails and yields an all-zero row of the schema's length |
| FeatureLaws.DeriveRatioAgrees | model_loader.py:68-74 | a ratio rule reads only its target and its two operands |
| FeatureLaws.CopiedAgree | model_loader.py:33-65 | inputs that agree on every schema column and ratio operand give dictionaries that agree on all watched names |
| FeatureLaws.DeriveAndProjectAgrees | model_loader.py:67-80 | the ratio rules and the projection depend only on the watched names |
| FeatureLaws.ReconstructAgrees | model_loader.py:29-80 | the outcome depends only on what the copies leave in the schema columns and the three ratio operands |
| FeatureLaws.IgnoredKeysHaveNoEffect | model_loader.py:36-65 | setting or removing a key outside the renaming table (category, state, has_roundA) never changes the outcome |
| FeatureLaws.UnlistedColumnsAreDropped | model_loader.py:77-78 | a copied key whose column is not in the schema and is not a ratio operand never changes the outcome |
| FeatureLaws.RouteValuesComparable | app.py:17-30 | a route request (whatever category and state hold) never carries `has_series_a`, and every value it copies is a number or NaN |
| FeatureLaws.RouteRequestsSucceed | app.py:17-30 | apply_defaults never fails on a route request, whatever category and state hold, and the has_roundA column of its row is always 0 |
| Decision.Classify | model_loader.py:92 | the label is Acquired exactly when p >= 0.5, and Closed otherwise |
| Decision.Risk | model_loader.py:96-101 | Low exactly when p >= 0.75, Medium exactly when 0.5 <= p < 0.75, High exactly when p < 0.5 |
| Decision.Confidence | model_loader.py:93 | `max(p, 1 - p)` is at least both arguments and equal to one of them |
| Decision.ConfidenceRange | model_loader.py:93 | for a probability, the confidence lies in [0.5, 1] |
| Decision.ConfidenceOfPredictedLabel | model_loader.py:92-93 | the confidence is the probability of the reported label: p for Acquired, 1 - p for Closed |
| Decision.ClosedIffHighRisk | model_loader.py:92-101 | the label is Closed exactly when the risk tier is High |
| Decision.RiskMonotone | model_loader.py:92-101 | a higher probability never gives a riskier tier, and never turns Acquired into Closed |
| Decision.Decide | model_loader.py:92-108 | the returned record carries p, the label Acquired exactly when p >= 0.5, the tier of p's band (0.75 and 0.5 thresholds), a confidence in [0.5, 1] equal to the reported label's probability, and agreeing label and tier |
| Decision.Predict | model_loader.py:82-108 | predict fails exactly when apply_defaults or the classifier fails; otherwise its record is `Decide` of the classifier's probability: that probability, the label and tier its thresholds give, a confidence in [0.5, 1], and Closed exactly with High risk |
| Decision.PredictIgnoresUnmappedKeys | model_loader.py:82-85 | keys outside the renaming table never change a prediction |
| Decision.ClassifierErrorsPropagate | model_loader.py:88-91 | once the row is built, predict's only error is the classifier's own |
| Decision.RoutePredictionsReachClassifier | app.py:17-32 | a route request always yields a row, so predict fails only with the scaler's or classifier's error |

## Left out

- `StartupSuccessModel.__init__` (model_loader.py:8-27) is not modelled. It loads three serialized artifacts from disk, which is file I/O. The feature list it loads is the `schema` parameter.
- `scaler.transform` and `model.predict_proba` are not modelled. They are opaque trained objects, so together they are the `score` parameter of `Decision.Predict`.
- `round(..., 4)` in the returned record (model_loader.py:105-106) is not modelled. `Decision.Decide` reports the unrounded values.
- Floating point is not modelled: numbers are Dafny reals. Infinities, overflow and float rounding of the two divisions are not represented. NaN is a separate value.
- Pandas is not modelled: dtype inference, the one-row DataFrame and the object-column mechanics. The row is a sequence of cells, and `fillna(0)` acts per cell.
- Python's bool is modelled as the number it compares like (True is 1).
- The web route's JSON parsing and its `float()`/`int()` coercions (app.py:15-30) are not modelled. `FeatureLaws.RouteInput` describes only their result: the twelve keys always appear, the ten numeric ones hold a number or NaN, and category and state may hold any value.
- The error response (app.py:35-36), the HTML page and static/script.js are not modelled; they are presentation only.
- Features.ApplyDefaults: only the initialisation (model_loader.py:33) and the projection (model_loader.py:77-80) are written out as loops that update state. The ten guarded copies (model_loader.py:36-65) are applied as the function `Renamed`, a chain of map updates in source order. The two ratio rules (model_loader.py:67-74) are applied through the function `DeriveRatio`, the same one `Reconstruct` uses. The model therefore does not show each of those twelve statements as its own step of the in-place update.
- Other input values are not modelled: lists, dicts and other objects, and the exceptions they would raise.
