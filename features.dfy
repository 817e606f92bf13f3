/** StartupSuccessModel.apply_defaults: turning the loosely-typed request
    dictionary into one row laid out exactly as the trained feature list.

    The object's `feature_names` list is the `schema` parameter here; the
    method never changes the object, so no class is needed.  The row is what
    `df.fillna(0)` holds: one cell per schema name, in schema order. */
module Features {
  import opened Values

  type Input = map<string, Value>
  type Features = map<string, Value>

  const FundingTotal := "funding_total_usd"
  const StartupAge := "startup_age"
  const FundingRounds := "funding_rounds"
  const FundingVelocity := "funding_velocity"
  const FundingPerRound := "funding_per_round"

  // ---------------------------------------------------------------------
  // The key-renaming table (model_loader.py:36-65)
  // ---------------------------------------------------------------------

  /** The number of guarded copies. */
  const Steps: nat := 10

  /** Copy number `j`, in source order, reads input key KeyAt(j) ...
      Only three copies rename: funding_total, has_vc and has_series_a. */
  function KeyAt(j: nat): (k: string)
    requires j < Steps
    ensures k == ColumnAt(j) <==> j != 0 && j != 5 && j != 7
  {
    match j
    case 0 => "funding_total"
    case 1 => FundingRounds
    case 2 => "relationships"
    case 3 => "milestones"
    case 4 => "avg_participants"
    case 5 => "has_vc"
    case 6 => "has_angel"
    case 7 => "has_series_a"
    case 8 => "is_top500"
    case _ => StartupAge
  }

  /** ... and writes column ColumnAt(j); no copy writes a derived column. */
  function ColumnAt(j: nat): (c: string)
    requires j < Steps
    ensures c != FundingVelocity && c != FundingPerRound
  {
    match j
    case 0 => FundingTotal
    case 1 => FundingRounds
    case 2 => "relationships"
    case 3 => "milestones"
    case 4 => "avg_participants"
    case 5 => "has_VC"
    case 6 => "has_angel"
    case 7 => "has_roundA"
    case 8 => "is_top500"
    case _ => StartupAge
  }

  /** The copy that reads `key`, or Steps when none does. */
  function KeyStep(key: string): (j: nat)
    ensures j <= Steps
    ensures j < Steps ==> KeyAt(j) == key
  {
    if key == "funding_total" then 0
    else if key == FundingRounds then 1
    else if key == "relationships" then 2
    else if key == "milestones" then 3
    else if key == "avg_participants" then 4
    else if key == "has_vc" then 5
    else if key == "has_angel" then 6
    else if key == "has_series_a" then 7
    else if key == "is_top500" then 8
    else if key == StartupAge then 9
    else Steps
  }

  /** The copy that writes `column`, or Steps when none does. */
  function ColumnStep(column: string): (j: nat)
    ensures j <= Steps
    ensures j < Steps ==> ColumnAt(j) == column
  {
    if column == FundingTotal then 0
    else if column == FundingRounds then 1
    else if column == "relationships" then 2
    else if column == "milestones" then 3
    else if column == "avg_participants" then 4
    else if column == "has_VC" then 5
    else if column == "has_angel" then 6
    else if column == "has_roundA" then 7
    else if column == "is_top500" then 8
    else if column == StartupAge then 9
    else Steps
  }

  /** No two copies read the same key or write the same column. */
  lemma StepsDistinct(j: nat)
    requires j < Steps
    ensures KeyStep(KeyAt(j)) == j && ColumnStep(ColumnAt(j)) == j
  {
  }

  /** The column an input key is copied into, if it is copied at all. */
  function ColumnOf(key: string): Option<string> {
    if KeyStep(key) < Steps then Some(ColumnAt(KeyStep(key))) else None
  }

  /** The input key that writes a column, if any. */
  function KeyFor(column: string): Option<string> {
    if ColumnStep(column) < Steps then Some(KeyAt(ColumnStep(column))) else None
  }

  /** KeyFor inverts ColumnOf: a key writes a column exactly when that
      column names the key back. */
  lemma ColumnKeyRoundTrip(key: string, column: string)
    ensures ColumnOf(key) == Some(column) <==> KeyFor(column) == Some(key)
  {
    if KeyStep(key) < Steps {
      StepsDistinct(KeyStep(key));
    }
    if ColumnStep(column) < Steps {
      StepsDistinct(ColumnStep(column));
    }
  }

  // ---------------------------------------------------------------------
  // The dictionary after the copies (model_loader.py:33-65), declaratively
  // ---------------------------------------------------------------------

  /** Column `c` was written from the input. */
  predicate Supplied(input: Input, c: string) {
    KeyFor(c).Some? && KeyFor(c).value in input
  }

  /** The value the copies leave in column `c`: the input's, or the initial 0. */
  function Base(input: Input, c: string): Value {
    if Supplied(input, c) then input[KeyFor(c).value] else Num(0.0)
  }

  /** `c in features` after line 65: a schema name, or a column the input wrote. */
  predicate Present(input: Input, schema: seq<string>, c: string) {
    c in schema || Supplied(input, c)
  }

  /** `features = {feat: 0 for feat in feature_names}` (model_loader.py:33). */
  function Initial(schema: seq<string>): (f: Features)
    ensures forall c :: c in f <==> c in schema
    ensures forall c :: c in f ==> f[c] == Num(0.0)
  {
    map c | c in schema :: Num(0.0)
  }

  /** `if key in user_input: features[column] = user_input[key]` */
  function CopyKey(f: Features, input: Input, key: string, column: string): (g: Features)
    ensures f.Keys <= g.Keys
  {
    if key in input then f[column := input[key]] else f
  }

  /** The first `n` guarded copies of model_loader.py:36-65, in source order. */
  function RenamedUpTo(f: Features, input: Input, n: nat): (g: Features)
    requires n <= Steps
    ensures f.Keys <= g.Keys
  {
    if n == 0 then f
    else
      var g := RenamedUpTo(f, input, n - 1);
      CopyKey(g, input, KeyAt(n - 1), ColumnAt(n - 1))
  }

  /** All ten copies. */
  function Renamed(f: Features, input: Input): Features {
    RenamedUpTo(f, input, Steps)
  }

  /** The `features` dictionary once initialisation and the copies have run. */
  function Copied(input: Input, schema: seq<string>): (f: Features)
    ensures forall c :: c in schema ==> c in f
  {
    Renamed(Initial(schema), input)
  }

  /** After the first `n` copies, column `c` holds the input's value if
      its copy is among them and its key was supplied, and is otherwise as before. */
  lemma {:induction false} RenamedUpToAt(f: Features, input: Input, n: nat, c: string)
    requires n <= Steps
    ensures c in RenamedUpTo(f, input, n) <==>
      c in f || (ColumnStep(c) < n && KeyAt(ColumnStep(c)) in input)
    ensures c in RenamedUpTo(f, input, n) ==>
      RenamedUpTo(f, input, n)[c] ==
        if ColumnStep(c) < n && KeyAt(ColumnStep(c)) in input then input[KeyAt(ColumnStep(c))] else f[c]
  {
    if n > 0 {
      RenamedUpToAt(f, input, n - 1, c);
      StepsDistinct(n - 1);
    }
  }

  /** After the copies, a column is present exactly when it is a schema name
      or the input wrote it, and holds the input's value or the initial 0. */
  lemma CopiedAt(input: Input, schema: seq<string>, c: string)
    ensures c in Copied(input, schema) <==> Present(input, schema, c)
    ensures c in Copied(input, schema) ==> Copied(input, schema)[c] == Base(input, c)
  {
    RenamedUpToAt(Initial(schema), input, Steps, c);
  }

  // ---------------------------------------------------------------------
  // A derived ratio (model_loader.py:68-74)
  // ---------------------------------------------------------------------

  predicate Positive(v: Value) {
    v.Num? && v.x > 0.0
  }

  /** One guarded ratio rule: when `target` and `den` are keys of `f`, and
      `f[den] > 0 and f[num] > 0` holds, `target` becomes `f[num] / f[den]`.
      The comparisons are Python's, so a string or None raises TypeError,
      and a missing `num` raises KeyError once `f[den] > 0` has held. */
  function DeriveRatio(f: Features, target: string, num: string, den: string): (r: Result<Features>)
    requires target != num && target != den
    ensures r.Ok? ==> r.value.Keys == f.Keys
    ensures r.Ok? ==> forall c :: c in f && c != target ==> r.value[c] == f[c]
    // the division happens only with both operands strictly positive
    ensures r.Ok? && target in f ==>
      r.value[target] == f[target] ||
      (den in f && num in f && Positive(f[den]) && Positive(f[num])
       && r.value[target] == Num(f[num].x / f[den].x))
    ensures r.Ok? && target in f && den in f && num in f && Positive(f[den]) && Positive(f[num]) ==>
      r.value[target] == Num(f[num].x / f[den].x)
    // errors arise only where the rule applies, and are only these two
    ensures r.Err? ==> target in f && den in f
    ensures r.Err? ==> r.error == KeyError(num) || r.error == TypeError
    ensures r == Err(KeyError(num)) <==>
      target in f && den in f && Positive(f[den]) && num !in f
    ensures r == Err(TypeError) <==>
      target in f && den in f &&
      (!Comparable(f[den]) || (Positive(f[den]) && num in f && !Comparable(f[num])))
  {
    if target in f && den in f then
      var denPositive :- GreaterThanZero(f[den]);
      if !denPositive then Ok(f)
      else if num !in f then Err(KeyError(num))
      else
        var numPositive :- GreaterThanZero(f[num]);
        if numPositive then Ok(f[target := Num(f[num].x / f[den].x)]) else Ok(f)
    else Ok(f)
  }

  // ---------------------------------------------------------------------
  // The whole of apply_defaults, as a function
  // ---------------------------------------------------------------------

  /** `df[feature_names].fillna(0)` for a one-row frame built from `f`. */
  function Project(f: Features, schema: seq<string>): (row: seq<Value>)
    requires forall c :: c in schema ==> c in f
    ensures |row| == |schema|
    ensures forall i :: 0 <= i < |schema| ==> row[i] == FillNa(f[schema[i]])
  {
    seq(|schema|, i requires 0 <= i < |schema| => FillNa(f[schema[i]]))
  }

  /** Lines 67-80 on the copied dictionary: the two ratio rules, then the projection. */
  function DeriveAndProject(f0: Features, schema: seq<string>): (r: Result<seq<Value>>)
    requires forall c :: c in schema ==> c in f0
    ensures r.Ok? ==> |r.value| == |schema|
  {
    var f1 :- DeriveRatio(f0, FundingVelocity, FundingTotal, StartupAge);
    var f2 :- DeriveRatio(f1, FundingPerRound, FundingTotal, FundingRounds);
    Ok(Project(f2, schema))
  }

  /** apply_defaults as one function: initialise, copy, derive, project. */
  function Reconstruct(input: Input, schema: seq<string>): (r: Result<seq<Value>>)
    ensures r.Ok? ==> |r.value| == |schema|
  {
    DeriveAndProject(Copied(input, schema), schema)
  }

  // ---------------------------------------------------------------------
  // apply_defaults as the source runs it: one dictionary, updated in place
  // ---------------------------------------------------------------------

  method ApplyDefaults(input: Input, schema: seq<string>) returns (r: Result<seq<Value>>)
    ensures r == Reconstruct(input, schema)
    ensures r.Ok? ==> |r.value| == |schema|
  {
    var features := InitialFeatures(schema);
    // the ten guarded copies of lines 36-65
    features := Renamed(features, input);

    // the two guarded ratios, in source order
    features :- DeriveRatio(features, FundingVelocity, FundingTotal, StartupAge);
    features :- DeriveRatio(features, FundingPerRound, FundingTotal, FundingRounds);

    // df[self.feature_names].fillna(0)
    var row: seq<Value> := [];
    for i := 0 to |schema|
      invariant |row| == i
      invariant forall j :: 0 <= j < i ==> row[j] == FillNa(features[schema[j]])
    {
      row := row + [FillNa(features[schema[i]])];
    }
    assert row == Project(features, schema);
    r := Ok(row);
  }

  /** `{feat: 0 for feat in self.feature_names}`, one schema name at a time. */
  method InitialFeatures(schema: seq<string>) returns (features: Features)
    ensures features == Initial(schema)
  {
    features := map[];
    for i := 0 to |schema|
      invariant forall c :: c in features <==> c in schema[..i]
      invariant forall c :: c in features ==> features[c] == Num(0.0)
    {
      features := features[schema[i] := Num(0.0)];
    }
    assert schema[..|schema|] == schema;
  }
}
