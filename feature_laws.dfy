/** What apply_defaults promises about the row it builds, stated against a
    column-by-column reference (`Column`) that never mentions the dictionary. */
module FeatureLaws {
  import opened Values
  import opened Features

  /** The names the two ratio rules read besides their targets. */
  const RatioOperands: set<string> := {FundingTotal, StartupAge, FundingRounds}

  /** The ratio rule for `target` reaches its division: the target is a
      schema column, `den` is present and positive, and so is the funding total. */
  predicate Fires(input: Input, schema: seq<string>, target: string, den: string) {
    && target in schema
    && Present(input, schema, den) && Positive(Base(input, den))
    && Present(input, schema, FundingTotal) && Positive(Base(input, FundingTotal))
  }

  /** The ratio rule for `target` gets as far as reading the funding total. */
  predicate Asks(input: Input, schema: seq<string>, target: string, den: string) {
    target in schema && Present(input, schema, den) && Positive(Base(input, den))
  }

  /** Reference value of column `c` in the output row. */
  function Column(input: Input, schema: seq<string>, c: string): Value {
    if c == FundingVelocity && Fires(input, schema, FundingVelocity, StartupAge) then
      Num(Base(input, FundingTotal).x / Base(input, StartupAge).x)
    else if c == FundingPerRound && Fires(input, schema, FundingPerRound, FundingRounds) then
      Num(Base(input, FundingTotal).x / Base(input, FundingRounds).x)
    else
      FillNa(Base(input, c))
  }

  /** The row has one cell per schema name, in schema order, and each cell
      is the reference value of its column. */
  lemma ReconstructColumns(input: Input, schema: seq<string>)
    requires Reconstruct(input, schema).Ok?
    ensures |Reconstruct(input, schema).value| == |schema|
    ensures forall i :: 0 <= i < |schema| ==>
      Reconstruct(input, schema).value[i] == Column(input, schema, schema[i])
  {
    var f0 := Copied(input, schema);
    CopiedAt(input, schema, FundingTotal);
    CopiedAt(input, schema, StartupAge);
    CopiedAt(input, schema, FundingRounds);
    CopiedAt(input, schema, FundingVelocity);
    CopiedAt(input, schema, FundingPerRound);
    var f1 := DeriveRatio(f0, FundingVelocity, FundingTotal, StartupAge).value;
    var f2 := DeriveRatio(f1, FundingPerRound, FundingTotal, FundingRounds).value;
    assert Reconstruct(input, schema).value == Project(f2, schema);
    forall i | 0 <= i < |schema|
      ensures Reconstruct(input, schema).value[i] == Column(input, schema, schema[i])
    {
      CopiedAt(input, schema, schema[i]);
    }
  }

  /** A schema column that no input key wrote and no ratio rule filled is 0. */
  lemma UnwrittenColumnsAreZero(input: Input, schema: seq<string>, i: int)
    requires Reconstruct(input, schema).Ok? && 0 <= i < |schema|
    requires !Supplied(input, schema[i])
    requires schema[i] == FundingVelocity ==> !Fires(input, schema, FundingVelocity, StartupAge)
    requires schema[i] == FundingPerRound ==> !Fires(input, schema, FundingPerRound, FundingRounds)
    ensures Reconstruct(input, schema).value[i] == Num(0.0)
  {
    ReconstructColumns(input, schema);
  }

  /** funding_velocity and funding_per_round hold funding_total_usd divided by
      a strictly positive startup_age or funding_rounds, and 0 otherwise. */
  lemma DerivedColumns(input: Input, schema: seq<string>, i: int)
    requires Reconstruct(input, schema).Ok? && 0 <= i < |schema|
    ensures schema[i] == FundingVelocity ==>
      if Fires(input, schema, FundingVelocity, StartupAge) then
        Base(input, StartupAge).x > 0.0 &&
        Reconstruct(input, schema).value[i] == Num(Base(input, FundingTotal).x / Base(input, StartupAge).x)
      else Reconstruct(input, schema).value[i] == Num(0.0)
    ensures schema[i] == FundingPerRound ==>
      if Fires(input, schema, FundingPerRound, FundingRounds) then
        Base(input, FundingRounds).x > 0.0 &&
        Reconstruct(input, schema).value[i] == Num(Base(input, FundingTotal).x / Base(input, FundingRounds).x)
      else Reconstruct(input, schema).value[i] == Num(0.0)
  {
    ReconstructColumns(input, schema);
  }

  /** With a number (or NaN) in each of the three ratio operands, the one way
      apply_defaults fails is the KeyError on funding_total_usd: a ratio rule
      reaches its second comparison while neither the schema nor
      `funding_total` supplied it. Other columns are copied but never
      compared, so they may hold anything. */
  lemma FailsExactlyOnMissingFunding(input: Input, schema: seq<string>)
    requires forall c :: c in RatioOperands ==> Comparable(Base(input, c))
    ensures Reconstruct(input, schema).Err? <==>
      !Present(input, schema, FundingTotal) &&
      (Asks(input, schema, FundingVelocity, StartupAge) || Asks(input, schema, FundingPerRound, FundingRounds))
    ensures Reconstruct(input, schema).Err? ==> Reconstruct(input, schema).error == KeyError(FundingTotal)
  {
    var f0 := Copied(input, schema);
    CopiedAt(input, schema, FundingTotal);
    CopiedAt(input, schema, StartupAge);
    CopiedAt(input, schema, FundingRounds);
    CopiedAt(input, schema, FundingVelocity);
    CopiedAt(input, schema, FundingPerRound);
    assert Comparable(Base(input, FundingTotal)) && Comparable(Base(input, StartupAge))
      && Comparable(Base(input, FundingRounds));
    var r1 := DeriveRatio(f0, FundingVelocity, FundingTotal, StartupAge);
    if r1.Ok? {
      var r2 := DeriveRatio(r1.value, FundingPerRound, FundingTotal, FundingRounds);
      assert r2.Err? ==> r2 == Err(KeyError(FundingTotal));
    } else {
      assert r1 == Err(KeyError(FundingTotal));
    }
  }

  /** For every input, apply_defaults fails only with the KeyError on
      funding_total_usd or with a TypeError, and a TypeError needs None or a
      string in one of the three ratio operands. */
  lemma FailureKinds(input: Input, schema: seq<string>)
    ensures Reconstruct(input, schema).Err? ==>
      Reconstruct(input, schema).error in {KeyError(FundingTotal), TypeError}
    ensures Reconstruct(input, schema) == Err(TypeError) ==>
      !Comparable(Base(input, FundingTotal)) || !Comparable(Base(input, StartupAge))
      || !Comparable(Base(input, FundingRounds))
  {
    CopiedAt(input, schema, FundingTotal);
    CopiedAt(input, schema, StartupAge);
    CopiedAt(input, schema, FundingRounds);
  }

  /** The request {} never fails and yields a row of zeros. */
  lemma EmptyInputGivesZeroRow(schema: seq<string>)
    ensures Reconstruct(map[], schema).Ok?
    ensures Reconstruct(map[], schema).value == seq(|schema|, _ => Num(0.0))
  {
    FailsExactlyOnMissingFunding(map[], schema);
    ReconstructColumns(map[], schema);
  }

  // ---------------------------------------------------------------------
  // Which input keys can influence the row
  // ---------------------------------------------------------------------

  predicate AgreeOn(f: Features, g: Features, names: set<string>) {
    forall c :: c in names ==> (c in f <==> c in g) && (c in f ==> f[c] == g[c])
  }

  /** A ratio rule reads only its target and its two operands. */
  lemma DeriveRatioAgrees(f: Features, g: Features, names: set<string>, target: string, num: string, den: string)
    requires target != num && target != den
    requires AgreeOn(f, g, names) && target in names && num in names && den in names
    ensures DeriveRatio(f, target, num, den).Err? == DeriveRatio(g, target, num, den).Err?
    ensures DeriveRatio(f, target, num, den).Err? ==>
      DeriveRatio(f, target, num, den).error == DeriveRatio(g, target, num, den).error
    ensures DeriveRatio(f, target, num, den).Ok? ==>
      AgreeOn(DeriveRatio(f, target, num, den).value, DeriveRatio(g, target, num, den).value, names)
  {
    if target in f && den in f && GreaterThanZero(f[den]) == Ok(true) && num in f {
      assert f[num] == g[num];
    }
  }

  /** Every name the row or the ratio rules look at. */
  function Watched(schema: seq<string>): set<string> {
    (set c | c in schema) + RatioOperands + {FundingVelocity, FundingPerRound}
  }

  lemma CopiedAgree(input1: Input, input2: Input, schema: seq<string>)
    requires forall c :: c in schema || c in RatioOperands ==>
      Supplied(input1, c) == Supplied(input2, c) && Base(input1, c) == Base(input2, c)
    ensures AgreeOn(Copied(input1, schema), Copied(input2, schema), Watched(schema))
  {
    forall c | c in Watched(schema)
      ensures (c in Copied(input1, schema) <==> c in Copied(input2, schema))
      ensures c in Copied(input1, schema) ==> Copied(input1, schema)[c] == Copied(input2, schema)[c]
    {
      CopiedAt(input1, schema, c);
      CopiedAt(input2, schema, c);
    }
  }

  /** The ratio rules and the projection read only the watched names. */
  lemma DeriveAndProjectAgrees(f0: Features, g0: Features, schema: seq<string>)
    requires forall c :: c in schema ==> c in f0 && c in g0
    requires AgreeOn(f0, g0, Watched(schema))
    ensures DeriveAndProject(f0, schema) == DeriveAndProject(g0, schema)
  {
    var names := Watched(schema);
    DeriveRatioAgrees(f0, g0, names, FundingVelocity, FundingTotal, StartupAge);
    var r1, s1 := DeriveRatio(f0, FundingVelocity, FundingTotal, StartupAge),
                  DeriveRatio(g0, FundingVelocity, FundingTotal, StartupAge);
    if r1.Ok? {
      DeriveRatioAgrees(r1.value, s1.value, names, FundingPerRound, FundingTotal, FundingRounds);
      var r2, s2 := DeriveRatio(r1.value, FundingPerRound, FundingTotal, FundingRounds),
                    DeriveRatio(s1.value, FundingPerRound, FundingTotal, FundingRounds);
      if r2.Ok? {
        assert Project(r2.value, schema) == Project(s2.value, schema);
      }
    }
  }

  /** The row depends only on what the copies leave in the schema columns
      and in the three ratio operands. */
  lemma ReconstructAgrees(input1: Input, input2: Input, schema: seq<string>)
    requires forall c :: c in schema || c in RatioOperands ==>
      Supplied(input1, c) == Supplied(input2, c) && Base(input1, c) == Base(input2, c)
    ensures Reconstruct(input1, schema) == Reconstruct(input2, schema)
  {
    CopiedAgree(input1, input2, schema);
    DeriveAndProjectAgrees(Copied(input1, schema), Copied(input2, schema), schema);
  }

  /** A key outside the renaming table (`category`, `state`, and also
      `has_roundA`, since the table reads `has_series_a`) has no effect on
      the outcome, whether it is set to anything or absent. */
  lemma IgnoredKeysHaveNoEffect(input: Input, schema: seq<string>, k: string, v: Value)
    requires ColumnOf(k).None?
    ensures Reconstruct(input[k := v], schema) == Reconstruct(input, schema)
    ensures Reconstruct(input - {k}, schema) == Reconstruct(input, schema)
  {
    forall c ensures KeyFor(c) != Some(k) {
      ColumnKeyRoundTrip(k, c);
    }
    ReconstructAgrees(input[k := v], input, schema);
    ReconstructAgrees(input - {k}, input, schema);
  }

  /** A copied key whose column is not in the schema, and is not one the
      ratio rules read, is dropped by the projection: it has no effect. */
  lemma UnlistedColumnsAreDropped(input: Input, schema: seq<string>, k: string, v: Value)
    requires ColumnOf(k).Some? && ColumnOf(k).value !in schema && ColumnOf(k).value !in RatioOperands
    ensures Reconstruct(input[k := v], schema) == Reconstruct(input, schema)
    ensures Reconstruct(input - {k}, schema) == Reconstruct(input, schema)
  {
    forall c | c in schema || c in RatioOperands ensures KeyFor(c) != Some(k) {
      ColumnKeyRoundTrip(k, c);
    }
    ReconstructAgrees(input[k := v], input, schema);
    ReconstructAgrees(input - {k}, input, schema);
  }

  // ---------------------------------------------------------------------
  // Requests as the web route builds them (app.py:17-30)
  // ---------------------------------------------------------------------

  const RouteNumericKeys: set<string> :=
    {"funding_total", FundingRounds, StartupAge, "milestones", "relationships", "avg_participants",
     "has_vc", "has_angel", "has_roundA", "is_top500"}

  /** The route always sends these twelve keys: ten numbers (after
      float()/int(), which may give NaN), and category and state passed on
      unconverted from the JSON body, so they may hold any value. */
  predicate RouteInput(input: Input) {
    && input.Keys == RouteNumericKeys + {"category", "state"}
    && (forall k :: k in RouteNumericKeys ==> Comparable(input[k]))
  }

  /** Every value a route request copies is a number or NaN, and the key
      the table reads for has_roundA, `has_series_a`, is never sent. */
  lemma RouteValuesComparable(input: Input)
    requires RouteInput(input)
    ensures "has_series_a" !in input
    ensures forall c :: Supplied(input, c) ==> Comparable(Base(input, c))
  {
    forall c | Supplied(input, c) ensures Comparable(Base(input, c)) {
      var k := KeyFor(c).value;
      assert k != "category" && k != "state";
    }
  }

  /** A route request never fails, and its `has_roundA` flag never reaches
      the row: the has_roundA column is always 0. */
  lemma RouteRequestsSucceed(input: Input, schema: seq<string>)
    requires RouteInput(input)
    ensures Reconstruct(input, schema).Ok?
    ensures forall i :: 0 <= i < |schema| && schema[i] == "has_roundA" ==>
      Reconstruct(input, schema).value[i] == Num(0.0)
  {
    RouteValuesComparable(input);
    FailsExactlyOnMissingFunding(input, schema);
    ReconstructColumns(input, schema);
    assert !Supplied(input, "has_roundA");
  }
}
