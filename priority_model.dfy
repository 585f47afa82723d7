/** The deterministic parts of PriorityScorer: building the model's input vector, the
    Bhopal-specific multipliers, and the clip-and-truncate that yields a score in 1..100.
    The trained model itself is a parameter `predict` from the feature vector to its base
    prediction, or to the text of the exception the model raises. */
module PriorityModel {
  import opened Wrappers

  /** A value of the feature dictionary: a number or a string (JSON and Python scalars). */
  datatype Value = Num(x: real) | Text(s: string)

  type Features = map<string, Value>

  /** A fitted label encoder: each known label and its code. */
  type Encoder = map<Value, nat>

  /** The model's input columns, in the order the model was trained on. */
  const FeatureColumns: seq<string> := [
    "issue_type", "soil_type", "rainfall", "wind_speed",
    "temperature", "humidity", "elevation", "proximity_to_water",
    "population_density", "time_since_last_rain"
  ]

  /** The columns replaced by their label code when an encoder for them is loaded. */
  const CategoricalColumns: seq<string> := ["issue_type", "soil_type"]

  /** The error a label encoder raises for a label it was not fitted on. */
  const UnseenLabel: string := "y contains previously unseen labels"

  /** `features.get(col, default)` */
  function Get(features: Features, col: string, default: Value): Value {
    if col in features then features[col] else default
  }

  /** One step of the encoding loop: `col` is replaced by its code only when the key is
      present and an encoder for it exists. */
  function EncodeColumn(features: Features, encoders: map<string, Encoder>, col: string): (r: Result<Features>)
    ensures r.Failure? <==> col in features && col in encoders && features[col] !in encoders[col]
    ensures r.Success? ==> r.value.Keys == features.Keys
    ensures r.Success? ==> forall k :: k in features && k != col ==> r.value[k] == features[k]
    ensures r.Success? && col in features ==>
      r.value[col] == if col in encoders then Num(encoders[col][features[col]] as real) else features[col]
  {
    if col in features && col in encoders then
      var encoder := encoders[col];
      if features[col] in encoder then Success(features[col := Num(encoder[features[col]] as real)])
      else Failure(UnseenLabel)
    else Success(features)
  }

  /** The encoding loop over `cols`, stopping at the first error. */
  function EncodeAll(features: Features, encoders: map<string, Encoder>, cols: seq<string>): Result<Features>
  {
    if cols == [] then Success(features)
    else match EncodeColumn(features, encoders, cols[0])
      case Failure(e) => Failure(e)
      case Success(next) => EncodeAll(next, encoders, cols[1..])
  }

  /** A column of `cols` holds a label its encoder does not know. */
  predicate HasUnseenLabel(features: Features, encoders: map<string, Encoder>, cols: seq<string>) {
    exists col :: col in cols && col in features && col in encoders && features[col] !in encoders[col]
  }

  /** What encoding does, column by column: each listed column present in the features and
      having an encoder becomes its code, every other entry is untouched, and the loop fails
      exactly when one of those columns holds an unseen label. */
  lemma {:induction false} EncodeAllEffect(features: Features, encoders: map<string, Encoder>, cols: seq<string>)
    requires forall i, j :: 0 <= i < j < |cols| ==> cols[i] != cols[j]
    ensures EncodeAll(features, encoders, cols).Failure? <==> HasUnseenLabel(features, encoders, cols)
    ensures EncodeAll(features, encoders, cols).Success? ==>
      var encoded := EncodeAll(features, encoders, cols).value;
      && encoded.Keys == features.Keys
      && (forall k :: k in features && (k !in cols || k !in encoders) ==> encoded[k] == features[k])
      && (forall k :: k in features && k in cols && k in encoders ==>
            features[k] in encoders[k] && encoded[k] == Num(encoders[k][features[k]] as real))
  {
    if cols != [] {
      var col := cols[0];
      var rest := cols[1..];
      assert forall k :: k in cols <==> k == col || k in rest;
      match EncodeColumn(features, encoders, col)
      case Failure(e) =>
        assert HasUnseenLabel(features, encoders, cols);
      case Success(next) =>
        EncodeAllEffect(next, encoders, rest);
        assert col !in rest;
        assert forall k :: k in rest && k in features ==> next[k] == features[k];
        if HasUnseenLabel(next, encoders, rest) {
          var k :| k in rest && k in next && k in encoders && next[k] !in encoders[k];
          assert k in cols && features[k] !in encoders[k];
        }
        if HasUnseenLabel(features, encoders, cols) {
          var k :| k in cols && k in features && k in encoders && features[k] !in encoders[k];
          assert k != col;
          assert HasUnseenLabel(next, encoders, rest);
        }
    }
  }

  /** Looks up each column in order, with 0 for a missing one. */
  function FeatureVector(features: Features): (v: seq<Value>)
    ensures |v| == |FeatureColumns|
    ensures forall i :: 0 <= i < |v| ==>
      (FeatureColumns[i] in features ==> v[i] == features[FeatureColumns[i]])
      && (FeatureColumns[i] !in features ==> v[i] == Num(0.0))
  {
    seq(|FeatureColumns|, i requires 0 <= i < |FeatureColumns| => Get(features, FeatureColumns[i], Num(0.0)))
  }

  /** prepare_features: encodes the categorical columns of the caller's dictionary in place,
      then builds the vector column by column. Returns the dictionary as it stands afterwards
      together with the vector. */
  method PrepareFeatures(features: Features, encoders: map<string, Encoder>)
    returns (r: Result<(Features, seq<Value>)>)
    ensures r.Failure? <==> EncodeAll(features, encoders, CategoricalColumns).Failure?
    ensures r.Failure? ==> EncodeAll(features, encoders, CategoricalColumns) == Failure(r.error)
    ensures r.Success? ==>
      && r.value.0 == EncodeAll(features, encoders, CategoricalColumns).value
      && r.value.1 == FeatureVector(r.value.0)
  {
    var current := features;
    var i := 0;
    while i < |CategoricalColumns|
      invariant 0 <= i <= |CategoricalColumns|
      invariant EncodeAll(features, encoders, CategoricalColumns) == EncodeAll(current, encoders, CategoricalColumns[i..])
    {
      var col := CategoricalColumns[i];
      if col in current && col in encoders {
        if current[col] !in encoders[col] {
          return Failure(UnseenLabel);
        }
        current := current[col := Num(encoders[col][current[col]] as real)];
      }
      i := i + 1;
    }
    var vector: seq<Value> := [];
    var j := 0;
    while j < |FeatureColumns|
      invariant 0 <= j <= |FeatureColumns|
      invariant |vector| == j
      invariant forall k :: 0 <= k < j ==> vector[k] == Get(current, FeatureColumns[k], Num(0.0))
    {
      vector := vector + [Get(current, FeatureColumns[j], Num(0.0))];
      j := j + 1;
    }
    return Success((current, vector));
  }

  const BlackCottonFactor: real := 1.3
  const DenseFactor: real := 1.2
  const NearWaterFactor: real := 1.15
  const DensityThreshold: real := 5000.0
  const WaterThreshold: real := 500.0
  /** The largest multiplier: all three factors at once, 1.3 * 1.2 * 1.15. */
  const MaxMultiplier: real := 1.794

  /** `value > bound` or `value < bound` on a feature: Python raises TypeError for a string. */
  function Exceeds(v: Value, bound: real): Result<bool> {
    match v
    case Num(x) => Success(x > bound)
    case Text(_) => Failure("'>' not supported between instances of 'str' and 'int'")
  }

  function Below(v: Value, bound: real): Result<bool> {
    match v
    case Num(x) => Success(x < bound)
    case Text(_) => Failure("'<' not supported between instances of 'str' and 'int'")
  }

  predicate OnBlackCotton(features: Features) {
    "soil_type" in features && features["soil_type"] == Text("black_cotton")
  }

  /** The factors that apply to `features`, each listed at most once: black cotton soil,
      population density above 5000 (missing counts as 0), water closer than 500 m (missing
      counts as 1000). */
  function QualifyingFactors(features: Features): Result<seq<real>> {
    var dense :- Exceeds(Get(features, "population_density", Num(0.0)), DensityThreshold);
    var nearWater :- Below(Get(features, "proximity_to_water", Num(1000.0)), WaterThreshold);
    Success((if OnBlackCotton(features) then [BlackCottonFactor] else [])
          + (if dense then [DenseFactor] else [])
          + (if nearWater then [NearWaterFactor] else []))
  }

  function Product(factors: seq<real>): real {
    if factors == [] then 1.0 else factors[0] * Product(factors[1..])
  }

  /** The adjusted score: the score times the product of the qualifying factors. */
  function Adjusted(score: real, features: Features): Result<real> {
    var factors :- QualifyingFactors(features);
    Success(score * Product(factors))
  }

  /** The multiplier loop of apply_bhopal_factors: it starts at 1.0 and is scaled once per
      qualifying factor, in the order soil, population, water. */
  method BhopalMultiplier(features: Features) returns (m: Result<real>)
    ensures m.Success? <==> QualifyingFactors(features).Success?
    ensures m.Failure? ==> m.error == QualifyingFactors(features).error
    ensures m.Success? ==> m.value == StepwiseMultiplier(features)
  {
    var adjustments := 1.0;
    if "soil_type" in features && features["soil_type"] == Text("black_cotton") {
      adjustments := adjustments * BlackCottonFactor;
    }
    var dense := Exceeds(Get(features, "population_density", Num(0.0)), DensityThreshold);
    if dense.Failure? {
      return Failure(dense.error);
    }
    if dense.value {
      adjustments := adjustments * DenseFactor;
    }
    var nearWater := Below(Get(features, "proximity_to_water", Num(1000.0)), WaterThreshold);
    if nearWater.Failure? {
      return Failure(nearWater.error);
    }
    if nearWater.value {
      adjustments := adjustments * NearWaterFactor;
    }
    return Success(adjustments);
  }

  /** apply_bhopal_factors: the score times the multiplier. */
  method ApplyBhopalFactors(score: real, features: Features) returns (r: Result<real>)
    ensures r == Adjusted(score, features)
  {
    var multiplier := BhopalMultiplier(features);
    if multiplier.Failure? {
      return Failure(multiplier.error);
    }
    AdjustedIsStepwise(score, features);
    return Success(score * multiplier.value);
  }

  /** The multiplier as apply_bhopal_factors builds it: one factor per rule, 1.0 when the
      rule does not apply. */
  function StepwiseMultiplier(features: Features): real
    requires QualifyingFactors(features).Success?
  {
    (if OnBlackCotton(features) then BlackCottonFactor else 1.0)
    * (if Exceeds(Get(features, "population_density", Num(0.0)), DensityThreshold).value then DenseFactor else 1.0)
    * (if Below(Get(features, "proximity_to_water", Num(1000.0)), WaterThreshold).value then NearWaterFactor else 1.0)
  }

  /** The step-by-step multiplier equals the product of the qualifying factors. */
  lemma AdjustmentIsProduct(features: Features)
    requires QualifyingFactors(features).Success?
    ensures Product(QualifyingFactors(features).value) == StepwiseMultiplier(features)
  {
    var soil: seq<real> := if OnBlackCotton(features) then [BlackCottonFactor] else [];
    var dense: seq<real> := if Exceeds(Get(features, "population_density", Num(0.0)), DensityThreshold).value then [DenseFactor] else [];
    var near: seq<real> := if Below(Get(features, "proximity_to_water", Num(1000.0)), WaterThreshold).value then [NearWaterFactor] else [];
    assert QualifyingFactors(features).value == soil + dense + near;
    ProductAppend(soil + dense, near);
    ProductAppend(soil, dense);
  }

  /** Adjusted in terms of the step-by-step multiplier. */
  lemma AdjustedIsStepwise(score: real, features: Features)
    requires QualifyingFactors(features).Success?
    ensures Adjusted(score, features) == Success(score * StepwiseMultiplier(features))
  {
    AdjustmentIsProduct(features);
  }

  lemma {:induction false} ProductAppend(a: seq<real>, b: seq<real>)
    ensures Product(a + b) == Product(a) * Product(b)
  {
    if a == [] {
      assert a + b == b;
    } else {
      assert (a + b)[0] == a[0] && (a + b)[1..] == a[1..] + b;
      ProductAppend(a[1..], b);
      calc {
        Product(a + b);
        a[0] * Product(a[1..] + b);
        a[0] * (Product(a[1..]) * Product(b));
        (a[0] * Product(a[1..])) * Product(b);
      }
    }
  }

  /** The rules fail exactly when a thresholded feature holds a string, and otherwise each
      factor is listed, once, exactly when its strict threshold is crossed. */
  lemma QualifyingFactorsExactly(features: Features)
    ensures QualifyingFactors(features).Failure? <==>
      Get(features, "population_density", Num(0.0)).Text? || Get(features, "proximity_to_water", Num(1000.0)).Text?
    ensures QualifyingFactors(features).Success? ==>
      var factors := QualifyingFactors(features).value;
      && |factors| <= 3
      && (forall i, j :: 0 <= i < j < |factors| ==> factors[i] != factors[j])
      && (BlackCottonFactor in factors <==> OnBlackCotton(features))
      && (DenseFactor in factors <==> Get(features, "population_density", Num(0.0)).x > DensityThreshold)
      && (NearWaterFactor in factors <==> Get(features, "proximity_to_water", Num(1000.0)).x < WaterThreshold)
  {
  }

  /** The multiplier lies between 1 and 1.3 * 1.2 * 1.15. */
  lemma MultiplierBounds(features: Features)
    requires QualifyingFactors(features).Success?
    ensures 1.0 <= Product(QualifyingFactors(features).value) <= MaxMultiplier
  {
    AdjustmentIsProduct(features);
  }

  /** For a non-negative score the adjustment never lowers it and at most multiplies it by
      1.3 * 1.2 * 1.15. */
  lemma AdjustedBounds(score: real, features: Features)
    requires score >= 0.0
    requires Adjusted(score, features).Success?
    ensures score <= Adjusted(score, features).value <= score * MaxMultiplier
  {
    MultiplierBounds(features);
    var m := Product(QualifyingFactors(features).value);
    assert Adjusted(score, features).value == score * m;
    assert score * MaxMultiplier - score * m == score * (MaxMultiplier - m);
    assert score * m - score == score * (m - 1.0);
    assert m <= MaxMultiplier && 1.0 <= m;
    var d := MaxMultiplier - m;
    assert d >= 0.0;
    assert score * d >= 0.0;
    assert score * (m - 1.0) >= 0.0;
    assert score * 1.0 <= score * m <= score * MaxMultiplier;
  }

  /** Without a qualifying factor the score is returned unchanged; a missing population
      density or proximity qualifies for nothing, and the thresholds themselves do not qualify. */
  lemma NoFactorKeepsScore(score: real, features: Features)
    requires !OnBlackCotton(features)
    requires "population_density" in features ==> features["population_density"].Num? && features["population_density"].x <= DensityThreshold
    requires "proximity_to_water" in features ==> features["proximity_to_water"].Num? && features["proximity_to_water"].x >= WaterThreshold
    ensures Adjusted(score, features) == Success(score)
  {
    assert QualifyingFactors(features).value == [];
  }

  /** `np.clip(x, lo, hi)` */
  function Clip(x: real, lo: real, hi: real): (r: real)
    requires lo <= hi
    ensures lo <= r <= hi
    ensures lo <= x <= hi ==> r == x
  {
    if x < lo then lo else if x > hi then hi else x
  }

  /** Python's `int(x)` on a float: truncation toward zero. */
  function Truncate(x: real): (n: int)
    ensures x >= 0.0 ==> n as real <= x < n as real + 1.0
    ensures x < 0.0 ==> n as real - 1.0 < x <= n as real
  {
    if x >= 0.0 then x.Floor else -((-x).Floor)
  }

  /** The tail of calculate_hazard_score: scale to a percentage, clip to 1..100, truncate. */
  function FinalScore(adjusted: real): (r: int)
    ensures 1 <= r <= 100
    ensures adjusted * 100.0 >= 100.0 ==> r == 100
    ensures adjusted * 100.0 < 2.0 ==> r == 1
    ensures 1.0 <= adjusted * 100.0 <= 100.0 ==> r as real <= adjusted * 100.0 < r as real + 1.0
  {
    Truncate(Clip(adjusted * 100.0, 1.0, 100.0))
  }

  /** A higher adjusted score never yields a lower final score. */
  lemma FinalScoreMonotone(a: real, b: real)
    requires a <= b
    ensures FinalScore(a) <= FinalScore(b)
  {
    assert Clip(a * 100.0, 1.0, 100.0) <= Clip(b * 100.0, 1.0, 100.0);
  }

  /** The dictionary as calculate_hazard_score leaves it for its caller: prepare_features has
      encoded the categorical entries in place. Unchanged when encoding failed. */
  function EncodedInPlace(features: Features, encoders: map<string, Encoder>): Features {
    match EncodeAll(features, encoders, CategoricalColumns)
    case Success(encoded) => encoded
    case Failure(_) => features
  }

  /** calculate_hazard_score, with the multipliers read from the features as submitted. */
  function HazardScore(features: Features, encoders: map<string, Encoder>, predict: seq<Value> -> Result<real>): (r: Result<int>)
    ensures r.Success? ==> 1 <= r.value <= 100
    ensures r.Failure? <==>
      || EncodeAll(features, encoders, CategoricalColumns).Failure?
      || predict(FeatureVector(EncodeAll(features, encoders, CategoricalColumns).value)).Failure?
      || QualifyingFactors(features).Failure?
  {
    var encoded :- EncodeAll(features, encoders, CategoricalColumns);
    var base :- predict(FeatureVector(encoded));
    var adjusted :- Adjusted(base, features);
    Success(FinalScore(adjusted))
  }

  /** calculate_hazard_score as the source writes it: prepare_features has already replaced
      the categorical entries of the same dictionary by their codes when the multipliers are
      read from it. */
  function HazardScoreAsWritten(features: Features, encoders: map<string, Encoder>, predict: seq<Value> -> Result<real>): (r: Result<int>)
    ensures r.Success? ==> 1 <= r.value <= 100
    ensures r.Failure? <==>
      || EncodeAll(features, encoders, CategoricalColumns).Failure?
      || predict(FeatureVector(EncodeAll(features, encoders, CategoricalColumns).value)).Failure?
      || QualifyingFactors(features).Failure?
  {
    var encoded :- EncodeAll(features, encoders, CategoricalColumns);
    var base :- predict(FeatureVector(encoded));
    EncodedFactorsFail(features, encoders);
    var adjusted :- Adjusted(base, encoded);
    Success(FinalScore(adjusted))
  }

  /** The model's input is built by prepare_features, the multipliers from the submitted
      features; the result is the clipped, truncated percentage. */
  method CalculateHazardScore(features: Features, encoders: map<string, Encoder>, predict: seq<Value> -> Result<real>)
    returns (r: Result<int>)
    ensures r == HazardScore(features, encoders, predict)
  {
    var prepared := PrepareFeatures(features, encoders);
    if prepared.Failure? {
      return Failure(prepared.error);
    }
    var baseScore := predict(prepared.value.1);
    if baseScore.Failure? {
      return Failure(baseScore.error);
    }
    var adjusted := ApplyBhopalFactors(baseScore.value, features);
    if adjusted.Failure? {
      return Failure(adjusted.error);
    }
    return Success(FinalScore(adjusted.value));
  }

  /** The same steps as the source orders them: the multipliers are read from the dictionary
      prepare_features has just encoded. */
  method CalculateHazardScoreAsWritten(features: Features, encoders: map<string, Encoder>, predict: seq<Value> -> Result<real>)
    returns (r: Result<int>)
    ensures r == HazardScoreAsWritten(features, encoders, predict)
  {
    var prepared := PrepareFeatures(features, encoders);
    if prepared.Failure? {
      return Failure(prepared.error);
    }
    var baseScore := predict(prepared.value.1);
    if baseScore.Failure? {
      return Failure(baseScore.error);
    }
    var adjusted := ApplyBhopalFactors(baseScore.value, prepared.value.0);
    if adjusted.Failure? {
      return Failure(adjusted.error);
    }
    return Success(FinalScore(adjusted.value));
  }

  lemma CategoricalColumnsDistinct()
    ensures forall i, j :: 0 <= i < j < |CategoricalColumns| ==> CategoricalColumns[i] != CategoricalColumns[j]
  {
  }

  /** Encoding touches only the categorical columns: the thresholded features read the same
      from the encoded dictionary. */
  lemma EncodingKeepsThresholds(features: Features, encoders: map<string, Encoder>)
    requires EncodeAll(features, encoders, CategoricalColumns).Success?
    ensures
      var encoded := EncodeAll(features, encoders, CategoricalColumns).value;
      && Get(encoded, "population_density", Num(0.0)) == Get(features, "population_density", Num(0.0))
      && Get(encoded, "proximity_to_water", Num(1000.0)) == Get(features, "proximity_to_water", Num(1000.0))
  {
    CategoricalColumnsDistinct();
    EncodeAllEffect(features, encoders, CategoricalColumns);
    assert "population_density" !in CategoricalColumns && "proximity_to_water" !in CategoricalColumns;
  }

  /** So the encoded dictionary's factors fail exactly when the submitted features' do. */
  lemma EncodedFactorsFail(features: Features, encoders: map<string, Encoder>)
    requires EncodeAll(features, encoders, CategoricalColumns).Success?
    ensures QualifyingFactors(EncodeAll(features, encoders, CategoricalColumns).value).Failure?
        <==> QualifyingFactors(features).Failure?
  {
    var encoded := EncodeAll(features, encoders, CategoricalColumns).value;
    EncodingKeepsThresholds(features, encoders);
    QualifyingFactorsExactly(features);
    QualifyingFactorsExactly(encoded);
  }

  /** With a soil_type encoder loaded, the submitted features qualify for exactly the encoded
      dictionary's factors plus 1.3 on black cotton soil. */
  lemma EncodedFactors(features: Features, encoders: map<string, Encoder>)
    requires "soil_type" in encoders
    requires EncodeAll(features, encoders, CategoricalColumns).Success?
    requires QualifyingFactors(features).Success?
    ensures
      var encoded := EncodeAll(features, encoders, CategoricalColumns).value;
      && QualifyingFactors(encoded).Success?
      && QualifyingFactors(features).value
           == (if OnBlackCotton(features) then [BlackCottonFactor] else []) + QualifyingFactors(encoded).value
  {
    var encoded := EncodeAll(features, encoders, CategoricalColumns).value;
    EncodingKeepsThresholds(features, encoders);
    AsWrittenNeverAppliesBlackCotton(features, encoders);
    QualifyingFactorsExactly(features);
    var density := Get(features, "population_density", Num(0.0));
    var water := Get(features, "proximity_to_water", Num(1000.0));
    var dense: seq<real> := if density.x > DensityThreshold then [DenseFactor] else [];
    var near: seq<real> := if water.x < WaterThreshold then [NearWaterFactor] else [];
    assert QualifyingFactors(encoded) == Success((if OnBlackCotton(encoded) then [BlackCottonFactor] else []) + dense + near);
    var none: seq<real> := [];
    assert none + dense + near == dense + near;
    assert QualifyingFactors(features) == Success((if OnBlackCotton(features) then [BlackCottonFactor] else []) + dense + near);
  }

  /** The source's score: the clipped percentage of the base prediction adjusted by the
      encoded dictionary. */
  lemma HazardScoreAsWrittenValue(features: Features, encoders: map<string, Encoder>, predict: seq<Value> -> Result<real>)
    requires HazardScoreAsWritten(features, encoders, predict).Success?
    ensures EncodeAll(features, encoders, CategoricalColumns).Success?
    ensures
      var encoded := EncodeAll(features, encoders, CategoricalColumns).value;
      && predict(FeatureVector(encoded)).Success?
      && var base := predict(FeatureVector(encoded)).value;
      && Adjusted(base, encoded).Success?
      && HazardScoreAsWritten(features, encoders, predict).value == FinalScore(Adjusted(base, encoded).value)
  {
  }

  /** One extra factor of 1.3 in front of the others multiplies their product by 1.3. */
  lemma ExtraBlackCottonFactor(factors: seq<real>)
    ensures Product([BlackCottonFactor] + factors) == BlackCottonFactor * Product(factors)
  {
    assert ([BlackCottonFactor] + factors)[1..] == factors;
  }

  /** Black cotton soil with a soil_type encoder loaded: the submitted features' multiplier
      is 1.3 times the encoded dictionary's. */
  lemma BlackCottonMultiplier(features: Features, encoders: map<string, Encoder>)
    requires OnBlackCotton(features) && "soil_type" in encoders
    requires EncodeAll(features, encoders, CategoricalColumns).Success?
    requires QualifyingFactors(features).Success?
    ensures
      var encoded := EncodeAll(features, encoders, CategoricalColumns).value;
      && QualifyingFactors(encoded).Success?
      && Product(QualifyingFactors(features).value) == BlackCottonFactor * Product(QualifyingFactors(encoded).value)
  {
    var encoded := EncodeAll(features, encoders, CategoricalColumns).value;
    EncodedFactors(features, encoders);
    ExtraBlackCottonFactor(QualifyingFactors(encoded).value);
  }

  /** On black cotton soil with a soil_type encoder loaded, both versions succeed together.
      From the same base prediction, the source's version adjusts by the encoded dictionary
      and the corrected one by the submitted features, and the corrected multiplier is
      exactly 1.3 times the source's: the source loses that factor and nothing else. */
  lemma CorrectedScoreRestoresBlackCotton(features: Features, encoders: map<string, Encoder>, predict: seq<Value> -> Result<real>)
    requires OnBlackCotton(features) && "soil_type" in encoders
    requires HazardScore(features, encoders, predict).Success?
    ensures HazardScoreAsWritten(features, encoders, predict).Success?
    ensures
      var encoded := EncodeAll(features, encoders, CategoricalColumns).value;
      && predict(FeatureVector(encoded)).Success?
      && var base := predict(FeatureVector(encoded)).value;
      && QualifyingFactors(encoded).Success?
      && HazardScoreAsWritten(features, encoders, predict).value == FinalScore(Adjusted(base, encoded).value)
      && HazardScore(features, encoders, predict).value == FinalScore(Adjusted(base, features).value)
      && Product(QualifyingFactors(features).value) == BlackCottonFactor * Product(QualifyingFactors(encoded).value)
  {
    BlackCottonMultiplier(features, encoders);
    HazardScoreAsWrittenValue(features, encoders, predict);
  }

  /** As written, once a soil_type encoder is loaded the soil entry the multipliers see is a
      code, never "black_cotton", so the 1.3 factor is never applied. */
  lemma AsWrittenNeverAppliesBlackCotton(features: Features, encoders: map<string, Encoder>)
    requires "soil_type" in encoders
    requires EncodeAll(features, encoders, CategoricalColumns).Success?
    ensures !OnBlackCotton(EncodeAll(features, encoders, CategoricalColumns).value)
  {
    CategoricalColumnsDistinct();
    EncodeAllEffect(features, encoders, CategoricalColumns);
    assert "soil_type" in CategoricalColumns;
  }

  /** A concrete input that shows it: black cotton soil, an encoder that knows the label, a
      base prediction of 0.5. The code as written scores 50; with the factor applied, 65. */
  lemma BlackCottonCounterexample()
    ensures
      var features := map["soil_type" := Text("black_cotton")];
      var encoders := map["soil_type" := map[Text("black_cotton") := 0]];
      var predict := (v: seq<Value>) => Success(0.5);
      && HazardScoreAsWritten(features, encoders, predict) == Success(50)
      && HazardScore(features, encoders, predict) == Success(65)
  {
    var features := map["soil_type" := Text("black_cotton")];
    var encoders := map["soil_type" := map[Text("black_cotton") := 0]];
    var encoded := map["soil_type" := Num(0.0)];
    assert EncodeColumn(features, encoders, "issue_type") == Success(features);
    assert encoders["soil_type"][Text("black_cotton")] as real == 0.0;
    assert features["soil_type" := Num(0.0)] == encoded;
    assert EncodeColumn(features, encoders, "soil_type") == Success(encoded);
    assert EncodeAll(features, encoders, CategoricalColumns) == Success(encoded);
    assert QualifyingFactors(encoded).value == [];
    assert QualifyingFactors(features).value == [BlackCottonFactor];
    assert FinalScore(0.5) == 50;
    assert FinalScore(0.5 * 1.3) == 65;
  }
}
