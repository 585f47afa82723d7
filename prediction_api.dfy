/** POST /predict/priority of the scoring service and its risk-level classifier. The
    geospatial lookup is a parameter `fetchGeo` that answers with data or an error. */
module PredictionApi {
  import opened Wrappers
  import opened PriorityModel

  datatype RiskLevel = Critical | High | Medium | Low | Minor

  /** Severity rank, 4 for CRITICAL down to 0 for MINOR. */
  function Severity(level: RiskLevel): nat {
    match level
    case Critical => 4
    case High => 3
    case Medium => 2
    case Low => 1
    case Minor => 0
  }

  /** get_risk_level: five bands with lower bounds 80, 60, 40 and 20. */
  function GetRiskLevel(score: real): (level: RiskLevel)
    ensures level == Critical <==> score >= 80.0
    ensures level == High <==> 60.0 <= score < 80.0
    ensures level == Medium <==> 40.0 <= score < 60.0
    ensures level == Low <==> 20.0 <= score < 40.0
    ensures level == Minor <==> score < 20.0
  {
    if score >= 80.0 then Critical
    else if score >= 60.0 then High
    else if score >= 40.0 then Medium
    else if score >= 20.0 then Low
    else Minor
  }

  /** A higher score never yields a less severe level. */
  lemma RiskLevelMonotone(a: real, b: real)
    requires a <= b
    ensures Severity(GetRiskLevel(a)) <= Severity(GetRiskLevel(b))
  {
  }

  const RequiredFields: seq<string> := ["latitude", "longitude", "issue_type"]

  /** `all(field in data for field in required_fields)` */
  predicate HasRequiredFields(data: Features) {
    forall field :: field in RequiredFields ==> field in data
  }

  /** `{**data, **geo_data}`: every key of either dictionary, the geospatial value winning
      on a shared key. */
  function MergeFeatures(data: Features, geo: Features): (merged: Features)
    ensures merged.Keys == data.Keys + geo.Keys
    ensures forall k :: k in geo ==> merged[k] == geo[k]
    ensures forall k :: k in data && k !in geo ==> merged[k] == data[k]
  {
    map k | k in data.Keys + geo.Keys :: if k in geo then geo[k] else data[k]
  }

  /** The reply: a prediction (HTTP 200) or an error with its status code and text. The
      explanation is a list of texts. */
  datatype PredictReply =
    | Prediction(priorityScore: int, riskLevel: RiskLevel, explanation: seq<string>, factorsConsidered: set<string>)
    | ErrorReply(status: nat, error: string)

  const MissingFields: string := "Missing required fields"

  /** predict_priority. A request without latitude, longitude or issue_type gets 400; any
      exception on the way (geospatial lookup, label encoding, the model's prediction,
      comparing a string with a threshold, the risk-factor explanation) gets 500 with the
      exception's text; otherwise the score, its risk level, the explanation and the names of
      all features considered. The explanation `explain` is a parameter; it is given the
      merged dictionary after calculate_hazard_score has encoded its categorical entries in
      place. */
  function PredictPriority(data: Features, fetchGeo: (Value, Value) -> Result<Features>,
                           encoders: map<string, Encoder>, predict: seq<Value> -> Result<real>,
                           explain: Features -> Result<seq<string>>): (r: PredictReply)
    ensures r == ErrorReply(400, MissingFields) <==> !HasRequiredFields(data)
    ensures r.ErrorReply? ==> r.status == 400 || r.status == 500
    ensures r.Prediction? ==>
      && HasRequiredFields(data)
      && fetchGeo(data["latitude"], data["longitude"]).Success?
      && 1 <= r.priorityScore <= 100
      && r.riskLevel == GetRiskLevel(r.priorityScore as real)
      && r.factorsConsidered == data.Keys + fetchGeo(data["latitude"], data["longitude"]).value.Keys
    ensures HasRequiredFields(data) ==>
      match fetchGeo(data["latitude"], data["longitude"])
      case Failure(e) => r == ErrorReply(500, e)
      case Success(geo) =>
        match HazardScore(MergeFeatures(data, geo), encoders, predict)
        case Failure(e) => r == ErrorReply(500, e)
        case Success(score) =>
          match explain(EncodedInPlace(MergeFeatures(data, geo), encoders))
          case Failure(e) => r == ErrorReply(500, e)
          case Success(lines) =>
            r == Prediction(score, GetRiskLevel(score as real), lines, data.Keys + geo.Keys)
    ensures r.ErrorReply? && r.status == 500 ==>
      && HasRequiredFields(data)
      && (|| fetchGeo(data["latitude"], data["longitude"]).Failure?
          || HazardScore(MergeFeatures(data, fetchGeo(data["latitude"], data["longitude"]).value), encoders, predict).Failure?
          || explain(EncodedInPlace(MergeFeatures(data, fetchGeo(data["latitude"], data["longitude"]).value), encoders)).Failure?)
  {
    if !HasRequiredFields(data) then ErrorReply(400, MissingFields)
    else
      assert "latitude" in RequiredFields && "longitude" in RequiredFields;
      match fetchGeo(data["latitude"], data["longitude"])
      case Failure(e) => ErrorReply(500, e)
      case Success(geo) =>
        var features := MergeFeatures(data, geo);
        match HazardScore(features, encoders, predict)
        case Failure(e) => ErrorReply(500, e)
        case Success(score) =>
          match explain(EncodedInPlace(features, encoders))
          case Failure(e) => ErrorReply(500, e)
          case Success(lines) =>
            Prediction(score, GetRiskLevel(score as real), lines, features.Keys)
  }
}
