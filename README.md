# Complaint intake, scoring and resolution — a Dafny model

Citizens report water-utility problems (a pipe breakage, a leak, water logging,
contamination, low pressure). The backend stores each report as a pending complaint, asks a
scoring service for a priority score, and saves that score on the record. Operators list the
complaints filtered by status, sorted by priority or recency and paged. An officer's
response is appended to a ledger and marks the complaint resolved. The scoring service builds
a feature vector for a trained model, scales the model's prediction by Bhopal-specific risk
factors, and clips and truncates the result to a score from 1 to 100. It also files the
score into a five-level risk band. The dashboard colours each score in four bands and keeps
the state of the resolve dialog.

Files and modules:

- `wrappers.dfy` (`Wrappers`): `Option` and `Result`. In the scoring-service modules
  (`PriorityModel`, `PredictionApi`) a `Result` failure carries the text Python's `str(e)`
  gives for the exception it stands for, without the class name.
- `complaint_model.dfy` (`ComplaintModel`): the complaint and response records.
- `complaint_query.dfy` (`ComplaintQuery`): GET `/list` as functions over the stored
  complaints. It covers the status filter, the three sort criteria, skip/limit paging and
  the filter-only total.
- `complaint_routes.dfy` (`ComplaintRoutes`): the `ComplaintStore` class. It holds a map
  from id to complaint, the response ledger, and a ghost trace of writes and scorer calls.
  Its methods are `Submit`, `List` and `Respond`.
- `priority_model.dfy` (`PriorityModel`): `prepare_features` (a method with the source's two
  loops), `apply_bhopal_factors` (a method that scales the multiplier step by step), the
  clip-and-truncate tail of `calculate_hazard_score`, and specification functions for each.
- `prediction_api.dfy` (`PredictionApi`): `get_risk_level`, plus the required-field check
  and the feature merge of `predict_priority`.
- `complaint_dashboard.dfy` (`ComplaintDashboard`): `getPriorityColor`, the "Mark Resolved"
  enable rule, and the dialog state as a `Dashboard` class.

Parameters stand in for what the model cannot see:

- The scoring call `callMLService` is a function from the request to `Some(score)`, or to
  `None` when its promise rejects.
- The trained model is a function `predict` from the feature vector to the base prediction,
  or to the text of the exception the model raises.
- The geospatial lookup is a function `fetchGeo` from latitude and longitude to data or to
  an error.
- The risk-factor explanation `explain_risk_factors` is a function `explain` from the
  features to the explanation, a list of texts, or to an error.
- Clock readings are `nat` parameters.
- The dashboard's POST outcome is a `bool`.

The routes' design intent and their code differ in places. The model follows the code:

- `/submit` validates nothing.
- No route ever writes the status `scored`. A scored complaint stays `pending`.
- When the scorer's promise rejects, the handler ends without a reply. The pending record
  stays stored with no score. This is `ScoringAborted`.
- `/respond` appends the response even when the id names no complaint. The status update
  then changes nothing.
- Responding to a resolved complaint appends another response. The status stays `resolved`.
- An unknown `sort_by` yields the empty sort criteria: stored order, no error.

The model also assumes these things about the store:

- A complaint without a score sorts below every scored one, so a descending priority sort
  lists unscored complaints last.
- The natural order is creation order.
- A limit of 0 means no limit. A negative limit means its absolute value.
- A negative skip is refused. `ComplaintQuery.List` then fails with a text of the model's
  own, "skip value must be non-negative". In the source the rejected query ends the handler
  without a reply.
- Complaints that tie on every sort key keep their stored order.

## Model

| member | source | states |
|---|---|---|
| `ComplaintQuery.CriteriaFor` | backend/src/routes/complaints.js:51-56 | `priority` gives score-then-date criteria, `recent` gives date only, and every other value gives no sort (not an error) |
| `ComplaintQuery.StatusFilter` | backend/src/routes/complaints.js:48-49 | a status condition is added exactly when the parameter is a non-empty string |
| `ComplaintQuery.Filtered` | backend/src/routes/complaints.js:48-58 | each complaint with the requested status appears exactly as often as it is stored, and no other complaint appears. The result keeps the stored order (a subsequence). No filter selects all |
| `ComplaintQuery.Sort` | backend/src/routes/complaints.js:51-59 | the result is ordered by the criteria and is a permutation of the input; no criteria leaves the order unchanged |
| `ComplaintQuery.InsertKeepsSorted` | backend/src/routes/complaints.js:59 | inserting into an ordered sequence keeps it ordered (the induction behind `Sort`) |
| `ComplaintQuery.Window` | backend/src/routes/complaints.js:60-61 | skip/limit keeps the elements from index `skip` on, at most `limit` of them (all of them for limit 0); it is empty exactly when skip reaches the length |
| `ComplaintQuery.List` | backend/src/routes/complaints.js:45-69 | it fails exactly when the skip is negative, with a text of the model's own (the source's handler then sends no reply). Otherwise: the total counts the filtered complaints; each item is stored and matches the filter; items are ordered by the requested criteria; there are at most `limit` items; the page is empty exactly when the skip reaches the total; the page number is echoed |
| `ComplaintQuery.ListPageIsWindow` | backend/src/routes/complaints.js:58-61 | the page is exactly the slice of the filtered, sorted complaints that starts at `(page-1)*limit`, with its exact length |
| `ComplaintQuery.PriorityListOrder` | backend/src/routes/complaints.js:52-53 | under `priority` (the default), scores descend, equal scores list newest first, and unscored complaints come after all scored ones |
| `ComplaintQuery.RecentListOrder` | backend/src/routes/complaints.js:54-55 | under `recent`, complaints list newest first |
| `ComplaintQuery.UnknownSortKeepsStoredOrder` | backend/src/routes/complaints.js:51-61 | any other `sort_by` gives a window of the filtered complaints in stored order |
| `ComplaintQuery.TotalIgnoresPaging` | backend/src/routes/complaints.js:63-67 | two requests with the same status filter report the same total, whatever their sort, page and limit |
| `ComplaintQuery.TwentyFiveComplaintsExample` | backend/src/routes/complaints.js:46-67 | with 25 complaints, `recent` and limit 20, page 2 has 5 items and page 3 none, both with total 25 |
| `ComplaintRoutes.PendingRecord` | backend/src/routes/complaints.js:13-21 | the created record is `pending` with no score. It keeps the submitted title, description, issue type and coordinates, and the upload paths in order |
| `ComplaintRoutes.ComplaintStore.Records` | backend/src/routes/complaints.js:58 | the stored complaints in creation order, each exactly once |
| `ComplaintRoutes.ComplaintStore.Submit` | backend/src/routes/complaints.js:8-42 | More than 5 uploads changes nothing. Otherwise exactly one new complaint is stored and no other changes. The trace shows the pending record stored, then the scorer called with exactly the submitted latitude, longitude and issue type plus the timestamp, with the new record already stored. On a score: it is saved, the status stays `pending`, and the reply echoes the record and the score. On a scorer failure: the pending record stays, with no score |
| `ComplaintRoutes.ComplaintStore.List` | backend/src/routes/complaints.js:45-69 | the reply is `List` over the stored complaints in creation order |
| `ComplaintRoutes.ComplaintStore.Respond` | backend/src/routes/complaints.js:72-93 | exactly one response is appended, with the given complaint id, officer, action and images. Only that complaint changes: it becomes `resolved` with `updated_at` bumped. An unknown id changes no complaint |
| `ComplaintRoutes.LeakScenario` | backend/src/routes/complaints.js:8-93 | a complaint scored 72 is saved `pending` with score 72. Two responses make two ledger entries, and the complaint ends `resolved` |
| `PriorityModel.EncodeColumn` | ml-service/priority_model.py:95-97 | a column is re-encoded only when it is present and has an encoder. It fails exactly on a label the encoder does not know. No other entry changes |
| `PriorityModel.EncodeAllEffect` | ml-service/priority_model.py:95-97 | over distinct columns: the keys are unchanged; each present column with an encoder becomes its code; every other entry is untouched; failure happens exactly when a label is unseen |
| `PriorityModel.FeatureVector` | ml-service/priority_model.py:99-104 | one entry per feature column, in column order; a missing feature gives 0 |
| `PriorityModel.PrepareFeatures` | ml-service/priority_model.py:92-104 | the loops yield the encoded dictionary and its feature vector. It fails exactly when encoding fails |
| `PriorityModel.BhopalMultiplier` | ml-service/priority_model.py:109-121 | the multiplier starts at 1.0 and is scaled once per qualifying rule (soil, population, water). It fails exactly when a thresholded feature is a string |
| `PriorityModel.ApplyBhopalFactors` | ml-service/priority_model.py:106-123 | the score times the multiplier is the score times the product of the qualifying factors, failing like them |
| `PriorityModel.AdjustedIsStepwise` | ml-service/priority_model.py:109-123 | the adjusted score is the score times the step-by-step multiplier |
| `PriorityModel.AdjustmentIsProduct` | ml-service/priority_model.py:109-123 | the three conditional multiplications equal the product of the factor list |
| `PriorityModel.QualifyingFactorsExactly` | ml-service/priority_model.py:111-121 | at most three distinct factors. 1.3 exactly on black cotton soil; 1.2 exactly when density > 5000 (missing counts as 0); 1.15 exactly when proximity < 500 (missing counts as 1000). Failure exactly when a thresholded feature is a string |
| `PriorityModel.MultiplierBounds` | ml-service/priority_model.py:109-123 | the multiplier lies between 1 and 1.3 × 1.2 × 1.15 |
| `PriorityModel.AdjustedBounds` | ml-service/priority_model.py:106-123 | for a non-negative score, score ≤ adjusted ≤ score × 1.794 |
| `PriorityModel.NoFactorKeepsScore` | ml-service/priority_model.py:109-123 | with no qualifying factor the score is returned unchanged; exactly 5000 and exactly 500 qualify for nothing |
| `PriorityModel.Clip` | ml-service/priority_model.py:88 | the result lies in [lo, hi] and equals x when x is already there |
| `PriorityModel.Truncate` | ml-service/priority_model.py:90 | truncation toward zero: within 1 of x, on the side of zero |
| `PriorityModel.FinalScore` | ml-service/priority_model.py:87-90 | an integer in [1, 100]: 100 from 1.0 up, 1 below 0.02, otherwise the whole part of the percentage |
| `PriorityModel.FinalScoreMonotone` | ml-service/priority_model.py:88-90 | a higher adjusted score never gives a lower final score |
| `PriorityModel.HazardScore` | ml-service/priority_model.py:73-90 | the score is in [1, 100]. It fails exactly when encoding fails, the model's prediction fails, or a thresholded feature is a string |
| `PriorityModel.CalculateHazardScore` | ml-service/priority_model.py:73-90 | the method (prepare, predict, adjust, clip) computes `HazardScore` |
| `PriorityModel.HazardScoreAsWritten` | ml-service/priority_model.py:79-90 | the score is in [1, 100]. It fails exactly when encoding fails, the model's prediction fails, or a thresholded feature is a string, as the corrected version does |
| `PriorityModel.HazardScoreAsWrittenValue` | ml-service/priority_model.py:79-90 | the model's prediction succeeded, and the source's score is the clipped percentage of the base prediction adjusted by the encoded dictionary, the one prepare_features has just rewritten |
| `PriorityModel.EncodingKeepsThresholds` | ml-service/priority_model.py:95-97 | encoding leaves population_density and proximity_to_water as submitted |
| `PriorityModel.EncodedFactorsFail` | ml-service/priority_model.py:95-121 | the encoded dictionary's factors fail exactly when the submitted features' do |
| `PriorityModel.EncodedFactors` | ml-service/priority_model.py:95-121 | with a soil_type encoder loaded, the submitted features' factors are the encoded dictionary's plus 1.3 exactly on black cotton soil |
| `PriorityModel.BlackCottonMultiplier` | ml-service/priority_model.py:109-121 | on black cotton soil with a soil_type encoder loaded, the submitted features' multiplier is exactly 1.3 times the encoded dictionary's |
| `PriorityModel.CalculateHazardScoreAsWritten` | ml-service/priority_model.py:79-85 | the method in the source's order computes `HazardScoreAsWritten` |
| `PriorityModel.CorrectedScoreRestoresBlackCotton` | ml-service/priority_model.py:79-113 | on black cotton soil with a soil_type encoder loaded, both versions succeed together from the same base prediction. The source's version adjusts by the encoded dictionary, the corrected one by the submitted features, and the corrected multiplier is exactly 1.3 times the source's |
| `PriorityModel.AsWrittenNeverAppliesBlackCotton` | ml-service/priority_model.py:95-113 | as written, once a soil_type encoder is loaded the soil entry the multipliers see is never "black_cotton" |
| `PriorityModel.BlackCottonCounterexample` | ml-service/priority_model.py:79-90 | black cotton soil, a known label and a base of 0.5 score 50 as written and 65 when the factor is applied |
| `PredictionApi.GetRiskLevel` | ml-service/api/app.py:53-63 | five bands in both directions: ≥80 CRITICAL, [60,80) HIGH, [40,60) MEDIUM, [20,40) LOW, <20 MINOR |
| `PredictionApi.RiskLevelMonotone` | ml-service/api/app.py:53-63 | a higher score never gives a less severe level |
| `PredictionApi.MergeFeatures` | ml-service/api/app.py:31-34 | the merged keys are those of both dictionaries, and the geospatial value wins on a shared key |
| `PredictionApi.PredictPriority` | ml-service/api/app.py:15-51 | 400 "Missing required fields" exactly when latitude, longitude or issue_type is missing; no other field is required. With all three present: a failed geospatial lookup gives 500 with its error text; otherwise a scoring failure on the merged features gives 500 with its text; otherwise a failure of the risk-factor explanation, given the merged dictionary with its categorical entries encoded, gives 500 with its text; otherwise the reply carries exactly the scorer's value, its risk level, the explanation, and the merged keys as the factors considered. The score is in [1, 100] |
| `ComplaintDashboard.GetPriorityColor` | frontend/src/components/ComplaintDashboard.jsx:90-95 | four bands in both directions: ≥80 error, [60,80) warning, [40,60) info, otherwise success (also for a missing score) |
| `ComplaintDashboard.PriorityColorMonotone` | frontend/src/components/ComplaintDashboard.jsx:90-95 | a higher score never gets a less urgent colour |
| `ComplaintDashboard.PriorityColorMatchesRiskLevel` | frontend/src/components/ComplaintDashboard.jsx:90-95 | error is CRITICAL, warning HIGH, info MEDIUM, success LOW or MINOR: the 80/60/40 cut points coincide |
| `ComplaintDashboard.MarkResolvedDisabledExactly` | frontend/src/components/ComplaintDashboard.jsx:75 | "Mark Resolved" is disabled exactly when the row is resolved |
| `ComplaintDashboard.FindById` | frontend/src/components/ComplaintDashboard.jsx:98 | the first row with that id, or none exactly when no row has it |
| `ComplaintDashboard.Dashboard.constructor` | frontend/src/components/ComplaintDashboard.jsx:27-30 | the initial state: nothing selected, dialog closed, empty text |
| `ComplaintDashboard.Dashboard.ViewDetails` | frontend/src/components/ComplaintDashboard.jsx:69 | selects the row and changes nothing else |
| `ComplaintDashboard.Dashboard.HandleResolve` | frontend/src/components/ComplaintDashboard.jsx:97-100 | selects the first row with the id (none if absent) and opens the dialog |
| `ComplaintDashboard.Dashboard.SetResponseText` | frontend/src/components/ComplaintDashboard.jsx:137 | sets the response text only |
| `ComplaintDashboard.Dashboard.SubmitResponse` | frontend/src/components/ComplaintDashboard.jsx:102-108 | With no selection nothing is sent and nothing changes. Otherwise the selected id and the text are sent, and the dialog closes only after a successful post |
| `ComplaintDashboard.Dashboard.CloseDialog` | frontend/src/components/ComplaintDashboard.jsx:126 | closes the dialog and changes nothing else |

## Findings

| source | as written | input that shows it | evidently intended | confidence | as-written member | corrected member |
|---|---|---|---|---|---|---|
| ml-service/priority_model.py:79-85 | `prepare_features` replaces `soil_type` by its label code in the caller's own dictionary. `apply_bhopal_factors` then reads that same dictionary, so `soil_type == 'black_cotton'` is never true once a soil encoder is loaded | soil_type "black_cotton", a soil_type encoder that knows it, a base prediction of 0.5: the score is 50 | the 1.3 black-cotton factor applies to the submitted soil type, giving 65 | high, not executed | `PriorityModel.HazardScoreAsWritten`, `PriorityModel.HazardScoreAsWrittenValue`, `PriorityModel.AsWrittenNeverAppliesBlackCotton`, `PriorityModel.BlackCottonCounterexample` | `PriorityModel.HazardScore`, `PriorityModel.CorrectedScoreRestoresBlackCotton` |


## Left out

- HTTP, Express, Flask, CORS, `/health`, logging, the auth middleware and the multer upload
  handling are not modelled. Only multer's limit of 5 files is kept, as `UploadRejected`.
  `officer_id` is a trusted input.
- The Mongoose schemas are not part of this model. The store is an in-memory map plus a
  ledger. Ids are naturals handed out in creation order, so malformed ids (a cast error)
  cannot occur.
- Form fields and query-string parameters arrive as strings. The model takes them already
  parsed (reals for coordinates, integers for page and limit). Non-numeric page or limit
  values (NaN) are not modelled.
- `ComplaintRoutes.ComplaintStore.Submit` does not bump `updated_at` when the score is saved.
  The save's timestamp handling belongs to the schema, which is not part of this model.
- Concurrency is not modelled. The handlers are async with no atomic conditional update, and
  the model runs each call to completion.
- `callMLService` (the service client) is not part of this model. It is a parameter, and a
  rejection is `None`.
- Network fetches are parameters or left out: `fetch_geospatial_data`, `fetch_weather_data`,
  `get_soil_type` and their unit conversions. The `soil_types` table inside `get_soil_type`
  is never used.
- The scikit-learn and joblib code is left out: `train_model`, `load_model`,
  `create_rule_based_model` and `model.predict`. The trained model is the `predict` parameter.
- `PriorityModel.HazardScore`: which feature vectors make `predict` fail is not fixed. A
  fitted regressor raises on a string left in the vector, such as `issue_type` or
  `soil_type` with no encoder loaded. The model reports whatever failure `predict` returns
  as a 500, but does not force one for such a vector.
- `PriorityModel.EncodeColumn`: the unseen-label failure text is the encoder's message
  "y contains previously unseen labels" without the list of labels scikit-learn appends
  after it, whose rendering depends on the library version.
- `PredictionApi.PredictPriority`: for an unseen label, the 500 reply's text omits the
  appended labels, as `PriorityModel.EncodeColumn` does.
- These helpers are called but not part of this model: `find_nearest_soil_type`,
  `get_elevation`, `get_water_proximity`, `get_population_density`,
  `calculate_time_since_rain` and `explain_risk_factors`. The explanation is a parameter
  `explain` that returns the explanation or the text of the exception it raises.
- Floating-point rounding and NaN are not modelled. Numbers are exact reals.
- Python values are either numbers or strings. A request body that is not a JSON object, and
  None or boolean feature values, are not modelled.
- `PredictionApi.PredictPriority`: scores with the corrected `HazardScore`, not the source's
  `calculate_hazard_score`. On black cotton soil with a soil_type encoder loaded, its score is
  the clipped percentage of 1.3 times what the source adjusts. For example, a base prediction
  of 0.5 gives 65 here where the source replies 50.
- `PredictionApi.PredictPriority`: `factorsConsidered` is the set of merged keys. The source's
  list also has the dictionary's insertion order, which is not modelled.
- `ComplaintDashboard.Dashboard.SubmitResponse`: the list refresh after a successful post
  (`fetchComplaints`, a network call) is not modelled.
- React rendering, the data grid, `useEffect` loading and axios are left out. So is
  `getStatusColor`, which the dashboard calls but does not define.
- `frontend/src/components/ComplaintForm.jsx` is form UI, a map picker and a multipart POST.
  It only supplies the five issue-type values, and the model keeps issue types as strings.
