# SafeRoute risk backend — Dafny model

This project models the risk logic of the SafeRoute alerts backend. It covers two parts.

- **Risk scoring** (`backend/safeRoute/alerts/utils.py`):
  - the keyword severity of an incident description;
  - the time decay of an incident's weight;
  - the aggregate 0–10 risk score of the incidents around a point;
  - the A–D risk category of a score.
- **Risk-area table** (`backend/safeRoute/alerts/views.py`):
  - the in-memory `risk_areas` list and its four seeded entries;
  - the risk query, which validates its parameters and returns the table;
  - the crime report, which appends an area;
  - the map view, which lists the areas inside a bounding box or clears the table.

Files:

- `wrappers.dfy` (module `Wrappers`): an `Option` type.
- `risk_scoring.dfy` (module `RiskScoring`): the utils.py helpers.
- `risk_areas.dfy` (module `RiskAreas`): the views.py table, as the class `RiskAreaTable`.

Modelling choices:

- Floating-point numbers are exact `real`s.
- Each incident carries its great-circle distance and its distance factor as given values.
- Each incident carries its age in hours; the clock is not read.
- Request fields and query parameters are already parsed: `Missing`, `Given(x)`, or `Malformed` when Python's `float` would reject them.
- The serializer's validation of a report is a boolean parameter.
- A report's `description` is absent, a text, or a number. The serializer accepts a number, but the colon test then fails on it.
- HTTP responses are `Ok(payload)`, `BadRequest(message)` or `ServerError(message)`.
- Risk categories are the datatype `Level`. `Rank` orders it: D = 0 up to A = 3.

## Model

| member | source | states |
|---|---|---|
| `RiskScoring.DetermineSeverity` | backend/safeRoute/alerts/utils.py:35-56 | The result is the largest mapped score among the keywords that occur in the text lower-cased by `Lower`. It is 1 when no keyword occurs and always lies in 1..5. It equals `SeverityOf`. |
| `RiskScoring.MaxMatchIsMaximum` | backend/safeRoute/alerts/utils.py:49-54 | The reference fold over the keyword table is None exactly when no keyword occurs. Otherwise it is the score of an occurring keyword and bounds every occurring keyword's score. |
| `RiskScoring.SeverityOfIsMaximum` | backend/safeRoute/alerts/utils.py:40-56 | The severity function is in 1..5, defaults to 1, and is the maximum over the occurring keywords. |
| `RiskScoring.LowerIsLowerCase` | backend/safeRoute/alerts/utils.py:49 | No ASCII capital is left after lower-casing. Lower-casing twice is the same as once, and only capitals are changed. |
| `RiskScoring.KeywordScoresInRange` | backend/safeRoute/alerts/utils.py:40-48 | Every score in the keyword table lies in 1..5. |
| `RiskScoring.TimeDecay` | backend/safeRoute/alerts/utils.py:27-33 | The weight is 1.0 up to 24 h and 0.1 from 720 h. It always lies in [0.1, 1.0]. |
| `RiskScoring.TimeDecayNonIncreasing` | backend/safeRoute/alerts/utils.py:27-33 | An older incident never weighs more than a newer one. |
| `RiskScoring.TimeDecayLipschitz` | backend/safeRoute/alerts/utils.py:27-33 | The weight changes by at most 0.9/696 per hour of age. So it is continuous everywhere, including at 24 h and 720 h. |
| `RiskScoring.EffectiveSeverity` | backend/safeRoute/alerts/utils.py:82 | A non-zero stored severity is used as it is. A stored 0 (falsy) falls back to the keyword severity `SeverityOf`, which lies in 1..5. |
| `RiskScoring.IncidentScoreInUnit` | backend/safeRoute/alerts/utils.py:76-86 | With a distance factor in [0, 1] and a stored severity in 0..5, an incident's score `IncidentScore` (factor × time decay × severity / 5) lies in [0, 1]. It is at least 0.02 × the factor. |
| `RiskScoring.IncidentScoreOfSeverity` | backend/safeRoute/alerts/utils.py:82-86 | The product `ScoreWithSeverity` for the severity the loop settles on is the incident's score `IncidentScore`. |
| `RiskScoring.ScoreIncident` | backend/safeRoute/alerts/utils.py:79-86 | The computed score of an incident is `IncidentScore`. The loop calls this for each incident within the radius. It uses the stored severity, or `DetermineSeverity` of the description when the stored one is 0. |
| `RiskScoring.Blend` | backend/safeRoute/alerts/utils.py:95 | The blend (0.7 × max + 0.3 × total / 3) × 10 is 7 × max + total. |
| `RiskScoring.ComputeRiskScore` | backend/safeRoute/alerts/utils.py:58-98 | The loop keeps the running maximum (from 0) and the running sum of the scores of the incidents within the radius. The result equals `RiskScore` and lies in [0, 10]. It is 0 when no incident is within the radius. |
| `RiskScoring.Clamp` | backend/safeRoute/alerts/utils.py:98 | The clamped score lies in [0, 10]. It is unchanged inside that range, 0 below it and 10 above it. |
| `RiskScoring.MaxFromZeroIsMaximum` | backend/safeRoute/alerts/utils.py:68-89 | The running maximum is at least 0 and at least every contributing score. It is 0 or one of those scores. |
| `RiskScoring.ContributingScoresAppend` | backend/safeRoute/alerts/utils.py:70-73 | The contributing scores of a concatenation are the concatenation of the contributing scores, so incident order is kept. |
| `RiskScoring.ContributingScoresStep` | backend/safeRoute/alerts/utils.py:70-92 | One more incident adds its score at the end exactly when it is within the radius. |
| `RiskScoring.MaxAndSumStep` | backend/safeRoute/alerts/utils.py:89-92 | One more score updates the running maximum by `max` and the running total by addition. |
| `RiskScoring.FarIncidentIgnored` | backend/safeRoute/alerts/utils.py:73 | An incident beyond `radius_km` does not change the risk score, wherever it sits in the list. |
| `RiskScoring.NoContributorsScoresZero` | backend/safeRoute/alerts/utils.py:67-98 | With no incident within the radius there are no contributing scores and the risk score is 0. |
| `RiskScoring.SingleIncidentScore` | backend/safeRoute/alerts/utils.py:86-98 | A lone contributing incident with score s in [0, 1] gives the risk score 8·s (0.7·s + 0.3·s/3, times 10). |
| `RiskScoring.AiPredictRisk` | backend/safeRoute/alerts/utils.py:100-116 | The category's rank is the number of whole 2.5-wide bands below the score, between 0 and 3. This gives D below 2.5, C below 5, B below 7.5 and A otherwise. A missing score yields D. |
| `RiskScoring.AiPredictRiskMonotone` | backend/safeRoute/alerts/utils.py:109-116 | A higher score never yields a less dangerous category. |
| `RiskAreas.LevelOfSeverity` | backend/safeRoute/alerts/views.py:112 | The rank is severity − 1, kept between 0 and 3. This is A for severity ≥ 4, B for 3, C for 2 and D otherwise. |
| `RiskAreas.LevelOfSeverityMonotone` | backend/safeRoute/alerts/views.py:112 | A more severe report never gets a less dangerous level. |
| `RiskAreas.TakeUntil` | backend/safeRoute/alerts/views.py:109 | The result is the longest prefix without the separator. It is shorter than the input exactly when the separator occurs, and then the separator follows it. |
| `RiskAreas.CrimeType` | backend/safeRoute/alerts/views.py:108-109 | The crime type is the text before the first `:` when the description has one, otherwise "unknown". It never contains `:`. |
| `RiskAreas.InitialAreas` | backend/safeRoute/alerts/views.py:21-46 | The seeded table has four areas, each with a positive radius and a crime type. |
| `RiskAreas.VisibleAppend` | backend/safeRoute/alerts/views.py:161-170 | Filtering a concatenation is the concatenation of the filtered parts, so table order is kept. |
| `RiskAreas.VisibleMembers` | backend/safeRoute/alerts/views.py:170 | An area is listed exactly when it is in the table and its centre lies in the box (`InBounds`: `sw_lat ≤ lat ≤ ne_lat` and `sw_lng ≤ lng ≤ ne_lng`). |
| `RiskAreas.VisibleAll` | backend/safeRoute/alerts/views.py:161-170 | When every centre lies in the box, the whole table is listed, in order. |
| `RiskAreas.ReportShowsOnMap` | backend/safeRoute/alerts/views.py:120-125 | After an append, the map lists the earlier visible areas, then the new one if its centre is in the box. |
| `RiskAreas.CirclePolygon` | backend/safeRoute/alerts/views.py:172-177 | The circle has 36 points, the k-th at 10·k degrees. |
| `RiskAreas.RiskAreaTable.constructor` | backend/safeRoute/alerts/views.py:21-46 | The table starts as the four seeded areas and is well formed. |
| `RiskAreas.RiskAreaTable.QueryRiskAreas` | backend/safeRoute/alerts/views.py:54-79 | Missing `lat` or `lon` is a BadRequest asking for them. Otherwise a non-numeric `lat`, `lon` or `radius` is a BadRequest saying they must be numeric. Otherwise the whole table is returned, whatever the values. A missing `radius` is accepted, since it defaults to 1.0. |
| `RiskAreas.RiskAreaTable.ReportCrime` | backend/safeRoute/alerts/views.py:96-142 | A report the serializer rejects is a BadRequest. So is an accepted report with a missing or non-numeric latitude or longitude, a numeric description, or a non-numeric severity. Neither kind changes the table. A valid report appends exactly one area, `ReportedArea`, at the end. That area is at the report's coordinates with radius 0.2 km, level `LevelOfSeverity` and crime type `CrimeType`. The report and leaves earlier entries unchanged. It answers with the level and the crime type. |
| `RiskAreas.RiskAreaTable.MapRiskAreas` | backend/safeRoute/alerts/views.py:151-193 | A malformed bound is a server error. Otherwise each bound reads as its value, or 0 when absent (`ReadsAs`). The answer lists exactly the areas `Visible` in that box, in table order. Each keeps its level, centre, positive radius and stored crime type; a missing crime type would become "unknown" (`Renders`). Each has 36 points. The table is not modified. |
| `RiskAreas.RiskAreaTable.DeleteRiskAreas` | backend/safeRoute/alerts/views.py:195-201 | The table is empty afterwards. |

## Left out

- `calculate_distance` (haversine) and the `pow(0.001, …)` distance factor: trigonometric floating-point numerics. Both are inputs of `Incident`.
- The polygon point coordinates (`cos`/`sin`, 111.32 km per degree): trigonometry. A point is kept only as its angle in degrees.
- `ComputeRiskScore`: takes `radiusKm` as a required parameter and does not model the default `radius_km=1.0`. No modelled caller relies on the default.
- `time_decay`'s clock read and time-zone handling: replaced by the age in hours.
- Floating-point rounding, NaN and infinities: numbers are exact reals.
- `Lower`: does not model Python's full Unicode `str.lower`, because only ASCII letters affect the ASCII keywords here. Other characters are left unchanged.
- The incident serializer, `serializer.save()` and the database: Django ORM I/O. Validation is a boolean parameter. The serializer's error body is stood in for by a fixed message. The incident row is saved even when the later coordinate parse fails; that write is not modelled.
- The `crime_report` echo and the `message` fields of the responses: framework plumbing.
- The `logger` calls in views.py: logging only, with no effect on responses or the table.
- The HTTP 500 handlers for unexpected exceptions: not modelled, except the map view's malformed-bound path, which is `ServerError`.
- `register_device` and `send_push_notification`: a database write and an HTTP POST to the Expo push service.
- `chatgpt_cleaner.py`, `process_crime.py`, `add_dummy_data.py` and the frontend files: external services, CLI and seeding scripts, and UI. The client-side geofence monitoring engine is not part of this model.
- Module-level sharing of `risk_areas` across concurrent requests: one `RiskAreaTable` object stands for the list.
