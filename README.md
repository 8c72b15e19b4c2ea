# AquaSentry water-quality monitor: a Dafny model of its core logic

AquaSentry brings three water-quality layers together: satellite scans, IoT
sensor readings and public-health symptom reports. This project models and
proves properties of the parts of it that make decisions. They are:

- the backend's aggregation view `dashboard_stats`. It counts anomalies among
  the ten newest readings and severe reports among the ten newest reports,
  and maps them, with the newest scan's risk, to a LOW / MODERATE / CRITICAL
  tier. It also models the `fetch_live` action (coordinate check, bounding
  box, 201/503/400);
- the satellite page: the per-scan HIGH RISK / SAFE label and the index
  highlights, and the `images` / `uploading` state behind the upload and
  fetch-live handlers;
- the IoT sensor page: the 20-reading trailing window drawn by the charts and
  the table, and the state that each poll overwrites;
- the health-report form: the field handlers and the submit status machine
  `'' → submitting → success | error`, with its 3-second reset;
- the partial-data handling of the potability predictor: checked and
  unchecked parameters, mean imputation, and the ordered rule-based reasons;
- one round of the sensor simulator: three inserts, then the oldest 100 rows
  are deleted once the table holds more than 1000.

Files: `models.dfy` holds the record shapes. `counting.dfy` holds bounded
prefixes and counting. Each other file models one source file: `dashboard.dfy`
(views.py), `satellite_view.dfy`, `iot_sensors.dfy`, `health_reports.dfy`,
`potability.dfy` (app.py) and `simulation.dfy` (start_simulation.py).

Pure logic is written as functions and lemmas. Page state and the sensor table
are classes whose methods state their whole new state. Each asynchronous
handler is split at its `await`: one method covers the handler up to the
request, and a separate "settled" event carries the outcome. Ghost records
of the pending requests make sure an outcome can only follow its request: a
count of pending requests, and on the satellite page the multiset of the
kinds of pending POSTs, so that an upload's outcome cannot settle a
fetch-live request or the reverse.
Network outcomes, the clock, random draws, widget values, the classifier's
prediction and the training means are all parameters.

Behaviour of the code worth knowing:

- `slice(0, 20).reverse()` applied to its own output gives back the
  newest-first prefix, not the window (`IoTSensors.RecentTwice`).
- The tier is always one of LOW, MODERATE and CRITICAL. The page that shows
  the aggregate uses constants.
- Responses are applied in the order they arrive, with no sequence numbers,
  so a late response overwrites whatever an earlier-settled one wrote.
- A successful health submission refreshes no other view.
- The form's reset timer sets the status back to `''` whatever the status is
  then. That includes a later submission that is still pending, which
  re-enables the button (`HealthReports.StaleResetReenablesSubmit`).
- Upload and fetch-live share one `uploading` flag, and neither control is
  disabled while the flag is up. With two POSTs pending, the first to settle
  lowers the flag (`SatelliteView.OverlappingPostsLowerFlagEarly`). The class
  invariant therefore promises only "uploading implies a POST is pending".

## Model

| member | source | states |
|---|---|---|
| `Counting.Count` | backend/monitor/views.py:88-101 | a count over a sequence never exceeds its length |
| `Counting.CountZeroIff` | backend/monitor/views.py:89-93 | the count is zero exactly when no element satisfies the test |
| `Dashboard.SatRisk` | backend/monitor/views.py:84-85 | over scans in `-captured_at` order, the result is the risk score of a scan captured no earlier than any other, or 0 when there are no scans |
| `Dashboard.DashboardStats` | backend/monitor/views.py:78-124 | sensorAnomalies is the anomaly count over the ten newest readings, at most min(10, number of readings); the tier is the classification of the three numbers; colour and message follow the tier; satelliteAlerts is 1 exactly when the newest risk exceeds 50; healthReports is the total number of reports |
| `Dashboard.ClassifyIsWorstLayer` | backend/monitor/views.py:103-115 | the tier's rank is the maximum of the three layers' own levels (critical, elevated, quiet) |
| `Dashboard.ClassifyThresholds` | backend/monitor/views.py:108-115 | CRITICAL iff risk > 70 or more than 2 issues in a layer; MODERATE iff not CRITICAL and risk > 40 or any issue; LOW iff risk ≤ 40 and no issue |
| `Dashboard.ClassifyMonotone` | backend/monitor/views.py:108-115 | raising any of the three inputs never lowers the tier |
| `Dashboard.PresentationDeterminesTier` | backend/monitor/views.py:104-115 | the colour alone and the message alone each determine the tier |
| `Dashboard.LowIffQuiet` | backend/monitor/views.py:84-115 | the dashboard is LOW exactly when the newest risk is ≤ 40 and none of the ten newest readings or reports is an issue |
| `Dashboard.BoundingBox` | backend/monitor/views.py:26-27 | the box has min < max on both axes, sides of 0.1°, and is centred on (lon, lat) |
| `Dashboard.FetchLive` | backend/monitor/views.py:16-37 | a missing or zero coordinate gives 400; otherwise the service is asked for the box around the point, with "Unknown Region" as the default name, and the answer is 201 with its scan, or 503 when the service returned nothing |
| `Dashboard.FetchLiveStatus` | backend/monitor/views.py:21-37 | status 400 exactly when a coordinate is missing or zero; 201 exactly when a scan was created |
| `SatelliteView.ScanCard` | aquasentry-frontend/src/pages/SatelliteView.jsx:134-165 | HIGH RISK iff risk_score > 50; the risk bar is red iff the label is HIGH RISK; chlorophyll and turbidity are highlighted iff above 30 |
| `SatelliteView.BoundariesAreSafe` | aquasentry-frontend/src/pages/SatelliteView.jsx:134-154 | a risk of exactly 50 is SAFE and indices of exactly 30 are not highlighted |
| `SatelliteView.SatellitePage.constructor` | aquasentry-frontend/src/pages/SatelliteView.jsx:6-20 | mounting starts with no scans and the flag down, and issues the first GET |
| `SatelliteView.SatellitePage.FetchImagesSettled` | aquasentry-frontend/src/pages/SatelliteView.jsx:9-16 | a payload replaces `images`; a failure leaves it unchanged |
| `SatelliteView.SatellitePage.HandleUpload` | aquasentry-frontend/src/pages/SatelliteView.jsx:22-32 | without a file nothing changes and nothing is sent; with one the flag is raised and exactly the image POST is sent |
| `SatelliteView.SatellitePage.FetchLiveClicked` | aquasentry-frontend/src/pages/SatelliteView.jsx:73-81 | an empty latitude or longitude raises the coordinates alert and sends nothing; otherwise the flag is raised and the fetch-live POST is sent |
| `SatelliteView.SatellitePage.PostSettled` | aquasentry-frontend/src/pages/SatelliteView.jsx:31-41 | only a pending POST of the given kind can settle, and one copy of that kind leaves the pending multiset; the flag is lowered whatever the outcome; success sends exactly one re-fetch; failure raises the kind's alert and sends nothing; `images` is untouched |
| `SatelliteView.SatellitePage.Cards` | aquasentry-frontend/src/pages/SatelliteView.jsx:119-174 | one card per scan, in order, each being that scan's `ScanCard` (so HIGH RISK and the red bar iff its risk exceeds 50, highlights iff an index exceeds 30) |
| `SatelliteView.SatellitePage.ShowsNoScans` | aquasentry-frontend/src/pages/SatelliteView.jsx:119-180 | the "No scans available" message is shown exactly when the card grid has no card, so the page shows exactly one of the two: the message or the cards |
| `SatelliteView.UploadThenRefresh` | aquasentry-frontend/src/pages/SatelliteView.jsx:22-41 | during a successful upload the flag is up, afterwards down; the requests are GET, POST, GET; the grid shows the re-fetched payload |
| `SatelliteView.OverlappingPostsLowerFlagEarly` | aquasentry-frontend/src/pages/SatelliteView.jsx:79-87 | with an upload and a fetch-live both pending, a failed upload lowers the flag, raises "Upload failed", re-fetches nothing and leaves the grid unchanged |
| `IoTSensors.RecentData` | aquasentry-frontend/src/pages/IoTSensors.jsx:24 | the window has min(n, 20) readings and its k-th element is the (len-1-k)-th newest reading |
| `IoTSensors.RecentEmptyIff` | aquasentry-frontend/src/pages/IoTSensors.jsx:24 | the window is empty exactly when there are no readings |
| `IoTSensors.RecentEndsWithNewest` | aquasentry-frontend/src/pages/IoTSensors.jsx:24 | the last point of a non-empty window is the newest reading |
| `IoTSensors.RecentIsChronological` | aquasentry-frontend/src/pages/IoTSensors.jsx:24 | over a newest-first payload the window's timestamps never decrease |
| `IoTSensors.RecentIsNewestPermuted` | aquasentry-frontend/src/pages/IoTSensors.jsx:24 | the window holds exactly the 20 newest readings with their multiplicities: nothing is duplicated or dropped |
| `IoTSensors.RecentTwice` | aquasentry-frontend/src/pages/IoTSensors.jsx:24 | windowing the window gives back the newest-first prefix |
| `IoTSensors.ReverseMultiset` | aquasentry-frontend/src/pages/IoTSensors.jsx:24 | reversal keeps every element with its multiplicity |
| `IoTSensors.SensorsPage.constructor` | aquasentry-frontend/src/pages/IoTSensors.jsx:7-19 | mounting starts with no readings and issues the first fetch |
| `IoTSensors.SensorsPage.PollTick` | aquasentry-frontend/src/pages/IoTSensors.jsx:20 | an interval tick issues a fetch and leaves the readings as they are |
| `IoTSensors.SensorsPage.FetchSettled` | aquasentry-frontend/src/pages/IoTSensors.jsx:10-17 | a payload replaces `sensors` wholesale, without merging; a failure leaves it unchanged |
| `IoTSensors.SensorsPage.ShowsNoData` | aquasentry-frontend/src/pages/IoTSensors.jsx:111-115 | the "No sensor data available" row is shown exactly when `sensors` is empty |
| `HealthReports.SymptomButtonsCoverChoices` | aquasentry-frontend/src/pages/HealthReports.jsx:41-45 | every symptom category of the report table has a button |
| `HealthReports.HealthReportForm.constructor` | aquasentry-frontend/src/pages/HealthReports.jsx:6-13 | the form starts at {GI, 5, 0, 0, ''} with status '' |
| `HealthReports.HealthReportForm.SelectSymptom` | aquasentry-frontend/src/pages/HealthReports.jsx:45 | only `symptom_type` changes |
| `HealthReports.HealthReportForm.SetSeverity` | aquasentry-frontend/src/pages/HealthReports.jsx:63-68 | only `severity` changes, and it stays within the slider's [1, 10] |
| `HealthReports.HealthReportForm.SetLatitude` | aquasentry-frontend/src/pages/HealthReports.jsx:87 | only `latitude` changes |
| `HealthReports.HealthReportForm.SetLongitude` | aquasentry-frontend/src/pages/HealthReports.jsx:99 | only `longitude` changes |
| `HealthReports.HealthReportForm.SetNotes` | aquasentry-frontend/src/pages/HealthReports.jsx:110 | only `notes` changes |
| `HealthReports.HealthReportForm.Submit` | aquasentry-frontend/src/pages/HealthReports.jsx:15-19 | the status becomes `submitting`, the button is disabled, and the unchanged form is posted |
| `HealthReports.HealthReportForm.SubmitSettled` | aquasentry-frontend/src/pages/HealthReports.jsx:19-25 | success gives `success`, shows the banner and arms one reset; failure gives `error` and arms nothing; the form is unchanged |
| `HealthReports.HealthReportForm.ResetTimerFired` | aquasentry-frontend/src/pages/HealthReports.jsx:21 | the status becomes '' whatever it was; the button is enabled and the banner hidden |
| `HealthReports.SubmitOnceThenReset` | aquasentry-frontend/src/pages/HealthReports.jsx:15-26 | the body posted is the form as filled in, and the page ends with status '' |
| `HealthReports.StaleResetReenablesSubmit` | aquasentry-frontend/src/pages/HealthReports.jsx:21 | a reset armed by an earlier success re-enables the button while a newer POST is pending, so a third POST can be sent |
| `Potability.SliderOf` | app.py:60-70 | each parameter's slider has min ≤ default ≤ max and a positive step |
| `Potability.Index` | app.py:60-72 | `Index(f)` is the position of parameter `f` in the sidebar order: `ParamOrder[Index(f)] == f` |
| `Potability.GetUserInputs` | app.py:54-79 | `known` holds exactly the checked parameters, in sidebar order; a checked parameter's cell is its slider value, within the slider's bounds; an unchecked one is NaN |
| `Potability.Impute` | app.py:94 | imputation keeps the set of columns |
| `Potability.ImputeKeepsKnown` | app.py:76-94 | after imputation a checked parameter keeps the user's value and an unchecked one takes the mean |
| `Potability.ChecksFeatures` | app.py:111-118 | the checks over a list of parameters name exactly the supplied ones that break their rule |
| `Potability.ChecksValuesAndOrder` | app.py:111-118 | each reason carries the sample's value, and reasons keep the checks' order |
| `Potability.RuleChecksSpec` | app.py:111-118 | the four checks name exactly the breaking parameters, with their values, in sidebar order |
| `Potability.UnsafeReasons` | app.py:109-118 | a reason appears exactly for each supplied parameter that breaks its rule (pH outside [6.5, 8.5], solids > 1000, sulfate > 250, turbidity > 5), with its value, in the order pH, solids, sulfate, turbidity |
| `Potability.Warn` | app.py:120-123 | the warning is the first reason, or the generic message exactly when there is none |
| `Potability.PrimaryIsEarliest` | app.py:120-121 | the primary reason is the earliest of the applicable rules |
| `Potability.Assess` | app.py:104-123 | "safe" exactly when the prediction is 1, with no reason computed; otherwise the primary reason is a supplied, breaking parameter that no earlier supplied parameter precedes, and the generic message appears only when no supplied parameter breaks a rule |
| `Simulation.Uniform` | backend/monitor/management/commands/start_simulation.py:18-22 | a uniform draw lies within its bounds |
| `Simulation.NewReading` | backend/monitor/management/commands/start_simulation.py:17-31 | each inserted reading has pH in [6.5, 8.5], turbidity in [0.5, 5], temperature in [20, 30], DO in [6, 9] and conductivity in [300, 600] |
| `Simulation.SimulatedIsNeverAnomalous` | backend/monitor/management/commands/start_simulation.py:18-19 | no reading in those ranges meets the dashboard's anomaly test |
| `Simulation.SimulatedFeedHasNoIssues` | backend/monitor/management/commands/start_simulation.py:18-19 | a feed of simulated readings yields a sensor issue count of 0 |
| `Simulation.RoundRows` | backend/monitor/management/commands/start_simulation.py:12-31 | a round inserts exactly one reading for each of SENSOR-001, -002 and -003, in that order, with consecutive ids |
| `Simulation.AppendOrdered` | backend/monitor/management/commands/start_simulation.py:24-31 | a row no older and with a larger id than all others keeps the table in order |
| `Simulation.CleanupRemovesOldest` | backend/monitor/management/commands/start_simulation.py:36-38 | cleanup runs exactly above 1000 rows and then removes exactly 100; every deleted row is no newer than every survivor, and the survivors are untouched and in order |
| `Simulation.SensorTable.Round` | backend/monitor/management/commands/start_simulation.py:15-38 | the new table is the cleanup of the old rows plus the round's three rows; the table stays ordered; a table of at most 1000 rows still has at most 1000 |

## Left out

- Timers and polling: the 5-second `setInterval` and its `clearInterval`, the 3-second `setTimeout`, `time.sleep` and the endless `while True`. Each is modelled as a discrete event (`PollTick`, `ResetTimerFired`) or as one `Round`. Unmounting is not modelled, because the code does nothing on unmount beyond clearing the interval.
- HTTP and the `api` module: every request is an entry in a `sent` log and every outcome is a parameter. `alert` is an entry in an `alerts` log. `console.error`, the simulator's `self.stdout.write` progress messages (start_simulation.py:10, 33, 42), DRF request parsing, and `float(...)` raising on bad input are left out.
- Reading controls with `document.getElementById` is left out. The fetch-live handler takes the three field strings as parameters.
- `SatelliteView.SatellitePage.HandleUpload`: the multipart body is reduced to the file reference and the region number. The random region number is a parameter.
- `HealthReports.HealthReportForm.SetLatitude`: `parseFloat` of an empty or malformed field gives NaN. The model takes reals, so NaN is not modelled.
- `HealthReports.HealthReportForm.Submit` requires that the button is enabled. The browser fires no submit while the only submit button is disabled, so the handler is never reached then.
- `Dashboard.DashboardStats` takes the three tables as query results already in newest-first order. The database's `order_by` is not modelled.
- `Dashboard.FetchLive`: the imagery service (backend/monitor/sentinel_service.py) is a function parameter. Python's truthiness of NaN coordinates is not modelled.
- The upload analysis in `SatelliteImageViewSet.create` and backend/monitor/utils.py is left out. It is OpenCV image processing with float rounding. Scans carry their scores as given.
- backend/monitor/email_service.py (SMTP on a background thread) is not part of this model.
- The demo dashboard page, the sidebar, the routing shell, the serializers and the URL table are not part of this model. They are constants, markup or declarations.
- The ML and plotting parts of app.py (training, prediction, probabilities, charts, Streamlit widgets) are left out. The prediction, the feature means and the widget values are inputs.
- Binary floating point (`round`, `toFixed`, the `:.2f` formatting) is left out. All thresholds are exact reals.
- `Simulation.NewReading`: the rounding of each draw to 2, 1 or 0 decimals is left out. At those precisions the range endpoints are exact, so rounding keeps every value in range.
- `Simulation.SensorTable.Round`: all three rows of a round share one instant, and the clock is a parameter that never runs backwards. Deletion drops the first 100 rows in insertion order. That is the query's "oldest 100 by timestamp" up to the order of rows with equal timestamps.
- `Simulation.SensorTable.Round`: the temperature column is kept, though no other part of the core reads it.
