# cw-analytics core, modelled in Dafny

This project models the service layer of the CW Logistics analytics back end:

- the proactive **exception monitor**, which scans active shipments for delays, ML-predicted delays, reefer temperature deviations, geofence violations and overdue milestones, posts each finding to the A2A server, and logs every run;
- the **delay predictor**, which turns shipment data into feature vectors, collects risk factors and picks a recommendation;
- the **notification service**, which handles status updates, proactive delay warnings and bulk sends;
- **multimodal**, **container** and **vessel** tracking;
- the **document generator**, which produces bills of lading, commercial invoices and packing lists;
- the **public tracking-link** service;
- the parameterised SQL builders of the database helpers.

There is one Dafny module per source file. `Common` holds shared values: `Option`, `Severity`, a store reply `Rows(seq) | StoreError`, and decimal rendering with ASCII case mapping.

- **Pure code** is written as functions, with lemmas about them.
- **Loops** are methods, each proved equal to a specification function.
- **Mutable state** is a class:
  - the monitor's `running`/`total_runs`/`last_run_time`;
  - the `exception_monitor_runs` table;
  - the request dictionaries the document generator fills in place;
  - the public tracking-link table.

Outside effects are parameters: database replies, HTTP replies, clock readings, random draws and the trained classifier. Python floats are Dafny `real`.

Where the code and its own comments or docstrings disagree, this model follows the code:

- **Exception monitor, ML check.** This check reads the `ml_delay_confidence` stored on the shipment row. It does not call the predictor, although the docstring of `_check_ml_prediction` speaks of an ML prediction and its comment of an ML service for production (exception_monitor.py:96-107).
- **Delay warning threshold.** The proactive delay warning fires at a confidence of exactly 0.70 (`confidence < 0.70` is the only gate), although its docstring and comment say "exceeds 70%" and "> 70%" (notification_service.py:359, :392).
- **Multimodal tracking.** `track_multimodal_shipment` filters on the job number only. `shipment_id`, documented as the internal shipment id to look up (multimodal_tracking.py:91), only names a miss.

Two notification defects are logged under "## Findings", each with a member for the code as written and one for the correction:

- **Shipment lookup.** The notification service (`StatusUpdateFor`, `MessageBody`, `SendStatusUpdate`, `WarningFor`) is specified with the corrected lookup `ShipmentInfoFor`, so it describes the intended program. As written, every status update carries the placeholder data (`AsWrittenUpdateIsStoreError`).
- **Warning details.** The proactive warning sends its data as written (`WarningData`). That data never reaches the body (`WarningDataUnused`). `WarningDataCorrected` states the evident intent.

## Model

| member | source | states |
|---|---|---|
| ExceptionMonitor.CheckDelay | src/services/exception_monitor.py:70-92 | A delay finding exists iff `delay_hours` is a number above 24. Its severity is high iff that number is above 48, otherwise medium. The detail carries the hours. |
| ExceptionMonitor.CheckMlPrediction | src/services/exception_monitor.py:94-118 | A finding exists iff the stored confidence is a number above 0.7, and it is high iff above 0.85. The predicted hours are copied, defaulting to 24 when the key is absent and staying empty when it is null. |
| ExceptionMonitor.TemperatureFindingMeaning | src/services/exception_monitor.py:120-158 | A temperature finding exists iff the reefer rows hold a deviating reading. When it exists, it is high severity and describes the first deviating row. A store error yields no finding. |
| ExceptionMonitor.CheckTemperature | src/services/exception_monitor.py:141-155 | The loop over the reefer rows returns the specified temperature finding: the first deviating row, or none. |
| ExceptionMonitor.MilestoneFinding | src/services/exception_monitor.py:183-222 | A milestone finding exists iff some pending milestone is overdue and no earlier row decides the scan. It is medium severity. It names the first deciding row, which is that overdue milestone, with its hours late. |
| ExceptionMonitor.CheckMilestones | src/services/exception_monitor.py:207-219 | The loop over the milestone rows returns the specified milestone finding. |
| ExceptionMonitor.CheckGeofence | src/services/exception_monitor.py:160-181 | A high-severity finding exists iff the shipment's geofence flag is set. The location is reported as "Unknown" when it is missing. |
| ExceptionMonitor.DetectorResults | src/services/exception_monitor.py:224-255 | The five detectors run in a fixed order, and each slot holds only a finding of its own kind. |
| ExceptionMonitor.FindingsOrdered | src/services/exception_monitor.py:224-255 | At most five findings per shipment. Each is stamped with the shipment id and detection time and equals its detector's result. They come in detector order. |
| ExceptionMonitor.FindingsByKind | src/services/exception_monitor.py:224-255 | A finding of a kind is reported iff that kind's detector produced one. |
| ExceptionMonitor.DetectExceptions | src/services/exception_monitor.py:224-255 | The loop over the detectors returns exactly the specified findings. |
| ExceptionMonitor.RunCheck | src/services/exception_monitor.py:245-253 | The k-th detector call returns the k-th specified detector result. |
| ExceptionMonitor.FindingsIgnoreStamp | src/services/exception_monitor.py:224-255 | The detection time changes only the timestamp of each finding. |
| ExceptionMonitor.DelayEscalationMonotone | src/services/exception_monitor.py:83-86 | A longer delay never loses a delay finding and never lowers its severity. |
| ExceptionMonitor.MlEscalationMonotone | src/services/exception_monitor.py:108-111 | A higher ML confidence never loses a finding and never lowers its severity. |
| ExceptionMonitor.NotifyA2AServer | src/services/exception_monitor.py:257-301 | One message is posted per exception, built from that exception. The returned count is the number of status-200 replies, which is at most the number of exceptions. |
| ExceptionMonitor.AllDelivered | src/services/exception_monitor.py:292-293 | When every reply is 200, every exception counts as sent. |
| ExceptionMonitor.DispatcherPartialFailure | src/services/exception_monitor.py:292-293 | Replies 200, 500, 200 count two notifications sent. |
| ExceptionMonitor.ActiveShipments | src/services/exception_monitor.py:53-68 | A store error gives no shipments. Otherwise the result has as many shipments as there are rows whose status is not "delivered". |
| ExceptionMonitor.ActiveShipmentsExact | src/services/exception_monitor.py:53-68 | A shipment is returned iff it is a stored row whose status is not "delivered". |
| ExceptionMonitor.AllFindingsCount | src/services/exception_monitor.py:344-347 | Collecting over all shipments gives the sum of the per-shipment finding counts, which is at most five per shipment. |
| ExceptionMonitor.CollectExceptions | src/services/exception_monitor.py:344-347 | The loop over the active shipments returns the concatenation of their findings. The milestone check and every `detected_at` use the single instant `now`. |
| ExceptionMonitor.CycleStatsMeaning | src/services/exception_monitor.py:329-390 | A successful cycle reports the number of active shipments checked and the number of findings, which is at most five per shipment, and sends at most one notification per finding. A failed cycle reports zeros. Only a fault of the HTTP client can fail a cycle. |
| ExceptionMonitor.QuietCycleIgnoresClient | src/services/exception_monitor.py:351-354 | A cycle with no findings never touches the HTTP client, so it succeeds and sends nothing. |
| ExceptionMonitor.Monitor.LogRunToDatabase | src/services/exception_monitor.py:303-327 | The run is appended to `exception_monitor_runs` when the write succeeds. Otherwise the table is unchanged. |
| ExceptionMonitor.Monitor.RunOnce | src/services/exception_monitor.py:329-390 | Returns the cycle's statistics. A successful cycle increments `total_runs`, sets `last_run_time` and logs the run. A failed one changes neither counter and logs nothing. |
| ExceptionMonitor.Monitor.StopMonitoring | src/services/exception_monitor.py:413-416 | Clears the running flag. |
| ExceptionMonitor.Monitor.RunScheduledCycle | src/services/exception_monitor.py:401-405 | One scheduled cycle has the effects of `run_once`. The monitor keeps running unless a stop was requested. |
| ExceptionMonitor.Monitor.StartMonitoring | src/services/exception_monitor.py:392-411 | Runs cycles until one requests a stop, and records each cycle's statistics. `total_runs` grows by the successful cycles. The table gains exactly the successful, written runs. |
| ExceptionMonitor.CyclesRunMeaning | src/services/exception_monitor.py:398-411 | With no stop request every cycle runs. Otherwise the loop ends with the first cycle that requests a stop. |
| ExceptionMonitor.SuccessesBound | src/services/exception_monitor.py:368-373 | Persisted runs are successful runs from the history, and there are no more of them than successes. |
| ExceptionMonitor.DelayScenario | src/services/exception_monitor.py:83-86 | A 50-hour delay gives a high-severity delay finding. |
| ExceptionMonitor.DelayBoundaries | src/services/exception_monitor.py:83-86 | 24 hours is no finding, and 48 hours is a medium one (both bounds are strict). |
| ExceptionMonitor.ReeferScenario | src/services/exception_monitor.py:141-155 | −12 °C against a −18 °C setpoint is a high-severity 6-degree deviation. |
| ExceptionMonitor.MilestoneScenario | src/services/exception_monitor.py:207-219 | A milestone expected 100 hours ago and still pending is reported as 100 hours late. |
| DelayPredictor.Encode | src/ml/delay_predictor.py:78-96 | A known label takes the encoder's code. An unseen label takes 0. |
| DelayPredictor.TravelDate | src/ml/delay_predictor.py:99-111 | A parsable ETD gives its own month and weekday. Otherwise the clock's current ones are used. |
| DelayPredictor.RiskFlagCode | src/ml/delay_predictor.py:146-148 | An unset flag encodes to 0. A value `int()` cannot convert makes feature extraction fail. |
| DelayPredictor.ExtractFeatures | src/ml/delay_predictor.py:60-148 | Extraction fails iff the risk flag cannot be converted. Otherwise it yields the 12-value feature vector. |
| DelayPredictor.ExtractedSlots | src/ml/delay_predictor.py:60-143 | All twelve slots. A known origin, destination, carrier (keyed on the vessel name) or container type (default "40HC") takes its encoder's code. Fixed values: reliability 0.88, transit 20, base rate 0.20. Month and weekday come from the travel date, and the seasonal and weekday factors from their tables. The flag slot holds the flag's code. |
| DelayPredictor.UnknownLabelsEncodeToZero | src/ml/delay_predictor.py:78-96 | Unseen ports, carriers and container types occupy slot 0, and no encoder choice makes extraction fail. |
| DelayPredictor.PeakSeasonMonths | src/ml/delay_predictor.py:114-121 | The seasonal factor passes the peak threshold exactly in February, March, October and November. |
| DelayPredictor.WeekendDays | src/ml/delay_predictor.py:114-121 | The weekday factor passes the weekend threshold exactly on Saturday and Sunday. |
| DelayPredictor.AnalyzeRiskFactors | src/ml/delay_predictor.py:212-240 | The rule loop returns the specified risk factors. |
| DelayPredictor.RiskFactorsMembers | src/ml/delay_predictor.py:212-240 | Each rule's text is listed iff the rule fires. The generic text is listed iff no rule fires, and then it is listed alone. |
| DelayPredictor.RiskFactorsOfExtracted | src/ml/delay_predictor.py:212-240 | On extracted features, the factors are: flagged, then peak-season month, then weekend day, in that order. With none of these, the generic text is listed. |
| DelayPredictor.FiredTextsMembers | src/ml/delay_predictor.py:214-238 | A text is collected iff some rule with that text fires. |
| DelayPredictor.FlaggedPeakWeekendScenario | src/ml/delay_predictor.py:212-240 | A flagged shipment leaving on a Saturday in March lists the flagged, peak-season and weekend factors. |
| DelayPredictor.GenerateRecommendation | src/ml/delay_predictor.py:242-272 | There are five recommendation bands, each chosen by `will_delay` and by confidence above 0.80, 0.60 or 0.90, in both directions. A delay recommendation carries the delay probability. |
| DelayPredictor.AlarmMonotone | src/ml/delay_predictor.py:250-266 | For a predicted delay, higher confidence never gives a milder recommendation. |
| DelayPredictor.RecommendationText | src/ml/delay_predictor.py:267-271 | The two on-time recommendations have their fixed texts. |
| DelayPredictor.Max | src/ml/delay_predictor.py:180 | The confidence is the largest class probability and is one of them. |
| DelayPredictor.Predict | src/ml/delay_predictor.py:150-210 | Prediction fails iff extraction fails, the classifier raises, or it answers fewer than two probabilities. Otherwise: `will_delay` iff class 1; the delay probability is P(class 1); confidence is the maximum and bounds it; risk factors and recommendation are as specified. |
| DelayPredictor.PredictionConsistent | src/ml/delay_predictor.py:150-210 | A prediction always lists at least one risk factor. It recommends caution iff it predicts a delay. |
| Notifications.CallQueryShipments | src/utils/database.py:30 | A call with any keyword other than `filters` raises TypeError before reaching the store. Otherwise the store's reply is returned. |
| Notifications.AsWrittenIgnoresStore | src/services/notification_service.py:264-285 | As written, every store reply ends in the placeholder shipment data. |
| Notifications.AsWrittenUpdateIsStoreError | src/services/notification_service.py:252-301 | As written, a status update never raises, and for every store reply it equals the corrected update for a failing store. |
| Notifications.AsWrittenLosesOrigin | src/services/notification_service.py:264-285 | A stored shipment from Shanghai is announced as leaving "Origin Port". The corrected reading reports Shanghai. |
| Notifications.ShipmentInfoFor | src/services/notification_service.py:264-285 | The corrected lookup. The first matching row's origin, destination, container and status are used. A store error gives the placeholder data for the id, and so does a reply with no rows (part of the correction). |
| Notifications.ParseKind | src/services/notification_service.py:30-38 | Type names and notification kinds correspond one to one. An unlisted name has no kind. |
| Notifications.ParseKindName | src/services/notification_service.py:30-38 | Each kind's name parses back to that kind. |
| Notifications.EffectiveLanguage | src/services/notification_service.py:259-261 | A listed language is kept. Any other code becomes English. |
| Notifications.TemplateKind | src/services/notification_service.py:217-222 | The template is chosen by type, and an unknown type falls back to in-transit. |
| Notifications.TemplateIgnoresLanguage | src/services/notification_service.py:217-222 | Every language gets the English template. |
| Notifications.UnknownTypeGetsInTransit | src/services/notification_service.py:217-222 | An unknown type gets the in-transit template. |
| Notifications.ReplaceAllInserts | src/services/notification_service.py:293 | Replacing a placeholder that occurs puts the replacement into the text. |
| Notifications.ReplaceAllAbsent | src/services/notification_service.py:296-298 | Replacing a placeholder that does not occur leaves the text unchanged. |
| Notifications.ApplyDataAbsent | src/services/notification_service.py:296-298 | Extra data whose keys name no placeholder leaves the body unchanged. |
| Notifications.TrackingUrl | src/services/notification_service.py:290-291 | A non-empty given URL is used. Otherwise it is the public tracking base followed by the shipment id. |
| Notifications.Channels | src/services/notification_service.py:304-327 | Email is used iff there is an address and the service is in mock mode, and SMS likewise with a phone number. They come in email-then-SMS order. |
| Notifications.StatusUpdateValidity | src/services/notification_service.py:252-256 | A status update is rejected iff its type names no notification kind. |
| Notifications.StatusUpdateEchoes | src/services/notification_service.py:224-345 | A sent update echoes the shipment id, type, notification id and recipients. Its language is the effective one, its channels are as specified, and its tracking URL is the given or default one. |
| Notifications.StatusUpdatePreview | src/services/notification_service.py:333-345 | The message preview is the subject of the chosen template. |
| Notifications.BodyQuotesTrackingUrl | src/services/notification_service.py:290-293 | Without extra data, every message body (for every type, the fallback included) contains the tracking URL it was sent with. |
| Notifications.BodyQuotesTrackingUrlWithData | src/services/notification_service.py:290-298 | Extra data whose placeholders do not occur in the body leaves the body unchanged, so the body still contains the tracking URL. |
| Notifications.NotificationService.SendStatusUpdate | src/services/notification_service.py:224-345 | Returns the specified status update, built on the corrected lookup `ShipmentInfoFor`. The body is the filled-in template when the update is sent, and empty when it is rejected. |
| Notifications.NotificationService.SelectChannels | src/services/notification_service.py:304-327 | The channel loop returns the specified channels. |
| Notifications.FillExtraData | src/services/notification_service.py:296-298 | The replacement loop over the extra data applies every pair in order. |
| Notifications.RiskMessage | src/services/notification_service.py:410 | No risk factors give "Multiple factors". A single factor is quoted as is. |
| Notifications.DelayMessage | src/services/notification_service.py:411 | A positive predicted delay is written as "N hours". Otherwise it is "significant delay". |
| Notifications.WarningDataUnused | src/services/notification_service.py:174-193 | For shipment data without braces, the warning's four entries leave the delayed body exactly as it is without extra data: no key names one of its placeholders. |
| Notifications.DelayedBodyWithUrl | src/services/notification_service.py:290-293 | Substituting the URL into the delayed template replaces its tracking placeholder and keeps the reason placeholder. |
| Notifications.CorrectedDataFillsReason | src/services/notification_service.py:185 | The corrected data puts the warning's reason in place of `{delay_reason}` and changes nothing else. |
| Notifications.CorrectedWarningReachesBody | src/services/notification_service.py:358-359 | With the corrected data, the delayed body contains the risk text and the predicted-delay text. |
| Notifications.WarningGate | src/services/notification_service.py:347-450 | No prediction data fails. A prediction below the gate succeeds without sending. A warning is sent iff the gate passes and the shipment lookup succeeds, and it is a delayed-type status update carrying the risk factors. |
| Notifications.WarningThresholdScenario | src/services/notification_service.py:392-403 | Confidence 0.70 warns, and 0.69 does not. |
| Notifications.NotificationService.ProactiveDelayWarning | src/services/notification_service.py:347-450 | Returns the specified warning outcome. |
| Notifications.NotificationService.SendDelayedNotice | src/services/notification_service.py:422-429 | Sends a delayed-type update with the default tracking URL and returns its notification id. The body is the delayed template with the warning's data applied. |
| Notifications.NotificationService.SendToShipment | src/services/notification_service.py:471-485 | One bulk step is a status update without recipients or URL. |
| Notifications.BulkOutcome | src/services/notification_service.py:452-494 | With a valid type every shipment succeeds. With an invalid one none does. |
| Notifications.BulkResults | src/services/notification_service.py:471-485 | The i-th result is the status update for the i-th id with the i-th notification id drawn, so a repeated shipment id still gets a fresh notification id. |
| Notifications.NotificationService.SendBulkNotifications | src/services/notification_service.py:452-494 | Returns one result per id in order. `successful` counts the successes, and `successful + failed` is the total. |
| Multimodal.ProgressBounds | src/services/multimodal_tracking.py:34-46 | Progress lies between 0 and 100, and it is 100 iff there are legs and all are completed. |
| Multimodal.FirstActiveFrom | src/services/multimodal_tracking.py:53-56 | Finds the first leg that is in transit, loading or unloading. |
| Multimodal.CurrentPositionMeaning | src/services/multimodal_tracking.py:48-65 | No legs give "Unknown" with no mode. Otherwise: the first active leg decides the position ("En route" once departed); else the last leg's destination if all are completed; else the first leg's origin. |
| Multimodal.HandoffsMembers | src/services/multimodal_tracking.py:67-82 | A handoff is reported exactly for each leg that has arrived and has a successor, and there is at most one per adjacent pair. |
| Multimodal.IdentifyHandoffs | src/services/multimodal_tracking.py:67-82 | The handoff loop returns the specified handoffs in leg order. |
| Multimodal.KeepTruthy | src/services/multimodal_tracking.py:140-161 | An optional text survives iff it is non-empty. |
| Multimodal.JourneyOf | src/services/multimodal_tracking.py:140-161 | There is one journey entry per leg, in leg order. |
| Multimodal.FormatJourney | src/services/multimodal_tracking.py:140-161 | The journey loop returns the specified journey. |
| Multimodal.JourneyHistory | src/services/multimodal_tracking.py:172 | With history, the whole journey is kept. Without it, exactly the uncompleted legs are kept. |
| Multimodal.OpenCount | src/services/multimodal_tracking.py:172-176 | Open journey entries plus completed legs account for every leg. |
| Multimodal.JobFiltersQuery | src/services/multimodal_tracking.py:99-103 | A job number becomes the single query parameter. Without one, the query is unfiltered. |
| Multimodal.TrackMultimodalShipment | src/services/multimodal_tracking.py:84-179 | Builds the job filters and returns the specified tracking answer. |
| Multimodal.TrackingShape | src/services/multimodal_tracking.py:84-179 | Not found iff no shipment matches. The basic answer is given iff there are no legs. It reports the first shipment, with progress 50 if in transit and 0 otherwise, at the origin iff loading and at the destination otherwise. The full answer reports the first shipment, all legs, the completed count, the handoffs and the current mode and location, with progress within 0 to 100. |
| Multimodal.ShipmentIdOnlyNamesTheMiss | src/services/multimodal_tracking.py:99-117 | Once a shipment is found, the answer does not depend on `shipment_id`. |
| Multimodal.TransportModes | src/services/multimodal_tracking.py:181-183 | There are five transport modes. |
| ContainerTracking.Lookup | src/services/container_tracking.py:224-228 | Finds the sensor profile of that container, or none iff no profile has that number. |
| ContainerTracking.FahrenheitFacts | src/services/container_tracking.py:103 | The Fahrenheit conversion inverts exactly and is increasing, with 0 °C = 32 °F, 100 °C = 212 °F, and equal values only at −40. |
| ContainerTracking.LiveTemperatureMeaning | src/services/container_tracking.py:93-115 | There is a setpoint (−18 °C) and a deviation iff the container is a MAEU reefer, and the deviation is the reading minus the setpoint. |
| ContainerTracking.AlertRules | src/services/container_tracking.py:177-211 | There are three alert rules. Temperature: \|deviation\| > 2, high iff > 3. Shock: on the first serious shock. Battery: below 20 %, high iff below 10. None is low severity. |
| ContainerTracking.AlertsOrder | src/services/container_tracking.py:177-211 | There are at most three alerts, in temperature, shock, battery order, and all three iff every rule fires. |
| ContainerTracking.FilterHead | src/services/container_tracking.py:193-200 | The first serious shock is the head of the serious shocks. |
| ContainerTracking.ReeferTemperatureBand | src/services/container_tracking.py:184-190 | A reefer reading alerts iff it is below −20 °C or above −16 °C. |
| ContainerTracking.GenerateAlerts | src/services/container_tracking.py:177-211 | Returns the specified alerts. |
| ContainerTracking.FillLive | src/services/container_tracking.py:230-274 | Assembles the live view of a known container from its sensors. |
| ContainerTracking.TrackContainerLive | src/services/container_tracking.py:213-274 | Returns the specified live tracking answer. |
| ContainerTracking.LiveTrackingMeaning | src/services/container_tracking.py:213-274 | Unknown iff no profile has that number. A live answer copies the profile's type, shipment and battery. Door events are at most five, from the draws, and closed iff the latest is a close. Reefers alone get a setpoint. |
| ContainerTracking.AllTracked | src/services/container_tracking.py:276-286 | There is one summary per sensor profile, in order. |
| ContainerTracking.ListedContainersAreTracked | src/services/container_tracking.py:276-286 | Every listed container tracks live, with the listed type, shipment and battery. |
| VesselTracking.VesselNames | src/services/vessel_tracking.py:237-239 | Lists the names of the tracked vessels, in order. |
| VesselTracking.FirstMatchFrom | src/services/vessel_tracking.py:159-183 | Finds the first vessel matching the criterion. |
| VesselTracking.Scan | src/services/vessel_tracking.py:159-183 | The scan loop returns the first matching vessel. |
| VesselTracking.StatusBands | src/services/vessel_tracking.py:115-121 | There are four status bands by speed: below 0.1 at anchor, below 0.5 moored, below 5 slow, else underway. |
| VesselTracking.NonNegative | src/services/vessel_tracking.py:112 | The speed is clamped at zero. |
| VesselTracking.Mod360Range | src/services/vessel_tracking.py:113 | The heading lies in [0, 360) and differs from the raw sum by whole turns. |
| VesselTracking.MockPositionBounds | src/services/vessel_tracking.py:102-139 | The speed is non-negative and the heading lies in [0, 360). The status follows the speed, with a stopped vessel at anchor. There is no ETA iff the next port is "Unknown". |
| VesselTracking.TrackVessel | src/services/vessel_tracking.py:141-230 | Returns the specified tracking answer and stored position. |
| VesselTracking.NamePrecedence | src/services/vessel_tracking.py:159-167 | A non-empty name decides the search. The vessel is not found iff its upper-cased form occurs in no name; otherwise the first such vessel is returned. |
| VesselTracking.NumberLookups | src/services/vessel_tracking.py:169-189 | Without a name, the IMO number is used, then the MMSI, as exact matches. With neither, the vessel is not found. |
| VesselTracking.InsertMatchesAnswer | src/services/vessel_tracking.py:195-230 | A position is stored iff the vessel is found, and it repeats the answered name, identifiers, speed, heading, status and time. |
| VesselTracking.HistoryMeaning | src/services/vessel_tracking.py:232-235 | The history is a prefix of the stored positions, no longer than the limit, queried with a LIKE pattern on the name. |
| Database.Conditions | src/utils/database.py:40-48 | There is one `column = ?` condition per filtered column. |
| Database.Values | src/utils/database.py:40-48 | There is one parameter per filtered column, taken from the filters. |
| Database.ShipmentFilterColumns | src/utils/database.py:40-48 | Only columns present in the filters are used. |
| Database.AddFilter | src/utils/database.py:40-48 | Adding a present filter key appends its condition and its value together. |
| Database.QueryShipments | src/utils/database.py:30-55 | Returns the specified query text and parameters. |
| Database.UnfilteredShipmentsQuery | src/utils/database.py:30-55 | Without job-number, status or container filters, the query is `SELECT * FROM shipments` with no parameters. |
| Database.ExtraKeysIgnored | src/utils/database.py:40-48 | Filter keys other than the three known ones change nothing. |
| Database.ShipmentPlaceholdersMatchParams | src/utils/database.py:30-55 | The shipment query has exactly as many `?` placeholders as parameters. |
| Database.VesselConditions | src/utils/database.py:79-84 | There are at most two vessel conditions. |
| Database.VesselParams | src/utils/database.py:79-84 | There is one parameter per vessel condition. |
| Database.QueryVesselPositions | src/utils/database.py:69-93 | Returns the specified vessel query and parameters. |
| Database.VesselPlaceholdersMatchParams | src/utils/database.py:69-93 | The vessel query has exactly as many placeholders as parameters. |
| Database.VesselQueryEndsWithLimit | src/utils/database.py:86-89 | The vessel query always ends with newest-first ordering and a limit of 10. |
| Database.DictFromRow | src/utils/database.py:26-28 | The dictionary has exactly the row's column names as keys. |
| Database.DictFromRowPositional | src/utils/database.py:26-28 | With distinct column names, each column maps to its own value. |
| Documents.DocumentUrl | src/documents/generator_reportlab.py:208-215 | The document URL is `/documents/` followed by the file name. |
| Documents.Default | src/documents/generator_reportlab.py:93-95 | `setdefault` keeps a present value and fills in a missing one. |
| Documents.BolNumber | src/documents/generator_reportlab.py:89 | A given document number is kept. Otherwise it is `BOL-` followed by the shipment id. |
| Documents.GenerateBillOfLading | src/documents/generator_reportlab.py:74-222 | Stamps the generation date. A missing shipment id fails before any other key is written: the number, dates, defaults and totals keep their values. Otherwise it sets the document number, issue date and defaults. When containers are present, it writes their count and the package, weight and volume sums (missing values count 0). The answer names the document and its URL when the layout succeeds. |
| Documents.SetBolDefaults | src/documents/generator_reportlab.py:93-95 | Fills in the three defaults and leaves every other key alone. |
| Documents.SetBolTotals | src/documents/generator_reportlab.py:98-102 | Writes the container totals and leaves every other key alone. |
| Documents.SampleBillOfLadingTotals | test_document_generation.py:38-58 | The two sample containers total 800 packages, 27 000 kg and 132.5 m³. |
| Documents.BolTotalsGrow | src/documents/generator_reportlab.py:98-102 | Each extra container adds its own package count, weight and volume, with missing values counting 0. |
| Documents.WithTotal | src/documents/generator_reportlab.py:235-237 | A line's total is its quantity times its unit price. |
| Documents.FirstIncomplete | src/documents/generator_reportlab.py:235-237 | Finds the first line item lacking a quantity or a unit price. |
| Documents.WriteLineTotals | src/documents/generator_reportlab.py:235-237 | Writes totals into the lines before the first incomplete one. It succeeds iff there is none, and later lines are untouched. |
| Documents.SumLineTotals | src/documents/generator_reportlab.py:239-240 | The subtotal is the sum of the written line totals. |
| Documents.SubtotalIsLineValues | src/documents/generator_reportlab.py:235-240 | After the line loop, the sum of the written line values equals the sum of quantity times unit price over the original lines. |
| Documents.InvoiceTotalsMeaning | src/documents/generator_reportlab.py:239-246 | The grand total is (subtotal − discount + freight + insurance) × (1 + VAT %). The discount lies within the subtotal for a percentage in [0, 100]. With no VAT, nothing is added. |
| Documents.SetInvoiceTotals | src/documents/generator_reportlab.py:239-246 | Writes subtotal, discount, VAT and grand total from the line totals and the optional charges (missing ones count 0), and leaves every other key alone. |
| Documents.SampleInvoiceTotal | test_document_generation.py:106-138 | The sample invoice's subtotal is 250 000 and its grand total is 241 500. |
| Documents.GenerateCommercialInvoice | src/documents/generator_reportlab.py:224-349 | Stamps the date and defaults the invoice date and currency. The invoice number and the charge and rate keys are never changed. With line items, every line before the first incomplete one (all lines when none is) gets quantity × unit price as its value, and later lines are unchanged. An incomplete line fails and leaves the four totals as they were. Otherwise the subtotal is the sum of quantity × unit price over the request's lines, and the discount, VAT and grand total follow from it. Without line items, the lines and the four totals are unchanged. The answer carries the invoice number, URL, grand total and currency exactly when the layout succeeds and the number, subtotal and grand total exist. |
| Documents.GeneratePackingList | src/documents/generator_reportlab.py:351-444 | Stamps the date and defaults the issue date. With packages, it writes their count and the gross, net and volume sums. The answer carries the list number and totals exactly when the layout succeeds and the number, package count, gross weight and volume exist. |
| Documents.PackingTotalsBound | src/documents/generator_reportlab.py:360-365 | With non-negative weights, each package's weight is at most the total. |
| PublicTracking.ShipmentExists | src/services/public_tracking_service.py:78-101 | Every count reply, including zero and a failed query, lets the shipment through. |
| PublicTracking.FreshToken | src/services/public_tracking_service.py:103-116 | A token is chosen only from the first ten draws and is not yet stored. There is none iff all ten are taken. |
| PublicTracking.PublicTrackingService.GenerateUniqueToken | src/services/public_tracking_service.py:103-116 | The retry loop returns the first of the ten draws that is not stored, or none. |
| PublicTracking.PublicTrackingService.constructor | src/services/public_tracking_service.py:21-35 | The base URL is `https://track.cwlogistics.com`, with a 30-day expiry. |
| PublicTracking.PublicTrackingService.GenerateTrackingLink | src/services/public_tracking_service.py:37-76 | An empty id is rejected and exhausted tokens fail, both leaving the table unchanged. Otherwise it stores the link under the fresh token, expiring 30 days after `now`, and answers `base/token`. |
| PublicTracking.Validate | src/services/public_tracking_service.py:157-199 | Nothing for an unknown token or a token past its expiry. Otherwise it returns the stored shipment, expiry and creation time, marked valid. |
| PublicTracking.StoredLinkValidates | src/services/public_tracking_service.py:136-199 | A stored link validates, for its shipment, up to its expiry. Other tokens are unaffected. |
| PublicTracking.GeneratedLinkRoundTrip | src/services/public_tracking_service.py:37-199 | A link generated at `now` validates to its shipment throughout the next 30 days, and not one second later. |
| PublicTracking.PublicTrackingService.GetTrackingLinksForShipment | src/services/public_tracking_service.py:201-244 | There is one entry per row, in order, with its URL. Each row is judged at its own clock reading and is valid unless expired at that instant. |
| PublicTracking.ListingMeaning | src/services/public_tracking_service.py:201-244 | The listing marks a link valid iff `validate_token` accepts it at the instant its row was judged. It lists every link of the shipment and only those, newest first. |
| PublicTracking.ListingExpiryPersists | src/services/public_tracking_service.py:228-233 | With a forward-moving clock, a row listed as expired makes every later row with no later expiry listed as expired too. |

## Left out

- **Number formatting.** `round(...)` and the percent/confidence string formatting are left out. Values are exact reals, and the confidence text is a parameter.
- **Identifiers, clocks and randomness.** The notification id (uuid4), every clock reading and every random draw are parameters: GPS, temperature, humidity, shocks, door events, vessel variations and token draws.
- **GPS movement.** The trigonometric position delta of `_calculate_position_delta` and the GPS coordinate arithmetic are left out. They are floating point, and no contract depends on them.
- **Delay model.** Model loading and the trained classifier are an input function. Training is not part of this model.
- **Sending.** The SMS text is not modelled. Real email/SMS sending outside mock mode is left out, because it calls foreign services.
- **Document files.** ReportLab page layout is an input (`layoutOk`), and the file path, size and error message text are left out. `layoutOk` also stands for the party keys (`exporter_*`, `importer_*`, `shipper_*`, `consignee_*`) and the per-line and per-package keys the layout reads. The invoice's `subtotal` and `grand_total` and the packing list's totals are modelled.
- **Database execution.** SQLite execution is an input reply. The listing query's `ORDER BY` is delegated to the store through `PublicTracking.Answers`. The rows of `query_transport_legs` and `query_container_sensors` are inputs. `insert_*` are the records they would store.
- **Public tracking store errors.** The code swallows these: a failed `_token_exists` counts as a free token, a failed `validate_token` gives None, and a failed listing gives []. A failing `_store_tracking_link` re-raises. The tracking-link model assumes the store succeeds.
- **Times.** ISO date-time texts are whole seconds (public tracking, milestones) or opaque strings (timestamps). `valid_until` formatting is left out.
- **Upper-casing.** Unicode `upper()`/`title()` are modelled on ASCII letters only.
- **Door events.** The door-event generator always draws at least one event, so `TrackContainerLive` requires a non-empty draw.
- **Multimodal store errors.** Store exceptions in multimodal tracking propagate to the caller and are not modelled.
- **Singletons.** The module-level `get_*_service` singletons are left out.
- **Delayed template.** The template's `{delay_reason}` placeholder is never supplied by the proactive warning, so it stays in the text. The model keeps it as written (`WarningDataUnused`).
- CollectExceptions: one instant `now` stands for the milestone check's clock (exception_monitor.py:205) and for every finding's `detected_at`. The code reads a new `datetime.now()` for each finding (exception_monitor.py:250, inside the loop over the checks), so the model does not capture findings of one cycle, or of one shipment, carrying different stamps.
- ContainerTracking.FillLive: one reading `draws.now` stamps both the GPS fix and the temperature reading. The code reads `datetime.utcnow()` separately for the GPS fix (container_tracking.py:90), the temperature (:108) and the humidity (:121), so the model does not capture the stamps differing. The humidity reading's timestamp is not modelled at all.
- RunOnce: the same `now` is also the run's `timestamp` (exception_monitor.py:362) and `last_run_time` (exception_monitor.py:373), which the code takes from separate clock readings.
- ExtractFeatures: its own contract states only when extraction fails and the vector's length. The slot contents are stated by `ExtractedSlots` and `UnknownLabelsEncodeToZero`.
- ShipmentInfoFor: with the lookup repaired but nothing else, a reply with no rows would leave `shipment_data` unset, and `_get_email_template` would raise AttributeError (notification_service.py:77). The correction also supplies the placeholder data there (see "## Findings").
- SendStatusUpdate: it is specified with the corrected lookup. The code as written always uses the placeholder data (`AsWrittenUpdateIsStoreError`).
- BodyQuotesTrackingUrl: proved for bodies without extra data, and (as BodyQuotesTrackingUrlWithData) for extra data whose placeholders do not occur in the body. For an entry whose placeholder does occur, the URL is shown to survive only for the delayed type's `delay_reason` (CorrectedDataFillsReason). A value that rewrote part of the URL line is not ruled out in general.
- DelayMessage: only whole-number predicted delays are modelled (`hours: int`). The code formats any number, so a float delay renders as, e.g., "36.5 hours" or "36.0 hours", which the model does not produce.
- WarningDataUnused: it assumes the stored shipment fields and the shipment id contain no `{`. A field that itself spelled a placeholder such as `{risk_factors}` would be replaced.

## Findings

| source | as written | input that shows it | evidently intended | confidence | as-written member | corrected member |
|---|---|---|---|---|---|---|
| src/services/notification_service.py:264-285 | `query_shipments(job_number=shipment_id)` passes a keyword that `query_shipments(filters=None)` does not accept. It raises TypeError, which is caught, so the placeholder "Origin Port"/"Destination Port" data is always used. The rows would also be read by position although they are dictionaries. | Any status update for a stored shipment, e.g. job `JOB-1` stored with origin Shanghai: the message says "Origin Port" | Look the shipment up with `filters={"job_number": ...}` and read the first row's columns by name. When no row matches, use the placeholder data as well: the repaired code alone would leave `shipment_data` unset and raise AttributeError at notification_service.py:77 | high (not executed) | Notifications.AsWrittenIgnoresStore | Notifications.ShipmentInfoFor |
| src/services/notification_service.py:412-429 | The warning's `additional_data` has the keys `ml_confidence`, `risk_factors`, `predicted_delay` and `action_recommended`. The "delayed" template (notification_service.py:174-193) has only `{delay_reason}` and `{tracking_url}`, so none of the four is substituted. The customer never sees the risk factors or the predicted delay, and the body keeps the literal `{delay_reason}`. | A warning with risk factors ["Port congestion"] and 48 predicted hours: the e-mail body is the plain delayed template | The warning's details reach the body, as the docstring says ("It includes risk factors and predicted delay duration"): supply `delay_reason` with the risk text and the predicted delay | high (not executed) | Notifications.WarningDataUnused | Notifications.CorrectedWarningReachesBody |
