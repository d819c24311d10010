# Fever-care decision logic in Dafny

This project models the deterministic decision layer of a fever-care web
application. Patients log daily temperatures and symptoms, open fever
episodes and track their medications. Clinicians watch dashboards, alerts
and outbreak maps, and can export a PDF report. A machine-learning service
suggests a diagnosis.

Around the network calls and the rendering, the React components hold small
rules, and these are what the model covers:
- fever-band and risk-score classifiers;
- the form validation schemas;
- the danger-sign detector;
- the Dengue phase advisor and the 0/1 request encoding sent to the predictor;
- colour and label lookups;
- updates of the component state lists (alerts, devices, the symptom
  selection, forms);
- the filters and counts behind the dashboards and the PDF report, with the
  report's page-break and footer logic.

There is one Dafny module per source component:
- `PatientDashboardApi` models `src/pages/PatientDashboardd.tsx`.
- `PatientDashboardStatic` models `src/pages/PatientDashboard.tsx`.
- Every other component gets a module of the same name.

Two helper modules support them:
- `Js` states the JavaScript semantics the components rely on: `NaN`, `||`
  defaults, truthiness, `toLowerCase` on ASCII letters, 0/1 flags, decimal
  text and the UTF-16 `length` of a string.
- `Seqs` holds the one order-keeping `filter` and `filter(...).length` that
  every component's filter and count is built on, with their lemmas.

Components whose state the source changes step by step are classes with
`modifies` clauses:
- the dashboard (`PatientDashboard`);
- the daily log form (`LogForm`);
- the symptom log page (`SymptomLogPage`);
- the episode form (`EpisodeForm`);
- the test page (`TestPage`);
- the alert feed (`AlertFeed`);
- the medication editor (`MedicationEditor`);
- the device page (`DevicePage`);
- the zoom control (`ZoomControl`).

Their methods are stated against the pure functions of the same module.
Backend calls become parameters: a success flag, an `Option` of the returned
rows, or an outcome datatype. `parseFloat`, `parseInt` and the clock are
parameters too.

Temperatures, scores and counts are Dafny `real`s and `int`s, so every
threshold comparison is exact. Dates are integer minutes or milliseconds.

## Model

| member | source | states |
|---|---|---|
| PatientDashboardApi.FeverStatusOf | src/pages/PatientDashboardd.tsx:168-178 | high iff t > 100.4, moderate iff 99.5 < t <= 100.4, mild iff 98.6 < t <= 99.5, normal iff t <= 98.6: total, with ties going to the lower band |
| PatientDashboardApi.FeverStatusMonotone | src/pages/PatientDashboardd.tsx:168-178 | a higher temperature never yields a lower band |
| PatientDashboardApi.FeverStatusBoundaries | src/pages/PatientDashboardd.tsx:168-177 | 98.6, 99.5 and 100.4 fall into the lower band, and values just above them fall into the next band |
| PatientDashboardApi.FeverTextColor | src/pages/PatientDashboardd.tsx:180-191 | each of the four bands has its own text class (red, orange, yellow, green), in both directions |
| PatientDashboardApi.FeverTextColorDistinct | src/pages/PatientDashboardd.tsx:180-191 | different bands never share a colour |
| PatientDashboardApi.OrEmpty | src/pages/PatientDashboardd.tsx:138-141 | a missing list becomes the empty list, and a present one is kept |
| PatientDashboardApi.ToDashboardData | src/pages/PatientDashboardd.tsx:134-142 | missing symptomLogs, medications and alerts become empty lists; every other field is copied |
| PatientDashboardApi.TrendOf | src/pages/PatientDashboardd.tsx:216-220 | one point per log, in log order, labelled with the log's day and carrying its own temperature |
| PatientDashboardApi.TemperatureData | src/pages/PatientDashboardd.tsx:216-220 | no data gives no points; loaded data gives the trend of its logs, one point per log |
| PatientDashboardApi.TrendAppend | src/pages/PatientDashboardd.tsx:216-220 | the trend of two runs of logs is the first run's trend followed by the second's: no reading is merged, averaged or reordered |
| PatientDashboardApi.PatientDashboard.constructor | src/pages/PatientDashboardd.tsx:103-110 | no data, loading, 98.6 and normal |
| PatientDashboardApi.PatientDashboard.CalculateFeverStatus | src/pages/PatientDashboardd.tsx:168-178 | the status becomes the band of the temperature |
| PatientDashboardApi.PatientDashboard.FetchDashboardData | src/pages/PatientDashboardd.tsx:124-166 | a successful response stores the defaulted data; with logs, the current temperature and its band come from the last log; otherwise temperature and status are unchanged; the session is reported as expired iff the request failed with 401; loading ends |
| PatientDashboardApi.PatientDashboard.GetFeverColor | src/pages/PatientDashboardd.tsx:180-191 | the colour of the stored status |
| PatientDashboardStatic.FeverStatusTernary | src/pages/PatientDashboard.tsx:33 | the nested ternary gives the same band as the dashboard classifier for every temperature |
| PatientDashboardStatic.FixedReadingIsMild | src/pages/PatientDashboard.tsx:32-33 | the fixed reading 98.9 is mild |
| PatientDashboardStatic.FeverColor | src/pages/PatientDashboard.tsx:35-42 | fever-high, fever-moderate, fever-mild, fever-normal, each iff its band |
| PatientDashboardStatic.FeverColorDistinct | src/pages/PatientDashboard.tsx:35-42 | the four classes are distinct |
| PatientDashboardStatic.BadgeLabel | src/pages/PatientDashboard.tsx:69-70 | "Healthy" iff normal, "Monitoring" otherwise |
| PatientDashboardStatic.BadgeVariant | src/pages/PatientDashboard.tsx:69-70 | the secondary variant iff the badge reads Healthy, destructive iff Monitoring |
| DailyLogForm.ParseTempTime | src/components/ui/DailyLogForm.tsx:32 | accepts exactly morning, afternoon, evening and night, and names back the string it read |
| DailyLogForm.ParseFoodIntake | src/components/ui/DailyLogForm.tsx:47 | accepts exactly normal, reduced and poor |
| DailyLogForm.ParseUrineOutput | src/components/ui/DailyLogForm.tsx:48 | accepts exactly normal, reduced and dark |
| DailyLogForm.EnumsRoundTrip | src/components/ui/DailyLogForm.tsx:32-48 | every enum value's name parses back to that value |
| DailyLogForm.TemperatureMessage | src/components/ui/DailyLogForm.tsx:29-31 | the two custom messages of the temperature bounds, and no message for the other issues |
| DailyLogForm.CheckTemperature | src/components/ui/DailyLogForm.tsx:29-31 | accepted iff a number with 95 <= t <= 108 (both bounds inclusive), the value kept; NaN is rejected as not a number |
| DailyLogForm.CheckPulse | src/components/ui/DailyLogForm.tsx:33 | accepted iff absent or 40 <= p <= 180 |
| DailyLogForm.CheckCount | src/components/ui/DailyLogForm.tsx:43 | the vomiting count is accepted iff absent or a number |
| DailyLogForm.Validate | src/components/ui/DailyLogForm.tsx:28-104 | accepted iff every field passes its check; an accepted log holds the parsed temperature (in [95,108]), a pulse that is absent iff the pulse was empty and otherwise is the parsed value in [40,180], a vomiting count absent iff it was empty and otherwise the parsed value, the enum values that were entered, and the checklist unchanged; a temperature failure is the reported issue |
| DailyLogForm.HasDangerSigns | src/components/ui/DailyLogForm.tsx:164-167 | danger iff bleeding, breathlessness, confusion or abdominal pain |
| DailyLogForm.DangerIgnoresMildSymptoms | src/components/ui/DailyLogForm.tsx:164-167 | changing vomiting, rash, headache or body pain never changes the danger flag |
| DailyLogForm.ApplyUpdate | src/components/ui/DailyLogForm.tsx:157-162 | the named symptom field takes the value, and every other symptom field is unchanged |
| DailyLogForm.SetField | src/components/ui/DailyLogForm.tsx:213-471 | the named top-level input takes the value; the other inputs and the checklist are unchanged |
| DailyLogForm.MockLogOf | src/components/ui/DailyLogForm.tsx:119-126 | the log carries day_of_illness = dayNumber and the validated data; the episode and patient ids fall back to the mock ids; id and timestamp are the submit time |
| DailyLogForm.LogForm.constructor | src/components/ui/DailyLogForm.tsx:61-86 | dayNumber defaults to 1, and the form starts at its defaults |
| DailyLogForm.LogForm.UpdateSymptom | src/components/ui/DailyLogForm.tsx:157-162 | only the symptoms part of the form changes, as ApplyUpdate says |
| DailyLogForm.LogForm.UpdateField | src/components/ui/DailyLogForm.tsx:213-471 | only the named input changes |
| DailyLogForm.LogForm.DangerShown | src/components/ui/DailyLogForm.tsx:164-167 | the banner follows the danger predicate of the current checklist |
| DailyLogForm.LogForm.HandleSubmit | src/components/ui/DailyLogForm.tsx:88-155 | a log is emitted iff validation succeeds, and it is the mock log for dayNumber; a failure emits nothing and leaves success as it was; loading ends |
| DailyLogForm.LogForm.SuccessTimerElapsed | src/components/ui/DailyLogForm.tsx:147 | the success flag is cleared |
| AdvancedAI.PredictRequestOf | src/components/AdvancedAI.tsx:104-116 | patient and episode ids and the temperature are passed through unchanged; fever_days is the day of illness; platelet_count is 95; every flag is 0 or 1 |
| AdvancedAI.FlagsRoundTrip | src/components/AdvancedAI.tsx:106-115 | decoding the request's flags gives back every boolean; nausea_vomiting carries vomiting |
| AdvancedAI.EncodingSeparatesFlags | src/components/AdvancedAI.tsx:106-115 | patients whose flags differ get different requests |
| AdvancedAI.UrgencyColor | src/components/AdvancedAI.tsx:132-141 | a known label gets its table colour; the grey fallback is used iff the label is unknown |
| AdvancedAI.DiseaseColor | src/components/AdvancedAI.tsx:143-152 | a known disease gets its table colour; the grey fallback is used iff the disease is unknown |
| AdvancedAI.UrgencyBanner | src/components/AdvancedAI.tsx:305-315 | HIGH and EMERGENCY raise the immediate-attention banner; CRITICAL, MEDIUM and LOW do not |
| AdvancedAI.NeedsImmediateAttention | src/components/AdvancedAI.tsx:305-306 | the banner shows iff the urgency is HIGH or EMERGENCY, both of them labels with their own table colour |
| AdvancedAI.PhaseBlocks | src/components/AdvancedAI.tsx:455-491 | no block unless the prediction is Dengue; for Dengue exactly one block: febrile iff day <= 3, critical iff 3 < day <= 7, recovery iff day > 7 |
| AdvancedAI.DenguePhaseMonotone | src/components/AdvancedAI.tsx:457-491 | the phase never goes back as the day advances |
| AdvancedAI.DengueBlockMatchesPhase | src/components/AdvancedAI.tsx:455-491 | the block shown is the day's phase; the critical block states admission below 100k platelets, and the recovery block requires more than 100k before discharge |
| SymptomLog.UniqueKeysPointwise | src/pages/SymptomLog.tsx:107-124 | in a selection with unique keys, two different positions hold different symptoms |
| SymptomLog.KeyAtIndexInKeys | src/pages/SymptomLog.tsx:133-138 | every entry's key is among the selection's keys |
| SymptomLog.Lookup | src/pages/SymptomLog.tsx:109 | a symptom has a severity iff it is selected |
| SymptomLog.RemoveKey | src/pages/SymptomLog.tsx:111 | `delete`: the key becomes absent, the keys shrink by exactly it, every other entry is unchanged, and keys stay unique |
| SymptomLog.Assign | src/pages/SymptomLog.tsx:113-121 | assignment: the key maps to the value, every other entry is unchanged, the keys grow by exactly it, and keys stay unique; a new key goes at the end |
| SymptomLog.Toggle | src/pages/SymptomLog.tsx:107-117 | an unselected symptom is added with severity 3; a selected one is removed; every other entry is unchanged |
| SymptomLog.RemoveAppended | src/pages/SymptomLog.tsx:107-117 | deleting a key just appended restores the previous selection |
| SymptomLog.ToggleTwice | src/pages/SymptomLog.tsx:107-117 | toggling an unselected symptom twice restores the original selection exactly |
| SymptomLog.SetSeverity | src/pages/SymptomLog.tsx:119-124 | only that symptom's severity changes, to the slider value |
| SymptomLog.SymptomsArray | src/pages/SymptomLog.tsx:133-138 | one entry per selected symptom, in selection order, with that symptom's severity |
| SymptomLog.SymptomsArrayOnePerKey | src/pages/SymptomLog.tsx:133-138 | no symptom appears twice in the submitted array |
| SymptomLog.Message | src/pages/SymptomLog.tsx:28-46 | the schema's custom messages for no symptom and for notes that are too long |
| SymptomLog.Validate | src/pages/SymptomLog.tsx:28-46 | accepted iff the temperature is absent or in [95,108], the notes are absent or at most 1000 UTF-16 code units, there is at least one symptom and every severity lies in [1,5]; an accepted log keeps the symptoms and notes |
| SymptomLog.SymptomLogPage.constructor | src/pages/SymptomLog.tsx:52-59 | the demo patient id and an empty selection, notes and temperature |
| SymptomLog.SymptomLogPage.HandleSymptomToggle | src/pages/SymptomLog.tsx:107-117 | the selection becomes its toggle, and keys stay unique |
| SymptomLog.SymptomLogPage.HandleSeverityChange | src/pages/SymptomLog.tsx:119-124 | the selection gets the new severity, and keys stay unique |
| SymptomLog.SymptomLogPage.HandleSubmit | src/pages/SymptomLog.tsx:126-208 | sends a submission iff there is a patient and validation succeeds; it carries the validated fields; success clears the selection, notes and temperature, and a failure keeps them |
| NewEpisodeForm.ParseWaterSource | src/components/ui/NewEpisodeForm.tsx:30 | accepts exactly filtered, tap, well and outside |
| NewEpisodeForm.WaterSourceRoundTrip | src/components/ui/NewEpisodeForm.tsx:30 | every water source's name parses back to it |
| NewEpisodeForm.Validate | src/components/ui/NewEpisodeForm.tsx:20-31 | accepted iff the water source is one of the four; the accepted input maps back to the same form |
| NewEpisodeForm.InitialFormValid | src/components/ui/NewEpisodeForm.tsx:39-50 | the default form is accepted, with water source filtered |
| NewEpisodeForm.EpisodeOf | src/components/ui/NewEpisodeForm.tsx:77-96 | the episode is active, its patient id falls back to the mock id, and its id stamp and start time are the submit time |
| NewEpisodeForm.EpisodeKeepsHistory | src/components/ui/NewEpisodeForm.tsx:82-95 | the medical and exposure histories together hold exactly the ten validated fields |
| NewEpisodeForm.EpisodeKeepsForm | src/components/ui/NewEpisodeForm.tsx:55-96 | an accepted form can be recovered exactly from the episode it produced |
| NewEpisodeForm.ApplyUpdate | src/components/ui/NewEpisodeForm.tsx:173-394 | an input handler changes only its own field |
| NewEpisodeForm.EpisodeForm.constructor | src/components/ui/NewEpisodeForm.tsx:39-53 | the form starts at its defaults |
| NewEpisodeForm.EpisodeForm.Update | src/components/ui/NewEpisodeForm.tsx:173-394 | the form becomes its update |
| NewEpisodeForm.EpisodeForm.HandleSubmit | src/components/ui/NewEpisodeForm.tsx:55-121 | an episode is produced iff the form validates, and it is the mock episode of the validated input; a failure leaves success as it was; loading ends |
| NewEpisodeForm.EpisodeForm.ResetTimerElapsed | src/components/ui/NewEpisodeForm.tsx:122-136 | the form goes back to exactly the initial defaults and success clears |
| AITesting.HandleInput | src/components/AITesting.tsx:36-42 | the named field takes `checked` for a checkbox and `value` otherwise; every other field is unchanged |
| AITesting.CheckboxTouchesOneFlag | src/components/AITesting.tsx:36-42 | checking a box of the initial form sets that flag and leaves the text fields empty |
| AITesting.FlagOf | src/components/AITesting.tsx:54-63 | a checkbox is encoded as 1 iff it is truthy, otherwise 0 |
| AITesting.ApiDataOf | src/components/AITesting.tsx:51-64 | temperature, fever_days and platelet_count default to 100, 3 and 200 when the parse gives NaN or 0, and are never 0; each of the nine flags is 0 or 1, and 1 exactly when its checkbox is checked |
| AITesting.InitialFormDefaults | src/components/AITesting.tsx:51-64 | the untouched form sends 100, 3, 200 and all flags 0 |
| AITesting.ZeroTemperatureDefaults | src/components/AITesting.tsx:52 | a typed 0 temperature is sent as 100 |
| AITesting.SeverityLevel | src/components/AITesting.tsx:106-110 | High iff c >= 90, Moderate iff 70 <= c < 90, Low iff c < 70 |
| AITesting.SeverityLevelMonotone | src/components/AITesting.tsx:106-110 | a higher confidence never shows a lower level |
| AITesting.DiseaseColor | src/components/AITesting.tsx:95-104 | a known disease gets its table colour; #dfe6e9 iff unknown |
| AITesting.DiseaseColorsAgree | src/components/AITesting.tsx:95-104 | the test page colours every disease as the diagnosis page does |
| AITesting.TestPage.constructor | src/components/AITesting.tsx:9-26 | the initial form, no result and no error |
| AITesting.TestPage.HandleInputChange | src/components/AITesting.tsx:36-42 | the form becomes its update by the event |
| AITesting.TestPage.HandleSubmit | src/components/AITesting.tsx:44-74 | sends the defaulted request for the current form; success stores the prediction, and a failure stores the server's message or the fixed one; loading ends |
| AITesting.TestPage.ResetForm | src/components/AITesting.tsx:76-93 | the initial form, no result and no error |
| ClinicianDashboard.StatusColor | src/pages/ClinicianDashboard.tsx:60-67 | high, moderate and mild map to destructive, default and secondary; anything else to outline (each iff) |
| ClinicianDashboard.RiskColor | src/pages/ClinicianDashboard.tsx:69-73 | destructive iff s > 70, accent iff 50 < s <= 70, fever-mild iff s <= 50 |
| ClinicianDashboard.RiskColorBoundaries | src/pages/ClinicianDashboard.tsx:70-72 | 70 is accent and 50 is fever-mild |
| ClinicianDashboard.RiskColorMonotone | src/pages/ClinicianDashboard.tsx:69-73 | a higher score never shows a lower colour |
| AnalyticsDashboard.BucketsPartitionScores | src/components/AnalyticsDashboard.tsx:29-39 | a score that compares as a number lies in exactly one bucket (high iff > 70, low iff < 40); a null score, compared as 0, is Low Risk only; a missing or NaN score lies in none |
| AnalyticsDashboard.BucketCount | src/components/AnalyticsDashboard.tsx:26-42 | at most the number of patients, and zero iff no patient is in the bucket |
| AnalyticsDashboard.StatusCount | src/components/AnalyticsDashboard.tsx:45-51 | at most the number of patients, and zero iff no patient has that status |
| AnalyticsDashboard.BucketsSumToTotal | src/components/AnalyticsDashboard.tsx:26-42 | with comparable scores, the three bucket counts sum to the number of patients |
| AnalyticsDashboard.BucketsAtMostTotal | src/components/AnalyticsDashboard.tsx:26-42 | the three bucket counts never sum to more than the number of patients |
| AnalyticsDashboard.StatusData | src/components/AnalyticsDashboard.tsx:45-51 | five counts, one per status, each at most the number of patients |
| AnalyticsDashboard.StatusCountsAtMostTotal | src/components/AnalyticsDashboard.tsx:45-51 | the five status counts sum to at most the number of patients |
| AnalyticsDashboard.TrendData | src/components/AnalyticsDashboard.tsx:54-62 | seven points; the last is Sun with the patient count and the high-bucket count, which is no larger |
| RealTimeAlerts.Unread | src/components/RealTimeAlerts.tsx:142 | at most the number of alerts, and zero iff every alert is read |
| RealTimeAlerts.MarkRead | src/components/RealTimeAlerts.tsx:94-98 | same length; alerts with the id become read and every other alert is unchanged |
| RealTimeAlerts.Dismiss | src/components/RealTimeAlerts.tsx:110 | no alert with the id remains, every other alert is kept, and the result is an order-keeping subsequence |
| RealTimeAlerts.DismissMultiplicity | src/components/RealTimeAlerts.tsx:110 | every other alert keeps its number of copies; the dismissed id keeps none |
| RealTimeAlerts.MarkReadIdempotent | src/components/RealTimeAlerts.tsx:94-98 | marking twice is marking once |
| RealTimeAlerts.MarkReadClearsId | src/components/RealTimeAlerts.tsx:94-98 | an alert with the id is read afterwards |
| RealTimeAlerts.MarkReadUnreadNonIncreasing | src/components/RealTimeAlerts.tsx:87-101 | marking read never increases the unread count |
| RealTimeAlerts.DismissUnreadNonIncreasing | src/components/RealTimeAlerts.tsx:103-113 | dismissing never increases the unread count |
| RealTimeAlerts.DismissAppend | src/components/RealTimeAlerts.tsx:110 | dismissing distributes over concatenation, so the remaining alerts keep their order |
| RealTimeAlerts.PrependUnread | src/components/RealTimeAlerts.tsx:63 | prepending adds one to the unread count iff the new alert is unread |
| RealTimeAlerts.SeverityColor | src/components/RealTimeAlerts.tsx:115-126 | destructive iff critical or high, default iff moderate, secondary otherwise |
| RealTimeAlerts.ToastTitle | src/components/RealTimeAlerts.tsx:71-77 | "Critical Alert" iff critical, "High Priority Alert" iff high, "New Alert" otherwise |
| RealTimeAlerts.TimeAgo | src/components/RealTimeAlerts.tsx:128-140 | just now under a minute, minutes under an hour, hours under a day, days otherwise, each count the floor of the elapsed time |
| RealTimeAlerts.TimeAgoMonotone | src/components/RealTimeAlerts.tsx:128-140 | a later time never shows fewer minutes or days |
| RealTimeAlerts.AgoText | src/components/RealTimeAlerts.tsx:132-139 | "Just now", or the decimal text of the count followed by "m ago", "h ago" or "d ago" |
| RealTimeAlerts.AgoTextDistinct | src/components/RealTimeAlerts.tsx:132-139 | different labels give different text: the unit letter separates the units, the digits the counts |
| RealTimeAlerts.AlertFeed.constructor | src/components/RealTimeAlerts.tsx:25-26 | no alerts and loading |
| RealTimeAlerts.AlertFeed.UnreadCount | src/components/RealTimeAlerts.tsx:142 | the number of unread alerts, at most the list length |
| RealTimeAlerts.AlertFeed.FetchAlerts | src/components/RealTimeAlerts.tsx:38-49 | the fetched rows replace the list; a failed fetch keeps it; loading ends |
| RealTimeAlerts.AlertFeed.OnInsert | src/components/RealTimeAlerts.tsx:61-78 | the new alert is prepended, the old alerts keep their order, and the toast title follows its severity |
| RealTimeAlerts.AlertFeed.MarkAsRead | src/components/RealTimeAlerts.tsx:87-101 | success marks the id read, an error keeps the list, and the unread count never grows |
| RealTimeAlerts.AlertFeed.DismissAlert | src/components/RealTimeAlerts.tsx:103-113 | success drops the id, an error keeps the list, and the unread count never grows |
| PatientMedications.TodaysLogs | src/components/PatientMedications.tsx:125-132 | exactly the logs of that medication taken today, as an order-keeping subsequence of the logs |
| PatientMedications.TodaysLogsMultiplicity | src/components/PatientMedications.tsx:125-132 | each of today's doses of the medication appears as often as it was logged; no other log appears |
| PatientMedications.TodaysLogsNonEmptyIff | src/components/PatientMedications.tsx:155-156 | today's list is non-empty iff some log of that medication falls on today |
| PatientMedications.HasTakenToday | src/components/PatientMedications.tsx:156 | taken today iff some log of that medication falls on today |
| PatientMedications.LastTaken | src/components/PatientMedications.tsx:185-187 | a last-taken time is shown iff the medication was taken today, and it is the time of one of today's doses of it |
| PatientMedications.LastTakenIsLatest | src/components/PatientMedications.tsx:185-187 | with logs ordered newest first, the time shown is the latest dose of today |
| MedicationManagement.BlankForm | src/components/MedicationManagement.tsx:145-154 | every text field is empty and the start date is today |
| MedicationManagement.EditFormOf | src/components/MedicationManagement.tsx:156-167 | null instructions and end date become ""; the other fields are copied |
| MedicationManagement.PayloadOf | src/components/MedicationManagement.tsx:80-85 | name, dosage, frequency, instructions and start date come from the form; an empty end date becomes null and a non-empty one is kept; the payload carries the patient id and prescribed_by = user id |
| MedicationManagement.EndDateRoundTrip | src/components/MedicationManagement.tsx:84-164 | editing and submitting unchanged restores the original end date |
| MedicationManagement.FieldsRoundTrip | src/components/MedicationManagement.tsx:80-167 | name, dosage, frequency, start date and present instructions survive the edit and submit |
| MedicationManagement.NullInstructionsBecomeEmpty | src/components/MedicationManagement.tsx:81-163 | null instructions come back as "" |
| MedicationManagement.TogglePayload | src/components/MedicationManagement.tsx:134 | the payload's is_active is the negation of the medication's |
| MedicationManagement.ToggleTwice | src/components/MedicationManagement.tsx:134 | toggling twice restores the flag |
| MedicationManagement.ToggleMessage | src/components/MedicationManagement.tsx:138 | "deactivated" iff the medication was active |
| MedicationManagement.MedicationEditor.constructor | src/components/MedicationManagement.tsx:40-50 | no medication being edited, a blank form and the dialog closed |
| MedicationManagement.MedicationEditor.OpenEditDialog | src/components/MedicationManagement.tsx:156-167 | edits that medication, with its form, and opens the dialog |
| MedicationManagement.MedicationEditor.ResetForm | src/components/MedicationManagement.tsx:145-154 | the blank form for today |
| MedicationManagement.MedicationEditor.HandleSubmit | src/components/MedicationManagement.tsx:73-111 | no user, no write; otherwise an update of the edited medication or an insert, with the payload; success closes and resets, and a failure keeps the state |
| DeviceSetup.InsertedRow | src/pages/DeviceSetup.tsx:67-82 | the stored row keeps the mock device's name, type and connection and has no sync time |
| DeviceSetup.Connect | src/pages/DeviceSetup.tsx:103-108 | only devices with the id become connected with the sync time; the length and every other device are unchanged |
| DeviceSetup.Sync | src/pages/DeviceSetup.tsx:137-147 | only devices with the id get the sync time; the length and every other device are unchanged |
| DeviceSetup.SyncKeepsConnections | src/pages/DeviceSetup.tsx:143-147 | a sync never changes any connection flag |
| DeviceSetup.ConnectIdempotent | src/pages/DeviceSetup.tsx:103-108 | connecting twice at one time is connecting once |
| DeviceSetup.SyncAfterConnect | src/pages/DeviceSetup.tsx:103-147 | a sync right after a connect at the same time changes nothing |
| DeviceSetup.DevicePage.constructor | src/pages/DeviceSetup.tsx:20-23 | no patient, no devices, not scanning, not connecting |
| DeviceSetup.DevicePage.HasPatient | src/pages/DeviceSetup.tsx:60 | `!patientId` fails exactly for a loaded, non-empty id: null and "" both count as no patient |
| DeviceSetup.DevicePage.LoadPatient | src/pages/DeviceSetup.tsx:39-57 | the patient is known; the fetched rows replace the list, and a failure keeps it |
| DeviceSetup.DevicePage.ScanForDevices | src/pages/DeviceSetup.tsx:59-88 | without a patient (null or an empty id) nothing happens; otherwise the mock thermometer is requested, and a stored row is appended at the end with is_connected false |
| DeviceSetup.DevicePage.ConnectDevice | src/pages/DeviceSetup.tsx:90-116 | without a patient (null or an empty id) nothing happens; success connects the device; a failure keeps the list |
| DeviceSetup.DevicePage.SyncDevice | src/pages/DeviceSetup.tsx:118-152 | with a patient id, success syncs the device; otherwise the list is kept; connection flags never change |
| DiseaseMap.FilteredCases | src/components/DiseaseMap.tsx:77-79 | "all" gives the cases unchanged; another filter gives exactly the matching cases as an order-keeping subsequence |
| DiseaseMap.FilteredCasesMultiplicity | src/components/DiseaseMap.tsx:77-79 | each matching case appears as often as it was reported (every case for "all"); no other case appears |
| DiseaseMap.FiltersDisjoint | src/components/DiseaseMap.tsx:79 | two different disease filters share no case |
| DiseaseMap.FilterCountsAtMostTotal | src/components/DiseaseMap.tsx:77-79 | the four disease filters together select at most all cases |
| DiseaseMap.DiseaseColor | src/components/DiseaseMap.tsx:67-75 | the colour of the lowercased disease; #888888 iff unknown |
| DiseaseMap.DiseaseColorIgnoresCase | src/components/DiseaseMap.tsx:74 | the colour does not depend on letter case |
| DiseaseMap.FilteredCaseColor | src/components/DiseaseMap.tsx:67-79 | every case shown under a disease filter has that disease's colour |
| OutbreakMap.SeverityColor | src/components/OutbreakMap.tsx:36-47 | red, amber and blue for high, medium and low; grey otherwise (each iff) |
| OutbreakMap.Radius | src/components/OutbreakMap.tsx:49-51 | always in [10, 40]; cases/5 on [50, 200]; 10 below and 40 above |
| OutbreakMap.RadiusMonotone | src/components/OutbreakMap.tsx:49-51 | more cases never give a smaller radius |
| Heatmap.ZoomedIn | src/pages/Heatmap.tsx:32 | z + 1 below 10, and 10 at or above it |
| Heatmap.ZoomedOut | src/pages/Heatmap.tsx:24 | z - 1 above 4, and 4 at or below it |
| Heatmap.InThenOut | src/pages/Heatmap.tsx:24-32 | for 4 <= z < 10, zooming in and then out returns to z |
| Heatmap.OutThenIn | src/pages/Heatmap.tsx:24-32 | for 4 < z <= 10, zooming out and then in returns to z |
| Heatmap.RunStaysInRange | src/pages/Heatmap.tsx:24-32 | any sequence of presses from a zoom in [4, 10] stays in [4, 10] |
| Heatmap.FromInitialZoom | src/pages/Heatmap.tsx:10-32 | starting from 5, zoom stays in [4, 10] |
| Heatmap.ZoomControl.constructor | src/pages/Heatmap.tsx:10 | starts at 5, within range |
| Heatmap.ZoomControl.ZoomIn | src/pages/Heatmap.tsx:32 | the zoom becomes its clamped increment and stays in range |
| Heatmap.ZoomControl.ZoomOut | src/pages/Heatmap.tsx:24 | the zoom becomes its clamped decrement and stays in range |
| PDFReportGenerator.TempStatus | src/components/PDFReportGenerator.tsx:93 | "High" iff t > 37.5, "Normal" otherwise |
| PDFReportGenerator.Prefix | src/components/PDFReportGenerator.tsx:90 | `slice(0, n)`: min(n, length) elements, the first ones in order |
| PDFReportGenerator.TempLines | src/components/PDFReportGenerator.tsx:90-94 | one line per reading, in order |
| PDFReportGenerator.TempTable | src/components/PDFReportGenerator.tsx:90-94 | min(10, n) rows from the first readings in order, each High iff above 37.5 |
| PDFReportGenerator.HighTempCount | src/components/PDFReportGenerator.tsx:188 | at most the number of readings, and zero iff none is above 37.5 |
| PDFReportGenerator.TableHighAtMostCount | src/components/PDFReportGenerator.tsx:90-188 | the table never shows more High rows than the summary counts |
| PDFReportGenerator.PrefixHighAtMostCount | src/components/PDFReportGenerator.tsx:90-188 | any prefix has at most the total count of High readings |
| PDFReportGenerator.AverageTemp | src/components/PDFReportGenerator.tsx:184-186 | the average is N/A iff there are no readings |
| PDFReportGenerator.Sum | src/components/PDFReportGenerator.tsx:185 | the reduce starts at 0 and a single reading sums to its own temperature |
| PDFReportGenerator.SumBounds | src/components/PDFReportGenerator.tsx:185 | the sum of readings between lo and hi lies between n·lo and n·hi |
| PDFReportGenerator.AverageWithinBounds | src/components/PDFReportGenerator.tsx:184-186 | the average lies between the lowest and highest bound of the readings |
| PDFReportGenerator.SymptomLineOf | src/components/PDFReportGenerator.tsx:119-124 | missing or empty notes print as "-" |
| PDFReportGenerator.SymptomLines | src/components/PDFReportGenerator.tsx:119-124 | one line per symptom, in order |
| PDFReportGenerator.SymptomTable | src/components/PDFReportGenerator.tsx:119-124 | min(15, n) rows from the first symptoms, with notes "-" iff missing, empty or "-" |
| PDFReportGenerator.Types | src/components/PDFReportGenerator.tsx:189 | the symptom types, in order |
| PDFReportGenerator.RecentTypes | src/components/PDFReportGenerator.tsx:189 | at most the first five symptom types |
| PDFReportGenerator.RecentSymptoms | src/components/PDFReportGenerator.tsx:189-195 | "None recorded" when there are no symptoms; otherwise the text starts with the first type, and for one symptom it is that type; in general it is the ", "-join of the first five types, or "None recorded" when that join is empty |
| PDFReportGenerator.JoinAppend | src/components/PDFReportGenerator.tsx:189 | joining one more part appends the separator and the part: the separator stands exactly between neighbours |
| PDFReportGenerator.JoinStartsWithFirst | src/components/PDFReportGenerator.tsx:189 | a joined list starts with its first element |
| PDFReportGenerator.Join | src/components/PDFReportGenerator.tsx:189 | no parts join to "", one part to itself, and more parts start with the first part and the separator |
| PDFReportGenerator.RecentSymptomsIgnoresTail | src/components/PDFReportGenerator.tsx:189 | symptoms beyond the fifth never change the summary text |
| PDFReportGenerator.MedLineOf | src/components/PDFReportGenerator.tsx:152-158 | status "Active" iff the medication is active |
| PDFReportGenerator.MedTable | src/components/PDFReportGenerator.tsx:152-158 | one row per medication, in order |
| PDFReportGenerator.ActiveCount | src/components/PDFReportGenerator.tsx:197 | at most the number of medications, and equal to it iff all are active |
| PDFReportGenerator.AllActiveCount | src/components/PDFReportGenerator.tsx:197 | the filtered count equals the list length exactly when every medication is active |
| PDFReportGenerator.ActiveCountMatchesTable | src/components/PDFReportGenerator.tsx:152-197 | the summary's active count equals the number of Active rows in the table |
| PDFReportGenerator.LayoutReport | src/components/PDFReportGenerator.tsx:51-198 | the symptom and medication titles appear iff their sections do; each title sits where the previous table ended plus 10 (77 after the header), moved to 20 on a new page when that is below 250 (230 for the summary); the page count is one plus the tables' pages plus one per break |
| PDFReportGenerator.Footers | src/components/PDFReportGenerator.tsx:200-217 | one footer per page; the k-th labels page k of pageCount, so every page is labelled exactly once |
| PDFReportGenerator.FooterOf | src/components/PDFReportGenerator.tsx:204-216 | the footer of page i carries page i, a caption starting "Page " and the confidentiality notice |
| PDFReportGenerator.FooterCaptionsDistinct | src/components/PDFReportGenerator.tsx:204-208 | two different pages get different "Page i of n" captions |
| Js.NumOr | src/components/AITesting.tsx:52-61 | `n \|\| d` on a number: the number when it is neither NaN nor 0, and the default otherwise |
| Js.StrOr | src/components/PDFReportGenerator.tsx:189 | `s \|\| d` on a string: the string when non-empty, and the default otherwise |
| Js.OptStrOr | src/components/ui/DailyLogForm.tsx:120-121 | `s \|\| d` on an optional string: the string when present and non-empty, and the default otherwise |
| Js.NonEmpty | src/pages/SymptomLog.tsx:144 | an empty string becomes absent |
| Js.ParsedIfPresent | src/pages/SymptomLog.tsx:140 | `x ? parse(x) : undefined`: an empty input is absent, anything else is parsed (also the pulse and vomiting count of the daily log) |
| Js.Bit | src/components/AdvancedAI.tsx:106-115 | `b ? 1 : 0`: 1 iff the boolean is true |
| Js.LowerChar | src/components/DiseaseMap.tsx:74 | an ASCII capital becomes the small letter 32 code points above it; every other character is kept |
| Js.Lower | src/components/DiseaseMap.tsx:74 | `toLowerCase`: same length, each character lowered |
| Js.LowerIdempotent | src/components/DiseaseMap.tsx:74-79 | lowering twice is lowering once |
| Js.DigitChar | src/components/RealTimeAlerts.tsx:135-139 | the decimal digit character whose value is the argument |
| Js.DecimalText | src/components/RealTimeAlerts.tsx:135-139 | the decimal text of an integer: for n >= 0 digits whose value is n, with no leading zero when n > 0; for n < 0 a minus sign followed by the text of -n |
| Js.DecimalTextInjective | src/components/RealTimeAlerts.tsx:135-139 | different numbers give different text |
| Js.Utf16Length | src/pages/SymptomLog.tsx:36 | the UTF-16 length lies between the character count and twice it, and equals the count when no character is beyond the Basic Multilingual Plane |
| Js.Utf16LengthAppend | src/pages/SymptomLog.tsx:36 | the UTF-16 length of a concatenation is the sum of the parts' lengths |
| Seqs.Filter | src/components/PatientMedications.tsx:127-131 | `filter`: an order-keeping subsequence holding exactly the elements that satisfy the predicate |
| Seqs.Count | src/components/AnalyticsDashboard.tsx:26-51 | `filter(...).length`: at most the length, and zero iff no element satisfies the predicate |
| Seqs.FilterAppend | src/components/PatientMedications.tsx:127-131 | filtering distributes over concatenation |
| Seqs.FilterMultiplicity | src/components/PatientMedications.tsx:127-131 | a filter keeps every passing element as many times as it occurs and no other element |
| Seqs.CountAfterFilter | src/components/RealTimeAlerts.tsx:110-142 | filtering never raises the number of elements that pass another test |
| Seqs.SubsequenceOfSelf | src/components/DiseaseMap.tsx:78 | every list is an order-keeping subsequence of itself, so the unfiltered list is one too |

## Left out

- Networking: Supabase queries, inserts and realtime channels, axios calls, authentication and tokens are left out. Each call is a parameter of the method that makes it: a success flag, the returned rows as an `Option`, or an outcome datatype. `ScanForDevices` appends the row it asked the database to insert, with the id the insert returned, so it assumes the backend echoes the inserted fields (in particular `is_connected` false) rather than taking the returned row as given.
- The machine-learning predictor: its prediction, confidence and urgency are inputs. Urgency is never derived locally.
- Rendering is left out: JSX, charts, maps, dialogs, toasts (only the toast titles are modelled) and the jsPDF drawing calls.
- `toFixed`, number formatting and average rounding are left out. The only text produced from numbers is the decimal text of integers used in "Nm ago" and "Page i of n".
- `Math.random`: the mock device name, Bluetooth id and mock temperature are parameters.
- Timers: `setTimeout` delays are dropped. The timer that clears a success flag or resets a form is a separate method (`LogForm.SuccessTimerElapsed`, `EpisodeForm.ResetTimerElapsed`).
- Dates are integer minutes or milliseconds. "Today" compares day keys (minutes / 1440), which ignores the local time zone. The ISO or `log_…` id strings built from `Date.now()` are represented by the clock reading itself.
- `parseFloat` and `parseInt` are parameters, because their parsing of arbitrary text is not modelled.
- Lookups in a colour table use a map, so keys inherited from `Object.prototype` (such as "constructor") are not modelled.
- zod's built-in messages are not modelled; only the custom ones are. A rejected form reports its first failing field.
- `toLowerCase` lowers ASCII letters only.
- DailyLogForm.Validate: a failure reports its first issue; zod reports every failing field.
- PatientMedications: the `handleLogMedication` insert and the fetch of medications and logs are left out (network only).
- MedicationManagement: the fetch and delete calls are left out (network only).
- DiseaseMap: `loadMapData` is left out (network and static sample data).
- PDFReportGenerator: the patient-information lines and the file name are left out (text formatting). `LayoutReport` takes each table's final y position and page count from the table renderer as parameters.
- AnalyticsDashboard: a risk score is `null` (compared as 0), a number, or missing or non-numeric (compared as `NaN`); a string-typed score such as "50", which JavaScript would convert, and the `patients.length * 0.15` estimates are not modelled.
- Chat, login, signup, landing and routing pages are not part of this model.
