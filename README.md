# ChurnInsight churn-risk core, modelled in Dafny

ChurnInsight estimates how likely a small or medium company is to stop using
a bank's services ("churn"). The model covers the parts of each tier that
decide that risk:

- **Frontend.** The client-side scorer with its bands, display probability and
  recommendations (`PredictionService`). The record types it consumes
  (`ChurnModels`). The prediction form, modelled as a class with its wizard
  state, field validation, computed metrics and request building
  (`PredictionForm`). The dashboard's churn doughnut chart, a class whose
  chart data is overwritten in place (`ChurnChart`), and the dashboard's key
  figures (`Dashboard`).
- **AI service.** The model manager: feature normalisation, the heuristic
  fallback model, clamping, banding, batch prediction and model info
  (`ModelManager`). The prediction routes with their request dictionaries,
  batch counters and risk-level lookup (`PredictionsRoute`). The health,
  readiness and liveness probes (`Health`).
- **Backend.** The company entity's derived `BigDecimal` metrics and its age
  range (`CompanyEntity`, over the `BigDecimals` subset of
  `java.math.BigDecimal`). The company service's DTO mapping, list and page
  queries, sector churn statistics, the high-risk stream and the CUIT lookup
  (`CompanyService`).

Conventions:

- TypeScript and Python numbers are `real`.
- A Java `Integer` is `Option<int>` (null is `None`). A Java `BigDecimal` is
  `Decimal(unscaled, scale)`.
- A thrown exception is the `Err` side of a `Result`. Its kinds are
  `NullPointerException`, `ArithmeticException` and `RuntimeException(message)`.
- Random draws, clocks, the current year, the deployment environment, the
  database probe, the trained model's output and the repository's query
  results are parameters.

Where the written description of the system and the code differ, the model
follows the code. The fallback recommendation is the code's literal
`"Error en predicción. Reintentar."`. The AI service bands with `>= 0.7` /
`>= 0.4`, while the frontend uses `> 0.7` / `> 0.4`. The two are related by
`ModelManager.BandingAgreesOffThresholds`.

## Model

| member | source | states |
|---|---|---|
| ChurnModels.CountFlags | frontend/src/app/core/models/churn.interface.ts:66-72 | the service count lies in 0..4; it is 0 exactly when no flag is set and 4 exactly when all are |
| ChurnModels.WithChurn | frontend/src/app/shared/charts/churn-distribution-chart/churn-distribution-chart.component.ts:51-52 | the filtered records are at most the input, and a record is kept exactly when it is in the input with the asked churn flag |
| ChurnModels.ChurnSplit | frontend/src/app/shared/charts/churn-distribution-chart/churn-distribution-chart.component.ts:51-52 | the churned and non-churned filters together hold exactly as many records as the input |
| ChurnModels.WithChurnAppend | frontend/src/app/shared/charts/churn-distribution-chart/churn-distribution-chart.component.ts:51-52 | filtering a concatenation filters each part and keeps them in order |
| ChurnModels.WithChurnCounts | frontend/src/app/shared/charts/churn-distribution-chart/churn-distribution-chart.component.ts:51-52 | the filter keeps one record per matching position: its length is the number of positions whose record has the asked churn flag |
| PredictionService.EngagementFactor | frontend/src/app/core/services/prediction.service.ts:97-100 | adds 0.3 exactly below 27 active days (ratio < 0.3), 0.15 exactly for 27..54, and 0 from 54 on |
| PredictionService.MarginFactor | frontend/src/app/core/services/prediction.service.ts:102-104 | adds 0.3 exactly for a negative margin, 0.15 exactly for a margin below 10% of revenue, and 0 otherwise |
| PredictionService.DebtFactor | frontend/src/app/core/services/prediction.service.ts:106-110 | adds 0.2 exactly when debt and assets are positive and debt exceeds half the assets, and 0 otherwise, so there is never a division by zero |
| PredictionService.CreditFactor | frontend/src/app/core/services/prediction.service.ts:112-118 | adds 0 or 0.15; zero requested loans add exactly 0.15; otherwise it adds 0.15 exactly when approvals are below 30% of requests |
| PredictionService.ServicesFactor | frontend/src/app/core/services/prediction.service.ts:120-121 | adds 0.1 exactly when fewer than 2 services are used |
| PredictionService.RawScore | frontend/src/app/core/services/prediction.service.ts:95-121 | the factor sum lies in [0, 1.05] |
| PredictionService.RiskScore | frontend/src/app/core/services/prediction.service.ts:123 | the capped score lies in [0, 1] and is either 1 or the raw sum |
| PredictionService.CalculateRiskScore | frontend/src/app/core/services/prediction.service.ts:94-124 | the accumulating method returns the capped factor sum, in [0, 1] |
| PredictionService.ActivityMonotone | frontend/src/app/core/services/prediction.service.ts:98-104 | with everything else fixed, fewer active days never lower the score |
| PredictionService.AllFactorsExample | frontend/src/app/core/services/prediction.service.ts:95-123 | a record firing every factor reaches the raw sum 1.05, is capped to 1 and bands as alto |
| PredictionService.Band | frontend/src/app/core/services/prediction.service.ts:70-79 | alto exactly above 0.7, medio exactly in (0.4, 0.7], bajo exactly at or below 0.4; the three bands partition the scores |
| PredictionService.BandMonotone | frontend/src/app/core/services/prediction.service.ts:70-79 | a higher score never gives a milder band |
| PredictionService.RoundCents | frontend/src/app/core/services/prediction.service.ts:83 | rounding to two decimals moves a value by at most half a cent |
| PredictionService.DisplayProbability | frontend/src/app/core/services/prediction.service.ts:72-83 | for a draw in [0, 1) the rounded probability lies in [0.6, 1] for alto, [0.3, 0.7] for medio and [0, 0.3] for bajo |
| PredictionService.Messages | frontend/src/app/core/services/prediction.service.ts:136-150 | each fired rule contributes its own message, in rule order |
| PredictionService.GenerateRecommendations | frontend/src/app/core/services/prediction.service.ts:129-154 | the pushing method returns the recommendations the rules define |
| PredictionService.MessagesConcat | frontend/src/app/core/services/prediction.service.ts:133-151 | the messages of two rule lists are those of the first followed by those of the second |
| PredictionService.RecommendationsBySegments | frontend/src/app/core/services/prediction.service.ts:135-153 | the recommendations are the five rules' contributions in order, or the default when none fires |
| PredictionService.FiringMembers | frontend/src/app/core/services/prediction.service.ts:135-151 | a rule is among the fired ones exactly when it is listed and its condition holds |
| PredictionService.FiringOrdered | frontend/src/app/core/services/prediction.service.ts:135-151 | two fired rules appear in the order they are checked |
| PredictionService.MessagesDistinct | frontend/src/app/core/services/prediction.service.ts:136-153 | the five rule messages and the default are pairwise different |
| PredictionService.RecommendationsSize | frontend/src/app/core/services/prediction.service.ts:133-153 | there are between 1 and 5 recommendations |
| PredictionService.RecommendationsDefault | frontend/src/app/core/services/prediction.service.ts:153 | the result is exactly the default message when no rule fires, and only then |
| PredictionService.RecommendationMembership | frontend/src/app/core/services/prediction.service.ts:135-151 | a rule's message is recommended exactly when that rule's condition holds |
| PredictionService.RecommendationOrder | frontend/src/app/core/services/prediction.service.ts:135-151 | the messages of two firing rules appear in rule order |
| PredictionService.PriorityContactFirst | frontend/src/app/core/services/prediction.service.ts:135-136 | for alto the priority-contact message comes first, and for any other band it is absent |
| PredictionService.FullRecommendationExample | frontend/src/app/core/services/prediction.service.ts:135-151 | an inactive, loss-making alto company without loans and with one service gets all five messages in order |
| PredictionService.HandleError | frontend/src/app/core/services/prediction.service.ts:159-166 | the fallback is medio with probability 0.5, no confidence and the single retry message, and it is well formed |
| PredictionService.Completed | frontend/src/app/core/services/prediction.service.ts:43-45 | the input passes validation exactly when it and its financial and engagement parts are present |
| PredictionService.MockPrediction | frontend/src/app/core/services/prediction.service.ts:64-88 | the band is that of the capped score, the probability is the rounded draw in that band, and the recommendations are those of the band; the reply is well formed for a draw in [0, 1) |
| PredictionService.Predict | frontend/src/app/core/services/prediction.service.ts:41-58 | incomplete input gives the fallback; otherwise the mock reply plus confidence `draw * 0.4 + 0.6`, in [0.6, 1] for a draw in [0, 1) |
| PredictionForm.InitialValue | frontend/src/app/features/prediction/prediction-form.component.ts:150-209 | every control starts with a value of its kind; exactly the numeric controls start null |
| PredictionForm.RulesOf | frontend/src/app/features/prediction/prediction-form.component.ts:150-209 | the validators: all but the flags are required, only the CUIT has the 11-digit pattern, numbers have minimum 0, and only the two day counts have maximum 90 |
| PredictionForm.ErrorsOf | frontend/src/app/features/prediction/prediction-form.component.ts:150-209 | each validator error is raised exactly under its Angular condition; required fires on null or empty input, and the others skip empty input |
| PredictionForm.MessageFor | frontend/src/app/features/prediction/prediction-form.component.ts:273-302 | a message is produced exactly when the control is invalid |
| PredictionForm.MessageOrder | frontend/src/app/features/prediction/prediction-form.component.ts:280-299 | the message reports the first error in the order required, minlength, maxlength, pattern, min, max, with the validator's own bound |
| PredictionForm.CuitMessages | frontend/src/app/features/prediction/prediction-form.component.ts:153-161 | the CUIT message for empty, short, long, non-digit and valid input |
| PredictionForm.BadFormatUnreachable | frontend/src/app/features/prediction/prediction-form.component.ts:289-292 | the generic format message is never produced, because only the CUIT has a pattern |
| PredictionForm.DayCountMessages | frontend/src/app/features/prediction/prediction-form.component.ts:192-199 | the day counts report required, below 0 and above 90, and accept exactly 0..90 |
| PredictionForm.CuitLengthTexts | frontend/src/app/features/prediction/prediction-form.component.ts:284-289 | a too-short or too-long CUIT shows "Mínimo 11 caracteres" or "Máximo 11 caracteres" |
| PredictionForm.DayCountTexts | frontend/src/app/features/prediction/prediction-form.component.ts:296-299 | a negative or above-90 day count shows "No puede ser menor a 0" or "No puede ser mayor a 90" |
| PredictionForm.NatText | frontend/src/app/features/prediction/prediction-form.component.ts:284-297 | a bound is written as a non-empty string of digits |
| PredictionForm.NatTextRoundTrip | frontend/src/app/features/prediction/prediction-form.component.ts:284-297 | reading the digits back gives the bound |
| PredictionForm.IntText | frontend/src/app/features/prediction/prediction-form.component.ts:294-297 | an integer is written as its digits with a leading minus when negative |
| PredictionForm.SectionFields | frontend/src/app/features/prediction/prediction-form.component.ts:243-262 | each wizard section validates a non-empty list of required controls |
| PredictionForm.ValidateStepEffect | frontend/src/app/features/prediction/prediction-form.component.ts:273-302 | validating a field adds its message exactly when it fails and leaves every other entry alone |
| PredictionForm.ValidatedEntries | frontend/src/app/features/prediction/prediction-form.component.ts:264 | after validating a list of fields, a field has an error exactly when it had one before or is listed and failing |
| PredictionForm.SectionErrorsExact | frontend/src/app/features/prediction/prediction-form.component.ts:243-265 | the section's error map holds exactly its failing fields |
| PredictionForm.SectionErrorsEmpty | frontend/src/app/features/prediction/prediction-form.component.ts:264-265 | the error map is empty exactly when every field of the section is valid |
| PredictionForm.ResetControls | frontend/src/app/features/prediction/prediction-form.component.ts:396 | a reset keeps the controls and sets each to null |
| PredictionForm.ResetBlocksEverySection | frontend/src/app/features/prediction/prediction-form.component.ts:395-403 | after a reset no section validates |
| PredictionForm.TrimStart | frontend/src/app/features/prediction/prediction-form.component.ts:412-413 | trimming the front returns a suffix that does not start with white space |
| PredictionForm.TrimEnd | frontend/src/app/features/prediction/prediction-form.component.ts:412-413 | trimming the back returns a prefix that does not end with white space |
| PredictionForm.Trim | frontend/src/app/features/prediction/prediction-form.component.ts:412-413 | the trimmed text is a slice of the input with no white space at either end |
| PredictionForm.TrimStartDropsWhiteSpace | frontend/src/app/features/prediction/prediction-form.component.ts:412-413 | only white space is dropped from the front |
| PredictionForm.TrimEndDropsWhiteSpace | frontend/src/app/features/prediction/prediction-form.component.ts:412-413 | only white space is dropped from the back |
| PredictionForm.TrimIdempotent | frontend/src/app/features/prediction/prediction-form.component.ts:412-413 | trimming twice is trimming once |
| PredictionForm.DigitsTrimmed | frontend/src/app/features/prediction/prediction-form.component.ts:412 | a string of digits, such as a valid CUIT, is unchanged by trimming |
| PredictionForm.ValidFormHasNumbers | frontend/src/app/features/prediction/prediction-form.component.ts:308-311 | a form that passes validation has every numeric value present |
| PredictionForm.CalculatedMargin | frontend/src/app/features/prediction/prediction-form.component.ts:72-80 | the shown margin is never negative; it is positive exactly when revenue exceeds expenses, and then it is their difference |
| PredictionForm.CreditApprovalRatio | frontend/src/app/features/prediction/prediction-form.component.ts:83-90 | 0 when nothing was requested; otherwise approvals over requests times 100, in [0, 100] when approvals do not exceed requests |
| PredictionForm.ActivityRatio | frontend/src/app/features/prediction/prediction-form.component.ts:93-98 | active days over 90, in percent, within [0, 100] for 0..90 days |
| PredictionForm.ServicesCount | frontend/src/app/features/prediction/prediction-form.component.ts:101-109 | the number of set service flags |
| PredictionForm.ActivityIndicatorColor | frontend/src/app/features/prediction/prediction-form.component.ts:112-117 | emerald exactly above 63 days (ratio > 70), amber exactly for more than 36 and at most 63 days, red at 36 days or fewer |
| PredictionForm.ProgressPercentage | frontend/src/app/features/prediction/prediction-form.component.ts:120-122 | the section over 3, in percent, in (0, 100], and 100 exactly at the last section |
| PredictionForm.Ticket | frontend/src/app/features/prediction/prediction-form.component.ts:361-362 | the average ticket divides by the count, or by 1 when the count is below 1 |
| PredictionForm.BuildQuarterlyMetrics | frontend/src/app/features/prediction/prediction-form.component.ts:345-390 | the built request has the given date, a margin equal to revenue minus expenses, a service count matching its flags, 0 cancelled loans, 60 days to cancel, and tickets by `Ticket` |
| PredictionForm.BuildCopiesForm | frontend/src/app/features/prediction/prediction-form.component.ts:345-390 | debt, assets, the loan counts and amounts, the login figures and the four service flags are those the form holds, and the average tickets divide the form's amounts by its counts |
| PredictionForm.ValidFormBuildsWellFormed | frontend/src/app/features/prediction/prediction-form.component.ts:345-390 | a validated form builds a request meeting every documented record invariant |
| PredictionForm.CalculatedMarginMatchesBuilt | frontend/src/app/features/prediction/prediction-form.component.ts:72-80 | the shown margin is the built margin floored at 0 |
| PredictionForm.TrimmedOrNA | frontend/src/app/features/prediction/prediction-form.component.ts:412-413 | the trimmed text, or "N/A" when it is missing or trims to empty; a valid CUIT passes unchanged |
| PredictionForm.TextOrNA | frontend/src/app/features/prediction/prediction-form.component.ts:414-415 | the text, or "N/A" when it is missing or empty |
| PredictionForm.BuildStaticProfile | frontend/src/app/features/prediction/prediction-form.component.ts:409-417 | no profile field is empty, and a valid CUIT is kept as typed |
| PredictionForm.ProfileTrimmed | frontend/src/app/features/prediction/prediction-form.component.ts:412-413 | the CUIT and the name in the profile are already trimmed |
| PredictionForm.PredictionFormComponent.constructor | frontend/src/app/features/prediction/prediction-form.component.ts:44-59 | the form starts at section 1, idle, with no result, no errors and every control at its initial value |
| PredictionForm.PredictionFormComponent.ValidateField | frontend/src/app/features/prediction/prediction-form.component.ts:273-302 | returns the error map with this field's message added when it fails |
| PredictionForm.PredictionFormComponent.IsValidCurrentSection | frontend/src/app/features/prediction/prediction-form.component.ts:240-267 | stores the section's errors, which are exactly its failing fields, and answers true exactly when there are none |
| PredictionForm.PredictionFormComponent.NextSection | frontend/src/app/features/prediction/prediction-form.component.ts:215-225 | advances exactly when the current section is valid and not the last, and stores its errors either way |
| PredictionForm.PredictionFormComponent.PrevSection | frontend/src/app/features/prediction/prediction-form.component.ts:230-235 | goes back one section unless it is at the first |
| PredictionForm.PredictionFormComponent.ResetForm | frontend/src/app/features/prediction/prediction-form.component.ts:395-403 | nulls the controls, returns to section 1 and clears result, profile, metrics and errors |
| PredictionForm.PredictionFormComponent.SubmitPrediction | frontend/src/app/features/prediction/prediction-form.component.ts:307-340 | an invalid form changes nothing and sends nothing; a valid one starts loading and sends the well-formed request built from it |
| PredictionForm.PredictionFormComponent.OnPredictionResponse | frontend/src/app/features/prediction/prediction-form.component.ts:325-329 | stores the reply, shows the results and stops loading |
| PredictionForm.PredictionFormComponent.OnPredictionError | frontend/src/app/features/prediction/prediction-form.component.ts:330-339 | stops loading |
| ModelManager.MissingNames | ai_service/app/core/model_manager.py:52-77 | the missing names are at most the expected ones |
| ModelManager.MissingNamesExact | ai_service/app/core/model_manager.py:52-77 | a name is reported missing exactly when it is expected and absent |
| ModelManager.NormalizeFeatures | ai_service/app/core/model_manager.py:52-77 | one entry per expected feature in order, 0 for an absent one, and the missing list is exactly the absent names |
| ModelManager.Clamp | ai_service/app/core/model_manager.py:144 | the result lies in [0, 1] and equals the input when it already does |
| ModelManager.DebtRatio | ai_service/app/core/model_manager.py:85-91 | with defaults 0 and 1: text assets raise; non-positive assets give 0; over positive assets, text debt raises and numeric debt gives debt over assets |
| ModelManager.ActivityScore | ai_service/app/core/model_manager.py:94-95 | never negative; 0 for 90 or more days and for a missing entry; it raises exactly on a non-number |
| ModelManager.Profitability | ai_service/app/core/model_manager.py:98-104 | with defaults 1 and 0: text revenue raises; non-positive revenue gives 0; over positive revenue, text expenses raise and numeric expenses give the margin's share of revenue; missing figures give 1 |
| ModelManager.MockPrediction | ai_service/app/core/model_manager.py:79-121 | the heuristic lies in [0, 1] and succeeds exactly when its three parts do |
| ModelManager.MockClosedForm | ai_service/app/core/model_manager.py:84-114 | for numeric features the heuristic is the clamp of 0.4 × debt/assets (0 without positive assets) + 0.3 × the inactive share of 90 days + 0.3 × the expenses' share of revenue (1 without positive revenue) |
| ModelManager.NumbersNeverRaise | ai_service/app/core/model_manager.py:79-121 | all-numeric features never make the heuristic raise |
| ModelManager.MockInactivityMonotone | ai_service/app/core/model_manager.py:94-114 | fewer active days never lower the heuristic |
| ModelManager.MockDefaultsGiveZero | ai_service/app/core/model_manager.py:79-121 | an empty feature dictionary scores 0 |
| ModelManager.LevelFor | ai_service/app/core/model_manager.py:147-152 | alto exactly from 0.7, medio exactly in [0.4, 0.7), bajo below 0.4 |
| ModelManager.Predict | ai_service/app/core/model_manager.py:123-159 | the probability lies in [0, 1]; a raise gives (0.5, desconocido); otherwise the clamped probability with its level |
| ModelManager.MockPredictEmpty | ai_service/app/core/model_manager.py:136-152 | without a trained model, empty features give (0, bajo) |
| ModelManager.BandingAgreesOffThresholds | ai_service/app/core/model_manager.py:147-152 | the service's banding and the frontend's agree exactly off the two thresholds 0.4 and 0.7 |
| ModelManager.RowFor | ai_service/app/core/model_manager.py:169-176 | a batch row carries the cuit entry if present and the prediction of its features |
| ModelManager.BatchPredict | ai_service/app/core/model_manager.py:161-182 | one row per input row, in order, each the row's prediction with probability in [0, 1] |
| ModelManager.ModelStatus | ai_service/app/core/model_manager.py:193 | "loaded" exactly when a truthy trained model is present, "mock" otherwise |
| ModelManager.ModelType | ai_service/app/core/model_manager.py:187 | the trained model's type name when it is truthy, "MockModel" otherwise, and "MockModel" whenever the status is "mock" |
| PredictionsRoute.FieldValue | ai_service/app/routes/predictions.py:54 | a request field becomes a text entry exactly for the cuit and a number otherwise |
| PredictionsRoute.DictOfEntries | ai_service/app/routes/predictions.py:54 | the request dictionary holds exactly the listed fields, each with its request value |
| PredictionsRoute.FeaturesOf | ai_service/app/routes/predictions.py:54-55 | popping the cuit leaves no cuit entry |
| PredictionsRoute.FeaturesAreRequired | ai_service/app/routes/predictions.py:54-55 | the features sent to the model are exactly the required features, all numbers |
| PredictionsRoute.RequestFeaturesNeverRaise | ai_service/app/routes/predictions.py:54-58 | a validated request never makes the heuristic raise |
| PredictionsRoute.ResponseFor | ai_service/app/routes/predictions.py:61-68 | the reply carries the request's cuit, confidence 0.95, the timestamp and the number of features used |
| PredictionsRoute.ResponseWellFormed | ai_service/app/routes/predictions.py:61-68 | the reply's probability lies in [0, 1], its level is that of the probability or desconocido, and it reports 12 features used |
| PredictionsRoute.FeatureCount | ai_service/app/routes/predictions.py:54-55 | the popped dictionary has one entry per configured feature, twelve in all |
| PredictionsRoute.RequiredFeaturesDistinct | ai_service/config/settings.py:49-54 | the twelve configured feature names are pairwise different |
| PredictionsRoute.Predict | ai_service/app/routes/predictions.py:27-90 | the reply is the model's prediction of the request's features; without a trained model the level is never desconocido |
| PredictionsRoute.Succeeded | ai_service/app/routes/predictions.py:128-162 | the batch keeps at most one reply per company |
| PredictionsRoute.CountLevel | ai_service/app/routes/predictions.py:134-135 | a level's count never exceeds the replies |
| PredictionsRoute.BatchPredict | ai_service/app/routes/predictions.py:99-171 | the loop returns the replies whose level has a counter, with totals equal to their number and to each level's count |
| PredictionsRoute.SucceededStep | ai_service/app/routes/predictions.py:134-146 | one loop step appends the company's reply exactly when its level has a counter |
| PredictionsRoute.CountLevelStep | ai_service/app/routes/predictions.py:134-135 | appending a reply adds one to its own level's count only |
| PredictionsRoute.LevelsPartition | ai_service/app/routes/predictions.py:125-135 | when every level is alto, medio or bajo, the three counts add up to the replies |
| PredictionsRoute.BatchTotalsAddUp | ai_service/app/routes/predictions.py:138-171 | the high, medium and low totals add up to the total processed |
| PredictionsRoute.Replies | ai_service/app/routes/predictions.py:128-146 | one reply per company, in order, with its cuit |
| PredictionsRoute.MockKeepsEveryCompany | ai_service/app/routes/predictions.py:128-162 | without a trained model no company is dropped |
| PredictionsRoute.MockLevelCounted | ai_service/app/routes/predictions.py:134-135 | without a trained model every level has a counter |
| PredictionsRoute.UnknownLevelSkipped | ai_service/app/routes/predictions.py:134-162 | a desconocido reply never reaches the batch reply |
| PredictionsRoute.GetByRiskLevel | ai_service/app/routes/predictions.py:193-220 | a 400 error exactly for levels other than alto, medio and bajo; otherwise the reply echoes the level |
| Health.Contains | ai_service/app/routes/health.py:38 | true exactly when the needle occurs at some position of the string, as Python's `in` on strings |
| Health.ModelLoaded | ai_service/app/routes/health.py:38 | the model always counts as loaded, because the mock status contains "mock" |
| Health.DatabaseConnected | ai_service/app/routes/health.py:41-53 | checked only in production, where it is true exactly when a connection was obtained |
| Health.HealthCheck | ai_service/app/routes/health.py:20-74 | version 1.0.0 with the environment and time; healthy outside production; in production healthy exactly when connected and degraded otherwise |
| Health.NeverUnhealthy | ai_service/app/routes/health.py:56-62 | the status is never "unhealthy" |
| Health.ReadinessCheck | ai_service/app/routes/health.py:138-171 | ready exactly with a trained model and a connection; otherwise the details name both flags |
| Health.ReadyMeansHealthy | ai_service/app/routes/health.py:56-62 | ready implies healthy in production, and with a trained model healthy in production implies ready |
| Health.MockNeverReady | ai_service/app/routes/health.py:150-171 | the heuristic model is never ready |
| Health.AliveWhenNotReady | ai_service/app/routes/health.py:180-192 | without a database connection the production health check is degraded and the readiness probe not ready, while the liveness probe still reports alive |
| BigDecimals.OfInt | backend/src/main/java/com/pymer/churninsight/domain/entity/Company.java:201 | `new BigDecimal(n)` has scale 0 and value n |
| BigDecimals.CompareTo | backend/src/main/java/com/pymer/churninsight/application/service/CompanyService.java:185 | the sign of the comparison is that of the difference of the values, whatever the scales |
| BigDecimals.EqualsVersusCompareTo | backend/src/main/java/com/pymer/churninsight/domain/entity/Company.java:187 | equal decimals compare equal, but a zero at a positive scale compares equal to ZERO while not being `equals` to it |
| BigDecimals.RoundHalfUp | backend/src/main/java/com/pymer/churninsight/domain/entity/Company.java:190 | the result is within half a unit of the quotient, with ties away from zero |
| BigDecimals.RoundingUnique | backend/src/main/java/com/pymer/churninsight/domain/entity/Company.java:190 | that HALF_UP rounding is unique |
| BigDecimals.Divide | backend/src/main/java/com/pymer/churninsight/domain/entity/Company.java:190 | throws ArithmeticException exactly for a zero divisor at any scale; otherwise the quotient at the asked scale, rounded HALF_UP |
| BigDecimals.QuotientMeaning | backend/src/main/java/com/pymer/churninsight/domain/entity/Company.java:190 | the rounded pair stands for the exact quotient `a / b` times 10^scale |
| BigDecimals.DivideExact | backend/src/main/java/com/pymer/churninsight/domain/entity/Company.java:211-212 | an exact quotient is returned exactly |
| BigDecimals.Multiply | backend/src/main/java/com/pymer/churninsight/domain/entity/Company.java:200-201 | the product's value is the product of the values, at the sum of the scales |
| CompanyEntity.GuardedQuotientAsWritten | backend/src/main/java/com/pymer/churninsight/domain/entity/Company.java:187-190 | zero behind the `equals(ZERO)` guard; it throws exactly for a non-`equals` divisor that is zero-valued, or a null dividend |
| CompanyEntity.GuardedQuotient | backend/src/main/java/com/pymer/churninsight/domain/entity/Company.java:187-190 | zero for a null or zero-valued divisor; it throws only the NullPointerException of a null dividend; otherwise the HALF_UP quotient at scale 4 |
| CompanyEntity.GuardGap | backend/src/main/java/com/pymer/churninsight/domain/entity/Company.java:187 | the two guards differ exactly on a zero divisor at a positive scale, where the written one throws |
| CompanyEntity.GuardAgreesWhenNoThrow | backend/src/main/java/com/pymer/churninsight/domain/entity/Company.java:187-190 | wherever the written guard does not throw, it gives the intended value |
| CompanyEntity.DebtToEquityRatioAsWritten | backend/src/main/java/com/pymer/churninsight/domain/entity/Company.java:186-191 | throws exactly for non-`equals`-zero assets that are zero-valued or go with null debt; zero assets at a positive scale throw |
| CompanyEntity.ZeroAssetsThrow | backend/src/main/java/com/pymer/churninsight/domain/entity/Company.java:187-190 | assets of 0.00 make the written ratio throw ArithmeticException, while the intended one gives 0 |
| CompanyEntity.DebtToEquityRatio | backend/src/main/java/com/pymer/churninsight/domain/entity/Company.java:186-191 | 0 without assets; a NullPointerException exactly for null debt over non-zero assets; otherwise debt over assets to 4 places HALF_UP |
| CompanyEntity.OperatingMarginPercentAsWritten | backend/src/main/java/com/pymer/churninsight/domain/entity/Company.java:196-202 | throws exactly when the written guarded quotient does |
| CompanyEntity.ZeroRevenueThrows | backend/src/main/java/com/pymer/churninsight/domain/entity/Company.java:197-200 | revenue of 0.00 makes the written margin throw ArithmeticException, while the intended one gives 0 |
| CompanyEntity.OperatingMarginPercent | backend/src/main/java/com/pymer/churninsight/domain/entity/Company.java:196-202 | 0 without revenue; a NullPointerException exactly for a null margin; otherwise the 4-place quotient times 100 |
| CompanyEntity.LoanApprovalRate | backend/src/main/java/com/pymer/churninsight/domain/entity/Company.java:207-214 | 0 when nothing or null was requested; a NullPointerException exactly for null approvals; otherwise approvals over requests rounded HALF_UP to 4 places, times 100 |
| CompanyEntity.FullApprovalIsHundred | backend/src/main/java/com/pymer/churninsight/domain/entity/Company.java:211-213 | approving every requested loan gives exactly 100.0000 |
| CompanyEntity.LoanApprovalRateBounds | backend/src/main/java/com/pymer/churninsight/domain/entity/Company.java:211-213 | approvals between 0 and the requests give a rate in [0, 100] |
| CompanyEntity.CompanyAgeRange | backend/src/main/java/com/pymer/churninsight/domain/entity/Company.java:229-238 | UNKNOWN exactly without a founding year; otherwise STARTUP, YOUNG, ESTABLISHED or MATURE exactly for ages below 2, 2..4, 5..9 and from 10 |
| CompanyEntity.AgeRangeMonotone | backend/src/main/java/com/pymer/churninsight/domain/entity/Company.java:233-237 | an older company never falls in a younger range |
| CompanyEntity.AgeRangeOverTime | backend/src/main/java/com/pymer/churninsight/domain/entity/Company.java:233-237 | as years pass a company's range never gets younger |
| CompanyService.MapToDTO | backend/src/main/java/com/pymer/churninsight/application/service/CompanyService.java:250-278 | succeeds exactly when the three metrics do, and otherwise throws NullPointerException; copies every column and adds the age range's name and the three metrics |
| CompanyService.CompleteCompanyMaps | backend/src/main/java/com/pymer/churninsight/application/service/CompanyService.java:250-278 | a company with debt, margin and approvals present always maps |
| CompanyService.MapAll | backend/src/main/java/com/pymer/churninsight/application/service/CompanyService.java:61-78 | a list query succeeds exactly when every row maps, keeping length, order and each row's mapping |
| CompanyService.MapPage | backend/src/main/java/com/pymer/churninsight/application/service/CompanyService.java:83-112 | the page's rows are mapped as a list query, and the total is passed through |
| CompanyService.CountIsCardinality | backend/src/main/java/com/pymer/churninsight/application/service/CompanyService.java:158 | a stream count is the number of positions whose row passes the filter |
| CompanyService.CountComplement | backend/src/main/java/com/pymer/churninsight/application/service/CompanyService.java:158-167 | counts of complementary filters add up to the number of rows |
| CompanyService.ChurnStatisticsBySector | backend/src/main/java/com/pymer/churninsight/application/service/CompanyService.java:154-170 | a NullPointerException exactly when some row has no churn value; otherwise the total, churned ≤ total, active = total − churned, a churned count equal to the number of rows with churn 1, and a rate of churned over total times 100, within [0, 100] and 0 for an empty sector |
| CompanyService.ChurnedCountsRows | backend/src/main/java/com/pymer/churninsight/application/service/CompanyService.java:158 | the churned count is the number of rows with churn 1 |
| CompanyService.ActiveAreChurnZero | backend/src/main/java/com/pymer/churninsight/application/service/CompanyService.java:167 | when churn is always 0 or 1, the active count is the number of rows with churn 0 |
| CompanyService.IsHighRisk | backend/src/main/java/com/pymer/churninsight/application/service/CompanyService.java:182-192 | throws exactly when the debt ratio does; otherwise high risk exactly for a ratio above 0.30 and fewer than 30 known active days |
| CompanyService.ActivityVersusHighRisk | backend/src/main/java/com/pymer/churninsight/domain/entity/Company.java:219-224 | no recorded days means inactive and never high risk; a high-risk company is active exactly with 1..29 days |
| CompanyService.KeepExact | backend/src/main/java/com/pymer/churninsight/application/service/CompanyService.java:181-192 | a throwing filter throws exactly when some test throws, and otherwise keeps exactly the passing rows |
| CompanyService.KeepAppend | backend/src/main/java/com/pymer/churninsight/application/service/CompanyService.java:181-192 | filtering a concatenation filters each part and keeps them in order |
| CompanyService.HighRiskFilter | backend/src/main/java/com/pymer/churninsight/application/service/CompanyService.java:181-192 | throws exactly when some row's test throws; otherwise it keeps exactly the high-risk rows |
| CompanyService.HighRiskFilterAppend | backend/src/main/java/com/pymer/churninsight/application/service/CompanyService.java:181-192 | the high-risk rows of two batches are those of the first followed by those of the second |
| CompanyService.HighRiskCompanies | backend/src/main/java/com/pymer/churninsight/application/service/CompanyService.java:176-195 | the row-by-row stream throws only NullPointerException and keeps at most the input's rows |
| CompanyService.HighRiskIsFilterThenMap | backend/src/main/java/com/pymer/churninsight/application/service/CompanyService.java:181-194 | the row-by-row stream equals filtering every row first and then mapping the survivors |
| CompanyService.MapAllMembers | backend/src/main/java/com/pymer/churninsight/application/service/CompanyService.java:193-194 | a mapped list holds exactly the mappings of its rows |
| CompanyService.HighRiskCompaniesExact | backend/src/main/java/com/pymer/churninsight/application/service/CompanyService.java:176-195 | succeeds exactly when no test and no mapping of a high-risk row throws, and then holds exactly the mappings of the high-risk rows |
| CompanyService.LatestPeriodoFiscal | backend/src/main/java/com/pymer/churninsight/application/service/CompanyService.java:236-240 | the repository's latest period, or "2024-Q4" when it has none |
| CompanyService.FindById | backend/src/main/java/com/pymer/churninsight/application/service/CompanyService.java:50 | the found row is in the table with that CUIT, and it is the first such row; none is found exactly when no row has it |
| CompanyService.CompanyByCuit | backend/src/main/java/com/pymer/churninsight/application/service/CompanyService.java:47-56 | a RuntimeException "Empresa no encontrada: " + cuit exactly when no row has the CUIT; otherwise the mapping of the first row with it, which can fail only with a NullPointerException |
| ChurnChart.MediumShare | frontend/src/app/shared/charts/churn-distribution-chart/churn-distribution-chart.component.ts:54 | floor(low * 0.4) is at most low and is exactly two fifths of low, rounded down |
| ChurnChart.Distribution | frontend/src/app/shared/charts/churn-distribution-chart/churn-distribution-chart.component.ts:51-58 | the chart shows three values |
| ChurnChart.DistributionCovers | frontend/src/app/shared/charts/churn-distribution-chart/churn-distribution-chart.component.ts:51-58 | the three values are non-negative and add up to the records; high is the churned count, low + medium the rest, medium two fifths of it |
| ChurnChart.ChurnDistributionChart.constructor | frontend/src/app/shared/charts/churn-distribution-chart/churn-distribution-chart.component.ts:14-32 | no records, the three labels and the zero dataset |
| ChurnChart.ChurnDistributionChart.UpdateChartData | frontend/src/app/shared/charts/churn-distribution-chart/churn-distribution-chart.component.ts:50-59 | only the first dataset's values change, to the distribution of the records |
| ChurnChart.ChurnDistributionChart.OnChanges | frontend/src/app/shared/charts/churn-distribution-chart/churn-distribution-chart.component.ts:44-48 | recomputes exactly when the input is among the changes and is bound, and leaves the chart alone otherwise |
| Dashboard.TotalCompanies | frontend/src/app/features/dashboard/dashboard.component.ts:18 | the number of companies, which is the churned count plus the non-churned count |
| Dashboard.TallyCountsChurned | frontend/src/app/features/dashboard/dashboard.component.ts:22-24 | the reduction adds one per churned company to its start |
| Dashboard.AvgChurnProbability | frontend/src/app/features/dashboard/dashboard.component.ts:20-26 | 0 without companies, and always within [0, 100] |
| Dashboard.HighRiskCompanies | frontend/src/app/features/dashboard/dashboard.component.ts:28-30 | the number of positions holding a churned company; never more than the total, and positive when some company churned |
| Dashboard.AverageIsHighRiskShare | frontend/src/app/features/dashboard/dashboard.component.ts:20-30 | with companies present, the percentage is the high-risk count over the total, times 100 |
| Dashboard.AverageExtremes | frontend/src/app/features/dashboard/dashboard.component.ts:20-30 | the percentage is 100 exactly when all churned and 0 exactly when none did |

## Left out

- The trained scikit-learn model, its scaler and `predict_proba` are not modelled. The model's output for a request is a parameter (`ModelOutcome`: a probability, or a raise).
- The database inserts after a prediction and the HTTP 500 paths of `predict` and `batch_predict` in predictions.py depend on I/O and are not modelled. The batch's per-company `except` is modelled as the company being skipped.
- `root_health` in health.py only echoes constants and is not modelled.
- `Math.random`, `datetime.utcnow`, `new Date()` and `LocalDate.now()` are parameters: draws, timestamps, the current date and the current year.
- The 1.5-second delay and the observable pipeline of `predict` in prediction.service.ts are not modelled; the reply is returned directly.
- PredictionForm.PredictionFormComponent.SubmitPrediction: the subscription is split into `OnPredictionResponse` and `OnPredictionError`, which the caller runs when the reply arrives. The surrounding `try`/`catch` is not modelled, because building the request cannot throw once the form is valid.
- Angular's form value for an unset checkbox is modelled as false; the template bindings are not modelled.
- The messages are a datatype carrying the validator's bound. Their texts are written out by `MessageText`.
- Floating-point rounding is not modelled: scores, ratios and percentages are reals. IEEE sums such as 0.3 + 0.15 may land a last bit off a threshold where the reals do not.
- BigDecimals.Decimal: negative scales are not modelled, because no value in the core has one.
- CompanyEntity.CompanyAgeRange: the age is an unbounded integer. Java's `int` overflow for absurd founding years is not modelled.
- CompanyEntity.Company: columns that no core operation reads (audit timestamps, engagement and service columns other than the active days) are not modelled.
- The repository queries (`findBySector`, `findByPeriodoFiscal`, `findByChurn`, `countBySector`, `findAllSectors` and the like) are not modelled; their results are inputs. `getAllSectors`, `getAllProvincias`, `countCompaniesBySector` and `countCompaniesByChurn` only pass a repository result through.
- CompanyService.MapToDTO, CompanyService.IsHighRisk, CompanyService.HighRiskCompanies and the queries that use them call the corrected metrics (see Findings). So every exception they raise is a NullPointerException. A row with assets of 0.00 gives `Ok(false)` in the high-risk test, where the code as written throws ArithmeticException.
- PredictionsRoute.BatchPredict: every reply of a batch carries the same timestamp `now`, while the code reads the clock once per reply.
- The chart's template, options and the browser-platform check are not modelled beyond the `isBrowser` field.

## Findings

| source | as written | input that shows it | evidently intended | confidence | as-written member | corrected member |
|---|---|---|---|---|---|---|
| backend/src/main/java/com/pymer/churninsight/domain/entity/Company.java:187-190 | the guard `activos.equals(BigDecimal.ZERO)` compares scale as well as value, so assets of 0.00 pass it and `deuda.divide(activos, …)` throws ArithmeticException | `activos` = 0.00 (unscaled 0, scale 2), any non-null `deuda` | return zero for assets of value zero at any scale, e.g. by testing `signum() == 0` or `compareTo(ZERO) == 0` | not executed; it needs the zero to arrive at a positive scale, as a NUMBER(p,2) column gives | CompanyEntity.DebtToEquityRatioAsWritten, CompanyEntity.ZeroAssetsThrow | CompanyEntity.DebtToEquityRatio, CompanyEntity.GuardGap |
| backend/src/main/java/com/pymer/churninsight/domain/entity/Company.java:197-201 | the same scale-sensitive guard on `ingresos` lets revenue of 0.00 reach `margen.divide(ingresos, …)`, which throws | `ingresos` = 0.00 (unscaled 0, scale 2), any non-null `margen` | return zero for revenue of value zero at any scale | not executed; it needs the zero to arrive at a positive scale | CompanyEntity.OperatingMarginPercentAsWritten, CompanyEntity.ZeroRevenueThrows | CompanyEntity.OperatingMarginPercent, CompanyEntity.GuardGap |
