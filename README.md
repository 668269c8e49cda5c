# Pre-delinquency risk dashboard: a verified model

This project is a Dafny model of the decision logic of a credit-risk dashboard. The dashboard has two parts:

- a React front end that lists customers, shows a risk gauge, recommends interventions and lets an analyst run a manual assessment;
- a FastAPI service that scores customers with a trained model and keeps an in-memory customer table.

The model covers these parts:

- the intervention policy table;
- the score bands used by the gauge, the list page and the service;
- trend normalisation;
- the customer list's filter and stable sort;
- the string and route helpers;
- customer lookup and initials;
- the manual-assessment form as a state machine;
- the service's banding, fallback, feature encoding, derived fields, table lookup and insert, and bucket counts.

The trained model, `parseFloat`, `localeCompare` and the network are parameters:

- `Backend.Scorer` gives a score, or `None` when the prediction raises.
- `parse` stands for `parseFloat`, with `None` for NaN.
- `collate` stands for `localeCompare`, with `CustomersPage.IsCollation` saying it is total and transitive.
- `server` and `Outcome` stand for the HTTP exchange.

Modules:

- `Text`: the string helpers. These are `includes`/`in`, `split`/`join`, ASCII case mapping, Python's `replace(sub, "")` and the decimal rendering of a number.
- `Sorting`: `filter` and a stable sort. `Array.prototype.sort` has had to be stable since ECMAScript 2019, and any two stable sorts by the same order give the same result, so an insertion sort stands in for it.
- `MockData`, `TrendIndicator`, `RiskScore`, `InterventionPanel`, `Root`, `CustomersPage` and `CustomerDetail`: the front-end files of the same names.
- `ManualAssessment`: the manual assessment page. The page's state is the class `ManualAssessment.Assessment`.
- `Backend`: the service. The customer table is the class `Backend.CustomerDb`.
- `Integration`: lemmas relating the service's answers to the pages that show them.

## Model

| member | source | states |
|---|---|---|
| MockData.ScoreBucket | frontend/src/app/data/mockData.ts:207-231 | a score of 0.7 or more is High, from 0.4 below 0.7 is Medium, below 0.4 Low; each cut-point belongs to the higher band (iff in each case) |
| MockData.InterventionRecommendations | frontend/src/app/data/mockData.ts:206-259 | the exact ordered (type, priority, approval) list per band: outreach/high/no, holiday/high/yes, restructure/medium/yes from 0.7; reminder/medium then counseling/low, neither approved, from 0.4; one low reminder below |
| MockData.RecommendationCount | frontend/src/app/data/mockData.ts:206-259 | 3, 2 or 1 recommendations by band, never empty, and never fewer for a higher score |
| MockData.RecommendationsDependOnScoreOnly | frontend/src/app/data/mockData.ts:206-259 | two customers with the same score get the same list |
| MockData.ApprovalOnlyInHighBand | frontend/src/app/data/mockData.ts:206-259 | a recommendation requires approval iff the score is at least 0.7 and it is the payment holiday or the restructure |
| MockData.CustomerTimeline | frontend/src/app/data/mockData.ts:178-204 | C001 has 10 events, C002 has 7, every other id none |
| MockData.MockCustomersConsistent | frontend/src/app/data/mockData.ts:41-170 | every mock customer's stored bucket is the band of its score, and its utilisation is balance over limit to within 0.01 |
| MockData.MockIdsDistinct | frontend/src/app/data/mockData.ts:41-170 | the mock customer ids are pairwise distinct |
| MockData.DistributionMatchesPortfolio | frontend/src/app/data/mockData.ts:172-176 | the bucket counts add up to 2000, the portfolio's total accounts (lines 261-263); the percentages add up to 100 and each is its count over the total; Medium plus High is the at-risk count 750 |
| TrendIndicator.SafeTrend | frontend/src/app/components/TrendIndicator.tsx:37-40 | the result is always one of improving/stable/worsening; a known trend maps to itself, anything else to "stable" |
| TrendIndicator.SafeTrendIdempotent | frontend/src/app/components/TrendIndicator.tsx:37-42 | normalising twice is normalising once |
| TrendIndicator.Config | frontend/src/app/components/TrendIndicator.tsx:15-34 | improving is "Improving"/TrendingDown, worsening is "Worsening"/TrendingUp, stable is "Stable"/Minus |
| TrendIndicator.ConfigInjective | frontend/src/app/components/TrendIndicator.tsx:15-34 | the three trends have different labels and different icons |
| TrendIndicator.IconSize | frontend/src/app/components/TrendIndicator.tsx:43 | the icon is 16 pixels iff the size is small, otherwise 20 |
| TrendIndicator.Render | frontend/src/app/components/TrendIndicator.tsx:42-48 | the style is the normalised trend's; an unknown trend is drawn as Stable/Minus; the label is shown iff asked for |
| RiskScore.Color | frontend/src/app/components/RiskScore.tsx:8-12 | red iff the score is at least 0.7, amber iff from 0.4 below 0.7, blue iff below 0.4 |
| RiskScore.BgColor | frontend/src/app/components/RiskScore.tsx:14-18 | the tints, on the same bands as the colour (iff in each case) |
| RiskScore.ColorsFollowRecommendationBand | frontend/src/app/components/RiskScore.tsx:8-18 | colour and tint always name the same band, and that band is the policy table's: red iff three recommendations, amber iff two, blue iff one |
| RiskScore.ColorMonotone | frontend/src/app/components/RiskScore.tsx:9-11 | a higher score never gets a less severe colour |
| RiskScore.Radius | frontend/src/app/components/RiskScore.tsx:20-27 | twice the radius is the container minus the stroke, and the radius is positive |
| RiskScore.RadiusValues | frontend/src/app/components/RiskScore.tsx:20-27 | the radii are 27, 46 and 65 for small, medium and large |
| InterventionPanel.IconFor | frontend/src/app/components/InterventionPanel.tsx:14-23 | FileText iff credit_counseling or restructure; AlertCircle iff none of the five known types |
| InterventionPanel.KnownTypesHaveIcons | frontend/src/app/components/InterventionPanel.tsx:14-23 | no type of the policy table falls back to AlertCircle |
| InterventionPanel.PriorityColor | frontend/src/app/components/InterventionPanel.tsx:25-32 | red, amber and blue classes for high, medium and low, slate for anything else |
| InterventionPanel.FormatIsTitleCase | frontend/src/app/components/InterventionPanel.tsx:34-36 | split on '_', capitalise, join with ' ' equals a character-by-character title-casing of the input |
| InterventionPanel.FormatShape | frontend/src/app/components/InterventionPanel.tsx:35 | the length is kept and no '_' remains; position i is a space where the input has '_', upper-cased at the start of each word, unchanged elsewhere |
| InterventionPanel.FormatExample | frontend/src/app/components/InterventionPanel.tsx:34-36 | "proactive_outreach" becomes "Proactive Outreach" |
| InterventionPanel.Cards | frontend/src/app/components/InterventionPanel.tsx:46-62 | one card per recommendation, in order; the badge is the priority in capitals; the button is "Submit for Approval" iff approval is required |
| InterventionPanel.BadgeValues | frontend/src/app/components/InterventionPanel.tsx:62 | the badges read LOW, MEDIUM and HIGH |
| InterventionPanel.Press | frontend/src/app/components/InterventionPanel.tsx:74-96 | a press reaches onApprove only for a recommendation that requires approval and onExecute only for one that does not, and does nothing when that callback is absent |
| InterventionPanel.ApprovalGated | frontend/src/app/components/InterventionPanel.tsx:74-96 | on any customer's panel, a press executes a recommendation iff it is not a high-band holiday or restructure |
| Root.IsActive | frontend/src/app/pages/Root.tsx:12-17 | "/" is active iff the path is exactly "/"; any other link is active iff it is a prefix of the path |
| Root.ActiveOnOwnPath | frontend/src/app/pages/Root.tsx:12-17 | every link is active on its own path |
| Root.ActiveOnExtensions | frontend/src/app/pages/Root.tsx:16 | a non-root link stays active on any extension of a path it is active on |
| Root.PrefixMatchIsLoose | frontend/src/app/pages/Root.tsx:16 | "/manual-assessmentX" activates the "/manual-assessment" link |
| Root.NavigationExclusive | frontend/src/app/pages/Root.tsx:7-17 | the two navigation links are never active together |
| Sorting.Keep | frontend/src/app/pages/Customers.tsx:17-22 | `filter`: the result is no longer than the input |
| Sorting.KeepMembers | frontend/src/app/pages/Customers.tsx:17-22 | `filter` keeps exactly the elements of the input that pass the predicate |
| Sorting.Sort | frontend/src/app/pages/Customers.tsx:23-28 | the sort is a permutation of its input |
| Sorting.SortSorted | frontend/src/app/pages/Customers.tsx:23-28 | under a total preorder the sort's output is ordered |
| Sorting.SortStable | frontend/src/app/pages/Customers.tsx:23-28 | elements that tie keep their input order |
| Sorting.FilterSortIdempotent | frontend/src/app/pages/Customers.tsx:16-28 | filtering and sorting an already filtered and sorted list changes nothing |
| CustomersPage.OrderIsTotalPreorder | frontend/src/app/pages/Customers.tsx:23-28 | each of the three comparators is a total preorder when the collation is |
| CustomersPage.FilteredMembership | frontend/src/app/pages/Customers.tsx:16-28 | a customer appears as often as in the input iff its lower-cased name contains the lower-cased search or its account number contains the search, and its bucket passes the filter; otherwise not at all; the list is never longer than the input |
| CustomersPage.EmptySearchShowsAll | frontend/src/app/pages/Customers.tsx:18-20 | an empty search under All shows every customer |
| CustomersPage.FilteredIsOrdered | frontend/src/app/pages/Customers.tsx:23-28 | risk order is by non-increasing score, name order ascending under the collation, utilisation order by non-increasing utilisation |
| CustomersPage.FilteredIsStable | frontend/src/app/pages/Customers.tsx:23-28 | customers that tie keep their input order |
| CustomersPage.FilteredIdempotent | frontend/src/app/pages/Customers.tsx:16-28 | applying the same search, filter and sort to the shown list gives it back |
| CustomersPage.RowColorsMatchGauge | frontend/src/app/pages/Customers.tsx:109-120 | a row whose bucket agrees with its score has the border and disc colours of the gauge |
| CustomersPage.UtilizationColor | frontend/src/app/pages/Customers.tsx:155-156 | red iff at least 0.8, amber iff from 0.5 below 0.8, blue iff below 0.5 |
| Text.Contains | frontend/src/app/pages/Customers.tsx:18-19 | `includes` holds iff the substring occurs at some position |
| Text.JoinSplit | frontend/src/app/components/InterventionPanel.tsx:35 | joining the pieces of a split with the same separator gives the input back |
| Text.SplitCount | frontend/src/app/pages/CustomerDetail.tsx:67 | a split has one more piece than there are separators |
| Text.NatToStringRoundTrip | frontend/src/app/pages/ManualRiskAssessment.tsx:78 | the rendered digits of a status read back as the status |
| Text.RemoveTrailing | backend/backend.py:350 | removing " RISK" from a word followed by " RISK" leaves the word |
| CustomerDetail.Find | frontend/src/app/pages/CustomerDetail.tsx:15 | none iff no customer has the id; otherwise the first customer with that id |
| CustomerDetail.InitialsOfNonEmptyWords | frontend/src/app/pages/CustomerDetail.tsx:67 | the initials are the first characters of the non-empty words in order, one per word, so repeated spaces add nothing |
| CustomerDetail.InitialsExample | frontend/src/app/pages/CustomerDetail.tsx:67 | "Sarah Mitchell" gives "SM" |
| CustomerDetail.RiskFactors | frontend/src/app/pages/CustomerDetail.tsx:32-37 | four factors in the order Payment Delays, Utilization Rate, Payment Coverage, Days Since Payment |
| CustomerDetail.View | frontend/src/app/pages/CustomerDetail.tsx:15-29 | not found iff the lookup fails; otherwise the first matching customer with its timeline and one to three cards of its recommendations |
| CustomerDetail.MockPagesFound | frontend/src/app/pages/CustomerDetail.tsx:15-28 | every mock id has a page, and C001's shows 10 events |
| ManualAssessment.FieldCount | frontend/src/app/pages/ManualRiskAssessment.tsx:13-37 | the form has exactly 23 distinct fields |
| ManualAssessment.Assessment.constructor | frontend/src/app/pages/ManualRiskAssessment.tsx:13-42 | every field starts empty; no result, no error, not loading, collapsed |
| ManualAssessment.Assessment.HandleChange | frontend/src/app/pages/ManualRiskAssessment.tsx:44-50 | only the edited field changes and the error is cleared |
| ManualAssessment.DemoCoversAllFields | frontend/src/app/pages/ManualRiskAssessment.tsx:101-181 | each of the three presets sets all 23 fields |
| ManualAssessment.Assessment.LoadDemo | frontend/src/app/pages/ManualRiskAssessment.tsx:98-187 | the preset is merged over the form, so the form becomes the preset; nothing else changes |
| ManualAssessment.Assessment.Clear | frontend/src/app/pages/ManualRiskAssessment.tsx:317-321 | every field is emptied, result and error are dropped, loading is untouched |
| ManualAssessment.Assessment.ToggleFields | frontend/src/app/pages/ManualRiskAssessment.tsx:258 | the expanded flag flips and nothing else changes |
| ManualAssessment.VisibleFields | frontend/src/app/pages/ManualRiskAssessment.tsx:266-300 | the five basic fields are always shown, all 23 once expanded or at 640 pixels and wider |
| ManualAssessment.Assessment.BuildPayload | frontend/src/app/pages/ManualRiskAssessment.tsx:52-61 | the payload has exactly the form's keys, each mapped to its parsed number or 0 |
| ManualAssessment.BlankPayloadIsZero | frontend/src/app/pages/ManualRiskAssessment.tsx:55-57 | a cleared form is sent as all zeros |
| ManualAssessment.Message | frontend/src/app/pages/ManualRiskAssessment.tsx:90 | the shown message is never empty; it is the thrown one, or the fallback when that was empty |
| ManualAssessment.Settle | frontend/src/app/pages/ManualRiskAssessment.tsx:68-93 | a prediction iff the status is 2xx and the JSON has no error; a non-2xx status gives "Server responded with" and the status; an error field gives its text; a failure message is never empty |
| ManualAssessment.StatusRecoverable | frontend/src/app/pages/ManualRiskAssessment.tsx:77-79 | the status can be read back from a failure message |
| ManualAssessment.Assessment.StartPredict | frontend/src/app/pages/ManualRiskAssessment.tsx:63-66 | entering a request sets loading and clears result and error; the button is disabled while loading |
| ManualAssessment.Assessment.Finish | frontend/src/app/pages/ManualRiskAssessment.tsx:77-93 | afterwards loading is off and exactly one of result and a non-empty error is set, as the outcome settles |
| ManualAssessment.Assessment.Predict | frontend/src/app/pages/ManualRiskAssessment.tsx:63-94 | the server's answer to the current form's payload is settled into result or error; the form is unchanged |
| ManualAssessment.RiskStyle | frontend/src/app/pages/ManualRiskAssessment.tsx:189-194 | "" iff no result; emerald iff the level mentions LOW; amber iff MEDIUM but not LOW; rose otherwise |
| ManualAssessment.LevelIcons | frontend/src/app/pages/ManualRiskAssessment.tsx:344-346 | one heading icon for each of LOW, MEDIUM and HIGH the level mentions |
| Backend.Band | backend/backend.py:302-313 | LOW RISK iff the score is below 0.3, MEDIUM RISK iff from 0.3 below 0.7, HIGH RISK iff 0.7 or more, each with its own action and reason |
| Backend.BandMonotone | backend/backend.py:302-313 | the band never falls as the score rises |
| Backend.ComputePrediction | backend/backend.py:259-315 | fails iff the model fails; otherwise the model's score, banded |
| Backend.PredictCustomerRisk | backend/backend.py:318-334 | never fails: a failed prediction becomes (0.5, MEDIUM RISK, "Review required", "Prediction failed, using default"); the level is always one of the three |
| Backend.FallbackInMediumBand | backend/backend.py:334 | the fallback's score is in the band its level names, but its action is not that band's |
| Backend.OneHot | backend/backend.py:284-290 | position i is 1 iff the value is i + 1 |
| Backend.OneHotSum | backend/backend.py:286-290 | exactly one indicator is set for a value in range, none outside it |
| Backend.Engineer | backend/backend.py:273-290 | mean delay is the pay sum over 6, delay trend is pay_6 minus pay_0, sex_2 is 1 iff sex is 2, exactly one education column for 1-6 and one marriage column for 1-3 |
| Backend.TruncDiv | backend/backend.py:355 | `int(a / d)` truncates toward zero: the remainder has the sign of a and is smaller than d |
| Backend.Trend | backend/backend.py:358 | "down" iff below 0.4, "up" iff above 0.6, "stable" iff in between |
| Backend.Utilization | backend/backend.py:341 | the last bill over the limit when the limit is positive, 0 otherwise |
| Backend.Flags | backend/backend.py:342-359 | one "Late payment history" flag iff the mean delay exceeds 1 |
| Backend.BucketNames | backend/backend.py:350 | removing " RISK" leaves LOW, MEDIUM and HIGH |
| Backend.Enrich | backend/backend.py:336-362 | keeps the identity; the score, level, action and reason are the prediction's; the bucket is the level without " RISK"; utilisation, truncated mean delay, trend and flags as derived |
| Backend.Predict | backend/backend.py:429-456 | 503 "Model not loaded" before the model is loaded; 500 with the exception's text when the prediction raises; otherwise 200 with the banded prediction |
| Backend.ClassifyAgreesWithBucketName | backend/backend.py:532-537 | on every predicted level, the dashboard's substring test and the summary's " RISK" removal name the same band |
| Backend.CountsPartition | backend/backend.py:527-545 | every customer is counted under exactly one band |
| Backend.MaxId | backend/backend.py:414 | the largest id is some record's id and no record's id exceeds it |
| Backend.AppendLargerId | backend/backend.py:414-420 | a record numbered one above the largest id is above every existing id, and appending it keeps the ids distinct |
| Backend.CustomerDb.constructor | backend/backend.py:62-203 | the table starts as the five seed records, with distinct ids |
| Backend.CustomerDb.GetCustomers | backend/backend.py:388-399 | every record enriched, in table order |
| Backend.CustomerDb.GetCustomer | backend/backend.py:401-409 | 404 "Customer not found" iff no record has the id; otherwise 200 with the first such record, enriched |
| Backend.CustomerDb.AddCustomer | backend/backend.py:411-426 | on an empty table an error and nothing added; otherwise exactly one record appended with id one above the largest, so above every existing id; ids stay distinct |
| Backend.CustomerDb.DashboardMetrics | backend/backend.py:503-599 | zeros and no rows on an empty table; otherwise counts per band that add up to the total, at-risk is medium plus high, savings 1500 per at-risk account |
| Backend.CustomerDb.RiskSummary | backend/backend.py:602-621 | 404 "No customers" on an empty table; otherwise counts under LOW, MEDIUM and HIGH that equal the dashboard's and add up to the number of records |
| Backend.SeedIds | backend/backend.py:62-203 | the seed ids are 1 to 5, so the first insert gets 6 |
| Backend.SeedDerived | backend/backend.py:62-203 | only seed customers 3 and 5 are flagged; customer 4's mean delay of -0.5 truncates to 0; customer 5's utilisation is 1 |
| Integration.BandsDisagree | backend/backend.py:302-313 | the service's band and the pages' band (cut at 0.4) differ iff the score is from 0.3 below 0.4, where the service says medium and the pages low |
| Integration.DisagreementAt035 | backend/backend.py:302-306 | at 0.35 the service says medium and the pages say low |
| Integration.ServiceTrendsShowStable | backend/backend.py:358 | the trend indicator shows every trend the service emits as stable |
| Integration.ToOutcome | backend/backend.py:442-456 | the page receives the service's status, an empty error field with the prediction on success, and the error text on failure |
| Integration.BannerFollowsServiceBand | frontend/src/app/pages/ManualRiskAssessment.tsx:189-194 | for a service prediction the banner is emerald iff below 0.3, amber iff from 0.3 below 0.7, rose iff 0.7 or more, with exactly one heading icon |
| Integration.PredictRoundTrip | frontend/src/app/pages/ManualRiskAssessment.tsx:77-90 | a scored request shows the banded prediction; an unloaded model shows "Server responded with 503" and a failed prediction "Server responded with 500", never the service's error text |

## Left out

- The trained model is a parameter (`Backend.Scorer`). This covers `joblib.load`, `predict_proba`, the pandas plumbing and the floating-point feature ratios (bill growth, average utilisation, cover ratio, cash flow). It is a foreign library working in floating point.
- The batch endpoint `predict_csv` is not modelled: it is file I/O around the same banding.
- FastAPI routing, CORS, the root and health endpoints, and logging are not modelled: they are I/O.
- `daysSinceLastPayment` and `paymentCoverageRatio` from `random` are not modelled: they are nondeterministic.
- Backend.Enrich: returns the score and utilisation before `round(x, 2)`, since decimal rounding of binary floats is not modelled.
- Backend.CustomerDb.DashboardMetrics: leaves out the percentages, the trend history, `interventionsActive`, `preventedDefaults30d` and the effectiveness table. These are floating-point estimates (`round`, `int(at_risk * 0.35)` and similar).
- Backend.CustomerDb.RiskSummary: leaves out the rounded average score and the timestamp, which come from floating point and the clock.
- Backend.CustomerDb.AddCustomer: on an empty table, `max` raises and the framework answers with its generic 500, modelled as the text "Internal Server Error".
- The SVG circumference and offset of the gauge are not modelled (they use `Math.PI`), and neither are `toFixed` and `toLocaleString`.
- Text.ToLower, Text.ToUpper: map ASCII letters only. JavaScript's full Unicode case mapping is not modelled.
- `parseFloat` and `localeCompare` are abstract parameters; their internals are not modelled.
- MockData.CustomerTimeline: returns no events for any id but C001 and C002. In JavaScript an id such as "constructor" reaches an inherited property of the lookup object and returns a non-array.
- ManualAssessment.Assessment.HandleChange: requires the name to be a form field, since inputs exist only for the form's fields.
- ManualAssessment.Settle: a JSON body always carries a prediction here. An answer with an empty `error` and no prediction fields would be shown as a result with missing fields.
- ManualAssessment.Assessment.Predict: assumes no other event between sending the request and its answer. The two halves are also available separately as StartPredict and Finish.
- `riskTrendData`, `interventionEffectiveness` and the chart-only fields of `portfolioMetrics` are not modelled: they are chart data with nothing to state.
- The Dashboard and Architecture pages, the routes, RiskBadge, useRiskPrediction and the API clients are not modelled. They are fetches, charts, static content or a three-entry style lookup.
- JSX layout, the chart library and the toasts on the detail page are not modelled: they are presentation.
- The front end bands scores at 0.4 and 0.7 while the service bands them at 0.3 and 0.7. Both are modelled as written, and Integration.BandsDisagree states where they differ.
