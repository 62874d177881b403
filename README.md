# A verified model of the nutrition and analytics core of a Telegram mini-app

The repository is a Russian-language web mini-app with several sections. This
model covers:

- the BMI and nutrition calculator, which ships as a stand-alone app and again
  inside the multi-app shell;
- the blood-test analyser and its call to the Gemini proxy;
- the visit analytics, from the browser side and from the Google Apps Script
  endpoint that writes them to a sheet;
- the image cache.

The centre of the model is the diet-settings updater
(`handleDietSettingsChange`). It keeps protein, carbohydrate and fat
percentages that sum to 100, with each at least 5 %, while one slider moves.
`MacroSplit.Rebalance` defines it on integers, with exact rounding. The two
copies of the updater, `ImtApp.HandleDietSettingsChange` and
`BmiCalculatorApp.HandleDietSettingsChange`, follow the source line by line.
They use real-valued shares and `Math.round`, and each is proved equal to
`Rebalance` on every input. The properties of the updater are proved once,
about `Rebalance`:

- the sum is 100;
- the 5 % floor holds whenever it held before;
- the moved value is clamped into the slider range;
- carb and fat keep their old ratio up to rounding;
- an edit that changes nothing returns the previous object;
- the final "largest field absorbs the remainder" correction never changes
  anything (the ghost `nudged` result is always false).

The same pattern recurs elsewhere:

- the Apps Script `doPost` is a `Spreadsheet` class whose method is proved
  equal to the pure `AppsScript.Post`;
- the image cache is an `ImageCache` class proved equal to a pure `Loader`
  state machine;
- the lab-analysis page is a `LabAnalysisPage` class proved equal to a pure
  state-transition function;
- `analyzeBloodTest` is a method proved equal to `GeminiService.Analyze`.

Modules and files:

| module | file | models |
|---|---|---|
| `Wrappers` | wrappers.dfy | `Option`, `Result` |
| `Text` | text.dfy | the JavaScript string operations the core uses (`indexOf`, `substring`, `split`, `padStart`, `trim`, `toLowerCase`, `includes`, number to string) |
| `Constants` | constants.dfy | IMT/constants.ts |
| `MacroSplit` | macro_split.dfy | the reference definition of the diet-settings updater and its properties |
| `Metrics` | metrics.dfy | validation ranges, BMI, BMR (Mifflin–St Jeor), TDEE, the target-calorie effect |
| `ImtApp` | imt_app.dfy | IMT/App.tsx |
| `BmiCalculatorApp` | bmi_calculator_app.dfy | src/apps/BMICalculatorApp.tsx, whose logic repeats IMT/App.tsx |
| `Planner` | planner.dfy | both NutritionPlanner.tsx files; src/apps/bmi-calculator/components/NutritionPlanner.tsx lines 32-79 repeat IMT/components/NutritionPlanner.tsx lines 41-89 apart from colours |
| `AppsScript` | apps_script.dfy | google-apps-script.js `doPost` |
| `Uri` | uri.dfy | `decodeURIComponent` (ECMA-262, section 19.2.6.5) |
| `Analytics` | analytics.dfy | src/utils/analytics.ts |
| `ImageLoader` | image_loader.dfy | src/utils/imageLoader.ts |
| `GeminiService` | gemini_service.dfy | src/apps/lab-analysis/services/geminiService.ts `analyzeBloodTest` |
| `LabAnalysisApp` | lab_analysis_app.dfy | src/apps/LabAnalysisApp.tsx |

Inputs from the outside world are parameters:

- text fields arrive already parsed (`None` stands for `NaN`);
- the page URL's query arrives as a list of already-decoded pairs;
- the clock reading is a `DateTime`;
- the outcome of `fetch` is a `Transport` value;
- the `FileReader` result is a `FileRead` value;
- an image's load, error and timeout events are method calls.

## Model

| member | source | states |
|---|---|---|
| Constants.MultipliersIncrease | IMT/constants.ts:3-9 | a higher activity level has a strictly higher TDEE multiplier, and conversely |
| Constants.BmiCategoriesContiguous | IMT/constants.ts:24-32 | the BMI category table starts at 0 and each band's upper bound is the next band's lower bound |
| Constants.ContiguousMinsIncrease | IMT/constants.ts:24-32 | in a contiguous table, every earlier band ends at or below every later band's lower bound |
| Constants.CategoryUnique | IMT/constants.ts:24-32 | a value falls in at most one band of a contiguous table |
| Constants.CategoryExists | IMT/constants.ts:24-32 | every value at or above the first lower bound falls in some band |
| Constants.BmiCategoriesPartition | IMT/constants.ts:24-32 | a BMI has a category if and only if it is non-negative, and that category is unique |
| Constants.CaloriesPerGram | IMT/constants.ts:34-38 | 4 kcal per gram for protein and carbohydrate, 9 for fat, all positive |
| Constants.InitialSplitValid | IMT/constants.ts:40-43 | the initial 30/40/30 split sums to 100 and respects the 5 % floor, which three macros can meet together |
| Constants.GoalOptionsExcludeCustom | IMT/constants.ts:48-52 | the goal buttons offer exactly loss, maintenance and gain |
| MacroSplit.Clamp | IMT/App.tsx:302 | the `Math.max(lo, Math.min(v, hi))` clamp lies in [lo, hi] and leaves in-range values alone |
| MacroSplit.Round | IMT/App.tsx:340-341 | `Math.round` lands within one half of its argument |
| MacroSplit.RoundDiv | IMT/App.tsx:320 | rounding n/d half up on integers: 2dr <= 2n + d < 2d(r + 1) |
| MacroSplit.RoundOfQuotient | IMT/App.tsx:311-320 | `Math.round` of a quotient of integers equals the integer `RoundDiv` |
| MacroSplit.ScaledQuotient | IMT/App.tsx:359-361 | the real-valued floor tests and the rounding on `remaining * c_ratio` agree with their integer forms |
| MacroSplit.ShareMatches | IMT/App.tsx:306-322 | the real-valued tests on `remaining * c_share` agree with the integer `CarbTarget`, in both the ratio and the one-half cases |
| MacroSplit.CarbTarget | IMT/App.tsx:306-311 | the carb target as a fraction with a positive denominator |
| MacroSplit.SumIs100 | IMT/App.tsx:272-388 | after any percentage edit the three shares sum to 100 |
| MacroSplit.ProteinEditCarbInRange | IMT/App.tsx:301-323 | after a protein edit, carb and fat are both at least 5 |
| MacroSplit.ProteinEditAlwaysValid | IMT/App.tsx:301-377 | a protein edit always yields a valid split, even from an invalid previous one |
| MacroSplit.FloorKept | IMT/App.tsx:272-388 | from a valid split, every update yields a valid split (sum 100, each share at least 5) |
| MacroSplit.ProteinEditClamp | IMT/App.tsx:302 | a protein edit stores the value clamped to [5, 90] and leaves the calorie target unchanged |
| MacroSplit.ProteinEditRatio | IMT/App.tsx:304-322 | after a protein edit, carb and fat share the remainder in their old ratio up to half a point, or one of them sits at the floor when the ratio would push it below |
| MacroSplit.ProteinEditEvenSplit | IMT/App.tsx:306-322 | with no previous carb and fat, the remainder is halved, carb rounding up |
| MacroSplit.CarbEditShape | IMT/App.tsx:324-330 | a carb edit keeps protein, clamps carb into [5, 95 - protein] and gives fat the rest |
| MacroSplit.FatEditShape | IMT/App.tsx:331-338 | a fat edit keeps protein, clamps fat into [5, 95 - protein] and gives carb the rest |
| MacroSplit.ReusedIffUnchanged | IMT/App.tsx:380-386 | the previous object is returned exactly when a percentage edit changed none of the four fields |
| MacroSplit.ProteinNoOp | IMT/App.tsx:301-323 | re-sending the current protein value reproduces a valid split exactly |
| MacroSplit.KeptRatio | IMT/App.tsx:306-322 | with the old carb and fat at or above the floor, scaling by (carb + fat)/(carb + fat) keeps carb |
| MacroSplit.NoOpEdit | IMT/App.tsx:380-386 | on a valid split, re-sending any slider's current value returns the previous object |
| MacroSplit.TargetOnlyUpdate | IMT/App.tsx:278-288 | a target edit stores `max(0, v)`, keeps the shares and never reuses the previous object |
| MacroSplit.PercentageEditKeepsTarget | IMT/App.tsx:291-386 | a percentage edit never changes the calorie target |
| MacroSplit.InvalidPreviousSplit | IMT/App.tsx:324-364 | from the invalid split 95/0/5, a carb edit is undone by the floor repair and a fat edit lands on 90/5/5 |
| MacroSplit.ProteinEditExamples | IMT/App.tsx:301-377 | worked protein edits: 30/40/30 to 50 gives 50/29/21; 10/85/5 to 90 gives 90/5/5; out-of-range values clamp to 90 and 5 |
| Metrics.BmiBounds | IMT/App.tsx:196-202 | for validated inputs the BMI lies in (4, 200] |
| Metrics.FactorSign | IMT/App.tsx:222 | a product with a positive factor has the other factor's sign |
| Metrics.BmrGenderGap | IMT/App.tsx:215-220 | the male BMR exceeds the female BMR for the same body by exactly 166 kcal |
| Metrics.TdeePositive | IMT/App.tsx:215-222 | for validated inputs the BMR is at least 164 and the TDEE is positive |
| Metrics.TdeeIncreasesWithActivity | IMT/App.tsx:222 | with a positive BMR, a higher activity level gives a strictly higher TDEE |
| Metrics.TargetEffectPreset | IMT/App.tsx:235-249 | for a preset goal the effect stores the rounded goal calories (0.85 / 1 / 1.15 times TDEE) exactly when they differ from the current target |
| Metrics.TargetEffectCustom | IMT/App.tsx:250-255 | for the custom goal the effect only fills in the rounded TDEE when the target is 0 |
| Metrics.TargetEffectInactive | IMT/App.tsx:236 | without results, or with a zero TDEE, the effect does nothing |
| Metrics.TargetEffectSettles | IMT/App.tsx:235-257 | after a preset goal's effect has run once, the effect does nothing on its next run |
| Metrics.GoalCaloriesOrdered | IMT/constants.ts:45-46 | loss calories < maintenance calories < gain calories for a positive TDEE |
| ImtApp.ValidateInputs | IMT/App.tsx:176-188 | each field has an error exactly when it is outside its range (weight 20-200, height 100-220, age 10-100), with the source's messages, and the result is true exactly when all three are valid |
| ImtApp.CalculateMetrics | IMT/App.tsx:190-229 | results appear exactly when the inputs are valid, and then hold the BMI, its unique category, the Mifflin–St Jeor BMR and the TDEE |
| ImtApp.ProteinShares | IMT/App.tsx:301-323 | the protein branch computes the reference protein edit's three shares |
| ImtApp.CarbShares | IMT/App.tsx:324-330 | the carb branch: the three shares sum to 100; carb is clamped into [5, 95 - protein] unless protein leaves no room |
| ImtApp.FatShares | IMT/App.tsx:331-338 | the fat branch, symmetric to the carb branch |
| ImtApp.FinishSplit | IMT/App.tsx:340-377 | the rounding, the floor repairs and the sum correction leave each branch's shares as the reference says, and the sum correction never fires |
| ImtApp.HandleDietSettingsChange | IMT/App.tsx:272-388 | the updater returns the settings `MacroSplit.Rebalance` defines, and returns the previous object exactly when the reference says so |
| BmiCalculatorApp.ValidateInputs | src/apps/BMICalculatorApp.tsx:152-164 | the same field-by-field validity and messages as the stand-alone app |
| BmiCalculatorApp.CalculateMetrics | src/apps/BMICalculatorApp.tsx:166-205 | the same metrics as the stand-alone app |
| BmiCalculatorApp.ProteinShares | src/apps/BMICalculatorApp.tsx:273-295 | the protein branch computes the reference protein edit's shares |
| BmiCalculatorApp.CarbShares | src/apps/BMICalculatorApp.tsx:296-302 | the carb branch's shares |
| BmiCalculatorApp.FatShares | src/apps/BMICalculatorApp.tsx:303-310 | the fat branch's shares |
| BmiCalculatorApp.FinishSplit | src/apps/BMICalculatorApp.tsx:312-347 | the final passes agree with the reference, and the sum correction never fires |
| BmiCalculatorApp.HandleDietSettingsChange | src/apps/BMICalculatorApp.tsx:247-357 | the embedded updater equals `MacroSplit.Rebalance`, so both copies behave identically |
| Planner.HandleTargetCaloriesChange | IMT/components/NutritionPlanner.tsx:41-49 | the sent target is the typed value, 0 if negative, the rounded TDEE if not a number; the goal switches to custom exactly when it was a preset |
| Planner.TargetEditStored | IMT/components/NutritionPlanner.tsx:41-45 | the updater stores a sent target unchanged and keeps the shares |
| Planner.MacroChange | IMT/components/NutritionPlanner.tsx:51-53 | each slider sends a one-key update for its own macro carrying the slider's value |
| Planner.Macronutrients | IMT/components/NutritionPlanner.tsx:59-63 | the breakdown has three entries |
| Planner.BreakdownEntries | IMT/components/NutritionPlanner.tsx:55-63 | each entry's kcal are target × percentage / 100, and its grams are kcal / 4 (protein, carb) or kcal / 9 (fat) |
| Planner.BreakdownSumsToTarget | IMT/components/NutritionPlanner.tsx:55-63 | for a split summing to 100, the three kcal amounts add up to the target |
| Planner.OutcomeTrichotomy | IMT/components/NutritionPlanner.tsx:65-71 | the outcome is weight loss, gain or maintenance according as the target is below, above or within ±5 % of TDEE, each if and only if |
| Planner.TailMarks | IMT/components/NutritionPlanner.tsx:69-71 | the three message endings differ at fixed positions |
| Planner.MessagesDistinct | IMT/components/NutritionPlanner.tsx:69-71 | different outcomes give different messages, whatever the targets |
| Planner.MessageNamesTarget | IMT/components/NutritionPlanner.tsx:69-71 | every message contains the target in decimal |
| Planner.SliderBounds | IMT/components/NutritionPlanner.tsx:85-89 | the protein slider stops at 90; the carb and fat sliders stop at `max(5, 95 - protein)` |
| Planner.SliderValueApplied | IMT/components/NutritionPlanner.tsx:85-89 | on a valid split, any value inside a slider's bounds is stored as sent, and carb and fat moves keep protein |
| AppsScript.SectionColumn | google-apps-script.js:83-88 | a known section maps to a column between 3 and 6 |
| AppsScript.SectionColumnsKnown | google-apps-script.js:83-88 | exactly the four sections have a column, and different sections have different columns |
| AppsScript.PropertyLookup | google-apps-script.js:90 | an own-property hit is a column between 3 and 6 |
| AppsScript.OwnLookup | google-apps-script.js:90-95 | the corrected lookup never returns an inherited property |
| AppsScript.SetCell | google-apps-script.js:118-125 | writing a cell sets that cell, extends the row if needed and leaves every other cell alone |
| AppsScript.FirstUserIndex | google-apps-script.js:75-80 | the search returns the first data row whose id cell loosely equals the user id, or -1 when none does |
| AppsScript.BadBody | google-apps-script.js:133-138 | a body that does not parse leaves the sheet unchanged and answers with the error |
| AppsScript.HeaderCreatedFirst | google-apps-script.js:54-66 | a missing sheet is created with the 7-column header row first, and an unknown section leaves it holding only that row |
| AppsScript.InvalidSection | google-apps-script.js:95-101 | an unknown section changes no row and answers "Invalid section: …" |
| AppsScript.NewUserAppends | google-apps-script.js:103-115 | a new user appends one 7-cell row: id, name, 1 in the visited section's column, 0 in the others, timestamp |
| AppsScript.ExistingUserIncrements | google-apps-script.js:116-126 | a known user's row alone changes: name, timestamp and that section's counter by one |
| AppsScript.CounterIncrements | google-apps-script.js:120-122 | a numeric counter goes up by one |
| AppsScript.NewUserFoundNext | google-apps-script.js:75-115 | after a new user's visit, the next search finds that user in the appended row |
| AppsScript.InheritedSectionAccepted | google-apps-script.js:90-115 | as written, section "constructor" passes the check and appends a row with no counter set; the corrected lookup refuses it |
| AppsScript.KnownSectionsAgree | google-apps-script.js:83-95 | for sections that are not `Object.prototype` keys, the as-written and corrected endpoints agree |
| AppsScript.Spreadsheet.SetValue | google-apps-script.js:118-125 | `getRange(r, c).setValue(v)` sets that one cell |
| AppsScript.Spreadsheet.AppendRow | google-apps-script.js:115 | `appendRow` adds the row at the end |
| AppsScript.Spreadsheet.DoPost | google-apps-script.js:31-141 | the endpoint's new sheet and answer are those of `AppsScript.Post`, the script with the corrected own-key section lookup |
| AppsScript.Spreadsheet.RecordVisit | google-apps-script.js:116-126 | a repeat visit rewrites exactly the user's row as `VisitedRow` |
| Uri.DecodePlain | src/utils/analytics.ts:55 | text without `%` decodes to itself |
| Uri.DecodeErrorIsUriError | src/utils/analytics.ts:55 | the only error `decodeURIComponent` raises is URIError |
| Uri.TrailingPercentFails | src/utils/analytics.ts:55 | a trailing `%` always makes decoding fail |
| Uri.DecodeExamples | src/utils/analytics.ts:55 | `%41` decodes to "A" and `%D0%90` to Cyrillic "А" |
| Uri.DecodeRejects | src/utils/analytics.ts:55 | a lone continuation octet and an encoded surrogate are rejected |
| Analytics.SectionName | src/utils/analytics.ts:20-28 | every section has a non-empty display name |
| Analytics.SectionsMatchSheet | src/utils/analytics.ts:8 | every section the client sends has a sheet column whose header is that section's display name, and the columns differ |
| Analytics.QueryParam | src/utils/analytics.ts:45-47 | a parameter is found exactly when the query has that key, and its value is the one of the first pair with that key |
| Analytics.TelegramId | src/utils/analytics.ts:67 | the Telegram id, or "anonymous", is never empty |
| Analytics.TelegramName | src/utils/analytics.ts:72-74 | the trimmed first and last name, else the username, else "Anonymous", is never empty |
| Analytics.ResolveUserId | src/utils/analytics.ts:41-84 | the user id the tracker sends is never empty |
| Analytics.DecodeOrKeep | src/utils/analytics.ts:54-56 | the corrected second decode gives the decoded name or the name as given, and never empties a non-empty name |
| Analytics.ResolveFullName | src/utils/analytics.ts:42-79 | the name the tracker sends is never empty |
| Analytics.GetTelegramUserId | src/utils/analytics.ts:137-143 | `getTelegramUserId` never returns an empty id |
| Analytics.TelegramIdAgrees | src/utils/analytics.ts:60-68 | with no explicit id and no `utm_id`, the tracker uses the same id as `getTelegramUserId` |
| Analytics.UserIdOverrides | src/utils/analytics.ts:50-53 | an explicit id wins; a truthy `utm_id` decides the id whatever Telegram says |
| Analytics.Pad2Digits | src/utils/analytics.ts:88-93 | a two-digit padded field is two digits that read back as the number |
| Analytics.TimestampRoundTrip | src/utils/analytics.ts:86-94 | the "dd.mm.yyyy hh:mm:ss" timestamp parses back to the date and time it was made from |
| Analytics.TrackerThrows | src/utils/analytics.ts:54-56 | as written, `utm_fullname=100%` makes the tracker throw URIError, and a missing `window` throws ReferenceError |
| Analytics.TrackersAgree | src/utils/analytics.ts:33-132 | in a browser, wherever the second decode of the name succeeds, the as-written and corrected trackers post the same data |
| Analytics.TrackersAgreeOnPlainNames | src/utils/analytics.ts:33-132 | a name free of `%` is sent as given, by both trackers alike |
| Analytics.DoublyEncodedName | src/utils/analytics.ts:54-56 | `?utm_fullname=%2541`, which reaches the tracker as `%41`, is sent as `A` by both trackers |
| Analytics.TrackSectionVisit | src/utils/analytics.ts:33-132 | the corrected tracker, whose second decode keeps an undecodable name as given, never throws; it stops exactly when the URL is unconfigured, and otherwise posts the resolved id, name, section key and timestamp |
| ImageLoader.EmptyValid | src/utils/imageLoader.ts:6-7 | the empty cache satisfies the cache invariant |
| ImageLoader.Without | src/utils/imageLoader.ts:118 | removing a set of keys keeps exactly the other keys |
| ImageLoader.CacheHit | src/utils/imageLoader.ts:30-32 | a cached image is returned as it is, with nothing changed |
| ImageLoader.InFlightShared | src/utils/imageLoader.ts:35-37 | a second request during a load gets the same promise, with nothing changed |
| ImageLoader.FreshLoadRegistered | src/utils/imageLoader.ts:40-72 | a new source starts one load and registers its promise |
| ImageLoader.RequestIdempotent | src/utils/imageLoader.ts:23-73 | requesting the same source twice in a row gives the same promise and starts no second load |
| ImageLoader.LoadKeepsPromise | src/utils/imageLoader.ts:30-37 | a request for another source does not change what a cached or loading source returns |
| ImageLoader.LoadAllKeeps | src/utils/imageLoader.ts:82-88 | a batch keeps the cache and every promise already in flight |
| ImageLoader.LoadAllShares | src/utils/imageLoader.ts:82-88 | repeated sources in one batch get the same promise |
| ImageLoader.LoadAllLength | src/utils/imageLoader.ts:82-88 | a batch gives one result per source |
| ImageLoader.LoadAllPromiseOf | src/utils/imageLoader.ts:82-88 | in a batch, a cached or loading source gets the promise a single request would give |
| ImageLoader.LoadCaches | src/utils/imageLoader.ts:55-60 | a finished load caches the image and unregisters the promise |
| ImageLoader.ErrorNotCached | src/utils/imageLoader.ts:62-66 | a failed load unregisters the promise and caches nothing |
| ImageLoader.SettledLoadInert | src/utils/imageLoader.ts:49-66 | events for a settled load change nothing |
| ImageLoader.TimeoutStuck | src/utils/imageLoader.ts:49-53 | as written, after a timeout the source keeps returning the rejected promise, which no later event settles |
| ImageLoader.TimeoutRetries | src/utils/imageLoader.ts:49-53 | with the corrected timeout, the next request starts a fresh load |
| ImageLoader.TimeoutExample | src/utils/imageLoader.ts:35-53 | a concrete source shows both behaviours |
| ImageLoader.RequestValid | src/utils/imageLoader.ts:23-73 | requests preserve the cache invariant |
| ImageLoader.OnLoadValid | src/utils/imageLoader.ts:55-60 | the load event preserves the invariant |
| ImageLoader.OnErrorValid | src/utils/imageLoader.ts:62-66 | the error event preserves the invariant |
| ImageLoader.OnTimeoutValid | src/utils/imageLoader.ts:49-53 | both timeouts preserve the invariant |
| ImageLoader.WithoutDistinct | src/utils/imageLoader.ts:116-122 | removing keys keeps the insertion order free of repeats |
| ImageLoader.WithoutNothing | src/utils/imageLoader.ts:116-122 | removing no keys changes nothing |
| ImageLoader.WithoutTwice | src/utils/imageLoader.ts:118 | deleting keys one after another equals deleting them together |
| ImageLoader.ClearCacheEffect | src/utils/imageLoader.ts:116-122 | clearing with no list empties the cache; with a list it removes exactly those keys; in-flight loads are untouched |
| ImageLoader.DistinctCard | src/utils/imageLoader.ts:127-132 | a repeat-free order has as many elements as distinct keys |
| ImageLoader.CacheInfoConsistent | src/utils/imageLoader.ts:127-132 | the reported size equals the number of reported sources, which are exactly the cached keys |
| ImageLoader.ImageCache.constructor | src/utils/imageLoader.ts:6-7 | the module starts with an empty cache and no loads |
| ImageLoader.ImageCache.LoadImage | src/utils/imageLoader.ts:23-73 | `loadImage` changes the state and returns the promise as `Request` says |
| ImageLoader.ImageCache.ImageLoaded | src/utils/imageLoader.ts:55-60 | the load event acts as `OnLoad` |
| ImageLoader.ImageCache.ImageFailed | src/utils/imageLoader.ts:62-66 | the error event acts as `OnError` |
| ImageLoader.ImageCache.TimerFired | src/utils/imageLoader.ts:49-53 | the timer acts as the corrected `OnTimeout` |
| ImageLoader.ImageCache.ClearImageCache | src/utils/imageLoader.ts:116-122 | `clearImageCache` acts as `ClearCache` |
| ImageLoader.ImageCache.LoadImages | src/utils/imageLoader.ts:82-88 | `loadImages` requests each source in order, as `LoadAll` says |
| ImageLoader.ImageCache.GetImageCacheInfo | src/utils/imageLoader.ts:127-132 | `getImageCacheInfo` reports `GetCacheInfo` of the state |
| GeminiService.FirstTruthy | src/apps/lab-analysis/services/geminiService.ts:145-148 | a `\|\|` chain yields the first truthy alternative, or the fallback when none is truthy |
| GeminiService.ExtractedText | src/apps/lab-analysis/services/geminiService.ts:162-175 | extracted text is never empty |
| GeminiService.ErrorMessageOf | src/apps/lab-analysis/services/geminiService.ts:131-148 | the non-OK branch chooses its message as `NonOkMessage` says |
| GeminiService.ExtractText | src/apps/lab-analysis/services/geminiService.ts:162-175 | the extraction chooses the text as `ExtractedText` says |
| GeminiService.SettleResponse | src/apps/lab-analysis/services/geminiService.ts:131-187 | the response handling resolves or throws as `Settle` says |
| GeminiService.AnalyzeBloodTest | src/apps/lab-analysis/services/geminiService.ts:61-199 | the function requests the URL and settles as `Analyze` says |
| GeminiService.PlaceholderRejected | src/apps/lab-analysis/services/geminiService.ts:65-68 | exactly a proxy URL containing the placeholder is refused with the configuration error, before any request; otherwise `…/models/gemini-2.5-flash:generateContent` is requested |
| GeminiService.NonOkPrecedence | src/apps/lab-analysis/services/geminiService.ts:132-148 | the non-OK message is `error.message`, else `message`, else the body text, else the status text |
| GeminiService.NonOkRejected | src/apps/lab-analysis/services/geminiService.ts:131-152 | a non-OK answer rejects with "Ошибка API (status): message" |
| GeminiService.ApiErrorRejected | src/apps/lab-analysis/services/geminiService.ts:157-160 | an OK answer carrying an error message rejects with that message |
| GeminiService.TextPrecedence | src/apps/lab-analysis/services/geminiService.ts:165-175 | the top-level `text` wins over the first candidate's first part |
| GeminiService.ResolvedOnlyWithText | src/apps/lab-analysis/services/geminiService.ts:154-187 | the call resolves only on an OK, parsed, error-free answer, and then with its non-empty extracted text |
| GeminiService.NoTextRejected | src/apps/lab-analysis/services/geminiService.ts:177-185 | without text, the rejection starts with the block reason if there is one, and is the generic message otherwise |
| GeminiService.CatchMapping | src/apps/lab-analysis/services/geminiService.ts:189-198 | a thrown "failed to fetch" becomes the network message, another Error its message, a non-Error value the unknown-error message |
| GeminiService.FetchFailureSpellings | src/apps/lab-analysis/services/geminiService.ts:192 | the network test ignores case |
| GeminiService.FetchFailureCaseBlind | src/apps/lab-analysis/services/geminiService.ts:192 | whether a message counts as a network failure does not depend on the case of its ASCII letters |
| LabAnalysisApp.DataUrlRoundTrip | src/apps/LabAnalysisApp.tsx:19-36 | a `data:<mime>;base64,<payload>` URL gives back its payload and MIME type |
| LabAnalysisApp.HeaderFields | src/apps/LabAnalysisApp.tsx:30 | the substring between the first `:` and the first `;` of the header is the MIME type |
| LabAnalysisApp.DataUrlRejected | src/apps/LabAnalysisApp.tsx:25-29 | the data URL is refused exactly when it does not hold exactly one comma, with the format error |
| LabAnalysisApp.HeaderWithoutParameters | src/apps/LabAnalysisApp.tsx:30 | with no `;` in the header, `substring` swaps its bounds and the "MIME type" is the header up to and including the `:` |
| LabAnalysisApp.ShownError | src/apps/LabAnalysisApp.tsx:103-105 | the corrected handler always shows a non-empty error |
| LabAnalysisApp.InitialConsistent | src/apps/LabAnalysisApp.tsx:39-44 | the initial page state is consistent: a selection is of an accepted type, a selected image has a preview and a PDF has none, and with no selection there is no preview and no PDF flag |
| LabAnalysisApp.ConsistentPreserved | src/apps/LabAnalysisApp.tsx:48-109 | every handler preserves consistency |
| LabAnalysisApp.WrongTypeRefused | src/apps/LabAnalysisApp.tsx:51-57 | a file of another type clears the selection and preview and shows the type error |
| LabAnalysisApp.AcceptedSelected | src/apps/LabAnalysisApp.tsx:58-70 | an accepted file is selected, clears the result and error, and is previewed only if it is not a PDF |
| LabAnalysisApp.AcceptedTypesListed | src/apps/LabAnalysisApp.tsx:51 | exactly JPEG, PNG, WebP and PDF are accepted |
| LabAnalysisApp.NoFileGuard | src/apps/LabAnalysisApp.tsx:90-93 | analysing with no file only sets the "choose a file" error |
| LabAnalysisApp.AnalysisLifecycle | src/apps/LabAnalysisApp.tsx:95-108 | analysis starts loading with a clear result and error, and ends not loading with exactly one of a result or an error |
| LabAnalysisApp.ServiceErrorHiddenAsWritten | src/apps/LabAnalysisApp.tsx:103-105 | as written, every rejection from the service shows only the generic message |
| LabAnalysisApp.ConfigErrorHiddenAsWritten | src/apps/LabAnalysisApp.tsx:103-105 | as written, the configuration error in particular is hidden behind the generic message |
| LabAnalysisApp.ServiceErrorShown | src/apps/LabAnalysisApp.tsx:103-105 | with the correction, the format error and the service's own message reach the user |
| LabAnalysisApp.LabAnalysisPage.constructor | src/apps/LabAnalysisApp.tsx:39-44 | the component starts in the initial state |
| LabAnalysisApp.LabAnalysisPage.HandleFileChange | src/apps/LabAnalysisApp.tsx:48-76 | `handleFileChange` updates the fields as `FileChanged` says |
| LabAnalysisApp.LabAnalysisPage.HandleAnalyze | src/apps/LabAnalysisApp.tsx:89-109 | `handleAnalyze` starts exactly when a file is selected and leaves the fields as `Analyzed` says |
| Text.IndexOf | src/apps/LabAnalysisApp.tsx:30 | `indexOf` gives the first occurrence, or -1 exactly when the character is absent |
| Text.Substring | src/apps/LabAnalysisApp.tsx:30 | `substring` clamps both bounds into the text and takes the slice between them in either order, including a negative or too-large bound |
| Text.Split | src/apps/LabAnalysisApp.tsx:25 | `split` gives at least one part, none containing the separator, and the parts joined with the separator give back the text |
| Text.SplitTwoParts | src/apps/LabAnalysisApp.tsx:25-26 | a split gives two parts exactly when the separator occurs exactly once |
| Text.PadStart | src/utils/analytics.ts:88-93 | `padStart` fills on the left to the requested length and keeps the text as its suffix |
| Text.Trim | src/utils/analytics.ts:74 | `trim` is a slice of the text with only white space before and after it and none at either of its own ends, and is empty exactly when the text is all white space |
| Text.ToLower | src/apps/lab-analysis/services/geminiService.ts:192 | lower-casing keeps the length, leaves no ASCII capital, and changes each character in its ASCII case only |
| Text.ToLowerIdempotent | src/apps/lab-analysis/services/geminiService.ts:192 | lower-casing twice is lower-casing once |
| Text.ToLowerCaseBlind | src/apps/lab-analysis/services/geminiService.ts:192 | texts that differ only in ASCII case lower-case to the same text |
| Text.NatToStringRoundTrip | src/utils/analytics.ts:90 | a number's decimal text reads back as the number |

## Left out

- src/apps/bmi-calculator/constants.ts is not part of this model. The embedded calculator is modelled with IMT/constants.ts's values.
- The updater's argument is one `Update` carrying a single key, because the planner sends only single-key objects. The cases of an update with several keys, or with no percentage key after the target test (line 297 of IMT/App.tsx), do not arise and are not modelled.
- Floating point is modelled as exact reals. `NaN` from `parseInt`/`parseFloat` is `None`. IEEE rounding of `0.85 * tdee` and of `carb / (carb + fat)` is not modelled.
- The rendering (JSX, colours, pie chart, BMI scale), `localStorage` persistence, the goal and input change handlers other than the planner's, and the `useEffect` scheduling order are not modelled. The target-calorie effect is a function of its three dependencies.
- Metrics.GoalCalories and Metrics.TargetCaloriesEffect have no contract of their own; the `TargetEffect…` lemmas state their behaviour.
- The Gemini request body, the prompt text, the model's answer and the proxy URL constant are not modelled. The proxy is a parameter, so the configuration guard is proved for every URL. `fetch` and `response.json()` are a `Transport` value; a JSON parse failure is `Failure`.
- GeminiService.NonOkRejected, ApiErrorRejected and NoTextRejected assume the thrown message does not itself contain "failed to fetch". `CatchMapping` covers that case.
- The `console` logging everywhere, `LockService` in `doPost` and the sheet's bold header formatting are not modelled. The model has one call at a time. `waitLock(30000)` (line 37) throws when the lock is not obtained within 30 seconds, and the `catch` (lines 133-137) then answers `success: false`; that time-out answer is not modelled.
- AppsScript.Spreadsheet.DoPost uses the corrected own-key guard; the script as written is `PostAsWritten`, which `InheritedSectionAccepted` shows accepting section "constructor".
- `doGet` is not modelled; it only returns a fixed status reply.
- AppsScript.Spreadsheet.SetValue stores a value exactly as the script passes it. Sheets' conversion on write is not modelled: numeric-looking text becomes a number, date-like text a date, and text starting with `=` a formula.
- AppsScript.Spreadsheet.AppendRow stores the row's values as given, without that conversion on write.
- AppsScript.Spreadsheet.RecordVisit and AppsScript.ExistingUserIncrements compute the counter as `currentCount + 1` (lines 120-122) on the stored value, with no conversion. For a blank or text counter the model therefore concatenates (`Str("1")`, then `Str("11")`), where the sheet would store the number 1 and then count 2. For a numeric counter, which the script itself writes for every new user (lines 103-115), they agree, as `CounterIncrements` states.
- AppsScript.LooseEquals: JavaScript `==` is modelled for text against text and for a number against its decimal text. Other coercions (booleans, dates, numeric strings with signs or exponents) are not.
- Text.ToLower lowers ASCII letters only, where `toLowerCase` lowers all of Unicode. For `FetchFailure` (geminiService.ts line 192) this changes nothing. Of the non-ASCII characters, only U+0130 (dotted capital I, lowered to `i` + U+0307) and U+212A (Kelvin sign, lowered to `k`) lower to ASCII letters. "failed to fetch" has no `k`. Its one `i` is followed by `l`, not U+0307.
- Analytics: `URLSearchParams` decoding of `+` and escapes is not modelled; the query arrives as already-decoded pairs. The `fetch` POST is reduced to the posted data, because `no-cors` hides its answer and its failure is caught.
- Analytics.TimestampRoundTrip requires a non-negative year: `FormatTimestamp` formats any year, but a negative one carries a `-` that the parser does not read back.
- ImageLoader: `preloadImagesWithLink`, `enableLazyLoadForSelector` and the `fetchPriority` hint are DOM side effects with no state in the module, so they are not modelled. Timer and network events are methods called in any order; real time and the 10-second default are not modelled.
- ImageLoader.ImageCache.TimerFired models the corrected timeout. The as-written one is `OnTimeoutAsWritten`.
- LabAnalysisApp: `URL.createObjectURL` is a parameter, and the object-URL revocation and the unmount cleanup effect are not modelled. A `FileReader` failure rejects with a progress event, which is `ReadFailed` and shows as an `EventValue`.
- LabAnalysisApp.LabAnalysisPage.HandleAnalyze shows errors through the corrected `ShownError`; the as-written `ShownErrorAsWritten` is kept beside it. It also runs the asynchronous analysis to completion inside one call; interleavings with other handlers while loading are not modelled.

## Findings

| source | as written | input that shows it | evidently intended | confidence | as-written member | corrected member |
|---|---|---|---|---|---|---|
| src/apps/LabAnalysisApp.tsx:103-105 | the handler shows `err.message`, but `analyzeBloodTest` rejects with plain strings (geminiService.ts lines 67, 193-197), which have no `message` | a proxy URL containing the placeholder, or any network or API error | the service's message is shown to the user | not executed | LabAnalysisApp.ConfigErrorHiddenAsWritten | LabAnalysisApp.ServiceErrorShown |
| src/utils/analytics.ts:54-56 | `decodeURIComponent` is applied to `utm_fullname`, which `URLSearchParams` has already decoded, outside the `try`; line 104 also reads `window` unguarded | `?utm_fullname=100%25` (decoded to "100%"), or no `window` | tracking never throws into the page, as the comment at line 130 says: the name is decoded when it can be and sent as given otherwise | not executed | Analytics.TrackerThrows | Analytics.TrackSectionVisit |
| google-apps-script.js:90-95 | `sectionColumns[section]` also finds inherited `Object.prototype` properties | section "constructor" for a new user | only the four listed sections are accepted | not executed | AppsScript.InheritedSectionAccepted | AppsScript.OwnLookup |
| src/utils/imageLoader.ts:49-53 | the timeout rejects the promise but does not remove it from `loadingPromises` (lines 35-37 then keep returning it) | load "a.png", let the timer fire, then load "a.png" again | a timed-out image can be requested again | not executed | ImageLoader.TimeoutStuck | ImageLoader.TimeoutRetries |
