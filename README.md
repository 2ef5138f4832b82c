# Nutrition tracker — a verified model of its logic

The repository is a nutrition and fitness tracker that exists in three overlapping copies:

- an Express backend that keeps its data in five JSON files (`backend/services/dataService.js`);
- an Express backend over SQLite (`backend/src/server.js`);
- an Express server over SQLite with a React client (`server/`, `client/`).

Users log meals, exercise, weight and water, and read back daily, weekly and monthly statistics. They can also send a food photo to a vision model and read the model's nutritional estimate.

This project models the logic under the HTTP, database and SDK glue:

- the record store and its period statistics;
- the logging streak;
- the read-then-update-or-insert operations on tables keyed by (user, date);
- the SQL aggregates behind the dashboard, weekly and monthly views;
- the client's macro-calorie conversion;
- the two string helpers of the vision wrappers: the extension-to-MIME lookup, and extraction of the JSON text from the model's reply.

Layout, one module per file:

| file | module | models |
|---|---|---|
| `common.dfy` | `Common` | optional values, JavaScript `\|\|` defaulting, `filter`/`reduce` over lists, stable sorting, `Math.round`/`Math.ceil` in integers, substring search |
| `sql.dfy` | `Sql` | SQL aggregates over row sequences: `SUM`, `AVG`, `BETWEEN`, `COUNT(DISTINCT …)`, `GROUP BY … ORDER BY` |
| `data_service.dfy` | `DataService` | `backend/services/dataService.js`: the five files as the fields of class `Store`, and `getStats` |
| `tracker_api.dfy` | `TrackerApi` | `backend/src/server.js`: the streak loop, weight upsert, goals get-or-create, the water log, and class `TrackerDb` |
| `server_schema.dfy` | `ServerSchema` | the row types of the `server/` tables and the `users` column defaults |
| `analytics_routes.dfy` | `AnalyticsRoutes` | `server/routes/analytics.js`: the dashboard, weekly and monthly replies |
| `water_routes.dfy` | `WaterRoutes` | `server/routes/water.js`: class `WaterTable` with set-or-insert, increment-or-create, and the two readers |
| `analytics_page.dfy` | `AnalyticsPage` | `client/src/pages/Analytics.js`: the chart data, the macro totals and `macroData`, and the two display conditions |
| `ai_service.dfy` | `AiService` | `backend/services/aiService.js`: `getMimeType`, and the JSON span with its fallback |
| `food_analyzer.dfy` | `FoodAnalyzer` | `server/services/foodAnalyzer.js`: the media type, the fenced JSON block, the success/failure result |

How time is modelled:

- `dataService.js` timestamps are integer milliseconds. A `'YYYY-MM-DD'` date there is a day number `d`, whose midnight is `d * DAY_MS`.
- The SQL code uses day numbers throughout.
- "Now", local midnight of today and the first of the month are parameters (`DataService.Clock`, `today`, `monthStart`).
- Fresh ids (`uuidv4()`, AUTOINCREMENT counters) are parameters or class fields.
- `JSON.parse` is a function parameter.

## Divergences between the copies

The model keeps these apart rather than reconciling them:

- **Statistics window.** `getStats` keeps an entry when its time is on or after the window start. There is no upper bound, so future-dated meals and exercises are counted (`DataService.StatsAddMeal`, `DataService.StatsAddExercise`).
- **Water.** `addWaterIntake` adds to the day's entry (`DataService.WaterAccumulates`). `POST /api/water` of `backend/src/server.js` appends a row that is summed later (`TrackerApi.WaterLogged`). `POST /` of `server/routes/water.js` replaces the day's number (`WaterRoutes.PostReadsBack`). Only `POST /increment` adds, and it adds exactly 1 (`WaterRoutes.IncrementAccumulates`).
- **Weight.** `backend/src/server.js` upserts one row per (user, date) (`TrackerApi.WeightUpsert`). `addWeightEntry` appends beside an existing same-date entry and re-sorts (`DataService.WeightAdded`).
- **Updating water rows.** In `server/routes/water.js`, `POST /` updates every row of the (user, date) pair. `POST /increment` updates only the first such row, by its id. The schema does not make the pair unique.
- **Goal fallbacks in `getStats`.** The code falls back only for the calorie goal (2000) and the water goal (8). A description of the system that also lists protein, carbs and fats defaults for `getStats` does not match the code. The model follows the code.
- **The macro pie.** The pie's share is computed by the charting library from grams (`dataKey="value"`), not from calories. That computation is outside the modelled lines. The model proves only the exact ×4/×4/×9 calories.
- **Unknown periods.** An unrecognised `period` is treated as `'week'` for the window. The reply still carries the period string as given.

## Model

| member | source | states |
|---|---|---|
| DataService.Store.constructor | backend/services/dataService.js:18-50 | the files start as empty lists and the default profile (calorie goal 2000, water goal 8, activity 'moderate') |
| DataService.Merge | backend/services/dataService.js:224-229 | `{...profile, ...updates}` holds every key of either; a key of `updates` takes the new value, every other key keeps its old one |
| DataService.MergeIdempotent | backend/services/dataService.js:226 | applying the same updates twice gives the same profile as once |
| DataService.Store.UpdateUserProfile | backend/services/dataService.js:211-229 | the stored and returned profile is the shallow merge; no other file changes |
| DataService.Store.GetMeals | backend/services/dataService.js:74-88 | with no bounds, the stored list; otherwise exactly the meals with start ≤ t ≤ end (missing start = epoch, missing end = now), in stored order |
| DataService.Store.GetExercises | backend/services/dataService.js:268-282 | the same window over exercises, in stored order |
| DataService.NewMealFields | backend/services/dataService.js:90-108 | a new meal has the given or current timestamp, type 'snack' when none is given, no food items when none are given, each missing number 0, and no empty URL |
| DataService.Store.AddMeal | backend/services/dataService.js:90-114 | exactly the new meal is appended at the end; the other files are unchanged |
| DataService.WithoutMeal | backend/services/dataService.js:116-120 | every meal with the id is removed, every other meal is kept with its multiplicity and in order |
| DataService.Store.DeleteMeal | backend/services/dataService.js:116-120 | the meals list becomes the list without that id; nothing else changes |
| DataService.AddThenDelete | backend/services/dataService.js:90-120 | deleting a just-added meal with a fresh id restores the list |
| DataService.DeleteIdempotent | backend/services/dataService.js:116-120 | deleting twice equals deleting once |
| DataService.AddedMealReadBack | backend/services/dataService.js:74-114 | an added meal is returned by every window that contains its timestamp |
| DataService.NewExerciseFields | backend/services/dataService.js:284-296 | a new exercise has type 'other' and 0 duration and calories when missing, and a distance only when one is given and not 0 |
| DataService.Store.AddExercise | backend/services/dataService.js:284-302 | exactly the new exercise is appended; the other files are unchanged |
| DataService.WeightAdded | backend/services/dataService.js:192-207 | push-then-sort grows the history by exactly the new entry, keeps it sorted by date, and adds one same-date entry instead of merging |
| DataService.Store.AddWeightEntry | backend/services/dataService.js:192-208 | the history becomes the sorted history plus the new entry (unit 'kg' by default); the sorted invariant is kept |
| DataService.Store.GetWaterIntake | backend/services/dataService.js:232-240 | with a date, exactly that day's entries in order; without one, every entry |
| DataService.WaterAccumulates | backend/services/dataService.js:242-264 | the day's total grows by the amount, every other day keeps its total and its entries, and an entry is appended only when the day had none |
| DataService.WaterReadBack | backend/services/dataService.js:232-264 | the day's entries read back the old total plus the amount |
| DataService.Store.AddWaterIntake | backend/services/dataService.js:242-265 | the date defaults to today and the amount to 1. An existing day returns its first entry, with the same id, the new timestamp and the glasses raised by the amount. A new day returns the appended entry with the fresh id |
| DataService.WindowStart | backend/services/dataService.js:129-144 | 'day' starts at today's midnight, 'month' at the first of the month, anything else at now − 7 days |
| DataService.Days | backend/services/dataService.js:161 | the divisor is at least 1 and is the number of started days between start and now |
| DataService.DaysOfPeriods | backend/services/dataService.js:132-161 | the divisor is 1 for 'day' and 7 for 'week' |
| DataService.StatsOf | backend/services/dataService.js:123-185 | the reply carries the given period, or 'week' when none is given. The window starts where that period starts. Every total, and the meal and workout counts, are taken over the entries at or after the start. net = eaten − burned. Each average is the total over the days, rounded to nearest. The goals fall back to 2000 and 8 |
| DataService.StatsAddMeal | backend/services/dataService.js:146-183 | a meal at or after the start, even in the future, adds one meal and its calories; an earlier one changes neither |
| DataService.StatsAddExercise | backend/services/dataService.js:147-183 | a workout at or after the start adds one workout and lowers the net calories by its calories |
| DataService.StatsEmpty | backend/services/dataService.js:150-183 | with no data, every total, count and average is 0 and the goals are 2000 and 8 |
| DataService.Store.GetStats | backend/services/dataService.js:123-185 | `getStats` over the store's current files |
| TrackerApi.ComputeStreak | backend/src/server.js:421-436 | the loop's counter is the length of the run today, today − 1, … at the head of the dates |
| TrackerApi.StreakUnique | backend/src/server.js:425-436 | the streak is determined by the dates |
| TrackerApi.StreakNeedsToday | backend/src/server.js:429-434 | no dates, a newest date before today, or a future newest date all give streak 0 |
| TrackerApi.StreakIsRun | backend/src/server.js:413-436 | over strictly descending dates, none in the future, every day of the run is a meal date and the day before it is not |
| TrackerApi.StreakOfMeals | backend/src/server.js:413-436 | on the user's distinct meal dates, the streak is the number of consecutive days back from today that have a meal |
| TrackerApi.FindWeight | backend/src/server.js:221-224 | finds the first row of the (user, date) pair, or reports that none exists |
| TrackerApi.WeightUpsert | backend/src/server.js:221-242 | an existing pair keeps its row count with the new weight on its row; a new pair gets exactly one row; other pairs are untouched |
| TrackerApi.WeightTwice | backend/src/server.js:221-242 | logging the same weight twice equals logging it once |
| TrackerApi.TrackerDb.constructor | backend/src/database.js:33-85 | the meals, weight_logs, goals and water_intake tables start empty |
| TrackerApi.TrackerDb.LogWeight | backend/src/server.js:217-247 | the table becomes the upserted table and the reply is the stored row; the ids stay below the counter |
| TrackerApi.FindGoals | backend/src/server.js:275 | finds the user's goals row, or reports that none exists |
| TrackerApi.TrackerDb.GetGoals | backend/src/server.js:271-288 | an existing row is returned unchanged; otherwise one default row (2000/150/200/65/8/0) is inserted and returned; user ids stay unique |
| TrackerApi.WaterTotal | backend/src/server.js:330-345 | the total is the sum for that user and date, 0 when no row matches |
| TrackerApi.WaterLogged | backend/src/server.js:313-345 | a logged row adds its amount to its own (user, date) total and to no other |
| TrackerApi.TrackerDb.LogWater | backend/src/server.js:313-328 | exactly one row is appended with the next id |
| TrackerApi.CalorieGoal | backend/src/server.js:441 | the stored goal when set and non-zero, otherwise 2000 |
| TrackerApi.DailyStats | backend/src/server.js:397-442 | one row for each date that has meals in the window, and only those dates, newest first. Each row holds that date's calorie sum and meal count, at least one meal, and the same goal |
| TrackerApi.TotalMealsCounts | backend/src/server.js:446 | the sum of the per-day meal counts is the number of the user's meals in the window |
| TrackerApi.TrackerDb.GetStatistics | backend/src/server.js:391-453 | the daily rows, `totalMeals` as the count of window meals, and the streak over the user's distinct meal dates |
| Sql.SumOrZero | server/routes/analytics.js:71-72 | `SUM(x) \|\| 0` is the plain sum, and 0 over no rows |
| Sql.Avg | server/routes/analytics.js:186-187 | `AVG` is NULL over no rows, otherwise the mean: the value times the count equals the sum |
| Sql.DistinctAsc | server/routes/analytics.js:185 | the distinct key values, strictly ascending, exactly those that occur |
| Sql.DistinctDesc | backend/src/server.js:414-417 | `SELECT DISTINCT … ORDER BY … DESC`: the same values, strictly descending |
| Sql.GroupByKeys | server/routes/analytics.js:122-123 | the groups' keys are ascending and are exactly the keys that occur |
| Sql.GroupByRows | server/routes/analytics.js:122-123 | each group is non-empty and holds exactly the rows with its key, in order |
| Sql.GroupByDesc | backend/src/server.js:404-405 | `GROUP BY … ORDER BY … DESC`: the same groups, newest key first |
| Sql.SumOverGroups | server/routes/analytics.js:189-194 | the per-group sums add up to the sum over all rows |
| Sql.CountOverGroups | backend/src/server.js:446 | the group sizes add up to the number of rows |
| Sql.AvgOverGroups | server/routes/analytics.js:184-195 | the mean of the per-group sums is NULL without rows, otherwise the total sum shared over the number of distinct keys |
| AnalyticsRoutes.FindUser | server/routes/analytics.js:13-19 | the user row with the id, or none |
| AnalyticsRoutes.GoalsFallBackToDefaults | server/routes/analytics.js:76-82 | a missing user, a new user (defaults of server/database/db.js:34-38) and NULL or 0 goals all give 2000/150/200/65/8 |
| AnalyticsRoutes.GoalsKeepSetValues | server/routes/analytics.js:77-81 | each of the five goals that is set and non-zero is shown as stored, independently of the other four |
| AnalyticsRoutes.LatestWeight | server/routes/analytics.js:55-61 | a row with the latest date, and none only when there are no rows |
| AnalyticsRoutes.TodaySummary | server/routes/analytics.js:71-92 | today's calorie, protein, carbs and fats totals and the meal and exercise counts are the sums and counts of the user's rows for today, 0 when there are none. Net calories are eaten minus burned. Water is the glasses of the first row of the day, or 0 |
| AnalyticsRoutes.CurrentWeight | server/routes/analytics.js:55-61 | none exactly when the user has no weight log. Otherwise the weight and date of one of the user's logs, with no log dated later |
| AnalyticsRoutes.DashboardOf | server/routes/analytics.js:55-95 | today's totals and counts are the sums and counts of today's rows, 0 when there are none. net = eaten − burned. Water is the first row's glasses, or 0. Weight is the weight and date of the user's latest stored weigh-in, or null when there is none |
| AnalyticsRoutes.DashboardEmptyDay | server/routes/analytics.js:71-93 | with nothing logged today every figure is 0 |
| AnalyticsRoutes.NetCaloriesCanBeNegative | server/routes/analytics.js:71-73 | 300 kcal eaten and 500 burned give −200 |
| AnalyticsRoutes.WeekDates | server/routes/analytics.js:106-121 | the window today − 7 … today, both ends included, is 8 dates |
| AnalyticsRoutes.WeeklyMeals | server/routes/analytics.js:113-127 | one row per date of the week with a meal, ascending, with that date's sums; dateless days have no row |
| AnalyticsRoutes.WeeklyMealsTotal | server/routes/analytics.js:113-127 | the daily calorie sums add up to the week's calories |
| AnalyticsRoutes.WeeklyExercises | server/routes/analytics.js:129-141 | the same sparse ascending series for exercises |
| AnalyticsRoutes.WeeklyWater | server/routes/analytics.js:143-149 | the user's rows in the week, ascending by date, none lost or added |
| AnalyticsRoutes.WeeklyWeight | server/routes/analytics.js:151-157 | the user's weigh-ins in the week, ascending by date, none lost or added |
| AnalyticsRoutes.MonthlyMeals | server/routes/analytics.js:182-199 | `days_tracked` is the count of distinct meal dates in the month; each average is the mean over those dates of the daily sums, NULL without meals |
| AnalyticsRoutes.MonthlyExercise | server/routes/analytics.js:201-212 | `total_workouts` is the count in the month; the duration and calorie totals are their sums, NULL without workouts |
| AnalyticsRoutes.MonthlyExerciseAdd | server/routes/analytics.js:203-208 | a workout in the month adds one to the count and its duration to the total |
| WaterRoutes.FirstOn | server/routes/water.js:19-22 | the first row of the (user, date) pair, or none |
| WaterRoutes.WaterTable.constructor | server/database/db.js:80-89 | the water_intake table starts empty |
| WaterRoutes.WaterTable.Post | server/routes/water.js:7-59 | no `glasses` gives 400 and changes nothing. Otherwise the date defaults to today. When the pair already has a row, all of its rows are set and the reply is `Updated` with the first row's id. When it has none, one row is inserted and the reply is `Created` with the next id |
| WaterRoutes.PostReadsBack | server/routes/water.js:27-39 | after POST every row of the pair holds the posted number and today's read returns it: the number replaces the old one |
| WaterRoutes.PostKeepsOthers | server/routes/water.js:16-56 | rows of other pairs keep place and content; the table grows by one row exactly when the pair had none |
| WaterRoutes.IncrementOneRow | server/routes/water.js:75-77 | with unique ids, the update by id changes exactly the found row |
| WaterRoutes.IncrementAccumulates | server/routes/water.js:61-101 | increment raises the day's reading by exactly 1, from 0 when the day had no row; other pairs are untouched |
| WaterRoutes.WaterTable.Increment | server/routes/water.js:61-101 | the reply is the old reading plus 1, and it is what the table now holds |
| WaterRoutes.List | server/routes/water.js:103-130 | exactly the user's rows within the given inclusive bounds, latest date first |
| WaterRoutes.ListUnbounded | server/routes/water.js:108-119 | without bounds, every row of the user |
| WaterRoutes.WaterTable.Entries | server/routes/water.js:103-130 | `GET /` over the current table: exactly `List`'s rows, the user's rows within the bounds, latest first |
| WaterRoutes.TodayOf | server/routes/water.js:132-148 | the stored row of the day, or `{glasses: 0, entry_date: today}` exactly when there is none |
| WaterRoutes.WaterTable.Today | server/routes/water.js:132-148 | `GET /today` over the current table: exactly `TodayOf` |
| AnalyticsPage.ChartDate | client/src/pages/Analytics.js:46 | a `YYYY-MM-DD` date becomes its last five characters, `MM-DD` |
| AnalyticsPage.CalorieChartData | client/src/pages/Analytics.js:45-51 | one point per weekly meal row in the same order with the same values; empty when the data is absent |
| AnalyticsPage.ExerciseChartData | client/src/pages/Analytics.js:53-57 | one point per weekly exercise row, in order; empty when absent |
| AnalyticsPage.WeightChartData | client/src/pages/Analytics.js:59-62 | one point per weigh-in, in order; empty when absent |
| AnalyticsPage.WaterChartData | client/src/pages/Analytics.js:64-67 | one point per water row, in order; empty when absent |
| AnalyticsPage.MacroData | client/src/pages/Analytics.js:69-78 | three entries, Protein, Carbs and Fats, whose values are the sums with missing values as 0 and whose calories are ×4, ×4 and ×9 |
| AnalyticsPage.MacroCaloriesTotal | client/src/pages/Analytics.js:74-78 | the macro calories add up to 4·protein + 4·carbs + 9·fats summed over the days |
| AnalyticsPage.DistributionShown | client/src/pages/Analytics.js:135 | the distribution shows iff some total is positive; for non-negative values, iff some day has a positive macro |
| AnalyticsPage.EmptyStateShown | client/src/pages/Analytics.js:249 | the empty state shows iff the meal, exercise and weight series are all absent or empty; then the distribution is hidden |
| AiService.Extension | backend/services/aiService.js:114 | the text after the last '.', or the whole path without one |
| AiService.ToLower | backend/services/aiService.js:114 | same length, no capital letters, other characters unchanged |
| AiService.MimeTypes | backend/services/aiService.js:115-121 | the table gives one of the four image types |
| AiService.GetMimeType | backend/services/aiService.js:113-123 | the table's type for the lower-cased extension, otherwise image/jpeg |
| AiService.MimeTypeOfName | backend/services/aiService.js:113-123 | for `name.ext` with a dot-free `ext`, the type depends on the lower-cased `ext` alone |
| AiService.CaseInsensitive | backend/services/aiService.js:114 | changing the letter case of the extension does not change the type |
| AiService.SlashAfterLastDotIsJpeg | backend/services/aiService.js:122 | a path whose last '.' sits in a directory name, so that the "extension" holds a '/', maps to image/jpeg |
| AiService.GetMimeTypeAsWritten | backend/services/aiService.js:115-122 | as evaluated, the lookup returns a non-string exactly for the inherited keys `constructor` and `__proto__` |
| AiService.MimeTypeAsWrittenNotAString | backend/services/aiService.js:122 | `meal.constructor` yields the inherited `constructor` value |
| AiService.MimeTypeAsWrittenAgrees | backend/services/aiService.js:113-123 | away from the inherited keys, the code agrees with `GetMimeType` |
| AiService.JsonSpanBounds | backend/services/aiService.js:71 | a span exists iff some '{' precedes some '}'; it runs from the first '{' to the last '}' |
| AiService.JsonSpan | backend/services/aiService.js:71-73 | the matched text starts with '{' and ends with '}' |
| AiService.JsonSpanOfWrapped | backend/services/aiService.js:71-73 | an object surrounded by brace-free prose is extracted exactly |
| AiService.ParseAnalysis | backend/services/aiService.js:67-92 | the parsed span, or the fallback (['Unknown food item'], zeros, 'Unknown', 'low') without a span or when it does not parse |
| AiService.NoBracesFallBack | backend/services/aiService.js:74-91 | a reply without a '{' before a '}' gives the fallback with no calories or macros |
| AiService.WrappedObjectParsed | backend/services/aiService.js:71-73 | a parsable object wrapped in prose is the result |
| FoodAnalyzer.MediaType | server/services/foodAnalyzer.js:18-26 | agrees with `getMimeType` on every path |
| FoodAnalyzer.MediaTypeAsWritten | server/services/foodAnalyzer.js:19-26 | as evaluated, equal to the backend lookup, inherited keys included |
| FoodAnalyzer.MediaTypeAsWrittenNotAString | server/services/foodAnalyzer.js:26 | `meal.__proto__` yields the inherited `__proto__` value |
| FoodAnalyzer.Fence | server/services/foodAnalyzer.js:70 | the first "```json\n" and the nearest following "\n```"; none exactly when no opener has a closer after it |
| FoodAnalyzer.ExtractJsonText | server/services/foodAnalyzer.js:69-73 | the fenced body when there is a fence, otherwise the whole reply |
| FoodAnalyzer.FencedBodyExtracted | server/services/foodAnalyzer.js:69-73 | a body that holds no closer, fenced after text that holds no opener, is given back exactly |
| FoodAnalyzer.Analyze | server/services/foodAnalyzer.js:77-97 | success iff the reply came and its JSON text parses; failure carries the error and the fallback data ('Unknown meal', zeros, 'low') |
| FoodAnalyzer.FencedReplyAnalyzed | server/services/foodAnalyzer.js:69-97 | a fenced reply succeeds iff its body parses, and then carries the parsed body |

## Left out

- File and database I/O, the Express routing, and HTTP status codes other than the water route's 400: each operation is one atomic step on the model's state.
- Concurrency: read-modify-write races on the JSON files, `Promise.all`, and nested SQLite callbacks.
- Database errors (the 500 replies) are not modelled.
- Storing a NULL `glasses` through `POST /` is not modelled. The NOT NULL column refuses it with a 500.
- Randomness and the clock: `uuidv4()`, `new Date()`, and the mock analysis; ids and times are parameters.
- Calendar details: time zones, local versus UTC dates (`toISOString().split('T')[0]`), DST in the streak's `Math.floor`, and `new Date(string)` parsing. Dates are day numbers and midnights are given.
- Floating point: REAL nutrient, weight and distance columns are integers. `Math.round` is exact rounding of integer quotients. `AVG` is a mathematical real.
- The `getStats` window compares a water entry's date as UTC midnight, `day * DAY_MS`.
- `JSON.parse` and the vision SDK calls are parameters. A parsed reply is taken to have the analysis shape.
- `toLowerCase` is modelled on ASCII letters only.
- `getWeightHistory` only returns the `weights` field. No member models it.
- `getUserProfile` is the `profile` field.
- SQLite's row order for `db.get` without `ORDER BY` is table order. `ORDER BY` ties keep table order (a stable sort).
- The key order of the merged profile object is not modelled (`map`).
- The `days` query parameter of `GET /api/statistics/:userId` in `backend/src/server.js:393` defaults to 7 when it is missing. `TrackerApi.TrackerDb.GetStatistics` takes `days` as a plain integer, because the request parsing is not modelled.
- `TrackerApi.StreakOfMeals`: requires that no meal is dated after today. With a future-dated meal the streak is 0, which `TrackerApi.StreakNeedsToday` states.
- The client page's rendering, the monthly stat cards (`Analytics.js:90-113`) and the pie percentages are outside the modelled lines.

## Findings

| source | as written | input that shows it | evidently intended | confidence | as-written member | corrected member |
|---|---|---|---|---|---|---|
| backend/services/aiService.js:115-122 | `mimeTypes[ext] \|\| 'image/jpeg'` also reads the keys an object literal inherits, and their values are truthy | an image named `meal.constructor` gets the `Object` function as its MIME type | any extension outside the table maps to `image/jpeg` | not executed; follows from JavaScript property lookup | AiService.MimeTypeAsWrittenNotAString | AiService.GetMimeType |
| server/services/foodAnalyzer.js:19-26 | `mediaTypeMap[ext] \|\| 'image/jpeg'` has the same inherited-key lookup | a call with a path ending in `.__proto__` gets `Object.prototype` as its media type. The defect is latent in the application. The only caller, the upload route of `server/routes/meals.js:22-39`, refuses any extension that does not contain an image type's name, so such a path never reaches the lookup | any extension outside the table maps to `image/jpeg` | not executed; follows from JavaScript property lookup; latent behind the upload filter | FoodAnalyzer.MediaTypeAsWrittenNotAString | FoodAnalyzer.MediaType |
