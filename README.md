# health-tracker-backend, modelled in Dafny

A model of the logic inside the health-tracker REST backend. The rest of the backend is Express routing and Mongoose storage glue. The model covers four areas.

- **Per-day log store.** All of today's tracking goes to one `DailyLog` per user and calendar day. Each POST route finds today's log or creates it, changes one dimension, and saves.
  - Exercise entries and meals are appended.
  - `totalCalories` is recomputed over every food of every meal.
  - Sleep, hydration and vitals are replaced.
  - Mood is set.
  - Saving runs the schema's validators: required fields and enums.
- **Weekly statistics.** The exercise, sleep, hydration, nutrition and vitals stats routes walk a week of logs with `forEach` loops. The dashboard averages the week with `reduce`.
- **Small rules.**
  - The tracking reminder's list of untracked dimensions.
  - The shallow merge of a user's email settings.
- **Custom metrics.**
  - Definitions, with their defaults and the active-only listing.
  - Entries, with the entry query and its newest-first order.
  - The streak over consecutive days and the 30-day window statistics.

The files:
- `wrappers.dfy`: `Option`, `Result`, identifiers, and the `required` and `enum` validators.
- `time.dfy`: the day length and the floored day gap.
- `folds.dfy`: left folds as `reduce` and `forEach` compute them.
- `tally.dfy`: JS counter objects (`obj[k] = (obj[k] || 0) + 1`).
- `daily_log.dfy`: the `DailyLog` schema.
- `daily_aggregate.dfy`: the find-or-create routes and the read-today routes.
- `weekly_stats.dfy`: the stats routes and the dashboard.
- `notifications.dfy`: the reminder and the email settings.
- `custom_log_definition.dfy`, `custom_log_entry.dfy`, `custom_logs.dfy`: custom metrics.

Modelling choices:
- **Time.** Timestamps are integer milliseconds. A day starts at a multiple of 86 400 000, so days are UTC days. "now" and "today" are parameters, and the clock is never read.
- **Stores.** The log store is a class with a map keyed by (user, day). So the unique (user, date) index holds by construction. Custom definitions and entries live in a class with two sequences, in insertion order.
- **An absent field** is `None`, which matches `undefined` in the source.
- **Numbers.** Durations, calories, intakes and vitals are integers. Averages and custom numeric values are reals.
- **Loops become methods.** The stats routes and `calculateStreak` are methods with loop invariants. Each method's `ensures` ties its results to fold-based functions. The lemmas about those functions state what the routes promise.

Three consequences of the code that the model keeps:
- **Creating a day's log.** `mood` is `required` and has no default (models/DailyLog.js:13-17). When no log exists for the day, every route except POST /api/daily/mood builds a new document that fails validation, and nothing is stored (`DailyAggregate.OnlyMoodCreatesALog`).
- **Entry ownership.** POST /api/custom-logs/entries never looks the entry's definition up, so an entry may name any definition id (`CustomLogEntrySchema.NewEntry`).
- **Nested paths are never missing.** `hydration`, `sleep`, `nutrition` and `vitals` are nested paths of the schema (models/DailyLog.js:19-81), so every document has them. Hydration gets {0, 2000}, nutrition gets `meals: []`, vitals gets `medications: []`, and sleep is empty (`DailyLogSchema.NewLog`, `DailyAggregate.StoreValid`). Four consequences follow:
  - the reminder lists "Hydration", "Sleep" and "Vitals" only when there is no log at all (`Notifications.StoredLogTracksHydration`, `Notifications.StoredLogTracksSleepAndVitals`);
  - `if (log.vitals)` holds on every stored day, so each vitals average divides by the number of logs in the window (`WeeklyStats.StoredLogsAllCountForVitals`);
  - GET /api/sleep/today and /api/vitals/today return an object, not null, whenever a log exists;
  - GET /api/nutrition/today returns `{ meals: [] }` without a total for a log that has no meals yet (`DailyAggregate.MoodCreatesEmptyNestedPaths`).

## Model

| member | source | states |
|---|---|---|
| Time.DayGapIsFloor | models/CustomLogEntry.js:44 | the day gap is the floor of the millisecond difference over a day, also when the difference is negative |
| Time.WithinOneDay | models/CustomLogEntry.js:44-46 | a gap of at most one day holds exactly when the earlier instant is less than two days earlier |
| Tally.TallyTotal | api/app.js:175 | the counts of a counter built from a key list add up to the list's length |
| Tally.TallyCountAt | api/app.js:175 | each key's count is the number of times it occurs in the list |
| Tally.TallyKeys | api/app.js:175 | the counter's keys are the distinct keys, in first-seen order |
| DailyLogSchema.NewLog | models/DailyLog.js:3-28 | a fresh log has the user and day, hydration {0, 2000}, no exercises, an empty sleep, nutrition with no meals, vitals with no medications, and no mood or notes; it is invalid until a mood is set; it is valid exactly when that mood is one of the five allowed |
| DailyLogSchema.ValidExercisesAppend | models/DailyLog.js:38-49 | appending an entry keeps the list valid exactly when the entry has a type and an allowed intensity |
| DailyLogSchema.ValidMealsAppend | models/DailyLog.js:51-55 | appending a meal keeps the list valid exactly when its type is allowed |
| DailyAggregate.TodayRangeFindsTodayKey | api/app.js:99-105 | the query for [today, today + 24h) matches the log stored under (user, today) and no other log of the user |
| DailyAggregate.MealsCaloriesOverAllFoods | api/app.js:502-504 | the nested reduce equals the sum of `calories` over every food of every meal |
| DailyAggregate.Track | api/app.js:99-124 | a successful save stores a valid log under (user, today), with that user and date; a rejected save leaves the store unchanged |
| DailyAggregate.TrackPreservesStoreValid | models/DailyLog.js:87 | every POST keeps each log under its own (user, date) key, at a midnight, valid, and with the hydration, sleep, nutrition and vitals paths |
| DailyAggregate.OnlyMoodCreatesALog | api/app.js:107-124 | on a day without a log every route except mood is rejected and stores nothing |
| DailyAggregate.ExercisePostAppends | api/app.js:107-124 | the exercise post succeeds iff today's log exists and the entry is valid; the list becomes the old list plus that entry; nothing else changes |
| DailyAggregate.TwoExercisePostsKeepOrder | api/app.js:115-122 | two posts on one day leave both entries after the earlier ones, in posting order, and no new log |
| DailyAggregate.MoodPostSetsMood | api/app.js:447-455 | the mood post succeeds iff the mood is allowed; it sets only the mood of the existing log, or creates exactly one new log |
| DailyAggregate.MoodCreatesEmptyNestedPaths | models/DailyLog.js:28-81 | the log the mood route creates has an empty sleep, nutrition `{ meals: [] }` with no total, and vitals with no medications |
| DailyAggregate.SleepPostReplacesSleep | api/app.js:209-215 | the sleep post succeeds iff today's log exists and the quality is allowed; it replaces only the sleep |
| DailyAggregate.HydrationPostReplacesHydration | api/app.js:344-347 | the hydration post succeeds iff today's log exists; it replaces only the hydration |
| DailyAggregate.VitalsPostReplacesVitals | api/app.js:616-621 | the vitals post succeeds iff today's log exists; it replaces only the vitals |
| DailyAggregate.VitalsLastWriteWins | api/app.js:600-621 | two vitals posts on one day leave one log, holding the second payload |
| DailyAggregate.AddMealToLog | api/app.js:491-504 | the meals become the old meals (none without nutrition) plus the new meal; `totalCalories` is every food's calories, i.e. the old total plus the new meal's; nothing else changes; validity iff all meal types are allowed |
| DailyAggregate.MealPostAppendsAndTotals | api/app.js:481-506 | the nutrition post succeeds iff today's log exists and the meal type is allowed, and then stores the log with the meal appended |
| DailyAggregate.VitalsFromBody | api/app.js:616-621 | weight and heart rate are kept only when non-zero (`|| undefined`), and medications default to []; blood pressure is passed through as given |
| DailyAggregate.DailyLogStore.Upsert | api/app.js:99-124 | find-or-create, change, save: the response and new store are what `Track` gives, and the store invariant is kept |
| DailyAggregate.DailyLogStore.PostExercise | api/app.js:91-129 | POST /api/exercise appends the entry built from the body, as `Track` describes |
| DailyAggregate.DailyLogStore.PostSleep | api/app.js:186-222 | POST /api/sleep replaces the sleep with the one built from the body |
| DailyAggregate.DailyLogStore.PostHydration | api/app.js:321-354 | POST /api/hydration replaces the hydration |
| DailyAggregate.DailyLogStore.PostMood | api/app.js:431-462 | POST /api/daily/mood sets the mood, creating the log if needed |
| DailyAggregate.DailyLogStore.PostMeal | api/app.js:465-511 | POST /api/nutrition appends the meal and recomputes the total |
| DailyAggregate.DailyLogStore.PostVitals | api/app.js:592-628 | POST /api/vitals replaces the vitals with the ones built from the body |
| DailyAggregate.DailyLogStore.DailyToday | api/app.js:412-429 | today's log when one is stored, else none; a stored one is valid and has that user and date |
| DailyAggregate.DailyLogStore.ExerciseToday | api/app.js:131-148 | today's exercise list, or [] without a log |
| DailyAggregate.DailyLogStore.HydrationToday | api/app.js:356-373 | today's hydration, or {0, 2000} without a log |
| DailyAggregate.DailyLogStore.SleepToday | api/app.js:224-241 | today's sleep, or null; for a valid store, null only when there is no log |
| DailyAggregate.DailyLogStore.NutritionToday | api/app.js:513-531 | today's stored nutrition; for a valid store, exactly the stored nutrition whenever a log exists; no meals with total 0 only when there is no log (or, outside a valid store, no nutrition) |
| DailyAggregate.DailyLogStore.VitalsToday | api/app.js:630-647 | today's vitals, or null; for a valid store, null only when there is no log |
| WeeklyStats.AverageScales | api/app.js:276 | a guarded average times its day count is the total |
| WeeklyStats.ComputeExerciseStats | api/app.js:150-184 | the totals are the sums of list lengths, durations and calories, a missing value counting 0; `workoutsByType` is the tally of every entry's type |
| WeeklyStats.WorkoutsByTypeSumToTotal | api/app.js:168-177 | the counts in `workoutsByType` sum to `totalWorkouts` |
| WeeklyStats.WorkoutsByTypeCounts | api/app.js:175 | each type's count is how often it occurs; types are listed once, in first-seen order |
| WeeklyStats.ComputeSleepStats | api/app.js:243-283 | `daysLogged` counts logs with a non-zero duration; the total sums those durations; quality buckets are the fold `Qualities`, whose per-bucket meaning `QualityBucketCounts` states; the average is guarded |
| WeeklyStats.QualityBucketsBounded | api/app.js:266-274 | the quality buckets hold at most `daysLogged` |
| WeeklyStats.BucketsCountAllowedQualityDays | api/app.js:266-274 | when every quality lies in the four buckets, the buckets hold exactly the logged days that have a quality |
| WeeklyStats.QualityBucketCounts | api/app.js:266-274 | each of the four buckets holds exactly the logged days whose quality is that bucket's name |
| WeeklyStats.QualityBucketsCountQualityDays | api/app.js:266-274 | for valid logs the buckets hold exactly the logged days that have a quality |
| WeeklyStats.NoSleepDaysNoHours | api/app.js:276 | with no logged day the total and the average are 0 |
| WeeklyStats.ComputeHydrationStats | api/app.js:375-409 | `daysLogged` counts non-zero intakes; the total sums them; `targetAchievedDays` counts those reaching the target; the average is guarded |
| WeeklyStats.TargetDaysWithinLoggedDays | api/app.js:393-401 | `targetAchievedDays` never exceeds `daysLogged` |
| WeeklyStats.NoHydrationDaysNoIntake | api/app.js:403 | with no logged day the total and the average are 0 |
| WeeklyStats.MealTypesSumToTotalMeals | api/app.js:556-576 | the counts in `mealTypeDistribution` sum to `totalMeals` |
| WeeklyStats.SumMacros | api/app.js:567-571 | the protein, carbs and fats of a meal's foods, a missing value counting 0 |
| WeeklyStats.DayMeals | api/app.js:562-572 | one day's meals: the types are tallied in order and the macros summed |
| WeeklyStats.AddDayFields | api/app.js:559-575 | one day adds its day, meals, calories, macros and meal types; a day without meals adds zero and no type |
| WeeklyStats.TotalsOfMeaning | api/app.js:556-576 | each gathered field is its fold over the window: days with meals, meals, calories, macros, and the meal-type tally in order |
| WeeklyStats.NutritionSums | api/app.js:556-576 | over days with meals: the day count, meal count, calories and macro sums, and the meal-type tally |
| WeeklyStats.ComputeNutritionStats | api/app.js:532-590 | the averages divide the sums by the days with meals, and are 0 when there are none |
| WeeklyStats.ComputeVitalsStats | api/app.js:649-702 | every average divides its field's sum by the days with any vitals record; medications are counted |
| WeeklyStats.VitalsAverageUsesAnyVitalsDay | api/app.js:690-695 | among three stored logs, one weighing 90 and two with never-posted (empty) vitals, the average weight is 30 |
| WeeklyStats.StoredLogsAllCountForVitals | api/app.js:669-671 | when every log has the vitals path, as stored logs do, the vitals divisor is the number of logs |
| WeeklyStats.DashWaterIsIntake | api/app.js:311 | the dashboard's water sum equals the hydration stats' total |
| WeeklyStats.DashSleepIsSleepHours | api/app.js:312 | the dashboard's sleep sum equals the sleep stats' total |
| WeeklyStats.Dashboard | api/app.js:285-319 | `totalWorkouts` is the sum of the exercise counts, which is also the total of the type tally; the averages are the hydration and sleep totals over the number of logs, 0 for an empty week |
| Notifications.NameInjective | api/app.js:791-796 | the five reported names are distinct |
| Notifications.UntrackedMembers | api/app.js:791-796 | a dimension is among the untracked ones exactly when today's log lacks it |
| Notifications.UntrackedNames | api/app.js:791-796 | each of the five names is reported exactly when today's log lacks that dimension |
| Notifications.UntrackedNamesDims | api/app.js:791-796 | the reported list is, position by position, the names of the untracked dimensions |
| Notifications.UntrackedOrdered | api/app.js:791-796 | the untracked dimensions keep the fixed checking order, so none is listed twice |
| Notifications.NoLogListsEverything | api/app.js:791-796 | with no log today all five names are listed, in order |
| Notifications.StoredLogTracksHydration | api/app.js:793 | for a store-valid map, "Hydration" is listed exactly when there is no log today |
| Notifications.StoredLogTracksSleepAndVitals | api/app.js:795-796 | for a store-valid map, "Sleep" and "Vitals" are each listed exactly when there is no log today |
| Notifications.MoodOnlyLogReminder | api/app.js:791-796 | a freshly created log that holds only a mood is reminded of exactly Exercise and Nutrition |
| Notifications.TrackingReminder | api/app.js:778-806 | builds the untracked list; an email is sent exactly when the list is non-empty, and it carries the list |
| Notifications.Merge | api/app.js:833-836 | the keys are the old keys plus the body's; body values override; other old values are kept |
| Notifications.MergeIdempotent | api/app.js:833-836 | repeating an update changes nothing |
| Notifications.MergeTwice | api/app.js:833-836 | two updates equal one update with their union, the later winning |
| Notifications.MergeEmptyBody | api/app.js:833-836 | an empty body keeps the settings as they are |
| Notifications.User.GetEmailSettings | api/app.js:821-828 | the stored settings |
| Notifications.User.UpdateEmailSettings | api/app.js:830-842 | the stored settings become the merge of the old ones and the body, and are returned |
| CustomLogDefinitionSchema.WithDefaults | models/CustomLogDefinition.js:3-48 | the route's user replaces the body's; trackStreak defaults to true, reminderEnabled to false, category to "other", active to true; name, description, fieldType, icon, color, reminderTime and each given option are kept, and missing choices become [] |
| CustomLogDefinitionSchema.NewDefinition | models/CustomLogDefinition.js:4-44 | saved iff the name is non-empty, fieldType is one of five, and the category is absent or one of seven |
| CustomLogDefinitionSchema.MinimalDefinition | models/CustomLogDefinition.js:31-48 | a body with only a name and field type gets every default |
| CustomLogDefinitionSchema.BodyUserIgnored | api/app.js:866-869 | the body's `user` never reaches the document |
| CustomLogDefinitionSchema.ActiveFor | api/app.js:877-888 | lists exactly the user's active definitions |
| CustomLogDefinitionSchema.CreatedDefinitionIsListed | models/CustomLogDefinition.js:45-48 | a definition saved without `active: false` is appended to its owner's listing; other users' listings are unchanged |
| CustomLogEntrySchema.NewEntry | models/CustomLogEntry.js:3-23 | saved iff definition, date and value are given; tags default to []; the user is the authenticated one |
| CustomLogEntrySchema.Select | models/CustomLogEntry.js:64-68 | exactly the entries matching user, definition and window |
| CustomLogEntrySchema.SelectCounts | models/CustomLogEntry.js:64-68 | each matching entry is kept as often as it is stored |
| CustomLogEntrySchema.NewestFirstFacts | models/CustomLogEntry.js:36 | the reference sort is newest first and a permutation |
| CustomLogEntrySchema.StreakRun | models/CustomLogEntry.js:42-54 | the streak is at most the number of entries |
| CustomLogEntrySchema.StreakIsLongestRun | models/CustomLogEntry.js:42-53 | every counted entry is within a day of its reference (now, then the previous entry), and the first uncounted one is not |
| CustomLogEntrySchema.StreakRunUnique | models/CustomLogEntry.js:42-53 | conversely, a length with those two properties is the streak |
| CustomLogEntrySchema.StreakIgnoresLaterEntries | models/CustomLogEntry.js:46-51 | entries after the break never change the streak |
| CustomLogEntrySchema.StaleFirstEntryBreaks | models/CustomLogEntry.js:40-50 | a newest entry two or more days before now gives streak 0 |
| CustomLogEntrySchema.ThreeDayStreak | models/CustomLogEntry.js:38-54 | entries today, yesterday and the day before give 3 |
| CustomLogEntrySchema.GapBreaksStreak | models/CustomLogEntry.js:38-54 | entries today and three days ago give 1 |
| CustomLogEntrySchema.CalculateStreak | models/CustomLogEntry.js:32-60 | the loop's current streak is the streak; longest equals current; no entries give 0 and 0 |
| CustomLogEntrySchema.MinMaxBounds | models/CustomLogEntry.js:78-79 | min and max bound every value and are values of the window |
| CustomLogEntrySchema.SumAtLeast | models/CustomLogEntry.js:80 | a sum of values each at least c is at least n times c |
| CustomLogEntrySchema.SumAtMost | models/CustomLogEntry.js:80 | a sum of values each at most c is at most n times c |
| CustomLogEntrySchema.Summarize | models/CustomLogEntry.js:70-81 | total is the count; the per-week and per-month averages are 0; value stats exist iff the window is non-empty and its first value is a number; when all values are numbers, min and max are values of the window that bound every value, and the average is their sum over their count |
| CustomLogEntrySchema.GetStatistics | models/CustomLogEntry.js:63-84 | total is the number of the user's entries of the definition with start <= date <= end; 0 means there are none |
| CustomLogs.EntriesQuery | api/app.js:910-920 | the filter always has the user; it has the definition when one is given, and a window only when both dates are given |
| CustomLogs.OneBoundIsIgnored | api/app.js:916-921 | a single date bound filters nothing |
| CustomLogs.UnfilteredQueryIsTheUsersEntries | api/app.js:910-914 | with no filters the query returns exactly the user's entries |
| CustomLogs.CustomLogStore.CreateDefinition | api/app.js:864-875 | a definition that validates is appended; otherwise nothing changes |
| CustomLogs.CustomLogStore.ListDefinitions | api/app.js:877-888 | exactly the stored active definitions of the user |
| CustomLogs.CustomLogStore.CreateEntry | api/app.js:890-906 | an entry with its required fields is appended; otherwise nothing changes |
| CustomLogs.CustomLogStore.QueryEntries | api/app.js:908-930 | the matching entries, newest first, each as often as stored |
| CustomLogs.CustomLogStore.Stats | api/app.js:932-950 | the streak over the definition's entries newest first from now, and the statistics of [now - 30 days, now] |
| CustomLogs.CustomLogStore.StoredEntryIsQueried | api/app.js:908-930 | a stored entry is returned by its owner's unfiltered and per-definition queries |

## Left out

- Registration, login and the JWT middleware (api/app.js:19-88): password hashing and token signing are foreign calls; every route takes the authenticated user id as a parameter.
- The weekly-report route (api/app.js:704-776): it runs database-side `$group` pipelines and forwards the result to the mailer. The milestone and test-email routes only call the mailer. services/emailService.js (SMTP and HTML templates) is not part of this model; `TrackingReminder` returns the list it would mail.
- The database queries themselves. The stats methods take the week's logs as a sequence, so the `date >= weekAgo` window query is not modelled. Also left out: `populate('definition')`, the process bootstrap in app.js, and the find-then-create race between concurrent requests. The model is sequential.
- Local time zones and daylight saving. `setHours(0, 0, 0, 0)`, `setDate(getDate() - 7)` and `- 30` become UTC day arithmetic: 7 and 30 times 86 400 000 ms.
- JavaScript `Number()` coercion, NaN and IEEE floating point. Numeric fields are integers and averages are exact reals. A request that omits a number or date the route passes on (duration or caloriesBurned on POST /api/exercise, sleepTime or wakeTime on POST /api/sleep, a food's calories) makes `save()` fail with a cast error in the source; the routes' integer parameters cannot express such a request.
- Mongoose's nested-path objects outside the store. Stored logs always have their nested paths, but the stats functions accept any sequence of logs, so a log built without a nested path (`None`) is also accepted. The lemmas that depend on the paths say so in their preconditions: `StoredLogTracksSleepAndVitals` requires a valid store, and `StoredLogsAllCountForVitals` requires every log to have vitals.
- The order of the keys of a counter object. The model keeps first-seen order. JavaScript lists integer-like keys first, and the keys here are type names.
- The order of entries with equal dates after `sort({ date: -1 })`. `NewestFirst` is one stable choice. The streak depends only on the dates, so it does not depend on that choice.
- Tally.Bump: `obj[k] = (obj[k] || 0) + 1` on a `{}` reads inherited properties of Object.prototype. A free-text exercise type such as "constructor" or "toString" would produce a string count, and "__proto__" would add no key. The model counts such a key like any other, so `TallyTotal` and `TallyCountAt` do not cover them.
- WeeklyStats.CountQuality: a sleep quality outside the four buckets is ignored. In JavaScript it would add a NaN-valued key. Validation never stores one.
- CustomLogEntrySchema.Summarize: when the first value is a number but a later one is not, the result is only marked `Coerced`. JavaScript would coerce booleans to 0/1 and yield NaN or string concatenation for text.
- CustomLogs.CustomLogStore.Stats: `definitionId` is always given. A missing query parameter, which would make the database filter behave differently, is not modelled.
- The `notes` the exercise and sleep routes pass, and other body fields the schema does not declare, are dropped, as Mongoose's strict mode drops them.
- The `timestamps` fields (`createdAt`, `updatedAt`) are not modelled.
