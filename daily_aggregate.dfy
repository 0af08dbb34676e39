/**
 * The per-day log store and the find-or-create upsert run by every
 * "track a dimension" route: look up the caller's log for today, create one
 * if there is none, change the addressed dimension, then save, which
 * validates the whole document.
 */
module DailyAggregate {
  import opened Wrappers
  import opened Ids
  import opened Time
  import opened Folds
  import opened DailyLogSchema

  /** The unique index on (user, date). */
  datatype LogKey = LogKey(user: UserId, day: int)

  type LogMap = map<LogKey, DailyLog>

  /**
   * What every stored log satisfies: it sits under its own (user, date) key,
   * its date is a midnight, it passed validation, and it carries the
   * hydration defaults and the nested sleep, nutrition and vitals paths that
   * every document has.
   */
  predicate StoreValid(logs: LogMap) {
    forall k | k in logs ::
      && logs[k].user == k.user && logs[k].date == k.day
      && IsDayStart(k.day)
      && ValidLog(logs[k])
      && logs[k].hydration.Some?
      && logs[k].sleep.Some? && logs[k].nutrition.Some? && logs[k].vitals.Some?
  }

  /**
   * The query `date >= today && date < today + 24h` finds the log stored under
   * (user, today) and no other.
   */
  lemma TodayRangeFindsTodayKey(logs: LogMap, user: UserId, today: int, k: LogKey)
    requires StoreValid(logs) && IsDayStart(today)
    requires k in logs && k.user == user
    ensures today <= logs[k].date < today + DayMs <==> k == LogKey(user, today)
  {
    if today <= logs[k].date < today + DayMs {
      DayStartsInOneDayAreEqual(logs[k].date, today);
    }
  }

  /** The change one POST route makes to the day's log. */
  datatype Change =
    | AddExercise(entry: Exercise)
    | SetSleep(sleep: Sleep)
    | SetHydration(hydration: Hydration)
    | SetMood(mood: Option<string>)
    | AddMeal(meal: Meal)
    | SetVitals(vitals: Vitals)

  function FoodCalories(f: Food): int {
    f.calories
  }

  function MealCalories(m: Meal): int {
    SumOf(m.foods, FoodCalories)
  }

  /** `meals.reduce((t, meal) => t + meal.foods.reduce((mt, food) => mt + food.calories, 0), 0)`. */
  function MealsCalories(meals: seq<Meal>): int {
    SumOf(meals, MealCalories)
  }

  /** Every food of every meal, in order. */
  function AllFoods(meals: seq<Meal>): seq<Food> {
    if meals == [] then [] else AllFoods(meals[..|meals| - 1]) + meals[|meals| - 1].foods
  }

  /** The nested reduce is the sum of `calories` over every food of every meal. */
  lemma {:induction false} MealsCaloriesOverAllFoods(meals: seq<Meal>)
    ensures MealsCalories(meals) == SumOf(AllFoods(meals), FoodCalories)
  {
    if meals != [] {
      var init := meals[..|meals| - 1];
      MealsCaloriesOverAllFoods(init);
      SumOfAppend(AllFoods(init), meals[|meals| - 1].foods, FoodCalories);
    }
  }

  /** Nutrition as the routes find it: `nutrition || { meals: [] }`. */
  function NutritionOrEmpty(log: DailyLog): Nutrition {
    log.nutrition.GetOr(Nutrition([], None, None, None))
  }

  function Apply(log: DailyLog, c: Change): DailyLog {
    match c
    case AddExercise(e) => log.(exercise := log.exercise + [e])
    case SetSleep(s) => log.(sleep := Some(s))
    case SetHydration(h) => log.(hydration := Some(h))
    case SetMood(m) => log.(mood := m)
    case AddMeal(m) =>
      var n := NutritionOrEmpty(log);
      var meals := n.meals + [m];
      log.(nutrition := Some(n.(meals := meals, totalCalories := Some(MealsCalories(meals)))))
    case SetVitals(v) => log.(vitals := Some(v))
  }

  /** `findOne(...)`, or `new DailyLog({ user, date: today })` when there is none. */
  function FindOrCreate(logs: LogMap, user: UserId, today: int): DailyLog {
    var key := LogKey(user, today);
    if key in logs then logs[key] else NewLog(user, today)
  }

  /** The response of a POST route and the store after it. */
  datatype Posted = Posted(result: Result<DailyLog, SaveError>, logs: LogMap)

  /**
   * One POST route: find or create today's log, change it, save it. A save
   * that fails validation leaves the store as it was.
   */
  function Track(logs: LogMap, user: UserId, today: int, c: Change): (p: Posted)
    ensures p.result.Ok? ==> p.logs == logs[LogKey(user, today) := p.result.value]
    ensures p.result.Ok? ==> ValidLog(p.result.value)
    ensures p.result.Ok? && StoreValid(logs) ==> p.result.value.user == user && p.result.value.date == today
    ensures p.result.Err? ==> p.logs == logs
  {
    var log := Apply(FindOrCreate(logs, user, today), c);
    if ValidLog(log) then Posted(Ok(log), logs[LogKey(user, today) := log])
    else Posted(Err(ValidationError), logs)
  }

  /** Every route keeps the store's invariant, the (user, date) uniqueness included. */
  lemma TrackPreservesStoreValid(logs: LogMap, user: UserId, today: int, c: Change)
    requires StoreValid(logs) && IsDayStart(today)
    ensures StoreValid(Track(logs, user, today, c).logs)
  {
  }

  /**
   * `mood` is required and has no default, so on a day without a log every
   * route but the mood route builds a document that fails validation: the
   * save is rejected and nothing is stored.
   */
  lemma OnlyMoodCreatesALog(logs: LogMap, user: UserId, today: int, c: Change)
    requires LogKey(user, today) !in logs
    requires !c.SetMood?
    ensures Track(logs, user, today, c).result.Err?
    ensures Track(logs, user, today, c).logs == logs
  {
  }

  /**
   * POST /api/exercise succeeds exactly when today's log exists and the entry
   * is valid; it then appends exactly that entry after the earlier ones and
   * changes nothing else.
   */
  lemma ExercisePostAppends(logs: LogMap, user: UserId, today: int, e: Exercise)
    requires StoreValid(logs)
    ensures var key := LogKey(user, today);
      var p := Track(logs, user, today, AddExercise(e));
      && (p.result.Ok? <==> key in logs && ValidExercise(e))
      && (p.result.Ok? ==>
            && p.result.value.exercise == logs[key].exercise + [e]
            && p.result.value.(exercise := logs[key].exercise) == logs[key])
  {
    var key := LogKey(user, today);
    var log := FindOrCreate(logs, user, today);
    ValidExercisesAppend(log.exercise, e);
  }

  /** Two exercise posts on the same day leave both entries, in posting order. */
  lemma TwoExercisePostsKeepOrder(logs: LogMap, user: UserId, today: int, e1: Exercise, e2: Exercise)
    requires StoreValid(logs) && IsDayStart(today)
    requires LogKey(user, today) in logs
    requires ValidExercise(e1) && ValidExercise(e2)
    ensures var p1 := Track(logs, user, today, AddExercise(e1));
      var p2 := Track(p1.logs, user, today, AddExercise(e2));
      && p2.result.Ok?
      && p2.logs.Keys == logs.Keys
      && p2.result.value.exercise == logs[LogKey(user, today)].exercise + [e1, e2]
  {
    var key := LogKey(user, today);
    ExercisePostAppends(logs, user, today, e1);
    var p1 := Track(logs, user, today, AddExercise(e1));
    TrackPreservesStoreValid(logs, user, today, AddExercise(e1));
    ExercisePostAppends(p1.logs, user, today, e2);
    assert logs[key].exercise + [e1] + [e2] == logs[key].exercise + [e1, e2];
  }

  /**
   * POST /api/daily/mood is the one route that can create a log: it succeeds
   * exactly when the mood is one of the allowed values, and it sets only the
   * mood of the existing or new log.
   */
  lemma MoodPostSetsMood(logs: LogMap, user: UserId, today: int, m: Option<string>)
    requires StoreValid(logs)
    ensures var key := LogKey(user, today);
      var p := Track(logs, user, today, SetMood(m));
      && (p.result.Ok? <==> m.Some? && m.value in Moods)
      && (p.result.Ok? && key in logs ==> p.result.value == logs[key].(mood := m))
      && (p.result.Ok? && key !in logs ==>
            p.result.value == NewLog(user, today).(mood := m) && |p.logs| == |logs| + 1)
  {
  }

  /**
   * The log the mood route creates has the nested sleep, nutrition and vitals
   * paths, empty: no sleep fields, `{ meals: [] }` with no total, and vitals
   * with no medications.
   */
  lemma MoodCreatesEmptyNestedPaths(logs: LogMap, user: UserId, today: int, m: string)
    requires LogKey(user, today) !in logs && m in Moods
    ensures var p := Track(logs, user, today, SetMood(Some(m)));
      && p.result.Ok?
      && p.result.value.sleep == Some(Sleep(None, None, None, None))
      && p.result.value.nutrition == Some(Nutrition([], None, None, None))
      && p.result.value.vitals == Some(Vitals(None, None, None, []))
  {
  }

  /**
   * POST /api/sleep replaces the sleep sub-document of an existing log and
   * nothing else; an unknown quality is rejected.
   */
  lemma SleepPostReplacesSleep(logs: LogMap, user: UserId, today: int, s: Sleep)
    requires StoreValid(logs)
    ensures var key := LogKey(user, today);
      var p := Track(logs, user, today, SetSleep(s));
      && (p.result.Ok? <==> key in logs && ValidSleep(s))
      && (p.result.Ok? ==> p.result.value.sleep == Some(s) && p.result.value.(sleep := logs[key].sleep) == logs[key])
  {
  }

  /** POST /api/hydration replaces the hydration sub-document of an existing log and nothing else. */
  lemma HydrationPostReplacesHydration(logs: LogMap, user: UserId, today: int, h: Hydration)
    requires StoreValid(logs)
    ensures var key := LogKey(user, today);
      var p := Track(logs, user, today, SetHydration(h));
      && (p.result.Ok? <==> key in logs)
      && (p.result.Ok? ==> p.result.value.hydration == Some(h) && p.result.value.(hydration := logs[key].hydration) == logs[key])
  {
  }

  /** POST /api/vitals replaces the vitals sub-document of an existing log and nothing else. */
  lemma VitalsPostReplacesVitals(logs: LogMap, user: UserId, today: int, v: Vitals)
    requires StoreValid(logs)
    ensures var key := LogKey(user, today);
      var p := Track(logs, user, today, SetVitals(v));
      && (p.result.Ok? <==> key in logs)
      && (p.result.Ok? ==> p.result.value.vitals == Some(v) && p.result.value.(vitals := logs[key].vitals) == logs[key])
  {
  }

  /**
   * Two vitals posts on the same day leave one log, holding the second
   * payload: last write wins, no second record.
   */
  lemma VitalsLastWriteWins(logs: LogMap, user: UserId, today: int, v1: Vitals, v2: Vitals)
    requires StoreValid(logs) && IsDayStart(today)
    requires LogKey(user, today) in logs
    ensures var key := LogKey(user, today);
      var p1 := Track(logs, user, today, SetVitals(v1));
      var p2 := Track(p1.logs, user, today, SetVitals(v2));
      && p2.logs.Keys == logs.Keys
      && p2.logs[key] == logs[key].(vitals := Some(v2))
  {
  }

  /**
   * Adding a meal to one log: the meals found (none when the log had no
   * nutrition) get the meal appended, `totalCalories` becomes the calories of
   * every food of every meal, which is the old meals' total plus the new
   * meal's, and nothing else changes.
   */
  lemma AddMealToLog(log: DailyLog, m: Meal)
    ensures var n := Apply(log, AddMeal(m)).nutrition;
      var old_meals := NutritionOrEmpty(log).meals;
      && n.Some?
      && n.value.meals == old_meals + [m]
      && n.value.totalCalories == Some(SumOf(AllFoods(old_meals + [m]), FoodCalories))
      && n.value.totalCalories == Some(MealsCalories(old_meals) + SumOf(m.foods, FoodCalories))
      && Apply(log, AddMeal(m)).(nutrition := log.nutrition) == log
    ensures ValidLog(Apply(log, AddMeal(m))) <==>
      ValidLog(log.(nutrition := None)) && ValidMeals(NutritionOrEmpty(log).meals) && ValidMeal(m)
  {
    var meals := NutritionOrEmpty(log).meals;
    ValidMealsAppend(meals, m);
    MealsCaloriesOverAllFoods(meals + [m]);
    SumOfAppend(meals, [m], MealCalories);
    assert SumOf([m], MealCalories) == MealCalories(m) by {
      assert [m][..0] == [];
    }
  }

  /**
   * POST /api/nutrition succeeds exactly when today's log exists and the new
   * meal's type is allowed, and then changes only that log's nutrition, as
   * AddMealToLog describes.
   */
  lemma MealPostAppendsAndTotals(logs: LogMap, user: UserId, today: int, m: Meal)
    requires StoreValid(logs)
    ensures var key := LogKey(user, today);
      var p := Track(logs, user, today, AddMeal(m));
      && (p.result.Ok? <==> (key in logs && ValidMeal(m)))
      && (p.result.Ok? ==> p.result.value == Apply(logs[key], AddMeal(m)))
  {
    var key := LogKey(user, today);
    AddMealToLog(FindOrCreate(logs, user, today), m);
  }

  /** `duration: Number(duration)` and friends, the entry POST /api/exercise pushes. */
  function ExerciseFromBody(kind: Option<string>, duration: int, intensity: Option<string>, caloriesBurned: int): Exercise {
    Exercise(kind, Some(duration), intensity, Some(caloriesBurned))
  }

  function SleepFromBody(duration: int, quality: Option<string>, sleepTime: int, wakeTime: int): Sleep {
    Sleep(Some(duration), quality, Some(sleepTime), Some(wakeTime))
  }

  /** `x || undefined` on a number: zero becomes absent. */
  function Truthy(x: Option<int>): Option<int> {
    if x.Some? && x.value != 0 then x else None
  }

  /** The vitals sub-document POST /api/vitals builds from the request body. */
  function VitalsFromBody(weight: Option<int>, bloodPressure: Option<BloodPressure>, heartRate: Option<int>, medications: Option<seq<Medication>>): (v: Vitals)
    ensures v.weight.Some? <==> weight.Some? && weight.value != 0
    ensures v.weight.Some? ==> v.weight == weight
    ensures v.heartRate.Some? <==> heartRate.Some? && heartRate.value != 0
    ensures v.heartRate.Some? ==> v.heartRate == heartRate
    ensures v.bloodPressure == bloodPressure
    ensures v.medications == if medications.Some? then medications.value else []
  {
    Vitals(Truthy(weight), bloodPressure, Truthy(heartRate), medications.GetOr([]))
  }

  /** The DailyLog collection, one document per (user, day). */
  class DailyLogStore {
    var logs: LogMap

    ghost predicate Valid()
      reads this
    {
      StoreValid(logs)
    }

    constructor ()
      ensures Valid() && logs == map[]
    {
      logs := map[];
    }

    /** The shared find-or-create, change, save sequence. */
    method Upsert(user: UserId, today: int, c: Change) returns (r: Result<DailyLog, SaveError>)
      requires Valid() && IsDayStart(today)
      modifies this
      ensures Valid()
      ensures Posted(r, logs) == Track(old(logs), user, today, c)
    {
      TrackPreservesStoreValid(logs, user, today, c);
      var key := LogKey(user, today);
      var log: DailyLog;
      if key in logs {
        log := logs[key];
      } else {
        log := NewLog(user, today);
      }
      log := Apply(log, c);
      if ValidLog(log) {
        logs := logs[key := log];
        r := Ok(log);
      } else {
        r := Err(ValidationError);
      }
    }

    /** POST /api/exercise. */
    method PostExercise(user: UserId, today: int, kind: Option<string>, duration: int, intensity: Option<string>, caloriesBurned: int)
      returns (r: Result<DailyLog, SaveError>)
      requires Valid() && IsDayStart(today)
      modifies this
      ensures Valid()
      ensures Posted(r, logs) == Track(old(logs), user, today, AddExercise(ExerciseFromBody(kind, duration, intensity, caloriesBurned)))
    {
      r := Upsert(user, today, AddExercise(ExerciseFromBody(kind, duration, intensity, caloriesBurned)));
    }

    /** POST /api/sleep. */
    method PostSleep(user: UserId, today: int, duration: int, quality: Option<string>, sleepTime: int, wakeTime: int)
      returns (r: Result<DailyLog, SaveError>)
      requires Valid() && IsDayStart(today)
      modifies this
      ensures Valid()
      ensures Posted(r, logs) == Track(old(logs), user, today, SetSleep(SleepFromBody(duration, quality, sleepTime, wakeTime)))
    {
      r := Upsert(user, today, SetSleep(SleepFromBody(duration, quality, sleepTime, wakeTime)));
    }

    /** POST /api/hydration. */
    method PostHydration(user: UserId, today: int, waterIntake: int, target: int)
      returns (r: Result<DailyLog, SaveError>)
      requires Valid() && IsDayStart(today)
      modifies this
      ensures Valid()
      ensures Posted(r, logs) == Track(old(logs), user, today, SetHydration(Hydration(waterIntake, target)))
    {
      r := Upsert(user, today, SetHydration(Hydration(waterIntake, target)));
    }

    /** POST /api/daily/mood. */
    method PostMood(user: UserId, today: int, mood: Option<string>)
      returns (r: Result<DailyLog, SaveError>)
      requires Valid() && IsDayStart(today)
      modifies this
      ensures Valid()
      ensures Posted(r, logs) == Track(old(logs), user, today, SetMood(mood))
    {
      r := Upsert(user, today, SetMood(mood));
    }

    /** POST /api/nutrition. */
    method PostMeal(user: UserId, today: int, meal: Meal)
      returns (r: Result<DailyLog, SaveError>)
      requires Valid() && IsDayStart(today)
      modifies this
      ensures Valid()
      ensures Posted(r, logs) == Track(old(logs), user, today, AddMeal(meal))
    {
      r := Upsert(user, today, AddMeal(meal));
    }

    /** POST /api/vitals. */
    method PostVitals(user: UserId, today: int, weight: Option<int>, bloodPressure: Option<BloodPressure>, heartRate: Option<int>, medications: Option<seq<Medication>>)
      returns (r: Result<DailyLog, SaveError>)
      requires Valid() && IsDayStart(today)
      modifies this
      ensures Valid()
      ensures Posted(r, logs) == Track(old(logs), user, today, SetVitals(VitalsFromBody(weight, bloodPressure, heartRate, medications)))
    {
      r := Upsert(user, today, SetVitals(VitalsFromBody(weight, bloodPressure, heartRate, medications)));
    }

    /** GET /api/daily/today: the whole log, or nothing (`{}`). */
    function DailyToday(user: UserId, today: int): (r: Option<DailyLog>)
      reads this
      ensures r.Some? <==> LogKey(user, today) in logs
      ensures r.Some? ==> r.value == logs[LogKey(user, today)]
      ensures r.Some? && Valid() ==> r.value.user == user && r.value.date == today && ValidLog(r.value)
    {
      var key := LogKey(user, today);
      if key in logs then Some(logs[key]) else None
    }

    /** GET /api/exercise/today: `dailyLog?.exercise || []`. */
    function ExerciseToday(user: UserId, today: int): (r: seq<Exercise>)
      reads this
      ensures LogKey(user, today) !in logs ==> r == []
      ensures LogKey(user, today) in logs ==> r == logs[LogKey(user, today)].exercise
    {
      var log := DailyToday(user, today);
      if log.Some? then log.value.exercise else []
    }

    /** GET /api/hydration/today: `dailyLog?.hydration || { waterIntake: 0, target: 2000 }`. */
    function HydrationToday(user: UserId, today: int): (r: Hydration)
      requires Valid()
      reads this
      ensures LogKey(user, today) !in logs ==> r == Hydration(0, 2000)
      ensures LogKey(user, today) in logs ==> Some(r) == logs[LogKey(user, today)].hydration
    {
      var log := DailyToday(user, today);
      if log.Some? && log.value.hydration.Some? then log.value.hydration.value
      else Hydration(DefaultWaterIntake, DefaultHydrationTarget)
    }

    /**
     * GET /api/sleep/today: `dailyLog?.sleep || null`. A stored log always
     * has the nested sleep path, so null comes back only when there is no log.
     */
    function SleepToday(user: UserId, today: int): (r: Option<Sleep>)
      reads this
      ensures LogKey(user, today) !in logs ==> r.None?
      ensures LogKey(user, today) in logs ==> r == logs[LogKey(user, today)].sleep
      ensures Valid() && LogKey(user, today) in logs ==> r.Some?
    {
      var log := DailyToday(user, today);
      if log.Some? then log.value.sleep else None
    }

    /**
     * GET /api/nutrition/today: `dailyLog?.nutrition || { meals: [], totalCalories: 0 }`.
     * The fallback answers only a missing log: a stored log always has its
     * nested nutrition, which before any meal is `{ meals: [] }` with no total.
     */
    function NutritionToday(user: UserId, today: int): (r: Nutrition)
      reads this
      ensures LogKey(user, today) !in logs ==> r.meals == [] && r.totalCalories == Some(0)
      ensures LogKey(user, today) in logs && logs[LogKey(user, today)].nutrition.Some? ==>
                Some(r) == logs[LogKey(user, today)].nutrition
      ensures LogKey(user, today) in logs && logs[LogKey(user, today)].nutrition.None? ==>
                r.meals == [] && r.totalCalories == Some(0)
      ensures Valid() && LogKey(user, today) in logs ==> Some(r) == logs[LogKey(user, today)].nutrition
    {
      var log := DailyToday(user, today);
      if log.Some? && log.value.nutrition.Some? then log.value.nutrition.value
      else Nutrition([], Some(0), None, None)
    }

    /**
     * GET /api/vitals/today: `dailyLog?.vitals || null`. A stored log always
     * has the nested vitals path, so null comes back only when there is no log.
     */
    function VitalsToday(user: UserId, today: int): (r: Option<Vitals>)
      reads this
      ensures LogKey(user, today) !in logs ==> r.None?
      ensures LogKey(user, today) in logs ==> r == logs[LogKey(user, today)].vitals
      ensures Valid() && LogKey(user, today) in logs ==> r.Some?
    {
      var log := DailyToday(user, today);
      if log.Some? then log.value.vitals else None
    }
  }
}
