/**
 * The DailyLog document: one record per user and calendar day holding mood,
 * hydration, sleep, exercise, nutrition and vitals, with the schema's enums,
 * defaults and required fields.
 */
module DailyLogSchema {
  import opened Wrappers
  import opened Ids
  import opened Validators

  const Moods: set<string> := {"Great", "Good", "Okay", "Poor", "Terrible"}
  const SleepQualities: set<string> := {"Excellent", "Good", "Fair", "Poor"}
  const Intensities: set<string> := {"Low", "Medium", "High"}
  const MealTypes: set<string> := {"Breakfast", "Lunch", "Dinner", "Snack"}

  /** Schema defaults of the hydration sub-document (millilitres). */
  const DefaultWaterIntake: int := 0
  const DefaultHydrationTarget: int := 2000

  datatype Hydration = Hydration(waterIntake: int, target: int)

  datatype Sleep = Sleep(duration: Option<int>, quality: Option<string>, sleepTime: Option<int>, wakeTime: Option<int>)

  /** One exercise entry; `kind` is the schema's `type` field. */
  datatype Exercise = Exercise(kind: Option<string>, duration: Option<int>, intensity: Option<string>, caloriesBurned: Option<int>)

  datatype Food = Food(name: Option<string>, calories: int, protein: Option<int>, carbs: Option<int>, fats: Option<int>)

  /** One meal; `kind` is the schema's `type` field. */
  datatype Meal = Meal(kind: Option<string>, foods: seq<Food>)

  datatype Nutrition = Nutrition(
    meals: seq<Meal>,
    totalCalories: Option<int>,
    healthyMealsFollowed: Option<bool>,
    junkFoodConsumed: Option<bool>)

  datatype BloodPressure = BloodPressure(systolic: Option<int>, diastolic: Option<int>)

  datatype Medication = Medication(name: Option<string>, dosage: Option<string>, taken: Option<bool>, time: Option<int>)

  datatype Vitals = Vitals(weight: Option<int>, bloodPressure: Option<BloodPressure>, heartRate: Option<int>, medications: seq<Medication>)

  datatype DailyLog = DailyLog(
    user: UserId,
    date: int,
    mood: Option<string>,
    notes: Option<string>,
    hydration: Option<Hydration>,
    sleep: Option<Sleep>,
    exercise: seq<Exercise>,
    nutrition: Option<Nutrition>,
    vitals: Option<Vitals>)

  predicate ValidExercise(e: Exercise) {
    Present(e.kind) && OneOf(e.intensity, Intensities)
  }

  predicate ValidSleep(s: Sleep) {
    OneOf(s.quality, SleepQualities)
  }

  predicate ValidMeal(m: Meal) {
    OneOf(m.kind, MealTypes)
  }

  predicate ValidMeals(meals: seq<Meal>) {
    forall i | 0 <= i < |meals| :: ValidMeal(meals[i])
  }

  predicate ValidExercises(exercise: seq<Exercise>) {
    forall i | 0 <= i < |exercise| :: ValidExercise(exercise[i])
  }

  /**
   * What `save()` checks: the required mood with its enum, and the enums and
   * required fields of the sub-documents that are present. `user` and `date`
   * are required too; the types here always carry them.
   */
  predicate ValidLog(l: DailyLog) {
    && l.mood.Some? && l.mood.value in Moods
    && (l.sleep.Some? ==> ValidSleep(l.sleep.value))
    && ValidExercises(l.exercise)
    && (l.nutrition.Some? ==> ValidMeals(l.nutrition.value.meals))
  }

  /**
   * `sleep`, `nutrition` and `vitals` are nested paths of the schema, so a
   * document always has them: with no fields set, except for the arrays
   * inside, which default to [].
   */
  const EmptySleep: Sleep := Sleep(None, None, None, None)
  const EmptyNutrition: Nutrition := Nutrition([], None, None, None)
  const EmptyVitals: Vitals := Vitals(None, None, None, [])

  /**
   * `new DailyLog({ user, date })`: the schema defaults fill hydration with
   * {waterIntake: 0, target: 2000}, exercise with [], and the nested sleep,
   * nutrition and vitals with their empty forms; mood has no default, so the
   * fresh document is valid exactly when an allowed mood is added.
   */
  function NewLog(user: UserId, day: int): (l: DailyLog)
    ensures l.user == user && l.date == day
    ensures l.hydration == Some(Hydration(0, 2000)) && l.exercise == []
    ensures l.sleep == Some(Sleep(None, None, None, None))
    ensures l.nutrition == Some(Nutrition([], None, None, None))
    ensures l.vitals == Some(Vitals(None, None, None, []))
    ensures l.mood.None? && l.notes.None?
    ensures !ValidLog(l)
    ensures forall m: string :: ValidLog(l.(mood := Some(m))) <==> m in Moods
  {
    DailyLog(user, day, None, None, Some(Hydration(DefaultWaterIntake, DefaultHydrationTarget)),
      Some(EmptySleep), [], Some(EmptyNutrition), Some(EmptyVitals))
  }

  /** Appending an entry keeps the exercise list valid exactly when the entry is valid. */
  lemma ValidExercisesAppend(exercise: seq<Exercise>, e: Exercise)
    ensures ValidExercises(exercise + [e]) <==> ValidExercises(exercise) && ValidExercise(e)
  {
    if ValidExercises(exercise + [e]) {
      assert (exercise + [e])[|exercise|] == e;
      forall i | 0 <= i < |exercise| ensures ValidExercise(exercise[i]) {
        assert (exercise + [e])[i] == exercise[i];
      }
    }
  }

  lemma ValidMealsAppend(meals: seq<Meal>, m: Meal)
    ensures ValidMeals(meals + [m]) <==> ValidMeals(meals) && ValidMeal(m)
  {
    if ValidMeals(meals + [m]) {
      assert (meals + [m])[|meals|] == m;
      forall i | 0 <= i < |meals| ensures ValidMeal(meals[i]) {
        assert (meals + [m])[i] == meals[i];
      }
    }
  }
}
