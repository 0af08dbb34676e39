/**
 * The weekly statistics routes. Each route walks the logs of the window with
 * `forEach` loops that accumulate into a stats object; here each is a method
 * with loop invariants, proved equal to fold-based definitions, and the
 * properties the routes promise are proved about those definitions.
 */
module WeeklyStats {
  import opened Wrappers
  import opened Folds
  import opened Tally
  import opened DailyLogSchema
  import opened Time
  import opened Validators

  /** `x || 0` on a number that may be absent. */
  function OrZero(x: Option<int>): int {
    if x.Some? then x.value else 0
  }

  /** `days ? total / days : 0`, the divide-by-zero guard of the routes. */
  function Average(total: int, days: nat): real {
    if days == 0 then 0.0 else total as real / days as real
  }

  lemma AverageScales(total: int, days: nat)
    requires days > 0
    ensures Average(total, days) * days as real == total as real
  {
  }

  // ---------------------------------------------------------------- exercise

  function WorkoutCount(l: DailyLog): int {
    |l.exercise|
  }

  function MinutesOf(e: Exercise): int {
    OrZero(e.duration)
  }

  function BurnedOf(e: Exercise): int {
    OrZero(e.caloriesBurned)
  }

  function LogMinutes(l: DailyLog): int {
    SumOf(l.exercise, MinutesOf)
  }

  function LogBurned(l: DailyLog): int {
    SumOf(l.exercise, BurnedOf)
  }

  /** The property name `workoutsByType[exercise.type]` uses: an absent type becomes "undefined". */
  function TypeKey(e: Exercise): string {
    if e.kind.Some? then e.kind.value else "undefined"
  }

  function TypeKeys(exercise: seq<Exercise>): seq<string> {
    if exercise == [] then [] else TypeKeys(exercise[..|exercise| - 1]) + [TypeKey(exercise[|exercise| - 1])]
  }

  /** The type of every exercise of every log, in visiting order. */
  function WeekTypeKeys(logs: seq<DailyLog>): seq<string> {
    if logs == [] then [] else WeekTypeKeys(logs[..|logs| - 1]) + TypeKeys(logs[|logs| - 1].exercise)
  }

  function TotalWorkouts(logs: seq<DailyLog>): int {
    SumOf(logs, WorkoutCount)
  }

  lemma TypeKeysStep(exercise: seq<Exercise>, j: nat)
    requires j < |exercise|
    ensures TypeKeys(exercise[..j + 1]) == TypeKeys(exercise[..j]) + [TypeKey(exercise[j])]
  {
    assert exercise[..j + 1][..j] == exercise[..j];
  }

  lemma WeekTypeKeysStep(logs: seq<DailyLog>, i: nat)
    requires i < |logs|
    ensures WeekTypeKeys(logs[..i + 1]) == WeekTypeKeys(logs[..i]) + TypeKeys(logs[i].exercise)
  {
    assert logs[..i + 1][..i] == logs[..i];
  }

  lemma BumpAllSnoc(t: Counter, keys: seq<string>, k: string)
    ensures BumpAll(t, keys + [k]) == Bump(BumpAll(t, keys), k)
  {
    assert (keys + [k])[..|keys|] == keys;
  }

  lemma {:induction false} TypeKeysLength(exercise: seq<Exercise>)
    ensures |TypeKeys(exercise)| == |exercise|
  {
    if exercise != [] {
      TypeKeysLength(exercise[..|exercise| - 1]);
    }
  }

  lemma {:induction false} WeekTypeKeysLength(logs: seq<DailyLog>)
    ensures |WeekTypeKeys(logs)| == TotalWorkouts(logs)
  {
    if logs != [] {
      WeekTypeKeysLength(logs[..|logs| - 1]);
      TypeKeysLength(logs[|logs| - 1].exercise);
    }
  }

  /** The counts in `workoutsByType` add up to `totalWorkouts`. */
  lemma WorkoutsByTypeSumToTotal(logs: seq<DailyLog>)
    ensures Total(TallyOf(WeekTypeKeys(logs))) == TotalWorkouts(logs)
  {
    TallyTotal(WeekTypeKeys(logs));
    WeekTypeKeysLength(logs);
  }

  /**
   * Each type is listed once, in the order its first exercise was visited,
   * with the number of exercises of that type.
   */
  lemma WorkoutsByTypeCounts(logs: seq<DailyLog>, k: string)
    ensures CountAt(TallyOf(WeekTypeKeys(logs)), k) == multiset(WeekTypeKeys(logs))[k]
    ensures Keys(TallyOf(WeekTypeKeys(logs))) == FirstSeen(WeekTypeKeys(logs))
    ensures DistinctKeys(TallyOf(WeekTypeKeys(logs)))
  {
    TallyCountAt(WeekTypeKeys(logs), k);
    TallyKeys(WeekTypeKeys(logs));
    TallyDistinct(WeekTypeKeys(logs));
  }

  datatype ExerciseStats = ExerciseStats(totalWorkouts: int, totalMinutes: int, totalCalories: int, workoutsByType: Counter)

  /** GET /api/exercise/stats over the logs of the window. */
  method ComputeExerciseStats(logs: seq<DailyLog>) returns (stats: ExerciseStats)
    ensures stats.totalWorkouts == TotalWorkouts(logs)
    ensures stats.totalMinutes == SumOf(logs, LogMinutes)
    ensures stats.totalCalories == SumOf(logs, LogBurned)
    ensures stats.workoutsByType == TallyOf(WeekTypeKeys(logs))
  {
    var totalWorkouts, totalMinutes, totalCalories := 0, 0, 0;
    var byType: Counter := [];
    for i := 0 to |logs|
      invariant totalWorkouts == TotalWorkouts(logs[..i])
      invariant totalMinutes == SumOf(logs[..i], LogMinutes)
      invariant totalCalories == SumOf(logs[..i], LogBurned)
      invariant byType == TallyOf(WeekTypeKeys(logs[..i]))
    {
      var exercise := logs[i].exercise;
      totalWorkouts := totalWorkouts + |exercise|;
      assert WeekTypeKeys(logs[..i]) + TypeKeys(exercise[..0]) == WeekTypeKeys(logs[..i]);
      for j := 0 to |exercise|
        invariant totalMinutes == SumOf(logs[..i], LogMinutes) + SumOf(exercise[..j], MinutesOf)
        invariant totalCalories == SumOf(logs[..i], LogBurned) + SumOf(exercise[..j], BurnedOf)
        invariant byType == BumpAll([], WeekTypeKeys(logs[..i]) + TypeKeys(exercise[..j]))
      {
        SumOfStep(exercise, j, MinutesOf);
        SumOfStep(exercise, j, BurnedOf);
        TypeKeysStep(exercise, j);
        assert WeekTypeKeys(logs[..i]) + TypeKeys(exercise[..j + 1])
            == (WeekTypeKeys(logs[..i]) + TypeKeys(exercise[..j])) + [TypeKey(exercise[j])];
        BumpAllSnoc([], WeekTypeKeys(logs[..i]) + TypeKeys(exercise[..j]), TypeKey(exercise[j]));
        totalMinutes := totalMinutes + MinutesOf(exercise[j]);
        totalCalories := totalCalories + BurnedOf(exercise[j]);
        byType := Bump(byType, TypeKey(exercise[j]));
      }
      assert exercise[..|exercise|] == exercise;
      SumOfStep(logs, i, WorkoutCount);
      SumOfStep(logs, i, LogMinutes);
      SumOfStep(logs, i, LogBurned);
      WeekTypeKeysStep(logs, i);
    }
    assert logs[..|logs|] == logs;
    stats := ExerciseStats(totalWorkouts, totalMinutes, totalCalories, byType);
  }

  // ------------------------------------------------------------------- sleep

  /** `log.sleep && log.sleep.duration`: a sleep record with a non-zero duration. */
  predicate SleepLogged(l: DailyLog) {
    l.sleep.Some? && l.sleep.value.duration.Some? && l.sleep.value.duration.value != 0
  }

  function SleepHours(l: DailyLog): int {
    if SleepLogged(l) then l.sleep.value.duration.value else 0
  }

  /** A logged day whose quality is a non-empty string (`if (log.sleep.quality)`). */
  predicate QualityCounted(l: DailyLog) {
    SleepLogged(l) && Present(l.sleep.value.quality)
  }

  datatype QualityDistribution = QualityDistribution(excellent: nat, good: nat, fair: nat, poor: nat)

  function BucketSum(d: QualityDistribution): nat {
    d.excellent + d.good + d.fair + d.poor
  }

  /** `qualityDistribution[quality]++`; the schema admits no other quality. */
  function CountQuality(d: QualityDistribution, q: string): QualityDistribution {
    if q == "Excellent" then d.(excellent := d.excellent + 1)
    else if q == "Good" then d.(good := d.good + 1)
    else if q == "Fair" then d.(fair := d.fair + 1)
    else if q == "Poor" then d.(poor := d.poor + 1)
    else d
  }

  function Qualities(logs: seq<DailyLog>): QualityDistribution {
    if logs == [] then QualityDistribution(0, 0, 0, 0)
    else
      var d := Qualities(logs[..|logs| - 1]);
      var l := logs[|logs| - 1];
      if QualityCounted(l) then CountQuality(d, l.sleep.value.quality.value) else d
  }

  lemma QualitiesStep(logs: seq<DailyLog>, i: nat)
    requires i < |logs|
    ensures Qualities(logs[..i + 1]) ==
      if QualityCounted(logs[i]) then CountQuality(Qualities(logs[..i]), logs[i].sleep.value.quality.value)
      else Qualities(logs[..i])
  {
    assert logs[..i + 1][..i] == logs[..i];
  }

  /** One bucketed day adds one to the buckets exactly when its quality is one of the four. */
  lemma CountQualitySum(d: QualityDistribution, q: string)
    ensures BucketSum(CountQuality(d, q)) == BucketSum(d) + if q in SleepQualities then 1 else 0
  {
  }

  /** The last log's contribution to the bucket sum. */
  lemma QualitiesLast(logs: seq<DailyLog>)
    requires logs != []
    ensures var l := logs[|logs| - 1];
      BucketSum(Qualities(logs)) == BucketSum(Qualities(logs[..|logs| - 1]))
        + if QualityCounted(l) && l.sleep.value.quality.value in SleepQualities then 1 else 0
  {
    var l := logs[|logs| - 1];
    if QualityCounted(l) {
      CountQualitySum(Qualities(logs[..|logs| - 1]), l.sleep.value.quality.value);
    }
  }

  /** Only logged days are bucketed, so the buckets hold at most `daysLogged`. */
  lemma {:induction false} QualityBucketsBounded(logs: seq<DailyLog>)
    ensures BucketSum(Qualities(logs)) <= CountWhere(logs, SleepLogged)
  {
    if logs != [] {
      QualityBucketsBounded(logs[..|logs| - 1]);
      QualitiesLast(logs);
    }
  }

  /** A bucketed quality is one of the four buckets. */
  predicate QualityAllowed(l: DailyLog) {
    QualityCounted(l) ==> l.sleep.value.quality.value in SleepQualities
  }

  /** The last log's contribution when its quality, if any, is one of the four. */
  lemma QualitiesLastAllowed(logs: seq<DailyLog>)
    requires logs != [] && QualityAllowed(logs[|logs| - 1])
    ensures BucketSum(Qualities(logs)) == BucketSum(Qualities(logs[..|logs| - 1]))
      + if QualityCounted(logs[|logs| - 1]) then 1 else 0
  {
    QualitiesLast(logs);
  }

  lemma {:induction false} BucketsCountAllowedQualityDays(logs: seq<DailyLog>)
    requires forall i | 0 <= i < |logs| :: QualityAllowed(logs[i])
    ensures BucketSum(Qualities(logs)) == CountWhere(logs, QualityCounted)
  {
    if logs != [] {
      var init := logs[..|logs| - 1];
      AllowedPrefix(logs, init);
      BucketsCountAllowedQualityDays(init);
      QualitiesLastAllowed(logs);
    }
  }

  lemma AllowedPrefix(logs: seq<DailyLog>, init: seq<DailyLog>)
    requires logs != [] && init == logs[..|logs| - 1]
    requires forall i | 0 <= i < |logs| :: QualityAllowed(logs[i])
    ensures QualityAllowed(logs[|logs| - 1])
    ensures forall i | 0 <= i < |init| :: QualityAllowed(init[i])
  {
  }

  /** The bucket `qualityDistribution[q]` for one of the four qualities. */
  function Bucket(d: QualityDistribution, q: string): nat {
    if q == "Excellent" then d.excellent
    else if q == "Good" then d.good
    else if q == "Fair" then d.fair
    else if q == "Poor" then d.poor
    else 0
  }

  /** A logged day whose quality is `q`. */
  predicate QualityIs(l: DailyLog, q: string) {
    QualityCounted(l) && l.sleep.value.quality.value == q
  }

  /** Counting a quality adds one to its own bucket and leaves the other buckets alone. */
  lemma CountQualityBucket(d: QualityDistribution, q: string, b: string)
    requires b in SleepQualities
    ensures Bucket(CountQuality(d, q), b) == Bucket(d, b) + if q == b then 1 else 0
  {
  }

  /** Each bucket holds exactly the logged days whose quality is that bucket's. */
  lemma {:induction false} QualityBucketCounts(logs: seq<DailyLog>, b: string)
    requires b in SleepQualities
    ensures Bucket(Qualities(logs), b) == CountWhere(logs, (l: DailyLog) => QualityIs(l, b))
  {
    if logs != [] {
      var init, last := logs[..|logs| - 1], logs[|logs| - 1];
      QualityBucketCounts(init, b);
      if QualityCounted(last) {
        CountQualityBucket(Qualities(init), last.sleep.value.quality.value, b);
      }
    }
  }

  /** For schema-valid logs every logged day with a quality lands in exactly one bucket. */
  lemma QualityBucketsCountQualityDays(logs: seq<DailyLog>)
    requires forall i | 0 <= i < |logs| :: ValidLog(logs[i])
    ensures BucketSum(Qualities(logs)) == CountWhere(logs, QualityCounted)
  {
    forall i | 0 <= i < |logs| ensures QualityAllowed(logs[i]) {
      assert ValidLog(logs[i]);
    }
    BucketsCountAllowedQualityDays(logs);
  }

  datatype SleepStats = SleepStats(averageDuration: real, qualityDistribution: QualityDistribution, totalSleepHours: int, daysLogged: nat)

  /** GET /api/sleep/stats over the logs of the window. */
  method ComputeSleepStats(logs: seq<DailyLog>) returns (stats: SleepStats)
    ensures stats.daysLogged == CountWhere(logs, SleepLogged)
    ensures stats.totalSleepHours == SumOf(logs, SleepHours)
    ensures stats.qualityDistribution == Qualities(logs)
    ensures stats.averageDuration == Average(stats.totalSleepHours, stats.daysLogged)
  {
    var total, days := 0, 0;
    var dist := QualityDistribution(0, 0, 0, 0);
    for i := 0 to |logs|
      invariant days == CountWhere(logs[..i], SleepLogged)
      invariant total == SumOf(logs[..i], SleepHours)
      invariant dist == Qualities(logs[..i])
    {
      var log := logs[i];
      CountWhereStep(logs, i, SleepLogged);
      SumOfStep(logs, i, SleepHours);
      QualitiesStep(logs, i);
      if log.sleep.Some? && log.sleep.value.duration.Some? && log.sleep.value.duration.value != 0 {
        total := total + log.sleep.value.duration.value;
        days := days + 1;
        if log.sleep.value.quality.Some? && |log.sleep.value.quality.value| > 0 {
          dist := CountQuality(dist, log.sleep.value.quality.value);
        }
      }
    }
    assert logs[..|logs|] == logs;
    var average := if days != 0 then total as real / days as real else 0.0;
    stats := SleepStats(average, dist, total, days);
  }

  /** A week with no logged sleep has no sleep hours, hence the average 0. */
  lemma NoSleepDaysNoHours(logs: seq<DailyLog>)
    requires CountWhere(logs, SleepLogged) == 0
    ensures SumOf(logs, SleepHours) == 0
    ensures Average(SumOf(logs, SleepHours), CountWhere(logs, SleepLogged)) == 0.0
  {
    SumOfUncounted(logs, SleepLogged, SleepHours);
  }

  // --------------------------------------------------------------- hydration

  /** `log.hydration && log.hydration.waterIntake`: a non-zero intake. */
  predicate HydrationLogged(l: DailyLog) {
    l.hydration.Some? && l.hydration.value.waterIntake != 0
  }

  predicate TargetAchieved(l: DailyLog) {
    HydrationLogged(l) && l.hydration.value.waterIntake >= l.hydration.value.target
  }

  function IntakeOf(l: DailyLog): int {
    if HydrationLogged(l) then l.hydration.value.waterIntake else 0
  }

  datatype HydrationStats = HydrationStats(averageIntake: real, totalIntake: int, daysLogged: nat, targetAchievedDays: nat)

  /** GET /api/hydration/stats over the logs of the window. */
  method ComputeHydrationStats(logs: seq<DailyLog>) returns (stats: HydrationStats)
    ensures stats.daysLogged == CountWhere(logs, HydrationLogged)
    ensures stats.totalIntake == SumOf(logs, IntakeOf)
    ensures stats.targetAchievedDays == CountWhere(logs, TargetAchieved)
    ensures stats.averageIntake == Average(stats.totalIntake, stats.daysLogged)
  {
    var total, days, achieved := 0, 0, 0;
    for i := 0 to |logs|
      invariant days == CountWhere(logs[..i], HydrationLogged)
      invariant total == SumOf(logs[..i], IntakeOf)
      invariant achieved == CountWhere(logs[..i], TargetAchieved)
    {
      var log := logs[i];
      CountWhereStep(logs, i, HydrationLogged);
      CountWhereStep(logs, i, TargetAchieved);
      SumOfStep(logs, i, IntakeOf);
      if log.hydration.Some? && log.hydration.value.waterIntake != 0 {
        total := total + log.hydration.value.waterIntake;
        days := days + 1;
        if log.hydration.value.waterIntake >= log.hydration.value.target {
          achieved := achieved + 1;
        }
      }
    }
    assert logs[..|logs|] == logs;
    var average := if days != 0 then total as real / days as real else 0.0;
    stats := HydrationStats(average, total, days, achieved);
  }

  /** `targetAchievedDays` never exceeds `daysLogged`. */
  lemma TargetDaysWithinLoggedDays(logs: seq<DailyLog>)
    ensures CountWhere(logs, TargetAchieved) <= CountWhere(logs, HydrationLogged)
  {
    CountWhereMonotone(logs, TargetAchieved, HydrationLogged);
  }

  /** A week with no logged intake has total and average 0. */
  lemma NoHydrationDaysNoIntake(logs: seq<DailyLog>)
    requires CountWhere(logs, HydrationLogged) == 0
    ensures SumOf(logs, IntakeOf) == 0
    ensures Average(SumOf(logs, IntakeOf), CountWhere(logs, HydrationLogged)) == 0.0
  {
    SumOfUncounted(logs, HydrationLogged, IntakeOf);
  }

  // --------------------------------------------------------------- nutrition

  /** `log.nutrition && log.nutrition.meals.length > 0`. */
  predicate HasMeals(l: DailyLog) {
    l.nutrition.Some? && |l.nutrition.value.meals| > 0
  }

  function MealsOf(l: DailyLog): seq<Meal> {
    if HasMeals(l) then l.nutrition.value.meals else []
  }

  function MealCount(l: DailyLog): int {
    |MealsOf(l)|
  }

  /** `Number(food.protein) || 0`, and likewise for carbs and fats. */
  function ProteinOf(f: Food): int {
    OrZero(f.protein)
  }

  function CarbsOf(f: Food): int {
    OrZero(f.carbs)
  }

  function FatsOf(f: Food): int {
    OrZero(f.fats)
  }

  function MealProtein(m: Meal): int {
    SumOf(m.foods, ProteinOf)
  }

  function MealCarbs(m: Meal): int {
    SumOf(m.foods, CarbsOf)
  }

  function MealFats(m: Meal): int {
    SumOf(m.foods, FatsOf)
  }

  function LogProtein(l: DailyLog): int {
    SumOf(MealsOf(l), MealProtein)
  }

  function LogCarbs(l: DailyLog): int {
    SumOf(MealsOf(l), MealCarbs)
  }

  function LogFats(l: DailyLog): int {
    SumOf(MealsOf(l), MealFats)
  }

  /** `log.nutrition.totalCalories || 0`, counted on days with meals. */
  function DayCalories(l: DailyLog): int {
    if HasMeals(l) then OrZero(l.nutrition.value.totalCalories) else 0
  }

  /** The property name `mealTypeDistribution[meal.type]` uses. */
  function MealKey(m: Meal): string {
    if m.kind.Some? then m.kind.value else "undefined"
  }

  function MealKeys(meals: seq<Meal>): seq<string> {
    if meals == [] then [] else MealKeys(meals[..|meals| - 1]) + [MealKey(meals[|meals| - 1])]
  }

  function WeekMealKeys(logs: seq<DailyLog>): seq<string> {
    if logs == [] then [] else WeekMealKeys(logs[..|logs| - 1]) + MealKeys(MealsOf(logs[|logs| - 1]))
  }

  lemma MealKeysStep(meals: seq<Meal>, j: nat)
    requires j < |meals|
    ensures MealKeys(meals[..j + 1]) == MealKeys(meals[..j]) + [MealKey(meals[j])]
  {
    assert meals[..j + 1][..j] == meals[..j];
  }

  lemma WeekMealKeysStep(logs: seq<DailyLog>, i: nat)
    requires i < |logs|
    ensures WeekMealKeys(logs[..i + 1]) == WeekMealKeys(logs[..i]) + MealKeys(MealsOf(logs[i]))
  {
    assert logs[..i + 1][..i] == logs[..i];
  }

  lemma {:induction false} MealKeysLength(meals: seq<Meal>)
    ensures |MealKeys(meals)| == |meals|
  {
    if meals != [] {
      MealKeysLength(meals[..|meals| - 1]);
    }
  }

  lemma {:induction false} WeekMealKeysLength(logs: seq<DailyLog>)
    ensures |WeekMealKeys(logs)| == SumOf(logs, MealCount)
  {
    if logs != [] {
      WeekMealKeysLength(logs[..|logs| - 1]);
      MealKeysLength(MealsOf(logs[|logs| - 1]));
    }
  }

  /** The counts in `mealTypeDistribution` add up to `totalMeals`. */
  lemma MealTypesSumToTotalMeals(logs: seq<DailyLog>)
    ensures Total(TallyOf(WeekMealKeys(logs))) == SumOf(logs, MealCount)
  {
    TallyTotal(WeekMealKeys(logs));
    WeekMealKeysLength(logs);
  }

  datatype MacroAverages = MacroAverages(protein: real, carbs: real, fats: real)

  datatype NutritionStats = NutritionStats(averageCalories: real, totalMeals: int, mealTypeDistribution: Counter, macroAverages: MacroAverages)

  /** The macro sums of one meal's foods. */
  method SumMacros(foods: seq<Food>) returns (protein: int, carbs: int, fats: int)
    ensures protein == SumOf(foods, ProteinOf)
    ensures carbs == SumOf(foods, CarbsOf)
    ensures fats == SumOf(foods, FatsOf)
  {
    protein, carbs, fats := 0, 0, 0;
    for k := 0 to |foods|
      invariant protein == SumOf(foods[..k], ProteinOf)
      invariant carbs == SumOf(foods[..k], CarbsOf)
      invariant fats == SumOf(foods[..k], FatsOf)
    {
      SumOfStep(foods, k, ProteinOf);
      SumOfStep(foods, k, CarbsOf);
      SumOfStep(foods, k, FatsOf);
      protein := protein + ProteinOf(foods[k]);
      carbs := carbs + CarbsOf(foods[k]);
      fats := fats + FatsOf(foods[k]);
    }
    assert foods[..|foods|] == foods;
  }

  lemma {:induction false} BumpAllAppend(t: Counter, a: seq<string>, b: seq<string>)
    ensures BumpAll(t, a + b) == BumpAll(BumpAll(t, a), b)
  {
    if b == [] {
      assert a + b == a;
    } else {
      var b' := b[..|b| - 1];
      assert (a + b)[..|a + b| - 1] == a + b';
      BumpAllAppend(t, a, b');
    }
  }

  /** The inner loops of one day: every meal's type, and its foods' macros. */
  method DayMeals(meals: seq<Meal>, counter: Counter) returns (protein: int, carbs: int, fats: int, byType: Counter)
    ensures protein == SumOf(meals, MealProtein)
    ensures carbs == SumOf(meals, MealCarbs)
    ensures fats == SumOf(meals, MealFats)
    ensures byType == BumpAll(counter, MealKeys(meals))
  {
    protein, carbs, fats, byType := 0, 0, 0, counter;
    for j := 0 to |meals|
      invariant protein == SumOf(meals[..j], MealProtein)
      invariant carbs == SumOf(meals[..j], MealCarbs)
      invariant fats == SumOf(meals[..j], MealFats)
      invariant byType == BumpAll(counter, MealKeys(meals[..j]))
    {
      SumOfStep(meals, j, MealProtein);
      SumOfStep(meals, j, MealCarbs);
      SumOfStep(meals, j, MealFats);
      MealKeysStep(meals, j);
      BumpAllSnoc(counter, MealKeys(meals[..j]), MealKey(meals[j]));
      byType := Bump(byType, MealKey(meals[j]));
      var p, c, f := SumMacros(meals[j].foods);
      protein, carbs, fats := protein + p, carbs + c, fats + f;
    }
    assert meals[..|meals|] == meals;
  }

  /** What the loop of GET /api/nutrition/stats has gathered so far. */
  datatype NutritionTotals = NutritionTotals(
    days: nat, meals: int, calories: int, protein: int, carbs: int, fats: int, byType: Counter)

  /** One day of that loop: only a day with meals adds anything. */
  function AddDay(t: NutritionTotals, l: DailyLog): NutritionTotals {
    if HasMeals(l) then
      NutritionTotals(t.days + 1, t.meals + MealCount(l), t.calories + DayCalories(l),
        t.protein + LogProtein(l), t.carbs + LogCarbs(l), t.fats + LogFats(l),
        BumpAll(t.byType, MealKeys(MealsOf(l))))
    else t
  }

  /** The loop over `logs`, from nothing gathered. */
  function TotalsOf(logs: seq<DailyLog>): NutritionTotals {
    if logs == [] then NutritionTotals(0, 0, 0, 0, 0, 0, [])
    else AddDay(TotalsOf(logs[..|logs| - 1]), logs[|logs| - 1])
  }

  /** A day adds its own values to every field; a day without meals adds zero. */
  lemma AddDayFields(t: NutritionTotals, l: DailyLog)
    ensures AddDay(t, l).days == t.days + (if HasMeals(l) then 1 else 0)
    ensures AddDay(t, l).meals == t.meals + MealCount(l)
    ensures AddDay(t, l).calories == t.calories + DayCalories(l)
    ensures AddDay(t, l).protein == t.protein + LogProtein(l)
    ensures AddDay(t, l).carbs == t.carbs + LogCarbs(l)
    ensures AddDay(t, l).fats == t.fats + LogFats(l)
    ensures AddDay(t, l).byType == BumpAll(t.byType, MealKeys(MealsOf(l)))
  {
    if !HasMeals(l) {
      assert MealsOf(l) == [];
    }
  }

  /** Each field the loop gathers is the fold it is meant to be. */
  lemma {:induction false} TotalsOfMeaning(logs: seq<DailyLog>)
    ensures TotalsOf(logs).days == CountWhere(logs, HasMeals)
    ensures TotalsOf(logs).meals == SumOf(logs, MealCount)
    ensures TotalsOf(logs).calories == SumOf(logs, DayCalories)
    ensures TotalsOf(logs).protein == SumOf(logs, LogProtein)
    ensures TotalsOf(logs).carbs == SumOf(logs, LogCarbs)
    ensures TotalsOf(logs).fats == SumOf(logs, LogFats)
    ensures TotalsOf(logs).byType == TallyOf(WeekMealKeys(logs))
  {
    if logs != [] {
      var init, last := logs[..|logs| - 1], logs[|logs| - 1];
      TotalsOfMeaning(init);
      AddDayFields(TotalsOf(init), last);
      BumpAllAppend([], WeekMealKeys(init), MealKeys(MealsOf(last)));
    }
  }

  /** The loop of GET /api/nutrition/stats: the sums before any division. */
  method NutritionSums(logs: seq<DailyLog>) returns (t: NutritionTotals)
    ensures t.days == CountWhere(logs, HasMeals)
    ensures t.meals == SumOf(logs, MealCount)
    ensures t.calories == SumOf(logs, DayCalories)
    ensures t.protein == SumOf(logs, LogProtein)
    ensures t.carbs == SumOf(logs, LogCarbs)
    ensures t.fats == SumOf(logs, LogFats)
    ensures t.byType == TallyOf(WeekMealKeys(logs))
  {
    t := NutritionTotals(0, 0, 0, 0, 0, 0, []);
    for i := 0 to |logs|
      invariant t == TotalsOf(logs[..i])
    {
      var log := logs[i];
      assert logs[..i + 1][..i] == logs[..i];
      if log.nutrition.Some? && |log.nutrition.value.meals| > 0 {
        var meals := log.nutrition.value.meals;
        var p, c, f, byType := DayMeals(meals, t.byType);
        t := NutritionTotals(t.days + 1, t.meals + |meals|,
          t.calories + OrZero(log.nutrition.value.totalCalories),
          t.protein + p, t.carbs + c, t.fats + f, byType);
      }
    }
    assert logs[..|logs|] == logs;
    TotalsOfMeaning(logs);
  }

  /**
   * GET /api/nutrition/stats over the logs of the window. The sums are
   * divided only when some day has meals; otherwise they stay as they are,
   * which is 0.
   */
  method ComputeNutritionStats(logs: seq<DailyLog>) returns (stats: NutritionStats)
    ensures stats.totalMeals == SumOf(logs, MealCount)
    ensures stats.mealTypeDistribution == TallyOf(WeekMealKeys(logs))
    ensures stats.averageCalories == Average(SumOf(logs, DayCalories), CountWhere(logs, HasMeals))
    ensures stats.macroAverages == MacroAverages(
      Average(SumOf(logs, LogProtein), CountWhere(logs, HasMeals)),
      Average(SumOf(logs, LogCarbs), CountWhere(logs, HasMeals)),
      Average(SumOf(logs, LogFats), CountWhere(logs, HasMeals)))
  {
    var t := NutritionSums(logs);
    var days, totalMeals, calories, protein, carbs, fats, byType := t.days, t.meals, t.calories, t.protein, t.carbs, t.fats, t.byType;
    var averageCalories, p, c, f := calories as real, protein as real, carbs as real, fats as real;
    if days > 0 {
      averageCalories := calories as real / days as real;
      p, c, f := protein as real / days as real, carbs as real / days as real, fats as real / days as real;
    } else {
      SumOfUncounted(logs, HasMeals, DayCalories);
      SumOfUncounted(logs, HasMeals, LogProtein);
      SumOfUncounted(logs, HasMeals, LogCarbs);
      SumOfUncounted(logs, HasMeals, LogFats);
    }
    stats := NutritionStats(averageCalories, totalMeals, byType, MacroAverages(p, c, f));
  }

  // ------------------------------------------------------------------ vitals

  /** `if (log.vitals)`: the day has a vitals record, whatever it holds. */
  predicate VitalsLogged(l: DailyLog) {
    l.vitals.Some?
  }

  function WeightOf(l: DailyLog): int {
    if VitalsLogged(l) then OrZero(l.vitals.value.weight) else 0
  }

  function HeartRateOf(l: DailyLog): int {
    if VitalsLogged(l) then OrZero(l.vitals.value.heartRate) else 0
  }

  /** `log.vitals.bloodPressure?.systolic`. */
  function SystolicOf(l: DailyLog): int {
    if VitalsLogged(l) && l.vitals.value.bloodPressure.Some? then OrZero(l.vitals.value.bloodPressure.value.systolic) else 0
  }

  function DiastolicOf(l: DailyLog): int {
    if VitalsLogged(l) && l.vitals.value.bloodPressure.Some? then OrZero(l.vitals.value.bloodPressure.value.diastolic) else 0
  }

  function MedicationsOf(l: DailyLog): int {
    if VitalsLogged(l) then |l.vitals.value.medications| else 0
  }

  datatype VitalsStats = VitalsStats(
    averageWeight: real,
    averageHeartRate: real,
    averageSystolic: real,
    averageDiastolic: real,
    medicationsTracked: int,
    daysLogged: nat)

  /**
   * GET /api/vitals/stats over the logs of the window. Every field's sum is
   * divided by the number of days with any vitals record, not by the number
   * of days on which that field was recorded.
   */
  method ComputeVitalsStats(logs: seq<DailyLog>) returns (stats: VitalsStats)
    ensures stats.daysLogged == CountWhere(logs, VitalsLogged)
    ensures stats.averageWeight == Average(SumOf(logs, WeightOf), stats.daysLogged)
    ensures stats.averageHeartRate == Average(SumOf(logs, HeartRateOf), stats.daysLogged)
    ensures stats.averageSystolic == Average(SumOf(logs, SystolicOf), stats.daysLogged)
    ensures stats.averageDiastolic == Average(SumOf(logs, DiastolicOf), stats.daysLogged)
    ensures stats.medicationsTracked == SumOf(logs, MedicationsOf)
  {
    var days, weight, heartRate, systolic, diastolic, medications := 0, 0, 0, 0, 0, 0;
    for i := 0 to |logs|
      invariant days == CountWhere(logs[..i], VitalsLogged)
      invariant weight == SumOf(logs[..i], WeightOf)
      invariant heartRate == SumOf(logs[..i], HeartRateOf)
      invariant systolic == SumOf(logs[..i], SystolicOf)
      invariant diastolic == SumOf(logs[..i], DiastolicOf)
      invariant medications == SumOf(logs[..i], MedicationsOf)
    {
      var log := logs[i];
      CountWhereStep(logs, i, VitalsLogged);
      SumOfStep(logs, i, WeightOf);
      SumOfStep(logs, i, HeartRateOf);
      SumOfStep(logs, i, SystolicOf);
      SumOfStep(logs, i, DiastolicOf);
      SumOfStep(logs, i, MedicationsOf);
      if log.vitals.Some? {
        var v := log.vitals.value;
        days := days + 1;
        if v.weight.Some? && v.weight.value != 0 {
          weight := weight + v.weight.value;
        }
        if v.heartRate.Some? && v.heartRate.value != 0 {
          heartRate := heartRate + v.heartRate.value;
        }
        if v.bloodPressure.Some? && v.bloodPressure.value.systolic.Some? && v.bloodPressure.value.systolic.value != 0 {
          systolic := systolic + v.bloodPressure.value.systolic.value;
        }
        if v.bloodPressure.Some? && v.bloodPressure.value.diastolic.Some? && v.bloodPressure.value.diastolic.value != 0 {
          diastolic := diastolic + v.bloodPressure.value.diastolic.value;
        }
        medications := medications + |v.medications|;
      }
    }
    assert logs[..|logs|] == logs;
    var w, h, s, d := weight as real, heartRate as real, systolic as real, diastolic as real;
    if days > 0 {
      w, h, s, d := weight as real / days as real, heartRate as real / days as real,
                    systolic as real / days as real, diastolic as real / days as real;
    } else {
      SumOfUncounted(logs, VitalsLogged, WeightOf);
      SumOfUncounted(logs, VitalsLogged, HeartRateOf);
      SumOfUncounted(logs, VitalsLogged, SystolicOf);
      SumOfUncounted(logs, VitalsLogged, DiastolicOf);
    }
    stats := VitalsStats(w, h, s, d, medications, days);
  }

  /**
   * The shared divisor skews the averages: in a window of three stored logs,
   * one with a weight of 90 and two whose vitals were never posted (and so
   * are the empty nested path), the average weight is 30.
   */
  lemma VitalsAverageUsesAnyVitalsDay()
    ensures var a := DailyLog(0, 0, Some("Good"), None, None, None, [], None,
                              Some(Vitals(Some(90), None, None, [])));
      var b := DailyLog(0, DayMs, Some("Good"), None, None, None, [], None, Some(EmptyVitals));
      var c := DailyLog(0, 2 * DayMs, Some("Good"), None, None, None, [], None, Some(EmptyVitals));
      Average(SumOf([a, b, c], WeightOf), CountWhere([a, b, c], VitalsLogged)) == 30.0
  {
    var a := DailyLog(0, 0, Some("Good"), None, None, None, [], None, Some(Vitals(Some(90), None, None, [])));
    var b := DailyLog(0, DayMs, Some("Good"), None, None, None, [], None, Some(EmptyVitals));
    var c := DailyLog(0, 2 * DayMs, Some("Good"), None, None, None, [], None, Some(EmptyVitals));
    assert [a, b, c][..2] == [a, b];
    assert [a, b][..1] == [a];
    assert [a][..0] == [];
    assert SumOf([a], WeightOf) == 90;
    assert SumOf([a, b], WeightOf) == 90;
    assert SumOf([a, b, c], WeightOf) == 90;
    assert CountWhere([a], VitalsLogged) == 1;
    assert CountWhere([a, b], VitalsLogged) == 2;
    assert CountWhere([a, b, c], VitalsLogged) == 3;
  }

  /**
   * Stored logs always have the nested vitals path, so `if (log.vitals)`
   * holds on every day of the window and each vitals average divides by the
   * number of logs.
   */
  lemma {:induction false} StoredLogsAllCountForVitals(logs: seq<DailyLog>)
    requires forall i | 0 <= i < |logs| :: logs[i].vitals.Some?
    ensures CountWhere(logs, VitalsLogged) == |logs|
  {
    if logs != [] {
      var init := logs[..|logs| - 1];
      assert forall i | 0 <= i < |init| :: init[i] == logs[i];
      StoredLogsAllCountForVitals(init);
    }
  }

  // --------------------------------------------------------------- dashboard

  /** `log.hydration?.waterIntake || 0`. */
  function DashWater(l: DailyLog): int {
    if l.hydration.Some? then l.hydration.value.waterIntake else 0
  }

  /** `log.sleep?.duration || 0`. */
  function DashSleep(l: DailyLog): int {
    if l.sleep.Some? then OrZero(l.sleep.value.duration) else 0
  }

  datatype WeekSummary = WeekSummary(totalWorkouts: int, avgWaterIntake: real, avgSleepHours: real)

  datatype DashboardSummary = DashboardSummary(todayLog: Option<DailyLog>, weekSummary: WeekSummary)

  /**
   * The dashboard's reduce over the whole window sums the same water intake
   * as the hydration stats (days without intake contribute 0 either way).
   */
  lemma {:induction false} DashWaterIsIntake(logs: seq<DailyLog>)
    ensures SumOf(logs, DashWater) == SumOf(logs, IntakeOf)
  {
    SumOfCongruent(logs, DashWater, IntakeOf);
  }

  lemma {:induction false} DashSleepIsSleepHours(logs: seq<DailyLog>)
    ensures SumOf(logs, DashSleep) == SumOf(logs, SleepHours)
  {
    SumOfCongruent(logs, DashSleep, SleepHours);
  }

  /**
   * GET /api/dashboard/summary. The averages divide by the number of logs of
   * the week; with no logs `0 / 0` is NaN and `NaN || 0` gives 0.
   */
  function Dashboard(todayLog: Option<DailyLog>, weekLogs: seq<DailyLog>): (d: DashboardSummary)
    ensures d.todayLog == todayLog
    ensures d.weekSummary.totalWorkouts == SumOf(weekLogs, WorkoutCount)
    ensures d.weekSummary.totalWorkouts == Total(TallyOf(WeekTypeKeys(weekLogs)))
    ensures |weekLogs| == 0 ==> d.weekSummary.avgWaterIntake == 0.0 && d.weekSummary.avgSleepHours == 0.0
    ensures d.weekSummary.avgWaterIntake == Average(SumOf(weekLogs, IntakeOf), |weekLogs|)
    ensures d.weekSummary.avgSleepHours == Average(SumOf(weekLogs, SleepHours), |weekLogs|)
  {
    WorkoutsByTypeSumToTotal(weekLogs);
    DashWaterIsIntake(weekLogs);
    DashSleepIsSleepHours(weekLogs);
    var n := |weekLogs|;
    DashboardSummary(todayLog, WeekSummary(
      SumOf(weekLogs, WorkoutCount),
      Average(SumOf(weekLogs, DashWater), n),
      Average(SumOf(weekLogs, DashSleep), n)))
  }
}
