/**
 * The tracking reminder, which lists the dimensions of today's log that are
 * still empty, and the shallow merge of a user's email settings.
 */
module Notifications {
  import opened Wrappers
  import opened Ids
  import opened DailyLogSchema
  import opened DailyAggregate

  /** The five dimensions a reminder can name. */
  datatype Dimension = ExerciseDim | HydrationDim | NutritionDim | SleepDim | VitalsDim

  /** The name the reminder uses for a dimension. */
  function Name(d: Dimension): string {
    match d
    case ExerciseDim => "Exercise"
    case HydrationDim => "Hydration"
    case NutritionDim => "Nutrition"
    case SleepDim => "Sleep"
    case VitalsDim => "Vitals"
  }

  /** The index of a dimension in the order the reminder checks them. */
  function Rank(d: Dimension): nat {
    match d
    case ExerciseDim => 0
    case HydrationDim => 1
    case NutritionDim => 2
    case SleepDim => 3
    case VitalsDim => 4
  }

  /** Whether today's log (absent when none exists) has something for `d`. */
  predicate Tracked(log: Option<DailyLog>, d: Dimension) {
    log.Some? &&
    match d
    case ExerciseDim => |log.value.exercise| > 0
    case HydrationDim => log.value.hydration.Some?
    case NutritionDim => log.value.nutrition.Some? && |log.value.nutrition.value.meals| > 0
    case SleepDim => log.value.sleep.Some?
    case VitalsDim => log.value.vitals.Some?
  }

  /** One check of the reminder: `d` when it is untracked, nothing otherwise. */
  function Check(log: Option<DailyLog>, d: Dimension): seq<Dimension> {
    if Tracked(log, d) then [] else [d]
  }

  /** The untracked dimensions, checked in order. */
  function UntrackedDims(log: Option<DailyLog>): seq<Dimension> {
    Check(log, ExerciseDim) + Check(log, HydrationDim) + Check(log, NutritionDim) +
    Check(log, SleepDim) + Check(log, VitalsDim)
  }

  /** One check of the reminder, as the name it reports. */
  function CheckName(log: Option<DailyLog>, d: Dimension): seq<string> {
    if Tracked(log, d) then [] else [Name(d)]
  }

  /** The list the reminder reports for today's log. */
  function Untracked(log: Option<DailyLog>): seq<string> {
    CheckName(log, ExerciseDim) + CheckName(log, HydrationDim) + CheckName(log, NutritionDim) +
    CheckName(log, SleepDim) + CheckName(log, VitalsDim)
  }

  function Names(ds: seq<Dimension>): (r: seq<string>)
    ensures |r| == |ds|
    ensures forall i | 0 <= i < |ds| :: r[i] == Name(ds[i])
  {
    if ds == [] then [] else [Name(ds[0])] + Names(ds[1..])
  }

  /** The dimension a reminder name stands for. */
  function DimensionNamed(name: string): Option<Dimension> {
    if name == "Exercise" then Some(ExerciseDim)
    else if name == "Hydration" then Some(HydrationDim)
    else if name == "Nutrition" then Some(NutritionDim)
    else if name == "Sleep" then Some(SleepDim)
    else if name == "Vitals" then Some(VitalsDim)
    else None
  }

  /** No two dimensions share a name. */
  lemma NameInjective(d: Dimension, e: Dimension)
    ensures Name(d) == Name(e) <==> d == e
  {
    assert DimensionNamed(Name(d)) == Some(d);
    assert DimensionNamed(Name(e)) == Some(e);
  }

  /** A dimension is listed exactly when it is untracked. */
  lemma UntrackedMembers(log: Option<DailyLog>, d: Dimension)
    ensures d in UntrackedDims(log) <==> !Tracked(log, d)
  {
  }

  /** Each of the five names is reported exactly when its dimension is untracked. */
  lemma UntrackedNames(log: Option<DailyLog>, d: Dimension)
    ensures Name(d) in Untracked(log) <==> !Tracked(log, d)
  {
    NameInjective(d, ExerciseDim);
    NameInjective(d, HydrationDim);
    NameInjective(d, NutritionDim);
    NameInjective(d, SleepDim);
    NameInjective(d, VitalsDim);
  }

  /** The reported names are the names of the untracked dimensions, position by position. */
  lemma UntrackedNamesDims(log: Option<DailyLog>)
    ensures Untracked(log) == Names(UntrackedDims(log))
  {
    var e, h, n, z, v := Check(log, ExerciseDim), Check(log, HydrationDim), Check(log, NutritionDim),
      Check(log, SleepDim), Check(log, VitalsDim);
    NamesOfCheck(log, ExerciseDim);
    NamesOfCheck(log, HydrationDim);
    NamesOfCheck(log, NutritionDim);
    NamesOfCheck(log, SleepDim);
    NamesOfCheck(log, VitalsDim);
    NamesAppend(e, h);
    NamesAppend(e + h, n);
    NamesAppend(e + h + n, z);
    NamesAppend(e + h + n + z, v);
  }

  lemma NamesOfCheck(log: Option<DailyLog>, d: Dimension)
    ensures Names(Check(log, d)) == CheckName(log, d)
  {
  }

  /** The list keeps the checking order, and so names each dimension at most once. */
  lemma UntrackedOrdered(log: Option<DailyLog>)
    ensures forall i, j | 0 <= i < j < |UntrackedDims(log)| ::
      Rank(UntrackedDims(log)[i]) < Rank(UntrackedDims(log)[j])
  {
  }

  /** With no log for today every dimension is listed. */
  lemma NoLogListsEverything()
    ensures Untracked(None) == ["Exercise", "Hydration", "Nutrition", "Sleep", "Vitals"]
  {
  }

  /**
   * Every stored log carries the hydration sub-document the schema defaults
   * create, so "Hydration" is listed only when there is no log at all.
   */
  lemma StoredLogTracksHydration(logs: LogMap, user: UserId, today: int)
    requires StoreValid(logs)
    ensures "Hydration" in Untracked(if LogKey(user, today) in logs then Some(logs[LogKey(user, today)]) else None)
      <==> LogKey(user, today) !in logs
  {
    var log := if LogKey(user, today) in logs then Some(logs[LogKey(user, today)]) else None;
    UntrackedNames(log, HydrationDim);
  }

  /**
   * Every stored log has the nested sleep and vitals paths, so "Sleep" and
   * "Vitals" are listed only when there is no log at all.
   */
  lemma StoredLogTracksSleepAndVitals(logs: LogMap, user: UserId, today: int)
    requires StoreValid(logs)
    ensures "Sleep" in Untracked(if LogKey(user, today) in logs then Some(logs[LogKey(user, today)]) else None)
      <==> LogKey(user, today) !in logs
    ensures "Vitals" in Untracked(if LogKey(user, today) in logs then Some(logs[LogKey(user, today)]) else None)
      <==> LogKey(user, today) !in logs
  {
    var log := if LogKey(user, today) in logs then Some(logs[LogKey(user, today)]) else None;
    UntrackedNames(log, SleepDim);
    UntrackedNames(log, VitalsDim);
  }

  /** A log holding only a mood is reminded of its exercise and its meals. */
  lemma MoodOnlyLogReminder(user: UserId, day: int, m: string)
    ensures Untracked(Some(NewLog(user, day).(mood := Some(m)))) == ["Exercise", "Nutrition"]
  {
  }

  lemma {:induction false} NamesAppend(a: seq<Dimension>, b: seq<Dimension>)
    ensures Names(a + b) == Names(a) + Names(b)
  {
    if a != [] {
      assert (a + b)[1..] == a[1..] + b;
      NamesAppend(a[1..], b);
    }
  }

  /**
   * POST /api/email/tracking-reminder: builds the untracked list one check
   * at a time, and hands it to the mailer (`sent`) only when it is non-empty.
   */
  method TrackingReminder(log: Option<DailyLog>) returns (untracked: seq<string>, sent: Option<seq<string>>)
    ensures untracked == Untracked(log)
    ensures sent.Some? <==> |untracked| > 0
    ensures sent.Some? ==> sent.value == untracked
  {
    untracked := [];
    if !Tracked(log, ExerciseDim) {
      untracked := untracked + ["Exercise"];
    }
    assert untracked == CheckName(log, ExerciseDim);
    if !Tracked(log, HydrationDim) {
      untracked := untracked + ["Hydration"];
    }
    assert untracked == CheckName(log, ExerciseDim) + CheckName(log, HydrationDim);
    if !Tracked(log, NutritionDim) {
      untracked := untracked + ["Nutrition"];
    }
    assert untracked == CheckName(log, ExerciseDim) + CheckName(log, HydrationDim) + CheckName(log, NutritionDim);
    if !Tracked(log, SleepDim) {
      untracked := untracked + ["Sleep"];
    }
    assert untracked == CheckName(log, ExerciseDim) + CheckName(log, HydrationDim) + CheckName(log, NutritionDim) +
      CheckName(log, SleepDim);
    if !Tracked(log, VitalsDim) {
      untracked := untracked + ["Vitals"];
    }
    sent := if |untracked| > 0 then Some(untracked) else None;
  }

  // ---------------------------------------------------------- email settings

  /** A JSON value a settings object can hold. */
  datatype SettingValue = Flag(b: bool) | Number(n: int) | Text(s: string) | Null

  type Settings = map<string, SettingValue>

  /**
   * `{ ...current, ...body }`: spreading an absent object contributes no
   * keys, and a key of the body replaces the same key of the current object.
   */
  function Merge(current: Option<Settings>, body: Settings): (m: Settings)
    ensures m.Keys == current.GetOr(map[]).Keys + body.Keys
    ensures forall k | k in body :: m[k] == body[k]
    ensures forall k | k in current.GetOr(map[]) && k !in body :: m[k] == current.GetOr(map[])[k]
  {
    current.GetOr(map[]) + body
  }

  /** Sending the same update twice has the effect of sending it once. */
  lemma MergeIdempotent(current: Option<Settings>, body: Settings)
    ensures Merge(Some(Merge(current, body)), body) == Merge(current, body)
  {
  }

  /** Two updates in a row equal one update with their union, the later winning. */
  lemma MergeTwice(current: Option<Settings>, first: Settings, second: Settings)
    ensures Merge(Some(Merge(current, first)), second) == Merge(current, first + second)
  {
  }

  /** An empty body leaves every existing setting as it was. */
  lemma MergeEmptyBody(current: Settings)
    ensures Merge(Some(current), map[]) == current
  {
  }

  /** The stored user, as far as the settings routes see it. */
  class User {
    var emailSettings: Option<Settings>

    constructor (settings: Option<Settings>)
      ensures emailSettings == settings
    {
      emailSettings := settings;
    }

    /** GET /api/user/email-settings. */
    function GetEmailSettings(): (s: Option<Settings>)
      reads this
      ensures s == emailSettings
    {
      emailSettings
    }

    /** PUT /api/user/email-settings: merge the body over the stored settings and save. */
    method UpdateEmailSettings(body: Settings) returns (settings: Settings)
      modifies this
      ensures emailSettings == Some(Merge(old(emailSettings), body))
      ensures settings == Merge(old(emailSettings), body)
    {
      emailSettings := Some(Merge(emailSettings, body));
      settings := emailSettings.value;
    }
  }
}
