/**
 * The CustomLogEntry document, one recorded value of a custom metric, with
 * the two statics of the model: the streak of consecutive days and the
 * statistics of a date window.
 */
module CustomLogEntrySchema {
  import opened Wrappers
  import opened Ids
  import opened Time

  /** The schema's `Mixed` value, as the three kinds of value a definition can record. */
  datatype Value = Number(n: real) | Boolean(b: bool) | Text(s: string)

  datatype Entry = Entry(user: UserId, definition: DefId, date: int, value: Value, notes: Option<string>, tags: seq<string>)

  /** The fields POST /api/custom-logs/entries takes from the body. */
  datatype EntryInput = EntryInput(
    definitionId: Option<DefId>,
    date: Option<int>,
    value: Option<Value>,
    notes: Option<string>,
    tags: Option<seq<string>>)

  /**
   * Build the entry for the authenticated user and save it: `definition`,
   * `date` and `value` are required, and `tags` is an array that defaults to
   * empty. The definition is not looked up, so it need not exist or belong
   * to the user.
   */
  function NewEntry(user: UserId, input: EntryInput): (r: Result<Entry, SaveError>)
    ensures r.Ok? <==> input.definitionId.Some? && input.date.Some? && input.value.Some?
    ensures r.Ok? ==> && r.value.user == user
                      && r.value.definition == input.definitionId.value
                      && r.value.date == input.date.value
                      && r.value.value == input.value.value
                      && r.value.notes == input.notes
                      && (input.tags.None? ==> r.value.tags == [])
                      && (input.tags.Some? ==> r.value.tags == input.tags.value)
  {
    if input.definitionId.None? || input.date.None? || input.value.None? then Err(ValidationError)
    else Ok(Entry(user, input.definitionId.value, input.date.value, input.value.value, input.notes, input.tags.GetOr([])))
  }

  // ------------------------------------------------------------------ queries

  datatype Window = Window(start: int, end: int)

  /** A `find` filter over entries: always the user, optionally a definition and a date window. */
  datatype EntryQuery = EntryQuery(user: UserId, definition: Option<DefId>, window: Option<Window>)

  predicate Matches(e: Entry, q: EntryQuery) {
    && e.user == q.user
    && (q.definition.None? || e.definition == q.definition.value)
    && (q.window.None? || q.window.value.start <= e.date <= q.window.value.end)
  }

  /** The entries a `find(q)` returns, in stored order. */
  function Select(entries: seq<Entry>, q: EntryQuery): (r: seq<Entry>)
    ensures |r| <= |entries|
    ensures forall e :: e in r <==> e in entries && Matches(e, q)
  {
    if entries == [] then []
    else
      var rest := Select(entries[..|entries| - 1], q);
      var e := entries[|entries| - 1];
      if Matches(e, q) then rest + [e] else rest
  }

  /** Every matching entry is kept, as often as it occurs. */
  lemma {:induction false} SelectCounts(entries: seq<Entry>, q: EntryQuery, e: Entry)
    ensures multiset(Select(entries, q))[e] == if Matches(e, q) then multiset(entries)[e] else 0
  {
    if entries != [] {
      var init := entries[..|entries| - 1];
      SelectCounts(init, q, e);
      assert entries == init + [entries[|entries| - 1]];
    }
  }

  /** `sort({ date: -1 })`: newest first. */
  predicate NewestFirstOrder(s: seq<Entry>) {
    forall i, j | 0 <= i < j < |s| :: s[i].date >= s[j].date
  }

  function Insert(e: Entry, s: seq<Entry>): seq<Entry> {
    if s == [] then [e]
    else if e.date >= s[0].date then [e] + s
    else [s[0]] + Insert(e, s[1..])
  }

  /** A reference sort defining the order the database returns. */
  function NewestFirst(s: seq<Entry>): seq<Entry> {
    if s == [] then [] else Insert(s[0], NewestFirst(s[1..]))
  }

  /** Every date of `s` is at most `d`. */
  predicate NoLaterThan(s: seq<Entry>, d: int) {
    forall i | 0 <= i < |s| :: s[i].date <= d
  }

  lemma {:induction false} InsertNoLaterThan(e: Entry, s: seq<Entry>, d: int)
    requires NoLaterThan(s, d) && e.date <= d
    ensures NoLaterThan(Insert(e, s), d)
  {
    if s != [] && e.date < s[0].date {
      InsertNoLaterThan(e, s[1..], d);
    }
  }

  lemma ConsOrder(x: Entry, s: seq<Entry>)
    requires NoLaterThan(s, x.date) && NewestFirstOrder(s)
    ensures NewestFirstOrder([x] + s)
  {
    var r := [x] + s;
    forall i, j | 0 <= i < j < |r| ensures r[i].date >= r[j].date {
      assert r[j] == s[j - 1];
      if i > 0 {
        assert r[i] == s[i - 1];
      }
    }
  }

  lemma {:induction false} InsertFacts(e: Entry, s: seq<Entry>)
    requires NewestFirstOrder(s)
    ensures multiset(Insert(e, s)) == multiset(s) + multiset{e}
    ensures NewestFirstOrder(Insert(e, s))
  {
    if s == [] {
    } else if e.date >= s[0].date {
      ConsOrder(e, s);
    } else {
      var tail := s[1..];
      assert s == [s[0]] + tail;
      assert NewestFirstOrder(tail) by {
        forall i, j | 0 <= i < j < |tail| ensures tail[i].date >= tail[j].date {
          assert s[i + 1] == tail[i] && s[j + 1] == tail[j];
        }
      }
      assert NoLaterThan(tail, s[0].date) by {
        forall i | 0 <= i < |tail| ensures tail[i].date <= s[0].date {
          assert s[i + 1] == tail[i];
        }
      }
      InsertFacts(e, tail);
      InsertNoLaterThan(e, tail, s[0].date);
      ConsOrder(s[0], Insert(e, tail));
    }
  }

  /** The reference sort orders newest first and keeps every entry. */
  lemma {:induction false} NewestFirstFacts(s: seq<Entry>)
    ensures multiset(NewestFirst(s)) == multiset(s)
    ensures NewestFirstOrder(NewestFirst(s))
  {
    if s != [] {
      NewestFirstFacts(s[1..]);
      InsertFacts(s[0], NewestFirst(s[1..]));
      assert s == [s[0]] + s[1..];
    }
  }

  // ------------------------------------------------------------------- streak

  /**
   * The streak of the newest-first `entries` counted from the reference date
   * `ref`: an entry continues it when the floored day gap from the reference
   * is at most 1, and then becomes the reference for the next entry; the
   * first entry that does not continue it ends the walk.
   */
  function StreakRun(entries: seq<Entry>, ref: int): (n: nat)
    ensures n <= |entries|
  {
    if entries == [] then 0
    else if DayGap(ref, entries[0].date) <= 1 then 1 + StreakRun(entries[1..], entries[0].date)
    else 0
  }

  /** The reference date entry `k` is compared with: "now", then the previous entry's date. */
  function RefDate(entries: seq<Entry>, now: int, k: nat): int
    requires k < |entries|
  {
    if k == 0 then now else entries[k - 1].date
  }

  predicate Continues(entries: seq<Entry>, now: int, k: nat)
    requires k < |entries|
  {
    DayGap(RefDate(entries, now, k), entries[k].date) <= 1
  }

  lemma RefDateShift(entries: seq<Entry>, now: int, k: nat)
    requires 0 < k < |entries|
    ensures RefDate(entries, now, k) == RefDate(entries[1..], entries[0].date, k - 1)
    ensures Continues(entries, now, k) == Continues(entries[1..], entries[0].date, k - 1)
  {
  }

  /** Every counted entry continues the streak, and the first uncounted one breaks it. */
  lemma {:induction false} StreakIsLongestRun(entries: seq<Entry>, now: int)
    ensures forall k | 0 <= k < StreakRun(entries, now) :: Continues(entries, now, k)
    ensures StreakRun(entries, now) < |entries| ==> !Continues(entries, now, StreakRun(entries, now))
  {
    if entries != [] && DayGap(now, entries[0].date) <= 1 {
      var rest := entries[1..];
      StreakIsLongestRun(rest, entries[0].date);
      forall k | 0 < k < |entries| {
        RefDateShift(entries, now, k);
      }
    }
  }

  /** Conversely, the streak is the only length with those two properties. */
  lemma StreakRunUnique(entries: seq<Entry>, now: int, n: nat)
    requires n <= |entries|
    requires forall k | 0 <= k < n :: Continues(entries, now, k)
    requires n < |entries| ==> !Continues(entries, now, n)
    ensures n == StreakRun(entries, now)
  {
    StreakIsLongestRun(entries, now);
  }

  /** The walk never looks past the entry that breaks the streak. */
  lemma {:induction false} StreakIgnoresLaterEntries(s: seq<Entry>, t: seq<Entry>, ref: int)
    requires StreakRun(s, ref) < |s|
    ensures StreakRun(s + t, ref) == StreakRun(s, ref)
  {
    if DayGap(ref, s[0].date) <= 1 {
      assert (s + t)[1..] == s[1..] + t;
      StreakIgnoresLaterEntries(s[1..], t, s[0].date);
    }
  }

  /** An entry two or more days before "now" at the head ends the streak at 0. */
  lemma StaleFirstEntryBreaks(entries: seq<Entry>, now: int)
    requires |entries| > 0 && now - entries[0].date >= 2 * DayMs
    ensures StreakRun(entries, now) == 0
  {
    WithinOneDay(now, entries[0].date);
  }

  /** Entries today, yesterday and the day before form a streak of three. */
  lemma ThreeDayStreak(e: Entry, now: int)
    ensures var s := [e.(date := now), e.(date := now - DayMs), e.(date := now - 2 * DayMs)];
      StreakRun(s, now) == 3
  {
    var s := [e.(date := now), e.(date := now - DayMs), e.(date := now - 2 * DayMs)];
    assert s[1..] == [e.(date := now - DayMs), e.(date := now - 2 * DayMs)];
    assert s[1..][1..] == [e.(date := now - 2 * DayMs)];
    assert s[1..][1..][1..] == [];
    assert DayGap(now, now) == 0;
    assert DayGap(now, now - DayMs) == 1;
    assert DayGap(now - DayMs, now - 2 * DayMs) == 1;
    assert StreakRun(s[1..][1..], now - DayMs) == 1;
    assert StreakRun(s[1..], now) == 2;
  }

  /** An entry today followed by one three days ago: the streak stops at one. */
  lemma GapBreaksStreak(e: Entry, now: int)
    ensures StreakRun([e.(date := now), e.(date := now - 3 * DayMs)], now) == 1
  {
    var s := [e.(date := now), e.(date := now - 3 * DayMs)];
    assert s[1..] == [e.(date := now - 3 * DayMs)];
    assert DayGap(now, now) == 0;
    assert DayGap(now, now - 3 * DayMs) == 3;
  }

  /** `Math.max`. */
  function Max(a: nat, b: nat): nat {
    if a > b then a else b
  }

  /**
   * `calculateStreak` over the entries already sorted newest first: the loop
   * counts, keeps the maximum in `longestStreak`, and breaks at the first gap.
   */
  method CalculateStreak(entries: seq<Entry>, now: int) returns (currentStreak: nat, longestStreak: nat)
    ensures currentStreak == StreakRun(entries, now)
    ensures longestStreak == currentStreak
    ensures entries == [] ==> currentStreak == 0 && longestStreak == 0
  {
    currentStreak, longestStreak := 0, 0;
    var lastDate := now;
    var i := 0;
    while i < |entries|
      invariant 0 <= i <= |entries|
      invariant currentStreak == i && longestStreak == i
      invariant StreakRun(entries, now) == i + StreakRun(entries[i..], lastDate)
    {
      var entryDate := entries[i].date;
      var diffDays := (lastDate - entryDate) / DayMs;
      assert entries[i..][1..] == entries[i + 1..];
      if diffDays <= 1 {
        currentStreak := currentStreak + 1;
        longestStreak := Max(currentStreak, longestStreak);
      } else {
        break;
      }
      lastDate := entryDate;
      i := i + 1;
    }
  }

  // --------------------------------------------------------------- statistics

  predicate AllNumbers(s: seq<Entry>) {
    forall i | 0 <= i < |s| :: s[i].value.Number?
  }

  /** `Math.min(...values)` over a non-empty list of numbers. */
  function MinValue(s: seq<Entry>): real
    requires |s| > 0 && AllNumbers(s)
  {
    if |s| == 1 then s[0].value.n
    else
      var m := MinValue(s[..|s| - 1]);
      if s[|s| - 1].value.n < m then s[|s| - 1].value.n else m
  }

  function MaxValue(s: seq<Entry>): real
    requires |s| > 0 && AllNumbers(s)
  {
    if |s| == 1 then s[0].value.n
    else
      var m := MaxValue(s[..|s| - 1]);
      if s[|s| - 1].value.n > m then s[|s| - 1].value.n else m
  }

  /** `reduce((sum, e) => sum + e.value, 0)`. */
  function ValueSum(s: seq<Entry>): real
    requires AllNumbers(s)
  {
    if s == [] then 0.0 else ValueSum(s[..|s| - 1]) + s[|s| - 1].value.n
  }

  /** The minimum and maximum bound every value and are values of the list. */
  lemma {:induction false} MinMaxBounds(s: seq<Entry>)
    requires |s| > 0 && AllNumbers(s)
    ensures forall i | 0 <= i < |s| :: MinValue(s) <= s[i].value.n <= MaxValue(s)
    ensures exists i | 0 <= i < |s| :: s[i].value.n == MinValue(s)
    ensures exists i | 0 <= i < |s| :: s[i].value.n == MaxValue(s)
  {
    if |s| > 1 {
      var init := s[..|s| - 1];
      MinMaxBounds(init);
      var i :| 0 <= i < |init| && init[i].value.n == MinValue(init);
      var j :| 0 <= j < |init| && init[j].value.n == MaxValue(init);
      assert s[i] == init[i] && s[j] == init[j];
    }
  }

  lemma {:induction false} SumAtLeast(s: seq<Entry>, c: real)
    requires AllNumbers(s)
    requires forall i | 0 <= i < |s| :: c <= s[i].value.n
    ensures |s| as real * c <= ValueSum(s)
  {
    if s != [] {
      var init := s[..|s| - 1];
      assert forall i | 0 <= i < |init| :: init[i] == s[i];
      SumAtLeast(init, c);
      assert |s| as real * c == |init| as real * c + c;
    }
  }

  lemma {:induction false} SumAtMost(s: seq<Entry>, c: real)
    requires AllNumbers(s)
    requires forall i | 0 <= i < |s| :: s[i].value.n <= c
    ensures ValueSum(s) <= |s| as real * c
  {
    if s != [] {
      var init := s[..|s| - 1];
      assert forall i | 0 <= i < |init| :: init[i] == s[i];
      SumAtMost(init, c);
      assert |s| as real * c == |init| as real * c + c;
    }
  }

  lemma QuotientBetween(lo: real, sum: real, hi: real, n: real)
    requires n > 0.0 && n * lo <= sum <= n * hi
    ensures lo <= sum / n <= hi
  {
    assert sum / n - lo == (sum - n * lo) / n;
    assert hi - sum / n == (n * hi - sum) / n;
  }

  /** The value statistics: absent unless the first value is a number. */
  datatype ValueStats =
    | NoValueStats
    | Numeric(min: real, max: real, average: real)
      /** The first value is a number but a later one is not; JS coercion is not modelled. */
    | Coerced

  datatype WindowStats = WindowStats(total: nat, averagePerWeek: int, averagePerMonth: int, values: ValueStats)

  /** The statistics `getStatistics` computes from the entries its query found. */
  function Summarize(found: seq<Entry>): (w: WindowStats)
    ensures w.total == |found|
    ensures w.averagePerWeek == 0 && w.averagePerMonth == 0
    ensures w.values.NoValueStats? <==> |found| == 0 || !found[0].value.Number?
    ensures w.values.Numeric? <==> |found| > 0 && AllNumbers(found)
    ensures w.values.Numeric? ==> w.values.min <= w.values.average <= w.values.max
    ensures w.values.Numeric? ==> forall i | 0 <= i < |found| :: w.values.min <= found[i].value.n <= w.values.max
    ensures w.values.Numeric? ==> exists i | 0 <= i < |found| :: found[i].value.n == w.values.min
    ensures w.values.Numeric? ==> exists i | 0 <= i < |found| :: found[i].value.n == w.values.max
    ensures w.values.Numeric? ==> w.values.average == ValueSum(found) / |found| as real
  {
    if |found| == 0 || !found[0].value.Number? then WindowStats(|found|, 0, 0, NoValueStats)
    else if !AllNumbers(found) then WindowStats(|found|, 0, 0, Coerced)
    else
      MinMaxBounds(found);
      SumAtLeast(found, MinValue(found));
      SumAtMost(found, MaxValue(found));
      QuotientBetween(MinValue(found), ValueSum(found), MaxValue(found), |found| as real);
      WindowStats(|found|, 0, 0, Numeric(MinValue(found), MaxValue(found), ValueSum(found) / |found| as real))
  }

  /** `getStatistics(user, definition, start, end)` over the stored entries. */
  function GetStatistics(entries: seq<Entry>, user: UserId, definition: DefId, start: int, end: int): (w: WindowStats)
    ensures w.total == |Select(entries, EntryQuery(user, Some(definition), Some(Window(start, end))))|
    ensures w.total <= |entries|
    ensures w.total == 0 ==> forall e | e in entries && e.user == user && e.definition == definition :: e.date < start || e.date > end
  {
    var found := Select(entries, EntryQuery(user, Some(definition), Some(Window(start, end))));
    Summarize(found)
  }
}
