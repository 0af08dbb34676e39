/**
 * The custom-log routes over the stored definitions and entries: create a
 * definition, list the active ones, record an entry, query entries newest
 * first, and the streak and 30-day statistics of one definition.
 */
module CustomLogs {
  import opened Wrappers
  import opened Ids
  import opened Time
  import opened CustomLogDefinitionSchema
  import opened CustomLogEntrySchema

  /** The statistics window of GET /api/custom-logs/stats, in days before now. */
  const StatsWindowDays: int := 30

  /**
   * The filter of GET /api/custom-logs/entries: always the user, the
   * definition when one is given, and a date window only when both bounds
   * are given.
   */
  function EntriesQuery(user: UserId, definitionId: Option<DefId>, startDate: Option<int>, endDate: Option<int>): (q: EntryQuery)
    ensures q.user == user && q.definition == definitionId
    ensures q.window.Some? <==> startDate.Some? && endDate.Some?
    ensures q.window.Some? ==> q.window.value == Window(startDate.value, endDate.value)
  {
    if startDate.Some? && endDate.Some? then EntryQuery(user, definitionId, Some(Window(startDate.value, endDate.value)))
    else EntryQuery(user, definitionId, None)
  }

  /** A single date bound filters nothing. */
  lemma OneBoundIsIgnored(entries: seq<Entry>, user: UserId, definitionId: Option<DefId>, bound: int)
    ensures Select(entries, EntriesQuery(user, definitionId, Some(bound), None))
         == Select(entries, EntriesQuery(user, definitionId, None, None))
    ensures Select(entries, EntriesQuery(user, definitionId, None, Some(bound)))
         == Select(entries, EntriesQuery(user, definitionId, None, None))
  {
  }

  /** With no filters the query returns every entry of the user and nobody else's. */
  lemma UnfilteredQueryIsTheUsersEntries(entries: seq<Entry>, user: UserId, e: Entry)
    ensures e in Select(entries, EntriesQuery(user, None, None, None)) <==> e in entries && e.user == user
  {
  }

  class CustomLogStore {
    var definitions: seq<Definition>
    var entries: seq<Entry>

    constructor ()
      ensures definitions == [] && entries == []
    {
      definitions := [];
      entries := [];
    }

    /** POST /api/custom-logs/definitions: a definition that passes validation is stored. */
    method CreateDefinition(id: DefId, user: UserId, input: DefinitionInput) returns (r: Result<Definition, SaveError>)
      modifies this
      ensures r == NewDefinition(id, user, input)
      ensures r.Ok? ==> definitions == old(definitions) + [r.value]
      ensures r.Err? ==> definitions == old(definitions)
      ensures entries == old(entries)
    {
      r := NewDefinition(id, user, input);
      if r.Ok? {
        definitions := definitions + [r.value];
      }
    }

    /** GET /api/custom-logs/definitions. */
    function ListDefinitions(user: UserId): (r: seq<Definition>)
      reads this
      ensures forall d :: d in r <==> d in definitions && d.user == user && d.active
    {
      ActiveFor(definitions, user)
    }

    /** POST /api/custom-logs/entries: an entry with its required fields is stored. */
    method CreateEntry(user: UserId, input: EntryInput) returns (r: Result<Entry, SaveError>)
      modifies this
      ensures r == NewEntry(user, input)
      ensures r.Ok? ==> entries == old(entries) + [r.value]
      ensures r.Err? ==> entries == old(entries)
      ensures definitions == old(definitions)
    {
      r := NewEntry(user, input);
      if r.Ok? {
        entries := entries + [r.value];
      }
    }

    /** GET /api/custom-logs/entries: the matching entries, newest first. */
    function QueryEntries(user: UserId, definitionId: Option<DefId>, startDate: Option<int>, endDate: Option<int>): (r: seq<Entry>)
      reads this
      ensures NewestFirstOrder(r)
      ensures multiset(r) == multiset(Select(entries, EntriesQuery(user, definitionId, startDate, endDate)))
      ensures forall e :: e in r <==> e in entries && Matches(e, EntriesQuery(user, definitionId, startDate, endDate))
    {
      var found := Select(entries, EntriesQuery(user, definitionId, startDate, endDate));
      NewestFirstFacts(found);
      assert forall e :: e in NewestFirst(found) <==> e in multiset(found);
      NewestFirst(found)
    }

    /**
     * GET /api/custom-logs/stats: the streak over all entries of the
     * definition, newest first from now, and the statistics of the last
     * 30 days up to now.
     */
    method Stats(user: UserId, definitionId: DefId, now: int)
      returns (currentStreak: nat, longestStreak: nat, stats: WindowStats)
      ensures currentStreak == StreakRun(QueryEntries(user, Some(definitionId), None, None), now)
      ensures longestStreak == currentStreak
      ensures stats == GetStatistics(entries, user, definitionId, now - StatsWindowDays * DayMs, now)
      ensures stats.total <= |entries|
    {
      var sorted := QueryEntries(user, Some(definitionId), None, None);
      currentStreak, longestStreak := CalculateStreak(sorted, now);
      stats := GetStatistics(entries, user, definitionId, now - StatsWindowDays * DayMs, now);
    }

    /** A freshly stored entry of the user is returned by the unfiltered query. */
    lemma StoredEntryIsQueried(e: Entry)
      requires e in entries
      ensures e in QueryEntries(e.user, None, None, None)
      ensures e in QueryEntries(e.user, Some(e.definition), None, None)
    {
    }
  }
}
