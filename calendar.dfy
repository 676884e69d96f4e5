/**
 * The activity calendar service (internal/service/activity_calendar_service.go): one
 * summary per user and day, updated as activities are recorded, and the calendar of a
 * year or of a date range built by walking its days one midnight at a time.
 */
module ActivityCalendar {
  import opened Common
  import opened ObjectIds
  import opened Domain
  import opened CalendarSpec

  /** The error the summary store reports; the model does not distinguish its causes. */
  const StoreFailure := "summary store error"

  /** The error of a user lookup that finds no document. */
  const NoDocuments := "mongo: no documents in result"

  /** `contains`: a linear scan for `item`. */
  method ContainsType(slice: seq<string>, item: string) returns (found: bool)
    ensures found <==> item in slice
  {
    var i := 0;
    while i < |slice|
      invariant 0 <= i <= |slice|
      invariant item !in slice[..i]
    {
      if slice[i] == item {
        return true;
      }
      i := i + 1;
    }
    assert slice[..i] == slice;
    return false;
  }

  /** A summary as recording keeps it: at least one activity, distinct types (at most one
      new type per activity), the first activity no later than the last. */
  predicate WellFormed(s: DailyActivitySummary)
  {
    && s.activityCount >= 1
    && 1 <= |s.activityTypes| <= s.activityCount
    && NoDuplicates(s.activityTypes)
    && s.firstActivity <= s.lastActivity
  }

  /** The summary of day `DayOf(time)` after one more activity, from the one stored, if any. */
  function Merged(existing: Option<DailyActivitySummary>, userId: ObjectId, activityType: string, time: int): (s: DailyActivitySummary)
    ensures existing.None? ==> s.activityCount == 1 && s.activityTypes == [activityType]
    ensures existing.Some? ==> (s.activityCount == existing.value.activityCount + 1
      && |existing.value.activityTypes| <= |s.activityTypes| <= |existing.value.activityTypes| + 1
      && s.activityTypes[..|existing.value.activityTypes|] == existing.value.activityTypes)
    ensures existing.Some? ==> forall t :: t in s.activityTypes <==> t in existing.value.activityTypes || t == activityType
    ensures s.lastActivity == time
    ensures existing.Some? ==> (s.firstActivity <= existing.value.firstActivity && s.firstActivity <= time
      && (s.firstActivity == existing.value.firstActivity || s.firstActivity == time))
  {
    match existing
    case None => DailyActivitySummary(userId, DayOf(time), 1, [activityType], time, time)
    case Some(e) =>
      var types := if activityType in e.activityTypes then e.activityTypes else e.activityTypes + [activityType];
      var first := if time < e.firstActivity then time else e.firstActivity;
      e.(activityCount := e.activityCount + 1, activityTypes := types, firstActivity := first, lastActivity := time)
  }

  lemma MergedWellFormed(existing: Option<DailyActivitySummary>, userId: ObjectId, activityType: string, time: int)
    requires existing.Some? ==> WellFormed(existing.value)
    ensures WellFormed(Merged(existing, userId, activityType, time))
  {
    var s := Merged(existing, userId, activityType, time);
    if existing.Some? && activityType !in existing.value.activityTypes {
      var e := existing.value.activityTypes;
      assert forall i :: 0 <= i < |e| ==> s.activityTypes[i] == e[i];
    }
  }

  /** The summary left by recording `acts` (type and time) one after the other on a day
      with none before. */
  function RecordAll(userId: ObjectId, acts: seq<(string, int)>): Option<DailyActivitySummary>
  {
    if acts == [] then None
    else
      var last := acts[|acts| - 1];
      Some(Merged(RecordAll(userId, acts[..|acts| - 1]), userId, last.0, last.1))
  }

  /** After `n` activities the summary is well formed, counts `n` of them and ends at the
      most recent one. */
  lemma {:induction false} RecordAllCounts(userId: ObjectId, acts: seq<(string, int)>)
    requires acts != []
    ensures WellFormed(RecordAll(userId, acts).value)
    ensures RecordAll(userId, acts).value.activityCount == |acts|
    ensures RecordAll(userId, acts).value.lastActivity == acts[|acts| - 1].1
  {
    var prefix := acts[..|acts| - 1];
    if prefix != [] {
      RecordAllCounts(userId, prefix);
    }
    var last := acts[|acts| - 1];
    MergedWellFormed(RecordAll(userId, prefix), userId, last.0, last.1);
  }

  /** The summary lists exactly the types recorded. */
  lemma {:induction false} RecordAllTypes(userId: ObjectId, acts: seq<(string, int)>, t: string)
    requires acts != []
    ensures t in RecordAll(userId, acts).value.activityTypes <==> exists i :: 0 <= i < |acts| && acts[i].0 == t
  {
    var n := |acts|;
    var prefix := acts[..n - 1];
    if prefix != [] {
      RecordAllTypes(userId, prefix, t);
      if exists i :: 0 <= i < n - 1 && prefix[i].0 == t {
        var i :| 0 <= i < n - 1 && prefix[i].0 == t;
        assert acts[i].0 == t;
      }
      if exists i :: 0 <= i < n && acts[i].0 == t {
        var i :| 0 <= i < n && acts[i].0 == t;
        if i < n - 1 {
          assert prefix[i].0 == t;
        }
      }
    }
  }

  /** The summary's first activity is the earliest one recorded. */
  lemma {:induction false} RecordAllFirst(userId: ObjectId, acts: seq<(string, int)>)
    requires acts != []
    ensures forall i :: 0 <= i < |acts| ==> RecordAll(userId, acts).value.firstActivity <= acts[i].1
    ensures exists i :: 0 <= i < |acts| && RecordAll(userId, acts).value.firstActivity == acts[i].1
  {
    var n := |acts|;
    var prefix := acts[..n - 1];
    var s := RecordAll(userId, acts).value;
    if prefix == [] {
      assert s.firstActivity == acts[0].1;
    } else {
      RecordAllFirst(userId, prefix);
      var p := RecordAll(userId, prefix).value;
      assert forall i :: 0 <= i < n - 1 ==> prefix[i] == acts[i];
      if s.firstActivity == p.firstActivity {
        var i :| 0 <= i < n - 1 && p.firstActivity == prefix[i].1;
        assert s.firstActivity == acts[i].1;
      } else {
        assert s.firstActivity == acts[n - 1].1;
      }
    }
  }

  /** Adds one to the breakdown entry of each type, as the calendar loops do. */
  method CountTypes(m: map<string, int>, types: seq<string>) returns (r: map<string, int>)
    ensures r == AddTypes(m, types)
  {
    r := m;
    var j := 0;
    while j < |types|
      invariant 0 <= j <= |types|
      invariant r == AddTypes(m, types[..j])
    {
      var t := types[j];
      r := r[t := if t in r then r[t] + 1 else 1];
      assert types[..j + 1][..j] == types[..j];
      j := j + 1;
    }
    assert types[..j] == types;
  }

  /** One visited day: its calendar entry, and the running totals advanced past it. */
  method AddDay(sm: map<int, DailyActivitySummary>, date: int, ghost before: seq<CalendarDay>, t: Totals)
    returns (day: CalendarDay, t': Totals)
    requires t == TotalsOf(before)
    ensures day == DayFor(sm, date)
    ensures t' == TotalsOf(before + [day])
  {
    FoldsSnoc(before, DayFor(sm, date));
    day := CalendarDay(date, 0, false, []);
    t' := t;
    if date in sm {
      var summary := sm[date];
      day := CalendarDay(date, summary.activityCount, true, summary.activityTypes);
      var breakdown := CountTypes(t.breakdown, summary.activityTypes);
      t' := t'.(activeDays := t.activeDays + 1, totalActivities := t.totalActivities + summary.activityCount,
                breakdown := breakdown);
      if summary.activityCount > t.peak.count {
        t' := t'.(peak := Peak(summary.activityCount, Some(date)));
      }
    }
  }

  /** Adds the day to the open week, and closes that week when `closes`. */
  method AppendDay(ghost visited: seq<CalendarDay>, ghost closeAt: int, weeks: seq<Week>, currentWeek: Week,
                   day: CalendarDay, closes: bool)
    returns (weeks': seq<Week>, currentWeek': Week)
    requires SplitWeeks(visited, closeAt) == Split(weeks, currentWeek)
    requires closes == (IsSunday(day.date) || |visited| == closeAt)
    ensures SplitWeeks(visited + [day], closeAt) == Split(weeks', currentWeek')
  {
    SplitWeeksSnoc(visited, day, closeAt, closes);
    weeks', currentWeek' := weeks, currentWeek + [day];
    if closes {
      weeks' := weeks' + [currentWeek'];
      currentWeek' := [];
    }
  }

  class ActivityCalendarService {
    /** `daily_activity_summaries`, keyed by user and day. */
    var summaries: map<(ObjectId, int), DailyActivitySummary>

    ghost predicate Valid()
      reads this
    {
      forall k :: k in summaries ==> WellFormed(summaries[k]) && summaries[k].userId == k.0 && summaries[k].date == k.1
    }

    constructor()
      ensures summaries == map[] && Valid()
    {
      summaries := map[];
    }

    /** The user's summaries of days `firstDay` to `lastDay`, keyed by day. */
    function UserSummaries(userId: ObjectId, firstDay: int, lastDay: int): map<int, DailyActivitySummary>
      reads this
    {
      map d | (userId, d) in summaries && firstDay <= d <= lastDay :: summaries[(userId, d)]
    }

    /** The calendar of year `y` from the user's summaries of that year: every day of
        the year in order, weeks closed after Sundays and after day `closeAt`. */
    function YearCalendarOf(userId: ObjectId, y: int, closeAt: int, user: User): CalendarResponse
      reads this
    {
      var sm := UserSummaries(userId, YearStart(y), YearStart(y + 1) - 1);
      CalendarOf(y, Days(sm, YearStart(y), DaysInYear(y)), closeAt, user)
    }

    /** RecordDailyActivity: `storeOk` is whether the store's lookup and write succeed. */
    method RecordDailyActivity(userId: ObjectId, activityType: string, activityTime: int, storeOk: bool)
      returns (err: Option<string>)
      requires Valid()
      modifies this
      ensures Valid()
      ensures err.None? <==> storeOk
      ensures var key := (userId, DayOf(activityTime));
        summaries == if storeOk then old(summaries)[key := Merged(if key in old(summaries) then Some(old(summaries)[key]) else None, userId, activityType, activityTime)]
                     else old(summaries)
    {
      if !storeOk {
        return Some(StoreFailure);
      }
      var key := (userId, DayOf(activityTime));
      if key !in summaries {
        summaries := summaries[key := DailyActivitySummary(userId, key.1, 1, [activityType], activityTime, activityTime)];
        return None;
      }
      var existing := summaries[key];
      var types := existing.activityTypes;
      var present := ContainsType(existing.activityTypes, activityType);
      if !present {
        types := types + [activityType];
      }
      var first := existing.firstActivity;
      if activityTime < existing.firstActivity {
        first := activityTime;
      }
      MergedWellFormed(Some(existing), userId, activityType, activityTime);
      summaries := summaries[key := existing.(activityCount := existing.activityCount + 1, activityTypes := types,
                                              firstActivity := first, lastActivity := activityTime)];
      return None;
    }

    /** The day walk shared by both calendars: visits the midnights from `startSec` while
        before `endSec` (or equal to it, when `inclusive`), closing a week after a Sunday
        or after the visit at `closeSec`. */
    method Walk(sm: map<int, DailyActivitySummary>, startSec: int, endSec: int, inclusive: bool, closeSec: int,
                ghost first: int, ghost n: nat, ghost closeAt: int)
      returns (weeks: seq<Week>, totalDays: int, totals: Totals)
      requires first == DayOf(startSec) && n == VisitCount(startSec, endSec, inclusive)
      requires closeAt == ClosingIndex(startSec, closeSec)
      ensures var ds := Days(sm, first, n);
        weeks == SplitWeeks(ds, closeAt).weeks && totalDays == n && totals == TotalsOf(ds)
    {
      var current := startSec;
      var currentWeek: Week := [];
      weeks, totalDays := [], 0;
      totals := Totals(0, 0, map[], Peak(0, None));
      ghost var visited: seq<CalendarDay> := [];
      while current < endSec || (inclusive && current == endSec)
        invariant 0 <= totalDays <= n
        invariant current == startSec + SecondsPerDay * totalDays
        invariant |visited| == totalDays && forall i :: 0 <= i < totalDays ==> visited[i] == DayFor(sm, first + i)
        invariant SplitWeeks(visited, closeAt) == Split(weeks, currentWeek)
        invariant totals == TotalsOf(visited)
        decreases n - totalDays
      {
        LoopGuard(startSec, endSec, inclusive, totalDays);
        VisitCloses(sm, startSec, closeSec, totalDays);
        var date := DayOf(current);
        var day;
        day, totals := AddDay(sm, date, visited, totals);
        weeks, currentWeek := AppendDay(visited, closeAt, weeks, currentWeek, day, IsSunday(date) || current == closeSec);
        visited := visited + [day];
        totalDays := totalDays + 1;
        current := current + SecondsPerDay;
      }
      LoopGuard(startSec, endSec, inclusive, totalDays);
      DaysAre(sm, first, visited);
    }

    /** The calendar of year `y`: the walk from 1 January 00:00:00 while before
        31 December 23:59:59, closing weeks after Sundays and at `closeSec`. */
    method YearCalendar(userId: ObjectId, y: int, user: Option<User>, closeSec: int)
      returns (r: Result<CalendarResponse, string>)
      ensures r == if user.None? then Err(NoDocuments)
                   else Ok(YearCalendarOf(userId, y, ClosingIndex(YearStart(y) * SecondsPerDay, closeSec), user.value))
    {
      var startSec := YearStart(y) * SecondsPerDay;
      var endSec := YearStart(y + 1) * SecondsPerDay - 1;
      DayOfStep(0, YearStart(y));
      DayOfStep(-1, YearStart(y + 1));
      YearWalk(y);
      var sm := UserSummaries(userId, DayOf(startSec), DayOf(endSec));
      var weeks, totalDays, totals := Walk(sm, startSec, endSec, false, closeSec,
                                           YearStart(y), DaysInYear(y), ClosingIndex(startSec, closeSec));
      if user.None? {
        return Err(NoDocuments);
      }
      var consecutive := CalculateConsecutiveWeeks(weeks);
      r := Ok(Response(y, totalDays, weeks, totals, consecutive, user.value));
    }

    /** GetActivityCalendar: year 0 means the current year `nowYear`; `user` is the user's
        document, if found. The end-of-year comparison is one day before the year's last
        second, which no midnight equals. */
    method GetActivityCalendar(userId: ObjectId, year: int, nowYear: int, user: Option<User>)
      returns (r: Result<CalendarResponse, string>)
      ensures var y := if year == 0 then nowYear else year;
        r == if user.None? then Err(NoDocuments) else Ok(YearCalendarOf(userId, y, -1, user.value))
    {
      var y := year;
      if y == 0 {
        y := nowYear;
      }
      YearWalk(y);
      r := YearCalendar(userId, y, user, YearStart(y + 1) * SecondsPerDay - 1 - SecondsPerDay);
    }

    /** The year calendar as its end-of-year comparison intends it: against the last
        midnight of the year, so that the last week is closed. */
    method GetActivityCalendarClosingLastWeek(userId: ObjectId, year: int, nowYear: int, user: Option<User>)
      returns (r: Result<CalendarResponse, string>)
      ensures var y := if year == 0 then nowYear else year;
        r == if user.None? then Err(NoDocuments) else Ok(YearCalendarOf(userId, y, DaysInYear(y) - 1, user.value))
    {
      var y := year;
      if y == 0 {
        y := nowYear;
      }
      YearWalkLastMidnight(y);
      r := YearCalendar(userId, y, user, YearStart(y + 1) * SecondsPerDay - SecondsPerDay);
    }

    /** GetActivityCalendarRange: the days from `startSec` up to and including `endSec`;
        `startYear` is the calendar year of `startSec`. */
    method GetActivityCalendarRange(userId: ObjectId, startSec: int, endSec: int, startYear: int, user: Option<User>)
      returns (r: Result<CalendarResponse, string>)
      requires YearStart(startYear) <= DayOf(startSec) < YearStart(startYear + 1)
      ensures var sm := UserSummaries(userId, DayOf(startSec), DayOf(endSec));
        var days := Days(sm, DayOf(startSec), VisitCount(startSec, endSec, true));
        r == if user.None? then Err(NoDocuments) else Ok(CalendarOf(startYear, days, ClosingIndex(startSec, endSec), user.value))
    {
      var sm := UserSummaries(userId, DayOf(startSec), DayOf(endSec));
      var weeks, totalDays, totals := Walk(sm, startSec, endSec, true, endSec,
                                           DayOf(startSec), VisitCount(startSec, endSec, true), ClosingIndex(startSec, endSec));
      if user.None? {
        return Err(NoDocuments);
      }
      var consecutive := CalculateConsecutiveWeeks(weeks);
      var u := user.value;
      r := Ok(Response(startYear, totalDays, weeks, totals, consecutive, u));
    }

    /** calculateConsecutiveWeeks. */
    method CalculateConsecutiveWeeks(weeks: seq<Week>) returns (maxConsecutive: int)
      ensures maxConsecutive == LongestActiveRun(weeks)
    {
      var consecutive := 0;
      maxConsecutive := 0;
      var i := 0;
      while i < |weeks|
        invariant 0 <= i <= |weeks|
        invariant ActiveRuns(weeks[..i]) == Runs(consecutive, maxConsecutive)
      {
        var week := weeks[i];
        var hasActivity := false;
        var j := 0;
        while j < |week|
          invariant 0 <= j <= |week|
          invariant hasActivity <==> exists k :: 0 <= k < j && week[k].hasActivity
        {
          if week[j].hasActivity {
            hasActivity := true;
            break;
          }
          j := j + 1;
        }
        if hasActivity {
          consecutive := consecutive + 1;
          if consecutive > maxConsecutive {
            maxConsecutive := consecutive;
          }
        } else {
          consecutive := 0;
        }
        assert weeks[..i + 1][..i] == weeks[..i];
        i := i + 1;
      }
      assert weeks[..i] == weeks;
    }
  }
}
