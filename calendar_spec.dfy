/**
 * What the activity calendar computes, as functions of the sequence of days it walks
 * (internal/service/activity_calendar_service.go:120-201 and 234-308): the split into
 * weeks, the totals, the per-type breakdown, the most active day and the longest run of
 * active weeks; and the Gregorian year arithmetic that fixes which days a year has.
 */
module CalendarSpec {
  import opened Common
  import opened Domain

  // ---------------------------------------------------------------- years

  predicate IsLeapYear(y: int)
  {
    y % 4 == 0 && (y % 100 != 0 || y % 400 == 0)
  }

  function DaysInYear(y: int): int
  {
    if IsLeapYear(y) then 366 else 365
  }

  /** Leap days in the years before `y` (proleptic Gregorian calendar, from year 1). */
  function LeapDaysBefore(y: int): int
  {
    (y - 1) / 4 - (y - 1) / 100 + (y - 1) / 400
  }

  /** The day number of 1 January of year `y`. */
  function YearStart(y: int): int
  {
    365 * (y - 1970) + LeapDaysBefore(y) - LeapDaysBefore(1970)
  }

  lemma {:induction false} MulAtLeast(k: int, d: int)
    requires k > 0 && d >= 1
    ensures k * d >= k
  {
    if d > 1 {
      MulAtLeast(k, d - 1);
      assert k * d == k * (d - 1) + k;
    }
  }

  /** Euclidean quotient and remainder are unique. */
  lemma DivUnique(y: int, k: int, q: int, r: int)
    requires k > 0 && 0 <= r < k && y == k * q + r
    ensures y / k == q && y % k == r
  {
    var q', r' := y / k, y % k;
    assert y == k * q' + r' && 0 <= r' < k;
    assert k * (q - q') == r' - r;
    if q > q' {
      MulAtLeast(k, q - q');
    } else if q < q' {
      MulAtLeast(k, q' - q);
    }
  }

  lemma DivStep(y: int, k: int)
    requires k > 0
    ensures y / k - (y - 1) / k == if y % k == 0 then 1 else 0
  {
    var q, r := (y - 1) / k, (y - 1) % k;
    assert y - 1 == k * q + r && 0 <= r < k;
    if r + 1 < k {
      DivUnique(y, k, q, r + 1);
    } else {
      assert k * (q + 1) == k * q + k;
      DivUnique(y, k, q + 1, 0);
    }
  }

  /** Consecutive years start `DaysInYear` days apart: 365 or 366. */
  lemma {:induction false} YearLength(y: int)
    ensures YearStart(y + 1) - YearStart(y) == DaysInYear(y)
    ensures YearStart(y + 1) - YearStart(y) == 365 || YearStart(y + 1) - YearStart(y) == 366
  {
    DivStep(y, 4);
    DivStep(y, 100);
    DivStep(y, 400);
    if y % 100 == 0 {
      assert y == 4 * (25 * (y / 100)) + 0;
      DivUnique(y, 4, 25 * (y / 100), 0);
    }
    if y % 400 == 0 {
      assert y == 100 * (4 * (y / 400)) + 0;
      DivUnique(y, 100, 4 * (y / 400), 0);
    }
  }

  lemma YearStartOfEpoch()
    ensures YearStart(1970) == 0 && YearStart(2025) == 20089
  {
  }

  // ---------------------------------------------------------------- instants

  /** How many midnights from `startSec` on, one day apart, the walk visits: those before
      `endSec`, or up to and including it when `inclusive`. */
  function VisitCount(startSec: int, endSec: int, inclusive: bool): nat
  {
    if inclusive then (if endSec >= startSec then (endSec - startSec) / SecondsPerDay + 1 else 0)
    else (if endSec > startSec then (endSec - startSec - 1) / SecondsPerDay + 1 else 0)
  }

  /** The index of the visit whose instant equals `closeSec`, or -1 when none does. */
  function ClosingIndex(startSec: int, closeSec: int): int
  {
    if closeSec >= startSec && (closeSec - startSec) % SecondsPerDay == 0 then (closeSec - startSec) / SecondsPerDay
    else -1
  }

  /** The walk's loop condition holds at visit `k` exactly while `k` is below the count. */
  lemma LoopGuard(startSec: int, endSec: int, inclusive: bool, k: int)
    requires k >= 0
    ensures (startSec + SecondsPerDay * k < endSec || (inclusive && startSec + SecondsPerDay * k == endSec))
      <==> k < VisitCount(startSec, endSec, inclusive)
  {
  }

  /** Visit `k` is at `closeSec` exactly when `k` is the closing index. */
  lemma ClosingAt(startSec: int, closeSec: int, k: int)
    requires k >= 0
    ensures startSec + SecondsPerDay * k == closeSec <==> k == ClosingIndex(startSec, closeSec)
  {
    if startSec + SecondsPerDay * k == closeSec {
      DivUnique(closeSec - startSec, SecondsPerDay, k, 0);
    }
  }

  /** Visit `k` falls on the `k`-th day after the first. */
  lemma DayOfStep(startSec: int, k: int)
    ensures DayOf(startSec + SecondsPerDay * k) == DayOf(startSec) + k
  {
    DivUnique(startSec + SecondsPerDay * k, SecondsPerDay, startSec / SecondsPerDay + k, startSec % SecondsPerDay);
  }

  /** Visit `k` closes a week, by the walk's own test on the instant, exactly when day `k`
      of the walk closes one in `SplitWeeks`. */
  lemma VisitCloses(sm: map<int, DailyActivitySummary>, startSec: int, closeSec: int, k: int)
    requires k >= 0
    ensures var current := startSec + SecondsPerDay * k;
      && DayOf(current) == DayOf(startSec) + k
      && DayFor(sm, DayOf(current)).date == DayOf(current)
      && (IsSunday(DayOf(current)) || current == closeSec) == (IsSunday(DayFor(sm, DayOf(current)).date) || k == ClosingIndex(startSec, closeSec))
  {
    DayOfStep(startSec, k);
    ClosingAt(startSec, closeSec, k);
  }

  /** A year walk (from 1 January 00:00:00 while before 31 December 23:59:59) visits every
      day of the year, and its end-of-year comparison (one day before that last second)
      never matches a visit. */
  lemma YearWalk(y: int)
    ensures var startSec, endSec := YearStart(y) * SecondsPerDay, YearStart(y + 1) * SecondsPerDay - 1;
      && VisitCount(startSec, endSec, false) == DaysInYear(y)
      && ClosingIndex(startSec, endSec - SecondsPerDay) == -1
  {
    YearLength(y);
    var len := YearStart(y + 1) - YearStart(y);
    var startSec, endSec := YearStart(y) * SecondsPerDay, YearStart(y + 1) * SecondsPerDay - 1;
    assert endSec - startSec - 1 == SecondsPerDay * (len - 1) + (SecondsPerDay - 2);
    DivUnique(endSec - startSec - 1, SecondsPerDay, len - 1, SecondsPerDay - 2);
    assert endSec - SecondsPerDay - startSec == SecondsPerDay * (len - 2) + (SecondsPerDay - 1);
    DivUnique(endSec - SecondsPerDay - startSec, SecondsPerDay, len - 2, SecondsPerDay - 1);
  }

  /** Comparing with the last midnight of the year instead closes the last visit. */
  lemma YearWalkLastMidnight(y: int)
    ensures ClosingIndex(YearStart(y) * SecondsPerDay, YearStart(y + 1) * SecondsPerDay - SecondsPerDay) == DaysInYear(y) - 1
  {
    YearWalk(y);
    var len := YearStart(y + 1) - YearStart(y);
    DivUnique(SecondsPerDay * (len - 1), SecondsPerDay, len - 1, 0);
  }

  /** A range walk whose end is a whole number of days after its start closes its last
      visit. */
  lemma RangeWalkAligned(startSec: int, endSec: int)
    requires endSec >= startSec && (endSec - startSec) % SecondsPerDay == 0
    ensures ClosingIndex(startSec, endSec) == VisitCount(startSec, endSec, true) - 1
  {
  }

  // ---------------------------------------------------------------- days

  /** The calendar entry for `date`, taken from the user's summaries keyed by date. */
  function DayFor(sm: map<int, DailyActivitySummary>, date: int): CalendarDay
  {
    if date in sm then CalendarDay(date, sm[date].activityCount, true, sm[date].activityTypes)
    else CalendarDay(date, 0, false, [])
  }

  /** The `n` days from `first` on, in order. */
  function Days(sm: map<int, DailyActivitySummary>, first: int, n: nat): (r: seq<CalendarDay>)
    ensures |r| == n
    ensures forall i :: 0 <= i < n ==> r[i] == DayFor(sm, first + i)
  {
    if n == 0 then [] else Days(sm, first, n - 1) + [DayFor(sm, first + n - 1)]
  }

  /** A sequence holding each day's entry from `first` on is `Days`. */
  lemma DaysAre(sm: map<int, DailyActivitySummary>, first: int, ds: seq<CalendarDay>)
    requires forall i :: 0 <= i < |ds| ==> ds[i] == DayFor(sm, first + i)
    ensures ds == Days(sm, first, |ds|)
  {
  }

  predicate Consecutive(days: seq<CalendarDay>, first: int)
  {
    forall i :: 0 <= i < |days| ==> days[i].date == first + i
  }

  // ---------------------------------------------------------------- weeks

  /** The closed weeks and the week still open after some days. */
  datatype Split = Split(weeks: seq<Week>, open: Week)

  /** A week is closed after day `i` when that day is a Sunday or `i == closeAt`
      (`closeAt` is -1 when the end-of-range comparison can never hold). */
  predicate ClosesAfter(days: seq<CalendarDay>, i: int, closeAt: int)
    requires 0 <= i < |days|
  {
    IsSunday(days[i].date) || i == closeAt
  }

  function SplitWeeks(days: seq<CalendarDay>, closeAt: int): Split
  {
    if days == [] then Split([], [])
    else
      var s := SplitWeeks(days[..|days| - 1], closeAt);
      var week := s.open + [days[|days| - 1]];
      if ClosesAfter(days, |days| - 1, closeAt) then Split(s.weeks + [week], [])
      else Split(s.weeks, week)
  }

  function Flatten(weeks: seq<Week>): seq<CalendarDay>
  {
    if weeks == [] then [] else Flatten(weeks[..|weeks| - 1]) + weeks[|weeks| - 1]
  }

  lemma FlattenAppend(weeks: seq<Week>, w: Week)
    ensures Flatten(weeks + [w]) == Flatten(weeks) + w
  {
    assert (weeks + [w])[..|weeks|] == weeks;
  }

  /** Adding a day to the open week, and then closing it or not, keeps the closed weeks
      followed by the open one equal to the days walked. */
  lemma SplitStepCovers(s: Split, prefix: seq<CalendarDay>, last: CalendarDay)
    requires Flatten(s.weeks) + s.open == prefix
    ensures Flatten(s.weeks + [s.open + [last]]) + [] == prefix + [last]
    ensures Flatten(s.weeks) + (s.open + [last]) == prefix + [last]
  {
    FlattenAppend(s.weeks, s.open + [last]);
  }

  /** The closed weeks followed by the open one are exactly the days walked. */
  lemma {:induction false} SplitCovers(days: seq<CalendarDay>, closeAt: int)
    ensures Flatten(SplitWeeks(days, closeAt).weeks) + SplitWeeks(days, closeAt).open == days
  {
    if days != [] {
      var prefix := days[..|days| - 1];
      SplitCovers(prefix, closeAt);
      assert days == prefix + [days[|days| - 1]];
      SplitStepCovers(SplitWeeks(prefix, closeAt), prefix, days[|days| - 1]);
    }
  }

  /** Seven consecutive days always include a Sunday. */
  lemma SundayWithinSeven(d: int)
    ensures IsSunday(d + (7 - (d + 4) % 7) % 7)
  {
  }

  /** The open week holds the most recent days, none of them a Sunday, and every
      closed week is non-empty. */
  lemma {:induction false} OpenWeekShape(days: seq<CalendarDay>, closeAt: int)
    ensures var s := SplitWeeks(days, closeAt);
      && |s.open| <= |days|
      && s.open == days[|days| - |s.open|..]
      && (forall i :: 0 <= i < |s.open| ==> !IsSunday(s.open[i].date))
      && (forall k :: 0 <= k < |s.weeks| ==> |s.weeks[k]| > 0)
  {
    if days != [] {
      OpenWeekShape(days[..|days| - 1], closeAt);
    }
  }

  lemma SundayInRun(run: seq<CalendarDay>, first: int)
    requires Consecutive(run, first) && |run| >= 7
    ensures exists i :: 0 <= i < |run| && IsSunday(run[i].date)
  {
    SundayWithinSeven(first);
    var k := (7 - (first + 4) % 7) % 7;
    assert run[k].date == first + k;
  }

  /** A run of consecutive dates without a Sunday is at most six days long. */
  lemma NoSundayRun(run: seq<CalendarDay>, first: int)
    requires Consecutive(run, first)
    requires forall i :: 0 <= i < |run| ==> !IsSunday(run[i].date)
    ensures |run| <= 6
  {
    if |run| > 6 {
      SundayInRun(run, first);
    }
  }

  /** Over consecutive dates no week holds more than seven days, and the open week at
      most six. */
  lemma {:induction false} WeeksAtMostSeven(days: seq<CalendarDay>, first: int, closeAt: int)
    requires Consecutive(days, first)
    ensures forall k :: 0 <= k < |SplitWeeks(days, closeAt).weeks| ==> |SplitWeeks(days, closeAt).weeks[k]| <= 7
    ensures |SplitWeeks(days, closeAt).open| <= 6
  {
    var s := SplitWeeks(days, closeAt);
    OpenWeekShape(days, closeAt);
    NoSundayRun(s.open, first + |days| - |s.open|);
    if days != [] {
      var prefix := days[..|days| - 1];
      assert Consecutive(prefix, first);
      WeeksAtMostSeven(prefix, first, closeAt);
    }
  }

  /** When the last day walked also closes a week (the range calendar), nothing is left
      open: the weeks are exactly the days. */
  lemma WeeksCoverAllDays(days: seq<CalendarDay>)
    requires days != []
    ensures SplitWeeks(days, |days| - 1).open == []
    ensures Flatten(SplitWeeks(days, |days| - 1).weeks) == days
  {
    SplitCovers(days, |days| - 1);
  }

  /** Without the end-of-range close (the year calendar), days after the last Sunday stay
      in the open week, which is never returned. */
  lemma TrailingWeekDropped(days: seq<CalendarDay>)
    requires days != []
    ensures SplitWeeks(days, -1).open == [] <==> IsSunday(days[|days| - 1].date)
  {
  }

  // ---------------------------------------------------------------- totals

  function ActiveDays(days: seq<CalendarDay>): nat
  {
    if days == [] then 0
    else ActiveDays(days[..|days| - 1]) + (if days[|days| - 1].hasActivity then 1 else 0)
  }

  lemma {:induction false} ActiveDaysBound(days: seq<CalendarDay>)
    ensures ActiveDays(days) <= |days|
  {
    if days != [] {
      ActiveDaysBound(days[..|days| - 1]);
    }
  }

  function TotalActivities(days: seq<CalendarDay>): int
  {
    if days == [] then 0
    else
      var last := days[|days| - 1];
      TotalActivities(days[..|days| - 1]) + (if last.hasActivity then last.activityCount else 0)
  }

  function Get(m: map<string, int>, t: string): int
  {
    if t in m then m[t] else 0
  }

  /** Adds one to the entry of each listed type, one type after the other. */
  function AddTypes(m: map<string, int>, types: seq<string>): map<string, int>
  {
    if types == [] then m
    else
      var m' := AddTypes(m, types[..|types| - 1]);
      var t := types[|types| - 1];
      m'[t := Get(m', t) + 1]
  }

  function Breakdown(days: seq<CalendarDay>): map<string, int>
  {
    if days == [] then map[]
    else
      var last := days[|days| - 1];
      var m := Breakdown(days[..|days| - 1]);
      if last.hasActivity then AddTypes(m, last.activityTypes) else m
  }

  /** Occurrences of `t` in `types`. */
  function Occurrences(types: seq<string>, t: string): nat
  {
    if types == [] then 0
    else Occurrences(types[..|types| - 1], t) + (if types[|types| - 1] == t then 1 else 0)
  }

  /** Active days whose type list contains `t`. */
  function DaysWith(days: seq<CalendarDay>, t: string): nat
  {
    if days == [] then 0
    else
      var last := days[|days| - 1];
      DaysWith(days[..|days| - 1], t) + (if last.hasActivity && t in last.activityTypes then 1 else 0)
  }

  lemma {:induction false} AddTypesCounts(m: map<string, int>, types: seq<string>, t: string)
    ensures Get(AddTypes(m, types), t) == Get(m, t) + Occurrences(types, t)
  {
    if types != [] {
      AddTypesCounts(m, types[..|types| - 1], t);
    }
  }

  lemma {:induction false} OccurrencesNoDuplicates(types: seq<string>, t: string)
    requires NoDuplicates(types)
    ensures Occurrences(types, t) == if t in types then 1 else 0
  {
    if types != [] {
      var prefix := types[..|types| - 1];
      assert NoDuplicates(prefix);
      OccurrencesNoDuplicates(prefix, t);
      if types[|types| - 1] == t {
        assert t !in prefix;
      }
      assert t in types <==> t in prefix || types[|types| - 1] == t;
    }
  }

  /** When every day's type list is free of duplicates, the breakdown entry of a type
      counts the days on which it occurred, not the activities. */
  lemma {:induction false} BreakdownCountsDays(days: seq<CalendarDay>, t: string)
    requires forall i :: 0 <= i < |days| ==> NoDuplicates(days[i].activityTypes)
    ensures Get(Breakdown(days), t) == DaysWith(days, t)
  {
    if days != [] {
      var last := days[|days| - 1];
      BreakdownCountsDays(days[..|days| - 1], t);
      if last.hasActivity {
        AddTypesCounts(Breakdown(days[..|days| - 1]), last.activityTypes, t);
        OccurrencesNoDuplicates(last.activityTypes, t);
      }
    }
  }

  // ---------------------------------------------------------------- most active day

  datatype Peak = Peak(count: int, date: Option<int>)

  /** The strictly-greater comparison keeps the first day that reaches the maximum. */
  function MostActive(days: seq<CalendarDay>): Peak
  {
    if days == [] then Peak(0, None)
    else
      var p := MostActive(days[..|days| - 1]);
      var last := days[|days| - 1];
      if last.hasActivity && last.activityCount > p.count then Peak(last.activityCount, Some(last.date)) else p
  }

  /** Day `i` has the peak's count and date, and no earlier day reaches that count. */
  predicate EarliestPeak(days: seq<CalendarDay>, i: int, p: Peak)
  {
    && 0 <= i < |days| && days[i].hasActivity
    && days[i].activityCount == p.count && p.date == Some(days[i].date)
    && forall j :: 0 <= j < i && days[j].hasActivity ==> days[j].activityCount < p.count
  }

  /** The peak count is the largest daily count (0 when there is none) and its date is
      the earliest day with that count. */
  lemma {:induction false} MostActiveIsEarliestMaximum(days: seq<CalendarDay>)
    ensures var p := MostActive(days);
      && p.count >= 0
      && (forall i :: 0 <= i < |days| && days[i].hasActivity ==> days[i].activityCount <= p.count)
      && (p.count == 0 <==> p.date == None)
      && (p.count > 0 ==> exists i :: EarliestPeak(days, i, p))
  {
    if days != [] {
      var prefix := days[..|days| - 1];
      MostActiveIsEarliestMaximum(prefix);
      var p := MostActive(prefix);
      var last := days[|days| - 1];
      if last.hasActivity && last.activityCount > p.count {
        var i := |days| - 1;
        forall j | 0 <= j < i && days[j].hasActivity ensures days[j].activityCount < last.activityCount {
          assert prefix[j] == days[j];
        }
        assert EarliestPeak(days, i, MostActive(days));
      } else if p.count > 0 {
        var i :| EarliestPeak(prefix, i, p);
        assert days[i] == prefix[i];
        assert forall j :: 0 <= j < i ==> days[j] == prefix[j];
        assert EarliestPeak(days, i, p);
      }
      forall i | 0 <= i < |days| && days[i].hasActivity
        ensures days[i].activityCount <= MostActive(days).count
      {
        if i < |prefix| { assert days[i] == prefix[i]; }
      }
    }
  }

  // ---------------------------------------------------------------- consecutive weeks

  predicate WeekActive(w: Week)
  {
    exists i :: 0 <= i < |w| && w[i].hasActivity
  }

  predicate AllActive(weeks: seq<Week>, i: int, j: int)
    requires 0 <= i <= j <= |weeks|
  {
    forall k :: i <= k < j ==> WeekActive(weeks[k])
  }

  /** Weeks `i` to `i + len - 1` all exist and are all active. */
  predicate ActiveWindow(weeks: seq<Week>, i: int, len: int)
  {
    0 <= i && 0 <= len && i + len <= |weeks| && AllActive(weeks, i, i + len)
  }

  /** The length of the active run that ends the sequence, and the longest run seen. */
  datatype Runs = Runs(current: nat, longest: nat)

  function ActiveRuns(weeks: seq<Week>): Runs
  {
    if weeks == [] then Runs(0, 0)
    else
      var r := ActiveRuns(weeks[..|weeks| - 1]);
      if WeekActive(weeks[|weeks| - 1]) then
        var c := r.current + 1;
        Runs(c, if c > r.longest then c else r.longest)
      else Runs(0, r.longest)
  }

  function LongestActiveRun(weeks: seq<Week>): nat
  {
    ActiveRuns(weeks).longest
  }

  lemma {:induction false} ActiveRunsShape(weeks: seq<Week>)
    ensures var r := ActiveRuns(weeks);
      && r.current <= r.longest <= |weeks|
      && AllActive(weeks, |weeks| - r.current, |weeks|)
      && (r.current < |weeks| ==> !WeekActive(weeks[|weeks| - r.current - 1]))
      && (exists i :: ActiveWindow(weeks, i, r.longest))
      && (forall i, j :: 0 <= i <= j <= |weeks| && AllActive(weeks, i, j) ==> j - i <= r.longest)
  {
    CurrentRunShape(weeks);
    LongestRunShape(weeks);
  }

  /** The current run is the active weeks that end the sequence, preceded by an
      inactive week or by nothing. */
  lemma {:induction false} CurrentRunShape(weeks: seq<Week>)
    ensures var r := ActiveRuns(weeks);
      && r.current <= r.longest <= |weeks|
      && AllActive(weeks, |weeks| - r.current, |weeks|)
      && (r.current < |weeks| ==> !WeekActive(weeks[|weeks| - r.current - 1]))
  {
    if weeks != [] {
      var n := |weeks|;
      var prefix := weeks[..n - 1];
      CurrentRunShape(prefix);
      assert forall k :: 0 <= k < n - 1 ==> prefix[k] == weeks[k];
    }
  }

  /** The longest run is the length of some window of active weeks, and no window of
      active weeks is longer. */
  lemma {:induction false} LongestRunShape(weeks: seq<Week>)
    ensures var r := ActiveRuns(weeks);
      && (exists i :: ActiveWindow(weeks, i, r.longest))
      && (forall i, j :: 0 <= i <= j <= |weeks| && AllActive(weeks, i, j) ==> j - i <= r.longest)
  {
    if weeks == [] {
      assert ActiveWindow(weeks, 0, 0);
    } else {
      var n := |weeks|;
      var prefix := weeks[..n - 1];
      LongestRunShape(prefix);
      CurrentRunShape(prefix);
      CurrentRunShape(weeks);
      var p := ActiveRuns(prefix);
      var r := ActiveRuns(weeks);
      assert forall k :: 0 <= k < n - 1 ==> prefix[k] == weeks[k];
      var i0 :| ActiveWindow(prefix, i0, p.longest);
      var w := if r.longest == p.longest then i0 else n - r.current;
      assert ActiveWindow(weeks, w, r.longest);
      forall i, j | 0 <= i <= j <= n && AllActive(weeks, i, j) ensures j - i <= r.longest {
        if j < n {
          assert AllActive(prefix, i, j);
        } else if i < n {
          assert WeekActive(weeks[n - 1]);
        }
      }
    }
  }


  /** calculateConsecutiveWeeks's result is the length of a longest run of consecutive
      weeks that each contain an active day. */
  lemma LongestActiveRunIsMaximal(weeks: seq<Week>)
    ensures 0 <= LongestActiveRun(weeks) <= |weeks|
    ensures exists i :: ActiveWindow(weeks, i, LongestActiveRun(weeks))
    ensures forall i, j :: 0 <= i <= j <= |weeks| && AllActive(weeks, i, j) ==> j - i <= LongestActiveRun(weeks)
  {
    ActiveRunsShape(weeks);
  }

  /** The running totals of a walk over some days. */
  datatype Totals = Totals(activeDays: int, totalActivities: int, breakdown: map<string, int>, peak: Peak)

  function TotalsOf(days: seq<CalendarDay>): Totals
  {
    Totals(ActiveDays(days), TotalActivities(days), Breakdown(days), MostActive(days))
  }

  /** One more day advances each running total by that day alone. */
  lemma FoldsSnoc(ds: seq<CalendarDay>, d: CalendarDay)
    ensures ActiveDays(ds + [d]) == ActiveDays(ds) + (if d.hasActivity then 1 else 0)
    ensures TotalActivities(ds + [d]) == TotalActivities(ds) + (if d.hasActivity then d.activityCount else 0)
    ensures Breakdown(ds + [d]) == if d.hasActivity then AddTypes(Breakdown(ds), d.activityTypes) else Breakdown(ds)
    ensures MostActive(ds + [d]) == if d.hasActivity && d.activityCount > MostActive(ds).count
      then Peak(d.activityCount, Some(d.date)) else MostActive(ds)
  {
    assert (ds + [d])[..|ds|] == ds;
  }

  /** One more day joins the open week, which closes after a Sunday or at `closeAt`. */
  lemma SplitWeeksSnoc(ds: seq<CalendarDay>, d: CalendarDay, closeAt: int, closes: bool)
    requires closes == (IsSunday(d.date) || |ds| == closeAt)
    ensures closes ==> SplitWeeks(ds + [d], closeAt) == Split(SplitWeeks(ds, closeAt).weeks + [SplitWeeks(ds, closeAt).open + [d]], [])
    ensures !closes ==> SplitWeeks(ds + [d], closeAt) == Split(SplitWeeks(ds, closeAt).weeks, SplitWeeks(ds, closeAt).open + [d])
  {
    assert (ds + [d])[..|ds|] == ds;
  }

  // ---------------------------------------------------------------- the response

  /** With the close at the last day walked, every day appears in exactly one week. */
  lemma ClosingLastDayCoversAll(year: int, days: seq<CalendarDay>, user: User)
    requires days != []
    ensures Flatten(CalendarOf(year, days, |days| - 1, user).weeks) == days
  {
    WeeksCoverAllDays(days);
  }

  /** The response built from the days walked; `closeAt` as for `SplitWeeks`. */
  function CalendarOf(year: int, days: seq<CalendarDay>, closeAt: int, user: User): CalendarResponse
  {
    var weeks := SplitWeeks(days, closeAt).weeks;
    Response(year, |days|, weeks, TotalsOf(days), LongestActiveRun(weeks), user)
  }

  /** The response's fields, from the walk's results and the user's streaks. */
  function Response(year: int, totalDays: int, weeks: seq<Week>, t: Totals, consecutive: int, user: User): CalendarResponse
  {
    CalendarResponse(year, totalDays, t.activeDays, user.currentStreak, user.longestStreak, weeks,
      CalendarSummary(t.totalActivities, t.breakdown, t.peak.date, t.peak.count, consecutive))
  }

  /** The year calendar as written: its weeks hold every day of the year only in years
      whose 31 December is a Sunday. */
  lemma {:induction false} YearWeeksCoverYearOnlyIfSunday(y: int, sm: map<int, DailyActivitySummary>, user: User)
    ensures var days := Days(sm, YearStart(y), DaysInYear(y));
      Flatten(CalendarOf(y, days, -1, user).weeks) == days <==> IsSunday(YearStart(y + 1) - 1)
  {
    var days := Days(sm, YearStart(y), DaysInYear(y));
    YearLength(y);
    SplitCovers(days, -1);
    TrailingWeekDropped(days);
    var s := SplitWeeks(days, -1);
    assert days[|days| - 1].date == YearStart(y + 1) - 1;
    if s.open != [] {
      assert |Flatten(s.weeks)| < |days|;
    }
  }

  /** 31 December 2025 is a Wednesday, so the 2025 calendar leaves out its last days. */
  lemma YearCalendar2025DropsLastDays(sm: map<int, DailyActivitySummary>, user: User)
    ensures var days := Days(sm, YearStart(2025), DaysInYear(2025));
      Flatten(CalendarOf(2025, days, -1, user).weeks) != days
  {
    YearWeeksCoverYearOnlyIfSunday(2025, sm, user);
    LastDayOf2025();
  }

  /** 31 December 2025 is day 20453, a Wednesday. */
  lemma LastDayOf2025()
    ensures YearStart(2026) - 1 == 20453 && !IsSunday(YearStart(2026) - 1)
  {
  }

  /** The range calendar, when its end is a whole number of days after its start, holds
      every day of the range in its weeks. */
  lemma RangeWeeksCoverRange(year: int, sm: map<int, DailyActivitySummary>, startSec: int, endSec: int, user: User)
    requires endSec >= startSec && (endSec - startSec) % SecondsPerDay == 0
    ensures var days := Days(sm, DayOf(startSec), VisitCount(startSec, endSec, true));
      Flatten(CalendarOf(year, days, ClosingIndex(startSec, endSec), user).weeks) == days
  {
    RangeWalkAligned(startSec, endSec);
    WeeksCoverAllDays(Days(sm, DayOf(startSec), VisitCount(startSec, endSec, true)));
  }
}
