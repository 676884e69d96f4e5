/**
 * The streak service (internal/service/streak_service.go): a user's run of consecutive
 * active days, its longest value, one-day freezes (at most two a month), the nightly
 * reset of expired streaks and the information the streak screen shows. Days are day
 * numbers (UTC); `now` is the clock reading, in seconds, passed in by the caller.
 */
module Streaks {
  import opened Common
  import opened ObjectIds
  import opened Domain
  import ActivityCalendar
  import CalendarSpec

  const MaxFreezes := 2

  const UserNotFound := "failed to find user: mongo: no documents in result"
  const FreezeLimitReached := "maximum freeze limit reached for this month"
  const FreezeZeroStreak := "cannot freeze a streak of 0 days"
  const AlreadyFrozen := "streak is already frozen"
  const FindExpiredFailed := "failed to find users with expired streaks: "

  /** The streak after the first activity of day `today`: continued after yesterday,
      unchanged on the same day, continued across a gap by a freeze, otherwise restarted. */
  function NextStreak(u: User, today: int): int
  {
    match u.lastActivityDate
    case None => 1
    case Some(last) =>
      if last == today - 1 then u.currentStreak + 1
      else if last == today then u.currentStreak
      else if u.streakFrozen && last < today - 1 then u.currentStreak + 1
      else 1
  }

  /** The user after `updateStreak` for day `today`. */
  function Recorded(u: User, today: int): (r: User)
    ensures r.currentStreak == NextStreak(u, today)
    ensures r.longestStreak >= r.currentStreak && r.longestStreak >= u.longestStreak
    ensures r.longestStreak == u.longestStreak || r.longestStreak == r.currentStreak
    ensures r.lastActivityDate == Some(today) && !r.streakFrozen
    ensures r.(currentStreak := u.currentStreak, longestStreak := u.longestStreak,
               lastActivityDate := u.lastActivityDate, streakFrozen := u.streakFrozen) == u
  {
    var n := NextStreak(u, today);
    u.(currentStreak := n, longestStreak := if n > u.longestStreak then n else u.longestStreak,
       lastActivityDate := Some(today), streakFrozen := false)
  }

  /** What a user record always satisfies: a non-negative streak no longer than the
      longest one, and no more freezes than allowed. */
  predicate StreakInvariant(u: User)
  {
    0 <= u.currentStreak <= u.longestStreak && 0 <= u.freezeCount <= MaxFreezes
  }

  /** FreezeStreak's checks, in order; `None` when the freeze is allowed. */
  function FreezeRefusal(u: User): (e: Option<string>)
    ensures e.None? <==> u.freezeCount < MaxFreezes && u.currentStreak != 0 && !u.streakFrozen
    ensures u.freezeCount >= MaxFreezes ==> e == Some(FreezeLimitReached)
  {
    if u.freezeCount >= MaxFreezes then Some(FreezeLimitReached)
    else if u.currentStreak == 0 then Some(FreezeZeroStreak)
    else if u.streakFrozen then Some(AlreadyFrozen)
    else None
  }

  function Frozen(u: User): (r: User)
    ensures r.streakFrozen && r.freezeCount == u.freezeCount + 1
    ensures r.(streakFrozen := u.streakFrozen, freezeCount := u.freezeCount) == u
  {
    u.(streakFrozen := true, freezeCount := u.freezeCount + 1)
  }

  /** GetStreakInfo's answer on day `today`. */
  function Info(u: User, today: int): (info: StreakInfo)
    ensures info.maxFreezes == MaxFreezes
    ensures info.daysUntilLoss >= 0
    ensures info.daysUntilLoss == 0 <==> u.lastActivityDate.None? || u.streakFrozen || u.lastActivityDate.value < today
    ensures info.daysUntilLoss > 0 ==> today + info.daysUntilLoss == u.lastActivityDate.value + 1
    ensures info.currentStreak == u.currentStreak && info.longestStreak == u.longestStreak
    ensures info.lastActivityDate == u.lastActivityDate && info.streakFrozen == u.streakFrozen
    ensures info.freezeCount == u.freezeCount
    ensures info.canFreeze <==> u.freezeCount < MaxFreezes && u.currentStreak > 0 && !u.streakFrozen
    ensures info.canFreeze ==> FreezeRefusal(u).None?
  {
    var daysUntilLoss :=
      if u.lastActivityDate.None? || u.streakFrozen then 0
      else
        var daysSinceActivity := today - u.lastActivityDate.value;
        if daysSinceActivity >= 1 then 0 else 1 - daysSinceActivity;
    StreakInfo(u.currentStreak, u.longestStreak, u.lastActivityDate, u.streakFrozen, u.freezeCount,
               MaxFreezes, u.freezeCount < MaxFreezes && u.currentStreak > 0 && !u.streakFrozen, daysUntilLoss)
  }

  /** The nightly job's filter: a positive streak, last active before `yesterday` (the
      zero time counts as before), not frozen. */
  predicate Expired(u: User, yesterday: int)
  {
    u.currentStreak > 0 && (u.lastActivityDate.None? || u.lastActivityDate.value < yesterday) && !u.streakFrozen
  }

  /** The users the nightly job's query matches. */
  function ExpiredIds(users: map<ObjectId, User>, yesterday: int): (ids: set<ObjectId>)
    ensures forall id :: id in ids <==> id in users && Expired(users[id], yesterday)
  {
    set id | id in users && Expired(users[id], yesterday)
  }

  /** The users after the nightly job, where `failed` holds the users whose document does
      not decode or whose update is refused: those are skipped and keep their streak. */
  function ExpireStreaks(users: map<ObjectId, User>, yesterday: int, failed: set<ObjectId>): (r: map<ObjectId, User>)
    ensures r.Keys == users.Keys
    ensures forall id :: id in r ==>
      r[id] == if Expired(users[id], yesterday) && id !in failed then users[id].(currentStreak := 0) else users[id]
  {
    map id | id in users :: if Expired(users[id], yesterday) && id !in failed then users[id].(currentStreak := 0) else users[id]
  }

  function ResetFreezes(users: map<ObjectId, User>): (r: map<ObjectId, User>)
    ensures r.Keys == users.Keys
    ensures forall id :: id in r ==> r[id] == users[id].(freezeCount := 0)
  {
    map id | id in users :: users[id].(freezeCount := 0)
  }

  /** Activities of `userId` dated `day`. */
  function CountOn(acts: seq<StreakActivity>, userId: ObjectId, day: int): nat
  {
    if acts == [] then 0
    else
      var a := acts[|acts| - 1];
      CountOn(acts[..|acts| - 1], userId, day) + (if a.userId == userId && a.date == day then 1 else 0)
  }

  predicate ActiveOn(acts: seq<StreakActivity>, userId: ObjectId, day: int)
  {
    exists i :: 0 <= i < |acts| && acts[i].userId == userId && acts[i].date == day
  }

  lemma {:induction false} CountOnPositive(acts: seq<StreakActivity>, userId: ObjectId, day: int)
    ensures CountOn(acts, userId, day) > 0 <==> ActiveOn(acts, userId, day)
  {
    if acts != [] {
      var prefix := acts[..|acts| - 1];
      CountOnPositive(prefix, userId, day);
      if ActiveOn(prefix, userId, day) {
        var i :| 0 <= i < |prefix| && prefix[i].userId == userId && prefix[i].date == day;
        assert acts[i] == prefix[i];
      }
      if ActiveOn(acts, userId, day) {
        var i :| 0 <= i < |acts| && acts[i].userId == userId && acts[i].date == day;
        if i < |prefix| {
          assert prefix[i] == acts[i];
        }
      }
    }
  }

  // ---------------------------------------------------------------- properties

  /** Recording keeps the streak invariant. */
  lemma RecordedKeepsInvariant(u: User, today: int)
    requires StreakInvariant(u)
    ensures StreakInvariant(Recorded(u, today))
  {
  }

  /** The length of the run of consecutive days that ends the (increasing) sequence. */
  function TrailingRun(days: seq<int>): nat
  {
    if days == [] then 0
    else if |days| >= 2 && days[|days| - 2] == days[|days| - 1] - 1 then TrailingRun(days[..|days| - 1]) + 1
    else 1
  }

  /** The user after recording the first activity of each of `days`, in order. */
  function RecordDays(u: User, days: seq<int>): User
  {
    if days == [] then u else Recorded(RecordDays(u, days[..|days| - 1]), days[|days| - 1])
  }

  predicate Increasing(days: seq<int>)
  {
    forall i, j :: 0 <= i < j < |days| ==> days[i] < days[j]
  }

  /** Starting from a user with no activity, recording on strictly increasing days with no
      freeze in between leaves as the current streak the number of consecutive days that
      end the history. */
  lemma {:induction false} StreakCountsConsecutiveDays(u: User, days: seq<int>)
    requires u.lastActivityDate.None?
    requires Increasing(days)
    ensures days != [] ==> RecordDays(u, days).lastActivityDate == Some(days[|days| - 1])
    ensures days != [] ==> !RecordDays(u, days).streakFrozen
    ensures RecordDays(u, days).currentStreak == if days == [] then u.currentStreak else TrailingRun(days)
  {
    if |days| >= 2 {
      var prefix := days[..|days| - 1];
      assert Increasing(prefix);
      StreakCountsConsecutiveDays(u, prefix);
      assert days[|days| - 2] < days[|days| - 1];
    } else if |days| == 1 {
      assert days[..0] == [];
    }
  }

  /** The nightly reset never zeroes a streak that an activity today would continue: an
      expired streak restarts at 1, and a positive streak that has not expired (last
      active yesterday or today, or frozen) is not lowered by today's activity. */
  lemma ExpiryAgreesWithNextStreak(u: User, today: int)
    ensures Expired(u, today - 1) ==> NextStreak(u, today) == 1
    ensures !Expired(u, today - 1) && u.currentStreak > 0 && u.lastActivityDate.Some? && u.lastActivityDate.value <= today
      ==> NextStreak(u, today) >= u.currentStreak
  {
  }

  /** The streak screen offers a freeze exactly when FreezeStreak would accept it. */
  lemma CanFreezeIffFreezeAccepted(u: User, today: int)
    requires StreakInvariant(u)
    ensures Info(u, today).canFreeze <==> FreezeRefusal(u).None?
  {
  }

  /** A frozen streak survives a gap of any length: the next activity continues it. */
  lemma FreezeBridgesGap(u: User, today: int)
    requires FreezeRefusal(u).None?
    requires u.lastActivityDate.Some? && u.lastActivityDate.value < today - 1
    ensures NextStreak(Frozen(u), today) == u.currentStreak + 1
    ensures NextStreak(u, today) == 1
  {
  }

  /** The users after the streaks of those in `done` have been zeroed. */
  function ZeroStreaks(users: map<ObjectId, User>, done: set<ObjectId>): map<ObjectId, User>
  {
    map id | id in users :: if id in done then users[id].(currentStreak := 0) else users[id]
  }

  /** One step of the cursor loop on user `id`: the users zeroed so far grow by `id`
      exactly when its update succeeds, and so does the count. */
  lemma CursorStep(users0: map<ObjectId, User>, matched: set<ObjectId>, pending: set<ObjectId>,
                   failed: set<ObjectId>, id: ObjectId)
    requires pending <= matched <= users0.Keys && id in pending
    ensures id in failed ==>
      && ZeroStreaks(users0, (matched - (pending - {id})) - failed) == ZeroStreaks(users0, (matched - pending) - failed)
      && |(pending - {id}) - failed| == |pending - failed|
    ensures id !in failed ==>
      && ZeroStreaks(users0, (matched - pending) - failed)[id] == users0[id]
      && ZeroStreaks(users0, (matched - (pending - {id})) - failed)
         == ZeroStreaks(users0, (matched - pending) - failed)[id := users0[id].(currentStreak := 0)]
      && |(pending - {id}) - failed| == |pending - failed| - 1
  {
    if id in failed {
      assert (matched - (pending - {id})) - failed == (matched - pending) - failed;
      assert (pending - {id}) - failed == pending - failed;
    } else {
      assert (matched - (pending - {id})) - failed == ((matched - pending) - failed) + {id};
      assert (pending - {id}) - failed == (pending - failed) - {id};
    }
  }

  /** The nightly job's cursor loop: visits the users matching `Expired`, one at a time;
      a user in `failed` (its document does not decode, or its update is refused) is
      logged and skipped, every other one has its streak zeroed and is counted. */
  method ResetExpired(users0: map<ObjectId, User>, yesterday: int, failed: set<ObjectId>)
    returns (users: map<ObjectId, User>, expiredCount: nat)
    ensures users == ExpireStreaks(users0, yesterday, failed)
    ensures expiredCount == |ExpiredIds(users0, yesterday) - failed|
  {
    users := users0;
    var pending: set<ObjectId> := ExpiredIds(users0, yesterday);
    ghost var matched := pending;
    expiredCount := 0;
    assert (matched - pending) - failed == {};
    while pending != {}
      invariant pending <= matched <= users0.Keys
      invariant users == ZeroStreaks(users0, (matched - pending) - failed)
      invariant expiredCount + |pending - failed| == |matched - failed|
      decreases |pending|
    {
      var id :| id in pending;
      CursorStep(users0, matched, pending, failed, id);
      if id !in failed {
        users := users[id := users[id].(currentStreak := 0)];
        expiredCount := expiredCount + 1;
      }
      pending := pending - {id};
    }
    assert (matched - pending) - failed == matched - failed;
    ZeroMatchedIsExpire(users0, yesterday, failed, matched);
  }

  /** Zeroing exactly the matched users whose update succeeds is the nightly reset. */
  lemma ZeroMatchedIsExpire(users0: map<ObjectId, User>, yesterday: int, failed: set<ObjectId>,
                            matched: set<ObjectId>)
    requires matched == ExpiredIds(users0, yesterday)
    ensures ZeroStreaks(users0, matched - failed) == ExpireStreaks(users0, yesterday, failed)
  {
    var z, e := ZeroStreaks(users0, matched - failed), ExpireStreaks(users0, yesterday, failed);
    assert z.Keys == e.Keys;
    forall id | id in z
      ensures z[id] == e[id]
    {
    }
  }

  class StreakService {
    /** The `users` collection's streak view, keyed by `_id`. */
    var users: map<ObjectId, User>
    /** `streak_activities`, in insertion order. */
    var activities: seq<StreakActivity>
    const calendar: ActivityCalendar.ActivityCalendarService

    /** Every user record keeps the streak invariant, and a user's last activity date is
        the date of one of that user's recorded activities. */
    ghost predicate Valid()
      reads this, calendar
    {
      && calendar.Valid()
      && forall id :: id in users ==>
           && users[id].id == id
           && StreakInvariant(users[id])
           && (users[id].lastActivityDate.Some? ==> ActiveOn(activities, id, users[id].lastActivityDate.value))
    }

    constructor(users: map<ObjectId, User>, calendar: ActivityCalendar.ActivityCalendarService)
      requires calendar.Valid()
      requires forall id :: id in users ==> users[id].id == id && StreakInvariant(users[id]) && users[id].lastActivityDate.None?
      ensures this.users == users && activities == [] && this.calendar == calendar
      ensures Valid()
    {
      this.users := users;
      activities := [];
      this.calendar := calendar;
    }

    /** RecordActivity at instant `now`; `calendarOk` is whether the calendar's store
        accepts its update, whose failure is only logged. */
    method RecordActivity(userId: ObjectId, activityType: string, now: int, calendarOk: bool)
      returns (err: Option<string>)
      requires Valid()
      modifies this, calendar
      ensures Valid()
      ensures activities == old(activities) + [StreakActivity(userId, activityType, DayOf(now), now)]
      ensures var today := DayOf(now);
        if CountOn(old(activities), userId, today) > 0 then users == old(users) && err == None
        else if userId in old(users) then users == old(users)[userId := Recorded(old(users)[userId], today)] && err == None
        else users == old(users) && err == Some(UserNotFound)
      ensures var key := (userId, DayOf(now));
        calendar.summaries == if calendarOk then old(calendar.summaries)[key := ActivityCalendar.Merged(
          if key in old(calendar.summaries) then Some(old(calendar.summaries)[key]) else None, userId, activityType, now)]
        else old(calendar.summaries)
    {
      var today := DayOf(now);
      var existing := CountOn(activities, userId, today);
      activities := activities + [StreakActivity(userId, activityType, today, now)];
      assert ActiveOn(activities, userId, today) by {
        assert activities[|activities| - 1].userId == userId;
      }
      var calendarErr := calendar.RecordDailyActivity(userId, activityType, now, calendarOk);
      forall id | id in users && users[id].lastActivityDate.Some?
        ensures ActiveOn(activities, id, users[id].lastActivityDate.value)
      {
        var i :| 0 <= i < |old(activities)| && old(activities)[i].userId == id
          && old(activities)[i].date == users[id].lastActivityDate.value;
        assert activities[i] == old(activities)[i];
      }
      if existing == 0 {
        err := UpdateStreak(userId, today);
      } else {
        err := None;
      }
    }

    /** updateStreak: the user's streak after their first activity of `today`. */
    method UpdateStreak(userId: ObjectId, today: int) returns (err: Option<string>)
      requires Valid()
      requires ActiveOn(activities, userId, today)
      modifies this
      ensures Valid()
      ensures activities == old(activities)
      ensures userId in old(users) ==> users == old(users)[userId := Recorded(old(users)[userId], today)] && err == None
      ensures userId !in old(users) ==> users == old(users) && err == Some(UserNotFound)
    {
      if userId !in users {
        return Some(UserNotFound);
      }
      var user := users[userId];
      var yesterday := today - 1;
      var newStreak: int;
      if user.lastActivityDate.None? {
        newStreak := 1;
      } else if user.lastActivityDate.value == yesterday {
        newStreak := user.currentStreak + 1;
      } else if user.lastActivityDate.value == today {
        newStreak := user.currentStreak;
      } else if user.streakFrozen && user.lastActivityDate.value < yesterday {
        newStreak := user.currentStreak + 1;
      } else {
        newStreak := 1;
      }
      var longestStreak := user.longestStreak;
      if newStreak > longestStreak {
        longestStreak := newStreak;
      }
      RecordedKeepsInvariant(user, today);
      users := users[userId := user.(currentStreak := newStreak, longestStreak := longestStreak,
                                     lastActivityDate := Some(today), streakFrozen := false)];
      return None;
    }

    /** GetStreakInfo on the day of instant `now`. */
    function GetStreakInfo(userId: ObjectId, now: int): (r: Result<StreakInfo, string>)
      reads this
      ensures r.Ok? <==> userId in users
      ensures r.Ok? ==> r.value == Info(users[userId], DayOf(now))
      ensures r.Err? ==> r.error == UserNotFound
    {
      if userId in users then Ok(Info(users[userId], DayOf(now))) else Err(UserNotFound)
    }

    /** FreezeStreak; `reason` is only logged. */
    method FreezeStreak(userId: ObjectId, reason: string) returns (err: Option<string>)
      requires Valid()
      modifies this
      ensures Valid()
      ensures activities == old(activities)
      ensures userId !in old(users) ==> users == old(users) && err == Some(UserNotFound)
      ensures userId in old(users) ==> err == FreezeRefusal(old(users)[userId])
      ensures userId in old(users) && err.None? ==> users == old(users)[userId := Frozen(old(users)[userId])]
      ensures err.Some? ==> users == old(users)
    {
      if userId !in users {
        return Some(UserNotFound);
      }
      var user := users[userId];
      if user.freezeCount >= 2 {
        return Some(FreezeLimitReached);
      }
      if user.currentStreak == 0 {
        return Some(FreezeZeroStreak);
      }
      if user.streakFrozen {
        return Some(AlreadyFrozen);
      }
      users := users[userId := user.(streakFrozen := true, freezeCount := user.freezeCount + 1)];
      return None;
    }

    /** ResetMonthlyFreezes: every user's freeze count back to zero. */
    method ResetMonthlyFreezes()
      requires Valid()
      modifies this
      ensures Valid()
      ensures users == ResetFreezes(old(users)) && activities == old(activities)
    {
      users := map id | id in users :: users[id].(freezeCount := 0);
    }

    /** CheckAndUpdateExpiredStreaks at instant `now`: `findErr` is the store's error on
        the query, which ends the job before any user is visited; otherwise every expired
        streak whose document decodes and whose update is accepted (the users not in
        `failed`) is zeroed, and those are counted. */
    method CheckAndUpdateExpiredStreaks(now: int, findErr: Option<string>, failed: set<ObjectId>)
      returns (err: Option<string>, expiredCount: nat)
      requires Valid()
      modifies this
      ensures Valid() && activities == old(activities)
      ensures findErr.Some? ==> err == Some(FindExpiredFailed + findErr.value) && users == old(users) && expiredCount == 0
      ensures findErr.None? ==>
        && err == None
        && users == ExpireStreaks(old(users), DayOf(now) - 1, failed)
        && expiredCount == |ExpiredIds(old(users), DayOf(now) - 1) - failed|
    {
      if findErr.Some? {
        return Some(FindExpiredFailed + findErr.value), 0;
      }
      err := None;
      users, expiredCount := ResetExpired(users, DayOf(now) - 1, failed);
    }

    /** GetActivityCalendar, delegated to the calendar service with the user's document. */
    method GetActivityCalendar(userId: ObjectId, year: int, nowYear: int) returns (r: Result<CalendarResponse, string>)
      ensures var y := if year == 0 then nowYear else year;
        r == if userId !in users then Err(ActivityCalendar.NoDocuments)
             else Ok(calendar.YearCalendarOf(userId, y, -1, users[userId]))
    {
      r := calendar.GetActivityCalendar(userId, year, nowYear, if userId in users then Some(users[userId]) else None);
    }
  
    /** GetActivityCalendarRange, delegated likewise; `startYear` is the year of `startSec`. */
    method GetActivityCalendarRange(userId: ObjectId, startSec: int, endSec: int, startYear: int)
      returns (r: Result<CalendarResponse, string>)
      requires CalendarSpec.YearStart(startYear) <= DayOf(startSec) < CalendarSpec.YearStart(startYear + 1)
      ensures var sm := calendar.UserSummaries(userId, DayOf(startSec), DayOf(endSec));
        var days := CalendarSpec.Days(sm, DayOf(startSec), CalendarSpec.VisitCount(startSec, endSec, true));
        r == if userId !in users then Err(ActivityCalendar.NoDocuments)
             else Ok(CalendarSpec.CalendarOf(startYear, days, CalendarSpec.ClosingIndex(startSec, endSec), users[userId]))
    {
      r := calendar.GetActivityCalendarRange(userId, startSec, endSec, startYear, if userId in users then Some(users[userId]) else None);
    }
  }
}
