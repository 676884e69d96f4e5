/**
 * The streak endpoints (internal/handler/streak_handler.go): the caller's ID from the
 * request context, the activity-type whitelist, the `year` query, and the mapping of
 * the streak service's errors to replies. The context's `user_id` is `None` when the
 * authentication middleware did not set it.
 */
module StreakHandlers {
  import opened Common
  import opened ObjectIds
  import opened Domain
  import opened Http
  import GoStrings
  import Streaks
  import ActivityCalendar
  import CalendarSpec

  const NotAuthenticated := "User not authenticated"
  const InvalidUserId := "Invalid user ID"
  const InfoFailed := "Failed to get streak information"
  const TypeRequired := "Activity type is required"
  const InvalidType := "Invalid activity type"
  const RecordFailed := "Failed to record activity"
  const CalendarFailed := "Failed to get activity calendar"
  const Frozen := "Streak frozen successfully! \U{1F9CA}"
  const Recorded := "Activity recorded successfully! \U{1F525}"
  const NoReason := "No reason provided"

  /** The activity types RecordActivity accepts. */
  const ValidActivityTypes: set<string> := {
    "lesson_completed", "quiz_passed", "daily_goal_met",
    "pronunciation_session", "mock_interview", "grammar_check"
  }

  function Caller(userIdCtx: Option<string>): Reply<ObjectId>
  {
    CallerId(userIdCtx, NotAuthenticated, InvalidUserId)
  }

  /** The `activity_type` check: `None` when accepted, otherwise the 400 message. */
  function ActivityTypeRefusal(activityType: string): (e: Option<string>)
    ensures e.None? <==> activityType in ValidActivityTypes
    ensures activityType == "" ==> e == Some(TypeRequired)
    ensures activityType != "" && activityType !in ValidActivityTypes ==> e == Some(InvalidType)
  {
    if activityType == "" then Some(TypeRequired)
    else if activityType !in ValidActivityTypes then Some(InvalidType)
    else None
  }

  /** The `year` query: a missing or non-integer value is 0, the current year. */
  function YearParam(yearQuery: string): (year: int)
    ensures GoStrings.Atoi(yearQuery).Some? ==> year == GoStrings.Atoi(yearQuery).value
    ensures GoStrings.Atoi(yearQuery).None? ==> year == 0
  {
    if yearQuery != "" && GoStrings.Atoi(yearQuery).Some? then GoStrings.Atoi(yearQuery).value else 0
  }

  /** A year written in decimal is the year the calendar is asked for. */
  lemma YearParamReadsDecimal(year: int)
    requires GoStrings.MinInt <= year <= GoStrings.MaxInt
    ensures YearParam(GoStrings.Itoa(year)) == year
  {
    GoStrings.AtoiItoa(year);
  }

  /** The freeze reason: the bound body's, or the default when the body does not bind. */
  function FreezeReason(body: Option<string>): (reason: string)
    ensures body.None? ==> reason == NoReason
    ensures body.Some? ==> reason == body.value
  {
    if body.None? then NoReason else body.value
  }

  class StreakHandler {
    const streaks: Streaks.StreakService

    constructor(streaks: Streaks.StreakService)
      ensures this.streaks == streaks
    {
      this.streaks := streaks;
    }

    /** GetStreakInfo at instant `now`. */
    function GetStreakInfo(userIdCtx: Option<string>, now: int): (r: Reply<StreakInfo>)
      reads streaks
      ensures Caller(userIdCtx).Failure? ==> r == Failure(Caller(userIdCtx).status, Caller(userIdCtx).error)
      ensures Caller(userIdCtx).Success? ==>
        var id := Caller(userIdCtx).value;
        r == if id in streaks.users then Success(Streaks.Info(streaks.users[id], DayOf(now)))
             else Failure(StatusInternalServerError, InfoFailed)
    {
      match Caller(userIdCtx)
      case Failure(status, error) => Failure(status, error)
      case Success(id) =>
        match streaks.GetStreakInfo(id, now)
        case Err(_) => Failure(StatusInternalServerError, InfoFailed)
        case Ok(info) => Success(info)
    }

    /** FreezeStreak; `body` is the request's reason, `None` when the body does not bind.
        Every refusal of the service is a 400 carrying its message. */
    method FreezeStreak(userIdCtx: Option<string>, body: Option<string>) returns (r: Reply<string>)
      requires streaks.Valid()
      modifies streaks
      ensures streaks.Valid() && streaks.activities == old(streaks.activities)
      ensures Caller(userIdCtx).Failure? ==>
        r == Failure(Caller(userIdCtx).status, Caller(userIdCtx).error) && streaks.users == old(streaks.users)
      ensures Caller(userIdCtx).Success? ==>
        var id := Caller(userIdCtx).value;
        if id !in old(streaks.users) then
          r == Failure(StatusBadRequest, Streaks.UserNotFound) && streaks.users == old(streaks.users)
        else if Streaks.FreezeRefusal(old(streaks.users)[id]).Some? then
          r == Failure(StatusBadRequest, Streaks.FreezeRefusal(old(streaks.users)[id]).value)
          && streaks.users == old(streaks.users)
        else
          r == Success(Frozen) && streaks.users == old(streaks.users)[id := Streaks.Frozen(old(streaks.users)[id])]
    {
      var caller := Caller(userIdCtx);
      if caller.Failure? {
        return Failure(caller.status, caller.error);
      }
      var err := streaks.FreezeStreak(caller.value, FreezeReason(body));
      if err.Some? {
        return Failure(StatusBadRequest, err.value);
      }
      return Success(Frozen);
    }

    /** RecordActivity at instant `now`; the service is called only for a whitelisted
        type, and its only failure, a missing user, is a 500. */
    method RecordActivity(userIdCtx: Option<string>, activityType: string, now: int, calendarOk: bool)
      returns (r: Reply<string>)
      requires streaks.Valid()
      modifies streaks, streaks.calendar
      ensures streaks.Valid()
      ensures Caller(userIdCtx).Failure? ==> r == Failure(Caller(userIdCtx).status, Caller(userIdCtx).error)
      ensures Caller(userIdCtx).Success? && ActivityTypeRefusal(activityType).Some? ==>
        r == Failure(StatusBadRequest, ActivityTypeRefusal(activityType).value)
      ensures Caller(userIdCtx).Failure? || ActivityTypeRefusal(activityType).Some? ==>
        && streaks.activities == old(streaks.activities) && streaks.users == old(streaks.users)
        && streaks.calendar.summaries == old(streaks.calendar.summaries)
      ensures Caller(userIdCtx).Success? && ActivityTypeRefusal(activityType).None? ==>
        var id := Caller(userIdCtx).value;
        && streaks.activities == old(streaks.activities) + [StreakActivity(id, activityType, DayOf(now), now)]
        && (r == Success(Recorded) <==> Streaks.CountOn(old(streaks.activities), id, DayOf(now)) > 0 || id in old(streaks.users))
        && (r.Failure? ==> r == Failure(StatusInternalServerError, RecordFailed))
    {
      var caller := Caller(userIdCtx);
      if caller.Failure? {
        return Failure(caller.status, caller.error);
      }
      var refusal := ActivityTypeRefusal(activityType);
      if refusal.Some? {
        return Failure(StatusBadRequest, refusal.value);
      }
      var err := streaks.RecordActivity(caller.value, activityType, now, calendarOk);
      if err.Some? {
        return Failure(StatusInternalServerError, RecordFailed);
      }
      return Success(Recorded);
    }

    /** GetActivityCalendar; `nowYear` is the current year. */
    method GetActivityCalendar(userIdCtx: Option<string>, yearQuery: string, nowYear: int)
      returns (r: Reply<CalendarResponse>)
      ensures Caller(userIdCtx).Failure? ==> r == Failure(Caller(userIdCtx).status, Caller(userIdCtx).error)
      ensures Caller(userIdCtx).Success? ==>
        var id := Caller(userIdCtx).value;
        var year := YearParam(yearQuery);
        var y := if year == 0 then nowYear else year;
        r == if id !in streaks.users then Failure(StatusInternalServerError, CalendarFailed)
             else Success(streaks.calendar.YearCalendarOf(id, y, -1, streaks.users[id]))
    {
      var caller := Caller(userIdCtx);
      if caller.Failure? {
        return Failure(caller.status, caller.error);
      }
      var calendar := streaks.GetActivityCalendar(caller.value, YearParam(yearQuery), nowYear);
      if calendar.Err? {
        return Failure(StatusInternalServerError, CalendarFailed);
      }
      return Success(calendar.value);
    }
  }
}
