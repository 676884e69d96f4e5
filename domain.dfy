/**
 * The records of the document store and the responses built from them
 * (internal/domain/models.go). Times are whole seconds since 1970-01-01 UTC; calendar
 * dates ("2006-01-02" strings in the source) are day numbers since that day.
 * Creation and update timestamps that nothing reads are left out.
 */
module Domain {
  import opened Common
  import opened ObjectIds

  const SecondsPerDay := 86400

  /** The calendar day of an instant (UTC). */
  function DayOf(t: int): int
  {
    t / SecondsPerDay
  }

  /** 1970-01-01 was a Thursday, so day `d` is a Sunday when `(d + 4) % 7 == 0`. */
  predicate IsSunday(day: int)
  {
    (day + 4) % 7 == 0
  }

  /** An arbitrary JSON value of the `settings` object, kept as its encoded text. */
  type JsonValue = string

  /** A user document. `lastActivityDate` is `None` for Go's zero time. */
  datatype User = User(
    id: ObjectId,
    name: string,
    email: string,
    passwordHash: string,
    provider: string,
    providerId: string,
    settings: map<string, JsonValue>,
    currentStreak: int,
    longestStreak: int,
    lastActivityDate: Option<int>,
    streakFrozen: bool,
    freezeCount: int)

  datatype RefreshToken = RefreshToken(userId: ObjectId, token: string, expiresAt: int)

  datatype PasswordReset = PasswordReset(userId: ObjectId, token: string, expiresAt: int, used: bool)

  datatype LearningPath = LearningPath(id: ObjectId, title: string, lessonIds: seq<ObjectId>)

  datatype Lesson = Lesson(id: ObjectId, pathId: ObjectId, title: string, quizId: Option<ObjectId>)

  datatype Question = Question(id: string, text: string, options: seq<string>, correct: string, points: int)

  datatype Quiz = Quiz(id: ObjectId, lessonId: ObjectId, title: string, questions: seq<Question>)

  /** A float64 percentage `num / den * 100`, kept exact; Go's division by zero gives
      +Inf, -Inf or NaN. */
  datatype Percent = Finite(value: real) | PosInf | NegInf | NaN

  function Percentage(num: int, den: int): (p: Percent)
    ensures den != 0 ==> p.Finite? && p.value * den as real == num as real * 100.0
    ensures den == 0 ==> (p == PosInf <==> num > 0) && (p == NaN <==> num == 0) && (p == NegInf <==> num < 0)
  {
    if den != 0 then Finite(num as real / den as real * 100.0)
    else if num > 0 then PosInf
    else if num < 0 then NegInf
    else NaN
  }

  /** Go's `p >= bound` on a float64: false for NaN. */
  predicate AtLeast(p: Percent, bound: real)
  {
    match p
    case Finite(v) => v >= bound
    case PosInf => true
    case NegInf => false
    case NaN => false
  }

  datatype UserProgress = UserProgress(
    id: ObjectId,
    userId: ObjectId,
    pathId: ObjectId,
    completedLessons: seq<ObjectId>,
    currentLesson: Option<ObjectId>,
    progress: Percent)

  datatype QuizSubmission = QuizSubmission(
    userId: ObjectId,
    quizId: ObjectId,
    lessonId: ObjectId,
    answers: map<string, string>,
    score: int,
    maxScore: int,
    passed: bool)

  datatype StreakActivity = StreakActivity(userId: ObjectId, activityType: string, date: int, createdAt: int)

  datatype StreakInfo = StreakInfo(
    currentStreak: int,
    longestStreak: int,
    lastActivityDate: Option<int>,
    streakFrozen: bool,
    freezeCount: int,
    maxFreezes: int,
    canFreeze: bool,
    daysUntilLoss: int)

  /** One document of `daily_activity_summaries`; `date` is a day number. */
  datatype DailyActivitySummary = DailyActivitySummary(
    userId: ObjectId,
    date: int,
    activityCount: int,
    activityTypes: seq<string>,
    firstActivity: int,
    lastActivity: int)

  datatype CalendarDay = CalendarDay(date: int, activityCount: int, hasActivity: bool, activityTypes: seq<string>)

  type Week = seq<CalendarDay>

  /** `mostActiveDay` is `None` where the source leaves the empty string. */
  datatype CalendarSummary = CalendarSummary(
    totalActivities: int,
    activityBreakdown: map<string, int>,
    mostActiveDay: Option<int>,
    mostActiveCount: int,
    consecutiveWeeks: int)

  datatype CalendarResponse = CalendarResponse(
    year: int,
    totalDays: int,
    activeDays: int,
    currentStreak: int,
    longestStreak: int,
    weeks: seq<Week>,
    summary: CalendarSummary)
}
