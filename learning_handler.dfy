/**
 * The learning endpoints (internal/handler/learning_handler.go): the caller's ID, the
 * required path parameters, the mapping of the usecase's errors to status codes, and
 * the streak activities recorded after a completed lesson or a passed quiz.
 */
module LearningHandlers {
  import opened Common
  import opened ObjectIds
  import opened Domain
  import opened Http
  import opened Learning
  import Streaks

  const NotAuthenticated := "user not authenticated"
  const InvalidUserId := "invalid user ID"
  const PathIdRequired := "path ID is required"
  const LessonIdRequired := "lesson ID is required"
  const QuizIdRequired := "quiz ID is required"
  const EnrolledMessage := "successfully enrolled in learning path"
  /** The completion message, whose emoji the source file holds as four mis-decoded
      characters. */
  const CompletedMessage := "lesson marked as completed! \U{F0}\U{178}\U{201D}\U{A5}"

  function Caller(userIdCtx: Option<string>): Reply<ObjectId>
  {
    CallerId(userIdCtx, NotAuthenticated, InvalidUserId)
  }

  /** EnrollInPath's statuses: 404 for an unknown path, 400 for a second enrolment, 500
      for anything else. */
  function EnrollStatus(error: string): (status: int)
    ensures status == StatusNotFound <==> error == PathNotFound
    ensures status == StatusBadRequest <==> error == AlreadyEnrolled
    ensures status == StatusInternalServerError <==> error != PathNotFound && error != AlreadyEnrolled
  {
    if error == PathNotFound then StatusNotFound
    else if error == AlreadyEnrolled then StatusBadRequest
    else StatusInternalServerError
  }

  /** GetUserProgress's statuses: 404 when not enrolled, 500 for anything else, an
      unknown path included. */
  function ProgressStatus(error: string): (status: int)
    ensures status == StatusNotFound <==> error == NotEnrolledInPath
    ensures status == StatusInternalServerError <==> error != NotEnrolledInPath
  {
    if error == NotEnrolledInPath then StatusNotFound else StatusInternalServerError
  }

  /** GetLesson's statuses: 404 for an unknown lesson, 403 when not enrolled, 500 for
      anything else. */
  function LessonStatus(error: string): (status: int)
    ensures status == StatusNotFound <==> error == LessonNotFound
    ensures status == StatusForbidden <==> error == NotEnrolled
    ensures status == StatusInternalServerError <==> error != LessonNotFound && error != NotEnrolled
  {
    if error == LessonNotFound then StatusNotFound
    else if error == NotEnrolled then StatusForbidden
    else StatusInternalServerError
  }

  /** CompleteLesson's statuses: those of GetLesson, and 400 for a lesson already
      completed. */
  function CompleteStatus(error: string): (status: int)
    ensures error == AlreadyCompleted ==> status == StatusBadRequest
    ensures error != AlreadyCompleted ==> status == LessonStatus(error)
  {
    if error == LessonNotFound then StatusNotFound
    else if error == NotEnrolled then StatusForbidden
    else if error == AlreadyCompleted then StatusBadRequest
    else StatusInternalServerError
  }

  /** SubmitQuiz's statuses: 404 for an unknown quiz, 403 when not enrolled, 500 for
      anything else, a missing lesson included. */
  function QuizStatus(error: string): (status: int)
    ensures status == StatusNotFound <==> error == QuizNotFound
    ensures status == StatusForbidden <==> error == NotEnrolled
    ensures status == StatusInternalServerError <==> error != QuizNotFound && error != NotEnrolled
  {
    if error == QuizNotFound then StatusNotFound
    else if error == NotEnrolled then StatusForbidden
    else StatusInternalServerError
  }

  class LearningHandler {
    const learning: LearningUsecase
    const streaks: Streaks.StreakService

    constructor(learning: LearningUsecase, streaks: Streaks.StreakService)
      ensures this.learning == learning && this.streaks == streaks
    {
      this.learning := learning;
      this.streaks := streaks;
    }

    /** GetAllLearningPaths; `fetchOk` is whether the store's listing succeeds. */
    method GetAllLearningPaths(userIdCtx: Option<string>, fetchOk: bool) returns (r: Reply<seq<PathSummary>>)
      ensures Caller(userIdCtx).Failure? ==> r == Failure(Caller(userIdCtx).status, Caller(userIdCtx).error)
      ensures Caller(userIdCtx).Success? && !fetchOk ==> r == Failure(StatusInternalServerError, FetchFailed)
      ensures Caller(userIdCtx).Success? && fetchOk ==>
        && r.Success? && |r.value| == |learning.paths|
        && forall i :: 0 <= i < |learning.paths| ==>
             Summarizes(r.value[i], learning.paths[i], learning.ProgressOf(Caller(userIdCtx).value, learning.paths[i].id))
    {
      var caller := Caller(userIdCtx);
      if caller.Failure? {
        return Failure(caller.status, caller.error);
      }
      var paths := learning.GetAllLearningPaths(caller.value, fetchOk);
      if paths.Err? {
        return Failure(StatusInternalServerError, paths.error);
      }
      return Success(paths.value);
    }

    /** EnrollInPath for the path in the URL; `newId` and `insertErr` as in the usecase. */
    method EnrollInPath(userIdCtx: Option<string>, pathParam: string, newId: ObjectId, insertErr: Option<string>)
      returns (r: Reply<string>)
      requires learning.Valid()
      modifies learning
      ensures learning.Valid()
      ensures r.Failure? ==> learning.progress == old(learning.progress)
      ensures Caller(userIdCtx).Failure? ==> r == Failure(Caller(userIdCtx).status, Caller(userIdCtx).error)
      ensures Caller(userIdCtx).Success? && pathParam == "" ==> r == Failure(StatusBadRequest, PathIdRequired)
      ensures Caller(userIdCtx).Success? && pathParam != "" ==>
        var id := Caller(userIdCtx).value;
        var e := EnrollRefusal(learning.paths, old(learning.progress), id, pathParam);
        var outcome := if e.Some? then e else insertErr;
        && r == (if outcome.None? then Success(EnrolledMessage) else Failure(EnrollStatus(outcome.value), outcome.value))
        && (r.Success? ==> (id, FromHex(pathParam).value) in learning.progress)
    {
      var caller := Caller(userIdCtx);
      if caller.Failure? {
        return Failure(caller.status, caller.error);
      }
      if pathParam == "" {
        return Failure(StatusBadRequest, PathIdRequired);
      }
      var err := learning.EnrollInPath(caller.value, pathParam, newId, insertErr);
      if err.Some? {
        return Failure(EnrollStatus(err.value), err.value);
      }
      return Success(EnrolledMessage);
    }

    /** GetUserProgress for the path in the URL. */
    function GetUserProgress(userIdCtx: Option<string>, pathParam: string): (r: Reply<ProgressResponse>)
      reads learning
      ensures Caller(userIdCtx).Failure? ==> r == Failure(Caller(userIdCtx).status, Caller(userIdCtx).error)
      ensures Caller(userIdCtx).Success? && pathParam == "" ==> r == Failure(StatusBadRequest, PathIdRequired)
      ensures Caller(userIdCtx).Success? && pathParam != "" ==>
        match learning.GetUserProgress(Caller(userIdCtx).value, pathParam)
        case Err(e) => r == Failure(ProgressStatus(e), e)
        case Ok(p) => r == Success(p)
    {
      match Caller(userIdCtx)
      case Failure(status, error) => Failure(status, error)
      case Success(id) =>
        if pathParam == "" then Failure(StatusBadRequest, PathIdRequired)
        else match learning.GetUserProgress(id, pathParam)
          case Err(e) => Failure(ProgressStatus(e), e)
          case Ok(p) => Success(p)
    }

    /** GetLesson for the lesson in the URL; any quiz it returns has its answers hidden. */
    method GetLesson(userIdCtx: Option<string>, lessonParam: string) returns (r: Reply<LessonResponse>)
      ensures Caller(userIdCtx).Failure? ==> r == Failure(Caller(userIdCtx).status, Caller(userIdCtx).error)
      ensures Caller(userIdCtx).Success? && lessonParam == "" ==> r == Failure(StatusBadRequest, LessonIdRequired)
      ensures Caller(userIdCtx).Success? && lessonParam != "" ==>
        var e := LessonRefusal(learning.lessons, learning.progress, Caller(userIdCtx).value, lessonParam);
        if e.Some? then r == Failure(LessonStatus(e.value), e.value)
        else
          var lesson := learning.lessons[FromHex(lessonParam).value];
          && r.Success? && r.value.lesson == lesson
          && (r.value.isCompleted <==>
                FromHex(lessonParam).value in learning.progress[(Caller(userIdCtx).value, lesson.pathId)].completedLessons)
          && (r.value.quiz.Some? <==> lesson.quizId.Some? && lesson.quizId.value in learning.quizzes)
          && (r.value.quiz.Some? ==> AnswersHidden(r.value.quiz.value, learning.quizzes[lesson.quizId.value]))
    {
      var caller := Caller(userIdCtx);
      if caller.Failure? {
        return Failure(caller.status, caller.error);
      }
      if lessonParam == "" {
        return Failure(StatusBadRequest, LessonIdRequired);
      }
      var lesson := learning.GetLesson(caller.value, lessonParam);
      if lesson.Err? {
        return Failure(LessonStatus(lesson.error), lesson.error);
      }
      return Success(lesson.value);
    }

    /** CompleteLesson for the lesson in the URL at instant `now`; a `lesson_completed`
        activity is recorded only after a successful completion, and the reply does not
        depend on that recording. */
    method CompleteLesson(userIdCtx: Option<string>, lessonParam: string, updateErr: Option<string>,
                          now: int, calendarOk: bool)
      returns (r: Reply<string>)
      requires learning.Valid() && streaks.Valid()
      modifies learning, streaks, streaks.calendar
      ensures learning.Valid() && streaks.Valid()
      ensures r.Failure? ==>
        && learning.progress == old(learning.progress)
        && streaks.activities == old(streaks.activities) && streaks.users == old(streaks.users)
      ensures Caller(userIdCtx).Failure? ==> r == Failure(Caller(userIdCtx).status, Caller(userIdCtx).error)
      ensures Caller(userIdCtx).Success? && lessonParam == "" ==> r == Failure(StatusBadRequest, LessonIdRequired)
      ensures Caller(userIdCtx).Success? && lessonParam != "" ==>
        var id := Caller(userIdCtx).value;
        var e := CompleteRefusal(learning.lessons, old(learning.progress), id, lessonParam);
        var outcome := if e.Some? then e else updateErr;
        && r == (if outcome.None? then Success(CompletedMessage) else Failure(CompleteStatus(outcome.value), outcome.value))
        && (r.Success? ==>
              streaks.activities == old(streaks.activities) + [StreakActivity(id, "lesson_completed", DayOf(now), now)])
    {
      var caller := Caller(userIdCtx);
      if caller.Failure? {
        return Failure(caller.status, caller.error);
      }
      if lessonParam == "" {
        return Failure(StatusBadRequest, LessonIdRequired);
      }
      var err := learning.CompleteLesson(caller.value, lessonParam, updateErr);
      if err.Some? {
        return Failure(CompleteStatus(err.value), err.value);
      }
      var streakErr := streaks.RecordActivity(caller.value, "lesson_completed", now, calendarOk);
      return Success(CompletedMessage);
    }

    /** SubmitQuiz for the quiz in the URL, which replaces the body's `quiz_id`; `body`
        is the bound answers, or the binding error. A `quiz_passed` activity is recorded
        only for a passed quiz. */
    method SubmitQuiz(userIdCtx: Option<string>, quizParam: string, body: Result<map<string, string>, string>,
                      saveOk: bool, now: int, calendarOk: bool)
      returns (r: Reply<QuizResult>)
      requires learning.Valid() && streaks.Valid()
      modifies learning, streaks, streaks.calendar
      ensures learning.Valid() && streaks.Valid()
      ensures learning.progress == old(learning.progress)
      ensures r.Failure? || !r.value.passed ==>
        streaks.activities == old(streaks.activities) && streaks.users == old(streaks.users)
      ensures Caller(userIdCtx).Failure? ==> r == Failure(Caller(userIdCtx).status, Caller(userIdCtx).error)
      ensures Caller(userIdCtx).Success? && quizParam == "" ==> r == Failure(StatusBadRequest, QuizIdRequired)
      ensures Caller(userIdCtx).Success? && quizParam != "" && body.Err? ==> r == Failure(StatusBadRequest, body.error)
      ensures Caller(userIdCtx).Success? && quizParam != "" && body.Ok? ==>
        var id := Caller(userIdCtx).value;
        var e := QuizRefusal(learning.quizzes, learning.lessons, learning.progress, id, quizParam);
        && (e.Some? ==> r == Failure(QuizStatus(e.value), e.value))
        && (e.None? && !saveOk ==> r == Failure(StatusInternalServerError, SaveFailed))
        && (e.None? && saveOk ==> r == Success(Graded(quizParam, learning.quizzes[FromHex(quizParam).value], body.value)))
        && (r.Success? && r.value.passed ==>
              streaks.activities == old(streaks.activities) + [StreakActivity(id, "quiz_passed", DayOf(now), now)])
    {
      var caller := Caller(userIdCtx);
      if caller.Failure? {
        return Failure(caller.status, caller.error);
      }
      if quizParam == "" {
        return Failure(StatusBadRequest, QuizIdRequired);
      }
      if body.Err? {
        return Failure(StatusBadRequest, body.error);
      }
      var result := learning.SubmitQuiz(caller.value, quizParam, body.value, saveOk);
      if result.Err? {
        return Failure(QuizStatus(result.error), result.error);
      }
      if result.value.passed {
        var streakErr := streaks.RecordActivity(caller.value, "quiz_passed", now, calendarOk);
      }
      return Success(result.value);
    }
  }
}
