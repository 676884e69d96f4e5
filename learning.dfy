/**
 * Learning paths, lessons, per-path progress and quiz grading
 * (internal/usecase/learning_usecase.go) over the learning repository's collections
 * (internal/repository/learning_repository.go). Failures of the store's own writes are
 * passed in as parameters; lookups of missing documents fail as the repository's do.
 */
module Learning {
  import opened Common
  import opened ObjectIds
  import opened Domain

  const FetchFailed := "failed to fetch learning paths"
  const PathNotFound := "learning path not found"
  const AlreadyEnrolled := "user already enrolled in this path"
  const NotEnrolledInPath := "user not enrolled in this path"
  const LessonNotFound := "lesson not found"
  const NotEnrolled := "user not enrolled in this learning path"
  const AlreadyCompleted := "lesson already completed"
  const QuizNotFound := "quiz not found"
  const SaveFailed := "failed to save quiz submission"

  /** The passing grade, in percent. */
  const PassMark := 70.0

  /** One entry of the path list; the progress fields keep Go's zero values when the
      user is not enrolled. */
  datatype PathSummary = PathSummary(
    path: LearningPath,
    totalLessons: int,
    isEnrolled: bool,
    userProgress: Percent,
    completedLessons: int)

  datatype ProgressResponse = ProgressResponse(
    pathId: string,
    pathTitle: string,
    progress: Percent,
    completedLessons: seq<ObjectId>,
    currentLesson: Option<ObjectId>,
    totalLessons: int)

  datatype LessonResponse = LessonResponse(lesson: Lesson, isCompleted: bool, quiz: Option<Quiz>)

  datatype QuizResult = QuizResult(
    quizId: string,
    lessonId: string,
    score: int,
    maxScore: int,
    percentage: Percent,
    passed: bool,
    answers: map<string, string>,
    correctAnswers: map<string, string>)

  /** `GetLearningPathByID`: the first path document with that `_id`. */
  function FindPath(paths: seq<LearningPath>, id: ObjectId): (r: Option<LearningPath>)
    ensures r.Some? ==> r.value in paths && r.value.id == id
    ensures r.None? <==> forall p :: p in paths ==> p.id != id
  {
    if paths == [] then None
    else if paths[0].id == id then Some(paths[0])
    else FindPath(paths[1..], id)
  }

  // Grading

  /** The sum of the points of all questions. */
  function MaxScore(qs: seq<Question>): int
  {
    if qs == [] then 0 else MaxScore(qs[..|qs| - 1]) + qs[|qs| - 1].points
  }

  /** The answer given for `q` is exactly its correct answer. */
  predicate AnsweredCorrectly(q: Question, answers: map<string, string>)
  {
    q.id in answers && answers[q.id] == q.correct
  }

  /** The sum of the points of the questions answered correctly. */
  function Score(qs: seq<Question>, answers: map<string, string>): int
  {
    if qs == [] then 0
    else Score(qs[..|qs| - 1], answers) + (if AnsweredCorrectly(qs[|qs| - 1], answers) then qs[|qs| - 1].points else 0)
  }

  /** No later question has the same ID as question `i`. */
  predicate LastWithId(qs: seq<Question>, i: int)
    requires 0 <= i < |qs|
  {
    forall j :: i < j < |qs| ==> qs[j].id != qs[i].id
  }

  /** `key` answers exactly the questions' IDs, each with the correct answer of the last
      question carrying that ID. */
  ghost predicate KeyOf(qs: seq<Question>, key: map<string, string>)
  {
    && (forall id :: id in key <==> exists i :: 0 <= i < |qs| && qs[i].id == id)
    && (forall i :: 0 <= i < |qs| && LastWithId(qs, i) ==> key[qs[i].id] == qs[i].correct)
  }

  /** The map from question ID to correct answer built by the scoring loop: every
      question's ID is a key, and a repeated ID keeps the answer of its last question. */
  function AnswerKey(qs: seq<Question>): (key: map<string, string>)
    ensures KeyOf(qs, key)
  {
    if qs == [] then map[]
    else
      var pre := qs[..|qs| - 1];
      var q := qs[|qs| - 1];
      var key := AnswerKey(pre)[q.id := q.correct];
      assert qs == pre + [q];
      AnswerKeyStep(pre, q, AnswerKey(pre));
      key
  }

  /** Adding one more question to the key of the ones before it gives the key of all. */
  lemma AnswerKeyStep(pre: seq<Question>, q: Question, prev: map<string, string>)
    requires KeyOf(pre, prev)
    ensures KeyOf(pre + [q], prev[q.id := q.correct])
  {
    var qs := pre + [q];
    forall id | id in prev
      ensures exists i :: 0 <= i < |qs| && qs[i].id == id
    {
      var i :| 0 <= i < |pre| && pre[i].id == id;
      assert qs[i] == pre[i];
    }
    assert qs[|pre|] == q;
    forall i | 0 <= i < |pre| && LastWithId(qs, i)
      ensures LastWithId(pre, i)
    {
      forall j | i < j < |pre| ensures pre[j].id != pre[i].id {
        assert qs[j] == pre[j];
      }
    }
  }

  /** The scoring loop of SubmitQuiz. */
  method ScoreQuiz(questions: seq<Question>, answers: map<string, string>)
    returns (score: int, maxScore: int, correctAnswers: map<string, string>)
    ensures score == Score(questions, answers)
    ensures maxScore == MaxScore(questions)
    ensures correctAnswers == AnswerKey(questions)
  {
    score, maxScore, correctAnswers := 0, 0, map[];
    for i := 0 to |questions|
      invariant score == Score(questions[..i], answers)
      invariant maxScore == MaxScore(questions[..i])
      invariant correctAnswers == AnswerKey(questions[..i])
    {
      var question := questions[i];
      assert questions[..i + 1][..i] == questions[..i];
      maxScore := maxScore + question.points;
      correctAnswers := correctAnswers[question.id := question.correct];
      if question.id in answers && answers[question.id] == question.correct {
        score := score + question.points;
      }
    }
    assert questions[..|questions|] == questions;
  }

  /** With non-negative points the score lies between 0 and the maximum score. */
  lemma {:induction false} ScoreWithinMax(qs: seq<Question>, answers: map<string, string>)
    requires forall i :: 0 <= i < |qs| ==> qs[i].points >= 0
    ensures 0 <= Score(qs, answers) <= MaxScore(qs)
  {
    if qs != [] {
      ScoreWithinMax(qs[..|qs| - 1], answers);
    }
  }

  /** Answers to IDs that are not question IDs of the quiz do not change the score. */
  lemma {:induction false} ScoreIgnoresOtherAnswers(qs: seq<Question>, a: map<string, string>, b: map<string, string>)
    requires forall i :: 0 <= i < |qs| ==> (qs[i].id in a <==> qs[i].id in b)
    requires forall i :: 0 <= i < |qs| && qs[i].id in a ==> a[qs[i].id] == b[qs[i].id]
    ensures Score(qs, a) == Score(qs, b)
  {
    if qs != [] {
      ScoreIgnoresOtherAnswers(qs[..|qs| - 1], a, b);
    }
  }

  /** When question IDs are distinct, submitting the answer key earns full marks. */
  lemma {:induction false} AnswerKeyEarnsFullMarks(qs: seq<Question>)
    requires forall i, j :: 0 <= i < j < |qs| ==> qs[i].id != qs[j].id
    ensures Score(qs, AnswerKey(qs)) == MaxScore(qs)
  {
    if qs != [] {
      var pre := qs[..|qs| - 1];
      var q := qs[|qs| - 1];
      AnswerKeyEarnsFullMarks(pre);
      assert AnswerKey(qs) == AnswerKey(pre)[q.id := q.correct];
      assert forall i :: 0 <= i < |pre| ==> pre[i].id != q.id;
      ScoreIgnoresOtherAnswers(pre, AnswerKey(qs), AnswerKey(pre));
    }
  }

  lemma ProductSign(x: real, m: real)
    ensures m > 0.0 ==> (x >= 0.0 <==> x * m >= 0.0)
    ensures m < 0.0 ==> (x >= 0.0 <==> x * m <= 0.0)
  {
  }

  /** The pass decision `score / maxScore * 100 >= 70` in integer terms: at least 70% of
      a positive maximum; a zero maximum passes only a positive score (+Inf), 0/0 being
      NaN. */
  lemma PassMarkIsSeventyPercent(score: int, maxScore: int)
    ensures maxScore > 0 ==> (AtLeast(Percentage(score, maxScore), PassMark) <==> 10 * score >= 7 * maxScore)
    ensures maxScore == 0 ==> (AtLeast(Percentage(score, maxScore), PassMark) <==> score > 0)
    ensures maxScore < 0 ==> (AtLeast(Percentage(score, maxScore), PassMark) <==> 10 * score <= 7 * maxScore)
  {
    if maxScore != 0 {
      var v := Percentage(score, maxScore).value;
      var m := maxScore as real;
      var d := score as real * 100.0 - PassMark * m;
      assert (v - PassMark) * m == d;
      ProductSign(v - PassMark, m);
      assert d >= 0.0 <==> 10 * score >= 7 * maxScore;
      assert d <= 0.0 <==> 10 * score <= 7 * maxScore;
    }
  }

  // Answer stripping

  /** `shown` is `stored` with every question's correct answer blanked and nothing else
      changed. */
  predicate AnswersHidden(shown: Quiz, stored: Quiz)
  {
    && shown.(questions := stored.questions) == stored
    && |shown.questions| == |stored.questions|
    && forall i :: 0 <= i < |shown.questions| ==> shown.questions[i] == stored.questions[i].(correct := "")
  }

  /** The loop that blanks `Correct` in the quiz copy's questions, in place. */
  method HideAnswers(questions: array<Question>)
    modifies questions
    ensures forall i :: 0 <= i < questions.Length ==> questions[i] == old(questions[i]).(correct := "")
  {
    for i := 0 to questions.Length
      invariant forall j :: 0 <= j < i ==> questions[j] == old(questions[j]).(correct := "")
      invariant forall j :: i <= j < questions.Length ==> questions[j] == old(questions[j])
    {
      questions[i] := questions[i].(correct := "");
    }
  }

  /** A quiz with its answers hidden has the same maximum score, and its answer key
      reveals nothing: every entry is blank. */
  lemma {:induction false} HiddenQuizRevealsNoAnswer(shown: Quiz, stored: Quiz)
    requires AnswersHidden(shown, stored)
    ensures MaxScore(shown.questions) == MaxScore(stored.questions)
    ensures forall id :: id in AnswerKey(shown.questions) ==> AnswerKey(shown.questions)[id] == ""
    decreases |stored.questions|
  {
    if stored.questions != [] {
      var n := |stored.questions|;
      HiddenQuizRevealsNoAnswer(shown.(questions := shown.questions[..n - 1]), stored.(questions := stored.questions[..n - 1]));
    }
  }

  // Progress

  /** The progress record after completing `lessonId`; `path` is the path lookup, whose
      failure leaves the percentage as it was. */
  function Completion(p: UserProgress, lessonId: ObjectId, path: Option<LearningPath>): UserProgress
  {
    var completed := p.completedLessons + [lessonId];
    p.(completedLessons := completed,
       currentLesson := Some(lessonId),
       progress := if path.Some? then Percentage(|completed|, |path.value.lessonIds|) else p.progress)
  }

  /** Completing a lesson not yet completed keeps the completed list duplicate-free. */
  lemma CompletionKeepsLessonsDistinct(p: UserProgress, lessonId: ObjectId, path: Option<LearningPath>)
    requires NoDuplicates(p.completedLessons) && lessonId !in p.completedLessons
    ensures NoDuplicates(Completion(p, lessonId, path).completedLessons)
  {
    var completed := p.completedLessons + [lessonId];
    forall i, j | 0 <= i < j < |completed|
      ensures completed[i] != completed[j]
    {
      if j == |completed| - 1 {
        assert completed[i] in p.completedLessons;
      }
    }
  }

  lemma {:induction false} SetOfSeqSize<T>(ys: seq<T>)
    ensures |set y | y in ys| <= |ys|
    ensures NoDuplicates(ys) ==> |set y | y in ys| == |ys|
  {
    if ys != [] {
      var pre := ys[..|ys| - 1];
      SetOfSeqSize(pre);
      assert (set y | y in ys) == (set y | y in pre) + {ys[|ys| - 1]};
    }
  }

  lemma {:induction false} SubsetSize<T>(a: set<T>, b: set<T>)
    requires a <= b
    ensures |a| <= |b|
  {
    if a != {} {
      var x :| x in a;
      SubsetSize(a - {x}, b - {x});
    }
  }

  /** A duplicate-free list of lessons of a path is no longer than the path's lesson list. */
  lemma CompletedWithinPath(completed: seq<ObjectId>, lessonIds: seq<ObjectId>)
    requires NoDuplicates(completed)
    requires forall l :: l in completed ==> l in lessonIds
    ensures |completed| <= |lessonIds|
  {
    SetOfSeqSize(completed);
    SetOfSeqSize(lessonIds);
    SubsetSize(set x | x in completed, set y | y in lessonIds);
  }

  /** When every completed lesson is one of the path's lessons, completing a new one
      gives a finite percentage above 0 and at most 100. */
  lemma ProgressAtMostHundred(p: UserProgress, lessonId: ObjectId, path: LearningPath)
    requires NoDuplicates(p.completedLessons) && lessonId !in p.completedLessons
    requires forall l :: l in p.completedLessons ==> l in path.lessonIds
    requires lessonId in path.lessonIds
    ensures Completion(p, lessonId, Some(path)).progress.Finite?
    ensures 0.0 < Completion(p, lessonId, Some(path)).progress.value <= 100.0
  {
    var completed := p.completedLessons + [lessonId];
    CompletionKeepsLessonsDistinct(p, lessonId, Some(path));
    CompletedWithinPath(completed, path.lessonIds);
    var n := |completed| as real;
    var m := |path.lessonIds| as real;
    var v := Completion(p, lessonId, Some(path)).progress.value;
    assert v * m == n * 100.0;
    assert 0.0 < n <= m;
    assert (v - 100.0) * m <= 0.0;
  }

  /** `path` summarised for a user whose progress record on it is `p`. */
  predicate Summarizes(s: PathSummary, path: LearningPath, p: Option<UserProgress>)
  {
    && s.path == path
    && s.totalLessons == |path.lessonIds|
    && (s.isEnrolled <==> p.Some?)
    && s.userProgress == (if p.Some? then p.value.progress else Finite(0.0))
    && s.completedLessons == (if p.Some? then |p.value.completedLessons| else 0)
  }

  /** A progress record of user `userId` on path `pathId`: duplicate-free completed
      lessons, each a stored lesson of that path. */
  predicate Enrolment(userId: ObjectId, pathId: ObjectId, p: UserProgress, lessons: map<ObjectId, Lesson>)
  {
    && p.userId == userId
    && p.pathId == pathId
    && NoDuplicates(p.completedLessons)
    && forall l :: l in p.completedLessons ==> l in lessons && lessons[l].pathId == pathId
  }

  type ProgressStore = map<(ObjectId, ObjectId), UserProgress>

  /** EnrollInPath's refusals: a malformed or unknown path, then an existing enrolment. */
  function EnrollRefusal(paths: seq<LearningPath>, progress: ProgressStore, userId: ObjectId, pathHex: string)
    : (e: Option<string>)
    ensures e == Some(PathNotFound) <==> FromHex(pathHex).None? || FindPath(paths, FromHex(pathHex).value).None?
    ensures e.None? <==> FromHex(pathHex).Some? && FindPath(paths, FromHex(pathHex).value).Some?
                         && (userId, FromHex(pathHex).value) !in progress
    ensures e.None? || e == Some(PathNotFound) || e == Some(AlreadyEnrolled)
  {
    match FromHex(pathHex)
    case None => Some(PathNotFound)
    case Some(pathId) =>
      if FindPath(paths, pathId).None? then Some(PathNotFound)
      else if (userId, pathId) in progress then Some(AlreadyEnrolled)
      else None
  }

  /** The refusals GetLesson and CompleteLesson share: a malformed or unknown lesson,
      then a user not enrolled in the lesson's path. */
  function LessonRefusal(lessons: map<ObjectId, Lesson>, progress: ProgressStore, userId: ObjectId, lessonHex: string)
    : (e: Option<string>)
    ensures e == Some(LessonNotFound) <==> FromHex(lessonHex).None? || FromHex(lessonHex).value !in lessons
    ensures e.None? <==> FromHex(lessonHex).Some? && FromHex(lessonHex).value in lessons
                         && (userId, lessons[FromHex(lessonHex).value].pathId) in progress
    ensures e.None? || e == Some(LessonNotFound) || e == Some(NotEnrolled)
  {
    match FromHex(lessonHex)
    case None => Some(LessonNotFound)
    case Some(lessonId) =>
      if lessonId !in lessons then Some(LessonNotFound)
      else if (userId, lessons[lessonId].pathId) !in progress then Some(NotEnrolled)
      else None
  }

  /** CompleteLesson's refusals: those of LessonRefusal, then a lesson already completed. */
  function CompleteRefusal(lessons: map<ObjectId, Lesson>, progress: ProgressStore, userId: ObjectId, lessonHex: string)
    : (e: Option<string>)
    ensures LessonRefusal(lessons, progress, userId, lessonHex).Some? ==> e == LessonRefusal(lessons, progress, userId, lessonHex)
    ensures LessonRefusal(lessons, progress, userId, lessonHex).None? ==>
      var lessonId := FromHex(lessonHex).value;
      (e == Some(AlreadyCompleted) <==> lessonId in progress[(userId, lessons[lessonId].pathId)].completedLessons)
      && (e.None? || e == Some(AlreadyCompleted))
  {
    match LessonRefusal(lessons, progress, userId, lessonHex)
    case Some(e) => Some(e)
    case None =>
      var lessonId := FromHex(lessonHex).value;
      if lessonId in progress[(userId, lessons[lessonId].pathId)].completedLessons then Some(AlreadyCompleted)
      else None
  }

  /** SubmitQuiz's refusals: a malformed or unknown quiz, its lesson missing, then a user
      not enrolled in the lesson's path. */
  function QuizRefusal(quizzes: map<ObjectId, Quiz>, lessons: map<ObjectId, Lesson>, progress: ProgressStore,
                       userId: ObjectId, quizHex: string): (e: Option<string>)
    ensures e == Some(QuizNotFound) <==> FromHex(quizHex).None? || FromHex(quizHex).value !in quizzes
    ensures e == Some(LessonNotFound) <==> FromHex(quizHex).Some? && FromHex(quizHex).value in quizzes
                                           && quizzes[FromHex(quizHex).value].lessonId !in lessons
    ensures e.None? <==> FromHex(quizHex).Some? && FromHex(quizHex).value in quizzes
                         && quizzes[FromHex(quizHex).value].lessonId in lessons
                         && (userId, lessons[quizzes[FromHex(quizHex).value].lessonId].pathId) in progress
    ensures e.None? || e == Some(QuizNotFound) || e == Some(LessonNotFound) || e == Some(NotEnrolled)
  {
    match FromHex(quizHex)
    case None => Some(QuizNotFound)
    case Some(quizId) =>
      if quizId !in quizzes then Some(QuizNotFound)
      else if quizzes[quizId].lessonId !in lessons then Some(LessonNotFound)
      else if (userId, lessons[quizzes[quizId].lessonId].pathId) !in progress then Some(NotEnrolled)
      else None
  }

  /** The result of grading `answers` against `quiz`, requested as `quizHex`. */
  function Graded(quizHex: string, quiz: Quiz, answers: map<string, string>): QuizResult
  {
    var score := Score(quiz.questions, answers);
    var maxScore := MaxScore(quiz.questions);
    var percentage := Percentage(score, maxScore);
    QuizResult(quizHex, Hex(quiz.lessonId), score, maxScore, percentage, AtLeast(percentage, PassMark),
               answers, AnswerKey(quiz.questions))
  }

  class LearningUsecase {
    /** `learning_paths`, in the order the store returns them. */
    var paths: seq<LearningPath>
    /** `lessons`, keyed by `_id`. */
    var lessons: map<ObjectId, Lesson>
    /** `quizzes`, keyed by `_id`. */
    var quizzes: map<ObjectId, Quiz>
    /** `user_progress`, keyed by (user, path). */
    var progress: ProgressStore
    /** `quiz_submissions`, in insertion order. */
    var submissions: seq<QuizSubmission>

    ghost predicate Valid()
      reads this
    {
      forall key :: key in progress ==> Enrolment(key.0, key.1, progress[key], lessons)
    }

    constructor(paths: seq<LearningPath>, lessons: map<ObjectId, Lesson>, quizzes: map<ObjectId, Quiz>)
      ensures this.paths == paths && this.lessons == lessons && this.quizzes == quizzes
      ensures progress == map[] && submissions == []
      ensures Valid()
    {
      this.paths := paths;
      this.lessons := lessons;
      this.quizzes := quizzes;
      progress := map[];
      submissions := [];
    }

    /** The user's progress record on a path, if enrolled. */
    function ProgressOf(userId: ObjectId, pathId: ObjectId): Option<UserProgress>
      reads this
    {
      if (userId, pathId) in progress then Some(progress[(userId, pathId)]) else None
    }

    /** GetAllLearningPaths; `fetchOk` is whether the store's listing succeeds. */
    method GetAllLearningPaths(userId: ObjectId, fetchOk: bool) returns (r: Result<seq<PathSummary>, string>)
      ensures !fetchOk ==> r == Err(FetchFailed)
      ensures fetchOk ==> r.Ok? && |r.value| == |paths|
      ensures fetchOk ==> forall i :: 0 <= i < |paths| ==> Summarizes(r.value[i], paths[i], ProgressOf(userId, paths[i].id))
    {
      if !fetchOk {
        return Err(FetchFailed);
      }
      var responses: seq<PathSummary> := [];
      for i := 0 to |paths|
        invariant |responses| == i
        invariant forall j :: 0 <= j < i ==> Summarizes(responses[j], paths[j], ProgressOf(userId, paths[j].id))
      {
        var path := paths[i];
        var response := PathSummary(path, |path.lessonIds|, false, Finite(0.0), 0);
        if (userId, path.id) in progress {
          var p := progress[(userId, path.id)];
          response := response.(isEnrolled := true, userProgress := p.progress, completedLessons := |p.completedLessons|);
        }
        responses := responses + [response];
      }
      return Ok(responses);
    }

    /** EnrollInPath; `newId` is the generated `_id` and `insertErr` the store's answer
        to the insertion. */
    method EnrollInPath(userId: ObjectId, pathHex: string, newId: ObjectId, insertErr: Option<string>)
      returns (err: Option<string>)
      requires Valid()
      modifies this
      ensures Valid()
      ensures paths == old(paths) && lessons == old(lessons) && quizzes == old(quizzes) && submissions == old(submissions)
      ensures var e := EnrollRefusal(paths, old(progress), userId, pathHex);
        if e.Some? then err == e && progress == old(progress)
        else
          var pathId := FromHex(pathHex).value;
          err == insertErr
          && progress == if insertErr.Some? then old(progress)
                         else old(progress)[(userId, pathId) := UserProgress(newId, userId, pathId, [], None, Finite(0.0))]
    {
      var pathId := FromHex(pathHex);
      if pathId.None? {
        return Some(PathNotFound);
      }
      if FindPath(paths, pathId.value).None? {
        return Some(PathNotFound);
      }
      if (userId, pathId.value) in progress {
        return Some(AlreadyEnrolled);
      }
      if insertErr.None? {
        progress := progress[(userId, pathId.value) := UserProgress(newId, userId, pathId.value, [], None, Finite(0.0))];
      }
      return insertErr;
    }

    /** GetUserProgress: a malformed path ID reads as not enrolled. */
    function GetUserProgress(userId: ObjectId, pathHex: string): (r: Result<ProgressResponse, string>)
      reads this
      ensures var pathId := FromHex(pathHex);
        if pathId.None? || (userId, pathId.value) !in progress then r == Err(NotEnrolledInPath)
        else if FindPath(paths, pathId.value).None? then r == Err(PathNotFound)
        else
          var p := progress[(userId, pathId.value)];
          var path := FindPath(paths, pathId.value).value;
          && r.Ok?
          && r.value.pathId == pathHex && r.value.pathTitle == path.title
          && r.value.progress == p.progress && r.value.completedLessons == p.completedLessons
          && r.value.currentLesson == p.currentLesson && r.value.totalLessons == |path.lessonIds|
    {
      var pathId := FromHex(pathHex);
      if pathId.None? || (userId, pathId.value) !in progress then Err(NotEnrolledInPath)
      else
        var p := progress[(userId, pathId.value)];
        match FindPath(paths, pathId.value)
        case None => Err(PathNotFound)
        case Some(path) =>
          Ok(ProgressResponse(pathHex, path.title, p.progress, p.completedLessons, p.currentLesson, |path.lessonIds|))
    }

    /** GetLesson: the lesson, whether the user completed it, and its quiz without the
        answers when the quiz is found. */
    method GetLesson(userId: ObjectId, lessonHex: string) returns (r: Result<LessonResponse, string>)
      ensures var e := LessonRefusal(lessons, progress, userId, lessonHex);
        if e.Some? then r == Err(e.value)
        else
          var lessonId := FromHex(lessonHex).value;
          var lesson := lessons[lessonId];
          && r.Ok? && r.value.lesson == lesson
          && (r.value.isCompleted <==> lessonId in progress[(userId, lesson.pathId)].completedLessons)
          && (r.value.quiz.Some? <==> lesson.quizId.Some? && lesson.quizId.value in quizzes)
          && (r.value.quiz.Some? ==> AnswersHidden(r.value.quiz.value, quizzes[lesson.quizId.value]))
    {
      var lessonId := FromHex(lessonHex);
      if lessonId.None? || lessonId.value !in lessons {
        return Err(LessonNotFound);
      }
      var lesson := lessons[lessonId.value];
      if (userId, lesson.pathId) !in progress {
        return Err(NotEnrolled);
      }
      var isCompleted := IsCompleted(progress[(userId, lesson.pathId)].completedLessons, lessonId.value);
      var quiz: Option<Quiz> := None;
      if lesson.quizId.Some? && lesson.quizId.value in quizzes {
        var stored := quizzes[lesson.quizId.value];
        var questions := new Question[|stored.questions|](i requires 0 <= i < |stored.questions| => stored.questions[i]);
        HideAnswers(questions);
        quiz := Some(stored.(questions := questions[..]));
      }
      return Ok(LessonResponse(lesson, isCompleted, quiz));
    }

    /** The scan of the completed lessons for `lessonId`. */
    static method IsCompleted(completed: seq<ObjectId>, lessonId: ObjectId) returns (found: bool)
      ensures found <==> lessonId in completed
    {
      for i := 0 to |completed|
        invariant lessonId !in completed[..i]
      {
        if completed[i] == lessonId {
          assert completed[i] in completed[..i + 1];
          return true;
        }
        assert completed[..i + 1] == completed[..i] + [completed[i]];
      }
      assert completed[..|completed|] == completed;
      return false;
    }

    /** CompleteLesson; `updateErr` is the store's answer to the update. */
    method CompleteLesson(userId: ObjectId, lessonHex: string, updateErr: Option<string>)
      returns (err: Option<string>)
      requires Valid()
      modifies this
      ensures Valid()
      ensures paths == old(paths) && lessons == old(lessons) && quizzes == old(quizzes) && submissions == old(submissions)
      ensures var e := CompleteRefusal(lessons, old(progress), userId, lessonHex);
        if e.Some? then err == e && progress == old(progress)
        else
          var lessonId := FromHex(lessonHex).value;
          var key := (userId, lessons[lessonId].pathId);
          err == updateErr
          && progress == if updateErr.Some? then old(progress)
                         else old(progress)[key := Completion(old(progress)[key], lessonId, FindPath(paths, key.1))]
    {
      var lessonId := FromHex(lessonHex);
      if lessonId.None? || lessonId.value !in lessons {
        return Some(LessonNotFound);
      }
      var lesson := lessons[lessonId.value];
      var key := (userId, lesson.pathId);
      if key !in progress {
        return Some(NotEnrolled);
      }
      var p := progress[key];
      var done := IsCompleted(p.completedLessons, lessonId.value);
      if done {
        return Some(AlreadyCompleted);
      }
      var path := FindPath(paths, lesson.pathId);
      CompletionKeepsLessonsDistinct(p, lessonId.value, path);
      if updateErr.None? {
        progress := progress[key := Completion(p, lessonId.value, path)];
      }
      return updateErr;
    }

    /** SubmitQuiz; `saveOk` is whether the store accepts the submission record. */
    method SubmitQuiz(userId: ObjectId, quizHex: string, answers: map<string, string>, saveOk: bool)
      returns (r: Result<QuizResult, string>)
      requires Valid()
      modifies this
      ensures Valid()
      ensures paths == old(paths) && lessons == old(lessons) && quizzes == old(quizzes) && progress == old(progress)
      ensures var e := QuizRefusal(quizzes, lessons, progress, userId, quizHex);
        if e.Some? then r == Err(e.value) && submissions == old(submissions)
        else if !saveOk then r == Err(SaveFailed) && submissions == old(submissions)
        else
          var quizId := FromHex(quizHex).value;
          var result := Graded(quizHex, quizzes[quizId], answers);
          && r == Ok(result)
          && submissions == old(submissions) + [QuizSubmission(userId, quizId, quizzes[quizId].lessonId, answers,
                                                               result.score, result.maxScore, result.passed)]
    {
      var quizId := FromHex(quizHex);
      if quizId.None? || quizId.value !in quizzes {
        return Err(QuizNotFound);
      }
      var quiz := quizzes[quizId.value];
      if quiz.lessonId !in lessons {
        return Err(LessonNotFound);
      }
      var lesson := lessons[quiz.lessonId];
      if (userId, lesson.pathId) !in progress {
        return Err(NotEnrolled);
      }
      var score, maxScore, correctAnswers := ScoreQuiz(quiz.questions, answers);
      var percentage := Percentage(score, maxScore);
      var passed := AtLeast(percentage, PassMark);
      if !saveOk {
        return Err(SaveFailed);
      }
      submissions := submissions + [QuizSubmission(userId, quizId.value, quiz.lessonId, answers, score, maxScore, passed)];
      return Ok(QuizResult(quizHex, Hex(quiz.lessonId), score, maxScore, percentage, passed, answers, correctAnswers));
    }
  }
}
