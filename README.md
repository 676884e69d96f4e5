# LissanAI backend core, modelled in Dafny

LissanAI is an English-learning backend written in Go. This project models the parts of it
that hold business logic of their own, and proves what each promises:

- **the streak engine** (`internal/service/streak_service.go`): it records an activity and
  recomputes the user's daily streak, reports streak information, freezes a streak under a
  monthly quota of two, and runs the monthly freeze reset and the nightly streak expiry;
- **the activity calendar** (`internal/service/activity_calendar_service.go`): per-day
  activity summaries; the year and date-range calendars built by a day-by-day walk into
  Sunday-terminated weeks with totals, a per-type breakdown and the busiest day; the longest
  run of active weeks;
- **learning paths** (`internal/usecase/learning_usecase.go`): enrolment, progress,
  lessons with their quizzes (answers hidden), lesson completion and quiz grading with a
  70 % pass mark;
- **accounts and tokens** (`internal/usecase/auth_usecase.go`): registration, login,
  social sign-in, logout, refresh tokens, password reset, profile reads, updates and
  account deletion;
- **the voice conversation**: one turn of speech-to-text, language model and
  speech synthesis (`internal/service/speaking_service.go`), and the websocket session's event
  loop (`internal/handler/speaking_handler.go`);
- **the transcription client's retry policy** (`internal/client/whisper_client.go`);
- **string cleanup and request validation**: the JSON fence stripping of the grammar
  checker and the e-mail drafter, the `Authorization: Bearer` middleware, and the streak and
  learning handlers' whitelist, parameter parsing and error-to-status mapping.

Modelling conventions:

- **Stores.** The Mongo collections are maps held by classes (`AuthUsecase`,
  `StreakService`, `ActivityCalendarService`, `LearningUsecase`), whose methods update them
  as the repositories would.
- **Collaborators.** Each collaborator the core cannot see is a function parameter or a
  `const` function field. This covers password hashing, JWT signing and validation, the AI
  providers, JSON decoding and the HTTP exchange with the transcription service.
- **Store outcomes.** Whether a store write succeeds is a parameter (`createOk`, `saveOk`,
  `insertErr`, …).
- **Strings.** A Go string is a `seq<char>` whose elements stand for its bytes.
- **Time.** Time is in seconds since the Unix epoch. A date is a day number: seconds
  divided by 86400, with 1 January 1970, a Thursday, as day 0.
- **Percentages.** A Go `float64` percentage is a `Percent`: an exact rational, or `+Inf`,
  `-Inf` or `NaN` where Go divides by zero.
- **Imperative code.** The source's loops stay loops:
  - the calendar walk;
  - `contains`;
  - `calculateConsecutiveWeeks`;
  - the quiz scoring loop;
  - the settings merge;
  - the expiry cursor;
  - the transcription retries;
  - the session's `for`/`select`.

  Each loop method is proved equal to a specification function, and the properties are
  proved about that function.

## Model

| member | source | states |
|---|---|---|
| Streaks.Recorded | internal/service/streak_service.go:75-123 | The recorded user's streak is NextStreak's decision (1 when never active, +1 after yesterday or across a gap while frozen, unchanged on the same day, else 1); longest becomes the larger of the old longest and the new streak; the record is unfrozen and dated today; no other field changes |
| Streaks.RecordedKeepsInvariant | internal/service/streak_service.go:109-123 | Recording keeps longest ≥ current ≥ 0 and a freeze count within 0..2 |
| Streaks.StreakCountsConsecutiveDays | internal/service/streak_service.go:88-106 | Starting from a never-active user, recording strictly increasing days leaves the last day as last activity, the streak unfrozen, and the streak equal to the length of the trailing run of consecutive days |
| Streaks.ExpiryAgreesWithNextStreak | internal/service/streak_service.go:88-106 | A user the nightly job would expire gets a streak of 1 on their next activity; an unexpired active user's streak never drops on the next activity |
| Streaks.FreezeRefusal | internal/service/streak_service.go:190-200 | A freeze is refused exactly when the user has used two freezes, has a zero streak, or is already frozen; the limit is reported first |
| Streaks.Frozen | internal/service/streak_service.go:203-211 | A freeze sets the frozen flag and adds exactly one to the freeze count, changing nothing else |
| Streaks.FreezeBridgesGap | internal/service/streak_service.go:96-101 | After an accepted freeze, an activity after a gap of any length continues the streak (+1), where without the freeze it would restart at 1 |
| Streaks.Info | internal/service/streak_service.go:143-179 | The streak fields, the last activity date, the frozen flag and the freeze count are the user's; MaxFreezes is 2; canFreeze holds exactly when fewer than 2 freezes were used, the streak is positive and it is not frozen, so it implies the freeze would be accepted; days until loss is 0 when never active, frozen or last active before today, and otherwise reaches exactly the day after the last activity |
| Streaks.CanFreezeIffFreezeAccepted | internal/service/streak_service.go:166-200 | For a well-formed user, the reported canFreeze holds exactly when FreezeStreak would succeed |
| Streaks.ExpireStreaks | internal/service/streak_service.go:244-276 | Exactly the users with a positive, unfrozen streak last active before yesterday (or never) whose document decodes and whose update is accepted get streak 0; a user whose decode or update fails keeps its streak; every other user is unchanged and no user is added or removed |
| Streaks.ResetFreezes | internal/service/streak_service.go:223-236 | Every user's freeze count becomes 0, nothing else changes |
| Streaks.CountOnPositive | internal/service/streak_service.go:36-42 | The day's activity count is positive exactly when a recorded activity of that user falls on that day |
| Streaks.ResetExpired | internal/service/streak_service.go:255-276 | The cursor loop skips a user whose decode or update fails, leaves the users ExpireStreaks gives, and counts exactly the expired users whose update succeeded |
| Streaks.StreakService.RecordActivity | internal/service/streak_service.go:31-72 | Always appends the activity; recomputes the streak only for the day's first activity (failing with the store's not-found error for an unknown user); a calendar failure leaves the summaries unchanged and does not fail the call |
| Streaks.StreakService.UpdateStreak | internal/service/streak_service.go:75-140 | A known user's record becomes Recorded(user, today); an unknown user gives the not-found error and nothing changes |
| Streaks.StreakService.GetStreakInfo | internal/service/streak_service.go:143-179 | Known users get Info(user, today); unknown ones the store's not-found error |
| Streaks.StreakService.FreezeStreak | internal/service/streak_service.go:182-220 | Unknown users are refused; otherwise the error is FreezeRefusal's and the record becomes Frozen exactly on success; a refusal changes nothing |
| Streaks.StreakService.ResetMonthlyFreezes | internal/service/streak_service.go:223-236 | The stored users become ResetFreezes of the old ones |
| Streaks.StreakService.CheckAndUpdateExpiredStreaks | internal/service/streak_service.go:239-283 | A failed query returns its wrapped error and changes nothing; otherwise the stored users become ExpireStreaks with yesterday's date and the per-user failures, and the count is the number of expired users whose update succeeded |
| Streaks.StreakService.GetActivityCalendar | internal/service/streak_service.go:286-288 | Delegates to the year calendar: the calendar of the requested (or current) year for a known user, the not-found error otherwise |
| Streaks.StreakService.GetActivityCalendarRange | internal/service/streak_service.go:291-293 | Delegates to the range calendar over the visited days between the two instants |
| ActivityCalendar.ContainsType | internal/service/activity_calendar_service.go:313-320 | The loop finds the item exactly when it occurs in the slice |
| ActivityCalendar.Merged | internal/service/activity_calendar_service.go:40-79 | A first activity gives count 1 and the single type; a later one adds 1 to the count, appends the type only if absent, sets the last time and lowers the first time only for an earlier activity |
| ActivityCalendar.MergedWellFormed | internal/service/activity_calendar_service.go:60-79 | Merging keeps a summary's type list duplicate-free, its count positive and first ≤ last |
| ActivityCalendar.RecordAllCounts | internal/service/activity_calendar_service.go:28-81 | After any non-empty sequence of activities on one day, the summary counts them all and its last time is the last activity's |
| ActivityCalendar.RecordAllTypes | internal/service/activity_calendar_service.go:60-73 | The summary's types are exactly the types that occurred that day |
| ActivityCalendar.RecordAllFirst | internal/service/activity_calendar_service.go:74-77 | The summary's first time is the earliest activity time of the day |
| ActivityCalendar.CountTypes | internal/service/activity_calendar_service.go:157-159 | The breakdown loop adds one per listed type to the running map, as AddTypes specifies |
| ActivityCalendar.AddDay | internal/service/activity_calendar_service.go:149-166 | One visited day is the stored summary (or an empty day) and the running totals become the totals of the days visited so far plus this one |
| ActivityCalendar.AppendDay | internal/service/activity_calendar_service.go:168-174 | Appending a day and closing the week on a Sunday or at the closing instant keeps the weeks equal to SplitWeeks of the visited days |
| ActivityCalendar.ActivityCalendarService.RecordDailyActivity | internal/service/activity_calendar_service.go:28-81 | On success the day's summary becomes Merged of the old one; a store error is returned and leaves the summaries unchanged |
| ActivityCalendar.ActivityCalendarService.Walk | internal/service/activity_calendar_service.go:137-177 | The walk visits the days from start to end, gives the weeks SplitWeeks of those days, and the totals of those days |
| ActivityCalendar.ActivityCalendarService.YearCalendar | internal/service/activity_calendar_service.go:91-201 | The year response is CalendarOf the year's days with the closing instant given, or the not-found error for an unknown user |
| ActivityCalendar.ActivityCalendarService.GetActivityCalendar | internal/service/activity_calendar_service.go:84-204 | Year 0 means the current year; the walk covers every day of the year; weeks close only on Sundays because the end test compares against 30 December 23:59:59 (see Findings) |
| ActivityCalendar.ActivityCalendarService.GetActivityCalendarClosingLastWeek | internal/service/activity_calendar_service.go:171-174 | The year calendar with its last week closed on 31 December, so the weeks hold every day of the year |
| ActivityCalendar.ActivityCalendarService.GetActivityCalendarRange | internal/service/activity_calendar_service.go:207-310 | The range response is CalendarOf the days from start to end inclusive, closing the last week at the end instant |
| ActivityCalendar.ActivityCalendarService.CalculateConsecutiveWeeks | internal/service/activity_calendar_service.go:322-346 | The loop's result is the longest run of consecutive active weeks |
| CalendarSpec.YearLength | internal/service/activity_calendar_service.go:91-92 | A year is 365 or 366 days, the distance between consecutive 1 January dates |
| CalendarSpec.YearWalk | internal/service/activity_calendar_service.go:91-92 | The year loop visits exactly DaysInYear(y) days, and no visited midnight equals its week-closing instant |
| CalendarSpec.RangeWalkAligned | internal/service/activity_calendar_service.go:249-285 | When the range end is midnight-aligned with the start, the last visit is the one that closes the final week |
| CalendarSpec.Days | internal/service/activity_calendar_service.go:149-156 | The i-th visited day is the stored summary of date first+i, or an empty day |
| CalendarSpec.SplitCovers | internal/service/activity_calendar_service.go:168-174 | The closed weeks followed by the open week are exactly the visited days, in order |
| CalendarSpec.OpenWeekShape | internal/service/activity_calendar_service.go:168-174 | The unclosed week is the most recent days, none a Sunday, and every closed week is non-empty |
| CalendarSpec.WeeksAtMostSeven | internal/service/activity_calendar_service.go:171-174 | Over consecutive dates every week holds at most seven days, and the open one at most six |
| CalendarSpec.WeeksCoverAllDays | internal/service/activity_calendar_service.go:279-282 | Closing at the last visited day leaves no day outside the weeks |
| CalendarSpec.TrailingWeekDropped | internal/service/activity_calendar_service.go:171-174 | Without a closing instant, the trailing days are dropped unless the last day is a Sunday |
| CalendarSpec.ActiveDaysBound | internal/service/activity_calendar_service.go:149-156 | Active days never exceed the days visited |
| CalendarSpec.AddTypesCounts | internal/service/activity_calendar_service.go:157-159 | The breakdown entry of a type grows by the number of its occurrences in the day's list |
| CalendarSpec.OccurrencesNoDuplicates | internal/service/activity_calendar_service.go:66-73 | A duplicate-free type list holds a type once or not at all |
| CalendarSpec.BreakdownCountsDays | internal/service/activity_calendar_service.go:157-159 | With duplicate-free day lists, a type's breakdown entry counts the days on which it occurred, not the activities |
| CalendarSpec.MostActiveIsEarliestMaximum | internal/service/activity_calendar_service.go:162-165 | The peak count is the largest daily count (0 when none) and its date is the earliest day reaching it |
| CalendarSpec.ActiveRunsShape | internal/service/activity_calendar_service.go:322-346 | The loop's running counts: the current run ends the sequence and is all active, and the maximum bounds every all-active window while being reached by one |
| CalendarSpec.LongestActiveRunIsMaximal | internal/service/activity_calendar_service.go:322-346 | The consecutive-week count lies in 0..number of weeks, some window of that length is all active, and every all-active window is no longer |
| CalendarSpec.ClosingLastDayCoversAll | internal/service/activity_calendar_service.go:171-174 | A calendar whose last week is closed on its last day shows every visited day |
| CalendarSpec.YearWeeksCoverYearOnlyIfSunday | internal/service/activity_calendar_service.go:91-174 | The year calendar as written shows every day of the year exactly when 31 December is a Sunday |
| CalendarSpec.YearCalendar2025DropsLastDays | internal/service/activity_calendar_service.go:91-174 | For 2025 the year calendar's weeks leave out the last days of December |
| CalendarSpec.RangeWeeksCoverRange | internal/service/activity_calendar_service.go:207-285 | A range calendar whose end is midnight-aligned with its start shows every visited day |
| Learning.FindPath | internal/usecase/learning_usecase.go:65-68 | A path is found exactly when one with that ID exists, and the one found has it |
| Learning.AnswerKey | internal/usecase/learning_usecase.go:223-227 | CorrectAnswers has an entry for exactly the question IDs, holding the correct answer of the last question with that ID |
| Learning.ScoreQuiz | internal/usecase/learning_usecase.go:220-233 | The scoring loop gives the points of the exactly-matching answers, the sum of all points and the answer key |
| Learning.ScoreWithinMax | internal/usecase/learning_usecase.go:221-233 | With non-negative points, 0 ≤ score ≤ maxScore |
| Learning.ScoreIgnoresOtherAnswers | internal/usecase/learning_usecase.go:229-232 | Answers to IDs that are not questions of the quiz do not change the score |
| Learning.AnswerKeyEarnsFullMarks | internal/usecase/learning_usecase.go:225-232 | With distinct question IDs, submitting the answer key earns maxScore |
| Learning.PassMarkIsSeventyPercent | internal/usecase/learning_usecase.go:235-236 | Passing means 10·score ≥ 7·maxScore for a positive maximum; with a zero maximum only a positive score passes (+Inf), NaN fails |
| Learning.HideAnswers | internal/usecase/learning_usecase.go:150-153 | Every question of the copy gets an empty correct answer and keeps everything else |
| Learning.HiddenQuizRevealsNoAnswer | internal/usecase/learning_usecase.go:146-156 | A quiz shown with hidden answers has the same points, and its answer key holds only empty answers |
| Learning.CompletionKeepsLessonsDistinct | internal/usecase/learning_usecase.go:178-187 | Completing a lesson not yet completed keeps the completed list duplicate-free |
| Learning.CompletedWithinPath | internal/usecase/learning_usecase.go:190-193 | Distinct completed lessons, all of the path, are no more than the path's lessons |
| Learning.ProgressAtMostHundred | internal/usecase/learning_usecase.go:186-193 | Completing a new lesson of the path gives a finite progress in (0, 100] |
| Learning.EnrollRefusal | internal/usecase/learning_usecase.go:58-74 | A malformed or unknown path is "learning path not found", an existing enrolment "user already enrolled in this path", and enrolment proceeds otherwise |
| Learning.LessonRefusal | internal/usecase/learning_usecase.go:113-128 | A malformed or unknown lesson is "lesson not found"; a user without progress in the lesson's path is refused as not enrolled |
| Learning.CompleteRefusal | internal/usecase/learning_usecase.go:161-183 | The lesson guards of GetLesson, then "lesson already completed" exactly when the lesson is in the completed list |
| Learning.QuizRefusal | internal/usecase/learning_usecase.go:198-218 | A malformed or unknown quiz is "quiz not found"; a known quiz whose lesson is missing is exactly "lesson not found"; otherwise the user must be enrolled in the lesson's path |
| Learning.LearningUsecase.GetAllLearningPaths | internal/usecase/learning_usecase.go:31-56 | One entry per path, with the path's lesson count, enrolled exactly when a progress record exists, and that record's progress and completed count |
| Learning.LearningUsecase.EnrollInPath | internal/usecase/learning_usecase.go:58-83 | Refused enrolments change nothing; otherwise exactly one progress record (no lessons, progress 0) is added, unless the insert fails |
| Learning.LearningUsecase.GetUserProgress | internal/usecase/learning_usecase.go:85-111 | No progress record (or a malformed ID) is "not enrolled"; an unknown path "learning path not found"; otherwise the record's fields and the path's title and lesson count |
| Learning.LearningUsecase.GetLesson | internal/usecase/learning_usecase.go:113-159 | An allowed lesson is returned with isCompleted exactly when completed, and its quiz, when stored, with every answer hidden |
| Learning.LearningUsecase.CompleteLesson | internal/usecase/learning_usecase.go:161-196 | A refusal changes nothing; otherwise the lesson is appended, becomes the current lesson, and progress is recomputed when the path is found |
| Learning.LearningUsecase.SubmitQuiz | internal/usecase/learning_usecase.go:198-265 | A refused or unsaved submission changes nothing; otherwise one submission with the graded score is stored and the graded result returned |
| LearningHandlers.EnrollStatus | internal/handler/learning_handler.go:94-105 | 404 exactly for "learning path not found", 400 exactly for an existing enrolment, 500 for everything else |
| LearningHandlers.ProgressStatus | internal/handler/learning_handler.go:144-151 | 404 exactly for "user not enrolled in this path", else 500 |
| LearningHandlers.LessonStatus | internal/handler/learning_handler.go:190-201 | 404 exactly for "lesson not found", 403 exactly for not enrolled, else 500 |
| LearningHandlers.CompleteStatus | internal/handler/learning_handler.go:244-258 | As GetLesson, plus 400 for "lesson already completed" |
| LearningHandlers.QuizStatus | internal/handler/learning_handler.go:315-325 | 404 exactly for "quiz not found", 403 exactly for not enrolled, else 500 |
| LearningHandlers.LearningHandler.GetAllLearningPaths | internal/handler/learning_handler.go:38-57 | 401 without a user, 400 for a non-hex user, 500 when the paths cannot be read, else one summary per path |
| LearningHandlers.LearningHandler.EnrollInPath | internal/handler/learning_handler.go:73-109 | The caller and path guards, then the use case's outcome mapped by EnrollStatus; a failure changes no progress |
| LearningHandlers.LearningHandler.GetUserProgress | internal/handler/learning_handler.go:125-155 | The caller and path guards, then the use case's answer with ProgressStatus on error |
| LearningHandlers.LearningHandler.GetLesson | internal/handler/learning_handler.go:172-205 | The caller and lesson guards, then the lesson with hidden quiz answers, or LessonStatus on refusal |
| LearningHandlers.LearningHandler.CompleteLesson | internal/handler/learning_handler.go:222-268 | A lesson_completed activity is recorded only after a successful completion, and nothing else decides the 200 answer |
| LearningHandlers.LearningHandler.SubmitQuiz | internal/handler/learning_handler.go:286-337 | The URL's quiz ID is graded; a quiz_passed activity is recorded exactly when the result passed; failures map by QuizStatus or to 400 for a bad body |
| StreakHandlers.ActivityTypeRefusal | internal/handler/streak_handler.go:118-137 | Only the six listed activity types pass; an empty one is "required", any other "invalid" |
| StreakHandlers.YearParam | internal/handler/streak_handler.go:172-177 | The year is the query's integer value when it parses, otherwise 0 (the current year) |
| StreakHandlers.YearParamReadsDecimal | internal/handler/streak_handler.go:172-177 | Any in-range year written in decimal is read back unchanged |
| StreakHandlers.FreezeReason | internal/handler/streak_handler.go:79-83 | "No reason provided" exactly when the body does not bind |
| StreakHandlers.StreakHandler.GetStreakInfo | internal/handler/streak_handler.go:32-52 | 401/400 caller guards; 500 for an unknown user, else the streak information |
| StreakHandlers.StreakHandler.FreezeStreak | internal/handler/streak_handler.go:66-92 | The service's refusal is a 400 carrying its message; success freezes the record |
| StreakHandlers.StreakHandler.RecordActivity | internal/handler/streak_handler.go:105-146 | Refused types never reach the service; accepted ones are recorded, and a service failure is a 500 |
| StreakHandlers.StreakHandler.GetActivityCalendar | internal/handler/streak_handler.go:158-186 | The year calendar of YearParam's year (0 meaning the current one), 500 for an unknown user |
| Auth.Scrubbed | internal/usecase/auth_usecase.go:289-291 | The response user has an empty password hash and is otherwise the stored user |
| Auth.NewUser | internal/usecase/auth_usecase.go:87-93 | A registered user has the given name, e-mail and hash, empty settings, no provider and fresh streak fields |
| Auth.NewSocialUser | internal/usecase/auth_usecase.go:129-136 | A social user has the provider link, no password hash and empty settings |
| Auth.Issued | internal/usecase/auth_usecase.go:264-299 | Tokens are issued exactly when signing, refresh generation and saving all succeed, each failure with its own error; the response carries no password hash and expires in 900 seconds |
| Auth.TokensAfter | internal/usecase/auth_usecase.go:277-287 | An issued response adds exactly its refresh token, expiring seven days later, and keeps the others |
| Auth.WithoutUser | internal/usecase/auth_usecase.go:162 | Deleting a user's refresh tokens removes exactly those held by that user |
| Auth.MergedSettings | internal/usecase/auth_usecase.go:323-330 | Given keys overwrite, other stored keys are kept, and no other key appears |
| Auth.MergeSettings | internal/usecase/auth_usecase.go:327-329 | The merge loop computes MergedSettings |
| Auth.Updated | internal/usecase/auth_usecase.go:319-330 | The name changes only when given, settings only by a key-wise merge, nothing else |
| Auth.AuthUsecase.constructor | internal/usecase/auth_usecase.go:74-101 | Empty stores, under a password service whose hashes check |
| Auth.AuthUsecase.FindByEmail | internal/usecase/auth_usecase.go:76-77 | Finds the one stored user with that e-mail exactly when there is one |
| Auth.AuthUsecase.FindByProvider | internal/usecase/auth_usecase.go:123-124 | Finds the one user linked to that provider ID exactly when there is one |
| Auth.AuthUsecase.GenerateAuthResponse | internal/usecase/auth_usecase.go:264-299 | The response is Issued's and the token store becomes TokensAfter; users, resets and mails are untouched |
| Auth.AuthUsecase.Register | internal/usecase/auth_usecase.go:74-101 | A taken e-mail is refused and nothing is stored; otherwise the new user is stored with a hash its password passes, unless hashing or creation fails |
| Auth.AuthUsecase.Login | internal/usecase/auth_usecase.go:103-116 | The same "invalid email or password" error exactly when the e-mail is unknown or the password fails; otherwise that user's tokens |
| Auth.AuthUsecase.SocialAuth | internal/usecase/auth_usecase.go:118-156 | A linked provider ID signs in its user; otherwise an e-mail is required, an existing e-mail account is linked, or a new user is created |
| Auth.AuthUsecase.Logout | internal/usecase/auth_usecase.go:158-163 | With a token only that token is deleted; without one all the user's tokens are |
| Auth.AuthUsecase.RefreshToken | internal/usecase/auth_usecase.go:165-188 | Unknown tokens are invalid; expired ones are deleted and refused; valid ones give a 900-second access token and stay |
| Auth.AuthUsecase.ForgotPassword | internal/usecase/auth_usecase.go:190-224 | Fails only when storing the reset fails; unknown e-mails change nothing; the reset expires an hour later and the mail is sent when the mailer accepts it |
| Auth.AuthUsecase.ResetPassword | internal/usecase/auth_usecase.go:226-262 | A stored reset token (expired or used alike) lets the new password pass, marks the token used and deletes the user's refresh tokens; each failure leaves its own error |
| Auth.AuthUsecase.GetProfile | internal/usecase/auth_usecase.go:302-311 | The stored user without its password hash, or "user not found" |
| Auth.AuthUsecase.UpdateProfile | internal/usecase/auth_usecase.go:313-340 | The stored user becomes Updated; the answer carries no password hash |
| Auth.AuthUsecase.DeleteAccount | internal/usecase/auth_usecase.go:342-348 | All the user's refresh tokens go whatever happens; the user goes unless the delete fails |
| Domain.Percentage | internal/usecase/learning_usecase.go:235 | A finite percentage is 100·num/den; a zero denominator gives +Inf, NaN or -Inf by the numerator's sign |
| Speaking.SpokenText | internal/service/speaking_service.go:56-63 | At most 100 bytes, the whole trimmed reply when shorter, and always a prefix of it |
| Speaking.ShortReplySpokenWhole | internal/service/speaking_service.go:61-63 | A trimmed reply of at most 100 bytes is spoken unchanged |
| Speaking.SpokenTextOfReply | internal/service/speaking_service.go:56-66 | What reaches speech synthesis is non-empty, at most 100 bytes, starts the trimmed reply and occurs in the reply |
| Speaking.ProcessAudioFeedback | internal/service/speaking_service.go:35-72 | Each stage's failure ends the turn with that stage's error; an empty transcript or an empty trimmed reply has its own error; success is exactly the synthesised audio |
| Speaking.NoTranscriptNoLlm | internal/service/speaking_service.go:38-45 | Without a transcript the language model and speech synthesis play no part in the result |
| Speaking.EmptyReplyNoTts | internal/service/speaking_service.go:56-59 | An all-space reply is refused and speech synthesis plays no part |
| Conversation.Step | internal/handler/speaking_handler.go:96-165 | Binary frames only grow the buffer; ignored text changes nothing; a read error and a closed reader end the session with their own reason and change nothing; a turn writes the status first, then at most one reply, and empties the buffer unless the session ends |
| Conversation.Run | internal/handler/speaking_handler.go:96-165 | The frames written only grow, by at most two per event while the session stays open |
| Conversation.StepKeepsFrameOrder | internal/handler/speaking_handler.go:137-161 | One event keeps every reply directly after a status frame, and writes the end message only when ending on the time limit |
| Conversation.RunKeepsFrameOrder | internal/handler/speaking_handler.go:100-161 | Over a session every reply follows a status frame, and the end message is written only as the last frame of a time-limited session |
| Conversation.HandleConversation | internal/handler/speaking_handler.go:96-165 | The loop computes Run; its replies follow status frames; it ends on the time limit exactly when the end message is its last frame |
| Whisper.Classify | internal/client/whisper_client.go:52-108 | A 503 is retried (with a sleep exactly when the model reports loading); a 200 answers its parsed text, even empty; 401/402/403/429 are ServiceAuth; other statuses are unexpected; transport errors end the call |
| Whisper.TranscribeFrom | internal/client/whisper_client.go:52-114 | At most three attempts, at least one, and a sleep follows only a retried attempt |
| Whisper.Transcribe | internal/client/whisper_client.go:52-114 | The counted loop computes TranscribeFrom from attempt 0 with one to three requests |
| Whisper.ModelNotLoadedFrom | internal/client/whisper_client.go:96-114 | From any attempt, ModelNotLoaded is the result exactly when every remaining answer is a 503 |
| Whisper.ModelNotLoadedIffAllUnavailable | internal/client/whisper_client.go:52-114 | ModelNotLoaded means three 503 answers in a row, and then all three requests were made |
| Whisper.AttemptsWhenAllUnavailable | internal/client/whisper_client.go:96-103 | Answers that are all 503 use up every remaining attempt |
| Whisper.FirstAnswerDecides | internal/client/whisper_client.go:52-108 | The first answer that is not a 503 decides the result, and no request follows it |
| GrammarCheck.GrammarPrompt | internal/service/grammer_check_ai_service.go:52-68 | The prompt starts with the instructions and carries the user's text verbatim |
| GrammarCheck.CleanJSONTrimmed | internal/service/grammer_check_ai_service.go:40-46 | The cleaned text has no leading or trailing whitespace |
| GrammarCheck.CleanJSONWithin | internal/service/grammer_check_ai_service.go:40-46 | The cleaned text is a contiguous piece of the input and never longer |
| GrammarCheck.CleanJSONUnfences | internal/service/grammer_check_ai_service.go:41-45 | A "```json" … "```" block whose content does not start with a fence comes back as its trimmed content |
| GrammarCheck.CleanJSONKeepsUnfenced | internal/service/grammer_check_ai_service.go:41-45 | Text that neither starts nor ends with a fence once trimmed comes back trimmed and otherwise unchanged |
| GrammarCheck.CheckGrammar | internal/service/grammer_check_ai_service.go:49-100 | A generation error, a missing part and a non-text part each have their own error; a decoding failure reports the decoder's error and the cleaned text; the result is the decoding of the cleaned text and succeeds exactly when it decodes |
| GenAi.FirstPart | internal/service/grammer_check_ai_service.go:79-81 | There is no first part exactly when there is no candidate or the first has no part |
| EmailDraft.EmailPrompt | internal/service/ai_email_draft.go:50-84 | A prompt exists exactly for GENERATE and EDIT in any letter case, and it ends with the user's text |
| EmailDraft.PromptEmbedsRequest | internal/service/ai_email_draft.go:52-80 | Both prompts embed the tone, the template type and the user's text verbatim, in that order |
| EmailDraft.NoEscapedNewlineLeft | internal/service/ai_email_draft.go:107 | After replacement no backslash-n sequence is left in the body |
| EmailDraft.BodyWithoutEscapesUnchanged | internal/service/ai_email_draft.go:107 | A body without backslash-n sequences is returned as it was |
| EmailDraft.ProcessEmail | internal/service/ai_email_draft.go:48-115 | An unknown type is refused before generation; generation errors and empty answers fail; a first part that is not text panics at the type assertion, and only then; a decoding failure reports the decoder's error and the cleaned text; success returns the decoded subject unchanged and the body with escapes turned into newlines |
| Middleware.Authenticate | internal/middleware/auth_middleware.go:13-52 | Empty headers, headers without the case-sensitive "Bearer " prefix, invalid tokens and tokens without claims get 401 with their own message; otherwise the hex user ID is stored |
| Middleware.BearerTokenChecked | internal/middleware/auth_middleware.go:30-46 | The token validated for "Bearer " + t is exactly t |
| Middleware.LowerCaseSchemeRefused | internal/middleware/auth_middleware.go:23-27 | A lower-case "bearer " scheme is refused as a malformed header |
| Middleware.GetUserIdFromContext | internal/middleware/auth_middleware.go:54-71 | The ID and true exactly for a string holding 24 hex digits, whose lower-case form the ID's hex is; otherwise the nil ID and false |
| Middleware.StoredIdReadBack | internal/middleware/auth_middleware.go:49-70 | The ID the middleware stores is read back unchanged by GetUserIDFromContext and by the handlers' own guard |
| Http.CallerId | internal/handler/streak_handler.go:33-43 | 401 without a user ID, 400 for one that is not ObjectID hex, otherwise the ID it spells |
| Http.CallerOfStoredId | internal/handler/learning_handler.go:39-49 | The hex of an ID passes the handlers' guard as that same ID |
| ObjectIds.HexRoundTrip | internal/middleware/auth_middleware.go:49-70 | Parsing an ObjectID's hex gives the same ID back |
| ObjectIds.FromHexCanonical | internal/middleware/auth_middleware.go:65-70 | A parsed ID's hex is the lower-case form of the text it was parsed from |
| GoStrings.TrimSpace | internal/service/grammer_check_ai_service.go:41-45 | The trimmed text has no outer whitespace and occurs in the input |
| GoStrings.TrimPrefix | internal/middleware/auth_middleware.go:30 | With the prefix present, prefix + result is the input; otherwise the input is returned unchanged |
| GoStrings.Atoi | internal/handler/streak_handler.go:174 | A parsed value is within the 64-bit range and comes from text starting with a digit or sign |
| GoStrings.AtoiItoa | internal/handler/streak_handler.go:174 | Every 64-bit integer written in decimal parses back to itself |

## Left out

- `AddPushToken` (internal/usecase/auth_usecase.go:350-357) only forwards to the repository and has no logic of its own.
- Store failures that the code only passes on are not modelled: a failed read is treated as "not found". The modelled failures are the ones whose outcome the code branches on, each a parameter: inserts, updates, saves, the calendar write, the mailer, the expiry job's query and its per-user decode and update.
- Streaks.StreakService.RecordActivity: the activity insert and the day count do not fail in the model; the source returns those store errors (internal/service/streak_service.go:36-58).
- Streaks.StreakService.UpdateStreak: requires that the user was active on the day, the invariant under which RecordActivity calls it; the source's helper has no caller that breaks it.
- The local-versus-UTC date construction (internal/service/streak_service.go:33) and all time zones: dates are UTC day numbers.
- Floating point: quiz and progress percentages are exact rationals, so rounding in `float64` is not modelled (only the infinities and NaN of division by zero are).
- Unicode: TrimSpace trims ASCII whitespace only, and upper- and lower-casing is ASCII only; Go also trims Unicode spaces and maps non-ASCII letters.
- The distinction between a nil and an empty settings map (internal/usecase/auth_usecase.go:324-326) is not observable in the model; both are the empty map.
- JWT signing and validation, bcrypt, UUIDs, the AI providers, speech synthesis and JSON encoding and decoding are function parameters whose own behaviour is not modelled.
- The websocket upgrade, the reader goroutine and its channels, write deadlines and the 3-minute context of the voice endpoint: the loop sees them as the events and per-turn outcomes it receives.
- Conversation.Step: whether the end message's write succeeds is not modelled; the source ignores that write's error.
- Speaking.ProcessAudioFeedback: cancellation of the context inside the providers is part of their result, not modelled separately.
- Whisper.Transcribe: the sleep duration taken from the model's estimated time is left out; only whether a sleep happens is counted.
- The empty-prompt guard of internal/usecase/email_draft_usecase.go:26-28 and the thin handlers (pronunciation, grammar, e-mail draft, auth) only delegate.
- The chat endpoint, the background jobs' tickers (internal/jobs/streak_jobs.go), SMTP, the seeding script and the server wiring are not part of this model.
- ActivityCalendar.ActivityCalendarService.GetActivityCalendarRange: requires the start date to lie in the response's year, the value the source takes from the start date; its weeks are proved to cover the range only when the end is midnight-aligned with the start.
- Logging is left out.
- EmailDraft.ProcessEmail: the panic is an outcome of its own carrying the offending part; the runtime's panic message and the recovery by the HTTP server are not modelled.

## Findings

| source | as written | input that shows it | evidently intended | confidence | as-written member | corrected member |
|---|---|---|---|---|---|---|
| internal/service/activity_calendar_service.go:171-174 | The year calendar closes a week on a Sunday or when the day equals `endDate - 24h`. `endDate` is 31 December 23:59:59, so this instant is 30 December 23:59:59, which no visited midnight equals. The trailing partial week is never appended to `Weeks`. | Year 2025: 31 December 2025 is a Wednesday, so 29-31 December appear in no week, although TotalDays counts them | Close the last week on 31 December, as the range calendar does at its end date, so the weeks hold every day of the year | not executed | ActivityCalendar.ActivityCalendarService.GetActivityCalendar, CalendarSpec.YearCalendar2025DropsLastDays | ActivityCalendar.ActivityCalendarService.GetActivityCalendarClosingLastWeek, CalendarSpec.ClosingLastDayCoversAll |

The streak handler's calendar endpoint is modelled on the code as written.
