/**
 * The speech-to-text client (internal/client/whisper_client.go): up to three requests,
 * each answer classified by its HTTP status. A 503 answer is retried (after a sleep
 * when the model reports that it is loading); every other outcome ends the call.
 * The HTTP exchange is the oracle `respond`, giving what the i-th attempt produced,
 * and the JSON decoding of a body is the pair of functions `parseText`/`parseError`.
 */
module Whisper {
  import opened Common
  import opened GoStrings
  import Http

  const MaxAttempts := 3

  const StatusPaymentRequired := 402
  const StatusTooManyRequests := 429
  const StatusServiceUnavailable := 503

  /** The client's errors: the three sentinel values and the causes it wraps. */
  datatype Error =
    | ServiceAuth
    | ModelNotLoaded
    | UnexpectedTranscription
    | RequestFailed(cause: string)
    | CallFailed(cause: string)
    | ReadFailed(cause: string)
    | ParseFailed(cause: string)
  {
    /** The error's text, as `Error()` reports it. */
    function Message(): string
    {
      match this
      case ServiceAuth => "authentication or payment error with the transcription service"
      case ModelNotLoaded => "model did not load in time after multiple retries"
      case UnexpectedTranscription => "an unexpected error occurred with the transcription service"
      case RequestFailed(cause) => "failed to create whisper request: " + cause
      case CallFailed(cause) => "failed to call whisper api: " + cause
      case ReadFailed(cause) => "failed to read whisper response body: " + cause
      case ParseFailed(cause) => "failed to parse successful whisper response: " + cause
    }
  }

  /** What one attempt produced: the request could not be built, not be sent, its
      body not be read, or an answer with a status code and a body. */
  datatype Response =
    | NotBuilt(err: string)
    | NotSent(err: string)
    | Unreadable(err: string)
    | Answered(status: int, body: string)

  /** An attempt either ends the call with a result or lets the loop go on, with or
      without a sleep first. */
  datatype Outcome = Done(r: Result<string, Error>) | Retry(sleep: bool)

  /** The result of a whole call and how many attempts and sleeps it took. */
  datatype Transcription = Transcription(result: Result<string, Error>, attempts: nat, sleeps: nat)

  /** The statuses reported as an authentication or payment problem. */
  predicate IsAuthStatus(status: int)
  {
    status == Http.StatusUnauthorized || status == Http.StatusForbidden ||
    status == StatusPaymentRequired || status == StatusTooManyRequests
  }

  predicate Unavailable(resp: Response)
  {
    resp.Answered? && resp.status == StatusServiceUnavailable
  }

  /** The error body decodes and its message mentions "loading" in any case. */
  predicate Loading(body: string, parseError: string -> Option<string>)
  {
    parseError(body).Some? && Contains(ToLower(parseError(body).value), "loading")
  }

  /** One pass of the loop body. */
  function Classify(resp: Response, parseText: string -> Result<string, string>,
                    parseError: string -> Option<string>): (o: Outcome)
    ensures o.Retry? <==> Unavailable(resp)
    ensures o.Retry? ==> (o.sleep <==> Loading(resp.body, parseError))
    ensures (o.Done? && o.r.Ok?) <==> (resp.Answered? && resp.status == Http.StatusOK && parseText(resp.body).Ok?)
    ensures o.Done? && o.r.Ok? ==> o.r.value == parseText(resp.body).value
    ensures resp.Answered? && IsAuthStatus(resp.status) ==> o == Done(Err(ServiceAuth))
    ensures resp.Answered? && resp.status != Http.StatusOK && !IsAuthStatus(resp.status) && !Unavailable(resp) ==>
              o == Done(Err(UnexpectedTranscription))
    ensures o.Done? ==> o.r != Err(ModelNotLoaded)
  {
    match resp
    case NotBuilt(e) =>
      Done(Err(RequestFailed(e)))
    case NotSent(e) =>
      Done(Err(CallFailed(e)))
    case Unreadable(e) =>
      Done(Err(ReadFailed(e)))
    case Answered(status, body) =>
      if status == Http.StatusOK then
        match parseText(body)
        case Ok(text) => Done(Ok(text))
        case Err(e) =>
              Done(Err(ParseFailed(e)))
      else if IsAuthStatus(status) then Done(Err(ServiceAuth))
      else if status == StatusServiceUnavailable then Retry(Loading(body, parseError))
      else Done(Err(UnexpectedTranscription))
  }

  /** The call from attempt `i` on: the first attempt that is done decides, and running
      out of attempts is ModelNotLoaded. */
  function TranscribeFrom(respond: nat -> Response, i: nat, parseText: string -> Result<string, string>,
                          parseError: string -> Option<string>): (t: Transcription)
    requires i <= MaxAttempts
    ensures t.attempts <= MaxAttempts - i
    ensures i < MaxAttempts ==> 1 <= t.attempts
    ensures t.sleeps <= t.attempts
    ensures t.result != Err(ModelNotLoaded) ==> t.sleeps < t.attempts
    decreases MaxAttempts - i
  {
    if i == MaxAttempts then Transcription(Err(ModelNotLoaded), 0, 0)
    else
      match Classify(respond(i), parseText, parseError)
      case Done(r) => Transcription(r, 1, 0)
      case Retry(sleep) =>
        var rest := TranscribeFrom(respond, i + 1, parseText, parseError);
        Transcription(rest.result, rest.attempts + 1, rest.sleeps + if sleep then 1 else 0)
  }

  /** WhisperClient.Transcribe: the counted loop with its early returns. */
  method Transcribe(respond: nat -> Response, parseText: string -> Result<string, string>,
                    parseError: string -> Option<string>)
    returns (result: Result<string, Error>, attempts: nat, sleeps: nat)
    ensures Transcription(result, attempts, sleeps) == TranscribeFrom(respond, 0, parseText, parseError)
    ensures 1 <= attempts <= MaxAttempts
  {
    attempts, sleeps := 0, 0;
    for i := 0 to MaxAttempts
      invariant attempts == i
      invariant var t := TranscribeFrom(respond, i, parseText, parseError);
        TranscribeFrom(respond, 0, parseText, parseError) == Transcription(t.result, attempts + t.attempts, sleeps + t.sleeps)
    {
      attempts := attempts + 1;
      match respond(i)
      case NotBuilt(e) =>
        result := Err(RequestFailed(e));
        return;
      case NotSent(e) =>
        result := Err(CallFailed(e));
        return;
      case Unreadable(e) =>
        result := Err(ReadFailed(e));
        return;
      case Answered(status, body) =>
        if status == Http.StatusOK {
          match parseText(body) {
            case Ok(text) => result := Ok(text);
            case Err(e) => result := Err(ParseFailed(e));
          }
          return;
        } else if IsAuthStatus(status) {
          result := Err(ServiceAuth);
          return;
        } else if status == StatusServiceUnavailable {
          // A loading model is waited for; any other 503 leaves the switch and the
          // loop goes round again without a sleep.
          var rest := TranscribeFrom(respond, i + 1, parseText, parseError);
          assert Classify(respond(i), parseText, parseError) == Retry(Loading(body, parseError));
          assert TranscribeFrom(respond, i, parseText, parseError) ==
            Transcription(rest.result, rest.attempts + 1, rest.sleeps + if Loading(body, parseError) then 1 else 0);
          if Loading(body, parseError) {
            sleeps := sleeps + 1;
          }
        } else {
          result := Err(UnexpectedTranscription);
          return;
        }
    }
    result := Err(ModelNotLoaded);
  }

  /** The call fails with ModelNotLoaded exactly when every attempt from `i` on was
      answered with 503. */
  lemma {:induction false} ModelNotLoadedFrom(respond: nat -> Response, i: nat,
                                              parseText: string -> Result<string, string>,
                                              parseError: string -> Option<string>)
    requires i <= MaxAttempts
    ensures TranscribeFrom(respond, i, parseText, parseError).result == Err(ModelNotLoaded) <==>
            forall k :: i <= k < MaxAttempts ==> Unavailable(respond(k))
    decreases MaxAttempts - i
  {
    if i < MaxAttempts {
      ModelNotLoadedFrom(respond, i + 1, parseText, parseError);
    }
  }

  /** ModelNotLoaded means three 503 answers in a row, and nothing else. */
  lemma ModelNotLoadedIffAllUnavailable(respond: nat -> Response, parseText: string -> Result<string, string>,
                                        parseError: string -> Option<string>)
    ensures TranscribeFrom(respond, 0, parseText, parseError).result == Err(ModelNotLoaded) <==>
            forall k :: 0 <= k < MaxAttempts ==> Unavailable(respond(k))
    ensures TranscribeFrom(respond, 0, parseText, parseError).result == Err(ModelNotLoaded) ==>
            TranscribeFrom(respond, 0, parseText, parseError).attempts == MaxAttempts
  {
    ModelNotLoadedFrom(respond, 0, parseText, parseError);
    if TranscribeFrom(respond, 0, parseText, parseError).result == Err(ModelNotLoaded) {
      AttemptsWhenAllUnavailable(respond, 0, parseText, parseError);
    }
  }

  lemma {:induction false} AttemptsWhenAllUnavailable(respond: nat -> Response, i: nat,
                                                      parseText: string -> Result<string, string>,
                                                      parseError: string -> Option<string>)
    requires i <= MaxAttempts
    requires forall k :: i <= k < MaxAttempts ==> Unavailable(respond(k))
    ensures TranscribeFrom(respond, i, parseText, parseError).attempts == MaxAttempts - i
    decreases MaxAttempts - i
  {
    if i < MaxAttempts {
      assert Unavailable(respond(i));
      AttemptsWhenAllUnavailable(respond, i + 1, parseText, parseError);
    }
  }

  /** The first attempt not answered with 503 decides the call, and no request follows
      it: a 200 gives its text (even an empty one), an authentication status gives
      ServiceAuth without retry, and so on as Classify says. */
  lemma {:induction false} FirstAnswerDecides(respond: nat -> Response, i: nat, k: nat,
                                              parseText: string -> Result<string, string>,
                                              parseError: string -> Option<string>)
    requires i <= k < MaxAttempts
    requires forall j :: i <= j < k ==> Unavailable(respond(j))
    requires !Unavailable(respond(k))
    ensures TranscribeFrom(respond, i, parseText, parseError).result == Classify(respond(k), parseText, parseError).r
    ensures TranscribeFrom(respond, i, parseText, parseError).attempts == k + 1 - i
    decreases k - i
  {
    if i < k {
      assert Unavailable(respond(i));
      FirstAnswerDecides(respond, i + 1, k, parseText, parseError);
    }
  }
}
