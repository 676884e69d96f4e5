/**
 * The event loop of the voice conversation (internal/handler/speaking_handler.go,
 * HandleConversation's `for`/`select`): audio frames are buffered, an
 * end-of-speech control message runs one turn synchronously, and the session ends
 * on the deadline, a read error, a closed reader or a failed write. What the select
 * picks is the input sequence of events; what happens on the socket during a turn
 * (whether each write succeeds, whether the deadline has passed when a turn fails)
 * travels with the end-of-speech event.
 */
module Conversation {
  import opened Common
  import Speaking

  const EndOfSpeech := "end_of_speech"

  /** What the socket and the clock did during one turn. */
  datatype TurnIo = TurnIo(statusWritten: bool, deadlinePassed: bool, audioWritten: bool)

  /** What the loop's select received. */
  datatype Event =
    | Deadline                               // ctx.Done()
    | ReadError                              // a value on errChan
    | ReaderClosed                           // msgChan closed
    | Binary(payload: seq<Byte>)             // a binary websocket message
    | Text(message: string, io: TurnIo)      // a text websocket message

  /** The frames the server writes. */
  datatype Frame =
    | Processing               // {"status":"processing"}
    | Reply(audio: seq<Byte>)  // the spoken answer, as a binary message
    | EndMessage               // {"type":"end","reason":"3_minute_limit"}
  {
    function Json(): string
      requires !Reply?
    {
      if Processing? then "{\"status\":\"processing\"}"
      else "{\"type\":\"end\",\"reason\":\"3_minute_limit\"}"
    }
  }

  /** Why the handler returned. */
  datatype End = TimeLimit | ReadFailed | ChannelClosed | StatusWriteFailed | CancelledTurn | ReplyWriteFailed

  /** The loop's state: the audio buffer and the frames written so far. */
  datatype Session = Session(buffer: seq<Byte>, sent: seq<Frame>)

  /** The state after an event, and the reason the loop ended if it did. */
  datatype Next = Next(s: Session, end: Option<End>)

  /** `controlType` is the `type` field of a text message decoded as a ControlMessage,
      None when it does not decode; `process` is the speaking service's turn. */
  function Step(s: Session, e: Event, controlType: string -> Option<string>,
                process: seq<Byte> -> Result<seq<Byte>, Speaking.TurnError>): (n: Next)
    ensures e.Binary? ==> n == Next(Session(s.buffer + e.payload, s.sent), None)
    ensures e.Text? && (controlType(e.message) != Some(EndOfSpeech) || s.buffer == []) ==> n == Next(s, None)
    ensures e.Deadline? ==> n == Next(Session(s.buffer, s.sent + [EndMessage]), Some(TimeLimit))
    ensures e.ReadError? ==> n == Next(s, Some(ReadFailed))
    ensures e.ReaderClosed? ==> n == Next(s, Some(ChannelClosed))
    ensures e.Text? && controlType(e.message) == Some(EndOfSpeech) && s.buffer != [] ==>
      if !e.io.statusWritten then n == Next(s, Some(StatusWriteFailed))
      else
        && |n.s.sent| > |s.sent|
        && n.s.sent[..|s.sent| + 1] == s.sent + [Processing]
        && (process(s.buffer).Err? ==>
              n == if e.io.deadlinePassed then Next(Session(s.buffer, s.sent + [Processing]), Some(CancelledTurn))
                   else Next(Session([], s.sent + [Processing]), None))
        && (process(s.buffer).Ok? ==>
              n == if e.io.audioWritten then Next(Session([], s.sent + [Processing, Reply(process(s.buffer).value)]), None)
                   else Next(Session(s.buffer, s.sent + [Processing]), Some(ReplyWriteFailed)))
    ensures |s.sent| <= |n.s.sent| && n.s.sent[..|s.sent|] == s.sent
  {
    match e
    case Deadline => Next(Session(s.buffer, s.sent + [EndMessage]), Some(TimeLimit))
    case ReadError => Next(s, Some(ReadFailed))
    case ReaderClosed => Next(s, Some(ChannelClosed))
    case Binary(payload) => Next(Session(s.buffer + payload, s.sent), None)
    case Text(message, io) =>
      if controlType(message) != Some(EndOfSpeech) || s.buffer == [] then Next(s, None)
      else if !io.statusWritten then Next(s, Some(StatusWriteFailed))
      else
        var sent := s.sent + [Processing];
        assert sent[..|s.sent| + 1] == s.sent + [Processing];
        match process(s.buffer)
        case Err(_) =>
          if io.deadlinePassed then Next(Session(s.buffer, sent), Some(CancelledTurn))
          else Next(Session([], sent), None)
        case Ok(audio) =>
          if io.audioWritten then
            assert (sent + [Reply(audio)])[..|s.sent| + 1] == sent;
            Next(Session([], sent + [Reply(audio)]), None)
          else Next(Session(s.buffer, sent), Some(ReplyWriteFailed))
  }

  /** The loop over a sequence of events, stopping at the first one that ends it; a
      None end means the events ran out with the session still open. */
  function Run(s: Session, events: seq<Event>, controlType: string -> Option<string>,
               process: seq<Byte> -> Result<seq<Byte>, Speaking.TurnError>): (n: Next)
    ensures |s.sent| <= |n.s.sent| && n.s.sent[..|s.sent|] == s.sent
    ensures n.end.None? ==> |n.s.sent| <= |s.sent| + 2 * |events|
    decreases |events|
  {
    if events == [] then Next(s, None)
    else
      var n := Step(s, events[0], controlType, process);
      if n.end.Some? then n
      else
        var m := Run(n.s, events[1..], controlType, process);
        assert m.s.sent[..|s.sent|] == m.s.sent[..|n.s.sent|][..|s.sent|];
        m
  }

  /** Every reply directly follows a processing status. */
  predicate RepliesFollowStatus(sent: seq<Frame>)
  {
    forall k :: 0 <= k < |sent| && sent[k].Reply? ==> 0 < k && sent[k - 1] == Processing
  }

  predicate NoEndMessage(sent: seq<Frame>)
  {
    forall k :: 0 <= k < |sent| ==> sent[k] != EndMessage
  }

  /** One event keeps replies behind their status, and writes the end message only
      when it ends the session on the time limit. */
  lemma StepKeepsFrameOrder(s: Session, e: Event, controlType: string -> Option<string>,
                            process: seq<Byte> -> Result<seq<Byte>, Speaking.TurnError>)
    requires RepliesFollowStatus(s.sent) && NoEndMessage(s.sent)
    ensures var n := Step(s, e, controlType, process);
      && RepliesFollowStatus(n.s.sent)
      && (n.end != Some(TimeLimit) ==> NoEndMessage(n.s.sent))
      && (n.end == Some(TimeLimit) ==> n.s.sent == s.sent + [EndMessage])
  {
    var n := Step(s, e, controlType, process);
    if e.Text? && controlType(e.message) == Some(EndOfSpeech) && s.buffer != [] && e.io.statusWritten {
      var sent := n.s.sent;
      forall k | 0 <= k < |sent| && sent[k].Reply?
        ensures 0 < k && sent[k - 1] == Processing
      {
        if k < |s.sent| {
          assert sent[k] == s.sent[k] && sent[k - 1] == s.sent[k - 1];
        }
      }
    }
  }

  /** Over a whole session every reply directly follows a processing status, and the
      end message is written exactly when the time limit ends the session, as the
      last frame. */
  lemma {:induction false} RunKeepsFrameOrder(s: Session, events: seq<Event>, controlType: string -> Option<string>,
                                              process: seq<Byte> -> Result<seq<Byte>, Speaking.TurnError>)
    requires RepliesFollowStatus(s.sent) && NoEndMessage(s.sent)
    ensures var n := Run(s, events, controlType, process);
      && RepliesFollowStatus(n.s.sent)
      && (n.end != Some(TimeLimit) ==> NoEndMessage(n.s.sent))
      && (n.end == Some(TimeLimit) ==>
            |n.s.sent| > 0 && n.s.sent[|n.s.sent| - 1] == EndMessage && NoEndMessage(n.s.sent[..|n.s.sent| - 1]))
    decreases |events|
  {
    if events != [] {
      var n := Step(s, events[0], controlType, process);
      StepKeepsFrameOrder(s, events[0], controlType, process);
      if n.end.None? {
        RunKeepsFrameOrder(n.s, events[1..], controlType, process);
      } else if n.end == Some(TimeLimit) {
        assert n.s.sent[..|n.s.sent| - 1] == s.sent;
      }
    }
  }

  /** HandleConversation's loop, over the events it receives. */
  method HandleConversation(events: seq<Event>, controlType: string -> Option<string>,
                            process: seq<Byte> -> Result<seq<Byte>, Speaking.TurnError>)
    returns (sent: seq<Frame>, end: Option<End>)
    ensures var n := Run(Session([], []), events, controlType, process);
      sent == n.s.sent && end == n.end
    ensures RepliesFollowStatus(sent)
    ensures end == Some(TimeLimit) <==> sent != [] && sent[|sent| - 1] == EndMessage
  {
    RunKeepsFrameOrder(Session([], []), events, controlType, process);
    var buffer: seq<Byte> := [];
    sent := [];
    var i := 0;
    while i < |events|
      invariant 0 <= i <= |events|
      invariant Run(Session([], []), events, controlType, process) == Run(Session(buffer, sent), events[i..], controlType, process)
    {
      assert events[i..][1..] == events[i + 1..];
      match events[i] {
      case Deadline =>
        sent := sent + [EndMessage];
        end := Some(TimeLimit);
        return;
      case ReadError =>
        end := Some(ReadFailed);
        return;
      case ReaderClosed =>
        end := Some(ChannelClosed);
        return;
      case Binary(payload) =>
        buffer := buffer + payload;
      case Text(message, io) =>
        if controlType(message) == Some(EndOfSpeech) {
          if buffer != [] {
            if !io.statusWritten {
              end := Some(StatusWriteFailed);
              return;
            }
            sent := sent + [Processing];
            var result := process(buffer);
            if result.Err? {
              if io.deadlinePassed {
                end := Some(CancelledTurn);
                return;
              }
              buffer := [];
            } else {
              if !io.audioWritten {
                end := Some(ReplyWriteFailed);
                return;
              }
              sent := sent + [Reply(result.value)];
              buffer := [];
            }
          }
        }
      }
      i := i + 1;
    }
    end := None;
  }
}
