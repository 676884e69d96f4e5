/**
 * One conversational turn (internal/service/speaking_service.go): speech to text, a
 * reply from the language model, and the reply's first 100 bytes spoken back. The
 * three providers are function parameters; `stt` fails with the transcription
 * client's own errors.
 */
module Speaking {
  import opened Common
  import opened GoStrings
  import Whisper

  /** The longest text sent to speech synthesis, in bytes. */
  const MaxSpokenBytes := 100

  /** Why a turn failed; STT, LLM and TTS failures wrap their cause. */
  datatype TurnError =
    | SttError(cause: Whisper.Error)
    | NoSpeech
    | LlmError(llmCause: string)
    | EmptyReply
    | TtsError(ttsCause: string)
  {
    function Message(): string
    {
      match this
      case SttError(cause) => "STT error: " + cause.Message()
      case NoSpeech => "no speech detected in audio"
      case LlmError(c) => "LLM error: " + c
      case EmptyReply => "LLM generated an empty response"
      case TtsError(c) => "TTS error: " + c
    }
  }

  /** The text handed to speech synthesis: the trimmed reply, cut to its first 100
      bytes (a cut that may split a multi-byte character). */
  function SpokenText(reply: string): (t: string)
    ensures |t| <= MaxSpokenBytes
    ensures |t| == if |TrimSpace(reply)| < MaxSpokenBytes then |TrimSpace(reply)| else MaxSpokenBytes
    ensures t == TrimSpace(reply)[..|t|]
  {
    var cleaned := TrimSpace(reply);
    if |cleaned| > MaxSpokenBytes then cleaned[..MaxSpokenBytes] else cleaned
  }

  /** A reply that is already short and trimmed is spoken as it is. */
  lemma ShortReplySpokenWhole(reply: string)
    requires |reply| <= MaxSpokenBytes
    requires reply == [] || (!IsSpace(reply[0]) && !IsSpace(reply[|reply| - 1]))
    ensures SpokenText(reply) == reply
  {
    TrimSpaceOfTrimmed(reply);
  }

  /** ProcessAudioFeedback: each stage's failure ends the turn with that stage's
      error; an empty transcription or an empty trimmed reply is an error of its own;
      on success the result is exactly the synthesised audio. */
  function ProcessAudioFeedback(audio: seq<Byte>, stt: seq<Byte> -> Result<string, Whisper.Error>,
                                llm: string -> Result<string, string>,
                                tts: string -> Result<seq<Byte>, string>)
    : (r: Result<seq<Byte>, TurnError>)
    ensures stt(audio).Err? ==> r == Err(SttError(stt(audio).error))
    ensures stt(audio) == Ok("") ==> r == Err(NoSpeech)
    ensures stt(audio).Ok? && stt(audio).value != "" ==>
      var reply := llm(stt(audio).value);
      && (reply.Err? ==> r == Err(LlmError(reply.error)))
      && (reply.Ok? && TrimSpace(reply.value) == "" ==> r == Err(EmptyReply))
      && (reply.Ok? && TrimSpace(reply.value) != "" ==>
            var spoken := tts(SpokenText(reply.value));
            && (spoken.Err? ==> r == Err(TtsError(spoken.error)))
            && (spoken.Ok? ==> r == Ok(spoken.value)))
  {
    match stt(audio)
    case Err(e) => Err(SttError(e))
    case Ok(text) =>
      if text == "" then Err(NoSpeech)
      else
        match llm(text)
        case Err(e) => Err(LlmError(e))
        case Ok(reply) =>
          if |TrimSpace(reply)| == 0 then Err(EmptyReply)
          else
            match tts(SpokenText(reply))
            case Err(e) => Err(TtsError(e))
            case Ok(speech) => Ok(speech)
  }

  /** Without a transcription neither the language model nor speech synthesis is
      consulted: any two of them give the same turn. */
  lemma NoTranscriptNoLlm(audio: seq<Byte>, stt: seq<Byte> -> Result<string, Whisper.Error>,
                          llm1: string -> Result<string, string>, tts1: string -> Result<seq<Byte>, string>,
                          llm2: string -> Result<string, string>, tts2: string -> Result<seq<Byte>, string>)
    requires stt(audio).Err? || stt(audio) == Ok("")
    ensures ProcessAudioFeedback(audio, stt, llm1, tts1) == ProcessAudioFeedback(audio, stt, llm2, tts2)
    ensures ProcessAudioFeedback(audio, stt, llm1, tts1).Err?
  {
  }

  /** An empty (or all-space) reply is never sent to speech synthesis. */
  lemma EmptyReplyNoTts(audio: seq<Byte>, stt: seq<Byte> -> Result<string, Whisper.Error>,
                        llm: string -> Result<string, string>,
                        tts1: string -> Result<seq<Byte>, string>, tts2: string -> Result<seq<Byte>, string>)
    requires stt(audio).Ok? && stt(audio).value != ""
    requires llm(stt(audio).value).Ok? && TrimSpace(llm(stt(audio).value).value) == ""
    ensures ProcessAudioFeedback(audio, stt, llm, tts1) == ProcessAudioFeedback(audio, stt, llm, tts2) == Err(EmptyReply)
  {
  }

  /** Whatever is sent to speech synthesis is a non-empty piece of at most 100 bytes
      from the start of the trimmed reply. */
  lemma SpokenTextOfReply(reply: string)
    requires TrimSpace(reply) != ""
    ensures 0 < |SpokenText(reply)| <= MaxSpokenBytes
    ensures HasPrefix(TrimSpace(reply), SpokenText(reply))
    ensures exists i :: OccursAt(reply, SpokenText(reply), i)
  {
    var t := SpokenText(reply);
    var i := TrimSpaceOccurs(reply);
    assert OccursAt(TrimSpace(reply), t, 0);
    OccursWithin(reply, TrimSpace(reply), t, i, 0);
  }
}
