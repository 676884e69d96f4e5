/**
 * The email drafting service (internal/service/ai_email_draft.go): the request type
 * chooses one of two prompts, the model's text is cleaned like the grammar checker's,
 * decoded, and the body's escaped line breaks are restored. The model call and JSON
 * decoding are function parameters.
 */
module EmailDraft {
  import opened Common
  import opened GoStrings
  import opened GenAi
  import GrammarCheck

  const GenerateFailed := "failed to generate content: "
  const EmptyResponse := "AI returned an empty response"
  const ParseFailed := "failed to parse AI response: "
  const RawOutput := "\nRaw output from AI: "
  /** How ProcessEmail ends: it returns a response or an error, or it panics at the
      single-value type assertion of a first part that is not text, with that part. */
  datatype Outcome = Returns(result: Result<EmailResponse, string>) | Panics(part: Part)

  /** A backslash followed by `n`, as the model writes a line break inside JSON text. */
  const EscapedNewline := "\\n"

  const GeneratePrompt1 := "\nYou are an expert email writing assistant for Ethiopian professionals who may use English as a second language.\nYour task is to generate a new, complete, professional email based on the user's request.\nThe user's request might be in English or Amharic; handle both appropriately.\nThe final email must be in English.\n\nConsider the following if there exist:\n- Tone: "
  const EditPrompt1 := "\nYou are an expert English communication coach for Ethiopian professionals.\nYour task is to correct and improve an existing email draft to make it more professional.\nFix all grammatical errors, improve the tone, and enhance clarity.\nThe final, improved email must be in English.\n\nConsider the following if there exist:\n- Tone: "
  const Prompt2 := "\n- Template Type: "
  const Prompt3 := "\n\nRespond ONLY with a single, minified JSON object. The JSON object must have exactly two keys: \"subject\" and \"body\".\n\n"
  const GenerateLabel := "User's Request: "
  const EditLabel := "User's Email Draft: "

  datatype EmailRequest = EmailRequest(kind: string, prompt: string, tone: string, templateType: string)

  datatype EmailResponse = EmailResponse(subject: string, generatedEmail: string)

  /** The JSON the model is asked for. */
  datatype RawEmail = RawEmail(subject: string, body: string)

  function InvalidType(kind: string): string
  {
    "invalid request type: '" + kind + "'. Must be 'GENERATE' or 'EDIT'"
  }

  /** The request type, compared after upper-casing: GENERATE or EDIT pick their
      prompt; any other type has none. */
  function EmailPrompt(req: EmailRequest): (p: Option<string>)
    ensures p.Some? <==> ToUpper(req.kind) == "GENERATE" || ToUpper(req.kind) == "EDIT"
    ensures p.Some? ==> HasSuffix(p.value, req.prompt + "\n")
  {
    var kind := ToUpper(req.kind);
    if kind != "GENERATE" && kind != "EDIT" then None
    else Some(Assembled(PromptHead(kind), RequestLabel(kind), req))
  }

  /** The opening of the prompt for an (upper-cased) request type. */
  function PromptHead(kind: string): string
  {
    if kind == "GENERATE" then GeneratePrompt1 else EditPrompt1
  }

  /** The label before the user's text for an (upper-cased) request type. */
  function RequestLabel(kind: string): string
  {
    if kind == "GENERATE" then GenerateLabel else EditLabel
  }

  /** A prompt around the request's fields: the tone, the template type and, last of
      all, the user's text and a line break. */
  function Assembled(head: string, intro: string, req: EmailRequest): (p: string)
    ensures HasSuffix(p, req.prompt + "\n")
  {
    var p := head + req.tone + Prompt2 + req.templateType + Prompt3 + intro + req.prompt + "\n";
    assert p[|p| - |req.prompt + "\n"|..] == req.prompt + "\n";
    p
  }

  /** Where the three fields sit in a prompt assembled around them. */
  lemma FieldsAt(head: string, tone: string, mid: string, template: string, tail: string,
                 text: string, end: string)
    ensures var p := head + tone + mid + template + tail + text + end;
      && OccursAt(p, tone, |head|)
      && OccursAt(p, template, |head| + |tone| + |mid|)
      && OccursAt(p, text, |head| + |tone| + |mid| + |template| + |tail|)
  {
    var p := head + tone + mid + template + tail + text + end;
    var j := |head| + |tone| + |mid|;
    var k := j + |template| + |tail|;
    assert p[|head|..|head| + |tone|] == tone;
    assert p[j..j + |template|] == template;
    assert p[k..k + |text|] == text;
  }

  /** An assembled prompt carries the tone, the template type and the user's text
      verbatim, in that order. */
  lemma AssembledEmbedsRequest(head: string, intro: string, req: EmailRequest)
    ensures var p := Assembled(head, intro, req);
      exists i, j, k ::
        i <= j <= k &&
        OccursAt(p, req.tone, i) && OccursAt(p, req.templateType, j) && OccursAt(p, req.prompt, k)
  {
    var tail := Prompt3 + intro;
    assert Assembled(head, intro, req) == head + req.tone + Prompt2 + req.templateType + tail + req.prompt + "\n";
    FieldsAt(head, req.tone, Prompt2, req.templateType, tail, req.prompt, "\n");
  }

  /** Both prompts carry the tone, the template type and the user's text verbatim, in
      that order. */
  lemma PromptEmbedsRequest(req: EmailRequest)
    requires EmailPrompt(req).Some?
    ensures var p := EmailPrompt(req).value;
      exists i, j, k ::
        i <= j <= k &&
        OccursAt(p, req.tone, i) && OccursAt(p, req.templateType, j) && OccursAt(p, req.prompt, k)
  {
    var kind := ToUpper(req.kind);
    AssembledEmbedsRequest(PromptHead(kind), RequestLabel(kind), req);
  }

  /** No backslash in `s` is followed by `n`. */
  predicate NoEscapedNewline(s: string)
  {
    forall i :: 0 <= i < |s| - 1 ==> !(s[i] == '\\' && s[i + 1] == 'n')
  }

  /** After the body's escapes are replaced no backslash is followed by `n`; and a
      result starting with `n` comes from an input starting with `n`. */
  lemma {:induction false} UnescapedBodyIsClean(s: string)
    ensures var r := ReplaceAll(s, EscapedNewline, "\n");
      && NoEscapedNewline(r)
      && (r != [] && r[0] == 'n' ==> s != [] && s[0] == 'n')
    decreases |s|
  {
    var r := ReplaceAll(s, EscapedNewline, "\n");
    if |s| >= 2 {
      if s[..2] == EscapedNewline {
        var rest := ReplaceAll(s[2..], EscapedNewline, "\n");
        UnescapedBodyIsClean(s[2..]);
        assert r == "\n" + rest;
        forall i | 0 <= i < |r| - 1
          ensures !(r[i] == '\\' && r[i + 1] == 'n')
        {
          if i > 0 {
            assert r[i] == rest[i - 1] && r[i + 1] == rest[i];
          }
        }
      } else {
        var tail := ReplaceAll(s[1..], EscapedNewline, "\n");
        UnescapedBodyIsClean(s[1..]);
        assert r == [s[0]] + tail;
        assert !(s[0] == '\\' && s[1] == 'n');
        forall i | 0 <= i < |r| - 1
          ensures !(r[i] == '\\' && r[i + 1] == 'n')
        {
          if i > 0 {
            assert r[i] == tail[i - 1] && r[i + 1] == tail[i];
          } else {
            assert r[1] == tail[0];
          }
        }
      }
    }
  }

  /** Two characters that are not a backslash and `n` are not an escaped line break. */
  lemma NotEscapedNewlineAt(r: string, i: int)
    requires NoEscapedNewline(r)
    ensures !OccursAt(r, EscapedNewline, i)
  {
    if 0 <= i && i + 2 <= |r| {
      assert !(r[i] == '\\' && r[i + 1] == 'n');
      assert r[i..i + 2][0] == r[i] && r[i..i + 2][1] == r[i + 1];
    }
  }

  /** No literal backslash-n is left after the body's escapes are replaced. */
  lemma NoEscapedNewlineLeft(s: string)
    ensures forall i :: !OccursAt(ReplaceAll(s, EscapedNewline, "\n"), EscapedNewline, i)
  {
    var r := ReplaceAll(s, EscapedNewline, "\n");
    UnescapedBodyIsClean(s);
    forall i
      ensures !OccursAt(r, EscapedNewline, i)
    {
      NotEscapedNewlineAt(r, i);
    }
  }

  /** A body without escaped line breaks is delivered unchanged. */
  lemma BodyWithoutEscapesUnchanged(body: string)
    requires forall i :: !OccursAt(body, EscapedNewline, i)
    ensures ReplaceAll(body, EscapedNewline, "\n") == body
  {
    ReplaceAllAbsent(body, EscapedNewline, "\n");
  }

  /**
   * ProcessEmail: `generate` is the model's answer to a prompt and `decode` the JSON
   * decoding of a text. An unknown type is refused before the model is asked; a first
   * part that is not text makes the type assertion panic; the subject is returned as
   * decoded and the body with its line breaks restored.
   */
  function ProcessEmail(req: EmailRequest, generate: string -> Result<Candidates, string>,
                        decode: string -> Result<RawEmail, string>)
    : (o: Outcome)
    ensures EmailPrompt(req).None? ==> o == Returns(Err(InvalidType(req.kind)))
    ensures EmailPrompt(req).Some? ==>
      var answer := generate(EmailPrompt(req).value);
      && (answer.Err? ==> o == Returns(Err(GenerateFailed + answer.error)))
      && (answer.Ok? && FirstPart(answer.value).None? ==> o == Returns(Err(EmptyResponse)))
      && (o.Panics? <==> answer.Ok? && FirstPart(answer.value).Some? && FirstPart(answer.value).value.Other?)
      && (o.Panics? ==> o.part == FirstPart(answer.value).value)
      && (o.Returns? && o.result.Ok? <==>
            answer.Ok? && FirstPart(answer.value).Some? && FirstPart(answer.value).value.Text? &&
            decode(GrammarCheck.CleanJSON(FirstPart(answer.value).value.text)).Ok?)
      && (answer.Ok? && FirstPart(answer.value).Some? && FirstPart(answer.value).value.Text? ==>
            var text := GrammarCheck.CleanJSON(FirstPart(answer.value).value.text);
            o == match decode(text)
                 case Err(e) => Returns(Err(ParseFailed + e + RawOutput + text))
                 case Ok(raw) => Returns(Ok(EmailResponse(raw.subject, ReplaceAll(raw.body, EscapedNewline, "\n")))))
  {
    match EmailPrompt(req)
    case None => Returns(Err(InvalidType(req.kind)))
    case Some(prompt) =>
      match generate(prompt)
      case Err(e) => Returns(Err(GenerateFailed + e))
      case Ok(candidates) =>
        match FirstPart(candidates)
        case None => Returns(Err(EmptyResponse))
        case Some(Other(shown)) => Panics(Other(shown))
        case Some(Text(raw)) =>
          var text := GrammarCheck.CleanJSON(raw);
          match decode(text)
          case Err(e) => Returns(Err(ParseFailed + e + RawOutput + text))
          case Ok(email) => Returns(Ok(EmailResponse(email.subject, ReplaceAll(email.body, EscapedNewline, "\n"))))
  }
}
