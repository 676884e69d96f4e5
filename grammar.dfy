/**
 * The grammar checker (internal/service/grammer_check_ai_service.go): the prompt sent
 * to the model, the validation of its response, and `cleanJSON`, which strips a
 * Markdown code fence from the model's text. The model call and JSON decoding are
 * function parameters.
 */
module GrammarCheck {
  import opened Common
  import opened GoStrings
  import opened GenAi

  const Fence := "```"
  const JsonFence := "```json"

  const GenerateFailed := "failed to generate content: "
  const NoContent := "no valid content returned"
  const UnexpectedType := "unexpected response type: "
  const ParseFailed := "failed to parse JSON: "
  const RawResponse := "\nRaw response: "

  const PromptHead := "\nYou are a grammar correction assistant.\nCorrect the grammar and spelling of the following text.\nReturn the result strictly in JSON format with the following structure:\n{\n  \"corrected_text\": \"string\",\n  \"corrections\": [\n    {\n      \"original_phrase\": \"string\",\n      \"corrected_phrase\": \"string\",\n      \"explanation\": \"string\"\n    }\n  ]\n}\n\nText: "

  datatype Correction = Correction(originalPhrase: string, correctedPhrase: string, explanation: string)

  datatype GrammarResponse = GrammarResponse(correctedText: string, corrections: seq<Correction>)

  /** The prompt for `text`: the fixed instructions, then the text verbatim. */
  function GrammarPrompt(text: string): (p: string)
    ensures OccursAt(p, text, |PromptHead|) && HasPrefix(p, PromptHead)
  {
    var p := PromptHead + text + "\n";
    assert p[..|PromptHead|] == PromptHead;
    assert p[|PromptHead|..|PromptHead| + |text|] == text;
    p
  }

  /** cleanJSON: trim, drop one leading "```json" and then one leading "```", drop one
      trailing "```", trim again. The result has no surrounding white space. */
  function CleanJSON(raw: string): string
  {
    TrimSpace(Unfenced(TrimSpace(raw)))
  }

  /** The three fence cuts in the middle of cleanJSON. */
  function Unfenced(s: string): string
  {
    TrimSuffix(TrimPrefix(TrimPrefix(s, JsonFence), Fence), Fence)
  }

  /** cleanJSON's result has no surrounding white space. */
  lemma CleanJSONTrimmed(raw: string)
    ensures var r := CleanJSON(raw); r == [] || (!IsSpace(r[0]) && !IsSpace(r[|r| - 1]))
  {
    var t := Unfenced(TrimSpace(raw));
    assert CleanJSON(raw) == TrimSpace(t);
  }

  /** The fence cuts in the middle of cleanJSON keep a contiguous piece. */
  lemma {:induction false} FenceCutsWithin(s: string) returns (i: int)
    ensures OccursAt(s, Unfenced(s), i)
  {
    var t1 := TrimPrefix(s, JsonFence);
    var t2 := TrimPrefix(t1, Fence);
    TrimPrefixOccurs(s, JsonFence);
    TrimPrefixOccurs(t1, Fence);
    TrimSuffixOccurs(t2, Fence);
    OccursWithinTwice(s, t1, t2, TrimSuffix(t2, Fence), |s| - |t1|, |t1| - |t2|, 0);
    i := |s| - |t2|;
  }

  /** cleanJSON only cuts: its result is a contiguous piece of its input. */
  lemma {:induction false} CleanJSONWithin(raw: string)
    ensures |CleanJSON(raw)| <= |raw|
    ensures exists i :: OccursAt(raw, CleanJSON(raw), i)
  {
    var t0 := TrimSpace(raw);
    var i0 := TrimSpaceOccurs(raw);
    var t3 := Unfenced(t0);
    var i3 := FenceCutsWithin(t0);
    var i4 := TrimSpaceOccurs(t3);
    OccursWithinTwice(raw, t0, t3, TrimSpace(t3), i0, i3, i4);
  }

  /** A fenced answer has no surrounding white space to trim. */
  lemma {:induction false} FencedIsTrimmed(s: string)
    ensures TrimSpace(JsonFence + s + Fence) == JsonFence + s + Fence
  {
    var raw := JsonFence + s + Fence;
    assert raw[0] == '`' && raw[|raw| - 1] == '`';
    TrimSpaceOfTrimmed(raw);
  }

  /** The opening "```json" of a fenced answer is cut first. */
  lemma {:induction false} OpeningFenceCut(s: string)
    ensures TrimPrefix(JsonFence + s + Fence, JsonFence) == s + Fence
  {
    var raw := JsonFence + s + Fence;
    assert raw[..|JsonFence|] == JsonFence;
    assert raw[|JsonFence|..] == s + Fence;
  }

  /** With the opening fence gone, the closing one is cut, unless `s` itself starts
      with a fence. */
  lemma ClosingFenceCut(s: string)
    requires !HasPrefix(s, Fence)
    ensures TrimSuffix(TrimPrefix(s + Fence, Fence), Fence) == s
  {
    var t1 := s + Fence;
    if HasPrefix(t1, Fence) {
      // Only a run of fewer than three backquotes, then the fence, starts with one.
      assert |s| < 3;
      var t2 := t1[3..];
      assert |t2| == |s|;
      forall k | 0 <= k < |s|
        ensures t2[k] == s[k]
      {
        assert s[k] == t1[k] == '`';
        assert t2[k] == t1[3 + k] == '`';
      }
      assert t2 == s;
    } else {
      assert t1[..|t1| - 3] == s;
    }
  }

  /** A fenced JSON answer comes back as its trimmed content. */
  lemma CleanJSONUnfences(s: string)
    requires !HasPrefix(s, Fence)
    ensures CleanJSON(JsonFence + s + Fence) == TrimSpace(s)
  {
    FencedIsTrimmed(s);
    OpeningFenceCut(s);
    ClosingFenceCut(s);
  }

  /** An answer without fences is only trimmed. */
  lemma CleanJSONKeepsUnfenced(raw: string)
    requires !HasPrefix(TrimSpace(raw), Fence) && !HasSuffix(TrimSpace(raw), Fence)
    ensures CleanJSON(raw) == TrimSpace(raw)
  {
    var t := TrimSpace(raw);
    UnfencedKeepsUnfenced(t);
    TrimSpaceOfTrimmed(t);
  }

  /** Text that neither starts nor ends with a fence has nothing cut. */
  lemma UnfencedKeepsUnfenced(t: string)
    requires !HasPrefix(t, Fence) && !HasSuffix(t, Fence)
    ensures Unfenced(t) == t
  {
    JsonFenceIsFenced(t);
    assert TrimPrefix(t, JsonFence) == t;
  }

  /** "```json" starts with a fence, so text starting with it starts with one. */
  lemma JsonFenceIsFenced(t: string)
    ensures HasPrefix(t, JsonFence) ==> HasPrefix(t, Fence)
  {
    if HasPrefix(t, JsonFence) {
      assert t[..3] == t[..7][..3];
    }
  }

  /**
   * CheckGrammar: `generate` is the model's answer to a prompt and `decode` the JSON
   * decoding of a text. The answer must have a first part, that part must be text, and
   * its cleaned text must decode.
   */
  function CheckGrammar(text: string, generate: string -> Result<Candidates, string>,
                        decode: string -> Result<GrammarResponse, string>)
    : (r: Result<GrammarResponse, string>)
    ensures var answer := generate(GrammarPrompt(text));
      && (answer.Err? ==> r == Err(GenerateFailed + answer.error))
      && (answer.Ok? && FirstPart(answer.value).None? ==> r == Err(NoContent))
      && (answer.Ok? && FirstPart(answer.value).Some? && FirstPart(answer.value).value.Other? ==>
            r == Err(UnexpectedType + FirstPart(answer.value).value.shown))
      && (r.Ok? <==>
            answer.Ok? && FirstPart(answer.value).Some? && FirstPart(answer.value).value.Text? &&
            decode(CleanJSON(FirstPart(answer.value).value.text)).Ok?)
      && (r.Ok? ==> r == decode(CleanJSON(FirstPart(answer.value).value.text)))
      && (answer.Ok? && FirstPart(answer.value).Some? && FirstPart(answer.value).value.Text? ==>
            var json := CleanJSON(FirstPart(answer.value).value.text);
            decode(json).Err? ==> r == Err(ParseFailed + decode(json).error + RawResponse + json))
  {
    match generate(GrammarPrompt(text))
    case Err(e) => Err(GenerateFailed + e)
    case Ok(candidates) =>
      match FirstPart(candidates)
      case None => Err(NoContent)
      case Some(Other(shown)) => Err(UnexpectedType + shown)
      case Some(Text(raw)) =>
        var json := CleanJSON(raw);
        match decode(json)
        case Err(e) => Err(ParseFailed + e + RawResponse + json)
        case Ok(g) => Ok(g)
  }
}
