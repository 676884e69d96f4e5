/**
 * The shape of a generative-model response as the Gemini services read it: a list of
 * candidates, each with the parts of its content.
 */
module GenAi {
  import opened Common

  /** A content part: text, or any other kind, kept as its printed `%#v` form. */
  datatype Part = Text(text: string) | Other(shown: string)

  /** The candidates of a response, each given by its content's parts. */
  type Candidates = seq<seq<Part>>

  /** The first part of the first candidate; `None` when there is no candidate or the
      first candidate has no part. */
  function FirstPart(candidates: Candidates): (p: Option<Part>)
    ensures p.None? <==> candidates == [] || candidates[0] == []
    ensures p.Some? ==> p.value == candidates[0][0]
  {
    if candidates == [] || candidates[0] == [] then None else Some(candidates[0][0])
  }
}
