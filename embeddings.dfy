/** ragged/getEmbeddings.ts: embed one text with OpenAI after rewriting its
    line feeds to spaces; any failure becomes a new Error with a fixed prefix. */
module Embeddings {
  import opened Wrappers
  import opened Providers

  const EmbeddingModel := "text-embedding-ada-002"
  const EmbeddingErrorPrefix := "Error calling OpenAI embedding API: "

  /** One character of `replace(/\n/g, " ")`. */
  function Blank(c: char): char {
    if c == '\n' then ' ' else c
  }

  /** `input.replace(/\n/g, " ")`. */
  function Normalize(input: string): (s: string)
    ensures |s| == |input|
    ensures forall i :: 0 <= i < |input| ==> s[i] == Blank(input[i])
  {
    if input == [] then [] else [Blank(input[0])] + Normalize(input[1..])
  }

  /** The normalised text has no line feed, and every other character,
      carriage returns included, is where it was. */
  lemma NormalizeRemovesLineFeeds(input: string)
    ensures '\n' !in Normalize(input)
    ensures forall i :: 0 <= i < |input| && input[i] != '\n' ==> Normalize(input)[i] == input[i]
  {
  }

  lemma NormalizeIdempotent(input: string)
    ensures Normalize(Normalize(input)) == Normalize(input)
  {
    NormalizeRemovesLineFeeds(input);
  }

  /** The embedding request `getEmbeddings` sends for `input`. */
  function EmbeddingRequestFor(input: string): (r: EmbeddingRequest)
    ensures r.model == "text-embedding-ada-002"
    ensures r.input == Normalize(input)
    ensures '\n' !in r.input && |r.input| == |input|
  {
    NormalizeRemovesLineFeeds(input);
    EmbeddingRequest(EmbeddingModel, Normalize(input))
  }

  /** The error `getEmbeddings` throws in place of `cause`. */
  function EmbeddingFailure(cause: Error): (e: Error)
    ensures e.name == "Error"
    ensures EmbeddingErrorPrefix <= e.message && e.message[|EmbeddingErrorPrefix|..] == Render(cause)
  {
    Fail(EmbeddingErrorPrefix + Render(cause))
  }

  /** `getEmbeddings(input, openai)`: the embedding of the first entry of the
      reply's `data`. */
  function GetEmbeddings(input: string, createEmbedding: EmbeddingRequest -> Outcome<EmbeddingResponse>)
    : (r: Outcome<Embedding>)
    ensures var reply := createEmbedding(EmbeddingRequestFor(input));
      && (r.Ok? <==> reply.Ok? && reply.value.data.Some? && |reply.value.data.value| > 0)
      && (r.Ok? ==> r.value == reply.value.data.value[0].embedding)
      && (reply.Thrown? ==> r == Thrown(EmbeddingFailure(reply.error)))
    ensures r.Thrown? ==> r.error.name == "Error" && EmbeddingErrorPrefix <= r.error.message
  {
    match createEmbedding(EmbeddingRequestFor(input))
    case Thrown(e) => Thrown(EmbeddingFailure(e))
    case Ok(response) =>
      if response.data.None? then Thrown(EmbeddingFailure(ReadOfUndefined("0")))
      else if response.data.value == [] then Thrown(EmbeddingFailure(ReadOfUndefined("embedding")))
      else Ok(response.data.value[0].embedding)
  }

  /** Texts that differ only in line feeds versus spaces get the same outcome. */
  lemma GetEmbeddingsSeesNormalizedText(a: string, b: string,
                                        createEmbedding: EmbeddingRequest -> Outcome<EmbeddingResponse>)
    requires Normalize(a) == Normalize(b)
    ensures GetEmbeddings(a, createEmbedding) == GetEmbeddings(b, createEmbedding)
  {
  }
}
