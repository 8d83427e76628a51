/** ragged/getMatches.ts: check that the named index exists exactly once in
    Pinecone's listing, then query it; a query failure becomes a new Error. */
module Matches {
  import opened Wrappers
  import opened Sequences
  import opened Providers

  const IndexNotProvided := "db index not provided"
  const MatchesErrorPrefix := "Error getting matches: "

  /** The message thrown when the index is missing or listed more than once. */
  function IndexMissing(pineconeIndex: string): string {
    "Index " + pineconeIndex + " does not exist"
  }

  /** The test `(i) => i.name === pineconeIndex`. */
  function NamedTest(pineconeIndex: string): IndexModel -> bool {
    (i: IndexModel) => i.name == pineconeIndex
  }

  /** `indexes.filter((i) => i.name === pineconeIndex).length === 1`: the
      check passes iff exactly one listed index carries the name. */
  predicate ListedOnce(indexes: seq<IndexModel>, pineconeIndex: string): (once: bool)
    ensures once <==>
      (exists i :: 0 <= i < |indexes| && indexes[i].name == pineconeIndex) &&
      (forall i, j ::
         0 <= i < |indexes| && 0 <= j < |indexes| &&
         indexes[i].name == pineconeIndex && indexes[j].name == pineconeIndex
         ==> i == j)
  {
    FilterLengthOne(indexes, NamedTest(pineconeIndex));
    |Filter(indexes, NamedTest(pineconeIndex))| == 1
  }

  /** The query sent to the default namespace of the index. */
  function MatchesQuery(pineconeIndex: string, embeddings: Embedding, topK: int): (q: QueryRequest)
    ensures q.index == pineconeIndex && q.namespace == ""
    ensures q.vector == embeddings && q.topK == topK && q.includeMetadata
  {
    QueryRequest(pineconeIndex, "", embeddings, topK, true)
  }

  /** The error thrown in place of a failed query. */
  function QueryFailure(cause: Error): (e: Error)
    ensures e.name == "Error"
    ensures MatchesErrorPrefix <= e.message && e.message[|MatchesErrorPrefix|..] == Render(cause)
  {
    Fail(MatchesErrorPrefix + Render(cause))
  }

  /** `getMatchesFromEmbeddings(pineconeKey, pineconeIndex, embeddings, topK)`,
      where `pinecone` gives the client `new Pinecone({ apiKey })` connects to. */
  function GetMatchesFromEmbeddings(pineconeKey: string, pineconeIndex: string, embeddings: Embedding,
                                    topK: int, pinecone: string -> PineconeClient)
    : (r: Outcome<seq<ScoredRecord>>)
    // an empty index name is refused whatever Pinecone would answer
    ensures pineconeIndex == "" ==> r == Thrown(Fail(IndexNotProvided))
    ensures var client := pinecone(pineconeKey);
      pineconeIndex != "" ==>
        // a failing listing propagates as it is
        && (client.listIndexes.Thrown? ==> r == Thrown(client.listIndexes.error))
        // no listing, or the name listed zero or several times
        && (client.listIndexes.Ok? &&
            (client.listIndexes.value.None? || !ListedOnce(client.listIndexes.value.value, pineconeIndex))
            ==> r == Thrown(Fail(IndexMissing(pineconeIndex))))
    ensures var client := pinecone(pineconeKey);
      var reply := client.query(MatchesQuery(pineconeIndex, embeddings, topK));
      && (r.Ok? <==> pineconeIndex != "" && client.listIndexes.Ok? && client.listIndexes.value.Some? &&
                     ListedOnce(client.listIndexes.value.value, pineconeIndex) && reply.Ok?)
      // missing matches read as none; otherwise Pinecone's matches as they came
      && (r.Ok? ==> r.value == if reply.value.matches.None? then [] else reply.value.matches.value)
      && (r.Thrown? && pineconeIndex != "" && client.listIndexes.Ok? && client.listIndexes.value.Some? &&
          ListedOnce(client.listIndexes.value.value, pineconeIndex)
          ==> reply.Thrown? && r.error == QueryFailure(reply.error))
  {
    var client := pinecone(pineconeKey);
    if pineconeIndex == "" then Thrown(Fail(IndexNotProvided))
    else match client.listIndexes
      case Thrown(e) => Thrown(e)
      case Ok(indexes) =>
        if indexes.None? || !ListedOnce(indexes.value, pineconeIndex) then
          Thrown(Fail(IndexMissing(pineconeIndex)))
        else match client.query(MatchesQuery(pineconeIndex, embeddings, topK))
          case Thrown(e) => Thrown(QueryFailure(e))
          case Ok(queryResult) => Ok(queryResult.matches.GetOr([]))
  }
}
