/** The shapes of the requests and replies exchanged with the two hosted
    services, Pinecone (vector store) and OpenAI (embeddings and chat). A
    client is a bundle of the replies the service gives: a value for a call
    without arguments, a function for a call with arguments. */
module Providers {
  import opened Wrappers

  /** An embedding vector. Its numbers are only passed from one service to the other. */
  type Embedding = seq<real>

  /** The metadata stored beside a vector; only `text` is ever read. */
  datatype Metadata = Metadata(text: string)

  /** A query match: the score and the metadata are both optional in Pinecone's reply. */
  datatype ScoredRecord = ScoredRecord(id: string, score: Option<real>, metadata: Option<Metadata>)

  /** One entry of `listIndexes().indexes`. */
  datatype IndexModel = IndexModel(name: string)

  /** A query against namespace `namespace` of index `index`. */
  datatype QueryRequest = QueryRequest(index: string, namespace: string, vector: Embedding,
                                       topK: int, includeMetadata: bool)

  datatype QueryResponse = QueryResponse(matches: Option<seq<ScoredRecord>>)

  /** A record as upserted: id, vector and metadata. */
  datatype Record = Record(id: string, values: Embedding, metadata: Metadata)

  /** The arguments of `createIndex`: a serverless index in `cloud`/`region`. */
  datatype IndexSpec = IndexSpec(name: string, dimension: nat, waitUntilReady: bool,
                                 cloud: string, region: string)

  /** The replies of a Pinecone client: `listIndexes()` (which may resolve to
      no index list), `createIndex`, `Index(name).upsert` and queries. */
  datatype PineconeClient = PineconeClient(
    listIndexes: Outcome<Option<seq<IndexModel>>>,
    createIndex: IndexSpec -> Outcome<()>,
    upsert: (string, seq<Record>) -> Outcome<()>,
    query: QueryRequest -> Outcome<QueryResponse>)

  datatype EmbeddingRequest = EmbeddingRequest(model: string, input: string)
  datatype EmbeddingDatum = EmbeddingDatum(embedding: Embedding)
  /** The parsed JSON of an embedding reply; an error body has no `data`. */
  datatype EmbeddingResponse = EmbeddingResponse(data: Option<seq<EmbeddingDatum>>)

  /** A chat message. Messages from the caller's conversation carry an id. */
  datatype Message = Message(id: Option<string>, role: string, content: string)
  datatype ChatRequest = ChatRequest(model: string, stream: bool, messages: seq<Message>)
  datatype Choice = Choice(message: Message)
  /** The parsed JSON of a chat reply; an error body has no `choices`. */
  datatype ChatResponse = ChatResponse(choices: Option<seq<Choice>>)

  /** The replies of an OpenAI client (the parsed JSON of each response). */
  datatype OpenAiClient = OpenAiClient(
    createEmbedding: EmbeddingRequest -> Outcome<EmbeddingResponse>,
    createChatCompletion: ChatRequest -> Outcome<ChatResponse>)

  /** The TypeError JavaScript throws when `property` is read from `undefined`. */
  function ReadOfUndefined(property: string): Error {
    Error("TypeError", "Cannot read properties of undefined (reading '" + property + "')")
  }

  /** The ids of a batch of records. */
  ghost function Ids(batch: seq<Record>): set<string> {
    set i | 0 <= i < |batch| :: batch[i].id
  }

  predicate DistinctIds(batch: seq<Record>) {
    forall i, j :: 0 <= i < j < |batch| ==> batch[i].id != batch[j].id
  }

  /** Pinecone's upsert on the records of one index: each record, in batch
      order, is inserted under its id or overwrites the record already there. */
  function Upserted(stored: map<string, Record>, batch: seq<Record>): (r: map<string, Record>)
    ensures r.Keys == stored.Keys + Ids(batch)
    decreases |batch|
  {
    if batch == [] then stored
    else
      var r := Upserted(stored[batch[0].id := batch[0]], batch[1..]);
      assert Ids(batch) == {batch[0].id} + Ids(batch[1..]) by {
        forall k | k in Ids(batch) ensures k in {batch[0].id} + Ids(batch[1..]) {
          var i :| 0 <= i < |batch| && batch[i].id == k;
          if i > 0 { assert batch[1..][i - 1].id == k; }
        }
      }
      r
  }

  /** With distinct ids, every record of the batch is found under its id afterwards. */
  lemma {:induction false} UpsertedFinds(stored: map<string, Record>, batch: seq<Record>, i: nat)
    requires DistinctIds(batch) && i < |batch|
    ensures Upserted(stored, batch)[batch[i].id] == batch[i]
    decreases |batch|
  {
    var rest := batch[1..];
    var stored' := stored[batch[0].id := batch[0]];
    if i == 0 {
      assert batch[0].id !in Ids(rest);
      assert stored'[batch[0].id] == batch[0];
      UpsertedKeeps(stored', rest, batch[0].id);
    } else {
      assert rest[i - 1] == batch[i];
      UpsertedFinds(stored', rest, i - 1);
    }
  }

  /** A key no record of the batch carries keeps what it had. */
  lemma {:induction false} UpsertedKeeps(stored: map<string, Record>, batch: seq<Record>, k: string)
    requires k in stored && k !in Ids(batch)
    ensures Upserted(stored, batch)[k] == stored[k]
    decreases |batch|
  {
    if batch != [] {
      assert batch[0].id in Ids(batch);
      assert k !in Ids(batch[1..]) by {
        forall i | 0 <= i < |batch[1..]| ensures batch[1..][i].id != k {
          assert batch[1..][i] == batch[i + 1];
        }
      }
      UpsertedKeeps(stored[batch[0].id := batch[0]], batch[1..], k);
    }
  }

  /** A second upsert whose ids cover the first one's leaves no trace of the
      first: upsert overwrites, it never accumulates. */
  lemma UpsertOverwrites(stored: map<string, Record>, first: seq<Record>, second: seq<Record>)
    requires DistinctIds(second)
    requires Ids(first) <= Ids(second)
    ensures Upserted(Upserted(stored, first), second) == Upserted(stored, second)
  {
    var once := Upserted(stored, first);
    var a := Upserted(once, second);
    var b := Upserted(stored, second);
    forall k | k in a.Keys ensures k in b && a[k] == b[k] {
      if k in Ids(second) {
        var i :| 0 <= i < |second| && second[i].id == k;
        UpsertedFinds(once, second, i);
        UpsertedFinds(stored, second, i);
      } else {
        UpsertedKeeps(stored, first, k);
        UpsertedKeeps(once, second, k);
        UpsertedKeeps(stored, second, k);
      }
    }
  }
}
