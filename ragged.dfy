/** ragged/class.ts: the Ragged class. `GetContext` embeds a message, queries
    Pinecone and keeps the relevant matches; `MakeLlmRequest` grounds a chat
    request in those matches; `AddContext` embeds text fragments and upserts
    them into an index, creating the index when it is not listed. */
module Ragged {
  import opened Wrappers
  import opened Sequences
  import opened Text
  import opened Providers
  import opened Embeddings
  import opened Matches

  const ContextTopK := 3
  const DefaultMinRelevance: real := 0.3
  const DefaultRegion := "us-east-1"
  const IndexDimension: nat := 1536
  const IndexCloud := "aws"
  const ChatModel := "gpt-3.5-turbo"
  const DefaultSystemText := "You are a courteous assistant who will use the provided context to answer the user's question"
  const ContextUnavailable := "Context is not available"
  const NoContextMessage := "whoops, no context found!"

  const StartMarker := "START CONTEXT BLOCK"
  const EndMarker := "END OF CONTEXT BLOCK"
  /** The indentation every line of the system template after the first carries. */
  const Indent := "            "
  /** The template between the system text and the context block. */
  const BlockHead := "\n" + Indent + StartMarker + "\n" + Indent
  /** The template after the context block: the end marker and the instructions. */
  const BlockTail := "\n" + Indent + EndMarker + "\n"
    + Indent + "You will take into account any CONTEXT BLOCK that is provided in a conversation.\n"
    + Indent + "If the context does not provide the answer to question, you will say, \"I'm sorry, but I don't know the answer to that question\".\n"
    + Indent + "AI assistant will not invent anything that is not drawn directly from the context.\n"
    + Indent

  // ---------------------------------------------------------------------------
  // Relevance filtering (getContext)

  /** `m.score && m.score > minRelevance`: a present, non-zero score above
      the threshold. The truthiness test matters only under a negative
      threshold, where it still turns a zero score away. */
  predicate Relevant(m: ScoredRecord, minRelevance: real): (relevant: bool)
    ensures minRelevance >= 0.0 ==> (relevant <==> m.score.Some? && m.score.value > minRelevance)
    ensures m.score == Some(0.0) ==> !relevant
    ensures m.score.None? ==> !relevant
  {
    m.score.Some? && m.score.value != 0.0 && m.score.value > minRelevance
  }

  function RelevanceTest(minRelevance: real): ScoredRecord -> bool {
    m => Relevant(m, minRelevance)
  }

  /** `matches.filter((m) => m.score && m.score > minRelevance)`. */
  function SelectRecords(matches: seq<ScoredRecord>, minRelevance: real): (r: seq<ScoredRecord>)
    ensures |r| <= |matches|
    ensures forall i :: 0 <= i < |r| ==> r[i] in matches && Relevant(r[i], minRelevance)
    ensures forall i :: 0 <= i < |matches| && Relevant(matches[i], minRelevance) ==> matches[i] in r
  {
    Filter(matches, RelevanceTest(minRelevance))
  }

  /** Selection keeps provider order: it works block by block and keeps a
      single match exactly when it is relevant. */
  lemma SelectRecordsKeepsOrder(a: seq<ScoredRecord>, b: seq<ScoredRecord>, minRelevance: real)
    ensures SelectRecords(a + b, minRelevance) == SelectRecords(a, minRelevance) + SelectRecords(b, minRelevance)
    ensures SelectRecords([], minRelevance) == []
    ensures forall m :: SelectRecords([m], minRelevance) == if Relevant(m, minRelevance) then [m] else []
  {
    FilterAppend(a, b, RelevanceTest(minRelevance));
    forall m ensures SelectRecords([m], minRelevance) == if Relevant(m, minRelevance) then [m] else [] {
      assert [m][1..] == [];
    }
  }

  /** No selected match has a missing score, a score of zero (even below a
      negative threshold) or a score equal to the threshold. */
  lemma SelectedScores(matches: seq<ScoredRecord>, minRelevance: real)
    ensures forall i :: 0 <= i < |SelectRecords(matches, minRelevance)| ==>
      var s := SelectRecords(matches, minRelevance)[i].score;
      s.Some? && s.value != 0.0 && s.value != minRelevance && s.value > minRelevance
  {
  }

  /** Scores 0.4 and 0.2 against the threshold 0.3: only the first survives. */
  lemma RelevanceScenario()
    ensures var m1 := ScoredRecord("1", Some(0.4), Some(Metadata("match1")));
      var m2 := ScoredRecord("2", Some(0.2), Some(Metadata("match2")));
      SelectRecords([m1, m2], 0.3) == [m1]
  {
  }

  // ---------------------------------------------------------------------------
  // Prompt assembly (makeLlmRequest)

  /** `prompt ?? default`: only a missing prompt is replaced; "" is kept. */
  function SystemText(prompt: Option<string>): (s: string)
    ensures prompt.Some? ==> s == prompt.value
    ensures prompt.None? ==> s == DefaultSystemText
  {
    prompt.GetOr(DefaultSystemText)
  }

  /** `piece` stands in `text` starting at index `at`. */
  predicate Occurs(piece: string, text: string, at: nat) {
    at + |piece| <= |text| && text[at..at + |piece|] == piece
  }

  /** A piece found in `text` is found in any extension of `text` at the same place. */
  lemma OccursBefore(piece: string, text: string, suffix: string, at: nat)
    requires Occurs(piece, text, at)
    ensures Occurs(piece, text + suffix, at)
  {
    assert (text + suffix)[at..at + |piece|] == text[at..at + |piece|];
  }

  /** A piece found in `text` is found after any prefix, shifted by its length. */
  lemma OccursAfter(prefix: string, piece: string, text: string, at: nat)
    requires Occurs(piece, text, at)
    ensures Occurs(piece, prefix + text, |prefix| + at)
  {
    assert (prefix + text)[|prefix| + at..|prefix| + at + |piece|] == text[at..at + |piece|];
  }

  /** Where the markers stand in the two halves of the template. */
  lemma TemplateMarkers()
    ensures Occurs(StartMarker, BlockHead, 13)
    ensures Occurs(EndMarker, BlockTail, 13)
  {
    assert BlockHead[13..13 + |StartMarker|] == StartMarker;
    assert BlockTail[..13 + |EndMarker|] == "\n" + Indent + EndMarker;
  }

  /** The system message content: the system text, then the template with
      the context block between its start and end markers. */
  function SystemContent(systemText: string, contextBlock: string): (content: string)
    ensures |content| == |systemText| + |BlockHead| + |contextBlock| + |BlockTail|
  {
    systemText + (BlockHead + (contextBlock + BlockTail))
  }

  /** System text, start marker, context block and end marker stand at fixed
      increasing offsets of the system content. */
  lemma SystemContentLayout(systemText: string, contextBlock: string)
    ensures var content := SystemContent(systemText, contextBlock);
      && Occurs(systemText, content, 0)
      && Occurs(StartMarker, content, |systemText| + 13)
      && Occurs(contextBlock, content, |systemText| + |BlockHead|)
      && Occurs(EndMarker, content, |systemText| + |BlockHead| + |contextBlock| + 13)
  {
    TemplateMarkers();
    Layout(systemText, BlockHead, contextBlock, BlockTail);
  }

  /** The whole template stands in the system content: its head right after
      the system text, and its tail, with the instructions on unknown answers
      and on not inventing anything, right after the context block, which
      is the very end (see SystemContent's length). */
  lemma SystemContentTemplate(systemText: string, contextBlock: string)
    ensures var content := SystemContent(systemText, contextBlock);
      && Occurs(BlockHead, content, |systemText|)
      && Occurs(BlockTail, content, |systemText| + |BlockHead| + |contextBlock|)
  {
    Frame(systemText, BlockHead, contextBlock, BlockTail);
  }

  /** The four pieces of a content built as system text, head, block and
      tail, when the head and tail carry the markers 13 characters in. */
  lemma Layout(systemText: string, head: string, contextBlock: string, tail: string)
    requires Occurs(StartMarker, head, 13) && Occurs(EndMarker, tail, 13)
    ensures var content := systemText + (head + (contextBlock + tail));
      && Occurs(systemText, content, 0)
      && Occurs(StartMarker, content, |systemText| + 13)
      && Occurs(contextBlock, content, |systemText| + |head|)
      && Occurs(EndMarker, content, |systemText| + |head| + |contextBlock| + 13)
  {
    var rest := contextBlock + tail;
    var body := head + rest;
    OccursBefore(StartMarker, head, rest, 13);
    OccursAfter(systemText, StartMarker, body, 13);
    OccursAfter(contextBlock, EndMarker, tail, 13);
    OccursAfter(head, EndMarker, rest, |contextBlock| + 13);
    OccursAfter(systemText, EndMarker, body, |head| + |contextBlock| + 13);
    assert Occurs(contextBlock, rest, 0);
    OccursAfter(head, contextBlock, rest, 0);
    OccursAfter(systemText, contextBlock, body, |head|);
    assert Occurs(systemText, systemText, 0);
    OccursBefore(systemText, systemText, body, 0);
  }

  /** Where head and tail stand in a content built as system text, head,
      block and tail. */
  lemma Frame(systemText: string, head: string, contextBlock: string, tail: string)
    ensures var content := systemText + (head + (contextBlock + tail));
      && Occurs(head, content, |systemText|)
      && Occurs(tail, content, |systemText| + |head| + |contextBlock|)
      && content[|content| - |tail|..] == tail
  {
    var rest := contextBlock + tail;
    var body := head + rest;
    assert Occurs(head, head, 0);
    OccursBefore(head, head, rest, 0);
    OccursAfter(systemText, head, body, 0);
    assert Occurs(tail, tail, 0);
    OccursAfter(contextBlock, tail, tail, 0);
    OccursAfter(head, tail, rest, |contextBlock|);
    OccursAfter(systemText, tail, body, |head| + |contextBlock|);
  }

  /** `context.map((c) => c.metadata.text)`: throws at the first match without metadata. */
  function ContextTexts(context: seq<ScoredRecord>): (r: Outcome<seq<string>>)
    ensures r.Ok? <==> forall i :: 0 <= i < |context| ==> context[i].metadata.Some?
    ensures r.Ok? ==>
      && |r.value| == |context|
      && forall i :: 0 <= i < |context| ==> r.value[i] == context[i].metadata.value.text
    ensures r.Thrown? ==> r.error == ReadOfUndefined("text")
  {
    if context == [] then Ok([])
    else if context[0].metadata.None? then Thrown(ReadOfUndefined("text"))
    else match ContextTexts(context[1..])
      case Thrown(e) => Thrown(e)
      case Ok(rest) => Ok([context[0].metadata.value.text] + rest)
  }

  /** The block of texts joined with line feeds can be cut back into the texts
      when none of them holds a line feed; no texts give the empty block. */
  lemma ContextBlockRecoverable(texts: seq<string>)
    requires forall i :: 0 <= i < |texts| ==> '\n' !in texts[i]
    ensures texts == [] ==> Join(texts, '\n') == ""
    ensures texts != [] ==> Split(Join(texts, '\n'), '\n') == texts
  {
    if texts != [] {
      SplitJoin(texts, '\n');
    }
  }

  function UserTest(): Message -> bool {
    (m: Message) => m.role == "user"
  }

  /** `conversation.filter((message) => message.role === "user")`. */
  function UserMessages(conversation: seq<Message>): (r: seq<Message>)
    ensures |r| <= |conversation|
    ensures forall i :: 0 <= i < |r| ==> r[i] in conversation && r[i].role == "user"
    ensures forall i :: 0 <= i < |conversation| && conversation[i].role == "user" ==> conversation[i] in r
  {
    Filter(conversation, UserTest())
  }

  /** The user-role filter keeps conversation order. */
  lemma UserMessagesKeepOrder(a: seq<Message>, b: seq<Message>)
    ensures UserMessages(a + b) == UserMessages(a) + UserMessages(b)
  {
    FilterAppend(a, b, UserTest());
  }

  /** The message list: the system message, the user messages of the
      conversation in order, then the query as the last user message. */
  function PromptMessages(systemContent: string, conversation: seq<Message>, message: string)
    : (r: seq<Message>)
    ensures |r| == |UserMessages(conversation)| + 2
    ensures r[0] == Message(None, "system", systemContent)
    ensures r[1..|r| - 1] == UserMessages(conversation)
    ensures r[|r| - 1] == Message(None, "user", message)
    ensures forall i :: 1 <= i < |r| ==> r[i].role == "user"
  {
    [Message(None, "system", systemContent)] + UserMessages(conversation) + [Message(None, "user", message)]
  }

  /** An assistant turn is dropped, a user turn kept, and the query comes last. */
  lemma ConversationScenario(systemContent: string)
    ensures var hi := Message(Some("1"), "assistant", "hi");
      var hello := Message(Some("2"), "user", "hello");
      PromptMessages(systemContent, [hi, hello], "What color is the sky?") ==
        [Message(None, "system", systemContent), hello, Message(None, "user", "What color is the sky?")]
  {
  }

  /** The chat request `makeLlmRequest` sends once it holds `context`
      (None: the context came back null or undefined). */
  function LlmRequest(context: Option<seq<ScoredRecord>>, message: string, conversation: seq<Message>,
                      prompt: Option<string>)
    : (r: Outcome<ChatRequest>)
    ensures r == Thrown(Fail(ContextUnavailable)) <==> context.None?
    ensures context.Some? ==> (r.Ok? <==> forall i :: 0 <= i < |context.value| ==> context.value[i].metadata.Some?)
    ensures r.Ok? ==>
      && r.value.model == "gpt-3.5-turbo" && !r.value.stream
      && r.value.messages == PromptMessages(
           SystemContent(SystemText(prompt), Join(ContextTexts(context.value).value, '\n')),
           conversation, message)
  {
    if context.None? then Thrown(Fail(ContextUnavailable))
    else match ContextTexts(context.value)
      case Thrown(e) => Thrown(e)
      case Ok(texts) =>
        var content := SystemContent(SystemText(prompt), Join(texts, '\n'));
        Ok(ChatRequest(ChatModel, false, PromptMessages(content, conversation, message)))
  }

  /** A defined but empty context is not an error: the block is empty. */
  lemma EmptyContextProceeds(message: string, conversation: seq<Message>, prompt: Option<string>)
    ensures var r := LlmRequest(Some([]), message, conversation, prompt);
      r.Ok? && r.value.messages[0].content == SystemContent(SystemText(prompt), "")
  {
  }

  /** `json.choices[0].message.content`. */
  function FirstChoiceContent(response: ChatResponse): (r: Outcome<string>)
    ensures r.Ok? <==> response.choices.Some? && |response.choices.value| > 0
    ensures r.Ok? ==> r.value == response.choices.value[0].message.content
  {
    if response.choices.None? then Thrown(ReadOfUndefined("0"))
    else if response.choices.value == [] then Thrown(ReadOfUndefined("message"))
    else Ok(response.choices.value[0].message.content)
  }

  // ---------------------------------------------------------------------------
  // Ingestion (addContext)

  /** The record `addContext` returns. */
  datatype Status = Status(success: bool, message: string, error: Option<Error>)

  const NoContextFound := Status(false, NoContextMessage, None)
  const Succeeded := Status(true, "success", None)

  /** The record of the `catch` branch: a failure that carries what was thrown. */
  function Failed(e: Error): (status: Status)
    ensures !status.success && status.message == "error" && status.error == Some(e)
    ensures status != Succeeded && status != NoContextFound
  {
    Status(false, "error", Some(e))
  }

  /** The two fixed records: only success has `success` set, and the soft
      rejection carries its message and no error. */
  lemma StatusRecords()
    ensures Succeeded.success && Succeeded.message == "success" && Succeeded.error.None?
    ensures !NoContextFound.success && NoContextFound.message == "whoops, no context found!"
    ensures NoContextFound.error.None? && NoContextFound != Succeeded
  {
  }

  /** A provider call made while ingesting. */
  datatype Call =
    | ListIndexes
    | CreateIndex(spec: IndexSpec)
    | CreateEmbedding(request: EmbeddingRequest)
    | Upsert(index: string, records: seq<Record>)

  /** `context?.length` is truthy: false for a missing list and for an empty
      one, true for any fragment list with at least one entry. */
  predicate HasFragments(context: Option<seq<string>>): (some: bool)
    ensures context.None? ==> !some
    ensures context == Some([]) ==> !some
    ensures context.Some? && |context.value| >= 1 ==> some
  {
    context.Some? && |context.value| > 0
  }

  /** `(...)?.indexes?.map((index) => index.name) || []`. */
  function ListedNames(indexes: Option<seq<IndexModel>>): (names: seq<string>)
    ensures indexes.None? ==> names == []
    ensures indexes.Some? ==>
      && |names| == |indexes.value|
      && forall i :: 0 <= i < |names| ==> names[i] == indexes.value[i].name
  {
    if indexes.None? then [] else seq(|indexes.value|, i requires 0 <= i < |indexes.value| => indexes.value[i].name)
  }

  /** The index `addContext` creates: 1536 dimensions, serverless on AWS in the
      given region ("us-east-1" when none is given), ready before it returns. */
  function CreationSpec(pineconeIndex: string, pineconeCloudRegion: Option<string>): (spec: IndexSpec)
    ensures spec.name == pineconeIndex && spec.dimension == 1536 && spec.waitUntilReady
    ensures spec.cloud == "aws"
    ensures pineconeCloudRegion.Some? ==> spec.region == pineconeCloudRegion.value
    ensures pineconeCloudRegion.None? ==> spec.region == "us-east-1"
  {
    IndexSpec(pineconeIndex, IndexDimension, true, IndexCloud, pineconeCloudRegion.GetOr(DefaultRegion))
  }

  /** `key${position}`: "key" followed by the decimal digits of the position. */
  function Key(position: nat): (id: string)
    ensures |id| >= 4 && id[..3] == "key" && id[3..] == NatToString(position)
  {
    "key" + NatToString(position)
  }

  lemma KeysDistinct(a: nat, b: nat)
    requires a != b
    ensures Key(a) != Key(b)
  {
    NatToStringInjective(a, b);
    assert Key(a)[3..] == NatToString(a) && Key(b)[3..] == NatToString(b);
  }

  /** The batch `addContext` upserts: fragment i (from 0) gets id `key{i+1}`,
      its embedding and its own text; the ids are pairwise distinct. */
  function IngestBatch(texts: seq<string>, vectors: seq<Embedding>): (batch: seq<Record>)
    requires |texts| == |vectors|
    ensures |batch| == |texts|
    ensures forall i :: 0 <= i < |batch| ==>
      batch[i].id == Key(i + 1) && batch[i].values == vectors[i] && batch[i].metadata.text == texts[i]
    ensures DistinctIds(batch)
  {
    var batch := seq(|texts|, i requires 0 <= i < |texts| => Record(Key(i + 1), vectors[i], Metadata(texts[i])));
    forall i, j | 0 <= i < j < |batch| ensures batch[i].id != batch[j].id {
      KeysDistinct(i + 1, j + 1);
    }
    batch
  }

  /** The test's two fragments are upserted as key1 and key2. */
  lemma IngestScenario(v: Embedding)
    ensures IngestBatch(["context1", "context2"], [v, v]) ==
      [Record("key1", v, Metadata("context1")), Record("key2", v, Metadata("context2"))]
  {
    assert Key(1) == "key1" && Key(2) == "key2";
    var batch := IngestBatch(["context1", "context2"], [v, v]);
    assert batch[0] == Record("key1", v, Metadata("context1"));
    assert batch[1] == Record("key2", v, Metadata("context2"));
  }

  /** Ingesting fragments again, whatever their new embeddings, reuses the
      same ids, so the second upsert overwrites every record of the first. */
  lemma ReingestOverwrites(stored: map<string, Record>, texts: seq<string>,
                           first: seq<Embedding>, second: seq<Embedding>)
    requires |first| == |texts| && |second| == |texts|
    ensures Upserted(Upserted(stored, IngestBatch(texts, first)), IngestBatch(texts, second)) ==
            Upserted(stored, IngestBatch(texts, second))
  {
    var b1 := IngestBatch(texts, first);
    var b2 := IngestBatch(texts, second);
    assert Ids(b1) <= Ids(b2) by {
      forall k | k in Ids(b1) ensures k in Ids(b2) {
        var i :| 0 <= i < |b1| && b1[i].id == k;
        assert b2[i].id == k;
      }
    }
    UpsertOverwrites(stored, b1, b2);
  }

  /** Every fragment embeds without error. */
  predicate AllEmbedded(texts: seq<string>, createEmbedding: EmbeddingRequest -> Outcome<EmbeddingResponse>) {
    forall i :: 0 <= i < |texts| ==> GetEmbeddings(texts[i], createEmbedding).Ok?
  }

  /** The embeddings of fragments that all embed without error. */
  function EmbeddingsOf(texts: seq<string>, createEmbedding: EmbeddingRequest -> Outcome<EmbeddingResponse>)
    : (vectors: seq<Embedding>)
    requires AllEmbedded(texts, createEmbedding)
    ensures |vectors| == |texts|
  {
    seq(|texts|, i requires 0 <= i < |texts| => GetEmbeddings(texts[i], createEmbedding).value)
  }

  /** One embedding request per fragment, in fragment order. */
  function EmbeddingCalls(texts: seq<string>): (calls: seq<Call>)
    ensures |calls| == |texts|
  {
    seq(|texts|, i requires 0 <= i < |texts| => CreateEmbedding(EmbeddingRequestFor(texts[i])))
  }

  lemma EmbeddingCallsExtend(texts: seq<string>, i: nat)
    requires i < |texts|
    ensures EmbeddingCalls(texts[..i + 1]) == EmbeddingCalls(texts[..i]) + [CreateEmbedding(EmbeddingRequestFor(texts[i]))]
  {
    assert texts[..i + 1][i] == texts[i];
  }

  lemma AllEmbeddedExtend(texts: seq<string>, i: nat, createEmbedding: EmbeddingRequest -> Outcome<EmbeddingResponse>)
    requires i < |texts|
    requires AllEmbedded(texts[..i], createEmbedding) && GetEmbeddings(texts[i], createEmbedding).Ok?
    ensures AllEmbedded(texts[..i + 1], createEmbedding)
  {
    var extended := texts[..i + 1];
    forall j | 0 <= j < |extended| ensures GetEmbeddings(extended[j], createEmbedding).Ok? {
      if j < i { assert extended[j] == texts[..i][j]; }
    }
  }

  lemma IngestBatchExtend(texts: seq<string>, i: nat, createEmbedding: EmbeddingRequest -> Outcome<EmbeddingResponse>)
    requires i < |texts|
    requires AllEmbedded(texts[..i], createEmbedding) && AllEmbedded(texts[..i + 1], createEmbedding)
    ensures IngestBatch(texts[..i + 1], EmbeddingsOf(texts[..i + 1], createEmbedding))
         == IngestBatch(texts[..i], EmbeddingsOf(texts[..i], createEmbedding))
            + [Record(Key(i + 1), GetEmbeddings(texts[i], createEmbedding).value, Metadata(texts[i]))]
  {
    var longer := IngestBatch(texts[..i + 1], EmbeddingsOf(texts[..i + 1], createEmbedding));
    var shorter := IngestBatch(texts[..i], EmbeddingsOf(texts[..i], createEmbedding))
      + [Record(Key(i + 1), GetEmbeddings(texts[i], createEmbedding).value, Metadata(texts[i]))];
    assert |longer| == |shorter|;
    forall j | 0 <= j < |longer| ensures longer[j] == shorter[j] {
      if j < i { assert texts[..i + 1][j] == texts[..i][j]; }
    }
  }

  /** The store calls before any embedding: the listing, then the creation
      when the index was not listed. */
  function Prelude(create: bool, spec: IndexSpec): seq<Call> {
    [ListIndexes] + (if create then [CreateIndex(spec)] else [])
  }

  /** The loop of `addContext` that embeds the fragments one after the other
      and builds the batch; it stops at the first embedding that fails. */
  method EmbedFragments(texts: seq<string>, createEmbedding: EmbeddingRequest -> Outcome<EmbeddingResponse>)
    returns (data: seq<Record>, calls: seq<Call>, failure: Option<Error>)
    ensures failure.None? <==> AllEmbedded(texts, createEmbedding)
    ensures failure.None? ==>
      && data == IngestBatch(texts, EmbeddingsOf(texts, createEmbedding))
      && calls == EmbeddingCalls(texts)
    ensures failure.Some? ==>
      exists k :: 0 <= k < |texts| && AllEmbedded(texts[..k], createEmbedding) &&
        GetEmbeddings(texts[k], createEmbedding).Thrown? &&
        failure.value == GetEmbeddings(texts[k], createEmbedding).error &&
        calls == EmbeddingCalls(texts[..k + 1])
  {
    data, calls := [], [];
    var i := 0;
    while i < |texts|
      invariant 0 <= i <= |texts|
      invariant AllEmbedded(texts[..i], createEmbedding)
      invariant data == IngestBatch(texts[..i], EmbeddingsOf(texts[..i], createEmbedding))
      invariant calls == EmbeddingCalls(texts[..i])
    {
      calls := calls + [CreateEmbedding(EmbeddingRequestFor(texts[i]))];
      EmbeddingCallsExtend(texts, i);
      var embedding := GetEmbeddings(texts[i], createEmbedding);
      if embedding.Thrown? {
        return data, calls, Some(embedding.error);
      }
      data := data + [Record(Key(i + 1), embedding.value, Metadata(texts[i]))];
      AllEmbeddedExtend(texts, i, createEmbedding);
      IngestBatchExtend(texts, i, createEmbedding);
      i := i + 1;
    }
    assert texts[..i] == texts;
    failure := None;
  }

  class Ragged {
    const pineconeKey: string
    /** The OpenAI client built from the OpenAI key. */
    const openAi: OpenAiClient

    /** `new Ragged(openAiKey, pineconeKey)`; `openAiApi` gives the client
        `new OpenAIApi(new Configuration({ apiKey }))` builds. */
    constructor(openAiKey: string, pineconeKey: string, openAiApi: string -> OpenAiClient)
      ensures this.pineconeKey == pineconeKey
      ensures this.openAi == openAiApi(openAiKey)
    {
      this.pineconeKey := pineconeKey;
      this.openAi := openAiApi(openAiKey);
    }

    /** `getContext(message, pineconeIndex, minRelevance = 0.3)`: the relevant
        matches among the top 3; failures of either call propagate as they are. */
    function GetContext(message: string, pineconeIndex: string, minRelevance: Option<real>,
                        pinecone: string -> PineconeClient)
      : (r: Outcome<seq<ScoredRecord>>)
      ensures var embedding := GetEmbeddings(message, openAi.createEmbedding);
        && (embedding.Thrown? ==> r == Thrown(embedding.error))
        && (embedding.Ok? ==>
             var found := GetMatchesFromEmbeddings(pineconeKey, pineconeIndex, embedding.value, 3, pinecone);
             && (found.Thrown? ==> r == Thrown(found.error))
             && (found.Ok? ==> r.Ok? && r.value == SelectRecords(found.value, minRelevance.GetOr(0.3))))
      ensures r.Ok? ==> forall i :: 0 <= i < |r.value| ==> Relevant(r.value[i], minRelevance.GetOr(0.3))
    {
      match GetEmbeddings(message, openAi.createEmbedding)
      case Thrown(e) => Thrown(e)
      case Ok(embedding) =>
        match GetMatchesFromEmbeddings(pineconeKey, pineconeIndex, embedding, ContextTopK, pinecone)
        case Thrown(e) => Thrown(e)
        case Ok(matches) => Ok(SelectRecords(matches, minRelevance.GetOr(DefaultMinRelevance)))
    }

    /** Only queries for the top 3 matches with metadata are ever asked: two
        Pinecone services that agree on those answer every `getContext` alike. */
    lemma GetContextAsksTopThree(message: string, pineconeIndex: string, minRelevance: Option<real>,
                                 p: string -> PineconeClient, q: string -> PineconeClient)
      requires p(pineconeKey).listIndexes == q(pineconeKey).listIndexes
      requires forall request: QueryRequest :: request.topK == 3 && request.includeMetadata ==>
        p(pineconeKey).query(request) == q(pineconeKey).query(request)
      ensures GetContext(message, pineconeIndex, minRelevance, p) == GetContext(message, pineconeIndex, minRelevance, q)
    {
    }

    /** `makeLlmRequest(message, conversation, prompt, pineconeIndex, minRelevance)`:
        the first choice of the chat completion for the grounded request. No
        error is wrapped: each propagates as it was thrown. */
    function MakeLlmRequest(message: string, conversation: seq<Message>, prompt: Option<string>,
                            pineconeIndex: string, minRelevance: real, pinecone: string -> PineconeClient)
      : (r: Outcome<string>)
      ensures var context := GetContext(message, pineconeIndex, Some(minRelevance), pinecone);
        && (context.Thrown? ==> r == Thrown(context.error))
        && (context.Ok? ==>
             var request := LlmRequest(Some(context.value), message, conversation, prompt);
             && (request.Thrown? ==> r == Thrown(ReadOfUndefined("text")))
             && (request.Ok? ==>
                  var reply := openAi.createChatCompletion(request.value);
                  && (reply.Thrown? ==> r == Thrown(reply.error))
                  && (reply.Ok? ==> r == FirstChoiceContent(reply.value))))
    {
      var context := GetContext(message, pineconeIndex, Some(minRelevance), pinecone);
      if context.Thrown? then Thrown(context.error) else
      var request := LlmRequest(Some(context.value), message, conversation, prompt);
      if request.Thrown? then Thrown(request.error) else
      var reply := openAi.createChatCompletion(request.value);
      if reply.Thrown? then Thrown(reply.error) else FirstChoiceContent(reply.value)
    }

    /** `addContext(pineconeIndex, pineconeCloudRegion = "us-east-1", context)`:
        returns the status record and the provider calls made, in order. */
    method AddContext(pineconeIndex: string, pineconeCloudRegion: Option<string>, context: Option<seq<string>>,
                      pinecone: string -> PineconeClient)
      returns (status: Status, calls: seq<Call>)
      // nothing to ingest: a soft rejection before any provider call
      ensures !HasFragments(context) ==> status == NoContextFound && calls == []
      // otherwise the index listing comes first, and a failing listing ends it
      ensures HasFragments(context) ==>
        var listing := pinecone(pineconeKey).listIndexes;
        && |calls| >= 1 && calls[0] == ListIndexes
        && (listing.Thrown? ==> status == Failed(listing.error) && calls == [ListIndexes])
      // the index is created exactly when its name is not listed
      ensures HasFragments(context) && pinecone(pineconeKey).listIndexes.Ok? ==>
        var spec := CreationSpec(pineconeIndex, pineconeCloudRegion);
        var create := pineconeIndex !in ListedNames(pinecone(pineconeKey).listIndexes.value);
        && Prelude(create, spec) <= calls
        && (CreateIndex(spec) in calls <==> create)
        && (create && pinecone(pineconeKey).createIndex(spec).Thrown? ==>
              status == Failed(pinecone(pineconeKey).createIndex(spec).error) && calls == Prelude(create, spec))
      // then the fragments are embedded in order; the first failure ends it
      ensures HasFragments(context) && pinecone(pineconeKey).listIndexes.Ok? ==>
        var client := pinecone(pineconeKey);
        var texts := context.value;
        var spec := CreationSpec(pineconeIndex, pineconeCloudRegion);
        var create := pineconeIndex !in ListedNames(client.listIndexes.value);
        (!create || client.createIndex(spec).Ok?) && !AllEmbedded(texts, openAi.createEmbedding) ==>
          exists k :: 0 <= k < |texts| && AllEmbedded(texts[..k], openAi.createEmbedding) &&
            GetEmbeddings(texts[k], openAi.createEmbedding).Thrown? &&
            status == Failed(GetEmbeddings(texts[k], openAi.createEmbedding).error) &&
            calls == Prelude(create, spec) + EmbeddingCalls(texts[..k + 1])
      // and the whole batch goes to one upsert
      ensures HasFragments(context) && pinecone(pineconeKey).listIndexes.Ok? ==>
        var client := pinecone(pineconeKey);
        var texts := context.value;
        var spec := CreationSpec(pineconeIndex, pineconeCloudRegion);
        var create := pineconeIndex !in ListedNames(client.listIndexes.value);
        (!create || client.createIndex(spec).Ok?) && AllEmbedded(texts, openAi.createEmbedding) ==>
          var batch := IngestBatch(texts, EmbeddingsOf(texts, openAi.createEmbedding));
          && calls == Prelude(create, spec) + EmbeddingCalls(texts) + [Upsert(pineconeIndex, batch)]
          && status == match client.upsert(pineconeIndex, batch)
                       case Ok(_) => Succeeded
                       case Thrown(e) => Failed(e)
      // every failure is reported as an error record
      ensures status.success <==> status == Succeeded
      ensures HasFragments(context) && !status.success ==> status.message == "error" && status.error.Some?
    {
      if !HasFragments(context) {
        return NoContextFound, [];
      }
      var texts := context.value;
      var client := pinecone(pineconeKey);
      calls := [ListIndexes];
      if client.listIndexes.Thrown? {
        return Failed(client.listIndexes.error), calls;
      }
      var indexList := ListedNames(client.listIndexes.value);
      var create := pineconeIndex !in indexList;
      var spec := CreationSpec(pineconeIndex, pineconeCloudRegion);
      if create {
        calls := calls + [CreateIndex(spec)];
        var created := client.createIndex(spec);
        if created.Thrown? {
          return Failed(created.error), calls;
        }
      }
      assert calls == Prelude(create, spec);
      var data, embedCalls, failure := EmbedFragments(texts, openAi.createEmbedding);
      calls := calls + embedCalls;
      if failure.Some? {
        return Failed(failure.value), calls;
      }
      calls := calls + [Upsert(pineconeIndex, data)];
      var upserted := client.upsert(pineconeIndex, data);
      if upserted.Thrown? {
        return Failed(upserted.error), calls;
      }
      return Succeeded, calls;
    }
  }
}
