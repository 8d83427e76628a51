# ragged — a Dafny model of its retrieval-augmented-generation core

`ragged` wraps Pinecone (a hosted vector store) and OpenAI (embeddings and
chat completions) into a small retrieval-augmented-generation helper, the
`Ragged` class. Almost all of it is calls into those two services. This
project models the decisions taken between those calls, and proves what they
guarantee:

- **Relevance filtering** (`getContext`): a query is embedded, the top 3
  matches are fetched, and only matches whose score is present, non-zero and
  strictly above `minRelevance` (0.3 by default) are kept, in provider order.
- **Prompt assembly** (`makeLlmRequest`): a null context is refused with
  "Context is not available". The match texts are joined with line feeds into
  a context block. That block is placed between the START/END markers of the
  system message, after `prompt ?? <default sentence>`. The message list is the
  system message, then the user-role turns of the conversation in order, then
  the query.
- **Ingestion** (`addContext`): an empty input is refused softly with no
  provider call. The index is created (1536 dimensions, serverless on AWS in
  the given region) exactly when its name is not listed. Fragment i gets the id
  `key{i+1}` and its own text. The batch goes to a single upsert. Every failure
  becomes `{success: false, message: "error", error}`.
- **Index validation** (`getMatchesFromEmbeddings`): an empty index name is
  refused. The name must be listed exactly once. Missing `matches` read as
  none. A failed query is rethrown with the prefix "Error getting matches: ".
- **Input normalisation** (`getEmbeddings`): every line feed becomes a space
  before the text is embedded with `text-embedding-ada-002`. The first
  embedding of the reply is returned. Failures are rethrown with the prefix
  "Error calling OpenAI embedding API: ".

Each service is a value: a `PineconeClient` or `OpenAiClient` holds the
replies the service gives (a value for a call without arguments, a function
from request to reply otherwise). Each reply is an `Outcome`: `Ok(value)` or
`Thrown(error)`. `AddContext` is an imperative method. Besides its status
record, it returns the provider calls it made, in order, so that "no call",
"create only when absent" and "one upsert with the whole batch" can be stated.

Files: `wrappers.dfy` (Option, Error, Outcome), `sequences.dfy`
(`Array.prototype.filter`), `text.dfy` (join/split and decimal rendering),
`providers.dfy` (request and reply shapes and Pinecone's upsert semantics),
`embeddings.dfy` (ragged/getEmbeddings.ts), `matches.dfy`
(ragged/getMatches.ts) and `ragged.dfy` (ragged/class.ts).

Behaviour of the source worth noting:

- The system text is `prompt ?? default`. An empty prompt is kept as it is;
  only a null or undefined prompt is replaced.
- `getContext` always returns an array, so the "Context is not available"
  check can fire only for a context that is null or undefined. `LlmRequest`
  takes the context as an `Option` to model that check, and `MakeLlmRequest`
  shows that the check never fires on its own path.
- `addContext` checks that the index name appears at least once
  (`includes`). `getMatchesFromEmbeddings` requires it exactly once. An index
  listed twice is therefore not created by ingestion, but every query against
  it is refused.

## Model

| member | source | states |
|---|---|---|
| Wrappers.Render | ragged/getEmbeddings.ts:12 | `${e}` of an error: the name alone for an empty message, the message alone for an empty name, otherwise name, ": " and message |
| Wrappers.RenderFail | ragged/getMatches.ts:44 | a rethrown `new Error("")` renders as "Error", any other `new Error(m)` as "Error: m" |
| Text.Join | ragged/class.ts:53 | no texts join to ""; otherwise the result starts with the first text, ends with the last, and is one separator per gap longer than the texts |
| Text.NatToString | ragged/class.ts:127 | `${n}` is a non-empty string of decimal digits without a leading zero, one digit exactly below 10 |
| Sequences.Filter | ragged/class.ts:33-35 | the result is no longer than the input; it holds exactly the input elements that pass the test |
| Sequences.FilterAppend | ragged/class.ts:33-35 | filtering distributes over concatenation, so input order is kept |
| Sequences.FilterLengthOne | ragged/getMatches.ts:27 | a filter keeps exactly one element iff exactly one position passes the test |
| Text.SplitJoin | ragged/class.ts:53 | splitting the line-feed join of texts that contain no line feed gives the texts back |
| Text.ParseNatToString | ragged/class.ts:127 | the decimal rendering of `${i + 1}` reads back as the same number |
| Text.NatToStringInjective | ragged/class.ts:127 | different positions render as different decimal strings |
| Providers.Upserted | ragged/class.ts:133 | after an upsert the stored keys are the old keys plus the batch ids |
| Providers.UpsertedFinds | ragged/class.ts:133 | with distinct ids every batch record is stored under its id |
| Providers.UpsertedKeeps | ragged/class.ts:133 | keys the batch does not carry keep their old records |
| Providers.UpsertOverwrites | ragged/class.ts:133 | a second upsert whose ids cover the first leaves no trace of the first |
| Embeddings.Normalize | ragged/getEmbeddings.ts:5 | same length; every line feed becomes a space; every other character is unchanged |
| Embeddings.NormalizeRemovesLineFeeds | ragged/getEmbeddings.ts:5 | the normalised text has no line feed; carriage returns and all other characters stay in place |
| Embeddings.NormalizeIdempotent | ragged/getEmbeddings.ts:5 | normalising twice is normalising once |
| Embeddings.EmbeddingRequestFor | ragged/getEmbeddings.ts:3-6 | the request names model text-embedding-ada-002 and carries exactly the normalised input, a text of the same length with no line feed |
| Embeddings.EmbeddingFailure | ragged/getEmbeddings.ts:10-12 | the rethrown error is an Error whose message is the fixed prefix followed by the rendered cause |
| Embeddings.GetEmbeddings | ragged/getEmbeddings.ts:1-14 | success iff the reply resolved with a non-empty `data`; the result is the first entry's embedding; every failure carries the prefix, a provider failure wrapping its own error |
| Embeddings.GetEmbeddingsSeesNormalizedText | ragged/getEmbeddings.ts:5 | inputs that normalise alike get the same outcome |
| Matches.ListedOnce | ragged/getMatches.ts:27 | the listing check passes iff some listed index has the name and no two positions do |
| Matches.MatchesQuery | ragged/getMatches.ts:31-40 | the query targets the named index's default namespace with the caller's vector and topK, metadata included |
| Matches.QueryFailure | ragged/getMatches.ts:42-45 | the rethrown error's message is "Error getting matches: " followed by the rendered cause |
| Matches.GetMatchesFromEmbeddings | ragged/getMatches.ts:13-46 | empty name fails with "db index not provided" whatever Pinecone says; a failing listing propagates unchanged; no listing, or a name listed 0 or several times, fails with "Index <name> does not exist"; success iff all checks and the query pass; missing matches give []; a failed query is wrapped |
| Ragged.Relevant | ragged/class.ts:34 | a missing or zero score is never relevant; under a non-negative threshold relevance is exactly a present score strictly above it |
| Ragged.SelectRecords | ragged/class.ts:33-35 | every kept match is from the input and relevant; every relevant input match is kept; never more than the input |
| Ragged.SelectRecordsKeepsOrder | ragged/class.ts:33-35 | selection distributes over concatenation and keeps a single match iff it is relevant, so provider order is kept |
| Ragged.SelectedScores | ragged/class.ts:33-35 | no kept match has a missing score, a zero score (even under a negative threshold) or a score equal to the threshold |
| Ragged.RelevanceScenario | ragged/ragged.spec.ts:23-41 | scores 0.4 and 0.2 against 0.3 keep only the first match |
| Ragged.SystemText | ragged/class.ts:55-57 | a present prompt, the empty one included, is used as is; only a missing one becomes the default sentence |
| Ragged.SystemContent | ragged/class.ts:59-71 | the content is exactly as long as the system text, the template and the context block together |
| Ragged.SystemContentLayout | ragged/class.ts:59-71 | the system text, START marker, context block and END marker stand at fixed increasing offsets of the content |
| Ragged.SystemContentTemplate | ragged/class.ts:61-69 | the template head follows the system text, and the template tail, with the instructions on unknown answers and on not inventing, follows the context block |
| Ragged.ContextTexts | ragged/class.ts:53 | succeeds iff every match has metadata, giving each match's text in order; otherwise the TypeError for reading `text` |
| Ragged.ContextBlockRecoverable | ragged/class.ts:53 | no texts give the empty block; texts without line feeds can be split back out of the block |
| Ragged.UserMessages | ragged/class.ts:79 | exactly the user-role conversation messages are kept |
| Ragged.UserMessagesKeepOrder | ragged/class.ts:79 | the user-role filter keeps conversation order |
| Ragged.PromptMessages | ragged/class.ts:77-81 | length is user turns + 2; system message first; the user turns in the middle; the query as the last user message |
| Ragged.ConversationScenario | ragged/class.ts:77-81 | an assistant turn is dropped, a user turn kept, the query comes last |
| Ragged.LlmRequest | ragged/class.ts:49-82 | fails with "Context is not available" iff the context is missing; with a context it succeeds iff every match has metadata; the request uses gpt-3.5-turbo, no streaming, and the assembled messages |
| Ragged.EmptyContextProceeds | ragged/class.ts:49-53 | an empty but present context proceeds, with an empty context block |
| Ragged.FirstChoiceContent | ragged/class.ts:84-86 | succeeds iff the reply has a non-empty `choices`, giving the first choice's content |
| Ragged.HasFragments | ragged/class.ts:97 | a missing fragment list and an empty one have no fragments; a list with an entry has |
| Ragged.Failed | ragged/class.ts:136-138 | the catch record: success unset, message "error", the thrown error attached; distinct from the two fixed records |
| Ragged.StatusRecords | ragged/class.ts:97-135 | only the success record has success set; the soft rejection says "whoops, no context found!" and carries no error |
| Ragged.ListedNames | ragged/class.ts:104-105 | no index list gives no names; otherwise the names in listing order |
| Ragged.CreationSpec | ragged/class.ts:107-118 | the created index has the given name, 1536 dimensions, AWS serverless placement in the given region or us-east-1, and is awaited until ready |
| Ragged.Key | ragged/class.ts:127 | an id is "key" followed by the decimal rendering of the position |
| Ragged.KeysDistinct | ragged/class.ts:127 | different positions give different ids |
| Ragged.IngestBatch | ragged/class.ts:123-131 | one record per fragment: id `key{i+1}`, its embedding and its text; ids pairwise distinct |
| Ragged.IngestScenario | ragged/ragged.spec.ts:92-95 | fragments context1, context2 are upserted as key1 and key2 with their texts |
| Ragged.ReingestOverwrites | ragged/class.ts:123-133 | ingesting the same fragments again overwrites every record of the first ingestion, with no accumulation |
| Ragged.EmbedFragments | ragged/class.ts:123-131 | if every fragment embeds: the batch and one embedding call per fragment in order; otherwise the first failing fragment's error, after the calls up to and including it |
| Ragged.Ragged.constructor | ragged/class.ts:11-17 | keeps the Pinecone key and the OpenAI client built from the OpenAI key |
| Ragged.Ragged.GetContext | ragged/class.ts:19-37 | embedding and matching errors propagate unchanged; otherwise the relevant top-3 matches under the threshold, 0.3 when none is given |
| Ragged.Ragged.GetContextAsksTopThree | ragged/class.ts:26-31 | only top-3 queries with metadata are asked: services that agree on them give the same context |
| Ragged.Ragged.MakeLlmRequest | ragged/class.ts:39-90 | context errors propagate unchanged; building the request can fail only with the TypeError for a match without metadata, never with "Context is not available"; chat errors propagate unchanged; otherwise the first choice's content |
| Ragged.Ragged.AddContext | ragged/class.ts:92-140 | no fragments: "whoops, no context found!" and no call; otherwise the listing comes first; the index is created iff not listed; fragments are embedded in order up to the first failure; one upsert of the whole batch; success only as "success", every failure as an "error" record |

## Left out

- Network calls, `async`/`await` and response parsing: each reply of Pinecone and OpenAI, parsed JSON included, is an input value or function. Timing, retries and concurrency do not arise.
- `new Pinecone({ apiKey })` and `new OpenAIApi(new Configuration({ apiKey }))` are functions from a key to a client, given as parameters. No key is validated.
- Embedding vectors are sequences of reals that are only passed along. The 1536 dimension is a constant in the creation request and is never checked.
- Scores are reals. Floating point, and NaN in particular, is not modelled; a NaN score fails the comparison in the source anyway.
- Thrown values are taken to be errors with a name and a message, rendered by `${e}` as `Error.prototype.toString` does. Throwing non-error values, and errors whose `toString` is overridden, is not modelled.
- `console.log` and `console.error` output.
- The `try { … } catch (e) { throw e }` in `makeLlmRequest`, which changes nothing.
- The exact text of the TypeErrors raised by reading a property of `undefined` (`data[0]`, `choices[0]`, `metadata.text`). They are modelled by name and property, not by the engine's exact wording.
- Metadata fields other than `text` (url, chunk, hash), which the core never reads. A metadata object without `text`, which `join` would render as an empty string, is not modelled because the type makes `text` a string.
- Defaulted parameters (`minRelevance`, `pineconeCloudRegion`): a missing value (None) stands for `undefined`, which takes the default. An explicit `null`, which JavaScript passes through (a `null` region reaches Pinecone, a `null` threshold compares as 0), is not modelled.
- Ragged.Ragged.MakeLlmRequest: `minRelevance` is a number here. An undefined value from an untyped caller, which would fall back to 0.3 inside `getContext`, is not modelled.
- The role type of chat messages is a plain string, as the comparison `role === "user"` is the only use.
- index.ts (a demo entry point with no logic) is not part of this model.
