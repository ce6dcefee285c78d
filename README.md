# SWAN retrieval-augmented generation pipeline: a Dafny model

This project models the deterministic core of a three-stage IoT design generator. A user prompt
goes through three stages:

- a *coder* model writes Arduino code for it;
- a *compressor* model condenses prompt and code into a hardware spec (the "ir");
- a *generator* model turns the ir into a Wokwi circuit JSON.

The RAG variant retrieves similar stored examples before each stage. It aborts when nothing
similar exists. The store, the retrieval post-processing, the event streams, the prompt
construction, the simulated models and the `models` settings validator are modelled. Properties
about them are proved.

Modules, one per source file (plus shared vocabulary):

- `Wrappers`: `Option` and `Result`.
- `PyText`: the Python string operations the code relies on: `str.strip`, `str.split(sep)`,
  `sep.join`, `str.split()` with no argument, `int()` on ASCII digits and `f"{i}"`.
- `Records`: record, node and metadata types; `chunk_<k>` ids and their resolution.
- `RagRun` (`app/rag/run.py`): the five-node decomposition, `query` over a search's hits, and
  `ingest_feedback_chunk` on a class `ExampleStore` holding vectors, metadata and records.
  Also `filter_rag_context`.
- `RagEmbed` (`app/rag/embed.py`): the bulk decomposer, the flatten loop of `main`, the metadata
  projection and the text selection of `embed_nodes`.
- `Prompting`: templates with holes (`str.format`), the chat framing, completion shapes and token
  extraction. All five prompt templates are included with their exact text.
- `StageEvents`: the `start`/`progress`/`done` events, the stage generator loop and the
  forwarding loop of the RAG pipeline.
- `CoderInference`, `CompressorInference`, `GeneratorInference` (`app/inferences/*.py`).
- `ChainedService` (`app/services/chained_service.py`).
- `RagChainedService` (`app/services/rag_chained_service.py`).
- `SimulatedLlms` (`app/llm_models/simulated_llms.py`): class `SimulatedLlama` with the exact
  canned response table.
- `Config` (`app/config.py`): `split_models`.

The collaborators are parameters:

- the nearest-neighbour search is a function from a text and `k` to hits `(distance, row)` in
  search order;
- the embedder is a function from text to vector;
- each language model is a function from a request to a completion (or to a sequence of stream
  chunks);
- Python's `str()` of a context list is a function `show`.

A Python generator is modelled as the complete sequence of what it yields.

Notes on the code's behaviour:

- For an empty retrieval the best score is the constant `1.0`, not the default threshold. It is
  compared against `0.5`, so an empty stage-1 retrieval always aborts
  (`RagChainedService.AbortsExactlyWhenNothingRetrieved`).
- A failing model call is not turned into an error event: the code has no handling for it.
- Overwriting a record leaves its old vectors and metadata rows in place; they now resolve to the
  new record.

## Model

| member | source | states |
|---|---|---|
| Records.MetaOf | app/rag/run.py:174-175 | a metadata row carries the node's id, its type name and its record id, and no text |
| Records.MetaRows | app/rag/run.py:174-175 | one metadata row per node, in node order |
| Records.EmbedTexts | app/rag/embed.py:64-66 | one embedding row per node, the embedding of that node's text, in node order |
| Records.ResolveChunk | app/rag/run.py:132-137 | a resolved record index is always below the record count |
| Records.ChunkIdRoundTrip | app/rag/run.py:133 | parsing the last `_` segment of `chunk_<k>` gives back `k`, for every integer `k` |
| Records.ResolveChunkId | app/rag/run.py:132-137 | `chunk_<k>` resolves to `k` exactly when `0 <= k < count`, otherwise it is skipped |
| PyText.Strip | app/config.py:26 | the result has no surrounding whitespace, keeps only characters of the input, is empty exactly when the input is all whitespace, and equals an already trimmed input |
| PyText.StripIsSlice | app/config.py:26 | `strip()` gives a slice of the input that ends where `rstrip()` stops, with only whitespace before it and after it |
| PyText.StripIdempotent | app/config.py:26 | stripping twice is stripping once |
| PyText.StripTrailingSpace | app/services/chained_service.py:62-63 | a trailing whitespace character makes no difference after stripping |
| PyText.Split | app/config.py:26 | `split(sep)` gives at least one piece and no piece contains the separator |
| PyText.Join | app/rag/run.py:83-89 | `sep.join` of no pieces is `""`, otherwise it starts with the first piece; `JoinSplit`, `SplitJoin` and `WordsOfJoin` tie it to splitting |
| PyText.JoinSplit | app/config.py:26 | joining the pieces of a split with the separator gives back the text |
| PyText.SplitJoin | app/config.py:26 | splitting a join of separator-free pieces gives back the pieces |
| PyText.Words | app/llm_models/simulated_llms.py:145 | every word of `split()` is non-empty and free of whitespace; a text starting with a non-space has a word |
| PyText.WordsEmpty | app/llm_models/simulated_llms.py:145 | `split()` is empty exactly when the text is all whitespace |
| PyText.WordsCoverText | app/llm_models/simulated_llms.py:145 | the words concatenated are the text with its whitespace removed |
| PyText.WordsOfJoin | app/llm_models/simulated_llms.py:145 | words joined by single spaces split back into the same words |
| PyText.IntToString | app/rag/run.py:75 | the decimal text of an integer is non-empty, trimmed, and only digits and `-` |
| PyText.ParseInt | app/rag/run.py:133 | `int()` of an all-whitespace text is a `ValueError`, and a parsed text holds a digit; `ParseIntStrips` and `ParseIntToString` give its full meaning |
| PyText.ParseIntStrips | app/rag/run.py:133 | `int()` ignores surrounding whitespace |
| PyText.ParseIntToString | app/rag/run.py:133 | `int()` of the decimal text of `i` is `i` |
| RagRun.PartTypes | app/rag/run.py:82-83 | one type per part in array order, `""` for a part without `type` |
| RagRun.LinkLine | app/rag/run.py:89 | a link's line is its first two elements through `str`, joined by `" → "` |
| RagRun.LinkLines | app/rag/run.py:88-90 | at most one line per connection; all of them when all are lists of length at least 2, none when none is |
| RagRun.ChunkToNodes | app/rag/run.py:73-96 | exactly five nodes in the order Prompt, Code, Parts, Output, Circuit_Space, ids `chunk_<k>_<suffix>`, all with record id `chunk_<k>`, texts the record's fields with `""` defaults, the parts text and the connection text |
| RagRun.PlaceholderNodesAreEmpty | app/rag/run.py:76-95 | a `{}` placeholder record decomposes into five empty texts |
| RagRun.OutputTextLines | app/rag/run.py:88-91 | the Output text splits on `"\n"` into exactly the link lines, when there is one at least and none contains a newline |
| RagRun.NodesResolveToRecord | app/rag/run.py:132-137 | every node of record `k` resolves back to record `k` in a store of more than `k` records |
| RagRun.SeenGrows | app/rag/run.py:128-130 | the set of seen record ids only grows during a query |
| RagRun.QueryScoresWithinThreshold | app/rag/run.py:119-121 | every result's score is at most the threshold, equality included |
| RagRun.QueryChunkIdsDistinct | app/rag/run.py:128-130 | no result repeats a record id, and none has an id seen before |
| RagRun.QueryFrom | app/rag/run.py:118-153 | the results of `query` over hits in search order: at most one per hit; what they are is stated by `QueryScoresWithinThreshold`, `QueryChunkIdsDistinct`, `QueryScoresSorted`, `QuerySelectedHitIncluded`, `QueryResultsFromSelectedHits` and `QueryIgnoresDistantHits` |
| RagRun.QueryScoresSorted | app/rag/run.py:139-153 | for hits sorted by distance the scores are non-decreasing and none is below the first hit's distance |
| RagRun.SelectedShift | app/rag/run.py:118-130 | whether hit `j + 1` is the first of its record is decided by the remaining hits after the first one's step |
| RagRun.QuerySelectedHitIncluded | app/rag/run.py:128-151 | the first hit within the threshold for a record id, if its id resolves, yields its result |
| RagRun.QueryResultsFromSelectedHits | app/rag/run.py:118-151 | every result comes from the first in-threshold hit of its record id, through resolution |
| RagRun.QueryIgnoresDistantHits | app/rag/run.py:119-123 | the metadata of hits beyond the threshold is never read |
| RagRun.FilterRecord | app/rag/run.py:209 | the projection has exactly the requested keys present in the record, their values unchanged, each once |
| RagRun.FilterRagContext | app/rag/run.py:207-209 | the projection of a list has its length, and each entry has exactly the requested keys present in its input entry with their values |
| RagRun.ProjectTwo | app/rag/run.py:209 | projecting onto two present keys gives those two pairs, in field order |
| RagRun.Padding | app/rag/run.py:182-183 | the padding is `n` `{}` placeholders, none for `n <= 0` |
| RagRun.Place | app/rag/run.py:177-184 | index = count appends; an index in range overwrites that slot only; a larger index pads with placeholders to length index + 1; a negative index appends; no other slot changes |
| RagRun.IngestKeepsRowsResolvable | app/rag/run.py:168-184 | after ingesting at a non-negative index every metadata row still resolves, and the five new rows resolve to the ingested record |
| RagRun.ResolveMonotone | app/rag/run.py:136 | a row that resolves keeps resolving to the same record when the store grows |
| RagRun.NegativeIndexRowsDangle | app/rag/run.py:163-184 | ingesting at a negative index appends the record but its five rows resolve to no record |
| RagRun.SeenAfterAvoids | app/rag/run.py:128-130 | a record id that no in-threshold hit carries is never added to the seen set |
| RagRun.FirstCarrierSelected | app/rag/run.py:118-130 | if some in-threshold hit carries a record id, the first such hit is the one selected for it |
| RagRun.IngestedRecordIsFound | app/rag/run.py:159-184 | in any search where some hit within the threshold lands on one of the five new rows, wherever it sits among the hits, the results include one for the ingested record with its prompt, code, output and circuit space (defaults for missing fields) |
| RagRun.ExampleStore.constructor | app/rag/run.py:102 | the store holds the loaded vectors, metadata and records |
| RagRun.ExampleStore.Query | app/rag/run.py:110-153 | the filtering, de-duplicating and resolving loop returns exactly the specification `QueryFrom` |
| RagRun.ExampleStore.AppendMetadata | app/rag/run.py:174-175 | the metadata grows by one row per node in order; nothing else changes |
| RagRun.ExampleStore.PlaceRecord | app/rag/run.py:177-184 | the records become `Place(old records, record, index)`; nothing else changes |
| RagRun.ExampleStore.Ingest | app/rag/run.py:159-201 | on matching widths: five embedding rows and five metadata rows appended in node order, record placed, summary with id, index, 5 nodes and the new totals, rows kept aligned with metadata; on a width mismatch an error and the store unchanged |
| RagEmbed.FirstTwo | app/rag/embed.py:49 | `conn[:2]` as strings to join: at most two, the first elements of a list or the first characters of a string entry; none when such an element is not a string or the entry cannot be sliced |
| RagEmbed.BulkLinkLines | app/rag/embed.py:48-49 | the lines exist exactly when every connection's first two elements are strings; then one line per connection, its elements joined by `" → "` |
| RagEmbed.ChunkToNodes | app/rag/embed.py:30-56 | five nodes, or the error exactly when a connection line cannot be built |
| RagEmbed.BulkMatchesStore | app/rag/embed.py:30-56 | the bulk decomposer has the same ids, types, record ids and order as the store's, and the same texts except the Output node, which holds its own lines |
| RagEmbed.TextLinkLine | app/rag/embed.py:49 | for a list of at least two strings, the line equals the store's line |
| RagEmbed.TextLinksAgree | app/rag/embed.py:48-49 | when every connection is a list of at least two strings, both decomposers render the same lines |
| RagEmbed.DecomposersAgree | app/rag/embed.py:30-56 | with such connections both decomposers give the same five nodes |
| RagEmbed.ShortConnectionKept | app/rag/embed.py:49 | a one-element connection contributes its element here, and nothing in the store's decomposer |
| RagEmbed.Flatten | app/rag/embed.py:76-78 | the loop over the records returns the specification `Flattened` |
| RagEmbed.DecompositionsStayFailed | app/rag/embed.py:76-78 | once a record fails to decompose, the whole build fails with that error |
| RagEmbed.DecompositionsFail | app/rag/embed.py:76-78 | the build fails exactly when some record fails to decompose |
| RagEmbed.DecompositionsEntries | app/rag/embed.py:76-78 | a successful build has, in record order, each record's own five nodes |
| RagEmbed.FlatLayout | app/rag/embed.py:77-78 | extending by five-node groups gives `5 * n` nodes, group `c` at positions `5c` to `5c+4` |
| RagEmbed.FlattenedLayout | app/rag/embed.py:76-78 | the node list has `5 * len(chunks)` nodes, and the five at `5c..5c+4` are record `c`'s decomposition |
| RagEmbed.PositionResolves | app/rag/embed.py:89-96 | the node at position `5c+j` resolves to record `c` |
| RagEmbed.NodeResolves | app/rag/embed.py:76-96 | in a list of five-node decompositions node `p` names record `p / 5` |
| RagEmbed.BuildIsConsistent | app/rag/embed.py:76-96 | the embeddings and the metadata rows (`MetaRows`: id, type and record id of each node) have the same length, every metadata row resolves to a record, and position `p` of both describes the same node: embedding `p` is the embedding of node `p`'s text, row `p` is node `p`'s metadata, and it resolves to record `p / 5` |
| Prompting.FormatAppend | app/inferences/coder_inference.py:37-41 | formatting a concatenation of templates is the concatenation of the formatted parts |
| Prompting.FormatAtHole | app/inferences/coder_inference.py:37-41 | a hole is replaced by its argument between the formatted text on either side |
| Prompting.FormatShowsArg | app/inferences/coder_inference.py:37-41 | a template that uses a slot shows that argument verbatim in its output |
| Prompting.FormatReadsOnlyItsHoles | app/inferences/compressor_inference.py:48-51 | arguments for slots the template does not use do not change the output |
| Prompting.ListContextIsNeverEmpty | app/services/rag_chained_service.py:43 | a list context is never equal to `""`, so the with-context templates are used |
| Prompting.SystemChat | app/inferences/coder_inference.py:42 | the system/assistant chat input has the length of its three frame parts plus the message |
| Prompting.SystemUserChat | app/inferences/compressor_inference.py:54-58 | the system/user/assistant chat input has the length of its frame parts plus message and user block |
| Prompting.SystemChatRoundTrip | app/inferences/coder_inference.py:42 | the message can be read back unchanged from the chat input |
| Prompting.SystemUserChatLayout | app/inferences/compressor_inference.py:53-58 | the chat input starts with the system block holding the message and ends with the user block and the assistant header |
| Prompting.TextOfCases | app/inferences/coder_inference.py:63 | the token is `choices[0].text`, and `""` when `choices` or `text` is missing |
| Prompting.Tokens | app/inferences/coder_inference.py:62-63 | one token per stream chunk, in order, each the chunk's text with its default |
| StageEvents.DoneLabelOnlyOnDone | app/services/rag_chained_service.py:45-46 | an event has the label `<s>_done` exactly when it is stage `s`'s done event, so its payload key is present |
| StageEvents.Progress | app/inferences/coder_inference.py:69-70 | one progress event per token, in order |
| StageEvents.StreamStage | app/inferences/coder_inference.py:66-72 | the generator loop yields `Trace`: start, one progress per token, done with the concatenated tokens |
| StageEvents.TraceShape | app/inferences/coder_inference.py:66-72 | a trace has tokens + 2 events: start first, token `i` at position `i + 1`, done with the concatenation last |
| StageEvents.Forward | app/services/rag_chained_service.py:43-46 | every event is forwarded unchanged and in order, and the variable holds the last done payload of the stage, `""` if none |
| StageEvents.LastPayloadWithoutDone | app/services/rag_chained_service.py:42-46 | without a done event of the stage the variable keeps its initial value |
| StageEvents.TracePayload | app/services/rag_chained_service.py:43-46 | forwarding a stage's trace leaves its concatenated tokens in the variable |
| StageEvents.OtherTracePayload | app/services/rag_chained_service.py:57-61 | forwarding another stage's trace leaves the variable unchanged |
| CoderInference.CodeStream | app/inferences/coder_inference.py:52-63 | one token per chunk of the streaming call for the chat input, in order, each the chunk's text with the `""` default |
| CoderInference.GenerateCode | app/inferences/coder_inference.py:35-49 | the non-stream answer is the extracted text with surrounding whitespace stripped |
| CoderInference.Generate | app/inferences/coder_inference.py:66-72 | yields the trace of the tokens streamed for the chat input |
| CoderInference.TemplateChoice | app/inferences/coder_inference.py:53-58 | context `""` gives the plain template with the stripped prompt; a list context gives the with-context template with the prompt and the list's text |
| CoderInference.PromptPaddingIgnored | app/inferences/coder_inference.py:54-58 | whitespace around the prompt does not change the chat input |
| CoderInference.MessageHoldsPrompt | app/inferences/coder_inference.py:53-58 | the system message contains the stripped prompt verbatim, whatever the context |
| CoderInference.ChatInputFramesMessage | app/inferences/coder_inference.py:60 | the chat input's system block is the stripped message |
| CoderInference.GenerateDonePayload | app/inferences/coder_inference.py:66-72 | the stage yields two events more than the model streams chunks, and its done payload is the concatenated tokens |
| CompressorInference.IrStream | app/inferences/compressor_inference.py:42-62 | one token per chunk of the streaming call for the chat input, in order, each the chunk's text with the `""` default |
| CompressorInference.Generate | app/inferences/compressor_inference.py:64-70 | yields the trace of the tokens streamed for the chat input |
| CompressorInference.TemplateChoice | app/inferences/compressor_inference.py:43-51 | context `""` gives the stripped plain template; a list context gives the stripped with-context template with the list's text; the prompt is not stripped |
| CompressorInference.PlainTemplateIgnoresContext | app/inferences/compressor_inference.py:48-51 | the plain template's text does not depend on any context |
| CompressorInference.ChatKeepsPromptAndCode | app/inferences/compressor_inference.py:53-58 | the chat input starts with the system block of the message and ends with the user block `prompt + "\n\n" + code`, verbatim, then the assistant header |
| CompressorInference.GenerateDonePayload | app/inferences/compressor_inference.py:64-70 | two events more than stream chunks, done payload the concatenated tokens |
| GeneratorInference.JsonStream | app/inferences/generator_inference.py:41-53 | one token per chunk of the streaming call for the chat input, in order, each the chunk's text with the `""` default; the context is not read (`ContextIgnored`) |
| GeneratorInference.Generate | app/inferences/generator_inference.py:56-62 | yields the trace of the tokens streamed for the chat input |
| GeneratorInference.ContextIgnored | app/inferences/generator_inference.py:41-48 | the streamed tokens do not depend on the context |
| GeneratorInference.MessageHoldsSpecification | app/inferences/generator_inference.py:48-50 | the template shows the specification verbatim, and the chat input's system block is the stripped message |
| GeneratorInference.GenerateDonePayload | app/inferences/generator_inference.py:56-62 | two events more than stream chunks, done payload the concatenated tokens |
| ChainedService.GenerateCode | app/services/chained_service.py:61-70 | the answer has no surrounding whitespace |
| ChainedService.CompressToIr | app/services/chained_service.py:73-86 | the answer has no surrounding whitespace |
| ChainedService.GenerateJson | app/services/chained_service.py:89-98 | the answer has no surrounding whitespace |
| ChainedService.RunPipeline | app/services/chained_service.py:101-106 | code from the prompt, ir from the prompt and that code, json from the ir alone; all three stripped |
| ChainedService.CoderChatMatchesStage | app/services/chained_service.py:61-63 | the extra trailing space of this service's template is stripped away: the chat input is the coder stage's for context `""` |
| ChainedService.CompressorChatMatchesStage | app/services/chained_service.py:73-80 | the chat input is the compressor stage's for context `""` |
| ChainedService.GeneratorChatMatchesStage | app/services/chained_service.py:89-91 | the chat input is the generator stage's |
| ChainedService.JsonDependsOnlyOnIr | app/services/chained_service.py:101-106 | prompts whose ir agrees give the same json |
| ChainedService.MissingTextGivesEmpty | app/services/chained_service.py:70 | an answer without `choices` or `text` gives `""` |
| RagChainedService.Invoke | app/services/rag_chained_service.py:8-11 | returns the results of the default query (top 3, threshold 0.4) unchanged |
| RagChainedService.AsDicts | app/rag/run.py:140-151 | one dictionary per result, in order |
| RagChainedService.AsDictFields | app/rag/run.py:140-151 | a result dictionary holds the record's prompt, code, output and circuit space under their keys |
| RagChainedService.StageContextFields | app/services/rag_chained_service.py:14-15 | projecting results onto two of the record keys keeps their length and gives each entry those two pairs |
| RagChainedService.BestScore | app/services/rag_chained_service.py:24-27 | the minimum score of the results (attained by one of them), `1.0` when there is none |
| RagChainedService.SectionShape | app/services/rag_chained_service.py:39-46 | a section is the retrieval notice, the stage start, and ends with the stage's done event |
| RagChainedService.AssembleLayout | app/services/rag_chained_service.py:38-72 | the three notices, stage starts and done events sit at the positions given by the token counts |
| RagChainedService.CodeSection | app/services/rag_chained_service.py:38-46 | the stage-1 notice then the coder's events, and `code` is their concatenated tokens |
| RagChainedService.IrSection | app/services/rag_chained_service.py:49-61 | the stage-2 notice then the compressor's events for that code, and `ir` is their concatenated tokens |
| RagChainedService.JsonSection | app/services/rag_chained_service.py:64-72 | the stage-3 notice then the generator's events for that ir |
| RagChainedService.RunPipeline | app/services/rag_chained_service.py:18-72 | the events are exactly `PipelineTrace`: the abort notice alone when the best score exceeds 0.5, otherwise the three notices and stage streams in order, each retrieval made with the previous stage's output |
| RagChainedService.AbortsExactlyWhenNothingRetrieved | app/services/rag_chained_service.py:22-36 | the run aborts exactly when stage 1 retrieves nothing, and then yields only the abort notice with score 1.0 |
| RagChainedService.PipelineOrder | app/services/rag_chained_service.py:38-72 | without an abort the run is notice 1 and the coder's events, notice 2 (retrieved for the code) and the compressor's events for that code, notice 3 (retrieved for the ir) and the generator's events for that ir |
| RagChainedService.StageOneContext | app/services/rag_chained_service.py:38 | the stage-1 notice holds each example's prompt and code |
| RagChainedService.StageTwoContext | app/services/rag_chained_service.py:49-52 | the stage-2 notice holds each example's prompt and circuit space |
| RagChainedService.StageThreeContext | app/services/rag_chained_service.py:64-65 | the stage-3 notice holds each example's circuit space and output |
| SimulatedLlms.ResponseFor | app/llm_models/simulated_llms.py:128-130 | the table entry for a known name, `"[Simulation Missing]"` otherwise |
| SimulatedLlms.KnownModels | app/llm_models/simulated_llms.py:4-124 | the table knows exactly coder, compressor, generator, baseline and base |
| SimulatedLlms.StreamChunks | app/llm_models/simulated_llms.py:144-146 | one chunk per whitespace-separated word, in order |
| SimulatedLlms.SimulatedLlama.constructor | app/llm_models/simulated_llms.py:128-130 | the instance keeps its name and the text looked up for it |
| SimulatedLlms.SimulatedLlama.Call | app/llm_models/simulated_llms.py:132-142 | without streaming, one choice with the response text; with streaming, the word chunks; the prompt, `max_tokens` and `stop` play no part |
| SimulatedLlms.SimulatedLlama.StreamResponse | app/llm_models/simulated_llms.py:144-147 | the loop yields the word chunks |
| SimulatedLlms.WholeTextUnchanged | app/llm_models/simulated_llms.py:132-140 | the non-stream text comes back unchanged |
| SimulatedLlms.StreamTokens | app/llm_models/simulated_llms.py:144-146 | token `i` is word `i` followed by one space, and the word is non-empty and free of whitespace |
| SimulatedLlms.StreamConcat | app/llm_models/simulated_llms.py:145-146 | the concatenated stream is the words joined by spaces plus a trailing space, and empty exactly when the text is all whitespace |
| SimulatedLlms.StreamRoundTrip | app/llm_models/simulated_llms.py:145-146 | the concatenated stream has the text's words |
| SimulatedLlms.ConcatBlanksOnly | app/llm_models/simulated_llms.py:145-146 | concatenating texts whose only whitespace is `' '` keeps that property |
| SimulatedLlms.StreamFlattensWhitespace | app/llm_models/simulated_llms.py:145-146 | for every response text, the concatenated stream holds no whitespace but `' '`; line breaks and tabs are not preserved, so no `"\n"` survives |
| Config.CleanPieces | app/config.py:26 | no more names than pieces |
| Config.SplitModels | app/config.py:23-27 | a non-string value is returned unchanged, a string becomes a list |
| Config.CleanPiecesAppend | app/config.py:26 | each piece contributes on its own, in piece order |
| Config.CleanPiecesSingle | app/config.py:26 | a blank piece contributes nothing, any other its stripped text |
| Config.CleanPiecesNames | app/config.py:26 | every name is non-blank and has no surrounding whitespace |
| Config.CleanPiecesAvoid | app/config.py:26 | a character absent from every piece is absent from every name |
| Config.SplitModelsNames | app/config.py:25-26 | on a string every name is non-empty, trimmed and comma-free |
| Config.SplitModelsOfJoin | app/config.py:23-27 | comma-joined names that are non-empty, trimmed and comma-free come back as the same list |
| Config.CleanTrimmed | app/config.py:26 | a list of non-empty trimmed names is kept as it is |

## Left out

- The embedding model and the FAISS search are parameters: an embedder from text to a vector,
  and a search from a text to its hits in search order. The padding FAISS uses when `k` exceeds
  the row count (index `-1`) is modelled as a shorter hit list. This assumes the padded distance
  (the largest float for `IndexFlatL2`) exceeds the threshold; with a threshold at least that
  large, the source reads the last metadata row for a padded hit, which the model does not do.
- `RagRun.ExampleStore.Query` requires every hit to name a metadata row. FAISS bounds an index
  only by the number of vector rows (app/rag/run.py:66, 186), so this requires assumes that the
  metadata file loaded beside the vectors (app/rag/run.py:40-42) has at least as many rows;
  nothing in the source checks that, and misaligned files raise `IndexError` there. The same
  assumption is behind `RagChainedService.RunPipeline` requiring the search to return rows of
  the store.
- A record's `output` keeps `parts` (each part's `type` and its other keys, in order),
  `connections` and its other keys (in order), so `query` and the stage-3 context hand it on
  whole. Values the model does not look into are kept as their JSON text, and the position of
  `parts` and `connections` among the other keys is not kept.
- Record fields are text or absent (`Option<string>`). A part that is not a dictionary, or
  whose `type` is a number or `null`, makes the parts join raise `TypeError`
  (app/rag/run.py:83, app/rag/embed.py:44); `prompt`, `code` or `circuit_space_representation`
  holding `null` or a number gives a node whose text is not a string
  (app/rag/run.py:77-78, 94). Neither path is modelled.
- `RagRun.ExampleStore.Ingest` treats an empty vector matrix as compatible with any width. An
  empty matrix loaded from disk still has a width, which the model does not keep. A failure of
  the embedder is not modelled.
- File loading and saving (`_ensure_files_exist`, `_load_data`, `_save_embeddings`, `_save_json`,
  the `np.save`/`json.dump` calls in `main`) and `print` are I/O. The store is constructed from
  already-loaded sequences.
- `time.sleep` in the simulated stream is timing only.
- The module-level model instances (`shared_llms`, the five `SimulatedLlama` globals) are
  wiring. They would be instances of the class or parameters of the stages.
- Concurrency: the store is modelled single-threaded.
- `PyText.ParseInt` accepts ASCII digits with an optional sign and surrounding whitespace only.
  Python's `int()` also accepts other Unicode digits and `_` separators; `_` cannot occur after
  `split("_")`.
- A completion whose `choices` list is empty (an `IndexError` in the source) is not modelled:
  `choices` is either absent or holds a first choice.
- Connection elements are text or some other JSON value; `str()` of a non-text value is carried
  as an opaque rendering. `ch.get("output", {})` holding a non-dict, or `text` holding a
  non-string, is not modelled.
- Python's `str()` of a context list, as the templates render it, is the parameter `show`. The
  model does not define that rendering.
- The template wording is carried as exact constants, but nothing is proved about the wording.
  The unused `GENERATOR_PROMPT_WITH_CONTEXT` is not included.
- Python generators are lazy and can be stopped early by the consumer. The model gives the full
  sequence of what they yield.
- `RagChainedService.RunPipeline` keeps the json stage's payload in `code` as the source does.
  The value is not used afterwards, so the method returns only the events.
- The HTTP routes, Celery tasks, database, monitor, baseline service and model registry are
  outside this model.
