/** The RAG chained pipeline: retrieve examples for the user prompt, abort
    when none is close enough, and otherwise run the coder, compressor and
    generator stages, each given the examples retrieved for the previous
    stage's output, projected to the fields that stage uses. */
module RagChainedService {
  import opened Wrappers
  import opened PyText
  import opened Records
  import opened RagRun
  import opened Prompting
  import opened StageEvents
  import CoderInference
  import CompressorInference
  import GeneratorInference

  /** `query(prompt, 3)` with its default threshold. */
  const TopK: nat := 3
  const DefaultThreshold: real := 0.4

  /** A best score above this aborts the run. */
  const AbortThreshold: real := 0.5
  const AbortReason := "No similar examples found in our dataset. Please try another query."

  /** The collaborators: the nearest-neighbour search of a text (hits in
      search order), the three streaming models, and Python's `str()` of a
      context list as the templates render it. */
  datatype Services = Services(
    search: (string, nat) -> seq<Hit>,
    coder: StreamLlm,
    compressor: StreamLlm,
    generator: StreamLlm,
    show: seq<Dict> -> string)

  /** Every search names rows of the store. */
  ghost predicate SearchIn(svc: Services, rows: int) {
    forall text :: HitsIn(svc.search(text, TopK), rows)
  }

  /** What `invoke(text)` returns over a store with these rows and records. */
  ghost function Retrieved(svc: Services, metadata: seq<Meta>, chunks: seq<ExampleRecord>, text: string)
    : seq<QueryResult>
    requires SearchIn(svc, |metadata|)
  {
    QueryFrom(svc.search(text, TopK), DefaultThreshold, metadata, chunks, {})
  }

  /** `invoke`: the query's results, unchanged. */
  method Invoke(store: ExampleStore, svc: Services, text: string) returns (results: seq<QueryResult>)
    requires SearchIn(svc, |store.metadata|)
    ensures results == Retrieved(svc, store.metadata, store.chunks, text)
  {
    assert HitsIn(svc.search(text, TopK), |store.metadata|);
    results := store.Query(svc.search(text, TopK), DefaultThreshold);
    if |results| == 0 {
      results := [];
    }
  }

  function AsDicts(results: seq<QueryResult>): (ds: seq<Dict>)
    ensures |ds| == |results|
    ensures forall i :: 0 <= i < |results| ==> ds[i] == AsDict(results[i])
  {
    seq(|results|, i requires 0 <= i < |results| => AsDict(results[i]))
  }

  /** `filter_rag_context(results, fields)`. */
  function StageContext(results: seq<QueryResult>, fields: seq<string>): seq<Dict> {
    FilterRagContext(AsDicts(results), fields)
  }

  /** `min(item.get("score", 1.0) for item in ...)`, or `1.0` for no items. */
  function BestScore(results: seq<QueryResult>): (best: real)
    ensures results == [] ==> best == 1.0
    ensures results != [] ==> exists i :: 0 <= i < |results| && best == results[i].score
    ensures forall i :: 0 <= i < |results| ==> best <= results[i].score
    decreases |results|
  {
    if results == [] then 1.0
    else if |results| == 1 then results[0].score
    else
      var rest := BestScore(results[1..]);
      if results[0].score <= rest then results[0].score else rest
  }

  /** The events of a run: the abort notice alone, or the three retrieval
      notices, each followed by its stage's events. */
  ghost function PipelineTrace(svc: Services, metadata: seq<Meta>, chunks: seq<ExampleRecord>, prompt: string)
    : seq<Event>
    requires SearchIn(svc, |metadata|)
  {
    var raw1 := Retrieved(svc, metadata, chunks, prompt);
    if BestScore(raw1) > AbortThreshold then [Abort(AbortReason, BestScore(raw1))]
    else
      var ctx1 := StageContext(raw1, ["prompt", "code"]);
      var codeTokens := CoderInference.CodeStream(svc.coder, prompt, Items(ctx1), svc.show);
      var code := Concat(codeTokens);
      var ctx2 := StageContext(Retrieved(svc, metadata, chunks, code), ["prompt", "circuit_space"]);
      var irTokens := CompressorInference.IrStream(svc.compressor, prompt, code, Items(ctx2), svc.show);
      var ir := Concat(irTokens);
      var ctx3 := StageContext(Retrieved(svc, metadata, chunks, ir), ["circuit_space", "output"]);
      var jsonTokens := GeneratorInference.JsonStream(svc.generator, ir, Items(ctx3));
      Assemble(ctx1, codeTokens, ctx2, irTokens, ctx3, jsonTokens)
  }

  /** A retrieval notice followed by the events of the stage it feeds. */
  function Section(step: int, ctx: seq<Dict>, s: Stage, tokens: seq<string>): seq<Event> {
    [RagDone(step, ctx)] + Trace(s, tokens)
  }

  /** The three sections of a run, in stage order. */
  function Assemble(ctx1: seq<Dict>, codeTokens: seq<string>, ctx2: seq<Dict>, irTokens: seq<string>,
                    ctx3: seq<Dict>, jsonTokens: seq<string>): seq<Event>
  {
    Section(1, ctx1, CodeStage, codeTokens) + Section(2, ctx2, IrStage, irTokens) +
    Section(3, ctx3, JsonStage, jsonTokens)
  }

  /** A section is its notice, then its stage's `start` event, and ends
      with the stage's `done` event. */
  lemma SectionShape(step: int, ctx: seq<Dict>, s: Stage, tokens: seq<string>)
    ensures var sec := Section(step, ctx, s, tokens);
      |sec| == |tokens| + 3 && sec[0] == RagDone(step, ctx) && sec[1] == StageStart(s) &&
      sec[|sec| - 1] == StageDone(s, Concat(tokens))
  {
    TraceShape(s, tokens);
  }

  /** The positions of the notices and of each stage's first and last event. */
  lemma AssembleLayout(ctx1: seq<Dict>, codeTokens: seq<string>, ctx2: seq<Dict>, irTokens: seq<string>,
                       ctx3: seq<Dict>, jsonTokens: seq<string>)
    ensures var events := Assemble(ctx1, codeTokens, ctx2, irTokens, ctx3, jsonTokens);
      var n1 := |codeTokens| + 2;
      var n2 := |irTokens| + 2;
      |events| == 3 + n1 + n2 + |jsonTokens| + 2 &&
      events[0] == RagDone(1, ctx1) &&
      events[1] == StageStart(CodeStage) && events[n1] == StageDone(CodeStage, Concat(codeTokens)) &&
      events[n1 + 1] == RagDone(2, ctx2) &&
      events[n1 + 2] == StageStart(IrStage) && events[n1 + 1 + n2] == StageDone(IrStage, Concat(irTokens)) &&
      events[n1 + n2 + 2] == RagDone(3, ctx3) &&
      events[n1 + n2 + 3] == StageStart(JsonStage) &&
      events[|events| - 1] == StageDone(JsonStage, Concat(jsonTokens))
  {
    var s1 := Section(1, ctx1, CodeStage, codeTokens);
    var s2 := Section(2, ctx2, IrStage, irTokens);
    var s3 := Section(3, ctx3, JsonStage, jsonTokens);
    SectionShape(1, ctx1, CodeStage, codeTokens);
    SectionShape(2, ctx2, IrStage, irTokens);
    SectionShape(3, ctx3, JsonStage, jsonTokens);
    var events := s1 + s2 + s3;
    var n1 := |codeTokens| + 2;
    var n2 := |irTokens| + 2;
    assert events == s1 + (s2 + s3);
    assert events[0] == s1[0] && events[1] == s1[1] && events[n1] == s1[n1];
    var rest := s2 + s3;
    assert rest[0] == s2[0] && rest[1] == s2[1] && rest[n2] == s2[n2];
    assert rest[n2 + 1] == s3[0] && rest[n2 + 2] == s3[1] && rest[|rest| - 1] == s3[|s3| - 1];
    assert events[n1 + 1..] == rest;
  }

  /** The coder part of `run_pipeline`: the stage-1 notice, the coder's
      events forwarded, and the `code_done` payload kept. */
  method CodeSection(svc: Services, prompt: string, ctx1: seq<Dict>) returns (events: seq<Event>, code: string)
    ensures events == Section(1, ctx1, CodeStage, CoderInference.CodeStream(svc.coder, prompt, Items(ctx1), svc.show))
    ensures code == Concat(CoderInference.CodeStream(svc.coder, prompt, Items(ctx1), svc.show))
  {
    events := [RagDone(1, ctx1)];
    code := "";
    var codeEvents := CoderInference.Generate(svc.coder, prompt, Items(ctx1), svc.show);
    var forwarded, payload := Forward(codeEvents, CodeStage);
    events := events + forwarded;
    code := payload;
    TracePayload(CodeStage, CoderInference.CodeStream(svc.coder, prompt, Items(ctx1), svc.show));
  }

  /** The compressor part: the stage-2 notice, the compressor's events
      forwarded, and the `ir_done` payload kept. */
  method IrSection(svc: Services, prompt: string, code: string, ctx2: seq<Dict>) returns (events: seq<Event>, ir: string)
    ensures events == Section(2, ctx2, IrStage, CompressorInference.IrStream(svc.compressor, prompt, code, Items(ctx2), svc.show))
    ensures ir == Concat(CompressorInference.IrStream(svc.compressor, prompt, code, Items(ctx2), svc.show))
  {
    events := [RagDone(2, ctx2)];
    ir := "";
    var irEvents := CompressorInference.Generate(svc.compressor, prompt, code, Items(ctx2), svc.show);
    var forwarded, payload := Forward(irEvents, IrStage);
    events := events + forwarded;
    ir := payload;
    TracePayload(IrStage, CompressorInference.IrStream(svc.compressor, prompt, code, Items(ctx2), svc.show));
  }

  /** The generator part: the stage-3 notice and the generator's events
      forwarded; its `json_done` payload is kept as well. */
  method JsonSection(svc: Services, ir: string, ctx3: seq<Dict>) returns (events: seq<Event>, json: string)
    ensures events == Section(3, ctx3, JsonStage, GeneratorInference.JsonStream(svc.generator, ir, Items(ctx3)))
    ensures json == Concat(GeneratorInference.JsonStream(svc.generator, ir, Items(ctx3)))
  {
    events := [RagDone(3, ctx3)];
    var jsonEvents := GeneratorInference.Generate(svc.generator, ir, Items(ctx3));
    var forwarded, payload := Forward(jsonEvents, JsonStage);
    events := events + forwarded;
    json := payload;
    TracePayload(JsonStage, GeneratorInference.JsonStream(svc.generator, ir, Items(ctx3)));
  }

  /** `run_pipeline`: every stage event is forwarded as it comes, and the
      `done` payloads of the code and ir stages feed the next retrieval and
      stage. */
  method RunPipeline(store: ExampleStore, svc: Services, userPrompt: string) returns (events: seq<Event>)
    requires SearchIn(svc, |store.metadata|)
    ensures events == PipelineTrace(svc, store.metadata, store.chunks, userPrompt)
  {
    var prompt := userPrompt;
    var raw1 := Invoke(store, svc, prompt);
    var best := BestScore(raw1);
    if best > AbortThreshold {
      events := [Abort(AbortReason, best)];
      return;
    }
    AbortsExactlyWhenNothingRetrieved(svc, store.metadata, store.chunks, prompt);
    PipelineOrder(svc, store.metadata, store.chunks, prompt);

    var ctx1 := StageContext(raw1, ["prompt", "code"]);
    var sec1, code := CodeSection(svc, prompt, ctx1);

    var raw2 := Invoke(store, svc, code);
    var ctx2 := StageContext(raw2, ["prompt", "circuit_space"]);
    var sec2, ir := IrSection(svc, prompt, code, ctx2);

    var raw3 := Invoke(store, svc, ir);
    var ctx3 := StageContext(raw3, ["circuit_space", "output"]);
    var sec3, json := JsonSection(svc, ir, ctx3);
    code := json;

    events := sec1 + sec2 + sec3;
  }

  /** Every result of the default query scores at most 0.4, so the best
      score exceeds 0.5 exactly when nothing was retrieved, and then it is 1.0. */
  lemma AbortsExactlyWhenNothingRetrieved(svc: Services, metadata: seq<Meta>, chunks: seq<ExampleRecord>,
                                          prompt: string)
    requires SearchIn(svc, |metadata|)
    ensures var raw := Retrieved(svc, metadata, chunks, prompt);
      (BestScore(raw) > AbortThreshold <==> raw == []) &&
      (raw == [] ==> PipelineTrace(svc, metadata, chunks, prompt) == [Abort(AbortReason, 1.0)])
  {
    var raw := Retrieved(svc, metadata, chunks, prompt);
    assert HitsIn(svc.search(prompt, TopK), |metadata|);
    QueryScoresWithinThreshold(svc.search(prompt, TopK), DefaultThreshold, metadata, chunks, {});
    if raw != [] {
      assert BestScore(raw) <= raw[0].score;
      assert raw[0] in raw;
    }
  }

  /** Without an abort the run is the stage-1 notice and the coder's
      events, the stage-2 notice (retrieved for the code payload) and the
      compressor's events (given that code), then the stage-3 notice
      (retrieved for the ir payload) and the generator's events (given that
      ir), laid out as `AssembleLayout` states. */
  lemma PipelineOrder(svc: Services, metadata: seq<Meta>, chunks: seq<ExampleRecord>, prompt: string)
    requires SearchIn(svc, |metadata|)
    requires Retrieved(svc, metadata, chunks, prompt) != []
    ensures var ctx1 := StageContext(Retrieved(svc, metadata, chunks, prompt), ["prompt", "code"]);
      var codeTokens := CoderInference.CodeStream(svc.coder, prompt, Items(ctx1), svc.show);
      var code := Concat(codeTokens);
      var ctx2 := StageContext(Retrieved(svc, metadata, chunks, code), ["prompt", "circuit_space"]);
      var irTokens := CompressorInference.IrStream(svc.compressor, prompt, code, Items(ctx2), svc.show);
      var ir := Concat(irTokens);
      var ctx3 := StageContext(Retrieved(svc, metadata, chunks, ir), ["circuit_space", "output"]);
      var jsonTokens := GeneratorInference.JsonStream(svc.generator, ir, Items(ctx3));
      PipelineTrace(svc, metadata, chunks, prompt) == Assemble(ctx1, codeTokens, ctx2, irTokens, ctx3, jsonTokens)
  {
    AbortsExactlyWhenNothingRetrieved(svc, metadata, chunks, prompt);
  }

  /** Pairs before the first one with key `k` do not affect its lookup. */
  lemma {:induction false} LookupSkip(d: Dict, k: string, n: nat)
    requires n <= |d|
    requires forall j :: 0 <= j < n ==> d[j].0 != k
    ensures Lookup(d, k) == Lookup(d[n..], k)
    decreases n
  {
    if n > 0 {
      LookupSkip(d[1..], k, n - 1);
      assert d[1..][n - 1..] == d[n..];
    }
  }

  /** The dictionary of a result has the record fields under their keys. */
  lemma AsDictFields(r: QueryResult)
    ensures Lookup(AsDict(r), "prompt") == Some(VText(r.prompt))
    ensures Lookup(AsDict(r), "code") == Some(VText(r.code))
    ensures Lookup(AsDict(r), "output") == Some(VOutput(r.output))
    ensures Lookup(AsDict(r), "circuit_space") == Some(VText(r.circuitSpace))
  {
    var d := AsDict(r);
    assert |"matched_node"| == 12 && |"node_id"| == 7 && |"chunk_id"| == 8 && |"score"| == 5;
    assert "prompt"[0] == 'p' && "code"[0] == 'c' && "output"[0] == 'o' && "circuit_space"[0] == 'c';
    assert "code"[1] == 'o' && "circuit_space"[1] == 'i';
    LookupSkip(d, "prompt", 4);
    LookupSkip(d, "code", 5);
    LookupSkip(d, "output", 6);
    LookupSkip(d, "circuit_space", 7);
  }

  lemma StageContextFields(results: seq<QueryResult>, f1: string, f2: string, i: int)
    requires f1 in ["prompt", "code", "output", "circuit_space"] && f2 in ["prompt", "code", "output", "circuit_space"]
    requires f1 != f2
    requires 0 <= i < |results|
    ensures |StageContext(results, [f1, f2])| == |results|
    ensures HasKey(AsDict(results[i]), f1) && HasKey(AsDict(results[i]), f2)
    ensures StageContext(results, [f1, f2])[i] ==
      [(f1, Lookup(AsDict(results[i]), f1).value), (f2, Lookup(AsDict(results[i]), f2).value)]
  {
    AsDictFields(results[i]);
    ProjectTwo(AsDict(results[i]), f1, f2);
  }

  /** The stage-1 notice holds each retrieved example's prompt and code. */
  lemma StageOneContext(results: seq<QueryResult>, i: int)
    requires 0 <= i < |results|
    ensures StageContext(results, ["prompt", "code"])[i] ==
      [("prompt", VText(results[i].prompt)), ("code", VText(results[i].code))]
  {
    AsDictFields(results[i]);
    StageContextFields(results, "prompt", "code", i);
  }

  /** The stage-2 notice holds each retrieved example's prompt and circuit space. */
  lemma StageTwoContext(results: seq<QueryResult>, i: int)
    requires 0 <= i < |results|
    ensures StageContext(results, ["prompt", "circuit_space"])[i] ==
      [("prompt", VText(results[i].prompt)), ("circuit_space", VText(results[i].circuitSpace))]
  {
    AsDictFields(results[i]);
    StageContextFields(results, "prompt", "circuit_space", i);
  }

  /** The stage-3 notice holds each retrieved example's circuit space and output. */
  lemma StageThreeContext(results: seq<QueryResult>, i: int)
    requires 0 <= i < |results|
    ensures StageContext(results, ["circuit_space", "output"])[i] ==
      [("circuit_space", VText(results[i].circuitSpace)), ("output", VOutput(results[i].output))]
  {
    AsDictFields(results[i]);
    StageContextFields(results, "circuit_space", "output", i);
  }
}
