/** The generator stage: the message is the generator template around the
    specification; the context argument is accepted and ignored. */
module GeneratorInference {
  import opened PyText
  import opened RagRun
  import opened Prompting
  import opened StageEvents

  /** The stripped system message. */
  function Message(specification: string): string {
    Strip(Format(GeneratorPrompt, Args("", "", "", specification)))
  }

  /** The chat input: system turn, then the assistant header. */
  function ChatInput(specification: string): string {
    SystemChat(Message(specification))
  }

  /** `generate_json_stream`; `context` is not read. */
  function JsonStream(llm: StreamLlm, specification: string, context: Context): (tokens: seq<string>)
    ensures var chunks := llm(StreamRequest(ChatInput(specification)));
      |tokens| == |chunks| && forall i :: 0 <= i < |chunks| ==> tokens[i] == TextOf(chunks[i])
  {
    Tokens(llm(StreamRequest(ChatInput(specification))))
  }

  /** `generate`. */
  method Generate(llm: StreamLlm, specification: string, context: Context) returns (events: seq<Event>)
    ensures events == Trace(JsonStage, JsonStream(llm, specification, context))
  {
    var tokens := JsonStream(llm, specification, context);
    events := StreamStage(JsonStage, tokens);
  }

  /** The context has no effect on the stream. */
  lemma ContextIgnored(llm: StreamLlm, specification: string, c1: Context, c2: Context)
    ensures JsonStream(llm, specification, c1) == JsonStream(llm, specification, c2)
  {
  }

  /** The specification is the template's only hole and appears verbatim
      in the formatted message; the chat frames exactly the stripped message. */
  lemma MessageHoldsSpecification(specification: string)
    ensures exists u, v :: Format(GeneratorPrompt, Args("", "", "", specification)) == u + specification + v
    ensures SystemMessageOf(ChatInput(specification)) == Message(specification)
  {
    assert GeneratorPrompt[1] == Hole(SpecificationSlot);
    FormatShowsArg(GeneratorPrompt, Args("", "", "", specification), SpecificationSlot);
    SystemChatRoundTrip(Message(specification));
  }

  /** The `json_done` payload is the concatenation of the stream's tokens. */
  lemma GenerateDonePayload(llm: StreamLlm, specification: string, context: Context)
    ensures var tokens := JsonStream(llm, specification, context);
      |Trace(JsonStage, tokens)| == |llm(StreamRequest(ChatInput(specification)))| + 2 &&
      LastPayload(Trace(JsonStage, tokens), JsonStage, "") == Concat(tokens)
  {
    var tokens := JsonStream(llm, specification, context);
    TraceShape(JsonStage, tokens);
    TracePayload(JsonStage, tokens);
  }
}
