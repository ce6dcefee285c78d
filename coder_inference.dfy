/** The coder stage: template choice, chat framing, token extraction, the
    non-streaming `generate_code` and the event-yielding `generate`. */
module CoderInference {
  import opened PyText
  import opened RagRun
  import opened Prompting
  import opened StageEvents

  /** The system message: the with-context template when `context != ""`,
      else the plain one, with the user prompt stripped. */
  function SystemMessage(prompt: string, context: Context, show: seq<Dict> -> string): string {
    if HasContext(context) then
      Format(CoderPromptWithContext, Args(Strip(prompt), "", ContextText(context, show), ""))
    else
      Format(CoderPrompt, Args(Strip(prompt), "", "", ""))
  }

  /** The chat input: the stripped system message, then the assistant header. */
  function ChatInput(prompt: string, context: Context, show: seq<Dict> -> string): string {
    SystemChat(Strip(SystemMessage(prompt, context, show)))
  }

  /** `generate_code`: one complete call, its text stripped. */
  function GenerateCode(llm: Llm, prompt: string, context: Context, show: seq<Dict> -> string): (code: string)
    ensures Trimmed(code)
  {
    Strip(TextOf(llm(CompleteRequest(ChatInput(prompt, context, show)))))
  }

  /** `generate_code_stream`: the token text of every chunk of one streaming call. */
  function CodeStream(llm: StreamLlm, prompt: string, context: Context, show: seq<Dict> -> string): (tokens: seq<string>)
    ensures var chunks := llm(StreamRequest(ChatInput(prompt, context, show)));
      |tokens| == |chunks| && forall i :: 0 <= i < |chunks| ==> tokens[i] == TextOf(chunks[i])
  {
    Tokens(llm(StreamRequest(ChatInput(prompt, context, show))))
  }

  /** `generate`. */
  method Generate(llm: StreamLlm, prompt: string, context: Context, show: seq<Dict> -> string)
    returns (events: seq<Event>)
    ensures events == Trace(CodeStage, CodeStream(llm, prompt, context, show))
  {
    var tokens := CodeStream(llm, prompt, context, show);
    events := StreamStage(CodeStage, tokens);
  }

  /** The template is the plain one for the context `""` and the
      with-context one for any list context (the pipeline's case), into which
      the list's text is substituted. */
  lemma TemplateChoice(prompt: string, items: seq<Dict>, show: seq<Dict> -> string)
    ensures SystemMessage(prompt, TextContext(""), show) == Format(CoderPrompt, Args(Strip(prompt), "", "", ""))
    ensures SystemMessage(prompt, Items(items), show) ==
      Format(CoderPromptWithContext, Args(Strip(prompt), "", show(items), ""))
  {
    ListContextIsNeverEmpty(items);
  }

  /** The prompt is stripped before substitution: whitespace around it
      changes neither the message nor the chat input. */
  lemma PromptPaddingIgnored(prompt: string, context: Context, show: seq<Dict> -> string)
    ensures ChatInput(prompt, context, show) == ChatInput(Strip(prompt), context, show)
  {
    StripIdempotent(prompt);
  }

  /** The stripped prompt appears verbatim in the message of either template. */
  lemma MessageHoldsPrompt(prompt: string, context: Context, show: seq<Dict> -> string)
    ensures exists u, v :: SystemMessage(prompt, context, show) == u + Strip(prompt) + v
  {
    var p := Strip(prompt);
    if HasContext(context) {
      assert CoderPromptWithContext[1] == Hole(UserPrompt);
      FormatShowsArg(CoderPromptWithContext, Args(p, "", ContextText(context, show), ""), UserPrompt);
    } else {
      assert CoderPrompt[1] == Hole(UserPrompt);
      FormatShowsArg(CoderPrompt, Args(p, "", "", ""), UserPrompt);
    }
  }

  /** The chat input frames exactly the stripped message. */
  lemma ChatInputFramesMessage(prompt: string, context: Context, show: seq<Dict> -> string)
    ensures SystemMessageOf(ChatInput(prompt, context, show)) == Strip(SystemMessage(prompt, context, show))
  {
    SystemChatRoundTrip(Strip(SystemMessage(prompt, context, show)));
  }

  /** The `code_done` payload is the concatenation of the stream's tokens,
      in order, and there are two events more than chunks. */
  lemma GenerateDonePayload(llm: StreamLlm, prompt: string, context: Context, show: seq<Dict> -> string)
    ensures var tokens := CodeStream(llm, prompt, context, show);
      |Trace(CodeStage, tokens)| == |llm(StreamRequest(ChatInput(prompt, context, show)))| + 2 &&
      LastPayload(Trace(CodeStage, tokens), CodeStage, "") == Concat(tokens)
  {
    var tokens := CodeStream(llm, prompt, context, show);
    TraceShape(CodeStage, tokens);
    TracePayload(CodeStage, tokens);
  }
}
