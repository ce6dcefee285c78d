/** The compressor stage: template choice, the user block, the three-part
    chat framing, token extraction and the event-yielding `generate`. */
module CompressorInference {
  import opened PyText
  import opened RagRun
  import opened Prompting
  import opened StageEvents

  /** The stripped system message: the with-context template when
      `context != ""`, else the plain one; prompt and code go in unchanged. */
  function Message(prompt: string, code: string, context: Context, show: seq<Dict> -> string): string {
    if HasContext(context) then
      Strip(Format(CompressorPromptWithContext, Args(prompt, code, ContextText(context, show), "")))
    else
      Strip(Format(CompressorPrompt, Args(prompt, code, "", "")))
  }

  /** `f"{prompt}\n\n{code}"`. */
  function UserText(prompt: string, code: string): string {
    prompt + "\n\n" + code
  }

  /** The chat input: system turn, user turn, assistant header. */
  function ChatInput(prompt: string, code: string, context: Context, show: seq<Dict> -> string): string {
    SystemUserChat(Message(prompt, code, context, show), UserText(prompt, code))
  }

  /** `compress_to_ir_stream`: the token text of every chunk of one streaming call. */
  function IrStream(llm: StreamLlm, prompt: string, code: string, context: Context, show: seq<Dict> -> string)
    : (tokens: seq<string>)
    ensures var chunks := llm(StreamRequest(ChatInput(prompt, code, context, show)));
      |tokens| == |chunks| && forall i :: 0 <= i < |chunks| ==> tokens[i] == TextOf(chunks[i])
  {
    Tokens(llm(StreamRequest(ChatInput(prompt, code, context, show))))
  }

  /** `generate`. */
  method Generate(llm: StreamLlm, prompt: string, code: string, context: Context, show: seq<Dict> -> string)
    returns (events: seq<Event>)
    ensures events == Trace(IrStage, IrStream(llm, prompt, code, context, show))
  {
    var tokens := IrStream(llm, prompt, code, context, show);
    events := StreamStage(IrStage, tokens);
  }

  /** The plain template for the context `""`, the with-context one for any
      list context. */
  lemma TemplateChoice(prompt: string, code: string, items: seq<Dict>, show: seq<Dict> -> string)
    ensures Message(prompt, code, TextContext(""), show) == Strip(Format(CompressorPrompt, Args(prompt, code, "", "")))
    ensures Message(prompt, code, Items(items), show) ==
      Strip(Format(CompressorPromptWithContext, Args(prompt, code, show(items), "")))
  {
    ListContextIsNeverEmpty(items);
  }

  /** The plain template has no context hole: the context text it is
      formatted with makes no difference. */
  lemma PlainTemplateIgnoresContext(prompt: string, code: string, text: string)
    ensures Format(CompressorPrompt, Args(prompt, code, "", "")) == Format(CompressorPrompt, Args(prompt, code, text, ""))
  {
    var a := Args(prompt, code, "", "");
    var b := Args(prompt, code, text, "");
    forall s | Uses(CompressorPrompt, s)
      ensures Fill(a, s) == Fill(b, s)
    {
      var i :| 0 <= i < |CompressorPrompt| && CompressorPrompt[i] == Hole(s);
      assert i == 1 || i == 3;
    }
    FormatReadsOnlyItsHoles(CompressorPrompt, a, b);
  }

  /** The user turn carries prompt and code verbatim, unstripped, right
      before the closing framing; the system turn comes first. */
  lemma ChatKeepsPromptAndCode(prompt: string, code: string, context: Context, show: seq<Dict> -> string)
    ensures EndsWithUser(ChatInput(prompt, code, context, show), prompt + "\n\n" + code)
    ensures StartsWithSystem(ChatInput(prompt, code, context, show), Message(prompt, code, context, show))
  {
    SystemUserChatLayout(Message(prompt, code, context, show), UserText(prompt, code));
  }

  /** The `ir_done` payload is the concatenation of the stream's tokens. */
  lemma GenerateDonePayload(llm: StreamLlm, prompt: string, code: string, context: Context, show: seq<Dict> -> string)
    ensures var tokens := IrStream(llm, prompt, code, context, show);
      |Trace(IrStage, tokens)| == |llm(StreamRequest(ChatInput(prompt, code, context, show)))| + 2 &&
      LastPayload(Trace(IrStage, tokens), IrStage, "") == Concat(tokens)
  {
    var tokens := IrStream(llm, prompt, code, context, show);
    TraceShape(IrStage, tokens);
    TracePayload(IrStage, tokens);
  }
}
