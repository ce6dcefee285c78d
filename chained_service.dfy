/** The non-RAG chained service: three complete (non-streaming) calls, code
    then ir then json, each answer stripped. */
module ChainedService {
  import opened PyText
  import opened RagRun
  import opened Prompting
  import CoderInference
  import CompressorInference
  import GeneratorInference

  /** This service's copy of the coder template: the inference module's
      template followed by one more space. */
  const ChainedCoderPrompt: Template := CoderPrompt + [Lit(" ")]

  /** The coder's chat input: the template around the stripped prompt,
      stripped, framed as system then assistant. */
  function CoderChat(prompt: string): string {
    SystemChat(Strip(Format(ChainedCoderPrompt, Args(Strip(prompt), "", "", ""))))
  }

  /** `generate_code`. */
  function GenerateCode(llm: Llm, prompt: string): (code: string)
    ensures Trimmed(code)
  {
    Strip(TextOf(llm(CompleteRequest(CoderChat(prompt)))))
  }

  /** The compressor's chat input: system, user (`prompt + "\n\n" + code`), assistant. */
  function CompressorChat(prompt: string, code: string): string {
    SystemUserChat(Strip(Format(CompressorPrompt, Args(prompt, code, "", ""))), prompt + "\n\n" + code)
  }

  /** `compress_to_ir`. */
  function CompressToIr(llm: Llm, prompt: string, code: string): (ir: string)
    ensures Trimmed(ir)
  {
    Strip(TextOf(llm(CompleteRequest(CompressorChat(prompt, code)))))
  }

  /** The generator's chat input: built from the specification alone. */
  function GeneratorChat(specification: string): string {
    SystemChat(Strip(Format(GeneratorPrompt, Args("", "", "", specification))))
  }

  /** `generate_json`. */
  function GenerateJson(llm: Llm, specification: string): (json: string)
    ensures Trimmed(json)
  {
    Strip(TextOf(llm(CompleteRequest(GeneratorChat(specification)))))
  }

  /** The three models the service calls. */
  datatype Models = Models(coder: Llm, compressor: Llm, generator: Llm)

  /** `run_pipeline`: the code feeds the compressor, only the ir feeds the
      generator, and the three stripped answers are returned. */
  function RunPipeline(models: Models, prompt: string): (r: (string, string, string))
    ensures r.0 == GenerateCode(models.coder, prompt)
    ensures r.1 == CompressToIr(models.compressor, prompt, r.0)
    ensures r.2 == GenerateJson(models.generator, r.1)
    ensures Trimmed(r.0) && Trimmed(r.1) && Trimmed(r.2)
  {
    var code := GenerateCode(models.coder, prompt);
    var ir := CompressToIr(models.compressor, prompt, code);
    (code, ir, GenerateJson(models.generator, ir))
  }

  /** The extra space in this service's coder template is stripped away:
      the chat input is the coder stage's for the context `""`. */
  lemma CoderChatMatchesStage(prompt: string, show: seq<Dict> -> string)
    ensures CoderChat(prompt) == CoderInference.ChatInput(prompt, TextContext(""), show)
  {
    var a := Args(Strip(prompt), "", "", "");
    FormatAppend(CoderPrompt, [Lit(" ")], a);
    assert Format([Lit(" ")], a) == " ";
    StripTrailingSpace(Format(CoderPrompt, a), ' ');
  }

  /** The compressor's chat input is the compressor stage's for the context `""`. */
  lemma CompressorChatMatchesStage(prompt: string, code: string, show: seq<Dict> -> string)
    ensures CompressorChat(prompt, code) == CompressorInference.ChatInput(prompt, code, TextContext(""), show)
  {
  }

  /** The generator's chat input is the generator stage's. */
  lemma GeneratorChatMatchesStage(specification: string)
    ensures GeneratorChat(specification) == GeneratorInference.ChatInput(specification)
  {
  }

  /** The json depends on the user prompt only through the ir: two prompts
      whose ir agrees give the same json. */
  lemma JsonDependsOnlyOnIr(models: Models, p1: string, p2: string)
    requires RunPipeline(models, p1).1 == RunPipeline(models, p2).1
    ensures RunPipeline(models, p1).2 == RunPipeline(models, p2).2
  {
  }

  /** A model answer without `choices`, or without `text`, gives `""`. */
  lemma MissingTextGivesEmpty(llm: Llm, prompt: string)
    requires llm(CompleteRequest(CoderChat(prompt))).choices.Some? ==>
      llm(CompleteRequest(CoderChat(prompt))).choices.value.text.None?
    ensures GenerateCode(llm, prompt) == ""
  {
    assert TextOf(llm(CompleteRequest(CoderChat(prompt)))) == "";
  }
}
