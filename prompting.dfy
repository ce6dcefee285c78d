/** Prompt templates with named holes (`str.format`), the chat framing the
    models expect, the text carried by a completion, and the request an LLM
    receives. The template texts are the inference modules' constants,
    which the non-RAG chained service shares. */
module Prompting {
  import opened Wrappers
  import opened PyText
  import opened RagRun

  // ---------------------------------------------------------------------
  // Templates
  // ---------------------------------------------------------------------

  /** The named holes the templates use. */
  datatype Slot = UserPrompt | CodeSlot | ContextSlot | SpecificationSlot

  /** A literal run of text (doubled braces already undone) or a hole. */
  datatype Piece = Lit(text: string) | Hole(slot: Slot)

  type Template = seq<Piece>

  /** The keyword arguments of one `.format(...)` call. */
  datatype Args = Args(userPrompt: string, code: string, context: string, specification: string)

  function Fill(a: Args, s: Slot): string {
    match s
    case UserPrompt => a.userPrompt
    case CodeSlot => a.code
    case ContextSlot => a.context
    case SpecificationSlot => a.specification
  }

  function PieceText(p: Piece, a: Args): string {
    match p
    case Lit(text) => text
    case Hole(s) => Fill(a, s)
  }

  /** `template.format(**a)`: the pieces' texts, in order. */
  function Format(t: Template, a: Args): string
    decreases |t|
  {
    if t == [] then "" else PieceText(t[0], a) + Format(t[1..], a)
  }

  /** Formatting distributes over concatenation of templates. */
  lemma {:induction false} FormatAppend(t1: Template, t2: Template, a: Args)
    ensures Format(t1 + t2, a) == Format(t1, a) + Format(t2, a)
    decreases |t1|
  {
    if t1 != [] {
      assert (t1 + t2)[1..] == t1[1..] + t2;
      FormatAppend(t1[1..], t2, a);
    } else {
      assert t1 + t2 == t2;
    }
  }

  /** The argument for hole `i` appears verbatim in the formatted text,
      between the formatted text before and after it. */
  lemma FormatAtHole(t: Template, a: Args, i: int)
    requires 0 <= i < |t| && t[i].Hole?
    ensures Format(t, a) == Format(t[..i], a) + Fill(a, t[i].slot) + Format(t[i + 1..], a)
  {
    assert t == t[..i] + ([t[i]] + t[i + 1..]);
    FormatAppend(t[..i], [t[i]] + t[i + 1..], a);
    assert ([t[i]] + t[i + 1..])[1..] == t[i + 1..];
  }

  /** The argument of every hole the template has appears verbatim in the
      formatted text. */
  lemma FormatShowsArg(t: Template, a: Args, s: Slot)
    requires Uses(t, s)
    ensures exists u, v :: Format(t, a) == u + Fill(a, s) + v
  {
    var i :| 0 <= i < |t| && t[i] == Hole(s);
    FormatAtHole(t, a, i);
  }

  /** Which holes a template has. */
  predicate Uses(t: Template, s: Slot) {
    exists i :: 0 <= i < |t| && t[i] == Hole(s)
  }

  /** Formatting reads only the arguments of the holes the template has:
      arguments it has no hole for make no difference. */
  lemma {:induction false} FormatReadsOnlyItsHoles(t: Template, a: Args, b: Args)
    requires forall s :: Uses(t, s) ==> Fill(a, s) == Fill(b, s)
    ensures Format(t, a) == Format(t, b)
    decreases |t|
  {
    if t != [] {
      if t[0].Hole? {
        assert Uses(t, t[0].slot);
      }
      forall s | Uses(t[1..], s)
        ensures Fill(a, s) == Fill(b, s)
      {
        var i :| 0 <= i < |t[1..]| && t[1..][i] == Hole(s);
        assert t[i + 1] == Hole(s);
      }
      FormatReadsOnlyItsHoles(t[1..], a, b);
    }
  }

  // ---------------------------------------------------------------------
  // Contexts
  // ---------------------------------------------------------------------

  /** The `context` argument of a stage: a string (the callers' default
      `""`), or the list of projected retrieval dictionaries the RAG
      pipeline passes. */
  datatype Context = TextContext(s: string) | Items(items: seq<Dict>)

  /** `context != ""`: only the empty string is equal to `""`; a list never is. */
  predicate HasContext(c: Context) {
    c != TextContext("")
  }

  /** The text `format` substitutes for the context: the string itself, or
      `str()` of the list, given as `show`. */
  function ContextText(c: Context, show: seq<Dict> -> string): string {
    match c
    case TextContext(s) => s
    case Items(items) => show(items)
  }

  /** A list context, even an empty one, always selects the with-context template. */
  lemma ListContextIsNeverEmpty(items: seq<Dict>)
    ensures HasContext(Items(items))
  {
  }

  // ---------------------------------------------------------------------
  // Chat framing
  // ---------------------------------------------------------------------

  const SystemHeader := "<|im_start|>system\n"
  const UserHeader := "<|im_start|>user\n"
  const BlockEnd := "\n<|im_end|>\n"
  const AssistantHeader := "<|im_start|>assistant\n"
  const ImEnd := "<|im_end|>"

  function SystemBlock(message: string): string {
    SystemHeader + message + BlockEnd
  }

  function UserBlock(user: string): string {
    UserHeader + user + BlockEnd
  }

  /** A system turn followed by the assistant header. */
  function SystemChat(message: string): (chat: string)
    ensures |chat| == |SystemHeader| + |message| + |BlockEnd| + |AssistantHeader|
  {
    SystemBlock(message) + AssistantHeader
  }

  /** A system turn, a user turn, then the assistant header. */
  function SystemUserChat(message: string, user: string): (chat: string)
    ensures |chat| == |SystemHeader| + |message| + |BlockEnd| + |UserHeader| + |user| + |BlockEnd| + |AssistantHeader|
  {
    SystemBlock(message) + UserBlock(user) + AssistantHeader
  }

  /** The message of a system-then-assistant chat: the text between the
      system header and the fixed tail. */
  function SystemMessageOf(chat: string): string
    requires |chat| >= |SystemHeader| + |BlockEnd| + |AssistantHeader|
  {
    chat[|SystemHeader|..|chat| - |BlockEnd| - |AssistantHeader|]
  }

  /** The framing is fixed text around the message: the message is recovered
      from the chat, so different messages give different chat inputs. */
  lemma SystemChatRoundTrip(message: string)
    ensures SystemMessageOf(SystemChat(message)) == message
  {
    var chat := SystemChat(message);
    assert chat == SystemHeader + message + (BlockEnd + AssistantHeader);
  }

  /** `chat` ends with `user` followed by the fixed closing framing. */
  predicate EndsWithUser(chat: string, user: string) {
    var tail := BlockEnd + AssistantHeader;
    |chat| >= |tail| + |user| && chat[|chat| - |tail| - |user|..|chat| - |tail|] == user
  }

  /** `chat` starts with the system turn for `message`. */
  predicate StartsWithSystem(chat: string, message: string) {
    |chat| >= |SystemBlock(message)| && chat[..|SystemBlock(message)|] == SystemBlock(message)
  }

  /** A three-part chat starts with the system turn and has the user text
      verbatim right before the fixed tail, whatever the system message. */
  lemma SystemUserChatLayout(message: string, user: string)
    ensures StartsWithSystem(SystemUserChat(message, user), message)
    ensures EndsWithUser(SystemUserChat(message, user), user)
  {
    var chat := SystemUserChat(message, user);
    assert chat == (SystemBlock(message) + UserHeader) + user + (BlockEnd + AssistantHeader);
  }

  // ---------------------------------------------------------------------
  // LLM requests and completions
  // ---------------------------------------------------------------------

  /** The arguments of one LLM call: the chat input, `max_tokens`, and the
      `stop` list (`None` when not passed). */
  datatype Request = Request(prompt: string, maxTokens: nat, stop: Option<seq<string>>)

  /** The first element of a completion's `choices`, when the key is present. */
  datatype Choice = Choice(text: Option<string>)

  /** A completion dictionary, or one chunk of a stream. */
  datatype Completion = Completion(choices: Option<Choice>)

  /** A complete (non-streaming) call and a streaming call. */
  type Llm = Request -> Completion
  type StreamLlm = Request -> seq<Completion>

  /** `chunk.get("choices", [{}])[0].get("text", "")`. */
  function TextOf(c: Completion): string {
    match c.choices
    case None => ""
    case Some(choice) => choice.text.GetOr("")
  }

  /** A completion whose first choice carries text yields exactly that
      text; a missing `choices` or `text` key yields `""`. */
  lemma TextOfCases(t: string)
    ensures TextOf(Completion(Some(Choice(Some(t))))) == t
    ensures TextOf(Completion(Some(Choice(None)))) == ""
    ensures TextOf(Completion(None)) == ""
  {
  }

  /** The token texts of a stream, one per chunk, in order. */
  function Tokens(chunks: seq<Completion>): (tokens: seq<string>)
    ensures |tokens| == |chunks|
    ensures forall i :: 0 <= i < |chunks| ==> tokens[i] == TextOf(chunks[i])
  {
    seq(|chunks|, i requires 0 <= i < |chunks| => TextOf(chunks[i]))
  }

  /** A non-streaming call with the settings every stage uses. */
  function CompleteRequest(chat: string): Request {
    Request(chat, 1024, Some([ImEnd]))
  }

  /** A streaming call: same token budget, no stop list. */
  function StreamRequest(chat: string): Request {
    Request(chat, 1024, None)
  }

  // ---------------------------------------------------------------------
  // The template texts
  // ---------------------------------------------------------------------

  const CoderPrompt: Template :=
    [ Lit("You are an expert IoT code generation engine. Your sole purpose is to convert a user request into a single, complete, and functional block of code for the specified microcontroller.\n\n    **User Request:** <<< "),
      Hole(UserPrompt),
      Lit(" >>>\n\n    **KEY INSTRUCTIONS:**\n    1.  **Complete Requirement Fulfillment:** Your code MUST implement every feature, sensor, and logic step mentioned in the user request.\n    2.  **Library and API Precision (CRITICAL):** You MUST use the exact, correct libraries and function calls for the specified hardware and components. For example, use `Adafruit_BME280.h` for a BME280 sensor or `WiFi.h` for an ESP32. Do not use placeholder or generic libraries.\n    3.  **Self-Contained Code:** Generate a single, complete code file. It must include all necessary parts: library includes, variable/object declarations, a full `setup()` function, and a full `loop()` function containing the main logic.\n\n    **OUTPUT MANDATE:**\n    -   **Return ONLY raw source code.**\n    -   Your response MUST NOT contain any explanations, comments, markdown, or any text other than the code itself.\n    -   The first line of your output must be the first line of the code (e.g., an `#include` statement).") ]

  const CoderPromptWithContext: Template :=
    [ Lit("You are an expert IoT code generation engine. Your sole purpose is to convert a user request into a single, complete, and functional block of code for the specified microcontroller.\n\n    **User Request:** <<< "),
      Hole(UserPrompt),
      Lit(" >>>\n    \n    \n    **KEY INSTRUCTIONS:**\n    1.  **Complete Requirement Fulfillment:** Your code MUST implement every feature, sensor, and logic step mentioned in the user request.\n    2.  **Library and API Precision (CRITICAL):** You MUST use the exact, correct libraries and function calls for the specified hardware and components. For example, use `Adafruit_BME280.h` for a BME280 sensor or `WiFi.h` for an ESP32. Do not use placeholder or generic libraries.\n    3.  **Self-Contained Code:** Generate a single, complete code file. It must include all necessary parts: library includes, variable/object declarations, a full `setup()` function, and a full `loop()` function containing the main logic.\n\n    **OUTPUT MANDATE:**\n    -   **Return ONLY raw source code.**\n    -   Your response MUST NOT contain any explanations, comments, markdown, or any text other than the code itself.\n    -   The first line of your output must be the first line of the code (e.g., an `#include` statement).\n    **REFERENCE CONTEXT (Optional):**\n    If relevant, you may refer to the following example for inspiration. However, do NOT copy it or include any of its logic unless it directly applies to the user request:\n    <<< "),
      Hole(ContextSlot),
      Lit(" >>>") ]

  const CompressorPrompt: Template :=
    [ Lit("You are an **experienced Arduino Systems Engineer**.\nGiven:\n  \U{2022} User prompt: "),
      Hole(UserPrompt),
      Lit("\n  \U{2022} Arduino code:\n"),
      Hole(CodeSlot),
      Lit("\n\nGenerate a **compressed hardware spec** in *Wokwi* nomenclature using **_exactly_** this scaffold (do not add / remove headers or blank lines):\n<<=components=>>\n<<=connections=>>\n<<=attrs=>>\n\n\U{2022} **components** - one per line as `<id>:<wokwi-part-id>`\n\U{2022} **connections** - one per line as `<src> <dst>`\n\U{2022} **attrs** - optional key-value extras, one per line as `<id> <key>:<value>`\nCapture every pin / wiring detail needed to reproduce the circuit, omit text that is not required for the diagram.\n ") ]

  const CompressorPromptWithContext: Template :=
    [ Lit("You are an **experienced Arduino Systems Engineer**.\nGiven:\n  \U{2022} User prompt: "),
      Hole(UserPrompt),
      Lit("\n  \U{2022} Arduino code:\n"),
      Hole(CodeSlot),
      Lit("\n\n**Only refer to this if directly relevant. Ignore it otherwise.**\n\nGenerate a **compressed hardware spec** in *Wokwi* nomenclature using **_exactly_** this scaffold (do not add / remove headers or blank lines):\n<<=components=>>\n<<=connections=>>\n<<=attrs=>>\n\n\U{2022} **components** - one per line as `<id>:<wokwi-part-id>`\n\U{2022} **connections** - one per line as `<src> <dst>`\n\U{2022} **attrs** - optional key-value extras, one per line as `<id> <key>:<value>`\nCapture every pin / wiring detail needed to reproduce the circuit, omit text that is not required for the diagram.\n **REFERENCE CONTEXT (Optional):**If relevant, you may refer to the following example for inspiration. However, do NOT copy it or include any of its logic unless it directly applies to the user request:<<< "),
      Hole(ContextSlot),
      Lit(" >>>") ]

  const GeneratorPrompt: Template :=
    [ Lit("You are an **experienced Arduino Systems Engineer**.\nGiven the following circuit specification, produce **only** a JSON object\nwith *two* top\U{2011}level keys: `parts` (array) and `connections` (array).\nEach element of `parts` must have `id`, `type` and optional `attrs`.\nEach element of `connections` must be an array\U{20f0} of the form\n[from, to, color, path]. Use the same IDs as in `parts`.\n\nReturn strictly valid JSON \U{2014} no markdown, code fences, or commentary.\nIf any attribute is missing, infer sensible defaults.\n\n### Example format\n{\"parts\":[{\"id\":\"esp\",\"type\":\"wokwi-esp8266\"},{\"id\":\"dht\",\"type\":\"wokwi-dht11\"},{\"id\":\"led1\",\"type\":\"wokwi-led\",\"attrs\":{\"color\":\"red\"}},{\"id\":\"bb1\",\"type\":\"wokwi-breadboard\"}],\"connections\":[[\"esp:3V3\",\"bb1:tp.36\",\"red\",[\"v0\"]]]}\n\nNow read the specification and output the JSON: \n"),
      Hole(SpecificationSlot),
      Lit(" ") ]

}
