/** The HuggingFace adapter (lib/llm/providers/huggingface.ts). The HTTP
    call is the parameter `api`; its failure message is the `Err` string. */
module HuggingFaceAdapter {
  import opened Wrappers
  import opened Types
  import opened Js
  import opened Tokens
  import opened ProviderBase

  const DEFAULT_MODEL: string := "meta-llama/Llama-3.1-70B-Instruct"
  const MAX_OUTPUT_TOKENS: int := 4096
  const DEFAULT_MAX_TOKENS: int := 2048
  const DEFAULT_TEMPERATURE: real := 0.7
  const ENDPOINT: string := "https://api-inference.huggingface.co/models/"
  const TURN_SEPARATOR: string := "\n\n"
  const ASSISTANT_CUE: string := "\n\nAssistant:"

  /** `HUGGINGFACE_API_KEY`, else an `AI_API_KEY` starting with `hf_`, else
      no key. */
  function HuggingFaceKey(env: Env): Option<string> {
    if Truthy(env.huggingFaceApiKey) then env.huggingFaceApiKey
    else if Truthy(env.aiApiKey) && "hf_" <= env.aiApiKey.value then env.aiApiKey
    else None
  }

  /** `isAvailable()`. */
  function HuggingFaceAvailable(env: Env): (b: bool)
    ensures b <==> Truthy(env.huggingFaceApiKey) || (env.aiApiKey.Some? && "hf_" <= env.aiApiKey.value)
  {
    Truthy(HuggingFaceKey(env))
  }

  /** One turn of the plain-text prompt. */
  function RenderTurn(m: Message): string {
    match m.role
    case System => "System: " + m.content
    case User => "User: " + m.content
    case Assistant => "Assistant: " + m.content
  }

  function RenderTurns(msgs: seq<Message>): (r: seq<string>)
    ensures |r| == |msgs|
    ensures forall i :: 0 <= i < |msgs| ==> r[i] == RenderTurn(msgs[i])
    decreases |msgs|
  {
    if |msgs| == 0 then [] else [RenderTurn(msgs[0])] + RenderTurns(msgs[1..])
  }

  /** `formatPromptForHF(messages)`: the turns separated by blank lines, then
      a blank line and the "Assistant:" cue. */
  function FormatPromptForHF(msgs: seq<Message>): (p: string)
    ensures |ASSISTANT_CUE| <= |p| && p[|p| - |ASSISTANT_CUE|..] == ASSISTANT_CUE
  {
    var body := Join(RenderTurns(msgs), TURN_SEPARATOR);
    assert (body + ASSISTANT_CUE)[|body|..] == ASSISTANT_CUE;
    body + ASSISTANT_CUE
  }

  /** For a non-empty conversation the prompt is every turn followed by a
      blank line, and then the bare cue. */
  lemma FormatPromptForHFShape(msgs: seq<Message>)
    requires |msgs| > 0
    ensures FormatPromptForHF(msgs) == Terminated(RenderTurns(msgs), TURN_SEPARATOR) + "Assistant:"
  {
    var turns := RenderTurns(msgs);
    CueIsSeparatorThenAssistant();
    JoinThenSeparatorThen(turns, TURN_SEPARATOR, "Assistant:");
  }

  lemma CueIsSeparatorThenAssistant()
    ensures ASSISTANT_CUE == TURN_SEPARATOR + "Assistant:"
  {
  }

  /** Every turn of the conversation occurs in the prompt. */
  lemma FormatPromptForHFKeepsTurns(msgs: seq<Message>, k: nat)
    requires k < |msgs|
    ensures IsInfix(RenderTurn(msgs[k]), FormatPromptForHF(msgs))
  {
    var turns := RenderTurns(msgs);
    InfixOfJoin(turns, TURN_SEPARATOR, k);
    InfixOfPrefix(turns[k], Join(turns, TURN_SEPARATOR), ASSISTANT_CUE);
  }

  /** The request posted to `ENDPOINT + model`. */
  datatype HFPayload = HFPayload(url: string, inputs: string, maxNewTokens: int, temperature: real, returnFullText: bool)

  /** The model the adapter asks for: the request's, else its default. */
  function HFModel(req: LLMRequest): string {
    StrOr(req.model, DEFAULT_MODEL)
  }

  function HuggingFacePayload(req: LLMRequest): (p: HFPayload)
    ensures p.url == ENDPOINT + HFModel(req)
    ensures p.inputs == FormatPromptForHF(req.messages)
    ensures p.maxNewTokens <= MAX_OUTPUT_TOKENS
    ensures req.maxTokens.Some? && 0 != req.maxTokens.value <= MAX_OUTPUT_TOKENS ==> p.maxNewTokens == req.maxTokens.value
    ensures (req.maxTokens.None? || req.maxTokens == Some(0)) ==> p.maxNewTokens == DEFAULT_MAX_TOKENS
    ensures p.temperature == RealOr(req.temperature, DEFAULT_TEMPERATURE)
    ensures !p.returnFullText
  {
    HFPayload(
      ENDPOINT + HFModel(req),
      FormatPromptForHF(req.messages),
      Min(IntOr(req.maxTokens, DEFAULT_MAX_TOKENS), MAX_OUTPUT_TOKENS),
      RealOr(req.temperature, DEFAULT_TEMPERATURE),
      false)
  }

  /** The inference API answers with either a list of generations or a
      single object; `None` is a missing `generated_text`. */
  datatype HFData = HFList(items: seq<Option<string>>) | HFObject(generatedText: Option<string>)

  /** The generated text, or "" when there is none. */
  function HFContent(d: HFData): (s: string)
    ensures d.HFList? && |d.items| > 0 && Truthy(d.items[0]) ==> s == d.items[0].value
    ensures d.HFObject? && Truthy(d.generatedText) ==> s == d.generatedText.value
    ensures (d.HFList? && (|d.items| == 0 || !Truthy(d.items[0]))) || (d.HFObject? && !Truthy(d.generatedText)) <==> s == ""
  {
    match d
    case HFList(items) => if |items| > 0 then StrOr(items[0], "") else ""
    case HFObject(t) => StrOr(t, "")
  }

  /** The text the usage estimate is taken from: contents joined by "\n". */
  function HFPromptText(msgs: seq<Message>): string {
    Join(Contents(msgs), "\n")
  }

  /** `chat(request)`: the response names the requested model, its usage is
      the length-based estimate, and it carries no truncation flag. */
  function HuggingFaceChat(env: Env, api: HFPayload -> Result<HFData, string>, req: LLMRequest): (r: Result<LLMResponse, string>)
    ensures !HuggingFaceAvailable(env) ==> r == Err("HuggingFace API key not configured")
    ensures HuggingFaceAvailable(env) && api(HuggingFacePayload(req)).Err? ==>
      r == Err("HuggingFace API error: " + api(HuggingFacePayload(req)).error)
    ensures HuggingFaceAvailable(env) && api(HuggingFacePayload(req)).Ok? ==>
      && r.Ok?
      && r.value.content == HFContent(api(HuggingFacePayload(req)).value)
      && r.value.usage == CreateTokenUsage(HFPromptText(req.messages), r.value.content, HFModel(req), HuggingFace)
    ensures r.Ok? ==> r.value.model == HFModel(req) && r.value.provider == HuggingFace && r.value.truncated.None?
  {
    if !Truthy(HuggingFaceKey(env)) then Err("HuggingFace API key not configured")
    else
      match api(HuggingFacePayload(req))
      case Ok(d) =>
        var content := HFContent(d);
        Ok(LLMResponse(content, CreateTokenUsage(HFPromptText(req.messages), content, HFModel(req), HuggingFace),
          HFModel(req), HuggingFace, None))
      case Err(e) => Err("HuggingFace API error: " + e)
  }
}
