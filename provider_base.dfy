/** What the provider adapters share: the helpers of lib/llm/providers/base.ts,
    the environment they read their credentials from, and the chat-completion
    payload that the Groq SDK and the OpenRouter HTTP API both speak (taken as
    an input value: the vendor call itself is not modelled). */
module ProviderBase {
  import opened Wrappers
  import opened Types
  import opened Js
  import opened Tokens

  /** The environment variables the adapters read (`process.env`). */
  datatype Env = Env(
    groqApiKey: Option<string>,
    openRouterApiKey: Option<string>,
    huggingFaceApiKey: Option<string>,
    aiApiKey: Option<string>)

  datatype FormattedMessage = FormattedMessage(role: string, content: string)

  /** `formatMessages(messages)`: each message as a plain role/content pair. */
  function FormatMessages(msgs: seq<Message>): (r: seq<FormattedMessage>)
    ensures |r| == |msgs|
    ensures forall i :: 0 <= i < |msgs| ==> r[i].role == msgs[i].role.Name() && r[i].content == msgs[i].content
    decreases |msgs|
  {
    if |msgs| == 0 then []
    else [FormattedMessage(msgs[0].role.Name(), msgs[0].content)] + FormatMessages(msgs[1..])
  }

  /** `createTokenUsage(prompt, completion, model, provider)`: usage estimated
      from text lengths. */
  function CreateTokenUsage(prompt: string, completion: string, model: string, provider: ProviderName): (u: TokenUsage)
    ensures u.promptTokens == EstimateTokens(prompt) && u.completionTokens == EstimateTokens(completion)
    ensures u.totalTokens == u.promptTokens + u.completionTokens
    ensures |prompt| + |completion| <= 4 * u.totalTokens < |prompt| + |completion| + 8
    ensures u.model == model && u.provider == provider
  {
    TokenUsage(EstimateTokens(prompt), EstimateTokens(completion),
      EstimateTokens(prompt) + EstimateTokens(completion), model, provider)
  }

  // ---------------------------------------------------------------------
  // Chat-completion wire format (Groq and OpenRouter)

  /** The request body: model, messages, max_tokens, temperature. */
  datatype ChatPayload = ChatPayload(model: string, messages: seq<FormattedMessage>, maxTokens: int, temperature: real)

  /** One choice of a completion: `message?.content` and `finish_reason`. */
  datatype Choice = Choice(content: Option<string>, finishReason: Option<string>)

  datatype UsageFields = UsageFields(promptTokens: Option<nat>, completionTokens: Option<nat>, totalTokens: Option<nat>)

  /** The vendor's completion object. */
  datatype Completion = Completion(model: string, choices: seq<Choice>, usage: Option<UsageFields>)

  /** `n || 0` for an optional count. */
  function CountOrZero(n: Option<nat>): nat {
    if n.Some? then n.value else 0
  }

  /** The first choice's content, or "" when there is no choice or no
      content. */
  function FirstContent(c: Completion): string {
    if |c.choices| > 0 && c.choices[0].content.Some? then c.choices[0].content.value else ""
  }

  /** The response built from a vendor completion: content of the first
      choice, usage counts defaulting to 0, and `truncated` exactly when the
      first choice stopped for length. */
  function NormaliseCompletion(c: Completion, provider: ProviderName): (r: LLMResponse)
    ensures r.content == FirstContent(c)
    ensures r.truncated == Some(|c.choices| > 0 && c.choices[0].finishReason == Some("length"))
    ensures r.model == c.model && r.usage.model == c.model
    ensures r.provider == provider && r.usage.provider == provider
    ensures c.usage.None? ==> r.usage.promptTokens == 0 && r.usage.completionTokens == 0 && r.usage.totalTokens == 0
    ensures c.usage.Some? ==>
      && r.usage.promptTokens == CountOrZero(c.usage.value.promptTokens)
      && r.usage.completionTokens == CountOrZero(c.usage.value.completionTokens)
      && r.usage.totalTokens == CountOrZero(c.usage.value.totalTokens)
  {
    var fields := if c.usage.Some? then c.usage.value else UsageFields(None, None, None);
    var usage := TokenUsage(
      CountOrZero(fields.promptTokens),
      CountOrZero(fields.completionTokens),
      CountOrZero(fields.totalTokens),
      c.model, provider);
    var truncated := |c.choices| > 0 && c.choices[0].finishReason == Some("length");
    LLMResponse(FirstContent(c), usage, c.model, provider, Some(truncated))
  }
}
