/** The Groq adapter (lib/llm/providers/groq.ts). The SDK call is the
    parameter `api`; its failure message is the `Err` string. */
module GroqAdapter {
  import opened Wrappers
  import opened Types
  import opened Js
  import opened ProviderBase

  const DEFAULT_MODEL: string := "llama-3.1-8b-instant"
  const MAX_OUTPUT_TOKENS: int := 8192
  const DEFAULT_MAX_TOKENS: int := 2048
  const DEFAULT_TEMPERATURE: real := 0.7

  /** `GROQ_API_KEY || AI_API_KEY`: any shared key is accepted. */
  function GroqKey(env: Env): Option<string> {
    OrElse(env.groqApiKey, env.aiApiKey)
  }

  /** `isAvailable()`: a client was built and a key is present. */
  function GroqAvailable(env: Env): (b: bool)
    ensures b <==> Truthy(env.groqApiKey) || Truthy(env.aiApiKey)
  {
    Truthy(GroqKey(env))
  }

  /** The completion request sent for `req`. */
  function GroqPayload(req: LLMRequest): (p: ChatPayload)
    ensures Truthy(req.model) ==> p.model == req.model.value
    ensures !Truthy(req.model) ==> p.model == DEFAULT_MODEL
    ensures p.messages == FormatMessages(req.messages)
    ensures p.maxTokens <= MAX_OUTPUT_TOKENS
    ensures req.maxTokens.Some? && 0 != req.maxTokens.value <= MAX_OUTPUT_TOKENS ==> p.maxTokens == req.maxTokens.value
    ensures (req.maxTokens.None? || req.maxTokens == Some(0)) ==> p.maxTokens == DEFAULT_MAX_TOKENS
    ensures p.temperature == RealOr(req.temperature, DEFAULT_TEMPERATURE)
  {
    ChatPayload(
      StrOr(req.model, DEFAULT_MODEL),
      FormatMessages(req.messages),
      Min(IntOr(req.maxTokens, DEFAULT_MAX_TOKENS), MAX_OUTPUT_TOKENS),
      RealOr(req.temperature, DEFAULT_TEMPERATURE))
  }

  /** `chat(request)`: refuses without a key, otherwise forwards the vendor's
      completion normalised, or its failure under the "Groq API error: "
      prefix. */
  function GroqChat(env: Env, api: ChatPayload -> Result<Completion, string>, req: LLMRequest): (r: Result<LLMResponse, string>)
    ensures !GroqAvailable(env) ==> r == Err("Groq API key not configured")
    ensures GroqAvailable(env) && api(GroqPayload(req)).Ok? ==>
      r == Ok(NormaliseCompletion(api(GroqPayload(req)).value, Groq))
    ensures GroqAvailable(env) && api(GroqPayload(req)).Err? ==>
      r == Err("Groq API error: " + api(GroqPayload(req)).error)
    ensures r.Ok? ==> r.value.provider == Groq && r.value.usage.provider == Groq
  {
    if !Truthy(GroqKey(env)) then Err("Groq API key not configured")
    else
      match api(GroqPayload(req))
      case Ok(c) => Ok(NormaliseCompletion(c, Groq))
      case Err(e) => Err("Groq API error: " + e)
  }
}
