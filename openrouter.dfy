/** The OpenRouter adapter (lib/llm/providers/openrouter.ts). The HTTP call
    is the parameter `api`; its failure message is the `Err` string. */
module OpenRouterAdapter {
  import opened Wrappers
  import opened Types
  import opened Js
  import opened ProviderBase

  const DEFAULT_MODEL: string := "meta-llama/llama-3.1-70b-instruct:free"
  const MAX_OUTPUT_TOKENS: int := 8192
  const DEFAULT_MAX_TOKENS: int := 2048
  const DEFAULT_TEMPERATURE: real := 0.7

  /** A shared key is taken unless it looks like a Groq (`gsk_`) or a
      HuggingFace (`hf_`) key. */
  predicate LooksLikeOpenRouterKey(k: string) {
    !("gsk_" <= k) && !("hf_" <= k)
  }

  /** `OPENROUTER_API_KEY`, else a non-empty `AI_API_KEY` that passes
      `LooksLikeOpenRouterKey`, else no key. */
  function OpenRouterKey(env: Env): Option<string> {
    if Truthy(env.openRouterApiKey) then env.openRouterApiKey
    else if Truthy(env.aiApiKey) && LooksLikeOpenRouterKey(env.aiApiKey.value) then env.aiApiKey
    else None
  }

  /** `isAvailable()`. */
  function OpenRouterAvailable(env: Env): (b: bool)
    ensures b <==> Truthy(env.openRouterApiKey) || (Truthy(env.aiApiKey) && LooksLikeOpenRouterKey(env.aiApiKey.value))
  {
    Truthy(OpenRouterKey(env))
  }

  /** The request body posted to the chat-completions endpoint. */
  function OpenRouterPayload(req: LLMRequest): (p: ChatPayload)
    ensures Truthy(req.model) ==> p.model == req.model.value
    ensures !Truthy(req.model) ==> p.model == DEFAULT_MODEL
    ensures p.messages == FormatMessages(req.messages)
    ensures p.maxTokens <= MAX_OUTPUT_TOKENS
    ensures req.maxTokens.Some? && 0 != req.maxTokens.value <= MAX_OUTPUT_TOKENS ==> p.maxTokens == req.maxTokens.value
    ensures (req.maxTokens.None? || req.maxTokens == Some(0)) ==> p.maxTokens == DEFAULT_MAX_TOKENS
    ensures p.temperature == RealOr(req.temperature, DEFAULT_TEMPERATURE)
  {
    ChatPayload(
      StrOr(req.model, DEFAULT_MODEL),
      FormatMessages(req.messages),
      Min(IntOr(req.maxTokens, DEFAULT_MAX_TOKENS), MAX_OUTPUT_TOKENS),
      RealOr(req.temperature, DEFAULT_TEMPERATURE))
  }

  /** `chat(request)`. */
  function OpenRouterChat(env: Env, api: ChatPayload -> Result<Completion, string>, req: LLMRequest): (r: Result<LLMResponse, string>)
    ensures !OpenRouterAvailable(env) ==> r == Err("OpenRouter API key not configured")
    ensures OpenRouterAvailable(env) && api(OpenRouterPayload(req)).Ok? ==>
      r == Ok(NormaliseCompletion(api(OpenRouterPayload(req)).value, OpenRouter))
    ensures OpenRouterAvailable(env) && api(OpenRouterPayload(req)).Err? ==>
      r == Err("OpenRouter API error: " + api(OpenRouterPayload(req)).error)
    ensures r.Ok? ==> r.value.provider == OpenRouter && r.value.usage.provider == OpenRouter
  {
    if !Truthy(OpenRouterKey(env)) then Err("OpenRouter API key not configured")
    else
      match api(OpenRouterPayload(req))
      case Ok(c) => Ok(NormaliseCompletion(c, OpenRouter))
      case Err(e) => Err("OpenRouter API error: " + e)
  }
}
