/** How the three adapters share the fallback `AI_API_KEY`. */
module Credentials {
  import opened Wrappers
  import opened Js
  import opened ProviderBase
  import opened GroqAdapter
  import opened OpenRouterAdapter
  import opened HuggingFaceAdapter

  /** With only the shared key set, its prefix decides: Groq takes every key,
      HuggingFace exactly the `hf_` keys, OpenRouter exactly the keys that
      are neither `gsk_` nor `hf_` keys. */
  lemma SharedKeyRouting(env: Env)
    requires !Truthy(env.groqApiKey) && !Truthy(env.openRouterApiKey) && !Truthy(env.huggingFaceApiKey)
    requires Truthy(env.aiApiKey)
    ensures GroqAvailable(env)
    ensures HuggingFaceAvailable(env) <==> "hf_" <= env.aiApiKey.value
    ensures OpenRouterAvailable(env) <==> !("gsk_" <= env.aiApiKey.value) && !("hf_" <= env.aiApiKey.value)
    ensures !(OpenRouterAvailable(env) && HuggingFaceAvailable(env))
  {
  }

  /** The prefix convention keeps OpenRouter and HuggingFace apart, but not
      Groq: a shared `hf_` key makes both Groq and HuggingFace available. */
  lemma SharedHuggingFaceKeyClaimedTwice()
    ensures var env := Env(None, None, None, Some("hf_abc"));
      GroqAvailable(env) && HuggingFaceAvailable(env) && !OpenRouterAvailable(env)
  {
    var env := Env(None, None, None, Some("hf_abc"));
    assert "hf_" <= "hf_abc";
  }
}
