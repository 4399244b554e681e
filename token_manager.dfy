/** The token safety estimator and session usage tracker
    (lib/token-manager.ts). */
module Tokens {
  import opened Wrappers
  import opened Types
  import opened Js
  import opened Models

  // TOKEN_LIMITS
  const MAX_TOKENS_PER_REQUEST: int := 4096
  const WARNING_THRESHOLD: int := 3072
  const SAFE_DEFAULT: int := 2048

  /** `Math.ceil(text.length / 4)`: the least n with 4 * n >= |text|. */
  function EstimateTokens(text: string): (n: nat)
    ensures 4 * n >= |text| && 4 * n < |text| + 4
  {
    (|text| + 3) / 4
  }

  lemma EstimateTokensEmpty()
    ensures EstimateTokens("") == 0
  {
  }

  lemma EstimateTokensMonotone(a: string, b: string)
    requires |a| <= |b|
    ensures EstimateTokens(a) <= EstimateTokens(b)
  {
  }

  /** `messages.map(m => m.content)`. */
  function Contents(msgs: seq<Message>): (r: seq<string>)
    ensures |r| == |msgs|
    ensures forall i :: 0 <= i < |msgs| ==> r[i] == msgs[i].content
    decreases |msgs|
  {
    if |msgs| == 0 then [] else [msgs[0].content] + Contents(msgs[1..])
  }

  /** The text whose size estimates the prompt: contents joined by a space. */
  function PromptText(msgs: seq<Message>): string {
    Join(Contents(msgs), " ")
  }

  function PromptTokens(req: LLMRequest): nat {
    EstimateTokens(PromptText(req.messages))
  }

  /** For n >= 1 messages the prompt estimate is
      ceil((sum of content lengths + n - 1) / 4): one space per gap. */
  lemma PromptTokensFormula(req: LLMRequest)
    requires |req.messages| > 0
    ensures PromptTokens(req) == (TotalLength(Contents(req.messages)) + |req.messages| - 1 + 3) / 4
  {
    JoinLength(Contents(req.messages), " ");
  }

  /** The prompt estimate is not the sum of per-message estimates. */
  lemma PromptTokensIsNotPerMessageSum()
    ensures var req := LLMRequest([Message(User, "a"), Message(User, "a")], None, None, None, None);
            PromptTokens(req) == 1 &&
            EstimateTokens(req.messages[0].content) + EstimateTokens(req.messages[1].content) == 2
  {
    var msgs := [Message(User, "a"), Message(User, "a")];
    assert Contents(msgs) == ["a", "a"];
    assert Join(["a", "a"], " ") == "a a" by {
      assert ["a", "a"][1..] == ["a"];
    }
  }

  // ---------------------------------------------------------------------
  // isRequestSafe

  datatype SafetyVerdict = SafetyVerdict(safe: bool, recommendedMaxTokens: int, warning: Option<string>)

  /** `request.maxTokens || SAFE_DEFAULT`. */
  function RequestedTokens(req: LLMRequest): int {
    IntOr(req.maxTokens, SAFE_DEFAULT)
  }

  function TotalEstimated(req: LLMRequest): int {
    PromptTokens(req) + RequestedTokens(req)
  }

  const APPROACHING_WARNING: string := "Request is approaching token limit. Consider summarizing context."

  function ExceedsWarning(recommended: nat): string {
    "Request exceeds maximum token limit. Reducing max_tokens to " + NatToString(recommended)
  }

  /** `isRequestSafe(request)`: unsafe above the hard cap, safe with a
      warning above the warning threshold, silently safe otherwise; both
      comparisons strict. */
  function IsRequestSafe(req: LLMRequest): (v: SafetyVerdict)
    ensures v.safe <==> TotalEstimated(req) <= MAX_TOKENS_PER_REQUEST
    ensures v.warning.None? <==> TotalEstimated(req) <= WARNING_THRESHOLD
    ensures v.safe ==> v.recommendedMaxTokens == RequestedTokens(req)
    ensures v.safe && v.warning.Some? ==> v.warning.value == APPROACHING_WARNING
    ensures !v.safe ==> v.recommendedMaxTokens == Max(MAX_TOKENS_PER_REQUEST - PromptTokens(req) - 100, 256)
    ensures !v.safe ==> 256 <= v.recommendedMaxTokens <= 3996
    ensures !v.safe ==> v.warning == Some(ExceedsWarning(v.recommendedMaxTokens))
    ensures v.recommendedMaxTokens <= MAX_TOKENS_PER_REQUEST
  {
    var prompt := PromptTokens(req);
    var total := prompt + RequestedTokens(req);
    if total > MAX_TOKENS_PER_REQUEST then
      var recommended := Max(MAX_TOKENS_PER_REQUEST - prompt - 100, 256);
      SafetyVerdict(false, recommended, Some(ExceedsWarning(recommended)))
    else if total > WARNING_THRESHOLD then
      SafetyVerdict(true, RequestedTokens(req), Some(APPROACHING_WARNING))
    else
      SafetyVerdict(true, RequestedTokens(req), None)
  }

  /** The band edges: a total of exactly 4096 is safe with a warning, exactly
      3072 is silent. */
  lemma SafetyBandEdges(req: LLMRequest)
    ensures TotalEstimated(req) == 4096 ==> IsRequestSafe(req).safe && IsRequestSafe(req).warning == Some(APPROACHING_WARNING)
    ensures TotalEstimated(req) == 4097 ==> !IsRequestSafe(req).safe
    ensures TotalEstimated(req) == 3073 ==> IsRequestSafe(req).safe && IsRequestSafe(req).warning.Some?
    ensures TotalEstimated(req) == 3072 ==> IsRequestSafe(req).safe && IsRequestSafe(req).warning.None?
  {
  }

  /** The safety clamp applied by the router and the chat endpoint: on an
      unsafe verdict `maxTokens` becomes the recommendation; nothing else
      changes. */
  function ApplySafety(req: LLMRequest): (r: LLMRequest)
    ensures r.messages == req.messages && r.temperature == req.temperature
    ensures r.model == req.model && r.provider == req.provider
    ensures IsRequestSafe(req).safe ==> r == req
    ensures !IsRequestSafe(req).safe ==> r.maxTokens == Some(IsRequestSafe(req).recommendedMaxTokens)
    ensures RequestedTokens(r) <= MAX_TOKENS_PER_REQUEST
  {
    var v := IsRequestSafe(req);
    if v.safe then req else req.(maxTokens := Some(v.recommendedMaxTokens))
  }

  /** Clamping twice is clamping once, so the router's second safety check
      changes nothing the chat endpoint already clamped. */
  lemma ApplySafetyIdempotent(req: LLMRequest)
    ensures ApplySafety(ApplySafety(req)) == ApplySafety(req)
  {
    var r := ApplySafety(req);
    assert PromptTokens(r) == PromptTokens(req);
    if !IsRequestSafe(req).safe {
      var rec := IsRequestSafe(req).recommendedMaxTokens;
      assert RequestedTokens(r) == rec;
      if !IsRequestSafe(r).safe {
        assert IsRequestSafe(r).recommendedMaxTokens == rec;
      }
    }
  }

  /** Unless the prompt alone is above 3740 tokens, the clamped request is
      safe. */
  lemma ApplySafetyFits(req: LLMRequest)
    requires PromptTokens(req) <= MAX_TOKENS_PER_REQUEST - 100 - 256
    ensures IsRequestSafe(ApplySafety(req)).safe
  {
    var r := ApplySafety(req);
    assert PromptTokens(r) == PromptTokens(req);
  }

  // ---------------------------------------------------------------------
  // selectModel

  /** `list[0] || fallback`. */
  function FirstOr(list: seq<LLMModel>, fallback: LLMModel): LLMModel {
    if |list| > 0 then list[0] else fallback
  }

  /** `selectModel(request, forceTier)`. */
  function SelectModel(req: LLMRequest, forceTier: Option<Tier>): (m: LLMModel)
    ensures m in MODELS
  {
    FallbackChainIsCatalog();
    ModelsOfTierMembers(MODELS, Free);
    ModelsOfTierMembers(MODELS, Mid);
    ModelsOfTierMembers(MODELS, High);
    if forceTier.Some? then
      ModelsOfTierMembers(GetFallbackChain(), forceTier.value);
      var tierModels := ModelsOfTier(GetFallbackChain(), forceTier.value);
      if |tierModels| > 0 then (assert tierModels[0] in tierModels; tierModels[0]) else GetDefaultModel()
    else
      var free, mid := GetModelsByTier(Free), GetModelsByTier(Mid);
      assert |free| > 0 ==> free[0] in free;
      assert |mid| > 0 ==> mid[0] in mid;
      var estimated := PromptTokens(req);
      if estimated < 1000 then FirstOr(free, GetDefaultModel())
      else if estimated < 3000 then FirstOr(free, FirstOr(mid, GetDefaultModel()))
      else FirstOr(mid, FirstOr(free, GetDefaultModel()))
  }

  /** With this catalog: below 3000 estimated prompt tokens the first free
      model, otherwise the first mid model. */
  lemma SelectModelByEstimate(req: LLMRequest)
    ensures PromptTokens(req) < 3000 ==> SelectModel(req, None) == MODELS[0]
    ensures PromptTokens(req) >= 3000 ==> SelectModel(req, None) == MODELS[3]
    ensures PromptTokens(req) >= 3000 ==> SelectModel(req, None).id == "llama-3.1-70b-instruct"
  {
    if PromptTokens(req) < 3000 {
      SelectModelShortPrompt(req);
    } else {
      SelectModelLongPrompt(req);
      MidModelId();
    }
  }

  lemma SelectModelShortPrompt(req: LLMRequest)
    requires PromptTokens(req) < 3000
    ensures SelectModel(req, None) == MODELS[0]
  {
    CatalogTiers();
    var free := GetModelsByTier(Free);
    assert free[0] == MODELS[0];
    FirstOfNonEmpty(free, GetDefaultModel());
    FirstOfNonEmpty(free, FirstOr(GetModelsByTier(Mid), GetDefaultModel()));
  }

  lemma SelectModelLongPrompt(req: LLMRequest)
    requires PromptTokens(req) >= 3000
    ensures SelectModel(req, None) == MODELS[3]
  {
    SelectModelUnforcedLong(req);
    FirstMidModel(FirstOr(GetModelsByTier(Free), GetDefaultModel()));
  }

  lemma SelectModelUnforcedLong(req: LLMRequest)
    requires PromptTokens(req) >= 3000
    ensures SelectModel(req, None) == FirstOr(GetModelsByTier(Mid), FirstOr(GetModelsByTier(Free), GetDefaultModel()))
  {
  }

  lemma FirstMidModel(fallback: LLMModel)
    ensures FirstOr(GetModelsByTier(Mid), fallback) == MODELS[3]
  {
    CatalogTiers();
    var mid := GetModelsByTier(Mid);
    assert mid[0] == MODELS[3];
  }

  lemma FirstOfNonEmpty(list: seq<LLMModel>, fallback: LLMModel)
    requires |list| > 0
    ensures FirstOr(list, fallback) == list[0]
  {
  }

  lemma MidModelId()
    ensures MODELS[3].id == "llama-3.1-70b-instruct"
  {
  }

  /** A forced tier gives the first model of that tier in the chain. */
  lemma SelectModelForcedTier(req: LLMRequest, t: Tier)
    ensures SelectModel(req, Some(t)) == (match t case Free => MODELS[0] case Mid => MODELS[3] case High => MODELS[5])
  {
    FallbackChainIsCatalog();
    CatalogTiers();
    assert ModelsOfTier(GetFallbackChain(), t) == GetModelsByTier(t);
  }

  // ---------------------------------------------------------------------
  // Session usage

  /** `usages.reduce((sum, u) => sum + u.totalTokens, 0)`. */
  function TotalTokensOf(usages: seq<TokenUsage>): nat
    decreases |usages|
  {
    if |usages| == 0 then 0 else usages[0].totalTokens + TotalTokensOf(usages[1..])
  }

  /** Tracking one more usage adds exactly its total. */
  lemma {:induction false} TotalTokensOfSnoc(usages: seq<TokenUsage>, u: TokenUsage)
    ensures TotalTokensOf(usages + [u]) == TotalTokensOf(usages) + u.totalTokens
    decreases |usages|
  {
    if |usages| == 0 {
      assert usages + [u] == [u];
      assert [u][1..] == [];
    } else {
      TotalTokensOfSnoc(usages[1..], u);
      assert (usages + [u])[1..] == usages[1..] + [u];
    }
  }

  /** The process-wide usage tracker, constructed explicitly. */
  class TokenManager {
    var sessionUsage: seq<TokenUsage>

    constructor ()
      ensures sessionUsage == []
    {
      sessionUsage := [];
    }

    /** `trackUsage(usage)`. */
    method TrackUsage(usage: TokenUsage)
      modifies this
      ensures sessionUsage == old(sessionUsage) + [usage]
      ensures GetTotalUsage() == old(GetTotalUsage()) + usage.totalTokens
    {
      TotalTokensOfSnoc(sessionUsage, usage);
      sessionUsage := sessionUsage + [usage];
    }

    /** `getTotalUsage()`. */
    function GetTotalUsage(): nat
      reads this
    {
      TotalTokensOf(sessionUsage)
    }

    /** `clearSession()`. */
    method ClearSession()
      modifies this
      ensures sessionUsage == []
      ensures GetTotalUsage() == 0
    {
      sessionUsage := [];
    }
  }
}
