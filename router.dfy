/** The router (lib/llm/router.ts): clamps and completes the request, builds
    a fallback chain from the chosen model and tries each model's provider
    in turn until one answers. The three adapters are values: whether each
    has a credential, and its chat call. */
module Router {
  import opened Wrappers
  import opened Types
  import opened Js
  import opened Models
  import opened Tokens
  import opened ProviderBase
  import GroqAdapter
  import OpenRouterAdapter
  import HuggingFaceAdapter

  /** The registered providers: `isAvailable()` and `chat(request)` of each. */
  datatype Adapters = Adapters(
    available: ProviderName -> bool,
    chat: (ProviderName, LLMRequest) -> Result<LLMResponse, string>)

  /** The vendor endpoints behind the three adapters. */
  datatype Vendors = Vendors(
    groq: ChatPayload -> Result<Completion, string>,
    openRouter: ChatPayload -> Result<Completion, string>,
    huggingFace: HuggingFaceAdapter.HFPayload -> Result<HuggingFaceAdapter.HFData, string>)

  function Available(env: Env, p: ProviderName): bool {
    match p
    case Groq => GroqAdapter.GroqAvailable(env)
    case OpenRouter => OpenRouterAdapter.OpenRouterAvailable(env)
    case HuggingFace => HuggingFaceAdapter.HuggingFaceAvailable(env)
  }

  function Chat(env: Env, v: Vendors, p: ProviderName, req: LLMRequest): Result<LLMResponse, string> {
    match p
    case Groq => GroqAdapter.GroqChat(env, v.groq, req)
    case OpenRouter => OpenRouterAdapter.OpenRouterChat(env, v.openRouter, req)
    case HuggingFace => HuggingFaceAdapter.HuggingFaceChat(env, v.huggingFace, req)
  }

  /** The adapters the router's constructor registers. */
  function StandardAdapters(env: Env, v: Vendors): Adapters {
    Adapters(p => Available(env, p), (p, r) => Chat(env, v, p, r))
  }

  /** The registration order of the providers map. */
  const PROVIDER_ORDER: seq<ProviderName> := [Groq, OpenRouter, HuggingFace]

  // ---------------------------------------------------------------------
  // Request preparation

  /** The request after the safety clamp and, when it names no model, the
      token manager's choice of model and provider. */
  function Prepare(req: LLMRequest): (r: LLMRequest)
    ensures r.messages == req.messages && r.temperature == req.temperature
    ensures RequestedTokens(r) <= MAX_TOKENS_PER_REQUEST
    ensures Truthy(req.model) ==> r.model == req.model && r.provider == req.provider
    ensures !Truthy(req.model) ==>
      r.model == Some(SelectModel(req, None).id) && r.provider == Some(SelectModel(req, None).provider)
  {
    var safe := ApplySafety(req);
    if Truthy(safe.model) then safe
    else
      var selected := SelectModel(safe, None);
      SelectModelIgnoresMaxTokens(req, safe);
      safe.(model := Some(selected.id), provider := Some(selected.provider))
  }

  /** Model selection reads only the messages. */
  lemma SelectModelIgnoresMaxTokens(a: LLMRequest, b: LLMRequest)
    requires a.messages == b.messages
    ensures SelectModel(a, None) == SelectModel(b, None)
  {
    assert PromptTokens(a) == PromptTokens(b);
  }

  /** `findModel(request.model || "") || getDefaultModel()`. */
  function Resolve(req: LLMRequest): (m: LLMModel)
    ensures m in MODELS
    ensures FindModel(StrOr(req.model, "")).Some? ==> m == FindModel(StrOr(req.model, "")).value
    ensures FindModel(StrOr(req.model, "")).None? ==> m == GetDefaultModel()
  {
    var found := FindModel(StrOr(req.model, ""));
    if found.Some? then found.value else GetDefaultModel()
  }

  // ---------------------------------------------------------------------
  // getFallbackChainForModel

  /** The model itself, then the models after it in the fallback chain
      regrouped free, mid, high; an unknown model gets only the default. */
  function FallbackChainForModel(model: LLMModel): (r: seq<LLMModel>)
    ensures |r| > 0
  {
    var all := GetFallbackChain();
    var i := IndexOfId(all, model.id);
    if i == -1 then [GetDefaultModel()]
    else [model] + FallbackChainOf(all[i + 1..])
  }

  /** A model whose id is the k-th catalog id is followed by the rest of the
      catalog, in catalog order. */
  lemma FallbackChainForKnownId(model: LLMModel, k: nat)
    requires k < |MODELS| && MODELS[k].id == model.id
    ensures FallbackChainForModel(model) == [model] + MODELS[k + 1..]
  {
    FallbackChainIsCatalog();
    IndexOfCatalogId(k);
    CatalogSuffixIsOwnChain(k + 1);
  }

  lemma CatalogSuffixIsOwnChain(k: nat)
    requires k <= |MODELS|
    ensures FallbackChainOf(MODELS[k..]) == MODELS[k..]
  {
    CatalogIsTierSorted();
    SortedSuffix(MODELS, k);
    SortedIsOwnFallbackChain(MODELS[k..]);
  }

  /** A model whose id is not in the catalog falls back to the default
      model alone. */
  lemma FallbackChainForUnknownId(model: LLMModel)
    requires forall m :: m in MODELS ==> m.id != model.id
    ensures FallbackChainForModel(model) == [GetDefaultModel()]
  {
    FallbackChainIsCatalog();
  }

  /** Every model the router can start from is a catalog entry, so its chain
      is the catalog from that entry on. */
  lemma FallbackChainFromCatalog(k: nat)
    requires k < |MODELS|
    ensures FallbackChainForModel(MODELS[k]) == MODELS[k..]
  {
    FallbackChainForKnownId(MODELS[k], k);
    SuffixCons(MODELS, k);
  }

  lemma SuffixCons<T>(s: seq<T>, k: nat)
    requires k < |s|
    ensures s[k..] == [s[k]] + s[k + 1..]
  {
  }

  /** The chain the router walks for a request. */
  function ChainFor(req: LLMRequest): seq<LLMModel> {
    FallbackChainForModel(Resolve(Prepare(req)))
  }

  /** The chain walked for any request is a suffix of the catalog that
      starts at the resolved model. */
  lemma ChainForIsCatalogSuffix(req: LLMRequest)
    ensures 0 <= IndexOfId(MODELS, Resolve(Prepare(req)).id) < |MODELS|
    ensures ChainFor(req) == MODELS[IndexOfId(MODELS, Resolve(Prepare(req)).id)..]
  {
    var m := Resolve(Prepare(req));
    var k :| 0 <= k < |MODELS| && MODELS[k] == m;
    IndexOfCatalogId(k);
    FallbackChainFromCatalog(k);
  }

  // ---------------------------------------------------------------------
  // Trying the chain

  /** One failed attempt: `{ model, provider, error }`. */
  datatype ErrorRecord = ErrorRecord(model: string, provider: ProviderName, error: string)

  /** The outcome of walking a chain: the first response, the failures
      before it, and the requests handed to adapters. */
  datatype Attempt = Attempt(response: Option<LLMResponse>, errors: seq<ErrorRecord>, dispatched: seq<LLMRequest>)

  const NOT_CONFIGURED: string := "API key not configured"

  /** `{ ...request, model: m.id, provider: m.provider }`. */
  function Dispatch(req: LLMRequest, m: LLMModel): LLMRequest {
    req.(model := Some(m.id), provider := Some(m.provider))
  }

  /** `error.message || "Unknown error"`. */
  function Reason(message: string): (r: string)
    ensures r != ""
    ensures message != "" ==> r == message
    ensures message == "" ==> r == "Unknown error"
  {
    if message == "" then "Unknown error" else message
  }

  /** The attempt at model m succeeds: its provider is available and
      answers. */
  predicate Works(m: LLMModel, req: LLMRequest, ad: Adapters) {
    ad.available(m.provider) && ad.chat(m.provider, Dispatch(req, m)).Ok?
  }

  /** Why the attempt at model m failed. */
  function FailureOf(m: LLMModel, req: LLMRequest, ad: Adapters): string {
    if !ad.available(m.provider) then NOT_CONFIGURED
    else
      var r := ad.chat(m.provider, Dispatch(req, m));
      if r.Err? then Reason(r.error) else ""
  }

  /** The loop over the fallback chain, as a recursive definition. */
  function TryChain(chain: seq<LLMModel>, req: LLMRequest, ad: Adapters): Attempt
    decreases |chain|
  {
    if |chain| == 0 then Attempt(None, [], [])
    else
      var m := chain[0];
      if !ad.available(m.provider) then
        var rest := TryChain(chain[1..], req, ad);
        Attempt(rest.response, [ErrorRecord(m.id, m.provider, NOT_CONFIGURED)] + rest.errors, rest.dispatched)
      else
        var r := ad.chat(m.provider, Dispatch(req, m));
        if r.Ok? then Attempt(Some(r.value), [], [Dispatch(req, m)])
        else
          var rest := TryChain(chain[1..], req, ad);
          Attempt(rest.response, [ErrorRecord(m.id, m.provider, Reason(r.error))] + rest.errors,
            [Dispatch(req, m)] + rest.dispatched)
  }

  /** An attempt preceded by earlier failures and dispatches. */
  function After(errors: seq<ErrorRecord>, dispatched: seq<LLMRequest>, a: Attempt): Attempt {
    Attempt(a.response, errors + a.errors, dispatched + a.dispatched)
  }

  /** One step of the try loop, for a model whose provider is unavailable. */
  lemma AfterUnavailable(errors: seq<ErrorRecord>, dispatched: seq<LLMRequest>, s: seq<LLMModel>, req: LLMRequest, ad: Adapters)
    requires |s| > 0 && !ad.available(s[0].provider)
    ensures After(errors, dispatched, TryChain(s, req, ad))
      == After(errors + [ErrorRecord(s[0].id, s[0].provider, NOT_CONFIGURED)], dispatched, TryChain(s[1..], req, ad))
  {
    var e := ErrorRecord(s[0].id, s[0].provider, NOT_CONFIGURED);
    var rest := TryChain(s[1..], req, ad);
    assert errors + ([e] + rest.errors) == errors + [e] + rest.errors;
  }

  /** One step of the try loop, for a model whose provider fails. */
  lemma AfterFailure(errors: seq<ErrorRecord>, dispatched: seq<LLMRequest>, s: seq<LLMModel>, req: LLMRequest, ad: Adapters)
    requires |s| > 0 && ad.available(s[0].provider) && ad.chat(s[0].provider, Dispatch(req, s[0])).Err?
    ensures After(errors, dispatched, TryChain(s, req, ad))
      == After(errors + [ErrorRecord(s[0].id, s[0].provider, Reason(ad.chat(s[0].provider, Dispatch(req, s[0])).error))],
           dispatched + [Dispatch(req, s[0])], TryChain(s[1..], req, ad))
  {
    var e := ErrorRecord(s[0].id, s[0].provider, Reason(ad.chat(s[0].provider, Dispatch(req, s[0])).error));
    var rest := TryChain(s[1..], req, ad);
    assert errors + ([e] + rest.errors) == errors + [e] + rest.errors;
    assert dispatched + ([Dispatch(req, s[0])] + rest.dispatched) == dispatched + [Dispatch(req, s[0])] + rest.dispatched;
  }

  /** One step of the try loop, for a model that answers. */
  lemma AfterSuccess(errors: seq<ErrorRecord>, dispatched: seq<LLMRequest>, s: seq<LLMModel>, req: LLMRequest, ad: Adapters)
    requires |s| > 0 && ad.available(s[0].provider) && ad.chat(s[0].provider, Dispatch(req, s[0])).Ok?
    ensures After(errors, dispatched, TryChain(s, req, ad))
      == Attempt(Some(ad.chat(s[0].provider, Dispatch(req, s[0])).value), errors, dispatched + [Dispatch(req, s[0])])
  {
    assert errors + [] == errors;
  }

  /** The models of `chain` whose providers are available, as dispatched. */
  function DispatchesOf(chain: seq<LLMModel>, req: LLMRequest, ad: Adapters): seq<LLMRequest>
    decreases |chain|
  {
    if |chain| == 0 then []
    else (if ad.available(chain[0].provider) then [Dispatch(req, chain[0])] else []) + DispatchesOf(chain[1..], req, ad)
  }

  /** How many models of the chain were tried. */
  function Tried(a: Attempt): nat {
    |a.errors| + (if a.response.Some? then 1 else 0)
  }

  /** The walk stops at the first model that works: the failures are
      exactly the models before it, each with its reason, and the response
      is that model's; when none works every model has failed. */
  lemma {:induction false} TryChainShape(chain: seq<LLMModel>, req: LLMRequest, ad: Adapters)
    ensures var a := TryChain(chain, req, ad);
      && Tried(a) <= |chain|
      && (forall i :: 0 <= i < |a.errors| ==>
            && a.errors[i].model == chain[i].id
            && a.errors[i].provider == chain[i].provider
            && !Works(chain[i], req, ad)
            && a.errors[i].error == FailureOf(chain[i], req, ad))
      && (a.response.None? ==> |a.errors| == |chain|)
      && (a.response.Some? ==>
            && Works(chain[|a.errors|], req, ad)
            && a.response.value == ad.chat(chain[|a.errors|].provider, Dispatch(req, chain[|a.errors|])).value)
    decreases |chain|
  {
    if |chain| > 0 {
      TryChainShape(chain[1..], req, ad);
      var rest := TryChain(chain[1..], req, ad);
      var a := TryChain(chain, req, ad);
      var m := chain[0];
      if !Works(m, req, ad) {
        assert a.errors == [ErrorRecord(m.id, m.provider, FailureOf(m, req, ad))] + rest.errors;
        assert a.response == rest.response;
        forall i | 1 <= i < |a.errors|
          ensures a.errors[i] == rest.errors[i - 1] && chain[i] == chain[1..][i - 1]
        {
        }
      }
    }
  }

  /** A request is handed to an adapter exactly for the tried models whose
      providers are available, in chain order. */
  lemma {:induction false} TryChainDispatched(chain: seq<LLMModel>, req: LLMRequest, ad: Adapters)
    ensures Tried(TryChain(chain, req, ad)) <= |chain|
    ensures TryChain(chain, req, ad).dispatched == DispatchesOf(chain[..Tried(TryChain(chain, req, ad))], req, ad)
    decreases |chain|
  {
    TryChainShape(chain, req, ad);
    if |chain| > 0 {
      TryChainDispatched(chain[1..], req, ad);
      var a := TryChain(chain, req, ad);
      var n := Tried(a);
      var rest := TryChain(chain[1..], req, ad);
      if Works(chain[0], req, ad) {
        assert chain[..1][1..] == [];
      } else {
        assert Tried(a) == Tried(rest) + 1;
        assert chain[..n][1..] == chain[1..][..Tried(rest)];
      }
    }
  }

  /** When no provider of the chain is available nothing is dispatched and
      every model fails with "API key not configured". */
  lemma {:induction false} TryChainAllUnavailable(chain: seq<LLMModel>, req: LLMRequest, ad: Adapters)
    requires forall i :: 0 <= i < |chain| ==> !ad.available(chain[i].provider)
    ensures TryChain(chain, req, ad).response.None?
    ensures TryChain(chain, req, ad).dispatched == []
    ensures |TryChain(chain, req, ad).errors| == |chain|
    ensures forall i :: 0 <= i < |chain| ==> TryChain(chain, req, ad).errors[i].error == NOT_CONFIGURED
    decreases |chain|
  {
    TryChainShape(chain, req, ad);
    if |chain| > 0 {
      TryChainAllUnavailable(chain[1..], req, ad);
    }
  }

  /** The walk reads the request's `provider` field nowhere: every
      dispatched request names its model's provider. */
  lemma {:induction false} TryChainIgnoresProvider(chain: seq<LLMModel>, req: LLMRequest, p: Option<ProviderName>, ad: Adapters)
    ensures TryChain(chain, req.(provider := p), ad) == TryChain(chain, req, ad)
    decreases |chain|
  {
    if |chain| > 0 {
      TryChainIgnoresProvider(chain[1..], req, p, ad);
      assert Dispatch(req.(provider := p), chain[0]) == Dispatch(req, chain[0]);
    }
  }

  // ---------------------------------------------------------------------
  // Error messages

  /** `${name.toUpperCase()}_API_KEY`. */
  function KeyName(p: ProviderName): string {
    AsciiUpper(p.Name()) + "_API_KEY"
  }

  function KeyNames(ps: seq<ProviderName>): (r: seq<string>)
    ensures |r| == |ps|
    ensures forall i :: 0 <= i < |ps| ==> r[i] == KeyName(ps[i])
    decreases |ps|
  {
    if |ps| == 0 then [] else [KeyName(ps[0])] + KeyNames(ps[1..])
  }

  const NO_PROVIDERS_PREFIX: string := "No LLM providers are configured. Please set at least one API key: "

  function NoProvidersMessage(unavailable: seq<ProviderName>): string {
    NO_PROVIDERS_PREFIX + Join(KeyNames(unavailable), ", ")
  }

  /** `${provider}/${model}: ${error}`. */
  function FormatError(e: ErrorRecord): string {
    e.provider.Name() + "/" + e.model + ": " + e.error
  }

  function FormatErrors(errors: seq<ErrorRecord>): (r: seq<string>)
    ensures |r| == |errors|
    ensures forall i :: 0 <= i < |errors| ==> r[i] == FormatError(errors[i])
    decreases |errors|
  {
    if |errors| == 0 then [] else [FormatError(errors[0])] + FormatErrors(errors[1..])
  }

  const EXHAUSTED_PREFIX: string := "All LLM providers failed. Errors: "
  const EXHAUSTED_ADVICE: string := ". Please check your API keys in Vercel environment variables."

  /** " (and k more)" for k = the failures beyond the first three. */
  function MoreSuffix(count: nat): string {
    if count > 3 then " (and " + NatToString(count - 3) + " more)" else ""
  }

  /** The failures the message spells out: the first three. */
  function Shown(errors: seq<ErrorRecord>): seq<ErrorRecord> {
    errors[..Min(3, |errors|)]
  }

  function Exhausted(details: string, count: nat): string {
    EXHAUSTED_PREFIX + details + MoreSuffix(count) + EXHAUSTED_ADVICE
  }

  /** The first three failures joined by "; ", a count of the rest, and the
      advice. */
  function ExhaustionMessage(errors: seq<ErrorRecord>): string {
    Exhausted(Join(FormatErrors(Shown(errors)), "; "), |errors|)
  }

  lemma ExhaustedParts(details: string, count: nat)
    ensures EXHAUSTED_PREFIX <= Exhausted(details, count)
    ensures IsInfix(details, Exhausted(details, count))
    ensures IsInfix(MoreSuffix(count), Exhausted(details, count))
  {
    PartsOfConcat(EXHAUSTED_PREFIX, details, MoreSuffix(count), EXHAUSTED_ADVICE);
  }

  /** An infix of a part is an infix of the whole. */
  lemma InfixTrans(a: string, b: string, c: string)
    requires IsInfix(a, b) && IsInfix(b, c)
    ensures IsInfix(a, c)
    decreases |c|
  {
    if b <= c {
      InfixOfPrefixOf(a, b, c);
    } else {
      InfixTrans(a, b, c[1..]);
    }
  }

  lemma InfixOfPrefixOf(a: string, b: string, c: string)
    requires IsInfix(a, b) && b <= c
    ensures IsInfix(a, c)
  {
    assert c == b + c[|b|..];
    InfixOfPrefix(a, b, c[|b|..]);
  }

  /** The exhaustion message starts with its fixed text, lists each of the
      first three failures, and counts the others. */
  lemma ExhaustionMessageMentions(errors: seq<ErrorRecord>, k: nat)
    requires k < 3 && k < |errors|
    ensures EXHAUSTED_PREFIX <= ExhaustionMessage(errors)
    ensures IsInfix(FormatError(errors[k]), ExhaustionMessage(errors))
    ensures |errors| > 3 ==> IsInfix(" (and " + NatToString(|errors| - 3) + " more)", ExhaustionMessage(errors))
  {
    var lines := FormatErrors(Shown(errors));
    var details := Join(lines, "; ");
    ExhaustedParts(details, |errors|);
    assert lines[k] == FormatError(errors[k]);
    InfixOfJoin(lines, "; ", k);
    InfixTrans(FormatError(errors[k]), details, ExhaustionMessage(errors));
  }

  /** With three or fewer failures no count of others is appended. */
  lemma ExhaustionMessageShort(errors: seq<ErrorRecord>)
    requires |errors| <= 3
    ensures ExhaustionMessage(errors) == EXHAUSTED_PREFIX + Join(FormatErrors(errors), "; ") + EXHAUSTED_ADVICE
  {
    assert Shown(errors) == errors;
    assert MoreSuffix(|errors|) == "";
    DropEmpty(EXHAUSTED_PREFIX + Join(FormatErrors(errors), "; "), EXHAUSTED_ADVICE);
  }

  lemma DropEmpty(a: string, c: string)
    ensures a + "" + c == a + c
  {
  }

  // ---------------------------------------------------------------------
  // route

  /** The providers (in `ps`'s order) that report themselves available. */
  function AvailableOf(ps: seq<ProviderName>, ad: Adapters): seq<ProviderName>
    decreases |ps|
  {
    if |ps| == 0 then []
    else AvailableOf(ps[..|ps| - 1], ad) + (if ad.available(ps[|ps| - 1]) then [ps[|ps| - 1]] else [])
  }

  /** The providers (in `ps`'s order) that do not. */
  function UnavailableOf(ps: seq<ProviderName>, ad: Adapters): seq<ProviderName>
    decreases |ps|
  {
    if |ps| == 0 then []
    else UnavailableOf(ps[..|ps| - 1], ad) + (if ad.available(ps[|ps| - 1]) then [] else [ps[|ps| - 1]])
  }

  /** The pre-check over the three registered providers. */
  lemma ProvidersOf(ad: Adapters)
    ensures AvailableOf(PROVIDER_ORDER, ad) ==
      (if ad.available(Groq) then [Groq] else []) + (if ad.available(OpenRouter) then [OpenRouter] else [])
      + (if ad.available(HuggingFace) then [HuggingFace] else [])
    ensures UnavailableOf(PROVIDER_ORDER, ad) ==
      (if ad.available(Groq) then [] else [Groq]) + (if ad.available(OpenRouter) then [] else [OpenRouter])
      + (if ad.available(HuggingFace) then [] else [HuggingFace])
  {
    var ps := PROVIDER_ORDER;
    assert ps[..|ps| - 1] == [Groq, OpenRouter];
    assert [Groq, OpenRouter][..1] == [Groq];
    assert [Groq][..0] == [];
  }

  /** What `route(request)` returns or throws, and the requests it hands to
      adapters. */
  datatype RouteOutcome = RouteOutcome(result: Result<LLMResponse, string>, dispatched: seq<LLMRequest>)

  function RouteSpec(req: LLMRequest, ad: Adapters): RouteOutcome {
    RouteFrom(ChainFor(req), Prepare(req), ad)
  }

  /** The pre-check, then the walk of `chain` with the prepared request. */
  function RouteFrom(chain: seq<LLMModel>, sent: LLMRequest, ad: Adapters): RouteOutcome {
    if AvailableOf(PROVIDER_ORDER, ad) == [] then
      RouteOutcome(Err(NoProvidersMessage(UnavailableOf(PROVIDER_ORDER, ad))), [])
    else
      var a := TryChain(chain, sent, ad);
      if a.response.Some? then RouteOutcome(Ok(a.response.value), a.dispatched)
      else RouteOutcome(Err(ExhaustionMessage(a.errors)), a.dispatched)
  }

  lemma GroqKeyName()
    ensures KeyName(Groq) == "GROQ_API_KEY"
  {
    assert AsciiUpper("groq") == "GROQ";
  }

  lemma OpenRouterKeyName()
    ensures KeyName(OpenRouter) == "OPENROUTER_API_KEY"
  {
    assert AsciiUpper("openrouter") == "OPENROUTER";
  }

  lemma HuggingFaceKeyName()
    ensures KeyName(HuggingFace) == "HUGGINGFACE_API_KEY"
  {
    assert AsciiUpper("huggingface") == "HUGGINGFACE";
  }

  /** The key list of the no-provider error names all three variables. */
  lemma AllKeyNames()
    ensures Join(KeyNames(PROVIDER_ORDER), ", ") == "GROQ_API_KEY, OPENROUTER_API_KEY, HUGGINGFACE_API_KEY"
  {
    GroqKeyName();
    OpenRouterKeyName();
    HuggingFaceKeyName();
    assert KeyNames(PROVIDER_ORDER) == [KeyName(Groq), KeyName(OpenRouter), KeyName(HuggingFace)];
    JoinThree(KeyName(Groq), KeyName(OpenRouter), KeyName(HuggingFace), ", ");
    KeyListLiteral();
  }

  lemma KeyListLiteral()
    ensures "GROQ_API_KEY" + ", " + "OPENROUTER_API_KEY" + ", " + "HUGGINGFACE_API_KEY"
      == "GROQ_API_KEY, OPENROUTER_API_KEY, HUGGINGFACE_API_KEY"
  {
    KeyListHead();
    KeyListTail();
  }

  lemma KeyListHead()
    ensures "GROQ_API_KEY" + ", " + "OPENROUTER_API_KEY" == "GROQ_API_KEY, OPENROUTER_API_KEY"
  {
  }

  lemma KeyListTail()
    ensures "GROQ_API_KEY, OPENROUTER_API_KEY" + ", " + "HUGGINGFACE_API_KEY"
      == "GROQ_API_KEY, OPENROUTER_API_KEY, HUGGINGFACE_API_KEY"
  {
  }

  /** The no-provider error names all three keys. */
  lemma NoProvidersMessageText()
    ensures NoProvidersMessage(PROVIDER_ORDER) ==
      NO_PROVIDERS_PREFIX + "GROQ_API_KEY, OPENROUTER_API_KEY, HUGGINGFACE_API_KEY"
  {
    AllKeyNames();
  }

  /** With no provider configured the router fails before dispatching any
      request, listing every provider's key. */
  lemma RouteWithoutProviders(req: LLMRequest, ad: Adapters)
    requires !ad.available(Groq) && !ad.available(OpenRouter) && !ad.available(HuggingFace)
    ensures RouteSpec(req, ad) == RouteOutcome(Err(NoProvidersMessage(PROVIDER_ORDER)), [])
  {
    ProvidersOf(ad);
    assert AvailableOf(PROVIDER_ORDER, ad) == [];
    assert UnavailableOf(PROVIDER_ORDER, ad) == PROVIDER_ORDER;
  }

  /** A success is the answer of the first model of the chain that works;
      an exhaustion means no model of the chain works. */
  lemma RouteResult(req: LLMRequest, ad: Adapters)
    requires AvailableOf(PROVIDER_ORDER, ad) != []
    ensures var chain, sent := ChainFor(req), Prepare(req);
      RouteSpec(req, ad).result.Ok? <==> exists j :: 0 <= j < |chain| && Works(chain[j], sent, ad)
  {
    var chain, sent := ChainFor(req), Prepare(req);
    TryChainShape(chain, sent, ad);
    var a := TryChain(chain, sent, ad);
    if a.response.None? {
      forall j | 0 <= j < |chain| ensures !Works(chain[j], sent, ad) {
        assert a.errors[j].model == chain[j].id;
      }
    }
  }

  /** Elements of a slice of a suffix are elements of the whole. */
  lemma SliceMembers<T>(s: seq<T>, k: nat, n: nat)
    requires k <= |s| && n <= |s| - k
    ensures forall x :: x in s[k..][..n] ==> x in s
  {
    forall x | x in s[k..][..n] ensures x in s {
      var j :| 0 <= j < n && s[k..][..n][j] == x;
      assert s[k + j] == x;
    }
  }

  /** Every request the router hands to an adapter keeps the caller's
      messages and temperature, asks for at most 4096 tokens, and names a
      catalog model and that model's provider. */
  lemma RouteDispatchesCatalogModels(req: LLMRequest, ad: Adapters)
    ensures forall d :: d in RouteSpec(req, ad).dispatched ==>
      && d.messages == req.messages && d.temperature == req.temperature
      && RequestedTokens(d) <= MAX_TOKENS_PER_REQUEST
      && exists m :: m in MODELS && d == Dispatch(Prepare(req), m)
  {
    if AvailableOf(PROVIDER_ORDER, ad) != [] {
      var sent := Prepare(req);
      var k := RouteWalksCatalogSuffix(req, ad);
      TryChainDispatchesFrom(MODELS, k, sent, ad);
      forall d | d in RouteSpec(req, ad).dispatched
        ensures && d.messages == req.messages && d.temperature == req.temperature
          && RequestedTokens(d) <= MAX_TOKENS_PER_REQUEST
          && exists m :: m in MODELS && d == Dispatch(sent, m)
      {
        assert d in TryChain(MODELS[k..], sent, ad).dispatched;
        var m :| m in MODELS && d == Dispatch(sent, m);
        assert d.messages == sent.messages && d.temperature == sent.temperature;
        assert RequestedTokens(d) == RequestedTokens(sent);
      }
    }
  }

  /** Past the pre-check, the router's dispatches are those of walking the
      catalog from the resolved model on. */
  lemma RouteWalksCatalogSuffix(req: LLMRequest, ad: Adapters) returns (k: nat)
    requires AvailableOf(PROVIDER_ORDER, ad) != []
    ensures k <= |MODELS|
    ensures RouteSpec(req, ad).dispatched == TryChain(MODELS[k..], Prepare(req), ad).dispatched
  {
    ChainForIsCatalogSuffix(req);
    k := IndexOfId(MODELS, Resolve(Prepare(req)).id);
    RouteFromDispatched(ChainFor(req), Prepare(req), ad);
  }

  lemma RouteFromDispatched(chain: seq<LLMModel>, sent: LLMRequest, ad: Adapters)
    requires AvailableOf(PROVIDER_ORDER, ad) != []
    ensures RouteFrom(chain, sent, ad).dispatched == TryChain(chain, sent, ad).dispatched
  {
  }

  /** Walking a suffix of `s` dispatches only models of `s`. */
  lemma TryChainDispatchesFrom(s: seq<LLMModel>, k: nat, sent: LLMRequest, ad: Adapters)
    requires k <= |s|
    ensures forall d :: d in TryChain(s[k..], sent, ad).dispatched ==> exists m :: m in s && d == Dispatch(sent, m)
  {
    var chain := s[k..];
    var a := TryChain(chain, sent, ad);
    TryChainDispatched(chain, sent, ad);
    DispatchesFromChain(chain[..Tried(a)], sent, ad);
    SliceMembers(s, k, Tried(a));
  }

  /** Each dispatch of `DispatchesOf(chain)` is a chain model stamped on the
      request. */
  lemma {:induction false} DispatchesFromChain(chain: seq<LLMModel>, req: LLMRequest, ad: Adapters)
    ensures forall d :: d in DispatchesOf(chain, req, ad) ==> exists m :: m in chain && d == Dispatch(req, m)
    decreases |chain|
  {
    if |chain| > 0 {
      DispatchesFromChain(chain[1..], req, ad);
      forall d | d in DispatchesOf(chain, req, ad) ensures exists m :: m in chain && d == Dispatch(req, m) {
        if d !in DispatchesOf(chain[1..], req, ad) {
          assert d == Dispatch(req, chain[0]);
        } else {
          var m :| m in chain[1..] && d == Dispatch(req, m);
          assert m in chain;
        }
      }
    }
  }

  /** The safety clamp reads neither the model nor the provider. */
  lemma SafetyIgnoresProvider(req: LLMRequest, p: Option<ProviderName>)
    ensures ApplySafety(req.(provider := p)) == ApplySafety(req).(provider := p)
  {
    var req' := req.(provider := p);
    assert PromptTokens(req') == PromptTokens(req);
    assert RequestedTokens(req') == RequestedTokens(req);
    assert IsRequestSafe(req') == IsRequestSafe(req);
  }

  lemma PrepareIgnoresProvider(req: LLMRequest, p: Option<ProviderName>)
    ensures Prepare(req.(provider := p)) == if Truthy(req.model) then Prepare(req).(provider := p) else Prepare(req)
  {
    SafetyIgnoresProvider(req, p);
    SelectModelIgnoresMaxTokens(ApplySafety(req.(provider := p)), ApplySafety(req));
  }

  /** The `provider` the caller pins is never used: the outcome is the same
      without it. */
  lemma RouteIgnoresPinnedProvider(req: LLMRequest, p: Option<ProviderName>, ad: Adapters)
    ensures RouteSpec(req.(provider := p), ad) == RouteSpec(req, ad)
  {
    PrepareIgnoresProvider(req, p);
    ChainForIgnoresProvider(req, p);
    if Truthy(req.model) {
      RouteFromIgnoresProvider(ChainFor(req), Prepare(req), p, ad);
    }
  }

  lemma ChainForIgnoresProvider(req: LLMRequest, p: Option<ProviderName>)
    ensures ChainFor(req.(provider := p)) == ChainFor(req)
  {
    PrepareIgnoresProvider(req, p);
    ResolveReadsModel(Prepare(req.(provider := p)), Prepare(req));
  }

  /** Resolution reads only the request's model. */
  lemma ResolveReadsModel(a: LLMRequest, b: LLMRequest)
    requires a.model == b.model
    ensures Resolve(a) == Resolve(b)
  {
  }

  lemma RouteFromIgnoresProvider(chain: seq<LLMModel>, sent: LLMRequest, p: Option<ProviderName>, ad: Adapters)
    ensures RouteFrom(chain, sent.(provider := p), ad) == RouteFrom(chain, sent, ad)
  {
    TryChainIgnoresProvider(chain, sent, p, ad);
  }

  /** With only a HuggingFace key the pre-check passes, but no catalog
      model is served by HuggingFace: every model of the chain fails as not
      configured and nothing is dispatched. */
  lemma HuggingFaceOnlyExhausts(req: LLMRequest, env: Env, v: Vendors)
    requires !Truthy(env.groqApiKey) && !Truthy(env.openRouterApiKey) && !Truthy(env.aiApiKey)
    requires Truthy(env.huggingFaceApiKey)
    ensures var out := RouteSpec(req, StandardAdapters(env, v));
      && out.result.Err?
      && EXHAUSTED_PREFIX <= out.result.error
      && out.dispatched == []
  {
    var ad := StandardAdapters(env, v);
    assert ad.available(HuggingFace) && !ad.available(Groq) && !ad.available(OpenRouter);
    ProvidersOf(ad);
    ChainUnavailable(req, ad);
    TryChainAllUnavailable(ChainFor(req), Prepare(req), ad);
    var a := TryChain(ChainFor(req), Prepare(req), ad);
    ExhaustedParts(Join(FormatErrors(Shown(a.errors)), "; "), |a.errors|);
  }

  /** Without Groq and OpenRouter no model of any chain can be served. */
  lemma ChainUnavailable(req: LLMRequest, ad: Adapters)
    requires !ad.available(Groq) && !ad.available(OpenRouter)
    ensures forall i :: 0 <= i < |ChainFor(req)| ==> !ad.available(ChainFor(req)[i].provider)
  {
    ChainForIsCatalogSuffix(req);
    CatalogSuffixUnavailable(IndexOfId(MODELS, Resolve(Prepare(req)).id), ad);
  }

  lemma CatalogSuffixUnavailable(k: nat, ad: Adapters)
    requires k <= |MODELS|
    requires !ad.available(Groq) && !ad.available(OpenRouter)
    ensures forall i :: 0 <= i < |MODELS| - k ==> !ad.available(MODELS[k..][i].provider)
  {
    SuffixMembers(MODELS, k);
    NoHuggingFaceModels();
    forall i | 0 <= i < |MODELS| - k ensures !ad.available(MODELS[k..][i].provider) {
      var m := MODELS[k..][i];
      assert m.provider == Groq || m.provider == OpenRouter;
    }
  }

  /** Elements of a suffix are elements of the whole. */
  lemma SuffixMembers<T>(s: seq<T>, k: nat)
    requires k <= |s|
    ensures forall i :: 0 <= i < |s| - k ==> s[k..][i] in s
  {
    forall i | 0 <= i < |s| - k ensures s[k..][i] in s {
      assert s[k..][i] == s[k + i];
    }
  }

  // ---------------------------------------------------------------------
  // The router object

  class LLMRouter {
    const tokenManager: TokenManager
    const adapters: Adapters

    /** Registers the three adapters built from the environment. */
    constructor (tm: TokenManager, env: Env, vendors: Vendors)
      ensures tokenManager == tm && adapters == StandardAdapters(env, vendors)
    {
      tokenManager := tm;
      adapters := StandardAdapters(env, vendors);
    }

    /** The pre-check loop: each registered provider, in registration order,
        is asked whether it is available. */
    method CheckProviders() returns (available: seq<ProviderName>, unavailable: seq<ProviderName>)
      ensures available == AvailableOf(PROVIDER_ORDER, adapters)
      ensures unavailable == UnavailableOf(PROVIDER_ORDER, adapters)
    {
      available, unavailable := [], [];
      for i := 0 to |PROVIDER_ORDER|
        invariant available == AvailableOf(PROVIDER_ORDER[..i], adapters)
        invariant unavailable == UnavailableOf(PROVIDER_ORDER[..i], adapters)
      {
        assert PROVIDER_ORDER[..i + 1][..i] == PROVIDER_ORDER[..i];
        var p := PROVIDER_ORDER[i];
        if adapters.available(p) {
          available := available + [p];
        } else {
          unavailable := unavailable + [p];
        }
      }
      assert PROVIDER_ORDER[..|PROVIDER_ORDER|] == PROVIDER_ORDER;
    }

    /** The try loop: each model of the chain in turn, skipping models
        whose provider is unavailable, until one answers; its usage is
        tracked. */
    method TryModels(chain: seq<LLMModel>, req: LLMRequest) returns (a: Attempt)
      modifies tokenManager
      ensures a == TryChain(chain, req, adapters)
      ensures a.response.Some? ==> tokenManager.sessionUsage == old(tokenManager.sessionUsage) + [a.response.value.usage]
      ensures a.response.None? ==> tokenManager.sessionUsage == old(tokenManager.sessionUsage)
    {
      var errors: seq<ErrorRecord> := [];
      var dispatched: seq<LLMRequest> := [];
      for i := 0 to |chain|
        invariant TryChain(chain, req, adapters) == After(errors, dispatched, TryChain(chain[i..], req, adapters))
        invariant tokenManager.sessionUsage == old(tokenManager.sessionUsage)
      {
        var m := chain[i];
        assert chain[i..][1..] == chain[i + 1..];
        if !adapters.available(m.provider) {
          AfterUnavailable(errors, dispatched, chain[i..], req, adapters);
          errors := errors + [ErrorRecord(m.id, m.provider, NOT_CONFIGURED)];
          continue;
        }
        var sent := Dispatch(req, m);
        var response := adapters.chat(m.provider, sent);
        if response.Ok? {
          AfterSuccess(errors, dispatched, chain[i..], req, adapters);
          dispatched := dispatched + [sent];
          tokenManager.TrackUsage(response.value.usage);
          return Attempt(Some(response.value), errors, dispatched);
        }
        AfterFailure(errors, dispatched, chain[i..], req, adapters);
        dispatched := dispatched + [sent];
        errors := errors + [ErrorRecord(m.id, m.provider, Reason(response.error))];
      }
      assert chain[|chain|..] == [];
      return Attempt(None, errors, dispatched);
    }

    /** `route(request)`: the outcome is `RouteSpec`; the usage of a
        successful response is tracked, and nothing is tracked on failure. */
    method Route(request: LLMRequest) returns (result: Result<LLMResponse, string>, dispatched: seq<LLMRequest>)
      modifies tokenManager
      ensures RouteOutcome(result, dispatched) == RouteSpec(request, adapters)
      ensures result.Ok? ==> tokenManager.sessionUsage == old(tokenManager.sessionUsage) + [result.value.usage]
      ensures result.Err? ==> tokenManager.sessionUsage == old(tokenManager.sessionUsage)
    {
      var req := request;
      var safety := IsRequestSafe(req);
      if !safety.safe {
        req := req.(maxTokens := Some(safety.recommendedMaxTokens));
      }
      if !Truthy(req.model) {
        var selected := SelectModel(req, None);
        req := req.(model := Some(selected.id), provider := Some(selected.provider));
      }
      assert req == Prepare(request);
      var model := Resolve(req);
      var chain := FallbackChainForModel(model);
      var available, unavailable := CheckProviders();
      if |available| == 0 {
        result, dispatched := Err(NoProvidersMessage(unavailable)), [];
      } else {
        var a := TryModels(chain, req);
        result := if a.response.Some? then Ok(a.response.value) else Err(ExhaustionMessage(a.errors));
        dispatched := a.dispatched;
      }
    }
  }
}
