# AI Dev Agent: a verified model of the LLM routing core

This project models the server-side core of a Next.js "AI Dev Agent" in Dafny. It covers these parts:

- **The model registry** (`lib/models.ts`). Six models in three cost tiers (free, mid, high). It provides lookup by tier, the default model, the free → mid → high fallback chain and lookup by id.
- **The token manager** (`lib/token-manager.ts`). It estimates tokens as ⌈characters / 4⌉. Its safety check has a 4096-token hard cap and a 3072-token warning threshold, and clamps `maxTokens` when the cap is exceeded. It selects a model by prompt size or forced tier, and keeps a session usage log (a class with a `seq` field).
- **The three provider adapters** (`lib/llm/providers/*.ts`): Groq, OpenRouter and HuggingFace. The model covers how each finds its API key, including the shared `AI_API_KEY`. It also covers the vendor payload each builds, the clamping of `max_tokens`, the prompt format for HuggingFace, how each turns the vendor's answer into an `LLMResponse`, and their error messages. The vendor call is a function parameter.
- **The router** (`lib/llm/router.ts`), a class with the token manager and the adapters as fields. `route` clamps the request and picks a model when none is given. It builds the fallback chain from the resolved model and checks that at least one provider is configured. Then it tries each model's provider in turn, recording errors, until one answers. Otherwise it fails with a summary of the first three errors. Both loops are `for` loops with invariants, proved equal to the pure specification `RouteSpec`.
- **The two API routes** (`app/api/chat/route.ts` and `app/api/generate/route.ts`). Both use the same fixed-window rate limiter: 30 requests per minute for chat and 10 for generate. It is modelled as a class holding the per-client table as a `map`. The model covers input validation with 429/400/500 replies, request shaping, and the routing or media-generation decision.
- **The client store** (`store/useAppStore.ts`). The editor, upload, chat and token-counter reducers are pure functions on an `AppState` value. Invariant: open paths are distinct, and the active file is one of them.
- **The language helper** (`lib/utils.ts`). It maps a file extension to an editor language.

Foreign effects are parameters:

- the process environment (`Env`);
- the current time (`now`);
- the vendor SDK and HTTP calls (function-typed values);
- `encodeURIComponent` (`encode`);
- the already-parsed JSON body (`ParsedBody` and `ParsedRequest`, which carry a parse failure as a value).

Each method returns the requests it handed to adapters (`dispatched`), so that contracts can talk about the outbound calls.

File layout:

| file | module | models |
|---|---|---|
| `wrappers.dfy` | `Wrappers` | `Option`, `Result` |
| `types.dfy` | `Types` | the shared record types of `types/index.ts` |
| `js.dfy` | `Js` | the JavaScript semantics the source relies on: `a \|\| b` defaults, truthiness, `join`, ASCII case mapping, whitespace, decimal rendering |
| `models.dfy` | `Models` | `lib/models.ts` |
| `token_manager.dfy` | `Tokens` | `lib/token-manager.ts` |
| `provider_base.dfy` | `ProviderBase` | `lib/llm/providers/base.ts` and the shared response normalisation |
| `groq.dfy`, `openrouter.dfy`, `huggingface.dfy` | `GroqAdapter`, `OpenRouterAdapter`, `HuggingFaceAdapter` | the three adapters |
| `credentials.dfy` | `Credentials` | how the three adapters share `AI_API_KEY` |
| `router.dfy` | `Router` | `lib/llm/router.ts` |
| `rate_limit.dfy` | `RateLimit` | `checkRateLimit` of both API routes |
| `chat_route.dfy` | `ChatRoute` | `app/api/chat/route.ts` |
| `generate_route.dfy` | `GenerateRoute` | `app/api/generate/route.ts` |
| `app_store.dfy` | `AppStore` | `store/useAppStore.ts` |
| `utils.dfy` | `Utils` | `lib/utils.ts` |

Two behaviours of the code that are easy to misread:

- `isRequestSafe` compares with a strict `>`, so exactly 4096 tokens is safe, with the "approaching" warning (`Tokens.SafetyBandEdges`).
- Groq claims any non-empty `AI_API_KEY`, so an `hf_` key is claimed by both Groq and HuggingFace (`Credentials.SharedKeyRouting`, `Credentials.SharedHuggingFaceKeyClaimedTwice`).

## Model

| member | source | states |
|---|---|---|
| Models.ModelsOfTierMembers | lib/models.ts:64-66 | filtering by tier keeps exactly the models of that tier |
| Models.ModelsOfTierAppend | lib/models.ts:64-66 | filtering distributes over concatenation |
| Models.GetModelsByTier | lib/models.ts:64-66 | a model is in the result iff it is in the catalogue and has the requested tier |
| Models.CatalogTiers | lib/models.ts:7-59 | the catalogue lists three free, then two mid, then one high model |
| Models.DefaultOf | lib/models.ts:71-73 | the default is a member of the list; it is free iff the list holds a free model |
| Models.DefaultModelIsFirstFree | lib/models.ts:71-73 | the default model is the first catalogue entry, the free OpenRouter Llama 3.1 70B |
| Models.FallbackChainIsPermutation | lib/models.ts:78-84 | the free/mid/high chain is a permutation of its input |
| Models.FallbackChainIsTierSorted | lib/models.ts:78-84 | the chain is ordered free → mid → high |
| Models.SortedIsOwnFallbackChain | lib/models.ts:78-84 | a tier-sorted list is its own fallback chain |
| Models.FallbackChainIsCatalog | lib/models.ts:78-84 | `getFallbackChain()` is the catalogue in its declared order |
| Models.IndexOfId | lib/models.ts:89-91 | the index of the first model with the id, or -1 iff none has it |
| Models.FindModel | lib/models.ts:89-91 | a found model is in the catalogue and has the id; none is found iff no model has it |
| Models.CatalogIdsDistinct | lib/models.ts:7-59 | catalogue ids are pairwise distinct |
| Models.FindModelUnique | lib/models.ts:89-91 | looking up a catalogue model's id returns that model |
| Models.IndexOfCatalogId | lib/models.ts:89-91 | looking up the k-th model's id returns k |
| Models.NoHuggingFaceModels | lib/models.ts:7-59 | no catalogue model is served by HuggingFace |
| Tokens.EstimateTokens | lib/token-manager.ts:56-59 | the estimate is ⌈length / 4⌉: 4n ≥ length > 4n − 4 |
| Tokens.EstimateTokensEmpty | lib/token-manager.ts:56-59 | the empty text costs 0 tokens |
| Tokens.EstimateTokensMonotone | lib/token-manager.ts:56-59 | a longer text never has a smaller estimate |
| Tokens.PromptTokensFormula | lib/token-manager.ts:69-71 | the prompt estimate is that of all contents joined by single spaces |
| Tokens.PromptTokensIsNotPerMessageSum | lib/token-manager.ts:69-71 | one estimate of the joined text differs from the sum of per-message estimates |
| Tokens.IsRequestSafe | lib/token-manager.ts:64-100 | safe iff the estimate is ≤ 4096; a warning iff it is > 3072; a safe request keeps its `maxTokens \|\| 2048`; an unsafe one is advised max(4096 − prompt − 100, 256), which lies in 256..3996, with the "Reducing max_tokens" warning |
| Tokens.SafetyBandEdges | lib/token-manager.ts:74-94 | 4096 is safe with the warning, 4097 unsafe, 3073 warned, 3072 quiet |
| Tokens.ApplySafety | lib/llm/router.ts:27-32 | the router's clamp changes only `maxTokens`, and only for an unsafe request; the result requests at most 4096 |
| Tokens.ApplySafetyIdempotent | lib/llm/router.ts:27-32 | clamping twice equals clamping once |
| Tokens.ApplySafetyFits | lib/token-manager.ts:74-86 | for a prompt of at most 3740 tokens, a clamped request passes the check |
| Tokens.SelectModel | lib/token-manager.ts:105-129 | the selected model is always a catalogue model |
| Tokens.SelectModelByEstimate | lib/token-manager.ts:113-128 | under 3000 prompt tokens the first free model is chosen; otherwise the first mid model `llama-3.1-70b-instruct` |
| Tokens.SelectModelForcedTier | lib/token-manager.ts:108-111 | a forced tier yields that tier's first model |
| Tokens.TotalTokensOfSnoc | lib/token-manager.ts:42-44 | the total of a log with one more entry grows by that entry's total |
| Tokens.TokenManager.TrackUsage | lib/token-manager.ts:35-37 | appends the usage to the log, and the running total grows by its tokens |
| Tokens.TokenManager.ClearSession | lib/token-manager.ts:49-51 | empties the log; the total becomes 0 |
| ProviderBase.FormatMessages | lib/llm/providers/base.ts:25-32 | one formatted message per message, same role name and content |
| ProviderBase.CreateTokenUsage | lib/llm/providers/base.ts:44-57 | prompt and completion estimates, their sum as total, within 8 of (length sum) / 4 |
| ProviderBase.NormaliseCompletion | lib/llm/providers/groq.ts:47-62 | content of the first choice or "", truncated iff finish reason "length", vendor usage with missing counts as 0, the vendor's model and the adapter's provider |
| GroqAdapter.GroqAvailable | lib/llm/providers/groq.ts:20-23 | available iff `GROQ_API_KEY` or `AI_API_KEY` is non-empty |
| GroqAdapter.GroqPayload | lib/llm/providers/groq.ts:30-45 | the request's model or `llama-3.1-8b-instant`, formatted messages, `maxTokens \|\| 2048` capped at 8192, temperature `\|\| 0.7` |
| GroqAdapter.GroqChat | lib/llm/providers/groq.ts:25-66 | not configured → its error; vendor success → the normalised answer; vendor error → "Groq API error: " + message |
| OpenRouterAdapter.OpenRouterAvailable | lib/llm/providers/openrouter.ts:9-28 | available iff `OPENROUTER_API_KEY` is set, or `AI_API_KEY` is set and starts with neither `gsk_` nor `hf_` |
| OpenRouterAdapter.OpenRouterPayload | lib/llm/providers/openrouter.ts:35-54 | the request's model or the free 70B model, formatted messages, tokens capped at 8192, temperature `\|\| 0.7` |
| OpenRouterAdapter.OpenRouterChat | lib/llm/providers/openrouter.ts:30-76 | not configured → its error; success → the normalised answer; failure → "OpenRouter API error: " + message |
| HuggingFaceAdapter.HuggingFaceAvailable | lib/llm/providers/huggingface.ts:9-27 | available iff `HUGGINGFACE_API_KEY` is set or `AI_API_KEY` starts with `hf_` |
| HuggingFaceAdapter.FormatPromptForHF | lib/llm/providers/huggingface.ts:79-93 | the prompt always ends in "\n\nAssistant:" |
| HuggingFaceAdapter.FormatPromptForHFShape | lib/llm/providers/huggingface.ts:79-93 | for a non-empty conversation, the prompt is every rendered turn followed by "\n\n", then "Assistant:" |
| HuggingFaceAdapter.FormatPromptForHFKeepsTurns | lib/llm/providers/huggingface.ts:79-93 | every rendered turn occurs in the prompt |
| HuggingFaceAdapter.HuggingFacePayload | lib/llm/providers/huggingface.ts:35-57 | URL is the endpoint + model, the inputs are the HF prompt, new tokens capped at 4096, temperature `\|\| 0.7`, no full text |
| HuggingFaceAdapter.HFContent | lib/llm/providers/huggingface.ts:59-61 | the generated text of the first list item, or of the object; "" exactly when that is missing or empty |
| HuggingFaceAdapter.HuggingFaceChat | lib/llm/providers/huggingface.ts:29-74 | not configured → its error; failure → "HuggingFace API error: " + message; success → the content with estimated usage for the request's model, never marked truncated |
| Credentials.SharedKeyRouting | lib/llm/providers/openrouter.ts:13-23 | with only `AI_API_KEY` set: Groq always claims it; HuggingFace iff it starts `hf_`; OpenRouter iff it starts with neither prefix; never both OpenRouter and HuggingFace |
| Credentials.SharedHuggingFaceKeyClaimedTwice | lib/llm/providers/groq.ts:20-23 | an `hf_` shared key makes both Groq and HuggingFace available |
| Router.Prepare | lib/llm/router.ts:27-39 | messages and temperature kept, at most 4096 tokens requested; an explicit model is kept, otherwise the selected model's id and provider are filled in |
| Router.SelectModelIgnoresMaxTokens | lib/llm/router.ts:35-39 | selection depends only on the messages, so clamping before selecting changes nothing |
| Router.Resolve | lib/llm/router.ts:42 | the catalogue model with the request's id, else the default model |
| Router.FallbackChainForKnownId | lib/llm/router.ts:140-158 | for a known id, the model followed by the catalogue after it |
| Router.FallbackChainForUnknownId | lib/llm/router.ts:144-146 | for an unknown id, just the default model |
| Router.FallbackChainFromCatalog | lib/llm/router.ts:140-158 | a catalogue model's chain is the catalogue suffix from it |
| Router.ChainForIsCatalogSuffix | lib/llm/router.ts:41-43 | the chain `route` walks is always a suffix of the catalogue |
| Router.Reason | lib/llm/router.ts:119 | a recorded error is the thrown message, or "Unknown error" when that is empty |
| Router.TryChainShape | lib/llm/router.ts:78-123 | one error per model tried, in chain order, with its id, provider and reason; exhaustion iff all models fail; otherwise the first working model's answer |
| Router.TryChainDispatched | lib/llm/router.ts:97-104 | the adapters receive the request re-targeted at each tried model whose provider is available, in order |
| Router.TryChainAllUnavailable | lib/llm/router.ts:87-95 | if no provider of the chain is available, nothing is dispatched and every error is "API key not configured" |
| Router.TryChainIgnoresProvider | lib/llm/router.ts:98-102 | the request's own provider field never affects the walk |
| Router.ExhaustionMessageMentions | lib/llm/router.ts:126-134 | the exhaustion message starts with its prefix, quotes each of the first three errors, and counts the rest |
| Router.ExhaustionMessageShort | lib/llm/router.ts:126-134 | with at most three errors, the message is prefix + the errors joined by "; " + advice |
| Router.ProvidersOf | lib/llm/router.ts:46-66 | the pre-check partitions groq, openrouter and huggingface, in this order, into available and unavailable |
| Router.NoProvidersMessageText | lib/llm/router.ts:68-75 | with nothing configured, the message lists all three key names |
| Router.RouteWithoutProviders | lib/llm/router.ts:68-75 | no available provider → that error, and no request dispatched |
| Router.RouteResult | lib/llm/router.ts:77-134 | `route` succeeds iff some model of its chain works |
| Router.RouteDispatchesCatalogModels | lib/llm/router.ts:25-123 | every dispatched request has the caller's messages and temperature, at most 4096 tokens requested, and targets a catalogue model |
| Router.RouteIgnoresPinnedProvider | lib/llm/router.ts:35-43 | the caller's `provider` field never changes the outcome |
| Router.HuggingFaceOnlyExhausts | lib/llm/router.ts:80-134 | with only a HuggingFace key, `route` dispatches nothing and fails with the exhaustion message, because no catalogue model uses HuggingFace |
| Router.LLMRouter.CheckProviders | lib/llm/router.ts:46-66 | the loop returns the available and unavailable providers of the pre-check |
| Router.LLMRouter.TryModels | lib/llm/router.ts:78-123 | the loop's attempt equals the specification walk; a success adds its usage to the log, failure adds nothing |
| Router.LLMRouter.Route | lib/llm/router.ts:25-135 | the result and the dispatched requests equal `RouteSpec`; usage is tracked exactly on success |
| RateLimit.ClientKey | app/api/chat/route.ts:31 | `x-forwarded-for`, else `x-real-ip`, else "unknown" |
| RateLimit.Check | app/api/chat/route.ts:11-26 | a new or expired client starts a window with count 1; within the window, allowed iff count < limit, which then increments; a refusal changes nothing; other clients are untouched |
| RateLimit.CheckKeepsCountsBounded | app/api/chat/route.ts:11-26 | every count stays between 1 and the limit |
| RateLimit.AllowedWithinWindow | app/api/chat/route.ts:15-25 | within a window, min(requests, limit − count) are allowed |
| RateLimit.AtMostLimitPerWindow | app/api/chat/route.ts:11-26 | from a fresh window, requests within one minute get min(n, limit) allowances |
| RateLimit.RateLimiter.CheckRateLimit | app/api/generate/route.ts:9-24 | the decision and the new table are those of `Check` |
| ChatRoute.ErrorText | app/api/chat/route.ts:82 | a 500 reply's text is the error's message, or "An error occurred while processing your request" when that is empty |
| ChatRoute.BuildRequest | app/api/chat/route.ts:50-56 | messages, model and provider passed through; non-zero `maxTokens` capped at 4096, zero or absent → none; temperature `\|\| 0.7` |
| ChatRoute.ChatRejectsBeforeRouting | app/api/chat/route.ts:29-47 | 429 when limited, 500 for a malformed body, 400 without a messages array; only a valid request dispatches |
| ChatRoute.RouterClampIsIdle | app/api/chat/route.ts:58-68 | the router's clamp leaves the endpoint's clamped request unchanged |
| ChatRoute.ChatDispatches | app/api/chat/route.ts:50-68 | each dispatched request carries the body's messages, its temperature `\|\| 0.7`, and at most 4096 tokens |
| ChatRoute.ChatSucceedsWithRouter | app/api/chat/route.ts:59-86 | success iff the router answers, with its content and the endpoint's own safety warning; a router error becomes 500 |
| ChatRoute.ChatEndpoint.Post | app/api/chat/route.ts:28-87 | updates the limiter by `Check` and replies as `ChatSpec`; usage is tracked only on success |
| GenerateRoute.Default | app/api/generate/route.ts:38 | destructuring defaults apply only to absent fields |
| GenerateRoute.MediaTypeOf | app/api/generate/route.ts:48-53 | video iff "mp4", 3d iff "glb" or "gltf", image otherwise |
| GenerateRoute.ImageRequestFor | app/api/generate/route.ts:110-128 | the flux-pro model, one user message containing the prompt, a Bearer header with the key |
| GenerateRoute.GenerateRejects | app/api/generate/route.ts:28-45 | 429 when limited, 500 for a malformed body, 400 for a missing or blank prompt; media iff the request is valid |
| GenerateRoute.GeneratedDescribesRequest | app/api/generate/route.ts:58-152 | a media reply echoes the prompt and format (default png), has the format's media type and a non-empty URL |
| GenerateRoute.OutboundOnlyForStillImages | app/api/generate/route.ts:56-128 | the outbound call happens iff the prompt is valid, a key is set and the format is not gif/mp4/glb/gltf; it carries the key and the prompt |
| GenerateRoute.OutboundFallback | app/api/generate/route.ts:130-152 | a failed call → avatar URL with the fallback note; an answer → its content, or the avatar URL when it is empty, with no note |
| GenerateRoute.SharedGroqKeyGoesToOpenRouter | app/api/generate/route.ts:56 | a `gsk_` shared key, which the chat adapter for OpenRouter refuses, is still sent to OpenRouter |
| GenerateRoute.GenerateEndpoint.Post | app/api/generate/route.ts:26-162 | updates the limiter by `Check` and replies as `GenerateSpec` |
| AppStore.InitialState | store/useAppStore.ts:46-49 | no open files, no active file, no uploads or messages, zero tokens; valid |
| AppStore.IndexOfPath | store/useAppStore.ts:52 | the first index with the path, or -1 iff it is not open |
| AppStore.OpenFileAction | store/useAppStore.ts:50-71 | the path is open and active; the other slices are unchanged |
| AppStore.OpenExistingReplacesContent | store/useAppStore.ts:53-62 | reopening replaces only that entry's content, keeping its language, its position and the list's length |
| AppStore.OpenNewAppends | store/useAppStore.ts:64-70 | a new path goes at the end |
| AppStore.OpenFileIdempotent | store/useAppStore.ts:50-71 | opening the same file twice equals opening it once |
| AppStore.OpenFilePreservesValid | store/useAppStore.ts:50-71 | opening keeps paths distinct and the active file open |
| AppStore.CloseIn | store/useAppStore.ts:74-80 | drops the path; when it was active, the last remaining file (or none) becomes active |
| AppStore.CloseRemovesEntry | store/useAppStore.ts:74 | with distinct paths, closing removes exactly that entry |
| AppStore.CloseFileDropsPath | store/useAppStore.ts:72-88 | afterwards the path is not open, and every other file still is |
| AppStore.CloseFilePreservesValid | store/useAppStore.ts:72-88 | closing keeps the editor valid |
| AppStore.CloseUndoesOpen | store/useAppStore.ts:50-88 | closing a newly opened file restores the open list |
| AppStore.SetActiveFileAction | store/useAppStore.ts:89-92 | sets the active path and nothing else |
| AppStore.SetActiveFileOpenPreservesValid | store/useAppStore.ts:89-92 | activating an open file keeps the editor valid |
| AppStore.SetActiveFileCanBreakValid | store/useAppStore.ts:89-92 | activating a path that is not open breaks the invariant: the action does not check |
| AppStore.UpdateFileContentAction | store/useAppStore.ts:93-101 | replaces the content of entries with the path; everything else unchanged |
| AppStore.UpdateAbsentIsNoOp | store/useAppStore.ts:93-101 | updating a path that is not open changes nothing |
| AppStore.UpdateFileContentPreservesValid | store/useAppStore.ts:93-101 | updating keeps the editor valid |
| AppStore.AddUploadedFileAction | store/useAppStore.ts:109-114 | the map gains or overwrites that path only; other slices unchanged |
| AppStore.RemoveUploadedFileAction | store/useAppStore.ts:115-135 | the path leaves the map and other entries are kept |
| AppStore.RemoveUploadedFileCloses | store/useAppStore.ts:119-133 | removing an upload closes it in the editor, exactly like `closeFile` |
| AppStore.RemoveUploadedFilePreservesValid | store/useAppStore.ts:115-135 | removal keeps the editor valid |
| AppStore.RemoveUndoesAdd | store/useAppStore.ts:109-135 | removing a newly added upload restores the map |
| AppStore.AddMessageAction | store/useAppStore.ts:139-149 | appends one message with the given fields, the clock's decimal as id and the clock as timestamp |
| AppStore.MessageIdsMatchClock | store/useAppStore.ts:145 | two message ids are equal iff they were added at the same millisecond |
| AppStore.ClearMessagesAction | store/useAppStore.ts:150 | empties the messages only |
| AppStore.AddTokenUsageAction | store/useAppStore.ts:166-169 | adds the usage's total only |
| AppStore.ResetTokenUsageAction | store/useAppStore.ts:170 | zeroes the counter only |
| AppStore.CounterAgreesWithSession | store/useAppStore.ts:165-170 | after a reset, the counter equals the token manager's total for the same usages |
| Utils.LastSegment | lib/utils.ts:9 | the text after the last dot (the whole path without one), a dot-free suffix |
| Utils.LookupIn | lib/utils.ts:36 | the table's value for the key, else "plaintext" |
| Utils.LanguageIsKnown | lib/utils.ts:8-37 | the language is the table's entry for the lower-cased extension, or "plaintext" |
| Utils.LanguageOfExtension | lib/utils.ts:8-37 | only the last extension counts, case-insensitively |
| Utils.PythonOfLastExtension | lib/utils.ts:10-35 | "a.b.py" is python |
| Utils.TypeScriptInCapitals | lib/utils.ts:9-36 | "X.TS" is typescript |
| Utils.MakefileIsPlaintext | lib/utils.ts:9-36 | a name without a dot is looked up whole: "Makefile" is plaintext |
| Utils.JavaScriptExtensions | lib/utils.ts:10-35 | .js and .jsx are javascript |
| Utils.TypeScriptExtensions | lib/utils.ts:10-35 | .ts and .tsx are typescript |
| Utils.YamlExtensions | lib/utils.ts:10-35 | .yml and .yaml are yaml |
| Utils.ShellExtensions | lib/utils.ts:10-35 | .sh, .bash and .zsh are shell |
| Utils.AsWrittenIn | lib/utils.ts:36 | the JavaScript lookup: an own entry, else an inherited `Object.prototype` member, else "plaintext" |
| Utils.ConstructorExtensionIsNotALanguage | lib/utils.ts:36 | "main.constructor" yields the inherited `constructor` as written, "plaintext" as intended |
| Utils.ReachableInherited | lib/utils.ts:9-36 | only `constructor` and `__proto__` can reach an inherited member, since extensions are lower-cased |
| Utils.AsWrittenAgreesElsewhere | lib/utils.ts:8-37 | for every other extension, the code as written and the corrected lookup agree |

## Left out

- `async`/`await` and concurrency. Each call is atomic, and two requests never interleave.
- The singletons (`getInstance`, `getLLMRouter`, the module-level rate tables) become objects passed in. Their sharing across requests is modelled by passing the same object.
- `Date.now()` is the parameter `now`. The clock's monotonicity is not assumed.
- The process environment is the `Env` value read at call time. The adapters' constructors are not separate steps.
- Vendor SDKs, `axios` and the network are function parameters.
  - The `HTTP-Referer` and `X-Title` headers are not modelled.
  - Vendor answers whose shape makes the JavaScript property access throw (`data.choices` undefined) are not modelled. Every answer is a well-formed `Completion` or an error message.
- `console.warn` and `console.error` are not modelled. This includes the truncation warning at `lib/llm/router.ts:110-112`.
- Floating-point temperatures are `real`s. Only the `|| 0.7` default and the zero test matter.
- String lengths count `char`s, not UTF-16 code units. Case mapping is ASCII-only.
- `encodeURIComponent` is the parameter `encode`.
- `isAvailable()` throwing, the catch at `lib/llm/router.ts:60-65`, is not modelled. The `reason` strings of unavailable providers are not modelled either: they are never shown.
- The `!provider` branch at `lib/llm/router.ts:83-85` is omitted. Every catalogue provider is registered, so it cannot be taken.
- Router.LLMRouter.Route: `route` in the source writes `maxTokens`, `model` and `provider` into the caller's request object. The model returns the prepared request through `dispatched` and does not model that aliasing.
- JSON parsing is a parameter.
  - Roles, providers and numbers in the body are taken as already typed.
  - A non-string `prompt` (whose `.trim()` throws) is a malformed body.
  - JSON `null` is treated like an absent field.
- The store's file-explorer, streaming and UI slices are not modelled: `fileTree`, `selectedPath`, `isStreaming`, the panel and theme setters. They are plain setters with no logic.
- AppStore.AddMessageAction: the source reads the clock twice, `Date.now()` for the id and `new Date()` for the timestamp (`store/useAppStore.ts:145-146`). The model uses one reading, `now`, for both, and the timestamp is that number rather than a `Date` object.
- `app/api/files/route.ts` and the React components are not part of this model.

## Findings

| source | as written | input that shows it | evidently intended | confidence | as-written member | corrected member |
|---|---|---|---|---|---|---|
| lib/utils.ts:36 | `languageMap[ext] \|\| "plaintext"` indexes an object literal, so an extension naming an `Object.prototype` member returns that inherited function instead of a language string | the path `main.constructor` (and `x.__proto__`) | `"plaintext"` for every extension outside the table | high (not executed) | Utils.ConstructorExtensionIsNotALanguage | Utils.LanguageIsKnown |
