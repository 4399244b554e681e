/** The chat endpoint, `POST /api/chat` (app/api/chat/route.ts): rate
    limiting per client, body validation, request shaping with the
    endpoint's own clamps, the safety override, then the router. */
module ChatRoute {
  import opened Wrappers
  import opened Types
  import opened Js
  import opened Tokens
  import opened Router
  import opened RateLimit

  /** Requests per client per minute. */
  const RATE_LIMIT: nat := 30
  /** The endpoint's own cap on a requested `maxTokens`. */
  const ENDPOINT_MAX_TOKENS: int := 4096
  const DEFAULT_TEMPERATURE: real := 0.7

  const RATE_LIMITED: string := "Rate limit exceeded. Please try again later."
  const MESSAGES_REQUIRED: string := "Messages array is required"
  const GENERIC_ERROR: string := "An error occurred while processing your request"

  /** The `messages` field of the JSON body. */
  datatype MessagesField = MissingMessages | NotAnArray | MessageArray(items: seq<Message>)

  /** The destructured JSON body. */
  datatype ChatBody = ChatBody(
    messages: MessagesField,
    maxTokens: Option<int>,
    temperature: Option<real>,
    model: Option<string>,
    provider: Option<ProviderName>)

  /** `await req.json()`: a body, or the message of the parse error. */
  datatype ParsedBody = Malformed(message: string) | Parsed(body: ChatBody)

  /** The JSON reply: the router's response with the safety warning, or an
      error with its status. */
  datatype ChatReply =
    | ChatSuccess(content: string, usage: TokenUsage, model: string, provider: ProviderName,
                  truncated: Option<bool>, warning: Option<string>)
    | ChatFailure(status: int, error: string)

  /** The reply and the requests the router handed to adapters. */
  datatype ChatOutcome = ChatOutcome(reply: ChatReply, dispatched: seq<LLMRequest>)

  /** `error.message || GENERIC_ERROR`. */
  function ErrorText(message: string): (r: string)
    ensures r != ""
    ensures message != "" ==> r == message
    ensures message == "" ==> r == GENERIC_ERROR
  {
    if message != "" then message else GENERIC_ERROR
  }

  /** The `LLMRequest` built from a validated body. */
  function BuildRequest(msgs: seq<Message>, body: ChatBody): (r: LLMRequest)
    ensures r.messages == msgs && r.model == body.model && r.provider == body.provider
    ensures body.maxTokens.Some? && body.maxTokens.value != 0 ==>
      r.maxTokens == Some(Min(body.maxTokens.value, ENDPOINT_MAX_TOKENS))
    ensures body.maxTokens.None? || body.maxTokens.value == 0 ==> r.maxTokens.None?
    ensures r.maxTokens.Some? ==> r.maxTokens.value <= ENDPOINT_MAX_TOKENS
    ensures r.temperature.Some? && r.temperature.value != 0.0
    ensures body.temperature.Some? && body.temperature.value != 0.0 ==> r.temperature == body.temperature
  {
    LLMRequest(
      msgs,
      if body.maxTokens.Some? && body.maxTokens.value != 0 then Some(Min(body.maxTokens.value, ENDPOINT_MAX_TOKENS)) else None,
      Some(RealOr(body.temperature, DEFAULT_TEMPERATURE)),
      body.model,
      body.provider)
  }

  /** The request handed to the router: the built request with the safety
      override applied. */
  function Shaped(msgs: seq<Message>, body: ChatBody): LLMRequest {
    ApplySafety(BuildRequest(msgs, body))
  }

  /** The whole handler, given the rate limiter's decision, the parsed body
      and the router's adapters. */
  function ChatSpec(allowed: bool, parsed: ParsedBody, ad: Adapters): ChatOutcome {
    if !allowed then ChatOutcome(ChatFailure(429, RATE_LIMITED), [])
    else match parsed
      case Malformed(message) => ChatOutcome(ChatFailure(500, ErrorText(message)), [])
      case Parsed(body) =>
        if !body.messages.MessageArray? then ChatOutcome(ChatFailure(400, MESSAGES_REQUIRED), [])
        else
          var built := BuildRequest(body.messages.items, body);
          var out := RouteSpec(ApplySafety(built), ad);
          match out.result
          case Ok(r) =>
            ChatOutcome(ChatSuccess(r.content, r.usage, r.model, r.provider, r.truncated, IsRequestSafe(built).warning),
                        out.dispatched)
          case Err(e) => ChatOutcome(ChatFailure(500, ErrorText(e)), out.dispatched)
  }

  /** Validation comes first: a limited client gets 429, a malformed body
      500 and a body without a messages array 400, and in each case no
      adapter is called. */
  lemma ChatRejectsBeforeRouting(allowed: bool, parsed: ParsedBody, ad: Adapters)
    ensures !allowed ==> ChatSpec(allowed, parsed, ad) == ChatOutcome(ChatFailure(429, RATE_LIMITED), [])
    ensures allowed && parsed.Malformed? ==>
      ChatSpec(allowed, parsed, ad).reply == ChatFailure(500, ErrorText(parsed.message))
    ensures allowed && parsed.Parsed? && !parsed.body.messages.MessageArray? ==>
      ChatSpec(allowed, parsed, ad) == ChatOutcome(ChatFailure(400, MESSAGES_REQUIRED), [])
    ensures ChatSpec(allowed, parsed, ad).dispatched != [] ==>
      allowed && parsed.Parsed? && parsed.body.messages.MessageArray?
  {
  }

  /** The endpoint's clamp already satisfies the router's: the router's own
      safety check leaves the shaped request as it is. */
  lemma RouterClampIsIdle(msgs: seq<Message>, body: ChatBody)
    ensures ApplySafety(Shaped(msgs, body)) == Shaped(msgs, body)
  {
    ApplySafetyIdempotent(BuildRequest(msgs, body));
  }

  /** Every request an adapter receives through the endpoint carries the
      body's messages, a temperature that is never 0, and at most 4096
      requested tokens. */
  lemma ChatDispatches(allowed: bool, parsed: ParsedBody, ad: Adapters)
    ensures forall d :: d in ChatSpec(allowed, parsed, ad).dispatched ==>
      && parsed.Parsed? && parsed.body.messages.MessageArray?
      && d.messages == parsed.body.messages.items
      && d.temperature == Some(RealOr(parsed.body.temperature, DEFAULT_TEMPERATURE))
      && RequestedTokens(d) <= MAX_TOKENS_PER_REQUEST
  {
    if allowed && parsed.Parsed? && parsed.body.messages.MessageArray? {
      var built := BuildRequest(parsed.body.messages.items, parsed.body);
      RouteDispatchesCatalogModels(ApplySafety(built), ad);
    }
  }

  /** A valid request succeeds exactly when the router answers, with the
      router's response and the warning of the endpoint's safety check. */
  lemma ChatSucceedsWithRouter(parsed: ParsedBody, ad: Adapters)
    requires parsed.Parsed? && parsed.body.messages.MessageArray?
    ensures var built := BuildRequest(parsed.body.messages.items, parsed.body);
            var out := RouteSpec(ApplySafety(built), ad);
            && (ChatSpec(true, parsed, ad).reply.ChatSuccess? <==> out.result.Ok?)
            && (out.result.Ok? ==>
                  && ChatSpec(true, parsed, ad).reply.content == out.result.value.content
                  && ChatSpec(true, parsed, ad).reply.warning == IsRequestSafe(built).warning)
            && (out.result.Err? ==>
                  ChatSpec(true, parsed, ad).reply == ChatFailure(500, ErrorText(out.result.error)))
            && ChatSpec(true, parsed, ad).dispatched == out.dispatched
  {
  }

  /** The endpoint object: its rate limiter and the shared router. */
  class ChatEndpoint {
    const limiter: RateLimiter
    const router: LLMRouter

    constructor (router: LLMRouter)
      ensures this.router == router && fresh(limiter)
      ensures limiter.limit == RATE_LIMIT && limiter.requestCounts == map[]
    {
      this.router := router;
      limiter := new RateLimiter(RATE_LIMIT);
    }

    /** `POST(req)`, with the client headers, the clock reading and the
        parsed body as parameters. */
    method Post(forwardedFor: Option<string>, realIp: Option<string>, now: int, parsed: ParsedBody)
      returns (reply: ChatReply, dispatched: seq<LLMRequest>)
      modifies limiter, router.tokenManager
      ensures var d := Check(old(limiter.requestCounts), ClientKey(forwardedFor, realIp), now, limiter.limit);
              && limiter.requestCounts == d.counts
              && ChatOutcome(reply, dispatched) == ChatSpec(d.allowed, parsed, router.adapters)
      ensures reply.ChatSuccess? ==>
        router.tokenManager.sessionUsage == old(router.tokenManager.sessionUsage) + [reply.usage]
      ensures reply.ChatFailure? ==> router.tokenManager.sessionUsage == old(router.tokenManager.sessionUsage)
    {
      var ip := ClientKey(forwardedFor, realIp);
      var allowed := limiter.CheckRateLimit(ip, now);
      if !allowed {
        return ChatFailure(429, RATE_LIMITED), [];
      }
      if parsed.Malformed? {
        return ChatFailure(500, ErrorText(parsed.message)), [];
      }
      var body := parsed.body;
      if !body.messages.MessageArray? {
        return ChatFailure(400, MESSAGES_REQUIRED), [];
      }
      var request := BuildRequest(body.messages.items, body);
      var safetyCheck := IsRequestSafe(request);
      var sent := request;
      if !safetyCheck.safe {
        sent := sent.(maxTokens := Some(safetyCheck.recommendedMaxTokens));
      }
      var result;
      result, dispatched := router.Route(sent);
      if result.Err? {
        return ChatFailure(500, ErrorText(result.error)), dispatched;
      }
      var r := result.value;
      reply := ChatSuccess(r.content, r.usage, r.model, r.provider, r.truncated, safetyCheck.warning);
    }
  }
}
