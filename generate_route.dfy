/** The media endpoint, `POST /api/generate` (app/api/generate/route.ts):
    rate limiting per client, prompt validation, the media type of the
    requested format, placeholder URLs for GIF, video and 3D formats and
    when no key is configured, and one outbound call to OpenRouter for
    still images, with an avatar URL as fallback. `encodeURIComponent` and
    the outbound call are parameters. */
module GenerateRoute {
  import opened Wrappers
  import opened Types
  import opened Js
  import opened ProviderBase
  import opened RateLimit
  import OpenRouterAdapter

  /** Requests per client per minute. */
  const RATE_LIMIT: nat := 10
  const DEFAULT_FORMAT: string := "png"
  const DEFAULT_SIZE: string := "1024x1024"
  const IMAGE_MODEL: string := "black-forest-labs/flux-pro"

  const PLACEHOLDER_URL: string := "https://via.placeholder.com/"
  const SHAPES_URL: string := "https://api.dicebear.com/7.x/shapes/svg?seed="
  const AVATAR_URL: string := "https://api.dicebear.com/7.x/avataaars/svg?seed="

  const NO_KEY_NOTE: string := "Image generation API key not configured. Using placeholder."
  const GIF_NOTE: string := "GIF generation - using placeholder service"
  const VIDEO_NOTE: string := "Video generation - placeholder (integrate with video generation API)"
  const THREE_D_NOTE: string := "3D model generation - placeholder (integrate with 3D generation API)"
  const FALLBACK_NOTE: string := "Using fallback image generation service"

  const RATE_LIMITED: string := "Rate limit exceeded. Please try again later."
  const PROMPT_REQUIRED: string := "Prompt is required"
  const GENERIC_ERROR: string := "An error occurred while generating media"

  /** The destructured JSON body; an absent field is `None`. */
  datatype GenerateBody = GenerateBody(prompt: Option<string>, format: Option<string>, size: Option<string>)

  /** `await req.json()`: a body, or the message of the parse error. */
  datatype ParsedRequest = MalformedBody(message: string) | ParsedGenerate(body: GenerateBody)

  /** The body of the outbound OpenRouter call and its bearer header. */
  datatype ImageRequest = ImageRequest(model: string, messages: seq<FormattedMessage>, authorization: string)

  /** The JSON reply: a media description, or an error with its status. */
  datatype GenerateReply =
    | Generated(url: string, format: string, prompt: string, mediaType: MediaType, note: Option<string>)
    | GenerateFailure(status: int, error: string)

  /** The reply, and the outbound request when one was made. */
  datatype GenerateOutcome = GenerateOutcome(reply: GenerateReply, outbound: Option<ImageRequest>)

  /** A destructuring default: it replaces only an absent field. */
  function Default(s: Option<string>, d: string): (r: string)
    ensures s.Some? ==> r == s.value
    ensures s.None? ==> r == d
  {
    if s.Some? then s.value else d
  }

  /** The media type of a format: video for mp4, 3D for glb and gltf,
      image for everything else. */
  function MediaTypeOf(format: string): (t: MediaType)
    ensures t == Video <==> format == "mp4"
    ensures t == ThreeD <==> format == "glb" || format == "gltf"
    ensures t == Image <==> format != "mp4" && format != "glb" && format != "gltf"
  {
    if format == "mp4" then Video
    else if format == "glb" || format == "gltf" then ThreeD
    else Image
  }

  /** The formats answered with a placeholder even when a key is set. */
  predicate PlaceholderFormat(format: string) {
    format == "gif" || format == "mp4" || format == "glb" || format == "gltf"
  }

  /** `OPENROUTER_API_KEY || AI_API_KEY`. */
  function ImageKey(env: Env): Option<string> {
    OrElse(env.openRouterApiKey, env.aiApiKey)
  }

  /** The single user message of the outbound call. */
  function ImagePrompt(prompt: string, format: string, size: string): (s: string)
    ensures IsInfix(prompt, s) && IsInfix(format, s) && IsInfix(size, s)
  {
    var a, b, c, d := "Generate an image: ", ". Format: ", ", Size: ", "";
    PartsOfConcat(a, prompt, b + format + c, size);
    assert a + prompt + (b + format + c) + size == a + prompt + b + format + c + size;
    PartsOfConcat(a + prompt + b, format, c, size);
    PartsOfConcat(a + prompt + b + format + c, size, d, d);
    assert a + prompt + b + format + c + size + d + d == a + prompt + b + format + c + size;
    a + prompt + b + format + c + size
  }

  function ImageRequestFor(key: string, prompt: string, format: string, size: string): (r: ImageRequest)
    ensures r.model == IMAGE_MODEL && r.authorization == "Bearer " + key
    ensures |r.messages| == 1 && r.messages[0].role == "user"
    ensures IsInfix(prompt, r.messages[0].content)
  {
    ImageRequest(IMAGE_MODEL, [FormattedMessage("user", ImagePrompt(prompt, format, size))], "Bearer " + key)
  }

  /** The reply for a valid prompt. */
  function MediaReply(env: Env, encode: string -> string, api: ImageRequest -> Result<Completion, string>,
                      prompt: string, format: string, size: string): GenerateOutcome
  {
    var t := MediaTypeOf(format);
    var key := ImageKey(env);
    if !Truthy(key) then
      GenerateOutcome(Generated(PLACEHOLDER_URL + size + "?text=" + encode(prompt), format, prompt, t, Some(NO_KEY_NOTE)), None)
    else if format == "gif" then
      GenerateOutcome(Generated(SHAPES_URL + encode(prompt), "gif", prompt, Image, Some(GIF_NOTE)), None)
    else if format == "mp4" then
      GenerateOutcome(Generated(PLACEHOLDER_URL + size + "/000000/FFFFFF?text=" + encode(prompt), "mp4", prompt, Video, Some(VIDEO_NOTE)), None)
    else if format == "glb" || format == "gltf" then
      GenerateOutcome(Generated(PLACEHOLDER_URL + size + "/000000/FFFFFF?text=" + encode(prompt), format, prompt, ThreeD, Some(THREE_D_NOTE)), None)
    else
      var request := ImageRequestFor(key.value, prompt, format, size);
      var avatar := AVATAR_URL + encode(prompt);
      match api(request)
      case Ok(c) =>
        var url := if FirstContent(c) != "" then FirstContent(c) else avatar;
        GenerateOutcome(Generated(url, format, prompt, t, None), Some(request))
      case Err(_) =>
        GenerateOutcome(Generated(avatar, format, prompt, t, Some(FALLBACK_NOTE)), Some(request))
  }

  /** The whole handler, given the environment, the URI encoder, the
      outbound call, the rate limiter's decision and the parsed body. */
  function GenerateSpec(env: Env, encode: string -> string, api: ImageRequest -> Result<Completion, string>,
                        allowed: bool, parsed: ParsedRequest): GenerateOutcome
  {
    if !allowed then GenerateOutcome(GenerateFailure(429, RATE_LIMITED), None)
    else match parsed
      case MalformedBody(message) =>
        GenerateOutcome(GenerateFailure(500, if message != "" then message else GENERIC_ERROR), None)
      case ParsedGenerate(body) =>
        if body.prompt.None? || IsBlank(body.prompt.value) then
          GenerateOutcome(GenerateFailure(400, PROMPT_REQUIRED), None)
        else
          MediaReply(env, encode, api, body.prompt.value, Default(body.format, DEFAULT_FORMAT), Default(body.size, DEFAULT_SIZE))
  }

  /** A prompt that is present and not blank. */
  predicate ValidPrompt(parsed: ParsedRequest) {
    parsed.ParsedGenerate? && parsed.body.prompt.Some? && !IsBlank(parsed.body.prompt.value)
  }

  /** The format after the default. */
  function FormatOf(body: GenerateBody): string {
    Default(body.format, DEFAULT_FORMAT)
  }

  /** Validation comes first: a limited client gets 429, a malformed body
      500 and an absent or blank prompt 400; a reply describes media
      exactly when these pass. */
  lemma GenerateRejects(env: Env, encode: string -> string, api: ImageRequest -> Result<Completion, string>,
                        allowed: bool, parsed: ParsedRequest)
    ensures var out := GenerateSpec(env, encode, api, allowed, parsed);
      && (!allowed ==> out.reply == GenerateFailure(429, RATE_LIMITED))
      && (allowed && parsed.ParsedGenerate? && !ValidPrompt(parsed) ==> out.reply == GenerateFailure(400, PROMPT_REQUIRED))
      && (allowed && parsed.MalformedBody? ==> out.reply.GenerateFailure? && out.reply.status == 500)
      && (out.reply.Generated? <==> allowed && ValidPrompt(parsed))
      && (out.outbound.Some? ==> allowed && ValidPrompt(parsed))
  {
  }

  /** A media reply echoes the prompt, reports the requested format (png
      when absent) and the media type of that format, and never has an
      empty URL. */
  lemma GeneratedDescribesRequest(env: Env, encode: string -> string, api: ImageRequest -> Result<Completion, string>,
                                  allowed: bool, parsed: ParsedRequest)
    requires GenerateSpec(env, encode, api, allowed, parsed).reply.Generated?
    ensures var r := GenerateSpec(env, encode, api, allowed, parsed).reply;
      && parsed.ParsedGenerate?
      && r.prompt == parsed.body.prompt.value
      && r.format == FormatOf(parsed.body)
      && r.mediaType == MediaTypeOf(r.format)
      && r.url != ""
  {
  }

  /** The outbound call is made exactly for a valid prompt, a configured
      key and a still-image format; it carries the key and the prompt. */
  lemma OutboundOnlyForStillImages(env: Env, encode: string -> string, api: ImageRequest -> Result<Completion, string>,
                                   allowed: bool, parsed: ParsedRequest)
    ensures var out := GenerateSpec(env, encode, api, allowed, parsed);
      && (out.outbound.Some? <==>
            allowed && ValidPrompt(parsed) && Truthy(ImageKey(env)) && !PlaceholderFormat(FormatOf(parsed.body)))
      && (out.outbound.Some? ==>
            && out.outbound.value.authorization == "Bearer " + ImageKey(env).value
            && IsInfix(parsed.body.prompt.value, out.outbound.value.messages[0].content))
  {
  }

  /** The outcome of the outbound call decides only the URL and the note:
      a failed call yields the avatar URL with the fallback note, an answer
      without content the avatar URL without a note. */
  lemma OutboundFallback(env: Env, encode: string -> string, api: ImageRequest -> Result<Completion, string>,
                         allowed: bool, parsed: ParsedRequest)
    requires GenerateSpec(env, encode, api, allowed, parsed).outbound.Some?
    ensures var out := GenerateSpec(env, encode, api, allowed, parsed);
      var avatar := AVATAR_URL + encode(parsed.body.prompt.value);
      && (api(out.outbound.value).Err? ==> out.reply.url == avatar && out.reply.note == Some(FALLBACK_NOTE))
      && (api(out.outbound.value).Ok? ==> out.reply.note.None?)
      && (api(out.outbound.value).Ok? && FirstContent(api(out.outbound.value).value) != "" ==>
            out.reply.url == FirstContent(api(out.outbound.value).value))
      && (api(out.outbound.value).Ok? && FirstContent(api(out.outbound.value).value) == "" ==>
            out.reply.url == avatar)
  {
  }

  /** Unlike the chat adapter for OpenRouter, the endpoint sends any
      shared key to OpenRouter, a Groq-style one included. */
  lemma SharedGroqKeyGoesToOpenRouter(encode: string -> string, api: ImageRequest -> Result<Completion, string>)
    ensures var env := Env(None, None, None, Some("gsk_1"));
      var out := GenerateSpec(env, encode, api, true, ParsedGenerate(GenerateBody(Some("cat"), None, None)));
      && !OpenRouterAdapter.OpenRouterAvailable(env)
      && out.outbound.Some? && out.outbound.value.authorization == "Bearer gsk_1"
  {
    var env := Env(None, None, None, Some("gsk_1"));
    var parsed := ParsedGenerate(GenerateBody(Some("cat"), None, None));
    SharedGroqKeyIsNotOpenRouter();
    CatIsNotBlank();
    assert ValidPrompt(parsed);
    assert ImageKey(env) == Some("gsk_1");
    assert FormatOf(parsed.body) == DEFAULT_FORMAT && !PlaceholderFormat(DEFAULT_FORMAT);
    OutboundOnlyForStillImages(env, encode, api, true, parsed);
    BearerLiteral();
  }

  lemma BearerLiteral()
    ensures "Bearer " + "gsk_1" == "Bearer gsk_1"
  {
  }

  lemma SharedGroqKeyIsNotOpenRouter()
    ensures !OpenRouterAdapter.OpenRouterAvailable(Env(None, None, None, Some("gsk_1")))
  {
    assert "gsk_" <= "gsk_1";
  }

  lemma CatIsNotBlank()
    ensures !IsBlank("cat")
  {
    assert !IsJsWhitespace("cat"[0]);
  }

  /** The endpoint object and its rate limiter. */
  class GenerateEndpoint {
    const limiter: RateLimiter

    constructor ()
      ensures fresh(limiter) && limiter.limit == RATE_LIMIT && limiter.requestCounts == map[]
    {
      limiter := new RateLimiter(RATE_LIMIT);
    }

    /** `POST(req)`, with the environment, the URI encoder, the outbound
        call, the client headers, the clock reading and the parsed body as
        parameters. */
    method Post(env: Env, encode: string -> string, api: ImageRequest -> Result<Completion, string>,
                forwardedFor: Option<string>, realIp: Option<string>, now: int, parsed: ParsedRequest)
      returns (outcome: GenerateOutcome)
      modifies limiter
      ensures var d := Check(old(limiter.requestCounts), ClientKey(forwardedFor, realIp), now, limiter.limit);
              && limiter.requestCounts == d.counts
              && outcome == GenerateSpec(env, encode, api, d.allowed, parsed)
    {
      var ip := ClientKey(forwardedFor, realIp);
      var allowed := limiter.CheckRateLimit(ip, now);
      if !allowed {
        return GenerateOutcome(GenerateFailure(429, RATE_LIMITED), None);
      }
      if parsed.MalformedBody? {
        var error := if parsed.message != "" then parsed.message else GENERIC_ERROR;
        return GenerateOutcome(GenerateFailure(500, error), None);
      }
      var body := parsed.body;
      if body.prompt.None? || IsBlank(body.prompt.value) {
        return GenerateOutcome(GenerateFailure(400, PROMPT_REQUIRED), None);
      }
      outcome := MediaReply(env, encode, api, body.prompt.value, Default(body.format, DEFAULT_FORMAT), Default(body.size, DEFAULT_SIZE));
    }
  }
}
