/** The shared record types of the application (types/index.ts). Optional
    TypeScript fields (`maxTokens?: number`) are `Option`s; floating-point
    fields are `real`s, of which only the 0.7 default matters. */
module Types {
  import opened Wrappers

  /** The three vendors the router can dispatch to. */
  datatype ProviderName = Groq | OpenRouter | HuggingFace {
    /** The provider's name as the source spells it. */
    function Name(): string {
      match this
      case Groq => "groq"
      case OpenRouter => "openrouter"
      case HuggingFace => "huggingface"
    }
  }

  /** Cost class of a model. */
  datatype Tier = Free | Mid | High {
    /** The order free -> mid -> high. */
    function Rank(): nat {
      match this
      case Free => 0
      case Mid => 1
      case High => 2
    }
  }

  datatype Role = System | User | Assistant {
    function Name(): string {
      match this
      case System => "system"
      case User => "user"
      case Assistant => "assistant"
    }
  }

  datatype Message = Message(role: Role, content: string)

  /** A catalog entry. */
  datatype LLMModel = LLMModel(
    id: string,
    name: string,
    provider: ProviderName,
    tier: Tier,
    maxTokens: nat,
    costPer1kTokens: Option<real>,
    free: Option<bool>)

  datatype TokenUsage = TokenUsage(
    promptTokens: nat,
    completionTokens: nat,
    totalTokens: nat,
    model: string,
    provider: ProviderName)

  datatype LLMRequest = LLMRequest(
    messages: seq<Message>,
    maxTokens: Option<int>,
    temperature: Option<real>,
    model: Option<string>,
    provider: Option<ProviderName>)

  datatype LLMResponse = LLMResponse(
    content: string,
    usage: TokenUsage,
    model: string,
    provider: ProviderName,
    truncated: Option<bool>)

  datatype OpenFile = OpenFile(path: string, content: string, language: Option<string>)

  datatype EditorState = EditorState(openFiles: seq<OpenFile>, activeFile: Option<string>)

  datatype MediaType = Image | Video | ThreeD

  datatype GeneratedMedia = GeneratedMedia(url: string, format: string, prompt: string, mediaType: MediaType)

  /** A chat message; `timestamp` is the clock reading in milliseconds. */
  datatype ChatMessage = ChatMessage(
    id: string,
    role: Role,
    content: string,
    timestamp: int,
    tokenUsage: Option<TokenUsage>,
    images: Option<seq<string>>,
    generatedMedia: Option<seq<GeneratedMedia>>)
}
