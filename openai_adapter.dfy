/** The OpenAI adapter: provider descriptor, static list, model discovery, response shaping and streaming. */
module OpenAIAdapter {
  import opened Base
  import opened LlmTypes
  import opened Stream
  import opened Seqs
  import opened Registry
  import opened OpenAICompat

  const DefaultBaseURL := "https://api.openai.com/v1"

  function Provider(): (p: TextProvider)
    ensures p.id == "openai" && p.name == "OpenAI"
    ensures p.requiresApiKey && p.supportsDynamicModels && p.defaultBaseURL == DefaultBaseURL
  {
    TextProvider("openai", "OpenAI", Some("OpenAI API"), true, DefaultBaseURL, true)
  }

  function Static(id: string, name: string, description: string, tools: bool,
                  vision: Option<bool>, reasoning: Option<bool>, context: nat): TextModel
  {
    TextModel(id, name, Some(description), "openai", Capabilities(tools, vision, reasoning, Some(context)))
  }

  /** The built-in list: seven models, all under provider 'openai'. */
  function StaticModels(): (ms: seq<TextModel>)
    ensures |ms| == 7
    ensures forall i :: 0 <= i < |ms| ==> ms[i].providerId == Provider().id
  {
    [ Static("gpt-4o", "GPT-4o", "OpenAI GPT-4o (Latest)", true, Some(true), None, 128000),
      Static("gpt-4o-mini", "GPT-4o Mini", "OpenAI GPT-4o Mini (Fast and affordable)", true, Some(true), None, 128000),
      Static("gpt-4-turbo", "GPT-4 Turbo", "OpenAI GPT-4 Turbo", true, Some(true), None, 128000),
      Static("gpt-4", "GPT-4", "OpenAI GPT-4", true, Some(true), None, 8192),
      Static("gpt-3.5-turbo", "GPT-3.5 Turbo", "OpenAI GPT-3.5 Turbo", true, Some(false), None, 16385),
      Static("o1-preview", "O1 Preview", "OpenAI O1 Preview (Reasoning model)", false, None, Some(true), 200000),
      Static("o1-mini", "O1 Mini", "OpenAI O1 Mini (Reasoning model)", false, None, Some(true), 128000) ]
  }

  /** The registry entry: this provider, this static list, and discovery implemented. */
  function AsAdapter(): (a: Adapter)
    ensures a.provider == Provider() && a.staticModels == StaticModels() && a.hasModelsAsync
  {
    Adapter(Provider(), StaticModels(), true)
  }

  /** Vision guess on the lowercased id: 'vision', 'vl', '4' or 'llava'. */
  predicate VisionGuess(modelId: string) {
    var lower := ToLower(modelId);
    Contains(lower, "vision") || Contains(lower, "vl") || Contains(lower, "4") || Contains(lower, "llava")
  }

  /** The discovery test has a fifth clause, 'qwen' with 'vision' or 'vl', which the first two already cover. */
  function ListedVision(modelId: string): (b: bool)
    ensures b == VisionGuess(modelId)
  {
    var lower := ToLower(modelId);
    Contains(lower, "vision") || Contains(lower, "vl") || Contains(lower, "4") || Contains(lower, "llava")
    || (Contains(lower, "qwen") && (Contains(lower, "vision") || Contains(lower, "vl")))
  }

  /** A descriptor for an id the static list lacks: tools, the vision guess, 128000 tokens. */
  function BuildDefaultModel(modelId: string): (m: TextModel)
    ensures m.id == modelId && m.name == modelId && m.providerId == "openai"
    ensures m.capabilities.supportsTools && m.capabilities.maxContextLength == Some(128000)
    ensures m.capabilities.supportsVision == Some(VisionGuess(modelId))
  {
    MakeModel(modelId, modelId, Some(modelId), "openai", true, VisionGuess(modelId), 128000)
  }

  /** The error the SDK raises: message, `status`, and `response.status`. */
  datatype ApiError = ApiError(message: Option<string>, status: Option<nat>, responseStatus: Option<nat>)

  datatype ListOutcome = Listed(ids: seq<string>) | ListFailed(error: ApiError)

  function ListBaseURL(config: TextModelConfig): string {
    OrElse(config.connectionConfig.baseURL, DefaultBaseURL)
  }

  predicate IsCustomBaseURL(config: TextModelConfig) {
    ListBaseURL(config) != DefaultBaseURL
  }

  /** The key used for listing: the configured key, else 'lm-studio' for a custom URL, else ''. */
  function ListApiKey(config: TextModelConfig): (key: string)
    ensures Truthy(config.connectionConfig.apiKey) ==> key == config.connectionConfig.apiKey.value
    ensures !Truthy(config.connectionConfig.apiKey) && IsCustomBaseURL(config) ==> key == "lm-studio"
    ensures !Truthy(config.connectionConfig.apiKey) && !IsCustomBaseURL(config) ==> key == ""
  {
    OrElse(config.connectionConfig.apiKey, if IsCustomBaseURL(config) then "lm-studio" else "")
  }

  predicate IsGptId(id: string) {
    Contains(id, "gpt")
  }

  /** The listed ids discovery keeps: all of them for a custom URL, only ids containing 'gpt' otherwise. */
  function KeptIds(ids: seq<string>, custom: bool): (r: seq<string>)
    ensures custom ==> r == ids
    ensures !custom ==> r == Filter(ids, IsGptId)
    ensures forall i :: 0 <= i < |r| ==> r[i] in ids && (custom || Contains(r[i], "gpt"))
  {
    if custom then ids else Filter(ids, IsGptId)
  }

  /** One discovered model: named after its id, tools on, the vision guess, 128000 tokens. */
  function ListedModel(id: string): (m: TextModel)
    ensures m.id == id && m.name == id && m.description == Some(id) && m.providerId == "openai"
    ensures m.capabilities.supportsTools && m.capabilities.maxContextLength == Some(128000)
    ensures m.capabilities.supportsVision == Some(VisionGuess(id))
  {
    MakeModel(id, id, Some(id), "openai", true, ListedVision(id), 128000)
  }

  /** `error.status || error.response.status`, with 0 for neither. */
  function StatusCode(e: ApiError): nat {
    if e.status.Some? && e.status.value != 0 then e.status.value
    else if e.responseStatus.Some? then e.responseStatus.value
    else 0
  }

  /** The rethrown message: the error's message or a default, plus " (HTTP n)" when a status exists. */
  function ListError(e: ApiError): (msg: string)
    ensures StatusCode(e) != 0 ==>
      msg == OrElse(e.message, "获取模型列表失败") + " (HTTP " + NatToString(StatusCode(e)) + ")"
    ensures StatusCode(e) == 0 ==> msg == OrElse(e.message, "获取模型列表失败")
  {
    var base := OrElse(e.message, "获取模型列表失败");
    if StatusCode(e) != 0 then base + " (HTTP " + NatToString(StatusCode(e)) + ")" else base
  }

  /** `getModelsAsync`: lists the models at the resolved base URL with the resolved key, then keeps and maps them. */
  function GetModelsAsync(config: TextModelConfig, list: ListRequest -> ListOutcome): (r: Result<seq<TextModel>>)
    ensures var outcome := list(ListRequest(ListBaseURL(config), Some(ListApiKey(config))));
      (outcome.ListFailed? ==> r == Err(ListError(outcome.error)))
      && (outcome.Listed? ==>
            r.Ok? && r.value == Map(KeptIds(outcome.ids, IsCustomBaseURL(config)), ListedModel))
  {
    match list(ListRequest(ListBaseURL(config), Some(ListApiKey(config))))
    case ListFailed(e) => Err(ListError(e))
    case Listed(ids) => Ok(Map(KeptIds(ids, IsCustomBaseURL(config)), ListedModel))
  }

  /** `sendMessage`: messages are sent as they are; the SDK's error propagates; the reply is shaped. */
  function SendMessage(messages: seq<Message>, config: TextModelConfig,
                       call: ChatRequest<Message> -> Result<ChatCompletion>): (r: Result<LLMResponse>)
    ensures var req := RequestFor(config, messages, DefaultBaseURL, false);
      req.messages == messages
      && (call(req).Err? ==> r == Err(call(req).error))
      && (call(req).Ok? ==> r == ShapeResponse(call(req).value, "OpenAI"))
  {
    match call(RequestFor(config, messages, DefaultBaseURL, false))
    case Err(e) => Err(e)
    case Ok(resp) => ShapeResponse(resp, "OpenAI")
  }

  /** `sendMessageStream`: the shared loop over the delta texts of the opened stream. */
  method SendMessageStream(messages: seq<Message>, config: TextModelConfig,
                           open: ChatRequest<Message> -> ChunkStream) returns (run: StreamRun)
    ensures var source := open(RequestFor(config, messages, DefaultBaseURL, true));
      run == ExpectedRun(DeltaTexts(source.chunks), source.failure)
  {
    run := StreamChat(RequestFor(config, messages, DefaultBaseURL, true), open);
  }
}
