/**
 * The Ollama adapter: a keyless provider reached through the OpenAI-compatible
 * endpoint, whose models are discovered through the native `/api/tags` listing.
 */
module OllamaAdapter {
  import opened Base
  import opened LlmTypes
  import opened Stream
  import opened Seqs
  import opened Registry
  import opened Fetch
  import opened OpenAICompat

  const DefaultBaseURL := "http://127.0.0.1:11434/v1"
  /** The placeholder key the SDK is given; Ollama ignores it. */
  const PlaceholderKey := "ollama"
  const ErrorPrefix := "Ollama API 错误: "
  const UnknownError := "未知错误"

  function Provider(): (p: TextProvider)
    ensures p.id == "ollama" && !p.requiresApiKey && p.supportsDynamicModels && p.defaultBaseURL == DefaultBaseURL
  {
    TextProvider("ollama", "Ollama", Some("Ollama Local Models (OpenAI Compatible)"), false, DefaultBaseURL, true)
  }

  /**
   * The vision rule for an id, case-sensitive. The source also tests
   * 'qwen2.5-vision' and 'llama3.2-vision'; the contract shows both are
   * already covered by 'vision'.
   */
  function Vision(modelId: string): (b: bool)
    ensures b <==> Contains(modelId, "vision") || Contains(modelId, "llava")
  {
    LongVisionTagsContainVision(modelId);
    Contains(modelId, "vision") || Contains(modelId, "llava")
    || Contains(modelId, "qwen2.5-vision") || Contains(modelId, "llama3.2-vision")
  }

  lemma LongVisionTagsContainVision(modelId: string)
    ensures Contains(modelId, "qwen2.5-vision") ==> Contains(modelId, "vision")
    ensures Contains(modelId, "llama3.2-vision") ==> Contains(modelId, "vision")
  {
    if Contains(modelId, "qwen2.5-vision") {
      assert "qwen2.5-vision" == "qwen2.5-" + "vision";
      ContainsSuffix(modelId, "qwen2.5-", "vision");
    }
    if Contains(modelId, "llama3.2-vision") {
      assert "llama3.2-vision" == "llama3.2-" + "vision";
      ContainsSuffix(modelId, "llama3.2-", "vision");
    }
  }

  function Static(id: string, name: string, description: string, vision: bool): TextModel {
    MakeModel(id, name, Some(description), "ollama", false, vision, 128000)
  }

  /** The built-in list: seven local models without tools and with a 128000-token context. */
  function StaticModels(): (ms: seq<TextModel>)
    ensures |ms| == 7
    ensures forall i :: 0 <= i < |ms| ==>
      ms[i].providerId == "ollama" && !ms[i].capabilities.supportsTools
      && ms[i].capabilities.maxContextLength == Some(128000)
  {
    [ Static("llama3.2", "Llama 3.2", "Llama 3.2", false),
      Static("llama3.1", "Llama 3.1", "Llama 3.1", false),
      Static("llama3", "Llama 3", "Llama 3", false),
      Static("llama3.2-vision", "Llama 3.2 Vision", "Llama 3.2 Vision", true),
      Static("llava", "LLaVA", "LLaVA Vision Model", true),
      Static("qwen2.5", "Qwen 2.5", "Qwen 2.5", false),
      Static("qwen2.5-vision", "Qwen 2.5 Vision", "Qwen 2.5 Vision", true) ]
  }

  /** A descriptor whose vision flag is what the id rule gives. */
  predicate FollowsVisionRule(m: TextModel) {
    m.capabilities.supportsVision == Some(Vision(m.id))
  }

  /** The vision flags of the built-in list are exactly what the id rule gives. */
  lemma StaticModelsFollowVisionRule()
    ensures forall i :: 0 <= i < |StaticModels()| ==> FollowsVisionRule(StaticModels()[i])
  {
    forall i | 0 <= i < |StaticModels()| ensures FollowsVisionRule(StaticModels()[i]) {
      StaticModelFollowsVisionRule(i);
    }
  }

  lemma StaticModelFollowsVisionRule(i: nat)
    requires i < |StaticModels()|
    ensures FollowsVisionRule(StaticModels()[i])
  {
    var m := StaticModels()[i];
    if i == 3 {
      VisionAt(m.id, 9);
    } else if i == 4 {
      LlavaIsVision(m.id);
    } else if i == 6 {
      VisionAt(m.id, 8);
    } else {
      NoVisionWithoutV(m.id);
    }
  }

  lemma NoVisionWithoutV(modelId: string)
    requires 'v' !in modelId
    ensures !Vision(modelId)
  {
    NotContainsChar(modelId, "vision", 0);
    NotContainsChar(modelId, "llava", 3);
  }

  lemma VisionAt(modelId: string, k: nat)
    requires HasAt(modelId, k, "vision")
    ensures Vision(modelId)
  {
    ContainsAt(modelId, "vision", k);
  }

  lemma LlavaIsVision(modelId: string)
    requires HasAt(modelId, 0, "llava")
    ensures Vision(modelId)
  {
    ContainsAt(modelId, "llava", 0);
  }

  function AsAdapter(): (a: Adapter)
    ensures a.provider == Provider() && a.staticModels == StaticModels() && a.hasModelsAsync
  {
    Adapter(Provider(), StaticModels(), true)
  }

  /** No tools, the vision rule, 128000 tokens. */
  function BuildDefaultModel(modelId: string): (m: TextModel)
    ensures m.id == modelId && m.name == modelId && m.providerId == "ollama"
    ensures !m.capabilities.supportsTools && m.capabilities.maxContextLength == Some(128000)
    ensures m.capabilities.supportsVision == Some(Vision(modelId))
  {
    MakeModel(modelId, modelId, Some(modelId), "ollama", false, Vision(modelId), 128000)
  }

  // ---------------------------------------------------------------- discovery

  /** The listing URL: the first '/v1' of the base URL removed, then '/api/tags'. */
  function TagsUrl(config: TextModelConfig): (url: string)
    ensures var base := OrElse(config.connectionConfig.baseURL, DefaultBaseURL);
      url == ReplaceFirst(base, "/v1", "") + "/api/tags"
  {
    ReplaceFirst(OrElse(config.connectionConfig.baseURL, DefaultBaseURL), "/v1", "") + "/api/tags"
  }

  /** A base URL ending in '/v1', with no 'v' before it, loses exactly that suffix. */
  lemma TagsUrlOfVersionedBase(host: string)
    requires 'v' !in host
    ensures ReplaceFirst(host + "/v1", "/v1", "") == host
  {
    var s := host + "/v1";
    assert HasAt(s, |host|, "/v1");
    forall j | 0 <= j < |host| ensures !HasAt(s, j, "/v1") {
      assert s[j + 1] != 'v' by {
        if j + 1 < |host| {
          assert s[j + 1] == host[j + 1];
        }
      }
      assert s[j..j + 3][1] == s[j + 1];
    }
    assert IndexOf(s, "/v1") == Some(|host|);
    assert s[..|host|] == host;
  }

  datatype Details = Details(parentModel: Option<string>)
  datatype TagInfo = TagInfo(name: Option<string>, details: Option<Details>)
  datatype TagsBody = TagsBody(models: Option<seq<TagInfo>>)

  /** One listed model: named after its tag, described by the parent model or the id. */
  function ListedModel(info: TagInfo): (m: TextModel)
    ensures m.id == OrElse(info.name, "") && m.name == m.id && m.providerId == "ollama"
    ensures info.details.Some? && Truthy(info.details.value.parentModel) ==>
      m.description == info.details.value.parentModel
    ensures (info.details.None? || !Truthy(info.details.value.parentModel)) ==> m.description == Some(m.id)
    ensures !m.capabilities.supportsTools && m.capabilities.maxContextLength == Some(128000)
    ensures m.capabilities.supportsVision == Some(Vision(m.id))
  {
    var id := OrElse(info.name, "");
    var description := if info.details.Some? then OrElse(info.details.value.parentModel, id) else id;
    MakeModel(id, id, Some(description), "ollama", false, Vision(id), 128000)
  }

  /**
   * `getModelsAsync`: a transport error propagates; a non-OK reply fails with
   * `HTTP <status>: <body>`; a reply without a `models` array fails; otherwise
   * every listed model, in order.
   */
  function GetModelsAsync(config: TextModelConfig, fetch: string -> Result<HttpResponse<TagsBody>>): (r: Result<seq<TextModel>>)
    ensures var reply := fetch(TagsUrl(config));
      (reply.Err? ==> r == Err(reply.error))
      && (reply.Ok? && !reply.value.ok ==> r == Err(HttpError(reply.value.status, reply.value.text)))
      && (reply.Ok? && reply.value.ok && reply.value.json.Err? ==> r == Err(reply.value.json.error))
      && (reply.Ok? && reply.value.ok && reply.value.json.Ok? && reply.value.json.value.models.None? ==> r == Err(FormatError))
      && (reply.Ok? && reply.value.ok && reply.value.json.Ok? && reply.value.json.value.models.Some? ==>
            r == Ok(Map(reply.value.json.value.models.value, ListedModel)))
  {
    match fetch(TagsUrl(config))
    case Err(e) => Err(e)
    case Ok(response) =>
      if !response.ok then Err(HttpError(response.status, response.text))
      else match response.json
        case Err(e) => Err(e)
        case Ok(body) =>
          match body.models
          case None => Err(FormatError)
          case Some(models) => Ok(Map(models, ListedModel))
  }

  // -------------------------------------------------------------- vendor calls

  /**
   * The request: messages as they are, the placeholder key, the base URL or
   * the local default, and llmParams spread last over model, messages and
   * the stream flag.
   */
  function ChatRequestFor(messages: seq<Message>, config: TextModelConfig, stream: bool): (req: ChatRequest<Message>)
    ensures !Overrides(config.llmParams, "model") ==> SentModel(req) == Own(config.modelMeta.id)
    ensures Overrides(config.llmParams, "model") ==> SentModel(req) == FromParams(config.llmParams.value["model"])
    ensures !Overrides(config.llmParams, "messages") ==> SentMessages(req) == Own(messages)
    ensures Overrides(config.llmParams, "messages") ==> SentMessages(req) == FromParams(config.llmParams.value["messages"])
    ensures !Overrides(config.llmParams, "stream") ==> SentStream(req) == Own(stream)
    ensures Overrides(config.llmParams, "stream") ==> SentStream(req) == FromParams(config.llmParams.value["stream"])
    ensures req.messages == messages && req.apiKey == Some(PlaceholderKey) && req.stream == stream
    ensures req.model == config.modelMeta.id && req.baseURL == OrElse(config.connectionConfig.baseURL, DefaultBaseURL)
    ensures req.params == config.llmParams
  {
    RequestFor(config, messages, DefaultBaseURL, stream).(apiKey := Some(PlaceholderKey))
  }

  /** `response.choices[0]?.message?.content || ''`: a reply without a choice is an empty answer, not an error. */
  function AnswerText(resp: ChatCompletion): (t: string)
    ensures HasAnswer(resp) ==> t == OrElse(resp.choices[0].message.value.content, "")
    ensures !HasAnswer(resp) ==> t == ""
  {
    if HasAnswer(resp) then OrElse(resp.choices[0].message.value.content, "") else ""
  }

  /** Every failure is rethrown with the Ollama prefix, an empty message read as unknown. */
  function WrapError(message: string): (e: string)
    ensures message != "" ==> e == ErrorPrefix + message
    ensures message == "" ==> e == ErrorPrefix + UnknownError
  {
    ErrorPrefix + (if message != "" then message else UnknownError)
  }

  /** `sendMessage`: never a no-response error; failures wrapped; usage copied. */
  function SendMessage(messages: seq<Message>, config: TextModelConfig,
                       call: ChatRequest<Message> -> Result<ChatCompletion>): (r: Result<LLMResponse>)
    ensures var reply := call(ChatRequestFor(messages, config, false));
      (reply.Err? ==> r == Err(WrapError(reply.error)))
      && (reply.Ok? ==> r == Ok(LLMResponse(AnswerText(reply.value), CopyUsage(reply.value.usage))))
  {
    match call(ChatRequestFor(messages, config, false))
    case Err(e) => Err(WrapError(e))
    case Ok(resp) => Ok(LLMResponse(AnswerText(resp), CopyUsage(resp.usage)))
  }

  /** The error a successful call can never produce: a reply always yields an answer. */
  lemma SendMessageNeverLacksAnswer(messages: seq<Message>, config: TextModelConfig,
                                    call: ChatRequest<Message> -> Result<ChatCompletion>)
    requires call(ChatRequestFor(messages, config, false)).Ok?
    ensures SendMessage(messages, config, call).Ok?
  {
  }

  /** `sendMessageStream`: the shared loop; stream errors are rethrown unwrapped. */
  method SendMessageStream(messages: seq<Message>, config: TextModelConfig,
                           open: ChatRequest<Message> -> ChunkStream) returns (run: StreamRun)
    ensures var source := open(ChatRequestFor(messages, config, true));
      run == ExpectedRun(DeltaTexts(source.chunks), source.failure)
  {
    run := StreamChat(ChatRequestFor(messages, config, true), open);
  }
}
