/**
 * The DeepSeek adapter: an OpenAI-compatible endpoint whose listing is
 * narrowed to DeepSeek ids, with tools and reasoning read off the id.
 */
module DeepSeekAdapter {
  import opened Base
  import opened LlmTypes
  import opened Stream
  import opened Seqs
  import opened Registry
  import opened OpenAICompat

  const DefaultBaseURL := "https://api.deepseek.com/v1"

  function Provider(): (p: TextProvider)
    ensures p.id == "deepseek" && p.requiresApiKey && p.supportsDynamicModels && p.defaultBaseURL == DefaultBaseURL
  {
    TextProvider("deepseek", "DeepSeek", Some("DeepSeek API (OpenAI Compatible)"), true, DefaultBaseURL, true)
  }

  /** The built-in list: chat (tools), reasoner (reasoning, vision unset) and coder, all 128000 tokens. */
  function StaticModels(): (ms: seq<TextModel>)
    ensures |ms| == 3
    ensures forall i :: 0 <= i < |ms| ==>
      ms[i].providerId == "deepseek" && !HasVision(ms[i]) && ms[i].capabilities.maxContextLength == Some(128000)
  {
    [ TextModel("deepseek-chat", "DeepSeek Chat", Some("DeepSeek Chat"), "deepseek",
                Capabilities(true, Some(false), None, Some(128000))),
      TextModel("deepseek-reasoner", "DeepSeek Reasoner", Some("DeepSeek Reasoner (Reasoning model)"), "deepseek",
                Capabilities(false, None, Some(true), Some(128000))),
      TextModel("deepseek-coder", "DeepSeek Coder", Some("DeepSeek Coder"), "deepseek",
                Capabilities(false, Some(false), None, Some(128000))) ]
  }

  function AsAdapter(): (a: Adapter)
    ensures a.provider == Provider() && a.staticModels == StaticModels() && a.hasModelsAsync
  {
    Adapter(Provider(), StaticModels(), true)
  }

  /** No tools, no vision, a 64000-token context. */
  function BuildDefaultModel(modelId: string): (m: TextModel)
    ensures m.id == modelId && m.name == modelId && m.providerId == "deepseek"
    ensures !m.capabilities.supportsTools && !HasVision(m) && m.capabilities.maxContextLength == Some(64000)
  {
    MakeModel(modelId, modelId, Some(modelId), "deepseek", false, false, 64000)
  }

  predicate IsDeepSeekId(id: string) {
    Contains(id, "deepseek")
  }

  /** One listed id: tools iff 'chat', reasoning iff 'reasoner', never vision, 128000 tokens. */
  function ListedModel(id: string): (m: TextModel)
    ensures m.id == id && m.name == id && m.description == Some(id) && m.providerId == "deepseek"
    ensures m.capabilities.supportsTools <==> Contains(id, "chat")
    ensures m.capabilities.supportsReasoning == Some(Contains(id, "reasoner"))
    ensures m.capabilities.supportsVision == Some(false)
    ensures m.capabilities.maxContextLength == Some(128000)
  {
    TextModel(id, id, Some(id), "deepseek",
              Capabilities(Contains(id, "chat"), Some(false), Some(Contains(id, "reasoner")), Some(128000)))
  }

  function ListRequestFor(config: TextModelConfig): ListRequest {
    ListRequest(OrElse(config.connectionConfig.baseURL, DefaultBaseURL), config.connectionConfig.apiKey)
  }

  /** `getModelsAsync`: the listed ids containing 'deepseek', in order; failures rethrown unchanged. */
  function GetModelsAsync(config: TextModelConfig, list: ListRequest -> Result<seq<string>>): (r: Result<seq<TextModel>>)
    ensures var listed := list(ListRequestFor(config));
      (listed.Err? ==> r == Err(listed.error))
      && (listed.Ok? ==> r == Ok(Map(Filter(listed.value, IsDeepSeekId), ListedModel)))
    ensures r.Ok? ==> forall i :: 0 <= i < |r.value| ==> Contains(r.value[i].id, "deepseek")
  {
    match list(ListRequestFor(config))
    case Err(e) => Err(e)
    case Ok(ids) => Ok(Map(Filter(ids, IsDeepSeekId), ListedModel))
  }

  /** The listing drops an id without 'deepseek' wherever it stands, and keeps the others' order. */
  lemma ListingKeepsOrder(a: seq<string>, id: string, b: seq<string>)
    requires !IsDeepSeekId(id)
    ensures Filter(a + [id] + b, IsDeepSeekId) == Filter(a, IsDeepSeekId) + Filter(b, IsDeepSeekId)
  {
    FilterAppend(a + [id], b, IsDeepSeekId);
    FilterAppend(a, [id], IsDeepSeekId);
    assert [id][1..] == [];
  }

  function SendMessage(messages: seq<Message>, config: TextModelConfig, serialize: seq<ContentPart> -> string,
                       call: ChatRequest<FlatMessage> -> Result<ChatCompletion>): (r: Result<LLMResponse>)
    ensures var reply := call(RequestFor(config, Flatten(messages, serialize), DefaultBaseURL, false));
      (reply.Err? ==> r == Err(reply.error))
      && (reply.Ok? ==> r == ShapeResponse(reply.value, "DeepSeek"))
  {
    match call(RequestFor(config, Flatten(messages, serialize), DefaultBaseURL, false))
    case Err(e) => Err(e)
    case Ok(resp) => ShapeResponse(resp, "DeepSeek")
  }

  method SendMessageStream(messages: seq<Message>, config: TextModelConfig, serialize: seq<ContentPart> -> string,
                           open: ChatRequest<FlatMessage> -> ChunkStream) returns (run: StreamRun)
    ensures var source := open(RequestFor(config, Flatten(messages, serialize), DefaultBaseURL, true));
      run == ExpectedRun(DeltaTexts(source.chunks), source.failure)
  {
    run := StreamChat(RequestFor(config, Flatten(messages, serialize), DefaultBaseURL, true), open);
  }
}
