/**
 * The value types shared by the LLM layer: chat messages, provider and model
 * descriptors, stored model configurations, responses and the callbacks a
 * streaming call fires.
 */
module LlmTypes {
  import opened Base

  datatype Role = System | User | Assistant

  /** The `type` tag of a multimodal content part; tags other than `text` and `image_url` are kept as `Other`. */
  datatype PartKind = TextKind | ImageUrlKind | OtherKind(tag: string)

  /** One part of a multimodal message: `{type, text?, image_url?: {url}}`. */
  datatype ContentPart = ContentPart(kind: PartKind, text: Option<string>, imageUrl: Option<string>)

  /** A message's content is either one string or an array of parts. */
  datatype MessageContent = Plain(text: string) | Parts(parts: seq<ContentPart>)

  datatype Message = Message(role: Role, content: MessageContent)

  datatype TextProvider = TextProvider(
    id: string,
    name: string,
    description: Option<string>,
    requiresApiKey: bool,
    defaultBaseURL: string,
    supportsDynamicModels: bool)

  datatype Capabilities = Capabilities(
    supportsTools: bool,
    supportsVision: Option<bool>,
    supportsReasoning: Option<bool>,
    maxContextLength: Option<nat>)

  datatype TextModel = TextModel(
    id: string,
    name: string,
    description: Option<string>,
    providerId: string,
    capabilities: Capabilities)

  datatype ConnectionConfig = ConnectionConfig(apiKey: Option<string>, baseURL: Option<string>)

  /** Free-form sampling parameters, passed through untouched. */
  type LlmParams = map<string, string>

  /** `params` names `key`, so spreading it into a request replaces that field. */
  predicate Overrides(params: Option<LlmParams>, key: string) {
    params.Some? && key in params.value
  }

  /**
   * A request field as sent once `...(config.llmParams || {})` is spread
   * after the adapter's own fields: the adapter's value, or the parameter
   * under the same key, which wins.
   */
  datatype Sent<T> = Own(value: T) | FromParams(raw: string)

  function SpreadLast<T>(params: Option<LlmParams>, key: string, own: T): Sent<T> {
    if Overrides(params, key) then FromParams(params.value[key]) else Own(own)
  }

  datatype TextModelConfig = TextModelConfig(
    id: string,
    name: string,
    enabled: bool,
    providerMeta: TextProvider,
    modelMeta: TextModel,
    connectionConfig: ConnectionConfig,
    llmParams: Option<LlmParams>)

  datatype Usage = Usage(promptTokens: Option<nat>, completionTokens: Option<nat>, totalTokens: Option<nat>)

  datatype LLMResponse = LLMResponse(content: string, usage: Option<Usage>)

  /** One invocation of a stream handler: `onChunk`, `onComplete` or `onError`. */
  datatype StreamEvent = OnChunk(chunk: string) | OnComplete(content: string) | OnError(error: string)

  /** The error every service raises for a model key without a stored configuration. */
  function ModelMissing(modelKey: string): string {
    "模型 " + modelKey + " 不存在"
  }

  /** `capabilities.supportsVision` is set and true. */
  predicate HasVision(m: TextModel) {
    m.capabilities.supportsVision == Some(true)
  }

  /** A model descriptor with tools flag, vision flag and context length, as every adapter builds them. */
  function MakeModel(id: string, name: string, description: Option<string>, providerId: string,
                     tools: bool, vision: bool, context: nat): (m: TextModel)
    ensures m.id == id && m.name == name && m.providerId == providerId
    ensures m.capabilities.supportsTools == tools
    ensures m.capabilities.supportsVision == Some(vision)
    ensures m.capabilities.maxContextLength == Some(context)
    ensures m.capabilities.supportsReasoning.None?
  {
    TextModel(id, name, description, providerId, Capabilities(tools, Some(vision), None, Some(context)))
  }

  /** A part the Gemini and Anthropic adapters forward: a text part, or an image part that carries `image_url`. */
  predicate IsForwardedPart(p: ContentPart) {
    p.kind == TextKind || (p.kind == ImageUrlKind && p.imageUrl.Some?)
  }

  /** `url.split(',')[1] || url`: the payload after the first comma of a data URI, else the whole URL. */
  function ImagePayload(url: string): (data: string)
    ensures (SecondField(url, ',').Some? && SecondField(url, ',').value != "") ==> data == SecondField(url, ',').value
    ensures (SecondField(url, ',').None? || SecondField(url, ',').value == "") ==> data == url
    ensures ',' !in url ==> data == url
  {
    match SecondField(url, ',')
    case Some(field) => if field != "" then field else url
    case None => url
  }

  /** A base64 data URI is cut to its payload. */
  lemma ImagePayloadOfDataUri(mime: string, payload: string)
    requires ',' !in mime && ',' !in payload && payload != ""
    ensures ImagePayload("data:" + mime + ";base64," + payload) == payload
  {
    var head := "data:" + mime + ";base64";
    var url := head + "," + payload;
    assert "data:" + mime + ";base64," + payload == url;
    assert ',' !in head;
    HasAtChar(url, ',');
    assert url[|head|] == ',';
    assert HasAt(url, |head|, [',']);
    var k := IndexOf(url, [',']).value;
    assert k == |head|;
    assert url[k + 1..] == payload;
    HasAtChar(payload, ',');
  }
}
