/**
 * The OpenAI-compatible chat-completions protocol that the OpenAI, Ollama,
 * Zhipu, SiliconFlow and DeepSeek adapters speak through the OpenAI SDK: the
 * request they build, the response and chunk shapes they read, and the
 * response shaping and delta extraction they share.
 */
module OpenAICompat {
  import opened Base
  import opened LlmTypes
  import opened Stream

  /** A chat-completions request; `M` is the message shape the vendor receives. */
  datatype ChatRequest<M> = ChatRequest(
    baseURL: string,
    apiKey: Option<string>,
    model: string,
    messages: seq<M>,
    params: Option<LlmParams>,
    stream: bool)

  /** A `models.list()` request. */
  datatype ListRequest = ListRequest(baseURL: string, apiKey: Option<string>)

  datatype ChatMessage = ChatMessage(content: Option<string>)
  datatype Choice = Choice(message: Option<ChatMessage>)
  datatype RawUsage = RawUsage(promptTokens: nat, completionTokens: nat, totalTokens: nat)
  datatype ChatCompletion = ChatCompletion(choices: seq<Choice>, usage: Option<RawUsage>)

  datatype Delta = Delta(content: Option<string>)
  datatype ChunkChoice = ChunkChoice(delta: Option<Delta>)
  datatype ChatChunk = ChatChunk(choices: seq<ChunkChoice>)

  /** What opening a streaming request yields: its chunks, and where the stream raises if it does. */
  datatype ChunkStream = ChunkStream(chunks: seq<ChatChunk>, failure: Option<StreamFailure>)

  /** The model as sent: the config's model id unless llmParams names `model`. */
  function SentModel<M>(req: ChatRequest<M>): Sent<string> {
    SpreadLast(req.params, "model", req.model)
  }

  /** The messages as sent: the adapter's messages unless llmParams names `messages`. */
  function SentMessages<M>(req: ChatRequest<M>): Sent<seq<M>> {
    SpreadLast(req.params, "messages", req.messages)
  }

  /** Whether the call streams: `stream: true` is written only by streaming calls, and llmParams can replace it. */
  function SentStream<M>(req: ChatRequest<M>): Sent<bool> {
    SpreadLast(req.params, "stream", req.stream)
  }

  /**
   * The request every adapter builds from the stored config: model id, base
   * URL or the vendor default, key, and the parameters spread last, so that
   * a parameter named `model`, `messages` or `stream` replaces the adapter's
   * own field.
   */
  function RequestFor<M>(config: TextModelConfig, messages: seq<M>, defaultBaseURL: string, stream: bool): (req: ChatRequest<M>)
    ensures !Overrides(config.llmParams, "model") ==> SentModel(req) == Own(config.modelMeta.id)
    ensures Overrides(config.llmParams, "model") ==> SentModel(req) == FromParams(config.llmParams.value["model"])
    ensures !Overrides(config.llmParams, "messages") ==> SentMessages(req) == Own(messages)
    ensures Overrides(config.llmParams, "messages") ==> SentMessages(req) == FromParams(config.llmParams.value["messages"])
    ensures !Overrides(config.llmParams, "stream") ==> SentStream(req) == Own(stream)
    ensures Overrides(config.llmParams, "stream") ==> SentStream(req) == FromParams(config.llmParams.value["stream"])
    ensures req.model == config.modelMeta.id && req.messages == messages && req.stream == stream
    ensures req.apiKey == config.connectionConfig.apiKey && req.params == config.llmParams
    ensures Truthy(config.connectionConfig.baseURL) ==> req.baseURL == config.connectionConfig.baseURL.value
    ensures !Truthy(config.connectionConfig.baseURL) ==> req.baseURL == defaultBaseURL
  {
    ChatRequest(OrElse(config.connectionConfig.baseURL, defaultBaseURL), config.connectionConfig.apiKey,
                config.modelMeta.id, messages, config.llmParams, stream)
  }

  /** The vendor's usage block as a (prompt, completion, total) triple, absent when the vendor sends none. */
  function CopyUsage(u: Option<RawUsage>): (r: Option<Usage>)
    ensures r.None? <==> u.None?
    ensures u.Some? ==>
      r.value.promptTokens == Some(u.value.promptTokens)
      && r.value.completionTokens == Some(u.value.completionTokens)
      && r.value.totalTokens == Some(u.value.totalTokens)
  {
    match u
    case None => None
    case Some(raw) => Some(Usage(Some(raw.promptTokens), Some(raw.completionTokens), Some(raw.totalTokens)))
  }

  /** The first choice carries a message. */
  predicate HasAnswer(resp: ChatCompletion) {
    |resp.choices| > 0 && resp.choices[0].message.Some?
  }

  /**
   * Response shaping with an explicit no-response check: a missing first
   * choice or message raises "No response from <vendor>"; otherwise the
   * message content, with null read as '', and the usage triple.
   */
  function ShapeResponse(resp: ChatCompletion, vendor: string): (r: Result<LLMResponse>)
    ensures r.Err? <==> !HasAnswer(resp)
    ensures r.Err? ==> r.error == "No response from " + vendor
    ensures r.Ok? ==>
      r.value.content == OrElse(resp.choices[0].message.value.content, "")
      && r.value.usage == CopyUsage(resp.usage)
  {
    if !HasAnswer(resp) then Err("No response from " + vendor)
    else Ok(LLMResponse(OrElse(resp.choices[0].message.value.content, ""), CopyUsage(resp.usage)))
  }

  /** `chunk.choices[0]?.delta?.content || ''`. */
  function DeltaText(c: ChatChunk): (t: string)
    ensures (|c.choices| > 0 && c.choices[0].delta.Some?) ==> t == OrElse(c.choices[0].delta.value.content, "")
    ensures (|c.choices| == 0 || c.choices[0].delta.None?) ==> t == ""
  {
    if |c.choices| > 0 && c.choices[0].delta.Some? then OrElse(c.choices[0].delta.value.content, "") else ""
  }

  function DeltaTexts(cs: seq<ChatChunk>): (ts: seq<string>)
    ensures |ts| == |cs| && forall i :: 0 <= i < |cs| ==> ts[i] == DeltaText(cs[i])
  {
    seq(|cs|, i requires 0 <= i < |cs| => DeltaText(cs[i]))
  }

  /**
   * `sendMessageStream` of an OpenAI-compatible adapter: opens the stream for
   * the request and runs the shared loop over the chunks' delta texts.
   */
  method StreamChat<M>(req: ChatRequest<M>, open: ChatRequest<M> -> ChunkStream) returns (run: StreamRun)
    ensures run == ExpectedRun(DeltaTexts(open(req).chunks), open(req).failure)
    ensures WellFormedTrace(run.trace)
  {
    var source := open(req);
    var trace, outcome := RunStream(DeltaTexts(source.chunks), source.failure);
    run := StreamRun(trace, outcome);
  }

  /** A message as the Chinese vendors receive it: the role and one string. */
  datatype FlatMessage = FlatMessage(role: Role, content: string)

  /** Roles unchanged; string content kept, multimodal content JSON-serialised by `serialize`. */
  function Flatten(messages: seq<Message>, serialize: seq<ContentPart> -> string): (r: seq<FlatMessage>)
    ensures |r| == |messages|
    ensures forall i :: 0 <= i < |messages| ==>
      r[i].role == messages[i].role
      && (messages[i].content.Plain? ==> r[i].content == messages[i].content.text)
      && (messages[i].content.Parts? ==> r[i].content == serialize(messages[i].content.parts))
  {
    seq(|messages|, i requires 0 <= i < |messages| =>
      FlatMessage(messages[i].role,
                  match messages[i].content
                  case Plain(text) => text
                  case Parts(parts) => serialize(parts)))
  }
}
