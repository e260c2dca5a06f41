/**
 * The Anthropic adapter: provider descriptor, static list, the refusal to
 * discover models, the split of the system prompt from the conversation,
 * content-block conversion, reply shaping and the stream event filter.
 */
module AnthropicAdapter {
  import opened Base
  import opened LlmTypes
  import opened Stream
  import opened Seqs
  import opened Registry

  const DefaultBaseURL := "https://api.anthropic.com"
  const NoDiscovery := "Anthropic API 不支持动态获取模型列表，请手动配置模型"
  const NoTextResponse := "No text response from Anthropic"
  const MaxTokens := 4096

  function Provider(): (p: TextProvider)
    ensures p.id == "anthropic" && p.requiresApiKey && p.supportsDynamicModels && p.defaultBaseURL == DefaultBaseURL
  {
    TextProvider("anthropic", "Anthropic", Some("Anthropic Claude models"), true, DefaultBaseURL, true)
  }

  /** The built-in list: five Claude 3 models with vision, tools and a 200000-token context. */
  function StaticModels(): (ms: seq<TextModel>)
    ensures |ms| == 5
    ensures forall i :: 0 <= i < |ms| ==>
      ms[i].providerId == "anthropic" && HasVision(ms[i]) && ms[i].capabilities.supportsTools
      && ms[i].capabilities.maxContextLength == Some(200000)
  {
    [ MakeModel("claude-3-5-sonnet-20241022", "Claude 3.5 Sonnet", Some("Anthropic Claude 3.5 Sonnet"), "anthropic", true, true, 200000),
      MakeModel("claude-3-5-haiku-20241022", "Claude 3.5 Haiku", Some("Anthropic Claude 3.5 Haiku"), "anthropic", true, true, 200000),
      MakeModel("claude-3-opus-20240229", "Claude 3 Opus", Some("Anthropic Claude 3 Opus"), "anthropic", true, true, 200000),
      MakeModel("claude-3-sonnet-20240229", "Claude 3 Sonnet", Some("Anthropic Claude 3 Sonnet"), "anthropic", true, true, 200000),
      MakeModel("claude-3-haiku-20240307", "Claude 3 Haiku", Some("Anthropic Claude 3 Haiku"), "anthropic", true, true, 200000) ]
  }

  function AsAdapter(): (a: Adapter)
    ensures a.provider == Provider() && a.staticModels == StaticModels() && a.hasModelsAsync
  {
    Adapter(Provider(), StaticModels(), true)
  }

  /** `getModelsAsync` fails whatever the configuration. */
  function GetModelsAsync(config: TextModelConfig): (r: Result<seq<TextModel>>)
    ensures r == Err(NoDiscovery)
  {
    Err(NoDiscovery)
  }

  /** Any id gets vision, tools and a 200000-token context. */
  function BuildDefaultModel(modelId: string): (m: TextModel)
    ensures m.id == modelId && m.name == modelId && m.providerId == "anthropic"
    ensures HasVision(m) && m.capabilities.supportsTools && m.capabilities.maxContextLength == Some(200000)
  {
    MakeModel(modelId, modelId, Some(modelId), "anthropic", true, true, 200000)
  }

  // ---------------------------------------------------------- system split

  /** `messages.find(m => m.role === 'system')`, as an index. */
  function FirstSystemIndex(messages: seq<Message>): (r: Option<nat>)
    ensures r.None? <==> forall i :: 0 <= i < |messages| ==> messages[i].role != System
    ensures r.Some? ==>
      r.value < |messages| && messages[r.value].role == System
      && forall j :: 0 <= j < r.value ==> messages[j].role != System
  {
    if messages == [] then None
    else if messages[0].role == System then Some(0)
    else match FirstSystemIndex(messages[1..])
      case None => None
      case Some(k) => Some(k + 1)
  }

  /**
   * `systemMessage?.content as string || undefined`: an empty string is
   * dropped; an array content is truthy and is passed on as it is.
   */
  function SystemPrompt(messages: seq<Message>): (r: Option<MessageContent>)
    ensures FirstSystemIndex(messages).None? ==> r.None?
    ensures FirstSystemIndex(messages).Some? ==>
      var c := messages[FirstSystemIndex(messages).value].content;
      (c == Plain("") ==> r.None?) && (c != Plain("") ==> r == Some(c))
  {
    match FirstSystemIndex(messages)
    case None => None
    case Some(k) => if messages[k].content == Plain("") then None else Some(messages[k].content)
  }

  predicate NotSystem(m: Message) {
    m.role != System
  }

  /** `messages.filter(m => m.role !== 'system')`. */
  function Conversation(messages: seq<Message>): (r: seq<Message>)
    ensures forall i :: 0 <= i < |r| ==> r[i].role != System && r[i] in messages
    ensures forall m :: m in messages && m.role != System ==> m in r
  {
    Filter(messages, NotSystem)
  }

  /** The conversation keeps the order of the messages around the removed system messages. */
  lemma ConversationAppend(a: seq<Message>, b: seq<Message>)
    ensures Conversation(a + b) == Conversation(a) + Conversation(b)
  {
    FilterAppend(a, b, NotSystem);
  }

  /** Without any system message there is no system prompt and the conversation is the whole input. */
  lemma NoSystemMessage(messages: seq<Message>)
    requires forall i :: 0 <= i < |messages| ==> messages[i].role != System
    ensures SystemPrompt(messages).None? && Conversation(messages) == messages
  {
    FilterAll(messages, NotSystem);
  }

  // ------------------------------------------------------ content conversion

  datatype AnthropicRole = AssistantRole | UserRole
  datatype Block = TextBlock(text: Option<string>) | ImageBlock(sourceType: string, mediaType: string, data: string)
  datatype AnthropicContent = Text(text: string) | Blocks(blocks: seq<Block>)
  datatype AnthropicMessage = AnthropicMessage(role: AnthropicRole, content: AnthropicContent)

  /** 'assistant' stays 'assistant'; every other role becomes 'user'. */
  function RoleFor(role: Role): (a: AnthropicRole)
    ensures a == AssistantRole <==> role == Assistant
  {
    if role == Assistant then AssistantRole else UserRole
  }

  /** The block for one part: text as a text block, an image as a base64 JPEG source, anything else dropped. */
  function BlockFor(p: ContentPart): (r: seq<Block>)
    ensures !IsForwardedPart(p) <==> r == []
    ensures p.kind == TextKind ==> r == [TextBlock(p.text)]
    ensures p.kind == ImageUrlKind && p.imageUrl.Some? ==>
      r == [ImageBlock("base64", "image/jpeg", ImagePayload(p.imageUrl.value))]
  {
    if p.kind == TextKind then [TextBlock(p.text)]
    else if p.kind == ImageUrlKind && p.imageUrl.Some? then [ImageBlock("base64", "image/jpeg", ImagePayload(p.imageUrl.value))]
    else []
  }

  /** The blocks the conversion loop pushes, in order. */
  function BlocksFor(parts: seq<ContentPart>): (r: seq<Block>)
    ensures |r| <= |parts|
    ensures forall i :: 0 <= i < |r| && r[i].ImageBlock? ==>
      r[i].sourceType == "base64" && r[i].mediaType == "image/jpeg"
  {
    if parts == [] then [] else BlocksFor(parts[..|parts| - 1]) + BlockFor(parts[|parts| - 1])
  }

  /** Conversion distributes over concatenation: blocks keep the order of their parts. */
  lemma {:induction false} BlocksForAppend(a: seq<ContentPart>, b: seq<ContentPart>)
    ensures BlocksFor(a + b) == BlocksFor(a) + BlocksFor(b)
  {
    if b == [] {
      assert a + b == a;
    } else {
      assert (a + b)[..|a + b| - 1] == a + b[..|b| - 1];
      BlocksForAppend(a, b[..|b| - 1]);
    }
  }

  /** Every text or image part yields exactly one block. */
  lemma {:induction false} BlocksForKeepsForwarded(parts: seq<ContentPart>)
    requires forall i :: 0 <= i < |parts| ==> IsForwardedPart(parts[i])
    ensures |BlocksFor(parts)| == |parts|
  {
    if parts != [] {
      BlocksForKeepsForwarded(parts[..|parts| - 1]);
    }
  }

  /** The `for`/`push` loop over one message's parts. */
  method ConvertParts(parts: seq<ContentPart>) returns (contents: seq<Block>)
    ensures contents == BlocksFor(parts)
  {
    contents := [];
    var i := 0;
    while i < |parts|
      invariant 0 <= i <= |parts|
      invariant contents == BlocksFor(parts[..i])
    {
      Seqs.TakeSnoc(parts, i);
      var p := parts[i];
      if p.kind == TextKind {
        contents := contents + [TextBlock(p.text)];
      } else if p.kind == ImageUrlKind && p.imageUrl.Some? {
        contents := contents + [ImageBlock("base64", "image/jpeg", ImagePayload(p.imageUrl.value))];
      }
      i := i + 1;
    }
    Seqs.TakeAll(parts);
  }

  /** One conversation message: a string is kept, an array goes through the loop. */
  function MessageFor(m: Message): (a: AnthropicMessage)
    ensures a.role == RoleFor(m.role)
    ensures m.content.Plain? ==> a.content == Text(m.content.text)
    ensures m.content.Parts? ==> a.content == Blocks(BlocksFor(m.content.parts))
  {
    match m.content
    case Plain(text) => AnthropicMessage(RoleFor(m.role), Text(text))
    case Parts(parts) => AnthropicMessage(RoleFor(m.role), Blocks(BlocksFor(parts)))
  }

  /** `conversationMessages.map(...)`: one Anthropic message per conversation message, in order. */
  method ConvertMessages(messages: seq<Message>) returns (out: seq<AnthropicMessage>)
    ensures |out| == |Conversation(messages)|
    ensures forall i :: 0 <= i < |out| ==> out[i] == MessageFor(Conversation(messages)[i])
  {
    var conversation := Conversation(messages);
    out := [];
    var i := 0;
    while i < |conversation|
      invariant 0 <= i <= |conversation|
      invariant |out| == i
      invariant forall j :: 0 <= j < i ==> out[j] == MessageFor(conversation[j])
    {
      var m := conversation[i];
      var converted: AnthropicMessage;
      match m.content {
        case Plain(text) =>
          converted := AnthropicMessage(RoleFor(m.role), Text(text));
        case Parts(parts) =>
          var blocks := ConvertParts(parts);
          converted := AnthropicMessage(RoleFor(m.role), Blocks(blocks));
      }
      out := out + [converted];
      i := i + 1;
    }
  }

  // -------------------------------------------------------------- vendor calls

  datatype MessagesRequest = MessagesRequest(
    apiKey: Option<string>,
    baseURL: string,
    model: string,
    maxTokens: nat,
    system: Option<MessageContent>,
    messages: seq<AnthropicMessage>,
    params: Option<LlmParams>)

  datatype ReplyBlock = TextReply(text: string) | OtherReply(blockType: string)
  datatype RawUsage = RawUsage(inputTokens: nat, outputTokens: nat)
  datatype MessagesReply = MessagesReply(content: seq<ReplyBlock>, usage: Option<RawUsage>)

  /** The model as sent: the config's model id unless llmParams names `model`. */
  function SentModel(req: MessagesRequest): Sent<string> {
    SpreadLast(req.params, "model", req.model)
  }

  /** The token cap as sent: 4096 unless llmParams names `max_tokens`. */
  function SentMaxTokens(req: MessagesRequest): Sent<nat> {
    SpreadLast(req.params, "max_tokens", req.maxTokens)
  }

  /** The system prompt as sent, unless llmParams names `system`. */
  function SentSystem(req: MessagesRequest): Sent<Option<MessageContent>> {
    SpreadLast(req.params, "system", req.system)
  }

  /** The converted messages as sent, unless llmParams names `messages`. */
  function SentMessages(req: MessagesRequest): Sent<seq<AnthropicMessage>> {
    SpreadLast(req.params, "messages", req.messages)
  }

  /**
   * The `messages.create` / `messages.stream` body: the adapter's fields with
   * llmParams spread last, so a parameter of the same name replaces any of
   * them.
   */
  function RequestFor(messages: seq<Message>, config: TextModelConfig, converted: seq<AnthropicMessage>): (req: MessagesRequest)
    ensures !Overrides(config.llmParams, "model") ==> SentModel(req) == Own(config.modelMeta.id)
    ensures Overrides(config.llmParams, "model") ==> SentModel(req) == FromParams(config.llmParams.value["model"])
    ensures !Overrides(config.llmParams, "max_tokens") ==> SentMaxTokens(req) == Own(MaxTokens)
    ensures Overrides(config.llmParams, "max_tokens") ==> SentMaxTokens(req) == FromParams(config.llmParams.value["max_tokens"])
    ensures !Overrides(config.llmParams, "system") ==> SentSystem(req) == Own(SystemPrompt(messages))
    ensures Overrides(config.llmParams, "system") ==> SentSystem(req) == FromParams(config.llmParams.value["system"])
    ensures !Overrides(config.llmParams, "messages") ==> SentMessages(req) == Own(converted)
    ensures Overrides(config.llmParams, "messages") ==> SentMessages(req) == FromParams(config.llmParams.value["messages"])
    ensures req.apiKey == config.connectionConfig.apiKey && req.model == config.modelMeta.id
    ensures req.baseURL == OrElse(config.connectionConfig.baseURL, DefaultBaseURL)
    ensures req.maxTokens == MaxTokens && req.system == SystemPrompt(messages) && req.messages == converted
    ensures req.params == config.llmParams
  {
    MessagesRequest(config.connectionConfig.apiKey, OrElse(config.connectionConfig.baseURL, DefaultBaseURL),
                    config.modelMeta.id, MaxTokens, SystemPrompt(messages), converted, config.llmParams)
  }

  /** Usage as (input, output, input + output) when the reply carries it. */
  function UsageOf(u: Option<RawUsage>): (r: Option<Usage>)
    ensures u.None? <==> r.None?
    ensures u.Some? ==>
      r.value.promptTokens == Some(u.value.inputTokens)
      && r.value.completionTokens == Some(u.value.outputTokens)
      && r.value.totalTokens == Some(u.value.inputTokens + u.value.outputTokens)
  {
    match u
    case None => None
    case Some(raw) => Some(Usage(Some(raw.inputTokens), Some(raw.outputTokens), Some(raw.inputTokens + raw.outputTokens)))
  }

  /** The first block must be text; its text is the content. */
  function ShapeReply(reply: MessagesReply): (r: Result<LLMResponse>)
    ensures r.Err? <==> (|reply.content| == 0 || !reply.content[0].TextReply?)
    ensures r.Err? ==> r.error == NoTextResponse
    ensures r.Ok? ==> r.value.content == reply.content[0].text && r.value.usage == UsageOf(reply.usage)
  {
    if |reply.content| == 0 || !reply.content[0].TextReply? then Err(NoTextResponse)
    else Ok(LLMResponse(reply.content[0].text, UsageOf(reply.usage)))
  }

  /** `sendMessage`: the request carries the system split; the reply's first text block is the answer. */
  method SendMessage(messages: seq<Message>, config: TextModelConfig,
                     create: MessagesRequest -> Result<MessagesReply>) returns (r: Result<LLMResponse>)
    ensures exists converted ::
      |converted| == |Conversation(messages)|
      && (forall i :: 0 <= i < |converted| ==> converted[i] == MessageFor(Conversation(messages)[i]))
      && var reply := create(RequestFor(messages, config, converted));
         (reply.Err? ==> r == Err(reply.error))
         && (reply.Ok? ==> r == ShapeReply(reply.value))
  {
    var converted := ConvertMessages(messages);
    var reply := create(RequestFor(messages, config, converted));
    match reply {
      case Err(e) => r := Err(e);
      case Ok(answer) => r := ShapeReply(answer);
    }
  }

  // ----------------------------------------------------------------- stream

  datatype EventDelta = EventDelta(deltaType: string, text: Option<string>)
  datatype StreamEventIn = StreamEventIn(eventType: string, delta: Option<EventDelta>)
  datatype EventStream = EventStream(events: seq<StreamEventIn>, failure: Option<StreamFailure>)

  predicate IsTextDelta(e: StreamEventIn) {
    e.eventType == "content_block_delta" && e.delta.Some? && e.delta.value.deltaType == "text_delta"
  }

  /** The text an event contributes: only a text delta of a content block counts. */
  function EventText(e: StreamEventIn): (t: string)
    ensures !IsTextDelta(e) ==> t == ""
    ensures IsTextDelta(e) ==> t == OrElse(e.delta.value.text, "")
  {
    if IsTextDelta(e) then OrElse(e.delta.value.text, "") else ""
  }

  function EventTexts(events: seq<StreamEventIn>): (ts: seq<string>)
    ensures |ts| == |events| && forall i :: 0 <= i < |events| ==> ts[i] == EventText(events[i])
  {
    seq(|events|, i requires 0 <= i < |events| => EventText(events[i]))
  }

  /** Events other than text deltas add nothing to the completed content. */
  lemma {:induction false} OtherEventsAddNothing(events: seq<StreamEventIn>)
    requires forall i :: 0 <= i < |events| ==> !IsTextDelta(events[i])
    ensures NonEmpty(EventTexts(events)) == []
  {
    if events != [] {
      var ts := EventTexts(events);
      assert ts[..|ts| - 1] == EventTexts(events[..|events| - 1]);
      OtherEventsAddNothing(events[..|events| - 1]);
    }
  }

  /** `sendMessageStream`: the shared loop over the text deltas of the opened event stream. */
  method SendMessageStream(messages: seq<Message>, config: TextModelConfig,
                           open: MessagesRequest -> EventStream) returns (run: StreamRun)
    ensures exists converted ::
      |converted| == |Conversation(messages)|
      && (forall i :: 0 <= i < |converted| ==> converted[i] == MessageFor(Conversation(messages)[i]))
      && var source := open(RequestFor(messages, config, converted));
         run == ExpectedRun(EventTexts(source.events), source.failure)
  {
    var converted := ConvertMessages(messages);
    var source := open(RequestFor(messages, config, converted));
    var trace, outcome := RunStream(EventTexts(source.events), source.failure);
    run := StreamRun(trace, outcome);
  }
}
