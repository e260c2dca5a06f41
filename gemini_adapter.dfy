/**
 * The Gemini adapter: provider descriptor, static list, REST discovery,
 * conversion of chat messages to Gemini contents, and the two vendor calls.
 */
module GeminiAdapter {
  import opened Base
  import opened LlmTypes
  import opened Stream
  import opened Seqs
  import opened Registry
  import opened Fetch

  const DefaultBaseURL := "https://generativelanguage.googleapis.com"

  function Provider(): (p: TextProvider)
    ensures p.id == "gemini" && p.requiresApiKey && p.supportsDynamicModels && p.defaultBaseURL == DefaultBaseURL
  {
    TextProvider("gemini", "Google Gemini", Some("Google Gemini API"), true, DefaultBaseURL, true)
  }

  /** The built-in list: four models, every one with vision and tools. */
  function StaticModels(): (ms: seq<TextModel>)
    ensures |ms| == 4
    ensures forall i :: 0 <= i < |ms| ==>
      ms[i].providerId == "gemini" && HasVision(ms[i]) && ms[i].capabilities.supportsTools
  {
    [ MakeModel("gemini-2.0-flash-exp", "Gemini 2.0 Flash", Some("Google Gemini 2.0 Flash (Experimental)"), "gemini", true, true, 1000000),
      MakeModel("gemini-1.5-pro", "Gemini 1.5 Pro", Some("Google Gemini 1.5 Pro"), "gemini", true, true, 2000000),
      MakeModel("gemini-1.5-flash", "Gemini 1.5 Flash", Some("Google Gemini 1.5 Flash"), "gemini", true, true, 1000000),
      MakeModel("gemini-1.5-flash-8b", "Gemini 1.5 Flash 8B", Some("Google Gemini 1.5 Flash 8B"), "gemini", true, true, 1000000) ]
  }

  function AsAdapter(): (a: Adapter)
    ensures a.provider == Provider() && a.staticModels == StaticModels() && a.hasModelsAsync
  {
    Adapter(Provider(), StaticModels(), true)
  }

  /** Any id gets vision, tools and a context of 1000000 tokens. */
  function BuildDefaultModel(modelId: string): (m: TextModel)
    ensures m.id == modelId && m.name == modelId && m.providerId == "gemini"
    ensures HasVision(m) && m.capabilities.supportsTools && m.capabilities.maxContextLength == Some(1000000)
  {
    MakeModel(modelId, modelId, Some(modelId), "gemini", true, true, 1000000)
  }

  // ---------------------------------------------------------------- discovery

  /** One entry of the ListModels reply. */
  datatype ModelInfo = ModelInfo(
    name: Option<string>,
    displayName: Option<string>,
    description: Option<string>,
    supportedGenerationMethods: Option<seq<string>>,
    inputTokenLimit: Option<nat>)

  /** The parsed reply; `models` is absent when the field is missing or not an array. */
  datatype ListBody = ListBody(models: Option<seq<ModelInfo>>)

  function ListUrl(config: TextModelConfig): string {
    OrElse(config.connectionConfig.baseURL, DefaultBaseURL) + "/v1beta/models?key="
      + OrElse(config.connectionConfig.apiKey, "")
  }

  predicate SupportsGenerateContent(info: ModelInfo) {
    info.supportedGenerationMethods.Some? && "generateContent" in info.supportedGenerationMethods.value
  }

  /** `name.replace('models/', '') || name || ''`. */
  function ModelId(name: Option<string>): (id: string)
    ensures name.None? ==> id == ""
    ensures name.Some? && ReplaceFirst(name.value, "models/", "") != "" ==> id == ReplaceFirst(name.value, "models/", "")
    ensures name.Some? && ReplaceFirst(name.value, "models/", "") == "" ==> id == name.value
  {
    match name
    case None => ""
    case Some(n) => var stripped := ReplaceFirst(n, "models/", ""); if stripped != "" then stripped else n
  }

  /** A resource name `models/<rest>` yields the id `<rest>`. */
  lemma ModelIdStripsPrefix(rest: string)
    requires rest != ""
    ensures ModelId(Some("models/" + rest)) == rest
  {
    var n := "models/" + rest;
    assert HasAt(n, 0, "models/");
    assert IndexOf(n, "models/") == Some(0);
    assert n[7..] == rest;
  }

  /** One discovered model: id from the name, display name or id, vision, tools, the token limit or 1000000. */
  function ListedModel(info: ModelInfo): (m: TextModel)
    ensures m.id == ModelId(info.name) && m.providerId == "gemini"
    ensures m.name == OrElse(info.displayName, m.id)
    ensures m.description == Some(OrElse(info.description, ""))
    ensures HasVision(m) && m.capabilities.supportsTools
    ensures info.inputTokenLimit.Some? && info.inputTokenLimit.value != 0 ==>
      m.capabilities.maxContextLength == info.inputTokenLimit
    ensures info.inputTokenLimit.None? || info.inputTokenLimit.value == 0 ==>
      m.capabilities.maxContextLength == Some(1000000)
  {
    var id := ModelId(info.name);
    var context := if info.inputTokenLimit.Some? && info.inputTokenLimit.value != 0 then info.inputTokenLimit.value else 1000000;
    MakeModel(id, OrElse(info.displayName, id), Some(OrElse(info.description, "")), "gemini", true, true, context)
  }

  /**
   * `getModelsAsync`: a transport error propagates; a non-OK reply fails with
   * `HTTP <status>: <body>`; a reply without a `models` array fails; otherwise
   * the models supporting generateContent, mapped in order.
   */
  function GetModelsAsync(config: TextModelConfig, fetch: string -> Result<HttpResponse<ListBody>>): (r: Result<seq<TextModel>>)
    ensures var reply := fetch(ListUrl(config));
      (reply.Err? ==> r == Err(reply.error))
      && (reply.Ok? && !reply.value.ok ==> r == Err(HttpError(reply.value.status, reply.value.text)))
      && (reply.Ok? && reply.value.ok && reply.value.json.Err? ==> r == Err(reply.value.json.error))
      && (reply.Ok? && reply.value.ok && reply.value.json.Ok? && reply.value.json.value.models.None? ==> r == Err(FormatError))
      && (reply.Ok? && reply.value.ok && reply.value.json.Ok? && reply.value.json.value.models.Some? ==>
            r == Ok(Map(Filter(reply.value.json.value.models.value, SupportsGenerateContent), ListedModel)))
  {
    match fetch(ListUrl(config))
    case Err(e) => Err(e)
    case Ok(response) =>
      if !response.ok then Err(HttpError(response.status, response.text))
      else match response.json
        case Err(e) => Err(e)
        case Ok(body) =>
          match body.models
          case None => Err(FormatError)
          case Some(models) => Ok(Map(Filter(models, SupportsGenerateContent), ListedModel))
  }

  // ------------------------------------------------------- message conversion

  datatype GeminiRole = ModelRole | UserRole
  datatype GeminiPart = TextData(text: Option<string>) | InlineData(data: string, mimeType: string)
  datatype GeminiContent = GeminiContent(role: GeminiRole, parts: seq<GeminiPart>)

  /** 'assistant' becomes 'model'; 'system' and 'user' become 'user'. */
  function RoleFor(role: Role): (g: GeminiRole)
    ensures g == ModelRole <==> role == Assistant
  {
    if role == Assistant then ModelRole else UserRole
  }

  /** The Gemini part for one content part: text as text, an image as JPEG inline data, anything else dropped. */
  function PartFor(p: ContentPart): (r: seq<GeminiPart>)
    ensures !IsForwardedPart(p) <==> r == []
    ensures p.kind == TextKind ==> r == [TextData(p.text)]
    ensures p.kind == ImageUrlKind && p.imageUrl.Some? ==>
      r == [InlineData(ImagePayload(p.imageUrl.value), "image/jpeg")]
  {
    if p.kind == TextKind then [TextData(p.text)]
    else if p.kind == ImageUrlKind && p.imageUrl.Some? then [InlineData(ImagePayload(p.imageUrl.value), "image/jpeg")]
    else []
  }

  /** The parts the conversion loop pushes, in order. */
  function GeminiParts(parts: seq<ContentPart>): (r: seq<GeminiPart>)
    ensures |r| <= |parts|
    ensures forall i :: 0 <= i < |r| && r[i].InlineData? ==> r[i].mimeType == "image/jpeg"
  {
    if parts == [] then [] else GeminiParts(parts[..|parts| - 1]) + PartFor(parts[|parts| - 1])
  }

  /** Conversion distributes over concatenation: the parts keep their order. */
  lemma {:induction false} GeminiPartsAppend(a: seq<ContentPart>, b: seq<ContentPart>)
    ensures GeminiParts(a + b) == GeminiParts(a) + GeminiParts(b)
  {
    if b == [] {
      assert a + b == a;
    } else {
      assert (a + b)[..|a + b| - 1] == a + b[..|b| - 1];
      GeminiPartsAppend(a, b[..|b| - 1]);
    }
  }

  /** Content with no text or image part converts to no parts at all. */
  lemma {:induction false} GeminiPartsDropsOthers(parts: seq<ContentPart>)
    requires forall i :: 0 <= i < |parts| ==> !IsForwardedPart(parts[i])
    ensures GeminiParts(parts) == []
  {
    if parts != [] {
      GeminiPartsDropsOthers(parts[..|parts| - 1]);
    }
  }

  /** The `for`/`push` loop over one message's parts. */
  method ConvertParts(parts: seq<ContentPart>) returns (out: seq<GeminiPart>)
    ensures out == GeminiParts(parts)
  {
    out := [];
    var i := 0;
    while i < |parts|
      invariant 0 <= i <= |parts|
      invariant out == GeminiParts(parts[..i])
    {
      Seqs.TakeSnoc(parts, i);
      var p := parts[i];
      if p.kind == TextKind {
        out := out + [TextData(p.text)];
      } else if p.kind == ImageUrlKind && p.imageUrl.Some? {
        out := out + [InlineData(ImagePayload(p.imageUrl.value), "image/jpeg")];
      }
      i := i + 1;
    }
    Seqs.TakeAll(parts);
  }

  /** One message: a string becomes a single text part, an array goes through the loop. */
  function ContentFor(m: Message): (c: GeminiContent)
    ensures c.role == RoleFor(m.role)
    ensures m.content.Plain? ==> c.parts == [TextData(Some(m.content.text))]
    ensures m.content.Parts? ==> c.parts == GeminiParts(m.content.parts)
  {
    match m.content
    case Plain(text) => GeminiContent(RoleFor(m.role), [TextData(Some(text))])
    case Parts(parts) => GeminiContent(RoleFor(m.role), GeminiParts(parts))
  }

  /** `messages.map(...)`: one content per message, in order. */
  method ConvertMessages(messages: seq<Message>) returns (contents: seq<GeminiContent>)
    ensures |contents| == |messages|
    ensures forall i :: 0 <= i < |messages| ==> contents[i] == ContentFor(messages[i])
  {
    contents := [];
    var i := 0;
    while i < |messages|
      invariant 0 <= i <= |messages|
      invariant |contents| == i
      invariant forall j :: 0 <= j < i ==> contents[j] == ContentFor(messages[j])
    {
      var m := messages[i];
      var content: GeminiContent;
      match m.content {
        case Plain(text) =>
          content := GeminiContent(RoleFor(m.role), [TextData(Some(text))]);
        case Parts(parts) =>
          var converted := ConvertParts(parts);
          content := GeminiContent(RoleFor(m.role), converted);
      }
      contents := contents + [content];
      i := i + 1;
    }
  }

  // -------------------------------------------------------------- vendor calls

  /** A `generateContent` request: key (or ''), model id and contents. */
  datatype GenerateRequest = GenerateRequest(apiKey: string, model: string, contents: seq<GeminiContent>)

  /** `response.text()` and `usageMetadata.totalTokenCount`. */
  datatype GenerateReply = GenerateReply(text: string, totalTokenCount: Option<nat>)

  /**
   * `sendMessage`: the reply text as content, even when empty, and a usage
   * holding only the total token count; errors propagate.
   */
  method SendMessage(messages: seq<Message>, config: TextModelConfig,
                     generate: GenerateRequest -> Result<GenerateReply>) returns (r: Result<LLMResponse>)
    ensures exists contents ::
      |contents| == |messages|
      && (forall i :: 0 <= i < |messages| ==> contents[i] == ContentFor(messages[i]))
      && var reply := generate(GenerateRequest(OrElse(config.connectionConfig.apiKey, ""), config.modelMeta.id, contents));
         (reply.Err? ==> r == Err(reply.error))
         && (reply.Ok? ==> r == Ok(LLMResponse(reply.value.text, Some(Usage(None, None, reply.value.totalTokenCount)))))
  {
    var contents := ConvertMessages(messages);
    var reply := generate(GenerateRequest(OrElse(config.connectionConfig.apiKey, ""), config.modelMeta.id, contents));
    match reply {
      case Err(e) => r := Err(e);
      case Ok(answer) => r := Ok(LLMResponse(answer.text, Some(Usage(None, None, answer.totalTokenCount))));
    }
  }

  /** `sendMessageStream`: the shared loop over the chunk texts of the opened stream. */
  method SendMessageStream(messages: seq<Message>, config: TextModelConfig,
                           open: GenerateRequest -> TextStream) returns (run: StreamRun)
    ensures exists contents ::
      |contents| == |messages|
      && (forall i :: 0 <= i < |messages| ==> contents[i] == ContentFor(messages[i]))
      && var source := open(GenerateRequest(OrElse(config.connectionConfig.apiKey, ""), config.modelMeta.id, contents));
         run == ExpectedRun(source.texts, source.failure)
  {
    var contents := ConvertMessages(messages);
    var source := open(GenerateRequest(OrElse(config.connectionConfig.apiKey, ""), config.modelMeta.id, contents));
    var trace, outcome := RunStream(source.texts, source.failure);
    run := StreamRun(trace, outcome);
  }
}
