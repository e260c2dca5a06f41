/**
 * The LLM service: validates the model key, loads the stored configuration,
 * and dispatches to the adapter registered for the configuration's provider.
 *
 * The model manager is the lookup `getModel`; the adapters' vendor calls are
 * the oracles `send` (one structured response) and `stream` (the handler
 * calls of one streaming run).
 */
module LlmService {
  import opened Base
  import opened LlmTypes
  import opened Registry
  import opened Stream

  const EmptyProvider := "模型提供商不能为空"

  /**
   * The validation both entry points run: an empty key fails before any lookup;
   * a key without stored config fails next; then the adapter of the config's
   * provider is looked up.
   */
  function ResolveAdapter(modelKey: string, getModel: string -> Option<TextModelConfig>,
                          registry: TextAdapterRegistry): (r: Result<(Adapter, TextModelConfig)>)
    reads registry
    ensures modelKey == "" ==> r == Err(EmptyProvider)
    ensures modelKey != "" && getModel(modelKey).None? ==> r == Err(ModelMissing(modelKey))
    ensures modelKey != "" && getModel(modelKey).Some? ==>
      var config := getModel(modelKey).value;
      r == (if config.providerMeta.id in registry.adapters
            then Ok((registry.adapters[config.providerMeta.id], config))
            else Err(NotFound(config.providerMeta.id)))
  {
    if modelKey == "" then Err(EmptyProvider)
    else match getModel(modelKey)
      case None => Err(ModelMissing(modelKey))
      case Some(config) =>
        match registry.GetAdapter(config.providerMeta.id)
        case Err(e) => Err(e)
        case Ok(adapter) => Ok((adapter, config))
  }

  /** `sendMessageStructured`: the adapter's response, unchanged, for the stored config. */
  function SendMessageStructured(messages: seq<Message>, modelKey: string,
                                 getModel: string -> Option<TextModelConfig>, registry: TextAdapterRegistry,
                                 send: (Adapter, seq<Message>, TextModelConfig) -> Result<LLMResponse>): (r: Result<LLMResponse>)
    reads registry
    ensures modelKey == "" ==> r == Err(EmptyProvider)
    ensures modelKey != "" && getModel(modelKey).None? ==> r == Err(ModelMissing(modelKey))
    ensures modelKey != "" && getModel(modelKey).Some? ==>
      var config := getModel(modelKey).value;
      var id := config.providerMeta.id;
      (id !in registry.adapters ==> r == Err(NotFound(id)))
      && (id in registry.adapters ==> r == send(registry.adapters[id], messages, config))
  {
    match ResolveAdapter(modelKey, getModel, registry)
    case Err(e) => Err(e)
    case Ok((adapter, config)) => send(adapter, messages, config)
  }

  /** `sendMessage`: the `content` of the structured response, or its error. */
  function SendMessage(messages: seq<Message>, modelKey: string,
                       getModel: string -> Option<TextModelConfig>, registry: TextAdapterRegistry,
                       send: (Adapter, seq<Message>, TextModelConfig) -> Result<LLMResponse>): (r: Result<string>)
    reads registry
    ensures var s := SendMessageStructured(messages, modelKey, getModel, registry, send);
      (r.Ok? <==> s.Ok?)
      && (r.Ok? ==> r.value == s.value.content)
      && (r.Err? ==> r.error == s.error)
  {
    match SendMessageStructured(messages, modelKey, getModel, registry, send)
    case Err(e) => Err(e)
    case Ok(response) => Ok(response.content)
  }

  /**
   * `sendMessageStream`: a validation failure raises before the adapter runs,
   * so no handler fires; otherwise the adapter's run is the result, once.
   */
  function SendMessageStream(messages: seq<Message>, modelKey: string,
                             getModel: string -> Option<TextModelConfig>, registry: TextAdapterRegistry,
                             stream: (Adapter, seq<Message>, TextModelConfig) -> StreamRun): (r: StreamRun)
    reads registry
    ensures modelKey == "" ==> r == StreamRun([], Err(EmptyProvider))
    ensures modelKey != "" && getModel(modelKey).None? ==> r == StreamRun([], Err(ModelMissing(modelKey)))
    ensures modelKey != "" && getModel(modelKey).Some? ==>
      var config := getModel(modelKey).value;
      var id := config.providerMeta.id;
      (id !in registry.adapters ==> r == StreamRun([], Err(NotFound(id))))
      && (id in registry.adapters ==> r == stream(registry.adapters[id], messages, config))
  {
    match ResolveAdapter(modelKey, getModel, registry)
    case Err(e) => StreamRun([], Err(e))
    case Ok((adapter, config)) => stream(adapter, messages, config)
  }

  /** Both entry points reject a request for the same reason, with the same message, before any adapter call. */
  lemma EntryPointsValidateAlike(messages: seq<Message>, modelKey: string,
                                 getModel: string -> Option<TextModelConfig>, registry: TextAdapterRegistry,
                                 send: (Adapter, seq<Message>, TextModelConfig) -> Result<LLMResponse>,
                                 stream: (Adapter, seq<Message>, TextModelConfig) -> StreamRun)
    requires ResolveAdapter(modelKey, getModel, registry).Err?
    ensures SendMessageStructured(messages, modelKey, getModel, registry, send)
         == Err(ResolveAdapter(modelKey, getModel, registry).error)
    ensures SendMessageStream(messages, modelKey, getModel, registry, stream)
         == StreamRun([], Err(ResolveAdapter(modelKey, getModel, registry).error))
  {
  }
}
