/**
 * The web layer's model service: lists the registered providers in a fixed
 * order, and wraps model discovery and connection tests in response
 * envelopes with a status code instead of errors.
 */
module ModelService {
  import opened Base
  import opened LlmTypes
  import opened Registry
  import Seqs

  /** The provider ids the web layer knows, in display order. */
  const KnownProviderIds := ["openai", "gemini", "anthropic", "deepseek", "siliconflow", "zhipu", "ollama"]

  /** The provider part of a discovery or connection-test request. */
  datatype ConnectionRequest = ConnectionRequest(provider: string, apiKey: string, baseUrl: Option<string>)

  datatype ModelEntry = ModelEntry(id: string, name: string, provider: string, supportsVision: bool)

  datatype ModelListResponse = ModelListResponse(code: int, data: seq<ModelEntry>, msg: Option<string>)

  datatype ConnectionResponse = ConnectionResponse(code: int, msg: string)

  function UnknownProvider(providerId: string): string {
    "提供商 " + providerId + " 不存在"
  }

  /** The providers registered under the given ids, in the ids' order. */
  function ProvidersOf(ids: seq<string>, adapters: map<string, Adapter>): seq<TextProvider> {
    if ids == [] then []
    else
      var last := ids[|ids| - 1];
      ProvidersOf(ids[..|ids| - 1], adapters) + (if last in adapters then [adapters[last].provider] else [])
  }

  /** Every adapter sits under its own provider's id, as `register` puts it. */
  ghost predicate KeyedByProvider(adapters: map<string, Adapter>) {
    forall id :: id in adapters ==> adapters[id].provider.id == id
  }

  /**
   * The providers of the registered ids among `ids`, in the order of `ids`:
   * their ids are exactly the registered ids, filtered in order, so ids that
   * occur once in `ids` give no duplicate.
   */
  lemma {:induction false} ProvidersInOrder(ids: seq<string>, adapters: map<string, Adapter>)
    requires KeyedByProvider(adapters)
    ensures |ProvidersOf(ids, adapters)| <= |ids|
    ensures forall p :: p in ProvidersOf(ids, adapters) ==> p.id in ids && p.id in adapters && adapters[p.id].provider == p
    ensures Seqs.Map(ProvidersOf(ids, adapters), (p: TextProvider) => p.id)
         == Seqs.Filter(ids, (id: string) => id in adapters)
  {
    if ids != [] {
      var init := ids[..|ids| - 1];
      var last := ids[|ids| - 1];
      ProvidersInOrder(init, adapters);
      Seqs.SplitLast(ids);
      Seqs.FilterSnoc(init, last, (id: string) => id in adapters);
    }
  }

  /** The temporary model a discovery or test request is made with. */
  function TempModel(providerId: string): TextModel {
    TextModel("temp-model", "temp", Some("temp"), providerId, Capabilities(false, None, None, None))
  }

  /** The temporary configuration: the key always, the base URL only when non-empty. */
  function TempConfig(provider: TextProvider, request: ConnectionRequest): (c: TextModelConfig)
    ensures c.connectionConfig.apiKey == Some(request.apiKey)
    ensures Truthy(request.baseUrl) ==> c.connectionConfig.baseURL == request.baseUrl
    ensures !Truthy(request.baseUrl) ==> c.connectionConfig.baseURL == None
    ensures c.providerMeta == provider && c.enabled
  {
    TextModelConfig("temp", "temp", true, provider, TempModel(request.provider),
                    ConnectionConfig(Some(request.apiKey), if Truthy(request.baseUrl) then request.baseUrl else None),
                    None)
  }

  /** What a discovered model is listed as. */
  function EntryOf(m: TextModel, providerId: string): ModelEntry {
    ModelEntry(m.id, m.name, providerId, m.capabilities.supportsVision == Some(true))
  }

  class ModelService {
    const registry: TextAdapterRegistry

    constructor(registry: TextAdapterRegistry)
      ensures this.registry == registry
    {
      this.registry := registry;
    }

    /** `getProviders`: the registered providers among the known ids, in that order. */
    method GetProviders() returns (providers: seq<TextProvider>)
      ensures providers == ProvidersOf(KnownProviderIds, registry.adapters)
    {
      providers := [];
      var ids := KnownProviderIds;
      var i := 0;
      while i < |ids|
        invariant 0 <= i <= |ids|
        invariant providers == ProvidersOf(ids[..i], registry.adapters)
      {
        Seqs.TakeSnoc(ids, i);
        var provider := registry.GetProvider(ids[i]);
        if provider.Some? {
          providers := providers + [provider.value];
        }
        i := i + 1;
      }
      Seqs.TakeAll(ids);
    }

    /**
     * `getModelList`: 400 for an unknown provider; otherwise discovery with
     * the temporary configuration, giving 200 and one entry per model in
     * order, or 500 with the error message (or a default) when it fails.
     */
    function GetModelList(request: ConnectionRequest,
                          discover: (Adapter, TextModelConfig) -> Result<seq<TextModel>>): (r: ModelListResponse)
      reads this, registry
      ensures registry.GetProvider(request.provider).None? ==>
        r == ModelListResponse(400, [], Some(UnknownProvider(request.provider)))
      ensures registry.GetProvider(request.provider).Some? ==>
        var outcome := registry.GetModels(request.provider,
                                          Some(TempConfig(registry.GetProvider(request.provider).value, request)), discover);
        && (outcome.Ok? ==> r.code == 200 && r.msg == None && |r.data| == |outcome.value|)
        && (outcome.Ok? ==> forall i :: 0 <= i < |r.data| ==> r.data[i] == EntryOf(outcome.value[i], request.provider))
        && (outcome.Err? ==> r == ModelListResponse(500, [], Some(if outcome.error != "" then outcome.error else "获取模型列表失败")))
    {
      match registry.GetProvider(request.provider)
      case None => ModelListResponse(400, [], Some(UnknownProvider(request.provider)))
      case Some(provider) =>
        match registry.GetModels(request.provider, Some(TempConfig(provider, request)), discover)
        case Ok(models) =>
          ModelListResponse(200, Seqs.Map(models, (m: TextModel) => EntryOf(m, request.provider)), None)
        case Err(e) =>
          ModelListResponse(500, [], Some(if e != "" then e else "获取模型列表失败"))
    }

    /** `testModelConnection`: the same path as `getModelList`, reporting only success or the error. */
    function TestModelConnection(request: ConnectionRequest,
                                 discover: (Adapter, TextModelConfig) -> Result<seq<TextModel>>): (r: ConnectionResponse)
      reads this, registry
      ensures registry.GetProvider(request.provider).None? ==>
        r == ConnectionResponse(400, UnknownProvider(request.provider))
      ensures registry.GetProvider(request.provider).Some? ==>
        var outcome := registry.GetModels(request.provider,
                                          Some(TempConfig(registry.GetProvider(request.provider).value, request)), discover);
        && (outcome.Ok? ==> r == ConnectionResponse(200, "连接成功"))
        && (outcome.Err? ==> r == ConnectionResponse(500, if outcome.error != "" then outcome.error else "连接失败"))
    {
      match registry.GetProvider(request.provider)
      case None => ConnectionResponse(400, UnknownProvider(request.provider))
      case Some(provider) =>
        match registry.GetModels(request.provider, Some(TempConfig(provider, request)), discover)
        case Ok(_) => ConnectionResponse(200, "连接成功")
        case Err(e) => ConnectionResponse(500, if e != "" then e else "连接失败")
    }
  }

  /**
   * A connection test succeeds exactly when listing succeeds, with the same
   * code; for a registered provider that does not discover models, both
   * succeed and the list is empty.
   */
  lemma TestAgreesWithList(service: ModelService, request: ConnectionRequest,
                           discover: (Adapter, TextModelConfig) -> Result<seq<TextModel>>)
    ensures service.TestModelConnection(request, discover).code == service.GetModelList(request, discover).code
    ensures request.provider in service.registry.adapters
            && !(service.registry.adapters[request.provider].provider.supportsDynamicModels
                 && service.registry.adapters[request.provider].hasModelsAsync) ==>
      service.GetModelList(request, discover) == ModelListResponse(200, [], None)
      && service.TestModelConnection(request, discover) == ConnectionResponse(200, "连接成功")
  {
  }
}
