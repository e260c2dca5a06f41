/**
 * The adapter registry: a table from provider id to adapter, filled by
 * `register` and read by the lookups the service layer uses.
 */
module Registry {
  import opened Base
  import opened LlmTypes

  /**
   * What the registry sees of an adapter: its provider descriptor, its static
   * model list, and whether it implements the optional `getModelsAsync`.
   */
  datatype Adapter = Adapter(provider: TextProvider, staticModels: seq<TextModel>, hasModelsAsync: bool)

  function NotFound(providerId: string): string {
    "Provider adapter not found: " + providerId
  }

  /** `getModels` calls the adapter's discovery only for a dynamic provider with a config and a `getModelsAsync`. */
  predicate AttemptsDiscovery(a: Adapter, config: Option<TextModelConfig>) {
    a.provider.supportsDynamicModels && config.Some? && a.hasModelsAsync
  }

  class TextAdapterRegistry {
    var adapters: map<string, Adapter>

    constructor()
      ensures adapters == map[]
    {
      adapters := map[];
    }

    /** Stores the adapter under its provider id, replacing any earlier adapter for that id. */
    method Register(adapter: Adapter)
      modifies this
      ensures adapters == old(adapters)[adapter.provider.id := adapter]
      ensures GetAdapter(adapter.provider.id) == Ok(adapter)
      ensures forall id :: id != adapter.provider.id ==> GetAdapter(id) == old(GetAdapter(id))
    {
      adapters := adapters[adapter.provider.id := adapter];
    }

    /** The registered adapter, or the not-found error. */
    function GetAdapter(providerId: string): (r: Result<Adapter>)
      reads this
      ensures r.Ok? <==> providerId in adapters
      ensures r.Ok? ==> r.value == adapters[providerId]
      ensures r.Err? ==> r.error == NotFound(providerId)
    {
      if providerId in adapters then Ok(adapters[providerId]) else Err(NotFound(providerId))
    }

    /** The adapter's provider descriptor; absent (never an error) for an unknown id. */
    function GetProvider(providerId: string): (r: Option<TextProvider>)
      reads this
      ensures r.Some? <==> providerId in adapters
      ensures r.Some? ==> r.value == adapters[providerId].provider
    {
      if providerId in adapters then Some(adapters[providerId].provider) else None
    }

    /** The adapter's static list; `[]` for an unknown id. */
    function GetStaticModels(providerId: string): (r: seq<TextModel>)
      reads this
      ensures providerId in adapters ==> r == adapters[providerId].staticModels
      ensures providerId !in adapters ==> r == []
    {
      if providerId in adapters then adapters[providerId].staticModels else []
    }

    /**
     * Discovery through the adapter: fails for an unknown id (it goes through
     * `GetAdapter`), yields `[]` when discovery is not attempted, and otherwise
     * yields exactly what `discover` yields, errors included.
     */
    function GetModels(providerId: string, config: Option<TextModelConfig>,
                       discover: (Adapter, TextModelConfig) -> Result<seq<TextModel>>): (r: Result<seq<TextModel>>)
      reads this
      ensures providerId !in adapters ==> r == Err(NotFound(providerId))
      ensures providerId in adapters && !AttemptsDiscovery(adapters[providerId], config) ==> r == Ok([])
      ensures providerId in adapters && AttemptsDiscovery(adapters[providerId], config) ==>
        r == discover(adapters[providerId], config.value)
    {
      match GetAdapter(providerId)
      case Err(e) => Err(e)
      case Ok(adapter) =>
        if AttemptsDiscovery(adapter, config) then discover(adapter, config.value) else Ok([])
    }
  }

  /**
   * The four lookups agree: an id has an adapter exactly when it has a
   * provider; an unknown id fails `GetAdapter` and `GetModels` but gives no
   * provider and an empty static list.
   */
  lemma LookupsAgree(registry: TextAdapterRegistry, providerId: string, config: Option<TextModelConfig>,
                     discover: (Adapter, TextModelConfig) -> Result<seq<TextModel>>)
    ensures registry.GetAdapter(providerId).Ok? <==> registry.GetProvider(providerId).Some?
    ensures registry.GetAdapter(providerId).Ok? ==>
      registry.GetProvider(providerId).value == registry.GetAdapter(providerId).value.provider
      && registry.GetStaticModels(providerId) == registry.GetAdapter(providerId).value.staticModels
    ensures registry.GetAdapter(providerId).Err? ==>
      registry.GetStaticModels(providerId) == []
      && registry.GetModels(providerId, config, discover) == Err(NotFound(providerId))
  {
  }

  /** A registry with two registrations under one provider id keeps only the later adapter. */
  method RegisterTwice(a: Adapter, b: Adapter) returns (found: Result<Adapter>)
    requires a.provider.id == b.provider.id
    ensures found == Ok(b)
  {
    var registry := new TextAdapterRegistry();
    registry.Register(a);
    registry.Register(b);
    found := registry.GetAdapter(a.provider.id);
  }
}
