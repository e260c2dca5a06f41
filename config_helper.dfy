/** Building a stored model configuration from a provider and one of its models. */
module ConfigHelper {
  import opened Base
  import opened LlmTypes

  /** The optional fields a caller may give: a display name, an enabled flag and sampling parameters. */
  datatype ConfigOptions = ConfigOptions(name: Option<string>, enabled: Option<bool>, llmParams: Option<LlmParams>)

  /**
   * `createModelConfig`: the id joins the provider and model ids with a dash;
   * the name is the given one when it is non-empty, else the provider and
   * model names joined by a space; the configuration is enabled unless the
   * flag is given as `false`; everything else is passed through.
   */
  function CreateModelConfig(provider: TextProvider, model: TextModel, connection: ConnectionConfig,
                             options: Option<ConfigOptions>): (r: TextModelConfig)
    ensures r.id == provider.id + "-" + model.id
    ensures options.Some? && Truthy(options.value.name) ==> r.name == options.value.name.value
    ensures !(options.Some? && Truthy(options.value.name)) ==> r.name == provider.name + " " + model.name
    ensures r.enabled <==> !(options.Some? && options.value.enabled == Some(false))
    ensures r.providerMeta == provider && r.modelMeta == model && r.connectionConfig == connection
    ensures r.llmParams == if options.Some? then options.value.llmParams else None
  {
    var name := if options.Some? then options.value.name else None;
    TextModelConfig(
      provider.id + "-" + model.id,
      OrElse(name, provider.name + " " + model.name),
      !(options.Some? && options.value.enabled == Some(false)),
      provider, model, connection,
      if options.Some? then options.value.llmParams else None)
  }

  /**
   * A configuration built from a provider and model is found by the joined
   * id, and keeps the model's vision capability, which the image service
   * checks before anything else.
   */
  lemma CreatedConfigKeepsModel(provider: TextProvider, model: TextModel, connection: ConnectionConfig,
                                options: Option<ConfigOptions>)
    ensures StartsWith(CreateModelConfig(provider, model, connection, options).id, provider.id + "-")
    ensures HasVision(CreateModelConfig(provider, model, connection, options).modelMeta) <==> HasVision(model)
    ensures options.None? ==> CreateModelConfig(provider, model, connection, options).enabled
  {
    var id := CreateModelConfig(provider, model, connection, options).id;
    assert id[..|provider.id + "-"|] == provider.id + "-";
  }

  /**
   * `createDefaultModelConfigs`: whatever key the environment holds, no
   * configuration is built yet.
   */
  function CreateDefaultModelConfigs(openaiApiKey: Option<string>): (r: seq<TextModelConfig>)
    ensures r == []
  {
    []
  }
}
