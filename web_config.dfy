/**
 * The model configurations the web front end keeps in browser storage
 * under `modelConfigs`, as its readers see them: one value per provider id,
 * holding a list of configuration instances (several keys or base URLs for
 * one vendor) or, in the older format, a single instance's fields directly.
 * Also the flattening of that record into the (provider, instance, model id)
 * entries that the model pickers list.
 */
module WebConfig {
  import opened Base
  import opened Keyed
  import Seqs

  /** The storage key of the configuration record. */
  const ConfigsKey := "modelConfigs"

  /** The storage key of the selected option id. */
  const SelectedKey := "selectedModel"

  /** The name of the instance that an older-format record becomes. */
  const DefaultInstanceName := "默认配置"

  /**
   * A configuration instance. An empty string also stands for an absent
   * field, because every reader treats the two alike. A capability record
   * is represented by its `supportsVision` flag, and an absent capability
   * table by an empty one.
   */
  datatype Instance = Instance(
    id: string,
    name: string,
    apiKey: string,
    baseUrl: string,
    model: string,
    models: seq<string>,
    modelCapabilities: map<string, bool>)

  /**
   * One provider's stored value. It is either an object or not an object
   * at all. An object either carries an `instances` array or, in the older
   * format, lacks it. `instances` and `models` are optional because an
   * empty array still counts as present.
   */
  datatype StoredProvider =
    | NotAnObject
    | ProviderRecord(
        instances: Option<seq<Instance>>,
        defaultInstanceId: string,
        apiKey: string,
        baseUrl: string,
        model: string,
        models: Option<seq<string>>,
        modelCapabilities: map<string, bool>)

  /** The decoded configuration record, in key order. */
  type StoredConfigs = Dict<StoredProvider>

  /** The display labels of the seven known providers. */
  const ProviderLabels: map<string, string> := map[
    "openai" := "OpenAI", "gemini" := "Gemini", "deepseek" := "DeepSeek", "anthropic" := "Anthropic",
    "siliconflow" := "SiliconFlow", "zhipu" := "Zhipu", "ollama" := "Ollama"]

  /** `getProviderDisplayName`, and `PROVIDER_LABELS[id] || id` elsewhere: the label, else the id itself. */
  function ProviderLabel(providerId: string): string {
    if providerId in ProviderLabels then ProviderLabels[providerId] else providerId
  }

  /** An older-format record that names a key, a base URL, a model list or a model. */
  predicate IsLegacyRecord(config: StoredProvider) {
    config.ProviderRecord? && config.instances.None?
    && (config.apiKey != "" || config.baseUrl != "" || config.models.Some? || config.model != "")
  }

  /**
   * The one instance that an older-format record stands for. Its id is
   * `default`, its name is the default-instance name, and it carries the
   * record's model list, else the record's model alone.
   */
  function LegacyInstance(config: StoredProvider): (r: Instance)
    requires config.ProviderRecord?
    ensures r.id == "default" && r.name == DefaultInstanceName && r.model == ""
    ensures r.apiKey == config.apiKey && r.baseUrl == config.baseUrl
    ensures r.modelCapabilities == config.modelCapabilities
    ensures config.models.Some? ==> r.models == config.models.value
    ensures config.models.None? && config.model != "" ==> r.models == [config.model]
    ensures config.models.None? && config.model == "" ==> r.models == []
  {
    Instance("default", DefaultInstanceName, config.apiKey, config.baseUrl, "",
             if config.models.Some? then config.models.value else if config.model != "" then [config.model] else [],
             config.modelCapabilities)
  }

  /**
   * The instances a reader goes through for one stored value: the stored
   * array when present (even an empty one), else the single legacy
   * instance, else none.
   */
  function ListedInstances(config: StoredProvider): (r: seq<Instance>)
    ensures config.NotAnObject? ==> r == []
    ensures config.ProviderRecord? && config.instances.Some? ==> r == config.instances.value
    ensures IsLegacyRecord(config) ==> r == [LegacyInstance(config)]
    ensures config.ProviderRecord? && config.instances.None? && !IsLegacyRecord(config) ==> r == []
  {
    match config
    case NotAnObject => []
    case ProviderRecord(instances, _, _, _, _, _, _) =>
      if instances.Some? then instances.value
      else if IsLegacyRecord(config) then [LegacyInstance(config)]
      else []
  }

  /**
   * The model ids of an instance. They are its model list when that list
   * is non-empty. Otherwise they are its trimmed model when that is not
   * blank, and otherwise there are none.
   */
  function ModelIdsOf(instance: Instance): (r: seq<string>)
    ensures instance.models != [] ==> r == instance.models
    ensures instance.models == [] && !IsBlank(instance.model) ==> r == [Trim(instance.model)]
    ensures instance.models == [] && IsBlank(instance.model) ==> r == []
  {
    if instance.models != [] then instance.models
    else if Trim(instance.model) != "" then [Trim(instance.model)]
    else []
  }

  /** The key is absent, empty, or not blank: a key made only of spaces disqualifies the instance. */
  predicate HasUsableKey(instance: Instance) {
    instance.apiKey == "" || !IsBlank(instance.apiKey)
  }

  /** An instance is listed when it has at least one model id and a usable key. */
  predicate IsListed(instance: Instance) {
    ModelIdsOf(instance) != [] && HasUsableKey(instance)
  }

  /** The instance name goes in front of a display name unless it is empty or one of the two default names. */
  function ShownName(instance: Instance, name: string): (r: string)
    ensures instance.name != "" && instance.name != DefaultInstanceName && instance.name != "default" ==>
      r == instance.name + " - " + name
    ensures instance.name == "" || instance.name == DefaultInstanceName || instance.name == "default" ==> r == name
  {
    if instance.name != "" && instance.name != DefaultInstanceName && instance.name != "default"
    then instance.name + " - " + name
    else name
  }

  /**
   * The id a trimmed model id is stored and listed under. An id that
   * already starts with `<provider>-`, or contains a `/` or a `:`, is kept.
   * Any other id gets the `<provider>-` prefix.
   */
  function StoreId(providerId: string, trimmed: string): (r: string)
    ensures r == trimmed || r == providerId + "-" + trimmed
    ensures StartsWith(trimmed, providerId + "-") || '/' in trimmed || ':' in trimmed ==> r == trimmed
    ensures !(StartsWith(trimmed, providerId + "-") || '/' in trimmed || ':' in trimmed) ==>
      r == providerId + "-" + trimmed
  {
    if StartsWith(trimmed, providerId + "-") || '/' in trimmed || ':' in trimmed then trimmed
    else providerId + "-" + trimmed
  }

  /**
   * Applying the store-id rule to an id it produced changes nothing. A
   * stored id therefore always either carries the provider prefix or
   * contains a `/` or a `:`.
   */
  lemma StoreIdIdempotent(providerId: string, trimmed: string)
    ensures StoreId(providerId, StoreId(providerId, trimmed)) == StoreId(providerId, trimmed)
    ensures var r := StoreId(providerId, trimmed); StartsWith(r, providerId + "-") || '/' in r || ':' in r
  {
    var r := StoreId(providerId, trimmed);
    if r != trimmed {
      assert r[..|providerId + "-"|] == providerId + "-";
    }
  }

  /** One model id of one listed instance of one provider. */
  datatype Entry = Entry(provider: string, instance: Instance, modelId: string)

  /** The entries of the non-blank ids among `ids`, in order. */
  function IdEntries(providerId: string, instance: Instance, ids: seq<string>): seq<Entry> {
    if ids == [] then []
    else
      var last := ids[|ids| - 1];
      IdEntries(providerId, instance, ids[..|ids| - 1])
      + (if Trim(last) != "" then [Entry(providerId, instance, last)] else [])
  }

  /** The entries of the listed instances among `instances`, in order. */
  function InstanceEntries(providerId: string, instances: seq<Instance>): seq<Entry> {
    if instances == [] then []
    else
      var last := instances[|instances| - 1];
      InstanceEntries(providerId, instances[..|instances| - 1])
      + (if IsListed(last) then IdEntries(providerId, last, ModelIdsOf(last)) else [])
  }

  /**
   * The entries of a whole configuration record, in key order. `instancesOf`
   * says which instances a reader takes from each provider's value.
   */
  function Entries(configs: StoredConfigs, instancesOf: StoredProvider -> seq<Instance>): seq<Entry> {
    if configs == [] then []
    else
      var (providerId, config) := configs[|configs| - 1];
      Entries(configs[..|configs| - 1], instancesOf) + InstanceEntries(providerId, instancesOf(config))
  }

  /** One more model id. */
  lemma IdEntriesSnoc(providerId: string, instance: Instance, ids: seq<string>, j: nat)
    requires j < |ids|
    ensures IdEntries(providerId, instance, ids[..j + 1])
         == IdEntries(providerId, instance, ids[..j])
            + (if Trim(ids[j]) != "" then [Entry(providerId, instance, ids[j])] else [])
  {
    Seqs.TakeSnoc(ids, j);
  }

  /** One more instance. */
  lemma InstanceEntriesSnoc(providerId: string, instances: seq<Instance>, k: nat)
    requires k < |instances|
    ensures InstanceEntries(providerId, instances[..k + 1])
         == InstanceEntries(providerId, instances[..k])
            + (if IsListed(instances[k]) then IdEntries(providerId, instances[k], ModelIdsOf(instances[k])) else [])
  {
    Seqs.TakeSnoc(instances, k);
  }

  /** One more provider. */
  lemma EntriesSnoc(configs: StoredConfigs, instancesOf: StoredProvider -> seq<Instance>, i: nat)
    requires i < |configs|
    ensures Entries(configs[..i + 1], instancesOf)
         == Entries(configs[..i], instancesOf) + InstanceEntries(configs[i].0, instancesOf(configs[i].1))
  {
    Seqs.TakeSnoc(configs, i);
  }

  function NonBlank(s: string): bool {
    Trim(s) != ""
  }

  /** Pairs a model id with a provider and an instance. */
  function EntryFor(providerId: string, instance: Instance): string -> Entry {
    (m: string) => Entry(providerId, instance, m)
  }

  /** The id loop as a filter and a map: the non-blank ids, in their order, each paired with its provider and instance. */
  lemma {:induction false} IdEntriesAreNonBlankIds(providerId: string, instance: Instance, ids: seq<string>)
    ensures IdEntries(providerId, instance, ids) == Seqs.Map(Seqs.Filter(ids, NonBlank), EntryFor(providerId, instance))
  {
    var f := EntryFor(providerId, instance);
    if ids != [] {
      var init, last := ids[..|ids| - 1], ids[|ids| - 1];
      IdEntriesAreNonBlankIds(providerId, instance, init);
      Seqs.SplitLast(ids);
      Seqs.MapFilterSnoc(init, last, NonBlank, f);
      assert f(last) == Entry(providerId, instance, last);
      assert IdEntries(providerId, instance, ids)
          == IdEntries(providerId, instance, init) + (if NonBlank(last) then [f(last)] else []);
    }
  }

  /** Every entry of an instance's ids belongs to that instance and has a non-blank id taken from `ids`. */
  lemma {:induction false} IdEntriesListed(providerId: string, instance: Instance, ids: seq<string>)
    ensures forall e :: e in IdEntries(providerId, instance, ids) ==>
      e.provider == providerId && e.instance == instance && e.modelId in ids && !IsBlank(e.modelId)
  {
    if ids != [] {
      IdEntriesListed(providerId, instance, ids[..|ids| - 1]);
    }
  }

  /**
   * Every entry of a provider's instances comes from one of them that is
   * listed: it has a model id and a usable key. The entry's id is one of
   * that instance's model ids and is not blank.
   */
  lemma {:induction false} InstanceEntriesListed(providerId: string, instances: seq<Instance>)
    ensures forall e :: e in InstanceEntries(providerId, instances) ==>
      e.provider == providerId && e.instance in instances && IsListed(e.instance)
      && e.modelId in ModelIdsOf(e.instance) && !IsBlank(e.modelId)
  {
    if instances != [] {
      var last := instances[|instances| - 1];
      InstanceEntriesListed(providerId, instances[..|instances| - 1]);
      IdEntriesListed(providerId, last, ModelIdsOf(last));
    }
  }

  /**
   * Every entry of a record comes from a provider key of the record and from
   * one of the instances the reader takes from that key's value. That
   * instance is listed, and the entry's id is one of its non-blank model ids.
   */
  lemma {:induction false} EntriesListed(configs: StoredConfigs, instancesOf: StoredProvider -> seq<Instance>)
    ensures forall e :: e in Entries(configs, instancesOf) ==>
      IsListed(e.instance) && e.modelId in ModelIdsOf(e.instance) && !IsBlank(e.modelId)
      && (exists i :: 0 <= i < |configs| && configs[i].0 == e.provider && e.instance in instancesOf(configs[i].1))
  {
    if configs != [] {
      var init := configs[..|configs| - 1];
      var (providerId, config) := configs[|configs| - 1];
      EntriesListed(init, instancesOf);
      InstanceEntriesListed(providerId, instancesOf(config));
      forall e | e in Entries(configs, instancesOf)
        ensures exists i :: 0 <= i < |configs| && configs[i].0 == e.provider && e.instance in instancesOf(configs[i].1)
      {
        if e in Entries(init, instancesOf) {
          var i :| 0 <= i < |init| && init[i].0 == e.provider && e.instance in instancesOf(init[i].1);
          assert configs[i] == init[i];
        } else {
          assert configs[|configs| - 1].0 == e.provider;
        }
      }
    }
  }
}
