/**
 * The shared model picker. It lists every model of the configuration
 * record's top-level provider fields (it does not read the instance list),
 * optionally only the vision-capable ones, sorted by provider label and
 * name, and restores or picks the selection.
 */
module ModelSelector {
  import opened Base
  import opened Storage
  import opened WebConfig
  import opened OptionOrder
  import Seqs

  /** Guesses vision support from the lower-cased model id, by provider, then for every provider. */
  function InferVisionSupport(providerId: string, modelId: string): (r: bool)
    ensures Contains(ToLower(modelId), "vision") || Contains(ToLower(modelId), "visual") ==> r
    ensures providerId !in {"gemini", "openai", "anthropic", "ollama", "zhipu"} ==>
      (r <==> Contains(ToLower(modelId), "vision") || Contains(ToLower(modelId), "visual"))
  {
    var lower := ToLower(modelId);
    if providerId == "gemini" && (Contains(lower, "flash") || Contains(lower, "2.5") || Contains(lower, "pro")) then true
    else if providerId == "openai" && (Contains(lower, "vision") || Contains(lower, "4") || Contains(lower, "gpt-4")) then true
    else if providerId == "anthropic"
            && (Contains(lower, "claude") || Contains(lower, "sonnet") || Contains(lower, "haiku") || Contains(lower, "opus"))
    then true
    else if providerId == "ollama"
            && (Contains(lower, "vision") || Contains(lower, "llava") || Contains(lower, "qwen2.5-vision")
                || Contains(lower, "llama3.2-vision"))
    then true
    else if providerId == "zhipu" && Contains(lower, "glm-4") && !Contains(lower, "air") then true
    else Contains(lower, "vision") || Contains(lower, "visual")
  }

  /** A lower-case id without any `v` is not guessed to see, for a provider with no rule of its own. */
  lemma NoVisionWithoutV(providerId: string, modelId: string)
    requires providerId !in {"gemini", "openai", "anthropic", "ollama", "zhipu"}
    requires 'v' !in ToLower(modelId)
    ensures !InferVisionSupport(providerId, modelId)
  {
    NotContainsChar(ToLower(modelId), "vision", 0);
    NotContainsChar(ToLower(modelId), "visual", 0);
  }

  /** A Zhipu id with `glm-4` and without `air` is guessed to see. */
  lemma ZhipuGlm4Sees(modelId: string)
    requires Contains(ToLower(modelId), "glm-4") && !Contains(ToLower(modelId), "air")
    ensures InferVisionSupport("zhipu", modelId)
  {
  }

  /** `<provider>-` removed once, when present. */
  function WithoutDashPrefix(providerId: string, modelId: string): (r: string)
    ensures StartsWith(modelId, providerId + "-") ==> modelId == providerId + "-" + r
    ensures !StartsWith(modelId, providerId + "-") ==> r == modelId
  {
    if StartsWith(modelId, providerId + "-") then
      var r := modelId[|providerId| + 1..];
      assert modelId == modelId[..|providerId| + 1] + r;
      r
    else modelId
  }

  /**
   * `getModelCapabilities`: the saved record under the id, else under the
   * id without its `<provider>-` prefix, else under `<provider>-<id>`; a
   * guess from the id when there is none.
   */
  function ModelSupportsVision(providerId: string, modelId: string, caps: map<string, bool>): (r: bool)
    ensures modelId in caps ==> r == caps[modelId]
    ensures modelId !in caps && WithoutDashPrefix(providerId, modelId) in caps ==>
      r == caps[WithoutDashPrefix(providerId, modelId)]
    ensures (modelId !in caps && WithoutDashPrefix(providerId, modelId) !in caps && providerId + "-" + modelId in caps) ==>
      r == caps[providerId + "-" + modelId]
    ensures (modelId !in caps && WithoutDashPrefix(providerId, modelId) !in caps && providerId + "-" + modelId !in caps) ==>
      r == InferVisionSupport(providerId, modelId)
  {
    var withoutPrefix := WithoutDashPrefix(providerId, modelId);
    if modelId in caps then caps[modelId]
    else if withoutPrefix in caps then caps[withoutPrefix]
    else if providerId + "-" + modelId in caps then caps[providerId + "-" + modelId]
    else InferVisionSupport(providerId, modelId)
  }

  /** A saved "no" is kept even for an id whose name suggests vision. */
  lemma SavedNoWins(providerId: string, modelId: string, caps: map<string, bool>)
    requires modelId in caps && !caps[modelId]
    requires Contains(ToLower(modelId), "vision")
    ensures !ModelSupportsVision(providerId, modelId, caps) && InferVisionSupport(providerId, modelId)
  {
  }

  /**
   * The option name of a trimmed id: without `<provider>-`, only the last
   * path segment, `base:quant` shown as `base (quant)`.
   */
  function OptionName(providerId: string, trimmed: string): (r: string)
    ensures '/' !in r
    ensures !StartsWith(trimmed, providerId + "-") && '/' !in trimmed && ':' !in trimmed ==> r == trimmed
  {
    QuantName(LastSegment(WithoutDashPrefix(providerId, trimmed)))
  }

  /** The provider's top-level fields read as one instance; anything but an object gives none. */
  function TopLevelInstance(config: StoredProvider): seq<Instance> {
    match config
    case NotAnObject => []
    case ProviderRecord(_, _, apiKey, baseUrl, model, models, modelCapabilities) =>
      [Instance("", "", apiKey, baseUrl, model, OrEmpty(models), modelCapabilities)]
  }

  /** What an entry is offered as: the id always carries the `<provider>-` prefix. */
  function OptionOf(e: Entry): ModelOption {
    var trimmed := Trim(e.modelId);
    ModelOption(e.provider + "-" + trimmed, OptionName(e.provider, trimmed), e.provider, ProviderLabel(e.provider),
                trimmed, ModelSupportsVision(e.provider, trimmed, e.instance.modelCapabilities))
  }

  /** The options kept: all of them, or only the vision-capable ones. */
  function ShownFor(visionOnly: bool): ModelOption -> bool {
    (o: ModelOption) => !visionOnly || o.supportsVision
  }

  /** The options of some entries, in order. */
  function OptionsOf(es: seq<Entry>, visionOnly: bool): seq<ModelOption> {
    Seqs.Filter(Seqs.Map(es, OptionOf), ShownFor(visionOnly))
  }

  /** The options of a whole record, in key order, before sorting. */
  function Options(configs: StoredConfigs, visionOnly: bool): seq<ModelOption> {
    OptionsOf(Entries(configs, TopLevelInstance), visionOnly)
  }

  lemma OptionsOfAppend(a: seq<Entry>, b: seq<Entry>, visionOnly: bool)
    ensures OptionsOf(a + b, visionOnly) == OptionsOf(a, visionOnly) + OptionsOf(b, visionOnly)
  {
    Seqs.MapAppend(a, b, OptionOf);
    Seqs.FilterAppend(Seqs.Map(a, OptionOf), Seqs.Map(b, OptionOf), ShownFor(visionOnly));
  }

  /** One more id in the inner loop of `loadModels`. */
  lemma IdOptionStep(providerId: string, instance: Instance, modelIds: seq<string>, j: nat, visionOnly: bool)
    requires j < |modelIds|
    ensures var o := OptionOf(Entry(providerId, instance, modelIds[j]));
      OptionsOf(IdEntries(providerId, instance, modelIds[..j + 1]), visionOnly)
      == OptionsOf(IdEntries(providerId, instance, modelIds[..j]), visionOnly)
         + (if Trim(modelIds[j]) != "" && (!visionOnly || o.supportsVision) then [o] else [])
  {
    var e := Entry(providerId, instance, modelIds[j]);
    var xs := IdEntries(providerId, instance, modelIds[..j]);
    IdEntriesSnoc(providerId, instance, modelIds, j);
    if Trim(modelIds[j]) != "" {
      assert IdEntries(providerId, instance, modelIds[..j + 1]) == xs + [e];
      Seqs.MapSnoc(xs, e, OptionOf);
      Seqs.FilterSnoc(Seqs.Map(xs, OptionOf), OptionOf(e), ShownFor(visionOnly));
    } else {
      assert IdEntries(providerId, instance, modelIds[..j + 1]) == xs;
    }
  }

  /** The entries of one provider: those of its top-level instance when that is listed. */
  lemma ProviderEntries(providerId: string, config: StoredProvider)
    ensures config.NotAnObject? ==> InstanceEntries(providerId, TopLevelInstance(config)) == []
    ensures config.ProviderRecord? ==>
      var instance := TopLevelInstance(config)[0];
      InstanceEntries(providerId, TopLevelInstance(config))
      == if IsListed(instance) then IdEntries(providerId, instance, ModelIdsOf(instance)) else []
  {
    if config.ProviderRecord? {
      var instances := TopLevelInstance(config);
      InstanceEntriesSnoc(providerId, instances, 0);
      assert instances[..1] == instances;
      assert instances[..0] == [];
    }
  }

  /** The inner loop of `loadModels`: an option per non-blank id, skipping those without vision when asked to. */
  method IdOptions(providerId: string, instance: Instance, modelIds: seq<string>, visionOnly: bool)
    returns (chunk: seq<ModelOption>)
    ensures chunk == OptionsOf(IdEntries(providerId, instance, modelIds), visionOnly)
  {
    chunk := [];
    var j := 0;
    while j < |modelIds|
      invariant 0 <= j <= |modelIds|
      invariant chunk == OptionsOf(IdEntries(providerId, instance, modelIds[..j]), visionOnly)
    {
      IdOptionStep(providerId, instance, modelIds, j, visionOnly);
      var trimmed := Trim(modelIds[j]);
      if trimmed != "" {
        var option := OptionOf(Entry(providerId, instance, modelIds[j]));
        if !(visionOnly && !option.supportsVision) {
          chunk := chunk + [option];
        }
      }
      j := j + 1;
    }
    Seqs.TakeAll(modelIds);
  }

  /** The provider loop of `loadModels`: the options of every provider value that is an object, in key order. */
  method CollectOptions(configs: StoredConfigs, visionOnly: bool) returns (list: seq<ModelOption>)
    ensures list == Options(configs, visionOnly)
  {
    list := [];
    var i := 0;
    while i < |configs|
      invariant 0 <= i <= |configs|
      invariant list == OptionsOf(Entries(configs[..i], TopLevelInstance), visionOnly)
    {
      var (providerId, config) := configs[i];
      EntriesSnoc(configs, TopLevelInstance, i);
      ProviderEntries(providerId, config);
      OptionsOfAppend(Entries(configs[..i], TopLevelInstance), InstanceEntries(providerId, TopLevelInstance(config)),
                      visionOnly);
      if config.ProviderRecord? {
        var instance := TopLevelInstance(config)[0];
        var modelIds := ModelIdsOf(instance);
        var hasApiKey := instance.apiKey == "" || Trim(instance.apiKey) != "";
        if |modelIds| > 0 && hasApiKey {
          var more := IdOptions(providerId, instance, modelIds, visionOnly);
          list := list + more;
        } else {
          assert list + OptionsOf([], visionOnly) == list;
        }
      } else {
        assert list + OptionsOf([], visionOnly) == list;
      }
      i := i + 1;
    }
    Seqs.TakeAll(configs);
  }

  /**
   * Every option comes from a provider key of the record: its id is
   * `<provider>-<model id>`, its model id is a trimmed, non-blank id of that
   * provider, and with `visionOnly` it supports vision.
   */
  lemma OptionsWellFormed(configs: StoredConfigs, visionOnly: bool)
    ensures forall o :: o in Options(configs, visionOnly) ==>
      o.id == o.provider + "-" + o.modelId && o.modelId != "" && o.providerName == ProviderLabel(o.provider)
      && (visionOnly ==> o.supportsVision)
      && exists i :: 0 <= i < |configs| && configs[i].0 == o.provider
  {
    var es := Entries(configs, TopLevelInstance);
    EntriesListed(configs, TopLevelInstance);
    OptionsOfWellFormed(es, visionOnly);
    forall o | o in Options(configs, visionOnly)
      ensures exists i :: 0 <= i < |configs| && configs[i].0 == o.provider
    {
      var e :| e in es && e.provider == o.provider;
    }
  }

  lemma OptionsOfWellFormed(es: seq<Entry>, visionOnly: bool)
    requires forall e :: e in es ==> !IsBlank(e.modelId)
    ensures forall o :: o in OptionsOf(es, visionOnly) ==>
      o.id == o.provider + "-" + o.modelId && o.modelId != "" && o.providerName == ProviderLabel(o.provider)
      && (visionOnly ==> o.supportsVision)
      && exists e :: e in es && e.provider == o.provider
  {
    var all := Seqs.Map(es, OptionOf);
    forall o | o in OptionsOf(es, visionOnly)
      ensures o.id == o.provider + "-" + o.modelId && o.modelId != "" && o.providerName == ProviderLabel(o.provider)
      ensures visionOnly ==> o.supportsVision
      ensures exists e :: e in es && e.provider == o.provider
    {
      assert o in all && ShownFor(visionOnly)(o);
      var k :| 0 <= k < |all| && all[k] == o;
      assert es[k] in es;
    }
  }

  /** The selection `loadModels` settles on, what it writes back, and what it reports. */
  datatype Selection = Selection(selected: string, persisted: Option<string>, notified: Option<string>)

  /** The saved selection: the stored string, empty when there is none. */
  function SavedSelection(items: map<string, string>, key: string): (r: string)
    ensures key in items ==> r == items[key]
    ensures key !in items ==> r == ""
  {
    if key in items then items[key] else ""
  }

  /**
   * The saved id when an option has it, reported to the listener; else the
   * first option when there is no external value, written back and
   * reported; else the external value; else nothing.
   */
  function SelectAfterLoad(options: seq<ModelOption>, saved: string, value: string, hasOnChange: bool): (r: Selection)
    ensures saved != "" && HasOptionId(options, saved) ==>
      r == Selection(saved, None, if hasOnChange then Some(saved) else None)
    ensures !(saved != "" && HasOptionId(options, saved)) && options != [] && value == "" ==>
      r == Selection(options[0].id, Some(options[0].id), if hasOnChange then Some(options[0].id) else None)
    ensures r.selected == "" || HasOptionId(options, r.selected) || r.selected == value
    ensures r.persisted.Some? ==> r.persisted.value == r.selected && HasOptionId(options, r.selected)
    ensures r.notified.Some? ==> hasOnChange && r.notified.value == r.selected && HasOptionId(options, r.selected)
    ensures options == [] ==> r == Selection(value, None, None)
  {
    if saved != "" && HasOptionId(options, saved) then Selection(saved, None, if hasOnChange then Some(saved) else None)
    else if options != [] && value == "" then
      Selection(options[0].id, Some(options[0].id), if hasOnChange then Some(options[0].id) else None)
    else if value != "" then Selection(value, None, None)
    else Selection("", None, None)
  }

  /** A picker bound to one storage key. Its record and selection live in the browser's storage. */
  class ModelSelector {
    const storageKey: string
    const filterVisionOnly: bool
    /** The selection passed in by the parent; empty when absent. */
    const value: string
    const hasOnChange: bool
    var selectedModel: string
    var availableModels: seq<ModelOption>
    /** The browser's storage, key by key. */
    var storage: map<string, string>
    /** The ids passed to the listener, in order. */
    var changes: seq<string>

    constructor(storageKey: string, filterVisionOnly: bool, value: string, hasOnChange: bool, storage: map<string, string>)
      ensures this.storageKey == storageKey && this.filterVisionOnly == filterVisionOnly
      ensures this.value == value && this.hasOnChange == hasOnChange
      ensures selectedModel == value && availableModels == [] && this.storage == storage && changes == []
    {
      this.storageKey := storageKey;
      this.filterVisionOnly := filterVisionOnly;
      this.value := value;
      this.hasOnChange := hasOnChange;
      selectedModel := value;
      availableModels := [];
      this.storage := storage;
      changes := [];
    }

    /**
     * `loadModels`: with no record, or one that does not parse, no options
     * and no selection; otherwise the sorted options and the selection
     * `SelectAfterLoad` gives, with its write-back and report.
     */
    method LoadModels(codec: Codec<StoredConfigs>)
      modifies this
      ensures Stored(old(storage), ConfigsKey, codec, false).None? ==>
        availableModels == [] && selectedModel == "" && storage == old(storage) && changes == old(changes)
      ensures Stored(old(storage), ConfigsKey, codec, false).Some? ==>
        var sel := SelectAfterLoad(availableModels, SavedSelection(old(storage), storageKey), value, hasOnChange);
        && availableModels == SortOptions(Options(Stored(old(storage), ConfigsKey, codec, false).value, filterVisionOnly))
        && selectedModel == sel.selected
        && storage == (if sel.persisted.Some? then old(storage)[storageKey := sel.persisted.value] else old(storage))
        && changes == old(changes) + (if sel.notified.Some? then [sel.notified.value] else [])
      ensures Sorted(availableModels)
    {
      var parsed := Stored(storage, ConfigsKey, codec, false);
      if parsed.None? {
        availableModels := [];
        selectedModel := "";
        return;
      }
      var modelList := CollectOptions(parsed.value, filterVisionOnly);
      modelList := SortOptions(modelList);
      SortOptionsSorted(Options(parsed.value, filterVisionOnly));
      availableModels := modelList;
      RestoreSelection();
    }

    /** The selection half of `loadModels`, over the options just loaded. */
    method RestoreSelection()
      modifies this
      ensures var sel := SelectAfterLoad(availableModels, SavedSelection(old(storage), storageKey), value, hasOnChange);
        && selectedModel == sel.selected
        && storage == (if sel.persisted.Some? then old(storage)[storageKey := sel.persisted.value] else old(storage))
        && changes == old(changes) + (if sel.notified.Some? then [sel.notified.value] else [])
      ensures availableModels == old(availableModels)
    {
      var modelList := availableModels;
      var savedSelected := SavedSelection(storage, storageKey);
      ghost var sel := SelectAfterLoad(modelList, savedSelected, value, hasOnChange);
      if savedSelected != "" && HasOptionId(modelList, savedSelected) {
        assert sel == Selection(savedSelected, None, if hasOnChange then Some(savedSelected) else None);
        selectedModel := savedSelected;
        if hasOnChange {
          changes := changes + [savedSelected];
        }
      } else if |modelList| > 0 && value == "" {
        assert sel == Selection(modelList[0].id, Some(modelList[0].id), if hasOnChange then Some(modelList[0].id) else None);
        selectedModel := modelList[0].id;
        storage := storage[storageKey := modelList[0].id];
        if hasOnChange {
          changes := changes + [modelList[0].id];
        }
      } else if value != "" {
        assert sel == Selection(value, None, None);
        selectedModel := value;
      } else {
        assert sel == Selection("", None, None);
        selectedModel := "";
      }
    }

    /** `handleModelChange`: select the id, write it back, report it. */
    method HandleModelChange(modelId: string)
      modifies this
      ensures selectedModel == modelId && storage == old(storage)[storageKey := modelId]
      ensures changes == old(changes) + (if hasOnChange then [modelId] else [])
      ensures availableModels == old(availableModels)
    {
      selectedModel := modelId;
      storage := storage[storageKey := modelId];
      if hasOnChange {
        changes := changes + [modelId];
      }
    }
  }

  /**
   * A choice made in the picker survives the next load as long as some
   * option still has that id.
   */
  lemma ChoiceSurvivesReload(items: map<string, string>, key: string, modelId: string,
                             options: seq<ModelOption>, value: string, hasOnChange: bool)
    requires modelId != "" && HasOptionId(options, modelId)
    ensures SelectAfterLoad(options, SavedSelection(items[key := modelId], key), value, hasOnChange).selected == modelId
  {
  }

  /** With the first option picked and written back, the next load keeps it and writes nothing. */
  lemma FirstPickIsStable(options: seq<ModelOption>, items: map<string, string>, key: string, value: string,
                          hasOnChange: bool)
    requires options != [] && options[0].id != ""
    requires SelectAfterLoad(options, SavedSelection(items, key), value, hasOnChange).persisted.Some?
    ensures var first := SelectAfterLoad(options, SavedSelection(items, key), value, hasOnChange);
      var next := SelectAfterLoad(options, SavedSelection(items[key := first.persisted.value], key), value, hasOnChange);
      next.selected == first.selected && next.persisted.None?
  {
    assert HasOptionId(options, options[0].id);
  }
}
