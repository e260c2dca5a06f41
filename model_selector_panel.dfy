/**
 * The web application's model panel. It lists the models of every listed
 * instance (older-format records read as one default instance) under ids
 * that name the instance, sorts them by provider label and name, and keeps
 * the application-wide selection in the browser's storage.
 */
module ModelSelectorPanel {
  import opened Base
  import opened Storage
  import opened WebConfig
  import opened OptionOrder
  import Seqs

  /** `<provider>-<instance id>-` for a named instance, `<provider>-` for the default one or one without an id. */
  function InstancePrefix(providerId: string, instance: Instance): (r: string)
    ensures instance.id != "" && instance.id != "default" ==> r == providerId + "-" + instance.id + "-"
    ensures instance.id == "" || instance.id == "default" ==> r == providerId + "-"
    ensures StartsWith(r, providerId + "-")
  {
    if instance.id != "" && instance.id != "default" then
      var r := providerId + "-" + instance.id + "-";
      assert r[..|providerId + "-"|] == providerId + "-";
      r
    else providerId + "-"
  }

  /**
   * The option id of a trimmed model id: kept when it already starts with
   * the instance prefix; otherwise the instance prefix in front of the id
   * without its `<provider>-` prefix.
   */
  function PanelOptionId(providerId: string, instance: Instance, trimmed: string): (r: string)
    ensures StartsWith(r, InstancePrefix(providerId, instance))
    ensures StartsWith(trimmed, InstancePrefix(providerId, instance)) ==> r == trimmed
    ensures !StartsWith(trimmed, InstancePrefix(providerId, instance)) && !StartsWith(trimmed, providerId + "-") ==>
      r == InstancePrefix(providerId, instance) + trimmed
  {
    var prefix := InstancePrefix(providerId, instance);
    var r := if StartsWith(trimmed, prefix) then trimmed
             else if StartsWith(trimmed, providerId + "-") then prefix + trimmed[|providerId| + 1..]
             else prefix + trimmed;
    assert StartsWith(r, prefix) by {
      if !StartsWith(trimmed, prefix) {
        assert r[..|prefix|] == prefix;
      }
    }
    r
  }

  /** An option id is its own option id: loading the panel twice never stacks prefixes. */
  lemma PanelOptionIdStable(providerId: string, instance: Instance, trimmed: string)
    ensures var id := PanelOptionId(providerId, instance, trimmed);
      PanelOptionId(providerId, instance, id) == id
  {
  }

  /**
   * For the default instance and a plain id, the panel's option id is the
   * id the model store uses.
   */
  lemma DefaultPanelIdIsStoreId(providerId: string, instance: Instance, trimmed: string)
    requires instance.id == "" || instance.id == "default"
    requires !StartsWith(trimmed, providerId + "-") && '/' !in trimmed && ':' !in trimmed
    ensures PanelOptionId(providerId, instance, trimmed) == StoreId(providerId, trimmed)
  {
  }

  /**
   * The option name: without the instance prefix (else without
   * `<provider>-`), only the last path segment, `base:quant` as
   * `base (quant)`, behind the instance name unless that is a default one.
   */
  function PanelName(providerId: string, instance: Instance, trimmed: string): (r: string)
    ensures instance.name == "" || instance.name == DefaultInstanceName || instance.name == "default" ==> '/' !in r
  {
    var prefix := InstancePrefix(providerId, instance);
    var stripped := if StartsWith(trimmed, prefix) then trimmed[|prefix|..]
                    else if StartsWith(trimmed, providerId + "-") then trimmed[|providerId| + 1..]
                    else trimmed;
    ShownName(instance, QuantName(LastSegment(stripped)))
  }

  /** A default-instance name of a plain id is the id itself. */
  lemma PanelNameOfPlainId(providerId: string, instance: Instance, trimmed: string)
    requires instance.name == "" || instance.name == DefaultInstanceName || instance.name == "default"
    requires !StartsWith(trimmed, InstancePrefix(providerId, instance)) && !StartsWith(trimmed, providerId + "-")
    requires '/' !in trimmed && ':' !in trimmed
    ensures PanelName(providerId, instance, trimmed) == trimmed
  {
  }

  /** Vision support only from a saved record; no record means none. */
  function PanelVision(caps: map<string, bool>, trimmed: string): (r: bool)
    ensures r <==> trimmed in caps && caps[trimmed]
  {
    trimmed in caps && caps[trimmed]
  }

  /** What an entry is offered as. */
  function OptionOf(e: Entry): ModelOption {
    var trimmed := Trim(e.modelId);
    ModelOption(PanelOptionId(e.provider, e.instance, trimmed), PanelName(e.provider, e.instance, trimmed), e.provider,
                ProviderLabel(e.provider), trimmed, PanelVision(e.instance.modelCapabilities, trimmed))
  }

  /** The options of a whole record, in key order, before sorting. */
  function PanelOptions(configs: StoredConfigs): seq<ModelOption> {
    Seqs.Map(Entries(configs, ListedInstances), OptionOf)
  }

  /** One more id in the inner loop of `loadModels`. */
  lemma IdOptionStep(providerId: string, instance: Instance, modelIds: seq<string>, j: nat)
    requires j < |modelIds|
    ensures var t := Trim(modelIds[j]);
      Seqs.Map(IdEntries(providerId, instance, modelIds[..j + 1]), OptionOf)
      == Seqs.Map(IdEntries(providerId, instance, modelIds[..j]), OptionOf)
         + (if t != ""
            then [ModelOption(PanelOptionId(providerId, instance, t), PanelName(providerId, instance, t), providerId,
                              ProviderLabel(providerId), t, PanelVision(instance.modelCapabilities, t))]
            else [])
  {
    IdEntriesSnoc(providerId, instance, modelIds, j);
    if Trim(modelIds[j]) != "" {
      Seqs.MapSnoc(IdEntries(providerId, instance, modelIds[..j]), Entry(providerId, instance, modelIds[j]), OptionOf);
    }
  }

  /** The inner loop of `loadModels`: one option per non-blank id, in order. */
  method IdOptions(providerId: string, instance: Instance, modelIds: seq<string>) returns (chunk: seq<ModelOption>)
    ensures chunk == Seqs.Map(IdEntries(providerId, instance, modelIds), OptionOf)
  {
    chunk := [];
    var j := 0;
    while j < |modelIds|
      invariant 0 <= j <= |modelIds|
      invariant chunk == Seqs.Map(IdEntries(providerId, instance, modelIds[..j]), OptionOf)
    {
      IdOptionStep(providerId, instance, modelIds, j);
      var trimmedModelId := Trim(modelIds[j]);
      if trimmedModelId != "" {
        var optionId := PanelOptionId(providerId, instance, trimmedModelId);
        var modelName := PanelName(providerId, instance, trimmedModelId);
        var supportsVision := PanelVision(instance.modelCapabilities, trimmedModelId);
        chunk := chunk + [ModelOption(optionId, modelName, providerId, ProviderLabel(providerId), trimmedModelId,
                                      supportsVision)];
      }
      j := j + 1;
    }
    Seqs.TakeAll(modelIds);
  }

  /** The instance loop of `loadModels`: the ids of every listed instance, in order. */
  method InstanceOptions(providerId: string, instances: seq<Instance>) returns (chunk: seq<ModelOption>)
    ensures chunk == Seqs.Map(InstanceEntries(providerId, instances), OptionOf)
  {
    chunk := [];
    var k := 0;
    while k < |instances|
      invariant 0 <= k <= |instances|
      invariant chunk == Seqs.Map(InstanceEntries(providerId, instances[..k]), OptionOf)
    {
      InstanceEntriesSnoc(providerId, instances, k);
      var instance := instances[k];
      var modelIds := ModelIdsOf(instance);
      var hasApiKey := instance.apiKey == "" || Trim(instance.apiKey) != "";
      if |modelIds| > 0 && hasApiKey {
        var more := IdOptions(providerId, instance, modelIds);
        Seqs.MapAppend(InstanceEntries(providerId, instances[..k]), IdEntries(providerId, instance, modelIds), OptionOf);
        chunk := chunk + more;
      }
      k := k + 1;
    }
    Seqs.TakeAll(instances);
  }

  /** The provider loop of `loadModels`: the instances of each provider value, older formats read as one. */
  method CollectOptions(configs: StoredConfigs) returns (list: seq<ModelOption>)
    ensures list == PanelOptions(configs)
  {
    list := [];
    var i := 0;
    while i < |configs|
      invariant 0 <= i <= |configs|
      invariant list == Seqs.Map(Entries(configs[..i], ListedInstances), OptionOf)
    {
      EntriesSnoc(configs, ListedInstances, i);
      var (providerId, config) := configs[i];
      var more := InstanceOptions(providerId, ListedInstances(config));
      Seqs.MapAppend(Entries(configs[..i], ListedInstances), InstanceEntries(providerId, ListedInstances(config)), OptionOf);
      list := list + more;
      i := i + 1;
    }
    Seqs.TakeAll(configs);
  }

  /**
   * Every option of a set of entries carries the prefix of its entry's
   * instance, a non-blank trimmed model id and its provider's label.
   */
  lemma OptionsOfEntries(es: seq<Entry>)
    requires forall e :: e in es ==> !IsBlank(e.modelId)
    ensures forall k :: 0 <= k < |es| ==>
      var o := Seqs.Map(es, OptionOf)[k];
      StartsWith(o.id, InstancePrefix(es[k].provider, es[k].instance)) && o.modelId == Trim(es[k].modelId)
      && o.modelId != "" && o.provider == es[k].provider && o.providerName == ProviderLabel(o.provider)
  {
    forall k | 0 <= k < |es|
      ensures Trim(es[k].modelId) != ""
    {
      assert es[k] in es;
    }
  }

  /**
   * Every option of a record comes from a listed instance of one of its
   * providers, and its id starts with that instance's prefix.
   */
  lemma PanelOptionsFromListedInstances(configs: StoredConfigs)
    ensures forall k :: 0 <= k < |PanelOptions(configs)| ==>
      var e := Entries(configs, ListedInstances)[k];
      StartsWith(PanelOptions(configs)[k].id, InstancePrefix(e.provider, e.instance)) && IsListed(e.instance)
      && PanelOptions(configs)[k].modelId != ""
  {
    var es := Entries(configs, ListedInstances);
    EntriesListed(configs, ListedInstances);
    OptionsOfEntries(es);
    forall k | 0 <= k < |es|
      ensures IsListed(es[k].instance)
    {
      assert es[k] in es;
    }
  }

  /** The selection `loadModels` settles on, and the id it writes back (with a `modelChanged` event). */
  datatype PanelSelection = PanelSelection(selected: string, persisted: Option<string>)

  /** The saved id when an option has it; else the first option, written back; else nothing. */
  function PanelSelectAfterLoad(options: seq<ModelOption>, saved: string): (r: PanelSelection)
    ensures saved != "" && HasOptionId(options, saved) ==> r == PanelSelection(saved, None)
    ensures !(saved != "" && HasOptionId(options, saved)) && options != [] ==>
      r == PanelSelection(options[0].id, Some(options[0].id))
    ensures options == [] ==> r == PanelSelection("", None)
    ensures r.selected == "" || HasOptionId(options, r.selected)
  {
    if saved != "" && HasOptionId(options, saved) then PanelSelection(saved, None)
    else if options != [] then
      assert HasOptionId(options, options[0].id);
      PanelSelection(options[0].id, Some(options[0].id))
    else PanelSelection("", None)
  }

  /** The saved selection: the stored string, empty when there is none. */
  function SavedSelection(items: map<string, string>): (r: string)
    ensures SelectedKey in items ==> r == items[SelectedKey]
    ensures SelectedKey !in items ==> r == ""
  {
    if SelectedKey in items then items[SelectedKey] else ""
  }

  /** The toast shown after a switch. */
  function SwitchedMessage(o: ModelOption): string {
    "已切换到: " + o.providerName + " - " + o.name
  }

  class ModelSelectorPanel {
    var selectedModel: string
    var availableModels: seq<ModelOption>
    /** The browser's storage, key by key. */
    var storage: map<string, string>
    /** How many `modelChanged` events the panel has sent. */
    var events: nat
    /** The success toasts shown, in order. */
    var toasts: seq<string>

    constructor(storage: map<string, string>)
      ensures selectedModel == "" && availableModels == [] && this.storage == storage && events == 0 && toasts == []
    {
      selectedModel := "";
      availableModels := [];
      this.storage := storage;
      events := 0;
      toasts := [];
    }

    /**
     * `loadModels`: with no record, or one that does not parse, no options
     * and no selection; otherwise the sorted options and the selection
     * `PanelSelectAfterLoad` gives, announcing a written-back id with an event.
     */
    method LoadModels(codec: Codec<StoredConfigs>)
      modifies this
      ensures Stored(old(storage), ConfigsKey, codec, false).None? ==>
        availableModels == [] && selectedModel == "" && storage == old(storage) && events == old(events)
      ensures Stored(old(storage), ConfigsKey, codec, false).Some? ==>
        availableModels == SortOptions(PanelOptions(Stored(old(storage), ConfigsKey, codec, false).value))
      ensures Stored(old(storage), ConfigsKey, codec, false).Some? ==>
        var sel := PanelSelectAfterLoad(availableModels, SavedSelection(old(storage)));
        && selectedModel == sel.selected
        && storage == (if sel.persisted.Some? then old(storage)[SelectedKey := sel.persisted.value] else old(storage))
        && events == old(events) + (if sel.persisted.Some? then 1 else 0)
      ensures Sorted(availableModels) && toasts == old(toasts)
    {
      var parsed := Stored(storage, ConfigsKey, codec, false);
      if parsed.None? {
        availableModels := [];
        selectedModel := "";
        return;
      }
      var modelList := CollectOptions(parsed.value);
      modelList := SortOptions(modelList);
      SortOptionsSorted(PanelOptions(parsed.value));
      availableModels := modelList;
      RestoreSelection();
    }

    /** The selection half of `loadModels`, over the options just loaded. */
    method RestoreSelection()
      modifies this
      ensures var sel := PanelSelectAfterLoad(availableModels, SavedSelection(old(storage)));
        && selectedModel == sel.selected
        && storage == (if sel.persisted.Some? then old(storage)[SelectedKey := sel.persisted.value] else old(storage))
        && events == old(events) + (if sel.persisted.Some? then 1 else 0)
      ensures availableModels == old(availableModels) && toasts == old(toasts)
    {
      var modelList := availableModels;
      var savedSelected := SavedSelection(storage);
      ghost var sel := PanelSelectAfterLoad(modelList, savedSelected);
      if savedSelected != "" && HasOptionId(modelList, savedSelected) {
        assert sel == PanelSelection(savedSelected, None);
        selectedModel := savedSelected;
      } else if |modelList| > 0 {
        assert sel == PanelSelection(modelList[0].id, Some(modelList[0].id));
        selectedModel := modelList[0].id;
        storage := storage[SelectedKey := modelList[0].id];
        events := events + 1;
      } else {
        assert sel == PanelSelection("", None);
        selectedModel := "";
      }
    }

    /**
     * `handleModelChange`: select and write back the id; when an option
     * has it, show a toast naming it and send a `modelChanged` event.
     */
    method HandleModelChange(modelId: string)
      modifies this
      ensures selectedModel == modelId && storage == old(storage)[SelectedKey := modelId]
      ensures availableModels == old(availableModels)
      ensures !HasOptionId(availableModels, modelId) ==> events == old(events) && toasts == old(toasts)
      ensures HasOptionId(availableModels, modelId) ==>
        events == old(events) + 1 && |toasts| == |old(toasts)| + 1 && toasts[..|old(toasts)|] == old(toasts)
        && exists k :: 0 <= k < |availableModels| && availableModels[k].id == modelId
                       && toasts[|old(toasts)|] == SwitchedMessage(availableModels[k])
    {
      selectedModel := modelId;
      storage := storage[SelectedKey := modelId];
      var i := 0;
      while i < |availableModels| && availableModels[i].id != modelId
        invariant 0 <= i <= |availableModels|
        invariant forall k :: 0 <= k < i ==> availableModels[k].id != modelId
      {
        i := i + 1;
      }
      if i < |availableModels| {
        toasts := toasts + [SwitchedMessage(availableModels[i])];
        events := events + 1;
      }
    }
  }

  /** After a switch to a listed id, the next load keeps it and writes nothing back. */
  lemma SwitchSurvivesReload(items: map<string, string>, modelId: string, options: seq<ModelOption>)
    requires modelId != "" && HasOptionId(options, modelId)
    ensures PanelSelectAfterLoad(options, SavedSelection(items[SelectedKey := modelId])) == PanelSelection(modelId, None)
  {
  }
}
