/**
 * The model configuration editor of the web app. It keeps one record per
 * provider under `modelConfigs`, and each record holds named connection
 * instances. When it loads, the editor migrates the older
 * one-connection-per-provider format. It edits the current instance's model
 * list, adds and deletes instances, and on save copies every selected model
 * into the model manager's store.
 */
module ModelConfig {
  import opened Base
  import opened Keyed
  import opened Storage
  import opened LlmTypes
  import opened WebConfig
  import ModelManagers
  import ModelService
  import Seqs

  /** The editor's record for one provider; an empty `defaultInstanceId` means none is set. */
  datatype ProviderConfig = ProviderConfig(provider: string, instances: seq<Instance>, defaultInstanceId: string)

  type EditorConfigs = Dict<ProviderConfig>

  /** The record a provider starts with: no instances and no default. */
  function EmptyConfig(providerId: string): ProviderConfig {
    ProviderConfig(providerId, [], "")
  }

  /** The provider's record, or an empty one when it has none. */
  function ConfigOrEmpty(configs: EditorConfigs, providerId: string): ProviderConfig {
    match Get(configs, providerId)
    case Some(pc) => pc
    case None => EmptyConfig(providerId)
  }

  /** `providers.find(p => p.id === id)`. */
  function FindProvider(providers: seq<TextProvider>, id: string): (r: Option<TextProvider>)
    ensures r.None? <==> forall i :: 0 <= i < |providers| ==> providers[i].id != id
    ensures r.Some? ==> r.value.id == id && r.value in providers
  {
    if providers == [] then None
    else if providers[0].id == id then Some(providers[0])
    else
      assert forall i :: 1 <= i < |providers| ==> providers[i] == providers[1..][i - 1];
      FindProvider(providers[1..], id)
  }

  /** Some provider has the id. */
  predicate IsProviderId(providers: seq<TextProvider>, id: string) {
    exists i :: 0 <= i < |providers| && providers[i].id == id
  }

  // ---------------------------------------------------------------------
  // Loading and migration
  // ---------------------------------------------------------------------

  /** The records the loader starts from: an empty one per provider, keyed by its id. */
  function FreshConfigs(providers: seq<TextProvider>): EditorConfigs
  {
    if providers == [] then []
    else
      var p := providers[|providers| - 1];
      Put(FreshConfigs(providers[..|providers| - 1]), p.id, EmptyConfig(p.id))
  }

  /** Every provider, and nothing else, starts with an empty record. */
  lemma {:induction false} FreshConfigsAre(providers: seq<TextProvider>, k: string)
    ensures Get(FreshConfigs(providers), k) == (if IsProviderId(providers, k) then Some(EmptyConfig(k)) else None)
  {
    if providers != [] {
      var init := providers[..|providers| - 1];
      var p := providers[|providers| - 1];
      FreshConfigsAre(init, k);
      PutGet(FreshConfigs(init), p.id, EmptyConfig(p.id));
      if k != p.id {
        if IsProviderId(providers, k) {
          var i :| 0 <= i < |providers| && providers[i].id == k;
          assert init[i] == providers[i];
        }
        if IsProviderId(init, k) {
          var i :| 0 <= i < |init| && init[i].id == k;
          assert providers[i] == init[i];
        }
      } else {
        assert providers[|providers| - 1].id == k;
      }
    }
  }

  /** An old-format record: no `instances`, but a key, an address or a model list. */
  predicate IsLegacyConfig(stored: StoredProvider) {
    stored.ProviderRecord? && stored.instances.None? && (stored.apiKey != "" || stored.baseUrl != "" || stored.models.Some?)
  }

  /** The provider's default address, or empty for an unknown provider. */
  function DefaultBaseUrl(providers: seq<TextProvider>, providerId: string): string {
    match FindProvider(providers, providerId)
    case Some(p) => p.defaultBaseURL
    case None => ""
  }

  /** The single instance an old-format record becomes. */
  function MigratedInstance(key: string, stored: StoredProvider, providers: seq<TextProvider>, instanceId: string): Instance
    requires stored.ProviderRecord?
  {
    Instance(
      instanceId,
      DefaultInstanceName,
      stored.apiKey,
      if stored.baseUrl != "" then stored.baseUrl else DefaultBaseUrl(providers, key),
      stored.model,
      match stored.models
      case Some(ms) => ms
      case None => if stored.model != "" then [stored.model] else [],
      stored.modelCapabilities)
  }

  /**
   * One step of the loader's pass over the stored keys. Keys without a
   * starting record are ignored. An old-format record becomes one instance
   * that is also the default. A record with `instances` is taken over. Any
   * other value leaves the empty record.
   */
  function MigrateEntry(configs: EditorConfigs, key: string, stored: StoredProvider, providers: seq<TextProvider>,
                        instanceId: string): EditorConfigs
  {
    if !HasKey(configs, key) || stored.NotAnObject? then configs
    else if IsLegacyConfig(stored) then
      Put(configs, key, ProviderConfig(key, [MigratedInstance(key, stored, providers, instanceId)], instanceId))
    else if stored.instances.Some? then
      Put(configs, key, ProviderConfig(key, stored.instances.value, stored.defaultInstanceId))
    else configs
  }

  /** The loader's pass over every stored key, in key order; `newId(i)` is the id generated at the i-th key. */
  function MigrateAll(configs: EditorConfigs, parsed: StoredConfigs, providers: seq<TextProvider>,
                      newId: nat -> string): EditorConfigs
  {
    if parsed == [] then configs
    else
      var n := |parsed| - 1;
      MigrateEntry(MigrateAll(configs, parsed[..n], providers, newId), parsed[n].0, parsed[n].1, providers, newId(n))
  }

  /** The records after loading: the empty ones, with the parsed record (if any) migrated in. */
  function LoadedConfigs(providers: seq<TextProvider>, parsed: Option<StoredConfigs>, newId: nat -> string): EditorConfigs {
    MigrateAll(FreshConfigs(providers), OrEmpty(parsed), providers, newId)
  }

  lemma MigrateEntryHasKey(configs: EditorConfigs, key: string, stored: StoredProvider, providers: seq<TextProvider>,
                           instanceId: string, k: string)
    ensures HasKey(MigrateEntry(configs, key, stored, providers, instanceId), k) <==> HasKey(configs, k)
  {
    if HasKey(configs, key) && stored.ProviderRecord? {
      if IsLegacyConfig(stored) {
        PutHasKey(configs, key, ProviderConfig(key, [MigratedInstance(key, stored, providers, instanceId)], instanceId), k);
      } else if stored.instances.Some? {
        PutHasKey(configs, key, ProviderConfig(key, stored.instances.value, stored.defaultInstanceId), k);
      }
    }
  }

  lemma MigrateEntryOther(configs: EditorConfigs, key: string, stored: StoredProvider, providers: seq<TextProvider>,
                          instanceId: string, k: string)
    requires k != key
    ensures Get(MigrateEntry(configs, key, stored, providers, instanceId), k) == Get(configs, k)
  {
    if HasKey(configs, key) && stored.ProviderRecord? {
      if IsLegacyConfig(stored) {
        PutGet(configs, key, ProviderConfig(key, [MigratedInstance(key, stored, providers, instanceId)], instanceId));
      } else if stored.instances.Some? {
        PutGet(configs, key, ProviderConfig(key, stored.instances.value, stored.defaultInstanceId));
      }
    }
  }

  /** Migration neither adds nor removes a provider. */
  lemma {:induction false} MigrateAllHasKey(configs: EditorConfigs, parsed: StoredConfigs, providers: seq<TextProvider>,
                                            newId: nat -> string, k: string)
    ensures HasKey(MigrateAll(configs, parsed, providers, newId), k) <==> HasKey(configs, k)
  {
    if parsed != [] {
      var n := |parsed| - 1;
      MigrateAllHasKey(configs, parsed[..n], providers, newId, k);
      MigrateEntryHasKey(MigrateAll(configs, parsed[..n], providers, newId), parsed[n].0, parsed[n].1, providers, newId(n), k);
    }
  }

  /** A provider without a stored record keeps the record it started with. */
  lemma {:induction false} MigrateAllUntouched(configs: EditorConfigs, parsed: StoredConfigs, providers: seq<TextProvider>,
                                               newId: nat -> string, k: string)
    requires forall i :: 0 <= i < |parsed| ==> parsed[i].0 != k
    ensures Get(MigrateAll(configs, parsed, providers, newId), k) == Get(configs, k)
  {
    if parsed != [] {
      var n := |parsed| - 1;
      MigrateAllUntouched(configs, parsed[..n], providers, newId, k);
      MigrateEntryOther(MigrateAll(configs, parsed[..n], providers, newId), parsed[n].0, parsed[n].1, providers, newId(n), k);
    }
  }

  /** With unique stored keys, a provider's record is decided by the step at its own key. */
  lemma {:induction false} MigrateAllAt(configs: EditorConfigs, parsed: StoredConfigs, providers: seq<TextProvider>,
                                        newId: nat -> string, i: nat)
    requires Unique(parsed) && i < |parsed|
    ensures Get(MigrateAll(configs, parsed, providers, newId), parsed[i].0)
         == Get(MigrateEntry(MigrateAll(configs, parsed[..i], providers, newId), parsed[i].0, parsed[i].1, providers, newId(i)),
                parsed[i].0)
  {
    var n := |parsed| - 1;
    var init := parsed[..n];
    if i < n {
      assert init[..i] == parsed[..i];
      assert init[i] == parsed[i];
      MigrateAllAt(configs, init, providers, newId, i);
      MigrateEntryOther(MigrateAll(configs, init, providers, newId), parsed[n].0, parsed[n].1, providers, newId(n), parsed[i].0);
    }
  }

  /**
   * After loading, a known provider whose stored record has the old format
   * holds exactly one instance. That instance is named '默认配置' and is the
   * default. Its address falls back to the provider's default address, and
   * its model list falls back to the single model or to none.
   */
  lemma MigratedLegacyIsDefault(providers: seq<TextProvider>, parsed: StoredConfigs, newId: nat -> string, i: nat)
    requires Unique(parsed) && i < |parsed|
    requires IsProviderId(providers, parsed[i].0) && IsLegacyConfig(parsed[i].1)
    ensures var key, stored := parsed[i].0, parsed[i].1;
      var inst := MigratedInstance(key, stored, providers, newId(i));
      && Get(LoadedConfigs(providers, Some(parsed), newId), key) == Some(ProviderConfig(key, [inst], inst.id))
      && inst.name == DefaultInstanceName
      && inst.baseUrl == (if stored.baseUrl != "" then stored.baseUrl else DefaultBaseUrl(providers, key))
      && inst.models == (if stored.models.Some? then stored.models.value
                         else if stored.model != "" then [stored.model] else [])
  {
    var key := parsed[i].0;
    var before := MigrateAll(FreshConfigs(providers), parsed[..i], providers, newId);
    FreshConfigsAre(providers, key);
    MigrateAllHasKey(FreshConfigs(providers), parsed[..i], providers, newId, key);
    MigrateAllAt(FreshConfigs(providers), parsed, providers, newId, i);
    PutGet(before, key, ProviderConfig(key, [MigratedInstance(key, parsed[i].1, providers, newId(i))], newId(i)));
  }

  /** A known provider whose stored record carries `instances` gets them, with its stored default. */
  lemma MigratedInstancesKept(providers: seq<TextProvider>, parsed: StoredConfigs, newId: nat -> string, i: nat)
    requires Unique(parsed) && i < |parsed|
    requires IsProviderId(providers, parsed[i].0)
    requires parsed[i].1.ProviderRecord? && parsed[i].1.instances.Some?
    ensures Get(LoadedConfigs(providers, Some(parsed), newId), parsed[i].0)
         == Some(ProviderConfig(parsed[i].0, parsed[i].1.instances.value, parsed[i].1.defaultInstanceId))
  {
    var key, stored := parsed[i].0, parsed[i].1;
    var before := MigrateAll(FreshConfigs(providers), parsed[..i], providers, newId);
    FreshConfigsAre(providers, key);
    MigrateAllHasKey(FreshConfigs(providers), parsed[..i], providers, newId, key);
    MigrateAllAt(FreshConfigs(providers), parsed, providers, newId, i);
    PutGet(before, key, ProviderConfig(key, stored.instances.value, stored.defaultInstanceId));
  }

  /** After loading there is a record for every known provider and for nothing else. */
  lemma LoadedKeysAreProviders(providers: seq<TextProvider>, parsed: Option<StoredConfigs>, newId: nat -> string, k: string)
    ensures HasKey(LoadedConfigs(providers, parsed, newId), k) <==> IsProviderId(providers, k)
  {
    FreshConfigsAre(providers, k);
    MigrateAllHasKey(FreshConfigs(providers), OrEmpty(parsed), providers, newId, k);
  }

  // ---------------------------------------------------------------------
  // The current instance and the key requirement
  // ---------------------------------------------------------------------

  /** `instances.find(inst => inst.id === id)`, as a position. */
  function FindInstance(instances: seq<Instance>, id: string): (r: Option<nat>)
    ensures r.None? <==> forall j :: 0 <= j < |instances| ==> instances[j].id != id
    ensures r.Some? ==> r.value < |instances| && instances[r.value].id == id
                        && forall j :: 0 <= j < r.value ==> instances[j].id != id
  {
    if instances == [] then None
    else if instances[0].id == id then Some(0)
    else match FindInstance(instances[1..], id)
      case None =>
        assert forall j :: 1 <= j < |instances| ==> instances[j] == instances[1..][j - 1];
        None
      case Some(j) => Some(j + 1)
  }

  /** Lists with the same ids position by position find an id at the same position. */
  lemma {:induction false} FindInstanceSameIds(a: seq<Instance>, b: seq<Instance>, id: string)
    requires |a| == |b| && forall i :: 0 <= i < |a| ==> a[i].id == b[i].id
    ensures FindInstance(a, id) == FindInstance(b, id)
  {
    if a != [] && a[0].id != id {
      FindInstanceSameIds(a[1..], b[1..], id);
    }
  }

  /** The id `getCurrentInstance` looks for: the selection, else the default, else the first instance's. */
  function WantedInstanceId(pc: ProviderConfig, selectedInstanceId: string): string
    requires pc.instances != []
  {
    if selectedInstanceId != "" then selectedInstanceId
    else if pc.defaultInstanceId != "" then pc.defaultInstanceId
    else pc.instances[0].id
  }

  /** The position of the current instance: the first one with the wanted id, else the first one. */
  function CurrentIndex(pc: ProviderConfig, selectedInstanceId: string): (r: nat)
    requires pc.instances != []
    ensures r < |pc.instances|
    ensures pc.instances[r].id == WantedInstanceId(pc, selectedInstanceId) || r == 0
    ensures forall j :: 0 <= j < r ==> pc.instances[j].id != WantedInstanceId(pc, selectedInstanceId)
  {
    match FindInstance(pc.instances, WantedInstanceId(pc, selectedInstanceId))
    case Some(i) => i
    case None => 0
  }

  /** `getCurrentInstance()`. */
  function CurrentInstance(configs: EditorConfigs, selectedProvider: string, selectedInstanceId: string): (r: Option<Instance>)
    ensures r.None? <==> ConfigOrEmpty(configs, selectedProvider).instances == []
    ensures r.Some? ==> r.value in ConfigOrEmpty(configs, selectedProvider).instances
  {
    var pc := ConfigOrEmpty(configs, selectedProvider);
    if pc.instances == [] then None else Some(pc.instances[CurrentIndex(pc, selectedInstanceId)])
  }

  /** Instance ids are pairwise distinct. */
  predicate DistinctIds(instances: seq<Instance>) {
    forall i, j :: 0 <= i < j < |instances| ==> instances[i].id != instances[j].id
  }

  /**
   * The instance whose id is the wanted one (the selection, else the
   * default) is the current one; when no instance has the wanted id, the
   * first instance is.
   */
  lemma CurrentIsWanted(configs: EditorConfigs, selectedProvider: string, selectedInstanceId: string, i: nat)
    requires var pc := ConfigOrEmpty(configs, selectedProvider);
      && i < |pc.instances| && DistinctIds(pc.instances)
      && pc.instances[i].id == WantedInstanceId(pc, selectedInstanceId)
    ensures CurrentInstance(configs, selectedProvider, selectedInstanceId) == Some(ConfigOrEmpty(configs, selectedProvider).instances[i])
  {
  }

  lemma CurrentFallsBackToFirst(configs: EditorConfigs, selectedProvider: string, selectedInstanceId: string)
    requires var pc := ConfigOrEmpty(configs, selectedProvider);
      && pc.instances != []
      && forall j :: 0 <= j < |pc.instances| ==> pc.instances[j].id != WantedInstanceId(pc, selectedInstanceId)
    ensures CurrentInstance(configs, selectedProvider, selectedInstanceId) == Some(ConfigOrEmpty(configs, selectedProvider).instances[0])
  {
  }

  /** Rewriting instances without changing ids or the wanted id keeps the current position. */
  lemma CurrentIndexSameIds(pc: ProviderConfig, pc': ProviderConfig, selectedInstanceId: string)
    requires pc.instances != [] && |pc'.instances| == |pc.instances|
    requires forall i :: 0 <= i < |pc.instances| ==> pc'.instances[i].id == pc.instances[i].id
    requires WantedInstanceId(pc', selectedInstanceId) == WantedInstanceId(pc, selectedInstanceId)
    ensures CurrentIndex(pc', selectedInstanceId) == CurrentIndex(pc, selectedInstanceId)
  {
    FindInstanceSameIds(pc.instances, pc'.instances, WantedInstanceId(pc, selectedInstanceId));
  }

  /**
   * `requiresApiKey()`: a key is required when the provider demands one and
   * the instance talks to the provider's default address, or has no address.
   * A custom address, such as a local server, needs no key.
   */
  function RequiresApiKey(instance: Option<Instance>, provider: Option<TextProvider>): (r: bool)
    ensures r ==> instance.Some? && provider.Some? && provider.value.requiresApiKey
    ensures (instance.Some? && provider.Some? && instance.value.baseUrl != ""
             && instance.value.baseUrl != provider.value.defaultBaseURL) ==> !r
    ensures (instance.Some? && provider.Some? && provider.value.requiresApiKey
             && (instance.value.baseUrl == "" || instance.value.baseUrl == provider.value.defaultBaseURL)) ==> r
  {
    if instance.None? || provider.None? then false
    else
      var custom := instance.value.baseUrl != "" && instance.value.baseUrl != provider.value.defaultBaseURL;
      provider.value.requiresApiKey && !custom
  }

  // ---------------------------------------------------------------------
  // Instance edits
  // ---------------------------------------------------------------------

  /** `x => x !== id` */
  function IsNot(id: string): string -> bool {
    (x: string) => x != id
  }

  /** The model list after a click on `id`: a selected id is removed everywhere, an unselected one appended. */
  function Toggled(models: seq<string>, id: string): (r: seq<string>)
    ensures id in models ==> id !in r && forall x :: x in r <==> x in models && x != id
    ensures id !in models ==> r == models + [id]
  {
    if id in models then Seqs.Filter(models, IsNot(id)) else models + [id]
  }

  /** Clicking an unselected model twice gives back the original list. */
  lemma ToggleTwice(models: seq<string>, id: string)
    requires id !in models
    ensures Toggled(Toggled(models, id), id) == models
  {
    assert id in models + [id];
    Seqs.FilterSnoc(models, id, IsNot(id));
    assert forall i :: 0 <= i < |models| ==> IsNot(id)(models[i]);
    Seqs.FilterAll(models, IsNot(id));
  }

  /** The instance with a new model list; its `model` becomes the first selected id, or empty. */
  function WithModels(inst: Instance, models: seq<string>): Instance {
    inst.(models := models, model := if models != [] then models[0] else "")
  }

  /** Every instance with the id gets the new model list; the others are kept as they are. */
  function SetModelsWhere(instances: seq<Instance>, id: string, models: seq<string>): (r: seq<Instance>)
    ensures |r| == |instances|
    ensures forall i :: 0 <= i < |r| ==> r[i].id == instances[i].id
    ensures forall i :: 0 <= i < |r| && instances[i].id != id ==> r[i] == instances[i]
    ensures forall i :: 0 <= i < |r| && instances[i].id == id ==> r[i] == WithModels(instances[i], models)
  {
    seq(|instances|, i requires 0 <= i < |instances| =>
      if instances[i].id == id then WithModels(instances[i], models) else instances[i])
  }

  /** `handleModelToggle(modelId)` on the whole record; without a current instance nothing changes. */
  function ToggleConfigs(configs: EditorConfigs, selectedProvider: string, selectedInstanceId: string,
                         modelId: string): EditorConfigs
  {
    match CurrentInstance(configs, selectedProvider, selectedInstanceId)
    case None => configs
    case Some(cur) =>
      var pc := ConfigOrEmpty(configs, selectedProvider);
      Put(configs, selectedProvider,
          pc.(instances := SetModelsWhere(pc.instances, cur.id, Toggled(cur.models, modelId))))
  }

  /**
   * A click changes the current instance's model list as `Toggled` says,
   * and its `model` becomes the first selected id. Other providers' records
   * do not change.
   */
  lemma ToggleUpdatesCurrent(configs: EditorConfigs, selectedProvider: string, selectedInstanceId: string, modelId: string)
    requires CurrentInstance(configs, selectedProvider, selectedInstanceId).Some?
    ensures var cur := CurrentInstance(configs, selectedProvider, selectedInstanceId).value;
      var after := ToggleConfigs(configs, selectedProvider, selectedInstanceId, modelId);
      && CurrentInstance(after, selectedProvider, selectedInstanceId) == Some(WithModels(cur, Toggled(cur.models, modelId)))
      && forall k :: k != selectedProvider ==> Get(after, k) == Get(configs, k)
  {
    var cur := CurrentInstance(configs, selectedProvider, selectedInstanceId).value;
    var pc := ConfigOrEmpty(configs, selectedProvider);
    var pc' := pc.(instances := SetModelsWhere(pc.instances, cur.id, Toggled(cur.models, modelId)));
    PutGet(configs, selectedProvider, pc');
    assert ConfigOrEmpty(ToggleConfigs(configs, selectedProvider, selectedInstanceId, modelId), selectedProvider) == pc';
    CurrentIndexSameIds(pc, pc', selectedInstanceId);
  }

  /** Two clicks on a model the current instance did not select give back its model list. */
  lemma ToggleTwiceRestoresModels(configs: EditorConfigs, selectedProvider: string, selectedInstanceId: string,
                                  modelId: string)
    requires CurrentInstance(configs, selectedProvider, selectedInstanceId).Some?
    requires modelId !in CurrentInstance(configs, selectedProvider, selectedInstanceId).value.models
    ensures var once := ToggleConfigs(configs, selectedProvider, selectedInstanceId, modelId);
      var twice := ToggleConfigs(once, selectedProvider, selectedInstanceId, modelId);
      && CurrentInstance(twice, selectedProvider, selectedInstanceId).Some?
      && CurrentInstance(twice, selectedProvider, selectedInstanceId).value.models
         == CurrentInstance(configs, selectedProvider, selectedInstanceId).value.models
  {
    var cur := CurrentInstance(configs, selectedProvider, selectedInstanceId).value;
    ToggleUpdatesCurrent(configs, selectedProvider, selectedInstanceId, modelId);
    ToggleUpdatesCurrent(ToggleConfigs(configs, selectedProvider, selectedInstanceId, modelId),
                         selectedProvider, selectedInstanceId, modelId);
    ToggleTwice(cur.models, modelId);
  }

  /** The instance `handleAddInstance` creates when the provider already has `count` instances. */
  function NewInstance(providers: seq<TextProvider>, providerId: string, count: nat, instanceId: string): Instance {
    Instance(instanceId, "配置 " + NatToString(count + 1), "", DefaultBaseUrl(providers, providerId), "", [], map[])
  }

  /** `handleAddInstance` on the record: the new instance is appended and made the default. */
  function AddInstanceConfigs(configs: EditorConfigs, providers: seq<TextProvider>, selectedProvider: string,
                              instanceId: string): EditorConfigs
  {
    var pc := ConfigOrEmpty(configs, selectedProvider);
    Put(configs, selectedProvider,
        pc.(instances := pc.instances + [NewInstance(providers, selectedProvider, |pc.instances|, instanceId)],
            defaultInstanceId := instanceId))
  }

  /**
   * With a fresh id, the added instance is the current one once it is
   * selected. It is also the default, and it is appended after the earlier
   * instances. Other providers' records do not change.
   */
  lemma AddedInstanceIsCurrent(configs: EditorConfigs, providers: seq<TextProvider>, selectedProvider: string,
                               instanceId: string)
    requires instanceId != ""
    requires var pc := ConfigOrEmpty(configs, selectedProvider);
      forall j :: 0 <= j < |pc.instances| ==> pc.instances[j].id != instanceId
    ensures var pc := ConfigOrEmpty(configs, selectedProvider);
      var after := AddInstanceConfigs(configs, providers, selectedProvider, instanceId);
      var pc' := ConfigOrEmpty(after, selectedProvider);
      && CurrentInstance(after, selectedProvider, instanceId)
         == Some(NewInstance(providers, selectedProvider, |pc.instances|, instanceId))
      && pc'.instances == pc.instances + [NewInstance(providers, selectedProvider, |pc.instances|, instanceId)]
      && pc'.defaultInstanceId == instanceId
      && forall k :: k != selectedProvider ==> Get(after, k) == Get(configs, k)
  {
    var pc := ConfigOrEmpty(configs, selectedProvider);
    var n := |pc.instances|;
    var pc' := pc.(instances := pc.instances + [NewInstance(providers, selectedProvider, n, instanceId)],
                   defaultInstanceId := instanceId);
    PutGet(configs, selectedProvider, pc');
    assert pc'.instances[n].id == instanceId;
  }

  /** `inst => inst.id !== id` */
  function IsOtherInstance(id: string): Instance -> bool {
    (inst: Instance) => inst.id != id
  }

  /**
   * `handleDeleteInstance` on the record once the deletion is confirmed:
   * the instance is removed and the default becomes the first remaining
   * instance.
   */
  function DeleteInstanceConfigs(configs: EditorConfigs, selectedProvider: string, instanceId: string): EditorConfigs {
    var pc := ConfigOrEmpty(configs, selectedProvider);
    var rest := Seqs.Filter(pc.instances, IsOtherInstance(instanceId));
    Put(configs, selectedProvider, pc.(instances := rest, defaultInstanceId := FirstIdOrEmpty(rest)))
  }

  /** The first instance's id, or empty when there is none. */
  function FirstIdOrEmpty(instances: seq<Instance>): string {
    if instances != [] then instances[0].id else ""
  }

  /** With distinct ids, removing one id removes at most one instance. */
  lemma {:induction false} RemoveOneInstance(instances: seq<Instance>, id: string)
    requires DistinctIds(instances)
    ensures |Seqs.Filter(instances, IsOtherInstance(id))| >= |instances| - 1
  {
    if instances != [] {
      var rest := instances[1..];
      assert DistinctIds(rest) by {
        forall i, j | 0 <= i < j < |rest| ensures rest[i].id != rest[j].id {
          assert rest[i] == instances[i + 1] && rest[j] == instances[j + 1];
        }
      }
      if instances[0].id == id {
        assert forall i :: 0 <= i < |rest| ==> IsOtherInstance(id)(rest[i]) by {
          forall i | 0 <= i < |rest| ensures rest[i].id != id {
            assert rest[i] == instances[i + 1];
          }
        }
        Seqs.FilterAll(rest, IsOtherInstance(id));
      } else {
        RemoveOneInstance(rest, id);
      }
    }
  }

  /**
   * Deleting from a provider with at least two distinctly named instances
   * leaves at least one. None of the remaining instances has the deleted id,
   * every other instance stays, and the first one becomes the default.
   */
  lemma DeleteKeepsAnInstance(configs: EditorConfigs, selectedProvider: string, instanceId: string)
    requires var pc := ConfigOrEmpty(configs, selectedProvider);
      |pc.instances| >= 2 && DistinctIds(pc.instances)
    ensures var pc := ConfigOrEmpty(configs, selectedProvider);
      var pc' := ConfigOrEmpty(DeleteInstanceConfigs(configs, selectedProvider, instanceId), selectedProvider);
      && pc'.instances != []
      && (forall j :: 0 <= j < |pc'.instances| ==> pc'.instances[j].id != instanceId)
      && (forall inst :: inst in pc.instances && inst.id != instanceId ==> inst in pc'.instances)
      && pc'.defaultInstanceId == pc'.instances[0].id
  {
    var pc := ConfigOrEmpty(configs, selectedProvider);
    var rest := Seqs.Filter(pc.instances, IsOtherInstance(instanceId));
    RemoveOneInstance(pc.instances, instanceId);
    PutGet(configs, selectedProvider, pc.(instances := rest, defaultInstanceId := rest[0].id));
  }

  // ---------------------------------------------------------------------
  // Saving
  // ---------------------------------------------------------------------

  /** `availableModels.find(m => m.id === id)`. */
  function FindEntry(available: seq<ModelService.ModelEntry>, id: string): (r: Option<ModelService.ModelEntry>)
    ensures r.None? <==> forall i :: 0 <= i < |available| ==> available[i].id != id
    ensures r.Some? ==> r.value.id == id && r.value in available
  {
    if available == [] then None
    else if available[0].id == id then Some(available[0])
    else
      assert forall i :: 1 <= i < |available| ==> available[i] == available[1..][i - 1];
      FindEntry(available[1..], id)
  }

  /**
   * The message `handleSave` refuses with, if any. Saving needs a current
   * instance, a non-blank key where one is required, and at least one
   * selected model.
   */
  function SaveRefusal(cur: Option<Instance>, provider: Option<TextProvider>): (r: Option<string>)
    ensures r.None? <==> cur.Some? && cur.value.models != [] && !(RequiresApiKey(cur, provider) && IsBlank(cur.value.apiKey))
    ensures cur.None? ==> r == Some("请先添加配置实例")
    ensures cur.Some? && RequiresApiKey(cur, provider) && IsBlank(cur.value.apiKey) ==> r == Some("请输入 API Key")
  {
    if cur.None? then Some("请先添加配置实例")
    else if RequiresApiKey(cur, provider) && Trim(cur.value.apiKey) == "" then Some("请输入 API Key")
    else if cur.value.models == [] then Some("请至少选择一个模型")
    else None
  }

  /** The capability record the save builds: one entry per selected model found in the fetched list. */
  function SavedCapabilities(models: seq<string>, available: seq<ModelService.ModelEntry>): map<string, bool>
  {
    if models == [] then map[]
    else
      var prev := SavedCapabilities(models[..|models| - 1], available);
      var m := models[|models| - 1];
      match FindEntry(available, m)
      case Some(e) => prev[m := e.supportsVision]
      case None => prev
  }

  /**
   * A model has a saved capability exactly when it is selected and present
   * in the fetched list, and the capability is the fetched one.
   */
  lemma {:induction false} SavedCapabilitiesAre(models: seq<string>, available: seq<ModelService.ModelEntry>, k: string)
    ensures k in SavedCapabilities(models, available) <==> k in models && FindEntry(available, k).Some?
    ensures k in SavedCapabilities(models, available) ==>
      SavedCapabilities(models, available)[k] == FindEntry(available, k).value.supportsVision
  {
    if models != [] {
      var init := models[..|models| - 1];
      SavedCapabilitiesAre(init, available, k);
      assert models == init + [models[|models| - 1]];
    }
  }

  /**
   * The configuration the save stores in the model manager for one selected
   * id. The model manager's id is the trimmed id under the store-id rule, and
   * the id passed to the API is the trimmed id itself. The name is the
   * fetched name, or the trimmed id when that is empty. Vision support comes
   * from the fetched list. The connection is the instance's.
   */
  function SyncedConfig(providerId: string, provider: TextProvider, inst: Instance,
                        available: seq<ModelService.ModelEntry>, modelId: string): (r: TextModelConfig)
    ensures r.modelMeta.id == Trim(modelId) && r.id == StoreId(providerId, r.modelMeta.id)
    ensures r.name == r.modelMeta.name && (r.name == "" ==> IsBlank(modelId))
    ensures r.modelMeta.capabilities.supportsVision
            == Some(FindEntry(available, modelId).Some? && FindEntry(available, modelId).value.supportsVision)
    ensures r.enabled && r.providerMeta == provider && r.modelMeta.providerId == providerId
    ensures r.connectionConfig == ConnectionConfig(Some(inst.apiKey), Some(inst.baseUrl))
  {
    var trimmed := Trim(modelId);
    var def := FindEntry(available, modelId);
    var name := if def.Some? && def.value.name != "" then def.value.name else trimmed;
    TextModelConfig(
      StoreId(providerId, trimmed), name, true, provider,
      TextModel(trimmed, name, None, providerId,
                Capabilities(false, Some(def.Some? && def.value.supportsVision), None, Some(128000))),
      ConnectionConfig(Some(inst.apiKey), Some(inst.baseUrl)),
      None)
  }

  /** The configurations the save stores, one per selected id, in selection order. */
  function SyncedConfigs(providerId: string, provider: TextProvider, inst: Instance,
                         available: seq<ModelService.ModelEntry>): (r: seq<TextModelConfig>)
    ensures |r| == |inst.models|
    ensures forall i :: 0 <= i < |r| ==> r[i] == SyncedConfig(providerId, provider, inst, available, inst.models[i])
  {
    seq(|inst.models|, i requires 0 <= i < |inst.models| => SyncedConfig(providerId, provider, inst, available, inst.models[i]))
  }

  /** The model manager's storage after `saveModel` for each configuration in turn. */
  function SaveAll(items: map<string, string>, cs: seq<TextModelConfig>, codec: Codec<seq<TextModelConfig>>): map<string, string>
  {
    if cs == [] then items
    else
      var prev := SaveAll(items, cs[..|cs| - 1], codec);
      var stored := OrEmpty(Stored(prev, ModelManagers.StorageKey, codec, false));
      prev[ModelManagers.StorageKey := codec.encode(ModelManagers.Upsert(stored, cs[|cs| - 1]))]
  }

  /** Copying one more configuration is one more `saveModel`. */
  lemma SaveAllStep(items: map<string, string>, cs: seq<TextModelConfig>, codec: Codec<seq<TextModelConfig>>, i: nat)
    requires i < |cs|
    ensures var prev := SaveAll(items, cs[..i], codec);
      SaveAll(items, cs[..i + 1], codec)
      == prev[ModelManagers.StorageKey := codec.encode(ModelManagers.Upsert(
                OrEmpty(Stored(prev, ModelManagers.StorageKey, codec, false)), cs[i]))]
  {
    Seqs.TakeSnoc(cs, i);
  }

  /** The model manager's storage after the save's copy step; the copy is skipped for an unknown provider. */
  function SyncedItems(items: map<string, string>, providerId: string, provider: Option<TextProvider>, inst: Instance,
                       available: seq<ModelService.ModelEntry>, codec: Codec<seq<TextModelConfig>>): map<string, string>
  {
    match provider
    case None => items
    case Some(p) => SaveAll(items, SyncedConfigs(providerId, p, inst, available), codec)
  }

  /** The copy step writes the model manager's key and no other. */
  lemma {:induction false} SaveAllOtherKeys(items: map<string, string>, cs: seq<TextModelConfig>,
                                            codec: Codec<seq<TextModelConfig>>, k: string)
    requires k != ModelManagers.StorageKey
    ensures k in SaveAll(items, cs, codec) <==> k in items
    ensures k in items ==> SaveAll(items, cs, codec)[k] == items[k]
  {
    if cs != [] {
      SaveAllOtherKeys(items, cs[..|cs| - 1], codec, k);
    }
  }

  /**
   * When the codec round-trips, every configuration copied is found under
   * its id afterwards, unless a later copy has the same id.
   */
  lemma {:induction false} SavedModelsFound(items: map<string, string>, cs: seq<TextModelConfig>,
                                            codec: Codec<seq<TextModelConfig>>, i: nat)
    requires forall v :: RoundTrips(codec, v)
    requires i < |cs| && forall j :: i < j < |cs| ==> cs[j].id != cs[i].id
    ensures ModelManagers.FindModel(ReadValue(SaveAll(items, cs, codec), ModelManagers.StorageKey, [], codec, false), cs[i].id)
            == Some(cs[i])
  {
    var n := |cs| - 1;
    var init := cs[..n];
    var prev := SaveAll(items, init, codec);
    var stored := OrEmpty(Stored(prev, ModelManagers.StorageKey, codec, false));
    assert RoundTrips(codec, ModelManagers.Upsert(stored, cs[n]));
    if i == n {
      ModelManagers.SaveThenGetModel(prev, codec, cs[n], false, cs[n].id + "'");
    } else {
      assert init[i] == cs[i];
      SavedModelsFound(items, init, codec, i);
      ModelManagers.SaveThenGetModel(prev, codec, cs[n], false, cs[i].id);
    }
  }

  /** Every instance with the id is replaced by `inst`; the others are kept. */
  function ReplaceWhere(instances: seq<Instance>, id: string, inst: Instance): (r: seq<Instance>)
    ensures |r| == |instances|
    ensures forall i :: 0 <= i < |r| && instances[i].id != id ==> r[i] == instances[i]
    ensures forall i :: 0 <= i < |r| && instances[i].id == id ==> r[i] == inst
  {
    seq(|instances|, i requires 0 <= i < |instances| => if instances[i].id == id then inst else instances[i])
  }

  /** The save's last pass: every provider without a record gets an empty one. */
  function EnsureProviders(configs: EditorConfigs, providers: seq<TextProvider>): EditorConfigs
  {
    if providers == [] then configs
    else
      var prev := EnsureProviders(configs, providers[..|providers| - 1]);
      var p := providers[|providers| - 1];
      if HasKey(prev, p.id) then prev else Put(prev, p.id, EmptyConfig(p.id))
  }

  /** The pass keeps every existing record. */
  lemma {:induction false} EnsureProvidersKeeps(configs: EditorConfigs, providers: seq<TextProvider>, k: string)
    requires HasKey(configs, k)
    ensures HasKey(EnsureProviders(configs, providers), k)
    ensures Get(EnsureProviders(configs, providers), k) == Get(configs, k)
  {
    if providers != [] {
      var init := providers[..|providers| - 1];
      var p := providers[|providers| - 1];
      var prev := EnsureProviders(configs, init);
      EnsureProvidersKeeps(configs, init, k);
      if !HasKey(prev, p.id) {
        PutGet(prev, p.id, EmptyConfig(p.id));
        PutHasKey(prev, p.id, EmptyConfig(p.id), k);
      }
    }
  }

  /** The pass leaves a record for every provider. */
  lemma {:induction false} EnsureProvidersAdds(configs: EditorConfigs, providers: seq<TextProvider>, i: nat)
    requires i < |providers|
    ensures HasKey(EnsureProviders(configs, providers), providers[i].id)
  {
    var n := |providers| - 1;
    var init := providers[..n];
    var p := providers[n];
    var prev := EnsureProviders(configs, init);
    if i < n {
      assert init[i] == providers[i];
      EnsureProvidersAdds(configs, init, i);
      if !HasKey(prev, p.id) {
        PutHasKey(prev, p.id, EmptyConfig(p.id), providers[i].id);
      }
    } else if !HasKey(prev, p.id) {
      PutHasKey(prev, p.id, EmptyConfig(p.id), p.id);
    }
  }

  /** The provider's record as the save writes it, before the last pass. */
  function SavedProviderConfig(configs: EditorConfigs, selectedProvider: string, cur: Instance,
                               caps: map<string, bool>): ProviderConfig
  {
    var pc := ConfigOrEmpty(configs, selectedProvider);
    ProviderConfig(selectedProvider, ReplaceWhere(pc.instances, cur.id, cur.(modelCapabilities := caps)),
                   if pc.defaultInstanceId != "" then pc.defaultInstanceId else cur.id)
  }

  /** The records `handleSave` stores under `modelConfigs`. */
  function SavedConfigs(configs: EditorConfigs, providers: seq<TextProvider>, selectedProvider: string, cur: Instance,
                        caps: map<string, bool>): EditorConfigs
  {
    EnsureProviders(Put(configs, selectedProvider, SavedProviderConfig(configs, selectedProvider, cur, caps)), providers)
  }

  /**
   * After saving, the current instance is the one that was current, now
   * carrying the saved capabilities. The provider's default is kept, or set
   * to that instance when there was none.
   */
  lemma SaveUpdatesCurrent(configs: EditorConfigs, providers: seq<TextProvider>, selectedProvider: string,
                           selectedInstanceId: string, caps: map<string, bool>)
    requires CurrentInstance(configs, selectedProvider, selectedInstanceId).Some?
    ensures var cur := CurrentInstance(configs, selectedProvider, selectedInstanceId).value;
      var pc := ConfigOrEmpty(configs, selectedProvider);
      var saved := SavedConfigs(configs, providers, selectedProvider, cur, caps);
      && CurrentInstance(saved, selectedProvider, selectedInstanceId) == Some(cur.(modelCapabilities := caps))
      && ConfigOrEmpty(saved, selectedProvider).defaultInstanceId
         == (if pc.defaultInstanceId != "" then pc.defaultInstanceId else cur.id)
  {
    var cur := CurrentInstance(configs, selectedProvider, selectedInstanceId).value;
    var pc := ConfigOrEmpty(configs, selectedProvider);
    var updated := SavedProviderConfig(configs, selectedProvider, cur, caps);
    var put := Put(configs, selectedProvider, updated);
    PutGet(configs, selectedProvider, updated);
    PutHasKey(configs, selectedProvider, updated, selectedProvider);
    EnsureProvidersKeeps(put, providers, selectedProvider);
    assert ConfigOrEmpty(SavedConfigs(configs, providers, selectedProvider, cur, caps), selectedProvider) == updated;
    var k := CurrentIndex(pc, selectedInstanceId);
    assert pc.instances[k].id == pc.instances[0].id || selectedInstanceId != "" || pc.defaultInstanceId != "";
    assert updated.instances[0].id == pc.instances[0].id;
    CurrentIndexSameIds(pc, updated, selectedInstanceId);
  }

  /** After saving every provider has a record, and other providers' records are unchanged. */
  lemma SaveCoversProviders(configs: EditorConfigs, providers: seq<TextProvider>, selectedProvider: string, cur: Instance,
                            caps: map<string, bool>, k: string)
    ensures var saved := SavedConfigs(configs, providers, selectedProvider, cur, caps);
      && (IsProviderId(providers, k) ==> HasKey(saved, k))
      && (k != selectedProvider && HasKey(configs, k) ==> Get(saved, k) == Get(configs, k))
  {
    var put := Put(configs, selectedProvider, SavedProviderConfig(configs, selectedProvider, cur, caps));
    PutGet(configs, selectedProvider, SavedProviderConfig(configs, selectedProvider, cur, caps));
    PutHasKey(configs, selectedProvider, SavedProviderConfig(configs, selectedProvider, cur, caps), k);
    if IsProviderId(providers, k) {
      var i :| 0 <= i < |providers| && providers[i].id == k;
      EnsureProvidersAdds(put, providers, i);
    }
    if HasKey(put, k) {
      EnsureProvidersKeeps(put, providers, k);
    }
  }

  // ---------------------------------------------------------------------
  // Loops of the editor
  // ---------------------------------------------------------------------

  /** The loader's first `forEach`: an empty record per provider. */
  method InitialConfigs(providers: seq<TextProvider>) returns (configs: EditorConfigs)
    ensures configs == FreshConfigs(providers)
  {
    configs := [];
    for i := 0 to |providers|
      invariant configs == FreshConfigs(providers[..i])
    {
      Seqs.TakeSnoc(providers, i);
      configs := Put(configs, providers[i].id, EmptyConfig(providers[i].id));
    }
    Seqs.TakeAll(providers);
  }

  /** The loader's pass over the stored keys. */
  method MigrateStored(initial: EditorConfigs, parsed: StoredConfigs, providers: seq<TextProvider>, newId: nat -> string)
    returns (configs: EditorConfigs)
    ensures configs == MigrateAll(initial, parsed, providers, newId)
  {
    configs := initial;
    for i := 0 to |parsed|
      invariant configs == MigrateAll(initial, parsed[..i], providers, newId)
    {
      Seqs.TakeSnoc(parsed, i);
      var key, stored := parsed[i].0, parsed[i].1;
      if HasKey(configs, key) && stored.ProviderRecord? {
        if IsLegacyConfig(stored) {
          var instanceId := newId(i);
          configs := Put(configs, key, ProviderConfig(key, [MigratedInstance(key, stored, providers, instanceId)], instanceId));
        } else if stored.instances.Some? {
          configs := Put(configs, key, ProviderConfig(key, stored.instances.value, stored.defaultInstanceId));
        }
      }
    }
    Seqs.TakeAll(parsed);
  }

  /** The save's capability loop. */
  method CollectCapabilities(models: seq<string>, available: seq<ModelService.ModelEntry>) returns (caps: map<string, bool>)
    ensures caps == SavedCapabilities(models, available)
  {
    caps := map[];
    for i := 0 to |models|
      invariant caps == SavedCapabilities(models[..i], available)
    {
      Seqs.TakeSnoc(models, i);
      var model := FindEntry(available, models[i]);
      if model.Some? {
        caps := caps[models[i] := model.value.supportsVision];
      }
    }
    Seqs.TakeAll(models);
  }

  /** The save's copy loop: one `saveModel` per selected id. */
  method SyncModels(manager: ModelManagers.LocalStorageModelManager, providerId: string, provider: TextProvider,
                    inst: Instance, available: seq<ModelService.ModelEntry>)
    modifies manager.storage
    ensures manager.storage.items == SyncedItems(old(manager.storage.items), providerId, Some(provider), inst, available,
                                                 manager.codec)
  {
    ghost var start := manager.storage.items;
    ghost var cs := SyncedConfigs(providerId, provider, inst, available);
    for i := 0 to |inst.models|
      invariant manager.storage.items == SaveAll(start, cs[..i], manager.codec)
    {
      var config := SyncedConfig(providerId, provider, inst, available, inst.models[i]);
      assert config == cs[i];
      SaveAllStep(start, cs, manager.codec, i);
      var _ := manager.SaveModel(config, false, None);
    }
    assert cs[..|inst.models|] == cs;
  }

  /** The copy step of the save, skipped for an unknown provider. */
  method SyncSelected(manager: ModelManagers.LocalStorageModelManager, providerId: string, provider: Option<TextProvider>,
                      inst: Instance, available: seq<ModelService.ModelEntry>)
    modifies manager.storage
    ensures manager.storage.items == SyncedItems(old(manager.storage.items), providerId, provider, inst, available,
                                                 manager.codec)
  {
    if provider.Some? {
      SyncModels(manager, providerId, provider.value, inst, available);
    }
  }

  /** The records the save stores: the current provider's record replaced, then every provider added. */
  method BuildSavedConfigs(configs: EditorConfigs, providers: seq<TextProvider>, selectedProvider: string, cur: Instance,
                           caps: map<string, bool>) returns (r: EditorConfigs)
    ensures r == SavedConfigs(configs, providers, selectedProvider, cur, caps)
  {
    r := Put(configs, selectedProvider, SavedProviderConfig(configs, selectedProvider, cur, caps));
    r := AddMissingProviders(r, providers);
  }

  /** The save's last loop. */
  method AddMissingProviders(configs: EditorConfigs, providers: seq<TextProvider>) returns (r: EditorConfigs)
    ensures r == EnsureProviders(configs, providers)
  {
    r := configs;
    for i := 0 to |providers|
      invariant r == EnsureProviders(configs, providers[..i])
    {
      Seqs.TakeSnoc(providers, i);
      if !HasKey(r, providers[i].id) {
        r := Put(r, providers[i].id, EmptyConfig(providers[i].id));
      }
    }
    Seqs.TakeAll(providers);
  }

  /** What `handleDeleteInstance` did. */
  datatype DeleteOutcome = NoCurrentInstance | KeepsLastInstance | DeleteCancelled | InstanceDeleted

  // ---------------------------------------------------------------------
  // The editor
  // ---------------------------------------------------------------------

  /** The editor's state: the provider list, the selections, the records and the fetched model list. */
  class ModelConfigEditor {
    var providers: seq<TextProvider>
    var selectedProvider: string
    var selectedInstanceId: string
    var configs: EditorConfigs
    var availableModels: seq<ModelService.ModelEntry>
    /** The browser storage that holds `modelConfigs`. */
    const storage: StorageAdapter

    /** The first provider is selected, no instance is, and there are no records yet. */
    constructor(initialProviders: seq<TextProvider>, storage: StorageAdapter)
      ensures providers == initialProviders && configs == [] && availableModels == [] && selectedInstanceId == ""
      ensures selectedProvider == (if initialProviders != [] then initialProviders[0].id else "")
      ensures this.storage == storage
    {
      providers := initialProviders;
      selectedProvider := if initialProviders != [] then initialProviders[0].id else "";
      selectedInstanceId := "";
      configs := [];
      availableModels := [];
      this.storage := storage;
    }

    /** `getCurrentInstance()` on the editor's state. */
    function Current(): Option<Instance>
      reads this
    {
      CurrentInstance(configs, selectedProvider, selectedInstanceId)
    }

    /**
     * `loadProviders`: every provider starts with an empty record, then the
     * parsed `modelConfigs` value (none when it is missing or does not parse)
     * is migrated in, and the first provider is selected if none is.
     */
    method LoadProviders(providerList: seq<TextProvider>, parsed: Option<StoredConfigs>, newId: nat -> string)
      modifies this
      ensures providers == providerList
      ensures configs == LoadedConfigs(providerList, parsed, newId)
      ensures selectedProvider
              == (if providerList != [] && old(selectedProvider) == "" then providerList[0].id else old(selectedProvider))
      ensures selectedInstanceId == old(selectedInstanceId) && availableModels == old(availableModels)
    {
      providers := providerList;
      var initial := InitialConfigs(providerList);
      if parsed.Some? {
        initial := MigrateStored(initial, parsed.value, providerList, newId);
      }
      configs := initial;
      if |providerList| > 0 && selectedProvider == "" {
        selectedProvider := providerList[0].id;
      }
    }

    /** `handleModelToggle(modelId)`. */
    method HandleModelToggle(modelId: string)
      modifies this
      ensures configs == ToggleConfigs(old(configs), selectedProvider, selectedInstanceId, modelId)
      ensures providers == old(providers) && selectedProvider == old(selectedProvider)
      ensures selectedInstanceId == old(selectedInstanceId) && availableModels == old(availableModels)
    {
      var cur := CurrentInstance(configs, selectedProvider, selectedInstanceId);
      if cur.Some? {
        var currentModels := cur.value.models;
        var updatedModels := if modelId in currentModels then Seqs.Filter(currentModels, IsNot(modelId))
                             else currentModels + [modelId];
        var pc := ConfigOrEmpty(configs, selectedProvider);
        configs := Put(configs, selectedProvider, pc.(instances := SetModelsWhere(pc.instances, cur.value.id, updatedModels)));
      }
    }

    /** `handleAddInstance()`, with `instanceId` the generated id. */
    method HandleAddInstance(instanceId: string)
      modifies this
      ensures configs == AddInstanceConfigs(old(configs), providers, selectedProvider, instanceId)
      ensures selectedInstanceId == instanceId
      ensures providers == old(providers) && selectedProvider == old(selectedProvider)
      ensures availableModels == old(availableModels)
    {
      var pc := ConfigOrEmpty(configs, selectedProvider);
      var newInstance := NewInstance(providers, selectedProvider, |pc.instances|, instanceId);
      configs := Put(configs, selectedProvider,
                     pc.(instances := pc.instances + [newInstance], defaultInstanceId := newInstance.id));
      selectedInstanceId := newInstance.id;
    }

    /**
     * `handleDeleteInstance(instanceId)`, with `confirmed` the user's answer
     * to the confirmation. The last instance is never deleted. The selection
     * moves to the new default only when the deleted instance was selected.
     */
    method HandleDeleteInstance(instanceId: string, confirmed: bool) returns (outcome: DeleteOutcome)
      modifies this
      ensures var pc := ConfigOrEmpty(old(configs), selectedProvider);
        outcome == (if CurrentInstance(old(configs), selectedProvider, old(selectedInstanceId)).None? then NoCurrentInstance
                    else if |pc.instances| <= 1 then KeepsLastInstance
                    else if !confirmed then DeleteCancelled
                    else InstanceDeleted)
      ensures outcome != InstanceDeleted ==> configs == old(configs) && selectedInstanceId == old(selectedInstanceId)
      ensures outcome == InstanceDeleted ==>
        var rest := Seqs.Filter(ConfigOrEmpty(old(configs), selectedProvider).instances, IsOtherInstance(instanceId));
        && configs == DeleteInstanceConfigs(old(configs), selectedProvider, instanceId)
        && selectedInstanceId == (if old(selectedInstanceId) == instanceId then FirstIdOrEmpty(rest) else old(selectedInstanceId))
      ensures providers == old(providers) && selectedProvider == old(selectedProvider)
      ensures availableModels == old(availableModels)
    {
      if CurrentInstance(configs, selectedProvider, selectedInstanceId).None? {
        return NoCurrentInstance;
      }
      var pc := ConfigOrEmpty(configs, selectedProvider);
      if |pc.instances| <= 1 {
        return KeepsLastInstance;
      }
      if !confirmed {
        return DeleteCancelled;
      }
      var updatedInstances := Seqs.Filter(pc.instances, IsOtherInstance(instanceId));
      configs := DeleteInstanceConfigs(configs, selectedProvider, instanceId);
      if selectedInstanceId == instanceId {
        selectedInstanceId := FirstIdOrEmpty(updatedInstances);
      }
      outcome := InstanceDeleted;
    }

    /** `handleSwitchInstance(instanceId)`: the fetched list is cleared until it is loaded again. */
    method HandleSwitchInstance(instanceId: string)
      modifies this
      ensures selectedInstanceId == instanceId && availableModels == []
      ensures configs == old(configs) && providers == old(providers) && selectedProvider == old(selectedProvider)
    {
      selectedInstanceId := instanceId;
      availableModels := [];
    }

    /**
     * `handleSave()`. After the checks, it copies each selected model into
     * the model manager (skipped for an unknown provider). It then stores the
     * records with the current instance's capabilities updated, and
     * a record for every provider.
     */
    method HandleSave(manager: ModelManagers.LocalStorageModelManager, codec: Codec<EditorConfigs>) returns (r: Result<()>)
      requires manager.storage == storage
      modifies this, storage
      ensures providers == old(providers) && selectedProvider == old(selectedProvider)
      ensures selectedInstanceId == old(selectedInstanceId) && availableModels == old(availableModels)
      ensures var cur := CurrentInstance(old(configs), selectedProvider, selectedInstanceId);
        var refusal := SaveRefusal(cur, FindProvider(providers, selectedProvider));
        refusal.Some? ==> r == Err(refusal.value) && configs == old(configs) && storage.items == old(storage.items)
      ensures var cur := CurrentInstance(old(configs), selectedProvider, selectedInstanceId);
        var provider := FindProvider(providers, selectedProvider);
        SaveRefusal(cur, provider).None? ==>
          && r == Ok(())
          && configs == SavedConfigs(old(configs), providers, selectedProvider, cur.value,
                                     SavedCapabilities(cur.value.models, availableModels))
          && storage.items == SyncedItems(old(storage.items), selectedProvider, provider, cur.value, availableModels,
                                          manager.codec)[ConfigsKey := codec.encode(configs)]
    {
      var cur := CurrentInstance(configs, selectedProvider, selectedInstanceId);
      var provider := FindProvider(providers, selectedProvider);
      var refusal := SaveRefusal(cur, provider);
      if refusal.Some? {
        return Err(refusal.value);
      }
      var inst := cur.value;
      var caps := CollectCapabilities(inst.models, availableModels);
      SyncSelected(manager, selectedProvider, provider, inst, availableModels);
      var updated := BuildSavedConfigs(configs, providers, selectedProvider, inst, caps);
      storage.items := storage.items[ConfigsKey := codec.encode(updated)];
      configs := updated;
      r := Ok(());
    }
  }
}
