/**
 * The web application's own model lists: every configured model for the
 * prompt optimiser, and the vision-capable ones for image-to-prompt, each
 * with an id in the form the model store uses and a display name headed by
 * the provider's label.
 */
module AppModels {
  import opened Base
  import opened Keyed
  import opened WebConfig
  import Seqs

  /** No provider prefix under any of the three separators. */
  predicate Unprefixed(providerId: string, modelId: string) {
    !StartsWith(modelId, providerId + "-") && !StartsWith(modelId, providerId + "_")
    && !StartsWith(modelId, providerId + "/")
  }

  /** Removes one leading `<provider>-`, else `<provider>_`, else `<provider>/`. */
  function StripProviderPrefix(providerId: string, modelId: string): (r: string)
    ensures StartsWith(modelId, providerId + "-") ==> modelId == providerId + "-" + r
    ensures !StartsWith(modelId, providerId + "-") && StartsWith(modelId, providerId + "_") ==>
      modelId == providerId + "_" + r
    ensures (!StartsWith(modelId, providerId + "-") && !StartsWith(modelId, providerId + "_")
             && StartsWith(modelId, providerId + "/")) ==> modelId == providerId + "/" + r
    ensures Unprefixed(providerId, modelId) ==> r == modelId
  {
    if StartsWith(modelId, providerId + "-") || StartsWith(modelId, providerId + "_")
       || StartsWith(modelId, providerId + "/")
    then
      var r := modelId[|providerId| + 1..];
      assert modelId == modelId[..|providerId| + 1] + r;
      r
    else modelId
  }

  /**
   * The model half of a display name: without the provider prefix, only the
   * last path segment, `base:quant` shown as `base (quant)`, and the whole id
   * when that leaves nothing.
   */
  function ModelPart(providerId: string, modelId: string): (r: string)
    ensures modelId != [] ==> r != []
    ensures '/' in r ==> r == modelId
    ensures Unprefixed(providerId, modelId) && '/' !in modelId && ':' !in modelId ==> r == modelId
  {
    var n := QuantName(LastSegment(StripProviderPrefix(providerId, modelId)));
    if n != "" then n else modelId
  }

  /** `formatModelDisplayName`: `<label> - <model part>`. */
  function FormatModelDisplayName(providerId: string, modelId: string): string {
    ProviderLabel(providerId) + " - " + ModelPart(providerId, modelId)
  }

  /** A prefixed plain id is shown without its prefix. */
  lemma FormatPrefixedPlainId(providerId: string, name: string)
    requires name != "" && '/' !in name && ':' !in name
    ensures FormatModelDisplayName(providerId, providerId + "-" + name) == ProviderLabel(providerId) + " - " + name
  {
    var m := providerId + "-" + name;
    assert m[..|providerId + "-"|] == providerId + "-";
    assert StripProviderPrefix(providerId, m) == name;
  }

  /** The last segment of a path that ends in a segment without `/`. */
  lemma LastSegmentOf(path: string, segment: string)
    requires '/' !in segment
    ensures LastSegment(path + "/" + segment) == segment
  {
    var m := path + "/" + segment;
    assert m[|path|] == '/';
    assert m[|path| + 1..] == segment;
    LastIndexOfCharIs(m, '/', |path|);
  }

  /** `base:quant` with no other `:` becomes `base (quant)`. */
  lemma QuantNameOf(base: string, quant: string)
    requires base != "" && ':' !in base && ':' !in quant
    ensures QuantName(base + ":" + quant) == base + " (" + quant + ")"
  {
    var s := base + ":" + quant;
    assert s[|base|] == ':';
    assert s[|base| + 1..] == quant;
    assert s[..|base|] == base;
    LastIndexOfCharIs(s, ':', |base|);
  }

  /** A path whose last segment is `base:quant` is shown as `base (quant)`. */
  lemma FormatPathWithQuant(providerId: string, path: string, base: string, quant: string)
    requires base != "" && '/' !in base && ':' !in base && '/' !in quant && ':' !in quant
    requires Unprefixed(providerId, path + "/" + (base + ":" + quant))
    ensures FormatModelDisplayName(providerId, path + "/" + (base + ":" + quant))
         == ProviderLabel(providerId) + " - " + (base + " (" + quant + ")")
  {
    var segment := base + ":" + quant;
    var m := path + "/" + segment;
    assert StripProviderPrefix(providerId, m) == m;
    LastSegmentOf(path, segment);
    QuantNameOf(base, quant);
    var n := QuantName(LastSegment(m));
    assert n == base + " (" + quant + ")";
    assert n != "";
  }

  /** One entry of `getAvailableModels`. */
  datatype ModelChoice = ModelChoice(id: string, name: string, supportsVision: Option<bool>)

  /** One entry of `getVisionModels`. */
  datatype VisionChoice = VisionChoice(id: string, name: string)

  /** The vision flag under the trimmed id, else under the id as stored, else none. */
  function StoredVision(caps: map<string, bool>, trimmed: string, modelId: string): (r: Option<bool>)
    ensures trimmed in caps ==> r == Some(caps[trimmed])
    ensures trimmed !in caps && modelId in caps ==> r == Some(caps[modelId])
    ensures r.None? <==> trimmed !in caps && modelId !in caps
  {
    if trimmed in caps then Some(caps[trimmed])
    else if modelId in caps then Some(caps[modelId])
    else None
  }

  /** What an entry is listed as: its store id, its display name behind a non-default instance name, its vision flag. */
  function ChoiceOf(e: Entry): ModelChoice {
    var trimmed := Trim(e.modelId);
    ModelChoice(StoreId(e.provider, trimmed),
                ShownName(e.instance, FormatModelDisplayName(e.provider, trimmed)),
                StoredVision(e.instance.modelCapabilities, trimmed, e.modelId))
  }

  /** An entry with a true vision flag, or with no capability record at all under its trimmed id. */
  predicate ShowsForVision(e: Entry) {
    var trimmed := Trim(e.modelId);
    trimmed !in e.instance.modelCapabilities || e.instance.modelCapabilities[trimmed]
  }

  function VisionChoiceOf(e: Entry): VisionChoice {
    var trimmed := Trim(e.modelId);
    VisionChoice(StoreId(e.provider, trimmed), ShownName(e.instance, FormatModelDisplayName(e.provider, trimmed)))
  }

  /** Every entry of the record, in order, as a choice. */
  function AvailableModels(configs: StoredConfigs): seq<ModelChoice> {
    Seqs.Map(Entries(configs, ListedInstances), ChoiceOf)
  }

  /** The entries shown for vision, in order. */
  function VisionModels(configs: StoredConfigs): seq<VisionChoice> {
    VisionOf(Entries(configs, ListedInstances))
  }

  /** The vision entries of a list of entries, as vision choices. */
  function VisionOf(es: seq<Entry>): seq<VisionChoice> {
    Seqs.Map(Seqs.Filter(es, ShowsForVision), VisionChoiceOf)
  }

  lemma VisionOfAppend(a: seq<Entry>, b: seq<Entry>)
    ensures VisionOf(a + b) == VisionOf(a) + VisionOf(b)
  {
    Seqs.FilterAppend(a, b, ShowsForVision);
    Seqs.MapAppend(Seqs.Filter(a, ShowsForVision), Seqs.Filter(b, ShowsForVision), VisionChoiceOf);
  }

  /** One more id in the inner loop of `getAvailableModels`. */
  lemma IdChoiceStep(providerId: string, instance: Instance, modelIds: seq<string>, j: nat)
    requires j < |modelIds|
    ensures Seqs.Map(IdEntries(providerId, instance, modelIds[..j + 1]), ChoiceOf)
         == Seqs.Map(IdEntries(providerId, instance, modelIds[..j]), ChoiceOf)
            + (if Trim(modelIds[j]) != "" then [ChoiceOf(Entry(providerId, instance, modelIds[j]))] else [])
  {
    IdEntriesSnoc(providerId, instance, modelIds, j);
    if Trim(modelIds[j]) != "" {
      Seqs.MapSnoc(IdEntries(providerId, instance, modelIds[..j]), Entry(providerId, instance, modelIds[j]), ChoiceOf);
    }
  }

  /** The inner loop of `getAvailableModels`: one choice per non-blank id, in order. */
  method IdChoices(providerId: string, instance: Instance, modelIds: seq<string>) returns (chunk: seq<ModelChoice>)
    ensures chunk == Seqs.Map(IdEntries(providerId, instance, modelIds), ChoiceOf)
  {
    chunk := [];
    var j := 0;
    while j < |modelIds|
      invariant 0 <= j <= |modelIds|
      invariant chunk == Seqs.Map(IdEntries(providerId, instance, modelIds[..j]), ChoiceOf)
    {
      IdChoiceStep(providerId, instance, modelIds, j);
      var trimmed := Trim(modelIds[j]);
      if trimmed != "" {
        var fullId := StoreId(providerId, trimmed);
        var displayName := ShownName(instance, FormatModelDisplayName(providerId, trimmed));
        var supportsVision := StoredVision(instance.modelCapabilities, trimmed, modelIds[j]);
        chunk := chunk + [ModelChoice(fullId, displayName, supportsVision)];
      }
      j := j + 1;
    }
    Seqs.TakeAll(modelIds);
  }

  /** The middle loop of `getAvailableModels`: the ids of every listed instance, in order. */
  method InstanceChoices(providerId: string, instances: seq<Instance>) returns (chunk: seq<ModelChoice>)
    ensures chunk == Seqs.Map(InstanceEntries(providerId, instances), ChoiceOf)
  {
    chunk := [];
    var k := 0;
    while k < |instances|
      invariant 0 <= k <= |instances|
      invariant chunk == Seqs.Map(InstanceEntries(providerId, instances[..k]), ChoiceOf)
    {
      InstanceEntriesSnoc(providerId, instances, k);
      var instance := instances[k];
      var modelIds := ModelIdsOf(instance);
      var hasApiKey := instance.apiKey == "" || Trim(instance.apiKey) != "";
      if |modelIds| > 0 && hasApiKey {
        var more := IdChoices(providerId, instance, modelIds);
        Seqs.MapAppend(InstanceEntries(providerId, instances[..k]), IdEntries(providerId, instance, modelIds), ChoiceOf);
        chunk := chunk + more;
      }
      k := k + 1;
    }
    Seqs.TakeAll(instances);
  }

  /**
   * `getAvailableModels`: nothing without a readable record; otherwise, for
   * each provider and each listed instance, one choice per non-blank model
   * id, in order.
   */
  method GetAvailableModels(saved: Option<StoredConfigs>) returns (list: seq<ModelChoice>)
    ensures saved.None? ==> list == []
    ensures saved.Some? ==> list == AvailableModels(saved.value)
  {
    list := [];
    if saved.None? {
      return;
    }
    var configs := saved.value;
    var i := 0;
    while i < |configs|
      invariant 0 <= i <= |configs|
      invariant list == Seqs.Map(Entries(configs[..i], ListedInstances), ChoiceOf)
    {
      EntriesSnoc(configs, ListedInstances, i);
      var (providerId, config) := configs[i];
      var more := InstanceChoices(providerId, ListedInstances(config));
      Seqs.MapAppend(Entries(configs[..i], ListedInstances), InstanceEntries(providerId, ListedInstances(config)), ChoiceOf);
      list := list + more;
      i := i + 1;
    }
    Seqs.TakeAll(configs);
  }

  /** One more id in the inner loop of `getVisionModels`. */
  lemma IdVisionStep(providerId: string, instance: Instance, modelIds: seq<string>, j: nat)
    requires j < |modelIds|
    ensures var e := Entry(providerId, instance, modelIds[j]);
      VisionOf(IdEntries(providerId, instance, modelIds[..j + 1]))
      == VisionOf(IdEntries(providerId, instance, modelIds[..j]))
         + (if Trim(modelIds[j]) != "" && ShowsForVision(e) then [VisionChoiceOf(e)] else [])
  {
    var e := Entry(providerId, instance, modelIds[j]);
    var xs := IdEntries(providerId, instance, modelIds[..j]);
    IdEntriesSnoc(providerId, instance, modelIds, j);
    if Trim(modelIds[j]) != "" {
      assert IdEntries(providerId, instance, modelIds[..j + 1]) == xs + [e];
      Seqs.FilterSnoc(xs, e, ShowsForVision);
      if ShowsForVision(e) {
        Seqs.MapSnoc(Seqs.Filter(xs, ShowsForVision), e, VisionChoiceOf);
        assert VisionOf(xs + [e]) == VisionOf(xs) + [VisionChoiceOf(e)];
      } else {
        assert Seqs.Filter(xs + [e], ShowsForVision) == Seqs.Filter(xs, ShowsForVision);
      }
    } else {
      assert IdEntries(providerId, instance, modelIds[..j + 1]) == xs;
    }
  }

  /** The inner loop of `getVisionModels`: a choice per non-blank id whose record says vision or is missing. */
  method IdVisionChoices(providerId: string, instance: Instance, modelIds: seq<string>) returns (chunk: seq<VisionChoice>)
    ensures chunk == VisionOf(IdEntries(providerId, instance, modelIds))
  {
    chunk := [];
    var modelCapabilities := instance.modelCapabilities;
    var j := 0;
    while j < |modelIds|
      invariant 0 <= j <= |modelIds|
      invariant chunk == VisionOf(IdEntries(providerId, instance, modelIds[..j]))
    {
      IdVisionStep(providerId, instance, modelIds, j);
      var trimmed := Trim(modelIds[j]);
      if trimmed != "" {
        var supportsVision := trimmed in modelCapabilities && modelCapabilities[trimmed];
        if supportsVision || trimmed !in modelCapabilities {
          var fullId := StoreId(providerId, trimmed);
          var displayName := ShownName(instance, FormatModelDisplayName(providerId, trimmed));
          chunk := chunk + [VisionChoice(fullId, displayName)];
        }
      }
      j := j + 1;
    }
    Seqs.TakeAll(modelIds);
  }

  /** One more instance in the middle loop of `getVisionModels`. */
  lemma InstanceVisionStep(providerId: string, instances: seq<Instance>, k: nat)
    requires k < |instances|
    ensures VisionOf(InstanceEntries(providerId, instances[..k + 1]))
         == VisionOf(InstanceEntries(providerId, instances[..k]))
            + (if IsListed(instances[k]) then VisionOf(IdEntries(providerId, instances[k], ModelIdsOf(instances[k]))) else [])
  {
    var xs := InstanceEntries(providerId, instances[..k]);
    InstanceEntriesSnoc(providerId, instances, k);
    if IsListed(instances[k]) {
      VisionOfAppend(xs, IdEntries(providerId, instances[k], ModelIdsOf(instances[k])));
    } else {
      assert InstanceEntries(providerId, instances[..k + 1]) == xs;
    }
  }

  /** The middle loop of `getVisionModels`. */
  method InstanceVisionChoices(providerId: string, instances: seq<Instance>) returns (chunk: seq<VisionChoice>)
    ensures chunk == VisionOf(InstanceEntries(providerId, instances))
  {
    chunk := [];
    var k := 0;
    while k < |instances|
      invariant 0 <= k <= |instances|
      invariant chunk == VisionOf(InstanceEntries(providerId, instances[..k]))
    {
      InstanceVisionStep(providerId, instances, k);
      var instance := instances[k];
      var modelIds := ModelIdsOf(instance);
      var hasApiKey := instance.apiKey == "" || Trim(instance.apiKey) != "";
      if |modelIds| > 0 && hasApiKey {
        var more := IdVisionChoices(providerId, instance, modelIds);
        chunk := chunk + more;
      }
      k := k + 1;
    }
    Seqs.TakeAll(instances);
  }

  /**
   * `getVisionModels`: the same walk, keeping an entry when its capability
   * record says it supports vision or when it has no record at all.
   */
  method GetVisionModels(saved: Option<StoredConfigs>) returns (list: seq<VisionChoice>)
    ensures saved.None? ==> list == []
    ensures saved.Some? ==> list == VisionModels(saved.value)
  {
    list := [];
    if saved.None? {
      return;
    }
    var configs := saved.value;
    var i := 0;
    while i < |configs|
      invariant 0 <= i <= |configs|
      invariant list == VisionOf(Entries(configs[..i], ListedInstances))
    {
      EntriesSnoc(configs, ListedInstances, i);
      var (providerId, config) := configs[i];
      var more := InstanceVisionChoices(providerId, ListedInstances(config));
      VisionOfAppend(Entries(configs[..i], ListedInstances), InstanceEntries(providerId, ListedInstances(config)));
      list := list + more;
      i := i + 1;
    }
    Seqs.TakeAll(configs);
  }

  /**
   * Every vision choice is also an available choice, under the same id and
   * display name: the vision list only drops entries, never renames them.
   */
  lemma VisionAmongAvailable(configs: StoredConfigs)
    ensures forall v :: v in VisionModels(configs) ==>
      exists c :: c in AvailableModels(configs) && c.id == v.id && c.name == v.name
  {
    VisionOfAmongChoices(Entries(configs, ListedInstances));
  }

  lemma VisionOfAmongChoices(es: seq<Entry>)
    ensures forall v :: v in VisionOf(es) ==>
      exists c :: c in Seqs.Map(es, ChoiceOf) && c.id == v.id && c.name == v.name
  {
    var kept := Seqs.Filter(es, ShowsForVision);
    var vs := VisionOf(es);
    var cs := Seqs.Map(es, ChoiceOf);
    forall v | v in vs
      ensures exists c :: c in cs && c.id == v.id && c.name == v.name
    {
      var k :| 0 <= k < |vs| && vs[k] == v;
      var e := kept[k];
      var i :| 0 <= i < |es| && es[i] == e;
      assert cs[i] == ChoiceOf(e);
    }
  }

  /**
   * An entry with no capability record under its trimmed id is listed for
   * vision; one whose record says no is not.
   */
  lemma VisionKeepsUnknown(configs: StoredConfigs, e: Entry)
    requires e in Entries(configs, ListedInstances)
    ensures Trim(e.modelId) !in e.instance.modelCapabilities ==> VisionChoiceOf(e) in VisionModels(configs)
    ensures (Trim(e.modelId) in e.instance.modelCapabilities && !e.instance.modelCapabilities[Trim(e.modelId)])
            ==> !(e in Seqs.Filter(Entries(configs, ListedInstances), ShowsForVision))
  {
    var kept := Seqs.Filter(Entries(configs, ListedInstances), ShowsForVision);
    if ShowsForVision(e) {
      var k :| 0 <= k < |kept| && kept[k] == e;
      assert VisionModels(configs)[k] == VisionChoiceOf(e);
    }
  }

  /** The entries of a one-provider record in the older format with one model. */
  lemma LegacyEntries(providerId: string, config: StoredProvider)
    requires config.ProviderRecord? && config.instances.None? && config.models.None?
    requires !IsBlank(config.model) && (config.apiKey == "" || !IsBlank(config.apiKey))
    ensures Entries([(providerId, config)], ListedInstances) == [Entry(providerId, LegacyInstance(config), config.model)]
  {
    var instance := LegacyInstance(config);
    assert config.model != "";
    assert ListedInstances(config) == [instance];
    assert ModelIdsOf(instance) == [config.model];
    var configs := [(providerId, config)];
    EntriesSnoc(configs, ListedInstances, 0);
    assert configs[..1] == configs;
    InstanceEntriesSnoc(providerId, [instance], 0);
    assert [instance][..1] == [instance];
    IdEntriesSnoc(providerId, instance, [config.model], 0);
    assert [config.model][..1] == [config.model];
  }

  /**
   * An older-format record with a key or no key, no model list and one
   * non-blank model lists exactly that model, trimmed, under its store id.
   */
  lemma LegacyModelListed(providerId: string, config: StoredProvider)
    requires config.ProviderRecord? && config.instances.None? && config.models.None?
    requires !IsBlank(config.model) && (config.apiKey == "" || !IsBlank(config.apiKey))
    ensures var trimmed := Trim(config.model);
      AvailableModels([(providerId, config)])
      == [ModelChoice(StoreId(providerId, trimmed), FormatModelDisplayName(providerId, trimmed),
                      StoredVision(config.modelCapabilities, trimmed, config.model))]
  {
    var e := Entry(providerId, LegacyInstance(config), config.model);
    LegacyEntries(providerId, config);
    Seqs.MapSnoc([], e, ChoiceOf);
    assert [] + [e] == [e];
  }
}
