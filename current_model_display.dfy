/**
 * The header badge that shows the selected model. It parses the stored
 * `selectedModel` value, written as `<provider>-<model>`, back into its
 * parts.
 */
module CurrentModelDisplay {
  import opened Base
  import WebConfig

  /** What the badge shows. */
  datatype CurrentModel = CurrentModel(name: string, provider: string, providerName: string)

  /**
   * Splits the stored selection at its first '-'. There is no split when the
   * selection has no '-' or starts with one.
   */
  function SplitSelection(saved: string): (r: Option<(string, string)>)
    ensures r.None? <==> IndexOf(saved, "-").None? || IndexOf(saved, "-") == Some(0)
    ensures r.Some? ==> r.value.0 + "-" + r.value.1 == saved && r.value.0 != [] && '-' !in r.value.0
  {
    match IndexOf(saved, "-")
    case None => None
    case Some(i) =>
      if i == 0 then None
      else
        HasAtChar(saved, '-');
        assert saved[..i] + "-" + saved[i + 1..] == saved;
        Some((saved[..i], saved[i + 1..]))
  }

  /** The name shown: the model part with one further `<provider>-` prefix removed. */
  function ShownModelName(providerId: string, modelId: string): (r: string)
    ensures StartsWith(modelId, providerId + "-") ==> providerId + "-" + r == modelId
    ensures !StartsWith(modelId, providerId + "-") ==> r == modelId
  {
    if StartsWith(modelId, providerId + "-") then
      assert modelId == modelId[..|providerId| + 1] + modelId[|providerId| + 1..];
      modelId[|providerId| + 1..]
    else modelId
  }

  /** `loadCurrentModel()` on the stored `selectedModel` value. */
  function LoadCurrentModel(savedSelected: Option<string>): (r: Option<CurrentModel>)
    ensures !Truthy(savedSelected) ==> r.None?
    ensures Truthy(savedSelected) ==> (r.None? <==> SplitSelection(savedSelected.value).None?)
    ensures r.Some? ==> && r.value.provider != "" && '-' !in r.value.provider
                        && StartsWith(savedSelected.value, r.value.provider + "-")
                        && r.value.providerName == WebConfig.ProviderLabel(r.value.provider)
  {
    if !Truthy(savedSelected) then None
    else match SplitSelection(savedSelected.value)
      case None => None
      case Some((providerId, modelId)) =>
        assert savedSelected.value[..|providerId| + 1] == providerId + "-";
        Some(CurrentModel(ShownModelName(providerId, modelId), providerId, WebConfig.ProviderLabel(providerId)))
  }

  /** Joining a provider without '-' to any model part and splitting again gives both parts back. */
  lemma SplitJoin(providerId: string, modelId: string)
    requires providerId != "" && '-' !in providerId
    ensures SplitSelection(providerId + "-" + modelId) == Some((providerId, modelId))
  {
    var s := providerId + "-" + modelId;
    IndexOfAfter(providerId, "-", modelId);
    assert s[..|providerId|] == providerId;
    assert s[|providerId| + 1..] == modelId;
  }

  /** A selection with no '-', or with '-' first, shows no model. */
  lemma NoModelWithoutProvider(saved: string)
    requires '-' !in saved || (saved != "" && saved[0] == '-')
    ensures LoadCurrentModel(Some(saved)) == None
  {
    HasAtChar(saved, '-');
    if saved != "" && saved[0] == '-' {
      assert HasAt(saved, 0, "-");
    }
  }

  /**
   * A selection `<provider>-<model>` shows the provider's label and the
   * model part; a model part that repeats `<provider>-` is shown without it.
   */
  lemma ShowsModelPart(providerId: string, modelId: string)
    requires providerId != "" && '-' !in providerId
    ensures var shown := LoadCurrentModel(Some(providerId + "-" + modelId));
      && shown.Some? && shown.value.provider == providerId
      && shown.value.providerName == WebConfig.ProviderLabel(providerId)
      && (!StartsWith(modelId, providerId + "-") ==> shown.value.name == modelId)
      && (StartsWith(modelId, providerId + "-") ==> providerId + "-" + shown.value.name == modelId)
  {
    SplitJoin(providerId, modelId);
  }
}
