/**
 * The web template editor. It lists the templates, marks the ones it
 * treats as built in, refuses to delete those, checks a template before
 * saving it, and edits the message list of the template being edited.
 */
module TemplateEditor {
  import opened Base
  import opened Keyed
  import opened Storage
  import opened LlmTypes
  import opened Templates
  import TemplateManagers
  import Seqs

  /** The id fragments that the naming heuristic takes as a sign of a built-in template. */
  const DefaultKeywords: seq<string> :=
    ["general", "creative", "analytical", "context", "user-prompt", "iterate", "text2image", "image2prompt"]

  /** The prefix of the ids the editor gives new templates. */
  const CustomPrefix := "custom-"

  /** The id contains one of the keywords. */
  predicate HasDefaultKeyword(id: string) {
    exists i :: 0 <= i < |DefaultKeywords| && Contains(id, DefaultKeywords[i])
  }

  /** The naming heuristic: a keyword in the id, and not a user template's prefix. */
  predicate LooksBuiltIn(id: string) {
    HasDefaultKeyword(id) && !StartsWith(id, CustomPrefix)
  }

  /**
   * Whether the list marks a template as built in. `isDefaultTemplate` is the
   * manager's own test, absent when the manager has none. The heuristic
   * also applies when the manager's test says no.
   */
  predicate MarkedDefault(isDefaultTemplate: Option<string -> bool>, id: string) {
    (isDefaultTemplate.Some? && isDefaultTemplate.value(id)) || LooksBuiltIn(id)
  }

  /** The local-storage manager's test: the ids of the three built-ins. */
  function IsBuiltInId(): string -> bool {
    (id: string) => id in DefaultIds()
  }

  /** Some template has the id. */
  predicate HasTemplateId(all: seq<Template>, id: string) {
    exists i :: 0 <= i < |all| && all[i].id == id
  }

  /** The set of marked ids the loader builds, one template at a time. */
  function MarkedIds(all: seq<Template>, isDefaultTemplate: Option<string -> bool>): set<string>
  {
    if all == [] then {}
    else
      var t := all[|all| - 1];
      MarkedIds(all[..|all| - 1], isDefaultTemplate) + (if MarkedDefault(isDefaultTemplate, t.id) then {t.id} else {})
  }

  /** An id is marked exactly when some listed template has it and the test or the heuristic says so. */
  lemma {:induction false} MarkedIdsAre(all: seq<Template>, isDefaultTemplate: Option<string -> bool>, id: string)
    ensures id in MarkedIds(all, isDefaultTemplate) <==> HasTemplateId(all, id) && MarkedDefault(isDefaultTemplate, id)
  {
    if all != [] {
      var init := all[..|all| - 1];
      MarkedIdsAre(init, isDefaultTemplate, id);
      if HasTemplateId(all, id) && all[|all| - 1].id != id {
        var i :| 0 <= i < |all| && all[i].id == id;
        assert init[i] == all[i];
      }
      if HasTemplateId(init, id) {
        var i :| 0 <= i < |init| && init[i].id == id;
        assert all[i] == init[i];
      }
    }
  }

  /** The loader's `forEach` that fills the set of marked ids. */
  method MarkDefaults(all: seq<Template>, isDefaultTemplate: Option<string -> bool>) returns (ids: set<string>)
    ensures ids == MarkedIds(all, isDefaultTemplate)
  {
    ids := {};
    for i := 0 to |all|
      invariant ids == MarkedIds(all[..i], isDefaultTemplate)
    {
      Seqs.TakeSnoc(all, i);
      var t := all[i];
      if isDefaultTemplate.Some? && isDefaultTemplate.value(t.id) {
        ids := ids + {t.id};
      } else if HasDefaultKeyword(t.id) && !StartsWith(t.id, CustomPrefix) {
        ids := ids + {t.id};
      }
    }
    Seqs.TakeAll(all);
  }

  /** An id that starts with a keyword, and not with 'c', looks built in. */
  lemma KeywordFirst(id: string, i: nat)
    requires i < |DefaultKeywords| && StartsWith(id, DefaultKeywords[i]) && id[0] != 'c'
    ensures LooksBuiltIn(id)
  {
    ContainsAt(id, DefaultKeywords[i], 0);
  }

  /** The heuristic alone marks the three built-ins, so a manager without its own test still protects them. */
  lemma HeuristicMarksBuiltIns(id: string)
    requires id in DefaultIds()
    ensures LooksBuiltIn(id)
  {
    if id == ImageToPromptId {
      assert id[..12] == DefaultKeywords[7];
      KeywordFirst(id, 7);
    } else if id == GeneralOptimizeId {
      assert id[..10] == DefaultKeywords[6];
      KeywordFirst(id, 6);
    } else {
      assert id == CreativeOptimizeId;
      assert id[..10] == DefaultKeywords[6];
      KeywordFirst(id, 6);
    }
  }

  /** A user template's id is never marked by the heuristic, only by the manager's test. */
  lemma CustomIdsOnlyByTest(isDefaultTemplate: Option<string -> bool>, id: string)
    requires StartsWith(id, CustomPrefix)
    ensures MarkedDefault(isDefaultTemplate, id) <==> isDefaultTemplate.Some? && isDefaultTemplate.value(id)
  {
  }

  /** What the delete button did. */
  datatype DeleteOutcome = DefaultRefused | DeleteCancelled | DeleteAttempted(result: Result<()>)

  /** What the save button did. */
  datatype SaveOutcome = NothingToSave | Refused(message: string) | Saved | SaveFailed(error: string)

  /** The message the save refuses with, if any: a name is required, and at least one message. */
  function SaveRefusal(t: Template): (r: Option<string>)
    ensures r.None? <==> !IsBlank(t.name) && t.content != []
    ensures IsBlank(t.name) ==> r == Some("请输入模板名称")
    ensures !IsBlank(t.name) && t.content == [] ==> r == Some("模板内容不能为空")
  {
    if Trim(t.name) == "" then Some("请输入模板名称")
    else if t.content == [] then Some("模板内容不能为空")
    else None
  }

  /** The template `handleCreate` opens, with `now` the current time in milliseconds. */
  function NewTemplate(now: nat): (r: Template)
    ensures StartsWith(r.id, CustomPrefix) && r.name == "新模板"
    ensures |r.content| == 2 && r.content[0].role == System && r.content[1].role == User
    ensures Contains(r.content[1].content, "{{prompt}}")
    ensures r.metadata == TemplateMetadata("1.0.0", now, Optimize, Zh)
  {
    var user := OptimizeLead + "{{prompt}}";
    assert HasAt(user, |OptimizeLead|, "{{prompt}}");
    ContainsAt(user, "{{prompt}}", |OptimizeLead|);
    assert (CustomPrefix + NatToString(now))[..|CustomPrefix|] == CustomPrefix;
    Template(CustomPrefix + NatToString(now), "新模板",
             [MessageTemplate(System, "你是一个提示词优化专家。"), MessageTemplate(User, user)],
             TemplateMetadata("1.0.0", now, Optimize, Zh))
  }

  /** A new template can be saved as it is, and is never marked built in, so it can be deleted. */
  lemma NewTemplateSavableAndDeletable(now: nat)
    ensures SaveRefusal(NewTemplate(now)).None?
    ensures !MarkedDefault(Some(IsBuiltInId()), NewTemplate(now).id)
  {
    var t := NewTemplate(now);
    assert !IsBlank(t.name) by {
      assert t.name[0] == '新';
    }
    assert t.id !in DefaultIds() by {
      assert t.id[0] == 'c';
      assert DefaultIds() == [GeneralOptimizeId, CreativeOptimizeId, ImageToPromptId];
    }
  }

  /** `addMessage`: an empty user message is appended. */
  function AddMessage(t: Template): (r: Template)
    ensures r.content == t.content + [MessageTemplate(User, "")]
    ensures r.id == t.id && r.name == t.name && r.metadata == t.metadata
  {
    t.(content := t.content + [MessageTemplate(User, "")])
  }

  /**
   * `removeMessage(index)`: refused while one message or none is left;
   * otherwise exactly the message at `index` goes, the rest keep their order,
   * and an index outside the list removes nothing.
   */
  function RemoveMessage(t: Template, index: int): (r: Result<Template>)
    ensures |t.content| <= 1 <==> r == Err("至少需要保留一条消息")
    ensures r.Ok? ==> r.value.id == t.id && r.value.name == t.name && r.value.metadata == t.metadata
    ensures r.Ok? && 0 <= index < |t.content| ==> r.value.content == t.content[..index] + t.content[index + 1..]
    ensures r.Ok? && !(0 <= index < |t.content|) ==> r.value.content == t.content
    ensures r.Ok? ==> |r.value.content| >= 1
  {
    if |t.content| <= 1 then Err("至少需要保留一条消息")
    else if 0 <= index < |t.content| then Ok(t.(content := t.content[..index] + t.content[index + 1..]))
    else Ok(t)
  }

  /** Removing the message just added gives back the template. */
  lemma AddThenRemove(t: Template)
    requires t.content != []
    ensures RemoveMessage(AddMessage(t), |t.content|) == Ok(t)
  {
    var a := AddMessage(t);
    assert a.content[..|t.content|] + a.content[|t.content| + 1..] == t.content;
  }

  /** `updateContentRole(index, role)`: only the message at `index` changes, and only its role. */
  function UpdateContentRole(t: Template, index: nat, role: Role): (r: Template)
    requires index < |t.content|
    ensures |r.content| == |t.content| && r.content[index] == MessageTemplate(role, t.content[index].content)
    ensures forall j :: 0 <= j < |t.content| && j != index ==> r.content[j] == t.content[j]
    ensures r.id == t.id && r.name == t.name && r.metadata == t.metadata
  {
    t.(content := t.content[index := t.content[index].(role := role)])
  }

  /** `updateContentText(index, text)`: only the message at `index` changes, and only its text. */
  function UpdateContentText(t: Template, index: nat, text: string): (r: Template)
    requires index < |t.content|
    ensures |r.content| == |t.content| && r.content[index] == MessageTemplate(t.content[index].role, text)
    ensures forall j :: 0 <= j < |t.content| && j != index ==> r.content[j] == t.content[j]
    ensures r.id == t.id && r.name == t.name && r.metadata == t.metadata
  {
    t.(content := t.content[index := t.content[index].(content := text)])
  }

  /** Edits at two different messages commute. */
  lemma EditsAtDifferentMessagesCommute(t: Template, i: nat, role: Role, j: nat, text: string)
    requires i < |t.content| && j < |t.content| && i != j
    ensures UpdateContentText(UpdateContentRole(t, i, role), j, text) == UpdateContentRole(UpdateContentText(t, j, text), i, role)
  {
    var a := UpdateContentText(UpdateContentRole(t, i, role), j, text);
    var b := UpdateContentRole(UpdateContentText(t, j, text), i, role);
    assert a.content == b.content;
  }

  /** The editor's state, over the local-storage template manager. */
  class TemplateEditor {
    const manager: TemplateManagers.LocalStorageTemplateManager
    var templates: seq<Template>
    /** The template being edited, if any. */
    var editing: Option<Template>
    var isCreating: bool
    var defaultTemplateIds: set<string>

    constructor(manager: TemplateManagers.LocalStorageTemplateManager)
      ensures this.manager == manager
      ensures templates == [] && editing == None && !isCreating && defaultTemplateIds == {}
    {
      this.manager := manager;
      templates := [];
      editing := None;
      isCreating := false;
      defaultTemplateIds := {};
    }

    /** `loadTemplates()`: the manager's list, and the ids marked built in. */
    method LoadTemplates(readFails: bool)
      requires manager.Valid()
      modifies this
      ensures templates == Values(TemplateManagers.Merged(manager.defaultTemplates,
                                    TemplateManagers.CustomTemplates(manager.storage.items, manager.codec, readFails)))
      ensures defaultTemplateIds == MarkedIds(templates, Some(IsBuiltInId()))
      ensures editing == old(editing) && isCreating == old(isCreating)
    {
      var all := manager.GetAllTemplates(readFails);
      var ids := MarkDefaults(all, Some(IsBuiltInId()));
      defaultTemplateIds := ids;
      templates := all;
    }

    /** `handleCreate()`. */
    method HandleCreate(now: nat)
      modifies this
      ensures editing == Some(NewTemplate(now)) && isCreating
      ensures templates == old(templates) && defaultTemplateIds == old(defaultTemplateIds)
    {
      editing := Some(NewTemplate(now));
      isCreating := true;
    }

    /** `handleEdit(template)`. */
    method HandleEdit(t: Template)
      modifies this
      ensures editing == Some(t) && !isCreating
      ensures templates == old(templates) && defaultTemplateIds == old(defaultTemplateIds)
    {
      editing := Some(t);
      isCreating := false;
    }

    /**
     * `handleDelete(templateId)`, with `confirmed` the user's answer to the
     * confirmation. A marked id is refused before the manager is asked.
     */
    method HandleDelete(templateId: string, confirmed: bool, readFails: bool, writeFault: Option<string>)
      returns (outcome: DeleteOutcome)
      requires manager.Valid()
      modifies manager.storage
      ensures templateId in defaultTemplateIds ==>
        outcome == DefaultRefused && manager.storage.items == old(manager.storage.items)
      ensures templateId !in defaultTemplateIds && !confirmed ==>
        outcome == DeleteCancelled && manager.storage.items == old(manager.storage.items)
      ensures templateId !in defaultTemplateIds && confirmed ==> outcome.DeleteAttempted?
      ensures outcome.DeleteAttempted? && templateId !in DefaultIds() && writeFault.None? ==>
        outcome.result == Ok(()) && manager.storage.items == old(manager.storage.items)[TemplateManagers.StorageKey :=
          manager.codec.encode(Remove(OrEmpty(Stored(old(manager.storage.items), TemplateManagers.StorageKey,
                                                     manager.codec, readFails)), templateId))]
      ensures outcome.DeleteAttempted? && (templateId in DefaultIds() || writeFault.Some?) ==>
        outcome.result.Err? && manager.storage.items == old(manager.storage.items)
    {
      if templateId in defaultTemplateIds {
        return DefaultRefused;
      }
      if !confirmed {
        return DeleteCancelled;
      }
      var r := manager.DeleteTemplate(templateId, readFails, writeFault);
      outcome := DeleteAttempted(r);
    }

    /**
     * `handleSave()`: the checks, then `saveTemplate`. A save that succeeds
     * closes the editor; one that fails leaves it open.
     */
    method HandleSave(now: int, readFails: bool, writeFault: Option<string>) returns (outcome: SaveOutcome)
      modifies this, manager.storage
      ensures templates == old(templates) && defaultTemplateIds == old(defaultTemplateIds)
      ensures old(editing).None? ==>
        outcome == NothingToSave && editing == old(editing) && manager.storage.items == old(manager.storage.items)
      ensures old(editing).Some? && SaveRefusal(old(editing).value).Some? ==>
        && outcome == Refused(SaveRefusal(old(editing).value).value)
        && editing == old(editing) && isCreating == old(isCreating)
        && manager.storage.items == old(manager.storage.items)
      ensures old(editing).Some? && SaveRefusal(old(editing).value).None? && writeFault.None? ==>
        && outcome == Saved && editing == None && !isCreating
        && manager.storage.items == old(manager.storage.items)[TemplateManagers.StorageKey :=
             manager.codec.encode(Put(OrEmpty(Stored(old(manager.storage.items), TemplateManagers.StorageKey,
                                                     manager.codec, readFails)),
                                      old(editing).value.id, TemplateManagers.Stamped(old(editing).value, now)))]
      ensures old(editing).Some? && SaveRefusal(old(editing).value).None? && writeFault.Some? ==>
        && outcome == SaveFailed(writeFault.value) && editing == old(editing) && isCreating == old(isCreating)
        && manager.storage.items == old(manager.storage.items)
    {
      if editing.None? {
        return NothingToSave;
      }
      var t := editing.value;
      if Trim(t.name) == "" {
        return Refused("请输入模板名称");
      }
      if t.content == [] {
        return Refused("模板内容不能为空");
      }
      var r := manager.SaveTemplate(t, now, readFails, writeFault);
      if r.Ok? {
        editing := None;
        isCreating := false;
        outcome := Saved;
      } else {
        outcome := SaveFailed(r.error);
      }
    }

    /** `handleCancel()`. */
    method HandleCancel()
      modifies this
      ensures editing == None && !isCreating
      ensures templates == old(templates) && defaultTemplateIds == old(defaultTemplateIds)
    {
      editing := None;
      isCreating := false;
    }
  }
}
