/**
 * The two template managers. The persistent one keeps the built-in templates
 * in memory and the user's templates in storage as one object keyed by id,
 * with user templates shadowing built-ins of the same id; the in-memory one
 * keeps a single map that starts out holding the built-ins.
 */
module TemplateManagers {
  import opened Base
  import opened Keyed
  import opened Templates
  import opened Storage
  import Seqs

  /** The storage key of the user's templates. */
  const StorageKey := "text-image-prompt-tools:templates"

  /** The error `deleteTemplate` raises for a built-in id. */
  function DeleteRefused(templateId: string): string {
    "Cannot delete default template: " + templateId
  }

  function TemplateKey(t: Template): string {
    t.id
  }

  /** The template `saveTemplate` stores: the same template with `lastModified` set to now. */
  function Stamped(t: Template, now: int): (r: Template)
    ensures r.id == t.id && r.name == t.name && r.content == t.content
    ensures r.metadata.version == t.metadata.version && r.metadata.templateType == t.metadata.templateType
    ensures r.metadata.language == t.metadata.language && r.metadata.lastModified == now
  {
    t.(metadata := t.metadata.(lastModified := now))
  }

  /** `getCustomTemplates`: the stored object, or an empty one when the read or decode fails. */
  function CustomTemplates(items: map<string, string>, codec: Codec<Dict<Template>>, readFails: bool): Dict<Template> {
    ReadValue(items, StorageKey, [], codec, readFails)
  }

  /** The merged list `getAllTemplates` returns: the built-ins, then each user template set over them. */
  function Merged(defaults: Dict<Template>, custom: Dict<Template>): Dict<Template> {
    PutAll(PutAll([], defaults), custom)
  }

  /** The `forEach` that fills a map from a template list, keyed by id. */
  method IndexById(ts: seq<Template>) returns (d: Dict<Template>)
    ensures d == PutAll([], Pairs(ts, TemplateKey))
  {
    d := [];
    var i := 0;
    while i < |ts|
      invariant 0 <= i <= |ts|
      invariant d == PutAll([], Pairs(ts[..i], TemplateKey))
    {
      PairsStep(ts, TemplateKey, i);
      var p := Pairs(ts[..i + 1], TemplateKey);
      assert p[..i] == Pairs(ts[..i], TemplateKey);
      d := Put(d, ts[i].id, ts[i]);
      i := i + 1;
    }
    Seqs.TakeAll(ts);
  }

  /** The built-ins indexed by id are the built-ins themselves, in order, keyed by the built-in ids. */
  lemma DefaultsIndexed(prompts: SystemPrompts, loadedAt: int)
    ensures PutAll([], Pairs(DefaultTemplates(prompts, loadedAt), TemplateKey))
         == Pairs(DefaultTemplates(prompts, loadedAt), TemplateKey)
    ensures Values(PutAll([], Pairs(DefaultTemplates(prompts, loadedAt), TemplateKey))) == DefaultTemplates(prompts, loadedAt)
    ensures Keys(PutAll([], Pairs(DefaultTemplates(prompts, loadedAt), TemplateKey))) == DefaultIds()
  {
    var ts := DefaultTemplates(prompts, loadedAt);
    var p := Pairs(ts, TemplateKey);
    assert Unique(p);
    PutAllFresh(p);
    assert Values(p) == ts;
    assert Keys(p) == DefaultIds();
  }

  class LocalStorageTemplateManager {
    const storage: StorageAdapter
    const codec: Codec<Dict<Template>>
    /** The templates `getDefaultTemplate()` returned at construction. */
    ghost const builtIns: seq<Template>
    /** The built-ins keyed by id. */
    const defaultTemplates: Dict<Template>

    ghost predicate Valid() {
      defaultTemplates == PutAll([], Pairs(builtIns, TemplateKey))
      && |builtIns| == 3
      && forall i :: 0 <= i < 3 ==> builtIns[i].id == DefaultIds()[i]
    }

    constructor(prompts: SystemPrompts, loadedAt: int, storage: StorageAdapter, codec: Codec<Dict<Template>>)
      ensures Valid()
      ensures this.storage == storage && this.codec == codec
      ensures builtIns == DefaultTemplates(prompts, loadedAt)
    {
      var ts := DefaultTemplates(prompts, loadedAt);
      var d := IndexById(ts);
      this.storage := storage;
      this.codec := codec;
      builtIns := ts;
      defaultTemplates := d;
    }

    /** `isDefaultTemplate`: exactly the ids of the built-ins. */
    predicate IsDefaultTemplate(templateId: string)
      requires Valid()
      ensures IsDefaultTemplate(templateId) <==> templateId in DefaultIds()
    {
      PutAllHasKey([], Pairs(builtIns, TemplateKey), templateId);
      PairsHasKey(builtIns, TemplateKey, templateId);
      HasKey(defaultTemplates, templateId)
    }

    /** `getCustomTemplates`. */
    method GetCustomTemplates(readFails: bool) returns (custom: Dict<Template>)
      ensures custom == CustomTemplates(storage.items, codec, readFails)
    {
      custom := storage.GetData(StorageKey, [], codec, readFails);
    }

    /**
     * `getTemplate`: the user's template when one is saved under the id,
     * otherwise the built-in, otherwise nothing.
     */
    method GetTemplate(templateId: string, readFails: bool) returns (r: Option<Template>)
      requires Valid()
      ensures var custom := CustomTemplates(storage.items, codec, readFails);
        && (HasKey(custom, templateId) ==> r == Get(custom, templateId))
        && (!HasKey(custom, templateId) && templateId !in DefaultIds() ==> r == None)
        && (forall i :: 0 <= i < 3 && !HasKey(custom, templateId) && templateId == DefaultIds()[i] ==> r == Some(builtIns[i]))
    {
      var custom := GetCustomTemplates(readFails);
      if HasKey(custom, templateId) {
        r := Get(custom, templateId);
      } else {
        r := Get(defaultTemplates, templateId);
        assert IsDefaultTemplate(templateId) <==> templateId in DefaultIds();
        forall i | 0 <= i < 3 && templateId == DefaultIds()[i] ensures r == Some(builtIns[i]) {
          var p := Pairs(builtIns, TemplateKey);
          assert Unique(p) by {
            assert forall j :: 0 <= j < 3 ==> p[j].0 == DefaultIds()[j];
          }
          PutAllGet([], p, templateId);
          forall j | 0 <= j < i ensures p[j].0 != templateId {
            assert p[j].0 == DefaultIds()[j];
          }
          FindAt(p, templateId, i);
        }
      }
    }

    /** `getAllTemplates`: the built-ins with each user template set over them, in map order. */
    method GetAllTemplates(readFails: bool) returns (all: seq<Template>)
      requires Valid()
      ensures all == Values(Merged(defaultTemplates, CustomTemplates(storage.items, codec, readFails)))
    {
      var custom := GetCustomTemplates(readFails);
      var m: Dict<Template> := [];
      var i := 0;
      while i < |defaultTemplates|
        invariant 0 <= i <= |defaultTemplates|
        invariant m == PutAll([], defaultTemplates[..i])
      {
        PutAllStep([], defaultTemplates, i);
        m := Put(m, defaultTemplates[i].0, defaultTemplates[i].1);
        i := i + 1;
      }
      Seqs.TakeAll(defaultTemplates);
      var j := 0;
      while j < |custom|
        invariant 0 <= j <= |custom|
        invariant m == PutAll(PutAll([], defaultTemplates), custom[..j])
      {
        PutAllStep(PutAll([], defaultTemplates), custom, j);
        m := Put(m, custom[j].0, custom[j].1);
        j := j + 1;
      }
      Seqs.TakeAll(custom);
      all := Values(m);
    }

    /**
     * `saveTemplate`: stores the template, stamped with the current time, under
     * its id in the stored object. The object is read through `updateData`, so a
     * failed read starts from an empty object.
     */
    method SaveTemplate(t: Template, now: int, readFails: bool, writeFault: Option<string>) returns (r: Result<()>)
      modifies storage
      ensures writeFault.None? ==>
        r == Ok(()) && storage.items == old(storage.items)[StorageKey :=
          codec.encode(Put(OrEmpty(Stored(old(storage.items), StorageKey, codec, readFails)), t.id, Stamped(t, now)))]
      ensures writeFault.Some? ==> r == Err(writeFault.value) && storage.items == old(storage.items)
    {
      var updated := Stamped(t, now);
      r := storage.UpdateData(StorageKey, (o: Option<Dict<Template>>) => Put(OrEmpty(o), updated.id, updated),
                              codec, readFails, writeFault);
    }

    /**
     * `deleteTemplate`: refuses the built-in ids and changes nothing for them;
     * otherwise removes the id from the stored object.
     */
    method DeleteTemplate(templateId: string, readFails: bool, writeFault: Option<string>) returns (r: Result<()>)
      requires Valid()
      modifies storage
      ensures templateId in DefaultIds() ==> r == Err(DeleteRefused(templateId)) && storage.items == old(storage.items)
      ensures templateId !in DefaultIds() && writeFault.None? ==>
        r == Ok(()) && storage.items == old(storage.items)[StorageKey :=
          codec.encode(Remove(OrEmpty(Stored(old(storage.items), StorageKey, codec, readFails)), templateId))]
      ensures templateId !in DefaultIds() && writeFault.Some? ==>
        r == Err(writeFault.value) && storage.items == old(storage.items)
    {
      if IsDefaultTemplate(templateId) {
        r := Err(DeleteRefused(templateId));
      } else {
        r := storage.UpdateData(StorageKey, (o: Option<Dict<Template>>) => Remove(OrEmpty(o), templateId),
                                codec, readFails, writeFault);
      }
    }
  }

  /**
   * The merged list has each id once. The built-in ids come first in built-in
   * order, then the ids only the user has, in stored order; each id maps to
   * the user's template when there is one, else to the built-in.
   */
  lemma MergedOverrides(defaults: Dict<Template>, custom: Dict<Template>, id: string)
    requires Unique(defaults) && Unique(custom)
    ensures Unique(Merged(defaults, custom))
    ensures Keys(Merged(defaults, custom)) == Keys(defaults) + Seqs.Filter(Keys(custom), AbsentFrom(defaults))
    ensures Get(Merged(defaults, custom), id) == if HasKey(custom, id) then Get(custom, id) else Get(defaults, id)
  {
    PutAllFresh(defaults);
    PutAllUnique(defaults, custom);
    PutAllKeys(defaults, custom);
    PutAllGet(defaults, custom, id);
  }

  /**
   * After a save whose stored object round-trips, reading the user templates
   * gives the template, stamped, under its id, and every other saved id as
   * before; when the read inside the save failed, only the new template is left.
   */
  lemma SaveThenRead(items: map<string, string>, codec: Codec<Dict<Template>>, t: Template, now: int,
                     readFails: bool, other: string)
    requires other != t.id
    requires RoundTrips(codec, Put(OrEmpty(Stored(items, StorageKey, codec, readFails)), t.id, Stamped(t, now)))
    ensures var after := items[StorageKey := codec.encode(Put(OrEmpty(Stored(items, StorageKey, codec, readFails)), t.id, Stamped(t, now)))];
      && Get(CustomTemplates(after, codec, false), t.id) == Some(Stamped(t, now))
      && (!readFails ==> Get(CustomTemplates(after, codec, false), other) == Get(CustomTemplates(items, codec, false), other))
      && (readFails ==> CustomTemplates(after, codec, false) == [(t.id, Stamped(t, now))])
  {
    var before := OrEmpty(Stored(items, StorageKey, codec, readFails));
    var saved := Put(before, t.id, Stamped(t, now));
    SetThenGet(items, StorageKey, saved, [], codec);
    PutGet(before, t.id, Stamped(t, now));
    if !readFails {
      assert before == CustomTemplates(items, codec, false);
    } else {
      assert before == [];
    }
  }

  /**
   * Deleting an id no stored template has, when the stored object
   * round-trips, leaves the user templates as they were; deleting one that
   * is stored removes only that id.
   */
  lemma DeleteThenRead(items: map<string, string>, codec: Codec<Dict<Template>>, id: string, other: string)
    requires other != id
    requires RoundTrips(codec, Remove(CustomTemplates(items, codec, false), id))
    ensures var after := items[StorageKey := codec.encode(Remove(OrEmpty(Stored(items, StorageKey, codec, false)), id))];
      && Get(CustomTemplates(after, codec, false), id) == None
      && Get(CustomTemplates(after, codec, false), other) == Get(CustomTemplates(items, codec, false), other)
      && (!HasKey(CustomTemplates(items, codec, false), id) ==> CustomTemplates(after, codec, false) == CustomTemplates(items, codec, false))
  {
    var before := CustomTemplates(items, codec, false);
    assert OrEmpty(Stored(items, StorageKey, codec, false)) == before;
    SetThenGet(items, StorageKey, Remove(before, id), [], codec);
    RemoveGet(before, id, other);
    if !HasKey(before, id) {
      RemoveAbsent(before, id);
    }
  }

  /** The in-memory manager: one map, filled with the built-ins at construction. */
  class MemoryTemplateManager {
    var templates: Dict<Template>

    constructor(prompts: SystemPrompts, loadedAt: int)
      ensures templates == PutAll([], Pairs(DefaultTemplates(prompts, loadedAt), TemplateKey))
    {
      var d := IndexById(DefaultTemplates(prompts, loadedAt));
      templates := d;
    }

    /** `getTemplate`: the stored template with the id, or nothing. */
    method GetTemplate(templateId: string) returns (r: Option<Template>)
      ensures r.None? <==> !HasKey(templates, templateId)
      ensures r.Some? ==> r.value == Get(templates, templateId).value
    {
      r := Get(templates, templateId);
    }

    /** `getAllTemplates`: one template per stored id, in map order. */
    method GetAllTemplates() returns (all: seq<Template>)
      ensures all == Values(templates)
    {
      all := Values(templates);
    }

    /** `saveTemplate`: sets the template under its id as given, `lastModified` untouched. */
    method SaveTemplate(t: Template)
      modifies this
      ensures templates == Put(old(templates), t.id, t)
      ensures Get(templates, t.id) == Some(t)
      ensures forall k :: k != t.id ==> Get(templates, k) == Get(old(templates), k)
    {
      PutGet(templates, t.id, t);
      templates := Put(templates, t.id, t);
    }

    /** `deleteTemplate`: removes any id, built-ins included. */
    method DeleteTemplate(templateId: string)
      modifies this
      ensures templates == Remove(old(templates), templateId)
      ensures Get(templates, templateId) == None
      ensures forall k :: k != templateId ==> Get(templates, k) == Get(old(templates), k)
    {
      forall k | k != templateId ensures Get(Remove(templates, templateId), k) == Get(templates, k) {
        RemoveGet(templates, templateId, k);
      }
      templates := Remove(templates, templateId);
    }
  }
}
