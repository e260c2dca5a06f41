/**
 * The two model managers. The persistent one stores every model
 * configuration in one array under a fixed storage key; the in-memory one
 * keeps a map from id to configuration.
 */
module ModelManagers {
  import opened Base
  import opened Keyed
  import opened LlmTypes
  import opened Storage
  import Seqs

  /** The storage key of the configuration array. */
  const StorageKey := "text-image-prompt-tools:models"

  /** No two configurations share an id. */
  ghost predicate UniqueIds(ms: seq<TextModelConfig>) {
    forall i, j :: 0 <= i < j < |ms| ==> ms[i].id != ms[j].id
  }

  /** `findIndex(m => m.id === id)`, with -1 as `None`. */
  function IndexOfId(ms: seq<TextModelConfig>, id: string): (r: Option<nat>)
    ensures r.None? ==> forall i :: 0 <= i < |ms| ==> ms[i].id != id
    ensures r.Some? ==> r.value < |ms| && ms[r.value].id == id && forall j :: 0 <= j < r.value ==> ms[j].id != id
  {
    if ms == [] then None
    else if ms[0].id == id then Some(0)
    else match IndexOfId(ms[1..], id)
      case None => None
      case Some(i) => Some(i + 1)
  }

  /** `find(m => m.id === id) || null`: the first configuration with the id. */
  function FindModel(ms: seq<TextModelConfig>, id: string): (r: Option<TextModelConfig>)
    ensures r.None? <==> forall i :: 0 <= i < |ms| ==> ms[i].id != id
    ensures r.Some? ==> r.value.id == id && r.value in ms
  {
    match IndexOfId(ms, id)
    case None => None
    case Some(i) => Some(ms[i])
  }

  /** The array `saveModel` writes: the configuration replaces the first one with its id, or is appended. */
  function Upsert(ms: seq<TextModelConfig>, config: TextModelConfig): (r: seq<TextModelConfig>)
    ensures IndexOfId(ms, config.id).Some? ==> r == ms[IndexOfId(ms, config.id).value := config]
    ensures IndexOfId(ms, config.id).None? ==> r == ms + [config]
  {
    match IndexOfId(ms, config.id)
    case Some(i) => ms[i := config]
    case None => ms + [config]
  }

  /** The array `deleteModel` writes: every configuration with another id, in order. */
  function WithoutId(ms: seq<TextModelConfig>, id: string): (r: seq<TextModelConfig>)
    ensures forall i :: 0 <= i < |r| ==> r[i].id != id && r[i] in ms
    ensures forall m :: m in ms && m.id != id ==> m in r
  {
    Seqs.Filter(ms, (m: TextModelConfig) => m.id != id)
  }

  /** The first configuration with the id is found at `i`. */
  lemma IndexOfIdAt(ms: seq<TextModelConfig>, id: string, i: nat)
    requires i < |ms| && ms[i].id == id
    requires forall j :: 0 <= j < i ==> ms[j].id != id
    ensures IndexOfId(ms, id) == Some(i)
  {
  }

  /**
   * `saveModel`: an existing id keeps its place and the length; a new id is
   * appended. Ids stay unique, the saved configuration is what `getModel`
   * finds under its id, and every other id finds what it found before.
   */
  lemma UpsertFinds(ms: seq<TextModelConfig>, config: TextModelConfig, other: string)
    requires other != config.id
    ensures FindModel(ms, config.id).Some? ==> |Upsert(ms, config)| == |ms|
    ensures FindModel(ms, config.id).None? ==> |Upsert(ms, config)| == |ms| + 1
    ensures UniqueIds(ms) ==> UniqueIds(Upsert(ms, config))
    ensures FindModel(Upsert(ms, config), config.id) == Some(config)
    ensures FindModel(Upsert(ms, config), other) == FindModel(ms, other)
  {
    var r := Upsert(ms, config);
    var found := IndexOfId(ms, other);
    if IndexOfId(ms, config.id).Some? {
      var i := IndexOfId(ms, config.id).value;
      IndexOfIdAt(r, config.id, i);
      if found.None? {
        forall j | 0 <= j < |r| ensures r[j].id != other {
          if j != i {
            assert r[j] == ms[j];
          }
        }
      } else {
        var j := found.value;
        forall l | 0 <= l < j ensures r[l].id != other {
          if l != i {
            assert r[l] == ms[l];
          }
        }
        assert r[j] == ms[j];
        IndexOfIdAt(r, other, j);
      }
    } else {
      IndexOfIdAt(r, config.id, |ms|);
      if found.None? {
        forall j | 0 <= j < |r| ensures r[j].id != other {
          if j < |ms| {
            assert r[j] == ms[j];
          }
        }
      } else {
        IndexOfIdAt(r, other, found.value);
      }
    }
  }

  /** `deleteModel`: nothing with the id is left, and every other id finds what it found before. */
  lemma {:induction false} WithoutIdFinds(ms: seq<TextModelConfig>, id: string, other: string)
    requires other != id
    ensures FindModel(WithoutId(ms, id), id) == None
    ensures FindModel(WithoutId(ms, id), other) == FindModel(ms, other)
  {
    if ms != [] {
      WithoutIdFinds(ms[1..], id, other);
      var rest := WithoutId(ms[1..], id);
      var r := WithoutId(ms, id);
      if ms[0].id == id {
        assert r == rest;
      } else {
        assert r == [ms[0]] + rest;
        if ms[0].id != other {
          assert r[1..] == rest;
        }
      }
    }
  }

  /** Deleting an id no configuration has leaves the array as it was. */
  lemma WithoutAbsentId(ms: seq<TextModelConfig>, id: string)
    requires forall i :: 0 <= i < |ms| ==> ms[i].id != id
    ensures WithoutId(ms, id) == ms
  {
    Seqs.FilterAll(ms, (m: TextModelConfig) => m.id != id);
  }

  class LocalStorageModelManager {
    const storage: StorageAdapter
    const codec: Codec<seq<TextModelConfig>>

    constructor(storage: StorageAdapter, codec: Codec<seq<TextModelConfig>>)
      ensures this.storage == storage && this.codec == codec
    {
      this.storage := storage;
      this.codec := codec;
    }

    /** `getAllModels`: the stored array, or an empty one when the read or decode fails. */
    method GetAllModels(readFails: bool) returns (ms: seq<TextModelConfig>)
      ensures ms == ReadValue(storage.items, StorageKey, [], codec, readFails)
    {
      ms := storage.GetData(StorageKey, [], codec, readFails);
    }

    /** `getModel`: the first stored configuration with the id, or nothing. */
    method GetModel(modelKey: string, readFails: bool) returns (r: Option<TextModelConfig>)
      ensures var ms := ReadValue(storage.items, StorageKey, [], codec, readFails);
        && (r.None? <==> forall i :: 0 <= i < |ms| ==> ms[i].id != modelKey)
        && (r.Some? ==> r.value.id == modelKey && r.value == ms[IndexOfId(ms, modelKey).value])
    {
      var ms := GetAllModels(readFails);
      r := FindModel(ms, modelKey);
    }

    /** `saveModel`: replaces the configuration with the same id in place, or appends it. */
    method SaveModel(config: TextModelConfig, readFails: bool, writeFault: Option<string>) returns (r: Result<()>)
      modifies storage
      ensures writeFault.None? ==>
        r == Ok(()) && storage.items == old(storage.items)[StorageKey :=
          codec.encode(Upsert(OrEmpty(Stored(old(storage.items), StorageKey, codec, readFails)), config))]
      ensures writeFault.Some? ==> r == Err(writeFault.value) && storage.items == old(storage.items)
    {
      r := storage.UpdateData(StorageKey,
                              (o: Option<seq<TextModelConfig>>) => Upsert(OrEmpty(o), config),
                              codec, readFails, writeFault);
    }

    /** `deleteModel`: keeps every configuration with another id. */
    method DeleteModel(modelKey: string, readFails: bool, writeFault: Option<string>) returns (r: Result<()>)
      modifies storage
      ensures writeFault.None? ==>
        r == Ok(()) && storage.items == old(storage.items)[StorageKey :=
          codec.encode(WithoutId(OrEmpty(Stored(old(storage.items), StorageKey, codec, readFails)), modelKey))]
      ensures writeFault.Some? ==> r == Err(writeFault.value) && storage.items == old(storage.items)
    {
      r := storage.UpdateData(StorageKey,
                              (o: Option<seq<TextModelConfig>>) => WithoutId(OrEmpty(o), modelKey),
                              codec, readFails, writeFault);
    }
  }

  /**
   * After a save whose array round-trips, `getModel` finds the saved
   * configuration under its id and, when the read inside the save succeeded,
   * what it found before under every other id.
   */
  lemma SaveThenGetModel(items: map<string, string>, codec: Codec<seq<TextModelConfig>>, config: TextModelConfig,
                         readFails: bool, other: string)
    requires other != config.id
    requires RoundTrips(codec, Upsert(OrEmpty(Stored(items, StorageKey, codec, readFails)), config))
    ensures var after := items[StorageKey := codec.encode(Upsert(OrEmpty(Stored(items, StorageKey, codec, readFails)), config))];
      && FindModel(ReadValue(after, StorageKey, [], codec, false), config.id) == Some(config)
      && (!readFails ==> FindModel(ReadValue(after, StorageKey, [], codec, false), other)
                         == FindModel(ReadValue(items, StorageKey, [], codec, false), other))
  {
    var before := OrEmpty(Stored(items, StorageKey, codec, readFails));
    SetThenGet(items, StorageKey, Upsert(before, config), [], codec);
    UpsertFinds(before, config, other);
    if !readFails {
      assert before == ReadValue(items, StorageKey, [], codec, false);
    }
  }

  /** The in-memory manager: a map from id to configuration, empty at first. */
  class MemoryModelManager {
    var models: Dict<TextModelConfig>

    constructor()
      ensures models == []
    {
      models := [];
    }

    /** `getModel`: the configuration stored under the id, or nothing. */
    method GetModel(modelKey: string) returns (r: Option<TextModelConfig>)
      ensures r.None? <==> !HasKey(models, modelKey)
      ensures r.Some? ==> r.value == Get(models, modelKey).value
    {
      r := Get(models, modelKey);
    }

    /**
     * `getAllModels`: the stored configurations in map order. Every
     * configuration `getModel` finds is listed and, with unique keys, the
     * i-th one listed is what `getModel` finds under the i-th key.
     */
    method GetAllModels() returns (all: seq<TextModelConfig>)
      ensures all == Values(models)
      ensures forall k :: HasKey(models, k) ==> Get(models, k).value in all
      ensures Unique(models) ==> forall i :: 0 <= i < |all| ==> Get(models, models[i].0) == Some(all[i])
    {
      all := Values(models);
      if Unique(models) {
        forall i | 0 <= i < |all|
          ensures Get(models, models[i].0) == Some(all[i])
        {
          FindAt(models, models[i].0, i);
        }
      }
    }

    /** `saveModel`: sets the configuration under its id, overwriting any earlier one. */
    method SaveModel(config: TextModelConfig)
      modifies this
      ensures models == Put(old(models), config.id, config)
      ensures Get(models, config.id) == Some(config)
      ensures forall k :: k != config.id ==> Get(models, k) == Get(old(models), k)
      ensures Unique(old(models)) ==> Unique(models)
    {
      PutGet(models, config.id, config);
      models := Put(models, config.id, config);
    }

    /** `deleteModel`: afterwards the id finds nothing and every other id finds what it found. */
    method DeleteModel(modelKey: string)
      modifies this
      ensures models == Remove(old(models), modelKey)
      ensures Get(models, modelKey) == None
      ensures forall k :: k != modelKey ==> Get(models, k) == Get(old(models), k)
    {
      forall k | k != modelKey ensures Get(Remove(models, modelKey), k) == Get(models, k) {
        RemoveGet(models, modelKey, k);
      }
      models := Remove(models, modelKey);
    }
  }
}
