/**
 * The storage adapter: typed reads and writes over a string key-value
 * provider (the browser's `localStorage`). Values are written with an
 * encoder and read back with a decoder that may fail; a miss, an empty
 * string, a failed read or a failed decode all yield the caller's default.
 */
module Storage {
  import opened Base

  /** `JSON.stringify` and `JSON.parse` for one value type; `decode` is `None` where parsing throws. */
  datatype Codec<!T> = Codec(encode: T -> string, decode: string -> Option<T>)

  /** A value the codec writes as a non-empty string and reads back unchanged. */
  ghost predicate RoundTrips<T>(codec: Codec<T>, v: T) {
    codec.encode(v) != "" && codec.decode(codec.encode(v)) == Some(v)
  }

  /** The value stored under `key`, if the read succeeds, something non-empty is stored, and it decodes. */
  function Stored<T>(items: map<string, string>, key: string, codec: Codec<T>, readFails: bool): (r: Option<T>)
    ensures readFails || key !in items || items[key] == "" ==> r == None
    ensures r.Some? ==> key in items && codec.decode(items[key]) == r
  {
    if readFails || key !in items || items[key] == "" then None else codec.decode(items[key])
  }

  /** `getData(key, default)`: the stored value, or the default whenever there is none. */
  function ReadValue<T>(items: map<string, string>, key: string, default: T, codec: Codec<T>, readFails: bool): (r: T)
    ensures Stored(items, key, codec, readFails).Some? ==> r == Stored(items, key, codec, readFails).value
    ensures Stored(items, key, codec, readFails).None? ==> r == default
  {
    match Stored(items, key, codec, readFails)
    case Some(v) => v
    case None => default
  }

  class StorageAdapter {
    /** The provider's contents. */
    var items: map<string, string>

    constructor(initial: map<string, string>)
      ensures items == initial
    {
      items := initial;
    }

    /** `getData`: never fails; a failed read or decode falls back to the default. */
    method GetData<T>(key: string, default: T, codec: Codec<T>, readFails: bool) returns (v: T)
      ensures v == ReadValue(items, key, default, codec, readFails)
    {
      if readFails || key !in items || items[key] == "" {
        v := default;
      } else {
        match codec.decode(items[key]) {
          case Some(decoded) => v := decoded;
          case None => v := default;
        }
      }
    }

    /** `setData`: writes the encoded value; a provider failure is passed on and nothing is written. */
    method SetData<T>(key: string, value: T, codec: Codec<T>, writeFault: Option<string>) returns (r: Result<()>)
      modifies this
      ensures writeFault.None? ==> r == Ok(()) && items == old(items)[key := codec.encode(value)]
      ensures writeFault.Some? ==> r == Err(writeFault.value) && items == old(items)
    {
      match writeFault {
        case Some(e) => r := Err(e);
        case None =>
          items := items[key := codec.encode(value)];
          r := Ok(());
      }
    }

    /**
     * `updateData`: reads with the default `null` (here `None`), applies the
     * updater, and writes its result.
     */
    method UpdateData<T>(key: string, updater: Option<T> -> T, codec: Codec<T>, readFails: bool,
                         writeFault: Option<string>) returns (r: Result<()>)
      modifies this
      ensures writeFault.None? ==>
        r == Ok(()) && items == old(items)[key := codec.encode(updater(Stored(old(items), key, codec, readFails)))]
      ensures writeFault.Some? ==> r == Err(writeFault.value) && items == old(items)
    {
      var current: Option<T> := None;
      if !readFails && key in items && items[key] != "" {
        current := codec.decode(items[key]);
      }
      r := SetData(key, updater(current), codec, writeFault);
    }

    /** `removeData`. */
    method RemoveData(key: string)
      modifies this
      ensures items == old(items) - {key}
    {
      items := items - {key};
    }
  }

  /** A written value that round-trips is read back as written. */
  lemma SetThenGet<T>(items: map<string, string>, key: string, v: T, default: T, codec: Codec<T>)
    requires RoundTrips(codec, v)
    ensures ReadValue(items[key := codec.encode(v)], key, default, codec, false) == v
  {
  }

  /** Writing or removing one key leaves every other key's reads as they were. */
  lemma OtherKeysUnchanged<T>(items: map<string, string>, key: string, s: string, other: string, default: T,
                              codec: Codec<T>, readFails: bool)
    requires other != key
    ensures ReadValue(items[key := s], other, default, codec, readFails) == ReadValue(items, other, default, codec, readFails)
    ensures ReadValue(items - {key}, other, default, codec, readFails) == ReadValue(items, other, default, codec, readFails)
  {
  }

  /** After `removeData(key)`, `getData(key, d)` is `d`. */
  lemma RemoveThenGet<T>(items: map<string, string>, key: string, default: T, codec: Codec<T>, readFails: bool)
    ensures ReadValue(items - {key}, key, default, codec, readFails) == default
  {
  }

  /** A read that fails or a value that does not decode both yield the default, never an error. */
  lemma FailedReadsGiveDefault<T>(items: map<string, string>, key: string, default: T, codec: Codec<T>, readFails: bool)
    requires readFails || (key in items && items[key] != "" && codec.decode(items[key]).None?)
    ensures ReadValue(items, key, default, codec, readFails) == default
  {
  }
}
