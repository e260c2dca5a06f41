/**
 * The history log: at most 50 records, newest first, stored as one array.
 * Image records have large data URLs swapped for a thumbnail before they are
 * stored; when a write fails for lack of quota, the log is cut to its 25
 * newest records and the write is tried once more. Adding a record never
 * reports an error to its caller.
 */
module History {
  import opened Base
  import opened Storage
  import opened ImageCompress
  import Seqs

  const StorageKey := "text-image-prompt-tools:history"
  const MaxRecords := 50
  /** `Math.floor(MAX_RECORDS / 2)`. */
  const KeptOnQuota := MaxRecords / 2

  datatype RecordType = PromptOptimize | ImageToPrompt

  datatype HistoryRecord =
    | PromptOptimizeRecord(id: string, originalPrompt: string, optimizedPrompt: string, modelKey: string,
                           modelName: Option<string>, style: string, timestamp: int)
    | ImageToPromptRecord(id: string, imageUrl: string, prompt: string, modelKey: string,
                          modelName: Option<string>, timestamp: int)
  {
    function Type(): RecordType {
      if PromptOptimizeRecord? then PromptOptimize else ImageToPrompt
    }
  }

  /** A failed provider write, as thrown: its name and its message, if any. */
  datatype StorageFault = StorageFault(name: string, message: Option<string>)

  /** The fault counts as a quota error when its message mentions quota or its name says so. */
  predicate IsQuota(f: StorageFault) {
    (f.message.Some? && (Contains(f.message.value, "quota") || Contains(f.message.value, "QuotaExceeded")))
    || f.name == "QuotaExceededError"
  }

  /** The error message a provider fault carries into `Result`. */
  function FaultMessage(f: Option<StorageFault>): Option<string> {
    match f
    case Some(fault) => Some(OrElse(fault.message, fault.name))
    case None => None
  }

  /** `slice(0, n)`. */
  function Take<T>(xs: seq<T>, n: nat): (r: seq<T>)
    ensures |r| <= n && |r| <= |xs| && r == xs[..|r|]
    ensures |xs| <= n ==> r == xs
  {
    if |xs| <= n then xs else xs[..n]
  }

  /**
   * The image type the pattern `^data:image\/([^;]+);base64,` captures: the
   * text after `data:image/` up to the first `;`, when it is non-empty and
   * followed by `;base64,`; `unknown` otherwise.
   */
  function ImageTypeOf(imageUrl: string): (t: string)
    ensures t == "unknown" || (StartsWith(imageUrl, "data:image/") && ';' !in t)
  {
    if !StartsWith(imageUrl, "data:image/") then "unknown"
    else
      var rest := imageUrl[11..];
      match IndexOf(rest, ";")
      case None => "unknown"
      case Some(k) =>
        if k > 0 && HasAt(rest, k, ";base64,") then
          HasAtChar(rest, ';');
          assert forall j :: 0 <= j < k ==> rest[j] != ';';
          rest[..k]
        else "unknown"
  }

  /** The type of a well-formed base64 data URL is the text between `data:image/` and `;`. */
  lemma ImageTypeOfDataUrl(mime: string, payload: string)
    requires mime != "" && ';' !in mime
    ensures ImageTypeOf("data:image/" + mime + ";base64," + payload) == mime
  {
    var url := "data:image/" + mime + ";base64," + payload;
    var rest := url[11..];
    assert rest == mime + ";" + ("base64," + payload);
    IndexOfAfter(mime, ";", "base64," + payload);
    assert rest[|mime|..|mime| + 8] == ";base64,";
  }

  /** The stand-in stored when a large image could not be thumbnailed. */
  function CompressedMarker(imageUrl: string): string {
    "data:image/" + ImageTypeOf(imageUrl) + ";base64," + "[compressed]"
  }

  /**
   * `compressImageUrl`: a URL that is not a data URL, or is not too large, is
   * kept; a large one becomes its thumbnail, or the marker when the canvas
   * produced none. `rendered` is the canvas outcome.
   */
  function CompressImageUrl(imageUrl: string, rendered: Option<string>): (r: string)
    ensures !StartsWith(imageUrl, DataImagePrefix) ==> r == imageUrl
    ensures !IsImageTooLarge(imageUrl) ==> r == imageUrl
    ensures IsImageTooLarge(imageUrl) && Truthy(rendered) ==> r == rendered.value
    ensures IsImageTooLarge(imageUrl) && !Truthy(rendered) ==> r == CompressedMarker(imageUrl)
  {
    if !StartsWith(imageUrl, DataImagePrefix) then imageUrl
    else if IsImageTooLarge(imageUrl) then
      var thumbnail := CompressImageToThumbnail(imageUrl, rendered);
      if Truthy(thumbnail) then thumbnail.value else CompressedMarker(imageUrl)
    else imageUrl
  }

  /** The marker of a data URL whose type has no comma is never too large, so compressing it again keeps it. */
  lemma MarkerIsSmall(imageUrl: string, rendered: Option<string>)
    requires ',' !in ImageTypeOf(imageUrl)
    ensures !IsImageTooLarge(CompressedMarker(imageUrl))
    ensures CompressImageUrl(CompressedMarker(imageUrl), rendered) == CompressedMarker(imageUrl)
  {
    MarkerOfTypeIsSmall(ImageTypeOf(imageUrl), rendered);
  }

  /** The marker text for a type without a comma is not too large, and compressing it keeps it. */
  lemma MarkerOfTypeIsSmall(t: string, rendered: Option<string>)
    requires ',' !in t
    ensures !IsImageTooLarge("data:image/" + t + ";base64," + "[compressed]")
    ensures CompressImageUrl("data:image/" + t + ";base64," + "[compressed]", rendered)
         == "data:image/" + t + ";base64," + "[compressed]"
  {
    SizeOfDataUrl(t, "[compressed]");
  }

  /** `addRecord`'s first step: image records get their URL compressed, others are kept. */
  function Prepared(record: HistoryRecord, rendered: Option<string>): (r: HistoryRecord)
    ensures r.Type() == record.Type() && r.id == record.id
    ensures record.PromptOptimizeRecord? ==> r == record
    ensures record.ImageToPromptRecord? ==> r == record.(imageUrl := CompressImageUrl(record.imageUrl, rendered))
  {
    if record.ImageToPromptRecord? then record.(imageUrl := CompressImageUrl(record.imageUrl, rendered)) else record
  }

  /**
   * The quota retry compresses the already prepared record again; when the
   * first pass left a URL that is not too large, the second pass keeps it.
   */
  lemma RecompressKeeps(record: HistoryRecord, rendered: Option<string>, renderedAgain: Option<string>)
    requires record.ImageToPromptRecord? ==> !IsImageTooLarge(CompressImageUrl(record.imageUrl, rendered))
    ensures Prepared(Prepared(record, rendered), renderedAgain) == Prepared(record, rendered)
  {
  }

  /** The list `addRecord` writes: the record first, then the earlier ones, cut to 50. */
  function Prepend(record: HistoryRecord, records: seq<HistoryRecord>): seq<HistoryRecord> {
    Take([record] + records, MaxRecords)
  }

  /**
   * The log never exceeds 50 records; the new record is first and the earlier
   * ones follow in their order, the oldest dropped when the log was full.
   */
  lemma PrependNewestFirst(record: HistoryRecord, records: seq<HistoryRecord>)
    ensures 1 <= |Prepend(record, records)| <= MaxRecords
    ensures Prepend(record, records)[0] == record
    ensures Prepend(record, records)[1..] == Take(records, MaxRecords - 1)
    ensures |records| < MaxRecords ==> Prepend(record, records) == [record] + records
  {
    var r := Prepend(record, records);
    if |records| >= MaxRecords {
      assert r[1..] == records[..MaxRecords - 1];
    }
  }

  /** Prepending to a cut log of 25 keeps all 25: the retry writes the record and then the 25 newest. */
  lemma QuotaRetryKeepsNewest(record: HistoryRecord, records: seq<HistoryRecord>)
    ensures Prepend(record, Take(records, KeptOnQuota)) == [record] + Take(records, KeptOnQuota)
    ensures |Prepend(record, Take(records, KeptOnQuota))| <= KeptOnQuota + 1
  {
  }

  /** The records of one type, in order; every type when none is given. */
  function OfType(records: seq<HistoryRecord>, recordType: Option<RecordType>): seq<HistoryRecord> {
    match recordType
    case None => records
    case Some(t) => Seqs.Filter(records, (r: HistoryRecord) => r.Type() == t)
  }

  /** The records not of the type. */
  function WithoutType(records: seq<HistoryRecord>, t: RecordType): seq<HistoryRecord> {
    Seqs.Filter(records, (r: HistoryRecord) => r.Type() != t)
  }

  /** The records with another id. */
  function WithoutRecord(records: seq<HistoryRecord>, id: string): seq<HistoryRecord> {
    Seqs.Filter(records, (r: HistoryRecord) => r.id != id)
  }

  /** `find(r => r.id === id) || null`. */
  function FindRecord(records: seq<HistoryRecord>, id: string): (r: Option<HistoryRecord>)
    ensures r.None? <==> forall i :: 0 <= i < |records| ==> records[i].id != id
    ensures r.Some? ==> r.value.id == id
    ensures r.Some? ==> exists i :: (0 <= i < |records| && records[i] == r.value && forall j :: 0 <= j < i ==> records[j].id != id)
  {
    if records == [] then None
    else if records[0].id == id then Some(records[0])
    else
      var rest := FindRecord(records[1..], id);
      if rest.Some? then
        var i :| (0 <= i < |records[1..]| && records[1..][i] == rest.value && forall j :: 0 <= j < i ==> records[1..][j].id != id);
        assert records[i + 1] == rest.value;
        assert forall j :: 1 <= j < i + 1 ==> records[j] == records[1..][j - 1];
        rest
      else rest
  }

  /**
   * `clearRecords(t)` removes exactly the records of type `t`: afterwards
   * `getRecords(t)` is empty and the records of the other type are as before.
   */
  lemma {:induction false} ClearTypeKeepsOthers(records: seq<HistoryRecord>, t: RecordType, u: RecordType)
    ensures OfType(WithoutType(records, t), Some(t)) == []
    ensures u != t ==> OfType(WithoutType(records, t), Some(u)) == OfType(records, Some(u))
  {
    if records != [] {
      ClearTypeKeepsOthers(records[1..], t, u);
      var rest := WithoutType(records[1..], t);
      if records[0].Type() == t {
        assert WithoutType(records, t) == rest;
      } else {
        assert WithoutType(records, t) == [records[0]] + rest;
        assert ([records[0]] + rest)[1..] == rest;
      }
    }
  }

  /** `deleteRecord(id)` leaves no record with the id, and every other id finds what it found. */
  lemma {:induction false} DeleteRecordFinds(records: seq<HistoryRecord>, id: string, other: string)
    requires other != id
    ensures FindRecord(WithoutRecord(records, id), id) == None
    ensures FindRecord(WithoutRecord(records, id), other) == FindRecord(records, other)
  {
    if records != [] {
      DeleteRecordFinds(records[1..], id, other);
      var rest := WithoutRecord(records[1..], id);
      if records[0].id == id {
        assert WithoutRecord(records, id) == rest;
      } else {
        assert WithoutRecord(records, id) == [records[0]] + rest;
        assert ([records[0]] + rest)[1..] == rest;
      }
    }
  }

  class HistoryManager {
    const storage: StorageAdapter
    const codec: Codec<seq<HistoryRecord>>

    constructor(storage: StorageAdapter, codec: Codec<seq<HistoryRecord>>)
      ensures this.storage == storage && this.codec == codec
    {
      this.storage := storage;
      this.codec := codec;
    }

    /**
     * `addRecord`. The record is prepared and prepended through `updateData`.
     * If that write fails with a quota error, the stored log is read again,
     * cut to 25 records and written, the record is prepared once more and the
     * log with it in front is written. Any other failure, or a failure of the
     * retry, is swallowed. `rendered` and `renderedAgain` are the canvas
     * outcomes of the two compressions; the faults are those of the three writes.
     */
    method AddRecord(record: HistoryRecord, rendered: Option<string>, renderedAgain: Option<string>,
                     readFails: bool, writeFault: Option<StorageFault>,
                     rereadFails: bool, cleanFault: Option<StorageFault>, retryFault: Option<StorageFault>)
      modifies storage
      ensures writeFault.None? ==>
        storage.items == old(storage.items)[StorageKey :=
          codec.encode(Prepend(Prepared(record, rendered), OrEmpty(Stored(old(storage.items), StorageKey, codec, readFails))))]
      ensures writeFault.Some? && !IsQuota(writeFault.value) ==> storage.items == old(storage.items)
      ensures writeFault.Some? && IsQuota(writeFault.value) ==>
        var cleaned := Take(ReadValue(old(storage.items), StorageKey, [], codec, rereadFails), KeptOnQuota);
        && (cleanFault.Some? ==> storage.items == old(storage.items))
        && (cleanFault.None? && retryFault.Some? ==> storage.items == old(storage.items)[StorageKey := codec.encode(cleaned)])
        && (cleanFault.None? && retryFault.None? ==>
              storage.items == old(storage.items)[StorageKey :=
                codec.encode(Prepend(Prepared(Prepared(record, rendered), renderedAgain), cleaned))])
    {
      var prepared := Prepared(record, rendered);
      var r := storage.UpdateData(StorageKey,
                                  (o: Option<seq<HistoryRecord>>) => Prepend(prepared, OrEmpty(o)),
                                  codec, readFails, FaultMessage(writeFault));
      if r.Err? && IsQuota(writeFault.value) {
        var records := storage.GetData(StorageKey, [], codec, rereadFails);
        var cleaned := Take(records, KeptOnQuota);
        var cleanResult := storage.SetData(StorageKey, cleaned, codec, FaultMessage(cleanFault));
        if cleanResult.Ok? {
          var again := Prepared(prepared, renderedAgain);
          var retryResult := storage.SetData(StorageKey, Prepend(again, cleaned), codec, FaultMessage(retryFault));
        }
      }
    }

    /** `getRecords`: the stored log, filtered by type when one is given. */
    method GetRecords(recordType: Option<RecordType>, readFails: bool) returns (rs: seq<HistoryRecord>)
      ensures var stored := ReadValue(storage.items, StorageKey, [], codec, readFails);
        && (recordType.None? ==> rs == stored)
        && (recordType.Some? ==> forall i :: 0 <= i < |rs| ==> rs[i].Type() == recordType.value && rs[i] in stored)
        && (recordType.Some? ==> forall r :: r in stored && r.Type() == recordType.value ==> r in rs)
        && rs == OfType(stored, recordType)
    {
      var records := storage.GetData(StorageKey, [], codec, readFails);
      rs := OfType(records, recordType);
    }

    /** `getRecord`: the first stored record with the id, or nothing. */
    method GetRecord(id: string, readFails: bool) returns (r: Option<HistoryRecord>)
      ensures r == FindRecord(ReadValue(storage.items, StorageKey, [], codec, readFails), id)
    {
      var records := storage.GetData(StorageKey, [], codec, readFails);
      r := FindRecord(records, id);
    }

    /** `deleteRecord`: keeps every record with another id. */
    method DeleteRecord(id: string, readFails: bool, writeFault: Option<string>) returns (r: Result<()>)
      modifies storage
      ensures writeFault.None? ==>
        r == Ok(()) && storage.items == old(storage.items)[StorageKey :=
          codec.encode(WithoutRecord(OrEmpty(Stored(old(storage.items), StorageKey, codec, readFails)), id))]
      ensures writeFault.Some? ==> r == Err(writeFault.value) && storage.items == old(storage.items)
    {
      r := storage.UpdateData(StorageKey,
                              (o: Option<seq<HistoryRecord>>) => WithoutRecord(OrEmpty(o), id),
                              codec, readFails, writeFault);
    }

    /** `clearRecords`: with a type, keeps the records of the other type; without, writes an empty log. */
    method ClearRecords(recordType: Option<RecordType>, readFails: bool, writeFault: Option<string>)
      returns (r: Result<()>)
      modifies storage
      ensures writeFault.None? && recordType.Some? ==>
        r == Ok(()) && storage.items == old(storage.items)[StorageKey :=
          codec.encode(WithoutType(OrEmpty(Stored(old(storage.items), StorageKey, codec, readFails)), recordType.value))]
      ensures writeFault.None? && recordType.None? ==>
        r == Ok(()) && storage.items == old(storage.items)[StorageKey := codec.encode([])]
      ensures writeFault.Some? ==> r == Err(writeFault.value) && storage.items == old(storage.items)
    {
      match recordType {
        case Some(t) =>
          r := storage.UpdateData(StorageKey,
                                  (o: Option<seq<HistoryRecord>>) => WithoutType(OrEmpty(o), t),
                                  codec, readFails, writeFault);
        case None =>
          r := storage.SetData(StorageKey, [], codec, writeFault);
      }
    }
  }
}
