/**
 * Image size checks for the history log: the size of a base64 data URL is
 * the length of its payload, and payloads over 500 KiB count as too large.
 * The canvas thumbnailer itself is an oracle here.
 */
module ImageCompress {
  import opened Base

  const DataImagePrefix := "data:image"

  /** 500 KiB, in base64 characters. */
  const MaxImageSize := 500 * 1024

  /**
   * `getImageSize`: 0 for a URL that is not a `data:image` URL; otherwise the
   * length of the text between the first and second comma (or the end), and 0
   * when there is no comma.
   */
  function GetImageSize(imageUrl: string): (size: nat)
    ensures !StartsWith(imageUrl, DataImagePrefix) ==> size == 0
    ensures StartsWith(imageUrl, DataImagePrefix) && ',' !in imageUrl ==> size == 0
    ensures StartsWith(imageUrl, DataImagePrefix) && ',' in imageUrl ==> size == |SecondField(imageUrl, ',').value|
    ensures size < |imageUrl| || size == 0
  {
    if !StartsWith(imageUrl, DataImagePrefix) then 0
    else match SecondField(imageUrl, ',')
      case Some(data) => |data|
      case None => 0
  }

  /** `isImageTooLarge`: the size exceeds 500 KiB. */
  predicate IsImageTooLarge(imageUrl: string) {
    GetImageSize(imageUrl) > MaxImageSize
  }

  /** The size of a base64 data URL is the length of its payload. */
  lemma SizeOfDataUrl(mime: string, payload: string)
    requires ',' !in mime && ',' !in payload
    ensures GetImageSize("data:image/" + mime + ";base64," + payload) == |payload|
    ensures IsImageTooLarge("data:image/" + mime + ";base64," + payload) <==> |payload| > 512000
  {
    var head := "data:image/" + mime + ";base64";
    var url := "data:image/" + mime + ";base64," + payload;
    assert url == head + [','] + payload;
    assert url[..10] == DataImagePrefix;
    SecondFieldOf(head, ',', payload);
  }

  /** A URL that is not a data URL, and one no longer than 500 KiB, is never too large. */
  lemma ShortUrlsNeverTooLarge(imageUrl: string)
    requires !StartsWith(imageUrl, DataImagePrefix) || |imageUrl| <= MaxImageSize
    ensures !IsImageTooLarge(imageUrl)
  {
  }

  /**
   * `compressImageToThumbnail`: a URL that is not a data URL comes back as it
   * is; for a data URL the result is whatever the canvas produced, `None`
   * when it failed.
   */
  function CompressImageToThumbnail(imageUrl: string, rendered: Option<string>): (r: Option<string>)
    ensures !StartsWith(imageUrl, DataImagePrefix) ==> r == Some(imageUrl)
    ensures StartsWith(imageUrl, DataImagePrefix) ==> r == rendered
  {
    if !StartsWith(imageUrl, DataImagePrefix) then Some(imageUrl) else rendered
  }
}
