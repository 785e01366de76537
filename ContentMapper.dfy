/**
 * `ContentMapper`: converts between the domain `SavedContent` and the
 * persisted `SDContent` row. Both directions are total: an unreadable URL
 * string becomes a sentinel URL, an unknown category code becomes `Web`, and
 * empty collections are stored as "no value".
 *
 * Embedding vectors are stored as the raw bytes of their binary32 elements,
 * in order, with no length prefix. The byte order is the device's native
 * order, fixed here as little-endian.
 */
module ContentMapper {
  import opened Wrappers
  import opened Domain
  import opened Foundation
  import opened SDContentRecord

  /** The text of the fallback URL used for unreadable stored URL strings. */
  const InvalidURLString: string := "https://invalid.url"

  /**
   * The fallback URL: what Foundation parses `InvalidURLString` to. That the
   * injected parser agrees is the hypothesis `ParsesBack(lib, InvalidURL)`.
   */
  const InvalidURL: Url := Url(InvalidURLString, Some("invalid.url"), "")

  // ----- Embedding vectors <-> bytes -----

  /** The four bytes of one element, least significant first. */
  function WordBytes(w: Word): (b: seq<Byte>)
    ensures |b| == 4
  {
    [(w & 0xFF) as Byte, ((w >> 8) & 0xFF) as Byte, ((w >> 16) & 0xFF) as Byte, (w >> 24) as Byte]
  }

  /** The element stored in the first four bytes of `b`. */
  function BytesWord(b: seq<Byte>): Word
    requires |b| >= 4
  {
    (b[0] as Word) | ((b[1] as Word) << 8) | ((b[2] as Word) << 16) | ((b[3] as Word) << 24)
  }

  lemma WordBytesRoundTrip(w: Word)
    ensures BytesWord(WordBytes(w)) == w
  {
  }

  lemma BytesWordRoundTrip(b: seq<Byte>)
    requires |b| == 4
    ensures WordBytes(BytesWord(b)) == b
  {
  }

  /** `Data(buffer:)` over a `[Float]`: the elements' bytes back to back. */
  function Pack(v: seq<Word>): (d: seq<Byte>)
    ensures |d| == 4 * |v|
  {
    if |v| == 0 then [] else WordBytes(v[0]) + Pack(v[1..])
  }

  /**
   * `Array(buffer.bindMemory(to: Float.self))`: one element per whole group of
   * four bytes; trailing bytes that do not fill an element are dropped.
   */
  function Unpack(d: seq<Byte>): (v: seq<Word>)
    ensures |v| == |d| / 4
  {
    if |d| < 4 then [] else [BytesWord(d)] + Unpack(d[4..])
  }

  /** Unpacking packed elements gives back the same elements in the same order. */
  lemma {:induction false} UnpackPack(v: seq<Word>)
    ensures Unpack(Pack(v)) == v
  {
    if |v| > 0 {
      var d := Pack(v);
      assert d == WordBytes(v[0]) + Pack(v[1..]);
      assert d[..4] == WordBytes(v[0]);
      assert d[4..] == Pack(v[1..]);
      WordBytesRoundTrip(v[0]);
      assert BytesWord(d) == BytesWord(d[..4]);
      UnpackPack(v[1..]);
    }
  }

  /** Packing unpacked bytes gives back the buffer without its incomplete tail. */
  lemma {:induction false} PackUnpack(d: seq<Byte>)
    ensures Pack(Unpack(d)) == d[..|d| / 4 * 4]
  {
    if |d| >= 4 {
      var v := Unpack(d);
      assert v[0] == BytesWord(d) && v[1..] == Unpack(d[4..]);
      BytesWordRoundTrip(d[..4]);
      assert BytesWord(d[..4]) == BytesWord(d);
      PackUnpack(d[4..]);
      assert |d[4..]| / 4 * 4 + 4 == |d| / 4 * 4;
      assert d[..|d| / 4 * 4] == d[..4] + d[4..][..|d[4..]| / 4 * 4];
    }
  }

  /** `encodeEmbedding`: "no value" for an absent or empty vector, the packed bytes otherwise. */
  function EncodeEmbedding(v: Option<seq<Word>>): (r: Option<seq<Byte>>)
    ensures r.None? <==> v.None? || |v.value| == 0
    ensures r.Some? ==> |r.value| == 4 * |v.value| && Unpack(r.value) == v.value
  {
    match v
    case None => None
    case Some(words) =>
      if |words| == 0 then None else UnpackPack(words); Some(Pack(words))
  }

  /** `decodeEmbedding`: "no value" for absent or empty data, the unpacked elements otherwise. */
  function DecodeEmbedding(d: Option<seq<Byte>>): (r: Option<seq<Word>>)
    ensures r.None? <==> d.None? || |d.value| == 0
    ensures r.Some? ==> |r.value| == |d.value| / 4
    ensures r.Some? ==> Pack(r.value) == d.value[..|d.value| / 4 * 4]
  {
    match d
    case None => None
    case Some(bytes) => if |bytes| == 0 then None else PackUnpack(bytes); Some(Unpack(bytes))
  }

  // ----- Metadata <-> JSON -----

  /** `encodeMetadata`: "no value" for an empty dictionary, its JSON text otherwise. */
  function EncodeMetadata(lib: Library, metadata: map<string, string>): (r: Option<string>)
    ensures metadata == map[] ==> r.None?
    ensures JsonRoundTrips(lib) ==> (r.None? <==> metadata == map[])
  {
    if |metadata| == 0 then None else lib.encodeJSON(metadata)
  }

  /** `decodeMetadata`: the empty dictionary for "no value" or text that is not a JSON dictionary. */
  function DecodeMetadata(lib: Library, json: Option<string>): (r: map<string, string>)
    ensures json.None? ==> r == map[]
    ensures json.Some? && lib.decodeJSON(json.value).None? ==> r == map[]
    ensures json.Some? && lib.decodeJSON(json.value).Some? ==> r == lib.decodeJSON(json.value).value
  {
    match json
    case None => map[]
    case Some(text) => lib.decodeJSON(text).GetOr(map[])
  }

  lemma MetadataRoundTrip(lib: Library, metadata: map<string, string>)
    requires JsonRoundTrips(lib)
    ensures DecodeMetadata(lib, EncodeMetadata(lib, metadata)) == metadata
  {
  }

  // ----- Records -----

  /**
   * `toDomain`: never fails. Readable parts are taken as Foundation reads them;
   * unreadable ones fall back to the sentinel URL, `Web`, no thumbnail and no metadata.
   */
  function ToDomain(lib: Library, sd: SDContent): (r: SavedContent)
    ensures r.id == sd.id && r.title == sd.title && r.createdAt == sd.createdAt && r.summary == sd.summary
    ensures lib.parseURL(sd.urlString).None? ==> r.url == InvalidURL
    ensures lib.parseURL(sd.urlString).Some? ==> Some(r.url) == lib.parseURL(sd.urlString)
    ensures FromRawValue(sd.contentTypeRawValue).None? ==> r.contentType == Web
    ensures FromRawValue(sd.contentTypeRawValue).Some? ==> RawValue(r.contentType) == sd.contentTypeRawValue
    ensures sd.thumbnailURLString.None? ==> r.thumbnailURL.None?
    ensures sd.thumbnailURLString.Some? ==> r.thumbnailURL == lib.parseURL(sd.thumbnailURLString.value)
    ensures sd.metadataJSON.None? ==> r.metadata == map[]
    ensures sd.metadataJSON.Some? && lib.decodeJSON(sd.metadataJSON.value).Some? ==>
      r.metadata == lib.decodeJSON(sd.metadataJSON.value).value
    ensures r.embeddingVector.None? <==> sd.embeddingData.None? || |sd.embeddingData.value| == 0
    ensures r.embeddingVector.Some? ==>
      Pack(r.embeddingVector.value) == sd.embeddingData.value[..|sd.embeddingData.value| / 4 * 4]
  {
    var url := lib.parseURL(sd.urlString).GetOr(InvalidURL);
    var contentType := FromRawValue(sd.contentTypeRawValue).GetOr(Web);
    var thumbnailURL := match sd.thumbnailURLString
      case None => None
      case Some(s) => lib.parseURL(s);
    SavedContent(
      sd.id, sd.title, url, contentType, sd.createdAt, thumbnailURL, sd.summary,
      DecodeMetadata(lib, sd.metadataJSON), DecodeEmbedding(sd.embeddingData))
  }

  /** `toData`: the stored row; its category code reads back as the category. */
  function ToData(lib: Library, c: SavedContent): (r: SDContent)
    ensures r.id == c.id && r.title == c.title && r.createdAt == c.createdAt && r.summary == c.summary
    ensures r.urlString == c.url.absoluteString
    ensures FromRawValue(r.contentTypeRawValue) == Some(c.contentType)
    ensures r.thumbnailURLString.None? <==> c.thumbnailURL.None?
    ensures c.thumbnailURL.Some? ==> r.thumbnailURLString == Some(c.thumbnailURL.value.absoluteString)
    ensures c.metadata == map[] ==> r.metadataJSON.None?
  {
    RawValueRoundTrip(c.contentType);
    SDContent(
      c.id, c.title, c.url.absoluteString, RawValue(c.contentType), c.createdAt,
      match c.thumbnailURL
      case None => None
      case Some(t) => Some(t.absoluteString),
      c.summary,
      EncodeMetadata(lib, c.metadata), EncodeEmbedding(c.embeddingVector))
  }

  /** What a stored-then-loaded vector looks like: an empty vector comes back as "no value". */
  function NormalizedEmbedding(v: Option<seq<Word>>): Option<seq<Word>> {
    if v.Some? && |v.value| == 0 then None else v
  }

  lemma EmbeddingRoundTrip(v: Option<seq<Word>>)
    ensures DecodeEmbedding(EncodeEmbedding(v)) == NormalizedEmbedding(v)
  {
  }

  /**
   * Storing a record and loading it back keeps its id, title, category,
   * creation date, summary and metadata, and its vector up to empty-as-absent.
   */
  lemma RoundTripFields(lib: Library, c: SavedContent)
    requires JsonRoundTrips(lib)
    ensures var d := ToDomain(lib, ToData(lib, c));
      && d.id == c.id && d.title == c.title && d.contentType == c.contentType
      && d.createdAt == c.createdAt && d.summary == c.summary && d.metadata == c.metadata
      && d.embeddingVector == NormalizedEmbedding(c.embeddingVector)
  {
    MetadataRoundTrip(lib, c.metadata);
    EmbeddingRoundTrip(c.embeddingVector);
  }

  /** When Foundation parses the record's URLs back, the whole record round-trips up to empty-as-absent. */
  lemma RoundTrip(lib: Library, c: SavedContent)
    requires JsonRoundTrips(lib)
    requires ParsesBack(lib, c.url)
    requires c.thumbnailURL.Some? ==> ParsesBack(lib, c.thumbnailURL.value)
    ensures ToDomain(lib, ToData(lib, c)) == c.(embeddingVector := NormalizedEmbedding(c.embeddingVector))
  {
    RoundTripFields(lib, c);
  }

  /**
   * Storing a record that was read back from its row gives that row again,
   * except that the metadata JSON text may differ (the encoder writes keys in
   * the order of the dictionary at hand): it is present exactly when it was
   * and decodes to the same dictionary.
   */
  lemma EncodingIdempotent(lib: Library, c: SavedContent)
    requires JsonRoundTrips(lib)
    requires ParsesBack(lib, c.url)
    requires c.thumbnailURL.Some? ==> ParsesBack(lib, c.thumbnailURL.value)
    ensures var row := ToData(lib, c);
      var again := ToData(lib, ToDomain(lib, row));
      && again.(metadataJSON := row.metadataJSON) == row
      && (again.metadataJSON.None? <==> row.metadataJSON.None?)
      && DecodeMetadata(lib, again.metadataJSON) == DecodeMetadata(lib, row.metadataJSON)
  {
    RoundTrip(lib, c);
  }

  /**
   * A row whose URL text does not parse reads back with the sentinel URL, and
   * storing that record writes the sentinel's text; when Foundation parses the
   * sentinel's text back to the sentinel, the next load gives the sentinel again.
   */
  lemma UnreadableURLBecomesSentinel(lib: Library, sd: SDContent)
    requires lib.parseURL(sd.urlString).None?
    ensures ToData(lib, ToDomain(lib, sd)).urlString == InvalidURLString
    ensures ParsesBack(lib, InvalidURL) ==> ToDomain(lib, ToData(lib, ToDomain(lib, sd))).url == InvalidURL
  {
  }

  /** A buffer of one to three bytes holds no whole element and decodes to an empty vector, not to "no value". */
  lemma ShortBufferDecodesEmpty(d: seq<Byte>)
    requires 0 < |d| < 4
    ensures DecodeEmbedding(Some(d)) == Some([])
  {
  }
}
