/**
 * `ShareExtensionSaver.save(url:container:)`: the quick-save path of the
 * share extension. It classifies the URL, builds a new record titled with the
 * URL's host, maps it to a row and inserts exactly that row.
 */
module ShareExtensionSaver {
  import opened Wrappers
  import opened Domain
  import opened Foundation
  import opened ContentTypeParser
  import opened SDContentRecord
  import opened ContentMapper

  /** The record built for a shared URL; `id` is the new UUID and `now` the current date. */
  function QuickSaveContent(url: Url, id: Uuid, now: Date): SavedContent {
    SavedContent(id, url.host.GetOr(url.absoluteString), url, Parse(url), now, None, None, map[], None)
  }

  /** The row written for a shared URL. */
  function QuickSaveRow(lib: Library, url: Url, id: Uuid, now: Date): SDContent {
    ToData(lib, QuickSaveContent(url, id, now))
  }

  /**
   * The row stores the URL's absolute string, the code of the URL's category
   * and the host as title (the absolute string when there is no host); it has
   * no metadata, thumbnail, summary or embedding.
   */
  lemma QuickSaveRowFields(lib: Library, url: Url, id: Uuid, now: Date)
    ensures var row := QuickSaveRow(lib, url, id, now);
      && row.id == id && row.createdAt == now
      && row.urlString == url.absoluteString
      && FromRawValue(row.contentTypeRawValue) == Some(Parse(url))
      && row.title == (if url.host.Some? then url.host.value else url.absoluteString)
      && row.metadataJSON.None? && row.thumbnailURLString.None?
      && row.summary.None? && row.embeddingData.None?
  {
  }

  /**
   * The row decodes in the main app to exactly the record the extension built,
   * and re-classifying the decoded URL gives the stored category.
   */
  lemma QuickSaveRowDecodes(lib: Library, url: Url, id: Uuid, now: Date)
    requires ParsesBack(lib, url)
    ensures ToDomain(lib, QuickSaveRow(lib, url, id, now)) == QuickSaveContent(url, id, now)
    ensures var c := ToDomain(lib, QuickSaveRow(lib, url, id, now)); c.contentType == Parse(c.url)
  {
    RawValueRoundTrip(Parse(url));
  }

  datatype SaveError = SaveFailed

  /** The ids of the stored rows. */
  function RowIds(rows: seq<SDContent>): set<Uuid> {
    set i | 0 <= i < |rows| :: rows[i].id
  }

  /** The app-group store the extension writes to: the rows saved so far, in insertion order. */
  class ModelContainer {
    var rows: seq<SDContent>

    /** Row ids are unique (the id attribute is declared unique). */
    ghost predicate Valid()
      reads this
    {
      forall i, j :: 0 <= i < j < |rows| ==> rows[i].id != rows[j].id
    }

    /** Opening the store: it holds the rows saved earlier, whose ids are unique. */
    constructor (initial: seq<SDContent>)
      requires forall i, j :: 0 <= i < j < |initial| ==> initial[i].id != initial[j].id
      ensures Valid() && rows == initial
    {
      rows := initial;
    }
  }

  /**
   * `save`: inserts the row for `url` and saves. `id` is the freshly generated
   * UUID, not yet used by any row; `saveFails` says whether `context.save()`
   * throws, in which case nothing is stored. On success exactly one row is added.
   */
  method Save(lib: Library, url: Url, container: ModelContainer, id: Uuid, now: Date, saveFails: bool)
    returns (r: Result<(), SaveError>)
    requires container.Valid()
    requires id !in RowIds(container.rows)
    modifies container
    ensures container.Valid()
    ensures r.Success? <==> !saveFails
    ensures container.rows == if r.Success? then old(container.rows) + [QuickSaveRow(lib, url, id, now)] else old(container.rows)
    ensures r.Success? ==> |container.rows| == |old(container.rows)| + 1
  {
    var content := QuickSaveContent(url, id, now);
    var sd := ToData(lib, content);
    if saveFails {
      r := Failure(SaveFailed);
    } else {
      assert forall i :: 0 <= i < |container.rows| ==> container.rows[i].id in RowIds(container.rows);
      container.rows := container.rows + [sd];
      r := Success(());
    }
  }
}
