/**
 * The domain entities the core works on: the closed set of content categories,
 * the parts of a `URL` the core reads, and the `SavedContent` record.
 */
module Domain {
  import opened Wrappers

  /** A UUID, kept opaque: the core only compares ids for equality. */
  type Uuid = nat

  /** A `Date`, kept opaque: the core only copies it. */
  type Date = int

  /** One IEEE-754 binary32 value, kept as its 32 raw bits (no float arithmetic is modelled). */
  type Word = bv32

  type Byte = bv8

  /**
   * A parsed URL, as Foundation reports it: its absolute string, its host
   * (absent for host-less URLs such as `mailto:` links) and its path.
   * Extracting these parts from text is Foundation's job and is not modelled.
   */
  datatype Url = Url(absoluteString: string, host: Option<string>, path: string)

  /** The six content categories. */
  datatype ContentType = Web | YouTube | Instagram | NaverMap | GoogleMap | Coupang

  /** The stored code of a category (the case name, Swift's default raw value for a `String` enum). */
  function RawValue(t: ContentType): string {
    match t
    case Web => "web"
    case YouTube => "youtube"
    case Instagram => "instagram"
    case NaverMap => "naverMap"
    case GoogleMap => "googleMap"
    case Coupang => "coupang"
  }

  /** `ContentType(rawValue:)`: the category whose code is `s`, if any. */
  function FromRawValue(s: string): (r: Option<ContentType>)
    ensures r.Some? ==> RawValue(r.value) == s
  {
    if s == "web" then Some(Web)
    else if s == "youtube" then Some(YouTube)
    else if s == "instagram" then Some(Instagram)
    else if s == "naverMap" then Some(NaverMap)
    else if s == "googleMap" then Some(GoogleMap)
    else if s == "coupang" then Some(Coupang)
    else None
  }

  /** Every category's code is read back as that category, so codes are pairwise distinct. */
  lemma RawValueRoundTrip(t: ContentType)
    ensures FromRawValue(RawValue(t)) == Some(t)
  {
  }

  /** A saved link and what the app knows about it. */
  datatype SavedContent = SavedContent(
    id: Uuid,
    title: string,
    url: Url,
    contentType: ContentType,
    createdAt: Date,
    thumbnailURL: Option<Url>,
    summary: Option<string>,
    metadata: map<string, string>,
    embeddingVector: Option<seq<Word>>)

  /** The ids occurring in a sequence of records. */
  function Ids(xs: seq<SavedContent>): (r: set<Uuid>)
    ensures forall i :: 0 <= i < |xs| ==> xs[i].id in r
  {
    set i | 0 <= i < |xs| :: xs[i].id
  }

  lemma IdsConcat(a: seq<SavedContent>, b: seq<SavedContent>)
    ensures Ids(a + b) == Ids(a) + Ids(b)
  {
    forall id | id in Ids(a + b) ensures id in Ids(a) + Ids(b) {
      var i :| 0 <= i < |a + b| && (a + b)[i].id == id;
      if i >= |a| {
        assert b[i - |a|].id == id;
      }
    }
    forall id | id in Ids(a) ensures id in Ids(a + b) {
      var i :| 0 <= i < |a| && a[i].id == id;
      assert (a + b)[i].id == id;
    }
    forall id | id in Ids(b) ensures id in Ids(a + b) {
      var i :| 0 <= i < |b| && b[i].id == id;
      assert (a + b)[|a| + i].id == id;
    }
  }

  lemma IdsAppend(a: seq<SavedContent>, x: SavedContent)
    ensures Ids(a + [x]) == Ids(a) + {x.id}
  {
    IdsConcat(a, [x]);
    assert [x][0] == x;
    assert Ids([x]) == {x.id};
  }

  /** No two records share an id (what an `IdentifiedArray` guarantees). */
  predicate UniqueIds(xs: seq<SavedContent>) {
    forall i, j :: 0 <= i < j < |xs| ==> xs[i].id != xs[j].id
  }
}
