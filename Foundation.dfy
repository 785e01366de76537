/**
 * The library services the mapper relies on, injected as functions:
 * `URL(string:)` and the JSON coding of a `[String: String]` dictionary
 * (JSON as in RFC 8259). Their implementations belong to Foundation and are not
 * modelled; the properties the core relies on are stated as predicates and
 * appear as hypotheses of the lemmas that need them.
 */
module Foundation {
  import opened Wrappers
  import opened Domain

  datatype Library = Library(
    /** `URL(string:)`: `None` when the text is not a URL. */
    parseURL: string -> Option<Url>,
    /** `JSONEncoder().encode` followed by UTF-8 decoding; `None` when either step fails. */
    encodeJSON: map<string, string> -> Option<string>,
    /** UTF-8 encoding followed by `JSONDecoder().decode`; `None` on malformed input. */
    decodeJSON: string -> Option<map<string, string>>)

  /** Encoding a dictionary always succeeds and decoding the text gives the dictionary back. */
  ghost predicate JsonRoundTrips(lib: Library) {
    forall m :: lib.encodeJSON(m).Some? && lib.decodeJSON(lib.encodeJSON(m).value) == Some(m)
  }

  /** Parsing a URL's own absolute string gives that URL back. */
  predicate ParsesBack(lib: Library, u: Url) {
    lib.parseURL(u.absoluteString) == Some(u)
  }
}
