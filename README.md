# Stash core, modelled in Dafny

Stash is an iOS app that saves links (web pages, YouTube videos, Instagram
posts, Naver and Google map places, Coupang products) and shows them in a
filterable feed. This project models the app's core logic and proves
properties of it:

- **Content classification** (`ContentTypeParser`): how a URL is sorted into a
  `ContentType` from its lower-cased host, and for the `goo.gl` shortener from
  its path as well.
- **Persistence mapping** (`ContentMapper`, `SDContentRecord`): how a
  `SavedContent` is stored as an `SDContent` row and read back. The mapping
  covers the invalid-URL sentinel, the `web` fallback for unknown type codes,
  metadata as JSON, and the embedding vector packed as raw 4-byte floats.
- **Home feed** (`HomeFeature`): the reducer for appear, load, load-failed and
  filter-tapped. Loading de-duplicates by id, keeping the first occurrence.
  The filter maps each tab to its categories.
- **Settings** (`SettingsFeature`): the reducer for version, count, the
  delete-all alert and the delete-all outcomes, plus the delete-all effect.
  That effect fetches every record and deletes them one by one, stopping at
  the first failure.
- **Share extension** (`ShareExtensionSaver`): the quick save of a shared URL
  into the shared store.
- **Content store** (`ContentClient`): a store of records whose fetch and
  delete can fail.

Pure code is modelled as functions. Each reducer is a pure `Reduce` function
returning the next state and a description of the effect to run. State that
the source changes in place is a class:

- `HomeStore` and `SettingsStore`, whose `Step` methods update their fields
  and are proved against the `Reduce` functions;
- `ContentStore`, whose `Delete` is proved against `RemoveId`;
- `ModelContainer`, the rows that the module-level `Save` method appends to.

Effects are methods that run against a `ContentStore` and return the action
they would send back.

Foundation services are passed in as the `Library` value:

- URL parsing;
- JSON encoding of a string dictionary;
- JSON decoding of a string dictionary.

Their round-trip behaviour is stated as the predicates
`Foundation.JsonRoundTrips` and `Foundation.ParsesBack`. The lemmas that need
it take these predicates as hypotheses.

Unknown results are inputs:

- failure flags and failure functions for fetch, delete and save;
- the fresh UUID and the current date of a quick save;
- the bundle's version string.

## Model

| member | source | states |
|---|---|---|
| ContentTypeParser.Parse | Stash/Domain/ContentParsing/ContentTypeParser.swift:4-34 | The classifier, testing the rules in source order; its meaning is stated by the lemmas below |
| ContentTypeParser.Lowercased | Stash/Domain/ContentParsing/ContentTypeParser.swift:5 | The lower-cased host has the same length and no capital letter left. Each capital becomes its small letter and every other character is kept |
| ContentTypeParser.LowercasedIdempotent | Stash/Domain/ContentParsing/ContentTypeParser.swift:5 | Lower-casing twice is the same as lower-casing once |
| ContentTypeParser.NoHostIsWeb | Stash/Domain/ContentParsing/ContentTypeParser.swift:5-7 | A URL without a host is `web` |
| ContentTypeParser.CaseInsensitive | Stash/Domain/ContentParsing/ContentTypeParser.swift:5 | Classifying a URL equals classifying it with its host already lower-cased |
| ContentTypeParser.SameLowercaseSameCategory | Stash/Domain/ContentParsing/ContentTypeParser.swift:5-33 | Two URLs with the same path and hosts equal up to case get the same category |
| ContentTypeParser.YouTubeNotInstagram | Stash/Domain/ContentParsing/ContentTypeParser.swift:9-15 | No host is accepted by both the YouTube and the Instagram rule (`.youtube.com` and `.instagram.com` suffixes never overlap) |
| ContentTypeParser.YouTubeNotCoupang | Stash/Domain/ContentParsing/ContentTypeParser.swift:9-31 | No host is accepted by both the YouTube and the Coupang rule |
| ContentTypeParser.InstagramNotCoupang | Stash/Domain/ContentParsing/ContentTypeParser.swift:13-31 | No host is accepted by both the Instagram and the Coupang rule |
| ContentTypeParser.MapHostNotYouTube | Stash/Domain/ContentParsing/ContentTypeParser.swift:9-27 | No Naver or Google map host, and not the `goo.gl` shortener, is a YouTube host |
| ContentTypeParser.MapHostNotInstagram | Stash/Domain/ContentParsing/ContentTypeParser.swift:13-27 | No map host is an Instagram host |
| ContentTypeParser.MapHostNotCoupang | Stash/Domain/ContentParsing/ContentTypeParser.swift:17-31 | No map host is a Coupang host |
| ContentTypeParser.HostRulesExclusive | Stash/Domain/ContentParsing/ContentTypeParser.swift:9-31 | Every pair of rules accepts disjoint sets of lower-cased hosts (and paths) |
| ContentTypeParser.HostSetsDisjoint | Stash/Domain/ContentParsing/ContentTypeParser.swift:9-31 | The host sets of two distinct categories never share a host |
| ContentTypeParser.ParseIff | Stash/Domain/ContentParsing/ContentTypeParser.swift:4-34 | A URL gets category `t` (not `web`) exactly when it has a host whose lower-cased form is in `t`'s host set; it is `web` exactly when it has no host or its host is in no set |
| ContentTypeParser.RuleOrderIrrelevant | Stash/Domain/ContentParsing/ContentTypeParser.swift:9-33 | Testing the rules bottom-up classifies every URL the same way as top-down |
| ContentTypeParser.NaverSubdomainNotVideo | Stash/Domain/ContentParsing/ContentTypeParser.swift:9-15 | No host under `.naver.com` is a YouTube or Instagram host |
| ContentTypeParser.NaverSubdomainNotMapOrShop | Stash/Domain/ContentParsing/ContentTypeParser.swift:17-31 | No host under `.naver.com` other than `map.naver.com` is a map host, the `goo.gl` shortener or a Coupang host |
| ContentTypeParser.OtherNaverHostIsWeb | Stash/Domain/ContentParsing/ContentTypeParser.swift:17-33 | Every Naver host other than `map.naver.com` (`naver.com` and any host under `.naver.com`, in any letter case) is `web` |
| ContentTypeParser.GooGlShortener | Stash/Domain/ContentParsing/ContentTypeParser.swift:25-33 | `goo.gl` is Google Maps exactly when the path starts with `/maps`, and `web` otherwise |
| ContentTypeParser.MixedCaseYouTube | Stash/Domain/ContentParsing/ContentTypeParser.swift:5-11 | `WWW.YouTube.COM` is classified as YouTube |
| Domain.RawValue | Stash/Data/Mappers/ContentMapper.swift:29 | The stored code of each category; `Domain.RawValueRoundTrip` states that it reads back as that category |
| Domain.FromRawValue | Stash/Data/Mappers/ContentMapper.swift:6 | A stored type code that is recognised is the raw value of the category it names |
| Domain.RawValueRoundTrip | Stash/Data/Mappers/ContentMapper.swift:6 | Every category's raw value reads back as that category |
| ContentMapper.WordBytesRoundTrip | Stash/Data/Mappers/ContentMapper.swift:49-61 | The four bytes of a float read back as the same float |
| ContentMapper.BytesWordRoundTrip | Stash/Data/Mappers/ContentMapper.swift:49-61 | Four bytes read as a float and written back are the same bytes |
| ContentMapper.Pack | Stash/Data/Mappers/ContentMapper.swift:56-61 | Writing a vector's buffer gives four bytes per float |
| ContentMapper.Unpack | Stash/Data/Mappers/ContentMapper.swift:49-54 | Binding a buffer to floats gives one float per whole 4-byte group; trailing bytes are dropped |
| ContentMapper.UnpackPack | Stash/Data/Mappers/ContentMapper.swift:49-61 | Unpacking a packed vector gives the vector back |
| ContentMapper.PackUnpack | Stash/Data/Mappers/ContentMapper.swift:49-61 | Packing an unpacked buffer gives the buffer back without its trailing partial group |
| ContentMapper.EncodeEmbedding | Stash/Data/Mappers/ContentMapper.swift:56-61 | No data exactly when there is no vector or it is empty; otherwise 4 bytes per float, which unpack to the vector |
| ContentMapper.DecodeEmbedding | Stash/Data/Mappers/ContentMapper.swift:49-54 | No vector exactly when there is no data or it is empty. Otherwise one float per whole 4-byte group, which packs back to the data without its trailing partial group |
| ContentMapper.EncodeMetadata | Stash/Data/Mappers/ContentMapper.swift:43-47 | An empty dictionary is stored as no JSON; with a working encoder, no JSON exactly when the dictionary is empty |
| ContentMapper.DecodeMetadata | Stash/Data/Mappers/ContentMapper.swift:38-41 | JSON text that decodes gives the decoded dictionary; missing JSON, or JSON that fails to decode, gives the empty dictionary |
| ContentMapper.MetadataRoundTrip | Stash/Data/Mappers/ContentMapper.swift:38-47 | With a round-tripping JSON codec, every dictionary (the empty one included) is read back unchanged |
| ContentMapper.EmbeddingRoundTrip | Stash/Data/Mappers/ContentMapper.swift:49-61 | An embedding reads back unchanged, except that an empty vector reads back as no vector |
| ContentMapper.ToDomain | Stash/Data/Mappers/ContentMapper.swift:4-22 | Copies id, title, date and summary. A parsable URL text gives the parsed URL and an unparsable one the `https://invalid.url` sentinel. A recognised type code gives its category and an unknown one `web`. The thumbnail is the parse of the thumbnail text, none without text. Metadata is the decoded JSON, or the empty dictionary without JSON. The embedding is none exactly when the data is missing or empty, and otherwise packs back to the data without its trailing partial group |
| ContentMapper.ToData | Stash/Data/Mappers/ContentMapper.swift:24-36 | Copies id, title, date and summary and stores the URL's absolute string. The stored type code reads back as the record's category. The thumbnail string is present exactly when the thumbnail is, as its absolute string. Empty metadata is stored as no JSON |
| ContentMapper.RoundTripFields | Stash/Data/Mappers/ContentMapper.swift:4-36 | Storing and reading back keeps id, title, category, date, summary and metadata, and normalises only the embedding |
| ContentMapper.RoundTrip | Stash/Data/Mappers/ContentMapper.swift:4-36 | If Foundation parses the record's URLs back, storing and reading back gives the same record, with an empty embedding normalised to none |
| ContentMapper.EncodingIdempotent | Stash/Data/Mappers/ContentMapper.swift:4-36 | Storing a record that was read back from its row gives the same row again in every field but the metadata JSON text. That text is present exactly when it was and decodes to the same dictionary |
| ContentMapper.UnreadableURLBecomesSentinel | Stash/Data/Mappers/ContentMapper.swift:5 | A row whose URL text does not parse reads back with the `https://invalid.url` sentinel, and storing it again writes the sentinel's text. If Foundation parses that text to the sentinel, the next load gives the sentinel again |
| ContentMapper.ShortBufferDecodesEmpty | Stash/Data/Mappers/ContentMapper.swift:49-54 | A 1-to-3-byte buffer decodes to an empty vector, not to no vector |
| ContentClient.RemoveId | Stash/Domain/Services/ContentClient.swift:7 | Deleting an id leaves exactly the other ids and keeps ids unique |
| ContentClient.RemoveAbsent | Stash/Domain/Services/ContentClient.swift:7 | Deleting an id that is not stored changes nothing |
| ContentClient.RemoveFirst | Stash/Domain/Services/ContentClient.swift:7 | With unique ids, deleting the first record's id drops exactly the first record |
| ContentClient.ContentStore.constructor | Stash/Domain/Services/ContentClient.swift:4-8 | A store starts with the given records, whose ids are unique |
| ContentClient.ContentStore.Fetch | Stash/Domain/Services/ContentClient.swift:6 | Fetching fails exactly when the store fails, and otherwise returns every stored record |
| ContentClient.ContentStore.Delete | Stash/Domain/Services/ContentClient.swift:7 | A delete succeeds exactly when the store does not fail and the id is stored. On success that record is removed; otherwise nothing changes. Ids stay unique |
| HomeFeature.Select | Stash/Features/Home/HomeFeature.swift:71-89 | A selection is no longer than its input, and every record in it belongs to the group |
| HomeFeature.ApplyFilter | Stash/Features/Home/HomeFeature.swift:71-89 | A tab shows no more records than there are, all of the tab's categories; `HomeFeature.ApplyFilterIsSelection` states which records |
| HomeFeature.SelectAppend | Stash/Features/Home/HomeFeature.swift:71-89 | Filtering distributes over concatenation |
| HomeFeature.SelectCounts | Stash/Features/Home/HomeFeature.swift:71-89 | A filtered list holds each record in the group as often as the input does, and no other record |
| HomeFeature.SelectEverything | Stash/Features/Home/HomeFeature.swift:71-89 | Filtering a list whose records all belong to the group gives the list itself |
| HomeFeature.InAllGroup | Stash/Features/Home/HomeFeature.swift:76-77 | The `all` tab admits every category |
| HomeFeature.ApplyFilterIsSelection | Stash/Features/Home/HomeFeature.swift:71-89 | Each tab keeps exactly its categories' records in order: `all` returns the input and every other tab is a sub-multiset keeping each record of its categories |
| HomeFeature.FilterGroupsPartition | Stash/Features/Home/HomeFeature.swift:78-87 | The five non-`all` tabs split the six categories with no overlap, and `place` is Naver Map plus Google Map |
| HomeFeature.FilterSizesAddUp | Stash/Features/Home/HomeFeature.swift:71-89 | The five non-`all` tabs together show exactly as many records as `all` |
| HomeFeature.Dedup | Stash/Features/Home/HomeFeature.swift:48-51 | Appending records one by one to an identified array keeps no more records than were given; the lemmas below state which |
| HomeFeature.DedupIds | Stash/Features/Home/HomeFeature.swift:48-51 | Building the identified array keeps every id and makes ids unique |
| HomeFeature.DedupIsKeepFirsts | Stash/Features/Home/HomeFeature.swift:48-51 | The identified array keeps exactly each record whose id did not occur earlier in the list |
| HomeFeature.DedupOfUnique | Stash/Features/Home/HomeFeature.swift:48-51 | A list whose ids are already unique is kept as it is |
| HomeFeature.IdentifiedFrom | Stash/Features/Home/HomeFeature.swift:48-51 | The append loop builds the de-duplicated list, with unique ids and the same set of ids as the input |
| HomeFeature.Reduce | Stash/Features/Home/HomeFeature.swift:33-64 | Only `onAppear` asks for a fetch. The loading flag is up exactly after `onAppear`, or after a filter tap while it was up. The filter changes only on a tap. Only a load replaces the records, with unique ids and no id lost. After a load or a tap the shown records are the selected filter applied to all records; otherwise they are kept |
| HomeFeature.ReducePreservesConsistent | Stash/Features/Home/HomeFeature.swift:7-64 | The initial state shows its filter applied to its records, and every action keeps it that way |
| HomeFeature.OnAppearStartsLoading | Stash/Features/Home/HomeFeature.swift:35-44 | `onAppear` only raises the loading flag, and it starts a fetch |
| HomeFeature.ContentsLoadedFacts | Stash/Features/Home/HomeFeature.swift:46-54 | A load lowers the flag and keeps the filter. The records become the loaded list de-duplicated by id, first occurrence kept, with no id lost. The shown records are the filter applied to them |
| HomeFeature.LoadFailedKeepsContents | Stash/Features/Home/HomeFeature.swift:56-58 | A failed load only lowers the loading flag |
| HomeFeature.FilterTappedUsesAllContents | Stash/Features/Home/HomeFeature.swift:60-63 | A tapped filter is applied to all loaded records, not to the shown ones: switching back to `all` shows everything |
| HomeFeature.FilterTappedIdempotent | Stash/Features/Home/HomeFeature.swift:60-63 | Tapping the same filter twice is the same as tapping it once |
| HomeFeature.AppearThenLoad | Stash/Features/Home/HomeFeature.swift:35-54 | From the initial state, appearing and then loading records with unique ids shows exactly those records under `all` |
| HomeFeature.FetchEffect | Stash/Features/Home/HomeFeature.swift:37-43 | The fetch effect sends back the stored records, or the load failure when the fetch fails |
| HomeFeature.HomeStore.constructor | Stash/Features/Home/HomeFeature.swift:7-12 | A new store holds the initial state |
| HomeFeature.HomeStore.Step | Stash/Features/Home/HomeFeature.swift:33-64 | Updating the fields in place gives the state and the effect of the pure reducer |
| SettingsFeature.Reduce | Stash/Features/Settings/SettingsFeature.swift:29-81 | Only `onAppear` asks for the count, and it alone sets the version (the bundle's or `1.0`). Only confirming starts the delete-all. The alert is up exactly after `deleteAllTapped`, or when it was up and the action is not an alert action. The count is set by a loaded count, zeroed by a completed delete-all and otherwise kept |
| SettingsFeature.OnAppearReadsVersion | Stash/Features/Settings/SettingsFeature.swift:31-36 | `onAppear` shows the bundle version, or `1.0` without one, asks for the count and changes nothing else |
| SettingsFeature.CountLoadedSetsCount | Stash/Features/Settings/SettingsFeature.swift:38-40 | A loaded count replaces the shown count and nothing else |
| SettingsFeature.DeleteAllTappedPresentsAlert | Stash/Features/Settings/SettingsFeature.swift:42-55 | Tapping delete-all presents the alert, whose destructive button confirms, and keeps the count |
| SettingsFeature.ConfirmStartsDeleteAll | Stash/Features/Settings/SettingsFeature.swift:57-68 | Confirming starts the delete-all effect and keeps the count |
| SettingsFeature.DeleteOutcomes | Stash/Features/Settings/SettingsFeature.swift:70-75 | A completed delete-all zeroes the count; a failed one changes nothing |
| SettingsFeature.AlertActionsDismiss | Stash/Features/Settings/SettingsFeature.swift:77-81 | Every alert action takes the alert down; only confirming has an effect |
| SettingsFeature.CountChangesOnlyOnLoadOrComplete | Stash/Features/Settings/SettingsFeature.swift:29-80 | The shown count changes only on a loaded count or a completed delete-all |
| SettingsFeature.CountEffect | Stash/Features/Settings/SettingsFeature.swift:33-36 | The count effect sends the number of stored records, or nothing when the fetch throws |
| SettingsFeature.FirstFailure | Stash/Features/Settings/SettingsFeature.swift:61-63 | The index of the first failing delete: every earlier delete succeeds |
| SettingsFeature.DeleteInOrder | Stash/Features/Settings/SettingsFeature.swift:61-63 | Deletes run in fetch order up to and including the first failure. The store keeps exactly the records from that point on. The loop completes exactly when no delete fails |
| SettingsFeature.DeleteAllEffect | Stash/Features/Settings/SettingsFeature.swift:58-67 | A failed fetch deletes nothing and reports failure. Otherwise the deletes stop at the first failure, the rest stays stored, and the effect reports completion exactly when the store ends empty |
| SettingsFeature.SettingsStore.constructor | Stash/Features/Settings/SettingsFeature.swift:7-11 | A new store holds the initial state |
| SettingsFeature.SettingsStore.Step | Stash/Features/Settings/SettingsFeature.swift:29-81 | Updating the fields in place gives the state and the effect of the pure reducer |
| SettingsFeature.ConfirmDeleteAll | Stash/Features/Settings/SettingsFeature.swift:57-75 | End to end, confirming takes the alert down and keeps the version. Deletes are tried in fetch order up to and including the first failure, none if the fetch fails, and the undeleted suffix stays stored. The count becomes 0 exactly when everything was deleted, and is otherwise left stale |
| ShareExtensionSaver.QuickSaveContent | Stash/Shared/AppGroup/ShareExtensionSaver.swift:17-25 | The record built for a shared URL; `ShareExtensionSaver.QuickSaveRowDecodes` states that the main app reads exactly it back |
| ShareExtensionSaver.QuickSaveRow | Stash/Shared/AppGroup/ShareExtensionSaver.swift:17-26 | The row written for a shared URL; `ShareExtensionSaver.QuickSaveRowFields` states its fields |
| ShareExtensionSaver.QuickSaveRowFields | Stash/Shared/AppGroup/ShareExtensionSaver.swift:16-26 | The saved row holds the given id and date and the URL's absolute string. Its category is the classifier's, its title is the host or else the whole URL, and it has no metadata, thumbnail, summary or embedding |
| ShareExtensionSaver.QuickSaveRowDecodes | Stash/Shared/AppGroup/ShareExtensionSaver.swift:16-26 | The main app reads the row back as exactly the record the extension built, and re-classifying its URL gives the stored category |
| ShareExtensionSaver.ModelContainer.constructor | Stash/Shared/AppGroup/ShareExtensionSaver.swift:7-14 | Opening the app-group store gives the rows saved earlier, whose ids are unique |
| ShareExtensionSaver.Save | Stash/Shared/AppGroup/ShareExtensionSaver.swift:16-30 | Saving succeeds exactly when the store does not fail. On success exactly the one quick-save row is appended; otherwise nothing changes |

## Left out

- URL parsing is a parameter (`Library.parseURL`) rather than a model of `URL(string:)`. A URL is reduced to its absolute string, its host and its path.
- JSON encoding and decoding are parameters (`Library.encodeJSON`, `Library.decodeJSON`). UTF-8 conversion is folded into them.
- ContentTypeParser.Lowercased: folds ASCII `A`–`Z` only. `String.lowercased()` also folds other scripts. Every literal the rules compare against is ASCII, and no non-ASCII character lower-cases into one of their letters; the Kelvin sign folds to `k`, which none contains. So both foldings make the rules accept the same hosts, apart from the grapheme comparison named on the next line.
- ContentTypeParser.Parse: Swift's `==`, `hasSuffix` and `hasPrefix` compare grapheme clusters, while the model compares characters. A host whose compared part is followed or preceded by a combining mark can classify differently.
- Floating-point values are opaque 32-bit words; no arithmetic is done on them.
- The byte order of a packed float is fixed as little-endian, the order of the devices the app runs on.
- ContentMapper.EncodingIdempotent: the JSON encoder writes keys in the iteration order of the dictionary at hand, and a decoded dictionary is a new instance. So with two or more keys the re-stored `metadataJSON` text can list them in another order. The lemma therefore promises the text only up to decoding, and `Library.encodeJSON`, a function of the dictionary's contents, does not model the key order.
- ContentMapper.ToDomain: the sentinel is the constant `InvalidURL`; the source force-unwraps its parse of `https://invalid.url`. That the injected parser agrees is not assumed everywhere, only where a lemma takes `ParsesBack(lib, InvalidURL)`.
- ShareExtensionSaver.QuickSaveContent: the `SavedContent` declaration is not part of this model. The record built without thumbnail, summary or embedding arguments is taken to have none of them, as the initialiser's defaults are assumed to give.
- The `ContentType` declaration is not part of this model. Its raw values are taken to be its case names (`web`, `youtube`, `instagram`, `naverMap`, `googleMap`, `coupang`).
- UUIDs are natural numbers and dates are integers. The fresh UUID and the current date of a quick save are inputs.
- The bundle's version lookup (`Bundle.main`) is an input to the Settings reducer.
- Alert texts are not modelled. Only the alert's buttons, their roles and their actions are.
- Effects run synchronously, one at a time. Asynchrony, cancellation and interleaving of effects are not modelled.
- `ShareExtensionSaver.makeContainer` is modelled only as the `ModelContainer` constructor, which takes the rows already stored. The app-group path, the file name and SwiftData's schema and configuration are not modelled.
- ContentClient.ContentStore.Delete: a delete of an id that is not stored fails with `NotFound`. The source's live client is unimplemented and its test double accepts any id, so this is a chosen behaviour.
- ContentClient.ContentStore.Fetch: returns the records in stored order. Failures are a flag given by the caller.
- ContentMapper.DecodeEmbedding: follows the code. A non-empty buffer shorter than 4 bytes decodes to an empty vector, not to no vector (see `ContentMapper.ShortBufferDecodesEmpty`).
- SettingsFeature.DeleteAllEffect: follows the code. The loop stops at the first failing delete and reports failure; it does not go on with the remaining records.
- SettingsFeature.Reduce: any alert action, including the confirmation, clears the alert. This is the dismissal the presentation reducer (`ifLet`) performs.
- The embedding, search and enrichment features, the view layer and app wiring are outside this model.
