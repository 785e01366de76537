/** The persisted row of a saved link: every field a string, a code, a `Date` or raw bytes. */
module SDContentRecord {
  import opened Wrappers
  import opened Domain

  datatype SDContent = SDContent(
    id: Uuid,
    title: string,
    urlString: string,
    contentTypeRawValue: string,
    createdAt: Date,
    thumbnailURLString: Option<string>,
    summary: Option<string>,
    metadataJSON: Option<string>,
    embeddingData: Option<seq<Byte>>)
}
