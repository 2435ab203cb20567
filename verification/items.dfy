/** The simplified search-result record the backend returns and the
    frontend stores as a favourite.  Its identity is `id`. */
module Items {
  import opened Wrappers

  /** `id` is optional: the backend takes `trackId || collectionId` with
      no further default, so it can be absent (or zero). */
  datatype Item = Item(
    id: Option<int>,
    title: string,
    artist: string,
    artwork: string,
    releaseDate: string,
    kind: string)
}
