/** Reshaping of the catalogue's raw search records into the six-field
    `Item` (backend/routes/itunes.js, lines 46-69).  Every raw field may
    be absent; each output field is a JavaScript `||` chain whose operand
    order is significant. */
module Catalogue {
  import opened Wrappers
  import opened JsLogic
  import opened Items

  /** The raw fields the reshaping reads from one upstream record. */
  datatype RawRecord = RawRecord(
    trackId: Option<int>,
    collectionId: Option<int>,
    trackName: Option<string>,
    collectionName: Option<string>,
    collectionCensoredName: Option<string>,
    artistName: Option<string>,
    artworkUrl100: Option<string>,
    artworkUrl60: Option<string>,
    releaseDate: Option<string>,
    kind: Option<string>)

  const Untitled := "Untitled"
  const UnknownArtist := "Unknown Artist"
  const PlaceholderArtwork := "https://via.placeholder.com/100"
  const UnknownDate := "Unknown Date"
  const UnknownType := "Unknown Type"

  /** Date display, `new Date(s).toLocaleDateString()`, which depends on
      the server's locale and is left abstract. */
  type DateFormatter = string -> string

  /** `trackId || collectionId`: there is no further default. */
  function Id(rec: RawRecord): (id: Option<int>)
    ensures TruthyId(rec.trackId) ==> id == rec.trackId
    ensures !TruthyId(rec.trackId) ==> id == rec.collectionId
  {
    OrId(rec.trackId, rec.collectionId)
  }

  /** The first truthy of four names, else "Untitled". */
  function Title(rec: RawRecord): (t: string)
    ensures Truthy(rec.trackName) ==> t == rec.trackName.value
    ensures !Truthy(rec.trackName) && Truthy(rec.collectionName) ==>
              t == rec.collectionName.value
    ensures !Truthy(rec.trackName) && !Truthy(rec.collectionName)
            && Truthy(rec.collectionCensoredName) ==>
              t == rec.collectionCensoredName.value
    ensures !Truthy(rec.trackName) && !Truthy(rec.collectionName)
            && !Truthy(rec.collectionCensoredName) && Truthy(rec.artistName) ==>
              t == rec.artistName.value
    ensures !Truthy(rec.trackName) && !Truthy(rec.collectionName)
            && !Truthy(rec.collectionCensoredName) && !Truthy(rec.artistName) ==>
              t == Untitled
    ensures t != ""
  {
    var names := [rec.trackName, rec.collectionName, rec.collectionCensoredName,
                  rec.artistName, Some(Untitled)];
    var title := OrChain(names);
    assert !Truthy(names[0]) ==> NoneTruthyBefore(names, 1);
    assert !Truthy(names[0]) && !Truthy(names[1]) ==> NoneTruthyBefore(names, 2);
    title.value
  }

  /** The artist name, else "Unknown Artist". */
  function Artist(rec: RawRecord): (a: string)
    ensures Truthy(rec.artistName) ==> a == rec.artistName.value
    ensures !Truthy(rec.artistName) ==> a == UnknownArtist
    ensures a != ""
  {
    OrChain([rec.artistName, Some(UnknownArtist)]).value
  }

  /** The larger image, then the smaller, then the placeholder. */
  function Artwork(rec: RawRecord): (a: string)
    ensures Truthy(rec.artworkUrl100) ==> a == rec.artworkUrl100.value
    ensures !Truthy(rec.artworkUrl100) && Truthy(rec.artworkUrl60) ==>
              a == rec.artworkUrl60.value
    ensures !Truthy(rec.artworkUrl100) && !Truthy(rec.artworkUrl60) ==>
              a == PlaceholderArtwork
    ensures a != ""
  {
    var urls := [rec.artworkUrl100, rec.artworkUrl60, Some(PlaceholderArtwork)];
    var artwork := OrChain(urls);
    assert !Truthy(urls[0]) ==> NoneTruthyBefore(urls, 1);
    artwork.value
  }

  /** The formatted release date, else "Unknown Date". */
  function ReleaseDate(rec: RawRecord, formatDate: DateFormatter): (d: string)
    ensures Truthy(rec.releaseDate) ==> d == formatDate(rec.releaseDate.value)
    ensures !Truthy(rec.releaseDate) ==> d == UnknownDate
  {
    if Truthy(rec.releaseDate) then formatDate(rec.releaseDate.value) else UnknownDate
  }

  /** The record's kind, else "Unknown Type". */
  function Kind(rec: RawRecord): (k: string)
    ensures Truthy(rec.kind) ==> k == rec.kind.value
    ensures !Truthy(rec.kind) ==> k == UnknownType
    ensures k != ""
  {
    OrChain([rec.kind, Some(UnknownType)]).value
  }

  /** One raw record to one item: the six fields, each by its own rule. */
  function FormatRecord(rec: RawRecord, formatDate: DateFormatter): (item: Item)
    ensures item.id == Id(rec) && item.title == Title(rec) && item.artist == Artist(rec)
    ensures item.artwork == Artwork(rec) && item.kind == Kind(rec)
    ensures item.releaseDate == ReleaseDate(rec, formatDate)
    // the four text fields with a default are never empty
    ensures item.title != "" && item.artist != "" && item.artwork != "" && item.kind != ""
  {
    Item(Id(rec), Title(rec), Artist(rec), Artwork(rec), ReleaseDate(rec, formatDate), Kind(rec))
  }

  /** `results.map(...)`: one item per record, in the upstream order. */
  function FormatResults(recs: seq<RawRecord>, formatDate: DateFormatter): (items: seq<Item>)
    ensures |items| == |recs|
    ensures forall i :: 0 <= i < |recs| ==> items[i] == FormatRecord(recs[i], formatDate)
  {
    if recs == [] then []
    else [FormatRecord(recs[0], formatDate)] + FormatResults(recs[1..], formatDate)
  }

  /** Whenever the date formatter never yields the placeholder itself,
      an item shows "Unknown Date" exactly when its record has no truthy
      release date. */
  lemma UnknownDateExactlyWhenFalsy(rec: RawRecord, formatDate: DateFormatter)
    requires forall s :: formatDate(s) != UnknownDate
    ensures FormatRecord(rec, formatDate).releaseDate == UnknownDate <==> !Truthy(rec.releaseDate)
  {
  }

  /** Reshaping distributes over concatenation of upstream result lists,
      so the output never reorders, drops or merges records. */
  lemma {:induction false} FormatResultsAppend(a: seq<RawRecord>, b: seq<RawRecord>, formatDate: DateFormatter)
    ensures FormatResults(a + b, formatDate) == FormatResults(a, formatDate) + FormatResults(b, formatDate)
    decreases |a|
  {
    if a == [] {
      assert a + b == b;
    } else {
      assert (a + b)[1..] == a[1..] + b;
      FormatResultsAppend(a[1..], b, formatDate);
    }
  }

  /** Every item the reshaping produces has its defaulted text fields
      non-empty. */
  lemma FormatResultsNonEmptyFields(recs: seq<RawRecord>, formatDate: DateFormatter)
    ensures forall it :: it in FormatResults(recs, formatDate) ==>
              it.title != "" && it.artist != "" && it.artwork != "" && it.kind != ""
  {
  }
}
