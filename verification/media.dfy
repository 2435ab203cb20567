/** The media filter offered by the search bar's drop-down
    (frontend/src/components/SearchBar.js, lines 7-17).  The frontend
    sends the `value` string as the `media` query parameter. */
module Media {
  import opened Wrappers

  datatype MediaType =
    | All | Movie | Podcast | Music | Audiobook
    | ShortFilm | TvShow | Software | Ebook

  /** The media type selected before the user touches the drop-down. */
  const DefaultMedia: MediaType := All

  /** The string sent to the backend (the `value` of each option). */
  function Value(m: MediaType): string
  {
    match m
    case All => "all"
    case Movie => "movie"
    case Podcast => "podcast"
    case Music => "music"
    case Audiobook => "audiobook"
    case ShortFilm => "shortFilm"
    case TvShow => "tvShow"
    case Software => "software"
    case Ebook => "ebook"
  }

  /** Reads back the query value chosen by the drop-down; `None` for any
      string that is not one of the nine option values. */
  function Parse(s: string): (r: Option<MediaType>)
    ensures r.Some? ==> Value(r.value) == s
  {
    if s == "all" then Some(All)
    else if s == "movie" then Some(Movie)
    else if s == "podcast" then Some(Podcast)
    else if s == "music" then Some(Music)
    else if s == "audiobook" then Some(Audiobook)
    else if s == "shortFilm" then Some(ShortFilm)
    else if s == "tvShow" then Some(TvShow)
    else if s == "software" then Some(Software)
    else if s == "ebook" then Some(Ebook)
    else None
  }

  /** Every option's value reads back as that option, so no two options
      send the same query value. */
  lemma ParseValue(m: MediaType)
    ensures Parse(Value(m)) == Some(m)
  {
  }

  lemma ValueInjective(a: MediaType, b: MediaType)
    ensures Value(a) == Value(b) ==> a == b
  {
    ParseValue(a);
    ParseValue(b);
  }
}
