/** Values shared by the parse engine and both parser backends: the song record
    (Song.swift), optional values, raw feed bytes, and the two collaborators the
    parsers call but do not implement (UTF-8 decoding and the date formatter). */
module Records {

  datatype Option<+T> = None | Some(value: T)

  /** One byte of the downloaded feed. */
  type Byte = b: int | 0 <= b < 256

  /** A point in time, as a date formatter produces it. */
  datatype Date = Date(secondsSinceReference: real)

  /** The long-style, US-locale, date-only formatter: text to a date, or None
      when the text is not a date. */
  type DateParser = string -> Option<Date>

  /** `String(data:encoding: .utf8)`: None when the bytes are not valid UTF-8. */
  type Utf8Decoder = seq<Byte> -> Option<string>

  /** The song fields a feed element can supply. */
  datatype Field = Title | Category | Artist | Album | ReleaseDate

  /** A song record: five optional fields. */
  datatype Song = Song(
    title: Option<string>,
    artist: Option<string>,
    album: Option<string>,
    releaseDate: Option<Date>,
    category: Option<string>)

  /** `Song()`: a record with every field nil. */
  function NewSong(): Song {
    Song(None, None, None, None, None)
  }

  /** The song with field `f` assigned from the element's text; a release date
      is the formatter's reading of the text (None when it is not a date).
      Every other field keeps its value. */
  function WithField(s: Song, f: Field, text: string, parseDate: DateParser): (r: Song)
    ensures r.title == (if f == Title then Some(text) else s.title)
    ensures r.category == (if f == Category then Some(text) else s.category)
    ensures r.artist == (if f == Artist then Some(text) else s.artist)
    ensures r.album == (if f == Album then Some(text) else s.album)
    ensures r.releaseDate == (if f == ReleaseDate then parseDate(text) else s.releaseDate)
  {
    match f
    case Title => s.(title := Some(text))
    case Category => s.(category := Some(text))
    case Artist => s.(artist := Some(text))
    case Album => s.(album := Some(text))
    case ReleaseDate => s.(releaseDate := parseDate(text))
  }

  /** Appending to a log in two steps is appending once. */
  lemma AppendAssociates<T>(a: seq<T>, b: seq<T>, c: seq<T>)
    ensures (a + b) + c == a + (b + c)
  {
  }

  /** The songs a hand-off of an optional current song passes on: at most one,
      and a song is passed on exactly when it is the current one. */
  function Emitted(song: Option<Song>): (r: seq<Song>)
    ensures |r| <= 1
    ensures r != [] <==> song.Some?
    ensures r != [] ==> song == Some(r[0])
  {
    if song.Some? then [song.value] else []
  }
}
