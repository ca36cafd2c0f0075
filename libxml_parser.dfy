/** The libxml2 push-parser backend (LibXMLParser.swift). libxml2 itself is not
    modelled: it is the source of a sequence of SAX events (element start and end
    with a separate namespace prefix and local name, and runs of character
    bytes), and the three callbacks below are the state machine those events drive. */
module LibXml {
  import opened Records
  import RssParser

  // The element names the callbacks match.
  const ItemName := "item"
  const TitleName := "title"
  const CategoryName := "category"
  const ItmsName := "itms"
  const ArtistName := "artist"
  const AlbumName := "album"
  const ReleaseDateName := "releasedate"

  /** One SAX callback as libxml2 issues it. */
  datatype SaxEvent =
    | StartElement(prefix: Option<string>, localName: string)
    | EndElement(prefix: Option<string>, localName: string)
    | Characters(bytes: seq<Byte>)

  /** An unprefixed `item` element: one song record. */
  predicate IsItem(prefix: Option<string>, localName: string) {
    prefix.None? && localName == ItemName
  }

  /** The song field an element supplies: unprefixed `title` and `category`,
      and `artist`, `album` and `releasedate` under the `itms` prefix. */
  function FieldOf(prefix: Option<string>, localName: string): (f: Option<Field>)
    ensures f.Some? ==> !IsItem(prefix, localName)
  {
    if prefix.None? then
      if localName == TitleName then Some(Title)
      else if localName == CategoryName then Some(Category)
      else None
    else if prefix.value == ItmsName then
      if localName == ArtistName then Some(Artist)
      else if localName == AlbumName then Some(Album)
      else if localName == ReleaseDateName then Some(ReleaseDate)
      else None
    else None
  }

  /** The parser's fields `parsingASong`, `storingCharacters`,
      `characterBuffer` and `currentSong`. */
  datatype ParserState = ParserState(
    parsingASong: bool,
    storingCharacters: bool,
    characterBuffer: seq<Byte>,
    currentSong: Option<Song>)

  /** The state of a newly created parser. */
  const Initial := ParserState(false, false, [], None)

  /** A song is open exactly while `parsingASong` holds, and characters are
      stored only inside a song. */
  predicate Consistent(s: ParserState) {
    && (s.parsingASong <==> s.currentSong.Some?)
    && (s.storingCharacters ==> s.parsingASong)
  }

  /** `startElementSAX`: an `item` opens a fresh song; a field element starts
      storing characters, but only inside a song. The buffer is never touched. */
  function OnStartElement(s: ParserState, prefix: Option<string>, localName: string): (r: ParserState)
    ensures r.characterBuffer == s.characterBuffer
    ensures r.parsingASong == (s.parsingASong || IsItem(prefix, localName))
    ensures r.currentSong == if IsItem(prefix, localName) then Some(NewSong()) else s.currentSong
    ensures r.storingCharacters
         == (s.storingCharacters || (s.parsingASong && FieldOf(prefix, localName).Some?))
    ensures Consistent(s) ==> Consistent(r)
  {
    if IsItem(prefix, localName) then s.(currentSong := Some(NewSong()), parsingASong := true)
    else if s.parsingASong && FieldOf(prefix, localName).Some? then s.(storingCharacters := true)
    else s
  }

  /** Whether an end event reads the draining `currentString` getter. For
      `title`, `category`, `artist` and `album` the getter stands on the right
      of an optional-chaining assignment, which is skipped when there is no
      current song; for `releasedate` it is read into a local first. */
  predicate Drains(s: ParserState, prefix: Option<string>, localName: string)
    // Under the invariant the drained text always has an open song to go
    // to, `releasedate` included.
    ensures Drains(s, prefix, localName) && Consistent(s) ==> s.currentSong.Some?
  {
    && s.parsingASong
    && FieldOf(prefix, localName).Some?
    && (FieldOf(prefix, localName) == Some(ReleaseDate) || s.currentSong.Some?)
  }

  /** `endElementSAX`: the new state and the song handed to `parsedSong`, if any.
      The getter's force-unwrap demands that the bytes it drains decode. */
  function OnEndElement(s: ParserState, prefix: Option<string>, localName: string,
                        decode: Utf8Decoder, parseDate: DateParser): (r: (ParserState, Option<Song>))
    requires Drains(s, prefix, localName) ==> decode(s.characterBuffer).Some?
    // An end outside a song is ignored.
    ensures !s.parsingASong ==> r == (s, None)
    // Inside a song, every end stops storing characters.
    ensures s.parsingASong ==> !r.0.storingCharacters
    // The song is handed on exactly at the end of an `item`, and then closed.
    ensures r.1 == if s.parsingASong && IsItem(prefix, localName) then s.currentSong else None
    ensures s.parsingASong && IsItem(prefix, localName) ==>
              && r.0.currentSong == None && !r.0.parsingASong
              && r.0.characterBuffer == s.characterBuffer
    // A field end drains the buffer into exactly that field of the open song.
    ensures Consistent(s) && s.parsingASong && FieldOf(prefix, localName).Some? ==>
              && r.0.characterBuffer == []
              && r.0.parsingASong
              && r.0.currentSong == Some(WithField(s.currentSong.value, FieldOf(prefix, localName).value,
                                                   decode(s.characterBuffer).value, parseDate))
    // Any other end inside a song changes nothing else.
    ensures s.parsingASong && !IsItem(prefix, localName) && FieldOf(prefix, localName).None? ==>
              r.0 == s.(storingCharacters := false)
    ensures Consistent(s) ==> Consistent(r.0)
  {
    if !s.parsingASong then (s, None)
    else if IsItem(prefix, localName) then
      (s.(currentSong := None, parsingASong := false, storingCharacters := false), s.currentSong)
    else if !Drains(s, prefix, localName) then
      (s.(storingCharacters := false), None)
    else
      var text := decode(s.characterBuffer).value;
      var song := if s.currentSong.Some?
                  then Some(WithField(s.currentSong.value, FieldOf(prefix, localName).value, text, parseDate))
                  else None;
      (s.(characterBuffer := [], currentSong := song, storingCharacters := false), None)
  }

  /** `charactersFoundSAX`: bytes are appended only while storing. */
  function OnCharacters(s: ParserState, bytes: seq<Byte>): (r: ParserState)
    // Only the buffer can change, and only by growing at its end.
    ensures r.(characterBuffer := s.characterBuffer) == s
    ensures |s.characterBuffer| <= |r.characterBuffer| && r.characterBuffer[..|s.characterBuffer|] == s.characterBuffer
    // While storing, the new bytes are exactly the callback's; otherwise the callback is ignored.
    ensures s.storingCharacters ==> r.characterBuffer[|s.characterBuffer|..] == bytes
    ensures !s.storingCharacters ==> r == s
    ensures Consistent(s) ==> Consistent(r)
  {
    if s.storingCharacters then s.(characterBuffer := s.characterBuffer + bytes) else s
  }

  /** Whether the callback for `e` can run without the decoding force-unwrap failing. */
  predicate StepDecodes(s: ParserState, e: SaxEvent, decode: Utf8Decoder) {
    e.EndElement? && Drains(s, e.prefix, e.localName) ==> decode(s.characterBuffer).Some?
  }

  /** One callback: the new state and the songs handed to `parsedSong`. */
  function Step(s: ParserState, e: SaxEvent, decode: Utf8Decoder, parseDate: DateParser): (r: (ParserState, seq<Song>))
    requires StepDecodes(s, e, decode)
    // At most one song is handed on: the open song, at the end of its `item`.
    ensures |r.1| <= 1
    ensures r.1 != [] ==> e.EndElement? && IsItem(e.prefix, e.localName) && s.parsingASong
                          && s.currentSong == Some(r.1[0])
    ensures Consistent(s) && e.EndElement? && IsItem(e.prefix, e.localName) && s.parsingASong ==> r.1 != []
    ensures Consistent(s) ==> Consistent(r.0)
  {
    match e
    case StartElement(prefix, localName) => (OnStartElement(s, prefix, localName), [])
    case EndElement(prefix, localName) =>
      var (t, song) := OnEndElement(s, prefix, localName, decode, parseDate);
      (t, Emitted(song))
    case Characters(bytes) => (OnCharacters(s, bytes), [])
  }

  /** Whether every callback of `events` can run from `s` without the decoding
      force-unwrap failing. */
  predicate RunDecodes(s: ParserState, events: seq<SaxEvent>, decode: Utf8Decoder, parseDate: DateParser)
    decreases |events|
  {
    events != [] ==>
      && StepDecodes(s, events[0], decode)
      && RunDecodes(Step(s, events[0], decode, parseDate).0, events[1..], decode, parseDate)
  }

  /** The callbacks for `events`, one after another: the final state and every
      song handed to `parsedSong`, in order. */
  function Run(s: ParserState, events: seq<SaxEvent>, decode: Utf8Decoder, parseDate: DateParser): (ParserState, seq<Song>)
    requires RunDecodes(s, events, decode, parseDate)
    decreases |events|
  {
    if events == [] then (s, [])
    else
      var (t, out) := Step(s, events[0], decode, parseDate);
      var (u, more) := Run(t, events[1..], decode, parseDate);
      (u, out + more)
  }

  /** Running `e` and then `rest`, unfolded once. */
  lemma RunCons(s: ParserState, e: SaxEvent, rest: seq<SaxEvent>, decode: Utf8Decoder, parseDate: DateParser)
    ensures RunDecodes(s, [e] + rest, decode, parseDate)
         == (StepDecodes(s, e, decode) && RunDecodes(Step(s, e, decode, parseDate).0, rest, decode, parseDate))
    ensures RunDecodes(s, [e] + rest, decode, parseDate) ==>
              var (t, out) := Step(s, e, decode, parseDate);
              Run(s, [e] + rest, decode, parseDate) == (Run(t, rest, decode, parseDate).0, out + Run(t, rest, decode, parseDate).1)
  {
    assert ([e] + rest)[0] == e && ([e] + rest)[1..] == rest;
  }

  /** Running two event sequences one after the other is running their
      concatenation. */
  lemma {:induction false} RunAppend(s: ParserState, e1: seq<SaxEvent>, e2: seq<SaxEvent>,
                                     decode: Utf8Decoder, parseDate: DateParser)
    ensures RunDecodes(s, e1 + e2, decode, parseDate)
         == (RunDecodes(s, e1, decode, parseDate) && RunDecodes(Run(s, e1, decode, parseDate).0, e2, decode, parseDate))
    ensures RunDecodes(s, e1 + e2, decode, parseDate) ==>
              var (t, out1) := Run(s, e1, decode, parseDate);
              var (u, out2) := Run(t, e2, decode, parseDate);
              Run(s, e1 + e2, decode, parseDate) == (u, out1 + out2)
    decreases |e1|
  {
    if e1 == [] {
      assert e1 + e2 == e2;
      if RunDecodes(s, e2, decode, parseDate) {
        var (u, o) := Run(s, e2, decode, parseDate);
        assert [] + o == o;
      }
    } else {
      assert (e1 + e2)[0] == e1[0];
      assert (e1 + e2)[1..] == e1[1..] + e2;
      if StepDecodes(s, e1[0], decode) {
        var (t, out) := Step(s, e1[0], decode, parseDate);
        RunAppend(t, e1[1..], e2, decode, parseDate);
        if RunDecodes(s, e1 + e2, decode, parseDate) {
          var (t1, o1) := Run(t, e1[1..], decode, parseDate);
          var (u, o2) := Run(t1, e2, decode, parseDate);
          assert out + (o1 + o2) == (out + o1) + o2;
        }
      }
    }
  }

  /** Every callback keeps the parser consistent: `parsingASong` holds exactly
      when a song is open, and characters are stored only inside a song. */
  lemma {:induction false} RunStaysConsistent(s: ParserState, events: seq<SaxEvent>,
                                              decode: Utf8Decoder, parseDate: DateParser)
    requires Consistent(s)
    requires RunDecodes(s, events, decode, parseDate)
    ensures Consistent(Run(s, events, decode, parseDate).0)
    decreases |events|
  {
    if events != [] {
      RunStaysConsistent(Step(s, events[0], decode, parseDate).0, events[1..], decode, parseDate);
    }
  }

  /** The character callbacks for a text run delivered in pieces. */
  function Pieces(pieces: seq<seq<Byte>>): (r: seq<SaxEvent>)
    ensures |r| == |pieces|
  {
    if pieces == [] then [] else [Characters(pieces[0])] + Pieces(pieces[1..])
  }

  /** The bytes of a text run delivered in pieces. */
  function Join(pieces: seq<seq<Byte>>): seq<Byte>
  {
    if pieces == [] then [] else pieces[0] + Join(pieces[1..])
  }

  /** However a text run is split across character callbacks, the parse goes
      on exactly as if the run had arrived in one callback. */
  lemma {:induction false} SplitTextParsesAlike(s: ParserState, pieces: seq<seq<Byte>>, rest: seq<SaxEvent>,
                                                decode: Utf8Decoder, parseDate: DateParser)
    ensures RunDecodes(s, Pieces(pieces) + rest, decode, parseDate)
         == RunDecodes(s, [Characters(Join(pieces))] + rest, decode, parseDate)
    ensures RunDecodes(s, Pieces(pieces) + rest, decode, parseDate) ==>
              (Run(s, Pieces(pieces) + rest, decode, parseDate)
               == Run(s, [Characters(Join(pieces))] + rest, decode, parseDate))
    decreases |pieces|
  {
    RunCons(s, Characters(Join(pieces)), rest, decode, parseDate);
    if pieces == [] {
      assert Pieces(pieces) + rest == rest;
      assert OnCharacters(s, []) == s by {
        assert s.characterBuffer + [] == s.characterBuffer;
      }
      if RunDecodes(s, rest, decode, parseDate) {
        assert [] + Run(s, rest, decode, parseDate).1 == Run(s, rest, decode, parseDate).1;
      }
    } else {
      assert Pieces(pieces) + rest == [Characters(pieces[0])] + (Pieces(pieces[1..]) + rest);
      RunCons(s, Characters(pieces[0]), Pieces(pieces[1..]) + rest, decode, parseDate);
      var t := OnCharacters(s, pieces[0]);
      SplitTextParsesAlike(t, pieces[1..], rest, decode, parseDate);
      RunCons(t, Characters(Join(pieces[1..])), rest, decode, parseDate);
      assert OnCharacters(t, Join(pieces[1..])) == OnCharacters(s, Join(pieces)) by {
        assert s.characterBuffer + pieces[0] + Join(pieces[1..]) == s.characterBuffer + Join(pieces);
      }
      var u := OnCharacters(s, Join(pieces));
      if RunDecodes(u, rest, decode, parseDate) {
        var o := Run(u, rest, decode, parseDate).1;
        assert [] + o == o && [] + ([] + o) == o;
      }
    }
  }

  /** Inside a song, a field element whose text arrives in pieces receives the
      decoding of every byte stored since the last drain followed by all the
      pieces; the start of the field does not empty the buffer. */
  lemma FieldReceivesStoredText(s: ParserState, prefix: Option<string>, localName: string,
                                pieces: seq<seq<Byte>>, decode: Utf8Decoder, parseDate: DateParser)
    requires Consistent(s) && s.parsingASong
    requires FieldOf(prefix, localName).Some?
    requires decode(s.characterBuffer + Join(pieces)).Some?
    ensures var events := [StartElement(prefix, localName)] + Pieces(pieces) + [EndElement(prefix, localName)];
      && RunDecodes(s, events, decode, parseDate)
      && Run(s, events, decode, parseDate)
         == (s.(storingCharacters := false, characterBuffer := [],
                currentSong := Some(WithField(s.currentSong.value, FieldOf(prefix, localName).value,
                                              decode(s.characterBuffer + Join(pieces)).value, parseDate))),
             [])
  {
    var start := StartElement(prefix, localName);
    var stop := [EndElement(prefix, localName)];
    var none: seq<Song> := [];
    var t := OnStartElement(s, prefix, localName);
    assert [start] + Pieces(pieces) + stop == [start] + (Pieces(pieces) + stop);
    RunCons(s, start, Pieces(pieces) + stop, decode, parseDate);
    SplitTextParsesAlike(t, pieces, stop, decode, parseDate);
    RunCons(t, Characters(Join(pieces)), stop, decode, parseDate);
    var u := OnCharacters(t, Join(pieces));
    assert u == t.(characterBuffer := s.characterBuffer + Join(pieces));
    RunCons(u, EndElement(prefix, localName), [], decode, parseDate);
    assert [EndElement(prefix, localName)] + [] == stop;
    assert Run(OnEndElement(u, prefix, localName, decode, parseDate).0, [], decode, parseDate).1 == none;
    assert none + none == none && none + (none + none) == none;
  }

  /** Taking one more event off the front of the events still to run: the
      rest of the run is unchanged, and the event's songs move from the run
      to the songs already emitted. */
  lemma RunSuffixStep(s: ParserState, events: seq<SaxEvent>, i: nat, emitted: seq<Song>,
                      decode: Utf8Decoder, parseDate: DateParser)
    requires i < |events|
    requires RunDecodes(s, events[i..], decode, parseDate)
    ensures StepDecodes(s, events[i], decode)
    ensures RunDecodes(Step(s, events[i], decode, parseDate).0, events[i + 1..], decode, parseDate)
    ensures var (t, out) := Step(s, events[i], decode, parseDate);
      && Run(t, events[i + 1..], decode, parseDate).0 == Run(s, events[i..], decode, parseDate).0
      && (emitted + out) + Run(t, events[i + 1..], decode, parseDate).1 == emitted + Run(s, events[i..], decode, parseDate).1
  {
    var (t, out) := Step(s, events[i], decode, parseDate);
    assert events[i..] == [events[i]] + events[i + 1..];
    RunCons(s, events[i], events[i + 1..], decode, parseDate);
    assert (emitted + out) + Run(t, events[i + 1..], decode, parseDate).1
        == emitted + (out + Run(t, events[i + 1..], decode, parseDate).1);
  }

  class LibXmlParser {
    /** The iTunesRSSParser part of this object, which receives parsed songs. */
    const engine: RssParser.ITunesRssParser
    /** The UTF-8 decoding behind the `currentString` getter. */
    const decode: Utf8Decoder
    /** The date formatter behind `parseFormatter`. */
    const parseDate: DateParser
    var parsingASong: bool
    var storingCharacters: bool
    var characterBuffer: seq<Byte>
    var currentSong: Option<Song>

    ghost function State(): ParserState
      reads this
    {
      ParserState(parsingASong, storingCharacters, characterBuffer, currentSong)
    }

    ghost predicate Valid()
      reads this, engine
    {
      Consistent(State()) && engine.Valid()
    }

    constructor (decode: Utf8Decoder, parseDate: DateParser)
      ensures Valid() && State() == Initial && fresh(engine)
      ensures this.decode == decode && this.parseDate == parseDate
      ensures engine.parserType == RssParser.LibXmlParser
      ensures engine.parsedSongs == [] && engine.notices == [] && engine.recorded == []
      ensures engine.startTimeReference == None && engine.downloadStartTimeReference == None
      ensures engine.parseDuration == 0.0 && engine.downloadDuration == 0.0 && engine.totalDuration == 0.0
    {
      engine := new RssParser.ITunesRssParser(RssParser.LibXmlParser);
      this.decode := decode;
      this.parseDate := parseDate;
      parsingASong := false;
      storingCharacters := false;
      characterBuffer := [];
      currentSong := None;
    }

    /** `appendCharacters`: grow the buffer by the bytes found. */
    method AppendCharacters(bytes: seq<Byte>)
      modifies this`characterBuffer
      ensures characterBuffer == old(characterBuffer) + bytes
    {
      characterBuffer := characterBuffer + bytes;
    }

    /** The `currentString` getter: decode the whole buffer and empty it. */
    method CurrentString() returns (text: string)
      requires decode(characterBuffer).Some?
      modifies this`characterBuffer
      ensures text == decode(old(characterBuffer)).value
      ensures characterBuffer == []
    {
      text := decode(characterBuffer).value;
      characterBuffer := [];
    }

    /** `finishedCurrentSong`: hand the open song, if any, to `parsedSong` and
        close it. */
    method FinishedCurrentSong()
      requires engine.Valid()
      modifies this`currentSong, engine
      ensures engine.Valid()
      ensures currentSong == None
      ensures engine.received == old(engine.received) + Emitted(old(currentSong))
      ensures (engine.parsedSongs, engine.notices)
           == RssParser.AfterParsedSongs(old(engine.parsedSongs), old(engine.notices), Emitted(old(currentSong)))
      ensures engine.Measurements() == old(engine.Measurements())
    {
      if currentSong.Some? {
        engine.ParsedSong(currentSong.value);
      } else {
        RssParser.AfterNoSongs(engine.parsedSongs, engine.notices);
      }
      currentSong := None;
    }

    /** `startElementSAX`. */
    method StartElementSax(prefix: Option<string>, localName: string)
      requires Valid()
      modifies this
      ensures Valid()
      ensures State() == OnStartElement(old(State()), prefix, localName)
    {
      if prefix.None? && localName == ItemName {
        currentSong := Some(NewSong());
        parsingASong := true;
      } else if parsingASong {
        if prefix.None? {
          if localName == TitleName || localName == CategoryName {
            storingCharacters := true;
          }
        } else {
          if prefix.value == ItmsName {
            if localName == ArtistName || localName == AlbumName || localName == ReleaseDateName {
              storingCharacters := true;
            }
          }
        }
      }
    }

    /** The field branches of `endElementSAX`: drain the buffer into the
        matching field of the open song. The first four fields read the getter
        only when there is a song; `releasedate` reads it first. */
    method StoreField(prefix: Option<string>, localName: string)
      requires parsingASong && !IsItem(prefix, localName)
      requires Drains(State(), prefix, localName) ==> decode(characterBuffer).Some?
      modifies this
      ensures State().(storingCharacters := false)
           == OnEndElement(old(State()), prefix, localName, decode, parseDate).0
    {
      if prefix.None? {
        if localName == TitleName {
          if currentSong.Some? {
            var text := CurrentString();
            currentSong := Some(currentSong.value.(title := Some(text)));
          }
        } else if localName == CategoryName {
          if currentSong.Some? {
            var text := CurrentString();
            currentSong := Some(currentSong.value.(category := Some(text)));
          }
        }
      } else if prefix.value == ItmsName {
        if localName == ArtistName {
          if currentSong.Some? {
            var text := CurrentString();
            currentSong := Some(currentSong.value.(artist := Some(text)));
          }
        } else if localName == AlbumName {
          if currentSong.Some? {
            var text := CurrentString();
            currentSong := Some(currentSong.value.(album := Some(text)));
          }
        } else if localName == ReleaseDateName {
          var dateString := CurrentString();
          if currentSong.Some? {
            currentSong := Some(currentSong.value.(releaseDate := parseDate(dateString)));
          }
        }
      }
    }

    /** `endElementSAX`. */
    method EndElementSax(prefix: Option<string>, localName: string)
      requires Valid()
      requires Drains(State(), prefix, localName) ==> decode(characterBuffer).Some?
      modifies this, engine
      ensures Valid()
      ensures var (s, song) := OnEndElement(old(State()), prefix, localName, decode, parseDate);
        && State() == s
        && engine.received == old(engine.received) + Emitted(song)
        && (engine.parsedSongs, engine.notices)
           == RssParser.AfterParsedSongs(old(engine.parsedSongs), old(engine.notices), Emitted(song))
      ensures engine.Measurements() == old(engine.Measurements())
    {
      if !parsingASong {
        RssParser.AfterNoSongs(engine.parsedSongs, engine.notices);
        return;
      }
      if IsItem(prefix, localName) {
        FinishedCurrentSong();
        parsingASong := false;
      } else {
        RssParser.AfterNoSongs(engine.parsedSongs, engine.notices);
        StoreField(prefix, localName);
      }
      storingCharacters := false;
    }

    /** `charactersFoundSAX`: keep the bytes only while storing. */
    method CharactersFoundSax(bytes: seq<Byte>)
      requires Valid()
      modifies this
      ensures Valid()
      ensures State() == OnCharacters(old(State()), bytes)
    {
      if !storingCharacters {
        return;
      }
      AppendCharacters(bytes);
    }

    /** The callback libxml2 invokes for one event. */
    method HandleEvent(e: SaxEvent)
      requires Valid()
      requires StepDecodes(State(), e, decode)
      modifies this, engine
      ensures Valid()
      ensures var (s, songs) := Step(old(State()), e, decode, parseDate);
        && State() == s
        && engine.received == old(engine.received) + songs
        && (engine.parsedSongs, engine.notices)
           == RssParser.AfterParsedSongs(old(engine.parsedSongs), old(engine.notices), songs)
      ensures engine.Measurements() == old(engine.Measurements())
    {
      match e {
        case StartElement(prefix, localName) =>
          StartElementSax(prefix, localName);
          RssParser.AfterNoSongs(engine.parsedSongs, engine.notices);
          assert engine.received + [] == engine.received;
        case EndElement(prefix, localName) =>
          EndElementSax(prefix, localName);
        case Characters(bytes) =>
          CharactersFoundSax(bytes);
          RssParser.AfterNoSongs(engine.parsedSongs, engine.notices);
          assert engine.received + [] == engine.received;
      }
    }

    /** libxml2 working through the downloaded data (`xmlParseChunk` on the
        whole buffer, then the terminating call): the callbacks for `events`,
        in order. */
    method ParseData(events: seq<SaxEvent>)
      requires Valid()
      requires RunDecodes(State(), events, decode, parseDate)
      modifies this, engine
      ensures Valid()
      ensures var (s, songs) := Run(old(State()), events, decode, parseDate);
        && State() == s
        && engine.received == old(engine.received) + songs
        && (engine.parsedSongs, engine.notices)
           == RssParser.AfterParsedSongs(old(engine.parsedSongs), old(engine.notices), songs)
      ensures engine.Measurements() == old(engine.Measurements())
    {
      ghost var whole := Run(State(), events, decode, parseDate);
      ghost var emitted: seq<Song> := [];
      RssParser.AfterNoSongs(engine.parsedSongs, engine.notices);
      assert events[0..] == events;
      var i := 0;
      while i < |events|
        invariant 0 <= i <= |events|
        invariant Valid()
        invariant RunDecodes(State(), events[i..], decode, parseDate)
        invariant Run(State(), events[i..], decode, parseDate).0 == whole.0
        invariant emitted + Run(State(), events[i..], decode, parseDate).1 == whole.1
        invariant engine.received == old(engine.received) + emitted
        invariant (engine.parsedSongs, engine.notices)
               == RssParser.AfterParsedSongs(old(engine.parsedSongs), old(engine.notices), emitted)
        invariant engine.Measurements() == old(engine.Measurements())
      {
        ghost var s := State();
        RunSuffixStep(s, events, i, emitted, decode, parseDate);
        ghost var out := Step(s, events[i], decode, parseDate).1;
        HandleEvent(events[i]);
        AppendAssociates(old(engine.received), emitted, out);
        RssParser.AfterParsedSongsAppend(old(engine.parsedSongs), old(engine.notices), emitted, out);
        emitted := emitted + out;
        i := i + 1;
      }
      assert events[i..] == [];
      assert emitted + [] == emitted;
    }

    /** The success path of the download task: report the end of the download,
        parse the data, add the parse time, then end the parse (freeing the
        libxml2 context, which is not modelled, and running the engine's
        `parseEnded`). */
    method CompleteDownload(events: seq<SaxEvent>, downloadEndedAt: real,
                            parseStartedAt: real, parseEndedAt: real, now: real)
      requires Valid()
      requires engine.startTimeReference.Some? && engine.downloadStartTimeReference.Some?
      requires RunDecodes(State(), events, decode, parseDate)
      modifies this, engine
      ensures Valid()
      ensures var (s, songs) := Run(old(State()), events, decode, parseDate);
        && State() == s
        && engine.received == old(engine.received) + songs
        && engine.notices == old(engine.notices)
                             + RssParser.BatchNotices(RssParser.Delivered(old(engine.parsedSongs), songs))
                             + [RssParser.DidEndParsingData]
      ensures engine.parsedSongs == []
      ensures engine.downloadDuration
           == old(engine.downloadDuration) + (downloadEndedAt - old(engine.downloadStartTimeReference).value)
      ensures engine.parseDuration == old(engine.parseDuration) + (parseEndedAt - parseStartedAt)
      ensures engine.totalDuration == now - old(engine.startTimeReference).value
      ensures engine.recorded == old(engine.recorded)
              + [RssParser.Statistic(engine.parserType, engine.downloadDuration, engine.parseDuration, engine.totalDuration)]
      // The time references and the start of the run's log are left as they were.
      ensures engine.startTimeReference == old(engine.startTimeReference)
      ensures engine.downloadStartTimeReference == old(engine.downloadStartTimeReference)
      ensures engine.runStart == old(engine.runStart)
    {
      engine.DownloadEnded(downloadEndedAt);
      ParseData(events);
      var duration := parseEndedAt - parseStartedAt;
      engine.AddToParseDuration(duration);
      RssParser.FlushCompletesDelivery(old(engine.parsedSongs), old(engine.notices), Run(old(State()), events, decode, parseDate).1);
      engine.ParseEnded(now);
    }
  }
}
