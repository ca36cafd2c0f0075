/** The Foundation XMLParser backend (CocoaXMLParser.swift). XMLParser itself is
    not modelled: it is the source of a sequence of delegate calls (element
    start and end by qualified name, found characters as text, and parse
    errors), and the delegate methods below are the state machine those calls drive. */
module CocoaXml {
  import opened Records
  import RssParser

  // The element names the delegate methods match, as qualified names.
  const ItemName := "item"
  const TitleName := "title"
  const CategoryName := "category"
  const ArtistName := "itms:artist"
  const AlbumName := "itms:album"
  const ReleaseDateName := "itms:releasedate"

  /** One delegate call as XMLParser issues it. */
  datatype DelegateEvent =
    | DidStartElement(elementName: string)
    | DidEndElement(elementName: string)
    | FoundCharacters(text: string)
    | ParseErrorOccurred(error: RssParser.Failure)

  /** The song field an element supplies, by its qualified name. */
  function FieldNamed(elementName: string): (f: Option<Field>)
    ensures f.Some? ==> elementName != ItemName
  {
    if elementName == TitleName then Some(Title)
    else if elementName == CategoryName then Some(Category)
    else if elementName == ArtistName then Some(Artist)
    else if elementName == AlbumName then Some(Album)
    else if elementName == ReleaseDateName then Some(ReleaseDate)
    else None
  }

  /** The parser's fields `currentString`, `currentSong` and `storingCharacters`. */
  datatype ParserState = ParserState(
    currentString: string,
    currentSong: Option<Song>,
    storingCharacters: bool)

  /** The state in which XMLParser starts calling the delegate: `currentString`
      has just been set to the empty string. */
  const Initial := ParserState("", None, false)

  /** `parser(_:didStartElement:...)`: an `item` replaces the current song with
      a fresh one; any of the five field names empties the text and starts
      storing characters, whether or not a song is open. */
  function OnDidStartElement(s: ParserState, elementName: string): (r: ParserState)
    ensures elementName == ItemName ==> r == s.(currentSong := Some(NewSong()))
    ensures FieldNamed(elementName).Some? ==> r == s.(currentString := "", storingCharacters := true)
    ensures elementName != ItemName && FieldNamed(elementName).None? ==> r == s
  {
    if elementName == ItemName then s.(currentSong := Some(NewSong()))
    else if FieldNamed(elementName).Some? then s.(currentString := "", storingCharacters := true)
    else s
  }

  /** `parser(_:didEndElement:...)`: the new state and the song handed to
      `parsedSong`, if any. */
  function OnDidEndElement(s: ParserState, elementName: string, parseDate: DateParser): (r: (ParserState, Option<Song>))
    // Every end, recognised or not, stops storing characters; the text stays.
    ensures !r.0.storingCharacters && r.0.currentString == s.currentString
    // The end of an `item` hands on the current song, if there is one, and closes it.
    ensures r.1 == if elementName == ItemName then s.currentSong else None
    ensures elementName == ItemName ==> r.0.currentSong == None
    // A field end assigns the text to exactly that field; with no song it does nothing.
    ensures FieldNamed(elementName).Some? ==>
              r.0.currentSong == if s.currentSong.None? then None
                                 else Some(WithField(s.currentSong.value, FieldNamed(elementName).value,
                                                     s.currentString, parseDate))
    ensures elementName != ItemName && FieldNamed(elementName).None? ==> r.0 == s.(storingCharacters := false)
  {
    if elementName == ItemName then
      (s.(currentSong := None, storingCharacters := false), s.currentSong)
    else if FieldNamed(elementName).Some? && s.currentSong.Some? then
      var song := WithField(s.currentSong.value, FieldNamed(elementName).value, s.currentString, parseDate);
      (s.(currentSong := Some(song), storingCharacters := false), None)
    else
      (s.(storingCharacters := false), None)
  }

  /** `parser(_:foundCharacters:)`: text is appended only while storing. */
  function OnFoundCharacters(s: ParserState, text: string): (r: ParserState)
    // Only the text can change, and only by growing at its end.
    ensures r.(currentString := s.currentString) == s
    ensures |s.currentString| <= |r.currentString| && r.currentString[..|s.currentString|] == s.currentString
    // While storing, the new characters are exactly the call's; otherwise the call is ignored.
    ensures s.storingCharacters ==> r.currentString[|s.currentString|..] == text
    ensures !s.storingCharacters ==> r == s
  {
    if s.storingCharacters then s.(currentString := s.currentString + text) else s
  }

  /** One delegate call: the new state and the songs handed to `parsedSong`.
      A parse error changes nothing. */
  function Step(s: ParserState, e: DelegateEvent, parseDate: DateParser): (r: (ParserState, seq<Song>))
    ensures e.ParseErrorOccurred? ==> r == (s, [])
    // At most one song is handed on: the current one, exactly when an `item` ends with a song open.
    ensures |r.1| <= 1
    ensures r.1 != [] <==> e.DidEndElement? && e.elementName == ItemName && s.currentSong.Some?
    ensures r.1 != [] ==> s.currentSong == Some(r.1[0])
  {
    match e
    case DidStartElement(name) => (OnDidStartElement(s, name), [])
    case DidEndElement(name) =>
      var (t, song) := OnDidEndElement(s, name, parseDate);
      (t, Emitted(song))
    case FoundCharacters(text) => (OnFoundCharacters(s, text), [])
    case ParseErrorOccurred(_) => (s, [])
  }

  /** The delegate calls for `events`, one after another: the final state and
      every song handed to `parsedSong`, in order. */
  function Run(s: ParserState, events: seq<DelegateEvent>, parseDate: DateParser): (ParserState, seq<Song>)
    decreases |events|
  {
    if events == [] then (s, [])
    else
      var (t, out) := Step(s, events[0], parseDate);
      var (u, more) := Run(t, events[1..], parseDate);
      (u, out + more)
  }

  /** Running `e` and then `rest`, unfolded once. */
  lemma RunCons(s: ParserState, e: DelegateEvent, rest: seq<DelegateEvent>, parseDate: DateParser)
    ensures var (t, out) := Step(s, e, parseDate);
      Run(s, [e] + rest, parseDate) == (Run(t, rest, parseDate).0, out + Run(t, rest, parseDate).1)
  {
    assert ([e] + rest)[0] == e && ([e] + rest)[1..] == rest;
  }

  /** The found-characters calls for a text run delivered in pieces. */
  function Texts(pieces: seq<string>): (r: seq<DelegateEvent>)
    ensures |r| == |pieces|
  {
    if pieces == [] then [] else [FoundCharacters(pieces[0])] + Texts(pieces[1..])
  }

  /** The text of a run delivered in pieces. */
  function Concat(pieces: seq<string>): string
  {
    if pieces == [] then "" else pieces[0] + Concat(pieces[1..])
  }

  /** However a text run is split across found-characters calls, the parse
      goes on exactly as if the run had arrived in one call. */
  lemma {:induction false} SplitTextParsesAlike(s: ParserState, pieces: seq<string>, rest: seq<DelegateEvent>,
                                                parseDate: DateParser)
    ensures Run(s, Texts(pieces) + rest, parseDate) == Run(s, [FoundCharacters(Concat(pieces))] + rest, parseDate)
    decreases |pieces|
  {
    RunCons(s, FoundCharacters(Concat(pieces)), rest, parseDate);
    var none: seq<Song> := [];
    if pieces == [] {
      assert Texts(pieces) + rest == rest;
      assert OnFoundCharacters(s, "") == s by {
        assert s.currentString + "" == s.currentString;
      }
      assert none + Run(s, rest, parseDate).1 == Run(s, rest, parseDate).1;
    } else {
      assert Texts(pieces) + rest == [FoundCharacters(pieces[0])] + (Texts(pieces[1..]) + rest);
      RunCons(s, FoundCharacters(pieces[0]), Texts(pieces[1..]) + rest, parseDate);
      var t := OnFoundCharacters(s, pieces[0]);
      SplitTextParsesAlike(t, pieces[1..], rest, parseDate);
      RunCons(t, FoundCharacters(Concat(pieces[1..])), rest, parseDate);
      assert OnFoundCharacters(t, Concat(pieces[1..])) == OnFoundCharacters(s, Concat(pieces)) by {
        assert s.currentString + pieces[0] + Concat(pieces[1..]) == s.currentString + Concat(pieces);
      }
      var o := Run(OnFoundCharacters(s, Concat(pieces)), rest, parseDate).1;
      assert none + o == o && none + (none + o) == o;
    }
  }

  /** A field element whose text arrives in pieces, with no other element in
      between, assigns the concatenation of the pieces to that field of the
      current song (if there is one), whatever text was held before. */
  lemma FieldReceivesItsText(s: ParserState, elementName: string, pieces: seq<string>, parseDate: DateParser)
    requires FieldNamed(elementName).Some?
    ensures Run(s, [DidStartElement(elementName)] + Texts(pieces) + [DidEndElement(elementName)], parseDate)
         == (ParserState(Concat(pieces),
                         if s.currentSong.None? then None
                         else Some(WithField(s.currentSong.value, FieldNamed(elementName).value, Concat(pieces), parseDate)),
                         false),
             [])
  {
    var start := DidStartElement(elementName);
    var stop := [DidEndElement(elementName)];
    var none: seq<Song> := [];
    var t := OnDidStartElement(s, elementName);
    assert [start] + Texts(pieces) + stop == [start] + (Texts(pieces) + stop);
    RunCons(s, start, Texts(pieces) + stop, parseDate);
    SplitTextParsesAlike(t, pieces, stop, parseDate);
    RunCons(t, FoundCharacters(Concat(pieces)), stop, parseDate);
    var u := OnFoundCharacters(t, Concat(pieces));
    assert u.currentString == Concat(pieces) by {
      assert "" + Concat(pieces) == Concat(pieces);
    }
    RunCons(u, DidEndElement(elementName), [], parseDate);
    assert [DidEndElement(elementName)] + [] == stop;
    assert Run(OnDidEndElement(u, elementName, parseDate).0, [], parseDate).1 == none;
    assert none + none == none && none + (none + none) == none;
  }

  /** Taking one more event off the front of the events still to run: the
      rest of the run is unchanged, and the event's songs move from the run
      to the songs already emitted. */
  lemma RunSuffixStep(s: ParserState, events: seq<DelegateEvent>, i: nat, emitted: seq<Song>,
                      parseDate: DateParser)
    requires i < |events|
    ensures var (t, out) := Step(s, events[i], parseDate);
      && Run(t, events[i + 1..], parseDate).0 == Run(s, events[i..], parseDate).0
      && (emitted + out) + Run(t, events[i + 1..], parseDate).1 == emitted + Run(s, events[i..], parseDate).1
  {
    var (t, out) := Step(s, events[i], parseDate);
    assert events[i..] == [events[i]] + events[i + 1..];
    RunCons(s, events[i], events[i + 1..], parseDate);
    assert (emitted + out) + Run(t, events[i + 1..], parseDate).1
        == emitted + (out + Run(t, events[i + 1..], parseDate).1);
  }

  class CocoaXmlParser {
    /** The iTunesRSSParser part of this object, which receives parsed songs. */
    const engine: RssParser.ITunesRssParser
    /** The date formatter behind `parseFormatter`. */
    const parseDate: DateParser
    var currentString: string
    var currentSong: Option<Song>
    var storingCharacters: bool

    ghost function State(): ParserState
      reads this
    {
      ParserState(currentString, currentSong, storingCharacters)
    }

    ghost predicate Valid()
      reads this, engine
    {
      engine.Valid()
    }

    constructor (parseDate: DateParser)
      ensures Valid() && fresh(engine)
      ensures this.parseDate == parseDate
      ensures currentSong == None && !storingCharacters
      ensures engine.parserType == RssParser.XmlParser
      ensures engine.parsedSongs == [] && engine.notices == [] && engine.recorded == []
      ensures engine.startTimeReference == None && engine.downloadStartTimeReference == None
      ensures engine.parseDuration == 0.0 && engine.downloadDuration == 0.0 && engine.totalDuration == 0.0
    {
      engine := new RssParser.ITunesRssParser(RssParser.XmlParser);
      this.parseDate := parseDate;
      currentString := "";
      currentSong := None;
      storingCharacters := false;
    }

    /** `finishedCurrentSong`: hand the current song, if any, to `parsedSong`
        and drop it. */
    method FinishedCurrentSong()
      requires Valid()
      modifies this`currentSong, engine
      ensures Valid()
      ensures currentSong == None
      ensures engine.received == old(engine.received) + Emitted(old(currentSong))
      ensures (engine.parsedSongs, engine.notices)
           == RssParser.AfterParsedSongs(old(engine.parsedSongs), old(engine.notices), Emitted(old(currentSong)))
      ensures engine.Measurements() == old(engine.Measurements())
    {
      if currentSong.Some? {
        engine.ParsedSong(currentSong.value);
      } else {
        RssParser.AfterNoSongs(engine.parsedSongs, engine.notices);
      }
      currentSong := None;
    }

    /** `parser(_:didStartElement:namespaceURI:qualifiedName:attributes:)`. */
    method DidStartElement(elementName: string)
      requires Valid()
      modifies this
      ensures Valid()
      ensures State() == OnDidStartElement(old(State()), elementName)
    {
      if elementName == ItemName {
        currentSong := Some(NewSong());
      } else if elementName == TitleName || elementName == CategoryName || elementName == ArtistName
                || elementName == AlbumName || elementName == ReleaseDateName {
        currentString := "";
        storingCharacters := true;
      }
    }

    /** `parser(_:didEndElement:namespaceURI:qualifiedName:)`. */
    method DidEndElement(elementName: string)
      requires Valid()
      modifies this, engine
      ensures Valid()
      ensures var (s, song) := OnDidEndElement(old(State()), elementName, parseDate);
        && State() == s
        && engine.received == old(engine.received) + Emitted(song)
        && (engine.parsedSongs, engine.notices)
           == RssParser.AfterParsedSongs(old(engine.parsedSongs), old(engine.notices), Emitted(song))
      ensures engine.Measurements() == old(engine.Measurements())
    {
      if elementName == ItemName {
        FinishedCurrentSong();
      } else {
        RssParser.AfterNoSongs(engine.parsedSongs, engine.notices);
        if elementName == TitleName {
          if currentSong.Some? { currentSong := Some(currentSong.value.(title := Some(currentString))); }
        } else if elementName == CategoryName {
          if currentSong.Some? { currentSong := Some(currentSong.value.(category := Some(currentString))); }
        } else if elementName == ArtistName {
          if currentSong.Some? { currentSong := Some(currentSong.value.(artist := Some(currentString))); }
        } else if elementName == AlbumName {
          if currentSong.Some? { currentSong := Some(currentSong.value.(album := Some(currentString))); }
        } else if elementName == ReleaseDateName {
          if currentSong.Some? { currentSong := Some(currentSong.value.(releaseDate := parseDate(currentString))); }
        }
      }
      storingCharacters := false;
    }

    /** `parser(_:foundCharacters:)`. */
    method FoundCharacters(text: string)
      requires Valid()
      modifies this
      ensures Valid()
      ensures State() == OnFoundCharacters(old(State()), text)
    {
      if storingCharacters {
        currentString := currentString + text;
      }
    }

    /** `parser(_:parseErrorOccurred:)`: the error is ignored. */
    method ParseErrorOccurred(error: RssParser.Failure)
      requires Valid()
      ensures State() == old(State())
    {
    }

    /** The delegate method XMLParser calls for one event. */
    method HandleEvent(e: DelegateEvent)
      requires Valid()
      modifies this, engine
      ensures Valid()
      ensures var (s, songs) := Step(old(State()), e, parseDate);
        && State() == s
        && engine.received == old(engine.received) + songs
        && (engine.parsedSongs, engine.notices)
           == RssParser.AfterParsedSongs(old(engine.parsedSongs), old(engine.notices), songs)
      ensures engine.Measurements() == old(engine.Measurements())
    {
      match e {
        case DidStartElement(name) =>
          DidStartElement(name);
        case DidEndElement(name) =>
          DidEndElement(name);
        case FoundCharacters(text) =>
          FoundCharacters(text);
        case ParseErrorOccurred(error) =>
          ParseErrorOccurred(error);
      }
      if !e.DidEndElement? {
        RssParser.AfterNoSongs(engine.parsedSongs, engine.notices);
        assert engine.received + [] == engine.received;
      }
    }

    /** `parser.parse()`: XMLParser calls the delegate for `events`, in order. */
    method ParseData(events: seq<DelegateEvent>)
      requires Valid()
      modifies this, engine
      ensures Valid()
      ensures var (s, songs) := Run(old(State()), events, parseDate);
        && State() == s
        && engine.received == old(engine.received) + songs
        && (engine.parsedSongs, engine.notices)
           == RssParser.AfterParsedSongs(old(engine.parsedSongs), old(engine.notices), songs)
      ensures engine.Measurements() == old(engine.Measurements())
    {
      ghost var whole := Run(State(), events, parseDate);
      ghost var emitted: seq<Song> := [];
      RssParser.AfterNoSongs(engine.parsedSongs, engine.notices);
      assert events[0..] == events;
      var i := 0;
      while i < |events|
        invariant 0 <= i <= |events|
        invariant Valid()
        invariant Run(State(), events[i..], parseDate).0 == whole.0
        invariant emitted + Run(State(), events[i..], parseDate).1 == whole.1
        invariant engine.received == old(engine.received) + emitted
        invariant (engine.parsedSongs, engine.notices)
               == RssParser.AfterParsedSongs(old(engine.parsedSongs), old(engine.notices), emitted)
        invariant engine.Measurements() == old(engine.Measurements())
      {
        ghost var s := State();
        RunSuffixStep(s, events, i, emitted, parseDate);
        ghost var out := Step(s, events[i], parseDate).1;
        HandleEvent(events[i]);
        AppendAssociates(old(engine.received), emitted, out);
        RssParser.AfterParsedSongsAppend(old(engine.parsedSongs), old(engine.notices), emitted, out);
        emitted := emitted + out;
        i := i + 1;
      }
      assert events[i..] == [];
      assert emitted + [] == emitted;
    }

    /** The success path of the download task: report the end of the download,
        set the text to empty, parse the data, add the parse time, then end the
        parse. */
    method CompleteDownload(events: seq<DelegateEvent>, downloadEndedAt: real,
                            parseStartedAt: real, parseEndedAt: real, now: real)
      requires Valid()
      requires engine.startTimeReference.Some? && engine.downloadStartTimeReference.Some?
      modifies this, engine
      ensures Valid()
      ensures var (s, songs) := Run(old(State()).(currentString := ""), events, parseDate);
        && State() == s
        && engine.received == old(engine.received) + songs
        && engine.notices == old(engine.notices)
                             + RssParser.BatchNotices(RssParser.Delivered(old(engine.parsedSongs), songs))
                             + [RssParser.DidEndParsingData]
      ensures engine.parsedSongs == []
      ensures engine.downloadDuration
           == old(engine.downloadDuration) + (downloadEndedAt - old(engine.downloadStartTimeReference).value)
      ensures engine.parseDuration == old(engine.parseDuration) + (parseEndedAt - parseStartedAt)
      ensures engine.totalDuration == now - old(engine.startTimeReference).value
      ensures engine.recorded == old(engine.recorded)
              + [RssParser.Statistic(engine.parserType, engine.downloadDuration, engine.parseDuration, engine.totalDuration)]
      // The time references and the start of the run's log are left as they were.
      ensures engine.startTimeReference == old(engine.startTimeReference)
      ensures engine.downloadStartTimeReference == old(engine.downloadStartTimeReference)
      ensures engine.runStart == old(engine.runStart)
    {
      engine.DownloadEnded(downloadEndedAt);
      currentString := "";
      ParseData(events);
      var duration := parseEndedAt - parseStartedAt;
      engine.AddToParseDuration(duration);
      RssParser.FlushCompletesDelivery(old(engine.parsedSongs), old(engine.notices),
                                       Run(old(State()).(currentString := ""), events, parseDate).1);
      engine.ParseEnded(now);
    }
  }
}
