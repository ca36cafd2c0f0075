# XMLPerformance song-feed parsers, modelled in Dafny

XMLPerformance downloads the iTunes "new releases" RSS feed and extracts one
`Song` record per `<item>`. The title, category, artist, album and release
date come from the item's child elements. Two interchangeable backends do
the extraction:

- **`LibXMLParser`** is driven by libxml2's SAX callbacks. Element names
  arrive as a namespace prefix plus a local name. Character data is collected
  as UTF-8 bytes and decoded when a field element ends.
- **`CocoaXMLParser`** is driven by Foundation's `XMLParserDelegate`
  callbacks. Element names arrive as qualified strings such as
  `"itms:artist"`. Character data is collected as a `String`.

Both subclass `iTunesRSSParser`. That superclass batches the songs for its
delegate, at most 11 at a time, and times each run: download, parse and
total. At the end of a run it writes one statistic.

The model has five modules.

- `Records` (`records.dfy`) holds the `Song` record, its five optional
  fields, and the field assignment both backends perform.
- `RssParser` (`rss_parser.dfy`) is the superclass as class
  `ITunesRssParser`.
  - Its fields are the ones the source keeps: `parsedSongs`, the two time
    references and the three durations.
  - Ghost logs stand in for what leaves the object. `notices` is what the
    delegate is told. `recorded` is what reaches the statistics database.
    `received` is every song handed to `parsedSong` since `start`.
  - The batching is specified by the pure function `Batch`. Lemmas show that
    the batches carry every song once, in order, 11 per mid-run batch.
- `LibXml` (`libxml_parser.dfy`) is the SAX backend.
  - There is a pure step function per callback (`OnStartElement`,
    `OnEndElement`, `OnCharacters`), folded over an event sequence by `Run`.
  - Class `LibXmlParser` has one method per callback. Each is proved equal
    to its step function, and `ParseData` loops over the events.
  - The backend owns its `iTunesRSSParser` part as the field `engine`.
- `CocoaXml` (`cocoa_parser.dfy`) is the delegate backend, built the same
  way.
- `Parity` (`parity.dfy`) relates the two backends over one token stream.
  - Both hand the same songs to `parsedSong` in the same order
    (`SameSongsFromStart`) on every flat token stream that the two
    tokenisers report alike: libxml2 as `ToSax` of the tokens, XMLParser as
    `ToDelegate` of the same tokens. In a flat feed no
    song field opens inside another field, no `item` closes inside a field,
    and no field closes inside an item without having opened there. Fields
    outside every item, such as the channel's own `title`, are allowed.
  - On nested fields they differ. `NestedFieldsDiverge` works through
    `<item><title>A<category>B</category></title></item>`: libxml2 gives
    title `""` and category `"AB"`, while XMLParser gives `"B"` to both.

Some parts of the source are inputs to the model:

- the tokenisers, as the event sequence;
- the UTF-8 decoder (`Utf8Decoder`) and the US-locale long-style date
  formatter (`DateParser`), as function-valued parameters;
- every clock reading, as a `real` parameter.

The force-unwrap of the decoded buffer (LibXMLParser.swift:62) becomes the
precondition `RunDecodes`: the bytes every drain reads must decode.
`Song` is a class in the source and a value here. A backend drops its
reference to a song as soon as it hands the song on, so no delivered song is
ever changed again.

The backends call `downloadEnded`, `parsedSong`, `addToParseDuration` and
`parseEnded` through `DispatchQueue.main.async`. The main queue runs blocks
in the order they were queued, so the model calls them directly, in that
order.

In `endElementSAX` the `title`, `category`, `artist` and `album` branches
read the draining `currentString` getter on the right of an
optional-chaining assignment. The getter therefore runs, and empties the
buffer, only when a song is open. The `releasedate` branch reads the getter
into a local first, so it always drains. `LibXml.Drains` captures exactly
this.

## Model

| member | source | states |
|---|---|---|
| Records.WithField | XMLPerformance/CocoaXMLParser.swift:168-177 | assigning a field's text sets exactly that field and leaves the other four alone; the release date becomes the formatter's result, nil when the text does not parse |
| Records.Emitted | XMLPerformance/LibXMLParser.swift:160-169 | `finishedCurrentSong` hands on at most one song; it hands one on exactly when a song is current, and then it is that song |
| RssParser.Batch | XMLPerformance/iTunesRSSParser.swift:122-129 | reference definition of repeated `parsedSong` calls; each call flushes at most one batch, and after any call at most `countForNotification` songs stay pending; `BatchPreservesSongs` and `BatchCounts` state what the batches hold |
| RssParser.BatchNotices | XMLPerformance/iTunesRSSParser.swift:122-129 | each batch becomes one `didParseSongs` message, in order |
| RssParser.BatchPreservesSongs | XMLPerformance/iTunesRSSParser.swift:122-129 | from a pending list of at most `countForNotification` songs, appending songs one by one flushes batches of exactly 11; the flushed batches followed by what stays pending are the old pending songs followed by the new ones; at most 10 remain pending |
| RssParser.BatchCounts | XMLPerformance/iTunesRSSParser.swift:124-127 | from an empty list, n songs flush n / 11 batches and leave n mod 11 pending |
| RssParser.AfterParsedSongsAppend | XMLPerformance/iTunesRSSParser.swift:122-129 | handing on two runs of songs one after the other has the same effect as handing on their concatenation |
| RssParser.AfterNoSongs | XMLPerformance/iTunesRSSParser.swift:122-129 | handing on no songs changes neither the pending list nor the delegate log |
| RssParser.FlushCompletesDelivery | XMLPerformance/iTunesRSSParser.swift:108-114 | the mid-run batches plus the final flush of a non-empty remainder are exactly the delivered batches of the run |
| RssParser.DeliveredIsComplete | XMLPerformance/iTunesRSSParser.swift:105-129 | the batches a run delivers, concatenated in order, are exactly the songs passed to `parsedSong`, and none of them is empty |
| RssParser.SongBatchesOfBatchNotices | XMLPerformance/iTunesRSSParser.swift:108-114 | reading the batches back from the delegate log gives the batches that were sent |
| RssParser.RunLogAfterEnd | XMLPerformance/iTunesRSSParser.swift:105-120 | the final flush and the end notice add exactly the remaining songs, after the earlier ones, to the songs the run has delivered |
| RssParser.ITunesRssParser.constructor | XMLPerformance/iTunesRSSParser.swift:47-60 | a new parser has no pending songs, no time references, zero durations and empty logs |
| RssParser.ITunesRssParser.Start | XMLPerformance/iTunesRSSParser.swift:81-87 | `start` records the start time and empties `parsedSongs`; the accumulated durations are not reset |
| RssParser.ITunesRssParser.DownloadStarted | XMLPerformance/iTunesRSSParser.swift:92-96 | only the download start time changes |
| RssParser.ITunesRssParser.DownloadEnded | XMLPerformance/iTunesRSSParser.swift:98-103 | `downloadDuration` grows by now minus the download start time, and nothing else changes |
| RssParser.ITunesRssParser.AddToParseDuration | XMLPerformance/iTunesRSSParser.swift:136-139 | `parseDuration` grows by exactly the given duration, and nothing else changes |
| RssParser.ITunesRssParser.ParsedSong | XMLPerformance/iTunesRSSParser.swift:122-129 | the song is appended; when that makes 11, the 11 are sent as one batch and the list is emptied; at most 10 stay pending; the delivered batches stay equal to the songs received |
| RssParser.ITunesRssParser.ParseEnded | XMLPerformance/iTunesRSSParser.swift:105-120 | a non-empty remainder is sent, then the end notice; `parsedSongs` is left empty; `totalDuration` is now minus the start time; exactly one statistic (parser type, download, parse, total) is recorded |
| RssParser.ITunesRssParser.ParseError | XMLPerformance/iTunesRSSParser.swift:131-134 | the error reaches the delegate and nothing else changes; no statistic is recorded |
| LibXml.FieldOf | XMLPerformance/LibXMLParser.swift:184-190 | only unprefixed `title`/`category` and `itms`-prefixed `artist`/`album`/`releasedate` name a field, and no field is an item |
| LibXml.OnStartElement | XMLPerformance/LibXMLParser.swift:200-226 | an unprefixed `item` installs a fresh song and sets `parsingASong`; a field start sets `storingCharacters` only inside a song; the buffer is never touched; the song/flag invariant is kept |
| LibXml.Consistent | XMLPerformance/LibXMLParser.swift:31-47 | the invariant of the parser's fields: `parsingASong` holds exactly while a song is open, and characters are stored only inside a song; every callback keeps it (`OnStartElement`, `OnEndElement`, `OnCharacters`, `Step`, `RunStaysConsistent`) |
| LibXml.Drains | XMLPerformance/LibXMLParser.swift:242-266 | which end events read the draining getter: `title`, `category`, `artist` and `album` only with a song open, `releasedate` always; under the invariant a drain always has a song to receive the text; `OnEndElement` states what a drain does |
| LibXml.OnEndElement | XMLPerformance/LibXMLParser.swift:236-271 | an end outside a song changes nothing; inside a song every end clears `storingCharacters`; an `item` end hands on the song exactly once and clears `currentSong` and `parsingASong`; a field end drains the decoded buffer into exactly that field; the invariant is kept |
| LibXml.OnCharacters | XMLPerformance/LibXMLParser.swift:277-288 | only the buffer can change, and only by growing at its end; while storing the bytes added are exactly the callback's, otherwise the callback is ignored; the invariant is kept |
| LibXml.Step | XMLPerformance/LibXMLParser.swift:304-317 | one callback hands on at most one song, and only the open song at the end of its `item`; an `item` end inside a song always hands it on; the invariant is kept |
| LibXml.RunCons | XMLPerformance/LibXMLParser.swift:304-317 | running one callback and then the rest is the whole run |
| LibXml.RunAppend | XMLPerformance/LibXMLParser.swift:304-317 | two event runs back to back are one run over their concatenation, with the songs of both in order |
| LibXml.RunStaysConsistent | XMLPerformance/LibXMLParser.swift:200-288 | every sequence of callbacks keeps `parsingASong` exactly when a song is open, and `storingCharacters` only inside a song |
| LibXml.SplitTextParsesAlike | XMLPerformance/LibXMLParser.swift:156-158 | character data split across any number of callbacks parses exactly as if it arrived in one |
| LibXml.FieldReceivesStoredText | XMLPerformance/LibXMLParser.swift:60-65 | inside a song, a field element whose text arrives in pieces receives the decoding of every byte held since the last drain followed by those pieces, and leaves the buffer empty |
| LibXml.LibXmlParser.constructor | XMLPerformance/LibXMLParser.swift:31-47 | a new parser is outside any song with an empty buffer, over a fresh engine of type libxml2 with no pending songs, no time references and zero durations |
| LibXml.LibXmlParser.AppendCharacters | XMLPerformance/LibXMLParser.swift:156-158 | the bytes are appended to the buffer |
| LibXml.LibXmlParser.CurrentString | XMLPerformance/LibXMLParser.swift:60-65 | the result is the decoding of the buffer, and the buffer is left empty |
| LibXml.LibXmlParser.FinishedCurrentSong | XMLPerformance/LibXMLParser.swift:160-169 | the current song, if any, reaches `parsedSong` once, and `currentSong` becomes nil |
| LibXml.LibXmlParser.StartElementSax | XMLPerformance/LibXMLParser.swift:200-226 | the callback's new state is `OnStartElement` of the old one |
| LibXml.LibXmlParser.StoreField | XMLPerformance/LibXMLParser.swift:252-266 | the field branches of `endElementSAX` drain the decoded buffer into exactly the matching field of the open song, and `releasedate` drains even without one; the parser reaches `OnEndElement`'s state up to the final `storingCharacters` reset |
| LibXml.LibXmlParser.EndElementSax | XMLPerformance/LibXMLParser.swift:236-271 | the callback's new state and the song it hands on are `OnEndElement`'s, and the song reaches the engine's batching |
| LibXml.LibXmlParser.CharactersFoundSax | XMLPerformance/LibXMLParser.swift:277-288 | the callback's new state is `OnCharacters` of the old one |
| LibXml.LibXmlParser.HandleEvent | XMLPerformance/LibXMLParser.swift:304-317 | the registered callback for one event takes the parser to `Step`'s state, and `Step`'s songs reach the engine's batching |
| LibXml.LibXmlParser.ParseData | XMLPerformance/LibXMLParser.swift:101-108 | parsing the data takes the parser to `Run`'s final state, and `Run`'s songs reach the engine in order |
| LibXml.LibXmlParser.CompleteDownload | XMLPerformance/LibXMLParser.swift:96-114 | after a successful download the delegate gets the run's batches, then the end notice; the download and parse durations grow by the measured times; one statistic is recorded; the start time, the download start time and the start of the run's log are unchanged |
| CocoaXml.FieldNamed | XMLPerformance/CocoaXMLParser.swift:149-154 | the five qualified field names map to their fields, and `item` is not one of them |
| CocoaXml.OnDidEndElement | XMLPerformance/CocoaXMLParser.swift:165-180 | every end clears `storingCharacters` and keeps the text; an `item` end hands on the current song, if any, once, and clears it; a field end assigns the text to exactly that field and is a no-op without a song |
| CocoaXml.OnFoundCharacters | XMLPerformance/CocoaXMLParser.swift:182-186 | only the text can change, and only by growing at its end; while storing the characters added are exactly the call's, otherwise the call is ignored |
| CocoaXml.Step | XMLPerformance/CocoaXMLParser.swift:156-194 | one delegate call hands on at most one song: the current one, exactly when an `item` ends with a song open; a parse error changes no state and hands on no song |
| CocoaXml.RunCons | XMLPerformance/CocoaXMLParser.swift:94 | running one delegate call and then the rest is the whole run |
| CocoaXml.SplitTextParsesAlike | XMLPerformance/CocoaXMLParser.swift:182-186 | text split across any number of `foundCharacters` calls parses exactly as if it arrived in one |
| CocoaXml.FieldReceivesItsText | XMLPerformance/CocoaXMLParser.swift:156-186 | a field element whose text arrives in pieces assigns exactly the concatenation of the pieces to that field, whatever text was held before |
| CocoaXml.CocoaXmlParser.constructor | XMLPerformance/CocoaXMLParser.swift:31-50 | a new parser has no current song and is not storing, over a fresh engine of type XMLParser with no pending songs, no time references and zero durations |
| CocoaXml.CocoaXmlParser.FinishedCurrentSong | XMLPerformance/CocoaXMLParser.swift:132-140 | the current song, if any, reaches `parsedSong` once, and `currentSong` becomes nil |
| CocoaXml.CocoaXmlParser.DidStartElement | XMLPerformance/CocoaXMLParser.swift:156-163 | the delegate method's new state is `OnDidStartElement` of the old one |
| CocoaXml.CocoaXmlParser.DidEndElement | XMLPerformance/CocoaXMLParser.swift:165-180 | the new state and the song handed on are `OnDidEndElement`'s, and the song reaches the engine's batching |
| CocoaXml.CocoaXmlParser.FoundCharacters | XMLPerformance/CocoaXMLParser.swift:182-186 | the new state is `OnFoundCharacters` of the old one |
| CocoaXml.CocoaXmlParser.ParseErrorOccurred | XMLPerformance/CocoaXMLParser.swift:192-194 | a parse error leaves the parser state unchanged |
| CocoaXml.CocoaXmlParser.HandleEvent | XMLPerformance/CocoaXMLParser.swift:156-194 | the delegate method for one event takes the parser to `Step`'s state, and `Step`'s songs reach the engine's batching |
| CocoaXml.CocoaXmlParser.ParseData | XMLPerformance/CocoaXMLParser.swift:94 | `parse()` takes the parser to `Run`'s final state, and `Run`'s songs reach the engine in order |
| CocoaXml.CocoaXmlParser.CompleteDownload | XMLPerformance/CocoaXMLParser.swift:82-100 | the text is reset to empty before parsing; the delegate then gets the run's batches, then the end notice; the durations grow by the measured times; one statistic is recorded; the start time, the download start time and the start of the run's log are unchanged |
| Parity.SplitAtColon | XMLPerformance/CocoaXMLParser.swift:152-154 | a colon-free prefix and its local name are recovered uniquely from the qualified name |
| Parity.MatchersAgree | XMLPerformance/LibXMLParser.swift:184-190 | for names without colons, matching the qualified name against the delegate backend's constants picks the same item and fields as matching prefix and local name against the SAX backend's constants |
| Parity.EmptyText | XMLPerformance/LibXMLParser.swift:60-65 | under a UTF-8 codec the empty text is no bytes, and the getter's drain of an empty buffer yields the empty string |
| Parity.StepAgrees | XMLPerformance/LibXMLParser.swift:236-271 | one token keeps the two backends' states related, the SAX backend can decode what it drains, and both hand on the same songs |
| Parity.BackendsAgree | XMLPerformance/CocoaXMLParser.swift:156-186 | from related states, every flat feed is decodable by the SAX backend and both backends hand on the same songs in the same order |
| Parity.SameSongsFromStart | XMLPerformance/CocoaXMLParser.swift:156-186 | from fresh parsers, both backends hand the same songs to `parsedSong`, in the same order, for every flat token stream with well-formed names that libxml2 reports as `ToSax` and XMLParser as `ToDelegate` of the same tokens |
| Parity.NestedFieldsDiverge | XMLPerformance/CocoaXMLParser.swift:156-163 | for a field nested in a field, the feed is not flat, the SAX backend yields title `""` and category `"AB"`, and the delegate backend yields `"B"` for both |

## Left out

- Downloading is not modelled: the `URLSession` task, its error branch (a log line, or `abort()` for error -1022) and the run-loop wait on `done` are I/O and concurrency. Each run is modelled from the point where the data has arrived.
- The tokenisers are not modelled. libxml2's push-parser context (`xmlCreatePushParserCtxt`, `xmlParseChunk`, `xmlFreeParserCtxt` in the `parseEnded` override) and Foundation's `XMLParser` are represented by the event sequences they produce. Which events they produce for a given byte stream, including whether they stop after a malformed document, is theirs to decide.
- `errorEncounteredSAX` is never registered in the SAX handler, so it is not modelled.
- UTF-8 decoding (`String(data:encoding:)`) and the `DateFormatter` are parameters, not implementations. `Parity` assumes only that the encoder respects concatenation and that the decoder inverts it.
- Durations are mathematical reals: floating-point rounding of `TimeInterval` arithmetic is not modelled.
- `WriteStatisticToDatabase` and the rest of the statistics database are represented by an append to the ghost log `recorded`.
- The delegate is represented by the ghost log `notices`. A nil delegate and delegate objects that leave out the optional methods (messages dropped by optional chaining) are not modelled.
- `parserName`, the `parserType` class property (represented by the engine's `parserType` field) and the abstract `preconditionFailure` stubs are not modelled. Neither are the network-activity indicator or the cache purge in `start`.
- `start` in the source also spawns the thread that runs `downloadAndParse`. The model's `Start` only records the start time and empties `parsedSongs`; the download and parse follow as separate calls.
- `CocoaXml.CocoaXmlParser.CompleteDownload`: it does not set `currentString` back to nil after the parse. The model keeps the text as a non-optional string, which every run resets to empty before parsing.
- The `DispatchQueue.main.async` hand-offs are modelled as direct calls in queue order. Interleaving with other main-queue work, such as a second `start` while a run is in flight, is not modelled.
- Parity covers only feeds that both tokenisers report as the same token stream. CDATA sections are one case outside it. The SAX handler registers no `cdataBlock` callback, so libxml2 passes CDATA text to `characters` and it reaches the byte buffer. The delegate implements no `parser(_:foundCDATA:)`, so XMLParser drops that text. `SameSongsFromStart` says nothing about such feeds, nor about any other difference between the two tokenisers' callbacks.
- The force-unwraps of `downloadStartTimeReference` and `startTimeReference` (iTunesRSSParser.swift:100 and 116) become preconditions of `DownloadEnded` and `ParseEnded`, and of both backends' `CompleteDownload`. The source's call order meets them: `start` records the start time before the download begins, and `downloadStarted` runs before the download can end.
- The libxml2 backend parses all the downloaded data in one `xmlParseChunk` call followed by a final empty one. `ParseData` takes the resulting callbacks as one sequence.
