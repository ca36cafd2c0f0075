/** The abstract parse engine shared by both backends (iTunesRSSParser.swift):
    it batches parsed songs for its delegate, accumulates download and parse
    durations, and writes one timing statistic when a parse ends.

    The delegate and the statistics database are modelled as ghost logs: every
    message offered to the delegate is appended to `notices`, every row written
    with WriteStatisticToDatabase to `recorded`. Clock readings are parameters. */
module RssParser {
  import opened Records

  /** XMLParserType: which backend a statistic belongs to. */
  datatype XmlParserType = Abstract | XmlParser | LibXmlParser

  /** `countForNotification`: a batch is flushed once more songs than this are pending. */
  const CountForNotification: nat := 10

  /** An NSError handed to `parseError`. */
  datatype Failure = Failure(code: int, description: string)

  /** A message offered to the delegate. */
  datatype Notice =
    | DidParseSongs(songs: seq<Song>)
    | DidEndParsingData
    | DidFailWithError(error: Failure)

  /** One row of the statistics database. */
  datatype Statistic = Statistic(
    parserType: XmlParserType,
    downloadDuration: real,
    parseDuration: real,
    totalDuration: real)

  /** The songs of a list of batches, in delivery order. */
  function Flatten(batches: seq<seq<Song>>): (r: seq<Song>)
  {
    if batches == [] then [] else batches[0] + Flatten(batches[1..])
  }

  /** The batches among the delegate messages, in order. */
  function SongBatches(notices: seq<Notice>): (r: seq<seq<Song>>)
  {
    if notices == [] then []
    else (if notices[0].DidParseSongs? then [notices[0].songs] else []) + SongBatches(notices[1..])
  }

  /** The delegate messages that deliver `batches`, one `didParseSongs` each. */
  function BatchNotices(batches: seq<seq<Song>>): (r: seq<Notice>)
    ensures |r| == |batches|
    ensures forall i :: 0 <= i < |r| ==> r[i] == DidParseSongs(batches[i])
  {
    if batches == [] then [] else [DidParseSongs(batches[0])] + BatchNotices(batches[1..])
  }

  /** The effect of calling `parsedSong` once for each of `songs`, in order, on
      the pending list `pending`: the batches flushed on the way and the songs
      left pending. */
  function Batch(pending: seq<Song>, songs: seq<Song>): (r: (seq<seq<Song>>, seq<Song>))
    // Each call flushes at most one batch, and after any call at most
    // `countForNotification` songs stay pending.
    ensures |r.0| <= |songs|
    ensures songs != [] ==> |r.1| <= CountForNotification
    decreases |songs|
  {
    if songs == [] then ([], pending)
    else
      var (flushed, rest) := Batch(pending, songs[..|songs| - 1]);
      var grown := rest + [songs[|songs| - 1]];
      if |grown| > CountForNotification then (flushed + [grown], []) else (flushed, grown)
  }

  /** The pending list and the delegate log after `parsedSong` is called for
      each of `songs`. */
  function AfterParsedSongs(pending: seq<Song>, notices: seq<Notice>, songs: seq<Song>): (seq<Song>, seq<Notice>)
  {
    var (flushed, rest) := Batch(pending, songs);
    (rest, notices + BatchNotices(flushed))
  }

  /** Every batch a whole run delivers: the mid-run batches, then at the end of
      the parse the remainder, which is sent only when it is non-empty. */
  function Delivered(pending: seq<Song>, songs: seq<Song>): seq<seq<Song>>
  {
    var (flushed, rest) := Batch(pending, songs);
    flushed + (if rest == [] then [] else [rest])
  }

  /** One `parsedSong` call, unfolded. */
  lemma BatchOne(pending: seq<Song>, notices: seq<Notice>, song: Song)
    ensures AfterParsedSongs(pending, notices, [song])
         == if |pending| + 1 > CountForNotification then ([], notices + [DidParseSongs(pending + [song])])
            else (pending + [song], notices)
  {
    assert [song][..0] == [];
    assert [song][0] == song;
    assert Batch(pending, []) == ([], pending);
    var empty: seq<seq<Song>> := [];
    if |pending| + 1 > CountForNotification {
      assert Batch(pending, [song]) == (empty + [pending + [song]], []);
      assert empty + [pending + [song]] == [pending + [song]];
      assert BatchNotices([pending + [song]]) == [DidParseSongs(pending + [song])];
    } else {
      assert Batch(pending, [song]) == (empty, pending + [song]);
      assert notices + BatchNotices(empty) == notices;
    }
  }

  lemma {:induction false} BatchNoticesAppend(a: seq<seq<Song>>, b: seq<seq<Song>>)
    ensures BatchNotices(a + b) == BatchNotices(a) + BatchNotices(b)
  {
    var joined, parts := BatchNotices(a + b), BatchNotices(a) + BatchNotices(b);
    forall i | 0 <= i < |joined|
      ensures joined[i] == parts[i]
    {
      if i < |a| {
        assert (a + b)[i] == a[i];
      } else {
        assert (a + b)[i] == b[i - |a|];
      }
    }
  }

  /** Calling `parsedSong` for `songs` and then for one more song. */
  lemma AfterParsedSongsSnoc(pending: seq<Song>, notices: seq<Notice>, songs: seq<Song>, song: Song)
    ensures var (p, n) := AfterParsedSongs(pending, notices, songs);
      AfterParsedSongs(pending, notices, songs + [song]) == AfterParsedSongs(p, n, [song])
  {
    var all := songs + [song];
    assert all[..|all| - 1] == songs && all[|all| - 1] == song;
    var (flushed, rest) := Batch(pending, songs);
    BatchOne(rest, notices + BatchNotices(flushed), song);
    var grown := rest + [song];
    if |grown| > CountForNotification {
      assert Batch(pending, all) == (flushed + [grown], []);
      BatchNoticesAppend(flushed, [grown]);
      assert BatchNotices([grown]) == [DidParseSongs(grown)];
      assert notices + BatchNotices(flushed + [grown]) == notices + BatchNotices(flushed) + [DidParseSongs(grown)];
    } else {
      assert Batch(pending, all) == (flushed, grown);
    }
  }

  /** Calling `parsedSong` for `songs` and then for `more`. */
  lemma {:induction false} AfterParsedSongsAppend(pending: seq<Song>, notices: seq<Notice>, songs: seq<Song>, more: seq<Song>)
    ensures var (p, n) := AfterParsedSongs(pending, notices, songs);
      AfterParsedSongs(pending, notices, songs + more) == AfterParsedSongs(p, n, more)
    decreases |more|
  {
    var (p, n) := AfterParsedSongs(pending, notices, songs);
    if more == [] {
      assert songs + more == songs;
      AfterNoSongs(p, n);
    } else {
      var init, last := more[..|more| - 1], more[|more| - 1];
      assert more == init + [last];
      assert songs + more == (songs + init) + [last];
      AfterParsedSongsAppend(pending, notices, songs, init);
      AfterParsedSongsSnoc(pending, notices, songs + init, last);
      AfterParsedSongsSnoc(p, n, init, last);
    }
  }

  /** Calling `parsedSong` for no songs changes nothing. */
  lemma AfterNoSongs(pending: seq<Song>, notices: seq<Notice>)
    ensures AfterParsedSongs(pending, notices, []) == (pending, notices)
  {
    assert notices + BatchNotices([]) == notices;
  }

  /** The delegate log after `parsedSong` for each of `songs` and the flush of
      `parseEnded` holds the batches of the whole run. */
  lemma FlushCompletesDelivery(pending: seq<Song>, notices: seq<Notice>, songs: seq<Song>)
    ensures var (rest, logged) := AfterParsedSongs(pending, notices, songs);
      logged + (if rest == [] then [] else [DidParseSongs(rest)])
      == notices + BatchNotices(Delivered(pending, songs))
  {
    var (flushed, rest) := Batch(pending, songs);
    var tail := if rest == [] then [] else [rest];
    BatchNoticesAppend(flushed, tail);
    assert BatchNotices(tail) == if rest == [] then [] else [DidParseSongs(rest)];
  }

  lemma {:induction false} FlattenAppend(a: seq<seq<Song>>, b: seq<seq<Song>>)
    ensures Flatten(a + b) == Flatten(a) + Flatten(b)
  {
    if a == [] {
      assert a + b == b;
    } else {
      assert (a + b)[1..] == a[1..] + b;
      FlattenAppend(a[1..], b);
    }
  }

  lemma FlattenOne(batch: seq<Song>)
    ensures Flatten([batch]) == batch
  {
    assert [batch][1..] == [];
  }

  lemma SongBatchesOne(n: Notice)
    ensures SongBatches([n]) == if n.DidParseSongs? then [n.songs] else []
  {
    assert [n][1..] == [];
  }

  lemma {:induction false} SongBatchesAppend(a: seq<Notice>, b: seq<Notice>)
    ensures SongBatches(a + b) == SongBatches(a) + SongBatches(b)
  {
    if a == [] {
      assert a + b == b;
    } else {
      assert (a + b)[1..] == a[1..] + b;
      SongBatchesAppend(a[1..], b);
    }
  }

  lemma {:induction false} SongBatchesOfBatchNotices(batches: seq<seq<Song>>)
    ensures SongBatches(BatchNotices(batches)) == batches
  {
    if batches != [] {
      var n := BatchNotices(batches);
      assert n[1..] == BatchNotices(batches[1..]);
      SongBatchesOfBatchNotices(batches[1..]);
    }
  }

  /** Starting from a pending list no longer than the threshold, every batch
      flushed mid-run holds exactly 11 songs, at most 10 stay pending, and the
      flushed batches followed by the pending songs are exactly the pending list
      followed by the songs passed in: nothing is dropped, duplicated or reordered. */
  lemma {:induction false} BatchPreservesSongs(pending: seq<Song>, songs: seq<Song>)
    requires |pending| <= CountForNotification
    ensures var (flushed, rest) := Batch(pending, songs);
      && Flatten(flushed) + rest == pending + songs
      && |rest| <= CountForNotification
      && forall i :: 0 <= i < |flushed| ==> |flushed[i]| == CountForNotification + 1
    decreases |songs|
  {
    if songs != [] {
      var init, last := songs[..|songs| - 1], songs[|songs| - 1];
      assert init + [last] == songs;
      BatchPreservesSongs(pending, init);
      var (flushed, rest) := Batch(pending, init);
      var grown := rest + [last];
      calc {
        Flatten(flushed) + grown;
        (Flatten(flushed) + rest) + [last];
        (pending + init) + [last];
        pending + songs;
      }
      if |grown| > CountForNotification {
        FlattenAppend(flushed, [grown]);
        FlattenOne(grown);
      }
    }
  }

  /** From an empty pending list (as after `start`), N songs produce N / 11 full
      batches and leave N % 11 songs pending. */
  lemma {:induction false} BatchCounts(songs: seq<Song>)
    ensures var (flushed, rest) := Batch([], songs);
      |flushed| == |songs| / (CountForNotification + 1) && |rest| == |songs| % (CountForNotification + 1)
    decreases |songs|
  {
    if songs != [] {
      BatchCounts(songs[..|songs| - 1]);
    }
  }

  /** Concatenating every batch a whole run delivers gives back the pending
      songs followed by the parsed ones, and no delivered batch is empty. */
  lemma DeliveredIsComplete(pending: seq<Song>, songs: seq<Song>)
    requires |pending| <= CountForNotification
    ensures Flatten(Delivered(pending, songs)) == pending + songs
    ensures forall i :: 0 <= i < |Delivered(pending, songs)| ==> Delivered(pending, songs)[i] != []
  {
    BatchPreservesSongs(pending, songs);
    var (flushed, rest) := Batch(pending, songs);
    var tail := if rest == [] then [] else [rest];
    FlattenAppend(flushed, tail);
    assert Flatten(tail) == rest;
  }

  /** The songs delivered since `start` after `parseEnded` flushes `pending`
      and announces the end: the earlier ones followed by `pending`. */
  lemma RunLogAfterEnd(notices: seq<Notice>, from: nat, pending: seq<Song>)
    requires from <= |notices|
    ensures var flush := if pending == [] then [] else [DidParseSongs(pending)];
      Flatten(SongBatches((notices + flush + [DidEndParsingData])[from..]))
        == Flatten(SongBatches(notices[from..])) + pending
  {
    var flush := if pending == [] then [] else [DidParseSongs(pending)];
    assert (notices + flush + [DidEndParsingData])[from..] == notices[from..] + (flush + [DidEndParsingData]);
    SongBatchesAppend(notices[from..], flush + [DidEndParsingData]);
    SongBatchesAppend(flush, [DidEndParsingData]);
    SongBatchesOne(DidEndParsingData);
    if pending != [] {
      SongBatchesOne(DidParseSongs(pending));
      FlattenOne(pending);
    }
    assert SongBatches(flush) == (if pending == [] then [] else [pending]);
    assert SongBatches(flush + [DidEndParsingData]) == SongBatches(flush);
    FlattenAppend(SongBatches(notices[from..]), SongBatches(flush));
  }

  class ITunesRssParser {
    const parserType: XmlParserType
    var parsedSongs: seq<Song>
    var startTimeReference: Option<real>
    var downloadStartTimeReference: Option<real>
    var parseDuration: real
    var downloadDuration: real
    var totalDuration: real

    /** Messages offered to the delegate, oldest first. */
    ghost var notices: seq<Notice>
    /** Rows written to the statistics database, oldest first. */
    ghost var recorded: seq<Statistic>
    /** Songs passed to `parsedSong` since the last `start`. */
    ghost var received: seq<Song>
    /** Length of `notices` when the last `start` ran. */
    ghost var runStart: nat

    /** Batches are never empty, at most 10 songs are ever pending, and the
        batches delivered since `start` followed by the pending songs are the
        songs received since `start`. */
    ghost predicate Valid()
      reads this
    {
      && |parsedSongs| <= CountForNotification
      && runStart <= |notices|
      && Flatten(SongBatches(notices[runStart..])) + parsedSongs == received
      && forall i :: 0 <= i < |notices| && notices[i].DidParseSongs? ==> notices[i].songs != []
    }

    /** The fields no song delivery touches. */
    ghost function Measurements(): (Option<real>, Option<real>, real, real, real, seq<Statistic>, nat)
      reads this
    {
      (startTimeReference, downloadStartTimeReference, parseDuration, downloadDuration, totalDuration, recorded, runStart)
    }

    constructor (parserType: XmlParserType)
      ensures Valid()
      ensures this.parserType == parserType
      ensures parsedSongs == [] && startTimeReference == None && downloadStartTimeReference == None
      ensures parseDuration == 0.0 && downloadDuration == 0.0 && totalDuration == 0.0
      ensures notices == [] && recorded == [] && received == []
    {
      this.parserType := parserType;
      parsedSongs := [];
      startTimeReference := None;
      downloadStartTimeReference := None;
      parseDuration, downloadDuration, totalDuration := 0.0, 0.0, 0.0;
      notices, recorded, received, runStart := [], [], [], 0;
    }

    /** `start()`: note the start time and empty the pending list. The
        accumulated durations are not reset. */
    method Start(now: real)
      requires Valid()
      modifies this
      ensures Valid()
      ensures startTimeReference == Some(now) && parsedSongs == [] && received == []
      ensures runStart == |notices| && notices == old(notices) && recorded == old(recorded)
      ensures downloadStartTimeReference == old(downloadStartTimeReference)
      ensures parseDuration == old(parseDuration) && downloadDuration == old(downloadDuration)
      ensures totalDuration == old(totalDuration)
    {
      startTimeReference := Some(now);
      parsedSongs := [];
      received, runStart := [], |notices|;
    }

    /** `downloadStarted()`: note when the download began. */
    method DownloadStarted(now: real)
      requires Valid()
      modifies this`downloadStartTimeReference
      ensures Valid()
      ensures downloadStartTimeReference == Some(now)
    {
      downloadStartTimeReference := Some(now);
    }

    /** `downloadEnded()`: add the time since the download began to the download
        duration (the start reference must have been set). */
    method DownloadEnded(now: real)
      requires Valid()
      requires downloadStartTimeReference.Some?
      modifies this`downloadDuration
      ensures Valid()
      ensures downloadDuration == old(downloadDuration) + (now - downloadStartTimeReference.value)
    {
      var duration := now - downloadStartTimeReference.value;
      downloadDuration := downloadDuration + duration;
    }

    /** `addToParseDuration(_:)`: add one parse slice to the parse duration. */
    method AddToParseDuration(duration: real)
      requires Valid()
      modifies this`parseDuration
      ensures Valid()
      ensures parseDuration == old(parseDuration) + duration
    {
      parseDuration := parseDuration + duration;
    }

    /** `parsedSong(_:)`: queue the song; once more than 10 are pending, hand
        all of them (exactly 11) to the delegate and empty the queue. */
    method ParsedSong(song: Song)
      requires Valid()
      modifies this`parsedSongs, this`notices, this`received
      ensures Valid()
      ensures received == old(received) + [song]
      ensures |old(parsedSongs)| < CountForNotification ==>
                parsedSongs == old(parsedSongs) + [song] && notices == old(notices)
      ensures |old(parsedSongs)| == CountForNotification ==>
                && parsedSongs == []
                && notices == old(notices) + [DidParseSongs(old(parsedSongs) + [song])]
                && |old(parsedSongs) + [song]| == CountForNotification + 1
      ensures (parsedSongs, notices) == AfterParsedSongs(old(parsedSongs), old(notices), [song])
    {
      ghost var before := notices;
      ghost var delivered := Flatten(SongBatches(notices[runStart..]));
      parsedSongs := parsedSongs + [song];
      received := received + [song];
      assert delivered + parsedSongs == received;
      if |parsedSongs| > CountForNotification {
        var batch := parsedSongs;
        notices := notices + [DidParseSongs(batch)];
        parsedSongs := [];
        assert notices[runStart..] == before[runStart..] + [DidParseSongs(batch)];
        SongBatchesAppend(before[runStart..], [DidParseSongs(batch)]);
        SongBatchesOne(DidParseSongs(batch));
        FlattenAppend(SongBatches(before[runStart..]), [batch]);
        FlattenOne(batch);
        assert BatchNotices([batch]) == [DidParseSongs(batch)];
      }
      BatchOne(old(parsedSongs), old(notices), song);
    }

    /** `parseEnded()`: deliver the pending songs if there are any, empty the
        queue, announce the end of the parse, and write exactly one statistic
        whose total is the time since `start`. */
    method ParseEnded(now: real)
      requires Valid()
      requires startTimeReference.Some?
      modifies this`parsedSongs, this`notices, this`totalDuration, this`recorded
      ensures Valid()
      ensures parsedSongs == []
      ensures notices == old(notices)
                         + (if old(parsedSongs) == [] then [] else [DidParseSongs(old(parsedSongs))])
                         + [DidEndParsingData]
      ensures totalDuration == now - startTimeReference.value
      ensures recorded == old(recorded) + [Statistic(parserType, downloadDuration, parseDuration, totalDuration)]
    {
      ghost var before := notices;
      ghost var pending := parsedSongs;
      ghost var flush := if pending == [] then [] else [DidParseSongs(pending)];
      if |parsedSongs| > 0 {
        notices := notices + [DidParseSongs(parsedSongs)];
      }
      parsedSongs := [];
      notices := notices + [DidEndParsingData];
      assert notices == before + flush + [DidEndParsingData];
      RunLogAfterEnd(before, runStart, pending);
      var duration := now - startTimeReference.value;
      totalDuration := duration;
      recorded := recorded + [Statistic(parserType, downloadDuration, parseDuration, totalDuration)];
    }

    /** `parseError(_:)`: pass the error on to the delegate; no statistic is written. */
    method ParseError(error: Failure)
      requires Valid()
      modifies this`notices
      ensures Valid()
      ensures notices == old(notices) + [DidFailWithError(error)]
    {
      ghost var before := notices;
      notices := notices + [DidFailWithError(error)];
      assert notices[runStart..] == before[runStart..] + [DidFailWithError(error)];
      SongBatchesAppend(before[runStart..], [DidFailWithError(error)]);
      SongBatchesOne(DidFailWithError(error));
      assert SongBatches(notices[runStart..]) == SongBatches(before[runStart..]);
    }
  }
}
