/** The two backends side by side. Both read the same feed: libxml2 reports each
    element by namespace prefix and local name and each text run as UTF-8 bytes,
    XMLParser reports each element by its qualified name and each text run as a
    string. This module relates the two callback machines. On every feed in
    which no song field opens inside another field, no `item` closes inside a
    field, and no field closes inside an item without having opened there,
    they hand the same songs to `parsedSong`, in the same order, provided the
    two tokenisers report the feed as the same token stream. Fields
    outside every item, such as the channel's own `title`, are allowed. On a
    feed with nested fields the backends part ways. */
module Parity {
  import opened Records
  import LibXml
  import CocoaXml

  /** One piece of the feed as a tokeniser sees it. */
  datatype Token =
    | Open(prefix: Option<string>, localName: string)
    | Close(prefix: Option<string>, localName: string)
    | Text(text: string)

  /** The qualified name XMLParser reports for an element. */
  function QName(prefix: Option<string>, localName: string): (q: string)
    ensures prefix.None? ==> q == localName
    ensures prefix.Some? ==> q == prefix.value + ":" + localName
  {
    if prefix.None? then localName else prefix.value + ":" + localName
  }

  /** Names as namespaces in XML allow them: neither the prefix nor the local
      part contains a colon. */
  predicate NameOk(prefix: Option<string>, localName: string) {
    ':' !in localName && (prefix.Some? ==> ':' !in prefix.value)
  }

  predicate NamesOk(tokens: seq<Token>) {
    forall i :: 0 <= i < |tokens| && !tokens[i].Text? ==> NameOk(tokens[i].prefix, tokens[i].localName)
  }

  /** The UTF-8 encoder that turns the feed's text into the bytes libxml2
      hands over, and the decoder `String(bytes:encoding:)` applies to them:
      encoding respects concatenation and decoding inverts it. */
  ghost predicate Inverse(encode: string -> seq<Byte>, decode: Utf8Decoder) {
    && (forall s: string, t: string :: encode(s + t) == encode(s) + encode(t))
    && (forall s: string :: decode(encode(s)) == Some(s))
  }

  /** The SAX callbacks libxml2 issues for the feed. */
  function ToSax(tokens: seq<Token>, encode: string -> seq<Byte>): (r: seq<LibXml.SaxEvent>)
    ensures |r| == |tokens|
  {
    if tokens == [] then []
    else [SaxOf(tokens[0], encode)] + ToSax(tokens[1..], encode)
  }

  function SaxOf(t: Token, encode: string -> seq<Byte>): LibXml.SaxEvent {
    match t
    case Open(p, l) => LibXml.StartElement(p, l)
    case Close(p, l) => LibXml.EndElement(p, l)
    case Text(text) => LibXml.Characters(encode(text))
  }

  /** The delegate calls XMLParser issues for the feed. */
  function ToDelegate(tokens: seq<Token>): (r: seq<CocoaXml.DelegateEvent>)
    ensures |r| == |tokens|
  {
    if tokens == [] then []
    else [DelegateOf(tokens[0])] + ToDelegate(tokens[1..])
  }

  function DelegateOf(t: Token): CocoaXml.DelegateEvent {
    match t
    case Open(p, l) => CocoaXml.DidStartElement(QName(p, l))
    case Close(p, l) => CocoaXml.DidEndElement(QName(p, l))
    case Text(text) => CocoaXml.FoundCharacters(text)
  }

  /** In a colon-free prefix joined to its rest by a colon, the first colon
      stands right after the prefix. */
  lemma ColonAfterPrefix(x: string, l: string)
    requires ':' !in x
    ensures (x + ":" + l)[|x|] == ':'
    ensures forall i :: 0 <= i < |x| ==> (x + ":" + l)[i] != ':'
  {
    forall i | 0 <= i < |x|
      ensures (x + ":" + l)[i] != ':'
    {
      assert (x + ":" + l)[i] == x[i];
    }
  }

  /** Two colon-free prefixes joined to their rest by a colon give the same
      string only when both halves agree. */
  lemma SplitAtColon(x: string, l: string, y: string, m: string)
    requires ':' !in x && ':' !in y
    ensures (x + ":" + l == y + ":" + m) == (x == y && l == m)
  {
    var s := x + ":" + l;
    if s == y + ":" + m {
      ColonAfterPrefix(x, l);
      ColonAfterPrefix(y, m);
      if |x| != |y| {
        assert false;
      }
      assert x == s[..|x|] == y;
      assert l == s[|x| + 1..] == m;
    }
  }

  /** Matching a qualified name, as the delegate methods do, and matching the
      prefix and local name, as the SAX callbacks do, pick out the same
      elements. */
  lemma MatchersAgree(p: Option<string>, l: string)
    requires NameOk(p, l)
    ensures (QName(p, l) == CocoaXml.ItemName) == LibXml.IsItem(p, l)
    ensures CocoaXml.FieldNamed(QName(p, l)) == LibXml.FieldOf(p, l)
  {
    assert CocoaXml.ArtistName == LibXml.ItmsName + ":" + LibXml.ArtistName;
    assert CocoaXml.AlbumName == LibXml.ItmsName + ":" + LibXml.AlbumName;
    assert CocoaXml.ReleaseDateName == LibXml.ItmsName + ":" + LibXml.ReleaseDateName;
    assert ':' !in LibXml.ItmsName;
    if p.None? {
      assert CocoaXml.ArtistName[4] == ':' && CocoaXml.AlbumName[4] == ':' && CocoaXml.ReleaseDateName[4] == ':';
    } else {
      var q := QName(p, l);
      assert q[|p.value|] == ':';
      assert ':' !in CocoaXml.ItemName && ':' !in CocoaXml.TitleName && ':' !in CocoaXml.CategoryName;
      SplitAtColon(p.value, l, LibXml.ItmsName, LibXml.ArtistName);
      SplitAtColon(p.value, l, LibXml.ItmsName, LibXml.AlbumName);
      SplitAtColon(p.value, l, LibXml.ItmsName, LibXml.ReleaseDateName);
    }
  }

  /** Where the feed is: outside every item, inside an item but outside its
      fields, or inside a field (with characters stored or not). */
  datatype Phase = Outside | InItem | InField(storing: bool)

  /** The phase after a token, or None where the two backends part ways:
      a field opened inside a field, an item closed inside a field, or a
      field closed outside any field of the item. */
  function Next(ph: Phase, t: Token): Option<Phase> {
    match t
    case Open(p, l) =>
      if LibXml.IsItem(p, l) then (if ph == Outside then Some(InItem) else Some(ph))
      else if LibXml.FieldOf(p, l).Some? then
        (match ph
         case Outside => Some(Outside)
         case InItem => Some(InField(true))
         case InField(_) => None)
      else Some(ph)
    case Close(p, l) =>
      if LibXml.IsItem(p, l) then (if ph.InField? then None else Some(Outside))
      else if LibXml.FieldOf(p, l).Some? then
        (match ph
         case Outside => Some(Outside)
         case InItem => None
         case InField(_) => Some(InItem))
      else if ph.InField? then Some(InField(false))
      else Some(ph)
    case Text(_) => Some(ph)
  }

  /** Whether the feed never takes a step on which the backends part ways. */
  predicate Flat(ph: Phase, tokens: seq<Token>)
    decreases |tokens|
  {
    tokens != [] ==> Next(ph, tokens[0]).Some? && Flat(Next(ph, tokens[0]).value, tokens[1..])
  }

  /** How the two parser states correspond in each phase. Outside an item and
      between fields the text XMLParser holds plays no part; inside a field
      the libxml2 buffer holds exactly the encoding of XMLParser's text. */
  ghost predicate Related(ph: Phase, ls: LibXml.ParserState, cs: CocoaXml.ParserState,
                          encode: string -> seq<Byte>) {
    match ph
    case Outside =>
      && !ls.parsingASong && !ls.storingCharacters && ls.characterBuffer == []
      && ls.currentSong == None && cs.currentSong == None
    case InItem =>
      && ls.parsingASong && !ls.storingCharacters && ls.characterBuffer == []
      && ls.currentSong.Some? && cs.currentSong == ls.currentSong
    case InField(st) =>
      && ls.parsingASong && ls.storingCharacters == st && cs.storingCharacters == st
      && ls.currentSong.Some? && cs.currentSong == ls.currentSong
      && ls.characterBuffer == encode(cs.currentString)
  }

  /** The empty text is no bytes, and draining an empty buffer yields the
      empty text. */
  lemma EmptyText(encode: string -> seq<Byte>, decode: Utf8Decoder)
    requires Inverse(encode, decode)
    ensures encode("") == []
    ensures decode([]) == Some("")
  {
    assert "" + "" == "";
    assert encode("" + "") == encode("") + encode("");
    assert decode(encode("")) == Some("");
  }

  /** One token keeps the states related, the libxml2 callback can decode
      what it drains, and both backends hand on the same songs. */
  lemma StepAgrees(ph: Phase, ls: LibXml.ParserState, cs: CocoaXml.ParserState, t: Token,
                   encode: string -> seq<Byte>, decode: Utf8Decoder, parseDate: DateParser)
    requires Inverse(encode, decode)
    requires Related(ph, ls, cs, encode)
    requires !t.Text? ==> NameOk(t.prefix, t.localName)
    requires Next(ph, t).Some?
    ensures LibXml.StepDecodes(ls, SaxOf(t, encode), decode)
    ensures LibXml.StepDecodes(ls, SaxOf(t, encode), decode) ==>
              && LibXml.Step(ls, SaxOf(t, encode), decode, parseDate).1
                 == CocoaXml.Step(cs, DelegateOf(t), parseDate).1
              && Related(Next(ph, t).value, LibXml.Step(ls, SaxOf(t, encode), decode, parseDate).0,
                         CocoaXml.Step(cs, DelegateOf(t), parseDate).0, encode)
  {
    EmptyText(encode, decode);
    match t
    case Open(p, l) =>
      MatchersAgree(p, l);
    case Close(p, l) =>
      MatchersAgree(p, l);
      if ph.InField? && LibXml.FieldOf(p, l).Some? {
        assert decode(ls.characterBuffer) == Some(cs.currentString);
      }
    case Text(text) =>
      if ph.InField? && ph.storing {
        assert encode(cs.currentString + text) == encode(cs.currentString) + encode(text);
      }
  }

  /** The two backends, started in related states, hand the same songs to
      `parsedSong` for every flat feed, and the libxml2 backend never meets
      bytes it cannot decode. */
  lemma {:induction false} BackendsAgree(ph: Phase, ls: LibXml.ParserState, cs: CocoaXml.ParserState,
                                         tokens: seq<Token>, encode: string -> seq<Byte>,
                                         decode: Utf8Decoder, parseDate: DateParser)
    requires Inverse(encode, decode)
    requires Related(ph, ls, cs, encode)
    requires Flat(ph, tokens) && NamesOk(tokens)
    ensures LibXml.RunDecodes(ls, ToSax(tokens, encode), decode, parseDate)
    ensures LibXml.RunDecodes(ls, ToSax(tokens, encode), decode, parseDate) ==>
              LibXml.Run(ls, ToSax(tokens, encode), decode, parseDate).1
              == CocoaXml.Run(cs, ToDelegate(tokens), parseDate).1
    decreases |tokens|
  {
    if tokens != [] {
      var t := tokens[0];
      var e := SaxOf(t, encode);
      var d := DelegateOf(t);
      StepAgrees(ph, ls, cs, t, encode, decode, parseDate);
      var ls' := LibXml.Step(ls, e, decode, parseDate).0;
      var cs' := CocoaXml.Step(cs, d, parseDate).0;
      assert NamesOk(tokens[1..]) by {
        forall i | 0 <= i < |tokens[1..]| && !tokens[1..][i].Text?
          ensures NameOk(tokens[1..][i].prefix, tokens[1..][i].localName)
        {
          assert tokens[1..][i] == tokens[i + 1];
        }
      }
      BackendsAgree(Next(ph, t).value, ls', cs', tokens[1..], encode, decode, parseDate);
      assert ToSax(tokens, encode) == [e] + ToSax(tokens[1..], encode);
      assert ToDelegate(tokens) == [d] + ToDelegate(tokens[1..]);
      LibXml.RunCons(ls, e, ToSax(tokens[1..], encode), decode, parseDate);
      CocoaXml.RunCons(cs, d, ToDelegate(tokens[1..]), parseDate);
    }
  }

  /** From freshly started parsers, both backends hand the same songs to
      `parsedSong`, in the same order, for every flat feed with well-formed
      names. */
  lemma SameSongsFromStart(tokens: seq<Token>, encode: string -> seq<Byte>,
                           decode: Utf8Decoder, parseDate: DateParser)
    requires Inverse(encode, decode)
    requires Flat(Outside, tokens) && NamesOk(tokens)
    ensures LibXml.RunDecodes(LibXml.Initial, ToSax(tokens, encode), decode, parseDate)
    ensures LibXml.RunDecodes(LibXml.Initial, ToSax(tokens, encode), decode, parseDate) ==>
              LibXml.Run(LibXml.Initial, ToSax(tokens, encode), decode, parseDate).1
              == CocoaXml.Run(CocoaXml.Initial, ToDelegate(tokens), parseDate).1
  {
    BackendsAgree(Outside, LibXml.Initial, CocoaXml.Initial, tokens, encode, decode, parseDate);
  }

  /** `<item><title>A<category>B</category></title></item>`: a field nested
      in another field, the first step on which the backends part ways. */
  const NestedFields: seq<Token> := [
    Open(None, "item"), Open(None, "title"), Text("A"),
    Open(None, "category"), Text("B"), Close(None, "category"),
    Close(None, "title"), Close(None, "item")]

  /** On nested fields the libxml2 backend, whose buffer is only drained at a
      field end, gives the inner field the text of both and the outer field
      the empty text; the XMLParser backend, which empties its text at every
      field start, gives both fields the inner text. */
  lemma NestedFieldsDiverge(encode: string -> seq<Byte>, decode: Utf8Decoder, parseDate: DateParser)
    requires Inverse(encode, decode)
    ensures !Flat(Outside, NestedFields)
    ensures LibXml.RunDecodes(LibXml.Initial, ToSax(NestedFields, encode), decode, parseDate)
    ensures LibXml.RunDecodes(LibXml.Initial, ToSax(NestedFields, encode), decode, parseDate) ==>
              LibXml.Run(LibXml.Initial, ToSax(NestedFields, encode), decode, parseDate).1
              == [NewSong().(title := Some(""), category := Some("AB"))]
    ensures CocoaXml.Run(CocoaXml.Initial, ToDelegate(NestedFields), parseDate).1
            == [NewSong().(title := Some("B"), category := Some("B"))]
  {
    assert Next(InField(true), NestedFields[3]) == None;
    EmptyText(encode, decode);
    assert encode("A" + "B") == encode("A") + encode("B");
    assert "A" + "B" == "AB";
    assert decode(encode("AB")) == Some("AB") && decode(encode("")) == Some("");
    LibNested(encode, decode, parseDate);
    CocoaNested(parseDate);
  }

  /** The SAX callbacks for `NestedFields`. */
  function NestedSax(encode: string -> seq<Byte>): seq<LibXml.SaxEvent> {
    [LibXml.StartElement(None, "item"), LibXml.StartElement(None, "title"), LibXml.Characters(encode("A")),
     LibXml.StartElement(None, "category"), LibXml.Characters(encode("B")), LibXml.EndElement(None, "category"),
     LibXml.EndElement(None, "title"), LibXml.EndElement(None, "item")]
  }

  lemma NestedSaxIsImage(encode: string -> seq<Byte>)
    ensures ToSax(NestedFields, encode) == NestedSax(encode)
  {
    var ev := ToSax(NestedFields, encode);
    forall k | 0 <= k < |ev| ensures ev[k] == NestedSax(encode)[k] {
      ToSaxAt(NestedFields, encode, k);
    }
  }

  lemma LibNested(encode: string -> seq<Byte>, decode: Utf8Decoder, parseDate: DateParser)
    requires encode("A") + encode("B") == encode("AB")
    requires decode(encode("AB")) == Some("AB") && decode([]) == Some("")
    ensures LibXml.RunDecodes(LibXml.Initial, ToSax(NestedFields, encode), decode, parseDate)
    ensures LibXml.RunDecodes(LibXml.Initial, ToSax(NestedFields, encode), decode, parseDate) ==>
              LibXml.Run(LibXml.Initial, ToSax(NestedFields, encode), decode, parseDate).1
              == [NewSong().(title := Some(""), category := Some("AB"))]
  {
    NestedSaxIsImage(encode);
    var ev := NestedSax(encode);
    var song := NewSong();
    var withCategory := song.(category := Some("AB"));
    var done := withCategory.(title := Some(""));
    var st := LibNestedStates(encode);
    LibNestedSteps(encode, decode, parseDate);
    assert LibXml.Step(st[7], ev[7], decode, parseDate).1 == [done];
    LibQuietRun(st, ev, 0, [done], decode, parseDate);
    assert ev[0..] == ev;
  }

  /** The SAX backend's states along `NestedFields`, one before each callback. */
  function LibNestedStates(encode: string -> seq<Byte>): (st: seq<LibXml.ParserState>)
    ensures |st| == 8
  {
    var song := NewSong();
    var s1 := LibXml.ParserState(true, false, [], Some(song));
    var s2 := s1.(storingCharacters := true);
    var s3 := s2.(characterBuffer := encode("A"));
    var s6 := LibXml.ParserState(true, false, [], Some(song.(category := Some("AB"))));
    [LibXml.Initial, s1, s2, s3, s3, s2.(characterBuffer := encode("AB")), s6,
     s6.(currentSong := Some(song.(category := Some("AB"), title := Some(""))))]
  }

  lemma LibNestedSteps(encode: string -> seq<Byte>, decode: Utf8Decoder, parseDate: DateParser)
    requires encode("A") + encode("B") == encode("AB")
    requires decode(encode("AB")) == Some("AB") && decode([]) == Some("")
    ensures var st, ev := LibNestedStates(encode), NestedSax(encode);
      && (forall k :: 0 <= k < 7 ==>
            LibXml.StepDecodes(st[k], ev[k], decode) && LibXml.Step(st[k], ev[k], decode, parseDate) == (st[k + 1], []))
      && LibXml.StepDecodes(st[7], ev[7], decode)
  {
    var st, ev := LibNestedStates(encode), NestedSax(encode);
    forall k | 0 <= k < 7
      ensures LibXml.StepDecodes(st[k], ev[k], decode) && LibXml.Step(st[k], ev[k], decode, parseDate) == (st[k + 1], [])
    {
      if k == 2 {
        assert [] + encode("A") == encode("A");
      }
    }
  }

  /** A run whose every step but the last emits nothing, through the given
      states, emits what its last step emits. */
  lemma {:induction false} LibQuietRun(st: seq<LibXml.ParserState>, ev: seq<LibXml.SaxEvent>, k: nat, out: seq<Song>,
                                       decode: Utf8Decoder, parseDate: DateParser)
    requires |st| == |ev| && k < |ev|
    requires forall j :: 0 <= j < |ev| - 1 ==>
               LibXml.StepDecodes(st[j], ev[j], decode) && LibXml.Step(st[j], ev[j], decode, parseDate) == (st[j + 1], [])
    requires LibXml.StepDecodes(st[|ev| - 1], ev[|ev| - 1], decode)
    requires LibXml.Step(st[|ev| - 1], ev[|ev| - 1], decode, parseDate).1 == out
    ensures LibXml.RunDecodes(st[k], ev[k..], decode, parseDate)
    ensures LibXml.RunDecodes(st[k], ev[k..], decode, parseDate) ==> LibXml.Run(st[k], ev[k..], decode, parseDate).1 == out
    decreases |ev| - k
  {
    assert ev[k..] == [ev[k]] + ev[k + 1..];
    LibXml.RunCons(st[k], ev[k], ev[k + 1..], decode, parseDate);
    if k == |ev| - 1 {
      assert ev[k + 1..] == [];
      assert out + [] == out;
    } else {
      LibQuietRun(st, ev, k + 1, out, decode, parseDate);
      var none: seq<Song> := [];
      assert none + out == out;
    }
  }

  /** The k-th SAX event of a feed is the image of its k-th token. */
  lemma {:induction false} ToSaxAt(tokens: seq<Token>, encode: string -> seq<Byte>, k: nat)
    requires k < |tokens|
    ensures ToSax(tokens, encode)[k] == SaxOf(tokens[k], encode)
    decreases k
  {
    if k > 0 {
      ToSaxAt(tokens[1..], encode, k - 1);
    }
  }

  /** The k-th delegate call of a feed is the image of its k-th token. */
  lemma {:induction false} ToDelegateAt(tokens: seq<Token>, k: nat)
    requires k < |tokens|
    ensures ToDelegate(tokens)[k] == DelegateOf(tokens[k])
    decreases k
  {
    if k > 0 {
      ToDelegateAt(tokens[1..], k - 1);
    }
  }



  /** The delegate calls for `NestedFields`. */
  const NestedDelegate: seq<CocoaXml.DelegateEvent> := [
    CocoaXml.DidStartElement("item"), CocoaXml.DidStartElement("title"), CocoaXml.FoundCharacters("A"),
    CocoaXml.DidStartElement("category"), CocoaXml.FoundCharacters("B"), CocoaXml.DidEndElement("category"),
    CocoaXml.DidEndElement("title"), CocoaXml.DidEndElement("item")]

  lemma NestedDelegateIsImage()
    ensures ToDelegate(NestedFields) == NestedDelegate
  {
    var ev := ToDelegate(NestedFields);
    forall k | 0 <= k < |ev| ensures ev[k] == NestedDelegate[k] {
      ToDelegateAt(NestedFields, k);
    }
  }

  lemma CocoaNested(parseDate: DateParser)
    ensures CocoaXml.Run(CocoaXml.Initial, ToDelegate(NestedFields), parseDate).1
            == [NewSong().(title := Some("B"), category := Some("B"))]
  {
    NestedDelegateIsImage();
    var ev := NestedDelegate;
    var song := NewSong();
    var withCategory := song.(category := Some("B"));
    var done := withCategory.(title := Some("B"));
    var s0 := CocoaXml.Initial;
    var s1 := s0.(currentSong := Some(song));
    var s2 := s1.(storingCharacters := true);
    var s6 := CocoaXml.ParserState("B", Some(withCategory), false);
    var st := [s0, s1, s2, s2.(currentString := "A"), s2, s2.(currentString := "B"), s6,
               s6.(currentSong := Some(done))];
    assert "" + "A" == "A" && "" + "B" == "B";
    forall k | 0 <= k < |ev| - 1
      ensures CocoaXml.Step(st[k], ev[k], parseDate) == (st[k + 1], [])
    {
    }
    assert CocoaXml.Step(st[7], ev[7], parseDate).1 == [done];
    CocoaQuietRun(st, ev, 0, [done], parseDate);
    assert ev[0..] == ev;
  }

  /** A run of delegate calls whose every call but the last emits nothing,
      through the given states, emits what its last call emits. */
  lemma {:induction false} CocoaQuietRun(st: seq<CocoaXml.ParserState>, ev: seq<CocoaXml.DelegateEvent>, k: nat,
                                         out: seq<Song>, parseDate: DateParser)
    requires |st| == |ev| && k < |ev|
    requires forall j :: 0 <= j < |ev| - 1 ==> CocoaXml.Step(st[j], ev[j], parseDate) == (st[j + 1], [])
    requires CocoaXml.Step(st[|ev| - 1], ev[|ev| - 1], parseDate).1 == out
    ensures CocoaXml.Run(st[k], ev[k..], parseDate).1 == out
    decreases |ev| - k
  {
    assert ev[k..] == [ev[k]] + ev[k + 1..];
    CocoaXml.RunCons(st[k], ev[k], ev[k + 1..], parseDate);
    if k == |ev| - 1 {
      assert ev[k + 1..] == [];
      assert out + [] == out;
    } else {
      CocoaQuietRun(st, ev, k + 1, out, parseDate);
      var none: seq<Song> := [];
      assert none + out == out;
    }
  }
}
