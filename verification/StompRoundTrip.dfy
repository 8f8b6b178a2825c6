/** What a reader of STOMP frames gets back from what the client wrote. */
module StompRoundTrip {
  import opened Text
  import opened Utf8
  import opened StompFrame

  // Frames the wire format can carry

  predicate CommandOk(command: Str) {
    command != [] && LF !in command && NUL !in command
  }

  predicate HeaderOk(h: Header) {
    && COLON !in h.name && LF !in h.name && NUL !in h.name && LF !in h.value && NUL !in h.value
    && Trim(h.name) == h.name && Trim(h.value) == h.value
    && h.name != PROTO
  }

  predicate SyntaxOk(f: OutFrame) {
    && CommandOk(f.command)
    && (forall i :: 0 <= i < |f.headers| ==> HeaderOk(f.headers[i]))
    && WellFormed(f.body)
  }

  /** A content-length the caller supplies is empty, or covers the units of the body. */
  predicate LengthOk(f: OutFrame) {
    forall i :: 0 <= i < |f.headers| && f.headers[i].name == CONTENT_LENGTH ==>
      || f.headers[i].value == []
      || (ParseInt(f.headers[i].value).Some? && ParseInt(f.headers[i].value).value >= |f.body|)
  }

  predicate FrameOk(f: OutFrame) {
    SyntaxOk(f) && LengthOk(f) && NUL !in f.body
  }

  function Size(f: OutFrame): nat
    requires WellFormed(f.body)
  {
    |Encode(f.body)|
  }

  /** The frame as its reader should see it: the added content-length included. */
  function Canon(f: OutFrame): Frame
    requires WellFormed(f.body)
  {
    Frame(f.command, FirstValues(SentHeaders(f, Size(f))), f.body)
  }

  // Header maps (STOMP 1.2, "Repeated Header Entries")

  /** The map made by the backward loop holds, for each name, the first value of the list. */
  lemma {:induction false} FirstValueWins(hs: seq<Header>, name: Str)
    requires name != PROTO
    ensures name in FirstValues(hs) <==> exists i :: 0 <= i < |hs| && hs[i].name == name
    ensures name in FirstValues(hs) ==>
              exists i :: && 0 <= i < |hs| && hs[i] == Header(name, FirstValues(hs)[name])
                          && forall k :: 0 <= k < i ==> hs[k].name != name
  {
    if hs != [] {
      FirstValueWins(hs[1..], name);
      assert hs == [hs[0]] + hs[1..];
      assert forall i :: 0 < i < |hs| ==> hs[i] == hs[1..][i - 1];
      if hs[0].name == name {
        assert hs[0] == Header(name, FirstValues(hs)[name]);
      } else if name in FirstValues(hs) {
        var i :| && 0 <= i < |hs[1..]| && hs[1..][i] == Header(name, FirstValues(hs[1..])[name])
                 && forall k :: 0 <= k < i ==> hs[1..][k].name != name;
        assert hs[i + 1] == Header(name, FirstValues(hs)[name]);
      } else {
        assert forall i :: 0 <= i < |hs[1..]| ==> hs[1..][i].name != name;
      }
    }
  }

  // Lines

  ghost predicate IsLine(line: Str) {
    line != [] && LF !in line
  }

  lemma {:induction false} SplitJoined(lines: seq<Str>)
    requires lines != [] && forall i :: 0 <= i < |lines| ==> IsLine(lines[i])
    ensures SplitLines(Join(lines, LF)) == lines
  {
    var t := Join(lines, LF);
    if |lines| > 1 {
      var rest := Join(lines[1..], LF);
      IndexOfFirst(lines[0], LF, rest);
      assert t[..|lines[0]|] == lines[0] && t[|lines[0]| + 1..] == rest;
      SplitJoined(lines[1..]);
    }
  }

  /** A text that neither is empty nor ends with LF nor holds two LFs in a row. */
  ghost predicate IsHead(t: Str) {
    && t != [] && t[|t| - 1] != LF
    && forall k :: 0 <= k < |t| - 1 ==> !(t[k] == LF && t[k + 1] == LF)
  }

  lemma {:induction false} JoinedShape(lines: seq<Str>)
    requires lines != [] && forall i :: 0 <= i < |lines| ==> IsLine(lines[i])
    ensures IsHead(Join(lines, LF)) && lines[0] != [] && Join(lines, LF)[0] == lines[0][0]
  {
    assert IsLine(lines[0]);
    if |lines| > 1 {
      JoinedShape(lines[1..]);
      var n, t, rest := |lines[0]|, Join(lines, LF), Join(lines[1..], LF);
      assert t == lines[0] + [LF] + rest;
      assert rest[0] == lines[1][0] && IsLine(lines[1]);
      assert forall k :: 0 <= k < n ==> t[k] == lines[0][k] && t[k] != LF;
      assert forall k :: n < k < |t| ==> t[k] == rest[k - n - 1];
    }
  }

  lemma {:induction false} JoinedHolds(lines: seq<Str>, c: Unit)
    requires c != LF && forall i :: 0 <= i < |lines| ==> c !in lines[i]
    ensures c !in Join(lines, LF)
  {
    if |lines| > 1 {
      JoinedHolds(lines[1..], c);
    }
  }

  lemma DividerAfterHead(head: Str, body: Str)
    requires IsHead(head)
    ensures FindDivider(head + [LF, LF] + body) == |head|
  {
    var data := head + [LF, LF] + body;
    assert data[|head|] == LF && data[|head| + 1] == LF;
    assert forall k :: 0 <= k < |head| ==> data[k] == head[k];
    assert forall k :: 0 <= k < |head| ==> !(data[k] == LF && data[k + 1] == LF);
  }

  // Headers

  lemma TrimKeeps(s: Str)
    requires s != [] ==> !IsSpace(s[0]) && !IsSpace(s[|s| - 1])
    ensures TrimLeft(s) == s && Trim(s) == s
  {
  }

  lemma LengthHeaderOk(size: nat)
    ensures HeaderOk(Header(CONTENT_LENGTH, Decimal(size)))
  {
    var d := Decimal(size);
    TrimKeeps(CONTENT_LENGTH);
    assert d[0] in d && d[|d| - 1] in d;
    TrimKeeps(d);
  }

  lemma ParsedHeader(h: Header)
    requires HeaderOk(h)
    ensures ParseHeader(HeaderLine(h)) == h
  {
    var line := HeaderLine(h);
    IndexOfFirst(h.name, COLON, h.value);
    assert line[..|h.name|] == h.name && line[|h.name| + 1..] == h.value;
  }

  lemma ParsedFirst(line: Str, rest: seq<Str>)
    ensures ParseHeaderLines([line] + rest) == [ParseHeader(line)] + ParseHeaderLines(rest)
  {
    assert ([line] + rest)[1..] == rest;
  }

  lemma {:induction false} ParsedHeaders(hs: seq<Header>)
    requires forall i :: 0 <= i < |hs| ==> HeaderOk(hs[i])
    ensures ParseHeaderLines(HeaderLines(hs)) == hs
  {
    if hs != [] {
      ParsedHeader(hs[0]);
      ParsedHeaders(hs[1..]);
      ParsedFirst(HeaderLine(hs[0]), HeaderLines(hs[1..]));
      assert hs == [hs[0]] + hs[1..];
    }
  }

  lemma HeaderLinesOk(hs: seq<Header>)
    requires forall i :: 0 <= i < |hs| ==> HeaderOk(hs[i])
    ensures forall i :: 0 <= i < |hs| ==> IsLine(HeaderLines(hs)[i]) && NUL !in HeaderLines(hs)[i]
  {
    forall i | 0 <= i < |hs| ensures IsLine(HeaderLines(hs)[i]) && NUL !in HeaderLines(hs)[i] {
      HeaderLineOk(hs[i]);
    }
  }

  lemma HeaderLineOk(h: Header)
    requires HeaderOk(h)
    ensures IsLine(HeaderLine(h)) && NUL !in HeaderLine(h)
  {
  }

  lemma SentHeadersOk(f: OutFrame, size: nat)
    requires SyntaxOk(f)
    ensures forall i :: 0 <= i < |SentHeaders(f, size)| ==> HeaderOk(SentHeaders(f, size)[i])
  {
    LengthHeaderOk(size);
  }

  // One frame

  function FrameLines(f: OutFrame, size: nat): seq<Str> {
    [f.command] + HeaderLines(SentHeaders(f, size))
  }

  lemma FrameLinesOk(f: OutFrame, size: nat)
    requires SyntaxOk(f)
    ensures forall i :: 0 <= i < |FrameLines(f, size)| ==>
              IsLine(FrameLines(f, size)[i]) && NUL !in FrameLines(f, size)[i]
  {
    SentHeadersOk(f, size);
    HeaderLinesOk(SentHeaders(f, size));
  }

  lemma HeadShape(f: OutFrame, size: nat)
    requires SyntaxOk(f)
    ensures IsHead(Head(f, size)) && Head(f, size)[0] == f.command[0]
    ensures NUL !in Head(f, size)
    ensures SplitLines(Head(f, size)) == FrameLines(f, size)
  {
    FrameLinesOk(f, size);
    JoinedShape(FrameLines(f, size));
    JoinedHolds(FrameLines(f, size), NUL);
    SplitJoined(FrameLines(f, size));
  }

  /** Where the text of a frame is cut, and what is read before the body. */
  lemma ParsedHead(f: OutFrame, size: nat)
    requires SyntaxOk(f)
    ensures var data, start := FrameText(f, size), |Head(f, size)| + 2;
            && data != [] && data[0] == f.command[0] && start <= |data| && data[start..] == f.body
            && ParseFrame(data) == Frame(f.command, FirstValues(SentHeaders(f, size)),
                                         ParseBody(data, start, FirstValues(SentHeaders(f, size))))
  {
    var hs, head, data := SentHeaders(f, size), Head(f, size), FrameText(f, size);
    HeadShape(f, size);
    DividerAfterHead(head, f.body);
    assert data[..|head|] == head && data[|head| + 2..] == f.body;
    SentHeadersOk(f, size);
    ParsedHeaders(hs);
    var lines := SplitLines(Substring(data, 0, FindDivider(data)));
    assert lines[1..] == HeaderLines(hs);
  }

  lemma NoNulInText(f: OutFrame, size: nat)
    requires SyntaxOk(f) && NUL !in f.body
    ensures NUL !in FrameText(f, size)
  {
    HeadShape(f, size);
  }

  lemma {:induction false} DigitPrefixAll(s: Str)
    requires forall i :: 0 <= i < |s| ==> IsDigit(s[i])
    ensures DigitPrefix(s, 10) == s
  {
    if s != [] {
      DigitPrefixAll(s[1..]);
    }
  }

  lemma ParseIntDecimal(n: nat)
    ensures ParseInt(Decimal(n)) == Some(n)
  {
    var d := Decimal(n);
    assert forall i :: 0 <= i < |d| ==> d[i] in d;
    NumeralValue(n, 10);
    ParseDigits(d);
  }

  lemma MagnitudeOfDigits(d: Str)
    requires d != [] && forall i :: 0 <= i < |d| ==> IsDigit(d[i])
    ensures Magnitude(d) == Some(Value(d, 10))
  {
    DigitPrefixAll(d);
  }

  lemma ParseDigits(d: Str)
    requires d != [] && forall i :: 0 <= i < |d| ==> IsDigit(d[i])
    ensures ParseInt(d) == Some(Value(d, 10))
  {
    TrimKeeps(d);
    MagnitudeOfDigits(d);
  }

  /** The content-length that a reader finds is empty, or at least the units of the body. */
  lemma LengthCoversBody(f: OutFrame)
    requires FrameOk(f)
    ensures var headers := FirstValues(SentHeaders(f, Size(f)));
            CONTENT_LENGTH in headers && headers[CONTENT_LENGTH] != [] ==>
              var len := ParseInt(headers[CONTENT_LENGTH]);
              len.Some? && len.value >= |f.body|
  {
    var hs := SentHeaders(f, Size(f));
    var headers := FirstValues(hs);
    if CONTENT_LENGTH in headers && headers[CONTENT_LENGTH] != [] {
      FirstValueWins(hs, CONTENT_LENGTH);
      var i :| 0 <= i < |hs| && hs[i] == Header(CONTENT_LENGTH, headers[CONTENT_LENGTH]);
      if i < |f.headers| {
        assert hs[i] == f.headers[i];
      } else {
        ParseIntDecimal(Size(f));
        OctetsCoverUnits(f.body);
      }
    }
  }

  lemma ToTheEnd(data: Str, start: nat, len: int)
    requires start <= |data|
    ensures NUL !in data[start..] ==> UpToNul(data, start) == data[start..]
    ensures len >= |data| - start ==> Substring(data, start, start + len) == data[start..]
  {
  }

  /** The content-length branch and the scan to NUL read the same body. */
  lemma BodyBranchesAgree(f: OutFrame, data: Str, start: nat)
    requires FrameOk(f)
    requires start <= |data| && data[start..] == f.body
    ensures ParseBody(data, start, FirstValues(SentHeaders(f, Size(f)))) == f.body == UpToNul(data, start)
  {
    LengthCoversBody(f);
    var headers := FirstValues(SentHeaders(f, Size(f)));
    var len := if CONTENT_LENGTH in headers then ParseInt(headers[CONTENT_LENGTH]) else None;
    ToTheEnd(data, start, if len.Some? then len.value else 0);
  }

  lemma MarshalOk(f: OutFrame)
    requires WellFormed(f.body)
    ensures Marshal(f) == Some(FrameText(f, Size(f)) + [NUL])
  {
    SizeIsOctetCount(f.body);
  }

  // A stream of frames and heart-beats

  datatype Item = Sent(frame: OutFrame) | Ping

  function ItemText(item: Item): Str
    requires item.Sent? ==> WellFormed(item.frame.body)
  {
    match item
    case Sent(f) => FrameText(f, Size(f)) + [NUL]
    case Ping => [LF]
  }

  predicate ItemsOk(items: seq<Item>) {
    forall i :: 0 <= i < |items| && items[i].Sent? ==> FrameOk(items[i].frame)
  }

  function StreamText(items: seq<Item>): Str
    requires ItemsOk(items)
  {
    if items == [] then [] else ItemText(items[0]) + StreamText(items[1..])
  }

  function Expected(items: seq<Item>): seq<Frame>
    requires ItemsOk(items)
  {
    if items == [] then []
    else if items[0].Sent? then [Canon(items[0].frame)] + Expected(items[1..])
    else Expected(items[1..])
  }

  function DropPings(items: seq<Item>): (r: seq<Item>)
    ensures |r| <= |items|
    ensures r != [] ==> r[0].Sent?
    ensures ItemsOk(items) ==> ItemsOk(r)
  {
    if items != [] && items[0].Ping? then DropPings(items[1..]) else items
  }

  lemma {:induction false} SkippedPings(items: seq<Item>)
    requires ItemsOk(items)
    ensures SkipLineFeeds(StreamText(items)) == StreamText(DropPings(items))
    ensures Expected(DropPings(items)) == Expected(items)
  {
    if items != [] {
      var rest := StreamText(items[1..]);
      if items[0].Ping? {
        SkippedPings(items[1..]);
        assert ([LF] + rest)[1..] == rest;
      } else {
        var f := items[0].frame;
        ParsedHead(f, Size(f));
        assert StreamText(items)[0] == f.command[0];
      }
    }
  }

  /** The text of one frame reads as the frame. */
  lemma FrameReads(f: OutFrame)
    requires FrameOk(f)
    ensures FrameText(f, Size(f)) != [] && ParseFrame(FrameText(f, Size(f))) == Canon(f)
  {
    ParsedHead(f, Size(f));
    BodyBranchesAgree(f, FrameText(f, Size(f)), |Head(f, Size(f))| + 2);
  }

  lemma SplitFirst(text: Str, rest: Str)
    requires NUL !in text
    ensures SplitFrames(text + [NUL] + rest) == [text] + SplitFrames(SkipLineFeeds(rest))
  {
    var t := text + [NUL] + rest;
    IndexOfFirst(text, NUL, rest);
    assert t[..|text|] == text && t[|text| + 1..] == rest;
  }

  lemma {:induction false} RoundTripFrom(items: seq<Item>)
    requires ItemsOk(items)
    requires items != [] ==> items[0].Sent?
    ensures Unmarshal(StreamText(items)) == Expected(items)
    decreases |items|
  {
    if items == [] {
      var end: seq<Str> := [[]];
      assert SplitFrames([]) == end;
      assert end[1..] == [];
    } else {
      var f := items[0].frame;
      var text, rest := FrameText(f, Size(f)), StreamText(items[1..]);
      FrameReads(f);
      NoNulInText(f, Size(f));
      MarshalOk(f);
      SplitFirst(text, rest);
      SkippedPings(items[1..]);
      RoundTripFrom(DropPings(items[1..]));
      var more := SplitFrames(StreamText(DropPings(items[1..])));
      First([text], more);
    }
  }

  /** A text that starts with LF reads as a first frame without a command. */
  lemma LeadingLineFeed(t: Str)
    requires t != [] && t[0] == LF
    ensures Unmarshal(t) != [] && Unmarshal(t)[0].command == []
  {
    var i := IndexOf(t, NUL);
    var data := if i == -1 then t else t[..i];
    assert data != [] && data[0] == LF;
    LineFeedFirst(data);
    assert SplitFrames(t)[0] == data;
  }

  lemma LineFeedFirst(data: Str)
    requires data != [] && data[0] == LF
    ensures ParseFrame(data).command == []
  {
    var head := Substring(data, 0, FindDivider(data));
    assert head == [] || head[0] == LF;
    assert IndexOf(head, LF) == if head == [] then -1 else 0;
    assert SplitLines(head)[0] == [];
  }

  /** `unmarshall` returns exactly the frames that were written, in order, if and only if
      no heart-beat comes before the first of them. */
  lemma StreamRoundTrip(items: seq<Item>)
    requires ItemsOk(items)
    ensures Unmarshal(StreamText(items)) == Expected(items) <==> (items == [] || items[0].Sent?)
  {
    if items == [] || items[0].Sent? {
      RoundTripFrom(items);
    } else {
      LeadingLineFeed(StreamText(items));
      ExpectedHaveCommands(items);
    }
  }

  lemma {:induction false} ExpectedHaveCommands(items: seq<Item>)
    requires ItemsOk(items)
    ensures forall i :: 0 <= i < |Expected(items)| ==> Expected(items)[i].command != []
  {
    if items != [] {
      ExpectedHaveCommands(items[1..]);
    }
  }

  // What a frame must satisfy

  lemma ParsedBodyUnits(data: Str, c: Unit)
    requires data != [] && c !in data
    ensures c !in ParseFrame(data).body
  {
    var divider := FindDivider(data);
    var lines := SplitLines(Substring(data, 0, divider));
    BodyUnits(data, divider + 2, FirstValues(ParseHeaderLines(lines[1..])), c);
  }

  lemma BodyUnits(data: Str, start: nat, headers: map<Str, Str>, c: Unit)
    requires start <= |data| && c !in data
    ensures c !in ParseBody(data, start, headers)
  {
  }

  /** Among frames with a sound head and no content-length from the caller, exactly those
      without NUL in the body survive the trip. */
  lemma SurvivesIffNoNul(f: OutFrame)
    requires SyntaxOk(f) && forall i :: 0 <= i < |f.headers| ==> f.headers[i].name != CONTENT_LENGTH
    ensures Marshal(f).Some?
    ensures Unmarshal(Marshal(f).value) == [Canon(f)] <==> NUL !in f.body
  {
    MarshalOk(f);
    var t := Marshal(f).value;
    if NUL !in f.body {
      RoundTripFrom([Sent(f)]);
      assert [Sent(f)][1..] == [];
      assert StreamText([Sent(f)]) == t;
      assert Expected([Sent(f)]) == [Canon(f)];
    } else {
      ParsedHead(f, Size(f));
      var i := IndexOf(t, NUL);
      assert t[0] == f.command[0] != NUL;
      assert i > 0;
      ParsedBodyUnits(t[..i], NUL);
      assert Unmarshal(t)[0] == ParseFrame(t[..i]);
    }
  }

  /** What a reader takes for the body when the length it finds parses to `len`: that many
      units of it; for a negative length the last units before it, and for one that is not a
      number all that comes before it. */
  function BodyOfLength(prefix: Str, body: Str, len: Option<int>): Str {
    match len
    case None => prefix
    case Some(n) => if n >= 0 then body[..Clamp(n, |body|)] else prefix[Clamp(|prefix| + n, |prefix|)..]
  }

  /** A content-length from the caller is not replaced: it decides what is read as the body. */
  lemma CallerLengthTruncates(f: OutFrame)
    requires SyntaxOk(f) && NUL !in f.body
    requires CONTENT_LENGTH in FirstValues(f.headers) && FirstValues(f.headers)[CONTENT_LENGTH] != []
    ensures Marshal(f).Some?
    ensures var read := Unmarshal(Marshal(f).value);
            && |read| == 1
            && read[0].body == BodyOfLength(Head(f, Size(f)) + [LF, LF], f.body,
                                            ParseInt(FirstValues(f.headers)[CONTENT_LENGTH]))
  {
    MarshalOk(f);
    var size := Size(f);
    var prefix := Head(f, size) + [LF, LF];
    ParsedHead(f, size);
    FirstValuesPrefix(f.headers, if f.body == [] then [] else [Header(CONTENT_LENGTH, Decimal(size))]);
    NoNulInText(f, size);
    UnmarshalOne(FrameText(f, size));
    Cut(prefix, f.body, ParseInt(FirstValues(f.headers)[CONTENT_LENGTH]));
  }

  lemma Cut(prefix: Str, body: Str, len: Option<int>)
    ensures var data, start := prefix + body, |prefix|;
            BodyOfLength(prefix, body, len) == Substring(data, start, if len.Some? then start + len.value else 0)
  {
    var data, start := prefix + body, |prefix|;
    assert data[..start] == prefix && data[start..] == body;
  }

  lemma UnmarshalOne(text: Str)
    requires text != [] && NUL !in text
    ensures Unmarshal(text + [NUL]) == [ParseFrame(text)]
  {
    var t := text + [NUL] + [];
    IndexOfFirst(text, NUL, []);
    assert t == text + [NUL];
    assert t[..|text|] == text && t[|text| + 1..] == [];
    var end: seq<Str> := [[]];
    assert SplitFrames([]) == end;
    assert SplitFrames(t) == [text] + end;
    assert end[1..] == [] && ([text] + end)[1..] == end;
    assert ParsePieces(end) == ParsePieces(end[1..]);
  }

  lemma {:induction false} FirstValuesPrefix(a: seq<Header>, b: seq<Header>)
    ensures CONTENT_LENGTH in FirstValues(a) ==>
              && CONTENT_LENGTH in FirstValues(a + b)
              && FirstValues(a + b)[CONTENT_LENGTH] == FirstValues(a)[CONTENT_LENGTH]
  {
    if a != [] {
      FirstValuesPrefix(a[1..], b);
      assert (a + b)[1..] == a[1..] + b;
    }
  }
}
