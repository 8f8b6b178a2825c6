/** STOMP frames on the wire: `Frame.toString`, `marshall`, `unmarshallSingle` and
    `unmarshall` of the STOMP client. */
module StompFrame {
  import opened Text
  import opened Utf8

  datatype Header = Header(name: Str, value: Str)

  /** A frame about to be sent. The headers are in the order a `for in` visits them. */
  datatype OutFrame = OutFrame(command: Str, headers: seq<Header>, body: Str)

  /** A frame that was read. */
  datatype Frame = Frame(command: Str, headers: map<Str, Str>, body: Str)

  // "content-length"
  const CONTENT_LENGTH: Str := [0x63, 0x6F, 0x6E, 0x74, 0x65, 0x6E, 0x74, 0x2D, 0x6C, 0x65, 0x6E, 0x67, 0x74, 0x68]

  // "__proto__": assigning a string to this property of a plain object does nothing
  const PROTO: Str := [0x5F, 0x5F, 0x70, 0x72, 0x6F, 0x74, 0x6F, 0x5F, 0x5F]

  // Writing

  function HeaderLine(h: Header): Str {
    h.name + [COLON] + h.value
  }

  function HeaderLines(hs: seq<Header>): (lines: seq<Str>)
    ensures |lines| == |hs|
    ensures forall i :: 0 <= i < |hs| ==> lines[i] == HeaderLine(hs[i])
  {
    if hs == [] then [] else [HeaderLine(hs[0])] + HeaderLines(hs[1..])
  }

  /** The headers that go out: the caller's, then the octet count of a non-empty body. */
  function SentHeaders(f: OutFrame, size: nat): seq<Header> {
    f.headers + if f.body == [] then [] else [Header(CONTENT_LENGTH, Decimal(size))]
  }

  /** Command and header lines, without the empty line that ends them. */
  function Head(f: OutFrame, size: nat): Str {
    Join([f.command] + HeaderLines(SentHeaders(f, size)), LF)
  }

  /** The frame up to its NUL. */
  function FrameText(f: OutFrame, size: nat): Str {
    Head(f, size) + [LF, LF] + f.body
  }

  /** `Frame.marshall`; None is the URIError of a body with a lone surrogate. */
  function Marshal(f: OutFrame): Option<Str> {
    match SizeOfUTF8(f.body)
    case None => None
    case Some(size) => Some(FrameText(f, size) + [NUL])
  }

  lemma SentLines(f: OutFrame, size: nat)
    ensures HeaderLines(SentHeaders(f, size))
         == HeaderLines(f.headers) + if f.body == [] then [] else [CONTENT_LENGTH + [COLON] + Decimal(size)]
  {
  }

  lemma Gap(head: Str, body: Str)
    ensures head + [LF] + ([LF] + body) == head + [LF, LF] + body
  {
  }

  method MarshalFrame(f: OutFrame) returns (out: Option<Str>)
    ensures out == Marshal(f)
  {
    var lines := [f.command];
    for i := 0 to |f.headers|
      invariant lines == [f.command] + HeaderLines(f.headers[..i])
    {
      lines := lines + [f.headers[i].name + [COLON] + f.headers[i].value];
      assert f.headers[..i + 1] == f.headers[..i] + [f.headers[i]];
    }
    assert f.headers[..|f.headers|] == f.headers;
    var size := 0;
    if f.body != [] {
      var octets := SizeOfUTF8(f.body);
      if octets.None? {
        return None;
      }
      size := octets.value;
      lines := lines + [CONTENT_LENGTH + [COLON] + Decimal(size)];
    }
    SentLines(f, size);
    assert lines == [f.command] + HeaderLines(SentHeaders(f, size));
    JoinSnoc(lines, [LF] + f.body, LF);
    Gap(Join(lines, LF), f.body);
    lines := lines + [[LF] + f.body];
    out := Some(Join(lines, LF) + [NUL]);
  }

  lemma {:induction false} JoinSnoc(parts: seq<Str>, last: Str, sep: Unit)
    requires parts != []
    ensures Join(parts + [last], sep) == Join(parts, sep) + [sep] + last
  {
    if |parts| == 1 {
      assert (parts + [last])[1..] == [last];
    } else {
      JoinSnoc(parts[1..], last, sep);
      assert (parts + [last])[1..] == parts[1..] + [last];
    }
  }

  // Reading: the built-ins

  /** `data.search(/\n\n/)` */
  function FindDivider(data: Str): (i: int)
    ensures -1 <= i < |data|
    ensures i >= 0 ==> i + 1 < |data| && data[i] == LF && data[i + 1] == LF
    ensures forall k :: 0 <= k < (if i == -1 then |data| - 1 else i) ==> !(data[k] == LF && data[k + 1] == LF)
  {
    if |data| < 2 then -1
    else if data[0] == LF && data[1] == LF then 0
    else
      var rest := FindDivider(data[1..]);
      assert forall k :: 1 <= k < |data| ==> data[k] == data[1..][k - 1];
      if rest == -1 then -1 else rest + 1
  }

  /** `t.split('\n')` */
  function SplitLines(t: Str): (lines: seq<Str>)
    ensures |lines| > 0
  {
    var i := IndexOf(t, LF);
    if i == -1 then [t] else [t[..i]] + SplitLines(t[i + 1..])
  }

  function TrimLeft(s: Str): (r: Str)
    ensures |r| <= |s|
  {
    if s != [] && IsSpace(s[0]) then TrimLeft(s[1..]) else s
  }

  function TrimRight(s: Str): (r: Str)
    ensures |r| <= |s|
  {
    if s != [] && IsSpace(s[|s| - 1]) then TrimRight(s[..|s| - 1]) else s
  }

  function Trim(s: Str): Str {
    TrimRight(TrimLeft(s))
  }

  function DigitPrefix(s: Str, base: nat): (r: Str)
    ensures forall c :: c in r ==> IsHexDigit(c)
  {
    if s != [] && IsHexDigit(s[0]) && HexValue(s[0]) < base then [s[0]] + DigitPrefix(s[1..], base) else []
  }

  /** The number at the start of a text without a sign, hexadecimal after `0x`. */
  function Magnitude(u: Str): Option<int> {
    var isHex := |u| >= 2 && u[0] == DIGIT0 && (u[1] == LOWER_X || u[1] == 0x58);
    var base := if isHex then 16 else 10;
    var digits := DigitPrefix(if isHex then u[2..] else u, base);
    if digits == [] then None else Some(Value(digits, base))
  }

  /** `parseInt(s)`; None is NaN. */
  function ParseInt(s: Str): Option<int> {
    var t := TrimLeft(s);
    var negative := t != [] && t[0] == MINUS;
    var u := if t != [] && (t[0] == MINUS || t[0] == PLUS) then t[1..] else t;
    match Magnitude(u)
    case None => None
    case Some(n) => Some(if negative then -n else n)
  }

  // Reading: one frame

  /** `headers[name] = value` on a plain object. */
  function Assign(headers: map<Str, Str>, h: Header): map<Str, Str> {
    if h.name == PROTO then headers else headers[h.name := h.value]
  }

  /** A header line cut at its first colon; without one, the name is empty. */
  function ParseHeader(line: Str): Header {
    var idx := IndexOf(line, COLON);
    Header(Trim(Substring(line, 0, idx)), Trim(line[idx + 1..]))
  }

  function ParseHeaderLines(lines: seq<Str>): (hs: seq<Header>)
    ensures |hs| == |lines|
    ensures forall i :: 0 <= i < |lines| ==> hs[i] == ParseHeader(lines[i])
  {
    if lines == [] then [] else [ParseHeader(lines[0])] + ParseHeaderLines(lines[1..])
  }

  /** Every name with the first value it is given in the list. */
  function FirstValues(hs: seq<Header>): map<Str, Str> {
    if hs == [] then map[] else Assign(FirstValues(hs[1..]), hs[0])
  }

  /** The units from `start` up to the first NUL. */
  function UpToNul(data: Str, start: nat): Str
    requires start <= |data|
  {
    var rest := data[start..];
    var i := IndexOf(rest, NUL);
    if i == -1 then rest else rest[..i]
  }

  /** The body by content-length when that header is there and not empty, else up to NUL. */
  function ParseBody(data: Str, start: nat, headers: map<Str, Str>): Str
    requires start <= |data|
  {
    if CONTENT_LENGTH in headers && headers[CONTENT_LENGTH] != [] then
      match ParseInt(headers[CONTENT_LENGTH])
      case Some(len) => Substring(data, start, start + len)
      case None => Substring(data, start, 0)
    else UpToNul(data, start)
  }

  /** `unmarshallSingle` */
  function ParseFrame(data: Str): Frame
    requires data != []
  {
    var divider := FindDivider(data);
    var lines := SplitLines(Substring(data, 0, divider));
    var headers := FirstValues(ParseHeaderLines(lines[1..]));
    Frame(lines[0], headers, ParseBody(data, divider + 2, headers))
  }

  /** The header loop: the lines are walked backwards, so the first one wins. */
  method CollectHeaders(headerLines: seq<Str>) returns (headers: map<Str, Str>)
    ensures headers == FirstValues(ParseHeaderLines(headerLines))
  {
    headers := map[];
    var i := |headerLines|;
    while i > 0
      invariant 0 <= i <= |headerLines|
      invariant headers == FirstValues(ParseHeaderLines(headerLines[i..]))
    {
      i := i - 1;
      assert headerLines[i..] == [headerLines[i]] + headerLines[i + 1..];
      headers := Assign(headers, ParseHeader(headerLines[i]));
    }
    assert headerLines[0..] == headerLines;
  }

  /** The body loop without a content-length. */
  method ScanBody(data: Str, start: nat) returns (body: Str)
    requires start <= |data|
    ensures body == UpToNul(data, start)
  {
    body := [];
    var i := start;
    while i < |data| && data[i] != NUL
      invariant start <= i <= |data|
      invariant body == data[start..i] && NUL !in body
    {
      body := body + [data[i]];
      i := i + 1;
    }
    ScannedUpToNul(data, start, i);
  }

  method ReadBody(data: Str, start: nat, headers: map<Str, Str>) returns (body: Str)
    requires start <= |data|
    ensures body == ParseBody(data, start, headers)
  {
    if CONTENT_LENGTH in headers && headers[CONTENT_LENGTH] != [] {
      var len := ParseInt(headers[CONTENT_LENGTH]);
      body := if len.Some? then Substring(data, start, start + len.value) else Substring(data, start, 0);
    } else {
      body := ScanBody(data, start);
    }
  }

  method UnmarshallSingle(data: Str) returns (frame: Frame)
    requires data != []
    ensures frame == ParseFrame(data)
  {
    var divider := FindDivider(data);
    var lines := SplitLines(Substring(data, 0, divider));
    var headers := CollectHeaders(lines[1..]);
    var body := ReadBody(data, divider + 2, headers);
    frame := Frame(lines[0], headers, body);
  }

  lemma ScannedUpToNul(data: Str, start: nat, end: nat)
    requires start <= end <= |data| && NUL !in data[start..end]
    requires end < |data| ==> data[end] == NUL
    ensures UpToNul(data, start) == data[start..end]
  {
    var rest := data[start..];
    if end < |data| {
      assert rest == data[start..end] + [NUL] + data[end + 1..];
      IndexOfFirst(data[start..end], NUL, data[end + 1..]);
    } else {
      assert rest == data[start..end];
    }
  }

  // Reading: a stream

  function SkipLineFeeds(t: Str): (r: Str)
    ensures |r| <= |t|
  {
    if t != [] && t[0] == LF then SkipLineFeeds(t[1..]) else t
  }

  /** `datas` split at every NUL, together with the LFs that follow it. */
  function SplitFrames(datas: Str): (pieces: seq<Str>)
    ensures |pieces| > 0
    decreases |datas|
  {
    var i := IndexOf(datas, NUL);
    if i == -1 then [datas] else [datas[..i]] + SplitFrames(SkipLineFeeds(datas[i + 1..]))
  }

  function ParsePieces(pieces: seq<Str>): seq<Frame> {
    if pieces == [] then []
    else if pieces[0] == [] then ParsePieces(pieces[1..])
    else [ParseFrame(pieces[0])] + ParsePieces(pieces[1..])
  }

  /** `Frame.unmarshall` */
  function Unmarshal(datas: Str): seq<Frame> {
    ParsePieces(SplitFrames(datas))
  }

  method UnmarshallFrames(datas: Str) returns (results: seq<Frame>)
    ensures results == Unmarshal(datas)
  {
    var pieces := SplitFrames(datas);
    results := [];
    for i := 0 to |pieces|
      invariant Unmarshal(datas) == results + ParsePieces(pieces[i..])
    {
      assert pieces[i..][1..] == pieces[i + 1..];
      if |pieces[i]| > 0 {
        var frame := UnmarshallSingle(pieces[i]);
        results := results + [frame];
      }
    }
  }
}
