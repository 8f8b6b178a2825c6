/** A reader for JSON strings and arrays of strings, written from RFC 8259
    (sections 2, 5 and 7). It is the other end of what `utils.quote` writes. */
module Json {
  import opened Text

  // Section 7: string = quotation-mark *char quotation-mark

  /** The unit that the two-character escape `\c` stands for. */
  function Unescape(c: Unit): Option<Unit> {
    if c == QUOTE || c == BACKSLASH || c == 0x2F then Some(c)  // \" \\ \/
    else if c == 0x62 then Some(0x08)  // \b
    else if c == 0x66 then Some(0x0C)  // \f
    else if c == 0x6E then Some(0x0A)  // \n
    else if c == 0x72 then Some(0x0D)  // \r
    else if c == 0x74 then Some(0x09)  // \t
    else None
  }

  /** The value of `\uXXXX` at the start of `t`, in either letter case. */
  function UnescapeHex(t: Str): Option<Unit> {
    if && |t| >= 6 && t[0] == BACKSLASH && t[1] == LOWER_U
       && IsHexDigit(t[2]) && IsHexDigit(t[3]) && IsHexDigit(t[4]) && IsHexDigit(t[5])
    then Some(HexValue(t[2]) * 4096 + HexValue(t[3]) * 256 + HexValue(t[4]) * 16 + HexValue(t[5]))
    else None
  }

  /** One `char` of the grammar at the start of `t`: its value and its length. */
  function DecodeChar(t: Str): (r: Option<(Unit, nat)>)
    ensures r.Some? ==> 0 < r.value.1 <= |t|
  {
    if t == [] then None
    else if t[0] != BACKSLASH then
      if t[0] < 0x20 || t[0] == QUOTE then None else Some((t[0], 1))
    else if UnescapeHex(t).Some? then Some((UnescapeHex(t).value, 6))
    else if |t| >= 2 && Unescape(t[1]).Some? then Some((Unescape(t[1]).value, 2))
    else None
  }

  /** The characters up to the closing quotation mark, and the text after it. */
  function DecodeChars(t: Str): (r: Option<(Str, Str)>)
    ensures r.Some? ==> |r.value.1| < |t|
  {
    if t != [] && t[0] == QUOTE then Some(([], t[1..]))
    else
      match DecodeChar(t)
      case None => None
      case Some((u, n)) =>
        match DecodeChars(t[n..])
        case None => None
        case Some((s, rest)) => Some(([u] + s, rest))
  }

  function DecodeString(t: Str): (r: Option<(Str, Str)>)
    ensures r.Some? ==> |r.value.1| < |t|
  {
    if t != [] && t[0] == QUOTE then DecodeChars(t[1..]) else None
  }

  // Section 5: array = begin-array [ value *( value-separator value ) ] end-array

  predicate IsWhitespace(c: Unit) {
    c == SPACE || c == TAB || c == LF || c == CR
  }

  function SkipWhitespace(t: Str): (r: Str)
    ensures |r| <= |t|
  {
    if t != [] && IsWhitespace(t[0]) then SkipWhitespace(t[1..]) else t
  }

  /** The elements from the first value on, and the text after the end of the array. */
  function DecodeElements(t: Str): Option<(seq<Str>, Str)>
    decreases |t|
  {
    match DecodeString(t)
    case None => None
    case Some((s, rest)) =>
      var more := SkipWhitespace(rest);
      if more != [] && more[0] == RBRACKET then Some(([s], more[1..]))
      else if more != [] && more[0] == COMMA then
        match DecodeElements(SkipWhitespace(more[1..]))
        case None => None
        case Some((ss, end)) => Some(([s] + ss, end))
      else None
  }

  /** A whole JSON text that is an array of strings. */
  function DecodeArray(t: Str): Option<seq<Str>> {
    var body := SkipWhitespace(t);
    if body == [] || body[0] != LBRACKET then None
    else
      var first := SkipWhitespace(body[1..]);
      if first != [] && first[0] == RBRACKET then
        if SkipWhitespace(first[1..]) == [] then Some([]) else None
      else
        match DecodeElements(first)
        case None => None
        case Some((ss, end)) => if SkipWhitespace(end) == [] then Some(ss) else None
  }

  // What a writer has to produce

  /** `token` is one way of writing the unit `u` inside a JSON string. */
  predicate IsToken(token: Str, u: Unit) {
    || (token == [u] && u >= 0x20 && u != QUOTE && u != BACKSLASH)
    || (|token| == 2 && token[0] == BACKSLASH && Unescape(token[1]) == Some(u))
    || (|token| == 6 && UnescapeHex(token) == Some(u))
  }

  lemma DecodeToken(token: Str, u: Unit, rest: Str)
    requires IsToken(token, u)
    ensures DecodeChar(token + rest) == Some((u, |token|))
    ensures (token + rest)[0] != QUOTE
  {
    var t := token + rest;
    if |token| == 6 {
      assert forall i :: 0 <= i < 6 ==> t[i] == token[i];
      assert UnescapeHex(t) == UnescapeHex(token);
    } else if |token| == 2 {
      assert t[0] == token[0] && t[1] == token[1];
      assert UnescapeHex(t).None?;
    }
  }

  /** Any choice of tokens reads back as the units it was chosen for. */
  lemma {:induction false} DecodeTokens(tokens: seq<Str>, s: Str, rest: Str)
    requires |tokens| == |s|
    requires forall i :: 0 <= i < |s| ==> IsToken(tokens[i], s[i])
    ensures DecodeChars(Flatten(tokens) + [QUOTE] + rest) == Some((s, rest))
  {
    var t := Flatten(tokens) + [QUOTE] + rest;
    if s == [] {
      assert t == [QUOTE] + rest;
      assert t[1..] == rest;
    } else {
      var tail := Flatten(tokens[1..]) + [QUOTE] + rest;
      assert t == tokens[0] + tail;
      DecodeToken(tokens[0], s[0], tail);
      assert t[|tokens[0]|..] == tail;
      DecodeTokens(tokens[1..], s[1..], rest);
      assert [s[0]] + s[1..] == s;
    }
  }

  /** `q` is a JSON string with value `s`, whatever text follows it. */
  ghost predicate Denotes(q: Str, s: Str) {
    && q != [] && q[0] == QUOTE
    && forall rest: Str {:trigger DecodeString(q + rest)} :: DecodeString(q + rest) == Some((s, rest))
  }

  lemma JoinedFirst(qs: seq<Str>)
    requires |qs| > 1
    ensures Join(qs, COMMA) + [RBRACKET] == qs[0] + ([COMMA] + (Join(qs[1..], COMMA) + [RBRACKET]))
  {
    Assoc(qs[0] + [COMMA], Join(qs[1..], COMMA), [RBRACKET]);
    Assoc(qs[0], [COMMA], Join(qs[1..], COMMA) + [RBRACKET]);
  }

  lemma {:induction false} DecodeJoined(qs: seq<Str>, ss: seq<Str>)
    requires |qs| == |ss| > 0
    requires forall i :: 0 <= i < |qs| ==> Denotes(qs[i], ss[i])
    ensures DecodeElements(Join(qs, COMMA) + [RBRACKET]) == Some((ss, []))
  {
    var t := Join(qs, COMMA) + [RBRACKET];
    if |qs| == 1 {
      assert t == qs[0] + [RBRACKET];
      assert DecodeString(qs[0] + [RBRACKET]) == Some((ss[0], [RBRACKET]));
      assert [RBRACKET][1..] == [];
      assert SkipWhitespace([RBRACKET]) == [RBRACKET];
      assert ss == [ss[0]];
    } else {
      var tail := Join(qs[1..], COMMA) + [RBRACKET];
      DecodeJoined(qs[1..], ss[1..]);
      assert tail[0] == qs[1][0] == QUOTE;
      JoinedFirst(qs);
      assert DecodeString(qs[0] + ([COMMA] + tail)) == Some((ss[0], [COMMA] + tail));
      First([COMMA], tail);
      assert SkipWhitespace(tail) == tail;
      assert ss == [ss[0]] + ss[1..];
    }
  }

  /** The array that `'[' + list.join(',') + ']'` builds reads back as the list. */
  lemma ArrayRoundTrip(qs: seq<Str>, ss: seq<Str>)
    requires |qs| == |ss|
    requires forall i :: 0 <= i < |qs| ==> Denotes(qs[i], ss[i])
    ensures DecodeArray([LBRACKET] + Join(qs, COMMA) + [RBRACKET]) == Some(ss)
  {
    var t := [LBRACKET] + Join(qs, COMMA) + [RBRACKET];
    assert t[1..] == Join(qs, COMMA) + [RBRACKET];
    if qs != [] {
      assert t[1] == qs[0][0] == QUOTE;
      DecodeJoined(qs, ss);
    }
  }
}
