/** `utils.quote` of the SockJS client: JSON quoting followed by a second pass that
    escapes the units browsers are known to damage, lone surrogates among them. */
module Quote {
  import opened Text
  import opened Json

  // JSONQuote: the platform's JSON.stringify in its two standard forms, or the
  // library's own replacement by table.

  datatype Stringify = Es5 | Es2019 | Table

  /** `json_escapable`, less the two-character escapes handled in `ShortEscape`. */
  predicate JsonEscapable(c: Unit) {
    || c == 0x005C || c == 0x0022 || 0x0000 <= c <= 0x001F || 0x007F <= c <= 0x009F || c == 0x00AD
    || 0x0600 <= c <= 0x0604 || c == 0x070F || c == 0x17B4 || c == 0x17B5 || 0x200C <= c <= 0x200F
    || 0x2028 <= c <= 0x202F || 0x2060 <= c <= 0x206F || c == 0xFEFF || 0xFFF0 <= c <= 0xFFFF
  }

  predicate ExtraEscapable(c: Unit) {
    || 0x0000 <= c <= 0x001F || 0xD800 <= c <= 0xDFFF || c == 0xFFFE || c == 0xFFFF || 0x0300 <= c <= 0x0333
    || 0x033D <= c <= 0x0346 || 0x034A <= c <= 0x034C || 0x0350 <= c <= 0x0352 || 0x0357 <= c <= 0x0358
    || 0x035C <= c <= 0x0362 || c == 0x0374 || c == 0x037E || c == 0x0387 || 0x0591 <= c <= 0x05AF
    || c == 0x05C4 || 0x0610 <= c <= 0x0617 || 0x0653 <= c <= 0x0654 || 0x0657 <= c <= 0x065B
    || 0x065D <= c <= 0x065E || 0x06DF <= c <= 0x06E2 || 0x06EB <= c <= 0x06EC || c == 0x0730
    || 0x0732 <= c <= 0x0733 || 0x0735 <= c <= 0x0736 || c == 0x073A || c == 0x073D || 0x073F <= c <= 0x0741
    || c == 0x0743 || c == 0x0745 || c == 0x0747 || 0x07EB <= c <= 0x07F1 || c == 0x0951
    || 0x0958 <= c <= 0x095F || 0x09DC <= c <= 0x09DD || c == 0x09DF || c == 0x0A33 || c == 0x0A36
    || 0x0A59 <= c <= 0x0A5B || c == 0x0A5E || 0x0B5C <= c <= 0x0B5D || 0x0E38 <= c <= 0x0E39 || c == 0x0F43
    || c == 0x0F4D || c == 0x0F52 || c == 0x0F57 || c == 0x0F5C || c == 0x0F69 || 0x0F72 <= c <= 0x0F76
    || c == 0x0F78 || 0x0F80 <= c <= 0x0F83 || c == 0x0F93 || c == 0x0F9D || c == 0x0FA2 || c == 0x0FA7
    || c == 0x0FAC || c == 0x0FB9 || 0x1939 <= c <= 0x193A || c == 0x1A17 || c == 0x1B6B
    || 0x1CDA <= c <= 0x1CDB || 0x1DC0 <= c <= 0x1DCF || c == 0x1DFC || c == 0x1DFE || c == 0x1F71
    || c == 0x1F73 || c == 0x1F75 || c == 0x1F77 || c == 0x1F79 || c == 0x1F7B || c == 0x1F7D || c == 0x1FBB
    || c == 0x1FBE || c == 0x1FC9 || c == 0x1FCB || c == 0x1FD3 || c == 0x1FDB || c == 0x1FE3 || c == 0x1FEB
    || 0x1FEE <= c <= 0x1FEF || c == 0x1FF9 || c == 0x1FFB || c == 0x1FFD || 0x2000 <= c <= 0x2001
    || 0x20D0 <= c <= 0x20D1 || 0x20D4 <= c <= 0x20D7 || 0x20E7 <= c <= 0x20E9 || c == 0x2126
    || 0x212A <= c <= 0x212B || 0x2329 <= c <= 0x232A || c == 0x2ADC || 0x302B <= c <= 0x302C
    || 0xAAB2 <= c <= 0xAAB3 || 0xF900 <= c <= 0xFA0D || c == 0xFA10 || c == 0xFA12 || 0xFA15 <= c <= 0xFA1E
    || c == 0xFA20 || c == 0xFA22 || 0xFA25 <= c <= 0xFA26 || 0xFA2A <= c <= 0xFA2D || 0xFA30 <= c <= 0xFA6D
    || 0xFA70 <= c <= 0xFAD9 || c == 0xFB1D || c == 0xFB1F || 0xFB2A <= c <= 0xFB36 || 0xFB38 <= c <= 0xFB3C
    || c == 0xFB3E || 0xFB40 <= c <= 0xFB41 || 0xFB43 <= c <= 0xFB44 || 0xFB46 <= c <= 0xFB4E
    || 0xFFF0 <= c <= 0xFFFF
  }

  function ShortEscape(c: Unit): Option<Unit> {
    if c == QUOTE || c == BACKSLASH then Some(c)
    else if c == 0x08 then Some(0x62)
    else if c == 0x09 then Some(0x74)
    else if c == 0x0A then Some(0x6E)
    else if c == 0x0C then Some(0x66)
    else if c == 0x0D then Some(0x72)
    else None
  }

  /** `('0000' + c.toString(16)).slice(-4)` after `\u`. */
  function HexEscape(c: Unit): Str {
    [BACKSLASH, LOWER_U] + Padded(Numeral(c, 16), 4)
  }

  predicate IsLone(s: Str, i: nat)
    requires i < |s|
  {
    || (IsHigh(s[i]) && !(i + 1 < |s| && IsLow(s[i + 1])))
    || (IsLow(s[i]) && !(i > 0 && IsHigh(s[i - 1])))
  }

  /** How JSONQuote writes the unit at position `i`. */
  function JsonToken(kind: Stringify, s: Str, i: nat): Str
    requires i < |s|
  {
    if ShortEscape(s[i]).Some? then [BACKSLASH, ShortEscape(s[i]).value]
    else if || s[i] < 0x20
            || (kind == Es2019 && IsLone(s, i))
            || (kind == Table && JsonEscapable(s[i])) then HexEscape(s[i])
    else [s[i]]
  }

  function JsonTokens(kind: Stringify, s: Str): seq<Str> {
    seq(|s|, i requires 0 <= i < |s| => JsonToken(kind, s, i))
  }

  function JsonQuote(kind: Stringify, s: Str): Str {
    [QUOTE] + Flatten(JsonTokens(kind, s)) + [QUOTE]
  }

  // The second pass

  /** `text.replace(escapable, a => lookup[a])`. */
  function Replace(text: Str, lookup: map<Unit, Str>): Str {
    if text == [] then []
    else (if text[0] in lookup then lookup[text[0]] else [text[0]]) + Replace(text[1..], lookup)
  }

  /** What `unroll_lookup(extra_escapable)` builds. */
  function ExtraLookup(): map<Unit, Str> {
    map c: Unit | 0 <= c < 0x1_0000 && ExtraEscapable(c) :: HexEscape(c)
  }

  function QuoteString(kind: Stringify, s: Str): Str {
    Replace(JsonQuote(kind, s), ExtraLookup())
  }

  predicate IsAscii(text: Str) {
    forall i :: 0 <= i < |text| ==> 0x20 <= text[i] < 0x7F
  }

  /** A table that may be applied to JSON text: it writes each unit it replaces as an
      ASCII token of that unit, and leaves alone the characters JSON syntax is made of. */
  ghost predicate IsSafe(lookup: map<Unit, Str>) {
    forall c :: c in lookup ==> !(0x20 <= c < 0x7F) && IsToken(lookup[c], c) && IsAscii(lookup[c])
  }

  // The digits of HexEscape

  function HexDigits(n: nat, width: nat): (s: Str)
    ensures |s| == width && IsAscii(s)
    ensures forall i :: 0 <= i < width ==> IsHexDigit(s[i])
  {
    if width == 0 then [] else HexDigits(n / 16, width - 1) + [HexDigit(n % 16)]
  }

  const ZEROS: Str := [DIGIT0, DIGIT0, DIGIT0, DIGIT0]

  /** The last `width` units of `s` after four zeros. */
  function Padded(s: Str, width: nat): Str
    requires width <= 4
  {
    (ZEROS + s)[4 + |s| - width..]
  }

  lemma PaddedSnoc(s: Str, c: Unit, width: nat)
    requires 0 < width <= 4
    ensures Padded(s + [c], width) == Padded(s, width - 1) + [c]
  {
    Assoc(ZEROS, s, [c]);
  }

  lemma PaddedNothing(width: nat)
    requires width < 4
    ensures Padded([], width) == Padded([DIGIT0], width)
  {
  }

  lemma {:induction false} PaddedNumeral(n: nat, width: nat)
    requires width <= 4
    ensures Padded(Numeral(n, 16), width) == HexDigits(n, width)
    decreases width
  {
    if width > 0 {
      var rest: Str := if n < 16 then [] else Numeral(n / 16, 16);
      PaddedNumeral(n / 16, width - 1);
      PaddedNothing(width - 1);
      PaddedSnoc(rest, HexDigit(n % 16), width);
      assert Numeral(n, 16) == rest + [HexDigit(n % 16)];
      HexDigitsLast(n, width - 1);
    }
  }

  lemma HexDigitsLast(n: nat, width: nat)
    ensures HexDigits(n, width + 1) == HexDigits(n / 16, width) + [HexDigit(n % 16)]
  {
  }

  lemma FourHexDigits(n: nat)
    requires n < 65536
    ensures var s := HexDigits(n, 4);
            HexValue(s[0]) * 4096 + HexValue(s[1]) * 256 + HexValue(s[2]) * 16 + HexValue(s[3]) == n
  {
    var d := n / 16;
    var e := d / 16;
    var f := e / 16;
    HexDigitsLast(n, 3);
    HexDigitsLast(d, 2);
    HexDigitsLast(e, 1);
    HexDigitsLast(f, 0);
    assert n == d * 16 + n % 16 && d == e * 16 + d % 16 && e == f * 16 + e % 16 && f % 16 == f;
    var s := HexDigits(n, 4);
    assert s[3] == HexDigit(n % 16) && s[2] == HexDigits(d, 3)[2] == HexDigit(d % 16);
    assert s[1] == HexDigits(d, 3)[1] == HexDigits(e, 2)[1] == HexDigit(e % 16);
    assert s[0] == HexDigits(d, 3)[0] == HexDigits(e, 2)[0] == HexDigits(f, 1)[0] == HexDigit(f);
  }

  lemma HexEscapeIsToken(c: Unit)
    ensures IsToken(HexEscape(c), c) && |HexEscape(c)| == 6 && IsAscii(HexEscape(c))
  {
    PaddedNumeral(c, 4);
    FourHexDigits(c);
    DigitsAreToken(HexDigits(c, 4), c);
  }

  lemma DigitsAreToken(s: Str, c: Unit)
    requires |s| == 4 && IsAscii(s) && forall i :: 0 <= i < 4 ==> IsHexDigit(s[i])
    requires HexValue(s[0]) * 4096 + HexValue(s[1]) * 256 + HexValue(s[2]) * 16 + HexValue(s[3]) == c
    ensures var t := [BACKSLASH, LOWER_U] + s;
            IsToken(t, c) && |t| == 6 && IsAscii(t)
  {
    var t := [BACKSLASH, LOWER_U] + s;
    assert t[2] == s[0] && t[3] == s[1] && t[4] == s[2] && t[5] == s[3];
  }

  lemma ExtraLookupIsSafe()
    ensures IsSafe(ExtraLookup())
  {
    forall c | c in ExtraLookup()
      ensures !(0x20 <= c < 0x7F) && IsToken(ExtraLookup()[c], c) && IsAscii(ExtraLookup()[c])
    {
      HexEscapeIsToken(c);
    }
  }

  // What the second pass does to a text made of tokens

  lemma ReplaceFirst(a: Str, lookup: map<Unit, Str>)
    requires a != []
    ensures Replace(a, lookup) == Replace(a[..1], lookup) + Replace(a[1..], lookup)
  {
    var one := a[..1];
    assert one[1..] == [] && Replace(one[1..], lookup) == [];
    assert Replace(one, lookup) == (if one[0] in lookup then lookup[one[0]] else [one[0]]);
  }

  lemma {:induction false} ReplaceConcat(a: Str, b: Str, lookup: map<Unit, Str>)
    ensures Replace(a + b, lookup) == Replace(a, lookup) + Replace(b, lookup)
  {
    if a == [] {
      assert a + b == b;
    } else {
      ReplaceConcat(a[1..], b, lookup);
      First(a, b);
      Assoc(Replace(a[..1], lookup), Replace(a[1..], lookup), Replace(b, lookup));
      ReplaceFirst(a, lookup);
      ReplaceFirst(a + b, lookup);
      assert (a + b)[..1] == a[..1];
    }
  }

  lemma {:induction false} ReplaceAscii(a: Str, lookup: map<Unit, Str>)
    requires IsSafe(lookup) && IsAscii(a)
    ensures Replace(a, lookup) == a
  {
    if a != [] {
      ReplaceAscii(a[1..], lookup);
    }
  }

  lemma ReplaceToken(token: Str, u: Unit, lookup: map<Unit, Str>)
    requires IsSafe(lookup) && IsToken(token, u)
    ensures IsToken(Replace(token, lookup), u)
  {
    if |token| > 1 {
      ReplaceAscii(token, lookup);
    } else {
      assert Replace(token[1..], lookup) == [];
    }
  }

  lemma {:induction false} ReplaceTokens(tokens: seq<Str>, s: Str, lookup: map<Unit, Str>)
    returns (replaced: seq<Str>)
    requires IsSafe(lookup)
    requires |tokens| == |s| && forall i :: 0 <= i < |s| ==> IsToken(tokens[i], s[i])
    ensures |replaced| == |s| && forall i :: 0 <= i < |s| ==> IsToken(replaced[i], s[i])
    ensures Replace(Flatten(tokens), lookup) == Flatten(replaced)
  {
    if s == [] {
      replaced := [];
    } else {
      var rest := ReplaceTokens(tokens[1..], s[1..], lookup);
      ReplaceConcat(tokens[0], Flatten(tokens[1..]), lookup);
      ReplaceToken(tokens[0], s[0], lookup);
      replaced := [Replace(tokens[0], lookup)] + rest;
    }
  }

  lemma JsonTokenIsToken(kind: Stringify, s: Str, i: nat)
    requires i < |s|
    ensures IsToken(JsonToken(kind, s, i), s[i])
  {
    HexEscapeIsToken(s[i]);
  }

  lemma QuotedThen(text: Str, rest: Str)
    ensures var t := [QUOTE] + text + [QUOTE] + rest;
            t[0] == QUOTE && t[1..] == text + [QUOTE] + rest
  {
  }

  lemma TokensDenote(tokens: seq<Str>, s: Str)
    requires |tokens| == |s| && forall i :: 0 <= i < |s| ==> IsToken(tokens[i], s[i])
    ensures Denotes([QUOTE] + Flatten(tokens) + [QUOTE], s)
  {
    var q := [QUOTE] + Flatten(tokens) + [QUOTE];
    forall rest: Str ensures DecodeString(q + rest) == Some((s, rest)) {
      DecodeTokens(tokens, s, rest);
      QuotedThen(Flatten(tokens), rest);
    }
  }

  lemma ReplaceQuoted(text: Str, lookup: map<Unit, Str>)
    requires IsSafe(lookup)
    ensures Replace([QUOTE] + text + [QUOTE], lookup) == [QUOTE] + Replace(text, lookup) + [QUOTE]
  {
    ReplaceConcat([QUOTE] + text, [QUOTE], lookup);
    ReplaceConcat([QUOTE], text, lookup);
    ReplaceAscii([QUOTE], lookup);
  }

  lemma ReplacedQuoteDenotes(kind: Stringify, s: Str, lookup: map<Unit, Str>)
    requires IsSafe(lookup)
    ensures Denotes(Replace(JsonQuote(kind, s), lookup), s)
  {
    var plain := JsonTokens(kind, s);
    forall i | 0 <= i < |s| ensures IsToken(plain[i], s[i]) {
      JsonTokenIsToken(kind, s, i);
    }
    var tokens := ReplaceTokens(plain, s, lookup);
    ReplaceQuoted(Flatten(plain), lookup);
    TokensDenote(tokens, s);
  }

  lemma {:induction false} ReplaceLeavesNone(text: Str, lookup: map<Unit, Str>)
    requires IsSafe(lookup)
    ensures forall i :: 0 <= i < |Replace(text, lookup)| ==> Replace(text, lookup)[i] !in lookup
  {
    if text != [] {
      ReplaceLeavesNone(text[1..], lookup);
    }
  }

  /** Reading `utils.quote(s)` gives back every unit of `s`, lone surrogates included,
      and no unit a browser might damage is left in the text. */
  lemma QuoteRoundTrip(kind: Stringify, s: Str)
    ensures Denotes(QuoteString(kind, s), s)
    ensures forall i :: 0 <= i < |QuoteString(kind, s)| ==> !ExtraEscapable(QuoteString(kind, s)[i])
  {
    ExtraLookupIsSafe();
    ReplacedQuoteDenotes(kind, s, ExtraLookup());
    ReplaceLeavesNone(JsonQuote(kind, s), ExtraLookup());
  }

  function QuoteAll(kind: Stringify, messages: seq<Str>): (qs: seq<Str>)
    ensures |qs| == |messages|
  {
    seq(|messages|, i requires 0 <= i < |messages| => QuoteString(kind, messages[i]))
  }

  /** `'[' + messages.join(',') + ']'` over quoted messages reads back as the messages. */
  lemma QuotedArrayRoundTrip(kind: Stringify, messages: seq<Str>)
    ensures DecodeArray([LBRACKET] + Join(QuoteAll(kind, messages), COMMA) + [RBRACKET]) == Some(messages)
  {
    forall i | 0 <= i < |messages| ensures Denotes(QuoteAll(kind, messages)[i], messages[i]) {
      QuoteRoundTrip(kind, messages[i]);
    }
    ArrayRoundTrip(QuoteAll(kind, messages), messages);
  }

  // The table is built on first use and kept

  /** `unroll_lookup`: one entry for every escapable unit, and no other. */
  method UnrollLookup(escapable: Unit -> bool) returns (unrolled: map<Unit, Str>)
    ensures forall c: Unit :: c in unrolled <==> escapable(c)
    ensures forall c :: c in unrolled ==> unrolled[c] == HexEscape(c)
  {
    unrolled := map[];
    for i := 0 to 0x1_0000
      invariant forall c: Unit :: c in unrolled <==> c < i && escapable(c)
      invariant forall c :: c in unrolled ==> unrolled[c] == HexEscape(c)
    {
      var c: Unit := i;
      if escapable(c) {
        unrolled := unrolled[c := HexEscape(c)];
      }
    }
  }

  class Quoter {
    const kind: Stringify
    var extraLookup: Option<map<Unit, Str>>

    ghost predicate Valid()
      reads this
    {
      extraLookup.Some? ==> extraLookup.value == ExtraLookup()
    }

    constructor (kind: Stringify)
      ensures Valid() && this.kind == kind
    {
      this.kind := kind;
      extraLookup := None;
    }

    /** `utils.quote`: the fast way out when there is nothing to escape changes nothing. */
    method QuoteText(s: Str) returns (q: Str)
      requires Valid()
      modifies this
      ensures Valid()
      ensures q == QuoteString(kind, s) && Denotes(q, s)
    {
      var quoted := JsonQuote(kind, s);
      QuoteRoundTrip(kind, s);
      if forall i :: 0 <= i < |quoted| ==> !ExtraEscapable(quoted[i]) {
        ReplaceNothing(quoted, ExtraLookup());
        return quoted;
      }
      if extraLookup.None? {
        var unrolled := UnrollLookup(ExtraEscapable);
        extraLookup := Some(unrolled);
      }
      q := Replace(quoted, extraLookup.value);
    }
  }

  lemma {:induction false} ReplaceNothing(text: Str, lookup: map<Unit, Str>)
    requires forall i :: 0 <= i < |text| ==> text[i] !in lookup
    ensures Replace(text, lookup) == text
  {
    if text != [] {
      ReplaceNothing(text[1..], lookup);
    }
  }
}
