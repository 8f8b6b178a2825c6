/** `Frame.sizeOfUTF8` and the platform functions under it: `encodeURI` (ECMA-262)
    and the UTF-8 encoding of a UTF-16 string (RFC 3629, section 3). */
module Utf8 {
  import opened Text

  // RFC 3629

  /** No surrogate stands alone. */
  predicate WellFormed(s: Str) {
    if s == [] then true
    else if IsHigh(s[0]) then |s| > 1 && IsLow(s[1]) && WellFormed(s[2..])
    else !IsLow(s[0]) && WellFormed(s[1..])
  }

  function PairValue(high: Unit, low: Unit): (n: int)
    requires IsHigh(high) && IsLow(low)
    ensures 0x1_0000 <= n <= 0x10_FFFF
  {
    0x1_0000 + (high - 0xD800) * 0x400 + (low - 0xDC00)
  }

  type Octet = o: int | 0 <= o < 256

  function Octets(n: int): (os: seq<Octet>)
    requires 0 <= n <= 0x10_FFFF
    ensures |os| == if n < 0x80 then 1 else if n < 0x800 then 2 else if n < 0x1_0000 then 3 else 4
  {
    if n < 0x80 then [n]
    else if n < 0x800 then [0xC0 + n / 64, 0x80 + n % 64]
    else if n < 0x1_0000 then [0xE0 + n / 4096, 0x80 + n / 64 % 64, 0x80 + n % 64]
    else [0xF0 + n / 262144, 0x80 + n / 4096 % 64, 0x80 + n / 64 % 64, 0x80 + n % 64]
  }

  /** The UTF-8 octets of a well-formed string. */
  function Encode(s: Str): seq<Octet>
    requires WellFormed(s)
  {
    if s == [] then []
    else if IsHigh(s[0]) then Octets(PairValue(s[0], s[1])) + Encode(s[2..])
    else Octets(s[0]) + Encode(s[1..])
  }

  // ECMA-262

  /** uriReserved, uriUnescaped and '#': what `encodeURI` copies. */
  predicate CopiedByEncodeURI(c: Unit) {
    || IsDigit(c) || 0x41 <= c <= 0x5A || 0x61 <= c <= 0x7A
    || c == 0x21 || c == 0x23 || c == 0x24 || 0x26 <= c <= 0x2F
    || c == 0x3A || c == 0x3B || c == 0x3D || c == 0x3F || c == 0x40 || c == 0x5F || c == 0x7E
  }

  function UpperHexDigit(d: int): (c: Unit)
    requires 0 <= d < 16
    ensures !IsLineTerminator(c)
  {
    if d < 10 then 0x30 + d else 0x37 + d
  }

  function Percent(os: seq<Octet>): Str {
    if os == [] then []
    else [PERCENT, UpperHexDigit(os[0] / 16), UpperHexDigit(os[0] % 16)] + Percent(os[1..])
  }

  /** `encodeURI(s)`; None is the URIError it throws at a lone surrogate. */
  function EncodeURI(s: Str): Option<Str> {
    if s == [] then Some([])
    else if IsLow(s[0]) || (IsHigh(s[0]) && !(|s| > 1 && IsLow(s[1]))) then None
    else
      var taken := if IsHigh(s[0]) then 2 else 1;
      var text := if CopiedByEncodeURI(s[0]) then [s[0]]
                  else if IsHigh(s[0]) then Percent(Octets(PairValue(s[0], s[1])))
                  else Percent(Octets(s[0]));
      match EncodeURI(s[taken..])
      case None => None
      case Some(rest) => Some(text + rest)
  }

  /** How many times `/%..|./` matches while `split` walks over `t`; the list that
      `split` returns is longer by one. */
  function SplitMatches(t: Str): nat {
    if t == [] then 0
    else if |t| >= 3 && t[0] == PERCENT && !IsLineTerminator(t[1]) && !IsLineTerminator(t[2])
    then 1 + SplitMatches(t[3..])
    else if !IsLineTerminator(t[0]) then 1 + SplitMatches(t[1..])
    else SplitMatches(t[1..])
  }

  /** `Frame.sizeOfUTF8`; None is the thrown URIError. */
  function SizeOfUTF8(s: Str): Option<nat> {
    if s == [] then Some(0)
    else
      match EncodeURI(s)
      case None => None
      case Some(text) =>
        var pieces := SplitMatches(text) + 1;
        Some(pieces - 1)
  }

  lemma PercentMatch(c: Unit, d: Unit, rest: Str)
    requires !IsLineTerminator(c) && !IsLineTerminator(d)
    ensures SplitMatches([PERCENT, c, d] + rest) == 1 + SplitMatches(rest)
  {
    assert ([PERCENT, c, d] + rest)[3..] == rest;
  }

  lemma {:induction false} PercentMatches(os: seq<Octet>, rest: Str)
    ensures SplitMatches(Percent(os) + rest) == |os| + SplitMatches(rest)
  {
    if os == [] {
      assert Percent(os) + rest == rest;
    } else {
      PercentMatches(os[1..], rest);
      Assoc([PERCENT, UpperHexDigit(os[0] / 16), UpperHexDigit(os[0] % 16)], Percent(os[1..]), rest);
      PercentMatch(UpperHexDigit(os[0] / 16), UpperHexDigit(os[0] % 16), Percent(os[1..]) + rest);
    }
  }

  lemma {:induction false} EncodeURIMatches(s: Str)
    ensures EncodeURI(s).Some? <==> WellFormed(s)
    ensures WellFormed(s) ==> SplitMatches(EncodeURI(s).value) == |Encode(s)|
  {
    if s == [] {
    } else if IsHigh(s[0]) {
      if |s| > 1 && IsLow(s[1]) {
        EncodeURIMatches(s[2..]);
        if WellFormed(s) {
          PercentMatches(Octets(PairValue(s[0], s[1])), EncodeURI(s[2..]).value);
        }
      }
    } else if !IsLow(s[0]) {
      EncodeURIMatches(s[1..]);
      if WellFormed(s) {
        var rest := EncodeURI(s[1..]).value;
        if CopiedByEncodeURI(s[0]) {
          assert ([s[0]] + rest)[1..] == rest;
        } else {
          PercentMatches(Octets(s[0]), rest);
        }
      }
    }
  }

  /** The token count is the octet count of RFC 3629 for every well-formed string, and
      the call throws for every other. */
  lemma SizeIsOctetCount(s: Str)
    ensures SizeOfUTF8(s) == if WellFormed(s) then Some(|Encode(s)|) else None
  {
    EncodeURIMatches(s);
  }

  /** Octets are never fewer than UTF-16 units. */
  lemma {:induction false} OctetsCoverUnits(s: Str)
    requires WellFormed(s)
    ensures |s| <= |Encode(s)| <= 3 * |s|
  {
    if s != [] {
      if IsHigh(s[0]) {
        OctetsCoverUnits(s[2..]);
      } else {
        OctetsCoverUnits(s[1..]);
      }
    }
  }

  // The octets determine the string

  /** The value and the length of the first sequence of octets. */
  function DecodeFirst(os: seq<Octet>): (int, nat)
    requires os != []
  {
    var v: seq<int> := os;
    if v[0] < 0x80 || |v| < 2 then (v[0], 1)
    else if v[0] < 0xE0 || |v| < 3 then ((v[0] - 0xC0) * 64 + (v[1] - 0x80), 2)
    else if v[0] < 0xF0 || |v| < 4 then ((v[0] - 0xE0) * 4096 + (v[1] - 0x80) * 64 + (v[2] - 0x80), 3)
    else ((v[0] - 0xF0) * 262144 + (v[1] - 0x80) * 4096 + (v[2] - 0x80) * 64 + (v[3] - 0x80), 4)
  }

  lemma DecodeOctets(n: int, rest: seq<Octet>)
    requires 0 <= n <= 0x10_FFFF
    ensures DecodeFirst(Octets(n) + rest) == (n, |Octets(n)|)
  {
    var a, b := n / 64, n / 4096;
    assert n == a * 64 + n % 64;
    assert b == a / 64 && a == b * 64 + a % 64;
    assert n / 262144 == b / 64 && b == b / 64 * 64 + b % 64;
  }

  lemma {:induction false} EncodeInjective(s: Str, t: Str)
    requires WellFormed(s) && WellFormed(t) && Encode(s) == Encode(t)
    ensures s == t
  {
    if s == [] || t == [] {
      OctetsCoverUnits(s);
      OctetsCoverUnits(t);
    } else {
      var m := if IsHigh(s[0]) then PairValue(s[0], s[1]) else s[0];
      var n := if IsHigh(t[0]) then PairValue(t[0], t[1]) else t[0];
      var i, j := if IsHigh(s[0]) then 2 else 1, if IsHigh(t[0]) then 2 else 1;
      DecodeOctets(m, Encode(s[i..]));
      DecodeOctets(n, Encode(t[j..]));
      assert m == n && i == j;
      assert Encode(s)[|Octets(m)|..] == Encode(s[i..]);
      assert Encode(t)[|Octets(n)|..] == Encode(t[j..]);
      EncodeInjective(s[i..], t[j..]);
      if i == 2 {
        assert s[0] == t[0] && s[1] == t[1];
        assert s == [s[0], s[1]] + s[2..] && t == [t[0], t[1]] + t[2..];
      } else {
        assert s == [s[0]] + s[1..] && t == [t[0]] + t[1..];
      }
    }
  }
}
