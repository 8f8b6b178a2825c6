/** JavaScript strings as sequences of UTF-16 code units, with the few built-in
    string operations the client code uses, and numbers written in base 10 and 16. */
module Text {

  type Unit = u: int | 0 <= u < 0x1_0000

  type Str = seq<Unit>

  datatype Option<+T> = None | Some(value: T)

  const NUL: Unit := 0x00
  const TAB: Unit := 0x09
  const LF: Unit := 0x0A
  const CR: Unit := 0x0D
  const SPACE: Unit := 0x20
  const QUOTE: Unit := 0x22
  const PERCENT: Unit := 0x25
  const PLUS: Unit := 0x2B
  const COMMA: Unit := 0x2C
  const MINUS: Unit := 0x2D
  const DIGIT0: Unit := 0x30
  const COLON: Unit := 0x3A
  const LBRACKET: Unit := 0x5B
  const BACKSLASH: Unit := 0x5C
  const RBRACKET: Unit := 0x5D
  const LOWER_U: Unit := 0x75
  const LOWER_X: Unit := 0x78

  /** A literal of the program's text. */
  function Ascii(s: string): (r: Str)
    ensures |r| == |s|
    ensures forall i :: 0 <= i < |s| && s[i] < 128 as char ==> r[i] == s[i] as int
  {
    seq(|s|, i requires 0 <= i < |s| => if s[i] < 128 as char then s[i] as int else 0)
  }

  // Sequences of sequences

  lemma Assoc<T>(a: seq<T>, b: seq<T>, c: seq<T>)
    ensures a + b + c == a + (b + c)
  {
  }

  lemma First<T>(a: seq<T>, b: seq<T>)
    requires a != []
    ensures (a + b)[0] == a[0] && (a + b)[1..] == a[1..] + b
  {
  }

  function Flatten<T>(parts: seq<seq<T>>): seq<T> {
    if parts == [] then [] else parts[0] + Flatten(parts[1..])
  }

  lemma {:induction false} FlattenConcat<T>(a: seq<seq<T>>, b: seq<seq<T>>)
    ensures Flatten(a + b) == Flatten(a) + Flatten(b)
  {
    if a == [] {
      assert a + b == b;
    } else {
      FlattenConcat(a[1..], b);
      First(a, b);
      Assoc(a[0], Flatten(a[1..]), Flatten(b));
    }
  }

  lemma FlattenSnoc<T>(a: seq<seq<T>>, last: seq<T>)
    ensures Flatten(a + [last]) == Flatten(a) + last
  {
    FlattenConcat(a, [last]);
    assert Flatten([last]) == last + Flatten([last][1..]);
    assert Flatten([last]) == last;
  }

  /** `parts.join(sep)` for a separator of one unit. */
  function Join(parts: seq<Str>, sep: Unit): Str {
    if parts == [] then []
    else if |parts| == 1 then parts[0]
    else parts[0] + [sep] + Join(parts[1..], sep)
  }

  // Searching and slicing

  /** `s.indexOf(c)`: the first position of `c`, or -1. */
  function IndexOf(s: Str, c: Unit): (i: int)
    ensures -1 <= i < |s|
    ensures i == -1 <==> c !in s
    ensures i >= 0 ==> s[i] == c && forall k :: 0 <= k < i ==> s[k] != c
  {
    if s == [] then -1
    else if s[0] == c then 0
    else
      var rest := IndexOf(s[1..], c);
      assert forall k :: 1 <= k < |s| ==> s[k] == s[1..][k - 1];
      if rest == -1 then -1 else rest + 1
  }

  lemma IndexOfFirst(a: Str, c: Unit, b: Str)
    requires c !in a
    ensures IndexOf(a + [c] + b, c) == |a|
  {
    var s := a + [c] + b;
    assert s[|a|] == c;
    assert forall k :: 0 <= k < |a| ==> s[k] == a[k];
  }

  function Clamp(i: int, length: nat): (r: nat)
    ensures r <= length
  {
    if i < 0 then 0 else if i > length then length else i
  }

  /** `s.substring(from, to)`: both ends are clamped, and swapped when out of order. */
  function Substring(s: Str, from: int, to: int): Str {
    var a, b := Clamp(from, |s|), Clamp(to, |s|);
    if a <= b then s[a..b] else s[b..a]
  }

  // Characters

  /** The class `\s` of regular expressions (ECMA-262, white space and line terminators). */
  predicate IsSpace(c: Unit) {
    || 0x09 <= c <= 0x0D || c == 0x20 || c == 0xA0 || c == 0x1680 || 0x2000 <= c <= 0x200A
    || c == 0x2028 || c == 0x2029 || c == 0x202F || c == 0x205F || c == 0x3000 || c == 0xFEFF
  }

  /** What `.` does not match in a regular expression. */
  predicate IsLineTerminator(c: Unit) {
    c == 0x0A || c == 0x0D || c == 0x2028 || c == 0x2029
  }

  predicate IsDigit(c: Unit) {
    0x30 <= c <= 0x39
  }

  predicate IsHigh(c: Unit) {
    0xD800 <= c <= 0xDBFF
  }

  predicate IsLow(c: Unit) {
    0xDC00 <= c <= 0xDFFF
  }

  // Numbers

  /** A digit below 16 as `toString(16)` writes it. */
  function HexDigit(d: int): (c: Unit)
    requires 0 <= d < 16
    ensures IsHexDigit(c) && HexValue(c) == d && 0x20 <= c < 0x7F
  {
    if d < 10 then 0x30 + d else 0x57 + d
  }

  predicate IsHexDigit(c: Unit) {
    IsDigit(c) || 0x41 <= c <= 0x46 || 0x61 <= c <= 0x66
  }

  function HexValue(c: Unit): (d: int)
    requires IsHexDigit(c)
    ensures 0 <= d < 16
  {
    if c <= 0x39 then c - 0x30 else if c <= 0x46 then c - 0x37 else c - 0x57
  }

  /** `n.toString(base)` for a natural number: no leading zeros. */
  function Numeral(n: nat, base: nat): (s: Str)
    requires base == 10 || base == 16
    ensures |s| > 0
    ensures forall c :: c in s ==> IsHexDigit(c) && HexValue(c) < base
  {
    if n < base then [HexDigit(n)] else Numeral(n / base, base) + [HexDigit(n % base)]
  }

  /** The value of a digit string, most significant digit first. */
  function Value(s: Str, base: nat): int
    requires forall c :: c in s ==> IsHexDigit(c)
  {
    if s == [] then 0 else Value(s[..|s| - 1], base) * base + HexValue(s[|s| - 1])
  }

  lemma {:induction false} NumeralValue(n: nat, base: nat)
    requires base == 10 || base == 16
    ensures Value(Numeral(n, base), base) == n
  {
    var s := Numeral(n, base);
    if n < base {
      assert s[..|s| - 1] == [];
    } else {
      NumeralValue(n / base, base);
      assert s[..|s| - 1] == Numeral(n / base, base);
      assert base == 10 ==> n == n / 10 * 10 + n % 10;
    }
  }

  lemma NumeralInjective(m: nat, n: nat, base: nat)
    requires base == 10 || base == 16
    requires Numeral(m, base) == Numeral(n, base)
    ensures m == n
  {
    NumeralValue(m, base);
    NumeralValue(n, base);
  }

  function Decimal(n: nat): (s: Str)
    ensures |s| > 0 && forall c :: c in s ==> IsDigit(c)
  {
    Numeral(n, 10)
  }
}
