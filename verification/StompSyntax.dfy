/** The text of frames spelled out, and what a reader makes of text that the client would not
    write: white space around headers, and numbers with signs or something after them. */
module StompSyntax {
  import opened Text
  import opened StompFrame
  import opened StompRoundTrip

  // Writing

  function HeaderTexts(hs: seq<Header>): (texts: seq<Str>)
    ensures |texts| == |hs|
  {
    seq(|hs|, i requires 0 <= i < |hs| => [0x0A] + hs[i].name + [0x3A] + hs[i].value)
  }

  lemma {:induction false} JoinedLines(command: Str, hs: seq<Header>)
    ensures Join([command] + HeaderLines(hs), LF) == command + Flatten(HeaderTexts(hs))
    decreases |hs|
  {
    if hs == [] {
      assert [command] + HeaderLines(hs) == [command] && [command][1..] == [];
      assert command + [] == command;
    } else {
      var before, last := hs[..|hs| - 1], hs[|hs| - 1];
      assert before + [last] == hs;
      JoinedLines(command, before);
      OneMoreLine(command, before, last);
    }
  }

  lemma OneMoreLine(command: Str, hs: seq<Header>, h: Header)
    requires Join([command] + HeaderLines(hs), LF) == command + Flatten(HeaderTexts(hs))
    ensures Join([command] + HeaderLines(hs + [h]), LF) == command + Flatten(HeaderTexts(hs + [h]))
  {
    LinesSnoc(hs, h);
    Assoc([command], HeaderLines(hs), [HeaderLine(h)]);
    JoinSnoc([command] + HeaderLines(hs), HeaderLine(h), LF);
    assert HeaderTexts(hs + [h]) == HeaderTexts(hs) + [[0x0A] + h.name + [0x3A] + h.value];
    FlattenSnoc(HeaderTexts(hs), [0x0A] + h.name + [0x3A] + h.value);
    Spelled(command, Flatten(HeaderTexts(hs)), h);
  }

  lemma Spelled(command: Str, texts: Str, h: Header)
    ensures command + texts + [LF] + HeaderLine(h) == command + (texts + ([0x0A] + h.name + [0x3A] + h.value))
  {
  }

  lemma {:induction false} LinesSnoc(hs: seq<Header>, h: Header)
    ensures HeaderLines(hs + [h]) == HeaderLines(hs) + [HeaderLine(h)]
    decreases |hs|
  {
    if hs == [] {
      assert [h][1..] == [] && hs + [h] == [h];
    } else {
      LinesSnoc(hs[1..], h);
      assert (hs + [h])[1..] == hs[1..] + [h];
    }
  }

  /** A frame is its command, a line of name, colon and value for each header that is sent, an
      empty line, and the body. */
  lemma FrameIsSpelled(f: OutFrame, size: nat)
    ensures FrameText(f, size)
            == f.command + Flatten(HeaderTexts(SentHeaders(f, size))) + [0x0A, 0x0A] + f.body
  {
    JoinedLines(f.command, SentHeaders(f, size));
  }

  // Reading

  predicate Blank(s: Str) {
    forall c <- s :: IsSpace(c)
  }

  predicate Trimmed(s: Str) {
    s != [] ==> !IsSpace(s[0]) && !IsSpace(s[|s| - 1])
  }

  lemma {:induction false} TrimLeftCuts(a: Str, s: Str)
    requires Blank(a) && (s == [] || !IsSpace(s[0]))
    ensures TrimLeft(a + s) == s
    decreases |a|
  {
    if a == [] {
      assert a + s == s;
    } else {
      assert a[0] in a && (a + s)[1..] == a[1..] + s;
      TrimLeftCuts(a[1..], s);
    }
  }

  lemma {:induction false} TrimRightCuts(s: Str, b: Str)
    requires Blank(b) && (s == [] || !IsSpace(s[|s| - 1]))
    ensures TrimRight(s + b) == s
    decreases |b|
  {
    if b == [] {
      assert s + b == s;
    } else {
      var n := |b| - 1;
      assert b[n] in b && (s + b)[..|s + b| - 1] == s + b[..n];
      TrimRightCuts(s, b[..n]);
    }
  }

  /** White space goes at both ends, and nothing else. */
  lemma TrimCuts(a: Str, s: Str, b: Str)
    requires Blank(a) && Trimmed(s) && Blank(b)
    ensures Trim(a + s + b) == s
  {
    if s == [] {
      AllBlank(a + b);
      assert a + s + b == a + b;
    } else {
      assert a + s + b == a + (s + b) && (s + b)[0] == s[0];
      TrimLeftCuts(a, s + b);
      TrimRightCuts(s, b);
    }
  }

  lemma AllBlank(s: Str)
    requires Blank(s)
    ensures Trim(s) == []
  {
    TrimLeftCuts(s, []);
    assert s + [] == s;
  }

  /** Names and values are read without the white space around them. */
  lemma HeaderIsTrimmed(a: Str, name: Str, b: Str, c: Str, value: Str, d: Str)
    requires Blank(a) && Blank(b) && Blank(c) && Blank(d)
    requires Trimmed(name) && Trimmed(value) && COLON !in name
    ensures ParseHeader((a + name + b) + [0x3A] + (c + value + d)) == Header(name, value)
  {
    var left, right := a + name + b, c + value + d;
    assert !IsSpace(COLON);
    IndexOfFirst(left, COLON, right);
    var line := left + [COLON] + right;
    assert line[..|left|] == left && line[|left| + 1..] == right;
    TrimCuts(a, name, b);
    TrimCuts(c, value, d);
  }

  /** Digits end where something else starts. */
  lemma {:induction false} DigitsEnd(digits: Str, rest: Str)
    requires (forall c <- digits :: IsDigit(c)) && (rest == [] || !IsDigit(rest[0]))
    ensures DigitPrefix(digits + rest, 10) == digits
    decreases |digits|
  {
    if digits == [] {
      assert digits + rest == rest;
    } else {
      assert digits[0] in digits && (digits + rest)[1..] == digits[1..] + rest;
      DigitsEnd(digits[1..], rest);
    }
  }

  /** `parseInt`: white space, a sign, digits, and anything that does not go on with them; a
      text without digits there is not a number. */
  lemma ParseIntReads(blank: Str, sign: Str, digits: Str, rest: Str)
    requires Blank(blank) && sign in {[], [0x2B], [0x2D]} && (forall c <- digits :: IsDigit(c))
    requires rest == [] || (!IsDigit(rest[0]) && rest[0] != 0x78 && rest[0] != 0x58)
    requires sign == [] && digits == [] && rest != [] ==> !IsSpace(rest[0]) && rest[0] != 0x2B && rest[0] != 0x2D
    ensures ParseInt(blank + (sign + (digits + rest)))
            == if digits == [] then None
               else Some(if sign == [0x2D] then -Value(digits, 10) else Value(digits, 10))
  {
    var u := digits + rest;
    var t := sign + u;
    if digits != [] {
      assert digits[0] in digits && u[0] == digits[0];
    }
    TrimLeftCuts(blank, t);
    assert sign != [] ==> t[0] == sign[0] && t[1..] == u;
    assert sign == [] ==> t == u;
    MagnitudeReads(digits, rest);
  }

  lemma MagnitudeReads(digits: Str, rest: Str)
    requires forall c <- digits :: IsDigit(c)
    requires rest == [] || (!IsDigit(rest[0]) && rest[0] != 0x78 && rest[0] != 0x58)
    ensures Magnitude(digits + rest) == if digits == [] then None else Some(Value(digits, 10))
  {
    DigitsEnd(digits, rest);
    var u := digits + rest;
    if |u| >= 2 {
      assert |digits| >= 2 ==> u[1] == digits[1] && digits[1] in digits;
      assert |digits| == 1 ==> u[1] == rest[0];
      assert digits == [] ==> u == rest;
    }
  }
}
