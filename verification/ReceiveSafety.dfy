/** What reaches the connection over any number of polls. */
module ReceiveSafety {
  import opened Text
  import opened Receive

  function LinesOf<E>(inputs: seq<Input<E>>): seq<Str> {
    if inputs == [] then []
    else
      var last := inputs[|inputs| - 1];
      LinesOf(inputs[..|inputs| - 1]) + if last.Line? then [last.text] else []
  }

  function AsInputs<E>(lines: seq<Str>): (inputs: seq<Input<E>>)
    ensures |inputs| == |lines|
  {
    seq(|lines|, i requires 0 <= i < |lines| => Line(lines[i]))
  }

  /** The complete lines of all responses, in the order of the requests. */
  function AllLines(texts: seq<Str>): seq<Str> {
    if texts == [] then [] else AllLines(texts[..|texts| - 1]) + CompleteLines(texts[|texts| - 1])
  }

  /** Every request but the last one has ended; the last one has its handlers exactly while
      the poll loop waits for it. */
  ghost predicate OneLive(receivers: seq<Receiver>, current: Option<nat>) {
    && receivers != []
    && (forall i :: 0 <= i < |receivers| - 1 ==>
          !receivers[i].xo && !receivers[i].attached && receivers[i].started && !receivers[i].open)
    && (current.Some? ==> current.value == |receivers| - 1)
    && var last := receivers[|receivers| - 1];
       (last.xo <==> current.Some?) && (last.attached <==> current.Some?) && (last.open ==> last.started)
  }

  /** The connection is what its inputs made it, and was given lines only before it let go. */
  ghost predicate Replayed<S, E>(c: Consumer<S, E>, start: S, p: Poll<S, E>) {
    && p.sink == Replay(c, start, p.inputs) && c.ok(p.sink)
    && (p.isClosing <==> c.gone(p.sink))
    && forall k :: 0 <= k < |p.inputs| && p.inputs[k].Line? ==> !c.gone(Replay(c, start, p.inputs[..k]))
  }

  /** The lines given so far: all of the finished responses and those of the current one up
      to the receiver's position, which is the start of a line. */
  ghost predicate Given<S, E>(p: Poll<S, E>)
    requires |p.texts| == |p.receivers| > 0
  {
    var n := |p.texts| - 1;
    var text, pos := p.texts[n], p.receivers[n].bufPos;
    && IsLineStart(text, pos)
    && LinesOf(p.inputs) <= AllLines(p.texts)
    && (!p.isClosing ==> LinesOf(p.inputs) == AllLines(p.texts[..n]) + CompleteLines(text[..pos]))
    && (!p.isClosing && !p.interrupted ==> CompleteLines(text[pos..]) == [])
  }

  ghost predicate Inv<S, E>(c: Consumer<S, E>, start: S, p: Poll<S, E>) {
    && Replayed(c, start, p)
    && |p.texts| == |p.receivers| && OneLive(p.receivers, p.current)
    && (p.isClosing <==> p.current.None?)
    && p.closes == |p.receivers| - (if p.current.Some? then 1 else 0)
    && Given(p)
  }

  // Lists

  lemma LinesOfSnoc<E>(inputs: seq<Input<E>>, input: Input<E>)
    ensures LinesOf(inputs + [input]) == LinesOf(inputs) + if input.Line? then [input.text] else []
  {
    assert (inputs + [input])[..|inputs|] == inputs;
  }

  lemma AsInputsLast<E>(lines: seq<Str>)
    requires lines != []
    ensures var n := |lines| - 1;
            AsInputs<E>(lines) == AsInputs(lines[..n]) + [Line(lines[n])] && lines == lines[..n] + [lines[n]]
  {
  }

  lemma {:induction false} LinesOfLines<E>(inputs: seq<Input<E>>, lines: seq<Str>)
    ensures LinesOf(inputs + AsInputs(lines)) == LinesOf(inputs) + lines
  {
    if lines == [] {
      assert inputs + AsInputs(lines) == inputs;
    } else {
      var n := |lines| - 1;
      LinesOfLines(inputs, lines[..n]);
      LinesOfSnoc(inputs + AsInputs(lines[..n]), Line(lines[n]));
      AsInputsLast<E>(lines);
      Assoc(inputs, AsInputs(lines[..n]), [Line(lines[n])]);
      Assoc(LinesOf(inputs), lines[..n], [lines[n]]);
    }
  }

  lemma ReplaySnoc<S, E>(c: Consumer<S, E>, start: S, inputs: seq<Input<E>>, input: Input<E>)
    ensures Replay(c, start, inputs + [input]) == Consume(c, Replay(c, start, inputs), input).0
  {
    assert (inputs + [input])[..|inputs|] == inputs;
  }

  // Feeding

  lemma FeedFacts<S(!new), E(!new)>(c: Consumer<S, E>, start: S, p: Poll<S, E>, input: Input<E>)
    requires LetsGo(c) && p.sink == Replay(c, start, p.inputs) && c.ok(p.sink) && Attended(p)
    ensures var q := Feed(c, p, input);
            && c.ok(q.sink)
            && q.inputs == p.inputs + [input] && q.sink == Replay(c, start, q.inputs)
            && q == (if c.gone(q.sink) && !p.isClosing then Detached(p.(sink := q.sink, inputs := q.inputs))
                     else p.(sink := q.sink, inputs := q.inputs))
  {
    ReplaySnoc(c, start, p.inputs, input);
  }

  /** The poll loop after receiver `i` has moved on by `n` and the connection has had inputs. */
  function After<S, E>(c: Consumer<S, E>, p: Poll<S, E>, i: nat, n: nat, q: Poll<S, E>): Poll<S, E>
    requires i < |p.receivers|
  {
    var r := Moved(p, i, n).(sink := q.sink, inputs := q.inputs);
    if c.gone(q.sink) then Detached(r) else r
  }

  lemma AsInputsFirst<E>(lines: seq<Str>, n: nat)
    requires 0 < n <= |lines|
    ensures [Line(lines[0])] + AsInputs<E>(lines[1..][..n - 1]) == AsInputs(lines[..n])
  {
  }

  lemma MovedTwice<S, E>(p: Poll<S, E>, i: nat, m: nat, n: nat)
    requires i < |p.receivers|
    ensures Moved(p, i, 0) == p && Moved(Moved(p, i, m), i, n) == Moved(p, i, m + n)
  {
    assert p.receivers[i := p.receivers[i]] == p.receivers;
  }

  lemma AbortThenMove<S, E>(p: Poll<S, E>, i: nat, n: nat)
    requires p.current == Some(i) && i < |p.receivers| && p.receivers[i].xo
    ensures Moved(Detached(p), i, n) == Detached(Moved(p, i, n))
  {
  }

  lemma {:induction false} UnattendedLines<S, E>(c: Consumer<S, E>, p: Poll<S, E>, i: nat, lines: seq<Str>)
    requires i < |p.receivers| && !p.receivers[i].attached
    ensures FeedLines(c, p, i, lines) == (Moved(p, i, Extent(lines)), 0, false)
    decreases |lines|
  {
    MovedTwice(p, i, 0, 0);
    if lines != [] {
      UnattendedLines(c, Moved(p, i, |lines[0]| + 1), i, lines[1..]);
      MovedTwice(p, i, |lines[0]| + 1, Extent(lines[1..]));
    }
  }

  lemma AfterTwo<S, E>(c: Consumer<S, E>, p: Poll<S, E>, i: nat, m: nat, n: nat, q: Poll<S, E>, r: Poll<S, E>)
    requires i < |p.receivers| && !c.gone(q.sink)
    requires q == After(c, p, i, m, q) && r == After(c, q, i, n, r)
    ensures r == After(c, p, i, m + n, r)
  {
    MovedTwice(p, i, m, n);
  }

  /** What a run of lines leaves: `r` is the poll loop, how many lines were given, and whether
      an exception ended the run. */
  ghost predicate Shape<S, E>(c: Consumer<S, E>, p: Poll<S, E>, i: nat, lines: seq<Str>, r: (Poll<S, E>, nat, bool))
    requires i < |p.receivers|
  {
    && r.1 <= |lines|
    && r.0 == After(c, p, i, Extent(if r.2 then lines[..r.1] else lines), r.0)
    && r.0.inputs == p.inputs + AsInputs(lines[..r.1])
    && (!r.2 && !c.gone(r.0.sink) ==> r.1 == |lines|)
  }

  lemma ShapeThrown<S, E>(c: Consumer<S, E>, p: Poll<S, E>, i: nat, lines: seq<Str>, q: Poll<S, E>)
    requires i < |p.receivers| && lines != []
    requires q == After(c, p, i, |lines[0]| + 1, q) && q.inputs == p.inputs + [Line(lines[0])]
    ensures Shape(c, p, i, lines, (q, 1, true))
  {
    var one := lines[..1];
    assert one == [lines[0]] && one[1..] == [];
    assert Extent(one) == |lines[0]| + 1 + Extent(one[1..]);
    assert AsInputs<E>(one) == [Line(lines[0])];
  }

  lemma ShapeGone<S, E>(c: Consumer<S, E>, p: Poll<S, E>, i: nat, lines: seq<Str>, q: Poll<S, E>)
    requires p.current == Some(i) && i < |p.receivers| && p.receivers[i].xo && lines != []
    requires c.gone(q.sink) && q == After(c, p, i, |lines[0]| + 1, q) && q.inputs == p.inputs + [Line(lines[0])]
    ensures i < |q.receivers| && Shape(c, p, i, lines, (Moved(q, i, Extent(lines[1..])), 1, false))
  {
    GoneThenMove(c, p, i, |lines[0]| + 1, Extent(lines[1..]), q);
    assert lines[..1] == [lines[0]] && AsInputs<E>(lines[..1]) == [Line(lines[0])];
  }

  lemma ShapeMore<S, E>(c: Consumer<S, E>, p: Poll<S, E>, i: nat, lines: seq<Str>, q: Poll<S, E>, r: (Poll<S, E>,
                        nat, bool))
    requires i < |p.receivers| == |q.receivers| && lines != [] && !c.gone(q.sink)
    requires q == After(c, p, i, |lines[0]| + 1, q) && q.inputs == p.inputs + [Line(lines[0])]
    requires Shape(c, q, i, lines[1..], r)
    ensures Shape(c, p, i, lines, (r.0, r.1 + 1, r.2))
  {
    var m, rest := |lines[0]| + 1, lines[1..];
    AfterTwo(c, p, i, m, Extent(if r.2 then rest[..r.1] else rest), q, r.0);
    MoreInputs(p.inputs, lines, r.1);
  }

  /** A run of lines goes to the connection one by one, up to the first that makes it let go
      of the transport or throw. */
  lemma {:induction false} FeedLinesShape<S, E>(c: Consumer<S, E>, p: Poll<S, E>, i: nat, lines: seq<Str>)
    requires p.current == Some(i) && i < |p.receivers| && p.receivers[i].xo && p.receivers[i].attached
    requires !p.isClosing && !c.gone(p.sink)
    ensures Shape(c, p, i, lines, FeedLines(c, p, i, lines))
    decreases |lines|
  {
    if lines == [] {
      MovedTwice(p, i, 0, 0);
      assert p.inputs + AsInputs(lines[..0]) == p.inputs;
    } else {
      FirstLineShape(c, p, i, lines[0]);
      var q := Feed(c, Moved(p, i, |lines[0]| + 1), Line(lines[0]));
      if c.line(p.sink, lines[0]).1 {
        ShapeThrown(c, p, i, lines, q);
      } else if q.isClosing {
        UnattendedLines(c, q, i, lines[1..]);
        ShapeGone(c, p, i, lines, q);
      } else {
        FeedLinesShape(c, q, i, lines[1..]);
        ShapeMore(c, p, i, lines, q, FeedLines(c, q, i, lines[1..]));
      }
    }
  }

  lemma GoneThenMove<S, E>(c: Consumer<S, E>, p: Poll<S, E>, i: nat, m: nat, n: nat, q: Poll<S, E>)
    requires p.current == Some(i) && i < |p.receivers| && p.receivers[i].xo
    requires c.gone(q.sink) && q == After(c, p, i, m, q)
    ensures Moved(q, i, n) == After(c, p, i, m + n, Moved(q, i, n))
  {
    AbortThenMove(Moved(p, i, m).(sink := q.sink, inputs := q.inputs), i, n);
    MovedTwice(p.(sink := q.sink, inputs := q.inputs), i, m, n);
  }

  lemma MoreInputs<E>(inputs: seq<Input<E>>, lines: seq<Str>, k: nat)
    requires lines != [] && k < |lines|
    ensures inputs + [Line(lines[0])] + AsInputs(lines[1..][..k]) == inputs + AsInputs(lines[..k + 1])
    ensures lines[..k + 1][0] == lines[0] && lines[..k + 1][1..] == lines[1..][..k]
  {
    AsInputsFirst<E>(lines, k + 1);
  }

  lemma FirstLineShape<S, E>(c: Consumer<S, E>, p: Poll<S, E>, i: nat, line: Str)
    requires p.current == Some(i) && i < |p.receivers| && p.receivers[i].xo && p.receivers[i].attached
    requires !p.isClosing && !c.gone(p.sink)
    ensures var q := Feed(c, Moved(p, i, |line| + 1), Line(line));
            && q == After(c, p, i, |line| + 1, q) && q.inputs == p.inputs + [Line(line)]
            && (q.isClosing <==> c.gone(q.sink)) && (q.receivers[i].attached <==> !q.isClosing)
            && (!q.isClosing ==> q.current == Some(i) && q.receivers[i].xo)
  {
  }

  /** The inputs from number `from` on came to a connection that had not let go. */
  ghost predicate Replays<S, E>(c: Consumer<S, E>, start: S, from: nat, q: Poll<S, E>) {
    && c.ok(q.sink) && q.sink == Replay(c, start, q.inputs)
    && forall k :: from <= k < |q.inputs| ==> !c.gone(Replay(c, start, q.inputs[..k]))
  }

  lemma ReplaysFirst<S(!new), E(!new)>(c: Consumer<S, E>, start: S, p: Poll<S, E>, i: nat, line: Str)
    requires i < |p.receivers| && Attended(p)
    requires LetsGo(c) && p.sink == Replay(c, start, p.inputs) && c.ok(p.sink) && !c.gone(p.sink)
    ensures var q := Feed(c, Moved(p, i, |line| + 1), Line(line));
            Replays(c, start, |p.inputs|, q) && q.inputs == p.inputs + [Line(line)]
  {
    FeedFacts(c, start, Moved(p, i, |line| + 1), Line(line));
    assert (p.inputs + [Line(line)])[..|p.inputs|] == p.inputs;
  }

  lemma ReplaysMore<S, E>(c: Consumer<S, E>, start: S, p: Poll<S, E>, q: Poll<S, E>, r: Poll<S, E>)
    requires p.inputs <= q.inputs <= r.inputs && |q.inputs| == |p.inputs| + 1
    requires Replays(c, start, |p.inputs|, q) && Replays(c, start, |q.inputs|, r)
    ensures Replays(c, start, |p.inputs|, r)
  {
    var n := |p.inputs|;
    assert r.inputs[..n] == q.inputs[..n];
  }

  lemma FeedLinesFirst<S, E>(c: Consumer<S, E>, p: Poll<S, E>, i: nat, lines: seq<Str>)
    requires i < |p.receivers| && p.receivers[i].attached && lines != []
    ensures var q := Feed(c, Moved(p, i, |lines[0]| + 1), Line(lines[0]));
            FeedLines(c, p, i, lines).0 == if c.line(p.sink, lines[0]).1 then q else FeedLines(c, q, i, lines[1..]).0
  {
  }

  lemma {:induction false} FeedLinesReplays<S(!new), E(!new)>(c: Consumer<S, E>, start: S, p: Poll<S, E>, i: nat,
                                              lines: seq<Str>)
    requires p.current == Some(i) && i < |p.receivers| && p.receivers[i].xo && p.receivers[i].attached
    requires LetsGo(c) && p.sink == Replay(c, start, p.inputs) && c.ok(p.sink) && !p.isClosing && !c.gone(p.sink)
    ensures var q := FeedLines(c, p, i, lines).0;
            p.inputs <= q.inputs && Replays(c, start, |p.inputs|, q)
    decreases |lines|
  {
    if lines != [] {
      FirstLineShape(c, p, i, lines[0]);
      ReplaysFirst(c, start, p, i, lines[0]);
      var q := Feed(c, Moved(p, i, |lines[0]| + 1), Line(lines[0]));
      FeedLinesFirst(c, p, i, lines);
      if !c.line(p.sink, lines[0]).1 {
        if q.isClosing {
          UnattendedLines(c, q, i, lines[1..]);
          assert FeedLines(c, p, i, lines).0.inputs == q.inputs && FeedLines(c, p, i, lines).0.sink == q.sink;
        } else {
          FeedLinesReplays(c, start, q, i, lines[1..]);
          ReplaysMore(c, start, p, q, FeedLines(c, q, i, lines[1..]).0);
        }
      }
    }
  }

  // Steps

  lemma AbortFacts<S, E>(p: Poll<S, E>)
    requires OneLive(p.receivers, p.current)
    ensures var q := Detached(p);
            && q.isClosing && q.current.None? && OneLive(q.receivers, q.current)
            && q == p.(isClosing := true, current := None, receivers := q.receivers, closes := q.closes)
            && |q.receivers| == |p.receivers|
            && q.closes == p.closes + (if p.current.Some? then 1 else 0)
            && forall i :: 0 <= i < |p.receivers| ==>
                 && q.receivers[i].bufPos == p.receivers[i].bufPos && q.receivers[i].started == p.receivers[i].started
                 && (q.receivers[i].open ==> p.receivers[i].open)
  {
  }

  /** The connection after an input that is not a line. */
  lemma OtherReplays<S(!new), E(!new)>(c: Consumer<S, E>, start: S, p: Poll<S, E>, event: E)
    requires LetsGo(c) && Replayed(c, start, p) && Attended(p)
    ensures var q := Feed(c, p, Other(event));
            && Replayed(c, start, q) && LinesOf(q.inputs) == LinesOf(p.inputs) && (p.isClosing ==> q.isClosing)
  {
    FeedFacts(c, start, p, Other(event));
    LinesOfSnoc(p.inputs, Other(event));
    var q := Feed(c, p, Other(event));
    assert forall k :: 0 <= k < |p.inputs| ==> q.inputs[..k] == p.inputs[..k];
  }

  lemma OtherShape<S(!new), E(!new)>(c: Consumer<S, E>, p: Poll<S, E>, event: E)
    requires Attended(p)
    ensures var q := Feed(c, p, Other(event));
            var fed := p.(sink := q.sink, inputs := q.inputs);
            q == if c.gone(q.sink) && !p.isClosing then Detached(fed) else fed
  {
  }

  /** An input that is not a line. */
  lemma ExternalKeeps<S(!new), E(!new)>(c: Consumer<S, E>, start: S, p: Poll<S, E>, event: E)
    requires LetsGo(c) && Inv(c, start, p)
    ensures Inv(c, start, Feed(c, p, Other(event)))
  {
    OtherReplays(c, start, p, event);
    OtherShape(c, p, event);
    var q := Feed(c, p, Other(event));
    AbortFacts(p.(sink := q.sink, inputs := q.inputs));
  }

  lemma Slices(text: Str, pos: nat, e: nat)
    requires IsLineStart(text, pos) && IsLineStart(text[pos..], e)
    ensures IsLineStart(text, pos + e) && IsLineStart(text[..pos + e], pos)
    ensures text[..pos + e][..pos] == text[..pos]
    ensures text[..pos + e][pos..] == text[pos..][..e]
    ensures text[pos + e..] == text[pos..][e..]
  {
  }

  /** Where the receiver stands after it has taken some lines of the unread text. */
  lemma Advance(text: Str, pos: nat, n: nat)
    requires IsLineStart(text, pos) && n <= |CompleteLines(text[pos..])|
    ensures var lines := CompleteLines(text[pos..]);
            var next := pos + Extent(lines[..n]);
            && IsLineStart(text, next)
            && CompleteLines(text[..next]) == CompleteLines(text[..pos]) + lines[..n]
            && CompleteLines(text[next..]) == lines[n..]
  {
    ExtentFits(text[pos..], n);
    var e := Extent(CompleteLines(text[pos..])[..n]);
    Slices(text, pos, e);
    LinesSplit(text[..pos + e], pos);
  }

  lemma AllLinesLast(texts: seq<Str>, text: Str)
    requires texts != []
    ensures var n := |texts| - 1;
            AllLines(texts[n := text]) == AllLines(texts[..n]) + CompleteLines(text)
  {
    var n := |texts| - 1;
    assert texts[n := text][..n] == texts[..n];
  }

  /** The lines given when the first `n` unread ones are added to them. */
  lemma GivenMore(texts: seq<Str>, text: Str, pos: nat, n: nat)
    requires texts != [] && IsLineStart(text, pos) && n <= |CompleteLines(text[pos..])|
    ensures var i := |texts| - 1;
            var lines := CompleteLines(text[pos..]);
            var given := AllLines(texts[..i]) + CompleteLines(text[..pos]) + lines[..n];
            && given <= AllLines(texts[i := text])
            && pos + Extent(lines[..n]) <= |text|
            && given == AllLines(texts[..i]) + CompleteLines(text[..pos + Extent(lines[..n])])
  {
    var i := |texts| - 1;
    var lines := CompleteLines(text[pos..]);
    AllLinesLast(texts, text);
    LinesSplit(text, pos);
    Advance(text, pos, n);
    Beginning(AllLines(texts[..i]), CompleteLines(text[..pos]), lines, n);
  }

  lemma Beginning<T>(a: seq<T>, b: seq<T>, c: seq<T>, n: nat)
    requires n <= |c|
    ensures a + b + c[..n] <= a + (b + c) && a + b + c[..n] == a + (b + c[..n])
  {
  }

  /** The shape of the poll loop after lines that only touched the connection. */
  lemma AfterFacts<S, E>(c: Consumer<S, E>, p: Poll<S, E>, i: nat, n: nat, q: Poll<S, E>)
    requires |p.texts| == |p.receivers| && OneLive(p.receivers, p.current) && p.current == Some(i) && !p.isClosing
    requires q == After(c, p, i, n, q)
    ensures q.texts == p.texts && |q.receivers| == |p.receivers| && OneLive(q.receivers, q.current)
    ensures (q.isClosing <==> c.gone(q.sink)) && (q.isClosing <==> q.current.None?)
    ensures q.closes == p.closes + (if q.isClosing then 1 else 0)
    ensures q.receivers[i].bufPos == p.receivers[i].bufPos + n
    ensures q.receivers[i].started == p.receivers[i].started && (q.receivers[i].open ==> p.receivers[i].open)
  {
    AbortFacts(Moved(p, i, n).(sink := q.sink, inputs := q.inputs));
  }

  lemma StillReplayed<S, E>(c: Consumer<S, E>, start: S, p: Poll<S, E>, q: Poll<S, E>)
    requires Replayed(c, start, p) && p.inputs <= q.inputs
    requires Replays(c, start, |p.inputs|, q) && (q.isClosing <==> c.gone(q.sink))
    ensures Replayed(c, start, q)
  {
    assert forall k :: 0 <= k < |p.inputs| ==> q.inputs[..k] == p.inputs[..k];
  }

  /** `onchunk` on the live receiver. */
  lemma ChunkKeeps<S(!new), E(!new)>(c: Consumer<S, E>, start: S, p: Poll<S, E>, more: Str)
    requires LetsGo(c) && Inv(c, start, p) && !p.isClosing
    ensures var i := |p.receivers| - 1;
            var (q, thrown) := OnChunk(c, p, i, 200, more);
            && Inv(c, start, q) && |q.receivers| == |p.receivers|
            && q.interrupted == thrown
            && q.receivers[i].started == p.receivers[i].started && (q.receivers[i].open ==> p.receivers[i].open)
  {
    var i := |p.receivers| - 1;
    var text, pos := p.texts[i] + more, p.receivers[i].bufPos;
    var lines := CompleteLines(text[pos..]);
    var p1 := p.(texts := p.texts[i := text]);
    var (q1, n, thrown) := FeedLines(c, p1, i, lines);
    FeedLinesShape(c, p1, i, lines);
    FeedLinesReplays(c, start, p1, i, lines);
    AfterFacts(c, p1, i, Extent(if thrown then lines[..n] else lines), q1);
    var q := OnChunk(c, p, i, 200, more).0;
    StillReplayed(c, start, p, q1);
    ChunkGives(p, q, text, pos, n, thrown);
  }

  lemma ChunkGives<S, E>(p: Poll<S, E>, q: Poll<S, E>, text: Str, pos: nat, n: nat, thrown: bool)
    requires |p.texts| == |p.receivers| > 0 && |q.receivers| == |p.receivers| && Given(p) && !p.isClosing
    requires var i := |p.texts| - 1;
             p.texts[i] <= text && pos == p.receivers[i].bufPos && q.texts == p.texts[i := text]
    requires n <= |CompleteLines(text[pos..])| && (!thrown && !q.isClosing ==> n == |CompleteLines(text[pos..])|)
    requires q.inputs == p.inputs + AsInputs(CompleteLines(text[pos..])[..n]) && q.interrupted == thrown
    requires var lines := CompleteLines(text[pos..]);
             q.receivers[|p.texts| - 1].bufPos == pos + Extent(if thrown then lines[..n] else lines)
    ensures Given(q)
  {
    var i := |p.texts| - 1;
    assert q.texts[..i] == p.texts[..i];
    LinesGiven(p, q, text, pos, n);
    ChunkLists(p.texts, text, pos, n, thrown, q.isClosing);
  }

  lemma ChunkLists(texts: seq<Str>, text: Str, pos: nat, n: nat, thrown: bool, closing: bool)
    requires texts != [] && IsLineStart(text, pos) && n <= |CompleteLines(text[pos..])|
    requires !thrown && !closing ==> n == |CompleteLines(text[pos..])|
    ensures var i, lines := |texts| - 1, CompleteLines(text[pos..]);
            var given := AllLines(texts[..i]) + CompleteLines(text[..pos]) + lines[..n];
            var next := pos + Extent(if thrown then lines[..n] else lines);
            && IsLineStart(text, next) && given <= AllLines(texts[i := text])
            && (!closing ==> given == AllLines(texts[..i]) + CompleteLines(text[..next]))
            && (!thrown ==> CompleteLines(text[next..]) == [])
  {
    var lines := CompleteLines(text[pos..]);
    var m := if thrown then n else |lines|;
    assert lines[..|lines|] == lines && lines[|lines|..] == [];
    GivenMore(texts, text, pos, n);
    Advance(text, pos, m);
  }

  lemma LinesGiven<S, E>(p: Poll<S, E>, q: Poll<S, E>, text: Str, pos: nat, n: nat)
    requires |p.texts| == |p.receivers| > 0 && Given(p) && !p.isClosing
    requires p.texts[|p.texts| - 1] <= text && pos == p.receivers[|p.texts| - 1].bufPos
    requires pos <= |text| && n <= |CompleteLines(text[pos..])|
    requires q.inputs == p.inputs + AsInputs(CompleteLines(text[pos..])[..n])
    ensures LinesOf(q.inputs)
         == AllLines(p.texts[..|p.texts| - 1]) + CompleteLines(text[..pos]) + CompleteLines(text[pos..])[..n]
  {
    LinesOfLines(p.inputs, CompleteLines(text[pos..])[..n]);
    assert text[..pos] == p.texts[|p.texts| - 1][..pos];
  }

  function Ended<S, E>(p: Poll<S, E>): Poll<S, E>
    requires p.receivers != []
  {
    var i := |p.receivers| - 1;
    p.(current := None, closes := p.closes + 1,
       receivers := p.receivers[i := p.receivers[i].(xo := false, attached := false)])
  }

  lemma DoneKeeps<S, E>(c: Consumer<S, E>, start: S, p: Poll<S, E>)
    requires Inv(c, start, p)
    ensures Inv(c, start, Done(p, |p.receivers| - 1))
  {
  }

  lemma AbortedStays<S, E>(q: Poll<S, E>, i: nat)
    requires i < |q.receivers| && !q.receivers[i].xo
    ensures q.(receivers := q.receivers[i := q.receivers[i].(xo := false)]) == q
  {
    assert q.receivers[i := q.receivers[i]] == q.receivers;
  }

  /** `onfinish` of a good response in terms of its last `onchunk`. */
  lemma FinishShape<S, E>(c: Consumer<S, E>, p: Poll<S, E>, i: nat, more: Str)
    requires i + 1 == |p.receivers| == |p.texts|
    ensures var (q, thrown) := OnChunk(c, Done(p, i), i, 200, more);
            var result := OnFinish(c, p, i, 200, more);
            && (thrown ==> result == q)
            && (!thrown && q.receivers[i].attached && !q.isClosing ==> result == ScheduleRecv(Ended(q)))
            && (!thrown && !q.receivers[i].attached && !q.receivers[i].xo ==> result == q)
  {
    var (q, thrown) := OnChunk(c, Done(p, i), i, 200, more);
    if !q.receivers[i].xo {
      AbortedStays(q, i);
    }
  }

  lemma FinishGood<S(!new), E(!new)>(c: Consumer<S, E>, start: S, p: Poll<S, E>, more: Str)
    requires LetsGo(c) && Inv(c, start, p) && !p.isClosing && p.receivers[|p.receivers| - 1].started
    ensures Inv(c, start, OnFinish(c, p, |p.receivers| - 1, 200, more))
  {
    var i := |p.receivers| - 1;
    DoneKeeps(c, start, p);
    ChunkKeeps(c, start, Done(p, i), more);
    FinishShape(c, p, i, more);
    var (q, thrown) := OnChunk(c, Done(p, i), i, 200, more);
    if !thrown && !q.isClosing {
      NextPollKeeps(c, start, q);
    }
  }

  lemma FinishBadShape<S, E>(c: Consumer<S, E>, p: Poll<S, E>, i: nat, status: int, more: Str)
    requires i + 1 == |p.receivers| == |p.texts| && p.receivers[i].attached && !p.isClosing && status != 200
    ensures OnFinish(c, p, i, status, more) == Feed(c, Ended(Done(p, i)), Lost)
  {
    assert Ended(Done(p, i)).receivers
           == Done(p, i).receivers[i := p.receivers[i].(xo := false, attached := false, open := false)];
  }

  lemma LostReplays<S(!new), E(!new)>(c: Consumer<S, E>, start: S, p: Poll<S, E>)
    requires LetsGo(c) && Replayed(c, start, p) && !p.isClosing && p.current.None?
    ensures var q := Feed(c, p, Lost);
            Replayed(c, start, q) && q == p.(sink := c.lose(p.sink).0, inputs := p.inputs + [Lost], isClosing := true)
  {
    ReplaySnoc(c, start, p.inputs, Lost);
    var inputs := p.inputs + [Lost];
    assert forall k :: 0 <= k < |p.inputs| ==> inputs[..k] == p.inputs[..k];
  }

  lemma LostGives<S(!new), E(!new)>(c: Consumer<S, E>, p: Poll<S, E>)
    requires |p.texts| == |p.receivers| > 0 && Given(p) && !p.isClosing && p.current.None? && c.gone(c.lose(p.sink).0)
    ensures Given(Feed(c, p, Lost))
  {
    LinesOfSnoc(p.inputs, Lost);
  }

  lemma FinishBad<S(!new), E(!new)>(c: Consumer<S, E>, start: S, p: Poll<S, E>, status: int, more: Str)
    requires LetsGo(c) && Inv(c, start, p) && !p.isClosing && status != 200
    ensures Inv(c, start, OnFinish(c, p, |p.receivers| - 1, status, more))
  {
    var i := |p.receivers| - 1;
    FinishBadShape(c, p, i, status, more);
    var closed := Ended(Done(p, i));
    LostReplays(c, start, closed);
    LostGives(c, closed);
  }

  /** A response that was read to its end makes room for the next request. */
  lemma NextPollKeeps<S, E>(c: Consumer<S, E>, start: S, q: Poll<S, E>)
    requires Inv(c, start, q) && !q.isClosing && !q.interrupted
    requires q.receivers[|q.receivers| - 1].started && !q.receivers[|q.receivers| - 1].open
    ensures Inv(c, start, ScheduleRecv(Ended(q)))
  {
    var i := |q.receivers| - 1;
    LinesSplit(q.texts[i], q.receivers[i].bufPos);
    var texts := q.texts + [[]];
    assert texts[..|q.texts|] == q.texts;
    assert CompleteLines([]) == [] && AllLines(texts) == AllLines(q.texts) + [];
    assert AllLines(q.texts) + [] == AllLines(q.texts);
  }

  lemma OpenIsLast<S, E>(c: Consumer<S, E>, start: S, p: Poll<S, E>, i: nat)
    requires Inv(c, start, p) && i < |p.receivers| && p.receivers[i].xo
    ensures i == |p.receivers| - 1 && !p.isClosing
  {
  }

  lemma FinishKeeps<S(!new), E(!new)>(c: Consumer<S, E>, start: S, p: Poll<S, E>, status: int, more: Str)
    requires LetsGo(c) && Inv(c, start, p) && !p.isClosing && p.receivers[|p.receivers| - 1].started
    ensures Inv(c, start, OnFinish(c, p, |p.receivers| - 1, status, more))
  {
    if status == 200 {
      FinishGood(c, start, p, more);
    } else {
      FinishBad(c, start, p, status, more);
    }
  }

  lemma ChunkStepKeeps<S(!new), E(!new)>(c: Consumer<S, E>, start: S, p: Poll<S, E>, i: nat, status: int, more: Str)
    requires LetsGo(c) && Inv(c, start, p)
    ensures Inv(c, start, Step(c, p, Chunk(i, status, more)))
  {
    if i < |p.receivers| && p.receivers[i].open && p.receivers[i].xo && status == 200 {
      OpenIsLast(c, start, p, i);
      ChunkKeeps(c, start, p, more);
    } else {
      assert Step(c, p, Chunk(i, status, more)) == p;
    }
  }

  lemma FinishStepKeeps<S(!new), E(!new)>(c: Consumer<S, E>, start: S, p: Poll<S, E>, i: nat, status: int, more: Str)
    requires LetsGo(c) && Inv(c, start, p)
    ensures Inv(c, start, Step(c, p, Finish(i, status, more)))
  {
    if i < |p.receivers| && p.receivers[i].open {
      if p.receivers[i].xo {
        OpenIsLast(c, start, p, i);
        FinishKeeps(c, start, p, status, more);
      } else {
        DoneKeeps(c, start, p);
      }
    } else {
      assert Step(c, p, Finish(i, status, more)) == p;
    }
  }

  lemma BeginKeeps<S, E>(c: Consumer<S, E>, start: S, p: Poll<S, E>, i: nat)
    requires Inv(c, start, p)
    ensures Inv(c, start, Step(c, p, NetEvent<E>.Begin(i)))
  {
    if i < |p.receivers| && !p.receivers[i].started {
      assert i == |p.receivers| - 1;
    }
  }

  lemma StepKeeps<S(!new), E(!new)>(c: Consumer<S, E>, start: S, p: Poll<S, E>, e: NetEvent<E>)
    requires LetsGo(c) && Inv(c, start, p)
    ensures Inv(c, start, Step(c, p, e))
  {
    match e
    case Begin(i) => BeginKeeps(c, start, p, i);
    case Chunk(i, status, more) => ChunkStepKeeps(c, start, p, i, status, more);
    case Finish(i, status, more) => FinishStepKeeps(c, start, p, i, status, more);
    case External(event) => ExternalKeeps(c, start, p, event);
  }

  lemma StartInv<S, E>(c: Consumer<S, E>, sink: S)
    requires !c.gone(sink) && c.ok(sink)
    ensures Inv(c, sink, Start<S, E>(sink))
  {
    var none: seq<Str> := [[]];
    assert none[..0] == [] && CompleteLines([]) == [];
    assert AllLines(none) == AllLines(none[..0]) + CompleteLines([]);
  }

  lemma {:induction false} RunKeeps<S(!new), E(!new)>(c: Consumer<S, E>, start: S, p: Poll<S, E>, es: seq<NetEvent<E>>)
    requires LetsGo(c) && Inv(c, start, p)
    ensures Inv(c, start, Run(c, p, es))
    decreases |es|
  {
    if es != [] {
      StepKeeps(c, start, p, es[0]);
      RunKeeps(c, start, Step(c, p, es[0]), es[1..]);
    }
  }

  // Results

  /** The connection was given the complete lines of the responses, in order and once each,
      until it let go of the transport. Until then it was given all of them, but for what an
      exception in its own handler left unread past the receiver's position, which is the
      start of a line. */
  ghost predicate Arrived<S, E>(c: Consumer<S, E>, sink: S, p: Poll<S, E>) {
    && p.sink == Replay(c, sink, p.inputs) && c.ok(p.sink)
    && LinesOf(p.inputs) <= AllLines(p.texts)
    && (forall k :: 0 <= k < |p.inputs| && p.inputs[k].Line? ==> !c.gone(Replay(c, sink, p.inputs[..k])))
    && |p.receivers| == |p.texts| > 0
    && var n := |p.texts| - 1;
       var text, pos := p.texts[n], p.receivers[n].bufPos;
       && IsLineStart(text, pos)
       && (!c.gone(p.sink) ==> LinesOf(p.inputs) == AllLines(p.texts[..n]) + CompleteLines(text[..pos]))
       && (!c.gone(p.sink) && !p.interrupted ==>
           CompleteLines(text[pos..]) == [] && LinesOf(p.inputs) == AllLines(p.texts))
  }

  lemma InvArrived<S, E>(c: Consumer<S, E>, sink: S, p: Poll<S, E>)
    requires Inv(c, sink, p)
    ensures Arrived(c, sink, p)
  {
    var n := |p.texts| - 1;
    LinesSplit(p.texts[n], p.receivers[n].bufPos);
  }

  /** At most one receiver is listened to, none once the transport is let go; at most one
      request is under way; and each receiver's close is handled exactly once. */
  lemma OneReceiver<S(!new), E(!new)>(c: Consumer<S, E>, sink: S, es: seq<NetEvent<E>>)
    requires LetsGo(c) && c.ok(sink) && !c.gone(sink)
    ensures var p := Run(c, Start<S, E>(sink), es);
            && (forall i, j :: 0 <= i < j < |p.receivers| ==>
                  !(p.receivers[i].xo && p.receivers[j].xo) && !(p.receivers[i].open && p.receivers[j].open))
            && (c.gone(p.sink) ==> forall i :: 0 <= i < |p.receivers| ==>
                !p.receivers[i].xo && !p.receivers[i].attached)
            && p.closes == |p.receivers| - (if c.gone(p.sink) then 0 else 1)
  {
    StartInv<S, E>(c, sink);
    RunKeeps(c, sink, Start(sink), es);
  }

  /** Clean-up runs the close handler of the poll loop, yet nothing reaches the connection and
      no receiver is made. */
  lemma AbortIsSilent<S(!new), E(!new)>(c: Consumer<S, E>, start: S, p: Poll<S, E>)
    requires Inv(c, start, p) && !p.isClosing
    ensures var q := Abort(c, p);
            && q.sink == p.sink && q.inputs == p.inputs && q.texts == p.texts && |q.receivers| == |p.receivers|
            && q.closes == p.closes + 1 && q.current.None?
            && forall i :: 0 <= i < |q.receivers| ==>
               !q.receivers[i].xo && !q.receivers[i].attached && !q.receivers[i].open
  {
    assert Abort(c, p) == Detached(p);
  }

  /** Only requests have changed. */
  ghost predicate Silent<S(!new), E(!new)>(p: Poll<S, E>, q: Poll<S, E>) {
    && q == p.(receivers := q.receivers) && |q.receivers| == |p.receivers|
    && forall i :: 0 <= i < |p.receivers| ==>
         q.receivers[i] == p.receivers[i].(started := q.receivers[i].started, open := q.receivers[i].open)
  }

  lemma GoneStep<S(!new), E(!new)>(c: Consumer<S, E>, start: S, p: Poll<S, E>, e: NetEvent<E>)
    requires Inv(c, start, p) && !e.External? && c.gone(p.sink)
    ensures Silent(p, Step(c, p, e))
  {
    assert forall i :: 0 <= i < |p.receivers| ==> !p.receivers[i].xo;
  }

  /** Once the transport is let go, the browser can change nothing but the state of requests. */
  lemma {:induction false} GoneIsSilent<S(!new), E(!new)>(c: Consumer<S, E>, start: S, p: Poll<S, E>,
                                          es: seq<NetEvent<E>>)
    requires LetsGo(c) && Inv(c, start, p) && c.gone(p.sink)
    requires forall i :: 0 <= i < |es| ==> !es[i].External?
    ensures Silent(p, Run(c, p, es))
    decreases |es|
  {
    if es != [] {
      var q := Step(c, p, es[0]);
      StepKeeps(c, start, p, es[0]);
      GoneStep(c, start, p, es[0]);
      GoneIsSilent(c, start, q, es[1..]);
      SilentTwice(p, q, Run(c, q, es[1..]));
    }
  }

  lemma SilentTwice<S(!new), E(!new)>(p: Poll<S, E>, q: Poll<S, E>, r: Poll<S, E>)
    requires Silent(p, q) && Silent(q, r)
    ensures Silent(p, r)
  {
  }

  // Requests that outlive the transport

  ghost predicate UnderWay<S(!new), E(!new)>(p: Poll<S, E>) {
    exists i :: 0 <= i < |p.receivers| && p.receivers[i].open
  }

  /** The last request has started, and is not under way any more. */
  ghost predicate Over<S(!new), E(!new)>(p: Poll<S, E>)
    requires p.receivers != []
  {
    p.receivers[|p.receivers| - 1].started && !p.receivers[|p.receivers| - 1].open
  }

  ghost predicate UnderWayAfter<S(!new), E(!new)>(c: Consumer<S, E>, p: Poll<S, E>, es: seq<NetEvent<E>>) {
    UnderWay(Run(c, p, es))
  }

  /** With no request under way or to be started, the browser has nothing to report. */
  lemma IdleStep<S, E>(c: Consumer<S, E>, p: Poll<S, E>, e: NetEvent<E>)
    requires forall i :: 0 <= i < |p.receivers| ==> p.receivers[i].started && !p.receivers[i].open
    requires !e.External?
    ensures Step(c, p, e) == p
  {
  }

  lemma OverMeansIdle<S(!new), E(!new)>(c: Consumer<S, E>, start: S, p: Poll<S, E>)
    requires Inv(c, start, p) && Over(p)
    ensures forall i :: 0 <= i < |p.receivers| ==> p.receivers[i].started && !p.receivers[i].open
  {
  }

  lemma OverExternal<S(!new), E(!new)>(c: Consumer<S, E>, start: S, p: Poll<S, E>, event: E)
    requires LetsGo(c) && Inv(c, start, p) && Over(p)
    ensures var q := Feed(c, p, Other(event));
            && Inv(c, start, q) && |q.receivers| == |p.receivers| && q.texts == p.texts && Over(q)
            && LinesOf(q.inputs) == LinesOf(p.inputs) && (p.isClosing ==> q.isClosing)
  {
    ExternalKeeps(c, start, p, event);
    OtherReplays(c, start, p, event);
    OtherShape(c, p, event);
  }

  lemma ClosingStep<S(!new), E(!new)>(c: Consumer<S, E>, start: S, p: Poll<S, E>, e: NetEvent<E>)
    requires LetsGo(c) && Inv(c, start, p) && p.isClosing && Over(p)
    ensures Inv(c, start, Step(c, p, e)) && Step(c, p, e).isClosing && Over(Step(c, p, e))
  {
    if e.External? {
      OverExternal(c, start, p, e.event);
    } else {
      OverMeansIdle(c, start, p);
      IdleStep(c, p, e);
    }
  }

  lemma {:induction false} OverStays<S(!new), E(!new)>(c: Consumer<S, E>, start: S, p: Poll<S, E>, es: seq<NetEvent<E>>)
    requires LetsGo(c) && Inv(c, start, p) && p.isClosing && Over(p)
    ensures !UnderWay(Run(c, p, es))
    decreases |es|
  {
    if es != [] {
      ClosingStep(c, start, p, es[0]);
      OverStays(c, start, Step(c, p, es[0]), es[1..]);
    }
  }

  /** When the connection lets its transport go, a request can still be under way at some later
      time if and only if the one it aborts had not started: its start is not cancelled. */
  lemma RequestOutlivesIff<S(!new), E(!new)>(c: Consumer<S, E>, start: S, p: Poll<S, E>, event: E)
    requires LetsGo(c) && Inv(c, start, p) && !p.isClosing && c.gone(c.other(p.sink, event).0)
    ensures var q := Step(c, p, NetEvent.External(event));
            (exists es :: UnderWayAfter(c, q, es)) <==> !p.receivers[|p.receivers| - 1].started
  {
    LetGo(c, start, p, event);
    Outlives(c, start, Step(c, p, NetEvent.External(event)));
  }

  lemma Outlives<S(!new), E(!new)>(c: Consumer<S, E>, start: S, q: Poll<S, E>)
    requires LetsGo(c) && Inv(c, start, q) && q.isClosing && !q.receivers[|q.receivers| - 1].open
    ensures (exists es :: UnderWayAfter(c, q, es)) <==> !q.receivers[|q.receivers| - 1].started
  {
    var i := |q.receivers| - 1;
    if q.receivers[i].started {
      forall es ensures !UnderWayAfter(c, q, es) {
        OverStays(c, start, q, es);
      }
    } else {
      StartsAnyway(c, q, i);
    }
  }

  lemma StartsAnyway<S(!new), E(!new)>(c: Consumer<S, E>, q: Poll<S, E>, i: nat)
    requires i < |q.receivers| && !q.receivers[i].started
    ensures UnderWayAfter(c, q, [NetEvent<E>.Begin(i)])
  {
    var es := [NetEvent<E>.Begin(i)];
    var none: seq<NetEvent<E>> := [];
    assert es[1..] == none;
    var r := Step(c, q, es[0]);
    assert r.receivers[i].open;
    assert Run(c, r, none) == r;
    assert Run(c, q, es) == Run(c, r, es[1..]);
  }

  lemma LetGo<S(!new), E(!new)>(c: Consumer<S, E>, start: S, p: Poll<S, E>, event: E)
    requires LetsGo(c) && Inv(c, start, p) && !p.isClosing && c.gone(c.other(p.sink, event).0)
    ensures var q := Step(c, p, NetEvent.External(event));
            && Inv(c, start, q) && q.isClosing && |q.receivers| == |p.receivers|
            && var last := |p.receivers| - 1;
               q.receivers[last].started == p.receivers[last].started && !q.receivers[last].open
  {
    ExternalKeeps(c, start, p, event);
  }

  /** The end of a response leads to the next request if and only if the response was good,
      the connection is still there afterwards, and no handler threw on its last lines. */
  lemma PollsAgainIff<S(!new), E(!new)>(c: Consumer<S, E>, start: S, p: Poll<S, E>, status: int, more: Str)
    requires LetsGo(c) && Inv(c, start, p) && !p.isClosing && p.receivers[|p.receivers| - 1].open
    ensures var i := |p.receivers| - 1;
            var (chunk, thrown) := OnChunk(c, Done(p, i), i, status, more);
            |Step(c, p, Finish(i, status, more)).receivers| == |p.receivers| + 1
            <==> (status == 200 && !thrown && !c.gone(chunk.sink))
  {
    var i := |p.receivers| - 1;
    DoneKeeps(c, start, p);
    if status == 200 {
      ChunkKeeps(c, start, Done(p, i), more);
    }
  }

  lemma StalledStep<S(!new), E(!new)>(c: Consumer<S, E>, start: S, p: Poll<S, E>, e: NetEvent<E>)
    requires LetsGo(c) && Inv(c, start, p) && Over(p)
    ensures var q := Step(c, p, e);
            && Inv(c, start, q) && |q.receivers| == |p.receivers| && q.texts == p.texts && Over(q)
            && LinesOf(q.inputs) == LinesOf(p.inputs)
            && (!e.External? ==> q == p)
  {
    if e.External? {
      OverExternal(c, start, p, e.event);
    } else {
      OverMeansIdle(c, start, p);
      IdleStep(c, p, e);
    }
  }

  /** When a handler does throw there, the loop has stopped for good: whatever happens, to the
      connection or in the browser, there is no further request and no further line. */
  lemma {:induction false} StalledStays<S(!new), E(!new)>(c: Consumer<S, E>, start: S, p: Poll<S, E>,
                                          es: seq<NetEvent<E>>)
    requires LetsGo(c) && Inv(c, start, p) && Over(p)
    ensures var q := Run(c, p, es);
            |q.receivers| == |p.receivers| && q.texts == p.texts && LinesOf(q.inputs) == LinesOf(p.inputs)
    decreases |es|
  {
    if es != [] {
      StalledStep(c, start, p, es[0]);
      StalledStays(c, start, Step(c, p, es[0]), es[1..]);
    }
  }
}
