/** The receiving side of the XHR transports: `XhrReceiver`, which cuts a growing response
    into lines, and `Polling`, which starts the next request when one ends. The connection
    above is any consumer of lines; it may tear the transport down while it handles one. */
module Receive {
  import opened Text

  // Lines

  /** The lines of `t` that end with LF, without it. */
  function CompleteLines(t: Str): seq<Str> {
    if t == [] then []
    else
      var lines := CompleteLines(t[1..]);
      if t[0] == LF then [[]] + lines
      else if lines == [] then []
      else [[t[0]] + lines[0]] + lines[1..]
  }

  /** The units that lines take in a text, their LFs included. */
  function Extent(lines: seq<Str>): nat {
    if lines == [] then 0 else |lines[0]| + 1 + Extent(lines[1..])
  }

  ghost predicate IsLineStart(t: Str, pos: nat) {
    pos <= |t| && (pos > 0 ==> t[pos - 1] == LF)
  }

  lemma {:induction false} ConsLine(line: Str, rest: Str)
    requires LF !in line
    ensures CompleteLines(line + [LF] + rest) == [line] + CompleteLines(rest)
  {
    var t := line + [LF] + rest;
    if line == [] {
      assert t[1..] == rest;
    } else {
      ConsLine(line[1..], rest);
      assert t[1..] == line[1..] + [LF] + rest;
      assert [line[0]] + line[1..] == line;
    }
  }

  lemma {:induction false} NoLine(t: Str)
    requires LF !in t
    ensures CompleteLines(t) == []
  {
    if t != [] {
      NoLine(t[1..]);
    }
  }

  lemma FirstLine(t: Str) returns (line: Str, rest: Str)
    requires LF in t
    ensures LF !in line && t == line + [LF] + rest && CompleteLines(t) == [line] + CompleteLines(rest)
  {
    var i := IndexOf(t, LF);
    line, rest := t[..i], t[i + 1..];
    ConsLine(line, rest);
    assert t == line + [LF] + rest;
  }

  /** Complete lines put back together. */
  function Unlines(lines: seq<Str>): Str {
    if lines == [] then [] else lines[0] + [LF] + Unlines(lines[1..])
  }

  lemma {:induction false} UnlinesExtent(lines: seq<Str>)
    ensures |Unlines(lines)| == Extent(lines)
    ensures lines != [] ==> Unlines(lines) != [] && Unlines(lines)[Extent(lines) - 1] == LF
  {
    if lines != [] {
      UnlinesExtent(lines[1..]);
    }
  }

  lemma {:induction false} UnlinesConcat(a: seq<Str>, b: seq<Str>)
    ensures Unlines(a + b) == Unlines(a) + Unlines(b)
  {
    if a == [] {
      assert a + b == b;
    } else {
      UnlinesConcat(a[1..], b);
      assert (a + b)[1..] == a[1..] + b;
    }
  }

  lemma UnlinesFirst(lines: seq<Str>, rest: Str)
    requires lines != []
    ensures Unlines(lines) + rest == lines[0] + [LF] + (Unlines(lines[1..]) + rest)
  {
  }

  lemma Regroup<T>(s: seq<T>, t: seq<T>)
    requires s != []
    ensures [s[0]] + (s[1..] + t) == s + t
  {
  }

  lemma {:induction false} LinesOfUnlines(lines: seq<Str>, rest: Str)
    requires forall i :: 0 <= i < |lines| ==> LF !in lines[i]
    ensures CompleteLines(Unlines(lines) + rest) == lines + CompleteLines(rest)
  {
    if lines == [] {
      assert Unlines(lines) + rest == rest;
    } else {
      var more := Unlines(lines[1..]) + rest;
      LinesOfUnlines(lines[1..], rest);
      ConsLine(lines[0], more);
      UnlinesFirst(lines, rest);
      Regroup(lines, CompleteLines(rest));
    }
  }

  /** A text is its complete lines and a last piece without LF. */
  lemma {:induction false} Anatomy(t: Str) returns (tail: Str)
    ensures LF !in tail && t == Unlines(CompleteLines(t)) + tail
    ensures forall i :: 0 <= i < |CompleteLines(t)| ==> LF !in CompleteLines(t)[i]
    decreases |t|
  {
    if LF !in t {
      tail := t;
      NoLine(t);
    } else {
      var line, rest := FirstLine(t);
      tail := Anatomy(rest);
      assert ([line] + CompleteLines(rest))[1..] == CompleteLines(rest);
    }
  }

  lemma LinesAndTail(lines: seq<Str>, tail: Str)
    requires LF !in tail && forall i :: 0 <= i < |lines| ==> LF !in lines[i]
    ensures CompleteLines(Unlines(lines) + tail) == lines
  {
    LinesOfUnlines(lines, tail);
    NoLine(tail);
    assert lines + [] == lines;
  }

  lemma Halves(t: Str, a: seq<Str>, b: seq<Str>, tail: Str)
    requires t == Unlines(a + b) + tail
    ensures IsLineStart(t, Extent(a)) && t[..Extent(a)] == Unlines(a) && t[Extent(a)..] == Unlines(b) + tail
  {
    UnlinesConcat(a, b);
    UnlinesExtent(a);
    assert t == Unlines(a) + (Unlines(b) + tail);
  }

  /** The first lines of a text are a part of it that ends where the next line starts. */
  lemma ExtentFits(t: Str, n: nat)
    requires n <= |CompleteLines(t)|
    ensures var e := Extent(CompleteLines(t)[..n]);
            && IsLineStart(t, e)
            && CompleteLines(t[..e]) == CompleteLines(t)[..n]
            && CompleteLines(t[e..]) == CompleteLines(t)[n..]
  {
    var tail := Anatomy(t);
    var lines := CompleteLines(t);
    var a, b := lines[..n], lines[n..];
    assert lines == a + b;
    Halves(t, a, b, tail);
    LinesAndTail(a, []);
    LinesAndTail(b, tail);
    assert Unlines(a) + [] == Unlines(a);
  }

  lemma TailEnds(s: Str, tail: Str)
    requires tail != [] && LF !in tail
    ensures (s + tail)[|s + tail| - 1] != LF
  {
  }

  /** Cutting a text at the start of a line cuts its list of lines. */
  lemma LinesSplit(t: Str, pos: nat)
    requires IsLineStart(t, pos)
    ensures CompleteLines(t) == CompleteLines(t[..pos]) + CompleteLines(t[pos..])
  {
    var tail := Anatomy(t[..pos]);
    var lines := CompleteLines(t[..pos]);
    if tail != [] {
      TailEnds(Unlines(lines), tail);
    }
    assert t == Unlines(lines) + t[pos..];
    LinesOfUnlines(lines, t[pos..]);
  }

  // The connection above

  /** `line` is `ri._didMessage(data)`, `lose` is `ri._didClose(1006)`, `other` is anything
      else that happens to the connection. The results say whether an exception was thrown.
      `gone` says that the connection has called `doCleanup` on this transport, `ok` is an
      invariant of the connection. */
  datatype Consumer<!S, !E> = Consumer(
    line: (S, Str) -> (S, bool),
    lose: S -> (S, bool),
    other: (S, E) -> (S, bool),
    gone: S -> bool,
    ok: S -> bool)

  datatype Input<E> = Line(text: Str) | Lost | Other(event: E)

  function Consume<S, E>(c: Consumer<S, E>, s: S, input: Input<E>): (S, bool) {
    match input
    case Line(text) => c.line(s, text)
    case Lost => c.lose(s)
    case Other(event) => c.other(s, event)
  }

  function Replay<S, E>(c: Consumer<S, E>, start: S, inputs: seq<Input<E>>): S {
    if inputs == [] then start
    else Consume(c, Replay(c, start, inputs[..|inputs| - 1]), inputs[|inputs| - 1]).0
  }

  /** The connection keeps its invariant; told that its transport is lost, it lets go of it;
      once it has let go it does not come back to it. */
  ghost predicate LetsGo<S(!new), E(!new)>(c: Consumer<S, E>) {
    && (forall s, text :: c.ok(s) ==> c.ok(c.line(s, text).0))
    && (forall s :: c.ok(s) ==> c.ok(c.lose(s).0) && c.gone(c.lose(s).0))
    && (forall s, e :: c.ok(s) ==> c.ok(c.other(s, e).0) && (c.gone(s) ==> c.gone(c.other(s, e).0)))
  }

  // Receivers and their poll loop

  /** `xo`: the request object is still there. `attached`: the poll loop's handlers are.
      `started`: the delayed start of the request has run; `open`: the request is under way. */
  datatype Receiver = Receiver(bufPos: nat, xo: bool, attached: bool, started: bool, open: bool)

  /** `texts` holds, per receiver, the part of a status-200 response seen so far, `inputs`
      what the connection was given; `closes` counts the runs of the close handler;
      `interrupted` says that an exception ended the last `onchunk`. */
  datatype Poll<S, E> = Poll(
    sink: S,
    isClosing: bool,
    current: Option<nat>,
    receivers: seq<Receiver>,
    closes: nat,
    texts: seq<Str>,
    inputs: seq<Input<E>>,
    interrupted: bool)

  /** Events of the browser: the delayed start of request `i` runs, its response has grown by
      `more`, or has ended after growing by it. `External` is anything else that happens to
      the connection. */
  datatype NetEvent<E> =
    | Begin(i: nat)
    | Chunk(i: nat, status: int, more: Str)
    | Finish(i: nat, status: int, more: Str)
    | External(event: E)

  function ScheduleRecv<S, E>(p: Poll<S, E>): Poll<S, E> {
    p.(current := Some(|p.receivers|),
       receivers := p.receivers + [Receiver(0, true, true, false, false)],
       texts := p.texts + [[]])
  }

  function Start<S, E>(sink: S): Poll<S, E> {
    ScheduleRecv(Poll(sink, false, None, [], 0, [], [], false))
  }

  function Level<S, E>(p: Poll<S, E>): nat {
    if p.isClosing then 0 else 1
  }

  /** While a request object is there, the poll loop listens to it. */
  predicate Attended<S, E>(p: Poll<S, E>) {
    p.current.Some? && p.current.value < |p.receivers| && p.receivers[p.current.value].xo ==>
      p.receivers[p.current.value].attached
  }

  /** What an abort comes to. */
  function Detached<S, E>(p: Poll<S, E>): (q: Poll<S, E>)
    ensures |q.receivers| == |p.receivers| && |q.texts| == |p.texts|
  {
    var q := p.(isClosing := true);
    if p.current.None? || p.current.value >= |p.receivers| || !p.receivers[p.current.value].xo then q
    else
      var r := p.receivers[p.current.value];
      q.(current := None, closes := p.closes + 1,
         receivers := p.receivers[p.current.value := r.(xo := false, attached := false, open := false)])
  }

  /** `doCleanup` of the transport: `Polling.abort` and under it `XhrReceiver.abort`, which
      closes the request, if it has started, and then dispatches a close event that runs the
      handler of the poll loop at once. */
  function Abort<S, E>(c: Consumer<S, E>, p: Poll<S, E>): (q: Poll<S, E>)
    requires !p.isClosing
    ensures |q.receivers| == |p.receivers| && |q.texts| == |p.texts|
    ensures Attended(p) ==> q == Detached(p)
    decreases Level(p), 0
  {
    var closing := p.(isClosing := true);
    if p.current.None? || p.current.value >= |p.receivers| || !p.receivers[p.current.value].xo then closing
    else
      var i, r := p.current.value, p.receivers[p.current.value];
      var closed := closing.(receivers := p.receivers[i := r.(open := false)]);
      var told := if r.attached then OnClose(c, closed, i, false) else closed;
      told.(receivers := told.receivers[i := told.receivers[i].(xo := false)])
  }

  /** The connection after an input; if it lets the transport go, that is an abort. */
  function Feed<S, E>(c: Consumer<S, E>, p: Poll<S, E>, input: Input<E>): (r: Poll<S, E>)
    ensures |r.receivers| == |p.receivers| && |r.texts| == |p.texts|
    ensures Attended(p) ==>
              var q := p.(sink := Consume(c, p.sink, input).0, inputs := p.inputs + [input]);
              r == if c.gone(q.sink) && !p.isClosing then Detached(q) else q
    decreases Level(p), 1
  {
    var sink := Consume(c, p.sink, input).0;
    var q := p.(sink := sink, inputs := p.inputs + [input]);
    if c.gone(sink) && !p.isClosing then Abort(c, q) else q
  }

  /** The close handler of the poll loop. */
  function OnClose<S, E>(c: Consumer<S, E>, p: Poll<S, E>, i: nat, permanent: bool): (r: Poll<S, E>)
    requires i < |p.receivers|
    ensures p.isClosing ==> |r.receivers| == |p.receivers| && |r.texts| == |p.texts|
    decreases Level(p), 2
  {
    var x := p.receivers[i];
    var q := p.(current := None, closes := p.closes + 1, receivers := p.receivers[i := x.(attached := false)]);
    if p.isClosing then q
    else if permanent then Feed(c, q, Lost)
    else ScheduleRecv(q)
  }

  /** `buf_pos += n` in receiver `i` */
  function Moved<S, E>(p: Poll<S, E>, i: nat, n: nat): (q: Poll<S, E>)
    requires i < |p.receivers|
    ensures |q.receivers| == |p.receivers|
  {
    var r := p.receivers[i];
    p.(receivers := p.receivers[i := r.(bufPos := r.bufPos + n)])
  }

  /** The loop of `onchunk` over the lines that are complete: the position moves past a line,
      then the line goes to whoever is attached. An exception leaves the loop; an abort lets
      it run on over lines that nobody receives. Also how many lines were given. */
  function FeedLines<S, E>(c: Consumer<S, E>, p: Poll<S, E>, i: nat, lines: seq<Str>): (r: (Poll<S, E>, nat, bool))
    requires i < |p.receivers|
    ensures |r.0.receivers| == |p.receivers| && |r.0.texts| == |p.texts| && r.1 <= |lines|
    decreases |lines|
  {
    if lines == [] then (p, 0, false)
    else
      var moved := Moved(p, i, |lines[0]| + 1);
      if !p.receivers[i].attached then
        var (q, n, thrown) := FeedLines(c, moved, i, lines[1..]);
        (q, 0, thrown)
      else
        var q := Feed(c, moved, Line(lines[0]));
        if c.line(p.sink, lines[0]).1 then (q, 1, true)
        else
          var (r, n, thrown) := FeedLines(c, q, i, lines[1..]);
          (r, n + 1, thrown)
  }

  /** What is unread of the text of receiver `i`. */
  function Unread<S, E>(p: Poll<S, E>, i: nat): Str
    requires i < |p.receivers| == |p.texts|
  {
    var text, pos := p.texts[i], p.receivers[i].bufPos;
    if pos <= |text| then text[pos..] else []
  }

  /** `onchunk` */
  function OnChunk<S, E>(c: Consumer<S, E>, p: Poll<S, E>, i: nat, status: int, more: Str): (r: (Poll<S, E>, bool))
    requires i < |p.receivers| == |p.texts|
    ensures |r.0.receivers| == |p.receivers| && |r.0.texts| == |p.texts|
  {
    if status != 200 then (p, false)
    else
      var grown := p.(texts := p.texts[i := p.texts[i] + more]);
      var (q, n, thrown) := FeedLines(c, grown, i, CompleteLines(Unread(grown, i)));
      (q.(interrupted := thrown), thrown)
  }

  /** The request of receiver `i` has ended. */
  function Done<S, E>(p: Poll<S, E>, i: nat): (q: Poll<S, E>)
    requires i < |p.receivers|
    ensures |q.receivers| == |p.receivers|
  {
    p.(receivers := p.receivers[i := p.receivers[i].(open := false)])
  }

  /** `onfinish`: an exception thrown by the last lines skips the rest. */
  function OnFinish<S, E>(c: Consumer<S, E>, p: Poll<S, E>, i: nat, status: int, more: Str): Poll<S, E>
    requires i < |p.receivers| == |p.texts|
  {
    var (q, thrown) := OnChunk(c, Done(p, i), i, status, more);
    if thrown then q
    else
      var r := q.receivers[i];
      var ended := q.(receivers := q.receivers[i := r.(xo := false)]);
      if r.attached then OnClose(c, ended, i, status != 200) else ended
  }

  function Begun<S, E>(p: Poll<S, E>, i: nat): (q: Poll<S, E>)
    requires i < |p.receivers|
    ensures |q.receivers| == |p.receivers|
  {
    p.(receivers := p.receivers[i := p.receivers[i].(started := true, open := true)])
  }

  /** Closing a request before its delayed start removes the listeners, but the start runs all
      the same. A request that was closed reports to nobody. */
  function Step<S, E>(c: Consumer<S, E>, p: Poll<S, E>, e: NetEvent<E>): Poll<S, E> {
    match e
    case Begin(i) =>
      if i < |p.receivers| && !p.receivers[i].started then Begun(p, i) else p
    case Chunk(i, status, more) =>
      if i < |p.receivers| == |p.texts| && p.receivers[i].open && p.receivers[i].xo
      then OnChunk(c, p, i, status, more).0 else p
    case Finish(i, status, more) =>
      if i < |p.receivers| == |p.texts| && p.receivers[i].open then
        if p.receivers[i].xo then OnFinish(c, p, i, status, more) else Done(p, i)
      else p
    case External(event) => Feed(c, p, Other(event))
  }

  function Run<S, E>(c: Consumer<S, E>, p: Poll<S, E>, es: seq<NetEvent<E>>): Poll<S, E>
    decreases |es|
  {
    if es == [] then p else Run(c, Step(c, p, es[0]), es[1..])
  }
}
