/** What the server's scripts and the browser tell a JSONP transport, told from its events
    alone, and that the connection is given just that. */
module JsonpAnswers {
  import opened Text
  import R = Receive
  import opened Jsonp
  import RS = ReceiveSafety

  /** The number of the receive that is outstanding, whether an error was reported of it and is
      still to be acted on, and the lines so far. */
  datatype Told = Told(current: nat, errorSeen: bool, errorTimer: bool, lines: seq<Str>)

  /** The frame with which an event ends the outstanding receive: what the server's script is
      called with, or what stands for a script that was loaded or given up without a call. */
  function Ending<E>(r: Told, e: Happening<E>): Option<Str> {
    match e
    case ServerCall(i, frame) => if i == r.current then Some(frame) else None
    case Load(i) => if i == r.current then Some(CloseText(true)) else None
    case Error(_) => None
    case ErrorTimer(i) => if i == r.current && r.errorTimer then Some(CloseText(true)) else None
    case ReadyStateChange(i, loaded, onclick) =>
      if i != r.current || !loaded then None
      else if onclick.Some? then onclick
      else Some(CloseText(true))
    case Timeout(i) => if i == r.current then Some(CloseText(true)) else None
    case External(_) => None
  }

  /** An empty frame is a heart-beat, and no line. */
  function Ended(r: Told, frame: Str): Told {
    Told(r.current + 1, false, false, r.lines + if frame == [] then [] else [frame])
  }

  function Tell<E>(r: Told, e: Happening<E>): Told {
    match Ending(r, e)
    case Some(frame) => Ended(r, frame)
    case None =>
      if e.Error? && e.i == r.current && !r.errorSeen then r.(errorSeen := true, errorTimer := true) else r
  }

  function TellAll<E>(r: Told, es: seq<Happening<E>>): Told
    decreases |es|
  {
    if es == [] then r else TellAll(Tell(r, es[0]), es[1..])
  }

  const NOTHING: Told := Told(0, false, false, [])

  function Lines<E>(es: seq<Happening<E>>): seq<Str> {
    TellAll(NOTHING, es).lines
  }

  /** The frames that the receiver makes up. */
  lemma CloseTextIs(broken: bool)
    ensures CloseText(broken) == Ascii(if broken then "c[1006]" else "c[1000]")
  {
    assert Numeral(1, 10) == [0x31];
    assert Numeral(10, 10) == [0x31, 0x30];
    assert Numeral(100, 10) == [0x31, 0x30, 0x30];
    assert Numeral(1000, 10) == [0x31, 0x30, 0x30, 0x30];
    assert Numeral(1006, 10) == [0x31, 0x30, 0x30, 0x36];
  }

  // The transport follows

  /** The outstanding receive is the one that is told of. */
  ghost predicate Outstanding<S, E>(s: State<S, E>, r: Told) {
    && s.requests != [] && s.recvStop.Some? && r.current == |s.requests| - 1
    && var x := s.requests[|s.requests| - 1];
       x.errorSeen == r.errorSeen && x.errorTimer == r.errorTimer && x.timeout && !x.loadedOkay
  }

  ghost predicate Follows<S, E>(s: State<S, E>, r: Told) {
    && RS.LinesOf(s.inputs) <= r.lines
    && (s.recvStop.Some? ==> Outstanding(s, r) && RS.LinesOf(s.inputs) == r.lines)
  }

  /** A receive that ends gives the connection its frame, unless that is empty. */
  lemma CloseGives<S(!new), E(!new)>(c: R.Consumer<S, E>, start: S, s: State<S, E>, frame: Str)
    requires R.LetsGo(c) && Inv(c, start, s) && s.recvStop.Some?
    ensures var i := |s.requests| - 1;
            var t := CloseScript(c, s, i, frame).0;
            && i < |t.requests| && !t.requests[i].script && !t.requests[i].hook && t.requests[i].answer == Some(frame)
            && t.inputs == s.inputs + (if frame == [] then [] else [R.Line(frame)])
            && (t.recvStop.Some? ==> |t.requests| == i + 2)
  {
    CloseShape(c, s, frame);
    assert s.inputs + [] == s.inputs;
  }

  lemma NewReceive<S(!new), E(!new)>(c: R.Consumer<S, E>, start: S, s: State<S, E>, frame: Str)
    requires R.LetsGo(c) && Inv(c, start, s) && s.recvStop.Some?
    ensures var t := CloseScript(c, s, |s.requests| - 1, frame).0;
            t.recvStop.Some? ==>
              && t.requests != []
              && t.requests[|t.requests| - 1] == Request(true, true, 0, false, false, false, true, 0, None)
  {
    CloseShape(c, s, frame);
  }

  lemma CloseFollows<S(!new), E(!new)>(c: R.Consumer<S, E>, start: S, s: State<S, E>, r: Told, frame: Str)
    requires R.LetsGo(c) && Inv(c, start, s) && s.recvStop.Some?
    requires r.current == |s.requests| - 1 && RS.LinesOf(s.inputs) == r.lines
    ensures Follows(CloseScript(c, s, |s.requests| - 1, frame).0, Ended(r, frame))
  {
    CloseGives(c, start, s, frame);
    NewReceive(c, start, s, frame);
    if frame == [] {
      assert s.inputs + [] == s.inputs && r.lines + [] == r.lines;
    } else {
      RS.LinesOfSnoc(s.inputs, R.Line(frame));
    }
  }

  /** The event that ends the outstanding receive is a closing of its script. */
  lemma EndingCloses<S(!new), E(!new)>(c: R.Consumer<S, E>, start: S, s: State<S, E>, r: Told, e: Happening<E>)
    requires R.LetsGo(c) && Inv(c, start, s) && Outstanding(s, r) && Ending(r, e).Some?
    ensures var noted := Noted(s, e);
            && Inv(c, start, noted) && |noted.requests| == |s.requests| && noted.inputs == s.inputs
            && noted.recvStop == s.recvStop
            && Step(c, s, e) == CloseScript(c, noted, |s.requests| - 1, Ending(r, e).value).0
  {
    var i := |s.requests| - 1;
    NoteKeeps(c, start, s, i, Noted(s, e).requests[i]);
    assert s.requests[i := s.requests[i]] == s.requests;
    if e.ReadyStateChange? && e.onclick.Some? {
      CloseGives(c, start, Noted(s, e), e.onclick.value);
    }
  }

  /** What an event notes of the outstanding receive before it ends it. */
  function Noted<S, E>(s: State<S, E>, e: Happening<E>): State<S, E>
    requires s.requests != []
  {
    var i := |s.requests| - 1;
    if e.ErrorTimer? then Set(s, i, s.requests[i].(errorTimer := false))
    else if e.ReadyStateChange? && e.onclick.Some? then Set(s, i, s.requests[i].(loadedOkay := true))
    else s
  }

  lemma StepFollows<S(!new), E(!new)>(c: R.Consumer<S, E>, start: S, s: State<S, E>, r: Told, e: Happening<E>)
    requires R.LetsGo(c) && Inv(c, start, s) && Follows(s, r)
    ensures Follows(Step(c, s, e), Tell(r, e))
  {
    if s.recvStop.None? {
      SilentStep(c, start, s, r, e);
    } else if Ending(r, e).Some? {
      EndingCloses(c, start, s, r, e);
      CloseFollows(c, start, Noted(s, e), r, Ending(r, e).value);
    } else {
      WaitingStep(c, start, s, r, e);
    }
  }

  /** No receive before number `n` is outstanding. */
  ghost predicate OverBefore<S, E>(s: State<S, E>, n: nat) {
    forall i :: 0 <= i < n && i < |s.requests| ==> !s.requests[i].script && !s.requests[i].timeout
  }

  lemma InvOver<S, E>(c: R.Consumer<S, E>, start: S, s: State<S, E>)
    requires Inv(c, start, s)
    ensures OverBefore(s, if s.recvStop.Some? then |s.requests| - 1 else |s.requests|)
  {
  }

  /** With no receive outstanding, the transport gives the connection nothing. */
  lemma SilentEvent<S, E>(c: R.Consumer<S, E>, s: State<S, E>, e: Happening<E>)
    requires OverBefore(s, |s.requests|) && !e.External?
    ensures var t := Step(c, s, e);
            t.inputs == s.inputs && t.recvStop == s.recvStop
  {
  }

  /** Another event is no line, and leaves the outstanding receive alone or ends it. */
  lemma ExternalIsNoLine<S(!new), E(!new)>(c: R.Consumer<S, E>, start: S, s: State<S, E>, event: E)
    requires R.LetsGo(c) && Inv(c, start, s)
    ensures var t := Step(c, s, Happening.External(event));
            && RS.LinesOf(t.inputs) == RS.LinesOf(s.inputs)
            && (t.recvStop.Some? ==> t.recvStop == s.recvStop && t.requests == s.requests)
  {
    RS.LinesOfSnoc(s.inputs, R.Other(event));
    ExternalShape(c, s, event);
  }

  lemma ExternalShape<S, E>(c: R.Consumer<S, E>, s: State<S, E>, event: E)
    requires OneOutstanding(s)
    ensures var t := s.(sink := c.other(s.sink, event).0, inputs := s.inputs + [R.Other(event)]);
            Step(c, s, Happening.External(event)) == if c.gone(t.sink) && !s.isClosing then Aborted(t) else t
  {
    var t := s.(sink := c.other(s.sink, event).0, inputs := s.inputs + [R.Other(event)]);
    if c.gone(t.sink) && !s.isClosing {
      CleanupShape(c, t);
    }
  }

  lemma SilentStep<S(!new), E(!new)>(c: R.Consumer<S, E>, start: S, s: State<S, E>, r: Told, e: Happening<E>)
    requires R.LetsGo(c) && Inv(c, start, s) && s.recvStop.None? && RS.LinesOf(s.inputs) <= r.lines
    ensures var t := Step(c, s, e);
            t.recvStop.None? && RS.LinesOf(t.inputs) == RS.LinesOf(s.inputs) && r.lines <= Tell(r, e).lines
  {
    if e.External? {
      ExternalIsNoLine(c, start, s, e.event);
    } else {
      InvOver(c, start, s);
      SilentEvent(c, s, e);
    }
  }

  /** An event that does not end the outstanding receive. */
  lemma WaitingEvent<S, E>(c: R.Consumer<S, E>, s: State<S, E>, r: Told, e: Happening<E>)
    requires Outstanding(s, r) && OverBefore(s, |s.requests| - 1) && s.requests[|s.requests| - 1].script
    requires !e.External? && Ending(r, e).None?
    ensures var t := Step(c, s, e);
            t.inputs == s.inputs && Outstanding(t, Tell(r, e))
  {
  }

  lemma WaitingStep<S(!new), E(!new)>(c: R.Consumer<S, E>, start: S, s: State<S, E>, r: Told, e: Happening<E>)
    requires R.LetsGo(c) && Inv(c, start, s) && Outstanding(s, r) && RS.LinesOf(s.inputs) == r.lines
    requires Ending(r, e).None?
    ensures Follows(Step(c, s, e), Tell(r, e))
  {
    if e.External? {
      ExternalIsNoLine(c, start, s, e.event);
    } else {
      InvOver(c, start, s);
      WaitingEvent(c, s, r, e);
    }
  }

  lemma {:induction false} RunFollows<S(!new), E(!new)>(c: R.Consumer<S, E>, start: S, s: State<S, E>, r: Told,
                                                        es: seq<Happening<E>>)
    requires R.LetsGo(c) && Inv(c, start, s) && Follows(s, r)
    ensures Follows(Run(c, s, es), TellAll(r, es))
    decreases |es|
  {
    if es != [] {
      StepKeeps(c, start, s, es[0]);
      StepFollows(c, start, s, r, es[0]);
      RunFollows(c, start, Step(c, s, es[0]), Tell(r, es[0]), es[1..]);
    }
  }

  /** Under every interleaving of server calls, loads, delayed errors, ready-state changes,
      time-outs and clean-up: a receive calls its user callback at most once, and exactly once
      when its script is gone; then its hook is left behind if and only if it was aborted; at
      most one receive is outstanding, none after clean-up; and the connection is given the
      frames that the events end receives with, in order and once each: all of them as long as
      a receive is outstanding, and the beginning of them when the connection has let go of the
      transport or has thrown. */
  lemma ReceivesOnce<S(!new), E(!new)>(c: R.Consumer<S, E>, sink: S, es: seq<Happening<E>>)
    requires R.LetsGo(c) && c.ok(sink) && !c.gone(sink)
    ensures var s := Run(c, Start<S, E>(sink), es);
            && (forall i :: 0 <= i < |s.requests| ==> s.requests[i].called == if s.requests[i].script then 0 else 1)
            && (forall i :: 0 <= i < |s.requests| && !s.requests[i].script ==>
                (s.requests[i].hook <==> s.requests[i].aborting == 2))
            && (forall i, j :: 0 <= i < j < |s.requests| ==> !(s.requests[i].script && s.requests[j].script))
            && (c.gone(s.sink) ==> forall i :: 0 <= i < |s.requests| ==> !s.requests[i].script)
            && s.sink == R.Replay(c, sink, s.inputs) && c.ok(s.sink)
            && RS.LinesOf(s.inputs) == Answers(s.requests)
            && RS.LinesOf(s.inputs) <= Lines(es)
            && (s.recvStop.Some? ==> !c.gone(s.sink) && RS.LinesOf(s.inputs) == Lines(es))
  {
    StartInv<S, E>(c, sink);
    RunKeeps(c, sink, Start(sink), es);
    RunFollows(c, sink, Start(sink), NOTHING, es);
  }

  /** One event: the frame that it ends the outstanding receive with is the receive's answer,
      and is what the connection is given. */
  lemma AnswerIsGiven<S(!new), E(!new)>(c: R.Consumer<S, E>, start: S, s: State<S, E>, r: Told, e: Happening<E>)
    requires R.LetsGo(c) && Inv(c, start, s) && Outstanding(s, r) && Ending(r, e).Some?
    ensures var i, frame, t := r.current, Ending(r, e).value, Step(c, s, e);
            && i < |t.requests| && t.requests[i].answer == Some(frame) && !t.requests[i].hook
            && t.inputs == s.inputs + (if frame == [] then [] else [R.Line(frame)])
  {
    EndingCloses(c, start, s, r, e);
    CloseGives(c, start, Noted(s, e), Ending(r, e).value);
  }
}
