/** From the server to the STOMP callbacks: frames sent as messages of SockJS frames, over a
    session of any transport, shown, read and dispatched again. */
module Arrival {
  import opened Text
  import opened Json
  import Quote
  import opened Connection
  import Frames = StompFrame
  import RT = StompRoundTrip
  import Client = StompClient
  import H = StompHandler
  import Safety = ConnectionSafety
  import P = Protocols
  import R = Receive
  import RS = ReceiveSafety
  import Responses
  import W = WebSocket
  import J = Jsonp
  import JsonpAnswers
  import St = Stack

  // What the server sends

  /** The messages in a frame. */
  function Carried(frame: Frame): seq<Str> {
    match frame
    case ArrayFrame(payload) => payload
    case MessageFrame(data) => [data]
    case _ => []
  }

  predicate Opened(decode: St.Decoder, lines: seq<Str>) {
    exists i :: 0 <= i < |lines| && decode(lines[i]) == OpenFrame
  }

  /** The messages sent in the lines of a session: those after the frame that opens it. */
  function Sent(decode: St.Decoder, lines: seq<Str>): seq<Str> {
    if lines == [] then []
    else
      var before, last := lines[..|lines| - 1], lines[|lines| - 1];
      Sent(decode, before) + if Opened(decode, before) then Carried(decode(last)) else []
  }

  lemma OpenedSnoc(decode: St.Decoder, lines: seq<Str>, line: Str)
    ensures Opened(decode, lines + [line]) <==> Opened(decode, lines) || decode(line) == OpenFrame
  {
    var all := lines + [line];
    if Opened(decode, lines) {
      var i :| 0 <= i < |lines| && decode(lines[i]) == OpenFrame;
      assert all[i] == lines[i];
    }
    assert all[|lines|] == line;
  }

  lemma SentSnoc(decode: St.Decoder, lines: seq<Str>, line: Str)
    ensures Sent(decode, lines + [line])
            == Sent(decode, lines) + if Opened(decode, lines) then Carried(decode(line)) else []
  {
    assert (lines + [line])[..|lines|] == lines;
  }

  lemma {:induction false} SentOnlyOpened(decode: St.Decoder, lines: seq<Str>)
    requires !Opened(decode, lines)
    ensures Sent(decode, lines) == []
    decreases |lines|
  {
    if lines != [] {
      var before, last := lines[..|lines| - 1], lines[|lines| - 1];
      assert before + [last] == lines;
      OpenedSnoc(decode, before, last);
      SentOnlyOpened(decode, before);
    }
  }

  lemma {:induction false} SentOfPrefix(decode: St.Decoder, a: seq<Str>, b: seq<Str>)
    requires a <= b
    ensures Sent(decode, a) <= Sent(decode, b)
    decreases |b|
  {
    if |a| < |b| {
      SentOfPrefix(decode, a, b[..|b| - 1]);
    } else {
      assert a == b;
    }
  }

  // What the user is shown

  /** The messages a user has been shown. */
  function Shown(log: seq<Event>): seq<Str> {
    if log == [] then []
    else
      var last := log[|log| - 1];
      Shown(log[..|log| - 1]) + if last.MessageEvent? then [last.data] else []
  }

  /** No handler throws. */
  ghost predicate NoThrow(h: Handler) {
    forall log :: !H.AnyThrows(h(log))
  }

  lemma ShownSnoc(log: seq<Event>, e: Event)
    ensures Shown(log + [e]) == Shown(log) + if e.MessageEvent? then [e.data] else []
  {
    assert (log + [e])[..|log|] == log;
  }

  lemma {:induction false} ShownMessages(log: seq<Event>, ms: seq<Str>)
    ensures Shown(log + Safety.Messages(ms)) == Shown(log) + ms
    decreases |ms|
  {
    if ms == [] {
      assert log + Safety.Messages(ms) == log;
    } else {
      var n := |ms| - 1;
      ShownMessages(log, ms[..n]);
      MessagesLast(log, ms);
      ShownSnoc(log + Safety.Messages(ms[..n]), MessageEvent(ms[n]));
      Assoc(Shown(log), ms[..n], [ms[n]]);
      assert ms[..n] + [ms[n]] == ms;
    }
  }

  lemma MessagesLast(log: seq<Event>, ms: seq<Str>)
    requires ms != []
    ensures var n := |ms| - 1;
            log + Safety.Messages(ms) == log + Safety.Messages(ms[..n]) + [MessageEvent(ms[n])]
  {
  }

  // One frame

  /** With handlers that do not throw, a connection that is still open has shown all. */
  lemma {:induction false} ShowsAllOrCloses(s: State, payload: seq<Str>, h: Handler, enabled: set<P.Protocol>)
    requires Safety.Inv(s) && s.readyState == OPEN && NoThrow(h)
    ensures Deliver(s, payload, h, enabled).state.readyState == OPEN ==> Safety.Seen(h, s.log, payload) == |payload|
    decreases |payload|
  {
    if payload != [] {
      var event := MessageEvent(payload[0]);
      var next := s.(log := s.log + [event]);
      var first := DispatchIfOpen(s, event, h, enabled);
      Safety.DispatchIfOpenKeeps(s, event, h, enabled);
      Safety.PerformStops(next, h(next.log), enabled);
      Safety.PerformThrowsIff(next, h(next.log), enabled);
      assert first == Perform(next, h(next.log), enabled);
      assert !first.thrown;
      if Safety.Stops(h, next.log) {
        Safety.ClosedDelivers(first.state, payload[1..], h, enabled);
      } else {
        Safety.DispatchKeeps(s, event, h, enabled);
        ShowsAllOrCloses(first.state, payload[1..], h, enabled);
      }
    }
  }

  lemma ArrayShows(s: State, payload: seq<Str>, h: Handler, enabled: set<P.Protocol>)
    requires Safety.Inv(s) && s.readyState == OPEN && NoThrow(h)
    ensures var t := Deliver(s, payload, h, enabled).state;
            && Shown(t.log) <= Shown(s.log) + payload
            && (t.readyState == OPEN ==> Shown(t.log) == Shown(s.log) + payload)
  {
    var n := Safety.Seen(h, s.log, payload);
    Safety.ArrayIsCut(s, payload, h, enabled);
    ShownMessages(s.log, payload[..n]);
    ShowsAllOrCloses(s, payload, h, enabled);
    assert payload[..|payload|] == payload;
  }

  lemma OpeningShowsNothing(s: State, h: Handler, enabled: set<P.Protocol>)
    requires Safety.Inv(s) && s.readyState == CONNECTING && s.transport.Some?
    ensures var t := DidMessage(s, OpenFrame, h, enabled).state;
            Shown(t.log) == [] && t.readyState != CONNECTING
  {
    Safety.DispatchKeeps(s.(timer := None, readyState := OPEN), OpenEvent, h, enabled);
    ShownSnoc([], OpenEvent);
    assert [] + [OpenEvent] == [OpenEvent];
  }

  lemma WhileConnecting(s: State, frame: Frame, h: Handler, enabled: set<P.Protocol>)
    requires Safety.Inv(s) && s.readyState == CONNECTING && s.transport.Some?
    ensures var t := DidMessage(s, frame, h, enabled).state;
            && Shown(t.log) == []
            && (t.readyState == OPEN ==> frame == OpenFrame)
            && (t.readyState == CONNECTING && t.tried == s.tried ==> frame != OpenFrame)
  {
    match frame
    case OpenFrame => OpeningShowsNothing(s, h, enabled);
    case ArrayFrame(payload) => Safety.ClosedDelivers(s, payload, h, enabled);
    case MessageFrame(_) =>
    case CloseFrame(code) => Safety.DidCloseKeeps(s, code, false, enabled);
    case HeartbeatFrame =>
    case UnknownFrame =>
    case BrokenFrame =>
  }

  lemma MessageShows(s: State, data: Str, h: Handler, enabled: set<P.Protocol>)
    requires Safety.Inv(s) && s.readyState == OPEN
    ensures Shown(DidMessage(s, MessageFrame(data), h, enabled).state.log) == Shown(s.log) + [data]
  {
    Safety.DispatchKeeps(s, MessageEvent(data), h, enabled);
    ShownSnoc(s.log, MessageEvent(data));
  }

  lemma WhileOpen(s: State, frame: Frame, h: Handler, enabled: set<P.Protocol>)
    requires Safety.Inv(s) && s.readyState == OPEN && NoThrow(h)
    ensures var t := DidMessage(s, frame, h, enabled).state;
            && Shown(t.log) <= Shown(s.log) + Carried(frame)
            && (t.readyState == OPEN ==> Shown(t.log) == Shown(s.log) + Carried(frame))
  {
    match frame
    case OpenFrame => Safety.DidCloseKeeps(s, Some(1006), false, enabled);
    case ArrayFrame(payload) => ArrayShows(s, payload, h, enabled);
    case MessageFrame(data) => MessageShows(s, data, h, enabled);
    case CloseFrame(code) => Safety.DidCloseKeeps(s, code, false, enabled);
    case HeartbeatFrame =>
      Safety.DispatchKeeps(s, HeartbeatEvent, h, enabled);
      ShownSnoc(s.log, HeartbeatEvent);
    case UnknownFrame =>
    case BrokenFrame =>
  }

  /** What is not a frame from the transport shows no message and opens nothing. */
  lemma OthersShowNothing(config: Config, h: Handler, s: State, o: Occurrence)
    requires Safety.Inv(s) && !s.infoPending
    requires s.readyState != CLOSED ==> !o.what.FrameArrived?
    ensures var t := Step(config, h, s, o).state;
            Shown(t.log) == Shown(s.log) && (s.readyState != CLOSED ==> t.log == s.log)
  {
    var n := s.(now := o.at);
    if s.readyState == CLOSED {
      Safety.StepKeeps(config, h, s, o);
      CloseShowsNothing(s, Step(config, h, s, o).state);
    } else {
      match o.what
      case TransportFailed => Safety.DidCloseKeeps(n, Some(1006), false, o.enabled);
      case PostFailed => Safety.DidCloseKeeps(n, Some(1006), false, o.enabled);
      case TimerFired => Safety.DidCloseKeeps(n, Some(2007), false, o.enabled);
      case UserCalls(calls) => Safety.PerformKeeps(n, calls, o.enabled);
      case _ =>
    }
  }

  lemma CloseShowsNothing(s: State, t: State)
    requires Safety.Inv(s) && s.readyState == CLOSED && Safety.Forward(s, t)
    ensures Shown(t.log) == Shown(s.log)
  {
    if |t.log| > |s.log| {
      var e := s.delayed[0];
      assert (t.log + t.delayed)[|s.log|] == (s.log + s.delayed)[|s.log|] == e;
      assert |t.log| == |s.log| + 1;
      assert t.log == s.log + [e];
      ShownSnoc(s.log, e);
    } else {
      assert t.log == s.log;
    }
  }

  // Runs

  /** While the connection has made no other transport: it is open if and only if the server
      has opened the session and it has not closed since; what the user has been shown is
      what was sent, up to the close. */
  ghost predicate ShowsLines(decode: St.Decoder, gen: nat, s: State, lines: seq<Str>) {
    && St.Ok(gen, s)
    && (|s.tried| == gen ==>
          && (s.readyState == CONNECTING ==> !Opened(decode, lines))
          && (s.readyState == OPEN ==> Opened(decode, lines) && Shown(s.log) == Sent(decode, lines))
          && Shown(s.log) <= Sent(decode, lines))
  }

  lemma LineShows(config: Config, h: Handler, decode: St.Decoder, gen: nat, s: St.Sink, lines: seq<Str>, line: Str)
    requires ShowsLines(decode, gen, s.conn, lines) && NoThrow(h) && gen > 0
    ensures ShowsLines(decode, gen, St.Above(config, h, decode, gen).line(s, line).0.conn, lines + [line])
  {
    SentSnoc(decode, lines, line);
    if !St.Gone(gen, s.conn) {
      FrameShows(decode, h, gen, s.conn, lines, line, s.enabled);
    }
  }

  lemma FrameShows(decode: St.Decoder, h: Handler, gen: nat, s: State, lines: seq<Str>, line: Str,
                   enabled: set<P.Protocol>)
    requires ShowsLines(decode, gen, s, lines) && NoThrow(h) && gen > 0 && !St.Gone(gen, s)
    ensures ShowsLines(decode, gen, DidMessage(s, decode(line), h, enabled).state, lines + [line])
  {
    SentSnoc(decode, lines, line);
    OpenedSnoc(decode, lines, line);
    Safety.DidMessageKeeps(s, decode(line), h, enabled);
    if s.readyState == CONNECTING {
      SentOnlyOpened(decode, lines);
      WhileConnecting(s, decode(line), h, enabled);
    } else {
      WhileOpen(s, decode(line), h, enabled);
    }
  }

  lemma LossShows(config: Config, h: Handler, decode: St.Decoder, gen: nat, s: St.Sink, lines: seq<Str>)
    requires ShowsLines(decode, gen, s.conn, lines)
    ensures ShowsLines(decode, gen, St.Above(config, h, decode, gen).lose(s).0.conn, lines)
  {
    if s.conn.readyState != CLOSED {
      Safety.DidCloseKeeps(s.conn, Some(1006), false, s.enabled);
    }
  }

  lemma OtherShows(config: Config, h: Handler, decode: St.Decoder, gen: nat, s: St.Sink, lines: seq<Str>, o: Occurrence)
    requires ShowsLines(decode, gen, s.conn, lines)
    ensures ShowsLines(decode, gen, St.Above(config, h, decode, gen).other(s, o).0.conn, lines)
  {
    Safety.StepKeeps(config, h, s.conn, o);
    if |s.conn.tried| == gen && !(o.what.FrameArrived? && !St.Gone(gen, s.conn)) {
      OthersShowNothing(config, h, s.conn, o);
    }
  }

  lemma {:induction false} ReplayShows(config: Config, h: Handler, decode: St.Decoder, gen: nat, start: St.Sink,
                                       inputs: seq<R.Input<Occurrence>>)
    requires Starts(gen, start.conn) && NoThrow(h)
    ensures ShowsLines(decode, gen, R.Replay(St.Above(config, h, decode, gen), start, inputs).conn, RS.LinesOf(inputs))
    decreases |inputs|
  {
    var c := St.Above(config, h, decode, gen);
    if inputs != [] {
      var before, last := inputs[..|inputs| - 1], inputs[|inputs| - 1];
      assert before + [last] == inputs;
      RS.LinesOfSnoc(before, last);
      RS.ReplaySnoc(c, start, before, last);
      ReplayShows(config, h, decode, gen, start, before);
      var s, lines := R.Replay(c, start, before), RS.LinesOf(before);
      match last
      case Line(text) => LineShows(config, h, decode, gen, s, lines, text);
      case Lost =>
        LossShows(config, h, decode, gen, s, lines);
        assert lines + [] == lines;
      case Other(o) =>
        OtherShows(config, h, decode, gen, s, lines, o);
        assert lines + [] == lines;
    }
  }

  /** A connection that has just made its transport number `gen`. */
  ghost predicate Starts(gen: nat, s: State) {
    Safety.Inv(s) && s.readyState == CONNECTING && s.transport.Some? && |s.tried| == gen
  }

  /** As long as the connection has made no other transport, the user has been shown what was
      sent, in order, up to a close; and all of it while the connection is open, if the
      transport has handed on `all` lines. */
  ghost predicate ShowsSent(decode: St.Decoder, gen: nat, s: State, lines: seq<Str>, all: bool) {
    |s.tried| == gen ==>
      && Shown(s.log) <= Sent(decode, lines)
      && (s.readyState == OPEN && all ==> Shown(s.log) == Sent(decode, lines))
  }

  lemma ShowsSentSoFar(decode: St.Decoder, gen: nat, s: State, lines: seq<Str>, whole: seq<Str>, all: bool)
    requires ShowsLines(decode, gen, s, lines) && lines <= whole
    requires |s.tried| == gen && s.readyState == OPEN && all ==> lines == whole
    ensures ShowsSent(decode, gen, s, whole, all)
  {
    SentOfPrefix(decode, lines, whole);
  }

  /** Whatever the server sends over XHR, in lines that are decoded in any way, over any cutting
      of any number of responses, and whatever else happens to the connection: with handlers
      that do not throw, the user is shown the messages sent after the opening frame. */
  lemma MessagesReachUser(config: Config, h: Handler, decode: St.Decoder, gen: nat, start: St.Sink,
                          es: seq<R.NetEvent<Occurrence>>, p: R.Poll<St.Sink, Occurrence>)
    requires Starts(gen, start.conn) && NoThrow(h)
    requires p == R.Run(St.Above(config, h, decode, gen), R.Start<St.Sink, Occurrence>(start), es)
    ensures ShowsSent(decode, gen, p.sink.conn, Responses.Lines(es), !p.interrupted)
  {
    var c := St.Above(config, h, decode, gen);
    St.ConnectionLetsGo(config, h, decode, gen);
    St.AboveMeans(config, h, decode, gen, start);
    Responses.LinesArrive(c, start, es);
    St.AboveMeans(config, h, decode, gen, p.sink);
    ReplayShows(config, h, decode, gen, start, p.inputs);
    ShowsSentSoFar(decode, gen, p.sink.conn, RS.LinesOf(p.inputs), Responses.Lines(es), !p.interrupted);
  }

  /** The same over a WebSocket. */
  lemma MessagesReachUserByWebSocket(config: Config, h: Handler, decode: St.Decoder, gen: nat, start: St.Sink,
                                     es: seq<W.Happening<Occurrence>>, p: W.State<St.Sink, Occurrence>)
    requires Starts(gen, start.conn) && NoThrow(h)
    requires p == W.Run(St.Above(config, h, decode, gen), W.Start<St.Sink, Occurrence>(start), es)
    ensures ShowsSent(decode, gen, p.sink.conn, W.Frames(es), true)
  {
    var c := St.Above(config, h, decode, gen);
    St.ConnectionLetsGo(config, h, decode, gen);
    St.AboveMeans(config, h, decode, gen, start);
    W.MessagesArrive(c, start, es);
    St.AboveMeans(config, h, decode, gen, p.sink);
    ReplayShows(config, h, decode, gen, start, p.inputs);
    ShowsSentSoFar(decode, gen, p.sink.conn, RS.LinesOf(p.inputs), W.Frames(es), true);
  }

  /** The same over JSONP polling. */
  lemma MessagesReachUserByJsonp(config: Config, h: Handler, decode: St.Decoder, gen: nat, start: St.Sink,
                                 es: seq<J.Happening<Occurrence>>, p: J.State<St.Sink, Occurrence>)
    requires Starts(gen, start.conn) && NoThrow(h)
    requires p == J.Run(St.Above(config, h, decode, gen), J.Start<St.Sink, Occurrence>(start), es)
    ensures ShowsSent(decode, gen, p.sink.conn, JsonpAnswers.Lines(es), p.recvStop.Some?)
  {
    var c := St.Above(config, h, decode, gen);
    St.ConnectionLetsGo(config, h, decode, gen);
    St.AboveMeans(config, h, decode, gen, start);
    JsonpAnswers.ReceivesOnce(c, start, es);
    ReplayShows(config, h, decode, gen, start, p.inputs);
    ShowsSentSoFar(decode, gen, p.sink.conn, RS.LinesOf(p.inputs), JsonpAnswers.Lines(es), p.recvStop.Some?);
  }

  // A server that sends STOMP frames

  /** A message of frames with heart-beats after them, or a heart-beat on its own; see
      StompRoundTrip.StreamRoundTrip for a heart-beat ahead of a frame. */
  predicate BatchOk(b: seq<RT.Item>) {
    RT.ItemsOk(b) && (b == [] || b[0].Sent? || b == [RT.Ping])
  }

  predicate BatchesOk(bs: seq<seq<RT.Item>>) {
    forall b <- bs :: BatchOk(b)
  }

  function Texts(bs: seq<seq<RT.Item>>): seq<Str>
    requires BatchesOk(bs)
  {
    seq(|bs|, i requires 0 <= i < |bs| => assert bs[i] in bs; RT.StreamText(bs[i]))
  }

  /** The frames sent, as they are to be read. */
  function FramesOf(bs: seq<seq<RT.Item>>): seq<Frames.Frame>
    requires BatchesOk(bs)
  {
    if bs == [] then []
    else assert bs[|bs| - 1] in bs; FramesOf(bs[..|bs| - 1]) + RT.Expected(bs[|bs| - 1])
  }

  /** What the STOMP client reads in a message. */
  function Read(data: Str): seq<Frames.Frame> {
    if data == [LF] then [] else Frames.Unmarshal(data)
  }

  function ReadAll(ms: seq<Str>): seq<Frames.Frame> {
    if ms == [] then [] else ReadAll(ms[..|ms| - 1]) + Read(ms[|ms| - 1])
  }

  lemma BatchReads(b: seq<RT.Item>)
    requires BatchOk(b)
    ensures Read(RT.StreamText(b)) == RT.Expected(b)
  {
    if b == [RT.Ping] {
      assert b[1..] == [];
    } else {
      RT.RoundTripFrom(b);
      if b != [] {
        var f := b[0].frame;
        RT.ParsedHead(f, RT.Size(f));
        assert RT.StreamText(b)[0] == f.command[0];
      }
    }
  }

  lemma {:induction false} TextsRead(bs: seq<seq<RT.Item>>, ms: seq<Str>)
    requires BatchesOk(bs) && ms <= Texts(bs)
    ensures ReadAll(ms) == FramesOf(bs[..|ms|])
    decreases |ms|
  {
    if ms != [] {
      var n := |ms| - 1;
      TextsRead(bs, ms[..n]);
      assert bs[n] in bs;
      BatchReads(bs[n]);
      assert ms[n] == Texts(bs)[n];
      assert bs[..n + 1][..n] == bs[..n];
    }
  }

  lemma {:induction false} FramesOfPrefix(bs: seq<seq<RT.Item>>, n: nat)
    requires BatchesOk(bs) && n <= |bs|
    ensures FramesOf(bs[..n]) <= FramesOf(bs)
    decreases |bs|
  {
    if n < |bs| {
      var before := bs[..|bs| - 1];
      assert before[..n] == bs[..n];
      FramesOfPrefix(before, n);
    } else {
      assert bs[..n] == bs;
    }
  }

  // What is handed to the callbacks

  function FramesIn(ds: seq<Client.Delivery>): (frames: seq<Frames.Frame>)
    ensures |frames| == |ds|
  {
    seq(|ds|, i requires 0 <= i < |ds| => ds[i].frame)
  }

  lemma FramesInConcat(a: seq<Client.Delivery>, b: seq<Client.Delivery>)
    ensures FramesIn(a + b) == FramesIn(a) + FramesIn(b)
  {
  }

  lemma AllAreHandedOver(frames: seq<Frames.Frame>, program: Client.Program, ds: seq<Client.Delivery>)
    requires H.NeverThrows(program) && Client.DeliveredUntilThrow(frames, program, ds)
    ensures FramesIn(ds) == frames
  {
  }

  /** With callbacks that do not throw, every frame of a message is handed over. */
  lemma MessageIsHandedOver(user: H.User, log: seq<Event>, data: Str)
    requires H.Peaceful(user)
    ensures FramesIn(H.MessageDeliveries(user, log + [MessageEvent(data)])) == Read(data)
  {
    var all := log + [MessageEvent(data)];
    var v, program := H.Before(user, all), user.program(all);
    if data != [LF] {
      var ops := Client.History(v.client, Frames.Unmarshal(data), program, user.onreceive);
      Client.HistoryDelivers(v.client, Frames.Unmarshal(data), program, user.onreceive);
      AllAreHandedOver(Frames.Unmarshal(data), program, Client.Deliveries(v.client, ops, user.onreceive));
    }
  }

  lemma {:induction false} ShownIsHandedOver(user: H.User, log: seq<Event>)
    requires H.Peaceful(user)
    ensures FramesIn(H.HandedOver(user, log)) == ReadAll(Shown(log))
    decreases |log|
  {
    if log != [] {
      var before, last := log[..|log| - 1], log[|log| - 1];
      assert before + [last] == log;
      ShownIsHandedOver(user, before);
      MoreIsHandedOver(user, before, last);
    }
  }

  lemma MoreIsHandedOver(user: H.User, log: seq<Event>, e: Event)
    requires H.Peaceful(user) && FramesIn(H.HandedOver(user, log)) == ReadAll(Shown(log))
    ensures FramesIn(H.HandedOver(user, log + [e])) == ReadAll(Shown(log + [e]))
  {
    ShownSnoc(log, e);
    H.HandedOverSnoc(user, log, e);
    if e.MessageEvent? {
      MessageIsHandedOver(user, log, e.data);
      FramesInConcat(H.HandedOver(user, log), H.MessageDeliveries(user, log + [e]));
      ReadAllSnoc(Shown(log), e.data);
    } else {
      assert H.HandedOver(user, log) + [] == H.HandedOver(user, log);
      assert Shown(log) + [] == Shown(log);
    }
  }

  lemma ReadAllSnoc(ms: seq<Str>, data: Str)
    ensures ReadAll(ms + [data]) == ReadAll(ms) + Read(data)
  {
    assert (ms + [data])[..|ms|] == ms;
  }

  /** As long as the connection has made no other transport, the callbacks have been handed the
      frames, in order, up to a close; and all of them while the connection is open, if the
      transport has handed on all lines. */
  ghost predicate HandsOver(user: H.User, gen: nat, s: State, frames: seq<Frames.Frame>, all: bool) {
    |s.tried| == gen ==>
      && FramesIn(H.HandedOver(user, s.log)) <= frames
      && (s.readyState == OPEN && all ==> FramesIn(H.HandedOver(user, s.log)) == frames)
  }

  lemma ShownHandsOver(user: H.User, decode: St.Decoder, gen: nat, s: State, lines: seq<Str>, all: bool,
                       bs: seq<seq<RT.Item>>)
    requires H.Peaceful(user) && BatchesOk(bs)
    requires ShowsSent(decode, gen, s, lines, all) && Sent(decode, lines) == Texts(bs)
    ensures HandsOver(user, gen, s, FramesOf(bs), all)
  {
    if |s.tried| == gen {
      ShownIsHandedOver(user, s.log);
      TextsRead(bs, Shown(s.log));
      FramesOfPrefix(bs, |Shown(s.log)|);
      assert bs[..|bs|] == bs;
    }
  }

  lemma PeacefulNeverThrows(user: H.User)
    requires H.Peaceful(user)
    ensures NoThrow(H.HandlerOf(user))
  {
    forall log ensures !H.AnyThrows(H.HandlerOf(user)(log)) {
      H.PeacefulThrowsNothing(user, log);
    }
  }

  /** A server opens a session over XHR and sends frames and heart-beats in it, several or none
      a message, in responses that are cut in any way. Whatever else happens to the connection,
      and whatever the callbacks do short of throwing, the callbacks of the STOMP client on the
      connection are handed exactly those frames, in order, up to a close, and all of them as
      long as there is none. */
  lemma FramesReachCallbacks(config: Config, user: H.User, decode: St.Decoder, gen: nat, start: St.Sink,
                             es: seq<R.NetEvent<Occurrence>>, p: R.Poll<St.Sink, Occurrence>, bs: seq<seq<RT.Item>>)
    requires Starts(gen, start.conn) && H.Peaceful(user) && BatchesOk(bs)
    requires p == R.Run(St.Above(config, H.HandlerOf(user), decode, gen), R.Start<St.Sink, Occurrence>(start), es)
    requires Sent(decode, Responses.Lines(es)) == Texts(bs)
    ensures HandsOver(user, gen, p.sink.conn, FramesOf(bs), !p.interrupted)
  {
    PeacefulNeverThrows(user);
    MessagesReachUser(config, H.HandlerOf(user), decode, gen, start, es, p);
    ShownHandsOver(user, decode, gen, p.sink.conn, Responses.Lines(es), !p.interrupted, bs);
  }

  /** The same over a WebSocket. */
  lemma FramesReachCallbacksByWebSocket(config: Config, user: H.User, decode: St.Decoder, gen: nat, start: St.Sink,
                                        es: seq<W.Happening<Occurrence>>, p: W.State<St.Sink, Occurrence>,
                                        bs: seq<seq<RT.Item>>)
    requires Starts(gen, start.conn) && H.Peaceful(user) && BatchesOk(bs)
    requires p == W.Run(St.Above(config, H.HandlerOf(user), decode, gen), W.Start<St.Sink, Occurrence>(start), es)
    requires Sent(decode, W.Frames(es)) == Texts(bs)
    ensures HandsOver(user, gen, p.sink.conn, FramesOf(bs), true)
  {
    PeacefulNeverThrows(user);
    MessagesReachUserByWebSocket(config, H.HandlerOf(user), decode, gen, start, es, p);
    ShownHandsOver(user, decode, gen, p.sink.conn, W.Frames(es), true, bs);
  }

  /** The same over JSONP polling. */
  lemma FramesReachCallbacksByJsonp(config: Config, user: H.User, decode: St.Decoder, gen: nat, start: St.Sink,
                                    es: seq<J.Happening<Occurrence>>, p: J.State<St.Sink, Occurrence>,
                                    bs: seq<seq<RT.Item>>)
    requires Starts(gen, start.conn) && H.Peaceful(user) && BatchesOk(bs)
    requires p == J.Run(St.Above(config, H.HandlerOf(user), decode, gen), J.Start<St.Sink, Occurrence>(start), es)
    requires Sent(decode, JsonpAnswers.Lines(es)) == Texts(bs)
    ensures HandsOver(user, gen, p.sink.conn, FramesOf(bs), p.recvStop.Some?)
  {
    PeacefulNeverThrows(user);
    MessagesReachUserByJsonp(config, H.HandlerOf(user), decode, gen, start, es, p);
    ShownHandsOver(user, decode, gen, p.sink.conn, JsonpAnswers.Lines(es), p.recvStop.Some?, bs);
  }

  // The lines of a session

  const LOWER_A: Unit := 0x61
  const LOWER_H: Unit := 0x68
  const LOWER_O: Unit := 0x6F

  /** The messages of a line that is an array frame of strings. */
  function Payload(line: Str): Option<seq<Str>> {
    if line == [] || line[0] != LOWER_A then None
    else if line[1..] == [] then Some([])
    else DecodeArray(line[1..])
  }

  /** `_didMessage` on lines that open a session, heart-beats and arrays of strings; all others
      stay a parameter. */
  function ServerDecoder(others: St.Decoder): St.Decoder {
    (line: Str) =>
      if line != [] && line[0] == LOWER_O then OpenFrame
      else if line != [] && line[0] == LOWER_H then HeartbeatFrame
      else match Payload(line) case Some(ms) => ArrayFrame(ms) case None => others(line)
  }

  /** What a server sends in a session once it is open. */
  datatype ServerLine = Beat | Messages(messages: seq<Str>)

  function LineText(kind: Quote.Stringify, l: ServerLine): Str {
    match l
    case Beat => [LOWER_H]
    case Messages(ms) => [LOWER_A] + ([LBRACKET] + Join(Quote.QuoteAll(kind, ms), COMMA) + [RBRACKET])
  }

  function SessionLines(kind: Quote.Stringify, session: seq<ServerLine>): seq<Str> {
    if session == [] then [[LOWER_O]]
    else SessionLines(kind, session[..|session| - 1]) + [LineText(kind, session[|session| - 1])]
  }

  function SessionMessages(session: seq<ServerLine>): seq<Str> {
    if session == [] then []
    else
      var last := session[|session| - 1];
      SessionMessages(session[..|session| - 1]) + if last.Messages? then last.messages else []
  }

  lemma LineCarries(kind: Quote.Stringify, others: St.Decoder, l: ServerLine)
    ensures Carried(ServerDecoder(others)(LineText(kind, l))) == if l.Messages? then l.messages else []
  {
    var line := LineText(kind, l);
    match l
    case Beat => assert line == [LOWER_H] && line[0] == LOWER_H;
    case Messages(ms) =>
      var text := [LBRACKET] + Join(Quote.QuoteAll(kind, ms), COMMA) + [RBRACKET];
      Quote.QuotedArrayRoundTrip(kind, ms);
      assert line == [LOWER_A] + text && line[0] == LOWER_A && line[1..] == text && text != [];
      assert Payload(line) == Some(ms);
  }

  /** A server that quotes its messages as this client does sends, in the lines of a session,
      exactly its messages. */
  lemma {:induction false} SessionSends(kind: Quote.Stringify, others: St.Decoder, session: seq<ServerLine>)
    ensures var lines := SessionLines(kind, session);
            Opened(ServerDecoder(others), lines) && Sent(ServerDecoder(others), lines) == SessionMessages(session)
    decreases |session|
  {
    var decode := ServerDecoder(others);
    if session == [] {
      var none: seq<Str> := [];
      assert none + [[LOWER_O]] == [[LOWER_O]];
      OpenedSnoc(decode, none, [LOWER_O]);
      SentSnoc(decode, none, [LOWER_O]);
    } else {
      var before, last := session[..|session| - 1], session[|session| - 1];
      SessionSends(kind, others, before);
      OpenedSnoc(decode, SessionLines(kind, before), LineText(kind, last));
      SentSnoc(decode, SessionLines(kind, before), LineText(kind, last));
      LineCarries(kind, others, last);
    }
  }
}
