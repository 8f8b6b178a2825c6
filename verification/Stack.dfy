/** The connection over its XHR transport: the state machine of module Connection as the
    consumer of the lines that module Receive reads. */
module Stack {
  import opened Text
  import opened Connection
  import Protocols
  import Safety = ConnectionSafety
  import R = Receive
  import RS = ReceiveSafety
  import Responses
  import J = Jsonp
  import JsonpAnswers
  import W = WebSocket

  /** How `_didMessage` decodes a line; JSON decoding of arbitrary values stays a parameter. */
  type Decoder = Str -> Frame

  /** The connection, and what the browser has at the moment. */
  datatype Sink = Sink(conn: State, enabled: set<Protocols.Protocol>)

  /** The transport constructed as number `gen` is the connection's for as long as no later
      one was constructed and the connection is not CLOSED. */
  predicate Gone(gen: nat, s: State) {
    |s.tried| > gen || s.readyState == CLOSED
  }

  ghost predicate Ok(gen: nat, s: State) {
    Safety.Inv(s) && |s.tried| >= gen && !s.infoPending
  }

  /** A frame can only come from the transport, so it is not among the other events while the
      transport is the connection's own. Any event may find the browser changed. */
  function OnOther(config: Config, h: Handler, gen: nat, s: Sink, o: Occurrence): (Sink, bool) {
    if o.what.FrameArrived? && !Gone(gen, s.conn) then (s.(enabled := o.enabled), false)
    else
      var r := Step(config, h, s.conn, o);
      (Sink(r.state, o.enabled), r.thrown)
  }

  function OnLine(h: Handler, decode: Decoder, s: Sink, text: Str): (Sink, bool) {
    var r := DidMessage(s.conn, decode(text), h, s.enabled);
    (s.(conn := r.state), r.thrown)
  }

  function OnLoss(s: Sink): (Sink, bool) {
    var r := DidClose(s.conn, Some(1006), false, s.enabled);
    (s.(conn := r.state), r.thrown)
  }

  ghost function Above(config: Config, h: Handler, decode: Decoder, gen: nat): R.Consumer<Sink, Occurrence> {
    R.Consumer(
      (s: Sink, text: Str) => if Gone(gen, s.conn) then (s, false) else OnLine(h, decode, s, text),
      (s: Sink) => OnLoss(s),
      (s: Sink, o: Occurrence) => OnOther(config, h, gen, s, o),
      (s: Sink) => Gone(gen, s.conn),
      (s: Sink) => Ok(gen, s.conn))
  }

  lemma LineOk(h: Handler, decode: Decoder, gen: nat, s: Sink, text: Str)
    requires Ok(gen, s.conn) && gen > 0
    ensures !Gone(gen, s.conn) ==> Ok(gen, OnLine(h, decode, s, text).0.conn)
  {
    if !Gone(gen, s.conn) {
      Safety.DidMessageKeeps(s.conn, decode(text), h, s.enabled);
    }
  }

  lemma LossOk(gen: nat, s: Sink)
    requires Ok(gen, s.conn)
    ensures Ok(gen, OnLoss(s).0.conn) && Gone(gen, OnLoss(s).0.conn)
  {
    if s.conn.readyState != CLOSED {
      Safety.DidCloseKeeps(s.conn, Some(1006), false, s.enabled);
    }
  }

  lemma OtherOk(config: Config, h: Handler, gen: nat, s: Sink, o: Occurrence)
    requires Ok(gen, s.conn)
    ensures var t := OnOther(config, h, gen, s, o).0.conn;
            Ok(gen, t) && (Gone(gen, s.conn) ==> Gone(gen, t))
  {
    Safety.StepKeeps(config, h, s.conn, o);
  }

  /** The connection keeps its invariant and lets its transport go for good. */
  lemma ConnectionLetsGo(config: Config, h: Handler, decode: Decoder, gen: nat)
    requires gen > 0
    ensures R.LetsGo(Above(config, h, decode, gen))
  {
    var c := Above(config, h, decode, gen);
    forall s, text | c.ok(s) ensures c.ok(c.line(s, text).0) {
      LineOk(h, decode, gen, s, text);
    }
    forall s | c.ok(s) ensures c.ok(c.lose(s).0) && c.gone(c.lose(s).0) {
      LossOk(gen, s);
    }
    forall s, e | c.ok(s) ensures c.ok(c.other(s, e).0) && (c.gone(s) ==> c.gone(c.other(s, e).0)) {
      OtherOk(config, h, gen, s, e);
    }
  }

  lemma AboveMeans(config: Config, h: Handler, decode: Decoder, gen: nat, s: Sink)
    ensures var c := Above(config, h, decode, gen);
            (c.ok(s) <==> Ok(gen, s.conn)) && (c.gone(s) <==> Gone(gen, s.conn))
  {
  }

  lemma InvGrammar(s: State)
    requires Safety.Inv(s)
    ensures Safety.Grammar(s.log)
  {
  }

  /** A connection over an XHR transport, for every decoding of lines, every handler, every
      cutting of the responses and every interleaving with timers, calls of the user and
      changes of the browser:
      its invariant and event grammar hold, it handles the lines of the responses in order and
      once each until it lets the transport go, and then no receiver is left. A request that
      had not started by then still does; see ReceiveSafety.RequestOutlivesIff. */
  lemma ConnectionOverXhr(config: Config, h: Handler, decode: Decoder, start: Sink, es: seq<R.NetEvent<Occurrence>>)
    requires Safety.Inv(start.conn) && start.conn.transport.Some?
    ensures var gen := |start.conn.tried|;
            var c := Above(config, h, decode, gen);
            var p := R.Run(c, R.Start<Sink, Occurrence>(start), es);
            && Safety.Inv(p.sink.conn) && Safety.Grammar(p.sink.conn.log)
            && p.sink == R.Replay(c, start, p.inputs)
            && RS.LinesOf(p.inputs) <= Responses.Lines(es)
            && (!Gone(gen, p.sink.conn) && !p.interrupted ==> RS.LinesOf(p.inputs) == Responses.Lines(es))
            && (Gone(gen, p.sink.conn) ==> forall i :: 0 <= i < |p.receivers| ==> !p.receivers[i].xo)
  {
    var gen := |start.conn.tried|;
    var c := Above(config, h, decode, gen);
    ConnectionLetsGo(config, h, decode, gen);
    AboveMeans(config, h, decode, gen, start);
    Responses.LinesArrive(c, start, es);
    RS.OneReceiver(c, start, es);
    var p := R.Run(c, R.Start<Sink, Occurrence>(start), es);
    AboveMeans(config, h, decode, gen, p.sink);
    InvGrammar(p.sink.conn);
  }

  /** The same over a WebSocket, whose clean-up may report a close at once. */
  lemma ConnectionOverWebSocket(config: Config, h: Handler, decode: Decoder, start: Sink,
                                es: seq<W.Happening<Occurrence>>)
    requires Safety.Inv(start.conn) && start.conn.transport.Some?
    ensures var gen := |start.conn.tried|;
            var c := Above(config, h, decode, gen);
            var p := W.Run(c, W.Start<Sink, Occurrence>(start), es);
            && Safety.Inv(p.sink.conn) && Safety.Grammar(p.sink.conn.log)
            && p.sink == R.Replay(c, start, p.inputs)
            && RS.LinesOf(p.inputs) <= W.Frames(es)
            && (!Gone(gen, p.sink.conn) ==> RS.LinesOf(p.inputs) == W.Frames(es))
            && (Gone(gen, p.sink.conn) ==> !p.live && !p.onmessage && !p.onclose)
  {
    var gen := |start.conn.tried|;
    var c := Above(config, h, decode, gen);
    ConnectionLetsGo(config, h, decode, gen);
    AboveMeans(config, h, decode, gen, start);
    W.MessagesArrive(c, start, es);
    var p := W.Run(c, W.Start<Sink, Occurrence>(start), es);
    AboveMeans(config, h, decode, gen, p.sink);
    InvGrammar(p.sink.conn);
  }

  /** The same over JSONP polling, whose clean-up calls its own hook with a made-up frame. */
  lemma ConnectionOverJsonp(config: Config, h: Handler, decode: Decoder, start: Sink, es: seq<J.Happening<Occurrence>>)
    requires Safety.Inv(start.conn) && start.conn.transport.Some?
    ensures var gen := |start.conn.tried|;
            var c := Above(config, h, decode, gen);
            var p := J.Run(c, J.Start<Sink, Occurrence>(start), es);
            && Safety.Inv(p.sink.conn) && Safety.Grammar(p.sink.conn.log)
            && p.sink == R.Replay(c, start, p.inputs)
            && RS.LinesOf(p.inputs) <= JsonpAnswers.Lines(es)
            && (p.recvStop.Some? ==> !Gone(gen, p.sink.conn) && RS.LinesOf(p.inputs) == JsonpAnswers.Lines(es))
            && (Gone(gen, p.sink.conn) ==> forall i :: 0 <= i < |p.requests| ==> !p.requests[i].script)
  {
    var gen := |start.conn.tried|;
    var c := Above(config, h, decode, gen);
    ConnectionLetsGo(config, h, decode, gen);
    AboveMeans(config, h, decode, gen, start);
    JsonpAnswers.ReceivesOnce(c, start, es);
    var p := J.Run(c, J.Start<Sink, Occurrence>(start), es);
    AboveMeans(config, h, decode, gen, p.sink);
    InvGrammar(p.sink.conn);
  }
}
