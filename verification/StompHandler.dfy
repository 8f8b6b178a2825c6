/** The STOMP client as the handler of the socket under it: the calls it makes on the socket
    when an event is dispatched to it, and what it hands to the user's callbacks. */
module StompHandler {
  import opened Text
  import opened Utf8
  import opened StompFrame
  import opened StompClient
  import C = Connection
  import Safety = ConnectionSafety
  import E = EndToEnd
  import P = Protocols

  /** The user of a client: its callbacks when a message is dispatched, which may depend on all
      events so far; whether `onreceive` is set; and what the error callback does when the
      connection is lost. */
  datatype User = User(program: seq<C.Event> -> Program, onreceive: bool, lost: seq<Request>)

  const CONNECT: OutFrame := OutFrame(
    Ascii("CONNECT"),
    [Header(Ascii("accept-version"), Ascii("1.1,1.0")), Header(Ascii("heart-beat"), Ascii("10000,10000"))],
    [])

  // Calls

  function SendCalls(pieces: seq<Str>): (calls: seq<C.Call>)
    ensures |calls| == |pieces|
  {
    seq(|pieces|, i requires 0 <= i < |pieces| => C.CallSend(pieces[i]))
  }

  /** `_transmit` */
  function FrameCalls(f: OutFrame): seq<C.Call> {
    match Marshal(f)
    case None => [C.Throw]
    case Some(out) => SendCalls(E.Chunks(out, 16 * 1024))
  }

  function OpCalls(c: ClientState, op: Op): seq<C.Call> {
    match op
    case Receive(_) => []
    case Direct(call) => [call]
    case Disconnect => FrameCalls(DISCONNECT) + [C.CallClose(0)]
    case _ => FrameCalls(Transmitted(c, op))
  }

  /** The calls on the socket while the client goes through the operations. */
  function OpsCalls(c: ClientState, ops: seq<Op>): seq<C.Call> {
    if ops == [] then []
    else
      var before, last := ops[..|ops| - 1], ops[|ops| - 1];
      OpsCalls(c, before) + OpCalls(Run(c, before), last)
  }

  // The client and its socket

  /** A client and whether its socket's `onclose` is set. */
  datatype Over = Over(client: ClientState, onclose: bool)

  function RunOver(v: Over, ops: seq<Op>): Over {
    Over(Run(v.client, ops), v.onclose && Disconnect !in ops)
  }

  /** What happens to a client when the last event of a log is dispatched. */
  function EventOps(user: User, v: Over, log: seq<C.Event>): seq<Op>
    requires log != []
  {
    match log[|log| - 1]
    case OpenEvent => []
    case MessageEvent(data) =>
      if data == [LF] then [] else History(v.client, Unmarshal(data), user.program(log), user.onreceive)
    case HeartbeatEvent => []
    case CloseEvent(_, _, _) => if v.onclose then Ran(user.lost) else []
  }

  /** The client before it runs the operations; told of its loss, it is no longer connected. */
  function Heard(v: Over, e: C.Event): Over {
    if e.CloseEvent? && v.onclose then v.(client := v.client.(connected := false)) else v
  }

  /** The client after the events of a log. */
  function After(user: User, log: seq<C.Event>): Over {
    if log == [] then Over(New(), true)
    else
      var v := Heard(After(user, log[..|log| - 1]), log[|log| - 1]);
      RunOver(v, EventOps(user, v, log))
  }

  /** The client when the last event of the log is dispatched to it. */
  function Before(user: User, log: seq<C.Event>): Over
    requires log != []
  {
    Heard(After(user, log[..|log| - 1]), log[|log| - 1])
  }

  /** The client as a handler of the socket: `onopen`, `onmessage` and `onclose`. */
  function HandlerCalls(user: User, log: seq<C.Event>): seq<C.Call> {
    if log == [] then []
    else if log[|log| - 1].OpenEvent? then FrameCalls(CONNECT)
    else
      var v := Before(user, log);
      OpsCalls(v.client, EventOps(user, v, log))
  }

  function HandlerOf(user: User): C.Handler {
    log => HandlerCalls(user, log)
  }

  /** What one message hands to the callbacks. */
  function MessageDeliveries(user: User, log: seq<C.Event>): seq<Delivery>
    requires log != [] && log[|log| - 1].MessageEvent?
  {
    var v := Before(user, log);
    Deliveries(v.client, EventOps(user, v, log), user.onreceive)
  }

  /** What is handed to the callbacks while the events of a log are dispatched. */
  function HandedOver(user: User, log: seq<C.Event>): seq<Delivery> {
    if log == [] then []
    else
      HandedOver(user, log[..|log| - 1])
      + if log[|log| - 1].MessageEvent? then MessageDeliveries(user, log) else []
  }

  lemma HandedOverSnoc(user: User, log: seq<C.Event>, e: C.Event)
    ensures HandedOver(user, log + [e])
            == HandedOver(user, log) + if e.MessageEvent? then MessageDeliveries(user, log + [e]) else []
  {
    assert (log + [e])[..|log|] == log;
  }

  // Calls that throw

  predicate AnyThrows(calls: seq<C.Call>) {
    exists i :: 0 <= i < |calls| && C.Throws(calls[i])
  }

  lemma AnyThrowsConcat(a: seq<C.Call>, b: seq<C.Call>)
    ensures AnyThrows(a + b) <==> AnyThrows(a) || AnyThrows(b)
  {
    if AnyThrows(a) {
      var i :| 0 <= i < |a| && C.Throws(a[i]);
      assert (a + b)[i] == a[i];
    }
    if AnyThrows(b) {
      var i :| 0 <= i < |b| && C.Throws(b[i]);
      assert (a + b)[|a| + i] == b[i];
    }
  }

  lemma FrameThrowsIff(f: OutFrame)
    ensures AnyThrows(FrameCalls(f)) <==> !WellFormed(f.body)
  {
    SizeIsOctetCount(f.body);
    if Marshal(f).None? {
      assert FrameCalls(f)[0] == C.Throw;
    }
  }

  /** The calls of a request throw exactly when the request does. */
  lemma RequestThrowsIff(c: ClientState, r: Request)
    ensures AnyThrows(OpCalls(c, r)) <==> Throws(r)
  {
    match r
    case Direct(call) => assert OpCalls(c, r) == [call] && [call][0] == call;
    case Disconnect =>
      FrameThrowsIff(DISCONNECT);
      AnyThrowsConcat(FrameCalls(DISCONNECT), [C.CallClose(0)]);
    case Subscribe(_, _, _) => FrameThrowsIff(Transmitted(c, r));
    case Unsubscribe(_) => FrameThrowsIff(Transmitted(c, r));
    case Begin(_) => FrameThrowsIff(Transmitted(c, r));
    case Send(_, _, _) => FrameThrowsIff(Transmitted(c, r));
  }

  predicate AnyOpThrows(ops: seq<Op>) {
    exists i :: 0 <= i < |ops| && !ops[i].Receive? && Throws(ops[i])
  }

  lemma AnyOpThrowsConcat(a: seq<Op>, b: seq<Op>)
    ensures AnyOpThrows(a + b) <==> AnyOpThrows(a) || AnyOpThrows(b)
  {
    if AnyOpThrows(a) {
      var i :| 0 <= i < |a| && !a[i].Receive? && Throws(a[i]);
      assert (a + b)[i] == a[i];
    }
    if AnyOpThrows(b) {
      var i :| 0 <= i < |b| && !b[i].Receive? && Throws(b[i]);
      assert (a + b)[|a| + i] == b[i];
    }
  }

  lemma OpThrowsIff(c: ClientState, op: Op)
    ensures AnyThrows(OpCalls(c, op)) <==> AnyOpThrows([op])
  {
    assert [op][0] == op;
    if !op.Receive? {
      RequestThrowsIff(c, op);
    }
  }

  /** Going through operations throws exactly when one of them does. */
  lemma {:induction false} OpsThrowIff(c: ClientState, ops: seq<Op>)
    ensures AnyThrows(OpsCalls(c, ops)) <==> AnyOpThrows(ops)
    decreases |ops|
  {
    if ops != [] {
      var n := |ops| - 1;
      var before, last := ops[..n], ops[n];
      assert before + [last] == ops;
      OpsThrowIff(c, before);
      AnyThrowsConcat(OpsCalls(c, before), OpCalls(Run(c, before), last));
      OpThrowsIff(Run(c, before), last);
      AnyOpThrowsConcat(before, [last]);
    }
  }

  lemma OpsCallsSnoc(c: ClientState, a: seq<Op>, op: Op)
    ensures OpsCalls(c, a + [op]) == OpsCalls(c, a) + OpCalls(Run(c, a), op)
  {
    assert (a + [op])[..|a|] == a;
  }

  lemma {:induction false} OpsCallsConcat(c: ClientState, a: seq<Op>, b: seq<Op>)
    ensures OpsCalls(c, a + b) == OpsCalls(c, a) + OpsCalls(Run(c, a), b)
    decreases |b|
  {
    if b == [] {
      assert a + b == a;
    } else {
      var n := |b| - 1;
      var before, last := b[..n], b[n];
      assert b == before + [last];
      Assoc(a, before, [last]);
      RunConcat(c, a, before);
      OpsCallsConcat(c, a, before);
      OpsCallsSnoc(c, a + before, last);
      OpsCallsSnoc(Run(c, a), before, last);
      Assoc(OpsCalls(c, a), OpsCalls(Run(c, a), before), OpCalls(Run(Run(c, a), before), last));
    }
  }

  lemma {:induction false} RanThrowsIff(rs: seq<Request>)
    ensures AnyOpThrows(Ran(rs)) <==> Interrupted(rs)
    decreases |rs|
  {
    if rs != [] {
      assert rs[..1] == [rs[0]];
      if Throws(rs[0]) {
        assert Ran(rs)[0] == rs[0];
      } else {
        RanThrowsIff(rs[1..]);
        var first: seq<Op> := rs[..1];
        AnyOpThrowsConcat(first, Ran(rs[1..]));
        assert forall i :: 1 <= i < |rs| ==> rs[i] == rs[1..][i - 1];
      }
    }
  }

  lemma OneThrowsIff(c: ClientState, frame: Frame, program: Program, onreceive: bool)
    ensures AnyOpThrows(HistoryOfOne(c, frame, program, onreceive))
            <==> Interrupted(AnswerTo(c, frame, program, onreceive))
  {
    var answer := AnswerTo(c, frame, program, onreceive);
    var ran: seq<Op> := Ran(answer);
    RanThrowsIff(answer);
    AnyOpThrowsConcat([Receive(frame)], ran);
  }

  predicate AnyInterrupted(program: Program, ds: seq<Delivery>) {
    exists i :: 0 <= i < |ds| && Interrupted(Answer(program, ds[i]))
  }

  lemma AnyInterruptedFirst(program: Program, d: Delivery, ds: seq<Delivery>)
    ensures AnyInterrupted(program, [d] + ds) <==> Interrupted(Answer(program, d)) || AnyInterrupted(program, ds)
  {
    var all := [d] + ds;
    assert forall i :: 1 <= i < |all| ==> all[i] == ds[i - 1];
    if Interrupted(Answer(program, d)) {
      assert all[0] == d;
    }
    if AnyInterrupted(program, ds) {
      var i :| 0 <= i < |ds| && Interrupted(Answer(program, ds[i]));
      assert all[i + 1] == ds[i];
    }
  }

  /** Dispatching the frames of a message throws exactly when a callback does on what it is
      handed. */
  lemma {:induction false} HistoryThrowsIff(c: ClientState, frames: seq<Frame>, program: Program, onreceive: bool)
    ensures var ops := History(c, frames, program, onreceive);
            AnyOpThrows(ops) <==> AnyInterrupted(program, Deliveries(c, ops, onreceive))
    decreases |frames|
  {
    if frames != [] {
      var one := HistoryOfOne(c, frames[0], program, onreceive);
      var d := Delivery(TargetOf(c, frames[0], onreceive), frames[0]);
      OneDelivers(c, frames[0], program, onreceive);
      OneThrowsIff(c, frames[0], program, onreceive);
      if Interrupted(AnswerTo(c, frames[0], program, onreceive)) {
        assert [d][0] == d;
      } else {
        var rest := History(Run(c, one), frames[1..], program, onreceive);
        HistoryThrowsIff(Run(c, one), frames[1..], program, onreceive);
        AnyOpThrowsConcat(one, rest);
        DeliveriesConcat(c, one, rest, onreceive);
        AnyInterruptedFirst(program, d, Deliveries(Run(c, one), rest, onreceive));
      }
    }
  }

  /** Handling a message makes a call that throws if and only if one of the callbacks throws
      on a frame that it is handed. */
  lemma MessageThrowsIff(user: User, log: seq<C.Event>)
    requires log != [] && log[|log| - 1].MessageEvent?
    ensures AnyThrows(HandlerCalls(user, log)) <==> AnyInterrupted(user.program(log), MessageDeliveries(user, log))
  {
    var v := Before(user, log);
    OpsThrowIff(v.client, EventOps(user, v, log));
    if log[|log| - 1].data != [LF] {
      HistoryThrowsIff(v.client, Unmarshal(log[|log| - 1].data), user.program(log), user.onreceive);
    }
  }

  ghost predicate NeverThrows(program: Program) {
    forall d :: !Interrupted(program(d))
  }

  /** No callback ever throws. */
  ghost predicate Peaceful(user: User) {
    (forall log :: NeverThrows(user.program(log))) && !Interrupted(user.lost)
  }

  lemma PeacefulThrowsNothing(user: User, log: seq<C.Event>)
    requires Peaceful(user)
    ensures !AnyThrows(HandlerCalls(user, log))
  {
    if log != [] {
      match log[|log| - 1]
      case OpenEvent => FrameThrowsIff(CONNECT);
      case MessageEvent(_) =>
        MessageThrowsIff(user, log);
        assert NeverThrows(user.program(log));
      case HeartbeatEvent =>
      case CloseEvent(_, _, _) =>
        var v := Before(user, log);
        OpsThrowIff(v.client, EventOps(user, v, log));
        RanThrowsIff(user.lost);
    }
  }

  lemma {:induction false} RequestsDoNotConnect(c: ClientState, rs: seq<Request>)
    requires !c.connected
    ensures !Run(c, rs).connected
    decreases |rs|
  {
    if rs != [] {
      RequestsDoNotConnect(c, rs[..|rs| - 1]);
    }
  }

  /** The news of the loss reaches a client that listens for it: it is no longer connected, and
      does what the error callback asks, up to a throw. One that has disconnected hears and
      does nothing. */
  lemma LossIsTold(user: User, log: seq<C.Event>)
    requires log != [] && log[|log| - 1].CloseEvent?
    ensures var v, w := After(user, log[..|log| - 1]), After(user, log);
            if v.onclose then
              var told := v.client.(connected := false);
              && !w.client.connected && w.client == Run(told, Ran(user.lost))
              && HandlerCalls(user, log) == OpsCalls(told, Ran(user.lost))
            else w == v && HandlerCalls(user, log) == []
  {
    var v := After(user, log[..|log| - 1]);
    RequestsDoNotConnect(v.client.(connected := false), Ran(user.lost));
  }
}
