/** What the page does when an event of one of its sockets is dispatched: the calls that its
    STOMP client makes on the socket, and the reconnect timers that its error callback starts. */
module PageHandlers {
  import opened Text
  import opened StompFrame
  import opened StompClient
  import H = StompHandler
  import C = Connection

  /** What a handler does: a call on its socket, or `reconnect`, which starts a timer. */
  datatype Reaction = Do(call: C.Call) | Reconnect

  /** What the page's callbacks ask for; none disconnects. */
  type PageRequest = r: Request | !r.Disconnect? witness Direct(C.Throw)

  /** `callbacks` is what the page's callbacks other than the error callback do about what they
      are handed; it may depend on all events so far. */
  datatype Env = Env(config: C.Config, callbacks: (seq<C.Event>, Delivery) -> seq<PageRequest>)

  // Handlers

  /** The error callback is `reconnect`, which asks its client for nothing. */
  function Asks(env: Env, log: seq<C.Event>, d: Delivery): seq<Request> {
    if d.to == ErrorCallback then [] else env.callbacks(log, d)
  }

  /** The page as the user of its clients. */
  function UserOf(env: Env): H.User {
    H.User((log: seq<C.Event>) => (d: Delivery) => Asks(env, log, d), false, [])
  }

  function Does(calls: seq<C.Call>): (rs: seq<Reaction>)
    ensures |rs| == |calls|
  {
    seq(|calls|, i requires 0 <= i < |calls| => Do(calls[i]))
  }

  /** What is done while the client goes through an operation: a frame that is handed to the
      error callback starts a timer. */
  function OpReactions(c: ClientState, op: Op): seq<Reaction> {
    if op.Receive? && TargetOf(c, op.frame, false) == ErrorCallback then [Reconnect] else Does(H.OpCalls(c, op))
  }

  function OpsReactions(c: ClientState, ops: seq<Op>): seq<Reaction> {
    if ops == [] then []
    else
      var before, last := ops[..|ops| - 1], ops[|ops| - 1];
      OpsReactions(c, before) + OpReactions(Run(c, before), last)
  }

  /** What the page and its client do when the last event is dispatched to them. */
  function Reactions(env: Env, log: seq<C.Event>): seq<Reaction> {
    if log == [] then []
    else
      match log[|log| - 1]
      case OpenEvent => Does(H.FrameCalls(H.CONNECT))
      case MessageEvent(_) =>
        var v := H.Before(UserOf(env), log);
        OpsReactions(v.client, H.EventOps(UserOf(env), v, log))
      case HeartbeatEvent => []
      case CloseEvent(_, _, _) => [Reconnect]
  }

  function Calls(rs: seq<Reaction>): seq<C.Call>
  {
    if rs == [] then [] else (if rs[0].Do? then [rs[0].call] else []) + Calls(rs[1..])
  }

  /** How many timers are started before an exception, if any, ends the handler. */
  function Started(rs: seq<Reaction>): nat
  {
    if rs == [] then 0
    else if rs[0].Reconnect? then 1 + Started(rs[1..])
    else if C.Throws(rs[0].call) then 0
    else Started(rs[1..])
  }

  function HandlerOf(env: Env): C.Handler {
    log => Calls(Reactions(env, log))
  }

  /** The timers started by the events of a log from a position on. */
  function Scheduled(env: Env, log: seq<C.Event>, from: nat, onclose: bool): nat
    decreases |log| - from
  {
    if from >= |log| then 0
    else
      (if log[from].CloseEvent? && !onclose then 0 else Started(Reactions(env, log[..from + 1])))
      + Scheduled(env, log, from + 1, onclose)
  }

  lemma {:induction false} CallsConcat(a: seq<Reaction>, b: seq<Reaction>)
    ensures Calls(a + b) == Calls(a) + Calls(b)
    decreases |a|
  {
    if a == [] {
      assert a + b == b;
    } else {
      assert (a + b)[0] == a[0] && (a + b)[1..] == a[1..] + b;
      CallsConcat(a[1..], b);
    }
  }

  lemma {:induction false} CallsOfDoes(calls: seq<C.Call>)
    ensures Calls(Does(calls)) == calls
    decreases |calls|
  {
    if calls != [] {
      assert Does(calls)[1..] == Does(calls[1..]);
      CallsOfDoes(calls[1..]);
    }
  }

  lemma {:induction false} CallsOfOps(c: ClientState, ops: seq<Op>)
    ensures Calls(OpsReactions(c, ops)) == H.OpsCalls(c, ops)
    decreases |ops|
  {
    if ops != [] {
      var n := |ops| - 1;
      var before, last := ops[..n], ops[n];
      CallsOfOps(c, before);
      CallsConcat(OpsReactions(c, before), OpReactions(Run(c, before), last));
      CallsOfDoes(H.OpCalls(Run(c, before), last));
      assert Calls([Reconnect]) == Calls([Reconnect][1..]) == [];
    }
  }

  /** The calls that the page's sockets get are those of the STOMP client that the page uses,
      and the client listens for the close event until the page takes it away. */
  lemma HandlerIsTheClient(env: Env, log: seq<C.Event>)
    ensures HandlerOf(env)(log) == H.HandlerCalls(UserOf(env), log)
    ensures H.After(UserOf(env), log).onclose
  {
    if log != [] {
      match log[|log| - 1]
      case OpenEvent => CallsOfDoes(H.FrameCalls(H.CONNECT));
      case MessageEvent(_) =>
        var v := H.Before(UserOf(env), log);
        CallsOfOps(v.client, H.EventOps(UserOf(env), v, log));
      case HeartbeatEvent =>
      case CloseEvent(_, _, _) => assert Calls([Reconnect]) == Calls([Reconnect][1..]) == [];
    }
    StaysListening(env, log);
  }

  lemma {:induction false} StaysListening(env: Env, log: seq<C.Event>)
    ensures H.After(UserOf(env), log).onclose
    decreases |log|
  {
    if log != [] {
      var n := |log| - 1;
      StaysListening(env, log[..n]);
      if log[n].MessageEvent? && log[n].data != [LF] {
        NoneDisconnects(env, log, H.Before(UserOf(env), log).client, Unmarshal(log[n].data));
      }
    }
  }

  lemma {:induction false} NoneDisconnects(env: Env, log: seq<C.Event>, c: ClientState, frames: seq<Frame>)
    ensures Disconnect !in History(c, frames, UserOf(env).program(log), false)
    decreases |frames|
  {
    if frames != [] {
      var program := UserOf(env).program(log);
      var answer := AnswerTo(c, frames[0], program, false);
      RanIsAsked(answer);
      NoneDisconnects(env, log, Run(c, HistoryOfOne(c, frames[0], program, false)), frames[1..]);
    }
  }

  lemma {:induction false} RanIsAsked(rs: seq<Request>)
    ensures forall r :: r in Ran(rs) ==> r in rs
    decreases |rs|
  {
    if rs != [] {
      RanIsAsked(rs[1..]);
    }
  }

  // Events that start timers

  /** A handler whose only reaction is `reconnect` calls nothing and starts one timer. */
  lemma ReconnectOnly(env: Env, log: seq<C.Event>)
    requires Reactions(env, log) == [Reconnect]
    ensures HandlerOf(env)(log) == [] && Started(Reactions(env, log)) == 1
  {
    var rs := Reactions(env, log);
    assert rs[1..] == [];
    assert Calls(rs) == [];
    assert HandlerOf(env)(log) == Calls(rs);
  }

  lemma ErrorReaction(env: Env, log: seq<C.Event>, data: Str, frame: Frame)
    requires log != [] && log[|log| - 1] == C.MessageEvent(data)
    requires data != [LF] && Unmarshal(data) == [frame] && frame.command == Ascii("ERROR")
    ensures Reactions(env, log) == [Reconnect]
  {
    var c := H.Before(UserOf(env), log).client;
    ErrorHistory(env, log, c, frame);
    OneReaction(c, Receive(frame));
    ErrorTarget(c, frame);
  }

  lemma ErrorHistory(env: Env, log: seq<C.Event>, c: ClientState, frame: Frame)
    requires frame.command == Ascii("ERROR")
    ensures History(c, [frame], UserOf(env).program(log), false) == [Receive(frame)]
  {
    var frames, none: seq<Frame> := [frame], [];
    ErrorTarget(c, frame);
    assert frames[1..] == none;
  }

  lemma OneReaction(c: ClientState, op: Op)
    ensures OpsReactions(c, [op]) == OpReactions(c, op)
  {
    var none: seq<Op> := [op][..0];
    assert none == [] && Run(c, none) == c;
  }

  lemma ErrorTarget(c: ClientState, frame: Frame)
    ensures TargetOf(c, frame, false) == ErrorCallback <==> frame.command == Ascii("ERROR")
  {
    assert Ascii("ERROR")[0] == 'E' as int;
    assert Ascii("CONNECTED")[0] == 'C' as int;
    assert Ascii("MESSAGE")[0] == 'M' as int;
    assert Ascii("RECEIPT")[0] == 'R' as int;
  }

  lemma {:induction false} StartedConcat(a: seq<Reaction>, b: seq<Reaction>)
    ensures Started(a + b) == Started(a) + if H.AnyThrows(Calls(a)) then 0 else Started(b)
    decreases |a|
  {
    if a == [] {
      assert a + b == b;
    } else {
      assert (a + b)[0] == a[0] && (a + b)[1..] == a[1..] + b;
      StartedConcat(a[1..], b);
      if a[0].Do? {
        H.AnyThrowsConcat([a[0].call], Calls(a[1..]));
        assert [a[0].call][0] == a[0].call;
      } else {
        assert [] + Calls(a[1..]) == Calls(a[1..]);
      }
    }
  }

  lemma {:induction false} DoingStartsNothing(calls: seq<C.Call>)
    ensures Started(Does(calls)) == 0
    decreases |calls|
  {
    if calls != [] {
      assert Does(calls)[1..] == Does(calls[1..]);
      DoingStartsNothing(calls[1..]);
    }
  }

  lemma OpsReactionsSnoc(c: ClientState, a: seq<Op>, op: Op)
    ensures OpsReactions(c, a + [op]) == OpsReactions(c, a) + OpReactions(Run(c, a), op)
  {
    assert (a + [op])[..|a|] == a;
  }

  lemma {:induction false} OpsReactionsConcat(c: ClientState, a: seq<Op>, b: seq<Op>)
    ensures OpsReactions(c, a + b) == OpsReactions(c, a) + OpsReactions(Run(c, a), b)
    decreases |b|
  {
    if b == [] {
      assert a + b == a;
    } else {
      var n := |b| - 1;
      var before, last := b[..n], b[n];
      assert b == before + [last];
      Assoc(a, before, [last]);
      RunConcat(c, a, before);
      OpsReactionsConcat(c, a, before);
      OpsReactionsSnoc(c, a + before, last);
      OpsReactionsSnoc(Run(c, a), before, last);
      Assoc(OpsReactions(c, a), OpsReactions(Run(c, a), before), OpReactions(Run(Run(c, a), before), last));
    }
  }

  lemma {:induction false} RequestsStartNothing(c: ClientState, rs: seq<Request>)
    ensures Started(OpsReactions(c, rs)) == 0
    decreases |rs|
  {
    if rs != [] {
      var n := |rs| - 1;
      var before, last := rs[..n], rs[n];
      RequestsStartNothing(c, before);
      DoingStartsNothing(H.OpCalls(Run(c, before), last));
      StartedConcat(OpsReactions(c, before), OpReactions(Run(c, before), last));
    }
  }

  /** How many are handed to the error callback. */
  function ErrorsAmong(ds: seq<Delivery>): nat {
    if ds == [] then 0 else (if ds[0].to == ErrorCallback then 1 else 0) + ErrorsAmong(ds[1..])
  }

  lemma ErrorsAmongFirst(d: Delivery, ds: seq<Delivery>)
    ensures ErrorsAmong([d] + ds) == (if d.to == ErrorCallback then 1 else 0) + ErrorsAmong(ds)
  {
    assert ([d] + ds)[1..] == ds;
  }

  /** A frame starts a timer exactly if it goes to the error callback. */
  lemma FrameStarts(env: Env, log: seq<C.Event>, c: ClientState, frame: Frame)
    ensures Started(OpsReactions(c, HistoryOfOne(c, frame, UserOf(env).program(log), false)))
            == if TargetOf(c, frame, false) == ErrorCallback then 1 else 0
  {
    var program := UserOf(env).program(log);
    var answer := AnswerTo(c, frame, program, false);
    var first: seq<Op> := [Receive(frame)];
    OpsReactionsConcat(c, first, Ran(answer));
    OneReaction(c, Receive(frame));
    RequestsStartNothing(Run(c, first), Ran(answer));
    StartedConcat(OpReactions(c, Receive(frame)), OpsReactions(Run(c, first), Ran(answer)));
  }

  lemma FrameThrowsIff(c: ClientState, frame: Frame, program: Program)
    ensures H.AnyThrows(Calls(OpsReactions(c, HistoryOfOne(c, frame, program, false))))
            <==> Interrupted(AnswerTo(c, frame, program, false))
  {
    CallsOfOps(c, HistoryOfOne(c, frame, program, false));
    H.OpsThrowIff(c, HistoryOfOne(c, frame, program, false));
    H.OneThrowsIff(c, frame, program, false);
  }

  /** Dispatching frames starts one timer for each that is handed to the error callback. */
  lemma {:induction false} FramesStart(env: Env, log: seq<C.Event>, c: ClientState, frames: seq<Frame>)
    ensures var ops := History(c, frames, UserOf(env).program(log), false);
            Started(OpsReactions(c, ops)) == ErrorsAmong(Deliveries(c, ops, false))
    decreases |frames|
  {
    if frames != [] {
      var program := UserOf(env).program(log);
      var one := HistoryOfOne(c, frames[0], program, false);
      var d := Delivery(TargetOf(c, frames[0], false), frames[0]);
      FrameStarts(env, log, c, frames[0]);
      FrameThrowsIff(c, frames[0], program);
      OneDelivers(c, frames[0], program, false);
      if Interrupted(AnswerTo(c, frames[0], program, false)) {
        ErrorsAmongFirst(d, []);
        assert [d] + [] == [d];
      } else {
        var rest := History(Run(c, one), frames[1..], program, false);
        FramesStart(env, log, Run(c, one), frames[1..]);
        OpsReactionsConcat(c, one, rest);
        StartedConcat(OpsReactions(c, one), OpsReactions(Run(c, one), rest));
        DeliveriesConcat(c, one, rest, false);
        ErrorsAmongFirst(d, Deliveries(Run(c, one), rest, false));
      }
    }
  }

  lemma {:induction false} ErrorsAmongIff(ds: seq<Delivery>)
    ensures ErrorsAmong(ds) > 0 <==> exists j :: 0 <= j < |ds| && ds[j].to == ErrorCallback
    decreases |ds|
  {
    if ds != [] {
      ErrorsAmongIff(ds[1..]);
      assert forall j :: 1 <= j < |ds| ==> ds[j] == ds[1..][j - 1];
    }
  }

  lemma {:induction false} ErrorsGoToTheErrorCallback(c: ClientState, ops: seq<Op>)
    ensures forall d <- Deliveries(c, ops, false) :: d.to == ErrorCallback <==> d.frame.command == Ascii("ERROR")
    decreases |ops|
  {
    if ops != [] {
      var n := |ops| - 1;
      ErrorsGoToTheErrorCallback(c, ops[..n]);
      if ops[n].Receive? {
        ErrorTarget(Run(c, ops[..n]), ops[n].frame);
      }
    }
  }

  /** The message that a log ends with has an ERROR frame as its frame `j`, and no callback
      throws on a frame before that. */
  ghost predicate ErrorAt(env: Env, log: seq<C.Event>, j: int)
    requires log != [] && log[|log| - 1].MessageEvent?
  {
    var data, ds := log[|log| - 1].data, H.MessageDeliveries(UserOf(env), log);
    && data != [LF] && 0 <= j < |Unmarshal(data)| && Unmarshal(data)[j].command == Ascii("ERROR")
    && forall i :: 0 <= i < j && i < |ds| ==> !Interrupted(Answer(UserOf(env).program(log), ds[i]))
  }

  lemma ErrorAtIsDelivered(env: Env, log: seq<C.Event>, j: int)
    requires log != [] && log[|log| - 1].MessageEvent?
    ensures var ds := H.MessageDeliveries(UserOf(env), log);
            ErrorAt(env, log, j) <==> 0 <= j < |ds| && ds[j].to == ErrorCallback
  {
    var data, v := log[|log| - 1].data, H.Before(UserOf(env), log);
    ErrorsGoToTheErrorCallback(v.client, H.EventOps(UserOf(env), v, log));
    if data != [LF] {
      HistoryDelivers(v.client, Unmarshal(data), UserOf(env).program(log), false);
    }
  }

  ghost predicate HasError(env: Env, log: seq<C.Event>)
    requires log != [] && log[|log| - 1].MessageEvent?
  {
    exists j :: ErrorAt(env, log, j)
  }

  /** A message starts a timer if and only if there is an ERROR frame in it and no callback
      throws on a frame before that. */
  lemma MessageStartsIff(env: Env, log: seq<C.Event>)
    requires log != [] && log[|log| - 1].MessageEvent?
    ensures Started(Reactions(env, log)) > 0 <==> HasError(env, log)
  {
    var data, v := log[|log| - 1].data, H.Before(UserOf(env), log);
    var ds := H.MessageDeliveries(UserOf(env), log);
    if data != [LF] {
      FramesStart(env, log, v.client, Unmarshal(data));
    }
    ErrorsAmongIff(ds);
    forall j ensures ErrorAt(env, log, j) <==> 0 <= j < |ds| && ds[j].to == ErrorCallback {
      ErrorAtIsDelivered(env, log, j);
    }
    if j :| 0 <= j < |ds| && ds[j].to == ErrorCallback {
      assert ErrorAt(env, log, j);
    }
  }
}
