/** How many reconnect timers the page runs, and what they do: one for each connection that
    is lost, and one more for each ERROR frame. */
module PageTimers {
  import opened Text
  import opened StompFrame
  import opened Page
  import opened PageHandlers
  import H = StompHandler
  import opened StompOverSockJs
  import opened Protocols
  import C = Connection
  import Safety = ConnectionSafety

  // ERROR frames

  /** The timers that messages, as against close events, start from a position of a log on:
      one for each ERROR frame handed to the page. */
  function Errors(env: Env, log: seq<C.Event>, from: nat): nat
    decreases |log| - from
  {
    if from >= |log| then 0
    else (if log[from].CloseEvent? then 0 else Started(Reactions(env, log[..from + 1]))) + Errors(env, log, from + 1)
  }

  function Closes(log: seq<C.Event>, from: nat): nat
    decreases |log| - from
  {
    if from >= |log| then 0 else (if log[from].CloseEvent? then 1 else 0) + Closes(log, from + 1)
  }

  lemma {:induction false} ScheduledSplits(env: Env, log: seq<C.Event>, from: nat, onclose: bool)
    ensures Scheduled(env, log, from, onclose) == Errors(env, log, from) + if onclose then Closes(log, from) else 0
    decreases |log| - from
  {
    if from < |log| {
      ScheduledSplits(env, log, from + 1, onclose);
      if log[from].CloseEvent? {
        var shown := log[..from + 1];
        assert Reactions(env, shown) == [Reconnect];
        ReconnectOnly(env, shown);
      }
    }
  }

  /** Event `k` is a message that has an ERROR frame ahead of any callback that throws. */
  ghost predicate ErrorEvent(env: Env, log: seq<C.Event>, k: nat)
    requires k < |log|
  {
    log[k].MessageEvent? && HasError(env, log[..k + 1])
  }

  ghost predicate AnyError(env: Env, log: seq<C.Event>, from: nat) {
    exists k: nat :: from <= k < |log| && ErrorEvent(env, log, k)
  }

  lemma AnyErrorFirst(env: Env, log: seq<C.Event>, from: nat)
    requires from < |log|
    ensures AnyError(env, log, from) <==> ErrorEvent(env, log, from) || AnyError(env, log, from + 1)
  {
  }

  /** Events start timers besides those for a loss exactly when there is such a message among
      them. */
  lemma {:induction false} ErrorsIff(env: Env, log: seq<C.Event>, from: nat)
    ensures Errors(env, log, from) > 0 <==> AnyError(env, log, from)
    decreases |log| - from
  {
    if from < |log| {
      ErrorsIff(env, log, from + 1);
      EventStartsIff(env, log, from);
      AnyErrorFirst(env, log, from);
    }
  }

  lemma EventStartsIff(env: Env, log: seq<C.Event>, k: nat)
    requires k < |log|
    ensures (!log[k].CloseEvent? && Started(Reactions(env, log[..k + 1])) > 0)
            <==> ErrorEvent(env, log, k)
  {
    var shown := log[..k + 1];
    match log[k]
    case OpenEvent => DoingStartsNothing(H.FrameCalls(H.CONNECT));
    case MessageEvent(_) => MessageStartsIff(env, shown);
    case HeartbeatEvent =>
    case CloseEvent(_, _, _) =>
  }

  // What arrives

  /** The messages that a frame shows on an open socket: those of an array up to the first
      whose handling closes the socket or throws. */
  function NewMessages(env: Env, log: seq<C.Event>, frame: C.Frame): seq<Str> {
    match frame
    case ArrayFrame(payload) => payload[..Safety.Seen(HandlerOf(env), log, payload)]
    case MessageFrame(data) => [data]
    case _ => []
  }

  /** What arrives is an ERROR frame for the page: on an open socket, in a message that it
      shows, ahead of any callback that throws. */
  ghost predicate ErrorArrives(env: Env, w: World, m: Move) {
    && m.SocketStep? && m.i < |w.sockets| && m.o.what.FrameArrived?
    && var s := w.sockets[m.i].conn;
    && s.readyState == C.OPEN
    && AnyError(env, s.log + Safety.Messages(NewMessages(env, s.log, m.o.what.frame)), |s.log|)
  }

  lemma NoMessageNoError(env: Env, log: seq<C.Event>, from: nat)
    requires forall k :: from <= k < |log| ==> !log[k].MessageEvent?
    ensures Errors(env, log, from) == 0 && !AnyError(env, log, from)
  {
    ErrorsIff(env, log, from);
  }

  ghost predicate NoneIsMessage(s: C.State, t: C.State) {
    forall k :: |s.log| <= k < |t.log| ==> !t.log[k].MessageEvent?
  }

  /** Nothing but a message on an open socket is dispatched as one. */
  lemma OthersAreNoMessages(config: C.Config, h: C.Handler, s: C.State, o: C.Occurrence)
    requires Safety.Inv(s)
    requires s.readyState == C.OPEN && o.what.FrameArrived? ==> !o.what.frame.ArrayFrame? && !o.what.frame.MessageFrame?
    ensures NoneIsMessage(s, C.Step(config, h, s, o).state)
  {
    var n := s.(now := o.at);
    match o.what
    case InfoArrived(info, rtt) =>
      match info {
        case Some(i) => CloseIsNoMessage(C.ApplyInfo(n, i, rtt, config, o.enabled), None, false, o.enabled);
        case None => CloseIsNoMessage(n.(infoPending := false), Some(1002), true, o.enabled);
      }
    case FrameArrived(frame) =>
      if s.transport.Some? {
        FrameIsNoMessage(n, frame, h, o.enabled);
      }
    case TransportFailed => CloseIsNoMessage(n, Some(1006), false, o.enabled);
    case PostFailed => CloseIsNoMessage(n, Some(1006), false, o.enabled);
    case TimerFired => CloseIsNoMessage(n, Some(2007), false, o.enabled);
    case CloseDispatched => CloseEventIsNoMessage(config, h, s, o);
    case UserCalls(calls) => Safety.PerformKeeps(n, calls, o.enabled);
  }

  lemma CloseEventIsNoMessage(config: C.Config, h: C.Handler, s: C.State, o: C.Occurrence)
    requires Safety.Inv(s) && o.what.CloseDispatched?
    ensures NoneIsMessage(s, C.Step(config, h, s, o).state)
  {
    if s.delayed != [] {
      Safety.CloseDispatchKeeps(s.(now := o.at), h, o.enabled);
      ClosedShowsNone(s, C.Step(config, h, s, o).state);
    }
  }

  lemma ClosedShowsNone(s: C.State, t: C.State)
    requires Safety.Inv(s) && s.readyState == C.CLOSED && Safety.Forward(s, t)
    ensures NoneIsMessage(s, t)
  {
    forall k | |s.log| <= k < |t.log| ensures !t.log[k].MessageEvent? {
      assert (t.log + t.delayed)[k] == (s.log + s.delayed)[k] == s.delayed[k - |s.log|];
    }
  }

  lemma CloseIsNoMessage(s: C.State, code: Option<int>, force: bool, enabled: set<Protocol>)
    ensures C.DidClose(s, code, force, enabled).state.log == s.log
  {
    LogStays(s.(infoPending := false, transport := None, timer := None), enabled);
  }

  lemma {:induction false} LogStays(s: C.State, enabled: set<Protocol>)
    ensures C.OpenNext(s, enabled).0.log == s.log
    decreases |s.protocols|
  {
    if s.protocols != [] && s.protocols[0] !in enabled {
      LogStays(s.(protocols := s.protocols[1..]), enabled);
    }
  }

  lemma FrameIsNoMessage(s: C.State, frame: C.Frame, h: C.Handler, enabled: set<Protocol>)
    requires Safety.Inv(s) && s.transport.Some?
    requires s.readyState == C.OPEN ==> !frame.ArrayFrame? && !frame.MessageFrame?
    ensures NoneIsMessage(s, C.DidMessage(s, frame, h, enabled).state)
  {
    match frame
    case OpenFrame =>
      if s.readyState == C.CONNECTING {
        Safety.DispatchKeeps(s.(timer := None, readyState := C.OPEN), C.OpenEvent, h, enabled);
      } else {
        CloseIsNoMessage(s, Some(1006), false, enabled);
      }
    case ArrayFrame(payload) => Safety.ClosedDelivers(s, payload, h, enabled);
    case MessageFrame(_) =>
    case CloseFrame(code) => Safety.DidCloseKeeps(s, code, false, enabled);
    case HeartbeatFrame =>
      if s.readyState == C.OPEN {
        Safety.DispatchKeeps(s, C.HeartbeatEvent, h, enabled);
      }
    case UnknownFrame =>
    case BrokenFrame =>
  }

  /** A frame on an open socket shows its messages, and no others. */
  lemma FrameShows(env: Env, s: C.State, frame: C.Frame, enabled: set<Protocol>)
    requires Safety.Inv(s) && s.readyState == C.OPEN && (frame.ArrayFrame? || frame.MessageFrame?)
    ensures C.DidMessage(s, frame, HandlerOf(env), enabled).state.log
            == s.log + Safety.Messages(NewMessages(env, s.log, frame))
  {
    match frame
    case ArrayFrame(payload) => Safety.ArrayIsCut(s, payload, HandlerOf(env), enabled);
    case MessageFrame(data) => MessageShows(s, data, HandlerOf(env), enabled);
  }

  lemma MessageShows(s: C.State, data: Str, h: C.Handler, enabled: set<Protocol>)
    requires Safety.Inv(s) && s.readyState == C.OPEN
    ensures C.DidMessage(s, C.MessageFrame(data), h, enabled).state.log == s.log + Safety.Messages([data])
  {
    Safety.DispatchKeeps(s, C.MessageEvent(data), h, enabled);
    assert Safety.Messages([data]) == [C.MessageEvent(data)];
  }

  lemma NothingNew(env: Env, log: seq<C.Event>, frame: C.Frame)
    requires !frame.ArrayFrame? && !frame.MessageFrame?
    ensures !AnyError(env, log + Safety.Messages(NewMessages(env, log, frame)), |log|)
  {
  }

  /** Timers are started besides those for losses exactly when an ERROR frame arrives. */
  lemma ErrorsInIff(env: Env, w: World, m: Move)
    requires Inv(w)
    ensures ErrorsIn(env, w, m) > 0 <==> ErrorArrives(env, w, m)
  {
    if m.SocketStep? && m.i < |w.sockets| {
      SocketErrorsIff(env, w.sockets[m.i].conn, m.o);
    }
  }

  lemma SocketErrorsIff(env: Env, s: C.State, o: C.Occurrence)
    requires Safety.Inv(s)
    ensures Errors(env, C.Step(env.config, HandlerOf(env), s, o).state.log, |s.log|) > 0
            <==> && o.what.FrameArrived? && s.readyState == C.OPEN
                 && AnyError(env, s.log + Safety.Messages(NewMessages(env, s.log, o.what.frame)), |s.log|)
  {
    var t := C.Step(env.config, HandlerOf(env), s, o).state;
    if s.readyState == C.OPEN && o.what.FrameArrived? && (o.what.frame.ArrayFrame? || o.what.frame.MessageFrame?) {
      FrameShows(env, s.(now := o.at), o.what.frame, o.enabled);
      ErrorsIff(env, t.log, |s.log|);
    } else {
      OthersAreNoMessages(env.config, HandlerOf(env), s, o);
      NoMessageNoError(env, t.log, |s.log|);
      if o.what.FrameArrived? && s.readyState == C.OPEN {
        NothingNew(env, s.log, o.what.frame);
      }
    }
  }

  // Conservation

  /** A socket whose loss the page has still to hear of. */
  function Live(s: C.State): nat {
    if s.readyState != C.CLOSED || s.delayed != [] then 1 else 0
  }

  function CurrentLive(w: World): nat {
    if w.sockets == [] then 0 else Live(w.sockets[|w.sockets| - 1].conn)
  }

  /** What will lead to a `connect`: the timers, and the current socket when it is lost. */
  function Pending(w: World): nat {
    w.timers + CurrentLive(w)
  }

  /** The page has one thing to wait for at most. */
  predicate Calm(w: World) {
    Pending(w) <= 1
  }

  lemma {:induction false} NoCloses(log: seq<C.Event>, from: nat)
    requires forall i :: from <= i < |log| ==> !log[i].CloseEvent?
    ensures Closes(log, from) == 0
    decreases |log| - from
  {
    if from < |log| {
      NoCloses(log, from + 1);
    }
  }

  lemma {:induction false} OneClose(log: seq<C.Event>, from: nat)
    requires from < |log| && log[|log| - 1].CloseEvent?
    requires forall i :: from <= i < |log| - 1 ==> !log[i].CloseEvent?
    ensures Closes(log, from) == 1
    decreases |log| - from
  {
    if from < |log| - 1 {
      OneClose(log, from + 1);
    }
  }

  /** A live socket tells of its loss once. */
  lemma LiveOrHeard(s: C.State, t: C.State)
    requires Safety.Inv(s) && Safety.Inv(t) && Safety.Forward(s, t)
    ensures Live(t) + Closes(t.log, |s.log|) == Live(s)
  {
    if Live(t) == 1 {
      NoCloses(t.log, |s.log|);
      LiveBefore(s, t);
    } else if Live(s) == 1 {
      NoCloseYetOf(s);
      var body := t.log[..|t.log| - 1];
      assert forall i :: 0 <= i < |t.log| - 1 ==> t.log[i] == body[i];
      OneClose(t.log, |s.log|);
    } else {
      assert |t.log| + |t.delayed| == |s.log| + |s.delayed|;
    }
  }

  lemma LiveBefore(s: C.State, t: C.State)
    requires Safety.Forward(s, t) && Safety.Inv(t) && Live(t) == 1
    ensures Live(s) == 1
  {
    assert Live(s) == 0 ==> |t.log + t.delayed| == |s.log + s.delayed|;
  }

  lemma NoCloseYetOf(s: C.State)
    requires Safety.Inv(s) && Live(s) == 1
    ensures forall i :: 0 <= i < |s.log| ==> !s.log[i].CloseEvent?
  {
  }

  /** The ERROR frames that a move hands to the page. */
  function ErrorsIn(env: Env, w: World, m: Move): nat {
    if m.SocketStep? && m.i < |w.sockets| then
      var s := w.sockets[m.i].conn;
      Errors(env, C.Step(env.config, HandlerOf(env), s, m.o).state.log, |s.log|)
    else 0
  }

  /** Whatever happens to any socket ever made: what is pending grows by one for each ERROR
      frame handed to the page, and is conserved otherwise. */
  lemma SocketConserves(env: Env, w: World, m: Move)
    requires Inv(w) && m.SocketStep?
    ensures Pending(Step(env, w, m)) == Pending(w) + ErrorsIn(env, w, m)
  {
    if m.i < |w.sockets| {
      var socket := w.sockets[m.i];
      var t := C.Step(env.config, HandlerOf(env), socket.conn, m.o).state;
      var started := Scheduled(env, t.log, |socket.conn.log|, socket.onclose);
      Safety.StepKeeps(env.config, HandlerOf(env), socket.conn, m.o);
      ScheduledSplits(env, t.log, |socket.conn.log|, socket.onclose);
      if m.i == |w.sockets| - 1 {
        LiveOrHeard(socket.conn, t);
      }
      LandedPending(w, m.i, t, started);
    }
  }

  lemma LandedPending(w: World, i: nat, t: C.State, started: nat)
    requires i < |w.sockets|
    ensures Pending(Landed(w, i, t, started))
         == w.timers + started + if i == |w.sockets| - 1 then Live(t) else CurrentLive(w)
  {
  }

  /** A timer that fires while the current socket is lost keeps what is pending, with the new
      socket in its place; one that fires while there is a live socket is spent for nothing. */
  lemma TimerSpends(env: Env, w: World, at: int, enabled: set<Protocol>)
    requires Inv(w) && w.timers > 0
    ensures Pending(Step(env, w, ReconnectTimer(at, enabled))) == Pending(w) - CurrentLive(w)
  {
    if w.sockets != [] && w.sockets[|w.sockets| - 1].conn.readyState != C.CONNECTING {
      DisconnectCloses(w.sockets[|w.sockets| - 1].conn, enabled);
    }
  }

  lemma LoadAdds(env: Env, w: World, at: int, enabled: set<Protocol>)
    requires Inv(w)
    ensures Pending(Step(env, w, Load(at, enabled))) == Pending(w) + 1 - CurrentLive(w)
  {
    if w.sockets != [] && w.sockets[|w.sockets| - 1].conn.readyState != C.CONNECTING {
      DisconnectCloses(w.sockets[|w.sockets| - 1].conn, enabled);
    }
  }

  // Runs

  function Loads(ms: seq<Move>): nat {
    if ms == [] then 0 else (if ms[0].Load? then 1 else 0) + Loads(ms[1..])
  }

  function TotalErrors(env: Env, w: World, ms: seq<Move>): nat
    decreases |ms|
  {
    if ms == [] then 0 else ErrorsIn(env, w, ms[0]) + TotalErrors(env, Step(env, w, ms[0]), ms[1..])
  }

  lemma {:induction false} PendingIsBounded(env: Env, w: World, ms: seq<Move>)
    requires Inv(w)
    ensures Pending(Run(env, w, ms)) <= Pending(w) + Loads(ms) + TotalErrors(env, w, ms)
    decreases |ms|
  {
    if ms != [] {
      StepKeeps(env, w, ms[0]);
      match ms[0] {
        case Load(at, enabled) => LoadAdds(env, w, at, enabled);
        case ReconnectTimer(at, enabled) =>
          if w.timers > 0 {
            TimerSpends(env, w, at, enabled);
          }
        case SocketStep(_, _) => SocketConserves(env, w, ms[0]);
      }
      PendingIsBounded(env, Step(env, w, ms[0]), ms[1..]);
    }
  }

  /** Over a whole run, no ERROR frame arrives. */
  ghost predicate NoErrorArrives(env: Env, w: World, ms: seq<Move>)
    decreases |ms|
  {
    ms != [] ==> !ErrorArrives(env, w, ms[0]) && NoErrorArrives(env, Step(env, w, ms[0]), ms[1..])
  }

  lemma {:induction false} NoErrorsInRun(env: Env, w: World, ms: seq<Move>)
    requires Inv(w) && NoErrorArrives(env, w, ms)
    ensures TotalErrors(env, w, ms) == 0
    decreases |ms|
  {
    if ms != [] {
      ErrorsInIff(env, w, ms[0]);
      StepKeeps(env, w, ms[0]);
      NoErrorsInRun(env, Step(env, w, ms[0]), ms[1..]);
    }
  }

  /** In every run of a page that is loaded once and to which no ERROR frame arrives, there is
      one reconnect at most for a connection that is lost. */
  lemma CalmWithoutErrors(env: Env, ms: seq<Move>)
    requires Loads(ms) <= 1 && NoErrorArrives(env, EMPTY, ms)
    ensures Calm(Run(env, EMPTY, ms))
  {
    NoErrorsInRun(env, EMPTY, ms);
    PendingIsBounded(env, EMPTY, ms);
  }

  /** In every run, a calm page stays calm in whatever happens to a socket if and only if that
      is not the arrival of an ERROR frame. */
  lemma CalmStepIff(env: Env, ms: seq<Move>, w: World, m: Move)
    requires w == Run(env, EMPTY, ms) && w.sockets != [] && Calm(w) && m.SocketStep?
    ensures Calm(Step(env, w, m)) <==> !ErrorArrives(env, w, m)
  {
    RunKeeps(env, EMPTY, ms);
    SocketConserves(env, w, m);
    ErrorsInIff(env, w, m);
    assert Pending(w) == 1;
  }

  /** On a calm page a timer fires only for a connection that is lost and known to be: it
      does not throw, and takes nothing down. */
  lemma CalmTimerReplacesLost(env: Env, ms: seq<Move>, w: World, at: int, enabled: set<Protocol>)
    requires w == Run(env, EMPTY, ms) && w.sockets != [] && Calm(w) && w.timers > 0
    ensures var current := w.sockets[|w.sockets| - 1].conn;
            && current.readyState == C.CLOSED && current.delayed == []
            && !Connect(w.(timers := w.timers - 1), at, enabled).1
            && Calm(Step(env, w, ReconnectTimer(at, enabled)))
  {
    RunKeeps(env, EMPTY, ms);
    CalmIsLost(w);
    LostConnects(w, at, enabled);
    CalmTimerSpends(env, w, at, enabled);
  }

  lemma LostConnects(w: World, at: int, enabled: set<Protocol>)
    requires w.sockets != [] && w.sockets[|w.sockets| - 1].conn.readyState == C.CLOSED && w.timers > 0
    ensures !Connect(w.(timers := w.timers - 1), at, enabled).1
  {
  }

  lemma CalmTimerSpends(env: Env, w: World, at: int, enabled: set<Protocol>)
    requires Inv(w) && Calm(w) && w.timers > 0
    ensures Calm(Step(env, w, ReconnectTimer(at, enabled)))
  {
    TimerSpends(env, w, at, enabled);
  }

  lemma CalmIsLost(w: World)
    requires Inv(w) && w.sockets != [] && Calm(w) && w.timers > 0
    ensures var current := w.sockets[|w.sockets| - 1].conn;
            current.readyState == C.CLOSED && current.delayed == []
  {
  }

  /** From a live socket to the news of its loss, with whatever happens to sockets in between:
      one timer is started, and one more for each ERROR frame handed to the page. */
  lemma LossStartsTimers(env: Env, w: World, ms: seq<Move>)
    requires Inv(w) && CurrentLive(w) == 1
    requires forall i :: 0 <= i < |ms| ==> ms[i].SocketStep?
    requires CurrentLive(Run(env, w, ms)) == 0
    ensures Run(env, w, ms).timers == w.timers + 1 + TotalErrors(env, w, ms)
  {
    SocketRunConserves(env, w, ms);
  }

  lemma {:induction false} SocketRunConserves(env: Env, w: World, ms: seq<Move>)
    requires Inv(w) && forall i :: 0 <= i < |ms| ==> ms[i].SocketStep?
    ensures Pending(Run(env, w, ms)) == Pending(w) + TotalErrors(env, w, ms)
    decreases |ms|
  {
    if ms != [] {
      StepKeeps(env, w, ms[0]);
      SocketConserves(env, w, ms[0]);
      SocketRunConserves(env, Step(env, w, ms[0]), ms[1..]);
    }
  }

  /** An ERROR frame does arrive that way: any message that is one, on an open connection. */
  lemma ErrorBreaksCalm(env: Env, w: World, data: Str, frame: Frame, o: C.Occurrence)
    requires Inv(w) && w.sockets != [] && w.sockets[|w.sockets| - 1].conn.readyState == C.OPEN
    requires o.what == C.FrameArrived(C.MessageFrame(data))
    requires data != [LF] && Unmarshal(data) == [frame] && frame.command == Ascii("ERROR")
    ensures var i := |w.sockets| - 1;
            ErrorsIn(env, w, SocketStep(i, o)) == 1 && !Calm(Step(env, w, SocketStep(i, o)))
  {
    var i := |w.sockets| - 1;
    var s := w.sockets[i].conn;
    ErrorHeard(env, s, data, frame, o);
    var t := C.Step(env.config, HandlerOf(env), s, o).state;
    ScheduledSplits(env, t.log, |s.log|, true);
    NoCloses(t.log, |s.log|);
    SocketConserves(env, w, SocketStep(i, o));
  }
}
