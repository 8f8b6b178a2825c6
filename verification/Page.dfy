/** The page: `connect` replaces one STOMP client, and with it one SockJS object, by the next,
    and `reconnect` schedules that. All SockJS objects ever made go on living beside each
    other, with whatever happens to their transports, timers and delayed events. */
module Page {
  import opened Text
  import opened StompFrame
  import opened PageHandlers
  import opened StompOverSockJs
  import opened Protocols
  import C = Connection
  import Safety = ConnectionSafety

  /** A SockJS object and whether its `onclose` is set. */
  datatype Socket = Socket(conn: C.State, onclose: bool)

  /** The client in the global variable is the one over the last socket. */
  datatype World = World(sockets: seq<Socket>, timers: nat)

  // Moves

  /** The page calls `connect`; a reconnect timer fires and calls it; or something happens to
      one of the sockets, timers that call `send` or `close` on it included. */
  datatype Move =
    | Load(at: int, enabled: set<Protocol>)
    | ReconnectTimer(at: int, enabled: set<Protocol>)
    | SocketStep(i: nat, o: C.Occurrence)

  /** `connect`, and whether it throws. */
  function Connect(w: World, at: int, enabled: set<Protocol>): (World, bool) {
    var n := |w.sockets|;
    if n == 0 then (w.(sockets := [Socket(C.Initial(at), true)]), false)
    else
      var conn := w.sockets[n - 1].conn;
      if conn.readyState == C.CONNECTING then (w, true)
      else
        var replaced := w.sockets[n - 1 := Socket(AfterDisconnect(conn, enabled), false)];
        (w.(sockets := replaced + [Socket(C.Initial(at), true)]), false)
  }

  function OnSocket(env: Env, w: World, i: nat, o: C.Occurrence): World
    requires i < |w.sockets|
  {
    var socket := w.sockets[i];
    var t := C.Step(env.config, HandlerOf(env), socket.conn, o).state;
    Landed(w, i, t, Scheduled(env, t.log, |socket.conn.log|, socket.onclose))
  }

  function Landed(w: World, i: nat, t: C.State, started: nat): World
    requires i < |w.sockets|
  {
    World(w.sockets[i := w.sockets[i].(conn := t)], w.timers + started)
  }

  function Step(env: Env, w: World, m: Move): World {
    match m
    case Load(at, enabled) => Connect(w, at, enabled).0
    case ReconnectTimer(at, enabled) =>
      if w.timers == 0 then w else Connect(w.(timers := w.timers - 1), at, enabled).0
    case SocketStep(i, o) => if i < |w.sockets| then OnSocket(env, w, i, o) else w
  }

  function Run(env: Env, w: World, ms: seq<Move>): World
    decreases |ms|
  {
    if ms == [] then w else Run(env, Step(env, w, ms[0]), ms[1..])
  }

  const EMPTY: World := World([], 0)

  // Invariant

  ghost predicate SocketsOk(w: World) {
    forall i :: 0 <= i < |w.sockets| ==> Safety.Inv(w.sockets[i].conn)
  }

  /** Every socket but the current one is CLOSED, and its close event is not heard. */
  ghost predicate OldOnesClosed(w: World) {
    forall i :: 0 <= i < |w.sockets| - 1 ==> w.sockets[i].conn.readyState == C.CLOSED && !w.sockets[i].onclose
  }

  /** The page still works on having a connection: the current one is not CLOSED, or its
      close event is on its way to `reconnect`, or a reconnect timer is running. */
  ghost predicate NotStuck(w: World) {
    w.sockets != [] ==>
      var current := w.sockets[|w.sockets| - 1];
      && current.onclose
      && (current.conn.readyState == C.CLOSED ==> current.conn.delayed != [] || w.timers > 0)
  }

  ghost predicate Inv(w: World) {
    SocketsOk(w) && OldOnesClosed(w) && NotStuck(w)
  }

  lemma DisconnectCloses(conn: C.State, enabled: set<Protocol>)
    requires Safety.Inv(conn) && conn.readyState != C.CONNECTING
    ensures var t := AfterDisconnect(conn, enabled);
            && Safety.Inv(t) && t.readyState == C.CLOSED && t.log == conn.log
            && t.sent == if conn.readyState == C.OPEN then conn.sent + DisconnectPieces() else conn.sent
  {
    Safety.PerformOneKeeps(AfterSending(conn, DisconnectPieces()), C.CallClose(0), enabled);
  }

  lemma ConnectKeeps(w: World, at: int, enabled: set<Protocol>)
    requires SocketsOk(w) && OldOnesClosed(w)
    requires w.sockets != [] ==> w.sockets[|w.sockets| - 1].onclose
    ensures Inv(Connect(w, at, enabled).0)
  {
    var n := |w.sockets|;
    if n > 0 && w.sockets[n - 1].conn.readyState != C.CONNECTING {
      DisconnectCloses(w.sockets[n - 1].conn, enabled);
    }
  }

  /** The close event of a socket with `onclose` set starts a timer. */
  lemma {:induction false} CloseSchedules(env: Env, log: seq<C.Event>, from: nat)
    requires from < |log| && log[|log| - 1].CloseEvent?
    ensures Scheduled(env, log, from, true) > 0
    decreases |log| - from
  {
    if from == |log| - 1 {
      assert log[..from + 1] == log;
      assert Reactions(env, log) == [Reconnect];
    } else {
      CloseSchedules(env, log, from + 1);
    }
  }

  /** A socket that becomes CLOSED, or still had to say so, has its close event on its way
      or has started a timer. */
  lemma ClosedOrHeard(env: Env, s: C.State, t: C.State)
    requires Safety.Inv(s) && Safety.Inv(t) && Safety.Forward(s, t)
    requires t.readyState == C.CLOSED && (s.readyState == C.CLOSED ==> s.delayed != [])
    ensures t.delayed != [] || Scheduled(env, t.log, |s.log|, true) > 0
  {
    if t.delayed == [] {
      assert t.log[|t.log| - 1].CloseEvent?;
      if |t.log| == |s.log| {
        assert t.log == s.log;
        NoCloseYet(s);
      }
      CloseSchedules(env, t.log, |s.log|);
    }
  }

  lemma CurrentNotStuck(env: Env, s: C.State, o: C.Occurrence)
    requires Safety.Inv(s)
    ensures var t := C.Step(env.config, HandlerOf(env), s, o).state;
            && Safety.Inv(t)
            && (t.readyState == C.CLOSED && (s.readyState == C.CLOSED ==> s.delayed != []) ==>
                  t.delayed != [] || Scheduled(env, t.log, |s.log|, true) > 0)
  {
    Safety.StepKeeps(env.config, HandlerOf(env), s, o);
    var t := C.Step(env.config, HandlerOf(env), s, o).state;
    if t.readyState == C.CLOSED && (s.readyState == C.CLOSED ==> s.delayed != []) {
      ClosedOrHeard(env, s, t);
    }
  }

  lemma NoCloseYet(s: C.State)
    requires Safety.Inv(s) && s.log != [] && (s.readyState == C.CLOSED ==> s.delayed != [])
    ensures !s.log[|s.log| - 1].CloseEvent?
  {
  }

  /** Nothing but the close event is left of a CLOSED socket. */
  lemma ClosedSaysOnlyClose(env: Env, s: C.State, t: C.State)
    requires Safety.Inv(s) && Safety.Inv(t) && Safety.Forward(s, t) && s.readyState == C.CLOSED
    ensures Scheduled(env, t.log, |s.log|, false) == 0
  {
    if |t.log| > |s.log| {
      assert (t.log + t.delayed)[|s.log|] == (s.log + s.delayed)[|s.log|] == s.delayed[0];
      assert |t.log| == |s.log| + 1;
      assert t.log[|s.log|].CloseEvent?;
    }
  }

  lemma ClosedStaysClosed(env: Env, s: C.State, o: C.Occurrence)
    requires Safety.Inv(s) && s.readyState == C.CLOSED
    ensures var t := C.Step(env.config, HandlerOf(env), s, o).state;
            && Safety.Inv(t) && t.readyState == C.CLOSED && t.sent == s.sent && t.tried == s.tried
            && t.log + t.delayed == s.log + s.delayed
            && Scheduled(env, t.log, |s.log|, false) == 0
  {
    Safety.StepKeeps(env.config, HandlerOf(env), s, o);
    ClosedSaysOnlyClose(env, s, C.Step(env.config, HandlerOf(env), s, o).state);
  }

  lemma ReplaceKeeps(w: World, i: nat, t: C.State, started: nat)
    requires Inv(w) && i < |w.sockets| && Safety.Inv(t)
    requires i < |w.sockets| - 1 ==> t.readyState == C.CLOSED
    requires i == |w.sockets| - 1 && t.readyState == C.CLOSED && t.delayed == [] && w.timers == 0 ==> started > 0
    ensures Inv(Landed(w, i, t, started))
  {
  }

  /** What a step of a socket brings, for the current one and for one that was replaced. */
  lemma SocketFacts(env: Env, socket: Socket, o: C.Occurrence, current: bool, t: C.State, started: nat)
    requires Safety.Inv(socket.conn)
    requires t == C.Step(env.config, HandlerOf(env), socket.conn, o).state
    requires started == Scheduled(env, t.log, |socket.conn.log|, socket.onclose)
    requires if current then socket.onclose else socket.conn.readyState == C.CLOSED && !socket.onclose
    ensures Safety.Inv(t)
    ensures !current ==> t.readyState == C.CLOSED && started == 0
    ensures current && t.readyState == C.CLOSED && t.delayed == [] && started == 0 ==>
              socket.conn.readyState == C.CLOSED && socket.conn.delayed == []
  {
    if current {
      CurrentNotStuck(env, socket.conn, o);
    } else {
      ClosedStaysClosed(env, socket.conn, o);
    }
  }

  lemma OnSocketKeeps(env: Env, w: World, i: nat, o: C.Occurrence)
    requires Inv(w) && i < |w.sockets|
    ensures Inv(OnSocket(env, w, i, o))
  {
    var socket := w.sockets[i];
    var t := C.Step(env.config, HandlerOf(env), socket.conn, o).state;
    var started := Scheduled(env, t.log, |socket.conn.log|, socket.onclose);
    SocketFacts(env, socket, o, i == |w.sockets| - 1, t, started);
    ReplaceKeeps(w, i, t, started);
  }

  lemma StepKeeps(env: Env, w: World, m: Move)
    requires Inv(w)
    ensures Inv(Step(env, w, m))
  {
    match m
    case Load(at, enabled) => ConnectKeeps(w, at, enabled);
    case ReconnectTimer(at, enabled) =>
      if w.timers > 0 {
        ConnectKeeps(w.(timers := w.timers - 1), at, enabled);
      }
    case SocketStep(i, o) =>
      if i < |w.sockets| {
        OnSocketKeeps(env, w, i, o);
      }
  }

  lemma {:induction false} RunKeeps(env: Env, w: World, ms: seq<Move>)
    requires Inv(w)
    ensures Inv(Run(env, w, ms))
    decreases |ms|
  {
    if ms != [] {
      StepKeeps(env, w, ms[0]);
      RunKeeps(env, Step(env, w, ms[0]), ms[1..]);
    }
  }

  // What the page can rely on

  /** In every run at most one SockJS object is not CLOSED, and it is the current client's. */
  lemma OneLiveSocket(env: Env, ms: seq<Move>, w: World)
    requires w == Run(env, EMPTY, ms)
    ensures forall i :: 0 <= i < |w.sockets| && w.sockets[i].conn.readyState != C.CLOSED ==> i == |w.sockets| - 1
  {
    RunKeeps(env, EMPTY, ms);
  }

  /** `connect` throws exactly when the current socket is still connecting, and then changes
      nothing; otherwise it makes one new socket after closing the old one, without showing
      anybody anything. */
  ghost predicate ConnectReplaces(w: World, at: int, enabled: set<Protocol>) {
    var (t, thrown) := Connect(w, at, enabled);
    && (thrown <==> w.sockets != [] && w.sockets[|w.sockets| - 1].conn.readyState == C.CONNECTING)
    && (thrown ==> t == w)
    && (!thrown ==>
          && t.timers == w.timers
          && |t.sockets| == |w.sockets| + 1 && t.sockets[|w.sockets|] == Socket(C.Initial(at), true)
          && (forall i :: 0 <= i < |w.sockets| ==> t.sockets[i].conn.readyState == C.CLOSED && !t.sockets[i].onclose)
          && (forall i :: 0 <= i < |w.sockets| ==> t.sockets[i].conn.log == w.sockets[i].conn.log))
  }

  lemma InvConnectReplaces(w: World, at: int, enabled: set<Protocol>)
    requires Inv(w)
    ensures ConnectReplaces(w, at, enabled)
  {
    var n := |w.sockets|;
    if n > 0 && w.sockets[n - 1].conn.readyState != C.CONNECTING {
      DisconnectCloses(w.sockets[n - 1].conn, enabled);
      var t := Connect(w, at, enabled).0;
      assert t.sockets[n] == Socket(C.Initial(at), true);
      assert t.sockets[n - 1] == Socket(AfterDisconnect(w.sockets[n - 1].conn, enabled), false);
      assert forall i :: 0 <= i < n - 1 ==> t.sockets[i] == w.sockets[i];
    }
  }

  lemma ConnectThrowsIff(env: Env, ms: seq<Move>, at: int, enabled: set<Protocol>)
    ensures ConnectReplaces(Run(env, EMPTY, ms), at, enabled)
  {
    RunKeeps(env, EMPTY, ms);
    InvConnectReplaces(Run(env, EMPTY, ms), at, enabled);
  }

  /** In every run, whatever happens to a socket that was replaced starts no reconnect timer,
      hands nothing more to a transport, makes none, and shows nobody anything but its close
      event. What it was given before, DISCONNECT included, may still be posted; see module
      Posting. */
  lemma OldSocketsAreSilent(env: Env, ms: seq<Move>, w: World, i: nat, o: C.Occurrence)
    requires w == Run(env, EMPTY, ms) && i < |w.sockets| - 1
    ensures var t := Step(env, w, SocketStep(i, o));
            var before, after := w.sockets[i].conn, t.sockets[i].conn;
            && t.timers == w.timers && t.sockets == w.sockets[i := Socket(after, false)]
            && after.sent == before.sent && after.tried == before.tried
            && after.log + after.delayed == before.log + before.delayed
  {
    RunKeeps(env, EMPTY, ms);
    ClosedStaysClosed(env, w.sockets[i].conn, o);
  }

  /** The close event of the current socket, when it is what the page waits for, starts one
      timer. */
  lemma CloseEventStartsTimer(env: Env, w: World, at: int, enabled: set<Protocol>)
    requires Inv(w) && w.sockets != [] && w.timers == 0
    requires w.sockets[|w.sockets| - 1].conn.readyState == C.CLOSED
    ensures var n := |w.sockets|;
            var t := Step(env, w, SocketStep(n - 1, C.Occurrence(C.CloseDispatched, at, enabled)));
            && t.timers == 1 && |t.sockets| == n && t.sockets[n - 1].conn.readyState == C.CLOSED
  {
    var i := |w.sockets| - 1;
    var s, o := w.sockets[i].conn, C.Occurrence(C.CloseDispatched, at, enabled);
    CloseEventHeard(env, s, o);
    assert OnSocket(env, w, i, o) == Landed(w, i, s.(now := o.at, delayed := [], log := s.log + s.delayed), 1);
  }

  lemma CloseEventHeard(env: Env, s: C.State, o: C.Occurrence)
    requires Safety.Inv(s) && s.readyState == C.CLOSED && s.delayed != [] && o.what == C.CloseDispatched
    ensures var t := C.Step(env.config, HandlerOf(env), s, o).state;
            && t == s.(now := o.at, delayed := [], log := s.log + s.delayed)
            && Scheduled(env, t.log, |s.log|, true) == 1
  {
    var event := s.delayed[0];
    assert s.delayed == [event] && s.delayed[1..] == [];
    var logged := s.log + [event];
    assert logged[..|s.log| + 1] == logged;
    ReconnectOnly(env, logged);
  }

  /** When the current socket is CLOSED, its close event and one timer, or a timer alone,
      bring a new one. */
  ghost predicate Recovers(env: Env, w: World, at: int, enabled: set<Protocol>)
    requires w.sockets != []
  {
    var n := |w.sockets|;
    var closing := SocketStep(n - 1, C.Occurrence(C.CloseDispatched, at, enabled));
    var t := if w.timers > 0 then w else Step(env, w, closing);
    var r := Step(env, t, ReconnectTimer(at, enabled));
    t.timers > 0 && |r.sockets| == n + 1 && r.sockets[n] == Socket(C.Initial(at), true) && r.timers == t.timers - 1
  }

  lemma InvRecovers(env: Env, w: World, at: int, enabled: set<Protocol>)
    requires Inv(w) && w.sockets != [] && w.sockets[|w.sockets| - 1].conn.readyState == C.CLOSED
    ensures Recovers(env, w, at, enabled)
  {
    var closing := SocketStep(|w.sockets| - 1, C.Occurrence(C.CloseDispatched, at, enabled));
    var t := if w.timers > 0 then w else Step(env, w, closing);
    if w.timers == 0 {
      CloseEventStartsTimer(env, w, at, enabled);
      StepKeeps(env, w, closing);
    }
    TimerConnects(env, t, at, enabled);
  }

  /** In every run, once the page has connected it is never stuck. */
  lemma PageRecovers(env: Env, ms: seq<Move>, w: World, at: int, enabled: set<Protocol>)
    requires w == Run(env, EMPTY, ms)
    requires w.sockets != [] && w.sockets[|w.sockets| - 1].conn.readyState == C.CLOSED
    ensures Recovers(env, w, at, enabled)
  {
    RunKeeps(env, EMPTY, ms);
    InvRecovers(env, w, at, enabled);
  }

  lemma TimerConnects(env: Env, t: World, at: int, enabled: set<Protocol>)
    requires Inv(t) && t.timers > 0 && t.sockets != []
    requires t.sockets[|t.sockets| - 1].conn.readyState != C.CONNECTING
    ensures var n := |t.sockets|;
            var r := Step(env, t, ReconnectTimer(at, enabled));
            && |r.sockets| == n + 1 && r.sockets[n] == Socket(C.Initial(at), true) && r.timers == t.timers - 1
            && r.sockets[n - 1] == Socket(AfterDisconnect(t.sockets[n - 1].conn, enabled), false)
  {
  }

  lemma ErrorHeard(env: Env, s: C.State, data: Str, frame: Frame, o: C.Occurrence)
    requires Safety.Inv(s) && s.readyState == C.OPEN && o.what == C.FrameArrived(C.MessageFrame(data))
    requires data != [LF] && Unmarshal(data) == [frame] && frame.command == Ascii("ERROR")
    ensures var t := C.Step(env.config, HandlerOf(env), s, o).state;
            && t == s.(now := o.at, log := s.log + [C.MessageEvent(data)])
            && Scheduled(env, t.log, |s.log|, true) == 1
  {
    var shown := s.log + [C.MessageEvent(data)];
    ErrorReaction(env, shown, data, frame);
    ReconnectOnly(env, shown);
    OneScheduled(env, s.log, C.MessageEvent(data));
    ShownOnly(env.config, HandlerOf(env), s, data, o);
  }

  lemma ShownOnly(config: C.Config, h: C.Handler, s: C.State, data: Str, o: C.Occurrence)
    requires Safety.Inv(s) && s.readyState == C.OPEN && o.what == C.FrameArrived(C.MessageFrame(data))
    requires h(s.log + [C.MessageEvent(data)]) == []
    ensures C.Step(config, h, s, o).state == s.(now := o.at, log := s.log + [C.MessageEvent(data)])
  {
  }

  lemma OneScheduled(env: Env, log: seq<C.Event>, e: C.Event)
    ensures Scheduled(env, log + [e], |log|, true) == Started(Reactions(env, log + [e]))
  {
    assert (log + [e])[..|log| + 1] == log + [e];
  }

  /** The spare timer then takes down the connection that the first one made, however well
      it works. */
  lemma SpareTimerReplacesOpen(env: Env, w: World, at: int, enabled: set<Protocol>)
    requires Inv(w) && w.timers > 0 && w.sockets != []
    requires w.sockets[|w.sockets| - 1].conn.readyState == C.OPEN
    ensures var n := |w.sockets|;
            var t := Step(env, w, ReconnectTimer(at, enabled));
            && |t.sockets| == n + 1 && t.sockets[n].conn == C.Initial(at)
            && t.sockets[n - 1].conn.readyState == C.CLOSED && !t.sockets[n - 1].onclose
            && t.sockets[n - 1].conn.sent == w.sockets[n - 1].conn.sent + DisconnectPieces()
  {
    DisconnectCloses(w.sockets[|w.sockets| - 1].conn, enabled);
  }
}
