/** The SockJS connection as a state machine with one step per event of its environment.
    A step runs to its end, callbacks included; what the user's handlers do inside a
    callback is a function of the events they have seen. */
module Connection {
  import opened Text
  import opened Protocols

  datatype ReadyState = CONNECTING | OPEN | CLOSING | CLOSED

  /** What is dispatched to the user. */
  datatype Event =
    | OpenEvent
    | MessageEvent(data: Str)
    | HeartbeatEvent
    | CloseEvent(code: Option<int>, wasClean: bool, allFailed: bool)

  /** What a user handler may do: `close(code)` (0 stands for no code), `send(data)`, throw. */
  datatype Call = CallClose(code: int) | CallSend(data: Str) | Throw

  /** The calls a handler makes when the last event of the list is dispatched. */
  type Handler = seq<Event> -> seq<Call>

  /** A frame from the server, as `_didMessage` decodes it. */
  datatype Frame =
    | OpenFrame
    | ArrayFrame(payload: seq<Str>)
    | MessageFrame(data: Str)
    | CloseFrame(code: Option<int>)
    | HeartbeatFrame
    | UnknownFrame
    | BrokenFrame  // JSON.parse throws

  datatype State = State(
    readyState: ReadyState,
    infoPending: bool,             // _ir
    protocols: seq<Protocol>,      // _protocols
    transport: Option<Protocol>,   // _transport
    timer: Option<int>,            // deadline of the pending _transport_tref
    delayed: seq<Event>,           // close events waiting for their turn of the event loop
    log: seq<Event>,               // events dispatched so far
    sent: seq<Str>,                // what reached doSend
    tried: seq<Protocol>,          // transports constructed so far
    detected: seq<Protocol>,       // _protocols as the info request left it
    rto: int,
    infoAt: int,
    now: int)

  datatype Outcome = Outcome(state: State, thrown: bool)

  /** What is fixed for a connection. */
  datatype Config = Config(whitelist: set<Protocol>, nullOrigin: bool)

  function Initial(now: int): State {
    State(CONNECTING, true, [], None, None, [], [], [], [], [], 0, now, now)
  }

  function UserSetCode(code: Option<int>): bool {
    code.Some? && (code.value == 1000 || 3000 <= code.value <= 4999)
  }

  // Closing and falling back

  /** The loop of `_try_next_protocol`: the first protocol still enabled is constructed. */
  function OpenNext(s: State, enabled: set<Protocol>): (State, bool)
    decreases |s.protocols|
  {
    if s.protocols == [] then (s, false)
    else
      var p := s.protocols[0];
      var rest := s.(protocols := s.protocols[1..]);
      if p in enabled then
        (rest.(timer := Some(s.now + Patience(s.rto, p)), transport := Some(p), tried := s.tried + [p]), true)
      else OpenNext(rest, enabled)
  }

  function TryNextProtocol(s: State, enabled: set<Protocol>): (State, bool) {
    OpenNext(s.(timer := None), enabled)
  }

  function Closed(s: State, event: Event): State {
    s.(readyState := CLOSED, delayed := s.delayed + [event])
  }

  function DidClose(s: State, code: Option<int>, force: bool, enabled: set<Protocol>): Outcome {
    if s.readyState == CLOSED then Outcome(s, true)
    else
      var freed := s.(infoPending := false, transport := None);
      if !UserSetCode(code) && s.readyState == CONNECTING && !force then
        var (next, found) := TryNextProtocol(freed, enabled);
        if found then Outcome(next, false)
        else Outcome(Closed(next, CloseEvent(Some(2000), false, true)), false)
      else Outcome(Closed(freed, CloseEvent(code, UserSetCode(code), false)), false)
  }

  // The user's calls

  function UserClose(s: State, code: int, enabled: set<Protocol>): Outcome {
    if code != 0 && !UserSetCode(Some(code)) then Outcome(s, true)
    else if s.readyState != CONNECTING && s.readyState != OPEN then Outcome(s, false)
    else DidClose(s.(readyState := CLOSING), Some(if code == 0 then 1000 else code), false, enabled)
  }

  function UserSend(s: State, data: Str): Outcome {
    if s.readyState == CONNECTING then Outcome(s, true)
    else if s.readyState == OPEN then Outcome(s.(sent := s.sent + [data]), false)
    else Outcome(s, false)
  }

  function PerformOne(s: State, call: Call, enabled: set<Protocol>): Outcome {
    match call
    case CallClose(code) => UserClose(s, code, enabled)
    case CallSend(data) => UserSend(s, data)
    case Throw => Outcome(s, true)
  }

  /** A call that throws on a connection that is past CONNECTING. */
  predicate Throws(call: Call) {
    call.Throw? || (call.CallClose? && call.code != 0 && !UserSetCode(Some(call.code)))
  }

  /** Calls in order; an exception ends them. */
  function Perform(s: State, calls: seq<Call>, enabled: set<Protocol>): Outcome
    decreases |calls|
  {
    if calls == [] then Outcome(s, false)
    else
      var first := PerformOne(s, calls[0], enabled);
      if first.thrown then first else Perform(first.state, calls[1..], enabled)
  }

  // Frames

  function Dispatch(s: State, event: Event, h: Handler, enabled: set<Protocol>): Outcome {
    var logged := s.(log := s.log + [event]);
    Perform(logged, h(logged.log), enabled)
  }

  function DispatchOpen(s: State, h: Handler, enabled: set<Protocol>): Outcome {
    if s.readyState == CONNECTING then Dispatch(s.(timer := None, readyState := OPEN), OpenEvent, h, enabled)
    else DidClose(s, Some(1006), false, enabled)
  }

  /** Messages and heart-beats are dropped unless the connection is open. */
  function DispatchIfOpen(s: State, event: Event, h: Handler, enabled: set<Protocol>): Outcome {
    if s.readyState != OPEN then Outcome(s, false) else Dispatch(s, event, h, enabled)
  }

  function Deliver(s: State, payload: seq<Str>, h: Handler, enabled: set<Protocol>): Outcome
    decreases |payload|
  {
    if payload == [] then Outcome(s, false)
    else
      var first := DispatchIfOpen(s, MessageEvent(payload[0]), h, enabled);
      if first.thrown then first else Deliver(first.state, payload[1..], h, enabled)
  }

  function DidMessage(s: State, frame: Frame, h: Handler, enabled: set<Protocol>): Outcome {
    match frame
    case OpenFrame => DispatchOpen(s, h, enabled)
    case ArrayFrame(payload) => Deliver(s, payload, h, enabled)
    case MessageFrame(data) => DispatchIfOpen(s, MessageEvent(data), h, enabled)
    case CloseFrame(code) => DidClose(s, code, false, enabled)
    case HeartbeatFrame => DispatchIfOpen(s, HeartbeatEvent, h, enabled)
    case UnknownFrame => Outcome(s, false)
    case BrokenFrame => Outcome(s, true)
  }

  // Steps

  datatype Happening =
    | InfoArrived(info: Option<Info>, rtt: int)
    | FrameArrived(frame: Frame)
    | TransportFailed
    | PostFailed
    | TimerFired
    | CloseDispatched
    | UserCalls(calls: seq<Call>)

  /** An event of the environment, when it occurs and what the browser then has. */
  datatype Occurrence = Occurrence(what: Happening, at: int, enabled: set<Protocol>)

  function ApplyInfo(s: State, info: Info, rtt: int, config: Config, enabled: set<Protocol>): State {
    var ps := Detect(enabled, config.whitelist, info, config.nullOrigin);
    s.(infoPending := false, protocols := ps, detected := ps, rto := CountRTO(rtt), infoAt := s.now)
  }

  /** One turn of the event loop. What is not outstanding cannot occur: only a live info
      receiver answers, only a live transport delivers or fails, only a pending timer fires,
      only a POST that was made can fail. */
  function Step(config: Config, h: Handler, before: State, o: Occurrence): Outcome {
    var s := before.(now := o.at);
    match o.what
    case InfoArrived(info, rtt) =>
      if !s.infoPending then Outcome(s, false)
      else if info.Some? then
        DidClose(ApplyInfo(s, info.value, rtt, config, o.enabled), None, false, o.enabled)
      else DidClose(s.(infoPending := false), Some(1002), true, o.enabled)
    case FrameArrived(frame) =>
      if s.transport.None? then Outcome(s, false) else DidMessage(s, frame, h, o.enabled)
    case TransportFailed =>
      if s.transport.None? then Outcome(s, false) else DidClose(s, Some(1006), false, o.enabled)
    case PostFailed =>
      if s.sent == [] then Outcome(s, false) else DidClose(s, Some(1006), false, o.enabled)
    case TimerFired =>
      if s.timer.None? then Outcome(s, false)
      else if s.readyState == CONNECTING then DidClose(s, Some(2007), false, o.enabled)
      else Outcome(s.(timer := None), false)
    case CloseDispatched =>
      if s.delayed == [] then Outcome(s, false)
      else Dispatch(s.(delayed := s.delayed[1..]), s.delayed[0], h, o.enabled)
    case UserCalls(calls) => Perform(s, calls, o.enabled)
  }

  function Run(config: Config, h: Handler, s: State, os: seq<Occurrence>): State
    decreases |os|
  {
    if os == [] then s else Run(config, h, Step(config, h, s, os[0]).state, os[1..])
  }
}
