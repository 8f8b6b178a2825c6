/** What holds of every run of a SockJS connection. */
module ConnectionSafety {
  import opened Text
  import opened Protocols
  import opened Connection

  // Event grammar

  ghost predicate IsBody(log: seq<Event>) {
    log != [] ==>
      && log[0] == OpenEvent
      && forall i :: 1 <= i < |log| ==> log[i].MessageEvent? || log[i].HeartbeatEvent?
  }

  /** A code that says that the connection was closed on purpose. */
  predicate OnPurpose(code: Option<int>) {
    code.Some? && (code.value == 1000 || (3000 <= code.value && code.value < 5000))
  }

  /** The close event says `wasClean` for codes 1000 and 3000 to 4999, and no others; one that
      reports that all transports failed carries 2000. */
  ghost predicate IsClose(e: Event) {
    && e.CloseEvent? && (e.wasClean <==> OnPurpose(e.code))
    && (e.allFailed ==> e.code == Some(2000))
  }

  /** [open (message | heartbeat)*] [close] */
  ghost predicate Grammar(log: seq<Event>) {
    || IsBody(log)
    || (log != [] && IsClose(log[|log| - 1]) && IsBody(log[..|log| - 1]))
  }

  // Invariant

  ghost predicate ConnectingInv(s: State) {
    && s.log == [] && s.delayed == [] && s.sent == []
    && (s.infoPending <==> s.transport.None?)
    && (s.infoPending ==> s.timer.None? && s.protocols == s.tried == s.detected == [])
    && (s.transport.Some? ==> s.timer.Some? && s.tried != [] && s.tried[|s.tried| - 1] == s.transport.value)
  }

  ghost predicate OpenInv(s: State) {
    && !s.infoPending && s.transport.Some? && s.timer.None?
    && s.tried != [] && s.tried[|s.tried| - 1] == s.transport.value
    && s.delayed == [] && s.log != [] && IsBody(s.log)
  }

  ghost predicate ClosedInv(s: State) {
    && !s.infoPending && s.transport.None?
    && ((&& |s.delayed| == 1 && IsClose(s.delayed[0]) && IsBody(s.log)
         && (s.delayed[0].allFailed ==> s.protocols == []))
        || (&& s.delayed == [] && s.log != [] && IsClose(s.log[|s.log| - 1]) && IsBody(s.log[..|s.log| - 1])
            && (s.log[|s.log| - 1].allFailed ==> s.protocols == [])))
  }

  /** Between events: never CLOSING; CONNECTING has exactly one of info receiver and
      transport, a transport then with its timer; OPEN has a transport; CLOSED has neither,
      and its single close event is either dispatched or about to be. */
  ghost predicate Inv(s: State) {
    && s.readyState != CLOSING
    && (s.readyState == CONNECTING ==> ConnectingInv(s))
    && (s.readyState == OPEN ==> OpenInv(s))
    && (s.readyState == CLOSED ==> ClosedInv(s))
    && Ascending(s.tried + s.protocols)
  }

  function Order(r: ReadyState): nat {
    match r
    case CONNECTING => 0
    case OPEN => 1
    case CLOSING => 2
    case CLOSED => 3
  }

  /** A step or a part of one only moves forward, and once CLOSED touches nothing that a
      user could observe except to dispatch the close event. */
  ghost predicate Forward(s: State, t: State) {
    && Order(s.readyState) <= Order(t.readyState)
    && s.log <= t.log && s.sent <= t.sent && s.tried <= t.tried
    && (s.readyState == CLOSED ==> s.sent == t.sent && s.tried == t.tried && s.log + s.delayed == t.log + t.delayed)
  }

  /** What only the info request sets. */
  ghost predicate SameInfo(s: State, t: State) {
    s.now == t.now && s.rto == t.rto && s.infoAt == t.infoAt && s.detected == t.detected
  }

  ghost predicate SamePlan(s: State, t: State) {
    SameInfo(s, t) && s.tried == t.tried && s.protocols == t.protocols
  }

  /** While every protocol still to come is enabled, none is skipped. */
  ghost predicate NoneSkipped(s: State, t: State, enabled: set<Protocol>) {
    (forall i :: 0 <= i < |s.protocols| ==> s.protocols[i] in enabled)
    ==> t.tried + t.protocols == s.tried + s.protocols
  }

  // Parts of a step

  lemma AscendingWithout(ps: seq<Protocol>, k: nat)
    requires Ascending(ps) && k < |ps|
    ensures Ascending(ps[..k] + ps[k + 1..])
  {
    var qs := ps[..k] + ps[k + 1..];
    forall i, j | 0 <= i < j < |qs| ensures Rank(qs[i]) < Rank(qs[j]) {
      assert qs[i] == ps[if i < k then i else i + 1];
      assert qs[j] == ps[if j < k then j else j + 1];
    }
  }

  lemma AscendingWithoutNext(tried: seq<Protocol>, protocols: seq<Protocol>)
    requires Ascending(tried + protocols) && protocols != []
    ensures Ascending(tried + protocols[1..])
  {
    var all := tried + protocols;
    AscendingWithout(all, |tried|);
    assert all[..|tried|] + all[|tried| + 1..] == tried + protocols[1..];
  }

  lemma {:induction false} OpenNextKeeps(s: State, enabled: set<Protocol>)
    requires Ascending(s.tried + s.protocols)
    ensures var (t, found) := OpenNext(s, enabled);
            && t == s.(protocols := t.protocols, timer := t.timer, transport := t.transport, tried := t.tried)
            && Ascending(t.tried + t.protocols)
            && s.tried <= t.tried
            && (if found then
                  && t.transport.Some? && t.tried == s.tried + [t.transport.value]
                  && t.timer == Some(s.now + Patience(s.rto, t.transport.value))
                else t == s.(protocols := []))
    decreases |s.protocols|
  {
    if s.protocols == [] {
    } else {
      var p := s.protocols[0];
      var rest := s.(protocols := s.protocols[1..]);
      if p in enabled {
        assert s.tried + [p] + s.protocols[1..] == s.tried + s.protocols;
      } else {
        AscendingWithoutNext(s.tried, s.protocols);
        OpenNextKeeps(rest, enabled);
        assert OpenNext(s, enabled) == OpenNext(rest, enabled);
      }
    }
  }

  lemma OpenNextSkipsNone(s: State, enabled: set<Protocol>)
    ensures NoneSkipped(s, OpenNext(s, enabled).0, enabled)
  {
    if s.protocols != [] && s.protocols[0] in enabled {
      assert s.tried + s.protocols == s.tried + [s.protocols[0]] + s.protocols[1..];
    }
  }

  lemma DidCloseKeeps(s: State, code: Option<int>, force: bool, enabled: set<Protocol>)
    requires s.readyState != CLOSED
    requires s.readyState == CLOSING ==> UserSetCode(code)
    requires s.delayed == [] && IsBody(s.log) && Ascending(s.tried + s.protocols)
    requires s.readyState == CONNECTING ==> s.log == [] && s.sent == []
    ensures var r := DidClose(s, code, force, enabled);
            && !r.thrown && Inv(r.state) && Forward(s, r.state) && r.state.log == s.log && r.state.sent == s.sent
            && (|| r.state.readyState == CLOSED
                || (r.state.readyState == s.readyState == CONNECTING && !r.state.infoPending))
            && (r.state.readyState == CONNECTING ==>
                  && r.state.tried == s.tried + [r.state.transport.value]
                  && r.state.timer == Some(s.now + Patience(s.rto, r.state.transport.value)))
            && SameInfo(s, r.state) && NoneSkipped(s, r.state, enabled)
  {
    var freed := s.(infoPending := false, transport := None);
    OpenNextKeeps(freed.(timer := None), enabled);
    OpenNextSkipsNone(freed.(timer := None), enabled);
  }

  lemma PerformOneKeeps(s: State, call: Call, enabled: set<Protocol>)
    requires Inv(s)
    ensures var r := PerformOne(s, call, enabled);
            && Inv(r.state) && Forward(s, r.state) && SamePlan(s, r.state) && r.state.log == s.log
            && (r.state.readyState == CONNECTING ==> r.state == s)
  {
    if call.CallClose? {
      var code := if call.code == 0 then 1000 else call.code;
      if UserSetCode(Some(code)) && (s.readyState == CONNECTING || s.readyState == OPEN) {
        DidCloseKeeps(s.(readyState := CLOSING), Some(code), false, enabled);
      }
    }
  }

  lemma {:induction false} PerformKeeps(s: State, calls: seq<Call>, enabled: set<Protocol>)
    requires Inv(s)
    ensures var r := Perform(s, calls, enabled);
            && Inv(r.state) && Forward(s, r.state) && SamePlan(s, r.state) && r.state.log == s.log
            && (r.state.readyState == CONNECTING ==> r.state == s)
    decreases |calls|
  {
    if calls != [] {
      PerformOneKeeps(s, calls[0], enabled);
      var first := PerformOne(s, calls[0], enabled);
      if !first.thrown {
        PerformKeeps(first.state, calls[1..], enabled);
      }
    }
  }

  lemma DispatchKeeps(s: State, event: Event, h: Handler, enabled: set<Protocol>)
    requires Inv(s.(log := s.log + [event]))
    requires s.readyState != CONNECTING
    ensures var r := Dispatch(s, event, h, enabled);
            && Inv(r.state) && Forward(s.(log := s.log + [event]), r.state) && SamePlan(s, r.state)
            && r.state.log == s.log + [event]
  {
    PerformKeeps(s.(log := s.log + [event]), h(s.log + [event]), enabled);
  }

  lemma DispatchIfOpenKeeps(s: State, event: Event, h: Handler, enabled: set<Protocol>)
    requires Inv(s) && (event.MessageEvent? || event.HeartbeatEvent?)
    ensures var r := DispatchIfOpen(s, event, h, enabled);
            && Inv(r.state) && Forward(s, r.state) && SamePlan(s, r.state)
            && (r.state.readyState == CONNECTING ==> r.state == s)
  {
    if s.readyState == OPEN {
      DispatchKeeps(s, event, h, enabled);
    }
  }

  lemma {:induction false} DeliverKeeps(s: State, payload: seq<Str>, h: Handler, enabled: set<Protocol>)
    requires Inv(s)
    ensures var r := Deliver(s, payload, h, enabled);
            && Inv(r.state) && Forward(s, r.state) && SamePlan(s, r.state)
            && (r.state.readyState == CONNECTING ==> r.state == s)
    decreases |payload|
  {
    if payload != [] {
      DispatchIfOpenKeeps(s, MessageEvent(payload[0]), h, enabled);
      var first := DispatchIfOpen(s, MessageEvent(payload[0]), h, enabled);
      if !first.thrown {
        DeliverKeeps(first.state, payload[1..], h, enabled);
      }
    }
  }

  /** What may happen to the transport being tried: it stays, or the next one is opened. */
  ghost predicate Fallback(s: State, t: State) {
    t.readyState == CONNECTING && !t.infoPending ==>
      || (t.timer == s.timer && t.transport == s.transport && t.tried == s.tried)
      || (&& t.transport.Some? && t.tried == s.tried + [t.transport.value]
          && t.timer == Some(t.now + Patience(t.rto, t.transport.value)))
  }

  lemma DidMessageKeeps(s: State, frame: Frame, h: Handler, enabled: set<Protocol>)
    requires Inv(s) && s.transport.Some?
    ensures var r := DidMessage(s, frame, h, enabled);
            && Inv(r.state) && Forward(s, r.state) && Fallback(s, r.state)
            && SameInfo(s, r.state) && NoneSkipped(s, r.state, enabled)
  {
    match frame
    case OpenFrame =>
      if s.readyState == CONNECTING {
        DispatchKeeps(s.(timer := None, readyState := OPEN), OpenEvent, h, enabled);
      } else {
        DidCloseKeeps(s, Some(1006), false, enabled);
      }
    case ArrayFrame(payload) => DeliverKeeps(s, payload, h, enabled);
    case MessageFrame(data) => DispatchIfOpenKeeps(s, MessageEvent(data), h, enabled);
    case CloseFrame(code) => DidCloseKeeps(s, code, false, enabled);
    case HeartbeatFrame => DispatchIfOpenKeeps(s, HeartbeatEvent, h, enabled);
    case UnknownFrame =>
    case BrokenFrame =>
  }

  // Steps and runs

  /** With a fresh plan the first transport is opened, or none is left. */
  lemma FirstOpens(s: State, enabled: set<Protocol>)
    requires s.readyState == CONNECTING && s.log == [] && s.delayed == [] && s.sent == [] && s.tried == []
    requires Ascending(s.protocols) && forall i :: 0 <= i < |s.protocols| ==> s.protocols[i] in enabled
    ensures var t := DidClose(s, None, false, enabled).state;
            && Inv(t) && Forward(s, t) && SameInfo(s, t) && !t.infoPending
            && t.tried + t.protocols == s.protocols
            && (t.readyState == CONNECTING ==>
                  && t.transport.Some? && t.tried == [t.transport.value]
                  && t.timer == Some(s.now + Patience(t.rto, t.transport.value)))
  {
    assert s.tried + s.protocols == s.protocols;
    DidCloseKeeps(s, None, false, enabled);
  }

  /** The info request answers. */
  lemma InfoKeeps(s: State, info: Info, rtt: int, config: Config, enabled: set<Protocol>)
    requires Inv(s) && s.infoPending
    ensures var t := DidClose(ApplyInfo(s, info, rtt, config, enabled), None, false, enabled).state;
            && Inv(t) && Forward(s, t) && t.now == s.now == t.infoAt && !t.infoPending
            && t.tried + t.protocols == t.detected
            && (forall i :: 0 <= i < |t.detected| ==> t.detected[i] in enabled)
            && (t.readyState == CONNECTING ==>
                  && t.transport.Some? && t.tried == [t.transport.value]
                  && t.timer == Some(s.now + Patience(t.rto, t.transport.value)))
  {
    DetectAscends(enabled, config.whitelist, info, config.nullOrigin);
    PlanKeeps(s, ApplyInfo(s, info, rtt, config, enabled), enabled);
  }

  lemma PlanKeeps(s: State, u: State, enabled: set<Protocol>)
    requires Inv(s) && s.infoPending
    requires u == s.(infoPending := false, protocols := u.protocols, detected := u.protocols, rto := u.rto,
                     infoAt := s.now)
    requires Ascending(u.protocols) && forall i :: 0 <= i < |u.protocols| ==> u.protocols[i] in enabled
    ensures var t := DidClose(u, None, false, enabled).state;
            && Inv(t) && Forward(s, t) && t.now == s.now == t.infoAt && !t.infoPending
            && t.tried + t.protocols == t.detected == u.protocols
            && (t.readyState == CONNECTING ==>
                  && t.transport.Some? && t.tried == [t.transport.value]
                  && t.timer == Some(s.now + Patience(t.rto, t.transport.value)))
  {
    FirstOpens(u, enabled);
  }

  lemma CloseDispatchKeeps(s: State, h: Handler, enabled: set<Protocol>)
    requires Inv(s) && s.delayed != []
    ensures var t := Dispatch(s.(delayed := s.delayed[1..]), s.delayed[0], h, enabled).state;
            Inv(t) && Forward(s, t) && SamePlan(s, t) && t.readyState == CLOSED
  {
    var event := s.delayed[0];
    assert s.delayed[1..] == [] && s.delayed == [event];
    assert (s.log + [event])[..|s.log|] == s.log;
    DispatchKeeps(s.(delayed := []), event, h, enabled);
  }

  /** What every step keeps. */
  ghost predicate Kept(s: State, t: State, o: Occurrence) {
    && Inv(t) && Forward(s, t) && t.now == o.at
    && (!s.infoPending ==>
          && t.rto == s.rto && t.infoAt == s.infoAt && t.detected == s.detected
          && NoneSkipped(s, t, o.enabled) && Fallback(s, t))
  }

  lemma InfoStepKeeps(config: Config, h: Handler, s: State, o: Occurrence)
    requires Inv(s) && o.what.InfoArrived?
    ensures Kept(s, Step(config, h, s, o).state, o)
  {
    var n := s.(now := o.at);
    if s.infoPending {
      if o.what.info.Some? {
        InfoKeeps(n, o.what.info.value, o.what.rtt, config, o.enabled);
      } else {
        DidCloseKeeps(n.(infoPending := false), Some(1002), true, o.enabled);
      }
    }
  }

  lemma FailureStepKeeps(config: Config, h: Handler, s: State, o: Occurrence)
    requires Inv(s) && (o.what.TransportFailed? || o.what.PostFailed? || o.what.TimerFired?)
    ensures Kept(s, Step(config, h, s, o).state, o)
  {
    var n := s.(now := o.at);
    if s.readyState != CLOSED {
      DidCloseKeeps(n, Some(if o.what.TimerFired? then 2007 else 1006), false, o.enabled);
    }
  }

  lemma FrameStepKeeps(config: Config, h: Handler, s: State, o: Occurrence)
    requires Inv(s) && o.what.FrameArrived?
    ensures Kept(s, Step(config, h, s, o).state, o)
  {
    if s.transport.Some? {
      DidMessageKeeps(s.(now := o.at), o.what.frame, h, o.enabled);
    }
  }

  lemma CloseStepKeeps(config: Config, h: Handler, s: State, o: Occurrence)
    requires Inv(s) && o.what.CloseDispatched?
    ensures Kept(s, Step(config, h, s, o).state, o)
  {
    if s.delayed != [] {
      CloseDispatchKeeps(s.(now := o.at), h, o.enabled);
    }
  }

  lemma StepKeeps(config: Config, h: Handler, s: State, o: Occurrence)
    requires Inv(s)
    ensures Kept(s, Step(config, h, s, o).state, o)
  {
    match o.what
    case InfoArrived(_, _) => InfoStepKeeps(config, h, s, o);
    case FrameArrived(_) => FrameStepKeeps(config, h, s, o);
    case TransportFailed => FailureStepKeeps(config, h, s, o);
    case PostFailed => FailureStepKeeps(config, h, s, o);
    case TimerFired => FailureStepKeeps(config, h, s, o);
    case CloseDispatched => CloseStepKeeps(config, h, s, o);
    case UserCalls(calls) => PerformKeeps(s.(now := o.at), calls, o.enabled);
  }

  lemma {:induction false} RunKeeps(config: Config, h: Handler, s: State, os: seq<Occurrence>)
    requires Inv(s)
    ensures Inv(Run(config, h, s, os)) && Forward(s, Run(config, h, s, os))
    decreases |os|
  {
    if os != [] {
      StepKeeps(config, h, s, os[0]);
      RunKeeps(config, h, Step(config, h, s, os[0]).state, os[1..]);
    }
  }

  /** Every reachable state satisfies the invariant. */
  lemma ReachableInv(config: Config, h: Handler, now: int, os: seq<Occurrence>)
    ensures Inv(Run(config, h, Initial(now), os))
  {
    RunKeeps(config, h, Initial(now), os);
  }

  /** In every run the user sees at most one open event, messages and heart-beats only after
      it, at most one close event, and nothing after the close event. */
  lemma EventGrammar(config: Config, h: Handler, now: int, os: seq<Occurrence>)
    ensures var log := Run(config, h, Initial(now), os).log;
            && Grammar(log)
            && (forall i :: 0 <= i < |log| && log[i].OpenEvent? ==> i == 0)
            && (forall i :: 0 <= i < |log| && (log[i].MessageEvent? || log[i].HeartbeatEvent?) ==>
                  i > 0 && log[0].OpenEvent?)
            && (forall i :: 0 <= i < |log| && log[i].CloseEvent? ==> i == |log| - 1 && IsClose(log[i]))
  {
    ReachableInv(config, h, now, os);
    var log := Run(config, h, Initial(now), os).log;
    if !IsBody(log) {
      var body := log[..|log| - 1];
      assert forall i :: 0 <= i < |log| - 1 ==> log[i] == body[i];
    }
  }

  /** After CLOSED: nothing more is handed to a transport to send, no transport is made, and
      all that is still dispatched is the one close event. What was handed over before may
      still be posted; see module Posting. */
  lemma ClosedIsFinal(config: Config, h: Handler, s: State, os: seq<Occurrence>)
    requires Inv(s) && s.readyState == CLOSED
    ensures var t := Run(config, h, s, os);
            && t.readyState == CLOSED && t.transport.None? && !t.infoPending
            && t.sent == s.sent && t.tried == s.tried && t.log + t.delayed == s.log + s.delayed
  {
    RunKeeps(config, h, s, os);
  }

  // A handler that closes in the middle of a frame

  /** The handler stops the delivery: it closes or throws when it sees the last event. */
  predicate Stops(h: Handler, log: seq<Event>) {
    exists i :: 0 <= i < |h(log)| && !h(log)[i].CallSend?
  }

  function Messages(payload: seq<Str>): (es: seq<Event>)
    ensures |es| == |payload|
  {
    seq(|payload|, i requires 0 <= i < |payload| => MessageEvent(payload[i]))
  }

  /** How many messages of an array the user sees. */
  function Seen(h: Handler, log: seq<Event>, payload: seq<Str>): (n: nat)
    ensures n <= |payload|
    decreases |payload|
  {
    if payload == [] then 0
    else
      var next := log + [MessageEvent(payload[0])];
      if Stops(h, next) then 1 else 1 + Seen(h, next, payload[1..])
  }

  lemma {:induction false} PerformStops(s: State, calls: seq<Call>, enabled: set<Protocol>)
    requires Inv(s) && s.readyState == OPEN
    ensures var r := Perform(s, calls, enabled);
            (r.thrown || r.state.readyState != OPEN) <==> exists i :: 0 <= i < |calls| && !calls[i].CallSend?
    decreases |calls|
  {
    if calls != [] {
      PerformOneKeeps(s, calls[0], enabled);
      var first := PerformOne(s, calls[0], enabled);
      if calls[0].CallSend? {
        PerformStops(first.state, calls[1..], enabled);
        assert forall i :: 1 <= i < |calls| ==> calls[i] == calls[1..][i - 1];
      } else {
        if !first.thrown {
          PerformKeeps(first.state, calls[1..], enabled);
        }
      }
    }
  }

  lemma {:induction false} PerformConcat(s: State, a: seq<Call>, b: seq<Call>, enabled: set<Protocol>)
    ensures var first := Perform(s, a, enabled);
            Perform(s, a + b, enabled) == if first.thrown then first else Perform(first.state, b, enabled)
    decreases |a|
  {
    if a == [] {
      assert a + b == b;
    } else {
      assert (a + b)[0] == a[0] && (a + b)[1..] == a[1..] + b;
      var first := PerformOne(s, a[0], enabled);
      if !first.thrown {
        PerformConcat(first.state, a[1..], b, enabled);
      }
    }
  }

  /** Past CONNECTING, calls end in an exception exactly when one of them throws. */
  lemma {:induction false} PerformThrowsIff(s: State, calls: seq<Call>, enabled: set<Protocol>)
    requires Inv(s) && s.readyState != CONNECTING
    ensures Perform(s, calls, enabled).thrown <==> exists i :: 0 <= i < |calls| && Throws(calls[i])
    decreases |calls|
  {
    if calls != [] {
      PerformOneKeeps(s, calls[0], enabled);
      if !Throws(calls[0]) {
        PerformThrowsIff(PerformOne(s, calls[0], enabled).state, calls[1..], enabled);
        assert forall i :: 1 <= i < |calls| ==> calls[i] == calls[1..][i - 1];
      }
    }
  }

  /** An array frame shows the user its messages in order, up to and including the first one
      whose handler closes the connection or throws; the rest is never delivered. */
  lemma {:induction false} ArrayIsCut(s: State, payload: seq<Str>, h: Handler, enabled: set<Protocol>)
    requires Inv(s) && s.readyState == OPEN
    ensures Deliver(s, payload, h, enabled).state.log == s.log + Messages(payload[..Seen(h, s.log, payload)])
    decreases |payload|
  {
    if payload != [] {
      var event := MessageEvent(payload[0]);
      var next := s.(log := s.log + [event]);
      var first := DispatchIfOpen(s, event, h, enabled);
      DispatchIfOpenKeeps(s, event, h, enabled);
      DispatchKeeps(s, event, h, enabled);
      PerformStops(next, h(next.log), enabled);
      var n := Seen(h, s.log, payload);
      if Stops(h, next.log) {
        if !first.thrown {
          ClosedDelivers(first.state, payload[1..], h, enabled);
        }
        assert Messages(payload[..1]) == [event];
      } else {
        ArrayIsCut(first.state, payload[1..], h, enabled);
        assert Messages(payload[..n]) == [event] + Messages(payload[1..][..n - 1]);
      }
    }
  }

  lemma {:induction false} ClosedDelivers(s: State, payload: seq<Str>, h: Handler, enabled: set<Protocol>)
    requires s.readyState != OPEN
    ensures Deliver(s, payload, h, enabled) == Outcome(s, false)
    decreases |payload|
  {
    if payload != [] {
      ClosedDelivers(s, payload[1..], h, enabled);
    }
  }

  // Fallback

  /** A connection constructs at most three transports, pairwise different, websocket before
      streaming before polling. */
  lemma FallbackIsBounded(config: Config, h: Handler, now: int, os: seq<Occurrence>)
    ensures var tried := Run(config, h, Initial(now), os).tried;
            && |tried| <= 3 && Ascending(tried)
            && forall i, j :: 0 <= i < j < |tried| ==> tried[i] != tried[j]
  {
    ReachableInv(config, h, now, os);
    var s := Run(config, h, Initial(now), os);
    var all := s.tried + s.protocols;
    assert forall i :: 0 <= i < |s.tried| ==> s.tried[i] == all[i];
    AscendingIsShort(s.tried);
  }

  ghost predicate TriedInOrder(s: State, enabled: set<Protocol>) {
    && Inv(s)
    && (!s.infoPending ==> s.tried + s.protocols == s.detected)
    && (forall i :: 0 <= i < |s.protocols| ==> s.protocols[i] in enabled)
    && (forall i :: 0 <= i < |s.detected| ==> s.detected[i] in enabled)
  }

  lemma {:induction false} RunTriesInOrder(config: Config, h: Handler, s: State, os: seq<Occurrence>,
                                           enabled: set<Protocol>)
    requires TriedInOrder(s, enabled) && forall i :: 0 <= i < |os| ==> os[i].enabled == enabled
    ensures TriedInOrder(Run(config, h, s, os), enabled)
    decreases |os|
  {
    if os != [] {
      StepKeeps(config, h, s, os[0]);
      StepTriesInOrder(config, h, s, os[0]);
      RunTriesInOrder(config, h, Step(config, h, s, os[0]).state, os[1..], enabled);
    }
  }

  lemma StepTriesInOrder(config: Config, h: Handler, s: State, o: Occurrence)
    requires TriedInOrder(s, o.enabled)
    ensures TriedInOrder(Step(config, h, s, o).state, o.enabled)
  {
    StepKeeps(config, h, s, o);
    var t := Step(config, h, s, o).state;
    if s.infoPending {
      FirstTries(config, h, s, o);
    }
    StillEnabled(t, o.enabled);
  }

  lemma StillEnabled(t: State, enabled: set<Protocol>)
    requires forall i :: 0 <= i < |t.detected| ==> t.detected[i] in enabled
    requires !t.infoPending ==> t.tried + t.protocols == t.detected
    ensures !t.infoPending ==> forall i :: 0 <= i < |t.protocols| ==> t.protocols[i] in enabled
  {
    if !t.infoPending {
      assert forall i :: 0 <= i < |t.protocols| ==> t.protocols[i] == t.detected[|t.tried| + i];
    }
  }

  lemma FirstTries(config: Config, h: Handler, s: State, o: Occurrence)
    requires Inv(s) && s.infoPending
    ensures var t := Step(config, h, s, o).state;
            && (t.infoPending ==> t.protocols == [] && t.detected == [])
            && (!t.infoPending ==> t.tried + t.protocols == t.detected)
            && forall i :: 0 <= i < |t.detected| ==> t.detected[i] in o.enabled
  {
    var n := s.(now := o.at);
    match o.what
    case InfoArrived(info, rtt) =>
      if info.Some? {
        InfoKeeps(n, info.value, rtt, config, o.enabled);
      }
    case UserCalls(calls) => PerformKeeps(n, calls, o.enabled);
    case _ =>
  }

  /** A connection that reports that all transports failed has tried every one detected, in
      order, as long as the browser keeps what it had when probed. */
  lemma AllFailedMeansAllTried(config: Config, h: Handler, now: int, os: seq<Occurrence>, enabled: set<Protocol>)
    requires forall i :: 0 <= i < |os| ==> os[i].enabled == enabled
    ensures var s := Run(config, h, Initial(now), os);
            forall e :: e in s.log + s.delayed && e.CloseEvent? && e.allFailed ==> s.tried == s.detected
  {
    RunTriesInOrder(config, h, Initial(now), os, enabled);
    var s := Run(config, h, Initial(now), os);
    forall e | e in s.log + s.delayed && e.CloseEvent? && e.allFailed ensures s.tried == s.detected {
      NoProtocolLeft(s, e);
      assert s.tried + [] == s.tried;
    }
  }

  lemma NoProtocolLeft(s: State, e: Event)
    requires Inv(s) && e in s.log + s.delayed && e.CloseEvent? && e.allFailed
    ensures s.readyState == CLOSED && s.protocols == []
  {
    if s.readyState == CLOSED && s.delayed == [] {
      var body := s.log[..|s.log| - 1];
      assert forall i :: 0 <= i < |s.log| - 1 ==> s.log[i] == body[i];
      assert s.log + s.delayed == s.log;
    }
  }

  // Time

  /** The clock does not run backwards, and a pending timer fires on its deadline: nothing
      else happens after it while the connection waits. */
  ghost predicate OnTime(s: State, o: Occurrence) {
    && s.now <= o.at
    && (s.readyState == CONNECTING && s.timer.Some? ==> o.at <= s.timer.value)
  }

  ghost predicate Timely(config: Config, h: Handler, s: State, os: seq<Occurrence>)
    decreases |os|
  {
    os != [] ==> OnTime(s, os[0]) && Timely(config, h, Step(config, h, s, os[0]).state, os[1..])
  }

  ghost predicate TimeInv(s: State) {
    s.readyState == CONNECTING && !s.infoPending ==>
      && s.timer.Some? && s.now <= s.timer.value
      && s.timer.value <= s.infoAt + TotalPatience(s.rto, s.tried)
  }

  lemma StepKeepsTime(config: Config, h: Handler, s: State, o: Occurrence)
    requires Inv(s) && TimeInv(s) && OnTime(s, o)
    ensures TimeInv(Step(config, h, s, o).state)
  {
    StepKeeps(config, h, s, o);
    var t := Step(config, h, s, o).state;
    if s.infoPending {
      FirstTimer(config, h, s, o);
    } else {
      NextTimer(s, t, o);
    }
  }

  lemma FirstTimer(config: Config, h: Handler, s: State, o: Occurrence)
    requires Inv(s) && s.infoPending
    ensures TimeInv(Step(config, h, s, o).state)
  {
    var n := s.(now := o.at);
    match o.what
    case InfoArrived(info, rtt) =>
      if info.Some? {
        InfoKeeps(n, info.value, rtt, config, o.enabled);
        OnePatience(DidClose(ApplyInfo(n, info.value, rtt, config, o.enabled), None, false, o.enabled).state);
      }
    case UserCalls(calls) => PerformKeeps(n, calls, o.enabled);
    case _ =>
  }

  lemma OnePatience(t: State)
    requires t.readyState == CONNECTING ==> t.transport.Some? && t.tried == [t.transport.value]
    ensures t.readyState == CONNECTING ==> TotalPatience(t.rto, t.tried) == Patience(t.rto, t.transport.value)
  {
    if t.readyState == CONNECTING {
      assert t.tried[..0] == [];
      assert TotalPatience(t.rto, t.tried[..0]) == 0;
    }
  }

  lemma NextTimer(s: State, t: State, o: Occurrence)
    requires Inv(s) && TimeInv(s) && OnTime(s, o) && !s.infoPending && Kept(s, t, o)
    ensures TimeInv(t)
  {
    if t.readyState == CONNECTING && !t.infoPending && t.tried != s.tried {
      assert t.tried[..|t.tried| - 1] == s.tried;
    }
  }

  lemma {:induction false} RunKeepsTime(config: Config, h: Handler, s: State, os: seq<Occurrence>)
    requires Inv(s) && TimeInv(s) && Timely(config, h, s, os)
    ensures Inv(Run(config, h, s, os)) && TimeInv(Run(config, h, s, os))
    decreases |os|
  {
    if os != [] {
      StepKeeps(config, h, s, os[0]);
      StepKeepsTime(config, h, s, os[0]);
      RunKeepsTime(config, h, Step(config, h, s, os[0]).state, os[1..]);
    }
  }

  /** With timers that fire on their deadline, a connection is CONNECTING for at most 8 x rto
      after the info arrived (for a positive rto; 15 seconds for an rto of zero). */
  lemma ConnectingIsBrief(config: Config, h: Handler, now: int, os: seq<Occurrence>)
    requires Timely(config, h, Initial(now), os)
    ensures var s := Run(config, h, Initial(now), os);
            s.readyState == CONNECTING && !s.infoPending ==> s.now <= s.infoAt + PatienceBound(s.rto)
  {
    RunKeepsTime(config, h, Initial(now), os);
    FallbackIsBounded(config, h, now, os);
    var s := Run(config, h, Initial(now), os);
    TotalIsBounded(s.rto, s.tried);
  }
}
