/** The SockJS object itself: its fields, updated by its methods. Each method does to the
    fields what the state machine of module Connection does to its state. */
module SockJs {
  import opened Text
  import opened Protocols
  import opened Connection
  import Safety = ConnectionSafety
  import Events = ConnectionEvents

  class SockJS {
    const config: Config
    const handler: Handler
    var readyState: ReadyState
    var infoReceiver: bool
    var protocols: seq<Protocol>
    var transport: Option<Protocol>
    var transportTimer: Option<int>
    var delayed: seq<Event>
    var dispatched: seq<Event>
    var sent: seq<Str>
    var tried: seq<Protocol>
    var detected: seq<Protocol>
    var rto: int
    var infoAt: int
    var now: int

    ghost function Abstract(): State
      reads this
    {
      State(readyState, infoReceiver, protocols, transport, transportTimer, delayed, dispatched, sent, tried,
            detected, rto, infoAt, now)
    }

    ghost predicate Valid()
      reads this
    {
      Safety.Inv(Abstract())
    }

    constructor (config: Config, handler: Handler, now: int)
      ensures Valid() && Abstract() == Initial(now)
      ensures this.config == config && this.handler == handler
    {
      this.config, this.handler := config, handler;
      readyState, infoReceiver, protocols, transport, transportTimer := CONNECTING, true, [], None, None;
      delayed, dispatched, sent, tried, detected := [], [], [], [], [];
      rto, infoAt, this.now := 0, now, now;
    }

    method TryNextProtocol(enabled: set<Protocol>) returns (found: bool)
      modifies this
      ensures (Abstract(), found) == Connection.TryNextProtocol(old(Abstract()), enabled)
    {
      transportTimer := None;
      ghost var start := Abstract();
      while true
        invariant OpenNext(Abstract(), enabled) == OpenNext(start, enabled)
        decreases |protocols|
      {
        if protocols == [] {
          return false;
        }
        var protocol := protocols[0];
        protocols := protocols[1..];
        if protocol in enabled {
          transportTimer := Some(now + Patience(rto, protocol));
          transport := Some(protocol);
          tried := tried + [protocol];
          return true;
        }
      }
    }

    method DidClose(code: Option<int>, force: bool, enabled: set<Protocol>) returns (thrown: bool)
      modifies this
      ensures Outcome(Abstract(), thrown) == Connection.DidClose(old(Abstract()), code, force, enabled)
      ensures old(readyState) == CONNECTING && old(delayed) == [] && !force && !Safety.OnPurpose(code) ==>
                Events.FallsBack(old(Abstract()), Abstract(), enabled)
    {
      if readyState == CONNECTING && delayed == [] && !force && !Safety.OnPurpose(code) {
        Events.DidCloseFallsBack(Abstract(), code, enabled);
      }
      if readyState != CONNECTING && readyState != OPEN && readyState != CLOSING {
        return true;
      }
      infoReceiver := false;
      transport := None;
      var closeEvent := CloseEvent(code, UserSetCode(code), false);
      if !UserSetCode(code) && readyState == CONNECTING && !force {
        var found := TryNextProtocol(enabled);
        if found {
          return false;
        }
        closeEvent := CloseEvent(Some(2000), false, true);
      }
      readyState := CLOSED;
      delayed := delayed + [closeEvent];
      thrown := false;
    }

    method Close(code: int, enabled: set<Protocol>) returns (thrown: bool)
      modifies this
      ensures Outcome(Abstract(), thrown) == UserClose(old(Abstract()), code, enabled)
    {
      if code != 0 && !UserSetCode(Some(code)) {
        return true;
      }
      if readyState != CONNECTING && readyState != OPEN {
        return false;
      }
      readyState := CLOSING;
      thrown := DidClose(Some(if code == 0 then 1000 else code), false, enabled);
    }

    method Send(data: Str) returns (thrown: bool)
      modifies this
      ensures Outcome(Abstract(), thrown) == UserSend(old(Abstract()), data)
    {
      if readyState == CONNECTING {
        return true;
      }
      if readyState == OPEN {
        sent := sent + [data];
      }
      thrown := false;
    }

    /** The body of a user handler: calls in order, ended by an exception. */
    method RunCalls(calls: seq<Call>, enabled: set<Protocol>) returns (thrown: bool)
      modifies this
      ensures Outcome(Abstract(), thrown) == Perform(old(Abstract()), calls, enabled)
    {
      ghost var start := Abstract();
      var i := 0;
      while i < |calls|
        invariant 0 <= i <= |calls|
        invariant Perform(Abstract(), calls[i..], enabled) == Perform(start, calls, enabled)
      {
        assert calls[i..][0] == calls[i] && calls[i..][1..] == calls[i + 1..];
        match calls[i] {
          case CallClose(code) => thrown := Close(code, enabled);
          case CallSend(data) => thrown := Send(data);
          case Throw => thrown := true;
        }
        if thrown {
          return;
        }
        i := i + 1;
      }
      thrown := false;
    }

    method DispatchEvent(event: Event, enabled: set<Protocol>) returns (thrown: bool)
      modifies this
      ensures Outcome(Abstract(), thrown) == Dispatch(old(Abstract()), event, handler, enabled)
    {
      dispatched := dispatched + [event];
      thrown := RunCalls(handler(dispatched), enabled);
    }

    method DispatchOpen(enabled: set<Protocol>) returns (thrown: bool)
      modifies this
      ensures Outcome(Abstract(), thrown) == Connection.DispatchOpen(old(Abstract()), handler, enabled)
    {
      if readyState == CONNECTING {
        transportTimer := None;
        readyState := OPEN;
        thrown := DispatchEvent(OpenEvent, enabled);
      } else {
        thrown := DidClose(Some(1006), false, enabled);
      }
    }

    method DispatchMessage(data: Str, enabled: set<Protocol>) returns (thrown: bool)
      modifies this
      ensures Outcome(Abstract(), thrown) == DispatchIfOpen(old(Abstract()), MessageEvent(data), handler, enabled)
    {
      if readyState != OPEN {
        return false;
      }
      thrown := DispatchEvent(MessageEvent(data), enabled);
    }

    method DispatchHeartbeat(enabled: set<Protocol>) returns (thrown: bool)
      modifies this
      ensures Outcome(Abstract(), thrown) == DispatchIfOpen(old(Abstract()), HeartbeatEvent, handler, enabled)
    {
      if readyState != OPEN {
        return false;
      }
      thrown := DispatchEvent(HeartbeatEvent, enabled);
    }

    method DidMessage(frame: Frame, enabled: set<Protocol>) returns (thrown: bool)
      modifies this
      ensures Outcome(Abstract(), thrown) == Connection.DidMessage(old(Abstract()), frame, handler, enabled)
    {
      match frame {
        case OpenFrame => thrown := DispatchOpen(enabled);
        case ArrayFrame(payload) => thrown := DeliverAll(payload, enabled);
        case MessageFrame(data) => thrown := DispatchMessage(data, enabled);
        case CloseFrame(code) => thrown := DidClose(code, false, enabled);
        case HeartbeatFrame => thrown := DispatchHeartbeat(enabled);
        case UnknownFrame => thrown := false;
        case BrokenFrame => thrown := true;
      }
    }

    /** The loop over the payload of an array frame. */
    method DeliverAll(payload: seq<Str>, enabled: set<Protocol>) returns (thrown: bool)
      modifies this
      ensures Outcome(Abstract(), thrown) == Deliver(old(Abstract()), payload, handler, enabled)
    {
      ghost var start := Abstract();
      var i := 0;
      while i < |payload|
        invariant 0 <= i <= |payload|
        invariant Deliver(Abstract(), payload[i..], handler, enabled) == Deliver(start, payload, handler, enabled)
      {
        assert payload[i..][0] == payload[i] && payload[i..][1..] == payload[i + 1..];
        thrown := DispatchMessage(payload[i], enabled);
        if thrown {
          return;
        }
        i := i + 1;
      }
      thrown := false;
    }

    /** `_ir.onfinish` */
    method OnInfo(info: Option<Info>, rtt: int, enabled: set<Protocol>) returns (thrown: bool)
      modifies this
      ensures Outcome(Abstract(), thrown) ==
              if info.Some? then
                var planned := Connection.ApplyInfo(old(Abstract()), info.value, rtt, config, enabled);
                Connection.DidClose(planned, None, false, enabled)
              else Connection.DidClose(old(Abstract()).(infoPending := false), Some(1002), true, enabled)
    {
      infoReceiver := false;
      if info.Some? {
        rto := CountRTO(rtt);
        protocols := Detect(enabled, config.whitelist, info.value, config.nullOrigin);
        detected, infoAt := protocols, now;
        assert Abstract() == Connection.ApplyInfo(old(Abstract()), info.value, rtt, config, enabled);
        thrown := DidClose(None, false, enabled);
      } else {
        thrown := DidClose(Some(1002), true, enabled);
      }
    }

    /** One turn of the event loop keeps the invariant and is a step of the state machine. */
    method HandleEvent(o: Occurrence) returns (thrown: bool)
      requires Valid()
      modifies this
      ensures Valid()
      ensures Outcome(Abstract(), thrown) == Step(config, handler, old(Abstract()), o)
    {
      Safety.StepKeeps(config, handler, Abstract(), o);
      now := o.at;
      thrown := false;
      match o.what {
        case InfoArrived(info, rtt) =>
          if infoReceiver {
            thrown := OnInfo(info, rtt, o.enabled);
          }
        case FrameArrived(frame) =>
          if transport.Some? {
            thrown := DidMessage(frame, o.enabled);
          }
        case TransportFailed =>
          if transport.Some? {
            thrown := DidClose(Some(1006), false, o.enabled);
          }
        case PostFailed =>
          if sent != [] {
            thrown := DidClose(Some(1006), false, o.enabled);
          }
        case TimerFired =>
          if transportTimer.Some? {
            if readyState == CONNECTING {
              thrown := DidClose(Some(2007), false, o.enabled);
            } else {
              transportTimer := None;
            }
          }
        case CloseDispatched =>
          if delayed != [] {
            var event := delayed[0];
            delayed := delayed[1..];
            thrown := DispatchEvent(event, o.enabled);
          }
        case UserCalls(calls) => thrown := RunCalls(calls, o.enabled);
      }
    }
  }
}
