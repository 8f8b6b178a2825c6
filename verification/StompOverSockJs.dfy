/** The STOMP client object over the SockJS object it is given. */
module StompOverSockJs {
  import opened Text
  import opened Utf8
  import opened StompFrame
  import opened StompClient
  import C = Connection
  import Safety = ConnectionSafety
  import E = EndToEnd
  import H = StompHandler
  import S = SockJs
  import P = Protocols

  /** A headers object of the caller. */
  class Headers {
    var fields: seq<Header>

    constructor (fields: seq<Header>)
      ensures this.fields == fields
    {
      this.fields := fields;
    }

    method Set(name: Str, value: Str)
      modifies this
      ensures fields == Put(old(fields), name, value)
    {
      fields := Put(fields, name, value);
    }
  }

  /** What a connection becomes when a frame is sent on it in chunks: only an open one takes
      them, and one that is still connecting throws. */
  function AfterSending(s: C.State, pieces: seq<Str>): C.State {
    if s.readyState == C.OPEN then s.(sent := s.sent + pieces) else s
  }

  lemma AfterSendingSplits(s: C.State, first: Str, rest: seq<Str>)
    ensures AfterSending(s, [first] + rest) == AfterSending(AfterSending(s, [first]), rest)
  {
    assert s.sent + ([first] + rest) == s.sent + [first] + rest;
  }

  /** The whole frame reached the connection, if that was open. */
  ghost predicate Sent(s: C.State, t: C.State, f: OutFrame) {
    Marshal(f).Some? && t == AfterSending(s, E.Chunks(Marshal(f).value, 16 * 1024))
  }

  function DisconnectPieces(): seq<Str> {
    [Ascii("DISCONNECT") + [LF, LF, NUL]]
  }

  /** What `disconnect` makes of a connection that is past CONNECTING. */
  function AfterDisconnect(conn: C.State, enabled: set<P.Protocol>): C.State {
    C.UserClose(AfterSending(conn, DisconnectPieces()), 0, enabled).state
  }

  lemma DisconnectIsOnePiece()
    ensures Marshal(DISCONNECT).Some? && E.Chunks(Marshal(DISCONNECT).value, 16 * 1024) == DisconnectPieces()
  {
    var name := Ascii("DISCONNECT");
    assert [name] + HeaderLines([]) == [name];
    assert name + [LF, LF] + [] + [NUL] == name + [LF, LF, NUL];
  }

  /** The loop over what was read: `done`, then what the frames from `i` on will bring. */
  ghost predicate Remains(all: seq<Op>, done: seq<Op>, c: ClientState, frames: seq<Frame>, i: nat, program: Program,
                          onreceive: bool)
  {
    i <= |frames| && done + History(c, frames[i..], program, onreceive) == all
  }

  lemma AllRemains(c: ClientState, frames: seq<Frame>, program: Program, onreceive: bool)
    ensures Remains(History(c, frames, program, onreceive), [], c, frames, 0, program, onreceive)
  {
    assert frames[0..] == frames;
    assert [] + History(c, frames, program, onreceive) == History(c, frames, program, onreceive);
  }

  lemma NothingRemains(all: seq<Op>, done: seq<Op>, c: ClientState, frames: seq<Frame>, program: Program,
                       onreceive: bool)
    requires Remains(all, done, c, frames, |frames|, program, onreceive)
    ensures done == all
  {
    assert frames[|frames|..] == [];
    assert done + [] == done;
  }

  /** One more frame. */
  lemma LessRemains(all: seq<Op>, done: seq<Op>, c: ClientState, frames: seq<Frame>, i: nat, program: Program,
                    onreceive: bool)
    requires i < |frames| && Remains(all, done, c, frames, i, program, onreceive)
    ensures var one := HistoryOfOne(c, frames[i], program, onreceive);
            if Interrupted(AnswerTo(c, frames[i], program, onreceive)) then done + one == all
            else Remains(all, done + one, Run(c, one), frames, i + 1, program, onreceive)
  {
    var one := HistoryOfOne(c, frames[i], program, onreceive);
    assert frames[i..][0] == frames[i] && frames[i..][1..] == frames[i + 1..];
    Assoc(done, one, History(Run(c, one), frames[i + 1..], program, onreceive));
  }

  lemma RanFirst(requests: seq<Request>)
    requires requests != []
    ensures Ran(requests) == if Throws(requests[0]) then [requests[0]] else [requests[0]] + Ran(requests[1..])
  {
    assert requests[..1] == [requests[0]];
  }

  /** One more request of a callback. */
  lemma RanStep(requests: seq<Request>, i: nat)
    requires i < |requests| && Ran(requests) == requests[..i] + Ran(requests[i..])
    ensures Throws(requests[i]) ==> Ran(requests) == requests[..i + 1]
    ensures !Throws(requests[i]) ==> Ran(requests) == requests[..i + 1] + Ran(requests[i + 1..])
    ensures requests[..i] + [requests[i]] == requests[..i + 1]
  {
    var rest := requests[i..];
    RanFirst(rest);
    assert rest[0] == requests[i] && rest[1..] == requests[i + 1..];
    assert requests[..i] + [requests[i]] == requests[..i + 1];
    Assoc(requests[..i], [requests[i]], Ran(requests[i + 1..]));
  }

  // What the client does to the connection, as calls

  lemma {:induction false} SendsPerform(s: C.State, pieces: seq<Str>, enabled: set<P.Protocol>)
    requires s.readyState != C.CONNECTING
    ensures C.Perform(s, H.SendCalls(pieces), enabled) == C.Outcome(AfterSending(s, pieces), false)
    decreases |pieces|
  {
    if pieces == [] {
      assert s.sent + pieces == s.sent;
    } else {
      var calls := H.SendCalls(pieces);
      assert calls[1..] == H.SendCalls(pieces[1..]) && [pieces[0]] + pieces[1..] == pieces;
      SendsPerform(AfterSending(s, [pieces[0]]), pieces[1..], enabled);
      AfterSendingSplits(s, pieces[0], pieces[1..]);
    }
  }

  lemma FramePerforms(s: C.State, f: OutFrame, enabled: set<P.Protocol>)
    requires s.readyState != C.CONNECTING
    ensures C.Perform(s, H.FrameCalls(f), enabled)
            == match Marshal(f)
               case None => C.Outcome(s, true)
               case Some(out) => C.Outcome(AfterSending(s, E.Chunks(out, 16 * 1024)), false)
  {
    match Marshal(f)
    case None =>
    case Some(out) => SendsPerform(s, E.Chunks(out, 16 * 1024), enabled);
  }

  lemma DisconnectPerforms(s: C.State, c: ClientState, enabled: set<P.Protocol>)
    requires Safety.Inv(s) && s.readyState != C.CONNECTING
    ensures C.Perform(s, H.OpCalls(c, Disconnect), enabled) == C.Outcome(AfterDisconnect(s, enabled), false)
  {
    var sent := AfterSending(s, DisconnectPieces());
    FramePerforms(s, DISCONNECT, enabled);
    DisconnectIsOnePiece();
    Safety.PerformConcat(s, H.FrameCalls(DISCONNECT), [C.CallClose(0)], enabled);
    OneCall(sent, C.CallClose(0), enabled);
    Safety.PerformThrowsIff(sent, [C.CallClose(0)], enabled);
  }

  lemma OneCall(s: C.State, call: C.Call, enabled: set<P.Protocol>)
    ensures C.Perform(s, [call], enabled) == C.PerformOne(s, call, enabled)
  {
    var none: seq<C.Call> := [call][1..];
    assert none == [];
  }

  /** The client and its connection have gone through the operations, and the calls that the
      handler of the socket makes for them. */
  ghost predicate WentThrough(v: H.Over, s: C.State, ops: seq<Op>, w: H.Over, t: C.Outcome, enabled: set<P.Protocol>) {
    w == H.RunOver(v, ops) && t == C.Perform(s, H.OpsCalls(v.client, ops), enabled)
  }

  lemma WentNowhere(v: H.Over, s: C.State, enabled: set<P.Protocol>)
    ensures WentThrough(v, s, [], v, C.Outcome(s, false), enabled)
  {
  }

  lemma WentFurther(v: H.Over, s: C.State, done: seq<Op>, w: H.Over, t: C.State, more: seq<Op>, x: H.Over,
                    u: C.Outcome, enabled: set<P.Protocol>)
    requires WentThrough(v, s, done, w, C.Outcome(t, false), enabled) && WentThrough(w, t, more, x, u, enabled)
    ensures WentThrough(v, s, done + more, x, u, enabled)
  {
    RunConcat(v.client, done, more);
    H.OpsCallsConcat(v.client, done, more);
    Safety.PerformConcat(s, H.OpsCalls(v.client, done), H.OpsCalls(Run(v.client, done), more), enabled);
  }

  lemma WentThroughOne(v: H.Over, s: C.State, r: Request, w: H.Over, t: C.Outcome, enabled: set<P.Protocol>)
    requires w == H.Over(Step(v.client, r), v.onclose && r != Disconnect)
    requires t == C.Perform(s, H.OpCalls(v.client, r), enabled)
    ensures WentThrough(v, s, [r], w, t, enabled)
  {
    var none: seq<Op> := [];
    assert none + [r] == [r] && [r][..0] == none;
    H.OpsCallsSnoc(v.client, none, r);
    assert H.OpsCalls(v.client, none) + H.OpCalls(v.client, r) == H.OpCalls(v.client, r);
  }

  /** A request whose frame was transmitted, or could not be. */
  lemma RequestPerforms(c: ClientState, s: C.State, r: Request, t: C.State, thrown: bool, enabled: set<P.Protocol>)
    requires !r.Direct? && !r.Disconnect? && s.readyState != C.CONNECTING
    requires if Marshal(Transmitted(c, r)).Some? then Sent(s, t, Transmitted(c, r)) && !thrown else t == s && thrown
    ensures C.Outcome(t, thrown) == C.Perform(s, H.OpCalls(c, r), enabled)
  {
    FramePerforms(s, Transmitted(c, r), enabled);
  }

  /** A frame that is handed over does nothing to the connection. */
  lemma WentThroughFrame(v: H.Over, s: C.State, frame: Frame, enabled: set<P.Protocol>)
    ensures var w := v.(client := Step(v.client, Receive(frame)));
            WentThrough(v, s, [Receive(frame)], w, C.Outcome(s, false), enabled)
  {
    var one: seq<Op> := [Receive(frame)];
    assert one[..0] == [] && Run(v.client, one[..0]) == v.client;
  }

  /** The same, and the callbacks have been handed what the operations deliver. */
  ghost predicate Handled(v: H.Over, s: C.State, given: seq<Delivery>, ops: seq<Op>, w: H.Over, t: C.Outcome,
                          delivered: seq<Delivery>, onreceive: bool, enabled: set<P.Protocol>) {
    && WentThrough(v, s, ops, w, t, enabled)
    && delivered == given + Deliveries(v.client, ops, onreceive)
  }

  lemma HandledFurther(v: H.Over, s: C.State, given: seq<Delivery>, done: seq<Op>, w: H.Over, t: C.State,
                       between: seq<Delivery>, more: seq<Op>, x: H.Over, u: C.Outcome, delivered: seq<Delivery>,
                       onreceive: bool, enabled: set<P.Protocol>)
    requires Handled(v, s, given, done, w, C.Outcome(t, false), between, onreceive, enabled)
    requires Handled(w, t, between, more, x, u, delivered, onreceive, enabled)
    ensures Handled(v, s, given, done + more, x, u, delivered, onreceive, enabled)
  {
    WentFurther(v, s, done, w, t, more, x, u, enabled);
    DeliveriesConcat(v.client, done, more, onreceive);
    Assoc(given, Deliveries(v.client, done, onreceive), Deliveries(w.client, more, onreceive));
  }

  class Client {
    const ws: S.SockJS
    const maxWebSocketFrameSize: nat
    const onreceive: bool
    var counter: nat
    var connected: bool
    var subscriptions: map<Str, Option<Callback>>
    var onclose: bool  // ws.onclose is set
    var delivered: seq<Delivery>

    ghost function Abstract(): ClientState
      reads this
    {
      ClientState(counter, connected, subscriptions)
    }

    ghost function AsOver(): H.Over
      reads this
    {
      H.Over(Abstract(), onclose)
    }

    ghost predicate Valid()
      reads this, ws
    {
      ws.Valid() && maxWebSocketFrameSize == 16 * 1024
    }

    /** `Stomp.over` followed by `connect`. */
    constructor (ws: S.SockJS, onreceive: bool)
      requires ws.Valid()
      ensures Valid() && Abstract() == New() && onclose && delivered == []
      ensures this.ws == ws && this.onreceive == onreceive
    {
      this.ws, this.onreceive, maxWebSocketFrameSize := ws, onreceive, 16 * 1024;
      counter, connected, subscriptions, onclose, delivered := 0, false, map[], true, [];
    }

    method SendPiece(data: Str) returns (thrown: bool)
      requires Valid()
      modifies ws
      ensures Valid()
      ensures thrown <==> old(ws.readyState) == C.CONNECTING
      ensures ws.Abstract() == AfterSending(old(ws.Abstract()), [data])
    {
      Safety.PerformOneKeeps(ws.Abstract(), C.CallSend(data), {});
      thrown := ws.Send(data);
    }

    /** `_transmit`: nothing of a frame whose body has a lone surrogate is sent, and nothing
        on a connection that is not open; only the connecting one says so. */
    method Transmit(f: OutFrame) returns (thrown: bool)
      requires Valid()
      modifies ws
      ensures Valid()
      ensures thrown <==> !WellFormed(f.body) || old(ws.readyState) == C.CONNECTING
      ensures match Marshal(f)
              case None => ws.Abstract() == old(ws.Abstract())
              case Some(out) => ws.Abstract() == AfterSending(old(ws.Abstract()), E.Chunks(out, maxWebSocketFrameSize))
    {
      SizeIsOctetCount(f.body);
      var text := MarshalFrame(f);
      if text.None? {
        return true;
      }
      var out := text.value;
      ghost var before, all := ws.Abstract(), E.Chunks(out, maxWebSocketFrameSize);
      while |out| > maxWebSocketFrameSize
        invariant Valid() && ws.readyState == before.readyState
        invariant AfterSending(ws.Abstract(), E.Chunks(out, maxWebSocketFrameSize)) == AfterSending(before, all)
      {
        AfterSendingSplits(ws.Abstract(), out[..maxWebSocketFrameSize],
                           E.Chunks(out[maxWebSocketFrameSize..], maxWebSocketFrameSize));
        thrown := SendPiece(out[..maxWebSocketFrameSize]);
        if thrown {
          return;
        }
        out := out[maxWebSocketFrameSize..];
      }
      thrown := SendPiece(out);
    }

    /** The id is registered and written into the caller's headers whether or not the frame
        can be sent. */
    method Subscribe(destination: Str, callback: Option<Callback>, headers: Headers) returns (id: Str, thrown: bool)
      requires Valid()
      modifies this, ws, headers
      ensures Valid() && onclose == old(onclose) && delivered == old(delivered)
      ensures var op := StompClient.Subscribe(destination, callback, old(headers.fields));
              && Abstract() == Step(old(Abstract()), op)
              && headers.fields == SubscribeHeaders(old(Abstract()), destination, old(headers.fields))
              && id == SubscriptionId(old(Abstract()), old(headers.fields))
              && SuppliedId(headers.fields) == id
              && Sent(old(ws.Abstract()), ws.Abstract(), Transmitted(old(Abstract()), op))
      ensures thrown <==> old(ws.readyState) == C.CONNECTING
    {
      ghost var c, given := Abstract(), headers.fields;
      if SuppliedId(headers.fields) == [] {
        LookupPut(headers.fields, ID, SUB + Decimal(counter), ID);
        headers.Set(ID, SUB + Decimal(counter));
        counter := counter + 1;
      }
      LookupPut(headers.fields, DESTINATION, destination, ID);
      assert |ID| != |DESTINATION|;
      headers.Set(DESTINATION, destination);
      id := SuppliedId(headers.fields);
      subscriptions := subscriptions[id := callback];
      thrown := Transmit(OutFrame(Ascii("SUBSCRIBE"), headers.fields, []));
    }

    method Unsubscribe(id: Str) returns (thrown: bool)
      requires Valid()
      modifies this, ws
      ensures Valid() && onclose == old(onclose) && delivered == old(delivered)
      ensures Abstract() == Step(old(Abstract()), StompClient.Unsubscribe(id))
      ensures Sent(old(ws.Abstract()), ws.Abstract(), Transmitted(old(Abstract()), StompClient.Unsubscribe(id)))
      ensures thrown <==> old(ws.readyState) == C.CONNECTING
    {
      subscriptions := subscriptions - {id};
      thrown := Transmit(OutFrame(Ascii("UNSUBSCRIBE"), [Header(ID, id)], []));
    }

    method Begin(transaction: Str) returns (id: Str, thrown: bool)
      requires Valid()
      modifies this, ws
      ensures Valid() && onclose == old(onclose) && delivered == old(delivered)
      ensures Abstract() == Step(old(Abstract()), StompClient.Begin(transaction))
      ensures id == TransactionId(old(Abstract()), transaction)
      ensures Sent(old(ws.Abstract()), ws.Abstract(), Transmitted(old(Abstract()), StompClient.Begin(transaction)))
      ensures thrown <==> old(ws.readyState) == C.CONNECTING
    {
      id := transaction;
      if transaction == [] {
        id := TX + Decimal(counter);
        counter := counter + 1;
      }
      thrown := Transmit(OutFrame(Ascii("BEGIN"), [Header(TRANSACTION, id)], []));
    }

    /** `send` */
    method SendMessage(destination: Str, headers: Headers, body: Str) returns (thrown: bool)
      requires Valid()
      modifies ws, headers
      ensures Valid()
      ensures thrown <==> !WellFormed(body) || old(ws.readyState) == C.CONNECTING
      ensures headers.fields == Put(old(headers.fields), DESTINATION, destination)
      ensures var f := Transmitted(Abstract(), StompClient.Send(destination, old(headers.fields), body));
              if Marshal(f).Some? then Sent(old(ws.Abstract()), ws.Abstract(), f)
              else ws.Abstract() == old(ws.Abstract())
    {
      headers.Set(DESTINATION, destination);
      thrown := Transmit(OutFrame(Ascii("SEND"), headers.fields, body));
    }

    /** A callback uses the socket itself, or throws. */
    method Act(call: C.Call, enabled: set<P.Protocol>) returns (thrown: bool)
      requires Valid() && ws.readyState != C.CONNECTING
      modifies ws
      ensures Valid() && ws.readyState != C.CONNECTING
      ensures C.Outcome(ws.Abstract(), thrown) == C.Perform(old(ws.Abstract()), [call], enabled)
      ensures thrown <==> C.Throws(call)
    {
      Safety.PerformOneKeeps(ws.Abstract(), call, enabled);
      OneCall(ws.Abstract(), call, enabled);
      Safety.PerformThrowsIff(ws.Abstract(), [call], enabled);
      match call {
        case CallClose(code) => thrown := ws.Close(code, enabled);
        case CallSend(data) => thrown := ws.Send(data);
        case Throw => thrown := true;
      }
    }

    /** One thing that a callback does. */
    method Perform(r: Request, enabled: set<P.Protocol>) returns (thrown: bool)
      requires Valid() && ws.readyState != C.CONNECTING
      modifies this, ws
      ensures Valid() && ws.readyState != C.CONNECTING && delivered == old(delivered)
      ensures WentThrough(old(AsOver()), old(ws.Abstract()), [r], AsOver(), C.Outcome(ws.Abstract(), thrown), enabled)
      ensures thrown <==> Throws(r)
    {
      ghost var v, s := AsOver(), ws.Abstract();
      if r.Disconnect? {
        DisconnectPerforms(s, v.client, enabled);
        thrown := Disconnect(enabled);
      } else if r.Direct? {
        thrown := Act(r.call, enabled);
      } else {
        thrown := Ask(r, enabled);
      }
      WentThroughOne(v, s, r, AsOver(), C.Outcome(ws.Abstract(), thrown), enabled);
    }

    /** A call of the client that transmits a frame. */
    method Ask(r: Request, enabled: set<P.Protocol>) returns (thrown: bool)
      requires Valid() && ws.readyState != C.CONNECTING && !r.Direct? && !r.Disconnect?
      modifies this, ws
      ensures Valid() && ws.readyState != C.CONNECTING && delivered == old(delivered) && onclose == old(onclose)
      ensures Abstract() == Step(old(Abstract()), r) && (thrown <==> Throws(r))
      ensures C.Outcome(ws.Abstract(), thrown) == C.Perform(old(ws.Abstract()), H.OpCalls(old(Abstract()), r), enabled)
    {
      ghost var c, s := Abstract(), ws.Abstract();
      SizeIsOctetCount(Transmitted(c, r).body);
      match r {
        case Subscribe(destination, callback, fields) =>
          var headers := new Headers(fields);
          var id;
          id, thrown := Subscribe(destination, callback, headers);
        case Unsubscribe(id) =>
          thrown := Unsubscribe(id);
        case Begin(transaction) =>
          var id;
          id, thrown := Begin(transaction);
        case Send(destination, fields, body) =>
          var headers := new Headers(fields);
          thrown := SendMessage(destination, headers, body);
      }
      RequestPerforms(c, s, r, ws.Abstract(), thrown, enabled);
    }

    /** What a callback does, up to the first exception. */
    method Serve(requests: seq<Request>, enabled: set<P.Protocol>) returns (thrown: bool)
      requires Valid() && ws.readyState != C.CONNECTING
      modifies this, ws
      ensures Valid() && ws.readyState != C.CONNECTING && delivered == old(delivered)
      ensures WentThrough(old(AsOver()), old(ws.Abstract()), Ran(requests), AsOver(),
                          C.Outcome(ws.Abstract(), thrown), enabled)
      ensures thrown <==> Interrupted(requests)
    {
      ghost var v, s := AsOver(), ws.Abstract();
      WentNowhere(v, s, enabled);
      var i := 0;
      while i < |requests|
        invariant 0 <= i <= |requests|
        invariant Valid() && ws.readyState != C.CONNECTING && delivered == old(delivered)
        invariant WentThrough(v, s, requests[..i], AsOver(), C.Outcome(ws.Abstract(), false), enabled)
        invariant Ran(requests) == requests[..i] + Ran(requests[i..])
        invariant forall k :: 0 <= k < i ==> !Throws(requests[k])
      {
        ghost var w, t := AsOver(), ws.Abstract();
        RanStep(requests, i);
        thrown := Perform(requests[i], enabled);
        WentFurther(v, s, requests[..i], w, t, [requests[i]], AsOver(), C.Outcome(ws.Abstract(), thrown), enabled);
        if thrown {
          return;
        }
        i := i + 1;
      }
      assert requests[..i] == requests && requests[..i] + Ran(requests[i..]) == requests;
      thrown := false;
    }

    /** An event is dispatched to the client, the last of those so far. What it does to itself
        and to its socket, and what it hands to the callbacks, is what module StompHandler says
        of the handler of the socket. */
    method OnEvent(user: H.User, log: seq<C.Event>, enabled: set<P.Protocol>) returns (thrown: bool)
      requires Valid() && ws.readyState != C.CONNECTING && user.onreceive == onreceive
      requires log != [] && AsOver() == H.After(user, log[..|log| - 1])
      modifies this, ws
      ensures Valid() && ws.readyState != C.CONNECTING && AsOver() == H.After(user, log)
      ensures C.Outcome(ws.Abstract(), thrown) == C.Perform(old(ws.Abstract()), H.HandlerCalls(user, log), enabled)
      ensures delivered == old(delivered) + if log[|log| - 1].MessageEvent? then H.MessageDeliveries(user, log) else []
    {
      match log[|log| - 1] {
        case OpenEvent =>
          FramePerforms(ws.Abstract(), H.CONNECT, enabled);
          thrown := Transmit(H.CONNECT);
        case MessageEvent(data) =>
          thrown := OnMessage(data, user.program(log), enabled);
        case HeartbeatEvent =>
          thrown := false;
        case CloseEvent(_, _, _) =>
          thrown := false;
          if onclose {
            connected := false;
            thrown := Serve(user.lost, enabled);
          }
      }
    }

    /** `ws.onmessage`: each frame goes to the callback its command and the subscriptions of
        that moment select, until one throws. */
    method OnMessage(data: Str, program: Program, enabled: set<P.Protocol>) returns (thrown: bool)
      requires Valid() && ws.readyState != C.CONNECTING
      modifies this, ws
      ensures Valid() && ws.readyState != C.CONNECTING
      ensures var ops := if data == [LF] then [] else History(old(Abstract()), Unmarshal(data), program, onreceive);
              Handled(old(AsOver()), old(ws.Abstract()), old(delivered), ops,
                      AsOver(), C.Outcome(ws.Abstract(), thrown), delivered, onreceive, enabled)
    {
      thrown := false;
      WentNowhere(AsOver(), ws.Abstract(), enabled);
      if data != [LF] {
        var frames := UnmarshallFrames(data);
        thrown := HandleFrames(frames, program, enabled);
      }
    }

    method HandleFrames(frames: seq<Frame>, program: Program, enabled: set<P.Protocol>) returns (thrown: bool)
      requires Valid() && ws.readyState != C.CONNECTING
      modifies this, ws
      ensures Valid() && ws.readyState != C.CONNECTING
      ensures Handled(old(AsOver()), old(ws.Abstract()), old(delivered),
                      History(old(Abstract()), frames, program, onreceive),
                      AsOver(), C.Outcome(ws.Abstract(), thrown), delivered, onreceive, enabled)
    {
      ghost var v, s, given, done: seq<Op> := AsOver(), ws.Abstract(), delivered, [];
      ghost var all := History(v.client, frames, program, onreceive);
      WentNowhere(v, s, enabled);
      AllRemains(v.client, frames, program, onreceive);
      var i := 0;
      while i < |frames|
        invariant 0 <= i <= |frames|
        invariant Valid() && ws.readyState != C.CONNECTING
        invariant Handled(v, s, given, done, AsOver(), C.Outcome(ws.Abstract(), false), delivered, onreceive, enabled)
        invariant Remains(all, done, Abstract(), frames, i, program, onreceive)
      {
        ghost var w, t, between := AsOver(), ws.Abstract(), delivered;
        ghost var one := HistoryOfOne(w.client, frames[i], program, onreceive);
        LessRemains(all, done, w.client, frames, i, program, onreceive);
        thrown := HandleFrame(frames[i], program, enabled);
        HandledFurther(v, s, given, done, w, t, between, one, AsOver(), C.Outcome(ws.Abstract(), thrown), delivered,
                       onreceive, enabled);
        done := done + one;
        if thrown {
          return;
        }
        i := i + 1;
      }
      NothingRemains(all, done, Abstract(), frames, program, onreceive);
      thrown := false;
    }

    /** One frame is dispatched, and its callback served. */
    method HandleFrame(frame: Frame, program: Program, enabled: set<P.Protocol>) returns (thrown: bool)
      requires Valid() && ws.readyState != C.CONNECTING
      modifies this, ws
      ensures Valid() && ws.readyState != C.CONNECTING
      ensures thrown <==> Interrupted(AnswerTo(old(Abstract()), frame, program, onreceive))
      ensures Handled(old(AsOver()), old(ws.Abstract()), old(delivered),
                      HistoryOfOne(old(Abstract()), frame, program, onreceive),
                      AsOver(), C.Outcome(ws.Abstract(), thrown), delivered, onreceive, enabled)
    {
      ghost var v, s := AsOver(), ws.Abstract();
      var delivery := Dispatch(frame);
      ghost var w := AsOver();
      OneDelivers(v.client, frame, program, onreceive);
      WentThroughFrame(v, s, frame, enabled);
      var requests := Answer(program, delivery);
      thrown := Serve(requests, enabled);
      WentFurther(v, s, [Receive(frame)], w, s, Ran(requests), AsOver(), C.Outcome(ws.Abstract(), thrown), enabled);
    }

    /** The switch over the command of one frame. */
    method Dispatch(frame: Frame) returns (delivery: Delivery)
      modifies this
      ensures delivery == Delivery(TargetOf(old(Abstract()), frame, onreceive), frame)
      ensures Abstract() == Step(old(Abstract()), Receive(frame))
      ensures delivered == old(delivered) + [delivery] && onclose == old(onclose)
    {
      var to := Nobody;
      if frame.command == Ascii("CONNECTED") {
        connected := true;
        to := ConnectCallback;
      } else if frame.command == Ascii("MESSAGE") {
        var subscription := SubscriptionOf(frame);
        if subscription in subscriptions && subscriptions[subscription].Some? {
          to := SubscriptionCallback(subscriptions[subscription].value);
        } else if onreceive {
          to := OnReceive;
        }
      } else if frame.command == Ascii("RECEIPT") {
        to := OnReceipt;
      } else if frame.command == Ascii("ERROR") {
        to := ErrorCallback;
      }
      delivery := Delivery(to, frame);
      delivered := delivered + [delivery];
    }

    /** `disconnect` throws on a connection that is still connecting, and leaves it alone;
        otherwise the connection is CLOSED and its close event will not be heard. */
    method Disconnect(enabled: set<P.Protocol>) returns (thrown: bool)
      requires Valid()
      modifies this, ws
      ensures Valid() && delivered == old(delivered)
      ensures thrown <==> old(ws.readyState) == C.CONNECTING
      ensures thrown ==> ws.Abstract() == old(ws.Abstract()) && Abstract() == old(Abstract()) && onclose == old(onclose)
      ensures !thrown ==>
                && !onclose && Abstract() == old(Abstract()).(connected := false)
                && ws.Abstract() == AfterDisconnect(old(ws.Abstract()), enabled)
                && ws.readyState == C.CLOSED
    {
      DisconnectIsOnePiece();
      thrown := Transmit(DISCONNECT);
      if thrown {
        return;
      }
      onclose := false;
      Safety.PerformOneKeeps(ws.Abstract(), C.CallClose(0), enabled);
      var _ := ws.Close(0, enabled);
      connected := false;
    }
  }
}
