/** What the requests of a STOMP client put on the wire, told by what a reader of frames makes
    of it. */
module StompRequests {
  import opened Text
  import opened Utf8
  import opened StompFrame
  import opened StompRoundTrip
  import opened StompClient
  import O = StompOverSockJs
  import H = StompHandler
  import C = Connection
  import Safety = ConnectionSafety
  import Events = ConnectionEvents
  import E = EndToEnd
  import P = Protocols

  // Header values that the wire can carry

  predicate ValueOk(value: Str) {
    LF !in value && NUL !in value && Trim(value) == value
  }

  /** The caller's headers: names and values as they are read, and no content-length that
      would cut the body. */
  predicate HeadersOk(headers: seq<Header>, body: Str) {
    (forall h <- headers :: HeaderOk(h)) && LengthOk(OutFrame([], headers, body))
  }

  lemma {:induction false} PutOk(headers: seq<Header>, name: Str, value: Str, body: Str)
    requires HeadersOk(headers, body) && HeaderOk(Header(name, value)) && name != CONTENT_LENGTH
    ensures HeadersOk(Put(headers, name, value), body)
    decreases |headers|
  {
    if headers != [] {
      var rest := headers[1..];
      assert forall i :: 0 <= i < |rest| ==> rest[i] == headers[i + 1];
      if headers[0].name != name {
        PutOk(rest, name, value, body);
      }
    }
  }

  lemma NumberedOk(prefix: Str, n: nat)
    requires ValueOk(prefix) && prefix != []
    ensures ValueOk(prefix + Decimal(n))
  {
    var d := Decimal(n);
    var v := prefix + d;
    assert d[|d| - 1] in d && v[|v| - 1] == d[|d| - 1];
    TrimmedEnds(prefix);
    TrimKeeps(v);
  }

  /** The names that the client gives its own headers. */
  lemma NamedOk(name: Str, value: Str)
    requires name in {ID, DESTINATION, TRANSACTION} && ValueOk(value)
    ensures HeaderOk(Header(name, value)) && name != CONTENT_LENGTH
  {
    TrimKeeps(name);
    assert |ID| == 2 && |DESTINATION| == 11 && |TRANSACTION| == 11 && |CONTENT_LENGTH| == 14 && |PROTO| == 9;
  }

  lemma PrefixesOk()
    ensures ValueOk(SUB) && ValueOk(TX)
  {
    TrimKeeps(SUB);
    TrimKeeps(TX);
  }

  lemma TrimmedEnds(s: Str)
    requires Trim(s) == s && s != []
    ensures !IsSpace(s[0])
  {
  }

  /** A name is read with the value it has in the headers object. */
  lemma {:induction false} FirstValuesLookup(headers: seq<Header>, name: Str)
    requires forall h <- headers :: h.name != PROTO
    ensures var read := FirstValues(headers);
            Lookup(headers, name) == if name in read then Some(read[name]) else None
    decreases |headers|
  {
    if headers != [] {
      FirstValuesLookup(headers[1..], name);
    }
  }

  // Frames on an open connection

  /** What the connection was given between two states. */
  function Given(s: C.State, t: C.State): Str
    requires s.sent <= t.sent
  {
    Flatten(t.sent[|s.sent|..])
  }

  /** Only what was sent has changed, and it reads as one frame. */
  ghost predicate Writes(s: C.State, t: C.State, frame: Frame) {
    && s.sent <= t.sent && t == s.(sent := t.sent)
    && Unmarshal(Given(s, t)) == [frame]
  }

  lemma FrameIsWritten(s: C.State, f: OutFrame, enabled: set<P.Protocol>)
    requires s.readyState == C.OPEN && FrameOk(f)
    ensures var r := C.Perform(s, H.FrameCalls(f), enabled);
            !r.thrown && Writes(s, r.state, Canon(f))
  {
    var text := FrameText(f, Size(f));
    MarshalOk(f);
    O.FramePerforms(s, f, enabled);
    E.ChunksCover(text + [NUL], 16 * 1024);
    var chunks := E.Chunks(text + [NUL], 16 * 1024);
    assert (s.sent + chunks)[|s.sent|..] == chunks;
    FrameReads(f);
    NoNulInText(f, Size(f));
    UnmarshalOne(text);
  }

  /** The header map of a frame is that of a headers object. */
  ghost predicate ReadsAs(read: map<Str, Str>, headers: seq<Header>) {
    forall name :: Lookup(headers, name) == if name in read then Some(read[name]) else None
  }

  lemma WithoutBody(command: Str, headers: seq<Header>)
    requires CommandOk(command) && HeadersOk(headers, [])
    ensures var f := OutFrame(command, headers, []);
            FrameOk(f) && Canon(f).command == command && Canon(f).body == [] && ReadsAs(Canon(f).headers, headers)
  {
    assert forall i :: 0 <= i < |headers| ==> headers[i] in headers;
    assert headers + [] == headers;
    forall name ensures Lookup(headers, name)
                        == var read := FirstValues(headers); if name in read then Some(read[name]) else None
    {
      FirstValuesLookup(headers, name);
    }
  }

  /** `subscribe` writes one SUBSCRIBE frame: the caller's headers, with the destination, and
      with the id under which the callback is registered: the caller's own, or a new one. */
  lemma SubscribeWrites(c: ClientState, s: C.State, destination: Str, callback: Option<Callback>, headers: seq<Header>,
                        enabled: set<P.Protocol>, t: C.State)
    requires s.readyState == C.OPEN && HeadersOk(headers, []) && ValueOk(destination)
    requires t == C.Perform(s, H.OpCalls(c, Subscribe(destination, callback, headers)), enabled).state
    ensures exists frame :: Writes(s, t, frame) && SubscribeRead(c, destination, callback, headers, frame)
  {
    var sent := SubscribeHeaders(c, destination, headers);
    SubscribeHeadersOk(c, destination, headers);
    FrameIsWritten(s, OutFrame(Ascii("SUBSCRIBE"), sent, []), enabled);
    WithoutBody(Ascii("SUBSCRIBE"), sent);
    SubscribeLooksUp(c, destination, headers);
    var frame := Canon(OutFrame(Ascii("SUBSCRIBE"), sent, []));
    assert SubscribeRead(c, destination, callback, headers, frame);
  }

  /** The id a subscription goes by. */
  function OwnId(c: ClientState, headers: seq<Header>): Str {
    match Lookup(headers, Ascii("id"))
    case Some(id) => if id == [] then Ascii("sub-") + Decimal(c.counter) else id
    case None => Ascii("sub-") + Decimal(c.counter)
  }

  ghost predicate SubscribeRead(c: ClientState, destination: Str, callback: Option<Callback>, headers: seq<Header>,
                                frame: Frame) {
    var id := OwnId(c, headers);
    var registered := Step(c, Subscribe(destination, callback, headers)).subscriptions;
    && frame.command == Ascii("SUBSCRIBE") && frame.body == []
    && id in registered && registered[id] == callback
    && forall name :: (if name in frame.headers then Some(frame.headers[name]) else None)
                   == (if name == Ascii("destination") then Some(destination)
                       else if name == Ascii("id") then Some(id)
                       else Lookup(headers, name))
  }

  lemma SubscribeHeadersOk(c: ClientState, destination: Str, headers: seq<Header>)
    requires HeadersOk(headers, []) && ValueOk(destination)
    ensures HeadersOk(SubscribeHeaders(c, destination, headers), []) && CommandOk(Ascii("SUBSCRIBE"))
  {
    var named := if SuppliedId(headers) == [] then Put(headers, ID, SubscriptionId(c, headers)) else headers;
    if SuppliedId(headers) == [] {
      PrefixesOk();
      NumberedOk(SUB, c.counter);
      NamedOk(ID, SUB + Decimal(c.counter));
      PutOk(headers, ID, SUB + Decimal(c.counter), []);
    }
    NamedOk(DESTINATION, destination);
    PutOk(named, DESTINATION, destination, []);
  }

  lemma SubscribeLooksUp(c: ClientState, destination: Str, headers: seq<Header>)
    ensures forall name :: Lookup(SubscribeHeaders(c, destination, headers), name)
                        == (if name == Ascii("destination") then Some(destination)
                            else if name == Ascii("id") then Some(OwnId(c, headers))
                            else Lookup(headers, name))
  {
    assert |ID| != |DESTINATION|;
    var id := SubscriptionId(c, headers);
    var named := if SuppliedId(headers) == [] then Put(headers, ID, id) else headers;
    forall name ensures Lookup(SubscribeHeaders(c, destination, headers), name)
                     == (if name == Ascii("destination") then Some(destination)
                         else if name == Ascii("id") then Some(OwnId(c, headers))
                         else Lookup(headers, name))
    {
      LookupPut(named, DESTINATION, destination, name);
      LookupPut(headers, ID, id, name);
    }
  }

  /** `unsubscribe` writes one UNSUBSCRIBE frame with the id. */
  lemma UnsubscribeWrites(c: ClientState, s: C.State, id: Str, enabled: set<P.Protocol>, t: C.State)
    requires s.readyState == C.OPEN && ValueOk(id)
    requires t == C.Perform(s, H.OpCalls(c, Unsubscribe(id)), enabled).state
    ensures Writes(s, t, Frame(Ascii("UNSUBSCRIBE"), map[Ascii("id") := id], []))
  {
    NamedOk(ID, id);
    OneHeader(s, Ascii("UNSUBSCRIBE"), ID, id, enabled);
  }

  /** `begin` writes one BEGIN frame with the name of the transaction: the given one, or a new
      one. */
  lemma BeginWrites(c: ClientState, s: C.State, transaction: Str, enabled: set<P.Protocol>, t: C.State)
    requires s.readyState == C.OPEN && ValueOk(transaction)
    requires t == C.Perform(s, H.OpCalls(c, Begin(transaction)), enabled).state
    ensures var name := if transaction == [] then Ascii("tx-") + Decimal(c.counter) else transaction;
            Writes(s, t, Frame(Ascii("BEGIN"), map[Ascii("transaction") := name], []))
  {
    TransactionOk(c, transaction);
    OneHeader(s, Ascii("BEGIN"), TRANSACTION, TransactionId(c, transaction), enabled);
  }

  lemma TransactionOk(c: ClientState, transaction: Str)
    requires ValueOk(transaction)
    ensures HeaderOk(Header(TRANSACTION, TransactionId(c, transaction))) && TRANSACTION != CONTENT_LENGTH
  {
    PrefixesOk();
    NumberedOk(TX, c.counter);
    NamedOk(TRANSACTION, TransactionId(c, transaction));
  }

  lemma OneHeader(s: C.State, command: Str, name: Str, value: Str, enabled: set<P.Protocol>)
    requires s.readyState == C.OPEN && CommandOk(command) && HeaderOk(Header(name, value)) && name != CONTENT_LENGTH
    ensures Writes(s, C.Perform(s, H.FrameCalls(OutFrame(command, [Header(name, value)], [])), enabled).state,
                   Frame(command, map[name := value], []))
  {
    var headers := [Header(name, value)];
    FrameIsWritten(s, OutFrame(command, headers, []), enabled);
    assert headers + [] == headers && headers[1..] == [];
    assert FirstValues(headers) == map[][name := value];
  }

  /** `send` writes one SEND frame: the caller's headers with the destination, the octet count
      of a body that is not empty unless the caller has given a content-length, and the body. */
  lemma SendWrites(c: ClientState, s: C.State, destination: Str, headers: seq<Header>, body: Str,
                   enabled: set<P.Protocol>, t: C.State)
    requires s.readyState == C.OPEN && HeadersOk(headers, body) && ValueOk(destination)
    requires WellFormed(body) && NUL !in body
    requires t == C.Perform(s, H.OpCalls(c, Send(destination, headers, body)), enabled).state
    ensures exists frame :: Writes(s, t, frame) && SendRead(destination, headers, body, frame)
  {
    var f := OutFrame(Ascii("SEND"), Put(headers, DESTINATION, destination), body);
    SendOk(destination, headers, body);
    FrameIsWritten(s, f, enabled);
    SendLooksUp(destination, headers, body);
  }

  lemma SendOk(destination: Str, headers: seq<Header>, body: Str)
    requires HeadersOk(headers, body) && ValueOk(destination) && WellFormed(body) && NUL !in body
    ensures var sent := Put(headers, DESTINATION, destination);
            (forall h <- sent :: h.name != PROTO) && FrameOk(OutFrame(Ascii("SEND"), sent, body))
  {
    NamedOk(DESTINATION, destination);
    PutOk(headers, DESTINATION, destination, body);
    MakesFrame(Ascii("SEND"), Put(headers, DESTINATION, destination), body);
  }

  lemma MakesFrame(command: Str, headers: seq<Header>, body: Str)
    requires CommandOk(command) && HeadersOk(headers, body) && WellFormed(body) && NUL !in body
    ensures (forall h <- headers :: h.name != PROTO) && FrameOk(OutFrame(command, headers, body))
  {
    assert forall i :: 0 <= i < |headers| ==> headers[i] in headers;
  }

  ghost predicate SendRead(destination: Str, headers: seq<Header>, body: Str, frame: Frame)
    requires WellFormed(body)
  {
    && frame.command == Ascii("SEND") && frame.body == body
    && forall name :: (if name in frame.headers then Some(frame.headers[name]) else None)
                   == (if name == Ascii("destination") then Some(destination)
                       else if Lookup(headers, name).Some? then Lookup(headers, name)
                       else if name == Ascii("content-length") && body != [] then Some(Decimal(|Encode(body)|))
                       else None)
  }

  lemma SendLooksUp(destination: Str, headers: seq<Header>, body: Str)
    requires HeadersOk(headers, body) && ValueOk(destination) && WellFormed(body) && NUL !in body
    ensures var f := OutFrame(Ascii("SEND"), Put(headers, DESTINATION, destination), body);
            SendRead(destination, headers, body, Canon(f))
  {
    SendOk(destination, headers, body);
    forall name {
      SendLooksUpOne(destination, headers, body, name);
    }
  }

  lemma SendLooksUpOne(destination: Str, headers: seq<Header>, body: Str, name: Str)
    requires WellFormed(body) && forall h <- Put(headers, DESTINATION, destination) :: h.name != PROTO
    ensures var read := Canon(OutFrame(Ascii("SEND"), Put(headers, DESTINATION, destination), body)).headers;
            (if name in read then Some(read[name]) else None)
            == (if name == Ascii("destination") then Some(destination)
                else if Lookup(headers, name).Some? then Lookup(headers, name)
                else if name == Ascii("content-length") && body != [] then Some(Decimal(|Encode(body)|))
                else None)
  {
    var sent := Put(headers, DESTINATION, destination);
    var f := OutFrame(Ascii("SEND"), sent, body);
    assert |CONTENT_LENGTH| != |PROTO| && CONTENT_LENGTH == Ascii("content-length");
    FirstValuesLookup(SentHeaders(f, Size(f)), name);
    LookupPut(headers, DESTINATION, destination, name);
    LookupSnoc(sent, CONTENT_LENGTH, Decimal(Size(f)), name);
    assert sent + [] == sent;
  }

  lemma {:induction false} LookupSnoc(headers: seq<Header>, name: Str, value: Str, other: Str)
    ensures Lookup(headers + [Header(name, value)], other)
            == if Lookup(headers, other).Some? then Lookup(headers, other)
               else if other == name then Some(value) else None
    decreases |headers|
  {
    if headers == [] {
      assert headers + [Header(name, value)] == [Header(name, value)];
    } else {
      LookupSnoc(headers[1..], name, value, other);
      assert (headers + [Header(name, value)])[1..] == headers[1..] + [Header(name, value)];
    }
  }

  /** `disconnect` writes one DISCONNECT frame, and then closes the connection with code 1000. */
  lemma DisconnectWrites(c: ClientState, s: C.State, enabled: set<P.Protocol>, t: C.State)
    requires Safety.Inv(s) && s.readyState == C.OPEN
    requires t == C.Perform(s, H.OpCalls(c, Disconnect), enabled).state
    ensures s.sent <= t.sent && Unmarshal(Given(s, t)) == [Frame(Ascii("DISCONNECT"), map[], [])]
    ensures t.readyState == C.CLOSED && t.delayed == [C.CloseEvent(Some(1000), true, false)]
  {
    var written := C.Perform(s, H.FrameCalls(DISCONNECT), enabled).state;
    DisconnectIsWritten(s, enabled, written);
    Safety.PerformConcat(s, H.FrameCalls(DISCONNECT), [C.CallClose(0)], enabled);
    O.OneCall(written, C.CallClose(0), enabled);
    Events.CloseMeans(written, 0, enabled);
  }

  lemma DisconnectIsWritten(s: C.State, enabled: set<P.Protocol>, t: C.State)
    requires Safety.Inv(s) && s.readyState == C.OPEN
    requires t == C.Perform(s, H.FrameCalls(DISCONNECT), enabled).state
    ensures Writes(s, t, Frame(Ascii("DISCONNECT"), map[], [])) && Safety.Inv(t)
    ensures !C.Perform(s, H.FrameCalls(DISCONNECT), enabled).thrown
  {
    DisconnectOk();
    FrameIsWritten(s, DISCONNECT, enabled);
  }

  lemma DisconnectOk()
    ensures FrameOk(DISCONNECT) && Canon(DISCONNECT) == Frame(Ascii("DISCONNECT"), map[], [])
  {
    var none: seq<Header> := [];
    assert none + none == none && FirstValues(none) == map[];
    MakesFrame(Ascii("DISCONNECT"), none, []);
  }

  // The first frame

  /** When the connection opens, the client writes CONNECT, with the versions it speaks and the
      heart-beats it offers and wants. */
  lemma OpenConnects(user: H.User, s: C.State, enabled: set<P.Protocol>)
    requires Safety.Inv(s) && s.readyState == C.CONNECTING && s.transport.Some?
    ensures var t := C.DidMessage(s, C.OpenFrame, H.HandlerOf(user), enabled).state;
            && t.readyState == C.OPEN && t.log == [C.OpenEvent]
            && Unmarshal(Flatten(t.sent)) == [Frame(Ascii("CONNECT"), ConnectHeaders(), [])]
  {
    var ready := s.(timer := None, readyState := C.OPEN, log := [C.OpenEvent]);
    assert s.log + [C.OpenEvent] == [C.OpenEvent];
    ConnectOk();
    FrameIsWritten(ready, H.CONNECT, enabled);
    var t := C.DidMessage(s, C.OpenFrame, H.HandlerOf(user), enabled).state;
    assert t == C.Perform(ready, H.FrameCalls(H.CONNECT), enabled).state;
    assert t.sent[|ready.sent|..] == t.sent;
  }

  function ConnectHeaders(): map<Str, Str> {
    map[Ascii("accept-version") := Ascii("1.1,1.0"), Ascii("heart-beat") := Ascii("10000,10000")]
  }

  lemma ConnectOk()
    ensures FrameOk(H.CONNECT) && Canon(H.CONNECT) == Frame(Ascii("CONNECT"), ConnectHeaders(), [])
  {
    var hs := H.CONNECT.headers;
    assert hs == [hs[0], hs[1]] && hs[1..] == [hs[1]] && [hs[1]][1..] == [] && hs + [] == hs;
    ConnectHeadersOk(hs[0], hs[1]);
    assert FirstValues([hs[1]]) == map[][hs[1].name := hs[1].value];
    assert FirstValues(hs) == FirstValues([hs[1]])[hs[0].name := hs[0].value];
  }

  lemma ConnectHeadersOk(version: Header, beat: Header)
    requires version == Header(Ascii("accept-version"), Ascii("1.1,1.0"))
    requires beat == Header(Ascii("heart-beat"), Ascii("10000,10000"))
    ensures HeaderOk(version) && HeaderOk(beat)
    ensures version.name != CONTENT_LENGTH && beat.name != CONTENT_LENGTH
  {
    TrimKeeps(version.name);
    TrimKeeps(version.value);
    TrimKeeps(beat.name);
    TrimKeeps(beat.value);
    assert |version.name| == 14 && |beat.name| == 10 && |CONTENT_LENGTH| == 14 && |PROTO| == 9;
    assert version.name[0] == 'a' as int && CONTENT_LENGTH[0] == 'c' as int;
  }
}
