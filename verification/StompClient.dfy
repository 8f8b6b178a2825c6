/** The STOMP client: its numbering of subscriptions and transactions, the map from
    subscription ids to callbacks, and the dispatch of what the server sends. */
module StompClient {
  import opened Text
  import opened StompFrame
  import opened Utf8
  import C = Connection

  /** A function passed to `subscribe`. */
  type Callback = nat

  const SUB: Str := Ascii("sub-")
  const TX: Str := Ascii("tx-")
  const ID: Str := Ascii("id")
  const DESTINATION: Str := Ascii("destination")
  const SUBSCRIPTION: Str := Ascii("subscription")
  const TRANSACTION: Str := Ascii("transaction")
  const UNDEFINED: Str := Ascii("undefined")

  // Header objects: ordered, with unique names

  function Lookup(headers: seq<Header>, name: Str): Option<Str> {
    if headers == [] then None
    else if headers[0].name == name then Some(headers[0].value)
    else Lookup(headers[1..], name)
  }

  /** An assignment to a property keeps its place, or adds it at the end. */
  function Put(headers: seq<Header>, name: Str, value: Str): seq<Header> {
    if headers == [] then [Header(name, value)]
    else if headers[0].name == name then [Header(name, value)] + headers[1..]
    else [headers[0]] + Put(headers[1..], name, value)
  }

  lemma {:induction false} LookupPut(headers: seq<Header>, name: Str, value: Str, other: Str)
    ensures Lookup(Put(headers, name, value), other) == if other == name then Some(value) else Lookup(headers, other)
  {
    if headers != [] && headers[0].name != name {
      LookupPut(headers[1..], name, value, other);
      assert ([headers[0]] + Put(headers[1..], name, value))[1..] == Put(headers[1..], name, value);
    }
  }

  // State

  /** A callback that is not a function is None: it is stored, but is false in `||`. */
  datatype ClientState = ClientState(counter: nat, connected: bool, subscriptions: map<Str, Option<Callback>>)

  function New(): ClientState {
    ClientState(0, false, map[])
  }

  /** What happens to a client. A transaction without a name is the empty string. */
  datatype Op =
    | Subscribe(destination: Str, callback: Option<Callback>, headers: seq<Header>)
    | Unsubscribe(id: Str)
    | Begin(transaction: Str)
    | Send(destination: Str, headers: seq<Header>, body: Str)
    | Disconnect
    | Direct(call: C.Call)
    | Receive(frame: Frame)

  /** What a callback may do: call the client, or the socket under it, or throw an exception
      of its own. */
  type Request = op: Op | !op.Receive? witness Disconnect

  const DISCONNECT: OutFrame := OutFrame(Ascii("DISCONNECT"), [], [])

  /** The id the caller supplies; an empty one is none. */
  function SuppliedId(headers: seq<Header>): Str {
    match Lookup(headers, ID)
    case None => []
    case Some(id) => id
  }

  function SubscriptionId(c: ClientState, headers: seq<Header>): Str {
    if SuppliedId(headers) == [] then SUB + Decimal(c.counter) else SuppliedId(headers)
  }

  function TransactionId(c: ClientState, transaction: Str): Str {
    if transaction == [] then TX + Decimal(c.counter) else transaction
  }

  /** The caller's headers object after `subscribe`, which writes into it. */
  function SubscribeHeaders(c: ClientState, destination: Str, headers: seq<Header>): seq<Header> {
    var named := if SuppliedId(headers) == [] then Put(headers, ID, SubscriptionId(c, headers)) else headers;
    Put(named, DESTINATION, destination)
  }

  /** The frame an operation transmits. */
  function Transmitted(c: ClientState, op: Op): OutFrame
    requires !op.Receive? && !op.Direct?
  {
    match op
    case Subscribe(destination, _, headers) =>
      OutFrame(Ascii("SUBSCRIBE"), SubscribeHeaders(c, destination, headers), [])
    case Unsubscribe(id) => OutFrame(Ascii("UNSUBSCRIBE"), [Header(ID, id)], [])
    case Begin(transaction) => OutFrame(Ascii("BEGIN"), [Header(TRANSACTION, TransactionId(c, transaction))], [])
    case Send(destination, headers, body) => OutFrame(Ascii("SEND"), Put(headers, DESTINATION, destination), body)
    case Disconnect => DISCONNECT
  }

  /** State changes come before the transmission, so one that throws does not undo them. */
  function Step(c: ClientState, op: Op): ClientState {
    match op
    case Subscribe(_, callback, headers) =>
      var id := SubscriptionId(c, headers);
      c.(counter := if SuppliedId(headers) == [] then c.counter + 1 else c.counter,
         subscriptions := c.subscriptions[id := callback])
    case Unsubscribe(id) => c.(subscriptions := c.subscriptions - {id})
    case Begin(transaction) => if transaction == [] then c.(counter := c.counter + 1) else c
    case Send(_, _, _) => c
    case Disconnect => c.(connected := false)
    case Direct(_) => c
    case Receive(frame) => if frame.command == Ascii("CONNECTED") then c.(connected := true) else c
  }

  function Run(c: ClientState, ops: seq<Op>): ClientState {
    if ops == [] then c else Step(Run(c, ops[..|ops| - 1]), ops[|ops| - 1])
  }

  /** The client before operation `k`. */
  function At(ops: seq<Op>, k: nat): ClientState
    requires k <= |ops|
  {
    Run(New(), ops[..k])
  }

  lemma AtNext(ops: seq<Op>, k: nat)
    requires k < |ops|
    ensures At(ops, k + 1) == Step(At(ops, k), ops[k])
  {
    assert ops[..k + 1][..k] == ops[..k];
  }

  // Generated names

  /** The name an operation makes up. */
  function Issued(c: ClientState, op: Op): Option<Str> {
    if op.Subscribe? && SuppliedId(op.headers) == [] then Some(SUB + Decimal(c.counter))
    else if op.Begin? && op.transaction == [] then Some(TX + Decimal(c.counter))
    else None
  }

  lemma NumberedNamesDiffer(p: Str, m: nat, q: Str, n: nat)
    requires p in {SUB, TX} && q in {SUB, TX} && m != n
    ensures p + Decimal(m) != q + Decimal(n)
  {
    if p + Decimal(m) == q + Decimal(n) {
      assert (p + Decimal(m))[0] == p[0] && (q + Decimal(n))[0] == q[0];
      assert SUB[0] == 's' as int && TX[0] == 't' as int;
      assert p == q;
      assert (p + Decimal(m))[|p|..] == Decimal(m) && (p + Decimal(n))[|p|..] == Decimal(n);
      NumeralInjective(m, n, 10);
    }
  }

  lemma {:induction false} CounterGrows(ops: seq<Op>, j: nat, k: nat)
    requires j <= k <= |ops|
    ensures At(ops, j).counter <= At(ops, k).counter
    ensures j < k && Issued(At(ops, j), ops[j]).Some? ==> At(ops, j).counter < At(ops, k).counter
    decreases k
  {
    if j < k {
      CounterGrows(ops, j, k - 1);
      AtNext(ops, k - 1);
    }
  }

  /** Over every run, no name is made up twice: subscriptions and transactions share one
      counter. */
  lemma IssuedNamesNeverRepeat(ops: seq<Op>, j: nat, k: nat)
    requires j < k < |ops|
    requires Issued(At(ops, j), ops[j]).Some? && Issued(At(ops, k), ops[k]).Some?
    ensures Issued(At(ops, j), ops[j]) != Issued(At(ops, k), ops[k])
  {
    CounterGrows(ops, j, k);
    NumberedNamesDiffer(if ops[j].Subscribe? then SUB else TX, At(ops, j).counter,
                        if ops[k].Subscribe? then SUB else TX, At(ops, k).counter);
  }

  // Who gets a MESSAGE

  /** The callback a frame is handed to. */
  datatype Target =
    | ConnectCallback
    | SubscriptionCallback(callback: Callback)
    | OnReceive
    | OnReceipt
    | ErrorCallback
    | Nobody

  /** The key looked up: a frame without the header asks for the property "undefined". */
  function SubscriptionOf(frame: Frame): Str {
    if SUBSCRIPTION in frame.headers then frame.headers[SUBSCRIPTION] else UNDEFINED
  }

  /** `onreceive` says whether the user set a callback for messages without one. */
  function TargetOf(c: ClientState, frame: Frame, onreceive: bool): Target {
    if frame.command == Ascii("CONNECTED") then ConnectCallback
    else if frame.command == Ascii("MESSAGE") then
      var id := SubscriptionOf(frame);
      if id in c.subscriptions && c.subscriptions[id].Some? then SubscriptionCallback(c.subscriptions[id].value)
      else if onreceive then OnReceive
      else Nobody
    else if frame.command == Ascii("RECEIPT") then OnReceipt
    else if frame.command == Ascii("ERROR") then ErrorCallback
    else Nobody
  }

  predicate SubscribesAs(ops: seq<Op>, j: int, id: Str) {
    0 <= j < |ops| && ops[j].Subscribe? && SubscriptionId(At(ops, j), ops[j].headers) == id
  }

  predicate Unsubscribes(ops: seq<Op>, k: int, id: Str) {
    0 <= k < |ops| && ops[k] == Unsubscribe(id)
  }

  /** Operation `j` is the last before `n` that subscribes under the id, and none after it
      unsubscribes it. */
  ghost predicate LastUnder(ops: seq<Op>, n: nat, id: Str, j: int) {
    && j < n && SubscribesAs(ops, j, id)
    && forall k :: j < k < n ==> !SubscribesAs(ops, k, id) && !Unsubscribes(ops, k, id)
  }

  lemma {:induction false} RegisteredIsLast(ops: seq<Op>, n: nat, id: Str)
    requires n <= |ops|
    ensures var subs := At(ops, n).subscriptions;
            && (id in subs <==> exists j :: LastUnder(ops, n, id, j))
            && (forall j :: LastUnder(ops, n, id, j) ==> id in subs && subs[id] == ops[j].callback)
    decreases n
  {
    if n > 0 {
      var m := n - 1;
      AtNext(ops, m);
      RegisteredIsLast(ops, m, id);
      if SubscribesAs(ops, m, id) {
        NowLast(ops, n, id);
        assert LastUnder(ops, n, id, m);
      } else if Unsubscribes(ops, m, id) {
        assert forall j :: !LastUnder(ops, n, id, j);
      } else {
        StillLast(ops, n, id);
        if j :| LastUnder(ops, m, id, j) {
          assert LastUnder(ops, n, id, j);
        }
        if j :| LastUnder(ops, n, id, j) {
          assert LastUnder(ops, m, id, j);
        }
      }
    }
  }

  lemma NowLast(ops: seq<Op>, n: nat, id: Str)
    requires 0 < n <= |ops| && SubscribesAs(ops, n - 1, id)
    ensures forall j :: LastUnder(ops, n, id, j) <==> j == n - 1
    ensures id in At(ops, n).subscriptions && At(ops, n).subscriptions[id] == ops[n - 1].callback
  {
    AtNext(ops, n - 1);
  }

  lemma StillLast(ops: seq<Op>, n: nat, id: Str)
    requires 0 < n <= |ops| && !SubscribesAs(ops, n - 1, id) && !Unsubscribes(ops, n - 1, id)
    ensures forall j :: LastUnder(ops, n, id, j) <==> LastUnder(ops, n - 1, id, j)
    ensures var before, after := At(ops, n - 1).subscriptions, At(ops, n).subscriptions;
            (id in after <==> id in before) && (id in before ==> after[id] == before[id])
  {
    AtNext(ops, n - 1);
  }

  /** A MESSAGE under the id of its header `subscription`; one without that header is looked up
      as "undefined". */
  predicate IsMessage(frame: Frame, id: Str) {
    && frame.command == Ascii("MESSAGE")
    && if Ascii("subscription") in frame.headers then frame.headers[Ascii("subscription")] == id
       else id == Ascii("undefined")
  }

  /** CONNECTED, RECEIPT and ERROR go to callbacks of their own, a frame with an unknown command
      to nobody. */
  lemma OtherTargets(c: ClientState, frame: Frame, onreceive: bool)
    requires frame.command != Ascii("MESSAGE")
    ensures var target := TargetOf(c, frame, onreceive);
            && (target == ConnectCallback <==> frame.command == Ascii("CONNECTED"))
            && (target == OnReceipt <==> frame.command == Ascii("RECEIPT"))
            && (target == ErrorCallback <==> frame.command == Ascii("ERROR"))
            && (target == Nobody
                <==> frame.command !in {Ascii("CONNECTED"), Ascii("RECEIPT"), Ascii("ERROR")})
  {
    assert Ascii("ERROR")[0] == 'E' as int;
    assert Ascii("CONNECTED")[0] == 'C' as int;
    assert Ascii("RECEIPT")[0] == 'R' as int;
  }

  /** After every run, a MESSAGE goes to the last callback subscribed and not unsubscribed
      since under its id; when there is none, to `onreceive` or to nobody. */
  lemma MessageGoesToLast(ops: seq<Op>, frame: Frame, id: Str, onreceive: bool)
    requires IsMessage(frame, id)
    ensures var target := TargetOf(Run(New(), ops), frame, onreceive);
            && (forall cb: Callback :: target == SubscriptionCallback(cb)
                             <==> exists j :: LastUnder(ops, |ops|, id, j) && ops[j].callback == Some(cb))
            && ((forall j :: LastUnder(ops, |ops|, id, j) ==> ops[j].callback == None)
                <==> target == if onreceive then OnReceive else Nobody)
  {
    assert "CONNECTED"[0] != "MESSAGE"[0];
    assert Ascii("CONNECTED")[0] != Ascii("MESSAGE")[0];
    RegisteredIsLast(ops, |ops|, id);
    assert ops[..|ops|] == ops;
    var subs := Run(New(), ops).subscriptions;
    if id in subs {
      var j :| LastUnder(ops, |ops|, id, j);
      assert subs[id] == ops[j].callback;
      forall i | LastUnder(ops, |ops|, id, i) ensures i == j {
      }
    }
  }

  /** A subscription under a generated id, when no caller supplies that id to another one:
      messages under the id go to its callback exactly until it is unsubscribed. */
  lemma GeneratedIsPrivate(ops: seq<Op>, j: nat, frame: Frame, onreceive: bool)
    requires j < |ops| && ops[j].Subscribe? && Issued(At(ops, j), ops[j]).Some? && ops[j].callback.Some?
    requires forall k :: 0 <= k < |ops| && k != j && ops[k].Subscribe? ==>
               SuppliedId(ops[k].headers) != Issued(At(ops, j), ops[j]).value
    requires IsMessage(frame, Issued(At(ops, j), ops[j]).value)
    ensures var id := Issued(At(ops, j), ops[j]).value;
            TargetOf(Run(New(), ops), frame, onreceive) == SubscriptionCallback(ops[j].callback.value)
            <==> forall k :: j < k < |ops| ==> !Unsubscribes(ops, k, id)
  {
    var id := Issued(At(ops, j), ops[j]).value;
    forall k | 0 <= k < |ops| && k != j ensures !SubscribesAs(ops, k, id) {
      if ops[k].Subscribe? && SuppliedId(ops[k].headers) == [] {
        if k < j {
          IssuedNamesNeverRepeat(ops, k, j);
        } else {
          IssuedNamesNeverRepeat(ops, j, k);
        }
      }
    }
    assert SubscribesAs(ops, j, id);
    MessageGoesToLast(ops, frame, id, onreceive);
    var target := TargetOf(Run(New(), ops), frame, onreceive);
    var cb := ops[j].callback.value;
    if forall k :: j < k < |ops| ==> !Unsubscribes(ops, k, id) {
      assert LastUnder(ops, |ops|, id, j);
    }
    if target == SubscriptionCallback(cb) {
      var i :| LastUnder(ops, |ops|, id, i) && ops[i].callback == Some(cb);
      assert i == j;
    }
  }

  predicate StartsWith(s: Str, prefix: Str) {
    prefix <= s
  }

  /** It is enough that callers never supply an id that starts with "sub-". */
  lemma GeneratedIsPrivateByPrefix(ops: seq<Op>, j: nat, frame: Frame, onreceive: bool)
    requires j < |ops| && ops[j].Subscribe? && Issued(At(ops, j), ops[j]).Some? && ops[j].callback.Some?
    requires forall k :: 0 <= k < |ops| && ops[k].Subscribe? ==> !StartsWith(SuppliedId(ops[k].headers), SUB)
    requires IsMessage(frame, Issued(At(ops, j), ops[j]).value)
    ensures TargetOf(Run(New(), ops), frame, onreceive) == SubscriptionCallback(ops[j].callback.value)
            <==> forall k :: j < k < |ops| ==> !Unsubscribes(ops, k, Issued(At(ops, j), ops[j]).value)
  {
    assert StartsWith(SUB + Decimal(At(ops, j).counter), SUB);
    GeneratedIsPrivate(ops, j, frame, onreceive);
  }

  /** An id of the caller's own that looks generated is taken over by the subscription that
      generates it. */
  lemma SuppliedIdCollides(destination: Str, first: Callback, second: Callback, frame: Frame)
    requires IsMessage(frame, Ascii("sub-0")) && first != second
    ensures var ops := [Subscribe(destination, Some(first), [Header(Ascii("id"), Ascii("sub-0"))]),
                        Subscribe(destination, Some(second), [])];
            TargetOf(Run(New(), ops), frame, false) == SubscriptionCallback(second)
  {
    assert SUB + Decimal(0) == Ascii("sub-0");
    var ops := [Subscribe(destination, Some(first), [Header(ID, SUB + Decimal(0))]),
                Subscribe(destination, Some(second), [])];
    AtNext(ops, 0);
    AtNext(ops, 1);
    assert ops[..2] == ops && At(ops, 0) == New() && At(ops, 1).counter == 0;
    assert Ascii("CONNECTED")[0] != Ascii("MESSAGE")[0];
  }

  /** `subscribe` writes the id into the caller's headers object. A second call with the same
      object therefore subscribes under the same id, and the first callback is gone. */
  lemma ReusedHeadersReplace(c: ClientState, first: Str, second: Str, one: Callback, other: Callback,
                             headers: seq<Header>)
    ensures var again := SubscribeHeaders(c, first, headers);
            var d := Step(Step(c, Subscribe(first, Some(one), headers)), Subscribe(second, Some(other), again));
            var id := SubscriptionId(c, headers);
            && d.subscriptions == c.subscriptions[id := Some(other)]
            && d.counter == Step(c, Subscribe(first, Some(one), headers)).counter
  {
    var id := SubscriptionId(c, headers);
    var named := if SuppliedId(headers) == [] then Put(headers, ID, id) else headers;
    LookupPut(headers, ID, id, ID);
    LookupPut(named, DESTINATION, first, ID);
    assert |ID| != |DESTINATION|;
    assert |SUB| > 0;
    assert SuppliedId(SubscribeHeaders(c, first, headers)) == id;
  }

  predicate Connects(ops: seq<Op>, j: int) {
    0 <= j < |ops| && ops[j].Receive? && ops[j].frame.command == Ascii("CONNECTED")
  }

  /** The client is connected if and only if it was told so, and has not disconnected since. */
  lemma {:induction false} ConnectedIff(ops: seq<Op>)
    ensures Run(New(), ops).connected
            <==> exists j :: Connects(ops, j) && forall k :: j < k < |ops| ==> !ops[k].Disconnect?
    decreases |ops|
  {
    if ops != [] {
      var n := |ops| - 1;
      ConnectedIff(ops[..n]);
      assert forall j :: j < n ==> (Connects(ops, j) <==> Connects(ops[..n], j));
      if Connects(ops, n) {
      } else if ops[n].Disconnect? {
        assert forall j :: Connects(ops, j) ==> j < n;
      } else {
        if j :| Connects(ops[..n], j) && forall k :: j < k < n ==> !ops[..n][k].Disconnect? {
          assert forall k :: j < k < n ==> ops[k] == ops[..n][k];
          assert Connects(ops, j);
        }
        if j :| Connects(ops, j) && forall k :: j < k < |ops| ==> !ops[k].Disconnect? {
          assert Connects(ops[..n], j);
        }
      }
    }
  }

  // A frame that arrives

  datatype Delivery = Delivery(to: Target, frame: Frame)

  /** What the user's callbacks do when a frame is handed to them. */
  type Program = Delivery -> seq<Request>

  /** What is done about a delivery; a frame for nobody is only reported. */
  function Answer(program: Program, d: Delivery): seq<Request> {
    if d.to == Nobody then [] else program(d)
  }

  /** On a connection that is past CONNECTING, only a body with a lone surrogate makes a call
      of the client throw. */
  predicate Throws(r: Request) {
    (r.Direct? && C.Throws(r.call)) || (r.Send? && !WellFormed(r.body))
  }

  predicate Interrupted(requests: seq<Request>) {
    exists i :: 0 <= i < |requests| && Throws(requests[i])
  }

  /** The requests up to and including the first that throws. */
  function Ran(requests: seq<Request>): (ran: seq<Request>)
    ensures |ran| <= |requests|
  {
    if requests == [] then []
    else if Throws(requests[0]) then requests[..1]
    else requests[..1] + Ran(requests[1..])
  }

  /** All that happens while the frames of one message are dispatched: each is handed over
      under the subscriptions of that moment, then its callback makes its requests. A callback
      that throws ends the loop; one that disconnects does not. */
  function History(c: ClientState, frames: seq<Frame>, program: Program, onreceive: bool): seq<Op>
    decreases |frames|
  {
    if frames == [] then []
    else
      var one := HistoryOfOne(c, frames[0], program, onreceive);
      if Interrupted(AnswerTo(c, frames[0], program, onreceive)) then one
      else one + History(Run(c, one), frames[1..], program, onreceive)
  }

  function AnswerTo(c: ClientState, frame: Frame, program: Program, onreceive: bool): seq<Request> {
    Answer(program, Delivery(TargetOf(c, frame, onreceive), frame))
  }

  function HistoryOfOne(c: ClientState, frame: Frame, program: Program, onreceive: bool): seq<Op> {
    var requests: seq<Op> := Ran(AnswerTo(c, frame, program, onreceive));
    [Receive(frame)] + requests
  }

  function Deliveries(c: ClientState, ops: seq<Op>, onreceive: bool): seq<Delivery> {
    if ops == [] then []
    else
      var before, last := ops[..|ops| - 1], ops[|ops| - 1];
      Deliveries(c, before, onreceive)
      + if last.Receive? then [Delivery(TargetOf(Run(c, before), last.frame, onreceive), last.frame)] else []
  }

  lemma {:induction false} RunConcat(c: ClientState, a: seq<Op>, b: seq<Op>)
    ensures Run(c, a + b) == Run(Run(c, a), b)
    decreases |b|
  {
    if b == [] {
      assert a + b == a;
    } else {
      var n := |b| - 1;
      assert (a + b)[..|a + b| - 1] == a + b[..n];
      RunConcat(c, a, b[..n]);
    }
  }

  lemma {:induction false} DeliveriesConcat(c: ClientState, a: seq<Op>, b: seq<Op>, onreceive: bool)
    ensures Deliveries(c, a + b, onreceive) == Deliveries(c, a, onreceive) + Deliveries(Run(c, a), b, onreceive)
    decreases |b|
  {
    if b == [] {
      assert a + b == a;
    } else {
      var n := |b| - 1;
      assert (a + b)[..|a + b| - 1] == a + b[..n];
      RunConcat(c, a, b[..n]);
      DeliveriesConcat(c, a, b[..n], onreceive);
    }
  }

  lemma {:induction false} RequestsDeliverNothing(c: ClientState, requests: seq<Request>, onreceive: bool)
    ensures Deliveries(c, requests, onreceive) == []
    decreases |requests|
  {
    if requests != [] {
      RequestsDeliverNothing(c, requests[..|requests| - 1], onreceive);
    }
  }

  /** The frames of a message reach the callbacks once each and in order: all of them if and
      only if no callback throws on a frame before the last, and otherwise those up to and
      including the first that throws. */
  ghost predicate DeliveredUntilThrow(frames: seq<Frame>, program: Program, ds: seq<Delivery>) {
    && |ds| <= |frames|
    && (forall i :: 0 <= i < |ds| ==> ds[i].frame == frames[i])
    && (forall i :: 0 <= i < |ds| - 1 ==> !Interrupted(Answer(program, ds[i])))
    && (|ds| < |frames| ==> ds != [] && Interrupted(Answer(program, ds[|ds| - 1])))
  }

  lemma {:induction false} HistoryDelivers(c: ClientState, frames: seq<Frame>, program: Program, onreceive: bool)
    ensures DeliveredUntilThrow(frames, program, Deliveries(c, History(c, frames, program, onreceive), onreceive))
    decreases |frames|
  {
    if frames != [] {
      var one := HistoryOfOne(c, frames[0], program, onreceive);
      OneDelivers(c, frames[0], program, onreceive);
      var d := Delivery(TargetOf(c, frames[0], onreceive), frames[0]);
      if !Interrupted(AnswerTo(c, frames[0], program, onreceive)) {
        var rest := History(Run(c, one), frames[1..], program, onreceive);
        DeliveriesConcat(c, one, rest, onreceive);
        HistoryDelivers(Run(c, one), frames[1..], program, onreceive);
        DeliveredFirst(frames, program, d, Deliveries(Run(c, one), rest, onreceive));
      }
    }
  }

  lemma DeliveredFirst(frames: seq<Frame>, program: Program, d: Delivery, ds: seq<Delivery>)
    requires frames != [] && d.frame == frames[0] && !Interrupted(Answer(program, d))
    requires DeliveredUntilThrow(frames[1..], program, ds)
    ensures DeliveredUntilThrow(frames, program, [d] + ds)
  {
    var all := [d] + ds;
    assert forall i :: 1 <= i < |all| ==> all[i] == ds[i - 1] && all[i].frame == frames[1..][i - 1];
  }

  lemma OneDelivers(c: ClientState, frame: Frame, program: Program, onreceive: bool)
    ensures Deliveries(c, HistoryOfOne(c, frame, program, onreceive), onreceive)
            == [Delivery(TargetOf(c, frame, onreceive), frame)]
  {
    var requests := Ran(AnswerTo(c, frame, program, onreceive));
    DeliveriesConcat(c, [Receive(frame)], requests, onreceive);
    RequestsDeliverNothing(Run(c, [Receive(frame)]), requests, onreceive);
    DeliveryOfReceive(c, frame, onreceive);
  }

  lemma DeliveryOfReceive(c: ClientState, frame: Frame, onreceive: bool)
    ensures Deliveries(c, [Receive(frame)], onreceive) == [Delivery(TargetOf(c, frame, onreceive), frame)]
    ensures Run(c, [Receive(frame)]) == Step(c, Receive(frame))
  {
    var one := [Receive(frame)];
    assert one[..0] == [] && Run(c, one[..0]) == c;
  }
}
