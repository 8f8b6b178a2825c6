/** Which transports a SockJS connection may try, in which order, and for how long. */
module Protocols {

  datatype Protocol =
    | WebSocket
    | XdrStreaming
    | XhrStreaming
    | IframeEventSource
    | IframeHtmlFile
    | XdrPolling
    | XhrPolling
    | IframeXhrPolling
    | JsonpPolling

  /** The answer of the server's info request: `websocket !== false` and `cookie_needed`. */
  datatype Info = Info(websocket: bool, cookieNeeded: bool)

  /** `maybe_push`: the first of `protos` that is usable. */
  function MaybePush(usable: set<Protocol>, protos: seq<Protocol>): seq<Protocol> {
    if protos == [] then []
    else if protos[0] in usable then [protos[0]]
    else MaybePush(usable, protos[1..])
  }

  function Streaming(usable: set<Protocol>, info: Info, nullOrigin: bool): seq<Protocol> {
    if XhrStreaming in usable && !nullOrigin then [XhrStreaming]
    else if XdrStreaming in usable && !info.cookieNeeded && !nullOrigin then [XdrStreaming]
    else MaybePush(usable, [IframeEventSource, IframeHtmlFile])
  }

  function Polling(usable: set<Protocol>, info: Info, nullOrigin: bool): seq<Protocol> {
    if XhrPolling in usable && !nullOrigin then [XhrPolling]
    else if XdrPolling in usable && !info.cookieNeeded && !nullOrigin then [XdrPolling]
    else MaybePush(usable, [IframeXhrPolling, JsonpPolling])
  }

  /** `detectProtocols`: `probed` are the transports the browser has, `whitelist` the ones
      the caller admits. */
  function Detect(probed: set<Protocol>, whitelist: set<Protocol>, info: Info, nullOrigin: bool): seq<Protocol> {
    var usable := probed * whitelist;
    (if info.websocket then MaybePush(usable, [WebSocket]) else [])
    + Streaming(usable, info, nullOrigin)
    + Polling(usable, info, nullOrigin)
  }

  /** Websocket before streaming before polling. */
  function Rank(p: Protocol): nat {
    match p
    case WebSocket => 0
    case XdrStreaming | XhrStreaming | IframeEventSource | IframeHtmlFile => 1
    case XdrPolling | XhrPolling | IframeXhrPolling | JsonpPolling => 2
  }

  ghost predicate Ascending(ps: seq<Protocol>) {
    forall i, j :: 0 <= i < j < |ps| ==> Rank(ps[i]) < Rank(ps[j])
  }

  /** At most one transport of each kind is detected, kinds in order, and only ones the
      browser has and the caller admits. */
  lemma DetectAscends(probed: set<Protocol>, whitelist: set<Protocol>, info: Info, nullOrigin: bool)
    ensures var ps := Detect(probed, whitelist, info, nullOrigin);
            Ascending(ps) && forall i :: 0 <= i < |ps| ==> ps[i] in probed * whitelist
  {
    var usable := probed * whitelist;
    StreamingIff(usable, info, nullOrigin);
    PollingIff(usable, info, nullOrigin);
    assert MaybePush(usable, [WebSocket]) == if WebSocket in usable then [WebSocket] else [];
  }

  /** The streaming transport detected: the first usable one in the order of the program, under
      its conditions on the server's answer and the page's origin. */
  lemma StreamingIff(usable: set<Protocol>, info: Info, nullOrigin: bool)
    ensures var ps := Streaming(usable, info, nullOrigin);
            && (XhrStreaming in ps <==> XhrStreaming in usable && !nullOrigin)
            && (XdrStreaming in ps <==>
                  XdrStreaming in usable && !info.cookieNeeded && !nullOrigin && XhrStreaming !in ps)
            && (IframeEventSource in ps <==> IframeEventSource in usable && XhrStreaming !in ps && XdrStreaming !in ps)
            && (IframeHtmlFile in ps <==>
                  IframeHtmlFile in usable && XhrStreaming !in ps && XdrStreaming !in ps && IframeEventSource !in ps)
            && |ps| <= 1 && forall p <- ps :: p in usable && Rank(p) == 1
  {
    PushesOne(usable, IframeEventSource, IframeHtmlFile);
  }

  /** The polling transport detected. */
  lemma PollingIff(usable: set<Protocol>, info: Info, nullOrigin: bool)
    ensures var ps := Polling(usable, info, nullOrigin);
            && (XhrPolling in ps <==> XhrPolling in usable && !nullOrigin)
            && (XdrPolling in ps <==> XdrPolling in usable && !info.cookieNeeded && !nullOrigin && XhrPolling !in ps)
            && (IframeXhrPolling in ps <==> IframeXhrPolling in usable && XhrPolling !in ps && XdrPolling !in ps)
            && (JsonpPolling in ps <==>
                  JsonpPolling in usable && XhrPolling !in ps && XdrPolling !in ps && IframeXhrPolling !in ps)
            && |ps| <= 1 && forall p <- ps :: p in usable && Rank(p) == 2
  {
    PushesOne(usable, IframeXhrPolling, JsonpPolling);
  }

  /** All that is detected: a WebSocket unless the server has none, and one transport of each
      other kind. */
  lemma DetectIff(probed: set<Protocol>, whitelist: set<Protocol>, info: Info, nullOrigin: bool, p: Protocol)
    ensures var usable := probed * whitelist;
            p in Detect(probed, whitelist, info, nullOrigin)
            <==> || (p == WebSocket && p in usable && info.websocket)
                 || p in Streaming(usable, info, nullOrigin)
                 || p in Polling(usable, info, nullOrigin)
  {
    var usable := probed * whitelist;
    PushesOne(usable, WebSocket, WebSocket);
    assert MaybePush(usable, [WebSocket]) == if WebSocket in usable then [WebSocket] else [];
  }

  lemma PushesOne(usable: set<Protocol>, a: Protocol, b: Protocol)
    ensures MaybePush(usable, [a, b]) == if a in usable then [a] else if b in usable then [b] else []
  {
    var ab, b' := [a, b], [b];
    assert ab[1..] == b' && b'[1..] == [];
    assert MaybePush(usable, b') == if b in usable then [b] else [];
    assert MaybePush(usable, ab) == if a in usable then [a] else MaybePush(usable, b');
  }

  /** JSONP polling is the net: a caller who admits it always has a transport to try. */
  lemma NeverEmptyWithJsonp(probed: set<Protocol>, whitelist: set<Protocol>, info: Info, nullOrigin: bool)
    requires JsonpPolling in probed * whitelist
    ensures Detect(probed, whitelist, info, nullOrigin) != []
  {
    PushesOne(probed * whitelist, IframeXhrPolling, JsonpPolling);
  }

  lemma AscendingIsShort(ps: seq<Protocol>)
    requires Ascending(ps)
    ensures |ps| <= 3
    ensures forall i, j :: 0 <= i < j < |ps| ==> ps[i] != ps[j]
  {
    if ps != [] {
      RankGrows(ps, |ps| - 1);
    }
  }

  lemma {:induction false} RankGrows(ps: seq<Protocol>, i: nat)
    requires Ascending(ps) && i < |ps|
    ensures Rank(ps[i]) >= i
  {
    if i > 0 {
      RankGrows(ps, i - 1);
    }
  }

  // Time limits

  function CountRTO(rtt: int): (rto: int)
    ensures rtt > 100 ==> rto > 300
    ensures 0 < rtt <= 100 ==> 200 < rto <= 300
    ensures rto > rtt
  {
    if rtt > 100 then 3 * rtt else rtt + 200
  }

  /** `SockJS[protocol].roundTrips || 1` */
  function RoundTrips(p: Protocol): nat {
    match p
    case WebSocket | XhrStreaming | XdrStreaming | XhrPolling | XdrPolling => 2
    case IframeEventSource | IframeHtmlFile | IframeXhrPolling => 3
    case JsonpPolling => 1
  }

  /** How long a transport may take to open; a negative delay is a delay of zero. */
  function Patience(rto: int, p: Protocol): nat {
    var to := rto * RoundTrips(p);
    if to == 0 then 5000 else if to < 0 then 0 else to
  }

  /** No transport is given up before the time that a request and its answer are expected to
      take, and none but JSONP before twice that; without an estimate it has five seconds. */
  lemma PatienceIsEnough(rto: int, p: Protocol)
    ensures rto > 0 ==> rto <= Patience(rto, p) <= 3 * rto && (p != JsonpPolling ==> 2 * rto <= Patience(rto, p))
    ensures rto == 0 ==> Patience(rto, p) == 5000
  {
    match p
    case WebSocket | XdrStreaming | XhrStreaming | XdrPolling | XhrPolling => assert RoundTrips(p) == 2;
    case IframeEventSource | IframeHtmlFile | IframeXhrPolling => assert RoundTrips(p) == 3;
    case JsonpPolling => assert RoundTrips(p) == 1;
  }

  function TotalPatience(rto: int, ps: seq<Protocol>): nat {
    if ps == [] then 0 else TotalPatience(rto, ps[..|ps| - 1]) + Patience(rto, ps[|ps| - 1])
  }

  /** 2 + 3 + 3 round trips, or three times the default. */
  function PatienceBound(rto: int): nat {
    if rto > 0 then 8 * rto else if rto == 0 then 15000 else 0
  }

  function RankBound(rto: int, rank: nat): nat {
    var trips := if rank == 0 then 2 else if rank == 1 then 5 else 8;
    if rto > 0 then trips * rto else if rto == 0 then 5000 * (rank + 1) else 0
  }

  lemma PatienceByRank(rto: int, p: Protocol)
    ensures Patience(rto, p)
            <= if Rank(p) == 0 then RankBound(rto, 0) else RankBound(rto, Rank(p)) - RankBound(rto, Rank(p) - 1)
  {
    match p
    case WebSocket =>
    case XdrStreaming =>
    case XhrStreaming =>
    case IframeEventSource =>
    case IframeHtmlFile =>
    case XdrPolling =>
    case XhrPolling =>
    case IframeXhrPolling =>
    case JsonpPolling =>
  }

  lemma {:induction false} TotalByRank(rto: int, ps: seq<Protocol>)
    requires Ascending(ps) && ps != []
    ensures TotalPatience(rto, ps) <= RankBound(rto, Rank(ps[|ps| - 1]))
  {
    var last := ps[|ps| - 1];
    PatienceByRank(rto, last);
    if |ps| > 1 {
      var front := ps[..|ps| - 1];
      TotalByRank(rto, front);
      assert Rank(front[|front| - 1]) < Rank(last);
      assert RankBound(rto, Rank(front[|front| - 1])) <= RankBound(rto, Rank(last) - 1);
    }
  }

  lemma TotalIsBounded(rto: int, ps: seq<Protocol>)
    requires Ascending(ps)
    ensures TotalPatience(rto, ps) <= PatienceBound(rto)
  {
    if ps != [] {
      TotalByRank(rto, ps);
    }
  }
}
