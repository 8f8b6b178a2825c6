/** What each event does to a SockJS connection: which transport it falls back to, and with
    which code it closes. */
module ConnectionEvents {
  import opened Text
  import opened Protocols
  import opened Connection
  import opened ConnectionSafety

  // Fallback

  /** Where the first protocol of a plan stands that the browser still has; the length of the
      plan if there is none. */
  function FirstUsable(ps: seq<Protocol>, enabled: set<Protocol>): (k: nat)
    ensures k <= |ps| && (k < |ps| ==> ps[k] in enabled)
    ensures forall j :: 0 <= j < k ==> ps[j] !in enabled
  {
    if ps == [] || ps[0] in enabled then 0
    else
      assert forall j :: 1 <= j < |ps| ==> ps[j] == ps[1..][j - 1];
      1 + FirstUsable(ps[1..], enabled)
  }

  predicate NoneUsable(ps: seq<Protocol>, enabled: set<Protocol>) {
    forall p <- ps :: p !in enabled
  }

  /** Protocol `k` of the plan was constructed. */
  ghost predicate Tries(s: State, t: State, k: nat)
    requires k < |s.protocols|
  {
    && t.readyState == CONNECTING && !t.infoPending && t.log == s.log && t.delayed == [] && t.sent == s.sent
    && t.transport == Some(s.protocols[k]) && t.tried == s.tried + [s.protocols[k]]
    && t.protocols == s.protocols[k + 1..]
    && t.timer == Some(t.now + Patience(t.rto, s.protocols[k]))
  }

  /** The connection closed, and has still to say so. */
  ghost predicate Closes(s: State, t: State, event: Event) {
    && t.readyState == CLOSED && !t.infoPending && t.transport.None?
    && t.log == s.log && t.delayed == [event] && t.sent == s.sent && t.tried == s.tried
  }

  /** The first usable protocol of the plan was constructed; there was none, if and only if
      the connection closed. */
  ghost predicate FallsBack(s: State, t: State, enabled: set<Protocol>) {
    && (t.readyState == CLOSED <==> NoneUsable(s.protocols, enabled))
    && (NoneUsable(s.protocols, enabled) ==> Closes(s, t, CloseEvent(Some(2000), false, true)))
    && (!NoneUsable(s.protocols, enabled) ==>
          var k := FirstUsable(s.protocols, enabled);
          k < |s.protocols| && Tries(s, t, k))
  }

  lemma NoneUsableIff(ps: seq<Protocol>, enabled: set<Protocol>)
    ensures NoneUsable(ps, enabled) <==> FirstUsable(ps, enabled) == |ps|
  {
    var k := FirstUsable(ps, enabled);
    if k < |ps| {
      assert ps[k] in ps;
    }
  }

  function Constructed(s: State, k: nat): State
    requires k < |s.protocols|
  {
    s.(protocols := s.protocols[k + 1..], transport := Some(s.protocols[k]), tried := s.tried + [s.protocols[k]],
       timer := Some(s.now + Patience(s.rto, s.protocols[k])))
  }

  lemma ConstructedLater(s: State, k: nat)
    requires k + 1 < |s.protocols|
    ensures Constructed(s.(protocols := s.protocols[1..]), k) == Constructed(s, k + 1)
  {
    assert s.protocols[1..][k + 1..] == s.protocols[k + 2..];
  }

  /** The loop constructs the first usable protocol. */
  lemma {:induction false} OpenNextIsFirst(s: State, enabled: set<Protocol>)
    ensures var k := FirstUsable(s.protocols, enabled);
            OpenNext(s, enabled)
            == if k < |s.protocols| then (Constructed(s, k), true) else (s.(protocols := []), false)
    decreases |s.protocols|
  {
    if s.protocols != [] && s.protocols[0] !in enabled {
      var rest := s.(protocols := s.protocols[1..]);
      OpenNextIsFirst(rest, enabled);
      var k := FirstUsable(rest.protocols, enabled);
      if k < |rest.protocols| {
        ConstructedLater(s, k);
      }
    }
  }

  /** Whatever ends a transport before it opens, on purpose apart, leads to the next one. */
  lemma DidCloseFallsBack(s: State, code: Option<int>, enabled: set<Protocol>)
    requires s.readyState == CONNECTING && s.delayed == [] && !OnPurpose(code)
    ensures FallsBack(s, DidClose(s, code, false, enabled).state, enabled)
  {
    OpenNextIsFirst(s.(infoPending := false, transport := None, timer := None), enabled);
    NoneUsableIff(s.protocols, enabled);
  }

  /** What ends the transport that is being tried: it fails, its time is up, or the server
      closes it without a code of purpose. */
  predicate LosesTransport(what: Happening) {
    what.TransportFailed? || what.TimerFired?
    || (what.FrameArrived? && what.frame.CloseFrame? && !OnPurpose(what.frame.code))
  }

  lemma LossFallsBack(config: Config, h: Handler, s: State, o: Occurrence)
    requires Inv(s) && s.readyState == CONNECTING && !s.infoPending && LosesTransport(o.what)
    ensures FallsBack(s, Step(config, h, s, o).state, o.enabled)
  {
    var n := s.(now := o.at);
    match o.what
    case FrameArrived(CloseFrame(code)) => DidCloseFallsBack(n, code, o.enabled);
    case TransportFailed => DidCloseFallsBack(n, Some(1006), o.enabled);
    case TimerFired => DidCloseFallsBack(n, Some(2007), o.enabled);
  }

  /** In every run: a connection that loses its transport while it is CONNECTING closes if and
      only if the browser has none of the protocols left, and then says that all failed;
      otherwise it constructs the first of them that the browser has. */
  lemma LossInRun(config: Config, h: Handler, now: int, os: seq<Occurrence>, o: Occurrence, s: State)
    requires s == Run(config, h, Initial(now), os)
    requires s.readyState == CONNECTING && !s.infoPending && LosesTransport(o.what)
    ensures FallsBack(s, Step(config, h, s, o).state, o.enabled)
  {
    ReachableInv(config, h, now, os);
    LossFallsBack(config, h, s, o);
  }

  /** The answer of the info request opens the first transport detected; there is none, if and
      only if the connection closes. */
  lemma InfoOpens(config: Config, h: Handler, s: State, o: Occurrence, info: Info, rtt: int)
    requires Inv(s) && s.infoPending && o.what == InfoArrived(Some(info), rtt)
    ensures var ps := Detect(o.enabled, config.whitelist, info, config.nullOrigin);
            var t := Step(config, h, s, o).state;
            && t.detected == ps && t.infoAt == o.at
            && t.rto == (if rtt > 100 then 3 * rtt else rtt + 200)
            && if ps == [] then Closes(s, t, CloseEvent(Some(2000), false, true))
               else Tries(s.(protocols := ps), t, 0)
  {
    DetectAscends(o.enabled, config.whitelist, info, config.nullOrigin);
    PlanOpens(s, ApplyInfo(s.(now := o.at), info, rtt, config, o.enabled), o.enabled);
  }

  lemma PlanOpens(s: State, u: State, enabled: set<Protocol>)
    requires Inv(s) && s.infoPending
    requires u == s.(infoPending := false, protocols := u.protocols, detected := u.protocols, rto := u.rto,
                     infoAt := u.infoAt, now := u.now)
    requires forall i :: 0 <= i < |u.protocols| ==> u.protocols[i] in enabled
    ensures var t := DidClose(u, None, false, enabled).state;
            && t.detected == u.protocols && t.rto == u.rto && t.infoAt == u.infoAt
            && if u.protocols == [] then Closes(s, t, CloseEvent(Some(2000), false, true))
               else Tries(s.(protocols := u.protocols), t, 0)
  {
    DidCloseFallsBack(u, None, enabled);
    OpenNextIsFirst(u.(transport := None, timer := None), enabled);
    NoneUsableIff(u.protocols, enabled);
  }

  // Losses one after the other

  /** All transports that the plan still has are in the browser whenever one is lost. */
  predicate Losses(ps: seq<Protocol>, os: seq<Occurrence>) {
    forall o <- os :: LosesTransport(o.what) && forall p <- ps :: p in o.enabled
  }

  /** What is left after `n` losses in a row. */
  ghost predicate AfterLosses(s: State, t: State, n: nat) {
    if n <= |s.protocols| then
      && Inv(t) && t.readyState == CONNECTING && !t.infoPending
      && t.tried == s.tried + s.protocols[..n] && t.protocols == s.protocols[n..]
    else
      && Inv(t) && t.readyState == CLOSED && t.tried == s.tried + s.protocols
      && t.log + t.delayed == [CloseEvent(Some(2000), false, true)]
  }

  /** Transports that are lost one after the other before they open: each one of the plan is
      tried, in order, and only when none is left does the connection close. */
  lemma {:induction false} LossesTryAll(config: Config, h: Handler, s: State, os: seq<Occurrence>)
    requires Inv(s) && s.readyState == CONNECTING && !s.infoPending && Losses(s.protocols, os)
    ensures AfterLosses(s, Run(config, h, s, os), |os|)
    decreases |os|
  {
    if os == [] {
      assert s.tried + s.protocols[..0] == s.tried && s.protocols[0..] == s.protocols;
    } else {
      var t := Step(config, h, s, os[0]).state;
      assert os[0] in os;
      StepKeeps(config, h, s, os[0]);
      LossFallsBack(config, h, s, os[0]);
      if s.protocols == [] {
        ClosedIsFinal(config, h, t, os[1..]);
        RunKeeps(config, h, t, os[1..]);
        assert s.tried + s.protocols == s.tried && t.log + t.delayed == t.delayed;
      } else {
        assert s.protocols[0] in s.protocols && s.protocols[0] in os[0].enabled;
        assert FirstUsable(s.protocols, os[0].enabled) == 0;
        FewerLosses(s.protocols, os);
        LossesTryAll(config, h, t, os[1..]);
        OneMoreLoss(s, t, Run(config, h, t, os[1..]), |os| - 1);
      }
    }
  }

  lemma FewerLosses(ps: seq<Protocol>, os: seq<Occurrence>)
    requires ps != [] && os != [] && Losses(ps, os)
    ensures Losses(ps[1..], os[1..])
  {
  }

  lemma OneMoreLoss(s: State, t: State, u: State, n: nat)
    requires s.protocols != [] && t.tried == s.tried + [s.protocols[0]] && t.protocols == s.protocols[1..]
    requires AfterLosses(t, u, n)
    ensures AfterLosses(s, u, n + 1)
  {
    var ps := s.protocols;
    assert ps == [ps[0]] + ps[1..];
    if n < |ps| {
      assert ps[..n + 1] == [ps[0]] + ps[1..][..n] && ps[1..][n..] == ps[n + 1..];
    }
  }

  /** From the start: with a browser that keeps what it had when probed, and transports that
      are lost one after the other, the connection tries all that were detected, in order, and
      closes when the last is lost. */
  lemma AllAreTried(config: Config, h: Handler, now: int, o: Occurrence, info: Info, rtt: int, os: seq<Occurrence>)
    requires o.what == InfoArrived(Some(info), rtt)
    requires Detect(o.enabled, config.whitelist, info, config.nullOrigin) != []
    requires Losses(Detect(o.enabled, config.whitelist, info, config.nullOrigin), os)
    ensures var ps := Detect(o.enabled, config.whitelist, info, config.nullOrigin);
            var t := Run(config, h, Step(config, h, Initial(now), o).state, os);
            if |os| < |ps| then t.readyState == CONNECTING && t.tried == ps[..|os| + 1]
            else && t.readyState == CLOSED && t.tried == ps
                 && t.log + t.delayed == [CloseEvent(Some(2000), false, true)]
  {
    var ps := Detect(o.enabled, config.whitelist, info, config.nullOrigin);
    var s := Step(config, h, Initial(now), o).state;
    StepKeeps(config, h, Initial(now), o);
    InfoOpens(config, h, Initial(now), o, info, rtt);
    assert [] + [ps[0]] == [ps[0]];
    LossesTryAll(config, h, s, os);
    FromTheFirst(ps, s, Run(config, h, s, os), |os|);
  }

  lemma FromTheFirst(ps: seq<Protocol>, s: State, t: State, n: nat)
    requires ps != [] && s.tried == [ps[0]] && s.protocols == ps[1..] && AfterLosses(s, t, n)
    ensures if n < |ps| then t.readyState == CONNECTING && t.tried == ps[..n + 1]
            else && t.readyState == CLOSED && t.tried == ps
                 && t.log + t.delayed == [CloseEvent(Some(2000), false, true)]
  {
    assert ps == [ps[0]] + ps[1..];
    if n < |ps| {
      assert ps[..n + 1] == [ps[0]] + ps[1..][..n];
    }
  }

  // Closing

  /** The end of a connection with a code. */
  ghost predicate ClosesWith(s: State, t: State, code: Option<int>) {
    Closes(s, t, CloseEvent(code, OnPurpose(code), false))
  }

  /** What a frame does on an open connection. */
  lemma FrameOnOpen(s: State, frame: Frame, h: Handler, enabled: set<Protocol>)
    requires Inv(s) && s.readyState == OPEN
    ensures var r := DidMessage(s, frame, h, enabled);
            match frame
            case OpenFrame => ClosesWith(s, r.state, Some(1006)) && !r.thrown
            case CloseFrame(code) => ClosesWith(s, r.state, code) && !r.thrown
            case ArrayFrame(payload) =>
              r.state.log == s.log + Messages(payload[..Seen(h, s.log, payload)])
            case MessageFrame(data) => r.state.log == s.log + [MessageEvent(data)]
            case HeartbeatFrame => r.state.log == s.log + [HeartbeatEvent]
            case UnknownFrame => r == Outcome(s, false)
            case BrokenFrame => r == Outcome(s, true)
  {
    match frame
    case ArrayFrame(payload) => ArrayIsCut(s, payload, h, enabled);
    case MessageFrame(data) => DispatchKeeps(s, MessageEvent(data), h, enabled);
    case HeartbeatFrame => DispatchKeeps(s, HeartbeatEvent, h, enabled);
    case _ =>
  }

  /** What a frame does on a connection whose transport has not opened yet. */
  lemma FrameOnConnecting(s: State, frame: Frame, h: Handler, enabled: set<Protocol>)
    requires Inv(s) && s.readyState == CONNECTING && s.transport.Some?
    ensures var r := DidMessage(s, frame, h, enabled);
            match frame
            case OpenFrame =>
              && r.state.log == [OpenEvent]
              && (h([OpenEvent]) == [] ==> r.state == s.(timer := None, readyState := OPEN, log := [OpenEvent]))
            case CloseFrame(code) =>
              if OnPurpose(code) then ClosesWith(s, r.state, code) else FallsBack(s, r.state, enabled)
            case BrokenFrame => r == Outcome(s, true)
            case _ => r == Outcome(s, false)
  {
    match frame
    case OpenFrame => Opens(s, h, enabled);
    case CloseFrame(code) =>
      if !OnPurpose(code) {
        DidCloseFallsBack(s, code, enabled);
      }
    case ArrayFrame(payload) => ClosedDelivers(s, payload, h, enabled);
    case _ =>
  }

  lemma Opens(s: State, h: Handler, enabled: set<Protocol>)
    requires Inv(s) && s.readyState == CONNECTING && s.transport.Some?
    ensures var t := DidMessage(s, OpenFrame, h, enabled).state;
            && t.log == [OpenEvent]
            && (h([OpenEvent]) == [] ==> t == s.(timer := None, readyState := OPEN, log := [OpenEvent]))
  {
    DispatchKeeps(s.(timer := None, readyState := OPEN), OpenEvent, h, enabled);
    assert s.log + [OpenEvent] == [OpenEvent];
  }

  /** What the environment does to a connection: a frame reaches it only over a transport; the
      loss of the transport, a failed POST and a failed info request close it with codes 1006,
      1006 and 1002, unless there is another transport to try; the close event comes last. */
  lemma EventMeans(config: Config, h: Handler, s: State, o: Occurrence)
    requires Inv(s)
    ensures var n, r := s.(now := o.at), Step(config, h, s, o);
            match o.what
            case InfoArrived(None, _) =>
              if s.infoPending then ClosesWith(n, r.state, Some(1002)) else r == Outcome(n, false)
            case InfoArrived(Some(_), _) => !s.infoPending ==> r == Outcome(n, false)
            case FrameArrived(frame) =>
              r == if s.transport.Some? then DidMessage(n, frame, h, o.enabled) else Outcome(n, false)
            case TransportFailed =>
              if s.transport.None? then r == Outcome(n, false)
              else if s.readyState == OPEN then ClosesWith(n, r.state, Some(1006))
              else FallsBack(n, r.state, o.enabled)
            case PostFailed =>
              if s.sent == [] then r == Outcome(n, false)
              else if s.readyState == OPEN then ClosesWith(n, r.state, Some(1006))
              else r == Outcome(n, true)
            case TimerFired =>
              if s.timer.Some? && s.readyState == CONNECTING then FallsBack(n, r.state, o.enabled)
              else r == Outcome(n.(timer := None), false)
            case CloseDispatched =>
              if s.delayed == [] then r == Outcome(n, false)
              else r.state.log == s.log + s.delayed && r.state.delayed == []
            case UserCalls(calls) => r == Perform(n, calls, o.enabled)
  {
    var n := s.(now := o.at);
    match o.what
    case TransportFailed =>
      if s.readyState == CONNECTING {
        DidCloseFallsBack(n, Some(1006), o.enabled);
      }
    case TimerFired =>
      if s.readyState == CONNECTING {
        DidCloseFallsBack(n, Some(2007), o.enabled);
      }
    case CloseDispatched =>
      if s.delayed != [] {
        CloseIsDispatched(n, h, o.enabled);
      }
    case _ =>
  }

  lemma CloseIsDispatched(s: State, h: Handler, enabled: set<Protocol>)
    requires Inv(s) && s.delayed != []
    ensures var t := Dispatch(s.(delayed := s.delayed[1..]), s.delayed[0], h, enabled).state;
            t.log == s.log + s.delayed && t.delayed == []
  {
    CloseDispatchKeeps(s, h, enabled);
    var event := s.delayed[0];
    assert s.delayed == [event] && s.delayed[1..] == [];
    assert (s.log + [event])[..|s.log|] == s.log;
    DispatchKeeps(s.(delayed := []), event, h, enabled);
  }

  /** `close`: a code that is not 1000 or 3000 to 4999 throws; otherwise it ends a connection
      that has not ended, even one that still has transports to try. */
  lemma CloseMeans(s: State, code: int, enabled: set<Protocol>)
    requires Inv(s)
    ensures var r := UserClose(s, code, enabled);
            if code != 0 && !OnPurpose(Some(code)) then r == Outcome(s, true)
            else if s.readyState == CLOSED then r == Outcome(s, false)
            else !r.thrown && ClosesWith(s, r.state, Some(if code == 0 then 1000 else code))
  {
  }

  /** `send` throws while CONNECTING; an open connection hands the text to its transport, and
      no other does. */
  lemma SendMeans(s: State, data: Str)
    requires Inv(s)
    ensures var r := UserSend(s, data);
            && (r.thrown <==> s.readyState == CONNECTING)
            && r.state == s.(sent := if s.readyState == OPEN then s.sent + [data] else s.sent)
  {
  }
}
