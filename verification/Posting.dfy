/** The connection over a transport that posts what it sends: what `send` hands over is
    quoted, batched and posted, also after the connection is CLOSED, since clean-up does not
    stop the sender. */
module Posting {
  import opened Text
  import opened Quote
  import E = EndToEnd
  import C = Connection
  import Safety = ConnectionSafety
  import Events = ConnectionEvents
  import P = Protocols
  import S = Sender

  datatype State = State(conn: C.State, sender: S.State)

  /** An event of the connection, the end of the POST in flight, or of the 25 ms wait. */
  datatype Event =
    | OfConnection(o: C.Occurrence)
    | Completed(success: bool, at: int, enabled: set<P.Protocol>)
    | WaitOver

  function Handed(kind: Stringify, s: S.State, pieces: seq<Str>): S.State {
    S.Run(s, E.AsSends(kind, pieces))
  }

  /** A POST that fails closes the connection; other failures are events of their own. What a
      connection has sent only grows, so there is always a rest to hand over. */
  function Step(config: C.Config, h: C.Handler, kind: Stringify, u: State, e: Event): State {
    match e
    case OfConnection(o) =>
      if o.what.PostFailed? then u
      else
        var t := C.Step(config, h, u.conn, o).state;
        State(t, if u.conn.sent <= t.sent then Handed(kind, u.sender, t.sent[|u.conn.sent|..]) else u.sender)
    case Completed(success, at, enabled) =>
      if u.sender.inFlight == 0 then u
      else if success then u.(sender := S.Step(u.sender, S.Completed(true)))
      else State(C.Step(config, h, u.conn, C.Occurrence(C.PostFailed, at, enabled)).state,
                 S.Step(u.sender, S.Completed(false)))
    case WaitOver => u.(sender := S.Step(u.sender, S.TimerFired))
  }

  function Run(config: C.Config, h: C.Handler, kind: Stringify, u: State, es: seq<Event>): State
    decreases |es|
  {
    if es == [] then u else Run(config, h, kind, Step(config, h, kind, u, es[0]), es[1..])
  }

  function Initial(now: int): State {
    State(C.Initial(now), S.Initial)
  }

  /** What was posted and what waits are what the connection has sent, quoted, in order. */
  ghost predicate Inv(kind: Stringify, u: State) {
    && Safety.Inv(u.conn) && S.Inv(u.sender)
    && Flatten(u.sender.posts) + u.sender.buffer == QuoteAll(kind, u.conn.sent)
  }

  lemma HandedKeeps(kind: Stringify, s: S.State, sent: seq<Str>, more: seq<Str>)
    requires S.Inv(s) && Flatten(s.posts) + s.buffer == QuoteAll(kind, sent)
    ensures var t := Handed(kind, s, more);
            S.Inv(t) && Flatten(t.posts) + t.buffer == QuoteAll(kind, sent + more)
  {
    S.RunKeeps(s, E.AsSends(kind, more));
    E.GivenSends(kind, more);
    E.QuoteAllConcat(kind, sent, more);
  }

  /** A POST that fails closes an open connection with code 1006. */
  lemma FailureCloses(config: C.Config, h: C.Handler, kind: Stringify, u: State, at: int, enabled: set<P.Protocol>)
    requires Inv(kind, u) && u.conn.readyState == C.OPEN && u.sender.inFlight > 0 && u.conn.sent != []
    ensures var t := Step(config, h, kind, u, Completed(false, at, enabled)).conn;
            t.readyState == C.CLOSED && t.delayed == [C.CloseEvent(Some(1006), false, false)]
  {
    Events.EventMeans(config, h, u.conn, C.Occurrence(C.PostFailed, at, enabled));
  }

  lemma FailureSendsNothing(config: C.Config, h: C.Handler, s: C.State, o: C.Occurrence)
    requires Safety.Inv(s) && o.what == C.PostFailed
    ensures var t := C.Step(config, h, s, o).state; Safety.Inv(t) && t.sent == s.sent
  {
    Safety.StepKeeps(config, h, s, o);
    if s.readyState != C.CLOSED {
      Safety.DidCloseKeeps(s.(now := o.at), Some(1006), false, o.enabled);
    }
  }

  lemma SenderStepKeeps(s: S.State, a: S.Action)
    requires S.Inv(s) && !a.Send?
    ensures var t := S.Step(s, a);
            S.Inv(t) && Flatten(t.posts) + t.buffer == Flatten(s.posts) + s.buffer
  {
    S.StepKeeps(s, a);
    assert S.Given([a][1..]) == [];
    assert S.Given([a]) == [];
  }

  lemma ConnectionKeeps(config: C.Config, h: C.Handler, kind: Stringify, u: State, o: C.Occurrence)
    requires Inv(kind, u)
    ensures Inv(kind, Step(config, h, kind, u, OfConnection(o)))
  {
    if !o.what.PostFailed? {
      Safety.StepKeeps(config, h, u.conn, o);
      var t := C.Step(config, h, u.conn, o).state;
      var more := t.sent[|u.conn.sent|..];
      HandedKeeps(kind, u.sender, u.conn.sent, more);
      assert u.conn.sent + more == t.sent;
    }
  }

  lemma StepKeeps(config: C.Config, h: C.Handler, kind: Stringify, u: State, e: Event)
    requires Inv(kind, u)
    ensures Inv(kind, Step(config, h, kind, u, e))
  {
    match e
    case OfConnection(o) => ConnectionKeeps(config, h, kind, u, o);
    case Completed(success, at, enabled) =>
      SenderStepKeeps(u.sender, S.Completed(success));
      FailureSendsNothing(config, h, u.conn, C.Occurrence(C.PostFailed, at, enabled));
    case WaitOver => SenderStepKeeps(u.sender, S.TimerFired);
  }

  lemma {:induction false} RunKeeps(config: C.Config, h: C.Handler, kind: Stringify, u: State, es: seq<Event>)
    requires Inv(kind, u)
    ensures Inv(kind, Run(config, h, kind, u, es))
    decreases |es|
  {
    if es != [] {
      StepKeeps(config, h, kind, u, es[0]);
      RunKeeps(config, h, kind, Step(config, h, kind, u, es[0]), es[1..]);
    }
  }

  /** In every run of a connection with its sender: the batches posted and the buffer spell
      what the user sent while the connection was OPEN, in order; at rest and without a failed
      POST all of it is posted, whether or not the connection is CLOSED by then. */
  lemma SentIsPosted(config: C.Config, h: C.Handler, kind: Stringify, now: int, es: seq<Event>, u: State)
    requires u == Run(config, h, kind, Initial(now), es)
    ensures Flatten(u.sender.posts) + u.sender.buffer == QuoteAll(kind, u.conn.sent)
    ensures u.sender.inFlight + u.sender.timers <= 1
    ensures u.sender.inFlight == 0 && u.sender.timers == 0 && !u.sender.failed ==>
              Flatten(u.sender.posts) == QuoteAll(kind, u.conn.sent)
  {
    RunKeeps(config, h, kind, Initial(now), es);
    assert Flatten(u.sender.posts) + [] == Flatten(u.sender.posts);
  }

  // After CLOSED

  /** A CLOSED connection whose sender has nothing to send, or nothing to make it send. */
  ghost predicate Dry(kind: Stringify, u: State) {
    && Inv(kind, u) && u.conn.readyState == C.CLOSED
    && (u.sender.buffer == [] || (u.sender.inFlight == 0 && u.sender.timers == 0))
  }

  lemma ClosedHandsNothing(config: C.Config, h: C.Handler, kind: Stringify, u: State, o: C.Occurrence)
    requires Inv(kind, u) && u.conn.readyState == C.CLOSED
    ensures var v := Step(config, h, kind, u, OfConnection(o));
            v.sender == u.sender && v.conn.readyState == C.CLOSED
  {
    if !o.what.PostFailed? {
      Safety.StepKeeps(config, h, u.conn, o);
      var t := C.Step(config, h, u.conn, o).state;
      var none: seq<Str> := [];
      assert t.sent[|u.conn.sent|..] == none;
      assert E.AsSends(kind, none) == [];
    }
  }

  lemma DryStep(config: C.Config, h: C.Handler, kind: Stringify, u: State, e: Event)
    requires Dry(kind, u)
    ensures var v := Step(config, h, kind, u, e);
            Dry(kind, v) && v.sender.posts == u.sender.posts
  {
    StepKeeps(config, h, kind, u, e);
    match e
    case OfConnection(o) => ClosedHandsNothing(config, h, kind, u, o);
    case Completed(success, at, enabled) =>
      Safety.StepKeeps(config, h, u.conn, C.Occurrence(C.PostFailed, at, enabled));
    case WaitOver =>
  }

  lemma {:induction false} DryStays(config: C.Config, h: C.Handler, kind: Stringify, u: State, es: seq<Event>)
    requires Dry(kind, u)
    ensures Run(config, h, kind, u, es).sender.posts == u.sender.posts
    decreases |es|
  {
    if es != [] {
      DryStep(config, h, kind, u, es[0]);
      DryStays(config, h, kind, Step(config, h, kind, u, es[0]), es[1..]);
    }
  }

  ghost predicate PostsMore(config: C.Config, h: C.Handler, kind: Stringify, u: State, es: seq<Event>) {
    Run(config, h, kind, u, es).sender.posts != u.sender.posts
  }

  /** After CLOSED the sender makes another POST in some continuation if and only if messages
      wait behind a POST or a wait that is not over; that POST then takes all of them. */
  lemma PostsAfterClosedIff(config: C.Config, h: C.Handler, kind: Stringify, u: State)
    requires Inv(kind, u) && u.conn.readyState == C.CLOSED
    ensures (exists es :: PostsMore(config, h, kind, u, es))
            <==> u.sender.buffer != [] && (u.sender.inFlight > 0 || u.sender.timers > 0)
  {
    if u.sender.buffer != [] && (u.sender.inFlight > 0 || u.sender.timers > 0) {
      Drains(config, h, kind, u);
      assert PostsMore(config, h, kind, u, Rest(u));
    } else {
      forall es ensures !PostsMore(config, h, kind, u, es) {
        DryStays(config, h, kind, u, es);
      }
    }
  }

  /** The end of the POST in flight, if there is one, and of the wait after it. */
  function Rest(u: State): seq<Event> {
    if u.sender.inFlight > 0 then [Completed(true, u.conn.now, {}), WaitOver] else [WaitOver]
  }

  lemma Drains(config: C.Config, h: C.Handler, kind: Stringify, u: State)
    requires Inv(kind, u) && u.sender.buffer != [] && (u.sender.inFlight > 0 || u.sender.timers > 0)
    ensures var v := Run(config, h, kind, u, Rest(u));
            v.sender.posts == u.sender.posts + [u.sender.buffer] && v.sender.buffer == []
  {
    var wait := [WaitOver];
    var none: seq<Event> := [];
    assert wait[1..] == none;
    if u.sender.inFlight > 0 {
      var v := u.(sender := S.Step(u.sender, S.Completed(true)));
      var all := Rest(u);
      assert all[1..] == wait;
      assert Run(config, h, kind, u, all) == Run(config, h, kind, v, wait);
      assert Run(config, h, kind, v, wait) == Run(config, h, kind, Step(config, h, kind, v, WaitOver), none);
    } else {
      assert Run(config, h, kind, u, wait) == Run(config, h, kind, Step(config, h, kind, u, WaitOver), none);
    }
  }
}
