/** The WebSocket transport: `WebSocketTransport`, whose clean-up closes a native socket that
    may report its own close at once. */
module WebSocket {
  import opened Text
  import opened Receive
  import J = Jsonp
  import RS = ReceiveSafety

  /** `live`: the transport has its socket; `onmessage`, `onclose`: the socket's handlers;
      `ended`: the socket has reported its close, after which it reports nothing. */
  datatype State<S, E> = State(
    sink: S,
    live: bool,
    onmessage: bool,
    onclose: bool,
    ended: bool,
    inputs: seq<Input<E>>)

  /** What the browser reports; `atOnce` says whether a `close()` called meanwhile runs the
      close handler before it returns. */
  datatype Happening<E> =
    | Message(data: Str, atOnce: bool)
    | Broken(atOnce: bool)
    | External(event: E, atOnce: bool)

  function Start<S, E>(sink: S): State<S, E> {
    State(sink, true, true, true, false, [])
  }

  /** The socket reports its close, to whoever listens. */
  function Close<S, E>(c: Consumer<S, E>, s: State<S, E>, atOnce: bool): State<S, E>
    decreases if s.onclose then 3 else 0
  {
    if s.ended then s
    else
      var t := s.(ended := true);
      if t.onclose then Feed(c, t, Line(J.CloseText(true)), atOnce) else t
  }

  /** The connection after an input; if it lets the transport go, that is a clean-up. */
  function Feed<S, E>(c: Consumer<S, E>, s: State<S, E>, input: Input<E>, atOnce: bool): State<S, E>
    decreases 2
  {
    var t := s.(sink := Consume(c, s.sink, input).0, inputs := s.inputs + [input]);
    if c.gone(t.sink) && t.live then DoCleanup(c, t, atOnce) else t
  }

  /** `doCleanup`: the handlers go first, then the socket is closed. */
  function DoCleanup<S, E>(c: Consumer<S, E>, s: State<S, E>, atOnce: bool): State<S, E>
    decreases 1
  {
    var deaf := s.(onmessage := false, onclose := false);
    var closed := if atOnce then Close(c, deaf, atOnce) else deaf;
    closed.(live := false)
  }

  function Step<S, E>(c: Consumer<S, E>, s: State<S, E>, e: Happening<E>): State<S, E> {
    match e
    case Message(data, atOnce) => if s.ended || !s.onmessage then s else Feed(c, s, Line(data), atOnce)
    case Broken(atOnce) => Close(c, s, atOnce)
    case External(event, atOnce) => Feed(c, s, Other(event), atOnce)
  }

  function Run<S, E>(c: Consumer<S, E>, s: State<S, E>, es: seq<Happening<E>>): State<S, E>
    decreases |es|
  {
    if es == [] then s else Run(c, Step(c, s, es[0]), es[1..])
  }

  /** All the frames that the server sends before the socket breaks, and the frame that
      stands for the break. */
  function Frames<E>(es: seq<Happening<E>>): seq<Str> {
    if es == [] then []
    else
      match es[0]
      case Message(data, _) => [data] + Frames(es[1..])
      case Broken(_) => [J.CloseText(true)]
      case External(_, _) => Frames(es[1..])
  }

  ghost predicate Inv<S, E>(c: Consumer<S, E>, start: S, s: State<S, E>) {
    && s.sink == Replay(c, start, s.inputs) && c.ok(s.sink)
    && (s.live <==> !c.gone(s.sink))
    && s.onmessage == s.onclose == s.live
    && forall k :: 0 <= k < |s.inputs| && s.inputs[k].Line? ==> !c.gone(Replay(c, start, s.inputs[..k]))
  }

  /** Clean-up never re-enters, even when the socket reports its close at once. */
  lemma CleanupIsSilent<S, E>(c: Consumer<S, E>, s: State<S, E>, atOnce: bool)
    ensures DoCleanup(c, s, atOnce)
            == s.(live := false, onmessage := false, onclose := false, ended := s.ended || atOnce)
  {
  }

  lemma FeedKeeps<S(!new), E(!new)>(c: Consumer<S, E>, start: S, s: State<S, E>, input: Input<E>, atOnce: bool)
    requires LetsGo(c) && Inv(c, start, s) && !input.Lost? && (input.Line? ==> s.live)
    ensures var t := Feed(c, s, input, atOnce);
            && Inv(c, start, t) && t.inputs == s.inputs + [input] && (!s.live ==> !t.live)
            && (t.live ==> t.ended == s.ended)
  {
    J.ReplaySnoc(c, start, s.inputs, input);
    var t := s.(sink := Consume(c, s.sink, input).0, inputs := s.inputs + [input]);
    assert forall k :: 0 <= k < |s.inputs| ==> t.inputs[..k] == s.inputs[..k];
    assert t.inputs[..|s.inputs|] == s.inputs;
    CleanupIsSilent(c, t, atOnce);
  }

  lemma StepKeeps<S(!new), E(!new)>(c: Consumer<S, E>, start: S, s: State<S, E>, e: Happening<E>)
    requires LetsGo(c) && Inv(c, start, s)
    ensures Inv(c, start, Step(c, s, e)) && (!s.live ==> !Step(c, s, e).live)
    ensures var t := Step(c, s, e);
            && RS.LinesOf(t.inputs) == RS.LinesOf(s.inputs) + (if s.live && !s.ended then Frames([e]) else [])
            && (t.live ==> t.ended == (s.ended || e.Broken?))
  {
    assert [e][1..] == [];
    match e
    case Message(data, atOnce) =>
      if s.live && !s.ended {
        FeedKeeps(c, start, s, Line(data), atOnce);
        RS.LinesOfSnoc(s.inputs, Line(data));
      }
    case Broken(atOnce) =>
      if s.live && !s.ended {
        FeedKeeps(c, start, s.(ended := true), Line(J.CloseText(true)), atOnce);
        RS.LinesOfSnoc(s.inputs, Line(J.CloseText(true)));
      }
    case External(event, atOnce) =>
      FeedKeeps(c, start, s, Other(event), atOnce);
      RS.LinesOfSnoc(s.inputs, Other(event));
  }

  lemma {:induction false} RunKeeps<S(!new), E(!new)>(c: Consumer<S, E>, start: S, s: State<S, E>,
                                      es: seq<Happening<E>>)
    requires LetsGo(c) && Inv(c, start, s)
    ensures var t := Run(c, s, es);
            && Inv(c, start, t) && (!s.live ==> !t.live)
            && RS.LinesOf(s.inputs) <= RS.LinesOf(t.inputs)
            && RS.LinesOf(t.inputs) <= RS.LinesOf(s.inputs) + (if s.live && !s.ended then Frames(es) else [])
            && (t.live && !s.ended ==> RS.LinesOf(t.inputs) == RS.LinesOf(s.inputs) + Frames(es))
    decreases |es|
  {
    if es != [] {
      var u := Step(c, s, es[0]);
      StepKeeps(c, start, s, es[0]);
      RunKeeps(c, start, u, es[1..]);
      FramesFirst(es);
      Longer(RS.LinesOf(s.inputs), Frames([es[0]]), Frames(es[1..]));
    }
  }

  lemma FramesFirst<E>(es: seq<Happening<E>>)
    requires es != []
    ensures Frames(es) == if es[0].Broken? then Frames([es[0]]) else Frames([es[0]]) + Frames(es[1..])
  {
    assert [es[0]][1..] == [];
  }

  lemma Longer<T>(a: seq<T>, b: seq<T>, c: seq<T>)
    ensures a + b + c == a + (b + c) && a + b <= a + (b + c) && a + [] == a
  {
  }

  /** Whatever the server, the browser and the connection do: the connection is given the
      frames in order and once each, all of them while it holds on to the transport, and then
      the report of the broken socket; none after it has let go. */
  lemma MessagesArrive<S(!new), E(!new)>(c: Consumer<S, E>, sink: S, es: seq<Happening<E>>)
    requires LetsGo(c) && c.ok(sink) && !c.gone(sink)
    ensures var s := Run(c, Start<S, E>(sink), es);
            && s.sink == Replay(c, sink, s.inputs) && c.ok(s.sink)
            && RS.LinesOf(s.inputs) <= Frames(es)
            && (!c.gone(s.sink) ==> RS.LinesOf(s.inputs) == Frames(es))
            && (forall k :: 0 <= k < |s.inputs| && s.inputs[k].Line? ==> !c.gone(Replay(c, sink, s.inputs[..k])))
            && (c.gone(s.sink) ==> !s.live && !s.onmessage && !s.onclose)
  {
    RunKeeps(c, sink, Start<S, E>(sink), es);
  }
}
