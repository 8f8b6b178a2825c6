/** The JSONP polling transport: `jsonPGenericReceiver` (one script tag per receive),
    `jsonPReceiverWrapper` (the global hook and its abort protocol) and `JsonPTransport`. */
module Jsonp {
  import opened Text
  import opened Receive
  import RS = ReceiveSafety

  /** One receive request. `script`: the script tag and its handlers are still there. `hook`: the
      global function the server calls. `errorTimer`: the delayed error is pending, and
      `errorSeen` that it was ever started. `timeout`: the 35 s timer is pending. `called`
      counts the calls of the user callback, `answer` is the frame it was called with. */
  datatype Request = Request(
    script: bool,
    hook: bool,
    aborting: nat,
    errorSeen: bool,
    errorTimer: bool,
    loadedOkay: bool,
    timeout: bool,
    called: nat,
    answer: Option<Str>)

  datatype State<S, E> = State(
    sink: S,
    isClosing: bool,
    recvStop: Option<nat>,
    requests: seq<Request>,
    inputs: seq<Input<E>>)

  /** Events of the browser for receive `i`, and anything else that happens to the
      connection. `onclick` is the frame that running the script as a handler passes on. */
  datatype Happening<E> =
    | ServerCall(i: nat, frame: Str)
    | Load(i: nat)
    | Error(i: nat)
    | ErrorTimer(i: nat)
    | ReadyStateChange(i: nat, loaded: bool, onclick: Option<Str>)
    | Timeout(i: nat)
    | External(event: E)

  /** A frame the receiver makes up itself; `broken` tells 1006 from 1000. */
  function CloseText(broken: bool): (frame: Str)
    ensures frame != []
  {
    [0x63, LBRACKET] + Decimal(if broken then 1006 else 1000) + [RBRACKET]
  }

  function Set<S, E>(s: State<S, E>, i: nat, r: Request): (t: State<S, E>)
    requires i < |s.requests|
    ensures |t.requests| == |s.requests|
  {
    s.(requests := s.requests[i := r])
  }

  /** `_schedule_recv` */
  function ScheduleRecv<S, E>(s: State<S, E>): State<S, E> {
    s.(recvStop := Some(|s.requests|),
       requests := s.requests + [Request(true, true, 0, false, false, false, true, 0, None)])
  }

  function Start<S, E>(sink: S): State<S, E> {
    ScheduleRecv(State(sink, false, None, [], []))
  }

  function Level<S, E>(s: State<S, E>): nat {
    if s.isClosing then 0 else 1
  }

  /** `close_script`: the first call removes the tag and runs the callback, later ones do
      nothing. The result says whether an exception was thrown. */
  function CloseScript<S, E>(c: Consumer<S, E>, s: State<S, E>, i: nat, frame: Str): (r: (State<S, E>, bool))
    requires i < |s.requests|
    ensures |r.0.requests| >= |s.requests|
    decreases Level(s), 4
  {
    var r := s.requests[i];
    if !r.script then (s, false)
    else WrapperCallback(c, Set(s, i, r.(script := false, timeout := false)), i, frame)
  }

  /** The callback of `jsonPReceiverWrapper`. */
  function WrapperCallback<S, E>(c: Consumer<S, E>, s: State<S, E>, i: nat, frame: Str): (r: (State<S, E>, bool))
    requires i < |s.requests|
    ensures |r.0.requests| >= |s.requests|
    decreases Level(s), 3
  {
    var r := s.requests[i];
    if r.aborting == 0 then
      UserCallback(c, Set(s, i, r.(hook := false)), i, frame)
    else if r.aborting == 1 then
      var (t, thrown) := UserCallback(c, s, i, frame);
      if thrown then (t, true) else (Set(t, i, t.requests[i].(aborting := 2)), false)
    else (Set(s, i, r.(hook := false)), false)
  }

  /** The callback of `_schedule_recv`; no data is a heart-beat. */
  function UserCallback<S, E>(c: Consumer<S, E>, s: State<S, E>, i: nat, data: Str): (r: (State<S, E>, bool))
    requires i < |s.requests|
    ensures |r.0.requests| >= |s.requests|
    decreases Level(s), 2
  {
    var r := s.requests[i];
    var called := Set(s, i, r.(called := r.called + 1, answer := Some(data))).(recvStop := None);
    if s.isClosing then (called, false)
    else
      var (t, thrown) := if data == [] then (called, false)
                         else (Feed(c, called, Line(data)), c.line(called.sink, data).1);
      if thrown then (t, true)
      else if t.isClosing then (t, false)
      else (ScheduleRecv(t), false)
  }

  /** The connection after an input; if it lets the transport go, that is a clean-up. */
  function Feed<S, E>(c: Consumer<S, E>, s: State<S, E>, input: Input<E>): (t: State<S, E>)
    ensures |t.requests| >= |s.requests|
    decreases Level(s), 1
  {
    var t := s.(sink := Consume(c, s.sink, input).0, inputs := s.inputs + [input]);
    if c.gone(t.sink) && !s.isClosing then DoCleanup(c, t) else t
  }

  /** `doCleanup`, which stops the outstanding receive by calling its hook with a made-up
      close frame. */
  function DoCleanup<S, E>(c: Consumer<S, E>, s: State<S, E>): (t: State<S, E>)
    requires !s.isClosing
    ensures |t.requests| >= |s.requests|
    decreases 1, 0
  {
    var closing := s.(isClosing := true);
    var stopped :=
      if s.recvStop.Some? && s.recvStop.value < |s.requests| then Stop(c, closing, s.recvStop.value) else closing;
    stopped.(recvStop := None)
  }

  /** `stop` */
  function Stop<S, E>(c: Consumer<S, E>, s: State<S, E>, i: nat): (t: State<S, E>)
    requires i < |s.requests| && s.isClosing
    ensures |t.requests| >= |s.requests|
    decreases 0, 5
  {
    if !s.requests[i].hook then s
    else CloseScript(c, Set(s, i, s.requests[i].(aborting := 1)), i, CloseText(false)).0
  }

  /** The server's script, or an IE click handler that runs it, calls the hook. */
  function CallHook<S, E>(c: Consumer<S, E>, s: State<S, E>, i: nat, frame: Str): State<S, E>
    requires i < |s.requests|
  {
    if s.requests[i].hook then CloseScript(c, s, i, frame).0 else s
  }

  function Step<S, E>(c: Consumer<S, E>, s: State<S, E>, e: Happening<E>): State<S, E> {
    match e
    case External(event) => Feed(c, s, Other(event))
    case ServerCall(i, frame) => if i < |s.requests| then CallHook(c, s, i, frame) else s
    case Load(i) =>
      if i < |s.requests| && s.requests[i].script then CloseScript(c, s, i, CloseText(true)).0 else s
    case Error(i) =>
      if i < |s.requests| && s.requests[i].script && !s.requests[i].errorSeen
      then Set(s, i, s.requests[i].(errorSeen := true, errorTimer := true)) else s
    case ErrorTimer(i) =>
      if i < |s.requests| && s.requests[i].errorTimer then
        var fired := Set(s, i, s.requests[i].(errorTimer := false));
        if s.requests[i].loadedOkay then fired else CloseScript(c, fired, i, CloseText(true)).0
      else s
    case ReadyStateChange(i, loaded, onclick) =>
      if i < |s.requests| && s.requests[i].script && loaded then
        var clicked := if onclick.None? then s
                       else CallHook(c, Set(s, i, s.requests[i].(loadedOkay := true)), i, onclick.value);
        if i < |clicked.requests| && clicked.requests[i].script then CloseScript(c, clicked, i, CloseText(true)).0
        else clicked
      else s
    case Timeout(i) =>
      if i < |s.requests| && s.requests[i].timeout then CloseScript(c, s, i, CloseText(true)).0 else s
  }

  function Run<S, E>(c: Consumer<S, E>, s: State<S, E>, es: seq<Happening<E>>): State<S, E>
    decreases |es|
  {
    if es == [] then s else Run(c, Step(c, s, es[0]), es[1..])
  }

  // Invariant

  /** What one receive may look like: called exactly when its script is gone, its hook gone
      with it unless it was aborted. */
  ghost predicate RequestOk(r: Request) {
    && (r.script ==> r.hook && r.aborting == 0 && r.called == 0 && r.answer.None?)
    && (!r.script ==> !r.timeout && r.called == 1 && r.answer.Some?)
    && (r.aborting == 0 || r.aborting == 2)
    && (!r.script ==> (r.hook <==> r.aborting == 2))
  }

  /** The frames that receives were answered with, in order; an aborted one has none, and an
      empty answer is a heart-beat. */
  function Answers(rs: seq<Request>): seq<Str> {
    if rs == [] then []
    else
      var last := rs[|rs| - 1];
      Answers(rs[..|rs| - 1])
      + if last.aborting == 0 && last.answer.Some? && last.answer.value != [] then [last.answer.value] else []
  }

  /** What the connection has been given. */
  ghost predicate Served<S, E>(c: Consumer<S, E>, start: S, s: State<S, E>) {
    && s.sink == Replay(c, start, s.inputs) && c.ok(s.sink)
    && (s.isClosing <==> c.gone(s.sink))
    && forall k :: 0 <= k < |s.inputs| && s.inputs[k].Line? ==> !c.gone(Replay(c, start, s.inputs[..k]))
  }

  /** At most the last receive is outstanding, and only while `_recv_stop` is set to stop it. */
  ghost predicate OneOutstanding<S, E>(s: State<S, E>) {
    && s.requests != []
    && (forall i :: 0 <= i < |s.requests| ==> RequestOk(s.requests[i]))
    && (forall i :: 0 <= i < |s.requests| - 1 ==> !s.requests[i].script)
    && (s.recvStop.Some? <==> s.requests[|s.requests| - 1].script)
    && (s.recvStop.Some? ==> s.recvStop.value == |s.requests| - 1)
    && (s.isClosing ==> s.recvStop.None?)
  }

  ghost predicate Inv<S, E>(c: Consumer<S, E>, start: S, s: State<S, E>) {
    Served(c, start, s) && OneOutstanding(s) && RS.LinesOf(s.inputs) == Answers(s.requests)
  }

  // Closing a script

  lemma ReplaySnoc<S, E>(c: Consumer<S, E>, start: S, inputs: seq<Input<E>>, input: Input<E>)
    ensures Replay(c, start, inputs + [input]) == Consume(c, Replay(c, start, inputs), input).0
  {
    assert (inputs + [input])[..|inputs|] == inputs;
  }

  lemma AnswersLast(rs: seq<Request>, r: Request)
    requires rs != [] && rs[|rs| - 1].script && r.answer.Some?
    requires RequestOk(rs[|rs| - 1])
    ensures Answers(rs[|rs| - 1 := r])
         == Answers(rs) + if r.aborting == 0 && r.answer.value != [] then [r.answer.value] else []
  {
    var n := |rs| - 1;
    assert rs[n := r][..n] == rs[..n];
  }

  lemma AnswersNew(rs: seq<Request>, r: Request)
    requires r.answer.None?
    ensures Answers(rs + [r]) == Answers(rs)
  {
    assert (rs + [r])[..|rs|] == rs;
  }

  /** What stopping the outstanding receive comes to: it ends without a word to the
      connection, and its hook stays behind. */
  lemma StopShape<S, E>(c: Consumer<S, E>, s: State<S, E>, i: nat)
    requires i < |s.requests| && s.isClosing && s.requests[i].hook && s.requests[i].script
    ensures var r := s.requests[i];
            Stop(c, s, i) == Set(s, i, r.(script := false, timeout := false, aborting := 2, called := r.called + 1,
                                          answer := Some(CloseText(false)))).(recvStop := None)
  {
    var r, frame := s.requests[i], CloseText(false);
    var s1 := Set(s, i, r.(aborting := 1));
    var s2 := Set(s1, i, s1.requests[i].(script := false, timeout := false));
    var s3 := Set(s2, i, s2.requests[i].(called := r.called + 1, answer := Some(frame))).(recvStop := None);
    assert UserCallback(c, s2, i, frame) == (s3, false);
    assert WrapperCallback(c, s2, i, frame) == (Set(s3, i, s3.requests[i].(aborting := 2)), false);
    assert CloseScript(c, s1, i, frame) == WrapperCallback(c, s2, i, frame);
  }

  function Aborted<S, E>(s: State<S, E>): State<S, E> {
    var closed := s.(isClosing := true, recvStop := None);
    if s.recvStop.None? || s.recvStop.value >= |s.requests| then closed
    else
      var r := s.requests[s.recvStop.value];
      Set(closed, s.recvStop.value, r.(script := false, timeout := false, aborting := 2, called := r.called + 1,
                                       answer := Some(CloseText(false))))
  }

  lemma CleanupShape<S, E>(c: Consumer<S, E>, s: State<S, E>)
    requires !s.isClosing
    requires s.recvStop.Some? ==>
               && s.recvStop.value < |s.requests|
               && s.requests[s.recvStop.value].script && s.requests[s.recvStop.value].hook
    ensures DoCleanup(c, s) == Aborted(s)
  {
    if s.recvStop.Some? {
      StopShape(c, s.(isClosing := true), s.recvStop.value);
    }
  }

  /** Clean-up never re-enters: it gives the connection nothing and changes nothing in it. */
  lemma CleanupIsSilent<S(!new), E(!new)>(c: Consumer<S, E>, start: S, s: State<S, E>)
    requires Inv(c, start, s) && !s.isClosing
    ensures var t := DoCleanup(c, s);
            t.sink == s.sink && t.inputs == s.inputs && |t.requests| == |s.requests| && t.isClosing && t.recvStop.None?
  {
    CleanupShape(c, s);
  }

  lemma OtherServed<S(!new), E(!new)>(c: Consumer<S, E>, start: S, s: State<S, E>, event: E)
    requires LetsGo(c) && Served(c, start, s)
    ensures var sink, inputs := c.other(s.sink, event).0, s.inputs + [Other(event)];
            && Served(c, start, s.(sink := sink, inputs := inputs, isClosing := c.gone(sink)))
            && (s.isClosing ==> c.gone(sink))
            && RS.LinesOf(inputs) == RS.LinesOf(s.inputs)
  {
    ReplaySnoc(c, start, s.inputs, Other(event));
    RS.LinesOfSnoc(s.inputs, Other(event));
    var inputs := s.inputs + [Other(event)];
    assert forall k :: 0 <= k < |s.inputs| ==> inputs[..k] == s.inputs[..k];
  }

  lemma AbortedKeeps<S, E>(s: State<S, E>)
    requires OneOutstanding(s) && !s.isClosing
    ensures OneOutstanding(Aborted(s)) && Answers(Aborted(s).requests) == Answers(s.requests)
  {
    if s.recvStop.Some? {
      AnswersLast(s.requests, Aborted(s).requests[|s.requests| - 1]);
    }
  }

  lemma ExternalKeeps<S(!new), E(!new)>(c: Consumer<S, E>, start: S, s: State<S, E>, event: E)
    requires LetsGo(c) && Inv(c, start, s)
    ensures Inv(c, start, Feed(c, s, Other(event)))
  {
    OtherServed(c, start, s, event);
    var t := s.(sink := c.other(s.sink, event).0, inputs := s.inputs + [Other(event)]);
    if c.gone(t.sink) && !s.isClosing {
      CleanupShape(c, t);
      AbortedKeeps(t);
      assert Feed(c, s, Other(event)) == Aborted(t);
    } else {
      assert Feed(c, s, Other(event)) == t;
    }
  }

  /** The live request, answered with `frame`. */
  function Answered<S, E>(s: State<S, E>, frame: Str): State<S, E>
    requires s.requests != []
  {
    var i := |s.requests| - 1;
    var r := s.requests[i];
    var done := r.(script := false, timeout := false, hook := false, called := r.called + 1, answer := Some(frame));
    Set(s, i, done).(recvStop := None)
  }

  /** Closing the live script: the connection is given the frame, unless it is empty, and the
      next receive starts unless the connection has let go or has thrown. */
  lemma CloseShape<S, E>(c: Consumer<S, E>, s: State<S, E>, frame: Str)
    requires s.requests != [] && !s.isClosing
    requires var r := s.requests[|s.requests| - 1]; r.script && r.aborting == 0
    ensures var answered := Answered(s, frame);
            var (sink, thrown) := if frame == [] then (s.sink, false) else c.line(s.sink, frame);
            var given := if frame == [] then answered else answered.(sink := sink, inputs := s.inputs + [Line(frame)]);
            CloseScript(c, s, |s.requests| - 1, frame) ==
            if frame != [] && c.gone(sink) then (given.(isClosing := true), thrown)
            else if thrown then (given, true)
            else (ScheduleRecv(given), false)
  {
    var i := |s.requests| - 1;
    var r := s.requests[i];
    var s1 := Set(s, i, r.(script := false, timeout := false));
    var s2 := Set(s1, i, s1.requests[i].(hook := false));
    var answered := Answered(s, frame);
    assert CloseScript(c, s, i, frame) == WrapperCallback(c, s1, i, frame) == UserCallback(c, s2, i, frame);
    assert Set(s2, i, s2.requests[i].(called := r.called + 1, answer := Some(frame))).(recvStop := None) == answered;
    if frame != [] {
      var given := answered.(sink := c.line(s.sink, frame).0, inputs := s.inputs + [Line(frame)]);
      if c.gone(given.sink) {
        CleanupShape(c, given);
        assert Feed(c, answered, Line(frame)) == given.(isClosing := true);
      } else {
        assert Feed(c, answered, Line(frame)) == given;
      }
    }
  }

  lemma CloseKeeps<S(!new), E(!new)>(c: Consumer<S, E>, start: S, s: State<S, E>, i: nat, frame: Str)
    requires LetsGo(c) && Inv(c, start, s) && i < |s.requests|
    ensures Inv(c, start, CloseScript(c, s, i, frame).0)
  {
    if s.requests[i].script {
      assert i == |s.requests| - 1 && !s.isClosing;
      CloseShape(c, s, frame);
      AnsweredKeeps(s, frame);
      var answered := Answered(s, frame);
      var t := CloseScript(c, s, i, frame).0;
      if frame != [] {
        var given := answered.(sink := c.line(s.sink, frame).0, inputs := s.inputs + [Line(frame)]);
        assert t == given.(isClosing := true) || t == given || t == ScheduleRecv(given);
        LineServed(c, start, s, frame, t);
      } else {
        assert t == ScheduleRecv(answered);
        assert Served(c, start, t);
      }
    }
  }

  lemma LineServed<S(!new), E(!new)>(c: Consumer<S, E>, start: S, s: State<S, E>, frame: Str, t: State<S, E>)
    requires LetsGo(c) && Inv(c, start, s) && !s.isClosing
    requires t.sink == c.line(s.sink, frame).0 && t.inputs == s.inputs + [Line(frame)]
             && (t.isClosing <==> c.gone(t.sink))
    ensures Served(c, start, t) && RS.LinesOf(t.inputs) == RS.LinesOf(s.inputs) + [frame]
  {
    LineKeeps(c, start, s, frame);
  }

  lemma AnsweredKeeps<S, E>(s: State<S, E>, frame: Str)
    requires OneOutstanding(s) && s.requests[|s.requests| - 1].script
    ensures var t := Answered(s, frame);
            && |t.requests| == |s.requests|
            && (forall i :: 0 <= i < |t.requests| ==> RequestOk(t.requests[i]))
            && !t.requests[|s.requests| - 1].script
            && Answers(t.requests) == Answers(s.requests) + (if frame != [] then [frame] else [])
            && Answers(ScheduleRecv(t).requests) == Answers(t.requests)
            && OneOutstanding(ScheduleRecv(t.(isClosing := false))) && OneOutstanding(t)
  {
    var t := Answered(s, frame);
    AnswersLast(s.requests, t.requests[|s.requests| - 1]);
    AnswersNew(t.requests, Request(true, true, 0, false, false, false, true, 0, None));
  }

  lemma LineKeeps<S(!new), E(!new)>(c: Consumer<S, E>, start: S, s: State<S, E>, frame: Str)
    requires LetsGo(c) && Inv(c, start, s) && !s.isClosing
    ensures var inputs := s.inputs + [Line(frame)];
            && c.line(s.sink, frame).0 == Replay(c, start, inputs) && c.ok(Replay(c, start, inputs))
            && RS.LinesOf(inputs) == RS.LinesOf(s.inputs) + [frame]
            && forall k :: 0 <= k < |inputs| && inputs[k].Line? ==> !c.gone(Replay(c, start, inputs[..k]))
  {
    ReplaySnoc(c, start, s.inputs, Line(frame));
    RS.LinesOfSnoc(s.inputs, Line(frame));
    var inputs := s.inputs + [Line(frame)];
    assert forall k :: 0 <= k <= |s.inputs| ==> inputs[..k] == s.inputs[..k];
    assert s.inputs[..|s.inputs|] == s.inputs;
  }

  // Steps and runs

  /** Only bookkeeping of errors. */
  lemma NoteKeeps<S(!new), E(!new)>(c: Consumer<S, E>, start: S, s: State<S, E>, i: nat, r: Request)
    requires Inv(c, start, s) && i < |s.requests|
    requires var q := s.requests[i];
             r == q.(errorSeen := r.errorSeen, errorTimer := r.errorTimer, loadedOkay := r.loadedOkay)
    ensures Inv(c, start, Set(s, i, r))
  {
    AnswersSame(s.requests, i, r);
  }

  lemma {:induction false} AnswersSame(rs: seq<Request>, i: nat, r: Request)
    requires i < |rs| && r.aborting == rs[i].aborting && r.answer == rs[i].answer
    ensures Answers(rs[i := r]) == Answers(rs)
  {
    var n := |rs| - 1;
    if i == n {
      assert rs[i := r][..n] == rs[..n];
    } else {
      AnswersSame(rs[..n], i, r);
      assert rs[i := r][..n] == rs[..n][i := r];
    }
  }

  lemma StepKeeps<S(!new), E(!new)>(c: Consumer<S, E>, start: S, s: State<S, E>, e: Happening<E>)
    requires LetsGo(c) && Inv(c, start, s)
    ensures Inv(c, start, Step(c, s, e))
  {
    match e
    case External(event) => ExternalKeeps(c, start, s, event);
    case ServerCall(i, frame) =>
      if i < |s.requests| {
        CloseKeeps(c, start, s, i, frame);
      }
    case Load(i) =>
      if i < |s.requests| {
        CloseKeeps(c, start, s, i, CloseText(true));
      }
    case Error(i) =>
      if i < |s.requests| {
        NoteKeeps(c, start, s, i, s.requests[i].(errorSeen := true, errorTimer := true));
      }
    case ErrorTimer(i) =>
      if i < |s.requests| {
        ErrorTimerKeeps(c, start, s, i);
      }
    case ReadyStateChange(i, loaded, onclick) =>
      if i < |s.requests| {
        ReadyStateKeeps(c, start, s, i, loaded, onclick);
      }
    case Timeout(i) =>
      if i < |s.requests| {
        CloseKeeps(c, start, s, i, CloseText(true));
      }
  }

  lemma ErrorTimerKeeps<S(!new), E(!new)>(c: Consumer<S, E>, start: S, s: State<S, E>, i: nat)
    requires LetsGo(c) && Inv(c, start, s) && i < |s.requests|
    ensures Inv(c, start, Step(c, s, ErrorTimer(i)))
  {
    var r := s.requests[i].(errorTimer := false);
    NoteKeeps(c, start, s, i, r);
    CloseKeeps(c, start, Set(s, i, r), i, CloseText(true));
  }

  lemma ReadyStateKeeps<S(!new), E(!new)>(c: Consumer<S, E>, start: S, s: State<S, E>, i: nat, loaded: bool,
                          onclick: Option<Str>)
    requires LetsGo(c) && Inv(c, start, s) && i < |s.requests|
    ensures Inv(c, start, Step(c, s, ReadyStateChange(i, loaded, onclick)))
  {
    if s.requests[i].script && loaded {
      var clicked := s;
      if onclick.Some? {
        var r := s.requests[i].(loadedOkay := true);
        NoteKeeps(c, start, s, i, r);
        CloseKeeps(c, start, Set(s, i, r), i, onclick.value);
        clicked := CallHook(c, Set(s, i, r), i, onclick.value);
      }
      CloseKeeps(c, start, clicked, i, CloseText(true));
    }
  }

  lemma StartInv<S(!new), E(!new)>(c: Consumer<S, E>, sink: S)
    requires c.ok(sink) && !c.gone(sink)
    ensures Inv(c, sink, Start<S, E>(sink))
  {
    AnswersNew([], Request(true, true, 0, false, false, false, true, 0, None));
  }

  lemma {:induction false} RunKeeps<S(!new), E(!new)>(c: Consumer<S, E>, start: S, s: State<S, E>,
                                      es: seq<Happening<E>>)
    requires LetsGo(c) && Inv(c, start, s)
    ensures Inv(c, start, Run(c, s, es))
    decreases |es|
  {
    if es != [] {
      StepKeeps(c, start, s, es[0]);
      RunKeeps(c, start, Step(c, s, es[0]), es[1..]);
    }
  }

  /** After clean-up no receive is started and the connection hears nothing. */
  lemma {:induction false} GoneIsSilent<S(!new), E(!new)>(c: Consumer<S, E>, start: S, s: State<S, E>,
                                          es: seq<Happening<E>>)
    requires LetsGo(c) && Inv(c, start, s) && c.gone(s.sink)
    requires forall i :: 0 <= i < |es| ==> !es[i].External?
    ensures SameHooks(s, Run(c, s, es))
    decreases |es|
  {
    if es != [] {
      StepKeeps(c, start, s, es[0]);
      GoneStep(c, start, s, es[0]);
      GoneIsSilent(c, start, Step(c, s, es[0]), es[1..]);
    }
  }

  /** The connection has heard nothing, no receive was started, no hook touched. */
  ghost predicate SameHooks<S(!new), E(!new)>(s: State<S, E>, t: State<S, E>) {
    && t.sink == s.sink && t.inputs == s.inputs && |t.requests| == |s.requests|
    && forall i :: 0 <= i < |s.requests| ==>
       t.requests[i].hook == s.requests[i].hook && t.requests[i].aborting == s.requests[i].aborting
  }

  lemma GoneStep<S(!new), E(!new)>(c: Consumer<S, E>, start: S, s: State<S, E>, e: Happening<E>)
    requires Inv(c, start, s) && c.gone(s.sink) && !e.External?
    ensures SameHooks(s, Step(c, s, e))
  {
  }

  /** The third case of the wrapper is never reached: an aborted receive keeps its global
      hook for good, even when the server calls it. */
  lemma AbortedHookStays<S(!new), E(!new)>(c: Consumer<S, E>, start: S, s: State<S, E>, event: E, frames: seq<Str>)
    requires LetsGo(c) && Inv(c, start, s) && s.recvStop.Some?
    requires c.gone(c.other(s.sink, event).0)
    ensures var i := |s.requests| - 1;
            var calls := seq(|frames|, k requires 0 <= k < |frames| => ServerCall(i, frames[k]));
            var t := Run(c, Step(c, s, Happening.External(event)), calls);
            i < |t.requests| && t.requests[i].hook && t.requests[i].aborting == 2
  {
    var i := |s.requests| - 1;
    var u := Step(c, s, Happening.External(event));
    StepKeeps(c, start, s, Happening.External(event));
    CleanupShape(c, s.(sink := c.other(s.sink, event).0, inputs := s.inputs + [Other(event)]));
    GoneIsSilent(c, start, u, seq(|frames|, k requires 0 <= k < |frames| => ServerCall(i, frames[k])));
  }
}
