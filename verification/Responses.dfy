/** What the browser reports of the responses of a poll loop, told from its events alone, and
    that the connection is given just that. */
module Responses {
  import opened Text
  import opened Receive
  import opened ReceiveSafety

  /** The responses of status 200 so far, one text for each request, and whether the last
      request has begun and is under way. */
  datatype Reports = Reports(texts: seq<Str>, begun: bool, open: bool)

  function Last(r: Reports): nat
    requires r.texts != []
  {
    |r.texts| - 1
  }

  function Grown(r: Reports, more: Str): (t: Reports)
    requires r.texts != []
    ensures t.texts != []
  {
    r.(texts := r.texts[Last(r) := r.texts[Last(r)] + more])
  }

  /** A request is under way from its beginning to its end. A response of another status has
      no text, and there is no next request after it. */
  function Reported<E>(r: Reports, e: NetEvent<E>): (t: Reports)
    requires r.texts != []
    ensures t.texts != []
  {
    match e
    case Begin(i) => if i == Last(r) && !r.begun then r.(begun := true, open := true) else r
    case Chunk(i, status, more) => if i == Last(r) && r.open && status == 200 then Grown(r, more) else r
    case Finish(i, status, more) =>
      if i != Last(r) || !r.open then r
      else if status == 200 then Reports(Grown(r, more).texts + [[]], false, false)
      else r.(open := false)
    case External(_) => r
  }

  function ReportedAll<E>(r: Reports, es: seq<NetEvent<E>>): (t: Reports)
    requires r.texts != []
    ensures t.texts != []
    decreases |es|
  {
    if es == [] then r else ReportedAll(Reported(r, es[0]), es[1..])
  }

  const NOTHING: Reports := Reports([[]], false, false)

  /** The complete lines of all responses that the browser reports. */
  function Lines<E>(es: seq<NetEvent<E>>): seq<Str> {
    AllLines(ReportedAll(NOTHING, es).texts)
  }

  // The lines only grow

  lemma AllLinesSnoc(texts: seq<Str>, text: Str)
    ensures AllLines(texts + [text]) == AllLines(texts) + CompleteLines(text)
  {
    assert (texts + [text])[..|texts|] == texts;
  }

  lemma GrownLines(r: Reports, more: Str)
    requires r.texts != []
    ensures AllLines(r.texts) <= AllLines(Grown(r, more).texts)
  {
    var n := Last(r);
    AllLinesLast(r.texts, r.texts[n] + more);
    MoreLines(r.texts[n], more);
    LongerEnd(AllLines(r.texts[..n]), CompleteLines(r.texts[n]), CompleteLines(r.texts[n] + more));
  }

  lemma LongerEnd<T>(a: seq<T>, b: seq<T>, c: seq<T>)
    requires b <= c
    ensures a + b <= a + c
  {
  }

  /** A text that grows keeps its complete lines. */
  lemma MoreLines(text: Str, more: Str)
    ensures CompleteLines(text) <= CompleteLines(text + more)
  {
    var tail := Anatomy(text);
    var lines := CompleteLines(text);
    LinesOfUnlines(lines, tail + more);
    Assoc(Unlines(lines), tail, more);
  }

  lemma ReportedLines<E>(r: Reports, e: NetEvent<E>)
    requires r.texts != []
    ensures AllLines(r.texts) <= AllLines(Reported(r, e).texts)
  {
    match e
    case Begin(_) =>
    case Chunk(_, _, more) => GrownLines(r, more);
    case Finish(_, _, more) =>
      GrownLines(r, more);
      AllLinesSnoc(Grown(r, more).texts, []);
    case External(_) =>
  }

  // The poll loop follows the reports

  /** The poll loop knows what was reported. */
  ghost predicate Follows<S, E>(p: Poll<S, E>, r: Reports) {
    && |p.receivers| == |p.texts| > 0 && p.texts == r.texts
    && p.receivers[|p.receivers| - 1].started == r.begun && p.receivers[|p.receivers| - 1].open == r.open
  }

  /** It has stopped for good: it was aborted, or an exception has left it with no request. */
  ghost predicate Stopped<S(!new), E(!new)>(p: Poll<S, E>) {
    p.receivers != [] && (p.isClosing || (Over(p) && p.interrupted))
  }

  ghost predicate Tied<S(!new), E(!new)>(p: Poll<S, E>, r: Reports) {
    && r.texts != []
    && (Follows(p, r) || (Stopped(p) && AllLines(p.texts) <= AllLines(r.texts)))
  }

  /** A chunk that the connection survives leaves the request as it was. */
  lemma ChunkLeaves<S(!new), E(!new)>(c: Consumer<S, E>, start: S, p: Poll<S, E>, more: Str)
    requires LetsGo(c) && Inv(c, start, p) && !p.isClosing
    ensures var i := |p.receivers| - 1;
            var q := OnChunk(c, p, i, 200, more).0;
            && q.texts == p.texts[i := p.texts[i] + more] && |q.receivers| == |p.receivers|
            && (!q.isClosing ==>
                  q.receivers[i].started == p.receivers[i].started && q.receivers[i].open == p.receivers[i].open)
  {
    var i := |p.receivers| - 1;
    var grown := p.(texts := p.texts[i := p.texts[i] + more]);
    var lines := CompleteLines(Unread(grown, i));
    FeedLinesShape(c, grown, i, lines);
    var (q, n, thrown) := FeedLines(c, grown, i, lines);
    AfterFacts(c, grown, i, Extent(if thrown then lines[..n] else lines), q);
  }

  /** The poll loop after more of the response. */
  lemma FollowsGrown<S(!new), E(!new)>(p: Poll<S, E>, q: Poll<S, E>, r: Reports, more: Str)
    requires Follows(p, r) && |q.receivers| == |p.receivers|
    requires var i := |p.receivers| - 1;
             && q.texts == p.texts[i := p.texts[i] + more]
             && (!q.isClosing ==>
                   q.receivers[i].started == p.receivers[i].started && q.receivers[i].open == p.receivers[i].open)
    ensures Tied(q, Grown(r, more))
  {
  }

  lemma ChunkFollows<S(!new), E(!new)>(c: Consumer<S, E>, start: S, p: Poll<S, E>, r: Reports, i: nat, status: int,
                                       more: Str)
    requires LetsGo(c) && Inv(c, start, p) && Follows(p, r) && !p.isClosing
    ensures Tied(Step(c, p, Chunk(i, status, more)), Reported(r, NetEvent<E>.Chunk(i, status, more)))
  {
    var last := |p.receivers| - 1;
    if i == last && r.open && status == 200 {
      ChunkLeaves(c, start, p, more);
      FollowsGrown(p, OnChunk(c, p, last, 200, more).0, r, more);
      assert Step(c, p, Chunk(i, status, more)) == OnChunk(c, p, last, 200, more).0;
    } else {
      IdleChunk(c, start, p, i, status, more);
    }
  }

  lemma IdleChunk<S(!new), E(!new)>(c: Consumer<S, E>, start: S, p: Poll<S, E>, i: nat, status: int, more: Str)
    requires Inv(c, start, p)
    requires i != |p.receivers| - 1 || !p.receivers[i].open || status != 200
    ensures Step(c, p, Chunk(i, status, more)) == p
  {
  }

  lemma FinishFollows<S(!new), E(!new)>(c: Consumer<S, E>, start: S, p: Poll<S, E>, r: Reports, i: nat, status: int,
                                        more: Str)
    requires LetsGo(c) && Inv(c, start, p) && Follows(p, r) && !p.isClosing
    ensures Tied(Step(c, p, Finish(i, status, more)), Reported(r, NetEvent<E>.Finish(i, status, more)))
  {
    if i < |p.receivers| && p.receivers[i].open {
      if status == 200 {
        GoodFinishFollows(c, start, p, r, more);
      } else {
        FinishBadShape(c, p, i, status, more);
        LostReplays(c, start, Ended(Done(p, i)));
      }
    }
  }

  /** The last chunk of a good response, and what follows it. */
  lemma GoodFinish<S(!new), E(!new)>(c: Consumer<S, E>, start: S, p: Poll<S, E>, more: Str, q: Poll<S, E>)
    requires LetsGo(c) && Inv(c, start, p) && !p.isClosing && p.receivers[|p.receivers| - 1].started
    requires q == OnChunk(c, Done(p, |p.receivers| - 1), |p.receivers| - 1, 200, more).0
    ensures var i := |p.receivers| - 1;
            && |q.receivers| == |q.texts| > 0 && q.texts == p.texts[i := p.texts[i] + more]
            && (!q.isClosing ==> q.receivers[|q.receivers| - 1].started && !q.receivers[|q.receivers| - 1].open)
            && OnFinish(c, p, i, 200, more) == if q.interrupted || q.isClosing then q else ScheduleRecv(Ended(q))
  {
    DoneKeeps(c, start, p);
    ChunkKeeps(c, start, Done(p, |p.receivers| - 1), more);
    ChunkLeaves(c, start, Done(p, |p.receivers| - 1), more);
    FinishShape(c, p, |p.receivers| - 1, more);
  }

  lemma GoodFinishFollows<S(!new), E(!new)>(c: Consumer<S, E>, start: S, p: Poll<S, E>, r: Reports, more: Str)
    requires LetsGo(c) && Inv(c, start, p) && Follows(p, r) && !p.isClosing && p.receivers[|p.receivers| - 1].open
    ensures Tied(OnFinish(c, p, |p.receivers| - 1, 200, more), Reported(r, NetEvent<E>.Finish(Last(r), 200, more)))
  {
    var i := |p.receivers| - 1;
    var q := OnChunk(c, Done(p, i), i, 200, more).0;
    GoodFinish(c, start, p, more, q);
    GoodEnd(q, OnFinish(c, p, i, 200, more), Grown(r, more));
  }

  lemma GoodEnd<S(!new), E(!new)>(q: Poll<S, E>, result: Poll<S, E>, r: Reports)
    requires |q.receivers| == |q.texts| > 0 && q.texts == r.texts
    requires !q.isClosing ==> q.receivers[|q.receivers| - 1].started && !q.receivers[|q.receivers| - 1].open
    requires result == if q.interrupted || q.isClosing then q else ScheduleRecv(Ended(q))
    ensures Tied(result, Reports(r.texts + [[]], false, false))
  {
    if q.interrupted || q.isClosing {
      StoppedAtEnd(q, r);
    } else {
      NextFollows(q, r);
    }
  }

  lemma StoppedAtEnd<S(!new), E(!new)>(q: Poll<S, E>, r: Reports)
    requires |q.receivers| == |q.texts| > 0 && q.texts == r.texts && (q.isClosing || q.interrupted)
    requires q.receivers[|q.receivers| - 1].started && !q.isClosing ==> !q.receivers[|q.receivers| - 1].open
    requires !q.isClosing ==> q.receivers[|q.receivers| - 1].started
    ensures Tied(q, Reports(r.texts + [[]], false, false))
  {
    AllLinesSnoc(r.texts, []);
    assert AllLines(r.texts) + [] == AllLines(r.texts);
  }

  lemma NextFollows<S, E>(q: Poll<S, E>, r: Reports)
    requires |q.receivers| == |q.texts| > 0 && q.texts == r.texts
    ensures Follows(ScheduleRecv(Ended(q)), Reports(r.texts + [[]], false, false))
  {
  }

  lemma BeginFollows<S(!new), E(!new)>(c: Consumer<S, E>, start: S, p: Poll<S, E>, r: Reports, i: nat)
    requires Inv(c, start, p) && Follows(p, r)
    ensures Follows(Step(c, p, NetEvent<E>.Begin(i)), Reported(r, NetEvent<E>.Begin(i)))
  {
  }

  lemma FollowsStep<S(!new), E(!new)>(c: Consumer<S, E>, start: S, p: Poll<S, E>, r: Reports, e: NetEvent<E>)
    requires LetsGo(c) && Inv(c, start, p) && Follows(p, r) && !p.isClosing
    ensures Tied(Step(c, p, e), Reported(r, e))
  {
    match e
    case Begin(i) => BeginFollows(c, start, p, r, i);
    case Chunk(i, status, more) => ChunkFollows(c, start, p, r, i, status, more);
    case Finish(i, status, more) => FinishFollows(c, start, p, r, i, status, more);
    case External(event) => OtherShape(c, p, event);
  }

  lemma StoppedStep<S(!new), E(!new)>(c: Consumer<S, E>, start: S, p: Poll<S, E>, e: NetEvent<E>)
    requires LetsGo(c) && Inv(c, start, p) && Stopped(p)
    ensures Stopped(Step(c, p, e)) && Step(c, p, e).texts == p.texts
  {
    if e.External? {
      OtherShape(c, p, e.event);
      OtherReplays(c, start, p, e.event);
    } else if p.isClosing {
      GoneStep(c, start, p, e);
    } else {
      OverMeansIdle(c, start, p);
      IdleStep(c, p, e);
    }
  }

  lemma TiedStep<S(!new), E(!new)>(c: Consumer<S, E>, start: S, p: Poll<S, E>, r: Reports, e: NetEvent<E>)
    requires LetsGo(c) && Inv(c, start, p) && Tied(p, r)
    ensures Tied(Step(c, p, e), Reported(r, e))
  {
    if Stopped(p) {
      StoppedStep(c, start, p, e);
      ReportedLines(r, e);
    } else {
      FollowsStep(c, start, p, r, e);
    }
  }

  lemma {:induction false} RunTied<S(!new), E(!new)>(c: Consumer<S, E>, start: S, p: Poll<S, E>, r: Reports,
                                                     es: seq<NetEvent<E>>)
    requires LetsGo(c) && Inv(c, start, p) && Tied(p, r)
    ensures Tied(Run(c, p, es), ReportedAll(r, es))
    decreases |es|
  {
    if es != [] {
      StepKeeps(c, start, p, es[0]);
      TiedStep(c, start, p, r, es[0]);
      RunTied(c, start, Step(c, p, es[0]), Reported(r, es[0]), es[1..]);
    }
  }

  /** However responses are cut into chunks and over however many requests, the connection is
      given the complete lines that the browser reports, in order and once each, until it lets
      go of the transport. Until then it was given all of them, but for what an exception in
      its own handler has left unread. */
  lemma LinesArrive<S(!new), E(!new)>(c: Consumer<S, E>, sink: S, es: seq<NetEvent<E>>)
    requires LetsGo(c) && c.ok(sink) && !c.gone(sink)
    ensures var p := Run(c, Start<S, E>(sink), es);
            && Arrived(c, sink, p)
            && LinesOf(p.inputs) <= Lines(es)
            && (!c.gone(p.sink) && !p.interrupted ==> LinesOf(p.inputs) == Lines(es))
  {
    StartInv<S, E>(c, sink);
    RunKeeps(c, sink, Start(sink), es);
    InvArrived(c, sink, Run(c, Start<S, E>(sink), es));
    RunTied(c, sink, Start(sink), NOTHING, es);
  }

  ghost predicate GivenLines<S, E>(p: Poll<S, E>, q: Poll<S, E>) {
    exists lines :: q.inputs == p.inputs + AsInputs(lines)
  }

  /** The end of a request tells the connection of a loss if and only if its status is not 200;
      what the connection is told otherwise are lines. */
  lemma LostIff<S(!new), E(!new)>(c: Consumer<S, E>, start: S, p: Poll<S, E>, status: int, more: Str)
    requires LetsGo(c) && Inv(c, start, p) && !p.isClosing && p.receivers[|p.receivers| - 1].open
    ensures var q := Step(c, p, Finish(|p.receivers| - 1, status, more));
            if status == 200 then GivenLines(p, q) else q.inputs == p.inputs + [Lost] && q.isClosing
  {
    var i := |p.receivers| - 1;
    assert Step(c, p, Finish(i, status, more)) == OnFinish(c, p, i, status, more);
    if status != 200 {
      FinishBadShape(c, p, i, status, more);
      LostReplays(c, start, Ended(Done(p, i)));
    } else {
      GoodFinishGivesLines(c, start, p, more);
    }
  }

  lemma GoodFinishGivesLines<S(!new), E(!new)>(c: Consumer<S, E>, start: S, p: Poll<S, E>, more: Str)
    requires LetsGo(c) && Inv(c, start, p) && !p.isClosing
    ensures GivenLines(p, OnFinish(c, p, |p.receivers| - 1, 200, more))
  {
    var i := |p.receivers| - 1;
    DoneKeeps(c, start, p);
    FinishShape(c, p, i, more);
    ChunkKeeps(c, start, Done(p, i), more);
    ChunkGivesLines(c, start, Done(p, i), more);
    var q := OnChunk(c, Done(p, i), i, 200, more).0;
    assert OnFinish(c, p, i, 200, more).inputs == q.inputs;
  }

  lemma ChunkGivesLines<S(!new), E(!new)>(c: Consumer<S, E>, start: S, p: Poll<S, E>, more: Str)
    requires LetsGo(c) && Inv(c, start, p) && !p.isClosing
    ensures GivenLines(p, OnChunk(c, p, |p.receivers| - 1, 200, more).0)
  {
    var i := |p.receivers| - 1;
    var grown := p.(texts := p.texts[i := p.texts[i] + more]);
    var lines := CompleteLines(Unread(grown, i));
    FeedLinesShape(c, grown, i, lines);
    assert OnChunk(c, p, i, 200, more).0.inputs == p.inputs + AsInputs(lines[..FeedLines(c, grown, i, lines).1]);
  }
}
