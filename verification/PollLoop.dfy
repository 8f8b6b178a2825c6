/** The receiver and the poll loop as objects with fields. */
module PollLoop {
  import opened Text
  import opened Receive
  import Safety = ReceiveSafety

  /** What is left of the loop after its next line. */
  function Rest<S, E>(c: Consumer<S, E>, p: Poll<S, E>, i: nat): (Poll<S, E>, bool)
    requires i < |p.receivers| == |p.texts|
  {
    var r := FeedLines(c, p, i, CompleteLines(Unread(p, i)));
    (r.0, r.2)
  }

  /** The poll loop after the next line, and whether an exception was thrown. */
  function LineTaken<S, E>(c: Consumer<S, E>, p: Poll<S, E>, i: nat): (Poll<S, E>, bool)
    requires i < |p.receivers| == |p.texts| && LF in Unread(p, i)
  {
    var n := IndexOf(Unread(p, i), LF);
    var line := Unread(p, i)[..n];
    var moved := Moved(p, i, n + 1);
    if p.receivers[i].attached then (Feed(c, moved, Line(line)), c.line(p.sink, line).1) else (moved, false)
  }

  lemma NextLine<S, E>(c: Consumer<S, E>, p: Poll<S, E>, i: nat)
    requires i < |p.receivers| == |p.texts| && LF in Unread(p, i)
    ensures var (q, thrown) := LineTaken(c, p, i);
            && |q.receivers| == |q.texts| == |p.texts| && q.texts == p.texts && q.interrupted == p.interrupted
            && |Unread(q, i)| < |Unread(p, i)|
            && Rest(c, p, i) == if thrown then (q, true) else Rest(c, q, i)
  {
    var unread := Unread(p, i);
    var n := IndexOf(unread, LF);
    var line, rest := unread[..n], unread[n + 1..];
    ConsLine(line, rest);
    assert unread == line + [LF] + rest;
    var lines := CompleteLines(unread);
    assert lines == [line] + CompleteLines(rest) && lines[1..] == CompleteLines(rest);
    var moved := Moved(p, i, n + 1);
    FedUnread(c, moved, i, Line(line));
    assert Unread(moved, i) == rest;
  }

  lemma NothingLeft<S, E>(c: Consumer<S, E>, p: Poll<S, E>, i: nat)
    requires i < |p.receivers| == |p.texts| && LF !in Unread(p, i)
    ensures Rest(c, p, i) == (p, false)
  {
    NoLine(Unread(p, i));
  }

  lemma FedUnread<S, E>(c: Consumer<S, E>, p: Poll<S, E>, i: nat, input: Input<E>)
    requires i < |p.receivers| == |p.texts|
    ensures Unread(Feed(c, p, input), i) == Unread(p, i)
  {
  }

  class Polling<S(!new), E(!new)> {
    const consumer: Consumer<S, E>
    var sink: S
    var isClosing: bool
    var current: Option<nat>
    var receivers: seq<Receiver>
    var closes: nat
    var interrupted: bool
    ghost const first: S
    ghost var texts: seq<Str>
    ghost var inputs: seq<Input<E>>

    ghost function Abstract(): Poll<S, E>
      reads this
    {
      Poll(sink, isClosing, current, receivers, closes, texts, inputs, interrupted)
    }

    ghost predicate Valid()
      reads this
    {
      LetsGo(consumer) && Safety.Inv(consumer, first, Abstract())
    }

    constructor (consumer: Consumer<S, E>, sink: S)
      requires LetsGo(consumer) && consumer.ok(sink) && !consumer.gone(sink)
      ensures Valid() && Abstract() == Start(sink) && this.consumer == consumer
    {
      this.consumer, this.sink, first := consumer, sink, sink;
      isClosing, closes, interrupted, inputs := false, 0, false, [];
      current, receivers, texts := Some(0), [Receiver(0, true, true, false, false)], [[]];
      Safety.StartInv<S, E>(consumer, sink);
    }

    method ScheduleReceive()
      modifies this
      ensures Abstract() == ScheduleRecv(old(Abstract()))
    {
      current := Some(|receivers|);
      receivers, texts := receivers + [Receiver(0, true, true, false, false)], texts + [[]];
    }

    method AbortPoll()
      modifies this
      requires !isClosing
      ensures Abstract() == Abort(consumer, old(Abstract()))
      decreases Level(Abstract()), 0
    {
      isClosing := true;
      if current.Some? && current.value < |receivers| && receivers[current.value].xo {
        AbortReceiver(current.value);
      }
    }

    /** `XhrReceiver.abort`: the request is closed, and the poll loop told so at once. */
    method AbortReceiver(i: nat)
      requires isClosing && i < |receivers|
      modifies this
      ensures var p := old(Abstract());
              var closed := p.(receivers := p.receivers[i := p.receivers[i].(open := false)]);
              var told := if p.receivers[i].attached then Receive.OnClose(consumer, closed, i, false) else closed;
              Abstract() == told.(receivers := told.receivers[i := told.receivers[i].(xo := false)])
      decreases Level(Abstract()), 3
    {
      receivers := receivers[i := receivers[i].(open := false)];
      if receivers[i].attached {
        OnClose(i, false);
      }
      receivers := receivers[i := receivers[i].(xo := false)];
    }

    /** A call of the connection above; its `doCleanup` comes back as an abort. */
    method Give(input: Input<E>) returns (thrown: bool)
      modifies this
      ensures Abstract() == Feed(consumer, old(Abstract()), input)
      ensures thrown == Consume(consumer, old(sink), input).1
      decreases Level(Abstract()), 1
    {
      var (next, t) := Consume(consumer, sink, input);
      sink, thrown := next, t;
      inputs := inputs + [input];
      if consumer.gone(sink) && !isClosing {
        AbortPoll();
      }
    }

    /** The body of the loop of `onchunk`: the next line, if it is complete. */
    method TakeLine(i: nat, text: Str) returns (found: bool, thrown: bool)
      requires i < |receivers| == |texts| && texts[i] == text
      modifies this
      ensures found <==> LF in old(Unread(Abstract(), i))
      ensures !found ==> !thrown && Abstract() == old(Abstract())
      ensures found ==> (Abstract(), thrown) == LineTaken(consumer, old(Abstract()), i)
    {
      thrown := false;
      var pos := receivers[i].bufPos;
      var buf := if pos <= |text| then text[pos..] else [];
      var p := IndexOf(buf, LF);
      if p == -1 {
        return false, false;
      }
      found := true;
      receivers := receivers[i := receivers[i].(bufPos := pos + p + 1)];
      assert Abstract() == Moved(old(Abstract()), i, p + 1);
      if receivers[i].attached {
        thrown := Give(Line(buf[..p]));
      }
    }

    method OnChunk(i: nat, status: int, text: Str) returns (thrown: bool)
      requires i < |receivers| == |texts| && texts[i] <= text
      modifies this
      ensures (Abstract(), thrown) == Receive.OnChunk(consumer, old(Abstract()), i, status, text[|old(texts)[i]|..])
    {
      if status != 200 {
        return false;
      }
      assert texts[i] + text[|texts[i]|..] == text;
      texts := texts[i := text];
      ghost var result := Rest(consumer, Abstract(), i);
      var found := true;
      thrown := false;
      while found && !thrown
        invariant i < |receivers| == |texts| && texts[i] == text && interrupted == old(interrupted)
        invariant result == if thrown then (Abstract(), true) else Rest(consumer, Abstract(), i)
        invariant !found ==> !thrown && result == (Abstract(), false)
        decreases found && !thrown, |Unread(Abstract(), i)|
      {
        ghost var before := Abstract();
        found, thrown := TakeLine(i, text);
        if found {
          NextLine(consumer, before, i);
        } else {
          NothingLeft(consumer, before, i);
        }
      }
      interrupted := thrown;
    }

    method OnClose(i: nat, permanent: bool)
      requires i < |receivers|
      modifies this
      ensures Abstract() == Receive.OnClose(consumer, old(Abstract()), i, permanent)
      decreases Level(Abstract()), 2
    {
      current, closes := None, closes + 1;
      receivers := receivers[i := receivers[i].(attached := false)];
      if !isClosing {
        if permanent {
          var thrown := Give(Lost);
        } else {
          ScheduleReceive();
        }
      }
    }

    method OnFinish(i: nat, status: int, text: Str)
      requires i < |receivers| == |texts| && texts[i] <= text
      modifies this
      ensures Abstract() == Receive.OnFinish(consumer, old(Abstract()), i, status, text[|old(texts)[i]|..])
    {
      receivers := receivers[i := receivers[i].(open := false)];
      var thrown := OnChunk(i, status, text);
      if thrown {
        return;
      }
      var attached := receivers[i].attached;
      receivers := receivers[i := receivers[i].(xo := false)];
      if attached {
        OnClose(i, status != 200);
      }
    }

    /** One report of the browser keeps the invariant. */
    method OnProgress(i: nat, status: int, text: Str, finished: bool)
      requires Valid() && i < |receivers| && texts[i] <= text
      modifies this
      ensures Valid()
      ensures var more := text[|old(texts)[i]|..];
              var e := if finished then Finish(i, status, more) else Chunk(i, status, more);
              Abstract() == Step(consumer, old(Abstract()), e)
    {
      ghost var more := text[|texts[i]|..];
      ghost var e := if finished then Finish(i, status, more) else Chunk(i, status, more);
      Safety.StepKeeps(consumer, first, Abstract(), e);
      if receivers[i].open {
        if receivers[i].xo {
          if finished {
            OnFinish(i, status, text);
          } else {
            var thrown := OnChunk(i, status, text);
          }
        } else if finished {
          receivers := receivers[i := receivers[i].(open := false)];
        }
      }
    }

    /** The delayed start of a request; closing it before has not cancelled that. */
    method OnBegin(i: nat)
      requires Valid()
      modifies this
      ensures Valid() && Abstract() == Step(consumer, old(Abstract()), NetEvent<E>.Begin(i))
    {
      Safety.BeginKeeps(consumer, first, Abstract(), i);
      if i < |receivers| && !receivers[i].started {
        receivers := receivers[i := receivers[i].(started := true, open := true)];
      }
    }

    /** `doCleanup`, or anything else that happens to the connection. */
    method OnExternal(event: E)
      requires Valid()
      modifies this
      ensures Valid() && Abstract() == Feed(consumer, old(Abstract()), Other(event))
    {
      Safety.ExternalKeeps(consumer, first, Abstract(), event);
      var thrown := Give(Other(event));
    }
  }
}
