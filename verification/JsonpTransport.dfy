/** The JSONP transport as an object: `close_script`, the callbacks of `jsonPReceiverWrapper` and
    `doCleanup` call each other, down to a clean-up inside a callback. */
module JsonpTransport {
  import opened Text
  import opened Receive
  import J = Jsonp

  class JsonPTransport<S(!new), E(!new)> {
    const consumer: Consumer<S, E>
    var sink: S
    var isClosing: bool
    var recvStop: Option<nat>
    var requests: seq<J.Request>
    ghost const first: S
    ghost var inputs: seq<Input<E>>

    ghost function Abstract(): J.State<S, E>
      reads this
    {
      J.State(sink, isClosing, recvStop, requests, inputs)
    }

    ghost predicate Valid()
      reads this
    {
      LetsGo(consumer) && J.Inv(consumer, first, Abstract())
    }

    constructor (consumer: Consumer<S, E>, sink: S)
      requires LetsGo(consumer) && consumer.ok(sink) && !consumer.gone(sink)
      ensures Valid() && Abstract() == J.Start(sink) && this.consumer == consumer
    {
      this.consumer, this.sink, first, isClosing, inputs := consumer, sink, sink, false, [];
      recvStop, requests := Some(0), [J.Request(true, true, 0, false, false, false, true, 0, None)];
      J.StartInv<S, E>(consumer, sink);
    }

    method ScheduleReceive()
      modifies this
      ensures Abstract() == J.ScheduleRecv(old(Abstract()))
    {
      recvStop := Some(|requests|);
      requests := requests + [J.Request(true, true, 0, false, false, false, true, 0, None)];
    }

    method CloseScript(i: nat, frame: Str) returns (thrown: bool)
      requires i < |requests|
      modifies this
      ensures (Abstract(), thrown) == J.CloseScript(consumer, old(Abstract()), i, frame)
      decreases J.Level(Abstract()), 4
    {
      if !requests[i].script {
        return false;
      }
      requests := requests[i := requests[i].(script := false, timeout := false)];
      thrown := WrapperCallback(i, frame);
    }

    method WrapperCallback(i: nat, frame: Str) returns (thrown: bool)
      requires i < |requests|
      modifies this
      ensures (Abstract(), thrown) == J.WrapperCallback(consumer, old(Abstract()), i, frame)
      decreases J.Level(Abstract()), 3
    {
      thrown := false;
      if requests[i].aborting == 0 {
        requests := requests[i := requests[i].(hook := false)];
        thrown := UserCallback(i, frame);
      } else if requests[i].aborting == 1 {
        thrown := UserCallback(i, frame);
        if !thrown {
          requests := requests[i := requests[i].(aborting := 2)];
        }
      } else {
        requests := requests[i := requests[i].(hook := false)];
      }
    }

    method UserCallback(i: nat, data: Str) returns (thrown: bool)
      requires i < |requests|
      modifies this
      ensures (Abstract(), thrown) == J.UserCallback(consumer, old(Abstract()), i, data)
      decreases J.Level(Abstract()), 2
    {
      requests := requests[i := requests[i].(called := requests[i].called + 1, answer := Some(data))];
      recvStop := None;
      thrown := false;
      if data != [] && !isClosing {
        thrown := Give(Line(data));
        if thrown {
          return;
        }
      }
      if !isClosing {
        ScheduleReceive();
      }
    }

    /** A call of the connection above; its `doCleanup` comes back while the call runs. */
    method Give(input: Input<E>) returns (thrown: bool)
      modifies this
      ensures Abstract() == J.Feed(consumer, old(Abstract()), input)
      ensures thrown == Consume(consumer, old(sink), input).1
      decreases J.Level(Abstract()), 1
    {
      var (next, t) := Consume(consumer, sink, input);
      sink, thrown := next, t;
      inputs := inputs + [input];
      if consumer.gone(sink) && !isClosing {
        DoCleanup();
      }
    }

    method DoCleanup()
      requires !isClosing
      modifies this
      ensures Abstract() == J.DoCleanup(consumer, old(Abstract()))
      decreases 1, 0
    {
      isClosing := true;
      if recvStop.Some? && recvStop.value < |requests| {
        Stop(recvStop.value);
      }
      recvStop := None;
    }

    method Stop(i: nat)
      requires i < |requests| && isClosing
      modifies this
      ensures Abstract() == J.Stop(consumer, old(Abstract()), i)
      decreases 0, 5
    {
      if requests[i].hook {
        requests := requests[i := requests[i].(aborting := 1)];
        var thrown := CloseScript(i, J.CloseText(false));
      }
    }

    method OnServerCall(i: nat, frame: Str)
      requires Valid() && i < |requests|
      modifies this
      ensures Valid() && Abstract() == J.Step(consumer, old(Abstract()), J.ServerCall(i, frame))
    {
      J.StepKeeps(consumer, first, Abstract(), J.ServerCall(i, frame));
      if requests[i].hook {
        var thrown := CloseScript(i, frame);
      }
    }

    method OnLoad(i: nat)
      requires Valid() && i < |requests|
      modifies this
      ensures Valid() && Abstract() == J.Step(consumer, old(Abstract()), J.Load(i))
    {
      J.StepKeeps(consumer, first, Abstract(), J.Load(i));
      if requests[i].script {
        var thrown := CloseScript(i, J.CloseText(true));
      }
    }

    method OnError(i: nat)
      requires Valid() && i < |requests|
      modifies this
      ensures Valid() && Abstract() == J.Step(consumer, old(Abstract()), J.Error(i))
    {
      J.StepKeeps(consumer, first, Abstract(), J.Error(i));
      if requests[i].script && !requests[i].errorSeen {
        requests := requests[i := requests[i].(errorSeen := true, errorTimer := true)];
      }
    }

    method OnErrorTimer(i: nat)
      requires Valid() && i < |requests| && requests[i].errorTimer
      modifies this
      ensures Valid() && Abstract() == J.Step(consumer, old(Abstract()), J.ErrorTimer(i))
    {
      J.StepKeeps(consumer, first, Abstract(), J.ErrorTimer(i));
      requests := requests[i := requests[i].(errorTimer := false)];
      if !requests[i].loadedOkay {
        var thrown := CloseScript(i, J.CloseText(true));
      }
    }

    method OnReadyStateChange(i: nat, loaded: bool, onclick: Option<Str>)
      requires Valid() && i < |requests|
      modifies this
      ensures Valid() && Abstract() == J.Step(consumer, old(Abstract()), J.ReadyStateChange(i, loaded, onclick))
    {
      J.StepKeeps(consumer, first, Abstract(), J.ReadyStateChange(i, loaded, onclick));
      if requests[i].script && loaded {
        if onclick.Some? {
          requests := requests[i := requests[i].(loadedOkay := true)];
          if requests[i].hook {
            var thrown := CloseScript(i, onclick.value);
          }
        }
        if requests[i].script {
          var thrown := CloseScript(i, J.CloseText(true));
        }
      }
    }

    method OnTimeout(i: nat)
      requires Valid() && i < |requests| && requests[i].timeout
      modifies this
      ensures Valid() && Abstract() == J.Step(consumer, old(Abstract()), J.Timeout(i))
    {
      J.StepKeeps(consumer, first, Abstract(), J.Timeout(i));
      var thrown := CloseScript(i, J.CloseText(true));
    }

    method OnExternal(event: E)
      requires Valid()
      modifies this
      ensures Valid() && Abstract() == J.Step(consumer, old(Abstract()), J.Happening.External(event))
    {
      J.StepKeeps(consumer, first, Abstract(), J.Happening.External(event));
      var thrown := Give(Other(event));
    }
  }
}
