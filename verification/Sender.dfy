/** The batching sender under the polling transports: `BufferedSender` with the
    asynchronous sender of `createAjaxSender`. */
module Sender {
  import opened Text

  /** `stopped` says that `send_stop` is set; `inFlight` and `timers` count the POSTs that
      have not completed and the 25 ms timers that have not fired. */
  datatype State = State(
    buffer: seq<Str>,
    stopped: bool,
    inFlight: nat,
    timers: nat,
    posts: seq<seq<Str>>,
    failed: bool)

  datatype Action = Send(message: Str) | Completed(success: bool) | TimerFired

  const Initial := State([], false, 0, 0, [], false)

  /** `'[' + send_buffer.join(',') + ']'` */
  function Payload(batch: seq<Str>): Str {
    [LBRACKET] + Join(batch, COMMA) + [RBRACKET]
  }

  function Payloads(posts: seq<seq<Str>>): (texts: seq<Str>)
    ensures |texts| == |posts| && forall i :: 0 <= i < |posts| ==> texts[i] == Payload(posts[i])
  {
    if posts == [] then [] else [Payload(posts[0])] + Payloads(posts[1..])
  }

  function Schedule(s: State): State {
    if s.buffer == [] then s
    else s.(buffer := [], stopped := true, inFlight := s.inFlight + 1, posts := s.posts + [s.buffer])
  }

  /** One call or callback. A completion or a timer that is not outstanding cannot occur. */
  function Step(s: State, a: Action): State {
    match a
    case Send(message) =>
      var pushed := s.(buffer := s.buffer + [message]);
      if s.stopped then pushed else Schedule(pushed)
    case Completed(success) =>
      if s.inFlight == 0 then s
      else
        var done := s.(inFlight := s.inFlight - 1, stopped := false);
        if success then done.(stopped := true, timers := s.timers + 1) else done.(failed := true)
    case TimerFired =>
      if s.timers == 0 then s else Schedule(s.(timers := s.timers - 1, stopped := false))
  }

  function Run(s: State, actions: seq<Action>): State
    decreases |actions|
  {
    if actions == [] then s else Run(Step(s, actions[0]), actions[1..])
  }

  /** What `doSend` was given, in order. */
  function Given(actions: seq<Action>): seq<Str> {
    if actions == [] then []
    else (if actions[0].Send? then [actions[0].message] else []) + Given(actions[1..])
  }

  /** At most one POST is in flight, never beside a timer, and `send_stop` is set exactly
      while there is one or the other. Until a POST fails, nothing is kept back without
      one of them to send it. No POST is empty. */
  ghost predicate Inv(s: State) {
    && s.inFlight + s.timers <= 1
    && (s.stopped <==> s.inFlight + s.timers == 1)
    && (!s.failed && !s.stopped ==> s.buffer == [])
    && forall i :: 0 <= i < |s.posts| ==> s.posts[i] != []
  }

  lemma StepKeeps(s: State, a: Action)
    requires Inv(s)
    ensures Inv(Step(s, a))
    ensures Flatten(Step(s, a).posts) + Step(s, a).buffer == Flatten(s.posts) + s.buffer + Given([a])
    ensures s.posts <= Step(s, a).posts
  {
    var pushed := if a.Send? then s.buffer + [a.message] else s.buffer;
    FlattenSnoc(s.posts, pushed);
    assert Given([a][1..]) == [];
  }

  /** A POST is made by a message when none is under way and no wait is on, or when a wait ends
      with messages there, and takes all of them. A POST that succeeds is followed by a wait,
      one that fails by nothing. */
  lemma PostsIff(s: State, a: Action)
    requires Inv(s)
    ensures var t := Step(s, a);
            && (|t.posts| > |s.posts|
                <==> || (a.Send? && s.inFlight == 0 && s.timers == 0)
                     || (a.TimerFired? && s.timers == 1 && s.buffer != []))
            && (if |t.posts| > |s.posts| then
                  t.posts == s.posts + [s.buffer + Given([a])] && t.buffer == [] && t.inFlight == 1
                else t.posts == s.posts && t.buffer == s.buffer + Given([a]))
            && (s.timers == 0 && t.timers == 1 <==> a == Completed(true) && s.inFlight == 1)
            && (t.failed <==> s.failed || (a == Completed(false) && s.inFlight == 1))
            && (a.Completed? ==> t.inFlight == 0)
  {
    assert Given([a][1..]) == [];
    assert Given([a]) == if a.Send? then [a.message] else [];
    assert s.buffer + [] == s.buffer;
  }

  lemma GivenFirst(actions: seq<Action>)
    requires actions != []
    ensures Given(actions) == Given([actions[0]]) + Given(actions[1..])
  {
    assert Given([actions[0]][1..]) == [];
  }

  lemma {:induction false} RunKeeps(s: State, actions: seq<Action>)
    requires Inv(s)
    ensures Inv(Run(s, actions))
    ensures var t := Run(s, actions);
            Flatten(t.posts) + t.buffer == Flatten(s.posts) + s.buffer + Given(actions)
    decreases |actions|
  {
    if actions != [] {
      StepKeeps(s, actions[0]);
      RunKeeps(Step(s, actions[0]), actions[1..]);
      GivenFirst(actions);
      Assoc(Flatten(s.posts) + s.buffer, Given([actions[0]]), Given(actions[1..]));
    }
  }

  /** In every run, failures included: the posted batches followed by the buffer are what
      `doSend` was given, nothing lost, repeated or reordered, with at most one POST in
      flight. When nothing is outstanding and no POST has failed, all of it is posted. */
  lemma NothingLost(actions: seq<Action>)
    ensures var s := Run(Initial, actions);
            && Flatten(s.posts) + s.buffer == Given(actions)
            && s.inFlight <= 1
            && (s.inFlight == 0 && s.timers == 0 && !s.failed ==> Flatten(s.posts) == Given(actions))
  {
    RunKeeps(Initial, actions);
  }

  /** A POST failed while messages were waiting behind it, and none was given since. */
  ghost predicate FailedUpon(actions: seq<Action>, k: int) {
    && 0 <= k < |actions| && actions[k] == Completed(false)
    && Run(Initial, actions[..k]).inFlight > 0 && Run(Initial, actions[..k]).buffer != []
    && forall j :: k < j < |actions| ==> !actions[j].Send?
  }

  /** Messages wait with neither a POST nor a timer to move them. */
  predicate Stranded(s: State) {
    s.inFlight == 0 && s.timers == 0 && s.buffer != []
  }

  lemma {:induction false} RunSnoc(s: State, actions: seq<Action>, last: Action)
    ensures Run(s, actions + [last]) == Step(Run(s, actions), last)
    decreases |actions|
  {
    if actions == [] {
      assert (actions + [last])[1..] == [];
    } else {
      RunSnoc(Step(s, actions[0]), actions[1..], last);
      First(actions, [last]);
    }
  }

  lemma FailedUponSnoc(actions: seq<Action>, last: Action, k: int)
    ensures FailedUpon(actions + [last], k)
         <==> if k == |actions| then
                && last == Completed(false)
                && Run(Initial, actions).inFlight > 0 && Run(Initial, actions).buffer != []
              else FailedUpon(actions, k) && !last.Send?
  {
    var all := actions + [last];
    assert all[..|actions|] == actions;
    if 0 <= k < |actions| {
      assert all[..k] == actions[..k];
      assert forall j :: k < j < |actions| ==> all[j] == actions[j];
      if FailedUpon(all, k) {
        assert !all[|actions|].Send?;
        assert forall j :: k < j < |actions| ==> !all[j].Send?;
      }
    }
  }

  /** Failure is the one way to strand messages, and the next message sets them free. */
  lemma {:induction false} StrandedIff(actions: seq<Action>)
    ensures Stranded(Run(Initial, actions)) <==> exists k :: FailedUpon(actions, k)
    decreases |actions|
  {
    if actions != [] {
      var n := |actions| - 1;
      var before, last := actions[..n], actions[n];
      StrandedIff(before);
      RunKeeps(Initial, before);
      RunSnoc(Initial, before, last);
      assert actions == before + [last];
      forall k ensures FailedUpon(actions, k)
        <==> if k == n then
               && last == Completed(false)
               && Run(Initial, before).inFlight > 0 && Run(Initial, before).buffer != []
             else FailedUpon(before, k) && !last.Send?
      {
        FailedUponSnoc(before, last, k);
      }
      StrandedStep(Run(Initial, before), last);
      if Stranded(Run(Initial, actions)) {
        if last == Completed(false) && Run(Initial, before).inFlight > 0 {
          assert FailedUpon(actions, n);
        } else {
          var k :| FailedUpon(before, k);
          assert FailedUpon(actions, k);
        }
      }
    }
  }

  lemma StrandedStep(s: State, a: Action)
    requires Inv(s)
    ensures Stranded(Step(s, a))
         <==> (a == Completed(false) && s.inFlight > 0 && s.buffer != []) || (Stranded(s) && !a.Send?)
  {
  }

  /** In every run that has come to rest: something that was given has not been posted if and
      only if a POST failed while messages waited behind it and none was given since. */
  lemma FailureStrands(actions: seq<Action>)
    requires var s := Run(Initial, actions);
             s.inFlight == 0 && s.timers == 0
    ensures Flatten(Run(Initial, actions).posts) != Given(actions) <==> exists k :: FailedUpon(actions, k)
  {
    NothingLost(actions);
    StrandedIff(actions);
    var s := Run(Initial, actions);
    assert s.buffer == [] ==> Flatten(s.posts) + [] == Flatten(s.posts);
    assert |Flatten(s.posts) + s.buffer| == |Flatten(s.posts)| + |s.buffer|;
  }

  class BufferedSender {
    var sendBuffer: seq<Str>
    var sendStop: bool
    var inFlight: nat
    var timers: nat
    var posted: seq<Str>
    var failed: bool
    ghost var batches: seq<seq<Str>>

    ghost predicate Valid()
      reads this
    {
      Inv(Abstract()) && posted == Payloads(batches)
    }

    ghost function Abstract(): State
      reads this
    {
      State(sendBuffer, sendStop, inFlight, timers, batches, failed)
    }

    constructor ()
      ensures Valid() && Abstract() == Initial
    {
      sendBuffer, sendStop, inFlight, timers, posted, failed, batches := [], false, 0, 0, [], false, [];
    }

    method SendSchedule()
      requires posted == Payloads(batches)
      modifies this
      ensures posted == Payloads(batches) && Abstract() == Schedule(old(Abstract()))
    {
      if |sendBuffer| > 0 {
        var payload := [LBRACKET] + Join(sendBuffer, COMMA) + [RBRACKET];
        posted, inFlight, sendStop := posted + [payload], inFlight + 1, true;
        batches := batches + [sendBuffer];
        sendBuffer := [];
      }
    }

    method DoSend(message: Str)
      requires Valid()
      modifies this
      ensures Valid() && Abstract() == Step(old(Abstract()), Send(message))
    {
      StepKeeps(Abstract(), Send(message));
      sendBuffer := sendBuffer + [message];
      if !sendStop {
        SendSchedule();
      }
    }

    method SendScheduleWait()
      requires posted == Payloads(batches)
      modifies this
      ensures posted == Payloads(batches)
      ensures Abstract() == old(Abstract()).(stopped := true, timers := old(timers) + 1)
    {
      sendStop, timers := true, timers + 1;
    }

    /** The callback given to the sender; on failure the connection is told to close. */
    method OnCompleted(success: bool) returns (closeConnection: bool)
      requires Valid() && inFlight > 0
      modifies this
      ensures Valid() && Abstract() == Step(old(Abstract()), Completed(success))
      ensures closeConnection == !success
    {
      StepKeeps(Abstract(), Completed(success));
      inFlight, sendStop := inFlight - 1, false;
      closeConnection := !success;
      if success {
        SendScheduleWait();
      } else {
        failed := true;
      }
    }

    method OnTimer()
      requires Valid() && timers > 0
      modifies this
      ensures Valid() && Abstract() == Step(old(Abstract()), TimerFired)
    {
      StepKeeps(Abstract(), TimerFired);
      timers, sendStop := timers - 1, false;
      SendSchedule();
    }
  }
}
