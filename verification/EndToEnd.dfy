/** From `Client._transmit` to the wire and back: STOMP frames cut into chunks, quoted,
    batched and posted, then decoded, joined and read as frames again. */
module EndToEnd {
  import opened Text
  import opened Utf8
  import opened Json
  import opened Quote
  import opened StompFrame
  import opened StompRoundTrip
  import S = Sender

  // Chunks

  function Chunks(out: Str, max: nat): (chunks: seq<Str>)
    requires max > 0
    ensures |chunks| > 0
  {
    if |out| > max then [out[..max]] + Chunks(out[max..], max) else [out]
  }

  /** Chunks lose nothing, and all but the last are full. */
  lemma {:induction false} ChunksCover(out: Str, max: nat)
    requires max > 0
    ensures var chunks := Chunks(out, max);
            && Flatten(chunks) == out
            && (forall i :: 0 <= i < |chunks| - 1 ==> |chunks[i]| == max)
            && |chunks[|chunks| - 1]| <= max
  {
    if |out| > max {
      ChunksCover(out[max..], max);
      assert out == out[..max] + out[max..];
      assert Chunks(out, max)[1..] == Chunks(out[max..], max);
    } else {
      assert [out][1..] == [];
      assert Flatten([out]) == out + Flatten([out][1..]);
    }
  }

  // The client over a buffered transport

  datatype Action = Transmit(item: Item) | Completed(success: bool) | TimerFired

  /** What a call writes, as the pieces handed to `ws.send`; a body with a lone surrogate
      throws before anything is sent. */
  function Pieces(item: Item, max: nat): seq<Str>
    requires max > 0
  {
    match item
    case Ping => [[LF]]
    case Sent(f) =>
      match Marshal(f)
      case None => []
      case Some(out) => Chunks(out, max)
  }

  function AsSends(kind: Stringify, pieces: seq<Str>): seq<S.Action> {
    if pieces == [] then [] else [S.Send(QuoteString(kind, pieces[0]))] + AsSends(kind, pieces[1..])
  }

  /** The actions of the sender that one action of the client or its environment causes. */
  function SenderActions(kind: Stringify, max: nat, a: Action): seq<S.Action>
    requires max > 0
  {
    match a
    case Transmit(item) => AsSends(kind, Pieces(item, max))
    case Completed(success) => [S.Completed(success)]
    case TimerFired => [S.TimerFired]
  }

  function AllSenderActions(kind: Stringify, max: nat, actions: seq<Action>): seq<S.Action>
    requires max > 0
  {
    if actions == [] then []
    else SenderActions(kind, max, actions[0]) + AllSenderActions(kind, max, actions[1..])
  }

  /** The items whose call did not throw. */
  function Written(actions: seq<Action>): seq<Item> {
    if actions == [] then []
    else
      var a := actions[0];
      (if a.Transmit? && (a.item.Ping? || WellFormed(a.item.frame.body)) then [a.item] else [])
      + Written(actions[1..])
  }

  function AllPieces(actions: seq<Action>, max: nat): seq<Str>
    requires max > 0
  {
    if actions == [] then []
    else (if actions[0].Transmit? then Pieces(actions[0].item, max) else []) + AllPieces(actions[1..], max)
  }

  /** Every frame that goes out is one the wire format can carry. */
  predicate ActionsOk(actions: seq<Action>) {
    forall i :: 0 <= i < |actions| && actions[i].Transmit? && actions[i].item.Sent? ==>
      !WellFormed(actions[i].item.frame.body) || FrameOk(actions[i].item.frame)
  }

  // The other end

  /** The strings of all arrays received, in order. */
  function ReadPosts(payloads: seq<Str>): Option<seq<Str>> {
    if payloads == [] then Some([])
    else
      match (DecodeArray(payloads[0]), ReadPosts(payloads[1..]))
      case (Some(first), Some(rest)) => Some(first + rest)
      case _ => None
  }

  // Proofs

  lemma {:induction false} PiecesSpell(item: Item, max: nat)
    requires max > 0
    requires item.Sent? ==> WellFormed(item.frame.body)
    ensures Flatten(Pieces(item, max)) == ItemText(item)
  {
    match item
    case Ping =>
      assert [[LF]][1..] == [];
      assert Flatten([[LF]]) == [LF] + Flatten([[LF]][1..]);
    case Sent(f) =>
      MarshalOk(f);
      ChunksCover(Marshal(f).value, max);
  }

  lemma {:induction false} WrittenOk(actions: seq<Action>)
    requires ActionsOk(actions)
    ensures ItemsOk(Written(actions))
  {
    if actions != [] {
      WrittenOk(actions[1..]);
    }
  }

  lemma {:induction false} AllPiecesSpell(actions: seq<Action>, max: nat)
    requires max > 0 && ActionsOk(actions) && ItemsOk(Written(actions))
    ensures Flatten(AllPieces(actions, max)) == StreamText(Written(actions))
  {
    if actions != [] {
      WrittenOk(actions[1..]);
      AllPiecesSpell(actions[1..], max);
      var a := actions[0];
      if a.Transmit? {
        FlattenConcat(Pieces(a.item, max), AllPieces(actions[1..], max));
        if a.item.Ping? || WellFormed(a.item.frame.body) {
          PiecesSpell(a.item, max);
          assert Written(actions)[1..] == Written(actions[1..]);
        } else {
          SizeIsOctetCount(a.item.frame.body);
          assert Pieces(a.item, max) == [];
          assert Written(actions) == Written(actions[1..]);
        }
      } else {
        assert Written(actions) == Written(actions[1..]);
        assert AllPieces(actions, max) == AllPieces(actions[1..], max);
      }
    }
  }

  lemma {:induction false} GivenConcat(a: seq<S.Action>, b: seq<S.Action>)
    ensures S.Given(a + b) == S.Given(a) + S.Given(b)
  {
    if a == [] {
      assert a + b == b;
    } else {
      GivenConcat(a[1..], b);
      First(a, b);
      Assoc(if a[0].Send? then [a[0].message] else [], S.Given(a[1..]), S.Given(b));
    }
  }

  lemma {:induction false} GivenSends(kind: Stringify, pieces: seq<Str>)
    ensures S.Given(AsSends(kind, pieces)) == QuoteAll(kind, pieces)
  {
    if pieces != [] {
      GivenSends(kind, pieces[1..]);
      assert AsSends(kind, pieces)[1..] == AsSends(kind, pieces[1..]);
    }
  }

  lemma QuoteAllConcat(kind: Stringify, a: seq<Str>, b: seq<Str>)
    ensures QuoteAll(kind, a + b) == QuoteAll(kind, a) + QuoteAll(kind, b)
  {
  }

  lemma {:induction false} GivenPieces(kind: Stringify, max: nat, actions: seq<Action>)
    requires max > 0
    ensures S.Given(AllSenderActions(kind, max, actions)) == QuoteAll(kind, AllPieces(actions, max))
  {
    if actions != [] {
      var first := SenderActions(kind, max, actions[0]);
      GivenConcat(first, AllSenderActions(kind, max, actions[1..]));
      GivenPieces(kind, max, actions[1..]);
      var pieces := if actions[0].Transmit? then Pieces(actions[0].item, max) else [];
      if actions[0].Transmit? {
        GivenSends(kind, pieces);
      } else {
        assert first[1..] == [];
        assert S.Given(first) == QuoteAll(kind, pieces);
      }
      QuoteAllConcat(kind, pieces, AllPieces(actions[1..], max));
    }
  }

  /** Arrays that cover a list of quoted messages, however it was cut, read back as it. */
  lemma QuotedParts(kind: Stringify, messages: seq<Str>, a: seq<Str>, b: seq<Str>)
    requires a + b == QuoteAll(kind, messages)
    ensures |a| <= |messages| && a == QuoteAll(kind, messages[..|a|]) && b == QuoteAll(kind, messages[|a|..])
  {
    var n, qs := |a|, QuoteAll(kind, messages);
    assert |qs| == n + |b|;
    assert a == qs[..n] && b == qs[n..];
    assert qs[..n] == QuoteAll(kind, messages[..n]);
    assert qs[n..] == QuoteAll(kind, messages[n..]);
  }

  lemma {:induction false} ReadCover(kind: Stringify, batches: seq<seq<Str>>, messages: seq<Str>)
    requires Flatten(batches) == QuoteAll(kind, messages)
    ensures ReadPosts(S.Payloads(batches)) == Some(messages)
  {
    if batches != [] {
      var n := |batches[0]|;
      QuotedParts(kind, messages, batches[0], Flatten(batches[1..]));
      QuotedArrayRoundTrip(kind, messages[..n]);
      ReadCover(kind, batches[1..], messages[n..]);
      assert messages == messages[..n] + messages[n..];
      First([S.Payload(batches[0])], S.Payloads(batches[1..]));
    }
  }

  lemma PayloadsSnoc(batches: seq<seq<Str>>, last: seq<Str>)
    ensures S.Payloads(batches + [last]) == S.Payloads(batches) + [S.Payload(last)]
  {
  }

  /** Everything posted, with what is still buffered, spells the stream of written items. */
  lemma WireSpells(kind: Stringify, max: nat, actions: seq<Action>)
    requires max > 0 && ActionsOk(actions)
    ensures ItemsOk(Written(actions))
    ensures var s := S.Run(S.Initial, AllSenderActions(kind, max, actions));
            var read := ReadPosts(S.Payloads(s.posts) + [S.Payload(s.buffer)]);
            read.Some? && Flatten(read.value) == StreamText(Written(actions))
  {
    var sends := AllSenderActions(kind, max, actions);
    var s := S.Run(S.Initial, sends);
    S.NothingLost(sends);
    GivenPieces(kind, max, actions);
    FlattenSnoc(s.posts, s.buffer);
    ReadCover(kind, s.posts + [s.buffer], AllPieces(actions, max));
    PayloadsSnoc(s.posts, s.buffer);
    WrittenOk(actions);
    AllPiecesSpell(actions, max);
  }

  /** For every way of interleaving calls, completions and timers and every chunk size,
      the arrays posted so far and the buffered rest decode to a text that reads as exactly
      the frames written, in order, if and only if no heart-beat came before the first. */
  lemma FramesArrive(kind: Stringify, max: nat, actions: seq<Action>)
    requires max > 0 && ActionsOk(actions)
    ensures ItemsOk(Written(actions))
    ensures var s := S.Run(S.Initial, AllSenderActions(kind, max, actions));
            var read := ReadPosts(S.Payloads(s.posts) + [S.Payload(s.buffer)]);
            && read.Some?
            && (Unmarshal(Flatten(read.value)) == Expected(Written(actions))
                <==> (Written(actions) == [] || Written(actions)[0].Sent?))
  {
    WireSpells(kind, max, actions);
    StreamRoundTrip(Written(actions));
  }

  /** Once no POST has failed and none is outstanding, the posted arrays alone say it all. */
  lemma FramesArriveQuiescent(kind: Stringify, max: nat, actions: seq<Action>)
    requires max > 0 && ActionsOk(actions)
    requires Written(actions) == [] || Written(actions)[0].Sent?
    requires var s := S.Run(S.Initial, AllSenderActions(kind, max, actions));
             !s.failed && s.inFlight == 0 && s.timers == 0
    ensures ItemsOk(Written(actions))
    ensures var s := S.Run(S.Initial, AllSenderActions(kind, max, actions));
            var read := ReadPosts(S.Payloads(s.posts));
            read.Some? && Unmarshal(Flatten(read.value)) == Expected(Written(actions))
  {
    var sends := AllSenderActions(kind, max, actions);
    var s := S.Run(S.Initial, sends);
    S.NothingLost(sends);
    GivenPieces(kind, max, actions);
    ReadCover(kind, s.posts, AllPieces(actions, max));
    WrittenOk(actions);
    AllPiecesSpell(actions, max);
    StreamRoundTrip(Written(actions));
  }

  // Over the websocket transport each chunk is an array of its own.

  function Singles(qs: seq<Str>): seq<seq<Str>> {
    if qs == [] then [] else [[qs[0]]] + Singles(qs[1..])
  }

  lemma {:induction false} FlattenSingles(qs: seq<Str>)
    ensures Flatten(Singles(qs)) == qs
  {
    if qs != [] {
      FlattenSingles(qs[1..]);
      assert Singles(qs)[1..] == Singles(qs[1..]);
    }
  }

  lemma FramesArriveByWebSocket(kind: Stringify, max: nat, actions: seq<Action>)
    requires max > 0 && ActionsOk(actions)
    ensures ItemsOk(Written(actions))
    ensures var read := ReadPosts(S.Payloads(Singles(QuoteAll(kind, AllPieces(actions, max)))));
            && read.Some?
            && (Unmarshal(Flatten(read.value)) == Expected(Written(actions))
                <==> (Written(actions) == [] || Written(actions)[0].Sent?))
  {
    FlattenSingles(QuoteAll(kind, AllPieces(actions, max)));
    ReadCover(kind, Singles(QuoteAll(kind, AllPieces(actions, max))), AllPieces(actions, max));
    WrittenOk(actions);
    AllPiecesSpell(actions, max);
    StreamRoundTrip(Written(actions));
  }

  // The client's own loop

  class TransmittingClient {
    const sender: S.BufferedSender
    const quoter: Quoter
    const maxWebSocketFrameSize: nat

    ghost predicate Valid()
      reads this, sender, quoter
    {
      sender.Valid() && quoter.Valid() && maxWebSocketFrameSize > 0
    }

    constructor (sender: S.BufferedSender, quoter: Quoter)
      requires sender.Valid() && quoter.Valid()
      ensures Valid() && this.sender == sender && this.quoter == quoter && maxWebSocketFrameSize == 16 * 1024
    {
      this.sender, this.quoter, maxWebSocketFrameSize := sender, quoter, 16 * 1024;
    }

    /** `_transmit` on an open connection. */
    method Transmit(f: OutFrame) returns (thrown: bool)
      requires Valid()
      modifies sender, quoter
      ensures Valid()
      ensures thrown <==> !WellFormed(f.body)
      ensures sender.Abstract() == S.Run(old(sender.Abstract()),
                                         AsSends(quoter.kind, Pieces(Sent(f), maxWebSocketFrameSize)))
    {
      SizeIsOctetCount(f.body);
      var text := MarshalFrame(f);
      if text.None? {
        return true;
      }
      var out := text.value;
      ghost var all := AsSends(quoter.kind, Chunks(out, maxWebSocketFrameSize));
      ghost var before := sender.Abstract();
      while |out| > maxWebSocketFrameSize
        invariant Valid()
        invariant S.Run(sender.Abstract(), AsSends(quoter.kind, Chunks(out, maxWebSocketFrameSize)))
                  == S.Run(before, all)
      {
        var q := quoter.QuoteText(out[..maxWebSocketFrameSize]);
        AsSendsFirst(quoter.kind, out[..maxWebSocketFrameSize],
                     Chunks(out[maxWebSocketFrameSize..], maxWebSocketFrameSize));
        sender.DoSend(q);
        out := out[maxWebSocketFrameSize..];
      }
      var q := quoter.QuoteText(out);
      AsSendsFirst(quoter.kind, out, []);
      sender.DoSend(q);
      thrown := false;
    }
  }

  lemma AsSendsFirst(kind: Stringify, piece: Str, rest: seq<Str>)
    ensures AsSends(kind, [piece] + rest) == [S.Send(QuoteString(kind, piece))] + AsSends(kind, rest)
  {
    assert ([piece] + rest)[1..] == rest;
  }
}
