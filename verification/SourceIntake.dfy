/**
 What becomes of the messages that are read: over every run each of them is handled in turn, or is still in the loop's
 hands, until the loop ends; and why it ends.
 */
module SourceIntake {
  import opened Wrappers
  import opened Offsets
  import opened Tracking
  import opened SourceProtocol

  /** The messages read and not yet handled. */
  function InHand(loop: Loop): seq<Message> {
    match loop
    case Filling(rest, _) => rest
    case Waiting(rest) => rest
    case Holding(msg, rest) => [msg] + rest
    case Dispatching(rest) => rest
    case _ => []
  }

  /** The loop reads no more. */
  predicate Over(loop: Loop) { loop.Draining? || loop.Stopped? || loop.Aborted? }

  /** In batch mode the whole batch is handled before it is dispatched. */
  predicate WholeBatch(c: Config, loop: Loop) {
    !c.streaming ==> !loop.Waiting? && !loop.Holding? && (loop.Dispatching? ==> loop.rest == [])
  }

  datatype Outcome = Delivered | Duplicate | NoCallback

  /** A handled message and what became of it. */
  datatype Handled = Handled(message: Message, outcome: Outcome)

  /** A message without the callback information that serving needs is an error; one whose offset clashes with a tracked
      one is a duplicate; any other is delivered. */
  ghost function OutcomeOf(c: Config, s: State, m: Message): Outcome {
    if c.serving && !NamesCallback(m) then NoCallback
    else if Clashes(s.tracker, m.offset) then Duplicate
    else Delivered
  }

  ghost function HandledBy(c: Config, s: State, l: Label): seq<Handled> {
    if Takes(l) && InHand(s.loop) != [] then
      [Handled(InHand(s.loop)[0], OutcomeOf(c, s, InHand(s.loop)[0]))]
    else []
  }

  function ReadBy(l: Label): seq<Message> {
    if l.Read? && l.answer.Batch? then l.answer.messages else []
  }

  /** Everything read, and everything handled, in a run. */
  function AllRead(ls: seq<Label>): seq<Message> {
    if ls == [] then [] else ReadBy(ls[0]) + AllRead(ls[1..])
  }

  ghost function AllHandled(c: Config, s: State, ls: seq<Label>): seq<Handled>
    requires Possible(c, s, ls)
    decreases |ls|
  {
    if ls == [] then [] else HandledBy(c, s, ls[0]) + AllHandled(c, Next(c, s, ls[0]), ls[1..])
  }

  function MessagesOf(hs: seq<Handled>): seq<Message> { seq(|hs|, i requires 0 <= i < |hs| => hs[i].message) }

  /** The offsets of the delivered ones among them. */
  function DeliveredOffsets(hs: seq<Handled>): seq<Offset> {
    if hs == [] then []
    else (if hs[0].outcome.Delivered? then [hs[0].message.offset] else []) + DeliveredOffsets(hs[1..])
  }

  function OffsetsOf(ds: seq<Delivery>): seq<Offset> { seq(|ds|, i requires 0 <= i < |ds| => ds[i].offset) }

  lemma {:induction false} DeliveredConcat(a: seq<Handled>, b: seq<Handled>)
    ensures DeliveredOffsets(a + b) == DeliveredOffsets(a) + DeliveredOffsets(b)
  {
    if a == [] {
      assert a + b == b;
    } else {
      assert (a + b)[1..] == a[1..] + b;
      DeliveredConcat(a[1..], b);
    }
  }

  // ----- one step -----

  predicate Takes(l: Label) { l.FillOne? || l.Admit? }

  /** A step keeps what is in hand, fills empty hands with what it reads, or handles the first message. Only the step
      that ends the loop may lose messages. */
  lemma HandMoves(c: Config, s: State, l: Label)
    requires SourceProtocol.Enabled(c, s, l) && WholeBatch(c, s.loop)
    ensures var hand, loop := InHand(s.loop), Next(c, s, l).loop;
            && WholeBatch(c, loop)
            && (Over(s.loop) ==> Over(loop) && !Takes(l) && ReadBy(l) == [])
            && (Takes(l) ==> hand != [] && ReadBy(l) == [] && (Over(loop) || InHand(loop) == hand[1..]))
            && (l.Read? ==> hand == [] && (Over(loop) || InHand(loop) == ReadBy(l)))
            && (!Takes(l) && !l.Read? ==> ReadBy(l) == [] && (Over(loop) || InHand(loop) == hand))
  {
    assert s.loop.Holding? ==> ([s.loop.msg] + s.loop.rest)[1..] == s.loop.rest;
  }

  lemma HandStep(c: Config, s: State, l: Label)
    requires SourceProtocol.Enabled(c, s, l) && WholeBatch(c, s.loop)
    ensures var loop := Next(c, s, l).loop;
            && WholeBatch(c, loop)
            && (Over(s.loop) ==> Over(loop) && ReadBy(l) == [] && HandledBy(c, s, l) == [])
            && MessagesOf(HandledBy(c, s, l)) <= InHand(s.loop) + ReadBy(l)
            && (!Over(loop) ==> InHand(s.loop) + ReadBy(l) == MessagesOf(HandledBy(c, s, l)) + InHand(loop))
  {
    hide Next, SourceProtocol.Enabled, WholeBatch, Over, InHand, ReadBy, OutcomeOf;
    HandMoves(c, s, l);
    var hand := InHand(s.loop);
    if Takes(l) {
      assert MessagesOf(HandledBy(c, s, l)) == [hand[0]];
      assert hand == [hand[0]] + hand[1..] && hand + [] == hand;
    } else {
      assert MessagesOf(HandledBy(c, s, l)) == [];
      assert hand + [] == hand && [] + ReadBy(l) == ReadBy(l);
    }
  }

  /** The deliveries grow by exactly the message that is handled and delivered. */
  lemma DeliveryStep(c: Config, s: State, l: Label)
    requires SourceProtocol.Enabled(c, s, l)
    ensures OffsetsOf(Next(c, s, l).deliveries) == OffsetsOf(s.deliveries) + DeliveredOffsets(HandledBy(c, s, l))
  {
    if InHand(s.loop) != [] {
      NewEntryStored(c.serving, InHand(s.loop)[0]);
    }
  }

  // ----- every run -----

  /** Over every run, from any state: what was in hand and what was read is, in order, what was handled and, while the
      loop goes on, what is in hand now. */
  lemma {:induction false} RunIntake(c: Config, s: State, ls: seq<Label>)
    requires Possible(c, s, ls) && WholeBatch(c, s.loop)
    ensures var t, read, handled := After(c, s, ls), InHand(s.loop) + AllRead(ls), MessagesOf(AllHandled(c, s, ls));
            && handled <= read
            && (!Over(t.loop) ==> read == handled + InHand(t.loop))
            && (Over(s.loop) ==> Over(t.loop) && AllRead(ls) == [] && AllHandled(c, s, ls) == [])
    decreases |ls|
  {
    hide Next, SourceProtocol.Enabled, HandledBy, ReadBy, WholeBatch, Over, InHand;
    if ls == [] {
      assert InHand(s.loop) + [] == InHand(s.loop) && [] + InHand(s.loop) == InHand(s.loop);
    } else {
      var l, t := ls[0], Next(c, s, ls[0]);
      HandStep(c, s, l);
      RunIntake(c, t, ls[1..]);
      var now, later := HandledBy(c, s, l), AllHandled(c, t, ls[1..]);
      assert MessagesOf(now + later) == MessagesOf(now) + MessagesOf(later);
      hide MessagesOf, AllHandled, AllRead, After, Possible;
      Chain(InHand(s.loop), ReadBy(l), AllRead(ls[1..]), MessagesOf(now), MessagesOf(later),
            InHand(t.loop), InHand(After(c, t, ls[1..]).loop), Over(t.loop), Over(After(c, t, ls[1..]).loop));
    }
  }

  /** The deliveries are the handled messages, in order, but for duplicates and those without callback information. */
  lemma {:induction false} RunDeliveries(c: Config, s: State, ls: seq<Label>)
    requires Possible(c, s, ls)
    ensures OffsetsOf(After(c, s, ls).deliveries) == OffsetsOf(s.deliveries) + DeliveredOffsets(AllHandled(c, s, ls))
    decreases |ls|
  {
    if ls != [] {
      hide Next, SourceProtocol.Enabled, HandledBy, OffsetsOf;
      var l, t := ls[0], Next(c, s, ls[0]);
      DeliveryStep(c, s, l);
      RunDeliveries(c, t, ls[1..]);
      DeliveredConcat(HandledBy(c, s, l), AllHandled(c, t, ls[1..]));
    }
  }

  lemma Chain<T>(hand: seq<T>, read: seq<T>, rest: seq<T>, now: seq<T>, later: seq<T>, left: seq<T>, last: seq<T>,
                 over: bool, overLast: bool)
    requires now <= hand + read && (!over ==> hand + read == now + left && later <= left + rest)
    requires over ==> rest == [] && later == [] && overLast
    requires !overLast ==> left + rest == later + last
    ensures now + later <= hand + (read + rest)
    ensures !overLast ==> hand + (read + rest) == (now + later) + last
  {
    assert hand + (read + rest) == (hand + read) + rest;
    if !over {
      assert (now + left) + rest == now + (left + rest);
      assert (now + later) + last == now + (later + last);
      assert now + later <= now + (left + rest);
    }
  }

  /** Over every run of the source no message that was read is forgotten, reordered or invented: those handled and those
      in hand are the ones read, in order, until the loop ends. */
  lemma NothingForgotten(c: Config, ls: seq<Label>)
    requires Possible(c, Init(c), ls)
    ensures var t, handled := After(c, Init(c), ls), AllHandled(c, Init(c), ls);
            && MessagesOf(handled) <= AllRead(ls)
            && (!Over(t.loop) ==> AllRead(ls) == MessagesOf(handled) + InHand(t.loop))
            && OffsetsOf(t.deliveries) == DeliveredOffsets(handled)
  {
    hide After, AllHandled, AllRead, Possible, DeliveredOffsets, MessagesOf;
    RunIntake(c, Init(c), ls);
    RunDeliveries(c, Init(c), ls);
    assert InHand(Init(c).loop) + AllRead(ls) == AllRead(ls);
    assert OffsetsOf(Init(c).deliveries) == [];
  }

  // ----- why the loop ends, and with what result -----

  /** The label that ends the loop, if one does. */
  ghost function EndsBy(c: Config, s: State, ls: seq<Label>): Option<Label>
    requires Possible(c, s, ls)
    decreases |ls|
  {
    if ls == [] then None
    else if Over(Next(c, s, ls[0]).loop) then Some(ls[0])
    else EndsBy(c, Next(c, s, ls[0]), ls[1..])
  }

  /** The source ended because of an error: a failed read, a failed dispatch, or a message that could not be tracked. */
  predicate ErrorEnd(l: Label) { l == Read(ReadError) || l.DispatchFailed? || l.Admit? || l.FillOne? }

  /** An orderly end: the stream is over, or cancellation was observed. */
  predicate OrderlyEnd(l: Label, cancelled: bool) {
    l == Read(EndOfStream) || ((l.Check? || l.BreakOnCancel? || l.EndBatch?) && cancelled)
  }

  function Succeeds(loop: Loop): bool { (loop.Draining? || loop.Stopped?) && loop.ok }

  /** What ends the loop, and what does not: an error in reading, tracking or dispatching does, and so do the end of the
      stream and cancellation where they are looked at; a duplicate does not. */
  lemma EndStep(c: Config, s: State, l: Label)
    requires SourceProtocol.Enabled(c, s, l)
    ensures var t := Next(c, s, l);
            && (Over(s.loop) ==> Over(t.loop) && Succeeds(t.loop) == Succeeds(s.loop))
            && (!Over(s.loop) && Over(t.loop) ==>
                  && (ErrorEnd(l) || OrderlyEnd(l, s.cancelled))
                  && (Succeeds(t.loop) <==> !ErrorEnd(l)))
            && (l == Read(ReadError) || l == Read(EndOfStream) ==> Over(t.loop))
            && (l.DispatchFailed? || l.BreakOnCancel? ==> Over(t.loop))
            && ((l.Check? || l.EndBatch?) && s.cancelled ==> Over(t.loop))
            && (Takes(l) ==> InHand(s.loop) != [] && (Over(t.loop) <==> OutcomeOf(c, s, InHand(s.loop)[0]).NoCallback?))
  {
    if InHand(s.loop) != [] {
      NewEntryStored(c.serving, InHand(s.loop)[0]);
    }
  }

  /** Over every run: the source ends well exactly if what ended its loop was not an error. */
  lemma {:induction false} EndResult(c: Config, s: State, ls: seq<Label>)
    requires Possible(c, s, ls) && !Over(s.loop)
    ensures var t, end := After(c, s, ls), EndsBy(c, s, ls);
            && (Over(t.loop) <==> end.Some?)
            && (end.Some? ==> (Succeeds(t.loop) <==> !ErrorEnd(end.value)))
    decreases |ls|
  {
    if ls != [] {
      hide Next, SourceProtocol.Enabled, Succeeds, ErrorEnd, OrderlyEnd, Over;
      var t := Next(c, s, ls[0]);
      EndStep(c, s, ls[0]);
      if Over(t.loop) {
        OverStays(c, t, ls[1..]);
      } else {
        EndResult(c, t, ls[1..]);
      }
    }
  }

  lemma {:induction false} OverStays(c: Config, s: State, ls: seq<Label>)
    requires Possible(c, s, ls) && Over(s.loop)
    ensures Over(After(c, s, ls).loop) && Succeeds(After(c, s, ls).loop) == Succeeds(s.loop)
    decreases |ls|
  {
    if ls != [] {
      hide Next, SourceProtocol.Enabled, Succeeds, ErrorEnd, OrderlyEnd, Over;
      EndStep(c, s, ls[0]);
      OverStays(c, Next(c, s, ls[0]), ls[1..]);
    }
  }

  // ----- cancellation -----

  predicate Cancels(l: Label) { l.Cancel? || l.CancelOnError? }

  /** Over every run the source is cancelled exactly if somebody cancelled it or an ack that was given up did. */
  lemma {:induction false} CancelledIff(c: Config, s: State, ls: seq<Label>)
    requires Possible(c, s, ls)
    ensures After(c, s, ls).cancelled <==> s.cancelled || exists i | 0 <= i < |ls| :: Cancels(ls[i])
    decreases |ls|
  {
    if ls != [] {
      hide Next, SourceProtocol.Enabled, Cancels;
      CancelStep(c, s, ls[0]);
      CancelledIff(c, Next(c, s, ls[0]), ls[1..]);
      assert forall i | 0 <= i < |ls| - 1 :: ls[1..][i] == ls[i + 1];
      if i :| 0 <= i < |ls| && Cancels(ls[i]) {
        assert i > 0 ==> Cancels(ls[1..][i - 1]);
      }
    }
  }

  lemma CancelStep(c: Config, s: State, l: Label)
    requires SourceProtocol.Enabled(c, s, l)
    ensures Next(c, s, l).cancelled <==> s.cancelled || Cancels(l)
  {}

  // ----- what is delivered is dispatched -----

  /** A batch, or in streaming mode a message, gets its task; its handles are then to be dispatched. */
  ghost predicate HandsOut(c: Config, s: State, l: Label) {
    l.Spawn? || (l.Admit? && InHand(s.loop) != [] && OutcomeOf(c, s, InHand(s.loop)[0]).Delivered?)
  }

  predicate Dispatches(l: Label) { l.Dispatched? || l.DispatchFailed? }

  ghost function HandOuts(c: Config, s: State, ls: seq<Label>): nat
    requires Possible(c, s, ls)
    decreases |ls|
  {
    if ls == [] then 0
    else (if HandsOut(c, s, ls[0]) then 1 else 0) + HandOuts(c, Next(c, s, ls[0]), ls[1..])
  }

  function DispatchCount(ls: seq<Label>): nat {
    if ls == [] then 0 else (if Dispatches(ls[0]) then 1 else 0) + DispatchCount(ls[1..])
  }

  function DispatchDue(loop: Loop): nat { if loop.Dispatching? then 1 else 0 }

  lemma DispatchStep(c: Config, s: State, l: Label)
    requires SourceProtocol.Enabled(c, s, l)
    ensures var handed, dispatched := if HandsOut(c, s, l) then 1 else 0, if Dispatches(l) then 1 else 0;
            handed + DispatchDue(s.loop) == dispatched + DispatchDue(Next(c, s, l).loop)
  {
    if InHand(s.loop) != [] {
      NewEntryStored(c.serving, InHand(s.loop)[0]);
    }
  }

  /** Over every run: as many dispatches as hand-outs, but for the one that is due. So between two hand-outs there is
      always a dispatch. */
  lemma {:induction false} AllDispatched(c: Config, s: State, ls: seq<Label>)
    requires Possible(c, s, ls)
    ensures HandOuts(c, s, ls) + DispatchDue(s.loop) == DispatchCount(ls) + DispatchDue(After(c, s, ls).loop)
    decreases |ls|
  {
    if ls != [] {
      hide Next, SourceProtocol.Enabled, HandsOut, Dispatches, DispatchDue;
      DispatchStep(c, s, ls[0]);
      AllDispatched(c, Next(c, s, ls[0]), ls[1..]);
    }
  }

  /** A run that begins and ends with a hand-out has a dispatch in between. */
  lemma DispatchBetween(c: Config, s: State, ls: seq<Label>)
    requires |ls| >= 2 && Possible(c, s, ls) && HandsOut(c, s, ls[0])
    requires Possible(c, s, ls[..|ls| - 1]) && HandsOut(c, After(c, s, ls[..|ls| - 1]), ls[|ls| - 1])
    ensures exists i | 0 < i < |ls| - 1 :: Dispatches(ls[i])
  {
    var n := |ls| - 1;
    var mid := ls[..n];
    var t := After(c, s, mid);
    AllDispatched(c, s, mid);
    LastEnabled(c, s, ls);
    DispatchStep(c, s, ls[0]);
    DispatchStep(c, t, ls[n]);
    assert DispatchDue(t.loop) == 0 && DispatchCount(mid) >= 1;
    var i := SomeDispatch(mid);
    assert mid[i] == ls[i];
  }

  // ----- every read is preceded by a look at cancellation -----

  /** The source was looked at, and was not cancelled. */
  predicate FoundRunning(s: State, l: Label) { l.Check? && !s.cancelled }

  predicate AttemptsRead(l: Label) { l.Read? || l.RateLimited? }

  ghost function Checks(c: Config, s: State, ls: seq<Label>): nat
    requires Possible(c, s, ls)
    decreases |ls|
  {
    if ls == [] then 0 else (if FoundRunning(s, ls[0]) then 1 else 0) + Checks(c, Next(c, s, ls[0]), ls[1..])
  }

  function Reads(ls: seq<Label>): nat {
    if ls == [] then 0 else (if AttemptsRead(ls[0]) then 1 else 0) + Reads(ls[1..])
  }

  function ReadDue(loop: Loop): nat { if loop.Acquiring? || loop.Reading? then 1 else 0 }

  lemma CheckStep(c: Config, s: State, l: Label)
    requires SourceProtocol.Enabled(c, s, l)
    ensures var checked, attempted := if FoundRunning(s, l) then 1 else 0, if AttemptsRead(l) then 1 else 0;
            checked + ReadDue(s.loop) == attempted + ReadDue(Next(c, s, l).loop)
  {}

  /** Over every run: for every attempt to read, the source was looked at before and found not cancelled. */
  lemma {:induction false} ReadsChecked(c: Config, s: State, ls: seq<Label>)
    requires Possible(c, s, ls)
    ensures Checks(c, s, ls) + ReadDue(s.loop) == Reads(ls) + ReadDue(After(c, s, ls).loop)
    decreases |ls|
  {
    if ls != [] {
      hide Next, SourceProtocol.Enabled, FoundRunning, AttemptsRead, ReadDue;
      CheckStep(c, s, ls[0]);
      ReadsChecked(c, Next(c, s, ls[0]), ls[1..]);
    }
  }

  lemma {:induction false} LastEnabled(c: Config, s: State, ls: seq<Label>)
    requires ls != [] && Possible(c, s, ls)
    ensures var mid := ls[..|ls| - 1];
            Possible(c, s, mid) && SourceProtocol.Enabled(c, After(c, s, mid), ls[|ls| - 1])
    decreases |ls|
  {
    if |ls| > 1 {
      hide Next, SourceProtocol.Enabled;
      LastEnabled(c, Next(c, s, ls[0]), ls[1..]);
      assert ls[1..][..|ls| - 2] == ls[..|ls| - 1][1..];
    }
  }

  lemma {:induction false} SomeDispatch(ls: seq<Label>) returns (i: nat)
    requires DispatchCount(ls) > 0
    ensures i < |ls| && Dispatches(ls[i])
  {
    if Dispatches(ls[0]) {
      i := 0;
    } else {
      i := SomeDispatch(ls[1..]);
      i := i + 1;
    }
  }
}
