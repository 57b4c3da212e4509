/**
 What becomes of a batch that could not be dispatched: the transformer gives it up and drops its handles, the loop turns
 to draining, and the drain ends with every message of the batch reported.
 */
module SourceDrain {
  import opened AckHandles
  import opened Counting
  import opened SourceInvariant
  import opened SourceProgress
  import opened SourceProtocol
  import opened SourceTheorems
  import opened Transforming
  import opened Wrappers

  // ----- owners acting on the handles of deliveries -----

  function WithAck(s: State, d: nat, a: AckState): State
    requires d < |s.deliveries|
  {
    s.(deliveries := s.deliveries[d := s.deliveries[d].(ack := a)])
  }

  /** Whatever the owners of a delivery's handles can do, they can do in the protocol. */
  lemma {:induction false} OwnersRun(c: Config, s: State, d: nat, ops: seq<Op>)
    requires Reachable(c, s) && d < |s.deliveries| && Legal(s.deliveries[d].ack, ops)
    ensures Reachable(c, WithAck(s, d, Run(s.deliveries[d].ack, ops)))
    decreases |ops|
  {
    hide Reachable, Apply;
    if ops == [] {
      assert WithAck(s, d, s.deliveries[d].ack) == s;
    } else {
      var l := HandleOp(d, ops[0]);
      var t := Next(c, s, l);
      ReachableNext(c, s, l);
      OwnersRun(c, t, d, ops[1..]);
      var a := Run(s.deliveries[d].ack, ops);
      assert WithAck(t, d, a) == WithAck(s, d, a);
    }
  }

  /** The deliveries from `lo` on with other handle states. */
  function WithAcks(s: State, lo: nat, acks: seq<AckState>): State
    requires lo + |acks| <= |s.deliveries|
  {
    s.(deliveries := seq(|s.deliveries|, d requires 0 <= d < |s.deliveries| =>
         if lo <= d < lo + |acks| then s.deliveries[d].(ack := acks[d - lo]) else s.deliveries[d]))
  }

  lemma {:induction false} OwnersAct(c: Config, s: State, lo: nat, acks: seq<AckState>)
    requires Reachable(c, s) && lo + |acks| <= |s.deliveries|
    requires forall i | 0 <= i < |acks| :: Leads(s.deliveries[lo + i].ack, acks[i])
    ensures Reachable(c, WithAcks(s, lo, acks))
    decreases |acks|
  {
    hide Reachable;
    if acks == [] {
      assert WithAcks(s, lo, acks) == s;
    } else {
      var n := |acks| - 1;
      OwnersAct(c, s, lo, acks[..n]);
      var t := WithAcks(s, lo, acks[..n]);
      assert t.deliveries[lo + n] == s.deliveries[lo + n];
      var ops :| Legal(s.deliveries[lo + n].ack, ops) && Run(s.deliveries[lo + n].ack, ops) == acks[n];
      OwnersRun(c, t, lo + n, ops);
      assert WithAck(t, lo + n, acks[n]) == WithAcks(s, lo, acks);
    }
  }

  // ----- a batch that is given up -----

  /** The handles of task `g`'s deliveries, as they are in the protocol. */
  ghost predicate Carries(s: State, g: nat, acks: seq<AckState>) {
    && g < |s.groups| && s.groups[g].lo + |acks| == s.groups[g].hi <= |s.deliveries|
    && forall i | 0 <= i < |acks| :: s.deliveries[s.groups[g].lo + i].ack == acks[i]
  }

  ghost function States(inputs: seq<AckHandle>): (acks: seq<AckState>)
    reads inputs
    ensures |acks| == |inputs| && forall i | 0 <= i < |acks| :: acks[i] == inputs[i].State()
  {
    seq(|inputs|, i requires 0 <= i < |inputs| reads inputs => inputs[i].State())
  }

  /** The source hands a batch to the transformer, which gives it up: dispatching has failed, the source drains, and no
      handle of the batch is held any more. Those of messages already dropped by their retry strategy say Ack, the
      others Nak. */
  method Dispatch(inputs: seq<AckHandle>, scripts: seq<seq<Attempt>>, finished: set<nat>, ghost c: Config,
                  ghost s: State, ghost g: nat)
    returns (r: BatchResult, ghost t: State)
    requires |inputs| == |scripts| && Distinct(inputs)
    requires forall i | 0 <= i < |inputs| :: inputs[i].State() == FRESH
    requires Reachable(c, s) && s.loop.Dispatching? && Carries(s, g, States(inputs))
    modifies inputs
    ensures Reachable(c, t) && Carries(t, g, States(inputs)) && OthersSame(s, t, g)
    ensures r.GivenUp? <==> exists f: nat :: FirstNotDone(scripts, f) && FateOf(scripts[f]).Failed?
    ensures t.loop == if r.GivenUp? then Draining(false) else s.loop
    ensures forall f: nat | r.GivenUp? && FirstNotDone(scripts, f) ::
              forall i | 0 <= i < |inputs| ::
                Transforming.Settled(inputs[i].State(),
                                     if AlreadyDropped(scripts, finished, f, i) then Ack else Nak(None))
  {
    hide Reachable, Leads, Transforming.Settled, FateOf, AlreadyDropped, FirstNotDone, Carries, OthersSame;
    ghost var before := States(inputs);
    r := TransformBatch(inputs, scripts, finished);
    t := HandlesDropped(c, s, g, before, States(inputs), r.GivenUp?);
  }

  /** Nothing but the handles of task `g`'s deliveries and the loop changed. */
  ghost predicate OthersSame(s: State, t: State, g: nat) {
    && t.groups == s.groups && t.calls == s.calls && t.free == s.free && t.tracker == s.tracker
    && t.cancelled == s.cancelled && |t.deliveries| == |s.deliveries| && g < |s.groups|
    && forall d | 0 <= d < |s.deliveries| && !(s.groups[g].lo <= d < s.groups[g].hi) ::
         t.deliveries[d] == s.deliveries[d]
  }

  lemma HandlesDropped(c: Config, s: State, g: nat, before: seq<AckState>, acks: seq<AckState>, givenUp: bool)
    returns (t: State)
    requires Reachable(c, s) && s.loop.Dispatching? && Carries(s, g, before) && |acks| == |before|
    requires forall i | 0 <= i < |acks| :: Leads(before[i], acks[i])
    ensures Reachable(c, t) && Carries(t, g, acks) && OthersSame(s, t, g)
    ensures t.loop == if givenUp then Draining(false) else s.loop
  {
    hide Reachable, Leads;
    OwnersAct(c, s, s.groups[g].lo, acks);
    t := WithAcks(s, s.groups[g].lo, acks);
    if givenUp {
      ReachableNext(c, t, DispatchFailed);
      t := Next(c, t, DispatchFailed);
    }
  }

  // ----- the drain -----

  /** Nobody holds a handle any more. */
  ghost predicate AllGivenUp(s: State) { forall d | 0 <= d < |s.deliveries| :: NoneHeld(s.deliveries[d].ack) }

  /** The same deliveries, with the same handles, on the same tasks. */
  ghost predicate SameMessages(s: State, t: State) {
    && |t.deliveries| == |s.deliveries| && |t.groups| == |s.groups|
    && (forall d | 0 <= d < |s.deliveries| :: t.deliveries[d].ack == s.deliveries[d].ack)
    && forall g | 0 <= g < |s.groups| :: t.groups[g].lo == s.groups[g].lo && t.groups[g].hi == s.groups[g].hi
  }

  lemma GivenUpStep(c: Config, s: State, l: Label)
    requires SourceProtocol.Enabled(c, s, l) && AllGivenUp(s) && Ending(s.loop)
    ensures var t := Next(c, s, l);
            AllGivenUp(t) && Ending(t.loop) && SameMessages(s, t)
  {
    hide NoneHeld;
    if l.HandleOp? {
      HeldByNobody(s.deliveries[l.d].ack, l.op);
    }
  }

  lemma HeldByNobody(a: AckState, op: Op)
    ensures !(NoneHeld(a) && AckHandles.Enabled(a, op))
  {}

  /** A step that is the source's own: no answer of an owner is waited for. */
  ghost predicate CanGoOn(c: Config, s: State) {
    SourceProtocol.Enabled(c, s, DrainAcquire) || exists g: nat | g < |s.groups| :: CanStep(c, s, g)
  }

  lemma DrainNotStuck(c: Config, s: State)
    requires Reachable(c, s) && AllGivenUp(s) && s.loop.Draining?
    ensures CanGoOn(c, s)
  {
    hide Reachable, CanStep, NoneHeld;
    PermitsConserved(c, s);
    CountNone(s.groups, HoldsPermit);
    if g: nat :| g < |s.groups| && HoldsPermit(s.groups[g]) {
      TaskNotStuck(c, s, g);
    }
  }

  /** Once draining with all handles given up, over every run: the handles stay as they are, the source has not stopped
      only if it can go on by itself, and the tasks take no more steps than they had left. So the drain ends. */
  lemma {:induction false} DrainEnds(c: Config, s: State, ls: seq<Label>)
    requires Reachable(c, s) && Ending(s.loop) && AllGivenUp(s) && Possible(c, s, ls)
    ensures var t := After(c, s, ls);
            && Reachable(c, t) && AllGivenUp(t) && SameMessages(s, t) && (t.loop.Stopped? || CanGoOn(c, t))
            && TaskSteps(ls) <= TotalWork(s.groups)
    decreases |ls|
  {
    hide Reachable, AllGivenUp, CanGoOn, SourceProtocol.Enabled, Next;
    DrainBounded(c, s, ls);
    if ls == [] {
      if s.loop.Draining? {
        DrainNotStuck(c, s);
      }
    } else {
      GivenUpStep(c, s, ls[0]);
      ReachableNext(c, s, ls[0]);
      DrainEnds(c, Next(c, s, ls[0]), ls[1..]);
    }
  }

  // ----- what was reported -----

  lemma SettledVerdict(a: AckState, verdict: ReadAck)
    requires Inv(a) && Transforming.Settled(a, verdict)
    ensures verdict.Ack? <==> AllSucceeded(a)
  {
    CountNone(a.handles, IsHeld);
  }

  /** An ack was sent, and accepted if its task ended well, or a nack was sent if it did. */
  ghost predicate ReportedAs(s: State, d: nat, verdict: ReadAck, ok: bool) {
    && (SentAck(s, d) <==> verdict.Ack?)
    && (Acked(s, d) <==> verdict.Ack? && ok)
    && (SentNack(s, d) <==> verdict.Nak? && ok)
  }

  /** Once the source has stopped, the batch of task `g` has been reported as its handles say: what was dropped is acked
      and the rest nacked, unless an ack was refused for good. Nothing can be refused if nothing was dropped. */
  lemma GivenUpReported(c: Config, s: State, g: nat, acks: seq<AckState>, verdicts: seq<ReadAck>)
    requires Reachable(c, s) && s.loop.Stopped? && Permits(c) < U32 && Carries(s, g, acks)
    requires |verdicts| == |acks| && forall i | 0 <= i < |acks| :: Transforming.Settled(acks[i], verdicts[i])
    ensures s.groups[g].phase.Released?
    ensures (forall i | 0 <= i < |acks| :: !verdicts[i].Ack?) ==> s.groups[g].phase.ok
    ensures forall i | 0 <= i < |acks| ::
              ReportedAs(s, s.groups[g].lo + i, verdicts[i], s.groups[g].phase.ok)
  {
    hide Reachable, ProtocolInv, SentAck, Acked, SentNack, Transforming.Settled, Inv, AllSucceeded;
    StoppedMeansDrained(c, s);
    ReachableInv(c, s);
    forall i | 0 <= i < |acks|
      ensures var d := s.groups[g].lo + i;
              && Through(s, d) && s.deliveries[d].group == g && (verdicts[i].Ack? <==> AllSucceeded(acks[i]))
    {
      SameTask(c, s, g, s.groups[g].lo + i);
      ReleasedSettled(c, s, s.groups[g].lo + i);
      SettledVerdict(acks[i], verdicts[i]);
    }
    forall i | 0 <= i < |acks| ensures ReportedAs(s, s.groups[g].lo + i, verdicts[i], s.groups[g].phase.ok) {
      ReleasedMeansReported(c, s, s.groups[g].lo + i);
    }
    if !s.groups[g].phase.ok {
      var d := RefusedDelivery(c, s, g);
      RefusedSucceeded(c, s, d);
      ReleasedSettled(c, s, d);
      var i := d - s.groups[g].lo;
      assert s.groups[g].lo + i == d && acks[i] == s.deliveries[d].ack;
      assert verdicts[i].Ack?;
    }
  }

  /** The whole of it: task `g`'s batch was given up, nobody holds a handle of any other message, and the source drains.
      However the run goes on, it cannot get stuck and its tasks have a bounded number of steps left; once it has
      stopped the batch has been reported. */
  lemma GivenUpBatchDrains(c: Config, s: State, g: nat, acks: seq<AckState>, verdicts: seq<ReadAck>, ls: seq<Label>)
    requires Reachable(c, s) && s.loop.Draining? && Permits(c) < U32 && Carries(s, g, acks)
    requires |verdicts| == |acks| && forall i | 0 <= i < |acks| :: Transforming.Settled(acks[i], verdicts[i])
    requires forall d | 0 <= d < |s.deliveries| && !(s.groups[g].lo <= d < s.groups[g].hi) ::
               NoneHeld(s.deliveries[d].ack)
    requires Possible(c, s, ls)
    ensures var t := After(c, s, ls);
            && (t.loop.Stopped? || CanGoOn(c, t)) && TaskSteps(ls) <= TotalWork(s.groups) && g < |t.groups|
            && (t.loop.Stopped? ==>
                  && t.groups[g].phase.Released?
                  && ((forall i | 0 <= i < |acks| :: !verdicts[i].Ack?) ==> t.groups[g].phase.ok)
                  && forall i | 0 <= i < |acks| ::
                       ReportedAs(t, s.groups[g].lo + i, verdicts[i], t.groups[g].phase.ok))
  {
    hide Reachable, CanGoOn, NoneHeld, ReportedAs, Possible, After;
    forall d | 0 <= d < |s.deliveries| ensures NoneHeld(s.deliveries[d].ack) {
      if s.groups[g].lo <= d < s.groups[g].hi {
        assert Transforming.Settled(acks[d - s.groups[g].lo], verdicts[d - s.groups[g].lo]);
      }
    }
    DrainEnds(c, s, ls);
    var t := After(c, s, ls);
    if t.loop.Stopped? {
      GivenUpReported(c, t, g, acks, verdicts);
    }
  }
}
