/**
 What the source protocol guarantees over every run: acknowledgement safety, exact accounting of permits
 and tracked messages, and when the shutdown drain really waits for everything.
 */
module SourceTheorems {
  import opened Wrappers
  import opened Counting
  import opened Offsets
  import opened AckHandles
  import opened Tracking
  import opened SourceProtocol
  import opened SourceInvariant

  ghost predicate Reachable(c: Config, s: State) {
    exists ls | Possible(c, Init(c), ls) :: s == After(c, Init(c), ls)
  }

  lemma ReachableInv(c: Config, s: State)
    requires Reachable(c, s)
    ensures ProtocolInv(c, s)
  {
    var ls :| Possible(c, Init(c), ls) && s == After(c, Init(c), ls);
    InitInv(c);
    RunInvariant(c, Init(c), ls);
  }

  // ----- acknowledgement safety -----

  lemma {:induction false} AcksMembers(ds: seq<Delivery>, lo: nat, hi: nat, id: nat)
    requires hi <= |ds|
    ensures id in Acks(ds, lo, hi) <==> lo <= id < hi && ds[id].settlement == Settled(Ack)
    decreases hi
  {
    if lo < hi {
      AcksMembers(ds, lo, hi - 1, id);
    }
  }

  lemma {:induction false} NaksMembers(ds: seq<Delivery>, lo: nat, hi: nat, id: nat, o: Option<NackOptions>)
    requires hi <= |ds|
    ensures (id, o) in Naks(ds, lo, hi) <==> lo <= id < hi && ds[id].settlement == Settled(Nak(o))
    decreases hi
  {
    if lo < hi {
      NaksMembers(ds, lo, hi - 1, id, o);
    }
  }

  ghost predicate Ascends(ids: seq<nat>, end: nat) {
    (forall i, j | 0 <= i < j < |ids| :: ids[i] < ids[j]) && (forall i | 0 <= i < |ids| :: ids[i] < end)
  }

  function Ids(naks: seq<(nat, Option<NackOptions>)>): seq<nat> {
    seq(|naks|, i requires 0 <= i < |naks| => naks[i].0)
  }

  lemma OneMoreAscends(ids: seq<nat>, end: nat)
    requires Ascends(ids, end)
    ensures Ascends(ids, end + 1) && Ascends(ids + [end], end + 1)
  {}

  lemma IdsAppend(naks: seq<(nat, Option<NackOptions>)>, nak: (nat, Option<NackOptions>))
    ensures Ids(naks + [nak]) == Ids(naks) + [nak.0]
  {}

  /** Deliveries are reported in the order they were read, none of them twice. */
  lemma {:induction false} AcksAscend(ds: seq<Delivery>, lo: nat, hi: nat)
    requires hi <= |ds|
    ensures Ascends(Acks(ds, lo, hi), hi) && Ascends(Ids(Naks(ds, lo, hi)), hi)
    decreases hi
  {
    if lo < hi {
      hide Ascends, Ids;
      AcksAscend(ds, lo, hi - 1);
      OneMoreAscends(Acks(ds, lo, hi - 1), hi - 1);
      OneMoreAscends(Ids(Naks(ds, lo, hi - 1)), hi - 1);
      assert Acks(ds, lo, hi - 1) + [] == Acks(ds, lo, hi - 1);
      var naks := Naks(ds, lo, hi - 1);
      if ds[hi - 1].settlement.Settled? && ds[hi - 1].settlement.ack.Nak? {
        IdsAppend(naks, (hi - 1, ds[hi - 1].settlement.ack.options));
      } else {
        assert naks + [] == naks;
      }
    }
  }

  /** What a disposition says about the handles: all are gone, and it is the verdict on them. */
  lemma SettledMeans(d: Delivery)
    requires AckOk(d) && d.settlement.Settled?
    ensures NoneHeld(d.ack) && d.settlement.ack == Verdict(d.ack)
  {
    CountNone(d.ack.handles, IsHeld);
  }

  lemma CallMeans(c: Config, s: State, call: Call)
    requires ProtocolInv(c, s) && call in s.calls
    ensures call.group < |s.groups| && s.groups[call.group].hi <= |s.deliveries|
    ensures CallOk(s.deliveries, s.groups, call)
  {
    hide TrackerInv, OwnerInv, AckInv;
    assert Fits(c, s.groups[call.group], Unowned(s));
  }

  /** In every run and both modes, the source is sent an ack for a delivery only after every handle ever
      derived from it was marked successful and given up. */
  lemma AckOnlyIfAllSucceeded(c: Config, s: State, call: Call, id: nat)
    requires Reachable(c, s) && call in s.calls && call.AckCall? && id in call.acks
    ensures id < |s.deliveries|
    ensures NoneHeld(s.deliveries[id].ack) && AllSucceeded(s.deliveries[id].ack)
  {
    ReachableInv(c, s);
    CallMeans(c, s, call);
    AcksMembers(s.deliveries, s.groups[call.group].lo, s.groups[call.group].hi, id);
    SettledMeans(s.deliveries[id]);
  }

  /** A nack is sent only for a delivery some handle of which did not succeed, with the first options any
      failure recorded. */
  lemma NackOnlyIfSomeFailed(c: Config, s: State, call: Call, id: nat, o: Option<NackOptions>)
    requires Reachable(c, s) && call in s.calls && call.NackCall? && (id, o) in call.naks
    ensures id < |s.deliveries|
    ensures NoneHeld(s.deliveries[id].ack) && !AllSucceeded(s.deliveries[id].ack)
    ensures o == FirstRecorded(s.deliveries[id].ack.failures)
  {
    ReachableInv(c, s);
    CallMeans(c, s, call);
    NaksMembers(s.deliveries, s.groups[call.group].lo, s.groups[call.group].hi, id, o);
    SettledMeans(s.deliveries[id]);
  }

  /** No delivery is ever both acked and nacked. */
  lemma NeverBoth(c: Config, s: State, a: Call, n: Call, id: nat, o: Option<NackOptions>)
    requires Reachable(c, s) && a in s.calls && n in s.calls
    requires a.AckCall? && n.NackCall? && id in a.acks
    ensures (id, o) !in n.naks
  {
    AckOnlyIfAllSucceeded(c, s, a, id);
    if (id, o) in n.naks {
      NackOnlyIfSomeFailed(c, s, n, id, o);
    }
  }

  // ----- which settled deliveries are reported -----

  ghost predicate SentAck(s: State, id: nat) {
    exists call | call in s.calls :: call.AckCall? && id in call.acks
  }

  /** The source accepted an ack of the delivery. */
  ghost predicate Acked(s: State, id: nat) {
    exists call | call in s.calls :: call.AckCall? && id in call.acks && call.reply.Accepted?
  }

  ghost predicate SentNack(s: State, id: nat) {
    exists call | call in s.calls :: call.NackCall? && exists o :: (id, o) in call.naks
  }

  /** The task that owns delivery `d` has given its permit back. */
  ghost predicate Through(s: State, d: nat) {
    && d < |s.deliveries|
    && s.deliveries[d].group < |s.groups|
    && s.groups[s.deliveries[d].group].phase.Released?
  }

  /** When a task has given its permit back, acks were sent for exactly its successful deliveries, and accepted
      exactly if the task ended well; its failed deliveries were nacked exactly if the task ended well. */
  lemma ReleasedMeansReported(c: Config, s: State, d: nat)
    requires Reachable(c, s) && Through(s, d)
    ensures s.deliveries[d].settlement.Settled?
    ensures var ok := s.groups[s.deliveries[d].group].phase.ok;
            && (SentAck(s, d) <==> AllSucceeded(s.deliveries[d].ack))
            && (Acked(s, d) <==> AllSucceeded(s.deliveries[d].ack) && ok)
            && (SentNack(s, d) <==> !AllSucceeded(s.deliveries[d].ack) && ok)
  {
    ReleasedCalls(c, s, d);
    SentOnlyOnce(c, s, d);
  }

  lemma ReleasedCalls(c: Config, s: State, d: nat)
    requires Reachable(c, s) && Through(s, d)
    ensures s.deliveries[d].settlement.Settled?
    ensures var ok := s.groups[s.deliveries[d].group].phase.ok;
            && (AllSucceeded(s.deliveries[d].ack) ==> SentAck(s, d) && (ok ==> Acked(s, d)))
            && (!AllSucceeded(s.deliveries[d].ack) && ok ==> SentNack(s, d))
            && (!AllSucceeded(s.deliveries[d].ack) && Width(c) <= 1 ==> ok)
  {
    hide ProtocolInv, Reachable;
    ReachableInv(c, s);
    ReleasedSettled(c, s, d);
    var i := s.deliveries[d].group;
    var g := s.groups[i];
    var acks, naks := AcksIn(s.deliveries, g), NaksIn(s.deliveries, g);
    AcksMembers(s.deliveries, g.lo, g.hi, d);
    SettledMeans(s.deliveries[d]);
    if AllSucceeded(s.deliveries[d].ack) {
      var reply, b :| AckCall(i, acks, reply, b) in s.calls && (g.phase.ok ==> reply.Accepted?);
      assert d in AckCall(i, acks, reply, b).acks;
    } else {
      var o := FirstRecorded(s.deliveries[d].ack.failures);
      NaksMembers(s.deliveries, g.lo, g.hi, d, o);
      if g.phase.ok {
        var reply, b :| NackCall(i, naks, reply, b) in s.calls;
        assert (d, o) in NackCall(i, naks, reply, b).naks;
      }
    }
  }

  lemma ReleasedSettled(c: Config, s: State, d: nat)
    requires ProtocolInv(c, s) && Through(s, d)
    ensures AckOk(s.deliveries[d]) && s.deliveries[d].settlement.Settled?
    ensures var g := s.groups[s.deliveries[d].group];
            && g.lo <= d < g.hi <= |s.deliveries|
            && g.hi - g.lo <= Width(c)
            && PhaseOk(s.deliveries, s.deliveries[d].group, g, s.calls)
  {}

  /** A call names a delivery only on behalf of the task that owns it. */
  lemma SentOnlyOnce(c: Config, s: State, d: nat)
    requires Reachable(c, s) && d < |s.deliveries| && s.deliveries[d].group < |s.groups|
    ensures SentAck(s, d) ==> AllSucceeded(s.deliveries[d].ack)
    ensures Acked(s, d) ==> NackingOrDone(s.groups[s.deliveries[d].group].phase)
    ensures SentNack(s, d) ==>
              && !AllSucceeded(s.deliveries[d].ack)
              && NackingOrDone(s.groups[s.deliveries[d].group].phase)
  {
    hide ProtocolInv, Reachable;
    ReachableInv(c, s);
    if SentAck(s, d) {
      var call :| call in s.calls && call.AckCall? && d in call.acks;
      AckOnlyIfAllSucceeded(c, s, call, d);
    }
    if Acked(s, d) {
      var call :| call in s.calls && call.AckCall? && d in call.acks && call.reply.Accepted?;
      CallMeans(c, s, call);
      AcksMembers(s.deliveries, s.groups[call.group].lo, s.groups[call.group].hi, d);
      SameTask(c, s, call.group, d);
    }
    if SentNack(s, d) {
      var call :| call in s.calls && call.NackCall? && exists o :: (d, o) in call.naks;
      var o :| (d, o) in call.naks;
      NackOnlyIfSomeFailed(c, s, call, d, o);
      CallMeans(c, s, call);
      NaksMembers(s.deliveries, s.groups[call.group].lo, s.groups[call.group].hi, d, o);
      SameTask(c, s, call.group, d);
    }
  }

  lemma SameTask(c: Config, s: State, g: nat, d: nat)
    requires ProtocolInv(c, s) && g < |s.groups| && d < |s.deliveries| && s.groups[g].lo <= d < s.groups[g].hi
    ensures s.deliveries[d].group == g
  {
    hide TrackerInv, CallInv, AckInv;
  }

  // ----- accounting -----

  /** In every reachable state the free permits, the tasks' permits and the loop's add up to the size of
      the semaphore, duplicates, tracker errors and cancellation included. */
  lemma PermitsConserved(c: Config, s: State)
    requires Reachable(c, s)
    ensures s.free + Count(s.groups, HoldsPermit) + LoopPermits(c, s.loop) == Permits(c)
  {
    ReachableInv(c, s);
  }

  /** Tracked offsets correspond one to one to deliveries whose task has not yet deleted them; no offset,
      and no pair of offsets the comparison confuses, has two such deliveries. */
  lemma TrackedBijection(c: Config, s: State)
    requires Reachable(c, s)
    ensures forall o | o in s.tracker ::
              && s.tracker[o] < |s.deliveries|
              && IsPending(s.deliveries[s.tracker[o]]) && s.deliveries[s.tracker[o]].offset == o
    ensures forall d | 0 <= d < |s.deliveries| && IsPending(s.deliveries[d]) ::
              s.deliveries[d].offset in s.tracker && s.tracker[s.deliveries[d].offset] == d
    ensures forall d, e | 0 <= d < e < |s.deliveries| && IsPending(s.deliveries[d]) && IsPending(s.deliveries[e]) ::
              !Clash(s.deliveries[d].offset, s.deliveries[e].offset)
    ensures |s.tracker| == Count(s.deliveries, IsPending)
  {
    ReachableInv(c, s);
    hide Reachable, CallInv, AckInv, OwnerInv, PermitInv, ShapeInv;
  }

  /** Task `g` has no pending deliveries once its permit is gone, and at most `w` before. */
  ghost predicate Spent(ds: seq<Delivery>, g: Group, w: nat) {
    && g.hi <= g.lo + w
    && (!HoldsPermit(g) ==> forall d | g.lo <= d < g.hi && d < |ds| :: !IsPending(ds[d]))
  }

  lemma PendingInTask(ds: seq<Delivery>, g: Group, w: nat)
    requires Spent(ds, g, w) && g.lo <= g.hi <= |ds|
    ensures Count(ds[g.lo..g.hi], IsPending) <= if HoldsPermit(g) then w else 0
  {
    var run := ds[g.lo..g.hi];
    if !HoldsPermit(g) {
      forall i | 0 <= i < |run| ensures !IsPending(run[i]) { assert run[i] == ds[g.lo + i]; }
      CountNone(run, IsPending);
    }
  }

  lemma {:induction false} PendingInTasks(ds: seq<Delivery>, gs: seq<Group>, end: nat, w: nat)
    requires Tiled(gs, end) && end <= |ds|
    requires forall g | 0 <= g < |gs| :: Spent(ds, gs[g], w)
    ensures Count(ds[..end], IsPending) <= w * Count(gs, HoldsPermit)
    decreases |gs|
  {
    if gs != [] {
      hide Spent, HoldsPermit;
      var n := |gs| - 1;
      var g := gs[n];
      PendingInTasks(ds, gs[..n], g.lo, w);
      PendingInTask(ds, g, w);
      CountSplit(ds[..end], g.lo, IsPending);
      assert ds[..end][..g.lo] == ds[..g.lo];
      assert ds[..end][g.lo..] == ds[g.lo..g.hi];
      AddOne(Count(ds[..g.lo], IsPending), Count(ds[g.lo..g.hi], IsPending), w, Count(gs[..n], HoldsPermit));
    }
  }

  /** Tracked messages never exceed one read's worth per permit. */
  lemma TrackedBound(c: Config, s: State)
    requires Reachable(c, s)
    ensures |s.tracker| <= Width(c) * Permits(c)
  {
    hide ProtocolInv, Reachable;
    ReachableInv(c, s);
    PendingBelow(c, s);
    CountSplit(s.deliveries, Unowned(s), IsPending);
    var w, held := Width(c), Count(s.groups, HoldsPermit);
    var owned, open := Count(s.deliveries[..Unowned(s)], IsPending), Count(s.deliveries[Unowned(s)..], IsPending);
    if Unowned(s) < |s.deliveries| {
      AddOne(owned, open, w, held);
      MulMonotone(w, held + 1, Permits(c));
    } else {
      MulMonotone(w, held, Permits(c));
    }
  }

  lemma PendingBelow(c: Config, s: State)
    requires ProtocolInv(c, s)
    ensures Unowned(s) <= |s.deliveries| && |s.tracker| == Count(s.deliveries, IsPending)
    ensures Count(s.deliveries[..Unowned(s)], IsPending) <= Width(c) * Count(s.groups, HoldsPermit)
    ensures Count(s.groups, HoldsPermit) <= Permits(c)
    ensures Unowned(s) < |s.deliveries| ==>
              Count(s.groups, HoldsPermit) + 1 <= Permits(c) && |s.deliveries| - Unowned(s) <= Width(c)
  {
    forall g | 0 <= g < |s.groups| ensures Spent(s.deliveries, s.groups[g], Width(c)) { TaskSpent(c, s, g); }
    hide TrackerInv, CallInv, AckInv, OwnerInv, Spent;
    assert Count(s.deliveries, IsPending) == |s.tracker| by { TrackerSize(s.tracker, s.deliveries); }
    PendingInTasks(s.deliveries, s.groups, Unowned(s), Width(c));
  }

  lemma TrackerSize(tracker: map<Offset, nat>, ds: seq<Delivery>)
    requires TrackerInv(tracker, ds)
    ensures |tracker| == Count(ds, IsPending)
  {}

  lemma TaskSpent(c: Config, s: State, g: nat)
    requires ProtocolInv(c, s) && g < |s.groups|
    ensures Spent(s.deliveries, s.groups[g], Width(c))
  {}

  lemma AddOne(x: nat, y: nat, w: nat, n: nat)
    requires x <= w * n && y <= w
    ensures x + y <= w * (n + 1)
  {}

  lemma MulMonotone(w: nat, a: nat, b: nat)
    requires a <= b
    ensures w * a <= w * b
  {}

  /** Streaming: at most `concurrency` messages are tracked at any time. */
  lemma StreamingBound(c: Config, s: State)
    requires Reachable(c, s) && c.streaming
    ensures |s.tracker| <= c.concurrency
  {
    TrackedBound(c, s);
  }

  /** Batch mode, when reads honour the batch size: with read-ahead at most the larger of `concurrency` and
      the batch size is tracked, without it at most one batch. */
  lemma BatchBound(c: Config, s: State)
    requires Reachable(c, s) && !c.streaming && c.maxRead <= c.batchSize
    ensures c.readAhead ==> |s.tracker| <= Max(c.concurrency, c.batchSize)
    ensures !c.readAhead ==> |s.tracker| <= c.batchSize
  {
    TrackedBound(c, s);
    if c.readAhead && c.batchSize > 0 {
      WholeBatches(c.concurrency, c.batchSize);
      MulMonotone(Permits(c), c.maxRead, c.batchSize);
    }
  }

  /** With read-ahead there are as many permits as whole batches fit into `concurrency`, but at least one; without it
      there is one; in streaming mode one per message. */
  lemma PermitsMeans(c: Config)
    ensures c.streaming ==> Permits(c) == c.concurrency
    ensures !c.streaming && !c.readAhead ==> Permits(c) == 1
    ensures !c.streaming && c.readAhead && c.batchSize >= 1 ==>
              && Permits(c) >= 1 && c.concurrency < (Permits(c) + 1) * c.batchSize
              && (Permits(c) > 1 ==> Permits(c) * c.batchSize <= c.concurrency)
    ensures !c.streaming && c.readAhead && c.batchSize == 0 ==>
              Permits(c) == if c.concurrency == 0 then 1 else c.concurrency
  {
    if c.batchSize >= 1 {
      Quotient(c.concurrency, c.batchSize);
    }
  }

  lemma Quotient(n: nat, b: nat)
    requires b > 0
    ensures (n / b) * b <= n < (n / b + 1) * b
    ensures n / b == 0 ==> n < 2 * b
  {}

  lemma WholeBatches(n: nat, b: nat)
    requires b > 0
    ensures Max(1, n / b) * b <= Max(n, b)
  {}

  // ----- the drain -----

  /** While draining, the barrier opens exactly when every task has given its permit back, provided the
      permit count survives the cast to 32 bits. */
  lemma DrainWaitsForAll(c: Config, s: State)
    requires Reachable(c, s) && Permits(c) < U32 && s.loop.Draining?
    ensures SourceProtocol.Enabled(c, s, DrainAcquire) <==>
            forall g | 0 <= g < |s.groups| :: s.groups[g].phase.Released?
  {
    PermitsConserved(c, s);
    CountNone(s.groups, HoldsPermit);
  }

  /** Once stopped, nothing is tracked and every admitted message has been settled and its task has
      finished. */
  lemma StoppedMeansDrained(c: Config, s: State)
    requires Reachable(c, s) && Permits(c) < U32 && s.loop.Stopped?
    ensures s.tracker == map[]
    ensures forall g | 0 <= g < |s.groups| :: s.groups[g].phase.Released?
    ensures forall d | 0 <= d < |s.deliveries| ::
              s.deliveries[d].group < |s.groups| && s.deliveries[d].settlement.Settled? && NoneHeld(s.deliveries[d].ack)
  {
    hide ProtocolInv, Reachable;
    PermitsConserved(c, s);
    CountNone(s.groups, HoldsPermit);
    ReachableInv(c, s);
    forall d | 0 <= d < |s.deliveries|
      ensures s.deliveries[d].group < |s.groups| && s.deliveries[d].settlement.Settled? && NoneHeld(s.deliveries[d].ack)
    {
      StoppedOwned(c, s, d);
      ReleasedSettled(c, s, d);
      SettledMeans(s.deliveries[d]);
    }
    CountNone(s.deliveries, IsPending);
    PendingBelow(c, s);
    assert |s.tracker| == 0;
  }

  lemma StoppedOwned(c: Config, s: State, d: nat)
    requires ProtocolInv(c, s) && s.loop.Stopped? && d < |s.deliveries|
    ensures s.deliveries[d].group < |s.groups|
  {}

  lemma {:induction false} OneMore(c: Config, s: State, ls: seq<Label>, l: Label)
    requires Possible(c, s, ls) && SourceProtocol.Enabled(c, After(c, s, ls), l)
    ensures Possible(c, s, ls + [l]) && After(c, s, ls + [l]) == Next(c, After(c, s, ls), l)
    decreases |ls|
  {
    if ls == [] {
      assert [l][1..] == [];
    } else {
      assert (ls + [l])[1..] == ls[1..] + [l];
      OneMore(c, Next(c, s, ls[0]), ls[1..], l);
    }
  }

  lemma ReachableNext(c: Config, s: State, l: Label)
    requires Reachable(c, s) && SourceProtocol.Enabled(c, s, l)
    ensures Reachable(c, Next(c, s, l))
  {
    var ls :| Possible(c, Init(c), ls) && s == After(c, Init(c), ls);
    OneMore(c, Init(c), ls, l);
  }

  lemma ReachableInit(c: Config)
    ensures Reachable(c, Init(c))
  {
    assert Possible(c, Init(c), []);
  }

  const ANY_MESSAGE := Message(
    IntOffset(0, 0), map[ID_HEADER := "id", POD_HASH_HEADER := "hash"], Some("in"), None, 0)

  /** With 2^32 permits or more the cast lets the source stop while a message is still in flight. */
  lemma {:induction false} DrainLeak(c: Config) returns (s: State)
    requires Permits(c) >= U32 && c.maxRead >= 1
    ensures Reachable(c, s) && s.loop.Stopped? && s.tracker != map[]
  {
    var m := ANY_MESSAGE;
    var d := Delivery(m.offset, 0, FRESH, Pending);
    var busy := State(false, Permits(c) - 1, Dispatching([]), map[m.offset := 0], [d], [Group(0, 1, Listening(0))], []);
    assert Reachable(c, busy) by {
      if c.streaming { LeakStreaming(c); } else { LeakBatch(c); }
    }
    hide Reachable;
    var s1 := busy.(loop := if c.streaming then Waiting([]) else Top);
    assert s1 == Next(c, busy, Dispatched);
    ReachableNext(c, busy, Dispatched);
    var s2 := s1.(cancelled := true);
    assert s2 == Next(c, s1, Cancel);
    ReachableNext(c, s1, Cancel);
    var s3 := s2.(loop := Draining(true));
    var l := if c.streaming then EndBatch else Check;
    assert s3 == Next(c, s2, l);
    ReachableNext(c, s2, l);
    ReachableNext(c, s3, DrainAcquire);
    s := Next(c, s3, DrainAcquire);
    assert m.offset in s.tracker;
  }

  lemma LeakStreaming(c: Config)
    requires c.streaming && Permits(c) >= 1 && c.maxRead >= 1
    ensures var m := ANY_MESSAGE;
            Reachable(c, State(false, Permits(c) - 1, Dispatching([]), map[m.offset := 0],
                               [Delivery(m.offset, 0, FRESH, Pending)], [Group(0, 1, Listening(0))], []))
  {
    var m := ANY_MESSAGE;
    ReachableInit(c);
    hide Reachable;
    var s1 := Init(c).(loop := Reading);
    ReachableNext(c, Init(c), Check);
    assert s1 == Next(c, Init(c), Check);
    var s2 := s1.(loop := Waiting([m]));
    ReachableNext(c, s1, Read(Batch([m])));
    assert s2 == Next(c, s1, Read(Batch([m])));
    var s3 := s2.(free := Permits(c) - 1, loop := Holding(m, []));
    assert [m][1..] == [];
    ReachableNext(c, s2, AcquireForMessage);
    assert s3 == Next(c, s2, AcquireForMessage);
    ReachableNext(c, s3, Admit);
    assert Next(c, s3, Admit) ==
           State(false, Permits(c) - 1, Dispatching([]), map[m.offset := 0],
                 [Delivery(m.offset, 0, FRESH, Pending)], [Group(0, 1, Listening(0))], []);
  }

  lemma LeakBatch(c: Config)
    requires !c.streaming && Permits(c) >= 1 && c.maxRead >= 1
    ensures var m := ANY_MESSAGE;
            Reachable(c, State(false, Permits(c) - 1, Dispatching([]), map[m.offset := 0],
                               [Delivery(m.offset, 0, FRESH, Pending)], [Group(0, 1, Listening(0))], []))
  {
    var m := ANY_MESSAGE;
    ReachableInit(c);
    hide Reachable;
    var s1 := Init(c).(loop := Acquiring);
    ReachableNext(c, Init(c), Check);
    assert s1 == Next(c, Init(c), Check);
    var s2 := s1.(free := Permits(c) - 1, loop := Reading);
    ReachableNext(c, s1, AcquireForBatch);
    assert s2 == Next(c, s1, AcquireForBatch);
    var s3 := s2.(loop := Filling([m], 0));
    ReachableNext(c, s2, Read(Batch([m])));
    assert s3 == Next(c, s2, Read(Batch([m])));
    var s4 := Admitted(s3, m).(loop := Filling([], 0));
    assert [m][1..] == [];
    ReachableNext(c, s3, FillOne);
    assert s4 == Next(c, s3, FillOne);
    ReachableNext(c, s4, Spawn);
    assert Next(c, s4, Spawn) ==
           State(false, Permits(c) - 1, Dispatching([]), map[m.offset := 0],
                 [Delivery(m.offset, 0, FRESH, Pending)], [Group(0, 1, Listening(0))], []);
  }

  /** The drain barrier does its job on every run if and only if the semaphore has fewer than 2^32
      permits. */
  lemma DrainExact(c: Config)
    requires c.maxRead >= 1
    ensures (forall s | Reachable(c, s) && s.loop.Stopped? :: s.tracker == map[]) <==> Permits(c) < U32
  {
    if Permits(c) < U32 {
      forall s | Reachable(c, s) && s.loop.Stopped? ensures s.tracker == map[] {
        StoppedMeansDrained(c, s);
      }
    } else {
      var s := DrainLeak(c);
    }
  }

  // ----- when every settled delivery is reported -----

  const OTHER_MESSAGE := ANY_MESSAGE.(offset := IntOffset(1, 0))

  /** Two deliveries of one task, in whatever state their handles, the task and the tracker are. */
  function TwoInFlight(c: Config, acks: (AckState, AckState), settled: (Settlement, Settlement), phase: Phase,
                       tracker: map<Offset, nat>): State
    requires Permits(c) >= 1
  {
    State(false, Permits(c) - 1, Dispatching([]), tracker,
          [Delivery(ANY_MESSAGE.offset, 0, acks.0, settled.0), Delivery(OTHER_MESSAGE.offset, 0, acks.1, settled.1)],
          [Group(0, 2, phase)], [])
  }

  lemma ReadTwo(c: Config)
    requires !c.streaming && c.maxRead >= 2
    ensures Reachable(c, TwoInFlight(c, (FRESH, FRESH), (Pending, Pending), Listening(0),
                                     map[ANY_MESSAGE.offset := 0, OTHER_MESSAGE.offset := 1]))
  {
    var m, n := ANY_MESSAGE, OTHER_MESSAGE;
    ReachableInit(c);
    hide Reachable;
    var s1 := Init(c).(loop := Acquiring);
    ReachableNext(c, Init(c), Check);
    var s2 := s1.(free := Permits(c) - 1, loop := Reading);
    ReachableNext(c, s1, AcquireForBatch);
    var s3 := s2.(loop := Filling([m, n], 0));
    ReachableNext(c, s2, Read(Batch([m, n])));
    var s4 := Admitted(s3, m).(loop := Filling([n], 0));
    assert [m, n][1..] == [n];
    ReachableNext(c, s3, FillOne);
    assert s4 == Next(c, s3, FillOne);
    var s5 := Admitted(s4, n).(loop := Filling([], 0));
    assert [n][1..] == [];
    assert !Clashes(s4.tracker, n.offset);
    ReachableNext(c, s4, FillOne);
    assert s5 == Next(c, s4, FillOne);
    ReachableNext(c, s5, Spawn);
    assert Next(c, s5, Spawn) == TwoInFlight(c, (FRESH, FRESH), (Pending, Pending), Listening(0),
                                             map[m.offset := 0, n.offset := 1]);
  }

  /** The handle of a message whose one owner reported success, and of one whose owner just dropped it. */
  const GOOD := AckState(0, 0, None, false, [Ack], [Handle(Succeeded, false)], [])
  const DROPPED := AckState(1, 0, None, false, [Nak(None)], [Handle(Unmarked, false)], [])

  lemma EndTwo(c: Config)
    requires !c.streaming && c.maxRead >= 2
    ensures Reachable(c, TwoInFlight(c, (GOOD, DROPPED), (Pending, Pending), Listening(0),
                                     map[ANY_MESSAGE.offset := 0, OTHER_MESSAGE.offset := 1]))
  {
    ReadTwo(c);
    hide Reachable;
    var tracker := map[ANY_MESSAGE.offset := 0, OTHER_MESSAGE.offset := 1];
    var s := TwoInFlight(c, (FRESH, FRESH), (Pending, Pending), Listening(0), tracker);
    var marked := AckState(0, 1, None, true, [], [Handle(Succeeded, true)], []);
    assert Apply(FRESH, MarkSuccess(0)) == marked && Apply(marked, Release(0)) == GOOD;
    assert Apply(FRESH, Release(0)) == DROPPED;
    ReachableNext(c, s, HandleOp(0, MarkSuccess(0)));
    var s1 := TwoInFlight(c, (marked, FRESH), (Pending, Pending), Listening(0), tracker);
    assert s1 == Next(c, s, HandleOp(0, MarkSuccess(0)));
    ReachableNext(c, s1, HandleOp(0, Release(0)));
    var s2 := TwoInFlight(c, (GOOD, FRESH), (Pending, Pending), Listening(0), tracker);
    assert s2 == Next(c, s1, HandleOp(0, Release(0)));
    ReachableNext(c, s2, HandleOp(1, Release(0)));
    var s3 := TwoInFlight(c, (GOOD, DROPPED), (Pending, Pending), Listening(0), tracker);
    assert s3 == Next(c, s2, HandleOp(1, Release(0)));
  }

  lemma SettleTwo(c: Config)
    requires !c.streaming && c.maxRead >= 2
    ensures Reachable(c, TwoInFlight(c, (GOOD, DROPPED), (Settled(Ack), Settled(Nak(None))), Listening(2), map[]))
  {
    EndTwo(c);
    hide Reachable;
    var m, n := ANY_MESSAGE.offset, OTHER_MESSAGE.offset;
    var s := TwoInFlight(c, (GOOD, DROPPED), (Pending, Pending), Listening(0), map[m := 0, n := 1]);
    ReachableNext(c, s, Settle(0));
    var s1 := TwoInFlight(c, (GOOD, DROPPED), (Settled(Ack), Pending), Listening(1), map[n := 1]);
    assert s1 == Next(c, s, Settle(0));
    ReachableNext(c, s1, Settle(0));
    var s2 := TwoInFlight(c, (GOOD, DROPPED), (Settled(Ack), Settled(Nak(None))), Listening(2), map[]);
    assert s2 == Next(c, s1, Settle(0));
  }

  lemma ListenTwo(c: Config)
    requires !c.streaming && c.maxRead >= 2
    ensures Reachable(c, TwoInFlight(c, (GOOD, DROPPED), (Settled(Ack), Settled(Nak(None))), Acking(0), map[]))
  {
    SettleTwo(c);
    hide Reachable, Acks, Naks;
    var s := TwoInFlight(c, (GOOD, DROPPED), (Settled(Ack), Settled(Nak(None))), Listening(2), map[]);
    AcksMembers(s.deliveries, 0, 2, 0);
    ReachableNext(c, s, ListenDone(0));
  }

  /** In batch mode, if a read may return two messages: one succeeds, the other is dropped, the ack is refused for good,
      and the dropped one is never reported although the task is through. */
  lemma {:induction false} NeverReported(c: Config) returns (s: State)
    requires !c.streaming && c.maxRead >= 2
    ensures Reachable(c, s) && Through(s, 1) && !SentAck(s, 1) && !SentNack(s, 1)
  {
    ListenTwo(c);
    var s1 := TwoInFlight(c, (GOOD, DROPPED), (Settled(Ack), Settled(Nak(None))), Acking(0), map[]);
    ReachableNext(c, s1, TryAck(0, NonRetryable));
    var s2 := Next(c, s1, TryAck(0, NonRetryable));
    ReachableNext(c, s2, ReleasePermit(0));
    s := Next(c, s2, ReleasePermit(0));
    assert !s.deliveries[1].ack.handles[0].mark.Succeeded?;
    hide Reachable, SentAck, SentNack;
    ReleasedMeansReported(c, s, 1);
  }

  /** Every delivery whose task is through was reported upstream, on every run, if and only if a task never has more
      than one delivery. */
  lemma ReportedExact(c: Config)
    ensures (forall s, d | Reachable(c, s) && Through(s, d) :: SentAck(s, d) || SentNack(s, d)) <==>
            c.streaming || c.maxRead <= 1
  {
    if c.streaming || c.maxRead <= 1 {
      forall s, d | Reachable(c, s) && Through(s, d) ensures SentAck(s, d) || SentNack(s, d) {
        ReleasedCalls(c, s, d);
      }
    } else {
      var s := NeverReported(c);
    }
  }
}
