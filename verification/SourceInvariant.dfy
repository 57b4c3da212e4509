/** What every step of the source protocol keeps, in both modes. */
module SourceInvariant {
  import opened Wrappers
  import opened Counting
  import opened Offsets
  import opened AckHandles
  import opened Tracking
  import opened RetryBudget
  import opened SourceProtocol

  predicate HoldsPermit(g: Group) { !g.phase.Released? }

  predicate IsPending(d: Delivery) { d.settlement.Pending? }

  // ----- permits -----

  function LoopPermits(c: Config, loop: Loop): nat {
    match loop
    case Reading => if c.streaming then 0 else 1
    case Filling(_, _) => 1
    case Holding(_, _) => 1
    case Stopped(_) => DrainNeed(c)
    case _ => 0
  }

  /** No permit is lost or duplicated. An aborted batch gave its permit back for good. */
  ghost predicate PermitInv(c: Config, s: State) {
    && s.free + Count(s.groups, HoldsPermit) + LoopPermits(c, s.loop) == Permits(c)
    && (s.loop.Aborted? ==> s.free >= 1)
  }

  // ----- how the deliveries are divided among the tasks -----

  /** The first delivery that no background task owns. */
  function Unowned(s: State): nat {
    match s.loop
    case Filling(_, lo) => lo
    case Aborted(lo) => lo
    case _ => |s.deliveries|
  }

  function Width(c: Config): nat { if c.streaming then 1 else c.maxRead }

  predicate Fits(c: Config, g: Group, end: nat) {
    && g.lo <= g.hi <= end
    && g.hi - g.lo <= Width(c)
    && (c.streaming ==> g.hi == g.lo + 1)
    && (g.phase.Listening? ==> g.lo <= g.phase.next <= g.hi)
  }

  /** Each task's run of deliveries is at most one read wide, and the loop is in a phase of its mode. */
  ghost predicate ShapeInv(c: Config, s: State) {
    && Unowned(s) <= |s.deliveries| <= Unowned(s) + c.maxRead
    && (forall g | 0 <= g < |s.groups| :: Fits(c, s.groups[g], Unowned(s)))
    && (s.loop.Filling? ==> |s.deliveries| - Unowned(s) + |s.loop.rest| <= c.maxRead)
    && (s.loop.Filling? || s.loop.Aborted? || s.loop.Acquiring? ==> !c.streaming)
    && (s.loop.Waiting? || s.loop.Holding? ==> c.streaming)
  }

  /** The tasks' runs are consecutive, from the first delivery to `end`. */
  ghost predicate Tiled(gs: seq<Group>, end: nat) {
    if gs == [] then end == 0
    else
      var last := gs[|gs| - 1];
      last.lo <= last.hi == end && Tiled(gs[..|gs| - 1], last.lo)
  }

  /** Delivery `d` belongs to the task it names, and is pending exactly until that task reaches it. */
  ghost predicate OwnedBy(d: nat, delivery: Delivery, gs: seq<Group>, end: nat) {
    var g := delivery.group;
    && g <= |gs|
    && (g == |gs| <==> d >= end)
    && (g < |gs| ==> gs[g].lo <= d < gs[g].hi)
    && (IsPending(delivery) <==> g == |gs| || (gs[g].phase.Listening? && gs[g].phase.next <= d))
  }

  ghost predicate OwnerInv(ds: seq<Delivery>, gs: seq<Group>, end: nat) {
    && (forall d | 0 <= d < |ds| :: OwnedBy(d, ds[d], gs, end))
    && (forall g, d | 0 <= g < |gs| && gs[g].lo <= d < gs[g].hi && d < |ds| :: ds[d].group == g)
  }

  // ----- tracker and handles -----

  /** Tracked offsets and pending deliveries are in bijection, and no two tracked offsets clash. */
  ghost predicate TrackerInv(tracker: map<Offset, nat>, ds: seq<Delivery>) {
    && (forall o | o in tracker ::
          tracker[o] < |ds| && IsPending(ds[tracker[o]]) && ds[tracker[o]].offset == o)
    && (forall d | 0 <= d < |ds| && IsPending(ds[d]) :: ds[d].offset in tracker && tracker[ds[d].offset] == d)
    && (forall a, b | a in tracker && b in tracker && Clash(a, b) :: a == b)
    && |tracker| == Count(ds, IsPending)
  }

  /** A settled delivery was settled with the one disposition its handles produced. */
  ghost predicate AckOk(d: Delivery) {
    && Inv(d.ack)
    && !d.settlement.Lost?
    && (d.settlement.Settled? ==> d.ack.sent == [d.settlement.ack])
  }

  ghost predicate AckInv(ds: seq<Delivery>) {
    forall d | 0 <= d < |ds| :: AckOk(ds[d])
  }

  // ----- what was sent upstream -----

  function AcksIn(ds: seq<Delivery>, g: Group): seq<nat> { Acks(ds, g.lo, g.hi) }

  function NaksIn(ds: seq<Delivery>, g: Group): seq<(nat, Option<NackOptions>)> { Naks(ds, g.lo, g.hi) }

  predicate NackingOrDone(p: Phase) { p.Nacking? || p == Finished(true) || p == Released(true) }

  /** Everything sent upstream is what the task's dispositions call for. */
  ghost predicate CallOk(ds: seq<Delivery>, gs: seq<Group>, call: Call) {
    && call.group < |gs|
    && !gs[call.group].phase.Listening?
    && (call.AckCall? ==> call.acks == AcksIn(ds, gs[call.group]))
    && (call.AckCall? && call.reply.Accepted? ==> NackingOrDone(gs[call.group].phase))
    && (call.NackCall? ==> call.naks == NaksIn(ds, gs[call.group]) && NackingOrDone(gs[call.group].phase))
  }

  /** What task `i` has already sent in its phase. */
  ghost predicate PhaseOk(ds: seq<Delivery>, i: nat, g: Group, calls: seq<Call>) {
    var acks, naks := AcksIn(ds, g), NaksIn(ds, g);
    var acked := acks != [] ==> exists b :: AckCall(i, acks, Accepted, b) in calls;
    var nackSent := naks != [] ==> exists reply, b :: NackCall(i, naks, reply, b) in calls;
    var ackRefused := acks != [] && exists reply, b :: AckCall(i, acks, reply, b) in calls;
    match g.phase
    case Listening(_) => true
    case Acking(t) => acks != [] && t <= ACK_RETRY_ATTEMPTS
    case Nacking(t) => naks != [] && acked && t <= NACK_RETRY_ATTEMPTS
    case Finished(ok) => if ok then acked && nackSent else ackRefused
    case Released(ok) => if ok then acked && nackSent else ackRefused
  }

  ghost predicate CallInv(ds: seq<Delivery>, gs: seq<Group>, calls: seq<Call>) {
    && (forall k | 0 <= k < |calls| :: CallOk(ds, gs, calls[k]))
    && (forall g | 0 <= g < |gs| :: PhaseOk(ds, g, gs[g], calls))
  }

  ghost predicate ProtocolInv(c: Config, s: State) {
    && PermitInv(c, s)
    && ShapeInv(c, s)
    && Tiled(s.groups, Unowned(s))
    && OwnerInv(s.deliveries, s.groups, Unowned(s))
    && TrackerInv(s.tracker, s.deliveries)
    && AckInv(s.deliveries)
    && CallInv(s.deliveries, s.groups, s.calls)
  }

  lemma InitInv(c: Config)
    ensures ProtocolInv(c, Init(c))
  {}

  // ----- framing -----

  lemma {:induction false} ListsFrame(ds: seq<Delivery>, ds': seq<Delivery>, lo: nat, hi: nat)
    requires hi <= |ds| && hi <= |ds'|
    requires forall d | lo <= d < hi :: ds[d].settlement == ds'[d].settlement
    ensures Acks(ds, lo, hi) == Acks(ds', lo, hi)
    ensures Naks(ds, lo, hi) == Naks(ds', lo, hi)
    decreases hi
  {
    if lo < hi {
      ListsFrame(ds, ds', lo, hi - 1);
    }
  }

  /** Calls and tasks past listening rest on settlements that are not touched again. */
  lemma CallFrame(ds: seq<Delivery>, ds': seq<Delivery>, gs: seq<Group>, gs': seq<Group>, calls: seq<Call>)
    requires CallInv(ds, gs, calls)
    requires |gs| <= |gs'|
    requires forall g | 0 <= g < |gs'| :: gs'[g].phase.Listening? || (g < |gs| && gs'[g] == gs[g])
    requires forall g | 0 <= g < |gs| && !gs[g].phase.Listening? ::
               && gs'[g] == gs[g] && gs[g].hi <= |ds| && gs[g].hi <= |ds'|
               && forall d | gs[g].lo <= d < gs[g].hi :: ds[d].settlement == ds'[d].settlement
    ensures CallInv(ds', gs', calls)
  {
    forall g | 0 <= g < |gs| && !gs[g].phase.Listening?
      ensures AcksIn(ds', gs'[g]) == AcksIn(ds, gs[g]) && NaksIn(ds', gs'[g]) == NaksIn(ds, gs[g])
    {
      ListsFrame(ds, ds', gs[g].lo, gs[g].hi);
    }
    forall k | 0 <= k < |calls| ensures CallOk(ds', gs', calls[k]) {
      assert CallOk(ds, gs, calls[k]);
    }
    forall g | 0 <= g < |gs'| ensures PhaseOk(ds', g, gs'[g], calls) {
      if !gs'[g].phase.Listening? { assert PhaseOk(ds, g, gs[g], calls); }
    }
  }

  lemma {:induction false} TiledUpdate(gs: seq<Group>, g: nat, phase: Phase, end: nat)
    requires g < |gs| && Tiled(gs, end)
    ensures Tiled(gs[g := gs[g].(phase := phase)], end)
    decreases |gs|
  {
    var n := |gs| - 1;
    var gs' := gs[g := gs[g].(phase := phase)];
    if g < n {
      TiledUpdate(gs[..n], g, phase, gs[n].lo);
      assert gs'[..n] == gs[..n][g := gs[g].(phase := phase)];
    } else {
      assert gs'[..n] == gs[..n];
    }
  }

  lemma TiledAppend(gs: seq<Group>, g: Group)
    requires Tiled(gs, g.lo) && g.lo <= g.hi
    ensures Tiled(gs + [g], g.hi)
  {}

  // ----- steps of the loop that leave deliveries, tasks, tracker and calls alone -----

  predicate LoopOnly(l: Label) {
    || l.Cancel? || l.Check? || l.AcquireForBatch? || l.RateLimited? || l.Read? || l.AcquireForMessage?
    || l.BreakOnCancel? || l.EndBatch? || l.Dispatched? || l.DispatchFailed? || l.DrainAcquire? || l.CancelOnError?
  }

  lemma LoopPermitStep(c: Config, s: State, l: Label)
    requires PermitInv(c, s) && SourceProtocol.Enabled(c, s, l) && LoopOnly(l)
    requires s.loop.Acquiring? ==> !c.streaming
    ensures PermitInv(c, Next(c, s, l))
  {}

  lemma LoopShapeStep(c: Config, s: State, l: Label)
    requires ShapeInv(c, s) && SourceProtocol.Enabled(c, s, l) && LoopOnly(l)
    ensures ShapeInv(c, Next(c, s, l)) && Unowned(Next(c, s, l)) == Unowned(s)
    ensures var s' := Next(c, s, l);
            s'.deliveries == s.deliveries && s'.groups == s.groups && s'.tracker == s.tracker && s'.calls == s.calls
  {}

  lemma LoopStep(c: Config, s: State, l: Label)
    requires ProtocolInv(c, s) && SourceProtocol.Enabled(c, s, l) && LoopOnly(l)
    ensures ProtocolInv(c, Next(c, s, l))
  {
    LoopPermitStep(c, s, l);
    LoopShapeStep(c, s, l);
  }

  // ----- admission -----

  lemma AppendOwner(ds: seq<Delivery>, gs: seq<Group>, end: nat, d: Delivery)
    requires OwnerInv(ds, gs, end) && end <= |ds|
    requires d.group == |gs| && IsPending(d)
    requires forall g | 0 <= g < |gs| :: gs[g].hi <= end
    ensures OwnerInv(ds + [d], gs, end)
  {}

  lemma AppendTracker(tracker: map<Offset, nat>, ds: seq<Delivery>, d: Delivery)
    requires TrackerInv(tracker, ds) && IsPending(d) && !Clashes(tracker, d.offset)
    ensures TrackerInv(tracker[d.offset := |ds|], ds + [d])
  {
    var o := d.offset;
    CountAppend(ds, d, IsPending);
    assert Clash(o, o) by { CmpLaws(o, o, o); }
    assert o !in tracker;
    forall a | a in tracker ensures !Clash(a, o) && !Clash(o, a) {
      if a.partition == o.partition { CmpLaws(a, o, a); }
    }
    assert |tracker[o := |ds|]| == |tracker| + 1;
  }

  lemma AppendAck(ds: seq<Delivery>, d: Delivery)
    requires AckInv(ds) && d.ack == FRESH && IsPending(d)
    ensures AckInv(ds + [d])
  {}

  lemma AdmittedInv(c: Config, s: State, m: Message)
    requires ProtocolInv(c, s) && !Clashes(s.tracker, m.offset)
    ensures var t := Admitted(s, m);
            && TrackerInv(t.tracker, t.deliveries)
            && AckInv(t.deliveries)
            && CallInv(t.deliveries, s.groups, s.calls)
            && OwnerInv(t.deliveries, s.groups, Unowned(s))
  {
    var d := Delivery(m.offset, |s.groups|, FRESH, Pending);
    AppendTracker(s.tracker, s.deliveries, d);
    AppendAck(s.deliveries, d);
    forall g | 0 <= g < |s.groups| ensures s.groups[g].hi <= Unowned(s) { assert Fits(c, s.groups[g], Unowned(s)); }
    AppendOwner(s.deliveries, s.groups, Unowned(s), d);
    CallFrame(s.deliveries, s.deliveries + [d], s.groups, s.groups, s.calls);
  }

  lemma FillShape(c: Config, s: State)
    requires ShapeInv(c, s) && PermitInv(c, s) && SourceProtocol.Enabled(c, s, FillOne)
    ensures ShapeInv(c, Next(c, s, FillOne)) && PermitInv(c, Next(c, s, FillOne))
    ensures Unowned(Next(c, s, FillOne)) == Unowned(s)
  {}

  lemma FillStep(c: Config, s: State)
    requires ProtocolInv(c, s) && SourceProtocol.Enabled(c, s, FillOne)
    ensures ProtocolInv(c, Next(c, s, FillOne))
  {
    FillShape(c, s);
    if !Clashes(s.tracker, s.loop.rest[0].offset) {
      AdmittedInv(c, s, s.loop.rest[0]);
    }
  }

  // ----- a new task -----

  /** All deliveries past the last task become a new one's. */
  lemma AppendGroup(ds: seq<Delivery>, gs: seq<Group>, end: nat, g: Group)
    requires OwnerInv(ds, gs, end) && g == Group(end, |ds|, Listening(end)) && end <= |ds|
    ensures OwnerInv(ds, gs + [g], |ds|)
  {}

  /** Adding a listening task leaves what was sent upstream in order. */
  lemma AppendGroupCalls(c: Config, s: State, ds: seq<Delivery>, g: Group)
    requires CallInv(ds, s.groups, s.calls) && g.phase.Listening?
    requires forall h | 0 <= h < |s.groups| :: Fits(c, s.groups[h], |ds|)
    ensures CallInv(ds, s.groups + [g], s.calls)
  {}

  lemma Widen(c: Config, gs: seq<Group>, end: nat, end': nat)
    requires end <= end' && forall h | 0 <= h < |gs| :: Fits(c, gs[h], end)
    ensures forall h | 0 <= h < |gs| :: Fits(c, gs[h], end')
  {}

  lemma FitsAppend(c: Config, gs: seq<Group>, g: Group, end: nat)
    requires (forall h | 0 <= h < |gs| :: Fits(c, gs[h], g.lo)) && Fits(c, g, end)
    ensures forall h | 0 <= h < |gs + [g]| :: Fits(c, (gs + [g])[h], end)
  {}

  lemma SpawnNext(c: Config, s: State)
    requires SourceProtocol.Enabled(c, s, Spawn)
    ensures s.loop.Filling?
    ensures var g := Group(s.loop.lo, |s.deliveries|, Listening(s.loop.lo));
            Next(c, s, Spawn) == s.(groups := s.groups + [g], loop := Dispatching([]))
  {}

  lemma SpawnShape(c: Config, s: State)
    requires ShapeInv(c, s) && PermitInv(c, s) && SourceProtocol.Enabled(c, s, Spawn)
    ensures ShapeInv(c, Next(c, s, Spawn)) && PermitInv(c, Next(c, s, Spawn))
  {
    SpawnNext(c, s);
    var g := Group(s.loop.lo, |s.deliveries|, Listening(s.loop.lo));
    var s' := s.(groups := s.groups + [g], loop := Dispatching([]));
    CountAppend(s.groups, g, HoldsPermit);
    FitsAppend(c, s.groups, g, |s.deliveries|);
    hide Fits;
    assert ShapeInv(c, s');
  }

  lemma SpawnStep(c: Config, s: State)
    requires ProtocolInv(c, s) && SourceProtocol.Enabled(c, s, Spawn)
    ensures ProtocolInv(c, Next(c, s, Spawn))
  {
    hide TrackerInv, AckInv, CallInv, OwnerInv, Fits, Next, SourceProtocol.Enabled;
    SpawnNext(c, s);
    var g := Group(s.loop.lo, |s.deliveries|, Listening(s.loop.lo));
    SpawnShape(c, s);
    TiledAppend(s.groups, g);
    AppendGroup(s.deliveries, s.groups, s.loop.lo, g);
    Widen(c, s.groups, Unowned(s), |s.deliveries|);
    AppendGroupCalls(c, s, s.deliveries, g);
  }

  /** The message was turned away: the permit goes back and nothing else changes. */
  lemma AdmitRejected(c: Config, s: State)
    requires ShapeInv(c, s) && PermitInv(c, s) && SourceProtocol.Enabled(c, s, Admit)
    requires Clashes(s.tracker, s.loop.msg.offset) || (c.serving && CallbackOf(s.loop.msg).None?)
    ensures ShapeInv(c, Next(c, s, Admit)) && PermitInv(c, Next(c, s, Admit))
    ensures var s' := Next(c, s, Admit);
            && s'.deliveries == s.deliveries && s'.groups == s.groups && s'.tracker == s.tracker
            && s'.calls == s.calls && Unowned(s') == Unowned(s)
  {
    hide Fits;
  }

  lemma AdmitAccepted(c: Config, s: State, s': State, g: Group)
    requires ShapeInv(c, s) && PermitInv(c, s) && s.loop.Holding?
    requires g == Group(|s.deliveries|, |s.deliveries| + 1, Listening(|s.deliveries|))
    requires s'.loop == Dispatching(s.loop.rest) && s'.groups == s.groups + [g] && s'.free == s.free
    requires |s'.deliveries| == |s.deliveries| + 1
    ensures ShapeInv(c, s') && PermitInv(c, s')
  {
    CountAppend(s.groups, g, HoldsPermit);
    FitsAppend(c, s.groups, g, |s'.deliveries|);
    hide Fits;
  }

  lemma AdmitNext(c: Config, s: State)
    requires SourceProtocol.Enabled(c, s, Admit)
    ensures s.loop.Holding?
    ensures var n := |s.deliveries|;
            !Clashes(s.tracker, s.loop.msg.offset) && !(c.serving && CallbackOf(s.loop.msg).None?) ==>
              Next(c, s, Admit) == Admitted(s, s.loop.msg).(groups := s.groups + [Group(n, n + 1, Listening(n))],
                                                            loop := Dispatching(s.loop.rest))
  {}

  lemma AdmitStep(c: Config, s: State)
    requires ProtocolInv(c, s) && SourceProtocol.Enabled(c, s, Admit)
    ensures ProtocolInv(c, Next(c, s, Admit))
  {
    hide Next, SourceProtocol.Enabled, Clashes, TrackerInv, AckInv, CallInv, OwnerInv, ShapeInv, PermitInv;
    AdmitNext(c, s);
    var n, s' := |s.deliveries|, Next(c, s, Admit);
    if Clashes(s.tracker, s.loop.msg.offset) || (c.serving && CallbackOf(s.loop.msg).None?) {
      AdmitRejected(c, s);
    } else {
      var g, t := Group(n, n + 1, Listening(n)), Admitted(s, s.loop.msg);
      AdmittedInv(c, s, s.loop.msg);
      AdmitAccepted(c, s, s', g);
      AdmitTiling(c, s, t.deliveries, g);
    }
  }

  lemma AdmitTiling(c: Config, s: State, ds: seq<Delivery>, g: Group)
    requires ShapeInv(c, s) && Tiled(s.groups, Unowned(s)) && s.loop.Holding?
    requires |ds| == |s.deliveries| + 1 && g == Group(|s.deliveries|, |ds|, Listening(|s.deliveries|))
    requires OwnerInv(ds, s.groups, Unowned(s)) && CallInv(ds, s.groups, s.calls)
    ensures Tiled(s.groups + [g], |ds|)
    ensures OwnerInv(ds, s.groups + [g], |ds|) && CallInv(ds, s.groups + [g], s.calls)
  {
    hide OwnerInv, CallInv, Fits;
    TiledAppend(s.groups, g);
    AppendGroup(ds, s.groups, g.lo, g);
    Widen(c, s.groups, g.lo, g.hi);
    AppendGroupCalls(c, s, ds, g);
  }

  // ----- handles -----

  /** An operation on a handle shows neither in the tracker nor in what was sent. */
  lemma HandleStep(c: Config, s: State, d: nat, op: Op)
    requires ProtocolInv(c, s) && SourceProtocol.Enabled(c, s, HandleOp(d, op))
    ensures ProtocolInv(c, Next(c, s, HandleOp(d, op)))
  {
    hide SourceProtocol.Enabled, Next, TrackerInv, AckInv, CallInv, OwnerInv, Fits;
    HandleNext(c, s, d, op);
    var ds := s.deliveries;
    var e := ds[d].(ack := Apply(ds[d].ack, op));
    ReplaceOwner(ds, s.groups, Unowned(s), d, e);
    ReplaceTracker(s.tracker, ds, d, e);
    ReplaceAck(ds, d, op);
    ReplaceCalls(c, s, d, e);
  }

  lemma HandleNext(c: Config, s: State, d: nat, op: Op)
    requires SourceProtocol.Enabled(c, s, HandleOp(d, op))
    ensures d < |s.deliveries| && AckHandles.Enabled(s.deliveries[d].ack, op)
    ensures Next(c, s, HandleOp(d, op)) ==
            s.(deliveries := s.deliveries[d := s.deliveries[d].(ack := Apply(s.deliveries[d].ack, op))])
  {}

  lemma ReplaceAck(ds: seq<Delivery>, d: nat, op: Op)
    requires AckInv(ds) && d < |ds| && AckHandles.Enabled(ds[d].ack, op)
    ensures AckInv(ds[d := ds[d].(ack := Apply(ds[d].ack, op))])
  {
    assert AckOk(ds[d]);
    ApplyInv(ds[d].ack, op);
  }

  lemma ReplaceCalls(c: Config, s: State, d: nat, e: Delivery)
    requires ShapeInv(c, s) && CallInv(s.deliveries, s.groups, s.calls)
    requires d < |s.deliveries| && e.settlement == s.deliveries[d].settlement
    ensures CallInv(s.deliveries[d := e], s.groups, s.calls)
  {
    forall g | 0 <= g < |s.groups| ensures s.groups[g].hi <= |s.deliveries| { assert Fits(c, s.groups[g], Unowned(s)); }
    CallFrame(s.deliveries, s.deliveries[d := e], s.groups, s.groups, s.calls);
  }

  lemma ReplaceOwner(ds: seq<Delivery>, gs: seq<Group>, end: nat, d: nat, e: Delivery)
    requires OwnerInv(ds, gs, end) && d < |ds| && e.group == ds[d].group && e.settlement == ds[d].settlement
    ensures OwnerInv(ds[d := e], gs, end)
  {}

  lemma ReplaceTracker(tracker: map<Offset, nat>, ds: seq<Delivery>, d: nat, e: Delivery)
    requires TrackerInv(tracker, ds) && d < |ds| && e.offset == ds[d].offset && e.settlement == ds[d].settlement
    ensures TrackerInv(tracker, ds[d := e])
  {
    CountUpdate(ds, d, e, IsPending);
  }

  // ----- settling one delivery -----

  /** The branch for a channel that closed without a disposition cannot be taken. */
  lemma NeverLost(c: Config, s: State, g: nat)
    requires AckInv(s.deliveries)
    ensures !SourceProtocol.Enabled(c, s, LoseReceiver(g))
  {}

  lemma SettleTracker(tracker: map<Offset, nat>, ds: seq<Delivery>, d: nat, e: Delivery)
    requires TrackerInv(tracker, ds) && d < |ds| && IsPending(ds[d]) && !IsPending(e)
    ensures TrackerInv(tracker - {ds[d].offset}, ds[d := e])
    ensures forall after :: Removed(tracker, ds[d].offset, after) <==> after == tracker - {ds[d].offset}
  {
    var o := ds[d].offset;
    CountUpdate(ds, d, e, IsPending);
    assert (tracker - {o}).Keys == tracker.Keys - {o};
    assert Clash(o, o) by { CmpLaws(o, o, o); }
    assert Clashes(tracker, o);
  }

  lemma SettleOwner(ds: seq<Delivery>, gs: seq<Group>, end: nat, g: nat, e: Delivery)
    requires OwnerInv(ds, gs, end) && g < |gs| && gs[g].phase.Listening?
    requires gs[g].lo <= gs[g].phase.next < gs[g].hi && gs[g].phase.next < |ds|
    requires e.group == ds[gs[g].phase.next].group && !IsPending(e)
    ensures ds[gs[g].phase.next].group == g && IsPending(ds[gs[g].phase.next])
    ensures OwnerInv(ds[gs[g].phase.next := e], gs[g := gs[g].(phase := Listening(gs[g].phase.next + 1))], end)
  {}

  lemma SettleNext(c: Config, s: State, g: nat)
    requires SourceProtocol.Enabled(c, s, Settle(g))
    ensures ListensTo(s, g)
    ensures var d := s.groups[g].phase.next;
            && |s.deliveries[d].ack.sent| == 1
            && Next(c, s, Settle(g)) == Settling(s, g, Settled(s.deliveries[d].ack.sent[0]))
  {}

  lemma SettleShape(c: Config, s: State, g: nat)
    requires ShapeInv(c, s) && PermitInv(c, s) && SourceProtocol.Enabled(c, s, Settle(g))
    ensures ShapeInv(c, Next(c, s, Settle(g))) && PermitInv(c, Next(c, s, Settle(g)))
    ensures Unowned(Next(c, s, Settle(g))) == Unowned(s)
  {
    hide Next, SourceProtocol.Enabled;
    SettleNext(c, s, g);
    assert Fits(c, s.groups[g], Unowned(s));
    CountUpdate(s.groups, g, Next(c, s, Settle(g)).groups[g], HoldsPermit);
  }

  lemma SettleStep(c: Config, s: State, g: nat)
    requires ProtocolInv(c, s) && SourceProtocol.Enabled(c, s, Settle(g))
    ensures ProtocolInv(c, Next(c, s, Settle(g)))
  {
    hide TrackerInv, CallInv, OwnerInv, Next, SourceProtocol.Enabled;
    SettleNext(c, s, g);
    var d := s.groups[g].phase.next;
    var e := s.deliveries[d].(settlement := Settled(s.deliveries[d].ack.sent[0]));
    assert Fits(c, s.groups[g], Unowned(s));
    assert AckOk(s.deliveries[d]);
    SettleShape(c, s, g);
    TiledUpdate(s.groups, g, Listening(d + 1), Unowned(s));
    SettleOwner(s.deliveries, s.groups, Unowned(s), g, e);
    SettleTracker(s.tracker, s.deliveries, d, e);
    SettleCalls(c, s, g, e);
  }

  lemma SettleCalls(c: Config, s: State, g: nat, e: Delivery)
    requires CallInv(s.deliveries, s.groups, s.calls) && OwnerInv(s.deliveries, s.groups, Unowned(s))
    requires ShapeInv(c, s) && ListensTo(s, g) && s.deliveries[s.groups[g].phase.next].group == g
    ensures var d := s.groups[g].phase.next;
            CallInv(s.deliveries[d := e], s.groups[g := s.groups[g].(phase := Listening(d + 1))], s.calls)
  {
    var d := s.groups[g].phase.next;
    forall h | 0 <= h < |s.groups| ensures s.groups[h].hi <= |s.deliveries| {
      assert Fits(c, s.groups[h], Unowned(s));
    }
    CallFrame(s.deliveries, s.deliveries[d := e],
              s.groups, s.groups[g := s.groups[g].(phase := Listening(d + 1))], s.calls);
  }

  // ----- a task moving on once it has all dispositions -----

  predicate TaskMove(l: Label) { l.ListenDone? || l.TryAck? || l.TryNack? || l.ReleasePermit? }

  /** Only the moving task's phase, the log and at most one permit change. */
  lemma MoveFacts(c: Config, s: State, l: Label)
    requires SourceProtocol.Enabled(c, s, l) && TaskMove(l)
    ensures var s' := Next(c, s, l);
            && l.g < |s.groups| == |s'.groups|
            && s'.deliveries == s.deliveries && s'.tracker == s.tracker && s'.loop == s.loop
            && s'.groups == s.groups[l.g := s.groups[l.g].(phase := s'.groups[l.g].phase)]
            && !s'.groups[l.g].phase.Listening?
            && s'.free == s.free + (if l.ReleasePermit? then 1 else 0)
            && HoldsPermit(s.groups[l.g])
            && (HoldsPermit(s'.groups[l.g]) <==> !l.ReleasePermit?)
            && (s.groups[l.g].phase.Listening? ==> s.groups[l.g].phase.next == s.groups[l.g].hi)
  {}

  lemma MoveShape(c: Config, s: State, l: Label)
    requires ShapeInv(c, s) && PermitInv(c, s) && SourceProtocol.Enabled(c, s, l) && TaskMove(l)
    ensures ShapeInv(c, Next(c, s, l)) && PermitInv(c, Next(c, s, l))
  {
    hide SourceProtocol.Enabled, Next;
    var s' := Next(c, s, l);
    MoveFacts(c, s, l);
    assert Fits(c, s.groups[l.g], Unowned(s));
    assert Fits(c, s'.groups[l.g], Unowned(s));
    CountUpdate(s.groups, l.g, s'.groups[l.g], HoldsPermit);
  }

  lemma MoveOwner(ds: seq<Delivery>, gs: seq<Group>, end: nat, g: nat, phase: Phase)
    requires OwnerInv(ds, gs, end) && g < |gs| && !phase.Listening?
    requires gs[g].phase.Listening? ==> gs[g].phase.next == gs[g].hi
    ensures OwnerInv(ds, gs[g := gs[g].(phase := phase)], end)
  {}

  /** Task `g` moves to `phase`, having possibly sent one more call on its own behalf. */
  lemma MoveCalls(ds: seq<Delivery>, gs: seq<Group>, calls: seq<Call>, g: nat, phase: Phase, more: seq<Call>)
    requires CallInv(ds, gs, calls) && g < |gs| && !phase.Listening?
    requires NackingOrDone(gs[g].phase) ==> NackingOrDone(phase)
    requires forall x | x in more :: CallOk(ds, gs[g := gs[g].(phase := phase)], x)
    requires PhaseOk(ds, g, gs[g].(phase := phase), calls + more)
    ensures CallInv(ds, gs[g := gs[g].(phase := phase)], calls + more)
  {
    var gs', calls' := gs[g := gs[g].(phase := phase)], calls + more;
    forall k | 0 <= k < |calls'| ensures CallOk(ds, gs', calls'[k]) {
      if k < |calls| {
        assert CallOk(ds, gs, calls[k]);
      } else {
        assert calls'[k] in more;
      }
    }
    forall h | 0 <= h < |gs'| ensures PhaseOk(ds, h, gs'[h], calls') {
      if h != g { assert PhaseOk(ds, h, gs[h], calls); }
    }
  }

  ghost predicate SentInv(s: State) { CallInv(s.deliveries, s.groups, s.calls) }

  lemma AckMove(c: Config, s: State, g: nat, reply: UpstreamReply)
    requires SentInv(s) && SourceProtocol.Enabled(c, s, TryAck(g, reply))
    ensures SentInv(Next(c, s, TryAck(g, reply)))
  {
    assert PhaseOk(s.deliveries, g, s.groups[g], s.calls);
    MoveCalls(s.deliveries, s.groups, s.calls, g, Next(c, s, TryAck(g, reply)).groups[g].phase,
              [AckCall(g, AcksOf(s, g), reply, s.cancelled)]);
  }

  lemma NackMove(c: Config, s: State, g: nat, reply: UpstreamReply)
    requires SentInv(s) && SourceProtocol.Enabled(c, s, TryNack(g, reply))
    ensures SentInv(Next(c, s, TryNack(g, reply)))
  {
    assert PhaseOk(s.deliveries, g, s.groups[g], s.calls);
    MoveCalls(s.deliveries, s.groups, s.calls, g, Next(c, s, TryNack(g, reply)).groups[g].phase,
              [NackCall(g, NaksOf(s, g), reply, s.cancelled)]);
  }

  lemma SilentMove(c: Config, s: State, l: Label)
    requires SentInv(s) && SourceProtocol.Enabled(c, s, l) && (l.ListenDone? || l.ReleasePermit?)
    ensures SentInv(Next(c, s, l))
  {
    assert PhaseOk(s.deliveries, l.g, s.groups[l.g], s.calls);
    assert s.calls + [] == s.calls;
    MoveCalls(s.deliveries, s.groups, s.calls, l.g, Next(c, s, l).groups[l.g].phase, []);
  }

  lemma MoveCallsStep(c: Config, s: State, l: Label)
    requires SentInv(s) && SourceProtocol.Enabled(c, s, l) && TaskMove(l)
    ensures SentInv(Next(c, s, l))
  {
    hide SentInv, Next, SourceProtocol.Enabled;
    match l
    case TryAck(g, reply) => AckMove(c, s, g, reply);
    case TryNack(g, reply) => NackMove(c, s, g, reply);
    case ListenDone(_) => SilentMove(c, s, l);
    case ReleasePermit(_) => SilentMove(c, s, l);
  }

  lemma MoveStep(c: Config, s: State, l: Label)
    requires ProtocolInv(c, s) && SourceProtocol.Enabled(c, s, l) && TaskMove(l)
    ensures ProtocolInv(c, Next(c, s, l))
  {
    hide TrackerInv, AckInv, CallInv, OwnerInv, Next, SourceProtocol.Enabled;
    MoveFacts(c, s, l);
    var phase := Next(c, s, l).groups[l.g].phase;
    MoveShape(c, s, l);
    TiledUpdate(s.groups, l.g, phase, Unowned(s));
    MoveOwner(s.deliveries, s.groups, Unowned(s), l.g, phase);
    MoveCallsStep(c, s, l);
  }

  // ----- all steps, all runs -----

  lemma StepInv(c: Config, s: State, l: Label)
    requires ProtocolInv(c, s) && SourceProtocol.Enabled(c, s, l)
    ensures ProtocolInv(c, Next(c, s, l))
  {
    if LoopOnly(l) {
      LoopStep(c, s, l);
    } else if TaskMove(l) {
      MoveStep(c, s, l);
    } else {
      match l
      case FillOne => FillStep(c, s);
      case Spawn => SpawnStep(c, s);
      case Admit => AdmitStep(c, s);
      case HandleOp(d, op) => HandleStep(c, s, d, op);
      case Settle(g) => SettleStep(c, s, g);
      case LoseReceiver(g) => NeverLost(c, s, g);
    }
  }

  lemma {:induction false} RunInvariant(c: Config, s: State, ls: seq<Label>)
    requires ProtocolInv(c, s) && Possible(c, s, ls)
    ensures ProtocolInv(c, After(c, s, ls))
    decreases |ls|
  {
    if ls != [] {
      StepInv(c, s, ls[0]);
      RunInvariant(c, Next(c, s, ls[0]), ls[1..]);
    }
  }
}
