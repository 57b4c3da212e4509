/**
 Why the source comes to its end: nothing in it is ever stuck on anything but a handle somebody still holds, a cancelled
 loop takes a bounded number of steps, and so does every background task.
 */
module SourceProgress {
  import opened Counting
  import opened AckHandles
  import opened RetryBudget
  import opened Tracking
  import opened Wrappers
  import opened SourceProtocol
  import opened SourceInvariant
  import opened SourceTheorems

  /** A step of a background task. */
  predicate IsTaskStep(l: Label) {
    l.Settle? || l.LoseReceiver? || l.ListenDone? || l.TryAck? || l.TryNack? || l.ReleasePermit?
  }

  ghost predicate CanStep(c: Config, s: State, g: nat) {
    exists l | IsTaskStep(l) && l.g == g :: SourceProtocol.Enabled(c, s, l)
  }

  /** The task waits for a message some handle of which is still held. */
  ghost predicate WaitsForHandle(s: State, g: nat) {
    ListensTo(s, g) && !NoneHeld(s.deliveries[s.groups[g].phase.next].ack)
  }

  /** In every reachable state a task that has not released its permit can take a step, whatever the source answers,
      unless it waits for a message some handle of which is still held. */
  lemma TaskNotStuck(c: Config, s: State, g: nat)
    requires Reachable(c, s) && g < |s.groups| && !s.groups[g].phase.Released?
    ensures CanStep(c, s, g) || WaitsForHandle(s, g)
  {
    hide ProtocolInv, Reachable, NoneHeld;
    ReachableInv(c, s);
    match s.groups[g].phase
    case Listening(_) => ListenerNotStuck(c, s, g);
    case Acking(_) => assert SourceProtocol.Enabled(c, s, TryAck(g, Accepted));
    case Nacking(_) => assert SourceProtocol.Enabled(c, s, TryNack(g, Accepted));
    case Finished(_) => assert SourceProtocol.Enabled(c, s, ReleasePermit(g));
  }

  lemma ListenerNotStuck(c: Config, s: State, g: nat)
    requires ProtocolInv(c, s) && g < |s.groups| && s.groups[g].phase.Listening?
    ensures CanStep(c, s, g) || WaitsForHandle(s, g)
  {
    hide ProtocolInv, Inv, NoneHeld;
    ListeningFits(c, s, g);
    var next := s.groups[g].phase.next;
    if next == s.groups[g].hi {
      assert SourceProtocol.Enabled(c, s, ListenDone(g));
    } else if NoneHeld(s.deliveries[next].ack) {
      NoneHeldSent(s.deliveries[next].ack);
      assert SourceProtocol.Enabled(c, s, Settle(g));
    }
  }

  lemma NoneHeldSent(a: AckState)
    requires Inv(a) && NoneHeld(a)
    ensures |a.sent| == 1
  {
    CountNone(a.handles, IsHeld);
  }

  lemma ListeningFits(c: Config, s: State, g: nat)
    requires ProtocolInv(c, s) && g < |s.groups| && s.groups[g].phase.Listening?
    ensures s.groups[g].phase.next <= s.groups[g].hi <= |s.deliveries|
    ensures s.groups[g].phase.next < s.groups[g].hi ==> Inv(s.deliveries[s.groups[g].phase.next].ack)
  {
    assert Fits(c, s.groups[g], Unowned(s));
  }

  predicate IsLoopStep(l: Label) {
    || l.Check? || l.AcquireForBatch? || l.RateLimited? || l.Read? || l.FillOne? || l.Spawn? || l.AcquireForMessage?
    || l.BreakOnCancel? || l.Admit? || l.EndBatch? || l.Dispatched? || l.DispatchFailed? || l.DrainAcquire?
  }

  ghost predicate LoopCanStep(c: Config, s: State) { exists l | IsLoopStep(l) :: SourceProtocol.Enabled(c, s, l) }

  /** The loop waits for a permit, or for all of them. */
  predicate WaitsForPermit(c: Config, s: State) {
    match s.loop
    case Acquiring => s.free == 0
    case Waiting(rest) => rest != [] && !s.cancelled && s.free == 0
    case Draining(_) => s.free < DrainNeed(c)
    case _ => false
  }

  lemma LoopNotStuck(c: Config, s: State)
    requires !s.loop.Stopped? && !s.loop.Aborted?
    ensures LoopCanStep(c, s) || WaitsForPermit(c, s)
  {
    var l := match s.loop
      case Top => Check
      case Acquiring => AcquireForBatch
      case Reading => Read(EndOfStream)
      case Filling(rest, _) => if rest == [] then Spawn else FillOne
      case Waiting(rest) => if rest == [] then EndBatch else if s.cancelled then BreakOnCancel else AcquireForMessage
      case Holding(_, _) => Admit
      case Dispatching(_) => Dispatched
      case Draining(_) => DrainAcquire
      case _ => Cancel;
    assert WaitsForPermit(c, s) || SourceProtocol.Enabled(c, s, l);
  }

  /** In every reachable state of a source with at least one permit that has not come to its end: the loop can take a
      step, or some task can, or some task waits for a message some handle of which is still held. The source itself
      never deadlocks, be it reading or draining. */
  lemma SourceNotStuck(c: Config, s: State)
    requires Reachable(c, s) && Permits(c) >= 1 && !s.loop.Stopped? && !s.loop.Aborted?
    ensures LoopCanStep(c, s) || exists g: nat | g < |s.groups| :: CanStep(c, s, g) || WaitsForHandle(s, g)
  {
    hide Reachable, LoopCanStep, CanStep, WaitsForHandle;
    LoopNotStuck(c, s);
    if !LoopCanStep(c, s) {
      PermitsConserved(c, s);
      CountNone(s.groups, HoldsPermit);
      var g: nat :| g < |s.groups| && HoldsPermit(s.groups[g]);
      TaskNotStuck(c, s, g);
    }
  }

  /** Nothing outside is constrained: in every state cancellation may come and handle owners may do whatever their
      handles allow; where the source is asked to read, to take a batch downstream, or to take an ack or nack, every
      answer is possible. */
  lemma EveryAnswerPossible(c: Config, s: State, ms: seq<Message>, d: nat, op: Op, g: nat, reply: UpstreamReply)
    ensures SourceProtocol.Enabled(c, s, Cancel)
    ensures d < |s.deliveries| && op.h < |s.deliveries[d].ack.handles| ==>
              var h := s.deliveries[d].ack.handles[op.h];
              h.held && (op.Release? || h.mark.Unmarked?) ==> SourceProtocol.Enabled(c, s, HandleOp(d, op))
    ensures s.loop.Reading? ==>
              && SourceProtocol.Enabled(c, s, RateLimited) && SourceProtocol.Enabled(c, s, Read(EndOfStream))
              && SourceProtocol.Enabled(c, s, Read(ReadError))
              && (|ms| <= c.maxRead ==> SourceProtocol.Enabled(c, s, Read(Batch(ms))))
    ensures s.loop.Dispatching? ==>
              SourceProtocol.Enabled(c, s, Dispatched) && SourceProtocol.Enabled(c, s, DispatchFailed)
    ensures g < |s.groups| && s.groups[g].phase.Acking? ==> SourceProtocol.Enabled(c, s, TryAck(g, reply))
    ensures g < |s.groups| && s.groups[g].phase.Nacking? ==> SourceProtocol.Enabled(c, s, TryNack(g, reply))
  {}

  // ----- a bound on the steps of a cancelled loop -----

  /** An upper bound on the steps the loop has left once the source is cancelled. */
  function LoopWork(c: Config, loop: Loop): nat {
    match loop
    case Acquiring => c.maxRead + 6
    case Reading => c.maxRead + 5
    case Filling(rest, _) => |rest| + 4
    case Holding(_, _) => 4
    case Dispatching(_) => 3
    case Waiting(_) => 2
    case Top => 2
    case Draining(_) => 1
    case _ => 0
  }

  /** Once cancelled, the source stays so, every step of the loop brings it closer to its end, and no message is given a
      permit in streaming mode any more. */
  lemma CancelledStep(c: Config, s: State, l: Label)
    requires SourceProtocol.Enabled(c, s, l) && s.cancelled
    ensures Next(c, s, l).cancelled && !l.AcquireForMessage?
    ensures if IsLoopStep(l) then LoopWork(c, Next(c, s, l).loop) < LoopWork(c, s.loop)
            else Next(c, s, l).loop == s.loop
  {}

  function LoopSteps(ls: seq<Label>): nat {
    if ls == [] then 0 else LoopSteps(ls[1..]) + if IsLoopStep(ls[0]) then 1 else 0
  }

  /** Over every run of a cancelled source the loop takes no more steps than it had left: at most one more read. */
  lemma {:induction false} CancelledBounded(c: Config, s: State, ls: seq<Label>)
    requires Possible(c, s, ls) && s.cancelled
    ensures LoopSteps(ls) + LoopWork(c, After(c, s, ls).loop) <= LoopWork(c, s.loop)
    decreases |ls|
  {
    if ls != [] {
      hide LoopWork, SourceProtocol.Enabled, Next, IsLoopStep;
      CancelledStep(c, s, ls[0]);
      CancelledBounded(c, Next(c, s, ls[0]), ls[1..]);
    }
  }

  /** A delivery whose ack was given up makes the source stop: its task, once through, can cancel it. */
  lemma RefusedAckCancels(c: Config, s: State, d: nat)
    requires Reachable(c, s) && Through(s, d) && SentAck(s, d) && !Acked(s, d)
    ensures var l := CancelOnError(s.deliveries[d].group);
            SourceProtocol.Enabled(c, s, l) && Next(c, s, l).cancelled
  {
    hide Reachable, SentAck, Acked;
    ReleasedMeansReported(c, s, d);
  }

  /** And no other task can: one that may cancel the source is through with an ack that was given up. */
  lemma CancelOnlyIfRefused(c: Config, s: State, g: nat) returns (d: nat)
    requires Reachable(c, s) && SourceProtocol.Enabled(c, s, CancelOnError(g))
    ensures Through(s, d) && s.deliveries[d].group == g && SentAck(s, d) && !Acked(s, d)
  {
    hide ProtocolInv, Reachable, SentAck, Acked;
    ReachableInv(c, s);
    d := RefusedDelivery(c, s, g);
    ReleasedMeansReported(c, s, d);
    RefusedSucceeded(c, s, d);
  }

  /** A task that ended badly has a delivery whose disposition is Ack. */
  lemma RefusedDelivery(c: Config, s: State, g: nat) returns (d: nat)
    requires ProtocolInv(c, s) && g < |s.groups| && s.groups[g].phase == Released(false)
    ensures Through(s, d) && s.deliveries[d].group == g && s.deliveries[d].settlement == Settled(Ack)
  {
    hide TrackerInv, AckInv, OwnerInv;
    assert PhaseOk(s.deliveries, g, s.groups[g], s.calls) && Fits(c, s.groups[g], Unowned(s));
    d := AcksIn(s.deliveries, s.groups[g])[0];
    AcksMembers(s.deliveries, s.groups[g].lo, s.groups[g].hi, d);
    SameTask(c, s, g, d);
  }

  lemma RefusedSucceeded(c: Config, s: State, d: nat)
    requires ProtocolInv(c, s) && Through(s, d) && s.deliveries[d].settlement == Settled(Ack)
    ensures AllSucceeded(s.deliveries[d].ack)
  {
    hide ProtocolInv;
    ReleasedSettled(c, s, d);
    SettledMeans(s.deliveries[d]);
  }

  // ----- a bound on the steps of a task -----

  function Less(bound: nat, n: nat): nat { if n <= bound then bound - n else 0 }

  /** An upper bound on the steps a task has left. */
  function Work(g: Group): nat {
    match g.phase
    case Listening(next) => ACK_RETRY_ATTEMPTS + NACK_RETRY_ATTEMPTS + 4 + Less(g.hi, next)
    case Acking(tries) => NACK_RETRY_ATTEMPTS + 3 + Less(ACK_RETRY_ATTEMPTS, tries)
    case Nacking(tries) => 2 + Less(NACK_RETRY_ATTEMPTS, tries)
    case Finished(_) => 1
    case Released(_) => 0
  }

  /** The work of all tasks. */
  function TotalWork(gs: seq<Group>): nat {
    if gs == [] then 0 else TotalWork(gs[..|gs| - 1]) + Work(gs[|gs| - 1])
  }

  lemma {:induction false} TotalWorkUpdate(gs: seq<Group>, g: nat, group: Group)
    requires g < |gs|
    ensures TotalWork(gs[g := group]) == TotalWork(gs) - Work(gs[g]) + Work(group)
  {
    var n := |gs| - 1;
    if g < n {
      TotalWorkUpdate(gs[..n], g, group);
      assert gs[g := group][..n] == gs[..n][g := group];
    } else {
      assert gs[g := group][..n] == gs[..n];
    }
  }

  /** A task's own step lowers its work and touches no other task. */
  lemma TaskStepWorks(c: Config, s: State, l: Label)
    requires SourceProtocol.Enabled(c, s, l) && IsTaskStep(l)
    ensures var gs := Next(c, s, l).groups;
            && l.g < |s.groups| && |gs| == |s.groups| && gs == s.groups[l.g := gs[l.g]]
            && Work(gs[l.g]) < Work(s.groups[l.g])
  {}

  predicate Ending(loop: Loop) { loop.Draining? || loop.Stopped? }

  /** Once draining, the source stays so, and every other step leaves all tasks as they are. */
  lemma OtherStepIdles(c: Config, s: State, l: Label)
    requires SourceProtocol.Enabled(c, s, l) && Ending(s.loop)
    ensures Ending(Next(c, s, l).loop)
    ensures !IsTaskStep(l) ==> Next(c, s, l).groups == s.groups
  {}

  function TaskSteps(ls: seq<Label>): nat {
    if ls == [] then 0 else TaskSteps(ls[1..]) + if IsTaskStep(ls[0]) then 1 else 0
  }

  /** Over every run from a draining source: however the steps interleave and whatever is answered, the tasks take no
      more steps than the work they had left. */
  lemma {:induction false} DrainBounded(c: Config, s: State, ls: seq<Label>)
    requires Possible(c, s, ls) && Ending(s.loop)
    ensures TaskSteps(ls) + TotalWork(After(c, s, ls).groups) <= TotalWork(s.groups)
    decreases |ls|
  {
    if ls != [] {
      hide Work, SourceProtocol.Enabled, Next;
      var l, t := ls[0], Next(c, s, ls[0]);
      OtherStepIdles(c, s, l);
      if IsTaskStep(l) {
        TaskStepWorks(c, s, l);
        TotalWorkUpdate(s.groups, l.g, t.groups[l.g]);
      }
      DrainBounded(c, t, ls[1..]);
    }
  }
}
