/**
 The calls a task makes upstream are the attempts of the retry loop: over every run they stop exactly where the
 synchronous loop would, with its result.
 */
module SourceRetries {
  import opened Wrappers
  import opened RetryBudget
  import opened Retrying
  import opened SourceProtocol

  /** The ack calls of one task, in order, and its nack calls. */
  function AcksBy(calls: seq<Call>, g: nat): seq<Call> {
    if calls == [] then []
    else
      var last := calls[|calls| - 1];
      AcksBy(calls[..|calls| - 1], g) + if last.AckCall? && last.group == g then [last] else []
  }

  function NacksBy(calls: seq<Call>, g: nat): seq<Call> {
    if calls == [] then []
    else
      var last := calls[|calls| - 1];
      NacksBy(calls[..|calls| - 1], g) + if last.NackCall? && last.group == g then [last] else []
  }

  /** Another attempt is due after the call, budget permitting. */
  predicate Repeats(call: Call) { call.reply.Retryable? && !call.cancelled }

  ghost predicate AllRepeat(calls: seq<Call>) { forall j | 0 <= j < |calls| :: Repeats(calls[j]) }

  /** The attempts are over: all but the last were repeated, and the last was not, or used up the budget. */
  ghost predicate Exhausted(calls: seq<Call>, budget: nat) {
    && 1 <= |calls| <= budget + 1
    && AllRepeat(calls[..|calls| - 1])
    && (Repeats(calls[|calls| - 1]) ==> |calls| == budget + 1)
  }

  predicate Accepts(calls: seq<Call>) { calls == [] || calls[|calls| - 1].reply.Accepted? }

  ghost predicate Attempted(phase: Phase, acks: seq<Call>, nacks: seq<Call>) {
    match phase
    case Listening(_) => acks == [] && nacks == []
    case Acking(t) => |acks| == t <= ACK_RETRY_ATTEMPTS && AllRepeat(acks) && nacks == []
    case Nacking(t) =>
      && (acks == [] || Exhausted(acks, ACK_RETRY_ATTEMPTS)) && Accepts(acks)
      && |nacks| == t <= NACK_RETRY_ATTEMPTS && AllRepeat(nacks)
    case Finished(ok) => Concluded(ok, acks, nacks)
    case Released(ok) => Concluded(ok, acks, nacks)
  }

  ghost predicate Concluded(ok: bool, acks: seq<Call>, nacks: seq<Call>) {
    && (acks == [] || Exhausted(acks, ACK_RETRY_ATTEMPTS))
    && (ok <==> Accepts(acks))
    && (nacks == [] || (ok && Exhausted(nacks, NACK_RETRY_ATTEMPTS)))
  }

  ghost predicate RetryInv(s: State) {
    && (forall k | 0 <= k < |s.calls| :: s.calls[k].group < |s.groups|)
    && (forall g | 0 <= g < |s.groups| :: Attempted(s.groups[g].phase, AcksBy(s.calls, g), NacksBy(s.calls, g)))
  }

  // ----- every step -----

  lemma {:induction false} NoCallsOf(calls: seq<Call>, g: nat)
    requires forall k | 0 <= k < |calls| :: calls[k].group < g
    ensures AcksBy(calls, g) == [] && NacksBy(calls, g) == []
  {
    if calls != [] {
      NoCallsOf(calls[..|calls| - 1], g);
    }
  }

  lemma OneMoreCall(calls: seq<Call>, call: Call, g: nat)
    ensures AcksBy(calls + [call], g) == AcksBy(calls, g) + if call.AckCall? && call.group == g then [call] else []
    ensures NacksBy(calls + [call], g) == NacksBy(calls, g) + if call.NackCall? && call.group == g then [call] else []
  {
    assert (calls + [call])[..|calls|] == calls;
  }

  predicate Calls(l: Label) { l.TryAck? || l.TryNack? }

  /** The call a try makes. */
  function CallOf(s: State, l: Label): Call
    requires Calls(l) && l.g < |s.groups|
  {
    if l.TryAck? then AckCall(l.g, AcksOf(s, l.g), l.reply, s.cancelled)
    else NackCall(l.g, NaksOf(s, l.g), l.reply, s.cancelled)
  }

  /** What a try does: it logs its call, and its task's phase follows the answer. */
  lemma TryNext(c: Config, s: State, l: Label)
    requires SourceProtocol.Enabled(c, s, l) && Calls(l)
    ensures l.g < |s.groups|
    ensures var t, call := Next(c, s, l), CallOf(s, l);
            && t.calls == s.calls + [call]
            && |t.groups| == |s.groups| && t.groups == s.groups[l.g := t.groups[l.g]]
            && Follows(s.groups[l.g].phase, call, t.groups[l.g].phase)
  {}

  predicate Follows(p: Phase, call: Call, q: Phase) {
    if call.AckCall? then
      && p.Acking?
      && if call.reply.Accepted? then q == Nacking(0) || q == Finished(true)
         else if Repeats(call) && p.tries < ACK_RETRY_ATTEMPTS then q == Acking(p.tries + 1)
         else q == Finished(false)
    else
      && p.Nacking?
      && if Repeats(call) && p.tries < NACK_RETRY_ATTEMPTS then q == Nacking(p.tries + 1) else q == Finished(true)
  }

  lemma FollowsAttempted(p: Phase, call: Call, q: Phase, acks: seq<Call>, nacks: seq<Call>)
    requires Attempted(p, acks, nacks) && Follows(p, call, q)
    ensures Attempted(q, acks + if call.AckCall? then [call] else [], nacks + if call.NackCall? then [call] else [])
  {
    if call.AckCall? {
      assert (acks + [call])[..|acks|] == acks;
      assert nacks + [] == nacks;
    } else {
      assert (nacks + [call])[..|nacks|] == nacks;
      assert acks + [] == acks;
    }
  }

  lemma TryStep(c: Config, s: State, l: Label)
    requires RetryInv(s) && SourceProtocol.Enabled(c, s, l) && Calls(l)
    ensures RetryInv(Next(c, s, l))
  {
    hide SourceProtocol.Enabled, Next, Attempted, Follows, AcksBy, NacksBy, CallOf;
    TryNext(c, s, l);
    CallOfGroup(s, l);
    var t, call := Next(c, s, l), CallOf(s, l);
    forall h | 0 <= h < |t.groups| ensures Attempted(t.groups[h].phase, AcksBy(t.calls, h), NacksBy(t.calls, h)) {
      OneMoreCall(s.calls, call, h);
      assert Attempted(s.groups[h].phase, AcksBy(s.calls, h), NacksBy(s.calls, h));
      if h == l.g {
        FollowsAttempted(s.groups[h].phase, call, t.groups[h].phase, AcksBy(s.calls, h), NacksBy(s.calls, h));
      } else {
        assert AcksBy(s.calls, h) + [] == AcksBy(s.calls, h) && NacksBy(s.calls, h) + [] == NacksBy(s.calls, h);
      }
    }
  }

  lemma CallOfGroup(s: State, l: Label)
    requires Calls(l) && l.g < |s.groups|
    ensures CallOf(s, l).group == l.g
  {}

  lemma OtherStep(c: Config, s: State, l: Label)
    requires RetryInv(s) && SourceProtocol.Enabled(c, s, l) && !Calls(l)
    ensures RetryInv(Next(c, s, l))
  {
    hide SourceProtocol.Enabled, Next, Exhausted, AllRepeat, Concluded, AcksBy, NacksBy;
    var t := Next(c, s, l);
    OtherPhases(c, s, l);
    NothingYet();
    forall g | 0 <= g < |t.groups| ensures Attempted(t.groups[g].phase, AcksBy(t.calls, g), NacksBy(t.calls, g)) {
      if g < |s.groups| {
        assert Attempted(s.groups[g].phase, AcksBy(s.calls, g), NacksBy(s.calls, g));
      } else {
        NoCallsOf(s.calls, g);
      }
    }
  }

  /** A task that has called nobody may be at any of the starting points. */
  lemma NothingYet()
    ensures Attempted(Acking(0), [], []) && Attempted(Nacking(0), [], []) && Attempted(Finished(true), [], [])
  {}

  /** No other step calls upstream; tasks are only added, still listening, and a task's phase changes only from
      listening on, or by releasing the permit. */
  lemma OtherPhases(c: Config, s: State, l: Label)
    requires SourceProtocol.Enabled(c, s, l) && !Calls(l)
    ensures var t := Next(c, s, l);
            && t.calls == s.calls && |s.groups| <= |t.groups|
            && (forall g | |s.groups| <= g < |t.groups| :: t.groups[g].phase.Listening?)
            && forall g | 0 <= g < |s.groups| ::
                 var p, q := s.groups[g].phase, t.groups[g].phase;
                 || q == p
                 || (p.Listening? && (q.Listening? || q == Acking(0) || q == Nacking(0) || q == Finished(true)))
                 || (p.Finished? && q == Released(p.ok))
  {}

  lemma {:induction false} RunRetries(c: Config, s: State, ls: seq<Label>)
    requires RetryInv(s) && Possible(c, s, ls)
    ensures RetryInv(After(c, s, ls))
    decreases |ls|
  {
    if ls != [] {
      hide RetryInv, Next, SourceProtocol.Enabled;
      if Calls(ls[0]) {
        TryStep(c, s, ls[0]);
      } else {
        OtherStep(c, s, ls[0]);
      }
      RunRetries(c, Next(c, s, ls[0]), ls[1..]);
    }
  }

  // ----- the synchronous loop -----

  function ResultOf(call: Call): Result<(), SourceError> {
    match call.reply
    case Accepted => Ok(())
    case Retryable => Err(Transient)
    case NonRetryable => Err(SourceError.NonRetryable)
  }

  /** The answers the calls got, as what the retry future is asked to try. */
  function OracleOf(calls: seq<Call>): Oracle<(), SourceError> {
    Upstream((i: nat) => if i < |calls| then ResultOf(calls[i]) else Err(Transient),
             (i: nat) => i < |calls| && calls[i].cancelled,
             (_: nat) => 0, (_: nat) => 0)
  }

  lemma ExhaustedIsSyncLoop(calls: seq<Call>, budget: nat)
    requires Exhausted(calls, budget)
    ensures SyncLoop(OracleOf(calls), 0, budget) == (ResultOf(calls[|calls| - 1]), |calls|)
  {
    var w, k := OracleOf(calls), |calls| - 1;
    forall j: nat | j < k ensures GoesOn(w, j) {
      assert Repeats(calls[..k][j]);
    }
    SyncLoopStops(w, budget, 0, k);
  }

  /** Over every run: a task that is through made exactly the ack calls the synchronous loop would make of the answers
      it got, and ended well exactly if that loop's result is a success; likewise the nack calls, whose result is
      ignored. */
  lemma CallsAreAttempts(c: Config, ls: seq<Label>, g: nat)
    requires Possible(c, Init(c), ls)
    requires var t := After(c, Init(c), ls); g < |t.groups| && t.groups[g].phase.Released?
    ensures var t := After(c, Init(c), ls);
            var acks, nacks := AcksBy(t.calls, g), NacksBy(t.calls, g);
            && (acks != [] ==>
                  && SyncLoop(OracleOf(acks), 0, ACK_RETRY_ATTEMPTS).1 == |acks|
                  && (t.groups[g].phase.ok <==> SyncLoop(OracleOf(acks), 0, ACK_RETRY_ATTEMPTS).0.Ok?))
            && (nacks != [] ==> t.groups[g].phase.ok && SyncLoop(OracleOf(nacks), 0, NACK_RETRY_ATTEMPTS).1 == |nacks|)
  {
    hide After, Possible;
    RunRetries(c, Init(c), ls);
    var t := After(c, Init(c), ls);
    var acks, nacks := AcksBy(t.calls, g), NacksBy(t.calls, g);
    assert Attempted(t.groups[g].phase, acks, nacks);
    if acks != [] {
      ExhaustedIsSyncLoop(acks, ACK_RETRY_ATTEMPTS);
    }
    if nacks != [] {
      ExhaustedIsSyncLoop(nacks, NACK_RETRY_ATTEMPTS);
    }
  }
}
