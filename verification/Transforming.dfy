/**
 The source transformer: each message of a batch is handed to user code, retried while user code reports a
 failure, fanned out into its outputs, and the batch is either delivered in input order or given up.

 User code's answers and the retry controller's decisions are oracles: one script of attempts per input.
 The futures of a batch run concurrently but touch disjoint handles, so the only thing concurrency decides
 is which later futures had already finished when the batch was given up: the set `finished`.
 */
module Transforming {
  import opened Wrappers
  import opened Counting
  import opened AckHandles

  const FAIL := "U+005C__FAIL__"

  datatype Output = Output(value: string, tags: seq<string>)

  datatype Reply = Responded(messages: seq<Output>) | CallError
  datatype RetryStep = Again | Cancelled | Drop | Nack
  datatype Attempt = Attempt(reply: Reply, step: RetryStep)

  datatype Fate = Done(outputs: seq<Output>) | Failed | Running

  predicate AnyFailed(messages: seq<Output>) {
    exists m | m in messages :: FAIL in m.tags
  }

  /** What one attempt leads to; `None` means another attempt. An empty response is an error. */
  function Decides(a: Attempt): Option<Fate> {
    match a.reply
    case CallError => Some(Fate.Failed)
    case Responded(messages) =>
      if messages == [] then Some(Fate.Failed)
      else if !AnyFailed(messages) then Some(Done(messages))
      else
        match a.step
        case Again => None
        case Drop => Some(Done([]))
        case Cancelled => Some(Fate.Failed)
        case Nack => Some(Fate.Failed)
  }

  /** The fate of a future: that of its first deciding attempt. */
  ghost function FateOf(script: seq<Attempt>): Fate {
    if script == [] then Running
    else if Decides(script[0]).Some? then Decides(script[0]).value
    else FateOf(script[1..])
  }

  /** User code failed and the retry strategy, out of attempts, says drop. */
  predicate Drops(a: Attempt) { a.step.Drop? && a.reply.Responded? && AnyFailed(a.reply.messages) }

  /** Nothing comes out only of a message dropped after its retries ran out. */
  lemma {:induction false} EmptyOnlyByDrop(script: seq<Attempt>)
    requires FateOf(script) == Done([])
    ensures exists k | 0 <= k < |script| :: Drops(script[k])
  {
    if Decides(script[0]).None? {
      EmptyOnlyByDrop(script[1..]);
      var k :| 0 <= k < |script[1..]| && Drops(script[1..][k]);
      assert script[k + 1] == script[1..][k];
    } else {
      assert Drops(script[0]);
    }
  }

  /** User code responded, but reported a failure, and the retry strategy asks for another attempt. */
  predicate RetriesOn(a: Attempt) {
    a.reply.Responded? && (exists m | m in a.reply.messages :: FAIL in m.tags) && a.step.Again?
  }

  /** What the first attempt that is not retried decides: a response without a failure is passed on whole; a failure
      that is given up on is dropped or fails the message as the strategy says; an error or empty response fails it. */
  lemma {:induction false} FateDecided(script: seq<Attempt>, k: nat)
    requires k < |script| && forall j | 0 <= j < k :: RetriesOn(script[j])
    ensures var reply, step := script[k].reply, script[k].step;
            && (reply.CallError? || reply == Responded([]) ==> FateOf(script) == Fate.Failed)
            && (reply.Responded? && reply.messages != [] && (forall m | m in reply.messages :: FAIL !in m.tags) ==>
                  FateOf(script) == Done(reply.messages))
            && (reply.Responded? && (exists m | m in reply.messages :: FAIL in m.tags) ==>
                  && (step.Drop? ==> FateOf(script) == Done([]))
                  && (step.Cancelled? || step.Nack? ==> FateOf(script) == Fate.Failed)
                  && (step.Again? ==> FateOf(script) == FateOf(script[k + 1..])))
  {
    if k > 0 {
      assert RetriesOn(script[0]);
      FateDecided(script[1..], k - 1);
      assert script[1..][k..] == script[k + 1..];
    }
  }

  /** As long as every attempt is retried nothing is decided. */
  lemma {:induction false} FateUndecided(script: seq<Attempt>)
    ensures (forall j | 0 <= j < |script| :: RetriesOn(script[j])) <==> FateOf(script) == Running
  {
    if script != [] {
      FateUndecided(script[1..]);
      assert script == [script[0]] + script[1..];
      assert RetriesOn(script[0]) <==> Decides(script[0]).None?;
      assert forall j | 0 <= j < |script| - 1 :: script[1..][j] == script[j + 1];
    }
  }

  /** The retry loop of one message. */
  method RunFuture(script: seq<Attempt>) returns (fate: Fate)
    ensures fate == FateOf(script)
  {
    var i := 0;
    while i < |script|
      invariant i <= |script| && FateOf(script) == FateOf(script[i..])
    {
      var decision := Decides(script[i]);
      if decision.Some? {
        return decision.value;
      }
      assert script[i..][1..] == script[i + 1..];
      i := i + 1;
    }
    fate := Running;
  }

  function Repeat(h: Handle, n: nat): seq<Handle> { seq(n, _ => h) }

  /** A new handle after `n` of its outputs were derived: `n + 1` references, none marked. */
  function Deriving(n: nat): AckState {
    AckState(n + 1, n + 1, None, true, [], Repeat(Handle(Unmarked, true), n + 1), [])
  }

  /** A new handle fanned out into `n` outputs: only the outputs are left, and only they count. */
  function FannedOut(n: nat): AckState {
    AckState(n, n, None, n > 0, if n == 0 then [Ack] else [],
             [Handle(Succeeded, false)] + Repeat(Handle(Unmarked, true), n), [])
  }

  /** Every reference to it given up. */
  ghost predicate Settled(a: AckState, verdict: ReadAck) {
    NoneHeld(a) && a.sent == [verdict]
  }

  lemma FannedOutInv(n: nat)
    ensures Inv(FannedOut(n))
    ensures n > 0 ==> FannedOut(n).handles[1] == Handle(Unmarked, true)
    ensures n == 0 ==> Settled(FannedOut(n), Ack)
    ensures forall i | 0 < i <= n :: FannedOut(n).handles[i] == Handle(Unmarked, true)
  {
    var a := FannedOut(n);
    var rest := Repeat(Handle(Unmarked, true), n);
    CountRepeat(n);
    CountSplit(a.handles, 1, NotSucceeded);
    CountSplit(a.handles, 1, IsHeld);
    assert a.handles[..1] == [Handle(Succeeded, false)] && a.handles[1..] == rest;
    CountAppend([], Handle(Succeeded, false), NotSucceeded);
    CountAppend([], Handle(Succeeded, false), IsHeld);
    assert [] + [Handle(Succeeded, false)] == [Handle(Succeeded, false)];
    ZeroMeansAllSucceeded(a);
  }

  lemma {:induction false} CountRepeat(n: nat)
    ensures Count(Repeat(Handle(Unmarked, true), n), NotSucceeded) == n
    ensures Count(Repeat(Handle(Unmarked, true), n), IsHeld) == n
  {
    if n > 0 {
      CountRepeat(n - 1);
      assert Repeat(Handle(Unmarked, true), n)[..n - 1] == Repeat(Handle(Unmarked, true), n - 1);
    }
  }

  function Derivations(k: nat): seq<Op> { seq(k, _ => WithMessage(0)) }

  lemma {:induction false} DeriveFrom(i: nat, k: nat)
    ensures Legal(Deriving(i), Derivations(k)) && Run(Deriving(i), Derivations(k)) == Deriving(i + k)
    decreases k
  {
    if k > 0 {
      assert Derivations(k)[1..] == Derivations(k - 1);
      DerivingStep(i);
      DeriveFrom(i + 1, k - 1);
    }
  }

  /** While outputs are being derived from a new handle the count stays above zero and nothing is sent. */
  lemma NoPrematureZero(k: nat)
    ensures Legal(FRESH, Derivations(k))
    ensures Run(FRESH, Derivations(k)).refCount == k + 1 && Run(FRESH, Derivations(k)).sent == []
  {
    assert FRESH == Deriving(0);
    DeriveFrom(0, k);
  }

  /** Fans a new handle out. All outputs are derived before the input is marked, so the count never touches
      zero on the way. */
  method FanOut(h: AckHandle, n: nat)
    requires h.State() == FRESH
    modifies h
    ensures h.State() == FannedOut(n) && Inv(h.State()) && Leads(FRESH, h.State())
  {
    hide Inv, Apply, AckHandles.Enabled, Deriving, FannedOut, AckHandle.State, Leads;
    FreshInv();
    FannedLeads(n);
    DerivingStep(0);
    for i := 0 to n
      invariant h.State() == Deriving(i) && Inv(h.State())
    {
      DerivingStep(i);
      h.WithMessage(0);
    }
    DerivingEnd(n);
    h.MarkSuccess(0);
  }

  lemma FannedLeads(n: nat)
    ensures Leads(FRESH, FannedOut(n))
  {
    hide Apply, AckHandles.Enabled, Deriving, FannedOut;
    DerivingStep(0);
    DeriveFrom(0, n);
    DerivingEnd(n);
    LeadsOn(FRESH, Deriving(n), MarkSuccess(0));
    LeadsOn(FRESH, Apply(Deriving(n), MarkSuccess(0)), Release(0));
  }

  lemma DerivingStep(i: nat)
    ensures FRESH == Deriving(0) && Deriving(i).refCount > 0
    ensures AckHandles.Enabled(Deriving(i), WithMessage(0)) && Apply(Deriving(i), WithMessage(0)) == Deriving(i + 1)
  {
    assert Apply(Deriving(i), WithMessage(0)).handles == Deriving(i + 1).handles;
  }

  lemma DerivingEnd(n: nat)
    ensures AckHandles.Enabled(Deriving(n), MarkSuccess(0))
    ensures AckHandles.Enabled(Apply(Deriving(n), MarkSuccess(0)), Release(0))
    ensures Apply(Apply(Deriving(n), MarkSuccess(0)), Release(0)) == FannedOut(n)
  {
    assert Apply(Apply(Deriving(n), MarkSuccess(0)), Release(0)).handles == FannedOut(n).handles;
  }

  lemma ReleaseOne(b: AckState, i: nat)
    requires Inv(b) && i < |b.handles| && b.handles[i].held
    ensures var c := Apply(b, Release(i));
            && Inv(c) && c.failures == b.failures && c.strong == b.strong - 1
            && c.handles == b.handles[i := b.handles[i].(held := false)]
  {
    ApplyInv(b, Release(i));
  }

  lemma SomeHeld(b: AckState) returns (i: nat)
    requires Inv(b) && b.strong > 0
    ensures i < |b.handles| && b.handles[i].held
  {
    CountNone(b.handles, IsHeld);
    i :| i < |b.handles| && b.handles[i].held;
  }

  /** Once nothing is held the verdict has been sent; giving up references does not change it. */
  lemma ReleasedVerdict(a: AckState, b: AckState)
    requires Inv(b) && b.strong <= 0 && b.failures == a.failures && |b.handles| == |a.handles|
    requires forall k | 0 <= k < |a.handles| :: b.handles[k].mark == a.handles[k].mark
    ensures Settled(b, Verdict(a))
  {
    CountNone(b.handles, IsHeld);
    assert AllSucceeded(b) <==> AllSucceeded(a);
  }

  /** Dropping every reference that is left, in any order, without marking any. */
  method ReleaseAll(h: AckHandle)
    requires Inv(h.State())
    modifies h
    ensures Inv(h.State()) && Settled(h.State(), Verdict(old(h.State())))
    ensures Leads(FRESH, old(h.State())) ==> Leads(FRESH, h.State())
  {
    hide Inv, Apply, Settled, Leads;
    ghost var a := h.State();
    while h.strong > 0
      invariant Inv(h.State()) && |h.handles| == |a.handles| && h.failures == a.failures
      invariant Leads(FRESH, a) ==> Leads(FRESH, h.State())
      invariant forall k | 0 <= k < |a.handles| :: h.handles[k].mark == a.handles[k].mark
    {
      ghost var i := SomeHeld(h.State());
      ReleaseOne(h.State(), i);
      if Leads(FRESH, a) {
        LeadsOn(FRESH, h.State(), Release(i));
      }
      h.Drop(i);
    }
    ReleasedVerdict(a, h.State());
  }

  datatype OutHandle = OutHandle(input: nat, handle: nat, message: Output)

  datatype BatchResult = Delivered(handles: seq<OutHandle>) | GivenUp | StillRunning

  ghost function Outputs(script: seq<Attempt>): seq<Output> {
    match FateOf(script)
    case Done(outputs) => outputs
    case _ => []
  }

  /** The outputs of one input, on the handles derived for them. */
  function Handles(input: nat, outputs: seq<Output>): seq<OutHandle> {
    seq(|outputs|, i requires 0 <= i < |outputs| => OutHandle(input, i + 1, outputs[i]))
  }

  /** The outputs of the first `n` inputs, in input order. */
  ghost function InOrder(scripts: seq<seq<Attempt>>, n: nat): seq<OutHandle>
    requires n <= |scripts|
  {
    if n == 0 then [] else InOrder(scripts, n - 1) + Handles(n - 1, Outputs(scripts[n - 1]))
  }

  /** The messages of the first `n` inputs, one input after the other. */
  ghost function Messages(scripts: seq<seq<Attempt>>, n: nat): seq<Output>
    requires n <= |scripts|
  {
    if n == 0 then [] else Messages(scripts, n - 1) + Outputs(scripts[n - 1])
  }

  /** Input `input`, its handle `handle` and the message that rides on it belong together. */
  ghost predicate RidesOn(scripts: seq<seq<Attempt>>, n: nat, h: OutHandle)
    requires n <= |scripts|
  {
    && h.input < n && 1 <= h.handle <= |Outputs(scripts[h.input])|
    && h.message == Outputs(scripts[h.input])[h.handle - 1]
    && FannedOut(|Outputs(scripts[h.input])|).handles[h.handle] == Handle(Unmarked, true)
  }

  predicate Before(a: OutHandle, b: OutHandle) { a.input < b.input || (a.input == b.input && a.handle < b.handle) }

  /** What is delivered carries the inputs' messages in order: each on a handle of its own, derived from the input it
      came from, held and unmarked; and every output of every input is there. */
  lemma {:induction false} InOrderMeans(scripts: seq<seq<Attempt>>, n: nat)
    requires n <= |scripts|
    ensures var hs := InOrder(scripts, n);
            && |hs| == |Messages(scripts, n)|
            && (forall i | 0 <= i < |hs| :: hs[i].message == Messages(scripts, n)[i])
            && (forall i | 0 <= i < |hs| :: RidesOn(scripts, n, hs[i]))
            && (forall i, j | 0 <= i < j < |hs| :: Before(hs[i], hs[j]))
            && (forall k, j | 0 <= k < n && 0 <= j < |Outputs(scripts[k])| ::
                  OutHandle(k, j + 1, Outputs(scripts[k])[j]) in hs)
  {
    hide FateOf, Outputs, RidesOn, Handles, FannedOut;
    if n > 0 {
      InOrderMeans(scripts, n - 1);
      var earlier, last := InOrder(scripts, n - 1), Handles(n - 1, Outputs(scripts[n - 1]));
      OwnHandles(scripts, n);
      forall i | 0 <= i < |earlier| ensures RidesOn(scripts, n, earlier[i]) && earlier[i].input < n - 1 {
        StillRides(scripts, n - 1, earlier[i]);
      }
    }
  }

  lemma StillRides(scripts: seq<seq<Attempt>>, n: nat, h: OutHandle)
    requires n < |scripts| && RidesOn(scripts, n, h)
    ensures RidesOn(scripts, n + 1, h) && h.input < n
  {}

  /** The handles of the last of `n` inputs. */
  lemma OwnHandles(scripts: seq<seq<Attempt>>, n: nat)
    requires 0 < n <= |scripts|
    ensures var outputs := Outputs(scripts[n - 1]);
            var hs := Handles(n - 1, outputs);
            && |hs| == |outputs|
            && (forall i | 0 <= i < |hs| ::
                  hs[i].input == n - 1 && hs[i].message == outputs[i] && RidesOn(scripts, n, hs[i]))
            && (forall i, j | 0 <= i < j < |hs| :: Before(hs[i], hs[j]))
            && forall j | 0 <= j < |outputs| :: OutHandle(n - 1, j + 1, outputs[j]) in hs
  {
    hide FateOf, Outputs, FannedOut;
    var outputs := Outputs(scripts[n - 1]);
    FannedOutInv(|outputs|);
    FannedOutSize(|outputs|);
    var hs := Handles(n - 1, outputs);
    forall j | 0 <= j < |outputs| ensures OutHandle(n - 1, j + 1, outputs[j]) in hs {
      assert hs[j] == OutHandle(n - 1, j + 1, outputs[j]);
    }
  }

  lemma FannedOutSize(n: nat)
    ensures |FannedOut(n).handles| == n + 1
  {}

  /** No handle carries two messages. */
  lemma HandlesDistinct(scripts: seq<seq<Attempt>>, n: nat, i: nat, j: nat)
    requires n <= |scripts| && i < j < |InOrder(scripts, n)|
    ensures var hs := InOrder(scripts, n); hs[i].input != hs[j].input || hs[i].handle != hs[j].handle
  {
    InOrderMeans(scripts, n);
    assert Before(InOrder(scripts, n)[i], InOrder(scripts, n)[j]);
  }

  /** The tag user code marks a failed message with. */
  lemma FailureTag(value: string, tags: seq<string>)
    ensures AnyFailed([Output(value, tags)]) <==> "U+005C__FAIL__" in tags
    ensures "U+005C__FAIL__" in tags ==> FateOf([Attempt(Responded([Output(value, tags)]), Drop)]) == Done([])
    ensures "U+005C__FAIL__" !in tags ==>
              FateOf([Attempt(Responded([Output(value, tags)]), Drop)]) == Done([Output(value, tags)])
  {
    assert forall m | m in [Output(value, tags)] :: m == Output(value, tags);
    assert Output(value, tags) in [Output(value, tags)];
  }

  /** Input `i` had been dropped by its retry strategy before the batch was given up. */
  ghost predicate AlreadyDropped(scripts: seq<seq<Attempt>>, finished: set<nat>, failing: nat, i: nat)
    requires i < |scripts|
  {
    FateOf(scripts[i]) == Done([]) && (i < failing || i in finished)
  }

  /** That is: nothing came of it because a retry strategy dropped it, and it stood before the failing input or its
      future had finished. A later input whose future had not finished counts as not dropped, whatever would have come
      of it. */
  lemma DroppedMeans(scripts: seq<seq<Attempt>>, finished: set<nat>, failing: nat, i: nat)
    requires i < |scripts|
    ensures i >= failing && i !in finished ==> !AlreadyDropped(scripts, finished, failing, i)
    ensures i < failing || i in finished ==>
              (AlreadyDropped(scripts, finished, failing, i) <==> FateOf(scripts[i]) == Done([]))
    ensures AlreadyDropped(scripts, finished, failing, i) ==>
              exists k | 0 <= k < |scripts[i]| :: Drops(scripts[i][k])
  {
    if FateOf(scripts[i]) == Done([]) {
      EmptyOnlyByDrop(scripts[i]);
    }
  }

  ghost predicate FirstNotDone(scripts: seq<seq<Attempt>>, i: nat) {
    && i < |scripts|
    && !FateOf(scripts[i]).Done?
    && forall j | 0 <= j < i :: FateOf(scripts[j]).Done?
  }

  lemma FirstNotDoneUnique(scripts: seq<seq<Attempt>>, i: nat)
    requires FirstNotDone(scripts, i)
    ensures forall f: nat | FirstNotDone(scripts, f) :: f == i
  {}

  predicate Distinct(hs: seq<AckHandle>) { forall i, j | 0 <= i < j < |hs| :: hs[i] != hs[j] }

  /** The whole batch. Delivered: all outputs, in input order, each input's count being its number of
      outputs. Given up: every input ends in a NAK, except one already dropped by its retry strategy, which
      was acked. */
  method TransformBatch(inputs: seq<AckHandle>, scripts: seq<seq<Attempt>>, finished: set<nat>)
    returns (r: BatchResult)
    requires |inputs| == |scripts| && Distinct(inputs)
    requires forall i | 0 <= i < |inputs| :: inputs[i].State() == FRESH
    modifies inputs
    ensures r.Delivered? <==> forall i | 0 <= i < |scripts| :: FateOf(scripts[i]).Done?
    ensures r.GivenUp? <==> exists f: nat :: FirstNotDone(scripts, f) && FateOf(scripts[f]).Failed?
    ensures r.Delivered? ==> r.handles == InOrder(scripts, |scripts|)
    ensures r.Delivered? ==>
              forall i | 0 <= i < |inputs| :: inputs[i].State() == FannedOut(|Outputs(scripts[i])|)
    ensures forall f: nat | r.GivenUp? && FirstNotDone(scripts, f) ::
              forall i | 0 <= i < |inputs| ::
                Settled(inputs[i].State(), if AlreadyDropped(scripts, finished, f, i) then Ack else Nak(None))
    ensures forall i | 0 <= i < |inputs| :: Leads(FRESH, inputs[i].State())
  {
    hide FannedOut, Settled, Inv, FateOf, AlreadyDropped, Handles, AckHandle.State, Leads;
    LeadsNowhere(FRESH);
    var handles: seq<OutHandle> := [];
    for i := 0 to |inputs|
      invariant forall k | 0 <= k < i ::
                  FateOf(scripts[k]).Done? && inputs[k].State() == FannedOut(|Outputs(scripts[k])|)
      invariant forall k | 0 <= k < |inputs| :: Leads(FRESH, inputs[k].State())
      invariant forall k | i <= k < |inputs| :: inputs[k].State() == FRESH
      invariant handles == InOrder(scripts, i)
    {
      var fate := RunFuture(scripts[i]);
      match fate
      case Done(outputs) =>
        FanOut(inputs[i], |outputs|);
        handles := handles + Handles(i, outputs);
      case Running =>
        assert FirstNotDone(scripts, i);
        FirstNotDoneUnique(scripts, i);
        return StillRunning;
      case Failed =>
        assert FirstNotDone(scripts, i);
        FirstNotDoneUnique(scripts, i);
        GiveUp(inputs, scripts, finished, i);
        return GivenUp;
    }
    r := Delivered(handles);
  }

  /** The early exit: the collected outputs, the failing input and all later futures are dropped. */
  method GiveUp(inputs: seq<AckHandle>, scripts: seq<seq<Attempt>>, finished: set<nat>, failing: nat)
    requires |inputs| == |scripts| && Distinct(inputs) && FirstNotDone(scripts, failing)
    requires forall k | 0 <= k < failing :: inputs[k].State() == FannedOut(|Outputs(scripts[k])|)
    requires forall k | failing <= k < |inputs| :: inputs[k].State() == FRESH
    modifies inputs
    ensures forall i | 0 <= i < |inputs| ::
              Settled(inputs[i].State(), if AlreadyDropped(scripts, finished, failing, i) then Ack else Nak(None))
    ensures forall i | 0 <= i < |inputs| :: Leads(FRESH, inputs[i].State())
  {
    hide FannedOut, Settled, Inv, Verdict, Leads;
    LeadsNowhere(FRESH);
    for i := 0 to |inputs|
      invariant forall k | 0 <= k < i :: Leads(FRESH, inputs[k].State())
      invariant forall k | i <= k < failing :: inputs[k].State() == FannedOut(|Outputs(scripts[k])|)
      invariant forall k | i <= k < |inputs| && failing <= k :: inputs[k].State() == FRESH
      invariant forall k | 0 <= k < i ::
                  Settled(inputs[k].State(), if AlreadyDropped(scripts, finished, failing, k) then Ack else Nak(None))
    {
      FannedVerdict(|Outputs(scripts[i])|);
      FannedLeads(|Outputs(scripts[i])|);
      if i in finished && i > failing {
        var fate := RunFuture(scripts[i]);
        if fate.Done? {
          FanOut(inputs[i], |fate.outputs|);
        }
      }
      ReleaseAll(inputs[i]);
    }
  }

  lemma FannedVerdict(n: nat)
    ensures Verdict(FannedOut(n)) == if n == 0 then Ack else Nak(None)
    ensures Verdict(FRESH) == Nak(None)
    ensures Inv(FannedOut(n)) && Inv(FRESH)
  {
    FreshInv();
    FannedOutInv(n);
    if n > 0 {
      assert !FannedOut(n).handles[1].mark.Succeeded?;
    }
    assert !FRESH.handles[0].mark.Succeeded?;
  }
}
