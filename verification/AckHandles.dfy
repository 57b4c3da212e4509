/**
 The reference-counted acknowledgement handle of a message.

 Every `MessageHandle` derived from one delivery shares an `AckHandle`. The shared handle carries two
 counters that must not be confused: `refCount`, which only `mark_success` decrements, and the number of
 `Arc` references still held, `strong`. The disposition is sent when `strong` reaches zero and is
 decided by `refCount`. Marking and giving up the reference are separate atomic steps here, so every
 interleaving of two threads between them is covered.
 */
module AckHandles {
  import opened Wrappers
  import opened Counting

  datatype NackOptions = NackOptions(
    delay: Option<nat>, maxDeliveries: Option<nat>, reason: Option<string>, nackMap: map<string, string>)

  datatype ReadAck = Ack | Nak(options: Option<NackOptions>)

  /** What a handle's owner has declared about it, and whether it still holds its reference. */
  datatype Mark = Unmarked | Succeeded | Failed
  datatype Handle = Handle(mark: Mark, held: bool)

  /**
   The shared handle (`refCount`, `strong`, `options`, `sender`), the oneshot channel's content (`sent`),
   and the observer's record of what happened to it: every handle ever derived, and the options passed
   to `mark_failed`, in order.
   */
  datatype AckState = AckState(
    refCount: int,
    strong: int,
    options: Option<NackOptions>,
    sender: bool,
    sent: seq<ReadAck>,
    handles: seq<Handle>,
    failures: seq<Option<NackOptions>>)

  datatype Op =
    | Clone(h: nat)
    | WithMessage(h: nat)
    | MarkSuccess(h: nat)
    | MarkFailed(h: nat, option: Option<NackOptions>)
    | Release(h: nat)

  const FRESH: AckState := AckState(1, 1, None, true, [], [Handle(Unmarked, true)], [])

  predicate IsHeld(h: Handle) { h.held }

  predicate NotSucceeded(h: Handle) { !h.mark.Succeeded? }

  predicate Pending(h: Handle) { h.held && h.mark.Unmarked? }

  predicate EndedWithoutSuccess(h: Handle) { h.mark.Failed? || (h.mark.Unmarked? && !h.held) }

  /** Only the holder of an unmarked handle may clone, fan out or mark it; marking consumes the handle,
      after which its reference can only be given up. */
  predicate Enabled(a: AckState, op: Op) {
    && op.h < |a.handles|
    && a.handles[op.h].held
    && (op.Release? || a.handles[op.h].mark.Unmarked?)
  }

  /** `Drop for AckHandle`. */
  function Dropped(a: AckState): AckState {
    if a.sender then
      a.(sender := false,
         sent := a.sent + [if a.refCount != 0 then Nak(a.options) else Ack])
    else a
  }

  function Apply(a: AckState, op: Op): AckState
    requires Enabled(a, op)
  {
    match op
    case Clone(_) => Derived(a)
    case WithMessage(_) => Derived(a)
    case MarkSuccess(h) =>
      a.(refCount := a.refCount - 1, handles := a.handles[h := Handle(Succeeded, true)])
    case MarkFailed(h, option) =>
      a.(options := if a.options.None? then option else a.options,
         handles := a.handles[h := Handle(Failed, true)],
         failures := a.failures + [option])
    case Release(h) =>
      var b := a.(strong := a.strong - 1, handles := a.handles[h := a.handles[h].(held := false)]);
      if b.strong == 0 then Dropped(b) else b
  }

  function Derived(a: AckState): AckState {
    a.(refCount := a.refCount + 1, strong := a.strong + 1, handles := a.handles + [Handle(Unmarked, true)])
  }

  ghost predicate AllSucceeded(a: AckState) {
    forall i | 0 <= i < |a.handles| :: a.handles[i].mark.Succeeded?
  }

  /** The options a NAK carries: the first that any `mark_failed` call supplied. */
  function FirstRecorded(failures: seq<Option<NackOptions>>): Option<NackOptions> {
    if failures == [] then None
    else if failures[0].Some? then failures[0]
    else FirstRecorded(failures[1..])
  }

  ghost function Verdict(a: AckState): ReadAck {
    if AllSucceeded(a) then Ack else Nak(FirstRecorded(a.failures))
  }

  /** What every interleaving keeps. */
  ghost predicate Inv(a: AckState) {
    && a.refCount == Count(a.handles, NotSucceeded)
    && a.strong == Count(a.handles, IsHeld)
    && a.options == FirstRecorded(a.failures)
    && a.sender == (a.strong > 0)
    && a.sent == (if a.strong == 0 then [Verdict(a)] else [])
  }

  lemma {:induction false} FirstRecordedAppend(failures: seq<Option<NackOptions>>, option: Option<NackOptions>)
    ensures FirstRecorded(failures + [option]) ==
            if FirstRecorded(failures).None? then option else FirstRecorded(failures)
  {
    if failures != [] {
      assert (failures + [option])[1..] == failures[1..] + [option];
      FirstRecordedAppend(failures[1..], option);
    } else {
      assert (failures + [option])[1..] == [];
    }
  }

  lemma ZeroMeansAllSucceeded(a: AckState)
    requires a.refCount == Count(a.handles, NotSucceeded)
    ensures a.refCount == 0 <==> AllSucceeded(a)
  {
    CountNone(a.handles, NotSucceeded);
  }

  lemma FreshInv()
    ensures Inv(FRESH)
  {
    var h := Handle(Unmarked, true);
    CountAppend([], h, NotSucceeded);
    CountAppend([], h, IsHeld);
    assert [] + [h] == [h];
  }

  /** One step of any owner keeps the invariant; zero is stable, and so is a disposition once sent. */
  lemma ApplyInv(a: AckState, op: Op)
    requires Inv(a) && Enabled(a, op)
    ensures Inv(Apply(a, op))
    ensures a.sent == []
    ensures a.refCount == 0 ==> Apply(a, op).refCount == 0
  {
    CountPositive(a.handles, op.h, IsHeld);
    if a.handles[op.h].mark.Unmarked? {
      CountPositive(a.handles, op.h, NotSucceeded);
    }
    var b := Apply(a, op);
    match op
    case Clone(_) =>
      CountAppend(a.handles, Handle(Unmarked, true), NotSucceeded);
      CountAppend(a.handles, Handle(Unmarked, true), IsHeld);
    case WithMessage(_) =>
      CountAppend(a.handles, Handle(Unmarked, true), NotSucceeded);
      CountAppend(a.handles, Handle(Unmarked, true), IsHeld);
    case MarkSuccess(h) =>
      CountUpdate(a.handles, h, b.handles[h], NotSucceeded);
      CountUpdate(a.handles, h, b.handles[h], IsHeld);
    case MarkFailed(h, option) =>
      CountUpdate(a.handles, h, b.handles[h], NotSucceeded);
      CountUpdate(a.handles, h, b.handles[h], IsHeld);
      FirstRecordedAppend(a.failures, option);
    case Release(h) =>
      CountUpdate(a.handles, h, b.handles[h], NotSucceeded);
      CountUpdate(a.handles, h, b.handles[h], IsHeld);
      ZeroMeansAllSucceeded(b);
  }

  /** Every operation in turn is one some owner may perform. */
  ghost predicate Legal(a: AckState, ops: seq<Op>)
    decreases |ops|
  {
    ops == [] || (Enabled(a, ops[0]) && Legal(Apply(a, ops[0]), ops[1..]))
  }

  ghost function Run(a: AckState, ops: seq<Op>): AckState
    requires Legal(a, ops)
    decreases |ops|
  {
    if ops == [] then a else Run(Apply(a, ops[0]), ops[1..])
  }

  lemma {:induction false} RunInv(a: AckState, ops: seq<Op>)
    requires Inv(a) && Legal(a, ops)
    ensures Inv(Run(a, ops))
    decreases |ops|
  {
    if ops != [] {
      ApplyInv(a, ops[0]);
      RunInv(Apply(a, ops[0]), ops[1..]);
    }
  }

  /** The owners can bring the handle from one state to the other. */
  ghost predicate Leads(a: AckState, b: AckState) { exists ops :: Legal(a, ops) && Run(a, ops) == b }

  lemma LeadsNowhere(a: AckState)
    ensures Leads(a, a)
  {
    assert Legal(a, []) && Run(a, []) == a;
  }

  lemma LeadsOn(a: AckState, b: AckState, op: Op)
    requires Leads(a, b) && Enabled(b, op)
    ensures Leads(a, Apply(b, op))
  {
    var ops :| Legal(a, ops) && Run(a, ops) == b;
    RunOn(a, ops, op);
  }

  lemma {:induction false} RunOn(a: AckState, ops: seq<Op>, op: Op)
    requires Legal(a, ops) && Enabled(Run(a, ops), op)
    ensures Legal(a, ops + [op]) && Run(a, ops + [op]) == Apply(Run(a, ops), op)
    decreases |ops|
  {
    hide Enabled, Apply;
    if ops == [] {
      assert [op][1..] == [] && ([] + [op]) == [op];
    } else {
      assert (ops + [op])[1..] == ops[1..] + [op];
      RunOn(Apply(a, ops[0]), ops[1..], op);
    }
  }

  ghost predicate NoneHeld(a: AckState) {
    forall i | 0 <= i < |a.handles| :: !a.handles[i].held
  }

  // ----- the operations alone -----

  /** How many handles were derived. */
  function DerivedBy(ops: seq<Op>): nat {
    if ops == [] then 0 else (if ops[0].Clone? || ops[0].WithMessage? then 1 else 0) + DerivedBy(ops[1..])
  }

  /** The options passed to `mark_failed`, in order. */
  function FailedWith(ops: seq<Op>): seq<Option<NackOptions>> {
    if ops == [] then [] else (if ops[0].MarkFailed? then [ops[0].option] else []) + FailedWith(ops[1..])
  }

  /** `o` are the first options passed to `mark_failed`, or none if none ever were. */
  ghost predicate FirstGiven(ops: seq<Op>, o: Option<NackOptions>) {
    if o.None? then forall op | op in ops && op.MarkFailed? :: op.option.None?
    else exists k | 0 <= k < |ops| ::
           && ops[k].MarkFailed? && ops[k].option == o
           && forall j | 0 <= j < k :: ops[j].MarkFailed? ==> ops[j].option.None?
  }

  lemma {:induction false} FirstRecordedGiven(ops: seq<Op>)
    ensures FirstGiven(ops, FirstRecorded(FailedWith(ops)))
  {
    if ops != [] {
      var op, rest := ops[0], ops[1..];
      var o := FirstRecorded(FailedWith(rest));
      FirstRecordedGiven(rest);
      assert ops == [op] + rest;
      if op.MarkFailed? {
        assert FailedWith(ops)[0] == op.option && FailedWith(ops)[1..] == FailedWith(rest);
      } else {
        assert FailedWith(ops) == FailedWith(rest);
      }
      if op.MarkFailed? && op.option.Some? {
        assert FirstGiven(ops, op.option);
      } else {
        assert FirstRecorded(FailedWith(ops)) == o;
        GivenLater(op, rest, o);
      }
    }
  }

  lemma GivenLater(op: Op, rest: seq<Op>, o: Option<NackOptions>)
    requires FirstGiven(rest, o) && (op.MarkFailed? ==> op.option.None?)
    ensures FirstGiven([op] + rest, o)
  {
    var ops := [op] + rest;
    if o.Some? {
      var k :| 0 <= k < |rest| && rest[k].MarkFailed? && rest[k].option == o
               && forall j | 0 <= j < k :: rest[j].MarkFailed? ==> rest[j].option.None?;
      assert ops[k + 1] == rest[k];
      assert forall j | 0 < j < k + 1 :: ops[j] == rest[j - 1];
    }
  }

  /** What was done to one handle is what its record says. */
  ghost predicate HandleRecorded(a: AckState, ops: seq<Op>, b: AckState, h: nat)
    requires h < |b.handles|
  {
    var before := if h < |a.handles| then a.handles[h] else Handle(Unmarked, true);
    && (b.handles[h].mark.Succeeded? <==> before.mark.Succeeded? || MarkSuccess(h) in ops)
    && (b.handles[h].mark.Failed? <==> before.mark.Failed? || exists o :: MarkFailed(h, o) in ops)
    && (b.handles[h].held <==> before.held && Release(h) !in ops)
  }

  /** So many handles were derived, these options recorded, and each handle was treated as its record says. */
  ghost predicate Recorded(a: AckState, ops: seq<Op>, b: AckState) {
    && |b.handles| == |a.handles| + DerivedBy(ops) && b.failures == a.failures + FailedWith(ops)
    && forall h: nat | h < |b.handles| :: HandleRecorded(a, ops, b, h)
  }

  lemma StepRecorded(a: AckState, op: Op)
    requires Enabled(a, op)
    ensures Recorded(a, [op], Apply(a, op))
  {
    assert [op][1..] == [];
    assert forall h, o :: MarkFailed(h, o) in [op] <==> op == MarkFailed(h, o);
    if op.MarkFailed? {
      assert MarkFailed(op.h, op.option) in [op];
    }
  }

  lemma HandleChained(a: AckState, op: Op, mid: AckState, rest: seq<Op>, b: AckState, h: nat)
    requires h < |b.handles| && |a.handles| <= |mid.handles| <= |b.handles|
    requires forall k: nat | k < |mid.handles| :: HandleRecorded(a, [op], mid, k)
    requires HandleRecorded(mid, rest, b, h)
    requires op.Release? || op.MarkSuccess? || op.MarkFailed? ==> op.h < |a.handles|
    ensures HandleRecorded(a, [op] + rest, b, h)
  {
    var ops := [op] + rest;
    assert forall x :: x in ops <==> x in [op] || x in rest;
    if h < |mid.handles| {
      assert HandleRecorded(a, [op], mid, h);
    }
  }

  lemma {:induction false} RunRecorded(a: AckState, ops: seq<Op>)
    requires Legal(a, ops)
    ensures Recorded(a, ops, Run(a, ops))
    decreases |ops|
  {
    if ops != [] {
      hide Apply, HandleRecorded, DerivedBy, FailedWith;
      var op, mid := ops[0], Apply(a, ops[0]);
      StepRecorded(a, op);
      RunRecorded(mid, ops[1..]);
      RecordedChained(a, op, mid, ops[1..], Run(a, ops));
      assert ops == [op] + ops[1..];
    } else {
      assert forall h: nat | h < |a.handles| :: HandleRecorded(a, [], a, h);
    }
  }

  lemma RecordedChained(a: AckState, op: Op, mid: AckState, rest: seq<Op>, b: AckState)
    requires Recorded(a, [op], mid) && Recorded(mid, rest, b)
    requires op.Release? || op.MarkSuccess? || op.MarkFailed? ==> op.h < |a.handles|
    ensures Recorded(a, [op] + rest, b)
  {
    hide HandleRecorded;
    assert ([op] + rest)[1..] == rest && [op][1..] == [];
    assert DerivedBy([op] + rest) == DerivedBy([op]) + DerivedBy(rest);
    assert FailedWith([op] + rest) == FailedWith([op]) + FailedWith(rest);
    assert a.failures + FailedWith([op]) + FailedWith(rest) == a.failures + (FailedWith([op]) + FailedWith(rest));
    forall h: nat | h < |b.handles| ensures HandleRecorded(a, [op] + rest, b, h) {
      HandleChained(a, op, mid, rest, b, h);
    }
  }

  /** Whatever the interleaving, a new handle's channel receives nothing while any derived handle is
      held and exactly one disposition once none is: Ack exactly if every handle ever derived was marked
      successful, otherwise a Nak with the first options any failure recorded. Said of the operations alone: of the
      original handle and all that `clone` and `with_message` derived, each was given up, and each was marked. All
      along, the reference count is the number of live handles not yet marked plus those that ended without success. */
  lemma ExactlyOneVerdict(ops: seq<Op>)
    requires Legal(FRESH, ops)
    ensures var a := Run(FRESH, ops);
            && (NoneHeld(a) <==> |a.sent| == 1)
            && (!NoneHeld(a) <==> a.sent == [])
            && (|a.sent| == 1 ==> (a.sent[0] == Ack <==> AllSucceeded(a)))
            && (|a.sent| == 1 && !AllSucceeded(a) ==> a.sent[0] == Nak(FirstRecorded(a.failures)))
            && a.refCount == Count(a.handles, Pending) + Count(a.handles, EndedWithoutSuccess)
    ensures var sent := Run(FRESH, ops).sent;
            && (sent == [] <==> exists h: nat | h <= DerivedBy(ops) :: Release(h) !in ops)
            && (sent != [] ==> |sent| == 1)
            && (sent != [] ==> (sent == [Ack] <==> forall h: nat | h <= DerivedBy(ops) :: MarkSuccess(h) in ops))
            && (sent != [] && sent[0].Nak? ==> FirstGiven(ops, sent[0].options))
  {
    FreshInv();
    RunInv(FRESH, ops);
    var handles := Run(FRESH, ops).handles;
    CountNone(handles, IsHeld);
    CountPartition(handles, NotSucceeded, Pending, EndedWithoutSuccess);
    VerdictOf(ops);
  }

  lemma VerdictOf(ops: seq<Op>)
    requires Legal(FRESH, ops)
    ensures var a := Run(FRESH, ops);
            && (NoneHeld(a) <==> forall h: nat | h <= DerivedBy(ops) :: Release(h) in ops)
            && (AllSucceeded(a) <==> forall h: nat | h <= DerivedBy(ops) :: MarkSuccess(h) in ops)
            && FirstGiven(ops, FirstRecorded(a.failures))
  {
    RunRecorded(FRESH, ops);
    FirstRecordedGiven(ops);
    assert FRESH.failures + FailedWith(ops) == FailedWith(ops);
    hide Run, Legal, FirstGiven;
    var a := Run(FRESH, ops);
    forall h: nat | h < |a.handles|
      ensures (a.handles[h].held <==> Release(h) !in ops) && (a.handles[h].mark.Succeeded? <==> MarkSuccess(h) in ops)
    {
      assert HandleRecorded(FRESH, ops, a, h);
    }
  }

  /**
   The shared handle itself, as the object the owners' calls update. Each call is one or two of the
   atomic steps above: marking also gives up the caller's reference, because it consumes the handle.
   The parameter `h` names the calling handle in the observer's record.
   */
  class AckHandle {
    var refCount: int
    var strong: int
    var nackOptions: Option<NackOptions>
    var sender: bool
    var channel: seq<ReadAck>
    ghost var handles: seq<Handle>
    ghost var failures: seq<Option<NackOptions>>

    ghost function State(): AckState
      reads this
    {
      AckState(refCount, strong, nackOptions, sender, channel, handles, failures)
    }

    constructor ()
      ensures State() == FRESH && Inv(State())
    {
      refCount, strong, nackOptions, sender, channel := 1, 1, None, true, [];
      handles, failures := [Handle(Unmarked, true)], [];
      new;
      FreshInv();
    }

    method WithMessage(ghost h: nat)
      requires Inv(State()) && Enabled(State(), Op.WithMessage(h))
      modifies this
      ensures Inv(State()) && State() == Apply(old(State()), Op.WithMessage(h))
    {
      ApplyInv(State(), Op.WithMessage(h));
      refCount, strong := refCount + 1, strong + 1;
      handles := handles + [Handle(Unmarked, true)];
    }

    method MarkSuccess(ghost h: nat)
      requires Inv(State()) && Enabled(State(), Op.MarkSuccess(h))
      modifies this
      ensures Inv(State())
      ensures State() == Apply(Apply(old(State()), Op.MarkSuccess(h)), Release(h))
    {
      ApplyInv(State(), Op.MarkSuccess(h));
      refCount := refCount - 1;
      handles := handles[h := Handle(Succeeded, true)];
      Drop(h);
    }

    method MarkFailed(ghost h: nat, option: Option<NackOptions>)
      requires Inv(State()) && Enabled(State(), Op.MarkFailed(h, option))
      modifies this
      ensures Inv(State())
      ensures State() == Apply(Apply(old(State()), Op.MarkFailed(h, option)), Release(h))
    {
      ApplyInv(State(), Op.MarkFailed(h, option));
      if nackOptions.None? {
        nackOptions := option;
      }
      handles, failures := handles[h := Handle(Failed, true)], failures + [option];
      Drop(h);
    }

    /** Gives up one reference; the last one sends the disposition. */
    method Drop(ghost h: nat)
      requires Inv(State()) && Enabled(State(), Release(h))
      modifies this
      ensures Inv(State()) && State() == Apply(old(State()), Release(h))
    {
      ApplyInv(State(), Release(h));
      strong := strong - 1;
      handles := handles[h := handles[h].(held := false)];
      if strong == 0 && sender {
        sender := false;
        channel := channel + [if refCount != 0 then Nak(nackOptions) else Ack];
      }
    }
  }
}
