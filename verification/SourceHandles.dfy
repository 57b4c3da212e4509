/**
 The acknowledgement theorems said of a run's labels alone: which handles of a message were derived, marked and given up
 is read off the operations in the run, and so is what the source may have been told about the message.
 */
module SourceHandles {
  import opened AckHandles
  import opened SourceProtocol
  import opened SourceTheorems
  import opened Wrappers

  /** The operations on the handles of delivery `d`, in order. */
  function OpsOn(ls: seq<Label>, d: nat): seq<Op> {
    if ls == [] then []
    else (if ls[0].HandleOp? && ls[0].d == d then [ls[0].op] else []) + OpsOn(ls[1..], d)
  }

  lemma {:induction false} OpsInRun(ls: seq<Label>, d: nat, op: Op)
    ensures op in OpsOn(ls, d) <==> HandleOp(d, op) in ls
  {
    if ls != [] {
      OpsInRun(ls[1..], d, op);
      assert ls == [ls[0]] + ls[1..];
    }
  }

  /** The handles of delivery `d`, a new one's if it is yet to come. */
  function HandlesOf(s: State, d: nat): AckState { if d < |s.deliveries| then s.deliveries[d].ack else FRESH }

  /** Only the operations on its handles change them. */
  lemma HandlesStep(c: Config, s: State, l: Label, d: nat)
    requires SourceProtocol.Enabled(c, s, l)
    ensures var t := Next(c, s, l);
            && |s.deliveries| <= |t.deliveries|
            && (if l.HandleOp? && l.d == d
                then AckHandles.Enabled(HandlesOf(s, d), l.op) && HandlesOf(t, d) == Apply(HandlesOf(s, d), l.op)
                else HandlesOf(t, d) == HandlesOf(s, d))
  {
    hide Apply, AckHandles.Enabled;
  }

  /** Over every run the state of a message's handles is what the operations on them have made of it. */
  lemma {:induction false} HandlesFollow(c: Config, s: State, ls: seq<Label>, d: nat)
    requires Possible(c, s, ls)
    ensures Legal(HandlesOf(s, d), OpsOn(ls, d))
    ensures HandlesOf(After(c, s, ls), d) == Run(HandlesOf(s, d), OpsOn(ls, d))
    decreases |ls|
  {
    if ls != [] {
      hide Next, SourceProtocol.Enabled, Apply, AckHandles.Enabled;
      var l, t := ls[0], Next(c, s, ls[0]);
      HandlesStep(c, s, l, d);
      HandlesFollow(c, t, ls[1..], d);
      if l.HandleOp? && l.d == d {
        assert OpsOn(ls, d)[1..] == OpsOn(ls[1..], d) && OpsOn(ls, d)[0] == l.op;
      } else {
        assert OpsOn(ls, d) == OpsOn(ls[1..], d);
      }
    }
  }

  /** The handles of a delivery are the original one and those derived from it in the run. */
  ghost predicate IsHandle(ls: seq<Label>, d: nat, h: nat) { h <= DerivedBy(OpsOn(ls, d)) }

  /** Over every run, in both modes: once the source was sent an ack for a message, every handle ever derived from the
      message has been marked successful and given up in that run. */
  lemma AckedMeans(c: Config, ls: seq<Label>, call: Call, d: nat, h: nat)
    requires Possible(c, Init(c), ls) && call in After(c, Init(c), ls).calls && call.AckCall? && d in call.acks
    requires IsHandle(ls, d, h)
    ensures HandleOp(d, MarkSuccess(h)) in ls && HandleOp(d, Release(h)) in ls
  {
    hide Next, SourceProtocol.Enabled, Run, Legal;
    var s := After(c, Init(c), ls);
    assert Reachable(c, s);
    AckOnlyIfAllSucceeded(c, s, call, d);
    HandlesFollow(c, Init(c), ls, d);
    VerdictOf(OpsOn(ls, d));
    OpsInRun(ls, d, MarkSuccess(h));
    OpsInRun(ls, d, Release(h));
  }

  /** Over every run: once it was sent a nack, every handle has been given up, some handle was never marked successful,
      and the options sent are the first that a failure of a handle of this message gave. */
  lemma NackedMeans(c: Config, ls: seq<Label>, call: Call, d: nat, o: Option<NackOptions>) returns (h: nat)
    requires Possible(c, Init(c), ls) && call in After(c, Init(c), ls).calls && call.NackCall? && (d, o) in call.naks
    ensures IsHandle(ls, d, h) && HandleOp(d, MarkSuccess(h)) !in ls
    ensures forall k: nat | IsHandle(ls, d, k) :: HandleOp(d, Release(k)) in ls
    ensures FirstGiven(OpsOn(ls, d), o)
  {
    hide Next, SourceProtocol.Enabled, Run, Legal, FirstGiven;
    var s := After(c, Init(c), ls);
    assert Reachable(c, s);
    NackOnlyIfSomeFailed(c, s, call, d, o);
    HandlesFollow(c, Init(c), ls, d);
    VerdictOf(OpsOn(ls, d));
    h :| h <= DerivedBy(OpsOn(ls, d)) && MarkSuccess(h) !in OpsOn(ls, d);
    OpsInRun(ls, d, MarkSuccess(h));
    forall k: nat | IsHandle(ls, d, k) ensures HandleOp(d, Release(k)) in ls { OpsInRun(ls, d, Release(k)); }
  }

  /** Over every run: a message all of whose handles were given up, and whose task is through and ended well, was acked
      if every handle was marked successful and nacked otherwise. */
  lemma ReportedMeans(c: Config, ls: seq<Label>, d: nat)
    requires Possible(c, Init(c), ls) && Through(After(c, Init(c), ls), d)
    ensures var s := After(c, Init(c), ls);
            var ok := s.groups[s.deliveries[d].group].phase.ok;
            var good := forall h: nat | IsHandle(ls, d, h) :: HandleOp(d, MarkSuccess(h)) in ls;
            && (SentAck(s, d) <==> good) && (Acked(s, d) <==> good && ok) && (SentNack(s, d) <==> !good && ok)
  {
    hide Next, SourceProtocol.Enabled, Run, Legal, FirstGiven, SentAck, Acked, SentNack;
    var s := After(c, Init(c), ls);
    assert Reachable(c, s);
    ReleasedMeansReported(c, s, d);
    HandlesFollow(c, Init(c), ls, d);
    VerdictOf(OpsOn(ls, d));
    forall h: nat | IsHandle(ls, d, h)
      ensures HandleOp(d, MarkSuccess(h)) in ls <==> MarkSuccess(h) in OpsOn(ls, d)
    {
      OpsInRun(ls, d, MarkSuccess(h));
    }
  }
}
