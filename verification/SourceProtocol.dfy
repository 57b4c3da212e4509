/**
 The delivery and acknowledgement protocol of a source, as a labelled step system.

 Three kinds of activity interleave: the read loop (in streaming or in batch mode), one background task per
 batch of deliveries that waits for their dispositions and reports them upstream, and whoever holds
 message handles downstream. Answers of the outside world (read batches, upstream replies, cancellation,
 what handle owners do) are carried by the labels, so a statement about all label sequences is a
 statement about all runs.

 In streaming mode a batch is a single message; `invoke_ack_single` then behaves as `invoke_ack` on a
 one-element batch, which is how both are modelled here.
 */
module SourceProtocol {
  import opened Wrappers
  import opened RetryBudget
  import opened Offsets
  import opened AckHandles
  import opened Tracking

  /** `maxRead` bounds what a single read may return. */
  datatype Config = Config(
    streaming: bool, readAhead: bool, concurrency: nat, batchSize: nat, serving: bool, maxRead: nat)

  function Max(a: nat, b: nat): nat { if a < b then b else a }

  /** The size of the semaphore. */
  function Permits(c: Config): nat {
    if c.streaming then c.concurrency
    else if c.readAhead then Max(1, c.concurrency / Max(c.batchSize, 1))
    else 1
  }

  /** The drain asks for the permit count cast to 32 bits. */
  function DrainNeed(c: Config): nat { Permits(c) % U32 }

  /** `Lost` is the branch for a channel closed without a disposition. */
  datatype Settlement = Pending | Settled(ack: ReadAck) | Lost

  /** One admitted message; `group` is the background task that will settle it. */
  datatype Delivery = Delivery(offset: Offset, group: nat, ack: AckState, settlement: Settlement)

  datatype Phase =
    | Listening(next: nat)
    | Acking(tries: nat)
    | Nacking(tries: nat)
    | Finished(ok: bool)
    | Released(ok: bool)

  /** A background task: it owns the deliveries `lo` to `hi` and one permit until released. */
  datatype Group = Group(lo: nat, hi: nat, phase: Phase)

  datatype UpstreamReply = Accepted | Retryable | NonRetryable

  /** One call to the source, with its answer, and whether cancellation was observed after it. */
  datatype Call =
    | AckCall(group: nat, acks: seq<nat>, reply: UpstreamReply, cancelled: bool)
    | NackCall(group: nat, naks: seq<(nat, Option<NackOptions>)>, reply: UpstreamReply, cancelled: bool)

  datatype Loop =
    | Top
    | Acquiring
    | Reading
    | Filling(rest: seq<Message>, lo: nat)   // batch mode: the deliveries from `lo` on await their task
    | Waiting(rest: seq<Message>)            // streaming mode: messages read but not yet permitted
    | Holding(msg: Message, rest: seq<Message>)
    | Dispatching(rest: seq<Message>)
    | Draining(ok: bool)
    | Stopped(ok: bool)
    | Aborted(lo: nat)

  datatype State = State(
    cancelled: bool,
    free: nat,
    loop: Loop,
    tracker: map<Offset, nat>,   // tracked offset to the delivery it stands for
    deliveries: seq<Delivery>,
    groups: seq<Group>,
    calls: seq<Call>)            // what the source was sent and answered, in order

  datatype ReadReply = EndOfStream | ReadError | Batch(messages: seq<Message>)

  datatype Label =
    | Cancel
    | Check
    | AcquireForBatch
    | RateLimited
    | Read(answer: ReadReply)
    | FillOne
    | Spawn
    | AcquireForMessage
    | BreakOnCancel
    | Admit
    | EndBatch
    | Dispatched
    | DispatchFailed
    | DrainAcquire
    | HandleOp(d: nat, op: Op)
    | Settle(g: nat)
    | LoseReceiver(g: nat)
    | ListenDone(g: nat)
    | TryAck(g: nat, reply: UpstreamReply)
    | TryNack(g: nat, reply: UpstreamReply)
    | ReleasePermit(g: nat)
    | CancelOnError(g: nat)

  function Init(c: Config): State {
    State(false, Permits(c), Top, map[], [], [], [])
  }

  /** The deliveries of a task whose disposition is Ack, in order. */
  function Acks(ds: seq<Delivery>, lo: nat, hi: nat): seq<nat>
    decreases hi
  {
    if lo < hi <= |ds| then
      Acks(ds, lo, hi - 1) + (if ds[hi - 1].settlement == Settled(Ack) then [hi - 1] else [])
    else []
  }

  /** The deliveries of a task whose disposition is a Nak, with its options, in order. */
  function Naks(ds: seq<Delivery>, lo: nat, hi: nat): seq<(nat, Option<NackOptions>)>
    decreases hi
  {
    if lo < hi <= |ds| then
      Naks(ds, lo, hi - 1) +
      (match ds[hi - 1].settlement
       case Settled(Nak(options)) => [(hi - 1, options)]
       case _ => [])
    else []
  }

  ghost predicate Enabled(c: Config, s: State, l: Label) {
    match l
    case Cancel => true
    case Check => s.loop.Top?
    case AcquireForBatch => s.loop.Acquiring? && s.free > 0
    case RateLimited => s.loop.Reading?
    case Read(answer) => s.loop.Reading? && (answer.Batch? ==> |answer.messages| <= c.maxRead)
    case FillOne => s.loop.Filling? && s.loop.rest != []
    case Spawn => s.loop.Filling? && s.loop.rest == []
    case AcquireForMessage => s.loop.Waiting? && s.loop.rest != [] && !s.cancelled && s.free > 0
    case BreakOnCancel => s.loop.Waiting? && s.loop.rest != [] && s.cancelled
    case Admit => s.loop.Holding?
    case EndBatch => s.loop.Waiting? && s.loop.rest == []
    case Dispatched => s.loop.Dispatching?
    case DispatchFailed => s.loop.Dispatching?
    case DrainAcquire => s.loop.Draining? && s.free >= DrainNeed(c)
    case HandleOp(d, op) => d < |s.deliveries| && AckHandles.Enabled(s.deliveries[d].ack, op)
    case Settle(g) => ListensTo(s, g) && |s.deliveries[s.groups[g].phase.next].ack.sent| == 1
    case LoseReceiver(g) =>
      ListensTo(s, g) &&
      (var a := s.deliveries[s.groups[g].phase.next].ack; a.strong == 0 && a.sent == [])
    case ListenDone(g) =>
      g < |s.groups| && s.groups[g].phase.Listening? && s.groups[g].phase.next == s.groups[g].hi
    case TryAck(g, _) => g < |s.groups| && s.groups[g].phase.Acking?
    case TryNack(g, _) => g < |s.groups| && s.groups[g].phase.Nacking?
    case ReleasePermit(g) => g < |s.groups| && s.groups[g].phase.Finished?
    case CancelOnError(g) => g < |s.groups| && s.groups[g].phase == Released(false)
  }

  /** The task is waiting for the disposition of one of its deliveries. */
  predicate ListensTo(s: State, g: nat) {
    && g < |s.groups|
    && s.groups[g].phase.Listening?
    && s.groups[g].phase.next < s.groups[g].hi
    && s.groups[g].phase.next < |s.deliveries|
  }

  ghost function Next(c: Config, s: State, l: Label): State
    requires Enabled(c, s, l)
  {
    match l
    case Cancel => s.(cancelled := true)
    case Check =>
      s.(loop := if s.cancelled then Draining(true) else if c.streaming then Reading else Acquiring)
    case AcquireForBatch => s.(free := s.free - 1, loop := Reading)
    case RateLimited => Unread(c, s).(loop := Top)
    case Read(answer) =>
      (match answer
       case EndOfStream => Unread(c, s).(loop := Draining(true))
       case ReadError => Unread(c, s).(loop := Draining(false))
       case Batch(messages) =>
         s.(loop := if c.streaming then Waiting(messages) else Filling(messages, |s.deliveries|)))
    case FillOne =>
      var m, rest := s.loop.rest[0], s.loop.rest[1..];
      if c.serving && CallbackOf(m).None? then s.(free := s.free + 1, loop := Aborted(s.loop.lo))
      else if Clashes(s.tracker, m.offset) then s.(loop := Filling(rest, s.loop.lo))
      else Admitted(s, m).(loop := Filling(rest, s.loop.lo))
    case Spawn =>
      s.(groups := s.groups + [Group(s.loop.lo, |s.deliveries|, Listening(s.loop.lo))], loop := Dispatching([]))
    case AcquireForMessage => s.(free := s.free - 1, loop := Holding(s.loop.rest[0], s.loop.rest[1..]))
    case BreakOnCancel => s.(loop := Draining(true))
    case Admit =>
      var m, rest, n := s.loop.msg, s.loop.rest, |s.deliveries|;
      if c.serving && CallbackOf(m).None? then s.(free := s.free + 1, loop := Draining(false))
      else if Clashes(s.tracker, m.offset) then s.(free := s.free + 1, loop := Waiting(rest))
      else Admitted(s, m).(groups := s.groups + [Group(n, n + 1, Listening(n))], loop := Dispatching(rest))
    case EndBatch => s.(loop := if s.cancelled then Draining(true) else Top)
    case Dispatched => s.(loop := if c.streaming then Waiting(s.loop.rest) else Top)
    case DispatchFailed => s.(loop := Draining(false))
    case DrainAcquire => s.(free := s.free - DrainNeed(c), loop := Stopped(s.loop.ok))
    case HandleOp(d, op) =>
      s.(deliveries := s.deliveries[d := s.deliveries[d].(ack := Apply(s.deliveries[d].ack, op))])
    case Settle(g) => Settling(s, g, Settled(s.deliveries[s.groups[g].phase.next].ack.sent[0]))
    case LoseReceiver(g) => Settling(s, g, Lost)
    case ListenDone(g) =>
      var acks, naks := AcksOf(s, g), NaksOf(s, g);
      InPhase(s, g, if acks != [] then Acking(0) else if naks != [] then Nacking(0) else Finished(true))
    case TryAck(g, reply) =>
      var t := s.groups[g].phase.tries;
      InPhase(Called(s, AckCall(g, AcksOf(s, g), reply, s.cancelled)), g,
              if reply.Accepted? then (if NaksOf(s, g) != [] then Nacking(0) else Finished(true))
              else if reply.Retryable? && !s.cancelled && t < ACK_RETRY_ATTEMPTS then Acking(t + 1)
              else Finished(false))
    case TryNack(g, reply) =>
      var t := s.groups[g].phase.tries;
      InPhase(Called(s, NackCall(g, NaksOf(s, g), reply, s.cancelled)), g,
              if reply.Retryable? && !s.cancelled && t < NACK_RETRY_ATTEMPTS then Nacking(t + 1)
              else Finished(true))
    case ReleasePermit(g) => InPhase(s, g, Released(s.groups[g].phase.ok)).(free := s.free + 1)
    case CancelOnError(_) => s.(cancelled := true)
  }

  function AcksOf(s: State, g: nat): seq<nat>
    requires g < |s.groups|
  {
    Acks(s.deliveries, s.groups[g].lo, s.groups[g].hi)
  }

  function NaksOf(s: State, g: nat): seq<(nat, Option<NackOptions>)>
    requires g < |s.groups|
  {
    Naks(s.deliveries, s.groups[g].lo, s.groups[g].hi)
  }

  /** In batch mode leaving an iteration before its task is spawned gives the permit back. */
  function Unread(c: Config, s: State): State {
    if c.streaming then s else s.(free := s.free + 1)
  }

  /** Tracker insertion together with the creation of the message's handle and channel. */
  function Admitted(s: State, m: Message): State {
    s.(tracker := s.tracker[m.offset := |s.deliveries|],
       deliveries := s.deliveries + [Delivery(m.offset, |s.groups|, FRESH, Pending)])
  }

  /** The task takes one disposition and deletes the offset from the tracker. */
  function Settling(s: State, g: nat, how: Settlement): State
    requires ListensTo(s, g)
  {
    var d := s.groups[g].phase.next;
    InPhase(s, g, Listening(d + 1))
      .(tracker := s.tracker - {s.deliveries[d].offset},
        deliveries := s.deliveries[d := s.deliveries[d].(settlement := how)])
  }

  function InPhase(s: State, g: nat, phase: Phase): State
    requires g < |s.groups|
  {
    s.(groups := s.groups[g := s.groups[g].(phase := phase)])
  }

  function Called(s: State, call: Call): State { s.(calls := s.calls + [call]) }

  /** A label sequence that the protocol can perform, and the state it leads to. */
  ghost predicate Possible(c: Config, s: State, ls: seq<Label>)
    decreases |ls|
  {
    ls == [] || (Enabled(c, s, ls[0]) && Possible(c, Next(c, s, ls[0]), ls[1..]))
  }

  ghost function After(c: Config, s: State, ls: seq<Label>): State
    requires Possible(c, s, ls)
    decreases |ls|
  {
    if ls == [] then s else After(c, Next(c, s, ls[0]), ls[1..])
  }
}
