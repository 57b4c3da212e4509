/** How many times a failed call to the source is retried. */
module RetryBudget {
  const ACK_RETRY_ATTEMPTS := 0xFFFF_FFFF_FFFF_FFFF
  const NACK_RETRY_ATTEMPTS := 1200
}

/**
 The retry future: a state machine polled from outside, which alternates between running an operation and
 sleeping off a backoff. The futures it polls may answer Pending any number of times; how often, and what
 each attempt finally yields, is an oracle.
 */
module Retrying {
  import opened RetryBudget
  import opened Wrappers

  datatype Poll<+T> = Ready(value: T) | Pending

  /** Attempt `i` is pending `runs(i)` times and then yields `outcome(i)`; on an error the condition answers
      `retryable(i)`; the sleep after it is pending `naps(i)` times. */
  datatype Oracle<!T, !E> = Oracle(
    runs: nat -> nat, outcome: nat -> Result<T, E>, retryable: nat -> bool, naps: nat -> nat)

  datatype RetryState = Running(pending: nat) | Sleeping(pending: nat)

  /** Attempt `i` was made and another one is due after it. */
  predicate GoesOn<T, E>(w: Oracle<T, E>, i: nat) { w.outcome(i).Err? && w.retryable(i) }

  /** The synchronous loop's answer: the first attempt that succeeds, fails for good, or comes after the
      last of `backoffs` delays. */
  ghost predicate StopsAt<T, E>(w: Oracle<T, E>, backoffs: nat, k: nat) {
    && k <= backoffs
    && (forall j: nat | j < k :: GoesOn(w, j))
    && (k == backoffs || !GoesOn(w, k))
  }

  /** The loop a caller without futures would write: its result and the number of attempts made. */
  function SyncLoop<T, E>(w: Oracle<T, E>, i: nat, left: nat): (Result<T, E>, nat)
    decreases left
  {
    if GoesOn(w, i) && left > 0 then SyncLoop(w, i + 1, left - 1) else (w.outcome(i), i + 1)
  }

  lemma {:induction false} SyncLoopStops<T, E>(w: Oracle<T, E>, backoffs: nat, i: nat, k: nat)
    requires i <= k && StopsAt(w, backoffs, k)
    ensures SyncLoop(w, i, backoffs - i) == (w.outcome(k), k + 1)
    decreases k - i
  {
    if i < k {
      assert GoesOn(w, i);
      SyncLoopStops(w, backoffs, i + 1, k);
    }
  }

  /** The Pending answers from attempt `i` on, with `left` delays to go: those of the attempt itself and, if another one
      is due, those of the delay and of the attempts after it. */
  function Waits<T, E>(w: Oracle<T, E>, i: nat, left: nat): nat
    decreases left
  {
    w.runs(i) + if GoesOn(w, i) && left > 0 then w.naps(i) + Waits(w, i + 1, left - 1) else 0
  }

  function Total(f: nat -> nat, from: nat, to: nat): nat
    decreases to - from
  {
    if from < to then f(from) + Total(f, from + 1, to) else 0
  }

  /** Every attempt up to the last is waited for, and so is every delay between two of them. */
  lemma {:induction false} WaitsMeans<T, E>(w: Oracle<T, E>, backoffs: nat, i: nat, k: nat)
    requires i <= k && StopsAt(w, backoffs, k)
    ensures Waits(w, i, backoffs - i) == Total(w.runs, i, k + 1) + Total(w.naps, i, k)
    decreases k - i
  {
    if i < k {
      assert GoesOn(w, i);
      WaitsMeans(w, backoffs, i + 1, k);
    } else {
      assert Total(w.runs, k + 1, k + 1) == 0;
    }
  }

  class Retry<T, E> {
    const w: Oracle<T, E>
    ghost const backoffs: nat
    var attempt: nat   // attempts started, less one
    var left: nat      // delays the backoff iterator still holds
    var state: RetryState

    ghost predicate Valid()
      reads this
    {
      && attempt + left + (if state.Sleeping? then 1 else 0) == backoffs
      && (forall j: nat | j < attempt :: GoesOn(w, j))
      && (state.Sleeping? ==> GoesOn(w, attempt))
    }

    /** Polls still ahead are bounded whatever the oracle answers. */
    ghost function Rank(): (nat, nat, nat)
      reads this
    {
      (left, if state.Sleeping? then 1 else 0, state.pending)
    }

    /** The Pending answers still ahead. */
    ghost function Ahead(): nat
      reads this
    {
      match state
      case Running(pending) =>
        pending + if GoesOn(w, attempt) && left > 0 then w.naps(attempt) + Waits(w, attempt + 1, left - 1) else 0
      case Sleeping(pending) => pending + Waits(w, attempt + 1, left)
    }

    constructor (w: Oracle<T, E>, backoffs: nat)
      ensures Valid() && this.w == w && this.backoffs == backoffs && Ahead() == Waits(w, 0, backoffs)
    {
      this.w, this.backoffs := w, backoffs;
      attempt, left, state := 0, backoffs, Running(w.runs(0));
    }

    /** One poll. There are exactly as many pending answers as the attempts and the delays between them call for, and
        each brings the end closer; then comes the ready one, the synchronous loop's result, after one attempt more than
        the delays consumed. */
    method Poll() returns (p: Poll<Result<T, E>>)
      requires Valid()
      modifies this`attempt, this`left, this`state
      ensures Valid()
      ensures p.Ready? ==> StopsAt(w, backoffs, attempt) && p.value == w.outcome(attempt) && attempt == backoffs - left
      ensures p.Pending? ==> Lower(Rank(), old(Rank()))
      ensures p.Pending? <==> old(Ahead()) > 0
      ensures p.Pending? ==> Ahead() == old(Ahead()) - 1
      decreases Rank().0, Rank().1, Rank().2
    {
      if state.pending > 0 {
        state := state.(pending := state.pending - 1);
        return Pending;
      }
      if state.Sleeping? {
        Reattempt();
        p := Poll();
        return;
      }
      match w.outcome(attempt)
      case Ok(item) => return Ready(Ok(item));
      case Err(e) =>
        if !w.retryable(attempt) || left == 0 {
          return Ready(Err(e));
        }
        CoolOff();
        p := Poll();
    }

    /** `reattempt`: the delay is over and the operation is run again. */
    method Reattempt()
      requires Valid() && state == Sleeping(0)
      modifies this`attempt, this`state
      ensures Valid() && state.Running? && attempt == old(attempt) + 1 && Ahead() == old(Ahead())
    {
      attempt := attempt + 1;
      state := Running(w.runs(attempt));
    }

    /** `cool_off`: the next delay begins. */
    method CoolOff()
      requires Valid() && state == Running(0) && left > 0 && GoesOn(w, attempt)
      modifies this`left, this`state
      ensures Valid() && state.Sleeping? && left == old(left) - 1 && Ahead() == old(Ahead())
    {
      left, state := left - 1, Sleeping(w.naps(attempt));
    }

    /** Awaiting the future: it terminates, with the synchronous loop's result, after all the attempts and delays were
        waited for. */
    method Await() returns (r: Result<T, E>, attempts: nat, ghost polls: nat)
      requires Valid()
      modifies this`attempt, this`left, this`state
      ensures polls == old(Ahead()) + 1
      ensures attempts >= 1 && StopsAt(w, backoffs, attempts - 1) && r == w.outcome(attempts - 1)
      ensures (r, attempts) == SyncLoop(w, 0, backoffs)
    {
      hide StopsAt, Waits, GoesOn;
      polls := 0;
      while true
        invariant Valid() && polls + Ahead() == old(Ahead())
        decreases Rank().0, Rank().1, Rank().2
      {
        var p := Poll();
        polls := polls + 1;
        if p.Ready? {
          SyncLoopStops(w, backoffs, 0, attempt);
          return p.value, attempt + 1, polls;
        }
      }
    }
  }

  ghost predicate Lower(a: (nat, nat, nat), b: (nat, nat, nat)) {
    a.0 < b.0 || (a.0 == b.0 && (a.1 < b.1 || (a.1 == b.1 && a.2 < b.2)))
  }

  datatype SourceError = NonRetryable | Transient

  /** The retry condition of both calls: give up on non-retryable errors and on observed cancellation. */
  function Upstream(outcome: nat -> Result<(), SourceError>, cancelled: nat -> bool, runs: nat -> nat, naps: nat -> nat)
    : Oracle<(), SourceError>
  {
    Oracle(runs, outcome, (i: nat) => !(outcome(i).Err? && outcome(i).error.NonRetryable?) && !cancelled(i), naps)
  }

  /** A retry future made and awaited. */
  method AwaitRetries<T, E>(w: Oracle<T, E>, backoffs: nat) returns (r: Result<T, E>, calls: nat, ghost polls: nat)
    ensures calls >= 1 && StopsAt(w, backoffs, calls - 1) && r == w.outcome(calls - 1)
    ensures polls == 1 + Total(w.runs, 0, calls) + Total(w.naps, 0, calls - 1)
  {
    hide StopsAt, SyncLoop, Total, Waits;
    var retry := new Retry(w, backoffs);
    r, calls, polls := retry.Await();
    WaitsMeans(w, backoffs, 0, calls - 1);
  }

  lemma UpstreamStops(outcome: nat -> Result<(), SourceError>, cancelled: nat -> bool, runs: nat -> nat,
                      naps: nat -> nat, backoffs: nat, k: nat)
    requires StopsAt(Upstream(outcome, cancelled, runs, naps), backoffs, k)
    ensures k <= backoffs && forall j: nat | j < k :: outcome(j) == Err(Transient) && !cancelled(j)
    ensures k == backoffs || outcome(k) != Err(Transient) || cancelled(k)
  {
    var w := Upstream(outcome, cancelled, runs, naps);
    forall j: nat | j < k ensures outcome(j) == Err(Transient) && !cancelled(j) { assert GoesOn(w, j); }
  }

  /** An ack call that ends in an error saw a non-retryable error, saw cancellation, or used up its whole
      attempt budget; before that every attempt failed, and the delay after it was waited for. */
  method AckWithRetry(outcome: nat -> Result<(), SourceError>, cancelled: nat -> bool,
                      runs: nat -> nat, naps: nat -> nat)
    returns (r: Result<(), SourceError>, calls: nat, ghost polls: nat)
    ensures calls >= 1 && r == outcome(calls - 1)
    ensures forall j: nat | j < calls - 1 :: outcome(j) == Err(Transient) && !cancelled(j)
    ensures r.Err? ==> r.error.NonRetryable? || cancelled(calls - 1) || calls == 0x1_0000_0000_0000_0000
    ensures polls == 1 + Total(runs, 0, calls) + Total(naps, 0, calls - 1)
  {
    hide StopsAt, Total;
    r, calls, polls := AwaitRetries(Upstream(outcome, cancelled, runs, naps), ACK_RETRY_ATTEMPTS);
    UpstreamStops(outcome, cancelled, runs, naps, ACK_RETRY_ATTEMPTS, calls - 1);
  }

  /** A nack never reports an error and makes at most 1201 calls; fewer only after success, a
      non-retryable error or cancellation; the delay after each but the last is waited for. */
  method NackWithRetry(outcome: nat -> Result<(), SourceError>, cancelled: nat -> bool,
                       runs: nat -> nat, naps: nat -> nat)
    returns (r: Result<(), SourceError>, calls: nat, ghost polls: nat)
    ensures r.Ok? && 1 <= calls <= 1201
    ensures forall j: nat | j < calls - 1 :: outcome(j) == Err(Transient) && !cancelled(j)
    ensures calls < 1201 ==> outcome(calls - 1) != Err(Transient) || cancelled(calls - 1)
    ensures polls == 1 + Total(runs, 0, calls) + Total(naps, 0, calls - 1)
  {
    hide StopsAt, Total;
    var ignored;
    ignored, calls, polls := AwaitRetries(Upstream(outcome, cancelled, runs, naps), NACK_RETRY_ATTEMPTS);
    UpstreamStops(outcome, cancelled, runs, naps, NACK_RETRY_ATTEMPTS, calls - 1);
    r := Ok(());
  }
}
