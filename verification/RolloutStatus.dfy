/**
 How one pass of the pod rollout moves the vertex status, as a function of what the pass observed, and what
 that means over a whole rolling update.
 */
module RolloutStatus {
  import opened Wrappers

  datatype Status = Status(
    replicas: nat, updated: nat, updatedReady: nat, updateHash: string, currentHash: string)

  /** `maxUnavailable`: an absolute number, or a percentage of the desired replicas rounded up. Nothing
      rejects negative settings. */
  datatype IntOrPercent = Absolute(value: int) | Percent(value: int)

  function Scaled(max: IntOrPercent, desired: nat): int {
    match max
    case Absolute(v) => v
    case Percent(p) => -((-(p * desired)) / 100)
  }

  /** A percentage of the desired replicas is rounded up, so any positive one is at least one replica. */
  lemma ScaledMeans(p: int, desired: nat)
    ensures var n := Scaled(Percent(p), desired); (n - 1) * 100 < p * desired <= n * 100
    ensures p >= 1 && desired >= 1 ==> Scaled(Percent(p), desired) >= 1
    ensures Scaled(Absolute(p), desired) == p
  {}

  datatype Strategy = Strategy(rolling: bool, maxUnavailable: IntOrPercent)

  /** A changed pod specification starts the rollout over. */
  function Rehashed(s: Status, hash: string): Status {
    if s.updateHash != hash then s.(updateHash := hash, updated := 0, updatedReady := 0) else s
  }

  function Min(a: nat, b: nat): nat { if a < b then a else b }

  /** After scaling down. */
  function Clamped(s: Status, desired: nat): Status {
    s.(replicas := Min(s.replicas, desired), updated := Min(s.updated, desired))
  }

  function Begun(s: Status, hash: string, desired: nat): Status {
    Clamped(Rehashed(s, hash), desired)
  }

  /** The pass counts the ready pods among the updated ones only if the recorded count differs. */
  predicate Recounts(b: Status) { b.updated > 0 && b.updatedReady != b.updated }

  predicate RegularScaling(b: Status) { b.updateHash == b.currentHash || b.currentHash == "" }

  /** The pass does not stop to wait for updated pods. */
  predicate GoesOn(b: Status, ready: nat) { !(Recounts(b) && ready < b.updated) }

  function Counted(b: Status, ready: nat): Status { if Recounts(b) then b.(updatedReady := ready) else b }

  /** The pass takes the rolling-update branch. */
  predicate RollsOn(b: Status, desired: nat, strategy: Strategy, ready: nat) {
    && GoesOn(b, ready)
    && !RegularScaling(b)
    && b.updated < desired
    && strategy.rolling
  }

  /** The end of the replica range the rolling update covers. */
  function RollTo(b: Status, desired: nat, strategy: Strategy): int {
    var to := b.updated + Scaled(strategy.maxUnavailable, desired);
    if to > desired then desired else to
  }

  /** The part of a pass after the updated pods were found in place. */
  function Advance(b: Status, desired: nat, strategy: Strategy): Status {
    if RegularScaling(b) then b.(updated := desired, currentHash := b.updateHash, replicas := desired)
    else if b.updated >= desired then b.(updated := desired, currentHash := b.updateHash)
    else if !strategy.rolling then b
    else
      var updated := RollTo(b, desired, strategy) % U32;
      b.(updated := updated, replicas := desired,
         currentHash := if updated == desired then b.updateHash else b.currentHash)
  }

  function NextStatus(s: Status, hash: string, desired: nat, strategy: Strategy, ready: nat): Status {
    var b := Begun(s, hash, desired);
    if GoesOn(b, ready) then Advance(Counted(b, ready), desired, strategy) else Counted(b, ready)
  }

  /** How a pass ends: without an error, or with one while building the pod specification, cleaning up, putting the
      updated replicas in place, or extending them. */
  datatype PassEnd = Finished | BuildFailed | CleanUpFailed | PodsFailed | AdvanceFailed

  /** A pass's end, and the number of ready pods it counted. */
  datatype Seen = Seen(end: PassEnd, ready: nat)

  /** What a pass, failed or not, leaves recorded. */
  function Step(s: Status, hash: string, desired: nat, strategy: Strategy, p: Seen): Status {
    match p.end
    case Finished => NextStatus(s, hash, desired, strategy, p.ready)
    case BuildFailed => s
    case CleanUpFailed => Rehashed(s, hash)
    case PodsFailed => Begun(s, hash, desired)
    case AdvanceFailed => Counted(Begun(s, hash, desired), p.ready)
  }

  // ----- the recorded count of updated replicas -----

  /** A negative `maxUnavailable` takes the unsigned counter below zero. */
  predicate Underflows(s: Status, hash: string, desired: nat, strategy: Strategy, ready: nat) {
    var b := Begun(s, hash, desired);
    RollsOn(b, desired, strategy, ready) && b.updated + Scaled(strategy.maxUnavailable, desired) < 0
  }

  /** The pass ends with an impossible count exactly if a negative `maxUnavailable` takes the unsigned counter below
      zero and the counter does not wrap all the way round; down to -2^31 it never does. */
  lemma UpdatedWithinDesired(s: Status, hash: string, desired: nat, strategy: Strategy, ready: nat)
    requires desired < 0x8000_0000
    ensures var below := Begun(s, hash, desired).updated + Scaled(strategy.maxUnavailable, desired);
            && (NextStatus(s, hash, desired, strategy, ready).updated > desired <==>
                Underflows(s, hash, desired, strategy, ready) && below % U32 > desired)
            && (-0x8000_0000 <= below < 0 ==> below % U32 > desired)
  {
    hide Scaled;
    var below := Begun(s, hash, desired).updated + Scaled(strategy.maxUnavailable, desired);
    assert 0 <= below < U32 ==> below % U32 == below;
  }

  /** One such pass: `maxUnavailable: -1` on a fresh rollout of three replicas. */
  lemma NegativeUnderflows()
    ensures NextStatus(Status(3, 3, 3, "old", "old"), "new", 3, Strategy(true, Absolute(-1)), 0).updated == 0xFFFF_FFFF
  {}

  // ----- one pass of a rolling update -----

  /** The specification changed and no pass has noticed yet. */
  ghost predicate NotBegun(s: Status, hash: string) {
    s.updateHash != hash && s.currentHash != hash && s.currentHash != ""
  }

  ghost predicate InProgress(s: Status, hash: string, desired: nat) {
    && s.updateHash == hash
    && s.currentHash != hash && s.currentHash != ""
    && s.updated < desired
    && s.updatedReady <= s.updated
  }

  /** Every updated replica was ready when last counted, and none was updated since. */
  predicate FullCount(s: Status) { s.updated > 0 && s.updatedReady == s.updated }

  ghost predicate Complete(s: Status, hash: string, desired: nat) {
    s.updateHash == hash && s.currentHash == hash && s.updated == desired
  }

  ghost predicate Rolls(desired: nat, strategy: Strategy) {
    0 < desired < U32 && strategy.rolling && Scaled(strategy.maxUnavailable, desired) >= 1
  }

  /** A pass over an update in progress advances by the scaled `maxUnavailable`, up to the desired count, or not at
      all; past the first batch it advances exactly if it counted every updated replica ready or an earlier count
      said so. Then the count is out of date again, or the update complete. */
  lemma PassAdvances(s: Status, hash: string, desired: nat, strategy: Strategy, ready: nat)
    requires InProgress(s, hash, desired) && Rolls(desired, strategy) && ready <= s.updated
    ensures var t, size := NextStatus(s, hash, desired, strategy, ready), Scaled(strategy.maxUnavailable, desired);
            var moves := s.updated == 0 || ready == s.updated || FullCount(s);
            && (GoesOn(Begun(s, hash, desired), ready) <==> moves)
            && (t.updated > s.updated <==> moves)
            && t.updated == (if moves then Min(desired, s.updated + size) else s.updated)
            && ((InProgress(t, hash, desired) && !FullCount(t)) || Complete(t, hash, desired))
            && (Complete(t, hash, desired) <==> t.updated == desired)
  {
    hide Scaled;
    var to := RollTo(s, desired, strategy);
    assert Begun(s, hash, desired) == s.(replicas := Min(s.replicas, desired));
    assert 0 < to <= desired && to % U32 == to;
  }

  /** With nothing allowed to be unavailable the update stays where it is: no replica is updated, and the new hash does
      not become current. */
  lemma ZeroStalls(s: Status, hash: string, desired: nat, strategy: Strategy, ready: nat)
    requires InProgress(s, hash, desired) && desired < U32 && strategy.rolling
    requires Scaled(strategy.maxUnavailable, desired) == 0
    ensures var t := NextStatus(s, hash, desired, strategy, ready);
            && t.updated == s.updated && t.updateHash == s.updateHash && t.currentHash == s.currentHash
            && (ready <= s.updated ==> InProgress(t, hash, desired))
  {
    assert Begun(s, hash, desired) == s.(replicas := Min(s.replicas, desired));
    assert s.updated % U32 == s.updated;
  }

  /** The readiness of updated pods is looked at exactly if the recorded count differs from the number
      updated; otherwise the pass moves on whatever the pods' state. */
  lemma ReadinessIgnoredIff(s: Status, hash: string, desired: nat, strategy: Strategy)
    requires s.updateHash == hash && s.currentHash != hash && s.currentHash != ""
    requires 0 < s.updated < desired && Rolls(desired, strategy)
    ensures (forall ready: nat :: NextStatus(s, hash, desired, strategy, ready).updated > s.updated) <==> FullCount(s)
  {
    var to := RollTo(Begun(s, hash, desired), desired, strategy);
    assert Begun(s, hash, desired) == s.(replicas := Min(s.replicas, desired));
    assert s.updated < to <= desired && to % U32 == to;
    if s.updatedReady != s.updated {
      assert NextStatus(s, hash, desired, strategy, 0).updated == s.updated;
    }
  }

  /** The first pass after the hash changed updates the first batch. */
  lemma FirstPass(s: Status, hash: string, desired: nat, strategy: Strategy, ready: nat)
    requires NotBegun(s, hash) && Rolls(desired, strategy)
    ensures GoesOn(Begun(s, hash, desired), ready)
    ensures var t := NextStatus(s, hash, desired, strategy, ready);
            && t.updated == Min(desired, Scaled(strategy.maxUnavailable, desired))
            && ((InProgress(t, hash, desired) && !FullCount(t)) || Complete(t, hash, desired))
            && (Complete(t, hash, desired) <==> t.updated == desired)
  {}

  lemma CompleteStays(s: Status, hash: string, desired: nat, strategy: Strategy, p: Seen)
    requires Complete(s, hash, desired)
    ensures Complete(Step(s, hash, desired, strategy, p), hash, desired)
  {}

  /** A failed pass updates no replica; it can only have noticed the change, or recorded a full count. */
  lemma FailedPass(s: Status, hash: string, desired: nat, strategy: Strategy, p: Seen)
    requires !p.end.Finished? && p.ready <= Begun(s, hash, desired).updated && desired > 0
    ensures var t := Step(s, hash, desired, strategy, p);
            && (NotBegun(s, hash) ==> t == s || (InProgress(t, hash, desired) && t.updated == 0))
            && (InProgress(s, hash, desired) ==> InProgress(t, hash, desired) && t.updated == s.updated)
            && (InProgress(s, hash, desired) && FullCount(t) && !FullCount(s) ==>
                  p.end.AdvanceFailed? && p.ready == s.updated)
  {}

  /** What a failed pass records: nothing if the pod specification could not be built; then that the hash changed; once
      cleaned up, counts within the desired replicas; and, if it counted ready pods before it failed, their number. It
      never makes the new hash current. */
  lemma FailedPassRecords(s: Status, hash: string, desired: nat, strategy: Strategy, p: Seen)
    requires !p.end.Finished?
    ensures var t, changed := Step(s, hash, desired, strategy, p), s.updateHash != hash;
            && t.currentHash == s.currentHash
            && (p.end.BuildFailed? ==> t == s)
            && (!p.end.BuildFailed? ==> t.updateHash == hash && (changed ==> t.updated == 0 && t.updatedReady == 0))
            && (p.end.CleanUpFailed? && !changed ==> t == s)
            && (p.end.CleanUpFailed? ==> t.replicas == s.replicas)
            && (p.end.PodsFailed? || p.end.AdvanceFailed? ==>
                  && t.replicas == Min(s.replicas, desired) && (!changed ==> t.updated == Min(s.updated, desired)))
            && (p.end.PodsFailed? && !changed ==> t.updatedReady == s.updatedReady)
            && (p.end.AdvanceFailed? && !changed && t.updated > 0 ==>
                  t.updatedReady == if s.updatedReady == t.updated then s.updatedReady else p.ready)
  {}

  /** The recorded replicas never exceed the desired ones once a pass has cleaned up, and equal them after every pass
      that scaled or rolled; one that waits, completes a rollout, or does not support the strategy records no more. */
  lemma ReplicasRecorded(s: Status, hash: string, desired: nat, strategy: Strategy, ready: nat)
    ensures var b, t := Begun(s, hash, desired), NextStatus(s, hash, desired, strategy, ready);
            var wait := b.updated > 0 && b.updatedReady != b.updated && ready < b.updated;
            var regular := s.currentHash == hash || s.currentHash == "";
            && b.replicas <= desired && t.replicas <= desired
            && (s.replicas <= desired ==> b.replicas == s.replicas)
            && (!wait && (regular || (b.updated < desired && strategy.rolling)) ==> t.replicas == desired)
            && (wait || (!regular && (b.updated >= desired || !strategy.rolling)) ==> t.replicas == b.replicas)
  {}

  /** The ready count recorded by a pass without an error is the one it made, if it counted, and otherwise stays, except
      that a changed specification resets it. */
  lemma ReadyRecorded(s: Status, hash: string, desired: nat, strategy: Strategy, ready: nat)
    ensures var changed, t := s.updateHash != hash, NextStatus(s, hash, desired, strategy, ready);
            var updated := if changed then 0 else Min(s.updated, desired);
            var recorded := if changed then 0 else s.updatedReady;
            t.updatedReady == if updated > 0 && recorded != updated then ready else recorded
  {}

  /** The hash recorded as current stays until all desired replicas have been updated to the new one; then, and after a
      pass that scales without a rollout, it is the new one. The hash worked towards is always the new one. */
  lemma HashRecorded(s: Status, hash: string, desired: nat, strategy: Strategy, ready: nat)
    ensures var b, t := Begun(s, hash, desired), NextStatus(s, hash, desired, strategy, ready);
            var wait := b.updated > 0 && b.updatedReady != b.updated && ready < b.updated;
            var regular := s.currentHash == hash || s.currentHash == "";
            var done := regular || b.updated >= desired || (strategy.rolling && t.updated == desired);
            && t.updateHash == hash
            && (t.currentHash == s.currentHash || (t.currentHash == hash && t.updated == desired))
            && t.currentHash == (if !wait && done then hash else s.currentHash)
  {}

  /** How many replicas a pass without an error leaves recorded as updated. */
  lemma CountRecorded(s: Status, hash: string, desired: nat, strategy: Strategy, ready: nat)
    ensures var t, size := NextStatus(s, hash, desired, strategy, ready), Scaled(strategy.maxUnavailable, desired);
            var was := if s.updateHash != hash then 0 else Min(s.updated, desired);
            var counted := if s.updateHash != hash then 0 else s.updatedReady;
            var wait := was > 0 && counted != was && ready < was;
            var regular := s.currentHash == hash || s.currentHash == "";
            && (wait ==> t.updated == was)
            && (!wait && (regular || was >= desired) ==> t.updated == desired)
            && (!wait && !regular && was < desired && !strategy.rolling ==> t.updated == was)
            && (!wait && !regular && was < desired && strategy.rolling ==>
                  && (was + size >= desired ==> t.updated == desired % U32)
                  && (0 <= was + size < desired < U32 ==> t.updated == was + size)
                  && (was + size < 0 ==> (t.updated - (was + size)) % U32 == 0 && t.updated < U32))
  {
    hide Scaled;
    var was := Begun(s, hash, desired).updated;
    var to := was + Scaled(strategy.maxUnavailable, desired);
    assert 0 <= to < U32 ==> to % U32 == to;
    assert (to % U32 - to) % U32 == 0;
  }

  /** Without a change of specification, or the first time, a pass that does not wait brings all desired replicas to the
      hash at once. */
  lemma RegularPass(s: Status, hash: string, desired: nat, strategy: Strategy, ready: nat)
    requires s.currentHash == hash || s.currentHash == ""
    ensures var b, t := Begun(s, hash, desired), NextStatus(s, hash, desired, strategy, ready);
            var wait := b.updated > 0 && b.updatedReady != b.updated && ready < b.updated;
            && (!wait ==> t.updated == desired && t.currentHash == hash)
            && (wait ==> t.updated == b.updated && t.updatedReady == ready && t.currentHash == s.currentHash)
            && t.updateHash == hash
  {}

  /** A rollout overtaken by scaling down to what is already updated completes; one whose strategy is not a rolling
      update does not move. */
  lemma OvertakenCompletes(s: Status, hash: string, desired: nat, strategy: Strategy, ready: nat)
    requires s.updateHash == hash && s.currentHash != hash && s.currentHash != "" && ready <= Min(s.updated, desired)
    requires s.updated >= desired || !strategy.rolling
    ensures var b, t := Begun(s, hash, desired), NextStatus(s, hash, desired, strategy, ready);
            && b.updated == Min(s.updated, desired) && t.updated == b.updated
            && (s.updated >= desired ==>
                  (Complete(t, hash, desired) <==> b.updated == 0 || ready == b.updated || b.updatedReady == b.updated))
            && (s.updated < desired ==> t.currentHash == s.currentHash)
  {}

  // ----- every run of passes, failed ones included -----

  /** Successive passes over fixed settings. */
  ghost function Passes(s: Status, hash: string, desired: nat, strategy: Strategy, run: seq<Seen>): Status
    decreases |run|
  {
    if run == [] then s
    else
      var n := |run| - 1;
      Step(Passes(s, hash, desired, strategy, run[..n]), hash, desired, strategy, run[n])
  }

  /** No pass counts more ready replicas than were updated. */
  ghost predicate Plausible(s: Status, hash: string, desired: nat, strategy: Strategy, run: seq<Seen>)
    decreases |run|
  {
    run == [] ||
    (var n := |run| - 1;
     && Plausible(s, hash, desired, strategy, run[..n])
     && run[n].ready <= Begun(Passes(s, hash, desired, strategy, run[..n]), hash, desired).updated)
  }

  /** The passes that ended without an error and did not stop to wait for pods. */
  ghost function Moves(s: Status, hash: string, desired: nat, strategy: Strategy, run: seq<Seen>): nat
    decreases |run|
  {
    if run == [] then 0
    else
      var n := |run| - 1;
      var b := Begun(Passes(s, hash, desired, strategy, run[..n]), hash, desired);
      Moves(s, hash, desired, strategy, run[..n]) + if run[n].end.Finished? && GoesOn(b, run[n].ready) then 1 else 0
  }

  function Batches(k: nat, size: nat): nat { k * size }

  lemma BatchesStep(k: nat, size: nat)
    ensures Batches(k + 1, size) == Batches(k, size) + size && Batches(0, size) == 0
  {}

  /** Over every run, however long pods take to become ready and however many passes fail: each pass that moved did
      one batch, and the new hash is current exactly once the batches cover the desired replicas. */
  lemma {:induction false} RolloutCompletes(s: Status, hash: string, desired: nat, strategy: Strategy, run: seq<Seen>)
    requires NotBegun(s, hash) && Rolls(desired, strategy) && Plausible(s, hash, desired, strategy, run)
    ensures var t := Passes(s, hash, desired, strategy, run);
            var moves := Moves(s, hash, desired, strategy, run);
            var done := Batches(moves, Scaled(strategy.maxUnavailable, desired));
            && ((t == s && moves == 0) ||
                ((InProgress(t, hash, desired) || Complete(t, hash, desired)) && t.updated == Min(desired, done)))
            && (Complete(t, hash, desired) <==> done >= desired)
    decreases |run|
  {
    hide Scaled, Step, Batches, GoesOn, Begun;
    BatchesStep(0, Scaled(strategy.maxUnavailable, desired));
    if run != [] {
      var n := |run| - 1;
      var before, p := Passes(s, hash, desired, strategy, run[..n]), run[n];
      RolloutCompletes(s, hash, desired, strategy, run[..n]);
      BatchesStep(Moves(s, hash, desired, strategy, run[..n]), Scaled(strategy.maxUnavailable, desired));
      OnePass(before, hash, desired, strategy, p);
    }
  }

  /** One pass of a run: it does a batch, or nothing. */
  lemma OnePass(s: Status, hash: string, desired: nat, strategy: Strategy, p: Seen)
    requires Rolls(desired, strategy) && p.ready <= Begun(s, hash, desired).updated
    requires NotBegun(s, hash) || InProgress(s, hash, desired) || Complete(s, hash, desired)
    ensures var t, size := Step(s, hash, desired, strategy, p), Scaled(strategy.maxUnavailable, desired);
            var moves := p.end.Finished? && GoesOn(Begun(s, hash, desired), p.ready);
            var from := if NotBegun(s, hash) then 0 else s.updated;
            && ((t == s && !moves) || InProgress(t, hash, desired) || Complete(t, hash, desired))
            && (!NotBegun(t, hash) ==>
                  && t.updated == (if moves then Min(desired, from + size) else from)
                  && (Complete(t, hash, desired) <==> t.updated == desired))
  {
    if Complete(s, hash, desired) {
      CompleteStays(s, hash, desired, strategy, p);
    } else if !p.end.Finished? {
      FailedPass(s, hash, desired, strategy, p);
    } else if NotBegun(s, hash) {
      FirstPass(s, hash, desired, strategy, p.ready);
    } else {
      PassAdvances(s, hash, desired, strategy, p.ready);
    }
  }

  /** A full count found in the record was made by a pass that failed afterwards, and no pass has finished since. */
  lemma {:induction false} FullCountOrigin(s: Status, hash: string, desired: nat, strategy: Strategy, run: seq<Seen>)
    returns (j: nat)
    requires NotBegun(s, hash) && Rolls(desired, strategy) && Plausible(s, hash, desired, strategy, run)
    requires var t := Passes(s, hash, desired, strategy, run); InProgress(t, hash, desired) && FullCount(t)
    ensures var t := Passes(s, hash, desired, strategy, run);
            && j < |run| && run[j].end.AdvanceFailed? && run[j].ready == t.updated
            && Passes(s, hash, desired, strategy, run[..j]).updated == t.updated
            && forall i | j <= i < |run| :: !run[i].end.Finished?
    decreases |run|
  {
    hide Scaled, Step, Begun;
    var n := |run| - 1;
    var before, p := Passes(s, hash, desired, strategy, run[..n]), run[n];
    RolloutCompletes(s, hash, desired, strategy, run[..n]);
    if p.end.Finished? {
      if Complete(before, hash, desired) {
        CompleteStays(before, hash, desired, strategy, p);
      } else {
        NoFullCountAfter(before, hash, desired, strategy, p);
      }
    } else {
      if Complete(before, hash, desired) {
        CompleteStays(before, hash, desired, strategy, p);
      } else {
        FailedPass(before, hash, desired, strategy, p);
      }
      if FullCount(before) {
        j := FullCountOrigin(s, hash, desired, strategy, run[..n]);
        assert run[..n][..j] == run[..j];
        assert forall i | 0 <= i < n :: run[..n][i] == run[i];
      } else {
        j := n;
      }
    }
  }

  lemma NoFullCountAfter(s: Status, hash: string, desired: nat, strategy: Strategy, p: Seen)
    requires NotBegun(s, hash) || InProgress(s, hash, desired)
    requires p.end.Finished? && Rolls(desired, strategy) && p.ready <= Begun(s, hash, desired).updated
    ensures var t := Step(s, hash, desired, strategy, p); InProgress(t, hash, desired) ==> !FullCount(t)
  {
    if NotBegun(s, hash) {
      FirstPass(s, hash, desired, strategy, p.ready);
    } else {
      PassAdvances(s, hash, desired, strategy, p.ready);
    }
  }

  /** Over every run: a pass moves past replicas already updated only if all of them were counted ready, in that pass,
      or in a failed one with no finished pass in between; the latter exactly if the record held a full count. */
  lemma AdvanceNeedsFullCount(s: Status, hash: string, desired: nat, strategy: Strategy, run: seq<Seen>, n: nat)
    returns (j: nat)
    requires NotBegun(s, hash) && Rolls(desired, strategy)
    requires n < |run| && Plausible(s, hash, desired, strategy, run[..n + 1])
    requires var before := Passes(s, hash, desired, strategy, run[..n]);
             && InProgress(before, hash, desired) && before.updated > 0
             && Step(before, hash, desired, strategy, run[n]).updated > before.updated
    ensures var before := Passes(s, hash, desired, strategy, run[..n]);
            && j <= n && run[j].ready == before.updated
            && Passes(s, hash, desired, strategy, run[..j]).updated == before.updated
            && (forall i | j <= i < n :: !run[i].end.Finished?)
            && (j < n <==> FullCount(before))
  {
    var before := Passes(s, hash, desired, strategy, run[..n]);
    assert run[..n + 1][..n] == run[..n];
    if FullCount(before) {
      j := FullCountOrigin(s, hash, desired, strategy, run[..n]);
      assert run[..n][..j] == run[..j];
      assert forall i | 0 <= i < n :: run[..n][i] == run[i];
    } else {
      j := n;
      OnePass(before, hash, desired, strategy, run[n]);
      PassAdvances(before, hash, desired, strategy, run[n].ready);
    }
  }

  /** Over every run of error-free passes the record never holds a full count, so every pass looks at readiness. */
  lemma RolloutInvariant(s: Status, hash: string, desired: nat, strategy: Strategy, run: seq<Seen>)
    requires NotBegun(s, hash) && Rolls(desired, strategy) && Plausible(s, hash, desired, strategy, run)
    requires run != [] && forall i | 0 <= i < |run| :: run[i].end.Finished?
    ensures var t := Passes(s, hash, desired, strategy, run);
            (InProgress(t, hash, desired) && !FullCount(t)) || Complete(t, hash, desired)
  {
    var n := |run| - 1;
    var before := Passes(s, hash, desired, strategy, run[..n]);
    RolloutCompletes(s, hash, desired, strategy, run[..n]);
    if Complete(before, hash, desired) {
      CompleteStays(before, hash, desired, strategy, run[n]);
    } else {
      OnePass(before, hash, desired, strategy, run[n]);
      NoFullCountAfter(before, hash, desired, strategy, run[n]);
    }
  }

  /** A run in which this happens: one batch is done, the next pass counts its pod ready and then fails, and the third
      pass updates the next replica whatever `ready` would be found now. */
  lemma StaleCountAdvances(ready: nat)
    requires ready <= 1
    ensures var s, strategy := Status(3, 3, 3, "old", "old"), Strategy(true, Absolute(1));
            var run := [Seen(Finished, 0), Seen(AdvanceFailed, 1), Seen(Finished, ready)];
            && Plausible(s, "new", 3, strategy, run)
            && FullCount(Passes(s, "new", 3, strategy, run[..2]))
            && Passes(s, "new", 3, strategy, run[..2]).updated == 1
            && Passes(s, "new", 3, strategy, run).updated == 2
  {
    var s, strategy := Status(3, 3, 3, "old", "old"), Strategy(true, Absolute(1));
    var run := [Seen(Finished, 0), Seen(AdvanceFailed, 1), Seen(Finished, ready)];
    assert run[..2][..1] == run[..1] && run[..1][..0] == [];
    assert Passes(s, "new", 3, strategy, run[..1]) == Status(3, 1, 0, "new", "old");
    assert Passes(s, "new", 3, strategy, run[..2]) == Status(3, 1, 1, "new", "old");
    assert Plausible(s, "new", 3, strategy, run[..1]);
    assert Plausible(s, "new", 3, strategy, run[..2]);
  }

  /** Over every run the hash recorded as current is the old one until the batches cover the desired replicas, and then
      the new one: a rollback in between is recognised as such. */
  lemma {:induction false} CurrentOverRun(s: Status, hash: string, desired: nat, strategy: Strategy, run: seq<Seen>)
    requires NotBegun(s, hash) && Rolls(desired, strategy) && Plausible(s, hash, desired, strategy, run)
    ensures var t, moves := Passes(s, hash, desired, strategy, run), Moves(s, hash, desired, strategy, run);
            var done := Batches(moves, Scaled(strategy.maxUnavailable, desired));
            t.currentHash == if done >= desired then hash else s.currentHash
    decreases |run|
  {
    hide Scaled, Step, Batches, GoesOn, Begun;
    RolloutCompletes(s, hash, desired, strategy, run);
    if run != [] {
      var n := |run| - 1;
      var before := Passes(s, hash, desired, strategy, run[..n]);
      CurrentOverRun(s, hash, desired, strategy, run[..n]);
      CurrentStep(before, hash, desired, strategy, run[n]);
    }
  }

  lemma CurrentStep(s: Status, hash: string, desired: nat, strategy: Strategy, p: Seen)
    ensures var t := Step(s, hash, desired, strategy, p); t.currentHash == s.currentHash || t.currentHash == hash
  {
    hide Scaled;
    HashRecorded(s, hash, desired, strategy, p.ready);
  }

  /** With nothing allowed to be unavailable an update in progress never moves, over every run. */
  lemma {:induction false} StallsForGood(s: Status, hash: string, desired: nat, strategy: Strategy, run: seq<Seen>)
    requires InProgress(s, hash, desired) && desired < U32 && strategy.rolling
    requires Scaled(strategy.maxUnavailable, desired) == 0 && Plausible(s, hash, desired, strategy, run)
    ensures var t := Passes(s, hash, desired, strategy, run);
            InProgress(t, hash, desired) && t.updated == s.updated && t.currentHash == s.currentHash
    decreases |run|
  {
    if run != [] {
      hide Scaled, NextStatus, Counted, Rehashed;
      var n := |run| - 1;
      var before := Passes(s, hash, desired, strategy, run[..n]);
      StallsForGood(s, hash, desired, strategy, run[..n]);
      if run[n].end.Finished? {
        BegunSame(before, hash, desired);
        ZeroStalls(before, hash, desired, strategy, run[n].ready);
      } else {
        FailedPass(before, hash, desired, strategy, run[n]);
        FailedPassRecords(before, hash, desired, strategy, run[n]);
      }
    }
  }

  lemma BegunSame(s: Status, hash: string, desired: nat)
    requires InProgress(s, hash, desired)
    ensures Begun(s, hash, desired).updated == s.updated
  {}
}
