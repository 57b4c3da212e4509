/**
 What `maxUnavailable` is for: over every run of rollout passes, however many fail and wherever, at most that many
 replicas are without a ready pod on the controller's account.

 Between passes anything may happen to the pods. Replicas hit by that are counted apart.
 */
module Availability {
  import opened PodRollout
  import opened RolloutStatus

  /** Replica `q` has a live pod that is ready. */
  ghost predicate Serves(pods: Pods, q: int) {
    exists n | n in pods :: n in LiveAt(pods, q) && Ready(pods[n])
  }

  ghost function Unserved(pods: Pods, desired: nat): set<int> { set q | 0 <= q < desired && !Serves(pods, q) }

  /** Its one live pod carries the hash and is ready. */
  ghost predicate SoleReady(pods: Pods, q: int, hash: string) {
    exists n | n in pods :: LiveAt(pods, q) == {n} && pods[n].hash == hash && Ready(pods[n])
  }

  /** From here on the pass leaves the pods alone. */
  function FirstUntouched(b: Status, desired: nat, strategy: Strategy, p: Seen): int {
    if !Advances(b, p) then b.updated else if RegularScaling(b) then desired else RollTo(b, desired, strategy)
  }

  /** What a pass over replicas that began with status `b` does to the pods. */
  ghost predicate PassDid(before: Pods, after: Pods, b: Status, hash: string, desired: nat, strategy: Strategy,
                          p: Seen) {
    && p.ready <= b.updated && (p.end.AdvanceFailed? ==> GoesOn(b, p.ready))
    && Kept(before, after, b.updated, hash)
    && Untouched(before, after, FirstUntouched(b, desired, strategy, p), desired)
    && (Advances(b, p) ==> SoleIn(after, 0, b.updated, hash) && (Recounts(b) ==> AllReady(after, b.updated)))
  }

  /** One pass of the controller, with the pods before and after it. */
  datatype Turn = Turn(before: Pods, seen: Seen, after: Pods)

  method TakeTurn(r: Rollout, desired: nat, hash: string, strategy: Strategy) returns (turn: Turn)
    requires WellNamed(r.base, r.pods) && desired < 0x8000_0000 && Scaled(strategy.maxUnavailable, desired) >= 0
    modifies r, r.cluster
    ensures turn.before == old(r.pods) && turn.after == r.pods && WellNamed(r.base, r.pods)
    ensures r.status == Step(old(r.status), hash, desired, strategy, turn.seen)
    ensures PassDid(turn.before, turn.after, Begun(old(r.status), hash, desired), hash, desired, strategy, turn.seen)
  {
    hide Kept, Untouched, SoleIn, AllReady, Scaled, WellNamed;
    ghost var b := Begun(r.status, hash, desired);
    var before := r.pods;
    var end, ready := r.OrchestratePods(desired, hash, strategy);
    turn := Turn(before, Seen(end, ready), r.pods);
    NoneThere(before, r.pods, desired);
  }

  lemma NoneThere(before: Pods, after: Pods, desired: nat)
    ensures Untouched(before, after, desired, desired)
  {}

  // ----- the invariant -----

  /** Only the `size` replicas from `lo` on may lack a ready pod, apart from those in `hit`; the ones below `lo` have
      been updated and are ready, and the recorded count is not past the range. */
  ghost predicate Safe(s: Status, pods: Pods, hash: string, desired: nat, size: nat, lo: nat, hit: set<int>) {
    && (forall q | 0 <= q < lo && q !in hit :: SoleReady(pods, q, hash))
    && (forall q | lo + size <= q < desired && q !in hit :: Serves(pods, q))
    && Placed(s, hash, desired, size, lo)
  }

  ghost predicate Placed(s: Status, hash: string, desired: nat, size: nat, lo: nat) {
    || (NotBegun(s, hash) && lo == 0)
    || (InProgress(s, hash, desired) && lo <= s.updated <= lo + size && (FullCount(s) ==> lo == s.updated))
    || (Complete(s, hash, desired) && lo <= s.updated <= lo + size)
  }

  lemma ReadyServes(pods: Pods, q: int, hash: string)
    requires SoleReady(pods, q, hash)
    ensures Serves(pods, q) && Sole(pods, q, hash)
  {
    var n :| n in pods && LiveAt(pods, q) == {n} && pods[n].hash == hash && Ready(pods[n]);
    assert n in LiveAt(pods, q);
  }

  lemma ReadyKept(before: Pods, after: Pods, updated: nat, hash: string, q: int)
    requires Kept(before, after, updated, hash) && 0 <= q < updated && SoleReady(before, q, hash)
    ensures SoleReady(after, q, hash)
  {
    ReadyServes(before, q, hash);
    assert SamePods(before, after, q);
    var n :| n in before && LiveAt(before, q) == {n} && before[n].hash == hash && Ready(before[n]);
    assert n in LiveAt(before, q);
  }

  lemma ServesOn(before: Pods, after: Pods, lo: int, hi: int, q: int)
    requires Untouched(before, after, lo, hi) && lo <= q < hi && Serves(before, q)
    ensures Serves(after, q)
  {
    var n :| n in before && n in LiveAt(before, q) && Ready(before[n]);
    assert InRange(before[n], lo, hi);
    assert n in LiveAt(after, q);
  }

  lemma CountedReady(pods: Pods, updated: nat, hash: string, q: int)
    requires SoleIn(pods, 0, updated, hash) && AllReady(pods, updated) && 0 <= q < updated
    ensures SoleReady(pods, q, hash)
  {
    assert Sole(pods, q, hash);
    var n :| n in pods && LiveAt(pods, q) == {n} && pods[n].hash == hash;
    assert n in LiveAt(pods, q);
  }

  /** Where the range stands after a pass. */
  function Moved(b: Status, p: Seen, lo: nat): nat {
    if Advances(b, p) && !RegularScaling(b) then b.updated else lo
  }

  lemma PassPlaces(s: Status, hash: string, desired: nat, strategy: Strategy, p: Seen, lo: nat)
    requires Rolls(desired, strategy) && p.ready <= Begun(s, hash, desired).updated
    requires Placed(s, hash, desired, Scaled(strategy.maxUnavailable, desired), lo)
    requires p.end.AdvanceFailed? ==> GoesOn(Begun(s, hash, desired), p.ready)
    ensures var b, size := Begun(s, hash, desired), Scaled(strategy.maxUnavailable, desired);
            && Placed(Step(s, hash, desired, strategy, p), hash, desired, size, Moved(b, p, lo))
            && lo <= b.updated <= lo + size && (FullCount(b) && !RegularScaling(b) ==> lo == b.updated)
            && (RegularScaling(b) ==> b.updated == desired)
  {
    if Complete(s, hash, desired) {
      CompleteStays(s, hash, desired, strategy, p);
    } else if !p.end.Finished? {
      FailedPass(s, hash, desired, strategy, p);
    } else if NotBegun(s, hash) {
      FirstPass(s, hash, desired, strategy, p.ready);
    } else {
      PassAdvances(s, hash, desired, strategy, p.ready);
    }
  }

  lemma NotFull(b: Status)
    ensures b.updated > 0 && !FullCount(b) ==> Recounts(b)
  {}

  lemma PassSafe(s: Status, before: Pods, after: Pods, hash: string, desired: nat, strategy: Strategy, p: Seen, lo: nat,
                 hit: set<int>)
    requires Rolls(desired, strategy)
    requires Safe(s, before, hash, desired, Scaled(strategy.maxUnavailable, desired), lo, hit)
    requires PassDid(before, after, Begun(s, hash, desired), hash, desired, strategy, p)
    ensures Safe(Step(s, hash, desired, strategy, p), after, hash, desired, Scaled(strategy.maxUnavailable, desired),
                 Moved(Begun(s, hash, desired), p, lo), hit)
  {
    hide Scaled, Step, Begun, Kept, Untouched, SoleIn, AllReady, Serves, SoleReady, Placed, Recounts, RegularScaling,
         GoesOn, Advances;
    var b, size := Begun(s, hash, desired), Scaled(strategy.maxUnavailable, desired);
    PassPlaces(s, hash, desired, strategy, p, lo);
    var lo' := Moved(b, p, lo);
    forall q | 0 <= q < lo' && q !in hit ensures SoleReady(after, q, hash) {
      if q < lo {
        ReadyKept(before, after, b.updated, hash, q);
      } else {
        NotFull(b);
        CountedReady(after, b.updated, hash, q);
      }
    }
    forall q | lo' + size <= q < desired && q !in hit ensures Serves(after, q) {
      ServesOn(before, after, FirstUntouched(b, desired, strategy, p), desired, q);
    }
  }

  // ----- between passes -----

  /** From `a` to `b` replica `q` lost no ready pod and got no other one. */
  ghost predicate Calm(a: Pods, b: Pods, q: int) {
    && LiveAt(b, q) <= LiveAt(a, q)
    && forall n | n in LiveAt(a, q) && Ready(a[n]) :: n in b && b[n] == a[n]
  }

  ghost function Disturbed(a: Pods, b: Pods, desired: nat): set<int> { set q | 0 <= q < desired && !Calm(a, b, q) }

  lemma CalmReady(a: Pods, b: Pods, q: int, hash: string)
    requires Calm(a, b, q)
    ensures SoleReady(a, q, hash) ==> SoleReady(b, q, hash)
    ensures Serves(a, q) ==> Serves(b, q)
  {
    if SoleReady(a, q, hash) {
      var n :| n in a && LiveAt(a, q) == {n} && a[n].hash == hash && Ready(a[n]);
      assert n in LiveAt(a, q) && n in LiveAt(b, q);
    }
    if Serves(a, q) {
      var n :| n in a && n in LiveAt(a, q) && Ready(a[n]);
      assert n in LiveAt(b, q);
    }
  }

  lemma PauseSafe(s: Status, a: Pods, b: Pods, hash: string, desired: nat, size: nat, lo: nat, hit: set<int>)
    requires Safe(s, a, hash, desired, size, lo, hit) && lo <= desired
    ensures Safe(s, b, hash, desired, size, lo, hit + Disturbed(a, b, desired))
  {
    hide Serves, SoleReady, Placed;
    forall q | 0 <= q < desired && q !in hit + Disturbed(a, b, desired)
      ensures SoleReady(a, q, hash) ==> SoleReady(b, q, hash)
      ensures Serves(a, q) ==> Serves(b, q)
    {
      CalmReady(a, b, q, hash);
    }
  }

  // ----- every run -----

  ghost function StatusAfter(s: Status, hash: string, desired: nat, strategy: Strategy, run: seq<Turn>): Status {
    if run == [] then s
    else Step(StatusAfter(s, hash, desired, strategy, run[..|run| - 1]), hash, desired, strategy, run[|run| - 1].seen)
  }

  /** Successive passes over fixed settings; between them the pods change as they like. */
  ghost predicate Happens(s: Status, hash: string, desired: nat, strategy: Strategy, run: seq<Turn>) {
    forall j | 0 <= j < |run| ::
      PassDid(run[j].before, run[j].after, Begun(StatusAfter(s, hash, desired, strategy, run[..j]), hash, desired),
              hash, desired, strategy, run[j].seen)
  }

  /** The replicas that had no ready pod to begin with or were hit between two passes. */
  ghost function Hit(run: seq<Turn>, desired: nat): set<int>
    requires run != []
  {
    var n := |run| - 1;
    if n == 0 then Unserved(run[0].before, desired)
    else Hit(run[..n], desired) + Disturbed(run[n - 1].after, run[n].before, desired)
  }

  lemma {:induction false} RunSafe(s: Status, hash: string, desired: nat, strategy: Strategy, run: seq<Turn>)
    returns (lo: nat, lo': nat)
    requires NotBegun(s, hash) && Rolls(desired, strategy) && run != [] && Happens(s, hash, desired, strategy, run)
    ensures var n, size := |run| - 1, Scaled(strategy.maxUnavailable, desired);
            && Safe(StatusAfter(s, hash, desired, strategy, run[..n]), run[n].before, hash, desired, size, lo,
                    Hit(run, desired))
            && Safe(StatusAfter(s, hash, desired, strategy, run), run[n].after, hash, desired, size, lo',
                    Hit(run, desired))
  {
    hide Safe, PassDid, Step, Begun, Scaled, Moved, NotBegun;
    var n, size := |run| - 1, Scaled(strategy.maxUnavailable, desired);
    var before := StatusAfter(s, hash, desired, strategy, run[..n]);
    assert forall j | 0 <= j < n :: run[..n][j] == run[j] && run[..n][..j] == run[..j];
    if n == 0 {
      lo := 0;
      StartSafe(s, run[0].before, hash, desired, size);
    } else {
      var l, l' := RunSafe(s, hash, desired, strategy, run[..n]);
      lo := l';
      SafeWithin(before, run[n - 1].after, hash, desired, size, lo, Hit(run[..n], desired));
      PauseSafe(before, run[n - 1].after, run[n].before, hash, desired, size, lo, Hit(run[..n], desired));
    }
    PassSafe(before, run[n].before, run[n].after, hash, desired, strategy, run[n].seen, lo, Hit(run, desired));
    lo' := Moved(Begun(before, hash, desired), run[n].seen, lo);
  }

  lemma StartSafe(s: Status, pods: Pods, hash: string, desired: nat, size: nat)
    requires NotBegun(s, hash)
    ensures Safe(s, pods, hash, desired, size, 0, Unserved(pods, desired))
  {}

  lemma SafeWithin(s: Status, pods: Pods, hash: string, desired: nat, size: nat, lo: nat, hit: set<int>)
    requires Safe(s, pods, hash, desired, size, lo, hit)
    ensures lo <= desired
  {}

  lemma {:induction false} FewBetween(qs: set<int>, lo: int, size: nat)
    requires forall q | q in qs :: lo <= q < lo + size
    ensures |qs| <= size
  {
    if q :| q in qs {
      var last := lo + size - 1;
      FewBetween(qs - {last}, lo, size - 1);
      assert qs - {last} == if last in qs then qs - {last} else qs;
    } else {
      assert forall q :: q !in qs;
      assert qs == {};
    }
  }

  lemma SafeMeans(s: Status, pods: Pods, hash: string, desired: nat, size: nat, lo: nat, hit: set<int>)
    requires Safe(s, pods, hash, desired, size, lo, hit)
    ensures |Unserved(pods, desired) - hit| <= size
  {
    hide Serves, SoleReady, Placed;
    forall q | q in Unserved(pods, desired) - hit ensures lo <= q < lo + size {
      if q < lo {
        ReadyServes(pods, q, hash);
      }
    }
    FewBetween(Unserved(pods, desired) - hit, lo, size);
  }

  /** Over every run of a rolling update, slow pods and failed passes included: before and after each pass, at most
      `maxUnavailable` replicas are without a ready pod, apart from those that had none to begin with or were hit
      between passes. A failed pass may stop anywhere, so this holds during passes as well. */
  lemma MaxUnavailable(s: Status, hash: string, desired: nat, strategy: Strategy, run: seq<Turn>)
    requires NotBegun(s, hash) && Rolls(desired, strategy) && run != [] && Happens(s, hash, desired, strategy, run)
    ensures var turn, size := run[|run| - 1], Scaled(strategy.maxUnavailable, desired);
            && |Unserved(turn.before, desired) - Hit(run, desired)| <= size
            && |Unserved(turn.after, desired) - Hit(run, desired)| <= size
  {
    hide Safe, PassDid, Step, Begun, Scaled, Unserved, NotBegun, Happens;
    var lo, lo' := RunSafe(s, hash, desired, strategy, run);
    var n, size := |run| - 1, Scaled(strategy.maxUnavailable, desired);
    SafeMeans(StatusAfter(s, hash, desired, strategy, run[..n]), run[n].before, hash, desired, size, lo,
              Hit(run, desired));
    SafeMeans(StatusAfter(s, hash, desired, strategy, run), run[n].after, hash, desired, size, lo', Hit(run, desired));
  }

  /** The controller itself, pass after pass, the pods being what `outside` says before each. */
  method Roll(r: Rollout, desired: nat, hash: string, strategy: Strategy, outside: seq<Pods>) returns (run: seq<Turn>)
    requires NotBegun(r.status, hash) && Rolls(desired, strategy) && desired < 0x8000_0000
    requires forall k | 0 <= k < |outside| :: WellNamed(r.base, outside[k])
    modifies r, r.cluster
    ensures r.status == StatusAfter(old(r.status), hash, desired, strategy, run)
    ensures |run| == |outside| && forall k | 0 <= k < |run| :: run[k].before == outside[k]
    ensures outside != [] ==>
              && r.pods == run[|run| - 1].after
              && |Unserved(r.pods, desired) - Hit(run, desired)| <= Scaled(strategy.maxUnavailable, desired)
  {
    hide PassDid, Step, Begun, NotBegun, WellNamed, Unserved, Hit, Scaled;
    ghost var s := r.status;
    run := [];
    for i := 0 to |outside|
      invariant |run| == i && Happens(s, hash, desired, strategy, run)
      invariant r.status == StatusAfter(s, hash, desired, strategy, run)
      invariant forall k | 0 <= k < i :: run[k].before == outside[k]
      invariant i > 0 ==> r.pods == run[i - 1].after
    {
      r.pods := outside[i];
      var turn := TakeTurn(r, desired, hash, strategy);
      Longer(s, hash, desired, strategy, run, turn);
      run := run + [turn];
    }
    if outside != [] {
      MaxUnavailable(s, hash, desired, strategy, run);
    }
  }

  lemma Longer(s: Status, hash: string, desired: nat, strategy: Strategy, run: seq<Turn>, turn: Turn)
    requires Happens(s, hash, desired, strategy, run)
    requires PassDid(turn.before, turn.after, Begun(StatusAfter(s, hash, desired, strategy, run), hash, desired), hash,
                     desired, strategy, turn.seen)
    ensures Happens(s, hash, desired, strategy, run + [turn])
    ensures StatusAfter(s, hash, desired, strategy, run + [turn]) ==
            Step(StatusAfter(s, hash, desired, strategy, run), hash, desired, strategy, turn.seen)
  {
    hide PassDid, Step, Begun;
    assert (run + [turn])[..|run|] == run;
    assert forall j | 0 <= j < |run| :: (run + [turn])[..j] == run[..j];
  }
}
