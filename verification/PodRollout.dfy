/**
 The pods of a vertex and the controller's rollout of them.

 The cluster is a store of named pods; deleting a pod makes it terminating. Which calls fail is up to the
 cluster, listing order and random name suffixes are arbitrary, so the contracts hold for every one of these. A name
 that is taken is one of the reasons a create call fails. `base` is the vertex name (for a mono vertex, its name
 followed by `-mv`).
 */
module PodRollout {
  import opened Wrappers
  import opened Decimal
  import opened RolloutStatus
  import opened Sets
  import opened Clusters

  const MAX_INT := 0x7FFF_FFFF_FFFF_FFFF

  datatype PodPhase = Pending | Running | Succeeded | Failed | Unknown

  datatype Pod = Pod(replica: int, hash: string, phase: PodPhase, deleting: bool, containersReady: bool)

  type Pods = map<string, Pod>

  predicate Live(p: Pod) { !p.deleting && !p.phase.Failed? && !p.phase.Succeeded? }

  predicate Ready(p: Pod) { p.phase.Running? && p.containersReady }

  predicate InRange(p: Pod, from: int, to: int) { Live(p) && from <= p.replica < to }

  // ----- names -----

  function Prefix(base: string, r: nat): string { base + "-" + Itoa(r) + "-" }

  /** The name agrees with the replica annotation. */
  predicate NamedFor(base: string, name: string, p: Pod) {
    0 <= p.replica < MAX_INT && Prefix(base, p.replica) <= name
  }

  ghost predicate WellNamed(base: string, pods: Pods) {
    forall n | n in pods && Live(pods[n]) :: NamedFor(base, n, pods[n])
  }

  /** A name tells the vertex and the replica: after the vertex's name and a dash stand the digits of the replica, and
      after these a dash. */
  lemma NameReads(base: string, r: nat, suffix: string)
    ensures var name, k := Prefix(base, r) + suffix, |base| + |Itoa(r)| + 1;
            && k < |name| && name[..|base|] == base && name[|base|] == '-' && name[k] == '-' && name[k + 1..] == suffix
            && Value(name[|base| + 1..k]) == r && forall i | |base| < i < k :: IsDigit(name[i])
  {
    var name, k := Prefix(base, r) + suffix, |base| + |Itoa(r)| + 1;
    ItoaDigits(r);
    ValueOfItoa(r);
    assert name[|base| + 1..k] == Itoa(r);
  }

  /** A name's prefix identifies its replica. */
  lemma PrefixIdentifies(base: string, q: nat, r: nat, name: string)
    requires Prefix(base, r) <= name
    ensures Prefix(base, q) <= name <==> q == r
  {
    var head := base + "-";
    var tail := name[|Prefix(base, r)|..];
    NumeralPrefix(q, r, '-', tail);
    assert name == head + (Itoa(r) + ['-'] + tail);
    assert Prefix(base, q) == head + (Itoa(q) + ['-']);
    var x, y := Itoa(q) + ['-'], Itoa(r) + ['-'] + tail;
    if head + x <= head + y {
      assert x == (head + x)[|head|..];
      assert forall i | 0 <= i < |x| :: x[i] == (head + x)[|head| + i] == (head + y)[|head| + i] == y[i];
    }
  }

  /** Some name with the prefix is not taken. */
  lemma {:induction false} FreshName(prefix: string, taken: set<string>) returns (suffix: string)
    ensures prefix + suffix !in taken
    decreases taken
  {
    if n :| n in taken && prefix <= n {
      suffix := FreshName(n + "a", taken - {n});
      suffix := n[|prefix|..] + "a" + suffix;
      assert prefix + suffix == n + "a" + suffix[|n| - |prefix| + 1..];
    } else {
      suffix := "";
    }
  }

  // ----- what a range of replicas looks like -----

  function LiveAt(pods: Pods, r: int): set<string> {
    set n | n in pods && Live(pods[n]) && pods[n].replica == r
  }

  /** Replica `r` has exactly one live pod, and it carries `hash`. */
  ghost predicate Sole(pods: Pods, r: int, hash: string) {
    exists n | n in pods :: LiveAt(pods, r) == {n} && pods[n].hash == hash
  }

  /** Said of the pods themselves: of those of replica `r` that are neither being deleted nor failed nor succeeded there
      is exactly one, and it carries `hash`. */
  lemma SoleMeans(pods: Pods, r: int, hash: string)
    ensures Sole(pods, r, hash) <==>
            exists n | n in pods ::
              && pods[n].replica == r && pods[n].hash == hash
              && !pods[n].deleting && !pods[n].phase.Failed? && !pods[n].phase.Succeeded?
              && forall m | m in pods && pods[m].replica == r && m != n ::
                   pods[m].deleting || pods[m].phase.Failed? || pods[m].phase.Succeeded?
  {
    if Sole(pods, r, hash) {
      var n :| n in pods && LiveAt(pods, r) == {n} && pods[n].hash == hash;
      assert n in LiveAt(pods, r);
      forall m | m in pods && pods[m].replica == r && m != n ensures !Live(pods[m]) { assert m !in LiveAt(pods, r); }
    }
    if n :| n in pods && pods[n].replica == r && pods[n].hash == hash && Live(pods[n])
            && forall m | m in pods && pods[m].replica == r && m != n :: !Live(pods[m]) {
      assert LiveAt(pods, r) == {n};
    }
  }

  /** Replica `r` has live pods, and all of them carry `hash`. */
  ghost predicate AllCarry(pods: Pods, r: int, hash: string) {
    LiveAt(pods, r) != {} && forall n | n in LiveAt(pods, r) :: pods[n].hash == hash
  }

  /** Of every replica in the range whose live pods were all good, the one left is one of them. */
  ghost predicate GoodKept(before: Pods, after: Pods, from: int, to: int, hash: string) {
    forall q | from <= q < to && AllCarry(before, q, hash) :: LiveAt(after, q) <= LiveAt(before, q)
  }

  /** In particular a replica's one good pod stays. */
  lemma SoleStays(before: Pods, after: Pods, from: int, to: int, hash: string, q: int)
    requires GoodKept(before, after, from, to, hash) && SoleIn(after, from, to, hash)
    requires from <= q < to && Sole(before, q, hash)
    ensures LiveAt(after, q) == LiveAt(before, q)
  {
    var n :| n in before && LiveAt(before, q) == {n} && before[n].hash == hash;
    assert Sole(after, q, hash);
  }

  ghost predicate SoleIn(pods: Pods, from: int, to: int, hash: string) {
    forall q | from <= q < to :: Sole(pods, q, hash)
  }

  /** No live pod at or above the count. */
  ghost predicate AllBelow(pods: Pods, count: int) {
    forall n | n in pods && Live(pods[n]) :: pods[n].replica < count
  }

  function Existing(pods: Pods, from: int, to: int): Pods {
    map n | n in pods && InRange(pods[n], from, to) :: pods[n]
  }

  function Deleted(pods: Pods, names: set<string>): Pods {
    map n | n in pods :: if n in names then pods[n].(deleting := true) else pods[n]
  }

  lemma DeletedLive(pods: Pods, names: set<string>, r: int)
    ensures LiveAt(Deleted(pods, names), r) == LiveAt(pods, r) - names
  {}

  /** Nothing outside the range was changed, and nothing was added outside it. */
  ghost predicate OnlyWithin(before: Pods, after: Pods, from: int, to: int) {
    && (forall n | n in before && !InRange(before[n], from, to) :: n in after && after[n] == before[n])
    && (forall n | n in after && n !in before :: InRange(after[n], from, to) || after[n].deleting)
    && (forall n | n in before && n in after && after[n] != before[n] :: !Live(after[n]))
    && (forall n | n in before :: n in after)
  }

  /** All that is ever done to pods: pending ones are created, and pods are deleted. */
  ghost predicate Managed(before: Pods, after: Pods) {
    && (forall n | n in before :: n in after && (after[n] == before[n] || after[n] == before[n].(deleting := true)))
    && (forall n | n in after && n !in before :: after[n].phase.Pending? && !after[n].containersReady)
  }

  lemma ManagedThrough(before: Pods, mid: Pods, after: Pods)
    requires Managed(before, mid) && Managed(mid, after)
    ensures Managed(before, after)
  {}

  /** Every replica of the range that had exactly one live pod, with the hash, still has exactly that pod. */
  ghost predicate SoleKept(before: Pods, after: Pods, from: int, to: int, hash: string) {
    forall q | from <= q < to && Sole(before, q, hash) :: SamePods(before, after, q)
  }

  ghost predicate SamePods(before: Pods, after: Pods, q: int) {
    LiveAt(after, q) == LiveAt(before, q) && forall n | n in LiveAt(before, q) :: n in after && after[n] == before[n]
  }

  lemma SoleKeptThrough(before: Pods, mid: Pods, after: Pods, from: int, to: int, hash: string)
    requires SoleKept(before, mid, from, to, hash) && SoleKept(mid, after, from, to, hash)
    ensures SoleKept(before, after, from, to, hash)
  {
    forall q | from <= q < to && Sole(before, q, hash) ensures SamePods(before, after, q) {
      assert SamePods(before, mid, q);
      var n :| n in before && LiveAt(before, q) == {n} && before[n].hash == hash;
      assert LiveAt(mid, q) == {n} && mid[n].hash == hash;
      assert Sole(mid, q, hash);
      assert SamePods(mid, after, q);
    }
  }

  /** Pods were only created and deleted, and no updated replica lost its one pod with the hash. */
  ghost predicate Kept(before: Pods, after: Pods, updated: nat, hash: string) {
    Managed(before, after) && SoleKept(before, after, 0, updated, hash)
  }

  lemma KeptThrough(before: Pods, mid: Pods, after: Pods, updated: nat, hash: string)
    requires Kept(before, mid, updated, hash) && Kept(mid, after, updated, hash)
    ensures Kept(before, after, updated, hash)
  {
    ManagedThrough(before, mid, after);
    SoleKeptThrough(before, mid, after, 0, updated, hash);
  }

  lemma NothingLost(pods: Pods, updated: nat, hash: string)
    ensures Kept(pods, pods, updated, hash)
  {}

  /** Work beyond the updated replicas. */
  lemma BeyondKept(before: Pods, after: Pods, from: int, to: int, updated: nat, hash: string)
    requires OnlyWithin(before, after, from, to) && updated <= from && Managed(before, after)
    ensures Kept(before, after, updated, hash)
  {
    ElsewhereKept(before, after, from, to, 0, updated, hash);
  }

  /** Work on one range of replicas leaves the pods of another as they are. */
  lemma ElsewhereKept(before: Pods, after: Pods, from: int, to: int, lo: int, hi: int, hash: string)
    requires OnlyWithin(before, after, from, to) && (to <= lo || hi <= from)
    ensures SoleKept(before, after, lo, hi, hash)
  {
    forall q | lo <= q < hi ensures SamePods(before, after, q) {
      assert forall n | n in LiveAt(after, q) :: n in before && after[n] == before[n];
    }
  }

  /** The live pods of the replicas from `lo` up to `hi` are as they were. */
  ghost predicate Untouched(before: Pods, after: Pods, lo: int, hi: int) {
    forall n | n in before && InRange(before[n], lo, hi) :: n in after && after[n] == before[n]
  }

  /** Work on one range of replicas leaves another alone. */
  lemma ElsewhereUntouched(before: Pods, mid: Pods, after: Pods, from: int, to: int, lo: int, hi: int)
    requires OnlyWithin(mid, after, from, to) && (to <= lo || hi <= from) && Untouched(before, mid, lo, hi)
    ensures Untouched(before, after, lo, hi)
  {}

  /** Unless the pass just scales, the pods of the replicas beyond its batch are as they were. */
  ghost predicate BeyondBatch(before: Pods, after: Pods, b: Status, desired: nat, strategy: Strategy) {
    !RegularScaling(b) && Scaled(strategy.maxUnavailable, desired) >= 0 ==>
      Untouched(before, after, RollTo(b, desired, strategy), desired)
  }

  /** The pass got to the replicas beyond the updated ones. */
  predicate Advances(b: Status, p: Seen) { (p.end.AdvanceFailed? || p.end.Finished?) && GoesOn(b, p.ready) }

  /** Nothing at or above the updated count was touched, let alone beyond the batch. */
  lemma BatchNotBegun(before: Pods, after: Pods, b: Status, desired: nat, strategy: Strategy)
    requires Untouched(before, after, b.updated, desired) && b.updated <= desired
    ensures BeyondBatch(before, after, b, desired, strategy)
  {
    hide Scaled;
  }

  lemma BatchDone(before: Pods, mid: Pods, after: Pods, b: Status, desired: nat, strategy: Strategy, ready: nat)
    requires Untouched(before, mid, b.updated, desired) && b.updated <= desired
    requires BeyondBatch(mid, after, Counted(b, ready), desired, strategy)
    ensures BeyondBatch(before, after, b, desired, strategy)
  {
    hide Scaled;
  }

  lemma UntouchedThrough(before: Pods, mid: Pods, after: Pods, lo: int, hi: int)
    requires Untouched(before, mid, lo, hi) && Untouched(mid, after, lo, hi)
    ensures Untouched(before, after, lo, hi)
  {}

  /** The replicas below `r` have been dealt with: each has one survivor, `chosen`, among the pods not due for
      deletion; the others have none yet. */
  ghost predicate Progress(base: string, before: Pods, pods: Pods, existing: Pods, from: int, r: int, to: int,
                           hash: string, chosen: map<int, string>) {
    && WellNamed(base, pods)
    && (forall n | n in before :: n in pods && pods[n] == before[n])
    && (forall n | n in pods && n !in before ::
          InRange(pods[n], from, r) && pods[n].phase.Pending? && !pods[n].containersReady)
    && (forall n | n in existing :: n in before && InRange(before[n], from, to) && existing[n] == before[n])
    && (forall q | from <= q < r :: Chosen(before, pods, existing, q, hash, chosen))
    && (forall q | r <= q < to :: LiveAt(pods, q) <= existing.Keys)
  }

  ghost predicate Chosen(before: Pods, pods: Pods, existing: Pods, q: int, hash: string, chosen: map<int, string>) {
    && q in chosen && chosen[q] in pods && pods[chosen[q]].hash == hash
    && LiveAt(pods, q) - existing.Keys == {chosen[q]}
    && (AllCarry(before, q, hash) ==> chosen[q] in before)
  }

  lemma StartProgress(base: string, pods: Pods, from: int, to: int, hash: string)
    requires WellNamed(base, pods)
    ensures Progress(base, pods, pods, Existing(pods, from, to), from, from, to, hash, map[])
  {}

  /** A good pod of replica `r` is set aside and so survives. */
  lemma KeepStep(base: string, before: Pods, pods: Pods, existing: Pods, from: int, r: int, to: int, hash: string,
                 chosen: map<int, string>, k: string)
    requires Progress(base, before, pods, existing, from, r, to, hash, chosen) && 0 <= from <= r < to
    requires k in existing && Prefix(base, r) <= k && existing[k].hash == hash
    ensures Progress(base, before, pods, existing - {k}, from, r + 1, to, hash, chosen[r := k])
  {
    assert NamedFor(base, k, pods[k]);
    PrefixIdentifies(base, r, pods[k].replica, k);
    var e', chosen' := existing - {k}, chosen[r := k];
    forall q | from <= q < r + 1 ensures Chosen(before, pods, e', q, hash, chosen') {
      if q < r {
        assert Chosen(before, pods, existing, q, hash, chosen);
        assert k !in LiveAt(pods, q);
        assert LiveAt(pods, q) - e'.Keys == LiveAt(pods, q) - existing.Keys;
      } else {
        assert LiveAt(pods, r) - e'.Keys == {k};
      }
    }
    forall q | r + 1 <= q < to ensures LiveAt(pods, q) <= e'.Keys {
      assert k !in LiveAt(pods, q);
    }
  }

  lemma AddedLive(pods: Pods, name: string, p: Pod)
    requires name !in pods && Live(p)
    ensures LiveAt(pods[name := p], p.replica) == LiveAt(pods, p.replica) + {name}
    ensures forall q | q != p.replica :: LiveAt(pods[name := p], q) == LiveAt(pods, q)
  {}

  /** No pod of replica `r` is set aside; a new one is created for it. */
  lemma CreateStep(base: string, before: Pods, pods: Pods, existing: Pods, from: int, r: int, to: int, hash: string,
                   chosen: map<int, string>, name: string)
    requires Progress(base, before, pods, existing, from, r, to, hash, chosen) && 0 <= from <= r < to < MAX_INT
    requires Prefix(base, r) <= name && name !in pods
    requires !AllCarry(before, r, hash)
    ensures Progress(base, before, pods[name := Pod(r, hash, Pending, false, false)], existing, from, r + 1, to, hash,
                     chosen[r := name])
  {
    hide LiveAt;
    var p := Pod(r, hash, Pending, false, false);
    var pods' := pods[name := p];
    assert name !in before && name !in existing;
    AddedLive(pods, name, p);
    var chosen' := chosen[r := name];
    forall q | from <= q < r + 1 ensures Chosen(before, pods', existing, q, hash, chosen') {
      if q < r {
        assert Chosen(before, pods, existing, q, hash, chosen);
      } else {
        assert LiveAt(pods, r) <= existing.Keys;
        assert LiveAt(pods', r) - existing.Keys == {name};
      }
    }
    forall q | r + 1 <= q < to ensures LiveAt(pods', q) <= existing.Keys {
      assert LiveAt(pods', q) == LiveAt(pods, q);
    }
  }

  /** The inner search: the first pod found with the replica's prefix decides. */
  method MatchPod(existing: Pods, prefix: string, hash: string) returns (keep: Option<string>)
    ensures keep.Some? ==> keep.value in existing && prefix <= keep.value && existing[keep.value].hash == hash
    ensures keep.None? ==>
              || (forall n | n in existing :: !(prefix <= n))
              || (exists n | n in existing :: prefix <= n && (existing[n].hash != hash || existing[n].phase.Failed?))
  {
    var todo := existing.Keys;
    while todo != {}
      invariant todo <= existing.Keys
      invariant forall n | n in existing && n !in todo :: !(prefix <= n)
    {
      var n :| n in todo;
      todo := todo - {n};
      if prefix <= n {
        if existing[n].hash == hash && !existing[n].phase.Failed? {
          return Some(n);
        }
        return None;
      }
    }
    keep := None;
  }

  /** If the replica's live pods are all good, one of them is found. */
  lemma NotAllGood(base: string, before: Pods, pods: Pods, existing: Pods, from: int, r: int, to: int, hash: string,
                   chosen: map<int, string>)
    requires Progress(base, before, pods, existing, from, r, to, hash, chosen) && 0 <= from <= r < to
    requires || (forall n | n in existing :: !(Prefix(base, r) <= n))
             || (exists n | n in existing ::
                   Prefix(base, r) <= n && (existing[n].hash != hash || existing[n].phase.Failed?))
    ensures !AllCarry(before, r, hash)
  {
    if AllCarry(before, r, hash) {
      var k :| k in LiveAt(before, r);
      assert k in LiveAt(pods, r);
      assert NamedFor(base, k, pods[k]);
      forall n | n in existing && Prefix(base, r) <= n ensures n in LiveAt(before, r) {
        assert NamedFor(base, n, pods[n]);
        PrefixIdentifies(base, r, pods[n].replica, n);
      }
    }
  }

  /** Once everything set for deletion is deleted, each replica of the range has its one pod. */
  lemma FinishProgress(base: string, before: Pods, pods: Pods, existing: Pods, from: int, to: int, hash: string,
                       chosen: map<int, string>)
    requires Progress(base, before, pods, existing, from, to, to, hash, chosen)
    ensures var after := Deleted(pods, existing.Keys);
            SoleIn(after, from, to, hash) && GoodKept(before, after, from, to, hash)
  {
    var after := Deleted(pods, existing.Keys);
    forall q | from <= q < to
      ensures Sole(after, q, hash)
      ensures AllCarry(before, q, hash) ==> LiveAt(after, q) <= LiveAt(before, q)
    {
      assert Chosen(before, pods, existing, q, hash, chosen);
      DeletedLive(pods, existing.Keys, q);
      var k := chosen[q];
      assert k in LiveAt(after, q) && after[k].hash == hash;
      assert LiveAt(after, q) == {k};
    }
  }

  lemma ProgressWithin(base: string, before: Pods, pods: Pods, existing: Pods, from: int, r: int, to: int, hash: string,
                       chosen: map<int, string>, gone: set<string>)
    requires Progress(base, before, pods, existing, from, r, to, hash, chosen) && from <= r && (r <= to || r == from)
    requires gone <= existing.Keys
    ensures OnlyWithin(before, Deleted(pods, gone), from, to) && WellNamed(base, Deleted(pods, gone))
    ensures Managed(before, Deleted(pods, gone))
  {}

  /** What is deleted, if anything, is not a replica's one good pod. */
  lemma ProgressKeeps(base: string, before: Pods, pods: Pods, existing: Pods, from: int, r: int, to: int, hash: string,
                      chosen: map<int, string>, gone: set<string>)
    requires Progress(base, before, pods, existing, from, r, to, hash, chosen) && from <= r
    requires gone == {} || (gone <= existing.Keys && r >= to)
    ensures SoleKept(before, Deleted(pods, gone), from, to, hash)
  {
    hide WellNamed, InRange;
    forall q | from <= q < to && Sole(before, q, hash) ensures SamePods(before, Deleted(pods, gone), q) {
      var n :| n in before && LiveAt(before, q) == {n} && before[n].hash == hash;
      assert n in LiveAt(before, q);
      SoleProgress(base, before, pods, existing, from, r, to, hash, chosen, q, n);
      DeletedLive(pods, gone, q);
    }
  }

  lemma SoleProgress(base: string, before: Pods, pods: Pods, existing: Pods, from: int, r: int, to: int, hash: string,
                     chosen: map<int, string>, q: int, n: string)
    requires Progress(base, before, pods, existing, from, r, to, hash, chosen) && from <= q < to
    requires n in before && LiveAt(before, q) == {n} && before[n].hash == hash
    ensures LiveAt(pods, q) == {n} && (q < r ==> n !in existing)
  {
    assert n in LiveAt(before, q) && n in LiveAt(pods, q);
    if q < r {
      assert AllCarry(before, q, hash);
      assert Chosen(before, pods, existing, q, hash, chosen);
      assert chosen[q] in LiveAt(pods, q);
      assert chosen[q] in LiveAt(before, q);
    }
    forall m | m in LiveAt(pods, q) ensures m == n {
      if m !in existing.Keys {
        assert q < r && m in LiveAt(pods, q) - existing.Keys;
      }
      assert m in LiveAt(before, q);
    }
  }

  lemma NoneDeleted(pods: Pods)
    ensures Deleted(pods, {}) == pods
  {}

  lemma DeleteOne(pods: Pods, gone: set<string>, n: string)
    requires n in pods
    ensures n in Deleted(pods, gone)
    ensures n !in gone ==>
              Deleted(pods, gone + {n}) == Deleted(pods, gone)[n := Deleted(pods, gone)[n].(deleting := true)]
    ensures Deleted(pods, gone + {n}).Keys == pods.Keys
  {}

  lemma EachWithin(ok: bool, calls: int, done: set<string>, need: set<string>)
    requires EachCalled(calls, ok, done, need)
    ensures done <= need && (ok ==> done == need)
  {}

  /** Deleting live pods at or above a count. */
  lemma CleanedUp(base: string, pods: Pods, from: nat, gone: set<string>)
    requires WellNamed(base, pods) && gone <= Existing(pods, from, MAX_INT).Keys
    ensures Existing(pods, from, MAX_INT).Keys <= pods.Keys
    ensures var after := Deleted(pods, gone);
            && WellNamed(base, after) && OnlyWithin(pods, after, from, MAX_INT) && Managed(pods, after)
            && DeletedNames(pods, after) == gone
            && (gone == Existing(pods, from, MAX_INT).Keys ==> AllBelow(after, from))
  {
    StartProgress(base, pods, from, MAX_INT, "");
    ProgressWithin(base, pods, pods, Existing(pods, from, MAX_INT), from, from, MAX_INT, "", map[], gone);
  }

  lemma NothingDone(base: string, pods: Pods, from: int, to: int, hash: string)
    requires WellNamed(base, pods)
    ensures OnlyWithin(pods, pods, from, to) && Managed(pods, pods) && SoleKept(pods, pods, from, to, hash)
  {}

  lemma DeletedSome(base: string, before: Pods, pods: Pods, existing: Pods, from: int, r: int, to: int, hash: string,
                    chosen: map<int, string>, gone: set<string>)
    requires Progress(base, before, pods, existing, from, r, to, hash, chosen) && from <= r && (r <= to || r == from)
    requires gone <= existing.Keys
    ensures var after := Deleted(pods, gone);
            && OnlyWithin(before, after, from, to) && WellNamed(base, after) && Managed(before, after)
            && (r >= to ==> SoleKept(before, after, from, to, hash))
  {
    ProgressWithin(base, before, pods, existing, from, r, to, hash, chosen, gone);
    if r >= to {
      ProgressKeeps(base, before, pods, existing, from, r, to, hash, chosen, gone);
    }
  }

  /** What was done so far stays within the range. */
  lemma PartWithin(base: string, before: Pods, pods: Pods, existing: Pods, from: int, r: int, to: int, hash: string,
                   chosen: map<int, string>)
    requires Progress(base, before, pods, existing, from, r, to, hash, chosen) && from <= r && (r <= to || r == from)
    ensures OnlyWithin(before, pods, from, to) && WellNamed(base, pods)
    ensures Managed(before, pods) && SoleKept(before, pods, from, to, hash)
  {
    ProgressWithin(base, before, pods, existing, from, r, to, hash, chosen, {});
    ProgressKeeps(base, before, pods, existing, from, r, to, hash, chosen, {});
    assert Deleted(pods, {}) == pods;
  }

  lemma FinishAll(base: string, before: Pods, pods: Pods, existing: Pods, from: int, r: int, to: int, hash: string,
                  chosen: map<int, string>)
    requires Progress(base, before, pods, existing, from, r, to, hash, chosen)
    requires from <= r && (r == to || (r == from && to < from))
    ensures existing.Keys <= pods.Keys
    ensures var after := Deleted(pods, existing.Keys);
            SoleIn(after, from, to, hash) && GoodKept(before, after, from, to, hash)
  {
    if from <= to {
      FinishProgress(base, before, pods, existing, from, to, hash, chosen);
    }
  }

  // ----- the calls made for a range of replicas -----

  function CreatedNames(before: Pods, after: Pods): set<string> { set n | n in after && n !in before }

  function DeletedNames(before: Pods, after: Pods): set<string> {
    set n | n in before && n in after && after[n] != before[n]
  }

  /** Replica `q` has a live pod with the hash. */
  ghost predicate HasPod(pods: Pods, q: int, hash: string) {
    exists n | n in pods :: n in LiveAt(pods, q) && pods[n].hash == hash
  }

  /** The work on a range stopped at replica `r`: all replicas before it have a pod with the hash, none was created
      beyond, and nothing was deleted unless `r` is the end of the range. */
  ghost predicate StoppedAt(before: Pods, after: Pods, from: int, r: int, to: int, hash: string, calls: int) {
    && (forall q | from <= q < r :: HasPod(after, q, hash))
    && (forall n | n in CreatedNames(before, after) :: after[n].replica < r)
    && (if r < to
        then DeletedNames(before, after) == {} && r - from + 2 <= calls - |CreatedNames(before, after)| <= r - from + 3
        else calls == to - from + 2 + |CreatedNames(before, after)| + |DeletedNames(before, after)|)
  }

  /** One call to list the pods, one to build each replica's specification, one for each pod created, and then one for
      each pod deleted, up to the first that fails. */
  ghost predicate RangeCalls(before: Pods, after: Pods, from: int, to: int, hash: string, ok: bool, calls: int) {
    if ok
    then calls == 1 + (if from < to then to - from else 0)
                  + |CreatedNames(before, after)| + |DeletedNames(before, after)|
    else (calls == 1 && after == before) ||
         exists r | from <= r <= to :: StoppedAt(before, after, from, r, to, hash, calls)
  }

  /** The calls made once the replicas below `r` have been dealt with. */
  ghost predicate LoopCalls(before: Pods, pods: Pods, from: int, r: int, calls: int) {
    calls == 1 + r - from + |CreatedNames(before, pods)|
  }

  lemma ListCalled(pods: Pods, from: int, to: int, hash: string)
    ensures RangeCalls(pods, pods, from, to, hash, false, 1) && LoopCalls(pods, pods, from, from, 1)
  {
    assert CreatedNames(pods, pods) == {};
  }

  lemma ReplicaCalled(before: Pods, pods: Pods, from: int, r: int, calls: int, name: string, p: Pod)
    requires LoopCalls(before, pods, from, r, calls)
    ensures LoopCalls(before, pods, from, r + 1, calls + 1)
    ensures name !in pods && (forall n | n in before :: n in pods) ==>
              LoopCalls(before, pods[name := p], from, r + 1, calls + 2)
  {
    if name !in pods && forall n | n in before :: n in pods {
      assert CreatedNames(before, pods[name := p]) == CreatedNames(before, pods) + {name};
    }
  }

  lemma ProgressHasPods(base: string, before: Pods, pods: Pods, existing: Pods, from: int, r: int, to: int,
                        hash: string, chosen: map<int, string>, gone: set<string>)
    requires Progress(base, before, pods, existing, from, r, to, hash, chosen) && gone <= existing.Keys
    ensures forall n | n in before :: n in pods
    ensures forall q | from <= q < r :: HasPod(Deleted(pods, gone), q, hash)
    ensures forall n | n in CreatedNames(before, Deleted(pods, gone)) :: Deleted(pods, gone)[n].replica < r
    ensures CreatedNames(before, Deleted(pods, gone)) == CreatedNames(before, pods)
    ensures DeletedNames(before, Deleted(pods, gone)) == gone
  {
    forall q | from <= q < r ensures HasPod(Deleted(pods, gone), q, hash) {
      assert Chosen(before, pods, existing, q, hash, chosen);
      assert chosen[q] in LiveAt(pods, q) - existing.Keys;
      DeletedLive(pods, gone, q);
      assert chosen[q] in LiveAt(Deleted(pods, gone), q) && Deleted(pods, gone)[chosen[q]].hash == hash;
    }
  }

  /** A replica's specification cannot be built, or its pod not be created. */
  lemma ReplicaFails(base: string, before: Pods, pods: Pods, existing: Pods, from: int, r: int, to: int, hash: string,
                     chosen: map<int, string>, calls: int)
    requires Progress(base, before, pods, existing, from, r, to, hash, chosen) && from <= r < to
    requires LoopCalls(before, pods, from, r, calls)
    ensures RangeCalls(before, pods, from, to, hash, false, calls + 1)
    ensures RangeCalls(before, pods, from, to, hash, false, calls + 2)
  {
    hide Progress, HasPod, CreatedNames, DeletedNames;
    ProgressHasPods(base, before, pods, existing, from, r, to, hash, chosen, {});
    assert Deleted(pods, {}) == pods;
    assert StoppedAt(before, pods, from, r, to, hash, calls + 1);
    assert StoppedAt(before, pods, from, r, to, hash, calls + 2);
  }

  lemma DeletionCalls(base: string, before: Pods, pods: Pods, existing: Pods, from: int, r: int, to: int, hash: string,
                      chosen: map<int, string>, calls: int, ok: bool, more: int, gone: set<string>)
    requires Progress(base, before, pods, existing, from, r, to, hash, chosen)
    requires from <= r && (r == to || (r == from && to < from))
    requires LoopCalls(before, pods, from, r, calls) && EachCalled(more, ok, gone, existing.Keys)
    ensures RangeCalls(before, Deleted(pods, gone), from, to, hash, ok, calls + more)
  {
    ProgressHasPods(base, before, pods, existing, from, r, to, hash, chosen, gone);
    if !ok {
      var n :| n in existing && n !in gone;
      assert InRange(before[n], from, to);
      hide Progress, HasPod, CreatedNames, DeletedNames;
      assert StoppedAt(before, Deleted(pods, gone), from, r, to, hash, calls + more);
    }
  }

  class Rollout {
    const base: string
    var pods: Pods
    var status: Status
    const cluster: Cluster

    constructor (base: string, pods: Pods, status: Status, cluster: Cluster)
      ensures this.base == base && this.pods == pods && this.status == status && this.cluster == cluster
    {
      this.cluster := cluster;
      this.base, this.pods, this.status := base, pods, status;
    }

    /** `orchestratePodsFromTo`: leaves exactly one live pod, with the given hash, for every replica of the
        range, keeps one of the pods of a replica that only had good ones, and touches nothing outside, whatever the
        listing order and however many stale or duplicate pods there were. It stops at the first call that fails: the
        replicas before that one have their pod, nothing is deleted until all of them have, and no replica's one good
        pod is lost. */
    method OrchestratePodsFromTo(from: int, to: int, hash: string) returns (ok: bool)
      requires WellNamed(base, pods) && 0 <= from && to < MAX_INT
      modifies this`pods, cluster
      ensures cluster.Ended(old(cluster.calls), cluster.calls, ok)
      ensures RangeCalls(old(pods), pods, from, to, hash, ok, cluster.calls - old(cluster.calls))
      ensures WellNamed(base, pods) && OnlyWithin(old(pods), pods, from, to)
      ensures Managed(old(pods), pods) && SoleKept(old(pods), pods, from, to, hash)
      ensures ok ==> SoleIn(pods, from, to, hash) && GoodKept(old(pods), pods, from, to, hash)
    {
      hide Progress, OnlyWithin, WellNamed, SoleIn, GoodKept, Prefix, Deleted, Existing, Managed, SoleKept, RangeCalls,
           LoopCalls, EachCalled, Cluster.Ended;
      ghost var before, first := pods, cluster.calls;
      NothingDone(base, pods, from, to, hash);
      ListCalled(pods, from, to, hash);
      ok := cluster.Call();
      if !ok {
        return;
      }
      var existing := Existing(pods, from, to);
      ghost var chosen: map<int, string> := map[];
      StartProgress(base, pods, from, to, hash);
      var r := from;
      while r < to
        invariant from <= r && (r <= to || r == from) && first < cluster.calls
        invariant Progress(base, before, pods, existing, from, r, to, hash, chosen)
        invariant LoopCalls(before, pods, from, r, cluster.calls - first) && cluster.Ended(first, cluster.calls, true)
      {
        PartWithin(base, before, pods, existing, from, r, to, hash, chosen);
        ReplicaFails(base, before, pods, existing, from, r, to, hash, chosen, cluster.calls - first);
        ghost var answered := cluster.calls;
        ok := cluster.Call();
        EndedTwice(cluster, first, answered, cluster.calls, ok);
        if !ok {
          return;
        }
        var keep := MatchPod(existing, Prefix(base, r), hash);
        if keep.Some? {
          KeepStep(base, before, pods, existing, from, r, to, hash, chosen, keep.value);
          ReplicaCalled(before, pods, from, r, answered - first, keep.value, existing[keep.value]);
          existing := existing - {keep.value};
          chosen := chosen[r := keep.value];
        } else {
          NotAllGood(base, before, pods, existing, from, r, to, hash, chosen);
          ghost var built := cluster.calls;
          ok := cluster.Call();
          EndedTwice(cluster, first, built, cluster.calls, ok);
          if !ok {
            return;
          }
          ghost var some := FreshName(Prefix(base, r), pods.Keys);
          var suffix :| Prefix(base, r) + suffix !in pods;
          var name := Prefix(base, r) + suffix;
          CreateStep(base, before, pods, existing, from, r, to, hash, chosen, name);
          ReplicaCalled(before, pods, from, r, answered - first, name, Pod(r, hash, Pending, false, false));
          pods := pods[name := Pod(r, hash, Pending, false, false)];
          chosen := chosen[r := name];
        }
        r := r + 1;
      }
      FinishAll(base, before, pods, existing, from, r, to, hash, chosen);
      ghost var full, answered := pods, cluster.calls;
      var gone;
      ok, gone := DeletePods(existing.Keys);
      EndedTwice(cluster, first, answered, cluster.calls, ok);
      EachWithin(ok, cluster.calls - answered, gone, existing.Keys);
      DeletedSome(base, before, full, existing, from, r, to, hash, chosen, gone);
      DeletionCalls(base, before, full, existing, from, r, to, hash, chosen, answered - first, ok,
                    cluster.calls - answered, gone);
    }

    /** Deletes the given pods in some order, up to the first call that fails; `gone` were deleted. */
    method DeletePods(names: set<string>) returns (ok: bool, gone: set<string>)
      requires names <= pods.Keys
      modifies this`pods, cluster
      ensures cluster.Ended(old(cluster.calls), cluster.calls, ok)
      ensures EachCalled(cluster.calls - old(cluster.calls), ok, gone, names)
      ensures pods == Deleted(old(pods), gone)
    {
      hide Deleted, Through, EachCalled, Cluster.Ended;
      ghost var start, first := pods, cluster.calls;
      gone := {};
      var todo := names;
      NoneDeleted(start);
      NoCalls(cluster, first);
      ThroughStart(names);
      while todo != {}
        invariant todo <= names && Through(names, todo, gone, cluster.calls - first)
        invariant pods == Deleted(start, gone) && pods.Keys == start.Keys && cluster.Ended(first, cluster.calls, true)
        decreases todo
      {
        var n :| n in todo;
        ThroughStep(names, todo, gone, cluster.calls - first, n);
        ghost var answered := cluster.calls;
        ok := cluster.Call();
        EndedTwice(cluster, first, answered, cluster.calls, ok);
        if !ok {
          return;
        }
        DeleteOne(start, gone, n);
        pods := pods[n := pods[n].(deleting := true)];
        gone, todo := gone + {n}, todo - {n};
      }
      ThroughEnd(names, gone, cluster.calls - first);
      ok := true;
    }

    /** `cleanUpPodsFromTo` up to the largest integer: no live pod is left at or above `from`. */
    method CleanUpPodsFrom(from: nat) returns (ok: bool)
      requires WellNamed(base, pods)
      modifies this`pods, cluster
      ensures cluster.Ended(old(cluster.calls), cluster.calls, ok)
      ensures var gone, calls := DeletedNames(old(pods), pods), cluster.calls - old(cluster.calls);
              && pods == Deleted(old(pods), gone)
              && ((!ok && calls == 1 && gone == {}) ||
                  EachCalled(calls - 1, ok, gone, Existing(old(pods), from, MAX_INT).Keys))
      ensures WellNamed(base, pods) && OnlyWithin(old(pods), pods, from, MAX_INT) && Managed(old(pods), pods)
      ensures ok ==> AllBelow(pods, from)
    {
      hide Deleted, EachCalled, Cluster.Ended, Managed, OnlyWithin, WellNamed, AllBelow, Existing, DeletedNames;
      ghost var before, first := pods, cluster.calls;
      var existing := Existing(pods, from, MAX_INT);
      CleanedUp(base, before, from, {});
      NoneDeleted(before);
      ok := cluster.Call();
      if !ok {
        return;
      }
      ghost var answered := cluster.calls;
      var gone;
      ok, gone := DeletePods(existing.Keys);
      EndedTwice(cluster, first, answered, cluster.calls, ok);
      EachWithin(ok, cluster.calls - answered, gone, existing.Keys);
      CleanedUp(base, before, from, gone);
    }

    /** The ready pods of the first `to` replicas that carry the hash, as counted one by one. */
    method CountReady(to: nat, hash: string) returns (count: nat)
      ensures count == |ReadyNames(pods, to, hash)|
    {
      hide InRange, Ready;
      var todo := Existing(pods, 0, to).Keys;
      count := 0;
      ghost var seen: set<string> := {};
      while todo != {}
        invariant todo <= pods.Keys && |seen| == count
        invariant forall n | n in todo :: InRange(pods[n], 0, to)
        invariant seen == ReadyNames(pods, to, hash) - todo
        decreases todo
      {
        var n :| n in todo;
        todo := todo - {n};
        if pods[n].hash == hash && Ready(pods[n]) {
          count := count + 1;
          seen := seen + {n};
        }
      }
      assert ReadyNames(pods, to, hash) - {} == ReadyNames(pods, to, hash);
    }

    /**
     `orchestratePods`, one pass, from whatever pods and status. The status moves as `Step` says, wherever the pass
     ends. Without an error no live pod is left at or above the desired count, and, unless a negative
     `maxUnavailable` makes the counter wrap, the recorded `updated` is within the desired count and every replica
     below it has exactly one live pod, with the new hash. If the pass counted ready pods and went on, each replica
     updated before has exactly one live pod, and the count is full exactly if all of these are ready. However a pass
     of a rolling update ends, it leaves the pods of all replicas beyond its batch alone.
     */
    method OrchestratePods(desired: nat, hash: string, strategy: Strategy) returns (end: PassEnd, ready: nat)
      requires WellNamed(base, pods) && desired < 0x8000_0000
      modifies this`pods, this`status, cluster
      ensures cluster.Ended(old(cluster.calls), cluster.calls, end.Finished?)
      ensures WellNamed(base, pods)
      ensures status == Step(old(status), hash, desired, strategy, Seen(end, ready))
      ensures ready <= Begun(old(status), hash, desired).updated
      ensures end.Finished? || end.AdvanceFailed? ==>
                var b := Begun(old(status), hash, desired);
                && SoleIn(pods, 0, b.updated, hash)
                && (Recounts(b) ==> (ready == b.updated <==> AllReady(pods, b.updated)))
      ensures BeyondBatch(old(pods), pods, Begun(old(status), hash, desired), desired, strategy)
      ensures var b := Begun(old(status), hash, desired);
              && Kept(old(pods), pods, b.updated, hash)
              && (end.AdvanceFailed? ==> GoesOn(b, ready))
              && (!Advances(b, Seen(end, ready)) ==> Untouched(old(pods), pods, b.updated, desired))
      ensures end.Finished? ==> AllBelow(pods, desired)
      ensures end.Finished? && !Underflows(old(status), hash, desired, strategy, ready) ==>
                status.updated <= desired && SoleIn(pods, 0, status.updated, hash)
    {
      hide SoleIn, AllBelow, OnlyWithin, WellNamed, ReadyNames, Scaled, Advance, AllReady, Untouched, BeyondBatch,
           Cluster.Ended, Kept;
      ghost var start, b, first := pods, Begun(status, hash, desired), cluster.calls;
      var stop := BeginPass(desired, hash);
      BatchNotBegun(start, pods, b, desired, strategy);
      if stop.Some? {
        return stop.value, 0;
      }
      ghost var cleaned, second := pods, cluster.calls;
      var ok, wait;
      ok, wait, ready := EnsureUpdated(desired);
      EndedTwice(cluster, first, second, cluster.calls, ok);
      UntouchedThrough(start, cleaned, pods, b.updated, desired);
      KeptThrough(start, cleaned, pods, b.updated, hash);
      BatchNotBegun(start, pods, b, desired, strategy);
      if !ok {
        return PodsFailed, 0;
      }
      if wait {
        return Finished, ready;
      }
      ghost var counted, ensured, third := status, pods, cluster.calls;
      ok := AdvanceRollout(desired, strategy);
      EndedTwice(cluster, first, third, cluster.calls, ok);
      BatchDone(start, ensured, pods, b, desired, strategy, ready);
      KeptThrough(start, ensured, pods, b.updated, hash);
      FullCountMeansAllReady(pods, b.updated, hash);
      end := if ok then Finished else AdvanceFailed;
      if ok && !Underflows(old(status), hash, desired, strategy, ready) {
        AdvanceEnds(pods, counted, desired, strategy);
      }
    }

    /** The start of a pass: notices a changed specification and cleans up what is beyond the desired replicas. */
    method BeginPass(desired: nat, hash: string) returns (stop: Option<PassEnd>)
      requires WellNamed(base, pods) && desired < 0x8000_0000
      modifies this`pods, this`status, cluster
      ensures cluster.Ended(old(cluster.calls), cluster.calls, stop.None?)
      ensures WellNamed(base, pods) && Untouched(old(pods), pods, Begun(old(status), hash, desired).updated, desired)
      ensures Kept(old(pods), pods, Begun(old(status), hash, desired).updated, hash)
      ensures stop.None? ==> status == Begun(old(status), hash, desired) && AllBelow(pods, desired)
      ensures stop.Some? ==>
                || (stop.value.BuildFailed? && status == old(status))
                || (stop.value.CleanUpFailed? && status == Rehashed(old(status), hash))
    {
      hide AllBelow, OnlyWithin, WellNamed, Untouched, Kept, Managed;
      ghost var start, b := pods, Begun(status, hash, desired);
      NothingTouched(pods, b.updated, desired);
      NothingLost(pods, b.updated, hash);
      var ok := cluster.Call();
      if !ok {
        return Some(BuildFailed);
      }
      if status.updateHash != hash {
        status := status.(updateHash := hash, updated := 0, updatedReady := 0);
      }
      ok := CleanUpPodsFrom(desired);
      ElsewhereUntouched(start, start, pods, desired, MAX_INT, b.updated, desired);
      BeyondKept(start, pods, desired, MAX_INT, b.updated, hash);
      if !ok {
        return Some(CleanUpFailed);
      }
      if status.replicas > desired {
        status := status.(replicas := desired);
      }
      if status.updated > desired {
        status := status.(updated := desired);
      }
      stop := None;
    }

    /** The first half of a pass: puts the updated replicas in place and, unless the record says all were ready, counts
        the ready ones; the pass waits if some are not. */
    method EnsureUpdated(desired: nat) returns (ok: bool, wait: bool, ready: nat)
      requires WellNamed(base, pods) && desired < 0x8000_0000 && status.updated <= desired && AllBelow(pods, desired)
      modifies this`pods, this`status, cluster
      ensures cluster.Ended(old(cluster.calls), cluster.calls, ok)
      ensures WellNamed(base, pods) && ready <= status.updated
      ensures Untouched(old(pods), pods, status.updated, desired)
      ensures Kept(old(pods), pods, status.updated, status.updateHash)
      ensures !ok ==> status == old(status)
      ensures ok ==> status == Counted(old(status), ready) && (wait <==> !GoesOn(old(status), ready))
      ensures ok ==> AllBelow(pods, desired) && SoleIn(pods, 0, status.updated, status.updateHash)
      ensures ok && Recounts(old(status)) ==>
                && ready == |ReadyNames(pods, status.updated, status.updateHash)|
                && (ready == status.updated <==> AllReady(pods, status.updated))
    {
      hide SoleIn, AllBelow, OnlyWithin, WellNamed, ReadyNames, AllReady, Untouched, Managed, SoleKept;
      ok, wait, ready := true, false, 0;
      NothingLost(pods, status.updated, status.updateHash);
      ghost var first := pods;
      NothingTouched(pods, status.updated, desired);
      EmptyRange(pods, 0, 0, status.updateHash);
      if status.updated > 0 {
        ok := OrchestratePodsFromTo(0, status.updated, status.updateHash);
        ElsewhereUntouched(first, first, pods, 0, status.updated, status.updated, desired);
        if !ok { return; }
        WithinBelow(first, pods, 0, status.updated, desired);
        if status.updatedReady != status.updated {
          ok := cluster.Call();
          if !ok { return; }
          ready := CountReady(status.updated, status.updateHash);
          FullCountMeansAllReady(pods, status.updated, status.updateHash);
          status := status.(updatedReady := ready);
          wait := ready < status.updated;
        }
      }
    }

    /** The second half of a pass: with the updated replicas in place, extend them. */
    method AdvanceRollout(desired: nat, strategy: Strategy) returns (ok: bool)
      requires WellNamed(base, pods) && desired < 0x8000_0000 && status.updated <= desired
      requires AllBelow(pods, desired) && SoleIn(pods, 0, status.updated, status.updateHash)
      modifies this`pods, this`status, cluster
      ensures cluster.Ended(old(cluster.calls), cluster.calls, ok)
      ensures WellNamed(base, pods)
      ensures BeyondBatch(old(pods), pods, old(status), desired, strategy)
      ensures Kept(old(pods), pods, old(status).updated, old(status).updateHash)
      ensures !ok ==> status == old(status)
      ensures ok ==> AllBelow(pods, desired) && status == Advance(old(status), desired, strategy)
      ensures var b := old(status);
              && SoleIn(pods, 0, b.updated, b.updateHash)
              && ReadyNames(pods, b.updated, b.updateHash) == ReadyNames(old(pods), b.updated, b.updateHash)
      ensures ok ==> (var b := old(status);
                && (!RegularScaling(b) && b.updated < desired && strategy.rolling ==>
                      SoleIn(pods, b.updated, RollTo(b, desired, strategy), b.updateHash))
                && (RegularScaling(b) ==> SoleIn(pods, b.updated, desired, b.updateHash)))
    {
      hide SoleIn, AllBelow, OnlyWithin, WellNamed, ReadyNames, Scaled, Untouched, Kept, Managed, SoleKept;
      ok := true;
      ghost var first, end := pods, RollTo(status, desired, strategy);
      NothingLost(pods, status.updated, status.updateHash);
      NothingTouched(pods, end, desired);
      var current, updated, hash := status.replicas, status.updated, status.updateHash;
      if status.updateHash == status.currentHash || status.currentHash == "" {
        EmptyRange(pods, updated, desired, hash);
        if desired > updated {
          ok := OrchestratePodsFromTo(updated, desired, hash);
          LaterRange(first, pods, updated, desired, desired, hash);
          BeyondKept(first, pods, updated, desired, updated, hash);
          if !ok { return; }
        }
        status := status.(updated := desired, currentHash := hash);
      } else {
        if updated >= desired {
          status := status.(updated := desired, currentHash := hash);
          return;
        }
        if !strategy.rolling {
          return;
        }
        var toBeUpdated := Scaled(strategy.maxUnavailable, desired);
        if updated + toBeUpdated > desired {
          toBeUpdated := desired - updated;
        }
        ok := OrchestratePodsFromTo(updated, updated + toBeUpdated, hash);
        LaterRange(first, pods, updated, updated + toBeUpdated, desired, hash);
        BeyondKept(first, pods, updated, updated + toBeUpdated, updated, hash);
        ElsewhereUntouched(first, first, pods, updated, updated + toBeUpdated, end, desired);
        if !ok { return; }
        status := status.(updated := (updated + toBeUpdated) % U32);
        if status.updated == desired {
          status := status.(currentHash := hash);
        }
      }
      if current != desired {
        status := status.(replicas := desired);
      }
    }
  }

  /** The live pods of the first `to` replicas that carry the hash and are ready. */
  function ReadyNames(pods: Pods, to: nat, hash: string): set<string> {
    set n | n in pods && InRange(pods[n], 0, to) && pods[n].hash == hash && Ready(pods[n])
  }

  /** Which pods are counted, said of the pods themselves. */
  lemma ReadyMeans(pods: Pods, to: nat, hash: string, n: string)
    ensures n in ReadyNames(pods, to, hash) <==>
            && n in pods && 0 <= pods[n].replica < to && pods[n].hash == hash
            && !pods[n].deleting && pods[n].phase.Running? && pods[n].containersReady
  {}

  /** Work inside a range below `desired` leaves no live pod at or above it. */
  lemma WithinBelow(before: Pods, after: Pods, from: int, to: int, desired: int)
    requires OnlyWithin(before, after, from, to) && to <= desired && AllBelow(before, desired)
    ensures AllBelow(after, desired)
  {}

  /** The ranges a pass put in place add up to everything below the recorded count. */
  lemma AdvanceEnds(pods: Pods, b: Status, desired: nat, strategy: Strategy)
    requires b.updated <= desired < 0x8000_0000 && SoleIn(pods, 0, b.updated, b.updateHash)
    requires !RegularScaling(b) && b.updated < desired && strategy.rolling ==>
               SoleIn(pods, b.updated, RollTo(b, desired, strategy), b.updateHash)
    requires RegularScaling(b) ==> SoleIn(pods, b.updated, desired, b.updateHash)
    requires !RegularScaling(b) && b.updated < desired && strategy.rolling ==>
               b.updated + Scaled(strategy.maxUnavailable, desired) >= 0
    ensures Advance(b, desired, strategy).updated <= desired
    ensures SoleIn(pods, 0, Advance(b, desired, strategy).updated, b.updateHash)
  {}

  lemma NothingTouched(pods: Pods, lo: int, hi: int)
    ensures Untouched(pods, pods, lo, hi)
  {}

  lemma EmptyRange(pods: Pods, from: int, to: int, hash: string)
    ensures to <= from ==> SoleIn(pods, from, to, hash)
  {}

  /** Work on a later range leaves the earlier replicas' live pods as they were. */
  lemma LaterRange(before: Pods, after: Pods, from: nat, to: int, desired: nat, hash: string)
    requires OnlyWithin(before, after, from, to) && to <= desired && AllBelow(before, desired)
    requires SoleIn(before, 0, from, hash)
    ensures AllBelow(after, desired) && SoleIn(after, 0, from, hash)
    ensures ReadyNames(after, from, hash) == ReadyNames(before, from, hash)
  {
    WithinBelow(before, after, from, to, desired);
    forall q | 0 <= q < from ensures Sole(after, q, hash) {
      assert LiveAt(after, q) == LiveAt(before, q);
      assert Sole(before, q, hash);
      var n :| n in before && LiveAt(before, q) == {n} && before[n].hash == hash;
      assert n in LiveAt(before, q);
    }
  }

  ghost predicate AllReady(pods: Pods, to: nat) {
    forall n | n in pods && InRange(pods[n], 0, to) :: pods[n].phase.Running? && pods[n].containersReady
  }

  /** When each replica has exactly one live pod, a count equal to their number means all are ready. */
  lemma FullCountMeansAllReady(pods: Pods, to: nat, hash: string)
    requires SoleIn(pods, 0, to, hash)
    ensures |ReadyNames(pods, to, hash)| <= to
    ensures |ReadyNames(pods, to, hash)| == to <==> AllReady(pods, to)
  {
    LiveCount(pods, to, hash);
    var all := LiveBelow(pods, to);
    var ready := ReadyNames(pods, to, hash);
    forall n | n in all ensures pods[n].hash == hash {
      assert Sole(pods, pods[n].replica, hash);
      var k :| k in pods && LiveAt(pods, pods[n].replica) == {k} && pods[k].hash == hash;
      assert n in LiveAt(pods, pods[n].replica);
    }
    SubsetSize(ready, all);
    assert forall n | n in pods && InRange(pods[n], 0, to) :: n in all;
    if AllReady(pods, to) {
      assert ready == all;
    }
  }

  function LiveBelow(pods: Pods, to: nat): set<string> {
    set n | n in pods && InRange(pods[n], 0, to)
  }

  lemma {:induction false} LiveCount(pods: Pods, to: nat, hash: string)
    requires SoleIn(pods, 0, to, hash)
    ensures |LiveBelow(pods, to)| == to
  {
    if to == 0 {
      assert LiveBelow(pods, 0) == {};
    } else {
      LiveCount(pods, to - 1, hash);
      assert Sole(pods, to - 1, hash);
      var k :| k in pods && LiveAt(pods, to - 1) == {k} && pods[k].hash == hash;
      assert k in LiveAt(pods, to - 1);
      assert LiveBelow(pods, to) == LiveBelow(pods, to - 1) + {k} by {
        forall n | n in LiveBelow(pods, to) && n !in LiveBelow(pods, to - 1) ensures n == k {
          assert n in LiveAt(pods, to - 1);
        }
      }
    }
  }
}
