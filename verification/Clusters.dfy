/**
 The calls a controller makes and cannot rely on: requests to the cluster, and the building of what it sends there.

 Which calls fail is an input, so what is proved of every cluster holds for every pattern of failures.
 */
module Clusters {

  class Cluster {
    const fails: nat -> bool   // whether the call of that number fails
    var calls: nat             // calls made so far

    constructor (fails: nat -> bool)
      ensures this.fails == fails && calls == 0
    {
      this.fails, calls := fails, 0;
    }

    /** No call from number `from` up to `to` fails. */
    ghost predicate Answers(from: nat, to: nat) {
      forall k | from <= k < to :: !fails(k)
    }

    /** The calls from number `from` up to `to` were made one after the other until one failed: all of them were
        answered if `ok`, and otherwise all but the last. */
    ghost predicate Ended(from: nat, to: nat, ok: bool) {
      if ok then from <= to && Answers(from, to) else from < to && Answers(from, to - 1) && fails(to - 1)
    }

    method Call() returns (ok: bool)
      modifies this
      ensures calls == old(calls) + 1
      ensures ok <==> !fails(old(calls))
      ensures ok <==> Answers(old(calls), calls)
      ensures Ended(old(calls), calls, ok)
    {
      ok, calls := !fails(calls), calls + 1;
    }
  }

  lemma NoCalls(cluster: Cluster, a: nat)
    ensures cluster.Ended(a, a, true)
  {}

  /** Calls in a row. */
  lemma EndedTwice(cluster: Cluster, a: nat, b: nat, c: nat, ok: bool)
    requires cluster.Ended(a, b, true) && cluster.Ended(b, c, ok)
    ensures cluster.Ended(a, c, ok)
  {}

  /** One call for each of the needed names, in some order, up to the first that fails: `done` are those whose call was
      answered. */
  ghost predicate EachCalled(calls: int, ok: bool, done: set<string>, need: set<string>) {
    if ok then done == need && calls == |done| else done < need && calls == |done| + 1
  }

  /** Of `all` names those in `todo` are left; the others are `done`, and as many calls were answered for them. */
  ghost predicate Through(all: set<string>, todo: set<string>, done: set<string>, calls: int) {
    todo <= all && done == all - todo && |done| == calls
  }

  lemma ThroughStart(all: set<string>)
    ensures Through(all, all, {}, 0)
  {}

  /** A call fails with `n` still to be done, or is answered. */
  lemma ThroughStep(all: set<string>, todo: set<string>, done: set<string>, calls: int, n: string)
    requires Through(all, todo, done, calls) && n in todo
    ensures n in all && n !in done && EachCalled(calls + 1, false, done, all)
    ensures Through(all, todo - {n}, done + {n}, calls + 1)
  {}

  lemma ThroughEnd(all: set<string>, done: set<string>, calls: int)
    requires Through(all, {}, done, calls)
    ensures done == all && EachCalled(calls, true, done, all)
  {}
}
