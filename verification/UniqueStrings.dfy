/**
 A list of strings without repetition, with an index from each string to its list element.

 The doubly linked list is the sequence of its elements. Elements are objects, so that the index points into
 the list; two elements with the same string would be different.
 */
module UniqueStrings {
  import opened Wrappers

  class Element {
    const value: string

    constructor (value: string)
      ensures this.value == value
    {
      this.value := value;
    }
  }

  // ----- what the operations mean, on the sequence of strings -----

  predicate Unique<T(==)>(s: seq<T>) { forall i, j | 0 <= i < j < |s| :: s[i] != s[j] }

  /** The position of the first occurrence. */
  function First<T(==)>(s: seq<T>, v: T): (k: nat)
    requires v in s
    ensures k < |s| && s[k] == v && v !in s[..k]
  {
    if s[0] == v then 0 else 1 + First(s[1..], v)
  }

  function Without<T(==)>(s: seq<T>, v: T): seq<T> {
    if v in s then s[..First(s, v)] + s[First(s, v) + 1..] else s
  }

  function Pushed(s: seq<string>, value: string): seq<string> {
    if value in s then s else s + [value]
  }

  /** The elements that are in the given set, in order. */
  function Kept(s: seq<string>, keep: set<string>): seq<string> {
    if s == [] then []
    else
      var last := s[|s| - 1];
      Kept(s[..|s| - 1], keep) + if last in keep then [last] else []
  }

  function PushedAll(s: seq<string>, values: seq<string>): seq<string> {
    if values == [] then s else Pushed(PushedAll(s, values[..|values| - 1]), values[|values| - 1])
  }

  function SetOf(values: seq<string>): set<string> { set v | v in values }

  function Replaced(s: seq<string>, values: seq<string>): seq<string> {
    PushedAll(Kept(s, SetOf(values)), values)
  }

  // ----- their properties -----

  lemma {:induction false} FirstIs<T>(s: seq<T>, v: T, k: nat)
    requires k < |s| && s[k] == v && v !in s[..k]
    ensures First(s, v) == k
  {}

  lemma WithoutAt<T>(s: seq<T>, k: nat)
    requires Unique(s) && k < |s|
    ensures Without(s, s[k]) == s[..k] + s[k + 1..]
  {}

  /** Taking out a string: one that is not there changes nothing; otherwise its first occurrence is gone and all others
      are there, in order. */
  lemma WithoutMeans<T>(s: seq<T>, v: T)
    ensures v !in s ==> Without(s, v) == s
    ensures v in s ==> exists k | 0 <= k < |s| :: s[k] == v && v !in s[..k] && Without(s, v) == s[..k] + s[k + 1..]
    ensures Unique(s) ==> v !in Without(s, v)
  {
    if v in s {
      var k := First(s, v);
      assert s[k] == v && v !in s[..k] && Without(s, v) == s[..k] + s[k + 1..];
      hide First, Without;
      if Unique(s) {
        assert forall j | k < j < |s| :: s[j] != v;
      }
    }
  }

  lemma {:induction false} KeptElements(s: seq<string>, keep: set<string>)
    ensures forall v :: v in Kept(s, keep) <==> v in s && v in keep
    ensures Unique(s) ==> Unique(Kept(s, keep))
  {
    if s != [] {
      var n := |s| - 1;
      KeptElements(s[..n], keep);
      assert s == s[..n] + [s[n]];
    }
  }

  /** The kept elements stand in the old order. */
  lemma {:induction false} KeptInOrder(s: seq<string>, keep: set<string>, i: nat, j: nat)
    requires i < j < |s| && s[i] in keep && s[j] in keep
    ensures exists p, q | 0 <= p < q < |Kept(s, keep)| :: Kept(s, keep)[p] == s[i] && Kept(s, keep)[q] == s[j]
  {
    var n := |s| - 1;
    var t := s[..n];
    if j < n {
      KeptInOrder(t, keep, i, j);
      var p, q :| 0 <= p < q < |Kept(t, keep)| && Kept(t, keep)[p] == s[i] && Kept(t, keep)[q] == s[j];
      assert Kept(s, keep)[p] == s[i] && Kept(s, keep)[q] == s[j];
    } else {
      KeptElements(t, keep);
      assert t[i] == s[i];
      var p :| 0 <= p < |Kept(t, keep)| && Kept(t, keep)[p] == s[i];
      assert Kept(s, keep)[p] == s[i] && Kept(s, keep)[|Kept(t, keep)|] == s[j];
    }
  }

  /** What is appended to `s` to get `r` are the values not in `s`, each once, by first occurrence. */
  ghost predicate Appends(r: seq<string>, s: seq<string>, values: seq<string>) {
    && s <= r
    && (forall v :: v in r <==> v in s || v in values)
    && (forall p | |s| <= p < |r| :: r[p] in values && r[p] !in s)
    && (forall p, q | |s| <= p < q < |r| :: First(values, r[p]) < First(values, r[q]))
  }

  lemma AppendsUnique(r: seq<string>, s: seq<string>, values: seq<string>)
    requires Appends(r, s, values) && Unique(s)
    ensures Unique(r)
  {}

  lemma {:induction false} PushedAllAppends(s: seq<string>, values: seq<string>)
    ensures Appends(PushedAll(s, values), s, values)
  {
    if values != [] {
      hide Appends, Pushed;
      var n := |values| - 1;
      PushedAllAppends(s, values[..n]);
      PushOne(PushedAll(s, values[..n]), s, values[..n], values[n]);
      assert values[..n] + [values[n]] == values;
    }
  }

  lemma FirstLonger(values: seq<string>, v: string, x: string)
    requires x in values
    ensures x in values + [v] && First(values + [v], x) == First(values, x)
  {
    var longer, k := values + [v], First(values, x);
    assert longer[k] == x && longer[..k] == values[..k];
    FirstIs(longer, x, k);
  }

  lemma FirstNew(values: seq<string>, v: string)
    requires v !in values
    ensures First(values + [v], v) == |values|
  {
    assert (values + [v])[..|values|] == values;
    FirstIs(values + [v], v, |values|);
  }

  lemma PushOne(r: seq<string>, s: seq<string>, values: seq<string>, v: string)
    requires Appends(r, s, values)
    ensures Appends(Pushed(r, v), s, values + [v])
  {
    hide First;
    var longer := values + [v];
    forall x | x in values ensures x in longer && First(longer, x) == First(values, x) { FirstLonger(values, v, x); }
    if v !in r {
      FirstNew(values, v);
    }
  }

  /** `Replace` leaves exactly the given values, each once: first the surviving elements in their old order,
      then the new ones in the order of their first occurrence; doing it again changes nothing. */
  lemma ReplaceMeaning(s: seq<string>, values: seq<string>)
    requires Unique(s)
    ensures var r, kept := Replaced(s, values), Kept(s, SetOf(values));
            && Unique(r)
            && (forall v :: v in r <==> v in values)
            && (forall v :: v in kept <==> v in s && v in values)
            && Appends(r, kept, values)
            && Replaced(r, values) == r
  {
    var keep := SetOf(values);
    var kept, r := Kept(s, keep), Replaced(s, values);
    KeptElements(s, keep);
    PushedAllAppends(kept, values);
    AppendsUnique(r, kept, values);
    KeepAll(r, keep);
    PushNone(r, values);
  }

  lemma {:induction false} KeepAll(s: seq<string>, keep: set<string>)
    requires forall v | v in s :: v in keep
    ensures Kept(s, keep) == s
  {
    if s != [] {
      KeepAll(s[..|s| - 1], keep);
    }
  }

  lemma {:induction false} PushNone(s: seq<string>, values: seq<string>)
    requires forall v | v in values :: v in s
    ensures PushedAll(s, values) == s
  {
    if values != [] {
      PushNone(s, values[..|values| - 1]);
    }
  }

  // ----- the list itself -----

  function Values(l: seq<Element>): (s: seq<string>)
    ensures |s| == |l| && forall i | 0 <= i < |l| :: s[i] == l[i].value
  {
    seq(|l|, i requires 0 <= i < |l| => l[i].value)
  }

  /** The index is exact: its keys are the strings of the list, each pointing at its own element. */
  ghost predicate Indexed(l: seq<Element>, m: map<string, Element>) {
    && Unique(l)
    && (forall e | e in l :: e.value in m && m[e.value] == e)
    && (forall v | v in m :: m[v] in l && m[v].value == v)
  }

  lemma IndexedMeans(l: seq<Element>, m: map<string, Element>)
    requires Indexed(l, m)
    ensures Unique(Values(l))
    ensures forall v :: v in m <==> v in Values(l)
  {}

  /** Unlinking one element drops its string from the list and may drop it from the index. */
  lemma Unlinking(l: seq<Element>, m: map<string, Element>, k: nat)
    requires Indexed(l, m) && k < |l|
    ensures var v := l[k].value;
            && Unique(l) && v in m && m[v] == l[k]
            && Without(l, l[k]) == l[..k] + l[k + 1..]
            && Indexed(Without(l, l[k]), m - {v})
            && Values(Without(l, l[k])) == Without(Values(l), v)
  {
    hide Without, Indexed, Unique, First;
    StillIndexed(l, m, k);
    WithoutAt(l, k);
    IndexedMeans(l, m);
    WithoutAt(Values(l), k);
    assert Values(l[..k] + l[k + 1..]) == Values(l)[..k] + Values(l)[k + 1..];
  }

  lemma StillIndexed(l: seq<Element>, m: map<string, Element>, k: nat)
    requires Indexed(l, m) && k < |l|
    ensures Unique(l) && l[k].value in m && m[l[k].value] == l[k]
    ensures Indexed(l[..k] + l[k + 1..], m - {l[k].value})
  {}

  /** Unlinking an element and linking it again at the end leaves the index as it was. */
  lemma Moving(l: seq<Element>, m: map<string, Element>, value: string)
    requires Indexed(l, m) && value in m
    ensures Indexed(Without(l, m[value]) + [m[value]], m)
    ensures value in Values(l) && Values(Without(l, m[value]) + [m[value]]) == Without(Values(l), value) + [value]
  {
    hide Indexed, Without, Unique;
    IndexedMeans(l, m);
    Unlinking(l, m, First(Values(l), value));
    var rest, e := Without(l, m[value]), m[value];
    Linking(rest, m - {value}, e);
    assert (m - {value})[value := e] == m;
    IndexedMeans(rest, m - {value});
  }

  lemma Linking(l: seq<Element>, m: map<string, Element>, e: Element)
    requires Indexed(l, m) && e.value !in m
    ensures Indexed(l + [e], m[e.value := e])
    ensures Values(l + [e]) == Pushed(Values(l), e.value)
  {}

  class UniqueStringList {
    var l: seq<Element>
    var m: map<string, Element>

    ghost predicate Valid()
      reads this
    {
      Indexed(l, m)
    }

    constructor ()
      ensures Valid() && Values(l) == []
    {
      l, m := [], map[];
    }

    method PushBack(value: string)
      requires Valid()
      modifies this
      ensures Valid() && Values(l) == Pushed(old(Values(l)), value)
    {
      hide Indexed;
      IndexedMeans(l, m);
      if value !in m {
        var e := new Element(value);
        Linking(l, m, e);
        l, m := l + [e], m[value := e];
      }
    }

    method MoveToBack(value: string)
      requires Valid()
      modifies this
      ensures Valid()
      ensures Values(l) == if value in old(Values(l)) then Without(old(Values(l)), value) + [value] else old(Values(l))
    {
      hide Indexed, Without, Unique, Values;
      IndexedMeans(l, m);
      if value in m {
        Moving(l, m, value);
        l := Without(l, m[value]) + [m[value]];
      }
    }

    method Remove(value: string)
      requires Valid()
      modifies this
      ensures Valid() && Values(l) == Without(old(Values(l)), value)
    {
      hide Indexed;
      IndexedMeans(l, m);
      if value in m {
        ghost var k := First(Values(l), value);
        Unlinking(l, m, k);
        l, m := Without(l, m[value]), m - {value};
      }
    }

    method Contains(value: string) returns (ok: bool)
      requires Valid()
      ensures ok <==> value in Values(l)
    {
      IndexedMeans(l, m);
      ok := value in m;
    }

    method Replace(values: seq<string>)
      requires Valid()
      modifies this
      ensures Valid() && Values(l) == Replaced(old(Values(l)), values)
    {
      hide Indexed, Kept, Values, Pushed;
      var replacement: set<string> := {};
      for i := 0 to |values|
        invariant replacement == SetOf(values[..i])
      {
        replacement := replacement + {values[i]};
        assert values[..i + 1] == values[..i] + [values[i]];
      }
      assert values[..|values|] == values;
      Prune(replacement);
      ghost var kept := Values(l);
      for i := 0 to |values|
        invariant Valid() && Values(l) == PushedAll(kept, values[..i])
      {
        assert values[..i + 1][..i] == values[..i];
        PushBack(values[i]);
      }
    }

    /** The loop of `Replace` that walks the list and unlinks as it goes, reading each successor from the list as
        it is, before the element is removed. */
    method Prune(replacement: set<string>)
      requires Valid()
      modifies this
      ensures Valid() && Values(l) == Kept(old(Values(l)), replacement)
    {
      hide Indexed, Values, Without, Unique, Kept, Survivors, Next, First;
      ghost var walk, i := l, 0;
      Walked(walk, replacement);
      var e := if l == [] then None else Some(l[0]);
      while e.Some?
        invariant Indexed(l, m) && i <= |walk| && l == Survivors(walk[..i], replacement) + walk[i..]
        invariant e == if i < |walk| then Some(walk[i]) else None
        decreases |walk| - i
      {
        PruneStep(l, m, walk, i, replacement);
        var next := Next(l, e.value);
        var value := e.value.value;
        if value !in replacement {
          l, m := Without(l, e.value), m - {value};
        }
        e, i := next, i + 1;
      }
      SurvivorValues(walk, replacement);
    }
  }

  /** `Element.Next`. */
  function Next(l: seq<Element>, e: Element): Option<Element> {
    if e in l && First(l, e) + 1 < |l| then Some(l[First(l, e) + 1]) else None
  }

  lemma NextAt(l: seq<Element>, k: nat)
    requires Unique(l) && k < |l|
    ensures Next(l, l[k]) == if k + 1 < |l| then Some(l[k + 1]) else None
  {
    FirstIs(l, l[k], k);
  }

  function Survivors(l: seq<Element>, keep: set<string>): seq<Element> {
    if l == [] then []
    else
      var last := l[|l| - 1];
      Survivors(l[..|l| - 1], keep) + if last.value in keep then [last] else []
  }

  lemma Walked(walk: seq<Element>, keep: set<string>)
    ensures Survivors(walk[..0], keep) + walk[0..] == walk
    ensures Survivors(walk[..|walk|], keep) + walk[|walk|..] == Survivors(walk, keep)
  {
    assert walk[..|walk|] == walk;
  }

  /** One step of the walk, at the element after the survivors so far. */
  lemma Walk(walk: seq<Element>, i: nat, keep: set<string>)
    requires i < |walk|
    ensures var done := Survivors(walk[..i], keep);
            var l := done + walk[i..];
            && |done| < |l| && l[|done|] == walk[i]
            && |l| - |done| == |walk| - i && (i + 1 < |walk| ==> l[|done| + 1] == walk[i + 1])
            && Survivors(walk[..i + 1], keep) + walk[i + 1..]
               == if walk[i].value in keep then l else l[..|done|] + l[|done| + 1..]
  {
    assert walk[..i + 1][..i] == walk[..i];
  }

  /** The walk reads the successor, and unlinks the element unless its string is to be kept. */
  lemma PruneStep(l: seq<Element>, m: map<string, Element>, walk: seq<Element>, i: nat, keep: set<string>)
    requires Indexed(l, m) && i < |walk| && l == Survivors(walk[..i], keep) + walk[i..]
    ensures Next(l, walk[i]) == if i + 1 < |walk| then Some(walk[i + 1]) else None
    ensures var rest := Survivors(walk[..i + 1], keep) + walk[i + 1..];
            if walk[i].value in keep then rest == l
            else rest == Without(l, walk[i]) && Indexed(rest, m - {walk[i].value})
  {
    hide Indexed, Values, Without, Unique, Survivors, Next, First;
    Walk(walk, i, keep);
    var k := |Survivors(walk[..i], keep)|;
    Unlinking(l, m, k);
    NextAt(l, k);
  }

  lemma {:induction false} SurvivorValues(l: seq<Element>, keep: set<string>)
    ensures Values(Survivors(l, keep)) == Kept(Values(l), keep)
  {
    if l != [] {
      var n := |l| - 1;
      SurvivorValues(l[..n], keep);
      assert Values(l)[..n] == Values(l[..n]);
    }
  }
}
