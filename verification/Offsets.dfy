/**
 Message offsets and the comparison the tracker's ordered maps are keyed by.

 The comparison ignores the partition, and calls two offsets of different variants equal, so it is not
 the order of the derived equality. `Clash` is the equality an ordered map of one partition works with.
 */
module Offsets {

  type Byte = b: int | 0 <= b < 256

  datatype Offset =
    | IntOffset(seqNo: int, partition: nat)
    | StringOffset(bytes: seq<Byte>, partition: nat)

  datatype Ordering = Less | Equal | Greater

  function CmpInt(a: int, b: int): Ordering {
    if a < b then Less else if a == b then Equal else Greater
  }

  /** Lexicographic comparison, as on byte strings. */
  function CmpBytes(a: seq<Byte>, b: seq<Byte>): Ordering {
    if a == [] then (if b == [] then Equal else Less)
    else if b == [] then Greater
    else if a[0] != b[0] then CmpInt(a[0], b[0])
    else CmpBytes(a[1..], b[1..])
  }

  function Cmp(a: Offset, b: Offset): Ordering {
    match (a, b)
    case (IntOffset(x, _), IntOffset(y, _)) => CmpInt(x, y)
    case (StringOffset(x, _), StringOffset(y, _)) => CmpBytes(x, y)
    case _ => Equal
  }

  predicate SameVariant(a: Offset, b: Offset) { a.IntOffset? == b.IntOffset? }

  predicate Clash(a: Offset, b: Offset) {
    a.partition == b.partition && Cmp(a, b) == Equal
  }

  function Flip(o: Ordering): Ordering {
    match o
    case Less => Greater
    case Equal => Equal
    case Greater => Less
  }

  lemma {:induction false} CmpBytesLaws(a: seq<Byte>, b: seq<Byte>, c: seq<Byte>)
    ensures CmpBytes(a, b) == Equal <==> a == b
    ensures CmpBytes(b, a) == Flip(CmpBytes(a, b))
    ensures CmpBytes(a, b) == Less && CmpBytes(b, c) == Less ==> CmpBytes(a, c) == Less
    decreases |a| + |b| + |c|
  {
    if a != [] && b != [] {
      var c' := if c == [] then [] else c[1..];
      CmpBytesLaws(a[1..], b[1..], c');
      assert a == [a[0]] + a[1..];
      assert b == [b[0]] + b[1..];
    }
  }

  /** On the offsets of one variant and one partition the comparison is a total order whose `Equal` is
      equality; across variants it never separates anything. */
  lemma CmpLaws(a: Offset, b: Offset, c: Offset)
    requires a.partition == b.partition == c.partition
    ensures SameVariant(a, b) ==> (Cmp(a, b) == Equal <==> a == b)
    ensures SameVariant(a, b) && SameVariant(b, c) && Cmp(a, b) == Less && Cmp(b, c) == Less ==> Cmp(a, c) == Less
    ensures Cmp(b, a) == Flip(Cmp(a, b))
    ensures !SameVariant(a, b) ==> Cmp(a, b) == Equal
  {
    if a.StringOffset? && b.StringOffset? {
      var z := if c.StringOffset? then c.bytes else [];
      CmpBytesLaws(a.bytes, b.bytes, z);
    }
  }

  /** What comes first: the lower sequence number. */
  lemma CmpIntMeans(a: Offset, b: Offset)
    requires a.IntOffset? && b.IntOffset?
    ensures Cmp(a, b) == Less <==> a.seqNo < b.seqNo
  {}

  /** What comes first: at the first difference, the string that ends there or has the lower byte. */
  lemma {:induction false} CmpBytesMeans(a: seq<Byte>, b: seq<Byte>)
    ensures CmpBytes(a, b) == Less <==> exists k | 0 <= k <= |a| && k <= |b| :: DiffersFirstBelow(a, b, k)
  {
    if a != [] && b != [] && a[0] == b[0] {
      CmpBytesMeans(a[1..], b[1..]);
      forall k | 0 <= k < |a| && k < |b|
        ensures DiffersFirstBelow(a, b, k + 1) <==> DiffersFirstBelow(a[1..], b[1..], k)
      {
        assert a[..k + 1] == [a[0]] + a[1..][..k] && b[..k + 1] == [b[0]] + b[1..][..k];
      }
      if k :| 0 <= k <= |a| && k <= |b| && DiffersFirstBelow(a, b, k) {
        assert k > 0;
        assert DiffersFirstBelow(a[1..], b[1..], k - 1);
      }
      if k :| 0 <= k <= |a[1..]| && k <= |b[1..]| && DiffersFirstBelow(a[1..], b[1..], k) {
        assert DiffersFirstBelow(a, b, k + 1);
      }
    } else {
      assert forall k | 0 < k <= |a| && k <= |b| :: a[..k][0] == a[0] && b[..k][0] == b[0];
      assert b != [] ==> (DiffersFirstBelow(a, b, 0) <==> a == [] || a[0] < b[0]);
    }
  }

  ghost predicate DiffersFirstBelow(a: seq<Byte>, b: seq<Byte>, k: nat)
    requires k <= |a| && k <= |b|
  {
    a[..k] == b[..k] && k < |b| && (k == |a| || a[k] < b[k])
  }
}
