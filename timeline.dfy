/** The shape of `timeline.flatMap((keyframe, index) => keyframe.map(...))`:
    a nested sequence flattened in order, each element transformed together
    with the index of the inner sequence it came from. */
module Timeline {

  /** `keyframe.map(item => f(item, index))`. */
  function MapWithIndex<T, U>(keyframe: seq<T>, index: nat, f: (T, nat) -> U): (r: seq<U>)
    ensures |r| == |keyframe|
    ensures forall j :: 0 <= j < |keyframe| ==> r[j] == f(keyframe[j], index)
  {
    if keyframe == [] then []
    else [f(keyframe[0], index)] + MapWithIndex(keyframe[1..], index, f)
  }

  /** Number of elements summed over all inner sequences. */
  function TotalLength<T>(kfs: seq<seq<T>>): (n: nat) {
    if kfs == [] then 0 else |kfs[0]| + TotalLength(kfs[1..])
  }

  /** Position in the flattened sequence where the elements of `kfs[k]` start:
      the summed lengths of `kfs[0]`, ..., `kfs[k - 1]`. */
  function Offset<T>(kfs: seq<seq<T>>, k: nat): (n: nat)
    requires k <= |kfs|
  {
    TotalLength(kfs[..k])
  }

  /** `flatMap` over inner sequences whose indices start at `base`. */
  function FlatMapIndexed<T, U>(kfs: seq<seq<T>>, base: nat, f: (T, nat) -> U): (r: seq<U>)
    ensures |r| == TotalLength(kfs)
  {
    if kfs == [] then []
    else MapWithIndex(kfs[0], base, f) + FlatMapIndexed(kfs[1..], base + 1, f)
  }

  lemma {:induction false} NoElementsIff<T>(kfs: seq<seq<T>>)
    ensures TotalLength(kfs) == 0 <==> forall k :: 0 <= k < |kfs| ==> kfs[k] == []
  {
    if kfs != [] {
      NoElementsIff(kfs[1..]);
      assert forall k :: 1 <= k < |kfs| ==> kfs[k] == kfs[1..][k - 1];
    }
  }

  lemma {:induction false} TotalLengthAppend<T>(a: seq<seq<T>>, b: seq<seq<T>>)
    ensures TotalLength(a + b) == TotalLength(a) + TotalLength(b)
  {
    if a != [] {
      assert (a + b)[1..] == a[1..] + b;
      TotalLengthAppend(a[1..], b);
    } else {
      assert a + b == b;
    }
  }

  /** The block of `kfs[k]` is followed directly by the block of `kfs[k + 1]`. */
  lemma {:induction false} OffsetStep<T>(kfs: seq<seq<T>>, k: nat)
    requires k < |kfs|
    ensures Offset(kfs, k + 1) == Offset(kfs, k) + |kfs[k]|
  {
    assert kfs[..k + 1] == kfs[..k] + [kfs[k]];
    TotalLengthAppend(kfs[..k], [kfs[k]]);
    assert [kfs[k]][1..] == [];
  }

  /** Offsets grow with the index. */
  lemma {:induction false} OffsetMonotone<T>(kfs: seq<seq<T>>, k: nat, k': nat)
    requires k <= k' <= |kfs|
    ensures Offset(kfs, k) <= Offset(kfs, k')
    decreases k'
  {
    if k < k' {
      OffsetStep(kfs, k' - 1);
      OffsetMonotone(kfs, k, k' - 1);
    }
  }

  /** The offset past the last inner sequence is the total length. */
  lemma {:induction false} OffsetEnd<T>(kfs: seq<seq<T>>)
    ensures Offset(kfs, |kfs|) == TotalLength(kfs)
  {
    assert kfs[..|kfs|] == kfs;
  }

  lemma {:induction false} OffsetTail<T>(kfs: seq<seq<T>>, k: nat)
    requires 0 < k <= |kfs|
    ensures Offset(kfs, k) == |kfs[0]| + Offset(kfs[1..], k - 1)
  {
    assert kfs[..k][1..] == kfs[1..][..k - 1];
  }

  /** Element `j` of inner sequence `k` lands at `Offset(kfs, k) + j`,
      transformed with index `base + k`. */
  lemma {:induction false} FlatMapIndexedAt<T, U>(kfs: seq<seq<T>>, base: nat, f: (T, nat) -> U, k: nat, j: nat)
    requires k < |kfs| && j < |kfs[k]|
    ensures Offset(kfs, k) + j < TotalLength(kfs)
    ensures FlatMapIndexed(kfs, base, f)[Offset(kfs, k) + j] == f(kfs[k][j], base + k)
  {
    OffsetStep(kfs, k);
    OffsetMonotone(kfs, k + 1, |kfs|);
    OffsetEnd(kfs);
    var head := MapWithIndex(kfs[0], base, f);
    var rest := FlatMapIndexed(kfs[1..], base + 1, f);
    assert FlatMapIndexed(kfs, base, f) == head + rest;
    if k == 0 {
      assert kfs[..0] == [];
      assert (head + rest)[j] == head[j];
    } else {
      OffsetTail(kfs, k);
      FlatMapIndexedAt(kfs[1..], base + 1, f, k - 1, j);
      var i := Offset(kfs[1..], k - 1) + j;
      assert (head + rest)[|head| + i] == rest[i];
    }
  }

  /** The inner sequence and position within it that flattened position `i` comes from. */
  function Locate<T>(kfs: seq<seq<T>>, i: nat): (p: (nat, nat))
    requires i < TotalLength(kfs)
    ensures p.0 < |kfs| && p.1 < |kfs[p.0]|
    ensures Offset(kfs, p.0) + p.1 == i
  {
    if i < |kfs[0]| then
      assert kfs[..0] == [];
      (0, i)
    else
      var q := Locate(kfs[1..], i - |kfs[0]|);
      OffsetTail(kfs, q.0 + 1);
      (q.0 + 1, q.1)
  }

  /** Distinct (inner sequence, position) pairs land on distinct flattened positions. */
  lemma {:induction false} PositionInjective<T>(kfs: seq<seq<T>>, k: nat, j: nat, k': nat, j': nat)
    requires k < |kfs| && j < |kfs[k]|
    requires k' < |kfs| && j' < |kfs[k']|
    requires Offset(kfs, k) + j == Offset(kfs, k') + j'
    ensures k == k' && j == j'
  {
    if k < k' {
      OffsetStep(kfs, k);
      OffsetMonotone(kfs, k + 1, k');
    } else if k' < k {
      OffsetStep(kfs, k');
      OffsetMonotone(kfs, k' + 1, k);
    }
  }

  /** Everything from an earlier inner sequence precedes everything from a later one. */
  lemma {:induction false} BlockOrder<T>(kfs: seq<seq<T>>, k: nat, j: nat, k': nat, j': nat)
    requires k < k' < |kfs| && j < |kfs[k]| && j' < |kfs[k']|
    ensures Offset(kfs, k) + j < Offset(kfs, k') + j'
  {
    OffsetStep(kfs, k);
    OffsetMonotone(kfs, k + 1, k');
  }
}
