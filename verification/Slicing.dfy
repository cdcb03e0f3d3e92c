/** Cutting a list into consecutive slices of bounded size. */
module Slicing {
  import opened Prelude

  function SlicesFrom<T>(xs: seq<T>, size: nat, from: nat): seq<seq<T>>
    requires size > 0 && from <= |xs|
    decreases |xs| - from
  {
    if from == |xs| then []
    else
      var to := if from + size < |xs| then from + size else |xs|;
      [xs[from..to]] + SlicesFrom(xs, size, to)
  }

  function Slices<T>(xs: seq<T>, size: nat): seq<seq<T>>
    requires size > 0
  {
    SlicesFrom(xs, size, 0)
  }

  /** The generator `batch`, gathered into a list. */
  method Batch<T>(xs: seq<T>, size: nat) returns (slices: seq<seq<T>>)
    requires size > 0
    ensures slices == Slices(xs, size)
  {
    slices := [];
    var from := 0;
    while from < |xs|
      invariant 0 <= from <= |xs|
      invariant slices + SlicesFrom(xs, size, from) == Slices(xs, size)
    {
      var to := if from + size < |xs| then from + size else |xs|;
      slices, from := slices + [xs[from..to]], to;
    }
  }

  /** Where slice i ends. */
  function SliceEnd(n: nat, size: nat, i: nat): nat {
    if (i + 1) * size < n then (i + 1) * size else n
  }

  /** Slice i holds entries i * size up to (i + 1) * size; every slice is non-empty and the last one reaches the end. */
  lemma {:induction false} SliceShape<T>(xs: seq<T>, size: nat, from: nat, i: nat)
    requires size > 0 && from <= |xs| && i < |SlicesFrom(xs, size, from)|
    ensures from + i * size < |xs|
    ensures SlicesFrom(xs, size, from)[i] == xs[from + i * size..from + SliceEnd(|xs| - from, size, i)]
    decreases |xs| - from
  {
    var to := if from + size < |xs| then from + size else |xs|;
    if i == 0 {
      assert (i + 1) * size == size;
    } else {
      SliceShape(xs, size, to, i - 1);
      assert i * size == size + (i - 1) * size && (i + 1) * size == size + i * size;
      assert SlicesFrom(xs, size, from)[i] == SlicesFrom(xs, size, to)[i - 1];
    }
  }

  /** No slice is empty or too long, and all but the last are full. */
  lemma {:induction false} SliceLength<T>(xs: seq<T>, size: nat, from: nat, i: nat)
    requires size > 0 && from <= |xs| && i < |SlicesFrom(xs, size, from)|
    ensures 0 < |SlicesFrom(xs, size, from)[i]| <= size
    ensures i + 1 < |SlicesFrom(xs, size, from)| ==> |SlicesFrom(xs, size, from)[i]| == size
    decreases |xs| - from
  {
    if i > 0 {
      SliceLength(xs, size, if from + size < |xs| then from + size else |xs|, i - 1);
    }
  }

  /** There are ceil(n / size) slices. */
  lemma {:induction false} SliceCount<T>(xs: seq<T>, size: nat, from: nat)
    requires size > 0 && from <= |xs|
    ensures var count := |SlicesFrom(xs, size, from)|;
            && count * size >= |xs| - from
            && (count > 0 ==> (count - 1) * size < |xs| - from)
            && (count == 0 <==> from == |xs|)
    decreases |xs| - from
  {
    if from < |xs| {
      var to := if from + size < |xs| then from + size else |xs|;
      SliceCount(xs, size, to);
      var rest := |SlicesFrom(xs, size, to)|;
      assert (rest + 1) * size == rest * size + size;
      assert rest > 0 ==> rest * size == (rest - 1) * size + size;
    }
  }

  /** The slices put back together are the list. */
  lemma {:induction false} SlicesJoin<T>(xs: seq<T>, size: nat, from: nat)
    requires size > 0 && from <= |xs|
    ensures Flatten(SlicesFrom(xs, size, from)) == xs[from..]
    decreases |xs| - from
  {
    if from < |xs| {
      var to := if from + size < |xs| then from + size else |xs|;
      SlicesJoin(xs, size, to);
      FlattenFront(SlicesFrom(xs, size, from));
      assert xs[from..] == xs[from..to] + xs[to..];
    }
  }

  lemma {:induction false} SliceInTail<T>(xs: seq<T>, size: nat, from: nat, i: nat, x: T)
    requires size > 0 && from <= |xs| && i < |SlicesFrom(xs, size, from)| && x in SlicesFrom(xs, size, from)[i]
    ensures x in xs[from..]
    decreases |xs| - from
  {
    var to := if from + size < |xs| then from + size else |xs|;
    if i == 0 {
      assert xs[from..to] <= xs[from..];
    } else {
      SliceInTail(xs, size, to, i - 1, x);
      assert xs[from..][to - from..] == xs[to..];
    }
  }

  lemma NotOnBothSides<T>(xs: seq<T>, from: nat, to: nat, x: T)
    requires NoDup(xs) && from <= to <= |xs| && x in xs[from..to]
    ensures x !in xs[to..]
  {
    forall p, q | from <= p < to <= q < |xs|
      ensures xs[p] != xs[q]
    {
    }
  }

  lemma {:induction false} SameSlice<T>(xs: seq<T>, size: nat, from: nat, x: T, i: nat, j: nat)
    requires size > 0 && NoDup(xs) && from <= |xs| && i < |SlicesFrom(xs, size, from)|
            && j < |SlicesFrom(xs, size, from)|
    requires x in SlicesFrom(xs, size, from)[i] && x in SlicesFrom(xs, size, from)[j]
    ensures i == j
    decreases |xs| - from
  {
    var to := if from + size < |xs| then from + size else |xs|;
    if i > 0 && j > 0 {
      SameSlice(xs, size, to, x, i - 1, j - 1);
    } else {
      NotOnBothSides(xs, from, to, x);
      if i > 0 {
        SliceInTail(xs, size, to, i - 1, x);
      }
      if j > 0 {
        SliceInTail(xs, size, to, j - 1, x);
      }
    }
  }

  /** An entry of a list without repetitions lies in exactly one slice. */
  lemma SliceOfEntry<T(!new)>(xs: seq<T>, size: nat, x: T)
    requires size > 0 && NoDup(xs)
    ensures x in xs <==> exists i :: 0 <= i < |Slices(xs, size)| && x in Slices(xs, size)[i]
    ensures forall i, j | 0 <= i < |Slices(xs, size)| && 0 <= j < |Slices(xs, size)| ::
      x in Slices(xs, size)[i] && x in Slices(xs, size)[j] ==> i == j
  {
    SlicesJoin(xs, size, 0);
    FlattenMembers(Slices(xs, size));
    assert xs[0..] == xs;
    forall i, j | 0 <= i < |Slices(xs, size)| && 0 <= j < |Slices(xs, size)| && x in Slices(xs, size)[i]
      && x in Slices(xs, size)[j]
      ensures i == j
    {
      SameSlice(xs, size, 0, x, i, j);
    }
  }
}
