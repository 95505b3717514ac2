/** Splitting a list into consecutive slices of a fixed size (`chunk_list`). */
module Chunking {

  function Min(a: int, b: int): int
  {
    if a < b then a else b
  }

  /** The slices yielded from start index `i` on: one slice `lst[i..i+n]`
      (cut off at the end of the list) for each `i` in `range(i, |lst|, n)`. */
  function ChunksFrom<T>(lst: seq<T>, n: nat, i: nat): seq<seq<T>>
    requires n > 0
    decreases |lst| - i
  {
    if i >= |lst| then []
    else [lst[i..Min(i + n, |lst|)]] + ChunksFrom(lst, n, i + n)
  }

  /** `chunk_list(lst, n)`: the slices starting at 0, n, 2n, ... */
  function ChunkList<T>(lst: seq<T>, n: nat): seq<seq<T>>
    requires n > 0
  {
    ChunksFrom(lst, n, 0)
  }

  /** The concatenation of a list of lists, in order. */
  function Flatten<T>(ss: seq<seq<T>>): seq<T>
  {
    if ss == [] then [] else ss[0] + Flatten(ss[1..])
  }

  lemma MulAtLeast(k: int, n: int)
    requires n > 0 && k > 0
    ensures k * n >= n
  {
  }

  lemma Distrib(a: int, b: int, n: int)
    ensures (a - b - 1) * n == a * n - b * n - n
  {
  }

  /** Adding the divisor adds one to the (Euclidean) quotient. */
  lemma DivStep(x: int, n: int)
    requires n > 0 && x >= 0
    ensures (x + n) / n == x / n + 1
  {
    var q, r := x / n, x % n;
    var q', r' := (x + n) / n, (x + n) % n;
    Distrib(q', q, n);
    var d := q' - q - 1;
    assert d * n == r - r';
    if d > 0 {
      MulAtLeast(d, n);
    } else if d < 0 {
      MulAtLeast(-d, n);
    }
  }

  lemma DivSmall(x: int, n: int)
    requires 0 <= x < n
    ensures x / n == 0
  {
  }

  /** There are ceil((|lst| - i) / n) slices from index i on. */
  lemma {:induction false} ChunksFromCount<T>(lst: seq<T>, n: nat, i: nat)
    requires n > 0 && i <= |lst|
    decreases |lst| - i
    ensures |ChunksFrom(lst, n, i)| == (|lst| - i + n - 1) / n
  {
    var rest := |lst| - i;
    if rest == 0 {
      DivSmall(n - 1, n);
    } else {
      DivStep(rest - 1, n);
      if rest <= n {
        assert ChunksFrom(lst, n, i + n) == [];
        DivSmall(rest - 1, n);
      } else {
        ChunksFromCount(lst, n, i + n);
      }
    }
  }

  /** `chunk_list(lst, n)` yields ceil(|lst| / n) chunks. */
  lemma ChunkCount<T>(lst: seq<T>, n: nat)
    requires n > 0
    ensures |ChunkList(lst, n)| == (|lst| + n - 1) / n
  {
    ChunksFromCount(lst, n, 0);
  }

  /** Every slice from index i on is non-empty and holds at most n elements;
      every slice but the last holds exactly n. */
  lemma {:induction false} ChunksFromSizes<T>(lst: seq<T>, n: nat, i: nat)
    requires n > 0
    decreases |lst| - i
    ensures forall j :: 0 <= j < |ChunksFrom(lst, n, i)| ==>
      0 < |ChunksFrom(lst, n, i)[j]| <= n &&
      (j < |ChunksFrom(lst, n, i)| - 1 ==> |ChunksFrom(lst, n, i)[j]| == n)
  {
    if i < |lst| {
      ChunksFromSizes(lst, n, i + n);
      var r := ChunksFrom(lst, n, i);
      assert r[1..] == ChunksFrom(lst, n, i + n);
      if i + n < |lst| {
        assert |r[0]| == n;
      }
    }
  }

  lemma ChunkSizes<T>(lst: seq<T>, n: nat)
    requires n > 0
    ensures forall j :: 0 <= j < |ChunkList(lst, n)| ==>
      0 < |ChunkList(lst, n)[j]| <= n && (j < |ChunkList(lst, n)| - 1 ==> |ChunkList(lst, n)[j]| == n)
  {
    ChunksFromSizes(lst, n, 0);
  }

  /** Concatenating the slices from index i on gives back `lst[i..]`. */
  lemma {:induction false} ChunksFromFlatten<T>(lst: seq<T>, n: nat, i: nat)
    requires n > 0 && i <= |lst|
    decreases |lst| - i
    ensures Flatten(ChunksFrom(lst, n, i)) == lst[i..]
  {
    if i < |lst| {
      var m := Min(i + n, |lst|);
      if i + n < |lst| {
        ChunksFromFlatten(lst, n, i + n);
      } else {
        assert ChunksFrom(lst, n, i + n) == [];
      }
      assert lst[i..] == lst[i..m] + lst[m..];
    }
  }

  /** Chunking is lossless and order-preserving. */
  lemma ChunkFlatten<T>(lst: seq<T>, n: nat)
    requires n > 0
    ensures Flatten(ChunkList(lst, n)) == lst
  {
    ChunksFromFlatten(lst, n, 0);
  }

  /** The j-th slice from index i on is `lst[i + j*n .. i + j*n + n]`, cut off at the end. */
  lemma {:induction false} ChunksFromAt<T>(lst: seq<T>, n: nat, i: nat, j: nat)
    requires n > 0 && j < |ChunksFrom(lst, n, i)|
    decreases j
    ensures i + j * n < |lst|
    ensures ChunksFrom(lst, n, i)[j] == lst[i + j * n .. Min(i + j * n + n, |lst|)]
  {
    if j > 0 {
      ChunksFromAt(lst, n, i + n, j - 1);
      assert i + n + (j - 1) * n == i + j * n;
    }
  }

  /** The j-th chunk of `chunk_list(lst, n)` is `lst[j*n : j*n + n]`. */
  lemma ChunkAt<T>(lst: seq<T>, n: nat, j: nat)
    requires n > 0 && j < |ChunkList(lst, n)|
    ensures j * n < |lst|
    ensures ChunkList(lst, n)[j] == lst[j * n .. Min(j * n + n, |lst|)]
  {
    ChunksFromAt(lst, n, 0, j);
  }
}
