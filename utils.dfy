/** `chunk` from utils.ts: cut an array into consecutive pieces of at most `n` elements. */
module Utils {

  function Min(a: int, b: int): int {
    if a <= b then a else b
  }

  /**
   * `chunk(arr, n)`: `[arr.slice(0, n)].concat(chunk(arr.slice(n), n))`, or `[]`
   * for an empty array. JavaScript's `slice` clamps its bounds to the length.
   * The recursion only shrinks its argument when `n >= 1`: with `n == 0` the
   * recursive call receives the same array again and never ends.
   */
  function Chunk<T>(a: seq<T>, n: nat): (r: seq<seq<T>>)
    requires n >= 1
    ensures r == [] <==> |a| == 0
    ensures forall i :: 0 <= i < |r| ==> r[i] != []
    decreases |a|
  {
    if |a| == 0 then [] else [a[..Min(n, |a|)]] + Chunk(a[Min(n, |a|)..], n)
  }

  /** Concatenation of a list of pieces. */
  function Concat<T>(pieces: seq<seq<T>>): seq<T>
    decreases |pieces|
  {
    if pieces == [] then [] else pieces[0] + Concat(pieces[1..])
  }

  /** One step of `chunk` on a non-empty array. */
  lemma ChunkUnfold<T>(a: seq<T>, n: nat)
    requires n >= 1 && |a| > 0
    ensures Chunk(a, n) == [a[..Min(n, |a|)]] + Chunk(a[Min(n, |a|)..], n)
  {
  }

  lemma {:induction false} ChunkConcat<T>(a: seq<T>, n: nat)
    requires n >= 1
    ensures Concat(Chunk(a, n)) == a
    decreases |a|
  {
    if |a| > 0 {
      var k := Min(n, |a|);
      var c := Chunk(a, n);
      ChunkUnfold(a, n);
      ChunkConcat(a[k..], n);
      assert c[1..] == Chunk(a[k..], n);
      assert Concat(c) == c[0] + Concat(c[1..]);
      assert a[..k] + a[k..] == a;
    }
  }

  /** Every piece is non-empty and at most `n` long; all but the last are exactly `n` long. */
  lemma {:induction false} ChunkSizes<T>(a: seq<T>, n: nat)
    requires n >= 1
    ensures forall i :: 0 <= i < |Chunk(a, n)| ==> 1 <= |Chunk(a, n)[i]| <= n
    ensures forall i :: 0 <= i < |Chunk(a, n)| - 1 ==> |Chunk(a, n)[i]| == n
    decreases |a|
  {
    if |a| > 0 {
      var k := Min(n, |a|);
      ChunkSizes(a[k..], n);
      var r := Chunk(a, n);
      assert r[1..] == Chunk(a[k..], n);
      forall i | 0 <= i < |r| ensures 1 <= |r[i]| <= n && (i < |r| - 1 ==> |r[i]| == n) {
        if i > 0 {
          assert r[i] == Chunk(a[k..], n)[i - 1];
        } else if i < |r| - 1 {
          assert |a[k..]| > 0;
        }
      }
    }
  }

  /**
   * The number of pieces is the length divided by `n`, rounded up: the
   * smallest count `c` with `|a| <= c * n`.
   */
  lemma {:induction false} ChunkCount<T>(a: seq<T>, n: nat)
    requires n >= 1
    ensures |a| == 0 ==> |Chunk(a, n)| == 0
    ensures |a| > 0 ==> (|Chunk(a, n)| - 1) * n < |a| <= |Chunk(a, n)| * n
    decreases |a|
  {
    if |a| > n {
      var b := a[n..];
      ChunkUnfold(a, n);
      ChunkCount(b, n);
      var c := |Chunk(b, n)|;
      assert |Chunk(a, n)| == c + 1;
      MulStep(c, n);
    } else if |a| > 0 {
      ChunkUnfold(a, n);
      MulStep(0, n);
    }
  }

  /** Moving one step in the first factor of `c * n`. */
  lemma MulStep(c: int, n: int)
    ensures (c + 1 - 1) * n == c * n && (c + 1) * n == c * n + n && (c - 1) * n == c * n - n
  {
  }

  lemma SliceOfSuffix<T>(a: seq<T>, m: nat, x: nat, y: nat)
    requires m <= |a| && x <= y <= |a| - m
    ensures a[m..][x..y] == a[m + x..m + y]
  {
  }

  /** `off == k * n`, written without multiplication. */
  predicate IsMultiple(k: nat, n: nat, off: nat)
    decreases k
  {
    if k == 0 then off == 0 else off >= n && IsMultiple(k - 1, n, off - n)
  }

  lemma {:induction false} MulIsMultiple(k: nat, n: nat)
    ensures IsMultiple(k, n, k * n)
    decreases k
  {
    if k > 0 {
      assert k * n == (k - 1) * n + n;
      MulIsMultiple(k - 1, n);
    }
  }

  lemma {:induction false} ChunkAtOffset<T>(a: seq<T>, n: nat, k: nat, off: nat)
    requires n >= 1 && IsMultiple(k, n, off)
    ensures k < |Chunk(a, n)| ==> off < |a| && Chunk(a, n)[k] == a[off..Min(off + n, |a|)]
    ensures k >= |Chunk(a, n)| ==> off >= |a|
    decreases k
  {
    if |a| > 0 {
      var m := Min(n, |a|);
      var b := a[m..];
      ChunkUnfold(a, n);
      if k > 0 {
        ChunkAtOffset(b, n, k - 1, off - n);
        if k < |Chunk(a, n)| {
          assert k - 1 < |Chunk(b, n)|;
          assert m == n;
          assert Chunk(a, n)[k] == Chunk(b, n)[k - 1];
          assert Min(off, |b|) + n == Min(off + n, |a|);
          SliceOfSuffix(a, n, off - n, Min(off, |b|));
        }
      }
    }
  }

  /** Piece `k` is the slice from `k * n` of at most `n` elements; past the last piece the slice is empty. */
  lemma ChunkAt<T>(a: seq<T>, n: nat, k: nat)
    requires n >= 1
    ensures k < |Chunk(a, n)| ==> k * n < |a| && Chunk(a, n)[k] == a[k * n..Min(k * n + n, |a|)]
    ensures k >= |Chunk(a, n)| ==> k * n >= |a|
  {
    MulIsMultiple(k, n);
    ChunkAtOffset(a, n, k, k * n);
  }
}
