/**
 Where a Q or K weight ends up: the writer's head permutation and flattening, the Q4_0 blocks, the loader's decode,
 transpose and un-permutation, and the final swap to math order.

 Matrices are flat row-major lists of exact reals; the 16-bit float of a block scale is a pair of functions.
 */
module Layout {
  import opened Basics
  import opened Matrix

  const BLOCK: nat := 32
  const BLOCK_BYTES: nat := 18

  /** 16-bit floats on the wire. */
  datatype Half = Half(enc: real -> seq<Byte>, dec: seq<Byte> -> real)

  // ---------------------------------------------------------------- the head permutation

  /** `[2, m]` to `[m, 2]` within a head: where index `c` of the result comes from. */
  function Weave(m: Positive, c: nat): (d: nat)
    requires c < 2 * m
    ensures d < 2 * m
  {
    if c % 2 == 0 then c / 2 else m + c / 2
  }

  /** `[m, 2]` to `[2, m]` within a head: where index `d` of the result comes from. */
  function Part(m: Positive, d: nat): (c: nat)
    requires d < 2 * m
    ensures c < 2 * m
  {
    if d < m then 2 * d else 2 * (d - m) + 1
  }

  /** The same for `n` heads of size `2 * m`. */
  function Interleaved(m: Positive, n: nat, r: nat): (s: nat)
    requires r < n * (2 * m)
    ensures s < n * (2 * m)
  {
    FlatBound(RowOf(r, n, 2 * m), Weave(m, ColOf(r, n, 2 * m)), n, 2 * m);
    RowOf(r, n, 2 * m) * (2 * m) + Weave(m, ColOf(r, n, 2 * m))
  }

  function Halved(m: Positive, n: nat, c: nat): (d: nat)
    requires c < n * (2 * m)
    ensures d < n * (2 * m)
  {
    FlatBound(RowOf(c, n, 2 * m), Part(m, ColOf(c, n, 2 * m)), n, 2 * m);
    RowOf(c, n, 2 * m) * (2 * m) + Part(m, ColOf(c, n, 2 * m))
  }

  lemma PartWeave(m: Positive, d: nat)
    requires d < 2 * m
    ensures Weave(m, Part(m, d)) == d && Part(m, Weave(m, d)) == d
  {
  }

  /** The loader's permutation undoes the writer's, in both orders. */
  lemma PermutationsInvert(m: Positive, n: nat, c: nat)
    requires c < n * (2 * m)
    ensures Interleaved(m, n, Halved(m, n, c)) == c && Halved(m, n, Interleaved(m, n, c)) == c
  {
    hide Weave, Part, RowOf, ColOf;
    var (h, d) := (RowOf(c, n, 2 * m), ColOf(c, n, 2 * m));
    PartWeave(m, d);
    FlatIndex(h, Part(m, d), n, 2 * m);
    FlatIndex(h, Weave(m, d), n, 2 * m);
    Recombine(c, n, 2 * m);
  }

  lemma Recombine(x: nat, h: nat, w: nat)
    requires x < h * w
    ensures RowOf(x, h, w) * w + ColOf(x, h, w) == x
  {
    FlatSplit(x, h, w);
  }

  /** The two are one self-inverse permutation only for head sizes 2 and 4. */
  lemma SelfInverseExactly(m: Positive, n: Positive)
    ensures (forall c :: 0 <= c < n * (2 * m) ==> Halved(m, n, Halved(m, n, c)) == c) <==> m <= 2
  {
    hide RowOf, ColOf;
    if m > 2 {
      MulGap(0, n, 2 * m);
      FlatIndex(0, 1, n, 2 * m);
      FlatIndex(0, 2, n, 2 * m);
      assert Halved(m, n, 1) == 2 && Halved(m, n, 2) == 4;
    } else {
      forall c | 0 <= c < n * (2 * m)
        ensures Halved(m, n, Halved(m, n, c)) == c
      {
        var (h, d) := (RowOf(c, n, 2 * m), ColOf(c, n, 2 * m));
        FlatIndex(h, Part(m, d), n, 2 * m);
        Recombine(c, n, 2 * m);
        assert Part(m, Part(m, d)) == d;
      }
    }
  }

  // ---------------------------------------------------------------- whole matrices

  /** `reverse_hf_permute` of an `[out, in]` matrix. */
  function PermuteRows<T>(w: seq<T>, m: Positive, n: nat, inDim: nat): (p: seq<T>)
    requires |w| == n * (2 * m) * inDim
    ensures |p| == |w|
  {
    var out := n * (2 * m);
    seq(out * inDim, x requires 0 <= x < out * inDim =>
      At(w, out, inDim, Interleaved(m, n, RowOf(x, out, inDim)), ColOf(x, out, inDim)))
  }

  /** The reshape, swap and reshape of `unpermute_qk` on an `[in, out]` matrix. */
  function PermuteCols<T>(d: seq<T>, m: Positive, n: nat, inDim: nat): (u: seq<T>)
    requires |d| == inDim * (n * (2 * m))
    ensures |u| == |d|
  {
    var out := n * (2 * m);
    seq(inDim * out, x requires 0 <= x < inDim * out =>
      At(d, inDim, out, RowOf(x, inDim, out), Halved(m, n, ColOf(x, inDim, out))))
  }

  /** `unpermute_qk` hands the matrix on in `[out, in]` order. */
  function UnpermuteQk<T>(d: seq<T>, m: Positive, n: nat, inDim: nat): seq<T>
    requires |d| == inDim * (n * (2 * m))
  {
    Transposed(PermuteCols(d, m, n, inDim), inDim, n * (2 * m))
  }

  /** `ensure_math_order` of a dense `[out, in]` matrix. */
  function MathOrder<T>(w: seq<T>, outDim: nat, inDim: nat): seq<T>
    requires |w| == outDim * inDim
  {
    Transposed(w, outDim, inDim)
  }

  /** The loader's whole path for a Q or K weight, from the flat list of the file to the model: transpose, un-permute,
      swap. */
  function QkLoaded<T>(flat: seq<T>, m: Positive, n: nat, inDim: nat): (loaded: seq<T>)
    requires |flat| == n * (2 * m) * inDim
    ensures |loaded| == inDim * (n * (2 * m))
  {
    var out := n * (2 * m);
    MathOrder(UnpermuteQk(Transposed(flat, out, inDim), m, n, inDim), out, inDim)
  }

  lemma PermutedRow<T>(w: seq<T>, m: Positive, n: nat, inDim: nat, r: nat, i: nat)
    requires |w| == n * (2 * m) * inDim && r < n * (2 * m) && i < inDim
    ensures At(PermuteRows(w, m, n, inDim), n * (2 * m), inDim, r, i)
         == At(w, n * (2 * m), inDim, Interleaved(m, n, r), i)
  {
    hide Interleaved;
    FlatIndex(r, i, n * (2 * m), inDim);
  }

  lemma UnpermutedCol<T>(d: seq<T>, m: Positive, n: nat, inDim: nat, i: nat, c: nat)
    requires |d| == inDim * (n * (2 * m)) && c < n * (2 * m) && i < inDim
    ensures At(PermuteCols(d, m, n, inDim), inDim, n * (2 * m), i, c) == At(d, inDim, n * (2 * m), i, Halved(m, n, c))
  {
    hide Halved;
    FlatIndex(i, c, inDim, n * (2 * m));
  }

  /** Where the loader takes entry `[i][j]` from in the flat list of the file. */
  lemma LoadedEntry<T>(flat: seq<T>, m: Positive, n: nat, inDim: nat, i: nat, j: nat)
    requires |flat| == n * (2 * m) * inDim && i < inDim && j < n * (2 * m)
    ensures At(QkLoaded(flat, m, n, inDim), inDim, n * (2 * m), i, j)
         == At(flat, n * (2 * m), inDim, Halved(m, n, j), i)
  {
    hide At, Transposed, PermuteCols, Halved;
    var out := n * (2 * m);
    var d := Transposed(flat, out, inDim);
    var u := PermuteCols(d, m, n, inDim);
    TransposedEntry(Transposed(u, inDim, out), out, inDim, j, i);
    TransposedEntry(u, inDim, out, i, j);
    UnpermutedCol(d, m, n, inDim, i, j);
    TransposedEntry(flat, out, inDim, Halved(m, n, j), i);
  }

  lemma HeadRow(m: Positive, n: nat, h: nat, d: nat)
    requires h < n && d < 2 * m
    ensures h * (2 * m) + d < n * (2 * m)
    ensures Interleaved(m, n, h * (2 * m) + d) == h * (2 * m) + Weave(m, d)
    ensures Halved(m, n, h * (2 * m) + d) == h * (2 * m) + Part(m, d)
  {
    hide Weave, Part, RowOf, ColOf;
    FlatIndex(h, d, n, 2 * m);
  }

  lemma FileRow<T>(w: seq<T>, m: Positive, n: nat, inDim: nat, h: nat, d: nat, i: nat)
    requires |w| == n * (2 * m) * inDim && h < n && d < 2 * m && i < inDim
    ensures h * (2 * m) + d < n * (2 * m) && h * (2 * m) + Weave(m, d) < n * (2 * m)
    ensures At(PermuteRows(w, m, n, inDim), n * (2 * m), inDim, h * (2 * m) + d, i)
         == At(w, n * (2 * m), inDim, h * (2 * m) + Weave(m, d), i)
  {
    hide At, PermuteRows, Interleaved, Halved, Weave, Part;
    HeadRow(m, n, h, d);
    PermutedRow(w, m, n, inDim, h * (2 * m) + d, i);
  }

  lemma ModelCol<T>(flat: seq<T>, m: Positive, n: nat, inDim: nat, h: nat, d: nat, i: nat)
    requires |flat| == n * (2 * m) * inDim && h < n && d < 2 * m && i < inDim
    ensures h * (2 * m) + d < n * (2 * m) && h * (2 * m) + Part(m, d) < n * (2 * m)
    ensures At(QkLoaded(flat, m, n, inDim), inDim, n * (2 * m), i, h * (2 * m) + d)
         == At(flat, n * (2 * m), inDim, h * (2 * m) + Part(m, d), i)
  {
    hide At, QkLoaded, Interleaved, Halved, Weave, Part;
    HeadRow(m, n, h, d);
    LoadedEntry(flat, m, n, inDim, i, h * (2 * m) + d);
  }

  /** In the file, rows `2k` and `2k + 1` of a head are the checkpoint's rows `k` and `m + k` of it. */
  lemma PairsFromHalves<T>(w: seq<T>, m: Positive, n: nat, inDim: nat, h: nat, k: nat, i: nat)
    requires |w| == n * (2 * m) * inDim && h < n && k < m && i < inDim
    ensures h * (2 * m) + (2 * k + 1) < n * (2 * m) && h * (2 * m) + (m + k) < n * (2 * m)
    ensures var (file, out, at) := (PermuteRows(w, m, n, inDim), n * (2 * m), h * (2 * m));
            && At(file, out, inDim, at + 2 * k, i) == At(w, out, inDim, at + k, i)
            && At(file, out, inDim, at + (2 * k + 1), i) == At(w, out, inDim, at + (m + k), i)
  {
    hide At, PermuteRows;
    FileRow(w, m, n, inDim, h, 2 * k, i);
    FileRow(w, m, n, inDim, h, 2 * k + 1, i);
  }

  /** In the model, columns `k` and `m + k` of a head are the file's rows `2k` and `2k + 1` of it. */
  lemma HalvesFromPairs<T>(flat: seq<T>, m: Positive, n: nat, inDim: nat, h: nat, k: nat, i: nat)
    requires |flat| == n * (2 * m) * inDim && h < n && k < m && i < inDim
    ensures h * (2 * m) + (2 * k + 1) < n * (2 * m) && h * (2 * m) + (m + k) < n * (2 * m)
    ensures var (model, out, at) := (QkLoaded(flat, m, n, inDim), n * (2 * m), h * (2 * m));
            && At(model, inDim, out, i, at + k) == At(flat, out, inDim, at + 2 * k, i)
            && At(model, inDim, out, i, at + (m + k)) == At(flat, out, inDim, at + (2 * k + 1), i)
  {
    hide At, QkLoaded;
    ModelCol(flat, m, n, inDim, h, k, i);
    ModelCol(flat, m, n, inDim, h, m + k, i);
  }

  /** The place the loader takes entry `[i][j]` from is the place the writer put entry `[j][i]`. */
  lemma WrittenEntry<T>(w: seq<T>, m: Positive, n: nat, inDim: nat, i: nat, j: nat)
    requires |w| == n * (2 * m) * inDim && i < inDim && j < n * (2 * m)
    ensures At(PermuteRows(w, m, n, inDim), n * (2 * m), inDim, Halved(m, n, j), i) == At(w, n * (2 * m), inDim, j, i)
  {
    hide At, PermuteRows, Halved, Interleaved;
    PermutedRow(w, m, n, inDim, Halved(m, n, j), i);
    PermutationsInvert(m, n, j);
  }

  /** Layout preservation: for every head count and even head size, the Q4_0 path (permute, flatten, decode,
      transpose, unpermute, swap) and the dense path (swap) put every weight in the same place. */
  lemma LayoutPreserved<T>(w: seq<T>, m: Positive, n: nat, inDim: nat)
    requires |w| == n * (2 * m) * inDim
    ensures QkLoaded(PermuteRows(w, m, n, inDim), m, n, inDim) == MathOrder(w, n * (2 * m), inDim)
  {
    hide At, Transposed, PermuteRows, QkLoaded;
    var out, loaded := n * (2 * m), QkLoaded(PermuteRows(w, m, n, inDim), m, n, inDim);
    forall i, j | 0 <= i < inDim && 0 <= j < out
      ensures At(loaded, inDim, out, i, j) == At(MathOrder(w, out, inDim), inDim, out, i, j)
    {
      LoadedEntry(PermuteRows(w, m, n, inDim), m, n, inDim, i, j);
      WrittenEntry(w, m, n, inDim, i, j);
      TransposedEntry(w, out, inDim, j, i);
    }
    SameEntries(loaded, MathOrder(w, out, inDim), inDim, out);
  }
}
