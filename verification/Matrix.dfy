/** Row-major matrices as flat lists. */
module Matrix {
  import opened Basics

  lemma FlatBound(i: nat, j: nat, h: nat, w: nat)
    requires i < h && j < w
    ensures i * w + j < h * w
  {
    MulGap(i, h, w);
  }

  lemma FlatIndex(i: nat, j: nat, h: nat, w: nat)
    requires i < h && j < w
    ensures i * w + j < h * w && RowOf(i * w + j, h, w) == i && ColOf(i * w + j, h, w) == j
  {
    FlatBound(i, j, h, w);
    DivUnique(i * w + j, w, i, j);
  }

  lemma FlatSplit(x: nat, h: nat, w: nat)
    requires x < h * w
    ensures w > 0 && x / w < h && x % w < w && (x / w) * w + x % w == x
  {
    assert w > 0;
    var q := x / w;
    assert q * w + x % w == x;
    if h < q + 1 {
      MulGap(h, q + 1, w);
    }
  }

  /** The row and the column of entry `x` of the flat list. */
  function RowOf(x: nat, h: nat, w: nat): (i: nat)
    requires x < h * w
    ensures i < h
  {
    FlatSplit(x, h, w);
    x / w
  }

  function ColOf(x: nat, h: nat, w: nat): (j: nat)
    requires x < h * w
    ensures j < w
  {
    FlatSplit(x, h, w);
    x % w
  }

  /** Row `i`, column `j` of an `h` by `w` matrix. */
  function At<T>(s: seq<T>, h: nat, w: nat, i: nat, j: nat): T
    requires |s| == h * w && i < h && j < w
  {
    FlatBound(i, j, h, w);
    s[i * w + j]
  }

  /** The transpose of an `r` by `c` matrix. */
  function Transposed<T>(s: seq<T>, r: nat, c: nat): (t: seq<T>)
    requires |s| == r * c
    ensures |t| == c * r
  {
    seq(c * r, y requires 0 <= y < c * r => TransposedAt(s, r, c, y))
  }

  function TransposedAt<T>(s: seq<T>, r: nat, c: nat, y: nat): T
    requires |s| == r * c && y < c * r
  {
    At(s, r, c, ColOf(y, c, r), RowOf(y, c, r))
  }

  lemma TransposedEntry<T>(s: seq<T>, r: nat, c: nat, i: nat, j: nat)
    requires |s| == r * c && i < r && j < c
    ensures At(Transposed(s, r, c), c, r, j, i) == At(s, r, c, i, j)
  {
    FlatIndex(j, i, c, r);
  }

  /** Matrices with the same entries are the same list. */
  lemma SameEntries<T>(s: seq<T>, t: seq<T>, h: nat, w: nat)
    requires |s| == h * w == |t|
    requires forall i, j :: 0 <= i < h && 0 <= j < w ==> At(s, h, w, i, j) == At(t, h, w, i, j)
    ensures s == t
  {
    forall x | 0 <= x < h * w
      ensures s[x] == t[x]
    {
      FlatSplit(x, h, w);
      var (i, j) := (RowOf(x, h, w), ColOf(x, h, w));
      assert At(s, h, w, i, j) == At(t, h, w, i, j);
    }
  }
}
