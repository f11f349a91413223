/** Small shared types, and flat-index arithmetic. */
module Basics {
  datatype Option<+T> = None | Some(value: T)

  datatype Result<+T, +E> = Ok(value: T) | Err(error: E)

  type Positive = n: nat | n > 0 witness 1

  /** A byte of a message or file. */
  type Byte = b: nat | b < 256

  /** No element occurs twice. */
  ghost predicate NoDup<T>(s: seq<T>) {
    forall a, b :: 0 <= a < b < |s| ==> s[a] != s[b]
  }

  ghost function Elems<T>(s: seq<T>): set<T> {
    set x | x in s
  }

  lemma ElemsSplit<T>(s: seq<T>)
    requires s != []
    ensures Elems(s) == Elems(s[..|s| - 1]) + {s[|s| - 1]}
  {
    var n := |s| - 1;
    forall x
      ensures x in s <==> x in s[..n] || x == s[n]
    {
      assert s == s[..n] + [s[n]];
    }
  }

  lemma {:induction false} SetOfNoDup<T>(s: seq<T>)
    requires NoDup(s)
    ensures |Elems(s)| == |s|
  {
    if s != [] {
      var n := |s| - 1;
      SetOfNoDup(s[..n]);
      ElemsSplit(s);
      assert s[n] !in Elems(s[..n]);
    }
  }

  lemma TailSplit<T>(s: seq<T>, n: nat)
    requires 0 < n <= |s|
    ensures s[n - 1..] == [s[n - 1]] + s[n..]
  {
  }

  lemma {:induction false} MulGap(x: nat, y: nat, w: nat)
    requires x < y
    ensures x * w + w <= y * w
    decreases y
  {
    assert y * w == (y - 1) * w + w;
    if x < y - 1 {
      MulGap(x, y - 1, w);
    }
  }

  lemma MulMonotone(a: nat, b: nat, w: nat)
    requires a <= b
    ensures a * w <= b * w
  {
    assert b * w - a * w == (b - a) * w;
  }

  lemma DivBounds(a: nat, w: Positive)
    ensures (a / w) * w <= a < (a / w) * w + w
  {
  }

  lemma DivUnique(a: nat, w: Positive, q: nat, r: nat)
    requires a == q * w + r && r < w
    ensures a / w == q && a % w == r
  {
    DivBounds(a, w);
    if a / w < q {
      MulGap(a / w, q, w);
    } else if q < a / w {
      MulGap(q, a / w, w);
    }
  }
}
