/**
 Per-group symmetric 4-bit weights over exact reals: one scale for each run of 32 inputs of an output channel, two
 codes to a byte. Rounding to f32 is not part of this model.
 */
module Quant {
  import opened Basics
  import opened Matrix

  const GROUP: nat := 32

  function Abs(x: real): real {
    if x < 0.0 then -x else x
  }

  /** `f32::round`: to the nearest integer, halves away from zero. */
  function Round(x: real): int {
    if x >= 0.0 then (x + 0.5).Floor else -((0.5 - x).Floor)
  }

  function Clamp(q: int): int {
    if q < -7 then -7 else if q > 7 then 7 else q
  }

  function Code(v: real, s: real): (q: int)
    requires s > 0.0
    ensures -7 <= q <= 7
  {
    Clamp(Round(v / s))
  }

  /** `(q as u8) & 0x0F`. */
  function Nibble(q: int): (n: nat)
    requires -8 <= q <= 7
    ensures n < 16
  {
    if q < 0 then q + 16 else q
  }

  function Signed(n: nat): int {
    if n < 8 then n else n - 16
  }

  function Pack(lo: nat, hi: nat): Byte
    requires lo < 16 && hi < 16
  {
    hi * 16 + lo
  }

  function Low(b: Byte): nat {
    b % 16
  }

  function High(b: Byte): nat {
    b / 16
  }

  /** Packing and sign extension lose no code. */
  lemma CodesSurvive(lo: int, hi: int)
    requires -8 <= lo <= 7 && -8 <= hi <= 7
    ensures var b := Pack(Nibble(lo), Nibble(hi)); Signed(Low(b)) == lo && Signed(High(b)) == hi
  {
  }

  lemma RoundsNear(x: real)
    ensures -0.5 <= Round(x) as real - x <= 0.5
  {
  }

  lemma RoundsIntegers(q: int)
    ensures Round(q as real) == q
  {
  }

  lemma DivBetween(v: real, s: real, k: real)
    requires s > 0.0 && k >= 0.0 && Abs(v) <= k * s
    ensures -k <= v / s <= k
  {
    Quotient(v, s);
    Scaled(v / s, k, s, v, k * s);
  }

  lemma Quotient(v: real, s: real)
    requires s > 0.0
    ensures (v / s) * s == v
  {
  }

  lemma Distribute(a: real, b: real, s: real)
    ensures (a - b) * s == a * s - b * s
  {
  }

  lemma PositiveProduct(d: real, s: real)
    requires d > 0.0 && s > 0.0
    ensures d * s > 0.0
  {
  }

  /** Scaling keeps the order. */
  lemma ScaledInOrder(a: real, b: real, s: real)
    requires s > 0.0
    ensures a < b <==> a * s < b * s
    ensures a <= b <==> a * s <= b * s
  {
    Distribute(b, a, s);
    Distribute(a, b, s);
    if a < b {
      PositiveProduct(b - a, s);
    } else if b < a {
      PositiveProduct(a - b, s);
    }
  }

  lemma NegativeScale(k: real, s: real)
    ensures -k * s == -(k * s)
  {
  }

  /** A multiple is within `k` scales exactly when its factor is within `k`. */
  lemma Scaled(d: real, k: real, s: real, product: real, most: real)
    requires s > 0.0 && k >= 0.0 && product == d * s && most == k * s
    ensures Abs(product) <= most <==> -k <= d <= k
  {
    ScaledInOrder(d, k, s);
    ScaledInOrder(-k, d, s);
    NegativeScale(k, s);
  }

  /** A code `c` times the scale is within `k` scales of `x` scales exactly when `c` is within `k` of `x`. */
  lemma Off(c: real, x: real, s: real, v: real, u: real, k: real, most: real)
    requires s > 0.0 && k >= 0.0 && v == x * s && u == c * s && most == k * s
    ensures Abs(u - v) <= most <==> -k <= c - x <= k
  {
    Distribute(c, x, s);
    Scaled(c - x, k, s, u - v, most);
  }

  lemma ClampIdle(x: real)
    requires -7.0 <= x <= 7.0
    ensures Clamp(Round(x)) == Round(x)
  {
    hide Round;
    RoundsNear(x);
  }

  /** A weight no larger than seven scales is off by at most half a scale, and the clamp never acts on it. */
  lemma HalfScale(v: real, s: real)
    requires s > 0.0 && Abs(v) <= 7.0 * s
    ensures Code(v, s) == Round(v / s)
    ensures Abs(Code(v, s) as real * s - v) <= s / 2.0
  {
    hide Round, Clamp;
    DivBetween(v, s, 7.0);
    ClampIdle(v / s);
    RoundsNear(v / s);
    Quotient(v, s);
    Off(Round(v / s) as real, v / s, s, v, Round(v / s) as real * s, 0.5, s / 2.0);
  }

  // ---------------------------------------------------------------- a tensor

  /** `packed` holds two codes to a byte along each row; `scales` one scale for each group of inputs and channel. */
  datatype Q4 = Q4(packed: seq<Byte>, scales: seq<real>, inDim: nat, outDim: nat)

  ghost predicate Sized(inDim: nat, outDim: nat) {
    inDim % GROUP == 0 && outDim % 2 == 0
  }

  ghost predicate WellFormed(q: Q4) {
    && Sized(q.inDim, q.outDim)
    && |q.packed| == q.inDim * (q.outDim / 2) && |q.scales| == (q.inDim / GROUP) * q.outDim
    && forall x :: 0 <= x < |q.scales| ==> q.scales[x] > 0.0
  }

  lemma GroupOf(i: nat, inDim: nat)
    requires i < inDim && inDim % GROUP == 0
    ensures i / GROUP < inDim / GROUP
  {
  }

  lemma InGroup(g: nat, k: nat, inDim: nat)
    requires g < inDim / GROUP && k < GROUP && inDim % GROUP == 0
    ensures g * GROUP + k < inDim && (g * GROUP + k) / GROUP == g
  {
  }

  /** The largest magnitude among the first `k` weights of group `g` of channel `j`. */
  function GroupMax(values: seq<real>, inDim: nat, outDim: nat, g: nat, j: nat, k: nat): (m: real)
    requires |values| == inDim * outDim && inDim % GROUP == 0 && g < inDim / GROUP && j < outDim && k <= GROUP
    ensures m >= 0.0
  {
    if k == 0 then 0.0
    else
      var before := GroupMax(values, inDim, outDim, g, j, k - 1);
      InGroup(g, k - 1, inDim);
      var v := Abs(At(values, inDim, outDim, g * GROUP + (k - 1), j));
      if v > before then v else before
  }

  function ScaleOf(values: seq<real>, inDim: nat, outDim: nat, g: nat, j: nat): (s: real)
    requires |values| == inDim * outDim && inDim % GROUP == 0 && g < inDim / GROUP && j < outDim
    ensures s > 0.0
  {
    var m := GroupMax(values, inDim, outDim, g, j, GROUP);
    if m == 0.0 then 1.0 else m / 7.0
  }

  function CodeAt(values: seq<real>, inDim: nat, outDim: nat, i: nat, j: nat): (q: int)
    requires |values| == inDim * outDim && inDim % GROUP == 0 && i < inDim && j < outDim
    ensures -7 <= q <= 7
  {
    GroupOf(i, inDim);
    Code(At(values, inDim, outDim, i, j), ScaleOf(values, inDim, outDim, i / GROUP, j))
  }

  /** The code stored for row `i`, column `j`. */
  function StoredCode(q: Q4, i: nat, j: nat): int
    requires WellFormed(q) && i < q.inDim && j < q.outDim
  {
    var b := At(q.packed, q.inDim, q.outDim / 2, i, j / 2);
    Signed(if j % 2 == 0 then Low(b) else High(b))
  }

  function StoredScale(q: Q4, i: nat, j: nat): real
    requires WellFormed(q) && i < q.inDim && j < q.outDim
  {
    GroupOf(i, q.inDim);
    At(q.scales, q.inDim / GROUP, q.outDim, i / GROUP, j)
  }

  /** `q` stores the codes and scales of `values`. */
  ghost predicate Quantises(q: Q4, values: seq<real>) {
    && WellFormed(q) && |values| == q.inDim * q.outDim
    && (forall g, j :: 0 <= g < q.inDim / GROUP && 0 <= j < q.outDim ==>
          At(q.scales, q.inDim / GROUP, q.outDim, g, j) == ScaleOf(values, q.inDim, q.outDim, g, j))
    && (forall i, h :: 0 <= i < q.inDim && 0 <= h < q.outDim / 2 ==>
          At(q.packed, q.inDim, q.outDim / 2, i, h) == ByteOf(values, q.inDim, q.outDim, i, h))
  }

  /** The byte of row `i` that holds columns `2h` and `2h + 1`. */
  function ByteOf(values: seq<real>, inDim: nat, outDim: nat, i: nat, h: nat): Byte
    requires |values| == inDim * outDim && Sized(inDim, outDim) && i < inDim && h < outDim / 2
  {
    Pack(Nibble(CodeAt(values, inDim, outDim, i, 2 * h)), Nibble(CodeAt(values, inDim, outDim, i, 2 * h + 1)))
  }

  /** `w` is what `q` stands for. */
  ghost predicate Dequantises(q: Q4, w: seq<real>) {
    && WellFormed(q) && |w| == q.inDim * q.outDim
    && forall i, j :: 0 <= i < q.inDim && 0 <= j < q.outDim ==>
      At(w, q.inDim, q.outDim, i, j) == StoredCode(q, i, j) as real * StoredScale(q, i, j)
  }

  lemma {:induction false} GroupMaxBounds(values: seq<real>, inDim: nat, outDim: nat, g: nat, j: nat, k: nat, t: nat)
    requires |values| == inDim * outDim && inDim % GROUP == 0 && g < inDim / GROUP && j < outDim && t < k <= GROUP
    ensures g * GROUP + t < inDim
    ensures Abs(At(values, inDim, outDim, g * GROUP + t, j)) <= GroupMax(values, inDim, outDim, g, j, k)
    decreases k
  {
    InGroup(g, t, inDim);
    if t < k - 1 {
      GroupMaxBounds(values, inDim, outDim, g, j, k - 1, t);
    }
  }

  /** No weight exceeds seven of its group's scales. */
  lemma WithinSevenScales(values: seq<real>, inDim: nat, outDim: nat, i: nat, j: nat)
    requires |values| == inDim * outDim && inDim % GROUP == 0 && i < inDim && j < outDim
    ensures i / GROUP < inDim / GROUP
    ensures Abs(At(values, inDim, outDim, i, j)) <= 7.0 * ScaleOf(values, inDim, outDim, i / GROUP, j)
  {
    hide At, GroupMax;
    GroupOf(i, inDim);
    var g := i / GROUP;
    assert g * GROUP + i % GROUP == i;
    GroupMaxBounds(values, inDim, outDim, g, j, GROUP, i % GROUP);
  }

  lemma StoredIsCode(q: Q4, values: seq<real>, i: nat, j: nat)
    requires Quantises(q, values) && i < q.inDim && j < q.outDim
    ensures StoredCode(q, i, j) == CodeAt(values, q.inDim, q.outDim, i, j)
    ensures i / GROUP < q.inDim / GROUP
    ensures StoredScale(q, i, j) == ScaleOf(values, q.inDim, q.outDim, i / GROUP, j)
  {
    hide At, ScaleOf, CodeAt, Pack, Nibble, Low, High, Signed;
    GroupOf(i, q.inDim);
    var h := j / 2;
    assert j == 2 * h || j == 2 * h + 1;
    assert At(q.packed, q.inDim, q.outDim / 2, i, h) == ByteOf(values, q.inDim, q.outDim, i, h);
    CodesSurvive(CodeAt(values, q.inDim, q.outDim, i, 2 * h), CodeAt(values, q.inDim, q.outDim, i, 2 * h + 1));
  }

  /** Every weight comes back within half its group's scale. */
  lemma QuantisationError(q: Q4, values: seq<real>, w: seq<real>, i: nat, j: nat)
    requires Quantises(q, values) && Dequantises(q, w) && i < q.inDim && j < q.outDim
    ensures Abs(At(w, q.inDim, q.outDim, i, j) - At(values, q.inDim, q.outDim, i, j)) <= StoredScale(q, i, j) / 2.0
  {
    hide At, ScaleOf, StoredCode, StoredScale, Code, Abs;
    NearestComesBack(q, values, w, i, j);
  }

  // ---------------------------------------------------------------- quantising again

  /** Entry of group `g`, input `t` of the group, channel `j`. */
  function InGroupAt(values: seq<real>, inDim: nat, outDim: nat, g: nat, j: nat, t: nat): real
    requires |values| == inDim * outDim && inDim % GROUP == 0 && g < inDim / GROUP && j < outDim && t < GROUP
  {
    InGroup(g, t, inDim);
    At(values, inDim, outDim, g * GROUP + t, j)
  }

  lemma {:induction false} GroupMaxAttained(values: seq<real>, inDim: nat, outDim: nat, g: nat, j: nat, k: nat)
      returns (t: nat)
    requires |values| == inDim * outDim && inDim % GROUP == 0 && g < inDim / GROUP && j < outDim && k <= GROUP
    requires GroupMax(values, inDim, outDim, g, j, k) > 0.0
    ensures t < k && Abs(InGroupAt(values, inDim, outDim, g, j, t)) == GroupMax(values, inDim, outDim, g, j, k)
    decreases k
  {
    hide At;
    var before := GroupMax(values, inDim, outDim, g, j, k - 1);
    if Abs(InGroupAt(values, inDim, outDim, g, j, k - 1)) > before {
      t := k - 1;
    } else {
      t := GroupMaxAttained(values, inDim, outDim, g, j, k - 1);
    }
  }

  lemma {:induction false} GroupMaxLeast(values: seq<real>, inDim: nat, outDim: nat, g: nat, j: nat, k: nat, m: real)
    requires |values| == inDim * outDim && inDim % GROUP == 0 && g < inDim / GROUP && j < outDim && k <= GROUP
    requires m >= 0.0 && forall t :: 0 <= t < k ==> Abs(InGroupAt(values, inDim, outDim, g, j, t)) <= m
    ensures GroupMax(values, inDim, outDim, g, j, k) <= m
    decreases k
  {
    hide At;
    if k > 0 {
      GroupMaxLeast(values, inDim, outDim, g, j, k - 1, m);
      assert Abs(InGroupAt(values, inDim, outDim, g, j, k - 1)) <= m;
    }
  }

  lemma CodeOfWhole(c: int, s: real)
    requires s > 0.0 && -7 <= c <= 7
    ensures Code(c as real * s, s) == c
  {
    assert (c as real * s) / s == c as real;
    RoundsIntegers(c);
  }

  lemma AtMostSeven(c: int, s: real)
    requires s > 0.0 && -7 <= c <= 7
    ensures Abs(c as real * s) <= 7.0 * s
  {
    Scaled(c as real, 7.0, s, c as real * s, 7.0 * s);
  }

  /** The largest weight of a group takes an extreme code. */
  lemma ExtremeCode(v: real, s: real)
    requires s > 0.0 && Abs(v) == 7.0 * s
    ensures Abs(Code(v, s) as real * s) == 7.0 * s
  {
    if v >= 0.0 {
      CodeOfWhole(7, s);
    } else {
      CodeOfWhole(-7, s);
    }
  }

  /** What comes back for one place of a group. */
  lemma BackInGroup(q: Q4, values: seq<real>, w: seq<real>, g: nat, j: nat, t: nat)
    requires Quantises(q, values) && Dequantises(q, w) && g < q.inDim / GROUP && j < q.outDim && t < GROUP
    ensures var s := ScaleOf(values, q.inDim, q.outDim, g, j);
            InGroupAt(w, q.inDim, q.outDim, g, j, t)
            == Code(InGroupAt(values, q.inDim, q.outDim, g, j, t), s) as real * s
  {
    hide At, ScaleOf, StoredCode, StoredScale, Code;
    InGroup(g, t, q.inDim);
    var i := g * GROUP + t;
    StoredIsCode(q, values, i, j);
    assert At(w, q.inDim, q.outDim, i, j) == StoredCode(q, i, j) as real * StoredScale(q, i, j);
  }

  lemma SameScale(q: Q4, values: seq<real>, w: seq<real>, g: nat, j: nat)
    requires Quantises(q, values) && Dequantises(q, w) && g < q.inDim / GROUP && j < q.outDim
    ensures ScaleOf(w, q.inDim, q.outDim, g, j) == ScaleOf(values, q.inDim, q.outDim, g, j)
  {
    hide Quantises, Dequantises, WellFormed, GroupMax, InGroupAt, Code;
    Lengths(q, values, w);
    var s := ScaleOf(values, q.inDim, q.outDim, g, j);
    var m := GroupMax(values, q.inDim, q.outDim, g, j, GROUP);
    forall t | 0 <= t < GROUP
      ensures Abs(InGroupAt(w, q.inDim, q.outDim, g, j, t)) <= m
    {
      BackInGroup(q, values, w, g, j, t);
      AtMostSeven(Code(InGroupAt(values, q.inDim, q.outDim, g, j, t), s), s);
      if m == 0.0 {
        AllZero(values, q.inDim, q.outDim, g, j, t);
        CodeOfWhole(0, s);
      }
    }
    GroupMaxLeast(w, q.inDim, q.outDim, g, j, GROUP, m);
    if m > 0.0 {
      var t := GroupMaxAttained(values, q.inDim, q.outDim, g, j, GROUP);
      BackInGroup(q, values, w, g, j, t);
      ExtremeCode(InGroupAt(values, q.inDim, q.outDim, g, j, t), s);
      Bounded(w, q.inDim, q.outDim, g, j, t);
    }
  }

  lemma Lengths(q: Q4, values: seq<real>, w: seq<real>)
    requires Quantises(q, values) && Dequantises(q, w)
    ensures |values| == |w| == q.inDim * q.outDim && q.inDim % GROUP == 0
  {
  }

  lemma Bounded(values: seq<real>, inDim: nat, outDim: nat, g: nat, j: nat, t: nat)
    requires |values| == inDim * outDim && inDim % GROUP == 0 && g < inDim / GROUP && j < outDim && t < GROUP
    ensures Abs(InGroupAt(values, inDim, outDim, g, j, t)) <= GroupMax(values, inDim, outDim, g, j, GROUP)
  {
    GroupMaxBounds(values, inDim, outDim, g, j, GROUP, t);
  }

  lemma AllZero(values: seq<real>, inDim: nat, outDim: nat, g: nat, j: nat, t: nat)
    requires |values| == inDim * outDim && inDim % GROUP == 0 && g < inDim / GROUP && j < outDim && t < GROUP
    requires GroupMax(values, inDim, outDim, g, j, GROUP) == 0.0
    ensures InGroupAt(values, inDim, outDim, g, j, t) == 0.0
  {
    Bounded(values, inDim, outDim, g, j, t);
  }

  /** Quantising what came back stores the same codes and scales again. */
  lemma QuantiseAgain(q: Q4, values: seq<real>, w: seq<real>, again: Q4)
    requires Quantises(q, values) && Dequantises(q, w) && Quantises(again, w)
    requires again.inDim == q.inDim && again.outDim == q.outDim
    ensures again == q
  {
    hide At, ScaleOf, CodeAt, ByteOf;
    forall g, j | 0 <= g < q.inDim / GROUP && 0 <= j < q.outDim
      ensures At(again.scales, q.inDim / GROUP, q.outDim, g, j) == At(q.scales, q.inDim / GROUP, q.outDim, g, j)
    {
      SameScale(q, values, w, g, j);
    }
    forall i, h | 0 <= i < q.inDim && 0 <= h < q.outDim / 2
      ensures At(again.packed, q.inDim, q.outDim / 2, i, h) == At(q.packed, q.inDim, q.outDim / 2, i, h)
    {
      SameByte(q, values, w, i, h);
    }
    SameEntries(again.scales, q.scales, q.inDim / GROUP, q.outDim);
    SameEntries(again.packed, q.packed, q.inDim, q.outDim / 2);
  }

  lemma SameCode(q: Q4, values: seq<real>, w: seq<real>, i: nat, j: nat)
    requires Quantises(q, values) && Dequantises(q, w) && i < q.inDim && j < q.outDim
    ensures CodeAt(w, q.inDim, q.outDim, i, j) == CodeAt(values, q.inDim, q.outDim, i, j)
  {
    hide At, ScaleOf, StoredCode, StoredScale, Code;
    GroupOf(i, q.inDim);
    StoredIsCode(q, values, i, j);
    SameScale(q, values, w, i / GROUP, j);
    var c, s := CodeAt(values, q.inDim, q.outDim, i, j), ScaleOf(values, q.inDim, q.outDim, i / GROUP, j);
    CodeOfWhole(c, s);
    assert At(w, q.inDim, q.outDim, i, j) == StoredCode(q, i, j) as real * StoredScale(q, i, j) == c as real * s;
    assert CodeAt(w, q.inDim, q.outDim, i, j)
        == Code(At(w, q.inDim, q.outDim, i, j), ScaleOf(w, q.inDim, q.outDim, i / GROUP, j));
  }

  lemma SameByte(q: Q4, values: seq<real>, w: seq<real>, i: nat, h: nat)
    requires Quantises(q, values) && Dequantises(q, w) && i < q.inDim && h < q.outDim / 2
    ensures ByteOf(w, q.inDim, q.outDim, i, h) == ByteOf(values, q.inDim, q.outDim, i, h)
  {
    hide At, ScaleOf, Code;
    SameCode(q, values, w, i, 2 * h);
    SameCode(q, values, w, i, 2 * h + 1);
  }

  // ---------------------------------------------------------------- in numbers

  /** Rounding is to a nearest integer, and of two nearest to the one away from zero. */
  lemma RoundsHalvesAway(x: real)
    ensures -0.5 <= Round(x) as real - x <= 0.5
    ensures Abs(Round(x) as real - x) == 0.5 ==> Abs(Round(x) as real) == Abs(x) + 0.5
  {
  }

  /** The code of a weight within seven scales: nearest, ties away from zero. */
  lemma NearestCode(v: real, s: real, u: real)
    requires s > 0.0 && Abs(v) <= 7.0 * s && u == Code(v, s) as real * s
    ensures Abs(u - v) <= s / 2.0 && (Abs(u - v) == s / 2.0 ==> Abs(u) == Abs(v) + s / 2.0)
  {
    hide Round, Code, Abs;
    HalfScale(v, s);
    Quotient(v, s);
    RoundsHalvesAway(v / s);
    TieScaled(Code(v, s) as real, v / s, s, u, v);
  }

  lemma TieScaled(r: real, x: real, s: real, u: real, v: real)
    requires s > 0.0 && u == r * s && v == x * s
    requires Abs(r - x) == 0.5 ==> Abs(r) == Abs(x) + 0.5
    ensures Abs(u - v) == s / 2.0 ==> Abs(u) == Abs(v) + s / 2.0
  {
    hide Abs;
    Distribute(r, x, s);
    AbsScaled(r - x, s, u - v);
    AbsScaled(r, s, u);
    AbsScaled(x, s, v);
    if Abs(u - v) == s / 2.0 {
      Cancel(Abs(r - x), 0.5, s);
      HalfMore(Abs(r), Abs(x), s);
    }
  }

  lemma HalfMore(a: real, b: real, s: real)
    requires a == b + 0.5
    ensures a * s == b * s + s / 2.0
  {
    Distribute(a, b, s);
  }

  lemma AbsScaled(d: real, s: real, product: real)
    requires s > 0.0 && product == d * s
    ensures Abs(product) == Abs(d) * s
  {
    ScaledInOrder(d, 0.0, s);
    NegativeScale(d, s);
  }

  lemma Cancel(a: real, b: real, s: real)
    requires s > 0.0 && a * s == b * s
    ensures a == b
  {
    ScaledInOrder(a, b, s);
  }

  lemma PlaceBounds(q: Q4, values: seq<real>, i: nat, j: nat)
    requires Quantises(q, values) && i < q.inDim && j < q.outDim
    ensures i / 32 < q.inDim / 32 && i / 32 * q.outDim + j < |q.scales|
    ensures j / 2 < q.outDim / 2 && i * (q.outDim / 2) + j / 2 < |q.packed|
    ensures q.inDim % 32 == 0 && i * q.outDim + j < |values| == q.inDim * q.outDim
  {
    GroupOf(i, q.inDim);
    FlatBound(i / 32, j, q.inDim / 32, q.outDim);
    FlatBound(i, j / 2, q.inDim, q.outDim / 2);
    FlatBound(i, j, q.inDim, q.outDim);
  }

  /** The code, the scale and the weight of a place, by their positions in the lists. */
  lemma Places(q: Q4, values: seq<real>, i: nat, j: nat)
    requires Quantises(q, values) && i < q.inDim && j < q.outDim
    ensures i / 32 * q.outDim + j < |q.scales| && i * (q.outDim / 2) + j / 2 < |q.packed|
    ensures i * q.outDim + j < |values| == q.inDim * q.outDim
    ensures StoredScale(q, i, j) == q.scales[i / 32 * q.outDim + j]
    ensures At(values, q.inDim, q.outDim, i, j) == values[i * q.outDim + j]
    ensures
      var b := q.packed[i * (q.outDim / 2) + j / 2];
      var n: int := if j % 2 == 0 then b % 16 else b / 16;
      StoredCode(q, i, j) == if n < 8 then n else n - 16
  {
    PlaceBounds(q, values, i, j);
  }

  lemma ComesBack(q: Q4, w: seq<real>, i: nat, j: nat)
    requires Dequantises(q, w) && i < q.inDim && j < q.outDim
    ensures |w| == q.inDim * q.outDim
    ensures i * q.outDim + j < |w|
    ensures w[i * q.outDim + j] == At(w, q.inDim, q.outDim, i, j)
    ensures At(w, q.inDim, q.outDim, i, j) == StoredCode(q, i, j) as real * StoredScale(q, i, j)
  {
    FlatBound(i, j, q.inDim, q.outDim);
  }

  /** What comes back for a weight is the nearest multiple of its scale. */
  lemma NearestComesBack(q: Q4, values: seq<real>, w: seq<real>, i: nat, j: nat)
    requires Quantises(q, values) && Dequantises(q, w) && i < q.inDim && j < q.outDim
    ensures |values| == |w| == q.inDim * q.outDim
    ensures
      var (u, v, s) := (At(w, q.inDim, q.outDim, i, j), At(values, q.inDim, q.outDim, i, j), StoredScale(q, i, j));
      && Abs(v) <= 7.0 * s
      && Abs(u - v) <= s / 2.0 && (Abs(u - v) == s / 2.0 ==> Abs(u) == Abs(v) + s / 2.0)
  {
    hide At, ScaleOf, Code, Abs;
    StoredIsCode(q, values, i, j);
    WithinSevenScales(values, q.inDim, q.outDim, i, j);
    ComesBack(q, w, i, j);
    NearestCode(At(values, q.inDim, q.outDim, i, j), StoredScale(q, i, j), At(w, q.inDim, q.outDim, i, j));
    hide Quantises, Dequantises, StoredCode, StoredScale;
  }

  /** What is stored for a weight, in the tensor's own bytes and scales: half of one byte is a signed code whose
      multiple of one scale is nearest to the weight, ties away from zero; and that multiple is what comes back. */
  lemma StoredInNumbers(q: Q4, values: seq<real>, w: seq<real>, i: nat, j: nat)
    requires Quantises(q, values) && Dequantises(q, w) && i < q.inDim && j < q.outDim
    ensures i / 32 * q.outDim + j < |q.scales| && i * (q.outDim / 2) + j / 2 < |q.packed|
    ensures i * q.outDim + j < |values| == |w|
    ensures
      var (s, v) := (q.scales[i / 32 * q.outDim + j], values[i * q.outDim + j]);
      var b := q.packed[i * (q.outDim / 2) + j / 2];
      var n: int := if j % 2 == 0 then b % 16 else b / 16;
      var u := (if n < 8 then n else n - 16) as real * s;
      && w[i * q.outDim + j] == u && Abs(u - v) <= s / 2.0
      && (Abs(u - v) == s / 2.0 ==> Abs(u) == Abs(v) + s / 2.0)
  {
    hide Quantises, Dequantises, At, StoredCode, StoredScale, Abs;
    Places(q, values, i, j);
    NearestComesBack(q, values, w, i, j);
    ComesBack(q, w, i, j);
  }

  /** The scale of a group is tight: no weight exceeds seven scales, and unless the group is all zero, when its scale is
      1, some row `i` of it is seven scales in magnitude and comes back exactly. */
  lemma ScaleIsTight(q: Q4, values: seq<real>, w: seq<real>, g: nat, j: nat) returns (i: nat)
    requires Quantises(q, values) && Dequantises(q, w) && g < q.inDim / 32 && j < q.outDim
    ensures g * q.outDim + j < |q.scales| && |values| == |w| == q.inDim * q.outDim
    ensures var s := q.scales[g * q.outDim + j];
      if forall k :: 0 <= k < q.inDim && k / 32 == g ==> At(values, q.inDim, q.outDim, k, j) == 0.0
      then s == 1.0
      else
        && (forall k :: 0 <= k < q.inDim && k / 32 == g ==> Abs(At(values, q.inDim, q.outDim, k, j)) <= 7.0 * s)
        && i < q.inDim && i / 32 == g && Abs(At(values, q.inDim, q.outDim, i, j)) == 7.0 * s
        && At(w, q.inDim, q.outDim, i, j) == At(values, q.inDim, q.outDim, i, j)
  {
    hide Abs, Quantises, Dequantises, Code, ScaleOf, GroupMax, At, InGroupAt;
    Lengths(q, values, w);
    GroupBounds(q, values, g, j);
    var m := GroupMax(values, q.inDim, q.outDim, g, j, GROUP);
    var s := q.scales[g * q.outDim + j];
    ScaleSays(q, values, g, j);
    forall k | 0 <= k < q.inDim && k / 32 == g
      ensures Abs(At(values, q.inDim, q.outDim, k, j)) <= m
    {
      InGroupIs(values, q.inDim, q.outDim, g, j, k);
      Bounded(values, q.inDim, q.outDim, g, j, k % 32);
    }
    i := 0;
    if m > 0.0 {
      var t := GroupMaxAttained(values, q.inDim, q.outDim, g, j, GROUP);
      i := g * GROUP + t;
      InGroup(g, t, q.inDim);
      InGroupIs(values, q.inDim, q.outDim, g, j, i);
      BackInGroup(q, values, w, g, j, t);
      InGroupIs(w, q.inDim, q.outDim, g, j, i);
      ExtremeComesBack(At(values, q.inDim, q.outDim, i, j), s);
      assert At(values, q.inDim, q.outDim, i, j) != 0.0 by {
        AbsZero(At(values, q.inDim, q.outDim, i, j));
      }
    } else {
      forall k | 0 <= k < q.inDim && k / 32 == g
        ensures At(values, q.inDim, q.outDim, k, j) == 0.0
      {
        AbsZero(At(values, q.inDim, q.outDim, k, j));
      }
    }
  }

  lemma AbsZero(v: real)
    ensures Abs(v) >= 0.0 && (Abs(v) == 0.0 <==> v == 0.0)
  {
  }

  lemma GroupBounds(q: Q4, values: seq<real>, g: nat, j: nat)
    requires Quantises(q, values) && g < q.inDim / 32 && j < q.outDim
    ensures g * q.outDim + j < |q.scales|
  {
    FlatBound(g, j, q.inDim / 32, q.outDim);
  }

  lemma ScaleSays(q: Q4, values: seq<real>, g: nat, j: nat)
    requires Quantises(q, values) && g < q.inDim / 32 && j < q.outDim
    ensures |values| == q.inDim * q.outDim && q.inDim % 32 == 0 && g * q.outDim + j < |q.scales|
    ensures q.scales[g * q.outDim + j] == ScaleOf(values, q.inDim, q.outDim, g, j)
    ensures var (m, s) := (GroupMax(values, q.inDim, q.outDim, g, j, GROUP), q.scales[g * q.outDim + j]);
            m >= 0.0 && s > 0.0 && if m == 0.0 then s == 1.0 else m == 7.0 * s
  {
    GroupBounds(q, values, g, j);
    assert At(q.scales, q.inDim / GROUP, q.outDim, g, j) == ScaleOf(values, q.inDim, q.outDim, g, j);
  }

  lemma InGroupIs(values: seq<real>, inDim: nat, outDim: nat, g: nat, j: nat, i: nat)
    requires |values| == inDim * outDim && inDim % 32 == 0 && i < inDim && i / 32 == g && j < outDim
    ensures g < inDim / 32
    ensures InGroupAt(values, inDim, outDim, g, j, i % 32) == At(values, inDim, outDim, i, j)
  {
    assert g * 32 + i % 32 == i;
  }

  lemma ExtremeComesBack(v: real, s: real)
    requires s > 0.0 && Abs(v) == 7.0 * s
    ensures Code(v, s) as real * s == v
  {
    if v >= 0.0 {
      CodeOfWhole(7, s);
    } else {
      CodeOfWhole(-7, s);
    }
  }

  /** Every weight comes back within a fourteenth of the largest magnitude of its group. */
  lemma FourteenthOfLargest(q: Q4, values: seq<real>, w: seq<real>, i: nat, j: nat, m: real)
    requires Quantises(q, values) && Dequantises(q, w) && i < q.inDim && j < q.outDim && |values| == q.inDim * q.outDim
    requires forall k :: 0 <= k < q.inDim && k / 32 == i / 32 ==> Abs(At(values, q.inDim, q.outDim, k, j)) <= m
    ensures |w| == |values|
    ensures Abs(At(w, q.inDim, q.outDim, i, j) - At(values, q.inDim, q.outDim, i, j)) <= m / 14.0
  {
    hide Abs, Quantises, Dequantises, At, StoredCode, StoredScale;
    NearestComesBack(q, values, w, i, j);
    var g := i / 32;
    PlaceBounds(q, values, i, j);
    Places(q, values, i, j);
    var k := ScaleIsTight(q, values, w, g, j);
    if At(values, q.inDim, q.outDim, i, j) == 0.0 {
      ZeroComesBack(q, values, w, i, j);
      AbsZero(At(w, q.inDim, q.outDim, i, j));
      AbsZero(At(values, q.inDim, q.outDim, i, j));
    }
  }

  lemma ZeroComesBack(q: Q4, values: seq<real>, w: seq<real>, i: nat, j: nat)
    requires Quantises(q, values) && Dequantises(q, w) && i < q.inDim && j < q.outDim && |values| == q.inDim * q.outDim
    requires At(values, q.inDim, q.outDim, i, j) == 0.0
    ensures |w| == |values| && At(w, q.inDim, q.outDim, i, j) == 0.0
  {
    hide At, ScaleOf, Code;
    StoredIsCode(q, values, i, j);
    CodeOfWhole(0, StoredScale(q, i, j));
    ComesBack(q, w, i, j);
  }

  // ---------------------------------------------------------------- the loops

  /** The innermost loop over one group of one channel. */
  method GroupScale(values: seq<real>, inDim: nat, outDim: nat, g: nat, j: nat) returns (s: real)
    requires |values| == inDim * outDim && inDim % GROUP == 0 && g < inDim / GROUP && j < outDim
    ensures s == ScaleOf(values, inDim, outDim, g, j)
  {
    var maxAbs := 0.0;
    for k := 0 to GROUP
      invariant maxAbs == GroupMax(values, inDim, outDim, g, j, k)
    {
      InGroup(g, k, inDim);
      FlatBound(g * GROUP + k, j, inDim, outDim);
      var v := Abs(values[(g * GROUP + k) * outDim + j]);
      if v > maxAbs {
        maxAbs := v;
      }
    }
    return if maxAbs == 0.0 then 1.0 else maxAbs / 7.0;
  }

  /** Scale number `x` of the flat list. */
  function ScaleFlat(values: seq<real>, inDim: nat, outDim: nat, x: nat): real
    requires |values| == inDim * outDim && inDim % GROUP == 0 && x < (inDim / GROUP) * outDim
  {
    ScaleOf(values, inDim, outDim, RowOf(x, inDim / GROUP, outDim), ColOf(x, inDim / GROUP, outDim))
  }

  /** Byte number `x` of the flat list. */
  function ByteFlat(values: seq<real>, inDim: nat, outDim: nat, x: nat): Byte
    requires |values| == inDim * outDim && Sized(inDim, outDim) && x < inDim * (outDim / 2)
  {
    ByteOf(values, inDim, outDim, RowOf(x, inDim, outDim / 2), ColOf(x, inDim, outDim / 2))
  }

  method Scales(values: seq<real>, inDim: nat, outDim: nat) returns (scales: array<real>)
    requires |values| == inDim * outDim && inDim % GROUP == 0
    ensures fresh(scales) && scales.Length == (inDim / GROUP) * outDim
    ensures forall x :: 0 <= x < scales.Length ==> scales[x] == ScaleFlat(values, inDim, outDim, x)
  {
    hide ScaleOf;
    var groups := inDim / GROUP;
    scales := new real[groups * outDim](_ => 0.0);
    for g := 0 to groups
      invariant g * outDim <= scales.Length
      invariant forall x :: 0 <= x < g * outDim ==> scales[x] == ScaleFlat(values, inDim, outDim, x)
    {
      MulGap(g, groups, outDim);
      for j := 0 to outDim
        invariant forall x :: 0 <= x < g * outDim + j ==> scales[x] == ScaleFlat(values, inDim, outDim, x)
      {
        var s := GroupScale(values, inDim, outDim, g, j);
        FlatIndex(g, j, inDim / GROUP, outDim);
        scales[g * outDim + j] := s;
      }
      assert (g + 1) * outDim == g * outDim + outDim;
    }
  }

  /** The two nibbles of one byte. */
  method PackByte(values: seq<real>, scales: array<real>, inDim: nat, outDim: nat, i: nat, h: nat) returns (b: Byte)
    requires |values| == inDim * outDim && Sized(inDim, outDim) && i < inDim && h < outDim / 2
    requires scales.Length == (inDim / GROUP) * outDim
    requires forall x :: 0 <= x < scales.Length ==> scales[x] == ScaleFlat(values, inDim, outDim, x)
    ensures b == ByteOf(values, inDim, outDim, i, h)
  {
    hide ScaleOf, Pack, Nibble, Code;
    var j := 2 * h;
    var lo := CodeWith(values, scales, inDim, outDim, i, j);
    var hi := CodeWith(values, scales, inDim, outDim, i, j + 1);
    return Pack(Nibble(lo), Nibble(hi));
  }

  method CodeWith(values: seq<real>, scales: array<real>, inDim: nat, outDim: nat, i: nat, j: nat) returns (q: int)
    requires |values| == inDim * outDim && Sized(inDim, outDim) && i < inDim && j < outDim
    requires scales.Length == (inDim / GROUP) * outDim
    requires forall x :: 0 <= x < scales.Length ==> scales[x] == ScaleFlat(values, inDim, outDim, x)
    ensures q == CodeAt(values, inDim, outDim, i, j)
  {
    hide ScaleOf, Code;
    var g := i / GROUP;
    GroupOf(i, inDim);
    FlatBound(g, j, inDim / GROUP, outDim);
    FlatBound(i, j, inDim, outDim);
    FlatIndex(g, j, inDim / GROUP, outDim);
    assert scales[g * outDim + j] == ScaleFlat(values, inDim, outDim, g * outDim + j);
    q := Code(values[i * outDim + j], scales[g * outDim + j]);
  }

  method Packed(values: seq<real>, scales: array<real>, inDim: nat, outDim: nat) returns (packed: array<Byte>)
    requires |values| == inDim * outDim && Sized(inDim, outDim)
    requires scales.Length == (inDim / GROUP) * outDim
    requires forall x :: 0 <= x < scales.Length ==> scales[x] == ScaleFlat(values, inDim, outDim, x)
    ensures fresh(packed) && packed.Length == inDim * (outDim / 2)
    ensures forall x :: 0 <= x < packed.Length ==> packed[x] == ByteFlat(values, inDim, outDim, x)
  {
    hide ScaleFlat, ByteOf;
    var half := outDim / 2;
    packed := new Byte[inDim * half](_ => 0);
    for i := 0 to inDim
      invariant i * half <= packed.Length
      invariant forall x :: 0 <= x < i * half ==> packed[x] == ByteFlat(values, inDim, outDim, x)
    {
      MulGap(i, inDim, half);
      for h := 0 to half
        invariant forall x :: 0 <= x < i * half + h ==> packed[x] == ByteFlat(values, inDim, outDim, x)
      {
        var b := PackByte(values, scales, inDim, outDim, i, h);
        FlatIndex(i, h, inDim, half);
        packed[i * half + h] := b;
      }
      assert (i + 1) * half == i * half + half;
    }
  }

  /** The source aborts on shapes it cannot group or pack. */
  method QuantizeFrom(values: seq<real>, inDim: nat, outDim: nat) returns (q: Q4)
    requires |values| == inDim * outDim && Sized(inDim, outDim)
    ensures Quantises(q, values) && q.inDim == inDim && q.outDim == outDim
  {
    hide ScaleOf, ByteOf;
    var scales := Scales(values, inDim, outDim);
    var packed := Packed(values, scales, inDim, outDim);
    q := Q4(packed[..], scales[..], inDim, outDim);
    FromFlat(q, values);
  }

  lemma FromFlat(q: Q4, values: seq<real>)
    requires Sized(q.inDim, q.outDim) && |values| == q.inDim * q.outDim
    requires |q.packed| == q.inDim * (q.outDim / 2) && |q.scales| == (q.inDim / GROUP) * q.outDim
    requires forall x :: 0 <= x < |q.scales| ==> q.scales[x] == ScaleFlat(values, q.inDim, q.outDim, x)
    requires forall x :: 0 <= x < |q.packed| ==> q.packed[x] == ByteFlat(values, q.inDim, q.outDim, x)
    ensures Quantises(q, values)
  {
    hide ByteOf, GroupMax;
    forall g, j | 0 <= g < q.inDim / GROUP && 0 <= j < q.outDim
      ensures At(q.scales, q.inDim / GROUP, q.outDim, g, j) == ScaleOf(values, q.inDim, q.outDim, g, j)
    {
      FlatBound(g, j, q.inDim / GROUP, q.outDim);
      FlatIndex(g, j, q.inDim / GROUP, q.outDim);
    }
    forall i, h | 0 <= i < q.inDim && 0 <= h < q.outDim / 2
      ensures At(q.packed, q.inDim, q.outDim / 2, i, h) == ByteOf(values, q.inDim, q.outDim, i, h)
    {
      FlatBound(i, h, q.inDim, q.outDim / 2);
      FlatIndex(i, h, q.inDim, q.outDim / 2);
    }
  }

  function WeightAt(q: Q4, i: nat, j: nat): real
    requires WellFormed(q) && i < q.inDim && j < q.outDim
  {
    StoredCode(q, i, j) as real * StoredScale(q, i, j)
  }

  /** Weight number `x` of the flat list. */
  function WeightFlat(q: Q4, x: nat): real
    requires WellFormed(q) && x < q.inDim * q.outDim
  {
    WeightAt(q, RowOf(x, q.inDim, q.outDim), ColOf(x, q.inDim, q.outDim))
  }

  lemma WeightsFromFlat(q: Q4, w: seq<real>)
    requires WellFormed(q) && |w| == q.inDim * q.outDim
    requires forall x :: 0 <= x < |w| ==> w[x] == WeightFlat(q, x)
    ensures Dequantises(q, w)
  {
    hide StoredCode, StoredScale;
    forall i, j | 0 <= i < q.inDim && 0 <= j < q.outDim
      ensures At(w, q.inDim, q.outDim, i, j) == StoredCode(q, i, j) as real * StoredScale(q, i, j)
    {
      FlatBound(i, j, q.inDim, q.outDim);
      FlatIndex(i, j, q.inDim, q.outDim);
      assert w[i * q.outDim + j] == WeightFlat(q, i * q.outDim + j) == WeightAt(q, i, j);
    }
  }

  /** Where the two weights of a byte go. */
  lemma PairPlaced(q: Q4, i: nat, h: nat, at: nat)
    requires WellFormed(q) && i < q.inDim && h < q.outDim / 2 && at == i * q.outDim + 2 * h
    ensures at + 1 < q.inDim * q.outDim
    ensures WeightFlat(q, at) == WeightAt(q, i, 2 * h) && WeightFlat(q, at + 1) == WeightAt(q, i, 2 * h + 1)
  {
    hide WeightAt;
    FlatIndex(i, 2 * h, q.inDim, q.outDim);
    FlatIndex(i, 2 * h + 1, q.inDim, q.outDim);
  }

  method Dequantize(q: Q4) returns (w: array<real>)
    requires WellFormed(q)
    ensures fresh(w) && Dequantises(q, w[..])
  {
    hide WeightAt, WeightFlat, Dequantises;
    var n := q.outDim;
    w := new real[q.inDim * n](_ => 0.0);
    for i := 0 to q.inDim
      invariant i * n <= w.Length
      invariant forall x :: 0 <= x < i * n ==> w[x] == WeightFlat(q, x)
    {
      MulGap(i, q.inDim, n);
      for h := 0 to n / 2
        invariant forall x :: 0 <= x < i * n + 2 * h ==> w[x] == WeightFlat(q, x)
      {
        var at := i * n + 2 * h;
        var lo, hi := UnpackPair(q, i, h);
        PairPlaced(q, i, h, at);
        w[at] := lo;
        w[at + 1] := hi;
      }
      assert (i + 1) * n == i * n + n;
    }
    WeightsFromFlat(q, w[..]);
  }

  /** Both weights of one byte. */
  method UnpackPair(q: Q4, i: nat, h: nat) returns (lo: real, hi: real)
    requires WellFormed(q) && i < q.inDim && h < q.outDim / 2
    ensures lo == WeightAt(q, i, 2 * h) && hi == WeightAt(q, i, 2 * h + 1)
  {
    hide Low, High, Signed;
    var (n, half, g, j) := (q.outDim, q.outDim / 2, i / GROUP, 2 * h);
    GroupOf(i, q.inDim);
    FlatBound(i, h, q.inDim, half);
    FlatBound(g, j, q.inDim / GROUP, n);
    FlatBound(g, j + 1, q.inDim / GROUP, n);
    var b := q.packed[i * half + h];
    assert j / 2 == h && (j + 1) / 2 == h && j % 2 == 0 && (j + 1) % 2 == 1;
    lo := Signed(Low(b)) as real * q.scales[g * n + j];
    hi := Signed(High(b)) as real * q.scales[g * n + (j + 1)];
  }

  /** `transpose_2d` on the packed 8-bit codes: the entries move, nothing is rounded. */
  method Transpose(packed: seq<int>, r: nat, c: nat) returns (out: array<int>)
    requires |packed| == r * c
    ensures fresh(out) && out[..] == Transposed(packed, r, c)
  {
    hide Placed;
    out := new int[r * c](_ => 0);
    for i := 0 to r
      invariant forall a, b :: 0 <= a < i && 0 <= b < c ==> Placed(packed, out, r, c, a, b)
    {
      for j := 0 to c
        invariant forall a, b :: 0 <= a < i && 0 <= b < c ==> Placed(packed, out, r, c, a, b)
        invariant forall b :: 0 <= b < j ==> Placed(packed, out, r, c, i, b)
      {
        PutEntry(packed, out, r, c, i, j);
      }
    }
    AllPlaced(packed, out, r, c);
  }

  lemma AllPlaced(packed: seq<int>, out: array<int>, r: nat, c: nat)
    requires |packed| == r * c == out.Length
    requires forall a, b :: 0 <= a < r && 0 <= b < c ==> Placed(packed, out, r, c, a, b)
    ensures out[..] == Transposed(packed, r, c)
  {
    hide At;
    assert r * c == c * r;
    forall y | 0 <= y < c * r
      ensures out[y] == TransposedAt(packed, r, c, y)
    {
      FlatSplit(y, c, r);
      assert Placed(packed, out, r, c, ColOf(y, c, r), RowOf(y, c, r));
    }
  }

  ghost predicate Placed(packed: seq<int>, out: array<int>, r: nat, c: nat, i: nat, j: nat)
    requires |packed| == r * c == out.Length && i < r && j < c
    reads out
  {
    FlatBound(j, i, c, r);
    assert r * c == c * r;
    out[j * r + i] == At(packed, r, c, i, j)
  }

  method PutEntry(packed: seq<int>, out: array<int>, r: nat, c: nat, i: nat, j: nat)
    requires |packed| == r * c == out.Length && i < r && j < c
    modifies out
    ensures Placed(packed, out, r, c, i, j)
    ensures forall a, b :: 0 <= a < r && 0 <= b < c && old(Placed(packed, out, r, c, a, b)) ==>
      Placed(packed, out, r, c, a, b)
  {
    FlatBound(i, j, r, c);
    FlatBound(j, i, c, r);
    assert r * c == c * r;
    out[j * r + i] := packed[i * c + j];
    forall a, b | 0 <= a < r && 0 <= b < c && old(Placed(packed, out, r, c, a, b))
      ensures Placed(packed, out, r, c, a, b)
    {
      FlatIndex(b, a, c, r);
      FlatIndex(j, i, c, r);
    }
  }
}
