/**
 What one attention layer computes: the weighted mean of the value rows a query sees, with the keys' weights. The
 statements speak of the rows, the mask and the model's numerics alone, so they hold of every engine that is proved to
 compute `Attend`.
 */
module Softmax {
  import opened Causal

  function Sum(s: seq<real>): real {
    if s == [] then 0.0 else Sum(s[..|s| - 1]) + s[|s| - 1]
  }

  /** No visible key has a negative weight and some visible key has a positive one, as with `exp` of any score. */
  ghost predicate Sees(m: Model, li: nat, c: nat, x: Vec, p: nat, rows: seq<Row>, mask: seq<Mask>) {
    && |rows| == |mask|
    && (forall j :: 0 <= j < |rows| && mask[j] == Zero ==> m.weight(li, c, x, p, rows[j].k) >= 0.0)
    && exists j :: 0 <= j < |rows| && mask[j] == Zero && m.weight(li, c, x, p, rows[j].k) > 0.0
  }

  lemma {:induction false} TotalNonNegative(m: Model, li: nat, c: nat, x: Vec, p: nat, rows: seq<Row>,
                                            mask: seq<Mask>)
    requires |rows| == |mask|
    requires forall j :: 0 <= j < |rows| && mask[j] == Zero ==> m.weight(li, c, x, p, rows[j].k) >= 0.0
    ensures Total(m, li, c, x, p, rows, mask) >= 0.0
    ensures Sees(m, li, c, x, p, rows, mask) ==> Total(m, li, c, x, p, rows, mask) > 0.0
  {
    if rows != [] {
      var n := |rows| - 1;
      TotalNonNegative(m, li, c, x, p, rows[..n], mask[..n]);
      if Sees(m, li, c, x, p, rows, mask) && !(mask[n] == Zero && m.weight(li, c, x, p, rows[n].k) > 0.0) {
        var j :| 0 <= j < |rows| && mask[j] == Zero && m.weight(li, c, x, p, rows[j].k) > 0.0;
        assert rows[..n][j] == rows[j] && mask[..n][j] == mask[j];
      }
    }
  }

  lemma SumsStep(m: Model, li: nat, c: nat, x: Vec, p: nat, rows: seq<Row>, mask: seq<Mask>)
    requires |rows| == |mask| > 0
    ensures var n := |rows| - 1;
            var w := if mask[n] == Zero then m.weight(li, c, x, p, rows[n].k) else 0.0;
            && Weighted(m, li, c, x, p, rows, mask)
               == Weighted(m, li, c, x, p, rows[..n], mask[..n]) + w * m.value(li, c, rows[n].v)
            && Total(m, li, c, x, p, rows, mask) == Total(m, li, c, x, p, rows[..n], mask[..n]) + w
  {
  }

  /** How far a value row is from `y`, times its key's weight. */
  function Deviation(m: Model, li: nat, c: nat, x: Vec, p: nat, row: Row, mask: Mask, y: real): real {
    if mask == NegInf then 0.0 else m.weight(li, c, x, p, row.k) * (m.value(li, c, row.v) - y)
  }

  function Deviations(m: Model, li: nat, c: nat, x: Vec, p: nat, rows: seq<Row>, mask: seq<Mask>, y: real)
      : (dev: seq<real>)
    requires |rows| == |mask|
    ensures |dev| == |rows|
    ensures forall j :: 0 <= j < |rows| ==> dev[j] == Deviation(m, li, c, x, p, rows[j], mask[j], y)
  {
    seq(|rows|, j requires 0 <= j < |rows| => Deviation(m, li, c, x, p, rows[j], mask[j], y))
  }

  lemma DeviationsStep(m: Model, li: nat, c: nat, x: Vec, p: nat, rows: seq<Row>, mask: seq<Mask>, y: real)
    requires |rows| == |mask| > 0
    ensures var n := |rows| - 1;
            Sum(Deviations(m, li, c, x, p, rows, mask, y))
            == Sum(Deviations(m, li, c, x, p, rows[..n], mask[..n], y))
               + Deviation(m, li, c, x, p, rows[n], mask[n], y)
  {
    hide Deviation;
    var (n, dev) := (|rows| - 1, Deviations(m, li, c, x, p, rows, mask, y));
    assert dev[..n] == Deviations(m, li, c, x, p, rows[..n], mask[..n], y);
  }

  /** One more key adds its deviation to both sides. */
  lemma OneDeviation(m: Model, li: nat, c: nat, x: Vec, p: nat, rows: seq<Row>, mask: seq<Mask>, y: real,
                     before: real, last: real, sum: real, total: real, s: real, t: real)
    requires |rows| == |mask| > 0
    requires sum == Weighted(m, li, c, x, p, rows, mask) && total == Total(m, li, c, x, p, rows, mask)
    requires var n := |rows| - 1;
             && s == Weighted(m, li, c, x, p, rows[..n], mask[..n]) && t == Total(m, li, c, x, p, rows[..n], mask[..n])
             && before == s - t * y && last == Deviation(m, li, c, x, p, rows[n], mask[n], y)
    ensures before + last == sum - total * y
  {
    var n := |rows| - 1;
    SumsStep(m, li, c, x, p, rows, mask);
    hide Weighted, Total;
    var (w, v) := (if mask[n] == Zero then m.weight(li, c, x, p, rows[n].k) else 0.0, m.value(li, c, rows[n].v));
    Spread(t, w, v, y);
    assert total == t + w;
  }

  lemma Spread(t: real, w: real, v: real, y: real)
    ensures (t + w) * y == t * y + w * y && w * (v - y) == w * v - w * y
  {
  }

  /** The deviations from `y` add up to the weighted sum less `y` times the total. */
  lemma {:induction false} DeviationsAddUp(m: Model, li: nat, c: nat, x: Vec, p: nat, rows: seq<Row>, mask: seq<Mask>,
                                           y: real, sum: real, total: real)
    requires |rows| == |mask|
    requires sum == Weighted(m, li, c, x, p, rows, mask) && total == Total(m, li, c, x, p, rows, mask)
    ensures Sum(Deviations(m, li, c, x, p, rows, mask, y)) == sum - total * y
  {
    if rows != [] {
      var n := |rows| - 1;
      DeviationsStep(m, li, c, x, p, rows, mask, y);
      hide Weighted, Total, Sum, Deviations, Deviation;
      var (s, t) := (Weighted(m, li, c, x, p, rows[..n], mask[..n]), Total(m, li, c, x, p, rows[..n], mask[..n]));
      DeviationsAddUp(m, li, c, x, p, rows[..n], mask[..n], y, s, t);
      OneDeviation(m, li, c, x, p, rows, mask, y, Sum(Deviations(m, li, c, x, p, rows[..n], mask[..n], y)),
                   Deviation(m, li, c, x, p, rows[n], mask[n], y), sum, total, s, t);
    }
  }

  /** Attention is the mean under the keys' weights, and nothing else is: the deviations of the visible value rows from
      it cancel, and they cancel for no other number. */
  lemma AttentionBalances(m: Model, li: nat, c: nat, x: Vec, p: nat, rows: seq<Row>, mask: seq<Mask>, y: real)
    requires c < m.width && Sees(m, li, c, x, p, rows, mask)
    ensures Sum(Deviations(m, li, c, x, p, rows, mask, y)) == 0.0 <==> Attend(m, li, x, p, rows, mask)[c] == y
  {
    hide Weighted, Total, Ratio, Sum;
    TotalNonNegative(m, li, c, x, p, rows, mask);
    var (sum, total) := (Weighted(m, li, c, x, p, rows, mask), Total(m, li, c, x, p, rows, mask));
    DeviationsAddUp(m, li, c, x, p, rows, mask, y, sum, total);
    hide Sees;
    RatioIs(sum, total, y);
  }

  lemma RatioIs(a: real, b: real, y: real)
    requires b > 0.0
    ensures a - b * y == 0.0 <==> Ratio(a, b) == y
  {
    assert Ratio(a, b) * b == a;
    if a == b * y {
      assert (Ratio(a, b) - y) * b == 0.0;
    }
  }

  lemma {:induction false} SumSign(s: seq<real>, up: bool)
    requires forall j :: 0 <= j < |s| ==> if up then s[j] >= 0.0 else s[j] <= 0.0
    ensures if up then Sum(s) >= 0.0 else Sum(s) <= 0.0
  {
    if s != [] {
      SumSign(s[..|s| - 1], up);
    }
  }

  lemma ProductSign(w: real, d: real)
    requires w >= 0.0
    ensures (d >= 0.0 ==> w * d >= 0.0) && (d <= 0.0 ==> w * d <= 0.0)
  {
  }

  /** A number on one side of all visible values is on that side of their mean. */
  lemma DeviationsSign(m: Model, li: nat, c: nat, x: Vec, p: nat, rows: seq<Row>, mask: seq<Mask>, y: real, up: bool)
    requires Sees(m, li, c, x, p, rows, mask)
    requires forall j :: 0 <= j < |rows| && mask[j] == Zero ==>
      if up then y <= m.value(li, c, rows[j].v) else m.value(li, c, rows[j].v) <= y
    ensures var s := Sum(Deviations(m, li, c, x, p, rows, mask, y)); if up then s >= 0.0 else s <= 0.0
  {
    var dev := Deviations(m, li, c, x, p, rows, mask, y);
    forall j | 0 <= j < |rows|
      ensures if up then dev[j] >= 0.0 else dev[j] <= 0.0
    {
      if mask[j] == Zero {
        ProductSign(m.weight(li, c, x, p, rows[j].k), m.value(li, c, rows[j].v) - y);
      }
    }
    SumSign(dev, up);
  }

  lemma Ordered(u: real, v: real, b: real)
    requires b > 0.0 && u < v
    ensures u * b < v * b
  {
  }

  /** Each channel of the output lies between any two bounds that hold the visible value rows. */
  lemma AttentionBetween(m: Model, li: nat, c: nat, x: Vec, p: nat, rows: seq<Row>, mask: seq<Mask>, lo: real,
                         hi: real)
    requires c < m.width && Sees(m, li, c, x, p, rows, mask)
    requires forall j :: 0 <= j < |rows| && mask[j] == Zero ==> lo <= m.value(li, c, rows[j].v) <= hi
    ensures lo <= Attend(m, li, x, p, rows, mask)[c] <= hi
  {
    hide Weighted, Total, Sum, Ratio;
    TotalNonNegative(m, li, c, x, p, rows, mask);
    DeviationsSign(m, li, c, x, p, rows, mask, lo, true);
    DeviationsSign(m, li, c, x, p, rows, mask, hi, false);
    var (sum, total) := (Weighted(m, li, c, x, p, rows, mask), Total(m, li, c, x, p, rows, mask));
    DeviationsAddUp(m, li, c, x, p, rows, mask, lo, sum, total);
    DeviationsAddUp(m, li, c, x, p, rows, mask, hi, sum, total);
    hide Sees;
    RatioBetween(sum, total, lo, hi);
  }

  lemma RatioBetween(a: real, b: real, lo: real, hi: real)
    requires b > 0.0 && a - b * lo >= 0.0 && a - b * hi <= 0.0
    ensures lo <= Ratio(a, b) <= hi
  {
    var r := Ratio(a, b);
    RatioIs(a, b, r);
    if r < lo {
      Ordered(r, lo, b);
    } else if hi < r {
      Ordered(hi, r, b);
    }
  }

  /** A query that sees one row gets that row's value, whatever the key. */
  lemma AttentionOfOne(m: Model, li: nat, c: nat, x: Vec, p: nat, rows: seq<Row>, mask: seq<Mask>, j: nat)
    requires c < m.width && |rows| == |mask| && j < |rows| && m.weight(li, c, x, p, rows[j].k) > 0.0
    requires forall i :: 0 <= i < |rows| ==> (mask[i] == Zero <==> i == j)
    ensures Attend(m, li, x, p, rows, mask)[c] == m.value(li, c, rows[j].v)
  {
    var v := m.value(li, c, rows[j].v);
    AttentionBetween(m, li, c, x, p, rows, mask, v, v);
  }

  // ---------------------------------------------------------------- order

  /** Each key with its mask entry. */
  function Pairs(rows: seq<Row>, mask: seq<Mask>): (s: seq<(Row, Mask)>)
    requires |rows| == |mask|
    ensures |s| == |rows| && forall j :: 0 <= j < |s| ==> s[j] == (rows[j], mask[j])
  {
    seq(|rows|, j requires 0 <= j < |rows| => (rows[j], mask[j]))
  }

  function SumOf<T>(s: seq<T>, f: T -> real): real {
    if s == [] then 0.0 else SumOf(s[..|s| - 1], f) + f(s[|s| - 1])
  }

  lemma {:induction false} SumWithout<T>(s: seq<T>, f: T -> real, i: nat)
    requires i < |s|
    ensures SumOf(s, f) == SumOf(s[..i] + s[i + 1..], f) + f(s[i])
  {
    var n, less := |s| - 1, s[..i] + s[i + 1..];
    if i == n {
      assert less == s[..n];
    } else {
      SumWithout(s[..n], f, i);
      assert less[..n - 1] == s[..n][..i] + s[..n][i + 1..];
    }
  }

  lemma SameWithout<T(!new)>(a: seq<T>, b: seq<T>, i: nat)
    requires a != [] && multiset(a) == multiset(b) && i < |b| && b[i] == a[|a| - 1]
    ensures multiset(a[..|a| - 1]) == multiset(b[..i] + b[i + 1..])
  {
    var (n, less, x) := (|a| - 1, b[..i] + b[i + 1..], b[i]);
    assert multiset(a) == multiset(a[..n]) + multiset{x} by {
      assert a == a[..n] + [x];
    }
    assert multiset(b) == multiset(less) + multiset{x} by {
      assert b == b[..i] + [x] + b[i + 1..];
    }
    assert multiset(a[..n]) == multiset(a) - multiset{x};
  }

  lemma {:induction false} SumPermutes<T(!new)>(a: seq<T>, b: seq<T>, f: T -> real)
    requires multiset(a) == multiset(b)
    ensures SumOf(a, f) == SumOf(b, f)
    decreases |a|
  {
    assert |a| == |multiset(a)| == |multiset(b)| == |b|;
    if a != [] {
      var n := |a| - 1;
      assert a[n] in multiset(b);
      var i :| 0 <= i < |b| && b[i] == a[n];
      SumWithout(b, f, i);
      SameWithout(a, b, i);
      SumPermutes(a[..n], b[..i] + b[i + 1..], f);
    }
  }

  lemma {:induction false} SumsOfPairs(m: Model, li: nat, c: nat, x: Vec, p: nat, rows: seq<Row>, mask: seq<Mask>,
                                       w: ((Row, Mask)) -> real, wv: ((Row, Mask)) -> real)
    requires |rows| == |mask|
    requires forall e :: w(e) == Numerator(m, li, c, x, p, e.0, e.1)
    requires forall e :: wv(e) == Numerator(m, li, c, x, p, e.0, e.1) * m.value(li, c, e.0.v)
    ensures Total(m, li, c, x, p, rows, mask) == SumOf(Pairs(rows, mask), w)
    ensures Weighted(m, li, c, x, p, rows, mask) == SumOf(Pairs(rows, mask), wv)
  {
    if rows != [] {
      var n := |rows| - 1;
      SumsOfPairs(m, li, c, x, p, rows[..n], mask[..n], w, wv);
      assert Pairs(rows, mask)[..n] == Pairs(rows[..n], mask[..n]);
    }
  }

  /** Attention does not see the order of the cache: permuting the rows together with their mask changes nothing. */
  lemma AttentionPermutes(m: Model, li: nat, x: Vec, p: nat, a: seq<Row>, am: seq<Mask>, b: seq<Row>, bm: seq<Mask>)
    requires |a| == |am| && |b| == |bm| && multiset(Pairs(a, am)) == multiset(Pairs(b, bm))
    ensures Attend(m, li, x, p, a, am) == Attend(m, li, x, p, b, bm)
  {
    var u, v := Attend(m, li, x, p, a, am), Attend(m, li, x, p, b, bm);
    forall c | 0 <= c < m.width
      ensures u[c] == v[c]
    {
      var w := (e: (Row, Mask)) => Numerator(m, li, c, x, p, e.0, e.1);
      var wv := (e: (Row, Mask)) => Numerator(m, li, c, x, p, e.0, e.1) * m.value(li, c, e.0.v);
      SumsOfPairs(m, li, c, x, p, a, am, w, wv);
      SumsOfPairs(m, li, c, x, p, b, bm, w, wv);
      SumPermutes(Pairs(a, am), Pairs(b, bm), w);
      SumPermutes(Pairs(a, am), Pairs(b, bm), wv);
    }
    assert u == v;
  }

  // ---------------------------------------------------------------- whole passes

  /** One layer over two tokens, spelled out: the second token's query weighs the values of both positions by their
      keys, and each position is projected from its own embedding. */
  lemma TwoTokens(m: Model, a: nat, b: nat)
    requires m.nLayers == 1
    requires forall c: nat, row: Row :: c < m.width ==> m.weight(0, c, m.embed(b), 1, row.k) > 0.0
    ensures
      var (x, first, second) := (m.embed(b), m.project(0, m.embed(a), 0), m.project(0, m.embed(b), 1));
      Logits(m, [a, b]) == m.head(m.mix(0, x, seq(m.width, c requires 0 <= c < m.width =>
        var (w0, w1) := (m.weight(0, c, x, 1, first.k), m.weight(0, c, x, 1, second.k));
        (w0 * m.value(0, c, first.v) + w1 * m.value(0, c, second.v)) / (w0 + w1))))
  {
    var (x, first, second) := (m.embed(b), m.project(0, m.embed(a), 0), m.project(0, m.embed(b), 1));
    var mean := seq(m.width, c requires 0 <= c < m.width =>
      var (w0, w1) := (m.weight(0, c, x, 1, first.k), m.weight(0, c, x, 1, second.k));
      (w0 * m.value(0, c, first.v) + w1 * m.value(0, c, second.v)) / (w0 + w1));
    var out := Attend(m, 0, x, 1, [first, second], [Zero, Zero]);
    forall c | 0 <= c < m.width
      ensures mean[c] == out[c]
    {
      TwoRows(m, 0, c, x, 1, first, second);
    }
    assert mean == out;
    assert Act(m, [a, b], 0, 0) == m.embed(a) && Act(m, [a, b], 0, 1) == x;
    assert Rows(m, [a, b], 0, 2) == [first, second];
    assert AllZero(2) == [Zero, Zero];
  }

  lemma TwoRows(m: Model, li: nat, c: nat, x: Vec, p: nat, first: Row, second: Row)
    requires c < m.width
    requires m.weight(li, c, x, p, first.k) + m.weight(li, c, x, p, second.k) != 0.0
    ensures
      var (w0, w1) := (m.weight(li, c, x, p, first.k), m.weight(li, c, x, p, second.k));
      Attend(m, li, x, p, [first, second], [Zero, Zero])[c]
      == (w0 * m.value(li, c, first.v) + w1 * m.value(li, c, second.v)) / (w0 + w1)
  {
    assert [first, second][..1] == [first] && [Zero, Zero][..1] == [Zero];
    assert [first][..0] == [] && [Zero][..0] == [];
    assert Weighted(m, li, c, x, p, [first], [Zero])
      == Weighted(m, li, c, x, p, [], []) + m.weight(li, c, x, p, first.k) * m.value(li, c, first.v);
    assert Total(m, li, c, x, p, [first], [Zero]) == m.weight(li, c, x, p, first.k);
  }

  /** A text of one token: every layer mixes the activation with that token's own value row of that layer. */
  lemma LoneToken(m: Model, a: nat, li: nat)
    requires forall c: nat, row: Row :: c < m.width ==> m.weight(li, c, Act(m, [a], li, 0), 0, row.k) > 0.0
    ensures
      var x := Act(m, [a], li, 0);
      Act(m, [a], li + 1, 0) == m.mix(li, x, seq(m.width, c requires 0 <= c =>
        m.value(li, c, m.project(li, x, 0).v)))
  {
    var x := Act(m, [a], li, 0);
    var row := m.project(li, x, 0);
    var own := seq(m.width, c requires 0 <= c => m.value(li, c, m.project(li, x, 0).v));
    var out := Attend(m, li, x, 0, [row], [Zero]);
    forall c | 0 <= c < m.width
      ensures own[c] == out[c]
    {
      AttentionOfOne(m, li, c, x, 0, [row], [Zero], 0);
    }
    assert own == out;
    assert Rows(m, [a], li, 1) == [row];
    assert AllZero(1) == [Zero];
  }
}
