/**
 The decoder-only transformer that every engine in the repository runs, as a reference semantics.

 A `Model` carries the numerics (embedding, key/value projection with its norms and RoPE, softmax numerators, the
 output projection with the residuals and the feed-forward part, the LM head) as arbitrary functions; what is fixed
 here is the data flow: which rows a query sees, in which order, at which position. Attention is softmax over an
 additive mask: a key masked with minus infinity contributes the weight `exp(-inf) == 0`.

 `Act`, `Rows` and `Logits` are the contiguous, single-sequence, recompute-everything semantics that the paged engine
 and the distributed pipeline are proved to refine.
 */
module Causal {

  type Vec = seq<real>

  /** The key and the value that one token leaves in one layer. */
  datatype Row = Row(k: Vec, v: Vec)

  /** One entry of an additive attention mask: 0 or minus infinity. */
  datatype Mask = Zero | NegInf

  datatype Model = Model(
    nLayers: nat,
    width: nat,                                  // channels of the attention output, all heads together
    embed: nat -> Vec,                           // token id
    project: (nat, Vec, nat) -> Row,             // layer, activation, position
    weight: (nat, nat, Vec, nat, Vec) -> real,   // layer, channel, activation, position, key: exp of the scaled score
    value: (nat, nat, Vec) -> real,              // layer, channel, value row
    mix: (nat, Vec, Vec) -> Vec,                 // layer, activation, attention output
    head: Vec -> Vec)                            // final norm and LM head

  /** The softmax numerator of one key. */
  function Numerator(m: Model, li: nat, c: nat, x: Vec, p: nat, row: Row, mask: Mask): real {
    if mask.NegInf? then 0.0 else m.weight(li, c, x, p, row.k)
  }

  /** Sum over the keys of numerator times value: channel `c` of `softmax(scores) @ v` before normalisation. */
  function Weighted(m: Model, li: nat, c: nat, x: Vec, p: nat, rows: seq<Row>, mask: seq<Mask>): real
    requires |rows| == |mask|
  {
    if rows == [] then 0.0
    else
      var n := |rows| - 1;
      Weighted(m, li, c, x, p, rows[..n], mask[..n])
      + Numerator(m, li, c, x, p, rows[n], mask[n]) * m.value(li, c, rows[n].v)
  }

  /** Sum over the keys of the numerators: the softmax denominator. */
  function Total(m: Model, li: nat, c: nat, x: Vec, p: nat, rows: seq<Row>, mask: seq<Mask>): real
    requires |rows| == |mask|
  {
    if rows == [] then 0.0
    else
      var n := |rows| - 1;
      Total(m, li, c, x, p, rows[..n], mask[..n]) + Numerator(m, li, c, x, p, rows[n], mask[n])
  }

  function Ratio(a: real, b: real): real {
    if b == 0.0 then 0.0 else a / b
  }

  /** One query's attention output over `rows` under `mask`. */
  function Attend(m: Model, li: nat, x: Vec, p: nat, rows: seq<Row>, mask: seq<Mask>): (out: Vec)
    requires |rows| == |mask|
    ensures |out| == m.width
  {
    seq(m.width, c requires 0 <= c =>
      Ratio(Weighted(m, li, c, x, p, rows, mask), Total(m, li, c, x, p, rows, mask)))
  }

  /** Attention, then the rest of the layer. */
  function Block(m: Model, li: nat, x: Vec, p: nat, rows: seq<Row>, mask: seq<Mask>): Vec
    requires |rows| == |mask|
  {
    m.mix(li, x, Attend(m, li, x, p, rows, mask))
  }

  function AllZero(n: nat): seq<Mask> {
    seq(n, _ => Zero)
  }

  /** A layer in which the query sees exactly `rows`. */
  function BlockOver(m: Model, li: nat, x: Vec, p: nat, rows: seq<Row>): Vec {
    Block(m, li, x, p, rows, AllZero(|rows|))
  }

  /** The mask lets through exactly the first `n` keys. */
  ghost predicate OpensPrefix(mask: seq<Mask>, n: nat) {
    n <= |mask| && forall j :: 0 <= j < |mask| ==> (mask[j] == Zero <==> j < n)
  }

  lemma {:induction false} SumsDropMasked(m: Model, li: nat, c: nat, x: Vec, p: nat, rows: seq<Row>,
                                          mask: seq<Mask>, n: nat)
    requires |rows| == |mask| && OpensPrefix(mask, n)
    ensures Weighted(m, li, c, x, p, rows, mask) == Weighted(m, li, c, x, p, rows[..n], AllZero(n))
    ensures Total(m, li, c, x, p, rows, mask) == Total(m, li, c, x, p, rows[..n], AllZero(n))
  {
    if |rows| == n {
      assert rows[..n] == rows;
      assert mask == AllZero(n);
    } else {
      var k := |rows| - 1;
      SumsDropMasked(m, li, c, x, p, rows[..k], mask[..k], n);
      assert rows[..k][..n] == rows[..n];
    }
  }

  /** Minus-infinity masking is dropping: whatever the masked keys hold (padding zeros, rows of the future), the layer
      computes what it computes over the visible prefix alone. */
  lemma MaskIsPrefix(m: Model, li: nat, x: Vec, p: nat, rows: seq<Row>, mask: seq<Mask>, n: nat)
    requires |rows| == |mask| && OpensPrefix(mask, n)
    ensures Block(m, li, x, p, rows, mask) == BlockOver(m, li, x, p, rows[..n])
  {
    var a, b := Attend(m, li, x, p, rows, mask), Attend(m, li, x, p, rows[..n], AllZero(n));
    forall c | 0 <= c < m.width
      ensures a[c] == b[c]
    {
      SumsDropMasked(m, li, c, x, p, rows, mask, n);
    }
    assert a == b;
    assert |rows[..n]| == n;
  }

  // ---------------------------------------------------------------------------------------------------------------
  // Causal recompute-everything semantics

  /** Activation that enters layer `li` at position `p` of the token list. */
  function Act(m: Model, toks: seq<nat>, li: nat, p: nat): Vec
    requires p < |toks|
    decreases li, 0
  {
    if li == 0 then m.embed(toks[p])
    else BlockOver(m, li - 1, Act(m, toks, li - 1, p), p, Rows(m, toks, li - 1, p + 1))
  }

  /** Key/value rows of layer `li` for positions `0..n`. */
  function Rows(m: Model, toks: seq<nat>, li: nat, n: nat): (rows: seq<Row>)
    requires n <= |toks|
    ensures |rows| == n
    decreases li, 1
  {
    seq(n, q requires 0 <= q < n => m.project(li, Act(m, toks, li, q), q))
  }

  /** Logits of the last position. */
  function Logits(m: Model, toks: seq<nat>): Vec
    requires toks != []
  {
    m.head(Act(m, toks, m.nLayers, |toks| - 1))
  }

  /** Causality: what happens at position `p` depends on the tokens up to `p` only. */
  lemma {:induction false} ActCausal(m: Model, a: seq<nat>, b: seq<nat>, li: nat, p: nat)
    requires p < |a| && p < |b| && a[..p + 1] == b[..p + 1]
    ensures Act(m, a, li, p) == Act(m, b, li, p)
    decreases li, 0
  {
    assert a[p] == a[..p + 1][p] == b[..p + 1][p] == b[p];
    if li > 0 {
      ActCausal(m, a, b, li - 1, p);
      RowsCausal(m, a, b, li - 1, p + 1);
    }
  }

  lemma {:induction false} RowsCausal(m: Model, a: seq<nat>, b: seq<nat>, li: nat, n: nat)
    requires n <= |a| && n <= |b| && a[..n] == b[..n]
    ensures Rows(m, a, li, n) == Rows(m, b, li, n)
    decreases li, 1
  {
    forall q | 0 <= q < n
      ensures Rows(m, a, li, n)[q] == Rows(m, b, li, n)[q]
    {
      assert a[..q + 1] == a[..n][..q + 1] == b[..n][..q + 1] == b[..q + 1];
      ActCausal(m, a, b, li, q);
    }
  }

  /** The rows of a longer token list extend those of its prefix by one projection per new token. */
  lemma RowsSplit(m: Model, toks: seq<nat>, li: nat, n: nat)
    requires n < |toks|
    ensures Rows(m, toks, li, n + 1) == Rows(m, toks, li, n) + [m.project(li, Act(m, toks, li, n), n)]
  {
  }
}
