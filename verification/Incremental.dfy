/** Prefilling a prompt and decoding the rest token by token ends where one prefill over the whole list ends. */
module Incremental {
  import opened Basics
  import opened Causal
  import opened Attention
  import opened Transformers

  /** A decode batch of one row. */
  function Alone(blocks: seq<nat>, tok: nat, len: nat): Batch {
    Batch([blocks], [tok], [len], [len])
  }

  lemma AloneOk(g: Geometry, blocks: seq<nat>, tok: nat, len: nat)
    requires Covers(blocks, g, len + 1) && NoDup(blocks)
    ensures BatchOk(Alone(blocks, tok, len), g) && Apart(Alone(blocks, tok, len).tables)
  {
  }

  /** The pools after a prefill of the first `k` tokens and one decode step for each of the next ones up to `n`. */
  ghost function Fed(m: Model, g: Geometry, blocks: seq<nat>, pools: seq<Pool>, toks: seq<nat>, k: nat, n: nat)
      : (r: seq<Pool>)
    requires |pools| == m.nLayers && AllShaped(pools, g) && 0 < k <= n <= |toks| && NoDup(blocks)
    requires Covers(blocks, g, n)
    ensures |r| == m.nLayers && AllShaped(r, g)
    decreases n
  {
    if n == k then PrefillPools(m, g, blocks, toks[..k], pools, NoFault)
    else
      CoversShorter(blocks, g, n, n - 1);
      AloneOk(g, blocks, toks[n - 1], n - 1);
      DecodePools(m, g, Alone(blocks, toks[n - 1], n - 1), Fed(m, g, blocks, pools, toks, k, n - 1), NoFault)
  }

  lemma AfterPrefill(m: Model, g: Geometry, blocks: seq<nat>, pools: seq<Pool>, toks: seq<nat>)
    requires |pools| == m.nLayers && AllShaped(pools, g) && NoDup(blocks) && toks != []
    requires Covers(blocks, g, |toks|) && Covers(blocks, g, |toks| - 1)
    ensures var (front, n) := (toks[..|toks| - 1], |toks| - 1);
            var b := Alone(blocks, toks[n], n);
            BatchOk(b, g) && Continues(m, g, b, PrefillPools(m, g, blocks, front, pools, NoFault), 0, toks)
  {
    hide PrefillPools, Covers, Rows;
    var (front, n) := (toks[..|toks| - 1], |toks| - 1);
    AloneOk(g, blocks, toks[n], n);
    forall l | 0 <= l < m.nLayers
      ensures Logs(m, g, PrefillPools(m, g, blocks, front, pools, NoFault)[l], l, blocks, toks, n)
    {
      PrefillGathers(m, g, blocks, front, pools, l);
      assert toks[..n] == front[..n];
      RowsCausal(m, front, toks, l, n);
    }
  }

  /** Layer `l` after a whole prefill is the layer after a prefill of all but the last token, and one more row. */
  lemma PrefillLayerGrows(m: Model, g: Geometry, blocks: seq<nat>, pool: Pool, toks: seq<nat>, l: nat)
    requires Shaped(pool, g) && toks != [] && Covers(blocks, g, |toks|) && Covers(blocks, g, |toks| - 1)
    ensures var (front, n) := (toks[..|toks| - 1], |toks| - 1);
            PrefillLayer(m, g, blocks, toks, pool, l, None)
            == WriteRow(PrefillLayer(m, g, blocks, front, pool, l, None), g, blocks, n,
                        m.project(l, Act(m, toks, l, n), n))
  {
    hide Act, WriteRow, WriteRows, Covers;
    var (front, n) := (toks[..|toks| - 1], |toks| - 1);
    assert toks[..n] == front[..n];
    RowsCausal(m, front, toks, l, n);
    RowsSplit(m, toks, l, n);
    var rows := Rows(m, toks, l, n + 1);
    assert rows[..n + 1] == rows && rows[..n] == Rows(m, front, l, n) == Rows(m, front, l, n)[..n];
    WriteRowsStep(pool, g, blocks, 0, rows, n);
  }

  /** One decode step after a prefill leaves, in every layer, the pool that the longer prefill leaves, slot for slot. */
  lemma StepIsPrefill(m: Model, g: Geometry, blocks: seq<nat>, pools: seq<Pool>, toks: seq<nat>)
    requires |pools| == m.nLayers && AllShaped(pools, g) && NoDup(blocks) && toks != []
    requires Covers(blocks, g, |toks|) && Covers(blocks, g, |toks| - 1)
    ensures var (front, n) := (toks[..|toks| - 1], |toks| - 1);
            var b := Alone(blocks, toks[n], n);
            && BatchOk(b, g)
            && DecodePools(m, g, b, PrefillPools(m, g, blocks, front, pools, NoFault), NoFault)
               == PrefillPools(m, g, blocks, toks, pools, NoFault)
            && DecodeLogits(m, g, b, PrefillPools(m, g, blocks, front, pools, NoFault))[0] == Logits(m, toks)
  {
    hide Covers, DecodeXs, PrefillLayer, WriteRow, Continues, HeadEach, Act;
    var (front, n) := (toks[..|toks| - 1], |toks| - 1);
    var b := Alone(blocks, toks[n], n);
    AloneOk(g, blocks, toks[n], n);
    AfterPrefill(m, g, blocks, pools, toks);
    var before := PrefillPools(m, g, blocks, front, pools, NoFault);
    var after := PrefillPools(m, g, blocks, toks, pools, NoFault);
    DecodeIsCausal(m, g, b, before, 0, toks);
    forall l | 0 <= l < m.nLayers
      ensures DecodePools(m, g, b, before, NoFault)[l] == after[l]
    {
      DecodeXsCausal(m, g, b, before, toks, l, 0);
      PrefillLayerGrows(m, g, blocks, pools[l], toks, l);
      OneRowPool(before[l], g, b, DecodeNews(m, g, b, before, l));
    }
    assert DecodePools(m, g, b, before, NoFault) == after;
  }

  lemma OneRowPool(pool: Pool, g: Geometry, b: Batch, news: seq<Row>)
    requires Shaped(pool, g) && BatchOk(b, g) && |news| == |b.tables| == 1
    ensures LayerPool(pool, g, b, news, 1) == WriteRow(pool, g, b.tables[0], b.lens[0], news[0])
  {
    hide WriteRow;
    assert LayerPool(pool, g, b, news, 0) == pool;
  }

  /** Incremental equals one-shot, by induction over the decoded tokens: after any number of single-token steps every
      layer's pool is the pool of one causal prefill over the whole list, and so are the last position's logits. */
  lemma {:induction false} IncrementalIsOneShot(m: Model, g: Geometry, blocks: seq<nat>, pools: seq<Pool>,
                                                toks: seq<nat>, k: nat, n: nat)
    requires |pools| == m.nLayers && AllShaped(pools, g) && 0 < k <= n <= |toks| && NoDup(blocks)
    requires Covers(blocks, g, n) && Covers(blocks, g, n - 1)
    ensures Fed(m, g, blocks, pools, toks, k, n) == PrefillPools(m, g, blocks, toks[..n], pools, NoFault)
    ensures k < n ==>
      BatchOk(Alone(blocks, toks[n - 1], n - 1), g)
      && DecodeLogits(m, g, Alone(blocks, toks[n - 1], n - 1), Fed(m, g, blocks, pools, toks, k, n - 1))[0]
         == Logits(m, toks[..n])
    decreases n
  {
    hide Covers, PrefillPools, DecodePools, DecodeLogits, NoDup, BatchOk;
    if k < n {
      CoversShorter(blocks, g, n - 1, if n == 1 then 0 else n - 2);
      IncrementalIsOneShot(m, g, blocks, pools, toks, k, n - 1);
      assert toks[..n][..n - 1] == toks[..n - 1];
      StepIsPrefill(m, g, blocks, pools, toks[..n]);
    }
  }
}
