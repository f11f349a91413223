/**
 The forward stack over paged storage: `prefill_seq` (a whole prompt at once) and `decode_step` (one token for each
 row of a batch).

 Each method is proved against a description of what it does to the pools on every input, including the inputs on
 which the device fails half way. `DecodeIsCausal` then says what a batch whose tables hold the rows of causal token
 lists computes: each row's own causal logits, independent of the rows it is batched with.
 */
module Transformers {
  import opened Causal
  import opened Basics
  import opened BlockTables
  import opened Attention

  /** Where the device fails: in a layer at the `row`-th write, before its key is stored or (`half`) between its key and
      its value, or after the last write. Layer `nLayers`, row 0 stands for the final norm and the LM head. */
  datatype Fault = NoFault | FaultAt(layer: nat, row: nat, half: bool)

  predicate Strikes(fault: Fault, nLayers: nat, rows: nat) {
    fault.FaultAt? && ((fault.layer < nLayers && fault.row <= rows) || (fault.layer == nLayers && fault.row == 0))
  }

  /** The failure strikes in layer `li`. */
  function SlipAt(fault: Fault, li: nat): Option<Slip> {
    if fault.FaultAt? && fault.layer == li then Some(Slip(fault.row, fault.half)) else None
  }

  /** How far the writes of layer `li` get: before the failing layer all the way, after it not at all. */
  function SlipIn(fault: Fault, nLayers: nat, rows: nat, li: nat): Option<Slip> {
    if !Strikes(fault, nLayers, rows) || li < fault.layer then None
    else if li == fault.layer then SlipAt(fault, li)
    else Some(Slip(0, false))
  }

  /** All `rows` rows get written and the layer goes on. */
  predicate Passes(slip: Option<Slip>, rows: nat) {
    slip.None? || slip.value.at > rows
  }

  ghost predicate AllShaped(pools: seq<Pool>, g: Geometry) {
    forall l :: 0 <= l < |pools| ==> Shaped(pools[l], g)
  }

  // ---------------------------------------------------------------------------------------------------------------
  // Prefill

  /** The pools after a prefill: layer `l` holds the causal rows of the prompt at the prompt's positions. */
  ghost function PrefillPools(m: Model, g: Geometry, blocks: seq<nat>, toks: seq<nat>, pools: seq<Pool>,
                              fault: Fault): (r: seq<Pool>)
    requires |pools| == m.nLayers && AllShaped(pools, g) && Covers(blocks, g, |toks|)
    ensures |r| == m.nLayers && AllShaped(r, g)
  {
    seq(m.nLayers, l requires 0 <= l < m.nLayers => PrefillLayer(m, g, blocks, toks, pools[l], l,
      SlipIn(fault, m.nLayers, |toks|, l)))
  }

  ghost function PrefillLayer(m: Model, g: Geometry, blocks: seq<nat>, toks: seq<nat>, pool: Pool, l: nat,
                              slip: Option<Slip>): (r: Pool)
    requires Shaped(pool, g) && Covers(blocks, g, |toks|)
    ensures Shaped(r, g)
  {
    WriteSome(pool, g, blocks, 0, Rows(m, toks, l, |toks|), slip)
  }

  /** A completed prefill leaves exactly the causal rows of the prompt in the sequence's table. */
  lemma PrefillGathers(m: Model, g: Geometry, blocks: seq<nat>, toks: seq<nat>, pools: seq<Pool>, l: nat)
    requires |pools| == m.nLayers && AllShaped(pools, g) && Covers(blocks, g, |toks|) && NoDup(blocks)
    requires l < m.nLayers
    ensures Gather(PrefillPools(m, g, blocks, toks, pools, NoFault)[l], g, blocks, |toks|)
         == Rows(m, toks, l, |toks|)
  {
    CoversShorter(blocks, g, |toks|, 0);
    GatherAfterWriteRows(pools[l], g, blocks, 0, Rows(m, toks, l, |toks|));
    assert Gather(pools[l], g, blocks, 0) == [];
  }

  /** A prefill, failed or not, leaves every disjoint table's rows alone. */
  lemma PrefillIsolated(m: Model, g: Geometry, blocks: seq<nat>, toks: seq<nat>, pools: seq<Pool>, fault: Fault,
                        l: nat, others: seq<nat>, len: nat)
    requires |pools| == m.nLayers && AllShaped(pools, g) && Covers(blocks, g, |toks|) && l < m.nLayers
    requires Covers(others, g, len) && Disjoint(blocks, others)
    ensures Gather(PrefillPools(m, g, blocks, toks, pools, fault)[l], g, others, len)
         == Gather(pools[l], g, others, len)
  {
    WriteSomeIsolated(pools[l], g, blocks, 0, Rows(m, toks, l, |toks|), SlipIn(fault, m.nLayers, |toks|, l), others,
                      len);
  }

  // ---------------------------------------------------------------------------------------------------------------
  // Decode

  /** The rows of a decode batch: block table, token, position and stored length of each. */
  datatype Batch = Batch(tables: seq<seq<nat>>, toks: seq<nat>, poss: seq<nat>, lens: seq<nat>)

  ghost predicate BatchOk(b: Batch, g: Geometry) {
    && |b.tables| == |b.toks| == |b.poss| == |b.lens|
    && forall i :: 0 <= i < |b.tables| ==> Covers(b.tables[i], g, b.lens[i] + 1)
  }

  ghost function NewRows(m: Model, li: nat, xs: seq<Vec>, poss: seq<nat>): (news: seq<Row>)
    requires |xs| == |poss|
    ensures |news| == |xs|
  {
    seq(|xs|, i requires 0 <= i < |xs| => m.project(li, xs[i], poss[i]))
  }

  /** One layer's pool after the writes of the first `n` rows of the batch. */
  ghost function LayerPool(pool: Pool, g: Geometry, b: Batch, news: seq<Row>, n: nat): (r: Pool)
    requires Shaped(pool, g) && BatchOk(b, g) && n <= |news| == |b.tables|
    ensures Shaped(r, g)
  {
    if n == 0 then pool
    else WriteRow(LayerPool(pool, g, b, news, n - 1), g, b.tables[n - 1], b.lens[n - 1], news[n - 1])
  }

  /** The same when the writes may fail on the way. */
  ghost function LayerSome(pool: Pool, g: Geometry, b: Batch, news: seq<Row>, slip: Option<Slip>): (r: Pool)
    requires Shaped(pool, g) && BatchOk(b, g) && |news| == |b.tables|
    ensures Shaped(r, g)
  {
    if slip.None? || slip.value.at >= |news| then LayerPool(pool, g, b, news, |news|)
    else
      var i := slip.value.at;
      var before := LayerPool(pool, g, b, news, i);
      if slip.value.half then WriteKey(before, g, b.tables[i], b.lens[i], news[i].k) else before
  }

  /** What row `i` reads back right after its own write. */
  ghost function ReadBack(pool: Pool, g: Geometry, b: Batch, news: seq<Row>, i: nat): (rows: seq<Row>)
    requires Shaped(pool, g) && BatchOk(b, g) && i < |news| == |b.tables|
    ensures |rows| == b.lens[i] + 1
  {
    Gather(LayerPool(pool, g, b, news, i + 1), g, b.tables[i], b.lens[i] + 1)
  }

  /** Keys of a row that the decode mask lets through. */
  function VisibleLen(len: nat, pos: nat): nat {
    if len <= pos then len + 1 else pos + 1
  }

  ghost function LayerOut(m: Model, li: nat, pool: Pool, g: Geometry, b: Batch, xs: seq<Vec>): (r: seq<Vec>)
    requires Shaped(pool, g) && BatchOk(b, g) && |xs| == |b.tables|
    ensures |r| == |xs|
  {
    var news := NewRows(m, li, xs, b.poss);
    seq(|xs|, i requires 0 <= i < |xs| =>
      BlockOver(m, li, xs[i], b.poss[i], ReadBack(pool, g, b, news, i)[..VisibleLen(b.lens[i], b.poss[i])]))
  }

  /** Activations of the batch entering layer `li`. */
  ghost function DecodeXs(m: Model, g: Geometry, b: Batch, pools: seq<Pool>, li: nat): (xs: seq<Vec>)
    requires |pools| == m.nLayers && AllShaped(pools, g) && BatchOk(b, g) && li <= m.nLayers
    ensures |xs| == |b.tables|
  {
    if li == 0 then seq(|b.toks|, i requires 0 <= i < |b.toks| => m.embed(b.toks[i]))
    else LayerOut(m, li - 1, pools[li - 1], g, b, DecodeXs(m, g, b, pools, li - 1))
  }

  ghost function DecodeNews(m: Model, g: Geometry, b: Batch, pools: seq<Pool>, li: nat): (news: seq<Row>)
    requires |pools| == m.nLayers && AllShaped(pools, g) && BatchOk(b, g) && li <= m.nLayers
    ensures |news| == |b.tables|
  {
    NewRows(m, li, DecodeXs(m, g, b, pools, li), b.poss)
  }

  ghost function DecodePools(m: Model, g: Geometry, b: Batch, pools: seq<Pool>, fault: Fault): (r: seq<Pool>)
    requires |pools| == m.nLayers && AllShaped(pools, g) && BatchOk(b, g)
    ensures |r| == m.nLayers && AllShaped(r, g)
  {
    seq(m.nLayers, l requires 0 <= l < m.nLayers =>
      LayerSome(pools[l], g, b, DecodeNews(m, g, b, pools, l), SlipIn(fault, m.nLayers, |b.tables|, l)))
  }

  ghost function DecodeLogits(m: Model, g: Geometry, b: Batch, pools: seq<Pool>): (r: seq<Vec>)
    requires |pools| == m.nLayers && AllShaped(pools, g) && BatchOk(b, g)
    ensures |r| == |b.tables|
  {
    HeadEach(m, DecodeXs(m, g, b, pools, m.nLayers))
  }

  function HeadEach(m: Model, xs: seq<Vec>): (r: seq<Vec>)
    ensures |r| == |xs|
  {
    seq(|xs|, i requires 0 <= i < |xs| => m.head(xs[i]))
  }

  // ---------------------------------------------------------------------------------------------------------------
  // Batching does not matter

  ghost predicate Apart(tables: seq<seq<nat>>) {
    && (forall i :: 0 <= i < |tables| ==> NoDup(tables[i]))
    && (forall i, j :: 0 <= i < |tables| && 0 <= j < |tables| && i != j ==> Disjoint(tables[i], tables[j]))
  }

  /** Layer `l`'s table `blocks` holds the causal rows of the first `n` tokens of `toks`. */
  ghost predicate Logs(m: Model, g: Geometry, pool: Pool, l: nat, blocks: seq<nat>, toks: seq<nat>, n: nat) {
    && Shaped(pool, g) && n <= |toks| && Covers(blocks, g, n)
    && Gather(pool, g, blocks, n) == Rows(m, toks, l, n)
  }

  /** A table's log does not change while the other rows of the batch write. */
  lemma {:induction false} OthersKeepLog(pool: Pool, g: Geometry, b: Batch, news: seq<Row>, n: nat, i: nat, len: nat)
    requires Shaped(pool, g) && BatchOk(b, g) && i < |news| == |b.tables| && n <= |news| && Apart(b.tables)
    requires Covers(b.tables[i], g, len) && (n <= i || len == b.lens[i])
    ensures Gather(LayerPool(pool, g, b, news, n), g, b.tables[i], len) == Gather(pool, g, b.tables[i], len)
    decreases n
  {
    if n > 0 {
      var before := LayerPool(pool, g, b, news, n - 1);
      OthersKeepLog(pool, g, b, news, n - 1, i, len);
      if i == n - 1 {
        GatherAfterWrite(before, g, b.tables[i], len, news[i]);
        GatherPrefix(LayerPool(pool, g, b, news, n), g, b.tables[i], len + 1, len);
      } else {
        WriteIsolated(before, g, b.tables[n - 1], b.lens[n - 1], news[n - 1], b.tables[i], len);
      }
    }
  }

  /** Once row `i` has written, its table gathers its old rows and the new one, to the end of the layer. */
  lemma {:induction false} OwnLogGrows(pool: Pool, g: Geometry, b: Batch, news: seq<Row>, n: nat, i: nat)
    requires Shaped(pool, g) && BatchOk(b, g) && i < n <= |news| == |b.tables| && Apart(b.tables)
    requires Covers(b.tables[i], g, b.lens[i])
    ensures Gather(LayerPool(pool, g, b, news, n), g, b.tables[i], b.lens[i] + 1)
         == Gather(pool, g, b.tables[i], b.lens[i]) + [news[i]]
    decreases n
  {
    var before := LayerPool(pool, g, b, news, n - 1);
    if i == n - 1 {
      OthersKeepLog(pool, g, b, news, n - 1, i, b.lens[i]);
      GatherAfterWrite(before, g, b.tables[i], b.lens[i], news[i]);
    } else {
      OwnLogGrows(pool, g, b, news, n - 1, i);
      WriteIsolated(before, g, b.tables[n - 1], b.lens[n - 1], news[n - 1], b.tables[i], b.lens[i] + 1);
    }
  }

  /** Row `i` of the batch continues the token list `toks`: its tables hold the causal rows of all but the last
      token, and that last token is the one to decode now. */
  ghost predicate Continues(m: Model, g: Geometry, b: Batch, pools: seq<Pool>, i: nat, toks: seq<nat>)
    requires |pools| == m.nLayers && BatchOk(b, g) && i < |b.tables|
  {
    && |toks| == b.lens[i] + 1
    && toks[b.lens[i]] == b.toks[i]
    && b.poss[i] == b.lens[i]
    && Covers(b.tables[i], g, b.lens[i])
    && forall l :: 0 <= l < m.nLayers ==> Logs(m, g, pools[l], l, b.tables[i], toks, b.lens[i])
  }

  /** What the layer reads back for row `i` is the causal rows up to and including its new token. */
  lemma ReadBackCausal(m: Model, g: Geometry, pool: Pool, b: Batch, xs: seq<Vec>, toks: seq<nat>, li: nat, i: nat,
                       n: nat)
    requires Shaped(pool, g) && BatchOk(b, g) && |xs| == |b.tables| && i < n <= |xs| && Apart(b.tables)
    requires |toks| == b.lens[i] + 1 && b.poss[i] == b.lens[i]
    requires Logs(m, g, pool, li, b.tables[i], toks, b.lens[i]) && xs[i] == Act(m, toks, li, b.lens[i])
    ensures Gather(LayerPool(pool, g, b, NewRows(m, li, xs, b.poss), n), g, b.tables[i], b.lens[i] + 1)
         == Rows(m, toks, li, b.lens[i] + 1)
  {
    OwnLogGrows(pool, g, b, NewRows(m, li, xs, b.poss), n, i);
    RowsSplit(m, toks, li, b.lens[i]);
  }

  /** One layer of the batch, seen from row `i`, is one layer of the causal recomputation. */
  lemma LayerOutCausal(m: Model, g: Geometry, pool: Pool, b: Batch, xs: seq<Vec>, toks: seq<nat>, li: nat, i: nat)
    requires Shaped(pool, g) && BatchOk(b, g) && |xs| == |b.tables| && i < |xs| && Apart(b.tables)
    requires |toks| == b.lens[i] + 1 && b.poss[i] == b.lens[i]
    requires Logs(m, g, pool, li, b.tables[i], toks, b.lens[i]) && xs[i] == Act(m, toks, li, b.lens[i])
    ensures LayerOut(m, li, pool, g, b, xs)[i] == Act(m, toks, li + 1, b.lens[i])
  {
    ReadBackCausal(m, g, pool, b, xs, toks, li, i, i + 1);
    var rows := ReadBack(pool, g, b, NewRows(m, li, xs, b.poss), i);
    assert rows[..VisibleLen(b.lens[i], b.poss[i])] == rows;
  }

  lemma {:induction false} DecodeXsCausal(m: Model, g: Geometry, b: Batch, pools: seq<Pool>, toks: seq<nat>,
                                          li: nat, i: nat)
    requires |pools| == m.nLayers && AllShaped(pools, g) && BatchOk(b, g) && li <= m.nLayers && i < |b.tables|
    requires Apart(b.tables) && Continues(m, g, b, pools, i, toks)
    ensures DecodeXs(m, g, b, pools, li)[i] == Act(m, toks, li, b.lens[i])
    decreases li
  {
    if li > 0 {
      var k := li - 1;
      DecodeXsCausal(m, g, b, pools, toks, k, i);
      var xs := DecodeXs(m, g, b, pools, k);
      assert Logs(m, g, pools[k], k, b.tables[i], toks, b.lens[i]);
      LayerOutCausal(m, g, pools[k], b, xs, toks, k, i);
      assert DecodeXs(m, g, b, pools, li) == LayerOut(m, k, pools[k], g, b, xs);
    }
  }

  /** After the step, the row's table in layer `l` holds the causal rows of its whole token list. */
  lemma DecodeLogsGrow(m: Model, g: Geometry, b: Batch, pools: seq<Pool>, i: nat, toks: seq<nat>, l: nat)
    requires |pools| == m.nLayers && AllShaped(pools, g) && BatchOk(b, g) && i < |b.tables| && l < m.nLayers
    requires Apart(b.tables) && Continues(m, g, b, pools, i, toks)
    ensures Logs(m, g, DecodePools(m, g, b, pools, NoFault)[l], l, b.tables[i], toks, |toks|)
  {
    DecodeXsCausal(m, g, b, pools, toks, l, i);
    assert Logs(m, g, pools[l], l, b.tables[i], toks, b.lens[i]);
    ReadBackCausal(m, g, pools[l], b, DecodeXs(m, g, b, pools, l), toks, l, i, |b.tables|);
  }

  /** Batch independence of one step. Whatever else is in the batch, the row gets the logits of its own token list
      recomputed from scratch. */
  lemma DecodeIsCausal(m: Model, g: Geometry, b: Batch, pools: seq<Pool>, i: nat, toks: seq<nat>)
    requires |pools| == m.nLayers && AllShaped(pools, g) && BatchOk(b, g) && i < |b.tables|
    requires Apart(b.tables) && Continues(m, g, b, pools, i, toks)
    ensures DecodeLogits(m, g, b, pools)[i] == Logits(m, toks)
  {
    DecodeXsCausal(m, g, b, pools, toks, m.nLayers, i);
  }

  // ---------------------------------------------------------------------------------------------------------------
  // The class

  ghost function Acts(m: Model, toks: seq<nat>, li: nat): (xs: seq<Vec>)
    ensures |xs| == |toks|
  {
    seq(|toks|, p requires 0 <= p < |toks| => Act(m, toks, li, p))
  }

  /** One layer over a whole prompt: row `i` attends to all the prompt's rows under row `i` of the mask buffer. */
  function PromptLayer(m: Model, li: nat, xs: seq<Vec>, rows: seq<Row>, mask: seq<Mask>): (r: seq<Vec>)
    requires |rows| == |xs| && |mask| == |xs| * |xs|
    ensures |r| == |xs|
  {
    var n := |xs|;
    seq(n, i requires 0 <= i < n => MulGap(i, n, n); Block(m, li, xs[i], i, rows, mask[i * n..i * n + n]))
  }

  /** `0, 1, .., n - 1`. */
  function Upto(n: nat): (r: seq<nat>)
    ensures |r| == n && forall i :: 0 <= i < n ==> r[i] == i
  {
    seq(n, i requires 0 <= i => i)
  }

  /** `n` times `n`. */
  function Times(n: nat): (r: seq<nat>)
    ensures |r| == n && forall i :: 0 <= i < n ==> r[i] == n
  {
    seq(n, _ => n)
  }

  /** The buffer of the prompt's `n` by `n` causal mask. */
  ghost function CausalBuffer(n: nat): (mask: seq<Mask>)
    ensures |mask| == n * n
  {
    MaskBuffer(Times(n), Upto(n), n, n)
  }

  lemma PromptLayerCausal(m: Model, toks: seq<nat>, li: nat)
    ensures PromptLayer(m, li, Acts(m, toks, li), Rows(m, toks, li, |toks|), CausalBuffer(|toks|))
         == Acts(m, toks, li + 1)
  {
    var n, rows := |toks|, Rows(m, toks, li, |toks|);
    forall i | 0 <= i < n
      ensures PromptLayer(m, li, Acts(m, toks, li), rows, CausalBuffer(n))[i] == Act(m, toks, li + 1, i)
    {
      MaskBufferRow(Times(n), Upto(n), n, n, i);
      MaskRowOpens(n, i, n);
      MaskIsPrefix(m, li, Act(m, toks, li, i), i, rows, MaskRow(n, i, n), i + 1);
      assert rows[..i + 1] == Rows(m, toks, li, i + 1);
    }
  }

  /** One layer over a decode batch: row `i` attends to its padded rows under row `i` of the mask buffer. */
  function BatchLayer(m: Model, li: nat, xs: seq<Vec>, poss: seq<nat>, padded: seq<seq<Row>>, mask: seq<Mask>,
                      kvLen: nat): (r: seq<Vec>)
    requires |xs| == |poss| == |padded| && |mask| == |xs| * kvLen
    requires forall i :: 0 <= i < |padded| ==> |padded[i]| == kvLen
    ensures |r| == |xs|
  {
    seq(|xs|, i requires 0 <= i < |xs| =>
      MulGap(i, |xs|, kvLen); Block(m, li, xs[i], poss[i], padded[i], mask[i * kvLen..i * kvLen + kvLen]))
  }

  function Succs(lens: seq<nat>): (r: seq<nat>)
    ensures |r| == |lens|
  {
    seq(|lens|, i requires 0 <= i < |lens| => lens[i] + 1)
  }

  /** Padding rows, whatever they hold, and keys of the future are invisible. */
  lemma PaddingInvisible(m: Model, li: nat, x: Vec, pos: nat, rows: seq<Row>, padded: seq<Row>)
    requires rows != [] && rows <= padded
    ensures Block(m, li, x, pos, padded, MaskRow(|rows|, pos, |padded|))
         == BlockOver(m, li, x, pos, rows[..VisibleLen(|rows| - 1, pos)])
  {
    var visible := VisibleLen(|rows| - 1, pos);
    MaskRowOpens(|rows|, pos, |padded|);
    MaskIsPrefix(m, li, x, pos, padded, MaskRow(|rows|, pos, |padded|), visible);
    assert padded[..visible] == rows[..visible];
  }

  lemma BatchRow(m: Model, li: nat, xs: seq<Vec>, b: Batch, padded: seq<seq<Row>>, kvLen: nat, i: nat)
    requires |xs| == |b.lens| == |b.poss| == |padded| && i < |xs|
    requires forall k :: 0 <= k < |xs| ==> |padded[k]| == kvLen
    ensures BatchLayer(m, li, xs, b.poss, padded, MaskBuffer(Succs(b.lens), b.poss, kvLen, |xs|), kvLen)[i]
         == Block(m, li, xs[i], b.poss[i], padded[i], MaskRow(b.lens[i] + 1, b.poss[i], kvLen))
  {
    MaskBufferRow(Succs(b.lens), b.poss, kvLen, |xs|, i);
  }

  /** Each row's gathered sequence, padded to `kvLen`. */
  ghost predicate PaddedReads(pool: Pool, g: Geometry, b: Batch, news: seq<Row>, kvLen: nat, padded: seq<seq<Row>>)
    requires Shaped(pool, g) && BatchOk(b, g) && |padded| <= |news| == |b.tables|
  {
    forall i :: 0 <= i < |padded| ==> |padded[i]| == kvLen && ReadBack(pool, g, b, news, i) <= padded[i]
  }

  lemma BatchRowIgnoresPadding(m: Model, li: nat, pool: Pool, g: Geometry, b: Batch, xs: seq<Vec>,
                               padded: seq<seq<Row>>, kvLen: nat, i: nat)
    requires Shaped(pool, g) && BatchOk(b, g) && |xs| == |b.tables| == |padded| && i < |xs|
    requires forall k :: 0 <= k < |xs| ==> |padded[k]| == kvLen
    requires ReadBack(pool, g, b, NewRows(m, li, xs, b.poss), i) <= padded[i]
    ensures BatchLayer(m, li, xs, b.poss, padded, MaskBuffer(Succs(b.lens), b.poss, kvLen, |xs|), kvLen)[i]
         == LayerOut(m, li, pool, g, b, xs)[i]
  {
    BatchRow(m, li, xs, b, padded, kvLen, i);
    PaddingInvisible(m, li, xs[i], b.poss[i], ReadBack(pool, g, b, NewRows(m, li, xs, b.poss), i), padded[i]);
  }

  lemma BatchLayerIgnoresPadding(m: Model, li: nat, pool: Pool, g: Geometry, b: Batch, xs: seq<Vec>,
                                 padded: seq<seq<Row>>, kvLen: nat)
    requires Shaped(pool, g) && BatchOk(b, g) && |xs| == |b.tables| == |padded|
    requires PaddedReads(pool, g, b, NewRows(m, li, xs, b.poss), kvLen, padded)
    ensures BatchLayer(m, li, xs, b.poss, padded, MaskBuffer(Succs(b.lens), b.poss, kvLen, |xs|), kvLen)
         == LayerOut(m, li, pool, g, b, xs)
  {
    var out := BatchLayer(m, li, xs, b.poss, padded, MaskBuffer(Succs(b.lens), b.poss, kvLen, |xs|), kvLen);
    var spec := LayerOut(m, li, pool, g, b, xs);
    forall i | 0 <= i < |xs|
      ensures out[i] == spec[i]
    {
      BatchRowIgnoresPadding(m, li, pool, g, b, xs, padded, kvLen, i);
    }
    SameVecs(out, spec);
  }

  lemma SameVecs(a: seq<Vec>, b: seq<Vec>)
    requires |a| == |b| && forall i :: 0 <= i < |a| ==> a[i] == b[i]
    ensures a == b
  {
  }

  ghost predicate StoreOk(kv: seq<KvPool>, nLayers: nat, g: Geometry)
    reads kv
  {
    && |kv| == nLayers
    && (forall i, j :: 0 <= i < j < |kv| ==> kv[i] != kv[j])
    && (forall i :: 0 <= i < |kv| ==> kv[i].g == g && kv[i].Valid())
  }

  ghost function Values(kv: seq<KvPool>): (pools: seq<Pool>)
    reads kv
    ensures |pools| == |kv|
  {
    seq(|kv|, l requires 0 <= l < |kv| reads kv => kv[l].Value())
  }

  class Transformer {
    const m: Model
    const zero: Vec   // the padding row

    constructor (m: Model, zero: Vec)
      ensures this.m == m && this.zero == zero
    {
      this.m, this.zero := m, zero;
    }

    /** The causal mask of a prompt, row-major. */
    method CausalMask(n: nat) returns (data: array<Mask>)
      ensures fresh(data) && data[..] == CausalBuffer(n)
    {
      hide Times, Upto, MaskRow;
      data := new Mask[n * n](_ => Zero);
      for i := 0 to n
        invariant i * n <= data.Length
        invariant data[..i * n] == MaskBuffer(Times(n), Upto(n), n, i)
        invariant forall k :: i * n <= k < data.Length ==> data[k] == Zero
      {
        MulGap(i, n, n);
        var base := i * n;
        FillCausalRow(data, base, i, n);
        assert (i + 1) * n == base + n;
        assert data[..base + n] == data[..base] + data[base..base + n];
      }
      assert data[..] == data[..n * n];
    }

    method FillCausalRow(data: array<Mask>, base: nat, i: nat, n: nat)
      requires base + n <= data.Length
      requires forall k :: base <= k < data.Length ==> data[k] == Zero
      modifies data
      ensures data[..base] == old(data[..base])
      ensures data[base..base + n] == MaskRow(n, i, n)
      ensures data[base + n..] == old(data[base + n..])
    {
      for j := 0 to n
        invariant data[..base] == old(data[..base])
        invariant data[base..base + j] == MaskRow(n, i, n)[..j]
        invariant data[base + j..] == old(data[base + j..])
      {
        if j > i {
          data[base + j] := NegInf;
        }
      }
    }

    /** Store a prompt's rows in one layer, unless the device fails first. */
    method StorePrompt(li: nat, rows: seq<Row>, table: BlockTable, pool: KvPool, alloc: BlockAllocator, fault: Fault)
      returns (ok: bool)
      requires li < m.nLayers && pool.Valid() && alloc.blockSize == pool.g.bs && Covers(table.blocks, pool.g, |rows|)
      modifies pool
      ensures pool.Valid()
      ensures ok <==> Passes(SlipAt(fault, li), |rows|)
      ensures pool.Value() == WriteSome(old(pool.Value()), pool.g, table.blocks, 0, rows, SlipAt(fault, li))
    {
      hide WriteRows, WriteKey, WriteRow, Covers, RowsOf;
      ghost var start := pool.Value();
      CoversShorter(table.blocks, pool.g, |rows|, 0);
      NothingWritten(start, pool.g, table.blocks, 0, rows);
      var slip := SlipAt(fault, li);
      for pos := 0 to |rows|
        invariant pool.Valid() && Covers(table.blocks, pool.g, pos)
        invariant slip.Some? ==> pos <= slip.value.at
        invariant pool.Value() == WriteRows(start, pool.g, table.blocks, 0, rows[..pos])
      {
        CoversShorter(table.blocks, pool.g, |rows|, pos + 1);
        ghost var before := pool.Value();
        ok := pool.Write(alloc, table, pos, [rows[pos].k], [rows[pos].v], Here(slip, pos));
        WriteOne(before, pool.g, table.blocks, pos, rows[pos], Here(slip, pos));
        if !ok {
          return;
        }
        WriteRowsStep(start, pool.g, table.blocks, 0, rows, pos);
      }
      assert rows[..|rows|] == rows;
      ok := Passes(slip, |rows|);
    }

    /** One layer of `prefill_seq`. */
    method PromptStep(li: nat, x: seq<Vec>, mask: array<Mask>, table: BlockTable, pool: KvPool, alloc: BlockAllocator,
                      fault: Fault, ghost toks: seq<nat>) returns (ok: bool, out: seq<Vec>)
      requires li < m.nLayers && pool.Valid() && alloc.blockSize == pool.g.bs && Covers(table.blocks, pool.g, |toks|)
      requires x == Acts(m, toks, li) && mask[..] == CausalBuffer(|toks|)
      modifies pool
      ensures pool.Valid()
      ensures ok <==> Passes(SlipAt(fault, li), |toks|)
      ensures pool.Value() == PrefillLayer(m, pool.g, table.blocks, toks, old(pool.Value()), li, SlipAt(fault, li))
      ensures ok ==> out == Acts(m, toks, li + 1)
    {
      var rows := seq(|x|, i requires 0 <= i < |x| => m.project(li, x[i], i));
      assert rows == Rows(m, toks, li, |toks|);
      ok := StorePrompt(li, rows, table, pool, alloc, fault);
      out := PromptLayer(m, li, x, rows, mask[..]);
      PromptLayerCausal(m, toks, li);
    }

    /** The layer loop of `prefill_seq`. */
    method PrefillLayers(promptIds: seq<nat>, x0: seq<Vec>, mask: array<Mask>, table: BlockTable, kv: seq<KvPool>,
                         alloc: BlockAllocator, fault: Fault, ghost g: Geometry)
      returns (ok: bool, x: seq<Vec>)
      requires promptIds != [] && StoreOk(kv, m.nLayers, g) && alloc.blockSize == g.bs
      requires Covers(table.blocks, g, |promptIds|) && mask[..] == CausalBuffer(|promptIds|)
      requires x0 == Acts(m, promptIds, 0)
      modifies kv
      ensures StoreOk(kv, m.nLayers, g)
      ensures ok ==> PrefilledTo(m, g, table.blocks, promptIds, old(Values(kv)), Values(kv), m.nLayers)
      ensures ok ==> x == Acts(m, promptIds, m.nLayers)
      ensures ok ==> (Strikes(fault, m.nLayers, |promptIds|) ==> m.nLayers <= fault.layer)
      ensures !ok ==> Strikes(fault, m.nLayers, |promptIds|)
                      && Values(kv) == PrefillPools(m, g, table.blocks, promptIds, old(Values(kv)), fault)
    {
      hide PrefilledTo, PrefillLayer, PrefillPools, Covers, CausalBuffer, Acts;
      var n := |promptIds|;
      ghost var pools := Values(kv);
      assert AllShaped(pools, g);
      PrefillStart(m, g, table.blocks, promptIds, pools);
      x := x0;
      var li := 0;
      while li < m.nLayers
        invariant 0 <= li <= m.nLayers && StoreOk(kv, m.nLayers, g) && x == Acts(m, promptIds, li)
        invariant mask[..] == CausalBuffer(n)
        invariant Strikes(fault, m.nLayers, n) ==> li <= fault.layer
        invariant PrefilledTo(m, g, table.blocks, promptIds, pools, Values(kv), li)
      {
        ghost var before := Values(kv);
        assert before[li] == kv[li].Value();
        PrefillHere(m, g, table.blocks, promptIds, pools, before, li);
        ok, x := PromptStep(li, x, mask, table, kv[li], alloc, fault, promptIds);
        assert Values(kv) == before[li := kv[li].Value()];
        if !ok {
          PrefillStopped(m, g, table.blocks, promptIds, pools, before, li, fault);
          return;
        }
        PrefillStep(m, g, table.blocks, promptIds, pools, before, li, fault);
        li := li + 1;
      }
      ok := true;
    }

    /** The failure is in the final norm or the LM head. */
    predicate HeadFails(fault: Fault) {
      fault.FaultAt? && fault.layer == m.nLayers && fault.row == 0
    }

    /** Run a whole prompt as one causal sequence: store the rows of every layer, return the last token's logits. */
    method PrefillSeq(promptIds: seq<nat>, table: BlockTable, kv: seq<KvPool>, alloc: BlockAllocator, fault: Fault,
                      ghost g: Geometry) returns (r: Option<Vec>)
      requires promptIds != [] && StoreOk(kv, m.nLayers, g) && alloc.blockSize == g.bs
      requires Covers(table.blocks, g, |promptIds|)
      modifies kv
      ensures StoreOk(kv, m.nLayers, g)
      ensures Values(kv) == PrefillPools(m, g, table.blocks, promptIds, old(Values(kv)), fault)
      ensures r == if Strikes(fault, m.nLayers, |promptIds|) then None else Some(Logits(m, promptIds))
    {
      hide PrefilledTo, PrefillPools, Covers;
      var n := |promptIds|;
      var x := seq(n, i requires 0 <= i < n => m.embed(promptIds[i]));
      assert x == Acts(m, promptIds, 0);
      var mask := CausalMask(n);
      ghost var pools := Values(kv);
      var ok;
      ok, x := PrefillLayers(promptIds, x, mask, table, kv, alloc, fault, g);
      if !ok {
        return None;
      }
      PrefillFinished(m, g, table.blocks, promptIds, pools, Values(kv), fault);
      if HeadFails(fault) {
        return None;
      }
      r := Some(m.head(x[n - 1]));
    }

    method WriteAndRead(table: BlockTable, len: nat, row: Row, pool: KvPool, alloc: BlockAllocator,
                        slip: Option<Slip>) returns (ok: bool, rows: seq<Row>)
      requires pool.Valid() && alloc.blockSize == pool.g.bs && Covers(table.blocks, pool.g, len + 1)
      modifies pool
      ensures pool.Valid() && pool.Value() == WriteSome(old(pool.Value()), pool.g, table.blocks, len, [row], slip)
      ensures ok <==> slip.None? || slip.value.at >= 1
      ensures ok ==> rows == Gather(pool.Value(), pool.g, table.blocks, len + 1)
    {
      rows := [];
      ghost var before := pool.Value();
      CoversShorter(table.blocks, pool.g, len + 1, len);
      WriteOne(before, pool.g, table.blocks, len, row, slip);
      ok := pool.Write(alloc, table, len, [row.k], [row.v], slip);
      if ok {
        var gk, gv := pool.GatherSeq(table, len + 1);
        rows := seq(|gk|, p requires 0 <= p < |gk| == |gv| => Row(gk[p], gv[p]));
      }
    }

    /** The inner loop of a decode layer: write each row's new key/value, read its sequence back, pad it. */
    method StoreBatch(li: nat, news: seq<Row>, tables: seq<BlockTable>, seqLens: seq<nat>, kvLen: nat, pool: KvPool,
                      alloc: BlockAllocator, fault: Fault, ghost b: Batch) returns (ok: bool, padded: seq<seq<Row>>)
      requires li < m.nLayers && pool.Valid() && alloc.blockSize == pool.g.bs
      requires b.tables == Blocks(tables) && b.lens == seqLens && BatchOk(b, pool.g) && |news| == |tables|
      requires forall i :: 0 <= i < |seqLens| ==> seqLens[i] + 1 <= kvLen
      modifies pool
      ensures pool.Valid()
      ensures ok <==> Passes(SlipAt(fault, li), |news|)
      ensures pool.Value() == LayerSome(old(pool.Value()), pool.g, b, news, SlipAt(fault, li))
      ensures ok ==> |padded| == |news| && PaddedReads(old(pool.Value()), pool.g, b, news, kvLen, padded)
    {
      hide WriteRow, WriteRows, WriteSome, WriteKey, Gather, Shaped, Covers, RowsOf;
      ghost var start := pool.Value();
      padded := [];
      var slip := SlipAt(fault, li);
      for i := 0 to |news|
        invariant pool.Valid() && |padded| == i
        invariant slip.Some? ==> i <= slip.value.at
        invariant pool.Value() == LayerPool(start, pool.g, b, news, i)
        invariant PaddedReads(start, pool.g, b, news, kvLen, padded)
      {
        ghost var before := pool.Value();
        var rows;
        assert Covers(b.tables[i], pool.g, b.lens[i] + 1);
        ok, rows := WriteAndRead(tables[i], seqLens[i], news[i], pool, alloc, Here(slip, i));
        CoversShorter(b.tables[i], pool.g, b.lens[i] + 1, b.lens[i]);
        WriteOne(before, pool.g, b.tables[i], b.lens[i], news[i], Here(slip, i));
        if !ok {
          return;
        }
        assert rows == ReadBack(start, pool.g, b, news, i);
        padded := padded + [PadTo(rows, kvLen, Row(zero, zero))];
      }
      ok := Passes(slip, |news|);
    }

    /** One layer of `decode_step`. */
    method BatchStep(li: nat, x: seq<Vec>, positions: seq<nat>, seqLens: seq<nat>, kvLen: nat, pool: KvPool,
                     alloc: BlockAllocator, tables: seq<BlockTable>, fault: Fault, ghost b: Batch)
      returns (ok: bool, out: seq<Vec>)
      requires li < m.nLayers && pool.Valid() && alloc.blockSize == pool.g.bs && |x| == |tables|
      requires b.tables == Blocks(tables) && b.lens == seqLens && b.poss == positions && BatchOk(b, pool.g)
      requires forall i :: 0 <= i < |seqLens| ==> seqLens[i] + 1 <= kvLen
      modifies pool
      ensures pool.Valid()
      ensures ok <==> Passes(SlipAt(fault, li), |x|)
      ensures pool.Value() == LayerSome(old(pool.Value()), pool.g, b, NewRows(m, li, x, positions), SlipAt(fault, li))
      ensures ok ==> out == LayerOut(m, li, old(pool.Value()), pool.g, b, x)
    {
      ghost var before := pool.Value();
      var news := seq(|x|, i requires 0 <= i < |x| => m.project(li, x[i], positions[i]));
      assert news == NewRows(m, li, x, positions);
      var padded;
      ok, padded := StoreBatch(li, news, tables, seqLens, kvLen, pool, alloc, fault, b);
      out := [];
      if ok {
        var mask := BuildMask(Succs(seqLens), positions, kvLen);
        BatchLayerIgnoresPadding(m, li, before, pool.g, b, x, padded, kvLen);
        out := BatchLayer(m, li, x, positions, padded, mask[..], kvLen);
      }
    }

    /** The layer loop of `decode_step`. */
    method DecodeLayers(x0: seq<Vec>, positions: seq<nat>, seqLens: seq<nat>, kv: seq<KvPool>, alloc: BlockAllocator,
                        tables: seq<BlockTable>, fault: Fault, ghost g: Geometry, ghost b: Batch,
                        ghost pools: seq<Pool>) returns (ok: bool, x: seq<Vec>)
      requires StoreOk(kv, m.nLayers, g) && alloc.blockSize == g.bs && pools == Values(kv) && AllShaped(pools, g)
      requires b.tables == Blocks(tables) && b.lens == seqLens && b.poss == positions && BatchOk(b, g)
      requires x0 == DecodeXs(m, g, b, pools, 0)
      modifies kv
      ensures StoreOk(kv, m.nLayers, g)
      ensures ok <==> !Strikes(fault, m.nLayers, |tables|) || fault.layer == m.nLayers
      ensures Values(kv) == DecodePools(m, g, b, pools, fault)
      ensures ok ==> x == DecodeXs(m, g, b, pools, m.nLayers)
    {
      hide LayerPool, NewRows, LayerOut, DecodePools, DecodedTo, BatchOk, Shaped;
      DecodedStart(m, g, b, pools);
      var kvLen := MaxOf(seqLens) + 1;
      x := x0;
      var li := 0;
      while li < m.nLayers
        invariant 0 <= li <= m.nLayers && StoreOk(kv, m.nLayers, g) && x == DecodeXs(m, g, b, pools, li)
        invariant Strikes(fault, m.nLayers, |tables|) ==> li <= fault.layer
        invariant DecodedTo(m, g, b, pools, Values(kv), li)
      {
        ghost var before := Values(kv);
        assert before[li] == kv[li].Value();
        DecodedHere(m, g, b, pools, before, li);
        ok, x := BatchStep(li, x, positions, seqLens, kvLen, kv[li], alloc, tables, fault, b);
        assert Values(kv) == before[li := kv[li].Value()];
        if !ok {
          DecodeStopped(m, g, b, pools, before, li, fault);
          return;
        }
        DecodedStep(m, g, b, pools, before, li, fault);
        li := li + 1;
      }
      ok := true;
      DecodeFinished(m, g, b, pools, Values(kv), fault);
    }

    /** One token for each row of a batch. Returns one logit vector per row. */
    method DecodeStep(tokenIds: seq<nat>, positions: seq<nat>, seqLens: seq<nat>, kv: seq<KvPool>,
                      alloc: BlockAllocator, tables: seq<BlockTable>, fault: Fault, ghost g: Geometry,
                      ghost b: Batch) returns (r: Option<seq<Vec>>)
      requires tokenIds != [] && StoreOk(kv, m.nLayers, g) && alloc.blockSize == g.bs
      requires b == Batch(Blocks(tables), tokenIds, positions, seqLens) && BatchOk(b, g)
      modifies kv
      ensures StoreOk(kv, m.nLayers, g)
      ensures Values(kv) == DecodePools(m, g, b, old(Values(kv)), fault)
      ensures r == if Strikes(fault, m.nLayers, |tables|) then None
                   else Some(DecodeLogits(m, g, b, old(Values(kv))))
    {
      var x0 := seq(|tokenIds|, i requires 0 <= i < |tokenIds| => m.embed(tokenIds[i]));
      var ok, x := DecodeLayers(x0, positions, seqLens, kv, alloc, tables, fault, g, b, Values(kv));
      if !ok || HeadFails(fault) {
        return None;
      }
      r := Some(HeadEach(m, x));
    }
  }

  /** The layers below `li` are done, the others untouched. */
  ghost predicate PrefilledTo(m: Model, g: Geometry, blocks: seq<nat>, toks: seq<nat>, pools: seq<Pool>,
                              cur: seq<Pool>, li: nat)
    requires |pools| == |cur| == m.nLayers && AllShaped(pools, g) && Covers(blocks, g, |toks|)
  {
    && (forall l :: 0 <= l < li && l < m.nLayers ==> cur[l] == PrefillLayer(m, g, blocks, toks, pools[l], l, None))
    && (forall l :: li <= l < m.nLayers ==> cur[l] == pools[l])
  }

  lemma PrefillStart(m: Model, g: Geometry, blocks: seq<nat>, toks: seq<nat>, pools: seq<Pool>)
    requires |pools| == m.nLayers && AllShaped(pools, g) && Covers(blocks, g, |toks|)
    ensures PrefilledTo(m, g, blocks, toks, pools, pools, 0)
  {
  }

  lemma PrefillHere(m: Model, g: Geometry, blocks: seq<nat>, toks: seq<nat>, pools: seq<Pool>, cur: seq<Pool>, li: nat)
    requires |pools| == |cur| == m.nLayers && AllShaped(pools, g) && Covers(blocks, g, |toks|) && li < m.nLayers
    requires PrefilledTo(m, g, blocks, toks, pools, cur, li)
    ensures Shaped(cur[li], g) && cur[li] == pools[li]
  {
  }

  lemma PrefillStep(m: Model, g: Geometry, blocks: seq<nat>, toks: seq<nat>, pools: seq<Pool>, cur: seq<Pool>,
                    li: nat, fault: Fault)
    requires |pools| == |cur| == m.nLayers && AllShaped(pools, g) && Covers(blocks, g, |toks|) && li < m.nLayers
    requires PrefilledTo(m, g, blocks, toks, pools, cur, li) && Passes(SlipAt(fault, li), |toks|)
    ensures Shaped(cur[li], g)
    ensures var pool := PrefillLayer(m, g, blocks, toks, cur[li], li, SlipAt(fault, li));
            PrefilledTo(m, g, blocks, toks, pools, cur[li := pool], li + 1)
  {
  }

  lemma PrefillStopped(m: Model, g: Geometry, blocks: seq<nat>, toks: seq<nat>, pools: seq<Pool>, cur: seq<Pool>,
                       li: nat, fault: Fault)
    requires |pools| == |cur| == m.nLayers && AllShaped(pools, g) && Covers(blocks, g, |toks|) && li < m.nLayers
    requires PrefilledTo(m, g, blocks, toks, pools, cur, li) && !Passes(SlipAt(fault, li), |toks|)
    ensures Shaped(cur[li], g) && Strikes(fault, m.nLayers, |toks|)
    ensures cur[li := PrefillLayer(m, g, blocks, toks, cur[li], li, SlipAt(fault, li))]
         == PrefillPools(m, g, blocks, toks, pools, fault)
  {
    hide WriteRows, WriteKey;
    CoversShorter(blocks, g, |toks|, 0);
    forall l | li < l < m.nLayers
      ensures PrefillLayer(m, g, blocks, toks, pools[l], l, SlipIn(fault, m.nLayers, |toks|, l)) == pools[l]
    {
      NothingWritten(pools[l], g, blocks, 0, Rows(m, toks, l, |toks|));
      assert Rows(m, toks, l, |toks|) == [] ==> Rows(m, toks, l, |toks|)[..0] == Rows(m, toks, l, |toks|);
    }
  }

  lemma PrefillFinished(m: Model, g: Geometry, blocks: seq<nat>, toks: seq<nat>, pools: seq<Pool>, cur: seq<Pool>,
                        fault: Fault)
    requires |pools| == |cur| == m.nLayers && AllShaped(pools, g) && Covers(blocks, g, |toks|)
    requires PrefilledTo(m, g, blocks, toks, pools, cur, m.nLayers)
    requires Strikes(fault, m.nLayers, |toks|) ==> fault.layer == m.nLayers
    ensures cur == PrefillPools(m, g, blocks, toks, pools, fault)
  {
  }

  ghost predicate DecodedTo(m: Model, g: Geometry, b: Batch, pools: seq<Pool>, cur: seq<Pool>, li: nat)
    requires |pools| == |cur| == m.nLayers && AllShaped(pools, g) && BatchOk(b, g)
  {
    && (forall l :: 0 <= l < li && l < m.nLayers ==>
          cur[l] == LayerSome(pools[l], g, b, DecodeNews(m, g, b, pools, l), None))
    && (forall l :: li <= l < m.nLayers ==> cur[l] == pools[l])
  }

  lemma DecodedStart(m: Model, g: Geometry, b: Batch, pools: seq<Pool>)
    requires |pools| == m.nLayers && AllShaped(pools, g) && BatchOk(b, g)
    ensures DecodedTo(m, g, b, pools, pools, 0)
  {
  }

  lemma DecodedHere(m: Model, g: Geometry, b: Batch, pools: seq<Pool>, cur: seq<Pool>, li: nat)
    requires |pools| == |cur| == m.nLayers && AllShaped(pools, g) && BatchOk(b, g) && li < m.nLayers
    requires DecodedTo(m, g, b, pools, cur, li)
    ensures Shaped(cur[li], g) && cur[li] == pools[li]
  {
  }

  lemma DecodedStep(m: Model, g: Geometry, b: Batch, pools: seq<Pool>, cur: seq<Pool>, li: nat, fault: Fault)
    requires |pools| == |cur| == m.nLayers && AllShaped(pools, g) && BatchOk(b, g) && li < m.nLayers
    requires DecodedTo(m, g, b, pools, cur, li) && Passes(SlipAt(fault, li), |b.tables|)
    ensures Shaped(cur[li], g)
    ensures var pool := LayerSome(cur[li], g, b, DecodeNews(m, g, b, pools, li), SlipAt(fault, li));
            DecodedTo(m, g, b, pools, cur[li := pool], li + 1)
  {
    hide LayerPool;
  }

  lemma DecodeStopped(m: Model, g: Geometry, b: Batch, pools: seq<Pool>, cur: seq<Pool>, li: nat, fault: Fault)
    requires |pools| == |cur| == m.nLayers && AllShaped(pools, g) && BatchOk(b, g) && li < m.nLayers
    requires DecodedTo(m, g, b, pools, cur, li) && !Passes(SlipAt(fault, li), |b.tables|)
    ensures Shaped(cur[li], g) && Strikes(fault, m.nLayers, |b.tables|)
    ensures cur[li := LayerSome(cur[li], g, b, DecodeNews(m, g, b, pools, li), SlipAt(fault, li))]
         == DecodePools(m, g, b, pools, fault)
  {
    hide DecodeXs;
    forall l | li < l < m.nLayers
      ensures LayerSome(pools[l], g, b, DecodeNews(m, g, b, pools, l), SlipIn(fault, m.nLayers, |b.tables|, l))
           == pools[l]
    {
    }
  }

  lemma DecodeFinished(m: Model, g: Geometry, b: Batch, pools: seq<Pool>, cur: seq<Pool>, fault: Fault)
    requires |pools| == |cur| == m.nLayers && AllShaped(pools, g) && BatchOk(b, g)
    requires DecodedTo(m, g, b, pools, cur, m.nLayers)
    requires Strikes(fault, m.nLayers, |b.tables|) ==> fault.layer == m.nLayers
    ensures cur == DecodePools(m, g, b, pools, fault)
  {
  }

  /** `pad_with_zeros` at the end. */
  function PadTo(rows: seq<Row>, n: nat, pad: Row): (r: seq<Row>)
    requires |rows| <= n
    ensures |r| == n && rows <= r
  {
    rows + seq(n - |rows|, _ => pad)
  }

  /** `seq_lens.iter().max()`, 0 when empty. */
  function MaxOf(lens: seq<nat>): (top: nat)
    ensures forall i :: 0 <= i < |lens| ==> lens[i] <= top
    ensures top == 0 || top in lens
  {
    if lens == [] then 0
    else
      var rest := MaxOf(lens[..|lens| - 1]);
      if rest < lens[|lens| - 1] then lens[|lens| - 1] else rest
  }

  ghost function Blocks(tables: seq<BlockTable>): (r: seq<seq<nat>>)
    reads tables
    ensures |r| == |tables|
  {
    seq(|tables|, i requires 0 <= i < |tables| reads tables => tables[i].blocks)
  }

  /** The failure as the write of one row at `pos` sees it. */
  function Here(slip: Option<Slip>, pos: nat): Option<Slip> {
    if slip.Some? && slip.value.at == pos then Some(Slip(0, slip.value.half)) else None
  }

  lemma WriteOne(pool: Pool, g: Geometry, blocks: seq<nat>, pos: nat, row: Row, slip: Option<Slip>)
    requires Shaped(pool, g) && Covers(blocks, g, pos) && Covers(blocks, g, pos + 1)
    ensures RowsOf([row.k], [row.v]) == [row]
    ensures WriteSome(pool, g, blocks, pos, [row], slip)
         == if slip.None? || slip.value.at >= 1 then WriteRow(pool, g, blocks, pos, row)
            else if slip.value.half then WriteKey(pool, g, blocks, pos, row.k)
            else pool
  {
    assert [row][..0] == [];
    assert WriteRows(pool, g, blocks, pos, [row]) == WriteRow(pool, g, blocks, pos, row);
  }
}
