/**
 Paged key/value storage and the decode mask.

 `Pool` is one layer's storage seen as a value: physical blocks of `bs` slots. The lemmas say that a sequence's block
 table turns it into that sequence's private, contiguous log. `KvPool` and `BuildMask` are the source's loops.
 */
module Attention {
  import opened Causal
  import opened Basics
  import opened BlockTables

  /** Number of blocks and slots per block. */
  datatype Geometry = Geometry(nb: nat, bs: Positive)

  datatype Pool = Pool(k: seq<seq<Vec>>, v: seq<seq<Vec>>)

  ghost predicate Shaped(pool: Pool, g: Geometry) {
    && |pool.k| == g.nb && |pool.v| == g.nb
    && (forall b :: 0 <= b < g.nb ==> |pool.k[b]| == g.bs)
    && (forall b :: 0 <= b < g.nb ==> |pool.v[b]| == g.bs)
  }

  /** `blocks` are ids of the pool and have a slot for each of `len` positions. */
  ghost predicate Covers(blocks: seq<nat>, g: Geometry, len: nat) {
    && BlocksFor(len, g.bs) <= |blocks|
    && forall x :: x in blocks ==> x < g.nb
  }

  lemma CoversOf(blocks: seq<nat>, g: Geometry, len: nat)
    requires (forall x :: x in blocks ==> x < g.nb) && BlocksFor(len, g.bs) <= |blocks|
    ensures Covers(blocks, g, len)
  {
  }

  lemma CoversShorter(blocks: seq<nat>, g: Geometry, len: nat, shorter: nat)
    requires Covers(blocks, g, len) && shorter <= len
    ensures Covers(blocks, g, shorter)
  {
    BlocksForMonotone(shorter, len, g.bs);
  }

  function SlotUpdate(store: seq<seq<Vec>>, b: nat, s: nat, x: Vec): seq<seq<Vec>>
    requires b < |store| && s < |store[b]|
  {
    store[b := store[b][s := x]]
  }

  /** Put one row into a physical slot. */
  ghost function PutRow(pool: Pool, g: Geometry, b: nat, s: nat, row: Row): (r: Pool)
    requires Shaped(pool, g) && b < g.nb && s < g.bs
    ensures Shaped(r, g)
  {
    Pool(SlotUpdate(pool.k, b, s, row.k), SlotUpdate(pool.v, b, s, row.v))
  }

  ghost function RowIn(pool: Pool, g: Geometry, b: nat, s: nat): Row
    requires Shaped(pool, g) && b < g.nb && s < g.bs
  {
    Row(pool.k[b][s], pool.v[b][s])
  }

  lemma PutThenRead(pool: Pool, g: Geometry, b: nat, s: nat, row: Row, b': nat, s': nat)
    requires Shaped(pool, g) && b < g.nb && s < g.bs && b' < g.nb && s' < g.bs
    ensures RowIn(PutRow(pool, g, b, s, row), g, b', s')
         == if b' == b && s' == s then row else RowIn(pool, g, b', s')
  {
  }

  function EmptyPool(g: Geometry, zero: Vec): Pool {
    var store := seq(g.nb, _ => seq(g.bs, _ => zero));
    Pool(store, store)
  }

  /** Write one row at a sequence position. */
  ghost function WriteRow(pool: Pool, g: Geometry, blocks: seq<nat>, pos: nat, row: Row): (r: Pool)
    requires Shaped(pool, g) && Covers(blocks, g, pos + 1)
    ensures Shaped(r, g)
  {
    var (b, s) := Place(blocks, g.bs, pos);
    PutRow(pool, g, b, s, row)
  }

  /** Write `rows` at consecutive positions from `start`. */
  ghost function WriteRows(pool: Pool, g: Geometry, blocks: seq<nat>, start: nat, rows: seq<Row>): (r: Pool)
    requires Shaped(pool, g) && Covers(blocks, g, start + |rows|)
    ensures Shaped(r, g)
    decreases |rows|
  {
    if rows == [] then pool
    else
      var n := |rows| - 1;
      CoversShorter(blocks, g, start + |rows|, start + n);
      WriteRow(WriteRows(pool, g, blocks, start, rows[..n]), g, blocks, start + n, rows[n])
  }

  lemma WriteRowsStep(pool: Pool, g: Geometry, blocks: seq<nat>, start: nat, rows: seq<Row>, i: nat)
    requires i < |rows| && Shaped(pool, g) && Covers(blocks, g, start + i) && Covers(blocks, g, start + i + 1)
    ensures WriteRows(pool, g, blocks, start, rows[..i + 1])
         == WriteRow(WriteRows(pool, g, blocks, start, rows[..i]), g, blocks, start + i, rows[i])
  {
    assert rows[..i + 1][..i] == rows[..i];
  }

  /** Where a write of several rows fails: at row `at`, before its key is stored or between its key and its value. */
  datatype Slip = Slip(at: nat, half: bool)

  /** A row of which only the key was stored: the slot keeps its old value. */
  ghost function WriteKey(pool: Pool, g: Geometry, blocks: seq<nat>, pos: nat, key: Vec): (r: Pool)
    requires Shaped(pool, g) && Covers(blocks, g, pos + 1)
    ensures Shaped(r, g)
  {
    WriteRow(pool, g, blocks, pos, Row(key, RowAt(pool, g, blocks, pos).v))
  }

  /** What a write of `rows` leaves that may fail on the way. */
  ghost function WriteSome(pool: Pool, g: Geometry, blocks: seq<nat>, start: nat, rows: seq<Row>, slip: Option<Slip>):
      (r: Pool)
    requires Shaped(pool, g) && Covers(blocks, g, start + |rows|)
    ensures Shaped(r, g)
  {
    if slip.None? || slip.value.at >= |rows| then WriteRows(pool, g, blocks, start, rows)
    else
      var i := slip.value.at;
      CoversShorter(blocks, g, start + |rows|, start + i);
      CoversShorter(blocks, g, start + |rows|, start + i + 1);
      var before := WriteRows(pool, g, blocks, start, rows[..i]);
      if slip.value.half then WriteKey(before, g, blocks, start + i, rows[i].k) else before
  }

  /** The row stored for a sequence position. */
  ghost function RowAt(pool: Pool, g: Geometry, blocks: seq<nat>, pos: nat): Row
    requires Shaped(pool, g) && Covers(blocks, g, pos + 1)
  {
    var (b, s) := Place(blocks, g.bs, pos);
    RowIn(pool, g, b, s)
  }

  /** The rows of positions `0..len` of the sequence that owns `blocks`. */
  ghost function Gather(pool: Pool, g: Geometry, blocks: seq<nat>, len: nat): (rows: seq<Row>)
    requires Shaped(pool, g) && Covers(blocks, g, len)
    ensures |rows| == len
  {
    seq(len, p requires 0 <= p < len => CoversShorter(blocks, g, len, p + 1); RowAt(pool, g, blocks, p))
  }

  /** A write reaches its own position and no other position of any table whose blocks do not alias. */
  lemma RowAtAfterWrite(pool: Pool, g: Geometry, blocks: seq<nat>, pos: nat, row: Row, others: seq<nat>, p: nat)
    requires Shaped(pool, g) && Covers(blocks, g, pos + 1) && Covers(others, g, p + 1)
    requires (others == blocks && NoDup(blocks)) || Disjoint(blocks, others)
    ensures RowAt(WriteRow(pool, g, blocks, pos, row), g, others, p)
         == if others == blocks && p == pos then row else RowAt(pool, g, others, p)
  {
    if others == blocks && Place(blocks, g.bs, p) == Place(blocks, g.bs, pos) {
      PlaceInjective(blocks, g.bs, p, pos);
    }
    var (b, s) := Place(blocks, g.bs, pos);
    var (b', s') := Place(others, g.bs, p);
    PutThenRead(pool, g, b, s, row, b', s');
  }

  /** A table is a log: one write at the end appends one row. */
  lemma GatherAfterWrite(pool: Pool, g: Geometry, blocks: seq<nat>, pos: nat, row: Row)
    requires Shaped(pool, g) && Covers(blocks, g, pos + 1) && Covers(blocks, g, pos) && NoDup(blocks)
    ensures Gather(WriteRow(pool, g, blocks, pos, row), g, blocks, pos + 1) == Gather(pool, g, blocks, pos) + [row]
  {
    forall p | 0 <= p < pos + 1
      ensures Gather(WriteRow(pool, g, blocks, pos, row), g, blocks, pos + 1)[p]
           == (Gather(pool, g, blocks, pos) + [row])[p]
    {
      CoversShorter(blocks, g, pos + 1, p + 1);
      RowAtAfterWrite(pool, g, blocks, pos, row, blocks, p);
    }
  }

  /** Isolation: a write through one table never changes what a disjoint table gathers. */
  lemma WriteIsolated(pool: Pool, g: Geometry, blocks: seq<nat>, pos: nat, row: Row, others: seq<nat>, len: nat)
    requires Shaped(pool, g) && Covers(blocks, g, pos + 1) && Covers(others, g, len)
    requires Disjoint(blocks, others)
    ensures Gather(WriteRow(pool, g, blocks, pos, row), g, others, len) == Gather(pool, g, others, len)
  {
    forall p | 0 <= p < len
      ensures Gather(WriteRow(pool, g, blocks, pos, row), g, others, len)[p] == Gather(pool, g, others, len)[p]
    {
      CoversShorter(others, g, len, p + 1);
      RowAtAfterWrite(pool, g, blocks, pos, row, others, p);
    }
  }

  lemma LastWritten(pool: Pool, g: Geometry, blocks: seq<nat>, start: nat, rows: seq<Row>)
    requires Shaped(pool, g) && rows != [] && Covers(blocks, g, start + |rows|) && Covers(blocks, g, start + |rows| - 1)
    ensures var n := |rows| - 1;
            WriteRows(pool, g, blocks, start, rows)
            == WriteRow(WriteRows(pool, g, blocks, start, rows[..n]), g, blocks, start + n, rows[n])
  {
    hide WriteRow;
  }

  lemma AppendsAll<T>(before: seq<T>, s: seq<T>)
    requires s != []
    ensures before + s[..|s| - 1] + [s[|s| - 1]] == before + s
  {
  }

  /** Gathering after a write of consecutive rows returns the old rows followed by the new ones. */
  lemma {:induction false} GatherAfterWriteRows(pool: Pool, g: Geometry, blocks: seq<nat>, start: nat, rows: seq<Row>)
    requires Shaped(pool, g) && Covers(blocks, g, start + |rows|) && Covers(blocks, g, start) && NoDup(blocks)
    ensures Gather(WriteRows(pool, g, blocks, start, rows), g, blocks, start + |rows|)
         == Gather(pool, g, blocks, start) + rows
    decreases |rows|
  {
    if rows != [] {
      var n := |rows| - 1;
      CoversShorter(blocks, g, start + |rows|, start + n);
      hide WriteRow, WriteRows, Gather, NoDup;
      var before := WriteRows(pool, g, blocks, start, rows[..n]);
      GatherAfterWriteRows(pool, g, blocks, start, rows[..n]);
      GatherAfterWrite(before, g, blocks, start + n, rows[n]);
      LastWritten(pool, g, blocks, start, rows);
      AppendsAll(Gather(pool, g, blocks, start), rows);
    }
  }

  lemma {:induction false} WriteRowsIsolated(pool: Pool, g: Geometry, blocks: seq<nat>, start: nat, rows: seq<Row>,
                                             others: seq<nat>, len: nat)
    requires Shaped(pool, g) && Covers(blocks, g, start + |rows|) && Covers(others, g, len)
    requires Disjoint(blocks, others)
    ensures Gather(WriteRows(pool, g, blocks, start, rows), g, others, len) == Gather(pool, g, others, len)
    decreases |rows|
  {
    if rows != [] {
      var n := |rows| - 1;
      CoversShorter(blocks, g, start + |rows|, start + n);
      WriteRowsIsolated(pool, g, blocks, start, rows[..n], others, len);
      WriteIsolated(WriteRows(pool, g, blocks, start, rows[..n]), g, blocks, start + n, rows[n], others, len);
    }
  }

  /** Nor does a write that fails on the way. */
  lemma WriteSomeIsolated(pool: Pool, g: Geometry, blocks: seq<nat>, start: nat, rows: seq<Row>, slip: Option<Slip>,
                          others: seq<nat>, len: nat)
    requires Shaped(pool, g) && Covers(blocks, g, start + |rows|) && Covers(others, g, len) && Disjoint(blocks, others)
    ensures Gather(WriteSome(pool, g, blocks, start, rows, slip), g, others, len) == Gather(pool, g, others, len)
  {
    hide Gather, WriteRows, WriteRow, RowAt, Disjoint;
    if slip.None? || slip.value.at >= |rows| {
      WriteRowsIsolated(pool, g, blocks, start, rows, others, len);
    } else {
      var i := slip.value.at;
      CoversShorter(blocks, g, start + |rows|, start + i);
      CoversShorter(blocks, g, start + |rows|, start + i + 1);
      WriteRowsIsolated(pool, g, blocks, start, rows[..i], others, len);
      var before := WriteRows(pool, g, blocks, start, rows[..i]);
      WriteIsolated(before, g, blocks, start + i, Row(rows[i].k, RowAt(before, g, blocks, start + i).v), others, len);
    }
  }

  /** Growing a table does not change what it gathers, whatever stale rows the new blocks hold. */
  lemma GatherGrown(pool: Pool, g: Geometry, blocks: seq<nat>, grown: seq<nat>, len: nat)
    requires Shaped(pool, g) && Covers(blocks, g, len) && Covers(grown, g, len) && blocks <= grown
    ensures Gather(pool, g, grown, len) == Gather(pool, g, blocks, len)
  {
    forall p | 0 <= p < len
      ensures Gather(pool, g, grown, len)[p] == Gather(pool, g, blocks, len)[p]
    {
      CoversShorter(blocks, g, len, p + 1);
      CoversShorter(grown, g, len, p + 1);
      PlaceGrown(blocks, grown, g.bs, p);
    }
  }

  /** The rows of a shorter length are a prefix of those of a longer one. */
  lemma GatherPrefix(pool: Pool, g: Geometry, blocks: seq<nat>, len: nat, shorter: nat)
    requires Shaped(pool, g) && Covers(blocks, g, len) && shorter <= len && Covers(blocks, g, shorter)
    ensures Gather(pool, g, blocks, shorter) == Gather(pool, g, blocks, len)[..shorter]
  {
  }

  // ---------------------------------------------------------------------------------------------------------------
  // Flat addressing: `gather_seq` indexes the pool reshaped to one row per slot

  function Flat(store: seq<seq<Vec>>): seq<Vec> {
    if store == [] then [] else store[0] + Flat(store[1..])
  }

  lemma {:induction false} FlatAt(store: seq<seq<Vec>>, bs: Positive, b: nat, s: nat)
    requires forall i :: 0 <= i < |store| ==> |store[i]| == bs
    requires b < |store| && s < bs
    ensures b * bs + s < |Flat(store)| && Flat(store)[b * bs + s] == store[b][s]
  {
    if b > 0 {
      FlatAt(store[1..], bs, b - 1, s);
      assert (b - 1) * bs + bs == b * bs;
    }
  }

  // ---------------------------------------------------------------------------------------------------------------
  // Masks

  /** One row of `build_mask`: masked at padding keys and at keys after the query's position. */
  function MaskRow(seqLen: nat, qPos: nat, kvLen: nat): seq<Mask> {
    seq(kvLen, k requires 0 <= k => if k >= seqLen || k > qPos then NegInf else Zero)
  }

  /** The mask lets through exactly the keys that exist and are not in the query's future. */
  lemma MaskRowOpens(seqLen: nat, qPos: nat, kvLen: nat)
    requires seqLen <= kvLen
    ensures OpensPrefix(MaskRow(seqLen, qPos, kvLen), if seqLen <= qPos then seqLen else qPos + 1)
  {
  }

  /** The row-major buffer of the first `n` rows. */
  ghost function MaskBuffer(seqLens: seq<nat>, qPositions: seq<nat>, kvLen: nat, n: nat): (data: seq<Mask>)
    requires n <= |seqLens| == |qPositions|
    ensures |data| == n * kvLen
  {
    if n == 0 then []
    else
      assert n * kvLen == (n - 1) * kvLen + kvLen;
      MaskBuffer(seqLens, qPositions, kvLen, n - 1) + MaskRow(seqLens[n - 1], qPositions[n - 1], kvLen)
  }

  /** Row `b` of the buffer, as the reshape to `(batch, kv_len)` reads it. */
  lemma {:induction false} MaskBufferRow(seqLens: seq<nat>, qPositions: seq<nat>, kvLen: nat, n: nat, b: nat)
    requires b < n <= |seqLens| == |qPositions|
    ensures b * kvLen + kvLen <= n * kvLen
    ensures MaskBuffer(seqLens, qPositions, kvLen, n)[b * kvLen..b * kvLen + kvLen]
         == MaskRow(seqLens[b], qPositions[b], kvLen)
    decreases n
  {
    MulGap(b, n, kvLen);
    assert n * kvLen == (n - 1) * kvLen + kvLen;
    if b < n - 1 {
      MaskBufferRow(seqLens, qPositions, kvLen, n - 1, b);
      var inner := MaskBuffer(seqLens, qPositions, kvLen, n - 1);
      assert (inner + MaskRow(seqLens[n - 1], qPositions[n - 1], kvLen))[b * kvLen..b * kvLen + kvLen]
          == inner[b * kvLen..b * kvLen + kvLen];
    }
  }

  method BuildMask(seqLens: seq<nat>, qPositions: seq<nat>, kvLen: nat) returns (data: array<Mask>)
    requires |seqLens| == |qPositions|
    ensures fresh(data) && data[..] == MaskBuffer(seqLens, qPositions, kvLen, |seqLens|)
  {
    var batch := |seqLens|;
    data := new Mask[batch * kvLen](_ => Zero);
    for b := 0 to batch
      invariant b * kvLen <= data.Length
      invariant data[..b * kvLen] == MaskBuffer(seqLens, qPositions, kvLen, b)
      invariant forall i :: b * kvLen <= i < data.Length ==> data[i] == Zero
    {
      MulGap(b, batch, kvLen);
      var base := b * kvLen;
      FillMaskRow(data, base, seqLens[b], qPositions[b], kvLen);
      assert (b + 1) * kvLen == base + kvLen;
      assert data[..base + kvLen] == data[..base] + data[base..base + kvLen];
    }
    assert data[..] == data[..batch * kvLen];
  }

  /** The inner loop of `build_mask`: one row of the buffer. */
  method FillMaskRow(data: array<Mask>, base: nat, seqLen: nat, qPos: nat, kvLen: nat)
    requires base + kvLen <= data.Length
    requires forall i :: base <= i < data.Length ==> data[i] == Zero
    modifies data
    ensures data[..base] == old(data[..base])
    ensures data[base..base + kvLen] == MaskRow(seqLen, qPos, kvLen)
    ensures data[base + kvLen..] == old(data[base + kvLen..])
  {
    for k := 0 to kvLen
      invariant data[..base] == old(data[..base])
      invariant data[base..base + k] == MaskRow(seqLen, qPos, kvLen)[..k]
      invariant data[base + k..] == old(data[base + k..])
    {
      if k >= seqLen || k > qPos {
        data[base + k] := NegInf;
      }
      assert data[base..base + k + 1] == data[base..base + k] + [data[base + k]];
      assert data[base + k + 1..] == data[base + k..][1..];
    }
  }

  // ---------------------------------------------------------------------------------------------------------------
  // The class

  /** Keys and values paired up. */
  function RowsOf(ks: seq<Vec>, vs: seq<Vec>): (rows: seq<Row>)
    requires |ks| == |vs|
    ensures |rows| == |ks|
  {
    seq(|ks|, i requires 0 <= i < |ks| => Row(ks[i], vs[i]))
  }

  lemma RowOf(ks: seq<Vec>, vs: seq<Vec>, i: nat)
    requires |ks| == |vs| && i < |ks|
    ensures RowsOf(ks, vs)[i] == Row(ks[i], vs[i])
  {
  }

  lemma NothingWritten(pool: Pool, g: Geometry, blocks: seq<nat>, start: nat, rows: seq<Row>)
    requires Shaped(pool, g) && Covers(blocks, g, start)
    ensures WriteRows(pool, g, blocks, start, rows[..0]) == pool
  {
  }

  lemma SlotStays(store: seq<seq<Vec>>, b: nat, s: nat)
    requires b < |store| && s < |store[b]|
    ensures SlotUpdate(store, b, s, store[b][s]) == store
  {
    assert store[b][s := store[b][s]] == store[b];
  }

  class KvPool {
    const g: Geometry
    var kPool: seq<seq<Vec>>
    var vPool: seq<seq<Vec>>

    ghost function Value(): Pool
      reads this
    {
      Pool(kPool, vPool)
    }

    ghost predicate Valid()
      reads this
    {
      Shaped(Value(), g)
    }

    /** Zero-filled storage; `zero` is the all-zero row of one head group. */
    constructor (numBlocks: nat, blockSize: Positive, zero: Vec)
      ensures g == Geometry(numBlocks, blockSize) && Valid() && Value() == EmptyPool(g, zero)
    {
      g := Geometry(numBlocks, blockSize);
      kPool := seq(numBlocks, _ => seq(blockSize, _ => zero));
      vPool := seq(numBlocks, _ => seq(blockSize, _ => zero));
    }

    /** Write the rows `ks[i]`/`vs[i]` at positions `startPos + i`. */
    method Write(alloc: BlockAllocator, table: BlockTable, startPos: nat, ks: seq<Vec>, vs: seq<Vec>,
                 slip: Option<Slip>) returns (ok: bool)
      requires Valid() && alloc.blockSize == g.bs && |ks| == |vs|
      requires Covers(table.blocks, g, startPos + |ks|)
      modifies this
      ensures Valid()
      ensures ok <==> slip.None? || slip.value.at >= |ks|
      ensures Value() == WriteSome(old(Value()), g, table.blocks, startPos, RowsOf(ks, vs), slip)
    {
      hide WriteRow, WriteRows, Covers, RowsOf, WriteKey;
      ghost var (start, rows) := (Value(), RowsOf(ks, vs));
      CoversShorter(table.blocks, g, startPos + |ks|, startPos);
      NothingWritten(start, g, table.blocks, startPos, rows);
      for i := 0 to |ks|
        invariant Valid() && Covers(table.blocks, g, startPos + i)
        invariant slip.Some? ==> i <= slip.value.at
        invariant Value() == WriteRows(start, g, table.blocks, startPos, rows[..i])
      {
        CoversShorter(table.blocks, g, startPos + |ks|, startPos + i + 1);
        if slip == Some(Slip(i, false)) {
          return false;
        }
        ok := WriteAt(alloc, table, startPos + i, ks[i], vs[i], slip == Some(Slip(i, true)));
        RowOf(ks, vs, i);
        if !ok {
          return;
        }
        WriteRowsStep(start, g, table.blocks, startPos, rows, i);
      }
      assert rows[..|ks|] == rows;
      ok := true;
    }

    /** One row: its key slice, then its value slice unless that fails. */
    method WriteAt(alloc: BlockAllocator, table: BlockTable, pos: nat, k: Vec, v: Vec, half: bool) returns (ok: bool)
      requires Valid() && alloc.blockSize == g.bs && Covers(table.blocks, g, pos + 1)
      modifies this
      ensures Valid() && ok == !half
      ensures Value() == if half then WriteKey(old(Value()), g, table.blocks, pos, k)
                         else WriteRow(old(Value()), g, table.blocks, pos, Row(k, v))
    {
      var (bid, slot) := alloc.Locate(table, pos);
      kPool := SlotUpdate(kPool, bid, slot, k);
      if half {
        SlotStays(vPool, bid, slot);
        return false;
      }
      vPool := SlotUpdate(vPool, bid, slot, v);
      ok := true;
    }

    /** Physical index of every position of the sequence. */
    method Indices(table: BlockTable, len: nat) returns (idx: seq<nat>)
      requires Covers(table.blocks, g, len)
      ensures |idx| == len && forall p :: 0 <= p < len ==> idx[p] == IndexAt(table.blocks, g, len, p)
    {
      idx := [];
      for pos := 0 to len
        invariant |idx| == pos
        invariant forall p :: 0 <= p < pos ==> IndexAt(table.blocks, g, len, p) == idx[p]
      {
        CoversShorter(table.blocks, g, len, pos + 1);
        PlaceIsDivMod(table.blocks, g.bs, pos);
        var blockId := table.blocks[pos / g.bs];
        idx := idx + [blockId * g.bs + pos % g.bs];
      }
    }

    /** Keys and values of positions `0..len`, by flat row index. */
    method GatherSeq(table: BlockTable, len: nat) returns (gk: seq<Vec>, gv: seq<Vec>)
      requires Valid() && Covers(table.blocks, g, len)
      ensures |gk| == len && |gv| == len
      ensures seq(len, i requires 0 <= i < len => Row(gk[i], gv[i])) == Gather(Value(), g, table.blocks, len)
    {
      hide IndexAt;
      var idx := Indices(table, len);
      var flatK, flatV := Flat(kPool), Flat(vPool);
      forall p | 0 <= p < len
        ensures idx[p] < |flatK| && idx[p] < |flatV|
        ensures Row(flatK[idx[p]], flatV[idx[p]]) == Gather(Value(), g, table.blocks, len)[p]
      {
        assert idx[p] == IndexAt(table.blocks, g, len, p);
        IndexIs(table.blocks, g, len, p);
        var (b, s) := Place(table.blocks, g.bs, p);
        FlatAt(kPool, g.bs, b, s);
        FlatAt(vPool, g.bs, b, s);
      }
      gk := seq(len, p requires 0 <= p < len && idx[p] < |flatK| => flatK[idx[p]]);
      gv := seq(len, p requires 0 <= p < len && idx[p] < |flatV| => flatV[idx[p]]);
    }
  }

  /** Row index of a position in the flattened pool. */
  ghost function IndexAt(blocks: seq<nat>, g: Geometry, len: nat, p: nat): nat
    requires Covers(blocks, g, len) && p < len
  {
    CoversShorter(blocks, g, len, p + 1);
    var (b, s) := Place(blocks, g.bs, p);
    b * g.bs + s
  }

  lemma IndexIs(blocks: seq<nat>, g: Geometry, len: nat, p: nat)
    requires Covers(blocks, g, len) && p < len
    ensures Covers(blocks, g, p + 1)
    ensures var (b, s) := Place(blocks, g.bs, p); IndexAt(blocks, g, len, p) == b * g.bs + s
  {
    CoversShorter(blocks, g, len, p + 1);
  }
}
