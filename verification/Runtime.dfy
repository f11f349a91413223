/**
 The runtime's own forward pass: per-layer cache slots of fixed capacity, attention that appends before it reads, and
 the causal mask by absolute position.

 `RunOut` and `RunCache` say what a stack of blocks does to any input and any caches. `StackIsCausal` says what that
 is when the caches hold a token list's own rows: the causal activations, whatever the pieces the list arrives in.
 */
module Runtime {
  import opened Causal
  import opened Attention

  function Zip(k: seq<Vec>, v: seq<Vec>): (rows: seq<Row>)
    requires |k| == |v|
    ensures |rows| == |k|
  {
    seq(|k|, t requires 0 <= t < |k| => Row(k[t], v[t]))
  }

  function Keys(rows: seq<Row>): (k: seq<Vec>)
    ensures |k| == |rows|
  {
    seq(|rows|, t requires 0 <= t < |rows| => rows[t].k)
  }

  function Values(rows: seq<Row>): (v: seq<Vec>)
    ensures |v| == |rows|
  {
    seq(|rows|, t requires 0 <= t < |rows| => rows[t].v)
  }

  class KvCacheSlot {
    var k: seq<Vec>
    var v: seq<Vec>
    const maxSeq: nat
    var currentLen: nat

    ghost predicate Valid()
      reads this
    {
      |k| == |v| == maxSeq && currentLen <= maxSeq
    }

    /** What a reader sees. */
    ghost function Contents(): (rows: seq<Row>)
      reads this
      requires Valid()
      ensures |rows| == currentLen
    {
      Zip(k[..currentLen], v[..currentLen])
    }

    constructor (maxSeq: nat, zero: Vec)
      ensures Valid() && Contents() == [] && this.maxSeq == maxSeq
    {
      this.maxSeq := maxSeq;
      k := seq(maxSeq, _ => zero);
      v := seq(maxSeq, _ => zero);
      currentLen := 0;
    }

    /** The source aborts when the new rows do not fit. */
    method Append(kNew: seq<Vec>, vNew: seq<Vec>)
      requires Valid() && |kNew| == |vNew| && currentLen + |kNew| <= maxSeq
      modifies this
      ensures Valid() && Contents() == old(Contents()) + Zip(kNew, vNew)
    {
      var start, end := currentLen, currentLen + |kNew|;
      k := k[..start] + kNew + k[end..];
      v := v[..start] + vNew + v[end..];
      currentLen := end;
      assert k[..end] == old(k)[..start] + kNew && v[..end] == old(v)[..start] + vNew;
    }

    method Read() returns (kAll: seq<Vec>, vAll: seq<Vec>)
      requires Valid()
      ensures |kAll| == |vAll| == currentLen && Zip(kAll, vAll) == Contents()
    {
      return k[..currentLen], v[..currentLen];
    }
  }

  /** Absolute positions `start..start + n`. */
  function Positions(start: nat, n: nat): (ps: seq<nat>)
    ensures |ps| == n && forall i :: 0 <= i < n ==> ps[i] == start + i
  {
    seq(n, i requires 0 <= i => start + i)
  }

  method CausalMask(positions: seq<nat>, kSeq: nat) returns (mask: seq<seq<Mask>>)
    ensures |mask| == |positions|
    ensures forall i :: 0 <= i < |positions| ==> mask[i] == MaskRow(kSeq, positions[i], kSeq)
  {
    mask := [];
    for i := 0 to |positions|
      invariant |mask| == i
      invariant forall t :: 0 <= t < i ==> mask[t] == MaskRow(kSeq, positions[t], kSeq)
    {
      var row: seq<Mask> := [];
      for j := 0 to kSeq
        invariant row == MaskRow(kSeq, positions[i], kSeq)[..j]
      {
        if j <= positions[i] {
          row := row + [Zero];
        } else {
          row := row + [NegInf];
        }
      }
      mask := mask + [row];
    }
  }

  // ---------------------------------------------------------------- one block

  function NewRows(m: Model, li: nat, xs: seq<Vec>, ps: seq<nat>): (rows: seq<Row>)
    requires |xs| == |ps|
    ensures |rows| == |xs|
  {
    seq(|xs|, i requires 0 <= i < |xs| => m.project(li, xs[i], ps[i]))
  }

  /** What one block does to `xs` when its cache holds `all` after the append. */
  function BlockOut(m: Model, li: nat, xs: seq<Vec>, ps: seq<nat>, all: seq<Row>): (ys: seq<Vec>)
    requires |xs| == |ps|
    ensures |ys| == |xs|
  {
    seq(|xs|, i requires 0 <= i < |xs| => Block(m, li, xs[i], ps[i], all, MaskRow(|all|, ps[i], |all|)))
  }

  method BlockForward(m: Model, li: nat, xs: seq<Vec>, ps: seq<nat>, slot: KvCacheSlot) returns (ys: seq<Vec>)
    requires |xs| == |ps| && slot.Valid() && slot.currentLen + |xs| <= slot.maxSeq
    modifies slot
    ensures slot.Valid() && slot.Contents() == old(slot.Contents()) + NewRows(m, li, xs, ps)
    ensures ys == BlockOut(m, li, xs, ps, slot.Contents())
  {
    hide Block;
    var rows := NewRows(m, li, xs, ps);
    slot.Append(Keys(rows), Values(rows));
    assert Zip(Keys(rows), Values(rows)) == rows;
    var kAll, vAll := slot.Read();
    var all := Zip(kAll, vAll);
    var mask := CausalMask(ps, |all|);
    ys := seq(|xs|, i requires 0 <= i < |xs| && |mask[i]| == |all| => Block(m, li, xs[i], ps[i], all, mask[i]));
  }

  // ---------------------------------------------------------------- a stack of blocks

  /** The activations after the first `k` blocks of a stack that starts at layer `lo`. */
  function RunOut(m: Model, lo: nat, k: nat, xs: seq<Vec>, ps: seq<nat>, caches: seq<seq<Row>>): (ys: seq<Vec>)
    requires |xs| == |ps| && k <= |caches|
    ensures |ys| == |xs|
  {
    if k == 0 then xs
    else
      var x := RunOut(m, lo, k - 1, xs, ps, caches);
      BlockOut(m, lo + k - 1, x, ps, caches[k - 1] + NewRows(m, lo + k - 1, x, ps))
  }

  /** What block `t` of the stack has cached afterwards. */
  function RunCache(m: Model, lo: nat, t: nat, xs: seq<Vec>, ps: seq<nat>, caches: seq<seq<Row>>): (rows: seq<Row>)
    requires |xs| == |ps| && t < |caches|
    ensures |rows| == |caches[t]| + |xs|
  {
    caches[t] + NewRows(m, lo + t, RunOut(m, lo, t, xs, ps, caches), ps)
  }

  function RunCaches(m: Model, lo: nat, xs: seq<Vec>, ps: seq<nat>, caches: seq<seq<Row>>): (after: seq<seq<Row>>)
    requires |xs| == |ps|
    ensures |after| == |caches|
    ensures forall t :: 0 <= t < |caches| ==> after[t] == RunCache(m, lo, t, xs, ps, caches)
  {
    seq(|caches|, t requires 0 <= t < |caches| => RunCache(m, lo, t, xs, ps, caches))
  }

  ghost predicate Distinct(slots: seq<KvCacheSlot>) {
    forall s, t :: 0 <= s < t < |slots| ==> slots[s] != slots[t]
  }

  ghost predicate Ready(slots: seq<KvCacheSlot>, n: nat)
    reads slots
  {
    forall t :: 0 <= t < |slots| ==> slots[t].Valid() && slots[t].currentLen + n <= slots[t].maxSeq
  }

  ghost function Held(slots: seq<KvCacheSlot>): (rows: seq<seq<Row>>)
    reads slots
    requires Ready(slots, 0)
    ensures |rows| == |slots|
    ensures forall t :: 0 <= t < |slots| ==> rows[t] == slots[t].Contents()
  {
    seq(|slots|, t requires 0 <= t < |slots| && slots[t].Valid() reads slots => slots[t].Contents())
  }

  /** `for (block, cache) in blocks.iter().zip(caches)`. */
  method RunStack(m: Model, lo: nat, xs: seq<Vec>, ps: seq<nat>, slots: seq<KvCacheSlot>) returns (ys: seq<Vec>)
    requires |xs| == |ps| && Distinct(slots) && Ready(slots, |xs|)
    modifies slots
    ensures Ready(slots, 0)
    ensures ys == RunOut(m, lo, |slots|, xs, ps, old(Held(slots)))
    ensures Held(slots) == RunCaches(m, lo, xs, ps, old(Held(slots)))
  {
    hide BlockOut, NewRows, RunOut, RunCache;
    ghost var before := Held(slots);
    ys := xs;
    StackStart(m, lo, xs, ps, before);
    for t := 0 to |slots|
      invariant ys == RunOut(m, lo, t, xs, ps, before)
      invariant forall s :: 0 <= s < t ==> slots[s].Valid() && slots[s].Contents() == RunCache(m, lo, s, xs, ps, before)
      invariant forall s :: t <= s < |slots| ==>
        slots[s].Valid() && slots[s].currentLen + |xs| <= slots[s].maxSeq && slots[s].Contents() == before[s]
    {
      StackStep(m, lo, t, xs, ps, before);
      ys := BlockForward(m, lo + t, ys, ps, slots[t]);
    }
    assert Held(slots) == RunCaches(m, lo, xs, ps, before);
  }

  lemma StackStart(m: Model, lo: nat, xs: seq<Vec>, ps: seq<nat>, caches: seq<seq<Row>>)
    requires |xs| == |ps|
    ensures RunOut(m, lo, 0, xs, ps, caches) == xs
  {
  }

  lemma StackStep(m: Model, lo: nat, t: nat, xs: seq<Vec>, ps: seq<nat>, caches: seq<seq<Row>>)
    requires |xs| == |ps| && t < |caches|
    ensures var x := RunOut(m, lo, t, xs, ps, caches);
            && RunCache(m, lo, t, xs, ps, caches) == caches[t] + NewRows(m, lo + t, x, ps)
            && RunOut(m, lo, t + 1, xs, ps, caches) == BlockOut(m, lo + t, x, ps, RunCache(m, lo, t, xs, ps, caches))
  {
  }

  // ---------------------------------------------------------------- causal meaning

  /** The activations entering layer `li` at positions `start..end`. */
  function Acts(m: Model, toks: seq<nat>, li: nat, start: nat, end: nat): (xs: seq<Vec>)
    requires start <= end <= |toks|
    ensures |xs| == end - start
  {
    seq(end - start, i requires 0 <= i < end - start => Act(m, toks, li, start + i))
  }

  /** The caches of layers `lo..lo + n` hold exactly the first `len` rows of `toks`. */
  ghost predicate Caught(m: Model, toks: seq<nat>, lo: nat, caches: seq<seq<Row>>, len: nat) {
    len <= |toks| && forall t :: 0 <= t < |caches| ==> caches[t] == Rows(m, toks, lo + t, len)
  }

  lemma RowsGrow(m: Model, toks: seq<nat>, li: nat, start: nat, end: nat)
    requires start <= end <= |toks|
    ensures Rows(m, toks, li, start) + NewRows(m, li, Acts(m, toks, li, start, end), Positions(start, end - start))
         == Rows(m, toks, li, end)
  {
    hide Act;
  }

  lemma RowsPrefix(m: Model, toks: seq<nat>, li: nat, n: nat, end: nat)
    requires n <= end <= |toks|
    ensures Rows(m, toks, li, end)[..n] == Rows(m, toks, li, n)
  {
    hide Act;
  }

  /** One query of a block sees, through the mask, exactly the positions up to its own. */
  lemma BlockSeesPast(m: Model, toks: seq<nat>, li: nat, p: nat, end: nat)
    requires p < end <= |toks|
    ensures Block(m, li, Act(m, toks, li, p), p, Rows(m, toks, li, end), MaskRow(end, p, end))
         == Act(m, toks, li + 1, p)
  {
    hide Block;
    MaskRowOpens(end, p, end);
    MaskIsPrefix(m, li, Act(m, toks, li, p), p, Rows(m, toks, li, end), MaskRow(end, p, end), p + 1);
    RowsPrefix(m, toks, li, p + 1, end);
  }

  lemma BlockIsCausal(m: Model, toks: seq<nat>, li: nat, start: nat, end: nat)
    requires start <= end <= |toks|
    ensures BlockOut(m, li, Acts(m, toks, li, start, end), Positions(start, end - start), Rows(m, toks, li, end))
         == Acts(m, toks, li + 1, start, end)
  {
    hide Block, Act, MaskRow;
    var xs, ps := Acts(m, toks, li, start, end), Positions(start, end - start);
    var a, b := BlockOut(m, li, xs, ps, Rows(m, toks, li, end)), Acts(m, toks, li + 1, start, end);
    forall i | 0 <= i < end - start
      ensures a[i] == b[i]
    {
      BlockSeesPast(m, toks, li, start + i, end);
    }
  }

  /** A stack fed the causal activations of positions `start..end`, with caches that hold the rows before them, leaves
      the rows up to `end` in its caches and hands on the causal activations of the layer after it. */
  lemma {:induction false} StackIsCausal(m: Model, toks: seq<nat>, lo: nat, k: nat, start: nat, end: nat,
                                         caches: seq<seq<Row>>)
    requires start <= end <= |toks| && k <= |caches| && Caught(m, toks, lo, caches, start)
    ensures var (xs, ps) := (Acts(m, toks, lo, start, end), Positions(start, end - start));
            && RunOut(m, lo, k, xs, ps, caches) == Acts(m, toks, lo + k, start, end)
            && forall t :: 0 <= t < k ==> RunCache(m, lo, t, xs, ps, caches) == Rows(m, toks, lo + t, end)
    decreases k
  {
    hide BlockOut, NewRows, Acts, Positions, RunOut, RunCache, Rows;
    var xs, ps := Acts(m, toks, lo, start, end), Positions(start, end - start);
    if k == 0 {
      StackStart(m, lo, xs, ps, caches);
    } else {
      StackIsCausal(m, toks, lo, k - 1, start, end, caches);
      StackStep(m, lo, k - 1, xs, ps, caches);
      RowsGrow(m, toks, lo + k - 1, start, end);
      BlockIsCausal(m, toks, lo + k - 1, start, end);
    }
  }

  // ---------------------------------------------------------------- the whole model

  function Embedded(m: Model, toks: seq<nat>): (xs: seq<Vec>)
    ensures |xs| == |toks|
  {
    seq(|toks|, i requires 0 <= i < |toks| => m.embed(toks[i]))
  }

  function Headed(m: Model, xs: seq<Vec>): (logits: seq<Vec>)
    ensures |logits| == |xs|
  {
    seq(|xs|, i requires 0 <= i < |xs| => m.head(xs[i]))
  }

  datatype Forwarded = Forwarded(logits: seq<Vec>, caches: seq<seq<Row>>)

  function Forward(m: Model, toks: seq<nat>, start: nat, caches: seq<seq<Row>>): (r: Forwarded)
    ensures |r.caches| == |caches|
  {
    var xs, ps := Embedded(m, toks), Positions(start, |toks|);
    Forwarded(Headed(m, RunOut(m, 0, |caches|, xs, ps, caches)), RunCaches(m, 0, xs, ps, caches))
  }

  /** One logits vector for each token fed. */
  method ForwardWithCaches(m: Model, toks: seq<nat>, start: nat, slots: seq<KvCacheSlot>) returns (logits: seq<Vec>)
    requires |slots| == m.nLayers && Distinct(slots) && Ready(slots, |toks|)
    modifies slots
    ensures Ready(slots, 0)
    ensures Forwarded(logits, Held(slots)) == Forward(m, toks, start, old(Held(slots)))
  {
    hide RunOut, RunCaches, Embedded, Headed, Positions;
    var ps := Positions(start, |toks|);
    var x := Embedded(m, toks);
    x := RunStack(m, 0, x, ps, slots);
    logits := Headed(m, x);
  }

  lemma EmbeddedIsAct(m: Model, toks: seq<nat>, start: nat, end: nat)
    requires start <= end <= |toks|
    ensures Embedded(m, toks[start..end]) == Acts(m, toks, 0, start, end)
  {
    var a, b := Embedded(m, toks[start..end]), Acts(m, toks, 0, start, end);
    forall i | 0 <= i < end - start
      ensures a[i] == b[i]
    {
      assert toks[start..end][i] == toks[start + i];
      assert Act(m, toks, 0, start + i) == m.embed(toks[start + i]);
    }
  }

  /** Feeding tokens `start..end` to caches that hold the rows before them gives the causal logits of each of those
      positions. */
  lemma ForwardIsCausal(m: Model, toks: seq<nat>, start: nat, end: nat, caches: seq<seq<Row>>)
    requires start <= end <= |toks| && |caches| == m.nLayers && Caught(m, toks, 0, caches, start)
    ensures var r := Forward(m, toks[start..end], start, caches);
            && r.logits == Headed(m, Acts(m, toks, m.nLayers, start, end))
            && Caught(m, toks, 0, r.caches, end)
  {
    hide Embedded, Acts, Positions, RunOut, RunCache, Rows, Headed;
    StackIsCausal(m, toks, 0, m.nLayers, start, end, caches);
    EmbeddedIsAct(m, toks, start, end);
  }

  function Flat(chunks: seq<seq<nat>>): seq<nat> {
    if chunks == [] then [] else Flat(chunks[..|chunks| - 1]) + chunks[|chunks| - 1]
  }

  /** One request fed piece by piece. */
  function Chunked(m: Model, chunks: seq<seq<nat>>, caches: seq<seq<Row>>): (r: Forwarded)
    ensures |r.caches| == |caches|
  {
    if chunks == [] then Forwarded([], caches)
    else
      var n := |chunks| - 1;
      var before := Chunked(m, chunks[..n], caches);
      var step := Forward(m, chunks[n], |Flat(chunks[..n])|, before.caches);
      Forwarded(before.logits + step.logits, step.caches)
  }

  function EmptyCaches(n: nat): seq<seq<Row>> {
    seq(n, _ => [])
  }

  lemma {:induction false} ChunkedIsCausal(m: Model, chunks: seq<seq<nat>>, toks: seq<nat>)
    requires Flat(chunks) <= toks
    ensures var r := Chunked(m, chunks, EmptyCaches(m.nLayers));
            && r.logits == Headed(m, Acts(m, toks, m.nLayers, 0, |Flat(chunks)|))
            && Caught(m, toks, 0, r.caches, |Flat(chunks)|)
    decreases |chunks|
  {
    hide Forward, Act;
    if chunks != [] {
      var n := |chunks| - 1;
      var front := chunks[..n];
      var (start, end) := (|Flat(front)|, |Flat(chunks)|);
      assert Flat(chunks) == Flat(front) + chunks[n];
      ChunkedIsCausal(m, front, toks);
      assert toks[start..end] == chunks[n];
      ForwardIsCausal(m, toks, start, end, Chunked(m, front, EmptyCaches(m.nLayers)).caches);
      HeadedActsJoin(m, toks, start, end);
    }
  }

  lemma HeadedActsJoin(m: Model, toks: seq<nat>, mid: nat, end: nat)
    requires mid <= end <= |toks|
    ensures Headed(m, Acts(m, toks, m.nLayers, 0, mid)) + Headed(m, Acts(m, toks, m.nLayers, mid, end))
         == Headed(m, Acts(m, toks, m.nLayers, 0, end))
  {
    hide Act;
  }

  /** However a token list is split into pieces, at once, one by one, or anything between, feeding the pieces in turn
      gives the same logits for every position and leaves the same rows cached: those of the causal recomputation. */
  lemma ChunksDoNotMatter(m: Model, a: seq<seq<nat>>, b: seq<seq<nat>>)
    requires Flat(a) == Flat(b)
    ensures Chunked(m, a, EmptyCaches(m.nLayers)) == Chunked(m, b, EmptyCaches(m.nLayers))
    ensures Flat(a) != [] ==>
      var logits := Chunked(m, a, EmptyCaches(m.nLayers)).logits;
      logits != [] && logits[|logits| - 1] == Logits(m, Flat(a))
  {
    hide Chunked, Act, Flat;
    ChunkedIsCausal(m, a, Flat(a));
    ChunkedIsCausal(m, b, Flat(a));
    var ra, rb := Chunked(m, a, EmptyCaches(m.nLayers)), Chunked(m, b, EmptyCaches(m.nLayers));
    assert ra.caches == rb.caches;
  }
}
