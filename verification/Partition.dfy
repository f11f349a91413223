/**
 The layer-cut solver: contiguous layer ranges for nodes in pipeline order, minimising the slowest stage under
 per-node memory caps.

 `Best` is the dynamic program; `AutoPartition` fills its tables with the source's loops. What makes a cut list right
 (`Fits`, `Worst`, `Optimal`) is stated without the dynamic program.
 */
module Partition {
  import opened Basics
  import opened Bytes

  /** Node ids compare as bytes, as Rust's `str` does. */
  type NodeId = seq<Byte>

  datatype Capability = Capability(nodeId: NodeId, memory: nat, score: nat)

  datatype Assignment = Assignment(nodeId: NodeId, start: nat, end: nat, hostsEmbedding: bool, hostsOutput: bool,
                                   previous: Option<NodeId>, next: Option<NodeId>)

  datatype Manifest = Manifest(modelId: seq<Byte>, hash: seq<Byte>, assignments: seq<Assignment>)

  /** Sizes shared by every node: the first one also holds the embedding and the output projection. */
  datatype Sizes = Sizes(nLayers: nat, layerBytes: Positive, embedBytes: nat, overhead: nat)

  datatype Refusal = NoNodes | NoLayers | OverCapacity | NoAssignment

  const INF: nat := 4611686018427387903

  /** No machine integer overflows and every finite stage cost is below the infeasible mark. */
  predicate InRange(z: Sizes) {
    z.nLayers * 1000 < INF
  }

  function Reserved(z: Sizes, k: nat): nat {
    if k == 0 then z.embedBytes + z.overhead else z.overhead
  }

  function MaxLayers(caps: seq<Capability>, z: Sizes, k: nat): nat
    requires k < |caps|
  {
    if caps[k].memory <= Reserved(z, k) then 0 else (caps[k].memory - Reserved(z, k)) / z.layerBytes
  }

  function Stage(c: Capability, given: nat): nat {
    if c.score == 0 then INF else given * 1000 / c.score
  }

  function Max(a: nat, b: nat): nat {
    if a < b then b else a
  }

  // ---------------------------------------------------------------- what a right answer is

  /** Node `k` can hold `a` layers: a node given none needs no memory at all. */
  predicate Holds(caps: seq<Capability>, z: Sizes, k: nat, a: nat)
    requires k < |caps|
  {
    a == 0 || a * z.layerBytes + Reserved(z, k) <= caps[k].memory
  }

  ghost predicate Rising(cuts: seq<nat>, k: nat) {
    k < |cuts| && forall t :: 0 <= t < k ==> cuts[t] <= cuts[t + 1]
  }

  /** Cuts of the first `i` layers over the first `k` nodes, in order, each node within its memory. */
  ghost predicate Fits(caps: seq<Capability>, z: Sizes, cuts: seq<nat>, k: nat, i: nat)
    requires k <= |caps|
  {
    && |cuts| == k + 1 && cuts[0] == 0 && cuts[k] == i && Rising(cuts, k)
    && forall t :: 0 <= t < k ==> Holds(caps, z, t, cuts[t + 1] - cuts[t])
  }

  /** The slowest of the first `k` stages. */
  ghost function Worst(caps: seq<Capability>, cuts: seq<nat>, k: nat): nat
    requires k <= |caps| && Rising(cuts, k)
  {
    if k == 0 then 0 else Max(Worst(caps, cuts, k - 1), Stage(caps[k - 1], cuts[k] - cuts[k - 1]))
  }

  ghost predicate Optimal(caps: seq<Capability>, z: Sizes, cuts: seq<nat>, k: nat, i: nat)
    requires k <= |caps|
  {
    && Fits(caps, z, cuts, k, i)
    && forall other :: Fits(caps, z, other, k, i) ==> Worst(caps, cuts, k) <= Worst(caps, other, k)
  }

  lemma MaxLayersExact(caps: seq<Capability>, z: Sizes, k: nat, a: nat)
    requires k < |caps|
    ensures a <= MaxLayers(caps, z, k) <==> Holds(caps, z, k, a)
  {
    if a > 0 && caps[k].memory > Reserved(z, k) {
      DivExact(caps[k].memory - Reserved(z, k), z.layerBytes, a);
    } else if a > 0 {
      assert a * z.layerBytes > 0;
    }
  }

  lemma DivExact(m: nat, d: Positive, a: nat)
    ensures a <= m / d <==> a * d <= m
  {
    var q := m / d;
    assert q * d <= m < q * d + d;
    if a <= q {
      assert a * d <= q * d;
    } else {
      assert a * d >= (q + 1) * d;
    }
  }

  /** A stage costs at most `q` exactly when its thousandfold layers are fewer than `q + 1` times the node's score. */
  lemma StageExact(c: Capability, given: nat, q: nat)
    requires c.score > 0
    ensures Stage(c, given) <= q <==> given * 1000 < (q + 1) * c.score
  {
    DivExact(given * 1000, c.score, q + 1);
  }

  lemma StageFinite(c: Capability, given: nat)
    requires c.score > 0
    ensures Stage(c, given) <= given * 1000
  {
    StageExact(c, given, given * 1000);
    AtMostProduct(given * 1000 + 1, c.score);
  }

  lemma AtMostProduct(q: nat, d: Positive)
    ensures q <= q * d
  {
  }

  // ---------------------------------------------------------------- the dynamic program

  datatype Cell = Cell(cost: nat, back: nat)

  /** The cell for the first `i` layers on the first `k` nodes after cut points `0..j` have been tried. */
  function Scan(caps: seq<Capability>, z: Sizes, k: nat, i: nat, j: nat): Cell
    requires 0 < k <= |caps| && j <= i + 1
    decreases k, j
  {
    if j == 0 then Cell(INF, 0)
    else
      var c := Scan(caps, z, k, i, j - 1);
      var before := Best(caps, z, k - 1, j - 1).cost;
      if before == INF || i - (j - 1) > MaxLayers(caps, z, k - 1) then c
      else
        var candidate := Max(before, Stage(caps[k - 1], i - (j - 1)));
        if candidate < c.cost then Cell(candidate, j - 1) else c
  }

  function Best(caps: seq<Capability>, z: Sizes, k: nat, i: nat): Cell
    requires k <= |caps|
    decreases k, i + 2
  {
    if k == 0 then Cell(if i == 0 then 0 else INF, 0) else Scan(caps, z, k, i, i + 1)
  }

  /** The cut list the back pointers spell out. */
  function Recover(caps: seq<Capability>, z: Sizes, k: nat, i: nat): (cuts: seq<nat>)
    requires k <= |caps|
    ensures |cuts| == k + 1 && cuts[k] == i
  {
    if k == 0 then [i] else Recover(caps, z, k - 1, Best(caps, z, k, i).back) + [i]
  }

  /** Cut point `j` is admissible for the first `i` layers on the first `k` nodes. */
  predicate Usable(caps: seq<Capability>, z: Sizes, k: nat, i: nat, j: nat)
    requires 0 < k <= |caps| && j <= i
  {
    Best(caps, z, k - 1, j).cost < INF && Holds(caps, z, k - 1, i - j)
  }

  function Through(caps: seq<Capability>, z: Sizes, k: nat, i: nat, j: nat): nat
    requires 0 < k <= |caps| && j <= i
  {
    Max(Best(caps, z, k - 1, j).cost, Stage(caps[k - 1], i - j))
  }

  lemma ScanStep(caps: seq<Capability>, z: Sizes, k: nat, i: nat, j: nat)
    requires 0 < k <= |caps| && j <= i && Best(caps, z, k - 1, j).cost <= INF
    ensures var c := Scan(caps, z, k, i, j);
            Scan(caps, z, k, i, j + 1) ==
            if Usable(caps, z, k, i, j) && Through(caps, z, k, i, j) < c.cost
            then Cell(Through(caps, z, k, i, j), j) else c
  {
    hide Best, MaxLayers, Stage, Holds;
    MaxLayersExact(caps, z, k - 1, i - j);
  }

  /** The scan keeps the least cost, at the first cut point that reaches it. */
  lemma {:induction false} ScanLeast(caps: seq<Capability>, z: Sizes, k: nat, i: nat, j: nat)
    requires 0 < k <= |caps| && j <= i + 1
    ensures var c := Scan(caps, z, k, i, j);
            && c.cost <= INF
            && c.back <= i
            && (c.cost < INF ==>
                  c.back < j && Usable(caps, z, k, i, c.back) && Through(caps, z, k, i, c.back) == c.cost)
            && (forall b :: 0 <= b < j && Usable(caps, z, k, i, b) ==> c.cost <= Through(caps, z, k, i, b))
            && (forall b :: 0 <= b < c.back && Usable(caps, z, k, i, b) ==> c.cost < Through(caps, z, k, i, b))
    decreases k, j
  {
    hide Best, Usable, Through;
    if j == 0 {
      assert Scan(caps, z, k, i, 0) == Cell(INF, 0);
    } else {
      hide Scan;
      ScanLeast(caps, z, k, i, j - 1);
      BestBounded(caps, z, k - 1, j - 1);
      ScanStep(caps, z, k, i, j - 1);
    }
  }

  lemma BestBounded(caps: seq<Capability>, z: Sizes, k: nat, i: nat)
    requires k <= |caps|
    ensures Best(caps, z, k, i).cost <= INF
    decreases k, i + 2
  {
    hide Scan;
    if k > 0 {
      ScanLeast(caps, z, k, i, i + 1);
    }
  }

  /** A cell holds the least cost over its admissible cut points, and points at the first of those that reach it. */
  lemma BestLeast(caps: seq<Capability>, z: Sizes, k: nat, i: nat)
    requires 0 < k <= |caps|
    ensures var c := Best(caps, z, k, i);
            && c.cost <= INF && c.back <= i
            && (c.cost < INF ==> Usable(caps, z, k, i, c.back) && Through(caps, z, k, i, c.back) == c.cost)
            && (forall b :: 0 <= b <= i && Usable(caps, z, k, i, b) ==> c.cost <= Through(caps, z, k, i, b))
            && (forall b :: 0 <= b < c.back && Usable(caps, z, k, i, b) ==> c.cost < Through(caps, z, k, i, b))
  {
    hide Scan, Usable, Through;
    ScanLeast(caps, z, k, i, i + 1);
  }

  lemma WorstPrefix(caps: seq<Capability>, cuts: seq<nat>, m: nat, k: nat)
    requires k <= |caps| && k < m <= |cuts| && Rising(cuts, m - 1)
    ensures Worst(caps, cuts[..m], k) == Worst(caps, cuts, k)
  {
    if k > 0 {
      WorstPrefix(caps, cuts, m, k - 1);
    }
  }

  lemma FitsFront(caps: seq<Capability>, z: Sizes, cuts: seq<nat>, k: nat, i: nat)
    requires 0 < k <= |caps| && Fits(caps, z, cuts, k, i)
    ensures |cuts| == k + 1 && Fits(caps, z, cuts[..k], k - 1, cuts[k - 1])
    ensures Rising(cuts, k)
    ensures Worst(caps, cuts, k) == Max(Worst(caps, cuts[..k], k - 1), Stage(caps[k - 1], i - cuts[k - 1]))
    ensures cuts[k - 1] <= i && Holds(caps, z, k - 1, i - cuts[k - 1])
  {
    hide Holds, Stage;
    WorstPrefix(caps, cuts, k, k - 1);
    assert cuts[k - 1] <= cuts[k - 1 + 1];
  }

  lemma FitsExtend(caps: seq<Capability>, z: Sizes, cuts: seq<nat>, k: nat, i: nat)
    requires 0 < k <= |caps| && |cuts| == k && Fits(caps, z, cuts, k - 1, cuts[k - 1])
    requires cuts[k - 1] <= i && Holds(caps, z, k - 1, i - cuts[k - 1])
    ensures Fits(caps, z, cuts + [i], k, i)
    ensures Rising(cuts + [i], k)
    ensures Worst(caps, cuts + [i], k) == Max(Worst(caps, cuts, k - 1), Stage(caps[k - 1], i - cuts[k - 1]))
  {
    hide Holds, Stage;
    var d := cuts + [i];
    forall t | 0 <= t < k
      ensures d[t] <= d[t + 1] && Holds(caps, z, t, d[t + 1] - d[t])
    {
      if t < k - 1 {
        assert d[t] == cuts[t] && d[t + 1] == cuts[t + 1];
      }
    }
    assert d[..k] == cuts;
    WorstPrefix(caps, d, k, k - 1);
  }

  /** No list of cuts beats the table. */
  lemma {:induction false} CostLower(caps: seq<Capability>, z: Sizes, cuts: seq<nat>, k: nat, i: nat)
    requires k <= |caps| && Fits(caps, z, cuts, k, i) && Worst(caps, cuts, k) < INF
    ensures Best(caps, z, k, i).cost <= Worst(caps, cuts, k)
    decreases k
  {
    if k > 0 {
      hide Fits, Worst, Best, Holds, Stage;
      FitsFront(caps, z, cuts, k, i);
      CostLower(caps, z, cuts[..k], k - 1, cuts[k - 1]);
      BestLeast(caps, z, k, i);
      assert Usable(caps, z, k, i, cuts[k - 1]);
    }
  }

  /** The recovered cuts fit and cost what the table says. */
  lemma {:induction false} RecoverAchieves(caps: seq<Capability>, z: Sizes, k: nat, i: nat)
    requires k <= |caps| && Best(caps, z, k, i).cost < INF
    ensures Fits(caps, z, Recover(caps, z, k, i), k, i)
    ensures Worst(caps, Recover(caps, z, k, i), k) == Best(caps, z, k, i).cost
    decreases k
  {
    if k > 0 {
      hide Fits, Worst, Best, Holds, Stage;
      BestLeast(caps, z, k, i);
      var b := Best(caps, z, k, i).back;
      RecoverAchieves(caps, z, k - 1, b);
      FitsExtend(caps, z, Recover(caps, z, k - 1, b), k, i);
    }
  }

  /** The recovered cuts are the best of all cuts. */
  lemma RecoverOptimal(caps: seq<Capability>, z: Sizes, k: nat, i: nat)
    requires k <= |caps| && Best(caps, z, k, i).cost < INF
    ensures Optimal(caps, z, Recover(caps, z, k, i), k, i)
  {
    hide Worst, Best, Recover, Holds;
    RecoverAchieves(caps, z, k, i);
    var best := Recover(caps, z, k, i);
    forall other | Fits(caps, z, other, k, i)
      ensures Worst(caps, best, k) <= Worst(caps, other, k)
    {
      if Worst(caps, other, k) < INF {
        CostLower(caps, z, other, k, i);
      }
    }
  }

  /** Every prefix of the recovered cuts is itself the best for its nodes and layers. */
  lemma {:induction false} RecoverPrefixesOptimal(caps: seq<Capability>, z: Sizes, k: nat, i: nat, t: nat)
    requires t <= k <= |caps| && Best(caps, z, k, i).cost < INF
    ensures var cuts := Recover(caps, z, k, i); Optimal(caps, z, cuts[..t + 1], t, cuts[t])
    decreases k
  {
    hide Optimal;
    var cuts := Recover(caps, z, k, i);
    if t == k {
      RecoverOptimal(caps, z, k, i);
      assert cuts[..k + 1] == cuts;
    } else {
      hide Best, Holds;
      BestLeast(caps, z, k, i);
      var b := Best(caps, z, k, i).back;
      RecoverPrefixesOptimal(caps, z, k - 1, b, t);
      assert cuts[..t + 1] == Recover(caps, z, k - 1, b)[..t + 1];
    }
  }

  // ---------------------------------------------------------------- feasibility

  /** Layers the first `k` nodes can hold together. */
  function Capacity(caps: seq<Capability>, z: Sizes, k: nat): nat
    requires k <= |caps|
  {
    if k == 0 then 0 else Capacity(caps, z, k - 1) + MaxLayers(caps, z, k - 1)
  }

  predicate Scored(caps: seq<Capability>) {
    forall c :: c in caps ==> c.score > 0
  }

  lemma {:induction false} FitsWithinCapacity(caps: seq<Capability>, z: Sizes, cuts: seq<nat>, k: nat, i: nat)
    requires k <= |caps| && Fits(caps, z, cuts, k, i)
    ensures i <= Capacity(caps, z, k)
    decreases k
  {
    if k > 0 {
      hide Fits, Holds, MaxLayers;
      FitsFront(caps, z, cuts, k, i);
      FitsWithinCapacity(caps, z, cuts[..k], k - 1, cuts[k - 1]);
      MaxLayersExact(caps, z, k - 1, i - cuts[k - 1]);
    }
  }

  /** Filling the nodes from the front fits whenever the summed capacity suffices. */
  lemma {:induction false} CapacityFits(caps: seq<Capability>, z: Sizes, k: nat, i: nat) returns (cuts: seq<nat>)
    requires k <= |caps| && i <= Capacity(caps, z, k)
    ensures Fits(caps, z, cuts, k, i)
    decreases k
  {
    if k == 0 {
      cuts := [0];
    } else {
      hide Fits, Holds, MaxLayers;
      var j := if i <= Capacity(caps, z, k - 1) then i else Capacity(caps, z, k - 1);
      cuts := CapacityFits(caps, z, k - 1, j);
      FitsEnds(caps, z, cuts, k - 1, j);
      MaxLayersExact(caps, z, k - 1, i - j);
      FitsExtend(caps, z, cuts, k, i);
      cuts := cuts + [i];
    }
  }

  lemma FitsEnds(caps: seq<Capability>, z: Sizes, cuts: seq<nat>, k: nat, i: nat)
    requires k <= |caps| && Fits(caps, z, cuts, k, i)
    ensures |cuts| == k + 1 && cuts[0] == 0 && cuts[k] == i && Rising(cuts, k)
  {
  }

  lemma {:induction false} WorstFinite(caps: seq<Capability>, z: Sizes, cuts: seq<nat>, k: nat, i: nat)
    requires k <= |caps| && Fits(caps, z, cuts, k, i) && Scored(caps)
    ensures Rising(cuts, k) && Worst(caps, cuts, k) <= i * 1000
    decreases k
  {
    if k > 0 {
      hide Fits, Holds, Stage, Worst;
      FitsFront(caps, z, cuts, k, i);
      WorstFinite(caps, z, cuts[..k], k - 1, cuts[k - 1]);
      StageFinite(caps[k - 1], i - cuts[k - 1]);
    }
  }

  lemma {:induction false} UnscoredCostsAll(caps: seq<Capability>, z: Sizes, k: nat, i: nat, t: nat)
    requires t < k <= |caps| && caps[t].score == 0
    ensures Best(caps, z, k, i).cost == INF
    decreases k
  {
    hide Best, Holds;
    BestLeast(caps, z, k, i);
    var c := Best(caps, z, k, i);
    if c.cost < INF && t < k - 1 {
      UnscoredCostsAll(caps, z, k - 1, c.back, t);
    }
  }

  /** The table's last cell is finite exactly when every score is positive and the summed capacity suffices. */
  lemma FeasibleExactly(caps: seq<Capability>, z: Sizes)
    requires InRange(z)
    ensures Best(caps, z, |caps|, z.nLayers).cost < INF <==> Scored(caps) && z.nLayers <= Capacity(caps, z, |caps|)
  {
    hide Best, Fits, Holds, Worst, Capacity;
    var n, i := |caps|, z.nLayers;
    BestBounded(caps, z, n, i);
    if Best(caps, z, n, i).cost < INF {
      RecoverAchieves(caps, z, n, i);
      FitsWithinCapacity(caps, z, Recover(caps, z, n, i), n, i);
      if t :| 0 <= t < n && caps[t].score == 0 {
        UnscoredCostsAll(caps, z, n, i, t);
      }
    } else if Scored(caps) && i <= Capacity(caps, z, n) {
      var cuts := CapacityFits(caps, z, n, i);
      WorstFinite(caps, z, cuts, n, i);
      CostLower(caps, z, cuts, n, i);
    }
  }

  /** The summed capacity suffices exactly when some in-order split fits. */
  lemma CapacityExactly(caps: seq<Capability>, z: Sizes, i: nat)
    ensures i <= Capacity(caps, z, |caps|) <==> exists cuts :: Fits(caps, z, cuts, |caps|, i)
  {
    hide Fits, Capacity;
    if i <= Capacity(caps, z, |caps|) {
      var cuts := CapacityFits(caps, z, |caps|, i);
    }
    forall cuts | Fits(caps, z, cuts, |caps|, i)
      ensures i <= Capacity(caps, z, |caps|)
    {
      FitsWithinCapacity(caps, z, cuts, |caps|, i);
    }
  }

  // ---------------------------------------------------------------- manifests

  function Ids(caps: seq<Capability>): (ids: seq<NodeId>)
    ensures |ids| == |caps| && forall t :: 0 <= t < |caps| ==> ids[t] == caps[t].nodeId
  {
    if caps == [] then [] else Ids(caps[..|caps| - 1]) + [caps[|caps| - 1].nodeId]
  }

  function Link(ids: seq<NodeId>, cuts: seq<nat>, t: nat): Assignment
    requires t < |ids| && |cuts| == |ids| + 1
  {
    Assignment(ids[t], cuts[t], cuts[t + 1], t == 0, t + 1 == |ids|,
               if t == 0 then None else Some(ids[t - 1]), if t + 1 == |ids| then None else Some(ids[t + 1]))
  }

  /** `links` runs through `ids` in order: the first hosts the embedding, the last the output, and every node points
      at its neighbours. */
  ghost predicate Chains(links: seq<Assignment>, ids: seq<NodeId>, cuts: seq<nat>) {
    && |links| == |ids| && |cuts| == |ids| + 1
    && forall t :: 0 <= t < |ids| ==> links[t] == Link(ids, cuts, t)
  }

  function Chain(ids: seq<NodeId>, cuts: seq<nat>): (links: seq<Assignment>)
    requires |cuts| == |ids| + 1
    ensures Chains(links, ids, cuts)
  {
    seq(|ids|, t requires 0 <= t < |ids| => Link(ids, cuts, t))
  }

  lemma ChainUnique(links: seq<Assignment>, ids: seq<NodeId>, cuts: seq<nat>)
    requires Chains(links, ids, cuts)
    ensures links == Chain(ids, cuts)
  {
  }

  /** The bytes the manifest hash is taken over. */
  function Preimage(modelId: seq<Byte>, nLayers: nat, links: seq<Assignment>): seq<Byte> {
    modelId + Le(nLayers, 8) + Entries(links)
  }

  function Entries(links: seq<Assignment>): seq<Byte> {
    if links == [] then []
    else links[0].nodeId + Le(links[0].start, 8) + Le(links[0].end, 8) + Entries(links[1..])
  }

  function Sealed(hash: seq<Byte> -> seq<Byte>, modelId: seq<Byte>, nLayers: nat, links: seq<Assignment>): Manifest {
    Manifest(modelId, hash(Preimage(modelId, nLayers, links)), links)
  }

  function AutoSpec(hash: seq<Byte> -> seq<Byte>, modelId: seq<Byte>, caps: seq<Capability>, z: Sizes)
    : Result<Manifest, Refusal>
  {
    if caps == [] then Err(NoNodes)
    else if z.nLayers == 0 then Err(NoLayers)
    else if Capacity(caps, z, |caps|) < z.nLayers then Err(OverCapacity)
    else if Best(caps, z, |caps|, z.nLayers).cost == INF then Err(NoAssignment)
    else Ok(Sealed(hash, modelId, z.nLayers, Chain(Ids(caps), Recover(caps, z, |caps|, z.nLayers))))
  }

  /** The cuts are best for the whole ring and, cut off anywhere, for the nodes and layers before that point. */
  ghost predicate OptimalThroughout(caps: seq<Capability>, z: Sizes, cuts: seq<nat>) {
    && Optimal(caps, z, cuts, |caps|, z.nLayers)
    && |cuts| == |caps| + 1
    && forall t :: 0 <= t <= |caps| ==> Optimal(caps, z, cuts[..t + 1], t, cuts[t])
  }

  /** The manifest gives the nodes, in the order listed, the best ranges there are. */
  ghost predicate BestManifest(hash: seq<Byte> -> seq<Byte>, modelId: seq<Byte>, caps: seq<Capability>, z: Sizes,
                               m: Manifest)
  {
    exists cuts ::
      && OptimalThroughout(caps, z, cuts)
      && Chains(m.assignments, Ids(caps), cuts)
      && m == Manifest(modelId, hash(Preimage(modelId, z.nLayers, m.assignments)), m.assignments)
  }

  /** The solver succeeds exactly when there are nodes, layers, positive scores and some in-order split that fits; it
      then returns a best one. With positive scores the summed capacity alone decides: the table's own refusal is
      reached only through a zero score. */
  lemma AutoCorrect(hash: seq<Byte> -> seq<Byte>, modelId: seq<Byte>, caps: seq<Capability>, z: Sizes)
    requires InRange(z)
    ensures var r := AutoSpec(hash, modelId, caps, z);
            && (r.Ok? <==> caps != [] && z.nLayers > 0 && Scored(caps)
                           && exists cuts :: Fits(caps, z, cuts, |caps|, z.nLayers))
            && (r.Ok? ==> BestManifest(hash, modelId, caps, z, r.value))
            && (r == Err(NoAssignment) ==> !Scored(caps))
  {
    hide Fits, Capacity, Best, Recover, Preimage, Chains, Optimal, Scored;
    FeasibleExactly(caps, z);
    CapacityExactly(caps, z, z.nLayers);
    BestBounded(caps, z, |caps|, z.nLayers);
    var r := AutoSpec(hash, modelId, caps, z);
    if r.Ok? {
      var cuts := Recover(caps, z, |caps|, z.nLayers);
      RecoverOptimal(caps, z, |caps|, z.nLayers);
      forall t | 0 <= t <= |caps|
        ensures Optimal(caps, z, cuts[..t + 1], t, cuts[t])
      {
        RecoverPrefixesOptimal(caps, z, |caps|, z.nLayers, t);
      }
      assert OptimalThroughout(caps, z, cuts);
    }
  }

  /** The slowest stage costs at most `q` exactly when every stage does. */
  lemma {:induction false} WorstExact(caps: seq<Capability>, cuts: seq<nat>, k: nat, q: nat)
    requires k <= |caps| && Rising(cuts, k) && Scored(caps)
    ensures Worst(caps, cuts, k) <= q
       <==> forall t :: 0 <= t < k ==> (cuts[t + 1] - cuts[t]) * 1000 < (q + 1) * caps[t].score
    decreases k
  {
    if k > 0 {
      hide Stage;
      WorstExact(caps, cuts, k - 1, q);
      assert cuts[k - 1] <= cuts[k - 1 + 1];
      StageExact(caps[k - 1], cuts[k] - cuts[k - 1], q);
    }
  }

  /** The pace of the solver's split, and that no split that fits has a better one. */
  lemma {:induction false} Pace(caps: seq<Capability>, z: Sizes, best: seq<nat>) returns (w: nat)
    requires caps != [] && Scored(caps) && Optimal(caps, z, best, |caps|, z.nLayers)
    ensures |best| == |caps| + 1
    ensures forall t :: 0 <= t < |caps| ==> (best[t + 1] - best[t]) * 1000 < (w + 1) * caps[t].score
    ensures forall cuts :: Fits(caps, z, cuts, |caps|, z.nLayers) ==>
      exists t :: 0 <= t < |caps| && (cuts[t + 1] - cuts[t]) * 1000 >= w * caps[t].score
  {
    var n := |caps|;
    w := Worst(caps, best, n);
    WorstExact(caps, best, n, w);
    hide Worst, Scored;
    forall cuts | Fits(caps, z, cuts, n, z.nLayers)
      ensures exists t :: 0 <= t < n && (cuts[t + 1] - cuts[t]) * 1000 >= w * caps[t].score
    {
      if w > 0 {
        WorstExact(caps, cuts, n, w - 1);
      } else {
        assert cuts[0] <= cuts[0 + 1];
        assert (cuts[0 + 1] - cuts[0]) * 1000 >= 0 * caps[0].score;
      }
    }
  }

  /** Every node keeps its thousandfold layers under `w + 1` times its score, and any split that fits has a node that
      does not keep them under `w` times its score. */
  ghost predicate Paced(caps: seq<Capability>, z: Sizes, links: seq<Assignment>, w: nat) {
    && |links| == |caps|
    && (forall t :: 0 <= t < |caps| ==> (links[t].end - links[t].start) * 1000 < (w + 1) * caps[t].score)
    && forall cuts :: Fits(caps, z, cuts, |caps|, z.nLayers) ==>
      exists t :: 0 <= t < |caps| && (cuts[t + 1] - cuts[t]) * 1000 >= w * caps[t].score
  }

  lemma {:induction false} PacedInNumbers(caps: seq<Capability>, z: Sizes, links: seq<Assignment>, w: nat)
    requires Paced(caps, z, links, w)
    ensures |links| == |caps|
    ensures forall t :: 0 <= t < |caps| ==> (links[t].end - links[t].start) * 1000 < (w + 1) * caps[t].score
    ensures forall cuts :: Fits(caps, z, cuts, |caps|, z.nLayers) ==>
      exists t :: 0 <= t < |caps| && (cuts[t + 1] - cuts[t]) * 1000 >= w * caps[t].score
  {
    hide Fits;
  }

  /** What a solved manifest says, in the sizes alone: contiguous ranges over the nodes in the order listed, each within
      its node's memory; the first node also holds the embedding. */
  lemma {:induction false} AutoInNumbers(hash: seq<Byte> -> seq<Byte>, modelId: seq<Byte>, caps: seq<Capability>,
                                         z: Sizes)
    requires InRange(z) && AutoSpec(hash, modelId, caps, z).Ok?
    ensures forall c :: c in caps ==> c.score > 0
    ensures var (a, n) := (AutoSpec(hash, modelId, caps, z).value.assignments, |caps|);
      && |a| == n > 0 && a[0].start == 0 && a[n - 1].end == z.nLayers
      && forall t :: 0 <= t < n ==>
        && a[t].nodeId == caps[t].nodeId && a[t].start <= a[t].end && (t > 0 ==> a[t].start == a[t - 1].end)
        && (a[t].end == a[t].start
            || (a[t].end - a[t].start) * z.layerBytes + z.overhead + (if t == 0 then z.embedBytes else 0)
               <= caps[t].memory)
    ensures LinkedInOrder(AutoSpec(hash, modelId, caps, z).value.assignments)
  {
    hide AutoSpec, BestManifest, Fits, Chains, Ids, Optimal, LinkedInOrder;
    AutoCorrect(hash, modelId, caps, z);
    var m := AutoSpec(hash, modelId, caps, z).value;
    var best := BestCuts(hash, modelId, caps, z, m);
    RangesInNumbers(caps, z, m.assignments, best);
    ChainsLink(m.assignments, Ids(caps), best);
  }

  /** The first node hosts the embedding, the last the output, and each points at its neighbours. */
  ghost predicate LinkedInOrder(a: seq<Assignment>) {
    forall t :: 0 <= t < |a| ==>
      && (a[t].hostsEmbedding <==> t == 0) && (a[t].hostsOutput <==> t == |a| - 1)
      && a[t].previous == (if t == 0 then None else Some(a[t - 1].nodeId))
      && a[t].next == if t == |a| - 1 then None else Some(a[t + 1].nodeId)
  }

  lemma {:induction false} ChainsLink(a: seq<Assignment>, ids: seq<NodeId>, cuts: seq<nat>)
    requires Chains(a, ids, cuts)
    ensures LinkedInOrder(a)
  {
    forall t | 0 <= t < |a|
      ensures a[t] == Link(ids, cuts, t) && a[t].nodeId == ids[t]
    {
    }
  }

  /** The bytes under the hash: the model id, the layer count, and for each node in turn its id and the ends of its
      range; the numbers as eight bytes each, least significant first. */
  lemma {:induction false} PreimageInBytes(modelId: seq<Byte>, nLayers: nat, links: seq<Assignment>, a: Assignment)
    ensures Preimage(modelId, nLayers, []) == modelId + Le(nLayers, 8)
    ensures Preimage(modelId, nLayers, links + [a])
         == Preimage(modelId, nLayers, links) + (a.nodeId + Le(a.start, 8) + Le(a.end, 8))
  {
    hide Le;
    EntriesGrow(links, a);
    assert modelId + Le(nLayers, 8) + [] == modelId + Le(nLayers, 8);
  }

  lemma {:induction false} EntriesGrow(links: seq<Assignment>, a: Assignment)
    ensures Entries(links + [a]) == Entries(links) + (a.nodeId + Le(a.start, 8) + Le(a.end, 8))
    decreases |links|
  {
    hide Le;
    var last := a.nodeId + Le(a.start, 8) + Le(a.end, 8);
    if links == [] {
      assert Entries([a]) == last + Entries([]) by {
        assert [a][1..] == [];
      }
    } else {
      EntriesGrow(links[1..], a);
      assert (links + [a])[1..] == links[1..] + [a];
    }
  }

  /** No split beats it, in the sizes and scores alone: if a split into ranges in order fits the nodes' memory, the
      solver succeeds, and for some `w` each of its nodes keeps its thousandfold layers under `w + 1` times its score
      while some node of the other split does not keep them under `w` times its score. */
  lemma {:induction false} AutoUnbeaten(hash: seq<Byte> -> seq<Byte>, modelId: seq<Byte>, caps: seq<Capability>,
                                        z: Sizes, cuts: seq<nat>) returns (w: nat)
    requires z.nLayers * 1000 < 4611686018427387903 && caps != [] && z.nLayers > 0
    requires forall c :: c in caps ==> c.score > 0
    requires |cuts| == |caps| + 1 && cuts[0] == 0 && cuts[|caps|] == z.nLayers
    requires forall t :: 0 <= t < |caps| ==>
      && cuts[t] <= cuts[t + 1]
      && (cuts[t + 1] == cuts[t]
          || (cuts[t + 1] - cuts[t]) * z.layerBytes + z.overhead + (if t == 0 then z.embedBytes else 0)
             <= caps[t].memory)
    ensures AutoSpec(hash, modelId, caps, z).Ok?
    ensures var a := AutoSpec(hash, modelId, caps, z).value.assignments;
            |a| == |caps| && forall t :: 0 <= t < |caps| ==> (a[t].end - a[t].start) * 1000 < (w + 1) * caps[t].score
    ensures exists t :: 0 <= t < |caps| && (cuts[t + 1] - cuts[t]) * 1000 >= w * caps[t].score
  {
    hide AutoSpec, BestManifest, Fits, Paced;
    FitsInNumbers(caps, z, cuts);
    AutoCorrect(hash, modelId, caps, z);
    var m := AutoSpec(hash, modelId, caps, z).value;
    w := PaceOf(hash, modelId, caps, z, m);
    PacedInNumbers(caps, z, m.assignments, w);
  }

  lemma {:induction false} FitsInNumbers(caps: seq<Capability>, z: Sizes, cuts: seq<nat>)
    requires |cuts| == |caps| + 1 && cuts[0] == 0 && cuts[|caps|] == z.nLayers
    requires forall t :: 0 <= t < |caps| ==>
      && cuts[t] <= cuts[t + 1]
      && (cuts[t + 1] == cuts[t]
          || (cuts[t + 1] - cuts[t]) * z.layerBytes + z.overhead + (if t == 0 then z.embedBytes else 0)
             <= caps[t].memory)
    ensures Fits(caps, z, cuts, |caps|, z.nLayers)
  {
  }

  lemma {:induction false} RangesInNumbers(caps: seq<Capability>, z: Sizes, a: seq<Assignment>, cuts: seq<nat>)
    requires Fits(caps, z, cuts, |caps|, z.nLayers) && Chains(a, Ids(caps), cuts) && caps != []
    ensures var n := |caps|;
      && |a| == n && a[0].start == 0 && a[n - 1].end == z.nLayers
      && forall t :: 0 <= t < n ==>
        && a[t].nodeId == caps[t].nodeId && a[t].start <= a[t].end && (t > 0 ==> a[t].start == a[t - 1].end)
        && (a[t].end == a[t].start
            || (a[t].end - a[t].start) * z.layerBytes + z.overhead + (if t == 0 then z.embedBytes else 0)
               <= caps[t].memory)
  {
    hide Fits;
    FitsEnds(caps, z, cuts, |caps|, z.nLayers);
    assert a[0] == Link(Ids(caps), cuts, 0) && a[|caps| - 1] == Link(Ids(caps), cuts, |caps| - 1);
    forall t | 0 <= t < |caps|
      ensures a[t].nodeId == caps[t].nodeId && a[t].start <= a[t].end && (t > 0 ==> a[t].start == a[t - 1].end)
      ensures a[t].end == a[t].start
              || (a[t].end - a[t].start) * z.layerBytes + z.overhead + (if t == 0 then z.embedBytes else 0)
                 <= caps[t].memory
    {
      RangeInNumbers(caps, z, a, cuts, t);
    }
  }

  lemma {:induction false} RangeInNumbers(caps: seq<Capability>, z: Sizes, a: seq<Assignment>, cuts: seq<nat>, t: nat)
    requires t < |caps| && Fits(caps, z, cuts, |caps|, z.nLayers) && Chains(a, Ids(caps), cuts)
    ensures a[t].nodeId == caps[t].nodeId && a[t].start <= a[t].end && (t > 0 ==> a[t].start == a[t - 1].end)
    ensures a[t].end == a[t].start
            || (a[t].end - a[t].start) * z.layerBytes + z.overhead + (if t == 0 then z.embedBytes else 0)
               <= caps[t].memory
  {
    assert Holds(caps, z, t, cuts[t + 1] - cuts[t]);
    assert t > 0 ==> a[t - 1] == Link(Ids(caps), cuts, t - 1);
  }

  lemma {:induction false} BestCuts(hash: seq<Byte> -> seq<Byte>, modelId: seq<Byte>, caps: seq<Capability>,
                                    z: Sizes, m: Manifest) returns (cuts: seq<nat>)
    requires BestManifest(hash, modelId, caps, z, m)
    ensures Optimal(caps, z, cuts, |caps|, z.nLayers) && Chains(m.assignments, Ids(caps), cuts)
    ensures Fits(caps, z, cuts, |caps|, z.nLayers)
    ensures |cuts| == |caps| + 1 && cuts[0] == 0 && cuts[|caps|] == z.nLayers
  {
    hide Chains, Preimage;
    cuts :| OptimalThroughout(caps, z, cuts) && Chains(m.assignments, Ids(caps), cuts);
  }

  lemma {:induction false} PaceOf(hash: seq<Byte> -> seq<Byte>, modelId: seq<Byte>, caps: seq<Capability>, z: Sizes,
                                  m: Manifest) returns (w: nat)
    requires BestManifest(hash, modelId, caps, z, m) && caps != [] && Scored(caps)
    ensures Paced(caps, z, m.assignments, w)
  {
    hide Optimal, Fits, Preimage, BestManifest;
    var best := BestCuts(hash, modelId, caps, z, m);
    w := Pace(caps, z, best);
  }

  // ---------------------------------------------------------------- the loops

  method CountLayers(caps: seq<Capability>, z: Sizes) returns (most: seq<nat>, total: nat)
    ensures |most| == |caps| && forall k :: 0 <= k < |caps| ==> most[k] == MaxLayers(caps, z, k)
    ensures total == Capacity(caps, z, |caps|)
  {
    hide MaxLayers;
    most, total := [], 0;
    for k := 0 to |caps|
      invariant |most| == k && forall t :: 0 <= t < k ==> most[t] == MaxLayers(caps, z, t)
      invariant total == Capacity(caps, z, k)
    {
      var held := LayersThatFit(caps, z, k);
      most, total := most + [held], total + held;
    }
  }

  method LayersThatFit(caps: seq<Capability>, z: Sizes, k: nat) returns (held: nat)
    requires k < |caps|
    ensures held == MaxLayers(caps, z, k)
  {
    var reserved := if k == 0 then z.embedBytes + z.overhead else z.overhead;
    if caps[k].memory <= reserved {
      return 0;
    }
    return (caps[k].memory - reserved) / z.layerBytes;
  }

  /** Row `k` of the tables is filled up to column `upTo`. */
  ghost predicate RowDone(caps: seq<Capability>, z: Sizes, cost: array2<nat>, back: array2<nat>, k: nat, upTo: nat)
    requires k <= |caps| && k < cost.Length0 == back.Length0 && upTo <= cost.Length1 == back.Length1
    reads cost, back
  {
    forall i :: 0 <= i < upTo ==> cost[k, i] == Best(caps, z, k, i).cost && back[k, i] == Best(caps, z, k, i).back
  }

  ghost predicate RowsDone(caps: seq<Capability>, z: Sizes, cost: array2<nat>, back: array2<nat>, rows: nat)
    requires rows <= |caps| + 1 && rows <= cost.Length0 == back.Length0 && cost.Length1 == back.Length1
    reads cost, back
  {
    forall k :: 0 <= k < rows ==> RowDone(caps, z, cost, back, k, cost.Length1)
  }

  /** Row `k` of the tables still holds its initial values from column `from` on. */
  ghost predicate RowFresh(cost: array2<nat>, back: array2<nat>, k: nat, from: nat)
    requires k < cost.Length0 == back.Length0 && cost.Length1 == back.Length1
    reads cost, back
  {
    forall i :: from <= i < cost.Length1 ==> cost[k, i] == INF && back[k, i] == 0
  }

  method FillCell(caps: seq<Capability>, z: Sizes, cost: array2<nat>, back: array2<nat>, k: nat, i: nat, most: nat)
    requires 0 < k <= |caps| && cost.Length0 == back.Length0 == |caps| + 1
    requires cost.Length1 == back.Length1 == z.nLayers + 1 && i <= z.nLayers && cost != back
    requires most == MaxLayers(caps, z, k - 1)
    requires RowDone(caps, z, cost, back, k - 1, z.nLayers + 1) && cost[k, i] == INF && back[k, i] == 0
    modifies cost, back
    ensures cost[k, i] == Best(caps, z, k, i).cost && back[k, i] == Best(caps, z, k, i).back
    ensures forall a, b :: 0 <= a <= |caps| && 0 <= b <= z.nLayers && !(a == k && b == i) ==>
      cost[a, b] == old(cost[a, b]) && back[a, b] == old(back[a, b])
  {
    hide MaxLayers, Best;
    for j := 0 to i + 1
      invariant Scan(caps, z, k, i, j) == Cell(cost[k, i], back[k, i])
      invariant forall a, b :: 0 <= a <= |caps| && 0 <= b <= z.nLayers && !(a == k && b == i) ==>
        cost[a, b] == old(cost[a, b]) && back[a, b] == old(back[a, b])
    {
      assert cost[k - 1, j] == Best(caps, z, k - 1, j).cost;
      if cost[k - 1, j] == INF {
        continue;
      }
      var held := i - j;
      if held > most {
        continue;
      }
      var stage := if caps[k - 1].score == 0 then INF else held * 1000 / caps[k - 1].score;
      var candidate := Max(cost[k - 1, j], stage);
      if candidate < cost[k, i] {
        cost[k, i] := candidate;
        back[k, i] := j;
      }
    }
    BestIsScan(caps, z, k, i);
  }

  lemma BestIsScan(caps: seq<Capability>, z: Sizes, k: nat, i: nat)
    requires 0 < k <= |caps|
    ensures Best(caps, z, k, i) == Scan(caps, z, k, i, i + 1)
  {
  }

  method FillRow(caps: seq<Capability>, z: Sizes, cost: array2<nat>, back: array2<nat>, k: nat, most: nat)
    requires 0 < k <= |caps| && cost.Length0 == back.Length0 == |caps| + 1
    requires cost.Length1 == back.Length1 == z.nLayers + 1 && cost != back
    requires most == MaxLayers(caps, z, k - 1)
    requires RowsDone(caps, z, cost, back, k)
    requires forall r :: k <= r <= |caps| ==> RowFresh(cost, back, r, 0)
    modifies cost, back
    ensures RowsDone(caps, z, cost, back, k + 1)
    ensures forall r :: k < r <= |caps| ==> RowFresh(cost, back, r, 0)
  {
    hide MaxLayers, Best;
    assert RowDone(caps, z, cost, back, k - 1, z.nLayers + 1);
    for i := 0 to z.nLayers + 1
      invariant RowsDone(caps, z, cost, back, k)
      invariant RowDone(caps, z, cost, back, k, i)
      invariant RowFresh(cost, back, k, i)
      invariant forall r :: k < r <= |caps| ==> RowFresh(cost, back, r, 0)
    {
      label before:
      FillCell(caps, z, cost, back, k, i, most);
      forall r | 0 <= r < k
        ensures RowDone(caps, z, cost, back, r, cost.Length1)
      {
        assert old@before(RowDone(caps, z, cost, back, r, cost.Length1));
        forall b | 0 <= b < cost.Length1
          ensures cost[r, b] == Best(caps, z, r, b).cost && back[r, b] == Best(caps, z, r, b).back
        {
          assert cost[r, b] == old@before(cost[r, b]) && back[r, b] == old@before(back[r, b]);
        }
      }
      forall r | k < r <= |caps|
        ensures RowFresh(cost, back, r, 0)
      {
        assert old@before(RowFresh(cost, back, r, 0));
        forall b | 0 <= b < cost.Length1
          ensures cost[r, b] == INF && back[r, b] == 0
        {
          assert cost[r, b] == old@before(cost[r, b]) && back[r, b] == old@before(back[r, b]);
        }
      }
    }
  }

  method FillTables(caps: seq<Capability>, z: Sizes, most: seq<nat>) returns (cost: array2<nat>, back: array2<nat>)
    requires |most| == |caps| && forall k :: 0 <= k < |caps| ==> most[k] == MaxLayers(caps, z, k)
    ensures cost.Length0 == back.Length0 == |caps| + 1 && cost.Length1 == back.Length1 == z.nLayers + 1
    ensures RowsDone(caps, z, cost, back, |caps| + 1)
  {
    hide MaxLayers;
    cost := new nat[|caps| + 1, z.nLayers + 1]((_, _) => INF);
    back := new nat[|caps| + 1, z.nLayers + 1]((_, _) => 0);
    cost[0, 0] := 0;
    for k := 1 to |caps| + 1
      invariant RowsDone(caps, z, cost, back, k)
      invariant forall r :: k <= r <= |caps| ==> RowFresh(cost, back, r, 0)
    {
      FillRow(caps, z, cost, back, k, most[k - 1]);
    }
  }

  method Backtrack(caps: seq<Capability>, z: Sizes, cost: array2<nat>, back: array2<nat>) returns (cuts: seq<nat>)
    requires cost.Length0 == back.Length0 == |caps| + 1 && cost.Length1 == back.Length1 == z.nLayers + 1
    requires RowsDone(caps, z, cost, back, |caps| + 1)
    requires Best(caps, z, |caps|, z.nLayers).cost < INF
    ensures cuts == Recover(caps, z, |caps|, z.nLayers)
  {
    cuts := [z.nLayers];
    var cur: nat := z.nLayers;
    var k: nat := |caps|;
    while k > 0
      invariant k <= |caps| && cur <= z.nLayers
      invariant Best(caps, z, k, cur).cost < INF
      invariant cuts != [] && cuts[0] == cur
      invariant Recover(caps, z, k, cur) + cuts[1..] == Recover(caps, z, |caps|, z.nLayers)
    {
      hide Best;
      assert RowDone(caps, z, cost, back, k, cost.Length1);
      BestLeast(caps, z, k, cur);
      var prev := back[k, cur];
      assert Recover(caps, z, k, cur) == Recover(caps, z, k - 1, prev) + [cur];
      cuts := [prev] + cuts;
      cur := prev;
      k := k - 1;
      assert cuts[1..][1..] == cuts[2..];
    }
  }

  method Assign(caps: seq<Capability>, cuts: seq<nat>) returns (links: seq<Assignment>)
    requires |cuts| == |caps| + 1
    ensures links == Chain(Ids(caps), cuts)
  {
    links := [];
    ghost var ids := Ids(caps);
    for t := 0 to |caps|
      invariant |links| == t && forall s :: 0 <= s < t ==> links[s] == Link(ids, cuts, s)
    {
      var prev := if t == 0 then None else Some(caps[t - 1].nodeId);
      var next := if t + 1 == |caps| then None else Some(caps[t + 1].nodeId);
      links := links + [Assignment(caps[t].nodeId, cuts[t], cuts[t + 1], t == 0, t + 1 == |caps|, prev, next)];
    }
    ChainUnique(links, ids, cuts);
  }

  method AutoPartition(hash: seq<Byte> -> seq<Byte>, modelId: seq<Byte>, caps: seq<Capability>, z: Sizes)
      returns (r: Result<Manifest, Refusal>, ghost w: nat)
    requires InRange(z)
    ensures r == AutoSpec(hash, modelId, caps, z)
    ensures r.Ok? ==> Paced(caps, z, r.value.assignments, w)
    ensures r.Ok? <==> caps != [] && z.nLayers > 0 && Scored(caps)
                       && exists cuts :: Fits(caps, z, cuts, |caps|, z.nLayers)
    ensures r.Ok? ==> BestManifest(hash, modelId, caps, z, r.value)
  {
    hide Fits, Capacity, Best, Recover, Preimage, Scored, BestManifest, Chain, Paced;
    AutoCorrect(hash, modelId, caps, z);
    if |caps| == 0 {
      return Err(NoNodes), 0;
    }
    if z.nLayers == 0 {
      return Err(NoLayers), 0;
    }
    var most, total := CountLayers(caps, z);
    if total < z.nLayers {
      return Err(OverCapacity), 0;
    }
    var cost, back := FillTables(caps, z, most);
    assert RowDone(caps, z, cost, back, |caps|, cost.Length1);
    if cost[|caps|, z.nLayers] == INF {
      return Err(NoAssignment), 0;
    }
    BestBounded(caps, z, |caps|, z.nLayers);
    var cuts := Backtrack(caps, z, cost, back);
    var links := Assign(caps, cuts);
    r := Ok(Sealed(hash, modelId, z.nLayers, links));
    w := PaceOf(hash, modelId, caps, z, r.value);
  }
}
