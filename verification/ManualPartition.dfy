/** A manifest from an explicit list of layer ranges, checked for exact cover and memory. */
module ManualPartition {
  import opened Basics
  import opened Sorting
  import opened Partition

  datatype Claim = Claim(nodeId: NodeId, start: nat, end: nat)

  datatype Objection =
    | Gap(at: nat)
    | Empty(at: nat)
    | Short(covered: nat)
    | UnknownNode(at: nat)
    | TooLarge(at: nat)

  predicate StartLe(a: Claim, b: Claim) {
    a.start <= b.start
  }

  /** Where claim `k` has to start. */
  function Due(o: seq<Claim>, k: nat): nat
    requires k <= |o|
  {
    if k == 0 then 0 else o[k - 1].end
  }

  predicate Joined(o: seq<Claim>, t: nat)
    requires t < |o|
  {
    o[t].start == Due(o, t) && o[t].start < o[t].end
  }

  /** The first `k` claims are non-empty and follow one another from layer 0. */
  ghost predicate Follow(o: seq<Claim>, k: nat) {
    k <= |o| && forall t :: 0 <= t < k ==> Joined(o, t)
  }

  /** The claims, in this order, cover the layers exactly once. */
  ghost predicate Tiles(o: seq<Claim>, nLayers: nat) {
    Follow(o, |o|) && Due(o, |o|) == nLayers
  }

  /** The first capability listed for a node. */
  function CapOf(caps: seq<Capability>, id: NodeId): (r: Option<Capability>)
    ensures r.Some? ==> r.value in caps && r.value.nodeId == id
    ensures r.None? ==> forall c :: c in caps ==> c.nodeId != id
  {
    if caps == [] then None
    else if caps[0].nodeId == id then Some(caps[0])
    else CapOf(caps[1..], id)
  }

  /** Claim `k` names a node with room for its layers. */
  predicate Staffed(caps: seq<Capability>, z: Sizes, c: Claim, k: nat) {
    && CapOf(caps, c.nodeId).Some?
    && c.start <= c.end
    && (c.end - c.start) * z.layerBytes + Reserved(z, k) <= CapOf(caps, c.nodeId).value.memory
  }

  ghost predicate AllStaffed(caps: seq<Capability>, z: Sizes, o: seq<Claim>, k: nat) {
    k <= |o| && forall t :: 0 <= t < k ==> Staffed(caps, z, o[t], t)
  }

  /** In some order the claims cover every layer exactly once and fit their nodes. */
  ghost predicate Realisable(caps: seq<Capability>, z: Sizes, claims: seq<Claim>) {
    exists o :: multiset(o) == multiset(claims) && Tiles(o, z.nLayers) && AllStaffed(caps, z, o, |o|)
  }

  function NodesOf(o: seq<Claim>): (ids: seq<NodeId>)
    ensures |ids| == |o| && forall t :: 0 <= t < |o| ==> ids[t] == o[t].nodeId
  {
    seq(|o|, t requires 0 <= t < |o| => o[t].nodeId)
  }

  function CutsOf(o: seq<Claim>): (cuts: seq<nat>)
    ensures |cuts| == |o| + 1 && forall t :: 0 <= t <= |o| ==> cuts[t] == Due(o, t)
  {
    seq(|o| + 1, t requires 0 <= t <= |o| => Due(o, t))
  }

  /** The first place where the sorted claims stop covering the layers. */
  ghost predicate BreaksCover(o: seq<Claim>, nLayers: nat, e: Objection) {
    match e
    case Gap(k) => k < |o| && Follow(o, k) && o[k].start != Due(o, k)
    case Empty(k) => k < |o| && Follow(o, k) && o[k].start == Due(o, k) && o[k].start >= o[k].end
    case Short(covered) => Follow(o, |o|) && covered == Due(o, |o|) && covered != nLayers
    case _ => false
  }

  /** The first node, in layer order, that is unknown or too small. */
  ghost predicate BreaksMemory(caps: seq<Capability>, z: Sizes, o: seq<Claim>, e: Objection) {
    match e
    case UnknownNode(k) => k < |o| && AllStaffed(caps, z, o, k) && CapOf(caps, o[k].nodeId).None?
    case TooLarge(k) =>
      k < |o| && AllStaffed(caps, z, o, k) && CapOf(caps, o[k].nodeId).Some? && !Staffed(caps, z, o[k], k)
    case _ => false
  }

  /** The first thing wrong with the sorted claims; memory is looked at only when they cover the layers. */
  ghost predicate Refused(caps: seq<Capability>, z: Sizes, o: seq<Claim>, e: Objection) {
    BreaksCover(o, z.nLayers, e) || (Tiles(o, z.nLayers) && BreaksMemory(caps, z, o, e))
  }

  lemma {:induction false} FollowRises(o: seq<Claim>, i: nat, j: nat)
    requires Follow(o, |o|) && i < j < |o|
    ensures o[i].start < o[j].start
    decreases j
  {
    assert Joined(o, j) && Joined(o, j - 1);
    if i + 1 < j {
      FollowRises(o, i, j - 1);
    }
  }

  lemma StartOrder()
    ensures TotalPreorder(StartLe)
  {
  }

  /** An order that covers the layers is the order the sort finds. */
  lemma TilingIsSorted(claims: seq<Claim>, o: seq<Claim>, nLayers: nat)
    requires multiset(o) == multiset(claims) && Tiles(o, nLayers)
    ensures o == StableSort(claims, StartLe)
  {
    hide StableSort, Follow;
    StartOrder();
    forall i, j | 0 <= i < j < |o|
      ensures o[i].start < o[j].start
    {
      FollowRises(o, i, j);
    }
    SortedPermutationIsSort(claims, o, StartLe);
  }

  lemma RealisableExactly(caps: seq<Capability>, z: Sizes, claims: seq<Claim>)
    ensures var o := StableSort(claims, StartLe);
            Realisable(caps, z, claims) <==> Tiles(o, z.nLayers) && AllStaffed(caps, z, o, |o|)
  {
    hide StableSort, Tiles, AllStaffed;
    forall o | multiset(o) == multiset(claims) && Tiles(o, z.nLayers)
      ensures o == StableSort(claims, StartLe)
    {
      TilingIsSorted(claims, o, z.nLayers);
    }
  }

  /** The same in the claims' own numbers: in the order `o` the ranges are not empty and follow one another from layer 0
      to the last, and the first capability listed for each node has memory for its range; the first also holds the
      embedding. */
  lemma RealisableInNumbers(caps: seq<Capability>, z: Sizes, o: seq<Claim>)
    ensures Tiles(o, z.nLayers) && AllStaffed(caps, z, o, |o|) <==>
      && (if o == [] then z.nLayers == 0 else o[0].start == 0 && o[|o| - 1].end == z.nLayers)
      && forall t :: 0 <= t < |o| ==>
        && o[t].start < o[t].end && (t > 0 ==> o[t].start == o[t - 1].end)
        && CapOf(caps, o[t].nodeId).Some?
        && (o[t].end - o[t].start) * z.layerBytes + z.overhead + (if t == 0 then z.embedBytes else 0)
           <= CapOf(caps, o[t].nodeId).value.memory
  {
    hide CapOf;
    if Tiles(o, z.nLayers) && AllStaffed(caps, z, o, |o|) {
      forall t | 0 <= t < |o|
        ensures Joined(o, t) && Staffed(caps, z, o[t], t)
      {
      }
    }
  }

  lemma TilesFollow(o: seq<Claim>, nLayers: nat)
    requires Tiles(o, nLayers)
    ensures Follow(o, |o|)
  {
  }

  method CheckCover(o: seq<Claim>, nLayers: nat) returns (bad: Option<Objection>)
    ensures bad.None? <==> Tiles(o, nLayers)
    ensures bad.Some? ==> BreaksCover(o, nLayers, bad.value)
  {
    var expected := 0;
    for k := 0 to |o|
      invariant Follow(o, k) && expected == Due(o, k)
    {
      if o[k].start != expected {
        assert !Joined(o, k);
        return Some(Gap(k));
      }
      if o[k].start >= o[k].end {
        assert !Joined(o, k);
        return Some(Empty(k));
      }
      expected := o[k].end;
    }
    if expected != nLayers {
      return Some(Short(expected));
    }
    return None;
  }

  method CheckNode(caps: seq<Capability>, z: Sizes, c: Claim, k: nat) returns (known: bool, fits: bool)
    requires c.start <= c.end
    ensures known == CapOf(caps, c.nodeId).Some? && fits == Staffed(caps, z, c, k)
  {
    var cap := CapOf(caps, c.nodeId);
    if cap == None {
      return false, false;
    }
    var reserved := if k == 0 then z.embedBytes + z.overhead else z.overhead;
    var need := (c.end - c.start) * z.layerBytes + reserved;
    return true, need <= cap.value.memory;
  }

  method CheckMemory(caps: seq<Capability>, z: Sizes, o: seq<Claim>) returns (bad: Option<Objection>)
    requires Tiles(o, z.nLayers)
    ensures bad.None? <==> AllStaffed(caps, z, o, |o|)
    ensures bad.Some? ==> BreaksMemory(caps, z, o, bad.value)
  {
    hide CapOf, Staffed;
    for k := 0 to |o|
      invariant AllStaffed(caps, z, o, k)
    {
      assert Joined(o, k);
      var known, fits := CheckNode(caps, z, o[k], k);
      if !known {
        StaffedIsKnown(caps, z, o[k], k);
        return Some(UnknownNode(k));
      }
      if !fits {
        return Some(TooLarge(k));
      }
    }
    return None;
  }

  lemma StaffedIsKnown(caps: seq<Capability>, z: Sizes, c: Claim, k: nat)
    ensures Staffed(caps, z, c, k) ==> CapOf(caps, c.nodeId).Some?
  {
  }

  method LinkUp(o: seq<Claim>) returns (links: seq<Assignment>)
    requires Follow(o, |o|)
    ensures Chains(links, NodesOf(o), CutsOf(o))
  {
    hide NodesOf, CutsOf, Follow;
    ghost var ids, cuts := NodesOf(o), CutsOf(o);
    links := [];
    for t := 0 to |o|
      invariant |links| == t && forall s :: 0 <= s < t ==> links[s] == Link(ids, cuts, s).(next := None)
    {
      FollowsAt(o, t);
      var prev := if t == 0 then None else Some(links[t - 1].nodeId);
      links := links + [Assignment(o[t].nodeId, o[t].start, o[t].end, t == 0, t + 1 == |o|, prev, None)];
    }
    for i := 0 to |o| - if |o| == 0 then 0 else 1
      invariant |links| == |o| && forall s :: 0 <= s < |o| ==>
        links[s] == if s < i then Link(ids, cuts, s) else Link(ids, cuts, s).(next := None)
    {
      links := links[i := links[i].(next := Some(links[i + 1].nodeId))];
    }
  }

  lemma FollowsAt(o: seq<Claim>, t: nat)
    requires Follow(o, |o|) && t < |o|
    ensures CutsOf(o)[t] == o[t].start && CutsOf(o)[t + 1] == o[t].end
  {
    assert Joined(o, t);
  }

  /** Accepts the claims exactly when in some order they cover the layers and fit; then chains them in that order. */
  method ManualPartition(hash: seq<Byte> -> seq<Byte>, modelId: seq<Byte>, caps: seq<Capability>, z: Sizes,
                         claims: seq<Claim>) returns (r: Result<Manifest, Objection>)
    ensures r.Ok? <==> Realisable(caps, z, claims)
    ensures r.Err? ==> Refused(caps, z, StableSort(claims, StartLe), r.error)
    ensures r.Ok? ==>
      exists o :: multiset(o) == multiset(claims) && Tiles(o, z.nLayers)
                  && Chains(r.value.assignments, NodesOf(o), CutsOf(o))
    ensures r.Ok? ==>
      r.value == Manifest(modelId, hash(Preimage(modelId, z.nLayers, r.value.assignments)), r.value.assignments)
  {
    hide StableSort, Realisable, BreaksCover, BreaksMemory, Tiles, AllStaffed, Chains, Preimage;
    RealisableExactly(caps, z, claims);
    var sorted := StableSort(claims, StartLe);
    var bad := CheckCover(sorted, z.nLayers);
    if bad.Some? {
      return Err(bad.value);
    }
    bad := CheckMemory(caps, z, sorted);
    if bad.Some? {
      return Err(bad.value);
    }
    assert Follow(sorted, |sorted|) by {
      TilesFollow(sorted, z.nLayers);
    }
    var links := LinkUp(sorted);
    return Ok(Manifest(modelId, hash(Preimage(modelId, z.nLayers, links)), links));
  }
}
