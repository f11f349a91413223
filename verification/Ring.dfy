/**
 The pipeline ring of a manifest: the walk from the embedding host along `next_node`, on every manifest, well formed
 or not.
 */
module Ring {
  import opened Basics
  import opened Partition

  /** The first assignment for a node. */
  function ForNode(links: seq<Assignment>, id: NodeId): (r: Option<Assignment>)
    ensures r.Some? ==> r.value in links && r.value.nodeId == id
    ensures r.None? ==> forall a :: a in links ==> a.nodeId != id
  {
    if links == [] then None
    else if links[0].nodeId == id then Some(links[0])
    else ForNode(links[1..], id)
  }

  function EmbeddingHost(links: seq<Assignment>): Option<NodeId> {
    if links == [] then None
    else if links[0].hostsEmbedding then Some(links[0].nodeId)
    else EmbeddingHost(links[1..])
  }

  function OutputHost(links: seq<Assignment>): Option<NodeId> {
    if links == [] then None
    else if links[0].hostsOutput then Some(links[0].nodeId)
    else OutputHost(links[1..])
  }

  /** `order` follows `next_node` from the embedding host, without repeating a node, for `|order|` steps. */
  ghost predicate Walk(links: seq<Assignment>, order: seq<NodeId>) {
    && NoDup(order)
    && (order != [] ==> EmbeddingHost(links) == Some(order[0]))
    && (forall t :: 0 <= t < |order| ==> ForNode(links, order[t]).Some?)
    && (forall t :: 0 <= t < |order| - 1 ==> ForNode(links, order[t]).value.next == Some(order[t + 1]))
  }

  /** A complete ring: it visits as many nodes as there are assignments and ends where `next_node` does. */
  ghost predicate IsRing(links: seq<Assignment>, order: seq<NodeId>) {
    && order != [] && |order| == |links| && Walk(links, order)
    && ForNode(links, order[|order| - 1]).value.next == None
  }

  ghost function NodeSet(links: seq<Assignment>): set<NodeId> {
    set a | a in links :: a.nodeId
  }

  /** A walk is determined by its length. */
  lemma {:induction false} WalkUnique(links: seq<Assignment>, a: seq<NodeId>, b: seq<NodeId>, t: nat)
    requires Walk(links, a) && Walk(links, b) && t < |a| && t < |b|
    ensures a[t] == b[t]
  {
    if t > 0 {
      WalkUnique(links, a, b, t - 1);
      assert t - 1 < |a| - 1 && t - 1 < |b| - 1;
    }
  }

  lemma RingUnique(links: seq<Assignment>, a: seq<NodeId>, b: seq<NodeId>)
    requires IsRing(links, a) && IsRing(links, b)
    ensures a == b
  {
    hide Walk;
    forall t | 0 <= t < |a|
      ensures a[t] == b[t]
    {
      WalkUnique(links, a, b, t);
    }
  }

  /** Of two walks, the longer says where the shorter goes next. */
  lemma NextForced(links: seq<Assignment>, a: seq<NodeId>, b: seq<NodeId>, t: nat)
    requires Walk(links, a) && Walk(links, b) && t < |a| && t + 1 < |b|
    ensures ForNode(links, a[t]).Some? && ForNode(links, a[t]).value.next == Some(b[t + 1])
  {
    WalkUnique(links, a, b, t);
    assert t < |b| - 1;
  }

  /** What a walk that cannot go on says about rings: none is of any other length. */
  lemma StuckWalk(links: seq<Assignment>, walk: seq<NodeId>, ring: seq<NodeId>)
    requires Walk(links, walk) && walk != [] && IsRing(links, ring)
    requires ForNode(links, walk[|walk| - 1]).value.next == None
    ensures |ring| == |walk|
  {
    hide Walk;
    if |walk| < |ring| {
      NextForced(links, walk, ring, |walk| - 1);
    } else if |ring| < |walk| {
      NextForced(links, ring, walk, |ring| - 1);
    }
  }

  /** `id` is where the walk goes next. */
  ghost predicate GoesTo(links: seq<Assignment>, walk: seq<NodeId>, id: NodeId) {
    if walk == [] then EmbeddingHost(links) == Some(id)
    else
      var last := ForNode(links, walk[|walk| - 1]);
      last.Some? && last.value.next == Some(id)
  }

  /** A ring goes through wherever a walk goes next. */
  lemma RingGoesOn(links: seq<Assignment>, walk: seq<NodeId>, ring: seq<NodeId>, id: NodeId)
    requires Walk(links, walk) && GoesTo(links, walk, id) && IsRing(links, ring)
    ensures |walk| < |ring| && ring[|walk|] == id
  {
    hide Walk;
    var m, n := |walk|, |ring|;
    if n < m {
      NextForced(links, ring, walk, n - 1);
    } else if m > 0 {
      WalkUnique(links, walk, ring, m - 1);
      if m < n {
        NextForced(links, walk, ring, m - 1);
      }
    } else {
      WalkStarts(links, ring);
    }
  }

  lemma WalkStarts(links: seq<Assignment>, a: seq<NodeId>)
    requires Walk(links, a) && a != []
    ensures EmbeddingHost(links) == Some(a[0])
  {
  }

  /** The next id to visit breaks every ring: it was visited already, or no assignment names it. */
  lemma BrokenWalk(links: seq<Assignment>, walk: seq<NodeId>, ring: seq<NodeId>, id: NodeId)
    requires Walk(links, walk) && GoesTo(links, walk, id) && (id in walk || ForNode(links, id).None?)
    ensures !IsRing(links, ring)
  {
    if IsRing(links, ring) {
      RingGoesOn(links, walk, ring, id);
      if id in walk {
        var t :| 0 <= t < |walk| && walk[t] == id;
        WalkUnique(links, walk, ring, t);
      }
    }
  }

  lemma WalkExtend(links: seq<Assignment>, walk: seq<NodeId>, id: NodeId)
    requires Walk(links, walk) && id !in walk && ForNode(links, id).Some?
    requires GoesTo(links, walk, id)
    ensures Walk(links, walk + [id])
  {
    var longer := walk + [id];
    forall t | 0 <= t < |longer| - 1
      ensures ForNode(links, longer[t]).value.next == Some(longer[t + 1])
    {
      assert longer[t] == walk[t];
    }
  }

  /** Every walk stays within the nodes of the manifest and is at most that long. */
  lemma WalkBounded(links: seq<Assignment>, walk: seq<NodeId>)
    requires Walk(links, walk)
    ensures Elems(walk) <= NodeSet(links) && |walk| <= |NodeSet(links)|
  {
    SetOfNoDup(walk);
    forall id | id in walk
      ensures id in NodeSet(links)
    {
      assert ForNode(links, id).value in links;
    }
    SubsetSize(Elems(walk), NodeSet(links));
  }

  lemma SubsetSize<T>(a: set<T>, b: set<T>)
    requires a <= b
    ensures |a| <= |b|
  {
    assert b == a + (b - a);
  }

  /** The walk ends on every manifest, returns the ring when there is one, and `None` only when there is none. */
  method PipelineOrder(links: seq<Assignment>) returns (r: Option<seq<NodeId>>)
    ensures r.Some? ==> IsRing(links, r.value)
    ensures r.None? ==> forall order :: !IsRing(links, order)
  {
    hide NodeSet;
    var cur := EmbeddingHost(links);
    if cur == None {
      return None;
    }
    var order: seq<NodeId> := [];
    var seen: set<NodeId> := {};
    while cur.Some?
      invariant Walk(links, order) && seen == Elems(order)
      invariant order == [] ==> cur == EmbeddingHost(links)
      invariant order != [] ==> cur == ForNode(links, order[|order| - 1]).value.next
      invariant order == [] ==> cur.Some?
      decreases |NodeSet(links)| - |order|
    {
      var id := cur.value;
      if id in seen {
        forall ring
          ensures !IsRing(links, ring)
        {
          BrokenWalk(links, order, ring, id);
        }
        return None;
      }
      seen := seen + {id};
      var a := ForNode(links, id);
      if a == None {
        forall ring
          ensures !IsRing(links, ring)
        {
          BrokenWalk(links, order, ring, id);
        }
        return None;
      }
      WalkExtend(links, order, id);
      order := order + [id];
      WalkBounded(links, order);
      cur := a.value.next;
    }
    if |order| != |links| {
      forall ring
        ensures !IsRing(links, ring)
      {
        if IsRing(links, ring) {
          StuckWalk(links, order, ring);
        }
      }
      return None;
    }
    return Some(order);
  }

  function IdsOf(links: seq<Assignment>): (ids: seq<NodeId>)
    ensures |ids| == |links| && forall t :: 0 <= t < |links| ==> ids[t] == links[t].nodeId
  {
    seq(|links|, t requires 0 <= t < |links| => links[t].nodeId)
  }

  lemma {:induction false} NoDupFromSize<T>(s: seq<T>)
    requires |Elems(s)| == |s|
    ensures NoDup(s)
  {
    if s != [] {
      var n := |s| - 1;
      ElemsSplit(s);
      SetAtMost(s[..n]);
      assert s[n] !in Elems(s[..n]);
      NoDupFromSize(s[..n]);
      assert forall a :: 0 <= a < n ==> s[..n][a] == s[a];
    }
  }

  lemma SetAtMost<T>(s: seq<T>)
    ensures |Elems(s)| <= |s|
  {
    if s != [] {
      SetAtMost(s[..|s| - 1]);
      ElemsSplit(s);
    }
  }

  /** A ring visits every node of the manifest exactly once; in particular the manifest repeats no id. */
  lemma RingIsPermutation(links: seq<Assignment>, order: seq<NodeId>)
    requires IsRing(links, order)
    ensures NoDup(IdsOf(links)) && multiset(order) == multiset(IdsOf(links))
  {
    var ids := IdsOf(links);
    var visited, named := Elems(order), Elems(ids);
    WalkBounded(links, order);
    assert named == NodeSet(links);
    SetOfNoDup(order);
    SetAtMost(ids);
    SubsetSize(visited, named);
    SameSet(visited, named);
    NoDupFromSize(ids);
    SameMultiset(order, ids);
  }

  lemma SameSet<T>(a: set<T>, b: set<T>)
    requires a <= b && |a| >= |b|
    ensures a == b
  {
    assert b == a + (b - a);
  }

  lemma NoDupCounts<T>(s: seq<T>, x: T)
    requires NoDup(s)
    ensures multiset(s)[x] == if x in s then 1 else 0
  {
    if s != [] {
      var n := |s| - 1;
      assert s == s[..n] + [s[n]];
      NoDupCounts(s[..n], x);
    }
  }

  lemma SameMultiset<T>(a: seq<T>, b: seq<T>)
    requires NoDup(a) && NoDup(b) && Elems(a) == Elems(b)
    ensures multiset(a) == multiset(b)
  {
    forall x: T
      ensures multiset(a)[x] == multiset(b)[x]
    {
      NoDupCounts(a, x);
      NoDupCounts(b, x);
      assert x in a <==> x in Elems(a);
      assert x in b <==> x in Elems(b);
    }
  }

  lemma {:induction false} ForNodeAt(links: seq<Assignment>, t: nat)
    requires t < |links| && forall s :: 0 <= s < t ==> links[s].nodeId != links[t].nodeId
    ensures ForNode(links, links[t].nodeId) == Some(links[t])
  {
    if t > 0 {
      ForNodeAt(links[1..], t - 1);
    }
  }

  lemma {:induction false} OutputAt(links: seq<Assignment>)
    requires links != [] && links[|links| - 1].hostsOutput
    requires forall t :: 0 <= t < |links| - 1 ==> !links[t].hostsOutput
    ensures OutputHost(links) == Some(links[|links| - 1].nodeId)
  {
    if |links| > 1 {
      OutputAt(links[1..]);
    }
  }

  /** On the manifests the constructors build, the ring is the assignment order, from the embedding host to the output
      host, exactly when there is a node and no id repeats. */
  lemma ChainRingExactly(links: seq<Assignment>, ids: seq<NodeId>, cuts: seq<nat>)
    requires Chains(links, ids, cuts)
    ensures IsRing(links, ids) <==> ids != [] && NoDup(ids)
    ensures (exists order :: IsRing(links, order)) <==> ids != [] && NoDup(ids)
    ensures ids != [] ==> EmbeddingHost(links) == Some(ids[0]) && OutputHost(links) == Some(ids[|ids| - 1])
  {
    assert IdsOf(links) == ids;
    forall order | IsRing(links, order)
      ensures ids != [] && NoDup(ids)
    {
      RingIsPermutation(links, order);
    }
    if ids != [] {
      OutputAt(links);
      if NoDup(ids) {
        ChainWalks(links, ids, cuts);
      }
    }
  }

  lemma ChainWalks(links: seq<Assignment>, ids: seq<NodeId>, cuts: seq<nat>)
    requires Chains(links, ids, cuts) && NoDup(ids) && ids != []
    ensures IsRing(links, ids)
  {
    forall t | 0 <= t < |ids|
      ensures ForNode(links, ids[t]) == Some(links[t])
    {
      ForNodeAt(links, t);
    }
    assert EmbeddingHost(links) == Some(ids[0]);
  }

  /** Whatever a manifest built by the solver says, walking it gives back the nodes in the order they were listed. */
  method ChainOrder(links: seq<Assignment>, ghost ids: seq<NodeId>, ghost cuts: seq<nat>)
      returns (r: Option<seq<NodeId>>)
    requires Chains(links, ids, cuts)
    ensures r == if ids != [] && NoDup(ids) then Some(ids) else None
  {
    hide IsRing, Chains;
    ChainRingExactly(links, ids, cuts);
    r := PipelineOrder(links);
    if r.Some? {
      RingUnique(links, r.value, ids);
    }
  }

  // ---------------------------------------------------------------- the forward plan

  datatype Step = Step(nodeId: NodeId, here: bool)

  method ForwardPlan(links: seq<Assignment>, self: NodeId) returns (r: Option<seq<Step>>)
    ensures r.None? ==> forall order :: !IsRing(links, order)
    ensures r.Some? ==> exists order :: IsRing(links, order) && PlanFor(order, self, r.value)
  {
    hide IsRing;
    var order := PipelineOrder(links);
    if order == None {
      return None;
    }
    r := Some(seq(|order.value|, t requires 0 <= t < |order.value| => Step(order.value[t], order.value[t] == self)));
    assert PlanFor(order.value, self, r.value);
  }

  ghost predicate PlanFor(order: seq<NodeId>, self: NodeId, plan: seq<Step>) {
    |plan| == |order| && forall t :: 0 <= t < |plan| ==> plan[t] == Step(order[t], order[t] == self)
  }

  /** Plans made on two nodes visit the same nodes in the same order, and exactly one hop of a plan runs in process:
      the planner's own. */
  lemma PlansDifferOnlyInWhere(links: seq<Assignment>, o: seq<NodeId>, p: seq<NodeId>, a: NodeId, b: NodeId,
                               pa: seq<Step>, pb: seq<Step>)
    requires IsRing(links, o) && IsRing(links, p) && PlanFor(o, a, pa) && PlanFor(p, b, pb)
    ensures |pa| == |pb| && forall t :: 0 <= t < |pa| ==> pa[t].nodeId == pb[t].nodeId
    ensures forall t :: 0 <= t < |pa| ==> (pa[t].here <==> pa[t].nodeId == a)
    ensures forall s, t :: 0 <= s < t < |pa| ==> !(pa[s].here && pa[t].here)
    ensures (exists t :: 0 <= t < |pa| && pa[t].here) <==> a in IdsOf(links)
  {
    RingUnique(links, o, p);
    RingIsPermutation(links, o);
    assert a in o <==> a in multiset(o);
    assert a in IdsOf(links) <==> a in multiset(IdsOf(links));
    if a in o {
      var t :| 0 <= t < |o| && o[t] == a;
      assert pa[t].here;
    }
  }
}
