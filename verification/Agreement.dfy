/**
 Agreement without a coordinator: every node sorts the capabilities it discovered by node id and solves the same
 problem. Also what equal manifest hashes do and do not mean.
 */
module Agreement {
  import opened Basics
  import opened Bytes
  import opened Sorting
  import opened Partition

  /** Byte order of node ids. */
  predicate IdLe(a: NodeId, b: NodeId) {
    a == [] || (b != [] && (a[0] < b[0] || (a[0] == b[0] && IdLe(a[1..], b[1..]))))
  }

  lemma {:induction false} IdLeTotal(a: NodeId, b: NodeId)
    ensures IdLe(a, b) || IdLe(b, a)
  {
    if a != [] && b != [] {
      IdLeTotal(a[1..], b[1..]);
    }
  }

  lemma {:induction false} IdLeTransitive(a: NodeId, b: NodeId, c: NodeId)
    requires IdLe(a, b) && IdLe(b, c)
    ensures IdLe(a, c)
  {
    if a != [] && b != [] && c != [] && a[0] == b[0] == c[0] {
      IdLeTransitive(a[1..], b[1..], c[1..]);
    }
  }

  lemma {:induction false} IdLeAntisymmetric(a: NodeId, b: NodeId)
    requires IdLe(a, b) && IdLe(b, a)
    ensures a == b
  {
    if a != [] && b != [] {
      IdLeAntisymmetric(a[1..], b[1..]);
      assert a == [a[0]] + a[1..] && b == [b[0]] + b[1..];
    }
  }

  /** An id is before another exactly when it is a beginning of it or is smaller at the first byte where they differ. */
  lemma {:induction false} IdLeExactly(a: NodeId, b: NodeId)
    ensures IdLe(a, b) <==> a <= b || exists k :: 0 <= k < |a| && k < |b| && a[..k] == b[..k] && a[k] < b[k]
  {
    if a != [] && b != [] {
      if a[0] == b[0] {
        IdLeExactly(a[1..], b[1..]);
        SameHead(a, b);
      } else {
        assert a[..0] == b[..0];
        assert forall k :: 0 < k <= |a| && k <= |b| ==> a[..k][0] != b[..k][0];
      }
    }
  }

  /** A common first byte does not change how two ids compare. */
  lemma SameHead(a: NodeId, b: NodeId)
    requires a != [] && b != [] && a[0] == b[0]
    ensures a <= b <==> a[1..] <= b[1..]
    ensures (exists k :: 0 <= k < |a| && k < |b| && a[..k] == b[..k] && a[k] < b[k])
       <==> exists k :: 0 <= k < |a[1..]| && k < |b[1..]| && a[1..][..k] == b[1..][..k] && a[1..][k] < b[1..][k]
  {
    var (x, y) := (a[1..], b[1..]);
    assert a == [a[0]] + x && b == [b[0]] + y;
    if k :| 0 <= k < |a| && k < |b| && a[..k] == b[..k] && a[k] < b[k] {
      assert x[..k - 1] == a[..k][1..] && y[..k - 1] == b[..k][1..];
      assert x[k - 1] < y[k - 1];
    }
    if k :| 0 <= k < |x| && k < |y| && x[..k] == y[..k] && x[k] < y[k] {
      assert a[..k + 1] == [a[0]] + x[..k] && b[..k + 1] == [b[0]] + y[..k];
      assert a[k + 1] < b[k + 1];
    }
  }

  predicate NodeLe(a: Capability, b: Capability) {
    IdLe(a.nodeId, b.nodeId)
  }

  lemma NodeOrder()
    ensures TotalPreorder(NodeLe)
  {
    forall a, b
      ensures NodeLe(a, b) || NodeLe(b, a)
    {
      IdLeTotal(a.nodeId, b.nodeId);
    }
    forall a, b, c | NodeLe(a, b) && NodeLe(b, c)
      ensures NodeLe(a, c)
    {
      IdLeTransitive(a.nodeId, b.nodeId, c.nodeId);
    }
  }

  function Canonical(caps: seq<Capability>): seq<Capability> {
    StableSort(caps, NodeLe)
  }

  /** The list that is solved holds the same capabilities in ascending order of id. */
  lemma CanonicalAscends(caps: seq<Capability>)
    ensures multiset(Canonical(caps)) == multiset(caps)
    ensures forall i, j :: 0 <= i < j < |Canonical(caps)| ==> IdLe(Canonical(caps)[i].nodeId, Canonical(caps)[j].nodeId)
  {
    hide StableSort;
    NodeOrder();
    SortSorts(caps, NodeLe);
    var s := Canonical(caps);
    forall i, j | 0 <= i < j < |s|
      ensures IdLe(s[i].nodeId, s[j].nodeId)
    {
      assert NodeLe(s[i], s[j]);
    }
  }

  method AgreedManifest(hash: seq<Byte> -> seq<Byte>, modelId: seq<Byte>, caps: seq<Capability>, z: Sizes)
      returns (r: Result<Manifest, Refusal>)
    requires InRange(z)
    ensures r == AutoSpec(hash, modelId, Canonical(caps), z)
    ensures r.Ok? ==> BestManifest(hash, modelId, Canonical(caps), z, r.value)
  {
    ghost var pace;
    r, pace := AutoPartition(hash, modelId, Canonical(caps), z);
  }

  lemma SortedIdsDistinct(caps: seq<Capability>)
    requires NoDup(Ids(caps))
    ensures DistinctKeys(Canonical(caps), NodeLe)
  {
    hide StableSort, Ids;
    var s := Canonical(caps);
    assert |multiset(s)| == |s| && |multiset(caps)| == |caps|;
    forall i, j | 0 <= i < j < |s|
      ensures !Same(NodeLe, s[i], s[j])
    {
      if Same(NodeLe, s[i], s[j]) {
        IdLeAntisymmetric(s[i].nodeId, s[j].nodeId);
        TwiceInSorted(caps, s, i, j);
      }
    }
  }

  /** Two places of a permutation with equal ids come from two places of the original. */
  lemma TwiceInSorted(caps: seq<Capability>, s: seq<Capability>, i: nat, j: nat)
    requires NoDup(Ids(caps)) && multiset(s) == multiset(caps) && i < j < |s|
    ensures s[i].nodeId != s[j].nodeId
  {
    hide Ids;
    assert s[i] in multiset(caps) && s[j] in multiset(caps);
    var a :| 0 <= a < |caps| && caps[a] == s[i];
    var b :| 0 <= b < |caps| && caps[b] == s[j];
    var ids := Ids(caps);
    if s[i].nodeId == s[j].nodeId {
      assert ids[a] == ids[b];
      assert a == b;
      assert s[i] == s[j];
      CountTwo(s, i, j);
      CountOne(caps, a);
    }
  }

  lemma CountTwo<T>(s: seq<T>, i: nat, j: nat)
    requires i < j < |s| && s[i] == s[j]
    ensures multiset(s)[s[i]] >= 2
  {
    assert s == s[..j] + [s[j]] + s[j + 1..];
    assert s[i] in s[..j];
  }

  lemma CountAlone<T>(s: seq<T>, a: nat)
    requires a < |s| && forall t :: 0 <= t < |s| && t != a ==> s[t] != s[a]
    ensures multiset(s)[s[a]] == 1
  {
    var front, rest := s[..a], s[a + 1..];
    assert s == front + [s[a]] + rest;
    assert forall t :: 0 <= t < |rest| ==> rest[t] == s[a + 1 + t];
    assert s[a] !in front && s[a] !in rest;
  }

  lemma IdsApart(caps: seq<Capability>, i: nat, j: nat)
    requires i < |caps| && j < |caps| && i != j && NoDup(Ids(caps))
    ensures caps[i] != caps[j]
  {
    hide Ids;
    var ids := Ids(caps);
    assert ids[i] != ids[j];
  }

  lemma CountOne(caps: seq<Capability>, a: nat)
    requires a < |caps| && NoDup(Ids(caps))
    ensures multiset(caps)[caps[a]] == 1
  {
    hide Ids, NoDup;
    forall t | 0 <= t < |caps| && t != a
      ensures caps[t] != caps[a]
    {
      IdsApart(caps, t, a);
    }
    CountAlone(caps, a);
  }

  /** However a node lists the capabilities it discovered, it sorts them the same way. */
  lemma CanonicalOrderFree(a: seq<Capability>, b: seq<Capability>)
    requires multiset(a) == multiset(b) && NoDup(Ids(a))
    ensures Canonical(a) == Canonical(b)
  {
    hide StableSort, Ids;
    NodeOrder();
    SortSorts(a, NodeLe);
    SortedIdsDistinct(a);
    SortedPermutationIsSort(b, Canonical(a), NodeLe);
  }

  /** Agreement: nodes that discovered the same set of peers, in any order, compute identical manifests. */
  lemma ManifestOrderFree(hash: seq<Byte> -> seq<Byte>, modelId: seq<Byte>, a: seq<Capability>, b: seq<Capability>,
                          z: Sizes)
    requires multiset(a) == multiset(b) && NoDup(Ids(a))
    ensures AutoSpec(hash, modelId, Canonical(a), z) == AutoSpec(hash, modelId, Canonical(b), z)
  {
    CanonicalOrderFree(a, b);
  }

  /** With repeated ids, two lists sort alike exactly when each id's capabilities come in the same order. */
  lemma CanonicalExactly(a: seq<Capability>, b: seq<Capability>)
    ensures Canonical(a) == Canonical(b) <==> SamePeers(a, b, NodeLe)
  {
    hide StableSort, SamePeers;
    NodeOrder();
    SortAgreesExactly(a, b, NodeLe);
  }

  /** Distinct ids are needed: two nodes that list the same two capabilities of one id in different orders disagree. */
  lemma RepeatedIdsDisagree(hash: seq<Byte> -> seq<Byte>, modelId: seq<Byte>)
    ensures var (roomy, full) := (Capability([97], 1, 1), Capability([97], 0, 1));
            var z := Sizes(1, 1, 0, 0);
            && multiset([roomy, full]) == multiset([full, roomy])
            && AutoSpec(hash, modelId, Canonical([roomy, full]), z)
               != AutoSpec(hash, modelId, Canonical([full, roomy]), z)
  {
    hide AutoSpec, Canonical;
    var roomy, full := Capability([97], 1, 1), Capability([97], 0, 1);
    SortsToItself(roomy, full);
    SortsToItself(full, roomy);
    OnlyCuts(hash, modelId, [roomy, full], 1);
    OnlyCuts(hash, modelId, [full, roomy], 0);
  }

  lemma SortsToItself(x: Capability, y: Capability)
    requires x.nodeId == y.nodeId
    ensures Canonical([x, y]) == [x, y]
  {
    hide IdLe;
    IdLeTotal(x.nodeId, y.nodeId);
    assert [x, y][..1] == [x] && [x][..0] == [];
    assert StableSort([x], NodeLe) == Insert([], x, NodeLe) == [x];
    InsertAbove([x], y, NodeLe);
  }

  /** Two nodes, one layer, and only one of them with room for it: the cut is where the room is. */
  lemma OnlyCuts(hash: seq<Byte> -> seq<Byte>, modelId: seq<Byte>, caps: seq<Capability>, cut: nat)
    requires |caps| == 2 && Scored(caps) && cut <= 1
    requires caps[0].memory == cut && caps[1].memory == 1 - cut
    ensures var r := AutoSpec(hash, modelId, caps, Sizes(1, 1, 0, 0));
            r.Ok? && |r.value.assignments| == 2 && r.value.assignments[0].end == cut
  {
    hide Best, Recover, Preimage, Capacity, Worst, Scored, AutoSpec;
    var z := Sizes(1, 1, 0, 0);
    assert Fits(caps, z, [0, cut, 1], 2, 1) by {
      var cuts := [0, cut, 1];
      assert Holds(caps, z, 0, cuts[1] - cuts[0]) && Holds(caps, z, 1, cuts[2] - cuts[1]);
    }
    AutoCorrect(hash, modelId, caps, z);
    var r := AutoSpec(hash, modelId, caps, z);
    var found :| OptimalThroughout(caps, z, found) && Chains(r.value.assignments, Ids(caps), found);
    assert Fits(caps, z, found, 2, 1);
    assert found[0] <= found[1] <= found[2];
    assert Holds(caps, z, 0, found[1] - found[0]) && Holds(caps, z, 1, found[2] - found[1]);
    assert r.value.assignments[0] == Link(Ids(caps), found, 0);
  }

  // ---------------------------------------------------------------- the manifest hash

  /** The entries the hash is meant to cover. */
  predicate SameLayout(a: seq<Assignment>, b: seq<Assignment>) {
    |a| == |b| && forall t :: 0 <= t < |a| ==>
      a[t].nodeId == b[t].nodeId && a[t].start == b[t].start && a[t].end == b[t].end
  }

  predicate SameIdLengths(a: seq<Assignment>, b: seq<Assignment>) {
    |a| == |b| && forall t :: 0 <= t < |a| ==> |a[t].nodeId| == |b[t].nodeId|
  }

  /** Every range end is a 64-bit integer. */
  predicate Narrow(a: seq<Assignment>) {
    forall t :: 0 <= t < |a| ==> a[t].start < Pow256(8) && a[t].end < Pow256(8)
  }

  lemma LeInjective(v: nat, w: nat, n: nat)
    requires v < Pow256(n) && w < Pow256(n) && Le(v, n) == Le(w, n)
    ensures v == w
  {
    LeRoundTrip(v, n);
    LeRoundTrip(w, n);
  }

  /** Concatenations with equal-length heads agree part by part. */
  lemma SplitEqual<T>(a: seq<T>, x: seq<T>, b: seq<T>, y: seq<T>)
    requires a + x == b + y && |a| == |b|
    ensures a == b && x == y
  {
    assert (a + x)[..|a|] == a && (b + y)[..|b|] == b;
    assert (a + x)[|a|..] == x && (b + y)[|b|..] == y;
  }

  lemma {:induction false} EntriesInjective(a: seq<Assignment>, b: seq<Assignment>)
    requires Narrow(a) && Narrow(b) && SameIdLengths(a, b) && Entries(a) == Entries(b)
    ensures SameLayout(a, b)
  {
    if a != [] {
      hide Pow256, Le;
      var (p, q) := (a[0], b[0]);
      var (p1, q1) := (p.nodeId + Le(p.start, 8), q.nodeId + Le(q.start, 8));
      SplitEqual(p1 + Le(p.end, 8), Entries(a[1..]), q1 + Le(q.end, 8), Entries(b[1..]));
      SplitEqual(p1, Le(p.end, 8), q1, Le(q.end, 8));
      SplitEqual(p.nodeId, Le(p.start, 8), q.nodeId, Le(q.start, 8));
      LeInjective(p.start, q.start, 8);
      LeInjective(p.end, q.end, 8);
      EntriesInjective(a[1..], b[1..]);
      forall t | 0 <= t < |a|
        ensures a[t].nodeId == b[t].nodeId && a[t].start == b[t].start && a[t].end == b[t].end
      {
        if t > 0 {
          assert a[t] == a[1..][t - 1] && b[t] == b[1..][t - 1];
        }
      }
    }
  }

  lemma {:induction false} SameLayoutSameEntries(a: seq<Assignment>, b: seq<Assignment>)
    requires SameLayout(a, b)
    ensures Entries(a) == Entries(b)
  {
    if a != [] {
      SameLayoutSameEntries(a[1..], b[1..]);
    }
  }

  lemma {:induction false} EntriesLength(a: seq<Assignment>, b: seq<Assignment>)
    requires SameIdLengths(a, b)
    ensures |Entries(a)| == |Entries(b)|
  {
    if a != [] {
      hide Pow256, Le;
      assert forall t :: 0 <= t < |a| - 1 ==> a[1..][t] == a[t + 1] && b[1..][t] == b[t + 1];
      EntriesLength(a[1..], b[1..]);
    }
  }

  /** What equal hash inputs mean, for any two manifests: the same model, the same layer count and the same layout,
      exactly when the two manifests' ids have the same lengths place by place. */
  lemma PreimageExactly(modelA: seq<Byte>, nA: nat, a: seq<Assignment>, modelB: seq<Byte>, nB: nat,
                        b: seq<Assignment>)
    requires Narrow(a) && Narrow(b) && nA < Pow256(8) && nB < Pow256(8)
    requires Preimage(modelA, nA, a) == Preimage(modelB, nB, b)
    ensures modelA == modelB && nA == nB && SameLayout(a, b) <==> SameIdLengths(a, b)
  {
    hide Pow256, Le, Narrow, Entries;
    if SameIdLengths(a, b) {
      EntriesLength(a, b);
      SplitEqual(modelA + Le(nA, 8), Entries(a), modelB + Le(nB, 8), Entries(b));
      SplitEqual(modelA, Le(nA, 8), modelB, Le(nB, 8));
      LeInjective(nA, nB, 8);
      EntriesInjective(a, b);
    }
  }

  /** Nodes that partition the same list of nodes hash the same bytes exactly when they agree on the model, the number
      of layers and the layout. */
  lemma SameNodesAgreeExactly(ids: seq<NodeId>, modelA: seq<Byte>, nA: nat, c: seq<nat>, modelB: seq<Byte>, nB: nat,
                              d: seq<nat>)
    requires |c| == |d| == |ids| + 1 && nA < Pow256(8) && nB < Pow256(8)
    requires forall t :: 0 <= t <= |ids| ==> c[t] < Pow256(8) && d[t] < Pow256(8)
    ensures Preimage(modelA, nA, Chain(ids, c)) == Preimage(modelB, nB, Chain(ids, d))
            <==> modelA == modelB && nA == nB && SameLayout(Chain(ids, c), Chain(ids, d))
  {
    hide Pow256, Le, Entries;
    var (a, b) := (Chain(ids, c), Chain(ids, d));
    if SameLayout(a, b) {
      SameLayoutSameEntries(a, b);
    }
    if Preimage(modelA, nA, a) == Preimage(modelB, nB, b) {
      PreimageExactly(modelA, nA, a, modelB, nB, b);
    }
  }

  /** Ids are hashed without their lengths, so equal hashes alone do not mean an identical assignment: a two-node
      manifest and a one-node manifest share every hash. */
  lemma HashCollision(hash: seq<Byte> -> seq<Byte>, modelId: seq<Byte>, n: nat)
    ensures var zeros := Le(0, 8) + Le(0, 8);
            var two, one := Chain([[97], [98]], [0, 0, n]), Chain([[97] + zeros + [98]], [0, n]);
            Sealed(hash, modelId, n, two).hash == Sealed(hash, modelId, n, one).hash && !SameLayout(two, one)
  {
    hide Le;
    var z8 := Le(0, 8);
    var long := [97] + (z8 + z8) + [98];
    var two, one := Chain([[97], [98]], [0, 0, n]), Chain([long], [0, n]);
    assert two[1..][1..] == [] && one[1..] == [];
    assert Entries(one) == long + z8 + Le(n, 8) + [];
    assert Entries(two[1..]) == [98] + z8 + Le(n, 8) + [];
    assert Entries(two) == [97] + z8 + z8 + Entries(two[1..]);
    assert Entries(two) == Entries(one);
  }
}
