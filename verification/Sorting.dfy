/**
 Stable sorting, the library call behind `sort_by` and `sort_by_key`, as a function; and exactly what its result
 depends on.
 */
module Sorting {

  ghost predicate TotalPreorder<T(!new)>(le: (T, T) -> bool) {
    && (forall x, y :: le(x, y) || le(y, x))
    && (forall x, y, z :: le(x, y) && le(y, z) ==> le(x, z))
  }

  lemma Trans<T(!new)>(le: (T, T) -> bool, x: T, y: T, z: T)
    requires TotalPreorder(le) && le(x, y) && le(y, z)
    ensures le(x, z)
  {
  }

  lemma Either<T(!new)>(le: (T, T) -> bool, x: T, y: T)
    requires TotalPreorder(le)
    ensures le(x, y) || le(y, x)
  {
  }

  /** Equal under the sort key. */
  predicate Same<T>(le: (T, T) -> bool, x: T, y: T) {
    le(x, y) && le(y, x)
  }

  ghost predicate Sorted<T>(s: seq<T>, le: (T, T) -> bool) {
    forall i, j :: 0 <= i < j < |s| ==> le(s[i], s[j])
  }

  /** Insert `x` after every element that is not above it. */
  function Insert<T>(s: seq<T>, x: T, le: (T, T) -> bool): (r: seq<T>)
    ensures multiset(r) == multiset(s) + multiset{x}
  {
    if s == [] then [x]
    else
      var n := |s| - 1;
      assert s == s[..n] + [s[n]];
      if le(s[n], x) then s + [x] else Insert(s[..n], x, le) + [s[n]]
  }

  function StableSort<T>(s: seq<T>, le: (T, T) -> bool): (r: seq<T>)
    ensures multiset(r) == multiset(s)
  {
    if s == [] then []
    else
      var n := |s| - 1;
      assert s == s[..n] + [s[n]];
      Insert(StableSort(s[..n], le), s[n], le)
  }

  /** The elements of `s` that sort equal to `x`, in order. */
  function Peers<T>(s: seq<T>, x: T, le: (T, T) -> bool): seq<T> {
    if s == [] then []
    else
      var n := |s| - 1;
      Peers(s[..n], x, le) + if Same(le, s[n], x) then [s[n]] else []
  }

  lemma InsertAbove<T>(s: seq<T>, y: T, le: (T, T) -> bool)
    ensures s == [] || le(s[|s| - 1], y) ==> Insert(s, y, le) == s + [y]
    ensures s != [] && !le(s[|s| - 1], y) ==> Insert(s, y, le) == Insert(s[..|s| - 1], y, le) + [s[|s| - 1]]
  {
  }

  lemma {:induction false} InsertSorts<T(!new)>(s: seq<T>, x: T, le: (T, T) -> bool)
    requires TotalPreorder(le) && Sorted(s, le)
    ensures Sorted(Insert(s, x, le), le)
    decreases |s|
  {
    hide TotalPreorder, Insert;
    InsertAbove(s, x, le);
    if s != [] {
      var n := |s| - 1;
      Either(le, s[n], x);
      if le(s[n], x) {
        forall i | 0 <= i < |s|
          ensures le(s[i], x)
        {
          if i < n {
            Trans(le, s[i], s[n], x);
          }
        }
      } else {
        InsertSorts(s[..n], x, le);
        var r := Insert(s[..n], x, le);
        forall i | 0 <= i < |r|
          ensures le(r[i], s[n])
        {
          assert r[i] in multiset(r);
          assert r[i] == x || r[i] in s[..n];
        }
      }
    }
  }

  lemma {:induction false} SortSorts<T(!new)>(s: seq<T>, le: (T, T) -> bool)
    requires TotalPreorder(le)
    ensures Sorted(StableSort(s, le), le)
  {
    if s != [] {
      SortSorts(s[..|s| - 1], le);
      InsertSorts(StableSort(s[..|s| - 1], le), s[|s| - 1], le);
    }
  }

  lemma PeersAppend<T>(s: seq<T>, y: T, x: T, le: (T, T) -> bool)
    ensures Peers(s + [y], x, le) == Peers(s, x, le) + if Same(le, y, x) then [y] else []
  {
    assert (s + [y])[..|s|] == s;
  }

  lemma PeersSplit<T>(s: seq<T>, x: T, le: (T, T) -> bool)
    requires s != []
    ensures Peers(s, x, le) == Peers(s[..|s| - 1], x, le) + if Same(le, s[|s| - 1], x) then [s[|s| - 1]] else []
  {
  }

  lemma {:induction false} InsertStable<T(!new)>(s: seq<T>, y: T, x: T, le: (T, T) -> bool)
    requires TotalPreorder(le)
    ensures Peers(Insert(s, y, le), x, le) == Peers(s, x, le) + if Same(le, y, x) then [y] else []
    decreases |s|
  {
    hide TotalPreorder, Peers, Insert;
    InsertAbove(s, y, le);
    if s == [] || le(s[|s| - 1], y) {
      PeersAppend(s, y, x, le);
    } else {
      var n := |s| - 1;
      InsertStable(s[..n], y, x, le);
      PeersAppend(Insert(s[..n], y, le), s[n], x, le);
      PeersSplit(s, x, le);
      if Same(le, s[n], x) && Same(le, y, x) {
        Trans(le, s[n], x, y);
      }
    }
  }

  /** Stability: equal elements keep their order. */
  lemma {:induction false} SortStable<T(!new)>(s: seq<T>, x: T, le: (T, T) -> bool)
    requires TotalPreorder(le)
    ensures Peers(StableSort(s, le), x, le) == Peers(s, x, le)
  {
    hide TotalPreorder, Insert;
    if s != [] {
      var n := |s| - 1;
      SortStable(s[..n], x, le);
      InsertStable(StableSort(s[..n], le), s[n], x, le);
    }
  }

  /** The last element of a sequence is the last of its own peer group. */
  lemma LastPeer<T(!new)>(s: seq<T>, x: T, le: (T, T) -> bool)
    requires s != [] && Same(le, s[|s| - 1], x)
    ensures Peers(s, x, le) == Peers(s[..|s| - 1], x, le) + [s[|s| - 1]]
  {
  }

  lemma {:induction false} PeerExists<T(!new)>(s: seq<T>, x: T, le: (T, T) -> bool) returns (i: nat)
    requires Peers(s, x, le) != []
    ensures i < |s| && Same(le, s[i], x)
  {
    var n := |s| - 1;
    if Same(le, s[n], x) {
      i := n;
    } else {
      i := PeerExists(s[..n], x, le);
    }
  }

  ghost predicate SamePeers<T(!new)>(s: seq<T>, t: seq<T>, le: (T, T) -> bool) {
    forall x :: Peers(s, x, le) == Peers(t, x, le)
  }

  lemma LastNotAbove<T(!new)>(s: seq<T>, t: seq<T>, le: (T, T) -> bool)
    requires TotalPreorder(le) && Sorted(t, le) && SamePeers(s, t, le) && s != []
    ensures t != [] && le(s[|s| - 1], t[|t| - 1])
  {
    hide TotalPreorder;
    var x := s[|s| - 1];
    Either(le, x, x);
    LastPeer(s, x, le);
    assert Peers(t, x, le) == Peers(s, x, le);
    var i := PeerExists(t, x, le);
    if i < |t| - 1 {
      Trans(le, x, t[i], t[|t| - 1]);
    }
  }

  /** A sorted sequence is determined by its peer groups. */
  lemma {:induction false} SortedDetermined<T(!new)>(s: seq<T>, t: seq<T>, le: (T, T) -> bool)
    requires TotalPreorder(le) && Sorted(s, le) && Sorted(t, le) && SamePeers(s, t, le)
    ensures s == t
    decreases |s|
  {
    hide TotalPreorder, Peers, SamePeers;
    if s == [] {
      SamePeersBack(s, t, le);
      if t != [] {
        LastNotAbove(t, s, le);
      }
    } else {
      LastNotAbove(s, t, le);
      SamePeersBack(s, t, le);
      LastNotAbove(t, s, le);
      SameLast(s, t, le);
      SortedDetermined(s[..|s| - 1], t[..|t| - 1], le);
      assert s == s[..|s| - 1] + [s[|s| - 1]] && t == t[..|t| - 1] + [t[|t| - 1]];
    }
  }

  lemma SamePeersBack<T(!new)>(s: seq<T>, t: seq<T>, le: (T, T) -> bool)
    requires SamePeers(s, t, le)
    ensures SamePeers(t, s, le)
  {
  }

  lemma SameLast<T(!new)>(s: seq<T>, t: seq<T>, le: (T, T) -> bool)
    requires TotalPreorder(le) && SamePeers(s, t, le) && s != [] && t != [] && Same(le, s[|s| - 1], t[|t| - 1])
    ensures s[|s| - 1] == t[|t| - 1] && SamePeers(s[..|s| - 1], t[..|t| - 1], le)
  {
    hide TotalPreorder, Peers;
    var x, y := s[|s| - 1], t[|t| - 1];
    Either(le, x, x);
    PeersSplit(s, x, le);
    PeersSplit(t, x, le);
    var ps, pt := Peers(s, x, le), Peers(t, x, le);
    assert ps == pt;
    assert ps[|ps| - 1] == x && pt[|pt| - 1] == y;
    var ss, tt := s[..|s| - 1], t[..|t| - 1];
    forall z: T
      ensures Peers(ss, z, le) == Peers(tt, z, le)
    {
      PeersSplit(s, z, le);
      PeersSplit(t, z, le);
      var qs, qt := Peers(s, z, le), Peers(t, z, le);
      assert qs == qt;
      if Same(le, x, z) {
        assert Peers(ss, z, le) == qs[..|qs| - 1] && Peers(tt, z, le) == qt[..|qt| - 1];
      } else {
        assert Peers(ss, z, le) == qs && Peers(tt, z, le) == qt;
      }
    }
  }

  /** Two lists sort to the same sequence if and only if, for every key, they list the elements with that key in the
      same order. */
  lemma SortAgreesExactly<T(!new)>(a: seq<T>, b: seq<T>, le: (T, T) -> bool)
    requires TotalPreorder(le)
    ensures StableSort(a, le) == StableSort(b, le) <==> SamePeers(a, b, le)
  {
    hide TotalPreorder, Peers, StableSort;
    SortSorts(a, le);
    SortSorts(b, le);
    forall x
      ensures Peers(StableSort(a, le), x, le) == Peers(a, x, le) && Peers(StableSort(b, le), x, le) == Peers(b, x, le)
    {
      SortStable(a, x, le);
      SortStable(b, x, le);
    }
    if SamePeers(a, b, le) {
      SortedDetermined(StableSort(a, le), StableSort(b, le), le);
    }
  }

  /** No two elements have equal keys. */
  ghost predicate DistinctKeys<T>(s: seq<T>, le: (T, T) -> bool) {
    forall i, j :: 0 <= i < j < |s| ==> !Same(le, s[i], s[j])
  }

  lemma MultisetFront<T>(s: seq<T>)
    requires s != []
    ensures multiset(s[..|s| - 1]) == multiset(s) - multiset{s[|s| - 1]}
  {
    assert s == s[..|s| - 1] + [s[|s| - 1]];
  }

  /** The last element of a sorted sequence is above every other. */
  lemma LastIsTop<T(!new)>(s: seq<T>, x: T, le: (T, T) -> bool)
    requires TotalPreorder(le) && Sorted(s, le) && x in s
    ensures le(x, s[|s| - 1])
  {
    hide TotalPreorder;
    var i :| 0 <= i < |s| && s[i] == x;
    Either(le, x, x);
  }

  /** Sorted permutations of one another end in one element when keys are distinct. */
  lemma LastsEqual<T(!new)>(s: seq<T>, t: seq<T>, le: (T, T) -> bool)
    requires TotalPreorder(le) && Sorted(s, le) && Sorted(t, le) && DistinctKeys(t, le) && multiset(s) == multiset(t)
    requires s != [] && t != []
    ensures s[|s| - 1] == t[|t| - 1]
  {
    hide TotalPreorder, Sorted;
    var x, y := s[|s| - 1], t[|t| - 1];
    assert x in multiset(t) && y in multiset(s);
    LastIsTop(s, y, le);
    LastIsTop(t, x, le);
    var i :| 0 <= i < |t| && t[i] == x;
    assert i < |t| - 1 ==> !Same(le, t[i], t[|t| - 1]);
  }

  lemma FrontKeeps<T>(s: seq<T>, le: (T, T) -> bool)
    requires s != []
    ensures Sorted(s, le) ==> Sorted(s[..|s| - 1], le)
    ensures DistinctKeys(s, le) ==> DistinctKeys(s[..|s| - 1], le)
  {
  }

  lemma FrontsPermute<T>(s: seq<T>, t: seq<T>)
    requires s != [] && t != [] && multiset(s) == multiset(t) && s[|s| - 1] == t[|t| - 1]
    ensures multiset(s[..|s| - 1]) == multiset(t[..|t| - 1])
  {
    MultisetFront(s);
    MultisetFront(t);
  }

  lemma FrontAndLast<T>(s: seq<T>)
    requires s != []
    ensures s == s[..|s| - 1] + [s[|s| - 1]]
  {
  }

  lemma SameSize<T>(s: seq<T>, t: seq<T>)
    requires multiset(s) == multiset(t)
    ensures |s| == |t|
  {
    assert |multiset(s)| == |s| && |multiset(t)| == |t|;
  }

  /** Sorted permutations of one another are equal when keys are distinct. */
  lemma {:induction false} SortedUnique<T(!new)>(s: seq<T>, t: seq<T>, le: (T, T) -> bool)
    requires TotalPreorder(le) && Sorted(s, le) && Sorted(t, le) && DistinctKeys(t, le) && multiset(s) == multiset(t)
    ensures s == t
    decreases |s|
  {
    hide TotalPreorder, Sorted, DistinctKeys;
    SameSize(s, t);
    if s != [] {
      LastsEqual(s, t, le);
      FrontKeeps(s, le);
      FrontKeeps(t, le);
      FrontsPermute(s, t);
      SortedUnique(s[..|s| - 1], t[..|t| - 1], le);
      FrontAndLast(s);
      FrontAndLast(t);
    }
  }

  /** A sorted permutation with distinct keys is what the sort returns. */
  lemma SortedPermutationIsSort<T(!new)>(s: seq<T>, o: seq<T>, le: (T, T) -> bool)
    requires TotalPreorder(le) && Sorted(o, le) && DistinctKeys(o, le) && multiset(o) == multiset(s)
    ensures StableSort(s, le) == o
  {
    hide TotalPreorder;
    SortSorts(s, le);
    SortedUnique(StableSort(s, le), o, le);
  }
}
