/**
 The coordinator of one request: routing from the manifest, one pass around the ring, and the token loop.

 A coordinator shares the peers with others. `Traffic` says which of their frames the peers handle before each of its
 own; what is proved besides its tokens is that the others' caches are what their own frames alone make them.
 */
module Coordinators {
  import opened Basics
  import opened Causal
  import opened Runtime
  import opened Generation
  import opened Partition
  import opened Ring
  import opened Peers
  import opened Cluster

  datatype Problem =
    | MissingPeers(ids: seq<NodeId>)
    | Malformed
    | SingleNode
    | LocalHop(id: NodeId)
    | NoConnection(id: NodeId)
    | PeerFault

  datatype Route = Local | Remote(peer: Peer)

  /** A frame of some request on its way to a peer. */
  datatype Delivery = Delivery(dest: NodeId, frame: Frame)

  /** What the peers handle before the coordinator's frame number `c`. */
  type Traffic = nat -> seq<Delivery>

  /** Everything before the first `c` frames and the one after them. */
  function Until(traffic: Traffic, c: nat): seq<Delivery> {
    if c == 0 then [] else Until(traffic, c - 1) + traffic(c - 1)
  }

  /** Manifest nodes other than this one without a connection, in manifest order. */
  function Missing(links: seq<Assignment>, self: NodeId, have: set<NodeId>): (ids: seq<NodeId>)
    ensures forall id :: id in ids <==> id != self && id !in have && exists a :: a in links && a.nodeId == id
  {
    if links == [] then []
    else
      var n := |links| - 1;
      assert links == links[..n] + [links[n]];
      var id := links[n].nodeId;
      Missing(links[..n], self, have) + if id != self && id !in have then [id] else []
  }

  /** Two snapshots of all peers differ at most in one request's caches. */
  ghost predicate Elsewhere(a: map<NodeId, Caches>, b: map<NodeId, Caches>, request: nat) {
    && a.Keys == b.Keys
    && forall id, other :: id in a && other != request ==> Agree(a[id], b[id], other)
  }

  lemma ElsewhereChain(a: map<NodeId, Caches>, b: map<NodeId, Caches>, c: map<NodeId, Caches>, request: nat)
    requires Elsewhere(a, b, request) && Elsewhere(b, c, request)
    ensures Elsewhere(a, c, request)
  {
    forall id, other | id in a && other != request
      ensures Agree(a[id], c[id], other)
    {
      assert Agree(a[id], b[id], other) && Agree(b[id], c[id], other);
    }
  }

  lemma SameElsewhere(a: map<NodeId, Caches>, request: nat)
    ensures Elsewhere(a, a, request)
  {
  }

  /** Two snapshots of all peers agree on one request's caches. */
  ghost predicate Here(a: map<NodeId, Caches>, b: map<NodeId, Caches>, request: nat) {
    a.Keys == b.Keys && forall id :: id in a ==> Agree(a[id], b[id], request)
  }

  lemma ServingStays(p: Plan, ids: seq<NodeId>, a: map<NodeId, Caches>, b: map<NodeId, Caches>, request: nat, f: Flow)
    requires |ids| == Size(p) && f.job.prompt != [] && Serving(p, ids, a, request, f) && Here(a, b, request)
    ensures Serving(p, ids, b, request, f)
  {
    hide Caught, Cached;
    forall t | 0 <= t < Size(p) && ids[t] in b
      ensures HoldsOwn(p, b[ids[t]], request, f, t)
    {
      assert HoldsOwn(p, a[ids[t]], request, f, t);
      assert Agree(a[ids[t]], b[ids[t]], request);
    }
  }

  /** The connected peers of the ring hold the request's own causal rows. */
  ghost predicate Serving(p: Plan, ids: seq<NodeId>, rows: map<NodeId, Caches>, request: nat, f: Flow)
    requires |ids| == Size(p) && f.job.prompt != []
  {
    forall t :: 0 <= t < Size(p) && ids[t] in rows ==> HoldsOwn(p, rows[ids[t]], request, f, t)
  }

  /** One hop of a request, seen by all peers. */
  lemma HopKeepsServing(p: Plan, ids: seq<NodeId>, rows: map<NodeId, Caches>, request: nat, f: Flow)
    requires Covering(p) && |ids| == Size(p) && NoDup(ids) && OnTrack(p, request, f) && !Finished(f)
    requires Serving(p, ids, rows, request, f) && ids[f.hop] in rows
    ensures var id := ids[f.hop];
            var served := Serve(p.m, StageAt(p, f.hop), rows[id], NextFrame(p, request, f));
            var g := Digest(p, f, served.reply);
            && OnTrack(p, request, g)
            && Serving(p, ids, rows[id := served.caches], request, g)
            && Elsewhere(rows, rows[id := served.caches], request)
            && (if f.hop + 1 < Size(p)
                then g.hop == f.hop + 1 && g.produced == f.produced && g.job == f.job && g.hdr.request == request
                     && served.reply == Activation(g.hdr, g.payload)
                else g.hop == 0 && g.job == f.job && |g.produced| == |f.produced| + 1
                     && served.reply == Logit(request, PosOf(f), Logits(p.m, Text(f))))
  {
    hide OnTrack, HoldsOwn, Serve, Acts, Caught, Gen, Logits;
    FlowFacts(p, request, f);
    var id := ids[f.hop];
    var frame := NextFrame(p, request, f);
    var served := Serve(p.m, StageAt(p, f.hop), rows[id], frame);
    var g := Digest(p, f, served.reply);
    HopServes(p, rows[id], request, f);
    if f.hop + 1 < Size(p) {
      MovesOn(p, request, f);
    } else {
      Samples(p, request, f);
    }
    var after := rows[id := served.caches];
    forall t | 0 <= t < Size(p) && ids[t] in after
      ensures HoldsOwn(p, after[ids[t]], request, g, t)
    {
      HeldAfterHop(p, rows[ids[t]], after[ids[t]], request, f, g, t);
    }
    forall other | other != request
      ensures Agree(rows[id], after[id], other)
    {
      ServeIsolated(p.m, StageAt(p, f.hop), rows[id], frame, other);
    }
  }

  class Coordinator {
    const localId: NodeId
    const links: seq<Assignment>
    const conns: map<NodeId, Peer>

    ghost function Slots(): set<KvCacheSlot>
      reads conns.Values
    {
      set id, o | id in conns && o in conns[id].repr :: o
    }

    ghost function AllRows(): (rows: map<NodeId, Caches>)
      reads conns.Values
      ensures rows.Keys == conns.Keys
    {
      map id | id in conns :: conns[id].rows
    }

    /** Every connection leads to a peer of its own. */
    ghost predicate Wired()
      reads conns.Values, Slots()
    {
      && (forall id :: id in conns ==> conns[id].repr <= Slots() && conns[id].Valid())
      && (forall a, b :: a in conns && b in conns && a != b ==>
            conns[a] != conns[b] && conns[a].repr !! conns[b].repr)
    }

    constructor (localId: NodeId, links: seq<Assignment>, conns: map<NodeId, Peer>)
      ensures this.localId == localId && this.links == links && this.conns == conns
    {
      this.localId := localId;
      this.links := links;
      this.conns := conns;
    }

    /** A connection to oneself wins over running in process. */
    function RouteTo(id: NodeId): Option<Route> {
      if id in conns then Some(Remote(conns[id])) else if id == localId then Some(Local) else None
    }

    function ConnFor(id: NodeId): Result<Peer, Problem> {
      match RouteTo(id)
      case Some(Remote(peer)) => Ok(peer)
      case Some(Local) => Err(LocalHop(id))
      case None => Err(NoConnection(id))
    }

    function Unrouted(id: NodeId): Problem {
      if id == localId then LocalHop(id) else NoConnection(id)
    }

    method Deliver(id: NodeId, frame: Frame) returns (reply: Reply)
      requires Wired() && id in conns && Roomy(conns[id].st, conns[id].rows, frame, conns[id].maxSeq)
      modifies conns[id], conns[id].repr
      ensures Wired() && fresh(Slots() - old(Slots()))
      ensures Served(reply, conns[id].rows) == Serve(conns[id].m, conns[id].st, old(conns[id].rows), frame)
      ensures forall other :: other in conns && other != id ==> conns[other].rows == old(conns[other].rows)
    {
      hide Serve, Roomy, Peer.Valid;
      reply := conns[id].Handle(frame);
      forall other | other in conns && other != id
        ensures conns[other].Valid() && conns[other].repr == old(conns[other].repr)
        ensures conns[other].repr !! conns[id].repr
      {
        assert old(conns[other].Valid());
      }
    }

    /** What a frame of the traffic does: nothing unless it is another request's, goes to a connected peer and fits the
        slots there. */
    ghost function HearOne(rows: map<NodeId, Caches>, request: nat, d: Delivery): (after: map<NodeId, Caches>)
      ensures after.Keys == rows.Keys
    {
      if d.dest in conns && d.dest in rows && FrameRequest(d.frame) != request
         && Peers.Roomy(conns[d.dest].st, rows[d.dest], d.frame, conns[d.dest].maxSeq)
      then rows[d.dest := Serve(conns[d.dest].m, conns[d.dest].st, rows[d.dest], d.frame).caches]
      else rows
    }

    ghost function HearAll(rows: map<NodeId, Caches>, request: nat, heard: seq<Delivery>): (after: map<NodeId, Caches>)
      ensures after.Keys == rows.Keys
    {
      if heard == [] then rows
      else HearOne(HearAll(rows, request, heard[..|heard| - 1]), request, heard[|heard| - 1])
    }

    /** The traffic never touches the request's own caches. */
    lemma {:induction false} HearingSparesOwn(rows: map<NodeId, Caches>, request: nat, heard: seq<Delivery>)
      ensures Here(rows, HearAll(rows, request, heard), request)
      decreases |heard|
    {
      if heard != [] {
        hide Serve, Peers.Roomy;
        var d := heard[|heard| - 1];
        HearingSparesOwn(rows, request, heard[..|heard| - 1]);
        var before := HearAll(rows, request, heard[..|heard| - 1]);
        if d.dest in conns && d.dest in before && FrameRequest(d.frame) != request {
          ServeIsolated(conns[d.dest].m, conns[d.dest].st, before[d.dest], d.frame, request);
        }
      }
    }

    /** What the traffic does to the other requests' caches does not depend on this request's. */
    lemma HearOneElsewhere(a: map<NodeId, Caches>, b: map<NodeId, Caches>, request: nat, d: Delivery)
      requires Elsewhere(a, b, request)
      ensures Elsewhere(HearOne(a, request, d), HearOne(b, request, d), request)
    {
      hide Serve, Peers.Roomy;
      var own := FrameRequest(d.frame);
      if d.dest in conns && d.dest in a && own != request {
        var (m, st) := (conns[d.dest].m, conns[d.dest].st);
        assert Agree(a[d.dest], b[d.dest], own);
        ServeReadsOwn(m, st, a[d.dest], b[d.dest], d.frame, conns[d.dest].maxSeq);
        var (x, y) := (Serve(m, st, a[d.dest], d.frame).caches, Serve(m, st, b[d.dest], d.frame).caches);
        forall other | other != request
          ensures Agree(x, y, other)
        {
          if other != own {
            ServeIsolated(m, st, a[d.dest], d.frame, other);
            ServeIsolated(m, st, b[d.dest], d.frame, other);
            assert Agree(a[d.dest], b[d.dest], other);
          }
        }
        var (a', b') := (HearOne(a, request, d), HearOne(b, request, d));
        forall id, other | id in a' && other != request
          ensures Agree(a'[id], b'[id], other)
        {
          assert Agree(a[id], b[id], other);
        }
      }
    }

    lemma {:induction false} HearingElsewhere(a: map<NodeId, Caches>, b: map<NodeId, Caches>, request: nat,
                                              heard: seq<Delivery>)
      requires Elsewhere(a, b, request)
      ensures Elsewhere(HearAll(a, request, heard), HearAll(b, request, heard), request)
      decreases |heard|
    {
      if heard != [] {
        hide HearOne, Elsewhere;
        var front := heard[..|heard| - 1];
        HearingElsewhere(a, b, request, front);
        HearOneElsewhere(HearAll(a, request, front), HearAll(b, request, front), request, heard[|heard| - 1]);
      }
    }

    lemma {:induction false} HearingSplits(rows: map<NodeId, Caches>, request: nat, a: seq<Delivery>, b: seq<Delivery>)
      ensures HearAll(rows, request, a + b) == HearAll(HearAll(rows, request, a), request, b)
      decreases |b|
    {
      if b == [] {
        assert a + b == a;
      } else {
        hide HearOne;
        assert (a + b)[..|a + b| - 1] == a + b[..|b| - 1];
        HearingSplits(rows, request, a, b[..|b| - 1]);
      }
    }

    /** Since `start`, while this request sent `c` frames, the other requests' caches went through the traffic alone. */
    ghost predicate Shared(request: nat, start: map<NodeId, Caches>, traffic: Traffic, c: nat)
      reads conns.Values, Slots()
    {
      Wired() && Elsewhere(HearAll(start, request, Until(traffic, c)), AllRows(), request)
    }

    lemma SharedAtStart(request: nat, traffic: Traffic)
      requires Wired()
      ensures Shared(request, AllRows(), traffic, 0)
    {
      hide Wired;
      SameElsewhere(AllRows(), request);
    }

    /** The traffic before one more frame, and that frame. */
    lemma HearsMore(request: nat, start: map<NodeId, Caches>, traffic: Traffic, c: nat, before: map<NodeId, Caches>,
                    after: map<NodeId, Caches>)
      requires Elsewhere(HearAll(start, request, Until(traffic, c)), before, request)
      requires Elsewhere(HearAll(before, request, traffic(c)), after, request)
      ensures Elsewhere(HearAll(start, request, Until(traffic, c + 1)), after, request)
    {
      hide Elsewhere, HearAll;
      var heard := Until(traffic, c);
      HearingSplits(start, request, heard, traffic(c));
      HearingElsewhere(HearAll(start, request, heard), before, request, traffic(c));
      ElsewhereChain(HearAll(HearAll(start, request, heard), request, traffic(c)),
                     HearAll(before, request, traffic(c)), after, request);
    }

    method HearFrame(request: nat, d: Delivery)
      requires Wired()
      modifies conns.Values, Slots()
      ensures Wired() && fresh(Slots() - old(Slots()))
      ensures AllRows() == HearOne(old(AllRows()), request, d)
    {
      hide Serve, Peers.Roomy, Peer.Valid, Wired;
      if d.dest in conns && FrameRequest(d.frame) != request {
        WiredAt(d.dest);
        var fits := conns[d.dest].HasRoom(d.frame);
        if fits {
          var _ := Deliver(d.dest, d.frame);
        }
      }
    }

    /** The peers handle other coordinators' frames. */
    method Hear(request: nat, others: seq<Delivery>)
      requires Wired()
      modifies conns.Values, Slots()
      ensures Wired() && fresh(Slots() - old(Slots()))
      ensures AllRows() == HearAll(old(AllRows()), request, others)
    {
      hide Wired, HearOne;
      for k := 0 to |others|
        invariant Wired() && fresh(Slots() - old(Slots()))
        invariant AllRows() == HearAll(old(AllRows()), request, others[..k])
      {
        assert others[..k + 1][..k] == others[..k];
        HearFrame(request, others[k]);
      }
      assert others[..|others|] == others;
    }

    lemma WiredAt(id: NodeId)
      requires Wired() && id in conns
      ensures conns[id].repr <= Slots() && conns[id].Valid()
    {
      hide Peer.Valid;
    }

    /** One frame to one peer, and its reply. */
    method Send(id: NodeId, frame: Frame) returns (r: Result<Reply, Problem>)
      requires Wired() && (id in conns ==> Roomy(conns[id].st, conns[id].rows, frame, conns[id].maxSeq))
      modifies conns.Values, Slots()
      ensures Wired() && fresh(Slots() - old(Slots()))
      ensures id !in conns ==> r == Err(Unrouted(id)) && AllRows() == old(AllRows())
      ensures id in conns ==>
        var served := Serve(conns[id].m, conns[id].st, old(AllRows())[id], frame);
        r == Ok(served.reply) && AllRows() == old(AllRows())[id := served.caches]
    {
      hide Serve, Roomy, Peer.Valid, Wired;
      var peer := ConnFor(id);
      if peer.Err? {
        return Err(peer.error);
      }
      WiredAt(id);
      var reply := Deliver(id, frame);
      return Ok(reply);
    }

    /** The connected peers of the ring loaded what the manifest assigns them. */
    ghost predicate Staffed(p: Plan, ids: seq<NodeId>) {
      forall t :: 0 <= t < |ids| && t < Size(p) && ids[t] in conns ==>
        conns[ids[t]].m == p.m && conns[ids[t]].st == StageAt(p, t) && conns[ids[t]].maxSeq == p.maxSeq
    }

    /** A request in step with its connected peers. */
    ghost predicate Synced(p: Plan, ids: seq<NodeId>, request: nat, f: Flow)
      reads conns.Values, Slots()
    {
      && Wired() && Covering(p) && |ids| == Size(p) && Staffed(p, ids) && NoDup(ids)
      && OnTrack(p, request, f) && Serving(p, ids, AllRows(), request, f)
    }

    lemma SyncedStays(p: Plan, ids: seq<NodeId>, request: nat, f: Flow, rows: map<NodeId, Caches>)
      requires Wired() && Covering(p) && |ids| == Size(p) && Staffed(p, ids) && NoDup(ids)
      requires OnTrack(p, request, f) && Serving(p, ids, rows, request, f) && Here(rows, AllRows(), request)
      ensures Synced(p, ids, request, f)
    {
      hide OnTrack, Wired, Serving, Staffed, NoDup, Here;
      FlowFacts(p, request, f);
      ServingStays(p, ids, rows, AllRows(), request, f);
    }

    /** Frame number `c`, after the peers have handled the traffic before it. */
    method Contact(request: nat, ids: seq<NodeId>, at: nat, frame: Frame, traffic: Traffic, c: nat,
                   ghost start: map<NodeId, Caches>, ghost p: Plan, ghost f: Flow)
        returns (r: Result<Reply, Problem>, ghost g: Flow)
      requires Synced(p, ids, request, f) && !Finished(f) && frame == NextFrame(p, request, f) && at == f.hop
      requires Shared(request, start, traffic, c)
      modifies conns.Values, Slots()
      ensures Shared(request, start, traffic, c + 1) && fresh(Slots() - old(Slots()))
      ensures r.Ok? <==> ids[f.hop] in conns
      ensures r.Err? ==> r.error == Unrouted(ids[f.hop])
      ensures r.Ok? ==> Synced(p, ids, request, g) && g == Digest(p, f, r.value) && g.job == f.job
      ensures r.Ok? ==>
        if f.hop + 1 < Size(p)
        then g.hop == f.hop + 1 && g.produced == f.produced && r.value == Activation(g.hdr, g.payload)
        else g.hop == 0 && r.value == Logit(request, PosOf(f), Logits(p.m, Text(f)))
    {
      hide Wired, Synced, Serve, Elsewhere, HearAll, Here, Finished, Logits, Until, NextFrame, Digest, PosOf, Text;
      ghost var before := AllRows();
      SyncedFacts(p, ids, request, f);
      Hear(request, traffic(c));
      HearingSparesOwn(before, request, traffic(c));
      SyncedStays(p, ids, request, f, before);
      r, g := SendOwn(request, ids, at, frame, p, f);
      HearsMore(request, start, traffic, c, before, AllRows());
    }

    lemma SyncedFacts(p: Plan, ids: seq<NodeId>, request: nat, f: Flow)
      requires Synced(p, ids, request, f)
      ensures Wired() && Covering(p) && |ids| == Size(p) && Staffed(p, ids) && NoDup(ids)
      ensures OnTrack(p, request, f) && Serving(p, ids, AllRows(), request, f)
      ensures f.job.prompt != [] && f.hop < Size(p)
    {
    }

    method SendOwn(request: nat, ids: seq<NodeId>, at: nat, frame: Frame, ghost p: Plan, ghost f: Flow)
        returns (r: Result<Reply, Problem>, ghost g: Flow)
      requires Synced(p, ids, request, f) && !Finished(f) && frame == NextFrame(p, request, f) && at == f.hop
      modifies conns.Values, Slots()
      ensures Wired() && fresh(Slots() - old(Slots()))
      ensures Elsewhere(old(AllRows()), AllRows(), request)
      ensures r.Ok? <==> ids[f.hop] in conns
      ensures r.Err? ==> r.error == Unrouted(ids[f.hop])
      ensures r.Ok? ==> Synced(p, ids, request, g) && g == Digest(p, f, r.value) && g.job == f.job
      ensures r.Ok? ==>
        if f.hop + 1 < Size(p)
        then g.hop == f.hop + 1 && g.produced == f.produced && r.value == Activation(g.hdr, g.payload)
        else g.hop == 0 && r.value == Logit(request, PosOf(f), Logits(p.m, Text(f)))
    {
      hide Serve, OnTrack, HoldsOwn, Wired, Logits, Roomy;
      FlowFacts(p, request, f);
      var id := ids[at];
      ghost var before := AllRows();
      if id in conns {
        FrameFits(p, before[id], request, f);
        HopKeepsServing(p, ids, before, request, f);
      } else {
        SameElsewhere(before, request);
      }
      r := Send(id, frame);
      g := if r.Ok? then Digest(p, f, r.value) else f;
    }

    /** Some node of the ring cannot be reached over a connection, and `e` says so. */
    ghost predicate Blocked(ids: seq<NodeId>, e: Problem) {
      exists t :: 0 <= t < |ids| && ids[t] !in conns && e == Unrouted(ids[t])
    }

    ghost predicate Reachable(ids: seq<NodeId>) {
      forall t :: 0 <= t < |ids| ==> ids[t] in conns
    }

    /** A pass of `f` that has reached hop `h`: `g` is where it stands. */
    ghost predicate Carrying(p: Plan, ids: seq<NodeId>, request: nat, f: Flow, g: Flow, h: nat, hdr: Header,
                             payload: seq<Vec>)
      reads conns.Values, Slots()
    {
      && Synced(p, ids, request, g) && g.hop == h && g.job == f.job && g.produced == f.produced
      && g.hdr == hdr && g.payload == payload
      && forall t :: 0 <= t < h && t < |ids| ==> ids[t] in conns
    }

    /** One hop between head and tail. */
    method RelayOn(request: nat, ids: seq<NodeId>, h: nat, hdr0: Header, payload0: seq<Vec>, traffic: Traffic, c: nat,
                   ghost start: map<NodeId, Caches>, ghost p: Plan, ghost f: Flow, ghost g0: Flow)
        returns (bad: Option<Problem>, hdr: Header, payload: seq<Vec>, ghost g: Flow)
      requires !Finished(f) && 0 < h < |ids| - 1 && Carrying(p, ids, request, f, g0, h, hdr0, payload0)
      requires Shared(request, start, traffic, c)
      modifies conns.Values, Slots()
      ensures Shared(request, start, traffic, c + 1) && fresh(Slots() - old(Slots()))
      ensures bad.Some? ==> Blocked(ids, bad.value)
      ensures bad.None? ==> Carrying(p, ids, request, f, g, h + 1, hdr, payload)
    {
      hide OnTrack, Serving, Wired, Logits, Staffed, Shared, AllRows;
      hdr, payload := hdr0, payload0;
      var reply;
      reply, g := Contact(request, ids, h, Relay(hdr, payload), traffic, c, start, p, g0);
      if reply.Err? {
        return Some(reply.error), hdr, payload, g;
      }
      if !reply.value.Activation? {
        assert false;
        return Some(PeerFault), hdr, payload, g;
      }
      return None, reply.value.hdr, reply.value.payload, g;
    }

    /** The hops between head and tail. */
    method Middle(request: nat, ids: seq<NodeId>, hdr0: Header, payload0: seq<Vec>, traffic: Traffic, c: nat,
                  ghost start: map<NodeId, Caches>, ghost p: Plan, ghost f: Flow, ghost g0: Flow)
        returns (bad: Option<Problem>, hdr: Header, payload: seq<Vec>, till: nat, ghost g: Flow)
      requires !Finished(f) && |ids| >= 2 && Carrying(p, ids, request, f, g0, 1, hdr0, payload0)
      requires Shared(request, start, traffic, c)
      modifies conns.Values, Slots()
      ensures Shared(request, start, traffic, till) && fresh(Slots() - old(Slots()))
      ensures bad.Some? ==> Blocked(ids, bad.value)
      ensures bad.None? ==> Carrying(p, ids, request, f, g, |ids| - 1, hdr, payload)
    {
      hide Carrying, Shared, AllRows, Blocked, Finished;
      hdr, payload, till, g := hdr0, payload0, c, g0;
      for h := 1 to |ids| - 1
        invariant Carrying(p, ids, request, f, g, h, hdr, payload)
        invariant Shared(request, start, traffic, till) && fresh(Slots() - old(Slots()))
      {
        bad, hdr, payload, g := RelayOn(request, ids, h, hdr, payload, traffic, till, start, p, f, g);
        till := till + 1;
        if bad.Some? {
          return;
        }
      }
      bad := None;
    }

    lemma CarryingWired(p: Plan, ids: seq<NodeId>, request: nat, f: Flow, g: Flow, h: nat, hdr: Header,
                        payload: seq<Vec>)
      requires Carrying(p, ids, request, f, g, h, hdr, payload)
      ensures Wired() && |ids| == Size(p) >= 2
    {
      hide Wired, Serving, OnTrack, Staffed;
    }

    method Head(request: nat, ids: seq<NodeId>, tokens: seq<nat>, pos: nat, traffic: Traffic, c: nat,
                ghost start: map<NodeId, Caches>, ghost p: Plan, ghost f: Flow)
        returns (bad: Option<Problem>, hdr: Header, payload: seq<Vec>, ghost g: Flow)
      requires Synced(p, ids, request, f) && !Finished(f) && f.hop == 0 && tokens == Feed(f) && pos == PosOf(f)
      requires Shared(request, start, traffic, c)
      modifies conns.Values, Slots()
      ensures Shared(request, start, traffic, c + 1) && fresh(Slots() - old(Slots()))
      ensures bad.Some? ==> Blocked(ids, bad.value)
      ensures bad.None? ==> Carrying(p, ids, request, f, g, 1, hdr, payload)
    {
      hide OnTrack, Serving, Wired, Logits, Staffed, Shared;
      hdr, payload := Header(0, 0, 0, false), [];
      var reply;
      reply, g := Contact(request, ids, 0, Embed(request, pos, tokens), traffic, c, start, p, f);
      if reply.Err? {
        return Some(reply.error), hdr, payload, g;
      }
      if !reply.value.Activation? {
        assert false;
        return Some(PeerFault), hdr, payload, g;
      }
      return None, reply.value.hdr, reply.value.payload, g;
    }

    method Tail(request: nat, ids: seq<NodeId>, hdr: Header, payload: seq<Vec>, traffic: Traffic, c: nat,
                ghost start: map<NodeId, Caches>, ghost p: Plan, ghost f: Flow, ghost g0: Flow)
        returns (r: Result<Vec, Problem>, ghost g: Flow)
      requires !Finished(f) && f.job.prompt != [] && ids != []
      requires Carrying(p, ids, request, f, g0, |ids| - 1, hdr, payload) && Shared(request, start, traffic, c)
      modifies conns.Values, Slots()
      ensures Shared(request, start, traffic, c + 1) && fresh(Slots() - old(Slots()))
      ensures r.Err? ==> Blocked(ids, r.error)
      ensures r.Ok? ==> Reachable(ids)
      ensures r.Ok? ==> r.value == Logits(p.m, Text(f)) && Synced(p, ids, request, g) && g.hop == 0 && g.job == f.job
      ensures r.Ok? ==> g.produced == f.produced + [f.job.sample(r.value, f.job.temperature)]
    {
      hide OnTrack, Serving, Wired, Logits, Staffed, Shared;
      var reply;
      reply, g := Contact(request, ids, |ids| - 1, Relay(hdr.(terminal := true), payload), traffic, c, start, p, g0);
      if reply.Err? {
        return Err(reply.error), g;
      }
      if !reply.value.Logit? {
        assert false;
        return Err(PeerFault), g;
      }
      return Ok(reply.value.logits), g;
    }

    /** The hops after the head. */
    method Onward(request: nat, ids: seq<NodeId>, hdr0: Header, payload0: seq<Vec>, traffic: Traffic, c: nat,
                  ghost start: map<NodeId, Caches>, ghost p: Plan, ghost f: Flow, ghost g0: Flow)
        returns (r: Result<Vec, Problem>, till: nat, ghost g: Flow)
      requires !Finished(f) && f.job.prompt != [] && |ids| >= 2 && Carrying(p, ids, request, f, g0, 1, hdr0, payload0)
      requires Shared(request, start, traffic, c)
      modifies conns.Values, Slots()
      ensures Shared(request, start, traffic, till) && fresh(Slots() - old(Slots()))
      ensures r.Err? ==> Blocked(ids, r.error)
      ensures r.Ok? ==> Reachable(ids)
      ensures r.Ok? ==> r.value == Logits(p.m, Text(f)) && Synced(p, ids, request, g) && g.hop == 0 && g.job == f.job
      ensures r.Ok? ==> g.produced == f.produced + [f.job.sample(r.value, f.job.temperature)]
    {
      hide Carrying, Shared, Logits, Synced, Blocked, Reachable, AllRows, Text, Finished;
      var bad, hdr, payload;
      bad, hdr, payload, till, g := Middle(request, ids, hdr0, payload0, traffic, c, start, p, f, g0);
      if bad.Some? {
        return Err(bad.value), till, g;
      }
      r, g := Tail(request, ids, hdr, payload, traffic, till, start, p, f, g);
      till := till + 1;
    }

    /** Head, middle hops, tail: the logits of the last position. */
    method ForwardPass(request: nat, ids: seq<NodeId>, tokens: seq<nat>, pos: nat, traffic: Traffic, c: nat,
                       ghost start: map<NodeId, Caches>, ghost p: Plan, ghost f: Flow)
        returns (r: Result<Vec, Problem>, till: nat, ghost g: Flow)
      requires f.job.prompt != []
      requires Synced(p, ids, request, f) && !Finished(f) && f.hop == 0 && tokens == Feed(f) && pos == PosOf(f)
      requires Shared(request, start, traffic, c)
      modifies conns.Values, Slots()
      ensures Shared(request, start, traffic, till) && fresh(Slots() - old(Slots()))
      ensures r.Err? ==> Blocked(ids, r.error)
      ensures r.Ok? ==> Reachable(ids)
      ensures r.Ok? ==> r.value == Logits(p.m, Text(f)) && Synced(p, ids, request, g) && g.hop == 0 && g.job == f.job
      ensures r.Ok? ==> g.produced == f.produced + [f.job.sample(r.value, f.job.temperature)]
    {
      hide Carrying, Shared, Logits, Synced, Blocked, Reachable, AllRows, Text, Finished, Feed, PosOf;
      var bad, hdr, payload;
      bad, hdr, payload, g := Head(request, ids, tokens, pos, traffic, c, start, p, f);
      till := c + 1;
      if bad.Some? {
        return Err(bad.value), till, g;
      }
      CarryingWired(p, ids, request, f, g, 1, hdr, payload);
      r, till, g := Onward(request, ids, hdr, payload, traffic, till, start, p, f, g);
    }

    /** A manifest from either constructor over contiguous cuts, served by peers that loaded its ranges, and a request
        id none of them has seen. */
    ghost predicate Deployed(p: Plan, ids: seq<NodeId>, request: nat)
      reads conns.Values
    {
      && Chains(links, ids, p.cuts) && (|ids| >= 2 ==> Covering(p))
      && (NoDup(ids) ==> Staffed(p, ids))
      && forall id :: id in conns ==> request !in conns[id].rows
    }

    lemma StartsSynced(p: Plan, ids: seq<NodeId>, request: nat, job: Job)
      requires Wired() && Deployed(p, ids, request) && NoDup(ids) && |ids| >= 2 && Admissible(p, job)
      ensures Synced(p, ids, request, Opened(job))
    {
      hide Wired, HoldsOwn, OnTrack, Admissible;
      AdmittedPrompt(p, job);
      OpensOnTrack(p, request, job);
      forall t | 0 <= t < Size(p) && ids[t] in conns
        ensures HoldsOwn(p, AllRows()[ids[t]], request, Opened(job), t)
      {
        OpensHolding(p, AllRows()[ids[t]], request, job, t);
      }
    }

    /** The nodes of the plan, when the manifest has one. */
    method PlanIds(ghost p: Plan, ghost ids0: seq<NodeId>) returns (ids: Option<seq<NodeId>>)
      requires Chains(links, ids0, p.cuts)
      ensures ids == if ids0 != [] && NoDup(ids0) then Some(ids0) else None
    {
      hide IsRing, Chains;
      ChainRingExactly(links, ids0, p.cuts);
      var plan := ForwardPlan(links, localId);
      if plan == None {
        return None;
      }
      ghost var order :| IsRing(links, order) && PlanFor(order, localId, plan.value);
      RingUnique(links, order, ids0);
      var steps := plan.value;
      ids := Some(seq(|steps|, t requires 0 <= t < |steps| => steps[t].nodeId));
      assert ids.value == ids0;
    }

    method TokenLoop(request: nat, ids: seq<NodeId>, job: Job, wanted: seq<nat> -> bool, traffic: Traffic,
                     ghost start: map<NodeId, Caches>, ghost p: Plan)
        returns (r: Result<seq<nat>, Problem>, sent: nat)
      requires job.prompt != [] && Synced(p, ids, request, Opened(job)) && Admissible(p, job)
      requires Shared(request, start, traffic, 0)
      modifies conns.Values, Slots()
      ensures Shared(request, start, traffic, sent) && fresh(Slots() - old(Slots()))
      ensures r.Ok? ==>
        var n := |r.value|;
        && n >= 1 && r.value == Gen(job, n) && Reachable(ids)
        && (job.maxTokens == 0 ==> n == 1)
        && (job.maxTokens >= 1 ==> n <= job.maxTokens)
        && (n < job.maxTokens ==> !wanted(r.value))
        && forall k :: 1 <= k < n ==> wanted(r.value[..k])
      ensures r.Err? ==> Blocked(ids, r.error)
    {
      hide Synced, Shared, Logits, AllRows, Reachable, Blocked, Finished, Text, Feed, PosOf, Admissible, Gen;
      var logits;
      ghost var f := Opened(job);
      AdmittedPrompt(p, job);
      NextPass(job, [], f);
      logits, sent, f := ForwardPass(request, ids, job.prompt, 0, traffic, 0, start, p, f);
      if logits.Err? {
        return Err(logits.error), sent;
      }
      var last := job.sample(logits.value, job.temperature);
      var out := [last];
      FirstToken(p, job, logits.value);
      while wanted(out) && |out| < job.maxTokens
        invariant 1 <= |out| <= Quota(job) && out == Gen(job, |out|) && last == out[|out| - 1]
        invariant Asked(wanted, out)
        invariant Synced(p, ids, request, f) && f.hop == 0 && f.job == job && f.produced == out
        invariant Reachable(ids)
        invariant Shared(request, start, traffic, sent) && fresh(Slots() - old(Slots()))
        decreases job.maxTokens - |out|
      {
        hide Asked;
        var pos := |job.prompt| + |out| - 1;
        NextPass(job, out, f);
        logits, sent, f := ForwardPass(request, ids, [last], pos, traffic, sent, start, p, f);
        if logits.Err? {
          NeverBlocked(ids, logits.error);
          assert false;
          return Err(PeerFault), sent;
        }
        last := job.sample(logits.value, job.temperature);
        NextTokenOut(p, job, out, logits.value);
        LongerAsked(wanted, out, last);
        out := out + [last];
      }
      return Ok(out), sent;
    }

    /** The consumer wanted more after every token but the last. */
    ghost predicate Asked(wanted: seq<nat> -> bool, out: seq<nat>) {
      forall k :: 1 <= k < |out| ==> wanted(out[..k])
    }

    /** What the pass after the tokens `out` feeds. */
    lemma NextPass(job: Job, out: seq<nat>, f: Flow)
      requires job.prompt != [] && f.job == job && f.produced == out && (out == [] || |out| < job.maxTokens)
      ensures !Finished(f) && Text(f) == job.prompt + out
      ensures Feed(f) == if out == [] then job.prompt else [out[|out| - 1]]
      ensures PosOf(f) == if out == [] then 0 else |job.prompt| + |out| - 1
    {
    }

    lemma NeverBlocked(ids: seq<NodeId>, e: Problem)
      requires Reachable(ids)
      ensures !Blocked(ids, e)
    {
    }

    lemma LongerAsked(wanted: seq<nat> -> bool, out: seq<nat>, last: nat)
      requires Asked(wanted, out) && wanted(out)
      ensures Asked(wanted, out + [last])
    {
      var longer := out + [last];
      forall k | 1 <= k < |longer|
        ensures wanted(longer[..k])
      {
        assert longer[..k] == if k < |out| then out[..k] else out;
      }
    }

    lemma FirstToken(p: Plan, job: Job, logits: Vec)
      requires job.prompt != [] && job.m == p.m && logits == Logits(p.m, Text(Opened(job)))
      ensures [job.sample(logits, job.temperature)] == Gen(job, 1)
    {
      hide Logits;
      assert Gen(job, 0) == [];
      assert Gen(job, 1) == Gen(job, 0) + [NextToken(job, 0)];
    }

    lemma NextTokenOut(p: Plan, job: Job, out: seq<nat>, logits: Vec)
      requires job.prompt != [] && job.m == p.m && out == Gen(job, |out|) && logits == Logits(p.m, job.prompt + out)
      ensures out + [job.sample(logits, job.temperature)] == Gen(job, |out| + 1)
    {
      hide Logits;
    }

    /** One request from plan to last token, whatever frames of other requests the peers handle between its own. With
        every node but this one connected, it refuses manifests without a ring, single-node rings and rings through a
        node it cannot reach over a connection; otherwise its tokens are those of one node generating alone. In every
        case the other requests' caches end up as their own frames alone would have left them. */
    method Drive(request: nat, job: Job, wanted: seq<nat> -> bool, traffic: Traffic, ghost p: Plan,
                 ghost ids0: seq<NodeId>)
        returns (r: Result<seq<nat>, Problem>, sent: nat)
      requires Wired() && Deployed(p, ids0, request) && Admissible(p, job)
      modifies conns.Values, Slots()
      ensures Shared(request, old(AllRows()), traffic, sent) && fresh(Slots() - old(Slots()))
      ensures
        var missing := Missing(links, localId, conns.Keys);
        if missing != [] then r == Err(MissingPeers(missing))
        else if ids0 == [] || !NoDup(ids0) then r == Err(Malformed)
        else if |ids0| < 2 then r == Err(SingleNode)
        else if localId in ids0 && localId !in conns then r == Err(LocalHop(localId))
        else
          && r.Ok? && |r.value| >= 1 && r.value == Gen(job, |r.value|)
          && (job.maxTokens == 0 ==> |r.value| == 1)
          && (job.maxTokens >= 1 ==> |r.value| <= job.maxTokens)
          && (|r.value| < job.maxTokens ==> !wanted(r.value))
          && forall k :: 1 <= k < |r.value| ==> wanted(r.value[..k])
    {
      hide Synced, Shared, Wired, Admissible, IsRing, Staffed, NoDup, Chains, Covering;
      ghost var start := AllRows();
      SharedAtStart(request, traffic);
      var missing := Missing(links, localId, conns.Keys);
      if missing != [] {
        return Err(MissingPeers(missing)), 0;
      }
      var ids := PlanIds(p, ids0);
      if ids == None {
        return Err(Malformed), 0;
      }
      if |ids.value| < 2 {
        return Err(SingleNode), 0;
      }
      StartsSynced(p, ids0, request, job);
      RoutesWhole(ids0, p.cuts);
      AdmittedPrompt(p, job);
      r, sent := TokenLoop(request, ids.value, job, wanted, traffic, start, p);
    }

    lemma AdmittedPrompt(p: Plan, job: Job)
      requires Admissible(p, job)
      ensures job.prompt != [] && job.m == p.m
    {
    }

    /** No peer is missing exactly when every node of the pipeline can be routed to; then the hops without a connection
        are this node's own. */
    lemma RoutesWhole(ids: seq<NodeId>, cuts: seq<nat>)
      requires Chains(links, ids, cuts)
      ensures Missing(links, localId, conns.Keys) == [] <==> forall t :: 0 <= t < |ids| ==> RouteTo(ids[t]).Some?
      ensures Missing(links, localId, conns.Keys) == [] ==>
        forall t :: 0 <= t < |ids| && ConnFor(ids[t]).Err? ==>
          ids[t] == localId && ConnFor(ids[t]).error == LocalHop(localId)
    {
      var missing := Missing(links, localId, conns.Keys);
      forall t | 0 <= t < |ids|
        ensures ids[t] in missing <==> RouteTo(ids[t]).None?
      {
        assert links[t] in links && links[t].nodeId == ids[t];
      }
      if missing != [] {
        assert missing[0] in missing;
        var a :| a in links && a.nodeId == missing[0];
        var t :| 0 <= t < |links| && links[t] == a;
        assert RouteTo(ids[t]).None?;
      }
    }

    /** The peers' caches are those of a net of flows. */
    ghost predicate Pictures(p: Plan, ids: seq<NodeId>, net: Net, rows: map<NodeId, Caches>) {
      && |net.peers| == |ids| == Size(p) && NoDup(ids)
      && forall t :: 0 <= t < |ids| ==> ids[t] in rows && rows[ids[t]] == net.peers[t]
    }

    /** A frame sent for any flow of a net, this coordinator's or another's, is one step of that net. */
    lemma SendIsStep(p: Plan, ids: seq<NodeId>, net: Net, rows: map<NodeId, Caches>, id: nat)
      requires Cluster.Running(p, net) && Pictures(p, ids, net, rows)
      requires id in net.flows && !net.flows[id].broken && !Finished(net.flows[id])
      ensures var f := net.flows[id];
              var served := Serve(p.m, StageAt(p, f.hop), rows[ids[f.hop]], NextFrame(p, id, f));
              var after := Cluster.Step(p, net, Hop(id));
              && after.flows == net.flows[id := Digest(p, f, served.reply)]
              && Pictures(p, ids, after, rows[ids[f.hop] := served.caches])
    {
      hide Serve;
    }

    /** So is one delivery of traffic that carries another flow's next frame. */
    lemma HearingIsStep(p: Plan, ids: seq<NodeId>, net: Net, rows: map<NodeId, Caches>, request: nat, other: nat)
      requires Covering(p) && InStep(p, net) && Pictures(p, ids, net, rows) && rows.Keys == conns.Keys
      requires Staffed(p, ids) && other != request && other in net.flows && !Finished(net.flows[other])
      ensures var f := net.flows[other];
              var d := Delivery(ids[f.hop], NextFrame(p, other, f));
              Pictures(p, ids, Cluster.Step(p, net, Hop(other)), HearOne(rows, request, d))
    {
      hide Serve, OnTrack, HoldsOwn, Peers.Roomy;
      var f := net.flows[other];
      assert OnTrack(p, other, f) && HoldsOwn(p, net.peers[f.hop], other, f, f.hop);
      FlowFacts(p, other, f);
      FrameFits(p, net.peers[f.hop], other, f);
      SendIsStep(p, ids, net, rows, other);
    }

    /** The deliveries that hops of the flows `others` make, one after the other; a finished flow sends nothing. */
    ghost function FramesOf(p: Plan, ids: seq<NodeId>, net: Net, others: seq<nat>): seq<Delivery>
      requires Covering(p) && InStep(p, net) && |ids| == Size(p)
    {
      if others == [] then []
      else
        var (n, id) := (|others| - 1, others[|others| - 1]);
        var before := NetAfter(p, net, others[..n]);
        FramesOf(p, ids, net, others[..n])
        + if id in before.flows && !Finished(before.flows[id])
          then [Delivery(ids[before.flows[id].hop], NextFrame(p, id, before.flows[id]))]
          else []
    }

    /** One more hop of another flow, and the delivery it makes. */
    lemma HearingNext(p: Plan, ids: seq<NodeId>, net: Net, rows: map<NodeId, Caches>, request: nat, others: seq<nat>)
      requires Covering(p) && InStep(p, net) && |ids| == Size(p) && others != [] && others[|others| - 1] != request
      requires Staffed(p, ids) && rows.Keys == conns.Keys
      requires var front := others[..|others| - 1];
               Pictures(p, ids, NetAfter(p, net, front), HearAll(rows, request, FramesOf(p, ids, net, front)))
      ensures Pictures(p, ids, NetAfter(p, net, others), HearAll(rows, request, FramesOf(p, ids, net, others)))
    {
      hide HearOne, HearAll, OnTrack, HoldsOwn, Staffed, Pictures, Cluster.Step, NextFrame;
      var (n, id) := (|others| - 1, others[|others| - 1]);
      var (before, sent) := (NetAfter(p, net, others[..n]), FramesOf(p, ids, net, others[..n]));
      if id in before.flows && !Finished(before.flows[id]) {
        var d := Delivery(ids[before.flows[id].hop], NextFrame(p, id, before.flows[id]));
        HearingIsStep(p, ids, before, HearAll(rows, request, sent), request, id);
        HearingSplits(rows, request, sent, [d]);
        HearingOne(HearAll(rows, request, sent), request, d);
      } else {
        OthersStand(p, before, id, request);
        assert sent + [] == sent;
      }
    }

    /** Traffic that consists of the other flows' frames is a run of the net: whatever the other flows send between two
        frames of this request, in any order, the peers' caches are those of a longer run of `Cluster`. */
    lemma {:induction false} HearingIsRun(p: Plan, ids: seq<NodeId>, net: Net, rows: map<NodeId, Caches>, request: nat,
                                          others: seq<nat>)
      requires Covering(p) && InStep(p, net) && Pictures(p, ids, net, rows) && rows.Keys == conns.Keys
      requires Staffed(p, ids) && request !in others
      ensures Pictures(p, ids, NetAfter(p, net, others), HearAll(rows, request, FramesOf(p, ids, net, others)))
      decreases |others|
    {
      if others != [] {
        hide HearAll, FramesOf, InStep, Staffed, Pictures, NetAfter;
        HearingIsRun(p, ids, net, rows, request, others[..|others| - 1]);
        PicturesSize(p, ids, net, rows);
        HearingNext(p, ids, net, rows, request, others);
      }
    }

    lemma PicturesSize(p: Plan, ids: seq<NodeId>, net: Net, rows: map<NodeId, Caches>)
      requires Pictures(p, ids, net, rows)
      ensures |ids| == Size(p)
    {
    }

    /** ... in which this request's own flow stands still. */
    lemma {:induction false} OwnFlowWaits(p: Plan, net: Net, request: nat, others: seq<nat>)
      requires Covering(p) && InStep(p, net) && request !in others && request in net.flows
      ensures var after := NetAfter(p, net, others);
              request in after.flows && after.flows[request] == net.flows[request]
      decreases |others|
    {
      if others != [] {
        hide InStep, Cluster.Step;
        var n := |others| - 1;
        OwnFlowWaits(p, net, request, others[..n]);
        OthersStand(p, NetAfter(p, net, others[..n]), others[n], request);
      }
    }

    lemma HearingOne(rows: map<NodeId, Caches>, request: nat, d: Delivery)
      ensures HearAll(rows, request, [d]) == HearOne(rows, request, d)
    {
      hide HearOne;
      assert [d][..0] == [];
    }

    lemma OthersStand(p: Plan, net: Net, id: nat, request: nat)
      requires InStep(p, net) && id != request
      ensures var after := Cluster.Step(p, net, Hop(id));
              && (request in net.flows ==> request in after.flows && after.flows[request] == net.flows[request])
              && (id !in net.flows || Finished(net.flows[id]) ==> after == net)
    {
      hide Serve;
    }
  }
}
