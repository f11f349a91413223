/**
 A peer of the leaderless cluster: it holds a range of layers and, for every request, its own cache slots for them.
 `Serve` says what one frame does to any peer; `Peer.Handle` is the dispatch of the serve loop.

 The wire codec is left out: a frame is what `decode` yields, a payload is the list of activation rows it carries.
 */
module Peers {
  import opened Causal
  import opened Runtime

  /** What a manifest assignment gives a peer to load. */
  datatype Stage = Stage(lo: nat, hi: nat, embeds: bool, outputs: bool)

  /** `ActivationHeader`; `seqLen` is the one dimension of its shape that varies. */
  datatype Header = Header(request: nat, seqPos: nat, seqLen: nat, terminal: bool)

  datatype Frame =
    | Embed(request: nat, seqPos: nat, tokens: seq<nat>)
    | Relay(hdr: Header, payload: seq<Vec>)
    | End(request: nat)

  /** `Failed` is an error that ends the serve loop; `Silent` is a frame without a reply. */
  datatype Reply =
    | Activation(hdr: Header, payload: seq<Vec>)
    | Logit(request: nat, seqPos: nat, logits: Vec)
    | Failed
    | Silent

  type Caches = map<nat, seq<seq<Row>>>

  /** `caches.entry(request_id).or_insert_with(make_caches)`. */
  function Entry(st: Stage, caches: Caches, id: nat): seq<seq<Row>> {
    if id in caches then caches[id] else EmptyCaches(if st.lo <= st.hi then st.hi - st.lo else 0)
  }

  /** The stack is run on `xs` and its caches for the request grow. */
  function Grown(m: Model, st: Stage, caches: Caches, id: nat, xs: seq<Vec>, start: nat): Caches {
    caches[id := RunCaches(m, st.lo, xs, Positions(start, |xs|), Entry(st, caches, id))]
  }

  function Output(m: Model, st: Stage, caches: Caches, id: nat, xs: seq<Vec>, start: nat): (ys: seq<Vec>)
    ensures |ys| == |xs|
  {
    var c := Entry(st, caches, id);
    RunOut(m, st.lo, |c|, xs, Positions(start, |xs|), c)
  }

  datatype Served = Served(reply: Reply, caches: Caches)

  function ServeEmbed(m: Model, st: Stage, caches: Caches, id: nat, start: nat, tokens: seq<nat>): Served {
    if !st.embeds then Served(Failed, caches)
    else
      var xs := Embedded(m, tokens);
      Served(Activation(Header(id, start, |xs|, false), Output(m, st, caches, id, xs, start)),
             Grown(m, st, caches, id, xs, start))
  }

  function ServeRelay(m: Model, st: Stage, caches: Caches, hdr: Header, xs: seq<Vec>): Served {
    if hdr.seqLen != |xs| then Served(Failed, caches)
    else
      var ys := Output(m, st, caches, hdr.request, xs, hdr.seqPos);
      var after := Grown(m, st, caches, hdr.request, xs, hdr.seqPos);
      if !hdr.terminal then Served(Activation(hdr.(seqLen := |ys|), ys), after)
      else if !st.outputs || ys == [] then Served(Failed, after)
      else Served(Logit(hdr.request, hdr.seqPos, m.head(ys[|ys| - 1])), after)
  }

  function Serve(m: Model, st: Stage, caches: Caches, frame: Frame): Served {
    match frame
    case Embed(id, start, tokens) => ServeEmbed(m, st, caches, id, start, tokens)
    case Relay(hdr, payload) => ServeRelay(m, st, caches, hdr, payload)
    case End(id) => Served(Silent, caches - {id})
  }

  function FrameRequest(frame: Frame): nat {
    match frame
    case Embed(id, _, _) => id
    case Relay(hdr, _) => hdr.request
    case End(id) => id
  }

  function FrameLength(frame: Frame): nat {
    match frame
    case Embed(_, _, tokens) => |tokens|
    case Relay(_, payload) => |payload|
    case End(_) => 0
  }

  /** The request's slots have room for the frame; the source aborts when they do not. */
  ghost predicate Roomy(st: Stage, caches: Caches, frame: Frame, maxSeq: nat) {
    var c := Entry(st, caches, FrameRequest(frame));
    forall t :: 0 <= t < |c| ==> |c[t]| + FrameLength(frame) <= maxSeq
  }

  /** A frame touches the caches of its own request and no other. */
  lemma ServeIsolated(m: Model, st: Stage, caches: Caches, frame: Frame, id: nat)
    requires id != FrameRequest(frame)
    ensures var after := Serve(m, st, caches, frame).caches;
            (id in after <==> id in caches) && (id in caches ==> after[id] == caches[id])
  {
    hide RunCaches, Output;
  }

  /** A peer fails a frame exactly when it is a prompt at a stage without the embedding, an activation of another length
      than its header says, or a terminal one that is empty or at a stage without the output; the first two leave its
      caches alone, the third has already grown them. */
  lemma FailsExactly(m: Model, st: Stage, caches: Caches, frame: Frame)
    ensures var served := Serve(m, st, caches, frame);
            match frame
            case Embed(_, _, _) =>
              (served.reply == Failed <==> !st.embeds) && (!st.embeds ==> served.caches == caches)
            case Relay(hdr, payload) =>
              && (served.reply == Failed <==>
                  hdr.seqLen != |payload| || (hdr.terminal && (!st.outputs || payload == [])))
              && (served.caches == caches || hdr.seqLen == |payload|)
              && (hdr.seqLen == |payload| ==>
                  served.caches == Grown(m, st, caches, hdr.request, payload, hdr.seqPos))
            case End(id) => served == Served(Silent, caches - {id})
  {
    hide Output, Grown;
  }

  /** Two peers' caches agree on one request. */
  ghost predicate Agree(a: Caches, b: Caches, id: nat) {
    (id in a <==> id in b) && (id in a ==> a[id] == b[id])
  }

  /** What a frame does depends on the caches of its own request alone. */
  lemma ServeReadsOwn(m: Model, st: Stage, a: Caches, b: Caches, frame: Frame, maxSeq: nat)
    requires Agree(a, b, FrameRequest(frame))
    ensures Roomy(st, a, frame, maxSeq) <==> Roomy(st, b, frame, maxSeq)
    ensures Serve(m, st, a, frame).reply == Serve(m, st, b, frame).reply
    ensures Agree(Serve(m, st, a, frame).caches, Serve(m, st, b, frame).caches, FrameRequest(frame))
  {
    hide RunCaches, Output, Embedded;
    OutputReadsOwn(m, st, a, b, FrameRequest(frame));
  }

  lemma OutputReadsOwn(m: Model, st: Stage, a: Caches, b: Caches, id: nat)
    requires Agree(a, b, id)
    ensures Entry(st, a, id) == Entry(st, b, id)
    ensures forall xs, start :: Output(m, st, a, id, xs, start) == Output(m, st, b, id, xs, start)
  {
    hide RunOut, Positions;
  }

  ghost predicate Apart(a: seq<KvCacheSlot>, b: seq<KvCacheSlot>) {
    forall s, t :: 0 <= s < |a| && 0 <= t < |b| ==> a[s] != b[t]
  }

  ghost predicate Owns(repr: set<KvCacheSlot>, slots: seq<KvCacheSlot>) {
    forall t :: 0 <= t < |slots| ==> slots[t] in repr
  }

  /** A request's slots, holding `rows`. */
  ghost predicate Shelf(slots: seq<KvCacheSlot>, rows: seq<seq<Row>>, maxSeq: nat)
    reads slots
  {
    && |slots| == |rows| && Distinct(slots) && Ready(slots, 0) && Held(slots) == rows
    && forall t :: 0 <= t < |slots| ==> slots[t].maxSeq == maxSeq
  }

  method MakeCaches(n: nat, maxSeq: nat, zero: Vec) returns (slots: seq<KvCacheSlot>)
    ensures fresh(slots) && Shelf(slots, EmptyCaches(n), maxSeq)
  {
    slots := [];
    for t := 0 to n
      invariant fresh(slots) && |slots| == t && Distinct(slots)
      invariant forall s :: 0 <= s < t ==>
        slots[s].Valid() && slots[s].Contents() == [] && slots[s].maxSeq == maxSeq
    {
      var slot := new KvCacheSlot(maxSeq, zero);
      slots := slots + [slot];
    }
    assert Held(slots) == EmptyCaches(n);
  }

  /** The block loop on one request's slots. */
  method RunShelf(m: Model, st: Stage, xs: seq<Vec>, start: nat, slots: seq<KvCacheSlot>, ghost rows: seq<seq<Row>>,
                  maxSeq: nat) returns (ys: seq<Vec>)
    requires Shelf(slots, rows, maxSeq) && forall t :: 0 <= t < |rows| ==> |rows[t]| + |xs| <= maxSeq
    modifies slots
    ensures ys == RunOut(m, st.lo, |rows|, xs, Positions(start, |xs|), rows)
    ensures Shelf(slots, RunCaches(m, st.lo, xs, Positions(start, |xs|), rows), maxSeq)
  {
    hide RunOut, RunCaches;
    assert Ready(slots, |xs|) by {
      forall t | 0 <= t < |slots|
        ensures slots[t].Valid() && slots[t].currentLen + |xs| <= slots[t].maxSeq
      {
        assert rows[t] == slots[t].Contents();
      }
    }
    ys := RunStack(m, st.lo, xs, Positions(start, |xs|), slots);
  }

  /** ... which leaves every other request's slots as they were. */
  method RunBeside(m: Model, st: Stage, xs: seq<Vec>, start: nat, slots: seq<KvCacheSlot>, ghost rows: seq<seq<Row>>,
                   maxSeq: nat, ghost others: map<nat, seq<KvCacheSlot>>, ghost held: Caches) returns (ys: seq<Vec>)
    requires Shelf(slots, rows, maxSeq) && forall t :: 0 <= t < |rows| ==> |rows[t]| + |xs| <= maxSeq
    requires forall id :: id in others ==> id in held && Shelf(others[id], held[id], maxSeq) && Apart(others[id], slots)
    modifies slots
    ensures ys == RunOut(m, st.lo, |rows|, xs, Positions(start, |xs|), rows)
    ensures Shelf(slots, RunCaches(m, st.lo, xs, Positions(start, |xs|), rows), maxSeq)
    ensures forall id :: id in others ==> Shelf(others[id], held[id], maxSeq)
  {
    hide RunOut, RunCaches, Shelf, Apart;
    ys := RunShelf(m, st, xs, start, slots, rows, maxSeq);
    forall id | id in others
      ensures Shelf(others[id], held[id], maxSeq)
    {
      ApartSets(others[id], slots);
      assert old(Shelf(others[id], held[id], maxSeq));
      assert forall t :: 0 <= t < |others[id]| ==> others[id][t] !in slots;
      assert forall t :: 0 <= t < |others[id]| ==> unchanged(others[id][t]);
      assert Shelf(others[id], held[id], maxSeq);
    }
  }

  lemma ApartSets(a: seq<KvCacheSlot>, b: seq<KvCacheSlot>)
    requires Apart(a, b)
    ensures forall o :: o in a ==> o !in b
  {
  }

  class Peer {
    const m: Model
    const st: Stage
    const maxSeq: nat
    const zero: Vec
    var caches: map<nat, seq<KvCacheSlot>>
    ghost var rows: Caches            // what the slots hold
    ghost var repr: set<KvCacheSlot>

    ghost predicate Valid()
      reads this, repr
    {
      && caches.Keys == rows.Keys
      && (forall id :: id in caches ==> Sound(id))
      && (forall a, b :: a in caches && b in caches && a != b ==> Apart(caches[a], caches[b]))
    }

    ghost predicate Sound(id: nat)
      requires id in caches && id in rows
      reads this, repr
    {
      Owns(repr, caches[id]) && Shelf(caches[id], rows[id], maxSeq)
    }

    constructor (m: Model, st: Stage, maxSeq: nat, zero: Vec)
      ensures Valid() && rows == map[] && repr == {}
      ensures this.m == m && this.st == st && this.maxSeq == maxSeq
    {
      this.m := m;
      this.st := st;
      this.maxSeq := maxSeq;
      this.zero := zero;
      caches := map[];
      rows := map[];
      repr := {};
    }

    method OrInsert(id: nat) returns (c: seq<KvCacheSlot>)
      requires Valid()
      modifies this
      ensures Valid() && id in caches && c == caches[id]
      ensures rows == old(rows)[id := Entry(st, old(rows), id)]
      ensures fresh(repr - old(repr))
    {
      hide Shelf;
      if id in caches {
        assert rows == rows[id := Entry(st, rows, id)];
        return caches[id];
      }
      c := MakeCaches(if st.lo <= st.hi then st.hi - st.lo else 0, maxSeq, zero);
      Insert(id, c);
    }

    /** File new slots under a new request. */
    method Insert(id: nat, c: seq<KvCacheSlot>)
      requires Valid() && id !in caches && Shelf(c, Entry(st, rows, id), maxSeq)
      requires forall t :: 0 <= t < |c| ==> c[t] !in repr
      modifies this
      ensures Valid() && caches == old(caches)[id := c]
      ensures rows == old(rows)[id := Entry(st, old(rows), id)]
      ensures repr == old(repr) + set o | o in c
    {
      hide Shelf;
      rows := rows[id := Entry(st, rows, id)];
      repr := repr + set o | o in c;
      caches := caches[id := c];
      forall other | other in caches
        ensures Sound(other)
      {
        if other != id {
          assert old(Sound(other));
        }
      }
    }

    method RunFiled(id: nat, xs: seq<Vec>, start: nat) returns (ys: seq<Vec>)
      requires Valid() && id in caches
      requires forall t :: 0 <= t < |rows[id]| ==> |rows[id][t]| + |xs| <= maxSeq
      modifies this`rows, caches[id]
      ensures Valid()
      ensures ys == RunOut(m, st.lo, |old(rows[id])|, xs, Positions(start, |xs|), old(rows[id]))
      ensures rows == old(rows)[id := RunCaches(m, st.lo, xs, Positions(start, |xs|), old(rows[id]))]
    {
      hide Shelf, Apart, Owns, RunOut, RunCaches;
      assert Sound(id);
      ghost var others := caches - {id};
      forall other | other in others
        ensures Owns(repr, caches[other])
        ensures Shelf(others[other], rows[other], maxSeq) && Apart(others[other], caches[id])
      {
        assert Sound(other);
      }
      ys := RunBeside(m, st, xs, start, caches[id], rows[id], maxSeq, others, rows);
      rows := rows[id := RunCaches(m, st.lo, xs, Positions(start, |xs|), rows[id])];
      forall other | other in caches
        ensures Sound(other)
      {
        assert other != id ==> other in others;
      }
    }

    method Run(id: nat, xs: seq<Vec>, start: nat) returns (ys: seq<Vec>)
      requires Valid()
      requires var c := Entry(st, rows, id); forall t :: 0 <= t < |c| ==> |c[t]| + |xs| <= maxSeq
      modifies this, repr
      ensures Valid() && fresh(repr - old(repr))
      ensures ys == Output(m, st, old(rows), id, xs, start)
      ensures rows == Grown(m, st, old(rows), id, xs, start)
    {
      hide Shelf, Apart, RunOut, RunCaches;
      var c := OrInsert(id);
      assert Sound(id);
      ys := RunFiled(id, xs, start);
      assert rows == Grown(m, st, old(rows), id, xs, start);
    }

    /** The request's slots, or the empty ones it would get, have room for the frame. */
    predicate HasRoom(frame: Frame)
      requires Valid()
      reads this, repr
      ensures HasRoom(frame) <==> Roomy(st, rows, frame, maxSeq)
    {
      var (id, n) := (FrameRequest(frame), FrameLength(frame));
      if id in caches then
        assert Sound(id);
        forall t :: 0 <= t < |caches[id]| ==> caches[id][t].currentLen + n <= maxSeq
      else
        assert st.lo < st.hi ==> |Entry(st, rows, id)[0]| == 0;
        st.hi <= st.lo || n <= maxSeq
    }

    /** One turn of the serve loop. */
    method Handle(frame: Frame) returns (reply: Reply)
      requires Valid() && Roomy(st, rows, frame, maxSeq)
      modifies this, repr
      ensures Valid() && fresh(repr - old(repr))
      ensures Served(reply, rows) == Serve(m, st, old(rows), frame)
    {
      hide Output, RunCaches, Embedded, Shelf;
      match frame {
        case Embed(id, start, tokens) =>
          if !st.embeds {
            return Failed;
          }
          var x := Embedded(m, tokens);
          x := Run(id, x, start);
          reply := Activation(Header(id, start, |x|, false), x);
        case Relay(hdr, payload) =>
          if hdr.seqLen != |payload| {
            return Failed;
          }
          var x := Run(hdr.request, payload, hdr.seqPos);
          if hdr.terminal {
            if !st.outputs || |x| == 0 {
              return Failed;
            }
            reply := Logit(hdr.request, hdr.seqPos, m.head(x[|x| - 1]));
          } else {
            reply := Activation(hdr.(seqLen := |x|), x);
          }
        case End(id) =>
          caches := caches - {id};
          rows := rows - {id};
          forall other | other in caches
            ensures Sound(other)
          {
            assert old(Sound(other));
          }
          reply := Silent;
      }
    }
  }
}
