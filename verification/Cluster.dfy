/**
 The leaderless forward pass as a state machine: any number of requests in flight, each driven by its own coordinator
 one hop at a time, in any interleaving.

 A `Flow` is a running `drive`: what it has sampled and where its current pass stands. `Hop` delivers one frame to one
 peer and the reply back. `InStep` is what holds between any two hops; from it the tokens of every request are the
 single-node tokens, and every peer's slots are as long as the position of the next frame it will get.
 */
module Cluster {
  import opened Basics
  import opened Causal
  import opened Runtime
  import opened Generation
  import opened Peers

  /** The model cut over the ring: peer `t` holds layers `cuts[t]..cuts[t + 1]`. */
  datatype Plan = Plan(m: Model, cuts: seq<nat>, maxSeq: nat)

  function Size(p: Plan): nat {
    if |p.cuts| == 0 then 0 else |p.cuts| - 1
  }

  /** A contiguous cover of the layers by at least two nodes. */
  ghost predicate Covering(p: Plan) {
    && |p.cuts| >= 3 && p.cuts[0] == 0 && p.cuts[Size(p)] == p.m.nLayers
    && forall t :: 0 <= t < Size(p) ==> p.cuts[t] <= p.cuts[t + 1]
  }

  function StageAt(p: Plan, t: nat): Stage
    requires t < Size(p)
  {
    Stage(p.cuts[t], p.cuts[t + 1], t == 0, t + 1 == Size(p))
  }

  /** One request: its job, the tokens sampled so far, and the pass in progress: the next peer to contact and the
      header and payload last received. */
  datatype Flow = Flow(job: Job, produced: seq<nat>, hop: nat, hdr: Header, payload: seq<Vec>, broken: bool)

  /** The tokens fed to the pass in progress. */
  function Feed(f: Flow): seq<nat> {
    if f.produced == [] then f.job.prompt else [f.produced[|f.produced| - 1]]
  }

  /** The position they start at: 0, then the prompt length plus the tokens produced, less one. */
  function PosOf(f: Flow): nat
    requires f.job.prompt != []
  {
    if f.produced == [] then 0 else |f.job.prompt| + |f.produced| - 1
  }

  /** `drive` samples once after the prompt and then `max_tokens - 1` times. */
  function Quota(job: Job): nat {
    if job.maxTokens == 0 then 1 else job.maxTokens
  }

  predicate Finished(f: Flow) {
    |f.produced| >= Quota(f.job)
  }

  function NextFrame(p: Plan, id: nat, f: Flow): Frame
    requires f.job.prompt != []
  {
    if f.hop == 0 then Embed(id, PosOf(f), Feed(f))
    else Relay(if f.hop + 1 == Size(p) then f.hdr.(terminal := true) else f.hdr, f.payload)
  }

  /** What the coordinator does with the reply of the peer it contacted. */
  function Digest(p: Plan, f: Flow, reply: Reply): Flow {
    match reply
    case Activation(hdr, payload) =>
      if f.hop + 1 < Size(p) then f.(hop := f.hop + 1, hdr := hdr, payload := payload) else f.(broken := true)
    case Logit(_, _, logits) =>
      if f.hop + 1 == Size(p)
      then f.(produced := f.produced + [f.job.sample(logits, f.job.temperature)], hop := 0, payload := [])
      else f.(broken := true)
    case _ => f.(broken := true)
  }

  datatype Net = Net(peers: seq<Caches>, flows: map<nat, Flow>)

  datatype Event = Open(id: nat, job: Job) | Hop(id: nat)

  function Opened(job: Job): Flow {
    Flow(job, [], 0, Header(0, 0, 0, false), [], false)
  }

  /** Requests a coordinator accepts: a prompt, and room in every slot for all tokens fed over the whole request. */
  ghost predicate Admissible(p: Plan, job: Job) {
    job.m == p.m && job.prompt != [] && |job.prompt| + Quota(job) - 1 <= p.maxSeq
  }

  ghost predicate Running(p: Plan, net: Net) {
    && |net.peers| == Size(p)
    && forall id :: id in net.flows ==> net.flows[id].job.prompt != [] && net.flows[id].hop < Size(p)
  }

  /** One event. A new request gets an unused id; hops of finished, broken or unknown requests do not happen. */
  ghost function Step(p: Plan, net: Net, e: Event): Net
    requires Running(p, net)
  {
    match e
    case Open(id, job) =>
      if id in net.flows || !Admissible(p, job) || Size(p) == 0 then net
      else net.(flows := net.flows[id := Opened(job)])
    case Hop(id) =>
      if id !in net.flows || net.flows[id].broken || Finished(net.flows[id]) then net
      else
        var f := net.flows[id];
        var served := Serve(p.m, StageAt(p, f.hop), net.peers[f.hop], NextFrame(p, id, f));
        Net(net.peers[f.hop := served.caches], net.flows[id := Digest(p, f, served.reply)])
  }

  ghost function Run(p: Plan, events: seq<Event>): (net: Net)
    requires Covering(p)
    ensures InStep(p, net)
  {
    if events == [] then Net(seq(Size(p), _ => map[]), map[])
    else
      var before := Run(p, events[..|events| - 1]);
      StepKeepsInStep(p, before, events[|events| - 1]);
      Step(p, before, events[|events| - 1])
  }

  // ---------------------------------------------------------------- what holds between hops

  /** All tokens of a request so far. */
  function Text(f: Flow): seq<nat> {
    f.job.prompt + f.produced
  }

  /** Positions of the request that peer `t` has cached: this pass's too if it has been there. */
  function Cached(f: Flow, t: nat): nat
    requires f.job.prompt != []
  {
    if t < f.hop then |Text(f)| else PosOf(f)
  }

  /** The request's slots at a peer hold the causal rows of its own tokens. */
  ghost predicate HoldsOwn(p: Plan, caches: Caches, id: nat, f: Flow, t: nat)
    requires t < Size(p) && f.job.prompt != []
  {
    var c := Entry(StageAt(p, t), caches, id);
    |c| == StageAt(p, t).hi - StageAt(p, t).lo && Caught(p.m, Text(f), p.cuts[t], c, Cached(f, t))
  }

  /** The pass in progress carries the causal activations of the layer it has reached. */
  ghost predicate InPass(p: Plan, id: nat, f: Flow)
    requires f.job.prompt != [] && f.hop < Size(p)
  {
    f.hop > 0 ==>
      && f.hdr == Header(id, PosOf(f), |Feed(f)|, false)
      && f.payload == Acts(p.m, Text(f), p.cuts[f.hop], PosOf(f), |Text(f)|)
  }

  ghost predicate OnTrack(p: Plan, id: nat, f: Flow) {
    && Admissible(p, f.job) && f.hop < Size(p) && !f.broken
    && |f.produced| <= Quota(f.job) && f.produced == Gen(f.job, |f.produced|)
    && (Finished(f) ==> f.hop == 0)
    && InPass(p, id, f)
  }

  ghost predicate InStep(p: Plan, net: Net) {
    && Running(p, net)
    && (forall id :: id in net.flows ==> OnTrack(p, id, net.flows[id]))
    && (forall id, t :: id in net.flows && 0 <= t < Size(p) ==> HoldsOwn(p, net.peers[t], id, net.flows[id], t))
    && (forall id, t :: 0 <= t < Size(p) && id in net.peers[t] ==> id in net.flows)
  }

  /** One peer's part of a pass. */
  lemma StageRuns(p: Plan, caches: Caches, id: nat, f: Flow, t: nat, xs: seq<Vec>)
    requires Covering(p) && t < Size(p) && f.job.prompt != [] && t >= f.hop
    requires HoldsOwn(p, caches, id, f, t)
    requires xs == Acts(p.m, Text(f), p.cuts[t], PosOf(f), |Text(f)|)
    ensures Output(p.m, StageAt(p, t), caches, id, xs, PosOf(f))
         == Acts(p.m, Text(f), p.cuts[t + 1], PosOf(f), |Text(f)|)
    ensures var after := Grown(p.m, StageAt(p, t), caches, id, xs, PosOf(f));
            && id in after && |after[id]| == p.cuts[t + 1] - p.cuts[t]
            && Caught(p.m, Text(f), p.cuts[t], after[id], |Text(f)|)
  {
    hide Acts, Rows, RunOut, RunCache, Positions;
    var c := Entry(StageAt(p, t), caches, id);
    assert p.cuts[t] <= p.cuts[t + 1];
    StackIsCausal(p.m, Text(f), p.cuts[t], |c|, PosOf(f), |Text(f)|, c);
  }

  lemma FeedIsSuffix(f: Flow)
    requires f.job.prompt != []
    ensures PosOf(f) < |Text(f)| && Feed(f) == Text(f)[PosOf(f)..] && |Feed(f)| == |Text(f)| - PosOf(f)
  {
  }

  /** What the contacted peer receives, computes, keeps and replies. */
  lemma HopServes(p: Plan, caches: Caches, id: nat, f: Flow)
    requires Covering(p) && OnTrack(p, id, f) && HoldsOwn(p, caches, id, f, f.hop)
    ensures var served := Serve(p.m, StageAt(p, f.hop), caches, NextFrame(p, id, f));
            var (m, pos, end) := (p.m, PosOf(f), |Text(f)|);
            && id in served.caches && |served.caches[id]| == p.cuts[f.hop + 1] - p.cuts[f.hop]
            && Caught(m, Text(f), p.cuts[f.hop], served.caches[id], end)
            && served.reply ==
               if f.hop + 1 < Size(p)
               then Activation(Header(id, pos, |Feed(f)|, false), Acts(m, Text(f), p.cuts[f.hop + 1], pos, end))
               else Logit(id, pos, Logits(m, Text(f)))
  {
    hide Acts, Caught, Output, Grown, HoldsOwn, Gen, Embedded;
    FeedIsSuffix(f);
    if f.hop == 0 {
      EmbeddedIsAct(p.m, Text(f), PosOf(f), |Text(f)|);
      assert Text(f)[PosOf(f)..|Text(f)|] == Feed(f);
      StageRuns(p, caches, id, f, 0, Embedded(p.m, Feed(f)));
    } else {
      StageRuns(p, caches, id, f, f.hop, f.payload);
      if f.hop + 1 == Size(p) {
        LastAct(p.m, Text(f), PosOf(f));
      }
    }
  }

  lemma LastAct(m: Model, toks: seq<nat>, start: nat)
    requires start < |toks|
    ensures var ys := Acts(m, toks, m.nLayers, start, |toks|);
            m.head(ys[|ys| - 1]) == Logits(m, toks)
  {
    hide Act;
  }

  lemma CaughtLonger(m: Model, a: seq<nat>, b: seq<nat>, lo: nat, caches: seq<seq<Row>>, len: nat)
    requires Caught(m, a, lo, caches, len) && a <= b
    ensures Caught(m, b, lo, caches, len)
  {
    hide Rows;
    forall t | 0 <= t < |caches|
      ensures caches[t] == Rows(m, b, lo + t, len)
    {
      assert a[..len] == b[..len];
      RowsCausal(m, a, b, lo + t, len);
    }
  }

  lemma NothingCached(m: Model, toks: seq<nat>, lo: nat, n: nat)
    ensures Caught(m, toks, lo, EmptyCaches(n), 0)
  {
  }

  /** A hop within a pass: the payload moves one peer on. */
  lemma MovesOn(p: Plan, id: nat, f: Flow)
    requires Covering(p) && OnTrack(p, id, f) && !Finished(f) && f.hop + 1 < Size(p)
    ensures var hdr := Header(id, PosOf(f), |Feed(f)|, false);
            var payload := Acts(p.m, Text(f), p.cuts[f.hop + 1], PosOf(f), |Text(f)|);
            OnTrack(p, id, Digest(p, f, Activation(hdr, payload)))
  {
    hide Acts, Gen;
    FeedIsSuffix(f);
  }

  /** The last hop of a pass: one more token, and it is the single-node one. */
  lemma Samples(p: Plan, id: nat, f: Flow)
    requires Covering(p) && OnTrack(p, id, f) && !Finished(f) && f.hop + 1 == Size(p)
    ensures var g := Digest(p, f, Logit(id, PosOf(f), Logits(p.m, Text(f))));
            OnTrack(p, id, g) && Text(f) <= Text(g) && PosOf(g) == |Text(f)| && g.hop == 0
  {
    hide Acts, Logits;
    var n := |f.produced|;
    assert Gen(f.job, n + 1) == Gen(f.job, n) + [NextToken(f.job, n)];
  }

  /** What the peers hold for a request after its hop. */
  lemma HeldAfterHop(p: Plan, caches: Caches, after: Caches, id: nat, f: Flow, g: Flow, t: nat)
    requires Covering(p) && OnTrack(p, id, f) && t < Size(p) && HoldsOwn(p, caches, id, f, t)
    requires g.job == f.job && Text(f) <= Text(g)
    requires if f.hop + 1 < Size(p) then g.hop == f.hop + 1 && g.produced == f.produced
             else g.hop == 0 && PosOf(g) == |Text(f)|
    requires if t != f.hop then after == caches
             else id in after && |after[id]| == p.cuts[t + 1] - p.cuts[t]
                  && Caught(p.m, Text(f), p.cuts[t], after[id], |Text(f)|)
    ensures HoldsOwn(p, after, id, g, t)
  {
    hide Caught, Gen, InPass;
    var c := Entry(StageAt(p, t), after, id);
    assert Caught(p.m, Text(f), p.cuts[t], c, Cached(g, t));
    CaughtLonger(p.m, Text(f), Text(g), p.cuts[t], c, Cached(g, t));
  }

  lemma OthersHold(p: Plan, caches: Caches, frame: Frame, id: nat, f: Flow, t: nat)
    requires t < Size(p) && f.job.prompt != [] && HoldsOwn(p, caches, id, f, t) && id != FrameRequest(frame)
    ensures HoldsOwn(p, Serve(p.m, StageAt(p, t), caches, frame).caches, id, f, t)
  {
    hide Serve, Caught;
    ServeIsolated(p.m, StageAt(p, t), caches, frame, id);
  }

  lemma OpenKeepsInStep(p: Plan, net: Net, id: nat, job: Job)
    requires Covering(p) && InStep(p, net)
    ensures InStep(p, Step(p, net, Open(id, job)))
  {
    hide OnTrack, HoldsOwn;
    if id !in net.flows && Admissible(p, job) {
      var f := Opened(job);
      assert OnTrack(p, id, f) by {
        OpensOnTrack(p, id, job);
      }
      forall t | 0 <= t < Size(p)
        ensures HoldsOwn(p, net.peers[t], id, f, t)
      {
        OpensHolding(p, net.peers[t], id, job, t);
      }
    }
  }

  lemma OpensOnTrack(p: Plan, id: nat, job: Job)
    requires Covering(p) && Admissible(p, job)
    ensures OnTrack(p, id, Opened(job))
  {
  }

  lemma OpensHolding(p: Plan, caches: Caches, id: nat, job: Job, t: nat)
    requires Covering(p) && Admissible(p, job) && t < Size(p) && id !in caches
    ensures HoldsOwn(p, caches, id, Opened(job), t)
  {
    hide Caught;
    var st := StageAt(p, t);
    assert st.lo <= st.hi;
    NothingCached(p.m, Text(Opened(job)), st.lo, st.hi - st.lo);
  }

  lemma HopKeepsInStep(p: Plan, net: Net, id: nat)
    requires Covering(p) && InStep(p, net) && id in net.flows && !Finished(net.flows[id])
    ensures InStep(p, Step(p, net, Hop(id)))
    ensures var (f, g) := (net.flows[id], Step(p, net, Hop(id)).flows[id]);
            && g.job == f.job
            && (if f.hop + 1 < Size(p) then g.hop == f.hop + 1 && g.produced == f.produced
                else g.hop == 0 && |g.produced| == |f.produced| + 1)
  {
    hide OnTrack, HoldsOwn, Serve, Acts, Caught, Gen, Logits;
    var f := net.flows[id];
    var served := Serve(p.m, StageAt(p, f.hop), net.peers[f.hop], NextFrame(p, id, f));
    var g := Digest(p, f, served.reply);
    var after := net.peers[f.hop := served.caches];
    FlowFacts(p, id, f);
    HopServes(p, net.peers[f.hop], id, f);
    if f.hop + 1 < Size(p) {
      MovesOn(p, id, f);
    } else {
      Samples(p, id, f);
    }
    forall t | 0 <= t < Size(p)
      ensures HoldsOwn(p, after[t], id, g, t)
    {
      HeldAfterHop(p, net.peers[t], after[t], id, f, g, t);
    }
    forall other, t | other in net.flows && other != id && 0 <= t < Size(p)
      ensures HoldsOwn(p, after[t], other, net.flows[other], t)
    {
      OthersHold(p, net.peers[t], NextFrame(p, id, f), other, net.flows[other], t);
    }
    forall other, t | 0 <= t < Size(p) && other in after[t]
      ensures other in net.flows
    {
      ServeIsolated(p.m, StageAt(p, t), net.peers[t], NextFrame(p, id, f), if other == id then id + 1 else other);
    }
    assert Step(p, net, Hop(id)) == Net(after, net.flows[id := g]);
  }

  lemma FlowFacts(p: Plan, id: nat, f: Flow)
    requires OnTrack(p, id, f)
    ensures f.job.prompt != [] && f.hop < Size(p) && !f.broken
    ensures f.hop > 0 ==> f.hdr.request == id
  {
  }

  lemma StepKeepsInStep(p: Plan, net: Net, e: Event)
    requires Covering(p) && InStep(p, net)
    ensures InStep(p, Step(p, net, e))
  {
    hide InStep;
    match e {
      case Open(id, job) => OpenKeepsInStep(p, net, id, job);
      case Hop(id) =>
        if id in net.flows && !net.flows[id].broken && !Finished(net.flows[id]) {
          HopKeepsInStep(p, net, id);
        }
    }
  }

  /** The net after hops of the flows `ids`, in that order. */
  ghost function NetAfter(p: Plan, net: Net, ids: seq<nat>): (after: Net)
    requires Covering(p) && InStep(p, net)
    ensures InStep(p, after)
  {
    if ids == [] then net
    else
      var before := NetAfter(p, net, ids[..|ids| - 1]);
      StepKeepsInStep(p, before, Hop(ids[|ids| - 1]));
      Step(p, before, Hop(ids[|ids| - 1]))
  }

  function Hops(ids: seq<nat>): (events: seq<Event>)
    ensures |events| == |ids|
  {
    seq(|ids|, i requires 0 <= i < |ids| => Hop(ids[i]))
  }

  /** Hops after a run are a longer run. */
  lemma {:induction false} HopsContinueRun(p: Plan, events: seq<Event>, ids: seq<nat>)
    requires Covering(p)
    ensures NetAfter(p, Run(p, events), ids) == Run(p, events + Hops(ids))
    decreases |ids|
  {
    hide Step, InStep;
    if ids == [] {
      assert events + Hops(ids) == events;
    } else {
      var front, longer := ids[..|ids| - 1], events + Hops(ids);
      HopsContinueRun(p, events, front);
      assert longer[..|longer| - 1] == events + Hops(front);
    }
  }

  // ---------------------------------------------------------------- theorems

  /** Distributed equals local: in every interleaving, what a request has received so far is what one node generating
      alone would have sampled, and what it receives in all is exactly that node's `max(1, max_tokens)` tokens. */
  lemma TokensAreLocal(p: Plan, events: seq<Event>, id: nat)
    requires Covering(p) && id in Run(p, events).flows
    ensures var f := Run(p, events).flows[id];
            && !f.broken && f.produced == Gen(f.job, |f.produced|)
            && |f.produced| <= (if f.job.maxTokens == 0 then 1 else f.job.maxTokens)
            && (Finished(f) ==> f.produced == Gen(f.job, if f.job.maxTokens == 0 then 1 else f.job.maxTokens))
  {
    hide Run, Gen;
    assert OnTrack(p, id, Run(p, events).flows[id]);
  }

  function FramePos(frame: Frame): nat
    requires !frame.End?
  {
    match frame
    case Embed(_, pos, _) => pos
    case Relay(hdr, _) => hdr.seqPos
  }

  /** Every slot a peer keeps for a request is as long as the position of the next frame it gets for it, and has room
      for that frame: later frames of the pass if the pass has yet to reach it, else the pass after this one. */
  lemma SlotsMatchNextFrame(p: Plan, events: seq<Event>, id: nat, t: nat)
    requires Covering(p) && id in Run(p, events).flows && t < Size(p)
    ensures var (net, f) := (Run(p, events), Run(p, events).flows[id]);
            var c := Entry(StageAt(p, t), net.peers[t], id);
            && (forall s :: 0 <= s < |c| ==> |c[s]| == if t < f.hop then |f.job.prompt| + |f.produced| else PosOf(f))
            && FramePos(NextFrame(p, id, f)) == PosOf(f)
            && (!Finished(f) && t == f.hop ==> Roomy(StageAt(p, t), net.peers[t], NextFrame(p, id, f), p.maxSeq))
  {
    hide Run, Gen, Acts, Rows;
    var net, f := Run(p, events), Run(p, events).flows[id];
    assert OnTrack(p, id, f) && HoldsOwn(p, net.peers[t], id, f, t);
    if !Finished(f) && t == f.hop {
      FrameFits(p, net.peers[t], id, f);
    }
  }

  /** The next frame fits the slots of the peer that gets it. */
  lemma FrameFits(p: Plan, caches: Caches, id: nat, f: Flow)
    requires Covering(p) && OnTrack(p, id, f) && !Finished(f) && HoldsOwn(p, caches, id, f, f.hop)
    ensures Roomy(StageAt(p, f.hop), caches, NextFrame(p, id, f), p.maxSeq)
    ensures !NextFrame(p, id, f).End? && FramePos(NextFrame(p, id, f)) == PosOf(f)
  {
    hide Gen, Acts, Rows;
    FeedIsSuffix(f);
  }

  /** Hops of a request after it was opened. */
  ghost function HopsOf(p: Plan, events: seq<Event>, id: nat): nat
    requires Covering(p)
  {
    if events == [] then 0
    else
      var n := |events| - 1;
      HopsOf(p, events[..n], id) + if events[n] == Hop(id) && id in Run(p, events[..n]).flows then 1 else 0
  }

  ghost function Work(p: Plan, f: Flow): nat {
    |f.produced| * Size(p) + f.hop
  }

  /** Progress: each hop counts. A request that was given `h` hops has finished exactly when `h` is at least one per
      peer and token, whatever else ran in between. */
  lemma HopsMakeProgress(p: Plan, events: seq<Event>, id: nat)
    requires Covering(p) && id in Run(p, events).flows
    ensures var f := Run(p, events).flows[id];
            var (h, n) := (HopsOf(p, events, id), |p.cuts| - 1);
            var full := (if f.job.maxTokens == 0 then 1 else f.job.maxTokens) * n;
            && |f.produced| * n + f.hop == (if h < full then h else full)
            && (Finished(f) <==> h >= full)
  {
    hide Run, HopsOf;
    HopsCount(p, events, id);
  }

  lemma {:induction false} HopsCount(p: Plan, events: seq<Event>, id: nat)
    requires Covering(p) && id in Run(p, events).flows
    ensures var f := Run(p, events).flows[id];
            var (h, full) := (HopsOf(p, events, id), Quota(f.job) * Size(p));
            && Work(p, f) == (if h < full then h else full)
            && (Finished(f) <==> h >= full)
    decreases |events|
  {
    hide Gen, OnTrack, HoldsOwn, Serve;
    var n := |events| - 1;
    var net := Run(p, events[..n]);
    var f := Run(p, events).flows[id];
    assert OnTrack(p, id, f);
    if id in net.flows {
      HopsCount(p, events[..n], id);
      var e := net.flows[id];
      assert OnTrack(p, id, e);
      FlowFacts(p, id, e);
      if events[n] == Hop(id) && !Finished(e) {
        HopKeepsInStep(p, net, id);
        WorkGrows(p, e, f);
      } else {
        assert f == e;
      }
    } else {
      NoHopsYet(p, events[..n], id);
      assert f == Opened(f.job);
    }
    WorkBounded(p, id, f);
  }

  lemma WorkGrows(p: Plan, e: Flow, f: Flow)
    requires Covering(p) && e.job == f.job
    requires if e.hop + 1 < Size(p) then f.hop == e.hop + 1 && f.produced == e.produced
             else e.hop + 1 == Size(p) && f.hop == 0 && |f.produced| == |e.produced| + 1
    ensures Work(p, f) == Work(p, e) + 1
  {
    assert (|e.produced| + 1) * Size(p) == |e.produced| * Size(p) + Size(p);
  }

  /** The work is full exactly when the request has finished. */
  lemma WorkBounded(p: Plan, id: nat, f: Flow)
    requires Covering(p) && OnTrack(p, id, f)
    ensures Work(p, f) <= Quota(f.job) * Size(p)
    ensures Finished(f) <==> Work(p, f) == Quota(f.job) * Size(p)
  {
    hide Gen, InPass;
    var (k, q, n) := (|f.produced|, Quota(f.job), Size(p));
    if k < q {
      assert (k + 1) * n <= q * n by {
        MulMonotone(k + 1, q, n);
      }
      assert (k + 1) * n == k * n + n;
    }
  }

  lemma {:induction false} NoHopsYet(p: Plan, events: seq<Event>, id: nat)
    requires Covering(p) && id !in Run(p, events).flows
    ensures HopsOf(p, events, id) == 0
    decreases |events|
  {
    if events != [] {
      hide Run, InStep;
      if id in Run(p, events[..|events| - 1]).flows {
        FlowsStay(p, events, id);
      }
      NoHopsYet(p, events[..|events| - 1], id);
    }
  }

  lemma {:induction false} FlowsStay(p: Plan, events: seq<Event>, id: nat)
    requires Covering(p) && events != [] && id in Run(p, events[..|events| - 1]).flows
    ensures id in Run(p, events).flows
  {
    hide Serve, Digest, NextFrame, OnTrack, HoldsOwn;
  }

  /** The slots of a single node hold the causal rows of the first `pos` tokens. */
  ghost predicate Warm(m: Model, text: seq<nat>, slots: seq<KvCacheSlot>, pos: nat, maxSeq: nat)
    reads slots
  {
    && |slots| == m.nLayers && Ready(slots, 0) && Shelf(slots, Held(slots), maxSeq)
    && Caught(m, text, 0, Held(slots), pos)
  }

  lemma WarmLonger(m: Model, a: seq<nat>, b: seq<nat>, slots: seq<KvCacheSlot>, pos: nat, maxSeq: nat)
    requires Warm(m, a, slots, pos, maxSeq) && a <= b
    ensures Warm(m, b, slots, pos, maxSeq)
  {
    CaughtLonger(m, a, b, 0, Held(slots), pos);
  }

  /** One cached pass over the rest of the text. */
  method LocalPass(m: Model, feed: seq<nat>, pos: nat, slots: seq<KvCacheSlot>, ghost text: seq<nat>,
                   ghost maxSeq: nat) returns (logits: Vec)
    requires pos < |text| <= maxSeq && feed == text[pos..] && Warm(m, text, slots, pos, maxSeq)
    modifies slots
    ensures logits == Logits(m, text) && Warm(m, text, slots, |text|, maxSeq)
  {
    hide Forward, Logits;
    CaughtReady(m, text, Held(slots), slots, pos, |feed|, maxSeq);
    assert text[pos..|text|] == feed;
    ForwardIsCausal(m, text, pos, |text|, Held(slots));
    LastAct(m, text, pos);
    var all := ForwardWithCaches(m, feed, pos, slots);
    return all[|all| - 1];
  }

  /** The single-node reference: one stack of caches, the prompt at once, then one token at a time. */
  method LocalGenerate(job: Job, maxSeq: nat, zero: Vec) returns (out: seq<nat>)
    requires Admissible(Plan(job.m, [], maxSeq), job)
    ensures out == Gen(job, if job.maxTokens == 0 then 1 else job.maxTokens)
  {
    hide Logits, Warm, Shelf;
    var slots := MakeCaches(job.m.nLayers, maxSeq, zero);
    ColdStart(job.m, job.prompt, slots, maxSeq);
    var feed := job.prompt;
    var pos: nat := 0;
    out := [];
    while |out| < Quota(job)
      invariant |out| <= Quota(job) && out == Gen(job, |out|)
      invariant pos < |job.prompt + out| && feed == (job.prompt + out)[pos..] && fresh(slots)
      invariant Warm(job.m, job.prompt + out, slots, pos, maxSeq)
    {
      ghost var text := job.prompt + out;
      var logits := LocalPass(job.m, feed, pos, slots, text, maxSeq);
      var last := job.sample(logits, job.temperature);
      WarmLonger(job.m, text, job.prompt + (out + [last]), slots, |text|, maxSeq);
      pos := |job.prompt| + |out|;
      out := out + [last];
      feed := [last];
    }
  }

  lemma ColdStart(m: Model, text: seq<nat>, slots: seq<KvCacheSlot>, maxSeq: nat)
    requires Shelf(slots, EmptyCaches(m.nLayers), maxSeq)
    ensures Warm(m, text, slots, 0, maxSeq)
  {
    NothingCached(m, text, 0, m.nLayers);
  }

  lemma CaughtReady(m: Model, text: seq<nat>, held: seq<seq<Row>>, slots: seq<KvCacheSlot>, pos: nat, n: nat,
                    maxSeq: nat)
    requires Shelf(slots, held, maxSeq) && Caught(m, text, 0, held, pos) && pos + n <= maxSeq
    ensures Ready(slots, n)
  {
    hide Rows;
    forall t | 0 <= t < |slots|
      ensures slots[t].Valid() && slots[t].currentLen + n <= slots[t].maxSeq
    {
      assert held[t] == slots[t].Contents();
    }
  }
}
