/**
 The continuous-batching scheduler as a state machine on values: one `Tick` is one turn of `run_loop`'s outer loop.

 The environment decides which requests have arrived when the queue is polled, and where, if anywhere, the device
 fails; the scheduler does the rest.
 */
module Scheduler {
  import opened Causal
  import opened Basics
  import opened BlockTables
  import opened Attention
  import opened Transformers

  datatype Request = Request(id: nat, prompt: seq<nat>, maxTokens: nat, temperature: real)

  /** A request together with what the device does during its prefill: fail inside the forward pass, or lose the
      logit row afterwards. `id` names the channel the request's messages go to. */
  datatype Arrival = Arrival(req: Request, fault: Fault, rowLost: bool)

  datatype Config = Config(maxNumSeqs: nat, maxSeq: nat, eos: nat, g: Geometry)

  datatype Failure =
    | PromptTooLong | ExhaustedAtAdmission | PrefillFailed | PrefillRowLost
    | ContextExceeded | CacheExhausted | ForwardFailed | RowLost

  datatype Msg = Token(id: nat) | Error(why: Failure)

  datatype Sent = Sent(to: nat, msg: Msg)

  /** `sample` is a function of the logits and the temperature because the seed is fixed. */
  datatype Env = Env(m: Model, sample: (Vec, real) -> nat, cfg: Config)

  /** A running sequence. */
  datatype Running = Running(req: Request, blocks: seq<nat>, next: nat, pos: nat, produced: nat)

  datatype State = State(free: seq<nat>, pools: seq<Pool>, running: seq<Running>, pending: seq<Arrival>,
                         sent: seq<Sent>)

  /** One turn's environment: requests that arrived before the queue was polled empty, and the device's behaviour in
      this turn's decode step. */
  datatype Turn = Turn(arrivals: seq<Arrival>, fault: Fault, lost: Option<nat>)

  ghost predicate IdsBelow(blocks: seq<nat>, nb: nat) {
    forall x :: x in blocks ==> x < nb
  }

  /** What the pool operations need to be in bounds. */
  ghost predicate Fits(env: Env, s: State) {
    && |s.pools| == env.m.nLayers && AllShaped(s.pools, env.cfg.g)
    && IdsBelow(s.free, env.cfg.g.nb)
    && (forall i :: 0 <= i < |s.running| ==> IdsBelow(s.running[i].blocks, env.cfg.g.nb))
    && (forall i :: 0 <= i < |s.pending| ==> s.pending[i].req.prompt != [])
  }

  function Post(sent: seq<Sent>, to: nat, msg: Msg): seq<Sent> {
    sent + [Sent(to, msg)]
  }

  // ---------------------------------------------------------------------------------------------------------------
  // Admission

  /** What one call of `prefill` leaves behind. */
  datatype Admission = Admission(free: seq<nat>, pools: seq<Pool>, sent: seq<Sent>, admitted: Option<Running>)

  /** `prefill`: admit one request, or tell it why not. */
  ghost function Prefilled(env: Env, free: seq<nat>, pools: seq<Pool>, sent: seq<Sent>, a: Arrival): (r: Admission)
    requires |pools| == env.m.nLayers && AllShaped(pools, env.cfg.g) && IdsBelow(free, env.cfg.g.nb)
    requires a.req.prompt != []
    ensures |r.pools| == env.m.nLayers && AllShaped(r.pools, env.cfg.g) && IdsBelow(r.free, env.cfg.g.nb)
    ensures r.admitted.Some? ==> IdsBelow(r.admitted.value.blocks, env.cfg.g.nb)
  {
    var req, g := a.req, env.cfg.g;
    if req.maxTokens == 0 then Admission(free, pools, sent, None)
    else if |req.prompt| > env.cfg.maxSeq then
      Admission(free, pools, Post(sent, req.id, Error(PromptTooLong)), None)
    else
      var grown := Grow(free, [], BlocksFor(|req.prompt|, g.bs));
      if !grown.ok then Admission(free, pools, Post(sent, req.id, Error(ExhaustedAtAdmission)), None)
      else
        GrowInRange(free, [], BlocksFor(|req.prompt|, g.bs), g.nb);
        Forwarded(env, grown.free, grown.blocks, pools, sent, a)
  }

  /** The part of `prefill` after the table `blocks` has been allocated. */
  ghost function Forwarded(env: Env, free: seq<nat>, blocks: seq<nat>, pools: seq<Pool>, sent: seq<Sent>, a: Arrival):
      (r: Admission)
    requires |pools| == env.m.nLayers && AllShaped(pools, env.cfg.g) && IdsBelow(free, env.cfg.g.nb)
    requires a.req.prompt != [] && Covers(blocks, env.cfg.g, |a.req.prompt|)
    ensures |r.pools| == env.m.nLayers && AllShaped(r.pools, env.cfg.g) && IdsBelow(r.free, env.cfg.g.nb)
    ensures r.admitted.Some? ==> IdsBelow(r.admitted.value.blocks, env.cfg.g.nb)
  {
    var req := a.req;
    var pools' := PrefillPools(env.m, env.cfg.g, blocks, req.prompt, pools, a.fault);
    if Strikes(a.fault, env.m.nLayers, |req.prompt|) then
      Admission(free + blocks, pools', Post(sent, req.id, Error(PrefillFailed)), None)
    else if a.rowLost then
      Admission(free + blocks, pools', Post(sent, req.id, Error(PrefillRowLost)), None)
    else
      var next := env.sample(Logits(env.m, req.prompt), req.temperature);
      Admission(free, pools', Post(sent, req.id, Token(next)), Some(Running(req, blocks, next, |req.prompt|, 1)))
  }

  /** `prefill` and the push of what it returns. */
  ghost function Prefill(env: Env, s: State, a: Arrival): (r: State)
    requires Fits(env, s) && a.req.prompt != []
    ensures Fits(env, r) && r.pending == s.pending
    ensures |s.running| <= |r.running| <= |s.running| + 1
  {
    var p := Prefilled(env, s.free, s.pools, s.sent, a);
    s.(free := p.free, pools := p.pools, sent := p.sent,
       running := if p.admitted.Some? then s.running + [p.admitted.value] else s.running)
  }

  lemma GrowInRange(free: seq<nat>, blocks: seq<nat>, need: nat, nb: nat)
    requires IdsBelow(free, nb) && IdsBelow(blocks, nb)
    ensures var g := Grow(free, blocks, need);
            IdsBelow(g.free, nb) && IdsBelow(g.blocks, nb) && (g.ok ==> need <= |g.blocks|)
  {
    var g := Grow(free, blocks, need);
    forall x | x in g.free
      ensures x in free
    {
    }
    forall x | x in g.blocks
      ensures x in free || x in blocks
    {
      if x !in blocks {
        assert x in Popped(free, need - |blocks|);
      }
    }
  }

  function PopPending(s: State): State
    requires s.pending != []
  {
    s.(pending := s.pending[1..])
  }

  lemma PopFits(env: Env, s: State)
    requires Fits(env, s) && s.pending != []
    ensures Fits(env, PopPending(s)) && s.pending[0].req.prompt != []
  {
  }

  /** The polling loop: admit while there is room and the queue is not empty. */
  ghost function Admit(env: Env, s: State): (r: State)
    requires Fits(env, s)
    ensures Fits(env, r)
    ensures |r.running| >= env.cfg.maxNumSeqs || r.pending == []
    ensures |r.running| <= |s.running| || |r.running| <= env.cfg.maxNumSeqs
    decreases |s.pending|
  {
    if |s.running| < env.cfg.maxNumSeqs && s.pending != [] then Admit(env, Prefill(env, PopPending(s), s.pending[0]))
    else s
  }

  // ---------------------------------------------------------------------------------------------------------------
  // Eviction

  datatype Sweep = Sweep(free: seq<nat>, kept: seq<Running>, sent: seq<Sent>)

  /** One sequence of the capacity sweep: grow its table by the next position, or evict it. */
  function EvictOne(cfg: Config, w: Sweep, r: Running): Sweep {
    if r.pos + 1 > cfg.maxSeq then
      Sweep(w.free + r.blocks, w.kept, Post(w.sent, r.req.id, Error(ContextExceeded)))
    else
      var grown := Grow(w.free, r.blocks, BlocksFor(r.pos + 1, cfg.g.bs));
      if !grown.ok then Sweep(w.free + r.blocks, w.kept, Post(w.sent, r.req.id, Error(CacheExhausted)))
      else Sweep(grown.free, w.kept + [r.(blocks := grown.blocks)], w.sent)
  }

  /** The sweep over the first `n` running sequences. */
  function EvictTo(cfg: Config, s: State, n: nat): Sweep
    requires n <= |s.running|
  {
    if n == 0 then Sweep(s.free, [], s.sent)
    else EvictOne(cfg, EvictTo(cfg, s, n - 1), s.running[n - 1])
  }

  function Evict(cfg: Config, s: State): State {
    var w := EvictTo(cfg, s, |s.running|);
    s.(free := w.free, running := w.kept, sent := w.sent)
  }

  /** Every survivor has a slot for its next position. */
  ghost predicate Roomy(cfg: Config, rs: seq<Running>) {
    forall i :: 0 <= i < |rs| ==> Covers(rs[i].blocks, cfg.g, rs[i].pos + 1)
  }

  lemma {:induction false} EvictToFits(env: Env, s: State, n: nat)
    requires Fits(env, s) && n <= |s.running|
    ensures var w := EvictTo(env.cfg, s, n);
            && IdsBelow(w.free, env.cfg.g.nb) && Roomy(env.cfg, w.kept) && |w.kept| <= n
            && forall i :: 0 <= i < |w.kept| ==> IdsBelow(w.kept[i].blocks, env.cfg.g.nb)
  {
    if n > 0 {
      hide IdsBelow, EvictOne, Covers;
      EvictToFits(env, s, n - 1);
      EvictOneFits(env.cfg, EvictTo(env.cfg, s, n - 1), s.running[n - 1]);
    }
  }

  lemma EvictOneFits(cfg: Config, w: Sweep, r: Running)
    requires IdsBelow(w.free, cfg.g.nb) && Roomy(cfg, w.kept) && IdsBelow(r.blocks, cfg.g.nb)
    requires forall i :: 0 <= i < |w.kept| ==> IdsBelow(w.kept[i].blocks, cfg.g.nb)
    ensures var w' := EvictOne(cfg, w, r);
            && IdsBelow(w'.free, cfg.g.nb) && Roomy(cfg, w'.kept) && |w'.kept| <= |w.kept| + 1
            && forall i :: 0 <= i < |w'.kept| ==> IdsBelow(w'.kept[i].blocks, cfg.g.nb)
  {
    hide Grow;
    GrowInRange(w.free, r.blocks, BlocksFor(r.pos + 1, cfg.g.bs), cfg.g.nb);
  }

  // ---------------------------------------------------------------------------------------------------------------
  // Decode and retire

  function Tables(rs: seq<Running>): (r: seq<seq<nat>>)
    ensures |r| == |rs|
  {
    seq(|rs|, i requires 0 <= i < |rs| => rs[i].blocks)
  }

  function Positions(rs: seq<Running>): (r: seq<nat>)
    ensures |r| == |rs|
  {
    seq(|rs|, i requires 0 <= i < |rs| => rs[i].pos)
  }

  function NextTokens(rs: seq<Running>): (r: seq<nat>)
    ensures |r| == |rs|
  {
    seq(|rs|, i requires 0 <= i < |rs| => rs[i].next)
  }

  function BatchOf(rs: seq<Running>): Batch {
    Batch(Tables(rs), NextTokens(rs), Positions(rs), Positions(rs))
  }

  /** One sequence after a decode step: emit the token unless it is EOS; leave on EOS or at the limit. */
  function RetireOne(env: Env, w: Sweep, r: Running, logits: Vec): Sweep {
    var next := env.sample(logits, r.req.temperature);
    var r' := r.(next := next, pos := r.pos + 1, produced := r.produced + 1);
    var sent := if next == env.cfg.eos then w.sent else Post(w.sent, r.req.id, Token(next));
    if next == env.cfg.eos || r'.produced >= r.req.maxTokens then Sweep(w.free + r.blocks, w.kept, sent)
    else Sweep(w.free, w.kept + [r'], sent)
  }

  function RetireTo(env: Env, s: State, logits: seq<Vec>, n: nat): Sweep
    requires n <= |s.running| == |logits|
  {
    if n == 0 then Sweep(s.free, [], s.sent)
    else RetireOne(env, RetireTo(env, s, logits, n - 1), s.running[n - 1], logits[n - 1])
  }

  /** A failed step ends every running sequence with the same error. */
  function AbortTo(s: State, why: Failure, n: nat): Sweep
    requires n <= |s.running|
  {
    if n == 0 then Sweep(s.free, [], s.sent)
    else
      var w, r := AbortTo(s, why, n - 1), s.running[n - 1];
      Sweep(w.free + r.blocks, [], Post(w.sent, r.req.id, Error(why)))
  }

  lemma {:induction false} AbortToEmpties(s: State, why: Failure, n: nat)
    requires n <= |s.running|
    ensures AbortTo(s, why, n).kept == []
  {
  }

  function Settle(s: State, w: Sweep): State {
    s.(free := w.free, running := w.kept, sent := w.sent)
  }

  ghost function Decode(env: Env, s: State, fault: Fault, lost: Option<nat>): (r: State)
    requires Fits(env, s) && Roomy(env.cfg, s.running)
    ensures r.pending == s.pending
  {
    var n := |s.running|;
    var b := BatchOf(s.running);
    var s' := s.(pools := DecodePools(env.m, env.cfg.g, b, s.pools, fault));
    if Strikes(fault, env.m.nLayers, n) then Settle(s', AbortTo(s', ForwardFailed, n))
    else if lost.Some? && lost.value < n then Settle(s', AbortTo(s', RowLost, n))
    else Settle(s', RetireTo(env, s', DecodeLogits(env.m, env.cfg.g, b, s.pools), n))
  }

  ghost predicate SweepFits(g: Geometry, w: Sweep) {
    IdsBelow(w.free, g.nb) && forall i :: 0 <= i < |w.kept| ==> IdsBelow(w.kept[i].blocks, g.nb)
  }

  lemma {:induction false} RetireToFits(env: Env, s: State, logits: seq<Vec>, n: nat)
    requires n <= |s.running| == |logits| && IdsBelow(s.free, env.cfg.g.nb)
    requires forall i :: 0 <= i < |s.running| ==> IdsBelow(s.running[i].blocks, env.cfg.g.nb)
    ensures SweepFits(env.cfg.g, RetireTo(env, s, logits, n))
    decreases n
  {
    if n > 0 {
      RetireToFits(env, s, logits, n - 1);
    }
  }

  lemma {:induction false} AbortToFits(g: Geometry, s: State, why: Failure, n: nat)
    requires n <= |s.running| && IdsBelow(s.free, g.nb)
    requires forall i :: 0 <= i < |s.running| ==> IdsBelow(s.running[i].blocks, g.nb)
    ensures SweepFits(g, AbortTo(s, why, n))
    decreases n
  {
    if n > 0 {
      AbortToFits(g, s, why, n - 1);
    }
  }

  lemma DecodeFits(env: Env, s: State, fault: Fault, lost: Option<nat>)
    requires Fits(env, s) && Roomy(env.cfg, s.running)
    ensures Fits(env, Decode(env, s, fault, lost))
  {
    hide DecodePools, DecodeLogits, IdsBelow;
    var n := |s.running|;
    var b := BatchOf(s.running);
    var s' := s.(pools := DecodePools(env.m, env.cfg.g, b, s.pools, fault));
    AbortToFits(env.cfg.g, s', ForwardFailed, n);
    AbortToFits(env.cfg.g, s', RowLost, n);
    RetireToFits(env, s', DecodeLogits(env.m, env.cfg.g, b, s.pools), n);
  }

  // ---------------------------------------------------------------------------------------------------------------
  // One turn

  ghost predicate TurnOk(t: Turn) {
    forall i :: 0 <= i < |t.arrivals| ==> t.arrivals[i].req.prompt != []
  }

  ghost function Arrive(env: Env, s: State, t: Turn): (r: State)
    requires Fits(env, s) && TurnOk(t)
    ensures Fits(env, r)
  {
    s.(pending := s.pending + t.arrivals)
  }

  ghost function Tick(env: Env, s: State, t: Turn): State
    requires Fits(env, s) && TurnOk(t)
  {
    var s1 := Admit(env, Arrive(env, s, t));
    if s1.running == [] then
      // blocking receive: with no request waiting the turn has nothing to do
      if s1.pending == [] then s1 else Prefill(env, PopPending(s1), s1.pending[0])
    else
      var s2 := Evict(env.cfg, s1);
      EvictToFits(env, s1, |s1.running|);
      if s2.running == [] then s2 else Decode(env, s2, t.fault, t.lost)
  }

  function Start(env: Env, zero: Vec): State {
    State(Descending(env.cfg.g.nb), seq(env.m.nLayers, _ => EmptyPool(env.cfg.g, zero)), [], [], [])
  }
}
