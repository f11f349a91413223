/**
 How large a pool has to be for no request ever to be turned away or evicted for lack of blocks.
 */
module SchedulerSizing {
  import opened Causal
  import opened Basics
  import opened BlockTables
  import opened Attention
  import opened Transformers
  import opened Scheduler
  import opened SchedulerStorage
  import opened SchedulerStreams

  /** The pool holds `max(1, max_num_seqs)` sequences of full context. */
  ghost predicate Ample(cfg: Config) {
    AtLeastOne(cfg.maxNumSeqs) * BlocksFor(cfg.maxSeq, cfg.g.bs) <= cfg.g.nb
  }

  predicate Exhausted(msg: Msg) {
    msg == Error(ExhaustedAtAdmission) || msg == Error(CacheExhausted)
  }

  ghost predicate Quiet(sent: seq<Sent>) {
    forall k :: 0 <= k < |sent| ==> !Exhausted(sent[k].msg)
  }

  lemma {:induction false} HeldAtMost(tables: seq<seq<nat>>, most: nat)
    requires forall i :: 0 <= i < |tables| ==> |tables[i]| <= most
    ensures HeldCount(tables) <= |tables| * most
  {
    if tables != [] {
      HeldAtMost(tables[1..], most);
      assert |tables| * most == |tables[1..]| * most + most;
    }
  }

  /** With `|others|` tables of at most `most` blocks besides `blocks`, the free list can grow `blocks` to `most`. */
  lemma AmpleFree(free: seq<nat>, before: seq<seq<nat>>, blocks: seq<nat>, after: seq<seq<nat>>, nb: nat, most: nat,
                  slots: nat)
    requires Owned(free, before + ([blocks] + after), nb)
    requires forall i :: 0 <= i < |before| ==> |before[i]| <= most
    requires forall i :: 0 <= i < |after| ==> |after[i]| <= most
    requires |before| + |after| + 1 <= slots && slots * most <= nb
    ensures most <= |blocks| + |free|
  {
    HeldParts(before, blocks, after);
    HeldSize(before);
    HeldSize(after);
    OwnedCounts(free, before + ([blocks] + after), nb);
    HeldSize(before + ([blocks] + after));
    HeldAtMost(before, most);
    HeldAtMost(after, most);
    ProductSplit(|before|, |after|, slots, most);
  }

  lemma ProductSplit(a: nat, b: nat, slots: nat, most: nat)
    requires a + b + 1 <= slots
    ensures a * most + b * most + most <= slots * most
  {
    MulMonotone(a + b + 1, slots, most);
    assert (a + b + 1) * most == a * most + b * most + most;
  }

  lemma PrefillQuiet(env: Env, s: State, a: Arrival)
    requires Inv(env, s) && a.req.prompt != [] && Ample(env.cfg) && Quiet(s.sent)
    requires |s.running| < AtLeastOne(env.cfg.maxNumSeqs)
    ensures Quiet(Prefill(env, s, a).sent)
  {
    hide PrefillPools, Logits, OnCourse, Stored, Owned;
    var most := BlocksFor(env.cfg.maxSeq, env.cfg.g.bs);
    if |a.req.prompt| <= env.cfg.maxSeq {
      OwnedWithEmpty(s.free, Tables(s.running), env.cfg.g.nb);
      TablesAtMost(env, s);
      AmpleFree(s.free, Tables(s.running), [], [], env.cfg.g.nb, most, AtLeastOne(env.cfg.maxNumSeqs));
      BlocksForMonotone(|a.req.prompt|, env.cfg.maxSeq, env.cfg.g.bs);
      GrowExact(s.free, [], BlocksFor(|a.req.prompt|, env.cfg.g.bs));
    }
  }

  lemma TablesAtMost(env: Env, s: State)
    requires Inv(env, s)
    ensures forall i :: 0 <= i < |s.running| ==> |Tables(s.running)[i]| <= BlocksFor(env.cfg.maxSeq, env.cfg.g.bs)
  {
    hide OnCourse, Stored, Owned;
    forall i | 0 <= i < |s.running|
      ensures |Tables(s.running)[i]| <= BlocksFor(env.cfg.maxSeq, env.cfg.g.bs)
    {
      assert RunOk(env, s.pools, s.running[i], s.running[i].pos, s.running[i].pos);
      BlocksForMonotone(s.running[i].pos, env.cfg.maxSeq, env.cfg.g.bs);
    }
  }

  lemma {:induction false} AdmitQuiet(env: Env, s: State)
    requires Inv(env, s) && Ample(env.cfg) && Quiet(s.sent)
    ensures Quiet(Admit(env, s).sent)
    decreases |s.pending|
  {
    hide Inv, Quiet, Prefill;
    if |s.running| < env.cfg.maxNumSeqs && s.pending != [] {
      PoppedInv(env, s);
      PrefillQuiet(env, PopPending(s), s.pending[0]);
      PrefillKeepsInv(env, PopPending(s), s.pending[0]);
      AdmitQuiet(env, Prefill(env, PopPending(s), s.pending[0]));
    }
  }

  lemma SweepAtMost(env: Env, pools: seq<Pool>, w: Sweep, rest: seq<Running>)
    requires |pools| == env.m.nLayers && Sweeping(env, pools, w, rest)
    ensures forall i :: 0 <= i < |w.kept| ==> |Tables(w.kept)[i]| <= BlocksFor(env.cfg.maxSeq, env.cfg.g.bs)
    ensures forall i :: 0 <= i < |rest| ==> |Tables(rest)[i]| <= BlocksFor(env.cfg.maxSeq, env.cfg.g.bs)
  {
    hide OnCourse, Stored, Owned;
    forall i | 0 <= i < |w.kept|
      ensures |Tables(w.kept)[i]| <= BlocksFor(env.cfg.maxSeq, env.cfg.g.bs)
    {
      assert RunOk(env, pools, w.kept[i], w.kept[i].pos + 1, w.kept[i].pos);
      BlocksForMonotone(w.kept[i].pos + 1, env.cfg.maxSeq, env.cfg.g.bs);
    }
    forall i | 0 <= i < |rest|
      ensures |Tables(rest)[i]| <= BlocksFor(env.cfg.maxSeq, env.cfg.g.bs)
    {
      assert RunOk(env, pools, rest[i], rest[i].pos, rest[i].pos);
      BlocksForMonotone(rest[i].pos, env.cfg.maxSeq, env.cfg.g.bs);
    }
  }

  lemma EvictOneQuiet(env: Env, pools: seq<Pool>, w: Sweep, r: Running, rest: seq<Running>)
    requires |pools| == env.m.nLayers && Sweeping(env, pools, w, [r] + rest)
    requires Ample(env.cfg) && Quiet(w.sent) && |w.kept| + |rest| + 1 <= AtLeastOne(env.cfg.maxNumSeqs)
    ensures Quiet(EvictOne(env.cfg, w, r).sent)
  {
    hide RunOk, Owned;
    var most := BlocksFor(env.cfg.maxSeq, env.cfg.g.bs);
    if r.pos + 1 <= env.cfg.maxSeq {
      SweepAtMost(env, pools, w, [r] + rest);
      TablesMiddle(w.kept, r, rest);
      TablesJoin([r], rest);
      assert forall i :: 0 <= i < |rest| ==> Tables(rest)[i] == Tables([r] + rest)[i + 1];
      AmpleFree(w.free, Tables(w.kept), r.blocks, Tables(rest), env.cfg.g.nb, most, AtLeastOne(env.cfg.maxNumSeqs));
      BlocksForMonotone(r.pos + 1, env.cfg.maxSeq, env.cfg.g.bs);
      GrowExact(w.free, r.blocks, BlocksFor(r.pos + 1, env.cfg.g.bs));
    }
  }

  lemma {:induction false} EvictToQuiet(env: Env, s: State, n: nat)
    requires Inv(env, s) && Ample(env.cfg) && Quiet(s.sent) && n <= |s.running| <= AtLeastOne(env.cfg.maxNumSeqs)
    ensures Quiet(EvictTo(env.cfg, s, n).sent)
    decreases n
  {
    hide Sweeping, Quiet, Ample, EvictTo, Inv;
    if n == 0 {
      EvictToNone(env.cfg, s);
    } else {
      InvPools(env, s);
      EvictToQuiet(env, s, n - 1);
      EvictToSweeps(env, s, n - 1);
      EvictStepQuiet(env, s, n);
    }
  }

  lemma EvictToNone(cfg: Config, s: State)
    ensures EvictTo(cfg, s, 0).sent == s.sent
  {
  }

  lemma InvPools(env: Env, s: State)
    requires Inv(env, s)
    ensures |s.pools| == env.m.nLayers
  {
  }

  lemma EvictStepQuiet(env: Env, s: State, n: nat)
    requires |s.pools| == env.m.nLayers && Ample(env.cfg) && 0 < n <= |s.running| <= AtLeastOne(env.cfg.maxNumSeqs)
    requires Quiet(EvictTo(env.cfg, s, n - 1).sent)
    requires Sweeping(env, s.pools, EvictTo(env.cfg, s, n - 1), s.running[n - 1..])
    ensures Quiet(EvictTo(env.cfg, s, n).sent)
  {
    hide Quiet, Sweeping, EvictOne, Ample;
    EvictToShrinks(env.cfg, s, n - 1);
    var r, rest := s.running[n - 1], s.running[n..];
    assert s.running[n - 1..] == [r] + rest;
    EvictOneQuiet(env, s.pools, EvictTo(env.cfg, s, n - 1), r, rest);
  }

  lemma {:induction false} RetireToQuiet(env: Env, s: State, logits: seq<Vec>, n: nat)
    requires n <= |s.running| == |logits| && Quiet(s.sent)
    ensures Quiet(RetireTo(env, s, logits, n).sent)
  {
    if n > 0 {
      RetireToQuiet(env, s, logits, n - 1);
    }
  }

  lemma {:induction false} AbortToQuiet(s: State, why: Failure, n: nat)
    requires n <= |s.running| && Quiet(s.sent) && !Exhausted(Error(why))
    ensures Quiet(AbortTo(s, why, n).sent)
  {
    if n > 0 {
      AbortToQuiet(s, why, n - 1);
    }
  }

  lemma DecodeQuiet(env: Env, s: State, fault: Fault, lost: Option<nat>)
    requires Fits(env, s) && Roomy(env.cfg, s.running) && Quiet(s.sent)
    ensures Quiet(Decode(env, s, fault, lost).sent)
  {
    hide DecodePools, DecodeLogits, Quiet;
    var n, b := |s.running|, BatchOf(s.running);
    BatchOfOk(env, s.running);
    var s' := s.(pools := DecodePools(env.m, env.cfg.g, b, s.pools, fault));
    AbortToQuiet(s', ForwardFailed, n);
    AbortToQuiet(s', RowLost, n);
    RetireToQuiet(env, s', DecodeLogits(env.m, env.cfg.g, b, s.pools), n);
  }

  lemma TickQuiet(env: Env, s: State, t: Turn)
    requires Inv(env, s) && TurnOk(t) && Ample(env.cfg) && Quiet(s.sent)
    requires |s.running| <= AtLeastOne(env.cfg.maxNumSeqs)
    ensures Quiet(Tick(env, s, t).sent)
  {
    hide RunOk, Owned, Prefill, Admit, Decode, Quiet, Ample;
    var s0 := Arrive(env, s, t);
    AdmitQuiet(env, s0);
    AdmitKeepsInv(env, s0);
    var s1 := Admit(env, s0);
    if s1.running == [] {
      if s1.pending != [] {
        PoppedInv(env, s1);
        PrefillQuiet(env, PopPending(s1), s1.pending[0]);
      }
    } else {
      EvictToQuiet(env, s1, |s1.running|);
      EvictReady(env, s1);
      var s2 := Evict(env.cfg, s1);
      if s2.running != [] {
        DecodeQuiet(env, s2, t.fault, t.lost);
      }
    }
  }

  /** Sizing: in a pool of `max(1, max_num_seqs) * ceil(max_seq / block_size)` blocks or more, no run ever rejects or
      evicts a request for lack of blocks. */
  lemma {:induction false} AmplePoolNeverExhausted(env: Env, zero: Vec, script: seq<Turn>)
    requires ScriptOk(script) && Ample(env.cfg)
    ensures Quiet(Run(env, zero, script).sent)
    decreases |script|
  {
    if script != [] {
      hide Inv, Quiet, Tick, Ample;
      var n := |script| - 1;
      AmplePoolNeverExhausted(env, zero, script[..n]);
      RunStorage(env, zero, script[..n]);
      TickQuiet(env, Run(env, zero, script[..n]), script[n]);
    }
  }

  // ---------------------------------------------------------------------------------------------------------------
  // The bound is tight

  lemma {:induction false} AdmitSends(env: Env, s: State)
    requires Fits(env, s)
    ensures s.sent <= Admit(env, s).sent
    decreases |s.pending|
  {
    if |s.running| < env.cfg.maxNumSeqs && s.pending != [] {
      PrefillSends(env, PopPending(s), s.pending[0]);
      AdmitSends(env, Prefill(env, PopPending(s), s.pending[0]));
    }
  }

  lemma PrefillSends(env: Env, s: State, a: Arrival)
    requires Fits(env, s) && a.req.prompt != []
    ensures s.sent <= Prefill(env, s, a).sent
  {
    hide PrefillPools, Logits, Grow, Strikes;
  }

  lemma {:induction false} EvictToSends(cfg: Config, s: State, n: nat)
    requires n <= |s.running|
    ensures s.sent <= EvictTo(cfg, s, n).sent
    decreases n
  {
    if n > 0 {
      hide Grow;
      EvictToSends(cfg, s, n - 1);
    }
  }

  lemma {:induction false} AbortToSends(s: State, why: Failure, n: nat)
    requires n <= |s.running|
    ensures s.sent <= AbortTo(s, why, n).sent
  {
    if n > 0 {
      AbortToSends(s, why, n - 1);
    }
  }

  lemma {:induction false} RetireToSends(env: Env, s: State, logits: seq<Vec>, n: nat)
    requires n <= |s.running| == |logits|
    ensures s.sent <= RetireTo(env, s, logits, n).sent
    decreases n
  {
    if n > 0 {
      RetireToSends(env, s, logits, n - 1);
    }
  }

  lemma DecodeSends(env: Env, s: State, fault: Fault, lost: Option<nat>)
    requires Fits(env, s) && Roomy(env.cfg, s.running)
    ensures s.sent <= Decode(env, s, fault, lost).sent
  {
    hide DecodePools, DecodeLogits;
    var n, b := |s.running|, BatchOf(s.running);
    BatchOfOk(env, s.running);
    var s' := s.(pools := DecodePools(env.m, env.cfg.g, b, s.pools, fault));
    AbortToSends(s', ForwardFailed, n);
    AbortToSends(s', RowLost, n);
    RetireToSends(env, s', DecodeLogits(env.m, env.cfg.g, b, s.pools), n);
  }

  /** A turn takes nothing back that its admissions have said. */
  lemma TickSends(env: Env, s: State, t: Turn)
    requires Inv(env, s) && TurnOk(t)
    ensures Admit(env, Arrive(env, s, t)).sent <= Tick(env, s, t).sent
  {
    hide RunOk, Owned, Prefill, Admit, Decode;
    AdmitKeepsInv(env, Arrive(env, s, t));
    var s1 := Admit(env, Arrive(env, s, t));
    if s1.running == [] {
      if s1.pending != [] {
        PoppedInv(env, s1);
        PrefillSends(env, PopPending(s1), s1.pending[0]);
      }
    } else {
      EvictToSends(env.cfg, s1, |s1.running|);
      EvictReady(env, s1);
      var s2 := Evict(env.cfg, s1);
      if s2.running != [] {
        DecodeSends(env, s2, t.fault, t.lost);
      }
    }
  }

  /** A request that fills the context with its prompt. */
  function Filling(cfg: Config, id: nat): (a: Arrival)
    requires cfg.maxSeq > 0
    ensures a.req.prompt != []
  {
    Arrival(Request(id, seq(cfg.maxSeq, _ => 0), 1, 0.0), NoFault, false)
  }

  /** `n` of them, with ids from `id` on. */
  function Crowd(cfg: Config, id: nat, n: nat): (waiting: seq<Arrival>)
    requires cfg.maxSeq > 0
    ensures |waiting| == n && forall i :: 0 <= i < n ==> waiting[i] == Filling(cfg, id + i)
  {
    seq(n, i requires 0 <= i => Filling(cfg, id + i))
  }

  /** Admitting one filling request takes a full context of blocks, or is turned away for lack of them. */
  lemma FillingAdmitted(env: Env, s: State, id: nat)
    requires Fits(env, s) && env.cfg.maxSeq > 0
    ensures var need := BlocksFor(env.cfg.maxSeq, env.cfg.g.bs);
            var r := Prefill(env, s, Filling(env.cfg, id));
            if |s.free| < need then !Quiet(r.sent)
            else |r.free| == |s.free| - need && |r.running| == |s.running| + 1
  {
    hide PrefillPools, Logits, Fits;
    var need := BlocksFor(env.cfg.maxSeq, env.cfg.g.bs);
    GrowExact(s.free, [], need);
    var r := Prefill(env, s, Filling(env.cfg, id));
    if |s.free| < need {
      assert Exhausted(r.sent[|s.sent|].msg);
    }
  }

  lemma LoudStaysLoud(sent: seq<Sent>, sent': seq<Sent>)
    requires !Quiet(sent) && sent <= sent'
    ensures !Quiet(sent')
  {
    var k :| 0 <= k < |sent| && Exhausted(sent[k].msg);
    assert sent'[k] == sent[k];
  }

  /** Too many filling requests for the free blocks: one of them is turned away. */
  lemma {:induction false} CrowdExhausts(env: Env, s: State, id: nat, n: nat)
    requires Fits(env, s) && env.cfg.maxSeq > 0 && s.pending == Crowd(env.cfg, id, n)
    requires |s.running| + n <= env.cfg.maxNumSeqs && |s.free| < n * BlocksFor(env.cfg.maxSeq, env.cfg.g.bs)
    ensures !Quiet(Admit(env, s).sent)
    decreases n
  {
    hide Fits, Prefill, Quiet;
    var need := BlocksFor(env.cfg.maxSeq, env.cfg.g.bs);
    assert n > 0;
    assert n * need == (n - 1) * need + need;
    PopFits(env, s);
    var s' := Prefill(env, PopPending(s), s.pending[0]);
    FillingAdmitted(env, PopPending(s), id);
    if |s.free| < need {
      AdmitSends(env, s');
      LoudStaysLoud(s'.sent, Admit(env, s').sent);
    } else {
      assert s'.pending == Crowd(env.cfg, id + 1, n - 1);
      CrowdExhausts(env, s', id + 1, n - 1);
    }
  }

  /** One turn in which `max(1, max_num_seqs)` filling requests arrive. */
  function CrowdTurn(cfg: Config): Turn
    requires cfg.maxSeq > 0
  {
    Turn(Crowd(cfg, 0, AtLeastOne(cfg.maxNumSeqs)), NoFault, None)
  }

  lemma {:induction false} DescendingSize(n: nat)
    ensures |Descending(n)| == n
  {
    if n > 0 {
      DescendingSize(n - 1);
    }
  }

  lemma SmallerPoolExhausts(env: Env, zero: Vec)
    requires env.cfg.maxSeq > 0 && !Ample(env.cfg)
    ensures TurnOk(CrowdTurn(env.cfg)) && !Quiet(Tick(env, Run(env, zero, []), CrowdTurn(env.cfg)).sent)
  {
    hide Inv, Quiet, Tick, Admit, Prefill;
    var t, n := CrowdTurn(env.cfg), AtLeastOne(env.cfg.maxNumSeqs);
    var s := Run(env, zero, []);
    var s0 := Arrive(env, s, t);
    assert s0.pending == Crowd(env.cfg, 0, n);
    DescendingSize(env.cfg.g.nb);
    assert s == Start(env, zero);
    if env.cfg.maxNumSeqs > 0 {
      CrowdExhausts(env, s0, 0, n);
      TickSends(env, s, t);
      LoudStaysLoud(Admit(env, s0).sent, Tick(env, s, t).sent);
    } else {
      LoneExhausts(env, s, t);
    }
  }

  /** With `max_num_seqs` zero the one request goes through the blocking receive. */
  lemma LoneExhausts(env: Env, s: State, t: Turn)
    requires Fits(env, s) && TurnOk(t) && env.cfg.maxSeq > 0 && env.cfg.maxNumSeqs == 0
    requires s.running == [] && s.pending == [] && t.arrivals == Crowd(env.cfg, 0, 1)
    requires |s.free| < BlocksFor(env.cfg.maxSeq, env.cfg.g.bs)
    ensures !Quiet(Tick(env, s, t).sent)
  {
    hide Prefill, Quiet, Fits;
    var s0 := Arrive(env, s, t);
    assert Admit(env, s0) == s0;
    PopFits(env, s0);
    FillingAdmitted(env, PopPending(s0), 0);
  }

  /** The sizing rule is exact: no run over requests with distinct ids ever turns away or evicts one for lack of blocks
      if and only if the pool holds `max(1, max_num_seqs)` sequences of full context. */
  lemma AmpleExactly(env: Env, zero: Vec)
    ensures (if env.cfg.maxNumSeqs == 0 then 1 else env.cfg.maxNumSeqs)
            * ((env.cfg.maxSeq + env.cfg.g.bs - 1) / env.cfg.g.bs) <= env.cfg.g.nb <==>
              forall script :: ScriptOk(script) && DistinctArrivals(ArrivalsOf(script)) ==>
                Quiet(Run(env, zero, script).sent)
  {
    hide Quiet, Inv, Tick, Run;
    BlocksForIsDivCeil(env.cfg.maxSeq, env.cfg.g.bs);
    if Ample(env.cfg) {
      forall script | ScriptOk(script)
        ensures Quiet(Run(env, zero, script).sent)
      {
        AmplePoolNeverExhausted(env, zero, script);
      }
    } else {
      NoContextIsAmple(env.cfg);
      SmallerPoolExhausts(env, zero);
      RunOne(env, zero, CrowdTurn(env.cfg));
      assert DistinctArrivals(ArrivalsOf([CrowdTurn(env.cfg)]));
    }
  }

  lemma NoContextIsAmple(cfg: Config)
    ensures cfg.maxSeq == 0 ==> Ample(cfg)
  {
  }

  lemma RunOne(env: Env, zero: Vec, t: Turn)
    requires TurnOk(t)
    ensures ScriptOk([t]) && ScriptOk([]) && Run(env, zero, [t]) == Tick(env, Run(env, zero, []), t)
    ensures ArrivalsOf([t]) == t.arrivals
  {
    hide Tick;
    assert [t][..0] == [];
    assert ArrivalsOf([t]) == ArrivalsOf([]) + t.arrivals == [] + t.arrivals;
  }
}
