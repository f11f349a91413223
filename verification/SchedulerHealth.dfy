/**
 What exactly a request receives when the device does not fail and the pool is ample: its stream is determined by the
 request and the context alone, however the requests beside it fare.
 */
module SchedulerHealth {
  import opened Causal
  import opened Basics
  import opened BlockTables
  import opened Transformers
  import opened Scheduler
  import opened Generation
  import opened SchedulerStorage
  import opened SchedulerStreams
  import opened SchedulerProgress
  import opened SchedulerSizing

  /** The whole stream of a request that nothing outside it disturbs. */
  function Outcome(env: Env, req: Request): seq<Msg>
    requires req.prompt != []
  {
    var job := JobOf(env, req);
    if req.maxTokens == 0 then []
    else if |req.prompt| > env.cfg.maxSeq then [Error(PromptTooLong)]
    else if FitsContext(env, req) then Tokens(Full(job))
    else Tokens(Gen(job, env.cfg.maxSeq - |req.prompt| + 1)) + [Error(ContextExceeded)]
  }

  /** No decode step of the script fails. */
  ghost predicate Steady(script: seq<Turn>) {
    forall i :: 0 <= i < |script| ==> script[i].fault == NoFault && script[i].lost == None
  }

  /** The device does not fail in the request's own prefill. */
  predicate CleanPrefill(env: Env, a: Arrival) {
    !Strikes(a.fault, env.m.nLayers, |a.req.prompt|) && !a.rowLost
  }

  /** Every waiting request of this channel has a clean prefill. */
  ghost predicate CleanFor(env: Env, waiting: seq<Arrival>, id: nat) {
    forall i :: 0 <= i < |waiting| && waiting[i].req.id == id ==> CleanPrefill(env, waiting[i])
  }

  /** The device's own errors: those of a decode step reach everyone, those of a prefill its request. */
  predicate Harmful(m: Sent, id: nat) {
    || m.msg == Error(ForwardFailed) || m.msg == Error(RowLost)
    || (m.to == id && (m.msg == Error(PrefillFailed) || m.msg == Error(PrefillRowLost)))
  }

  ghost predicate Unharmed(sent: seq<Sent>, id: nat) {
    forall k :: 0 <= k < |sent| ==> !Harmful(sent[k], id)
  }

  lemma PrefillUnharmed(env: Env, s: State, a: Arrival, id: nat)
    requires Fits(env, s) && a.req.prompt != [] && Unharmed(s.sent, id)
    requires a.req.id == id ==> CleanPrefill(env, a)
    ensures Unharmed(Prefill(env, s, a).sent, id)
  {
    hide PrefillPools, Logits, Grow, Strikes, Fits;
  }

  lemma {:induction false} AdmitUnharmed(env: Env, s: State, id: nat)
    requires Fits(env, s) && Unharmed(s.sent, id) && CleanFor(env, s.pending, id)
    ensures Unharmed(Admit(env, s).sent, id) && CleanFor(env, Admit(env, s).pending, id)
    decreases |s.pending|
  {
    hide Fits, Prefill, Unharmed, CleanPrefill;
    if |s.running| < env.cfg.maxNumSeqs && s.pending != [] {
      PopFits(env, s);
      PrefillUnharmed(env, PopPending(s), s.pending[0], id);
      AdmitUnharmed(env, Prefill(env, PopPending(s), s.pending[0]), id);
    }
  }

  lemma {:induction false} EvictToUnharmed(cfg: Config, s: State, n: nat, id: nat)
    requires n <= |s.running| && Unharmed(s.sent, id)
    ensures Unharmed(EvictTo(cfg, s, n).sent, id)
    decreases n
  {
    hide Grow;
    if n > 0 {
      EvictToUnharmed(cfg, s, n - 1, id);
    }
  }

  lemma {:induction false} RetireToUnharmed(env: Env, s: State, logits: seq<Vec>, n: nat, id: nat)
    requires n <= |s.running| == |logits| && Unharmed(s.sent, id)
    ensures Unharmed(RetireTo(env, s, logits, n).sent, id)
    decreases n
  {
    if n > 0 {
      RetireToUnharmed(env, s, logits, n - 1, id);
    }
  }

  lemma DecodeUnharmed(env: Env, s: State, id: nat)
    requires Fits(env, s) && Roomy(env.cfg, s.running) && Unharmed(s.sent, id)
    ensures Unharmed(Decode(env, s, NoFault, None).sent, id)
  {
    hide DecodePools, DecodeLogits, Unharmed;
    var n, b := |s.running|, BatchOf(s.running);
    BatchOfOk(env, s.running);
    var s' := s.(pools := DecodePools(env.m, env.cfg.g, b, s.pools, NoFault));
    RetireToUnharmed(env, s', DecodeLogits(env.m, env.cfg.g, b, s.pools), n, id);
  }

  lemma TickUnharmed(env: Env, s: State, t: Turn, id: nat)
    requires Inv(env, s) && TurnOk(t) && t.fault == NoFault && t.lost == None
    requires Unharmed(s.sent, id) && CleanFor(env, s.pending + t.arrivals, id)
    ensures Unharmed(Tick(env, s, t).sent, id) && CleanFor(env, Tick(env, s, t).pending, id)
  {
    hide RunOk, Owned, Prefill, Admit, Decode, Unharmed, CleanPrefill;
    var s0 := Arrive(env, s, t);
    AdmitUnharmed(env, s0, id);
    AdmitKeepsInv(env, s0);
    var s1 := Admit(env, s0);
    if s1.running == [] {
      if s1.pending != [] {
        PopFits(env, s1);
        PrefillUnharmed(env, PopPending(s1), s1.pending[0], id);
      }
    } else {
      EvictToUnharmed(env.cfg, s1, |s1.running|, id);
      EvictReady(env, s1);
      var s2 := Evict(env.cfg, s1);
      if s2.running != [] {
        DecodeUnharmed(env, s2, id);
      }
    }
  }

  /** On a steady device only a request's own prefill can fail. */
  lemma {:induction false} RunUnharmed(env: Env, zero: Vec, script: seq<Turn>, id: nat)
    requires ScriptOk(script) && Steady(script) && CleanFor(env, ArrivalsOf(script), id)
    ensures Unharmed(Run(env, zero, script).sent, id) && CleanFor(env, Run(env, zero, script).pending, id)
    decreases |script|
  {
    if script != [] {
      hide Inv, Tick, Unharmed, CleanFor;
      var n := |script| - 1;
      CleanPrefix(env, ArrivalsOf(script[..n]), script[n].arrivals, id);
      RunUnharmed(env, zero, script[..n], id);
      TickUnharmed(env, Run(env, zero, script[..n]), script[n], id);
    }
  }

  lemma CleanPrefix(env: Env, before: seq<Arrival>, more: seq<Arrival>, id: nat)
    requires CleanFor(env, before + more, id)
    ensures CleanFor(env, before, id)
    ensures forall waiting :: CleanFor(env, waiting, id) ==> CleanFor(env, waiting + more, id)
  {
    hide CleanPrefill;
    forall i | 0 <= i < |before| && before[i].req.id == id
      ensures CleanPrefill(env, before[i])
    {
      assert (before + more)[i] == before[i];
    }
    forall i | 0 <= i < |more| && more[i].req.id == id
      ensures CleanPrefill(env, more[i])
    {
      assert (before + more)[|before| + i] == more[i];
    }
  }

  /** What a stream ends in was sent. */
  lemma {:induction false} StreamEnd(sent: seq<Sent>, id: nat)
    requires Stream(sent, id) != []
    ensures var st := Stream(sent, id);
            exists k :: 0 <= k < |sent| && sent[k] == Sent(id, st[|st| - 1])
  {
    var n := |sent| - 1;
    if sent[n].to != id {
      StreamEnd(sent[..n], id);
    }
  }

  /** A settled stream that ends in neither a device error nor an exhaustion is the outcome. */
  lemma DoneIsOutcome(env: Env, req: Request, sent: seq<Sent>)
    requires Done(env, req, Stream(sent, req.id)) && Quiet(sent) && Unharmed(sent, req.id)
    ensures Stream(sent, req.id) == Outcome(env, req)
  {
    hide Full, Gen, Stream, Steps;
    var st := Stream(sent, req.id);
    if Failed(env, req, st) {
      StreamEnd(sent, req.id);
      var why, n := st[|st| - 1].why, |st| - 1;
      assert st == st[..n] + [Error(why)];
      assert why == PromptTooLong || why == ContextExceeded;
    } else {
      CompleteFits(env, req);
    }
  }

  lemma CompleteFits(env: Env, req: Request)
    requires req.prompt != [] && FitsContext(env, req)
    ensures Outcome(env, req) == Tokens(Full(JobOf(env, req)))
  {
    hide FullFrom, StepsFrom;
    if req.maxTokens == 0 {
      assert Tokens([]) == [];
    }
  }

  /** The outcome is the whole generation exactly when the context holds it. */
  lemma OutcomeWhole(env: Env, req: Request)
    requires req.prompt != []
    ensures Outcome(env, req) == Tokens(Full(JobOf(env, req))) <==> FitsContext(env, req)
    ensures ErrorFree(Outcome(env, req)) <==> FitsContext(env, req)
  {
    hide FullFrom, StepsFrom, Gen;
    var out, whole := Outcome(env, req), Tokens(Full(JobOf(env, req)));
    assert ErrorFree(whole);
    if FitsContext(env, req) {
      CompleteFits(env, req);
    } else {
      assert out[|out| - 1].Error?;
    }
  }

  lemma SameIdClean(env: Env, all: seq<Arrival>, a: Arrival)
    requires DistinctArrivals(all) && a in all && CleanPrefill(env, a)
    ensures CleanFor(env, all, a.req.id)
  {
    hide CleanPrefill;
  }

  /** Exactness. On a device whose decode steps do not fail, in an ample pool, a request whose own prefill does not fail
      and that has left has received exactly its outcome: its whole generation if the context holds every position it
      needs; otherwise the context error, after precisely the tokens the context had room for. Over-long company and
      company whose prefill fails make no difference. */
  lemma OutcomeExactly(env: Env, zero: Vec, script: seq<Turn>, a: Arrival)
    requires ScriptOk(script) && DistinctArrivals(ArrivalsOf(script)) && AllPrompted(ArrivalsOf(script))
    requires Steady(script) && Ample(env.cfg)
    requires a in ArrivalsOf(script) && a.req.prompt != [] && CleanPrefill(env, a)
    ensures var s := Run(env, zero, script);
            Finished(s, a) ==>
              && Stream(s.sent, a.req.id) == Outcome(env, a.req)
              && (Stream(s.sent, a.req.id) == Tokens(Full(JobOf(env, a.req))) <==> FitsContext(env, a.req))
  {
    hide Inv, Run, Ample, Steady, Stream, Full, Streaming, Done, Outcome, CleanPrefill, FitsContext;
    var s := Run(env, zero, script);
    if Finished(s, a) {
      EveryRequestServed(env, zero, script, a);
      AmplePoolNeverExhausted(env, zero, script);
      SameIdClean(env, ArrivalsOf(script), a);
      RunUnharmed(env, zero, script, a.req.id);
      DoneIsOutcome(env, a.req, s.sent);
      OutcomeWhole(env, a.req);
    }
  }

  /** The same in numbers. With `e` the decode steps the request needs: it gets the `e + 1` tokens sampled by then, or
      `e` when the last is EOS, if `max_seq` holds the prompt and `e` more; else `max_seq - |prompt| + 1` tokens and the
      context error, or at once an error if the prompt alone is too long. */
  lemma {:induction false} OutcomeInNumbers(env: Env, zero: Vec, script: seq<Turn>, a: Arrival)
    requires ScriptOk(script) && DistinctArrivals(ArrivalsOf(script)) && AllPrompted(ArrivalsOf(script))
    requires Steady(script) && Ample(env.cfg) && Finished(Run(env, zero, script), a)
    requires a in ArrivalsOf(script) && a.req.prompt != [] && CleanPrefill(env, a)
    ensures
      var job := Job(env.m, env.sample, a.req.temperature, a.req.prompt, a.req.maxTokens, env.cfg.eos);
      var (st, n) := (Stream(Run(env, zero, script).sent, a.req.id), |a.req.prompt|);
      var (most, e) := (env.cfg.maxSeq, Steps(job));
      if a.req.maxTokens == 0 then st == []
      else if n > most then st == [Error(PromptTooLong)]
      else if n + e <= most then st == Tokens(Gen(job, if NextToken(job, e) == env.cfg.eos then e else e + 1))
      else st == Tokens(Gen(job, most - n + 1)) + [Error(ContextExceeded)]
  {
    hide Run, Ample, Steady, Stream, CleanPrefill, Finished;
    OutcomeExactly(env, zero, script, a);
    OutcomeOf(env, a.req);
  }

  lemma {:induction false} OutcomeOf(env: Env, req: Request)
    requires req.prompt != []
    ensures
      var (job, n, most) := (JobOf(env, req), |req.prompt|, env.cfg.maxSeq);
      var e := Steps(job);
      Outcome(env, req) ==
      if req.maxTokens == 0 then []
      else if n > most then [Error(PromptTooLong)]
      else if n + e <= most then Tokens(Gen(job, if NextToken(job, e) == env.cfg.eos then e else e + 1))
      else Tokens(Gen(job, most - n + 1)) + [Error(ContextExceeded)]
  {
    hide Full, Steps, Gen;
    StepsLeast(JobOf(env, req));
  }

  /** Delivery. Whatever else arrives, before or later, a fitting request with a clean prefill on a steady device and an
      ample pool has its whole generation after at most `max(2, max_tokens)` turns for itself and each request before
      it. */
  lemma FittingRequestDelivered(env: Env, zero: Vec, script: seq<Turn>, k: nat, j: nat)
    requires ScriptOk(script) && DistinctArrivals(ArrivalsOf(script)) && AllPrompted(ArrivalsOf(script))
    requires Steady(script) && Ample(env.cfg)
    requires k <= |script| && ScriptOk(script[..k]) && j < |ArrivalsOf(script[..k])|
    requires |script| - k >= WaitingWork(ArrivalsOf(script[..k])[..j + 1])
    requires var a := ArrivalsOf(script[..k])[j];
             && CleanPrefill(env, a)
             && (a.req.maxTokens == 0
                 || |a.req.prompt| + (if a.req.maxTokens <= 2 then 1 else a.req.maxTokens - 1) <= env.cfg.maxSeq)
    ensures var a := ArrivalsOf(script[..k])[j];
            && a.req.prompt != []
            && Stream(Run(env, zero, script).sent, a.req.id) == Tokens(Full(JobOf(env, a.req)))
  {
    hide Inv, Run, Ample, Steady, Stream, Full, Done, CleanPrefill, Steps, Finished;
    var a := ArrivalsOf(script[..k])[j];
    ArrivalsGrow(script, k);
    assert ArrivalsOf(script)[j] == a;
    SettledInTime(env, zero, script, k, j);
    OutcomeExactly(env, zero, script, a);
    StepsLeast(JobOf(env, a.req));
  }
}
