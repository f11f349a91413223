/**
 Progress of the scheduler: a running sequence leaves in time, and once arrivals stop everything drains.
 */
module SchedulerProgress {
  import opened Causal
  import opened Basics
  import opened BlockTables
  import opened Transformers
  import opened Scheduler
  import opened SchedulerStorage
  import opened SchedulerStreams

  /** `r` in `rs` with `extra` more tokens. */
  ghost predicate ComesFrom(r: Running, rs: seq<Running>, extra: nat) {
    exists i :: 0 <= i < |rs| && rs[i].req == r.req && r.produced == rs[i].produced + extra
  }

  ghost predicate AllFrom(kept: seq<Running>, rs: seq<Running>, extra: nat) {
    forall j :: 0 <= j < |kept| ==> ComesFrom(kept[j], rs, extra)
  }

  lemma AllFromGrows(kept: seq<Running>, r: Running, rs: seq<Running>, i: nat, extra: nat)
    requires AllFrom(kept, rs, extra)
    requires i < |rs| && rs[i].req == r.req && r.produced == rs[i].produced + extra
    ensures AllFrom(kept + [r], rs, extra)
  {
  }

  lemma {:induction false} EvictToFrom(cfg: Config, s: State, n: nat)
    requires n <= |s.running|
    ensures AllFrom(EvictTo(cfg, s, n).kept, s.running, 0)
    decreases n
  {
    hide Grow, AllFrom;
    if n > 0 {
      EvictToFrom(cfg, s, n - 1);
      var w, w' := EvictTo(cfg, s, n - 1), EvictTo(cfg, s, n);
      if w'.kept != w.kept {
        AllFromGrows(w.kept, w'.kept[|w.kept|], s.running, n - 1, 0);
      }
    } else {
      AllFromNone(s.running, 0);
    }
  }

  lemma AllFromNone(rs: seq<Running>, extra: nat)
    ensures AllFrom([], rs, extra)
  {
  }

  lemma {:induction false} RetireToFrom(env: Env, s: State, logits: seq<Vec>, n: nat)
    requires n <= |s.running| == |logits|
    ensures AllFrom(RetireTo(env, s, logits, n).kept, s.running, 1)
    decreases n
  {
    hide AllFrom;
    if n > 0 {
      RetireToFrom(env, s, logits, n - 1);
      var w, w' := RetireTo(env, s, logits, n - 1), RetireTo(env, s, logits, n);
      if w'.kept != w.kept {
        AllFromGrows(w.kept, w'.kept[|w.kept|], s.running, n - 1, 1);
      }
    } else {
      AllFromNone(s.running, 1);
    }
  }

  lemma DecodeFrom(env: Env, s: State, fault: Fault, lost: Option<nat>)
    requires Fits(env, s) && Roomy(env.cfg, s.running)
    ensures AllFrom(Decode(env, s, fault, lost).running, s.running, 1)
  {
    hide DecodePools, DecodeLogits, AllFrom;
    var n, b := |s.running|, BatchOf(s.running);
    BatchOfOk(env, s.running);
    var s' := s.(pools := DecodePools(env.m, env.cfg.g, b, s.pools, fault));
    AbortToEmpties(s', ForwardFailed, n);
    AbortToEmpties(s', RowLost, n);
    AllFromNone(s.running, 1);
    RetireToFrom(env, s', DecodeLogits(env.m, env.cfg.g, b, s.pools), n);
  }

  /** Every sequence was in `was` with `gain` fewer tokens, or waited and has its first one and `gain` more. */
  ghost predicate Gained(rs: seq<Running>, was: seq<Running>, waiting: seq<Arrival>, gain: nat) {
    forall j :: 0 <= j < |rs| ==>
      ComesFrom(rs[j], was, gain) || (Waited(rs[j].req, waiting) && rs[j].produced == 1 + gain)
  }

  ghost predicate Waited(req: Request, waiting: seq<Arrival>) {
    exists i :: 0 <= i < |waiting| && waiting[i].req == req
  }

  lemma {:induction false} PrefillGains(env: Env, s: State, a: Arrival)
    requires Fits(env, s) && a.req.prompt != []
    ensures Gained(Prefill(env, s, a).running, s.running, [a], 0)
  {
    hide PrefillPools, Logits, Grow, Fits;
    var rs := Prefill(env, s, a).running;
    forall j | 0 <= j < |rs|
      ensures ComesFrom(rs[j], s.running, 0) || (Waited(rs[j].req, [a]) && rs[j].produced == 1)
    {
      if j < |s.running| {
        assert rs[j] == s.running[j];
      } else {
        assert [a][0].req == rs[j].req;
      }
    }
  }

  /** First from `was` to `mid`, then from `mid` to `rs`. */
  lemma {:induction false} GainsAdd(rs: seq<Running>, mid: seq<Running>, was: seq<Running>, first: seq<Arrival>,
                                    more: seq<Arrival>, gain: nat)
    requires Gained(mid, was, first, 0)
    requires Gained(rs, mid, more, gain) && (gain == 0 || more == [])
    ensures Gained(rs, was, first + more, gain)
  {
    var all := first + more;
    forall j | 0 <= j < |rs|
      ensures ComesFrom(rs[j], was, gain) || (Waited(rs[j].req, all) && rs[j].produced == 1 + gain)
    {
      if ComesFrom(rs[j], mid, gain) {
        var i :| 0 <= i < |mid| && mid[i].req == rs[j].req && rs[j].produced == mid[i].produced + gain;
        if Waited(mid[i].req, first) {
          var k :| 0 <= k < |first| && first[k].req == mid[i].req;
          assert all[k].req == rs[j].req;
        }
        assert ComesFrom(mid[i], was, 0) || (Waited(mid[i].req, first) && mid[i].produced == 1);
      } else {
        var k :| 0 <= k < |more| && more[k].req == rs[j].req;
        assert all[|first| + k].req == rs[j].req;
      }
    }
  }

  lemma {:induction false} AdmitGains(env: Env, s: State)
    requires Fits(env, s)
    ensures Gained(Admit(env, s).running, s.running, s.pending, 0)
    decreases |s.pending|
  {
    hide Prefill, ComesFrom, Waited;
    if |s.running| < env.cfg.maxNumSeqs && s.pending != [] {
      var next := Prefill(env, PopPending(s), s.pending[0]);
      PrefillGains(env, PopPending(s), s.pending[0]);
      AdmitGains(env, next);
      GainsAdd(Admit(env, s).running, next.running, s.running, [s.pending[0]], s.pending[1..], 0);
      assert [s.pending[0]] + s.pending[1..] == s.pending;
    } else {
      NothingGained(s.running, s.pending);
    }
  }

  lemma {:induction false} NothingGained(rs: seq<Running>, waiting: seq<Arrival>)
    ensures Gained(rs, rs, waiting, 0)
  {
    forall j | 0 <= j < |rs|
      ensures ComesFrom(rs[j], rs, 0)
    {
      assert rs[j].req == rs[j].req;
    }
  }

  /** A turn, token by token: a sequence that runs after it ran before it with one token fewer, or was admitted in it
      and has two, the prompt's and a decoded one - or just the prompt's, if it was the one taken by the blocking
      receive of an engine whose batch admits nobody. */
  lemma {:induction false} TurnGains(env: Env, s: State, t: Turn, r: Running)
    requires Inv(env, s) && TurnOk(t) && r in Tick(env, s, t).running
    ensures
      || (exists i :: 0 <= i < |s.running| && s.running[i].req == r.req && r.produced == s.running[i].produced + 1)
      || ((exists i :: 0 <= i < |s.pending + t.arrivals| && (s.pending + t.arrivals)[i].req == r.req)
          && r.produced == if env.cfg.maxNumSeqs == 0 then 1 else 2)
  {
    hide Prefill, Decode, Evict, RunOk, Owned, ComesFrom, Waited;
    var s0 := Arrive(env, s, t);
    AdmitKeepsInv(env, s0);
    AdmitGains(env, s0);
    var s1 := Admit(env, s0);
    var after := Tick(env, s, t).running;
    var gain := if s1.running == [] then 0 else 1;
    if s1.running == [] {
      if s1.pending != [] {
        PrefillGains(env, PopPending(s1), s1.pending[0]);
        assert s1 == s0 && s0.pending == [] + [s1.pending[0]] + s1.pending[1..];
        NothingGained(s.running, []);
        GainsAdd(after, s1.running, s.running, [], [s1.pending[0]], 0);
        MoreWait(after, s.running, [] + [s1.pending[0]], s1.pending[1..], 0);
      }
    } else {
      EvictReady(env, s1);
      DecodedGains(env, s1, t);
      if env.cfg.maxNumSeqs == 0 {
        assert s1 == s0;
        GainedOne(after, s.running, [], 1, r);
      } else {
        GainsAdd(after, s1.running, s.running, s0.pending, [], 1);
        assert s0.pending + [] == s0.pending;
      }
    }
    if s1.running == [] || env.cfg.maxNumSeqs > 0 {
      GainedOne(after, s.running, s0.pending, gain, r);
    }
  }

  lemma {:induction false} GainedOne(rs: seq<Running>, was: seq<Running>, waiting: seq<Arrival>, gain: nat, r: Running)
    requires Gained(rs, was, waiting, gain) && r in rs
    ensures
      || (exists i :: 0 <= i < |was| && was[i].req == r.req && r.produced == was[i].produced + gain)
      || ((exists i :: 0 <= i < |waiting| && waiting[i].req == r.req) && r.produced == 1 + gain)
  {
    var j :| 0 <= j < |rs| && rs[j] == r;
    assert ComesFrom(rs[j], was, gain) || (Waited(rs[j].req, waiting) && rs[j].produced == 1 + gain);
  }

  lemma {:induction false} MoreWait(rs: seq<Running>, was: seq<Running>, waiting: seq<Arrival>, more: seq<Arrival>,
                                    gain: nat)
    requires Gained(rs, was, waiting, gain)
    ensures Gained(rs, was, waiting + more, gain)
  {
    hide ComesFrom;
    forall req | Waited(req, waiting)
      ensures Waited(req, waiting + more)
    {
      var k :| 0 <= k < |waiting| && waiting[k].req == req;
      assert (waiting + more)[k].req == req;
    }
    hide Waited;
  }

  /** What decodes came through the sweep and gained one token. */
  lemma {:induction false} DecodedGains(env: Env, s: State, t: Turn)
    requires Inv(env, s) && s.running != []
    ensures var s2 := Evict(env.cfg, s);
            && Ready(env, s2)
            && Gained(if s2.running == [] then [] else Decode(env, s2, t.fault, t.lost).running, s.running, [], 1)
  {
    hide Decode, Inv;
    EvictReady(env, s);
    var s2 := Evict(env.cfg, s);
    if s2.running != [] {
      EvictToFrom(env.cfg, s, |s.running|);
      DecodeFrom(env, s2, t.fault, t.lost);
      hide Evict;
      AllGained(Decode(env, s2, t.fault, t.lost).running, s2.running, s.running);
    }
  }

  lemma {:induction false} AllGained(rs: seq<Running>, mid: seq<Running>, was: seq<Running>)
    requires AllFrom(rs, mid, 1) && AllFrom(mid, was, 0)
    ensures Gained(rs, was, [], 1)
  {
    forall j | 0 <= j < |rs|
      ensures ComesFrom(rs[j], was, 1)
    {
      assert ComesFrom(rs[j], mid, 1);
      var i :| 0 <= i < |mid| && mid[i].req == rs[j].req && rs[j].produced == mid[i].produced + 1;
      assert ComesFrom(mid[i], was, 0);
    }
  }

  /** No waiting request has the id of `req`, and if `req` runs it has `p` tokens. */
  ghost predicate Tracked(waiting: seq<Arrival>, rs: seq<Running>, req: Request, p: nat) {
    && (forall i :: 0 <= i < |waiting| ==> waiting[i].req.id != req.id)
    && (forall j :: 0 <= j < |rs| && rs[j].req.id == req.id ==> rs[j].req == req && rs[j].produced == p)
  }

  lemma PrefillTracks(env: Env, s: State, a: Arrival, req: Request, p: nat)
    requires Fits(env, s) && a.req.prompt != [] && a.req.id != req.id && Tracked([], s.running, req, p)
    ensures Tracked([], Prefill(env, s, a).running, req, p)
  {
    hide PrefillPools, Logits, Grow;
  }

  lemma {:induction false} AdmitTracks(env: Env, s: State, later: seq<Arrival>, req: Request, p: nat)
    requires Fits(env, s) && Tracked(s.pending + later, s.running, req, p)
    ensures Tracked(Admit(env, s).pending + later, Admit(env, s).running, req, p)
    decreases |s.pending|
  {
    hide Prefill;
    if |s.running| < env.cfg.maxNumSeqs && s.pending != [] {
      assert (s.pending + later)[0] == s.pending[0];
      assert s.pending[1..] + later == (s.pending + later)[1..];
      PrefillTracks(env, PopPending(s), s.pending[0], req, p);
      AdmitTracks(env, Prefill(env, PopPending(s), s.pending[0]), later, req, p);
    }
  }

  /** What decodes in a turn gains exactly one token or leaves. */
  lemma BatchTracks(env: Env, s: State, t: Turn, req: Request, p: nat)
    requires Inv(env, s) && Tracked([], s.running, req, p)
    ensures var s2 := Evict(env.cfg, s);
            Ready(env, s2) && Tracked([], Decode(env, s2, t.fault, t.lost).running, req, p + 1)
  {
    hide RunOk, Owned, Decode, Inv;
    EvictReady(env, s);
    var s2 := Evict(env.cfg, s);
    EvictToFrom(env.cfg, s, |s.running|);
    DecodeFrom(env, s2, t.fault, t.lost);
    var rs := Decode(env, s2, t.fault, t.lost).running;
    forall j | 0 <= j < |rs| && rs[j].req.id == req.id
      ensures rs[j].req == req && rs[j].produced == p + 1
    {
      assert ComesFrom(rs[j], s2.running, 1);
      var x :| 0 <= x < |s2.running| && s2.running[x].req == rs[j].req && rs[j].produced == s2.running[x].produced + 1;
      assert ComesFrom(s2.running[x], s.running, 0);
    }
  }

  lemma TickTracks(env: Env, s: State, t: Turn, later: seq<Arrival>, req: Request, p: nat)
    requires Inv(env, s) && TurnOk(t) && Tracked(s.pending + (t.arrivals + later), s.running, req, p)
    ensures var r := Tick(env, s, t); Tracked(r.pending + later, r.running, req, p + 1)
  {
    hide RunOk, Owned, Prefill, Admit, Decode;
    var s0 := Arrive(env, s, t);
    assert s.pending + (t.arrivals + later) == s0.pending + later;
    AdmitTracks(env, s0, later, req, p);
    AdmitKeepsInv(env, s0);
    var s1 := Admit(env, s0);
    if s1.running == [] {
      if s1.pending != [] {
        assert (s1.pending + later)[0] == s1.pending[0];
        assert s1.pending[1..] + later == (s1.pending + later)[1..];
        PrefillTracks(env, PopPending(s1), s1.pending[0], req, p + 1);
      }
    } else {
      BatchTracks(env, s1, t, req, p);
    }
  }

  /** From the state after `k` turns, a request that is not queued gains one token a turn for as long as it runs. `rest`
      is what arrives after those turns. */
  lemma {:induction false} TracksOn(env: Env, zero: Vec, script: seq<Turn>, k: nat, rest: seq<Arrival>,
                                    later: seq<Arrival>, req: Request, p: nat)
    requires ScriptOk(script) && k <= |script| && ScriptOk(script[..k])
    requires ArrivalsOf(script[..k]) + rest == ArrivalsOf(script) + later
    requires var s := Run(env, zero, script[..k]); Tracked(s.pending + rest, s.running, req, p)
    ensures var s := Run(env, zero, script); Tracked(s.pending + later, s.running, req, p + (|script| - k))
    decreases |script|
  {
    hide Inv, Tick, Tracked;
    if k == |script| {
      assert script[..k] == script;
      assert rest == (ArrivalsOf(script) + rest)[|ArrivalsOf(script)|..] == later;
    } else {
      var n := |script| - 1;
      var t := script[n];
      assert script[..n][..k] == script[..k];
      assert ArrivalsOf(script) + later == ArrivalsOf(script[..n]) + (t.arrivals + later);
      TracksOn(env, zero, script[..n], k, rest, t.arrivals + later, req, p);
      TickTracks(env, Run(env, zero, script[..n]), t, later, req, p + (n - k));
    }
  }

  /** What arrives after the first `k` turns. */
  function RestOf(script: seq<Turn>, k: nat): (rest: seq<Arrival>)
    requires k <= |script|
    ensures ArrivalsOf(script[..k]) + rest == ArrivalsOf(script)
  {
    ArrivalsGrow(script, k);
    ArrivalsOf(script)[|ArrivalsOf(script[..k])|..]
  }

  lemma {:induction false} ArrivalsGrow(script: seq<Turn>, k: nat)
    requires k <= |script|
    ensures ArrivalsOf(script[..k]) <= ArrivalsOf(script)
    decreases |script|
  {
    if k == |script| {
      assert script[..k] == script;
    } else {
      assert script[..|script| - 1][..k] == script[..k];
      ArrivalsGrow(script[..|script| - 1], k);
    }
  }

  lemma RunningTracked(env: Env, all: seq<Arrival>, s: State, rest: seq<Arrival>, i: nat)
    requires Ledger(env, all, s.pending + rest, s.running, s.sent) && i < |s.running|
    ensures Tracked(s.pending + rest, s.running, s.running[i].req, s.running[i].produced)
  {
    hide Placed, Streaming, Silent;
  }

  /** Turns after which a sequence with `produced` tokens must have left. */
  function TurnsLeft(r: Running): nat {
    if r.req.maxTokens <= r.produced + 1 then 1 else r.req.maxTokens - r.produced
  }

  /** Termination: a sequence running after `k` turns is gone, its stream settled, once `max(1, max_tokens - produced)`
      more turns have passed. With one token out that is the `max(1, max_tokens - 1)` decode rounds of a fresh
      admission. */
  lemma LeavesInTime(env: Env, zero: Vec, script: seq<Turn>, k: nat, i: nat, a: Arrival)
    requires ScriptOk(script) && DistinctArrivals(ArrivalsOf(script)) && AllPrompted(ArrivalsOf(script))
    requires k <= |script| && ScriptOk(script[..k]) && a in ArrivalsOf(script)
    requires var rs := Run(env, zero, script[..k]).running;
             && i < |rs| && rs[i].req == a.req
             && |script| - k >= (if a.req.maxTokens <= rs[i].produced + 1 then 1 else a.req.maxTokens - rs[i].produced)
    ensures var s := Run(env, zero, script);
            Finished(s, a) && Done(env, a.req, Stream(s.sent, a.req.id))
  {
    hide Run, Inv, Streaming, Stream, Done, Ledger;
    var r := Run(env, zero, script[..k]).running[i];
    assert ArrivalsOf(script) + [] == ArrivalsOf(script);
    var rest := RestOf(script, k);
    RunLedger(env, zero, script[..k], rest);
    RunningTracked(env, ArrivalsOf(script), Run(env, zero, script[..k]), rest, i);
    TracksOn(env, zero, script, k, rest, [], r.req, r.produced);
    RunCounts(env, zero, script[..k]);
    TimeIsUp(env, zero, script, r, r.produced + (|script| - k));
    EveryRequestServed(env, zero, script, a);
  }

  lemma RunCounts(env: Env, zero: Vec, script: seq<Turn>)
    requires ScriptOk(script)
    ensures forall i :: 0 <= i < |Run(env, zero, script).running| ==>
              var r := Run(env, zero, script).running[i];
              1 <= r.produced && (r.produced == 1 || r.produced < r.req.maxTokens)
  {
    hide Run, OnCourse, Stored;
    var s := Run(env, zero, script);
    forall i | 0 <= i < |s.running|
      ensures 1 <= s.running[i].produced
      ensures s.running[i].produced == 1 || s.running[i].produced < s.running[i].req.maxTokens
    {
      assert RunOk(env, s.pools, s.running[i], s.running[i].pos, s.running[i].pos);
    }
  }

  /** A request that would have run past its limit does not run. */
  lemma TimeIsUp(env: Env, zero: Vec, script: seq<Turn>, r: Running, p: nat)
    requires ScriptOk(script) && r.produced >= 1 && p >= r.produced + TurnsLeft(r)
    requires var s := Run(env, zero, script); Tracked(s.pending + [], s.running, r.req, p)
    ensures forall a: Arrival :: a.req == r.req ==> Finished(Run(env, zero, script), a)
  {
    hide Run, Inv;
    var s := Run(env, zero, script);
    assert s.pending + [] == s.pending;
    RunCounts(env, zero, script);
  }

  // ---------------------------------------------------------------------------------------------------------------
  // Draining

  /** Turns one waiting request can still take: its admission and its decode rounds. */
  function Cost(req: Request): nat {
    if req.maxTokens <= 2 then 2 else req.maxTokens
  }

  function WaitingWork(waiting: seq<Arrival>): nat {
    if waiting == [] then 0 else Cost(waiting[0].req) + WaitingWork(waiting[1..])
  }

  function RunningWork(rs: seq<Running>): nat {
    if rs == [] then 0 else RunningWork(rs[..|rs| - 1]) + TurnsLeft(rs[|rs| - 1])
  }

  /** Turns the requests of a state can still take, one after the other. */
  function Work(s: State): nat {
    WaitingWork(s.pending) + RunningWork(s.running)
  }

  lemma {:induction false} WaitingWorkJoin(a: seq<Arrival>, b: seq<Arrival>)
    ensures WaitingWork(a + b) == WaitingWork(a) + WaitingWork(b)
  {
    if a == [] {
      assert a + b == b;
    } else {
      assert (a + b)[1..] == a[1..] + b;
      WaitingWorkJoin(a[1..], b);
    }
  }

  lemma RunningWorkMore(rs: seq<Running>, r: Running)
    ensures RunningWork(rs + [r]) == RunningWork(rs) + TurnsLeft(r)
  {
    assert (rs + [r])[..|rs|] == rs;
  }

  lemma {:induction false} RunningWorkAtLeast(rs: seq<Running>)
    ensures |rs| <= RunningWork(rs)
  {
    if rs != [] {
      RunningWorkAtLeast(rs[..|rs| - 1]);
    }
  }

  /** An admission, whatever its outcome, is work done. */
  lemma PrefillCosts(env: Env, s: State, a: Arrival)
    requires Fits(env, s) && a.req.prompt != []
    ensures RunningWork(Prefill(env, s, a).running) < RunningWork(s.running) + Cost(a.req)
  {
    hide PrefillPools, Logits, Grow, Strikes;
    var r := Prefill(env, s, a);
    if r.running != s.running {
      var last := r.running[|s.running|];
      assert r.running == s.running + [last] && last.req == a.req && last.produced == 1;
      RunningWorkMore(s.running, last);
    }
  }

  lemma PrefillWorks(env: Env, s: State)
    requires Fits(env, s) && s.pending != []
    ensures Fits(env, PopPending(s)) && s.pending[0].req.prompt != []
    ensures Work(Prefill(env, PopPending(s), s.pending[0])) < Work(s)
  {
    PopFits(env, s);
    PrefillCosts(env, PopPending(s), s.pending[0]);
    hide Fits, Prefilled, RunningWork;
  }

  lemma {:induction false} AdmitWorks(env: Env, s: State)
    requires Fits(env, s)
    ensures Work(Admit(env, s)) <= Work(s)
    decreases |s.pending|
  {
    hide Fits, Prefill, Work;
    if |s.running| < env.cfg.maxNumSeqs && s.pending != [] {
      PrefillWorks(env, s);
      AdmitWorks(env, Prefill(env, PopPending(s), s.pending[0]));
    }
  }

  lemma RunningWorkTo(rs: seq<Running>, n: nat)
    requires 0 < n <= |rs|
    ensures RunningWork(rs[..n]) == RunningWork(rs[..n - 1]) + TurnsLeft(rs[n - 1])
  {
    assert rs[..n] == rs[..n - 1] + [rs[n - 1]];
    RunningWorkMore(rs[..n - 1], rs[n - 1]);
  }

  lemma EvictOneWorks(cfg: Config, w: Sweep, r: Running)
    ensures RunningWork(EvictOne(cfg, w, r).kept) <= RunningWork(w.kept) + TurnsLeft(r)
  {
    hide Grow, RunningWork;
    var w' := EvictOne(cfg, w, r);
    if w'.kept != w.kept {
      RunningWorkMore(w.kept, w'.kept[|w.kept|]);
    }
  }

  lemma {:induction false} EvictToWorks(cfg: Config, s: State, n: nat)
    requires n <= |s.running|
    ensures RunningWork(EvictTo(cfg, s, n).kept) <= RunningWork(s.running[..n])
    decreases n
  {
    if n > 0 {
      hide EvictOne, RunningWork, TurnsLeft;
      EvictToWorks(cfg, s, n - 1);
      RunningWorkTo(s.running, n);
      EvictOneWorks(cfg, EvictTo(cfg, s, n - 1), s.running[n - 1]);
    }
  }

  /** Each sequence of a decode round works off a turn or leaves. */
  lemma RetireOneWorks(env: Env, w: Sweep, r: Running, logits: Vec)
    ensures RunningWork(RetireOne(env, w, r, logits).kept) < RunningWork(w.kept) + TurnsLeft(r)
  {
    hide RunningWork;
    var w' := RetireOne(env, w, r, logits);
    if w'.kept != w.kept {
      RunningWorkMore(w.kept, w'.kept[|w.kept|]);
    }
  }

  lemma {:induction false} RetireToWorks(env: Env, s: State, logits: seq<Vec>, n: nat)
    requires n <= |s.running| == |logits|
    ensures RunningWork(RetireTo(env, s, logits, n).kept) + n <= RunningWork(s.running[..n])
    decreases n
  {
    if n > 0 {
      hide RetireOne, RunningWork, TurnsLeft;
      RetireToWorks(env, s, logits, n - 1);
      RunningWorkTo(s.running, n);
      RetireOneWorks(env, RetireTo(env, s, logits, n - 1), s.running[n - 1], logits[n - 1]);
    }
  }

  lemma DecodeWorks(env: Env, s: State, fault: Fault, lost: Option<nat>)
    requires Fits(env, s) && Roomy(env.cfg, s.running)
    ensures RunningWork(Decode(env, s, fault, lost).running) + |s.running| <= RunningWork(s.running)
  {
    hide DecodePools, DecodeLogits;
    var n, b := |s.running|, BatchOf(s.running);
    BatchOfOk(env, s.running);
    var s' := s.(pools := DecodePools(env.m, env.cfg.g, b, s.pools, fault));
    AbortToEmpties(s', ForwardFailed, n);
    AbortToEmpties(s', RowLost, n);
    RetireToWorks(env, s', DecodeLogits(env.m, env.cfg.g, b, s.pools), n);
    RunningWorkAtLeast(s.running);
    assert s.running[..n] == s.running;
  }

  /** A turn that has anything to do works some of it off. */
  lemma TickWorks(env: Env, s: State, t: Turn)
    requires Inv(env, s) && TurnOk(t)
    ensures var had := Work(s) + WaitingWork(t.arrivals);
            Work(Tick(env, s, t)) <= if had == 0 then 0 else had - 1
  {
    hide RunOk, Owned, Prefill, Admit, Decode, Evict;
    var s0 := Arrive(env, s, t);
    WaitingWorkJoin(s.pending, t.arrivals);
    AdmitWorks(env, s0);
    AdmitKeepsInv(env, s0);
    var s1 := Admit(env, s0);
    if s1.running == [] {
      if s1.pending != [] {
        PrefillWorks(env, s1);
      }
    } else {
      RoundWorks(env, s1, t);
    }
  }

  lemma RoundWorks(env: Env, s: State, t: Turn)
    requires Inv(env, s) && s.running != []
    ensures var s2 := Evict(env.cfg, s);
            && Ready(env, s2) && s2.pending == s.pending
            && var r := if s2.running == [] then s2 else Decode(env, s2, t.fault, t.lost);
               RunningWork(r.running) < RunningWork(s.running)
  {
    hide RunOk, Owned, Decode;
    var n := |s.running|;
    EvictReady(env, s);
    EvictToWorks(env.cfg, s, n);
    assert s.running[..n] == s.running;
    RunningWorkAtLeast(s.running);
    var s2 := Evict(env.cfg, s);
    if s2.running != [] {
      DecodeWorks(env, s2, t.fault, t.lost);
    }
  }

  lemma StartIdle(env: Env, zero: Vec)
    ensures Work(Run(env, zero, [])) == 0
  {
    assert Start(env, zero).pending == [] && Start(env, zero).running == [];
  }

  /** No run has more left to do than its arrivals brought. */
  lemma {:induction false} RunWork(env: Env, zero: Vec, script: seq<Turn>)
    requires ScriptOk(script)
    ensures Work(Run(env, zero, script)) <= WaitingWork(ArrivalsOf(script))
    decreases |script|
  {
    hide Inv, Tick, Work, Run;
    if script == [] {
      StartIdle(env, zero);
    } else {
      var n := |script| - 1;
      RunWork(env, zero, script[..n]);
      RunStep(env, zero, script);
      TickWorks(env, Run(env, zero, script[..n]), script[n]);
      WaitingWorkJoin(ArrivalsOf(script[..n]), script[n].arrivals);
    }
  }

  ghost predicate NoArrivals(script: seq<Turn>, k: nat) {
    forall i :: k <= i < |script| ==> script[i].arrivals == []
  }

  lemma {:induction false} WorksOff(env: Env, zero: Vec, script: seq<Turn>, k: nat)
    requires ScriptOk(script) && k <= |script| && ScriptOk(script[..k]) && NoArrivals(script, k)
    ensures var had := Work(Run(env, zero, script[..k]));
            Work(Run(env, zero, script)) <= if had <= |script| - k then 0 else had - (|script| - k)
    decreases |script|
  {
    hide Inv, Tick, Work, Run;
    if k == |script| {
      assert script[..k] == script;
    } else {
      var n := |script| - 1;
      assert script[..n][..k] == script[..k];
      RunStep(env, zero, script);
      WorksOff(env, zero, script[..n], k);
      TickWorks(env, Run(env, zero, script[..n]), script[n]);
    }
  }

  /** Draining: once arrivals have stopped after `k` turns, as many turns as there is work left - an admitted request's
      remaining rounds, `max(2, max_tokens)` for a queued one - empty the queue and the batch, whatever the device
      does. */
  lemma DrainsInTime(env: Env, zero: Vec, script: seq<Turn>, k: nat)
    requires ScriptOk(script) && k <= |script| && ScriptOk(script[..k]) && NoArrivals(script, k)
    requires |script| - k >= Work(Run(env, zero, script[..k]))
    ensures Run(env, zero, script).pending == [] && Run(env, zero, script).running == []
  {
    hide Inv, Run;
    WorksOff(env, zero, script, k);
    RunningWorkAtLeast(Run(env, zero, script).running);
  }

  // ---------------------------------------------------------------------------------------------------------------
  // No starvation

  predicate IsTail(rest: seq<Arrival>, all: seq<Arrival>) {
    |rest| <= |all| && rest == all[|all| - |rest|..]
  }

  /** Turns that what runs and the first `n` waiting requests can still take. */
  function AheadWork(s: State, n: nat): nat
    requires n <= |s.pending|
  {
    WaitingWork(s.pending[..n]) + RunningWork(s.running)
  }

  lemma PrefillAhead(env: Env, s: State, n: nat)
    requires Fits(env, s) && 0 < n <= |s.pending|
    ensures Fits(env, PopPending(s)) && s.pending[0].req.prompt != []
    ensures AheadWork(Prefill(env, PopPending(s), s.pending[0]), n - 1) < AheadWork(s, n)
  {
    PopFits(env, s);
    PrefillCosts(env, PopPending(s), s.pending[0]);
    hide Fits, Prefilled, RunningWork;
    assert s.pending[..n][1..] == s.pending[1..][..n - 1];
  }

  /** If a request still waits with `left` others ahead of it, those and what runs are at most `work` turns. */
  predicate Within(s: State, left: int, work: int) {
    left >= 0 ==> left <= |s.pending| && AheadWork(s, left) <= work
  }

  /** Admission works off what is ahead of the request at index `n`, or takes that request too. */
  lemma {:induction false} AdmitAhead(env: Env, s: State, n: nat)
    requires Fits(env, s) && n < |s.pending|
    ensures Within(Admit(env, s), n - (|s.pending| - |Admit(env, s).pending|), AheadWork(s, n))
    decreases |s.pending|
  {
    hide Fits, Prefill, AheadWork;
    if |s.running| < env.cfg.maxNumSeqs {
      PopFits(env, s);
      var s' := Prefill(env, PopPending(s), s.pending[0]);
      if n == 0 {
        AdmitTakesHeads(env, s');
      } else {
        PrefillAhead(env, s, n);
        AdmitAhead(env, s', n - 1);
      }
    }
  }

  /** Admission takes requests from the head of the queue only. */
  lemma {:induction false} AdmitTakesHeads(env: Env, s: State)
    requires Fits(env, s)
    ensures IsTail(Admit(env, s).pending, s.pending)
    decreases |s.pending|
  {
    hide Fits, Prefill;
    if |s.running| < env.cfg.maxNumSeqs && s.pending != [] {
      PopFits(env, s);
      AdmitTakesHeads(env, Prefill(env, PopPending(s), s.pending[0]));
    }
  }

  /** The queue is first come, first served: a turn takes a number of requests off its head. */
  lemma TickTakesHeads(env: Env, s: State, t: Turn)
    requires Inv(env, s) && TurnOk(t)
    ensures IsTail(Tick(env, s, t).pending, s.pending + t.arrivals)
  {
    hide RunOk, Owned, Prefill, Admit, Decode, Evict;
    var s0 := Arrive(env, s, t);
    AdmitTakesHeads(env, s0);
    AdmitKeepsInv(env, s0);
    var s1 := Admit(env, s0);
    if s1.running != [] {
      RoundWorks(env, s1, t);
    }
  }

  /** While the request at index `n` of the queue waits, every turn works off what is ahead of it, whatever arrives
      behind it. */
  lemma TickAhead(env: Env, s: State, t: Turn, n: nat)
    requires Inv(env, s) && TurnOk(t) && n < |s.pending|
    ensures var r := Tick(env, s, t);
            Within(r, n - (|s.pending| + |t.arrivals| - |r.pending|), AheadWork(s, n) - 1)
  {
    hide RunOk, Owned, Prefill, Admit, Decode, Evict;
    var s0 := Arrive(env, s, t);
    assert s0.pending[..n] == s.pending[..n];
    AdmitAhead(env, s0, n);
    AdmitTakesHeads(env, s0);
    AdmitKeepsInv(env, s0);
    var s1 := Admit(env, s0);
    var left := n - (|s0.pending| - |s1.pending|);
    if s1.running != [] {
      RoundWorks(env, s1, t);
    } else if left > 0 {
      PrefillAhead(env, s1, left);
    }
  }

  /** The queue of a run is the tail of its arrivals. */
  lemma {:induction false} QueueIsTail(env: Env, zero: Vec, script: seq<Turn>)
    requires ScriptOk(script)
    ensures IsTail(Run(env, zero, script).pending, ArrivalsOf(script))
    decreases |script|
  {
    if script != [] {
      hide Inv, Tick, IsTail, Run;
      var n := |script| - 1;
      QueueIsTail(env, zero, script[..n]);
      RunStep(env, zero, script);
      TickTakesHeads(env, Run(env, zero, script[..n]), script[n]);
      TailOfTail(ArrivalsOf(script[..n]), Run(env, zero, script[..n]).pending, script[n].arrivals,
                 Run(env, zero, script).pending);
    }
  }

  lemma TailOfTail(all: seq<Arrival>, waiting: seq<Arrival>, more: seq<Arrival>, rest: seq<Arrival>)
    requires IsTail(waiting, all) && IsTail(rest, waiting + more)
    ensures IsTail(rest, all + more)
  {
    assert waiting + more == (all + more)[|all| - |waiting|..];
  }

  /** How many of the first `j` arrivals a run has not taken from the queue. */
  ghost function Ahead(env: Env, zero: Vec, script: seq<Turn>, j: nat): int
    requires ScriptOk(script)
  {
    j - (|ArrivalsOf(script)| - |Run(env, zero, script).pending|)
  }

  /** After `k` turns arrival `j` waits at most until what is ahead of it is worked off. */
  lemma {:induction false} TakenInTime(env: Env, zero: Vec, script: seq<Turn>, k: nat, j: nat)
    requires ScriptOk(script) && k <= |script| && ScriptOk(script[..k]) && j < |ArrivalsOf(script[..k])|
    ensures var (n, s) := (Ahead(env, zero, script, j), Run(env, zero, script));
            n < |s.pending| && Within(s, n, WaitingWork(ArrivalsOf(script[..k])[..j]) - (|script| - k))
    decreases |script|
  {
    hide Inv, Tick, AheadWork;
    QueueIsTail(env, zero, script);
    if k == |script| {
      assert script[..k] == script;
      AheadAtStart(env, zero, script, j);
    } else {
      var n := |script| - 1;
      assert script[..n][..k] == script[..k];
      TakenInTime(env, zero, script[..n], k, j);
      QueueIsTail(env, zero, script[..n]);
      var s := Run(env, zero, script[..n]);
      TickTakesHeads(env, s, script[n]);
      ArrivalsGrow(script, k);
      if Ahead(env, zero, script, j) >= 0 {
        TickAhead(env, s, script[n], Ahead(env, zero, script[..n], j));
      }
    }
  }

  lemma AheadAtStart(env: Env, zero: Vec, script: seq<Turn>, j: nat)
    requires ScriptOk(script) && j < |ArrivalsOf(script)|
    ensures var (n, s) := (Ahead(env, zero, script, j), Run(env, zero, script));
            n < |s.pending| && Within(s, n, WaitingWork(ArrivalsOf(script)[..j]))
  {
    hide Run, Inv;
    QueueIsTail(env, zero, script);
    RunWork(env, zero, script);
    if Ahead(env, zero, script, j) >= 0 {
      AheadOfTail(Run(env, zero, script), ArrivalsOf(script), j, Ahead(env, zero, script, j));
    }
  }

  lemma AheadOfTail(s: State, all: seq<Arrival>, j: nat, n: nat)
    requires IsTail(s.pending, all) && j < |all| && n == j - (|all| - |s.pending|) && Work(s) <= WaitingWork(all)
    ensures n < |s.pending| && AheadWork(s, n) <= WaitingWork(all[..j])
  {
    hide WaitingWork, RunningWork;
    assert all == all[..j] + all[j..];
    WaitingWorkJoin(all[..j], all[j..]);
    assert s.pending == s.pending[..n] + s.pending[n..];
    WaitingWorkJoin(s.pending[..n], s.pending[n..]);
    assert s.pending[n..] == all[j..];
  }

  /** If `req` runs, it has `p` tokens. */
  ghost predicate RunsWith(rs: seq<Running>, req: Request, p: nat) {
    forall i :: 0 <= i < |rs| && rs[i].req == req ==> rs[i].produced == p
  }

  lemma TrackStart(env: Env, zero: Vec, script: seq<Turn>, later: seq<Arrival>, j: nat, p: nat)
    requires ScriptOk(script) && DistinctArrivals(ArrivalsOf(script) + later) && AllPrompted(ArrivalsOf(script) + later)
    requires j < |ArrivalsOf(script)| && Ahead(env, zero, script, j) < 0
    requires RunsWith(Run(env, zero, script).running, ArrivalsOf(script)[j].req, p)
    ensures var s := Run(env, zero, script);
            Tracked(s.pending + later, s.running, ArrivalsOf(script)[j].req, p)
  {
    hide Run, Inv, Placed, Streaming, Silent;
    var arrived, s := ArrivalsOf(script), Run(env, zero, script);
    var all, req := arrived + later, arrived[j].req;
    QueueIsTail(env, zero, script);
    RunLedger(env, zero, script, later);
    forall i | 0 <= i < |s.pending + later|
      ensures (s.pending + later)[i].req.id != req.id
    {
      var x := |arrived| - |s.pending| + i;
      assert (s.pending + later)[i] == all[x] && all[j].req == req && j < x;
    }
    forall i | 0 <= i < |s.running| && s.running[i].req.id == req.id
      ensures s.running[i].req == req && s.running[i].produced == p
    {
      var x :| 0 <= x < |all| && all[x].req == s.running[i].req;
      assert all[j].req == req;
    }
  }

  lemma AllPrefix(before: seq<Arrival>, all: seq<Arrival>)
    requires before <= all && DistinctArrivals(all) && AllPrompted(all)
    ensures DistinctArrivals(before) && AllPrompted(before)
  {
  }

  lemma RunsWithSome(env: Env, zero: Vec, script: seq<Turn>, req: Request) returns (p: nat)
    requires ScriptOk(script) && DistinctArrivals(ArrivalsOf(script)) && AllPrompted(ArrivalsOf(script))
    ensures p >= 1 && RunsWith(Run(env, zero, script).running, req, p)
  {
    hide Run, Inv, Placed, Streaming, Silent;
    var s := Run(env, zero, script);
    assert ArrivalsOf(script) + [] == ArrivalsOf(script);
    RunLedger(env, zero, script, []);
    RunCounts(env, zero, script);
    if i :| 0 <= i < |s.running| && s.running[i].req == req {
      p := s.running[i].produced;
    } else {
      p := 1;
    }
  }

  /** A request taken from the queue by turn `m` is gone after its own rounds. */
  lemma LeftAfter(env: Env, zero: Vec, script: seq<Turn>, m: nat, j: nat)
    requires ScriptOk(script) && DistinctArrivals(ArrivalsOf(script)) && AllPrompted(ArrivalsOf(script))
    requires m <= |script| && ScriptOk(script[..m]) && j < |ArrivalsOf(script[..m])|
    requires Ahead(env, zero, script[..m], j) < 0 && |script| - m >= Cost(ArrivalsOf(script[..m])[j].req) - 1
    ensures Finished(Run(env, zero, script), ArrivalsOf(script[..m])[j])
  {
    hide Run, Inv, RunsWith, Ahead, Tracked, Finished;
    var a := ArrivalsOf(script[..m])[j];
    assert ArrivalsOf(script) + [] == ArrivalsOf(script);
    ArrivalsGrow(script, m);
    AllPrefix(ArrivalsOf(script[..m]), ArrivalsOf(script));
    var p := RunsWithSome(env, zero, script[..m], a.req);
    var rest := RestOf(script, m);
    TrackStart(env, zero, script[..m], rest, j, p);
    TracksOn(env, zero, script, m, rest, [], a.req, p);
    TimeIsUp(env, zero, script, Running(a.req, [], 0, 0, p), p + (|script| - m));
  }

  lemma OwnCost(all: seq<Arrival>, j: nat)
    requires j < |all|
    ensures WaitingWork(all[..j + 1]) == WaitingWork(all[..j]) + Cost(all[j].req)
  {
    assert all[..j + 1] == all[..j] + [all[j]];
    WaitingWorkJoin(all[..j], [all[j]]);
  }

  /** Once what was ahead of it would be worked off, the request has been taken. */
  lemma TakenBy(env: Env, zero: Vec, script: seq<Turn>, k: nat, j: nat)
    requires ScriptOk(script) && k <= |script| && ScriptOk(script[..k]) && j < |ArrivalsOf(script[..k])|
    requires |script| - k > WaitingWork(ArrivalsOf(script[..k])[..j])
    ensures Ahead(env, zero, script, j) < 0
  {
    hide Run, Inv, Ahead;
    TakenInTime(env, zero, script, k, j);
  }

  lemma FinishedIsDone(env: Env, zero: Vec, script: seq<Turn>, a: Arrival)
    requires ScriptOk(script) && DistinctArrivals(ArrivalsOf(script)) && AllPrompted(ArrivalsOf(script))
    requires a in ArrivalsOf(script) && Finished(Run(env, zero, script), a)
    ensures Done(env, a.req, Stream(Run(env, zero, script).sent, a.req.id))
  {
    hide Run, Inv, Done, Stream, Streaming;
    EveryRequestServed(env, zero, script, a);
  }

  /** Nobody starves. Arrival `j`, in the queue or past it after `k` turns, has left with its stream settled after at
      most `max(2, max_tokens)` further turns for itself and each request that arrived before it, whatever arrives
      later and whatever the device does. */
  lemma SettledInTime(env: Env, zero: Vec, script: seq<Turn>, k: nat, j: nat)
    requires ScriptOk(script) && DistinctArrivals(ArrivalsOf(script)) && AllPrompted(ArrivalsOf(script))
    requires k <= |script| && ScriptOk(script[..k]) && j < |ArrivalsOf(script[..k])|
    requires |script| - k >= WaitingWork(ArrivalsOf(script[..k])[..j + 1])
    ensures var (a, s) := (ArrivalsOf(script[..k])[j], Run(env, zero, script));
            Finished(s, a) && Done(env, a.req, Stream(s.sent, a.req.id))
  {
    hide Run, Inv, Finished, Ahead, Done, Stream, Within, WaitingWork;
    var a := ArrivalsOf(script[..k])[j];
    OwnCost(ArrivalsOf(script[..k]), j);
    var m := |script| - Cost(a.req) + 1;
    assert script[..m][..k] == script[..k];
    ArrivalsGrow(script, m);
    ArrivalsGrow(script[..m], k);
    TakenBy(env, zero, script[..m], k, j);
    LeftAfter(env, zero, script, m, j);
    FinishedIsDone(env, zero, script, a);
  }

  lemma {:induction false} WaitingWorkWithin(waiting: seq<Arrival>, most: nat)
    requires most >= 2 && forall i :: 0 <= i < |waiting| ==> waiting[i].req.maxTokens <= most
    ensures WaitingWork(waiting) <= |waiting| * most
  {
    if waiting != [] {
      WaitingWorkWithin(waiting[1..], most);
      assert |waiting| * most == most + (|waiting| - 1) * most;
    }
  }

  /** In numbers: if no request up to arrival `j` may produce more than `most` tokens, `most` at least 2, then arrival
      `j` has left with its stream settled `(j + 1) * most` turns later. */
  lemma SettledByLongest(env: Env, zero: Vec, script: seq<Turn>, k: nat, j: nat, most: nat)
    requires ScriptOk(script) && DistinctArrivals(ArrivalsOf(script)) && AllPrompted(ArrivalsOf(script))
    requires k <= |script| && ScriptOk(script[..k]) && j < |ArrivalsOf(script[..k])| && most >= 2
    requires forall i :: 0 <= i <= j ==> ArrivalsOf(script[..k])[i].req.maxTokens <= most
    requires |script| - k >= (j + 1) * most
    ensures var (a, s) := (ArrivalsOf(script[..k])[j], Run(env, zero, script));
            Finished(s, a) && Done(env, a.req, Stream(s.sent, a.req.id))
  {
    hide Run, Finished, Done, Stream, WaitingWork, ArrivalsOf;
    WaitingWorkWithin(ArrivalsOf(script[..k])[..j + 1], most);
    SettledInTime(env, zero, script, k, j);
  }
}
