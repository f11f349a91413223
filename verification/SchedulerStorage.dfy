/**
 What every reachable scheduler state keeps about storage: block ownership, table sizes, positions, and the contents
 of every running sequence's table in every layer.
 */
module SchedulerStorage {
  import opened Causal
  import opened Basics
  import opened BlockTables
  import opened Attention
  import opened Transformers
  import opened Scheduler
  import opened Generation

  function JobOf(env: Env, req: Request): Job {
    Job(env.m, env.sample, req.temperature, req.prompt, req.maxTokens, env.cfg.eos)
  }

  /** Prompt and everything generated so far; the last token is the one whose row is not stored yet. */
  function History(env: Env, r: Running): (toks: seq<nat>)
    requires r.req.prompt != []
    ensures |toks| == |r.req.prompt| + r.produced
  {
    r.req.prompt + Gen(JobOf(env, r.req), r.produced)
  }

  /** Bookkeeping of one running sequence whose table has a slot for `cap` positions. */
  ghost predicate Counted(env: Env, r: Running, cap: nat) {
    && r.req.prompt != [] && r.produced >= 1 && r.req.maxTokens >= 1
    && r.pos == |r.req.prompt| + r.produced - 1
    && r.pos <= env.cfg.maxSeq
    && (r.produced == 1 || r.produced < r.req.maxTokens)
    && |r.blocks| == BlocksFor(cap, env.cfg.g.bs)
  }

  /** The sequence is where its request's generation says it is. */
  ghost predicate OnCourse(env: Env, r: Running)
    requires r.req.prompt != [] && r.produced >= 1
  {
    && r.next == NextToken(JobOf(env, r.req), r.produced - 1)
    && Full(JobOf(env, r.req)) == FullFrom(JobOf(env, r.req), r.produced)
  }

  /** Every layer of the sequence's table holds the causal rows of the first `n` tokens of its history. */
  ghost predicate Stored(env: Env, pools: seq<Pool>, r: Running, n: nat)
    requires |pools| == env.m.nLayers && r.req.prompt != []
  {
    forall l :: 0 <= l < env.m.nLayers ==> Logs(env.m, env.cfg.g, pools[l], l, r.blocks, History(env, r), n)
  }

  ghost predicate RunOk(env: Env, pools: seq<Pool>, r: Running, cap: nat, stored: nat)
    requires |pools| == env.m.nLayers
  {
    Counted(env, r, cap) && OnCourse(env, r) && Stored(env, pools, r, stored)
  }

  /** The state between two turns. */
  ghost predicate Inv(env: Env, s: State) {
    && Fits(env, s)
    && Owned(s.free, Tables(s.running), env.cfg.g.nb)
    && (forall i :: 0 <= i < |s.running| ==> RunOk(env, s.pools, s.running[i], s.running[i].pos, s.running[i].pos))
  }

  // ---------------------------------------------------------------------------------------------------------------
  // Table lists

  lemma TablesJoin(a: seq<Running>, b: seq<Running>)
    ensures Tables(a + b) == Tables(a) + Tables(b)
  {
  }

  lemma TablesMiddle(a: seq<Running>, r: Running, b: seq<Running>)
    ensures Tables(a + ([r] + b)) == Tables(a) + ([r.blocks] + Tables(b))
  {
    TablesJoin(a, [r] + b);
    TablesJoin([r], b);
  }

  lemma TablesApart(free: seq<nat>, rs: seq<Running>, nb: nat)
    requires Owned(free, Tables(rs), nb)
    ensures Apart(Tables(rs))
  {
    forall i, j | 0 <= i < |rs| && 0 <= j < |rs| && i != j
      ensures NoDup(Tables(rs)[i]) && Disjoint(Tables(rs)[i], Tables(rs)[j])
    {
      OwnedTablesApart(free, Tables(rs), nb, i, j);
    }
    forall i | 0 <= i < |rs|
      ensures NoDup(Tables(rs)[i])
    {
      OwnedTablesApart(free, Tables(rs), nb, i, i);
    }
  }

  // ---------------------------------------------------------------------------------------------------------------
  // Prefill

  /** The admitted sequence: its table holds exactly its prompt. */
  lemma AdmittedOk(env: Env, pools: seq<Pool>, req: Request, blocks: seq<nat>)
    requires |pools| == env.m.nLayers && AllShaped(pools, env.cfg.g) && IdsBelow(blocks, env.cfg.g.nb) && NoDup(blocks)
    requires req.prompt != [] && req.maxTokens >= 1 && |req.prompt| <= env.cfg.maxSeq
    requires |blocks| == BlocksFor(|req.prompt|, env.cfg.g.bs)
    ensures var r := Running(req, blocks, env.sample(Logits(env.m, req.prompt), req.temperature), |req.prompt|, 1);
            RunOk(env, PrefillPools(env.m, env.cfg.g, blocks, req.prompt, pools, NoFault), r, r.pos, r.pos)
  {
    var job := JobOf(env, req);
    var r := Running(req, blocks, env.sample(Logits(env.m, req.prompt), req.temperature), |req.prompt|, 1);
    var after := PrefillPools(env.m, env.cfg.g, blocks, req.prompt, pools, NoFault);
    assert req.prompt + Gen(job, 0) == req.prompt;
    forall l | 0 <= l < env.m.nLayers
      ensures Logs(env.m, env.cfg.g, after[l], l, blocks, History(env, r), r.pos)
    {
      PrefillGathers(env.m, env.cfg.g, blocks, req.prompt, pools, l);
      assert History(env, r)[..r.pos] == req.prompt == req.prompt[..r.pos];
      RowsCausal(env.m, History(env, r), req.prompt, l, r.pos);
    }
  }

  /** A prefill into another table leaves a running sequence as it was. */
  lemma PrefillSpares(env: Env, pools: seq<Pool>, toks: seq<nat>, blocks: seq<nat>, fault: Fault, r: Running,
                      cap: nat, n: nat)
    requires |pools| == env.m.nLayers && AllShaped(pools, env.cfg.g) && Covers(blocks, env.cfg.g, |toks|)
    requires RunOk(env, pools, r, cap, n) && Disjoint(blocks, r.blocks)
    ensures RunOk(env, PrefillPools(env.m, env.cfg.g, blocks, toks, pools, fault), r, cap, n)
  {
    var after := PrefillPools(env.m, env.cfg.g, blocks, toks, pools, fault);
    forall l | 0 <= l < env.m.nLayers
      ensures Logs(env.m, env.cfg.g, after[l], l, r.blocks, History(env, r), n)
    {
      assert Logs(env.m, env.cfg.g, pools[l], l, r.blocks, History(env, r), n);
      PrefillIsolated(env.m, env.cfg.g, blocks, toks, pools, fault, l, r.blocks, n);
    }
  }

  lemma NoStrikeIsNoFault(m: Model, g: Geometry, blocks: seq<nat>, toks: seq<nat>, pools: seq<Pool>, fault: Fault)
    requires |pools| == m.nLayers && AllShaped(pools, g) && Covers(blocks, g, |toks|)
    requires !Strikes(fault, m.nLayers, |toks|)
    ensures PrefillPools(m, g, blocks, toks, pools, fault) == PrefillPools(m, g, blocks, toks, pools, NoFault)
  {
  }

  lemma OwnedWithEmpty(free: seq<nat>, tables: seq<seq<nat>>, nb: nat)
    requires Owned(free, tables, nb)
    ensures Owned(free, tables + ([[]] + []), nb)
  {
    HeldParts(tables, [], []);
    var none: seq<nat> := [];
    assert multiset(none) == multiset{};
  }

  /** The blocks taken for an admission are owned by the new table alone. */
  lemma AdmissionOwned(free: seq<nat>, tables: seq<seq<nat>>, need: nat, nb: nat)
    requires Owned(free, tables, nb) && Grow(free, [], need).ok
    ensures var grown := Grow(free, [], need);
            && Owned(grown.free, tables + [grown.blocks], nb)
            && Owned(grown.free + grown.blocks, tables, nb)
            && |grown.blocks| == need
  {
    hide Owned;
    var grown := Grow(free, [], need);
    GrowExact(free, [], need);
    OwnedWithEmpty(free, tables, nb);
    OwnedReplace(free, tables, [], [], nb, grown.free, grown.blocks);
    assert tables + ([grown.blocks] + []) == tables + [grown.blocks];
    OwnedDrop(grown.free, tables, grown.blocks, [], nb);
    assert tables + [] == tables;
  }

  lemma NewTableApart(free: seq<nat>, tables: seq<seq<nat>>, blocks: seq<nat>, nb: nat)
    requires Owned(free, tables + [blocks], nb)
    ensures NoDup(blocks) && forall i :: 0 <= i < |tables| ==> Disjoint(blocks, tables[i])
  {
    var all := tables + [blocks];
    assert all[|tables|] == blocks;
    OwnedTablesApart(free, all, nb, |tables|, |tables|);
    forall i | 0 <= i < |tables|
      ensures Disjoint(blocks, tables[i])
    {
      OwnedTablesApart(free, all, nb, |tables|, i);
    }
  }

  lemma PrefillKeepsInv(env: Env, s: State, a: Arrival)
    requires Inv(env, s) && a.req.prompt != []
    ensures Inv(env, Prefill(env, s, a))
  {
    hide RunOk, Owned, Covers;
    var req, g := a.req, env.cfg.g;
    var need := BlocksFor(|req.prompt|, g.bs);
    var grown := Grow(s.free, [], need);
    if req.maxTokens > 0 && |req.prompt| <= env.cfg.maxSeq && grown.ok {
      var r := Prefill(env, s, a);
      AdmissionOwned(s.free, Tables(s.running), need, g.nb);
      NewTableApart(grown.free, Tables(s.running), grown.blocks, g.nb);
      GrowInRange(s.free, [], need, g.nb);
      CoversOf(grown.blocks, g, |req.prompt|);
      forall i | 0 <= i < |s.running|
        ensures RunOk(env, r.pools, s.running[i], s.running[i].pos, s.running[i].pos)
      {
        assert Tables(s.running)[i] == s.running[i].blocks;
        PrefillSpares(env, s.pools, req.prompt, grown.blocks, a.fault, s.running[i], s.running[i].pos,
                      s.running[i].pos);
      }
      if !Strikes(a.fault, env.m.nLayers, |req.prompt|) && !a.rowLost {
        NoStrikeIsNoFault(env.m, g, grown.blocks, req.prompt, s.pools, a.fault);
        AdmittedOk(env, s.pools, req, grown.blocks);
        TablesJoin(s.running, [r.running[|s.running|]]);
        assert Tables(r.running) == Tables(s.running) + [grown.blocks];
      }
    }
  }

  lemma {:induction false} AdmitKeepsInv(env: Env, s: State)
    requires Inv(env, s)
    ensures Inv(env, Admit(env, s))
    decreases |s.pending|
  {
    if |s.running| < env.cfg.maxNumSeqs && s.pending != [] {
      PrefillKeepsInv(env, PopPending(s), s.pending[0]);
      AdmitKeepsInv(env, Prefill(env, PopPending(s), s.pending[0]));
    }
  }

  // ---------------------------------------------------------------------------------------------------------------
  // Eviction

  /** Mid-sweep: the survivors and the sequences still to come own disjoint tables; survivors have one more slot. */
  ghost predicate Sweeping(env: Env, pools: seq<Pool>, w: Sweep, rest: seq<Running>)
    requires |pools| == env.m.nLayers
  {
    && Owned(w.free, Tables(w.kept + rest), env.cfg.g.nb)
    && (forall i :: 0 <= i < |w.kept| ==>
          w.kept[i].pos + 1 <= env.cfg.maxSeq && RunOk(env, pools, w.kept[i], w.kept[i].pos + 1, w.kept[i].pos))
    && (forall i :: 0 <= i < |rest| ==> RunOk(env, pools, rest[i], rest[i].pos, rest[i].pos))
  }

  lemma GrownRunOk(env: Env, pools: seq<Pool>, r: Running, blocks: seq<nat>)
    requires |pools| == env.m.nLayers && AllShaped(pools, env.cfg.g) && RunOk(env, pools, r, r.pos, r.pos)
    requires r.blocks <= blocks && IdsBelow(blocks, env.cfg.g.nb)
    requires |blocks| == BlocksFor(r.pos + 1, env.cfg.g.bs)
    ensures RunOk(env, pools, r.(blocks := blocks), r.pos + 1, r.pos)
  {
    var r' := r.(blocks := blocks);
    BlocksForMonotone(r.pos, r.pos + 1, env.cfg.g.bs);
    forall l | 0 <= l < env.m.nLayers
      ensures Logs(env.m, env.cfg.g, pools[l], l, blocks, History(env, r'), r.pos)
    {
      assert Logs(env.m, env.cfg.g, pools[l], l, r.blocks, History(env, r), r.pos);
      GatherGrown(pools[l], env.cfg.g, r.blocks, blocks, r.pos);
    }
  }

  lemma OwnedBelow(free: seq<nat>, tables: seq<seq<nat>>, nb: nat)
    requires Owned(free, tables, nb)
    ensures IdsBelow(free, nb) && forall i :: 0 <= i < |tables| ==> IdsBelow(tables[i], nb)
  {
    forall x | x in free
      ensures x < nb
    {
      AllIdsOnce(nb, x);
      assert x in multiset(free);
    }
    forall i, x | 0 <= i < |tables| && x in tables[i]
      ensures x < nb
    {
      var a :| 0 <= a < |tables[i]| && tables[i][a] == x;
      OwnedInRange(free, tables, nb, i, a);
    }
  }

  lemma EvictOneOwned(cfg: Config, w: Sweep, r: Running, rest: seq<Running>)
    requires Owned(w.free, Tables(w.kept + ([r] + rest)), cfg.g.nb)
    ensures Owned(EvictOne(cfg, w, r).free, Tables(EvictOne(cfg, w, r).kept + rest), cfg.g.nb)
  {
    hide Owned, Tables;
    var w' := EvictOne(cfg, w, r);
    var need := BlocksFor(r.pos + 1, cfg.g.bs);
    var grown := Grow(w.free, r.blocks, need);
    TablesMiddle(w.kept, r, rest);
    TablesJoin(w.kept, rest);
    if r.pos + 1 > cfg.maxSeq || !grown.ok {
      OwnedDrop(w.free, Tables(w.kept), r.blocks, Tables(rest), cfg.g.nb);
    } else {
      GrowExact(w.free, r.blocks, need);
      OwnedReplace(w.free, Tables(w.kept), r.blocks, Tables(rest), cfg.g.nb, grown.free, grown.blocks);
      var r' := r.(blocks := grown.blocks);
      TablesMiddle(w.kept, r', rest);
      assert w.kept + ([r'] + rest) == w'.kept + rest;
    }
  }

  /** The survivor of one sweep step, if there is one. */
  lemma EvictOneKept(env: Env, pools: seq<Pool>, w: Sweep, r: Running, rest: seq<Running>)
    requires |pools| == env.m.nLayers && AllShaped(pools, env.cfg.g) && RunOk(env, pools, r, r.pos, r.pos)
    requires Owned(EvictOne(env.cfg, w, r).free, Tables(EvictOne(env.cfg, w, r).kept + rest), env.cfg.g.nb)
    ensures var kept := EvictOne(env.cfg, w, r).kept;
            kept != w.kept ==>
              && |kept| == |w.kept| + 1 && kept[..|w.kept|] == w.kept
              && kept[|w.kept|].pos + 1 <= env.cfg.maxSeq
              && RunOk(env, pools, kept[|w.kept|], kept[|w.kept|].pos + 1, kept[|w.kept|].pos)
  {
    hide RunOk, Owned;
    var w' := EvictOne(env.cfg, w, r);
    var need := BlocksFor(r.pos + 1, env.cfg.g.bs);
    var grown := Grow(w.free, r.blocks, need);
    if w'.kept != w.kept {
      GrowExact(w.free, r.blocks, need);
      GrownIsNeed(env, pools, r, grown, need);
      assert Tables(w'.kept + rest)[|w.kept|] == grown.blocks;
      OwnedBelow(grown.free, Tables(w'.kept + rest), env.cfg.g.nb);
      GrownRunOk(env, pools, r, grown.blocks);
    }
  }

  lemma EvictOneSweeps(env: Env, pools: seq<Pool>, w: Sweep, r: Running, rest: seq<Running>)
    requires |pools| == env.m.nLayers && AllShaped(pools, env.cfg.g)
    requires Sweeping(env, pools, w, [r] + rest)
    ensures Sweeping(env, pools, EvictOne(env.cfg, w, r), rest)
  {
    hide RunOk, Owned, Tables, EvictOne, AllShaped;
    var w' := EvictOne(env.cfg, w, r);
    assert ([r] + rest)[0] == r && forall i :: 0 <= i < |rest| ==> ([r] + rest)[i + 1] == rest[i];
    EvictOneOwned(env.cfg, w, r, rest);
    EvictOneKept(env, pools, w, r, rest);
    assert forall i :: 0 <= i < |w'.kept| && i != |w.kept| ==> w'.kept[i] == w.kept[i];
  }

  lemma GrownIsNeed(env: Env, pools: seq<Pool>, r: Running, grown: Grown, need: nat)
    requires |pools| == env.m.nLayers && RunOk(env, pools, r, r.pos, r.pos)
    requires need == BlocksFor(r.pos + 1, env.cfg.g.bs)
    requires |grown.blocks| == if need <= |r.blocks| then |r.blocks| else need
    ensures |grown.blocks| == need
  {
    BlocksForMonotone(r.pos, r.pos + 1, env.cfg.g.bs);
  }

  lemma SweepStart(env: Env, s: State)
    requires Inv(env, s)
    ensures Sweeping(env, s.pools, Sweep(s.free, [], s.sent), s.running[0..])
  {
    assert [] + s.running[0..] == s.running;
  }

  lemma {:induction false} EvictToSweeps(env: Env, s: State, n: nat)
    requires Inv(env, s) && n <= |s.running|
    ensures Sweeping(env, s.pools, EvictTo(env.cfg, s, n), s.running[n..])
    decreases n
  {
    hide Sweeping, EvictOne, RunOk, Owned, AllShaped, IdsBelow;
    if n == 0 {
      SweepStart(env, s);
    } else {
      EvictToSweeps(env, s, n - 1);
      TailSplit(s.running, n);
      EvictOneSweeps(env, s.pools, EvictTo(env.cfg, s, n - 1), s.running[n - 1], s.running[n..]);
    }
  }

  // ---------------------------------------------------------------------------------------------------------------
  // Decode

  /** After a clean decode step and before its bookkeeping: the row of the last token is stored too. */
  ghost predicate Decoded(env: Env, pools: seq<Pool>, r: Running, logits: Vec)
    requires |pools| == env.m.nLayers
  {
    && RunOk(env, pools, r, r.pos + 1, r.pos + 1)
    && r.pos + 1 <= env.cfg.maxSeq
    && logits == Logits(env.m, History(env, r))
  }

  lemma HistoryEndsInNext(env: Env, r: Running)
    requires r.req.prompt != [] && r.produced >= 1 && OnCourse(env, r)
    ensures History(env, r)[|r.req.prompt| + r.produced - 1] == r.next
  {
  }

  lemma BatchOfOk(env: Env, rs: seq<Running>)
    requires Roomy(env.cfg, rs)
    ensures BatchOk(BatchOf(rs), env.cfg.g)
  {
  }

  /** A running sequence is a batch row that continues its own history. */
  lemma RunContinues(env: Env, pools: seq<Pool>, rs: seq<Running>, i: nat)
    requires |pools| == env.m.nLayers && Roomy(env.cfg, rs) && i < |rs|
    requires RunOk(env, pools, rs[i], rs[i].pos + 1, rs[i].pos)
    ensures BatchOk(BatchOf(rs), env.cfg.g)
    ensures Continues(env.m, env.cfg.g, BatchOf(rs), pools, i, History(env, rs[i]))
  {
    hide Logs, NextToken, Full, FullFrom;
    BatchOfOk(env, rs);
    HistoryEndsInNext(env, rs[i]);
    CoversShorter(rs[i].blocks, env.cfg.g, rs[i].pos + 1, rs[i].pos);
  }

  /** Batch independence inside the scheduler: each running sequence decodes to the logits of its own history. */
  lemma DecodeRunning(env: Env, pools: seq<Pool>, rs: seq<Running>, i: nat)
    requires |pools| == env.m.nLayers && AllShaped(pools, env.cfg.g) && Roomy(env.cfg, rs) && i < |rs|
    requires Apart(Tables(rs)) && rs[i].pos + 1 <= env.cfg.maxSeq
    requires RunOk(env, pools, rs[i], rs[i].pos + 1, rs[i].pos)
    ensures BatchOk(BatchOf(rs), env.cfg.g)
    ensures Decoded(env, DecodePools(env.m, env.cfg.g, BatchOf(rs), pools, NoFault), rs[i],
                    DecodeLogits(env.m, env.cfg.g, BatchOf(rs), pools)[i])
  {
    hide Logs, Continues, Apart, DecodePools, DecodeLogits, NextToken, Full, FullFrom, Logits, Roomy, Gen;
    var b, r, toks := BatchOf(rs), rs[i], History(env, rs[i]);
    RunContinues(env, pools, rs, i);
    DecodeIsCausal(env.m, env.cfg.g, b, pools, i, toks);
    var after := DecodePools(env.m, env.cfg.g, b, pools, NoFault);
    forall l | 0 <= l < env.m.nLayers
      ensures Logs(env.m, env.cfg.g, after[l], l, r.blocks, toks, r.pos + 1)
    {
      DecodeLogsGrow(env.m, env.cfg.g, b, pools, i, toks, l);
    }
  }

  /** A kept sequence after its bookkeeping: one position further, one token more. */
  lemma AdvancedOk(env: Env, pools: seq<Pool>, r: Running, logits: Vec)
    requires |pools| == env.m.nLayers && Decoded(env, pools, r, logits)
    requires var next := env.sample(logits, r.req.temperature);
             next != env.cfg.eos && r.produced + 1 < r.req.maxTokens
    ensures var r' := r.(next := env.sample(logits, r.req.temperature), pos := r.pos + 1, produced := r.produced + 1);
            RunOk(env, pools, r', r'.pos, r'.pos)
  {
    var job := JobOf(env, r.req);
    var r' := r.(next := env.sample(logits, r.req.temperature), pos := r.pos + 1, produced := r.produced + 1);
    assert r'.next == NextToken(job, r.produced);
    forall l | 0 <= l < env.m.nLayers
      ensures Logs(env.m, env.cfg.g, pools[l], l, r'.blocks, History(env, r'), r'.pos)
    {
      assert Logs(env.m, env.cfg.g, pools[l], l, r.blocks, History(env, r), r.pos + 1);
      assert History(env, r')[..r'.pos] == History(env, r)[..r'.pos];
      RowsCausal(env.m, History(env, r'), History(env, r), l, r'.pos);
    }
  }

  /** Mid-retirement: kept sequences are advanced, the others decoded. */
  ghost predicate Retiring(env: Env, pools: seq<Pool>, w: Sweep, rest: seq<Running>, logits: seq<Vec>)
    requires |pools| == env.m.nLayers && |rest| == |logits|
  {
    && Owned(w.free, Tables(w.kept + rest), env.cfg.g.nb)
    && (forall i :: 0 <= i < |w.kept| ==> RunOk(env, pools, w.kept[i], w.kept[i].pos, w.kept[i].pos))
    && (forall i :: 0 <= i < |rest| ==> Decoded(env, pools, rest[i], logits[i]))
  }

  lemma RetireOneOwned(env: Env, w: Sweep, r: Running, rest: seq<Running>, row: Vec)
    requires Owned(w.free, Tables(w.kept + ([r] + rest)), env.cfg.g.nb)
    ensures Owned(RetireOne(env, w, r, row).free, Tables(RetireOne(env, w, r, row).kept + rest), env.cfg.g.nb)
  {
    hide Owned, Tables;
    var w' := RetireOne(env, w, r, row);
    TablesMiddle(w.kept, r, rest);
    TablesJoin(w.kept, rest);
    if w'.kept == w.kept {
      OwnedDrop(w.free, Tables(w.kept), r.blocks, Tables(rest), env.cfg.g.nb);
    } else {
      var r' := w'.kept[|w.kept|];
      TablesMiddle(w.kept, r', rest);
      assert w.kept + ([r'] + rest) == w'.kept + rest;
    }
  }

  lemma RetireOneKept(env: Env, pools: seq<Pool>, w: Sweep, r: Running, row: Vec)
    requires |pools| == env.m.nLayers && Decoded(env, pools, r, row)
    requires forall i :: 0 <= i < |w.kept| ==> RunOk(env, pools, w.kept[i], w.kept[i].pos, w.kept[i].pos)
    ensures var kept := RetireOne(env, w, r, row).kept;
            forall i :: 0 <= i < |kept| ==> RunOk(env, pools, kept[i], kept[i].pos, kept[i].pos)
  {
    hide RunOk, Decoded;
    if env.sample(row, r.req.temperature) != env.cfg.eos && r.produced + 1 < r.req.maxTokens {
      AdvancedOk(env, pools, r, row);
    }
  }

  lemma RetireOneRetires(env: Env, pools: seq<Pool>, w: Sweep, r: Running, rest: seq<Running>, row: Vec,
                         logits: seq<Vec>)
    requires |pools| == env.m.nLayers && |rest| == |logits|
    requires Retiring(env, pools, w, [r] + rest, [row] + logits)
    ensures Retiring(env, pools, RetireOne(env, w, r, row), rest, logits)
  {
    hide RunOk, Owned, Decoded, Tables, RetireOne;
    assert ([r] + rest)[0] == r && forall i :: 0 <= i < |rest| ==> ([r] + rest)[i + 1] == rest[i];
    assert ([row] + logits)[0] == row && forall i :: 0 <= i < |rest| ==> ([row] + logits)[i + 1] == logits[i];
    RetireOneOwned(env, w, r, rest, row);
    RetireOneKept(env, pools, w, r, row);
  }

  lemma {:induction false} RetireToRetires(env: Env, s: State, logits: seq<Vec>, n: nat)
    requires |s.pools| == env.m.nLayers && n <= |s.running| == |logits|
    requires Retiring(env, s.pools, Sweep(s.free, [], s.sent), s.running, logits)
    ensures Retiring(env, s.pools, RetireTo(env, s, logits, n), s.running[n..], logits[n..])
    decreases n
  {
    hide Retiring, RetireOne;
    if n == 0 {
      assert s.running[0..] == s.running && logits[0..] == logits;
    } else {
      RetireToRetires(env, s, logits, n - 1);
      var r, rest := s.running[n - 1], s.running[n..];
      assert s.running[n - 1..] == [r] + rest;
      assert logits[n - 1..] == [logits[n - 1]] + logits[n..];
      RetireOneRetires(env, s.pools, RetireTo(env, s, logits, n - 1), r, rest, logits[n - 1], logits[n..]);
    }
  }

  /** Aborting gives every block back. */
  lemma {:induction false} AbortToOwned(s: State, why: Failure, n: nat, nb: nat)
    requires n <= |s.running| && Owned(s.free, Tables(s.running), nb)
    ensures Owned(AbortTo(s, why, n).free, Tables(s.running[n..]), nb) && AbortTo(s, why, n).kept == []
    decreases n
  {
    if n == 0 {
      assert s.running[0..] == s.running;
    } else {
      hide Owned, Tables;
      AbortToOwned(s, why, n - 1, nb);
      TailSplit(s.running, n);
      FirstDropped(AbortTo(s, why, n - 1).free, s.running[n - 1], s.running[n..], nb);
    }
  }

  lemma FirstDropped(free: seq<nat>, r: Running, rest: seq<Running>, nb: nat)
    requires Owned(free, Tables([r] + rest), nb)
    ensures Owned(free + r.blocks, Tables(rest), nb)
  {
    hide Owned, Tables;
    TablesMiddle([], r, rest);
    assert [] + ([r] + rest) == [r] + rest;
    NoTables();
    assert [] + Tables(rest) == Tables(rest);
    OwnedDrop(free, [], r.blocks, Tables(rest), nb);
  }

  lemma NoTables()
    ensures Tables([]) == []
  {
  }

  lemma NoStrikeDecode(env: Env, b: Batch, pools: seq<Pool>, fault: Fault)
    requires |pools| == env.m.nLayers && AllShaped(pools, env.cfg.g) && BatchOk(b, env.cfg.g)
    requires !Strikes(fault, env.m.nLayers, |b.tables|)
    ensures DecodePools(env.m, env.cfg.g, b, pools, fault) == DecodePools(env.m, env.cfg.g, b, pools, NoFault)
  {
  }

  /** All the state between eviction and decode. */
  ghost predicate Ready(env: Env, s: State) {
    Fits(env, s) && Roomy(env.cfg, s.running) && Sweeping(env, s.pools, Sweep(s.free, s.running, s.sent), [])
  }

  lemma EvictReady(env: Env, s: State)
    requires Inv(env, s)
    ensures Ready(env, Evict(env.cfg, s))
  {
    var n := |s.running|;
    EvictToSweeps(env, s, n);
    EvictToFits(env, s, n);
    assert s.running[n..] == [];
  }

  lemma DecodeRetiring(env: Env, s: State)
    requires Ready(env, s)
    ensures BatchOk(BatchOf(s.running), env.cfg.g)
    ensures var pools := DecodePools(env.m, env.cfg.g, BatchOf(s.running), s.pools, NoFault);
            Retiring(env, pools, Sweep(s.free, [], s.sent), s.running,
                     DecodeLogits(env.m, env.cfg.g, BatchOf(s.running), s.pools))
  {
    hide RunOk, Owned, Decoded, DecodePools, DecodeLogits, Apart;
    BatchOfOk(env, s.running);
    assert s.running + [] == s.running && [] + s.running == s.running;
    TablesApart(s.free, s.running, env.cfg.g.nb);
    forall i | 0 <= i < |s.running|
      ensures Decoded(env, DecodePools(env.m, env.cfg.g, BatchOf(s.running), s.pools, NoFault), s.running[i],
                      DecodeLogits(env.m, env.cfg.g, BatchOf(s.running), s.pools)[i])
    {
      DecodeRunning(env, s.pools, s.running, i);
    }
  }

  lemma InvFrom(env: Env, s: State)
    requires |s.pools| == env.m.nLayers && AllShaped(s.pools, env.cfg.g)
    requires forall i :: 0 <= i < |s.pending| ==> s.pending[i].req.prompt != []
    requires Owned(s.free, Tables(s.running), env.cfg.g.nb)
    requires forall i :: 0 <= i < |s.running| ==> RunOk(env, s.pools, s.running[i], s.running[i].pos, s.running[i].pos)
    ensures Inv(env, s)
  {
    OwnedBelow(s.free, Tables(s.running), env.cfg.g.nb);
    forall i | 0 <= i < |s.running|
      ensures IdsBelow(s.running[i].blocks, env.cfg.g.nb)
    {
      assert Tables(s.running)[i] == s.running[i].blocks;
    }
  }

  lemma DecodeKeepsInv(env: Env, s: State, fault: Fault, lost: Option<nat>)
    requires Ready(env, s)
    ensures Inv(env, Decode(env, s, fault, lost))
  {
    hide RunOk, Owned, Retiring, DecodePools, DecodeLogits;
    var n := |s.running|;
    var b := BatchOf(s.running);
    var r := Decode(env, s, fault, lost);
    BatchOfOk(env, s.running);
    var s' := s.(pools := DecodePools(env.m, env.cfg.g, b, s.pools, fault));
    assert s.running + [] == s.running && s.running[n..] == [];
    assert Tables(s.running[n..]) == [];
    if Strikes(fault, env.m.nLayers, n) {
      AbortToOwned(s', ForwardFailed, n, env.cfg.g.nb);
      assert Tables(r.running) == [];
    } else if lost.Some? && lost.value < n {
      AbortToOwned(s', RowLost, n, env.cfg.g.nb);
      assert Tables(r.running) == [];
    } else {
      var logits := DecodeLogits(env.m, env.cfg.g, b, s.pools);
      NoStrikeDecode(env, b, s.pools, fault);
      DecodeRetiring(env, s);
      RetireToRetires(env, s', logits, n);
      RetiredAll(env, s'.pools, RetireTo(env, s', logits, n), s.running[n..], logits[n..]);
    }
    InvFrom(env, r);
  }

  lemma RetiredAll(env: Env, pools: seq<Pool>, w: Sweep, rest: seq<Running>, logits: seq<Vec>)
    requires |pools| == env.m.nLayers && rest == [] && logits == []
    requires Retiring(env, pools, w, rest, logits)
    ensures Owned(w.free, Tables(w.kept), env.cfg.g.nb)
    ensures forall i :: 0 <= i < |w.kept| ==> RunOk(env, pools, w.kept[i], w.kept[i].pos, w.kept[i].pos)
  {
    assert w.kept + rest == w.kept;
  }

  // ---------------------------------------------------------------------------------------------------------------
  // The whole turn

  lemma TickKeepsInv(env: Env, s: State, t: Turn)
    requires Inv(env, s) && TurnOk(t)
    ensures Inv(env, Tick(env, s, t))
  {
    hide RunOk, Owned, Prefill, Admit, Evict, Decode;
    assert Inv(env, Arrive(env, s, t));
    AdmitKeepsInv(env, Arrive(env, s, t));
    var s1 := Admit(env, Arrive(env, s, t));
    if s1.running == [] {
      if s1.pending != [] {
        PrefillKeepsInv(env, PopPending(s1), s1.pending[0]);
      }
    } else {
      EvictReady(env, s1);
      var s2 := Evict(env.cfg, s1);
      if s2.running == [] {
        EvictedAllInv(env, s1);
      } else {
        DecodeKeepsInv(env, s2, t.fault, t.lost);
      }
    }
  }

  lemma EvictedAllInv(env: Env, s: State)
    requires Inv(env, s) && Evict(env.cfg, s).running == []
    ensures Inv(env, Evict(env.cfg, s))
  {
    EvictReady(env, s);
    var s2 := Evict(env.cfg, s);
    assert s2.running + [] == s2.running;
  }

  lemma PoppedInv(env: Env, s: State)
    requires Inv(env, s) && s.pending != []
    ensures Inv(env, PopPending(s)) && Fits(env, PopPending(s)) && s.pending[0].req.prompt != []
  {
    hide RunOk, Owned;
  }

  lemma StartInv(env: Env, zero: Vec)
    ensures Inv(env, Start(env, zero))
  {
    DescendingIsAll(env.cfg.g.nb);
    assert Tables([]) == [];
    OwnedBelow(Descending(env.cfg.g.nb), [], env.cfg.g.nb);
  }

  // ---------------------------------------------------------------------------------------------------------------
  // Whole runs

  ghost predicate ScriptOk(script: seq<Turn>) {
    forall i :: 0 <= i < |script| ==> TurnOk(script[i])
  }

  /** The state after a script of turns. */
  ghost function Run(env: Env, zero: Vec, script: seq<Turn>): (s: State)
    requires ScriptOk(script)
    ensures Inv(env, s)
    decreases |script|
  {
    if script == [] then StartInv(env, zero); Start(env, zero)
    else
      var n := |script| - 1;
      TickKeepsInv(env, Run(env, zero, script[..n]), script[n]);
      Tick(env, Run(env, zero, script[..n]), script[n])
  }

  lemma RunStep(env: Env, zero: Vec, script: seq<Turn>)
    requires ScriptOk(script) && script != []
    ensures var n := |script| - 1;
            && ScriptOk(script[..n]) && TurnOk(script[n])
            && Run(env, zero, script) == Tick(env, Run(env, zero, script[..n]), script[n])
  {
    hide Tick, Inv;
  }

  lemma RunStart(env: Env, zero: Vec)
    ensures Run(env, zero, []) == Start(env, zero)
  {
  }

  function AtLeastOne(n: nat): nat {
    if n == 0 then 1 else n
  }

  lemma {:induction false} EvictToShrinks(cfg: Config, s: State, n: nat)
    requires n <= |s.running|
    ensures |EvictTo(cfg, s, n).kept| <= n
  {
    if n > 0 {
      EvictToShrinks(cfg, s, n - 1);
    }
  }

  lemma {:induction false} RetireToShrinks(env: Env, s: State, logits: seq<Vec>, n: nat)
    requires n <= |s.running| == |logits|
    ensures |RetireTo(env, s, logits, n).kept| <= n
  {
    if n > 0 {
      RetireToShrinks(env, s, logits, n - 1);
    }
  }

  lemma DecodeShrinks(env: Env, s: State, fault: Fault, lost: Option<nat>)
    requires Fits(env, s) && Roomy(env.cfg, s.running)
    ensures |Decode(env, s, fault, lost).running| <= |s.running|
  {
    hide DecodePools, DecodeLogits;
    var n, b := |s.running|, BatchOf(s.running);
    BatchOfOk(env, s.running);
    var s' := s.(pools := DecodePools(env.m, env.cfg.g, b, s.pools, fault));
    AbortToEmpties(s', ForwardFailed, n);
    AbortToEmpties(s', RowLost, n);
    RetireToShrinks(env, s', DecodeLogits(env.m, env.cfg.g, b, s.pools), n);
  }

  lemma TickBounded(env: Env, s: State, t: Turn)
    requires Inv(env, s) && TurnOk(t) && |s.running| <= AtLeastOne(env.cfg.maxNumSeqs)
    ensures |Tick(env, s, t).running| <= AtLeastOne(env.cfg.maxNumSeqs)
  {
    hide Prefill, Admit, Decode, RunOk, Owned;
    AdmitKeepsInv(env, Arrive(env, s, t));
    var s1 := Admit(env, Arrive(env, s, t));
    if s1.running != [] {
      EvictReady(env, s1);
      EvictToShrinks(env.cfg, s1, |s1.running|);
      var s2 := Evict(env.cfg, s1);
      if s2.running != [] {
        DecodeShrinks(env, s2, t.fault, t.lost);
      }
    }
  }

  /** The whole-run storage theorem: after any script of arrivals and device failures, at most `max(1, max_num_seqs)`
      sequences run; each sits at position `prompt + produced - 1 <= max_seq` with exactly the blocks that position
      needs, all layers of its table holding its own causal rows; and every block of the pool is in the free list or in
      one running table, exactly once - so every way out has returned its blocks. */
  lemma {:induction false} RunStorage(env: Env, zero: Vec, script: seq<Turn>)
    requires ScriptOk(script)
    ensures var s := Run(env, zero, script);
            && |s.running| <= (if env.cfg.maxNumSeqs == 0 then 1 else env.cfg.maxNumSeqs)
            && Owned(s.free, Tables(s.running), env.cfg.g.nb)
            && forall i :: 0 <= i < |s.running| ==>
                 var r := s.running[i];
                 && r.pos == |r.req.prompt| + r.produced - 1
                 && r.pos <= env.cfg.maxSeq
                 && |r.blocks| == BlocksFor(r.pos, env.cfg.g.bs)
                 && forall l :: 0 <= l < env.m.nLayers ==>
                      r.req.prompt != [] &&
                      Logs(env.m, env.cfg.g, s.pools[l], l, r.blocks, History(env, r), r.pos)
    decreases |script|
  {
    if script != [] {
      var n := |script| - 1;
      RunStorage(env, zero, script[..n]);
      TickBounded(env, Run(env, zero, script[..n]), script[n]);
    }
    var s := Run(env, zero, script);
    forall i | 0 <= i < |s.running|
      ensures RunOk(env, s.pools, s.running[i], s.running[i].pos, s.running[i].pos)
    {
    }
  }
}
