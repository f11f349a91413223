/**
 The paged engine as the source writes it: objects updated in place by `run_loop`. Each method is proved to take
 exactly the step of `Scheduler` that its name says, so everything proved about runs of the state machine holds of it.
 */
module PagedEngine {
  import opened Causal
  import opened Basics
  import opened BlockTables
  import opened Attention
  import opened Transformers
  import opened Scheduler

  /** A running sequence; `req` carries the limits and the channel id. */
  class Seq {
    const req: Request
    const table: BlockTable
    var next: nat
    var pos: nat
    var produced: nat

    constructor (req: Request, table: BlockTable, next: nat, pos: nat, produced: nat)
      ensures this.req == req && this.table == table
      ensures this.next == next && this.pos == pos && this.produced == produced
    {
      this.req, this.table, this.next, this.pos, this.produced := req, table, next, pos, produced;
    }

    ghost function View(): Running
      reads this, table
    {
      Running(req, table.blocks, next, pos, produced)
    }
  }

  ghost function TablesOf(rs: seq<Seq>): set<BlockTable> {
    set i | 0 <= i < |rs| :: rs[i].table
  }

  ghost function Views(rs: seq<Seq>): (r: seq<Running>)
    reads rs, TablesOf(rs)
    ensures |r| == |rs|
  {
    seq(|rs|, i requires 0 <= i < |rs| reads rs, TablesOf(rs) => rs[i].View())
  }

  lemma ViewsMore(rs: seq<Seq>, s: Seq)
    ensures Views(rs + [s]) == Views(rs) + [s.View()]
  {
  }

  /** No two sequences are one object or share a table object. */
  ghost predicate Separate(rs: seq<Seq>) {
    forall i, j :: 0 <= i < j < |rs| ==> rs[i] != rs[j] && rs[i].table != rs[j].table
  }

  lemma EvictOnePrefix(cfg: Config, w: Sweep, r: Running)
    ensures var one := EvictOne(cfg, w.(kept := []), r);
            EvictOne(cfg, w, r) == one.(kept := w.kept + one.kept)
  {
    assert w.kept + [] == w.kept;
  }

  lemma RetireOnePrefix(env: Env, w: Sweep, r: Running, logits: Vec)
    ensures var one := RetireOne(env, w.(kept := []), r, logits);
            RetireOne(env, w, r, logits) == one.(kept := w.kept + one.kept)
  {
    assert w.kept + [] == w.kept;
  }

  class Engine {
    const model: Transformer
    const sample: (Vec, real) -> nat
    const cfg: Config
    const kv: seq<KvPool>
    const alloc: BlockAllocator
    var running: seq<Seq>
    var queue: seq<Arrival>
    var sent: seq<Sent>

    ghost function E(): Env {
      Env(model.m, sample, cfg)
    }

    ghost function Abs(): State
      reads this, alloc, kv, running, TablesOf(running)
    {
      State(alloc.free, Values(kv), Views(running), queue, sent)
    }

    ghost predicate Valid()
      reads this, alloc, kv, running, TablesOf(running)
    {
      && StoreOk(kv, model.m.nLayers, cfg.g) && alloc.blockSize == cfg.g.bs
      && Separate(running)
      && Fits(E(), Abs())
    }

    constructor (model: Transformer, sample: (Vec, real) -> nat, cfg: Config)
      ensures this.model == model && this.sample == sample && this.cfg == cfg
      ensures Valid() && Abs() == Start(E(), model.zero)
      ensures fresh(alloc) && fresh(kv) && running == []
    {
      this.model, this.sample, this.cfg := model, sample, cfg;
      var pools := NewStore(model.m.nLayers, cfg.g, model.zero);
      kv := pools;
      alloc := new BlockAllocator(cfg.g.nb, cfg.g.bs);
      running, queue, sent := [], [], [];
      new;
      assert Values(kv) == Start(E(), model.zero).pools;
    }

    static method NewStore(nLayers: nat, g: Geometry, zero: Vec) returns (kv: seq<KvPool>)
      ensures StoreOk(kv, nLayers, g) && fresh(kv)
      ensures forall i :: 0 <= i < |kv| ==> kv[i].Value() == EmptyPool(g, zero)
    {
      kv := [];
      for i := 0 to nLayers
        invariant |kv| == i && fresh(kv)
        invariant forall a, b :: 0 <= a < b < |kv| ==> kv[a] != kv[b]
        invariant forall a :: 0 <= a < |kv| ==> kv[a].g == g && kv[a].Valid() && kv[a].Value() == EmptyPool(g, zero)
      {
        var pool := new KvPool(g.nb, g.bs, zero);
        kv := kv + [pool];
      }
    }

    /** The part of `prefill` after the table has been allocated. */
    method Forward(a: Arrival, table: BlockTable) returns (s: Seq?)
      requires StoreOk(kv, model.m.nLayers, cfg.g) && alloc.blockSize == cfg.g.bs
      requires AllShaped(Values(kv), cfg.g) && IdsBelow(alloc.free, cfg.g.nb)
      requires a.req.prompt != [] && Covers(table.blocks, cfg.g, |a.req.prompt|)
      modifies this`sent, alloc, kv, table
      ensures StoreOk(kv, model.m.nLayers, cfg.g)
      ensures Admission(alloc.free, Values(kv), sent, if s == null then None else Some(s.View()))
           == Forwarded(E(), old(alloc.free), old(table.blocks), old(Values(kv)), old(sent), a)
      ensures s != null ==> fresh(s) && s.table == table
    {
      hide PrefillPools, Covers, Logits, AllShaped, Strikes, IdsBelow;
      var req := a.req;
      var logits := model.PrefillSeq(req.prompt, table, kv, alloc, a.fault, cfg.g);
      if logits.None? {
        sent := Post(sent, req.id, Error(PrefillFailed));
        alloc.Release(table);
        return null;
      }
      if a.rowLost {
        sent := Post(sent, req.id, Error(PrefillRowLost));
        alloc.Release(table);
        return null;
      }
      var next := sample(logits.value, req.temperature);
      sent := Post(sent, req.id, Token(next));
      s := new Seq(req, table, next, |req.prompt|, 1);
    }

    /** `prefill`: a running sequence, or nothing and a message saying why. */
    method TryPrefill(a: Arrival) returns (s: Seq?)
      requires StoreOk(kv, model.m.nLayers, cfg.g) && alloc.blockSize == cfg.g.bs
      requires AllShaped(Values(kv), cfg.g) && IdsBelow(alloc.free, cfg.g.nb) && a.req.prompt != []
      modifies this`sent, alloc, kv
      ensures StoreOk(kv, model.m.nLayers, cfg.g)
      ensures Admission(alloc.free, Values(kv), sent, if s == null then None else Some(s.View()))
           == Prefilled(E(), old(alloc.free), old(Values(kv)), old(sent), a)
      ensures s != null ==> fresh(s) && fresh(s.table)
    {
      hide Forwarded, Covers;
      var req := a.req;
      if req.maxTokens == 0 {
        return null;
      }
      if |req.prompt| > cfg.maxSeq {
        sent := Post(sent, req.id, Error(PromptTooLong));
        return null;
      }
      var table := new BlockTable();
      var ok := alloc.EnsureCapacity(table, |req.prompt|);
      if !ok {
        sent := Post(sent, req.id, Error(ExhaustedAtAdmission));
        return null;
      }
      GrowInRange(old(alloc.free), [], BlocksFor(|req.prompt|, cfg.g.bs), cfg.g.nb);
      CoversOf(table.blocks, cfg.g, |req.prompt|);
      s := Forward(a, table);
    }

    /** `prefill`, then push if it yields a sequence. */
    method Prefill(a: Arrival)
      requires Valid() && a.req.prompt != []
      modifies this`running, this`sent, alloc, kv
      ensures Valid() && Abs() == Scheduler.Prefill(E(), old(Abs()), a)
      ensures forall s :: s in running && s !in old(running) ==> fresh(s) && fresh(s.table)
    {
      hide Prefilled, AllShaped;
      var s := TryPrefill(a);
      assert Views(running) == old(Views(running));
      if s != null {
        ghost var before := running;
        running := running + [s];
        assert Separate(running) by { SeparateGrows(before, s); }
        assert Views(running) == old(Views(running)) + [s.View()];
      }
      assert Abs() == Scheduler.Prefill(E(), old(Abs()), a);
    }

    /** The polling loop. */
    method Poll()
      requires Valid()
      modifies this`running, this`queue, this`sent, alloc, kv
      ensures Valid() && Abs() == Admit(E(), old(Abs()))
      ensures forall s :: s in running && s !in old(running) ==> fresh(s) && fresh(s.table)
    {
      hide Scheduler.Prefill;
      while |running| < cfg.maxNumSeqs && queue != []
        invariant Valid() && Admit(E(), Abs()) == Admit(E(), old(Abs()))
        invariant forall s :: s in running && s !in old(running) ==> fresh(s) && fresh(s.table)
        decreases |queue|
      {
        var a := queue[0];
        ghost var before := Abs();
        queue := queue[1..];
        assert Abs() == PopPending(before);
        Prefill(a);
      }
    }

    /** One sequence of the capacity sweep. */
    method EvictStep(s: Seq) returns (keep: bool)
      requires alloc.blockSize == cfg.g.bs
      modifies this`sent, alloc, s.table
      ensures Sweep(alloc.free, if keep then [s.View()] else [], sent)
           == EvictOne(cfg, Sweep(old(alloc.free), [], old(sent)), old(s.View()))
    {
      hide Grow;
      if s.pos + 1 > cfg.maxSeq {
        sent := Post(sent, s.req.id, Error(ContextExceeded));
        alloc.Release(s.table);
        return false;
      }
      ghost var free, blocks := alloc.free, s.table.blocks;
      keep := alloc.EnsureCapacity(s.table, s.pos + 1);
      FailureKeeps(free, blocks, BlocksFor(s.pos + 1, cfg.g.bs));
      if !keep {
        sent := Post(sent, s.req.id, Error(CacheExhausted));
        alloc.Release(s.table);
      }
    }

    /** The loop of the capacity sweep. */
    method Sweep1(rs: seq<Seq>, ghost s0: State) returns (survivors: seq<Seq>)
      requires alloc.blockSize == cfg.g.bs && Separate(rs)
      requires s0.free == alloc.free && s0.running == Views(rs) && s0.sent == sent
      modifies this`sent, alloc, TablesOf(rs)
      ensures Sweep(alloc.free, Views(survivors), sent) == EvictTo(cfg, s0, |rs|)
      ensures Separate(survivors) && forall s :: s in survivors ==> s in rs
    {
      hide EvictOne, BlocksFor, Drawn, Separate;
      survivors := [];
      ghost var from: seq<nat> := [];
      DrawnNone(rs);
      var n := 0;
      while n < |rs|
        invariant 0 <= n <= |rs| && Drawn(survivors, rs, from, n)
        invariant Sweep(alloc.free, Views(survivors), sent) == EvictTo(cfg, s0, n)
        invariant forall i :: n <= i < |rs| ==> rs[i].View() == s0.running[i]
      {
        var s := rs[n];
        ghost var w, kept := EvictTo(cfg, s0, n), Views(survivors);
        var keep := EvictStep(s);
        DrawnApart(survivors, rs, from, n);
        assert Views(survivors) == kept;
        EvictOnePrefix(cfg, w, s0.running[n]);
        if keep {
          DrawnMore(survivors, rs, from, n);
          ViewsMore(survivors, s);
          survivors, from := survivors + [s], from + [n];
        } else {
          DrawnSkip(survivors, rs, from, n);
        }
        n := n + 1;
      }
      DrawnSeparate(survivors, rs, from, n);
    }

    /** The capacity sweep. */
    method EvictAll()
      requires Valid()
      modifies this`running, this`sent, alloc, TablesOf(running)
      ensures Valid() && Abs() == Evict(cfg, old(Abs())) && Roomy(cfg, Views(running))
      ensures forall s :: s in running ==> s in old(running)
    {
      hide EvictOne, AllShaped, BlocksFor, Separate, Covers;
      ghost var s0 := Abs();
      var survivors := Sweep1(running, s0);
      running := survivors;
      assert Values(kv) == s0.pools;
      assert Abs() == Evict(cfg, s0);
      EvictToFits(E(), s0, |s0.running|);
    }

    /** One sequence after a decode step. */
    method RetireStep(s: Seq, row: Vec) returns (keep: bool)
      modifies this`sent, alloc, s, s.table
      ensures Sweep(alloc.free, if keep then [s.View()] else [], sent)
           == RetireOne(E(), Sweep(old(alloc.free), [], old(sent)), old(s.View()), row)
    {
      var next := sample(row, s.req.temperature);
      s.pos := s.pos + 1;
      s.produced := s.produced + 1;
      var eos := next == cfg.eos;
      var atLimit := s.produced >= s.req.maxTokens;
      if !eos {
        sent := Post(sent, s.req.id, Token(next));
      }
      if eos || atLimit {
        alloc.Release(s.table);
        keep := false;
      } else {
        s.next := next;
        keep := true;
      }
    }

    /** The bookkeeping loop after a decode step. */
    method RetireAll(rs: seq<Seq>, rows: seq<Vec>, ghost s0: State) returns (kept: seq<Seq>)
      requires Separate(rs) && |rows| == |rs|
      requires s0.free == alloc.free && s0.running == Views(rs) && s0.sent == sent
      modifies this`sent, alloc, rs, TablesOf(rs)
      ensures Sweep(alloc.free, Views(kept), sent) == RetireTo(E(), s0, rows, |rs|)
      ensures Separate(kept) && forall s :: s in kept ==> s in rs
    {
      hide RetireOne, Drawn, Separate;
      kept := [];
      ghost var from: seq<nat> := [];
      DrawnNone(rs);
      var n := 0;
      while n < |rs|
        invariant 0 <= n <= |rs| && Drawn(kept, rs, from, n)
        invariant Sweep(alloc.free, Views(kept), sent) == RetireTo(E(), s0, rows, n)
        invariant forall i :: n <= i < |rs| ==> rs[i].View() == s0.running[i]
      {
        var s := rs[n];
        ghost var w, views := RetireTo(E(), s0, rows, n), Views(kept);
        var keep := RetireStep(s, rows[n]);
        DrawnApart(kept, rs, from, n);
        assert Views(kept) == views;
        RetireOnePrefix(E(), w, s0.running[n], rows[n]);
        if keep {
          DrawnMore(kept, rs, from, n);
          ViewsMore(kept, s);
          kept, from := kept + [s], from + [n];
        } else {
          DrawnSkip(kept, rs, from, n);
        }
        n := n + 1;
      }
      DrawnSeparate(kept, rs, from, n);
    }

    method ReleaseAll(rs: seq<Seq>, ghost s0: State, ghost why: Failure)
      requires Separate(rs) && s0.free == alloc.free && s0.running == Views(rs)
      modifies alloc, TablesOf(rs)
      ensures alloc.free == AbortTo(s0, why, |rs|).free
    {
      hide Separate;
      for i := 0 to |rs|
        invariant alloc.free == AbortTo(s0, why, i).free
        invariant forall k :: i <= k < |rs| ==> rs[k].View() == s0.running[k]
      {
        alloc.Release(rs[i].table);
        TablesAfter(rs, i);
      }
    }

    /** A failed step: tell every sequence, then give every block back. */
    method Abort(why: Failure)
      requires Separate(running)
      modifies this`running, this`sent, alloc, TablesOf(running)
      ensures running == []
      ensures var w := AbortTo(old(Abs()), why, |old(running)|); alloc.free == w.free && sent == w.sent
    {
      hide Separate;
      ghost var s0 := Abs();
      for i := 0 to |running|
        modifies this`sent
        invariant sent == AbortTo(s0, why, i).sent
      {
        sent := Post(sent, running[i].req.id, Error(why));
      }
      ReleaseAll(running, s0, why);
      running := [];
    }

    /** Batch the running sequences and decode one token for each. */
    method DecodeBatch(fault: Fault) returns (logits: Option<seq<Vec>>)
      requires Valid() && running != [] && Roomy(cfg, Views(running))
      modifies kv
      ensures StoreOk(kv, model.m.nLayers, cfg.g)
      ensures Views(running) == old(Views(running))
      ensures BatchOk(BatchOf(Views(running)), cfg.g)
      ensures Values(kv) == DecodePools(model.m, cfg.g, BatchOf(Views(running)), old(Values(kv)), fault)
      ensures logits == if Strikes(fault, model.m.nLayers, |running|) then None
                        else Some(DecodeLogits(model.m, cfg.g, BatchOf(Views(running)), old(Values(kv))))
    {
      hide DecodePools, DecodeLogits, Covers, Separate, AllShaped, Strikes, IdsBelow;
      var rs := running;
      var n := |rs|;
      var tokenIds := seq(n, i requires 0 <= i < n reads rs => rs[i].next);
      var positions := seq(n, i requires 0 <= i < n reads rs => rs[i].pos);
      var tables := seq(n, i requires 0 <= i < n => rs[i].table);
      ghost var b := BatchOf(Views(rs));
      assert Blocks(tables) == b.tables && tokenIds == b.toks && positions == b.poss;
      logits := model.DecodeStep(tokenIds, positions, positions, kv, alloc, tables, fault, cfg.g, b);
      assert Views(rs) == old(Views(rs));
    }

    /** The books after a decode step: everyone hears of a failure, or each row gets its token. */
    method KeepBooks(logits: Option<seq<Vec>>, lost: Option<nat>, ghost s1: State)
      requires Separate(running) && Abs() == s1 && (logits.Some? ==> |logits.value| == |running|)
      modifies this`running, this`sent, alloc, running, TablesOf(running)
      ensures Separate(running) && Abs() == Booked(E(), s1, logits, lost)
      ensures forall s :: s in running ==> s in old(running)
    {
      hide Separate, RetireTo, AbortTo, IdsBelow, Shaped;
      var rs := running;
      var n := |rs|;
      if logits.None? {
        Abort(ForwardFailed);
        AbortToEmpties(s1, ForwardFailed, n);
        SeparateNone();
      } else if lost.Some? && lost.value < n {
        Abort(RowLost);
        AbortToEmpties(s1, RowLost, n);
        SeparateNone();
      } else {
        var kept := RetireAll(rs, logits.value, s1);
        running := kept;
      }
    }

    /** Decode, then keep the books of the batch. */
    method DecodeRound(fault: Fault, lost: Option<nat>)
      requires Valid() && running != [] && Roomy(cfg, Views(running))
      modifies this`running, this`sent, alloc, kv, running, TablesOf(running)
      ensures Valid() && Abs() == Decode(E(), old(Abs()), fault, lost)
      ensures forall s :: s in running ==> s in old(running)
    {
      hide DecodePools, DecodeLogits, Roomy, Separate, Strikes, Fits, Booked, Decode;
      ghost var s0 := Abs();
      DecodeFits(E(), s0, fault, lost);
      DecodeIsBooked(E(), s0, fault, lost);
      var logits := DecodeBatch(fault);
      ghost var s1 := Abs();
      assert s1 == s0.(pools := s1.pools);
      KeepBooks(logits, lost, s1);
    }

    /** The part of a turn that has sequences to run. */
    method Round(fault: Fault, lost: Option<nat>)
      requires Valid() && running != []
      modifies this`running, this`sent, alloc, kv, running, TablesOf(running)
      ensures Valid()
      ensures var s2 := Evict(cfg, old(Abs()));
              && Fits(E(), s2) && Roomy(cfg, s2.running)
              && Abs() == if s2.running == [] then s2 else Decode(E(), s2, fault, lost)
      ensures forall s :: s in running ==> s in old(running)
    {
      hide Evict, Decode, Separate, Roomy, Fits, StoreOk;
      EvictAll();
      if running != [] {
        TablesWithin(running, old(running));
        assert forall i :: 0 <= i < |running| ==> running[i] in old(running);
        assert forall x :: x in TablesOf(running) ==> x in TablesOf(old(running));
        DecodeRound(fault, lost);
      }
    }

    /** One turn of `run_loop`. */
    method Turn(t: Scheduler.Turn)
      requires Valid() && TurnOk(t)
      modifies this`running, this`queue, this`sent, alloc, kv, running, TablesOf(running)
      ensures Valid() && Abs() == Tick(E(), old(Abs()), t)
      ensures forall s :: s in running && s !in old(running) ==> fresh(s) && fresh(s.table)
    {
      hide Scheduler.Prefill, Admit, Evict, Decode, Separate, Roomy, Fits, StoreOk;
      ghost var s0 := Abs();
      queue := queue + t.arrivals;
      ArriveFits(E(), s0, t);
      assert Abs() == Arrive(E(), s0, t);
      Poll();
      if running == [] {
        // blocking receive
        if queue != [] {
          var a := queue[0];
          ghost var s1 := Abs();
          queue := queue[1..];
          PopFits(E(), s1);
          assert Abs() == PopPending(s1);
          Prefill(a);
        }
      } else {
        forall table | table in TablesOf(running)
          ensures fresh(table) || table in old(TablesOf(running))
        {
          var i :| 0 <= i < |running| && running[i].table == table;
          if running[i] in old(running) {
            TablesWithin([running[i]], old(running));
            assert [running[i]][0].table == table;
          }
        }
        assert forall i :: 0 <= i < |running| ==> running[i] in old(running) || fresh(running[i]);
        assert forall x :: x in TablesOf(running) ==> x in TablesOf(old(running)) || fresh(x);
        Round(t.fault, t.lost);
      }
    }
  }

  lemma TablesWithin(rs: seq<Seq>, all: seq<Seq>)
    requires forall s :: s in rs ==> s in all
    ensures TablesOf(rs) <= TablesOf(all)
  {
    forall i | 0 <= i < |rs|
      ensures rs[i].table in TablesOf(all)
    {
      assert rs[i] in rs;
      var j :| 0 <= j < |all| && all[j] == rs[i];
    }
  }

  ghost function Booked(env: Env, s: State, logits: Option<seq<Vec>>, lost: Option<nat>): State
    requires logits.Some? ==> |logits.value| == |s.running|
  {
    var n := |s.running|;
    if logits.None? then Settle(s, AbortTo(s, ForwardFailed, n))
    else if lost.Some? && lost.value < n then Settle(s, AbortTo(s, RowLost, n))
    else Settle(s, RetireTo(env, s, logits.value, n))
  }

  lemma DecodeIsBooked(env: Env, s: State, fault: Fault, lost: Option<nat>)
    requires Fits(env, s) && Roomy(env.cfg, s.running)
    ensures var (b, n) := (BatchOf(s.running), |s.running|);
            var logits := if Strikes(fault, env.m.nLayers, n) then None
                          else Some(DecodeLogits(env.m, env.cfg.g, b, s.pools));
            Decode(env, s, fault, lost)
            == Booked(env, s.(pools := DecodePools(env.m, env.cfg.g, b, s.pools, fault)), logits, lost)
  {
    hide DecodePools, DecodeLogits, RetireTo, AbortTo, Strikes;
  }

  lemma SeparateNone()
    ensures Separate([])
  {
  }

  lemma ArriveFits(env: Env, s: State, t: Scheduler.Turn)
    requires Fits(env, s) && TurnOk(t)
    ensures Fits(env, s.(pending := s.pending + t.arrivals))
  {
  }

  lemma TablesAfter(rs: seq<Seq>, n: nat)
    requires Separate(rs) && n < |rs|
    ensures forall i :: n < i < |rs| ==> rs[i] != rs[n] && rs[i].table != rs[n].table
  {
  }

  lemma FailureKeeps(free: seq<nat>, blocks: seq<nat>, need: nat)
    ensures var g := Grow(free, blocks, need); !g.ok ==> g.free == free && g.blocks == blocks
  {
  }

  /** `kept` are the sequences of `rs` at the increasing indices `from`, all below `n`. */
  ghost predicate Drawn(kept: seq<Seq>, rs: seq<Seq>, from: seq<nat>, n: nat) {
    && |from| == |kept| && n <= |rs|
    && (forall k :: 0 <= k < |from| ==> from[k] < n && kept[k] == rs[from[k]])
    && (forall j, k :: 0 <= j < k < |from| ==> from[j] < from[k])
  }

  lemma DrawnNone(rs: seq<Seq>)
    ensures Drawn([], rs, [], 0)
  {
  }

  lemma DrawnApart(kept: seq<Seq>, rs: seq<Seq>, from: seq<nat>, n: nat)
    requires Drawn(kept, rs, from, n) && Separate(rs) && n < |rs|
    ensures forall k :: 0 <= k < |kept| ==> kept[k] != rs[n] && kept[k].table != rs[n].table
    ensures forall i :: n < i < |rs| ==> rs[i] != rs[n] && rs[i].table != rs[n].table
  {
    forall k | 0 <= k < |kept|
      ensures kept[k] != rs[n] && kept[k].table != rs[n].table
    {
      assert from[k] < n && kept[k] == rs[from[k]];
    }
  }

  lemma DrawnMore(kept: seq<Seq>, rs: seq<Seq>, from: seq<nat>, n: nat)
    requires Drawn(kept, rs, from, n) && n < |rs|
    ensures Drawn(kept + [rs[n]], rs, from + [n], n + 1)
  {
  }

  lemma DrawnSkip(kept: seq<Seq>, rs: seq<Seq>, from: seq<nat>, n: nat)
    requires Drawn(kept, rs, from, n) && n < |rs|
    ensures Drawn(kept, rs, from, n + 1)
  {
  }

  lemma DrawnSeparate(kept: seq<Seq>, rs: seq<Seq>, from: seq<nat>, n: nat)
    requires Drawn(kept, rs, from, n) && Separate(rs)
    ensures Separate(kept) && forall s :: s in kept ==> s in rs
  {
    forall j, k | 0 <= j < k < |kept|
      ensures kept[j] != kept[k] && kept[j].table != kept[k].table
    {
      assert from[j] < from[k] && kept[j] == rs[from[j]] && kept[k] == rs[from[k]];
    }
  }

  lemma SeparateGrows(rs: seq<Seq>, s: Seq)
    requires Separate(rs) && s !in rs && s.table !in TablesOf(rs)
    ensures Separate(rs + [s])
  {
    forall i | 0 <= i < |rs|
      ensures rs[i] != s && rs[i].table != s.table
    {
    }
  }
}
