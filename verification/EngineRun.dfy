/** `run_loop` from start to disconnect: the engine object driven by a script of turns, then by a closed queue. */
module EngineRun {
  import opened Causal
  import opened Basics
  import opened Transformers
  import opened Scheduler
  import opened SchedulerStorage
  import opened SchedulerStreams
  import opened SchedulerProgress
  import PagedEngine

  /** What the device does in one decode step. */
  datatype Device = Device(fault: Fault, lost: Option<nat>)

  /** `n` turns with the queue closed: nothing arrives any more. */
  function Closing(device: nat -> Device, n: nat): (turns: seq<Turn>)
    ensures |turns| == n && forall i :: 0 <= i < n ==> turns[i].arrivals == []
  {
    seq(n, i requires 0 <= i => Turn([], device(i).fault, device(i).lost))
  }

  /** The engine is as the state machine leaves it after `script`. */
  ghost predicate At(e: PagedEngine.Engine, env: Env, zero: Vec, script: seq<Turn>)
    reads e, e.alloc, e.kv, e.running, PagedEngine.TablesOf(e.running)
  {
    e.Valid() && e.E() == env && ScriptOk(script) && e.Abs() == Run(env, zero, script)
  }

  lemma AtRun(e: PagedEngine.Engine, env: Env, zero: Vec, script: seq<Turn>)
    requires At(e, env, zero, script)
    ensures ScriptOk(script) && e.sent == Run(env, zero, script).sent && e.queue == Run(env, zero, script).pending
    ensures e.running == [] <==> Run(env, zero, script).running == []
  {
    hide Run, Inv, Fits;
  }

  /** `mine` holds the objects of the engine. */
  ghost predicate Owns(e: PagedEngine.Engine, mine: set<object>)
    reads e
  {
    && e in mine && e.alloc in mine && (forall k :: 0 <= k < |e.kv| ==> e.kv[k] in mine)
    && (forall i :: 0 <= i < |e.running| ==> e.running[i] in mine && e.running[i].table in mine)
  }

  method NewEngine(model: Transformer, sample: (Vec, real) -> nat, cfg: Config)
    returns (e: PagedEngine.Engine, ghost mine: set<object>)
    ensures At(e, Env(model.m, sample, cfg), model.zero, []) && Owns(e, mine) && fresh(mine)
  {
    hide Inv, Fits, Start;
    e := new PagedEngine.Engine(model, sample, cfg);
    RunStart(Env(model.m, sample, cfg), model.zero);
    mine := {e, e.alloc} + set k | 0 <= k < |e.kv| :: e.kv[k];
  }

  /** One turn. */
  method Move(e: PagedEngine.Engine, t: Turn, ghost mine: set<object>, ghost env: Env, ghost zero: Vec,
              ghost script: seq<Turn>) returns (ghost more: set<object>)
    requires At(e, env, zero, script) && TurnOk(t) && Owns(e, mine)
    modifies mine
    ensures At(e, env, zero, script + [t]) && Owns(e, more) && fresh(more - mine)
  {
    hide Inv, Tick, Fits;
    assert (script + [t])[..|script|] == script;
    assert forall x :: x in PagedEngine.TablesOf(e.running) ==> x in mine;
    e.Turn(t);
    more := mine + (set i | 0 <= i < |e.running| :: e.running[i])
            + set i | 0 <= i < |e.running| :: e.running[i].table;
  }

  /** The work left after `n` closing turns. */
  ghost function Left(env: Env, zero: Vec, script: seq<Turn>, device: nat -> Device, n: nat): nat
    requires ScriptOk(script)
  {
    ClosingOk(script, device, n);
    Work(Run(env, zero, script + Closing(device, n)))
  }

  lemma ClosingOk(script: seq<Turn>, device: nat -> Device, n: nat)
    requires ScriptOk(script)
    ensures ScriptOk(script + Closing(device, n))
  {
  }

  lemma NoneClosing(script: seq<Turn>, device: nat -> Device)
    ensures script[..|script|] == script == script + Closing(device, 0)
  {
  }

  /** A closing turn with something queued or running works some of it off. */
  lemma OneMore(env: Env, zero: Vec, script: seq<Turn>, device: nat -> Device, n: nat)
    requires ScriptOk(script) && ScriptOk(script + Closing(device, n))
    requires var s := Run(env, zero, script + Closing(device, n)); s.pending != [] || s.running != []
    ensures var t := Turn([], device(n).fault, device(n).lost);
            TurnOk(t) && script + Closing(device, n + 1) == script + Closing(device, n) + [t]
    ensures Left(env, zero, script, device, n + 1) < Left(env, zero, script, device, n)
  {
    hide Run, Inv, Tick;
    var (now, next) := (script + Closing(device, n), script + Closing(device, n + 1));
    assert next[..|next| - 1] == now;
    ClosingOk(script, device, n + 1);
    RunStep(env, zero, next);
    RunningWorkAtLeast(Run(env, zero, now).running);
    TickWorks(env, Run(env, zero, now), next[|next| - 1]);
  }

  /** What a run of the loop has delivered when it returns after `n` closing turns: no more of them than the work its
      arrivals brought; what the state machine sends, down to an empty queue and batch; and to every request that ever
      arrived its whole generation, or a prefix of it and one error it had cause to get. */
  ghost predicate Delivered(env: Env, zero: Vec, script: seq<Turn>, device: nat -> Device, n: nat, sent: seq<Sent>) {
    && n <= WaitingWork(ArrivalsOf(script)) && ScriptOk(script + Closing(device, n))
    && (var s := Run(env, zero, script + Closing(device, n)); sent == s.sent && s.pending == [] && s.running == [])
    && (DistinctArrivals(ArrivalsOf(script)) && AllPrompted(ArrivalsOf(script)) ==>
          forall a :: a in ArrivalsOf(script) ==> Done(env, a.req, Stream(sent, a.req.id)))
  }

  /** The loop runs while clients are connected, one turn of `script` after the other, and then until nothing is queued
      or running. It always returns, having delivered. */
  method RunLoop(model: Transformer, sample: (Vec, real) -> nat, cfg: Config, script: seq<Turn>,
                 device: nat -> Device) returns (sent: seq<Sent>, n: nat)
    requires ScriptOk(script)
    ensures Delivered(Env(model.m, sample, cfg), model.zero, script, device, n, sent)
  {
    hide At, Owns, Left, Run, Delivered, Closing;
    ghost var (env, zero) := (Env(model.m, sample, cfg), model.zero);
    var e;
    ghost var mine;
    e, mine := NewEngine(model, sample, cfg);
    for i := 0 to |script|
      invariant At(e, env, zero, script[..i]) && Owns(e, mine) && fresh(mine)
    {
      assert script[..i + 1] == script[..i] + [script[i]];
      mine := Move(e, script[i], mine, env, zero, script[..i]);
    }
    n := 0;
    NoneClosing(script, device);
    while e.queue != [] || e.running != []
      invariant At(e, env, zero, script + Closing(device, n)) && Owns(e, mine) && fresh(mine)
      invariant Left(env, zero, script, device, n) + n <= Left(env, zero, script, device, 0)
      decreases Left(env, zero, script, device, n)
    {
      AtRun(e, env, zero, script + Closing(device, n));
      OneMore(env, zero, script, device, n);
      mine := Move(e, Turn([], device(n).fault, device(n).lost), mine, env, zero, script + Closing(device, n));
      n := n + 1;
    }
    sent := e.sent;
    AtRun(e, env, zero, script + Closing(device, n));
    AllDelivered(env, zero, script, device, n);
  }

  lemma {:induction false} NoneArrive(script: seq<Turn>, device: nat -> Device, n: nat)
    ensures ArrivalsOf(script + Closing(device, n)) == ArrivalsOf(script)
    decreases n
  {
    var turns := script + Closing(device, n);
    if n == 0 {
      assert turns == script;
    } else {
      assert turns[..|turns| - 1] == script + Closing(device, n - 1);
      NoneArrive(script, device, n - 1);
    }
  }

  lemma AllDelivered(env: Env, zero: Vec, script: seq<Turn>, device: nat -> Device, n: nat)
    requires ScriptOk(script) && ScriptOk(script + Closing(device, n)) && n <= Left(env, zero, script, device, 0)
    requires var s := Run(env, zero, script + Closing(device, n)); s.pending == [] && s.running == []
    ensures Delivered(env, zero, script, device, n, Run(env, zero, script + Closing(device, n)).sent)
  {
    hide Inv, Done, Run, Streaming, Stream, Work;
    assert script + Closing(device, 0) == script;
    RunWork(env, zero, script);
    NoneArrive(script, device, n);
    if DistinctArrivals(ArrivalsOf(script)) && AllPrompted(ArrivalsOf(script)) {
      forall a | a in ArrivalsOf(script)
        ensures Done(env, a.req, Stream(Run(env, zero, script + Closing(device, n)).sent, a.req.id))
      {
        EveryRequestServed(env, zero, script + Closing(device, n), a);
      }
    }
  }
}
