/**
 What every request receives, over whole runs of the scheduler: each message, each error with its cause, and batch
 independence.
 */
module SchedulerStreams {
  import opened Causal
  import opened Basics
  import opened BlockTables
  import opened Attention
  import opened Transformers
  import opened Scheduler
  import opened Generation
  import opened SchedulerStorage

  /** The messages sent on one request's channel. */
  function Stream(sent: seq<Sent>, id: nat): seq<Msg> {
    if sent == [] then []
    else
      var n := |sent| - 1;
      Stream(sent[..n], id) + if sent[n].to == id then [sent[n].msg] else []
  }

  lemma StreamPost(sent: seq<Sent>, to: nat, msg: Msg, id: nat)
    ensures Stream(Post(sent, to, msg), id) == Stream(sent, id) + if to == id then [msg] else []
  {
    assert Post(sent, to, msg)[..|sent|] == sent;
  }

  function Tokens(toks: seq<nat>): (msgs: seq<Msg>)
    ensures |msgs| == |toks|
  {
    seq(|toks|, i requires 0 <= i < |toks| => Token(toks[i]))
  }

  /** The context holds every position the request decodes at before it reaches EOS or its limit. */
  predicate FitsContext(env: Env, req: Request)
    requires req.prompt != []
  {
    req.maxTokens == 0 || |req.prompt| + Steps(JobOf(env, req)) <= env.cfg.maxSeq
  }

  /** The request got its whole generation and nothing else, which takes a context that holds it. */
  ghost predicate Complete(env: Env, req: Request, st: seq<Msg>) {
    req.prompt != [] && FitsContext(env, req) && st == Tokens(Full(JobOf(env, req)))
  }

  /** When `why` can be the error that ends a request after `n` tokens. The context errors are exact; the others need a
      failing device or a pool that is too small. */
  predicate Warranted(env: Env, req: Request, why: Failure, n: nat)
    requires req.prompt != []
  {
    && req.maxTokens > 0
    && match why
       case PromptTooLong => n == 0 && |req.prompt| > env.cfg.maxSeq
       case ContextExceeded =>
         |req.prompt| <= env.cfg.maxSeq && !FitsContext(env, req) && n == env.cfg.maxSeq - |req.prompt| + 1
       case ExhaustedAtAdmission => n == 0
       case PrefillFailed => n == 0
       case PrefillRowLost => n == 0
       case CacheExhausted => 1 <= n <= Steps(JobOf(env, req))
       case ForwardFailed => 1 <= n <= Steps(JobOf(env, req))
       case RowLost => 1 <= n <= Steps(JobOf(env, req))
  }

  /** The request got a prefix of its generation and then one error it had cause to get. */
  ghost predicate Failed(env: Env, req: Request, st: seq<Msg>) {
    && req.prompt != [] && st != [] && st[|st| - 1].Error?
    && st[..|st| - 1] == Tokens(Gen(JobOf(env, req), |st| - 1))
    && Gen(JobOf(env, req), |st| - 1) <= Full(JobOf(env, req))
    && Warranted(env, req, st[|st| - 1].why, |st| - 1)
  }

  ghost predicate Done(env: Env, req: Request, st: seq<Msg>) {
    Complete(env, req, st) || Failed(env, req, st)
  }

  /** A running sequence has sent exactly what it has generated, and the rest of its generation lies ahead. */
  ghost predicate Streaming(env: Env, sent: seq<Sent>, r: Running) {
    && r.req.prompt != [] && r.req.maxTokens >= 1 && r.produced >= 1
    && r.pos == |r.req.prompt| + r.produced - 1 <= env.cfg.maxSeq
    && Full(JobOf(env, r.req)) == FullFrom(JobOf(env, r.req), r.produced)
    && Steps(JobOf(env, r.req)) == StepsFrom(JobOf(env, r.req), r.produced)
    && Stream(sent, r.req.id) == Tokens(Gen(JobOf(env, r.req), r.produced))
  }

  ghost predicate Silent(sent: seq<Sent>, a: Arrival) {
    a.req.prompt != [] && Stream(sent, a.req.id) == []
  }

  ghost predicate DistinctRuns(rs: seq<Running>) {
    forall i, j :: 0 <= i < j < |rs| ==> rs[i].req.id != rs[j].req.id
  }

  ghost predicate DistinctArrivals(waiting: seq<Arrival>) {
    forall i, j :: 0 <= i < j < |waiting| ==> waiting[i].req.id != waiting[j].req.id
  }

  ghost predicate ApartIds(waiting: seq<Arrival>, rs: seq<Running>) {
    forall i, j :: 0 <= i < |waiting| && 0 <= j < |rs| ==> waiting[i].req.id != rs[j].req.id
  }

  ghost predicate Runs(rs: seq<Running>, req: Request) {
    exists i :: 0 <= i < |rs| && rs[i].req == req
  }

  ghost predicate Placed(env: Env, a: Arrival, waiting: seq<Arrival>, rs: seq<Running>, sent: seq<Sent>) {
    a in waiting || Runs(rs, a.req) || Done(env, a.req, Stream(sent, a.req.id))
  }

  /** Every request of `all` is waiting and has heard nothing, or runs and has heard its generation so far, or is done.
      `waiting` is the queue followed by the requests that have not arrived yet. */
  ghost predicate Ledger(env: Env, all: seq<Arrival>, waiting: seq<Arrival>, rs: seq<Running>, sent: seq<Sent>) {
    && DistinctRuns(rs) && DistinctArrivals(waiting) && ApartIds(waiting, rs) && DistinctArrivals(all)
    && (forall i :: 0 <= i < |waiting| ==> Silent(sent, waiting[i]) && waiting[i] in all)
    && (forall i :: 0 <= i < |rs| ==>
          Streaming(env, sent, rs[i]) && exists k :: 0 <= k < |all| && all[k].req == rs[i].req)
    && (forall i :: 0 <= i < |all| ==> Placed(env, all[i], waiting, rs, sent))
  }

  /** `sent'` adds messages for `id` only. */
  ghost predicate OnlyTo(sent: seq<Sent>, sent': seq<Sent>, id: nat) {
    forall other :: other != id ==> Stream(sent', other) == Stream(sent, other)
  }

  lemma PostOnlyTo(sent: seq<Sent>, to: nat, msg: Msg)
    ensures OnlyTo(sent, Post(sent, to, msg), to)
  {
    forall other | other != to
      ensures Stream(Post(sent, to, msg), other) == Stream(sent, other)
    {
      StreamPost(sent, to, msg, other);
    }
  }

  lemma OthersUntouched(env: Env, sent: seq<Sent>, sent': seq<Sent>, id: nat)
    requires OnlyTo(sent, sent', id)
    ensures forall r: Running :: r.req.id != id && Streaming(env, sent, r) ==> Streaming(env, sent', r)
    ensures forall a: Arrival :: a.req.id != id && Silent(sent, a) ==> Silent(sent', a)
    ensures forall req: Request :: req.id != id && Done(env, req, Stream(sent, req.id)) ==>
              Done(env, req, Stream(sent', req.id))
  {
    hide Done, Full, FullFrom, Gen, Stream;
  }

  /** A running sequence leaves, done. */
  lemma LedgerDrop(env: Env, all: seq<Arrival>, waiting: seq<Arrival>, before: seq<Running>, r: Running,
                   after: seq<Running>, sent: seq<Sent>, sent': seq<Sent>)
    requires Ledger(env, all, waiting, before + ([r] + after), sent)
    requires OnlyTo(sent, sent', r.req.id) && Done(env, r.req, Stream(sent', r.req.id))
    ensures Ledger(env, all, waiting, before + after, sent')
  {
    hide Done, Streaming, Silent, Stream, OnlyTo;
    OthersUntouched(env, sent, sent', r.req.id);
    var rs, rs', k := before + ([r] + after), before + after, |before|;
    assert rs[k] == r;
    var own :| 0 <= own < |all| && all[own].req == rs[k].req;
    assert forall i :: 0 <= i < |rs'| ==> rs'[i] == rs[if i < k then i else i + 1];
    forall i | 0 <= i < |rs'|
      ensures Streaming(env, sent', rs'[i]) && exists x :: 0 <= x < |all| && all[x].req == rs'[i].req
    {
      var j := if i < k then i else i + 1;
      assert Streaming(env, sent, rs[j]);
    }
    forall i | 0 <= i < |waiting|
      ensures Silent(sent', waiting[i])
    {
      assert Silent(sent, waiting[i]);
    }
    forall i | 0 <= i < |all|
      ensures Placed(env, all[i], waiting, rs', sent')
    {
      assert Placed(env, all[i], waiting, rs, sent);
      assert i != own ==> all[i].req.id != all[own].req.id;
      DropPlaced(env, all[i], waiting, before, r, after, sent, sent');
    }
  }

  lemma DropPlaced(env: Env, a: Arrival, waiting: seq<Arrival>, before: seq<Running>, r: Running, after: seq<Running>,
                   sent: seq<Sent>, sent': seq<Sent>)
    requires Placed(env, a, waiting, before + ([r] + after), sent) && (a.req.id == r.req.id ==> a.req == r.req)
    requires OnlyTo(sent, sent', r.req.id) && Done(env, r.req, Stream(sent', r.req.id))
    ensures Placed(env, a, waiting, before + after, sent')
  {
    hide Done, Stream, OnlyTo;
    OthersUntouched(env, sent, sent', r.req.id);
    var rs, rs', k := before + ([r] + after), before + after, |before|;
    if a !in waiting && Runs(rs, a.req) {
      var j :| 0 <= j < |rs| && rs[j].req == a.req;
      if j != k {
        assert rs'[if j < k then j else j - 1].req == a.req;
      }
    }
  }

  /** A running sequence moves on. */
  lemma LedgerReplace(env: Env, all: seq<Arrival>, waiting: seq<Arrival>, before: seq<Running>, r: Running,
                      after: seq<Running>, sent: seq<Sent>, sent': seq<Sent>, r': Running)
    requires Ledger(env, all, waiting, before + ([r] + after), sent)
    requires OnlyTo(sent, sent', r.req.id) && r'.req == r.req && Streaming(env, sent', r')
    ensures Ledger(env, all, waiting, before + ([r'] + after), sent')
  {
    hide Done, Streaming, Silent, Stream, OnlyTo;
    OthersUntouched(env, sent, sent', r.req.id);
    var rs, rs', k := before + ([r] + after), before + ([r'] + after), |before|;
    assert rs[k] == r && rs'[k] == r';
    var own :| 0 <= own < |all| && all[own].req == rs[k].req;
    assert forall i :: 0 <= i < |rs'| ==> rs'[i].req == rs[i].req && (i != k ==> rs'[i] == rs[i]);
    forall i | 0 <= i < |rs'|
      ensures Streaming(env, sent', rs'[i]) && exists x :: 0 <= x < |all| && all[x].req == rs'[i].req
    {
      assert Streaming(env, sent, rs[i]);
    }
    forall i | 0 <= i < |waiting|
      ensures Silent(sent', waiting[i])
    {
      assert Silent(sent, waiting[i]);
    }
    forall i | 0 <= i < |all|
      ensures Placed(env, all[i], waiting, rs', sent')
    {
      assert Placed(env, all[i], waiting, rs, sent);
      if all[i] !in waiting && Runs(rs, all[i].req) {
        var j :| 0 <= j < |rs| && rs[j].req == all[i].req;
        assert rs'[j].req == all[i].req;
      }
    }
  }

  /** The first waiting request is answered without being admitted. */
  lemma LedgerReject(env: Env, all: seq<Arrival>, waiting: seq<Arrival>, rs: seq<Running>, sent: seq<Sent>,
                     sent': seq<Sent>)
    requires waiting != [] && Ledger(env, all, waiting, rs, sent)
    requires OnlyTo(sent, sent', waiting[0].req.id) && Done(env, waiting[0].req, Stream(sent', waiting[0].req.id))
    ensures Ledger(env, all, waiting[1..], rs, sent')
  {
    hide Done, Streaming, Silent, Stream, OnlyTo;
    OthersUntouched(env, sent, sent', waiting[0].req.id);
    var a, rest := waiting[0], waiting[1..];
    assert forall i :: 0 <= i < |rest| ==> rest[i] == waiting[i + 1];
    forall i | 0 <= i < |rs|
      ensures Streaming(env, sent', rs[i])
    {
      assert Streaming(env, sent, rs[i]);
    }
    forall i | 0 <= i < |rest|
      ensures Silent(sent', rest[i]) && rest[i] in all
    {
      assert Silent(sent, waiting[i + 1]);
    }
    forall i | 0 <= i < |all|
      ensures Placed(env, all[i], rest, rs, sent')
    {
      assert Placed(env, all[i], waiting, rs, sent);
      assert all[i] in waiting ==> all[i] == a || all[i] in rest;
    }
  }

  /** The first waiting request is admitted. */
  lemma LedgerAdmit(env: Env, all: seq<Arrival>, waiting: seq<Arrival>, rs: seq<Running>, sent: seq<Sent>,
                    sent': seq<Sent>, r: Running)
    requires waiting != [] && Ledger(env, all, waiting, rs, sent)
    requires OnlyTo(sent, sent', waiting[0].req.id) && r.req == waiting[0].req && Streaming(env, sent', r)
    ensures Ledger(env, all, waiting[1..], rs + [r], sent')
  {
    hide Done, Streaming, Silent, Stream, OnlyTo;
    OthersUntouched(env, sent, sent', waiting[0].req.id);
    var a, rest, rs' := waiting[0], waiting[1..], rs + [r];
    assert a in all;
    assert forall i :: 0 <= i < |rest| ==> rest[i] == waiting[i + 1];
    forall i | 0 <= i < |rs'|
      ensures Streaming(env, sent', rs'[i]) && exists x :: 0 <= x < |all| && all[x].req == rs'[i].req
    {
      if i < |rs| {
        assert Streaming(env, sent, rs[i]);
      }
    }
    forall i | 0 <= i < |rest|
      ensures Silent(sent', rest[i]) && rest[i] in all
    {
      assert Silent(sent, waiting[i + 1]);
    }
    forall i | 0 <= i < |all|
      ensures Placed(env, all[i], rest, rs', sent')
    {
      assert Placed(env, all[i], waiting, rs, sent);
      assert all[i] in waiting ==> all[i] == a || all[i] in rest;
      if all[i] == a {
        assert rs'[|rs|].req == a.req;
      } else if Runs(rs, all[i].req) {
        var j :| 0 <= j < |rs| && rs[j].req == all[i].req;
        assert rs'[j].req == all[i].req;
      }
    }
  }

  // ---------------------------------------------------------------------------------------------------------------
  // The phases of a turn

  lemma FailedAfter(env: Env, sent: seq<Sent>, r: Running, why: Failure)
    requires Streaming(env, sent, r) && Warranted(env, r.req, why, r.produced)
    ensures Failed(env, r.req, Stream(Post(sent, r.req.id, Error(why)), r.req.id))
  {
    hide Warranted, Steps, StepsFrom;
    var job := JobOf(env, r.req);
    StreamPost(sent, r.req.id, Error(why), r.req.id);
    FullFromExtends(job, r.produced);
    var st := Stream(Post(sent, r.req.id, Error(why)), r.req.id);
    assert st[..|st| - 1] == Stream(sent, r.req.id);
  }

  lemma FailedAtOnce(env: Env, sent: seq<Sent>, a: Arrival, why: Failure)
    requires Silent(sent, a) && Warranted(env, a.req, why, 0)
    ensures Failed(env, a.req, Stream(Post(sent, a.req.id, Error(why)), a.req.id))
  {
    hide Warranted, Full;
    StreamPost(sent, a.req.id, Error(why), a.req.id);
    var job := JobOf(env, a.req);
    assert Gen(job, 0) == [] && Tokens([]) == [];
  }

  lemma AdmittedStreams(env: Env, sent: seq<Sent>, a: Arrival, blocks: seq<nat>)
    requires Silent(sent, a) && a.req.maxTokens >= 1 && |a.req.prompt| <= env.cfg.maxSeq
    ensures var next := env.sample(Logits(env.m, a.req.prompt), a.req.temperature);
            Streaming(env, Post(sent, a.req.id, Token(next)), Running(a.req, blocks, next, |a.req.prompt|, 1))
  {
    var job := JobOf(env, a.req);
    var next := env.sample(Logits(env.m, a.req.prompt), a.req.temperature);
    StreamPost(sent, a.req.id, Token(next), a.req.id);
    assert a.req.prompt + Gen(job, 0) == a.req.prompt;
    assert Gen(job, 1) == [next];
    assert Tokens([next]) == [Token(next)];
  }

  /** Every error of an admission has its cause. */
  lemma AdmissionErrors(env: Env, s: State, a: Arrival)
    requires Fits(env, s) && a.req.prompt != [] && a.req.maxTokens > 0
    requires Prefill(env, s, a).running == s.running
    ensures var sent := Prefill(env, s, a).sent;
            && |sent| == |s.sent| + 1 && sent[|s.sent|].msg.Error?
            && Warranted(env, a.req, sent[|s.sent|].msg.why, 0)
            && (sent[|s.sent|].msg.why == PrefillFailed ==> Strikes(a.fault, env.m.nLayers, |a.req.prompt|))
            && (sent[|s.sent|].msg.why == PrefillRowLost ==> a.rowLost)
  {
    hide PrefillPools, Logits, Grow, Strikes, Steps;
  }

  lemma PrefillLedger(env: Env, all: seq<Arrival>, s: State, a: Arrival, later: seq<Arrival>)
    requires Fits(env, s) && Ledger(env, all, [a] + later, s.running, s.sent)
    ensures a.req.prompt != []
    ensures var r := Prefill(env, s, a); Ledger(env, all, later, r.running, r.sent)
  {
    hide Ledger, Streaming, Done, Failed, Warranted, OnlyTo, Full, FullFrom, Gen, Stream, PrefillPools, Logits, Grow;
    var waiting := [a] + later;
    assert waiting[0] == a && waiting[1..] == later;
    FirstSilent(env, all, waiting, s.running, s.sent);
    var req := a.req;
    if req.maxTokens == 0 {
      CompleteNothing(env, s.sent, a);
      LedgerReject(env, all, waiting, s.running, s.sent, s.sent);
    } else {
      var r := Prefill(env, s, a);
      if r.running == s.running {
        var why := r.sent[|s.sent|].msg.why;
        assert r.sent == Post(s.sent, req.id, Error(why));
        AdmissionErrors(env, s, a);
        FailedAtOnce(env, s.sent, a, why);
        FailedIsDone(env, req, Stream(r.sent, req.id));
        PostOnlyTo(s.sent, req.id, Error(why));
        LedgerReject(env, all, waiting, s.running, s.sent, r.sent);
      } else {
        var next := env.sample(Logits(env.m, req.prompt), req.temperature);
        var grown := Grow(s.free, [], BlocksFor(|req.prompt|, env.cfg.g.bs));
        AdmittedStreams(env, s.sent, a, grown.blocks);
        PostOnlyTo(s.sent, req.id, Token(next));
        LedgerAdmit(env, all, waiting, s.running, s.sent, r.sent, r.running[|s.running|]);
      }
    }
  }

  lemma FirstSilent(env: Env, all: seq<Arrival>, waiting: seq<Arrival>, rs: seq<Running>, sent: seq<Sent>)
    requires waiting != [] && Ledger(env, all, waiting, rs, sent)
    ensures Silent(sent, waiting[0])
  {
  }

  lemma FailedIsDone(env: Env, req: Request, st: seq<Msg>)
    requires Failed(env, req, st)
    ensures Done(env, req, st)
  {
  }

  lemma CompleteNothing(env: Env, sent: seq<Sent>, a: Arrival)
    requires Silent(sent, a) && a.req.maxTokens == 0
    ensures Done(env, a.req, Stream(sent, a.req.id)) && OnlyTo(sent, sent, a.req.id)
  {
    assert Tokens([]) == [];
  }

  lemma {:induction false} AdmitLedger(env: Env, all: seq<Arrival>, s: State, later: seq<Arrival>)
    requires Fits(env, s) && Ledger(env, all, s.pending + later, s.running, s.sent)
    ensures var r := Admit(env, s); Ledger(env, all, r.pending + later, r.running, r.sent)
    decreases |s.pending|
  {
    hide Ledger, Prefill;
    if |s.running| < env.cfg.maxNumSeqs && s.pending != [] {
      assert s.pending + later == [s.pending[0]] + (s.pending[1..] + later);
      PrefillLedger(env, all, PopPending(s), s.pending[0], s.pending[1..] + later);
      AdmitLedger(env, all, Prefill(env, PopPending(s), s.pending[0]), later);
    }
  }

  lemma MiddleStreams(env: Env, all: seq<Arrival>, waiting: seq<Arrival>, before: seq<Running>, r: Running,
                      after: seq<Running>, sent: seq<Sent>)
    requires Ledger(env, all, waiting, before + ([r] + after), sent)
    ensures Streaming(env, sent, r)
  {
    assert (before + ([r] + after))[|before|] == r;
  }

  lemma DropFailed(env: Env, all: seq<Arrival>, waiting: seq<Arrival>, before: seq<Running>, r: Running,
                   after: seq<Running>, sent: seq<Sent>, why: Failure)
    requires Ledger(env, all, waiting, before + ([r] + after), sent)
    requires Streaming(env, sent, r) ==> Warranted(env, r.req, why, r.produced)
    ensures Ledger(env, all, waiting, before + after, Post(sent, r.req.id, Error(why)))
  {
    hide Ledger, Streaming, Failed, Warranted, OnlyTo, Full, FullFrom, Gen, Stream;
    MiddleStreams(env, all, waiting, before, r, after, sent);
    FailedAfter(env, sent, r, why);
    PostOnlyTo(sent, r.req.id, Error(why));
    LedgerDrop(env, all, waiting, before, r, after, sent, Post(sent, r.req.id, Error(why)));
  }

  /** Every eviction has its cause: a sequence leaves for the context exactly when it stands at the context's end. */
  lemma EvictionErrors(env: Env, w: Sweep, r: Running)
    requires EvictOne(env.cfg, w, r).sent != w.sent
    ensures var sent := EvictOne(env.cfg, w, r).sent;
            && |sent| == |w.sent| + 1 && sent == Post(w.sent, r.req.id, sent[|w.sent|].msg) && sent[|w.sent|].msg.Error?
            && (Streaming(env, w.sent, r) ==> Warranted(env, r.req, sent[|w.sent|].msg.why, r.produced))
  {
    hide Grow, Full, FullFrom, Gen, Stream, StepsFrom, NextToken;
  }

  lemma EvictOneLedger(env: Env, all: seq<Arrival>, waiting: seq<Arrival>, w: Sweep, r: Running, rest: seq<Running>)
    requires Ledger(env, all, waiting, w.kept + ([r] + rest), w.sent)
    ensures var w' := EvictOne(env.cfg, w, r); Ledger(env, all, waiting, w'.kept + rest, w'.sent)
  {
    hide Ledger, Grow;
    var w' := EvictOne(env.cfg, w, r);
    if w'.sent == w.sent {
      var r' := w'.kept[|w.kept|];
      assert w'.kept + rest == w.kept + ([r'] + rest);
      MiddleStreams(env, all, waiting, w.kept, r, rest, w.sent);
      LedgerReplace(env, all, waiting, w.kept, r, rest, w.sent, w.sent, r');
    } else {
      EvictionErrors(env, w, r);
      DropFailed(env, all, waiting, w.kept, r, rest, w.sent, w'.sent[|w.sent|].msg.why);
    }
  }

  lemma {:induction false} EvictToLedger(env: Env, all: seq<Arrival>, waiting: seq<Arrival>, s: State, n: nat)
    requires n <= |s.running| && Ledger(env, all, waiting, s.running, s.sent)
    ensures var w := EvictTo(env.cfg, s, n); Ledger(env, all, waiting, w.kept + s.running[n..], w.sent)
    decreases n
  {
    hide Ledger, EvictOne;
    if n == 0 {
      assert [] + s.running[0..] == s.running;
    } else {
      EvictToLedger(env, all, waiting, s, n - 1);
      TailSplit(s.running, n);
      EvictOneLedger(env, all, waiting, EvictTo(env.cfg, s, n - 1), s.running[n - 1], s.running[n..]);
    }
  }

  lemma {:induction false} AbortToLedger(env: Env, all: seq<Arrival>, waiting: seq<Arrival>, s: State, why: Failure,
                                         n: nat)
    requires n <= |s.running| && Ledger(env, all, waiting, s.running, s.sent)
    requires why == ForwardFailed || why == RowLost
    ensures var w := AbortTo(s, why, n); w.kept == [] && Ledger(env, all, waiting, s.running[n..], w.sent)
    decreases n
  {
    hide Ledger;
    if n == 0 {
      assert s.running[0..] == s.running;
    } else {
      AbortToLedger(env, all, waiting, s, why, n - 1);
      AbortStepLedger(env, all, waiting, s, why, n);
    }
  }

  lemma AbortErrors(env: Env, sent: seq<Sent>, r: Running, why: Failure)
    requires why == ForwardFailed || why == RowLost
    ensures Streaming(env, sent, r) ==> Warranted(env, r.req, why, r.produced)
  {
    hide Full, FullFrom, Gen, Stream, StepsFrom, NextToken;
  }

  lemma AbortStepLedger(env: Env, all: seq<Arrival>, waiting: seq<Arrival>, s: State, why: Failure, n: nat)
    requires 0 < n <= |s.running| && Ledger(env, all, waiting, s.running[n - 1..], AbortTo(s, why, n - 1).sent)
    requires why == ForwardFailed || why == RowLost
    ensures var w := AbortTo(s, why, n); w.kept == [] && Ledger(env, all, waiting, s.running[n..], w.sent)
  {
    hide Ledger;
    var r, rest := s.running[n - 1], s.running[n..];
    assert s.running[n - 1..] == [] + ([r] + rest) && [] + rest == rest;
    AbortErrors(env, AbortTo(s, why, n - 1).sent, r, why);
    DropFailed(env, all, waiting, [], r, rest, AbortTo(s, why, n - 1).sent, why);
  }

  /** A sequence that leaves at EOS or at its limit has received its whole generation. */
  lemma RetiredComplete(env: Env, sent: seq<Sent>, r: Running, next: nat)
    requires Streaming(env, sent, r) && r.produced >= 1 && next == NextToken(JobOf(env, r.req), r.produced)
    requires next == env.cfg.eos || r.produced + 1 >= r.req.maxTokens
    requires r.pos + 1 <= env.cfg.maxSeq
    ensures var sent' := if next == env.cfg.eos then sent else Post(sent, r.req.id, Token(next));
            Complete(env, r.req, Stream(sent', r.req.id)) && OnlyTo(sent, sent', r.req.id)
  {
    var job := JobOf(env, r.req);
    if next != env.cfg.eos {
      StreamPost(sent, r.req.id, Token(next), r.req.id);
      PostOnlyTo(sent, r.req.id, Token(next));
      assert Gen(job, r.produced + 1) == Gen(job, r.produced) + [next];
      assert Tokens(Gen(job, r.produced + 1)) == Tokens(Gen(job, r.produced)) + [Token(next)];
    }
  }

  lemma KeptStreams(env: Env, sent: seq<Sent>, r: Running, next: nat)
    requires Streaming(env, sent, r) && r.produced >= 1 && next == NextToken(JobOf(env, r.req), r.produced)
    requires next != env.cfg.eos && r.produced + 1 < r.req.maxTokens && r.pos + 1 <= env.cfg.maxSeq
    ensures var sent' := Post(sent, r.req.id, Token(next));
            && Streaming(env, sent', r.(next := next, pos := r.pos + 1, produced := r.produced + 1))
            && OnlyTo(sent, sent', r.req.id)
  {
    var job := JobOf(env, r.req);
    StreamPost(sent, r.req.id, Token(next), r.req.id);
    PostOnlyTo(sent, r.req.id, Token(next));
    assert Gen(job, r.produced + 1) == Gen(job, r.produced) + [next];
    assert Tokens(Gen(job, r.produced + 1)) == Tokens(Gen(job, r.produced)) + [Token(next)];
  }

  lemma DecodedNext(env: Env, pools: seq<Pool>, r: Running, logits: Vec)
    requires |pools| == env.m.nLayers && Decoded(env, pools, r, logits)
    ensures r.req.prompt != [] && r.produced >= 1 && r.pos + 1 <= env.cfg.maxSeq
    ensures env.sample(logits, r.req.temperature) == NextToken(JobOf(env, r.req), r.produced)
  {
  }

  lemma RetireOneLedger(env: Env, all: seq<Arrival>, waiting: seq<Arrival>, pools: seq<Pool>, w: Sweep, r: Running,
                        rest: seq<Running>, logits: Vec)
    requires |pools| == env.m.nLayers && Decoded(env, pools, r, logits)
    requires Ledger(env, all, waiting, w.kept + ([r] + rest), w.sent)
    ensures var w' := RetireOne(env, w, r, logits); Ledger(env, all, waiting, w'.kept + rest, w'.sent)
  {
    hide Ledger, Decoded, Streaming, Complete, OnlyTo, Full, FullFrom, Gen, NextToken, Stream;
    var w' := RetireOne(env, w, r, logits);
    var next := env.sample(logits, r.req.temperature);
    DecodedNext(env, pools, r, logits);
    MiddleStreams(env, all, waiting, w.kept, r, rest, w.sent);
    if next == env.cfg.eos || r.produced + 1 >= r.req.maxTokens {
      RetiredComplete(env, w.sent, r, next);
      LedgerDrop(env, all, waiting, w.kept, r, rest, w.sent, w'.sent);
    } else {
      var r' := r.(next := next, pos := r.pos + 1, produced := r.produced + 1);
      KeptStreams(env, w.sent, r, next);
      LedgerReplace(env, all, waiting, w.kept, r, rest, w.sent, w'.sent, r');
      assert w'.kept + rest == w.kept + ([r'] + rest);
    }
  }

  lemma {:induction false} RetireToLedger(env: Env, all: seq<Arrival>, waiting: seq<Arrival>, s: State,
                                          logits: seq<Vec>, n: nat)
    requires |s.pools| == env.m.nLayers && n <= |s.running| == |logits|
    requires Ledger(env, all, waiting, s.running, s.sent)
    requires forall i :: 0 <= i < |logits| ==> Decoded(env, s.pools, s.running[i], logits[i])
    ensures var w := RetireTo(env, s, logits, n); Ledger(env, all, waiting, w.kept + s.running[n..], w.sent)
    decreases n
  {
    hide Ledger, RetireOne, Decoded;
    if n == 0 {
      assert [] + s.running[0..] == s.running;
    } else {
      RetireToLedger(env, all, waiting, s, logits, n - 1);
      TailSplit(s.running, n);
      RetireOneLedger(env, all, waiting, s.pools, RetireTo(env, s, logits, n - 1), s.running[n - 1], s.running[n..],
                      logits[n - 1]);
    }
  }

  lemma DecodeLedger(env: Env, all: seq<Arrival>, waiting: seq<Arrival>, s: State, fault: Fault, lost: Option<nat>)
    requires Ready(env, s) && Ledger(env, all, waiting, s.running, s.sent)
    ensures var r := Decode(env, s, fault, lost); Ledger(env, all, waiting, r.running, r.sent)
  {
    hide Ledger, Decoded, DecodePools, DecodeLogits, Owned, RunOk;
    var n, b := |s.running|, BatchOf(s.running);
    BatchOfOk(env, s.running);
    var s' := s.(pools := DecodePools(env.m, env.cfg.g, b, s.pools, fault));
    assert s.running[n..] == [];
    if Strikes(fault, env.m.nLayers, n) {
      AbortToLedger(env, all, waiting, s', ForwardFailed, n);
    } else if lost.Some? && lost.value < n {
      AbortToLedger(env, all, waiting, s', RowLost, n);
    } else {
      var logits := DecodeLogits(env.m, env.cfg.g, b, s.pools);
      NoStrikeDecode(env, b, s.pools, fault);
      DecodeRetiring(env, s);
      RetireToLedger(env, all, waiting, s', logits, n);
      var w := RetireTo(env, s', logits, n);
      assert w.kept + s.running[n..] == w.kept;
    }
  }

  lemma TickLedger(env: Env, all: seq<Arrival>, s: State, t: Turn, later: seq<Arrival>)
    requires Inv(env, s) && TurnOk(t) && Ledger(env, all, s.pending + (t.arrivals + later), s.running, s.sent)
    ensures var r := Tick(env, s, t); Ledger(env, all, r.pending + later, r.running, r.sent)
  {
    hide Ledger, RunOk, Owned, Prefill, Admit, Decode;
    var s0 := Arrive(env, s, t);
    assert s.pending + (t.arrivals + later) == s0.pending + later;
    AdmitLedger(env, all, s0, later);
    AdmitKeepsInv(env, s0);
    var s1 := Admit(env, s0);
    if s1.running == [] {
      if s1.pending != [] {
        assert s1.pending + later == [s1.pending[0]] + (s1.pending[1..] + later);
        PrefillLedger(env, all, PopPending(s1), s1.pending[0], s1.pending[1..] + later);
      }
    } else {
      var n := |s1.running|;
      EvictToLedger(env, all, s1.pending + later, s1, n);
      assert EvictTo(env.cfg, s1, n).kept + s1.running[n..] == EvictTo(env.cfg, s1, n).kept;
      EvictReady(env, s1);
      var s2 := Evict(env.cfg, s1);
      if s2.running != [] {
        DecodeLedger(env, all, s2.pending + later, s2, t.fault, t.lost);
      }
    }
  }

  // ---------------------------------------------------------------------------------------------------------------
  // Whole runs

  /** All the requests of a script, in order of arrival. */
  function ArrivalsOf(script: seq<Turn>): seq<Arrival>
    decreases |script|
  {
    if script == [] then []
    else ArrivalsOf(script[..|script| - 1]) + script[|script| - 1].arrivals
  }

  ghost predicate AllPrompted(all: seq<Arrival>) {
    forall i :: 0 <= i < |all| ==> all[i].req.prompt != []
  }

  lemma StartLedger(env: Env, zero: Vec, later: seq<Arrival>)
    requires DistinctArrivals(later) && AllPrompted(later)
    ensures [] + later == later
    ensures var s := Run(env, zero, []);
            Ledger(env, [] + later, s.pending + later, s.running, s.sent)
  {
    hide Inv, Run, Done, Streaming;
    RunStart(env, zero);
    assert [] + later == later;
  }

  lemma {:induction false} RunLedger(env: Env, zero: Vec, script: seq<Turn>, later: seq<Arrival>)
    requires ScriptOk(script) && DistinctArrivals(ArrivalsOf(script) + later) && AllPrompted(ArrivalsOf(script) + later)
    ensures var s := Run(env, zero, script);
            Ledger(env, ArrivalsOf(script) + later, s.pending + later, s.running, s.sent)
    decreases |script|
  {
    hide Ledger, Tick, Inv, Run;
    if script == [] {
      assert ArrivalsOf([]) + later == later == [] + later;
      StartLedger(env, zero, later);
    } else {
      var n := |script| - 1;
      var t := script[n];
      assert ArrivalsOf(script) + later == ArrivalsOf(script[..n]) + (t.arrivals + later);
      RunStep(env, zero, script);
      RunLedger(env, zero, script[..n], t.arrivals + later);
      TickLedger(env, ArrivalsOf(script) + later, Run(env, zero, script[..n]), t, later);
    }
  }

  /** The state of request `a` after a run. */
  ghost predicate Served(env: Env, s: State, a: Arrival) {
    || (a in s.pending && Stream(s.sent, a.req.id) == [])
    || (exists i :: 0 <= i < |s.running| && s.running[i].req == a.req && Streaming(env, s.sent, s.running[i]))
    || Done(env, a.req, Stream(s.sent, a.req.id))
  }

  /** Over every run, whatever arrives alongside and wherever the device fails, each request is still queued and has
      heard nothing; or is running and has heard exactly what it has generated so far; or has received its whole
      generation; or has received a prefix of it and then one error. */
  lemma EveryRequestServed(env: Env, zero: Vec, script: seq<Turn>, a: Arrival)
    requires ScriptOk(script) && DistinctArrivals(ArrivalsOf(script)) && AllPrompted(ArrivalsOf(script))
    requires a in ArrivalsOf(script)
    ensures Served(env, Run(env, zero, script), a)
  {
    hide Inv, Run, Streaming, Done, Stream;
    assert ArrivalsOf(script) + [] == ArrivalsOf(script);
    RunLedger(env, zero, script, []);
    var s := Run(env, zero, script);
    assert s.pending + [] == s.pending;
    var k :| 0 <= k < |ArrivalsOf(script)| && ArrivalsOf(script)[k] == a;
    assert Placed(env, a, s.pending, s.running, s.sent);
    if a in s.pending {
      var i :| 0 <= i < |s.pending| && s.pending[i] == a;
      assert Silent(s.sent, s.pending[i]);
    }
  }

  ghost predicate Finished(s: State, a: Arrival) {
    a !in s.pending && !Runs(s.running, a.req)
  }

  ghost predicate ErrorFree(st: seq<Msg>) {
    forall i :: 0 <= i < |st| ==> st[i].Token?
  }

  /** A request that has left without an error received exactly its own generation. */
  lemma FinishedExactly(env: Env, zero: Vec, script: seq<Turn>, a: Arrival)
    requires ScriptOk(script) && DistinctArrivals(ArrivalsOf(script)) && AllPrompted(ArrivalsOf(script))
    requires a in ArrivalsOf(script) && a.req.prompt != []
    requires var s := Run(env, zero, script); Finished(s, a) && ErrorFree(Stream(s.sent, a.req.id))
    ensures Stream(Run(env, zero, script).sent, a.req.id) == Tokens(Full(JobOf(env, a.req)))
  {
    hide Inv, Run, Streaming, Full, Stream;
    EveryRequestServed(env, zero, script, a);
  }

  /** Batch independence. Two engines with the same model, sampling and EOS - whatever their pool, batch and context
      limits, whatever else they serve, in whatever order it arrives - give equal requests equal streams, unless one of
      the two ended in an error. Taking the second run to be the request alone gives the solo comparison. */
  lemma BatchIndependence(env: Env, zero: Vec, script: seq<Turn>, a: Arrival,
                          env': Env, zero': Vec, script': seq<Turn>, a': Arrival)
    requires env.m == env'.m && env.sample == env'.sample && env.cfg.eos == env'.cfg.eos
    requires a.req.prompt == a'.req.prompt && a.req.maxTokens == a'.req.maxTokens
    requires a.req.temperature == a'.req.temperature && a.req.prompt != []
    requires ScriptOk(script) && DistinctArrivals(ArrivalsOf(script)) && AllPrompted(ArrivalsOf(script))
    requires ScriptOk(script') && DistinctArrivals(ArrivalsOf(script')) && AllPrompted(ArrivalsOf(script'))
    requires a in ArrivalsOf(script) && a' in ArrivalsOf(script')
    requires var s := Run(env, zero, script); Finished(s, a) && ErrorFree(Stream(s.sent, a.req.id))
    requires var s' := Run(env', zero', script'); Finished(s', a') && ErrorFree(Stream(s'.sent, a'.req.id))
    ensures Stream(Run(env, zero, script).sent, a.req.id) == Stream(Run(env', zero', script').sent, a'.req.id)
  {
    hide Inv, Run, Streaming, Full, Stream;
    FinishedExactly(env, zero, script, a);
    FinishedExactly(env', zero', script', a');
  }
}
