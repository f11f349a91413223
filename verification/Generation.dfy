/**
 What a request should receive: greedy/seeded generation over the causal reference, as the scheduler cuts it off
 (`Full`) and as the plain single-sequence loop `CandleModel::generate` cuts it off (`Plain`), and exactly when the
 two agree.
 */
module Generation {
  import opened Basics
  import opened Causal

  datatype Job = Job(m: Model, sample: (Vec, real) -> nat, temperature: real, prompt: seq<nat>, maxTokens: nat,
                     eos: nat)

  /** The first `n` tokens sampled after the prompt, with no stopping rule. */
  function Gen(job: Job, n: nat): (toks: seq<nat>)
    requires job.prompt != []
    ensures |toks| == n
    decreases n, 0
  {
    if n == 0 then [] else Gen(job, n - 1) + [NextToken(job, n - 1)]
  }

  /** The token sampled after the prompt and `n` generated tokens. */
  function NextToken(job: Job, n: nat): nat
    requires job.prompt != []
    decreases n, 1
  {
    job.sample(Logits(job.m, job.prompt + Gen(job, n)), job.temperature)
  }

  /** What the scheduler emits once `n >= 1` tokens are out: it decodes one more token before it looks at the limit. */
  function FullFrom(job: Job, n: nat): seq<nat>
    requires job.prompt != []
    decreases job.maxTokens - n
  {
    if NextToken(job, n) == job.eos then Gen(job, n)
    else if n + 1 >= job.maxTokens then Gen(job, n + 1)
    else FullFrom(job, n + 1)
  }

  /** The scheduler's whole stream for one request. */
  function Full(job: Job): seq<nat>
    requires job.prompt != []
  {
    if job.maxTokens == 0 then [] else FullFrom(job, 1)
  }

  /** The decode step that samples token `n` is the request's last: it samples EOS or reaches the limit. */
  predicate Stops(job: Job, n: nat)
    requires job.prompt != []
  {
    NextToken(job, n) == job.eos || n + 1 >= job.maxTokens
  }

  /** The first step from `n` on after which the request leaves. */
  function StepsFrom(job: Job, n: nat): (k: nat)
    requires job.prompt != []
    ensures k >= n
    decreases job.maxTokens - n
  {
    if Stops(job, n) then n else StepsFrom(job, n + 1)
  }

  /** Decode steps the request needs once it is admitted. */
  function Steps(job: Job): (k: nat)
    requires job.prompt != []
    ensures k >= 1
  {
    StepsFrom(job, 1)
  }

  /** `should_stop`. */
  predicate ShouldStop(produced: nat, last: nat, eos: nat, maxTokens: nat) {
    produced >= maxTokens || last == eos
  }

  /** What `generate` returns once `n` tokens are out: it checks before it emits. */
  function PlainFrom(job: Job, n: nat): seq<nat>
    requires job.prompt != []
    decreases job.maxTokens - n
  {
    if ShouldStop(n, NextToken(job, n), job.eos, job.maxTokens) then Gen(job, n) else PlainFrom(job, n + 1)
  }

  function Plain(job: Job): seq<nat>
    requires job.prompt != []
  {
    PlainFrom(job, 0)
  }

  /** The library's model with its cache. Index 0 starts a new text; any other index must be the number of tokens the
      cache holds. The logits are then the causal ones of the text so far. */
  class CachedModel {
    const m: Model
    var fed: seq<nat>

    constructor (m: Model)
      ensures this.m == m && fed == []
    {
      this.m, fed := m, [];
    }

    method Forward(chunk: seq<nat>, indexPos: nat, fails: bool) returns (r: Option<Vec>)
      requires chunk != [] && (indexPos == 0 || indexPos == |fed|)
      modifies this
      ensures r.None? <==> fails
      ensures r.Some? ==> fed == (if indexPos == 0 then [] else old(fed)) + chunk && r.value == Logits(m, fed)
    {
      if fails {
        return None;
      }
      fed := (if indexPos == 0 then [] else fed) + chunk;
      r := Some(Logits(m, fed));
    }
  }

  datatype GenerateError = EmptyPrompt | LibraryFailed

  /** What `generate` and its token callback must have produced when forward call `k` fails for each `k` with
      `fails(k)`: everything, or the tokens before the first failing call among the calls it makes. */
  ghost predicate Generated(job: Job, fails: nat -> bool, r: Result<seq<nat>, GenerateError>, told: seq<nat>) {
    if job.prompt == [] then r == Err(EmptyPrompt) && told == []
    else if r.Ok? then r.value == told == Plain(job) && forall k :: 0 <= k <= |told| ==> !fails(k)
    else
      && r.error == LibraryFailed && told <= Plain(job) && fails(|told|)
      && forall k :: 0 <= k < |told| ==> !fails(k)
  }

  /** `CandleModel::generate`: the prompt at index 0, then each token at the running index. */
  method Generate(job: Job, weights: CachedModel, fails: nat -> bool)
    returns (r: Result<seq<nat>, GenerateError>, told: seq<nat>)
    requires weights.m == job.m
    modifies weights
    ensures Generated(job, fails, r, told)
  {
    hide Logits;
    told := [];
    if job.prompt == [] {
      return Err(EmptyPrompt), [];
    }
    var logits := weights.Forward(job.prompt, 0, fails(0));
    if logits.None? {
      return Err(LibraryFailed), told;
    }
    assert weights.fed == job.prompt + Gen(job, 0);
    var next := job.sample(logits.value, job.temperature);
    var produced := 0;
    var indexPos := |job.prompt|;
    while !ShouldStop(produced, next, job.eos, job.maxTokens)
      invariant told == Gen(job, produced) && weights.fed == job.prompt + told && indexPos == |weights.fed|
      invariant next == NextToken(job, produced)
      invariant Plain(job) == PlainFrom(job, produced)
      invariant forall k :: 0 <= k <= produced ==> !fails(k)
      decreases job.maxTokens - produced
    {
      told := told + [next];
      produced := produced + 1;
      assert told == Gen(job, produced);
      logits := weights.Forward([next], indexPos, fails(produced));
      if logits.None? {
        PlainFromExtends(job, produced);
        return Err(LibraryFailed), told;
      }
      assert weights.fed == job.prompt + told;
      next := job.sample(logits.value, job.temperature);
      indexPos := indexPos + 1;
    }
    r := Ok(told);
  }

  lemma {:induction false} PlainFromExtends(job: Job, n: nat)
    requires job.prompt != []
    ensures Gen(job, n) <= PlainFrom(job, n)
    decreases job.maxTokens - n
  {
    if !ShouldStop(n, NextToken(job, n), job.eos, job.maxTokens) {
      PlainFromExtends(job, n + 1);
      GenPrefix(job, n, n + 1);
    }
  }

  lemma {:induction false} GenPrefix(job: Job, k: nat, n: nat)
    requires job.prompt != [] && k <= n
    ensures Gen(job, k) <= Gen(job, n)
    decreases n
  {
    if k < n {
      GenPrefix(job, k, n - 1);
    }
  }

  /** What is out is a prefix of the stream, and the stream is no longer than the limit allows. */
  lemma {:induction false} FullFromExtends(job: Job, n: nat)
    requires job.prompt != []
    ensures Gen(job, n) <= FullFrom(job, n)
    ensures |FullFrom(job, n)| <= if n + 1 <= job.maxTokens then job.maxTokens else n + 1
    decreases job.maxTokens - n
  {
    GenPrefix(job, n, n + 1);
    if NextToken(job, n) != job.eos && n + 1 < job.maxTokens {
      FullFromExtends(job, n + 1);
    }
  }

  lemma {:induction false} StepsFromLeast(job: Job, n: nat)
    requires job.prompt != []
    ensures Stops(job, StepsFrom(job, n)) && forall k :: n <= k < StepsFrom(job, n) ==> !Stops(job, k)
    ensures StepsFrom(job, n) <= if n + 1 >= job.maxTokens then n else job.maxTokens - 1
    ensures FullFrom(job, n) == Gen(job, |FullFrom(job, n)|)
    ensures |FullFrom(job, n)|
         == StepsFrom(job, n) + if NextToken(job, StepsFrom(job, n)) == job.eos then 0 else 1
    decreases job.maxTokens - n
  {
    if !Stops(job, n) {
      StepsFromLeast(job, n + 1);
    }
  }

  /** A request needs the least number of decode steps that ends in EOS or reaches its limit, never more than
      `max(1, max_tokens - 1)`; its stream is the tokens sampled up to then, without a closing EOS. */
  lemma StepsLeast(job: Job)
    requires job.prompt != []
    ensures NextToken(job, Steps(job)) == job.eos || Steps(job) + 1 >= job.maxTokens
    ensures forall k :: 1 <= k < Steps(job) ==> NextToken(job, k) != job.eos && k + 1 < job.maxTokens
    ensures Steps(job) <= if job.maxTokens <= 2 then 1 else job.maxTokens - 1
    ensures job.maxTokens > 0 ==>
      Full(job) == Gen(job, Steps(job) + if NextToken(job, Steps(job)) == job.eos then 0 else 1)
  {
    hide NextToken, Gen, FullFrom, StepsFrom;
    StepsFromLeast(job, 1);
    forall k | 1 <= k < Steps(job)
      ensures NextToken(job, k) != job.eos && k + 1 < job.maxTokens
    {
      assert !Stops(job, k);
    }
  }

  /** Each token is what the job samples from the causal logits of the prompt and the tokens before it. */
  lemma {:induction false} GenIsSampled(job: Job, n: nat, k: nat)
    requires job.prompt != [] && k < n
    ensures Gen(job, n)[k] == job.sample(Logits(job.m, job.prompt + Gen(job, n)[..k]), job.temperature)
  {
    hide Logits;
    GenPrefix(job, k, n);
    GenPrefix(job, k + 1, n);
    assert Gen(job, k + 1)[k] == NextToken(job, k);
    assert Gen(job, n)[..k] == Gen(job, k);
  }

  /** The scheduler's stream in full: with `e` the first decode step that samples EOS or reaches the limit, the `e + 1`
      tokens sampled by then, or `e` of them when the last is EOS. So without EOS it has `max(2, max_tokens)` tokens. */
  lemma FullExactly(job: Job, e: nat)
    requires job.prompt != [] && job.maxTokens > 0 && e >= 1
    requires NextToken(job, e) == job.eos || e + 1 >= job.maxTokens
    requires forall k :: 1 <= k < e ==> NextToken(job, k) != job.eos && k + 1 < job.maxTokens
    ensures Full(job) == Gen(job, if NextToken(job, e) == job.eos then e else e + 1) && e == Steps(job)
  {
    StepsLeast(job);
  }

  lemma {:induction false} PlainFromExactly(job: Job, n: nat, e: nat)
    requires job.prompt != [] && n <= e <= job.maxTokens
    requires e == job.maxTokens || NextToken(job, e) == job.eos
    requires forall k :: n <= k < e ==> NextToken(job, k) != job.eos
    ensures PlainFrom(job, n) == Gen(job, e)
    decreases e - n
  {
    if n < e {
      PlainFromExactly(job, n + 1, e);
    }
  }

  /** What `generate` returns: the tokens before the first EOS, or `max_tokens` of them when there is none so early. */
  lemma PlainExactly(job: Job, e: nat)
    requires job.prompt != [] && e <= job.maxTokens && (e == job.maxTokens || NextToken(job, e) == job.eos)
    requires forall k :: 0 <= k < e ==> NextToken(job, k) != job.eos
    ensures Plain(job) == Gen(job, e)
  {
    PlainFromExactly(job, 0, e);
  }

  lemma {:induction false} FromOneAgree(job: Job, n: nat)
    requires job.prompt != [] && n < job.maxTokens
    ensures FullFrom(job, n) == PlainFrom(job, n)
    decreases job.maxTokens - n
  {
    if NextToken(job, n) != job.eos && n + 1 < job.maxTokens {
      FromOneAgree(job, n + 1);
    }
  }

  /** Parity is exact: the scheduler's stream is `generate`'s output if and only if nothing is asked for, or the first
      token is not EOS and either two tokens may be produced or the second one is EOS. (The scheduler always emits the
      first token, and decodes a second one before it looks at the limit.) */
  lemma ParityExactly(job: Job)
    requires job.prompt != []
    ensures Full(job) == Plain(job)
      <==> job.maxTokens == 0
           || (NextToken(job, 0) != job.eos && (job.maxTokens >= 2 || NextToken(job, 1) == job.eos))
  {
    if job.maxTokens > 0 {
      FullFromExtends(job, 1);
      if NextToken(job, 0) != job.eos {
        assert Plain(job) == PlainFrom(job, 1);
        if job.maxTokens >= 2 {
          FromOneAgree(job, 1);
        } else {
          assert |Gen(job, 2)| != |Gen(job, 1)|;
        }
      }
    }
  }

  /** A model without layers on which sampling always yields `t`. */
  function Constant(t: nat, maxTokens: nat, eos: nat): Job {
    Job(Model(0, 0, _ => [], (_, _, _) => Row([], []), (_, _, _, _, _) => 0.0, (_, _, _) => 0.0, (_, _, _) => [],
              x => x),
        (_, _) => t, 0.0, [1], maxTokens, eos)
  }

  /** The two ways parity fails, on concrete inputs: a limit of one token yields two, and a leading EOS is emitted. */
  lemma ParityFails()
    ensures Full(Constant(7, 1, 2)) == [7, 7] && Plain(Constant(7, 1, 2)) == [7]
    ensures Full(Constant(2, 5, 2)) == [2] && Plain(Constant(2, 5, 2)) == []
  {
    var job := Constant(7, 1, 2);
    assert Gen(job, 1) == [7] && Gen(job, 2) == [7, 7];
    assert Plain(job) == PlainFrom(job, 1);
    assert Gen(Constant(2, 5, 2), 1) == [2];
  }
}
