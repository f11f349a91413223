/**
 Forming the full mesh: every node dials the peers with larger ids one after another, while it accepts those with
 smaller ids one after another.

 Nodes are numbered in the order of their ids. A state holds, for each node, where its dial loop and its accept loop
 stand; `Step` is one move of one loop, and any interleaving of moves is a run.
 */
module Mesh {
  import opened Basics

  /** A connection, as the pair of its dialer and its acceptor. */
  datatype Link = Link(dialer: nat, acceptor: nat)

  /** The dial loop is between dials, waiting for a handshake, or about to send its hello. */
  datatype Dialing = Idle | Waiting | Connected

  datatype Node = Node(
    bound: bool,                     // the endpoint exists
    at: nat,                         // dials finished
    dialing: Dialing,
    dialled: map<nat, Link>,         // connections of the dial loop, by peer id
    queue: seq<nat>,                 // incoming connections not yet accepted
    rounds: nat,                     // accept iterations started
    greeting: Option<nat>,           // the incoming connection whose hello is awaited
    accepted: map<nat, Link>)        // connections of the accept loop, by the id in the hello

  /** For each node the peers it dials, in the order of its peer list: all with larger ids. */
  ghost predicate Configured(dials: seq<seq<nat>>) {
    forall i :: 0 <= i < |dials| ==>
      NoDup(dials[i]) && forall x :: x in dials[i] <==> i < x < |dials|
  }

  datatype Event = Bind(node: nat) | Dial(node: nat) | Accept(node: nat) | Hello(node: nat) | Greet(node: nat)

  /** The peer the dial loop of `i` is at. */
  function Target(dials: seq<seq<nat>>, s: seq<Node>, i: nat): Option<nat>
    requires |s| == |dials| && i < |s|
  {
    if s[i].at < |dials[i]| then Some(dials[i][s[i].at]) else None
  }

  /** The move can happen now. A dial to a peer that is not bound yet fails and is tried again: no move. */
  predicate Enabled(dials: seq<seq<nat>>, s: seq<Node>, e: Event)
    requires |s| == |dials|
  {
    && e.node < |s|
    && var me := s[e.node];
       var to := Target(dials, s, e.node);
       match e
       case Bind(i) => !me.bound
       case Dial(i) => me.bound && me.dialing == Idle && to.Some? && to.value < |s| && s[to.value].bound
       case Accept(j) => me.bound && me.rounds < j && me.greeting == None && me.queue != [] && me.queue[0] < |s|
       case Hello(i) => me.dialing == Connected && to.Some?
       case Greet(j) => me.greeting.Some? && me.greeting.value < |s| && j in s[me.greeting.value].dialled
  }

  function Step(dials: seq<seq<nat>>, s: seq<Node>, e: Event): (t: seq<Node>)
    requires |s| == |dials| && Enabled(dials, s, e)
    ensures |t| == |s|
  {
    var me := s[e.node];
    match e
    case Bind(i) => s[i := me.(bound := true)]
    case Dial(i) =>
      var j := Target(dials, s, i).value;
      var mid := s[i := me.(dialing := Waiting)];
      mid[j := mid[j].(queue := mid[j].queue + [i])]
    case Accept(j) =>
      var i := me.queue[0];
      var mid := s[j := me.(queue := me.queue[1..], rounds := me.rounds + 1, greeting := Some(i))];
      mid[i := mid[i].(dialing := Connected)]
    case Hello(i) =>
      var j := Target(dials, s, i).value;
      s[i := me.(dialing := Idle, at := me.at + 1, dialled := me.dialled[j := Link(i, j)])]
    case Greet(j) =>
      var i := me.greeting.value;
      s[j := me.(greeting := None, accepted := me.accepted[i := Link(i, j)])]
  }

  function Start(n: nat): seq<Node> {
    seq(n, _ => Node(false, 0, Idle, map[], [], 0, None, map[]))
  }

  // ---------------------------------------------------------------- what every state satisfies

  /** What holds of one node by itself. */
  ghost predicate NodeOk(dial: seq<nat>, i: nat, me: Node) {
    && me.at <= |dial|
    && (me.dialing != Idle ==> me.at < |dial|)
    && (forall x :: x in me.dialled <==> x in dial[..me.at])
    && (forall x :: x in me.dialled ==> me.dialled[x] == Link(i, x))
    && NoDup(me.queue)
    && (forall x :: x in me.queue ==> x < i)
    && (forall x :: x in me.accepted ==> x < i && me.accepted[x] == Link(x, i))
    && (me.greeting.Some? ==> me.greeting.value < i && me.greeting.value !in me.accepted)
    && me.rounds == |me.accepted| + (if me.greeting.Some? then 1 else 0)
  }

  /** Where one pair stands: what the dialer and the acceptor each know of it. */
  datatype View = View(dialled: bool, waiting: bool, connected: bool, queued: bool, greeted: bool, accepted: bool)

  function ViewOf(dials: seq<seq<nat>>, s: seq<Node>, i: nat, j: nat): View
    requires |s| == |dials| && i < |s| && j < |s|
  {
    var here := Target(dials, s, i) == Some(j);
    View(j in s[i].dialled, here && s[i].dialing == Waiting, here && s[i].dialing == Connected,
         i in s[j].queue, s[j].greeting == Some(i), i in s[j].accepted)
  }

  const UNTOUCHED := View(false, false, false, false, false, false)
  const KNOCKING := View(false, true, false, true, false, false)
  const SHAKEN := View(false, false, true, false, true, false)
  const GREETED := View(true, false, false, false, true, false)
  const JOINED := View(true, false, false, false, false, true)

  /** A pair goes through five stages; both ends always agree on which. */
  predicate Legal(v: View) {
    v == UNTOUCHED || v == KNOCKING || v == SHAKEN || v == GREETED || v == JOINED
  }

  ghost predicate Sound(dials: seq<seq<nat>>, s: seq<Node>) {
    && |s| == |dials|
    && (forall i :: 0 <= i < |s| ==> NodeOk(dials[i], i, s[i]))
    && (forall i, j :: 0 <= i < j < |s| ==> Legal(ViewOf(dials, s, i, j)))
  }

  lemma StartSound(dials: seq<seq<nat>>)
    ensures Sound(dials, Start(|dials|))
  {
  }

  lemma PrefixGrows<T>(s: seq<T>, n: nat, x: T)
    requires n < |s|
    ensures x in s[..n + 1] <==> x in s[..n] || x == s[n]
  {
    assert s[..n + 1] == s[..n] + [s[n]];
  }

  lemma NotBefore<T>(s: seq<T>, n: nat)
    requires n < |s| && NoDup(s)
    ensures s[n] !in s[..n]
  {
  }

  /** The peer a dial loop is at is larger, and not yet among its connections. */
  lemma TargetFresh(dials: seq<seq<nat>>, s: seq<Node>, i: nat)
    requires Configured(dials) && Sound(dials, s) && i < |s| && s[i].at < |dials[i]|
    ensures var j := dials[i][s[i].at]; i < j < |s| && j !in s[i].dialled
  {
    assert NodeOk(dials[i], i, s[i]);
    NotBefore(dials[i], s[i].at);
    assert dials[i][s[i].at] in dials[i];
  }

  lemma DialedNode(dial: seq<nat>, i: nat, me: Node)
    requires NodeOk(dial, i, me) && me.at < |dial|
    ensures NodeOk(dial, i, me.(dialing := Waiting)) && NodeOk(dial, i, me.(dialing := Connected))
  {
  }

  lemma QueuedNode(dial: seq<nat>, j: nat, me: Node, i: nat)
    requires NodeOk(dial, j, me) && i < j && i !in me.queue
    ensures NodeOk(dial, j, me.(queue := me.queue + [i]))
    ensures forall x :: x in me.queue + [i] <==> x in me.queue || x == i
  {
  }

  lemma AcceptingNode(dial: seq<nat>, j: nat, me: Node)
    requires NodeOk(dial, j, me) && me.greeting == None && me.queue != [] && me.queue[0] !in me.accepted
    ensures NodeOk(dial, j, me.(queue := me.queue[1..], rounds := me.rounds + 1, greeting := Some(me.queue[0])))
    ensures forall x :: x in me.queue[1..] <==> x in me.queue && x != me.queue[0]
  {
    var q := me.queue;
    assert forall k :: 0 <= k < |q| - 1 ==> q[1..][k] == q[k + 1];
    forall x
      ensures x in q[1..] <==> x in q && x != q[0]
    {
      assert x in q <==> x in [q[0]] + q[1..];
      if x in q[1..] {
        var k :| 0 <= k < |q| - 1 && q[1..][k] == x;
        assert q[k + 1] != q[0];
      }
    }
    assert NoDup(q[1..]);
    assert q[0] in q;
  }

  lemma HelloedNode(dial: seq<nat>, i: nat, me: Node)
    requires NodeOk(dial, i, me) && me.at < |dial| && dial[me.at] !in me.dialled
    ensures NodeOk(dial, i, me.(dialing := Idle, at := me.at + 1,
                                dialled := me.dialled[dial[me.at] := Link(i, dial[me.at])]))
  {
    forall x
      ensures x in dial[..me.at + 1] <==> x in dial[..me.at] || x == dial[me.at]
    {
      PrefixGrows(dial, me.at, x);
    }
  }

  lemma GreetedNode(dial: seq<nat>, j: nat, me: Node)
    requires NodeOk(dial, j, me) && me.greeting.Some?
    ensures var i := me.greeting.value;
            NodeOk(dial, j, me.(greeting := None, accepted := me.accepted[i := Link(i, j)]))
  {
  }

  // Each move takes one pair from one stage to the next and leaves every other pair where it is.

  lemma BindMoves(dials: seq<seq<nat>>, s: seq<Node>, i: nat, a: nat, b: nat)
    requires Sound(dials, s) && Enabled(dials, s, Bind(i)) && a < b < |s|
    ensures ViewOf(dials, Step(dials, s, Bind(i)), a, b) == ViewOf(dials, s, a, b)
  {
  }

  lemma DialMoves(dials: seq<seq<nat>>, s: seq<Node>, i: nat, a: nat, b: nat)
    requires Configured(dials) && Sound(dials, s) && Enabled(dials, s, Dial(i)) && a < b < |s|
    ensures var it := a == i && Target(dials, s, i) == Some(b);
            && (it ==> ViewOf(dials, s, a, b) == UNTOUCHED)
            && ViewOf(dials, Step(dials, s, Dial(i)), a, b) == if it then KNOCKING else ViewOf(dials, s, a, b)
  {
    hide NodeOk, Configured;
    TargetFresh(dials, s, i);
    assert Legal(ViewOf(dials, s, a, b));
    var j := Target(dials, s, i).value;
    InAppended(s[j].queue, i, a);
  }

  lemma InAppended<T>(q: seq<T>, x: T, y: T)
    ensures y in q + [x] <==> y in q || y == x
  {
  }

  lemma InRest<T>(q: seq<T>, y: T)
    requires q != [] && NoDup(q)
    ensures y in q[1..] <==> y in q && y != q[0]
  {
    assert q == [q[0]] + q[1..];
    if y in q[1..] {
      var k :| 0 <= k < |q| - 1 && q[1..][k] == y;
      assert q[k + 1] != q[0];
    }
  }

  lemma AcceptMoves(dials: seq<seq<nat>>, s: seq<Node>, j: nat, a: nat, b: nat)
    requires Configured(dials) && Sound(dials, s) && Enabled(dials, s, Accept(j)) && a < b < |s|
    ensures var it := a == s[j].queue[0] && b == j;
            && s[j].queue[0] < j
            && (it ==> ViewOf(dials, s, a, b) == KNOCKING)
            && ViewOf(dials, Step(dials, s, Accept(j)), a, b) == if it then SHAKEN else ViewOf(dials, s, a, b)
  {
    hide NodeOk, Configured;
    var i := s[j].queue[0];
    QueueFacts(dials[j], j, s[j], i);
    InRest(s[j].queue, a);
    assert Legal(ViewOf(dials, s, i, j));
    assert Legal(ViewOf(dials, s, a, b));
  }

  lemma QueueFacts(dial: seq<nat>, j: nat, me: Node, i: nat)
    requires NodeOk(dial, j, me) && i in me.queue
    ensures i < j && NoDup(me.queue)
  {
  }

  lemma HelloMoves(dials: seq<seq<nat>>, s: seq<Node>, i: nat, a: nat, b: nat)
    requires Configured(dials) && Sound(dials, s) && Enabled(dials, s, Hello(i)) && a < b < |s|
    ensures var it := a == i && Target(dials, s, i) == Some(b);
            && (it ==> ViewOf(dials, s, a, b) == SHAKEN)
            && ViewOf(dials, Step(dials, s, Hello(i)), a, b) == if it then GREETED else ViewOf(dials, s, a, b)
  {
    hide NodeOk, NoDup;
    TargetFresh(dials, s, i);
    assert Legal(ViewOf(dials, s, a, b));
  }

  lemma GreetMoves(dials: seq<seq<nat>>, s: seq<Node>, j: nat, a: nat, b: nat)
    requires Configured(dials) && Sound(dials, s) && Enabled(dials, s, Greet(j)) && a < b < |s|
    ensures var it := s[j].greeting == Some(a) && b == j;
            && (it ==> ViewOf(dials, s, a, b) == GREETED)
            && ViewOf(dials, Step(dials, s, Greet(j)), a, b) == if it then JOINED else ViewOf(dials, s, a, b)
  {
    hide NodeOk, Configured;
    assert Legal(ViewOf(dials, s, a, b));
  }

  lemma PairMoves(dials: seq<seq<nat>>, s: seq<Node>, e: Event, a: nat, b: nat)
    requires Configured(dials) && Sound(dials, s) && a < b < |s| && Enabled(dials, s, e)
    ensures var (v, w) := (ViewOf(dials, s, a, b), ViewOf(dials, Step(dials, s, e), a, b));
            && (w == v || Next(v, w))
            && (v == KNOCKING && w == SHAKEN ==> e == Accept(b) && s[b].queue[0] == a)
  {
    hide Configured, Step, Sound, ViewOf, Target;
    match e {
      case Bind(i) => BindMoves(dials, s, i, a, b);
      case Dial(i) => DialMoves(dials, s, i, a, b);
      case Accept(j) => AcceptMoves(dials, s, j, a, b);
      case Hello(i) => HelloMoves(dials, s, i, a, b);
      case Greet(j) => GreetMoves(dials, s, j, a, b);
    }
  }

  /** The stages in order. */
  predicate Next(v: View, w: View) {
    || (v == UNTOUCHED && w == KNOCKING) || (v == KNOCKING && w == SHAKEN) || (v == SHAKEN && w == GREETED)
    || (v == GREETED && w == JOINED)
  }

  lemma NodesKeep(dials: seq<seq<nat>>, s: seq<Node>, e: Event, k: nat)
    requires Configured(dials) && Sound(dials, s) && Enabled(dials, s, e) && k < |s|
    ensures NodeOk(dials[k], k, Step(dials, s, e)[k])
  {
    hide Configured, NodeOk, ViewOf, Legal;
    match e {
      case Bind(i) => BoundNode(dials[i], i, s[i]);
      case Dial(i) =>
        TargetFresh(dials, s, i);
        var j := Target(dials, s, i).value;
        DialedNode(dials[i], i, s[i]);
        NotQueued(dials, s, i, j);
        QueuedNode(dials[j], j, s[j], i);
      case Accept(j) =>
        var i := s[j].queue[0];
        Knocking(dials, s, i, j);
        DialedNode(dials[i], i, s[i]);
        AcceptingNode(dials[j], j, s[j]);
      case Hello(i) =>
        TargetFresh(dials, s, i);
        HelloedNode(dials[i], i, s[i]);
      case Greet(j) => GreetedNode(dials[j], j, s[j]);
    }
  }

  lemma BoundNode(dial: seq<nat>, i: nat, me: Node)
    requires NodeOk(dial, i, me)
    ensures NodeOk(dial, i, me.(bound := true))
  {
  }

  lemma NotQueued(dials: seq<seq<nat>>, s: seq<Node>, i: nat, j: nat)
    requires Sound(dials, s) && i < j < |s| && s[i].dialing == Idle
    ensures i !in s[j].queue
  {
    hide NodeOk;
    assert Legal(ViewOf(dials, s, i, j));
  }

  lemma Knocking(dials: seq<seq<nat>>, s: seq<Node>, i: nat, j: nat)
    requires Sound(dials, s) && i < |s| && j < |s| && i in s[j].queue
    ensures i < j && ViewOf(dials, s, i, j) == KNOCKING && s[i].at < |dials[i]| && i !in s[j].accepted
  {
    hide NodeOk;
    QueueFacts(dials[j], j, s[j], i);
    assert Legal(ViewOf(dials, s, i, j));
  }

  // ---------------------------------------------------------------- runs

  lemma StepKeepsSound(dials: seq<seq<nat>>, s: seq<Node>, e: Event)
    requires Configured(dials) && Sound(dials, s) && Enabled(dials, s, e)
    ensures Sound(dials, Step(dials, s, e))
  {
    hide Configured, Step, Enabled, NodeOk, ViewOf;
    var t := Step(dials, s, e);
    forall k | 0 <= k < |t|
      ensures NodeOk(dials[k], k, t[k])
    {
      NodesKeep(dials, s, e, k);
    }
    forall a, b | 0 <= a < b < |t|
      ensures Legal(ViewOf(dials, t, a, b))
    {
      PairMoves(dials, s, e, a, b);
    }
  }

  /** Any interleaving; moves that cannot happen are skipped. */
  function Run(dials: seq<seq<nat>>, events: seq<Event>): (s: seq<Node>)
    ensures |s| == |dials|
  {
    if events == [] then Start(|dials|)
    else
      var before := Run(dials, events[..|events| - 1]);
      var e := events[|events| - 1];
      if Enabled(dials, before, e) then Step(dials, before, e) else before
  }

  lemma {:induction false} RunSound(dials: seq<seq<nat>>, events: seq<Event>)
    requires Configured(dials)
    ensures Sound(dials, Run(dials, events))
  {
    hide Sound, Configured, Step, Enabled;
    if events == [] {
      StartSound(dials);
    } else {
      var n := |events| - 1;
      RunSound(dials, events[..n]);
      if Enabled(dials, Run(dials, events[..n]), events[n]) {
        StepKeepsSound(dials, Run(dials, events[..n]), events[n]);
      }
    }
  }

  /** The pair has a connection, or both ends are about to record one. */
  predicate Established(dials: seq<seq<nat>>, s: seq<Node>, i: nat, j: nat)
    requires |s| == |dials| && i < |s| && j < |s|
  {
    var v := ViewOf(dials, s, i, j);
    v.connected || v.dialled || v.greeted || v.accepted
  }

  /** The move is node `b` taking the incoming connection of node `a`. */
  predicate Takes(dials: seq<seq<nat>>, s: seq<Node>, e: Event, a: nat, b: nat)
    requires |s| == |dials|
  {
    Enabled(dials, s, e) && e == Accept(b) && s[b].queue[0] == a
  }

  /** How often in a run node `b` took a connection that node `a` had dialled. */
  function Joins(dials: seq<seq<nat>>, events: seq<Event>, a: nat, b: nat): nat {
    if events == [] then 0
    else
      var n := |events| - 1;
      Joins(dials, events[..n], a, b) + if Takes(dials, Run(dials, events[..n]), events[n], a, b) then 1 else 0
  }

  /** A move takes a pair's connection exactly when it makes the pair established. */
  lemma TakingEstablishes(dials: seq<seq<nat>>, s: seq<Node>, e: Event, a: nat, b: nat)
    requires Configured(dials) && Sound(dials, s) && a < b < |s| && Enabled(dials, s, e)
    ensures var t := Step(dials, s, e);
            && (Takes(dials, s, e, a, b) <==> !Established(dials, s, a, b) && Established(dials, t, a, b))
            && (Established(dials, s, a, b) ==> Established(dials, t, a, b))
            && !Takes(dials, s, e, b, a)
  {
    hide NodeOk, Configured, Step, ViewOf, Enabled;
    assert Legal(ViewOf(dials, s, a, b));
    PairMoves(dials, s, e, a, b);
    if e.Accept? {
      EnabledHere(dials, s, e);
      AcceptMoves(dials, s, e.node, a, b);
    }
  }

  lemma EnabledHere(dials: seq<seq<nat>>, s: seq<Node>, e: Event)
    requires |s| == |dials| && Enabled(dials, s, e)
    ensures e.node < |s| && (e.Accept? ==> s[e.node].queue != [])
  {
  }

  /** At most one connection per pair, over every run: the larger node has taken a connection of the smaller once if
      the pair is established and never otherwise, and the smaller has taken none of the larger. A pair with a node
      that is done has been connected exactly once. */
  lemma {:induction false} OneConnectionPerPair(dials: seq<seq<nat>>, events: seq<Event>, a: nat, b: nat)
    requires Configured(dials) && a < b < |dials|
    ensures var s := Run(dials, events);
            && Joins(dials, events, a, b) == (if Established(dials, s, a, b) then 1 else 0)
            && Joins(dials, events, b, a) == 0
            && (Complete(dials, s, a) || Complete(dials, s, b) ==> Joins(dials, events, a, b) == 1)
    decreases |events|
  {
    hide Sound, Configured, Step, Enabled, Takes, Established, Complete;
    if events == [] {
      assert !Established(dials, Start(|dials|), a, b) by {
        NoneAtStart(dials, a, b);
      }
    } else {
      var n := |events| - 1;
      var s := Run(dials, events[..n]);
      OneConnectionPerPair(dials, events[..n], a, b);
      RunSound(dials, events[..n]);
      if Enabled(dials, s, events[n]) {
        TakingEstablishes(dials, s, events[n], a, b);
      } else {
        assert !Takes(dials, s, events[n], a, b) && !Takes(dials, s, events[n], b, a) by {
          NoMoveTakesNone(dials, s, events[n]);
        }
      }
    }
    DoneIsEstablished(dials, events, a, b);
  }

  lemma NoneAtStart(dials: seq<seq<nat>>, a: nat, b: nat)
    requires a < b < |dials|
    ensures !Established(dials, Start(|dials|), a, b)
  {
  }

  lemma NoMoveTakesNone(dials: seq<seq<nat>>, s: seq<Node>, e: Event)
    requires |s| == |dials| && !Enabled(dials, s, e)
    ensures forall a, b :: !Takes(dials, s, e, a, b)
  {
  }

  // ---------------------------------------------------------------- completion

  /** The node's `connect_mesh` can return: both loops are over. */
  predicate Complete(dials: seq<seq<nat>>, s: seq<Node>, i: nat)
    requires |s| == |dials| && i < |s|
  {
    && s[i].bound && s[i].dialing == Idle && s[i].at == |dials[i]|
    && s[i].rounds == i && s[i].greeting == None
  }

  /** `conns.extend(accepted)`. */
  function Conns(me: Node): map<nat, Link> {
    me.dialled + me.accepted
  }

  lemma {:induction false} Below(n: nat, keys: set<nat>)
    requires forall x :: x in keys ==> x < n
    ensures |keys| <= n
    ensures |keys| == n ==> forall x :: 0 <= x < n ==> x in keys
  {
    if n > 0 {
      var rest := keys - {n - 1};
      Below(n - 1, rest);
      if n - 1 in keys {
        assert keys == rest + {n - 1};
      } else {
        assert keys == rest;
      }
    }
  }

  lemma KeysOf(m: map<nat, Link>)
    ensures |m| == |m.Keys|
  {
  }

  /** A node that is done holds exactly one connection to each other node, under that node's id: the ones it dialled to
      the larger ids, the ones it accepted from the smaller. */
  lemma CompleteHasAll(dials: seq<seq<nat>>, events: seq<Event>, i: nat)
    requires Configured(dials) && i < |dials| && Complete(dials, Run(dials, events), i)
    ensures var c := Conns(Run(dials, events)[i]);
            && (forall x: nat :: x in c <==> x < |dials| && x != i)
            && (forall x :: x in c ==> c[x] == if x < i then Link(x, i) else Link(i, x))
            && |c| == |dials| - 1
  {
    hide Run;
    RunSound(dials, events);
    var me := Run(dials, events)[i];
    assert NodeOk(dials[i], i, me);
    Below(i, me.accepted.Keys);
    KeysOf(me.accepted);
    assert dials[i][..me.at] == dials[i];
    forall x: nat
      ensures x in Conns(me) <==> x < |dials| && x != i
    {
      assert x in me.dialled <==> x in dials[i];
      assert x in me.accepted <==> x in me.accepted.Keys;
      assert x in dials[i] <==> i < x < |dials|;
    }
    AllButOne(|dials|, i, Conns(me).Keys);
    KeysOf(Conns(me));
  }

  lemma DoneIsEstablished(dials: seq<seq<nat>>, events: seq<Event>, a: nat, b: nat)
    requires Configured(dials) && a < b < |dials|
    ensures var s := Run(dials, events);
            Complete(dials, s, a) || Complete(dials, s, b) ==> Established(dials, s, a, b)
  {
    hide Run, Complete;
    var s := Run(dials, events);
    RunSound(dials, events);
    assert NodeOk(dials[a], a, s[a]) && NodeOk(dials[b], b, s[b]);
    if Complete(dials, s, a) {
      CompleteHasAll(dials, events, a);
      assert b in Conns(s[a]);
    } else if Complete(dials, s, b) {
      CompleteHasAll(dials, events, b);
      assert a in Conns(s[b]);
      if a in s[b].dialled {
        InPrefix(dials[b], s[b].at, a);
      }
    }
  }

  lemma InPrefix<T>(s: seq<T>, n: nat, x: T)
    requires n <= |s|
    ensures x in s[..n] ==> x in s
  {
  }

  lemma AllButOne(n: nat, i: nat, keys: set<nat>)
    requires i < n && forall x: nat :: x in keys <==> x < n && x != i
    ensures |keys| == n - 1
  {
    Exactly(n, keys + {i});
  }

  lemma {:induction false} Exactly(n: nat, keys: set<nat>)
    requires forall x: nat :: x in keys <==> x < n
    ensures |keys| == n
  {
    if n == 0 {
      assert keys == {};
    } else {
      Exactly(n - 1, keys - {n - 1});
    }
  }

  /** No reachable state is stuck: until every node is done, some move can happen, although each node dials its peers
      one by one, waits for each handshake, and accepts one peer at a time. */
  lemma NeverStuck(dials: seq<seq<nat>>, events: seq<Event>)
    requires Configured(dials)
    ensures (forall i :: 0 <= i < |dials| ==> Complete(dials, Run(dials, events), i))
            || exists e :: Enabled(dials, Run(dials, events), e)
  {
    hide Run, Complete, Enabled, Configured;
    RunSound(dials, events);
    var s := Run(dials, events);
    if i :| 0 <= i < |s| && !Complete(dials, s, i) {
      var e := NextMove(dials, s, i);
    }
  }

  lemma NextMove(dials: seq<seq<nat>>, s: seq<Node>, i: nat) returns (e: Event)
    requires Configured(dials) && Sound(dials, s) && i < |s| && !Complete(dials, s, i)
    ensures Enabled(dials, s, e)
  {
    hide NodeOk;
    if k :| 0 <= k < |s| && !s[k].bound {
      e := Bind(k);
    } else if k :| 0 <= k < |s| && s[k].greeting.Some? {
      e := FinishGreeting(dials, s, k);
    } else if k :| 0 <= k < |s| && s[k].dialing != Idle {
      e := FinishDial(dials, s, k);
    } else if k :| 0 <= k < |s| && s[k].at < |dials[k]| {
      TargetFresh(dials, s, k);
      e := Dial(k);
    } else {
      AllDone(dials, s, i);
      e := Bind(i);
    }
  }

  lemma FinishGreeting(dials: seq<seq<nat>>, s: seq<Node>, j: nat) returns (e: Event)
    requires Configured(dials) && Sound(dials, s) && j < |s| && s[j].greeting.Some?
    ensures Enabled(dials, s, e)
  {
    hide Configured;
    var i := s[j].greeting.value;
    assert NodeOk(dials[j], j, s[j]) && NodeOk(dials[i], i, s[i]);
    assert Legal(ViewOf(dials, s, i, j));
    e := if j in s[i].dialled then Greet(j) else Hello(i);
  }

  lemma FinishDial(dials: seq<seq<nat>>, s: seq<Node>, i: nat) returns (e: Event)
    requires Configured(dials) && Sound(dials, s) && i < |s| && s[i].dialing != Idle
    requires forall k :: 0 <= k < |s| ==> s[k].bound && s[k].greeting == None
    ensures Enabled(dials, s, e)
  {
    hide Configured;
    assert NodeOk(dials[i], i, s[i]);
    TargetFresh(dials, s, i);
    var j := dials[i][s[i].at];
    assert Legal(ViewOf(dials, s, i, j));
    assert NodeOk(dials[j], j, s[j]);
    RoomLeft(dials[j], j, s[j], i);
    FirstInQueue(dials[j], j, s[j]);
    e := Accept(j);
  }

  /** An acceptor that has not had `i` yet has an iteration left for it. */
  lemma RoomLeft(dial: seq<nat>, j: nat, me: Node, i: nat)
    requires NodeOk(dial, j, me) && me.greeting == None && i < j && i !in me.accepted
    ensures me.rounds < j
  {
    Below(j, me.accepted.Keys);
    KeysOf(me.accepted);
  }

  lemma FirstInQueue(dial: seq<nat>, j: nat, me: Node)
    requires NodeOk(dial, j, me) && me.queue != []
    ensures me.queue[0] < j
  {
    assert me.queue[0] in me.queue;
  }

  /** When no loop can move, every pair is joined. */
  lemma AllDone(dials: seq<seq<nat>>, s: seq<Node>, j: nat)
    requires Configured(dials) && Sound(dials, s) && j < |s|
    requires forall k :: 0 <= k < |s| ==>
      s[k].bound && s[k].greeting == None && s[k].dialing == Idle && s[k].at >= |dials[k]|
    ensures Complete(dials, s, j)
  {
    assert NodeOk(dials[j], j, s[j]);
    forall i | 0 <= i < j
      ensures i in s[j].accepted
    {
      assert NodeOk(dials[i], i, s[i]);
      assert dials[i][..s[i].at] == dials[i];
      assert j in dials[i];
      assert Legal(ViewOf(dials, s, i, j));
    }
    forall x: nat
      ensures x in s[j].accepted.Keys <==> x < j
    {
      assert x in s[j].accepted <==> x in s[j].accepted.Keys;
    }
    Exactly(j, s[j].accepted.Keys);
    KeysOf(s[j].accepted);
  }

  // ---------------------------------------------------------------- termination

  /** How far a node's two loops have come. */
  function Rank(me: Node): int {
    (if me.bound then 1 else 0)
    + 3 * me.at + (match me.dialing case Idle => 0 case Waiting => 1 case Connected => 2)
    + 2 * me.rounds - (if me.greeting.Some? then 1 else 0)
  }

  function Total(s: seq<Node>): int {
    if s == [] then 0 else Total(s[..|s| - 1]) + Rank(s[|s| - 1])
  }

  lemma {:induction false} TotalUpdate(s: seq<Node>, k: nat, me: Node)
    requires k < |s|
    ensures Total(s[k := me]) == Total(s) - Rank(s[k]) + Rank(me)
    decreases |s|
  {
    hide Rank;
    var n := |s| - 1;
    if k < n {
      TotalUpdate(s[..n], k, me);
      assert s[k := me][..n] == s[..n][k := me];
    } else {
      assert s[k := me][..n] == s[..n];
    }
  }

  /** Every move is progress. */
  lemma MoveCounts(dials: seq<seq<nat>>, s: seq<Node>, e: Event)
    requires Configured(dials) && Sound(dials, s) && Enabled(dials, s, e)
    ensures Total(Step(dials, s, e)) >= Total(s) + 1
  {
    hide NodeOk, Configured, Total;
    var me := s[e.node];
    match e {
      case Bind(i) => TotalUpdate(s, i, me.(bound := true));
      case Dial(i) =>
        TargetFresh(dials, s, i);
        var j := Target(dials, s, i).value;
        var mid := s[i := me.(dialing := Waiting)];
        TotalUpdate(s, i, me.(dialing := Waiting));
        TotalUpdate(mid, j, mid[j].(queue := mid[j].queue + [i]));
      case Accept(j) =>
        var i := me.queue[0];
        Knocking(dials, s, i, j);
        var next := me.(queue := me.queue[1..], rounds := me.rounds + 1, greeting := Some(i));
        var mid := s[j := next];
        TotalUpdate(s, j, next);
        TotalUpdate(mid, i, mid[i].(dialing := Connected));
      case Hello(i) =>
        var j := Target(dials, s, i).value;
        TotalUpdate(s, i, me.(dialing := Idle, at := me.at + 1, dialled := me.dialled[j := Link(i, j)]));
      case Greet(j) =>
        var i := me.greeting.value;
        TotalUpdate(s, j, me.(greeting := None, accepted := me.accepted[i := Link(i, j)]));
    }
  }

  /** A node dials and accepts no more peers than there are. */
  lemma RankBounded(dials: seq<seq<nat>>, s: seq<Node>, i: nat)
    requires Configured(dials) && Sound(dials, s) && i < |s|
    ensures Rank(s[i]) <= 1 + 5 * |s|
  {
    var me := s[i];
    assert NodeOk(dials[i], i, me);
    DialsFewer(dials, i);
    Below(i, me.accepted.Keys);
    KeysOf(me.accepted);
    if me.greeting.Some? {
      Below(i, me.accepted.Keys + {me.greeting.value});
    }
  }

  lemma DialsFewer(dials: seq<seq<nat>>, i: nat)
    requires Configured(dials) && i < |dials|
    ensures |dials[i]| < |dials|
  {
    var keys := Elems(dials[i]);
    SetOfNoDup(dials[i]);
    assert forall x :: x in keys ==> x in dials[i];
    Below(|dials|, keys + {i});
    assert i !in keys;
    assert |keys + {i}| == |keys| + 1;
  }

  lemma {:induction false} TotalBounded(s: seq<Node>, most: nat)
    requires forall i :: 0 <= i < |s| ==> Rank(s[i]) <= most
    ensures Total(s) <= |s| * most
  {
    hide Rank;
    if s != [] {
      TotalBounded(s[..|s| - 1], most);
      assert |s| * most == (|s| - 1) * most + most;
    }
  }

  /** The moves of a run that happened. */
  function Moves(dials: seq<seq<nat>>, events: seq<Event>): nat {
    if events == [] then 0
    else
      var n := |events| - 1;
      Moves(dials, events[..n]) + if Enabled(dials, Run(dials, events[..n]), events[n]) then 1 else 0
  }

  /** No run goes on for ever: with `NeverStuck`, every node is done after finitely many moves, at most this many. */
  lemma MovesBounded(dials: seq<seq<nat>>, events: seq<Event>)
    requires Configured(dials)
    ensures Moves(dials, events) <= |dials| * (1 + 5 * |dials|)
  {
    hide Run, Rank, Moves;
    MovesCounted(dials, events);
    RunSound(dials, events);
    var s := Run(dials, events);
    forall i | 0 <= i < |s|
      ensures Rank(s[i]) <= 1 + 5 * |s|
    {
      RankBounded(dials, s, i);
    }
    TotalBounded(s, 1 + 5 * |s|);
  }

  lemma {:induction false} MovesCounted(dials: seq<seq<nat>>, events: seq<Event>)
    requires Configured(dials)
    ensures Moves(dials, events) <= Total(Run(dials, events))
  {
    hide Step, Enabled, Configured, Sound, Rank;
    if events == [] {
      StartsAtZero(|dials|);
    } else {
      var n := |events| - 1;
      MovesCounted(dials, events[..n]);
      RunSound(dials, events[..n]);
      if Enabled(dials, Run(dials, events[..n]), events[n]) {
        MoveCounts(dials, Run(dials, events[..n]), events[n]);
      }
    }
  }

  lemma {:induction false} StartsAtZero(n: nat)
    ensures Total(Start(n)) == 0
  {
    if n > 0 {
      StartsAtZero(n - 1);
      assert Start(n)[..n - 1] == Start(n - 1);
    }
  }

  // ---------------------------------------------------------------- one dial

  /** `dial_with_retry`: the outcome of each attempt is the network's. */
  method DialWithRetry(outcome: nat -> Result<Link, nat>) returns (r: Result<Link, nat>)
    ensures r.Ok? <==> exists k :: 0 <= k < 20 && outcome(k).Ok?
    ensures r.Ok? ==> exists k :: 0 <= k < 20 && outcome(k) == r && forall t :: 0 <= t < k ==> outcome(t).Err?
    ensures r.Err? ==> r == outcome(19)
  {
    var last: Option<nat> := None;
    for attempt := 0 to 20
      invariant forall t :: 0 <= t < attempt ==> outcome(t).Err?
      invariant attempt > 0 ==> last.Some? && outcome(attempt - 1) == Err(last.value)
    {
      var tried := outcome(attempt);
      if tried.Ok? {
        return tried;
      }
      last := Some(tried.error);
    }
    return Err(last.value);
  }
}
