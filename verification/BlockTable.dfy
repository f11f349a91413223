/**
 The fixed-size KV block pool: `BlockAllocator` hands physical block ids to `BlockTable`s.

 The first half is the specification on values (`Grow`, `Owned`, runs of operations) with the ownership theorems;
 the classes at the end are the allocator as the source writes it, each method proved against that specification.
 */
module BlockTables {
  import opened Basics

  /** Blocks that `n` tokens occupy: one for every started run of `bs` tokens. */
  function BlocksFor(n: nat, bs: Positive): nat {
    if n == 0 then 0 else 1 + BlocksFor(if n <= bs then 0 else n - bs, bs)
  }

  /** `BlocksFor` is the least number of blocks whose slots cover `n` tokens. */
  lemma {:induction false} BlocksForLeast(n: nat, bs: Positive, k: nat)
    ensures BlocksFor(n, bs) <= k <==> n <= k * bs
    decreases n
  {
    if n > 0 && k > 0 {
      BlocksForLeast(if n <= bs then 0 else n - bs, bs, k - 1);
      assert k * bs == (k - 1) * bs + bs;
    }
  }

  /** It is what `n.div_ceil(bs)` computes. */
  lemma {:induction false} BlocksForIsDivCeil(n: nat, bs: Positive)
    ensures BlocksFor(n, bs) == (n + bs - 1) / bs
  {
    var q := (n + bs - 1) / bs;
    DivBounds(n + bs - 1, bs);
    BlocksForLeast(n, bs, q);
    if q > 0 {
      BlocksForLeast(n, bs, q - 1);
      assert (q - 1) * bs == q * bs - bs;
    }
  }

  lemma BlocksForMonotone(a: nat, b: nat, bs: Positive)
    requires a <= b
    ensures BlocksFor(a, bs) <= BlocksFor(b, bs)
  {
    BlocksForLeast(b, bs, BlocksFor(b, bs));
    BlocksForLeast(a, bs, BlocksFor(b, bs));
  }

  /** The physical slot of a position: walk the table one block of `bs` positions at a time. */
  ghost function Place(blocks: seq<nat>, bs: Positive, pos: nat): (at: (nat, nat))
    requires BlocksFor(pos + 1, bs) <= |blocks|
    ensures at.0 in blocks && at.1 < bs
    decreases pos
  {
    if pos < bs then (blocks[0], pos)
    else
      var at := Place(blocks[1..], bs, pos - bs);
      assert at.0 in blocks[1..] && forall x :: x in blocks[1..] ==> x in blocks;
      at
  }

  /** It is what `locate` computes with one division. */
  lemma {:induction false} PlaceIsDivMod(blocks: seq<nat>, bs: Positive, pos: nat)
    requires BlocksFor(pos + 1, bs) <= |blocks|
    ensures pos / bs < |blocks| && Place(blocks, bs, pos) == (blocks[pos / bs], pos % bs)
    decreases pos
  {
    if pos >= bs {
      PlaceIsDivMod(blocks[1..], bs, pos - bs);
      DivStep(pos, bs);
    } else {
      DivSmall(pos, bs);
    }
  }

  lemma DivSmall(a: nat, bs: Positive)
    requires a < bs
    ensures a / bs == 0 && a % bs == a
  {
  }

  lemma DivStep(a: nat, bs: Positive)
    requires a >= bs
    ensures a / bs == (a - bs) / bs + 1 && a % bs == (a - bs) % bs
  {
    var q, r := (a - bs) / bs, (a - bs) % bs;
    assert a - bs == q * bs + r;
    assert a == (q + 1) * bs + r;
    DivUnique(a, bs, q + 1, r);
  }

  /** A table without repeated blocks never maps two positions to one slot. */
  lemma {:induction false} PlaceInjective(blocks: seq<nat>, bs: Positive, p: nat, q: nat)
    requires BlocksFor(p + 1, bs) <= |blocks| && BlocksFor(q + 1, bs) <= |blocks| && NoDup(blocks)
    requires Place(blocks, bs, p) == Place(blocks, bs, q)
    ensures p == q
    decreases p + q
  {
    if p >= bs && q >= bs {
      PlaceInjective(blocks[1..], bs, p - bs, q - bs);
    }
  }

  /** Blocks appended to a table do not move the positions it already had. */
  lemma {:induction false} PlaceGrown(blocks: seq<nat>, grown: seq<nat>, bs: Positive, pos: nat)
    requires BlocksFor(pos + 1, bs) <= |blocks| && blocks <= grown
    ensures Place(grown, bs, pos) == Place(blocks, bs, pos)
    decreases pos
  {
    if pos >= bs {
      PlaceGrown(blocks[1..], grown[1..], bs, pos - bs);
    }
  }

  // ---------------------------------------------------------------------------------------------------------------
  // Allocation on values

  /** The last `k` ids of the free list, in the order they are popped. */
  function Popped(free: seq<nat>, k: nat): (ids: seq<nat>)
    requires k <= |free|
  {
    seq(k, i requires 0 <= i < k => free[|free| - 1 - i])
  }

  datatype Grown = Grown(ok: bool, free: seq<nat>, blocks: seq<nat>)

  /** Grow `blocks` to `need` ids from the free list, or change nothing. */
  function Grow(free: seq<nat>, blocks: seq<nat>, need: nat): Grown {
    if need <= |blocks| then Grown(true, free, blocks)
    else
      var extra := need - |blocks|;
      if extra > |free| then Grown(false, free, blocks)
      else Grown(true, free[..|free| - extra], blocks + Popped(free, extra))
  }

  /** Growing fails exactly when the blocks of this table and the free ones together do not cover the request;
      otherwise it yields exactly `max(need, |blocks|)` blocks, keeps the old ones in front, and loses no id. */
  /** The block released last is handed out first. */
  lemma GrowTakesLast(free: seq<nat>, blocks: seq<nat>, need: nat)
    requires |blocks| < need <= |blocks| + |free|
    ensures var g := Grow(free, blocks, need);
            && g.free == free[..|free| - (need - |blocks|)] && |g.blocks| == need && g.blocks[..|blocks|] == blocks
            && forall i :: |blocks| <= i < need ==> g.blocks[i] == free[|free| - 1 - (i - |blocks|)]
  {
  }

  lemma GrowExact(free: seq<nat>, blocks: seq<nat>, need: nat)
    ensures var g := Grow(free, blocks, need);
            && (g.ok <==> need <= |blocks| + |free|)
            && (!g.ok ==> g.free == free && g.blocks == blocks)
            && (g.ok ==> |g.blocks| == if need <= |blocks| then |blocks| else need)
            && blocks <= g.blocks
            && multiset(g.free) + multiset(g.blocks) == multiset(free) + multiset(blocks)
  {
    var g := Grow(free, blocks, need);
    if g.ok && need > |blocks| {
      var extra := need - |blocks|;
      PoppedConserves(free, extra);
      assert multiset(g.blocks) == multiset(blocks) + multiset(Popped(free, extra));
    }
  }

  lemma {:induction false} PoppedConserves(free: seq<nat>, k: nat)
    requires k <= |free|
    ensures multiset(free[..|free| - k]) + multiset(Popped(free, k)) == multiset(free)
  {
    if k == 0 {
      assert free[..|free|] == free;
    } else {
      PoppedConserves(free, k - 1);
      var n := |free| - k;
      assert free[..n + 1] == free[..n] + [free[n]];
      assert Popped(free, k) == Popped(free, k - 1) + [free[n]];
    }
  }

  // ---------------------------------------------------------------------------------------------------------------
  // Ownership

  ghost predicate Disjoint(xs: seq<nat>, ys: seq<nat>) {
    forall x :: x in xs ==> x !in ys
  }

  /** All ids held by some table, with multiplicity. */
  ghost function Held(tables: seq<seq<nat>>): multiset<nat> {
    if tables == [] then multiset{} else multiset(tables[0]) + Held(tables[1..])
  }

  ghost function AllIds(n: nat): multiset<nat> {
    multiset(seq(n, i => i))
  }

  /** Every block id `0..n` is in the free list or in one table, exactly once, and there is no other id. */
  ghost predicate Owned(free: seq<nat>, tables: seq<seq<nat>>, n: nat) {
    multiset(free) + Held(tables) == AllIds(n)
  }

  lemma {:induction false} AllIdsOnce(n: nat, b: nat)
    ensures AllIds(n)[b] == if b < n then 1 else 0
  {
    if n > 0 {
      AllIdsOnce(n - 1, b);
      assert seq(n, i => i) == seq(n - 1, i => i) + [n - 1];
    }
  }

  lemma SumAssociates(a: multiset<nat>, b: multiset<nat>, c: multiset<nat>)
    ensures a + b + c == a + (b + c)
  {
  }

  lemma {:induction false} HeldSplit(a: seq<seq<nat>>, b: seq<seq<nat>>)
    ensures Held(a + b) == Held(a) + Held(b)
  {
    if a == [] {
      assert a + b == b;
    } else {
      var first, rest := a[0], a[1..];
      assert a + b == [first] + (rest + b);
      HeldCons(first, rest + b);
      HeldSplit(rest, b);
      SumAssociates(multiset(first), Held(rest), Held(b));
    }
  }

  lemma HeldCons(first: seq<nat>, rest: seq<seq<nat>>)
    ensures Held([first] + rest) == multiset(first) + Held(rest)
  {
    assert ([first] + rest)[1..] == rest;
  }

  lemma HeldParts(before: seq<seq<nat>>, blocks: seq<nat>, after: seq<seq<nat>>)
    ensures Held(before + ([blocks] + after)) == Held(before) + multiset(blocks) + Held(after)
  {
    HeldSplit(before, [blocks] + after);
    HeldCons(blocks, after);
    SumAssociates(Held(before), multiset(blocks), Held(after));
  }

  lemma HeldAt(tables: seq<seq<nat>>, i: nat)
    requires i < |tables|
    ensures Held(tables) == Held(tables[..i]) + multiset(tables[i]) + Held(tables[i + 1..])
  {
    hide Held;
    assert tables == tables[..i] + ([tables[i]] + tables[i + 1..]);
    HeldParts(tables[..i], tables[i], tables[i + 1..]);
  }

  lemma HeldUpdate(tables: seq<seq<nat>>, i: nat, blocks: seq<nat>)
    requires i < |tables|
    ensures Held(tables[i := blocks]) + multiset(tables[i]) == Held(tables) + multiset(blocks)
  {
    HeldAt(tables, i);
    HeldAt(tables[i := blocks], i);
    assert tables[i := blocks][..i] == tables[..i] && tables[i := blocks][i + 1..] == tables[i + 1..];
  }

  lemma TwiceInSeq(s: seq<nat>, a: nat, b: nat)
    requires a < b < |s| && s[a] == s[b]
    ensures multiset(s)[s[a]] >= 2
  {
    assert s == s[..a] + [s[a]] + s[a + 1..b] + [s[b]] + s[b + 1..];
  }

  lemma HeldTwice(tables: seq<seq<nat>>, i: nat, a: nat, j: nat, b: nat)
    requires i < |tables| && a < |tables[i]| && j < |tables| && b < |tables[j]|
    requires tables[i][a] == tables[j][b] && (i < j || (i == j && a < b))
    ensures Held(tables)[tables[i][a]] >= 2
  {
    var x := tables[i][a];
    HeldAt(tables, i);
    if i == j {
      TwiceInSeq(tables[i], a, b);
    } else {
      HeldAt(tables[i + 1..], j - i - 1);
      assert tables[i + 1..][j - i - 1] == tables[j];
      assert x in multiset(tables[i]) && x in multiset(tables[j]);
    }
  }

  /** Under `Owned` a block id occurs at one place only. */
  lemma UniquePlace(free: seq<nat>, tables: seq<seq<nat>>, n: nat, i: nat, a: nat, j: nat, b: nat)
    requires Owned(free, tables, n)
    requires i < |tables| && a < |tables[i]| && j < |tables| && b < |tables[j]|
    requires tables[i][a] == tables[j][b]
    ensures i == j && a == b
  {
    AllIdsOnce(n, tables[i][a]);
    if i < j || (i == j && a < b) {
      HeldTwice(tables, i, a, j, b);
    } else if j < i || (i == j && b < a) {
      HeldTwice(tables, j, b, i, a);
    }
  }

  /** A table of an owned pool repeats no block, and two of them share none. */
  lemma OwnedTablesApart(free: seq<nat>, tables: seq<seq<nat>>, n: nat, i: nat, j: nat)
    requires Owned(free, tables, n) && i < |tables| && j < |tables|
    ensures NoDup(tables[i])
    ensures i != j ==> Disjoint(tables[i], tables[j])
  {
    forall a, b | 0 <= a < b < |tables[i]|
      ensures tables[i][a] != tables[i][b]
    {
      if tables[i][a] == tables[i][b] {
        UniquePlace(free, tables, n, i, a, i, b);
      }
    }
    forall x | x in tables[i] && x in tables[j]
      ensures i == j
    {
      var a :| 0 <= a < |tables[i]| && tables[i][a] == x;
      var b :| 0 <= b < |tables[j]| && tables[j][b] == x;
      UniquePlace(free, tables, n, i, a, j, b);
    }
  }

  /** Distinct (table, in-range position) pairs locate to distinct physical slots. */
  lemma DistinctSlots(free: seq<nat>, tables: seq<seq<nat>>, n: nat, bs: Positive, i: nat, p: nat, j: nat, q: nat)
    requires Owned(free, tables, n)
    requires i < |tables| && BlocksFor(p + 1, bs) <= |tables[i]|
    requires j < |tables| && BlocksFor(q + 1, bs) <= |tables[j]|
    requires i != j || p != q
    ensures Place(tables[i], bs, p) != Place(tables[j], bs, q)
  {
    OwnedTablesApart(free, tables, n, i, j);
    if i == j && Place(tables[i], bs, p) == Place(tables[j], bs, q) {
      PlaceInjective(tables[i], bs, p, q);
    }
  }

  /** Ids held by a table are ids of the pool. */
  lemma OwnedInRange(free: seq<nat>, tables: seq<seq<nat>>, n: nat, i: nat, a: nat)
    requires Owned(free, tables, n) && i < |tables| && a < |tables[i]|
    ensures tables[i][a] < n
  {
    AllIdsOnce(n, tables[i][a]);
    HeldAt(tables, i);
    assert tables[i][a] in multiset(tables[i]);
  }

  ghost function HeldCount(tables: seq<seq<nat>>): nat {
    if tables == [] then 0 else |tables[0]| + HeldCount(tables[1..])
  }

  lemma {:induction false} HeldSize(tables: seq<seq<nat>>)
    ensures |Held(tables)| == HeldCount(tables)
  {
    if tables != [] {
      HeldSize(tables[1..]);
    }
  }

  /** Conservation by count: free blocks plus held blocks are all the blocks. */
  lemma OwnedCounts(free: seq<nat>, tables: seq<seq<nat>>, n: nat)
    requires Owned(free, tables, n)
    ensures |free| + HeldCount(tables) == n
  {
    HeldSize(tables);
    assert |multiset(free) + Held(tables)| == |AllIds(n)|;
    assert |AllIds(n)| == |seq(n, i => i)|;
  }

  // ---------------------------------------------------------------------------------------------------------------
  // Runs of allocator operations on any number of tables

  datatype Op = Ensure(table: nat, nTokens: nat) | Release(table: nat)

  datatype Alloc = Alloc(free: seq<nat>, tables: seq<seq<nat>>)

  function Apply(s: Alloc, op: Op, bs: Positive): Alloc
    requires op.table < |s.tables|
  {
    match op
    case Ensure(t, k) =>
      var g := Grow(s.free, s.tables[t], BlocksFor(k, bs));
      Alloc(g.free, s.tables[t := g.blocks])
    case Release(t) =>
      Alloc(s.free + s.tables[t], s.tables[t := []])
  }

  ghost predicate OpsFit(ops: seq<Op>, nTables: nat) {
    forall k :: 0 <= k < |ops| ==> ops[k].table < nTables
  }

  function RunOps(s: Alloc, ops: seq<Op>, bs: Positive): Alloc
    requires OpsFit(ops, |s.tables|)
    decreases |ops|
  {
    if ops == [] then s
    else
      var rest := ops[1..];
      assert forall k :: 0 <= k < |rest| ==> rest[k] == ops[k + 1];
      RunOps(Apply(s, ops[0], bs), rest, bs)
  }

  /** `(0..n).rev()`: the free list of a new allocator. */
  function Descending(n: nat): seq<nat> {
    seq(n, i requires 0 <= i < n => n - 1 - i)
  }

  lemma {:induction false} DescendingIsAll(n: nat)
    ensures multiset(Descending(n)) == AllIds(n)
  {
    if n > 0 {
      DescendingIsAll(n - 1);
      assert Descending(n) == [n - 1] + Descending(n - 1);
      assert seq(n, i => i) == seq(n - 1, i => i) + [n - 1];
    }
  }

  /** Blocks that move between the free list and one table leave the union as it was. */
  lemma Exchange(free: multiset<nat>, held: multiset<nat>, own: multiset<nat>,
                 free': multiset<nat>, held': multiset<nat>, own': multiset<nat>)
    requires free' + own' == free + own && held' + own == held + own'
    ensures free' + held' == free + held
  {
    forall b
      ensures (free' + held')[b] == (free + held)[b]
    {
      assert (free' + own')[b] == (free + own)[b] && (held' + own)[b] == (held + own')[b];
    }
  }

  /** One table and the free list exchange blocks: ownership of the whole pool is kept. */
  lemma OwnedExchange(free: seq<nat>, tables: seq<seq<nat>>, n: nat, t: nat, free': seq<nat>, blocks: seq<nat>)
    requires t < |tables| && Owned(free, tables, n)
    requires multiset(free') + multiset(blocks) == multiset(free) + multiset(tables[t])
    ensures Owned(free', tables[t := blocks], n)
  {
    HeldUpdate(tables, t, blocks);
    Exchange(multiset(free), Held(tables), multiset(tables[t]),
             multiset(free'), Held(tables[t := blocks]), multiset(blocks));
  }

  /** A table goes away and its blocks return to the free list. */
  lemma OwnedDrop(free: seq<nat>, before: seq<seq<nat>>, blocks: seq<nat>, after: seq<seq<nat>>, n: nat)
    requires Owned(free, before + ([blocks] + after), n)
    ensures Owned(free + blocks, before + after, n)
  {
    HeldParts(before, blocks, after);
    HeldSplit(before, after);
    assert multiset(free + blocks) == multiset(free) + multiset(blocks);
    SumDrops(multiset(free), multiset(blocks), Held(before), Held(after));
  }

  lemma SumDrops(f: multiset<nat>, b: multiset<nat>, x: multiset<nat>, y: multiset<nat>)
    ensures (f + b) + (x + y) == f + (x + b + y)
  {
  }

  /** A table changes hands with the free list in place. */
  lemma OwnedReplace(free: seq<nat>, before: seq<seq<nat>>, blocks: seq<nat>, after: seq<seq<nat>>, n: nat,
                     free': seq<nat>, blocks': seq<nat>)
    requires Owned(free, before + ([blocks] + after), n)
    requires multiset(free') + multiset(blocks') == multiset(free) + multiset(blocks)
    ensures Owned(free', before + ([blocks'] + after), n)
  {
    var tables, t := before + ([blocks] + after), |before|;
    assert tables[t] == blocks && tables[t := blocks'] == before + ([blocks'] + after);
    OwnedExchange(free, tables, n, t, free', blocks');
  }

  lemma ApplyOwned(s: Alloc, op: Op, bs: Positive, n: nat)
    requires op.table < |s.tables| && Owned(s.free, s.tables, n)
    ensures Owned(Apply(s, op, bs).free, Apply(s, op, bs).tables, n)
  {
    var t := op.table;
    match op {
      case Ensure(_, k) =>
        var g := Grow(s.free, s.tables[t], BlocksFor(k, bs));
        GrowExact(s.free, s.tables[t], BlocksFor(k, bs));
        OwnedExchange(s.free, s.tables, n, t, g.free, g.blocks);
      case Release(_) =>
        OwnedExchange(s.free, s.tables, n, t, s.free + s.tables[t], []);
    }
  }

  /** From any owned state, any sequence of operations on any tables keeps every block owned exactly once. */
  lemma {:induction false} RunOpsOwned(s: Alloc, ops: seq<Op>, bs: Positive, n: nat)
    requires OpsFit(ops, |s.tables|) && Owned(s.free, s.tables, n)
    ensures var r := RunOps(s, ops, bs);
            Owned(r.free, r.tables, n) && |r.tables| == |s.tables|
    decreases |ops|
  {
    if ops != [] {
      ApplyOwned(s, ops[0], bs, n);
      var rest := ops[1..];
      assert forall k :: 0 <= k < |rest| ==> rest[k] == ops[k + 1];
      RunOpsOwned(Apply(s, ops[0], bs), rest, bs, n);
    }
  }

  /** The same from a new allocator and any number of empty tables. */
  lemma FreshRunOwned(n: nat, nTables: nat, ops: seq<Op>, bs: Positive)
    requires OpsFit(ops, nTables)
    ensures var r := RunOps(Alloc(Descending(n), seq(nTables, _ => [])), ops, bs);
            Owned(r.free, r.tables, n)
  {
    var tables: seq<seq<nat>> := seq(nTables, _ => []);
    HeldEmpty(tables);
    DescendingIsAll(n);
    RunOpsOwned(Alloc(Descending(n), tables), ops, bs, n);
  }

  lemma {:induction false} HeldEmpty(tables: seq<seq<nat>>)
    requires forall i :: 0 <= i < |tables| ==> tables[i] == []
    ensures Held(tables) == multiset{}
  {
    if tables != [] {
      HeldEmpty(tables[1..]);
    }
  }

  // ---------------------------------------------------------------------------------------------------------------
  // The classes

  class BlockTable {
    var blocks: seq<nat>

    constructor ()
      ensures blocks == []
    {
      blocks := [];
    }
  }

  class BlockAllocator {
    const blockSize: Positive
    var free: seq<nat>

    constructor (numBlocks: nat, blockSize: Positive)
      ensures this.blockSize == blockSize
      ensures free == Descending(numBlocks)
    {
      this.blockSize := blockSize;
      free := Descending(numBlocks);
    }

    /** Blocks needed to hold `nTokens` tokens. */
    function BlocksNeeded(nTokens: nat): (need: nat)
      ensures need == BlocksFor(nTokens, blockSize)
    {
      BlocksForIsDivCeil(nTokens, blockSize);
      (nTokens + blockSize - 1) / blockSize
    }

    method EnsureCapacity(table: BlockTable, nTokens: nat) returns (ok: bool)
      modifies this`free, table
      ensures Grown(ok, free, table.blocks)
           == Grow(old(free), old(table.blocks), BlocksFor(nTokens, blockSize))
    {
      var need := BlocksNeeded(nTokens);
      if need <= |table.blocks| {
        return true;
      }
      var extra := need - |table.blocks|;
      if extra > |free| {
        return false;
      }
      for k := 0 to extra
        invariant free == old(free)[..|old(free)| - k]
        invariant table.blocks == old(table.blocks) + Popped(old(free), k)
      {
        var last := |free| - 1;
        table.blocks := table.blocks + [free[last]];
        free := free[..last];
        assert Popped(old(free), k + 1) == Popped(old(free), k) + [old(free)[last]];
      }
      ok := true;
    }

    method Release(table: BlockTable)
      modifies this`free, table
      ensures free == old(free) + old(table.blocks)
      ensures table.blocks == []
    {
      free := free + table.blocks;
      table.blocks := [];
    }

    /** Physical (block id, slot) of a sequence-local token position. */
    function Locate(table: BlockTable, pos: nat): (at: (nat, nat))
      requires BlocksFor(pos + 1, blockSize) <= |table.blocks|
      reads table
      ensures at == Place(table.blocks, blockSize, pos)
    {
      PlaceIsDivMod(table.blocks, blockSize, pos);
      (table.blocks[pos / blockSize], pos % blockSize)
    }
  }
}
