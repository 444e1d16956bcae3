/** The fixed-block memory pool of the FreeRTOS port: a free list whose links are
    stored in the first bytes of the free blocks themselves. */
module Freelist {
  import opened PointerBytes

  const NULL: nat := 0

  /** Where the pool lies and how it is cut up. In the source: 16 blocks of 128
      bytes, and the pointer width of the target. */
  datatype Layout = Layout(base: nat, blockSize: nat, count: nat, width: nat) {
    predicate Valid() {
      base > 0 && count > 0 && 0 < width <= blockSize && base + Offset(count) < Pow256(width)
    }

    /** `i` blocks further on. */
    function Offset(i: nat): nat {
      if i == 0 then 0 else Offset(i - 1) + blockSize
    }

    function Address(i: nat): nat {
      base + Offset(i)
    }
  }

  lemma {:induction false} OffsetIsProduct(l: Layout, i: nat)
    ensures l.Offset(i) == i * l.blockSize
  {
    if i == 0 {
    } else {
      OffsetIsProduct(l, i - 1);
      assert i * l.blockSize == (i - 1) * l.blockSize + l.blockSize;
    }
  }

  predicate Fits(l: Layout, mem: seq<Byte>) {
    l.Valid() && |mem| == l.Offset(l.count)
  }

  lemma {:induction false} BlocksApart(l: Layout, i: nat, j: nat)
    requires i < j
    ensures l.Offset(i) + l.blockSize <= l.Offset(j)
  {
    if i + 1 < j { BlocksApart(l, i, j - 1); }
  }

  lemma BlockInArea(l: Layout, i: nat)
    requires l.Valid() && i < l.count
    ensures l.Offset(i) + l.blockSize <= l.Offset(l.count)
    ensures NULL < l.Address(i) < Pow256(l.width)
  {
    BlocksApart(l, i, l.count);
  }

  lemma AddressesDiffer(l: Layout, i: nat, j: nat)
    requires l.Valid() && l.Address(i) == l.Address(j)
    ensures i == j
  {
    if i < j { BlocksApart(l, i, j); }
    if j < i { BlocksApart(l, j, i); }
  }

  /** The link stored in block `i`. */
  function Link(l: Layout, mem: seq<Byte>, i: nat): nat
    requires Fits(l, mem) && i < l.count
  {
    BlockInArea(l, i);
    Decode(mem[l.Offset(i)..l.Offset(i) + l.width])
  }

  /** `mem` with link `v` stored in block `i`. */
  function SetLink(l: Layout, mem: seq<Byte>, i: nat, v: nat): (r: seq<Byte>)
    requires Fits(l, mem) && i < l.count
    ensures Fits(l, r)
  {
    BlockInArea(l, i);
    Write(mem, l.Offset(i), Encode(v, l.width))
  }

  /** From `head` the links lead through exactly the blocks `free`, to NULL. */
  predicate Chain(l: Layout, mem: seq<Byte>, head: nat, free: seq<nat>)
    requires Fits(l, mem)
    decreases |free|
  {
    if free == [] then head == NULL
    else free[0] < l.count && head == l.Address(free[0]) && Chain(l, mem, Link(l, mem, free[0]), free[1..])
  }

  predicate Distinct(s: seq<nat>) {
    forall i, j :: 0 <= i < j < |s| ==> s[i] != s[j]
  }

  function Blocks(n: nat): (s: set<nat>)
    ensures |s| == n && forall i: nat :: i in s <==> i < n
  {
    if n == 0 then {} else Blocks(n - 1) + {n - 1}
  }

  function Elements(s: seq<nat>): set<nat> {
    set x | x in s
  }

  /** Every block is free or outstanding, and not both. */
  ghost predicate Partition(n: nat, free: seq<nat>, out: set<nat>) {
    && Distinct(free)
    && (forall i | 0 <= i < |free| :: free[i] < n && free[i] !in out)
    && (forall i: nat | i < n :: i in free || i in out)
    && (forall i | i in out :: i < n)
  }

  // ----- what a write leaves of the list -----

  lemma LinkIsStored(l: Layout, mem: seq<Byte>, i: nat, v: nat)
    requires Fits(l, mem) && i < l.count && v < Pow256(l.width)
    ensures Link(l, SetLink(l, mem, i, v), i) == v
  {
    BlockInArea(l, i);
    RoundTrip(v, l.width);
  }

  lemma StoredKeepsOthers(l: Layout, mem: seq<Byte>, i: nat, v: nat)
    requires Fits(l, mem) && i < l.count && v < Pow256(l.width)
    ensures Link(l, SetLink(l, mem, i, v), i) == v
    ensures forall j: nat | j < l.count && j != i :: Link(l, SetLink(l, mem, i, v), j) == Link(l, mem, j)
  {
    LinkIsStored(l, mem, i, v);
    BlockInArea(l, i);
    forall j: nat | j < l.count && j != i
      ensures Link(l, SetLink(l, mem, i, v), j) == Link(l, mem, j)
    {
      LinkElsewhere(l, mem, SetLink(l, mem, i, v), i, j);
    }
  }

  lemma StoredIsSetLink(l: Layout, was: seq<Byte>, now: seq<Byte>, i: nat, v: nat)
    requires Fits(l, was) && Fits(l, now) && i < l.count && l.Offset(i) + l.width <= |was|
    requires forall j :: 0 <= j < l.width ==> now[l.Offset(i) + j] == Encode(v, l.width)[j]
    requires forall j :: 0 <= j < |was| && !(l.Offset(i) <= j < l.Offset(i) + l.width) ==> now[j] == was[j]
    ensures now == SetLink(l, was, i, v)
  {
    var a, r := l.Offset(i), SetLink(l, was, i, v);
    forall j | 0 <= j < |was|
      ensures now[j] == r[j]
    {
      if a <= j < a + l.width {
        assert r[a..a + l.width][j - a] == r[j];
        assert now[a + (j - a)] == Encode(v, l.width)[j - a];
      }
    }
  }

  /** Writing a block's own link back changes no byte. */
  lemma SetLinkBack(l: Layout, mem: seq<Byte>, i: nat)
    requires Fits(l, mem) && i < l.count
    ensures SetLink(l, mem, i, Link(l, mem, i)) == mem
  {
    BlockInArea(l, i);
    var a := l.Offset(i);
    DecodeThenEncode(mem[a..a + l.width]);
    assert mem == mem[..a] + mem[a..a + l.width] + mem[a + l.width..];
  }

  /** Two memories that agree outside block `i`. */
  predicate SameOutside(l: Layout, mem: seq<Byte>, mem1: seq<Byte>, i: nat)
    requires Fits(l, mem) && Fits(l, mem1)
  {
    forall k :: 0 <= k < |mem| && !(l.Offset(i) <= k < l.Offset(i) + l.blockSize) ==> mem1[k] == mem[k]
  }

  lemma LinkElsewhere(l: Layout, mem: seq<Byte>, mem1: seq<Byte>, i: nat, j: nat)
    requires Fits(l, mem) && Fits(l, mem1) && SameOutside(l, mem, mem1, i)
    requires i < l.count && j < l.count && i != j
    ensures Link(l, mem1, j) == Link(l, mem, j)
  {
    BlockInArea(l, j);
    if i < j { BlocksApart(l, i, j); } else { BlocksApart(l, j, i); }
    var a := l.Offset(j);
    assert mem1[a..a + l.width] == mem[a..a + l.width];
  }

  /** Whatever is written into a block that is not free, the list stays. */
  lemma {:induction false} ChainElsewhere(l: Layout, mem: seq<Byte>, mem1: seq<Byte>, head: nat, free: seq<nat>, i: nat)
    requires Fits(l, mem) && Fits(l, mem1) && SameOutside(l, mem, mem1, i) && i < l.count
    requires Chain(l, mem, head, free) && i !in free
    ensures Chain(l, mem1, head, free)
    decreases |free|
  {
    if free == [] {
    } else {
      assert free[0] in free;
      LinkElsewhere(l, mem, mem1, i, free[0]);
      ChainElsewhere(l, mem, mem1, Link(l, mem, free[0]), free[1..], i);
    }
  }

  /** The memory determines the list. */
  lemma {:induction false} ChainIsUnique(l: Layout, mem: seq<Byte>, head: nat, f: seq<nat>, g: seq<nat>)
    requires Fits(l, mem) && Chain(l, mem, head, f) && Chain(l, mem, head, g)
    ensures f == g
    decreases |f|
  {
    if f == [] {
    } else {
      BlockInArea(l, f[0]);
      assert g != [];
      AddressesDiffer(l, f[0], g[0]);
      ChainIsUnique(l, mem, Link(l, mem, f[0]), f[1..], g[1..]);
    }
  }

  /** Every block below `n` holds a link to the next one. */
  predicate LinkedUpTo(l: Layout, mem: seq<Byte>, n: nat)
    requires Fits(l, mem) && n < l.count
  {
    forall j: nat | j < n :: Link(l, mem, j) == l.Address(j + 1)
  }

  /** Following `k` stored links from pointer `p` arrives at pointer `q`. */
  ghost predicate LeadsTo(l: Layout, mem: seq<Byte>, p: nat, k: nat, q: nat)
    requires Fits(l, mem)
    decreases k
  {
    if k == 0 then p == q
    else exists i: nat | i < l.count :: p == l.Address(i) && LeadsTo(l, mem, Link(l, mem, i), k - 1, q)
  }

  lemma {:induction false} LinksLeadThrough(l: Layout, mem: seq<Byte>, head: nat, free: seq<nat>, k: nat)
    requires Fits(l, mem) && Chain(l, mem, head, free) && k <= |free|
    ensures LeadsTo(l, mem, head, k, if k < |free| then l.Address(free[k]) else NULL)
    decreases k
  {
    if k == 0 {
    } else {
      LinksLeadThrough(l, mem, Link(l, mem, free[0]), free[1..], k - 1);
    }
  }

  /** The links in the blocks lead from block to block and to no block twice; every
      pointer on the way is the address of a block of the pool. */
  lemma ListIsAcyclic(l: Layout, mem: seq<Byte>, head: nat, free: seq<nat>, out: set<nat>, j: nat, k: nat)
    requires Fits(l, mem) && Chain(l, mem, head, free) && Partition(l.count, free, out)
    requires j <= k < |free|
    ensures free[k] < l.count && LeadsTo(l, mem, head, k, l.Address(free[k]))
    ensures l.Address(free[j]) == l.Address(free[k]) ==> j == k
  {
    LinksLeadThrough(l, mem, head, free, k);
    if l.Address(free[j]) == l.Address(free[k]) { AddressesDiffer(l, free[j], free[k]); }
  }

  /** And after as many links as there are free blocks, to NULL. */
  lemma ListEnds(l: Layout, mem: seq<Byte>, head: nat, free: seq<nat>, out: set<nat>)
    requires Fits(l, mem) && Chain(l, mem, head, free) && Partition(l.count, free, out)
    ensures LeadsTo(l, mem, head, |free|, NULL) && |free| <= l.count
  {
    LinksLeadThrough(l, mem, head, free, |free|);
    FreePlusOutstanding(l.count, free, out);
  }

  /** Links to the next block, from block `k` to the last, make a list. */
  lemma {:induction false} RangeChain(l: Layout, mem: seq<Byte>, k: nat)
    requires Fits(l, mem) && k < l.count
    requires LinkedUpTo(l, mem, l.count - 1)
    requires Link(l, mem, l.count - 1) == NULL
    ensures Chain(l, mem, l.Address(k), Range(k, l.count))
    decreases l.count - k
  {
    if k + 1 < l.count {
      RangeChain(l, mem, k + 1);
      assert Range(k, l.count)[1..] == Range(k + 1, l.count);
    } else {
      assert Range(k, l.count) == [k] && [k][1..] == [];
    }
  }

  function Range(k: nat, n: nat): (r: seq<nat>)
    requires k <= n
    ensures |r| == n - k && forall i :: 0 <= i < n - k ==> r[i] == k + i
    decreases n - k
  {
    if k == n then [] else [k] + Range(k + 1, n)
  }

  /** Pushing a block on the list: its link becomes the old head. */
  lemma PushChain(l: Layout, mem: seq<Byte>, head: nat, free: seq<nat>, i: nat)
    requires Fits(l, mem) && Chain(l, mem, head, free) && i < l.count && i !in free
    ensures Chain(l, SetLink(l, mem, i, head), l.Address(i), [i] + free)
  {
    var mem1 := SetLink(l, mem, i, head);
    HeadIsPointer(l, mem, head, free);
    LinkIsStored(l, mem, i, head);
    BlockInArea(l, i);
    ChainElsewhere(l, mem, mem1, head, free, i);
    assert ([i] + free)[1..] == free;
  }

  lemma HeadIsPointer(l: Layout, mem: seq<Byte>, head: nat, free: seq<nat>)
    requires Fits(l, mem) && Chain(l, mem, head, free)
    ensures head < Pow256(l.width)
  {
    if free != [] { BlockInArea(l, free[0]); }
  }

  lemma NullMeansEmpty(l: Layout, mem: seq<Byte>, head: nat, free: seq<nat>)
    requires Fits(l, mem) && Chain(l, mem, head, free)
    ensures head == NULL <==> free == []
  {
    if free != [] { BlockInArea(l, free[0]); }
  }

  /** What the creation loop leaves is a list of all the blocks in order. */
  lemma FreshPool(l: Layout, mem: seq<Byte>)
    requires Fits(l, mem) && LinkedUpTo(l, mem, l.count - 1) && Link(l, mem, l.count - 1) == NULL
    ensures Chain(l, mem, l.base, Range(0, l.count)) && Partition(l.count, Range(0, l.count), {})
  {
    RangeChain(l, mem, 0);
    FirstAddress(l);
    AllBlocksFree(l.count);
  }

  lemma FirstAddress(l: Layout)
    ensures l.Address(0) == l.base
  {
  }

  lemma AllBlocksFree(n: nat)
    ensures Partition(n, Range(0, n), {})
  {
    var r := Range(0, n);
    forall i: nat | i < n
      ensures i in r
    {
      assert r[i] == i;
    }
  }

  // ----- counting -----

  lemma {:induction false} DistinctCount(s: seq<nat>)
    requires Distinct(s)
    ensures |Elements(s)| == |s|
  {
    if s == [] {
      assert Elements(s) == {};
    } else {
      var t := s[..|s| - 1];
      DistinctCount(t);
      assert s == t + [s[|s| - 1]];
      assert Elements(s) == Elements(t) + {s[|s| - 1]};
      assert s[|s| - 1] !in t;
    }
  }

  /** Free and outstanding blocks together are all blocks, so the pool is exhausted
      exactly when as many are outstanding as there are. */
  lemma FreePlusOutstanding(n: nat, free: seq<nat>, out: set<nat>)
    requires Partition(n, free, out)
    ensures |free| + |out| == n
    ensures free == [] <==> |out| == n
  {
    var f := Elements(free);
    DistinctCount(free);
    assert Blocks(n) == f + out && f !! out;
    assert |f + out| == |f| + |out|;
  }

  // ----- the pool as a stack -----

  /** Allocate; give back block `i`; write byte `v` at offset `k` of block `i`. */
  datatype Op = Alloc | Free(i: nat) | Poke(i: nat, k: nat, v: Byte)

  datatype Stack = Stack(free: seq<nat>, out: set<nat>)

  /** Clients give back and write to nothing but blocks they own. */
  predicate Legal(l: Layout, p: Stack, op: Op) {
    match op
    case Alloc => true
    case Free(i) => i in p.out
    case Poke(i, k, _) => i in p.out && k < l.blockSize
  }

  function StackStep(p: Stack, op: Op): Stack {
    match op
    case Alloc => if p.free == [] then p else Stack(p.free[1..], p.out + {p.free[0]})
    case Free(i) => Stack([i] + p.free, p.out - {i})
    case Poke(_, _, _) => p
  }

  predicate AllLegal(l: Layout, p: Stack, ops: seq<Op>)
    decreases |ops|
  {
    ops == [] || (Legal(l, p, ops[0]) && AllLegal(l, StackStep(p, ops[0]), ops[1..]))
  }

  function StackRun(p: Stack, ops: seq<Op>): Stack
    decreases |ops|
  {
    if ops == [] then p else StackRun(StackStep(p, ops[0]), ops[1..])
  }

  /** The pointers the allocations among `ops` hand out, NULL for a refusal. */
  function Handed(l: Layout, p: Stack, ops: seq<Op>): seq<nat>
    decreases |ops|
  {
    if ops == [] then []
    else
      (if !ops[0].Alloc? then [] else if p.free == [] then [NULL] else [l.Address(p.free[0])])
      + Handed(l, StackStep(p, ops[0]), ops[1..])
  }

  lemma PopKeepsPartition(n: nat, free: seq<nat>, out: set<nat>)
    requires Partition(n, free, out) && free != []
    ensures Partition(n, free[1..], out + {free[0]})
  {
    forall i: nat | i < n
      ensures i in free[1..] || i in out + {free[0]}
    {
      if i in free {
        var k :| 0 <= k < |free| && free[k] == i;
        if k > 0 { assert free[1..][k - 1] == i; }
      }
    }
  }

  lemma PushKeepsPartition(n: nat, free: seq<nat>, out: set<nat>, i: nat)
    requires Partition(n, free, out) && i in out
    ensures Partition(n, [i] + free, out - {i})
  {
    var g := [i] + free;
    forall j: nat | j < n
      ensures j in g || j in out - {i}
    {
      if j in free {
        var k :| 0 <= k < |free| && free[k] == j;
        assert g[k + 1] == j;
      } else {
        assert g[0] == i;
      }
    }
    forall j, k | 0 <= j < k < |g|
      ensures g[j] != g[k]
    {
      assert g[k] == free[k - 1];
    }
  }

  lemma StepKeepsPartition(l: Layout, p: Stack, op: Op)
    requires Partition(l.count, p.free, p.out) && Legal(l, p, op)
    ensures Partition(l.count, StackStep(p, op).free, StackStep(p, op).out)
  {
    match op
    case Alloc => if p.free != [] { PopKeepsPartition(l.count, p.free, p.out); }
    case Free(i) => PushKeepsPartition(l.count, p.free, p.out, i);
    case Poke(_, _, _) =>
  }

  /** In every run each block is free or outstanding and never both. */
  lemma {:induction false} RunKeepsPartition(l: Layout, p: Stack, ops: seq<Op>)
    requires Partition(l.count, p.free, p.out) && AllLegal(l, p, ops)
    ensures Partition(l.count, StackRun(p, ops).free, StackRun(p, ops).out)
    decreases |ops|
  {
    if ops == [] {
    } else {
      StepKeepsPartition(l, p, ops[0]);
      RunKeepsPartition(l, StackStep(p, ops[0]), ops[1..]);
    }
  }

  /** From stack `p` the operations `ops` lead to `last`, and hand out what is
      missing from `handed` to `all`. */
  predicate Ahead(l: Layout, last: Stack, all: seq<nat>, handed: seq<nat>, p: Stack, ops: seq<Op>) {
    AllLegal(l, p, ops) && StackRun(p, ops) == last && handed + Handed(l, p, ops) == all
  }

  lemma Proceed(l: Layout, last: Stack, all: seq<nat>, handed: seq<nat>, p: Stack, ops: seq<Op>)
    requires ops != [] && Ahead(l, last, all, handed, p, ops)
    ensures Legal(l, p, ops[0])
    ensures Ahead(l, last, all,
                  if !ops[0].Alloc? then handed
                  else handed + [if p.free == [] then NULL else l.Address(p.free[0])],
                  StackStep(p, ops[0]), ops[1..])
  {
  }

  lemma {:induction false} RunAppend(p: Stack, a: seq<Op>, b: seq<Op>)
    ensures StackRun(p, a + b) == StackRun(StackRun(p, a), b)
    decreases |a|
  {
    if a == [] {
      assert a + b == b;
    } else {
      assert (a + b)[1..] == a[1..] + b;
      RunAppend(StackStep(p, a[0]), a[1..], b);
    }
  }

  /** Allocate as many blocks as `k`, then give them back in the opposite order. */
  function Nested(p: Stack, k: nat): seq<Op>
    requires k <= |p.free|
    decreases k
  {
    if k == 0 then [] else [Alloc] + Nested(StackStep(p, Alloc), k - 1) + [Free(p.free[0])]
  }

  /** Last given back, first handed out: properly nested use restores the pool. */
  lemma {:induction false} NestedUseRestores(l: Layout, p: Stack, k: nat)
    requires Partition(l.count, p.free, p.out) && k <= |p.free|
    ensures StackRun(p, Nested(p, k)) == p
    decreases k
  {
    if k == 0 {
    } else {
      var i, q := p.free[0], StackStep(p, Alloc);
      StepKeepsPartition(l, p, Alloc);
      NestedUseRestores(l, q, k - 1);
      var inner := Nested(q, k - 1);
      assert ([Alloc] + inner + [Free(i)])[1..] == inner + [Free(i)];
      RunAppend(q, inner, [Free(i)]);
      assert [Free(i)][1..] == [];
      assert StackRun(q, [Free(i)]) == StackRun(StackStep(q, Free(i)), []);
      assert [i] + p.free[1..] == p.free;
      assert p.out + {i} - {i} == p.out;
    }
  }

  // ----- what clients find in their blocks -----

  /** Byte `k` of block `j`. */
  function ByteOf(l: Layout, mem: seq<Byte>, j: nat, k: nat): Byte
    requires Fits(l, mem) && j < l.count && k < l.blockSize
  {
    BlockInArea(l, j);
    mem[l.Offset(j) + k]
  }

  /** What byte `k` of block `j` is after `op`, for a client that keeps the block. */
  function Written(op: Op, j: nat, k: nat, was: Byte): Byte {
    if op.Poke? && op.i == j && op.k == k then op.v else was
  }

  function LastWritten(ops: seq<Op>, j: nat, k: nat, was: Byte): Byte {
    if ops == [] then was else Written(ops[|ops| - 1], j, k, LastWritten(ops[..|ops| - 1], j, k, was))
  }

  /** `op` changes no byte of a block that is owned and not given back, but the one a
      client writes. */
  ghost predicate KeepsOwned(l: Layout, mem: seq<Byte>, mem1: seq<Byte>, out: set<nat>, op: Op)
    requires Fits(l, mem) && Fits(l, mem1)
  {
    forall j: nat, k: nat | j < l.count && k < l.blockSize && j in out && op != Free(j) ::
      ByteOf(l, mem1, j, k) == Written(op, j, k, ByteOf(l, mem, j, k))
  }

  /** So do all of `ops`, for the blocks of `out0` that none of them gives back; these
      are all in `out` still. */
  ghost predicate KeptOwned(l: Layout, mem0: seq<Byte>, mem: seq<Byte>, out0: set<nat>, out: set<nat>, ops: seq<Op>)
    requires Fits(l, mem0) && Fits(l, mem)
  {
    && (forall j: nat | j in out0 && Free(j) !in ops :: j in out)
    && (forall j: nat, k: nat | j < l.count && k < l.blockSize && j in out0 && Free(j) !in ops ::
          ByteOf(l, mem, j, k) == LastWritten(ops, j, k, ByteOf(l, mem0, j, k)))
  }

  lemma KeptOneMore(l: Layout, mem0: seq<Byte>, mem: seq<Byte>, mem1: seq<Byte>,
                    out0: set<nat>, p: Stack, ops: seq<Op>, op: Op)
    requires Fits(l, mem0) && Fits(l, mem) && Fits(l, mem1)
    requires KeptOwned(l, mem0, mem, out0, p.out, ops) && KeepsOwned(l, mem, mem1, p.out, op)
    ensures KeptOwned(l, mem0, mem1, out0, StackStep(p, op).out, ops + [op])
  {
    var more := ops + [op];
    assert more[..|more| - 1] == ops && more[|ops|] == op;
    assert forall x | x in ops :: x in more;
    assert forall j: nat | j in out0 && Free(j) !in more :: op != Free(j) && j in p.out;
  }

  lemma GivingBackKeepsOwned(l: Layout, mem: seq<Byte>, i: nat, head: nat, out: set<nat>)
    requires Fits(l, mem) && i < l.count
    ensures KeepsOwned(l, mem, SetLink(l, mem, i, head), out, Free(i))
  {
    BlockInArea(l, i);
    var mem1 := SetLink(l, mem, i, head);
    forall j: nat, k: nat | j < l.count && k < l.blockSize && j in out && Free(i) != Free(j)
      ensures ByteOf(l, mem1, j, k) == ByteOf(l, mem, j, k)
    {
      BlockInArea(l, j);
      if i < j { BlocksApart(l, i, j); } else { BlocksApart(l, j, i); }
    }
  }

  lemma WritingKeepsOwned(l: Layout, mem: seq<Byte>, i: nat, at: nat, v: Byte, out: set<nat>)
    requires Fits(l, mem) && i < l.count && at < l.blockSize
    ensures l.Offset(i) + at < |mem| && KeepsOwned(l, mem, mem[l.Offset(i) + at := v], out, Poke(i, at, v))
  {
    BlockInArea(l, i);
    var mem1 := mem[l.Offset(i) + at := v];
    forall j: nat, k: nat | j < l.count && k < l.blockSize && j in out
      ensures ByteOf(l, mem1, j, k) == Written(Poke(i, at, v), j, k, ByteOf(l, mem, j, k))
    {
      BlockInArea(l, j);
      if i < j { BlocksApart(l, i, j); }
      if j < i { BlocksApart(l, j, i); }
    }
  }

  // ----- the code itself -----

  datatype Status = Success | Error

  class Pool {
    const l: Layout
    const area: array<Byte>
    var head: nat
    ghost var free: seq<nat>
    ghost var out: set<nat>

    ghost predicate Shaped()
      reads this, area
    {
      Fits(l, area[..])
    }

    ghost predicate Valid()
      reads this, area
    {
      && Shaped()
      && Chain(l, area[..], head, free)
      && Partition(l.count, free, out)
    }

    constructor (l: Layout)
      requires l.Valid()
      ensures Shaped() && this.l == l && fresh(area)
    {
      this.l := l;
      OffsetIsProduct(l, l.count);
      area := new Byte[l.count * l.blockSize];
      head, free, out := NULL, [], {};
    }

    /** Stores a pointer at the start of the block at `ptr`. */
    method StoreLink(ptr: nat, value: nat, ghost i: nat)
      requires Shaped() && i < l.count && ptr == l.Address(i)
      modifies area
      ensures Shaped() && area[..] == SetLink(l, old(area[..]), i, value)
    {
      BlockInArea(l, i);
      var bytes := Encode(value, l.width);
      var at := ptr - l.base;
      var k := 0;
      while k < l.width
        invariant 0 <= k <= l.width
        invariant forall j :: 0 <= j < k ==> area[at + j] == bytes[j]
        invariant forall j :: 0 <= j < area.Length && !(at <= j < at + k) ==> area[j] == old(area[j])
      {
        area[at + k] := bytes[k];
        k := k + 1;
      }
      StoredIsSetLink(l, old(area[..]), area[..], i, value);
    }

    /** Loads the pointer at the start of the block at `ptr`. */
    method LoadLink(ptr: nat, ghost i: nat) returns (value: nat)
      requires Shaped() && i < l.count && ptr == l.Address(i)
      ensures value == Link(l, area[..], i)
    {
      BlockInArea(l, i);
      var at := ptr - l.base;
      value := Decode(area[at..at + l.width]);
      assert area[at..at + l.width] == area[..][at..at + l.width];
    }

    method Create(poolId: int) returns (status: Status)
      requires Shaped()
      modifies this, area
      ensures status == (if poolId == 0 then Success else Error)
      ensures poolId == 0 ==> Valid() && free == Range(0, l.count) && out == {}
      ensures poolId != 0 ==> Shaped() && unchanged(this, area)
    {
      if poolId < 0 || poolId >= 1 { return Error; }
      head := l.base;
      BuildList();
      free, out := Range(0, l.count), {};
      FreshPool(l, area[..]);
      return Success;
    }

    method BuildList()
      requires Shaped()
      modifies area
      ensures Shaped() && LinkedUpTo(l, area[..], l.count - 1) && Link(l, area[..], l.count - 1) == NULL
    {
      var i := 0;
      while i < l.count - 1
        invariant 0 <= i <= l.count - 1 && Shaped() && LinkedUpTo(l, area[..], i)
      {
        LinkNextBlock(i);
        i := i + 1;
      }
      TerminateList();
    }

    /** One turn of the loop above. */
    method LinkNextBlock(i: nat)
      requires Shaped() && i + 1 < l.count && LinkedUpTo(l, area[..], i)
      modifies area
      ensures Shaped() && LinkedUpTo(l, area[..], i + 1)
    {
      ghost var mem := area[..];
      BlockInArea(l, i + 1);
      OffsetIsProduct(l, i);
      OffsetIsProduct(l, i + 1);
      StoreLink(l.base + i * l.blockSize, l.base + (i + 1) * l.blockSize, i);
      StoredKeepsOthers(l, mem, i, l.Address(i + 1));
    }

    method TerminateList()
      requires Shaped() && LinkedUpTo(l, area[..], l.count - 1)
      modifies area
      ensures Shaped() && LinkedUpTo(l, area[..], l.count - 1) && Link(l, area[..], l.count - 1) == NULL
    {
      ghost var mem := area[..];
      BlockInArea(l, l.count - 1);
      OffsetIsProduct(l, l.count - 1);
      StoreLink(l.base + (l.count - 1) * l.blockSize, NULL, l.count - 1);
      StoredKeepsOthers(l, mem, l.count - 1, NULL);
    }

    method Allocate(poolId: int) returns (status: Status, ptr: nat)
      requires Valid()
      modifies this
      ensures Valid() && area[..] == old(area[..])
      ensures status == Error <==> poolId != 0 || old(free) == []
      ensures poolId == 0 ==> (status == Error <==> |old(out)| == l.count)
      ensures status == Error ==> ptr == NULL && free == old(free) && out == old(out)
      ensures status == Success ==>
        && ptr == l.Address(old(free)[0]) && old(free)[0] !in old(out)
        && Stack(free, out) == StackStep(Stack(old(free), old(out)), Alloc)
        && old(free)[0] < l.count && head == Link(l, area[..], old(free)[0])
    {
      if poolId < 0 || poolId >= 1 { return Error, NULL; }
      var block := head;
      NullMeansEmpty(l, area[..], head, free);
      FreePlusOutstanding(l.count, free, out);
      if block == NULL {
        return Error, NULL;
      }
      ghost var i := free[0];
      StepKeepsPartition(l, Stack(free, out), Alloc);
      head := LoadLink(block, i);
      free, out := free[1..], out + {i};
      return Success, block;
    }

    /** Gives the block `i` that starts at `ptr` back. */
    method Deallocate(poolId: int, ptr: nat, ghost i: nat) returns (status: Status)
      requires Valid() && i in out && ptr == l.Address(i)
      modifies this, area
      ensures Valid() && status == (if poolId == 0 then Success else Error)
      ensures status == Error ==> free == old(free) && out == old(out) && area[..] == old(area[..])
      ensures status == Success ==>
        && Stack(free, out) == StackStep(Stack(old(free), old(out)), Free(i))
        && head == ptr && area[..] == SetLink(l, old(area[..]), i, old(head))
    {
      if poolId < 0 || poolId >= 1 { return Error; }
      PushChain(l, area[..], head, free, i);
      StepKeepsPartition(l, Stack(free, out), Free(i));
      StoreLink(ptr, head, i);
      head := ptr;
      free, out := [i] + free, out - {i};
      return Success;
    }

    /** A client writes a byte of a block it owns. */
    method ClientWrite(i: nat, k: nat, v: Byte)
      requires Valid() && i in out && k < l.blockSize
      modifies area
      ensures Valid() && free == old(free) && out == old(out) && head == old(head)
      ensures i < l.count && l.Offset(i) + k < area.Length && area[..] == old(area[..])[l.Offset(i) + k := v]
    {
      BlockInArea(l, i);
      ghost var mem := area[..];
      area[l.Offset(i) + k] := v;
      ChainElsewhere(l, mem, area[..], head, free, i);
    }

    /** Any sequence of operations by clients that touch only what they own leaves
        the pool what the stack says, and hands out the pointers it says. Clients find
        in the blocks they keep what they last wrote there. */
    method Drive(ops: seq<Op>) returns (handed: seq<nat>)
      requires Valid() && AllLegal(l, Stack(free, out), ops)
      modifies this, area
      ensures Valid() && Stack(free, out) == StackRun(Stack(old(free), old(out)), ops)
      ensures handed == Handed(l, Stack(old(free), old(out)), ops)
      ensures KeptOwned(l, old(area[..]), area[..], old(out), out, ops)
    {
      ghost var last, all, rest := StackRun(Stack(free, out), ops), Handed(l, Stack(free, out), ops), ops;
      handed := [];
      var n := 0;
      while n < |ops|
        invariant 0 <= n <= |ops| && rest == ops[n..] && Valid()
        invariant Ahead(l, last, all, handed, Stack(free, out), rest)
        invariant KeptOwned(l, old(area[..]), area[..], old(out), out, ops[..n])
      {
        Proceed(l, last, all, handed, Stack(free, out), rest);
        ghost var mem, p := area[..], Stack(free, out);
        var ptr := Perform(ops[n]);
        KeptOneMore(l, old(area[..]), mem, area[..], old(out), p, ops[..n], ops[n]);
        assert ops[..n + 1] == ops[..n] + [ops[n]];
        if ops[n].Alloc? { handed := handed + [ptr]; }
        rest, n := rest[1..], n + 1;
      }
      assert ops[..n] == ops;
    }

    method Perform(op: Op) returns (ptr: nat)
      requires Valid() && Legal(l, Stack(free, out), op)
      modifies this, area
      ensures Valid() && Stack(free, out) == StackStep(Stack(old(free), old(out)), op)
      ensures op.Alloc? ==> ptr == if old(free) == [] then NULL else l.Address(old(free)[0])
      ensures KeepsOwned(l, old(area[..]), area[..], old(out), op)
    {
      ptr := NULL;
      match op {
        case Alloc =>
          var status, block := Allocate(0);
          ptr := block;
        case Free(i) =>
          GivingBackKeepsOwned(l, area[..], i, head, out);
          var status := Deallocate(0, l.Address(i), i);
        case Poke(i, k, v) =>
          WritingKeepsOwned(l, area[..], i, k, v, out);
          ClientWrite(i, k, v);
      }
    }

    /** A client that allocates `k` blocks and gives them back in the opposite order,
        without writing to them, leaves every byte of the pool as it was. */
    method NestedUse(k: nat)
      requires Valid() && k <= |free|
      modifies this, area
      ensures Valid() && head == old(head) && area[..] == old(area[..])
      ensures free == old(free) && out == old(out)
      decreases k
    {
      if k > 0 {
        ghost var i, q := free[0], Stack(free, out);
        var _, ptr := Allocate(0);
        NestedUse(k - 1);
        SetLinkBack(l, area[..], i);
        var _ := Deallocate(0, ptr, i);
        assert [i] + q.free[1..] == q.free && q.out + {i} - {i} == q.out;
      }
    }

    /** `turns` turns of the benchmark's loop: it never breaks, counts every turn
        and leaves every byte of the pool as it was. */
    method BenchmarkLoop(turns: nat) returns (counter: nat, broke: bool)
      requires Valid() && free != []
      modifies this, area
      ensures Valid() && !broke && counter == turns
      ensures free == old(free) && out == old(out) && head == old(head) && area[..] == old(area[..])
    {
      counter, broke := 0, false;
      var n := 0;
      while n < turns && !broke
        invariant 0 <= n <= turns && Valid() && !broke && counter == n
        invariant free == old(free) && out == old(out) && head == old(head) && area[..] == old(area[..])
      {
        ghost var i, q := free[0], Stack(free, out);
        var status, ptr := Allocate(0);
        if status != Success {
          broke := true;
        } else {
          SetLinkBack(l, area[..], i);
          status := Deallocate(0, ptr, i);
          assert [i] + q.free[1..] == q.free && q.out + {i} - {i} == q.out;
          if status != Success {
            broke := true;
          } else {
            counter := counter + 1;
          }
        }
        n := n + 1;
      }
    }
  }
}
