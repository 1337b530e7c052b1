/**
 A pool of equal blocks whose free list is kept in the free blocks themselves: the first word
 of a free block is the address of the next one, and the same word belongs to the client while
 the block is out.  Addresses are natural numbers and 0 is the null pointer.
 */
module PoolAllocator {
  import Bits

  type Address = nat

  /** Size of a free node: one pointer. */
  const NODE_SIZE: nat := 8

  // ----- the stride -----

  function Required(objectSize: nat): nat {
    if objectSize < NODE_SIZE then NODE_SIZE else objectSize
  }

  function BlockStride(objectSize: nat, alignment: nat): nat
    requires alignment > 0
  {
    ((Required(objectSize) + alignment - 1) / alignment) * alignment
  }

  /** The stride is the least multiple of the alignment that fits an object and a free node. */
  lemma StrideIsLeast(objectSize: nat, alignment: nat, other: nat)
    requires alignment > 0
    ensures BlockStride(objectSize, alignment) % alignment == 0
    ensures BlockStride(objectSize, alignment) >= objectSize && BlockStride(objectSize, alignment) >= NODE_SIZE
    ensures other % alignment == 0 && other >= objectSize && other >= NODE_SIZE ==>
              BlockStride(objectSize, alignment) <= other
  {
    var r := Required(objectSize);
    var q := (r + alignment - 1) / alignment;
    RoundUp(r, alignment, q, (r + alignment - 1) % alignment);
    Bits.QuotientUnique(BlockStride(objectSize, alignment), alignment, q, 0);
    if other % alignment == 0 && other >= r {
      var o := other / alignment;
      assert other == alignment * o;
      if o < q {
        Bits.MultiplesApart(alignment, o, q);
      } else if q < o {
        Bits.MultiplesApart(alignment, q, o);
      }
    }
  }

  lemma RoundUp(r: nat, alignment: nat, q: nat, rest: nat)
    requires alignment > 0 && r + alignment - 1 == alignment * q + rest && rest < alignment
    ensures r <= q * alignment == alignment * q < r + alignment
  {
  }

  // ----- where the blocks lie -----

  /** Where the memory of a pool lies. */
  datatype Layout = Layout(base: Address, count: nat, stride: nat)

  /** `operator new` returned a real address, and a block can hold a node. */
  predicate Proper(l: Layout) {
    l.base > 0 && l.count > 0 && l.stride >= NODE_SIZE
  }

  function BlockAt(l: Layout, i: nat): Address {
    l.base + i * l.stride
  }

  ghost predicate IsBlock(l: Layout, a: Address) {
    exists i: nat :: i < l.count && a == BlockAt(l, i)
  }

  lemma BlocksApart(l: Layout, i: nat, j: nat)
    requires i < j
    ensures BlockAt(l, i) + l.stride <= BlockAt(l, j)
  {
    Bits.MultiplesApart(l.stride, i, j);
    assert l.stride * i == i * l.stride && l.stride * j == j * l.stride;
  }

  /** Blocks are in range, pairwise disjoint and as aligned as the pool itself. */
  lemma BlocksInRange(l: Layout, alignment: nat, i: nat)
    requires i < l.count && alignment > 0 && l.base % alignment == 0 && l.stride % alignment == 0
    ensures l.base <= BlockAt(l, i) && BlockAt(l, i) + l.stride <= l.base + l.count * l.stride
    ensures BlockAt(l, i) % alignment == 0
  {
    BlocksApart(l, i, l.count);
    var b, s := l.base / alignment, l.stride / alignment;
    assert l.base == alignment * b && l.stride == alignment * s;
    AlignedSum(alignment, b, s, i);
  }

  lemma AlignedSum(alignment: nat, b: nat, s: nat, i: nat)
    requires alignment > 0
    ensures (alignment * b + i * (alignment * s)) % alignment == 0
  {
    assert alignment * b + i * (alignment * s) == alignment * (b + i * s);
    Bits.QuotientUnique(alignment * (b + i * s), alignment, b + i * s, 0);
  }

  lemma BlocksDisjoint(l: Layout, a: Address, b: Address)
    requires Proper(l) && IsBlock(l, a) && IsBlock(l, b) && a != b
    ensures a + l.stride <= b || b + l.stride <= a
  {
    hide BlockAt;
    var i: nat :| i < l.count && a == BlockAt(l, i);
    var j: nat :| j < l.count && b == BlockAt(l, j);
    if i < j { BlocksApart(l, i, j); } else { BlocksApart(l, j, i); }
  }

  lemma BlockIsReal(l: Layout, a: Address)
    requires Proper(l) && IsBlock(l, a)
    ensures a > 0
  {
  }

  // ----- the pool as a value -----

  /** The word stored at each address; what was never written reads as anything, here 0. */
  type Memory = map<Address, nat>

  function Word(words: Memory, a: Address): nat {
    if a in words then words[a] else 0
  }

  /** `out` lists the blocks clients hold; the allocator itself keeps no such record. */
  datatype Pool = Pool(words: Memory, freeList: Address, available: int, out: set<Address>)

  datatype Op =
    | Allocate
    | Deallocate(a: Address)
    | Reset
    | Scribble(words: Memory)   // clients write what they like into the blocks they hold

  /** Building the list: each block in turn is put in front. */
  function Built(l: Layout, words: Memory, i: nat): (Memory, Address) {
    if i == 0 then (words, 0)
    else
      var (w, head) := Built(l, words, i - 1);
      (w[BlockAt(l, i - 1) := head], BlockAt(l, i - 1))
  }

  function Fresh(l: Layout, words: Memory): Pool {
    var (w, head) := Built(l, words, l.count);
    Pool(w, head, l.count, {})
  }

  ghost predicate Inside(l: Layout, out: set<Address>, a: Address) {
    exists b :: b in out && b <= a < b + l.stride
  }

  /** Clients give back null or a block they hold, and write only into blocks they hold. */
  ghost predicate Enabled(l: Layout, p: Pool, op: Op) {
    match op
    case Allocate => true
    case Deallocate(a) => a == 0 || a in p.out
    case Reset => true
    case Scribble(words) => forall a: Address :: !Inside(l, p.out, a) ==> Word(words, a) == Word(p.words, a)
  }

  function Result(p: Pool): Address {
    p.freeList
  }

  function Apply(l: Layout, p: Pool, op: Op): Pool {
    match op
    case Allocate =>
      if p.freeList == 0 then p
      else Pool(p.words, Word(p.words, p.freeList), p.available - 1, p.out + {p.freeList})
    case Deallocate(a) =>
      if a == 0 then p else Pool(p.words[a := p.freeList], a, p.available + 1, p.out - {a})
    case Reset => Fresh(l, p.words)
    case Scribble(words) => p.(words := words)
  }

  // ----- the free list -----

  /** The first `n` nodes of the list that starts at `head`. */
  function Walk(words: Memory, head: Address, n: nat): (chain: seq<Address>)
    ensures |chain| == n
    decreases n
  {
    if n == 0 then [] else [head] + Walk(words, Word(words, head), n - 1)
  }

  /** Where the list goes on after `n` nodes. */
  function End(words: Memory, head: Address, n: nat): Address
    decreases n
  {
    if n == 0 then head else End(words, Word(words, head), n - 1)
  }

  /** Nodes of the free list, as many as `available` counts. */
  function FreeNodes(p: Pool): seq<Address> {
    if p.available < 0 then [] else Walk(p.words, p.freeList, p.available)
  }

  /** Acyclic, without repetition, and exactly the blocks that are not out. */
  ghost predicate Sound(l: Layout, p: Pool) {
    && p.available >= 0 && End(p.words, p.freeList, p.available) == 0
    && Distinct(FreeNodes(p))
    && (forall a: Address :: a in FreeNodes(p) ==> IsBlock(l, a) && a !in p.out)
    && (forall a: Address :: IsBlock(l, a) ==> a in p.out || a in FreeNodes(p))
    && (forall a: Address :: a in p.out ==> IsBlock(l, a))
  }

  ghost predicate Distinct<T>(chain: seq<T>) {
    forall i, j :: 0 <= i < j < |chain| ==> chain[i] != chain[j]
  }

  /** Writing elsewhere does not change a list. */
  lemma {:induction false} WalkElsewhere(words: Memory, words': Memory, head: Address, n: nat)
    requires forall a: Address :: a in Walk(words, head, n) ==> Word(words', a) == Word(words, a)
    ensures Walk(words', head, n) == Walk(words, head, n)
    ensures End(words', head, n) == End(words, head, n)
    decreases n
  {
    if n > 0 {
      assert Walk(words, head, n)[0] == head;
      forall a: Address | a in Walk(words, Word(words, head), n - 1) ensures Word(words', a) == Word(words, a) {
        assert a in Walk(words, head, n);
      }
      WalkElsewhere(words, words', Word(words, head), n - 1);
    }
  }

  // ----- building -----

  /** Blocks `i - 1` down to 0. */
  function Descending(l: Layout, i: nat): (chain: seq<Address>)
    ensures |chain| == i
    ensures forall k :: 0 <= k < i ==> chain[k] == BlockAt(l, i - 1 - k)
  {
    if i == 0 then [] else [BlockAt(l, i - 1)] + Descending(l, i - 1)
  }

  lemma {:induction false} BuiltChain(l: Layout, words: Memory, i: nat)
    requires Proper(l)
    ensures Walk(Built(l, words, i).0, Built(l, words, i).1, i) == Descending(l, i)
    ensures End(Built(l, words, i).0, Built(l, words, i).1, i) == 0
  {
    hide Proper, BlockAt, Word;
    if i > 0 {
      BuiltChain(l, words, i - 1);
      var (w, head) := Built(l, words, i - 1);
      WriteAbove(l, w, i, head);
      WalkElsewhere(w, w[BlockAt(l, i - 1) := head], head, i - 1);
      Written(w, BlockAt(l, i - 1), head);
    }
  }

  lemma Written(w: Memory, b: Address, head: Address)
    ensures Word(w[b := head], b) == head
  {
  }

  /** Writing the next block leaves the blocks below it alone. */
  lemma WriteAbove(l: Layout, w: Memory, i: nat, head: Address)
    requires Proper(l) && i > 0
    ensures forall a: Address :: a in Descending(l, i - 1) ==> Word(w[BlockAt(l, i - 1) := head], a) == Word(w, a)
  {
    hide BlockAt;
    forall a: Address | a in Descending(l, i - 1) ensures Word(w[BlockAt(l, i - 1) := head], a) == Word(w, a) {
      var k :| 0 <= k < i - 1 && Descending(l, i - 1)[k] == a;
      BlocksApart(l, i - 2 - k, i - 1);
    }
  }

  /** A pool that was just built or reset lists every block, the last one first. */
  lemma FreshIsSound(l: Layout, words: Memory)
    requires Proper(l)
    ensures Sound(l, Fresh(l, words))
    ensures FreeNodes(Fresh(l, words)) == Descending(l, l.count)
  {
    BuiltChain(l, words, l.count);
    var chain := Descending(l, l.count);
    forall i, j | 0 <= i < j < |chain| ensures chain[i] != chain[j] {
      BlocksApart(l, l.count - 1 - j, l.count - 1 - i);
    }
    forall a: Address | IsBlock(l, a) ensures a in chain {
      var i: nat :| i < l.count && a == BlockAt(l, i);
      assert chain[l.count - 1 - i] == a;
    }
    forall a: Address | a in chain ensures IsBlock(l, a) {
      var k :| 0 <= k < |chain| && chain[k] == a;
      assert a == BlockAt(l, l.count - 1 - k);
    }
  }

  /** Each of the first `i` blocks is linked to the one below it; the list starts with the last of them. */
  ghost predicate Linked(l: Layout, words: Memory, head: Address, i: nat) {
    && head == (if i == 0 then 0 else BlockAt(l, i - 1))
    && (i > 0 ==> Word(words, BlockAt(l, 0)) == 0)
    && (forall k: nat :: 0 < k < i ==> Word(words, BlockAt(l, k)) == BlockAt(l, k - 1))
  }

  lemma NoneLinked(l: Layout, words: Memory)
    ensures Linked(l, words, 0, 0)
  {
  }

  lemma OneMoreLinked(l: Layout, words: Memory, head: Address, i: nat)
    requires Proper(l) && Linked(l, words, head, i)
    ensures Linked(l, words[BlockAt(l, i) := head], BlockAt(l, i), i + 1)
  {
    hide BlockAt;
    forall k: nat | k < i ensures BlockAt(l, k) != BlockAt(l, i) { BlocksApart(l, k, i); }
    if i > 0 { assert BlockAt(l, 0) != BlockAt(l, i); }
  }

  lemma BlockWritten(l: Layout, i: nat)
    ensures BlockAt(l, i) == l.base + i * l.stride
  {
  }

  lemma LinkedWritten(l: Layout, words: Memory, head: Address)
    requires Proper(l) && Linked(l, words, head, l.count)
    ensures head == l.base + (l.count - 1) * l.stride
    ensures forall k: nat :: k < l.count ==>
              Word(words, l.base + k * l.stride) == if k == 0 then 0 else l.base + (k - 1) * l.stride
  {
    hide Word, BlockAt, Linked;
    LinkedAt(l, words, head, l.count - 1);
    BlockWritten(l, l.count - 1);
    forall k: nat | k < l.count
      ensures Word(words, l.base + k * l.stride) == if k == 0 then 0 else l.base + (k - 1) * l.stride
    {
      LinkedAt(l, words, head, k);
      BlockWritten(l, k);
      if k > 0 { BlockWritten(l, k - 1); }
    }
  }

  lemma LinkedAt(l: Layout, words: Memory, head: Address, k: nat)
    requires Linked(l, words, head, l.count) && k < l.count
    ensures Word(words, BlockAt(l, k)) == if k == 0 then 0 else BlockAt(l, k - 1)
    ensures head == BlockAt(l, l.count - 1)
  {
  }

  // ----- each operation keeps the list -----

  /** A non-null result of `allocate` was not out; null means that every block is. */
  lemma AllocateHandsOutAFreeBlock(l: Layout, p: Pool)
    requires Proper(l) && Sound(l, p)
    ensures Result(p) != 0 ==> IsBlock(l, Result(p)) && Result(p) !in p.out
    ensures Result(p) == 0 <==> p.available == 0
    ensures Result(p) == 0 <==> forall a: Address :: IsBlock(l, a) ==> a in p.out
  {
    if p.available > 0 {
      assert FreeNodes(p)[0] == p.freeList;
      BlockIsReal(l, p.freeList);
    }
  }

  lemma AllocateKeepsList(l: Layout, p: Pool)
    requires Proper(l) && Sound(l, p)
    ensures Sound(l, Apply(l, p, Allocate))
    ensures Result(p) != 0 ==> FreeNodes(p) == [Result(p)] + FreeNodes(Apply(l, p, Allocate))
    ensures Result(p) != 0 ==> Apply(l, p, Allocate).out == p.out + {Result(p)}
  {
    hide Walk, End, IsBlock, Proper, Distinct;
    AllocateHandsOutAFreeBlock(l, p);
    if p.freeList != 0 {
      FirstOfList(p);
      HeadAndTail(FreeNodes(p), p.freeList, FreeNodes(Apply(l, p, Allocate)));
    }
  }

  lemma FirstOfList(p: Pool)
    requires p.available > 0
    ensures Walk(p.words, p.freeList, p.available) ==
              [p.freeList] + Walk(p.words, Word(p.words, p.freeList), p.available - 1)
    ensures End(p.words, p.freeList, p.available) == End(p.words, Word(p.words, p.freeList), p.available - 1)
  {
  }

  lemma HeadAndTail<T>(chain: seq<T>, head: T, tail: seq<T>)
    requires Distinct(chain) && chain == [head] + tail
    ensures Distinct(tail) && head !in tail
    ensures forall a :: a in chain <==> a == head || a in tail
  {
    forall i, j | 0 <= i < j < |tail| ensures tail[i] != tail[j] {
      assert chain[i + 1] != chain[j + 1];
    }
    forall i | 0 <= i < |tail| ensures tail[i] != head {
      assert chain[0] != chain[i + 1];
    }
  }

  lemma DeallocateKeepsList(l: Layout, p: Pool, a: Address)
    requires Proper(l) && Sound(l, p) && a in p.out
    ensures Sound(l, Apply(l, p, Deallocate(a)))
    ensures FreeNodes(Apply(l, p, Deallocate(a))) == [a] + FreeNodes(p)
  {
    var p' := Apply(l, p, Deallocate(a));
    BlockIsReal(l, a);
    WalkElsewhere(p.words, p'.words, p.freeList, p.available);
    assert FreeNodes(p') == [a] + FreeNodes(p);
  }

  lemma ScribbleKeepsList(l: Layout, p: Pool, words: Memory)
    requires Proper(l) && Sound(l, p) && Enabled(l, p, Scribble(words))
    ensures Sound(l, Apply(l, p, Scribble(words)))
    ensures FreeNodes(Apply(l, p, Scribble(words))) == FreeNodes(p)
  {
    forall a: Address | a in FreeNodes(p) ensures Word(words, a) == Word(p.words, a) {
      if Inside(l, p.out, a) {
        var b :| b in p.out && b <= a < b + l.stride;
        BlocksDisjoint(l, a, b);
      }
    }
    WalkElsewhere(p.words, words, p.freeList, p.available);
  }

  lemma StepKeepsList(l: Layout, p: Pool, op: Op)
    requires Proper(l) && Sound(l, p) && Enabled(l, p, op)
    ensures Sound(l, Apply(l, p, op))
  {
    hide Sound, Enabled;
    match op {
      case Allocate => AllocateKeepsList(l, p);
      case Deallocate(a) => if a != 0 { HeldBlock(l, p, a); DeallocateKeepsList(l, p, a); }
      case Reset => FreshIsSound(l, p.words);
      case Scribble(words) => ScribbleKeepsList(l, p, words);
    }
  }

  lemma HeldBlock(l: Layout, p: Pool, a: Address)
    requires a != 0 && Enabled(l, p, Deallocate(a))
    ensures a in p.out
  {
  }

  // ----- runs -----

  ghost predicate Runs(l: Layout, p: Pool, ops: seq<Op>)
    decreases |ops|
  {
    ops == [] || (Enabled(l, p, ops[0]) && Runs(l, Apply(l, p, ops[0]), ops[1..]))
  }

  function After(l: Layout, p: Pool, ops: seq<Op>): Pool
    decreases |ops|
  {
    if ops == [] then p else After(l, Apply(l, p, ops[0]), ops[1..])
  }

  lemma {:induction false} RunKeepsList(l: Layout, p: Pool, ops: seq<Op>)
    requires Proper(l) && Sound(l, p) && Runs(l, p, ops)
    ensures Sound(l, After(l, p, ops))
    decreases |ops|
  {
    hide Sound, Enabled, Apply;
    if ops != [] {
      StepKeepsList(l, p, ops[0]);
      RunKeepsList(l, Apply(l, p, ops[0]), ops[1..]);
    }
  }

  /**
   After any run of a new pool the list holds exactly the blocks that are not out, none twice,
   the counter is its length, and with the blocks that are out it makes up the capacity.
   */
  lemma FreeListIsExact(l: Layout, words: Memory, ops: seq<Op>)
    requires Proper(l) && Runs(l, Fresh(l, words), ops)
    ensures var p := After(l, Fresh(l, words), ops);
            && Sound(l, p)
            && p.available + |p.out| == l.count
            && (Result(p) != 0 ==> Result(p) !in p.out && IsBlock(l, Result(p)))
            && (Result(p) == 0 <==> |p.out| == l.count)
  {
    FreshIsSound(l, words);
    RunKeepsList(l, Fresh(l, words), ops);
    var p := After(l, Fresh(l, words), ops);
    hide After, Runs, Apply, Fresh;
    AllocateHandsOutAFreeBlock(l, p);
    AvailableIsTheRest(l, p);
  }

  function Blocks(l: Layout, i: nat): set<Address> {
    if i == 0 then {} else Blocks(l, i - 1) + {BlockAt(l, i - 1)}
  }

  lemma {:induction false} BlockCount(l: Layout, i: nat)
    requires Proper(l) && i <= l.count
    ensures |Blocks(l, i)| == i
    ensures forall a: Address :: a in Blocks(l, i) ==> IsBlock(l, a)
    ensures forall k: nat :: k < i ==> BlockAt(l, k) in Blocks(l, i)
    ensures forall a: Address :: a in Blocks(l, i) && i > 0 ==> a <= BlockAt(l, i - 1)
  {
    if i > 0 {
      BlockCount(l, i - 1);
      if i > 1 { BlocksApart(l, i - 2, i - 1); }
      assert IsBlock(l, BlockAt(l, i - 1));
    }
  }

  function Elements<T(!new)>(chain: seq<T>): (e: set<T>)
    ensures forall a :: a in e <==> a in chain
  {
    if chain == [] then {} else Elements(chain[1..]) + {chain[0]}
  }

  lemma {:induction false} DistinctCount<T(!new)>(chain: seq<T>)
    requires Distinct(chain)
    ensures |Elements(chain)| == |chain|
  {
    if chain != [] {
      assert chain == [chain[0]] + chain[1..];
      HeadAndTail(chain, chain[0], chain[1..]);
      DistinctCount(chain[1..]);
    }
  }

  lemma PartsCount<T>(whole: set<T>, x: set<T>, y: set<T>)
    requires x * y == {} && x + y == whole
    ensures |x| + |y| == |whole|
  {
  }

  lemma AvailableIsTheRest(l: Layout, p: Pool)
    requires Proper(l) && Sound(l, p)
    ensures p.available + |p.out| == l.count
  {
    hide Walk, End, Elements, Blocks, BlockAt;
    DistinctCount(FreeNodes(p));
    BlockCount(l, l.count);
    assert Elements(FreeNodes(p)) + p.out == Blocks(l, l.count);
    assert Elements(FreeNodes(p)) * p.out == {};
    PartsCount(Blocks(l, l.count), Elements(FreeNodes(p)), p.out);
  }

  // ----- last in, first out -----

  /** Returning a block and asking for one gives the same block and leaves the list as it was. */
  lemma LastInFirstOut(l: Layout, p: Pool, a: Address)
    requires Proper(l) && Sound(l, p) && a in p.out
    ensures var q := Apply(l, p, Deallocate(a));
            Result(q) == a && Apply(l, q, Allocate).freeList == p.freeList
            && FreeNodes(Apply(l, q, Allocate)) == FreeNodes(p) && Apply(l, q, Allocate).out == p.out
  {
    DeallocateKeepsList(l, p, a);
    AllocateKeepsList(l, Apply(l, p, Deallocate(a)));
    BlockIsReal(l, a);
    hide Walk, End;
    var r := FreeNodes(Apply(l, Apply(l, p, Deallocate(a)), Allocate));
    assert ([a] + r)[1..] == r && ([a] + FreeNodes(p))[1..] == FreeNodes(p);
  }

  /** Whatever the client wrote in between, giving back the block just taken restores the list. */
  lemma TakeWriteReturn(l: Layout, p: Pool, words: Memory)
    requires Proper(l) && Sound(l, p) && Result(p) != 0
    requires Enabled(l, Apply(l, p, Allocate), Scribble(words))
    ensures var q := Apply(l, Apply(l, Apply(l, p, Allocate), Scribble(words)), Deallocate(Result(p)));
            q.freeList == p.freeList && FreeNodes(q) == FreeNodes(p) && q.available == p.available && q.out == p.out
  {
    AllocateHandsOutAFreeBlock(l, p);
    AllocateKeepsList(l, p);
    ScribbleKeepsList(l, Apply(l, p, Allocate), words);
    DeallocateKeepsList(l, Apply(l, Apply(l, p, Allocate), Scribble(words)), Result(p));
  }

  // ----- the allocator as an object -----

  class PoolAllocator {
    const layout: Layout
    var words: Memory
    var freeList: Address
    var available: int
    ghost var out: set<Address>

    ghost function State(): Pool
      reads this
    {
      Pool(words, freeList, available, out)
    }

    ghost predicate Valid()
      reads this
    {
      Proper(layout) && Sound(layout, State())
    }

    /** `base` is what the heap answered: a real address as aligned as was asked for. */
    constructor (objectSize: nat, count: nat, alignment: nat, base: Address, memory: Memory)
      requires count > 0 && alignment > 0 && base > 0 && base % alignment == 0
      ensures Valid() && layout == Layout(base, count, BlockStride(objectSize, alignment))
      ensures State() == Fresh(layout, memory)
    {
      layout := Layout(base, count, BlockStride(objectSize, alignment));
      words, freeList, available, out := memory, 0, 0, {};
      new;
      StrideIsLeast(objectSize, alignment, 0);
      BuildFreeList();
    }

    method BuildFreeList()
      requires Proper(layout)
      modifies this
      ensures Valid() && State() == Fresh(layout, old(words))
      ensures available == layout.count && out == {} && freeList == layout.base + (layout.count - 1) * layout.stride
      ensures forall k: nat :: k < layout.count ==>
                Word(words, layout.base + k * layout.stride)
                  == if k == 0 then 0 else layout.base + (k - 1) * layout.stride
    {
      hide Linked, Sound, BlockAt, Proper;
      NoneLinked(layout, words);
      freeList := 0;
      available := layout.count;
      out := {};
      var i := 0;
      while i < layout.count
        invariant 0 <= i <= layout.count
        invariant available == layout.count && out == {}
        invariant (words, freeList) == Built(layout, old(words), i)
        invariant Linked(layout, words, freeList, i)
      {
        ghost var before := words;
        var node := BlockAt(layout, i);
        words := words[node := freeList];
        OneMoreLinked(layout, before, freeList, i);
        freeList := node;
        i := i + 1;
      }
      FreshIsSound(layout, old(words));
      LinkedWritten(layout, words, freeList);
    }

    /** Null when every block is out, else a block nobody holds. */
    method Allocate() returns (block: Address)
      requires Valid()
      modifies this
      ensures Valid() && State() == Apply(layout, old(State()), Op.Allocate)
      ensures block == Result(old(State())) == old(freeList)
      ensures block != 0 ==>
                available == old(available) - 1 && freeList == Word(old(words), block) && words == old(words)
      ensures block == 0 ==> available == old(available) && freeList == 0 && words == old(words) && out == old(out)
      ensures block == 0 <==> forall a: Address :: IsBlock(layout, a) ==> a in old(out)
      ensures block != 0 ==> IsBlock(layout, block) && block !in old(out) && out == old(out) + {block}
    {
      hide Sound, IsBlock;
      AllocateHandsOutAFreeBlock(layout, State());
      AllocateKeepsList(layout, State());
      if freeList == 0 {
        return 0;
      }
      var node := freeList;
      freeList := Word(words, node);
      available := available - 1;
      out := out + {node};
      block := node;
    }

    /** Null is ignored; anything else has to be a block that is out. */
    method Deallocate(block: Address)
      requires Valid() && (block == 0 || block in out)
      modifies this
      ensures Valid() && State() == Apply(layout, old(State()), Op.Deallocate(block))
      ensures block == 0 ==> State() == old(State())
      ensures block != 0 ==>
                && freeList == block && words == old(words)[block := old(freeList)]
                && available == old(available) + 1 && out == old(out) - {block}
    {
      hide Sound;
      if block == 0 {
        return;
      }
      DeallocateKeepsList(layout, State(), block);
      words := words[block := freeList];
      freeList := block;
      available := available + 1;
      out := out - {block};
    }

    method Reset()
      requires Valid()
      modifies this
      ensures Valid() && State() == Apply(layout, old(State()), Op.Reset)
      ensures available == layout.count && out == {} && freeList == layout.base + (layout.count - 1) * layout.stride
    {
      BuildFreeList();
    }
  }
}
