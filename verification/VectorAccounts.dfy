/**
 Any number of vectors and memory managers.  A state records, for each vector, the manager its
 allocator points to and the heap block it uses, and for each manager its table; the steps have
 the effects the methods of class `SoulVector` promise.  Throughout every run a heap block is
 registered with the manager its current owner points to, wherever it was first allocated.
 */
module VectorAccounts {
  import opened MemoryManager
  import opened SoulVector

  type VectorId = object
  type ManagerId = object
  type Block = object

  datatype Storage = Inline | Heap(block: Block, capacity: nat)

  datatype Account = Account(manager: ManagerId, storage: Storage, elementSize: nat) {
    function Claim(): Table<Block> {
      if storage.Inline? then map[] else map[storage.block := AllocationInfo(Bytes(), VECTOR_TAG)]
    }

    function Bytes(): nat {
      if storage.Inline? then 0 else storage.capacity * elementSize
    }
  }

  datatype World = World(vectors: map<VectorId, Account>, tables: map<ManagerId, Table<Block>>)

  datatype Op =
    | Create(v: VectorId, manager: ManagerId, elementSize: nat)
    | Restore(v: VectorId, storage: Storage)          // insert, append, reserve, shrink: any change of own storage
    | MoveNew(v: VectorId, from: VectorId)
    | CopyNew(v: VectorId, from: VectorId, storage: Storage)
    | AssignMove(v: VectorId, from: VectorId)
    | AssignCopy(v: VectorId, from: VectorId, storage: Storage)
    | Swap(v: VectorId, other: VectorId)
    | Destroy(v: VectorId)
    | RegisterOther(manager: ManagerId, p: Block, info: AllocationInfo)
    | UnregisterOther(manager: ManagerId, p: Block)

  /** The heap hands out no address that is in use. */
  ghost predicate Unused(tables: map<ManagerId, Table<Block>>, p: Block) {
    forall m :: m in tables ==> p !in tables[m]
  }

  ghost predicate FreshStorage(tables: map<ManagerId, Table<Block>>, s: Storage) {
    s.Heap? ==> Unused(tables, s.block)
  }

  ghost predicate Enabled(w: World, op: Op) {
    match op
    case Create(v, m, _) => v !in w.vectors && m in w.tables
    case Restore(v, s) => v in w.vectors && (s == w.vectors[v].storage || FreshStorage(w.tables, s))
    case MoveNew(v, from) => v !in w.vectors && from in w.vectors
    case CopyNew(v, from, s) => v !in w.vectors && from in w.vectors && FreshStorage(w.tables, s)
    case AssignMove(v, from) => v in w.vectors && from in w.vectors && SameType(w, v, from)
    case AssignCopy(v, from, s) =>
      v in w.vectors && from in w.vectors && SameType(w, v, from) && FreshStorage(w.tables, s)
    case Swap(v, other) => v in w.vectors && other in w.vectors && SameType(w, v, other)
    case Destroy(v) => v in w.vectors
    case RegisterOther(m, p, info) => m in w.tables && Unused(w.tables, p) && info.tag.hash != VECTOR_TAG.hash
    case UnregisterOther(m, p) =>
      m in w.tables && p in w.tables[m] && w.tables[m][p].tag.hash != VECTOR_TAG.hash
  }

  predicate SameType(w: World, v: VectorId, u: VectorId)
    requires v in w.vectors && u in w.vectors
  {
    w.vectors[v].elementSize == w.vectors[u].elementSize
  }

  function With<P>(t: Table<P>, p: P, info: AllocationInfo): Table<P> {
    t[p := info]
  }

  /** The table of `m` after a claim on it has been exchanged. */
  ghost function Exchange(w: World, m: ManagerId, before: Table<Block>, after: Table<Block>): World
    requires m in w.tables
  {
    w.(tables := w.tables[m := Rebooked(w.tables[m], before, after)])
  }

  function Opened(w: World, v: VectorId, a: Account): World {
    w.(vectors := w.vectors[v := a])
  }

  /** The effect of any method on its own vector: one claim is exchanged for another. */
  ghost function Restored(w: World, v: VectorId, s: Storage): World
    requires v in w.vectors && w.vectors[v].manager in w.tables
  {
    var a := w.vectors[v];
    var b := a.(storage := s);
    Opened(Exchange(w, a.manager, a.Claim(), b.Claim()), v, b)
  }

  /** What `v` holds goes back to its manager. */
  ghost function Released(w: World, v: VectorId): World
    requires v in w.vectors && w.vectors[v].manager in w.tables
  {
    Restored(w, v, Inline)
  }

  /** The manager and the block of `from` pass to `v`; no table is touched. */
  function Adopted(w: World, v: VectorId, from: VectorId): World
    requires from in w.vectors
  {
    var a := w.vectors[from];
    Opened(Opened(w, v, a), from, a.(storage := Inline))
  }

  ghost function Apply(w: World, op: Op): World
    requires Enabled(w, op) && Known(w)
  {
    match op
    case Create(v, m, size) => Opened(w, v, Account(m, Inline, size))
    case Restore(v, s) => Restored(w, v, s)
    case MoveNew(v, from) => Adopted(w, v, from)
    case CopyNew(v, from, s) => Restored(Opened(w, v, w.vectors[from].(storage := Inline)), v, s)
    case AssignMove(v, from) => if v == from then w else Adopted(Released(w, v), v, from)
    case AssignCopy(v, from, s) =>
      if v == from then w
      else Restored(Opened(Released(w, v), v, w.vectors[from].(storage := Inline)), v, s)
    case Swap(v, other) => Opened(Opened(w, v, w.vectors[other]), other, w.vectors[v])
    case Destroy(v) => var r := Released(w, v); r.(vectors := r.vectors - {v})
    case RegisterOther(m, p, info) => w.(tables := w.tables[m := With(w.tables[m], p, info)])
    case UnregisterOther(m, p) => w.(tables := w.tables[m := w.tables[m] - {p}])
  }

  ghost predicate Known(w: World) {
    forall v :: v in w.vectors ==> w.vectors[v].manager in w.tables
  }

  // ----- the invariant -----

  /** The block of `v`, if it has one, is registered where its allocator would look for it. */
  ghost predicate Registered(w: World, v: VectorId)
    requires v in w.vectors && w.vectors[v].manager in w.tables
  {
    var a := w.vectors[v];
    a.storage.Heap? ==>
      a.storage.block in w.tables[a.manager] && w.tables[a.manager][a.storage.block] == a.Claim()[a.storage.block]
  }

  predicate Holds(a: Account, m: ManagerId, p: Block) {
    a.manager == m && a.storage.Heap? && a.storage.block == p
  }

  ghost predicate Owned(w: World, m: ManagerId, p: Block) {
    exists v :: v in w.vectors && Holds(w.vectors[v], m, p)
  }

  predicate Disjoint(s: Storage, t: Storage) {
    s.Heap? && t.Heap? ==> s.block != t.block
  }

  ghost predicate Apart(w: World) {
    forall v, u :: v in w.vectors && u in w.vectors && v != u ==> Disjoint(w.vectors[v].storage, w.vectors[u].storage)
  }

  /** No address is registered twice. */
  ghost predicate OneTable(w: World) {
    forall m, n, p :: m in w.tables && n in w.tables && p in w.tables[m] && p in w.tables[n] ==> m == n
  }

  ghost predicate Balanced(w: World) {
    Known(w) && Apart(w) && OneTable(w) && AllRegistered(w) && AllOwned(w)
  }

  ghost predicate AllRegistered(w: World)
    requires Known(w)
  {
    forall v :: v in w.vectors ==> Registered(w, v)
  }

  ghost predicate AllOwned(w: World) {
    forall m, p :: m in w.tables && p in w.tables[m] && IsVectorBlock(w.tables[m], p) ==> Owned(w, m, p)
  }

  predicate IsVectorBlock(t: Table<Block>, p: Block) {
    p in t && t[p].tag.hash == VECTOR_TAG.hash
  }

  lemma OwnedBy(w: World, m: ManagerId, p: Block, v: VectorId)
    requires v in w.vectors && Holds(w.vectors[v], m, p)
    ensures Owned(w, m, p)
  {
  }

  // ----- each kind of change keeps the books -----

  lemma RestoredOwned(w: World, v: VectorId, s: Storage, m: ManagerId, p: Block)
    requires Known(w) && AllOwned(w) && v in w.vectors && m in w.tables
    requires IsVectorBlock(Restored(w, v, s).tables[m], p)
    ensures Owned(Restored(w, v, s), m, p)
  {
    var w' := Restored(w, v, s);
    if p in w'.vectors[v].Claim() && m == w.vectors[v].manager {
      OwnedBy(w', m, p, v);
    } else {
      assert IsVectorBlock(w.tables[m], p);
      var u :| u in w.vectors && Holds(w.vectors[u], m, p);
      OwnedBy(w', m, p, u);
    }
  }

  lemma RestoredRegistered(w: World, v: VectorId, s: Storage, u: VectorId)
    requires Known(w) && Apart(w) && AllRegistered(w) && v in w.vectors && u in w.vectors
    requires s == w.vectors[v].storage || FreshStorage(w.tables, s)
    ensures Known(Restored(w, v, s)) && u in Restored(w, v, s).vectors && Registered(Restored(w, v, s), u)
  {
    assert Registered(w, u) && Registered(w, v);
    if u != v { assert Disjoint(w.vectors[u].storage, w.vectors[v].storage); }
  }

  lemma RestoredApart(w: World, v: VectorId, s: Storage)
    requires Known(w) && Apart(w) && AllRegistered(w) && v in w.vectors
    requires s == w.vectors[v].storage || FreshStorage(w.tables, s)
    ensures Apart(Restored(w, v, s))
  {
    var w' := Restored(w, v, s);
    forall x, u | x in w'.vectors && u in w'.vectors && x != u
      ensures Disjoint(w'.vectors[x].storage, w'.vectors[u].storage)
    {
      assert Disjoint(w.vectors[x].storage, w.vectors[u].storage);
      assert Registered(w, x) && Registered(w, u);
    }
  }

  lemma RestoredOneTable(w: World, v: VectorId, s: Storage)
    requires Known(w) && OneTable(w) && AllRegistered(w) && v in w.vectors
    requires s == w.vectors[v].storage || FreshStorage(w.tables, s)
    ensures OneTable(Restored(w, v, s))
  {
    assert Registered(w, v);
    var w' := Restored(w, v, s);
    var a := w.vectors[v];
    assert forall m, p :: m in w'.tables && p in w'.tables[m] ==>
      p in w.tables[m] || (m == a.manager && s.Heap? && p == s.block);
  }

  lemma RestoredShape(w: World, v: VectorId, s: Storage)
    requires Known(w) && v in w.vectors
    ensures Known(Restored(w, v, s))
    ensures Restored(w, v, s).vectors.Keys == w.vectors.Keys && Restored(w, v, s).tables.Keys == w.tables.Keys
  {
  }

  lemma RestoredAllRegistered(w: World, v: VectorId, s: Storage)
    requires Known(w) && Apart(w) && AllRegistered(w) && v in w.vectors
    requires s == w.vectors[v].storage || FreshStorage(w.tables, s)
    ensures Known(Restored(w, v, s)) && AllRegistered(Restored(w, v, s))
  {
    RestoredShape(w, v, s);
    hide Restored, Registered, Apart, FreshStorage;
    var w' := Restored(w, v, s);
    forall u | u in w'.vectors ensures Registered(w', u) {
      assert u in w.vectors.Keys;
      RestoredRegistered(w, v, s, u);
    }
  }

  lemma RestoredAllOwned(w: World, v: VectorId, s: Storage)
    requires Known(w) && AllOwned(w) && v in w.vectors
    ensures AllOwned(Restored(w, v, s))
  {
    RestoredShape(w, v, s);
    hide Restored, Known, Owned, IsVectorBlock;
    var w' := Restored(w, v, s);
    forall m, p | m in w'.tables && p in w'.tables[m] && IsVectorBlock(w'.tables[m], p) ensures Owned(w', m, p) {
      assert m in w.tables.Keys;
      RestoredOwned(w, v, s, m, p);
    }
  }

  lemma RestoredBalanced(w: World, v: VectorId, s: Storage)
    requires Balanced(w) && v in w.vectors && (s == w.vectors[v].storage || FreshStorage(w.tables, s))
    ensures Balanced(Restored(w, v, s))
  {
    hide Restored, Apart, OneTable, AllRegistered, AllOwned, FreshStorage;
    RestoredApart(w, v, s);
    RestoredOneTable(w, v, s);
    RestoredAllRegistered(w, v, s);
    RestoredAllOwned(w, v, s);
  }

  /** Who holds in one state what `u` held in the other, when `x` and `y` trade places. */
  function Trade(x: VectorId, y: VectorId, u: VectorId): VectorId {
    if u == x then y else if u == y then x else u
  }

  /** From `w` to `w'` holdings change hands between `x` and `y` only, and no table changes. */
  ghost predicate Handed(w: World, w': World, x: VectorId, y: VectorId) {
    && w'.tables == w.tables
    && (forall v :: v in w'.vectors ==> w'.vectors[v].manager in w.tables)
    && (forall u :: u in w.vectors ==> Kept(w, w', u, Trade(x, y, u)))
    && (forall v :: v in w'.vectors ==> Kept(w', w, v, Trade(x, y, v)))
  }

  /** What `u` holds in `w`, `v` holds in `w'`. */
  predicate Kept(w: World, w': World, u: VectorId, v: VectorId)
    requires u in w.vectors
  {
    w.vectors[u].storage.Heap? ==> v in w'.vectors && w'.vectors[v] == w.vectors[u]
  }

  /** Passing holdings around keeps the books. */
  lemma HandedBalanced(w: World, w': World, x: VectorId, y: VectorId)
    requires Balanced(w) && Handed(w, w', x, y)
    ensures Balanced(w')
  {
    hide Apart, OneTable, AllRegistered, AllOwned, Handed;
    HandedApart(w, w', x, y);
    HandedRegistered(w, w', x, y);
    HandedOwned(w, w', x, y);
    HandedOneTable(w, w', x, y);
  }

  lemma HandedOneTable(w: World, w': World, x: VectorId, y: VectorId)
    requires OneTable(w) && Handed(w, w', x, y)
    ensures OneTable(w')
  {
  }

  lemma HandedApart(w: World, w': World, x: VectorId, y: VectorId)
    requires Apart(w) && Handed(w, w', x, y)
    ensures Apart(w')
  {
    forall v, u | v in w'.vectors && u in w'.vectors && v != u
      ensures Disjoint(w'.vectors[v].storage, w'.vectors[u].storage)
    {
      assert Kept(w', w, v, Trade(x, y, v)) && Kept(w', w, u, Trade(x, y, u));
    }
  }

  lemma HandedRegistered(w: World, w': World, x: VectorId, y: VectorId)
    requires Known(w) && AllRegistered(w) && Handed(w, w', x, y)
    ensures Known(w') && AllRegistered(w')
  {
    forall v | v in w'.vectors ensures Registered(w', v) {
      assert Kept(w', w, v, Trade(x, y, v));
      if w'.vectors[v].storage.Heap? { assert Registered(w, Trade(x, y, v)); }
    }
  }

  lemma HandedOwned(w: World, w': World, x: VectorId, y: VectorId)
    requires AllOwned(w) && Handed(w, w', x, y)
    ensures AllOwned(w')
  {
    forall m, p | m in w'.tables && p in w'.tables[m] && IsVectorBlock(w'.tables[m], p) ensures Owned(w', m, p) {
      assert Owned(w, m, p);
      var u :| u in w.vectors && Holds(w.vectors[u], m, p);
      assert Kept(w, w', u, Trade(x, y, u));
      OwnedBy(w', m, p, Trade(x, y, u));
    }
  }

  lemma OpenedBalanced(w: World, v: VectorId, a: Account)
    requires Balanced(w) && (v in w.vectors ==> w.vectors[v].storage.Inline?)
    requires a.storage.Inline? && a.manager in w.tables
    ensures Balanced(Opened(w, v, a))
  {
    hide Apart, OneTable, AllRegistered, AllOwned;
    HandedBalanced(w, Opened(w, v, a), v, v);
  }

  lemma AdoptedBalanced(w: World, v: VectorId, from: VectorId)
    requires Balanced(w) && from in w.vectors && v != from
    requires v in w.vectors ==> w.vectors[v].storage.Inline?
    ensures Balanced(Adopted(w, v, from))
  {
    hide Apart, OneTable, AllRegistered, AllOwned;
    HandedBalanced(w, Adopted(w, v, from), v, from);
  }

  lemma SwappedBalanced(w: World, v: VectorId, other: VectorId)
    requires Balanced(w) && v in w.vectors && other in w.vectors
    ensures Balanced(Opened(Opened(w, v, w.vectors[other]), other, w.vectors[v]))
  {
    hide Apart, OneTable, AllRegistered, AllOwned;
    HandedBalanced(w, Opened(Opened(w, v, w.vectors[other]), other, w.vectors[v]), v, other);
  }

  lemma GoneBalanced(w: World, v: VectorId)
    requires Balanced(w) && v in w.vectors && w.vectors[v].storage.Inline?
    ensures Balanced(w.(vectors := w.vectors - {v}))
  {
    hide Apart, OneTable, AllRegistered, AllOwned;
    HandedBalanced(w, w.(vectors := w.vectors - {v}), v, v);
  }

  /** A swap is what the code makes of it: three adoptions through a third vector that then goes. */
  lemma SwapIsThreeAdoptions(w: World, v: VectorId, other: VectorId, tmp: VectorId)
    requires v in w.vectors && other in w.vectors && v != other && tmp !in w.vectors
    requires SameType(w, v, other) && Known(w)
    ensures var third := Adopted(Adopted(Adopted(w, tmp, other), other, v), v, tmp);
            World(third.vectors - {tmp}, third.tables) == Apply(w, Swap(v, other))
  {
  }

  lemma OtherBalanced(w: World, op: Op)
    requires Balanced(w) && Enabled(w, op) && (op.RegisterOther? || op.UnregisterOther?)
    ensures Balanced(Apply(w, op))
  {
    OtherOwned(w, op);
    hide AllOwned;
    var w' := Apply(w, op);
    forall v | v in w'.vectors ensures Registered(w', v) { assert Registered(w, v); }
  }

  lemma OtherOwned(w: World, op: Op)
    requires Balanced(w) && Enabled(w, op) && (op.RegisterOther? || op.UnregisterOther?)
    ensures AllOwned(Apply(w, op))
  {
    hide Apart, OneTable, AllRegistered;
    var w' := Apply(w, op);
    forall m, p | m in w'.tables && IsVectorBlock(w'.tables[m], p) ensures Owned(w', m, p) {
      assert IsVectorBlock(w.tables[m], p) && Owned(w, m, p);
      var u :| u in w.vectors && Holds(w.vectors[u], m, p);
      OwnedBy(w', m, p, u);
    }
  }

  /** Giving a block back makes no other address occupied. */
  lemma StillUnused(w: World, v: VectorId, s: Storage)
    requires Balanced(w) && v in w.vectors && FreshStorage(w.tables, s)
    ensures FreshStorage(Released(w, v).tables, s)
  {
  }

  /** Every operation keeps the books of all managers in balance. */
  lemma StepKeepsBalance(w: World, op: Op)
    requires Balanced(w) && Enabled(w, op)
    ensures Balanced(Apply(w, op))
  {
    hide Balanced, Restored, Unused;
    KnownWhenBalanced(w);
    match op {
      case Create(v, m, size) => OpenedBalanced(w, v, Account(m, Inline, size));
      case Restore(v, s) => RestoredBalanced(w, v, s);
      case MoveNew(v, from) => AdoptedBalanced(w, v, from);
      case CopyNew(v, from, s) =>
        OpenedBalanced(w, v, w.vectors[from].(storage := Inline));
        RestoredBalanced(Opened(w, v, w.vectors[from].(storage := Inline)), v, s);
      case AssignMove(v, from) =>
        if v != from {
          RestoredBalanced(w, v, Inline);
          ReleasedShape(w, v);
          AdoptedBalanced(Released(w, v), v, from);
        }
      case AssignCopy(v, from, s) =>
        if v != from {
          RestoredBalanced(w, v, Inline);
          ReleasedShape(w, v);
          StillUnused(w, v, s);
          OpenedBalanced(Released(w, v), v, w.vectors[from].(storage := Inline));
          RestoredBalanced(Opened(Released(w, v), v, w.vectors[from].(storage := Inline)), v, s);
        }
      case Swap(v, other) => SwappedBalanced(w, v, other);
      case Destroy(v) =>
        RestoredBalanced(w, v, Inline);
        ReleasedShape(w, v);
        GoneBalanced(Released(w, v), v);
      case RegisterOther(_, _, _) => OtherBalanced(w, op);
      case UnregisterOther(_, _) => OtherBalanced(w, op);
    }
  }

  lemma KnownWhenBalanced(w: World)
    requires Balanced(w)
    ensures Known(w)
  {
  }

  lemma ReleasedShape(w: World, v: VectorId)
    requires v in w.vectors && Known(w)
    ensures Released(w, v).vectors == w.vectors[v := w.vectors[v].(storage := Inline)]
    ensures Released(w, v).tables.Keys == w.tables.Keys
  {
  }

  // ----- runs -----

  ghost predicate Runs(w: World, ops: seq<Op>)
    decreases |ops|
  {
    ops == [] || (Known(w) && Enabled(w, ops[0]) && Runs(Apply(w, ops[0]), ops[1..]))
  }

  ghost function After(w: World, ops: seq<Op>): World
    requires Runs(w, ops)
    decreases |ops|
  {
    if ops == [] then w else After(Apply(w, ops[0]), ops[1..])
  }

  lemma {:induction false} RunKeepsBalance(w: World, ops: seq<Op>)
    requires Balanced(w) && Runs(w, ops)
    ensures Balanced(After(w, ops))
    decreases |ops|
  {
    hide Balanced, Enabled, Apply;
    if ops != [] {
      StepKeepsBalance(w, ops[0]);
      RunKeepsBalance(Apply(w, ops[0]), ops[1..]);
    }
  }

  /** Managers in use before any vector exists. */
  ghost predicate Initial(w: World) {
    && w.vectors == map[] && OneTable(w)
    && forall m, p :: m in w.tables && p in w.tables[m] ==> w.tables[m][p].tag.hash != VECTOR_TAG.hash
  }

  // ----- byte counts -----

  /** Capacity times element size over the heap-mode vectors whose allocator points to `m`. */
  ghost function HeldBytes<V>(vectors: map<V, Account>, m: ManagerId): nat {
    if vectors == map[] then 0
    else
      var v :| v in vectors;
      (if vectors[v].manager == m then vectors[v].Bytes() else 0) + HeldBytes(vectors - {v}, m)
  }

  /** The vector-tagged entries of `t` are exactly the blocks of the given vectors under `m`. */
  ghost predicate Covers(t: Table<Block>, vectors: map<VectorId, Account>, m: ManagerId) {
    && Apart(World(vectors, map[]))
    && (forall v :: v in vectors && vectors[v].manager == m && vectors[v].storage.Heap? ==>
          && vectors[v].storage.block in t
          && t[vectors[v].storage.block] == AllocationInfo(vectors[v].Bytes(), VECTOR_TAG))
    && (forall p :: p in t && t[p].tag.hash == VECTOR_TAG.hash ==> Owned(World(vectors, map[]), m, p))
  }

  lemma {:induction false} CoveredBytes(t: Table<Block>, vectors: map<VectorId, Account>, m: ManagerId)
    requires Covers(t, vectors, m)
    ensures TaggedBytes(t, VECTOR_TAG.hash) == HeldBytes(vectors, m)
    decreases |vectors|
  {
    hide TotalBytes, Tagged, Covers;
    if vectors == map[] {
      NothingCovered(t, vectors, m);
    } else {
      var v := TakeOne(vectors, m);
      var a := vectors[v];
      if a.manager == m && a.storage.Heap? {
        UncoverOwner(t, vectors, m, v);
        CoveredBytes(t - {a.storage.block}, vectors - {v}, m);
        TaggedWithout(t, a.storage.block, VECTOR_TAG.hash);
      } else {
        UncoverOther(t, vectors, m, v);
        CoveredBytes(t, vectors - {v}, m);
      }
    }
  }

  lemma TakeOne<V>(vectors: map<V, Account>, m: ManagerId) returns (v: V)
    requires vectors != map[]
    ensures v in vectors
    ensures HeldBytes(vectors, m) ==
      (if vectors[v].manager == m then vectors[v].Bytes() else 0) + HeldBytes(vectors - {v}, m)
  {
    v :| v in vectors && HeldBytes(vectors, m) ==
      (if vectors[v].manager == m then vectors[v].Bytes() else 0) + HeldBytes(vectors - {v}, m);
  }

  lemma NobodyOwns(vectors: map<VectorId, Account>, m: ManagerId, p: Block)
    requires vectors == map[]
    ensures !Owned(World(vectors, map[]), m, p)
  {
  }

  lemma NothingCovered(t: Table<Block>, vectors: map<VectorId, Account>, m: ManagerId)
    requires Covers(t, vectors, m) && vectors == map[]
    ensures TaggedBytes(t, VECTOR_TAG.hash) == 0
  {
    forall p | p in t ensures t[p].tag.hash != VECTOR_TAG.hash {
      NobodyOwns(vectors, m, p);
    }
    NothingTagged(t, VECTOR_TAG.hash);
  }

  lemma UncoverOwner(t: Table<Block>, vectors: map<VectorId, Account>, m: ManagerId, v: VectorId)
    requires Covers(t, vectors, m) && v in vectors && vectors[v].manager == m && vectors[v].storage.Heap?
    ensures vectors[v].storage.block in t
    ensures t[vectors[v].storage.block] == AllocationInfo(vectors[v].Bytes(), VECTOR_TAG)
    ensures Covers(t - {vectors[v].storage.block}, vectors - {v}, m)
  {
    var t', rest := t - {vectors[v].storage.block}, vectors - {v};
    forall p | p in t' && t'[p].tag.hash == VECTOR_TAG.hash ensures Owned(World(rest, map[]), m, p) {
      var u :| u in vectors && Holds(vectors[u], m, p);
      OwnedBy(World(rest, map[]), m, p, u);
    }
    forall u, x | u in rest && x in rest && u != x ensures Disjoint(rest[u].storage, rest[x].storage) {
      assert Disjoint(vectors[u].storage, vectors[x].storage);
    }
    forall u | u in rest && rest[u].manager == m && rest[u].storage.Heap?
      ensures rest[u].storage.block in t'
    {
      assert Disjoint(vectors[u].storage, vectors[v].storage);
    }
  }

  lemma UncoverOther(t: Table<Block>, vectors: map<VectorId, Account>, m: ManagerId, v: VectorId)
    requires Covers(t, vectors, m) && v in vectors && !(vectors[v].manager == m && vectors[v].storage.Heap?)
    ensures Covers(t, vectors - {v}, m)
  {
    var rest := vectors - {v};
    forall p | p in t && t[p].tag.hash == VECTOR_TAG.hash ensures Owned(World(rest, map[]), m, p) {
      var u :| u in vectors && Holds(vectors[u], m, p);
      OwnedBy(World(rest, map[]), m, p, u);
    }
    forall u, x | u in rest && x in rest && u != x ensures Disjoint(rest[u].storage, rest[x].storage) {
      assert Disjoint(vectors[u].storage, vectors[x].storage);
    }
  }

  lemma BalancedCovers(w: World, m: ManagerId)
    requires Balanced(w) && m in w.tables
    ensures Covers(w.tables[m], w.vectors, m)
  {
    var z := World(w.vectors, map[]);
    forall p | p in w.tables[m] && w.tables[m][p].tag.hash == VECTOR_TAG.hash ensures Owned(z, m, p) {
      assert Owned(w, m, p);
      var v :| v in w.vectors && Holds(w.vectors[v], m, p);
      OwnedBy(z, m, p, v);
    }
    assert forall v :: v in w.vectors ==> Registered(w, v);
  }

  /**
   In every reachable state the vector bytes a manager reports are what the heap-mode vectors
   pointing to it hold, however blocks have travelled between vectors of different managers.
   */
  lemma ReportedBytesAreHeld(w: World, ops: seq<Op>, m: ManagerId)
    requires Initial(w) && Runs(w, ops) && m in After(w, ops).tables
    ensures TaggedBytes(After(w, ops).tables[m], VECTOR_TAG.hash) == HeldBytes(After(w, ops).vectors, m)
    ensures After(w, ops).vectors == map[] ==> TaggedBytes(After(w, ops).tables[m], VECTOR_TAG.hash) == 0
  {
    hide Runs, After, Covers;
    RunKeepsBalance(w, ops);
    BalancedCovers(After(w, ops), m);
    CoveredBytes(After(w, ops).tables[m], After(w, ops).vectors, m);
  }

  /** The block of every vector is registered with the manager its allocator points to now. */
  lemma BlocksFollowTheirOwner(w: World, ops: seq<Op>, v: VectorId)
    requires Initial(w) && Runs(w, ops) && v in After(w, ops).vectors && After(w, ops).vectors[v].storage.Heap?
    ensures var w' := After(w, ops);
            var a := w'.vectors[v];
            && a.manager in w'.tables && a.storage.block in w'.tables[a.manager]
            && w'.tables[a.manager][a.storage.block] == AllocationInfo(a.Bytes(), VECTOR_TAG)
            && (forall m :: m in w'.tables && a.storage.block in w'.tables[m] ==> m == a.manager)
  {
    hide Runs, After;
    RunKeepsBalance(w, ops);
    assert Registered(After(w, ops), v);
  }
}
