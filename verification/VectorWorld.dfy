/**
 The vector objects themselves as a state of the accounts: an abstraction of a set of vectors and
 a set of memory managers, and for every method of class `SoulVector` the step that its contract
 amounts to.
 */
module VectorWorld {
  import opened MemoryManager
  import opened SoulVector
  import opened VectorAccounts

  ghost function StorageOf<T>(v: SoulVector<T>): Storage
    reads v
  {
    if v.data == v.small then Inline else Heap(v.data, v.capacity)
  }

  ghost function AccountOf<T>(v: SoulVector<T>): Account
    reads v
  {
    Account(v.manager, StorageOf(v), v.elementSize)
  }

  ghost function Accounts<T>(vs: set<SoulVector<T>>): map<VectorId, Account>
    reads vs
  {
    map v: SoulVector<T> | v in vs :: (v as object) := AccountOf(v)
  }

  ghost function Tables(ms: set<MemoryManager>): map<ManagerId, Table<Block>>
    reads ms
  {
    map m: MemoryManager | m in ms :: (m as object) := m.allocations
  }

  ghost function Abstract<T>(vs: set<SoulVector<T>>, ms: set<MemoryManager>): World
    reads vs, ms
  {
    World(Accounts(vs), Tables(ms))
  }

  /** All vectors are sound, they share no storage, and the accounts of all managers balance. */
  ghost predicate Books<T>(vs: set<SoulVector<T>>, ms: set<MemoryManager>)
    reads vs, ms, set v | v in vs :: v.small, set v | v in vs :: v.data, set v | v in vs :: v.manager
  {
    && (forall v :: v in vs ==> v.manager in ms && v.Valid())
    && (forall v, u :: v in vs && u in vs && v != u ==> v.Separate(u))
    && Balanced(Abstract(vs, ms))
  }

  lemma ClaimOf<T>(v: SoulVector<T>)
    ensures AccountOf(v).Claim() == v.Claim()
  {
  }

  /** One vector among others. */
  datatype Scene<T(==)> = Scene(vs: set<SoulVector<T>>, ms: set<MemoryManager>, v: SoulVector<T>)

  /** Only `v` and its manager have changed. */
  twostate predicate OnlyOwn<T>(c: Scene<T>)
    reads c.vs, c.ms, set v | v in c.vs :: v.small, set v | v in c.vs :: v.data
  {
    && (forall u :: u in c.vs && u != c.v ==> unchanged(u) && unchanged(u.small) && unchanged(u.data))
    && (forall m :: m in c.ms && m != old(c.v.manager) ==> unchanged(m))
  }

  /** What the contract of a method on one vector says of its storage and its manager's table. */
  twostate predicate OwnContract<T>(v: SoulVector<T>)
    reads v, v.manager, v.small, v.data
  {
    && v.Valid() && v.manager == old(v.manager)
    && (v.data == old(v.data) || v.data == v.small || fresh(v.data))
    && v.manager.allocations == Rebooked(old(v.manager.allocations), old(v.Claim()), v.Claim())
  }

  twostate lemma OwnAbstract<T>(c: Scene<T>)
    requires c.v in c.vs && c.v.manager in c.ms && OnlyOwn(c) && OwnContract(c.v)
    ensures old(AccountOf(c.v).manager) in old(Abstract(c.vs, c.ms)).tables
    ensures Abstract(c.vs, c.ms) == Restored(old(Abstract(c.vs, c.ms)), c.v, StorageOf(c.v))
  {
    ClaimOf(c.v);
    assert old(AccountOf(c.v)).Claim() == old(c.v.Claim());
    var w, w' := old(Abstract(c.vs, c.ms)), Abstract(c.vs, c.ms);
    var r := Restored(w, c.v, StorageOf(c.v));
    assert w'.vectors == r.vectors;
    assert w'.tables == r.tables;
  }

  /** A new block is nowhere registered. */
  twostate lemma FreshIsUnused(ms: set<MemoryManager>, new p: object)
    requires fresh(p)
    ensures Unused(old(Tables(ms)), p)
  {
    forall m | m in old(Tables(ms)) ensures p !in old(Tables(ms))[m] {
    }
  }

  twostate lemma OwnStorage<T>(c: Scene<T>)
    requires old(c.v.Valid()) && OwnContract(c.v)
    ensures StorageOf(c.v) == old(StorageOf(c.v)) || FreshStorage(old(Tables(c.ms)), StorageOf(c.v))
  {
    hide Rebooked;
    if fresh(c.v.data) { FreshIsUnused(c.ms, c.v.data); }
  }

  lemma InAccounts<T>(vs: set<SoulVector<T>>, v: SoulVector<T>)
    requires v in vs
    ensures (v as object) in Accounts(vs) && Accounts(vs)[v] == AccountOf(v)
  {
  }

  twostate lemma OwnKeepsBalance<T>(c: Scene<T>)
    requires old(Balanced(Abstract(c.vs, c.ms))) && c.v in c.vs && c.v.manager in c.ms && OnlyOwn(c)
    requires old(c.v.Valid()) && OwnContract(c.v)
    ensures Balanced(Abstract(c.vs, c.ms))
  {
    hide Balanced;
    OwnAbstract(c);
    OwnStorage(c);
    var w := old(Abstract(c.vs, c.ms));
    assert c.v in w.vectors && w.vectors[c.v] == old(AccountOf(c.v));
    RestoredBalanced(w, c.v, StorageOf(c.v));
  }

  /** Two different vectors of a set. */
  datatype Couple<T(==)> = Couple(v: SoulVector<T>, u: SoulVector<T>)

  twostate lemma OthersStayValid<T>(c: Couple<T>)
    requires old(c.v.Valid()) && old(c.u.Valid()) && old(c.v.Separate(c.u)) && OwnContract(c.v)
    requires unchanged(c.u) && unchanged(c.u.small) && unchanged(c.u.data)
    requires c.u.manager == c.v.manager || unchanged(c.u.manager)
    ensures c.u.Valid() && c.v.Separate(c.u) && c.u.Separate(c.v)
  {
    Elsewhere(old(c.v.manager.allocations), old(c.v.Claim()), c.v.Claim());
    hide Rebooked;
    assert c.u.Lifetimes() by { assert old(c.u.Lifetimes()); }
  }

  twostate lemma OwnKeepsValid<T>(c: Scene<T>)
    requires old(Books(c.vs, c.ms)) && c.v in c.vs && OnlyOwn(c) && OwnContract(c.v)
    ensures forall u :: u in c.vs ==> u.manager in c.ms && u.Valid()
    ensures forall x, u :: x in c.vs && u in c.vs && x != u ==> x.Separate(u)
  {
    hide Balanced, Abstract, Rebooked;
    forall u | u in c.vs && u != c.v ensures u.Valid() && c.v.Separate(u) && u.Separate(c.v) {
      assert u.manager == old(u.manager) && old(u.manager) in c.ms;
      OthersStayValid(Couple(c.v, u));
    }
  }

  /** From one abstract state to the next by one operation. */
  ghost predicate Stepped(w: World, op: Op, w': World) {
    Known(w) && Enabled(w, op) && w' == Apply(w, op)
  }

  /**
   Any method with the one-vector contract takes the books from one abstract state to the next:
   the vector has exchanged its storage, and everything still balances.
   */
  twostate lemma OwnStep<T>(c: Scene<T>)
    requires old(Books(c.vs, c.ms)) && c.v in c.vs && OnlyOwn(c) && OwnContract(c.v)
    ensures Books(c.vs, c.ms)
    ensures Stepped(old(Abstract(c.vs, c.ms)), Restore(c.v, StorageOf(c.v)), Abstract(c.vs, c.ms))
  {
    hide Balanced, Restored;
    OwnKeepsValid(c);
    OwnKeepsBalance(c);
    OwnAbstract(c);
    OwnStorage(c);
    var w := old(Abstract(c.vs, c.ms));
    assert c.v in w.vectors && w.vectors[c.v] == old(AccountOf(c.v));
  }

  // ----- two vectors at once -----

  lemma ValidFromBalance<T>(vs: set<SoulVector<T>>, ms: set<MemoryManager>, x: SoulVector<T>)
    requires x in vs && x.manager in ms && x.Shaped() && x.Lifetimes() && Balanced(Abstract(vs, ms))
    ensures x.Valid()
  {
    InAccounts(vs, x);
    var w := Abstract(vs, ms);
    assert x in w.vectors && Registered(w, x);
  }

  /** Two vectors among others. */
  datatype Duo<T(==)> = Duo(vs: set<SoulVector<T>>, ms: set<MemoryManager>, v: SoulVector<T>, u: SoulVector<T>)

  twostate predicate OnlyTwo<T>(d: Duo<T>)
    reads d.vs, d.ms, set v | v in d.vs :: v.small, set v | v in d.vs :: v.data
  {
    && (forall x :: x in d.vs && x != d.v && x != d.u ==> unchanged(x) && unchanged(x.small) && unchanged(x.data))
    && (forall m :: m in d.ms && m != old(d.v.manager) && m != old(d.u.manager) ==> unchanged(m))
  }

  /** Where the storage of either of the two may have come from. */
  twostate predicate OwnOrTheirs<T>(d: Duo<T>)
    reads d.v, d.u
  {
    && (d.v.data == d.v.small || d.v.data == old(d.v.data) || d.v.data == old(d.u.data) || fresh(d.v.data))
    && (d.u.data == d.u.small || d.u.data == old(d.u.data) || d.u.data == old(d.v.data))
  }

  /** The rest of the books, once the accounts are known to balance. */
  twostate lemma BooksAfterTwo<T>(d: Duo<T>)
    requires old(Books(d.vs, d.ms)) && d.v in d.vs && d.u in d.vs && d.v != d.u
    requires OnlyTwo(d) && OwnOrTheirs(d) && d.v.Valid() && d.u.Valid() && d.v.Separate(d.u)
    requires d.v.manager in d.ms && d.u.manager in d.ms && Balanced(Abstract(d.vs, d.ms))
    ensures Books(d.vs, d.ms)
  {
    hide Balanced, Abstract;
    forall x | x in d.vs && x != d.v && x != d.u ensures x.Valid() {
      assert old(x.Shaped()) && old(x.Lifetimes()) && x.manager == old(x.manager) && old(x.manager) in d.ms;
      assert x.Lifetimes();
      ValidFromBalance(d.vs, d.ms, x);
    }
    forall x | x in d.vs && x != d.v && x != d.u
      ensures d.v.Separate(x) && x.Separate(d.v) && d.u.Separate(x) && x.Separate(d.u)
    {
      assert old(d.v.Separate(x)) && old(d.u.Separate(x));
    }
  }

  twostate lemma AccountsOfTwo<T>(d: Duo<T>)
    requires d.v in d.vs && d.u in d.vs && OnlyTwo(d)
    ensures Accounts(d.vs) == old(Accounts(d.vs))[d.v as object := AccountOf(d.v)][d.u as object := AccountOf(d.u)]
  {
  }

  twostate lemma TablesOfTwo<T>(d: Duo<T>)
    requires OnlyTwo(d) && old(d.v.manager) in d.ms && old(d.u.manager) in d.ms
    ensures Tables(d.ms) ==
              old(Tables(d.ms))[old(d.v.manager) as object := old(d.v.manager).allocations]
                               [old(d.u.manager) as object := old(d.u.manager).allocations]
  {
  }

  lemma TablesAt(ms: set<MemoryManager>, m: MemoryManager)
    requires m in ms
    ensures (m as object) in Tables(ms) && Tables(ms)[m] == m.allocations
  {
  }

  lemma ClaimTells<T>(v: SoulVector<T>)
    requires v.Shaped()
    ensures v.Claim() == map[] <==> StorageOf(v) == Inline
    ensures v.Claim() != map[] ==> v.Claim().Keys == {v.data as object} && StorageOf(v) == Heap(v.data, v.data.Length)
  {
    if v.data != v.small { assert (v.data as object) in v.Claim(); }
  }

  /** `Swap`, as its contract has it. */
  twostate predicate SwapContract<T>(d: Duo<T>)
    reads d.v, d.u, d.v.manager, d.u.manager, d.v.small, d.u.small, d.v.data, d.u.data
  {
    && d.v.SameTemplate(d.u) && d.v.Valid() && d.u.Valid() && d.v.Separate(d.u)
    && d.v.Claim() == old(d.u.Claim()) && d.u.Claim() == old(d.v.Claim())
    && d.v.manager == old(d.u.manager) && d.u.manager == old(d.v.manager)
    && (d.v.data == d.v.small || d.v.data == old(d.u.data)) && (d.u.data == d.u.small || d.u.data == old(d.v.data))
    && d.v.manager.allocations == old(d.u.manager.allocations)
    && d.u.manager.allocations == old(d.v.manager.allocations)
  }

  twostate lemma SwapStorage<T>(d: Duo<T>)
    requires old(d.v.Valid()) && old(d.u.Valid()) && SwapContract(d)
    ensures StorageOf(d.v) == old(StorageOf(d.u)) && StorageOf(d.u) == old(StorageOf(d.v))
  {
    ClaimTells(d.v);
    ClaimTells(d.u);
    assert old(d.v.Claim()) == map[] <==> old(StorageOf(d.v)) == Inline;
    assert old(d.u.Claim()) == map[] <==> old(StorageOf(d.u)) == Inline;
  }

  lemma SwapOfValues(w: World, w': World, v: object, u: object, a: Account, b: Account)
    requires Known(w) && v in w.vectors && u in w.vectors && v != u && SameType(w, v, u)
    requires w.vectors[v] == a && w.vectors[u] == b
    requires w'.vectors == w.vectors[v := b][u := a] && w'.tables == w.tables
    ensures Stepped(w, Swap(v, u), w')
  {
  }

  twostate lemma SwapAbstract<T>(d: Duo<T>)
    requires old(Books(d.vs, d.ms)) && d.v in d.vs && d.u in d.vs && d.v != d.u && OnlyTwo(d) && SwapContract(d)
    ensures Stepped(old(Abstract(d.vs, d.ms)), Swap(d.v, d.u), Abstract(d.vs, d.ms))
  {
    hide Balanced, Rebooked, Stepped, Accounts, Tables, StorageOf;
    SwapStorage(d);
    AccountsOfTwo(d);
    TablesOfTwo(d);
    OldParts(d);
    var w, w' := old(Abstract(d.vs, d.ms)), Abstract(d.vs, d.ms);
    assert w'.tables == w.tables;
    SwapOfValues(w, w', d.v, d.u, old(AccountOf(d.v)), old(AccountOf(d.u)));
  }

  /** What the books say of the two vectors before. */
  twostate lemma OldParts<T>(d: Duo<T>)
    requires old(Books(d.vs, d.ms)) && d.v in d.vs && d.u in d.vs
    ensures var w := old(Abstract(d.vs, d.ms));
            && Known(w)
            && (d.v as object) in w.vectors && w.vectors[d.v] == old(AccountOf(d.v))
            && (d.u as object) in w.vectors && w.vectors[d.u] == old(AccountOf(d.u))
            && (old(d.v.manager) as object) in w.tables && w.tables[old(d.v.manager)] == old(d.v.manager.allocations)
            && (old(d.u.manager) as object) in w.tables && w.tables[old(d.u.manager)] == old(d.u.manager.allocations)
  {
  }

  twostate lemma SwapStep<T>(d: Duo<T>)
    requires old(Books(d.vs, d.ms)) && d.v in d.vs && d.u in d.vs && d.v != d.u && OnlyTwo(d) && SwapContract(d)
    ensures Books(d.vs, d.ms)
    ensures Stepped(old(Abstract(d.vs, d.ms)), Swap(d.v, d.u), Abstract(d.vs, d.ms))
  {
    hide Balanced, Abstract;
    SwapAbstract(d);
    StepKeepsBalance(old(Abstract(d.vs, d.ms)), Swap(d.v, d.u));
    BooksAfterTwo(d);
  }

  /** The move assignment of `u` to `v`, as its contract has it. */
  twostate predicate AssignMoveContract<T>(d: Duo<T>)
    reads d.v, d.u, d.v.manager, d.u.manager, d.v.small, d.u.small, d.v.data, d.u.data, d.ms
  {
    && d.v.SameTemplate(d.u) && old(d.v.manager) in d.ms && d.v.Valid() && d.u.Valid()
    && d.v.Claim() == old(d.u.Claim()) && d.u.Claim() == map[]
    && d.v.manager == d.u.manager == old(d.u.manager)
    && (d.v.data == d.v.small || d.v.data == old(d.u.data)) && d.u.data == d.u.small
    && old(d.v.manager).allocations == Rebooked(old(d.v.manager.allocations), old(d.v.Claim()), map[])
    && (old(d.v.manager) != d.v.manager ==> d.v.manager.allocations == old(d.u.manager.allocations))
  }

  twostate lemma AssignMoveStorage<T>(d: Duo<T>)
    requires old(d.v.Valid()) && old(d.u.Valid()) && AssignMoveContract(d)
    ensures StorageOf(d.v) == old(StorageOf(d.u)) && StorageOf(d.u) == Inline
  {
    ClaimTells(d.v);
    assert old(d.u.Claim()) == map[] <==> old(StorageOf(d.u)) == Inline;
  }

  lemma AssignMoveOfValues(w: World, w': World, v: object, u: object, a: Account, b: Account)
    requires Known(w) && v in w.vectors && u in w.vectors && v != u && SameType(w, v, u)
    requires w.vectors[v] == a && w.vectors[u] == b
    requires w'.vectors == w.vectors[v := b][u := b.(storage := Inline)]
    requires w'.tables == w.tables[a.manager := Rebooked(w.tables[a.manager], a.Claim(), map[])]
    ensures Stepped(w, AssignMove(v, u), w')
  {
    hide Rebooked;
    var r := Adopted(Released(w, v), v, u);
    assert w'.vectors == r.vectors;
    assert w'.tables == r.tables;
  }

  twostate lemma AssignMoveAbstract<T>(d: Duo<T>)
    requires old(Books(d.vs, d.ms)) && d.v in d.vs && d.u in d.vs && d.v != d.u
    requires OnlyTwo(d) && AssignMoveContract(d)
    ensures Stepped(old(Abstract(d.vs, d.ms)), AssignMove(d.v, d.u), Abstract(d.vs, d.ms))
  {
    hide Balanced, Rebooked, Stepped, Accounts, Tables, StorageOf;
    AssignMoveStorage(d);
    AccountsOfTwo(d);
    TablesOfTwo(d);
    OldParts(d);
    OldClaim(d);
    var w, w' := old(Abstract(d.vs, d.ms)), Abstract(d.vs, d.ms);
    var a, b := old(AccountOf(d.v)), old(AccountOf(d.u));
    assert w'.tables == w.tables[a.manager := Rebooked(w.tables[a.manager], a.Claim(), map[])];
    AssignMoveOfValues(w, w', d.v, d.u, a, b);
  }

  twostate lemma OldClaim<T>(d: Duo<T>)
    ensures old(AccountOf(d.v)).Claim() == old(d.v.Claim())
  {
  }

  twostate lemma AssignMoveStep<T>(d: Duo<T>)
    requires old(Books(d.vs, d.ms)) && d.v in d.vs && d.u in d.vs && d.v != d.u
    requires OnlyTwo(d) && AssignMoveContract(d)
    ensures Books(d.vs, d.ms)
    ensures Stepped(old(Abstract(d.vs, d.ms)), AssignMove(d.v, d.u), Abstract(d.vs, d.ms))
  {
    hide Balanced, Abstract;
    AssignMoveAbstract(d);
    StepKeepsBalance(old(Abstract(d.vs, d.ms)), AssignMove(d.v, d.u));
    BooksAfterTwo(d);
  }

  /** The copy assignment of `u` to `v`, as its contract has it. */
  twostate predicate AssignCopyContract<T>(d: Duo<T>)
    reads d.v, d.u, d.v.manager, d.u.manager, d.v.small, d.u.small, d.v.data, d.u.data, d.ms
  {
    && d.v.SameTemplate(d.u) && old(d.v.manager) in d.ms && d.v.Valid() && d.u.Valid() && unchanged(d.u)
    && d.v.manager == d.u.manager && (d.v.data == d.v.small || fresh(d.v.data))
    && (old(d.v.manager) == d.u.manager ==>
          d.v.manager.allocations == Rebooked(old(d.v.manager.allocations), old(d.v.Claim()), d.v.Claim()))
    && (old(d.v.manager) != d.u.manager ==>
          && old(d.v.manager).allocations == Rebooked(old(d.v.manager.allocations), old(d.v.Claim()), map[])
          && d.v.manager.allocations == Rebooked(old(d.u.manager.allocations), map[], d.v.Claim()))
  }

  /** Giving up one claim and taking up another on the same table is exchanging them. */
  lemma InTurn<P>(t: Table<P>, before: Table<P>, after: Table<P>)
    ensures Rebooked(Rebooked(t, before, map[]), map[], after) == Rebooked(t, before, after)
  {
  }

  /** An account put in the place of another, with its claim taken up in its own manager's table. */
  lemma RestoredIs(w: World, v: object, a: Account, s: Storage)
    requires v in w.vectors && w.vectors[v] == a && a.manager in w.tables
    ensures Restored(w, v, s) ==
              World(w.vectors[v := a.(storage := s)],
                    w.tables[a.manager := Rebooked(w.tables[a.manager], a.Claim(), a.(storage := s).Claim())])
  {
  }

  lemma AssignCopyOfValues(w: World, w': World, v: object, u: object, a: Account, b: Account, s: Storage)
    requires Known(w) && v in w.vectors && u in w.vectors && v != u && SameType(w, v, u)
    requires w.vectors[v] == a && w.vectors[u] == b && FreshStorage(w.tables, s)
    requires w'.vectors == w.vectors[v := b.(storage := s)]
    requires var released := w.tables[a.manager := Rebooked(w.tables[a.manager], a.Claim(), map[])];
             b.manager in released
             && w'.tables == released[b.manager := Rebooked(released[b.manager], map[], b.(storage := s).Claim())]
    ensures Stepped(w, AssignCopy(v, u, s), w')
  {
    hide Rebooked, Restored, FreshStorage;
    RestoredIs(w, v, a, Inline);
    var handed := Opened(Released(w, v), v, b.(storage := Inline));
    RestoredIs(handed, v, b.(storage := Inline), s);
    assert w'.vectors == handed.vectors[v := b.(storage := s)];
  }

  twostate lemma AssignCopyAbstract<T>(d: Duo<T>)
    requires old(Books(d.vs, d.ms)) && d.v in d.vs && d.u in d.vs && d.v != d.u
    requires OnlyTwo(d) && AssignCopyContract(d)
    ensures Stepped(old(Abstract(d.vs, d.ms)), AssignCopy(d.v, d.u, StorageOf(d.v)), Abstract(d.vs, d.ms))
  {
    hide Balanced, Rebooked, Stepped, Accounts, Tables;
    if fresh(d.v.data) { FreshIsUnused(d.ms, d.v.data); }
    ClaimOf(d.v);
    InTurn(old(d.v.manager.allocations), old(d.v.Claim()), d.v.Claim());
    AccountsOfTwo(d);
    TablesOfTwo(d);
    OldParts(d);
    OldClaim(d);
    var w, w' := old(Abstract(d.vs, d.ms)), Abstract(d.vs, d.ms);
    var a, b, s := old(AccountOf(d.v)), old(AccountOf(d.u)), StorageOf(d.v);
    assert b.(storage := s) == AccountOf(d.v) && AccountOf(d.u) == b;
    var released := w.tables[a.manager := Rebooked(w.tables[a.manager], a.Claim(), map[])];
    assert w'.tables == released[b.manager := Rebooked(released[b.manager], map[], b.(storage := s).Claim())];
    AssignCopyOfValues(w, w', d.v, d.u, a, b, s);
  }

  twostate lemma AssignCopyStep<T>(d: Duo<T>)
    requires old(Books(d.vs, d.ms)) && d.v in d.vs && d.u in d.vs && d.v != d.u
    requires OnlyTwo(d) && AssignCopyContract(d)
    ensures Books(d.vs, d.ms)
    ensures Stepped(old(Abstract(d.vs, d.ms)), AssignCopy(d.v, d.u, StorageOf(d.v)), Abstract(d.vs, d.ms))
  {
    hide Balanced, Abstract;
    AssignCopyAbstract(d);
    StepKeepsBalance(old(Abstract(d.vs, d.ms)), AssignCopy(d.v, d.u, StorageOf(d.v)));
    BooksAfterTwo(d);
  }

  // ----- vectors that come and go -----

  datatype Scenery<T(==)> = Scenery(vs: set<SoulVector<T>>, ms: set<MemoryManager>)

  twostate predicate NothingChanged<T>(c: Scenery<T>)
    reads c.vs, c.ms, set v | v in c.vs :: v.small, set v | v in c.vs :: v.data
  {
    && (forall x :: x in c.vs ==> unchanged(x) && unchanged(x.small) && unchanged(x.data))
    && (forall m :: m in c.ms ==> unchanged(m))
  }

  lemma AccountsWith<T>(vs: set<SoulVector<T>>, n: SoulVector<T>)
    ensures Accounts(vs + {n}) == Accounts(vs)[n as object := AccountOf(n)]
  {
  }

  lemma AccountsWithout<T>(vs: set<SoulVector<T>>, v: SoulVector<T>)
    requires v in vs
    ensures Accounts(vs - {v}) == Accounts(vs) - {v as object}
  {
  }

  /** A vector just constructed, empty. */
  twostate predicate NewContract<T>(new n: SoulVector<T>)
    reads n, n.small, n.data, n.manager
  {
    && fresh(n) && fresh(n.small) && n.Valid() && n.data == n.small
  }

  twostate lemma CreateStep<T>(c: Scenery<T>, new n: SoulVector<T>)
    requires old(Books(c.vs, c.ms)) && NothingChanged(c) && n.manager in c.ms && NewContract(n)
    ensures Books(c.vs + {n}, c.ms)
    ensures Stepped(old(Abstract(c.vs, c.ms)), Create(n, n.manager, n.elementSize), Abstract(c.vs + {n}, c.ms))
  {
    AccountsWith(c.vs, n);
    NewIsUnknown(c, n);
    var w, w' := old(Abstract(c.vs, c.ms)), Abstract(c.vs + {n}, c.ms);
    assert w'.tables == w.tables && w'.vectors == w.vectors[n as object := AccountOf(n)] by {
      assert Accounts(c.vs) == old(Accounts(c.vs));
    }
    assert Known(w) && (n.manager as object) in w.tables && (n as object) !in w.vectors;
    hide Balanced;
    StepKeepsBalance(w, Create(n, n.manager, n.elementSize));
    forall x | x in c.vs ensures x.Valid() && x.Separate(n) && n.Separate(x) {
      assert old(x.Valid());
    }
  }

  twostate lemma NewIsUnknown<T>(c: Scenery<T>, new n: SoulVector<T>)
    requires fresh(n)
    ensures n !in c.vs && (n as object) !in old(Accounts(c.vs))
  {
  }

  lemma DestroyOfValues(w: World, middle: World, w': World, v: object)
    requires Stepped(w, Restore(v, Inline), middle) && Balanced(w)
    requires w'.vectors == middle.vectors - {v} && w'.tables == middle.tables
    ensures Stepped(w, Destroy(v), w') && Balanced(w')
  {
    hide Balanced, Restored;
    assert v in w.vectors;
    StepKeepsBalance(w, Destroy(v));
  }

  lemma BooksWithout<T>(vs: set<SoulVector<T>>, ms: set<MemoryManager>, v: SoulVector<T>)
    requires Books(vs, ms) && Balanced(Abstract(vs - {v}, ms))
    ensures Books(vs - {v}, ms)
  {
    hide Balanced, Abstract;
  }

  /** Destruction: the storage is released and the vector leaves the set. */
  twostate lemma DestroyStep<T>(c: Scene<T>)
    requires old(Books(c.vs, c.ms)) && c.v in c.vs && OnlyOwn(c) && OwnContract(c.v) && c.v.data == c.v.small
    ensures Books(c.vs - {c.v}, c.ms)
    ensures Stepped(old(Abstract(c.vs, c.ms)), Destroy(c.v), Abstract(c.vs - {c.v}, c.ms))
  {
    hide Balanced, Restored, Stepped, OnlyOwn, OwnContract, Accounts, Tables;
    OwnStep(c);
    AccountsWithout(c.vs, c.v);
    DestroyOfValues(old(Abstract(c.vs, c.ms)), Abstract(c.vs, c.ms), Abstract(c.vs - {c.v}, c.ms), c.v);
    BooksWithout(c.vs, c.ms, c.v);
  }

  /** The move constructor, as its contract has it. */
  twostate predicate MoveNewContract<T>(u: SoulVector<T>, new n: SoulVector<T>)
    reads n, n.small, n.data, n.manager, u, u.small, u.data, u.manager
  {
    && fresh(n) && fresh(n.small) && n.Valid() && u.Valid() && n.SameTemplate(u)
    && n.manager == u.manager == old(u.manager)
    && n.Claim() == old(u.Claim()) && u.Claim() == map[]
    && (n.data == n.small || n.data == old(u.data)) && u.data == u.small
    && n.manager.allocations == old(u.manager.allocations)
  }

  twostate lemma MoveNewStorage<T>(u: SoulVector<T>, new n: SoulVector<T>)
    requires old(u.Valid()) && MoveNewContract(u, n)
    ensures StorageOf(n) == old(StorageOf(u)) && StorageOf(u) == Inline
  {
    ClaimTells(n);
    assert old(u.Claim()) == map[] <==> old(StorageOf(u)) == Inline;
  }

  lemma MoveNewOfValues(w: World, w': World, v: object, u: object, b: Account)
    requires Known(w) && v !in w.vectors && u in w.vectors && w.vectors[u] == b
    requires w'.vectors == w.vectors[u := b.(storage := Inline)][v := b] && w'.tables == w.tables
    ensures Stepped(w, MoveNew(v, u), w')
  {
  }

  twostate lemma AccountsOfOne<T>(c: Scene<T>)
    requires c.v in c.vs && OnlyOwn(c)
    ensures Accounts(c.vs) == old(Accounts(c.vs))[c.v as object := AccountOf(c.v)]
  {
  }

  twostate lemma OldPartsOfOne<T>(c: Scene<T>)
    requires old(Books(c.vs, c.ms)) && c.v in c.vs
    ensures var w := old(Abstract(c.vs, c.ms));
            && Known(w)
            && (c.v as object) in w.vectors && w.vectors[c.v] == old(AccountOf(c.v))
            && (old(c.v.manager) as object) in w.tables && w.tables[old(c.v.manager)] == old(c.v.manager.allocations)
  {
  }

  twostate lemma TablesOfOne<T>(c: Scene<T>)
    requires OnlyOwn(c) && old(c.v.manager) in c.ms
    ensures Tables(c.ms) == old(Tables(c.ms))[old(c.v.manager) as object := old(c.v.manager).allocations]
  {
  }

  twostate lemma MoveNewAbstract<T>(c: Scene<T>, new n: SoulVector<T>)
    requires old(Books(c.vs, c.ms)) && c.v in c.vs && OnlyOwn(c) && MoveNewContract(c.v, n)
    ensures Stepped(old(Abstract(c.vs, c.ms)), MoveNew(n, c.v), Abstract(c.vs + {n}, c.ms))
  {
    hide Balanced, Rebooked, Stepped, Accounts, Tables, StorageOf;
    MoveNewStorage(c.v, n);
    AccountsOfOne(c);
    TablesOfOne(c);
    OldPartsOfOne(c);
    AccountsWith(c.vs, n);
    NewIsUnknown(Scenery(c.vs, c.ms), n);
    var w, w', b := old(Abstract(c.vs, c.ms)), Abstract(c.vs + {n}, c.ms), old(AccountOf(c.v));
    assert w'.tables == w.tables;
    MoveNewOfValues(w, w', n, c.v, b);
  }

  /** The rest of the books when `n` has joined a set of which only `c.v` may have changed. */
  twostate lemma BooksWithNew<T>(c: Scene<T>, new n: SoulVector<T>)
    requires old(Books(c.vs, c.ms)) && c.v in c.vs && OnlyOwn(c) && c.v.Valid() && n.Valid()
    requires fresh(n) && fresh(n.small) && n.data != c.v.data
    requires n.data == n.small || fresh(n.data) || n.data == old(c.v.data)
    requires c.v.data == c.v.small || c.v.data == old(c.v.data)
    requires n.manager in c.ms && c.v.manager in c.ms && Balanced(Abstract(c.vs + {n}, c.ms))
    ensures Books(c.vs + {n}, c.ms)
  {
    hide Balanced, Abstract;
    var all := c.vs + {n};
    forall x | x in c.vs && x != c.v ensures x.Valid() {
      assert old(x.Shaped()) && old(x.Lifetimes()) && x.manager == old(x.manager) && old(x.manager) in c.ms;
      assert x.Lifetimes();
      ValidFromBalance(all, c.ms, x);
    }
    forall x | x in c.vs && x != c.v
      ensures c.v.Separate(x) && x.Separate(c.v) && n.Separate(x) && x.Separate(n)
    {
      assert old(c.v.Separate(x));
    }
  }

  twostate lemma MoveNewStep<T>(c: Scene<T>, new n: SoulVector<T>)
    requires old(Books(c.vs, c.ms)) && c.v in c.vs && OnlyOwn(c) && MoveNewContract(c.v, n)
    ensures Books(c.vs + {n}, c.ms)
    ensures Stepped(old(Abstract(c.vs, c.ms)), MoveNew(n, c.v), Abstract(c.vs + {n}, c.ms))
  {
    hide Balanced, Abstract;
    MoveNewAbstract(c, n);
    StepKeepsBalance(old(Abstract(c.vs, c.ms)), MoveNew(n, c.v));
    BooksWithNew(c, n);
  }

  /** The copy constructor, as its contract has it. */
  twostate predicate CopyNewContract<T>(u: SoulVector<T>, new n: SoulVector<T>)
    reads n, n.small, n.data, n.manager, u, u.small, u.data, u.manager
  {
    && fresh(n) && fresh(n.small) && fresh(n.data) && n.Valid() && u.Valid() && n.SameTemplate(u)
    && unchanged(u) && n.manager == u.manager
    && n.manager.allocations == Rebooked(old(u.manager.allocations), map[], n.Claim())
  }

  lemma CopyNewOfValues(w: World, w': World, v: object, u: object, b: Account, s: Storage)
    requires Known(w) && v !in w.vectors && u in w.vectors && w.vectors[u] == b && FreshStorage(w.tables, s)
    requires w'.vectors == w.vectors[v := b.(storage := s)]
    requires b.manager in w.tables
    requires w'.tables == w.tables[b.manager := Rebooked(w.tables[b.manager], map[], b.(storage := s).Claim())]
    ensures Stepped(w, CopyNew(v, u, s), w')
  {
    hide Rebooked;
    var r := Restored(Opened(w, v, b.(storage := Inline)), v, s);
    assert w'.vectors == r.vectors;
    assert w'.tables == r.tables;
  }

  twostate lemma CopyNewAbstract<T>(c: Scene<T>, new n: SoulVector<T>)
    requires old(Books(c.vs, c.ms)) && c.v in c.vs && OnlyOwn(c) && CopyNewContract(c.v, n)
    ensures Stepped(old(Abstract(c.vs, c.ms)), CopyNew(n, c.v, StorageOf(n)), Abstract(c.vs + {n}, c.ms))
  {
    hide Balanced, Rebooked, Stepped, Accounts, Tables;
    FreshIsUnused(c.ms, n.data);
    ClaimOf(n);
    AccountsOfOne(c);
    TablesOfOne(c);
    OldPartsOfOne(c);
    AccountsWith(c.vs, n);
    NewIsUnknown(Scenery(c.vs, c.ms), n);
    var w, w', b, s := old(Abstract(c.vs, c.ms)), Abstract(c.vs + {n}, c.ms), old(AccountOf(c.v)), StorageOf(n);
    assert AccountOf(c.v) == b && AccountOf(n) == b.(storage := s);
    assert w'.vectors == w.vectors[n as object := b.(storage := s)];
    CopyNewOfValues(w, w', n, c.v, b, s);
  }

  twostate lemma CopyNewStep<T>(c: Scene<T>, new n: SoulVector<T>)
    requires old(Books(c.vs, c.ms)) && c.v in c.vs && OnlyOwn(c) && CopyNewContract(c.v, n)
    ensures Books(c.vs + {n}, c.ms)
    ensures Stepped(old(Abstract(c.vs, c.ms)), CopyNew(n, c.v, StorageOf(n)), Abstract(c.vs + {n}, c.ms))
  {
    hide Balanced, Abstract;
    CopyNewAbstract(c, n);
    StepKeepsBalance(old(Abstract(c.vs, c.ms)), CopyNew(n, c.v, StorageOf(n)));
    BooksWithNew(c, n);
  }

  /** In any state of the objects a manager reports exactly what its heap-mode vectors hold. */
  lemma BooksReportHeldBytes<T>(vs: set<SoulVector<T>>, ms: set<MemoryManager>, m: MemoryManager)
    requires Books(vs, ms) && m in ms
    ensures TaggedBytes(m.allocations, VECTOR_TAG.hash) == HeldBytes(Accounts(vs), m)
    ensures vs == {} ==> TaggedBytes(m.allocations, VECTOR_TAG.hash) == 0
  {
    var w := Abstract(vs, ms);
    TablesAt(ms, m);
    assert (m as object) in w.tables && w.tables[m] == m.allocations;
    BalancedCovers(w, m);
    CoveredBytes(w.tables[m], w.vectors, m);
    if vs == {} { assert Accounts(vs) == map[]; }
  }

  // ----- the methods as steps -----

  /** The storage of every other vector is not that of `v`. */
  ghost predicate Alone<T>(vs: set<SoulVector<T>>, v: SoulVector<T>)
    reads v, vs
  {
    forall x :: x in vs && x != v ==>
      x.small != v.small && x.small != v.data && x.data != v.small && x.data != v.data
  }

  /** What the books say of one vector. */
  lemma OneAmong<T>(vs: set<SoulVector<T>>, ms: set<MemoryManager>, v: SoulVector<T>)
    requires Books(vs, ms) && v in vs
    ensures v.Valid() && v.manager in ms && Alone(vs, v)
  {
    hide Balanced, Abstract;
  }

  lemma TwoAmong<T>(vs: set<SoulVector<T>>, ms: set<MemoryManager>, v: SoulVector<T>, u: SoulVector<T>)
    requires Books(vs, ms) && v in vs && u in vs && v != u
    ensures v.Valid() && u.Valid() && v.manager in ms && u.manager in ms
    ensures v.Separate(u) && u.Separate(v) && Alone(vs, v) && Alone(vs, u)
  {
    hide Balanced, Abstract;
    OneAmong(vs, ms, v);
    OneAmong(vs, ms, u);
  }

  method InsertStep<T(==)>(ghost vs: set<SoulVector<T>>, ghost ms: set<MemoryManager>, v: SoulVector<T>, value: T)
    requires Books(vs, ms) && v in vs
    modifies v, v.small, v.data, v.manager
    ensures Books(vs, ms) && v.Contents() == old(v.Contents()) + [value]
    ensures v.manager == old(v.manager) && (v.data == old(v.data) || v.data == v.small || fresh(v.data))
    ensures Stepped(old(Abstract(vs, ms)), Restore(v, StorageOf(v)), Abstract(vs, ms))
  {
    hide Balanced, Abstract, Rebooked, Stepped, Restored, Books;
    OneAmong(vs, ms, v);
    v.Insert(value);
    OwnStep(Scene(vs, ms, v));
  }

  method AppendRangeStep<T(==)>(
    ghost vs: set<SoulVector<T>>, ghost ms: set<MemoryManager>, v: SoulVector<T>, values: seq<T>)
    requires Books(vs, ms) && v in vs
    modifies v, v.small, v.data, v.manager
    ensures Books(vs, ms) && v.Contents() == old(v.Contents()) + values
    ensures v.manager == old(v.manager) && (v.data == old(v.data) || v.data == v.small || fresh(v.data))
    ensures Stepped(old(Abstract(vs, ms)), Restore(v, StorageOf(v)), Abstract(vs, ms))
  {
    hide Balanced, Abstract, Rebooked, Stepped, Restored, Books;
    OneAmong(vs, ms, v);
    v.AppendRange(values);
    OwnStep(Scene(vs, ms, v));
  }

  method AppendEachStep<T(==)>(
    ghost vs: set<SoulVector<T>>, ghost ms: set<MemoryManager>, v: SoulVector<T>, values: seq<T>)
    requires Books(vs, ms) && v in vs
    modifies v, v.small, v.data, v.manager
    ensures Books(vs, ms) && v.Contents() == old(v.Contents()) + values
    ensures v.manager == old(v.manager) && (v.data == old(v.data) || v.data == v.small || fresh(v.data))
    ensures Stepped(old(Abstract(vs, ms)), Restore(v, StorageOf(v)), Abstract(vs, ms))
  {
    hide Balanced, Abstract, Rebooked, Stepped, Restored, Books;
    OneAmong(vs, ms, v);
    v.AppendEach(values);
    OwnStep(Scene(vs, ms, v));
  }

  method ReserveStep<T(==)>(
    ghost vs: set<SoulVector<T>>, ghost ms: set<MemoryManager>, v: SoulVector<T>, newCapacity: nat)
    requires Books(vs, ms) && v in vs
    modifies v, v.small, v.data, v.manager
    ensures Books(vs, ms) && v.Contents() == old(v.Contents())
    ensures v.manager == old(v.manager) && (v.data == old(v.data) || v.data == v.small || fresh(v.data))
    ensures Stepped(old(Abstract(vs, ms)), Restore(v, StorageOf(v)), Abstract(vs, ms))
  {
    hide Balanced, Abstract, Rebooked, Stepped, Restored, Books;
    OneAmong(vs, ms, v);
    v.Reserve(newCapacity);
    OwnStep(Scene(vs, ms, v));
  }

  method ShrinkStep<T(==)>(ghost vs: set<SoulVector<T>>, ghost ms: set<MemoryManager>, v: SoulVector<T>)
    requires Books(vs, ms) && v in vs
    modifies v, v.small, v.data, v.manager
    ensures Books(vs, ms) && v.Contents() == old(v.Contents())
    ensures v.manager == old(v.manager) && (v.data == old(v.data) || v.data == v.small || fresh(v.data))
    ensures Stepped(old(Abstract(vs, ms)), Restore(v, StorageOf(v)), Abstract(vs, ms))
  {
    hide Balanced, Abstract, Rebooked, Stepped, Restored, Books;
    OneAmong(vs, ms, v);
    v.ShrinkToFit();
    OwnStep(Scene(vs, ms, v));
  }

  method ClearStep<T(==)>(ghost vs: set<SoulVector<T>>, ghost ms: set<MemoryManager>, v: SoulVector<T>)
    requires Books(vs, ms) && v in vs
    modifies v, v.small, v.data
    ensures Books(vs, ms) && v.Contents() == []
    ensures v.manager == old(v.manager) && (v.data == old(v.data) || v.data == v.small || fresh(v.data))
    ensures Stepped(old(Abstract(vs, ms)), Restore(v, StorageOf(v)), Abstract(vs, ms))
  {
    hide Balanced, Abstract, Rebooked, Stepped, Restored, Books;
    OneAmong(vs, ms, v);
    v.Clear();
    Unchanged(v.manager.allocations, v.Claim());
    OwnStep(Scene(vs, ms, v));
  }

  method RemoveStep<T(==)>(ghost vs: set<SoulVector<T>>, ghost ms: set<MemoryManager>, v: SoulVector<T>, value: T)
    requires Books(vs, ms) && v in vs
    modifies v, v.small, v.data
    ensures Books(vs, ms) && v.Contents() == Without(old(v.Contents()), value)
    ensures v.manager == old(v.manager) && (v.data == old(v.data) || v.data == v.small || fresh(v.data))
    ensures Stepped(old(Abstract(vs, ms)), Restore(v, StorageOf(v)), Abstract(vs, ms))
  {
    hide Balanced, Abstract, Rebooked, Stepped, Restored, Books;
    OneAmong(vs, ms, v);
    v.Remove(value);
    Unchanged(v.manager.allocations, v.Claim());
    OwnStep(Scene(vs, ms, v));
  }

  method EraseStep<T(==)>(ghost vs: set<SoulVector<T>>, ghost ms: set<MemoryManager>, v: SoulVector<T>, pos: int)
    returns (next: nat)
    requires Books(vs, ms) && v in vs
    modifies v, v.small, v.data
    ensures Books(vs, ms) && next <= old(v.size)
    ensures 0 <= pos < old(v.size) ==> v.Contents() == old(v.Contents()[..pos] + v.Contents()[pos + 1..])
    ensures !(0 <= pos < old(v.size)) ==> v.Contents() == old(v.Contents())
    ensures v.manager == old(v.manager) && (v.data == old(v.data) || v.data == v.small || fresh(v.data))
    ensures Stepped(old(Abstract(vs, ms)), Restore(v, StorageOf(v)), Abstract(vs, ms))
  {
    hide Balanced, Abstract, Rebooked, Stepped, Restored, Books;
    OneAmong(vs, ms, v);
    next := v.Erase(pos);
    Unchanged(v.manager.allocations, v.Claim());
    OwnStep(Scene(vs, ms, v));
  }

  method DestroyVector<T(==)>(ghost vs: set<SoulVector<T>>, ghost ms: set<MemoryManager>, v: SoulVector<T>)
    requires Books(vs, ms) && v in vs
    modifies v, v.small, v.data, v.manager
    ensures Books(vs - {v}, ms)
    ensures Stepped(old(Abstract(vs, ms)), Destroy(v), Abstract(vs - {v}, ms))
  {
    hide Balanced, Abstract, Rebooked, Stepped, Restored, Books;
    OneAmong(vs, ms, v);
    v.ReleaseStorage();
    DestroyStep(Scene(vs, ms, v));
  }

  method SwapVectors<T(==)>(
    ghost vs: set<SoulVector<T>>, ghost ms: set<MemoryManager>, v: SoulVector<T>, u: SoulVector<T>)
    requires Books(vs, ms) && v in vs && u in vs && v != u && v.SameTemplate(u)
    modifies v, v.small, v.data, v.manager, u, u.small, u.data, u.manager
    ensures Books(vs, ms) && v.Contents() == old(u.Contents()) && u.Contents() == old(v.Contents())
    ensures v.manager == old(u.manager) && u.manager == old(v.manager)
    ensures (v.data == v.small || v.data == old(u.data)) && (u.data == u.small || u.data == old(v.data))
    ensures Stepped(old(Abstract(vs, ms)), Swap(v, u), Abstract(vs, ms))
  {
    hide Balanced, Abstract, Rebooked, Stepped, Books;
    TwoAmong(vs, ms, v, u);
    v.Swap(u);
    SwapStep(Duo(vs, ms, v, u));
  }

  method AssignMoved<T(==)>(
    ghost vs: set<SoulVector<T>>, ghost ms: set<MemoryManager>, v: SoulVector<T>, u: SoulVector<T>)
    requires Books(vs, ms) && v in vs && u in vs && v != u && v.SameTemplate(u)
    modifies v, v.small, v.data, v.manager, u, u.small, u.data, u.manager
    ensures Books(vs, ms) && v.Contents() == old(u.Contents()) && u.Contents() == []
    ensures v.manager == u.manager == old(u.manager)
    ensures (v.data == v.small || v.data == old(u.data)) && u.data == u.small
    ensures Stepped(old(Abstract(vs, ms)), AssignMove(v, u), Abstract(vs, ms))
  {
    hide Balanced, Abstract, Rebooked, Stepped, Books;
    TwoAmong(vs, ms, v, u);
    v.AssignMove(u);
    AssignMoveStep(Duo(vs, ms, v, u));
  }

  method AssignCopied<T(==)>(
    ghost vs: set<SoulVector<T>>, ghost ms: set<MemoryManager>, v: SoulVector<T>, u: SoulVector<T>)
    requires Books(vs, ms) && v in vs && u in vs && v != u && v.SameTemplate(u)
    modifies v, v.small, v.data, v.manager, u.manager
    ensures Books(vs, ms) && v.Contents() == old(u.Contents()) == u.Contents()
    ensures v.manager == u.manager && (v.data == v.small || fresh(v.data))
    ensures Stepped(old(Abstract(vs, ms)), AssignCopy(v, u, StorageOf(v)), Abstract(vs, ms))
  {
    hide Balanced, Abstract, Rebooked, Stepped, Books;
    TwoAmong(vs, ms, v, u);
    v.AssignCopy(u);
    AssignCopyStep(Duo(vs, ms, v, u));
  }

  method NewVector<T(==)>(
    ghost vs: set<SoulVector<T>>, ghost ms: set<MemoryManager>,
    manager: MemoryManager, smallCapacity: nat, elementSize: nat)
    returns (n: SoulVector<T>)
    requires Books(vs, ms) && manager in ms && smallCapacity > 0
    ensures fresh(n) && fresh(n.small) && n.data == n.small && n.manager == manager
    ensures Books(vs + {n}, ms) && n.Contents() == []
    ensures n.small.Length == smallCapacity && n.elementSize == elementSize
    ensures Stepped(old(Abstract(vs, ms)), Create(n, manager, elementSize), Abstract(vs + {n}, ms))
  {
    hide Balanced, Abstract, Rebooked, Stepped;
    n := new SoulVector<T>(manager, smallCapacity, elementSize);
    CreateStep(Scenery(vs, ms), n);
  }

  method NewMoved<T(==)>(ghost vs: set<SoulVector<T>>, ghost ms: set<MemoryManager>, u: SoulVector<T>)
    returns (n: SoulVector<T>)
    requires Books(vs, ms) && u in vs
    modifies u, u.small, u.manager
    ensures fresh(n) && fresh(n.small) && (n.data == n.small || n.data == old(u.data)) && u.data == u.small
    ensures Books(vs + {n}, ms) && n.Contents() == old(u.Contents()) && u.Contents() == []
    ensures n.manager == u.manager == old(u.manager)
    ensures Stepped(old(Abstract(vs, ms)), MoveNew(n, u), Abstract(vs + {n}, ms))
  {
    hide Balanced, Abstract, Rebooked, Stepped;
    n := new SoulVector<T>.Move(u);
    MoveNewStep(Scene(vs, ms, u), n);
  }

  method NewCopied<T(==)>(ghost vs: set<SoulVector<T>>, ghost ms: set<MemoryManager>, u: SoulVector<T>)
    returns (n: SoulVector<T>)
    requires Books(vs, ms) && u in vs
    modifies u.manager
    ensures fresh(n) && fresh(n.small) && fresh(n.data) && n.manager == u.manager
    ensures Books(vs + {n}, ms) && n.Contents() == u.Contents() == old(u.Contents())
    ensures Stepped(old(Abstract(vs, ms)), CopyNew(n, u, StorageOf(n)), Abstract(vs + {n}, ms))
  {
    hide Balanced, Abstract, Rebooked, Stepped;
    n := new SoulVector<T>.Copy(u);
    CopyNewStep(Scene(vs, ms, u), n);
  }
}
