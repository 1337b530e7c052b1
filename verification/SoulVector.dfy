/**
 A vector with inline storage.  Every slot of a storage block is raw, holds a live element, or
 holds an element that has been moved from but not yet destroyed; constructing, moving and
 destroying are steps with preconditions, so each method is checked for constructing twice,
 destroying raw memory and leaking.
 */
module SoulVector {
  import opened MemoryManager
  import opened VectorGrowth

  datatype Slot<T> = Raw | Live(value: T) | Moved

  const VECTOR_TAG := MemoryTag(0x088C2395, "SoulVector")

  // ----- contents as plain sequences -----

  function Values<T>(slots: seq<Slot<T>>): seq<T>
    requires forall i :: 0 <= i < |slots| ==> slots[i].Live?
  {
    seq(|slots|, i requires 0 <= i < |slots| => slots[i].value)
  }

  function Without<T(==)>(s: seq<T>, value: T): (r: seq<T>)
    ensures |r| <= |s|
  {
    if s == [] then []
    else if s[|s| - 1] == value then Without(s[..|s| - 1], value)
    else Without(s[..|s| - 1], value) + [s[|s| - 1]]
  }

  /** Removal takes out every copy of the value and nothing else. */
  lemma {:induction false} WithoutExactly<T>(s: seq<T>, value: T)
    ensures multiset(Without(s, value)) == multiset(s)[value := 0]
  {
    if s != [] {
      var n := |s| - 1;
      WithoutExactly(s[..n], value);
      assert s == s[..n] + [s[n]];
      DropCopies(multiset(s[..n]), s[n], value);
    }
  }

  lemma DropCopies<T>(m: multiset<T>, x: T, value: T)
    ensures (m + multiset{x})[value := 0] == if x == value then m[value := 0] else m[value := 0] + multiset{x}
  {
  }

  /** What survives a removal stays in its order: the removal distributes over concatenation. */
  lemma {:induction false} WithoutConcat<T>(s: seq<T>, t: seq<T>, value: T)
    ensures Without(s + t, value) == Without(s, value) + Without(t, value)
  {
    if t == [] {
      assert s + t == s;
    } else {
      var n := |t| - 1;
      WithoutConcat(s, t[..n], value);
      assert (s + t)[..|s + t| - 1] == s + t[..n];
    }
  }

  lemma OneMoreKept<T>(s: seq<T>, i: nat, value: T)
    requires i < |s|
    ensures Without(s[..i + 1], value) == Without(s[..i], value) + (if s[i] == value then [] else [s[i]])
    ensures s[..i + 1] == s[..i] + [s[i]]
  {
    assert s[..i + 1][..i] == s[..i];
  }

  lemma NothingRemoved<T>(s: seq<T>, value: T)
    ensures Without(s[..0], value) == s[..0]
  {
  }

  // ----- lifetimes of single elements -----

  method Construct<T>(block: array<Slot<T>>, i: nat, value: T)
    requires i < block.Length && block[i].Raw?
    modifies block
    ensures block[i] == Live(value)
    ensures forall j :: 0 <= j < block.Length && j != i ==> block[j] == old(block[j])
  {
    block[i] := Live(value);
  }

  /** Reads an element out with `std::move`; the slot still has to be destroyed. */
  method MoveOut<T>(block: array<Slot<T>>, i: nat) returns (value: T)
    requires i < block.Length && block[i].Live?
    modifies block
    ensures value == old(block[i]).value && block[i] == Moved
    ensures forall j :: 0 <= j < block.Length && j != i ==> block[j] == old(block[j])
  {
    value := block[i].value;
    block[i] := Moved;
  }

  /** Assigning a moved value needs a constructed target. */
  method MoveOnto<T>(block: array<Slot<T>>, to: nat, from: nat)
    requires to < block.Length && from < block.Length && to != from
    requires !block[to].Raw? && block[from].Live?
    modifies block
    ensures block[to] == old(block[from]) && block[from] == Moved
    ensures forall j :: 0 <= j < block.Length && j != to && j != from ==> block[j] == old(block[j])
  {
    block[to] := block[from];
    block[from] := Moved;
  }

  method Destroy<T>(block: array<Slot<T>>, i: nat)
    requires i < block.Length && !block[i].Raw?
    modifies block
    ensures block[i] == Raw
    ensures forall j :: 0 <= j < block.Length && j != i ==> block[j] == old(block[j])
  {
    block[i] := Raw;
  }

  method DestroyRange<T>(block: array<Slot<T>>, begin: nat, end: nat)
    requires begin <= end <= block.Length
    requires forall i :: begin <= i < end ==> !block[i].Raw?
    modifies block
    ensures forall i :: begin <= i < end ==> block[i] == Raw
    ensures forall i :: 0 <= i < begin || end <= i < block.Length ==> block[i] == old(block[i])
  {
    var i := begin;
    while i < end
      invariant begin <= i <= end
      invariant forall j :: begin <= j < i ==> block[j] == Raw
      invariant forall j :: 0 <= j < begin || i <= j < block.Length ==> block[j] == old(block[j])
    {
      Destroy(block, i);
      i := i + 1;
    }
  }

  /** Move-constructs the first `n` elements of one block in another. */
  method MoveRange<T>(from: array<Slot<T>>, to: array<Slot<T>>, n: nat)
    requires from != to && n <= from.Length && n <= to.Length
    requires forall j :: 0 <= j < n ==> from[j].Live? && to[j].Raw?
    modifies from, to
    ensures forall j :: 0 <= j < n ==> to[j] == old(from[j]) && from[j] == Moved
    ensures forall j :: n <= j < to.Length ==> to[j] == old(to[j])
    ensures forall j :: n <= j < from.Length ==> from[j] == old(from[j])
  {
    var i := 0;
    while i < n
      invariant 0 <= i <= n
      invariant forall j :: 0 <= j < i ==> to[j] == old(from[j]) && from[j] == Moved
      invariant forall j :: i <= j < to.Length ==> to[j] == old(to[j])
      invariant forall j :: i <= j < from.Length ==> from[j] == old(from[j])
    {
      var value := MoveOut(from, i);
      Construct(to, i, value);
      i := i + 1;
    }
  }

  /** Moves the first `n` elements and destroys what is left of them. */
  method Relocate<T>(from: array<Slot<T>>, to: array<Slot<T>>, n: nat)
    requires from != to && n <= from.Length && n <= to.Length
    requires forall j :: 0 <= j < n ==> from[j].Live? && to[j].Raw?
    modifies from, to
    ensures forall j :: 0 <= j < n ==> to[j] == old(from[j]) && from[j] == Raw
    ensures forall j :: n <= j < to.Length ==> to[j] == old(to[j])
    ensures forall j :: n <= j < from.Length ==> from[j] == old(from[j])
  {
    MoveRange(from, to, n);
    DestroyRange(from, 0, n);
  }

  /** The first slots hold `kept`; from slot `i` on nothing has moved yet. */
  ghost predicate Compacted<T>(slots: seq<Slot<T>>, was: seq<T>, kept: seq<T>, i: nat)
    requires |kept| <= i <= |was| <= |slots|
  {
    && (forall j :: 0 <= j < |kept| ==> slots[j] == Live(kept[j]))
    && (forall j :: |kept| <= j < i ==> !slots[j].Raw?)
    && (forall j :: i <= j < |was| ==> slots[j] == Live(was[j]))
  }

  /** The second half of `std::remove`, from the first element equal to `value`. */
  method CompactFrom<T(==)>(block: array<Slot<T>>, size: nat, first: nat, value: T, ghost was: seq<T>)
    returns (newEnd: nat)
    requires first < size == |was| <= block.Length && was[first] == value
    requires forall j :: 0 <= j < size ==> block[j] == Live(was[j])
    requires Without(was[..first], value) == was[..first]
    modifies block
    ensures newEnd == |Without(was, value)| <= size
    ensures Compacted(block[..], was, Without(was, value), size)
    ensures forall j :: size <= j < block.Length ==> block[j] == old(block[j])
  {
    hide Without;
    OneMoreKept(was, first, value);
    ghost var kept := was[..first];
    newEnd := first;
    var i := first + 1;
    while i < size
      invariant newEnd == |kept| < i <= size
      invariant kept == Without(was[..i], value)
      invariant Compacted(block[..], was, kept, i)
      invariant forall j :: size <= j < block.Length ==> block[j] == old(block[j])
    {
      OneMoreKept(was, i, value);
      if block[i].value != value {
        MoveOnto(block, newEnd, i);
        newEnd := newEnd + 1;
        kept := kept + [was[i]];
      }
      i := i + 1;
    }
    assert was[..size] == was;
  }

  // ----- the allocator -----

  /** A new block is raw and registered with the manager the allocator carries. */
  method Allocate<T>(manager: MemoryManager, n: nat, elementSize: nat) returns (block: array<Slot<T>>)
    modifies manager
    ensures fresh(block) && block.Length == n
    ensures forall i :: 0 <= i < n ==> block[i] == Raw
    ensures manager.allocations == old(manager.allocations)[block := AllocationInfo(n * elementSize, VECTOR_TAG)]
    ensures block !in old(manager.allocations)
  {
    block := new Slot<T>[n](_ => Raw);
    manager.RegisterAllocation(block, n * elementSize, VECTOR_TAG);
  }

  /** Null is ignored, and so is the registration of a block this manager does not know. */
  method Deallocate<T>(manager: MemoryManager, block: array?<Slot<T>>)
    requires block != null ==> forall i :: 0 <= i < block.Length ==> block[i].Raw?
    modifies manager
    ensures block == null ==> manager.allocations == old(manager.allocations)
    ensures block != null ==> manager.allocations == old(manager.allocations) - {block}
  {
    if block == null {
      return;
    }
    manager.UnregisterAllocation(block);
  }

  /** A table after one vector has given up the claim `before` and taken up `after`. */
  ghost function Rebooked<P>(t: Table<P>, before: Table<P>, after: Table<P>): Table<P> {
    (t - before.Keys) + after
  }

  lemma Unchanged<P>(t: Table<P>, claim: Table<P>)
    requires forall p :: p in claim ==> p in t && t[p] == claim[p]
    ensures Rebooked(t, claim, claim) == t
  {
  }

  /** Registering a new block and then giving up the old ones. */
  lemma Rehoused<P>(t: Table<P>, before: Table<P>, p: P, info: AllocationInfo)
    requires p !in t && forall q :: q in before ==> q in t
    ensures t[p := info] - before.Keys == Rebooked(t, before, map[p := info])
    ensures before == map[] ==> t[p := info] == Rebooked(t, before, map[p := info])
    ensures forall q :: before.Keys == {q} ==> t[p := info] - {q} == Rebooked(t, before, map[p := info])
  {
  }

  /** Rebooking leaves the rest of the table alone. */
  lemma Elsewhere<P>(t: Table<P>, before: Table<P>, after: Table<P>)
    ensures forall p :: p !in before && p !in after && p in t ==>
      p in Rebooked(t, before, after) && Rebooked(t, before, after)[p] == t[p]
    ensures forall p :: p in after ==> p in Rebooked(t, before, after) && Rebooked(t, before, after)[p] == after[p]
  {
  }

  /** Taking up a claim and then giving up another is exchanging the two. */
  lemma OneForAnother<P>(t: Table<P>, before: Table<P>, after: Table<P>)
    requires forall p :: p in after ==> p !in before
    ensures Rebooked(Rebooked(t, map[], after), before, map[]) == Rebooked(t, before, after)
  {
  }

  /** Exchanging a claim twice is exchanging the first for the last. */
  lemma RebookedTwice<P>(t: Table<P>, first: Table<P>, second: Table<P>, third: Table<P>)
    requires forall p :: p in second && p in t ==> p in first
    ensures Rebooked(Rebooked(t, first, second), second, third) == Rebooked(t, first, third)
  {
  }

  class SoulVector<T(==)> {
    const small: array<Slot<T>>
    const elementSize: nat
    var manager: MemoryManager
    var data: array<Slot<T>>
    var size: nat
    var capacity: nat
    /** Elements moved from block to block so far. */
    ghost var moves: nat

    /** What the allocator of this vector must have registered. */
    ghost function Claim(): Table<object>
      reads this
    {
      if data == small then map[] else map[data as object := AllocationInfo(capacity * elementSize, VECTOR_TAG)]
    }

    /** Inline storage is in use exactly when the capacity is the inline one. */
    ghost predicate Shaped()
      reads this
    {
      && 0 < small.Length <= capacity == data.Length
      && size <= capacity
      && (data == small <==> capacity == small.Length)
    }

    /** Exactly the first `size` slots of the active storage are constructed. */
    ghost predicate Lifetimes()
      requires Shaped()
      reads this, small, data
    {
      && (forall i :: 0 <= i < size ==> data[i].Live?)
      && (forall i :: size <= i < capacity ==> data[i].Raw?)
      && (data != small ==> forall i :: 0 <= i < small.Length ==> small[i].Raw?)
    }

    ghost predicate Valid()
      reads this, small, data, manager
    {
      && Shaped()
      && Lifetimes()
      && (data != small ==> data in manager.allocations && manager.allocations[data] == Claim()[data])
    }

    ghost function Contents(): seq<T>
      requires Shaped() && Lifetimes()
      reads this, small, data
    {
      Values(data[..size])
    }

    ghost predicate Separate(other: SoulVector<T>)
      reads this, other
    {
      && this != other && small != other.small && data != other.data
      && small != other.data && data != other.small
    }

    /** Both are instances of the same template. */
    ghost predicate SameTemplate(other: SoulVector<T>) {
      small.Length == other.small.Length && elementSize == other.elementSize
    }

    constructor (manager: MemoryManager, smallCapacity: nat, elementSize: nat)
      requires smallCapacity > 0
      ensures Valid() && Contents() == []
      ensures this.manager == manager && this.elementSize == elementSize
      ensures fresh(small) && data == small && small.Length == smallCapacity && moves == 0
    {
      var storage := new Slot<T>[smallCapacity](_ => Raw);
      this.manager, this.elementSize := manager, elementSize;
      small, data, size, capacity := storage, storage, 0, smallCapacity;
      moves := 0;
    }

    method MoveToSmall()
      requires Valid() && size <= small.Length
      modifies this, small, data, manager
      ensures Valid() && manager == old(manager) && Contents() == old(Contents())
      ensures data == small
      ensures manager.allocations == Rebooked(old(manager.allocations), old(Claim()), map[])
      ensures moves == old(moves) + (if old(data) == small then 0 else size)
    {
      if data == small {
        return;
      }
      var i := 0;
      while i < size
        modifies small, data
        invariant 0 <= i <= size
        invariant forall j :: 0 <= j < i ==> small[j] == old(data[j])
        invariant forall j :: i <= j < small.Length ==> small[j].Raw?
        invariant forall j :: i <= j < size ==> data[j] == old(data[j])
        invariant forall j :: 0 <= j < i || size <= j < capacity ==> data[j].Raw?
      {
        var value := MoveOut(data, i);
        Construct(small, i, value);
        Destroy(data, i);
        i := i + 1;
      }
      moves := moves + size;
      assert data in manager.allocations;
      Deallocate(manager, data);
      data := small;
      capacity := small.Length;
      assert data[..size] == old(data[..size]);
    }

    method Reallocate(requested: nat)
      requires Valid() && size <= requested
      modifies this, small, data, manager
      ensures Valid() && manager == old(manager) && Contents() == old(Contents())
      ensures capacity == if requested <= small.Length then small.Length else requested
      ensures size == old(size) && (data == small || fresh(data))
      ensures manager.allocations == Rebooked(old(manager.allocations), old(Claim()), Claim())
      ensures moves == old(moves) + (if old(data) == small == data then 0 else size)
    {
      var target := requested;
      if target <= small.Length {
        target := small.Length;
      }
      var moveToSmall := target <= small.Length;
      if moveToSmall && data == small {
        return;
      }
      if moveToSmall {
        MoveToSmall();
        return;
      }
      GrowInto(target);
    }

    /** The branch of `Reallocate` that takes a new block from the heap. */
    method GrowInto(target: nat)
      requires Valid() && size <= target && small.Length < target
      modifies this, small, data, manager
      ensures Valid() && manager == old(manager) && Contents() == old(Contents())
      ensures capacity == target && size == old(size) && fresh(data)
      ensures manager.allocations == Rebooked(old(manager.allocations), old(Claim()), Claim())
      ensures moves == old(moves) + size
    {
      hide Rebooked, Values;
      var newData := Allocate<T>(manager, target, elementSize);
      Rehoused(old(manager.allocations), Claim(), newData, AllocationInfo(target * elementSize, VECTOR_TAG));
      Relocate(data, newData, size);
      moves := moves + size;
      if data != small {
        assert data in manager.allocations;
        Deallocate(manager, data);
      }
      data := newData;
      capacity := target;
      assert data[..size] == old(data[..size]);
    }

    method EmplaceBack(value: T)
      requires Valid()
      modifies this, small, data, manager
      ensures Valid() && manager == old(manager) && Contents() == old(Contents()) + [value]
      ensures capacity == GrownCapacity(old(size), old(capacity), small.Length)
      ensures capacity == if old(size) < old(capacity) then old(capacity) else 2 * old(capacity)
      ensures size == old(size) + 1
      ensures if old(size) < old(capacity) then data == old(data) else fresh(data)
      ensures manager.allocations == Rebooked(old(manager.allocations), old(Claim()), Claim())
      ensures moves == old(moves) + GrowthCost(old(size), old(capacity))
    {
      hide Values, Rebooked, Contents, Lifetimes;
      if size == capacity {
        Reallocate(GrownCapacity(size, capacity, small.Length));
      } else {
        Unchanged(manager.allocations, Claim());
      }
      ConstructLast(value);
    }

    /** Placement of the new element in the first raw slot. */
    method ConstructLast(value: T)
      requires Valid() && size < capacity
      modifies this`size, data
      ensures Valid() && Contents() == old(Contents()) + [value]
      ensures size == old(size) + 1
    {
      ghost var before := data[..size];
      Construct(data, size, value);
      size := size + 1;
      assert data[..size] == before + [Live(value)];
    }

    method Insert(value: T)
      requires Valid()
      modifies this, small, data, manager
      ensures Valid() && manager == old(manager) && Contents() == old(Contents()) + [value]
      ensures capacity == GrownCapacity(old(size), old(capacity), small.Length)
      ensures capacity == if old(size) < old(capacity) then old(capacity) else 2 * old(capacity)
      ensures size == old(size) + 1
      ensures if old(size) < old(capacity) then data == old(data) else fresh(data)
      ensures manager.allocations == Rebooked(old(manager.allocations), old(Claim()), Claim())
      ensures moves == old(moves) + GrowthCost(old(size), old(capacity))
    {
      EmplaceBack(value);
    }

    method Reserve(newCapacity: nat)
      requires Valid()
      modifies this, small, data, manager
      ensures Valid() && manager == old(manager) && Contents() == old(Contents())
      ensures capacity == ReservedCapacity(old(capacity), newCapacity)
      ensures capacity == if newCapacity > old(capacity) then newCapacity else old(capacity)
      ensures if newCapacity > old(capacity) then fresh(data) else data == old(data)
      ensures manager.allocations == Rebooked(old(manager.allocations), old(Claim()), Claim())
      ensures moves == old(moves) + (if newCapacity <= old(capacity) then 0 else size)
    {
      if newCapacity <= capacity {
        Unchanged(manager.allocations, Claim());
        return;
      }
      Reallocate(newCapacity);
    }

    method ShrinkToFit()
      requires Valid()
      modifies this, small, data, manager
      ensures Valid() && manager == old(manager) && Contents() == old(Contents())
      ensures capacity == ShrunkCapacity(old(size), old(capacity), small.Length)
      ensures data == old(data) || data == small || fresh(data)
      ensures manager.allocations == Rebooked(old(manager.allocations), old(Claim()), Claim())
      ensures moves == old(moves) + ShrinkCost(old(size), old(capacity), small.Length)
      ensures size <= small.Length ==> data == small && capacity == small.Length
      ensures size > small.Length ==>
                && capacity == size && data != small && data in manager.allocations
                && manager.allocations[data] == AllocationInfo(size * elementSize, VECTOR_TAG)
      ensures old(data) == small || old(size) == old(capacity) > small.Length ==>
                moves == old(moves) && data == old(data)
    {
      if size <= small.Length && data != small {
        MoveToSmall();
        return;
      }
      if size < capacity && data != small {
        Reallocate(size);
      } else {
        Unchanged(manager.allocations, Claim());
      }
    }

    method Clear()
      requires Valid()
      modifies this, small, data
      ensures Valid() && manager == old(manager) && data == old(data) && capacity == old(capacity)
      ensures Contents() == [] && moves == old(moves)
    {
      DestroyRange(data, 0, size);
      size := 0;
    }

    /** `std::remove` followed by destroying what is left behind. */
    method Remove(value: T)
      requires Valid()
      modifies this, small, data
      ensures Valid() && manager == old(manager) && data == old(data) && capacity == old(capacity)
      ensures Contents() == Without(old(Contents()), value) && moves == old(moves)
    {
      hide Without;
      ghost var was := Contents();
      var newEnd := MoveKept(value);
      assert was[..size] == was;
      DestroyRange(data, newEnd, size);
      size := newEnd;
      assert Contents() == Without(was, value);
    }

    /** The first element equal to `value`, or the end. */
    method FindValue(value: T) returns (first: nat)
      requires Valid()
      ensures first <= size && Without(Contents()[..first], value) == Contents()[..first]
      ensures first < size ==> Contents()[first] == value
    {
      hide Without;
      first := 0;
      NothingRemoved(Contents(), value);
      while first < size && data[first].value != value
        invariant 0 <= first <= size
        invariant Without(Contents()[..first], value) == Contents()[..first]
      {
        OneMoreKept(Contents(), first, value);
        first := first + 1;
      }
    }

    /** Shifts the elements that stay over those that go; the rest is still to be destroyed. */
    method MoveKept(value: T) returns (newEnd: nat)
      requires Valid()
      modifies data
      ensures newEnd == |Without(old(Contents()), value)| <= size
      ensures Compacted(data[..], old(Contents()), Without(old(Contents()), value), size)
      ensures forall j :: size <= j < capacity ==> data[j].Raw?
      ensures data != small ==> forall j :: 0 <= j < small.Length ==> small[j].Raw?
    {
      hide Without;
      ghost var was := Contents();
      newEnd := FindValue(value);
      assert was[..size] == was;
      if newEnd < size {
        newEnd := CompactFrom(data, size, newEnd, value, was);
      }
    }

    /** Positions outside the vector are ignored and answered with the end. */
    method Erase(pos: int) returns (next: nat)
      requires Valid()
      modifies this, small, data
      ensures Valid() && manager == old(manager) && data == old(data) && capacity == old(capacity)
      ensures 0 <= pos < old(size) ==> next == pos && Contents() == old(Contents()[..pos] + Contents()[pos + 1..])
      ensures !(0 <= pos < old(size)) ==> next == size && Contents() == old(Contents())
      ensures moves == old(moves)
    {
      if pos < 0 || pos >= size {
        return size;
      }
      ghost var was := Contents();
      ShiftDown(pos);
      Destroy(data, size - 1);
      size := size - 1;
      assert Contents() == was[..pos] + was[pos + 1..];
      next := pos;
    }

    method ShiftDown(pos: nat)
      requires Valid() && pos < size
      modifies data
      ensures forall j :: 0 <= j < pos ==> data[j] == old(data[j])
      ensures forall j :: pos <= j < size - 1 ==> data[j] == old(data[j + 1])
      ensures !data[size - 1].Raw?
      ensures forall j :: size <= j < capacity ==> data[j].Raw?
      ensures data != small ==> forall j :: 0 <= j < small.Length ==> small[j].Raw?
    {
      var it := pos;
      while it < size - 1
        invariant pos <= it <= size - 1
        invariant forall j :: 0 <= j < pos ==> data[j] == old(data[j])
        invariant forall j :: pos <= j < it ==> data[j] == old(data[j + 1])
        invariant !data[it].Raw?
        invariant forall j :: it < j < size ==> data[j] == old(data[j])
        invariant forall j :: size <= j < capacity ==> data[j].Raw?
        invariant data != small ==> forall j :: 0 <= j < small.Length ==> small[j].Raw?
      {
        MoveOnto(data, it, it + 1);
        it := it + 1;
      }
    }

    /** What the destructor does. */
    method ReleaseStorage()
      requires Valid()
      modifies this, small, data, manager
      ensures Valid() && manager == old(manager) && Contents() == []
      ensures data == small && Claim() == map[] && capacity == small.Length && moves == old(moves)
      ensures manager.allocations == Rebooked(old(manager.allocations), old(Claim()), map[])
    {
      DestroyRange(data, 0, size);
      if data != small {
        assert data in manager.allocations;
        Deallocate(manager, data);
      }
      data := small;
      capacity := small.Length;
      size := 0;
    }

    method AppendRange(values: seq<T>)
      requires Valid()
      modifies this, small, data, manager
      ensures Valid() && manager == old(manager) && Contents() == old(Contents()) + values
      ensures capacity == ReservedCapacity(old(capacity), old(size) + |values|)
      ensures capacity == if old(size) + |values| > old(capacity) then old(size) + |values| else old(capacity)
      ensures data == old(data) || fresh(data)
      ensures manager.allocations == Rebooked(old(manager.allocations), old(Claim()), Claim())
      ensures moves == old(moves) + (if old(size) + |values| <= old(capacity) then 0 else old(size))
    {
      if |values| > 0 {
        Reserve(size + |values|);
      } else {
        Unchanged(manager.allocations, Claim());
      }
      ghost var claim, table, moved := Claim(), manager.allocations, moves;
      var i := 0;
      assert Contents() == old(Contents()) + values[..0];
      while i < |values|
        invariant 0 <= i <= |values| && Valid() && manager == old(manager)
        invariant size == old(size) + i
        invariant capacity == ReservedCapacity(old(capacity), old(size) + |values|)
        invariant data == old(data) || fresh(data)
        invariant Contents() == old(Contents()) + values[..i]
        invariant Claim() == claim && manager.allocations == table && moves == moved
      {
        EmplaceBack(values[i]);
        Unchanged(table, claim);
        assert values[..i + 1] == values[..i] + [values[i]];
        i := i + 1;
      }
      assert values[..i] == values;
    }

    /** Appending from a range whose size is not known: one growth step after the other. */
    method AppendEach(values: seq<T>)
      requires Valid()
      modifies this, small, data, manager
      ensures Valid() && manager == old(manager) && Contents() == old(Contents()) + values
      ensures Shape(size, capacity) == AfterInserts(Shape(old(size), old(capacity)), |values|, small.Length)
      ensures data == old(data) || fresh(data)
      ensures manager.allocations == Rebooked(old(manager.allocations), old(Claim()), Claim())
      ensures moves == old(moves) + InsertMoves(Shape(old(size), old(capacity)), |values|, small.Length)
      ensures moves - old(moves) == capacity - old(capacity)
      ensures capacity == old(capacity) || moves - old(moves) < capacity < 2 * size
    {
      hide Values, Rebooked, Lifetimes, GrownCapacity, GrowthCost;
      ghost var table, mine := manager.allocations, Claim();
      Unchanged(table, mine);
      var i := 0;
      assert values[..0] == [] && old(Contents()) + [] == old(Contents());
      while i < |values|
        invariant 0 <= i <= |values| && Valid() && manager == old(manager)
        invariant data == old(data) || fresh(data)
        invariant Contents() == old(Contents()) + values[..i]
        invariant Shape(size, capacity) == AfterInserts(Shape(old(size), old(capacity)), i, small.Length)
        invariant manager.allocations == Rebooked(table, mine, Claim())
        invariant moves == old(moves) + InsertMoves(Shape(old(size), old(capacity)), i, small.Length)
      {
        ghost var between := Claim();
        assert data == old(data) ==> between == mine;
        EmplaceBack(values[i]);
        RebookedTwice(table, mine, between, Claim());
        assert values[..i + 1] == values[..i] + [values[i]];
        i := i + 1;
      }
      assert values[..i] == values;
      InsertsPayForCapacity(Shape(old(size), old(capacity)), |values|, small.Length);
    }

    /** Takes over the elements of `other`: its block if it has one, else one by one. */
    method AdoptFrom(other: SoulVector<T>)
      requires Valid() && size == 0 && data == small
      requires other.Valid() && Separate(other) && SameTemplate(other) && manager == other.manager
      modifies this, small, data, manager, other, other.small
      ensures Valid() && other.Valid() && manager == old(manager) && other.manager == manager
      ensures Contents() == old(other.Contents()) && other.Contents() == []
      ensures Claim() == old(other.Claim()) && other.Claim() == map[]
      ensures data == small || data == old(other.data)
      ensures other.data == other.small
      ensures capacity == old(other.capacity) && other.capacity == other.small.Length
      ensures manager.allocations == old(manager.allocations)
    {
      if other.data == other.small {
        AdoptElements(other);
      } else {
        data := other.data;
        size := other.size;
        capacity := other.capacity;
        other.data := other.small;
        other.size := 0;
        other.capacity := other.small.Length;
      }
    }

    method AdoptElements(other: SoulVector<T>)
      requires Valid() && size == 0 && data == small
      requires other.Valid() && Separate(other) && SameTemplate(other) && manager == other.manager
      requires other.data == other.small
      modifies this, small, manager, other, other.small
      ensures Valid() && other.Valid() && manager == old(manager) && other.manager == manager
      ensures Contents() == old(other.Contents()) && other.Contents() == []
      ensures data == small && other.data == other.small
      ensures manager.allocations == old(manager.allocations)
    {
      ghost var was := other.Contents();
      var i := 0;
      while i < other.size
        modifies this, small, manager, other.small
        invariant 0 <= i <= other.size == |was|
        invariant Valid() && manager == old(manager) && data == small && size == i
        invariant Contents() == was[..i]
        invariant manager.allocations == old(manager.allocations)
        invariant forall j :: 0 <= j < i ==> other.small[j].Raw?
        invariant forall j :: i <= j < other.size ==> other.small[j] == Live(was[j])
        invariant forall j :: other.size <= j < other.capacity ==> other.small[j].Raw?
      {
        var value := MoveOut(other.small, i);
        EmplaceBack(value);
        Unchanged(old(manager.allocations), map[]);
        Destroy(other.small, i);
        assert was[..i + 1] == was[..i] + [was[i]];
        i := i + 1;
      }
      assert was[..i] == was;
      other.size := 0;
    }

    constructor Move(other: SoulVector<T>)
      requires other.Valid()
      modifies other, other.small, other.manager
      ensures Valid() && other.Valid() && SameTemplate(other)
      ensures manager == other.manager == old(other.manager)
      ensures Contents() == old(other.Contents()) && other.Contents() == []
      ensures Claim() == old(other.Claim()) && other.Claim() == map[]
      ensures fresh(small) && (data == small || data == old(other.data)) && other.data == other.small
      ensures capacity == old(other.capacity) && other.capacity == other.small.Length
      ensures manager.allocations == old(other.manager.allocations)
    {
      var storage := new Slot<T>[other.small.Length](_ => Raw);
      manager, elementSize := other.manager, other.elementSize;
      small, data, size, capacity := storage, storage, 0, other.small.Length;
      moves := 0;
      new;
      AdoptFrom(other);
    }

    /** The move assignment: what was here is released to its own manager first. */
    method AssignMove(other: SoulVector<T>)
      requires Valid() && other.Valid() && SameTemplate(other)
      requires other != this ==> Separate(other)
      modifies this, small, data, manager, other, other.small, other.manager
      ensures Valid() && other.Valid()
      ensures other == this ==> Contents() == old(Contents()) && Claim() == old(Claim()) && manager == old(manager)
      ensures other == this ==> data == old(data) && manager.allocations == old(manager.allocations)
      ensures other != this ==> Contents() == old(other.Contents()) && other.Contents() == []
      ensures other != this ==> Claim() == old(other.Claim()) && other.Claim() == map[]
      ensures other != this ==> manager == other.manager == old(other.manager)
      ensures other != this ==> (data == small || data == old(other.data)) && other.data == other.small
      ensures other != this ==> capacity == old(other.capacity) && other.capacity == other.small.Length
      ensures other != this ==> old(manager).allocations == Rebooked(old(manager.allocations), old(Claim()), map[])
      ensures old(manager) != manager ==> manager.allocations == old(other.manager.allocations)
    {
      if this != other {
        ReleaseStorage();
        manager := other.manager;
        AdoptFrom(other);
      }
    }

    /** The move assignment onto a vector that holds nothing: no table changes. */
    method Refill(other: SoulVector<T>)
      requires Valid() && data == small && Contents() == []
      requires other.Valid() && SameTemplate(other) && Separate(other)
      modifies this, small, manager, other, other.small, other.manager
      ensures Valid() && other.Valid()
      ensures Contents() == old(other.Contents()) && other.Contents() == []
      ensures Claim() == old(other.Claim()) && other.Claim() == map[]
      ensures manager == other.manager == old(other.manager)
      ensures (data == small || data == old(other.data)) && other.data == other.small
      ensures capacity == old(other.capacity) && other.capacity == other.small.Length
      ensures old(manager).allocations == old(manager.allocations)
      ensures manager.allocations == old(other.manager.allocations)
    {
      hide Values;
      NothingGivenUp(manager.allocations);
      AssignMove(other);
    }

    /** The two trade contents, blocks and managers; no table changes. */
    method Swap(other: SoulVector<T>)
      requires Valid() && other.Valid() && SameTemplate(other)
      requires other != this ==> Separate(other)
      modifies this, small, data, manager, other, other.small, other.data, other.manager
      ensures Valid() && other.Valid() && (other != this ==> Separate(other))
      ensures Contents() == old(other.Contents()) && other.Contents() == old(Contents())
      ensures Claim() == old(other.Claim()) && other.Claim() == old(Claim())
      ensures manager == old(other.manager) && other.manager == old(manager)
      ensures capacity == old(other.capacity) && other.capacity == old(capacity)
      ensures data == small || data == old(other.data)
      ensures other.data == other.small || other.data == old(data)
      ensures manager.allocations == old(other.manager.allocations)
      ensures other.manager.allocations == old(manager.allocations)
    {
      hide Values, Rebooked, Contents, Lifetimes, Shaped;
      if this == other {
        return;
      }
      var tmp := new SoulVector<T>.Move(other);
      other.Refill(this);
      this.Refill(tmp);
      NothingGivenUp(tmp.manager.allocations);
      tmp.ReleaseStorage();
    }

    constructor FromValues(manager: MemoryManager, smallCapacity: nat, elementSize: nat, values: seq<T>)
      requires smallCapacity > 0
      modifies manager
      ensures Valid() && Contents() == values
      ensures this.manager == manager && this.elementSize == elementSize && small.Length == smallCapacity
      ensures fresh(small) && fresh(data)
      ensures capacity == if |values| > smallCapacity then |values| else smallCapacity
      ensures manager.allocations == Rebooked(old(manager.allocations), map[], Claim())
    {
      var storage := new Slot<T>[smallCapacity](_ => Raw);
      this.manager, this.elementSize := manager, elementSize;
      small, data, size, capacity := storage, storage, 0, smallCapacity;
      moves := 0;
      new;
      Fill(values);
    }

    /** `reserve` and one construction per value, as the copying constructors do. */
    method Fill(values: seq<T>)
      requires Valid() && size == 0 && data == small
      modifies this, small, manager
      ensures Valid() && manager == old(manager) && Contents() == values
      ensures data == small || fresh(data)
      ensures capacity == ReservedCapacity(small.Length, |values|)
      ensures manager.allocations == Rebooked(old(manager.allocations), map[], Claim())
    {
      Reserve(|values|);
      ghost var claim, table := Claim(), manager.allocations;
      var i := 0;
      while i < |values|
        invariant 0 <= i <= |values| && Valid() && manager == old(manager)
        invariant size == i && capacity == ReservedCapacity(small.Length, |values|)
        invariant data == small || fresh(data)
        invariant Contents() == values[..i]
        invariant Claim() == claim && manager.allocations == table
      {
        EmplaceBack(values[i]);
        Unchanged(table, claim);
        assert values[..i + 1] == values[..i] + [values[i]];
        i := i + 1;
      }
      assert values[..i] == values;
    }

    /** What iterating over the vector yields. */
    method GetAll() returns (values: seq<T>)
      requires Valid()
      ensures values == Contents()
    {
      values := [];
      var i := 0;
      while i < size
        invariant 0 <= i <= size
        invariant values == Contents()[..i]
      {
        values := values + [data[i].value];
        i := i + 1;
      }
    }

    /** A copy shares the manager of the original and its block is its own. */
    constructor Copy(other: SoulVector<T>)
      requires other.Valid()
      modifies other.manager
      ensures Valid() && other.Valid() && SameTemplate(other) && manager == other.manager
      ensures Contents() == other.Contents() == old(other.Contents())
      ensures fresh(small) && fresh(data)
      ensures capacity == if other.size > small.Length then other.size else small.Length
      ensures manager.allocations == Rebooked(old(other.manager.allocations), map[], Claim())
    {
      var storage := new Slot<T>[other.small.Length](_ => Raw);
      manager, elementSize := other.manager, other.elementSize;
      small, data, size, capacity := storage, storage, 0, other.small.Length;
      moves := 0;
      new;
      var values := other.GetAll();
      Fill(values);
    }

    /** The end of copy-and-swap: the temporary leaves with the old storage. */
    method TradeIn(tmp: SoulVector<T>)
      requires Valid() && tmp.Valid() && SameTemplate(tmp) && Separate(tmp)
      requires manager == tmp.manager ==> forall p :: p in tmp.Claim() ==> p !in Claim()
      modifies this, small, data, manager, tmp, tmp.small, tmp.data, tmp.manager
      ensures Valid() && Contents() == old(tmp.Contents())
      ensures Claim() == old(tmp.Claim()) && manager == old(tmp.manager) && capacity == old(tmp.capacity)
      ensures data == small || data == old(tmp.data)
      ensures old(manager).allocations == Rebooked(old(manager.allocations), old(Claim()), map[])
      ensures old(manager) != manager ==> manager.allocations == old(tmp.manager.allocations)
    {
      hide Values, Rebooked, Contents, Lifetimes, Shaped;
      Elsewhere(manager.allocations, Claim(), map[]);
      Swap(tmp);
      tmp.ReleaseStorage();
    }

    /** Copy and swap: the old storage goes back to its own manager, the new comes from the other's. */
    method AssignCopy(other: SoulVector<T>)
      requires Valid() && other.Valid() && SameTemplate(other)
      requires other != this ==> Separate(other)
      modifies this, small, data, manager, other.manager
      ensures Valid() && other.Valid() && Contents() == old(other.Contents()) == other.Contents()
      ensures other == this ==> Claim() == old(Claim()) && manager == old(manager)
      ensures other == this ==> manager.allocations == old(manager.allocations)
      ensures other != this ==> manager == other.manager
      ensures other != this ==> data == small || fresh(data)
      ensures other != this ==> capacity == if other.size > small.Length then other.size else small.Length
      ensures other != this && old(manager) == other.manager ==>
                manager.allocations == Rebooked(old(manager.allocations), old(Claim()), Claim())
      ensures other != this && old(manager) != other.manager ==>
                && old(manager).allocations == Rebooked(old(manager.allocations), old(Claim()), map[])
                && manager.allocations == Rebooked(old(other.manager.allocations), map[], Claim())
    {
      hide Values, Rebooked, Contents, Lifetimes;
      if this != other {
        ghost var mine, table := Claim(), other.manager.allocations;
        var tmp := new SoulVector<T>.Copy(other);
        ghost var copied := tmp.Claim();
        Elsewhere(table, map[], copied);
        Elsewhere(manager.allocations, mine, map[]);
        TradeIn(tmp);
        OneForAnother(table, mine, copied);
      }
    }
  }

  lemma NothingGivenUp<P>(t: Table<P>)
    ensures Rebooked(t, map[], map[]) == t
  {
  }
}
