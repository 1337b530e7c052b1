/**
 What a growing vector costs.  Capacity starts at the inline capacity and doubles; every
 reallocation moves all the elements.  The elements moved by doubling are counted over whole
 runs of operations on the size and the capacity alone.
 */
module VectorGrowth {

  datatype Shape = Shape(size: nat, capacity: nat)

  /** Capacity after adding one element. */
  function GrownCapacity(size: nat, capacity: nat, small: nat): nat {
    if size == capacity then (if capacity == 0 then small else capacity * 2) else capacity
  }

  /** Elements moved by adding one element. */
  function GrowthCost(size: nat, capacity: nat): nat {
    if size == capacity then size else 0
  }

  function ReservedCapacity(capacity: nat, wanted: nat): nat {
    if wanted <= capacity then capacity else wanted
  }

  function ShrunkCapacity(size: nat, capacity: nat, small: nat): nat {
    if capacity == small then capacity
    else if size <= small then small
    else if size < capacity then size
    else capacity
  }

  function ShrinkCost(size: nat, capacity: nat, small: nat): nat {
    if capacity == small || small < size == capacity then 0 else size
  }

  /**
   Shrinking leaves the least capacity a vector of that size can have, and costs nothing when it is
   already there.
   */
  lemma ShrunkIsLeast(size: nat, capacity: nat, small: nat, other: nat)
    requires size <= capacity && small <= capacity
    ensures var shrunk := ShrunkCapacity(size, capacity, small);
            && size <= shrunk && small <= shrunk
            && (size <= other && small <= other ==> shrunk <= other)
            && ShrunkCapacity(size, shrunk, small) == shrunk && ShrinkCost(size, shrunk, small) == 0
            && (capacity != shrunk ==> ShrinkCost(size, capacity, small) == size)
  {
  }

  /** Operations that keep what capacity there is; `Drop` is any removal of elements. */
  datatype Op = Insert | Reserve(wanted: nat) | Drop(count: nat)

  function Next(s: Shape, op: Op, small: nat): Shape {
    match op
    case Insert => Shape(s.size + 1, GrownCapacity(s.size, s.capacity, small))
    case Reserve(wanted) => Shape(s.size, ReservedCapacity(s.capacity, wanted))
    case Drop(count) => Shape(if count <= s.size then s.size - count else 0, s.capacity)
  }

  /** Size and capacity after `n` insertions. */
  function AfterInserts(s: Shape, n: nat, small: nat): Shape {
    if n == 0 then s else Next(AfterInserts(s, n - 1, small), Insert, small)
  }

  /** Elements these insertions move. */
  function InsertMoves(s: Shape, n: nat, small: nat): nat {
    if n == 0 then 0
    else
      var t := AfterInserts(s, n - 1, small);
      InsertMoves(s, n - 1, small) + GrowthCost(t.size, t.capacity)
  }

  /**
   Insertions from any shape move exactly the capacity they add, and if they add any, fewer than
   two elements for each element then in the vector.
   */
  lemma {:induction false} InsertsPayForCapacity(s: Shape, n: nat, small: nat)
    requires small > 0 && s.size <= s.capacity && s.capacity >= small
    ensures var t := AfterInserts(s, n, small);
            && t.size == s.size + n <= t.capacity && t.capacity >= s.capacity
            && InsertMoves(s, n, small) == t.capacity - s.capacity
            && (t.capacity > s.capacity ==> t.capacity < 2 * t.size)
            && (t.capacity == s.capacity <==> s.size + n <= s.capacity)
  {
    if n > 0 { InsertsPayForCapacity(s, n - 1, small); }
  }

  function After(ops: seq<Op>, small: nat): Shape {
    if ops == [] then Shape(0, small) else Next(After(ops[..|ops| - 1], small), ops[|ops| - 1], small)
  }

  /** Elements moved by the doublings of a run. */
  function DoublingMoves(ops: seq<Op>, small: nat): nat {
    if ops == [] then 0
    else
      var s := After(ops[..|ops| - 1], small);
      DoublingMoves(ops[..|ops| - 1], small) + (if ops[|ops| - 1].Insert? then GrowthCost(s.size, s.capacity) else 0)
  }

  function Inserts(ops: seq<Op>): nat {
    if ops == [] then 0 else Inserts(ops[..|ops| - 1]) + (if ops[|ops| - 1].Insert? then 1 else 0)
  }

  /** Capacity added by explicit reservations. */
  function Reserved(ops: seq<Op>, small: nat): nat {
    if ops == [] then 0
    else
      var s := After(ops[..|ops| - 1], small);
      var grown := Next(s, ops[|ops| - 1], small).capacity - s.capacity;
      Reserved(ops[..|ops| - 1], small) + (if ops[|ops| - 1].Reserve? then grown else 0)
  }

  /**
   Over any run that never shrinks, doubling moves exactly the capacity that was gained and not
   reserved, and fewer than two elements per insertion.
   */
  lemma {:induction false} MovesPayForCapacity(ops: seq<Op>, small: nat)
    requires small > 0
    ensures After(ops, small).size <= After(ops, small).capacity && After(ops, small).capacity >= small
    ensures After(ops, small).size <= Inserts(ops)
    ensures DoublingMoves(ops, small) + small + Reserved(ops, small) == After(ops, small).capacity
    ensures Inserts(ops) > 0 ==> DoublingMoves(ops, small) < 2 * Inserts(ops)
    ensures Inserts(ops) == 0 ==> DoublingMoves(ops, small) == 0
  {
    if ops != [] {
      MovesPayForCapacity(ops[..|ops| - 1], small);
    }
  }

  /** Without reservations the cost is the capacity beyond the inline one, to the element. */
  lemma {:induction false} InsertOnlyCost(ops: seq<Op>, small: nat)
    requires small > 0
    requires forall i :: 0 <= i < |ops| ==> ops[i] == Insert
    ensures After(ops, small).size == |ops| == Inserts(ops)
    ensures DoublingMoves(ops, small) == After(ops, small).capacity - small
    ensures ops != [] ==> DoublingMoves(ops, small) < 2 * |ops|
  {
    NoReservations(ops, small);
    MovesPayForCapacity(ops, small);
  }

  lemma {:induction false} NoReservations(ops: seq<Op>, small: nat)
    requires forall i :: 0 <= i < |ops| ==> ops[i] == Insert
    ensures After(ops, small).size == |ops| == Inserts(ops)
    ensures Reserved(ops, small) == 0
  {
    if ops != [] {
      NoReservations(ops[..|ops| - 1], small);
    }
  }
}
