/**
 Bump allocation out of one buffer.  Sizes are 64-bit words that wrap around, and alignment is
 done with the mask `(value + (alignment - 1)) & ~(alignment - 1)`; the mask means what it is
 meant to mean for powers of two and for nothing else.
 */
module ArenaAllocator {
  import opened Options
  import opened Bits

  const SIZE_RANGE: nat := 0x1_0000_0000_0000_0000

  /** `std::size_t`. */
  type Size = x: nat | x < SIZE_RANGE

  function Add(a: Size, b: Size): Size {
    if a + b < SIZE_RANGE then a + b else a + b - SIZE_RANGE
  }

  function LessOne(a: Size): Size {
    if a == 0 then SIZE_RANGE - 1 else a - 1
  }

  function Complement(a: Size): Size {
    SIZE_RANGE - 1 - a
  }

  function Align(value: Size, alignment: Size): Size {
    AndBound(Add(value, LessOne(alignment)), Complement(LessOne(alignment)));
    And(Add(value, LessOne(alignment)), Complement(LessOne(alignment)))
  }

  lemma {:induction false} AndBound(x: nat, y: nat)
    ensures And(x, y) <= x
  {
    if x != 0 && y != 0 { AndBound(x / 2, y / 2); }
  }

  // ----- the mask -----

  lemma {:induction false} AndAllOnes(x: nat, w: nat)
    requires x < Pow2(w)
    ensures And(x, Pow2(w) - 1) == x
  {
    if x != 0 {
      assert (Pow2(w) - 1) / 2 == Pow2(w - 1) - 1;
      AndAllOnes(x / 2, w - 1);
    }
  }

  lemma AndEven(x: nat, z: nat)
    ensures And(x, 2 * z) == 2 * And(x / 2, z)
  {
    AndDigits(x, 2 * z, z, 0);
  }

  lemma AndDigits(x: nat, y: nat, half: nat, digit: nat)
    requires y / 2 == half && y % 2 == digit
    ensures And(x, y) == 2 * And(x / 2, half) + (x % 2) * digit
  {
  }

  lemma MaskStep(x: nat, h: nat, top: nat, m: nat)
    requires h <= top && m % 2 == x % 2 && And(x / 2, top - h) == x / 2 - m / 2
    ensures And(x, 2 * top - 2 * h) == x - m
  {
    hide And;
    AndEven(x, top - h);
    assert 2 * top - 2 * h == 2 * (top - h);
    assert x == 2 * (x / 2) + x % 2 && m == 2 * (m / 2) + m % 2;
  }

  /** Masking with `2^w - 2^k` clears the last `k` digits. */
  lemma {:induction false} MaskClears(x: nat, k: nat, w: nat)
    requires k <= w && x < Pow2(w)
    ensures Pow2(k) <= Pow2(w) && And(x, Pow2(w) - Pow2(k)) == x - x % Pow2(k)
  {
    hide And;
    Pow2Monotone(k, w);
    if k == 0 {
      AndAllOnes(x, w);
    } else {
      MaskClears(x / 2, k - 1, w - 1);
      HalveModulo(x, Pow2(k - 1));
      MaskStep(x, Pow2(k - 1), Pow2(w - 1), x % Pow2(k));
    }
  }

  predicate IsPowerOfTwo(a: nat) {
    if a <= 1 then a == 1 else a % 2 == 0 && IsPowerOfTwo(a / 2)
  }

  lemma {:induction false} PowerOfTwo(a: nat) returns (k: nat)
    requires IsPowerOfTwo(a)
    ensures a == Pow2(k)
  {
    if a == 1 {
      k := 0;
    } else {
      var j := PowerOfTwo(a / 2);
      k := j + 1;
    }
  }

  lemma {:induction false} ExponentBound(k: nat, w: nat)
    requires Pow2(k) < Pow2(w)
    ensures k < w
  {
    if w <= k { Pow2Monotone(w, k); }
  }

  lemma {:induction false} DisjointMasks(x: nat, w: nat)
    requires x < Pow2(w)
    ensures And(x, Pow2(w) - 1 - x) == 0
  {
    var y := Pow2(w) - 1 - x;
    if x != 0 && y != 0 {
      assert y / 2 == Pow2(w - 1) - 1 - x / 2;
      DisjointMasks(x / 2, w - 1);
    }
  }

  /** A word and its negation share one digit, the lowest; it is the whole word for powers of two only. */
  lemma {:induction false} LowestDigit(a: nat, w: nat)
    requires 0 < a < Pow2(w)
    ensures And(a, Pow2(w) - a) == a <==> IsPowerOfTwo(a)
  {
    var y := Pow2(w) - a;
    if a % 2 == 1 {
      assert y / 2 == Pow2(w - 1) - 1 - a / 2 && y % 2 == 1;
      DisjointMasks(a / 2, w - 1);
      assert And(a, y) == 1;
    } else {
      assert y / 2 == Pow2(w - 1) - a / 2 && y % 2 == 0;
      LowestDigit(a / 2, w - 1);
      assert And(a, y) == 2 * And(a / 2, y / 2);
    }
  }

  // ----- what `align` computes -----

  predicate IsLeastMultiple(r: nat, value: nat, alignment: nat)
    requires alignment > 0
  {
    && r % alignment == 0 && value <= r
    && r < value + alignment
  }

  /** Between `value` and `value + alignment` there is one multiple, and it is the least. */
  lemma LeastMultipleIsLeast(r: nat, value: nat, alignment: nat, other: nat)
    requires alignment > 0 && IsLeastMultiple(r, value, alignment)
    requires other % alignment == 0 && other >= value
    ensures r <= other
  {
    var p, q := other / alignment, r / alignment;
    assert other == alignment * p && r == alignment * q;
    if p < q { MultiplesApart(alignment, p, q); } else if q < p { MultiplesApart(alignment, q, p); }
  }

  lemma RoundUp(value: nat, alignment: nat, s: nat)
    requires alignment > 0 && s == value + alignment - 1
    ensures s - s % alignment >= 0 && IsLeastMultiple(s - s % alignment, value, alignment)
  {
    QuotientUnique(s - s % alignment, alignment, s / alignment, 0);
  }

  lemma MaskWord(x: nat, alignment: nat, k: nat)
    requires alignment == Pow2(k) && alignment < SIZE_RANGE && x < SIZE_RANGE
    ensures And(x, SIZE_RANGE - alignment) == x - x % alignment
  {
    hide Pow2, And;
    Pow2Values();
    ExponentBound(k, 64);
    MaskClears(x, k, 64);
  }

  /** The sum that `align` masks. */
  function Padded(value: Size, alignment: Size): Size {
    Add(value, LessOne(alignment))
  }

  lemma AlignMask(value: Size, alignment: Size)
    requires IsPowerOfTwo(alignment)
    ensures alignment > 0
    ensures Align(value, alignment) == Padded(value, alignment) - Padded(value, alignment) % alignment
  {
    var k := PowerOfTwo(alignment);
    MaskWord(Padded(value, alignment), alignment, k);
    hide Pow2, And, IsPowerOfTwo;
    assert Complement(LessOne(alignment)) == SIZE_RANGE - alignment;
  }

  lemma PaddedSum(value: Size, alignment: Size)
    requires alignment > 0 && value + alignment - 1 < SIZE_RANGE
    ensures Padded(value, alignment) == value + alignment - 1
  {
  }

  lemma AlignRoundsUp(value: Size, alignment: Size)
    requires IsPowerOfTwo(alignment) && value + alignment - 1 < SIZE_RANGE
    ensures alignment > 0 && IsLeastMultiple(Align(value, alignment), value, alignment)
  {
    hide *;
    AlignMask(value, alignment);
    PaddedSum(value, alignment);
    RoundUp(value, alignment, Padded(value, alignment));
  }

  lemma AlignWrapsToZero(value: Size, alignment: Size)
    requires IsPowerOfTwo(alignment) && value + alignment - 1 >= SIZE_RANGE
    ensures Align(value, alignment) == 0 < value
  {
    AlignMask(value, alignment);
    hide Align, IsPowerOfTwo;
    QuotientUnique(Padded(value, alignment), alignment, 0, Padded(value, alignment));
  }

  /** For a power of two the mask rounds up, exactly when the sum inside does not wrap around. */
  lemma AlignRoundsUpIff(value: Size, alignment: Size)
    requires IsPowerOfTwo(alignment)
    ensures alignment > 0
    ensures IsLeastMultiple(Align(value, alignment), value, alignment) <==> value + alignment - 1 < SIZE_RANGE
    ensures value + alignment - 1 >= SIZE_RANGE ==> Align(value, alignment) == 0 < value
  {
    hide Align;
    if value + alignment - 1 < SIZE_RANGE {
      AlignRoundsUp(value, alignment);
    } else {
      AlignWrapsToZero(value, alignment);
    }
  }

  lemma LeastForOne(r: nat, alignment: nat)
    requires alignment > 0
    ensures IsLeastMultiple(r, 1, alignment) <==> r == alignment
  {
    if IsLeastMultiple(r, 1, alignment) {
      AtLeastOne(r, alignment);
    }
  }

  lemma AlignOne(alignment: Size)
    requires alignment > 0
    ensures Align(1, alignment) == And(alignment, SIZE_RANGE - alignment)
  {
    hide And;
    assert Padded(1, alignment) == alignment && Complement(LessOne(alignment)) == SIZE_RANGE - alignment;
  }

  /** Other alignments, 0 included, are not served: already rounding 1 up goes wrong. */
  lemma OnlyPowersOfTwoAlign(alignment: Size)
    ensures alignment > 0 ==> (IsLeastMultiple(Align(1, alignment), 1, alignment) <==> IsPowerOfTwo(alignment))
    ensures alignment == 0 ==> Align(1, alignment) == 0
  {
    if alignment > 0 {
      hide *;
      Pow2Values();
      LowestDigit(alignment, 64);
      AlignOne(alignment);
      LeastForOne(Align(1, alignment), alignment);
    }
  }

  lemma AtLeastOne(r: nat, alignment: nat)
    requires alignment > 0 && r % alignment == 0 && r >= 1
    ensures r >= alignment
  {
    if r < alignment { QuotientUnique(r, alignment, 0, r); }
  }

  // ----- allocation -----

  datatype Outcome = Placed(start: Size) | BadAlloc

  function Place(capacity: Size, offset: Size, size: Size, alignment: Size): Outcome {
    var current := Align(offset, alignment);
    if Add(current, size) > capacity then BadAlloc else Placed(current)
  }

  /** Neither the rounding nor the end of the region leaves the range of `std::size_t`. */
  predicate NoWrap(offset: Size, size: Size, alignment: Size) {
    offset + alignment - 1 < SIZE_RANGE && Align(offset, alignment) + size < SIZE_RANGE
  }

  /** A region that was handed out lies behind the old offset and inside the buffer iff nothing wrapped around. */
  lemma PlacedSoundIff(capacity: Size, offset: Size, size: Size, alignment: Size)
    requires IsPowerOfTwo(alignment) && offset <= capacity && Place(capacity, offset, size, alignment).Placed?
    ensures var start := Place(capacity, offset, size, alignment).start;
            offset <= start && start + size <= capacity <==> NoWrap(offset, size, alignment)
  {
    hide Align, IsPowerOfTwo;
    if offset + alignment - 1 < SIZE_RANGE {
      AlignRoundsUp(offset, alignment);
    } else {
      AlignWrapsToZero(offset, alignment);
    }
  }

  /** Without wrap-around a request gets the first place that fits, and fails only if there is none. */
  lemma FirstPlaceThatFits(capacity: Size, offset: Size, size: Size, alignment: Size, other: nat)
    requires IsPowerOfTwo(alignment) && NoWrap(offset, size, alignment)
    requires alignment > 0 && other % alignment == 0 && other >= offset && other + size <= capacity
    ensures Place(capacity, offset, size, alignment).Placed?
    ensures Place(capacity, offset, size, alignment).start <= other
  {
    hide Align, IsPowerOfTwo;
    AlignRoundsUp(offset, alignment);
    LeastMultipleIsLeast(Align(offset, alignment), offset, alignment, other);
  }

  /** A huge size wraps the end of the region around: the request succeeds and the offset goes back. */
  lemma HugeSizeGoesBackwards()
    ensures Place(100, 50, SIZE_RANGE - 10, 1) == Placed(50)
    ensures Add(50, SIZE_RANGE - 10) == 40
  {
    AlignMask(50, 1);
    hide Align;
    assert Align(50, 1) == 50;
  }

  // ----- runs between resets -----

  datatype Region = Region(start: Size, size: Size, alignment: Size)

  /** `regions` lists what was handed out since the last reset. */
  datatype Arena = Arena(capacity: Size, offset: Size, regions: seq<Region>)

  datatype Request = Allocate(size: Size, alignment: Size) | Reset

  function Serve(a: Arena, r: Request): Arena {
    match r
    case Reset => a.(offset := 0, regions := [])
    case Allocate(size, alignment) =>
      var p := Place(a.capacity, a.offset, size, alignment);
      if p.BadAlloc? then a
      else a.(offset := Add(p.start, size), regions := a.regions + [Region(p.start, size, alignment)])
  }

  predicate Reasonable(a: Arena, r: Request) {
    r.Allocate? ==> IsPowerOfTwo(r.alignment) && NoWrap(a.offset, r.size, r.alignment)
  }

  predicate WellPlaced(r: Region, offset: Size) {
    r.alignment > 0 && r.start % r.alignment == 0 && r.start + r.size <= offset
  }

  /** Where the last region ends; everything behind it is free. */
  function LastEnd(regions: seq<Region>): nat {
    if regions == [] then 0 else regions[|regions| - 1].start + regions[|regions| - 1].size
  }

  /** Regions are aligned, in bounds, in increasing order and pairwise disjoint; the offset is the end of the last. */
  predicate Laid(a: Arena) {
    && a.offset <= a.capacity && a.offset == LastEnd(a.regions)
    && (forall i :: 0 <= i < |a.regions| ==> WellPlaced(a.regions[i], a.offset))
    && (forall i, j :: 0 <= i < j < |a.regions| ==> a.regions[i].start + a.regions[i].size <= a.regions[j].start)
  }

  lemma ServeKeepsLayout(a: Arena, r: Request)
    requires Laid(a) && Reasonable(a, r)
    ensures Laid(Serve(a, r))
  {
    hide Align, IsPowerOfTwo, Place, WellPlaced, IsLeastMultiple;
    if r.Allocate? {
      PlaceGoesOn(a.capacity, a.offset, r.size, r.alignment);
      var b := Serve(a, r);
      forall i | 0 <= i < |a.regions| ensures a.regions[i].start + a.regions[i].size <= a.offset {
        StaysPlaced(a.regions[i], a.offset, a.offset);
      }
      forall i | 0 <= i < |a.regions| ensures WellPlaced(a.regions[i], b.offset) {
        StaysPlaced(a.regions[i], a.offset, b.offset);
      }
    }
  }

  lemma StaysPlaced(r: Region, offset: Size, later: Size)
    requires WellPlaced(r, offset) && offset <= later
    ensures WellPlaced(r, later) && r.start + r.size <= offset
  {
  }

  lemma PlaceGoesOn(capacity: Size, offset: Size, size: Size, alignment: Size)
    requires IsPowerOfTwo(alignment) && NoWrap(offset, size, alignment) && offset <= capacity
    ensures var p := Place(capacity, offset, size, alignment);
            p.Placed? ==>
              && offset <= p.start && p.start + size <= capacity && Add(p.start, size) == p.start + size
              && WellPlaced(Region(p.start, size, alignment), Add(p.start, size))
  {
    hide Align, IsPowerOfTwo;
    AlignRoundsUp(offset, alignment);
  }

  predicate Runs(a: Arena, requests: seq<Request>)
    decreases |requests|
  {
    requests == [] || (Reasonable(a, requests[0]) && Runs(Serve(a, requests[0]), requests[1..]))
  }

  function After(a: Arena, requests: seq<Request>): Arena
    decreases |requests|
  {
    if requests == [] then a else After(Serve(a, requests[0]), requests[1..])
  }

  /** Whatever is asked of a new arena, what it hands out between resets never overlaps. */
  lemma {:induction false} RunKeepsLayout(a: Arena, requests: seq<Request>)
    requires Laid(a) && Runs(a, requests)
    ensures Laid(After(a, requests)) && After(a, requests).capacity == a.capacity
    decreases |requests|
  {
    hide Laid, Reasonable;
    if requests != [] {
      ServeKeepsLayout(a, requests[0]);
      RunKeepsLayout(Serve(a, requests[0]), requests[1..]);
    }
  }

  /**
   Over whole runs a request fails only when no aligned place behind the last region is large
   enough, and otherwise gets the first such place.
   */
  lemma FailsOnlyWhenFull(a: Arena, requests: seq<Request>, size: Size, alignment: Size)
    requires Laid(a) && Runs(a, requests) && Reasonable(After(a, requests), Request.Allocate(size, alignment))
    ensures alignment > 0
    ensures var b := After(a, requests);
            var p := Place(b.capacity, b.offset, size, alignment);
            && (p.BadAlloc? <==>
                  forall other: nat :: other % alignment == 0 && other >= LastEnd(b.regions) ==>
                    other + size > a.capacity)
            && (p.Placed? ==>
                  && p.start % alignment == 0 && LastEnd(b.regions) <= p.start && p.start + size <= a.capacity
                  && forall other: nat :: other % alignment == 0 && other >= LastEnd(b.regions) ==> p.start <= other)
  {
    RunKeepsLayout(a, requests);
    var b := After(a, requests);
    hide After, Runs;
    AlignRoundsUp(b.offset, alignment);
    PlaceGoesOn(b.capacity, b.offset, size, alignment);
    hide Align, IsPowerOfTwo;
    forall other: nat | other % alignment == 0 && other >= b.offset ensures Align(b.offset, alignment) <= other {
      LeastMultipleIsLeast(Align(b.offset, alignment), b.offset, alignment, other);
    }
  }

  // ----- addresses -----

  /** Addresses are what the offsets become when the buffer lies at `base`. */
  predicate AddressAligned(base: nat, r: Region)
    requires r.alignment > 0
  {
    (base + r.start) % r.alignment == 0
  }

  lemma {:induction false} PowersDivide(k: nat, m: nat)
    requires k <= m
    ensures Pow2(m) % Pow2(k) == 0
  {
    Pow2Sum(k, m - k);
    QuotientUnique(Pow2(m), Pow2(k), Pow2(m - k), 0);
  }

  lemma SumOfMultiples(a: nat, x: nat, y: nat)
    requires a > 0 && x % a == 0
    ensures (x + y) % a == y % a
  {
    var p, q, r := x / a, y / a, y % a;
    assert x == a * p && y == a * q + r;
    Distribute(a, p, q);
    QuotientUnique(x + y, a, p + q, r);
  }

  lemma Distribute(a: nat, p: nat, q: nat)
    ensures a * p + a * q == a * (p + q)
  {
  }

  lemma MultipleOfMultiple(a: nat, m: nat, x: nat)
    requires a > 0 && m > 0 && m % a == 0 && x % m == 0
    ensures x % a == 0
  {
    var p, q := m / a, x / m;
    assert m == a * p && x == m * q;
    Associate(a, p, q);
    QuotientUnique(x, a, p * q, 0);
  }

  lemma Associate(a: nat, p: nat, q: nat)
    ensures (a * p) * q == a * (p * q)
  {
  }

  /**
   The buffer is only as aligned as `alignof(std::max_align_t)`, a power of two: a region with an
   aligned offset has an aligned address, wherever such a buffer lies, if and only if the alignment
   asked for is at most that.
   */
  lemma AddressAlignedIff(r: Region, maxAlign: nat)
    requires IsPowerOfTwo(maxAlign) && IsPowerOfTwo(r.alignment) && r.start % r.alignment == 0
    ensures maxAlign > 0 && r.alignment > 0
    ensures (forall base: nat :: base % maxAlign == 0 ==> AddressAligned(base, r)) <==> r.alignment <= maxAlign
  {
    var m := PowerOfTwo(maxAlign);
    var k := PowerOfTwo(r.alignment);
    hide Pow2, IsPowerOfTwo;
    if r.alignment <= maxAlign {
      if k > m { Pow2Strict(m, k); }
      PowersDivide(k, m);
      forall base: nat | base % maxAlign == 0 ensures AddressAligned(base, r) {
        MultipleOfMultiple(r.alignment, maxAlign, base);
        SumOfMultiples(r.alignment, base, r.start);
      }
    } else {
      QuotientUnique(maxAlign, maxAlign, 1, 0);
      QuotientUnique(maxAlign, r.alignment, 0, maxAlign);
      SumOfMultiples(r.alignment, r.start, maxAlign);
      assert !AddressAligned(maxAlign, r);
    }
  }

  lemma {:induction false} Pow2Strict(m: nat, k: nat)
    requires m < k
    ensures Pow2(m) < Pow2(k)
  {
    Pow2Monotone(m, k - 1);
  }

  /**
   With requests for no more than that alignment, every region handed out since the last reset
   has an aligned address.
   */
  lemma AddressesAligned(a: Arena, requests: seq<Request>, base: nat, maxAlign: nat, i: nat)
    requires Laid(a) && Runs(a, requests) && IsPowerOfTwo(maxAlign) && base % maxAlign == 0
    requires i < |After(a, requests).regions|
    requires IsPowerOfTwo(After(a, requests).regions[i].alignment)
    requires After(a, requests).regions[i].alignment <= maxAlign
    ensures AddressAligned(base, After(a, requests).regions[i])
  {
    hide After, Runs, AddressAligned;
    RunKeepsLayout(a, requests);
    var r := After(a, requests).regions[i];
    assert WellPlaced(r, After(a, requests).offset);
    AddressAlignedIff(r, maxAlign);
  }

  // ----- the arena as an object -----

  class ArenaAllocator {
    const capacity: Size
    var offset: Size
    ghost var regions: seq<Region>

    ghost function State(): Arena
      reads this
    {
      Arena(capacity, offset, regions)
    }

    constructor (capacity: Size)
      requires capacity > 0
      ensures this.capacity == capacity && State() == Arena(capacity, 0, [])
    {
      this.capacity, offset, regions := capacity, 0, [];
    }

    /** The guarded construction: an empty arena is refused. */
    static method Create(capacity: Size) returns (arena: Option<ArenaAllocator>)
      ensures arena.None? <==> capacity == 0
      ensures arena.Some? ==> fresh(arena.value) && arena.value.State() == Arena(capacity, 0, [])
    {
      if capacity == 0 {
        return None;
      }
      var a := new ArenaAllocator(capacity);
      arena := Some(a);
    }

    /** The address is given relative to the buffer; a failed request changes nothing. */
    method Allocate(size: Size, alignment: Size) returns (outcome: Outcome)
      modifies this
      ensures outcome == Place(capacity, old(offset), size, alignment)
      ensures State() == Serve(old(State()), Request.Allocate(size, alignment))
      ensures outcome.BadAlloc? ==> State() == old(State())
      ensures outcome.BadAlloc? <==> (Align(old(offset), alignment) + size) % SIZE_RANGE > capacity
      ensures outcome.Placed? ==>
                && outcome.start == Align(old(offset), alignment)
                && offset == (outcome.start + size) % SIZE_RANGE
                && regions == old(regions) + [Region(outcome.start, size, alignment)]
      ensures old(Laid(State())) && IsPowerOfTwo(alignment) && NoWrap(old(offset), size, alignment) ==> Laid(State())
    {
      hide Align, Laid, IsPowerOfTwo, NoWrap;
      if IsPowerOfTwo(alignment) && NoWrap(offset, size, alignment) && Laid(State()) {
        ServeKeepsLayout(State(), Request.Allocate(size, alignment));
      }
      var current := Align(offset, alignment);
      if Add(current, size) > capacity {
        return BadAlloc;
      }
      offset := Add(current, size);
      regions := regions + [Region(current, size, alignment)];
      outcome := Placed(current);
    }

    method Reset()
      modifies this
      ensures State() == Serve(old(State()), Request.Reset)
      ensures offset == 0 && regions == [] && Laid(State())
    {
      offset := 0;
      regions := [];
    }
  }
}
