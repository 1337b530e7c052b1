/**
 The receiving half of a reliable channel: the newest sequence seen and a 32-bit mask of the
 32 sequences behind it.  The word-level functions follow the code branch by branch; the
 reference receiver works on unbounded sequence numbers and remembers every late arrival.
 */
module ReceiveWindow {
  import opened Bits
  import opened Serial

  const WINDOW: nat := 32

  datatype Window = Window(hasReceived: bool, last: Word, mask: Word)

  const EmptyWindow := Window(false, 0, 0)

  /** The branch an arrival takes; the code reports `Duplicate` as true, the others as false. */
  datatype Verdict = Newest | Late | Duplicate

  lemma WordWidth()
    ensures Pow2(32) == RANGE
  {
    hide Pow2;
    Pow2Values();
  }

  /** `1u << (diff - 1)` */
  function Flag(diff: int): (bit: Word)
    requires 1 <= diff <= 32
    ensures bit == Pow2(diff - 1)
  {
    WordWidth();
    Pow2Monotone(diff - 1, 31);
    assert Pow2(31) < Pow2(32);
    ShiftLeft(1, diff - 1, 32)
  }

  function Classify(w: Window, s: Word): Verdict {
    if !w.hasReceived then Newest
    else if SequenceGreater(s, w.last) then Newest
    else
      var diff := Minus(w.last, s);
      if diff == 0 then Duplicate
      else if diff > 32 then Duplicate
      else if And(w.mask, Flag(diff)) != 0 then Duplicate
      else Late
  }

  function Advance(w: Window, s: Word): Window {
    WordWidth();
    match Classify(w, s)
    case Duplicate => w
    case Newest =>
      if !w.hasReceived then Window(true, s, 0)
      else
        var diff := Minus(s, w.last);
        Window(true, s, if diff >= 32 then 0 else ShiftLeft(w.mask, diff, 32))
    case Late =>
      var bit := Flag(Minus(w.last, s));
      OrBound(w.mask, bit, 32);
      w.(mask := Or(w.mask, bit))
  }

  /** The sender's reading of an acknowledgement: is `s` covered by (`ack`, `mask`)? */
  predicate IsSequenceAcked(s: Word, ack: Word, mask: Word) {
    if s == ack then true
    else if !SequenceLessEqual(s, ack) then false
    else
      var diff := Minus(ack, s);
      if diff == 0 then true
      else if diff > 32 then false
      else And(mask, Flag(diff)) != 0
  }

  /** What the current window would acknowledge. */
  predicate Covers(w: Window, s: Word) {
    IsSequenceAcked(s, w.last, w.mask)
  }

  // ---------------------------------------------------------------- window edges

  /** Sender and receiver agree on the window: distances 1 to 32 behind the newest, no others. */
  lemma AckedIff(s: Word, ack: Word, mask: Word)
    ensures IsSequenceAcked(s, ack, mask) <==>
            s == ack || (1 <= Minus(ack, s) <= 32 && Bit(mask, Minus(ack, s) - 1))
  {
    hide Bit, And, Pow2;
    var diff := Minus(ack, s);
    if 1 <= diff <= 32 { TestBit(mask, diff - 1); }
  }

  lemma CoversIff(w: Window, s: Word)
    ensures Covers(w, s) <==> s == w.last || (1 <= Minus(w.last, s) <= 32 && Bit(w.mask, Minus(w.last, s) - 1))
  {
    AckedIff(s, w.last, w.mask);
  }

  lemma LateIff(w: Window, s: Word)
    requires w.hasReceived
    ensures Classify(w, s) == Late <==>
            1 <= Minus(w.last, s) <= 32 && !Bit(w.mask, Minus(w.last, s) - 1)
  {
    hide Bit, And, Pow2;
    var diff := Minus(w.last, s);
    if 1 <= diff <= 32 { TestBit(w.mask, diff - 1); }
  }

  lemma LastAfter(w: Window, s: Word)
    ensures Classify(w, s) == Newest ==> Advance(w, s).last == s
    ensures Classify(w, s) == Newest && w.hasReceived ==> 1 <= Minus(s, w.last) < HALF
    ensures Classify(w, s) == Late ==> Advance(w, s).last == w.last
    ensures Classify(w, s) != Duplicate ==> Advance(w, s).hasReceived
  {
  }

  /** The mask digits after an arrival, digit by digit. */
  lemma MaskAfterNewest(w: Window, s: Word, i: nat)
    requires w.hasReceived && i < 32 && Classify(w, s) == Newest
    ensures Bit(Advance(w, s).mask, i) <==> i >= Minus(s, w.last) && Bit(w.mask, i - Minus(s, w.last))
  {
    var diff := Minus(s, w.last);
    assert Advance(w, s).mask == if diff >= 32 then 0 else ShiftLeft(w.mask, diff, 32);
    hide *;
    MinusZero(s, w.last);
    if diff >= 32 { BitOfZero(i); } else { BitShiftLeft(w.mask, diff, 32, i); }
  }

  lemma MaskAfterLate(w: Window, s: Word, i: nat)
    requires w.hasReceived && i < 32 && Classify(w, s) == Late
    ensures Bit(Advance(w, s).mask, i) <==> i == Minus(w.last, s) - 1 || Bit(w.mask, i)
  {
    var diff := Minus(w.last, s);
    assert 1 <= diff <= 32 && Advance(w, s).mask == Or(w.mask, Pow2(diff - 1));
    hide *;
    BitOr(w.mask, Pow2(diff - 1), i);
    BitPow2(diff - 1, i);
  }

  /** How the distances behind a new head `s` relate to those behind the old head. */
  lemma DistanceBehind(s: Word, last: Word, t: Word)
    requires 1 <= Minus(s, last) < HALF
    ensures Minus(s, t) <= 32 && Minus(s, t) > Minus(s, last) ==>
              Minus(last, t) == Minus(s, t) - Minus(s, last)
    ensures Minus(s, t) == Minus(s, last) <==> t == last
    ensures Minus(s, t) < Minus(s, last) ==> Minus(last, t) > 32
    ensures Minus(last, t) <= 32 ==> Minus(s, t) == Minus(s, last) + Minus(last, t)
  {
  }

  lemma MinusZero(s: Word, t: Word)
    ensures 0 <= Minus(s, t) && (Minus(s, t) == 0 <==> s == t)
  {
  }

  lemma MinusCancel(last: Word, s: Word, t: Word)
    ensures Minus(last, s) == Minus(last, t) <==> s == t
  {
  }

  lemma CoverageAfterFirst(w: Window, s: Word, t: Word)
    requires !w.hasReceived
    ensures Covers(Advance(w, s), t) <==> t == s
  {
    AckedIff(t, s, 0);
    if 1 <= Minus(s, t) <= 32 { BitOfZero(Minus(s, t) - 1); }
  }

  /**
   Exactly what a window acknowledges once a newer head has arrived: the new head, and every
   word covered before that is still in reach except the old head, whose digit is never set.
   */
  lemma CoverageAfterNewest(w: Window, s: Word, t: Word)
    requires w.hasReceived && Classify(w, s) == Newest
    ensures Covers(Advance(w, s), t) <==> t == s || (t != w.last && Covers(w, t) && Minus(s, t) <= 32)
  {
    hide *;
    CoversIff(w, t);
    CoversIff(Advance(w, s), t);
    LastAfter(w, s);
    MinusZero(s, t);
    DistanceBehind(s, w.last, t);
    if 1 <= Minus(s, t) <= 32 { MaskAfterNewest(w, s, Minus(s, t) - 1); }
  }

  lemma CoverageAfterLate(w: Window, s: Word, t: Word)
    requires w.hasReceived && Classify(w, s) == Late
    ensures Covers(Advance(w, s), t) <==> t == s || Covers(w, t)
  {
    hide *;
    CoversIff(w, t);
    CoversIff(Advance(w, s), t);
    LastAfter(w, s);
    LateIff(w, s);
    MinusCancel(w.last, s, t);
    if 1 <= Minus(w.last, t) <= 32 { MaskAfterLate(w, s, Minus(w.last, t) - 1); }
  }

  /** No arrival makes a window acknowledge anything but that arrival and what it did before. */
  lemma CoverageGrowsByArrival(w: Window, s: Word, t: Word)
    requires Covers(Advance(w, s), t)
    ensures (t == s && Classify(w, s) != Duplicate) || (w.hasReceived && Covers(w, t))
  {
    if !w.hasReceived {
      CoverageAfterFirst(w, s, t);
    } else {
      match Classify(w, s)
      case Duplicate =>
      case Newest => CoverageAfterNewest(w, s, t);
      case Late => CoverageAfterLate(w, s, t);
    }
  }

  /** Whatever is accepted is covered by the very next acknowledgement. */
  lemma AcceptIsAcknowledged(w: Window, s: Word)
    requires Classify(w, s) != Duplicate
    ensures Covers(Advance(w, s), s)
  {
    if Classify(w, s) == Late { CoverageAfterLate(w, s, s); }
  }

  // ---------------------------------------------------------------- the reference receiver

  datatype Reference = Reference(received: bool, last: int, late: set<int>)

  const EmptyReference := Reference(false, 0, {})

  function RefClassify(r: Reference, n: int): Verdict {
    if !r.received || n > r.last then Newest
    else if n == r.last || r.last - n > WINDOW || n in r.late then Duplicate
    else Late
  }

  function RefAdvance(r: Reference, n: int): Reference {
    match RefClassify(r, n)
    case Duplicate => r
    case Newest => Reference(true, n, r.late)
    case Late => r.(late := r.late + {n})
  }

  predicate RefAcked(r: Reference, n: int) {
    n == r.last || (1 <= r.last - n <= WINDOW && n in r.late)
  }

  /** Mask digit `i` stands for the sequence `i + 1` behind the head. */
  ghost predicate Represents(w: Window, r: Reference) {
    && w.hasReceived == r.received
    && (!w.hasReceived ==> w == EmptyWindow && r == EmptyReference)
    && (w.hasReceived ==>
          && w.last == Wrap(r.last)
          && (forall n :: n in r.late ==> n < r.last)
          && forall i :: 0 <= i < 32 ==> (Bit(w.mask, i) <==> r.last - 1 - i in r.late))
  }

  /** The arrival `n` is within half the word range of the head it is compared with. */
  predicate InReach(r: Reference, n: int) {
    r.received ==> -HALF <= n - r.last < HALF
  }

  lemma NewestIff(w: Window, s: Word)
    ensures Classify(w, s) == Newest <==> !w.hasReceived || SequenceGreater(s, w.last)
  {
  }

  lemma ClassifyRefines(w: Window, r: Reference, n: int)
    requires Represents(w, r) && InReach(r, n)
    ensures Classify(w, Wrap(n)) == RefClassify(r, n)
  {
    NewestIff(w, Wrap(n));
    if w.hasReceived {
      SerialOrderIff(n, r.last);
      DistanceInReach(n, r.last);
      LateIff(w, Wrap(n));
      hide Classify, SequenceGreater, Minus, Wrap, Bit;
      if 1 <= r.last - n <= 32 { RepresentsDigit(w, r, r.last - n - 1); }
    }
  }

  lemma FirstRefines(n: int)
    ensures Represents(Advance(EmptyWindow, Wrap(n)), RefAdvance(EmptyReference, n))
  {
    forall i | 0 <= i < 32 ensures !Bit(0, i) { BitOfZero(i); }
  }

  lemma NewestRefines(w: Window, r: Reference, n: int)
    requires Represents(w, r) && w.hasReceived && 0 < n - r.last < HALF
    requires Classify(w, Wrap(n)) == Newest
    ensures Represents(Advance(w, Wrap(n)), Reference(true, n, r.late))
  {
    hide Advance, Classify, Minus, Wrap, Bit;
    LastAfter(w, Wrap(n));
    forall i | 0 <= i < 32 ensures Bit(Advance(w, Wrap(n)).mask, i) <==> n - 1 - i in r.late {
      NewestDigit(w, r, n, i);
    }
  }

  lemma NewestDigit(w: Window, r: Reference, n: int, i: nat)
    requires Represents(w, r) && w.hasReceived && 0 < n - r.last < HALF
    requires Classify(w, Wrap(n)) == Newest && i < 32
    ensures Bit(Advance(w, Wrap(n)).mask, i) <==> n - 1 - i in r.late
  {
    hide Advance, Classify, Minus, Wrap, Bit;
    TrueDistance(n, r.last);
    MaskAfterNewest(w, Wrap(n), i);
    var d := n - r.last;
    if i >= d { RepresentsDigit(w, r, i - d); }
  }

  lemma LateRefines(w: Window, r: Reference, n: int)
    requires Represents(w, r) && w.hasReceived && 1 <= r.last - n <= 32
    requires Classify(w, Wrap(n)) == Late
    ensures Represents(Advance(w, Wrap(n)), r.(late := r.late + {n}))
  {
    hide Advance, Classify, Minus, Wrap, Bit;
    LastAfter(w, Wrap(n));
    forall i | 0 <= i < 32 ensures Bit(Advance(w, Wrap(n)).mask, i) <==> r.last - 1 - i in r.late + {n} {
      LateDigit(w, r, n, i);
    }
  }

  lemma LateDigit(w: Window, r: Reference, n: int, i: nat)
    requires Represents(w, r) && w.hasReceived && 1 <= r.last - n <= 32
    requires Classify(w, Wrap(n)) == Late && i < 32
    ensures Bit(Advance(w, Wrap(n)).mask, i) <==> r.last - 1 - i in r.late + {n}
  {
    hide Advance, Classify, Minus, Wrap, Bit;
    TrueDistance(r.last, n);
    MaskAfterLate(w, Wrap(n), i);
    RepresentsDigit(w, r, i);
  }

  /** One arrival in reach: same verdict, and the word window still represents the reference. */
  lemma ArrivalRefines(w: Window, r: Reference, n: int)
    requires Represents(w, r) && InReach(r, n)
    ensures Classify(w, Wrap(n)) == RefClassify(r, n)
    ensures Represents(Advance(w, Wrap(n)), RefAdvance(r, n))
  {
    ClassifyRefines(w, r, n);
    if !w.hasReceived {
      FirstRefines(n);
    } else {
      match RefClassify(r, n)
      case Duplicate =>
      case Newest => NewestRefines(w, r, n);
      case Late => LateRefines(w, r, n);
    }
  }

  /** The 32-bit acknowledgement test decides like the reference for every sequence in reach. */
  lemma AckRefines(w: Window, r: Reference, n: int)
    requires Represents(w, r) && w.hasReceived && InReach(r, n)
    ensures Covers(w, Wrap(n)) <==> RefAcked(r, n)
  {
    AckedIff(Wrap(n), w.last, w.mask);
    WrapInjective(n, r.last);
    DistanceInReach(n, r.last);
    if 1 <= r.last - n <= 32 {
      assert Bit(w.mask, r.last - n - 1) <==> r.last - 1 - (r.last - n - 1) in r.late;
    }
  }

  lemma DistanceInReach(n: int, last: int)
    requires -HALF <= n - last < HALF
    ensures 1 <= Minus(Wrap(last), Wrap(n)) <= 32 <==> 1 <= last - n <= 32
    ensures 1 <= last - n <= 32 ==> Minus(Wrap(last), Wrap(n)) == last - n
  {
    MinusWrap(last, n);
  }

  // ---------------------------------------------------------------- runs of arrivals

  function RefRun(arrivals: seq<int>): Reference {
    if arrivals == [] then EmptyReference
    else RefAdvance(RefRun(arrivals[..|arrivals| - 1]), arrivals[|arrivals| - 1])
  }

  function WindowAfter(arrivals: seq<Word>): Window {
    if arrivals == [] then EmptyWindow
    else Advance(WindowAfter(arrivals[..|arrivals| - 1]), arrivals[|arrivals| - 1])
  }

  /** The verdict on the `i`-th arrival of a run that starts with an empty window. */
  function VerdictAt(arrivals: seq<Word>, i: nat): Verdict
    requires i < |arrivals|
  {
    Classify(WindowAfter(arrivals[..i]), arrivals[i])
  }

  function RefVerdictAt(arrivals: seq<int>, i: nat): Verdict
    requires i < |arrivals|
  {
    RefClassify(RefRun(arrivals[..i]), arrivals[i])
  }

  function WrapAll(arrivals: seq<int>): (words: seq<Word>)
    ensures |words| == |arrivals|
    ensures forall i :: 0 <= i < |words| ==> words[i] == Wrap(arrivals[i])
  {
    seq(|arrivals|, i requires 0 <= i < |arrivals| => Wrap(arrivals[i]))
  }

  /** Every arrival is less than half the word range away from the head it is compared with. */
  ghost predicate AllInReach(arrivals: seq<int>) {
    forall i :: 0 <= i < |arrivals| ==> InReach(RefRun(arrivals[..i]), arrivals[i])
  }

  lemma RunStep(arrivals: seq<int>, i: nat)
    requires i < |arrivals|
    ensures RefRun(arrivals[..i + 1]) == RefAdvance(RefRun(arrivals[..i]), arrivals[i])
  {
    assert arrivals[..i + 1][..i] == arrivals[..i];
  }

  lemma WordRunStep(arrivals: seq<Word>, i: nat)
    requires i < |arrivals|
    ensures WindowAfter(arrivals[..i + 1]) == Advance(WindowAfter(arrivals[..i]), arrivals[i])
  {
    assert arrivals[..i + 1][..i] == arrivals[..i];
  }

  lemma {:induction false} RunRepresents(arrivals: seq<int>, i: nat)
    requires AllInReach(arrivals) && i <= |arrivals|
    ensures Represents(WindowAfter(WrapAll(arrivals)[..i]), RefRun(arrivals[..i]))
  {
    hide Advance, RefAdvance, Wrap, Classify, RefClassify;
    if i > 0 {
      RunRepresents(arrivals, i - 1);
      RunStep(arrivals, i - 1);
      WordRunStep(WrapAll(arrivals), i - 1);
      ArrivalRefines(WindowAfter(WrapAll(arrivals)[..i - 1]), RefRun(arrivals[..i - 1]), arrivals[i - 1]);
    }
  }

  /**
   Wraparound refinement: over a run of any length the 32-bit receiver gives every arrival the
   verdict that unbounded sequence numbers would give it.
   */
  lemma WrapAroundRefinement(arrivals: seq<int>, i: nat)
    requires AllInReach(arrivals) && i < |arrivals|
    ensures VerdictAt(WrapAll(arrivals), i) == RefVerdictAt(arrivals, i)
  {
    RunRepresents(arrivals, i);
    ArrivalRefines(WindowAfter(WrapAll(arrivals)[..i]), RefRun(arrivals[..i]), arrivals[i]);
  }

  /** An accepted number is remembered for good: as a late arrival, or at or below the head. */
  lemma {:induction false} AcceptedIsRemembered(arrivals: seq<int>, i: nat, j: nat)
    requires i < j <= |arrivals|
    ensures RefRun(arrivals[..j]).received
    ensures RefVerdictAt(arrivals, i) != Duplicate ==> arrivals[i] <= RefRun(arrivals[..j]).last
    ensures RefVerdictAt(arrivals, i) == Late ==> arrivals[i] in RefRun(arrivals[..j]).late
  {
    RunStep(arrivals, j - 1);
    if i + 1 < j { AcceptedIsRemembered(arrivals, i, j - 1); }
  }

  lemma {:induction false} LateSetExact(arrivals: seq<int>, n: int)
    ensures n in RefRun(arrivals).late <==>
            exists k :: 0 <= k < |arrivals| && arrivals[k] == n && RefVerdictAt(arrivals, k) == Late
  {
    if arrivals != [] {
      var m := |arrivals| - 1;
      var shorter := arrivals[..m];
      LateSetExact(shorter, n);
      forall k | 0 <= k < m ensures RefVerdictAt(arrivals, k) == RefVerdictAt(shorter, k) {
        assert arrivals[..k] == shorter[..k];
      }
      if n in RefRun(arrivals).late {
        if n !in RefRun(shorter).late { assert RefVerdictAt(arrivals, m) == Late; }
      }
    }
  }

  /**
   At most twice: when a number is accepted at two arrivals of a run, the first time it was the
   newest and the second time it came in late.  A third acceptance is therefore impossible, and
   a number that was never newest is accepted at most once.
   */
  lemma AcceptedTwiceShape(arrivals: seq<int>, i: nat, j: nat)
    requires AllInReach(arrivals) && i < j < |arrivals| && arrivals[i] == arrivals[j]
    requires VerdictAt(WrapAll(arrivals), i) != Duplicate && VerdictAt(WrapAll(arrivals), j) != Duplicate
    ensures VerdictAt(WrapAll(arrivals), i) == Newest && VerdictAt(WrapAll(arrivals), j) == Late
  {
    WrapAroundRefinement(arrivals, i);
    WrapAroundRefinement(arrivals, j);
    AcceptedIsRemembered(arrivals, i, j);
  }

  lemma NeverAcceptedThrice(arrivals: seq<int>, i: nat, j: nat, k: nat)
    requires AllInReach(arrivals) && i < j < k < |arrivals|
    requires arrivals[i] == arrivals[j] == arrivals[k]
    ensures VerdictAt(WrapAll(arrivals), i) == Duplicate || VerdictAt(WrapAll(arrivals), j) == Duplicate
         || VerdictAt(WrapAll(arrivals), k) == Duplicate
  {
    if VerdictAt(WrapAll(arrivals), i) != Duplicate && VerdictAt(WrapAll(arrivals), j) != Duplicate
       && VerdictAt(WrapAll(arrivals), k) != Duplicate {
      AcceptedTwiceShape(arrivals, i, j);
      AcceptedTwiceShape(arrivals, j, k);
      assert false;
    }
  }

  /** At-most-once is false: arrivals 1, 2, 1 deliver the first packet twice. */
  lemma OneTwoOneDeliversTwice()
    ensures VerdictAt([1, 2, 1], 0) == Newest
    ensures VerdictAt([1, 2, 1], 1) == Newest
    ensures VerdictAt([1, 2, 1], 2) == Late
  {
    var a: seq<int> := [1, 2, 1];
    assert a[..0] == [] && a[..1] == [1] && a[..2] == [1, 2] && a[..2][..1] == [1] && a[..1][..0] == [];
    assert RefRun(a[..1]) == Reference(true, 1, {});
    assert RefRun(a[..2]) == Reference(true, 2, {});
    assert AllInReach(a);
    assert WrapAll(a) == [1, 2, 1];
    WrapAroundRefinement(a, 0);
    WrapAroundRefinement(a, 1);
    WrapAroundRefinement(a, 2);
  }

  /** Digit `i` of the mask is set exactly when the number `i + 1` behind the head came in late. */
  lemma MaskExact(arrivals: seq<int>, i: nat)
    requires AllInReach(arrivals) && arrivals != [] && i < 32
    ensures Bit(WindowAfter(WrapAll(arrivals)).mask, i) <==>
            exists k :: 0 <= k < |arrivals| && arrivals[k] == RefRun(arrivals).last - 1 - i
                        && VerdictAt(WrapAll(arrivals), k) == Late
  {
    hide *;
    RunRepresents(arrivals, |arrivals|);
    assert arrivals[..|arrivals|] == arrivals && WrapAll(arrivals)[..|arrivals|] == WrapAll(arrivals);
    AcceptedIsRemembered(arrivals, 0, |arrivals|);
    RepresentsDigit(WindowAfter(WrapAll(arrivals)), RefRun(arrivals), i);
    LateSetExact(arrivals, RefRun(arrivals).last - 1 - i);
    forall k | 0 <= k < |arrivals| ensures VerdictAt(WrapAll(arrivals), k) == RefVerdictAt(arrivals, k) {
      WrapAroundRefinement(arrivals, k);
    }
  }

  lemma RepresentsDigit(w: Window, r: Reference, i: nat)
    requires Represents(w, r) && r.received && i < 32
    ensures Bit(w.mask, i) <==> r.last - 1 - i in r.late
  {
  }

  // ---------------------------------------------------------------- when is delivery at most once?

  function Max(s: seq<int>): (m: int)
    requires s != []
    ensures m in s && forall x :: x in s ==> x <= m
  {
    var front := s[..|s| - 1];
    assert s == front + [s[|s| - 1]];
    if front == [] || s[|s| - 1] > Max(front) then s[|s| - 1] else Max(front)
  }

  lemma {:induction false} HeadIsMax(arrivals: seq<int>)
    requires arrivals != []
    ensures RefRun(arrivals).received && RefRun(arrivals).last == Max(arrivals)
  {
    if |arrivals| > 1 { HeadIsMax(arrivals[..|arrivals| - 1]); }
  }

  /** The `i`-th arrival is newer than everything before it. */
  predicate IsRecord(arrivals: seq<int>, i: nat)
    requires i < |arrivals|
  {
    forall k :: 0 <= k < i ==> arrivals[k] < arrivals[i]
  }

  /** A former head comes back while it is still within the window behind the present head. */
  predicate HeadReplayed(arrivals: seq<int>, i: nat, j: nat)
    requires i < j < |arrivals|
  {
    arrivals[i] == arrivals[j] && IsRecord(arrivals, i) && 1 <= Max(arrivals[..j]) - arrivals[j] <= WINDOW
  }

  predicate AcceptedTwice(arrivals: seq<int>, i: nat, j: nat)
    requires i < j < |arrivals|
  {
    && arrivals[i] == arrivals[j]
    && VerdictAt(WrapAll(arrivals), i) != Duplicate
    && VerdictAt(WrapAll(arrivals), j) != Duplicate
  }

  lemma NewestIffRecord(arrivals: seq<int>, i: nat)
    requires i < |arrivals|
    ensures RefVerdictAt(arrivals, i) == Newest <==> IsRecord(arrivals, i)
  {
    if i > 0 {
      HeadIsMax(arrivals[..i]);
      assert forall k :: 0 <= k < i ==> arrivals[k] in arrivals[..i];
    }
  }

  /**
   A run delivers something twice if and only if some former head is replayed within the window:
   the condition speaks of the arrivals alone.
   */
  lemma DeliveredTwiceIff(arrivals: seq<int>)
    requires AllInReach(arrivals)
    ensures (exists i, j :: 0 <= i < j < |arrivals| && AcceptedTwice(arrivals, i, j)) <==>
            (exists i, j :: 0 <= i < j < |arrivals| && HeadReplayed(arrivals, i, j))
  {
    forall i, j | 0 <= i < j < |arrivals| && AcceptedTwice(arrivals, i, j)
      ensures HeadReplayed(arrivals, i, j)
    {
      AcceptedTwiceReplaysHead(arrivals, i, j);
    }
    forall i, j | 0 <= i < j < |arrivals| && HeadReplayed(arrivals, i, j)
      ensures exists k :: i < k <= j && AcceptedTwice(arrivals, i, k)
    {
      ReplayedHeadIsAccepted(arrivals, i, j);
    }
  }

  lemma AcceptedTwiceReplaysHead(arrivals: seq<int>, i: nat, j: nat)
    requires AllInReach(arrivals) && i < j < |arrivals| && AcceptedTwice(arrivals, i, j)
    ensures HeadReplayed(arrivals, i, j)
  {
    AcceptedTwiceShape(arrivals, i, j);
    WrapAroundRefinement(arrivals, i);
    WrapAroundRefinement(arrivals, j);
    NewestIffRecord(arrivals, i);
    HeadIsMax(arrivals[..j]);
    AcceptedIsRemembered(arrivals, i, j);
  }

  lemma ReplayedHeadIsAccepted(arrivals: seq<int>, i: nat, j: nat)
    requires AllInReach(arrivals) && i < j < |arrivals| && HeadReplayed(arrivals, i, j)
    ensures exists k :: i < k <= j && AcceptedTwice(arrivals, i, k)
  {
    var n := arrivals[j];
    assert IsRecord(arrivals, i) && n == arrivals[i] && 1 <= Max(arrivals[..j]) - n <= WINDOW;
    NewestIffRecord(arrivals, i);
    WrapAroundRefinement(arrivals, i);
    LateUnlessHeard(arrivals, j);
    if exists k :: 0 <= k < j && arrivals[k] == n && RefVerdictAt(arrivals, k) == Late {
      var k :| 0 <= k < j && arrivals[k] == n && RefVerdictAt(arrivals, k) == Late;
      LateIsNoRecord(arrivals, i, k);
      WrapAroundRefinement(arrivals, k);
      assert AcceptedTwice(arrivals, i, k);
    } else {
      WrapAroundRefinement(arrivals, j);
      assert AcceptedTwice(arrivals, i, j);
    }
  }

  /** A late acceptance of a former head comes after it was the head. */
  lemma LateIsNoRecord(arrivals: seq<int>, i: nat, k: nat)
    requires i < |arrivals| && k < |arrivals| && arrivals[i] == arrivals[k] && IsRecord(arrivals, i)
    requires RefVerdictAt(arrivals, k) == Late
    ensures i < k
  {
    NewestIffRecord(arrivals, i);
    if k > 0 {
      HeadIsMax(arrivals[..k]);
      var m :| 0 <= m < k && arrivals[..k][m] == Max(arrivals[..k]);
      assert arrivals[m] > arrivals[i];
    }
  }

  /** Behind the head and within the window, an arrival comes in late unless it already did. */
  lemma LateUnlessHeard(arrivals: seq<int>, j: nat)
    requires 0 < j < |arrivals| && 1 <= Max(arrivals[..j]) - arrivals[j] <= WINDOW
    ensures RefVerdictAt(arrivals, j) == Late <==>
            !exists k :: 0 <= k < j && arrivals[k] == arrivals[j] && RefVerdictAt(arrivals, k) == Late
  {
    HeadIsMax(arrivals[..j]);
    LateHeardBefore(arrivals, j, arrivals[j]);
  }

  lemma LateHeardBefore(arrivals: seq<int>, j: nat, n: int)
    requires j <= |arrivals|
    ensures n in RefRun(arrivals[..j]).late <==>
            exists k :: 0 <= k < j && arrivals[k] == n && RefVerdictAt(arrivals, k) == Late
  {
    var before := arrivals[..j];
    LateSetExact(before, n);
    forall k | 0 <= k < j ensures RefVerdictAt(before, k) == RefVerdictAt(arrivals, k) {
      assert before[..k] == arrivals[..k];
    }
    hide RefVerdictAt, RefRun;
    assert forall k :: 0 <= k < j ==> before[k] == arrivals[k];
  }

  lemma {:induction false} HeadWasAccepted(arrivals: seq<int>)
    requires arrivals != []
    ensures exists i :: 0 <= i < |arrivals| && arrivals[i] == RefRun(arrivals).last
                        && RefVerdictAt(arrivals, i) == Newest
  {
    var m := |arrivals| - 1;
    var shorter := arrivals[..m];
    assert arrivals[..m + 1] == arrivals;
    RunStep(arrivals, m);
    if RefVerdictAt(arrivals, m) != Newest {
      HeadWasAccepted(shorter);
      var i :| 0 <= i < m && shorter[i] == RefRun(shorter).last && RefVerdictAt(shorter, i) == Newest;
      assert arrivals[..i] == shorter[..i] && arrivals[i] == shorter[i];
    }
  }

  /**
   What the receiver drops unheard: an arrival whose number was never accepted is reported as a
   duplicate exactly when it is more than 32 behind the newest number so far.
   */
  lemma DroppedUnheardIff(arrivals: seq<int>, j: nat)
    requires AllInReach(arrivals) && j < |arrivals|
    requires forall i :: 0 <= i < j && arrivals[i] == arrivals[j] ==> VerdictAt(WrapAll(arrivals), i) == Duplicate
    ensures VerdictAt(WrapAll(arrivals), j) == Duplicate <==>
            j > 0 && Max(arrivals[..j]) - arrivals[j] > WINDOW
  {
    WrapAroundRefinement(arrivals, j);
    if j > 0 {
      HeadIsMax(arrivals[..j]);
      HeadHeardBefore(arrivals, j);
      LateHeardBefore(arrivals, j, arrivals[j]);
      forall i | 0 <= i < j ensures VerdictAt(WrapAll(arrivals), i) == RefVerdictAt(arrivals, i) {
        WrapAroundRefinement(arrivals, i);
      }
      hide RefRun, WindowAfter, VerdictAt, Max;
    }
  }

  lemma HeadHeardBefore(arrivals: seq<int>, j: nat)
    requires 0 < j <= |arrivals|
    ensures exists i :: 0 <= i < j && arrivals[i] == RefRun(arrivals[..j]).last && RefVerdictAt(arrivals, i) == Newest
  {
    HeadWasAccepted(arrivals[..j]);
    var i :| 0 <= i < j && arrivals[..j][i] == RefRun(arrivals[..j]).last && RefVerdictAt(arrivals[..j], i) == Newest;
    assert arrivals[..j][..i] == arrivals[..i];
  }
}
