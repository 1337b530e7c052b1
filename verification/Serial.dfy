/**
 The 32-bit sequence numbers of the reliable-UDP layer: unsigned words compared by the sign of
 their wrapped difference, in the manner of section 3.2 of RFC 1982.
 */
module Serial {

  const RANGE: int := 0x1_0000_0000
  const HALF: int := 0x8000_0000

  type Word = n: int | 0 <= n < RANGE

  /** The word that carries the true (unbounded) sequence number `n`. */
  function Wrap(n: int): Word {
    n % RANGE
  }

  /** Unsigned subtraction, wrapping below zero. */
  function Minus(lhs: Word, rhs: Word): Word {
    if lhs >= rhs then lhs - rhs else lhs - rhs + RANGE
  }

  /** `static_cast<std::int32_t>` */
  function AsSigned(x: Word): int {
    if x < HALF then x else x - RANGE
  }

  predicate SequenceGreater(lhs: Word, rhs: Word) {
    AsSigned(Minus(lhs, rhs)) > 0
  }

  predicate SequenceLessEqual(lhs: Word, rhs: Word) {
    AsSigned(Minus(lhs, rhs)) <= 0
  }

  /** Wrapped subtraction only sees the true difference modulo the word size. */
  lemma MinusWrap(a: int, b: int)
    ensures Minus(Wrap(a), Wrap(b)) == Wrap(a - b)
  {
  }

  lemma TrueDistance(a: int, b: int)
    requires 0 <= a - b < RANGE
    ensures Minus(Wrap(a), Wrap(b)) == a - b
  {
    MinusWrap(a, b);
  }

  /**
   The wrapped comparison answers like the true one exactly on the half-open window
   `[-2^31, 2^31)` of differences; it is wrong for every other pair less than a full wrap apart.
   */
  lemma SerialOrderIff(a: int, b: int)
    requires -RANGE < a - b < RANGE
    ensures (SequenceGreater(Wrap(a), Wrap(b)) <==> a > b) <==> -HALF <= a - b < HALF
  {
    MinusWrap(a, b);
  }

  lemma SequenceOrderTotal(a: Word, b: Word)
    ensures SequenceLessEqual(a, b) <==> !SequenceGreater(a, b)
    ensures SequenceGreater(a, b) && SequenceGreater(b, a) ==> false
    ensures !SequenceGreater(a, b) && !SequenceGreater(b, a) ==> a == b || Minus(a, b) == HALF
  {
  }

  /** Words less than a full wrap apart are equal only when the numbers are. */
  lemma WrapInjective(a: int, b: int)
    requires -RANGE < a - b < RANGE
    ensures Wrap(a) == Wrap(b) <==> a == b
  {
  }
}
