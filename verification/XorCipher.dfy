/**
 The "AES" strategy, in fact a stream of key bytes that are rotated as it goes, combined with the
 initialisation vector by exclusive or.
 */
module XorCipher {
  import Bits

  type Byte = bv8

  function RotateOnce(b: Byte): Byte {
    (b << 1) | (b >> 7)
  }

  function Rotate(b: Byte, times: nat): Byte {
    if times == 0 then b else RotateOnce(Rotate(b, times - 1))
  }

  /** Rotation by `n` places in one go. */
  function RotateBy(b: Byte, n: nat): Byte
    requires n < 8
  {
    (b << n) | (b >> (8 - n))
  }

  function RotateAll(key: seq<Byte>, times: nat): (k: seq<Byte>)
    ensures |k| == |key|
    ensures forall j :: 0 <= j < |k| ==> k[j] == Rotate(key[j], times)
  {
    seq(|key|, j requires 0 <= j < |key| => Rotate(key[j], times))
  }

  /** How often the key has been rotated when byte `i` is processed: `ceil(i / 16)`. */
  function Rotations(i: nat): nat {
    (i + 15) / 16
  }

  /** Indices run round a sequence of length `n`. */
  function Index(i: nat, n: nat): (r: nat)
    requires n > 0
    ensures r < n
  {
    i % n
  }

  /** The byte of the stream at position `i`, by random access. */
  function Stream(key: seq<Byte>, iv: seq<Byte>, i: nat): Byte
    requires key != []
  {
    RotateBy(key[Index(i, |key|)], Rotations(i) % 8) ^ (if iv == [] then 0 else iv[Index(i, |iv|)])
  }

  function Mixed(d: Byte, k: Byte, v: Byte): Byte {
    d ^ k ^ v
  }

  function Mask(d: Byte, key: seq<Byte>, iv: seq<Byte>, i: nat): Byte
    requires key != []
  {
    d ^ Stream(key, iv, i)
  }

  function Masked(data: seq<Byte>, key: seq<Byte>, iv: seq<Byte>): (m: seq<Byte>)
    ensures |m| == |data|
    ensures key == [] ==> m == data
    ensures key != [] ==> forall i :: 0 <= i < |m| ==> m[i] == Mask(data[i], key, iv, i)
  {
    if key == [] then data
    else seq(|data|, i requires 0 <= i < |data| => Mask(data[i], key, iv, i))
  }

  lemma RotateOnceBy(b: Byte, n: nat)
    requires n < 8
    ensures RotateOnce(RotateBy(b, n)) == RotateBy(b, (n + 1) % 8)
  {
    if n < 4 { RotateOnceLow(b, n); } else { RotateOnceHigh(b, n); }
  }

  lemma RotateOnceLow(b: Byte, n: nat)
    requires n < 4
    ensures RotateOnce(RotateBy(b, n)) == RotateBy(b, n + 1)
  {
    if n == 0 {} else if n == 1 {} else if n == 2 {} else {}
  }

  lemma RotateOnceHigh(b: Byte, n: nat)
    requires 4 <= n < 8
    ensures RotateOnce(RotateBy(b, n)) == RotateBy(b, if n == 7 then 0 else n + 1)
  {
    if n == 4 {} else if n == 5 {} else if n == 6 {} else {}
  }

  /** Eight rotations cancel: only the count modulo eight matters. */
  lemma {:induction false} RotateModulo(b: Byte, times: nat)
    ensures Rotate(b, times) == RotateBy(b, times % 8)
  {
    hide RotateBy, RotateOnce;
    if times == 0 {
      RotateByZero(b);
    } else {
      RotateModulo(b, times - 1);
      RotateOnceBy(b, (times - 1) % 8);
      NextPlace(times);
    }
  }

  lemma RotateByZero(b: Byte)
    ensures RotateBy(b, 0) == b
  {
  }

  lemma NextPlace(times: nat)
    requires times > 0
    ensures ((times - 1) % 8 + 1) % 8 == times % 8
  {
  }

  lemma XorTwice(a: Byte, s: Byte)
    ensures (a ^ s) ^ s == a
  {
  }

  /** Decryption is encryption, and undoes it, for every key and vector, empty ones included. */
  lemma MaskingTwice(data: seq<Byte>, key: seq<Byte>, iv: seq<Byte>)
    ensures Masked(Masked(data, key, iv), key, iv) == data
  {
    if key != [] {
      hide Stream;
      var once := Masked(data, key, iv);
      forall i | 0 <= i < |data| ensures Masked(once, key, iv)[i] == data[i] {
        XorTwice(data[i], Stream(key, iv, i));
      }
    }
  }

  /** Digit `j` of a byte, counted from the lowest. */
  function Digit(b: Byte, j: nat): Byte
    requires j < 8
  {
    (b >> j) & 1
  }

  /** Rotation moves every digit up by as many places, round the byte, and loses none. */
  lemma {:induction false} RotationMovesDigits(b: Byte, times: nat, j: nat)
    requires j < 8
    ensures Digit(Rotate(b, times), (j + times) % 8) == Digit(b, j)
  {
    hide Digit, RotateOnce;
    if times > 0 {
      RotationMovesDigits(b, times - 1, j);
      OncePlaceUp(Rotate(b, times - 1), (j + times - 1) % 8);
      NextPlace(j + times);
    }
  }

  lemma OncePlaceUp(b: Byte, j: nat)
    requires j < 8
    ensures Digit(RotateOnce(b), (j + 1) % 8) == Digit(b, j)
  {
    if j < 4 { OncePlaceUpLow(b, j); } else { OncePlaceUpHigh(b, j); }
  }

  lemma OncePlaceUpLow(b: Byte, j: nat)
    requires j < 4
    ensures Digit(RotateOnce(b), j + 1) == Digit(b, j)
  {
    if j == 0 {} else if j == 1 {} else if j == 2 {} else {}
  }

  lemma OncePlaceUpHigh(b: Byte, j: nat)
    requires 4 <= j < 8
    ensures Digit(RotateOnce(b), if j == 7 then 0 else j + 1) == Digit(b, j)
  {
    if j == 4 {} else if j == 5 {} else if j == 6 {} else {}
  }

  /** The operators written out: a key byte rotated by the number of sixteenth bytes so far, and the vector. */
  predicate Ciphered(data: seq<Byte>, result: seq<Byte>, key: seq<Byte>, iv: seq<Byte>) {
    && |result| == |data| && (key == [] ==> result == data)
    && (key != [] ==> forall i :: 0 <= i < |data| ==>
          var k, r := key[i % |key|], ((i + 15) / 16) % 8;
          result[i] == data[i] ^ ((k << r) | (k >> (8 - r))) ^ (if iv == [] then 0 else iv[i % |iv|]))
  }

  lemma MaskedIsCiphered(data: seq<Byte>, key: seq<Byte>, iv: seq<Byte>)
    ensures Ciphered(data, Masked(data, key, iv), key, iv)
  {
    hide Mask;
    if key != [] {
      forall i | 0 <= i < |data|
        ensures var k, r := key[i % |key|], ((i + 15) / 16) % 8;
                Masked(data, key, iv)[i]
                  == data[i] ^ ((k << r) | (k >> (8 - r))) ^ (if iv == [] then 0 else iv[i % |iv|])
      {
        MaskWritten(data[i], key, iv, i);
      }
    }
  }

  lemma MaskWritten(d: Byte, key: seq<Byte>, iv: seq<Byte>, i: nat)
    requires key != []
    ensures var k, r := key[i % |key|], ((i + 15) / 16) % 8;
            Mask(d, key, iv, i) == d ^ ((k << r) | (k >> (8 - r))) ^ (if iv == [] then 0 else iv[i % |iv|])
  {
    var k, r := key[i % |key|], ((i + 15) / 16) % 8;
    RotateByWritten(k, r);
    hide RotateBy;
    XorAssociative(d, RotateBy(k, r), if iv == [] then 0 else iv[i % |iv|]);
  }

  lemma RotateByWritten(k: Byte, r: nat)
    requires r < 8
    ensures RotateBy(k, r) == (k << r) | (k >> (8 - r))
  {
  }

  /** The key stream repeats with every period that 128, the key and the vector length divide. */
  lemma StreamRepeats(key: seq<Byte>, iv: seq<Byte>, period: nat, i: nat)
    requires key != [] && period % 128 == 0 && period % |key| == 0 && (iv != [] ==> period % |iv| == 0)
    ensures Stream(key, iv, i + period) == Stream(key, iv, i)
  {
    hide RotateBy, Rotations;
    ModuloShift(i, period, |key|);
    if iv != [] { ModuloShift(i, period, |iv|); }
    RotationsShift(i, period);
  }

  lemma RotationsShift(i: nat, period: nat)
    requires period % 128 == 0
    ensures Rotations(i + period) % 8 == Rotations(i) % 8
  {
    var q, r, rest := period / 128, (i + 15) / 16, (i + 15) % 16;
    SixteenFold(i + 15, r, rest, period, q);
    Bits.QuotientUnique(i + period + 15, 16, r + 8 * q, rest);
    EightFold(r, q);
  }

  lemma SixteenFold(x: nat, r: nat, rest: nat, period: nat, q: nat)
    requires x == 16 * r + rest && period == 128 * q
    ensures x + period == 16 * (r + 8 * q) + rest
  {
  }

  lemma EightFold(r: nat, q: nat)
    ensures (r + 8 * q) % 8 == r % 8
  {
    Bits.QuotientUnique(r + 8 * q, 8, r / 8 + q, r % 8);
  }

  lemma ModuloShift(i: nat, period: nat, n: nat)
    requires n > 0 && period % n == 0
    ensures (i + period) % n == i % n
  {
    var q := period / n;
    assert period == n * q;
    ModuloMultiple(i, n, q);
  }

  lemma {:induction false} ModuloMultiple(i: nat, n: nat, q: nat)
    requires n > 0
    ensures (i + n * q) % n == i % n
  {
    if q > 0 {
      ModuloMultiple(i, n, q - 1);
      assert n * q == n * (q - 1) + n;
      AddModulus(i + n * (q - 1), n);
    }
  }

  lemma AddModulus(x: nat, n: nat)
    requires n > 0
    ensures (x + n) % n == x % n
  {
    var q, r := x / n, x % n;
    assert x == n * q + r;
    assert n * q + n == n * (q + 1);
    Bits.QuotientUnique(x + n, n, q + 1, r);
  }

  class AesEncryption {
    var key: seq<Byte>
    var iv: seq<Byte>

    constructor ()
      ensures key == [] && iv == []
    {
      key, iv := [], [];
    }

    method SetKey(key: seq<Byte>, iv: seq<Byte>)
      modifies this
      ensures this.key == key && this.iv == iv
    {
      this.key, this.iv := key, iv;
    }

    method Encrypt(data: seq<Byte>) returns (result: seq<Byte>)
      ensures result == Masked(data, key, iv)
      ensures |result| == |data| && (key == [] ==> result == data)
      ensures key != [] ==> forall i :: 0 <= i < |data| ==>
                var k, r := key[i % |key|], ((i + 15) / 16) % 8;
                result[i] == data[i] ^ ((k << r) | (k >> (8 - r))) ^ (if iv == [] then 0 else iv[i % |iv|])
    {
      hide Masked, Mask;
      result := MaskAll(data);
      MaskedIsCiphered(data, key, iv);
    }

    /** The loop, with a copy of the key that changes as it goes. */
    method MaskAll(data: seq<Byte>) returns (result: seq<Byte>)
      ensures result == Masked(data, key, iv)
    {
      if key == [] {
        return data;
      }
      hide Mask, RotateOnce, Rotations, RotateAll, Index, MaskedUpTo;
      result := data;
      var currentKey := key;
      var keyIdx: nat, ivIdx: nat := 0, 0;
      var i := 0;
      Starting(data, key, iv);
      while i < |result|
        invariant 0 <= i <= |result| == |data|
        invariant currentKey == RotateAll(key, Rotations(i))
        invariant keyIdx == Index(i, |key|) && (iv != [] ==> ivIdx == Index(i, |iv|))
        invariant MaskedUpTo(data, result, key, iv, i)
      {
        ghost var before := result;
        var masked := MaskByte(key, currentKey, iv, keyIdx, ivIdx, i, result[i]);
        result := result[i := masked];
        OneMoreMasked(data, before, result, key, iv, i);
        keyIdx := Following(keyIdx, |currentKey|, i);
        ivIdx := Following(ivIdx, |iv|, i);
        currentKey := NextKey(key, currentKey, i);
        i := i + 1;
      }
      AllMasked(data, result, key, iv);
    }

    method Decrypt(data: seq<Byte>) returns (result: seq<Byte>)
      ensures result == Masked(data, key, iv)
      ensures |result| == |data| && (key == [] ==> result == data)
      ensures key != [] ==> forall i :: 0 <= i < |data| ==>
                var k, r := key[i % |key|], ((i + 15) / 16) % 8;
                result[i] == data[i] ^ ((k << r) | (k >> (8 - r))) ^ (if iv == [] then 0 else iv[i % |iv|])
    {
      result := Encrypt(data);
    }

    /** What the documentation promises: a file that was encrypted reads back unchanged. */
    method RoundTrip(data: seq<Byte>) returns (result: seq<Byte>)
      ensures result == data
    {
      var cipher := Encrypt(data);
      result := Decrypt(cipher);
      MaskingTwice(data, key, iv);
    }
  }

  /** The first `i` bytes of `data` are masked, the others as they were. */
  ghost predicate MaskedUpTo(data: seq<Byte>, result: seq<Byte>, key: seq<Byte>, iv: seq<Byte>, i: nat)
    requires key != []
  {
    && |result| == |data|
    && (forall j :: 0 <= j < i && j < |data| ==> result[j] == Mask(data[j], key, iv, j))
    && (forall j :: i <= j < |data| ==> result[j] == data[j])
  }

  lemma Starting(data: seq<Byte>, key: seq<Byte>, iv: seq<Byte>)
    requires key != []
    ensures MaskedUpTo(data, data, key, iv, 0) && key == RotateAll(key, Rotations(0))
    ensures Index(0, |key|) == 0 && (iv != [] ==> Index(0, |iv|) == 0)
  {
  }

  lemma OneMoreMasked(
    data: seq<Byte>, before: seq<Byte>, result: seq<Byte>, key: seq<Byte>, iv: seq<Byte>, i: nat)
    requires key != [] && i < |data| && MaskedUpTo(data, before, key, iv, i)
    requires result == before[i := Mask(before[i], key, iv, i)]
    ensures MaskedUpTo(data, result, key, iv, i + 1)
  {
    hide Mask;
  }

  lemma AllMasked(data: seq<Byte>, result: seq<Byte>, key: seq<Byte>, iv: seq<Byte>)
    requires key != [] && MaskedUpTo(data, result, key, iv, |data|)
    ensures result == Masked(data, key, iv)
  {
    hide Mask;
  }

  /** One byte goes through the loop. */
  method MaskByte(
    ghost key: seq<Byte>, currentKey: seq<Byte>, iv: seq<Byte>, keyIdx: nat, ivIdx: nat, ghost i: nat, d: Byte)
    returns (masked: Byte)
    requires key != [] && currentKey == RotateAll(key, Rotations(i))
    requires keyIdx == Index(i, |key|) && (iv != [] ==> ivIdx == Index(i, |iv|))
    ensures masked == Mask(d, key, iv, i)
    ensures masked == d ^ currentKey[keyIdx] ^ (if iv == [] then 0 else iv[ivIdx])
  {
    hide Mask, Rotate, Rotations, Index;
    var k := currentKey[keyIdx];
    var v := if iv == [] then 0 else iv[ivIdx];
    StreamStep(key, iv, i, k, v, d);
    masked := Mixed(d, k, v);
  }

  /** The position after `index`, round a key or vector of length `n`; an empty one is never read. */
  method Following(index: nat, n: nat, ghost i: nat) returns (next: nat)
    requires n > 0 ==> index == Index(i, n)
    ensures n > 0 ==> next == Index(i + 1, n)
  {
    next := index;
    if n > 0 {
      hide Index;
      NextIndex(i, n);
      next := Index(index + 1, n);
    }
  }

  lemma StreamStep(key: seq<Byte>, iv: seq<Byte>, i: nat, k: Byte, v: Byte, d: Byte)
    requires key != [] && k == Rotate(key[Index(i, |key|)], Rotations(i))
    requires v == if iv == [] then 0 else iv[Index(i, |iv|)]
    ensures Mixed(d, k, v) == Mask(d, key, iv, i)
  {
    RotateModulo(key[Index(i, |key|)], Rotations(i));
    hide Rotate, RotateBy;
    XorAssociative(d, k, v);
  }

  lemma XorAssociative(a: Byte, b: Byte, c: Byte)
    ensures (a ^ b) ^ c == a ^ (b ^ c)
  {
  }

  lemma NextIndex(i: nat, n: nat)
    requires n > 0
    ensures Index(Index(i, n) + 1, n) == Index(i + 1, n)
  {
    IndexAt(i, n, i / n, i % n);
    NextIndexAt(i, n, i / n, i % n);
  }

  lemma IndexAt(i: nat, n: nat, q: nat, r: nat)
    requires n > 0 && i == n * q + r && r < n
    ensures Index(i, n) == r
  {
    Bits.QuotientUnique(i, n, q, r);
  }

  lemma NextIndexAt(i: nat, n: nat, q: nat, r: nat)
    requires n > 0 && i == n * q + r && r < n
    ensures Index(r + 1, n) == Index(i + 1, n)
  {
    hide Index;
    if r + 1 < n {
      IndexAt(i + 1, n, q, r + 1);
      IndexAt(r + 1, n, 0, r + 1);
    } else {
      assert n * q + n == n * (q + 1);
      IndexAt(i + 1, n, q + 1, 0);
      IndexAt(n, n, 1, 0);
    }
  }

  lemma SameRotations(i: nat)
    ensures Rotations(i + 1) == if i % 16 == 0 then Rotations(i) + 1 else Rotations(i)
  {
    var q, r := i / 16, i % 16;
    Bits.QuotientUnique(i + 16, 16, q + 1, r);
    if r == 0 {
      Bits.QuotientUnique(i + 15, 16, q, 15);
    } else {
      Bits.QuotientUnique(i + 15, 16, q + 1, r - 1);
    }
  }

  /** The key the loop holds changes after bytes 0, 16, 32, … and only then. */
  method NextKey(ghost key: seq<Byte>, currentKey: seq<Byte>, i: nat) returns (next: seq<Byte>)
    requires currentKey == RotateAll(key, Rotations(i))
    ensures next == RotateAll(key, Rotations(i + 1))
  {
    hide RotateOnce, Rotations;
    SameRotations(i);
    next := currentKey;
    if i % 16 == 0 {
      next := RotateKey(currentKey);
    }
  }

  method RotateKey(key: seq<Byte>) returns (rotated: seq<Byte>)
    ensures |rotated| == |key|
    ensures forall j :: 0 <= j < |key| ==> rotated[j] == RotateOnce(key[j])
    ensures forall j :: 0 <= j < |key| ==> rotated[j] == (key[j] << 1) | (key[j] >> 7)
  {
    rotated := key;
    for j := 0 to |key|
      invariant |rotated| == |key|
      invariant forall m :: 0 <= m < j ==> rotated[m] == RotateOnce(key[m])
      invariant forall m :: j <= m < |key| ==> rotated[m] == key[m]
    {
      rotated := rotated[j := RotateOnce(rotated[j])];
    }
  }
}
