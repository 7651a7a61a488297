/** The CRC-8 the sensor sends after the two humidity bytes: generator
    polynomial x^8 + x^5 + x^4 + 1 (0x131), most significant bit first,
    no final XOR. */
module Checksum {

  /** Assigning an `int` to a `uint8_t` keeps its low eight bits. */
  function Low8(x: bv16): bv8
  {
    (x & 0xFF) as bv8
  }

  /** One step of the shift register: shift left and, when the bit shifted
      out was set, XOR in the low eight bits 0x31 of the polynomial 0x131. */
  function CrcStep(c: bv8): bv8
  {
    if c & 0x80 != 0 then (c << 1) ^ 0x31 else c << 1
  }

  /** The driver shifts in `int` and XORs the full 0x131 before the result
      is stored back in the 8-bit accumulator; the bit above the low eight
      cancels, so this is the step above. */
  lemma {:induction false} TruncatedPolynomial(c: bv8)
    ensures c & 0x80 != 0 ==> Low8(((c as bv16) << 1) ^ 0x131) == CrcStep(c)
    ensures c & 0x80 == 0 ==> Low8((c as bv16) << 1) == CrcStep(c)
  {
  }

  /** `n` steps of the shift register. */
  function CrcShift(c: bv8, n: nat): bv8
    decreases n
  {
    if n == 0 then c else CrcShift(CrcStep(c), n - 1)
  }

  /** Steps of the shift register per data byte. */
  const BitsPerByte: nat := 8

  /** The shift register after feeding `data` into the accumulator `acc`,
      `steps` steps per byte: each byte is XORed in, then the register is
      stepped. The lemmas below are stated for any `steps`, so that the
      verifier does not unroll the register eight times where nothing
      depends on it. */
  function Feed(acc: bv8, data: seq<bv8>, steps: nat): bv8
    decreases data
  {
    if data == [] then acc else Feed(CrcShift(acc ^ data[0], steps), data[1..], steps)
  }

  /** The checksum loop run over `data` from the accumulator value `acc`,
      as the driver runs it without setting the accumulator first. It
      agrees with the loop started from 0 exactly when `acc` is 0. */
  function ChecksumFrom(acc: bv8, data: seq<bv8>): (r: bv8)
    ensures r == Feed(0, data, BitsPerByte) <==> acc == 0
  {
    FeedInjective(acc, 0, data, BitsPerByte);
    Feed(acc, data, BitsPerByte)
  }

  /** The sensor's CRC-8: the checksum loop started from 0. */
  function Crc8(data: seq<bv8>): bv8
  {
    ChecksumFrom(0, data)
  }

  /** The driver's nested checksum loop over the two humidity bytes, with
      the accumulator set to 0 first. */
  method ComputeChecksum(b0: bv8, b1: bv8) returns (crc: bv8)
    ensures crc == Crc8([b0, b1])
  {
    var data := [b0, b1];
    crc := 0;
    var i := 0;
    while i < 2
      invariant 0 <= i <= 2
      invariant Feed(crc, data[i..], BitsPerByte) == Crc8(data)
    {
      crc := crc ^ data[i];
      ghost var start := crc;
      var j := BitsPerByte;
      while j > 0
        invariant 0 <= j <= BitsPerByte
        invariant CrcShift(crc, j) == CrcShift(start, BitsPerByte)
      {
        ghost var c := crc;
        TruncatedPolynomial(crc);
        if crc & 0x80 != 0 {
          crc := Low8(((crc as bv16) << 1) ^ 0x131);
        } else {
          crc := Low8((crc as bv16) << 1);
        }
        assert crc == CrcStep(c);
        assert CrcShift(c, j) == CrcShift(crc, j - 1);
        j := j - 1;
      }
      assert data[i..][1..] == data[i + 1..];
      i := i + 1;
    }
  }

  /** XORing the same byte into two values keeps them equal or unequal. */
  lemma {:induction false} XorCancel(a: bv8, b: bv8, x: bv8)
    ensures a ^ x == b ^ x <==> a == b
  {
  }

  /** XORing a value changes a byte exactly when the value is nonzero. */
  lemma {:induction false} XorChanges(g: bv8, f: bv8)
    ensures g ^ f == g <==> f == 0
  {
  }

  /** A step of the shift register loses no information. */
  lemma {:induction false} CrcStepInjective(a: bv8, b: bv8)
    ensures CrcStep(a) == CrcStep(b) ==> a == b
  {
  }

  /** Any number of steps loses no information. */
  lemma {:induction false} CrcShiftInjective(a: bv8, b: bv8, n: nat)
    ensures CrcShift(a, n) == CrcShift(b, n) ==> a == b
    decreases n
  {
    if n > 0 {
      CrcStepInjective(a, b);
      CrcShiftInjective(CrcStep(a), CrcStep(b), n - 1);
    }
  }

  /** The register stays 0 once it is 0. */
  lemma {:induction false} CrcShiftOfZero(n: nat)
    ensures CrcShift(0, n) == 0
    decreases n
  {
    if n > 0 {
      assert CrcStep(0) == 0;
      CrcShiftOfZero(n - 1);
    }
  }

  /** The register reaches 0 exactly when it started at 0. */
  lemma {:induction false} CrcShiftVanishes(e: bv8, n: nat)
    ensures CrcShift(e, n) == 0 <==> e == 0
  {
    CrcShiftOfZero(n);
    CrcShiftInjective(e, 0, n);
  }

  /** Feeding a sequence that starts with `b` feeds `b` first. */
  lemma {:induction false} FeedOne(acc: bv8, b: bv8, rest: seq<bv8>, steps: nat)
    ensures Feed(acc, [b] + rest, steps) == Feed(CrcShift(acc ^ b, steps), rest, steps)
  {
    assert ([b] + rest)[1..] == rest;
  }

  /** Feeding a single byte XORs it in and steps the register. */
  lemma {:induction false} FeedSingle(acc: bv8, b: bv8, steps: nat)
    ensures Feed(acc, [b], steps) == CrcShift(acc ^ b, steps)
  {
    assert [b] == [b] + [];
    FeedOne(acc, b, [], steps);
  }

  /** Feeding `u + v` is feeding `u`, then `v` from where `u` left off. */
  lemma {:induction false} FeedConcat(acc: bv8, u: seq<bv8>, v: seq<bv8>, steps: nat)
    ensures Feed(acc, u + v, steps) == Feed(Feed(acc, u, steps), v, steps)
    decreases u
  {
    if u == [] {
      assert u + v == v;
    } else {
      var x, rest := u[0], u[1..];
      assert u == [x] + rest;
      assert u + v == [x] + (rest + v);
      FeedOne(acc, x, rest + v, steps);
      FeedOne(acc, x, rest, steps);
      var s := CrcShift(acc ^ x, steps);
      FeedConcat(s, rest, v, steps);
    }
  }

  /** Different starting values of the register give different results,
      whatever the data. */
  lemma {:induction false} FeedInjective(a: bv8, b: bv8, data: seq<bv8>, steps: nat)
    ensures Feed(a, data, steps) == Feed(b, data, steps) ==> a == b
    decreases data
  {
    if data != [] {
      var x, rest := data[0], data[1..];
      assert data == [x] + rest;
      FeedOne(a, x, rest, steps);
      FeedOne(b, x, rest, steps);
      var p := CrcShift(a ^ x, steps);
      var q := CrcShift(b ^ x, steps);
      FeedInjective(p, q, rest, steps);
      CrcShiftInjective(a ^ x, b ^ x, steps);
      XorCancel(a, b, x);
    }
  }

  /** Feeding one more byte XORs it in and steps the register once more. */
  lemma {:induction false} FeedAppend(acc: bv8, data: seq<bv8>, b: bv8, steps: nat)
    ensures Feed(acc, data + [b], steps) == CrcShift(Feed(acc, data, steps) ^ b, steps)
  {
    FeedConcat(acc, data, [b], steps);
    var f := Feed(acc, data, steps);
    FeedSingle(f, b, steps);
  }

  /** Two sequences that differ in one byte, at any position, feed the
      register to different values: a single corrupted byte always changes
      the checksum. */
  lemma {:induction false} FeedDetectsByteChange(acc: bv8, before: seq<bv8>, x: bv8, y: bv8,
                                                 after: seq<bv8>, steps: nat)
    ensures Feed(acc, before + [x] + after, steps) == Feed(acc, before + [y] + after, steps)
        <==> x == y
  {
    var f := Feed(acc, before, steps);
    assert before + [x] + after == before + ([x] + after);
    assert before + [y] + after == before + ([y] + after);
    FeedConcat(acc, before, [x] + after, steps);
    FeedConcat(acc, before, [y] + after, steps);
    FeedOne(f, x, after, steps);
    FeedOne(f, y, after, steps);
    var p := CrcShift(f ^ x, steps);
    var q := CrcShift(f ^ y, steps);
    FeedInjective(p, q, after, steps);
    CrcShiftInjective(f ^ x, f ^ y, steps);
    XorCancel(x, y, f);
    assert f ^ x == x ^ f && f ^ y == y ^ f;
  }

  /** Whatever nonzero value the accumulator starts with, the loop yields a
      value different from the sensor's CRC-8, for every input. */
  lemma {:induction false} UninitialisedAccumulatorCorrupts(acc: bv8, data: seq<bv8>)
    requires acc != 0
    ensures ChecksumFrom(acc, data) != Crc8(data)
  {
    FeedInjective(acc, 0, data, BitsPerByte);
  }

  /** Two zero data bytes have checksum 0. */
  lemma {:induction false} ChecksumOfZeros()
    ensures Crc8([0, 0]) == 0
  {
    assert [0, 0] == [0] + [0];
    assert [0] == [0] + [];
    assert (0 as bv8) ^ 0 == 0;
    CrcShiftOfZero(BitsPerByte);
    FeedOne(0, 0, [0], BitsPerByte);
    FeedOne(0, 0, [], BitsPerByte);
  }

  /** Running the loop over the data followed by its own checksum leaves 0:
      the check a receiver can make over all three bytes of a humidity
      reading. */
  lemma {:induction false} ChecksumResidueIsZero(data: seq<bv8>)
    ensures Crc8(data + [Crc8(data)]) == 0
  {
    var c := Crc8(data);
    FeedAppend(0, data, c, BitsPerByte);
    assert c ^ c == 0;
    CrcShiftOfZero(BitsPerByte);
  }

  /** XORing `e` into the first of two bytes changes the register exactly
      when `e` is nonzero. */
  lemma {:induction false} FeedDetectsFirstByteError(b0: bv8, b1: bv8, e: bv8, steps: nat)
    ensures Feed(0, [b0 ^ e, b1], steps) == Feed(0, [b0, b1], steps) <==> e == 0
  {
    assert [b0 ^ e, b1] == [] + [b0 ^ e] + [b1];
    assert [b0, b1] == [] + [b0] + [b1];
    FeedDetectsByteChange(0, [], b0 ^ e, b0, [b1], steps);
    XorChanges(b0, e);
  }

  /** XORing `e` into the second of two bytes changes the register exactly
      when `e` is nonzero. */
  lemma {:induction false} FeedDetectsSecondByteError(b0: bv8, b1: bv8, e: bv8, steps: nat)
    ensures Feed(0, [b0, b1 ^ e], steps) == Feed(0, [b0, b1], steps) <==> e == 0
  {
    assert [b0, b1 ^ e] == [b0] + [b1 ^ e] + [];
    assert [b0, b1] == [b0] + [b1] + [];
    FeedDetectsByteChange(0, [b0], b1 ^ e, b1, [], steps);
    XorChanges(b1, e);
  }

  /** Any corruption of one of the two humidity bytes changes the checksum,
      and only a corruption does. */
  lemma {:induction false} ChecksumDetectsByteError(b0: bv8, b1: bv8, e: bv8)
    ensures Crc8([b0 ^ e, b1]) == Crc8([b0, b1]) <==> e == 0
    ensures Crc8([b0, b1 ^ e]) == Crc8([b0, b1]) <==> e == 0
  {
    FeedDetectsFirstByteError(b0, b1, e, BitsPerByte);
    FeedDetectsSecondByteError(b0, b1, e, BitsPerByte);
  }
}
