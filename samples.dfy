/** Turning the two measurement bytes into a 16-bit code, and the codes
    into relative humidity and temperature. */
module Samples {

  /** Largest value a 16-bit code can take, plus one. */
  const CodeRange: nat := 65536

  /** The code the sensor reports as MSB then LSB, assembled from unsigned
      bytes: `msb << 8 | lsb` in 16 bits. */
  function RawCode(msb: bv8, lsb: bv8): (code: nat)
    ensures code == msb as nat * 256 + lsb as nat
    ensures code < CodeRange
  {
    (((msb as bv16) << 8) | lsb as bv16) as nat
  }

  /** Splitting a code into base-256 digits gives back both bytes. */
  lemma {:induction false} RawCodeRoundTrip(msb: bv8, lsb: bv8)
    ensures RawCode(msb, lsb) / 256 == msb as nat
    ensures RawCode(msb, lsb) % 256 == lsb as nat
  {
  }

  /** A `char` read as a signed value and widened to `int`, as a 32-bit
      pattern. */
  function SignExtend(b: bv8): (w: bv32)
    ensures w & 0xFF == b as bv32
    ensures b & 0x80 == 0 ==> w == b as bv32
    ensures b & 0x80 != 0 ==> w & 0xFFFF_FF00 == 0xFFFF_FF00
  {
    if b & 0x80 != 0 then 0xFFFF_FF00 | b as bv32 else b as bv32
  }

  /** The code as `rxBuffer[0] << 8 | rxBuffer[1]` computes it where `char`
      is signed: both bytes are sign-extended to `int` before the shift and
      the OR, and the result is cut to 16 bits by the `uint16_t`. */
  function RawCodeSignedChar(msb: bv8, lsb: bv8): (code: nat)
    ensures code < CodeRange
    ensures code % 256 == lsb as nat
  {
    var w := Uint16((SignExtend(msb) << 8) | SignExtend(lsb));
    SignedCodeSplits(msb, lsb);
    WordValue(w, (w >> 8) as bv8, lsb);
    w as nat
  }

  /** Whatever the sign bits do to the high byte, the low byte of the
      signed code is the LSB. */
  lemma {:induction false} SignedCodeSplits(msb: bv8, lsb: bv8)
    ensures var w := Uint16((SignExtend(msb) << 8) | SignExtend(lsb));
            w == ((((w >> 8) as bv8) as bv16) << 8) | lsb as bv16
  {
    var w := Uint16((SignExtend(msb) << 8) | SignExtend(lsb));
    assert (SignExtend(msb) << 8) & 0xFF == 0;
    assert SignExtend(lsb) & 0xFF == lsb as bv32;
    assert w & 0xFF == lsb as bv16;
  }

  /** A 16-bit pattern made of a high and a low byte has the low byte as
      its value modulo 256. */
  lemma {:induction false} WordValue(w: bv16, high: bv8, low: bv8)
    requires w == ((high as bv16) << 8) | low as bv16
    ensures w as nat % 256 == low as nat
  {
    assert w as nat == RawCode(high, low);
    RawCodeRoundTrip(high, low);
  }

  /** An `int` stored into a `uint16_t`: its low 16 bits. */
  function Uint16(x: bv32): bv16
  {
    (x & 0xFFFF) as bv16
  }

  /** With a low byte below 0x80 the signed reading is harmless. */
  lemma {:induction false} SignedCharAgreesBelow0x80(msb: bv8, lsb: bv8)
    requires lsb < 0x80
    ensures RawCodeSignedChar(msb, lsb) == RawCode(msb, lsb)
  {
    SignedCharAgreesBits(msb, lsb);
  }

  lemma {:induction false} SignedCharAgreesBits(msb: bv8, lsb: bv8)
    requires lsb < 0x80
    ensures Uint16((SignExtend(msb) << 8) | SignExtend(lsb)) == ((msb as bv16) << 8) | lsb as bv16
  {
    assert SignExtend(lsb) == lsb as bv32;
  }

  /** With a low byte of 0x80 or more the sign bits of the widened low byte
      overwrite the high byte: the code comes out as 0xFF00 plus the low
      byte, whatever the high byte was. */
  lemma {:induction false} SignedCharCorruptsCode(msb: bv8, lsb: bv8)
    requires lsb >= 0x80
    ensures RawCodeSignedChar(msb, lsb) == 0xFF00 + lsb as nat
    ensures RawCodeSignedChar(msb, lsb) == RawCode(msb, lsb) <==> msb == 0xFF
  {
    var w := SignExtend(lsb);
    assert w == 0xFFFF_FF00 | lsb as bv32;
    assert Uint16((SignExtend(msb) << 8) | w) == 0xFF00 | lsb as bv16;
  }

  /** A concrete reading that shows it: bytes 0x12 0x80 mean code 0x1280,
      but the signed reading gives 0xFF80. */
  lemma {:induction false} SignedCharCounterexample()
    ensures RawCode(0x12, 0x80) == 0x1280
    ensures RawCodeSignedChar(0x12, 0x80) == 0xFF80
  {
    SignedCharCorruptsCode(0x12, 0x80);
  }

  /** Relative humidity in percent, from the datasheet equation
      RH = 125 * code / 65536 - 6. */
  function Humidity(code: nat): (rh: real)
    ensures code < CodeRange ==> -6.0 <= rh < 119.0
  {
    125.0 * code as real / 65536.0 - 6.0
  }

  /** Temperature in degrees Celsius, from the datasheet equation
      T = 175.72 * code / 65536 - 46.85. */
  function Celsius(code: nat): (t: real)
    ensures code < CodeRange ==> -46.85 <= t < 128.87
  {
    175.72 * code as real / 65536.0 - 46.85
  }

  /** Degrees Celsius to degrees Fahrenheit. */
  function Fahrenheit(celsius: real): (f: real)
    ensures (f - 32.0) / 1.8 == celsius
  {
    celsius * 1.8 + 32.0
  }

  /** Every 16-bit code maps into [-6, 119), and a larger code means more
      humidity. */
  lemma {:induction false} HumidityRange(code: nat, other: nat)
    requires code < CodeRange
    ensures -6.0 <= Humidity(code) < 119.0
    ensures code < other ==> Humidity(code) < Humidity(other)
  {
  }

  /** Every 16-bit code maps into [-46.85, 128.87), and a larger code means a
      higher temperature. */
  lemma {:induction false} CelsiusRange(code: nat, other: nat)
    requires code < CodeRange
    ensures -46.85 <= Celsius(code) < 128.87
    ensures code < other ==> Celsius(code) < Celsius(other)
  {
  }

  /** The Fahrenheit conversion is invertible, and the freezing and boiling
      points of water land where they should. */
  lemma {:induction false} FahrenheitInverse(celsius: real)
    ensures (Fahrenheit(celsius) - 32.0) / 1.8 == celsius
    ensures Fahrenheit(0.0) == 32.0 && Fahrenheit(100.0) == 212.0
  {
  }
}
