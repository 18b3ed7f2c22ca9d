/** The BLE thermometer (src/app/ble_temp.rs): the die temperature, read in
    quarter degrees, is converted to hundredths of a degree and published
    as a 5-byte temperature measurement value. */
module BleTemp {
  import opened Wrappers
  import opened Modular

  /** The flags byte: the value is in degrees Celsius. */
  const FLAGS_CELSIUS: nat := 0x0
  /** `monitor_temp` publishes with two decimal digits. */
  const DIGITS: int := 2

  predicate IsI8(n: int) { -0x80 <= n < 0x80 }
  predicate IsI16(n: int) { -0x8000 <= n < 0x8000 }
  predicate IsI32(n: int) { -0x8000_0000 <= n < 0x8000_0000 }

  /** `fixed_temp_gatt_value(n, digits)`: the low and the high byte of n's
      16-bit two's-complement form, a zero byte, the byte of -digits as an
      exponent, and the flags. */
  function FixedTempGattValue(n: int, digits: int): (r: seq<nat>)
    requires IsI16(n) && IsI8(digits)
    ensures |r| == 5 && forall k :: 0 <= k < 5 ==> r[k] < U8_LIMIT
    ensures r[2] == 0 && r[4] == FLAGS_CELSIUS
    ensures WrapI8(r[3]) == WrapI8(-digits)
  {
    var u := WrapU16(n);
    [u % 256, u / 256, 0, WrapU8(-digits), FLAGS_CELSIUS]
  }

  /** A 16-bit value read back from its two bytes, low byte first. */
  function ValueOf(gatt: seq<nat>): (v: int)
    requires |gatt| >= 2
  {
    WrapI16(gatt[0] + 256 * gatt[1])
  }

  /** The receiver reads back exactly the value that was encoded. */
  lemma GattRoundTrip(n: int, digits: int)
    requires IsI16(n) && IsI8(digits)
    ensures ValueOf(FixedTempGattValue(n, digits)) == n
  {
    var u := WrapU16(n);
    assert u % 256 + 256 * (u / 256) == u;
    if n < 0 {
      ModSmall(n, U16_LIMIT);
      assert u == n + U16_LIMIT;
    }
  }

  /** The exponent byte holds -digits as a signed byte: 0xFE for two
      digits; -128 is its own negation in eight bits. */
  lemma ExponentByte(n: int, digits: int)
    requires IsI16(n) && IsI8(digits)
    ensures digits > -0x80 ==> WrapI8(FixedTempGattValue(n, digits)[3]) == -digits
    ensures digits == -0x80 ==> FixedTempGattValue(n, digits)[3] == 0x80
    ensures FixedTempGattValue(n, DIGITS)[3] == 0xFE
  {
  }

  /** `(I30F2::from_bits(fixed) * 100).to_num::<i32>()`: the quarter-degree
      bits times 100, wrapped to 32 bits, with the two fractional bits
      dropped (rounding toward minus infinity). */
  function Readout(fixed: int): (r: int)
    requires IsI32(fixed)
    ensures IsI32(r)
  {
    WrapI32(fixed * 100) / 4
  }

  /** Without overflow the readout is the temperature in hundredths of a
      degree: 25 per quarter degree. */
  lemma ReadoutHundredths(fixed: int)
    requires IsI32(fixed * 100)
    ensures Readout(fixed) == fixed * 25
  {
    assert fixed * 100 == (fixed * 25) * 4;
  }

  /** What `monitor_temp` publishes for a reading that fits 16 bits after
      scaling (-327.68 to 327.67 degrees): the receiver decodes the reading
      in hundredths of a degree, with exponent -2. */
  lemma PublishedReading(fixed: int)
    requires IsI16(fixed * 25)
    ensures IsI32(fixed) && IsI16(WrapI16(Readout(fixed)))
    ensures var gatt := FixedTempGattValue(WrapI16(Readout(fixed)), DIGITS);
      ValueOf(gatt) == fixed * 25 && WrapI8(gatt[3]) == -DIGITS
  {
    ReadoutHundredths(fixed);
    GattRoundTrip(fixed * 25, DIGITS);
  }
}
