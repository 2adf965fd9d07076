/** The C and Arduino integer semantics that the codec driver relies on:
    fixed-width integer types, C's truncating division, the `constrain`
    macro, Arduino's `map` (computed in `long` arithmetic) and the
    narrowing conversions to `int8_t` and `uint8_t`. */
module CInt {

  /** `uint8_t` */
  type Byte = x: int | 0 <= x < 0x100

  /** `int8_t` */
  type Int8 = x: int | -0x80 <= x < 0x80

  /** `int16_t` */
  type Int16 = x: int | -0x8000 <= x < 0x8000

  function Abs(x: int): nat { if x < 0 then -x else x }

  /** C's `/`: the quotient truncated toward zero. Dafny's own `/` is Euclidean. */
  function TruncDiv(a: int, b: int): int
    requires b != 0
  {
    if a >= 0 then
      (if b > 0 then a / b else -(a / -b))
    else
      (if b > 0 then -((-a) / b) else (-a) / (-b))
  }

  /** What truncation means: the remainder `a - q * b` is smaller than the
      divisor in magnitude and has the sign of the dividend (or is zero), and
      the quotient is never larger in magnitude than the exact one. */
  lemma TruncDivRemainder(a: int, b: int)
    requires b != 0
    ensures Abs(a - TruncDiv(a, b) * b) < Abs(b)
    ensures a - TruncDiv(a, b) * b == 0 || (a - TruncDiv(a, b) * b < 0 <==> a < 0)
    ensures Abs(TruncDiv(a, b)) * Abs(b) <= Abs(a)
  {
    TruncDivProduct(a, b);
    EuclidFacts(Abs(a), Abs(b));
  }

  /** The truncated quotient has the magnitude of the Euclidean quotient of
      the magnitudes, and its product with the divisor has the dividend's sign. */
  lemma TruncDivProduct(a: int, b: int)
    requires b != 0
    ensures Abs(TruncDiv(a, b)) == Abs(a) / Abs(b)
    ensures TruncDiv(a, b) * b == if a >= 0 then (Abs(a) / Abs(b)) * Abs(b) else -((Abs(a) / Abs(b)) * Abs(b))
  {
    var q := Abs(a) / Abs(b);
    EuclidFacts(Abs(a), Abs(b));
    if b > 0 {
      NegMul(q, b);
    } else {
      NegMul(q, -b);
    }
  }

  /** Euclidean division of a natural number by a positive one. */
  lemma EuclidFacts(n: nat, d: int)
    requires d > 0
    ensures 0 <= n / d && 0 <= n - (n / d) * d < d
  {
  }

  lemma NegMul(x: int, y: int)
    ensures -x * y == x * -y == -(x * y)
  {
  }

  /** The truncated quotient is unique: any `q` leaving a remainder that is
      smaller than the divisor and has the dividend's sign is `TruncDiv(a, b)`. */
  lemma TruncDivUnique(a: int, b: int, q: int)
    requires b != 0
    requires Abs(a - q * b) < Abs(b)
    requires a - q * b == 0 || (a - q * b < 0 <==> a < 0)
    ensures q == TruncDiv(a, b)
  {
    var t := TruncDiv(a, b);
    TruncDivRemainder(a, b);
    var m, n := a - q * b, a - t * b;
    // both remainders lie strictly within |b| on the same side of zero
    assert Abs(m - n) < Abs(b);
    SubMul(t, q, b);
    MulAtLeast(t - q, b);
  }

  lemma SubMul(x: int, y: int, z: int)
    ensures (x - y) * z == x * z - y * z
  {
  }

  lemma MulAtLeast(k: int, b: int)
    ensures k != 0 ==> Abs(k * b) >= Abs(b)
  {
    MulAbs(k, b);
    if k != 0 {
      MulMono(1, Abs(k), Abs(b));
    }
  }

  lemma MulAbs(x: int, y: int)
    ensures Abs(x * y) == Abs(x) * Abs(y)
  {
  }

  lemma MulMono(x: nat, y: nat, z: nat)
    requires x <= y
    ensures x * z <= y * z
  {
  }

  /** For a positive divisor, truncating division is monotone in the dividend. */
  lemma {:induction false} TruncDivMonotone(a: int, a': int, b: int)
    requires b > 0 && a <= a'
    ensures TruncDiv(a, b) <= TruncDiv(a', b)
  {
    if a >= 0 {
      EuclidDivMonotone(a, a', b);
    } else if a' < 0 {
      EuclidDivMonotone(-a', -a, b);
    } else {
      EuclidFacts(-a, b);
      EuclidFacts(a', b);
    }
  }

  lemma EuclidDivMonotone(a: nat, a': nat, b: int)
    requires b > 0 && a <= a'
    ensures a / b <= a' / b
  {
    if a / b > a' / b {
      assert (a' / b + 1) * b <= (a / b) * b by {
        MulMono(a' / b + 1, a / b, b);
      }
    }
  }

  /** Arduino's `constrain(amt, low, high)` macro. */
  function Constrain(amt: int, low: int, high: int): (r: int)
    requires low <= high
    ensures low <= r <= high
    ensures low <= amt <= high ==> r == amt
    ensures amt < low ==> r == low
    ensures amt > high ==> r == high
  {
    if amt < low then low else if amt > high then high else amt
  }

  /** Arduino's `long map(long x, long in_min, long in_max, long out_min, long out_max)`:
      `(x - in_min) * (out_max - out_min) / (in_max - in_min) + out_min`,
      with C's truncating division. The caller must not make the input range
      empty (C would divide by zero). */
  function ArduinoMap(x: int, inMin: int, inMax: int, outMin: int, outMax: int): int
    requires inMin != inMax
  {
    TruncDiv((x - inMin) * (outMax - outMin), inMax - inMin) + outMin
  }

  /** Arduino's `map` sends the ends of the input range to the ends of the
      output range and, for an input inside the input range, lands between
      them (in either orientation). */
  lemma {:induction false} ArduinoMapRange(x: int, inMin: int, inMax: int, outMin: int, outMax: int)
    requires inMin < inMax && inMin <= x <= inMax
    ensures ArduinoMap(inMin, inMin, inMax, outMin, outMax) == outMin
    ensures ArduinoMap(inMax, inMin, inMax, outMin, outMax) == outMax
    ensures outMin <= outMax ==> outMin <= ArduinoMap(x, inMin, inMax, outMin, outMax) <= outMax
    ensures outMax <= outMin ==> outMax <= ArduinoMap(x, inMin, inMax, outMin, outMax) <= outMin
  {
    var d := inMax - inMin;
    var span := outMax - outMin;
    TruncDivUnique(0 * span, d, 0);
    TruncDivUnique(d * span, d, span);
    if span >= 0 {
      MulMonoInt(0, x - inMin, span);
      MulMonoInt(x - inMin, d, span);
      TruncDivMonotone(0 * span, (x - inMin) * span, d);
      TruncDivMonotone((x - inMin) * span, d * span, d);
    } else {
      MulAntitone(0, x - inMin, span);
      MulAntitone(x - inMin, d, span);
      TruncDivMonotone(d * span, (x - inMin) * span, d);
      TruncDivMonotone((x - inMin) * span, 0 * span, d);
    }
  }

  lemma MulMonoInt(x: int, y: int, d: nat)
    requires x <= y
    ensures x * d <= y * d
  {
  }

  lemma MulAntitone(x: int, y: int, s: int)
    requires x <= y && s <= 0
    ensures y * s <= x * s
  {
    assert y * s - x * s == (y - x) * s;
    MulMonoInt(0, y - x, -s);
    NegMul(y - x, s);
  }

  /** With a decreasing output range, `map` is non-increasing in its input. */
  lemma {:induction false} ArduinoMapAntitone(x: int, y: int, inMin: int, inMax: int, outMin: int, outMax: int)
    requires inMin < inMax && x <= y && outMax <= outMin
    ensures ArduinoMap(y, inMin, inMax, outMin, outMax) <= ArduinoMap(x, inMin, inMax, outMin, outMax)
  {
    var span := outMax - outMin;
    MulAntitone(x - inMin, y - inMin, span);
    TruncDivMonotone((y - inMin) * span, (x - inMin) * span, inMax - inMin);
  }

  /** Conversion of an integer to `int8_t`: the value modulo 2^8, read as
      two's complement (what the ESP32 compiler does on a narrowing assignment). */
  function ToInt8(x: int): (r: Int8)
    ensures (r - x) % 0x100 == 0
    ensures -0x80 <= x < 0x80 ==> r == x
  {
    var b := ToByte(x);
    if b < 0x80 then b else b - 0x100
  }

  /** The cast `(uint8_t)x`: the value modulo 2^8. */
  function ToByte(x: int): (r: Byte)
    ensures (r - x) % 0x100 == 0
    ensures 0 <= x < 0x100 ==> r == x
  {
    x % 0x100
  }
}
