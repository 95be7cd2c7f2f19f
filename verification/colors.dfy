/** ARGB colour arithmetic for the overlay: a colour is a Java `int` holding
    alpha, red, green and blue bytes from the most to the least significant.
    Java's `float` is modelled by `real`. */
module Colors {
  import opened Basics
  import SeqStats

  /** One colour channel. */
  type Byte = x: int | 0 <= x < 256

  const TwoTo8: int := 0x100
  const TwoTo16: int := 0x1_0000
  const TwoTo24: int := 0x100_0000
  const TwoTo32: int := 0x1_0000_0000

  /** `(color >> 24) & 0xFF` and its siblings: `>>` on an int is floor
      division by a power of two (Dafny's `/` by a positive divisor floors
      too), and `& 0xFF` keeps the remainder modulo 256. */
  function Alpha(c: Int32): Byte { (c / TwoTo24) % 256 }

  function Red(c: Int32): Byte { (c / TwoTo16) % 256 }

  function Green(c: Int32): Byte { (c / TwoTo8) % 256 }

  function Blue(c: Int32): Byte { c % 256 }

  /** `(a << 24) | (r << 16) | (g << 8) | b` for channel bytes: the shifted
      channels occupy disjoint bits, so the `|` is a sum, and the alpha byte
      wraps into the sign bit as in a Java `int`. */
  function Argb(a: Byte, r: Byte, g: Byte, b: Byte): Int32
  {
    Wrap32(a * TwoTo24 + r * TwoTo16 + g * TwoTo8 + b)
  }

  /** A hexadecimal `int` literal of the source denotes its 32-bit pattern. */
  function Hex(u: nat): Int32
    requires u < TwoTo32
  {
    Wrap32(u)
  }

  /** Packing four bytes and reading them back gives the bytes. */
  lemma ChannelsOfArgb(a: Byte, r: Byte, g: Byte, b: Byte)
    ensures Alpha(Argb(a, r, g, b)) == a && Red(Argb(a, r, g, b)) == r
    ensures Green(Argb(a, r, g, b)) == g && Blue(Argb(a, r, g, b)) == b
  {
    var x := a * TwoTo24 + r * TwoTo16 + g * TwoTo8 + b;
    var w := Argb(a, r, g, b);
    var k := if x > IntMax then 1 else 0;
    assert w == x - k * TwoTo32;
    var q1 := a * TwoTo16 + r * 256 + g - k * TwoTo24;
    var q2 := a * 256 + r - k * TwoTo16;
    var q3 := a - k * 256;
    ByteSplit(w, q1, b);
    ByteSplit(q1, q2, g);
    ByteSplit(q2, q3, r);
    ByteSplit(q3, -k, a);
    ShiftsCompose(w);
  }

  /** A number written as q 256 + b with a byte b has quotient q and low byte b. */
  lemma ByteSplit(x: int, q: int, b: Byte)
    requires x == q * 256 + b
    ensures x / 256 == q && x % 256 == b
  {
  }

  /** Shifting by 16 or 24 bits is shifting by 8 bits two or three times. */
  lemma ShiftsCompose(c: int)
    ensures c / TwoTo8 == c / 256
    ensures c / TwoTo16 == c / 256 / 256
    ensures c / TwoTo24 == c / 256 / 256 / 256
  {
    var q1 := c / 256;
    var q2 := q1 / 256;
    var q3 := q2 / 256;
    assert c == q1 * 256 + c % 256;
    assert q1 == q2 * 256 + q1 % 256;
    assert q2 == q3 * 256 + q2 % 256;
  }

  /** Reading the four bytes of a colour and packing them gives the colour. */
  lemma ArgbOfChannels(c: Int32)
    ensures Argb(Alpha(c), Red(c), Green(c), Blue(c)) == c
  {
    var x := Alpha(c) * TwoTo24 + Red(c) * TwoTo16 + Green(c) * TwoTo8 + Blue(c);
    ByteDigits(c);
    WrapOfResidue(c);
  }

  /** Wrapping the residue of a 32-bit value modulo 2^32 gives the value back. */
  lemma WrapOfResidue(c: Int32)
    ensures Wrap32(c % TwoTo32) == c
  {
    if c >= 0 {
      assert c % TwoTo32 == c;
    } else {
      assert c % TwoTo32 == c + TwoTo32;
    }
  }

  /** The four bytes are the base-256 digits of the number modulo 2^32. */
  lemma ByteDigits(c: int)
    ensures (c / TwoTo24) % 256 * TwoTo24 + (c / TwoTo16) % 256 * TwoTo16 + (c / TwoTo8) % 256 * TwoTo8 + c % 256
            == c % TwoTo32
  {
    var q1 := c / 256;
    var q2 := q1 / 256;
    var q3 := q2 / 256;
    ShiftsCompose(c);
    assert c == q1 * 256 + c % 256;
    assert q1 == q2 * 256 + q1 % 256;
    assert q2 == q3 * 256 + q2 % 256;
    assert q3 == (q3 / 256) * 256 + q3 % 256;
    assert c == (q3 / 256) * TwoTo32 + (q3 % 256) * TwoTo24 + (q2 % 256) * TwoTo16 + (q1 % 256) * TwoTo8 + c % 256;
  }

  /** `MathHelper.clamp(f, 0, 1)`. */
  function Clamp01(f: real): (r: real)
    ensures 0.0 <= r <= 1.0
    ensures 0.0 <= f <= 1.0 ==> r == f
    ensures f <= 0.0 ==> r == 0.0
    ensures f >= 1.0 ==> r == 1.0
  {
    if f < 0.0 then 0.0 else MinR(f, 1.0)
  }

  /** multiplyAlpha: the alpha byte scaled by the clamped factor and truncated;
      red, green and blue are kept. The new alpha never exceeds the old, a
      factor of 1 or more keeps the colour, and a factor of 0 or less makes it
      fully transparent. */
  function MultiplyAlpha(color: Int32, alphaFactor: real): (r: Int32)
    ensures Red(r) == Red(color) && Green(r) == Green(color) && Blue(r) == Blue(color)
    ensures Alpha(r) == ScaledAlpha(Alpha(color), Clamp01(alphaFactor))
    ensures Alpha(r) <= Alpha(color)
    ensures alphaFactor >= 1.0 ==> r == color
    ensures alphaFactor <= 0.0 ==> Alpha(r) == 0
  {
    var newAlpha := ScaledAlpha(Alpha(color), Clamp01(alphaFactor));
    ChannelsOfArgb(newAlpha, Red(color), Green(color), Blue(color));
    ArgbOfChannels(color);
    Argb(newAlpha, Red(color), Green(color), Blue(color))
  }

  /** `(int)(alpha * k)` for a fraction k: a byte no larger than alpha, alpha
      itself for k = 1 and 0 for k = 0. */
  function ScaledAlpha(alpha: Byte, k: real): (n: Byte)
    requires 0.0 <= k <= 1.0
    ensures n <= alpha
    ensures k == 1.0 ==> n == alpha
    ensures k == 0.0 ==> n == 0
  {
    var x := Scale(alpha, k);
    TruncWithin(x, alpha);
    Trunc(x)
  }

  /** `alpha * k` for a non-negative amount and a fraction k. */
  function Scale(a: int, k: real): (x: real)
    requires 0 <= a && 0.0 <= k <= 1.0
    ensures 0.0 <= x <= a as real
    ensures k == 1.0 ==> x == a as real
    ensures k == 0.0 ==> x == 0.0
  {
    ScaledByFraction(a as real, k);
    a as real * k
  }

  lemma TruncWithin(x: real, m: int)
    requires 0.0 <= x <= m as real
    ensures 0 <= Trunc(x) <= m
    ensures x == m as real ==> Trunc(x) == m
  {
  }

  /** The scaled alpha is the scaled byte rounded down: the largest whole
      number not above alpha times k. */
  lemma ScaledAlphaIsFloor(alpha: Byte, k: real)
    requires 0.0 <= k <= 1.0
    ensures ScaledAlpha(alpha, k) as real <= alpha as real * k < ScaledAlpha(alpha, k) as real + 1.0
  {
  }

  /** A non-negative amount scaled by a fraction stays between 0 and the amount. */
  lemma ScaledByFraction(x: real, k: real)
    requires x >= 0.0 && 0.0 <= k <= 1.0
    ensures 0.0 <= x * k <= x
  {
    SeqStats.ProductPositive(1.0, 1.0);
    if x > 0.0 && k > 0.0 {
      SeqStats.ProductPositive(x, k);
    }
    if x > 0.0 && k < 1.0 {
      SeqStats.ProductPositive(x, 1.0 - k);
      assert x * (1.0 - k) == x - x * k;
    }
  }

  /** Truncating a value between two non-negative integers stays between them. */
  lemma TruncBetween(x: real, lo: int, hi: int)
    requires 0 <= lo && lo as real <= x <= hi as real
    ensures lo <= Trunc(x) <= hi
  {
  }

  /** The point a fraction `f` of the way from `a` to `b`. */
  function Lerp(a: real, b: real, f: real): real
  {
    a + (b - a) * f
  }

  /** Interpolation by a fraction stays between its two end points. */
  lemma BetweenChannels(a: real, b: real, f: real)
    requires 0.0 <= f <= 1.0
    ensures MinR(a, b) <= Lerp(a, b, f) <= MaxR(a, b)
  {
    if a <= b {
      ScaledByFraction(b - a, f);
    } else {
      ScaledByFraction(a - b, f);
      assert (a - b) * f == -((b - a) * f);
    }
  }

  /** One interpolated channel: `(int)(c1 + (c2 - c1) * f)` for f in [0, 1]. */
  function LerpChannel(c1: Byte, c2: Byte, f: real): (c: Byte)
    requires 0.0 <= f <= 1.0
    ensures Min(c1, c2) <= c <= Max(c1, c2)
    ensures f == 0.0 ==> c == c1
    ensures f == 1.0 ==> c == c2
  {
    var x := Lerp(c1 as real, c2 as real, f);
    BetweenChannels(c1 as real, c2 as real, f);
    assert MinR(c1 as real, c2 as real) == Min(c1, c2) as real;
    assert MaxR(c1 as real, c2 as real) == Max(c1, c2) as real;
    TruncBetween(x, Min(c1, c2), Max(c1, c2));
    assert f == 0.0 ==> x == c1 as real;
    assert f == 1.0 ==> x == c2 as real;
    Trunc(x)
  }

  /** lerpColor: each channel interpolated between the two colours by the
      clamped factor. A factor of 0 or less gives the first colour, 1 or more
      the second, and every channel lies between the two source channels. */
  function LerpColor(color1: Int32, color2: Int32, factor: real): (r: Int32)
    ensures Min(Alpha(color1), Alpha(color2)) <= Alpha(r) <= Max(Alpha(color1), Alpha(color2))
    ensures Min(Red(color1), Red(color2)) <= Red(r) <= Max(Red(color1), Red(color2))
    ensures Min(Green(color1), Green(color2)) <= Green(r) <= Max(Green(color1), Green(color2))
    ensures Min(Blue(color1), Blue(color2)) <= Blue(r) <= Max(Blue(color1), Blue(color2))
    ensures factor <= 0.0 ==> r == color1
    ensures factor >= 1.0 ==> r == color2
  {
    var k := Clamp01(factor);
    var a := LerpChannel(Alpha(color1), Alpha(color2), k);
    var red := LerpChannel(Red(color1), Red(color2), k);
    var g := LerpChannel(Green(color1), Green(color2), k);
    var b := LerpChannel(Blue(color1), Blue(color2), k);
    ChannelsOfArgb(a, red, g, b);
    ArgbOfChannels(color1);
    ArgbOfChannels(color2);
    Argb(a, red, g, b)
  }

  /** The three anchors of the performance gradient. */
  const GoodColor: Int32 := Hex(0xFF40FF40)

  const WarningColor: Int32 := Hex(0xFFFFFF40)

  const CriticalColor: Int32 := Hex(0xFFFF4040)

  /** The anchors are opaque, share a blue byte of 0x40, and differ only in
      red (0x40 to 0xFF) and green (0xFF to 0x40). */
  lemma AnchorChannels()
    ensures GoodColor == Argb(0xFF, 0x40, 0xFF, 0x40)
    ensures WarningColor == Argb(0xFF, 0xFF, 0xFF, 0x40)
    ensures CriticalColor == Argb(0xFF, 0xFF, 0x40, 0x40)
  {
  }

  /** getPerformanceColor: the clamped value picks a point on a gradient from
      green (0) through yellow (0.5) to red (1). */
  function PerformanceColor(normalizedValue: real): (r: Int32)
    ensures normalizedValue <= 0.0 ==> r == GoodColor
    ensures normalizedValue == 0.5 ==> r == WarningColor
    ensures normalizedValue >= 1.0 ==> r == CriticalColor
    ensures Alpha(r) == 0xFF && Blue(r) == 0x40
    ensures Clamp01(normalizedValue) <= 0.5 ==> Green(r) == 0xFF
    ensures Clamp01(normalizedValue) >= 0.5 ==> Red(r) == 0xFF
  {
    var v := Clamp01(normalizedValue);
    AnchorChannels();
    ChannelsOfArgb(0xFF, 0x40, 0xFF, 0x40);
    ChannelsOfArgb(0xFF, 0xFF, 0xFF, 0x40);
    ChannelsOfArgb(0xFF, 0xFF, 0x40, 0x40);
    if v <= 0.5 then LerpColor(GoodColor, WarningColor, v * 2.0)
    else LerpColor(WarningColor, CriticalColor, (v - 0.5) * 2.0)
  }
}
