/** `ColorUtils`: the four channels of a colour packed ARGB into a Java `int`
    (alpha in bits 24-31, red in 16-23, green in 8-15, blue in 0-7), each read off
    by an arithmetic shift right and a mask with 0xFF. */
module ColorUtils {
  import opened Arith

  /** A Java `int`: a 32-bit two's-complement integer. */
  type Int32 = x: int | -0x8000_0000 <= x < 0x8000_0000

  /** The 32-bit pattern of `x` read as an unsigned number. */
  function Unsigned(x: Int32): (u: nat)
    ensures u < 0x1_0000_0000
    ensures (u - x) % 0x1_0000_0000 == 0
  {
    if x < 0 then x + 0x1_0000_0000 else x
  }

  /** The Java `int` whose 32-bit pattern is `u`. */
  function Signed(u: nat): (x: Int32)
    requires u < 0x1_0000_0000
    ensures Unsigned(x) == u
  {
    if u < 0x8000_0000 then u else u - 0x1_0000_0000
  }

  /** Byte `i` (0 is the lowest) of the 32-bit pattern of `color`: the channel the
      ARGB layout keeps there. */
  function Byte(color: Int32, i: nat): int
    requires i < 4
  {
    (Unsigned(color) / Pow2(8 * i)) % 0x100
  }

  /** Java's `x >> n` on `int`: an arithmetic shift right, which is division by
      a power of two rounded down; only the low five bits of the distance count. */
  function ShiftRight(x: Int32, n: Int32): (r: Int32)
    ensures 0 <= x ==> 0 <= r <= x
    ensures x < 0 ==> x <= r < 0
  {
    DivBounds(x, Pow2(n % 32));
    x / Pow2(n % 32)
  }

  /** The low `n` bits of `a & b`, as an unsigned number, built bit by bit.
      Because `/` rounds down and `%` is never negative, `a % 2` and `a / 2` read
      the two's-complement bits of a negative `a` as well. */
  function AndBits(a: int, b: int, n: nat): (r: nat)
    ensures r < Pow2(n)
    decreases n
  {
    if n == 0 then 0 else 2 * AndBits(a / 2, b / 2, n - 1) + (a % 2) * (b % 2)
  }

  /** Java's `a & b` on `int`. */
  function BitAnd(a: Int32, b: Int32): Int32
  {
    Pow2Values();
    Signed(AndBits(a, b, 32))
  }

  /** Masking with `k` one-bits keeps `a` modulo `2^k`. */
  lemma {:induction false} AndLowMask(a: int, k: nat, n: nat)
    requires k <= n
    ensures AndBits(a, Pow2(k) - 1, n) == a % Pow2(k)
    decreases n
  {
    if n == 0 {
    } else if k == 0 {
      AndLowMask(a / 2, 0, n - 1);
    } else {
      var m := Pow2(k - 1);
      DivModUnique(Pow2(k) - 1, 2, m - 1, 1);
      AndLowMask(a / 2, k - 1, n - 1);
      DivDivMod(a, 2, m);
    }
  }

  /** `x & 0xFF` is the low byte of `x`, whatever its sign. */
  lemma MaskLowByte(x: Int32)
    ensures BitAnd(x, 0xFF) == x % 0x100
  {
    Pow2Values();
    AndLowMask(x, 8, 32);
  }

  /** Shifting right by `8 * k` and keeping the low byte reads byte `k` of the
      32-bit pattern, also for a negative colour. */
  lemma ShiftedByte(color: Int32, k: nat)
    requires 1 <= k < 4
    ensures ShiftRight(color, 8 * k) % 0x100 == Byte(color, k)
  {
    Pow2Values();
    var d := Pow2(8 * k);
    if color < 0 {
      var m := if k == 1 then 0x1_0000 else if k == 2 then 0x100 else 1;
      assert Unsigned(color) == color + d * 0x100 * m;
      ShiftAddMultiple(color, d, m);
    }
  }

  /** Adding a multiple of `d * 256` does not change byte `(x / d) % 256`. */
  lemma ShiftAddMultiple(x: int, d: int, m: int)
    requires 0 < d && 0 <= m
    ensures ((x + d * 0x100 * m) / d) % 0x100 == (x / d) % 0x100
  {
    var q := x / d;
    assert x + d * 0x100 * m == d * (q + 0x100 * m) + x % d;
    DivModUnique(x + d * 0x100 * m, d, q + 0x100 * m, x % d);
    DivModUnique(q + 0x100 * m, 0x100, q / 0x100 + m, q % 0x100);
  }

  /** `getRed`: bits 16-23. */
  function GetRed(color: Int32): (r: Int32)
    ensures 0 <= r <= 0xFF
    ensures r == Byte(color, 2)
  {
    MaskLowByte(ShiftRight(color, 16));
    ShiftedByte(color, 2);
    BitAnd(ShiftRight(color, 16), 0xFF)
  }

  /** `getGreen`: bits 8-15. */
  function GetGreen(color: Int32): (g: Int32)
    ensures 0 <= g <= 0xFF
    ensures g == Byte(color, 1)
  {
    MaskLowByte(ShiftRight(color, 8));
    ShiftedByte(color, 1);
    BitAnd(ShiftRight(color, 8), 0xFF)
  }

  /** `getBlue`: bits 0-7, so it depends on the low byte only. */
  function GetBlue(color: Int32): (b: Int32)
    ensures 0 <= b <= 0xFF
    ensures b == Byte(color, 0)
    ensures b == color % 0x100
  {
    MaskLowByte(color);
    LowByte(color);
    BitAnd(color, 0xFF)
  }

  /** Byte 0 of the 32-bit pattern is the remainder modulo 256, also for a negative value. */
  lemma LowByte(x: Int32)
    ensures Byte(x, 0) == x % 0x100
  {
  }

  /** `getAlpha`: bits 24-31. */
  function GetAlpha(color: Int32): (a: Int32)
    ensures 0 <= a <= 0xFF
    ensures a == Byte(color, 3)
  {
    MaskLowByte(ShiftRight(color, 24));
    ShiftedByte(color, 3);
    BitAnd(ShiftRight(color, 24), 0xFF)
  }

  /** For a negative colour the shift copies the sign bit into the high bits and
      yields a negative number; the mask removes those bits, so alpha is still a
      byte, and it is at least 128 exactly when the colour is negative. */
  lemma AlphaSign(color: Int32)
    ensures GetAlpha(color) >= 0x80 <==> color < 0
    ensures color < 0 ==> ShiftRight(color, 24) < 0 && GetAlpha(color) == ShiftRight(color, 24) + 0x100
  {
    Pow2Values();
    var u := Unsigned(color);
    var q: int := u / 0x100_0000;
    assert q < 0x100;
    DivModUnique(q, 0x100, 0, q);
    if color < 0 {
      var s := ShiftRight(color, 24);
      assert s == color / 0x100_0000;
      DivModUnique(color, 0x100_0000, q - 0x100, u % 0x100_0000);
    }
  }

  /** The four channels are exactly the four bytes of the colour. */
  lemma Reassembly(color: Int32)
    ensures GetAlpha(color) * 0x100_0000 + GetRed(color) * 0x1_0000
            + GetGreen(color) * 0x100 + GetBlue(color) == Unsigned(color)
  {
    Pow2Values();
    var u := Unsigned(color);
    DivModUnique(u, 1, u, 0);
    Digits(u);
  }

  /** A number below 2^32 is the sum of its four base-256 digits. */
  lemma Digits(u: nat)
    requires u < 0x1_0000_0000
    ensures (u / 0x100_0000) % 0x100 * 0x100_0000 + (u / 0x1_0000) % 0x100 * 0x1_0000
            + (u / 0x100) % 0x100 * 0x100 + u % 0x100 == u
  {
  }

  /** The ARGB colour with the given channels (the layout the getters read). */
  function Pack(alpha: int, red: int, green: int, blue: int): (color: Int32)
    requires 0 <= alpha <= 0xFF && 0 <= red <= 0xFF && 0 <= green <= 0xFF && 0 <= blue <= 0xFF
    ensures Unsigned(color) == alpha * 0x100_0000 + red * 0x1_0000 + green * 0x100 + blue
  {
    Signed(alpha * 0x100_0000 + red * 0x1_0000 + green * 0x100 + blue)
  }

  /** Packing four channels and extracting them gives the same channels back. */
  lemma ExtractPacked(alpha: int, red: int, green: int, blue: int)
    requires 0 <= alpha <= 0xFF && 0 <= red <= 0xFF && 0 <= green <= 0xFF && 0 <= blue <= 0xFF
    ensures var c := Pack(alpha, red, green, blue);
      GetAlpha(c) == alpha && GetRed(c) == red && GetGreen(c) == green && GetBlue(c) == blue
  {
    var c := Pack(alpha, red, green, blue);
    PackedBytes(c, alpha, red, green, blue);
  }

  lemma PackedBytes(c: Int32, alpha: int, red: int, green: int, blue: int)
    requires 0 <= alpha <= 0xFF && 0 <= red <= 0xFF && 0 <= green <= 0xFF && 0 <= blue <= 0xFF
    requires Unsigned(c) == alpha * 0x100_0000 + red * 0x1_0000 + green * 0x100 + blue
    ensures Byte(c, 3) == alpha && Byte(c, 2) == red && Byte(c, 1) == green && Byte(c, 0) == blue
  {
    Pow2Values();
    var u := Unsigned(c);
    DivModUnique(u, 0x100_0000, alpha, red * 0x1_0000 + green * 0x100 + blue);
    DivModUnique(alpha, 0x100, 0, alpha);
    DivModUnique(u, 0x1_0000, alpha * 0x100 + red, green * 0x100 + blue);
    DivModUnique(alpha * 0x100 + red, 0x100, alpha, red);
    DivModUnique(u, 0x100, alpha * 0x1_0000 + red * 0x100 + green, blue);
    DivModUnique(alpha * 0x1_0000 + red * 0x100 + green, 0x100, alpha * 0x100 + red, green);
    DivModUnique(u, 1, u, 0);
  }

  /** Extracting the four channels and packing them gives the colour back. */
  lemma PackExtracted(color: Int32)
    ensures Pack(GetAlpha(color), GetRed(color), GetGreen(color), GetBlue(color)) == color
  {
    Reassembly(color);
  }
}
