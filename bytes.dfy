/**
 * Unsigned integers as the drivers handle them: bytes on the wire, powers of two
 * for shifts and masks, bitwise AND/OR on naturals, and big-endian byte order.
 * A shift `x << k` is written `x * Pow2(k)`, a shift `x >> k` is `x / Pow2(k)`.
 */
module Bytes {

  /** One octet on the serial bus. */
  type byte = b: int | 0 <= b < 256

  /** The largest value of a `u32`, plus one. */
  const U32_LIMIT: nat := 0x1_0000_0000

  function Pow2(k: nat): (p: nat)
    ensures p >= 1
  {
    if k == 0 then 1 else 2 * Pow2(k - 1)
  }

  lemma {:induction false} Pow2Add(a: nat, b: nat)
    ensures Pow2(a + b) == Pow2(a) * Pow2(b)
  {
    if a > 0 {
      Pow2Add(a - 1, b);
      calc {
        Pow2(a + b);
        2 * Pow2(a - 1 + b);
        2 * (Pow2(a - 1) * Pow2(b));
        (2 * Pow2(a - 1)) * Pow2(b);
      }
    }
  }

  lemma {:induction false} Pow2Monotone(a: nat, b: nat)
    requires a <= b
    ensures Pow2(a) <= Pow2(b)
  {
    if a < b {
      Pow2Monotone(a, b - 1);
    }
  }

  /** Pow2(8 * n) is 256 multiplied n times: one byte more is eight bits more. */
  lemma Pow2Byte(n: nat)
    ensures Pow2(8 * (n + 1)) == 256 * Pow2(8 * n)
  {
    Pow2Add(8, 8 * n);
    assert Pow2(8) == 256;
  }

  lemma Pow2Values()
    ensures Pow2(4) == 16 && Pow2(6) == 0x40 && Pow2(8) == 0x100
    ensures Pow2(16) == 0x1_0000 && Pow2(24) == 0x100_0000 && Pow2(32) == U32_LIMIT
  {
    Pow2Add(8, 8);
    Pow2Add(16, 8);
    Pow2Add(16, 16);
  }

  lemma {:induction false} MulAtLeast(d: nat, m: nat)
    requires d >= 1
    ensures d * m >= m
  {
    if d > 1 {
      MulAtLeast(d - 1, m);
      assert d * m == (d - 1) * m + m;
    }
  }

  /** Euclidean quotient and remainder are determined by any decomposition `x == q * m + r`. */
  lemma DivModUnique(x: int, m: int, q: int, r: int)
    requires m > 0 && 0 <= r < m && x == q * m + r
    ensures x / m == q && x % m == r
  {
    var q', r' := x / m, x % m;
    assert x == q' * m + r';
    if q > q' {
      MulAtLeast(q - q', m);
    } else if q < q' {
      MulAtLeast(q' - q, m);
    }
  }

  /** Truncating a value that already fits changes nothing. */
  lemma ModFits(x: nat, m: nat)
    requires x < m
    ensures x % m == x
  {
  }

  /** Halving, reducing modulo m and doubling back, plus the low bit, is reducing modulo 2m. */
  lemma ModDouble(x: nat, m: nat)
    requires m > 0
    ensures x % (2 * m) == 2 * ((x / 2) % m) + x % 2
  {
    var h, b := x / 2, x % 2;
    var q, r := h / m, h % m;
    assert x == 2 * h + b;
    assert h == q * m + r;
    assert x == q * (2 * m) + (2 * r + b);
    DivModUnique(x, 2 * m, q, 2 * r + b);
  }

  /** `x & y` on unsigned values. */
  function BitAnd(a: nat, b: nat): nat
    decreases a
  {
    if a == 0 || b == 0 then 0
    else 2 * BitAnd(a / 2, b / 2) + (if a % 2 == 1 && b % 2 == 1 then 1 else 0)
  }

  /** AND with an even mask shifts out the low bit of both sides. */
  lemma AndEven(a: nat, b: nat)
    requires b % 2 == 0
    ensures BitAnd(a, b) == 2 * BitAnd(a / 2, b / 2)
  {
  }

  /** Halving twice is dividing by four. */
  lemma Quarter(x: nat)
    ensures x / 2 / 2 == x / 4
  {
    var h := x / 2;
    assert x == 4 * (h / 2) + (2 * (h % 2) + x % 2);
    DivModUnique(x, 4, h / 2, 2 * (h % 2) + x % 2);
  }

  /** Dividing by four twice is dividing by sixteen. */
  lemma Sixteenth(x: nat)
    ensures x / 4 / 4 == x / 16
  {
    var h := x / 4;
    assert x == 16 * (h / 4) + (4 * (h % 4) + x % 4);
    DivModUnique(x, 16, h / 4, 4 * (h % 4) + x % 4);
  }

  /** `x | y` on unsigned values. */
  function BitOr(a: nat, b: nat): nat
    decreases a + b
  {
    if a == 0 then b
    else if b == 0 then a
    else 2 * BitOr(a / 2, b / 2) + (if a % 2 == 1 || b % 2 == 1 then 1 else 0)
  }

  /** One step of masking: the low bit of a mask 2m - 1 is set, the rest is m - 1. */
  lemma MaskStep(x: nat, m: nat)
    requires x > 0 && m >= 1
    ensures BitAnd(x, 2 * m - 1) == 2 * BitAnd(x / 2, m - 1) + x % 2
  {
    var mask := 2 * m - 1;
    assert mask / 2 == m - 1 && mask % 2 == 1;
  }

  /** Masking with k low one-bits keeps the value modulo 2^k. */
  lemma {:induction false} LowMask(x: nat, k: nat)
    ensures BitAnd(x, Pow2(k) - 1) == x % Pow2(k)
  {
    if k == 0 {
      assert Pow2(k) == 1;
    } else if x == 0 {
    } else {
      var m := Pow2(k - 1);
      var p := Pow2(k);
      assert p == 2 * m;
      calc {
        BitAnd(x, p - 1);
        { MaskStep(x, m); }
        2 * BitAnd(x / 2, m - 1) + x % 2;
        { LowMask(x / 2, k - 1); }
        2 * ((x / 2) % m) + x % 2;
        { ModDouble(x, m); }
        x % (2 * m);
      }
    }
  }

  /** OR-ing a value below 2^k into a multiple of 2^k is addition: the bits are disjoint. */
  lemma {:induction false} OrDisjoint(a: nat, c: nat, k: nat)
    requires a < Pow2(k)
    ensures BitOr(a, c * Pow2(k)) == a + c * Pow2(k)
  {
    if k > 0 && a > 0 && c > 0 {
      var m := Pow2(k - 1);
      assert c * Pow2(k) == 2 * (c * m);
      OrDisjoint(a / 2, c, k - 1);
    }
  }

  /** Setting bit k of a multiple of 2^(k+1) adds 2^k. */
  lemma OrLowBit(acc: nat, c: nat, k: nat)
    requires acc == c * Pow2(k + 1)
    ensures BitOr(acc, Pow2(k)) == acc + Pow2(k)
  {
    OrCommutes(acc, Pow2(k));
    OrDisjoint(Pow2(k), c, k + 1);
  }

  lemma {:induction false} OrCommutes(a: nat, b: nat)
    ensures BitOr(a, b) == BitOr(b, a)
    decreases a + b
  {
    if a != 0 && b != 0 {
      OrCommutes(a / 2, b / 2);
    }
  }

  /** The unsigned number whose big-endian bytes are `s`. */
  function BeValue(s: seq<byte>): (v: nat)
    ensures v < Pow2(8 * |s|)
  {
    if s == [] then 0
    else
      Pow2Byte(|s| - 1);
      BeValue(s[..|s| - 1]) * 256 + s[|s| - 1]
  }

  lemma ShiftMod(q: nat, r: nat, m: nat)
    requires r < 256 && m > 0
    ensures (q * 256 + r) % (256 * m) == (q % m) * 256 + r
  {
    assert q == (q / m) * m + q % m;
    assert q * 256 + r == (q / m) * (256 * m) + ((q % m) * 256 + r);
    assert (q % m) * 256 + r < 256 * m by {
      assert q % m <= m - 1;
    }
    DivModUnique(q * 256 + r, 256 * m, q / m, (q % m) * 256 + r);
  }

  /** Keeping a big-endian value modulo 2^(8k) keeps exactly its last k bytes. */
  lemma {:induction false} BeSuffix(s: seq<byte>, k: nat)
    requires k <= |s|
    ensures BeValue(s) % Pow2(8 * k) == BeValue(s[|s| - k..])
  {
    if k == 0 {
      assert s[|s|..] == [];
    } else {
      var init := s[..|s| - 1];
      var tail := s[|s| - k..];
      BeSuffix(init, k - 1);
      Pow2Byte(k - 1);
      ShiftMod(BeValue(init), s[|s| - 1], Pow2(8 * (k - 1)));
      assert tail[..|tail| - 1] == init[|init| - (k - 1)..];
      assert tail[|tail| - 1] == s[|s| - 1];
    }
  }

  /** Masking a big-endian value with 8k low one-bits keeps its last k bytes. */
  lemma MaskedSuffix(s: seq<byte>, k: nat)
    requires k <= |s|
    ensures BitAnd(BeValue(s), Pow2(8 * k) - 1) == BeValue(s[|s| - k..])
  {
    ByteMask(BeValue(s), k);
    BeSuffix(s, k);
  }

  lemma ByteMask(x: nat, k: nat)
    ensures BitAnd(x, Pow2(8 * k) - 1) == x % Pow2(8 * k)
  {
    LowMask(x, 8 * k);
  }

  /** Two byte strings that end in the same k bytes agree modulo 2^(8k). */
  lemma SameSuffix(s: seq<byte>, t: seq<byte>, k: nat)
    requires k <= |s| && k <= |t| && s[|s| - k..] == t[|t| - k..]
    ensures BeValue(s) % Pow2(8 * k) == BeValue(t) % Pow2(8 * k)
  {
    BeSuffix(s, k);
    BeSuffix(t, k);
  }

  /** Appending a byte shifts the value left by eight bits. */
  lemma BeSnoc(s: seq<byte>, b: byte)
    ensures BeValue(s + [b]) == BeValue(s) * 256 + b
  {
    assert (s + [b])[..|s|] == s;
  }

  /** The low n bytes of `d`, most significant first. */
  function BeBytes(d: nat, n: nat): (bytes: seq<byte>)
    ensures |bytes| == n && BeValue(bytes) == d % Pow2(8 * n)
  {
    if n == 0 then []
    else
      var init := BeBytes(d / 256, n - 1);
      BeSnoc(init, d % 256);
      Pow2Byte(n - 1);
      ShiftMod(d / 256, d % 256, Pow2(8 * (n - 1)));
      init + [d % 256]
  }

  /** The leading byte contributes its value times 2^(8(|s| - 1)), so it bounds the whole. */
  lemma {:induction false} LeadingByte(s: seq<byte>)
    requires |s| > 0
    ensures s[0] * Pow2(8 * (|s| - 1)) <= BeValue(s)
  {
    if |s| > 1 {
      var n := |s| - 2;
      var init := s[..|s| - 1];
      LeadingByte(init);
      assert init[0] == s[0] && |init| - 1 == n;
      Pow2Byte(n);
      ShiftBound(s[0], Pow2(8 * n), BeValue(init));
    }
  }

  lemma ShiftBound(a: nat, p: nat, x: nat)
    requires a * p <= x
    ensures a * (256 * p) <= x * 256
  {
  }

  lemma Pow2Bytes(n: nat)
    requires n <= 4
    ensures Pow2(8 * n) <= U32_LIMIT
  {
    Pow2Values();
    Pow2Monotone(8 * n, 32);
  }

  /** `u32::to_be_bytes`: the four bytes of `d`, most significant first. */
  function ToBeBytes(d: nat): (bytes: seq<byte>)
    requires d < U32_LIMIT
    ensures |bytes| == 4 && BeValue(bytes) == d
  {
    Pow2Values();
    ModFits(d, Pow2(8 * 4));
    BeBytes(d, 4)
  }
}
