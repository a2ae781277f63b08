/** Integer widths, C's conversions between them, and bitwise operations on natural
    numbers, bit by bit. */
module Widths {
  /** 8, 16, 32 or 64 bits, signed or unsigned. */
  datatype Width = Width(bits: nat, us: bool)

  const I64 := Width(64, false)
  const U64 := Width(64, true)
  const I32 := Width(32, false)

  predicate Known(w: Width) { w.bits == 8 || w.bits == 16 || w.bits == 32 || w.bits == 64 }

  function Pow2(k: nat): (p: nat)
    ensures p > 0
  {
    if k == 0 then 1 else 2 * Pow2(k - 1)
  }

  function Lo(w: Width): int { if w.us || w.bits == 0 then 0 else -(Pow2(w.bits - 1) as int) }

  function Hi(w: Width): int {
    if w.us then Pow2(w.bits) - 1 else if w.bits == 0 then 0 else Pow2(w.bits - 1) - 1
  }

  predicate InRange(w: Width, x: int) { Lo(w) <= x <= Hi(w) }

  /** The value of a 64-bit integer of either sign. */
  predicate Scalar(x: int) { InRange(I64, x) || InRange(U64, x) }

  /** C's conversion to the type of width `w`, which keeps the low bits. */
  function Cast(w: Width, x: int): int
    requires w.bits > 0
  {
    var r := x % Pow2(w.bits);
    if w.us || r < Pow2(w.bits - 1) then r else r - Pow2(w.bits)
  }

  // ---------- Residues ----------

  lemma {:induction false} PowMono(j: nat, k: nat)
    requires j <= k
    ensures Pow2(j) <= Pow2(k)
  {
    if j < k {
      PowMono(j, k - 1);
    }
  }

  lemma {:induction false} PowSum(a: nat, b: nat)
    ensures Pow2(a + b) == Pow2(a) * Pow2(b)
  {
    if a > 0 {
      PowSum(a - 1, b);
    }
  }

  /** `x` and `y` differ by a multiple of two to the `k`. */
  ghost predicate Congruent(x: int, y: int, k: nat) { exists q: int :: x == y + q * Pow2(k) }

  lemma CongruentIsMod(x: int, y: int, k: nat)
    ensures Congruent(x, y, k) <==> x % Pow2(k) == y % Pow2(k)
  {
    var m := Pow2(k);
    if Congruent(x, y, k) {
      var q :| x == y + q * Pow2(k);
      ModUnique(y + q * m, m, y / m + q, y % m);
    }
    if x % m == y % m {
      var q := x / m - y / m;
      assert x == y + q * m;
    }
  }

  /** Division with remainder is unique. */
  lemma ModUnique(x: int, m: nat, q: int, r: nat)
    requires m > 0 && r < m && x == q * m + r
    ensures x % m == r && x / m == q
  {
    var d := x / m - q;
    assert d * m == r - x % m;
    Multiple(d, m);
  }

  lemma Multiple(q: int, m: nat)
    requires m > 0
    ensures if q == 0 then q * m == 0 else if q > 0 then q * m >= m else -(q * m) >= m
  {
  }

  lemma CongruentTrans(x: int, y: int, z: int, k: nat)
    requires Congruent(x, y, k) && Congruent(y, z, k)
    ensures Congruent(x, z, k) && Congruent(z, x, k)
  {
    CongruentIsMod(x, y, k);
    CongruentIsMod(y, z, k);
    CongruentIsMod(x, z, k);
    CongruentIsMod(z, x, k);
  }

  /** Fewer bits: what holds modulo two to the `k` holds modulo a smaller power. */
  lemma CongruentNarrow(x: int, y: int, j: nat, k: nat)
    requires Congruent(x, y, k) && j <= k
    ensures Congruent(x, y, j)
  {
    var q :| x == y + q * Pow2(k);
    PowSum(k - j, j);
    assert x == y + (q * Pow2(k - j)) * Pow2(j) by {
      assert q * (Pow2(k - j) * Pow2(j)) == (q * Pow2(k - j)) * Pow2(j);
    }
  }

  lemma CongruentSum(a: int, b: int, x: int, y: int, k: nat, minus: bool)
    requires Congruent(a, x, k) && Congruent(b, y, k)
    ensures Congruent(if minus then a - b else a + b, if minus then x - y else x + y, k)
  {
    var q :| a == x + q * Pow2(k);
    var p :| b == y + p * Pow2(k);
    if minus {
      assert a - b == x - y + (q - p) * Pow2(k);
    } else {
      assert a + b == x + y + (q + p) * Pow2(k);
    }
  }

  lemma ModCongruent(x: int, k: nat)
    ensures Congruent(x % Pow2(k), x, k)
  {
    assert x % Pow2(k) == x + (-(x / Pow2(k))) * Pow2(k);
  }

  /** A conversion keeps the residue and lands in range; no other value does both. */
  lemma CastIsResidue(w: Width, x: int)
    requires w.bits > 0
    ensures InRange(w, Cast(w, x)) && Congruent(Cast(w, x), x, w.bits)
  {
    var m := Pow2(w.bits);
    ModCongruent(x, w.bits);
    assert m == 2 * Pow2(w.bits - 1);
    var q :| x % m == x + q * Pow2(w.bits);
    if Cast(w, x) != x % m {
      assert Cast(w, x) == x + (q - 1) * m;
    }
  }

  lemma RangeWidth(w: Width, x: int, y: int)
    requires w.bits > 0 && InRange(w, x) && InRange(w, y)
    ensures x - y < Pow2(w.bits)
  {
    assert Pow2(w.bits) == 2 * Pow2(w.bits - 1);
  }

  lemma ResidueUnique(w: Width, x: int, y: int)
    requires w.bits > 0 && InRange(w, x) && InRange(w, y) && Congruent(x, y, w.bits)
    ensures x == y
  {
    var q :| x == y + q * Pow2(w.bits);
    Multiple(q, Pow2(w.bits));
    RangeWidth(w, x, y);
    RangeWidth(w, y, x);
  }

  /** So two ways to the same residue give the same conversion. */
  lemma CastCongruent(w: Width, x: int, y: int)
    requires w.bits > 0 && Congruent(x, y, w.bits)
    ensures Cast(w, x) == Cast(w, y)
  {
    CongruentIsMod(x, y, w.bits);
  }

  lemma CastInRange(w: Width, x: int)
    requires w.bits > 0 && InRange(w, x)
    ensures Cast(w, x) == x
  {
    CastIsResidue(w, x);
    ResidueUnique(w, Cast(w, x), x);
  }

  // ---------- Bits ----------

  datatype BitOp = And | Or | Xor

  function Bit(op: BitOp, a: nat, b: nat): (r: nat)
    ensures r <= 1
  {
    match op
    case And => if a == 1 && b == 1 then 1 else 0
    case Or => if a == 1 || b == 1 then 1 else 0
    case Xor => if a != b then 1 else 0
  }

  function Bits(op: BitOp, a: nat, b: nat): nat
    decreases a + b
  {
    if a == 0 && b == 0 then 0 else Bit(op, a % 2, b % 2) + 2 * Bits(op, a / 2, b / 2)
  }

  lemma {:induction false} BitsBelow(op: BitOp, a: nat, b: nat, k: nat)
    requires a < Pow2(k) && b < Pow2(k)
    ensures Bits(op, a, b) < Pow2(k)
  {
    if k > 0 {
      BitsBelow(op, a / 2, b / 2, k - 1);
    }
  }

  lemma HalfMod(a: nat, m: nat)
    requires m > 0
    ensures a % (2 * m) == 2 * (a / 2 % m) + a % 2
  {
    var h := a / 2;
    assert a == 2 * h + a % 2;
    assert h == h / m * m + h % m;
    assert a == h / m * (2 * m) + (2 * (h % m) + a % 2) by {
      assert 2 * (h / m * m) == h / m * (2 * m);
    }
    ModUnique(a, 2 * m, h / m, 2 * (h % m) + a % 2);
  }

  /** Masking with the `k` low bits set is the remainder. */
  lemma {:induction false} MaskIsMod(a: nat, k: nat)
    ensures Bits(And, a, Pow2(k) - 1) == a % Pow2(k)
  {
    if k == 0 {
      AndZero(a);
    } else {
      MaskIsMod(a / 2, k - 1);
      HalfMod(a, Pow2(k - 1));
      var m := Pow2(k) - 1;
      assert m / 2 == Pow2(k - 1) - 1 && m % 2 == 1;
    }
  }

  lemma {:induction false} AndZero(a: nat)
    ensures Bits(And, a, 0) == 0
  {
    if a > 0 {
      AndZero(a / 2);
    }
  }

  lemma {:induction false} XorZero(a: nat)
    ensures Bits(Xor, a, 0) == a
  {
    if a > 0 {
      XorZero(a / 2);
    }
  }

  /** Flipping the top bit of a number of `k + 1` bits moves it by half the range. */
  lemma {:induction false} XorTop(a: nat, k: nat)
    requires a < Pow2(k + 1)
    ensures Bits(Xor, a, Pow2(k)) == if a < Pow2(k) then a + Pow2(k) else a - Pow2(k)
  {
    if k == 0 {
      assert Bits(Xor, 0, 0) == 0;
    } else {
      XorTop(a / 2, k - 1);
      assert Pow2(k) % 2 == 0 && Pow2(k) / 2 == Pow2(k - 1);
    }
  }
}
