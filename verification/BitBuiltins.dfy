/** The `bit` builtins at 32 and 64 bits: the interpreter masks 128-bit values, the
    emitted code converts to C's types. */
module BitBuiltins {
  import opened Options
  import opened Widths
  import opened Arithmetic
  import opened ArithmeticTheorem

  /** The builtins come in two widths, 32 and 64; nothing here needs that. */
  predicate BitWidth(w: Width) { 0 < w.bits <= 64 }

  function Unsigned(w: Width): Width { Width(w.bits, true) }

  /** The complement of a number of `k` bits. */
  function Flip(a: nat, k: nat): nat
    requires a < Pow2(k)
  {
    Pow2(k) - 1 - a
  }

  /** `n` bits to the right, rounding down. */
  function Down(x: int, n: nat): (r: int)
    ensures if x >= 0 then 0 <= r <= x else x <= r < 0
    decreases n
  {
    if n == 0 then x else Down(x / 2, n - 1)
  }

  /** `n` bits to the left. */
  function Up(x: nat, n: nat): nat
    decreases n
  {
    if n == 0 then x else Up(2 * x, n - 1)
  }

  // ---------- The interpreter ----------

  function Mask(w: Width, x: int): nat
    requires w.bits > 0
  {
    Bits(And, Cast(U128, x), Pow2(w.bits) - 1)
  }

  /** The low bits of `r`, read with the sign of the width. */
  function Fold(w: Width, r: nat): int
    requires w.bits > 0
  {
    if w.us then Bits(And, r, Pow2(w.bits) - 1)
    else if r >= Pow2(w.bits - 1) then r - Pow2(w.bits) else r
  }

  function RunBits(op: BitOp, w: Width, a: int, b: int): int
    requires BitWidth(w)
  {
    Fold(w, Bits(op, Mask(w, a), Mask(w, b)))
  }

  function RunNot(w: Width, a: int): int
    requires BitWidth(w)
  {
    MaskRange(w, a);
    PowMono(w.bits, 128);
    Fold(w, Bits(And, Flip(Mask(w, a), 128), Pow2(w.bits) - 1))
  }

  function RunShl(w: Width, a: int, b: int): Option<int>
    requires BitWidth(w)
  {
    var n := Cast(I64, b);
    if n < 0 || n >= w.bits then None
    else Some(Fold(w, Bits(And, Cast(U128, Up(Mask(w, a), n)), Pow2(w.bits) - 1)))
  }

  function RunShr(w: Width, a: int, b: int): Option<int>
    requires BitWidth(w)
  {
    var n := Cast(I64, b);
    if n < 0 || n >= w.bits then None
    else Some(ShrOf(w, Mask(w, a), n))
  }

  function ShrOf(w: Width, ua: nat, n: nat): int
    requires BitWidth(w)
  {
    if w.us then Fold(w, Down(ua, n))
    else Down(if ua >= Pow2(w.bits - 1) then ua - Pow2(w.bits) else ua, n)
  }

  // ---------- The emitted code ----------

  function EmitBits(op: BitOp, w: Width, a: int, b: int): int
    requires BitWidth(w)
  {
    Cast(w, Bits(op, Cast(Unsigned(w), a), Cast(Unsigned(w), b)))
  }

  function EmitNot(w: Width, a: int): int
    requires BitWidth(w)
  {
    Cast(w, Flip(Cast(Unsigned(w), a), w.bits))
  }

  function EmitShl(w: Width, a: int, b: int): Option<int>
    requires BitWidth(w)
  {
    var n := Cast(I32, b);
    if n < 0 || n >= w.bits then None
    else Some(Cast(w, Cast(Unsigned(w), Up(Cast(Unsigned(w), Cast(w, a)), n))))
  }

  /** C's right shift of a negative number rounds down. */
  function EmitShr(w: Width, a: int, b: int): Option<int>
    requires BitWidth(w)
  {
    var n := Cast(I32, b);
    if n < 0 || n >= w.bits then None else Some(Cast(w, Down(Cast(w, a), n)))
  }

  // ---------- They agree ----------

  /** Shifts are powers of two. */
  lemma {:induction false} UpIsTimes(x: nat, n: nat)
    ensures Up(x, n) == x * Pow2(n)
    decreases n
  {
    if n > 0 {
      UpIsTimes(2 * x, n - 1);
    }
  }

  lemma {:induction false} DownIsDivision(x: int, n: nat)
    ensures Down(x, n) * Pow2(n) <= x < Down(x, n) * Pow2(n) + Pow2(n)
    decreases n
  {
    if n > 0 {
      DownIsDivision(x / 2, n - 1);
      Doubled(Down(x, n), Pow2(n - 1));
    }
  }

  lemma Doubled(d: int, p: int)
    ensures d * (2 * p) == 2 * (d * p)
  {
  }

  lemma MaskRange(w: Width, x: int)
    requires 0 < w.bits <= 128
    ensures Mask(w, x) == Cast(Unsigned(w), x) && Mask(w, x) < Pow2(w.bits)
  {
    var u := Cast(U128, x);
    MaskCast(w, u);
    CastIsResidue(U128, x);
    CongruentNarrow(u, x, w.bits, 128);
    CongruentIsMod(u, x, w.bits);
  }

  lemma FoldIsCast(w: Width, r: nat)
    requires w.bits > 0 && r < Pow2(w.bits)
    ensures Fold(w, r) == Cast(w, r)
  {
    MaskCast(w, r);
    ModUnique(r, Pow2(w.bits), 0, r);
  }

  /** `and`, `or`, `xor` and `not` agree on all values. */
  lemma BitsAgree(op: BitOp, w: Width, a: int, b: int)
    requires BitWidth(w)
    ensures RunBits(op, w, a, b) == EmitBits(op, w, a, b)
  {
    MaskRange(w, a);
    MaskRange(w, b);
    BitsBelow(op, Mask(w, a), Mask(w, b), w.bits);
    FoldIsCast(w, Bits(op, Mask(w, a), Mask(w, b)));
  }

  lemma NotAgrees(w: Width, a: int)
    requires BitWidth(w)
    ensures RunNot(w, a) == EmitNot(w, a)
  {
    MaskRange(w, a);
    PowMono(w.bits, 128);
    var ua := Mask(w, a);
    FlipMasked(w, ua);
    FoldIsCast(w, Flip(ua, w.bits));
  }

  /** The low bits of the 128-bit complement are the narrow complement. */
  lemma FlipMasked(w: Width, u: nat)
    requires BitWidth(w) && u < Pow2(w.bits) <= Pow2(128)
    ensures Bits(And, Flip(u, 128), Pow2(w.bits) - 1) == Flip(u, w.bits)
  {
    MaskCast(w, Flip(u, 128));
    PowSum(128 - w.bits, w.bits);
    FlipLow(u, Pow2(128 - w.bits), Pow2(w.bits));
  }

  lemma FlipLow(u: nat, p: nat, m: nat)
    requires u < m && p > 0
    ensures (p * m - 1 - u) % m == m - 1 - u
  {
    ModUnique(p * m - 1 - u, m, p - 1, m - 1 - u);
  }

  /** When a shift count means the same on both sides: it is a 32-bit value, or what
      its low 32 bits say is out of range as well. */
  predicate CountFaithful(w: Width, b: int) { InRange(I32, b) || !(0 <= Cast(I32, b) < w.bits) }

  lemma Count(w: Width, b: int)
    requires BitWidth(w) && Scalar(b)
    ensures InRange(I32, b) ==> Cast(I32, b) == b && Cast(I64, b) == b
    ensures !InRange(I32, b) ==> !(0 <= Cast(I64, b) < w.bits)
  {
    Cast64(b);
    ScalarBounds(b);
    if InRange(I32, b) {
      CastInRange(I32, b);
      PowMono(31, 63);
    } else {
      PowMono(6, 31);
    }
  }

  lemma ShiftedResidue(w: Width, a: int, n: nat)
    requires BitWidth(w) && n < w.bits
    ensures Bits(And, Cast(U128, Up(Mask(w, a), n)), Pow2(w.bits) - 1)
         == Cast(Unsigned(w), Up(Cast(Unsigned(w), Cast(w, a)), n))
  {
    MaskRange(w, a);
    var x := Up(Mask(w, a), n);
    MaskRange(w, x);
    CastIsResidue(w, a);
    CastCongruent(Unsigned(w), Cast(w, a), a);
  }

  /** Left shifts agree, panics included, exactly for a count that means the same. */
  lemma ShlAgrees(w: Width, a: int, b: int)
    requires BitWidth(w) && Scalar(b)
    ensures RunShl(w, a, b) == EmitShl(w, a, b) <==> CountFaithful(w, b)
  {
    Count(w, b);
    if InRange(I32, b) && 0 <= b < w.bits {
      ShlValue(w, a, b);
    }
  }

  lemma ShlValue(w: Width, a: int, n: nat)
    requires BitWidth(w) && n < w.bits
    ensures Fold(w, Bits(And, Cast(U128, Up(Mask(w, a), n)), Pow2(w.bits) - 1))
         == Cast(w, Cast(Unsigned(w), Up(Cast(Unsigned(w), Cast(w, a)), n)))
  {
    ShiftedResidue(w, a, n);
    var x := Up(Cast(Unsigned(w), Cast(w, a)), n);
    CastIsResidue(Unsigned(w), x);
    FoldIsCast(w, Cast(Unsigned(w), x));
  }

  /** Right shifts agree likewise, signed ones rounding down on both sides. */
  lemma ShrAgrees(w: Width, a: int, b: int)
    requires BitWidth(w) && Scalar(b)
    ensures RunShr(w, a, b) == EmitShr(w, a, b) <==> CountFaithful(w, b)
  {
    Count(w, b);
    if InRange(I32, b) && 0 <= b < w.bits {
      ShrValue(w, a, b);
    }
  }

  lemma ShrValue(w: Width, a: int, n: nat)
    requires BitWidth(w) && n < w.bits
    ensures Cast(w, Down(Cast(w, a), n)) == ShrOf(w, Mask(w, a), n)
  {
    MaskRange(w, a);
    CastIsResidue(w, a);
    CastInRange(w, Down(Cast(w, a), n));
    if w.us {
      FoldIsCast(w, Down(Cast(w, a), n));
    }
  }
}
