/** What the `bit` builtins give, bit by bit and in numbers. */
module BitMeaning {
  import opened Options
  import opened Widths
  import opened Arithmetic
  import opened ArithmeticTheorem
  import opened BitBuiltins

  /** Whether bit `k` is set. */
  predicate BitAt(x: nat, k: nat) { x / Pow2(k) % 2 == 1 }

  lemma {:induction false} BitsAt(op: BitOp, a: nat, b: nat, k: nat)
    ensures
      BitAt(Bits(op, a, b), k) <==>
        match op
        case And => BitAt(a, k) && BitAt(b, k)
        case Or => BitAt(a, k) || BitAt(b, k)
        case Xor => BitAt(a, k) != BitAt(b, k)
    decreases k
  {
    if k == 0 {
      BitsLow(op, a, b);
    } else {
      BitsLow(op, a, b);
      Deeper(a, k);
      Deeper(b, k);
      Deeper(Bits(op, a, b), k);
      BitsAt(op, a / 2, b / 2, k - 1);
    }
  }

  lemma BitsLow(op: BitOp, a: nat, b: nat)
    ensures Bits(op, a, b) / 2 == Bits(op, a / 2, b / 2)
    ensures
      Bits(op, a, b) % 2 == 1 <==>
        match op
        case And => a % 2 == 1 && b % 2 == 1
        case Or => a % 2 == 1 || b % 2 == 1
        case Xor => (a % 2 == 1) != (b % 2 == 1)
  {
  }

  lemma Deeper(x: nat, k: nat)
    requires k > 0
    ensures BitAt(x, k) <==> BitAt(x / 2, k - 1)
  {
    var p := Pow2(k - 1);
    Halves(x, p);
  }

  lemma Halves(x: nat, p: nat)
    requires p > 0
    ensures x / (2 * p) == x / 2 / p
  {
    var q, r := x / 2 / p, x / 2 % p;
    assert x / 2 == q * p + r;
    assert x == q * (2 * p) + (2 * r + x % 2) by {
      assert q * (2 * p) == 2 * (q * p);
    }
    ModUnique(x, 2 * p, q, 2 * r + x % 2);
  }

  /** `and`, `or` and `xor` on the numbers' bits, those of a negative number being its
      residue's. */
  lemma BitwiseMeans(op: BitOp, w: Width, a: int, b: int, k: nat)
    requires BitWidth(w) && k < w.bits
    ensures RunBits(op, w, a, b) == EmitBits(op, w, a, b) && InRange(w, RunBits(op, w, a, b))
    ensures
      var x, y := BitAt(a % Pow2(w.bits), k), BitAt(b % Pow2(w.bits), k);
      BitAt(RunBits(op, w, a, b) % Pow2(w.bits), k) <==>
        match op
        case And => x && y
        case Or => x || y
        case Xor => x != y
  {
    BitsAgree(op, w, a, b);
    var m := Pow2(w.bits);
    var ua, ub := a % m, b % m;
    BitsAt(op, ua, ub, k);
    BitsBelow(op, ua, ub, w.bits);
    var r := Bits(op, ua, ub);
    CastIsResidue(w, r);
    CongruentIsMod(Cast(w, r), r, w.bits);
    ModUnique(r, m, 0, r);
  }

  /** The complement is what all ones exceed the number by; of a signed number, one less
      than its negation. */
  lemma ComplementMeans(w: Width, a: int)
    requires BitWidth(w) && InRange(w, a)
    ensures RunNot(w, a) == EmitNot(w, a) == if w.us then Pow2(w.bits) - 1 - a else -a - 1
  {
    NotAgrees(w, a);
    var m := Pow2(w.bits);
    var u := Cast(Unsigned(w), a);
    ModUnique(a, m, if a < 0 then -1 else 0, if a < 0 then a + m else a);
    assert u == if a < 0 then a + m else a;
    var r := if w.us then m - 1 - a else -a - 1;
    var f := m - 1 - u;
    ModUnique(f, m, 0, f);
  }

  /** A left shift within the width multiplies by a power of two and keeps the residue
      that is in range; any other count panics. */
  lemma LeftShiftMeans(w: Width, a: int, n: int)
    requires BitWidth(w) && InRange(w, a) && InRange(I32, n)
    ensures RunShl(w, a, n) == EmitShl(w, a, n)
    ensures
      if 0 <= n < w.bits then
        && RunShl(w, a, n).Some? && InRange(w, RunShl(w, a, n).value)
        && RunShl(w, a, n).value % Pow2(w.bits) == a * Pow2(n) % Pow2(w.bits)
      else RunShl(w, a, n).None?
  {
    RangeIn64(I32, n);
    ShlAgrees(w, a, n);
    Count(w, n);
    if 0 <= n < w.bits {
      var m := Pow2(w.bits);
      MaskRange(w, a);
      ShiftedResidue(w, a, n);
      var ua := Mask(w, a);
      var x := Up(ua, n);
      UpIsTimes(ua, n);
      var r := RunShl(w, a, n).value;
      CastIsResidue(w, Cast(Unsigned(w), x));
      CastIsResidue(Unsigned(w), x);
      CastIsResidue(Unsigned(w), a);
      CastInRange(w, a);
      ShiftResidue(a, ua, n, w.bits);
      CongruentIsMod(Cast(Unsigned(w), x), x, w.bits);
      CongruentIsMod(Cast(w, Cast(Unsigned(w), x)), Cast(Unsigned(w), x), w.bits);
    }
  }

  lemma ShiftResidue(a: int, u: int, n: nat, k: nat)
    requires Congruent(u, a, k)
    ensures u * Pow2(n) % Pow2(k) == a * Pow2(n) % Pow2(k)
  {
    var q :| u == a + q * Pow2(k);
    var p, m := Pow2(n), Pow2(k);
    Spread(a, q, m, p);
    hide Pow2;
    CongruentBy(u * p, a * p, q * p, k);
  }

  lemma Spread(a: int, q: int, m: int, p: int)
    ensures (a + q * m) * p == a * p + (q * p) * m
  {
    assert (a + q * m) * p == a * p + (q * m) * p;
    assert (q * m) * p == q * (m * p) && (q * p) * m == q * (p * m);
  }

  lemma CongruentBy(x: int, y: int, q: int, k: nat)
    requires x == y + q * Pow2(k)
    ensures x % Pow2(k) == y % Pow2(k)
  {
    assert Congruent(x, y, k);
    CongruentIsMod(x, y, k);
  }

  /** A right shift within the width divides by a power of two and rounds down. */
  lemma RightShiftMeans(w: Width, a: int, n: int)
    requires BitWidth(w) && InRange(w, a) && InRange(I32, n)
    ensures RunShr(w, a, n) == EmitShr(w, a, n)
    ensures
      if 0 <= n < w.bits then
        RunShr(w, a, n).Some? && RunShr(w, a, n).value * Pow2(n) <= a < (RunShr(w, a, n).value + 1) * Pow2(n)
      else RunShr(w, a, n).None?
  {
    hide RunShr, Down, Pow2, Cast, Scalar, Lo, Hi;
    RangeIn64(I32, n);
    ShrAgrees(w, a, n);
    Count(w, n);
    CastInRange(w, a);
    if 0 <= n < w.bits {
      DownIsDivision(a, n);
      DownStays(w, a, n);
      CastInRange(w, Down(a, n));
      var r, p := Down(a, n), Pow2(n);
      assert (r + 1) * p == r * p + p;
    }
  }

  lemma DownStays(w: Width, a: int, n: nat)
    requires InRange(w, a)
    ensures InRange(w, Down(a, n))
  {
  }
}
