/** Operands of different types: the emitted helper is the left operand's, and converts
    the right one to its own parameter type. When that still gives what the
    interpreter gives. */
module MixedOperands {
  import opened Options
  import opened Widths
  import opened Arithmetic
  import opened ArithmeticTheorem

  /** When both sides agree on a right operand `b` of any 64-bit type: it is of the
      parameter's type already, or the conversion to `c` does not show. */
  predicate MixedFaithful(op: Op, w: Width, a: int, b: int)
    requires w.bits > 0
  {
    InRange(Param(w), b) ||
    var c := Cast(Param(w), b);
    match op
    case Add => w.bits < 64 && !InRange(w, a + c)
    case Sub => w.bits < 64 && !InRange(w, a - c)
    case Mul => a == 0 || (!InRange(w, a * c) && !(w == I64 && a == -1 && b == Pow2(63)))
    case Div => if w == U64 then a < -b else Abs(a) < Abs(c)
    case Mod =>
      if w == U64 then a < -b || (b < 0 && a >= c && Pow2(64) % -b == 0)
      else Abs(a) < Abs(c) || (-a == Pow2(63) && b == Pow2(63))
  }

  /** The widths' limits: `h` is half the 64-bit range. */
  predicate Limits(w: Width, h: int) {
    && h >= 0x4_0000_0000
    && Pow2(63) == h && Pow2(64) == 2 * h
    && (w.bits == 64 ==> Hi(w) == (if w.us then 2 * h - 1 else h - 1) && Lo(w) == (if w.us then 0 else -h))
    && (w.bits < 64 ==> -0x1_0000_0000 < Lo(w) <= 0 <= Hi(w) < 0x1_0000_0000)
  }

  lemma Pow34()
    ensures Pow2(32) == 0x1_0000_0000 && Pow2(34) == 0x4_0000_0000 && Pow2(31) == 0x8000_0000
  {
    assert Pow2(8) == 0x100;
    PowSum(8, 8);
    PowSum(16, 16);
  }

  lemma WidthLimits(w: Width)
    requires Known(w)
    ensures Limits(w, Pow2(63))
  {
    Pow34();
    PowMono(34, 63);
    if w.bits < 64 {
      PowMono(w.bits, 32);
      PowMono(w.bits - 1, 31);
    }
  }

  /** What is outside the parameter's type, and what the conversion makes of it. */
  predicate Outside(w: Width, b: int, c: int, h: int) {
    if w == U64 then -h <= b < 0 && c == b + 2 * h else h <= b < 2 * h && c == b - 2 * h
  }

  lemma OutsideParam(w: Width, b: int)
    requires Known(w) && Scalar(b) && !InRange(Param(w), b)
    ensures Outside(w, b, Cast(Param(w), b), Pow2(63))
  {
    Cast64(b);
    ScalarBounds(b);
  }

  // ---------- Down to exact results ----------

  lemma WideExact(op: Op, w: Width, a: int, b: int, c: int, h: int)
    requires Known(w) && Limits(w, h) && InRange(w, a) && Outside(w, b, c, h)
    ensures Cast(I128, Exact(op, a, b)) == Exact(op, a, b)
  {
    HalfSquared();
    hide Pow2, Quot;
    if op == Mul {
      AbsTimes(a, b);
      if w == U64 {
        TimesMono(Abs(a), Abs(b), 2 * h - 1, h);
      } else {
        TimesMono(Abs(a), Abs(b), h, 2 * h - 1);
      }
      Stretch(h);
    } else if op == Div || op == Mod {
      QuotBounds(a, b);
    }
    InWide(Exact(op, a, b));
  }

  lemma HalfSquared()
    ensures Pow2(127) == 2 * (Pow2(63) * Pow2(63)) && 4 * Pow2(64) <= Pow2(127)
  {
    PowSum(63, 63);
    PowMono(66, 127);
    assert Pow2(66) == 4 * Pow2(64) && Pow2(127) == 2 * Pow2(126);
  }

  lemma Stretch(h: int)
    ensures (2 * h - 1) * h == 2 * (h * h) - h && h * (2 * h - 1) == 2 * (h * h) - h
  {
  }

  lemma InWide(x: int)
    requires Abs(x) < Pow2(127)
    ensures Cast(I128, x) == x
  {
    CastInRange(I128, x);
  }

  /** Same value, or out of range on both sides. */
  predicate SameCheck(w: Width, x: int, y: int) { if InRange(w, x) then y == x else !InRange(w, y) }

  lemma DownToExact(op: Op, w: Width, a: int, b: int, c: int, h: int)
    requires Known(w) && Limits(w, h) && InRange(w, a) && Outside(w, b, c, h) && c == Cast(Param(w), b)
    ensures Interpreted(op, w, a, b) == Emitted(op, w, a, b) <==> SameCheck(w, Exact(op, a, b), Exact(op, a, c))
  {
    var x, y := Exact(op, a, b), Exact(op, a, c);
    WideExact(op, w, a, b, c, h);
    FitsIsRange(x, w);
    RangeIn64(w, a);
    CastInRange(Param(w), a);
    if InRange(w, y) {
      CastInRange(w, y);
    }
    if w == U64 && (op == Div || op == Mod) {
      QuotBounds(a, c);
    }
    hide Pow2, Quot;
  }

  // ---------- Each operator ----------

  lemma SumsDiffer(minus: bool, w: Width, a: int, b: int, c: int, h: int)
    requires Known(w) && Limits(w, h) && InRange(w, a) && Outside(w, b, c, h)
    ensures
      var x, y := if minus then a - b else a + b, if minus then a - c else a + c;
      SameCheck(w, x, y) <==> w.bits < 64 && !InRange(w, y)
  {
    hide Pow2, Lo, Hi;
  }

  lemma ProductsDiffer(w: Width, a: int, b: int, c: int, h: int)
    requires Known(w) && Limits(w, h) && InRange(w, a) && Outside(w, b, c, h)
    ensures SameCheck(w, a * b, a * c) <==> a == 0 || (!InRange(w, a * c) && !(w == I64 && a == -1 && b == h))
  {
    hide Pow2, Lo, Hi;
    AbsTimes(a, b);
    if a == 0 {
      assert a * b == 0 && a * c == 0;
    } else {
      TimesMono(1, Abs(b), Abs(a), Abs(b));
      Apart(a, b, c, 2 * h);
      if Abs(a) >= 2 {
        TimesMono(2, Abs(b), Abs(a), Abs(b));
      }
    }
  }

  lemma Apart(a: int, b: int, c: int, d: int)
    requires a != 0 && d > 0 && (c == b + d || c == b - d)
    ensures a * b != a * c
  {
    AbsTimes(a, c - b);
    assert a * c - a * b == a * (c - b);
    TimesMono(1, d, Abs(a), d);
  }

  /** A divisor larger than the dividend. */
  lemma QuotZero(a: int, b: int)
    requires b != 0
    ensures Quot(a, b) == 0 <==> Abs(a) < Abs(b)
    ensures Abs(a) < Abs(b) ==> a - Quot(a, b) * b == a
  {
    var q := Abs(a) / Abs(b);
    NatDiv(Abs(a), Abs(b));
    if Abs(a) < Abs(b) {
      if q >= 1 {
        TimesMono(1, Abs(b), q, Abs(b));
      }
      assert q == 0;
    }
  }

  lemma QuotientsDiffer(w: Width, a: int, b: int, c: int, h: int)
    requires Known(w) && Limits(w, h) && InRange(w, a) && Outside(w, b, c, h)
    ensures SameCheck(w, Quot(a, b), Quot(a, c)) <==> if w == U64 then a < -b else Abs(a) < Abs(c)
  {
    QuotZero(a, b);
    QuotZero(a, c);
    QuotBounds(a, c);
    if w != U64 && Abs(a) >= Abs(b) {
      QuotOne(a, b);
      QuotOne(a, c);
    }
    if w == U64 && a >= -b {
      QuotSign(a, b);
    }
    hide Pow2, Lo, Hi, Quot;
  }

  lemma QuotSign(a: int, b: int)
    requires a >= 0 && b < 0
    ensures Quot(a, b) <= 0
  {
    var q: nat := Abs(a) / Abs(b);
    QuotTimes(a, b);
    NatDiv(Abs(a), Abs(b));
    hide Pow2;
    assert Quot(a, b) == 0 - q;
  }

  /** Equal in size: the quotient is one, with a sign. */
  lemma QuotOne(a: int, b: int)
    requires b != 0 && Abs(a) == Abs(b)
    ensures Quot(a, b) == if (a >= 0) == (b > 0) then 1 else -1
    ensures a - Quot(a, b) * b == 0
  {
    assert Abs(a) / Abs(b) == 1;
  }

  lemma RemaindersDiffer(w: Width, a: int, b: int, c: int, h: int)
    requires Known(w) && Limits(w, h) && w != U64 && InRange(w, a) && Outside(w, b, c, h)
    ensures SameCheck(w, a - Quot(a, b) * b, a - Quot(a, c) * c) <==> Abs(a) < Abs(c) || (-a == h && b == h)
  {
    QuotZero(a, b);
    QuotZero(a, c);
    QuotBounds(a, c);
    if -a == h && b == h {
      QuotOne(a, b);
      QuotOne(a, c);
    }
    var x, y := a - Quot(a, b) * b, a - Quot(a, c) * c;
    hide Pow2, Lo, Hi, Quot;
    assert !(-a == h && b == h) ==> x == a;
  }

  /** Remainders of two non-negative numbers. */
  lemma RemainderIs(a: nat, d: nat)
    requires d > 0
    ensures var m := -(d as int); a - Quot(a, d) * d == a % d && a - Quot(a, m) * m == a % d
  {
    var q, m := a / d, -(d as int);
    assert a == q * d + a % d;
    AbsTimes(-q, m);
    AbsTimes(q, d);
  }

  /** A remainder by the complement, for a number past it. */
  lemma Complement(a: nat, d: nat, n: nat)
    requires 0 < d && n - d <= a < n && d <= n
    ensures a % d == a - (n - d) <==> n % d == 0
  {
    var r := a - (n - d);
    if n % d == 0 {
      assert n == n / d * d;
      var q := n / d - 1;
      assert q * d == n - d;
      ModUnique(a, d, q, r);
    }
    if a % d == r {
      assert a == a / d * d + r;
      assert n == (a / d + 1) * d;
      ModUnique(n, d, a / d + 1, 0);
    }
  }

  lemma UnsignedRemaindersDiffer(a: int, b: int, c: int, h: int)
    requires Limits(U64, h) && InRange(U64, a) && Outside(U64, b, c, h)
    ensures SameCheck(U64, a - Quot(a, b) * b, a - Quot(a, c) * c)
      <==> a < -b || (a >= c && Pow2(64) % -b == 0)
  {
    var d := -b;
    RemainderIs(a, d);
    RemainderIs(a, c);
    if a < c {
      ModUnique(a, c, 0, a);
    } else {
      ModUnique(a, c, 1, a - c);
      Complement(a, d, 2 * h);
    }
    if a < d {
      ModUnique(a, d, 0, a);
    }
    hide Quot;
  }

  // ---------- The theorem ----------

  /** On a right operand of any 64-bit type the two sides agree exactly when
      `MixedFaithful` says so. */
  lemma MixedAgrees(op: Op, w: Width, a: int, b: int)
    requires Known(w) && InRange(w, a) && Scalar(b)
    ensures Interpreted(op, w, a, b) == Emitted(op, w, a, b) <==> MixedFaithful(op, w, a, b)
  {
    if InRange(Param(w), b) {
      CheckedAgrees(op, w, a, b);
    } else {
      WidthLimits(w);
      OutsideParam(w, b);
      DownToExact(op, w, a, b, Cast(Param(w), b), Pow2(63));
      OutsideAgrees(op, w, a, b, Cast(Param(w), b), Pow2(63));
    }
  }

  lemma OutsideAgrees(op: Op, w: Width, a: int, b: int, c: int, h: int)
    requires Known(w) && Limits(w, h) && InRange(w, a) && Outside(w, b, c, h)
    requires c == Cast(Param(w), b) && !InRange(Param(w), b)
    ensures SameCheck(w, Exact(op, a, b), Exact(op, a, c)) <==> MixedFaithful(op, w, a, b)
  {
    hide SameCheck, Cast, InRange, Pow2, Quot;
    match op
    case Add => SumsDiffer(false, w, a, b, c, h);
    case Sub => SumsDiffer(true, w, a, b, c, h);
    case Mul => ProductsDiffer(w, a, b, c, h);
    case Div => QuotientsDiffer(w, a, b, c, h);
    case Mod =>
      if w == U64 {
        UnsignedRemaindersDiffer(a, b, c, h);
      } else {
        RemaindersDiffer(w, a, b, c, h);
      }
  }
}
