/** Where the two sides agree: both panic, or both give the same value. */
module ArithmeticTheorem {
  import opened Options
  import opened Widths
  import opened Arithmetic

  // ---------- Ranges ----------

  lemma RangeIn64(w: Width, x: int)
    requires 0 < w.bits <= 64 && InRange(w, x)
    ensures InRange(Param(w), x) && Scalar(x)
  {
    if w.us {
      if w.bits < 64 {
        PowMono(w.bits, 63);
      }
    } else {
      PowMono(w.bits - 1, 63);
    }
  }

  lemma ScalarBounds(x: int)
    requires Scalar(x)
    ensures -(Pow2(63) as int) <= x < Pow2(64) && Pow2(64) == 2 * Pow2(63)
  {
  }

  lemma TimesMono(x: nat, y: nat, m: nat, n: nat)
    requires x <= m && y <= n
    ensures x * y <= m * n
  {
    assert m * n == x * n + (m - x) * n;
    assert x * n == x * y + x * (n - y);
  }

  lemma AbsTimes(a: int, b: int)
    ensures Abs(a * b) == Abs(a) * Abs(b)
    ensures a * b == if (a >= 0) == (b > 0) then Abs(a) * Abs(b) else -(Abs(a) * Abs(b))
  {
    TimesMono(0, 0, Abs(a), Abs(b));
    if a >= 0 && b <= 0 {
      assert a * b == -(a * (-b));
    } else if a < 0 && b > 0 {
      assert a * b == -((-a) * b);
    } else if a < 0 {
      assert a * b == (-a) * (-b);
    }
  }

  lemma NatDiv(n: nat, d: nat)
    requires d > 0
    ensures n / d * d <= n < n / d * d + d && n / d <= n
  {
    assert n == n / d * d + n % d;
    TimesMono(n / d, 1, n / d, d);
  }

  lemma QuotTimes(a: int, b: int)
    requires b != 0
    ensures var p := Abs(a) / Abs(b) * Abs(b); Quot(a, b) * b == if a >= 0 then p else -p
  {
    var q := Abs(a) / Abs(b);
    if b > 0 {
      assert (-q) * b == -(q * b);
    } else {
      assert q * b == -(q * (-b)) && (-q) * b == q * (-b);
    }
  }

  lemma QuotBounds(a: int, b: int)
    requires b != 0
    ensures Abs(Quot(a, b)) <= Abs(a) && Abs(a - Quot(a, b) * b) < Abs(b)
    ensures a >= 0 && b > 0 ==> Quot(a, b) >= 0 && a - Quot(a, b) * b >= 0
  {
    var q, p := Quot(a, b), Abs(a) / Abs(b) * Abs(b);
    NatDiv(Abs(a), Abs(b));
    QuotTimes(a, b);
    assert q * b == if a >= 0 then p else -p;
  }

  // ---------- Checked operators ----------

  /** A bound on what both operands can be. */
  function Side(w: Width): nat { if w == U64 then Pow2(64) else Pow2(63) }

  lemma ParamSide(w: Width, a: int)
    requires InRange(Param(w), a)
    ensures Abs(a) <= Side(w) && (w == U64 ==> a >= 0)
  {
  }

  lemma Wide(k: nat)
    requires k <= 126
    ensures 2 * Pow2(k) <= Pow2(127)
  {
    PowMono(k + 1, 127);
  }

  lemma SumFits(op: Op, w: Width, a: int, b: int)
    requires (op == Add || op == Sub) && InRange(Param(w), a) && InRange(Param(w), b)
    ensures Abs(Exact(op, a, b)) < Pow2(127)
  {
    ParamSide(w, a);
    ParamSide(w, b);
    SideFits(w);
  }

  lemma SideFits(w: Width)
    ensures 2 * Side(w) < Pow2(127)
  {
    PowMono(66, 127);
  }

  lemma QuotFits(op: Op, w: Width, a: int, b: int)
    requires (op == Div || op == Mod) && b != 0 && InRange(Param(w), a) && InRange(Param(w), b)
    ensures Abs(Exact(op, a, b)) < Pow2(127)
    ensures w == U64 ==> InRange(U64, Exact(op, a, b))
  {
    hide Quot, Pow2;
    ParamSide(w, a);
    ParamSide(w, b);
    Wide(63);
    Wide(64);
    QuotBounds(a, b);
  }

  lemma ProductFits(w: Width, a: int, b: int)
    requires w != U64 && InRange(I64, a) && InRange(I64, b)
    ensures Abs(a * b) < Pow2(127)
  {
    ParamSide(w, a);
    ParamSide(w, b);
    AbsTimes(a, b);
    TimesMono(Abs(a), Abs(b), Pow2(63), Pow2(63));
    PowSum(63, 63);
    Wide(126);
  }

  lemma Below(a: nat, b: nat, p: nat)
    requires a < p && b < p
    ensures a * b < p * p
  {
    TimesMono(a, b, p - 1, p);
    assert (p - 1) * p == p * p - p;
  }

  lemma UnsignedProduct(a: int, b: int)
    requires InRange(U64, a) && InRange(U64, b)
    ensures 0 <= a * b < Pow2(128)
  {
    Below(a, b, Pow2(64));
    PowSum(64, 64);
    TimesMono(0, 0, a, b);
  }

  /** Nothing but a U64 product leaves 128 bits, and that one turns negative. */
  lemma NoWideOverflow(op: Op, w: Width, a: int, b: int)
    requires InRange(Param(w), a) && InRange(Param(w), b) && ((op == Div || op == Mod) ==> b != 0)
    ensures var x, y := Exact(op, a, b), Cast(I128, Exact(op, a, b));
      y == x || (w == U64 && x >= Pow2(127) && y < 0)
  {
    var x := Exact(op, a, b);
    if op == Mul {
      if w == U64 {
        UnsignedProduct(a, b);
      } else {
        ProductFits(w, a, b);
      }
    } else if op == Div || op == Mod {
      QuotFits(op, w, a, b);
    } else {
      SumFits(op, w, a, b);
    }
    if Abs(x) < Pow2(127) {
      CastInRange(I128, x);
    } else {
      TopHalf(x);
    }
  }

  /** A product past 127 bits is seen as a negative number. */
  lemma TopHalf(x: int)
    requires Pow2(127) <= x < Pow2(128)
    ensures Cast(I128, x) < 0
  {
    ModUnique(x, Pow2(128), 0, x);
  }

  /** `+ - * / %` at every width, on operands of the helper's own type. */
  lemma CheckedAgrees(op: Op, w: Width, a: int, b: int)
    requires Known(w) && InRange(w, a) && InRange(Param(w), b)
    ensures Interpreted(op, w, a, b) == Emitted(op, w, a, b)
  {
    RangeIn64(w, a);
    CastInRange(Param(w), a);
    CastInRange(Param(w), b);
    if !((op == Div || op == Mod) && b == 0) {
      CheckedExact(op, w, a, b);
    }
  }

  lemma CheckedExact(op: Op, w: Width, a: int, b: int)
    requires Known(w) && InRange(Param(w), a) && InRange(Param(w), b) && ((op == Div || op == Mod) ==> b != 0)
    ensures CkInt(Cast(I128, Exact(op, a, b)), w) == EmittedCheck(op, w, Exact(op, a, b))
  {
    NoWideOverflow(op, w, a, b);
    CheckedResult(w, Exact(op, a, b), Cast(I128, Exact(op, a, b)));
    if op == Div || op == Mod {
      QuotFits(op, w, a, b);
    }
  }

  /** Once the exact result is known, checking it is the same on both sides. */
  lemma CheckedResult(w: Width, x: int, y: int)
    requires Known(w) && (y == x || (w == U64 && x >= Pow2(127) && y < 0))
    ensures CkInt(y, w) == if InRange(w, x) then Some(x) else None
    ensures InRange(w, x) ==> Cast(w, x) == x
  {
    FitsIsRange(y, w);
    PowMono(64, 127);
    if InRange(w, x) {
      CastInRange(w, x);
    }
  }

  /** A right operand of another type can be converted before it is added. */
  lemma MixedOperandsDiffer()
    ensures Interpreted(Add, U64, 5, -1) == Some(4) && Emitted(Add, U64, 5, -1) == None
  {
    Four();
    MinusOne();
    CastInRange(U64, 5);
  }

  lemma Four()
    ensures InRange(U64, 5) && Fits(4, U64) && Cast(I128, 4) == 4
  {
    PowMono(3, 64);
    PowMono(3, 127);
    CastInRange(I128, 4);
  }

  lemma MinusOne()
    ensures Cast(U64, -1) == Hi(U64)
  {
    ModUnique(-1, Pow2(64), -1, Pow2(64) - 1);
  }

  // ---------- Wrapping operators and negation ----------

  /** The 64-bit way to a sum has its residue. */
  lemma WrapWays(minus: bool, w: Width, a: int, b: int)
    requires Known(w)
    ensures EmittedWrap(minus, w, a, b) == Cast(w, if minus then a - b else a + b)
  {
    var x := if minus then a - b else a + b;
    var a', b' := Cast(U64, Cast(I64, a)), Cast(U64, Cast(I64, b));
    TwoCasts(a);
    TwoCasts(b);
    CongruentSum(a', b', a, b, 64, minus);
    var s := if minus then a' - b' else a' + b';
    CastIsResidue(U64, s);
    CastIsResidue(I64, Cast(U64, s));
    CongruentTrans(Cast(U64, s), s, x, 64);
    CongruentTrans(Cast(I64, Cast(U64, s)), Cast(U64, s), x, 64);
    if w.bits >= 64 {
      CastCongruent(w, Cast(I64, Cast(U64, s)), x);
    } else {
      MaskedIsCast(w, Cast(U64, s));
      CongruentNarrow(Cast(U64, s), x, w.bits, 64);
      CastCongruent(w, Cast(U64, s), x);
    }
  }

  lemma TwoCasts(x: int)
    ensures Congruent(Cast(U64, Cast(I64, x)), x, 64) && Congruent(Cast(I64, x), x, 64)
  {
    CastIsResidue(I64, x);
    CastIsResidue(U64, Cast(I64, x));
    CongruentTrans(Cast(U64, Cast(I64, x)), Cast(I64, x), x, 64);
  }

  /** Wrapping `+` and `-` agree at every width but I64, and there exactly when the
      result needs no wrapping. */
  lemma WrapAgrees(minus: bool, w: Width, a: int, b: int)
    requires Known(w)
    ensures InterpretedWrap(minus, w, a, b) == EmittedWrap(minus, w, a, b) <==>
      w != I64 || InRange(I64, if minus then a - b else a + b)
  {
    var x := if minus then a - b else a + b;
    WrapWays(minus, w, a, b);
    if w == I64 {
      CastIsResidue(I64, x);
      if InRange(I64, x) {
        CastInRange(I64, x);
      }
    } else {
      WrapIsCast(w, x);
    }
  }

  /** Negation agrees except for an unsigned zero, where the helper panics. */
  lemma NegAgrees(w: Width, a: int)
    requires Known(w) && InRange(w, a)
    ensures InterpretedNeg(w, a) == EmittedNeg(w, a) <==> !(w.us && a == 0)
  {
    FitsIsRange(-a, w);
    if !w.us {
      NegSigned(w, a);
    }
  }

  lemma NegSigned(w: Width, a: int)
    requires 0 < w.bits <= 64 && !w.us && InRange(w, a)
    ensures EmittedNeg(w, a) == if InRange(w, -a) then Some(-a) else None
  {
    PowMono(w.bits - 1, 63);
    CastInRange(I64, a);
    if InRange(w, -a) {
      CastInRange(w, -a);
    }
  }

  // ---------- Conversions ----------

  /** `as` keeps the residue; only a U64 value past the I64 range tells the two apart,
      and only as I64. */
  lemma AsAgrees(w: Width, v: int)
    requires Known(w)
    ensures WrapInt(v, w) == EmittedAs(w, v) <==> w != I64 || InRange(I64, v)
  {
    TwoCasts(v);
    CongruentNarrow(Cast(I64, v), v, w.bits, 64);
    CongruentNarrow(Cast(U64, Cast(I64, v)), v, w.bits, 64);
    if w.bits >= 64 {
      CastCongruent(w, Cast(I64, v), v);
    } else {
      MaskedIsCast(w, Cast(U64, Cast(I64, v)));
      CastCongruent(w, Cast(U64, Cast(I64, v)), v);
    }
    if w == I64 {
      CastIsResidue(I64, v);
      if InRange(I64, v) {
        CastInRange(I64, v);
      }
    } else {
      WrapIsCast(w, v);
    }
  }

  /** When the check of a declared width agrees: not for a negative value declared
      U64, nor for a value past the I64 range that turns into one of a signed width. */
  predicate DeclFaithful(w: Width, v: int) {
    if w.us then w == U64 ==> v >= 0 else InRange(I64, v) || !InRange(w, v - Pow2(64))
  }

  lemma DeclAgrees(w: Width, v: int)
    requires Known(w) && Scalar(v)
    ensures CkInt(v, w) == EmittedDecl(w, v) <==> DeclFaithful(w, v)
  {
    FitsIsRange(v, w);
    if w.us {
      DeclUnsigned(w, v);
    } else {
      DeclSigned(w, v);
    }
  }

  lemma DeclSigned(w: Width, v: int)
    requires 0 < w.bits <= 64 && !w.us && Scalar(v)
    ensures (if InRange(w, v) then Some(v) else None) == EmittedDecl(w, v) <==> DeclFaithful(w, v)
  {
    Cast64(v);
    PowMono(w.bits - 1, 63);
    if InRange(w, Cast(I64, v)) {
      CastInRange(w, Cast(I64, v));
    }
  }

  lemma DeclUnsigned(w: Width, v: int)
    requires 0 < w.bits <= 64 && w.us && Scalar(v)
    ensures (if InRange(w, v) then Some(v) else None) == EmittedDecl(w, v) <==> DeclFaithful(w, v)
  {
    ScalarBounds(v);
    Cast64(v);
    Cast64(Cast(I64, v));
    if w.bits < 64 {
      PowMono(w.bits, 63);
    }
    if InRange(w, v) {
      DeclKeeps(w, v);
    }
  }

  /** An unsigned value in range comes back as it was. */
  lemma DeclKeeps(w: Width, v: int)
    requires 0 < w.bits <= 64 && w.us && InRange(w, v) && Scalar(v)
    ensures EmittedDecl(w, v) == Some(v)
  {
    TwoCasts(v);
    CongruentNarrow(Cast(I64, v), v, w.bits, 64);
    CastCongruent(w, Cast(I64, v), v);
    CastInRange(w, v);
    PowMono(w.bits, 64);
    ResidueUnique(U64, Cast(U64, Cast(I64, v)), v) by {
      CastIsResidue(U64, Cast(I64, v));
    }
  }

  /** The 64-bit conversions of a 64-bit value, spelled out. */
  lemma Cast64(v: int)
    requires Scalar(v)
    ensures Cast(U64, v) == if v < 0 then v + Pow2(64) else v
    ensures Cast(I64, v) == if v < Pow2(63) then v else v - Pow2(64)
  {
    ScalarBounds(v);
    if v < 0 {
      ModUnique(v, Pow2(64), -1, v + Pow2(64));
    } else {
      ModUnique(v, Pow2(64), 0, v);
    }
  }
}
