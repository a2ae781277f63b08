/** What the operators answer, in numbers: for both executions, at every width, on
    operands of the program's type. */
module OperatorMeaning {
  import opened Options
  import opened Syntax
  import opened Helpers
  import A = Arithmetic
  import ArithmeticTheorem
  import MixedOperands
  import W = Widths

  /** The range of each integer type. */
  predicate Within(w: W.Width, x: int) {
    match (w.bits, w.us)
    case (8, false) => -0x80 <= x <= 0x7f
    case (16, false) => -0x8000 <= x <= 0x7fff
    case (32, false) => -0x8000_0000 <= x <= 0x7fff_ffff
    case (_, false) => -0x8000_0000_0000_0000 <= x <= 0x7fff_ffff_ffff_ffff
    case (8, true) => 0 <= x <= 0xff
    case (16, true) => 0 <= x <= 0xffff
    case (32, true) => 0 <= x <= 0xffff_ffff
    case (_, true) => 0 <= x <= 0xffff_ffff_ffff_ffff
  }

  lemma Powers()
    ensures W.Pow2(7) == 0x80 && W.Pow2(8) == 0x100 && W.Pow2(15) == 0x8000 && W.Pow2(16) == 0x1_0000
    ensures W.Pow2(31) == 0x8000_0000 && W.Pow2(32) == 0x1_0000_0000
    ensures W.Pow2(63) == 0x8000_0000_0000_0000 && W.Pow2(64) == 0x1_0000_0000_0000_0000
  {
    assert W.Pow2(4) == 16 && W.Pow2(3) == 8;
    hide W.Pow2;
    W.PowSum(3, 4);
    W.PowSum(4, 4);
    W.PowSum(7, 8);
    W.PowSum(8, 8);
    W.PowSum(15, 16);
    W.PowSum(16, 16);
    W.PowSum(31, 32);
    W.PowSum(32, 32);
  }

  lemma WithinIsRange(w: W.Width, x: int)
    requires W.Known(w)
    ensures Within(w, x) <==> W.InRange(w, x)
  {
    hide W.Pow2;
    Powers();
  }

  /** `q` is `a` divided by `b` and cut off towards zero, and `m` is what is left: its
      sign is that of `a`. */
  predicate Divides(a: int, b: int, q: int, m: int) {
    a == q * b + m && (if b < 0 then b < m < -b else -b < m < b) && (a >= 0 ==> m >= 0) && (a <= 0 ==> m <= 0)
  }

  /** What a checked operator answers: the exact result if it is of the type, and
      nothing for any other or for a division by zero. */
  ghost predicate Answers(w: W.Width, op: BinOp, a: int, b: int, r: Option<Val>) {
    match op
    case Add => r == if Within(w, a + b) then Some(IntV(a + b)) else None
    case Sub => r == if Within(w, a - b) then Some(IntV(a - b)) else None
    case Mul => r == if Within(w, a * b) then Some(IntV(a * b)) else None
    case Div =>
      if b == 0 then r == None
      else exists q, m :: Divides(a, b, q, m) && r == if Within(w, q) then Some(IntV(q)) else None
    case Mod =>
      if b == 0 then r == None
      else exists q, m :: Divides(a, b, q, m) && r == if Within(w, m) then Some(IntV(m)) else None
    case Eq => r == Some(BoolV(a == b))
    case Ne => r == Some(BoolV(a != b))
    case Lt => r == Some(BoolV(a < b))
    case Gt => r == Some(BoolV(a > b))
    case Le => r == Some(BoolV(a <= b))
    case Ge => r == Some(BoolV(a >= b))
    case _ => true
  }

  /** There is one quotient and one remainder. */
  lemma DivisionIsUnique(a: int, b: int, q: int, m: int, q2: int, m2: int)
    requires b != 0 && Divides(a, b, q, m) && Divides(a, b, q2, m2)
    ensures q == q2 && m == m2
  {
    assert (q - q2) * b == m2 - m;
    var n, k := if b < 0 then -b else b, if q >= q2 then q - q2 else q2 - q;
    assert k * n == if m >= m2 then m - m2 else m2 - m;
    if k > 0 {
      ArithmeticTheorem.TimesMono(1, n, k, n);
    }
  }

  lemma QuotDivides(a: int, b: int)
    requires b != 0
    ensures Divides(a, b, A.Quot(a, b), a - A.Quot(a, b) * b)
  {
    ArithmeticTheorem.QuotBounds(a, b);
    ArithmeticTheorem.QuotTimes(a, b);
    ArithmeticTheorem.NatDiv(A.Abs(a), A.Abs(b));
  }

  /** A checked operator, where it does not divide by zero. */
  lemma CheckedAnswers(op: A.Op, w: W.Width, a: int, b: int)
    requires W.Known(w) && Within(w, a) && Within(w, b) && ((op == A.Div || op == A.Mod) ==> b != 0)
    ensures
      var x := A.Exact(op, a, b);
      A.Interpreted(op, w, a, b) == A.Emitted(op, w, a, b) == if Within(w, x) then Some(x) else None
  {
    hide A.Emitted, A.Exact, A.Quot, Within, W.Pow2, A.Fits, W.Lo, W.Hi;
    var x := A.Exact(op, a, b);
    WithinIsRange(w, a);
    WithinIsRange(w, b);
    WithinIsRange(w, x);
    ArithmeticTheorem.RangeIn64(w, a);
    ArithmeticTheorem.RangeIn64(w, b);
    ArithmeticTheorem.CheckedAgrees(op, w, a, b);
    ArithmeticTheorem.NoWideOverflow(op, w, a, b);
    A.FitsIsRange(x, w);
    A.FitsIsRange(W.Cast(A.I128, x), w);
    TooBig(w, x);
    TooBig(w, W.Cast(A.I128, x));
  }

  lemma TooBig(w: W.Width, x: int)
    requires W.Known(w)
    ensures x >= W.Pow2(127) ==> !W.InRange(w, x)
    ensures w == W.U64 && x < 0 ==> !W.InRange(w, x)
  {
    WithinIsRange(w, x);
    Powers();
    W.PowMono(64, 127);
  }

  /** Both executions answer so. */
  lemma OperatorsAnswer(w: W.Width, op: BinOp, a: int, b: int)
    requires W.Known(w) && Within(w, a) && Within(w, b)
    ensures Answers(w, op, a, b, RunPrims(w).bin(op, IntV(a), IntV(b)))
    ensures Answers(w, op, a, b, HelperPrims(w).bin(op, IntV(a), IntV(b)))
  {
    hide A.Interpreted, A.Emitted, Within, A.Quot;
    if ArithOp(op).Some? {
      var o := ArithOp(op).value;
      if (o == A.Div || o == A.Mod) && b == 0 {
        ZeroDivides(o, w, a);
      } else {
        CheckedAnswers(o, w, a, b);
        if b != 0 {
          QuotDivides(a, b);
        }
      }
    }
  }

  lemma ZeroDivides(op: A.Op, w: W.Width, a: int)
    requires W.Known(w) && Within(w, a) && (op == A.Div || op == A.Mod)
    ensures A.Interpreted(op, w, a, 0) == A.Emitted(op, w, a, 0) == None
  {
    WithinIsRange(w, a);
    Powers();
    ArithmeticTheorem.RangeIn64(w, a);
    ArithmeticTheorem.CheckedAgrees(op, w, a, 0);
  }

  /** Wrapping sums: the number of the type that has the residue of the exact sum. At I64
      the interpreter does not wrap. */
  lemma WrapsAnswer(w: W.Width, op: BinOp, a: int, b: int)
    requires W.Known(w) && (op == WAdd || op == WSub) && Within(w, a) && Within(w, b)
    ensures
      var x, m := if op == WAdd then a + b else a - b, W.Pow2(w.bits);
      var run, out := RunPrims(w).bin(op, IntV(a), IntV(b)), HelperPrims(w).bin(op, IntV(a), IntV(b));
      && out.Some? && out.value.IntV? && Within(w, out.value.i) && out.value.i % m == x % m
      && run == if w == W.I64 then Some(IntV(x)) else out
  {
    hide Within, W.Pow2, A.InterpretedWrap, A.EmittedWrap;
    WrapsTo(op == WSub, w, a, b);
  }

  lemma WrapsTo(minus: bool, w: W.Width, a: int, b: int)
    requires W.Known(w)
    ensures
      var x, m := if minus then a - b else a + b, W.Pow2(w.bits);
      var r := A.EmittedWrap(minus, w, a, b);
      Within(w, r) && r % m == x % m && A.InterpretedWrap(minus, w, a, b) == if w == W.I64 then x else r
  {
    hide A.EmittedWrap, Within, W.Pow2, W.InRange;
    var x := if minus then a - b else a + b;
    ArithmeticTheorem.WrapWays(minus, w, a, b);
    W.CastIsResidue(w, x);
    W.CongruentIsMod(W.Cast(w, x), x, w.bits);
    WithinIsRange(w, W.Cast(w, x));
    if w != W.I64 {
      hide A.WrapInt;
      A.WrapIsCast(w, x);
    }
  }

  /** Negation answers the negative, if it is of the type; that of an unsigned number is
      the one of zero, and only in the interpreter. */
  lemma NegationAnswers(w: W.Width, a: int)
    requires W.Known(w) && Within(w, a)
    ensures RunPrims(w).neg(IntV(a)) == if Within(w, -a) then Some(IntV(-a)) else None
    ensures HelperPrims(w).neg(IntV(a)) == if !w.us && Within(w, -a) then Some(IntV(-a)) else None
  {
    hide Within, W.Pow2, A.InterpretedNeg, A.EmittedNeg;
    WithinIsRange(w, a);
    WithinIsRange(w, -a);
    A.FitsIsRange(-a, w);
    NegatedTo(w, a);
  }

  lemma NegatedTo(w: W.Width, a: int)
    requires W.Known(w) && W.InRange(w, a)
    ensures A.InterpretedNeg(w, a) == if W.InRange(w, -a) then Some(-a) else None
    ensures A.EmittedNeg(w, a) == if !w.us && W.InRange(w, -a) then Some(-a) else None
  {
    A.FitsIsRange(-a, w);
    if !w.us {
      ArithmeticTheorem.NegSigned(w, a);
    }
  }

  /** An annotation, and a store into a variable of the type, let through what is of the
      type and stop what is not. */
  lemma ChecksAnswer(w: W.Width, was: int, i: int)
    requires W.Known(w) && W.InRange(W.I64, i)
    ensures RunPrims(w).fit(IntTy(w.bits, w.us), i) == if Within(w, i) then Some(i) else None
    ensures RunPrims(w).store(IntV(was), IntV(i)) == if Within(w, i) then Some(IntV(i)) else None
    ensures
      w != W.U64 || i >= 0 ==>
        HelperPrims(w).fit(IntTy(w.bits, w.us), i) == if Within(w, i) then Some(i) else None
    ensures
      w != W.U64 || i >= 0 ==>
        HelperPrims(w).store(IntV(was), IntV(i)) == if Within(w, i) then Some(IntV(i)) else None
    ensures RunPrims(w).bound(IntV(i)) == HelperPrims(w).bound(IntV(i)) == i
  {
    hide Within, W.Pow2, A.EmittedDecl, W.InRange;
    WithinIsRange(w, i);
    A.FitsIsRange(i, w);
    W.CastInRange(W.I64, i);
    if w != W.U64 || i >= 0 {
      ArithmeticTheorem.DeclAgrees(w, i);
    }
  }

  /** Booleans are told apart by `==` and `!=`. */
  lemma FlagsCompare(w: W.Width, a: bool, b: bool)
    requires W.Known(w)
    ensures RunPrims(w).bin(Eq, BoolV(a), BoolV(b)) == HelperPrims(w).bin(Eq, BoolV(a), BoolV(b))
      == Some(BoolV(a <==> b))
    ensures
      RunPrims(w).bin(Ne, BoolV(a), BoolV(b)) == HelperPrims(w).bin(Ne, BoolV(a), BoolV(b)) == Some(BoolV(!(a <==> b)))
  {
  }
}
