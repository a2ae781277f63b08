/** Both sides' own arithmetic: the interpreter's checked 128-bit values, and the
    emitted helpers on C's types. Each operation takes its type from its left operand.
    One integer type is the program's; a loop variable has another, I32 when it is
    interpreted and I64 when it is emitted. */
module Helpers {
  import opened Options
  import opened Syntax
  import A = Arithmetic
  import ArithmeticTheorem
  import MixedOperands
  import W = Widths

  // ---------- Two records of primitives ----------

  function RunType(w: W.Width, v: Val): W.Width { if v.CountV? then W.I32 else w }

  function HelperType(w: W.Width, v: Val): W.Width { if v.CountV? then W.I64 else w }

  /** An integer of the type of `v`. */
  function Like(v: Val, i: int): Val { if v.CountV? then CountV(i) else IntV(i) }

  function Held(v: Val, r: Option<int>): Option<Val> { if r.None? then None else Some(Like(v, r.value)) }

  function ArithOp(op: BinOp): Option<A.Op> {
    match op
    case Add => Some(A.Add)
    case Sub => Some(A.Sub)
    case Mul => Some(A.Mul)
    case Div => Some(A.Div)
    case Mod => Some(A.Mod)
    case _ => None
  }

  predicate Wraps(op: BinOp) { op == WAdd || op == WSub }

  /** Comparisons of integers, the same on both sides. */
  function Compared(op: BinOp, l: int, r: int): Option<Val> {
    match op
    case Eq => Some(BoolV(l == r))
    case Ne => Some(BoolV(l != r))
    case Lt => Some(BoolV(l < r))
    case Gt => Some(BoolV(l > r))
    case Le => Some(BoolV(l <= r))
    case Ge => Some(BoolV(l >= r))
    case _ => None
  }

  /** Equality of booleans, the same on both sides. */
  predicate Flags(op: BinOp, l: Val, r: Val) { l.BoolV? && r.BoolV? && (op == Eq || op == Ne) }

  function RunBin(w: W.Width, op: BinOp, l: Val, r: Val): Option<Val>
    requires W.Known(w)
  {
    if Flags(op, l, r) then Some(BoolV((op == Eq) == (l == r)))
    else if !IsInt(l) || !IsInt(r) then None
    else if ArithOp(op).Some? then Held(l, A.Interpreted(ArithOp(op).value, RunType(w, l), l.i, r.i))
    else if Wraps(op) then Some(Like(l, A.InterpretedWrap(op == WSub, RunType(w, l), l.i, r.i)))
    else Compared(op, l.i, r.i)
  }

  function HelperBin(w: W.Width, op: BinOp, l: Val, r: Val): Option<Val>
    requires W.Known(w)
  {
    if Flags(op, l, r) then Some(BoolV((op == Eq) == (l == r)))
    else if !IsInt(l) || !IsInt(r) then None
    else if ArithOp(op).Some? then Held(l, A.Emitted(ArithOp(op).value, HelperType(w, l), l.i, r.i))
    else if Wraps(op) then Some(Like(l, A.EmittedWrap(op == WSub, HelperType(w, l), l.i, r.i)))
    else Compared(op, l.i, r.i)
  }

  /** Compound assignments have the five checked operators. */
  function RunCompound(w: W.Width, op: BinOp, was: Val, v: Val): Option<Val>
    requires W.Known(w)
  {
    if ArithOp(op).Some? then RunBin(w, op, was, v) else None
  }

  function HelperCompound(w: W.Width, op: BinOp, was: Val, v: Val): Option<Val>
    requires W.Known(w)
  {
    if ArithOp(op).Some? then HelperBin(w, op, was, v) else None
  }

  function RunNeg(w: W.Width, v: Val): Option<Val>
    requires W.Known(w)
  {
    if !IsInt(v) then None else Held(v, A.InterpretedNeg(RunType(w, v), v.i))
  }

  function HelperNeg(w: W.Width, v: Val): Option<Val>
    requires W.Known(w)
  {
    if !IsInt(v) then None else Held(v, A.EmittedNeg(HelperType(w, v), v.i))
  }

  /** The annotation's own type. */
  predicate Sized(ann: Ann) { ann.IntTy? && W.Known(W.Width(ann.bits, ann.unsigned)) }

  function RunFit(ann: Ann, i: int): Option<int> {
    if Sized(ann) then A.CkInt(i, W.Width(ann.bits, ann.unsigned)) else None
  }

  function HelperFit(ann: Ann, i: int): Option<int> {
    if Sized(ann) then A.EmittedDecl(W.Width(ann.bits, ann.unsigned), i) else None
  }

  /** A slot that holds an integer checks what is stored; an integer is not stored
      over anything else, nor anything else over an integer. */
  function RunStore(w: W.Width, was: Val, v: Val): Option<Val>
    requires W.Known(w)
  {
    if IsInt(was) && IsInt(v) then Held(was, A.CkInt(v.i, RunType(w, was)))
    else if IsInt(was) || IsInt(v) then None
    else Some(v)
  }

  function HelperStore(w: W.Width, was: Val, v: Val): Option<Val>
    requires W.Known(w)
  {
    if IsInt(was) && IsInt(v) then Held(was, A.EmittedDecl(HelperType(w, was), v.i))
    else if IsInt(was) || IsInt(v) then None
    else Some(v)
  }

  /** Bounds of ranges are converted to 64 bits on both sides. */
  function BoundOf(v: Val): int { if IsInt(v) then W.Cast(W.I64, v.i) else 0 }

  /** What the interpreter computes with. */
  function RunPrims(w: W.Width): Prims
    requires W.Known(w)
  {
    Prims(
      (op: BinOp, l: Val, r: Val) => RunBin(w, op, l, r),
      (v: Val) => RunNeg(w, v),
      (ann: Ann, i: int) => RunFit(ann, i),
      (was: Val, v: Val) => RunStore(w, was, v),
      (op: BinOp, was: Val, v: Val) => RunCompound(w, op, was, v),
      BoundOf)
  }

  /** What the emitted code computes with. */
  function HelperPrims(w: W.Width): Prims
    requires W.Known(w)
  {
    Prims(
      (op: BinOp, l: Val, r: Val) => HelperBin(w, op, l, r),
      (v: Val) => HelperNeg(w, v),
      (ann: Ann, i: int) => HelperFit(ann, i),
      (was: Val, v: Val) => HelperStore(w, was, v),
      (op: BinOp, was: Val, v: Val) => HelperCompound(w, op, was, v),
      BoundOf)
  }

  // ---------- Where they agree ----------

  /** On a loop variable and a 64-bit operand: both panic on zero, the result is of
      both types or of neither. */
  predicate LoopFaithful(op: A.Op, i: int, b: int) {
    || ((op == A.Div || op == A.Mod) && b == 0)
    || W.InRange(W.I32, A.Exact(op, i, b))
    || !W.InRange(W.I64, A.Exact(op, i, b))
  }

  /** Computing with a loop variable on the left agrees exactly then. */
  lemma LoopOperandsAgree(op: A.Op, i: int, b: int)
    requires W.InRange(W.I64, i) && W.InRange(W.I64, b)
    ensures A.Interpreted(op, W.I32, i, b) == A.Emitted(op, W.I64, i, b) <==> LoopFaithful(op, i, b)
  {
    if !((op == A.Div || op == A.Mod) && b == 0) {
      var x := A.Exact(op, i, b);
      ArithmeticTheorem.NoWideOverflow(op, W.I64, i, b);
      ArithmeticTheorem.CheckedAgrees(op, W.I64, i, b);
      A.FitsIsRange(x, W.I32);
      A.FitsIsRange(x, W.I64);
      Narrower(x);
    }
  }

  lemma Narrower(x: int)
    ensures W.InRange(W.I32, x) ==> W.InRange(W.I64, x)
  {
    W.PowMono(31, 63);
  }

  lemma LoopWrapAgrees(minus: bool, i: int, b: int)
    ensures
      var x := if minus then i - b else i + b;
      A.InterpretedWrap(minus, W.I32, i, b) == A.EmittedWrap(minus, W.I64, i, b) <==>
        W.InRange(W.I32, W.Cast(W.I64, x))
  {
    var x := if minus then i - b else i + b;
    ArithmeticTheorem.WrapWays(minus, W.I64, i, b);
    A.WrapIsCast(W.I32, x);
    W.CastIsResidue(W.I32, x);
    W.CastIsResidue(W.I64, x);
    if W.InRange(W.I32, W.Cast(W.I64, x)) {
      W.CongruentNarrow(W.Cast(W.I64, x), x, 32, 64);
      A.WrapIsResidue(W.I32, x, W.Cast(W.I64, x));
    }
  }

  lemma LoopNegAgrees(i: int)
    requires W.InRange(W.I64, i)
    ensures A.InterpretedNeg(W.I32, i) == A.EmittedNeg(W.I64, i) <==> W.InRange(W.I32, -i) || !W.InRange(W.I64, -i)
  {
    A.FitsIsRange(-i, W.I32);
    ArithmeticTheorem.NegSigned(W.I64, i);
    Narrower(-i);
  }

  /** An operand as a value of its type: of the program's, or a 64-bit loop variable. */
  predicate Typed(w: W.Width, v: Val) {
    match v
    case IntV(i) => W.InRange(w, i)
    case CountV(i) => W.InRange(W.I64, i)
    case _ => true
  }

  /** When the two sides' operators agree, on operands of whatever types. */
  predicate BinFaithful(w: W.Width, op: BinOp, l: Val, r: Val)
    requires W.Known(w)
  {
    IsInt(l) && IsInt(r) ==>
      var x := if op == WSub then l.i - r.i else l.i + r.i;
      if l.CountV? then
        && (ArithOp(op).Some? ==> LoopFaithful(ArithOp(op).value, l.i, r.i))
        && (Wraps(op) ==> W.InRange(W.I32, W.Cast(W.I64, x)))
      else
        && (ArithOp(op).Some? ==> MixedOperands.MixedFaithful(ArithOp(op).value, w, l.i, r.i))
        && (Wraps(op) ==> w != W.I64 || W.InRange(W.I64, x))
  }

  lemma BinAgrees(w: W.Width, op: BinOp, l: Val, r: Val)
    requires W.Known(w) && Typed(w, l) && Typed(w, r) && (l.CountV? && r.IntV? ==> W.InRange(W.I64, r.i))
    ensures RunBin(w, op, l, r) == HelperBin(w, op, l, r) <==> BinFaithful(w, op, l, r)
  {
    hide A.Interpreted, A.Emitted, A.InterpretedWrap, A.EmittedWrap, A.Exact, W.InRange, W.Cast,
      MixedOperands.MixedFaithful, LoopFaithful;
    if IsInt(l) && IsInt(r) && !Flags(op, l, r) {
      assert W.Scalar(r.i) by {
        TypedScalar(w, r);
      }
      if ArithOp(op).Some? {
        if l.CountV? {
          LoopOperandsAgree(ArithOp(op).value, l.i, r.i);
        } else {
          MixedOperands.MixedAgrees(ArithOp(op).value, w, l.i, r.i);
        }
      } else if Wraps(op) {
        if l.CountV? {
          LoopWrapAgrees(op == WSub, l.i, r.i);
        } else {
          ArithmeticTheorem.WrapAgrees(op == WSub, w, l.i, r.i);
        }
      }
    }
  }

  lemma TypedScalar(w: W.Width, v: Val)
    requires W.Known(w) && IsInt(v) && Typed(w, v)
    ensures W.Scalar(v.i)
  {
    if v.IntV? {
      ArithmeticTheorem.RangeIn64(w, v.i);
    }
  }

  /** Negation agrees but for an unsigned zero, and for a loop variable whose negation
      is of one type alone. */
  lemma NegAgrees(w: W.Width, v: Val)
    requires W.Known(w) && Typed(w, v)
    ensures RunNeg(w, v) == HelperNeg(w, v) <==>
      match v
      case IntV(i) => !(w.us && i == 0)
      case CountV(i) => W.InRange(W.I32, -i) || !W.InRange(W.I64, -i)
      case _ => true
  {
    hide A.InterpretedNeg, A.EmittedNeg, W.InRange;
    match v
    case IntV(i) => ArithmeticTheorem.NegAgrees(w, i);
    case CountV(i) => LoopNegAgrees(i);
    case _ =>
  }

  /** The check of an annotation agrees exactly when the declaration's does. */
  lemma FitAgrees(ann: Ann, i: int)
    requires W.Scalar(i)
    ensures RunFit(ann, i) == HelperFit(ann, i) <==>
      (Sized(ann) ==> ArithmeticTheorem.DeclFaithful(W.Width(ann.bits, ann.unsigned), i))
  {
    if Sized(ann) {
      ArithmeticTheorem.DeclAgrees(W.Width(ann.bits, ann.unsigned), i);
    }
  }

  predicate OfType(w: W.Width, v: Val) { v.IntV? && Typed(w, v) }

  ghost predicate PlainAgree(w: W.Width)
    requires W.Known(w)
  {
    && (forall op, l, r :: OfType(w, l) && OfType(w, r) ==> RunBin(w, op, l, r) == HelperBin(w, op, l, r))
    && (forall v :: OfType(w, v) ==> RunNeg(w, v) == HelperNeg(w, v))
  }

  /** All operators and negation agree on values of the program's type, if and only if
      that is signed and narrower than 64 bits. */
  lemma HelpersAgree(w: W.Width)
    requires W.Known(w)
    ensures PlainAgree(w) <==> !w.us && w != W.I64
  {
    hide RunBin, HelperBin, RunNeg, HelperNeg;
    if w.us {
      NegAgrees(w, IntV(0));
      assert OfType(w, IntV(0));
    } else if w == W.I64 {
      var top, one := IntV(W.Hi(W.I64)), IntV(1);
      assert OfType(w, top) && OfType(w, one);
      BinAgrees(w, WAdd, top, one);
    } else {
      forall op, l, r | OfType(w, l) && OfType(w, r)
        ensures RunBin(w, op, l, r) == HelperBin(w, op, l, r)
      {
        ArithmeticTheorem.RangeIn64(w, r.i);
        BinAgrees(w, op, l, r);
      }
      forall v | OfType(w, v)
        ensures RunNeg(w, v) == HelperNeg(w, v)
      {
        NegAgrees(w, v);
      }
    }
  }
}
