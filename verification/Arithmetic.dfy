/** Integer arithmetic on the two sides: what the interpreter does on 128-bit values,
    and what the helpers the compiler emits do on C's types. `None` is a panic. */
module Arithmetic {
  import opened Options
  import opened Widths

  datatype Op = Add | Sub | Mul | Div | Mod

  /** C's division, which truncates toward zero. */
  function Quot(a: int, b: int): int
    requires b != 0
  {
    if (a >= 0) == (b > 0) then Abs(a) / Abs(b) else -(Abs(a) / Abs(b))
  }

  function Abs(a: int): nat { if a < 0 then -a else a }

  function Exact(op: Op, a: int, b: int): int
    requires (op == Div || op == Mod) ==> b != 0
  {
    match op
    case Add => a + b
    case Sub => a - b
    case Mul => a * b
    case Div => Quot(a, b)
    case Mod => a - Quot(a, b) * b
  }

  const I128 := Width(128, false)
  const U128 := Width(128, true)

  // ---------- The interpreter ----------

  predicate Fits(x: int, w: Width)
    requires w.bits > 0
  {
    if w.bits >= 64 then
      if w.us then 0 <= x <= Pow2(64) - 1 else -(Pow2(63) as int) <= x <= Pow2(63) - 1
    else if w.us then 0 <= x < Pow2(w.bits)
    else
      var hi := Pow2(w.bits - 1) - 1;
      -hi - 1 <= x <= hi
  }

  function CkInt(x: int, w: Width): Option<int>
    requires w.bits > 0
  {
    if Fits(x, w) then Some(x) else None
  }

  function WrapInt(x: int, w: Width): int
    requires w.bits > 0
  {
    if w.bits >= 64 then
      if w.bits == 64 && w.us then Bits(And, Cast(U128, x), Pow2(64) - 1) else x
    else
      var r := Bits(And, Cast(U128, x), Pow2(w.bits) - 1);
      var h := Pow2(w.bits - 1);
      if !w.us && r >= h then r - Pow2(w.bits) else r
  }

  /** Values are 128 bits wide, so a product can wrap before it is checked. */
  function Interpreted(op: Op, w: Width, a: int, b: int): Option<int>
    requires w.bits > 0
  {
    if (op == Div || op == Mod) && b == 0 then None else CkInt(Cast(I128, Exact(op, a, b)), w)
  }

  function InterpretedWrap(minus: bool, w: Width, a: int, b: int): int
    requires w.bits > 0
  {
    WrapInt(if minus then a - b else a + b, w)
  }

  function InterpretedNeg(w: Width, a: int): Option<int>
    requires w.bits > 0
  {
    CkInt(-a, w)
  }

  // ---------- The emitted helpers ----------

  /** Parameters are 64 bits wide; the checked helpers for U64 take them unsigned. */
  function Param(w: Width): Width { if w == U64 then U64 else I64 }

  function Emitted(op: Op, w: Width, a: int, b: int): Option<int>
    requires w.bits > 0
  {
    var a, b := Cast(Param(w), a), Cast(Param(w), b);
    if (op == Div || op == Mod) && b == 0 then None
    else EmittedCheck(op, w, Exact(op, a, b))
  }

  /** U64 quotients and remainders are returned unchecked. */
  function EmittedCheck(op: Op, w: Width, r: int): Option<int>
    requires w.bits > 0
  {
    if w == U64 && (op == Div || op == Mod) then Some(r)
    else if r < Lo(w) || r > Hi(w) then None
    else Some(Cast(w, r))
  }

  function EmittedWrap(minus: bool, w: Width, a: int, b: int): int
    requires w.bits > 0
  {
    var a, b := Cast(U64, Cast(I64, a)), Cast(U64, Cast(I64, b));
    var r := Cast(U64, if minus then a - b else a + b);
    if w.bits >= 64 then Cast(w, Cast(I64, r)) else Masked(w, r)
  }

  /** The low bits of `r`, sign-extended by flipping the top bit and taking it off. */
  function Masked(w: Width, r: nat): int
    requires w.bits > 0
  {
    var low := Bits(And, r, Pow2(w.bits) - 1);
    if w.us then Cast(w, low) else Cast(w, Bits(Xor, low, Pow2(w.bits - 1)) - Pow2(w.bits - 1))
  }

  function EmittedNeg(w: Width, a: int): Option<int>
    requires w.bits > 0
  {
    var r := -Cast(I64, a);
    if w.us || r < Lo(w) || r > Hi(w) then None else Some(Cast(w, r))
  }

  function EmittedAs(w: Width, v: int): int
    requires w.bits > 0
  {
    var v := Cast(I64, v);
    if w.bits >= 64 then Cast(w, v) else Masked(w, Cast(U64, v))
  }

  function EmittedDecl(w: Width, v: int): Option<int>
    requires w.bits > 0
  {
    var v := Cast(I64, v);
    if if w.us then Cast(U64, v) > Hi(w) else v < Lo(w) || v > Hi(w) then None else Some(Cast(w, v))
  }

  // ---------- Folding into a width ----------

  lemma FitsIsRange(x: int, w: Width)
    requires Known(w)
    ensures Fits(x, w) <==> InRange(w, x)
  {
  }

  lemma MaskCast(w: Width, r: nat)
    requires w.bits > 0
    ensures Bits(And, r, Pow2(w.bits) - 1) == r % Pow2(w.bits)
    ensures r % Pow2(w.bits) < Pow2(w.bits)
  {
    MaskIsMod(r, w.bits);
  }

  /** Folding with a mask, or with a mask and a flipped top bit, is C's conversion. */
  lemma MaskedIsCast(w: Width, r: nat)
    requires w.bits > 0
    ensures Masked(w, r) == Cast(w, r)
  {
    MaskCast(w, r);
    var low := r % Pow2(w.bits);
    if w.us {
      CastInRange(w, low);
    } else {
      XorTop(low, w.bits - 1);
      assert Bits(Xor, low, Pow2(w.bits - 1)) - Pow2(w.bits - 1) == Cast(w, r);
      CastIsResidue(w, r);
      CastInRange(w, Cast(w, r));
    }
  }

  /** Except for I64, `WrapInt` gives the one value in range with the residue of `x`. */
  lemma WrapIsCast(w: Width, x: int)
    requires Known(w) && w != I64
    ensures WrapInt(x, w) == Cast(w, x)
  {
    var r := Cast(U128, x);
    CastIsResidue(U128, x);
    CongruentNarrow(r, x, w.bits, 128);
    CastCongruent(w, r, x);
    MaskCast(w, r);
  }

  lemma WrapIsResidue(w: Width, x: int, y: int)
    requires Known(w) && w != I64
    ensures InRange(w, WrapInt(x, w)) && Congruent(WrapInt(x, w), x, w.bits)
    ensures InRange(w, y) && Congruent(y, x, w.bits) ==> y == WrapInt(x, w)
  {
    WrapIsCast(w, x);
    CastIsResidue(w, x);
    if InRange(w, y) && Congruent(y, x, w.bits) {
      CastCongruent(w, y, x);
      CastInRange(w, y);
    }
  }

  /** Folding the operands first changes nothing. */
  lemma WrapCommutes(w: Width, minus: bool, a: int, b: int)
    requires Known(w) && w != I64
    ensures InterpretedWrap(minus, w, WrapInt(a, w), WrapInt(b, w)) == InterpretedWrap(minus, w, a, b)
  {
    var a', b' := WrapInt(a, w), WrapInt(b, w);
    WrapIsResidue(w, a, a);
    WrapIsResidue(w, b, b);
    CongruentSum(a', b', a, b, w.bits, minus);
    SameFold(w, if minus then a' - b' else a' + b', if minus then a - b else a + b);
  }

  lemma SameFold(w: Width, x: int, y: int)
    requires Known(w) && w != I64 && Congruent(x, y, w.bits)
    ensures WrapInt(x, w) == WrapInt(y, w)
  {
    CastCongruent(w, x, y);
    WrapIsCast(w, x);
    WrapIsCast(w, y);
  }
}
