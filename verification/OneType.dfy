/** The emitter's theorem with each side's own arithmetic, for programs over one
    integer type. A loop variable is not of that type, so such programs use it only
    where its type does not show: as a right operand, in a comparison, as a bound, and
    where it is checked against the program's type. */
module OneType {
  import opened Options
  import opened Syntax
  import opened Structured
  import opened CLang
  import opened EmitterTheorem
  import opened Lower
  import opened Rules
  import opened Helpers
  import Names
  import ArithmeticTheorem
  import A = Arithmetic
  import F = FlagInterp
  import FlagTheorem
  import MixedOperands
  import SimExprs
  import W = Widths

  // ---------- Programs over one type ----------

  /** Integers of the type, and no loop variable's number inside. */
  predicate Fine(w: W.Width, v: Val) {
    match v
    case IntV(i) => W.InRange(w, i)
    case CountV(_) => false
    case PayV(_, x) => Fine(w, x)
    case _ => true
  }

  predicate Compares(op: BinOp) { op == Eq || op == Ne || op == Lt || op == Gt || op == Le || op == Ge }

  predicate Own(w: W.Width, ann: Ann) { ann == IntTy(w.bits, w.us) }

  /** No other integer type is named. */
  predicate AnnOk(w: W.Width, ann: Ann) { ann.IntTy? ==> Own(w, ann) }

  /** A loop variable by itself; `ls` are the names of loop variables. */
  predicate Wide(ls: set<string>, e: Expr) { e.Var? && e.x in ls }

  predicate SideOk(w: W.Width, p: Program, ls: set<string>, e: Expr)
    decreases e, 3, 0
  {
    Wide(ls, e) || PlainOk(w, p, ls, e)
  }

  /** An expression of the program's type, or of none of the integer types. Unsigned
      programs do not negate, and I64 programs do not wrap. */
  predicate PlainOk(w: W.Width, p: Program, ls: set<string>, e: Expr)
    decreases e, 2, 0
  {
    match e
    case Lit(v) => Fine(w, v)
    case Var(x) => x !in ls
    case Panic => true
    case Not(x) => PlainOk(w, p, ls, x)
    case Neg(x) => !w.us && PlainOk(w, p, ls, x)
    case Bin(op, x, y) =>
      if Compares(op) then SideOk(w, p, ls, x) && SideOk(w, p, ls, y)
      else
        && PlainOk(w, p, ls, x)
        && (if w == W.U64 then PlainOk(w, p, ls, y) else SideOk(w, p, ls, y))
        && (Wraps(op) ==> w != W.I64)
    case AndAlso(x, y) => PlainOk(w, p, ls, x) && PlainOk(w, p, ls, y)
    case OrElse(x, y) => PlainOk(w, p, ls, x) && PlainOk(w, p, ls, y)
    case MkPay(_, x) => PlainOk(w, p, ls, x)
    case Call(f, args) =>
      && f in p.fns && |p.fns[f].params| == |args|
      && forall i :: 0 <= i < |args| ==> ArgOk(w, p, ls, p.fns[f].params[i].ann, args[i])
    case Try(x) => PlainOk(w, p, ls, x)
    case If(c, t, els) =>
      PlainOk(w, p, ls, c) && BlockOk(w, p, ls, t) && (els.Some? ==> PlainOk(w, p, ls, els.value))
    case Match(s, arms) =>
      && SideOk(w, p, ls, s)
      && forall i :: 0 <= i < |arms| ==> ArmOk(w, p, ls, arms[i]) && (Wide(ls, s) ==> Names.PatNames(arms[i].pat) == {})
    case BlockE(b) => BlockOk(w, p, ls, b)
  }

  /** What an annotation of the program's type checks may be a loop variable, but for
      U64. */
  predicate ArgOk(w: W.Width, p: Program, ls: set<string>, ann: Ann, e: Expr)
    decreases e, 3, 1
  {
    AnnOk(w, ann) && (PlainOk(w, p, ls, e) || (Wide(ls, e) && Own(w, ann) && w != W.U64))
  }

  predicate ArmOk(w: W.Width, p: Program, ls: set<string>, arm: Arm)
    decreases arm, 0, 0
  {
    && Names.PatNames(arm.pat) !! ls
    && (arm.guard.Some? ==> PlainOk(w, p, ls, arm.guard.value))
    && PlainOk(w, p, ls, arm.body)
  }

  predicate BlockOk(w: W.Width, p: Program, ls: set<string>, b: Block)
    decreases b, 2, 0
  {
    && (forall i :: 0 <= i < |b.stmts| ==> StmtOk(w, p, ls, b.stmts[i]))
    && (b.tail.Some? ==> PlainOk(w, p, ls, b.tail.value))
  }

  predicate StmtOk(w: W.Width, p: Program, ls: set<string>, s: Stmt)
    decreases s, 1, 0
  {
    match s
    case Let(x, ann, e) => Names.OptName(x) !! ls && ArgOk(w, p, ls, ann, e)
    case Return(v) => v.Some? ==> PlainOk(w, p, ls, v.value)
    case Break => true
    case Continue => true
    case ExprS(e) => PlainOk(w, p, ls, e)
    case Assign(x, aop, e) =>
      && x !in ls && (aop.Some? ==> ArithOp(aop.value).Some?)
      && (if w == W.U64 then PlainOk(w, p, ls, e) else SideOk(w, p, ls, e))
    case While(c, b) => PlainOk(w, p, ls, c) && BlockOk(w, p, ls, b)
    case For(x, lo, hi, _, b) =>
      Names.OptName(x) <= ls && SideOk(w, p, ls, lo) && SideOk(w, p, ls, hi) && BlockOk(w, p, ls, b)
  }

  predicate FnOk(w: W.Width, p: Program, ls: set<string>, f: Fn) {
    && (forall i :: 0 <= i < |f.params| ==> f.params[i].x !in ls && AnnOk(w, f.params[i].ann))
    && BlockOk(w, p, ls, f.body)
  }

  /** Every function has names for its loop variables that it uses for nothing else. */
  ghost predicate OneType(w: W.Width, p: Program) {
    forall f :: f in p.fns ==> exists ls :: FnOk(w, p, ls, p.fns[f])
  }

  // ---------- What a run keeps ----------

  /** The same program with each side's arithmetic. */
  ghost predicate Pair(w: W.Width, p: Program, q: Program) {
    W.Known(w) && p.prims == RunPrims(w) && q == p.(prims := HelperPrims(w)) && OneType(w, p)
  }

  predicate SlotOk(w: W.Width, ls: set<string>, x: string, v: Val) {
    if x in ls then v.CountV? && W.InRange(W.I64, v.i) else Fine(w, v)
  }

  ghost predicate FrameOk(w: W.Width, ls: set<string>, m: Frame) {
    forall x :: x in m ==> SlotOk(w, ls, x, m[x])
  }

  ghost predicate EnvOk(w: W.Width, ls: set<string>, fr: Frames) {
    forall k :: 0 <= k < |fr| ==> FrameOk(w, ls, fr[k])
  }

  predicate OutOk(w: W.Width, o: Out) { (o.Norm? || o.Ret?) ==> Fine(w, o.v) }

  /** A loop variable's number, or a value of the program's type. */
  predicate SideFine(w: W.Width, v: Val) { if v.CountV? then W.InRange(W.I64, v.i) else Fine(w, v) }

  lemma {:induction false} FindOk(w: W.Width, ls: set<string>, fr: Frames, x: string)
    requires EnvOk(w, ls, fr) && Find(fr, x).Some?
    ensures SlotOk(w, ls, x, Find(fr, x).value)
  {
    if x in fr[0] {
      assert FrameOk(w, ls, fr[0]);
    } else {
      TailOk(w, ls, fr);
      FindOk(w, ls, fr[1..], x);
    }
  }

  lemma TailOk(w: W.Width, ls: set<string>, fr: Frames)
    requires EnvOk(w, ls, fr) && fr != []
    ensures EnvOk(w, ls, fr[1..]) && FrameOk(w, ls, fr[0])
  {
  }

  lemma ConsOk(w: W.Width, ls: set<string>, m: Frame, fr: Frames)
    requires FrameOk(w, ls, m) && EnvOk(w, ls, fr)
    ensures EnvOk(w, ls, [m] + fr)
  {
  }

  lemma PopOk(w: W.Width, ls: set<string>, fr: Frames)
    requires EnvOk(w, ls, fr)
    ensures EnvOk(w, ls, Pop(fr))
  {
  }

  lemma DeclareOk(w: W.Width, ls: set<string>, fr: Frames, x: string, v: Val)
    requires EnvOk(w, ls, fr) && SlotOk(w, ls, x, v)
    ensures EnvOk(w, ls, Declare(fr, x, v))
  {
    if fr != [] {
      TailOk(w, ls, fr);
      ConsOk(w, ls, fr[0][x := v], fr[1..]);
    }
  }

  lemma {:induction false} SetOk(w: W.Width, ls: set<string>, fr: Frames, x: string, v: Val)
    requires EnvOk(w, ls, fr) && SlotOk(w, ls, x, v)
    ensures EnvOk(w, ls, Set(fr, x, v))
  {
    if fr != [] {
      TailOk(w, ls, fr);
      if x in fr[0] {
        ConsOk(w, ls, fr[0][x := v], fr[1..]);
      } else {
        SetOk(w, ls, fr[1..], x, v);
        ConsOk(w, ls, fr[0], Set(fr[1..], x, v));
      }
    }
  }

  lemma NoCount(w: W.Width, v: Val)
    ensures Fine(w, v) ==> !v.CountV?
  {
  }

  /** A pattern binds parts of the value. */
  lemma {:induction false} PatOk(w: W.Width, ls: set<string>, pat: Pat, v: Val)
    requires PatBind(pat, v).Some? && Names.PatNames(pat) !! ls
    requires SideFine(w, v) && (v.CountV? ==> Names.PatNames(pat) == {})
    ensures FrameOk(w, ls, PatBind(pat, v).value)
    decreases pat
  {
    if pat.PayP? {
      NoCount(w, v.payload);
      PatOk(w, ls, pat.sub, v.payload);
    }
  }

  // ---------- The operations ----------

  /** Operators on what the rules let through: the same result, of the type. */
  lemma BinSame(w: W.Width, op: BinOp, l: Val, r: Val)
    requires W.Known(w) && SideFine(w, l) && SideFine(w, r)
    requires Compares(op) || (!l.CountV? && (w == W.U64 ==> !r.CountV?) && (Wraps(op) ==> w != W.I64))
    ensures RunBin(w, op, l, r) == HelperBin(w, op, l, r)
    ensures RunBin(w, op, l, r).Some? ==> Fine(w, RunBin(w, op, l, r).value)
  {
    hide A.Interpreted, A.Emitted, A.InterpretedWrap, A.EmittedWrap, A.Exact, W.InRange;
    if IsInt(l) && IsInt(r) && !Compares(op) {
      if ArithOp(op).Some? {
        RightFits(w, r);
        ArithmeticTheorem.CheckedAgrees(ArithOp(op).value, w, l.i, r.i);
        InterpretedFits(ArithOp(op).value, w, l.i, r.i);
      } else {
        var x := if op == WSub then l.i - r.i else l.i + r.i;
        ArithmeticTheorem.WrapAgrees(op == WSub, w, l.i, r.i);
        WrapFits(op == WSub, w, l.i, r.i);
      }
    }
  }

  lemma RightFits(w: W.Width, r: Val)
    requires W.Known(w) && IsInt(r) && SideFine(w, r) && (w == W.U64 ==> !r.CountV?)
    ensures W.InRange(A.Param(w), r.i)
  {
    if r.IntV? {
      ArithmeticTheorem.RangeIn64(w, r.i);
    }
  }

  lemma InterpretedFits(op: A.Op, w: W.Width, a: int, b: int)
    requires W.Known(w)
    ensures A.Interpreted(op, w, a, b).Some? ==> W.InRange(w, A.Interpreted(op, w, a, b).value)
  {
    if !((op == A.Div || op == A.Mod) && b == 0) {
      A.FitsIsRange(W.Cast(A.I128, A.Exact(op, a, b)), w);
    }
  }

  lemma WrapFits(minus: bool, w: W.Width, a: int, b: int)
    requires W.Known(w) && w != W.I64
    ensures W.InRange(w, A.InterpretedWrap(minus, w, a, b))
  {
    var x := if minus then a - b else a + b;
    A.WrapIsResidue(w, x, x);
  }

  lemma NegSame(w: W.Width, v: Val)
    requires W.Known(w) && !w.us && Fine(w, v)
    ensures RunNeg(w, v) == HelperNeg(w, v)
    ensures RunNeg(w, v).Some? ==> Fine(w, RunNeg(w, v).value)
  {
    NegAgrees(w, v);
    if v.IntV? {
      A.FitsIsRange(-v.i, w);
    }
  }

  /** The check against the program's type. */
  lemma CheckSame(w: W.Width, v: Val)
    requires W.Known(w) && IsInt(v) && SideFine(w, v) && (w == W.U64 ==> !v.CountV?)
    ensures A.CkInt(v.i, w) == A.EmittedDecl(w, v.i)
    ensures A.CkInt(v.i, w).Some? ==> W.InRange(w, A.CkInt(v.i, w).value)
  {
    assert W.Scalar(v.i) by {
      if v.IntV? {
        ArithmeticTheorem.RangeIn64(w, v.i);
      }
    }
    RightFits(w, v);
    ArithmeticTheorem.DeclAgrees(w, v.i);
    A.FitsIsRange(v.i, w);
  }

  lemma AdaptSame(w: W.Width, ann: Ann, v: Val)
    requires W.Known(w) && ValOk(w, ann, v)
    ensures Adapt(RunPrims(w), ann, v) == Adapt(HelperPrims(w), ann, v)
    ensures Adapt(RunPrims(w), ann, v).Some? ==> Fine(w, Adapt(RunPrims(w), ann, v).value)
  {
    hide A.CkInt, A.EmittedDecl, W.InRange;
    if ann.IntTy? && IsInt(v) {
      assert W.Width(ann.bits, ann.unsigned) == w;
      CheckSame(w, v);
    }
  }

  lemma AssignSame(w: W.Width, aop: Option<BinOp>, was: Val, v: Val)
    requires W.Known(w) && Fine(w, was) && SideFine(w, v) && (w == W.U64 ==> !v.CountV?)
    requires aop.Some? ==> ArithOp(aop.value).Some?
    ensures Assigned(RunPrims(w), aop, was, v) == Assigned(HelperPrims(w), aop, was, v)
    ensures
      var r := Assigned(RunPrims(w), aop, was, v);
      r.Some? ==> Fine(w, r.value)
  {
    hide A.CkInt, A.EmittedDecl, W.InRange, RunBin, HelperBin;
    if aop.Some? {
      BinSame(w, aop.value, was, v);
    } else if IsInt(was) && IsInt(v) {
      CheckSame(w, v);
    }
  }

  lemma {:induction false} ParamsSame(w: W.Width, ls: set<string>, m: Frame, f: Fn, vals: seq<Val>, i: nat)
    requires W.Known(w) && |vals| == |f.params| && i <= |vals| && FrameOk(w, ls, m)
    requires forall j :: 0 <= j < |vals| ==> f.params[j].x !in ls && ValOk(w, f.params[j].ann, vals[j])
    ensures BindParams(RunPrims(w), m, f, vals, i) == BindParams(HelperPrims(w), m, f, vals, i)
    ensures
      var r := BindParams(RunPrims(w), m, f, vals, i);
      r.Some? ==> FrameOk(w, ls, r.value)
    decreases |vals| - i
  {
    hide Adapt, Fine;
    if i < |vals| {
      AdaptSame(w, f.params[i].ann, vals[i]);
      var a := Adapt(RunPrims(w), f.params[i].ann, vals[i]);
      if a.Some? {
        ParamsSame(w, ls, m[f.params[i].x := a.value], f, vals, i + 1);
      }
    }
  }

  // ---------- Runs ----------

  /** A loop variable by itself has its number, or is not bound. */
  lemma {:induction false} SameSide(
      w: W.Width, p: Program, q: Program, n: nat, ls: set<string>, fr: Frames, e: Expr)
    requires Pair(w, p, q) && EnvOk(w, ls, fr) && SideOk(w, p, ls, e)
    ensures SExpr(p, n, fr, e) == SExpr(q, n, fr, e) && EnvOk(w, ls, SExpr(p, n, fr, e).fr)
    ensures
      var o := SExpr(p, n, fr, e).out;
      && (o.Norm? ==> SideFine(w, o.v) && (!Wide(ls, e) ==> Fine(w, o.v)))
      && (o.Ret? ==> Fine(w, o.v))
    decreases n, e, 2, 0
  {
    if Wide(ls, e) {
      if Find(fr, e.x).Some? {
        FindOk(w, ls, fr, e.x);
      }
    } else {
      SamePlain(w, p, q, n, ls, fr, e);
    }
  }

  lemma {:induction false} SamePlain(
      w: W.Width, p: Program, q: Program, n: nat, ls: set<string>, fr: Frames, e: Expr)
    requires Pair(w, p, q) && EnvOk(w, ls, fr) && PlainOk(w, p, ls, e)
    ensures SExpr(p, n, fr, e) == SExpr(q, n, fr, e) && EnvOk(w, ls, SExpr(p, n, fr, e).fr)
    ensures OutOk(w, SExpr(p, n, fr, e).out)
    decreases n, e, 1, 0
  {
    hide RunBin, HelperBin, RunNeg, HelperNeg, W.InRange, EnvOk, W.Known, BlockOk, ArgOk, ArmOk, SBlock, SCall, SArms,
      SArgs, SideOk, Find;
    match e
    case Lit(_) =>
    case Var(x) =>
      if Find(fr, x).Some? {
        FindOk(w, ls, fr, x);
      }
    case Panic =>
    case Not(x) => SamePlain(w, p, q, n, ls, fr, x);
    case Neg(x) =>
      SamePlain(w, p, q, n, ls, fr, x);
      var r := SExpr(p, n, fr, x);
      if r.out.Norm? {
        NegSame(w, r.out.v);
      }
    case Bin(_, _, _) => SameBin(w, p, q, n, ls, fr, e);
    case AndAlso(x, y) => SameTwo(w, p, q, n, ls, fr, e, x, y);
    case OrElse(x, y) => SameTwo(w, p, q, n, ls, fr, e, x, y);
    case MkPay(_, x) => SamePlain(w, p, q, n, ls, fr, x);
    case Call(_, _) => SameCallee(w, p, q, n, ls, fr, e);
    case Try(x) =>
      SamePlain(w, p, q, n, ls, fr, x);
      PartFine(w, SExpr(p, n, fr, x).out);
    case If(_, _, _) => SameIf(w, p, q, n, ls, fr, e);
    case Match(_, _) => SameMatch(w, p, q, n, ls, fr, e);
    case BlockE(b) => SameBlock(w, p, q, n, ls, fr, b);
  }

  lemma {:induction false} SameCallee(
      w: W.Width, p: Program, q: Program, n: nat, ls: set<string>, fr: Frames, e: Expr)
    requires Pair(w, p, q) && EnvOk(w, ls, fr) && e.Call? && PlainOk(w, p, ls, e)
    ensures SExpr(p, n, fr, e) == SExpr(q, n, fr, e) && EnvOk(w, ls, SExpr(p, n, fr, e).fr)
    ensures OutOk(w, SExpr(p, n, fr, e).out)
    decreases n, e, 0, |e.args| + 1
  {
    hide RunBin, HelperBin, RunNeg, HelperNeg, W.InRange, EnvOk, W.Known, ArgOk, SCall, SArgs, Find;
    SameArgs(w, p, q, n, ls, fr, e, 0);
    var (fr', vals, out) := SArgs(p, n, fr, e, 0);
    if out.Norm? && n > 0 {
      SameCall(w, p, q, n - 1, p.fns[e.f], vals);
    }
  }

  lemma {:induction false} SameMatch(
      w: W.Width, p: Program, q: Program, n: nat, ls: set<string>, fr: Frames, e: Expr)
    requires Pair(w, p, q) && EnvOk(w, ls, fr) && e.Match? && PlainOk(w, p, ls, e)
    ensures SExpr(p, n, fr, e) == SExpr(q, n, fr, e) && EnvOk(w, ls, SExpr(p, n, fr, e).fr)
    ensures OutOk(w, SExpr(p, n, fr, e).out)
    decreases n, e, 0, |e.arms| + 1
  {
    hide RunBin, HelperBin, RunNeg, HelperNeg, W.InRange, EnvOk, W.Known, ArmOk, SArms, SideOk, Find;
    SameSide(w, p, q, n, ls, fr, e.scrut);
    var r := SExpr(p, n, fr, e.scrut);
    if r.out.Norm? {
      SameArms(w, p, q, n, ls, r.fr, e, r.out.v, 0);
    }
  }

  lemma {:induction false} SameBin(
      w: W.Width, p: Program, q: Program, n: nat, ls: set<string>, fr: Frames, e: Expr)
    requires Pair(w, p, q) && EnvOk(w, ls, fr) && e.Bin? && PlainOk(w, p, ls, e)
    ensures SExpr(p, n, fr, e) == SExpr(q, n, fr, e) && EnvOk(w, ls, SExpr(p, n, fr, e).fr)
    ensures OutOk(w, SExpr(p, n, fr, e).out)
    decreases n, e, 0, 0
  {
    hide RunBin, HelperBin, W.InRange, EnvOk, W.Known, SBlock, SCall, SArms, SArgs, Fine;
    SameSide(w, p, q, n, ls, fr, e.l);
    var l := SExpr(p, n, fr, e.l);
    if l.out.Norm? {
      NoCount(w, l.out.v);
      SameSide(w, p, q, n, ls, l.fr, e.r);
      var r := SExpr(p, n, l.fr, e.r);
      if r.out.Norm? {
        NoCount(w, r.out.v);
        BinSame(w, e.op, l.out.v, r.out.v);
      }
    }
  }

  lemma {:induction false} SameIf(
      w: W.Width, p: Program, q: Program, n: nat, ls: set<string>, fr: Frames, e: Expr)
    requires Pair(w, p, q) && EnvOk(w, ls, fr) && e.If? && PlainOk(w, p, ls, e)
    ensures SExpr(p, n, fr, e) == SExpr(q, n, fr, e) && EnvOk(w, ls, SExpr(p, n, fr, e).fr)
    ensures OutOk(w, SExpr(p, n, fr, e).out)
    decreases n, e, 0, 0
  {
    hide RunPrims, HelperPrims, EnvOk, W.Known, SBlock, SCall, SArms, SArgs, BlockOk;
    SamePlain(w, p, q, n, ls, fr, e.cond);
    var r := SExpr(p, n, fr, e.cond);
    if r.out.Norm? {
      if Truthy(r.out.v) {
        SameBlock(w, p, q, n, ls, r.fr, e.thn);
      } else if e.els.Some? {
        SamePlain(w, p, q, n, ls, r.fr, e.els.value);
      }
    }
  }

  lemma PartFine(w: W.Width, o: Out)
    requires OutOk(w, o)
    ensures o.Norm? ==> Fine(w, Unwrap(o.v))
  {
  }

  lemma {:induction false} SameTwo(
      w: W.Width, p: Program, q: Program, n: nat, ls: set<string>, fr: Frames, e: Expr, x: Expr, y: Expr)
    requires Pair(w, p, q) && EnvOk(w, ls, fr) && PlainOk(w, p, ls, x) && PlainOk(w, p, ls, y)
    requires (e.AndAlso? || e.OrElse?) && x == e.l && y == e.r
    ensures SExpr(p, n, fr, e) == SExpr(q, n, fr, e) && EnvOk(w, ls, SExpr(p, n, fr, e).fr)
    ensures OutOk(w, SExpr(p, n, fr, e).out)
    decreases n, e, 0, 0
  {
    hide EnvOk, PlainOk, Pair, SBlock, SCall, SArms, SArgs;
    SamePlain(w, p, q, n, ls, fr, x);
    var l := SExpr(p, n, fr, x);
    if l.out.Norm? {
      SamePlain(w, p, q, n, ls, l.fr, y);
    }
  }

  /** What may reach a parameter or a `let` with this annotation. */
  predicate ValOk(w: W.Width, ann: Ann, v: Val) {
    AnnOk(w, ann) && SideFine(w, v) && (v.CountV? ==> Own(w, ann) && w != W.U64)
  }

  lemma OneArg(w: W.Width, p: Program, ls: set<string>, e: Expr, i: nat)
    requires e.Call? && PlainOk(w, p, ls, e) && i < |e.args|
    ensures ArgOk(w, p, ls, p.fns[e.f].params[i].ann, e.args[i])
  {
  }

  lemma SideVal(w: W.Width, p: Program, ls: set<string>, ann: Ann, e: Expr, v: Val)
    requires ArgOk(w, p, ls, ann, e) && SideFine(w, v) && (!Wide(ls, e) ==> Fine(w, v))
    ensures ValOk(w, ann, v)
  {
    NoCount(w, v);
  }

  lemma {:induction false} SameArgs(
      w: W.Width, p: Program, q: Program, n: nat, ls: set<string>, fr: Frames, e: Expr, i: nat)
    requires Pair(w, p, q) && EnvOk(w, ls, fr) && e.Call? && PlainOk(w, p, ls, e) && i <= |e.args|
    ensures SArgs(p, n, fr, e, i) == SArgs(q, n, fr, e, i) && EnvOk(w, ls, SArgs(p, n, fr, e, i).0)
    ensures
      var (fr', vals, out) := SArgs(p, n, fr, e, i);
      && (out.Ret? ==> Fine(w, out.v))
      && (out.Norm? ==> forall j :: 0 <= j < |vals| ==> ValOk(w, p.fns[e.f].params[i + j].ann, vals[j]))
    decreases n, e, 0, |e.args| - i
  {
    hide EnvOk, Fine, ValOk, SExpr, SideFine, RunPrims, HelperPrims, OneType;
    if i < |e.args| {
      var ann := p.fns[e.f].params[i].ann;
      hide PlainOk, Pair;
      assert ArgOk(w, p, ls, ann, e.args[i]) by {
        OneArg(w, p, ls, e, i);
      }
      SameSide(w, p, q, n, ls, fr, e.args[i]);
      var r := SExpr(p, n, fr, e.args[i]);
      if r.out.Norm? {
        SideVal(w, p, ls, ann, e.args[i], r.out.v);
        SameArgs(w, p, q, n, ls, r.fr, e, i + 1);
      }
    }
  }

  lemma {:induction false} SameArms(
      w: W.Width, p: Program, q: Program, n: nat, ls: set<string>, fr: Frames, e: Expr, v: Val, i: nat)
    requires Pair(w, p, q) && EnvOk(w, ls, fr) && e.Match? && PlainOk(w, p, ls, e) && i <= |e.arms|
    requires SideFine(w, v) && (v.CountV? ==> Wide(ls, e.scrut))
    ensures SArms(p, n, fr, e, v, i) == SArms(q, n, fr, e, v, i) && EnvOk(w, ls, SArms(p, n, fr, e, v, i).fr)
    ensures OutOk(w, SArms(p, n, fr, e, v, i).out)
    decreases n, e, 0, |e.arms| - i
  {
    hide EnvOk, Fine, FrameOk;
    if i < |e.arms| {
      var arm := e.arms[i];
      assert ArmOk(w, p, ls, arm);
      var m := PatBind(arm.pat, v);
      if m.None? {
        SameArms(w, p, q, n, ls, fr, e, v, i + 1);
      } else {
        PatOk(w, ls, arm.pat, v);
        ConsOk(w, ls, m.value, fr);
        SameGuard(w, p, q, n, ls, [m.value] + fr, arm);
        var g := SGuard(p, n, [m.value] + fr, arm);
        PopOk(w, ls, g.fr);
        if g.out.Norm? {
          if Truthy(g.out.v) {
            SamePlain(w, p, q, n, ls, g.fr, arm.body);
            PopOk(w, ls, SExpr(p, n, g.fr, arm.body).fr);
          } else {
            SameArms(w, p, q, n, ls, Pop(g.fr), e, v, i + 1);
          }
        }
      }
    }
  }

  lemma {:induction false} SameGuard(
      w: W.Width, p: Program, q: Program, n: nat, ls: set<string>, fr: Frames, arm: Arm)
    requires Pair(w, p, q) && EnvOk(w, ls, fr) && ArmOk(w, p, ls, arm)
    ensures SGuard(p, n, fr, arm) == SGuard(q, n, fr, arm) && EnvOk(w, ls, SGuard(p, n, fr, arm).fr)
    ensures OutOk(w, SGuard(p, n, fr, arm).out)
    decreases n, arm, 0, 0
  {
    if arm.guard.Some? {
      SamePlain(w, p, q, n, ls, fr, arm.guard.value);
    }
  }

  /** A call: the callee has loop variables of its own. */
  lemma {:induction false} SameCall(w: W.Width, p: Program, q: Program, n: nat, f: Fn, vals: seq<Val>)
    requires Pair(w, p, q) && |vals| == |f.params| && (exists g :: g in p.fns && p.fns[g] == f)
    requires forall j :: 0 <= j < |vals| ==> ValOk(w, f.params[j].ann, vals[j])
    ensures SCall(p, n, f, vals) == SCall(q, n, f, vals) && OutOk(w, SCall(p, n, f, vals))
    decreases n, f.body, 2, 0
  {
    hide Fine, EnvOk, FrameOk, AnnOk, W.Known;
    var ls :| FnOk(w, p, ls, f);
    assert FrameOk(w, ls, map[]) by {
      EmptyOk(w, ls);
    }
    ParamsSame(w, ls, map[], f, vals, 0);
    var m := BindParams(RunPrims(w), map[], f, vals, 0);
    if m.Some? {
      EmptyOk(w, ls);
      ConsOk(w, ls, m.value, []);
      assert [m.value] + [] == [m.value];
      SameBlock(w, p, q, n, ls, [m.value], f.body);
    }
  }

  lemma EmptyOk(w: W.Width, ls: set<string>)
    ensures FrameOk(w, ls, map[]) && EnvOk(w, ls, [])
  {
  }

  lemma {:induction false} SameBlock(
      w: W.Width, p: Program, q: Program, n: nat, ls: set<string>, fr: Frames, b: Block)
    requires Pair(w, p, q) && EnvOk(w, ls, fr) && BlockOk(w, p, ls, b)
    ensures SBlock(p, n, fr, b) == SBlock(q, n, fr, b) && EnvOk(w, ls, SBlock(p, n, fr, b).fr)
    ensures OutOk(w, SBlock(p, n, fr, b).out)
    decreases n, b, 1, |b.stmts| + 1
  {
    hide EnvOk, FrameOk;
    EmptyOk(w, ls);
    ConsOk(w, ls, map[], fr);
    SameStmts(w, p, q, n, ls, [map[]] + fr, b, 0);
    var r := SStmts(p, n, [map[]] + fr, b, 0);
    if r.out.Norm? && b.tail.Some? {
      SamePlain(w, p, q, n, ls, r.fr, b.tail.value);
      PopOk(w, ls, SExpr(p, n, r.fr, b.tail.value).fr);
    } else {
      PopOk(w, ls, r.fr);
    }
  }

  lemma {:induction false} SameStmts(
      w: W.Width, p: Program, q: Program, n: nat, ls: set<string>, fr: Frames, b: Block, i: nat)
    requires Pair(w, p, q) && EnvOk(w, ls, fr) && BlockOk(w, p, ls, b) && i <= |b.stmts|
    ensures SStmts(p, n, fr, b, i) == SStmts(q, n, fr, b, i) && EnvOk(w, ls, SStmts(p, n, fr, b, i).fr)
    ensures OutOk(w, SStmts(p, n, fr, b, i).out)
    decreases n, b, 1, |b.stmts| - i
  {
    hide EnvOk;
    if i < |b.stmts| {
      SameStmt(w, p, q, n, ls, fr, b.stmts[i]);
      var r := SStmt(p, n, fr, b.stmts[i]);
      if r.out.Norm? {
        SameStmts(w, p, q, n, ls, r.fr, b, i + 1);
      }
    }
  }

  lemma {:induction false} SameStmt(
      w: W.Width, p: Program, q: Program, n: nat, ls: set<string>, fr: Frames, s: Stmt)
    requires Pair(w, p, q) && EnvOk(w, ls, fr) && StmtOk(w, p, ls, s)
    ensures SStmt(p, n, fr, s) == SStmt(q, n, fr, s) && EnvOk(w, ls, SStmt(p, n, fr, s).fr)
    ensures OutOk(w, SStmt(p, n, fr, s).out)
    decreases n, s, 1, 0
  {
    hide EnvOk, FrameOk, Adapt, Assigned, W.Known, W.InRange;
    match s
    case Let(x, ann, e) =>
      SameSide(w, p, q, n, ls, fr, e);
      var r := SExpr(p, n, fr, e);
      if r.out.Norm? && x.Some? {
        SideVal(w, p, ls, ann, e, r.out.v);
        AdaptSame(w, ann, r.out.v);
        var a := Adapt(p.prims, ann, r.out.v);
        if a.Some? {
          DeclareOk(w, ls, r.fr, x.value, a.value);
        }
      }
    case Return(Some(e)) => SamePlain(w, p, q, n, ls, fr, e);
    case ExprS(e) => SamePlain(w, p, q, n, ls, fr, e);
    case Assign(x, aop, e) =>
      if Find(fr, x).Some? {
        FindOk(w, ls, fr, x);
        SameSide(w, p, q, n, ls, fr, e);
        var r := SExpr(p, n, fr, e);
        if r.out.Norm? {
          AssignSame(w, aop, Find(fr, x).value, r.out.v);
          var a := Assigned(p.prims, aop, Find(fr, x).value, r.out.v);
          if a.Some? {
            SetOk(w, ls, r.fr, x, a.value);
          }
        }
      }
    case While(_, _) => SameWhile(w, p, q, n, ls, fr, s);
    case For(_, _, _, _, _) => SameFor(w, p, q, n, ls, fr, s);
    case _ =>
  }

  lemma {:induction false} SameWhile(
      w: W.Width, p: Program, q: Program, n: nat, ls: set<string>, fr: Frames, s: Stmt)
    requires Pair(w, p, q) && EnvOk(w, ls, fr) && s.While? && StmtOk(w, p, ls, s)
    ensures SWhile(p, n, fr, s) == SWhile(q, n, fr, s) && EnvOk(w, ls, SWhile(p, n, fr, s).fr)
    ensures OutOk(w, SWhile(p, n, fr, s).out)
    decreases n, s, 0, 0
  {
    hide EnvOk, FrameOk;
    SamePlain(w, p, q, n, ls, fr, s.cond);
    var c := SExpr(p, n, fr, s.cond);
    if c.out.Norm? && Truthy(c.out.v) {
      SameBlock(w, p, q, n, ls, c.fr, s.body);
      if n > 0 {
        SameWhile(w, p, q, n - 1, ls, SBlock(p, n, c.fr, s.body).fr, s);
      }
    }
  }

  lemma {:induction false} SameFor(
      w: W.Width, p: Program, q: Program, n: nat, ls: set<string>, fr: Frames, s: Stmt)
    requires Pair(w, p, q) && EnvOk(w, ls, fr) && s.For? && StmtOk(w, p, ls, s)
    ensures SStmt(p, n, fr, s) == SStmt(q, n, fr, s) && EnvOk(w, ls, SStmt(p, n, fr, s).fr)
    ensures OutOk(w, SStmt(p, n, fr, s).out)
    decreases n, s, 0, 1
  {
    hide EnvOk, FrameOk, W.InRange, BoundOf;
    SameSide(w, p, q, n, ls, fr, s.lo);
    var l := SExpr(p, n, fr, s.lo);
    if l.out.Norm? {
      SameSide(w, p, q, n, ls, l.fr, s.hi);
      var h := SExpr(p, n, l.fr, s.hi);
      if h.out.Norm? {
        var a, b := BoundOf(l.out.v), BoundOf(h.out.v);
        var first := if s.name.Some? then map[s.name.value := CountV(0)] else map[];
        FirstOk(w, ls, s.name);
        ConsOk(w, ls, first, h.fr);
        BoundFits(l.out.v);
        BoundFits(h.out.v);
        SameRange(w, p, q, n, ls, [first] + h.fr, s, a, b);
        PopOk(w, ls, SFor(p, n, [first] + h.fr, s, a, b).fr);
      }
    }
  }

  lemma VoidFine(w: W.Width)
    ensures Fine(w, VoidV)
  {
  }

  lemma FirstOk(w: W.Width, ls: set<string>, x: Option<string>)
    requires Names.OptName(x) <= ls
    ensures FrameOk(w, ls, if x.Some? then map[x.value := CountV(0)] else map[])
  {
    if x.Some? {
      assert x.value in Names.OptName(x);
    }
  }

  lemma BoundFits(v: Val)
    ensures W.InRange(W.I64, BoundOf(v))
  {
    if IsInt(v) {
      W.CastIsResidue(W.I64, v.i);
    }
  }

  /** What one pass of a loop, and the passes after it, come to. */
  function Passed(n: nat, r: Res, next: Res): Res {
    match r.out
    case Brk => Res(r.fr, Norm(VoidV))
    case Norm(_) => if n == 0 then Res(r.fr, Dry) else next
    case Cont => if n == 0 then Res(r.fr, Dry) else next
    case _ => r
  }

  lemma ForStep(p: Program, n: nat, fr: Frames, s: Stmt, cur: int, hi: int)
    requires s.For? && fr != []
    ensures
      var fr' := if s.name.Some? then Declare(fr, s.name.value, CountV(cur)) else fr;
      var r := SBlock(p, n, fr', s.body);
      SFor(p, n, fr, s, cur, hi) ==
        if !InRange(cur, hi, s.incl) then Res(fr, Norm(VoidV))
        else Passed(n, r, if n == 0 then r else SFor(p, n - 1, r.fr, s, cur + 1, hi))
  {
    hide SBlock;
  }

  lemma {:induction false} SameRange(
      w: W.Width, p: Program, q: Program, n: nat, ls: set<string>, fr: Frames, s: Stmt, cur: int, hi: int)
    requires Pair(w, p, q) && EnvOk(w, ls, fr) && s.For? && StmtOk(w, p, ls, s) && fr != []
    requires W.Lo(W.I64) <= cur && W.InRange(W.I64, hi)
    ensures SFor(p, n, fr, s, cur, hi) == SFor(q, n, fr, s, cur, hi) && EnvOk(w, ls, SFor(p, n, fr, s, cur, hi).fr)
    ensures OutOk(w, SFor(p, n, fr, s, cur, hi).out)
    decreases n, s, 0, 0
  {
    ForStep(p, n, fr, s, cur, hi);
    ForStep(q, n, fr, s, cur, hi);
    hide SFor, SBlock, EnvOk, FrameOk, PlainOk, SideOk, BlockOk, Pair, W.Hi, W.Lo, Fine;
    VoidFine(w);
    if InRange(cur, hi, s.incl) {
      var fr' := if s.name.Some? then Declare(fr, s.name.value, CountV(cur)) else fr;
      if s.name.Some? {
        assert s.name.value in Names.OptName(s.name);
        DeclareOk(w, ls, fr, s.name.value, CountV(cur));
      }
      SameBlock(w, p, q, n, ls, fr', s.body);
      if n > 0 {
        SameRange(w, p, q, n - 1, ls, SBlock(p, n, fr', s.body).fr, s, cur + 1, hi);
      }
    }
  }

  // ---------- Both sides with their own arithmetic ----------

  /** For a program over one type that keeps to the rules: the emitted code, computing
      with its helpers, means what the interpreter, computing in its own way, makes of
      the program. */
  lemma EmittedWithHelpers(
      w: W.Width, p: Program, cp: CProgram, n: nat, s: F.State, name: string, vals: seq<Val>)
    requires W.Known(w) && p.prims == RunPrims(w) && OneType(w, p) && Setting(p.(prims := HelperPrims(w)), cp)
    requires name in p.fns && |vals| == |p.fns[name].params| && s.Calm()
    requires forall j :: 0 <= j < |vals| ==> ValOk(w, p.fns[name].params[j].ann, vals[j])
    ensures name in cp.fns && |cp.fns[name].params| == |vals|
    ensures
      var i, c := F.FCall(p, n, s, p.fns[name], vals), CRun(cp, n, cp.fns[name], vals);
      match c
      case CIs(v) => i.Go? && i.s == s && (p.fns[name].isVoid || i.v == v)
      case CHalts => i == F.Stop
      case CDries => i == F.Dry
      case CBad => false
  {
    hide RunPrims, HelperPrims, OneType, ValOk;
    var q := p.(prims := HelperPrims(w));
    CallsAgree(q, cp, n + 1);
    assert SimExprs.CallAgrees(q, cp, n, name, vals);
    SameCall(w, p, q, n, p.fns[name], vals);
    assert OkProgram(p);
    FlagTheorem.BodyAgrees(p, n, s, p.fns[name], vals);
  }

  // ---------- Why loop variables must not be computed with ----------

  /** `fn f(a: I32) -> Bool { for i in a..=a { return i + 1 > a } return false }` */
  function Counting(): Fn {
    var sum := Bin(Add, Var("i"), Lit(IntV(1)));
    var body := Block([Return(Some(Bin(Gt, sum, Var("a"))))], None);
    var loop := For(Some("i"), Var("a"), Var("a"), true, body);
    Fn([Param("a", IntTy(32, false))], false, Block([loop, Return(Some(Lit(BoolV(false))))], None))
  }

  const TOP := 0x7fff_ffff

  /** What the function does with `a`, whatever it computes with. */
  lemma CountingRuns(p: Program, n: nat, a: int)
    requires p.prims.fit(IntTy(32, false), a) == Some(a) && p.prims.bound(IntV(a)) == a
    ensures
      var sum := p.prims.bin(Add, CountV(a), IntV(1));
      SCall(p, n, Counting(), [IntV(a)]) ==
        if sum.None? then Halt
        else Checked(p.prims.bin(Gt, sum.value, IntV(a)))
  {
    var f := Counting();
    var loop := f.body.stmts[0];
    var m: Frame := map["a" := IntV(a)];
    assert BindParams(p.prims, map[], f, [IntV(a)], 0) == BindParams(p.prims, m, f, [IntV(a)], 1) == Some(m);
    var fr: Frames := [map[], m];
    assert [map[]] + [m] == fr;
    assert fr[1..] == [m] && Find(fr, "a") == Find([m], "a") == Some(IntV(a));
    var inner := [map["i" := CountV(0)]] + fr;
    CountingBody(p, n, inner, loop, a);
    assert SStmt(p, n, fr, loop) == Res(Pop(SFor(p, n, inner, loop, a, a).fr), SFor(p, n, inner, loop, a, a).out);
    assert SStmts(p, n, fr, f.body, 0).out == SFor(p, n, inner, loop, a, a).out;
  }

  /** The one pass of its loop. */
  lemma CountingBody(p: Program, n: nat, fr: Frames, loop: Stmt, a: int)
    requires loop == Counting().body.stmts[0] && |fr| == 3
    requires fr[0] == map["i" := CountV(0)] && fr[1] == map[] && fr[2] == map["a" := IntV(a)]
    ensures
      var sum, r := p.prims.bin(Add, CountV(a), IntV(1)), SFor(p, n, fr, loop, a, a);
      if sum.None? then r.out == Halt
      else
        var gt := p.prims.bin(Gt, sum.value, IntV(a));
        r.out == if gt.None? then Halt else Ret(gt.value)
  {
    var b := loop.body;
    var fr1 := Declare(fr, "i", CountV(a));
    var fr2 := [map[]] + fr1;
    assert fr[0]["i" := CountV(a)] == map["i" := CountV(a)];
    assert fr1 == [map["i" := CountV(a)]] + fr[1..];
    assert fr2[1..] == fr1 && fr1[1..] == fr[1..] && fr[1..][1..] == fr[2..];
    assert Find(fr2, "i") == Find(fr1, "i") == Some(CountV(a));
    assert Find(fr2, "a") == Find(fr1, "a") == Find(fr[1..], "a") == Find(fr[2..], "a") == Some(IntV(a));
    var sum := Bin(Add, Var("i"), Lit(IntV(1)));
    assert SExpr(p, n, fr2, Var("i")) == Res(fr2, Norm(CountV(a)));
    assert SExpr(p, n, fr2, Lit(IntV(1))) == Res(fr2, Norm(IntV(1)));
    assert SExpr(p, n, fr2, sum) == Res(fr2, Checked(p.prims.bin(Add, CountV(a), IntV(1))));
    assert SExpr(p, n, fr2, Var("a")) == Res(fr2, Norm(IntV(a)));
    var r := SExpr(p, n, fr2, Bin(Gt, sum, Var("a")));
    assert SStmt(p, n, fr2, b.stmts[0]).out == if r.out.Norm? then Ret(r.out.v) else r.out;
    assert SStmts(p, n, fr2, b, 0).out == SStmt(p, n, fr2, b.stmts[0]).out;
  }

  lemma CountingNames()
    ensures
      var b := Counting().body;
      var body := b.stmts[0].body;
      && Names.BlockNames(body, false) == {} && Names.BlockNames(body, true) == {}
      && Names.StmtsNames(b, false, 1) == {} && Names.BlockNames(b, false) <= {"i"}
      && ParamNames(Counting()) == {"a"}
  {
    var b := Counting().body;
    var body := b.stmts[0].body;
    var sum := Bin(Add, Var("i"), Lit(IntV(1)));
    forall asg: bool
      ensures Names.BlockNames(body, asg) == {} && Names.ExprNames(Var("a"), asg) == {}
    {
      assert Names.ExprNames(sum, asg) == {} && Names.ExprNames(Var("a"), asg) == {};
      assert Names.StmtNames(body.stmts[0], asg) == {} && Names.StmtsNames(body, asg, 1) == {};
    }
    assert Names.StmtNames(b.stmts[1], false) == {} && Names.StmtsNames(b, false, 2) == {};
    assert Names.StmtNames(b.stmts[0], false) == {"i"};
    assert ParamsFrom(Counting(), 1) == {};
  }

  /** It keeps to the rules and is emitted. */
  lemma CountingIsGood(q: Program)
    requires q.fns == map["f" := Counting()]
    ensures GoodProgram(q) && OkProgram(q)
  {
    var f := Counting();
    var loop := f.body.stmts[0];
    CountingNames();
    assert GoodStmt(q, false, loop.body.stmts[0]) && GoodStmts(q, false, loop.body, false, 1);
    assert GoodStmts(q, false, loop.body, false, 0);
    assert GoodStmt(q, false, loop) && GoodStmt(q, false, f.body.stmts[1]);
    assert GoodStmts(q, false, f.body, false, 2);
    assert GoodStmts(q, false, f.body, false, 1);
    assert GoodStmts(q, false, f.body, false, 0);
    assert BlockDiverts(f.body, 1);
    assert OkStmt(loop.body.stmts[0], true, true);
    assert OkStmt(loop, true, false) && OkStmt(f.body.stmts[1], true, false);
  }

  lemma CountingIsEmitted(q: Program)
    ensures LFn(q, Counting(), 0).Some?
  {
    var f := Counting();
    var loop := f.body.stmts[0];
    var vis := ParamNames(f);
    CountingNames();
    var in_ := LoopVis(vis, Some("i"));
    var sum := Bin(Add, Var("i"), Lit(IntV(1)));
    assert LExpr(q, in_, Var("i")).Some? && LExpr(q, in_, Var("a")).Some? && LExpr(q, in_, Lit(IntV(1))).Some?;
    assert LExpr(q, in_, sum).Some?;
    assert LExpr(q, in_, Bin(Gt, sum, Var("a"))).Some?;
    assert LStmt(q, false, in_, 2, loop.body.stmts[0]).Some?;
    assert LStmts(q, false, in_, 2, loop.body, 0).Some?;
    assert LBlock(q, false, in_, 2, loop.body).Some?;
    assert LExpr(q, vis, Var("a")).Some?;
    assert LStmt(q, false, vis, 0, loop).Some?;
    var em := LStmt(q, false, vis, 0, loop).value;
    assert LStmt(q, false, em.vis, em.t, f.body.stmts[1]).Some?;
    assert LStmts(q, false, em.vis, em.t, f.body, 1).Some?;
    assert LStmts(q, false, vis, 0, f.body, 0).Some?;
  }

  lemma CountingShape()
    ensures |Counting().params| == 1 && !Counting().isVoid && OkBlock(Counting().body, true, false)
  {
    CountingIsGood(Program(map["f" := Counting()], RunPrims(W.I32)));
  }

  /** It computes with its loop variable. */
  lemma NotOneType(p: Program)
    requires p.fns == map["f" := Counting()]
    ensures !OneType(W.I32, p)
  {
    var f := Counting();
    var loop := f.body.stmts[0];
    var sum := Bin(Add, Var("i"), Lit(IntV(1)));
    forall ls: set<string>
      ensures !FnOk(W.I32, p, ls, f)
    {
      assert FnOk(W.I32, p, ls, f) ==> StmtOk(W.I32, p, ls, loop);
      assert "i" in Names.OptName(loop.name);
      assert StmtOk(W.I32, p, ls, loop) ==> "i" in ls && StmtOk(W.I32, p, ls, loop.body.stmts[0]);
      assert StmtOk(W.I32, p, ls, loop.body.stmts[0]) ==> PlainOk(W.I32, p, ls, Bin(Gt, sum, Var("a")));
      assert PlainOk(W.I32, p, ls, Bin(Gt, sum, Var("a"))) ==> PlainOk(W.I32, p, ls, sum);
      assert PlainOk(W.I32, p, ls, sum) ==> PlainOk(W.I32, p, ls, Var("i"));
    }
    assert "f" in p.fns && p.fns["f"] == f;
  }

  lemma TopRanges()
    ensures W.InRange(W.I32, TOP) && !W.InRange(W.I32, TOP + 1)
    ensures W.InRange(W.I64, TOP) && W.InRange(W.I64, TOP + 1) && W.InRange(W.I64, 1)
  {
    MixedOperands.Pow34();
    W.PowMono(32, 63);
  }

  lemma TopFacts()
    ensures RunFit(IntTy(32, false), TOP) == HelperFit(IntTy(32, false), TOP) == Some(TOP)
    ensures BoundOf(IntV(TOP)) == TOP
    ensures RunBin(W.I32, Add, CountV(TOP), IntV(1)) == None
    ensures HelperBin(W.I32, Add, CountV(TOP), IntV(1)) == Some(CountV(TOP + 1))
    ensures HelperBin(W.I32, Gt, CountV(TOP + 1), IntV(TOP)) == Some(BoolV(true))
  {
    hide W.InRange, A.Fits, W.Cast, A.Emitted, A.EmittedDecl, W.Lo, W.Hi;
    TopRanges();
    A.FitsIsRange(TOP, W.I32);
    A.FitsIsRange(TOP + 1, W.I32);
    A.FitsIsRange(TOP + 1, W.I64);
    W.CastInRange(W.I64, TOP);
    ArithmeticTheorem.DeclAgrees(W.I32, TOP);
    ArithmeticTheorem.CheckedAgrees(A.Add, W.I64, TOP, 1);
    ArithmeticTheorem.NoWideOverflow(A.Add, W.I64, TOP, 1);
  }

  /** With `a` the largest I32 the interpreter panics, since to it `i` is an I32; the
      emitted code, to which it is an I64, answers. */
  lemma LoopTypesDiffer(n: nat, s: F.State) returns (p: Program, cp: CProgram)
    requires s.Calm()
    ensures p.fns == map["f" := Counting()] && p.prims == RunPrims(W.I32)
    ensures Setting(p.(prims := HelperPrims(W.I32)), cp)
    ensures F.FCall(p, n, s, Counting(), [IntV(TOP)]) == F.Stop
    ensures |cp.fns["f"].params| == 1 && CRun(cp, n, cp.fns["f"], [IntV(TOP)]) == CIs(BoolV(true))
    ensures !OneType(W.I32, p)
  {
    hide Counting, GoodFn, LFn, OkBlock, FnOk, SCall, CRun, F.FCall, RunFit, HelperFit, RunBin, HelperBin, BoundOf;
    p := Program(map["f" := Counting()], RunPrims(W.I32));
    assert |Counting().params| == 1 && !Counting().isVoid && OkBlock(Counting().body, true, false) by {
      CountingShape();
    }
    var q := p.(prims := HelperPrims(W.I32));
    CountingIsGood(q);
    CountingIsEmitted(q);
    cp := CProgram(map["f" := LFn(q, Counting(), 0).value], HelperPrims(W.I32));
    TopFacts();
    CountingRuns(p, n, TOP);
    CountingRuns(q, n, TOP);
    FlagTheorem.BodyAgrees(p, n, s, Counting(), [IntV(TOP)]);
    CallsAgree(q, cp, n + 1);
    assert SimExprs.CallAgrees(q, cp, n, "f", [IntV(TOP)]);
    NotOneType(p);
  }
}
