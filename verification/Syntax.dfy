/** The part of the language that the interpreter and the emitter share: plain
    expressions, value-position `if`, block and `match`, loops, early exits and
    calls. Integers are unbounded here; what checks and rounds them is a
    parameter, the `Prims` record, which both executions use. */
module Syntax {
  import opened Options

  /** `CountV` is what a loop variable holds: a number of the type that an execution
      gives to loop variables, whatever the types of its bounds. */
  datatype Val =
    | IntV(i: int)
    | CountV(i: int)
    | BoolV(b: bool)
    | UnitV(tag: string)
    | PayV(tag: string, payload: Val)
    | VoidV

  datatype BinOp = Add | Sub | Mul | Div | Mod | WAdd | WSub | Eq | Ne | Lt | Gt | Le | Ge

  /** A type annotation: absent, an integer type, or any other type. */
  datatype Ann = Bare | IntTy(bits: nat, unsigned: bool) | OtherTy

  datatype Expr =
    | Lit(v: Val)
    | Var(x: string)
    | Not(e: Expr)
    | Neg(e: Expr)
    | Bin(op: BinOp, l: Expr, r: Expr)
    | AndAlso(l: Expr, r: Expr)
    | OrElse(l: Expr, r: Expr)
    | MkPay(tag: string, e: Expr)
    | Call(f: string, args: seq<Expr>)
    | Panic
    | Try(e: Expr)
    | If(cond: Expr, thn: Block, els: Option<Expr>)
    | Match(scrut: Expr, arms: seq<Arm>)
    | BlockE(b: Block)

  datatype Block = Block(stmts: seq<Stmt>, tail: Option<Expr>)

  datatype Arm = Arm(pat: Pat, guard: Option<Expr>, body: Expr)

  datatype Pat =
    | Wild
    | Bind(x: string)
    | LitInt(i: int)
    | LitBool(b: bool)
    | UnitP(tag: string)
    | PayP(tag: string, sub: Pat)

  datatype Stmt =
    | Let(name: Option<string>, ann: Ann, e: Expr)
    | Return(val: Option<Expr>)
    | Break
    | Continue
    | ExprS(e: Expr)
    | Assign(x: string, aop: Option<BinOp>, e: Expr)
    | While(cond: Expr, body: Block)
    | For(name: Option<string>, lo: Expr, hi: Expr, incl: bool, body: Block)

  datatype Param = Param(x: string, ann: Ann)

  datatype Fn = Fn(params: seq<Param>, isVoid: bool, body: Block)

  /** The evaluator of plain operators, shared by both executions. `None` stops
      the run: overflow, division by zero, or operands the checker rejects.
      `fit` is the range check of an annotation, `store` and `compound` write to
      a slot that holds their first value, `bound` reads a range bound. */
  datatype Prims = Prims(
    bin: (BinOp, Val, Val) -> Option<Val>,
    neg: Val -> Option<Val>,
    fit: (Ann, int) -> Option<int>,
    store: (Val, Val) -> Option<Val>,
    compound: (BinOp, Val, Val) -> Option<Val>,
    bound: Val -> int)

  datatype Program = Program(fns: map<string, Fn>, prims: Prims)

  function Truthy(v: Val): bool {
    match v
    case BoolV(b) => b
    case IntV(i) => i != 0
    case CountV(i) => i != 0
    case _ => true
  }

  predicate IsInt(v: Val) { v.IntV? || v.CountV? }

  /** An annotation checks integers and leaves every other value alone. */
  function Adapt(p: Prims, ann: Ann, v: Val): Option<Val> {
    if !ann.IntTy? || !IsInt(v) then Some(v)
    else
      var r := p.fit(ann, v.i);
      if r.None? then None else Some(IntV(r.value))
  }

  function Assigned(p: Prims, aop: Option<BinOp>, was: Val, v: Val): Option<Val> {
    if aop.None? then p.store(was, v) else p.compound(aop.value, was, v)
  }

  predicate InRange(cur: int, hi: int, incl: bool) { if incl then cur <= hi else cur < hi }

  /** `None` and `Err` leave the function through `?`. */
  predicate IsBad(v: Val) { v == UnitV("None") || (v.PayV? && v.tag == "Err") }

  function Unwrap(v: Val): Val {
    if v.PayV? && (v.tag == "Some" || v.tag == "Ok") then v.payload else v
  }

  /** The bindings of a matching pattern. */
  function PatBind(p: Pat, v: Val): Option<map<string, Val>> {
    match p
    case Wild => Some(map[])
    case Bind(x) => Some(map[x := v])
    case LitInt(i) => if IsInt(v) && v.i == i then Some(map[]) else None
    case LitBool(b) => if v == BoolV(b) then Some(map[]) else None
    case UnitP(tag) => if v == UnitV(tag) then Some(map[]) else None
    case PayP(tag, sub) => if v.PayV? && v.tag == tag then PatBind(sub, v.payload) else None
  }

  // ---------- Environments ----------

  type Frame = map<string, Val>

  /** Parameters adapt and bind one after the other. */
  function BindParams(pr: Prims, m: Frame, f: Fn, vals: seq<Val>, i: nat): (r: Option<Frame>)
    requires |vals| == |f.params| && i <= |vals|
    decreases |vals| - i
  {
    if i == |vals| then Some(m) else
    var a := Adapt(pr, f.params[i].ann, vals[i]);
    if a.None? then None else BindParams(pr, m[f.params[i].x := a.value], f, vals, i + 1)
  }

  /** Frames, innermost first. */
  type Frames = seq<Frame>

  function Find(fr: Frames, x: string): Option<Val> {
    if fr == [] then None
    else if x in fr[0] then Some(fr[0][x])
    else Find(fr[1..], x)
  }

  /** Overwrites the innermost binding of `x`. */
  function Set(fr: Frames, x: string, v: Val): (r: Frames)
    ensures |r| == |fr|
  {
    if fr == [] then []
    else if x in fr[0] then [fr[0][x := v]] + fr[1..]
    else [fr[0]] + Set(fr[1..], x, v)
  }

  function Declare(fr: Frames, x: string, v: Val): Frames {
    if fr == [] then [] else [fr[0][x := v]] + fr[1..]
  }

  function Pop(fr: Frames): Frames { if fr == [] then [] else fr[1..] }

  lemma {:induction false} FindAppend(loc: Frames, base: Frames, x: string)
    ensures Find(loc, x).Some? ==> Find(loc + base, x) == Find(loc, x)
    ensures Find(loc, x).None? ==> Find(loc + base, x) == Find(base, x)
  {
    if loc == [] {
      assert loc + base == base;
    } else {
      assert (loc + base)[1..] == loc[1..] + base;
      FindAppend(loc[1..], base, x);
    }
  }

  lemma {:induction false} SetAppend(loc: Frames, base: Frames, x: string, v: Val)
    requires Find(loc, x).Some?
    ensures Set(loc + base, x, v) == Set(loc, x, v) + base
  {
    assert (loc + base)[1..] == loc[1..] + base;
    if x !in loc[0] {
      SetAppend(loc[1..], base, x, v);
    }
  }

  // ---------- The loop-depth check and the operand rule ----------

  /** `r`: leaving by `return` or `?` is allowed here; `b`: leaving by `break` or
      `continue` is. Operands may not be left at all, an annotated `let` may only
      be left by `?`, and a returned value may not be left by `break`. */
  predicate OkExpr(e: Expr, r: bool, b: bool) {
    match e
    case Lit(_) => true
    case Var(_) => true
    case Panic => true
    case Not(x) => OkExpr(x, false, false)
    case Neg(x) => OkExpr(x, false, false)
    case Bin(_, x, y) => OkExpr(x, false, false) && OkExpr(y, false, false)
    case AndAlso(x, y) => OkExpr(x, false, false) && OkExpr(y, false, false)
    case OrElse(x, y) => OkExpr(x, false, false) && OkExpr(y, false, false)
    case MkPay(_, x) => OkExpr(x, false, false)
    case Call(_, args) => forall i :: 0 <= i < |args| ==> OkExpr(args[i], false, false)
    case Try(x) => r && OkExpr(x, false, false)
    case If(c, t, els) => OkExpr(c, false, false) && OkBlock(t, r, b) && (els.Some? ==> OkExpr(els.value, r, b))
    case Match(s, arms) => OkExpr(s, false, false) && forall i :: 0 <= i < |arms| ==> OkArm(arms[i], r, b)
    case BlockE(blk) => OkBlock(blk, r, b)
  }

  predicate OkArm(a: Arm, r: bool, b: bool) {
    (a.guard.Some? ==> OkExpr(a.guard.value, false, false)) && OkExpr(a.body, r, b)
  }

  predicate OkBlock(blk: Block, r: bool, b: bool) {
    && (forall i :: 0 <= i < |blk.stmts| ==> OkStmt(blk.stmts[i], r, b))
    && (blk.tail.Some? ==> OkExpr(blk.tail.value, r, b))
  }

  predicate OkStmt(s: Stmt, r: bool, b: bool) {
    match s
    case Let(_, ann, e) =>
      if ann.IntTy? && !e.Try? then OkExpr(e, false, false) else OkExpr(e, r, b)
    case Return(v) => r && (v.Some? ==> OkExpr(v.value, r, false))
    case Break => b
    case Continue => b
    case ExprS(e) => OkExpr(e, r, b)
    case Assign(_, _, e) => OkExpr(e, false, false)
    case While(c, body) => OkExpr(c, false, false) && OkBlock(body, r, true)
    case For(_, lo, hi, _, body) => OkExpr(lo, false, false) && OkExpr(hi, false, false) && OkBlock(body, r, true)
  }

  ghost predicate OkProgram(p: Program) {
    forall f :: f in p.fns ==> OkBlock(p.fns[f].body, true, false)
  }
}
