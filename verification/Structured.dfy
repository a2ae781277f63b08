/** A structured big-step semantics: names are scoped to the function they are
    bound in, and a block ends in one of four ways, or the run stops. `n` bounds
    calls and loop iterations along a run; `Dry` means the bound was reached. */
module Structured {
  import opened Options
  import opened Syntax

  datatype Out =
    | Norm(v: Val)
    | Brk
    | Cont
    | Ret(v: Val)
    | Halt
    | Dry
    | Unbound

  datatype Res = Res(fr: Frames, out: Out)

  function SExpr(p: Program, n: nat, fr: Frames, e: Expr): (r: Res)
    ensures |r.fr| == |fr|
    decreases n, e, 1, 0
  {
    match e
    case Lit(v) => Res(fr, Norm(v))
    case Var(x) =>
      var b := Find(fr, x);
      Res(fr, if b.Some? then Norm(b.value) else Unbound)
    case Not(x) =>
      var r := SExpr(p, n, fr, x);
      if !r.out.Norm? then r else Res(r.fr, Norm(BoolV(!Truthy(r.out.v))))
    case Neg(x) =>
      var r := SExpr(p, n, fr, x);
      if !r.out.Norm? then r else Res(r.fr, Checked(p.prims.neg(r.out.v)))
    case Bin(op, x, y) =>
      var l := SExpr(p, n, fr, x);
      if !l.out.Norm? then l else
      var r := SExpr(p, n, l.fr, y);
      if !r.out.Norm? then r else Res(r.fr, Checked(p.prims.bin(op, l.out.v, r.out.v)))
    case AndAlso(x, y) =>
      var l := SExpr(p, n, fr, x);
      if !l.out.Norm? then l
      else if !Truthy(l.out.v) then Res(l.fr, Norm(BoolV(false)))
      else
        var r := SExpr(p, n, l.fr, y);
        if !r.out.Norm? then r else Res(r.fr, Norm(BoolV(Truthy(r.out.v))))
    case OrElse(x, y) =>
      var l := SExpr(p, n, fr, x);
      if !l.out.Norm? then l
      else if Truthy(l.out.v) then Res(l.fr, Norm(BoolV(true)))
      else
        var r := SExpr(p, n, l.fr, y);
        if !r.out.Norm? then r else Res(r.fr, Norm(BoolV(Truthy(r.out.v))))
    case MkPay(tag, x) =>
      var r := SExpr(p, n, fr, x);
      if !r.out.Norm? then r else Res(r.fr, Norm(PayV(tag, r.out.v)))
    case Call(f, args) =>
      if f !in p.fns || |p.fns[f].params| != |args| then Res(fr, Halt) else
      var (fr', vals, out) := SArgs(p, n, fr, e, 0);
      if !out.Norm? then Res(fr', out)
      else if n == 0 then Res(fr', Dry)
      else Res(fr', SCall(p, n - 1, p.fns[f], vals))
    case Panic => Res(fr, Halt)
    case Try(x) =>
      var r := SExpr(p, n, fr, x);
      if !r.out.Norm? then r
      else Res(r.fr, if IsBad(r.out.v) then Ret(r.out.v) else Norm(Unwrap(r.out.v)))
    case If(c, t, els) =>
      var r := SExpr(p, n, fr, c);
      if !r.out.Norm? then r
      else if Truthy(r.out.v) then SBlock(p, n, r.fr, t)
      else if els.Some? then SExpr(p, n, r.fr, els.value)
      else Res(r.fr, Norm(VoidV))
    case Match(s, arms) =>
      var r := SExpr(p, n, fr, s);
      if !r.out.Norm? then r else SArms(p, n, r.fr, e, r.out.v, 0)
    case BlockE(b) => SBlock(p, n, fr, b)
  }

  function Checked(v: Option<Val>): Out { if v.Some? then Norm(v.value) else Halt }

  /** Arguments, left to right: the frames, the values so far and how it ended. */
  function SArgs(p: Program, n: nat, fr: Frames, e: Expr, i: nat): (r: (Frames, seq<Val>, Out))
    requires e.Call? && i <= |e.args|
    ensures |r.0| == |fr|
    ensures r.2.Norm? ==> |r.1| == |e.args| - i
    decreases n, e, 0, |e.args| - i
  {
    if i == |e.args| then (fr, [], Norm(VoidV)) else
    var r := SExpr(p, n, fr, e.args[i]);
    if !r.out.Norm? then (r.fr, [], r.out) else
    var (fr', vals, out) := SArgs(p, n, r.fr, e, i + 1);
    (fr', [r.out.v] + vals, out)
  }

  function SArms(p: Program, n: nat, fr: Frames, e: Expr, v: Val, i: nat): (r: Res)
    requires e.Match? && i <= |e.arms|
    ensures |r.fr| == |fr|
    decreases n, e, 0, |e.arms| - i
  {
    if i == |e.arms| then Res(fr, Halt) else
    var arm := e.arms[i];
    var m := PatBind(arm.pat, v);
    if m.None? then SArms(p, n, fr, e, v, i + 1) else
    var g := SGuard(p, n, [m.value] + fr, arm);
    if !g.out.Norm? then Res(Pop(g.fr), g.out)
    else if !Truthy(g.out.v) then SArms(p, n, Pop(g.fr), e, v, i + 1)
    else
      var r := SExpr(p, n, g.fr, arm.body);
      Res(Pop(r.fr), r.out)
  }

  function SGuard(p: Program, n: nat, fr: Frames, arm: Arm): (r: Res)
    ensures |r.fr| == |fr|
    decreases n, arm, 0, 0
  {
    if arm.guard.Some? then SExpr(p, n, fr, arm.guard.value) else Res(fr, Norm(BoolV(true)))
  }

  /** A call sees its parameters and nothing of its caller. */
  function SCall(p: Program, n: nat, f: Fn, vals: seq<Val>): Out
    requires |vals| == |f.params|
    decreases n, f.body, 2, 0
  {
    var m := BindParams(p.prims, map[], f, vals, 0);
    if m.None? then Halt else
    match SBlock(p, n, [m.value], f.body).out
    case Norm(v) => Norm(v)
    case Ret(v) => Norm(v)
    case Dry => Dry
    case Unbound => Unbound
    case _ => Halt
  }

  function SBlock(p: Program, n: nat, fr: Frames, b: Block): (r: Res)
    ensures |r.fr| == |fr|
    decreases n, b, 1, |b.stmts| + 1
  {
    var r := SStmts(p, n, [map[]] + fr, b, 0);
    var t := if r.out.Norm? && b.tail.Some? then SExpr(p, n, r.fr, b.tail.value) else r;
    Res(Pop(t.fr), t.out)
  }

  /** The statements from `i` on. */
  function SStmts(p: Program, n: nat, fr: Frames, b: Block, i: nat): (r: Res)
    requires i <= |b.stmts|
    ensures |r.fr| == |fr|
    decreases n, b, 1, |b.stmts| - i
  {
    if i == |b.stmts| then Res(fr, Norm(VoidV)) else
    var r := SStmt(p, n, fr, b.stmts[i]);
    if !r.out.Norm? then r else SStmts(p, n, r.fr, b, i + 1)
  }

  function SStmt(p: Program, n: nat, fr: Frames, s: Stmt): (r: Res)
    ensures |r.fr| == |fr|
    decreases n, s, 1, 0
  {
    match s
    case Let(x, ann, e) =>
      var r := SExpr(p, n, fr, e);
      if !r.out.Norm? then r
      else if x.None? then Res(r.fr, Norm(VoidV))
      else
        var a := Adapt(p.prims, ann, r.out.v);
        if a.None? then Res(r.fr, Halt) else Res(Declare(r.fr, x.value, a.value), Norm(VoidV))
    case Return(None) => Res(fr, Ret(VoidV))
    case Return(Some(e)) =>
      var r := SExpr(p, n, fr, e);
      if !r.out.Norm? then r else Res(r.fr, Ret(r.out.v))
    case Break => Res(fr, Brk)
    case Continue => Res(fr, Cont)
    case ExprS(e) =>
      var r := SExpr(p, n, fr, e);
      if !r.out.Norm? then r else Res(r.fr, Norm(VoidV))
    case Assign(x, aop, e) =>
      var was := Find(fr, x);
      if was.None? then Res(fr, Unbound) else
      var r := SExpr(p, n, fr, e);
      if !r.out.Norm? then r else
      var a := Syntax.Assigned(p.prims, aop, was.value, r.out.v);
      if a.None? then Res(r.fr, Halt) else Res(Set(r.fr, x, a.value), Norm(VoidV))
    case While(_, _) => SWhile(p, n, fr, s)
    case For(x, lo, hi, incl, _) =>
      var l := SExpr(p, n, fr, lo);
      if !l.out.Norm? then l else
      var h := SExpr(p, n, l.fr, hi);
      if !h.out.Norm? then h else
      var a, b := p.prims.bound(l.out.v), p.prims.bound(h.out.v);
      var first := if x.Some? then map[x.value := CountV(0)] else map[];
      var r := SFor(p, n, [first] + h.fr, s, a, b);
      Res(Pop(r.fr), r.out)
  }

  function SWhile(p: Program, n: nat, fr: Frames, s: Stmt): (r: Res)
    requires s.While?
    ensures |r.fr| == |fr|
    ensures !r.out.Brk? && !r.out.Cont?
    decreases n, s, 0, 0
  {
    var c := SExpr(p, n, fr, s.cond);
    if !c.out.Norm? then Res(c.fr, NoLoop(c.out))
    else if !Truthy(c.out.v) then Res(c.fr, Norm(VoidV))
    else
      var r := SBlock(p, n, c.fr, s.body);
      match r.out
      case Brk => Res(r.fr, Norm(VoidV))
      case Norm(_) => if n == 0 then Res(r.fr, Dry) else SWhile(p, n - 1, r.fr, s)
      case Cont => if n == 0 then Res(r.fr, Dry) else SWhile(p, n - 1, r.fr, s)
      case _ => r
  }

  /** A loop condition is an operand, so it cannot end in `break`. */
  function NoLoop(o: Out): Out { if o.Brk? || o.Cont? then Halt else o }

  /** The iterations from `cur` on; the loop variable sits in the top frame. */
  function SFor(p: Program, n: nat, fr: Frames, s: Stmt, cur: int, hi: int): (r: Res)
    requires s.For? && fr != []
    ensures |r.fr| == |fr|
    ensures !r.out.Brk? && !r.out.Cont?
    decreases n, s, 0, 0
  {
    if !InRange(cur, hi, s.incl) then Res(fr, Norm(VoidV)) else
    var fr' := if s.name.Some? then Declare(fr, s.name.value, CountV(cur)) else fr;
    var r := SBlock(p, n, fr', s.body);
    match r.out
    case Brk => Res(r.fr, Norm(VoidV))
    case Norm(_) => if n == 0 then Res(r.fr, Dry) else SFor(p, n - 1, r.fr, s, cur + 1, hi)
    case Cont => if n == 0 then Res(r.fr, Dry) else SFor(p, n - 1, r.fr, s, cur + 1, hi)
    case _ => r
  }
}
