/** The tree-walking interpreter: one stack of frames that a callee shares with
    its caller, and control flow by three flags. `n` bounds calls and loop
    iterations along a run; `Dry` means the bound was reached. */
module FlagInterp {
  import opened Options
  import opened Syntax

  datatype State = State(fr: Frames, hasRet: bool, ret: Val, hasBrk: bool, hasCont: bool) {
    predicate Calm() { !hasRet && !hasBrk && !hasCont }
  }

  datatype Res = Go(s: State, v: Val) | Stop | Dry

  function Pushed(s: State, f: Frame): State { s.(fr := [f] + s.fr) }

  function Popped(s: State): State { s.(fr := Pop(s.fr)) }

  function FExpr(p: Program, n: nat, s: State, e: Expr): (r: Res)
    ensures r.Go? ==> |r.s.fr| == |s.fr|
    decreases n, e, 1, 0
  {
    match e
    case Lit(v) => Go(s, v)
    case Var(x) =>
      var b := Find(s.fr, x);
      if b.Some? then Go(s, b.value) else Stop
    case Not(x) =>
      var r := FExpr(p, n, s, x);
      if !r.Go? then r else Go(r.s, BoolV(!Truthy(r.v)))
    case Neg(x) =>
      var r := FExpr(p, n, s, x);
      if !r.Go? then r else Checked(r.s, p.prims.neg(r.v))
    case Bin(op, x, y) =>
      var l := FExpr(p, n, s, x);
      if !l.Go? then l else
      var r := FExpr(p, n, l.s, y);
      if !r.Go? then r else Checked(r.s, p.prims.bin(op, l.v, r.v))
    case AndAlso(x, y) =>
      var l := FExpr(p, n, s, x);
      if !l.Go? then l
      else if !Truthy(l.v) then Go(l.s, BoolV(false))
      else
        var r := FExpr(p, n, l.s, y);
        if !r.Go? then r else Go(r.s, BoolV(Truthy(r.v)))
    case OrElse(x, y) =>
      var l := FExpr(p, n, s, x);
      if !l.Go? then l
      else if Truthy(l.v) then Go(l.s, BoolV(true))
      else
        var r := FExpr(p, n, l.s, y);
        if !r.Go? then r else Go(r.s, BoolV(Truthy(r.v)))
    case MkPay(tag, x) =>
      var r := FExpr(p, n, s, x);
      if !r.Go? then r else Go(r.s, PayV(tag, r.v))
    case Call(f, args) =>
      if f !in p.fns || |p.fns[f].params| != |args| then Stop else
      var (r, vals) := FArgs(p, n, s, e, 0);
      if !r.Go? then r
      else if n == 0 then Dry
      else FCall(p, n - 1, r.s, p.fns[f], vals)
    case Panic => Stop
    case Try(x) =>
      var r := FExpr(p, n, s, x);
      if !r.Go? then r
      else if IsBad(r.v) then Go(r.s.(hasRet := true, ret := r.v), r.v)
      else Go(r.s, Unwrap(r.v))
    case If(c, t, els) =>
      var r := FExpr(p, n, s, c);
      if !r.Go? then r
      else if Truthy(r.v) then FBlock(p, n, r.s, t)
      else if els.Some? then FExpr(p, n, r.s, els.value)
      else Go(r.s, VoidV)
    case Match(x, arms) =>
      var r := FExpr(p, n, s, x);
      if !r.Go? then r else FArms(p, n, r.s, e, r.v, 0)
    case BlockE(b) => FBlock(p, n, s, b)
  }

  function Checked(s: State, v: Option<Val>): Res { if v.Some? then Go(s, v.value) else Stop }

  /** Arguments, left to right, in the caller's environment. */
  function FArgs(p: Program, n: nat, s: State, e: Expr, i: nat): (r: (Res, seq<Val>))
    requires e.Call? && i <= |e.args|
    ensures r.0.Go? ==> |r.0.s.fr| == |s.fr| && |r.1| == |e.args| - i
    decreases n, e, 0, |e.args| - i
  {
    if i == |e.args| then (Go(s, VoidV), []) else
    var r := FExpr(p, n, s, e.args[i]);
    if !r.Go? then (r, []) else
    var (r', vals) := FArgs(p, n, r.s, e, i + 1);
    (r', [r.v] + vals)
  }

  function FArms(p: Program, n: nat, s: State, e: Expr, v: Val, i: nat): (r: Res)
    requires e.Match? && i <= |e.arms|
    ensures r.Go? ==> |r.s.fr| == |s.fr|
    decreases n, e, 0, |e.arms| - i
  {
    if i == |e.arms| then Stop else
    var arm := e.arms[i];
    var m := PatBind(arm.pat, v);
    if m.None? then FArms(p, n, s, e, v, i + 1) else
    var g := FGuard(p, n, Pushed(s, m.value), arm);
    if !g.Go? then g
    else if !Truthy(g.v) then FArms(p, n, Popped(g.s), e, v, i + 1)
    else
      var r := FExpr(p, n, g.s, arm.body);
      if !r.Go? then r else Go(Popped(r.s), r.v)
  }

  function FGuard(p: Program, n: nat, s: State, arm: Arm): (r: Res)
    ensures r.Go? ==> |r.s.fr| == |s.fr|
    decreases n, arm, 0, 0
  {
    if arm.guard.Some? then FExpr(p, n, s, arm.guard.value) else Go(s, BoolV(true))
  }

  /** The callee's frame goes on top of the caller's. A pending return is saved
      and restored around the body; `break` and `continue` are not. */
  function FCall(p: Program, n: nat, s: State, f: Fn, vals: seq<Val>): (r: Res)
    requires |vals| == |f.params|
    ensures r.Go? ==> |r.s.fr| == |s.fr|
    decreases n, f.body, 2, 0
  {
    var m := BindParams(p.prims, map[], f, vals, 0);
    if m.None? then Stop else
    var r := FBlock(p, n, Pushed(s, m.value).(hasRet := false), f.body);
    if !r.Go? then r else
    Go(Popped(r.s).(hasRet := s.hasRet, ret := s.ret), if r.s.hasRet then r.s.ret else r.v)
  }

  function FBlock(p: Program, n: nat, s: State, b: Block): (r: Res)
    ensures r.Go? ==> |r.s.fr| == |s.fr|
    decreases n, b, 1, |b.stmts| + 1
  {
    var r := FStmts(p, n, Pushed(s, map[]), b, 0);
    if !r.Go? then r else
    var t := if r.s.Calm() && b.tail.Some? then FExpr(p, n, r.s, b.tail.value) else r;
    if !t.Go? then t else Go(Popped(t.s), if t.s.hasRet then t.s.ret else t.v)
  }

  /** The statements from `i` on, until a flag is set. */
  function FStmts(p: Program, n: nat, s: State, b: Block, i: nat): (r: Res)
    requires i <= |b.stmts|
    ensures r.Go? ==> |r.s.fr| == |s.fr|
    decreases n, b, 1, |b.stmts| - i
  {
    if i == |b.stmts| || !s.Calm() then Go(s, VoidV) else
    var r := FStmt(p, n, s, b.stmts[i]);
    if !r.Go? then r else FStmts(p, n, r.s, b, i + 1)
  }

  function FStmt(p: Program, n: nat, s: State, st: Stmt): (r: Res)
    ensures r.Go? ==> |r.s.fr| == |s.fr|
    decreases n, st, 1, 0
  {
    match st
    case Let(x, ann, e) =>
      var r := FExpr(p, n, s, e);
      if !r.Go? then r
      else if x.None? then Go(r.s, VoidV)
      else
        var a := Adapt(p.prims, ann, r.v);
        if a.None? then Stop else Go(r.s.(fr := Declare(r.s.fr, x.value, a.value)), VoidV)
    case Return(None) => Go(s.(hasRet := true, ret := VoidV), VoidV)
    case Return(Some(e)) =>
      var r := FExpr(p, n, s, e);
      if !r.Go? then r else Go(r.s.(hasRet := true, ret := r.v), VoidV)
    case Break => Go(s.(hasBrk := true), VoidV)
    case Continue => Go(s.(hasCont := true), VoidV)
    case ExprS(e) =>
      var r := FExpr(p, n, s, e);
      if !r.Go? then r else Go(r.s, VoidV)
    case Assign(x, aop, e) =>
      var was := Find(s.fr, x);
      if was.None? then Stop else
      var r := FExpr(p, n, s, e);
      if !r.Go? then r else
      var a := Syntax.Assigned(p.prims, aop, was.value, r.v);
      if a.None? then Stop else Go(r.s.(fr := Set(r.s.fr, x, a.value)), VoidV)
    case While(_, _) =>
      var r := FWhile(p, n, s.(hasBrk := false, hasCont := false), st);
      if !r.Go? then r else Go(r.s.(hasBrk := false, hasCont := false), VoidV)
    case For(x, lo, hi, incl, _) =>
      var l := FExpr(p, n, s, lo);
      if !l.Go? then l else
      var h := FExpr(p, n, l.s, hi);
      if !h.Go? then h else
      var a, b := p.prims.bound(l.v), p.prims.bound(h.v);
      var first := if x.Some? then map[x.value := CountV(0)] else map[];
      var r := FFor(p, n, Pushed(h.s, first), st, a, b);
      if !r.Go? then r else Go(Popped(r.s), VoidV)
  }

  function FWhile(p: Program, n: nat, s: State, st: Stmt): (r: Res)
    requires st.While?
    ensures r.Go? ==> |r.s.fr| == |s.fr|
    decreases n, st, 0, 0
  {
    if s.hasRet || s.hasBrk then Go(s, VoidV) else
    var c := FExpr(p, n, s, st.cond);
    if !c.Go? then c
    else if !Truthy(c.v) then Go(c.s, VoidV)
    else
      var r := FBlock(p, n, c.s, st.body);
      if !r.Go? then r
      else
        var s' := r.s.(hasCont := false);
        if s'.hasRet || s'.hasBrk then Go(s', VoidV)
        else if n == 0 then Dry
        else FWhile(p, n - 1, s', st)
  }

  /** The iterations from `cur` on; the loop variable sits in the top frame. */
  function FFor(p: Program, n: nat, s: State, st: Stmt, cur: int, hi: int): (r: Res)
    requires st.For?
    ensures r.Go? ==> |r.s.fr| == |s.fr|
    decreases n, st, 0, 0
  {
    if !InRange(cur, hi, st.incl) then Go(s, VoidV) else
    var s' := if st.name.Some? then s.(fr := Declare(s.fr, st.name.value, CountV(cur))) else s;
    var r := FBlock(p, n, s', st.body);
    if !r.Go? then r
    else if r.s.hasRet then Go(r.s, VoidV)
    else if r.s.hasBrk then Go(r.s.(hasBrk := false), VoidV)
    else if n == 0 then Dry
    else FFor(p, n - 1, r.s.(hasCont := false), st, cur + 1, hi)
  }
}
