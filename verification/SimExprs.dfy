/** Plain expressions mean the same on both sides, given that calls do. */
module SimExprs {
  import opened Options
  import opened Syntax
  import opened Structured
  import opened CLang
  import opened Lower
  import opened SimBase

  /** One call: the same value, the same failure, and never an undefined run. */
  ghost predicate CallAgrees(p: Program, cp: CProgram, k: nat, f: string, vals: seq<Val>)
    requires f in p.fns && f in cp.fns && |vals| == |p.fns[f].params| == |cp.fns[f].params|
  {
    var a, c := SCall(p, k, p.fns[f], vals), CRun(cp, k, cp.fns[f], vals);
    DropIs(a, c) && (!p.fns[f].isVoid ==> ValueIs(a, c))
  }

  /** The two programs declare the same functions, and calls with less than `n`
      left agree. */
  ghost predicate CallsBelow(p: Program, cp: CProgram, n: nat) {
    && cp.prims == p.prims
    && cp.fns.Keys == p.fns.Keys
    && (forall f :: f in p.fns ==> |cp.fns[f].params| == |p.fns[f].params|)
    && forall k: nat, f, vals :: k < n && f in p.fns && |vals| == |p.fns[f].params| ==> CallAgrees(p, cp, k, f, vals)
  }

  // ---------- Plain expressions and calls ----------

  lemma {:induction false} SimExpr(
      p: Program, cp: CProgram, n: nat, vis: set<string>, loc: Frames, sc: Scopes, e: Expr)
    requires CallsBelow(p, cp, n) && Agree(vis, loc, sc) && LExpr(p, vis, e).Some?
    ensures SExpr(p, n, loc, e).fr == loc
    ensures ValueIs(SExpr(p, n, loc, e).out, CValue(cp, n, sc, LExpr(p, vis, e).value))
    decreases n, e, 1, 0
  {
    match e
    case Not(x) => SimExpr(p, cp, n, vis, loc, sc, x);
    case Neg(x) => SimExpr(p, cp, n, vis, loc, sc, x);
    case MkPay(_, x) => SimExpr(p, cp, n, vis, loc, sc, x);
    case Bin(_, x, y) =>
      SimExpr(p, cp, n, vis, loc, sc, x);
      SimExpr(p, cp, n, vis, loc, sc, y);
    case AndAlso(x, y) =>
      SimExpr(p, cp, n, vis, loc, sc, x);
      SimExpr(p, cp, n, vis, loc, sc, y);
    case OrElse(x, y) =>
      SimExpr(p, cp, n, vis, loc, sc, x);
      SimExpr(p, cp, n, vis, loc, sc, y);
    case Call(_, _) => SimCallExpr(p, cp, n, vis, loc, sc, e);
    case _ =>
  }

  lemma {:induction false} SimCallExpr(
      p: Program, cp: CProgram, n: nat, vis: set<string>, loc: Frames, sc: Scopes, e: Expr)
    requires CallsBelow(p, cp, n) && Agree(vis, loc, sc) && e.Call? && LCall(p, vis, e).Some?
    ensures SExpr(p, n, loc, e).fr == loc
    ensures DropIs(SExpr(p, n, loc, e).out, CValue(cp, n, sc, LCall(p, vis, e).value))
    ensures !p.fns[e.f].isVoid ==> ValueIs(SExpr(p, n, loc, e).out, CValue(cp, n, sc, LCall(p, vis, e).value))
    decreases n, e, 0, |e.args| + 1
  {
    SimArgs(p, cp, n, vis, loc, sc, e, 0);
    var (fr, vals, out) := SArgs(p, n, loc, e, 0);
    if out.Norm? && n > 0 {
      assert CallAgrees(p, cp, n - 1, e.f, vals);
    }
    CallExprEnds(p, cp, n, loc, sc, e, LArgs(p, vis, e, 0).value);
  }

  /** From the arguments and the callee to the call. */
  lemma CallExprEnds(p: Program, cp: CProgram, n: nat, loc: Frames, sc: Scopes, e: Expr, args: seq<CExpr>)
    requires e.Call? && |args| == |e.args| && e.f in p.fns && |p.fns[e.f].params| == |args|
    requires e.f in cp.fns && |cp.fns[e.f].params| == |args|
    requires var (fr, vals, out) := SArgs(p, n, loc, e, 0);
      var (cvals, bad) := CArgs(cp, n, sc, CCall(e.f, args), 0);
      && fr == loc && DropIs(out, bad) && (out.Norm? ==> vals == cvals)
      && (out.Norm? && n > 0 ==>
            var a, c := SCall(p, n - 1, p.fns[e.f], vals), CRun(cp, n - 1, cp.fns[e.f], vals);
            DropIs(a, c) && (!p.fns[e.f].isVoid ==> ValueIs(a, c)))
    ensures var a, c := SExpr(p, n, loc, e), CValue(cp, n, sc, CCall(e.f, args));
      a.fr == loc && DropIs(a.out, c) && (!p.fns[e.f].isVoid ==> ValueIs(a.out, c))
  {
  }

  lemma {:induction false} SimArgs(
      p: Program, cp: CProgram, n: nat, vis: set<string>, loc: Frames, sc: Scopes, e: Expr, i: nat)
    requires CallsBelow(p, cp, n) && Agree(vis, loc, sc)
    requires e.Call? && i <= |e.args| && LArgs(p, vis, e, 0).Some? && LArgs(p, vis, e, i).Some?
    requires LArgs(p, vis, e, 0).value[i..] == LArgs(p, vis, e, i).value
    ensures var (fr, vals, out) := SArgs(p, n, loc, e, i);
      var (cvals, bad) := CArgs(cp, n, sc, CCall(e.f, LArgs(p, vis, e, 0).value), i);
      fr == loc && DropIs(out, bad) && (out.Norm? ==> vals == cvals)
    decreases n, e, 0, |e.args| - i
  {
    if i < |e.args| {
      var all := LArgs(p, vis, e, 0).value;
      assert all[i] == all[i..][0];
      assert all[i + 1..] == all[i..][1..];
      SimExpr(p, cp, n, vis, loc, sc, e.args[i]);
      SimArgs(p, cp, n, vis, loc, sc, e, i + 1);
    }
  }

  lemma SimDrop(p: Program, cp: CProgram, n: nat, vis: set<string>, loc: Frames, sc: Scopes, e: Expr)
    requires CallsBelow(p, cp, n) && Agree(vis, loc, sc) && LDrop(p, vis, e).Some?
    ensures SExpr(p, n, loc, e).fr == loc
    ensures DropIs(SExpr(p, n, loc, e).out, CValue(cp, n, sc, LDrop(p, vis, e).value))
    decreases n, e, 2, 0
  {
    if e.Call? {
      SimCallExpr(p, cp, n, vis, loc, sc, e);
    } else if !e.Panic? {
      SimExpr(p, cp, n, vis, loc, sc, e);
    }
  }

  /** An expression statement. */
  lemma SimDropped(p: Program, cp: CProgram, vd: bool, n: nat, vis: set<string>, loc: Frames, sc: Scopes, e: Expr)
    requires CallsBelow(p, cp, n) && Agree(vis, loc, sc) && LDrop(p, vis, e).Some?
    ensures Matches(vd, vis, vis, SExpr(p, n, loc, e), CExec(cp, n, sc, [CEval(LDrop(p, vis, e).value)]))
    decreases n, e, 3, 0
  {
    SimDrop(p, cp, n, vis, loc, sc, e);
    ExecOne(cp, n, sc, CEval(LDrop(p, vis, e).value));
  }
}
