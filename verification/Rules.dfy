/** What a program must keep to for the emitter to preserve its meaning. */
module Rules {
  import opened Options
  import opened Syntax
  import opened Names
  import opened CLang
  import opened Lower
  import opened Structured

  // ---------- Code that never reaches its end ----------

  predicate ExprDiverts(e: Expr)
    decreases e, 1, 0
  {
    match e
    case Panic => true
    case If(_, t, els) => els.Some? && BlockDiverts(t, 0) && ExprDiverts(els.value)
    case Match(_, _) => forall i :: 0 <= i < |e.arms| ==> ExprDiverts(e.arms[i].body)
    case BlockE(b) => BlockDiverts(b, 0)
    case _ => false
  }

  predicate BlockDiverts(b: Block, i: nat)
    requires i <= |b.stmts|
    decreases b, 0, |b.stmts| - i
  {
    if i == |b.stmts| then b.tail.Some? && ExprDiverts(b.tail.value)
    else StmtDiverts(b.stmts[i]) || BlockDiverts(b, i + 1)
  }

  predicate StmtDiverts(s: Stmt)
    decreases s, 1, 0
  {
    s.Return? || s.Break? || s.Continue? || (s.ExprS? && ExprDiverts(s.e))
  }

  lemma {:induction false} DivertingExpr(p: Program, n: nat, fr: Frames, e: Expr)
    requires ExprDiverts(e)
    ensures !SExpr(p, n, fr, e).out.Norm?
    decreases e, 1, 0
  {
    match e
    case If(c, t, els) =>
      var r := SExpr(p, n, fr, c);
      DivertingBlock(p, n, r.fr, t);
      DivertingExpr(p, n, r.fr, els.value);
    case Match(s, _) =>
      var r := SExpr(p, n, fr, s);
      if r.out.Norm? {
        DivertingArms(p, n, r.fr, e, r.out.v, 0);
      }
    case BlockE(b) => DivertingBlock(p, n, fr, b);
    case _ =>
  }

  lemma {:induction false} DivertingArms(p: Program, n: nat, fr: Frames, e: Expr, v: Val, i: nat)
    requires e.Match? && ExprDiverts(e) && i <= |e.arms|
    ensures !SArms(p, n, fr, e, v, i).out.Norm?
    decreases e, 0, |e.arms| - i
  {
    if i < |e.arms| {
      var arm := e.arms[i];
      var m := PatBind(arm.pat, v);
      if m.None? {
        DivertingArms(p, n, fr, e, v, i + 1);
      } else {
        var g := SGuard(p, n, [m.value] + fr, arm);
        DivertingArms(p, n, Pop(g.fr), e, v, i + 1);
        DivertingExpr(p, n, g.fr, arm.body);
      }
    }
  }

  lemma DivertingBlock(p: Program, n: nat, fr: Frames, b: Block)
    requires BlockDiverts(b, 0)
    ensures !SBlock(p, n, fr, b).out.Norm?
    ensures b.tail.None? ==> !SStmts(p, n, [map[]] + fr, b, 0).out.Norm?
    decreases b, 1, 0
  {
    DivertingStmts(p, n, [map[]] + fr, b, 0);
    var r := SStmts(p, n, [map[]] + fr, b, 0);
    if r.out.Norm? {
      DivertingExpr(p, n, r.fr, b.tail.value);
    }
  }

  /** Either the statements stop, or the tail is what diverts. */
  lemma {:induction false} DivertingStmts(p: Program, n: nat, fr: Frames, b: Block, i: nat)
    requires i <= |b.stmts| && BlockDiverts(b, i)
    ensures SStmts(p, n, fr, b, i).out.Norm? ==> b.tail.Some? && ExprDiverts(b.tail.value)
    decreases b, 0, |b.stmts| - i
  {
    if i < |b.stmts| {
      var s := b.stmts[i];
      if s.ExprS? && ExprDiverts(s.e) {
        DivertingExpr(p, n, fr, s.e);
      }
      if StmtDiverts(s) {
        assert !SStmt(p, n, fr, s).out.Norm?;
      } else {
        DivertingStmts(p, n, SStmt(p, n, fr, s).fr, b, i + 1);
      }
    }
  }

  // ---------- The rules ----------

  /** The first arm is of a type the emitter knows. */
  predicate FirstTyped(p: Program, e: Expr)
    requires e.Match?
  {
    e.arms != [] &&
    var body := e.arms[0].body;
    if body.BlockE? then body.b.tail.Some? && Typed(p, body.b.tail.value) else Typed(p, body)
  }

  /** `val`: the value is used. A value must come out of every branch that ends; arms have no
      guards and no literals past 64 bits, and only the last may catch all; a pattern's
      variables are not bound again inside the arm. */
  predicate GoodExpr(p: Program, vd: bool, e: Expr, val: bool)
    decreases e, 1, 0
  {
    match e
    case If(_, t, els) =>
      && GoodBlock(p, vd, t, val)
      && (val ==> els.Some?)
      && (els.Some? ==> GoodExpr(p, vd, els.value, val))
    case Match(_, arms) => forall i :: 0 <= i < |arms| ==> GoodArm(p, vd, arms[i], val, i + 1 == |arms|)
    case BlockE(b) => GoodBlock(p, vd, b, val)
    case _ => true
  }

  /** A literal is a 64-bit signed number. */
  predicate LitsFit(pat: Pat) {
    match pat
    case LitInt(i) => -HALF64 <= i < HALF64
    case PayP(_, sub) => LitsFit(sub)
    case _ => true
  }

  predicate GoodArm(p: Program, vd: bool, arm: Arm, val: bool, last: bool)
    decreases arm, 0, 0
  {
    && arm.guard.None? && LitsFit(arm.pat)
    && (CatchAll(arm.pat) ==> last)
    && PatNames(arm.pat) !! ExprNames(arm.body, false)
    && GoodExpr(p, vd, arm.body, val)
  }

  predicate GoodBlock(p: Program, vd: bool, b: Block, val: bool)
    decreases b, 1, 0
  {
    (val ==> b.tail.Some? || BlockDiverts(b, 0)) && GoodStmts(p, vd, b, val, 0)
  }

  /** No statement binds a name that a later one binds again. */
  predicate GoodStmts(p: Program, vd: bool, b: Block, val: bool, i: nat)
    requires i <= |b.stmts|
    decreases b, 0, |b.stmts| - i
  {
    if i == |b.stmts| then b.tail.Some? ==> GoodExpr(p, vd, b.tail.value, val)
    else
      && GoodStmt(p, vd, b.stmts[i])
      && StmtNames(b.stmts[i], false) !! StmtsNames(b, false, i + 1)
      && GoodStmts(p, vd, b, val, i + 1)
  }

  /** Integer annotations sit on plain right-hand sides only; a function that
      returns a value never returns without one; the loop variable is not touched. */
  predicate GoodStmt(p: Program, vd: bool, s: Stmt)
    decreases s, 1, 0
  {
    match s
    case Let(x, ann, e) =>
      && OptName(x) !! ExprNames(e, false)
      && (x.Some? && (e.Try? || e.If? || e.BlockE? || e.Match?) ==> !ann.IntTy?)
      && (x.Some? ==> GoodExpr(p, vd, e, true))
      && (x.Some? && e.Match? ==> FirstTyped(p, e))
    case Return(v) =>
      && (vd || v.Some?)
      && (v.Some? ==> GoodExpr(p, vd, v.value, true))
      && (v.Some? && v.value.Match? ==> FirstTyped(p, v.value))
    case ExprS(e) => GoodExpr(p, vd, e, false)
    case While(_, b) => GoodBlock(p, vd, b, false)
    case For(x, _, _, _, b) => OptName(x) !! BlockNames(b, false) + BlockNames(b, true) && GoodBlock(p, vd, b, false)
    case _ => true
  }

  predicate DistinctFrom(f: Fn, i: nat)
    requires i <= |f.params|
    decreases |f.params| - i
  {
    i < |f.params| ==> f.params[i].x !in ParamsFrom(f, i + 1) && DistinctFrom(f, i + 1)
  }

  /** Parameters are distinct and not bound again; a function that returns a value
      does so on every path. */
  predicate GoodFn(p: Program, f: Fn) {
    && DistinctFrom(f, 0)
    && ParamNames(f) !! BlockNames(f.body, false)
    && (f.isVoid || BlockDiverts(f.body, 0))
    && GoodBlock(p, f.isVoid, f.body, false)
  }

  ghost predicate GoodProgram(p: Program) {
    forall f :: f in p.fns ==> GoodFn(p, p.fns[f])
  }
}
