/** Evaluation restores the shape of the frames: an expression leaves every frame
    with the names it had, a statement adds to the top frame alone. */
module Shapes {
  import opened Options
  import opened Syntax
  import opened Names
  import opened Structured

  lemma {:induction false} ExprKeeps(p: Program, n: nat, fr: Frames, e: Expr)
    ensures SameKeys(fr, SExpr(p, n, fr, e).fr)
    decreases n, e, 1, 0
  {
    match e
    case Lit(_) =>
    case Var(_) =>
    case Panic =>
    case Not(x) => ExprKeeps(p, n, fr, x);
    case Neg(x) => ExprKeeps(p, n, fr, x);
    case MkPay(_, x) => ExprKeeps(p, n, fr, x);
    case Try(x) => ExprKeeps(p, n, fr, x);
    case Bin(_, x, y) => PairKeeps(p, n, fr, e, x, y);
    case AndAlso(x, y) => PairKeeps(p, n, fr, e, x, y);
    case OrElse(x, y) => PairKeeps(p, n, fr, e, x, y);
    case Call(_, _) => ArgsKeep(p, n, fr, e, 0);
    case If(_, _, _) => IfKeeps(p, n, fr, e);
    case Match(s, _) =>
      ExprKeeps(p, n, fr, s);
      var r := SExpr(p, n, fr, s);
      if r.out.Norm? {
        ArmsKeep(p, n, r.fr, e, r.out.v, 0);
      }
    case BlockE(b) => BlockKeeps(p, n, fr, b);
  }

  lemma {:induction false} PairKeeps(p: Program, n: nat, fr: Frames, e: Expr, x: Expr, y: Expr)
    requires (e.Bin? || e.AndAlso? || e.OrElse?) && x == e.l && y == e.r
    ensures SameKeys(fr, SExpr(p, n, fr, e).fr)
    decreases n, e, 0, 0
  {
    ExprKeeps(p, n, fr, x);
    ExprKeeps(p, n, SExpr(p, n, fr, x).fr, y);
  }

  lemma {:induction false} IfKeeps(p: Program, n: nat, fr: Frames, e: Expr)
    requires e.If?
    ensures SameKeys(fr, SExpr(p, n, fr, e).fr)
    decreases n, e, 0, 0
  {
    ExprKeeps(p, n, fr, e.cond);
    var fr' := SExpr(p, n, fr, e.cond).fr;
    BlockKeeps(p, n, fr', e.thn);
    if e.els.Some? {
      ExprKeeps(p, n, fr', e.els.value);
    }
  }

  lemma {:induction false} ArgsKeep(p: Program, n: nat, fr: Frames, e: Expr, i: nat)
    requires e.Call? && i <= |e.args|
    ensures SameKeys(fr, SArgs(p, n, fr, e, i).0)
    decreases n, e, 0, |e.args| - i
  {
    if i < |e.args| {
      ExprKeeps(p, n, fr, e.args[i]);
      ArgsKeep(p, n, SExpr(p, n, fr, e.args[i]).fr, e, i + 1);
    }
  }

  lemma {:induction false} ArmsKeep(p: Program, n: nat, fr: Frames, e: Expr, v: Val, i: nat)
    requires e.Match? && i <= |e.arms|
    ensures SameKeys(fr, SArms(p, n, fr, e, v, i).fr)
    decreases n, e, 0, |e.arms| - i
  {
    if i < |e.arms| {
      var arm := e.arms[i];
      var m := PatBind(arm.pat, v);
      if m.None? {
        ArmsKeep(p, n, fr, e, v, i + 1);
      } else {
        var fr' := [m.value] + fr;
        var g := SGuard(p, n, fr', arm);
        if arm.guard.Some? {
          ExprKeeps(p, n, fr', arm.guard.value);
        }
        PopKeeps(m.value, fr, g.fr);
        if g.out.Norm? {
          if Truthy(g.out.v) {
            ExprKeeps(p, n, g.fr, arm.body);
            PopKeeps(m.value, fr, SExpr(p, n, g.fr, arm.body).fr);
          } else {
            ArmsKeep(p, n, Pop(g.fr), e, v, i + 1);
          }
        }
      }
    }
  }

  lemma {:induction false} BlockKeeps(p: Program, n: nat, fr: Frames, b: Block)
    ensures SameKeys(fr, SBlock(p, n, fr, b).fr)
    decreases n, b, 1, |b.stmts| + 1
  {
    StmtsKeep(p, n, [map[]] + fr, b, 0);
    var r := SStmts(p, n, [map[]] + fr, b, 0);
    assert SameKeys(fr, Pop(r.fr));
    if r.out.Norm? && b.tail.Some? {
      ExprKeeps(p, n, r.fr, b.tail.value);
      assert [r.fr[0]] + Pop(r.fr) == r.fr;
      PopKeeps(r.fr[0], Pop(r.fr), SExpr(p, n, r.fr, b.tail.value).fr);
    }
  }

  lemma {:induction false} StmtsKeep(p: Program, n: nat, fr: Frames, b: Block, i: nat)
    requires i <= |b.stmts| && fr != []
    ensures Grows(fr, SStmts(p, n, fr, b, i).fr, StmtsNames(b, false, i))
    decreases n, b, 1, |b.stmts| - i
  {
    if i < |b.stmts| {
      StmtKeeps(p, n, fr, b.stmts[i]);
      var r := SStmt(p, n, fr, b.stmts[i]);
      if r.out.Norm? {
        StmtsKeep(p, n, r.fr, b, i + 1);
      }
    }
  }

  lemma {:induction false} StmtKeeps(p: Program, n: nat, fr: Frames, s: Stmt)
    requires fr != []
    ensures Grows(fr, SStmt(p, n, fr, s).fr, StmtNames(s, false))
    decreases n, s, 1, 0
  {
    match s
    case Let(_, _, e) => ExprGrows(p, n, fr, e);
    case Return(v) =>
      if v.Some? {
        ExprGrows(p, n, fr, v.value);
      }
    case Break =>
    case Continue =>
    case ExprS(e) => ExprGrows(p, n, fr, e);
    case Assign(_, _, _) => AssignKeeps(p, n, fr, s);
    case While(_, _) =>
      WhileKeeps(p, n, fr, s);
      GrowsSame(fr, SWhile(p, n, fr, s).fr);
    case For(_, _, _, _, _) => LoopKeeps(p, n, fr, s);
  }

  lemma {:induction false} AssignKeeps(p: Program, n: nat, fr: Frames, s: Stmt)
    requires fr != [] && s.Assign?
    ensures Grows(fr, SStmt(p, n, fr, s).fr, {})
    decreases n, s, 0, 0
  {
    ExprGrows(p, n, fr, s.e);
    var r := SExpr(p, n, fr, s.e);
    if Find(fr, s.x).Some? && r.out.Norm? {
      var a := Assigned(p.prims, s.aop, Find(fr, s.x).value, r.out.v);
      if a.Some? {
        SetKeeps(r.fr, s.x, a.value);
        GrowsSame(r.fr, Set(r.fr, s.x, a.value));
      }
    }
  }

  lemma {:induction false} LoopKeeps(p: Program, n: nat, fr: Frames, s: Stmt)
    requires fr != [] && s.For?
    ensures Grows(fr, SStmt(p, n, fr, s).fr, {})
    decreases n, s, 0, 1
  {
    ExprKeeps(p, n, fr, s.lo);
    var l := SExpr(p, n, fr, s.lo);
    if l.out.Norm? {
      ExprKeeps(p, n, l.fr, s.hi);
      var h := SExpr(p, n, l.fr, s.hi);
      if h.out.Norm? {
        var first := if s.name.Some? then map[s.name.value := CountV(0)] else map[];
        var a, b := p.prims.bound(l.out.v), p.prims.bound(h.out.v);
        ForKeeps(p, n, [first] + h.fr, s, a, b);
        PopKeeps(first, h.fr, SFor(p, n, [first] + h.fr, s, a, b).fr);
      }
    }
    GrowsSame(fr, SStmt(p, n, fr, s).fr);
  }

  lemma {:induction false} ExprGrows(p: Program, n: nat, fr: Frames, e: Expr)
    requires fr != []
    ensures SameKeys(fr, SExpr(p, n, fr, e).fr)
    ensures Grows(fr, SExpr(p, n, fr, e).fr, {})
    decreases n, e, 2, 0
  {
    ExprKeeps(p, n, fr, e);
    GrowsSame(fr, SExpr(p, n, fr, e).fr);
  }

  lemma {:induction false} WhileKeeps(p: Program, n: nat, fr: Frames, s: Stmt)
    requires s.While?
    ensures SameKeys(fr, SWhile(p, n, fr, s).fr)
    decreases n, s, 0, 0
  {
    ExprKeeps(p, n, fr, s.cond);
    var c := SExpr(p, n, fr, s.cond);
    BlockKeeps(p, n, c.fr, s.body);
    if c.out.Norm? && n > 0 {
      WhileKeeps(p, n - 1, SBlock(p, n, c.fr, s.body).fr, s);
    }
  }

  lemma {:induction false} ForKeeps(p: Program, n: nat, fr: Frames, s: Stmt, cur: int, hi: int)
    requires s.For? && fr != []
    requires s.name.Some? ==> s.name.value in fr[0]
    ensures SameKeys(fr, SFor(p, n, fr, s, cur, hi).fr)
    decreases n, s, 0, 0
  {
    var fr' := if s.name.Some? then Declare(fr, s.name.value, CountV(cur)) else fr;
    if s.name.Some? {
      DeclareKeeps(fr, s.name.value, CountV(cur));
    }
    BlockKeeps(p, n, fr', s.body);
    var r := SBlock(p, n, fr', s.body);
    assert Keys(r.fr)[0] == Keys(fr)[0];
    if n > 0 {
      ForKeeps(p, n - 1, r.fr, s, cur + 1, hi);
    }
  }
}
