/** Which programs the emitter takes: exactly the plain expressions whose names and
    functions are there, and every function built of them with bindings, assignments,
    choices, loops and exits. */
module Acceptance {
  import opened Options
  import opened Syntax
  import opened Names
  import opened Lower

  /** A plain expression over the names `vis`. */
  predicate Plain(p: Program, vis: set<string>, e: Expr)
    decreases e
  {
    match e
    case Lit(_) => true
    case Var(x) => x in vis
    case Not(x) => Plain(p, vis, x)
    case Neg(x) => Plain(p, vis, x)
    case MkPay(_, x) => Plain(p, vis, x)
    case Bin(_, x, y) => Plain(p, vis, x) && Plain(p, vis, y)
    case AndAlso(x, y) => Plain(p, vis, x) && Plain(p, vis, y)
    case OrElse(x, y) => Plain(p, vis, x) && Plain(p, vis, y)
    case Call(f, args) =>
      && f in p.fns && !p.fns[f].isVoid && |p.fns[f].params| == |args|
      && forall i :: 0 <= i < |args| ==> Plain(p, vis, args[i])
    case _ => false
  }

  /** An expression is emitted if and only if it is plain. */
  lemma {:induction false} PlainIsEmitted(p: Program, vis: set<string>, e: Expr)
    ensures LExpr(p, vis, e).Some? <==> Plain(p, vis, e)
    decreases e, 1, 0
  {
    match e
    case Not(x) => PlainIsEmitted(p, vis, x);
    case Neg(x) => PlainIsEmitted(p, vis, x);
    case MkPay(_, x) => PlainIsEmitted(p, vis, x);
    case Bin(_, x, y) =>
      PlainIsEmitted(p, vis, x);
      PlainIsEmitted(p, vis, y);
    case AndAlso(x, y) =>
      PlainIsEmitted(p, vis, x);
      PlainIsEmitted(p, vis, y);
    case OrElse(x, y) =>
      PlainIsEmitted(p, vis, x);
      PlainIsEmitted(p, vis, y);
    case Call(f, args) => ArgsAreEmitted(p, vis, e, 0);
    case _ =>
  }

  lemma {:induction false} ArgsAreEmitted(p: Program, vis: set<string>, e: Expr, i: nat)
    requires e.Call? && i <= |e.args|
    ensures LArgs(p, vis, e, i).Some? <==> forall j :: i <= j < |e.args| ==> Plain(p, vis, e.args[j])
    decreases e, 0, |e.args| - i
  {
    if i < |e.args| {
      PlainIsEmitted(p, vis, e.args[i]);
      ArgsAreEmitted(p, vis, e, i + 1);
    }
  }

  // ---------- Functions ----------

  /** A value that is bound: of a known type, unless the binding says which. */
  predicate Bindable(p: Program, vis: set<string>, ann: Ann, e: Expr) {
    Plain(p, vis, e) && (ann == Bare ==> !e.OrElse?)
  }

  predicate PlainIf(p: Program, vd: bool, vis: set<string>, e: Expr)
    decreases e, 1, 0
  {
    && e.If? && Plain(p, vis, e.cond) && PlainBlock(p, vd, vis, e.thn)
    && match e.els
       case None => true
       case Some(If(_, _, _)) => PlainIf(p, vd, vis, e.els.value)
       case Some(BlockE(b)) => PlainBlock(p, vd, vis, b)
       case Some(_) => false
  }

  predicate PlainBlock(p: Program, vd: bool, vis: set<string>, b: Block)
    decreases b, 2, 0
  {
    b.tail == None && PlainStmts(p, vd, vis, b, 0)
  }

  /** A name is in scope from its binding to the end of its block. */
  predicate PlainStmts(p: Program, vd: bool, vis: set<string>, b: Block, i: nat)
    requires i <= |b.stmts|
    decreases b, 1, |b.stmts| - i
  {
    i < |b.stmts| ==>
      && PlainStmt(p, vd, vis, b.stmts[i])
      && PlainStmts(p, vd, if b.stmts[i].Let? then vis + OptName(b.stmts[i].name) else vis, b, i + 1)
  }

  predicate PlainStmt(p: Program, vd: bool, vis: set<string>, s: Stmt)
    decreases s, 2, 0
  {
    match s
    case Let(None, _, e) => Plain(p, vis, e)
    case Let(Some(_), _, Try(e)) => !vd && Plain(p, vis, e)
    case Let(Some(_), ann, e) => Bindable(p, vis, ann, e)
    case Return(None) => true
    case Return(Some(Try(e))) => !vd && Plain(p, vis, e)
    case Return(Some(e)) => Plain(p, vis, e)
    case Break => true
    case Continue => true
    case ExprS(e) => Plain(p, vis, e) || PlainIf(p, vd, vis, e) || (e.BlockE? && PlainBlock(p, vd, vis, e.b))
    case Assign(x, _, e) => x in vis && Plain(p, vis, e)
    case While(c, b) => Plain(p, vis, c) && PlainBlock(p, vd, vis, b)
    case For(x, lo, hi, _, b) => Plain(p, vis, lo) && Plain(p, vis, hi) && PlainBlock(p, vd, vis + OptName(x), b)
  }

  lemma {:induction false} IfIsEmitted(p: Program, vd: bool, vis: set<string>, t: nat, e: Expr)
    requires PlainIf(p, vd, vis, e)
    ensures LIf(p, vd, vis, t, e).Some?
    decreases e, 1, 0
  {
    PlainIsEmitted(p, vis, e.cond);
    BlockIsEmitted(p, vd, vis, t, e.thn);
    var t1 := LBlock(p, vd, vis, t, e.thn).value.t;
    match e.els
    case None =>
    case Some(If(_, _, _)) => IfIsEmitted(p, vd, vis, t1, e.els.value);
    case Some(BlockE(b)) => BlockIsEmitted(p, vd, vis, t1, b);
    case Some(_) =>
  }

  lemma {:induction false} BlockIsEmitted(p: Program, vd: bool, vis: set<string>, t: nat, b: Block)
    requires PlainBlock(p, vd, vis, b)
    ensures LBlock(p, vd, vis, t, b).Some?
    decreases b, 2, 0
  {
    StmtsAreEmitted(p, vd, vis, t, b, 0);
  }

  lemma {:induction false} StmtsAreEmitted(p: Program, vd: bool, vis: set<string>, t: nat, b: Block, i: nat)
    requires i <= |b.stmts| && PlainStmts(p, vd, vis, b, i)
    ensures LStmts(p, vd, vis, t, b, i).Some?
    decreases b, 1, |b.stmts| - i
  {
    if i < |b.stmts| {
      StmtIsEmitted(p, vd, vis, t, b.stmts[i]);
      var s := LStmt(p, vd, vis, t, b.stmts[i]).value;
      StmtsAreEmitted(p, vd, s.vis, s.t, b, i + 1);
    }
  }

  lemma {:induction false} StmtIsEmitted(p: Program, vd: bool, vis: set<string>, t: nat, s: Stmt)
    requires PlainStmt(p, vd, vis, s)
    ensures
      var r := LStmt(p, vd, vis, t, s);
      r.Some? && r.value.vis == if s.Let? then vis + OptName(s.name) else vis
    decreases s, 2, 0
  {
    match s
    case Let(None, _, e) => PlainIsEmitted(p, vis, e);
    case Let(Some(_), _, Try(e)) => PlainIsEmitted(p, vis, e);
    case Let(Some(_), ann, e) => PlainIsEmitted(p, vis, e);
    case Return(None) =>
    case Return(Some(Try(e))) => PlainIsEmitted(p, vis, e);
    case Return(Some(e)) => PlainIsEmitted(p, vis, e);
    case Break =>
    case Continue =>
    case ExprS(e) => TailIsEmitted(p, vd, vis, t, e);
    case Assign(_, _, e) => PlainIsEmitted(p, vis, e);
    case While(c, b) =>
      PlainIsEmitted(p, vis, c);
      BlockIsEmitted(p, vd, vis, t, b);
    case For(x, lo, hi, _, b) =>
      PlainIsEmitted(p, vis, lo);
      PlainIsEmitted(p, vis, hi);
      BlockIsEmitted(p, vd, vis + OptName(x), t + 2, b);
  }

  lemma {:induction false} TailIsEmitted(p: Program, vd: bool, vis: set<string>, t: nat, e: Expr)
    requires Plain(p, vis, e) || PlainIf(p, vd, vis, e) || (e.BlockE? && PlainBlock(p, vd, vis, e.b))
    ensures LStmt(p, vd, vis, t, ExprS(e)).Some? && LStmt(p, vd, vis, t, ExprS(e)).value.vis == vis
    decreases e, 3, 0
  {
    if e.BlockE? {
      BlockIsEmitted(p, vd, vis, t, e.b);
    } else if e.If? {
      IfIsEmitted(p, vd, vis, t, e);
    } else {
      PlainIsEmitted(p, vis, e);
    }
  }

  /** A function with a plain body is emitted. */
  lemma FunctionIsEmitted(p: Program, f: Fn, t: nat)
    requires PlainBlock(p, f.isVoid, ParamNames(f), f.body)
    ensures LFn(p, f, t).Some?
  {
    BlockIsEmitted(p, f.isVoid, ParamNames(f), t, f.body);
  }
}
