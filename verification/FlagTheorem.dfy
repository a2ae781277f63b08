/** The flag interpreter computes the structured semantics: for bodies that pass
    the loop-depth check, every value, every change of a variable and every early
    exit is the same, and no flag survives a loop or a call. */
module FlagTheorem {
  import opened Options
  import opened Syntax
  import opened FlagInterp
  import opened Names
  import opened Shapes
  import S = Structured

  /** What the flags, the frames and the value are after an expression. */
  ghost predicate ExprMeans(f: Res, r: S.Res, s: State, base: Frames) {
    match r.out
    case Norm(v) => f == Go(s.(fr := r.fr + base), v)
    case Ret(v) => f == Go(s.(fr := r.fr + base, hasRet := true, ret := v), v)
    case Brk => f.Go? && f.s == s.(fr := r.fr + base, hasBrk := true)
    case Cont => f.Go? && f.s == s.(fr := r.fr + base, hasCont := true)
    case Halt => f == Stop
    case Dry => f == Dry
    case Unbound => true
  }

  /** As above; after an early exit the top frame, which is about to be dropped,
      may hold one binding more: a `let` binds whatever its right-hand side left. */
  ghost predicate StmtMeans(f: Res, r: S.Res, s: State, base: Frames) {
    if !(r.out.Ret? || r.out.Brk? || r.out.Cont?) then
      (r.out.Norm? ==> r.out.v == VoidV) && ExprMeans(f, r, s, base)
    else
      && f.Go? && f.s.fr != [] && f.v == VoidV
      && Pop(f.s.fr) == Pop(r.fr + base)
      && f.s == (match r.out
                 case Ret(v) => s.(fr := f.s.fr, hasRet := true, ret := v)
                 case Brk => s.(fr := f.s.fr, hasBrk := true)
                 case _ => s.(fr := f.s.fr, hasCont := true))
  }

  predicate Allowed(o: S.Out, r: bool, b: bool) {
    (o.Ret? ==> r) && (o.Brk? || o.Cont? ==> b)
  }

  lemma {:induction false} ExprAgrees(
      p: Program, n: nat, s: State, loc: Frames, base: Frames, e: Expr, r: bool, b: bool)
    requires OkProgram(p) && OkExpr(e, r, b)
    requires s.Calm() && loc != [] && s.fr == loc + base
    ensures ExprMeans(FExpr(p, n, s, e), S.SExpr(p, n, loc, e), s, base)
    ensures Allowed(S.SExpr(p, n, loc, e).out, r, b)
    decreases n, e, 1, 0
  {
    match e
    case Lit(_) =>
    case Panic =>
    case Var(x) => FindAppend(loc, base, x);
    case Not(x) => ExprAgrees(p, n, s, loc, base, x, false, false);
    case Neg(x) => ExprAgrees(p, n, s, loc, base, x, false, false);
    case MkPay(_, x) => ExprAgrees(p, n, s, loc, base, x, false, false);
    case Try(x) => ExprAgrees(p, n, s, loc, base, x, false, false);
    case Bin(_, x, y) => PairAgrees(p, n, s, loc, base, e, x, y);
    case AndAlso(x, y) => PairAgrees(p, n, s, loc, base, e, x, y);
    case OrElse(x, y) => PairAgrees(p, n, s, loc, base, e, x, y);
    case Call(_, _) => CallAgrees(p, n, s, loc, base, e);
    case If(_, _, _) => IfAgrees(p, n, s, loc, base, e, r, b);
    case BlockE(blk) => BlockAgrees(p, n, s, loc, base, blk, r, b);
    case Match(x, _) =>
      ExprAgrees(p, n, s, loc, base, x, false, false);
      var sx := S.SExpr(p, n, loc, x);
      if sx.out.Norm? {
        ArmsAgree(p, n, s.(fr := sx.fr + base), sx.fr, base, e, sx.out.v, 0, r, b);
      }
  }

  /** Two operands, the second evaluated where the first leaves off. */
  lemma {:induction false} PairAgrees(
      p: Program, n: nat, s: State, loc: Frames, base: Frames, e: Expr, x: Expr, y: Expr)
    requires OkProgram(p) && OkExpr(x, false, false) && OkExpr(y, false, false)
    requires (e.Bin? || e.AndAlso? || e.OrElse?) && x == e.l && y == e.r
    requires s.Calm() && loc != [] && s.fr == loc + base
    ensures ExprMeans(FExpr(p, n, s, e), S.SExpr(p, n, loc, e), s, base)
    ensures Allowed(S.SExpr(p, n, loc, e).out, false, false)
    decreases n, e, 0, 0
  {
    ExprAgrees(p, n, s, loc, base, x, false, false);
    var sx := S.SExpr(p, n, loc, x);
    if sx.out.Norm? {
      ExprAgrees(p, n, s.(fr := sx.fr + base), sx.fr, base, y, false, false);
    }
  }

  lemma {:induction false} IfAgrees(
      p: Program, n: nat, s: State, loc: Frames, base: Frames, e: Expr, r: bool, b: bool)
    requires OkProgram(p) && e.If? && OkExpr(e, r, b)
    requires s.Calm() && loc != [] && s.fr == loc + base
    ensures ExprMeans(FExpr(p, n, s, e), S.SExpr(p, n, loc, e), s, base)
    ensures Allowed(S.SExpr(p, n, loc, e).out, r, b)
    decreases n, e, 0, 0
  {
    ExprAgrees(p, n, s, loc, base, e.cond, false, false);
    var c := S.SExpr(p, n, loc, e.cond);
    if c.out.Norm? {
      var s' := s.(fr := c.fr + base);
      if Truthy(c.out.v) {
        BlockAgrees(p, n, s', c.fr, base, e.thn, r, b);
      } else if e.els.Some? {
        ExprAgrees(p, n, s', c.fr, base, e.els.value, r, b);
      }
    }
  }

  lemma {:induction false} CallAgrees(p: Program, n: nat, s: State, loc: Frames, base: Frames, e: Expr)
    requires OkProgram(p) && e.Call? && OkExpr(e, false, false)
    requires s.Calm() && loc != [] && s.fr == loc + base
    ensures ExprMeans(FExpr(p, n, s, e), S.SExpr(p, n, loc, e), s, base)
    ensures Allowed(S.SExpr(p, n, loc, e).out, false, false)
    decreases n, e, 0, |e.args| + 1
  {
    if e.f in p.fns && |p.fns[e.f].params| == |e.args| {
      ArgsAgree(p, n, s, loc, base, e, 0);
      var (fr, vals, out) := S.SArgs(p, n, loc, e, 0);
      if out.Norm? && n > 0 {
        BodyAgrees(p, n - 1, s.(fr := fr + base), p.fns[e.f], vals);
      }
    }
  }

  lemma {:induction false} ArgsAgree(
      p: Program, n: nat, s: State, loc: Frames, base: Frames, e: Expr, i: nat)
    requires OkProgram(p) && e.Call? && OkExpr(e, false, false) && i <= |e.args|
    requires s.Calm() && loc != [] && s.fr == loc + base
    ensures var (f, vs) := FArgs(p, n, s, e, i);
      var (fr, vals, out) := S.SArgs(p, n, loc, e, i);
      && (out.Norm? ==> f == Go(s.(fr := fr + base), VoidV) && vs == vals)
      && (!out.Norm? ==> ExprMeans(f, S.Res(fr, out), s, base))
      && Allowed(out, false, false)
    decreases n, e, 0, |e.args| - i
  {
    if i < |e.args| {
      ExprAgrees(p, n, s, loc, base, e.args[i], false, false);
      var r := S.SExpr(p, n, loc, e.args[i]);
      if r.out.Norm? {
        ArgsAgree(p, n, s.(fr := r.fr + base), r.fr, base, e, i + 1);
      }
    }
  }

  lemma {:induction false} ArmsAgree(
      p: Program, n: nat, s: State, loc: Frames, base: Frames, e: Expr, v: Val, i: nat, r: bool, b: bool)
    requires OkProgram(p) && e.Match? && OkExpr(e, r, b) && i <= |e.arms|
    requires s.Calm() && loc != [] && s.fr == loc + base
    ensures ExprMeans(FArms(p, n, s, e, v, i), S.SArms(p, n, loc, e, v, i), s, base)
    ensures Allowed(S.SArms(p, n, loc, e, v, i).out, r, b)
    decreases n, e, 0, |e.arms| - i, 1
  {
    hide OkProgram, OkExpr, FExpr, S.SExpr, FGuard, S.SGuard, PatBind;
    if i < |e.arms| {
      if PatBind(e.arms[i].pat, v).None? {
        ArmsAgree(p, n, s, loc, base, e, v, i + 1, r, b);
      } else {
        ArmAgrees(p, n, s, loc, base, e, v, i, r, b);
      }
    }
  }

  /** From the first arm whose pattern fits. */
  lemma {:induction false} ArmAgrees(
      p: Program, n: nat, s: State, loc: Frames, base: Frames, e: Expr, v: Val, i: nat, r: bool, b: bool)
    requires OkProgram(p) && e.Match? && OkExpr(e, r, b) && i < |e.arms| && PatBind(e.arms[i].pat, v).Some?
    requires s.Calm() && loc != [] && s.fr == loc + base
    ensures ExprMeans(FArms(p, n, s, e, v, i), S.SArms(p, n, loc, e, v, i), s, base)
    ensures Allowed(S.SArms(p, n, loc, e, v, i).out, r, b)
    decreases n, e, 0, |e.arms| - i, 0
  {
    hide OkProgram, OkExpr, FExpr, S.SExpr, FGuard, S.SGuard, PatBind;
    var arm, m := e.arms[i], PatBind(e.arms[i].pat, v).value;
    OneArm(e, i, r, b);
    assert [m] + (loc + base) == [m] + loc + base;
    GuardAgrees(p, n, Pushed(s, m), [m] + loc, base, arm);
    var g := S.SGuard(p, n, [m] + loc, arm);
    if g.out.Norm? {
      assert FGuard(p, n, Pushed(s, m), arm) == Go(s.(fr := g.fr + base), g.out.v);
      hide ExprMeans;
      if Truthy(g.out.v) {
        ArmBodyAgrees(p, n, s.(fr := g.fr + base), g.fr, base, arm, r, b);
        ArmEnds(FExpr(p, n, s.(fr := g.fr + base), arm.body), S.SExpr(p, n, g.fr, arm.body), s, base);
      } else {
        ArmsAgree(p, n, s.(fr := Pop(g.fr) + base), Pop(g.fr), base, e, v, i + 1, r, b);
      }
    }
  }

  lemma OneArm(e: Expr, i: nat, r: bool, b: bool)
    requires e.Match? && OkExpr(e, r, b) && i < |e.arms|
    ensures OkArm(e.arms[i], r, b)
  {
  }

  /** The pattern's frame is dropped behind the arm. */
  lemma ArmEnds(f: Res, r: S.Res, s: State, base: Frames)
    requires ExprMeans(f, r, s, base) && Pop(r.fr + base) == Pop(r.fr) + base
    ensures ExprMeans(if f.Go? then Go(Popped(f.s), f.v) else f, S.Res(Pop(r.fr), r.out), s, base)
  {
  }

  lemma {:induction false} GuardAgrees(p: Program, n: nat, s: State, loc: Frames, base: Frames, arm: Arm)
    requires OkProgram(p) && (arm.guard.Some? ==> OkExpr(arm.guard.value, false, false))
    requires s.Calm() && loc != [] && s.fr == loc + base
    ensures ExprMeans(FGuard(p, n, s, arm), S.SGuard(p, n, loc, arm), s, base)
    ensures Allowed(S.SGuard(p, n, loc, arm).out, false, false)
    ensures var fr := S.SGuard(p, n, loc, arm).fr; Pop(fr + base) == Pop(fr) + base
    decreases n, arm, 0, 0
  {
    if arm.guard.Some? {
      ExprAgrees(p, n, s, loc, base, arm.guard.value, false, false);
    }
  }

  /** The body of the chosen arm, and dropping the pattern's frame after it. */
  lemma {:induction false} ArmBodyAgrees(
      p: Program, n: nat, s: State, loc: Frames, base: Frames, arm: Arm, r: bool, b: bool)
    requires OkProgram(p) && OkExpr(arm.body, r, b)
    requires s.Calm() && loc != [] && s.fr == loc + base
    ensures ExprMeans(FExpr(p, n, s, arm.body), S.SExpr(p, n, loc, arm.body), s, base)
    ensures Allowed(S.SExpr(p, n, loc, arm.body).out, r, b)
    ensures var fr := S.SExpr(p, n, loc, arm.body).fr; Pop(fr + base) == Pop(fr) + base
    decreases n, arm, 0, 0
  {
    ExprAgrees(p, n, s, loc, base, arm.body, r, b);
  }

  /** A call gives back the caller's frames and flags, and reads none of them. */
  lemma {:induction false} BodyAgrees(p: Program, n: nat, s: State, f: Fn, vals: seq<Val>)
    requires OkProgram(p) && OkBlock(f.body, true, false) && |vals| == |f.params|
    requires s.Calm()
    ensures match S.SCall(p, n, f, vals)
      case Norm(v) => FCall(p, n, s, f, vals) == Go(s, v)
      case Halt => FCall(p, n, s, f, vals) == Stop
      case Dry => FCall(p, n, s, f, vals) == Dry
      case Unbound => true
      case _ => false
    decreases n, f.body, 2, 0
  {
    var m := BindParams(p.prims, map[], f, vals, 0);
    if m.Some? {
      var loc := [m.value];
      BlockAgrees(p, n, Pushed(s, m.value), loc, s.fr, f.body, true, false);
      var r := S.SBlock(p, n, loc, f.body);
      assert Pop(r.fr + s.fr) == s.fr;
    }
  }

  lemma {:induction false} BlockAgrees(
      p: Program, n: nat, s: State, loc: Frames, base: Frames, blk: Block, r: bool, b: bool)
    requires OkProgram(p) && OkBlock(blk, r, b)
    requires s.Calm() && loc != [] && s.fr == loc + base
    ensures ExprMeans(FBlock(p, n, s, blk), S.SBlock(p, n, loc, blk), s, base)
    ensures Allowed(S.SBlock(p, n, loc, blk).out, r, b)
    decreases n, blk, 1, |blk.stmts| + 1
  {
    var loc' := [map[]] + loc;
    assert [map[]] + (loc + base) == loc' + base;
    StmtsAgree(p, n, Pushed(s, map[]), loc', base, blk, 0, r, b);
    var t := S.SStmts(p, n, loc', blk, 0);
    assert Pop(t.fr + base) == Pop(t.fr) + base;
    if t.out.Norm? && blk.tail.Some? {
      ExprAgrees(p, n, s.(fr := t.fr + base), t.fr, base, blk.tail.value, r, b);
      var u := S.SExpr(p, n, t.fr, blk.tail.value);
      assert Pop(u.fr + base) == Pop(u.fr) + base;
    }
  }

  lemma {:induction false} StmtsAgree(
      p: Program, n: nat, s: State, loc: Frames, base: Frames, blk: Block, i: nat, r: bool, b: bool)
    requires OkProgram(p) && OkBlock(blk, r, b) && i <= |blk.stmts|
    requires s.Calm() && loc != [] && s.fr == loc + base
    ensures StmtMeans(FStmts(p, n, s, blk, i), S.SStmts(p, n, loc, blk, i), s, base)
    ensures Allowed(S.SStmts(p, n, loc, blk, i).out, r, b)
    decreases n, blk, 1, |blk.stmts| - i
  {
    if i < |blk.stmts| {
      StmtAgrees(p, n, s, loc, base, blk.stmts[i], r, b);
      var t := S.SStmt(p, n, loc, blk.stmts[i]);
      if t.out.Norm? {
        StmtsAgree(p, n, s.(fr := t.fr + base), t.fr, base, blk, i + 1, r, b);
      }
    }
  }

  lemma {:induction false} StmtAgrees(
      p: Program, n: nat, s: State, loc: Frames, base: Frames, st: Stmt, r: bool, b: bool)
    requires OkProgram(p) && OkStmt(st, r, b)
    requires s.Calm() && loc != [] && s.fr == loc + base
    ensures StmtMeans(FStmt(p, n, s, st), S.SStmt(p, n, loc, st), s, base)
    ensures Allowed(S.SStmt(p, n, loc, st).out, r, b)
    decreases n, st, 1, 0
  {
    match st
    case Break =>
    case Continue =>
    case Return(v) =>
      if v.Some? {
        ExprAgrees(p, n, s, loc, base, v.value, r, false);
      }
    case ExprS(e) => ExprAgrees(p, n, s, loc, base, e, r, b);
    case Let(_, _, _) => LetAgrees(p, n, s, loc, base, st, r, b);
    case Assign(_, _, _) => AssignAgrees(p, n, s, loc, base, st);
    case While(_, _) => WhileAgrees(p, n, s, loc, base, st, r);
    case For(_, _, _, _, _) => ForAgrees(p, n, s, loc, base, st, r);
  }

  lemma DeclareAppend(loc: Frames, base: Frames, x: string, v: Val)
    requires loc != []
    ensures Declare(loc + base, x, v) == Declare(loc, x, v) + base
    ensures Pop(Declare(loc + base, x, v)) == Pop(loc + base)
  {
    assert (loc + base)[1..] == loc[1..] + base;
  }

  lemma {:induction false} LetAgrees(
      p: Program, n: nat, s: State, loc: Frames, base: Frames, st: Stmt, r: bool, b: bool)
    requires OkProgram(p) && st.Let? && OkStmt(st, r, b)
    requires s.Calm() && loc != [] && s.fr == loc + base
    ensures StmtMeans(FStmt(p, n, s, st), S.SStmt(p, n, loc, st), s, base)
    ensures Allowed(S.SStmt(p, n, loc, st).out, r, b)
    decreases n, st, 0, 0
  {
    if st.ann.IntTy? && !st.e.Try? {
      ExprAgrees(p, n, s, loc, base, st.e, false, false);
    } else {
      ExprAgrees(p, n, s, loc, base, st.e, r, b);
      if st.e.Try? {
        ExprAgrees(p, n, s, loc, base, st.e.e, false, false);
      }
    }
    var f := FExpr(p, n, s, st.e);
    if f.Go? && st.name.Some? {
      var fr := S.SExpr(p, n, loc, st.e).fr;
      var a := Adapt(p.prims, st.ann, f.v);
      if a.Some? {
        DeclareAppend(fr, base, st.name.value, a.value);
      }
    }
  }

  lemma {:induction false} AssignAgrees(p: Program, n: nat, s: State, loc: Frames, base: Frames, st: Stmt)
    requires OkProgram(p) && st.Assign? && OkStmt(st, false, false)
    requires s.Calm() && loc != [] && s.fr == loc + base
    ensures StmtMeans(FStmt(p, n, s, st), S.SStmt(p, n, loc, st), s, base)
    ensures Allowed(S.SStmt(p, n, loc, st).out, false, false)
    decreases n, st, 0, 0
  {
    FindAppend(loc, base, st.x);
    if Find(loc, st.x).Some? {
      ExprAgrees(p, n, s, loc, base, st.e, false, false);
      var r := S.SExpr(p, n, loc, st.e);
      ExprKeeps(p, n, loc, st.e);
      FindSameKeys(loc, r.fr, st.x);
      if r.out.Norm? {
        var a := Syntax.Assigned(p.prims, st.aop, Find(loc, st.x).value, r.out.v);
        if a.Some? {
          SetAppend(r.fr, base, st.x, a.value);
        }
      }
    }
  }

  lemma {:induction false} WhileAgrees(
      p: Program, n: nat, s: State, loc: Frames, base: Frames, st: Stmt, r: bool)
    requires OkProgram(p) && st.While? && OkStmt(st, r, false)
    requires s.Calm() && loc != [] && s.fr == loc + base
    ensures WhileMeans(FWhile(p, n, s, st), S.SWhile(p, n, loc, st), s, base)
    ensures Allowed(S.SWhile(p, n, loc, st).out, r, false)
    decreases n, st, 0, 0
  {
    ExprAgrees(p, n, s, loc, base, st.cond, false, false);
    var c := S.SExpr(p, n, loc, st.cond);
    if c.out.Norm? && Truthy(c.out.v) {
      BlockAgrees(p, n, s.(fr := c.fr + base), c.fr, base, st.body, r, true);
      var t := S.SBlock(p, n, c.fr, st.body);
      if (t.out.Norm? || t.out.Cont?) && n > 0 {
        WhileAgrees(p, n - 1, s.(fr := t.fr + base), t.fr, base, st, r);
      }
    }
  }

  /** As `ExprMeans`, before the statement clears `break` after its loop. */
  ghost predicate WhileMeans(f: Res, r: S.Res, s: State, base: Frames) {
    match r.out
    case Norm(_) => r.out.v == VoidV && f.Go? && f.v == VoidV && f.s.(hasBrk := false) == s.(fr := r.fr + base)
    case Ret(v) => f == Go(s.(fr := r.fr + base, hasRet := true, ret := v), VoidV)
    case Brk => false
    case Cont => false
    case Halt => f == Stop
    case Dry => f == Dry
    case Unbound => true
  }

  lemma {:induction false} ForAgrees(
      p: Program, n: nat, s: State, loc: Frames, base: Frames, st: Stmt, r: bool)
    requires OkProgram(p) && st.For? && OkStmt(st, r, false)
    requires s.Calm() && loc != [] && s.fr == loc + base
    ensures StmtMeans(FStmt(p, n, s, st), S.SStmt(p, n, loc, st), s, base)
    ensures Allowed(S.SStmt(p, n, loc, st).out, r, false)
    decreases n, st, 0, 1
  {
    ExprAgrees(p, n, s, loc, base, st.lo, false, false);
    var l := S.SExpr(p, n, loc, st.lo);
    if l.out.Norm? {
      ExprAgrees(p, n, s.(fr := l.fr + base), l.fr, base, st.hi, false, false);
      var h := S.SExpr(p, n, l.fr, st.hi);
      if h.out.Norm? {
        var first := if st.name.Some? then map[st.name.value := CountV(0)] else map[];
        ScopedRange(p, n, s.(fr := h.fr + base), h.fr, base, st, first, p.prims.bound(l.out.v),
          p.prims.bound(h.out.v), r);
      }
    }
  }

  /** The loop frame around the iterations. */
  lemma {:induction false} ScopedRange(
      p: Program, n: nat, s: State, loc: Frames, base: Frames, st: Stmt, first: Frame, a: int, b: int, r: bool)
    requires OkProgram(p) && st.For? && OkStmt(st, r, false)
    requires s.Calm() && s.fr == loc + base
    ensures var f, t := FFor(p, n, Pushed(s, first), st, a, b), S.SFor(p, n, [first] + loc, st, a, b);
      && WhileMeans(f, t, s.(fr := [first] + loc + base), base)
      && (t.out.Norm? ==> !f.s.hasBrk)
      && Allowed(t.out, r, false)
      && Pop(t.fr + base) == Pop(t.fr) + base
    decreases n, st, 0, 0, 1
  {
    assert [first] + (loc + base) == [first] + loc + base;
    RangeAgrees(p, n, Pushed(s, first), [first] + loc, base, st, a, b, r);
  }

  lemma {:induction false} RangeAgrees(
      p: Program, n: nat, s: State, loc: Frames, base: Frames, st: Stmt, cur: int, hi: int, r: bool)
    requires OkProgram(p) && st.For? && OkStmt(st, r, false)
    requires s.Calm() && loc != [] && s.fr == loc + base
    ensures WhileMeans(FFor(p, n, s, st, cur, hi), S.SFor(p, n, loc, st, cur, hi), s, base)
    ensures S.SFor(p, n, loc, st, cur, hi).out.Norm? ==> !FFor(p, n, s, st, cur, hi).s.hasBrk
    ensures Allowed(S.SFor(p, n, loc, st, cur, hi).out, r, false)
    decreases n, st, 0, 0, 0
  {
    if InRange(cur, hi, st.incl) {
      var loc' := if st.name.Some? then Declare(loc, st.name.value, CountV(cur)) else loc;
      if st.name.Some? {
        DeclareAppend(loc, base, st.name.value, CountV(cur));
      }
      BlockAgrees(p, n, s.(fr := loc' + base), loc', base, st.body, r, true);
      var t := S.SBlock(p, n, loc', st.body);
      if (t.out.Norm? || t.out.Cont?) && n > 0 {
        RangeAgrees(p, n - 1, s.(fr := t.fr + base), t.fr, base, st, cur + 1, hi, r);
      }
    }
  }

  /** The caller's state, unchanged, and the value; or the end of the run. */
  function Result(s: State, o: S.Out): Res {
    match o
    case Norm(v) => Go(s, v)
    case Dry => Dry
    case _ => Stop
  }

  /** Whole-call form: from any calm state, over any caller's frames. */
  lemma FlagsComputeStructured(p: Program, n: nat, s: State, name: string, vals: seq<Val>)
    requires OkProgram(p) && name in p.fns && |vals| == |p.fns[name].params|
    requires s.Calm() && S.SCall(p, n, p.fns[name], vals) != S.Unbound
    ensures FCall(p, n, s, p.fns[name], vals) == Result(s, S.SCall(p, n, p.fns[name], vals))
  {
    BodyAgrees(p, n, s, p.fns[name], vals);
  }

  /** No loop ends with `break` or `continue` pending, whatever its body does. */
  lemma LoopsClearFlags(p: Program, n: nat, s: State, loc: Frames, base: Frames, st: Stmt)
    requires OkProgram(p) && (st.While? || st.For?) && OkStmt(st, true, false)
    requires s.Calm() && loc != [] && s.fr == loc + base
    requires FStmt(p, n, s, st).Go? && S.SStmt(p, n, loc, st).out != S.Unbound
    ensures !FStmt(p, n, s, st).s.hasBrk && !FStmt(p, n, s, st).s.hasCont
    ensures FStmt(p, n, s, st).s.hasRet <==> S.SStmt(p, n, loc, st).out.Ret?
  {
    StmtAgrees(p, n, s, loc, base, st, true, false);
  }

  /** A block that returns at once. */
  function Returning(v: Val): Block { Block([Return(Some(Lit(v)))], None) }

  lemma ReturnsAtOnce(p: Program, n: nat, s: State, loc: Frames, v: Val)
    requires s.Calm()
    ensures S.SBlock(p, n, loc, Returning(v)).out == S.Ret(v)
    ensures FBlock(p, n, s, Returning(v)) == Go(s.(hasRet := true, ret := v), v)
  {
    var b, loc', s' := Returning(v), [map[]] + loc, Pushed(s, map[]);
    var after := s'.(hasRet := true, ret := v);
    assert S.SStmt(p, n, loc', b.stmts[0]) == S.Res(loc', S.Ret(v));
    assert FStmt(p, n, s', b.stmts[0]) == Go(after, VoidV);
    assert FStmts(p, n, after, b, 1) == Go(after, VoidV);
    assert FStmts(p, n, s', b, 0) == Go(after, VoidV);
  }

  /** Why operands may not be left early: `return !{ return true }` computes with
      the value of a block that has already returned, and returns `false`. */
  lemma OperandOutlivesReturn(p: Program, n: nat, s: State, loc: Frames)
    requires s.Calm()
    ensures var st := Return(Some(Not(BlockE(Returning(BoolV(true))))));
      && S.SStmt(p, n, loc, st).out == S.Ret(BoolV(true))
      && FStmt(p, n, s, st) == Go(s.(hasRet := true, ret := BoolV(false)), VoidV)
  {
    ReturnsAtOnce(p, n, s, loc, BoolV(true));
    var e := Not(BlockE(Returning(BoolV(true))));
    assert FExpr(p, n, s, e.e) == FBlock(p, n, s, Returning(BoolV(true)));
    assert S.SExpr(p, n, loc, e.e).out == S.Ret(BoolV(true));
    assert S.SExpr(p, n, loc, e).out == S.Ret(BoolV(true));
    assert FExpr(p, n, s, e) == Go(s.(hasRet := true, ret := BoolV(true)), BoolV(false));
  }

  /** Why an annotated `let` may not be left by `return`: the annotation is
      checked against the returned value, and can stop the run. */
  lemma AnnotationChecksReturn(p: Program, n: nat, s: State, loc: Frames, x: string, ann: Ann, i: int)
    requires s.Calm() && ann.IntTy? && p.prims.fit(ann, i).None?
    ensures var st := Let(Some(x), ann, BlockE(Returning(IntV(i))));
      && S.SStmt(p, n, loc, st).out == S.Ret(IntV(i))
      && FStmt(p, n, s, st) == Stop
  {
    ReturnsAtOnce(p, n, s, loc, IntV(i));
    var e := BlockE(Returning(IntV(i)));
    assert FExpr(p, n, s, e) == FBlock(p, n, s, Returning(IntV(i)));
    assert S.SExpr(p, n, loc, e).out == S.Ret(IntV(i));
  }
}
