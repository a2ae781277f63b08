/** Why the rules are there: for each one a program that breaks it, and what the
    two executions then do. Each statement names one input. */
module EmitterLimits {
  import opened Options
  import opened Syntax
  import opened Structured
  import opened CLang
  import opened Lower
  import opened SimBase

  /** `match k { pat => body, … }` as a statement, run on the C side: the scrutinee's
      temporary, then the chain and what follows it. */
  lemma MatchRuns(p: Program, cp: CProgram, n: nat, sc: Scopes, t: nat, e: Expr, k: int)
    requires e.Match? && e.scrut == Lit(IntV(k)) && LMatch(p, true, {}, t, e, false).Some?
    ensures LChain(p, true, {}, t + 1, None, Temp(ScrutT, t), e, 0).Some?
    ensures var arms := LChain(p, true, {}, t + 1, None, Temp(ScrutT, t), e, 0).value;
      var inner := Bound([map[]] + sc, Temp(ScrutT, t), IntV(k));
      CExec(cp, n, sc, LMatch(p, true, {}, t, e, false).value.code).out
        == CExec(cp, n, inner, arms.chain + arms.after).out
  {
    var vn := Temp(ScrutT, t);
    var arms := LChain(p, true, {}, t + 1, None, vn, e, 0).value;
    var decl := CVarDecl(vn, CLit(IntV(k)));
    assert LExpr(p, {}, e.scrut) == Some(CLit(IntV(k)));
    ExecOne(cp, n, sc, CBraces([decl] + arms.chain + arms.after));
    assert [decl] + arms.chain + arms.after == [decl] + (arms.chain + arms.after);
    ExecCons(cp, n, [map[]] + sc, decl, arms.chain + arms.after);
    assert CValue(cp, n, [map[]] + sc, CLit(IntV(k))) == CIs(IntV(k));
  }

  lemma ScopedPanics(cp: CProgram, n: nat, sc: Scopes)
    ensures CScoped(cp, n, sc, [CEval(CPanic)]).out == CHalt
  {
    ExecOne(cp, n, [map[]] + sc, CEval(CPanic));
    assert CValue(cp, n, [map[]] + sc, CPanic) == CHalts;
  }

  /** An arm that binds nothing and is no block is one expression statement. */
  lemma PlainArm(p: Program, t: nat, vn: CName, arm: Arm, c: CExpr)
    requires BoundBy(arm.pat) == {} && LBind(arm.pat, vn) == [] && !arm.body.BlockE?
    requires LDrop(p, {}, arm.body) == Some(c)
    ensures LArm(p, true, {}, t, None, vn, arm) == Some(Em([CEval(c)], t, {}))
  {
    assert {} + BoundBy(arm.pat) == {};
    assert LArmBody(p, true, {}, t, None, arm.body) == Some(Em([CEval(c)], t, {}));
    assert [] + [CEval(c)] == [CEval(c)];
  }

  function Guarded(): Expr {
    Match(Lit(IntV(0)), [Arm(LitInt(0), Some(Lit(BoolV(false))), Panic), Arm(Wild, None, Lit(IntV(1)))])
  }

  function EarlyCatchAll(): Expr {
    Match(Lit(IntV(0)), [Arm(Wild, None, Lit(IntV(1))), Arm(LitInt(0), None, Panic)])
  }

  lemma SourceTakesOne(p: Program, n: nat, fr: Frames, e: Expr, i: nat)
    requires e.Match? && i < |e.arms| && e.arms[i] == Arm(Wild, None, Lit(IntV(1)))
    ensures SArms(p, n, fr, e, IntV(0), i).out == Norm(IntV(1))
  {
    assert PatBind(Wild, IntV(0)) == Some(map[]);
    assert SGuard(p, n, [map[]] + fr, e.arms[i]) == Res([map[]] + fr, Norm(BoolV(true)));
    assert SExpr(p, n, [map[]] + fr, Lit(IntV(1))).out == Norm(IntV(1));
  }

  lemma SourceSkipsGuarded(p: Program, n: nat, fr: Frames)
    ensures SExpr(p, n, fr, Guarded()).out == Norm(IntV(1))
  {
    var e, first := Guarded(), Guarded().arms[0];
    assert PatBind(first.pat, IntV(0)) == Some(map[]);
    assert SExpr(p, n, [map[]] + fr, Lit(BoolV(false))) == Res([map[]] + fr, Norm(BoolV(false)));
    assert SGuard(p, n, [map[]] + fr, first) == Res([map[]] + fr, Norm(BoolV(false)));
    assert Pop([map[]] + fr) == fr;
    SourceTakesOne(p, n, fr, e, 1);
    assert SArms(p, n, fr, e, IntV(0), 0) == SArms(p, n, fr, e, IntV(0), 1);
  }

  lemma ChainPanics(cp: CProgram, n: nat, sc: Scopes, vn: CName, rest: seq<CStmt>)
    requires CFind(sc, vn) == Some(IntV(0))
    ensures CExec(cp, n, sc, [CIf(CEqInt(CVar(vn), 0), [CEval(CPanic)], rest)]).out == CHalt
  {
    ExecOne(cp, n, sc, CIf(CEqInt(CVar(vn), 0), [CEval(CPanic)], rest));
    assert CValue(cp, n, sc, CVar(vn)) == CIs(IntV(0));
    ScopedPanics(cp, n, sc);
  }

  /** `match 0 { 0 if false => panic, _ => 1 }`: the guard is not emitted, so the
      first arm is taken and the program stops. */
  lemma GuardIsIgnored(p: Program, cp: CProgram, n: nat, fr: Frames, sc: Scopes, t: nat)
    ensures SExpr(p, n, fr, Guarded()).out == Norm(IntV(1))
    ensures LMatch(p, true, {}, t, Guarded(), false).Some?
    ensures CExec(cp, n, sc, LMatch(p, true, {}, t, Guarded(), false).value.code).out == CHalt
  {
    SourceSkipsGuarded(p, n, fr);
    var e, vn := Guarded(), Temp(ScrutT, t);
    PlainArm(p, t + 1, vn, e.arms[0], CPanic);
    PlainArm(p, t + 1, vn, e.arms[1], CLit(IntV(1)));
    assert LAfter(p, true, {}, t + 1, None, vn, e, 2) == Some(Em([], t + 1, {}));
    var rest := LChain(p, true, {}, t + 1, None, vn, e, 1).value;
    var arms := LChain(p, true, {}, t + 1, None, vn, e, 0).value;
    assert arms.chain + arms.after == [CIf(CEqInt(CVar(vn), 0), [CEval(CPanic)], rest.chain)];
    MatchRuns(p, cp, n, sc, t, e, 0);
    ChainPanics(cp, n, Bound([map[]] + sc, vn, IntV(0)), vn, rest.chain);
  }

  lemma BlockThenPanics(cp: CProgram, n: nat, sc: Scopes, vn: CName)
    requires CFind(sc, vn) == Some(IntV(0))
    ensures CExec(cp, n, sc, [CBraces([CEval(CLit(IntV(1)))])] + [CIf(CEqInt(CVar(vn), 0), [CEval(CPanic)], [])]).out
      == CHalt
  {
    ExecCons(cp, n, sc, CBraces([CEval(CLit(IntV(1)))]), [CIf(CEqInt(CVar(vn), 0), [CEval(CPanic)], [])]);
    ExecOne(cp, n, [map[]] + sc, CEval(CLit(IntV(1))));
    assert CValue(cp, n, [map[]] + sc, CLit(IntV(1))) == CIs(IntV(1));
    assert CPop([map[]] + sc) == sc;
    ChainPanics(cp, n, sc, vn, []);
  }

  lemma EarlyCatchAllEmitted(p: Program, t: nat)
    ensures var vn := Temp(ScrutT, t);
      var arms := LChain(p, true, {}, t + 1, None, vn, EarlyCatchAll(), 0);
      && LMatch(p, true, {}, t, EarlyCatchAll(), false).Some? && arms.Some?
      && arms.value.chain + arms.value.after ==
           [CBraces([CEval(CLit(IntV(1)))])] + [CIf(CEqInt(CVar(vn), 0), [CEval(CPanic)], [])]
  {
    var e, vn := EarlyCatchAll(), Temp(ScrutT, t);
    PlainArm(p, t + 1, vn, e.arms[0], CLit(IntV(1)));
    PlainArm(p, t + 1, vn, e.arms[1], CPanic);
    assert LAfter(p, true, {}, t + 1, None, vn, e, 2) == Some(Em([], t + 1, {}));
    assert LAfter(p, true, {}, t + 1, None, vn, e, 1).value.code == [CIf(CEqInt(CVar(vn), 0), [CEval(CPanic)], [])];
  }

  /** `match 0 { _ => 1, 0 => panic }`: the arm after the catch-all is emitted as an
      `if` of its own, and runs as well. */
  lemma CatchAllDoesNotEndTheMatch(p: Program, cp: CProgram, n: nat, fr: Frames, sc: Scopes, t: nat)
    ensures SExpr(p, n, fr, EarlyCatchAll()).out == Norm(IntV(1))
    ensures LMatch(p, true, {}, t, EarlyCatchAll(), false).Some?
    ensures CExec(cp, n, sc, LMatch(p, true, {}, t, EarlyCatchAll(), false).value.code).out == CHalt
  {
    hide LMatch, LChain, CExec;
    SourceTakesOne(p, n, fr, EarlyCatchAll(), 0);
    EarlyCatchAllEmitted(p, t);
    MatchRuns(p, cp, n, sc, t, EarlyCatchAll(), 0);
    BlockThenPanics(cp, n, Bound([map[]] + sc, Temp(ScrutT, t), IntV(0)), Temp(ScrutT, t));
  }

  /** `let x: Bool = match 0 { _ => true || false }`: the emitter does not know the
      type of `||`, gives the `match` no result, and initialises `x` with 0. */
  lemma UntypedArmGivesZero(p: Program, n: nat, fr: Frames, t: nat, x: string)
    requires fr != []
    ensures var st := Let(Some(x), OtherTy,
      Match(Lit(IntV(0)), [Arm(Wild, None, OrElse(Lit(BoolV(true)), Lit(BoolV(false))))]));
      && SStmt(p, n, fr, st) == Res(Declare(fr, x, BoolV(true)), Norm(VoidV))
      && LStmt(p, true, {}, t, st).Some?
      && var code := LStmt(p, true, {}, t, st).value.code;
         code != [] && code[|code| - 1] == CVarDecl(Src(x), CLit(IntV(0)))
  {
    var arm := Arm(Wild, None, OrElse(Lit(BoolV(true)), Lit(BoolV(false))));
    var e := Match(Lit(IntV(0)), [arm]);
    var st := Let(Some(x), OtherTy, e);
    var fr' := [map[]] + fr;
    assert SExpr(p, n, fr', Lit(BoolV(true))).out == Norm(BoolV(true));
    assert SExpr(p, n, fr', arm.body) == Res(fr', Norm(BoolV(true)));
    assert SGuard(p, n, fr', arm) == Res(fr', Norm(BoolV(true)));
    assert SArms(p, n, fr, e, IntV(0), 0) == Res(fr, Norm(BoolV(true)));
    assert SExpr(p, n, fr, e) == Res(fr, Norm(BoolV(true)));

    assert LExpr(p, {}, Lit(BoolV(true))).Some? && LExpr(p, {}, Lit(BoolV(false))).Some?;
    assert LDry(p, true, {}, t + 1, arm.body) == Some((t + 1, false));
    PlainArm(p, t + 1, Temp(ScrutT, t), arm, LExpr(p, {}, arm.body).value);
    assert LAfter(p, true, {}, t + 1, None, Temp(ScrutT, t), e, 1).Some?;
    assert LChain(p, true, {}, t + 1, None, Temp(ScrutT, t), e, 0).Some?;
    assert LMatch(p, true, {}, t, e, true).value.result.None?;
  }

  /** `let x: T = { i }` */
  function LetBlock(x: string, ann: Ann, i: int): Stmt { Let(Some(x), ann, BlockE(Block([], Some(Lit(IntV(i)))))) }

  lemma SourceChecks(p: Program, n: nat, fr: Frames, x: string, ann: Ann, i: int)
    requires ann.IntTy? && p.prims.fit(ann, i).None?
    ensures SStmt(p, n, fr, LetBlock(x, ann, i)).out == Halt
  {
    var st := LetBlock(x, ann, i);
    assert SStmts(p, n, [map[]] + fr, st.e.b, 0) == Res([map[]] + fr, Norm(VoidV));
    assert SExpr(p, n, [map[]] + fr, Lit(IntV(i))).out == Norm(IntV(i));
    assert SBlock(p, n, fr, st.e.b).out == Norm(IntV(i));
    assert SExpr(p, n, fr, st.e).out == Norm(IntV(i));
  }

  lemma LetBlockEmitted(p: Program, t: nat, x: string, ann: Ann, i: int)
    ensures LStmt(p, true, {}, t, LetBlock(x, ann, i)).Some?
    ensures var v := Temp(ValueT, t);
      LStmt(p, true, {}, t, LetBlock(x, ann, i)).value.code ==
      [CVarDecl(v, CLit(IntV(0)))] + ([CSet(v, CLit(IntV(i)))] + [CVarDecl(Src(x), CVar(v))])
  {
    var st, v := LetBlock(x, ann, i), Temp(ValueT, t);
    var b := st.e.b;
    assert LStmts(p, true, {}, t, b, 0) == Some(Em([], t, {}));
    assert LStmts(p, true, {}, t + 1, b, 0) == Some(Em([], t + 1, {}));
    assert LExpr(p, {}, Lit(IntV(i))) == Some(CLit(IntV(i)));
    assert LDryBlock(p, true, {}, t, b) == Some((t, true));
    var two := [CSet(v, CLit(IntV(i)))];
    assert LValue(p, true, {}, t + 1, v, Lit(IntV(i))) == Some(Em(two, t + 1, {}));
    assert [] + two == two;
    assert LValueBlock(p, true, {}, t + 1, v, b) == Some(Em(two, t + 1, {}));
    assert LValue(p, true, {}, t + 1, v, st.e) == Some(Em(two, t + 1, {}));
    var one, three := [CVarDecl(v, CLit(IntV(0)))], [CVarDecl(Src(x), CVar(v))];
    assert one + two + three == one + (two + three);
    assert LLetValue(p, true, {}, t, st, b) == Some(Em(one + two + three, t + 1, {} + {x}));
    assert LLet(p, true, {}, t, st) == LLetValue(p, true, {}, t, st, b);
  }

  /** With `i` outside `T` the interpreter stops; the emitted code stores `i`, since
      no check is written for a value block. */
  lemma BlockValueIsNotChecked(
      p: Program, cp: CProgram, n: nat, fr: Frames, sc: Scopes, t: nat, x: string, ann: Ann, i: int)
    requires ann.IntTy? && p.prims.fit(ann, i).None? && sc == [map[]]
    ensures SStmt(p, n, fr, LetBlock(x, ann, i)).out == Halt
    ensures LStmt(p, true, {}, t, LetBlock(x, ann, i)).Some?
    ensures var r := CExec(cp, n, sc, LStmt(p, true, {}, t, LetBlock(x, ann, i)).value.code);
      r.out == CNorm && CFind(r.sc, Src(x)) == Some(IntV(i))
  {
    SourceChecks(p, n, fr, x, ann, i);
    LetBlockEmitted(p, t, x, ann, i);
    var v := Temp(ValueT, t);
    var one, two, three := CVarDecl(v, CLit(IntV(0))), CSet(v, CLit(IntV(i))), CVarDecl(Src(x), CVar(v));
    ExecCons(cp, n, sc, one, [two] + [three]);
    assert CValue(cp, n, sc, CLit(IntV(0))) == CIs(IntV(0));
    var sc1, sc2 := Bound(sc, v, IntV(0)), Bound(sc, v, IntV(i));
    ExecCons(cp, n, sc1, two, [three]);
    assert CValue(cp, n, sc1, CLit(IntV(i))) == CIs(IntV(i));
    assert sc1[0][v := IntV(i)] == sc[0][v := IntV(i)];
    assert CUpdate(sc1, v, IntV(i)) == sc2;
    ExecOne(cp, n, sc2, three);
    assert CValue(cp, n, sc2, CVar(v)) == CIs(IntV(i));
  }

  /** `fn f() -> T { 1 }`: the tail is evaluated and dropped, and the C function
      runs off its end. */
  lemma TailIsNotReturned(p: Program, cp: CProgram, n: nat, t: nat)
    ensures var f := Fn([], false, Block([], Some(Lit(IntV(1)))));
      && SCall(p, n, f, []) == Norm(IntV(1))
      && LFn(p, f, t).Some?
      && CRun(cp, n, LFn(p, f, t).value, []) == CBad
  {
    var b := Block([], Some(Lit(IntV(1))));
    var f := Fn([], false, b);
    var fr: Frames := [map[]];
    assert SStmts(p, n, [map[]] + fr, b, 0) == Res([map[]] + fr, Norm(VoidV));
    assert SExpr(p, n, [map[]] + fr, Lit(IntV(1))).out == Norm(IntV(1));
    assert SBlock(p, n, fr, b).out == Norm(IntV(1));
    assert BindParams(p.prims, map[], f, [], 0) == Some(map[]);

    assert LStmts(p, false, {}, t, b, 0) == Some(Em([], t, {}));
    assert LTail(p, false, {}, t, Lit(IntV(1))) == Some(Em([CEval(CLit(IntV(1)))], t, {}));
    assert LBlock(p, false, {}, t, b) == Some(Em([] + [CEval(CLit(IntV(1)))], t, {}));
    var cf := LFn(p, f, t).value;
    assert cf.body == [CEval(CLit(IntV(1)))];
    ExecOne(cp, n, [map[]], CEval(CLit(IntV(1))));
    assert CValue(cp, n, [map[]], CLit(IntV(1))) == CIs(IntV(1));
  }

  /** `{ let x = 1; x }` as a value, then `let x = 2`: the value block opens no
      braces, so the emitted scope declares `x` twice. */
  lemma ValueBlockLeaks(cp: CProgram, p: Program, n: nat, t: nat, x: string)
    ensures var inner := Block([Let(Some(x), Bare, Lit(IntV(1)))], Some(Var(x)));
      var v := Temp(ValueT, t);
      && LValueBlock(p, true, {}, t + 1, v, inner).Some?
      && var code := LValueBlock(p, true, {}, t + 1, v, inner).value.code;
         var sc := CExec(cp, n, [map[v := IntV(0)]], code).sc;
         && CExec(cp, n, [map[v := IntV(0)]], code).out == CNorm
         && forall e :: CStep(cp, n, sc, CVarDecl(Src(x), e)).out == CStuck
  {
    var inner := Block([Let(Some(x), Bare, Lit(IntV(1)))], Some(Var(x)));
    var v, nv := Temp(ValueT, t), Temp(InitT, t + 1);
    assert LExpr(p, {}, Lit(IntV(1))) == Some(CLit(IntV(1)));
    var one, two, three := CVarDecl(nv, CLit(IntV(1))), CVarDecl(Src(x), CVar(nv)), CSet(v, CVar(Src(x)));
    assert LStmt(p, true, {}, t + 1, inner.stmts[0]) == Some(Em([one, two], t + 2, {} + {x}));
    assert LStmts(p, true, {} + {x}, t + 2, inner, 1) == Some(Em([], t + 2, {} + {x}));
    assert [one, two] + [] == [one, two];
    assert LStmts(p, true, {}, t + 1, inner, 0) == Some(Em([one, two], t + 2, {} + {x}));
    assert LExpr(p, {} + {x}, Var(x)) == Some(CVar(Src(x)));
    assert LValue(p, true, {} + {x}, t + 2, v, Var(x)) == Some(Em([three], t + 2, {} + {x}));
    assert [one, two] + [three] == [one] + ([two] + [three]);
    var sc := [map[v := IntV(0)]];
    ExecCons(cp, n, sc, one, [two] + [three]);
    assert CValue(cp, n, sc, CLit(IntV(1))) == CIs(IntV(1));
    var sc1 := Bound(sc, nv, IntV(1));
    ExecCons(cp, n, sc1, two, [three]);
    assert CValue(cp, n, sc1, CVar(nv)) == CIs(IntV(1));
    var sc2 := Bound(sc1, Src(x), IntV(1));
    ExecOne(cp, n, sc2, three);
    assert CValue(cp, n, sc2, CVar(Src(x))) == CIs(IntV(1));
  }

  /** `for i in 0..1 { i = -1 }` */
  function CountsBack(i: string): Stmt {
    For(Some(i), Lit(IntV(0)), Lit(IntV(1)), false, Block([Assign(i, None, Lit(IntV(-1)))], None))
  }

  function CountsBackLoop(i: string, t: nat): CStmt {
    CFor(Src(i), Temp(BoundT, t), Temp(BoundT, t + 1), false, [CSet(Src(i), CStore(Src(i), None, CLit(IntV(-1))))])
  }

  lemma CountsBackEmitted(p: Program, t: nat, i: string)
    ensures LStmt(p, true, {}, t, CountsBack(i)).Some?
    ensures LStmt(p, true, {}, t, CountsBack(i)).value.code[0].body[2] == CountsBackLoop(i, t)
  {
    var b, vis := CountsBack(i).body, LoopVis({}, Some(i));
    assert i in vis;
    assert LExpr(p, vis, Lit(IntV(-1))) == Some(CLit(IntV(-1)));
    var set_ := [CSet(Src(i), CStore(Src(i), None, CLit(IntV(-1))))];
    assert LStmt(p, true, vis, t + 2, b.stmts[0]) == Some(Em(set_, t + 2, vis));
    assert LStmts(p, true, vis, t + 2, b, 1) == Some(Em([], t + 2, vis));
    assert set_ + [] == set_;
    assert LStmts(p, true, vis, t + 2, b, 0) == Some(Em(set_, t + 2, vis));
    assert LBlock(p, true, vis, t + 2, b) == Some(Em(set_, t + 2, vis));
    assert LExpr(p, {}, Lit(IntV(0))).Some? && LExpr(p, {}, Lit(IntV(1))).Some?;
  }

  /** The interpreter counts on its own and runs the body once. */
  lemma InterpreterCountsOnItsOwn(p: Program, n: nat, fr: Frames, i: string)
    requires n > 0 && fr != [] && i in fr[0] && p.prims.store(CountV(0), IntV(-1)) == Some(CountV(-1))
    ensures SFor(p, n, fr, CountsBack(i), 0, 1).out == Norm(VoidV)
  {
    var s := CountsBack(i);
    var fr1 := Declare(fr, i, CountV(0));
    var fr2 := [map[]] + fr1;
    assert fr2[1..] == fr1;
    assert Find(fr2, i) == Some(CountV(0));
    assert SExpr(p, n, fr2, Lit(IntV(-1))) == Res(fr2, Norm(IntV(-1)));
    assert SStmt(p, n, fr2, s.body.stmts[0]).out == Norm(VoidV);
    assert SStmts(p, n, fr2, s.body, 0).out == Norm(VoidV);
    var r := SBlock(p, n, fr1, s.body);
    assert r.out == Norm(VoidV);
    assert SFor(p, n - 1, r.fr, s, 1, 1).out == Norm(VoidV);
  }

  /** The C loop counts in the variable itself, and never ends. */
  lemma {:induction false} CodeNeverEnds(cp: CProgram, n: nat, sc: Scopes, i: string, t: nat)
    requires cp.prims.store(CountV(0), IntV(-1)) == Some(CountV(-1))
    requires sc != [] && sc[0] == map[Src(i) := CountV(0)] && CFind(sc, Temp(BoundT, t + 1)) == Some(CountV(1))
    ensures CRange(cp, n, sc, CountsBackLoop(i, t)).out == CDry
  {
    var loop := CountsBackLoop(i, t);
    var inner := [map[]] + sc;
    assert inner[1..] == sc;
    assert CValue(cp, n, inner, CLit(IntV(-1))) == CIs(IntV(-1));
    assert CFind(inner, Src(i)) == Some(CountV(0));
    ExecOne(cp, n, inner, loop.body[0]);
    var after := [map[Src(i) := CountV(-1)]] + sc[1..];
    assert sc[0][Src(i) := CountV(-1)] == map[Src(i) := CountV(-1)];
    assert CUpdate(sc, Src(i), CountV(-1)) == after;
    assert CUpdate(inner, Src(i), CountV(-1)) == [map[]] + after;
    assert CScoped(cp, n, sc, loop.body) == CRes(after, CNorm);
    if n > 0 {
      assert after[0][Src(i) := CountV(0)] == map[Src(i) := CountV(0)];
      var next := Bumped(after, Src(i));
      assert next == [map[Src(i) := CountV(0)]] + sc[1..];
      assert next[1..] == sc[1..];
      CodeNeverEnds(cp, n - 1, next, i, t);
    }
  }

  function Large(): Expr {
    Match(Lit(IntV(HALF64)), [Arm(LitInt(HALF64), None, Panic), Arm(Wild, None, Lit(IntV(1)))])
  }

  lemma LargeMatches(p: Program, n: nat, fr: Frames)
    ensures SExpr(p, n, fr, Large()).out == Halt
  {
    var e := Large();
    assert PatBind(LitInt(HALF64), IntV(HALF64)) == Some(map[]);
    assert SGuard(p, n, [map[]] + fr, e.arms[0]) == Res([map[]] + fr, Norm(BoolV(true)));
    assert SExpr(p, n, [map[]] + fr, Panic).out == Halt;
    assert SArms(p, n, fr, e, IntV(HALF64), 0).out == Halt;
  }

  lemma LargeEmitted(p: Program, t: nat)
    ensures
      var vn := Temp(ScrutT, t);
      var arms := LChain(p, true, {}, t + 1, None, vn, Large(), 0);
      && LMatch(p, true, {}, t, Large(), false).Some? && arms.Some?
      && arms.value.chain + arms.value.after ==
           [CIf(CEqInt(CVar(vn), HALF64), [CEval(CPanic)], [CBraces([CEval(CLit(IntV(1)))])])]
  {
    var e, vn := Large(), Temp(ScrutT, t);
    PlainArm(p, t + 1, vn, e.arms[0], CPanic);
    PlainArm(p, t + 1, vn, e.arms[1], CLit(IntV(1)));
    assert LAfter(p, true, {}, t + 1, None, vn, e, 2) == Some(Em([], t + 1, {}));
    assert LChain(p, true, {}, t + 1, None, vn, e, 1).value.chain == [CBraces([CEval(CLit(IntV(1)))])];
  }

  /** `match 9223372036854775808 { 9223372036854775808 => panic, _ => 1 }`: the emitted
      condition converts the literal to a signed 64-bit number, and does not hold. */
  lemma LargeLiteralNeverMatches(p: Program, cp: CProgram, n: nat, fr: Frames, sc: Scopes, t: nat)
    ensures SExpr(p, n, fr, Large()).out == Halt
    ensures LMatch(p, true, {}, t, Large(), false).Some?
    ensures CExec(cp, n, sc, LMatch(p, true, {}, t, Large(), false).value.code).out == CNorm
  {
    hide SExpr, LMatch, LChain, CExec;
    var vn := Temp(ScrutT, t);
    LargeMatches(p, n, fr);
    LargeEmitted(p, t);
    MatchRuns(p, cp, n, sc, t, Large(), HALF64);
    ChainGoesOn(cp, n, Bound([map[]] + sc, vn, IntV(HALF64)), vn, CBraces([CEval(CLit(IntV(1)))]));
  }

  lemma ChainGoesOn(cp: CProgram, n: nat, sc: Scopes, vn: CName, one: CStmt)
    requires CFind(sc, vn) == Some(IntV(HALF64)) && one == CBraces([CEval(CLit(IntV(1)))])
    ensures CExec(cp, n, sc, [CIf(CEqInt(CVar(vn), HALF64), [CEval(CPanic)], [one])]).out == CNorm
  {
    ExecOne(cp, n, sc, CIf(CEqInt(CVar(vn), HALF64), [CEval(CPanic)], [one]));
    assert Signed64(HALF64) == -HALF64;
    assert CValue(cp, n, sc, CVar(vn)) == CIs(IntV(HALF64));
    ExecOne(cp, n, [map[]] + sc, one);
    ExecOne(cp, n, [map[]] + ([map[]] + sc), CEval(CLit(IntV(1))));
    assert CValue(cp, n, [map[]] + ([map[]] + sc), CLit(IntV(1))) == CIs(IntV(1));
  }

  // ---------- Names bound again ----------

  /** `let x = 1` where the scope has an `x` already. */
  function Again(x: string): Stmt { Let(Some(x), Bare, Lit(IntV(1))) }

  lemma AgainEmitted(p: Program, vd: bool, vis: set<string>, t: nat, x: string)
    ensures var b := Block([Again(x)], None);
      LBlock(p, vd, vis, t, b) ==
        Some(Em([CVarDecl(Temp(InitT, t), CLit(IntV(1))), CVarDecl(Src(x), CVar(Temp(InitT, t)))], t + 1, vis))
  {
    var b := Block([Again(x)], None);
    var code := [CVarDecl(Temp(InitT, t), CLit(IntV(1))), CVarDecl(Src(x), CVar(Temp(InitT, t)))];
    assert LExpr(p, vis, Lit(IntV(1))) == Some(CLit(IntV(1)));
    assert LStmt(p, vd, vis, t, Again(x)) == Some(Em(code, t + 1, vis + {x}));
    assert LStmts(p, vd, vis + {x}, t + 1, b, 1) == Some(Em([], t + 1, vis + {x}));
    assert code + [] == code;
    assert LStmts(p, vd, vis, t, b, 0) == Some(Em(code, t + 1, vis + {x}));
  }

  lemma AgainSticks(cp: CProgram, n: nat, sc: Scopes, t: nat, x: string)
    requires sc != [] && Src(x) in sc[0] && Temp(InitT, t) !in sc[0]
    ensures
      CExec(cp, n, sc, [CVarDecl(Temp(InitT, t), CLit(IntV(1))), CVarDecl(Src(x), CVar(Temp(InitT, t)))]).out == CStuck
  {
    var one, two := CVarDecl(Temp(InitT, t), CLit(IntV(1))), CVarDecl(Src(x), CVar(Temp(InitT, t)));
    assert [one, two] == [one] + [two];
    ExecCons(cp, n, sc, one, [two]);
    assert CValue(cp, n, sc, CLit(IntV(1))) == CIs(IntV(1));
    ExecOne(cp, n, Bound(sc, Temp(InitT, t), IntV(1)), two);
  }

  lemma SourceBindsAgain(p: Program, n: nat, fr: Frames, x: string)
    requires fr != []
    ensures SBlock(p, n, fr, Block([Again(x)], None)).out == Norm(VoidV)
  {
    var b := Block([Again(x)], None);
    var inner := [map[]] + fr;
    assert SExpr(p, n, inner, Lit(IntV(1))) == Res(inner, Norm(IntV(1)));
    assert SStmt(p, n, inner, Again(x)).out == Norm(VoidV);
    assert SStmts(p, n, inner, b, 0).out == Norm(VoidV);
  }

  /** `fn f(x: T) { let x = 1 }`: parameters and body share one scope in C. */
  lemma ParameterBoundAgain(p: Program, cp: CProgram, n: nat, t: nat, x: string, v: Val)
    ensures var f := Fn([Param(x, OtherTy)], true, Block([Again(x)], None));
      && SCall(p, n, f, [v]) == Norm(VoidV)
      && LFn(p, f, t).Some?
      && |LFn(p, f, t).value.params| == 1
      && CRun(cp, n, LFn(p, f, t).value, [v]) == CBad
  {
    var f := Fn([Param(x, OtherTy)], true, Block([Again(x)], None));
    var m: Frame := map[x := v];
    assert BindParams(p.prims, map[], f, [v], 0) == BindParams(p.prims, m, f, [v], 1) == Some(m);
    SourceBindsAgain(p, n, [m], x);
    AgainEmitted(p, true, ParamNames(f), t, x);
    var cf := LFn(p, f, t).value;
    var arg := CVarDecl(Src(x), CVar(Par(x)));
    var rest := [CVarDecl(Temp(InitT, t), CLit(IntV(1))), CVarDecl(Src(x), CVar(Temp(InitT, t)))];
    assert LParams(f, 1) == [] && LParams(f, 0) == [arg] + [] == [arg];
    assert cf.body == [arg] + rest;
    var sc: Scopes := [map[Par(x) := v]];
    assert cf.params == [Par(x)] && cf.params[1..] == [] && [v][1..] == [];
    assert ParamScope(cf.params, [v]) == ParamScope([], [])[Par(x) := v] == map[Par(x) := v];
    ExecCons(cp, n, sc, arg, rest);
    assert CValue(cp, n, sc, CVar(Par(x))) == CIs(v);
    AgainSticks(cp, n, Bound(sc, Src(x), v), t, x);
  }

  function Rebinding(x: string): Expr {
    Match(Lit(IntV(0)), [Arm(Bind(x), None, BlockE(Block([Again(x)], None)))])
  }

  /** The pattern's declaration and the block's. */
  function Twice(vn: CName, t: nat, x: string): seq<CStmt> {
    [CVarDecl(Src(x), CVar(vn))] + [CVarDecl(Temp(InitT, t), CLit(IntV(1))), CVarDecl(Src(x), CVar(Temp(InitT, t)))]
  }

  lemma RebindingRuns(p: Program, n: nat, fr: Frames, x: string)
    ensures SExpr(p, n, fr, Rebinding(x)).out == Norm(VoidV)
  {
    var e := Rebinding(x);
    var m: Frame := map[x := IntV(0)];
    assert PatBind(Bind(x), IntV(0)) == Some(m);
    assert SGuard(p, n, [m] + fr, e.arms[0]) == Res([m] + fr, Norm(BoolV(true)));
    SourceBindsAgain(p, n, [m] + fr, x);
    assert SArms(p, n, fr, e, IntV(0), 0).out == Norm(VoidV);
  }

  lemma RebindingEmitted(p: Program, t: nat, x: string)
    ensures
      var vn := Temp(ScrutT, t);
      var arms := LChain(p, true, {}, t + 1, None, vn, Rebinding(x), 0);
      && LMatch(p, true, {}, t, Rebinding(x), false).Some? && arms.Some?
      && arms.value.chain + arms.value.after == [CBraces(Twice(vn, t + 1, x))]
  {
    var e, vn := Rebinding(x), Temp(ScrutT, t);
    AgainEmitted(p, true, {} + {x}, t + 1, x);
    var code := Twice(vn, t + 1, x);
    assert LArmBody(p, true, {} + {x}, t + 1, None, e.arms[0].body).Some?;
    assert LArm(p, true, {}, t + 1, None, vn, e.arms[0]) == Some(Em(code, t + 2, {}));
    assert LAfter(p, true, {}, t + 2, None, vn, e, 1) == Some(Em([], t + 2, {}));
  }

  lemma TwiceSticks(cp: CProgram, n: nat, sc: Scopes, vn: CName, t: nat, x: string)
    requires CFind(sc, vn) == Some(IntV(0))
    ensures CExec(cp, n, sc, [CBraces(Twice(vn, t, x))]).out == CStuck
  {
    hide CExec;
    ExecOne(cp, n, sc, CBraces(Twice(vn, t, x)));
    var inner := [map[]] + sc;
    assert inner[1..] == sc && CFind(inner, vn) == Some(IntV(0));
    assert CValue(cp, n, inner, CVar(vn)) == CIs(IntV(0));
    var rest := [CVarDecl(Temp(InitT, t), CLit(IntV(1))), CVarDecl(Src(x), CVar(Temp(InitT, t)))];
    ExecCons(cp, n, inner, CVarDecl(Src(x), CVar(vn)), rest);
    AgainSticks(cp, n, Bound(inner, Src(x), IntV(0)), t, x);
  }

  /** `match 0 { x => { let x = 1 } }`: so do a pattern and the arm's block. */
  lemma PatternBoundAgain(p: Program, cp: CProgram, n: nat, fr: Frames, sc: Scopes, t: nat, x: string)
    ensures SExpr(p, n, fr, Rebinding(x)).out == Norm(VoidV)
    ensures LMatch(p, true, {}, t, Rebinding(x), false).Some?
    ensures CExec(cp, n, sc, LMatch(p, true, {}, t, Rebinding(x), false).value.code).out == CStuck
  {
    hide SExpr, LMatch, LChain, CExec, Twice;
    RebindingRuns(p, n, fr, x);
    RebindingEmitted(p, t, x);
    MatchRuns(p, cp, n, sc, t, Rebinding(x), 0);
    TwiceSticks(cp, n, Bound([map[]] + sc, Temp(ScrutT, t), IntV(0)), Temp(ScrutT, t), t + 1, x);
  }

  /** `let x = if false { 1 }` */
  function Elseless(x: string): Stmt {
    Let(Some(x), Bare, If(Lit(BoolV(false)), Block([], Some(Lit(IntV(1)))), None))
  }

  lemma ElselessEmitted(p: Program, t: nat, x: string)
    ensures LStmt(p, true, {}, t, Elseless(x)).Some?
    ensures
      var v := Temp(ValueT, t);
      LStmt(p, true, {}, t, Elseless(x)).value.code ==
        [CVarDecl(v, CLit(IntV(0)))] + ([CIf(CLit(BoolV(false)), [CSet(v, CLit(IntV(1)))], [])] + [CVarDecl(Src(x),
          CVar(v))])
  {
    var b := Block([], Some(Lit(IntV(1))));
    var st, v := Elseless(x), Temp(ValueT, t);
    var set_ := [CSet(v, CLit(IntV(1)))];
    assert LStmts(p, true, {}, t, b, 0) == Some(Em([], t, {}));
    assert LStmts(p, true, {}, t + 1, b, 0) == Some(Em([], t + 1, {}));
    assert LDryBlock(p, true, {}, t, b) == Some((t, true));
    assert LValue(p, true, {}, t + 1, v, Lit(IntV(1))) == Some(Em(set_, t + 1, {}));
    assert [] + set_ == set_;
    assert LValueBlock(p, true, {}, t + 1, v, b) == Some(Em(set_, t + 1, {}));
    var one, choice, three := CVarDecl(v, CLit(IntV(0))), CIf(CLit(BoolV(false)), set_, []), CVarDecl(Src(x), CVar(v));
    assert LValue(p, true, {}, t + 1, v, st.e) == Some(Em([choice], t + 1, {}));
    assert LLetValue(p, true, {}, t, st, b) == Some(Em([one] + [choice] + [three], t + 1, {} + {x}));
    assert [one] + [choice] + [three] == [one] + ([choice] + [three]);
  }

  lemma ElselessRuns(cp: CProgram, n: nat, sc: Scopes, v: CName, x: string)
    requires sc == [map[]] && v != Src(x)
    ensures
      var code := [CVarDecl(v, CLit(IntV(0)))]
        + ([CIf(CLit(BoolV(false)), [CSet(v, CLit(IntV(1)))], [])] + [CVarDecl(Src(x), CVar(v))]);
      CExec(cp, n, sc, code).out == CNorm && CFind(CExec(cp, n, sc, code).sc, Src(x)) == Some(IntV(0))
  {
    hide CExec;
    var choice := CIf(CLit(BoolV(false)), [CSet(v, CLit(IntV(1)))], []);
    var one, three := CVarDecl(v, CLit(IntV(0))), CVarDecl(Src(x), CVar(v));
    ExecCons(cp, n, sc, one, [choice] + [three]);
    assert CValue(cp, n, sc, CLit(IntV(0))) == CIs(IntV(0));
    var sc1 := Bound(sc, v, IntV(0));
    ExecCons(cp, n, sc1, choice, [three]);
    assert CValue(cp, n, sc1, CLit(BoolV(false))) == CIs(BoolV(false));
    NothingRuns(cp, n, sc1);
    ExecOne(cp, n, sc1, three);
    assert CValue(cp, n, sc1, CVar(v)) == CIs(IntV(0));
  }

  lemma NothingRuns(cp: CProgram, n: nat, sc: Scopes)
    ensures CScoped(cp, n, sc, []) == CRes(sc, CNorm)
  {
    assert CPop([map[]] + sc) == sc;
  }

  /** `let x = if false { 1 }`: without an `else` the emitted `x` is 0. */
  lemma IfWithoutElse(p: Program, cp: CProgram, n: nat, fr: Frames, sc: Scopes, t: nat, x: string)
    requires fr != [] && sc == [map[]]
    ensures SStmt(p, n, fr, Elseless(x)) == Res(Declare(fr, x, VoidV), Norm(VoidV))
    ensures LStmt(p, true, {}, t, Elseless(x)).Some?
    ensures var r := CExec(cp, n, sc, LStmt(p, true, {}, t, Elseless(x)).value.code);
      r.out == CNorm && CFind(r.sc, Src(x)) == Some(IntV(0))
  {
    hide CExec, LStmt;
    assert SExpr(p, n, fr, Elseless(x).e) == Res(fr, Norm(VoidV));
    ElselessEmitted(p, t, x);
    ElselessRuns(cp, n, sc, Temp(ValueT, t), x);
  }

  /** `return` in a function with a value gives nothing, and 0 when emitted. */
  lemma BareReturnGivesZero(p: Program, cp: CProgram, n: nat, fr: Frames, sc: Scopes, t: nat)
    ensures SStmt(p, n, fr, Return(None)).out == Ret(VoidV)
    ensures LStmt(p, false, {}, t, Return(None)).Some?
    ensures CExec(cp, n, sc, LStmt(p, false, {}, t, Return(None)).value.code).out == CRet(IntV(0))
  {
    ExecOne(cp, n, sc, CReturn(Some(CLit(IntV(0)))));
    assert CValue(cp, n, sc, CLit(IntV(0))) == CIs(IntV(0));
  }
}
