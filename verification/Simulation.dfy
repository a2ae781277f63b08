/** Running what the emitter writes for a statement or a block gives what the
    structured semantics gives, at every nesting depth: values reach their
    temporary, variables change alike, and both sides end the same way. Every proof
    follows the emitter's cases. */
module Simulation {
  import opened Options
  import opened Syntax
  import opened Names
  import opened Structured
  import opened Shapes
  import opened CLang
  import opened CFacts
  import opened Lower
  import opened LowerFacts
  import opened Rules
  import opened SimBase
  import opened SimExprs

  // ---------- Blocks and statements ----------

  /** A block whose result is dropped, run in the current scope. */
  lemma {:induction false} SimBlock(
      p: Program, cp: CProgram, vd: bool, n: nat, vis: set<string>, t: nat, loc: Frames, sc: Scopes, b: Block)
    requires CallsBelow(p, cp, n) && LBlock(p, vd, vis, t, b).Some? && GoodBlock(p, vd, b, false)
    requires Ready(vis, t, loc, sc, BlockNames(b, false))
    ensures Matches(vd, vis, vis, SBlock(p, n, loc, b), CExec(cp, n, sc, LBlock(p, vd, vis, t, b).value.code))
    decreases n, b, 3, 0
  {
    var loc' := [map[]] + loc;
    PushAgree(vis, map[], loc, map[], sc);
    var s := LStmts(p, vd, vis, t, b, 0).value;
    var a := SStmts(p, n, loc', b, 0);
    SimStmts(p, cp, vd, n, vis, t, loc', sc, b, false, 0);
    StmtsKeep(p, n, loc', b, 0);
    var c := CExec(cp, n, sc, s.code);
    if b.tail.Some? {
      var tl := LTail(p, vd, s.vis, s.t, b.tail.value).value;
      ExecAppend(cp, n, sc, s.code, tl.code);
      if a.out.Norm? {
        SimTail(p, cp, vd, n, s.vis, s.t, a.fr, c.sc, b.tail.value);
        ExprKeeps(p, n, a.fr, b.tail.value);
        var r := SExpr(p, n, a.fr, b.tail.value);
        assert Keys(r.fr)[0] == Keys(a.fr)[0];
      }
    }
    var r := SBlock(p, n, loc, b);
    var t' := if a.out.Norm? && b.tail.Some? then SExpr(p, n, a.fr, b.tail.value) else a;
    assert t'.fr[0].Keys !! vis;
    if t'.out.Norm? || t'.out.Brk? || t'.out.Cont? {
      PopAgree(vis, t'.fr, CExec(cp, n, sc, LBlock(p, vd, vis, t, b).value.code).sc);
    }
  }

  /** The statements from `i` on; after them the tail is ready to run. */
  lemma {:induction false} SimStmts(
      p: Program, cp: CProgram, vd: bool, n: nat, vis: set<string>, t: nat, loc: Frames, sc: Scopes, b: Block,
      val: bool, i: nat)
    requires CallsBelow(p, cp, n) && i <= |b.stmts| && LStmts(p, vd, vis, t, b, i).Some? && GoodStmts(p, vd, b, val, i)
    requires Ready(vis, t, loc, sc, StmtsNames(b, false, i))
    ensures var em := LStmts(p, vd, vis, t, b, i).value;
      var a := SStmts(p, n, loc, b, i);
      var c := CExec(cp, n, sc, em.code);
      && Matches(vd, vis, em.vis, a, c)
      && (a.out.Norm? && b.tail.Some? ==>
            Ready(em.vis, em.t, a.fr, c.sc, ExprNames(b.tail.value, false)) && GoodExpr(p, vd, b.tail.value, val))
    decreases n, b, 2, |b.stmts| - i
  {
    if i < |b.stmts| {
      var s := b.stmts[i];
      var em := LStmt(p, vd, vis, t, s).value;
      var rest := LStmts(p, vd, em.vis, em.t, b, i + 1).value;
      SimStmt(p, cp, vd, n, vis, t, loc, sc, s);
      ExecAppend(cp, n, sc, em.code, rest.code);
      var a, c := SStmt(p, n, loc, s), CExec(cp, n, sc, em.code);
      if a.out.Norm? {
        StmtStaysFresh(p, cp, vd, n, vis, t, sc, s, StmtsNames(b, false, i), StmtsNames(b, false, i + 1));
        SimStmts(p, cp, vd, n, em.vis, em.t, a.fr, c.sc, b, val, i + 1);
        if b.tail.Some? {
          TailNames(b, false, i + 1);
        }
      }
    }
  }

  lemma StmtStaysFresh(
      p: Program, cp: CProgram, vd: bool, n: nat, vis: set<string>, t: nat, sc: Scopes, s: Stmt, all: set<string>,
      xs: set<string>)
    requires LStmt(p, vd, vis, t, s).Some? && Fresh(sc, all, t)
    requires xs <= all && StmtNames(s, false) !! xs
    ensures Fresh(CExec(cp, n, sc, LStmt(p, vd, vis, t, s).value.code).sc, xs, LStmt(p, vd, vis, t, s).value.t)
  {
    var em := LStmt(p, vd, vis, t, s).value;
    var z := Zone(StmtNames(s, false), StmtNames(s, true), t, em.t, {});
    StmtConfined(p, vd, vis, t, s, z);
    ExecStays(cp, n, sc, em.code, z);
    FreshAfter(sc, CExec(cp, n, sc, em.code).sc, z, all, xs, t, em.t);
  }

  /** A block between braces. */
  lemma {:induction false} SimScoped(
      p: Program, cp: CProgram, vd: bool, n: nat, vis: set<string>, t: nat, loc: Frames, sc: Scopes, b: Block)
    requires CallsBelow(p, cp, n) && LBlock(p, vd, vis, t, b).Some? && GoodBlock(p, vd, b, false)
    requires loc != [] && Agree(vis, loc, sc) && vis !! BlockNames(b, false)
    ensures Matches(vd, vis, vis, SBlock(p, n, loc, b), CScoped(cp, n, sc, LBlock(p, vd, vis, t, b).value.code))
    decreases n, b, 4, 0
  {
    var em := LBlock(p, vd, vis, t, b).value;
    PushAgree(vis, map[], loc, map[], sc);
    SimBlock(p, cp, vd, n, vis, t, loc, [map[]] + sc, b);
    var z := Zone(BlockNames(b, false), BlockNames(b, true), t, em.t, {});
    BlockConfined(p, vd, vis, t, b, z);
    ExecStays(cp, n, [map[]] + sc, em.code, z);
    LeaveScope(vis, SBlock(p, n, loc, b).fr, [map[]] + sc, CExec(cp, n, [map[]] + sc, em.code).sc, z);
  }

  lemma {:induction false} SimTail(
      p: Program, cp: CProgram, vd: bool, n: nat, vis: set<string>, t: nat, loc: Frames, sc: Scopes, e: Expr)
    requires CallsBelow(p, cp, n) && LTail(p, vd, vis, t, e).Some? && GoodExpr(p, vd, e, false)
    requires Ready(vis, t, loc, sc, ExprNames(e, false))
    ensures Matches(vd, vis, vis, SExpr(p, n, loc, e), CExec(cp, n, sc, LTail(p, vd, vis, t, e).value.code))
    decreases n, e, 4, 0
  {
    if e.If? {
      SimIf(p, cp, vd, n, vis, t, loc, sc, e);
    } else if e.Match? {
      SimMatch(p, cp, vd, n, vis, t, loc, sc, e, false);
    } else {
      SimDropped(p, cp, vd, n, vis, loc, sc, e);
    }
  }

  lemma {:induction false} SimIf(
      p: Program, cp: CProgram, vd: bool, n: nat, vis: set<string>, t: nat, loc: Frames, sc: Scopes, e: Expr)
    requires CallsBelow(p, cp, n) && e.If? && LIf(p, vd, vis, t, e).Some? && GoodExpr(p, vd, e, false)
    requires loc != [] && Agree(vis, loc, sc) && vis !! ExprNames(e, false)
    ensures Matches(vd, vis, vis, SExpr(p, n, loc, e), CExec(cp, n, sc, LIf(p, vd, vis, t, e).value.code))
    decreases n, e, 3, 0
  {
    var em := LIf(p, vd, vis, t, e).value;
    ExecOne(cp, n, sc, em.code[0]);
    assert em.code == [em.code[0]];
    SimExpr(p, cp, n, vis, loc, sc, e.cond);
    var c := SExpr(p, n, loc, e.cond);
    if c.out.Norm? {
      if Truthy(c.out.v) {
        SimScoped(p, cp, vd, n, vis, t, loc, sc, e.thn);
      } else {
        SimElse(p, cp, vd, n, vis, LBlock(p, vd, vis, t, e.thn).value.t, loc, sc, e);
      }
    }
  }

  /** The `else` of an `if` statement: nothing, a block or another `if`. */
  lemma {:induction false} SimElse(
      p: Program, cp: CProgram, vd: bool, n: nat, vis: set<string>, t: nat, loc: Frames, sc: Scopes, e: Expr)
    requires CallsBelow(p, cp, n) && e.If? && GoodExpr(p, vd, e, false)
    requires e.els.Some? && e.els.value.If? ==> LIf(p, vd, vis, t, e.els.value).Some?
    requires e.els.Some? && !e.els.value.If? ==> e.els.value.BlockE? && LBlock(p, vd, vis, t, e.els.value.b).Some?
    requires loc != [] && Agree(vis, loc, sc) && vis !! ExprNames(e, false)
    ensures var code := if e.els.None? then [] else if e.els.value.If? then LIf(p, vd, vis, t, e.els.value).value.code
                        else LBlock(p, vd, vis, t, e.els.value.b).value.code;
      var a := if e.els.None? then Res(loc, Norm(VoidV)) else SExpr(p, n, loc, e.els.value);
      Matches(vd, vis, vis, a, CScoped(cp, n, sc, code))
    decreases n, e, 2, 0
  {
    PushAgree(vis, map[], loc, map[], sc);
    if e.els.None? {
      assert CExec(cp, n, [map[]] + sc, []).sc == [map[]] + sc;
      assert CPop([map[]] + sc) == sc;
    } else if e.els.value.If? {
      var f := e.els.value;
      var em := LIf(p, vd, vis, t, f).value;
      SimIf(p, cp, vd, n, vis, t, loc, [map[]] + sc, f);
      var z := Zone(ExprNames(f, false), ExprNames(f, true), t, em.t, {});
      IfConfined(p, vd, vis, t, f, z);
      ExecStays(cp, n, [map[]] + sc, em.code, z);
      LeaveScope(vis, SExpr(p, n, loc, f).fr, [map[]] + sc, CExec(cp, n, [map[]] + sc, em.code).sc, z);
    } else {
      InnerBlock(e.els.value);
      SimScoped(p, cp, vd, n, vis, t, loc, sc, e.els.value.b);
    }
  }

  // ---------- match ----------

  lemma SignedFits(i: int)
    requires -HALF64 <= i < HALF64
    ensures Signed64(i) == i
  {
  }

  /** A condition holds exactly when the pattern matches. */
  lemma CondMatches(cp: CProgram, n: nat, sc: Scopes, pat: Pat, vn: CName, v: Val)
    requires LCond(pat, vn).Some? && CFind(sc, vn) == Some(v) && LitsFit(pat)
    ensures CValue(cp, n, sc, LCond(pat, vn).value) == CIs(BoolV(PatBind(pat, v).Some?))
  {
    assert CValue(cp, n, sc, CVar(vn)) == CIs(v);
    if pat.LitInt? {
      SignedFits(pat.i);
    } else if pat.PayP? {
      if pat.sub.LitInt? {
        SignedFits(pat.sub.i);
      }
      var tagged := CTagIs(CVar(vn), pat.tag, true);
      assert CValue(cp, n, sc, tagged) == CIs(BoolV(v.PayV? && v.tag == pat.tag));
      if v.PayV? {
        assert CValue(cp, n, sc, CPayload(CVar(vn))) == CIs(v.payload);
      }
    }
  }

  /** Binding a matching pattern's variable. */
  lemma BindRuns(cp: CProgram, n: nat, vis: set<string>, loc: Frames, sc: Scopes, pat: Pat, vn: CName, v: Val)
    requires PatBind(pat, v).Some? && (CatchAll(pat) || LCond(pat, vn).Some?) && CFind(sc, vn) == Some(v)
    requires Agree(vis, loc, sc) && BoundBy(pat) !! vis
    ensures PatBind(pat, v).value.Keys == BoundBy(pat)
    ensures var r := CExec(cp, n, [map[]] + sc, LBind(pat, vn));
      && r.out == CNorm && r.sc != []
      && (forall c :: c in r.sc[0].Keys ==> c.Src? && c.x in BoundBy(pat))
      && Agree(vis + BoundBy(pat), [PatBind(pat, v).value] + loc, r.sc)
  {
    var m, sc' := PatBind(pat, v).value, [map[]] + sc;
    PushAgree(vis, m, loc, map[], sc);
    assert CFind(sc', vn) == Some(v);
    assert CValue(cp, n, sc', CVar(vn)) == CIs(v);
    var bind := LBind(pat, vn);
    if bind == [] {
      assert CExec(cp, n, sc', bind) == CRes(sc', CNorm);
    } else {
      assert bind == [bind[0]];
      ExecOne(cp, n, sc', bind[0]);
      var x := bind[0].c.x;
      assert CValue(cp, n, sc', bind[0].e) == CIs(m[x]);
      PushAgree(vis, map[], loc, map[], sc);
      BindAgree(vis, [map[]] + loc, sc', x, m[x]);
      assert Declare([map[]] + loc, x, m[x]) == [m] + loc;
    }
  }

  lemma BindAwaits(cp: CProgram, n: nat, result: Option<CName>, sc: Scopes, t: nat, pat: Pat, vn: CName)
    requires Awaits(result, sc, t)
    ensures Awaits(result, CExec(cp, n, [map[]] + sc, LBind(pat, vn)).sc, t)
  {
    if result.Some? {
      var z := Zone(BoundBy(pat), {}, 0, 0, {});
      assert Confined(LBind(pat, vn), z);
      ExecStays(cp, n, [map[]] + sc, LBind(pat, vn), z);
      RestFind([map[]] + sc, CExec(cp, n, [map[]] + sc, LBind(pat, vn)).sc, z, result.value);
    }
  }

  lemma {:induction false} SimMatch(
      p: Program, cp: CProgram, vd: bool, n: nat, vis: set<string>, t: nat, loc: Frames, sc: Scopes, e: Expr,
      want: bool)
    requires CallsBelow(p, cp, n) && e.Match? && LMatch(p, vd, vis, t, e, want).Some?
    requires GoodExpr(p, vd, e, LMatch(p, vd, vis, t, e, want).value.result.Some?)
    requires Ready(vis, t, loc, sc, ExprNames(e, false))
    ensures var m := LMatch(p, vd, vis, t, e, want).value;
      var a, c := SExpr(p, n, loc, e), CExec(cp, n, sc, m.code);
      Matches(vd, vis, vis, a, c) && Written(m.result, a, c)
    decreases n, e, 3, 0
  {
    var m := LMatch(p, vd, vis, t, e, want).value;
    if m.result.None? {
      SimMatchBody(p, cp, vd, n, vis, t, loc, sc, e, want);
    } else {
      var rn := Temp(ResultT, t);
      var decl := CVarDecl(rn, CLit(IntV(0)));
      assert m.code == [decl] + [m.code[1]];
      ExecCons(cp, n, sc, decl, [m.code[1]]);
      TempAgree(vis, loc, sc, rn, IntV(0));
      SimMatchBody(p, cp, vd, n, vis, t, loc, Bound(sc, rn, IntV(0)), e, want);
    }
  }

  /** The braces around the scrutinee and the arms. */
  lemma {:induction false} SimMatchBody(
      p: Program, cp: CProgram, vd: bool, n: nat, vis: set<string>, t: nat, loc: Frames, sc: Scopes, e: Expr,
      want: bool)
    requires CallsBelow(p, cp, n) && e.Match? && LMatch(p, vd, vis, t, e, want).Some?
    requires GoodExpr(p, vd, e, LMatch(p, vd, vis, t, e, want).value.result.Some?)
    requires loc != [] && sc != [] && Agree(vis, loc, sc) && vis !! ExprNames(e, false)
    requires Awaits(LMatch(p, vd, vis, t, e, want).value.result, sc, t + 1)
    ensures var m := LMatch(p, vd, vis, t, e, want).value;
      var a, c := SExpr(p, n, loc, e), CExec(cp, n, sc, [m.code[|m.code| - 1]]);
      Matches(vd, vis, vis, a, c) && Written(m.result, a, c)
    decreases n, e, 2, 0
  {
    hide CallsBelow, LArm, GoodArm;
    var m := LMatch(p, vd, vis, t, e, want).value;
    var t' := (if want then LDry(p, vd, vis, t + 1, e.arms[0].body) else Some((t + 1, false))).value.0;
    var vn := Temp(ScrutT, t);
    var scrut := LExpr(p, vis, e.scrut).value;
    var arms := LChain(p, vd, vis, t', m.result, vn, e, 0).value;
    var decl := CVarDecl(vn, scrut);
    var braces := CBraces([decl] + arms.chain + arms.after);
    assert m.code[|m.code| - 1] == braces;
    ExecOne(cp, n, sc, braces);
    var sc' := [map[]] + sc;
    PushAgree(vis, map[], loc, map[], sc);
    SimExpr(p, cp, n, vis, loc, sc', e.scrut);
    assert [decl] + arms.chain + arms.after == [decl] + (arms.chain + arms.after);
    ExecCons(cp, n, sc', decl, arms.chain + arms.after);
    var s := SExpr(p, n, loc, e.scrut);
    if s.out.Norm? {
      assert arms.chain + [] == arms.chain;
      SimInner(p, cp, vd, n, vis, t, t', m.result, loc, sc, e, s.out.v);
    }
  }

  /** The arms, run where the scrutinee is the only declared name. */
  lemma {:induction false} SimInner(
      p: Program, cp: CProgram, vd: bool, n: nat, vis: set<string>, t: nat, t': nat, result: Option<CName>,
      loc: Frames, sc: Scopes, e: Expr, v: Val)
    requires CallsBelow(p, cp, n) && e.Match? && LChain(p, vd, vis, t', result, Temp(ScrutT, t), e, 0).Some? && t < t'
    requires GoodExpr(p, vd, e, result.Some?)
    requires loc != [] && sc != [] && Agree(vis, loc, sc) && vis !! ExprNames(e, false)
    requires Awaits(result, sc, t + 1) && (result.Some? ==> result.value.kind == ResultT)
    ensures LChain(p, vd, vis, t', result, Temp(ScrutT, t), e, 0).value.after == []
    ensures var c := CExec(cp, n, Bound([map[]] + sc, Temp(ScrutT, t), v),
      LChain(p, vd, vis, t', result, Temp(ScrutT, t), e, 0).value.chain);
      var a, r := SArms(p, n, loc, e, v, 0), CRes(CPop(c.sc), c.out);
      Matches(vd, vis, vis, a, r) && Written(result, a, r)
    decreases n, e, 1, |e.arms| + 1
  {
    hide CallsBelow, CArgs, CRun, CLoop, CRange;
    var vn := Temp(ScrutT, t);
    var arms := LChain(p, vd, vis, t', result, vn, e, 0).value;
    var sc', inner := [map[]] + sc, Bound([map[]] + sc, vn, v);
    PushAgree(vis, map[], loc, map[], sc);
    TempAgree(vis, loc, sc', vn, v);
    assert inner[1..] == sc;
    SimChain(p, cp, vd, n, vis, t', result, vn, loc, inner, e, v, 0);
    var z := Zone(ExprNames(e, false), ExprNames(e, true), t', arms.t, OptSet(result));
    ChainConfined(p, vd, vis, t', result, vn, e, 0, z);
    ExecStays(cp, n, inner, arms.chain, z);
    LeaveScope(vis, SArms(p, n, loc, e, v, 0).fr, inner, CExec(cp, n, inner, arms.chain).sc, z);
  }

  function OptSet(c: Option<CName>): set<CName> { if c.Some? then {c.value} else {} }

  lemma {:induction false} SimChain(
      p: Program, cp: CProgram, vd: bool, n: nat, vis: set<string>, t: nat, result: Option<CName>, vn: CName,
      loc: Frames, sc: Scopes, e: Expr, v: Val, i: nat)
    requires CallsBelow(p, cp, n) && e.Match? && i <= |e.arms| && LChain(p, vd, vis, t, result, vn, e, i).Some?
    requires GoodExpr(p, vd, e, result.Some?)
    requires loc != [] && sc != [] && Agree(vis, loc, sc) && vis !! ArmsNames(e, false, i)
    requires CFind(sc, vn) == Some(v) && Awaits(result, sc, t)
    ensures LChain(p, vd, vis, t, result, vn, e, i).value.after == []
    ensures var a, c := SArms(p, n, loc, e, v, i),
      CExec(cp, n, sc, LChain(p, vd, vis, t, result, vn, e, i).value.chain);
      Matches(vd, vis, vis, a, c) && Written(result, a, c)
    decreases n, e, 1, |e.arms| - i, 3
  {
    if i == |e.arms| {
      ExecOne(cp, n, sc, CEval(CPanic));
    } else if CatchAll(e.arms[i].pat) {
      SimLastArm(p, cp, vd, n, vis, t, result, vn, loc, sc, e, v, i);
    } else {
      SimCondArm(p, cp, vd, n, vis, t, result, vn, loc, sc, e, v, i);
    }
  }

  /** An arm that catches all is the last one, and the chain's `else`. */
  lemma {:induction false} SimLastArm(
      p: Program, cp: CProgram, vd: bool, n: nat, vis: set<string>, t: nat, result: Option<CName>, vn: CName,
      loc: Frames, sc: Scopes, e: Expr, v: Val, i: nat)
    requires CallsBelow(p, cp, n) && e.Match? && i <= |e.arms| && LChain(p, vd, vis, t, result, vn, e, i).Some?
    requires GoodExpr(p, vd, e, result.Some?)
    requires loc != [] && sc != [] && Agree(vis, loc, sc) && vis !! ArmsNames(e, false, i)
    requires CFind(sc, vn) == Some(v) && Awaits(result, sc, t)
    requires i < |e.arms| && CatchAll(e.arms[i].pat)
    ensures LChain(p, vd, vis, t, result, vn, e, i).value.after == []
    ensures var a, c := SArms(p, n, loc, e, v, i),
      CExec(cp, n, sc, LChain(p, vd, vis, t, result, vn, e, i).value.chain);
      Matches(vd, vis, vis, a, c) && Written(result, a, c)
    decreases n, e, 1, |e.arms| - i, 2
  {
    var arm := e.arms[i];
    assert GoodArm(p, vd, arm, result.Some?, i + 1 == |e.arms|);
    SimTaken(p, cp, vd, n, vis, t, result, vn, loc, sc, e, v, i);
    ExecOne(cp, n, sc, CBraces(LArm(p, vd, vis, t, result, vn, arm).value.code));
  }

  /** Any other arm is an `if` with the rest of the chain as its `else`. */
  lemma {:induction false} SimCondArm(
      p: Program, cp: CProgram, vd: bool, n: nat, vis: set<string>, t: nat, result: Option<CName>, vn: CName,
      loc: Frames, sc: Scopes, e: Expr, v: Val, i: nat)
    requires CallsBelow(p, cp, n) && e.Match? && i <= |e.arms| && LChain(p, vd, vis, t, result, vn, e, i).Some?
    requires GoodExpr(p, vd, e, result.Some?)
    requires loc != [] && sc != [] && Agree(vis, loc, sc) && vis !! ArmsNames(e, false, i)
    requires CFind(sc, vn) == Some(v) && Awaits(result, sc, t)
    requires i < |e.arms| && !CatchAll(e.arms[i].pat)
    ensures LChain(p, vd, vis, t, result, vn, e, i).value.after == []
    ensures var a, c := SArms(p, n, loc, e, v, i),
      CExec(cp, n, sc, LChain(p, vd, vis, t, result, vn, e, i).value.chain);
      Matches(vd, vis, vis, a, c) && Written(result, a, c)
    decreases n, e, 1, |e.arms| - i, 2
  {
    hide CallsBelow, CArgs, CRun, CLoop, CRange;
    var arm := e.arms[i];
    assert GoodArm(p, vd, arm, result.Some?, i + 1 == |e.arms|);
    var a := LArm(p, vd, vis, t, result, vn, arm).value;
    CondMatches(cp, n, sc, arm.pat, vn, v);
    if PatBind(arm.pat, v).Some? {
      SimTaken(p, cp, vd, n, vis, t, result, vn, loc, sc, e, v, i);
    }
    SimNext(p, cp, vd, n, vis, a.t, result, vn, loc, sc, e, v, i + 1);
    ExecOne(cp, n, sc, CIf(LCond(arm.pat, vn).value, a.code,
      LChain(p, vd, vis, a.t, result, vn, e, i + 1).value.chain));
  }

  /** The arm whose pattern matches. */
  lemma {:induction false} SimTaken(
      p: Program, cp: CProgram, vd: bool, n: nat, vis: set<string>, t: nat, result: Option<CName>, vn: CName,
      loc: Frames, sc: Scopes, e: Expr, v: Val, i: nat)
    requires CallsBelow(p, cp, n) && e.Match? && i < |e.arms| && PatBind(e.arms[i].pat, v).Some?
    requires LArm(p, vd, vis, t, result, vn, e.arms[i]).Some?
    requires GoodArm(p, vd, e.arms[i], result.Some?, i + 1 == |e.arms|)
    requires CatchAll(e.arms[i].pat) || LCond(e.arms[i].pat, vn).Some?
    requires loc != [] && sc != [] && Agree(vis, loc, sc) && vis !! ArmNames(e.arms[i], false)
    requires CFind(sc, vn) == Some(v) && Awaits(result, sc, t)
    ensures var a, c := SArms(p, n, loc, e, v, i),
      CScoped(cp, n, sc, LArm(p, vd, vis, t, result, vn, e.arms[i]).value.code);
      Matches(vd, vis, vis, a, c) && Written(result, a, c)
    decreases n, e, 0, 0
  {
    ArmTaken(p, n, loc, e, v, i);
    SimArm(p, cp, vd, n, vis, t, result, vn, loc, sc, e.arms[i], v, i + 1 == |e.arms|);
  }

  lemma ArmTaken(p: Program, n: nat, loc: Frames, e: Expr, v: Val, i: nat)
    requires e.Match? && i < |e.arms| && e.arms[i].guard.None? && PatBind(e.arms[i].pat, v).Some?
    ensures SArms(p, n, loc, e, v, i) ==
      var r := SExpr(p, n, [PatBind(e.arms[i].pat, v).value] + loc, e.arms[i].body); Res(Pop(r.fr), r.out)
  {
  }

  /** The rest of the chain, inside the `else`. */
  lemma {:induction false} SimNext(
      p: Program, cp: CProgram, vd: bool, n: nat, vis: set<string>, t: nat, result: Option<CName>, vn: CName,
      loc: Frames, sc: Scopes, e: Expr, v: Val, i: nat)
    requires CallsBelow(p, cp, n) && e.Match? && i <= |e.arms| && LChain(p, vd, vis, t, result, vn, e, i).Some?
    requires GoodExpr(p, vd, e, result.Some?)
    requires loc != [] && sc != [] && Agree(vis, loc, sc) && vis !! ArmsNames(e, false, i)
    requires CFind(sc, vn) == Some(v) && Awaits(result, sc, t)
    ensures LChain(p, vd, vis, t, result, vn, e, i).value.after == []
    ensures var a, c := SArms(p, n, loc, e, v, i),
      CScoped(cp, n, sc, LChain(p, vd, vis, t, result, vn, e, i).value.chain);
      Matches(vd, vis, vis, a, c) && Written(result, a, c)
    decreases n, e, 1, |e.arms| - i, 4
  {
    var em := LChain(p, vd, vis, t, result, vn, e, i).value;
    var inner := [map[]] + sc;
    PushAgree(vis, map[], loc, map[], sc);
    SimChain(p, cp, vd, n, vis, t, result, vn, loc, inner, e, v, i);
    var z := Zone(ArmsNames(e, false, i), ArmsNames(e, true, i), t, em.t, OptSet(result));
    ChainConfined(p, vd, vis, t, result, vn, e, i, z);
    ExecStays(cp, n, inner, em.chain, z);
    LeaveScope(vis, SArms(p, n, loc, e, v, i).fr, inner, CExec(cp, n, inner, em.chain).sc, z);
  }

  /** The chosen arm between its braces: bind, run the body, drop the frame. */
  lemma {:induction false} SimArm(
      p: Program, cp: CProgram, vd: bool, n: nat, vis: set<string>, t: nat, result: Option<CName>, vn: CName,
      loc: Frames, sc: Scopes, arm: Arm, v: Val, last: bool)
    requires CallsBelow(p, cp, n) && LArm(p, vd, vis, t, result, vn, arm).Some?
    requires GoodArm(p, vd, arm, result.Some?, last)
    requires PatBind(arm.pat, v).Some? && (CatchAll(arm.pat) || LCond(arm.pat, vn).Some?)
    requires loc != [] && sc != [] && Agree(vis, loc, sc) && vis !! ArmNames(arm, false)
    requires CFind(sc, vn) == Some(v) && Awaits(result, sc, t)
    ensures var r := SExpr(p, n, [PatBind(arm.pat, v).value] + loc, arm.body);
      var a, c := Res(Pop(r.fr), r.out), CScoped(cp, n, sc, LArm(p, vd, vis, t, result, vn, arm).value.code);
      Matches(vd, vis, vis, a, c) && Written(result, a, c)
    decreases n, arm, 0, 0
  {
    var em := LArm(p, vd, vis, t, result, vn, arm).value;
    var bound, m := BoundBy(arm.pat), PatBind(arm.pat, v).value;
    var vis', inner, loc' := vis + bound, [map[]] + sc, [m] + loc;
    assert bound <= PatNames(arm.pat);
    BindRuns(cp, n, vis, loc, sc, arm.pat, vn, v);
    var body := LArmBody(p, vd, vis', t, result, arm.body).value;
    ExecAppend(cp, n, inner, LBind(arm.pat, vn), body.code);
    var start := CExec(cp, n, inner, LBind(arm.pat, vn)).sc;
    BindAwaits(cp, n, result, sc, t, arm.pat, vn);
    SimArmBody(p, cp, vd, n, vis', t, result, loc', start, arm.body);
    ExprKeeps(p, n, loc', arm.body);
    LeaveArm(p, cp, vd, n, vis, t, result, vn, m, loc, SExpr(p, n, loc', arm.body).fr, sc, arm);
  }

  /** Dropping the pattern's frame and leaving the arm's braces. */
  lemma LeaveArm(
      p: Program, cp: CProgram, vd: bool, n: nat, vis: set<string>, t: nat, result: Option<CName>, vn: CName,
      m: Frame, loc: Frames, fr: Frames, sc: Scopes, arm: Arm)
    requires LArm(p, vd, vis, t, result, vn, arm).Some? && vis !! ArmNames(arm, false)
    requires m.Keys == BoundBy(arm.pat) && SameKeys([m] + loc, fr) && Awaits(result, sc, t)
    ensures var after := CExec(cp, n, [map[]] + sc, LArm(p, vd, vis, t, result, vn, arm).value.code).sc;
      && (Agree(vis, fr, after) ==> Agree(vis, Pop(fr), CPop(after)))
      && (result.Some? ==> CFind(CPop(after), result.value) == CFind(after, result.value))
  {
    var em, inner := LArm(p, vd, vis, t, result, vn, arm).value, [map[]] + sc;
    PushKeys(m, loc);
    assert Keys(fr)[0] == m.Keys;
    var z := Zone(ArmNames(arm, false), ArmNames(arm, true), t, em.t, OptSet(result));
    ArmConfined(p, vd, vis, t, result, vn, arm, z);
    ExecStays(cp, n, inner, em.code, z);
    var after := CExec(cp, n, inner, em.code).sc;
    LeaveScope(vis, fr, inner, after, z);
    assert BoundBy(arm.pat) <= PatNames(arm.pat);
    if Agree(vis, fr, after) {
      PopAgree(vis, fr, CPop(after));
    }
  }

  lemma {:induction false} SimArmBody(
      p: Program, cp: CProgram, vd: bool, n: nat, vis: set<string>, t: nat, result: Option<CName>,
      loc: Frames, sc: Scopes, body: Expr)
    requires CallsBelow(p, cp, n) && LArmBody(p, vd, vis, t, result, body).Some? && GoodExpr(p, vd, body, result.Some?)
    requires Ready(vis, t, loc, sc, ExprNames(body, false)) && Awaits(result, sc, t)
    ensures var a, c := SExpr(p, n, loc, body), CExec(cp, n, sc, LArmBody(p, vd, vis, t, result, body).value.code);
      Matches(vd, vis, vis, a, c) && Written(result, a, c)
    decreases n, body, 5, 0
  {
    if result.Some? {
      SimValue(p, cp, vd, n, vis, t, result.value, loc, sc, body);
    } else if body.BlockE? {
      SimBlock(p, cp, vd, n, vis, t, loc, sc, body.b);
    } else {
      SimDropped(p, cp, vd, n, vis, loc, sc, body);
    }
  }

  // ---------- Values written to a temporary ----------

  lemma {:induction false} SimValue(
      p: Program, cp: CProgram, vd: bool, n: nat, vis: set<string>, t: nat, rn: CName, loc: Frames, sc: Scopes, e: Expr)
    requires CallsBelow(p, cp, n) && LValue(p, vd, vis, t, rn, e).Some? && GoodExpr(p, vd, e, true)
    requires Ready(vis, t, loc, sc, ExprNames(e, false)) && Awaits(Some(rn), sc, t)
    ensures var a, c := SExpr(p, n, loc, e), CExec(cp, n, sc, LValue(p, vd, vis, t, rn, e).value.code);
      Matches(vd, vis, vis, a, c) && Written(Some(rn), a, c)
    decreases n, e, 4, 0
  {
    if e.If? {
      SimValueIf(p, cp, vd, n, vis, t, rn, loc, sc, e);
    } else if e.BlockE? {
      SimValueBlock(p, cp, vd, n, vis, t, rn, loc, sc, e.b);
    } else if e.Panic? {
      ExecOne(cp, n, sc, CEval(CPanic));
    } else {
      SimExpr(p, cp, n, vis, loc, sc, e);
      ExecOne(cp, n, sc, CSet(rn, LExpr(p, vis, e).value));
      var a := SExpr(p, n, loc, e);
      if a.out.Norm? {
        SetTempAgree(vis, loc, sc, rn, a.out.v);
      }
    }
  }

  lemma {:induction false} SimValueIf(
      p: Program, cp: CProgram, vd: bool, n: nat, vis: set<string>, t: nat, rn: CName, loc: Frames, sc: Scopes, e: Expr)
    requires CallsBelow(p, cp, n) && e.If? && LValue(p, vd, vis, t, rn, e).Some? && GoodExpr(p, vd, e, true)
    requires Ready(vis, t, loc, sc, ExprNames(e, false)) && Awaits(Some(rn), sc, t)
    ensures var a, c := SExpr(p, n, loc, e), CExec(cp, n, sc, LValue(p, vd, vis, t, rn, e).value.code);
      Matches(vd, vis, vis, a, c) && Written(Some(rn), a, c)
    decreases n, e, 3, 0
  {
    var em := LValue(p, vd, vis, t, rn, e).value;
    var bb := LValueBlock(p, vd, vis, t, rn, e.thn).value;
    assert em.code == [em.code[0]];
    ExecOne(cp, n, sc, em.code[0]);
    SimExpr(p, cp, n, vis, loc, sc, e.cond);
    var inner := [map[]] + sc;
    PushAgree(vis, map[], loc, map[], sc);
    var c := SExpr(p, n, loc, e.cond);
    if c.out.Norm? && Truthy(c.out.v) {
      SimValueBlock(p, cp, vd, n, vis, t, rn, loc, inner, e.thn);
      var z := Zone(BlockNames(e.thn, false), BlockNames(e.thn, true), t, bb.t, {rn});
      ValueBlockConfined(p, vd, vis, t, rn, e.thn, z);
      ExecStays(cp, n, inner, bb.code, z);
      LeaveScope(vis, SBlock(p, n, loc, e.thn).fr, inner, CExec(cp, n, inner, bb.code).sc, z);
    } else if c.out.Norm? {
      var f := e.els.value;
      var ee := LValue(p, vd, vis, bb.t, rn, f).value;
      SimValue(p, cp, vd, n, vis, bb.t, rn, loc, inner, f);
      var z := Zone(ExprNames(f, false), ExprNames(f, true), bb.t, ee.t, {rn});
      ValueConfined(p, vd, vis, bb.t, rn, f, z);
      ExecStays(cp, n, inner, ee.code, z);
      LeaveScope(vis, SExpr(p, n, loc, f).fr, inner, CExec(cp, n, inner, ee.code).sc, z);
    }
  }

  /** A value block: its own frame on one side, no scope of its own on the other. */
  lemma {:induction false} SimValueBlock(
      p: Program, cp: CProgram, vd: bool, n: nat, vis: set<string>, t: nat, rn: CName, loc: Frames, sc: Scopes,
        b: Block)
    requires CallsBelow(p, cp, n) && LValueBlock(p, vd, vis, t, rn, b).Some? && GoodBlock(p, vd, b, true)
    requires Ready(vis, t, loc, sc, BlockNames(b, false)) && Awaits(Some(rn), sc, t)
    ensures var a, c := SBlock(p, n, loc, b), CExec(cp, n, sc, LValueBlock(p, vd, vis, t, rn, b).value.code);
      Matches(vd, vis, vis, a, c) && Written(Some(rn), a, c)
    decreases n, b, 3, 0
  {
    hide CallsBelow, CArgs, CRun, CLoop, CRange, LChain, LArm, LIf, LMatch, LExpr, CValue, SExpr, GoodStmts, LStmt,
      CStep;
    var loc' := [map[]] + loc;
    PushAgree(vis, map[], loc, map[], sc);
    var s := LStmts(p, vd, vis, t, b, 0).value;
    var a, c := SStmts(p, n, loc', b, 0), CExec(cp, n, sc, s.code);
    SimStmts(p, cp, vd, n, vis, t, loc', sc, b, true, 0);
    StmtsKeep(p, n, loc', b, 0);
    var u := a;
    if b.tail.None? {
      DivertingBlock(p, n, loc, b);
    } else {
      var tl := LValue(p, vd, s.vis, s.t, rn, b.tail.value).value;
      ExecAppend(cp, n, sc, s.code, tl.code);
      if a.out.Norm? {
        var z := Zone(BlockNames(b, false), BlockNames(b, true), t, s.t, {});
        StmtsConfined(p, vd, vis, t, b, 0, z);
        ExecStays(cp, n, sc, s.code, z);
        RestFind(sc, c.sc, z, rn);
        SimValue(p, cp, vd, n, s.vis, s.t, rn, a.fr, c.sc, b.tail.value);
        ExprKeeps(p, n, a.fr, b.tail.value);
        u := SExpr(p, n, a.fr, b.tail.value);
        assert Keys(u.fr)[0] == Keys(a.fr)[0];
      }
    }
    if u.out.Norm? || u.out.Brk? || u.out.Cont? {
      PopAgree(vis, u.fr, CExec(cp, n, sc, LValueBlock(p, vd, vis, t, rn, b).value.code).sc);
    }
  }

  // ---------- Statements ----------

  lemma {:induction false} SimStmt(
      p: Program, cp: CProgram, vd: bool, n: nat, vis: set<string>, t: nat, loc: Frames, sc: Scopes, s: Stmt)
    requires CallsBelow(p, cp, n) && LStmt(p, vd, vis, t, s).Some? && GoodStmt(p, vd, s)
    requires Ready(vis, t, loc, sc, StmtNames(s, false))
    ensures var em := LStmt(p, vd, vis, t, s).value;
      Matches(vd, vis, em.vis, SStmt(p, n, loc, s), CExec(cp, n, sc, em.code))
    decreases n, s, 5, 0
  {
    hide CallsBelow, LLet, SExpr, LExpr, LBlock, CLoop, CRange, LReturn, Agree, GoodBlock, SBlock;
    var code := LStmt(p, vd, vis, t, s).value.code;
    match s
    case Break => ExecOne(cp, n, sc, CBreak);
    case Continue => ExecOne(cp, n, sc, CContinue);
    case Let(_, _, _) => SimLet(p, cp, vd, n, vis, t, loc, sc, s);
    case Return(_) => SimReturn(p, cp, vd, n, vis, t, loc, sc, s);
    case ExprS(e) => SimExprStmt(p, cp, vd, n, vis, t, loc, sc, e);
    case Assign(_, _, _) => SimAssign(p, cp, vd, n, vis, t, loc, sc, s);
    case While(_, _) =>
      SimWhile(p, cp, vd, n, vis, t, loc, sc, s);
      ExecOne(cp, n, sc, code[0]);
    case For(_, _, _, _, _) => SimFor(p, cp, vd, n, vis, t, loc, sc, s);
  }

  lemma {:induction false} SimExprStmt(
      p: Program, cp: CProgram, vd: bool, n: nat, vis: set<string>, t: nat, loc: Frames, sc: Scopes, e: Expr)
    requires CallsBelow(p, cp, n) && LStmt(p, vd, vis, t, ExprS(e)).Some? && GoodStmt(p, vd, ExprS(e))
    requires Ready(vis, t, loc, sc, StmtNames(ExprS(e), false))
    ensures Matches(vd, vis, vis, SStmt(p, n, loc, ExprS(e)),
      CExec(cp, n, sc, LStmt(p, vd, vis, t, ExprS(e)).value.code))
    decreases n, e, 6, 0
  {
    if e.BlockE? {
      InnerBlock(e);
      SimScoped(p, cp, vd, n, vis, t, loc, sc, e.b);
      assert SExpr(p, n, loc, e) == SBlock(p, n, loc, e.b);
      ExecOne(cp, n, sc, CBraces(LBlock(p, vd, vis, t, e.b).value.code));
    } else {
      SimTail(p, cp, vd, n, vis, t, loc, sc, e);
    }
  }

  lemma {:induction false} SimAssign(
      p: Program, cp: CProgram, vd: bool, n: nat, vis: set<string>, t: nat, loc: Frames, sc: Scopes, s: Stmt)
    requires CallsBelow(p, cp, n) && s.Assign? && LStmt(p, vd, vis, t, s).Some? && Agree(vis, loc, sc)
    ensures Matches(vd, vis, vis, SStmt(p, n, loc, s), CExec(cp, n, sc, LStmt(p, vd, vis, t, s).value.code))
    decreases n, s, 4, 0
  {
    SimExpr(p, cp, n, vis, loc, sc, s.e);
    ExecOne(cp, n, sc, CSet(Src(s.x), CStore(Src(s.x), s.aop, LExpr(p, vis, s.e).value)));
    var r := SExpr(p, n, loc, s.e);
    if r.out.Norm? {
      var a := Assigned(p.prims, s.aop, Find(loc, s.x).value, r.out.v);
      if a.Some? {
        SetAgree(vis, loc, sc, s.x, a.value);
      }
    }
  }

  lemma {:induction false} SimLet(
      p: Program, cp: CProgram, vd: bool, n: nat, vis: set<string>, t: nat, loc: Frames, sc: Scopes, s: Stmt)
    requires CallsBelow(p, cp, n) && s.Let? && LLet(p, vd, vis, t, s).Some? && GoodStmt(p, vd, s)
    requires Ready(vis, t, loc, sc, StmtNames(s, false))
    ensures var em := LLet(p, vd, vis, t, s).value;
      Matches(vd, vis, em.vis, SStmt(p, n, loc, s), CExec(cp, n, sc, em.code))
    decreases n, s, 4, 0
  {
    if s.name.None? {
      SimDropped(p, cp, vd, n, vis, loc, sc, s.e);
    } else {
      match s.e
      case Try(_) => SimLetTry(p, cp, vd, n, vis, t, loc, sc, s);
      case Match(_, _) => SimLetMatch(p, cp, vd, n, vis, t, loc, sc, s);
      case If(_, b, _) => SimLetValue(p, cp, vd, n, vis, t, loc, sc, s, b);
      case BlockE(b) => SimLetValue(p, cp, vd, n, vis, t, loc, sc, s, b);
      case _ => SimLetPlain(p, cp, vd, n, vis, t, loc, sc, s);
    }
  }

  /** Declaring the variable of a `let` from an expression that has its value. */
  lemma DeclareLet(
      cp: CProgram, n: nat, vis: set<string>, loc: Frames, sc: Scopes, x: string, e: CExpr, v: Val)
    requires Agree(vis, loc, sc) && loc != [] && sc != [] && Src(x) !in sc[0] && CValue(cp, n, sc, e) == CIs(v)
    ensures var r := CExec(cp, n, sc, [CVarDecl(Src(x), e)]);
      r.out == CNorm && Agree(vis + {x}, Declare(loc, x, v), r.sc)
  {
    ExecOne(cp, n, sc, CVarDecl(Src(x), e));
    BindAgree(vis, loc, sc, x, v);
  }

  lemma {:induction false} SimLetPlain(
      p: Program, cp: CProgram, vd: bool, n: nat, vis: set<string>, t: nat, loc: Frames, sc: Scopes, s: Stmt)
    requires CallsBelow(p, cp, n) && s.Let? && s.name.Some? && LLet(p, vd, vis, t, s).Some?
    requires !s.e.Try? && !s.e.Match? && !s.e.If? && !s.e.BlockE?
    requires Ready(vis, t, loc, sc, StmtNames(s, false))
    ensures var em := LLet(p, vd, vis, t, s).value;
      Matches(vd, vis, em.vis, SStmt(p, n, loc, s), CExec(cp, n, sc, em.code))
    decreases n, s, 3, 0
  {
    var c, nv, x := LExpr(p, vis, s.e).value, Temp(InitT, t), s.name.value;
    var init := if s.ann.IntTy? then CExpr.CDecl(s.ann, c) else c;
    SimExpr(p, cp, n, vis, loc, sc, s.e);
    ExecCons(cp, n, sc, CVarDecl(nv, init), [CVarDecl(Src(x), CVar(nv))]);
    var r := SExpr(p, n, loc, s.e);
    if r.out.Norm? {
      var a := Adapt(p.prims, s.ann, r.out.v);
      if a.Some? {
        TempAgree(vis, loc, sc, nv, a.value);
        DeclareLet(cp, n, vis, loc, Bound(sc, nv, a.value), x, CVar(nv), a.value);
      }
    }
  }

  lemma {:induction false} SimLetTry(
      p: Program, cp: CProgram, vd: bool, n: nat, vis: set<string>, t: nat, loc: Frames, sc: Scopes, s: Stmt)
    requires CallsBelow(p, cp, n) && s.Let? && s.name.Some? && s.e.Try? && LLet(p, vd, vis, t, s).Some?
    requires GoodStmt(p, vd, s)
    requires Ready(vis, t, loc, sc, StmtNames(s, false))
    ensures var em := LLet(p, vd, vis, t, s).value;
      Matches(vd, vis, em.vis, SStmt(p, n, loc, s), CExec(cp, n, sc, em.code))
    decreases n, s, 3, 0
  {
    var e, tn, x := s.e.e, Temp(TryT, t), s.name.value;
    var bind := CVarDecl(Src(x), CUnwrap(CVar(tn)));
    SimExpr(p, cp, n, vis, loc, sc, e);
    TryRuns(cp, n, sc, LExpr(p, vis, e).value, tn, bind);
    var r := SExpr(p, n, loc, e);
    assert SExpr(p, n, loc, s.e) == TryRes(r);
    if r.out.Norm? {
      var sc' := Bound(sc, tn, r.out.v);
      TempAgree(vis, loc, sc, tn, r.out.v);
      if !IsBad(r.out.v) {
        assert CValue(cp, n, sc', CVar(tn)) == CIs(r.out.v);
        DeclareLet(cp, n, vis, loc, sc', x, CUnwrap(CVar(tn)), Unwrap(r.out.v));
      }
    }
  }

  function TryRes(r: Res): Res {
    if !r.out.Norm? then r else Res(r.fr, if IsBad(r.out.v) then Ret(r.out.v) else Norm(Unwrap(r.out.v)))
  }

  /** `T tn = e; if (tn is bad) return tn; last` */
  lemma TryRuns(cp: CProgram, n: nat, sc: Scopes, e: CExpr, tn: CName, last: CStmt)
    requires sc != [] && tn !in sc[0]
    ensures var v := CValue(cp, n, sc, e);
      CExec(cp, n, sc, [CVarDecl(tn, e), CIf(CIsBad(CVar(tn)), [CReturn(Some(CVar(tn)))], []), last]) ==
      if !v.CIs? then CRes(sc, Fails(v))
      else if IsBad(v.v) then CRes(Bound(sc, tn, v.v), CRet(v.v))
      else CStep(cp, n, Bound(sc, tn, v.v), last)
  {
    var decl, leave := CVarDecl(tn, e), CIf(CIsBad(CVar(tn)), [CReturn(Some(CVar(tn)))], []);
    assert [decl, leave, last] == [decl] + ([leave] + [last]);
    ExecCons(cp, n, sc, decl, [leave] + [last]);
    var v := CValue(cp, n, sc, e);
    if v.CIs? {
      var sc' := Bound(sc, tn, v.v);
      LeaveIfBad(cp, n, sc', tn, v.v);
      ExecCons(cp, n, sc', leave, [last]);
      ExecOne(cp, n, sc', last);
    }
  }

  /** `if (tn is bad) return tn;` */
  lemma LeaveIfBad(cp: CProgram, n: nat, sc: Scopes, tn: CName, v: Val)
    requires CFind(sc, tn) == Some(v)
    ensures CStep(cp, n, sc, CIf(CIsBad(CVar(tn)), [CReturn(Some(CVar(tn)))], [])) ==
      CRes(sc, if IsBad(v) then CRet(v) else CNorm)
  {
    var inner := [map[]] + sc;
    assert CValue(cp, n, sc, CVar(tn)) == CIs(v);
    assert CFind(inner, tn) == Some(v);
    assert CValue(cp, n, inner, CVar(tn)) == CIs(v);
    ExecOne(cp, n, inner, CReturn(Some(CVar(tn))));
    assert CExec(cp, n, inner, []) == CRes(inner, CNorm);
    assert CPop(inner) == sc;
  }

  lemma {:induction false} SimLetMatch(
      p: Program, cp: CProgram, vd: bool, n: nat, vis: set<string>, t: nat, loc: Frames, sc: Scopes, s: Stmt)
    requires CallsBelow(p, cp, n) && s.Let? && s.name.Some? && s.e.Match? && LLet(p, vd, vis, t, s).Some?
    requires GoodStmt(p, vd, s)
    requires Ready(vis, t, loc, sc, StmtNames(s, false))
    ensures var em := LLet(p, vd, vis, t, s).value;
      Matches(vd, vis, em.vis, SStmt(p, n, loc, s), CExec(cp, n, sc, em.code))
    decreases n, s, 3, 0
  {
    hide CArgs, CRun, CLoop, CRange, LArm, LChain, LIf, LBlock, LExpr, LMatch, CallsBelow;
    var m, x := LMatch(p, vd, vis, t, s.e, true).value, s.name.value;
    TypedResult(p, vd, vis, t, s.e);
    var rn := m.result.value;
    SimMatch(p, cp, vd, n, vis, t, loc, sc, s.e, true);
    ExecAppend(cp, n, sc, m.code, [CVarDecl(Src(x), CVar(rn))]);
    var a, c := SExpr(p, n, loc, s.e), CExec(cp, n, sc, m.code);
    if a.out.Norm? {
      var z := Zone(ExprNames(s.e, false), ExprNames(s.e, true), t, m.t, {rn});
      MatchConfined(p, vd, vis, t, s.e, true, z);
      ExecStays(cp, n, sc, m.code, z);
      assert CValue(cp, n, c.sc, CVar(rn)) == CIs(a.out.v);
      DeclareLet(cp, n, vis, a.fr, c.sc, x, CVar(rn), a.out.v);
    }
  }

  /** A typed first arm gives the `match` its temporary. */
  lemma TypedResult(p: Program, vd: bool, vis: set<string>, t: nat, e: Expr)
    requires e.Match? && FirstTyped(p, e) && LMatch(p, vd, vis, t, e, true).Some?
    ensures LMatch(p, vd, vis, t, e, true).value.result == Some(Temp(ResultT, t))
  {
    var body := e.arms[0].body;
    assert LDry(p, vd, vis, t + 1, body).value.1 by {
      if body.BlockE? {
        assert LDryBlock(p, vd, vis, t + 1, body.b).value.1;
      }
    }
  }

  lemma {:induction false} SimLetValue(
      p: Program, cp: CProgram, vd: bool, n: nat, vis: set<string>, t: nat, loc: Frames, sc: Scopes, s: Stmt,
        first: Block)
    requires CallsBelow(p, cp, n) && s.Let? && s.name.Some? && first < s && s.e < s
    requires LLetValue(p, vd, vis, t, s, first).Some?
    requires !s.ann.IntTy? && GoodExpr(p, vd, s.e, true) && OptName(s.name) !! ExprNames(s.e, false)
    requires Ready(vis, t, loc, sc, StmtNames(s, false))
    ensures var em := LLetValue(p, vd, vis, t, s, first).value;
      Matches(vd, vis, em.vis, SStmt(p, n, loc, s), CExec(cp, n, sc, em.code))
    decreases n, s, 3, 0
  {
    var t' := LDryBlock(p, vd, vis, t, first).value.0;
    SimThroughTemp(p, cp, vd, n, vis, t', loc, sc, s.name.value, s.e);
    assert SStmt(p, n, loc, s) == LetRes(SExpr(p, n, loc, s.e), s.name.value);
  }

  function LetRes(a: Res, x: string): Res {
    if a.out.Norm? then Res(Declare(a.fr, x, a.out.v), Norm(VoidV)) else a
  }

  /** `T v = 0; … v = e …; T x = v;` */
  lemma {:induction false} SimThroughTemp(
      p: Program, cp: CProgram, vd: bool, n: nat, vis: set<string>, t: nat, loc: Frames, sc: Scopes, x: string, e: Expr)
    requires CallsBelow(p, cp, n) && LValue(p, vd, vis, t + 1, Temp(ValueT, t), e).Some?
    requires GoodExpr(p, vd, e, true) && x !in ExprNames(e, false)
    requires Ready(vis, t, loc, sc, {x} + ExprNames(e, false))
    ensures var v := Temp(ValueT, t);
      var code := [CVarDecl(v, CLit(IntV(0)))] + LValue(p, vd, vis, t + 1, v,
        e).value.code + [CVarDecl(Src(x), CVar(v))];
      Matches(vd, vis, vis + {x}, LetRes(SExpr(p, n, loc, e), x), CExec(cp, n, sc, code))
    decreases n, e, 5, 0
  {
    var v := Temp(ValueT, t);
    var em := LValue(p, vd, vis, t + 1, v, e).value;
    var decl, bind := CVarDecl(v, CLit(IntV(0))), CVarDecl(Src(x), CVar(v));
    assert [decl] + em.code + [bind] == [decl] + (em.code + [bind]);
    ExecCons(cp, n, sc, decl, em.code + [bind]);
    var sc' := Bound(sc, v, IntV(0));
    TempAgree(vis, loc, sc, v, IntV(0));
    SimValue(p, cp, vd, n, vis, t + 1, v, loc, sc', e);
    ExecAppend(cp, n, sc', em.code, [bind]);
    var a, c := SExpr(p, n, loc, e), CExec(cp, n, sc', em.code);
    if a.out.Norm? {
      ValueSpares(p, cp, vd, n, vis, t + 1, v, sc', e, Src(x));
      DeclareLet(cp, n, vis, a.fr, c.sc, x, CVar(v), a.out.v);
    }
  }

  /** A name the expression does not bind stays undeclared. */
  lemma ValueSpares(
      p: Program, cp: CProgram, vd: bool, n: nat, vis: set<string>, t: nat, rn: CName, sc: Scopes, e: Expr, c: CName)
    requires LValue(p, vd, vis, t, rn, e).Some? && c.Src? && c.x !in ExprNames(e, false) && sc != [] && c !in sc[0]
    ensures var after := CExec(cp, n, sc, LValue(p, vd, vis, t, rn, e).value.code).sc;
      after != [] && c !in after[0]
  {
    var em := LValue(p, vd, vis, t, rn, e).value;
    var z := Zone(ExprNames(e, false), ExprNames(e, true), t, em.t, {rn});
    ValueConfined(p, vd, vis, t, rn, e, z);
    ExecStays(cp, n, sc, em.code, z);
  }

  lemma {:induction false} SimReturn(
      p: Program, cp: CProgram, vd: bool, n: nat, vis: set<string>, t: nat, loc: Frames, sc: Scopes, s: Stmt)
    requires CallsBelow(p, cp, n) && s.Return? && LReturn(p, vd, vis, t, s).Some? && GoodStmt(p, vd, s)
    requires Ready(vis, t, loc, sc, StmtNames(s, false))
    ensures var em := LReturn(p, vd, vis, t, s).value;
      Matches(vd, vis, em.vis, SStmt(p, n, loc, s), CExec(cp, n, sc, em.code))
    decreases n, s, 4, 0
  {
    if s.val.None? {
      ExecOne(cp, n, sc, CReturn(None));
    } else if s.val.value.Try? {
      SimReturnTry(p, cp, vd, n, vis, t, loc, sc, s);
    } else if s.val.value.Match? {
      SimReturnMatch(p, cp, vd, n, vis, t, loc, sc, s, s.val.value);
    } else {
      SimReturnPlain(p, cp, vd, n, vis, t, loc, sc, s, s.val.value);
    }
  }

  lemma {:induction false} SimReturnMatch(
      p: Program, cp: CProgram, vd: bool, n: nat, vis: set<string>, t: nat, loc: Frames, sc: Scopes, s: Stmt, e: Expr)
    requires CallsBelow(p, cp, n) && s == Return(Some(e)) && e.Match? && LReturn(p, vd, vis, t, s).Some?
    requires GoodStmt(p, vd, s)
    requires Ready(vis, t, loc, sc, StmtNames(s, false))
    ensures var em := LReturn(p, vd, vis, t, s).value;
      Matches(vd, vis, em.vis, SStmt(p, n, loc, s), CExec(cp, n, sc, em.code))
    decreases n, s, 3, 0
  {
    hide CallsBelow, CArgs, CRun, CLoop, CRange, LChain, LArm, LIf, LBlock, LExpr, Agree, SBlock, LMatch;
    var m := LMatch(p, vd, vis, t, e, true).value;
    TypedResult(p, vd, vis, t, e);
    var back := CReturn(Some(CVar(m.result.value)));
    SimMatch(p, cp, vd, n, vis, t, loc, sc, e, true);
    ExecAppend(cp, n, sc, m.code, [back]);
    ExecOne(cp, n, CExec(cp, n, sc, m.code).sc, back);
  }

  lemma {:induction false} SimReturnPlain(
      p: Program, cp: CProgram, vd: bool, n: nat, vis: set<string>, t: nat, loc: Frames, sc: Scopes, s: Stmt, e: Expr)
    requires CallsBelow(p, cp, n) && s == Return(Some(e)) && !e.Match? && !e.Try? && LReturn(p, vd, vis, t, s).Some?
    requires Ready(vis, t, loc, sc, StmtNames(s, false))
    ensures var em := LReturn(p, vd, vis, t, s).value;
      Matches(vd, vis, em.vis, SStmt(p, n, loc, s), CExec(cp, n, sc, em.code))
    decreases n, s, 3, 0
  {
    if vd {
      SimDrop(p, cp, n, vis, loc, sc, e);
      var c := CEval(LDrop(p, vis, e).value);
      assert [c, CReturn(None)] == [c] + [CReturn(None)];
      ExecCons(cp, n, sc, c, [CReturn(None)]);
      ExecOne(cp, n, sc, CReturn(None));
    } else {
      SimExpr(p, cp, n, vis, loc, sc, e);
      ExecOne(cp, n, sc, CReturn(LExpr(p, vis, e)));
    }
  }

  lemma {:induction false} SimReturnTry(
      p: Program, cp: CProgram, vd: bool, n: nat, vis: set<string>, t: nat, loc: Frames, sc: Scopes, s: Stmt)
    requires CallsBelow(p, cp, n) && s.Return? && s.val.Some? && s.val.value.Try? && LReturn(p, vd, vis, t, s).Some?
    requires Ready(vis, t, loc, sc, StmtNames(s, false))
    ensures var em := LReturn(p, vd, vis, t, s).value;
      Matches(vd, vis, em.vis, SStmt(p, n, loc, s), CExec(cp, n, sc, em.code))
    decreases n, s, 3, 0
  {
    var e, tn := s.val.value.e, Temp(TryT, t);
    PushAgree(vis, map[], loc, map[], sc);
    SimExpr(p, cp, n, vis, loc, [map[]] + sc, e);
    TryReturns(cp, n, sc, LExpr(p, vis, e).value, tn);
    assert SExpr(p, n, loc, s.val.value) == TryRes(SExpr(p, n, loc, e));
  }

  /** `{ T tn = e; if (tn is bad) return tn; return its payload; }` */
  lemma TryReturns(cp: CProgram, n: nat, sc: Scopes, e: CExpr, tn: CName)
    ensures var v := CValue(cp, n, [map[]] + sc, e);
      CExec(cp, n, sc, [CBraces([CVarDecl(tn, e), CIf(CIsBad(CVar(tn)), [CReturn(Some(CVar(tn)))], []),
                                 CReturn(Some(CUnwrap(CVar(tn))))])]) ==
      CRes(sc, if !v.CIs? then Fails(v) else CRet(if IsBad(v.v) then v.v else Unwrap(v.v)))
  {
    var inner, back := [map[]] + sc, CReturn(Some(CUnwrap(CVar(tn))));
    var body := [CVarDecl(tn, e), CIf(CIsBad(CVar(tn)), [CReturn(Some(CVar(tn)))], []), back];
    ExecOne(cp, n, sc, CBraces(body));
    TryRuns(cp, n, inner, e, tn, back);
    var v := CValue(cp, n, inner, e);
    if v.CIs? {
      assert CValue(cp, n, Bound(inner, tn, v.v), CVar(tn)) == CIs(v.v);
    }
  }

  // ---------- Loops ----------

  lemma {:induction false} SimWhile(
      p: Program, cp: CProgram, vd: bool, n: nat, vis: set<string>, t: nat, loc: Frames, sc: Scopes, s: Stmt)
    requires CallsBelow(p, cp, n) && s.While? && LStmt(p, vd, vis, t, s).Some? && GoodStmt(p, vd, s)
    requires loc != [] && Agree(vis, loc, sc) && vis !! StmtNames(s, false)
    ensures Matches(vd, vis, vis, SWhile(p, n, loc, s), CLoop(cp, n, sc, LStmt(p, vd, vis, t, s).value.code[0]))
    decreases n, s, 4, 0
  {
    var code := LStmt(p, vd, vis, t, s).value.code[0];
    SimExpr(p, cp, n, vis, loc, sc, s.cond);
    var c := SExpr(p, n, loc, s.cond);
    if c.out.Norm? && Truthy(c.out.v) {
      SimScoped(p, cp, vd, n, vis, t, loc, sc, s.body);
      var a, b := SBlock(p, n, loc, s.body), CScoped(cp, n, sc, code.body);
      if (a.out.Norm? || a.out.Cont?) && n > 0 {
        SimWhile(p, cp, vd, n - 1, vis, t, a.fr, b.sc, s);
      }
    }
  }

  /** The C loop of a `for`, once its bounds are in their temporaries. */
  function ForLoop(p: Program, vd: bool, vis: set<string>, t: nat, s: Stmt): CStmt
    requires s.For? && LBlock(p, vd, LoopVis(vis, s.name), t + 2, s.body).Some?
  {
    CFor(LoopName(s.name), Temp(BoundT, t), Temp(BoundT, t + 1), s.incl,
         LBlock(p, vd, LoopVis(vis, s.name), t + 2, s.body).value.code)
  }

  function FirstFrame(x: Option<string>): Frame { if x.Some? then map[x.value := CountV(0)] else map[] }

  lemma {:induction false} SimFor(
      p: Program, cp: CProgram, vd: bool, n: nat, vis: set<string>, t: nat, loc: Frames, sc: Scopes, s: Stmt)
    requires CallsBelow(p, cp, n) && s.For? && LStmt(p, vd, vis, t, s).Some? && GoodStmt(p, vd, s)
    requires loc != [] && Agree(vis, loc, sc) && vis !! StmtNames(s, false)
    ensures Matches(vd, vis, vis, SStmt(p, n, loc, s), CExec(cp, n, sc, LStmt(p, vd, vis, t, s).value.code))
    decreases n, s, 4, 0
  {
    hide LExpr, SExpr, SBlock, LBlock;
    assert cp.prims == p.prims;
    hide CallsBelow, GoodBlock, CArgs, CRun, LChain, LArm;
    var inner := [map[]] + sc;
    PushAgree(vis, map[], loc, map[], sc);
    var one, two := CBound(LExpr(p, vis, s.lo).value), CBound(LExpr(p, vis, s.hi).value);
    ForRuns(cp, n, sc, Temp(BoundT, t), one, Temp(BoundT, t + 1), two, ForLoop(p, vd, vis, t, s));
    SimExpr(p, cp, n, vis, loc, inner, s.lo);
    var l := SExpr(p, n, loc, s.lo);
    if l.out.Norm? {
      var a := p.prims.bound(l.out.v);
      TempAgree(vis, loc, inner, Temp(BoundT, t), CountV(a));
      SimForBounds(p, cp, vd, n, vis, t, loc, Bound(inner, Temp(BoundT, t), CountV(a)), s, a);
    }
    ForUnfolds(p, n, loc, s);
  }

  /** `{ T c = e; T d = f; loop }` */
  lemma ForRuns(cp: CProgram, n: nat, sc: Scopes, c: CName, e: CExpr, d: CName, f: CExpr, loop: CStmt)
    requires c != d
    ensures var inner := [map[]] + sc;
      var v := CValue(cp, n, inner, e);
      CExec(cp, n, sc, [CBraces([CVarDecl(c, e), CVarDecl(d, f), loop])]) ==
      if !v.CIs? then CRes(sc, Fails(v)) else FromSecond(cp, n, Bound(inner, c, v.v), d, f, loop)
  {
    var inner, one, two := [map[]] + sc, CVarDecl(c, e), CVarDecl(d, f);
    assert [one, two, loop] == [one] + ([two] + [loop]);
    ExecOne(cp, n, sc, CBraces([one, two, loop]));
    ExecCons(cp, n, inner, one, [two] + [loop]);
    var v := CValue(cp, n, inner, e);
    if v.CIs? {
      var sc1 := Bound(inner, c, v.v);
      ExecCons(cp, n, sc1, two, [loop]);
      var w := CValue(cp, n, sc1, f);
      if w.CIs? {
        ExecOne(cp, n, Bound(sc1, d, w.v), loop);
      }
    }
    assert CPop(inner) == sc;
  }

  function FromSecond(cp: CProgram, n: nat, sc: Scopes, d: CName, f: CExpr, loop: CStmt): CRes
    requires sc != []
  {
    var w := CValue(cp, n, sc, f);
    if !w.CIs? then CRes(CPop(sc), Fails(w)) else
    var r := CStep(cp, n, Bound(sc, d, w.v), loop);
    CRes(CPop(r.sc), r.out)
  }

  /** From the upper bound on. */
  function FromHi(p: Program, n: nat, fr: Frames, s: Stmt, a: int): Res
    requires s.For?
  {
    var h := SExpr(p, n, fr, s.hi);
    if !h.out.Norm? then h else
    var r := SFor(p, n, [FirstFrame(s.name)] + h.fr, s, a, p.prims.bound(h.out.v));
    Res(Pop(r.fr), r.out)
  }

  lemma ForUnfolds(p: Program, n: nat, fr: Frames, s: Stmt)
    requires s.For?
    ensures SStmt(p, n, fr, s) ==
      var l := SExpr(p, n, fr, s.lo); if !l.out.Norm? then l else FromHi(p, n, l.fr, s, p.prims.bound(l.out.v))
  {
  }

  /** What the loop lemmas need of a `for`: it was emitted, its body keeps to the
      rules, and its variable is neither visible nor touched by the body. */
  ghost predicate ForReady(p: Program, vd: bool, vis: set<string>, t: nat, s: Stmt) {
    && s.For? && LBlock(p, vd, LoopVis(vis, s.name), t + 2, s.body).Some?
    && GoodBlock(p, vd, s.body, false)
    && OptName(s.name) !! BlockNames(s.body, false) + BlockNames(s.body, true)
    && vis !! OptName(s.name) + BlockNames(s.body, false)
  }

  lemma {:induction false} SimForBounds(
      p: Program, cp: CProgram, vd: bool, n: nat, vis: set<string>, t: nat, loc: Frames, sc: Scopes, s: Stmt, a: int)
    requires CallsBelow(p, cp, n) && ForReady(p, vd, vis, t, s) && LExpr(p, vis, s.hi).Some?
    requires loc != [] && Agree(vis, loc, sc)
    requires sc != [] && sc[0] == map[Temp(BoundT, t) := CountV(a)]
    ensures var c := FromSecond(cp, n, sc, Temp(BoundT, t + 1), CBound(LExpr(p, vis, s.hi).value),
      ForLoop(p, vd, vis, t, s));
      Matches(vd, vis, vis, FromHi(p, n, loc, s, a), c)
    decreases n, s, 3, 1
  {
    assert cp.prims == p.prims;
    hide CallsBelow, LExpr, ForLoop, Agree, CStep, SFor;
    SimExpr(p, cp, n, vis, loc, sc, s.hi);
    var h := SExpr(p, n, loc, s.hi);
    if h.out.Norm? {
      var b := p.prims.bound(h.out.v);
      var loop, r := ForLoop(p, vd, vis, t, s), FromHi(p, n, loc, s, a);
      var sc2 := Bound(sc, Temp(BoundT, t + 1), CountV(b));
      TempAgree(vis, loc, sc, Temp(BoundT, t + 1), CountV(b));
      assert CFind(sc2, Temp(BoundT, t)) == Some(CountV(a));
      SimForScope(p, cp, vd, n, vis, t, h.fr, sc2, s, a, b);
      LeaveBounds(p, cp, vd, n, vis, t, r.fr, sc2, s);
      MatchesPopped(vd, vis, r, CStep(cp, n, sc2, loop));
    }
  }

  /** Leaving a scope that agrees without it as well. */
  lemma MatchesPopped(vd: bool, vis: set<string>, a: Res, c: CRes)
    requires Matches(vd, vis, vis, a, c) && c.sc != [] && (Agree(vis, a.fr, c.sc) ==> Agree(vis, a.fr, CPop(c.sc)))
    ensures Matches(vd, vis, vis, a, CRes(CPop(c.sc), c.out))
  {
    hide Agree;
  }

  lemma LeaveBounds(
      p: Program, cp: CProgram, vd: bool, n: nat, vis: set<string>, t: nat, fr: Frames, sc: Scopes, s: Stmt)
    requires ForReady(p, vd, vis, t, s)
    requires sc != [] && forall c :: c in sc[0].Keys ==> !c.Src?
    ensures var r := CStep(cp, n, sc, ForLoop(p, vd, vis, t, s)).sc; Agree(vis, fr, r) ==> Agree(vis, fr, CPop(r))
  {
    var loop, z := ForLoop(p, vd, vis, t, s), LoopZone(p, vd, vis, t, s);
    LoopConfined(p, vd, vis, t, s);
    StepStays(cp, n, sc, loop, z);
    LeaveScope(vis, fr, sc, CStep(cp, n, sc, loop).sc, z);
  }

  function LoopZone(p: Program, vd: bool, vis: set<string>, t: nat, s: Stmt): Zone
    requires s.For? && LBlock(p, vd, LoopVis(vis, s.name), t + 2, s.body).Some?
  {
    Zone(BlockNames(s.body, false), BlockNames(s.body, true), t + 2,
      LBlock(p, vd, LoopVis(vis, s.name), t + 2, s.body).value.t, {})
  }

  lemma LoopConfined(p: Program, vd: bool, vis: set<string>, t: nat, s: Stmt)
    requires s.For? && LBlock(p, vd, LoopVis(vis, s.name), t + 2, s.body).Some?
    ensures ConfinedStmt(ForLoop(p, vd, vis, t, s), LoopZone(p, vd, vis, t, s))
    ensures Confined(ForLoop(p, vd, vis, t, s).body, LoopZone(p, vd, vis, t, s))
  {
    BlockConfined(p, vd, LoopVis(vis, s.name), t + 2, s.body, LoopZone(p, vd, vis, t, s));
  }

  /** The scope of the loop variable, around all the iterations. */
  lemma {:induction false} SimForScope(
      p: Program, cp: CProgram, vd: bool, n: nat, vis: set<string>, t: nat, loc: Frames, sc: Scopes, s: Stmt, a: int,
        b: int)
    requires CallsBelow(p, cp, n) && ForReady(p, vd, vis, t, s)
    requires loc != [] && sc != [] && Agree(vis, loc, sc)
    requires CFind(sc, Temp(BoundT, t)) == Some(CountV(a)) && CFind(sc, Temp(BoundT, t + 1)) == Some(CountV(b))
    ensures var r := SFor(p, n, [FirstFrame(s.name)] + loc, s, a, b);
      Matches(vd, vis, vis, Res(Pop(r.fr), r.out), CStep(cp, n, sc, ForLoop(p, vd, vis, t, s)))
    decreases n, s, 3, 0
  {
    var first, loop := FirstFrame(s.name), ForLoop(p, vd, vis, t, s);
    var k := map[loop.c := CountV(a)];
    assert vis !! OptName(s.name);
    PushAgree(vis, first, loc, k, sc);
    SimRange(p, cp, vd, n, vis, t, [first] + loc, [k] + sc, s, a, b);
    var r, c := SFor(p, n, [first] + loc, s, a, b), CRange(cp, n, [k] + sc, loop);
    ForKeeps(p, n, [first] + loc, s, a, b);
    PushKeys(first, loc);
    assert Keys(r.fr)[0] == first.Keys;
    LoopConfined(p, vd, vis, t, s);
    RangeHolds(cp, n, [k] + sc, loop, LoopZone(p, vd, vis, t, s));
    assert CKeys([k] + sc)[0] == CKeys(c.sc)[0];
    if r.out.Norm? {
      PopAgree(vis, r.fr, c.sc);
      CPopAgree(vis, Pop(r.fr), c.sc);
    }
  }

  /** The iterations. The body touches neither the loop variable nor the bound, so
      the header reads what it wrote; the interpreter rewrites its slot each time. */
  lemma {:induction false} SimRange(
      p: Program, cp: CProgram, vd: bool, n: nat, vis: set<string>, t: nat, loc: Frames, sc: Scopes, s: Stmt,
        cur: int, hi: int)
    requires CallsBelow(p, cp, n) && ForReady(p, vd, vis, t, s)
    requires loc != [] && loc[0].Keys == OptName(s.name) && Agree(vis, loc, sc)
    requires sc != [] && LoopName(s.name) in sc[0] && sc[0][LoopName(s.name)] == CountV(cur)
    requires CFind(sc, Temp(BoundT, t + 1)) == Some(CountV(hi))
    ensures Matches(vd, vis, vis, SFor(p, n, loc, s, cur, hi), CRange(cp, n, sc, ForLoop(p, vd, vis, t, s)))
    decreases n, s, 2, 0
  {
    if InRange(cur, hi, s.incl) {
      var loop := ForLoop(p, vd, vis, t, s);
      var loc' := if s.name.Some? then Declare(loc, s.name.value, CountV(cur)) else loc;
      SimIteration(p, cp, vd, n, vis, t, loc, sc, s, cur);
      var a, c := SBlock(p, n, loc', s.body), CScoped(cp, n, sc, loop.body);
      if (a.out.Norm? || a.out.Cont?) && n > 0 {
        var b := Bumped(c.sc, loop.c);
        BumpAgree(vis, a.fr, c.sc, loop.c, cur, Temp(BoundT, t + 1));
        SimRange(p, cp, vd, n - 1, vis, t, a.fr, b, s, cur + 1, hi);
      }
      RangeEnds(p, cp, vd, n, vis, loc, sc, s, loop, cur, hi);
    }
  }

  /** From one iteration and the ones after it to all of them. */
  lemma RangeEnds(
      p: Program, cp: CProgram, vd: bool, n: nat, vis: set<string>, loc: Frames, sc: Scopes, s: Stmt, loop: CStmt,
        cur: int, hi: int)
    requires s.For? && loop.CFor? && loop.incl == s.incl && InRange(cur, hi, s.incl)
    requires loc != [] && CFind(sc, loop.c) == Some(CountV(cur)) && CFind(sc, loop.hi) == Some(CountV(hi))
    requires var loc' := if s.name.Some? then Declare(loc, s.name.value, CountV(cur)) else loc;
      var a, c := SBlock(p, n, loc', s.body), CScoped(cp, n, sc, loop.body);
      && Matches(vd, vis, vis, a, c)
      && ((a.out.Norm? || a.out.Cont?) && n > 0 ==>
            Matches(vd, vis, vis, SFor(p, n - 1, a.fr, s, cur + 1, hi), CRange(cp, n - 1, Bumped(c.sc, loop.c), loop)))
    ensures Matches(vd, vis, vis, SFor(p, n, loc, s, cur, hi), CRange(cp, n, sc, loop))
  {
  }

  lemma {:induction false} SimIteration(
      p: Program, cp: CProgram, vd: bool, n: nat, vis: set<string>, t: nat, loc: Frames, sc: Scopes, s: Stmt, cur: int)
    requires CallsBelow(p, cp, n) && ForReady(p, vd, vis, t, s)
    requires loc != [] && loc[0].Keys == OptName(s.name) && Agree(vis, loc, sc)
    requires sc != [] && LoopName(s.name) in sc[0] && sc[0][LoopName(s.name)] == CountV(cur)
    ensures var loc' := if s.name.Some? then Declare(loc, s.name.value, CountV(cur)) else loc;
      var a, c := SBlock(p, n, loc', s.body), CScoped(cp, n, sc, ForLoop(p, vd, vis, t, s).body);
      && Matches(vd, vis, vis, a, c)
      && a.fr != [] && a.fr[0].Keys == OptName(s.name)
      && c.sc != [] && LoopName(s.name) in c.sc[0] && c.sc[0][LoopName(s.name)] == CountV(cur)
      && CFind(c.sc, Temp(BoundT, t + 1)) == CFind(sc, Temp(BoundT, t + 1))
    decreases n, s, 1, 0
  {
    var vis' := LoopVis(vis, s.name);
    var loc' := if s.name.Some? then Declare(loc, s.name.value, CountV(cur)) else loc;
    SimScoped(p, cp, vd, n, vis', t + 2, loc', sc, s.body);
    BlockKeeps(p, n, loc', s.body);
    assert Keys(SBlock(p, n, loc', s.body).fr)[0] == Keys(loc')[0];
    BodySpares(p, cp, vd, n, vis, t, sc, s);
  }

  /** The body leaves the loop variable and the upper bound as they are. */
  lemma BodySpares(p: Program, cp: CProgram, vd: bool, n: nat, vis: set<string>, t: nat, sc: Scopes, s: Stmt)
    requires ForReady(p, vd, vis, t, s)
    requires sc != [] && LoopName(s.name) in sc[0]
    ensures var after := CScoped(cp, n, sc, ForLoop(p, vd, vis, t, s).body).sc;
      && after != [] && LoopName(s.name) in after[0] && after[0][LoopName(s.name)] == sc[0][LoopName(s.name)]
      && CFind(after, Temp(BoundT, t + 1)) == CFind(sc, Temp(BoundT, t + 1))
  {
    var z, code := LoopZone(p, vd, vis, t, s), ForLoop(p, vd, vis, t, s).body;
    LoopConfined(p, vd, vis, t, s);
    ScopedHolds(cp, n, sc, code, z);
    var after := CScoped(cp, n, sc, code).sc;
    HoldsBelow(sc, after, z);
    RestFind(sc, after, z, LoopName(s.name));
    RestFind(sc, after, z, Temp(BoundT, t + 1));
  }

  lemma BumpAgree(vis: set<string>, loc: Frames, sc: Scopes, c: CName, cur: int, hi: CName)
    requires Agree(vis, loc, sc) && sc != [] && c in sc[0] && sc[0][c] == CountV(cur)
    requires (c.Src? ==> c.x !in vis) && hi != c
    ensures var b := Bumped(sc, c);
      && b != [] && c in b[0] && b[0][c] == CountV(cur + 1)
      && Agree(vis, loc, b) && CFind(b, hi) == CFind(sc, hi)
  {
    var b := Bumped(sc, c);
    assert b == [sc[0][c := CountV(cur + 1)]] + sc[1..];
    assert b[1..] == sc[1..];
  }
}
