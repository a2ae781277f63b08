/** The emitter as it runs: one record with the temporary counter, the stack of
    scopes and a sticky error flag. Each method writes the statements that the
    functions of `Lower` give for the names in scope and the counter at its start;
    after an error nothing that was written is used. */
module Emitter {
  import opened Options
  import opened Syntax
  import opened Names
  import opened CLang
  import opened Lower

  function Union(scopes: seq<set<string>>): set<string> {
    if scopes == [] then {} else scopes[0] + Union(scopes[1..])
  }

  class Emitter {
    const p: Program
    const isVoid: bool
    var tmpn: nat
    var scopes: seq<set<string>>
    var err: bool

    constructor (p: Program, isVoid: bool, tmpn: nat)
      ensures this.p == p && this.isVoid == isVoid && this.tmpn == tmpn && scopes == [{}] && !err
    {
      this.p, this.isVoid, this.tmpn, scopes, err := p, isVoid, tmpn, [{}], false;
    }

    ghost function Vis(): set<string>
      reads this
    {
      Union(scopes)
    }

    /** What was written is what `r` says, and there was an error if `r` is `None`. */
    ghost predicate Wrote(r: Option<Em>, code: seq<CStmt>)
      reads this
    {
      (err <==> r.None?) && (!err ==> code == r.value.code && tmpn == r.value.t)
    }

    method Push()
      modifies this`scopes
      ensures scopes == [{}] + old(scopes) && Vis() == old(Vis())
    {
      scopes := [{}] + scopes;
    }

    method PopScope()
      requires scopes != []
      modifies this`scopes
      ensures scopes == old(scopes)[1..]
    {
      scopes := scopes[1..];
    }

    method Define(x: string)
      requires scopes != []
      modifies this`scopes
      ensures scopes != [] && scopes[1..] == old(scopes)[1..] && Vis() == old(Vis()) + {x}
    {
      scopes := [scopes[0] + {x}] + scopes[1..];
    }

    /** Looks a name up from the innermost scope outwards. */
    method Knows(x: string) returns (found: bool)
      ensures found <==> x in Vis()
    {
      var i := 0;
      while i < |scopes|
        invariant i <= |scopes|
        invariant x in Union(scopes) <==> x in Union(scopes[i..])
      {
        if x in scopes[i] { return true; }
        assert scopes[i..][1..] == scopes[i + 1..];
        i := i + 1;
      }
      return false;
    }

    // ---------- Expressions ----------

    method EmitExpr(e: Expr) returns (c: CExpr)
      requires !err
      modifies this`err
      ensures err <==> LExpr(p, Vis(), e).None?
      ensures !err ==> LExpr(p, Vis(), e) == Some(c)
      decreases e, 1
    {
      c := CPanic;
      match e {
        case Lit(v) => c := CLit(v);
        case Var(x) =>
          var found := Knows(x);
          if found { c := CVar(Src(x)); } else { err := true; }
        case Not(x) => c := EmitExpr(x); c := CNot(c);
        case Neg(x) => c := EmitExpr(x); c := CNeg(c);
        case MkPay(tag, x) => c := EmitExpr(x); c := CPay(tag, c);
        case Bin(op, x, y) =>
          var l, r := EmitTwo(e, x, y);
          c := CBin(op, l, r);
        case AndAlso(x, y) =>
          var l, r := EmitTwo(e, x, y);
          c := CAnd(l, r);
        case OrElse(x, y) =>
          var l, r := EmitTwo(e, x, y);
          c := COr(l, r);
        case Call(f, _) =>
          if f in p.fns && !p.fns[f].isVoid { c := EmitCall(e); } else { err := true; }
        case _ => err := true;
      }
    }

    method EmitTwo(ghost e: Expr, x: Expr, y: Expr) returns (l: CExpr, r: CExpr)
      requires !err && x < e && y < e
      modifies this`err
      ensures err <==> LExpr(p, Vis(), x).None? || LExpr(p, Vis(), y).None?
      ensures !err ==> LExpr(p, Vis(), x) == Some(l) && LExpr(p, Vis(), y) == Some(r)
      decreases e, 0
    {
      r := CPanic;
      l := EmitExpr(x);
      if !err { r := EmitExpr(y); }
    }

    method EmitCall(e: Expr) returns (c: CExpr)
      requires !err && e.Call?
      modifies this`err
      ensures err <==> LCall(p, Vis(), e).None?
      ensures !err ==> LCall(p, Vis(), e) == Some(c)
      decreases e, 0
    {
      c := CPanic;
      if e.f !in p.fns || |p.fns[e.f].params| != |e.args| {
        err := true;
        return;
      }
      var args := [];
      var i := 0;
      ghost var all := LArgs(p, Vis(), e, 0);
      assert all.Some? ==> args + all.value == all.value;
      while i < |e.args|
        invariant !err && i <= |e.args| && scopes == old(scopes)
        invariant all.None? <==> LArgs(p, Vis(), e, i).None?
        invariant all.Some? ==> all.value == args + LArgs(p, Vis(), e, i).value
      {
        var a := EmitExpr(e.args[i]);
        if err { return; }
        ghost var rest := LArgs(p, Vis(), e, i + 1);
        assert rest.Some? ==> args + ([a] + rest.value) == args + [a] + rest.value;
        args := args + [a];
        i := i + 1;
      }
      assert args + [] == args;
      c := CCall(e.f, args);
    }

    method EmitDrop(e: Expr) returns (c: CExpr)
      requires !err
      modifies this`err
      ensures err <==> LDrop(p, Vis(), e).None?
      ensures !err ==> LDrop(p, Vis(), e) == Some(c)
    {
      if e.Panic? {
        c := CPanic;
      } else if e.Call? {
        c := EmitCall(e);
      } else {
        c := EmitExpr(e);
      }
    }

    // ---------- Values ----------

    method EmitValueTo(e: Expr, rn: CName) returns (code: seq<CStmt>)
      requires !err && scopes != []
      modifies this
      ensures Wrote(LValue(p, isVoid, old(Vis()), old(tmpn), rn, e), code)
      ensures !err ==> scopes == old(scopes)
      decreases e, 1, 0
    {
      code := [];
      if e.If? {
        var c := EmitExpr(e.cond);
        if err { return; }
        var thn := EmitValueBlock(e.thn, rn);
        if err { return; }
        var els := [];
        if e.els.Some? {
          els := EmitValueTo(e.els.value, rn);
          if err { return; }
        }
        code := [CIf(c, thn, els)];
      } else if e.BlockE? {
        code := EmitValueBlock(e.b, rn);
      } else if e.Panic? {
        code := [CEval(CPanic)];
      } else {
        var c := EmitExpr(e);
        if err { return; }
        code := [CSet(rn, c)];
      }
    }

    method EmitValueBlock(b: Block, rn: CName) returns (code: seq<CStmt>)
      requires !err && scopes != []
      modifies this
      ensures Wrote(LValueBlock(p, isVoid, old(Vis()), old(tmpn), rn, b), code)
      ensures !err ==> scopes == old(scopes)
      decreases b, 3, 0
    {
      Push();
      code := EmitStmts(b);
      if err { return; }
      if b.tail.Some? {
        var tail := EmitValueTo(b.tail.value, rn);
        if err { return; }
        code := code + tail;
      }
      PopScope();
    }

    // ---------- match ----------

    /** A first emission that is thrown away, for the type alone. */
    method EmitDry(body: Expr) returns (typed: bool)
      requires !err && scopes != []
      modifies this
      ensures var r := LDry(p, isVoid, old(Vis()), old(tmpn), body);
        (err <==> r.None?) && (!err ==> r.value == (tmpn, typed) && scopes == old(scopes))
      decreases body, 3, 0
    {
      typed := false;
      if body.BlockE? {
        typed := EmitDryBlock(body.b);
      } else {
        var c := EmitDrop(body);
        typed := Typed(p, body);
      }
    }

    method EmitDryBlock(b: Block) returns (typed: bool)
      requires !err && scopes != []
      modifies this
      ensures var r := LDryBlock(p, isVoid, old(Vis()), old(tmpn), b);
        (err <==> r.None?) && (!err ==> r.value == (tmpn, typed) && scopes == old(scopes))
      decreases b, 3, 0
    {
      typed := false;
      Push();
      var code := EmitStmts(b);
      if err { return; }
      if b.tail.Some? {
        var c := EmitDrop(b.tail.value);
        if err { return; }
        typed := Typed(p, b.tail.value);
      }
      PopScope();
    }

    method EmitMatch(e: Expr, want: bool) returns (code: seq<CStmt>, result: Option<CName>)
      requires !err && scopes != [] && e.Match?
      modifies this
      ensures var r := LMatch(p, isVoid, old(Vis()), old(tmpn), e, want);
        && (err <==> r.None?)
        && (!err ==> r.value == MatchEm(code, tmpn, result) && scopes == old(scopes))
      decreases e, 1, 0
    {
      code, result := [], None;
      var c := EmitExpr(e.scrut);
      if err { return; }
      if e.arms == [] {
        err := true;
        return;
      }
      var n := tmpn;
      tmpn := tmpn + 1;
      var typed := false;
      if want {
        typed := EmitDry(e.arms[0].body);
        if err { return; }
      }
      if typed {
        result := Some(Temp(ResultT, n));
        code := [CVarDecl(result.value, CLit(IntV(0)))];
      }
      var chain, after := EmitChain(e, 0, result, Temp(ScrutT, n));
      if err { return; }
      code := code + [CBraces([CVarDecl(Temp(ScrutT, n), c)] + chain + after)];
    }

    method EmitChain(e: Expr, i: nat, result: Option<CName>, vn: CName) returns (chain: seq<CStmt>, after: seq<CStmt>)
      requires !err && scopes != [] && e.Match? && i <= |e.arms|
      modifies this
      ensures var r := LChain(p, isVoid, old(Vis()), old(tmpn), result, vn, e, i);
        && (err <==> r.None?)
        && (!err ==> r.value == ArmsEm(chain, after, tmpn) && scopes == old(scopes))
      decreases e, 0, |e.arms| - i
    {
      chain, after := [CEval(CPanic)], [];
      if i < |e.arms| {
        var c := LCond(e.arms[i].pat, vn);
        if !CatchAll(e.arms[i].pat) && c.None? {
          err := true;
          return;
        }
        var arm := EmitArm(e.arms[i], result, vn);
        if err { return; }
        if CatchAll(e.arms[i].pat) {
          chain := [CBraces(arm)];
          after := EmitAfter(e, i + 1, result, vn);
        } else {
          var rest;
          rest, after := EmitChain(e, i + 1, result, vn);
          chain := [CIf(c.value, arm, rest)];
        }
      }
    }

    method EmitAfter(e: Expr, i: nat, result: Option<CName>, vn: CName) returns (code: seq<CStmt>)
      requires !err && scopes != [] && e.Match? && i <= |e.arms|
      modifies this
      ensures Wrote(LAfter(p, isVoid, old(Vis()), old(tmpn), result, vn, e, i), code)
      ensures !err ==> scopes == old(scopes)
      decreases e, 0, |e.arms| - i
    {
      code := [];
      if i < |e.arms| {
        var c := LCond(e.arms[i].pat, vn);
        if c.None? {
          err := true;
          return;
        }
        var arm := EmitArm(e.arms[i], result, vn);
        if err { return; }
        if i + 1 < |e.arms| && CatchAll(e.arms[i + 1].pat) {
          var els := EmitArm(e.arms[i + 1], result, vn);
          if err { return; }
          code := EmitAfter(e, i + 2, result, vn);
          code := [CIf(c.value, arm, els)] + code;
        } else {
          code := EmitAfter(e, i + 1, result, vn);
          code := [CIf(c.value, arm, [])] + code;
        }
      }
    }

    method EmitArm(arm: Arm, result: Option<CName>, vn: CName) returns (code: seq<CStmt>)
      requires !err && scopes != []
      modifies this
      ensures Wrote(LArm(p, isVoid, old(Vis()), old(tmpn), result, vn, arm), code)
      ensures !err ==> scopes == old(scopes)
      decreases arm, 0, 0
    {
      Push();
      code := LBind(arm.pat, vn);
      if code != [] { Define(code[0].c.x); }
      assert Vis() == old(Vis()) + BoundBy(arm.pat);
      var body;
      if result.Some? {
        body := EmitValueTo(arm.body, result.value);
      } else if arm.body.BlockE? {
        body := EmitBlock(arm.body.b);
      } else {
        var c := EmitDrop(arm.body);
        body := [CEval(c)];
      }
      if err { return; }
      code := code + body;
      PopScope();
    }

    // ---------- Statements ----------

    /** The statements of a block, one after the other, in the current scope. */
    method EmitStmts(b: Block) returns (code: seq<CStmt>)
      requires !err && scopes != []
      modifies this
      ensures Wrote(LStmts(p, isVoid, old(Vis()), old(tmpn), b, 0), code)
      ensures !err ==> scopes != [] && scopes[1..] == old(scopes)[1..]
      ensures !err ==> Vis() == LStmts(p, isVoid, old(Vis()), old(tmpn), b, 0).value.vis
      decreases b, 1, 0
    {
      code := [];
      var i := 0;
      ghost var all := LStmts(p, isVoid, Vis(), tmpn, b, 0);
      while i < |b.stmts|
        invariant !err && i <= |b.stmts| && scopes != [] && scopes[1..] == old(scopes)[1..]
        invariant all.None? <==> LStmts(p, isVoid, Vis(), tmpn, b, i).None?
        invariant all.Some? ==>
          all.value == LStmts(p, isVoid, Vis(), tmpn, b,
            i).value.(code := code + LStmts(p, isVoid, Vis(), tmpn, b, i).value.code)
      {
        var s := EmitStmt(b.stmts[i]);
        if err { return; }
        code := code + s;
        i := i + 1;
      }
    }

    method EmitBlock(b: Block) returns (code: seq<CStmt>)
      requires !err && scopes != []
      modifies this
      ensures Wrote(LBlock(p, isVoid, old(Vis()), old(tmpn), b), code)
      ensures !err ==> scopes != [] && scopes[1..] == old(scopes)[1..]
      decreases b, 3, 0
    {
      code := EmitStmts(b);
      if err { return; }
      if b.tail.Some? {
        var tail := EmitTail(b.tail.value);
        if err { return; }
        code := code + tail;
      }
    }

    /** A block in a scope of its own. */
    method EmitScoped(b: Block) returns (code: seq<CStmt>)
      requires !err && scopes != []
      modifies this
      ensures Wrote(LBlock(p, isVoid, old(Vis()), old(tmpn), b), code)
      ensures !err ==> scopes == old(scopes)
      decreases b, 4, 0
    {
      Push();
      code := EmitBlock(b);
      if err { return; }
      PopScope();
    }

    method EmitTail(e: Expr) returns (code: seq<CStmt>)
      requires !err && scopes != []
      modifies this
      ensures Wrote(LTail(p, isVoid, old(Vis()), old(tmpn), e), code)
      ensures !err ==> scopes == old(scopes)
      decreases e, 2, 0
    {
      if e.If? {
        code := EmitIfStmt(e);
      } else if e.Match? {
        var result;
        code, result := EmitMatch(e, false);
      } else {
        var c := EmitDrop(e);
        code := [CEval(c)];
      }
    }

    method EmitIfStmt(e: Expr) returns (code: seq<CStmt>)
      requires !err && scopes != [] && e.If?
      modifies this
      ensures Wrote(LIf(p, isVoid, old(Vis()), old(tmpn), e), code)
      ensures !err ==> scopes == old(scopes)
      decreases e, 1, 0
    {
      code := [];
      var c := EmitExpr(e.cond);
      if err { return; }
      var thn := EmitScoped(e.thn);
      if err { return; }
      var els := [];
      if e.els.Some? {
        var f := e.els.value;
        if f.If? {
          els := EmitIfStmt(f);
        } else if f.BlockE? {
          els := EmitScoped(f.b);
        } else {
          err := true;
        }
        if err { return; }
      }
      code := [CIf(c, thn, els)];
    }

    method EmitStmt(s: Stmt) returns (code: seq<CStmt>)
      requires !err && scopes != []
      modifies this
      ensures Wrote(LStmt(p, isVoid, old(Vis()), old(tmpn), s), code)
      ensures !err ==> scopes != [] && scopes[1..] == old(scopes)[1..]
      ensures !err ==> Vis() == LStmt(p, isVoid, old(Vis()), old(tmpn), s).value.vis
      decreases s, 2, 0
    {
      code := [];
      match s {
        case Let(_, _, _) => code := EmitLet(s);
        case Return(_) => code := EmitReturn(s);
        case Break => code := [CBreak];
        case Continue => code := [CContinue];
        case ExprS(e) =>
          if e.BlockE? {
            code := EmitScoped(e.b);
            code := [CBraces(code)];
          } else {
            code := EmitTail(e);
          }
        case Assign(x, aop, e) =>
          var found := Knows(x);
          if !found {
            err := true;
            return;
          }
          var c := EmitExpr(e);
          code := [CSet(Src(x), CStore(Src(x), aop, c))];
        case While(c, b) =>
          var cc := EmitExpr(c);
          if err { return; }
          var body := EmitScoped(b);
          code := [CWhile(cc, body)];
        case For(_, _, _, _, _) => code := EmitFor(s);
      }
    }

    method EmitFor(s: Stmt) returns (code: seq<CStmt>)
      requires !err && scopes != [] && s.For?
      modifies this
      ensures Wrote(LStmt(p, isVoid, old(Vis()), old(tmpn), s), code)
      ensures !err ==> scopes == old(scopes)
      decreases s, 1, 0
    {
      code := [];
      var first, last := Temp(BoundT, tmpn), Temp(BoundT, tmpn + 1);
      tmpn := tmpn + 2;
      var lo := EmitExpr(s.lo);
      if err { return; }
      var hi := EmitExpr(s.hi);
      if err { return; }
      Push();
      if s.name.Some? { Define(s.name.value); }
      assert Vis() == LoopVis(old(Vis()), s.name);
      var body := EmitBlock(s.body);
      if err { return; }
      PopScope();
      code := [CBraces([CVarDecl(first, CBound(lo)), CVarDecl(last, CBound(hi)),
                        CFor(LoopName(s.name), first, last, s.incl, body)])];
    }

    method EmitLet(s: Stmt) returns (code: seq<CStmt>)
      requires !err && scopes != [] && s.Let?
      modifies this
      ensures Wrote(LLet(p, isVoid, old(Vis()), old(tmpn), s), code)
      ensures !err ==> scopes != [] && scopes[1..] == old(scopes)[1..]
      ensures !err ==> Vis() == LLet(p, isVoid, old(Vis()), old(tmpn), s).value.vis
      decreases s, 1, 0
    {
      if s.name.None? {
        var c := EmitDrop(s.e);
        code := [CEval(c)];
        return;
      }
      if s.e.Try? {
        code := EmitLetTry(s);
      } else if s.e.Match? {
        code := EmitLetMatch(s);
      } else if s.e.If? {
        code := EmitLetValue(s, s.e.thn);
      } else if s.e.BlockE? {
        code := EmitLetValue(s, s.e.b);
      } else {
        code := EmitLetPlain(s);
      }
      if err { return; }
      Define(s.name.value);
    }

    method EmitLetTry(s: Stmt) returns (code: seq<CStmt>)
      requires !err && scopes != [] && s.Let? && s.name.Some? && s.e.Try?
      modifies this
      ensures Wrote(LLet(p, isVoid, old(Vis()), old(tmpn), s), code)
      ensures !err ==> scopes == old(scopes)
    {
      code := [];
      var c := EmitExpr(s.e.e);
      if err || isVoid {
        err := true;
        return;
      }
      var tn := Temp(TryT, tmpn);
      tmpn := tmpn + 1;
      code := [CVarDecl(tn, c), CIf(CIsBad(CVar(tn)), [CReturn(Some(CVar(tn)))], []),
               CVarDecl(Src(s.name.value), CUnwrap(CVar(tn)))];
    }

    method EmitLetMatch(s: Stmt) returns (code: seq<CStmt>)
      requires !err && scopes != [] && s.Let? && s.name.Some? && s.e.Match?
      modifies this
      ensures Wrote(LLet(p, isVoid, old(Vis()), old(tmpn), s), code)
      ensures !err ==> scopes == old(scopes)
      decreases s, 0, 0
    {
      var result;
      code, result := EmitMatch(s.e, true);
      if err || (result.None? && s.ann.Bare?) {
        err := true;
        return;
      }
      code := code + [CVarDecl(Src(s.name.value), if result.Some? then CVar(result.value) else CLit(IntV(0)))];
    }

    method EmitLetPlain(s: Stmt) returns (code: seq<CStmt>)
      requires !err && scopes != [] && s.Let? && s.name.Some?
      requires !s.e.Try? && !s.e.Match? && !s.e.If? && !s.e.BlockE?
      modifies this
      ensures Wrote(LLet(p, isVoid, old(Vis()), old(tmpn), s), code)
      ensures !err ==> scopes == old(scopes)
    {
      code := [];
      var c := EmitExpr(s.e);
      if err || (s.ann.Bare? && !Typed(p, s.e)) {
        err := true;
        return;
      }
      var nv := Temp(InitT, tmpn);
      tmpn := tmpn + 1;
      code := [CVarDecl(nv, if s.ann.IntTy? then CExpr.CDecl(s.ann, c) else c), CVarDecl(Src(s.name.value), CVar(nv))];
    }

    method EmitLetValue(s: Stmt, first: Block) returns (code: seq<CStmt>)
      requires !err && scopes != [] && s.Let? && s.name.Some? && first < s && s.e < s
      modifies this
      ensures Wrote(LLetValue(p, isVoid, old(Vis()), old(tmpn), s, first), code)
      ensures !err ==> scopes == old(scopes)
      decreases s, 0, 0
    {
      code := [];
      var typed := EmitDryBlock(first);
      if err || !typed {
        err := true;
        return;
      }
      var v := Temp(ValueT, tmpn);
      tmpn := tmpn + 1;
      var body := EmitValueTo(s.e, v);
      if err { return; }
      code := [CVarDecl(v, CLit(IntV(0)))] + body + [CVarDecl(Src(s.name.value), CVar(v))];
    }

    method EmitReturn(s: Stmt) returns (code: seq<CStmt>)
      requires !err && scopes != [] && s.Return?
      modifies this
      ensures Wrote(LReturn(p, isVoid, old(Vis()), old(tmpn), s), code)
      ensures !err ==> scopes == old(scopes)
      decreases s, 1, 0
    {
      code := [];
      if s.val.None? {
        code := [CReturn(if isVoid then None else Some(CLit(IntV(0))))];
      } else if s.val.value.Try? {
        var c := EmitExpr(s.val.value.e);
        if err || isVoid {
          err := true;
          return;
        }
        var tn := Temp(TryT, tmpn);
        tmpn := tmpn + 1;
        code := [CBraces([CVarDecl(tn, c), CIf(CIsBad(CVar(tn)), [CReturn(Some(CVar(tn)))], []),
                          CReturn(Some(CUnwrap(CVar(tn))))])];
      } else if s.val.value.Match? {
        var result;
        code, result := EmitMatch(s.val.value, true);
        if !err && result.Some? { code := code + [CReturn(Some(CVar(result.value)))]; }
      } else if isVoid {
        var c := EmitDrop(s.val.value);
        code := [CEval(c), CReturn(None)];
      } else {
        var c := EmitExpr(s.val.value);
        code := [CReturn(Some(c))];
      }
    }
  }
}
