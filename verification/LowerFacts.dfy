/** The emitter stays inside its zone: what it writes for a piece of syntax
    declares only names bound there, sets only names assigned there, and uses only
    the temporaries it counted. */
module LowerFacts {
  import opened Options
  import opened Syntax
  import opened Names
  import opened CLang
  import opened CFacts
  import opened Lower

  /** `z` has room for names `bound` and `written` and temporaries `lo` to `hi`. */
  predicate Covers(z: Zone, bound: set<string>, written: set<string>, lo: nat, hi: nat) {
    bound <= z.decl && written <= z.sets && z.lo <= lo && hi <= z.hi
  }

  lemma BracesConfined(code: seq<CStmt>, z: Zone)
    requires Confined(code, z)
    ensures Confined([CBraces(code)], z)
  {
  }

  /** `if (bad) return tn;` touches nothing. */
  lemma ReturnTouchesNothing(c: CExpr, r: CExpr, z: Zone)
    ensures ConfinedStmt(CIf(c, [CReturn(Some(r))], []), z)
  {
    assert ConfinedStmt(CReturn(Some(r)), z);
  }

  lemma {:induction false} ValueConfined(
      p: Program, vd: bool, vis: set<string>, t: nat, rn: CName, e: Expr, z: Zone)
    requires LValue(p, vd, vis, t, rn, e).Some? && rn in z.extra
    requires Covers(z, ExprNames(e, false), ExprNames(e, true), t, LValue(p, vd, vis, t, rn, e).value.t)
    ensures Confined(LValue(p, vd, vis, t, rn, e).value.code, z)
    decreases e, 1, 0
  {
    match e
    case If(_, b, els) =>
      ValueBlockConfined(p, vd, vis, t, rn, b, z);
      if els.Some? {
        ValueConfined(p, vd, vis, LValueBlock(p, vd, vis, t, rn, b).value.t, rn, els.value, z);
      }
    case BlockE(b) => ValueBlockConfined(p, vd, vis, t, rn, b, z);
    case _ =>
  }

  lemma {:induction false} ValueBlockConfined(
      p: Program, vd: bool, vis: set<string>, t: nat, rn: CName, b: Block, z: Zone)
    requires LValueBlock(p, vd, vis, t, rn, b).Some? && rn in z.extra
    requires Covers(z, BlockNames(b, false), BlockNames(b, true), t, LValueBlock(p, vd, vis, t, rn, b).value.t)
    ensures Confined(LValueBlock(p, vd, vis, t, rn, b).value.code, z)
    decreases b, 2, 0
  {
    var s := LStmts(p, vd, vis, t, b, 0).value;
    StmtsConfined(p, vd, vis, t, b, 0, z);
    if b.tail.Some? {
      TailNames(b, false, 0);
      TailNames(b, true, 0);
      ValueConfined(p, vd, s.vis, s.t, rn, b.tail.value, z);
    }
  }

  lemma {:induction false} TailNames(b: Block, asg: bool, i: nat)
    requires i <= |b.stmts| && b.tail.Some?
    ensures ExprNames(b.tail.value, asg) <= StmtsNames(b, asg, i)
    decreases |b.stmts| - i
  {
    if i < |b.stmts| {
      TailNames(b, asg, i + 1);
    }
  }

  lemma {:induction false} MatchConfined(
      p: Program, vd: bool, vis: set<string>, t: nat, e: Expr, want: bool, z: Zone)
    requires e.Match? && LMatch(p, vd, vis, t, e, want).Some?
    requires Covers(z, ExprNames(e, false), ExprNames(e, true), t, LMatch(p, vd, vis, t, e, want).value.t)
    requires LMatch(p, vd, vis, t, e, want).value.result.Some? ==> Temp(ResultT, t) in z.extra
    ensures Confined(LMatch(p, vd, vis, t, e, want).value.code, z)
    decreases e, 1, 0
  {
    var dry := if want then LDry(p, vd, vis, t + 1, e.arms[0].body) else Some((t + 1, false));
    var result := if dry.value.1 then Some(Temp(ResultT, t)) else None;
    ChainConfined(p, vd, vis, dry.value.0, result, Temp(ScrutT, t), e, 0, z);
    var arms := LChain(p, vd, vis, dry.value.0, result, Temp(ScrutT, t), e, 0).value;
    BracesConfined([CVarDecl(Temp(ScrutT, t), LExpr(p, vis, e.scrut).value)] + arms.chain + arms.after, z);
  }

  lemma {:induction false} ChainConfined(
      p: Program, vd: bool, vis: set<string>, t: nat, result: Option<CName>, vn: CName, e: Expr, i: nat, z: Zone)
    requires e.Match? && i <= |e.arms|
    requires LChain(p, vd, vis, t, result, vn, e, i).Some? && (result.Some? ==> result.value in z.extra)
    requires Covers(z, ArmsNames(e, false, i), ArmsNames(e, true, i), t,
      LChain(p, vd, vis, t, result, vn, e, i).value.t)
    ensures Confined(LChain(p, vd, vis, t, result, vn, e, i).value.chain, z)
    ensures Confined(LChain(p, vd, vis, t, result, vn, e, i).value.after, z)
    decreases e, 0, |e.arms| - i
  {
    if i < |e.arms| {
      ArmConfined(p, vd, vis, t, result, vn, e.arms[i], z);
      var a := LArm(p, vd, vis, t, result, vn, e.arms[i]).value;
      if CatchAll(e.arms[i].pat) {
        AfterConfined(p, vd, vis, a.t, result, vn, e, i + 1, z);
      } else {
        ChainConfined(p, vd, vis, a.t, result, vn, e, i + 1, z);
      }
    }
  }

  /** Two arms in a row have their names among those of the arms. */
  lemma NextArmNames(e: Expr, asg: bool, i: nat)
    requires e.Match? && i + 1 < |e.arms|
    ensures ArmsNames(e, asg, i) == ArmNames(e.arms[i], asg) + ArmNames(e.arms[i + 1], asg) + ArmsNames(e, asg, i + 2)
  {
    assert ArmsNames(e, asg, i + 1) == ArmNames(e.arms[i + 1], asg) + ArmsNames(e, asg, i + 2);
  }

  lemma {:induction false} AfterConfined(
      p: Program, vd: bool, vis: set<string>, t: nat, result: Option<CName>, vn: CName, e: Expr, i: nat, z: Zone)
    requires e.Match? && i <= |e.arms|
    requires LAfter(p, vd, vis, t, result, vn, e, i).Some? && (result.Some? ==> result.value in z.extra)
    requires Covers(z, ArmsNames(e, false, i), ArmsNames(e, true, i), t,
      LAfter(p, vd, vis, t, result, vn, e, i).value.t)
    ensures Confined(LAfter(p, vd, vis, t, result, vn, e, i).value.code, z)
    decreases e, 0, |e.arms| - i
  {
    if i < |e.arms| {
      ArmConfined(p, vd, vis, t, result, vn, e.arms[i], z);
      var a := LArm(p, vd, vis, t, result, vn, e.arms[i]).value;
      if i + 1 < |e.arms| && CatchAll(e.arms[i + 1].pat) {
        CatchConfined(p, vd, vis, a.t, result, vn, e, i, z);
      } else {
        AfterConfined(p, vd, vis, a.t, result, vn, e, i + 1, z);
        ConditionConfined(p, e.arms[i], vn, a.code, z);
      }
    }
  }

  /** An arm of its own, behind its condition. */
  lemma ConditionConfined(p: Program, arm: Arm, vn: CName, code: seq<CStmt>, z: Zone)
    requires Confined(code, z) && LCond(arm.pat, vn).Some?
    ensures Confined([CIf(LCond(arm.pat, vn).value, code, [])], z)
  {
  }

  /** The catch-all after arm `i`, and what follows it. */
  lemma {:induction false} CatchConfined(
      p: Program, vd: bool, vis: set<string>, t: nat, result: Option<CName>, vn: CName, e: Expr, i: nat, z: Zone)
    requires e.Match? && i + 1 < |e.arms| && (result.Some? ==> result.value in z.extra)
    requires LArm(p, vd, vis, t, result, vn, e.arms[i + 1]).Some?
    requires
      var c := LArm(p, vd, vis, t, result, vn, e.arms[i + 1]).value;
      && LAfter(p, vd, vis, c.t, result, vn, e, i + 2).Some?
      && Covers(z, ArmsNames(e, false, i), ArmsNames(e, true, i), t,
        LAfter(p, vd, vis, c.t, result, vn, e, i + 2).value.t)
    ensures
      var c := LArm(p, vd, vis, t, result, vn, e.arms[i + 1]).value;
      Confined(c.code, z) && Confined(LAfter(p, vd, vis, c.t, result, vn, e, i + 2).value.code, z)
    decreases e, 0, |e.arms| - i - 1
  {
    NextArmNames(e, false, i);
    NextArmNames(e, true, i);
    ArmConfined(p, vd, vis, t, result, vn, e.arms[i + 1], z);
    AfterConfined(p, vd, vis, LArm(p, vd, vis, t, result, vn, e.arms[i + 1]).value.t, result, vn, e, i + 2, z);
  }

  lemma {:induction false} ArmConfined(
      p: Program, vd: bool, vis: set<string>, t: nat, result: Option<CName>, vn: CName, arm: Arm, z: Zone)
    requires LArm(p, vd, vis, t, result, vn, arm).Some? && (result.Some? ==> result.value in z.extra)
    requires Covers(z, ArmNames(arm, false), ArmNames(arm, true), t, LArm(p, vd, vis, t, result, vn, arm).value.t)
    ensures Confined(LArm(p, vd, vis, t, result, vn, arm).value.code, z)
    decreases arm, 0, 0
  {
    ArmBodyConfined(p, vd, vis + BoundBy(arm.pat), t, result, arm.body, z);
    assert BoundBy(arm.pat) <= PatNames(arm.pat);
    assert Confined(LBind(arm.pat, vn), z);
  }

  lemma {:induction false} ArmBodyConfined(
      p: Program, vd: bool, vis: set<string>, t: nat, result: Option<CName>, body: Expr, z: Zone)
    requires LArmBody(p, vd, vis, t, result, body).Some? && (result.Some? ==> result.value in z.extra)
    requires Covers(z, ExprNames(body, false), ExprNames(body, true), t, LArmBody(p, vd, vis, t, result, body).value.t)
    ensures Confined(LArmBody(p, vd, vis, t, result, body).value.code, z)
    decreases body, 2, 0
  {
    if result.Some? {
      ValueConfined(p, vd, vis, t, result.value, body, z);
    } else if body.BlockE? {
      BlockConfined(p, vd, vis, t, body.b, z);
    }
  }

  lemma {:induction false} StmtsConfined(
      p: Program, vd: bool, vis: set<string>, t: nat, b: Block, i: nat, z: Zone)
    requires i <= |b.stmts| && LStmts(p, vd, vis, t, b, i).Some?
    requires Covers(z, StmtsNames(b, false, i), StmtsNames(b, true, i), t, LStmts(p, vd, vis, t, b, i).value.t)
    ensures Confined(LStmts(p, vd, vis, t, b, i).value.code, z)
    decreases b, 1, |b.stmts| - i
  {
    if i < |b.stmts| {
      StmtConfined(p, vd, vis, t, b.stmts[i], z);
      var s := LStmt(p, vd, vis, t, b.stmts[i]).value;
      StmtsConfined(p, vd, s.vis, s.t, b, i + 1, z);
    }
  }

  lemma {:induction false} BlockConfined(p: Program, vd: bool, vis: set<string>, t: nat, b: Block, z: Zone)
    requires LBlock(p, vd, vis, t, b).Some?
    requires Covers(z, BlockNames(b, false), BlockNames(b, true), t, LBlock(p, vd, vis, t, b).value.t)
    ensures Confined(LBlock(p, vd, vis, t, b).value.code, z)
    decreases b, 2, 0
  {
    var s := LStmts(p, vd, vis, t, b, 0).value;
    StmtsConfined(p, vd, vis, t, b, 0, z);
    if b.tail.Some? {
      TailNames(b, false, 0);
      TailNames(b, true, 0);
      TailConfined(p, vd, s.vis, s.t, b.tail.value, z);
    }
  }

  lemma {:induction false} TailConfined(p: Program, vd: bool, vis: set<string>, t: nat, e: Expr, z: Zone)
    requires LTail(p, vd, vis, t, e).Some?
    requires Covers(z, ExprNames(e, false), ExprNames(e, true), t, LTail(p, vd, vis, t, e).value.t)
    ensures Confined(LTail(p, vd, vis, t, e).value.code, z)
    decreases e, 2, 0
  {
    if e.If? {
      IfConfined(p, vd, vis, t, e, z);
    } else if e.Match? {
      MatchConfined(p, vd, vis, t, e, false, z);
    }
  }

  lemma {:induction false} IfConfined(p: Program, vd: bool, vis: set<string>, t: nat, e: Expr, z: Zone)
    requires e.If? && LIf(p, vd, vis, t, e).Some?
    requires Covers(z, ExprNames(e, false), ExprNames(e, true), t, LIf(p, vd, vis, t, e).value.t)
    ensures Confined(LIf(p, vd, vis, t, e).value.code, z)
    decreases e, 1, 0
  {
    BlockConfined(p, vd, vis, t, e.thn, z);
    var b := LBlock(p, vd, vis, t, e.thn).value;
    if e.els.Some? {
      match e.els.value
      case If(_, _, _) => IfConfined(p, vd, vis, b.t, e.els.value, z);
      case BlockE(x) =>
        InnerBlock(e.els.value);
        BlockConfined(p, vd, vis, b.t, x, z);
      case _ =>
    }
  }

  lemma InnerBlock(e: Expr)
    requires e.BlockE?
    ensures ExprNames(e, false) == BlockNames(e.b, false) && ExprNames(e, true) == BlockNames(e.b, true)
  {
  }

  lemma {:induction false} StmtConfined(p: Program, vd: bool, vis: set<string>, t: nat, s: Stmt, z: Zone)
    requires LStmt(p, vd, vis, t, s).Some?
    requires Covers(z, StmtNames(s, false), StmtNames(s, true), t, LStmt(p, vd, vis, t, s).value.t)
    ensures Confined(LStmt(p, vd, vis, t, s).value.code, z)
    decreases s, 2, 0
  {
    match s
    case Let(_, _, _) => LetConfined(p, vd, vis, t, s, z);
    case Return(_) => ReturnConfined(p, vd, vis, t, s, z);
    case ExprS(e) =>
      if e.BlockE? {
        InnerBlock(e);
        BlockConfined(p, vd, vis, t, e.b, z);
        BracesConfined(LBlock(p, vd, vis, t, e.b).value.code, z);
      } else {
        TailConfined(p, vd, vis, t, e, z);
      }
    case While(_, b) => BlockConfined(p, vd, vis, t, b, z);
    case For(x, _, _, incl, b) =>
      BlockConfined(p, vd, LoopVis(vis, x), t + 2, b, z);
      var loop := CFor(LoopName(x), Temp(BoundT, t), Temp(BoundT, t + 1), incl,
        LBlock(p, vd, LoopVis(vis, x), t + 2, b).value.code);
      assert ConfinedStmt(loop, z);
      var code := LStmt(p, vd, vis, t, s).value.code;
      assert code == [CBraces([code[0].body[0], code[0].body[1], loop])];
      BracesConfined(code[0].body, z);
    case _ =>
  }

  lemma {:induction false} LetConfined(p: Program, vd: bool, vis: set<string>, t: nat, s: Stmt, z: Zone)
    requires s.Let? && LLet(p, vd, vis, t, s).Some?
    requires Covers(z, StmtNames(s, false), StmtNames(s, true), t, LLet(p, vd, vis, t, s).value.t)
    ensures Confined(LLet(p, vd, vis, t, s).value.code, z)
    decreases s, 1, 0
  {
    if s.name.Some? {
      match s.e
      case Match(_, _) =>
        var m := LMatch(p, vd, vis, t, s.e, true).value;
        MatchConfined(p, vd, vis, t, s.e, true, z.(extra := z.extra + {Temp(ResultT, t)}));
        OwnTemp(m.code, z, Temp(ResultT, t));
      case If(_, b, _) => LetValueConfined(p, vd, vis, t, s, b, z);
      case BlockE(b) => LetValueConfined(p, vd, vis, t, s, b, z);
      case Try(_) => ReturnTouchesNothing(CIsBad(CVar(Temp(TryT, t))), CVar(Temp(TryT, t)), z);
      case _ =>
    }
  }

  /** A temporary inside the range needs no mention of its own. */
  lemma {:induction false} OwnTemp(code: seq<CStmt>, z: Zone, c: CName)
    requires Confined(code, z.(extra := z.extra + {c})) && SetIn(z, c)
    ensures Confined(code, z)
    decreases code, 1
  {
    forall i | 0 <= i < |code| ensures ConfinedStmt(code[i], z) {
      OwnTempStmt(code[i], z, c);
    }
  }

  lemma {:induction false} OwnTempStmt(s: CStmt, z: Zone, c: CName)
    requires ConfinedStmt(s, z.(extra := z.extra + {c})) && SetIn(z, c)
    ensures ConfinedStmt(s, z)
    decreases s, 0
  {
    match s
    case CIf(_, t, e) =>
      OwnTemp(t, z, c);
      OwnTemp(e, z, c);
    case CBraces(b) => OwnTemp(b, z, c);
    case CWhile(_, b) => OwnTemp(b, z, c);
    case CFor(_, _, _, _, b) => OwnTemp(b, z, c);
    case _ =>
  }

  lemma {:induction false} LetValueConfined(
      p: Program, vd: bool, vis: set<string>, t: nat, s: Stmt, first: Block, z: Zone)
    requires s.Let? && s.name.Some? && first < s && s.e < s && LLetValue(p, vd, vis, t, s, first).Some?
    requires Covers(z, StmtNames(s, false), StmtNames(s, true), t, LLetValue(p, vd, vis, t, s, first).value.t)
    ensures Confined(LLetValue(p, vd, vis, t, s, first).value.code, z)
    decreases s, 0, 0
  {
    var dry := LDryBlock(p, vd, vis, t, first).value.0;
    var v := Temp(ValueT, dry);
    ValueConfined(p, vd, vis, dry + 1, v, s.e, z.(extra := z.extra + {v}));
    OwnTemp(LValue(p, vd, vis, dry + 1, v, s.e).value.code, z, v);
  }

  lemma {:induction false} ReturnConfined(p: Program, vd: bool, vis: set<string>, t: nat, s: Stmt, z: Zone)
    requires s.Return? && LReturn(p, vd, vis, t, s).Some?
    requires Covers(z, StmtNames(s, false), StmtNames(s, true), t, LReturn(p, vd, vis, t, s).value.t)
    ensures Confined(LReturn(p, vd, vis, t, s).value.code, z)
    decreases s, 1, 0
  {
    if s.val.Some? && s.val.value.Try? {
      var code := LReturn(p, vd, vis, t, s).value.code;
      ReturnTouchesNothing(CIsBad(CVar(Temp(TryT, t))), CVar(Temp(TryT, t)), z);
      assert code == [CBraces(code[0].body)];
      BracesConfined(code[0].body, z);
    } else if s.val.Some? && s.val.value.Match? {
      MatchConfined(p, vd, vis, t, s.val.value, true, z.(extra := z.extra + {Temp(ResultT, t)}));
      OwnTemp(LMatch(p, vd, vis, t, s.val.value, true).value.code, z, Temp(ResultT, t));
    }
  }
}
