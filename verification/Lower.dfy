/** The emitter as a function: from syntax, the names in scope and the temporary
    counter to C statements and the new counter. `None` is a rejected program.
    `vd` says that the enclosing function returns nothing. */
module Lower {
  import opened Options
  import opened Syntax
  import opened CLang
  import opened Names

  /** Emitted statements, the next temporary, and the names in scope after them. */
  datatype Em = Em(code: seq<CStmt>, t: nat, vis: set<string>)

  /** A `match`: the temporary that holds its value, when it has one. */
  datatype MatchEm = MatchEm(code: seq<CStmt>, t: nat, result: Option<CName>)

  /** The arms of a `match`: one if-else chain, and what is written after it. */
  datatype ArmsEm = ArmsEm(chain: seq<CStmt>, after: seq<CStmt>, t: nat)

  // ---------- Expressions ----------

  function LExpr(p: Program, vis: set<string>, e: Expr): Option<CExpr>
    decreases e, 1, 0
  {
    match e
    case Lit(v) => Some(CLit(v))
    case Var(x) => if x in vis then Some(CVar(Src(x))) else None
    case Not(x) => var c := LExpr(p, vis, x); if c.None? then None else Some(CNot(c.value))
    case Neg(x) => var c := LExpr(p, vis, x); if c.None? then None else Some(CNeg(c.value))
    case MkPay(tag, x) => var c := LExpr(p, vis, x); if c.None? then None else Some(CPay(tag, c.value))
    case Bin(op, x, y) =>
      var l, r := LExpr(p, vis, x), LExpr(p, vis, y);
      if l.None? || r.None? then None else Some(CBin(op, l.value, r.value))
    case AndAlso(x, y) =>
      var l, r := LExpr(p, vis, x), LExpr(p, vis, y);
      if l.None? || r.None? then None else Some(CAnd(l.value, r.value))
    case OrElse(x, y) =>
      var l, r := LExpr(p, vis, x), LExpr(p, vis, y);
      if l.None? || r.None? then None else Some(COr(l.value, r.value))
    case Call(f, _) => if f in p.fns && !p.fns[f].isVoid then LCall(p, vis, e) else None
    case _ => None
  }

  function LCall(p: Program, vis: set<string>, e: Expr): Option<CExpr>
    requires e.Call?
    decreases e, 0, |e.args| + 1
  {
    if e.f !in p.fns || |p.fns[e.f].params| != |e.args| then None else
    var args := LArgs(p, vis, e, 0);
    if args.None? then None else Some(CCall(e.f, args.value))
  }

  function LArgs(p: Program, vis: set<string>, e: Expr, i: nat): (r: Option<seq<CExpr>>)
    requires e.Call? && i <= |e.args|
    ensures r.Some? ==> |r.value| == |e.args| - i
    decreases e, 0, |e.args| - i
  {
    if i == |e.args| then Some([]) else
    var a, rest := LExpr(p, vis, e.args[i]), LArgs(p, vis, e, i + 1);
    if a.None? || rest.None? then None else Some([a.value] + rest.value)
  }

  /** Where the value is dropped, `panic` and calls without a value may stand too. */
  function LDrop(p: Program, vis: set<string>, e: Expr): Option<CExpr> {
    if e.Panic? then Some(CPanic)
    else if e.Call? then LCall(p, vis, e)
    else LExpr(p, vis, e)
  }

  /** Whether the emitter knows the type of an expression it accepts. */
  predicate Typed(p: Program, e: Expr) {
    match e
    case OrElse(_, _) => false
    case Panic => false
    case Call(f, _) => f in p.fns && !p.fns[f].isVoid
    case _ => true
  }

  // ---------- Patterns ----------

  predicate CatchAll(pat: Pat) { pat.Wild? || pat.Bind? }

  function LCond(pat: Pat, vn: CName): Option<CExpr> {
    match pat
    case LitInt(i) => Some(CEqInt(CVar(vn), i))
    case LitBool(b) => Some(CEqBool(CVar(vn), b))
    case UnitP(tag) => Some(CTagIs(CVar(vn), tag, false))
    case PayP(tag, sub) =>
      var tagged := CTagIs(CVar(vn), tag, true);
      (match sub
       case Wild => Some(tagged)
       case Bind(_) => Some(tagged)
       case UnitP(t) => Some(CAnd(tagged, CTagIs(CPayload(CVar(vn)), t, false)))
       case LitInt(i) => Some(CAnd(tagged, CEqInt(CPayload(CVar(vn)), i)))
       case _ => None)
    case _ => None
  }

  /** The variable a pattern binds, and from what. */
  function LBind(pat: Pat, vn: CName): seq<CStmt> {
    match pat
    case Bind(x) => [CVarDecl(Src(x), CVar(vn))]
    case PayP(_, Bind(x)) => [CVarDecl(Src(x), CPayload(CVar(vn)))]
    case _ => []
  }

  function BoundBy(pat: Pat): set<string> {
    match pat
    case Bind(x) => {x}
    case PayP(_, Bind(x)) => {x}
    case _ => {}
  }

  // ---------- Values written to a temporary ----------

  /** `if` and blocks run their statements and write their tail; a block opens no
      braces. Anything else is one assignment, and `panic` is not even that. */
  function LValue(p: Program, vd: bool, vis: set<string>, t: nat, rn: CName, e: Expr): (r: Option<Em>)
    ensures r.Some? ==> t <= r.value.t
    decreases e, 1, 0
  {
    match e
    case If(c, b, els) =>
      var cc, bb := LExpr(p, vis, c), LValueBlock(p, vd, vis, t, rn, b);
      if cc.None? || bb.None? then None else
      var ee := if els.None? then Some(Em([], bb.value.t, vis)) else LValue(p, vd, vis, bb.value.t, rn, els.value);
      if ee.None? then None else Some(Em([CIf(cc.value, bb.value.code, ee.value.code)], ee.value.t, vis))
    case BlockE(b) => LValueBlock(p, vd, vis, t, rn, b)
    case Panic => Some(Em([CEval(CPanic)], t, vis))
    case _ => var c := LExpr(p, vis, e); if c.None? then None else Some(Em([CSet(rn, c.value)], t, vis))
  }

  function LValueBlock(p: Program, vd: bool, vis: set<string>, t: nat, rn: CName, b: Block): (r: Option<Em>)
    ensures r.Some? ==> t <= r.value.t
    decreases b, 2, 0
  {
    var s := LStmts(p, vd, vis, t, b, 0);
    if s.None? then None
    else if b.tail.None? then Some(Em(s.value.code, s.value.t, vis))
    else
      var v := LValue(p, vd, s.value.vis, s.value.t, rn, b.tail.value);
      if v.None? then None else Some(Em(s.value.code + v.value.code, v.value.t, vis))
  }

  // ---------- match ----------

  /** A discarded first emission, to learn the type: the next temporary, and
      whether a type came out. The pattern's variables are not in scope here. */
  function LDry(p: Program, vd: bool, vis: set<string>, t: nat, body: Expr): (r: Option<(nat, bool)>)
    ensures r.Some? ==> t <= r.value.0
    decreases body, 2, 0
  {
    if body.BlockE? then LDryBlock(p, vd, vis, t, body.b)
    else if LDrop(p, vis, body).None? then None
    else Some((t, Typed(p, body)))
  }

  function LDryBlock(p: Program, vd: bool, vis: set<string>, t: nat, b: Block): (r: Option<(nat, bool)>)
    ensures r.Some? ==> t <= r.value.0
    decreases b, 2, 0
  {
    var s := LStmts(p, vd, vis, t, b, 0);
    if s.None? then None
    else if b.tail.None? then Some((s.value.t, false))
    else if LDrop(p, s.value.vis, b.tail.value).None? then None
    else Some((s.value.t, Typed(p, b.tail.value)))
  }

  function LMatch(p: Program, vd: bool, vis: set<string>, t: nat, e: Expr, want: bool): (r: Option<MatchEm>)
    requires e.Match?
    ensures r.Some? ==> t <= r.value.t
    decreases e, 1, 0
  {
    var c := LExpr(p, vis, e.scrut);
    if c.None? || e.arms == [] then None else
    var dry := if want then LDry(p, vd, vis, t + 1, e.arms[0].body) else Some((t + 1, false));
    if dry.None? then None else
    var vn, result := Temp(ScrutT, t), if dry.value.1 then Some(Temp(ResultT, t)) else None;
    var arms := LChain(p, vd, vis, dry.value.0, result, vn, e, 0);
    if arms.None? then None else
    var decl := if result.Some? then [CVarDecl(result.value, CLit(IntV(0)))] else [];
    var body := [CVarDecl(vn, c.value)] + arms.value.chain + arms.value.after;
    Some(MatchEm(decl + [CBraces(body)], arms.value.t, result))
  }

  /** The arms from `i` on as an if-else chain, up to the first catch-all; guards
      are not looked at. Without a catch-all the chain ends in a panic. */
  function LChain(p: Program, vd: bool, vis: set<string>, t: nat, result: Option<CName>, vn: CName, e: Expr, i: nat)
    : (r: Option<ArmsEm>)
    requires e.Match? && i <= |e.arms|
    ensures r.Some? ==> t <= r.value.t
    decreases e, 0, |e.arms| - i
  {
    if i == |e.arms| then Some(ArmsEm([CEval(CPanic)], [], t)) else
    var a := LArm(p, vd, vis, t, result, vn, e.arms[i]);
    if a.None? then None
    else if CatchAll(e.arms[i].pat) then
      var rest := LAfter(p, vd, vis, a.value.t, result, vn, e, i + 1);
      if rest.None? then None else Some(ArmsEm([CBraces(a.value.code)], rest.value.code, rest.value.t))
    else
      var c := LCond(e.arms[i].pat, vn);
      var rest := LChain(p, vd, vis, a.value.t, result, vn, e, i + 1);
      if c.None? || rest.None? then None
      else Some(ArmsEm([CIf(c.value, a.value.code, rest.value.chain)], rest.value.after, rest.value.t))
  }

  /** Arms after a catch-all: each one starts an `if` of its own, and a further
      catch-all is the `else` of the arm before it. */
  function LAfter(p: Program, vd: bool, vis: set<string>, t: nat, result: Option<CName>, vn: CName, e: Expr, i: nat)
    : (r: Option<Em>)
    requires e.Match? && i <= |e.arms|
    ensures r.Some? ==> t <= r.value.t
    decreases e, 0, |e.arms| - i
  {
    if i == |e.arms| then Some(Em([], t, vis)) else
    var a, c := LArm(p, vd, vis, t, result, vn, e.arms[i]), LCond(e.arms[i].pat, vn);
    if a.None? || c.None? then None
    else if i + 1 < |e.arms| && CatchAll(e.arms[i + 1].pat) then
      var b := LArm(p, vd, vis, a.value.t, result, vn, e.arms[i + 1]);
      if b.None? then None else
      var rest := LAfter(p, vd, vis, b.value.t, result, vn, e, i + 2);
      if rest.None? then None
      else Some(Em([CIf(c.value, a.value.code, b.value.code)] + rest.value.code, rest.value.t, vis))
    else
      var rest := LAfter(p, vd, vis, a.value.t, result, vn, e, i + 1);
      if rest.None? then None
      else Some(Em([CIf(c.value, a.value.code, [])] + rest.value.code, rest.value.t, vis))
  }

  function LArm(
      p: Program, vd: bool, vis: set<string>, t: nat, result: Option<CName>, vn: CName, arm: Arm): (r: Option<Em>)
    ensures r.Some? ==> t <= r.value.t
    decreases arm, 0, 0
  {
    var b := LArmBody(p, vd, vis + BoundBy(arm.pat), t, result, arm.body);
    if b.None? then None else Some(Em(LBind(arm.pat, vn) + b.value.code, b.value.t, vis))
  }

  function LArmBody(p: Program, vd: bool, vis: set<string>, t: nat, result: Option<CName>, body: Expr): (r: Option<Em>)
    ensures r.Some? ==> t <= r.value.t
    decreases body, 2, 0
  {
    if result.Some? then LValue(p, vd, vis, t, result.value, body)
    else if body.BlockE? then LBlock(p, vd, vis, t, body.b)
    else
      var c := LDrop(p, vis, body);
      if c.None? then None else Some(Em([CEval(c.value)], t, vis))
  }

  // ---------- Statements ----------

  function LStmts(p: Program, vd: bool, vis: set<string>, t: nat, b: Block, i: nat): (r: Option<Em>)
    requires i <= |b.stmts|
    ensures r.Some? ==> t <= r.value.t && vis <= r.value.vis
    decreases b, 1, |b.stmts| - i
  {
    if i == |b.stmts| then Some(Em([], t, vis)) else
    var s := LStmt(p, vd, vis, t, b.stmts[i]);
    if s.None? then None else
    var rest := LStmts(p, vd, s.value.vis, s.value.t, b, i + 1);
    if rest.None? then None else Some(rest.value.(code := s.value.code + rest.value.code))
  }

  /** A block in statement position: its tail is evaluated and dropped. */
  function LBlock(p: Program, vd: bool, vis: set<string>, t: nat, b: Block): (r: Option<Em>)
    ensures r.Some? ==> t <= r.value.t
    decreases b, 2, 0
  {
    var s := LStmts(p, vd, vis, t, b, 0);
    if s.None? then None
    else if b.tail.None? then Some(Em(s.value.code, s.value.t, vis))
    else
      var r := LTail(p, vd, s.value.vis, s.value.t, b.tail.value);
      if r.None? then None else Some(Em(s.value.code + r.value.code, r.value.t, vis))
  }

  function LTail(p: Program, vd: bool, vis: set<string>, t: nat, e: Expr): (r: Option<Em>)
    ensures r.Some? ==> t <= r.value.t && r.value.vis == vis
    decreases e, 2, 0
  {
    if e.If? then LIf(p, vd, vis, t, e)
    else if e.Match? then
      var m := LMatch(p, vd, vis, t, e, false);
      if m.None? then None else Some(Em(m.value.code, m.value.t, vis))
    else
      var c := LDrop(p, vis, e);
      if c.None? then None else Some(Em([CEval(c.value)], t, vis))
  }

  function LIf(p: Program, vd: bool, vis: set<string>, t: nat, e: Expr): (r: Option<Em>)
    requires e.If?
    ensures r.Some? ==> t <= r.value.t && r.value.vis == vis
    decreases e, 1, 0
  {
    var c, b := LExpr(p, vis, e.cond), LBlock(p, vd, vis, t, e.thn);
    if c.None? || b.None? then None else
    var els := if e.els.None? then Some(Em([], b.value.t, vis))
               else match e.els.value
                 case If(_, _, _) => LIf(p, vd, vis, b.value.t, e.els.value)
                 case BlockE(x) => LBlock(p, vd, vis, b.value.t, x)
                 case _ => None;
    if els.None? then None else Some(Em([CIf(c.value, b.value.code, els.value.code)], els.value.t, vis))
  }

  function LStmt(p: Program, vd: bool, vis: set<string>, t: nat, s: Stmt): (r: Option<Em>)
    ensures r.Some? ==> t <= r.value.t && vis <= r.value.vis <= vis + StmtNames(s, false)
    decreases s, 2, 0
  {
    match s
    case Let(_, _, _) => LLet(p, vd, vis, t, s)
    case Return(_) => LReturn(p, vd, vis, t, s)
    case Break => Some(Em([CBreak], t, vis))
    case Continue => Some(Em([CContinue], t, vis))
    case ExprS(e) =>
      if e.BlockE? then
        var b := LBlock(p, vd, vis, t, e.b);
        if b.None? then None else Some(Em([CBraces(b.value.code)], b.value.t, vis))
      else LTail(p, vd, vis, t, e)
    case Assign(x, aop, e) =>
      var c := LExpr(p, vis, e);
      if x !in vis || c.None? then None
      else Some(Em([CSet(Src(x), CStore(Src(x), aop, c.value))], t, vis))
    case While(c, b) =>
      var cc, bb := LExpr(p, vis, c), LBlock(p, vd, vis, t, b);
      if cc.None? || bb.None? then None else Some(Em([CWhile(cc.value, bb.value.code)], bb.value.t, vis))
    case For(x, lo, hi, incl, b) =>
      var a, z, bb := LExpr(p, vis, lo), LExpr(p, vis, hi), LBlock(p, vd, LoopVis(vis, x), t + 2, b);
      if a.None? || z.None? || bb.None? then None else
      var first, last := Temp(BoundT, t), Temp(BoundT, t + 1);
      Some(Em([CBraces([CVarDecl(first, CBound(a.value)), CVarDecl(last, CBound(z.value)),
                        CFor(LoopName(x), first, last, incl, bb.value.code)])], bb.value.t, vis))
  }

  function LoopVis(vis: set<string>, x: Option<string>): set<string> { vis + OptName(x) }

  function LoopName(x: Option<string>): CName { if x.Some? then Src(x.value) else Under }

  function LLet(p: Program, vd: bool, vis: set<string>, t: nat, s: Stmt): (r: Option<Em>)
    requires s.Let?
    ensures r.Some? ==> t <= r.value.t && vis <= r.value.vis <= vis + StmtNames(s, false)
    decreases s, 1, 0
  {
    if s.name.None? then
      var c := LDrop(p, vis, s.e);
      if c.None? then None else Some(Em([CEval(c.value)], t, vis))
    else
      var x, vis' := Src(s.name.value), vis + {s.name.value};
      match s.e
      case Try(e) =>
        var c, tn := LExpr(p, vis, e), Temp(TryT, t);
        if vd || c.None? then None
        else Some(Em([CVarDecl(tn, c.value),
                      CIf(CIsBad(CVar(tn)), [CReturn(Some(CVar(tn)))], []),
                      CVarDecl(x, CUnwrap(CVar(tn)))], t + 1, vis'))
      case Match(_, _) =>
        var m := LMatch(p, vd, vis, t, s.e, true);
        if m.None? || (m.value.result.None? && s.ann.Bare?) then None
        else
          var v := if m.value.result.Some? then CVar(m.value.result.value) else CLit(IntV(0));
          Some(Em(m.value.code + [CVarDecl(x, v)], m.value.t, vis'))
      case If(_, b, _) => LLetValue(p, vd, vis, t, s, b)
      case BlockE(b) => LLetValue(p, vd, vis, t, s, b)
      case _ =>
        var c, nv := LExpr(p, vis, s.e), Temp(InitT, t);
        if c.None? || (s.ann.Bare? && !Typed(p, s.e)) then None
        else Some(Em([CVarDecl(nv, if s.ann.IntTy? then CExpr.CDecl(s.ann, c.value) else c.value),
                      CVarDecl(x, CVar(nv))], t + 1, vis'))
  }

  /** `let x = if …` and `let x = { … }`: the type comes from a first emission of
      the first branch, whose tail must be a plain expression. The annotation
      plays no part. */
  function LLetValue(p: Program, vd: bool, vis: set<string>, t: nat, s: Stmt, first: Block): (r: Option<Em>)
    requires s.Let? && s.name.Some? && first < s
    requires s.e < s
    ensures r.Some? ==> t <= r.value.t && vis <= r.value.vis <= vis + StmtNames(s, false)
    decreases s, 0, 0
  {
    var dry := LDryBlock(p, vd, vis, t, first);
    if dry.None? || !dry.value.1 then None else
    var v := Temp(ValueT, dry.value.0);
    var body := LValue(p, vd, vis, dry.value.0 + 1, v, s.e);
    if body.None? then None
    else Some(Em([CVarDecl(v, CLit(IntV(0)))] + body.value.code + [CVarDecl(Src(s.name.value), CVar(v))],
                 body.value.t, vis + {s.name.value}))
  }

  function LReturn(p: Program, vd: bool, vis: set<string>, t: nat, s: Stmt): (r: Option<Em>)
    requires s.Return?
    ensures r.Some? ==> t <= r.value.t
    decreases s, 1, 0
  {
    match s.val
    case None => Some(Em([CReturn(if vd then None else Some(CLit(IntV(0))))], t, vis))
    case Some(Try(e)) =>
      var c, tn := LExpr(p, vis, e), Temp(TryT, t);
      if vd || c.None? then None
      else Some(Em([CBraces([CVarDecl(tn, c.value),
                             CIf(CIsBad(CVar(tn)), [CReturn(Some(CVar(tn)))], []),
                             CReturn(Some(CUnwrap(CVar(tn))))])], t + 1, vis))
    case Some(Match(_, _)) =>
      var m := LMatch(p, vd, vis, t, s.val.value, true);
      if m.None? then None
      else
        var ret := if m.value.result.Some? then [CReturn(Some(CVar(m.value.result.value)))] else [];
        Some(Em(m.value.code + ret, m.value.t, vis))
    case Some(e) =>
      var c := if vd then LDrop(p, vis, e) else LExpr(p, vis, e);
      if c.None? then None
      else Some(Em(if vd then [CEval(c.value), CReturn(None)] else [CReturn(c)], t, vis))
  }

  // ---------- Functions and programs ----------

  function ParamNames(f: Fn): set<string> { ParamsFrom(f, 0) }

  /** The names of the parameters from `i` on. */
  function ParamsFrom(f: Fn, i: nat): set<string>
    requires i <= |f.params|
    decreases |f.params| - i
  {
    if i == |f.params| then {} else {f.params[i].x} + ParamsFrom(f, i + 1)
  }

  /** Each parameter arrives under its own name and is checked into its variable. */
  function LParams(f: Fn, i: nat): seq<CStmt>
    requires i <= |f.params|
    decreases |f.params| - i
  {
    if i == |f.params| then [] else
    var p := f.params[i];
    var arg := CVar(Par(p.x));
    [CVarDecl(Src(p.x), if p.ann.IntTy? then CExpr.CDecl(p.ann, arg) else arg)] + LParams(f, i + 1)
  }

  function LParamNames(f: Fn): seq<CName> {
    seq(|f.params|, i requires 0 <= i < |f.params| => Par(f.params[i].x))
  }

  function LFn(p: Program, f: Fn, t: nat): Option<CFn> {
    var b := LBlock(p, f.isVoid, ParamNames(f), t, f.body);
    if b.None? then None
    else Some(CFn(LParamNames(f), f.isVoid, LParams(f, 0) + b.value.code))
  }

  /** `cp` is what the emitter writes for `p`; the counter runs on from function
      to function, so each one starts somewhere. */
  ghost predicate IsEmission(p: Program, cp: CProgram) {
    && cp.prims == p.prims
    && cp.fns.Keys == p.fns.Keys
    && forall f :: f in p.fns ==> exists t :: LFn(p, p.fns[f], t) == Some(cp.fns[f])
  }
}
