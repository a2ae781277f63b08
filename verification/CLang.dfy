/** The C that the emitter writes: expressions without side effects on variables,
    statements, and block scopes opened by braces. Declaring a name twice in one
    scope, reading a name that is not declared and running off the end of a
    function that returns a value have no meaning: the run is `CStuck`. */
module CLang {
  import opened Options
  import opened Syntax

  datatype TempKind = ScrutT | ResultT | ValueT | InitT | TryT | BoundT

  /** A variable of the source, the incoming form of a parameter, the `_` of a
      loop, or a numbered temporary. */
  datatype CName = Src(x: string) | Par(x: string) | Under | Temp(kind: TempKind, n: nat)

  datatype CExpr =
    | CLit(v: Val)
    | CVar(c: CName)
    | CNot(e: CExpr)
    | CNeg(e: CExpr)
    | CBin(op: BinOp, l: CExpr, r: CExpr)
    | CAnd(l: CExpr, r: CExpr)
    | COr(l: CExpr, r: CExpr)
    | CPay(tag: string, e: CExpr)
    | CCall(f: string, args: seq<CExpr>)
    | CPanic
    | CDecl(ann: Ann, e: CExpr)                           // range check of a declaration
    | CStore(slot: CName, aop: Option<BinOp>, e: CExpr)   // what `slot = e` or `slot op= e` stores
    | CBound(e: CExpr)                                    // conversion to a range bound
    | CEqInt(e: CExpr, i: int)
    | CEqBool(e: CExpr, b: bool)
    | CTagIs(e: CExpr, tag: string, payload: bool)
    | CPayload(e: CExpr)
    | CIsBad(e: CExpr)
    | CUnwrap(e: CExpr)

  datatype CStmt =
    | CVarDecl(c: CName, e: CExpr)
    | CSet(c: CName, e: CExpr)
    | CEval(e: CExpr)
    | CIf(cond: CExpr, thn: seq<CStmt>, els: seq<CStmt>)
    | CBraces(body: seq<CStmt>)
    | CWhile(cond: CExpr, body: seq<CStmt>)
    | CFor(c: CName, lo: CName, hi: CName, incl: bool, body: seq<CStmt>)
    | CReturn(val: Option<CExpr>)
    | CBreak
    | CContinue

  datatype CFn = CFn(params: seq<CName>, isVoid: bool, body: seq<CStmt>)

  datatype CProgram = CProgram(fns: map<string, CFn>, prims: Prims)

  type Scopes = seq<map<CName, Val>>

  datatype CVal = CIs(v: Val) | CHalts | CDries | CBad

  datatype COut = CNorm | CBrk | CCont | CRet(v: Val) | CHalt | CDry | CStuck

  datatype CRes = CRes(sc: Scopes, out: COut)

  function CFind(sc: Scopes, c: CName): Option<Val> {
    if sc == [] then None
    else if c in sc[0] then Some(sc[0][c])
    else CFind(sc[1..], c)
  }

  function CUpdate(sc: Scopes, c: CName, v: Val): (r: Scopes)
    ensures |r| == |sc|
  {
    if sc == [] then []
    else if c in sc[0] then [sc[0][c := v]] + sc[1..]
    else [sc[0]] + CUpdate(sc[1..], c, v)
  }

  function CPop(sc: Scopes): Scopes { if sc == [] then [] else sc[1..] }

  const HALF64 := 0x8000_0000_0000_0000

  /** C's conversion of a constant to `int64_t`. */
  function Signed64(i: int): int { (i + HALF64) % (2 * HALF64) - HALF64 }

  function OfOption(v: Option<Val>): CVal { if v.Some? then CIs(v.value) else CHalts }

  function Fails(v: CVal): COut
    requires !v.CIs?
  {
    match v
    case CHalts => CHalt
    case CDries => CDry
    case CBad => CStuck
  }

  function CValue(cp: CProgram, n: nat, sc: Scopes, e: CExpr): CVal
    decreases n, e, 1, 0
  {
    match e
    case CLit(v) => CIs(v)
    case CVar(c) => var v := CFind(sc, c); if v.Some? then CIs(v.value) else CBad
    case CNot(x) => var v := CValue(cp, n, sc, x); if !v.CIs? then v else CIs(BoolV(!Truthy(v.v)))
    case CNeg(x) => var v := CValue(cp, n, sc, x); if !v.CIs? then v else OfOption(cp.prims.neg(v.v))
    case CBin(op, x, y) =>
      var l := CValue(cp, n, sc, x);
      if !l.CIs? then l else
      var r := CValue(cp, n, sc, y);
      if !r.CIs? then r else OfOption(cp.prims.bin(op, l.v, r.v))
    case CAnd(x, y) =>
      var l := CValue(cp, n, sc, x);
      if !l.CIs? then l
      else if !Truthy(l.v) then CIs(BoolV(false))
      else var r := CValue(cp, n, sc, y); if !r.CIs? then r else CIs(BoolV(Truthy(r.v)))
    case COr(x, y) =>
      var l := CValue(cp, n, sc, x);
      if !l.CIs? then l
      else if Truthy(l.v) then CIs(BoolV(true))
      else var r := CValue(cp, n, sc, y); if !r.CIs? then r else CIs(BoolV(Truthy(r.v)))
    case CPay(tag, x) => var v := CValue(cp, n, sc, x); if !v.CIs? then v else CIs(PayV(tag, v.v))
    case CCall(f, args) =>
      if f !in cp.fns || |cp.fns[f].params| != |args| then CBad else
      var (vals, bad) := CArgs(cp, n, sc, e, 0);
      if !bad.CIs? then bad
      else if n == 0 then CDries
      else CRun(cp, n - 1, cp.fns[f], vals)
    case CPanic => CHalts
    case CDecl(ann, x) => var v := CValue(cp, n, sc, x); if !v.CIs? then v else OfOption(Adapt(cp.prims, ann, v.v))
    case CStore(slot, aop, x) =>
      var was := CFind(sc, slot);
      if was.None? then CBad else
      var v := CValue(cp, n, sc, x);
      if !v.CIs? then v else OfOption(Assigned(cp.prims, aop, was.value, v.v))
    case CBound(x) => var v := CValue(cp, n, sc, x); if !v.CIs? then v else CIs(CountV(cp.prims.bound(v.v)))
    case CEqInt(x, i) =>
      var v := CValue(cp, n, sc, x);
      if !v.CIs? then v else CIs(BoolV(IsInt(v.v) && v.v.i == Signed64(i)))
    case CEqBool(x, b) => var v := CValue(cp, n, sc, x); if !v.CIs? then v else CIs(BoolV(v.v == BoolV(b)))
    case CTagIs(x, tag, payload) =>
      var v := CValue(cp, n, sc, x);
      if !v.CIs? then v
      else CIs(BoolV(if payload then v.v.PayV? && v.v.tag == tag else v.v == UnitV(tag)))
    case CPayload(x) =>
      var v := CValue(cp, n, sc, x);
      if !v.CIs? then v else if v.v.PayV? then CIs(v.v.payload) else CBad
    case CIsBad(x) => var v := CValue(cp, n, sc, x); if !v.CIs? then v else CIs(BoolV(IsBad(v.v)))
    case CUnwrap(x) => var v := CValue(cp, n, sc, x); if !v.CIs? then v else CIs(Unwrap(v.v))
  }

  /** Arguments from `i` on, and `CIs` when all of them have values. */
  function CArgs(cp: CProgram, n: nat, sc: Scopes, e: CExpr, i: nat): (r: (seq<Val>, CVal))
    requires e.CCall? && i <= |e.args|
    ensures r.1.CIs? ==> |r.0| == |e.args| - i
    decreases n, e, 0, |e.args| - i
  {
    if i == |e.args| then ([], CIs(VoidV)) else
    var v := CValue(cp, n, sc, e.args[i]);
    if !v.CIs? then ([], v) else
    var (vals, bad) := CArgs(cp, n, sc, e, i + 1);
    ([v.v] + vals, bad)
  }

  /** Parameters and body share one scope. */
  function CRun(cp: CProgram, n: nat, f: CFn, vals: seq<Val>): CVal
    requires |vals| == |f.params|
    decreases n, f, 1, 0
  {
    match CExec(cp, n, [ParamScope(f.params, vals)], f.body).out
    case CNorm => if f.isVoid then CIs(VoidV) else CBad
    case CRet(v) => CIs(if f.isVoid then VoidV else v)
    case CHalt => CHalts
    case CDry => CDries
    case _ => CBad
  }

  function ParamScope(params: seq<CName>, vals: seq<Val>): map<CName, Val>
    requires |params| == |vals|
  {
    if params == [] then map[] else ParamScope(params[1..], vals[1..])[params[0] := vals[0]]
  }

  function CExec(cp: CProgram, n: nat, sc: Scopes, code: seq<CStmt>): (r: CRes)
    ensures |r.sc| == |sc|
    decreases n, code, 1, 0
  {
    if code == [] then CRes(sc, CNorm) else
    var r := CStep(cp, n, sc, code[0]);
    if r.out != CNorm then r else CExec(cp, n, r.sc, code[1..])
  }

  /** Statements between braces. */
  function CScoped(cp: CProgram, n: nat, sc: Scopes, code: seq<CStmt>): (r: CRes)
    ensures |r.sc| == |sc|
    decreases n, code, 2, 0
  {
    var r := CExec(cp, n, [map[]] + sc, code);
    CRes(CPop(r.sc), r.out)
  }

  function CStep(cp: CProgram, n: nat, sc: Scopes, s: CStmt): (r: CRes)
    ensures |r.sc| == |sc|
    decreases n, s, 1, 0
  {
    match s
    case CVarDecl(c, e) =>
      var v := CValue(cp, n, sc, e);
      if sc == [] || c in sc[0] then CRes(sc, CStuck)
      else if !v.CIs? then CRes(sc, Fails(v))
      else CRes([sc[0][c := v.v]] + sc[1..], CNorm)
    case CSet(c, e) =>
      var v := CValue(cp, n, sc, e);
      if CFind(sc, c).None? then CRes(sc, CStuck)
      else if !v.CIs? then CRes(sc, Fails(v))
      else CRes(CUpdate(sc, c, v.v), CNorm)
    case CEval(e) =>
      var v := CValue(cp, n, sc, e);
      CRes(sc, if v.CIs? then CNorm else Fails(v))
    case CIf(c, t, f) =>
      var v := CValue(cp, n, sc, c);
      if !v.CIs? then CRes(sc, Fails(v))
      else if Truthy(v.v) then CScoped(cp, n, sc, t)
      else CScoped(cp, n, sc, f)
    case CBraces(b) => CScoped(cp, n, sc, b)
    case CWhile(_, _) => CLoop(cp, n, sc, s)
    case CFor(c, lo, _, _, _) =>
      var a := CFind(sc, lo);
      if a.None? then CRes(sc, CStuck) else
      var r := CRange(cp, n, [map[c := a.value]] + sc, s);
      CRes(CPop(r.sc), r.out)
    case CReturn(None) => CRes(sc, CRet(VoidV))
    case CReturn(Some(e)) =>
      var v := CValue(cp, n, sc, e);
      CRes(sc, if v.CIs? then CRet(v.v) else Fails(v))
    case CBreak => CRes(sc, CBrk)
    case CContinue => CRes(sc, CCont)
  }

  function CLoop(cp: CProgram, n: nat, sc: Scopes, s: CStmt): (r: CRes)
    requires s.CWhile?
    ensures |r.sc| == |sc|
    decreases n, s, 0, 0
  {
    var v := CValue(cp, n, sc, s.cond);
    if !v.CIs? then CRes(sc, Fails(v))
    else if !Truthy(v.v) then CRes(sc, CNorm)
    else
      var r := CScoped(cp, n, sc, s.body);
      match r.out
      case CBrk => CRes(r.sc, CNorm)
      case CNorm => if n == 0 then CRes(r.sc, CDry) else CLoop(cp, n - 1, r.sc, s)
      case CCont => if n == 0 then CRes(r.sc, CDry) else CLoop(cp, n - 1, r.sc, s)
      case _ => r
  }

  /** Iterations of `for (c = lo; c < hi; c++)`: the test reads both variables
      again every time, the step adds one to whatever `c` holds. */
  function CRange(cp: CProgram, n: nat, sc: Scopes, s: CStmt): (r: CRes)
    requires s.CFor?
    ensures |r.sc| == |sc|
    decreases n, s, 0, 0
  {
    var cur, hi := CFind(sc, s.c), CFind(sc, s.hi);
    if cur.None? || hi.None? || !IsInt(cur.value) || !IsInt(hi.value) then CRes(sc, CStuck)
    else if !InRange(cur.value.i, hi.value.i, s.incl) then CRes(sc, CNorm)
    else
      var r := CScoped(cp, n, sc, s.body);
      match r.out
      case CBrk => CRes(r.sc, CNorm)
      case CNorm => if n == 0 then CRes(r.sc, CDry) else CRange(cp, n - 1, Bumped(r.sc, s.c), s)
      case CCont => if n == 0 then CRes(r.sc, CDry) else CRange(cp, n - 1, Bumped(r.sc, s.c), s)
      case _ => r
  }

  function Bumped(sc: Scopes, c: CName): (r: Scopes)
    ensures |r| == |sc|
  {
    var v := CFind(sc, c);
    if v.Some? && IsInt(v.value) then CUpdate(sc, c, CountV(v.value.i + 1)) else sc
  }
}
