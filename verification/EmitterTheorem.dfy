/** The emitter preserves meaning: a call of an emitted function computes what the
    interpreter computes for the function it was emitted from. */
module EmitterTheorem {
  import opened Options
  import opened Syntax
  import opened Names
  import opened Structured
  import opened CLang
  import opened Lower
  import opened Rules
  import opened SimBase
  import opened SimExprs
  import opened Simulation
  import F = FlagInterp
  import FlagTheorem

  ghost predicate Setting(p: Program, cp: CProgram) {
    IsEmission(p, cp) && GoodProgram(p) && OkProgram(p)
  }

  /** Parameters: both sides check and bind them in order. */
  lemma {:induction false} SimParams(
      p: Program, cp: CProgram, n: nat, f: Fn, vals: seq<Val>, i: nat, m: Frame,
      scope: map<CName, Val>, rest: seq<CStmt>) returns (scope': map<CName, Val>)
    requires cp.prims == p.prims && |vals| == |f.params| && i <= |vals|
    requires DistinctFrom(f, i) && m.Keys !! ParamsFrom(f, i) && m.Keys + ParamsFrom(f, i) == ParamNames(f)
    requires Agree(m.Keys, [m], [scope])
    requires forall c :: c in scope ==> (c.Par? || (c.Src? && c.x in m))
    requires forall j :: 0 <= j < |vals| ==> Par(f.params[j].x) in scope && scope[Par(f.params[j].x)] == vals[j]
    ensures var r := BindParams(p.prims, m, f, vals, i);
      if r.None? then CExec(cp, n, [scope], LParams(f, i) + rest).out == CHalt
      else
        && Agree(ParamNames(f), [r.value], [scope'])
        && (forall c :: c in scope' ==> (c.Par? || (c.Src? && c.x in ParamNames(f))))
        && CExec(cp, n, [scope], LParams(f, i) + rest) == CExec(cp, n, [scope'], rest)
    decreases |vals| - i
  {
    if i == |vals| {
      assert LParams(f, i) + rest == rest;
      scope' := scope;
    } else {
      var x, ann := f.params[i].x, f.params[i].ann;
      var arg := CVar(Par(x));
      var s := CVarDecl(Src(x), if ann.IntTy? then CExpr.CDecl(ann, arg) else arg);
      assert LParams(f, i) + rest == [s] + (LParams(f, i + 1) + rest);
      ExecCons(cp, n, [scope], s, LParams(f, i + 1) + rest);
      assert CFind([scope], Par(x)) == Some(vals[i]);
      assert CValue(cp, n, [scope], arg) == CIs(vals[i]);
      assert Src(x) !in scope;
      var a := Adapt(p.prims, ann, vals[i]);
      if a.Some? {
        BindAgree(m.Keys, [m], [scope], x, a.value);
        var m', k := m[x := a.value], scope[Src(x) := a.value];
        assert Declare([m], x, a.value) == [m'];
        assert Bound([scope], Src(x), a.value) == [k];
        assert m'.Keys == m.Keys + {x};
        scope' := SimParams(p, cp, n, f, vals, i + 1, m', k, rest);
      } else {
        scope' := scope;
      }
    }
  }

  /** The arguments arrive under the parameters' own names. */
  lemma {:induction false} ParamsArrive(f: Fn, vals: seq<Val>, i: nat)
    requires |vals| == |f.params| && i <= |vals| && DistinctFrom(f, i)
    ensures var scope := ParamScope(LParamNames(f)[i..], vals[i..]);
      && (forall c :: c in scope ==> c.Par? && c.x in ParamsFrom(f, i))
      && forall j :: i <= j < |vals| ==> Par(f.params[j].x) in scope && scope[Par(f.params[j].x)] == vals[j]
    decreases |vals| - i
  {
    if i < |vals| {
      assert LParamNames(f)[i..][1..] == LParamNames(f)[i + 1..] && vals[i..][1..] == vals[i + 1..];
      ParamsArrive(f, vals, i + 1);
    }
  }

  /** What a call does before the body runs. */
  lemma {:induction false} EnterFn(p: Program, cp: CProgram, n: nat, name: string, t: nat, vals: seq<Val>)
    returns (scope': map<CName, Val>)
    requires Setting(p, cp) && name in p.fns && |vals| == |p.fns[name].params|
    requires LFn(p, p.fns[name], t) == Some(cp.fns[name])
    ensures |cp.fns[name].params| == |vals| && cp.fns[name].isVoid == p.fns[name].isVoid
    ensures LBlock(p, p.fns[name].isVoid, ParamNames(p.fns[name]), t, p.fns[name].body).Some?
    ensures var f, cf := p.fns[name], cp.fns[name];
      var body := LBlock(p, f.isVoid, ParamNames(f), t, f.body).value.code;
      var m, c := BindParams(p.prims, map[], f, vals, 0), CExec(cp, n, [ParamScope(cf.params, vals)], cf.body);
      if m.None? then c.out == CHalt
      else
        && Ready(ParamNames(f), t, [m.value], [scope'], BlockNames(f.body, false))
        && c == CExec(cp, n, [scope'], body)
  {
    var f, cf := p.fns[name], cp.fns[name];
    ParamsArrive(f, vals, 0);
    assert LParamNames(f)[0..] == LParamNames(f) && vals[0..] == vals;
    scope' := SimParams(p, cp, n, f, vals, 0, map[], ParamScope(cf.params, vals),
                        LBlock(p, f.isVoid, ParamNames(f), t, f.body).value.code);
  }

  /** From how the bodies end to what the calls give. */
  lemma CallEnds(p: Program, cp: CProgram, n: nat, f: Fn, cf: CFn, vals: seq<Val>)
    requires |vals| == |f.params| == |cf.params| && f.isVoid == cf.isVoid
    requires var m, c := BindParams(p.prims, map[], f, vals, 0),
      CExec(cp, n, [ParamScope(cf.params, vals)], cf.body).out;
      if m.None? then c == CHalt
      else
        var a := SBlock(p, n, [m.value], f.body).out;
        Ends(f.isVoid, a, c) && !a.Brk? && !a.Cont? && (a.Norm? ==> f.isVoid)
    ensures DropIs(SCall(p, n, f, vals), CRun(cp, n, cf, vals))
    ensures !f.isVoid ==> ValueIs(SCall(p, n, f, vals), CRun(cp, n, cf, vals))
  {
  }

  /** The body runs to the same end, and only a function without a value runs off it. */
  lemma BodyEnds(
      p: Program, cp: CProgram, n: nat, f: Fn, t: nat, loc: Frames, sc: Scopes)
    requires CallsBelow(p, cp, n) && OkProgram(p) && OkBlock(f.body, true, false) && GoodFn(p, f)
    requires LBlock(p, f.isVoid, ParamNames(f), t, f.body).Some?
    requires Ready(ParamNames(f), t, loc, sc, BlockNames(f.body, false))
    ensures var a := SBlock(p, n, loc, f.body).out;
      && Ends(f.isVoid, a, CExec(cp, n, sc, LBlock(p, f.isVoid, ParamNames(f), t, f.body).value.code).out)
      && !a.Brk? && !a.Cont?
      && (a.Norm? ==> f.isVoid)
  {
    SimBlock(p, cp, f.isVoid, n, ParamNames(f), t, loc, sc, f.body);
    FlagTheorem.BlockAgrees(p, n, F.State(loc + [], false, VoidV, false, false), loc, [], f.body, true, false);
    if !f.isVoid {
      DivertingBlock(p, n, loc, f.body);
    }
  }

  lemma OneCallAgrees(p: Program, cp: CProgram, n: nat, name: string, vals: seq<Val>)
    requires Setting(p, cp) && CallsBelow(p, cp, n) && name in p.fns && |vals| == |p.fns[name].params|
    ensures CallAgrees(p, cp, n, name, vals)
  {
    var f := p.fns[name];
    var t :| LFn(p, f, t) == Some(cp.fns[name]);
    var scope' := EnterFn(p, cp, n, name, t, vals);
    var m := BindParams(p.prims, map[], f, vals, 0);
    if m.Some? {
      BodyEnds(p, cp, n, f, t, [m.value], [scope']);
    }
    CallEnds(p, cp, n, f, cp.fns[name], vals);
  }

  /** Every call agrees, however much is left to run: by induction on that. */
  lemma {:induction false} CallsAgree(p: Program, cp: CProgram, n: nat)
    requires Setting(p, cp)
    ensures CallsBelow(p, cp, n)
  {
    forall f | f in p.fns ensures |cp.fns[f].params| == |p.fns[f].params| {
      var t :| LFn(p, p.fns[f], t) == Some(cp.fns[f]);
    }
    if n > 0 {
      CallsAgree(p, cp, n - 1);
      forall k: nat, f, vals | k < n && f in p.fns && |vals| == |p.fns[f].params|
        ensures CallAgrees(p, cp, k, f, vals)
      {
        if k == n - 1 {
          OneCallAgrees(p, cp, k, f, vals);
        }
      }
    }
  }

  /** The main result. A program that passes the checker and keeps to the rules is
      emitted to C that is never stuck, and whose functions, called with any
      arguments, halt, run on or return exactly when the interpreter does, from any
      calm state and over any caller's frames, and return the same value. */
  lemma EmittedCodeMeansTheSame(
      p: Program, cp: CProgram, n: nat, s: F.State, name: string, vals: seq<Val>)
    requires Setting(p, cp) && name in p.fns && |vals| == |p.fns[name].params| && s.Calm()
    ensures |cp.fns[name].params| == |vals|
    ensures var i, c := F.FCall(p, n, s, p.fns[name], vals), CRun(cp, n, cp.fns[name], vals);
      match c
      case CIs(v) => i.Go? && i.s == s && (p.fns[name].isVoid || i.v == v)
      case CHalts => i == F.Stop
      case CDries => i == F.Dry
      case CBad => false
  {
    CallsAgree(p, cp, n + 1);
    assert CallAgrees(p, cp, n, name, vals);
    FlagTheorem.BodyAgrees(p, n, s, p.fns[name], vals);
  }
}
