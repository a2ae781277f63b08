/** What the constructs of the language mean, said of the interpreter from the
    outside: by the values that go in and come out. The last section says the same
    of `?` in emitted code, where the other laws arrive through the emitter's
    theorem. */
module Meaning {
  import opened Options
  import opened Syntax
  import opened FlagInterp
  import opened CLang
  import opened Lower
  import opened SimBase

  // ---------- ? ----------

  /** `e?` takes the payload out of `Some` and `Ok`. */
  lemma {:induction false} TryUnwraps(p: Program, n: nat, s: State, e: Expr, x: Val)
    requires var r := FExpr(p, n, s, e); r.Go? && (r.v == PayV("Some", x) || r.v == PayV("Ok", x))
    ensures FExpr(p, n, s, Try(e)) == Go(FExpr(p, n, s, e).s, x)
  {
    hide FArgs, FArms, FCall, FBlock, FStmts, FStmt;
  }

  /** The values that leave a function. */
  ghost predicate Leaves(v: Val) { v == UnitV("None") || exists x :: v == PayV("Err", x) }

  /** `e?` gives `None` and `Err` as they are, with a return of them pending. */
  lemma {:induction false} TryReturns(p: Program, n: nat, s: State, e: Expr)
    requires FExpr(p, n, s, e).Go? && Leaves(FExpr(p, n, s, e).v)
    ensures var r := FExpr(p, n, s, e);
      FExpr(p, n, s, Try(e)) == Go(r.s.(hasRet := true, ret := r.v), r.v)
  {
    hide FArgs, FArms, FCall, FBlock, FStmts, FStmt;
  }

  /** The state in which the body of `fn f() { … }` starts. */
  function Inside(s: State): State { s.(fr := [map[], map[]] + s.fr, hasRet := false) }

  /** In a function that starts with `let x = e?`, or is `return e?`, a call returns
      the `None` or `Err` at once; else `x` has the payload in the rest of the body,
      or the payload is returned. */
  lemma {:induction false} TryInCall(
      p: Program, n: nat, s: State, x: string, e: Expr, rest: seq<Stmt>, tail: Option<Expr>, y: Val)
    requires s.Calm() && FExpr(p, n, Inside(s), e).Go? && FExpr(p, n, Inside(s), e).s.Calm()
    ensures
      var r := FExpr(p, n, Inside(s), e);
      var letting := Fn([], false, Block([Let(Some(x), Bare, Try(e))] + rest, tail));
      var returning := Fn([], false, Block([Return(Some(Try(e)))], None));
      && (Leaves(r.v) ==>
        && FCall(p, n, s, letting, []) == Go(s.(fr := r.s.fr[2..]), r.v)
        && FCall(p, n, s, returning, []) == Go(s.(fr := r.s.fr[2..]), r.v))
      && (r.v == PayV("Some", y) || r.v == PayV("Ok", y) ==>
        && FStmt(p, n, Inside(s), Let(Some(x), Bare, Try(e))) == Go(r.s.(fr := Declare(r.s.fr, x, y)), VoidV)
        && FCall(p, n, s, returning, []) == Go(s.(fr := r.s.fr[2..]), y))
  {
    hide FArgs, FArms, FWhile, FFor;
    var r := FExpr(p, n, Inside(s), e);
    var let_, ret := Let(Some(x), Bare, Try(e)), Return(Some(Try(e)));
    var b0, b1 := Block([let_] + rest, tail), Block([ret], None);
    assert [map[]] + ([map[]] + s.fr) == [map[], map[]] + s.fr;
    assert Pushed(Pushed(s, map[]).(hasRet := false), map[]) == Inside(s);
    assert b0.stmts[0] == let_ && b1.stmts[0] == ret;
    assert r.s.fr[1..][1..] == r.s.fr[2..];
    assert FExpr(p, n, Inside(s), Try(e)).Go? && FStmt(p, n, Inside(s), ret).Go?;
    assert FStmts(p, n, Inside(s), b1, 0) == FStmts(p, n, FStmt(p, n, Inside(s), ret).s, b1, 1);
    if Leaves(r.v) {
      TryReturns(p, n, Inside(s), e);
      var s1 := FStmt(p, n, Inside(s), let_).s;
      assert s1 == r.s.(hasRet := true, ret := r.v, fr := Declare(r.s.fr, x, r.v));
      assert FStmts(p, n, Inside(s), b0, 0) == FStmts(p, n, s1, b0, 1) == Go(s1, VoidV);
    }
  }

  // ---------- Operators and choices ----------

  /** Where a condition is asked for, `false` and 0 do not hold, and all else does. */
  predicate Holds(v: Val) { v != BoolV(false) && v != IntV(0) && v != CountV(0) }

  lemma {:induction false} NotMeans(p: Program, n: nat, s: State, x: Expr, a: bool)
    requires var l := FExpr(p, n, s, x); l.Go? && Holds(l.v) == a
    ensures FExpr(p, n, s, Not(x)) == Go(FExpr(p, n, s, x).s, BoolV(!a))
  {
    hide FArgs, FArms, FCall, FBlock, FStmts, FStmt;
  }

  /** The right operand is looked at only where it decides. */
  lemma {:induction false} AndMeans(p: Program, n: nat, s: State, x: Expr, y: Expr, a: bool, b: bool)
    requires var l := FExpr(p, n, s, x); l.Go? && Holds(l.v) == a
    ensures
      var s' := FExpr(p, n, s, x).s;
      var r := FExpr(p, n, s', y);
      && (!a ==> FExpr(p, n, s, AndAlso(x, y)) == Go(s', BoolV(false)))
      && (a && r.Go? && Holds(r.v) == b ==> FExpr(p, n, s, AndAlso(x, y)) == Go(r.s, BoolV(b)))
  {
    hide FArgs, FArms, FCall, FBlock, FStmts, FStmt;
  }

  lemma {:induction false} OrMeans(p: Program, n: nat, s: State, x: Expr, y: Expr, a: bool, b: bool)
    requires var l := FExpr(p, n, s, x); l.Go? && Holds(l.v) == a
    ensures
      var s' := FExpr(p, n, s, x).s;
      var r := FExpr(p, n, s', y);
      && (a ==> FExpr(p, n, s, OrElse(x, y)) == Go(s', BoolV(true)))
      && (!a && r.Go? && Holds(r.v) == b ==> FExpr(p, n, s, OrElse(x, y)) == Go(r.s, BoolV(b)))
  {
    hide FArgs, FArms, FCall, FBlock, FStmts, FStmt;
    var l := FExpr(p, n, s, x);
    var r := FExpr(p, n, l.s, y);
    OrUnfolds(p, n, s, x, y);
    hide FExpr;
    assert Truthy(l.v) == a && (r.Go? && Holds(r.v) == b ==> Truthy(r.v) == b);
  }

  lemma {:induction false} OrUnfolds(p: Program, n: nat, s: State, x: Expr, y: Expr)
    requires FExpr(p, n, s, x).Go?
    ensures
      var l := FExpr(p, n, s, x);
      var r := FExpr(p, n, l.s, y);
      FExpr(p, n, s, OrElse(x, y)) ==
        if Truthy(l.v) then Go(l.s, BoolV(true)) else if !r.Go? then r else Go(r.s, BoolV(Truthy(r.v)))
  {
    hide FArgs, FArms, FCall, FBlock, FStmts, FStmt, Truthy;
  }

  lemma {:induction false} IfChooses(p: Program, n: nat, s: State, c: Expr, t: Block, f: Expr, b: bool)
    requires var r := FExpr(p, n, s, c); r.Go? && Holds(r.v) == b
    ensures
      var s' := FExpr(p, n, s, c).s;
      && FExpr(p, n, s, If(c, t, Some(f))) == (if b then FExpr(p, n, s', BlockE(t)) else FExpr(p, n, s', f))
      && FExpr(p, n, s, If(c, t, None)) == if b then FExpr(p, n, s', BlockE(t)) else Go(s', VoidV)
  {
    hide FArgs, FArms, FCall, FBlock, FStmts, FStmt;
  }

  lemma {:induction false} WhileRepeats(p: Program, n: nat, s: State, c: Expr, body: Block, b: bool)
    requires s.Calm() && var r := FExpr(p, n, s, c); r.Go? && Holds(r.v) == b && r.s.Calm()
    ensures
      var s' := FExpr(p, n, s, c).s;
      var loop, once := While(c, body), FExpr(p, n, s', BlockE(body));
      && (!b ==> FStmt(p, n, s, loop) == Go(s', VoidV))
      && (b && once.Go? && n > 0 ==>
           var s2 := once.s;
           && (s2.hasBrk && !s2.hasRet ==> FStmt(p, n, s, loop) == Go(s2.(hasBrk := false, hasCont := false), VoidV))
           && (!s2.hasBrk && !s2.hasRet ==> FStmt(p, n, s, loop) == FStmt(p, n - 1, s2.(hasCont := false), loop))
           && (s2.hasRet ==> FStmt(p, n, s, loop) == Go(s2.(hasBrk := false, hasCont := false), VoidV)))
  {
    hide FArgs, FArms, FCall, FBlock, FStmts, FFor;
  }

  // ---------- match ----------

  /** What `match v { pat => body, _ => other }` comes to, by whether `pat` fits. */
  ghost predicate Chooses(
      p: Program, n: nat, s: State, e: Expr, pat: Pat, body: Expr, other: Expr, m: Frame, fits: bool)
    requires FExpr(p, n, s, e).Go?
  {
    var s' := FExpr(p, n, s, e).s;
    var arms := [Arm(pat, None, body), Arm(Wild, None, other)];
    var taken := FExpr(p, n, s'.(fr := [if fits then m else map[]] + s'.fr), if fits then body else other);
    FExpr(p, n, s, Match(e, arms)) ==
      if taken.Go? then Go(taken.s.(fr := if taken.s.fr == [] then [] else taken.s.fr[1..]), taken.v) else taken
  }

  lemma {:induction false} MatchStep(p: Program, n: nat, s: State, e: Expr, pat: Pat, body: Expr, other: Expr)
    requires FExpr(p, n, s, e).Go?
    ensures
      var b := PatBind(pat, FExpr(p, n, s, e).v);
      Chooses(p, n, s, e, pat, body, other, if b.Some? then b.value else map[], b.Some?)
  {
    var r := FExpr(p, n, s, e);
    var all := Match(e, [Arm(pat, None, body), Arm(Wild, None, other)]);
    var b := PatBind(pat, r.v);
    if b.Some? {
      ArmRuns(p, n, r.s, all, r.v, 0, b.value);
    } else {
      assert FArms(p, n, r.s, all, r.v, 0) == FArms(p, n, r.s, all, r.v, 1);
      ArmRuns(p, n, r.s, all, r.v, 1, map[]);
    }
  }

  lemma {:induction false} ArmRuns(p: Program, n: nat, s: State, e: Expr, v: Val, i: nat, m: Frame)
    requires e.Match? && i < |e.arms| && e.arms[i].guard.None? && PatBind(e.arms[i].pat, v) == Some(m)
    ensures
      var taken := FExpr(p, n, s.(fr := [m] + s.fr), e.arms[i].body);
      FArms(p, n, s, e, v, i) ==
        if taken.Go? then Go(taken.s.(fr := if taken.s.fr == [] then [] else taken.s.fr[1..]), taken.v) else taken
  {
    hide FExpr;
    assert FGuard(p, n, Pushed(s, m), e.arms[i]) == Go(Pushed(s, m), BoolV(true));
  }

  /** Names fit everything and are bound to it; literals and tags fit themselves
      alone; a payload pattern looks at the payload of its own tag. */
  lemma {:induction false} PatternsFit(p: Program, n: nat, s: State, e: Expr, pat: Pat, body: Expr, other: Expr)
    requires FExpr(p, n, s, e).Go?
    ensures
      var v := FExpr(p, n, s, e).v;
      match pat
      case Wild => Chooses(p, n, s, e, pat, body, other, map[], true)
      case Bind(x) => Chooses(p, n, s, e, pat, body, other, map[x := v], true)
      case LitInt(i) => Chooses(p, n, s, e, pat, body, other, map[], v == IntV(i) || v == CountV(i))
      case LitBool(b) => Chooses(p, n, s, e, pat, body, other, map[], v == BoolV(b))
      case UnitP(tag) => Chooses(p, n, s, e, pat, body, other, map[], v == UnitV(tag))
      case PayP(tag, Bind(x)) =>
        if v.PayV? && v.tag == tag then Chooses(p, n, s, e, pat, body, other, map[x := v.payload], true)
        else Chooses(p, n, s, e, pat, body, other, map[], false)
      case PayP(tag, LitInt(i)) =>
        Chooses(p, n, s, e, pat, body, other, map[], v == PayV(tag, IntV(i)) || v == PayV(tag, CountV(i)))
      case PayP(tag, UnitP(t)) => Chooses(p, n, s, e, pat, body, other, map[], v == PayV(tag, UnitV(t)))
      case PayP(_, _) => true
  {
    hide FExpr;
    MatchStep(p, n, s, e, pat, body, other);
  }

  // ---------- Names ----------

  /** `{ let x = e; x }` is `e`, and `x` is gone behind it. */
  lemma {:induction false} LetBinds(p: Program, n: nat, s: State, x: string, e: Expr)
    requires s.Calm() && FExpr(p, n, s.(fr := [map[]] + s.fr), e).Go?
    requires FExpr(p, n, s.(fr := [map[]] + s.fr), e).s.Calm()
    ensures
      var r := FExpr(p, n, s.(fr := [map[]] + s.fr), e);
      FExpr(p, n, s, BlockE(Block([Let(Some(x), Bare, e)], Some(Var(x))))) == Go(r.s.(fr := r.s.fr[1..]), r.v)
  {
    var b := Block([Let(Some(x), Bare, e)], Some(Var(x)));
    var s1 := s.(fr := [map[]] + s.fr);
    var r := FExpr(p, n, s1, e);
    var s2 := r.s.(fr := Declare(r.s.fr, x, r.v));
    assert FStmt(p, n, s1, b.stmts[0]) == Go(s2, VoidV);
    assert FStmts(p, n, s1, b, 0) == FStmts(p, n, s2, b, 1) == Go(s2, VoidV);
    assert s2.fr[1..] == r.s.fr[1..] && s2.Calm();
    assert FExpr(p, n, s2, Var(x)) == Go(s2, r.v);
    assert FBlock(p, n, s, b) == Go(Popped(s2), r.v);
  }

  /** A name is looked up from the innermost frame outwards, and set where it is
      found. */
  lemma {:induction false} NamesNest(
      p: Program, n: nat, s: State, inner: Frames, m: Frame, outer: Frames, x: string, v: Val)
    requires s.fr == inner + [m] + outer && x in m && forall k :: 0 <= k < |inner| ==> x !in inner[k]
    ensures FExpr(p, n, s, Var(x)) == Go(s, m[x])
    ensures
      var r := FStmt(p, n, s, Assign(x, None, Lit(v)));
      var a := p.prims.store(m[x], v);
      r == if a.None? then Stop else Go(s.(fr := inner + [m[x := a.value]] + outer), VoidV)
    ensures FStmt(p, n, s, Let(Some(x), Bare, Lit(v))) == Go(s.(fr := [s.fr[0][x := v]] + s.fr[1..]), VoidV)
  {
    FindNested(inner, m, outer, x, v);
    var a := p.prims.store(m[x], v);
    if a.Some? {
      FindNested(inner, m, outer, x, a.value);
    }
  }

  lemma {:induction false} FindNested(inner: Frames, m: Frame, outer: Frames, x: string, v: Val)
    requires x in m && forall k :: 0 <= k < |inner| ==> x !in inner[k]
    ensures Find(inner + [m] + outer, x) == Some(m[x])
    ensures Set(inner + [m] + outer, x, v) == inner + [m[x := v]] + outer
  {
    var all := inner + [m] + outer;
    if inner == [] {
      assert all == [m] + outer && all[1..] == outer;
    } else {
      assert all[0] == inner[0] && all[1..] == inner[1..] + [m] + outer;
      FindNested(inner[1..], m, outer, x, v);
      OneDeeper(all, inner[0], inner[1..] + [m] + outer, inner[1..] + [m[x := v]] + outer, x, v);
      assert [inner[0]] + (inner[1..] + [m[x := v]] + outer) == inner + [m[x := v]] + outer;
    }
  }

  lemma {:induction false} OneDeeper(all: Frames, top: Frame, rest: Frames, set_: Frames, x: string, v: Val)
    requires all == [top] + rest && x !in top && Set(rest, x, v) == set_
    ensures Find(all, x) == Find(rest, x) && Set(all, x, v) == [top] + set_
  {
    assert all[1..] == rest;
  }

  // ---------- Calls ----------

  /** `fn f(x0, …) { xk }` gives its `k`-th argument, as far as the parameters'
      annotations let it through. */
  lemma {:induction false} ArgumentsArrive(p: Program, n: nat, s: State, f: Fn, vals: seq<Val>, k: nat)
    requires |vals| == |f.params| && k < |vals| && f.body == Block([], Some(Var(f.params[k].x))) && s.Calm()
    requires forall i :: k < i < |vals| ==> f.params[i].x != f.params[k].x
    requires forall i :: 0 <= i < |vals| ==> !f.params[i].ann.IntTy?
    ensures FCall(p, n, s, f, vals) == Go(s, vals[k])
  {
    ParamsBound(p.prims, map[], f, vals, 0, k);
    var m := BindParams(p.prims, map[], f, vals, 0).value;
    var s1 := Pushed(s, m).(hasRet := false);
    assert FStmts(p, n, Pushed(s1, map[]), f.body, 0) == Go(Pushed(s1, map[]), VoidV);
    assert ([map[]] + s1.fr)[1..] == s1.fr && ([m] + s.fr)[1..] == s.fr;
    assert Find([map[]] + s1.fr, f.params[k].x) == Find(s1.fr, f.params[k].x) == Some(vals[k]);
    assert FExpr(p, n, Pushed(s1, map[]), Var(f.params[k].x)) == Go(Pushed(s1, map[]), vals[k]);
    assert FBlock(p, n, s1, f.body) == Go(s1, vals[k]);
  }

  lemma {:induction false} ParamsBound(pr: Prims, m: Frame, f: Fn, vals: seq<Val>, i: nat, k: nat)
    requires |vals| == |f.params| && i <= |vals| && k < |vals|
    requires forall j :: k < j < |vals| ==> f.params[j].x != f.params[k].x
    requires forall j :: 0 <= j < |vals| ==> !f.params[j].ann.IntTy?
    requires k < i ==> f.params[k].x in m && m[f.params[k].x] == vals[k]
    ensures
      var r := BindParams(pr, m, f, vals, i);
      r.Some? && f.params[k].x in r.value && r.value[f.params[k].x] == vals[k]
    decreases |vals| - i
  {
    if i < |vals| {
      ParamsBound(pr, m[f.params[i].x := vals[i]], f, vals, i + 1, k);
    }
  }

  // ---------- Ranges ----------

  /** `for i in a..b { acc += i }`, or `..=` */
  function Summing(a: int, b: int, incl: bool): Stmt {
    For(Some("i"), Lit(IntV(a)), Lit(IntV(b)), incl, Block([Assign("acc", Some(Add), Var("i"))], None))
  }

  /** Sums do not overflow, and bounds are what they are. */
  ghost predicate Adds(pr: Prims) {
    && (forall i, j :: pr.compound(Add, IntV(i), CountV(j)) == Some(IntV(i + j)))
    && (forall i :: pr.bound(IntV(i)) == i)
  }

  /** The numbers from `a` up to `b`, with or without `b`, are added, each once. */
  lemma {:induction false} RangesCount(
      p: Program, n: nat, s: State, m: Frame, outer: Frames, acc: int, a: int, b: int, incl: bool)
    requires Adds(p.prims) && s.Calm() && s.fr == [m] + outer && "acc" in m && m["acc"] == IntV(acc)
    requires a <= b < a + n
    ensures
      var sum := if incl then (a + b) * (b - a + 1) else (a + b - 1) * (b - a);
      FStmt(p, n, s, Summing(a, b, incl)) == Go(s.(fr := [m["acc" := IntV(acc + sum / 2)]] + outer), VoidV)
  {
    var top: Frame := map["i" := CountV(0)];
    var s1, last := Pushed(s, top), if incl then b else b - 1;
    var sum := SumFrom(p, n, s1, top, m, outer, acc, a, b, Summing(a, b, incl), last);
    assert s1.fr == [top, m] + outer;
    var r := FFor(p, n, s1, Summing(a, b, incl), a, b);
    assert r.s.fr[1..] == [m["acc" := IntV(acc + sum)]] + outer;
    assert FExpr(p, n, s, Lit(IntV(a))) == Go(s, IntV(a)) && FExpr(p, n, s, Lit(IntV(b))) == Go(s, IntV(b));
  }

  /** The passes from `cur` to `last`. */
  lemma {:induction false} SumFrom(
      p: Program, n: nat, s: State, top: Frame, m: Frame, outer: Frames, acc: int, cur: int, hi: int, loop: Stmt,
      last: int) returns (sum: int)
    requires Adds(p.prims) && s.Calm() && s.fr == [top, m] + outer && "acc" in m && m["acc"] == IntV(acc)
    requires top.Keys == {"i"} && loop.For? && loop.name == Some("i") && loop.body == Summing(0, 0, true).body
    requires last == (if loop.incl then hi else hi - 1) && cur <= last + 1 && last < cur + n
    ensures 2 * sum == (cur + last) * (last - cur + 1)
    ensures
      var r := FFor(p, n, s, loop, cur, hi);
      && r.Go? && |r.s.fr| == 2 + |outer|
      && r.s == s.(fr := [r.s.fr[0], m["acc" := IntV(acc + sum)]] + outer)
    decreases n
  {
    PassUnfolds(p, n, s, loop, cur, hi);
    hide FFor, FBlock, Adds, Summing;
    if cur == last + 1 {
      sum := 0;
      assert m["acc" := IntV(acc)] == m;
      assert 2 * sum == (cur + last) * 0;
    } else {
      var top', m' := top["i" := CountV(cur)], m["acc" := IntV(acc + cur)];
      var s1, s2 := s.(fr := [top', m] + outer), s.(fr := [top', m'] + outer);
      assert Declare(s.fr, "i", CountV(cur)) == s1.fr;
      OnePass(p, n, s1, top', m, outer, acc, cur, loop.body);
      var rest := SumFrom(p, n - 1, s2, top', m', outer, acc + cur, cur + 1, hi, loop, last);
      sum := cur + rest;
      assert m'["acc" := IntV(acc + cur + rest)] == m["acc" := IntV(acc + sum)];
      SumStep(cur, last);
    }
  }

  lemma {:induction false} PassUnfolds(p: Program, n: nat, s: State, loop: Stmt, cur: int, hi: int)
    requires loop.For? && loop.name == Some("i") && s.fr != []
    ensures
      var s' := s.(fr := Declare(s.fr, "i", CountV(cur)));
      var r := FBlock(p, n, s', loop.body);
      if !(if loop.incl then cur <= hi else cur < hi) then FFor(p, n, s, loop, cur, hi) == Go(s, VoidV)
      else r.Go? && r.s.Calm() && n > 0 ==> FFor(p, n, s, loop, cur, hi) == FFor(p, n - 1, r.s, loop, cur + 1, hi)
  {
    hide FBlock, Declare;
  }

  lemma {:induction false} SumStep(cur: int, last: int)
    ensures (cur + last) * (last - cur + 1) == 2 * cur + (cur + 1 + last) * (last - cur)
  {
    var d := last - cur;
    assert (cur + last) * (d + 1) == (cur + last) * d + cur + last;
    assert (cur + 1 + last) * d == (cur + last) * d + d;
  }

  lemma {:induction false} OnePass(
      p: Program, n: nat, s: State, top: Frame, m: Frame, outer: Frames, acc: int, cur: int, body: Block)
    requires Adds(p.prims) && s.Calm() && s.fr == [top, m] + outer && "acc" in m && m["acc"] == IntV(acc)
    requires top.Keys == {"i"} && top["i"] == CountV(cur) && body == Summing(0, 0, true).body
    ensures FBlock(p, n, s, body) == Go(s.(fr := [top, m["acc" := IntV(acc + cur)]] + outer), VoidV)
  {
    var st := body.stmts[0];
    var e: Frame := map[];
    var s1 := Pushed(s, e);
    var m' := m["acc" := IntV(acc + cur)];
    assert s1.fr == [e, top] + [m] + outer == [e] + [top] + ([m] + outer);
    FindNested([e, top], m, outer, "acc", IntV(acc + cur));
    FindNested([e], top, [m] + outer, "i", IntV(0));
    var s2 := s1.(fr := [e, top] + [m'] + outer);
    assert FExpr(p, n, s1, Var("i")) == Go(s1, CountV(cur));
    assert FStmt(p, n, s1, st) == Go(s2, VoidV);
    assert FStmts(p, n, s1, body, 0) == FStmts(p, n, s2, body, 1) == Go(s2, VoidV);
    assert s2.fr[1..] == [top, m'] + outer;
  }

  // ---------- ? in emitted code ----------

  /** What an emitted `let x = e?` does when `e` gives `v`. */
  lemma {:induction false} EmittedTryBinds(
      p: Program, cp: CProgram, n: nat, vis: set<string>, t: nat, sc: Scopes, x: string, ann: Ann, e: Expr, v: Val,
      y: Val)
    requires LLet(p, false, vis, t, Let(Some(x), ann, Try(e))).Some? && sc != []
    requires Src(x) !in sc[0] && Temp(TryT, t) !in sc[0]
    requires LExpr(p, vis, e).Some? && CValue(cp, n, sc, LExpr(p, vis, e).value) == CIs(v)
    ensures
      var r := CExec(cp, n, sc, LLet(p, false, vis, t, Let(Some(x), ann, Try(e))).value.code);
      && (v == PayV("Some", y) || v == PayV("Ok", y) ==> r.out == CNorm && CFind(r.sc, Src(x)) == Some(y))
      && (Leaves(v) ==> r.out == CRet(v))
  {
    var tn := Temp(TryT, t);
    var decl, bind := CVarDecl(tn, LExpr(p, vis, e).value), CVarDecl(Src(x), CUnwrap(CVar(tn)));
    var test := CIf(CIsBad(CVar(tn)), [CReturn(Some(CVar(tn)))], []);
    assert LLet(p, false, vis, t, Let(Some(x), ann, Try(e))).value.code == [decl, test, bind];
    assert [decl, test, bind] == [decl] + ([test] + [bind]);
    ExecCons(cp, n, sc, decl, [test] + [bind]);
    var sc1 := [sc[0][tn := v]] + sc[1..];
    assert CStep(cp, n, sc, decl) == CRes(sc1, CNorm);
    hide CStep, LExpr, LLet, CExec;
    ExecCons(cp, n, sc1, test, [bind]);
    TestRuns(cp, n, sc1, tn, v);
    ExecOne(cp, n, sc1, bind);
    if v == PayV("Some", y) || v == PayV("Ok", y) {
      UnwrapRuns(cp, n, sc1, Src(x), tn, v, y);
    }
  }

  lemma {:induction false} TestRuns(cp: CProgram, n: nat, sc: Scopes, tn: CName, v: Val)
    requires CFind(sc, tn) == Some(v)
    ensures
      var r := CStep(cp, n, sc, CIf(CIsBad(CVar(tn)), [CReturn(Some(CVar(tn)))], []));
      && (Leaves(v) ==> r.out == CRet(v))
      && (v == UnitV("None") || (v.PayV? && v.tag == "Err") ==> Leaves(v))
      && (!Leaves(v) ==> r == CRes(sc, CNorm))
  {
    var inner := [map[]] + sc;
    assert CFind(inner, tn) == CFind(inner[1..], tn) == Some(v) && CPop(inner) == sc;
    assert v.PayV? && v.tag == "Err" ==> v == PayV("Err", v.payload);
    ExecOne(cp, n, inner, CReturn(Some(CVar(tn))));
    assert CExec(cp, n, inner, []) == CRes(inner, CNorm);
    assert CValue(cp, n, sc, CVar(tn)) == CIs(v) && CValue(cp, n, inner, CVar(tn)) == CIs(v);
  }

  /** What an emitted `return e?` does when `e` gives `v`. */
  lemma {:induction false} EmittedTryReturns(
      p: Program, cp: CProgram, n: nat, vis: set<string>, t: nat, sc: Scopes, e: Expr, v: Val, y: Val)
    requires LReturn(p, false, vis, t, Return(Some(Try(e)))).Some?
    requires LExpr(p, vis, e).Some? && CValue(cp, n, [map[]] + sc, LExpr(p, vis, e).value) == CIs(v)
    ensures
      var r := CExec(cp, n, sc, LReturn(p, false, vis, t, Return(Some(Try(e)))).value.code);
      && (v == PayV("Some", y) || v == PayV("Ok", y) ==> r.out == CRet(y))
      && (Leaves(v) ==> r.out == CRet(v))
  {
    var tn := Temp(TryT, t);
    var decl, back := CVarDecl(tn, LExpr(p, vis, e).value), CReturn(Some(CUnwrap(CVar(tn))));
    var test := CIf(CIsBad(CVar(tn)), [CReturn(Some(CVar(tn)))], []);
    assert LReturn(p, false, vis, t, Return(Some(Try(e)))).value.code == [CBraces([decl, test, back])];
    assert [decl, test, back] == [decl] + ([test] + [back]);
    ExecOne(cp, n, sc, CBraces([decl, test, back]));
    ExecCons(cp, n, [map[]] + sc, decl, [test] + [back]);
    var none: map<CName, Val> := map[];
    var sc1 := [none[tn := v]] + sc;
    assert ([map[]] + sc)[1..] == sc;
    assert CStep(cp, n, [map[]] + sc, decl) == CRes(sc1, CNorm);
    assert CStep(cp, n, sc, CBraces([decl, test, back])).out == CExec(cp, n, [map[]] + sc, [decl, test, back]).out;
    hide CStep, LExpr, LReturn, CExec;
    ExecCons(cp, n, sc1, test, [back]);
    TestRuns(cp, n, sc1, tn, v);
    ExecOne(cp, n, sc1, back);
    if v == PayV("Some", y) || v == PayV("Ok", y) {
      UnwrapRuns(cp, n, sc1, Under, tn, v, y);
    }
  }

  lemma {:induction false} UnwrapRuns(cp: CProgram, n: nat, sc: Scopes, c: CName, tn: CName, v: Val, y: Val)
    requires CFind(sc, tn) == Some(v) && sc != [] && (v == PayV("Some", y) || v == PayV("Ok", y)) && c !in sc[0]
    ensures
      var bind := CStep(cp, n, sc, CVarDecl(c, CUnwrap(CVar(tn))));
      bind.out == CNorm && CFind(bind.sc, c) == Some(y)
    ensures CStep(cp, n, sc, CReturn(Some(CUnwrap(CVar(tn))))).out == CRet(y)
  {
    assert CValue(cp, n, sc, CVar(tn)) == CIs(v);
    assert CValue(cp, n, sc, CUnwrap(CVar(tn))) == CIs(y);
  }
}
