/** What the two compile-time evaluators make of functions, names and operators. */
module BudgetMeaning {
  import opened Options
  import opened Comptime
  import Arithmetic
  import OperatorMeaning
  import C = ConstBudget
  import P = PackageBudget

  // ---------- The constants of a file ----------

  /** A program with one function `f`. */
  function One(params: seq<string>, body: Block): Program { Program([], [Fn("f", params, body)], C.Apply) }

  /** The function with the tail `e`, or the one that returns `e`: a call is `e`. */
  lemma TailsAreReturned(e: Expr, b: nat, r: C.Val)
    requires b >= 2 && !r.c.over
    requires
      var c := C.Ctx(1, false);
      r == C.EvalExpr(One([], Block([], Some(e))), b, e, [], c)
    ensures C.Run(One([], Block([], Some(e))), b, Call("f", [])) == r
  {
    var p, c := One([], Block([], Some(e))), C.Ctx(1, false);
    assert C.EvalArgs(p, b, [], [], [], [], c) == C.Out(C.Fell, [], c);
    assert C.EvalStmts(p, b, [], [], c) == C.Out(C.Fell, [], c);
    assert FindFn(p.fns, "f") == Some(p.fns[0]);
    assert C.EvalBlock(p, b, p.fns[0].body, [], c) == C.Out(C.Returned(r.v), [], r.c);
  }

  /** A bare `return` gives zero; a body that runs off its end, an unknown name, and a
      call of an unknown function or with too few arguments cannot be evaluated. */
  lemma ExitsMean(b: nat, x: string)
    requires b >= 2
    ensures C.Run(One([], Block([Return(None)], None)), b, Call("f", [])) == C.Val(0, C.Ctx(1, false))
    ensures C.Run(One([], Block([], None)), b, Call("f", [])).c == C.Ctx(1, true)
    ensures C.Run(Program([], [], C.Apply), b, Name(x)).c == C.Ctx(1, true)
    ensures C.Run(Program([], [], C.Apply), b, Call(x, [])).c == C.Ctx(1, true)
    ensures C.Run(One([x], Block([], None)), b, Call("f", [])).c == C.Ctx(1, true)
  {
    var p, c := One([], Block([Return(None)], None)), C.Ctx(1, false);
    assert C.EvalArgs(p, b, [], [], [], [], c) == C.Out(C.Fell, [], c);
    assert FindFn(p.fns, "f") == Some(p.fns[0]);
    assert C.EvalStmt(p, b, Return(None), [], c) == C.Out(C.Returned(0), [], c);
    assert C.EvalStmts(p, b, [Return(None)], [], c) == C.Out(C.Returned(0), [], c);
    assert C.EvalBlock(p, b, p.fns[0].body, [], c) == C.Out(C.Returned(0), [], c);
    var q := One([], Block([], None));
    assert C.EvalArgs(q, b, [], [], [], [], c) == C.Out(C.Fell, [], c);
    assert FindFn(q.fns, "f") == Some(q.fns[0]);
    assert C.EvalStmts(q, b, [], [], c) == C.Out(C.Fell, [], c);
    assert C.EvalBlock(q, b, q.fns[0].body, [], c) == C.Out(C.Fell, [], c);
    assert FindFn(One([x], Block([], None)).fns, "f") == Some(Fn("f", [x], Block([], None)));
  }

  /** Arguments reach their parameters by position, and constants their names. */
  lemma NamesMean(a: int, z: int, x: string, y: string)
    requires x != y
    ensures
      C.Run(One([x, y], Block([], Some(Bin(Sub, Name(x), Name(y))))), 6, Call("f", [Int(a), Int(z)])) ==
        C.Val(a - z, C.Ctx(6, false))
    ensures
      C.Run(Program([Const(x, Int(a)), Const(y, Int(z))], [], C.Apply), 2, Name(y)) == C.Val(z, C.Ctx(2, false))
  {
    var e := Bin(Sub, Name(x), Name(y));
    var p := One([x, y], Block([], Some(e)));
    var env := [Bind(y, z), Bind(x, a)];
    assert FindFn(p.fns, "f") == Some(p.fns[0]);
    assert [Int(a), Int(z)][1..] == [Int(z)] && [x, y][1..] == [y] && [Int(z)][1..] == [] && [y][1..] == [];
    assert [Bind(y, z)] + ([Bind(x, a)] + []) == env;
    assert C.EvalArgs(p, 6, [], [], env, [], C.Ctx(3, false)) == C.Out(C.Fell, env, C.Ctx(3, false));
    assert C.EvalArgs(p, 6, [Int(z)], [y], [Bind(x, a)] + [], [], C.Ctx(2, false))
      == C.Out(C.Fell, env, C.Ctx(3, false));
    assert C.EvalArgs(p, 6, [Int(a), Int(z)], [x, y], [], [], C.Ctx(1, false)) == C.Out(C.Fell, env, C.Ctx(3, false));
    assert env[1..] == [Bind(x, a)] && FindBind(env, x) == Some(a) && FindBind(env, y) == Some(z);
    assert C.EvalExpr(p, 6, Name(x), env, C.Ctx(4, false)) == C.Val(a, C.Ctx(5, false));
    assert C.EvalExpr(p, 6, Name(y), env, C.Ctx(5, false)) == C.Val(z, C.Ctx(6, false));
    assert C.EvalStmts(p, 6, [], env, C.Ctx(3, false)) == C.Out(C.Fell, env, C.Ctx(3, false));
    var q := Program([Const(x, Int(a)), Const(y, Int(z))], [], C.Apply);
    assert q.consts[1..] == [Const(y, Int(z))] && FindConst(q.consts, y) == Some(Const(y, Int(z)));
  }

  /** Division cuts off towards zero, and by zero it cannot be evaluated. */
  lemma DivisionMeans(a: int, z: int, q: int, m: int)
    requires z != 0 ==> OperatorMeaning.Divides(a, z, q, m)
    ensures
      var p := Program([], [], C.Apply);
      if z == 0 then
        && C.Run(p, 3, Bin(Div, Int(a), Int(z))).c == C.Ctx(3, true)
        && C.Run(p, 3, Bin(Mod, Int(a), Int(z))).c == C.Ctx(3, true)
      else
        && C.Run(p, 3, Bin(Div, Int(a), Int(z))) == C.Val(q, C.Ctx(3, false))
        && C.Run(p, 3, Bin(Mod, Int(a), Int(z))) == C.Val(m, C.Ctx(3, false))
  {
    hide Arithmetic.Quot, OperatorMeaning.Divides;
    Operands(a, z, Div);
    Operands(a, z, Mod);
    hide C.Run;
    if z != 0 {
      OperatorMeaning.QuotDivides(a, z);
      OperatorMeaning.DivisionIsUnique(a, z, q, m, Arithmetic.Quot(a, z), a - Arithmetic.Quot(a, z) * z);
    }
  }

  lemma Operands(a: int, z: int, op: Op)
    requires op == Div || op == Mod
    ensures
      var p, got := Program([], [], C.Apply), C.Apply(op, a, z);
      if got == None then C.Run(p, 3, Bin(op, Int(a), Int(z))).c == C.Ctx(3, true)
      else C.Run(p, 3, Bin(op, Int(a), Int(z))) == C.Val(got.value, C.Ctx(3, false))
  {
    hide C.Apply;
    var p := Program([], [], C.Apply);
    assert C.EvalExpr(p, 3, Int(a), [], C.Ctx(1, false)) == C.Val(a, C.Ctx(2, false));
    assert C.EvalExpr(p, 3, Int(z), [], C.Ctx(2, false)) == C.Val(z, C.Ctx(3, false));
  }

  // ---------- The constants of a package ----------

  function Bounded(n: nat): P.Bounds { P.Bounds(n, P.CAP) }

  /** What the package's evaluator has after `n` steps of plain evaluation. */
  predicate Went(r: P.Val, v: int, n: nat) { r.v == v && r.c.ok && !r.c.err && r.c.steps == n }

  /** Sums, differences, products, quotients and remainders; dividing by zero gives
      zero, and comparisons are not known. */
  lemma PackageOperators(a: int, z: int, q: int, m: int)
    requires z != 0 ==> OperatorMeaning.Divides(a, z, q, m)
    ensures
      var p, b := P.Source([]), Bounded(3);
      && Went(P.Run(p, b, Bin(Add, Int(a), Int(z))), a + z, 3)
      && Went(P.Run(p, b, Bin(Sub, Int(a), Int(z))), a - z, 3)
      && Went(P.Run(p, b, Bin(Mul, Int(a), Int(z))), a * z, 3)
      && Went(P.Run(p, b, Bin(Div, Int(a), Int(z))), if z == 0 then 0 else q, 3)
      && Went(P.Run(p, b, Bin(Mod, Int(a), Int(z))), if z == 0 then 0 else m, 3)
      && Went(P.Run(p, b, Unary(true, Int(a))), -a, 2) && Went(P.Run(p, b, Unary(false, Int(a))), a, 2)
      && !P.Run(p, b, Bin(Lt, Int(a), Int(z))).c.ok && !P.Run(p, b, Bin(Lt, Int(a), Int(z))).c.err
  {
    hide Arithmetic.Quot, OperatorMeaning.Divides;
    if z != 0 {
      OperatorMeaning.QuotDivides(a, z);
      OperatorMeaning.DivisionIsUnique(a, z, q, m, Arithmetic.Quot(a, z), a - Arithmetic.Quot(a, z) * z);
    }
    var p, b := P.Source([]), Bounded(3);
    var c1, c2, c3 := P.Start().(steps := 1), P.Start().(steps := 2), P.Start().(steps := 3);
    assert P.EvalExpr(p, b, Int(a), [], c1) == P.Val(a, c2);
    assert P.EvalExpr(p, b, Int(z), [], c2) == P.Val(z, c3);
  }

  /** A call is its tail or what it returns, zero for a bare `return`; a callee sees its
      caller's names behind its own. */
  lemma PackageCalls(v: int, x: string, y: string)
    requires x != y
    ensures Went(P.Run(P.Source([Fn("f", [], Block([], Some(Int(v))))]), Bounded(9), Call("f", [])), v, 2)
    ensures Went(P.Run(P.Source([Fn("f", [], Block([Return(Some(Int(v)))], None))]), Bounded(9), Call("f", [])), v, 2)
    ensures Went(P.Run(P.Source([Fn("f", [], Block([Return(None)], None))]), Bounded(9), Call("f", [])), 0, 1)
    ensures !P.Run(P.Source([Fn("f", [], Block([], None))]), Bounded(9), Call("f", [])).c.ok
    ensures
      var outer, inner := Fn("f", [x], Block([], Some(Call("g", [])))), Fn("g", [], Block([], Some(Name(x))));
      Went(P.Run(P.Source([outer, inner]), Bounded(9), Call("f", [Int(v)])), v, 4)
  {
    PlainCall(Fn("f", [], Block([], Some(Int(v)))));
    PlainCall(Fn("f", [], Block([Return(Some(Int(v)))], None)));
    PlainCall(Fn("f", [], Block([Return(None)], None)));
    PlainCall(Fn("f", [], Block([], None)));
    CalleeSees(v, x);
  }

  lemma PlainCall(fn: Fn)
    requires fn.name == "f" && fn.params == []
    ensures
      var p, c := P.Source([fn]), P.Start().(steps := 1);
      var r := P.EvalBody(p, Bounded(9), fn.body, [], c.(depth := 1));
      P.Run(p, Bounded(9), Call("f", [])) == P.Val(r.v, r.c.(depth := 0))
  {
    var p, c := P.Source([fn]), P.Start().(steps := 1);
    assert FindFn(p.fns, "f") == Some(fn);
    assert P.EvalArgs(p, Bounded(9), [], [], [], [], c) == P.Args([], c);
    assert c.(peak := P.Max(c.peak, c.depth)) == c;
  }

  lemma CalleeSees(v: int, x: string)
    ensures
      var outer, inner := Fn("f", [x], Block([], Some(Call("g", [])))), Fn("g", [], Block([], Some(Name(x))));
      Went(P.Run(P.Source([outer, inner]), Bounded(9), Call("f", [Int(v)])), v, 4)
  {
    var outer, inner := Fn("f", [x], Block([], Some(Call("g", [])))), Fn("g", [], Block([], Some(Name(x))));
    var p, b := P.Source([outer, inner]), Bounded(9);
    var env := [Bind(x, v)];
    var c1, c2 := P.Start().(steps := 1), P.Start().(steps := 2);
    assert FindFn(p.fns, "f") == Some(outer);
    assert p.fns[1..] == [inner] && FindFn(p.fns, "g") == Some(inner);
    assert P.EvalExpr(p, b, Int(v), [], c1) == P.Val(v, c2);
    assert [Int(v)][1..] == [] && [x][1..] == [] && [Bind(x, v)] + [] == env;
    assert P.EvalArgs(p, b, [Int(v)], [x], [], [], c1) == P.EvalArgs(p, b, [], [], env, [], c2) == P.Args(env, c2);
    var c3 := c2.(depth := 1, steps := 3, peak := 1);
    assert P.EvalArgs(p, b, [], [], env, env, c3) == P.Args(env, c3);
    var c4 := c3.(depth := 2, steps := 4);
    assert P.EvalExpr(p, b, Name(x), env, c3.(depth := 2)) == P.Val(v, c4);
    assert P.EvalCall(p, b, inner, [], env, c3) == P.Val(v, c4.(depth := 1));
    assert P.EvalExpr(p, b, Call("g", []), env, c2.(depth := 1)) == P.Val(v, c4.(depth := 1));
    assert P.EvalCall(p, b, outer, [Int(v)], [], c1) == P.Val(v, c4.(depth := 0));
  }

  /** Ten thousand steps for each millisecond of the manifest's budget, and a million
      without one; four hundred nested calls. */
  lemma BudgetsMean(ms: int)
    ensures P.Budget(ms) == (if ms > 0 then 10000 * ms else 1000000) && P.CAP == 400
  {
  }
}
