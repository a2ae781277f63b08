/** What a loop costs: the steps of a counting loop, for each comparison that can end
    it, and so which of them are reported. */
module BudgetLoops {
  import opened Options
  import opened Comptime
  import opened ConstBudget

  /** `const fn f() { let i = a; while i <cmp> z { i = i <op> 1 } return i }` */
  function Condition(cmp: Op, z: int): Expr { Bin(cmp, Name("i"), Int(z)) }

  function Body(op: Op): Block { Block([Assign("i", Bin(op, Name("i"), Int(1)))], None) }

  function Counter(a: int, cmp: Op, z: int, op: Op): Program {
    var body := [Let("i", Int(a)), While(Condition(cmp, z), Body(op)), Return(Some(Name("i")))];
    Program([], [Fn("f", [], Block(body, None))], Apply)
  }

  /** How the comparison decides. */
  predicate Holds(cmp: Op, x: int, z: int) {
    match cmp
    case Lt => x < z
    case Gt => x > z
    case Le => x <= z
    case Ge => x >= z
    case Eq => x == z
    case Ne => x != z
    case _ => false
  }

  predicate Compares(cmp: Op) { cmp == Lt || cmp == Gt || cmp == Le || cmp == Ge || cmp == Eq || cmp == Ne }

  /** The `j`-th value of the counter. */
  function At(a: int, op: Op, j: nat): int { if op == Add then a + j else a - j }

  /** One pass: a comparison with its two operands, and the sum with its two. */
  lemma OnePass(p: Program, b: nat, cmp: Op, z: int, op: Op, x: int, c: Ctx)
    requires p.arith == Apply && Compares(cmp) && (op == Add || op == Sub) && !c.over && c.steps + 6 <= b
    ensures
      var r := EvalExpr(p, b, Condition(cmp, z), [Bind("i", x)], c);
      r.c == Ctx(c.steps + 3, false) && (r.v != 0 <==> Holds(cmp, x, z))
    ensures
      EvalBlock(p, b, Body(op), [Bind("i", x)], Ctx(c.steps + 3, false)) ==
        Out(Fell, [Bind("i", At(x, op, 1))], Ctx(c.steps + 6, false))
  {
    var env, c1, c2, c3 := [Bind("i", x)], Ctx(c.steps + 1, false), Ctx(c.steps + 2, false), Ctx(c.steps + 3, false);
    assert EvalExpr(p, b, Name("i"), env, c1) == Val(x, c2);
    assert EvalExpr(p, b, Int(z), env, c2) == Val(z, c3);
    OneSum(p, b, op, x, c3);
  }

  lemma OneSum(p: Program, b: nat, op: Op, x: int, c: Ctx)
    requires p.arith == Apply && (op == Add || op == Sub) && !c.over && c.steps + 3 <= b
    ensures
      EvalBlock(p, b, Body(op), [Bind("i", x)], c) == Out(Fell, [Bind("i", At(x, op, 1))], Ctx(c.steps + 3, false))
  {
    var env, c1, c2, c3 := [Bind("i", x)], Ctx(c.steps + 1, false), Ctx(c.steps + 2, false), Ctx(c.steps + 3, false);
    var sum := Bin(op, Name("i"), Int(1));
    assert EvalExpr(p, b, Name("i"), env, c1) == Val(x, c2);
    assert EvalExpr(p, b, Int(1), env, c2) == Val(1, c3);
    assert EvalExpr(p, b, sum, env, c) == Val(At(x, op, 1), c3);
    var st := Assign("i", sum);
    assert Store(env, "i", At(x, op, 1)) == [Bind("i", At(x, op, 1))];
    assert EvalStmt(p, b, st, env, c) == Out(Fell, [Bind("i", At(x, op, 1))], c3);
    assert [st][1..] == [];
    assert EvalStmts(p, b, [st], env, c) == EvalStmts(p, b, [], [Bind("i", At(x, op, 1))], c3);
  }

  /** `n` passes, and the comparison that fails. */
  lemma {:induction false} Passes(p: Program, b: nat, cmp: Op, z: int, op: Op, x: int, n: nat, c: Ctx)
    requires p.arith == Apply && Compares(cmp) && (op == Add || op == Sub) && !c.over && c.steps + 6 * n + 6 <= b
    requires (forall j :: 0 <= j < n ==> Holds(cmp, At(x, op, j), z)) && !Holds(cmp, At(x, op, n), z)
    ensures
      EvalWhile(p, b, Condition(cmp, z), Body(op), [Bind("i", x)], c) ==
        Out(Fell, [Bind("i", At(x, op, n))], Ctx(c.steps + 6 * n + 3, false))
    decreases n
  {
    OnePass(p, b, cmp, z, op, x, c);
    hide EvalExpr, EvalBlock;
    assert At(x, op, 0) == x;
    if n > 0 {
      var x1 := At(x, op, 1);
      assert Holds(cmp, At(x, op, 0), z);
      forall j | 0 <= j <= n - 1
        ensures At(x1, op, j) == At(x, op, j + 1)
      {
      }
      Passes(p, b, cmp, z, op, x1, n - 1, Ctx(c.steps + 6, false));
    }
  }

  /** A counter that passes its loop `n` times takes `6 n + 6` steps, gives what it has
      counted to, and is reported exactly if `n` is 200 or more. */
  lemma CountersCost(a: int, cmp: Op, z: int, op: Op, n: nat)
    requires Compares(cmp) && (op == Add || op == Sub)
    requires (forall j :: 0 <= j < n ==> Holds(cmp, At(a, op, j), z)) && !Holds(cmp, At(a, op, n), z)
    ensures Run(Counter(a, cmp, z, op), 6 * n + 9, Call("f", [])) == Val(At(a, op, n), Ctx(6 * n + 6, false))
    ensures Reported(Counter(a, cmp, z, op), Call("f", [])) <==> n >= 200
  {
    var p, b, e := Counter(a, cmp, z, op), 6 * n + 9, Call("f", []);
    CounterRuns(a, cmp, z, op, n);
    ReportedExactly(p, e);
    if n < 200 {
      assert EndsWithin(p, e, LIMIT);
    } else if EndsWithin(p, e, LIMIT) {
      var b2: nat :| Run(p, b2, e).c.steps <= b2 && Run(p, b2, e).c.steps <= LIMIT;
      if b <= b2 {
        LargerBudget(p, b, b2, e);
      } else {
        LargerBudget(p, b2, b, e);
      }
    }
  }

  lemma CounterRuns(a: int, cmp: Op, z: int, op: Op, n: nat)
    requires Compares(cmp) && (op == Add || op == Sub)
    requires (forall j :: 0 <= j < n ==> Holds(cmp, At(a, op, j), z)) && !Holds(cmp, At(a, op, n), z)
    ensures Run(Counter(a, cmp, z, op), 6 * n + 9, Call("f", [])) == Val(At(a, op, n), Ctx(6 * n + 6, false))
  {
    var p, b := Counter(a, cmp, z, op), 6 * n + 9;
    var loop, ret := While(Condition(cmp, z), Body(op)), Return(Some(Name("i")));
    var fn := p.fns[0];
    var env, last := [Bind("i", a)], [Bind("i", At(a, op, n))];
    var c1, c2, c3 := Ctx(1, false), Ctx(2, false), Ctx(6 * n + 5, false);
    Passes(p, b, cmp, z, op, a, n, c2);
    hide Condition, Body, EvalWhile;
    assert FindFn(p.fns, "f") == Some(fn);
    assert EvalArgs(p, b, [], [], [], [], c1) == Out(Fell, [], c1);
    assert [Bind("i", a)] + [] == env;
    assert EvalStmt(p, b, Let("i", Int(a)), [], c1) == Out(Fell, env, c2);
    assert EvalStmt(p, b, loop, env, c2) == Out(Fell, last, c3);
    assert EvalStmt(p, b, ret, last, c3) == Out(Returned(At(a, op, n)), last, Ctx(6 * n + 6, false));
    StmtsInTurn(p, b, Let("i", Int(a)), loop, ret, [], c1, env, c2, last, c3);
    assert fn.body.stmts == [Let("i", Int(a)), loop, ret] && fn.body.tail == None && fn.params == [];
    assert EvalBlock(p, b, fn.body, [], c1) == Out(Returned(At(a, op, n)), last, Ctx(6 * n + 6, false));
    assert EvalExpr(p, b, Call("f", []), [], Ctx(0, false)) == Outcome(EvalBlock(p, b, fn.body, [], c1));
  }

  lemma StmtsInTurn(
      p: Program, b: nat, s1: Stmt, s2: Stmt, s3: Stmt, e0: seq<Bind>, c0: Ctx, e1: seq<Bind>, c1: Ctx, e2: seq<Bind>,
      c2: Ctx)
    requires Good(b, c0) && Good(b, c1) && Good(b, c2) && !c0.over && !c1.over && !c2.over
    requires EvalStmt(p, b, s1, e0, c0) == Out(Fell, e1, c1) && EvalStmt(p, b, s2, e1, c1) == Out(Fell, e2, c2)
    requires EvalStmt(p, b, s3, e2, c2).kind != Fell
    ensures EvalStmts(p, b, [s1, s2, s3], e0, c0) == EvalStmt(p, b, s3, e2, c2)
  {
    hide EvalStmt;
    assert [s1, s2, s3][1..] == [s2, s3] && [s2, s3][1..] == [s3];
    assert EvalStmts(p, b, [s3], e2, c2) == EvalStmt(p, b, s3, e2, c2);
  }

  /** What the other operators give, and that `&&` and `||` skip an operand that does
      not count: three steps are one short circuit less. */
  lemma OperatorsGive(a: int, z: int)
    ensures
      var p := Program([], [], Apply);
      && Run(p, 3, Bin(Mul, Int(a), Int(z))) == Val(a * z, Ctx(3, false))
      && Run(p, 3, Bin(And, Int(a), Int(z))) == Val(if a != 0
        && z != 0 then 1 else 0, Ctx(if a == 0 then 2 else 3, false))
      && Run(p, 3, Bin(Or, Int(a), Int(z))) == Val(if a != 0
        || z != 0 then 1 else 0, Ctx(if a != 0 then 2 else 3, false))
      && Run(p, 2, Unary(true, Int(a))) == Val(-a, Ctx(2, false))
  {
    var p := Program([], [], Apply);
    assert EvalExpr(p, 3, Int(a), [], Ctx(1, false)) == Val(a, Ctx(2, false));
    assert EvalExpr(p, 3, Int(z), [], Ctx(2, false)) == Val(z, Ctx(3, false));
    assert EvalExpr(p, 2, Int(a), [], Ctx(1, false)) == Val(a, Ctx(2, false));
  }
}
