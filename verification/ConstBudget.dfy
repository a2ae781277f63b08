/** Evaluating the constants of one file under a budget of steps. Every evaluated
    expression costs a step; running out sets `over`, and so does anything the
    evaluator cannot do. */
module ConstBudget {
  import opened Options
  import opened Comptime
  import Arithmetic

  const LIMIT: nat := 1200

  datatype Ctx = Ctx(steps: nat, over: bool)

  datatype Val = Val(v: int, c: Ctx)

  datatype Kind = Fell | Returned(v: int) | Stopped

  datatype Out = Out(kind: Kind, env: seq<Bind>, c: Ctx)

  /** Within a budget of `b`: one step past it only when over. */
  predicate Good(b: nat, c: Ctx) { c.steps <= b + 1 && (!c.over ==> c.steps <= b) }

  function Fail(c: Ctx): Val { Val(0, c.(over := true)) }

  /** Dividing by zero is an error. */
  function Apply(op: Op, a: int, z: int): Option<int> {
    match op
    case Add => Some(a + z)
    case Sub => Some(a - z)
    case Mul => Some(a * z)
    case Div => if z == 0 then None else Some(Arithmetic.Quot(a, z))
    case Mod => if z == 0 then None else Some(Arithmetic.Exact(Arithmetic.Mod, a, z))
    case Lt => Some(Flag(a < z))
    case Gt => Some(Flag(a > z))
    case Le => Some(Flag(a <= z))
    case Ge => Some(Flag(a >= z))
    case Eq => Some(Flag(a == z))
    case Ne => Some(Flag(a != z))
    case And => Some(Flag(z != 0))
    case Or => Some(Flag(z != 0))
    case OtherOp => None
  }

  function Applied(v: Option<int>, c: Ctx): Val { if v == None then Fail(c) else Val(v.value, c) }

  /** The first operand decides `&&` and `||`. */
  predicate Decides(op: Op, a: int) { (op == And && a == 0) || (op == Or && a != 0) }

  function EvalExpr(p: Program, b: nat, e: Expr, env: seq<Bind>, c: Ctx): (r: Val)
    requires Good(b, c)
    ensures Good(b, r.c) && (if c.over then r.c == c else r.c.steps > c.steps)
    decreases b + 1 - c.steps, 0, 0
  {
    if c.over then Val(0, c)
    else if c.steps + 1 > b then Val(0, Ctx(c.steps + 1, true))
    else
      var c := Ctx(c.steps + 1, false);
      match e
      case Int(v) => Val(v, c)
      case Name(x) =>
        if FindBind(env, x) != None then Val(FindBind(env, x).value, c)
        else if FindConst(p.consts, x) == None then Fail(c)
        else EvalExpr(p, b, FindConst(p.consts, x).value.e, [], c)
      case Unary(neg, x) =>
        if !neg then Fail(c)
        else
          var r := EvalExpr(p, b, x, env, c);
          Val(-r.v, r.c)
      case Bin(op, l, r) =>
        var a := EvalExpr(p, b, l, env, c);
        if a.c.over then Val(0, a.c)
        else if Decides(op, a.v) then Val(Flag(op == Or), a.c)
        else
          var z := EvalExpr(p, b, r, env, a.c);
          if z.c.over then Val(0, z.c) else Applied(p.arith(op, a.v, z.v), z.c)
      case Call(f, args) =>
        if FindFn(p.fns, f) == None then Fail(c)
        else
          var fn := FindFn(p.fns, f).value;
          if |args| != |fn.params| then Fail(c)
          else
            var a := EvalArgs(p, b, args, fn.params, [], env, c);
            if a.c.over then Val(0, a.c) else Outcome(EvalBlock(p, b, fn.body, a.env, a.c))
      case Other => Fail(c)
  }

  /** What a call makes of its body's end: one that returns nothing is an error. */
  function Outcome(o: Out): Val {
    match o.kind
    case Returned(v) => Val(v, o.c)
    case Stopped => Val(0, o.c)
    case Fell => Fail(o.c)
  }

  /** Arguments in order; each is bound in front of those in `acc`. */
  function EvalArgs(
      p: Program, b: nat, args: seq<Expr>, params: seq<string>, acc: seq<Bind>, env: seq<Bind>, c: Ctx): (r: Out)
    requires Good(b, c) && |args| == |params|
    ensures Good(b, r.c) && r.c.steps >= c.steps
    decreases b + 1 - c.steps, 1, |args|
  {
    if args == [] then Out(Fell, acc, c)
    else
      var a := EvalExpr(p, b, args[0], env, c);
      if a.c.over then Out(Stopped, acc, a.c)
      else EvalArgs(p, b, args[1..], params[1..], [Bind(params[0], a.v)] + acc, env, a.c)
  }

  /** A block whose tail is evaluated returns it, a loop's body included. */
  function EvalBlock(p: Program, b: nat, body: Block, env: seq<Bind>, c: Ctx): (r: Out)
    requires Good(b, c)
    ensures Good(b, r.c) && r.c.steps >= c.steps
    decreases b + 1 - c.steps, 2, 0
  {
    var o := EvalStmts(p, b, body.stmts, env, c);
    if o.kind != Fell || body.tail == None then o
    else
      var t := EvalExpr(p, b, body.tail.value, o.env, o.c);
      Out(if t.c.over then Stopped else Returned(t.v), o.env, t.c)
  }

  function EvalStmts(p: Program, b: nat, stmts: seq<Stmt>, env: seq<Bind>, c: Ctx): (r: Out)
    requires Good(b, c)
    ensures Good(b, r.c) && r.c.steps >= c.steps
    decreases b + 1 - c.steps, 1, |stmts|
  {
    if stmts == [] then Out(Fell, env, c)
    else if c.over then Out(Stopped, env, c)
    else
      var o := EvalStmt(p, b, stmts[0], env, c);
      if o.kind != Fell then o else EvalStmts(p, b, stmts[1..], o.env, o.c)
  }

  function EvalStmt(p: Program, b: nat, st: Stmt, env: seq<Bind>, c: Ctx): (r: Out)
    requires Good(b, c)
    ensures Good(b, r.c) && r.c.steps >= c.steps
    decreases b + 1 - c.steps, 1, 0
  {
    match st
    case Let(x, e) =>
      var r := EvalExpr(p, b, e, env, c);
      if r.c.over then Out(Stopped, env, r.c) else Out(Fell, [Bind(x, r.v)] + env, r.c)
    case LetOther => Out(Fell, env, c)
    case Return(None) => Out(Returned(0), env, c)
    case Return(Some(e)) =>
      var r := EvalExpr(p, b, e, env, c);
      Out(if r.c.over then Stopped else Returned(r.v), env, r.c)
    case While(cond, body) => EvalWhile(p, b, cond, body, env, c)
    case Eval(e) =>
      var r := EvalExpr(p, b, e, env, c);
      Out(if r.c.over then Stopped else Fell, env, r.c)
    case Assign(x, e) =>
      var r := EvalExpr(p, b, e, env, c);
      if r.c.over then Out(Stopped, env, r.c) else Out(Fell, Store(env, x, r.v), r.c)
    case Unsupported => Out(Stopped, env, c.(over := true))
  }

  function EvalWhile(p: Program, b: nat, cond: Expr, body: Block, env: seq<Bind>, c: Ctx): (r: Out)
    requires Good(b, c)
    ensures Good(b, r.c) && r.c.steps >= c.steps
    decreases b + 1 - c.steps, 0, 1
  {
    var r := EvalExpr(p, b, cond, env, c);
    if r.c.over then Out(Stopped, env, r.c)
    else if r.v == 0 then Out(Fell, env, r.c)
    else
      var o := EvalBlock(p, b, body, env, r.c);
      if o.kind != Fell then o else EvalWhile(p, b, cond, body, o.env, o.c)
  }

  function Run(p: Program, b: nat, e: Expr): (r: Val)
    ensures r.c.steps <= b + 1 && (r.c.steps > b ==> r.c.over)
  {
    EvalExpr(p, b, e, [], Ctx(0, false))
  }

  // ---------- A larger budget ----------

  /** A run under `b` that stays within it is the run under any larger budget; one
      that does not needs more than `b` steps there too. */
  predicate Scales(b: nat, c: Ctx, c2: Ctx) { if c.steps <= b then c2 == c else c2.steps > b }

  lemma {:induction false} ExprScales(p: Program, b: nat, b2: nat, e: Expr, env: seq<Bind>, c: Ctx)
    requires Good(b, c) && b <= b2 && (c.steps > b ==> c.over)
    ensures var r, r2 := EvalExpr(p, b, e, env, c), EvalExpr(p, b2, e, env, c);
      Scales(b, r.c, r2.c) && (r.c.steps <= b ==> r2 == r)
    decreases b + 1 - c.steps, 0, 0
  {
    hide FindBind, FindConst, FindFn, Decides, EvalArgs, EvalBlock;
    if !c.over && c.steps < b {
      var c := Ctx(c.steps + 1, false);
      match e
      case Name(x) =>
        if FindBind(env, x) == None && FindConst(p.consts, x) != None {
          ExprScales(p, b, b2, FindConst(p.consts, x).value.e, [], c);
        }
      case Unary(neg, x) =>
        ExprScales(p, b, b2, x, env, c);
      case Bin(op, l, r) =>
        ExprScales(p, b, b2, l, env, c);
        var a := EvalExpr(p, b, l, env, c);
        if !a.c.over {
          ExprScales(p, b, b2, r, env, a.c);
        }
      case Call(f, args) =>
        if FindFn(p.fns, f) != None && |args| == |FindFn(p.fns, f).value.params| {
          var fn := FindFn(p.fns, f).value;
          ArgsScale(p, b, b2, args, fn.params, [], env, c);
          var a := EvalArgs(p, b, args, fn.params, [], env, c);
          if !a.c.over {
            BlockScales(p, b, b2, fn.body, a.env, a.c);
          }
        }
      case _ =>
    }
  }

  lemma {:induction false} ArgsScale(
      p: Program, b: nat, b2: nat, args: seq<Expr>, params: seq<string>, acc: seq<Bind>, env: seq<Bind>, c: Ctx)
    requires Good(b, c) && b <= b2 && |args| == |params|
    ensures var r, r2 := EvalArgs(p, b, args, params, acc, env, c), EvalArgs(p, b2, args, params, acc, env, c);
      Scales(b, r.c, r2.c) && (r.c.steps <= b ==> r2 == r)
    decreases b + 1 - c.steps, 1, |args|
  {
    if args != [] {
      ExprScales(p, b, b2, args[0], env, c);
      var a := EvalExpr(p, b, args[0], env, c);
      if !a.c.over {
        ArgsScale(p, b, b2, args[1..], params[1..], [Bind(params[0], a.v)] + acc, env, a.c);
      }
    }
  }

  lemma {:induction false} BlockScales(p: Program, b: nat, b2: nat, body: Block, env: seq<Bind>, c: Ctx)
    requires Good(b, c) && b <= b2
    ensures var r, r2 := EvalBlock(p, b, body, env, c), EvalBlock(p, b2, body, env, c);
      Scales(b, r.c, r2.c) && (r.c.steps <= b ==> r2 == r)
    decreases b + 1 - c.steps, 2, 0
  {
    StmtsScale(p, b, b2, body.stmts, env, c);
    var o := EvalStmts(p, b, body.stmts, env, c);
    if o.c.steps <= b && o.kind == Fell && body.tail != None {
      ExprScales(p, b, b2, body.tail.value, o.env, o.c);
    }
  }

  lemma {:induction false} StmtsScale(p: Program, b: nat, b2: nat, stmts: seq<Stmt>, env: seq<Bind>, c: Ctx)
    requires Good(b, c) && b <= b2
    ensures var r, r2 := EvalStmts(p, b, stmts, env, c), EvalStmts(p, b2, stmts, env, c);
      Scales(b, r.c, r2.c) && (r.c.steps <= b ==> r2 == r)
    decreases b + 1 - c.steps, 1, |stmts|
  {
    if stmts != [] && !c.over {
      StmtScales(p, b, b2, stmts[0], env, c);
      var o := EvalStmt(p, b, stmts[0], env, c);
      if o.c.steps <= b && o.kind == Fell {
        StmtsScale(p, b, b2, stmts[1..], o.env, o.c);
      }
    }
  }

  lemma {:induction false} StmtScales(p: Program, b: nat, b2: nat, st: Stmt, env: seq<Bind>, c: Ctx)
    requires Good(b, c) && b <= b2
    ensures var r, r2 := EvalStmt(p, b, st, env, c), EvalStmt(p, b2, st, env, c);
      Scales(b, r.c, r2.c) && (r.c.steps <= b ==> r2 == r)
    decreases b + 1 - c.steps, 1, 0
  {
    match st
    case Let(_, e) => ExprScales(p, b, b2, e, env, c);
    case Return(Some(e)) => ExprScales(p, b, b2, e, env, c);
    case While(cond, body) => WhileScales(p, b, b2, cond, body, env, c);
    case Eval(e) => ExprScales(p, b, b2, e, env, c);
    case Assign(_, e) => ExprScales(p, b, b2, e, env, c);
    case _ =>
  }

  lemma {:induction false} WhileScales(p: Program, b: nat, b2: nat, cond: Expr, body: Block, env: seq<Bind>, c: Ctx)
    requires Good(b, c) && b <= b2
    ensures var r, r2 := EvalWhile(p, b, cond, body, env, c), EvalWhile(p, b2, cond, body, env, c);
      Scales(b, r.c, r2.c) && (r.c.steps <= b ==> r2 == r)
    decreases b + 1 - c.steps, 0, 1
  {
    ExprScales(p, b, b2, cond, env, c);
    var r := EvalExpr(p, b, cond, env, c);
    if !r.c.over && r.v != 0 {
      BlockScales(p, b, b2, body, env, r.c);
      var o := EvalBlock(p, b, body, env, r.c);
      if o.kind == Fell && o.c.steps <= b {
        WhileScales(p, b, b2, cond, body, o.env, o.c);
      }
    }
  }

  // ---------- The check ----------

  /** The checker reports a constant when its evaluation ran out of steps. */
  predicate Reported(p: Program, e: Expr) {
    var c := Run(p, LIMIT, e).c;
    c.over && c.steps > LIMIT
  }

  /** The evaluation ends on its own, given enough steps, and takes at most `m`. */
  ghost predicate EndsWithin(p: Program, e: Expr, m: nat) {
    exists b: nat :: Run(p, b, e).c.steps <= b && Run(p, b, e).c.steps <= m
  }

  /** A run that ends within its budget is the same under every larger one. */
  lemma LargerBudget(p: Program, b: nat, b2: nat, e: Expr)
    requires b <= b2 && Run(p, b, e).c.steps <= b
    ensures Run(p, b2, e) == Run(p, b, e)
  {
    ExprScales(p, b, b2, e, [], Ctx(0, false));
  }

  /** A constant is reported if and only if evaluating it takes more than 1200 steps:
      no budget lets it end within them. */
  lemma ReportedExactly(p: Program, e: Expr)
    ensures Reported(p, e) <==> !EndsWithin(p, e, LIMIT)
  {
    if !Reported(p, e) {
      assert Run(p, LIMIT, e).c.steps <= LIMIT;
    } else if EndsWithin(p, e, LIMIT) {
      var b: nat :| Run(p, b, e).c.steps <= b && Run(p, b, e).c.steps <= LIMIT;
      if b <= LIMIT {
        LargerBudget(p, b, LIMIT, e);
      } else {
        ExprScales(p, LIMIT, b, e, [], Ctx(0, false));
      }
      assert false;
    }
  }

  /** A loop whose condition holds and whose body is empty uses up any budget. */
  lemma {:induction false} EndlessWhile(p: Program, b: nat, env: seq<Bind>, c: Ctx)
    requires Good(b, c) && !c.over
    ensures var o := EvalWhile(p, b, Int(1), Block([], None), env, c);
      o.kind == Stopped && o.c == Ctx(b + 1, true)
    decreases b - c.steps
  {
    if c.steps < b {
      var body, next := Block([], None), Ctx(c.steps + 1, false);
      assert EvalStmts(p, b, body.stmts, env, next) == Out(Fell, env, next);
      EndlessWhile(p, b, env, next);
    }
  }

  /** Two functions that call each other: `f` calls `g`, and `g` calls `f`. */
  function Mutual(arith: Arith): Program {
    Program([], [Fn("f", [], Block([], Some(Call("g", [])))), Fn("g", [], Block([], Some(Call("f", []))))], arith)
  }

  lemma {:induction false} MutualRecursion(arith: Arith, b: nat, f: string, c: Ctx)
    requires Good(b, c) && !c.over && (f == "f" || f == "g")
    ensures EvalExpr(Mutual(arith), b, Call(f, []), [], c) == Val(0, Ctx(b + 1, true))
    decreases b - c.steps
  {
    if c.steps < b {
      var p, g, next := Mutual(arith), if f == "f" then "g" else "f", Ctx(c.steps + 1, false);
      MutualRecursion(arith, b, g, next);
      assert p.fns[1..][0] == p.fns[1];
      assert FindFn(p.fns, f) == Some(Fn(f, [], Block([], Some(Call(g, [])))));
      assert EvalArgs(p, b, [], [], [], [], next) == Out(Fell, [], next);
      assert EvalStmts(p, b, [], [], next) == Out(Fell, [], next);
    }
  }

  /** So neither kind of endless evaluation hangs the checker: both are reported. */
  lemma EndlessIsReported(consts: seq<Const>, arith: Arith)
    ensures Reported(Mutual(arith), Call("f", []))
    ensures Reported(Program(consts, [Fn("f", [], Block([While(Int(1), Block([], None))], None))], arith),
      Call("f", []))
  {
    MutualRecursion(arith, LIMIT, "f", Ctx(0, false));
    var loop := While(Int(1), Block([], None));
    var fn := Fn("f", [], Block([loop], None));
    var p, c := Program(consts, [fn], arith), Ctx(1, false);
    EndlessWhile(p, LIMIT, [], c);
    assert FindFn(p.fns, "f") == Some(fn);
    assert EvalArgs(p, LIMIT, [], [], [], [], c) == Out(Fell, [], c);
    assert EvalStmts(p, LIMIT, [loop], [], c) == EvalStmt(p, LIMIT, loop, [], c);
  }

  // ---------- The evaluator ----------

  class Evaluator {
    const p: Program
    const limit: nat
    var steps: nat
    var over: bool

    function State(): Ctx
      reads this
    {
      Ctx(steps, over)
    }

    constructor (p: Program, limit: nat)
      ensures this.p == p && this.limit == limit && State() == Ctx(0, false)
    {
      this.p, this.limit, steps, over := p, limit, 0, false;
    }

    method Expr(e: Expr, env: seq<Bind>) returns (v: int)
      requires Good(limit, State())
      modifies this
      ensures Val(v, State()) == EvalExpr(p, limit, e, env, old(State()))
      decreases limit + 1 - steps, 0, 0
    {
      if over { return 0; }
      steps := steps + 1;
      if steps > limit {
        over := true;
        return 0;
      }
      match e {
        case Int(i) =>
          return i;
        case Name(x) =>
          if FindBind(env, x) != None { return FindBind(env, x).value; }
          if FindConst(p.consts, x) == None {
            over := true;
            return 0;
          }
          v := Expr(FindConst(p.consts, x).value.e, []);
        case Unary(neg, x) =>
          if !neg {
            over := true;
            return 0;
          }
          v := Expr(x, env);
          v := -v;
        case Bin(op, l, r) =>
          v := Binary(op, l, r, env);
        case Call(f, args) =>
          if FindFn(p.fns, f) == None || |args| != |FindFn(p.fns, f).value.params| {
            over := true;
            return 0;
          }
          v := CallFn(FindFn(p.fns, f).value, args, env);
        case Other =>
          over := true;
          return 0;
      }
    }

    method Binary(op: Op, l: Expr, r: Expr, env: seq<Bind>) returns (v: int)
      requires Good(limit, State()) && !over
      modifies this
      ensures Val(v, State()) ==
        var a := EvalExpr(p, limit, l, env, old(State()));
        if a.c.over then Val(0, a.c)
        else if Decides(op, a.v) then Val(Flag(op == Or), a.c)
        else
          var z := EvalExpr(p, limit, r, env, a.c);
          if z.c.over then Val(0, z.c) else Applied(p.arith(op, a.v, z.v), z.c)
      decreases limit + 1 - steps, 1, 0
    {
      var a := Expr(l, env);
      if over { return 0; }
      if Decides(op, a) { return Flag(op == Or); }
      var z := Expr(r, env);
      if over { return 0; }
      var res := p.arith(op, a, z);
      over := res == None;
      v := if res == None then 0 else res.value;
    }

    method CallFn(fn: Fn, args: seq<Expr>, env: seq<Bind>) returns (v: int)
      requires Good(limit, State()) && !over && |args| == |fn.params|
      modifies this
      ensures Val(v, State()) ==
        var a := EvalArgs(p, limit, args, fn.params, [], env, old(State()));
        if a.c.over then Val(0, a.c) else Outcome(EvalBlock(p, limit, fn.body, a.env, a.c))
      decreases limit + 1 - steps, 3, 0
    {
      var fenv: seq<Bind> := [];
      ghost var start := State();
      for j := 0 to |args|
        invariant Good(limit, State()) && !over && steps >= start.steps
        invariant EvalArgs(p, limit, args, fn.params, [], env, start)
               == EvalArgs(p, limit, args[j..], fn.params[j..], fenv, env, State())
      {
        var v := Expr(args[j], env);
        assert args[j..][1..] == args[j + 1..] && fn.params[j..][1..] == fn.params[j + 1..];
        if over { return 0; }
        fenv := [Bind(fn.params[j], v)] + fenv;
      }
      var kind;
      kind, fenv := Block(fn.body, fenv);
      match kind {
        case Returned(v) => return v;
        case Stopped => return 0;
        case Fell =>
          over := true;
          return 0;
      }
    }

    method Block(body: Block, before: seq<Bind>) returns (kind: Kind, env: seq<Bind>)
      requires Good(limit, State())
      modifies this
      ensures Out(kind, env, State()) == EvalBlock(p, limit, body, before, old(State()))
      decreases limit + 1 - steps, 2, 0
    {
      env := before;
      ghost var start := State();
      for i := 0 to |body.stmts|
        invariant Good(limit, State()) && steps >= start.steps
        invariant EvalStmts(p, limit, body.stmts, before, start)
               == EvalStmts(p, limit, body.stmts[i..], env, State())
      {
        if over { return Stopped, env; }
        assert body.stmts[i..][1..] == body.stmts[i + 1..];
        kind, env := Stmt(body.stmts[i], env);
        if kind != Fell { return; }
      }
      if body.tail == None { return Fell, env; }
      var v := Expr(body.tail.value, env);
      kind := if over then Stopped else Returned(v);
    }

    method Stmt(st: Stmt, before: seq<Bind>) returns (kind: Kind, env: seq<Bind>)
      requires Good(limit, State())
      modifies this
      ensures Out(kind, env, State()) == EvalStmt(p, limit, st, before, old(State()))
      decreases limit + 1 - steps, 1, 0
    {
      env := before;
      kind := Fell;
      match st {
        case Let(x, e) =>
          var v := Expr(e, env);
          if over { return Stopped, env; }
          env := [Bind(x, v)] + env;
        case LetOther =>
        case Return(value) =>
          if value == None { return Returned(0), env; }
          var v := Expr(value.value, env);
          kind := if over then Stopped else Returned(v);
        case While(cond, body) =>
          kind, env := Loop(cond, body, env);
        case Eval(e) =>
          var v := Expr(e, env);
          if over { return Stopped, env; }
        case Assign(x, e) =>
          var v := Expr(e, env);
          if over { return Stopped, env; }
          env := Store(env, x, v);
        case Unsupported =>
          over := true;
          return Stopped, env;
      }
    }

    method Loop(cond: Expr, body: Block, before: seq<Bind>) returns (kind: Kind, env: seq<Bind>)
      requires Good(limit, State())
      modifies this
      ensures Out(kind, env, State()) == EvalWhile(p, limit, cond, body, before, old(State()))
      decreases limit + 1 - steps, 0, 1
    {
      env := before;
      ghost var start := State();
      while true
        invariant Good(limit, State()) && steps >= start.steps
        invariant EvalWhile(p, limit, cond, body, before, start) == EvalWhile(p, limit, cond, body, env, State())
        decreases limit + 1 - steps
      {
        var c := Expr(cond, env);
        if over { return Stopped, env; }
        if c == 0 { return Fell, env; }
        kind, env := Block(body, env);
        if kind != Fell { return; }
      }
    }
  }

  function ReportedNames(p: Program, consts: seq<Const>): seq<string> {
    if consts == [] then []
    else
      var k := |consts| - 1;
      ReportedNames(p, consts[..k]) + OwnName(p, consts[k])
  }

  function OwnName(p: Program, k: Const): seq<string> { if Reported(p, k.e) then [k.name] else [] }

  method CheckConst(p: Program, k: Const) returns (reported: seq<string>)
    ensures reported == OwnName(p, k)
  {
    var ev := new Evaluator(p, LIMIT);
    var _ := ev.Expr(k.e, []);
    reported := if ev.over && ev.steps > LIMIT then [k.name] else [];
  }

  /** The constants that the checker reports, in order. */
  method CheckConsts(consts: seq<Const>, fns: seq<Fn>) returns (reported: seq<string>)
    ensures reported == ReportedNames(Program(consts, fns, Apply), consts)
  {
    var p := Program(consts, fns, Apply);
    reported := [];
    for i := 0 to |p.consts|
      invariant reported == ReportedNames(p, p.consts[..i])
    {
      var own := CheckConst(p, p.consts[i]);
      assert p.consts[..i + 1][..i] == p.consts[..i];
      reported := reported + own;
    }
    assert p.consts[..|p.consts|] == p.consts;
  }
}
