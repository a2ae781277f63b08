/** The package check's evaluator for constants: a budget of steps and a cap on
    nested calls. It knows arithmetic and calls only; a callee sees its caller's
    bindings behind its own. */
module PackageBudget {
  import opened Options
  import opened Comptime
  import Arithmetic

  const CAP: nat := 400

  const DEFAULT_BUDGET: nat := 1000000

  /** `ok` says that evaluation goes on, `err` that it was the budget or the cap that
      stopped it. `peak` records the deepest call tried; nothing reads it. */
  datatype Ctx = Ctx(steps: nat, depth: nat, ok: bool, err: bool, peak: nat)

  datatype Val = Val(v: int, c: Ctx)

  datatype Args = Args(env: seq<Bind>, c: Ctx)

  function Start(): Ctx { Ctx(0, 0, true, false, 0) }

  /** What bounds a run: steps, and the depth at which a call is refused. */
  datatype Bounds = Bounds(steps: nat, depth: nat)

  /** Within bounds; `err` if and only if one of them was passed. */
  predicate Good(b: Bounds, c: Ctx) {
    && c.steps <= b.steps + 1
    && (c.err <==> c.steps > b.steps || c.peak > b.depth)
    && !(c.ok && c.err)
  }

  function Max(a: nat, b: nat): nat { if a < b then b else a }

  function Fail(c: Ctx): Val { Val(0, c.(ok := false)) }

  /** Arithmetic only, and dividing by zero gives zero. */
  function Apply(op: Op, a: int, z: int): Option<int> {
    match op
    case Add => Some(a + z)
    case Sub => Some(a - z)
    case Mul => Some(a * z)
    case Div => Some(if z == 0 then 0 else Arithmetic.Quot(a, z))
    case Mod => Some(if z == 0 then 0 else Arithmetic.Exact(Arithmetic.Mod, a, z))
    case _ => None
  }

  function Applied(v: Option<int>, c: Ctx): Val { if v == None then Fail(c) else Val(v.value, c) }

  function EvalExpr(p: Program, b: Bounds, e: Expr, env: seq<Bind>, c: Ctx): (r: Val)
    requires Good(b, c) && c.ok
    ensures Good(b, r.c) && r.c.steps > c.steps && r.c.depth == c.depth && r.c.peak >= c.peak
    decreases b.steps + 1 - c.steps, 0, 0
  {
    var c := c.(steps := c.steps + 1);
    if c.steps > b.steps then Val(0, c.(ok := false, err := true))
    else
      match e
      case Int(v) => Val(v, c)
      case Name(x) => if FindBind(env, x) == None then Fail(c) else Val(FindBind(env, x).value, c)
      case Unary(neg, x) =>
        var r := EvalExpr(p, b, x, env, c);
        Val(if neg then -r.v else r.v, r.c)
      case Bin(op, l, r) =>
        var a := EvalExpr(p, b, l, env, c);
        if !a.c.ok then Val(0, a.c)
        else
          var z := EvalExpr(p, b, r, env, a.c);
          if !z.c.ok then Val(0, z.c) else Applied(p.arith(op, a.v, z.v), z.c)
      case Call(f, args) =>
        if FindFn(p.fns, f) == None then Fail(c)
        else
          var fn := FindFn(p.fns, f).value;
          var c := c.(peak := Max(c.peak, c.depth));
          if c.depth > b.depth then Val(0, c.(ok := false, err := true))
          else if |args| != |fn.params| then Fail(c)
          else EvalCall(p, b, fn, args, env, c)
      case Other => Fail(c)
  }

  function EvalCall(p: Program, b: Bounds, fn: Fn, args: seq<Expr>, env: seq<Bind>, c: Ctx): (r: Val)
    requires Good(b, c) && |args| == |fn.params|
    ensures Good(b, r.c) && r.c.steps >= c.steps && r.c.depth == c.depth && r.c.peak >= c.peak
    decreases b.steps + 1 - c.steps, 2, 0
  {
    var a := EvalArgs(p, b, args, fn.params, env, env, c);
    if !a.c.ok then Val(0, a.c)
    else
      var r := EvalBody(p, b, fn.body, a.env, a.c.(depth := a.c.depth + 1));
      Val(r.v, r.c.(depth := a.c.depth))
  }

  /** Arguments are evaluated in the caller's bindings and put in front of them. */
  function EvalArgs(
      p: Program, b: Bounds, args: seq<Expr>, params: seq<string>, sub: seq<Bind>, env: seq<Bind>, c: Ctx): (r: Args)
    requires Good(b, c) && |args| == |params|
    ensures Good(b, r.c) && r.c.steps >= c.steps && r.c.depth == c.depth && r.c.peak >= c.peak
    decreases b.steps + 1 - c.steps, 1, |args|
  {
    if args == [] || !c.ok then Args(sub, c)
    else
      var a := EvalExpr(p, b, args[0], env, c);
      EvalArgs(p, b, args[1..], params[1..], [Bind(params[0], a.v)] + sub, env, a.c)
  }

  /** A body is one `return` or a tail. */
  function EvalBody(p: Program, b: Bounds, body: Block, env: seq<Bind>, c: Ctx): (r: Val)
    requires Good(b, c) && c.ok
    ensures Good(b, r.c) && r.c.steps >= c.steps && r.c.depth == c.depth && r.c.peak >= c.peak
    decreases b.steps + 1 - c.steps, 1, 0
  {
    if body.stmts != [] then
      match body.stmts[0]
      case Return(Some(e)) => EvalExpr(p, b, e, env, c)
      case Return(None) => Val(0, c)
      case _ => Fail(c)
    else if body.tail == None then Fail(c)
    else EvalExpr(p, b, body.tail.value, env, c)
  }

  function Run(p: Program, b: Bounds, e: Expr): (r: Val)
    ensures r.c.steps <= b.steps + 1
    ensures r.c.err <==> r.c.steps > b.steps || r.c.peak > b.depth
  {
    EvalExpr(p, b, e, [], Start())
  }

  // ---------- Larger bounds ----------

  predicate Larger(b: Bounds, b2: Bounds) { b.steps <= b2.steps && b.depth <= b2.depth }

  /** A run that stays within `b` is the same under larger bounds; one that does not
      passes one of the bounds in `b` there too. */
  predicate Scales(b: Bounds, c: Ctx, c2: Ctx) {
    if c.err then c2.steps > b.steps || c2.peak > b.depth else c2 == c
  }

  lemma {:induction false} ExprScales(p: Program, b: Bounds, b2: Bounds, e: Expr, env: seq<Bind>, c: Ctx)
    requires Good(b, c) && Good(b2, c) && c.ok && Larger(b, b2)
    ensures var r, r2 := EvalExpr(p, b, e, env, c), EvalExpr(p, b2, e, env, c);
      Scales(b, r.c, r2.c) && (r.c.err || r2 == r)
    decreases b.steps + 1 - c.steps, 0, 0
  {
    if c.steps < b.steps {
      var c := c.(steps := c.steps + 1);
      match e
      case Unary(_, x) =>
        ExprScales(p, b, b2, x, env, c);
      case Bin(op, l, r) =>
        OperandsScale(p, b, b2, l, r, env, c);
      case Call(f, args) =>
        if FindFn(p.fns, f) != None && c.depth <= b.depth && |args| == |FindFn(p.fns, f).value.params| {
          CallScales(p, b, b2, FindFn(p.fns, f).value, args, env, c.(peak := Max(c.peak, c.depth)));
        }
      case _ =>
    }
  }

  lemma {:induction false} OperandsScale(p: Program, b: Bounds, b2: Bounds, l: Expr, r: Expr, env: seq<Bind>, c: Ctx)
    requires Good(b, c) && Good(b2, c) && c.ok && Larger(b, b2)
    ensures
      var a, a2 := EvalExpr(p, b, l, env, c), EvalExpr(p, b2, l, env, c);
      && Scales(b, a.c, a2.c) && (a.c.err || a2 == a)
      && (a.c.ok ==>
            var z, z2 := EvalExpr(p, b, r, env, a.c), EvalExpr(p, b2, r, env, a.c);
            Scales(b, z.c, z2.c) && (z.c.err || z2 == z))
    decreases b.steps + 1 - c.steps, 1, 0
  {
    ExprScales(p, b, b2, l, env, c);
    var a := EvalExpr(p, b, l, env, c);
    if a.c.ok {
      ExprScales(p, b, b2, r, env, a.c);
    }
  }

  lemma {:induction false} CallScales(
      p: Program, b: Bounds, b2: Bounds, fn: Fn, args: seq<Expr>, env: seq<Bind>, c: Ctx)
    requires Good(b, c) && Good(b2, c) && c.ok && Larger(b, b2) && |args| == |fn.params|
    ensures var r, r2 := EvalCall(p, b, fn, args, env, c), EvalCall(p, b2, fn, args, env, c);
      Scales(b, r.c, r2.c) && (r.c.err || r2 == r)
    decreases b.steps + 1 - c.steps, 2, 0
  {
    ArgsScale(p, b, b2, args, fn.params, env, env, c);
    var a := EvalArgs(p, b, args, fn.params, env, env, c);
    if a.c.ok {
      BodyScales(p, b, b2, fn.body, a.env, a.c.(depth := a.c.depth + 1));
    }
  }

  lemma {:induction false} ArgsScale(
      p: Program, b: Bounds, b2: Bounds, args: seq<Expr>, params: seq<string>, sub: seq<Bind>, env: seq<Bind>, c: Ctx)
    requires Good(b, c) && Good(b2, c) && Larger(b, b2) && |args| == |params|
    ensures var a, a2 := EvalArgs(p, b, args, params, sub, env, c), EvalArgs(p, b2, args, params, sub, env, c);
      Scales(b, a.c, a2.c) && (a.c.err || a2 == a)
    decreases b.steps + 1 - c.steps, 1, |args|
  {
    if args != [] && c.ok {
      ExprScales(p, b, b2, args[0], env, c);
      var a := EvalExpr(p, b, args[0], env, c);
      if a.c.ok {
        ArgsScale(p, b, b2, args[1..], params[1..], [Bind(params[0], a.v)] + sub, env, a.c);
      }
    }
  }

  lemma {:induction false} BodyScales(p: Program, b: Bounds, b2: Bounds, body: Block, env: seq<Bind>, c: Ctx)
    requires Good(b, c) && Good(b2, c) && c.ok && Larger(b, b2)
    ensures var r, r2 := EvalBody(p, b, body, env, c), EvalBody(p, b2, body, env, c);
      Scales(b, r.c, r2.c) && (r.c.err || r2 == r)
    decreases b.steps + 1 - c.steps, 1, 0
  {
    if body.stmts != [] {
      match body.stmts[0]
      case Return(Some(e)) => ExprScales(p, b, b2, e, env, c);
      case _ =>
    } else if body.tail != None {
      ExprScales(p, b, b2, body.tail.value, env, c);
    }
  }

  // ---------- The check ----------

  /** The evaluation, given whatever bounds, ends without passing `b`. */
  ghost predicate EndsWithin(p: Program, e: Expr, b: Bounds) {
    exists b2: Bounds :: !Run(p, b2, e).c.err && Run(p, b2, e).c.steps <= b.steps && Run(p, b2, e).c.peak <= b.depth
  }

  /** An evaluation that stays within its bounds has the same value under larger ones. */
  lemma LargerBounds(p: Program, b: Bounds, b2: Bounds, e: Expr)
    requires Larger(b, b2) && !Run(p, b, e).c.err
    ensures Run(p, b2, e) == Run(p, b, e)
  {
    ExprScales(p, b, b2, e, [], Start());
  }

  /** A constant is in error if and only if evaluating it takes more steps than the
      budget, or a call deeper than the cap. */
  lemma ErrorExactly(p: Program, e: Expr, b: Bounds)
    ensures Run(p, b, e).c.err <==> !EndsWithin(p, e, b)
  {
    if !Run(p, b, e).c.err {
      assert Run(p, b, e).c.steps <= b.steps && Run(p, b, e).c.peak <= b.depth;
    } else if EndsWithin(p, e, b) {
      var b2: Bounds :| !Run(p, b2, e).c.err && Run(p, b2, e).c.steps <= b.steps && Run(p, b2, e).c.peak <= b.depth;
      var both := Bounds(Max(b.steps, b2.steps), Max(b.depth, b2.depth));
      LargerBounds(p, b2, both, e);
      ExprScales(p, b, both, e, [], Start());
      assert false;
    }
  }

  /** A function that calls itself is stopped by the cap or the budget, whatever they
      are, and so it is reported. */
  lemma {:induction false} RecursionIsReported(p: Program, b: Bounds, f: string, env: seq<Bind>, c: Ctx)
    requires Good(b, c) && c.ok
    requires FindFn(p.fns, f) == Some(Fn(f, [], Block([], Some(Call(f, [])))))
    ensures EvalExpr(p, b, Call(f, []), env, c).c.err
    decreases b.steps + 1 - c.steps
  {
    if c.steps < b.steps && c.depth <= b.depth {
      var inner := c.(steps := c.steps + 1, peak := Max(c.peak, c.depth));
      assert EvalArgs(p, b, [], [], env, env, inner) == Args(env, inner);
      var body := Block([], Some(Call(f, [])));
      RecursionIsReported(p, b, f, env, inner.(depth := inner.depth + 1));
      assert EvalBody(p, b, body, env, inner.(depth := inner.depth + 1)).c.err;
      assert EvalCall(p, b, Fn(f, [], body), [], env, inner).c.err;
    }
  }

  // ---------- The evaluator ----------

  class Evaluator {
    const p: Program
    const budget: nat
    var steps: nat
    var depth: nat
    var ok: bool
    var err: bool
    ghost var peak: nat

    ghost function State(): Ctx
      reads this
    {
      Ctx(steps, depth, ok, err, peak)
    }

    function Limits(): Bounds { Bounds(budget, CAP) }

    constructor (p: Program, budget: nat)
      ensures this.p == p && this.budget == budget && State() == Start()
    {
      this.p, this.budget, steps, depth, ok, err, peak := p, budget, 0, 0, true, false, 0;
    }

    method Expr(e: Expr, env: seq<Bind>) returns (v: int)
      requires Good(Limits(), State()) && ok
      modifies this
      ensures Val(v, State()) == EvalExpr(p, Limits(), e, env, old(State()))
      decreases budget + 1 - steps, 0, 0
    {
      v := 0;
      steps := steps + 1;
      if steps > budget {
        ok, err := false, true;
        return;
      }
      match e {
        case Int(i) =>
          v := i;
        case Name(x) =>
          if FindBind(env, x) == None { ok := false; } else { v := FindBind(env, x).value; }
        case Unary(neg, x) =>
          v := Expr(x, env);
          if neg { v := -v; }
        case Bin(op, l, r) =>
          v := Binary(op, l, r, env);
        case Call(f, args) =>
          if FindFn(p.fns, f) == None {
            ok := false;
            return;
          }
          var fn := FindFn(p.fns, f).value;
          peak := Max(peak, depth);
          if depth > CAP {
            ok, err := false, true;
            return;
          }
          if |args| != |fn.params| {
            ok := false;
            return;
          }
          v := CallFn(fn, args, env);
        case Other =>
          ok := false;
      }
    }

    method Binary(op: Op, l: Expr, r: Expr, env: seq<Bind>) returns (v: int)
      requires Good(Limits(), State()) && ok
      modifies this
      ensures Val(v, State()) ==
        var a := EvalExpr(p, Limits(), l, env, old(State()));
        if !a.c.ok then Val(0, a.c)
        else
          var z := EvalExpr(p, Limits(), r, env, a.c);
          if !z.c.ok then Val(0, z.c) else Applied(p.arith(op, a.v, z.v), z.c)
      decreases budget + 1 - steps, 1, 0
    {
      var a := Expr(l, env);
      if !ok { return 0; }
      var z := Expr(r, env);
      if !ok { return 0; }
      var res := p.arith(op, a, z);
      ok := res != None;
      v := if res == None then 0 else res.value;
    }

    method CallFn(fn: Fn, args: seq<Expr>, env: seq<Bind>) returns (v: int)
      requires Good(Limits(), State()) && ok && |args| == |fn.params|
      modifies this
      ensures Val(v, State()) == EvalCall(p, Limits(), fn, args, env, old(State()))
      decreases budget + 1 - steps, 2, 0
    {
      var sub, i := env, 0;
      ghost var start := State();
      while i < |args| && ok
        invariant i <= |args| && Good(Limits(), State()) && steps >= start.steps && depth == start.depth
        invariant EvalArgs(p, Limits(), args, fn.params, env, env, start)
               == EvalArgs(p, Limits(), args[i..], fn.params[i..], sub, env, State())
      {
        var v := Expr(args[i], env);
        assert args[i..][1..] == args[i + 1..] && fn.params[i..][1..] == fn.params[i + 1..];
        sub := [Bind(fn.params[i], v)] + sub;
        i := i + 1;
      }
      if !ok { return 0; }
      depth := depth + 1;
      v := Body(fn.body, sub);
      depth := depth - 1;
    }

    method Body(body: Block, env: seq<Bind>) returns (v: int)
      requires Good(Limits(), State()) && ok
      modifies this
      ensures Val(v, State()) == EvalBody(p, Limits(), body, env, old(State()))
      decreases budget + 1 - steps, 1, 0
    {
      v := 0;
      if body.stmts != [] {
        match body.stmts[0] {
          case Return(value) =>
            if value != None { v := Expr(value.value, env); }
          case _ =>
            ok := false;
        }
      } else if body.tail != None {
        v := Expr(body.tail.value, env);
      } else {
        ok := false;
      }
    }
  }

  ghost predicate FirstInError(p: Program, consts: seq<Const>, budget: nat, j: int) {
    && 0 <= j < |consts| && !EndsWithin(p, consts[j].e, Bounds(budget, CAP))
    && forall i :: 0 <= i < j ==> EndsWithin(p, consts[i].e, Bounds(budget, CAP))
  }

  /** The budget of a package: `ms` from its manifest, or the default. */
  function Budget(ms: int): nat { if ms > 0 then ms * 10000 else DEFAULT_BUDGET }

  /** The package's functions; constants are not looked up by name here. */
  function Source(fns: seq<Fn>): Program { Program([], fns, Apply) }

  /** The constant of a module that is reported, if any: the first one in error. */
  method CheckModule(fns: seq<Fn>, consts: seq<Const>, ms: int) returns (reported: Option<string>)
    ensures reported == None <==>
      forall j :: 0 <= j < |consts| ==> EndsWithin(Source(fns), consts[j].e, Bounds(Budget(ms), CAP))
    ensures reported != None ==>
      exists j :: FirstInError(Source(fns), consts, Budget(ms), j) && reported == Some(consts[j].name)
  {
    var p, budget := Source(fns), Budget(ms);
    for j := 0 to |consts|
      invariant forall i :: 0 <= i < j ==> EndsWithin(p, consts[i].e, Bounds(budget, CAP))
    {
      var ev := new Evaluator(p, budget);
      var _ := ev.Expr(consts[j].e, []);
      ErrorExactly(p, consts[j].e, Bounds(budget, CAP));
      assert ev.err ==> FirstInError(p, consts, budget, j);
      if ev.err { return Some(consts[j].name); }
    }
    return None;
  }
}
