/** The part of the language that compile-time evaluation understands; anything else
    is `Other` or `Unsupported`. */
module Comptime {
  import opened Options

  datatype Op = And | Or | Add | Sub | Mul | Div | Mod | Lt | Gt | Le | Ge | Eq | Ne | OtherOp

  datatype Expr =
    | Int(v: int)
    | Name(x: string)
    | Unary(neg: bool, e: Expr)
    | Bin(op: Op, l: Expr, r: Expr)
    | Call(f: string, args: seq<Expr>)
    | Other

  /** A `let` of anything but a plain name is passed over without being evaluated. */
  datatype Stmt =
    | Let(x: string, e: Expr)
    | LetOther
    | Return(value: Option<Expr>)
    | While(cond: Expr, body: Block)
    | Eval(e: Expr)
    | Assign(x: string, e: Expr)
    | Unsupported

  datatype Block = Block(stmts: seq<Stmt>, tail: Option<Expr>)

  datatype Fn = Fn(name: string, params: seq<string>, body: Block)

  datatype Const = Const(name: string, e: Expr)

  /** What an operator gives for two values; nothing where evaluation gives up. */
  type Arith = (Op, int, int) -> Option<int>

  /** The constants of a file, the compile-time functions it can call, and what the
      evaluator at hand makes of operators. */
  datatype Program = Program(consts: seq<Const>, fns: seq<Fn>, arith: Arith)

  datatype Bind = Bind(x: string, v: int)

  function FindBind(env: seq<Bind>, x: string): Option<int> {
    if env == [] then None else if env[0].x == x then Some(env[0].v) else FindBind(env[1..], x)
  }

  /** Updates the newest binding of `x`, or adds one in front. */
  function Store(env: seq<Bind>, x: string, v: int): seq<Bind> {
    if FindBind(env, x) == None then [Bind(x, v)] + env else Update(env, x, v)
  }

  function Update(env: seq<Bind>, x: string, v: int): seq<Bind> {
    if env == [] then []
    else if env[0].x == x then [Bind(x, v)] + env[1..]
    else [env[0]] + Update(env[1..], x, v)
  }

  function FindConst(consts: seq<Const>, x: string): Option<Const> {
    if consts == [] then None else if consts[0].name == x then Some(consts[0]) else FindConst(consts[1..], x)
  }

  function FindFn(fns: seq<Fn>, f: string): Option<Fn> {
    if fns == [] then None else if fns[0].name == f then Some(fns[0]) else FindFn(fns[1..], f)
  }

  function Flag(c: bool): int { if c then 1 else 0 }
}
