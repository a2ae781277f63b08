/** Which names a piece of syntax binds and assigns, and what a frame gains. */
module Names {
  import opened Options
  import opened Syntax

  function PatNames(p: Pat): set<string> {
    match p
    case Bind(x) => {x}
    case PayP(_, sub) => PatNames(sub)
    case _ => {}
  }

  function OptName(x: Option<string>): set<string> { if x.Some? then {x.value} else {} }

  // ---------- Names bound, or bound and assigned, anywhere inside ----------

  /** The names bound in `e`; with `asg`, also those it assigns. */
  function ExprNames(e: Expr, asg: bool): set<string>
    decreases e, 1, 0
  {
    match e
    case Lit(_) => {}
    case Var(_) => {}
    case Panic => {}
    case Not(x) => ExprNames(x, asg)
    case Neg(x) => ExprNames(x, asg)
    case MkPay(_, x) => ExprNames(x, asg)
    case Try(x) => ExprNames(x, asg)
    case Bin(_, x, y) => ExprNames(x, asg) + ExprNames(y, asg)
    case AndAlso(x, y) => ExprNames(x, asg) + ExprNames(y, asg)
    case OrElse(x, y) => ExprNames(x, asg) + ExprNames(y, asg)
    case Call(_, args) => ArgsNames(e, asg, 0)
    case If(c, t, els) =>
      ExprNames(c, asg) + BlockNames(t, asg) + (if els.Some? then ExprNames(els.value, asg) else {})
    case Match(s, _) => ExprNames(s, asg) + ArmsNames(e, asg, 0)
    case BlockE(b) => BlockNames(b, asg)
  }

  function ArgsNames(e: Expr, asg: bool, i: nat): set<string>
    requires e.Call? && i <= |e.args|
    decreases e, 0, |e.args| - i
  {
    if i == |e.args| then {} else ExprNames(e.args[i], asg) + ArgsNames(e, asg, i + 1)
  }

  function ArmsNames(e: Expr, asg: bool, i: nat): set<string>
    requires e.Match? && i <= |e.arms|
    decreases e, 0, |e.arms| - i
  {
    if i == |e.arms| then {} else ArmNames(e.arms[i], asg) + ArmsNames(e, asg, i + 1)
  }

  function ArmNames(a: Arm, asg: bool): set<string>
    decreases a, 0, 0
  {
    PatNames(a.pat) + (if a.guard.Some? then ExprNames(a.guard.value, asg) else {}) + ExprNames(a.body, asg)
  }

  function BlockNames(b: Block, asg: bool): set<string>
    decreases b, 1, 0
  {
    StmtsNames(b, asg, 0)
  }

  /** The statements from `i` on, and the tail. */
  function StmtsNames(b: Block, asg: bool, i: nat): set<string>
    requires i <= |b.stmts|
    decreases b, 0, |b.stmts| - i
  {
    if i == |b.stmts| then (if b.tail.Some? then ExprNames(b.tail.value, asg) else {})
    else StmtNames(b.stmts[i], asg) + StmtsNames(b, asg, i + 1)
  }

  function StmtNames(s: Stmt, asg: bool): set<string>
    decreases s, 1, 0
  {
    match s
    case Let(x, _, e) => OptName(x) + ExprNames(e, asg)
    case Return(v) => if v.Some? then ExprNames(v.value, asg) else {}
    case Break => {}
    case Continue => {}
    case ExprS(e) => ExprNames(e, asg)
    case Assign(x, _, e) => (if asg then {x} else {}) + ExprNames(e, asg)
    case While(c, b) => ExprNames(c, asg) + BlockNames(b, asg)
    case For(x, lo, hi, _, b) => OptName(x) + ExprNames(lo, asg) + ExprNames(hi, asg) + BlockNames(b, asg)
  }

  // ---------- What frames gain ----------

  /** The names of each frame. */
  ghost function Keys(fr: Frames): (ks: seq<set<string>>)
    ensures |ks| == |fr|
  {
    if fr == [] then [] else [fr[0].Keys] + Keys(fr[1..])
  }

  ghost predicate SameKeys(a: Frames, b: Frames) { Keys(a) == Keys(b) }

  /** Only the top frame gains names, and only those in `xs`. */
  ghost predicate Grows(a: Frames, b: Frames, xs: set<string>) {
    && a != [] && b != []
    && SameKeys(a[1..], b[1..])
    && a[0].Keys <= b[0].Keys <= a[0].Keys + xs
  }

  lemma {:induction false} SetKeeps(fr: Frames, x: string, v: Val)
    ensures SameKeys(fr, Set(fr, x, v))
  {
    if fr != [] && x !in fr[0] {
      SetKeeps(fr[1..], x, v);
    } else if fr != [] {
      assert Set(fr, x, v)[1..] == fr[1..];
      assert fr[0][x := v].Keys == fr[0].Keys;
    }
  }

  lemma {:induction false} FindSameKeys(a: Frames, b: Frames, x: string)
    requires SameKeys(a, b)
    ensures Find(a, x).Some? == Find(b, x).Some?
  {
    if a != [] {
      assert Keys(a)[0] == Keys(b)[0] && Keys(a)[1..] == Keys(b)[1..];
      FindSameKeys(a[1..], b[1..], x);
    }
  }

  lemma PushKeys(m: Frame, fr: Frames)
    ensures Keys([m] + fr) == [m.Keys] + Keys(fr)
  {
    assert ([m] + fr)[1..] == fr;
  }

  lemma PopKeeps(m: Frame, fr: Frames, after: Frames)
    requires SameKeys([m] + fr, after)
    ensures SameKeys(fr, Pop(after))
  {
    PushKeys(m, fr);
    assert Keys(after)[1..] == Keys(fr);
  }

  lemma GrowsSame(a: Frames, b: Frames)
    requires SameKeys(a, b) && a != []
    ensures Grows(a, b, {})
  {
    assert Keys(a)[0] == Keys(b)[0] && Keys(a)[1..] == Keys(b)[1..];
  }

  lemma DeclareKeeps(fr: Frames, x: string, v: Val)
    requires fr != [] && x in fr[0]
    ensures SameKeys(fr, Declare(fr, x, v))
  {
    assert fr[0][x := v].Keys == fr[0].Keys;
  }
}
