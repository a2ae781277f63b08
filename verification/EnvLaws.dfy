/** What names mean, said by the answers of runs alone: bindings are read back,
    blocks restore what they shadow, and a closure sees the names of the place it was
    made in. */
module EnvLaws {
  import opened Options
  import opened RecyclingEnv
  import opened EnvMachine

  function Start<V>(): Abs<V> { Abs([], [], [], []) }

  /** A run from the beginning. */
  predicate Runs<V>(ops: seq<Op<V>>) { Bracketed(Start(), ops) }

  /** What looking up `x` answers after `ops`. */
  function Look<V>(ops: seq<Op<V>>, x: string): Option<V>
    requires Runs(ops + [DoFind(x)])
  {
    AnswersLength(Start(), ops + [DoFind(x)]);
    Answers(Start(), ops + [DoFind(x)])[|ops|]
  }

  lemma {:induction false} AnswersLength<V>(a: Abs<V>, ops: seq<Op<V>>)
    requires Bracketed(a, ops)
    ensures |Answers(a, ops)| == |ops|
    decreases |ops|
  {
    if ops != [] {
      AnswersLength(AbsStep(a, ops[0]).0, ops[1..]);
    }
  }

  // ---------- Runs one after the other ----------

  lemma {:induction false} Split<V>(a: Abs<V>, ops: seq<Op<V>>, more: seq<Op<V>>)
    requires Bracketed(a, ops + more)
    ensures Bracketed(a, ops) && Bracketed(AbsRun(a, ops), more)
    ensures AbsRun(a, ops + more) == AbsRun(AbsRun(a, ops), more)
    ensures Answers(a, ops + more) == Answers(a, ops) + Answers(AbsRun(a, ops), more)
    decreases |ops|
  {
    if ops == [] {
      assert ops + more == more;
    } else {
      assert (ops + more)[0] == ops[0] && (ops + more)[1..] == ops[1..] + more;
      Split(AbsStep(a, ops[0]).0, ops[1..], more);
    }
  }

  lemma {:induction false} Joined<V>(a: Abs<V>, ops: seq<Op<V>>, more: seq<Op<V>>)
    requires Bracketed(a, ops) && Bracketed(AbsRun(a, ops), more)
    ensures Bracketed(a, ops + more)
    decreases |ops|
  {
    if ops == [] {
      assert ops + more == more;
    } else {
      assert (ops + more)[0] == ops[0] && (ops + more)[1..] == ops[1..] + more;
      Joined(AbsStep(a, ops[0]).0, ops[1..], more);
    }
  }

  lemma One<V>(a: Abs<V>, op: Op<V>)
    ensures Bracketed(a, [op]) <==> Fits(a, op)
    ensures Fits(a, op) ==> AbsRun(a, [op]) == AbsStep(a, op).0 && Answers(a, [op]) == [AbsStep(a, op).1]
  {
    assert [op][1..] == [];
  }

  lemma LookIs<V>(ops: seq<Op<V>>, x: string)
    requires Runs(ops + [DoFind(x)])
    ensures Runs(ops) && Look(ops, x) == AbsFind(AbsRun(Start(), ops), x)
  {
    Split(Start(), ops, [DoFind(x)]);
    One(AbsRun(Start(), ops), DoFind(x));
    AnswersLength(Start(), ops);
  }

  // ---------- What one operation does to `x` ----------

  /** Frames below `n` have the parents they had, and the same `x`. */
  ghost predicate Kept<V>(f: seq<Frame<V>>, g: seq<Frame<V>>, n: nat, x: string) {
    && n <= |f| <= |g|
    && (forall i :: 0 <= i < n ==> f[i].up == g[i].up)
    && (forall i :: 0 <= i < n ==> (x in f[i].vars <==> x in g[i].vars))
    && (forall i :: 0 <= i < n && x in f[i].vars ==> f[i].vars[x] == g[i].vars[x])
  }

  lemma {:induction false} OwnerKept<V>(f: seq<Frame<V>>, g: seq<Frame<V>>, n: nat, x: string, id: Option<nat>)
    requires Kept(f, g, n, x) && (id.Some? ==> id.value < n)
    ensures Owner(f, id, x) == Owner(g, id, x) && (Owner(f, id, x).Some? ==> Owner(f, id, x).value < n)
    decreases if id.Some? then id.value + 1 else 0
  {
    if id.Some? && x !in f[id.value].vars {
      var up := f[id.value].up;
      if up.None? || up.value < id.value {
        OwnerKept(f, g, n, x, up);
      }
    }
  }

  /** The same from frame `id`, when its chain is kept. */
  lemma FoundAsBefore<V>(f: seq<Frame<V>>, g: seq<Frame<V>>, n: nat, x: string, id: Option<nat>)
    requires Kept(f, g, n, x) && (id.Some? ==> id.value < n)
    ensures FindFrom(f, id, x) == FindFrom(g, id, x)
  {
    OwnerKept(f, g, n, x, id);
  }

  function FindFrom<V>(f: seq<Frame<V>>, id: Option<nat>, x: string): Option<V> {
    var o := Owner(f, id, x);
    if o.None? then None else Some(f[o.value].vars[x])
  }

  predicate Writes<V>(op: Op<V>, x: string) { (op.DoLet? || op.DoAssign?) && op.x == x }

  /** Parents are older than their frames, and everything named exists. */
  ghost predicate Sound<V>(a: Abs<V>) {
    && |a.kinds| == |a.stack|
    && (forall i :: 0 <= i < |a.frames| && a.frames[i].up.Some? ==> a.frames[i].up.value < i)
    && (forall j :: 0 <= j < |a.stack| ==> a.stack[j] < |a.frames|)
    && (forall k :: 0 <= k < |a.clos| && a.clos[k].Some? ==> a.clos[k].value < |a.frames|)
  }

  lemma StepSound<V>(a: Abs<V>, op: Op<V>)
    requires Sound(a) && Fits(a, op)
    ensures Sound(AbsStep(a, op).0) && a.clos <= AbsStep(a, op).0.clos
  {
  }

  lemma StepKeeps<V>(a: Abs<V>, op: Op<V>, x: string)
    requires Fits(a, op) && !Writes(op, x)
    ensures Kept(a.frames, AbsStep(a, op).0.frames, |a.frames|, x)
  {
  }

  lemma {:induction false} RunKeeps<V>(a: Abs<V>, ops: seq<Op<V>>, x: string)
    requires Sound(a) && Bracketed(a, ops) && forall i :: 0 <= i < |ops| ==> !Writes(ops[i], x)
    ensures var b := AbsRun(a, ops); Sound(b) && a.clos <= b.clos && Kept(a.frames, b.frames, |a.frames|, x)
    decreases |ops|
  {
    if ops != [] {
      StepSound(a, ops[0]);
      StepKeeps(a, ops[0], x);
      RunKeeps(AbsStep(a, ops[0]).0, ops[1..], x);
    }
  }

  lemma {:induction false} RunSound<V>(a: Abs<V>, ops: seq<Op<V>>)
    requires Sound(a) && Bracketed(a, ops)
    ensures Sound(AbsRun(a, ops))
    decreases |ops|
  {
    if ops != [] {
      StepSound(a, ops[0]);
      RunSound(AbsStep(a, ops[0]).0, ops[1..]);
    }
  }

  // ---------- Reading back ----------

  /** A `let` is read back, and so is an assignment to a name that is there; no other
      name is touched. */
  lemma WritesReadBack<V>(ops: seq<Op<V>>, x: string, v: V, y: string)
    requires Runs(ops + [DoLet(x, v)])
    ensures Runs(ops + [DoFind(y)]) && Runs(ops + [DoLet(x, v)] + [DoFind(y)])
    ensures Runs(ops + [DoAssign(x, v)] + [DoFind(y)])
    ensures Look(ops + [DoLet(x, v)], y) == if x == y then Some(v) else Look(ops, y)
    ensures Look(ops + [DoAssign(x, v)], y) == if x == y && Look(ops, x).Some? then Some(v) else Look(ops, y)
  {
    Split(Start(), ops, [DoLet(x, v)]);
    var a := AbsRun(Start(), ops);
    One(a, DoLet(x, v));
    RunSound(Start(), ops);
    After(ops, DoLet(x, v), y);
    After(ops, DoAssign(x, v), y);
    After(ops, DoAssign(x, v), x);
    var o := Owner(a.frames, Last(a.stack), x);
    if x == y {
      if o.Some? {
        StoredIsFound(a, o.value, x, v);
      }
    } else {
      var b := AbsLet(a, x, v);
      FoundAsBefore(a.frames, b.frames, |a.frames|, y, Last(a.stack));
      if o.Some? {
        FoundAsBefore(a.frames, AbsStore(a, o.value, x, v).frames, |a.frames|, y, Last(a.stack));
      }
    }
  }

  lemma StoredIsFound<V>(a: Abs<V>, o: nat, x: string, v: V)
    requires Owner(a.frames, Last(a.stack), x) == Some(o)
    ensures AbsFind(AbsStore(a, o, x, v), x) == Some(v)
  {
    SameOwner(a.frames, AbsStore(a, o, x, v).frames, x, Last(a.stack));
  }

  lemma {:induction false} SameOwner<V>(f: seq<Frame<V>>, g: seq<Frame<V>>, x: string, id: Option<nat>)
    requires |f| == |g| && forall i :: 0 <= i < |f| ==> f[i].up == g[i].up && (x in f[i].vars <==> x in g[i].vars)
    ensures Owner(f, id, x) == Owner(g, id, x)
    decreases if id.Some? then id.value + 1 else 0
  {
    if id.Some? && id.value < |f| && x !in f[id.value].vars {
      var up := f[id.value].up;
      if up.None? || up.value < id.value {
        SameOwner(f, g, x, up);
      }
    }
  }

  /** Looking up after one more operation. */
  lemma After<V>(ops: seq<Op<V>>, op: Op<V>, x: string)
    requires Runs(ops) && Fits(AbsRun(Start(), ops), op) && Sound(AbsRun(Start(), ops))
    ensures Runs(ops + [DoFind(x)]) && Look(ops, x) == AbsFind(AbsRun(Start(), ops), x)
    ensures Runs(ops + [op]) && Runs(ops + [op] + [DoFind(x)])
    ensures Look(ops + [op], x) == AbsFind(AbsStep(AbsRun(Start(), ops), op).0, x)
    ensures AbsRun(Start(), ops + [op]) == AbsStep(AbsRun(Start(), ops), op).0
  {
    var a := AbsRun(Start(), ops);
    One(a, op);
    Joined(Start(), ops, [op]);
    Split(Start(), ops, [op]);
    StepSound(a, op);
    Lookable(ops, x);
    Lookable(ops + [op], x);
  }

  lemma Lookable<V>(ops: seq<Op<V>>, x: string)
    requires Runs(ops) && Sound(AbsRun(Start(), ops))
    ensures Runs(ops + [DoFind(x)]) && Look(ops, x) == AbsFind(AbsRun(Start(), ops), x)
  {
    One(AbsRun(Start(), ops), DoFind(x));
    Joined(Start(), ops, [DoFind(x)]);
    LookIs(ops, x);
  }

  // ---------- Blocks ----------

  function Depth<V>(op: Op<V>): int {
    if op.DoPush? || op.DoEnter? then 1 else if op.DoPop? || op.DoExitBlock? || op.DoLeave? then -1 else 0
  }

  /** Everything opened is closed, and nothing else is. */
  predicate Balanced<V>(ops: seq<Op<V>>, depth: nat)
    decreases |ops|
  {
    if ops == [] then depth == 0
    else depth + Depth(ops[0]) >= 0 && Balanced(ops[1..], depth + Depth(ops[0]))
  }

  /** Above the frames of `a`: its stack is the lower part, everything on it is newer,
      and `x` in its frames is as it was. */
  ghost predicate Above<V>(a: Abs<V>, b: Abs<V>, depth: nat, x: string) {
    && Sound(b) && |b.stack| == |a.stack| + depth && b.stack[..|a.stack|] == a.stack
    && b.kinds[..|a.stack|] == a.kinds
    && (forall j :: |a.stack| <= j < |b.stack| ==> b.stack[j] >= |a.frames|)
    && Kept(a.frames, b.frames, |a.frames|, x)
  }

  lemma StepAbove<V>(a: Abs<V>, b: Abs<V>, depth: nat, op: Op<V>, x: string)
    requires |a.kinds| == |a.stack| && Above(a, b, depth + 1, x) && Fits(b, op)
    requires depth + Depth(op) >= 0 && !(op.DoAssign? && op.x == x)
    ensures Above(a, AbsStep(b, op).0, depth + 1 + Depth(op), x)
  {
    StepSound(b, op);
  }

  lemma {:induction false} RunAbove<V>(a: Abs<V>, b: Abs<V>, depth: nat, ops: seq<Op<V>>, x: string)
    requires |a.kinds| == |a.stack| && Above(a, b, depth + 1, x) && Bracketed(b, ops) && Balanced(ops, depth)
    requires forall i :: 0 <= i < |ops| ==> !(ops[i].DoAssign? && ops[i].x == x)
    ensures Above(a, AbsRun(b, ops), 1, x)
    decreases |ops|
  {
    hide Above, Fits;
    if ops != [] {
      StepAbove(a, b, depth, ops[0], x);
      RunAbove(a, AbsStep(b, ops[0]).0, depth + Depth(ops[0]), ops[1..], x);
    }
  }

  predicate Opens<V>(op: Op<V>) { op.DoPush? || op.DoEnter? }

  predicate Closes<V>(op: Op<V>) { op.DoPop? || op.DoExitBlock? || op.DoLeave? }

  /** A block or a closure call that does not assign to `x` leaves `x` as it was,
      whatever it binds to that name inside. */
  lemma BlocksRestore<V>(ops: seq<Op<V>>, open: Op<V>, inner: seq<Op<V>>, close: Op<V>, x: string)
    requires Runs(ops + ([open] + (inner + [close]))) && Opens(open) && Closes(close) && Balanced(inner, 0)
    requires forall i :: 0 <= i < |inner| ==> !(inner[i].DoAssign? && inner[i].x == x)
    ensures Runs(ops + [DoFind(x)]) && Runs(ops + ([open] + (inner + [close])) + [DoFind(x)])
    ensures Look(ops + ([open] + (inner + [close])), x) == Look(ops, x)
  {
    hide AbsFind, Balanced, Sound;
    Split(Start(), ops, [open] + (inner + [close]));
    assert Sound(Start<V>()) by {
      StartSound<V>();
    }
    RunSound(Start(), ops);
    BlockRestores(AbsRun(Start(), ops), open, inner, close, x);
    Lookable(ops, x);
    Lookable(ops + ([open] + (inner + [close])), x);
  }

  lemma StartSound<V>()
    ensures Sound(Start<V>())
  {
  }

  lemma BlockRestores<V>(a: Abs<V>, open: Op<V>, inner: seq<Op<V>>, close: Op<V>, x: string)
    requires Sound(a) && Bracketed(a, [open] + (inner + [close])) && Opens(open) && Closes(close) && Balanced(inner, 0)
    requires forall i :: 0 <= i < |inner| ==> !(inner[i].DoAssign? && inner[i].x == x)
    ensures var d := AbsRun(a, [open] + (inner + [close])); Sound(d) && AbsFind(d, x) == AbsFind(a, x)
  {
    Split(a, [open], inner + [close]);
    One(a, open);
    var b := AbsStep(a, open).0;
    Split(b, inner, [close]);
    var c := AbsRun(b, inner);
    One(c, close);
    StepSound(a, open);
    RunAbove(a, b, 0, inner, x);
    hide AbsRun, Balanced;
    var d := AbsStep(c, close).0;
    StepSound(c, close);
    assert d.stack == a.stack;
    FoundAsBefore(a.frames, d.frames, |a.frames|, x, Last(a.stack));
  }

  /** In a block that has not bound `x` itself, `x` is that of the surroundings. */
  ghost predicate Unshadowed<V>(a: Abs<V>, b: Abs<V>, depth: nat, x: string) {
    var n, h := |a.frames|, |a.stack|;
    && Sound(b) && |b.stack| == h + 1 + depth && b.stack[..h] == a.stack && b.stack[h] == n && n < |b.frames|
    && b.frames[n].up == Last(a.stack) && x !in b.frames[n].vars
  }

  lemma StepUnshadowed<V>(a: Abs<V>, b: Abs<V>, depth: nat, op: Op<V>, x: string)
    requires Unshadowed(a, b, depth, x) && Fits(b, op) && depth + Depth(op) >= 0 && !(op.DoLet? && op.x == x)
    ensures Unshadowed(a, AbsStep(b, op).0, depth + Depth(op), x)
  {
    StepSound(b, op);
  }

  lemma {:induction false} RunUnshadowed<V>(a: Abs<V>, b: Abs<V>, depth: nat, ops: seq<Op<V>>, x: string)
    requires Unshadowed(a, b, depth, x) && Bracketed(b, ops) && Balanced(ops, depth)
    requires forall i :: 0 <= i < |ops| ==> !(ops[i].DoLet? && ops[i].x == x)
    ensures Unshadowed(a, AbsRun(b, ops), 0, x)
    decreases |ops|
  {
    hide Unshadowed, Fits;
    if ops != [] {
      StepUnshadowed(a, b, depth, ops[0], x);
      RunUnshadowed(a, AbsStep(b, ops[0]).0, depth + Depth(ops[0]), ops[1..], x);
    }
  }

  /** What a block assigns to a name that it does not bind stays assigned behind it. */
  lemma AssignmentsLeaveBlocks<V>(ops: seq<Op<V>>, inner: seq<Op<V>>, close: Op<V>, x: string)
    requires Runs(ops + ([DoPush] + inner) + [close]) && Closes(close) && Balanced(inner, 0)
    requires forall i :: 0 <= i < |inner| ==> !(inner[i].DoLet? && inner[i].x == x)
    ensures Runs(ops + ([DoPush] + inner) + [DoFind(x)]) && Runs(ops + ([DoPush] + inner) + [close] + [DoFind(x)])
    ensures Look(ops + ([DoPush] + inner) + [close], x) == Look(ops + ([DoPush] + inner), x)
  {
    hide Balanced, Unshadowed, AbsFind, Sound;
    assert Sound(Start<V>()) by {
      StartSound<V>();
    }
    var most := ops + ([DoPush] + inner);
    Split(Start(), most, [close]);
    Split(Start(), ops, [DoPush] + inner);
    var a := AbsRun(Start(), ops);
    Split(a, [DoPush], inner);
    One(a, DoPush);
    RunSound(Start(), ops);
    PushUnshadowed(a, x);
    RunUnshadowed(a, AbsStep(a, DoPush).0, 0, inner, x);
    RunSound(Start(), most);
    var c := AbsRun(Start(), most);
    One(c, close);
    hide AbsRun;
    After(most, close, x);
    ClosedUnshadowed(a, c, close, x);
  }

  lemma PushUnshadowed<V>(a: Abs<V>, x: string)
    requires Sound(a)
    ensures Unshadowed(a, AbsStep(a, DoPush).0, 0, x)
  {
    StepSound(a, DoPush);
  }

  lemma ClosedUnshadowed<V>(a: Abs<V>, c: Abs<V>, close: Op<V>, x: string)
    requires Unshadowed(a, c, 0, x) && Fits(c, close) && Closes(close)
    ensures AbsFind(AbsStep(c, close).0, x) == AbsFind(c, x)
  {
    assert AbsStep(c, close).0.stack == a.stack && AbsStep(c, close).0.frames == c.frames;
  }

  // ---------- Closures ----------

  function Captures<V>(ops: seq<Op<V>>): nat {
    if ops == [] then 0 else Captures(ops[..|ops| - 1]) + if ops[|ops| - 1].DoCapture? then 1 else 0
  }

  lemma {:induction false} CapturesCount<V>(ops: seq<Op<V>>)
    requires Runs(ops)
    ensures |AbsRun(Start(), ops).clos| == Captures(ops)
    decreases |ops|
  {
    if ops != [] {
      var n := |ops| - 1;
      assert ops == ops[..n] + [ops[n]];
      Split(Start(), ops[..n], [ops[n]]);
      One(AbsRun(Start(), ops[..n]), ops[n]);
      CapturesCount(ops[..n]);
    }
  }

  lemma ClosureSees<V>(a: Abs<V>, c: Abs<V>, k: nat, x: string)
    requires Sound(a) && Sound(c) && Kept(a.frames, c.frames, |a.frames|, x)
    requires k < |c.clos| && c.clos[k] == Last(a.stack) && Fits(c, DoEnter(k))
    ensures var d := AbsStep(c, DoEnter(k)).0; Sound(d) && AbsFind(d, x) == AbsFind(a, x)
  {
    var d := AbsStep(c, DoEnter(k)).0;
    StepSound(c, DoEnter(k));
    assert Kept(a.frames, d.frames, |a.frames|, x);
    FoundAsBefore(a.frames, d.frames, |a.frames|, x, Last(a.stack));
  }

  /** Lexical scope. A closure is made after `before`; later, `x` not having been
      written since, it is called. In its body `x` is what it was where the closure
      was made, whatever has been opened, closed and called in between. */
  lemma ClosuresSeeWhereTheyWereMade<V>(before: seq<Op<V>>, between: seq<Op<V>>, x: string)
    requires Runs(before + ([DoCapture] + (between + [DoEnter(Captures(before))])))
    requires forall i :: 0 <= i < |between| ==> !Writes(between[i], x)
    ensures var all := before + ([DoCapture] + (between + [DoEnter(Captures(before))]));
      && Runs(before + [DoFind(x)]) && Runs(all + [DoFind(x)])
      && Look(all, x) == Look(before, x)
  {
    var k := Captures(before);
    var all := before + ([DoCapture] + (between + [DoEnter(k)]));
    Split(Start(), before, [DoCapture] + (between + [DoEnter(k)]));
    var a := AbsRun(Start(), before);
    Split(a, [DoCapture], between + [DoEnter(k)]);
    One(a, DoCapture);
    var b := AbsStep(a, DoCapture).0;
    Split(b, between, [DoEnter(k)]);
    var c := AbsRun(b, between);
    One(c, DoEnter(k));
    CapturesCount(before);
    RunSound(Start(), before);
    StepSound(a, DoCapture);
    RunKeeps(b, between, x);
    assert b.clos[k] == Last(a.stack) && c.clos[k] == b.clos[k];
    hide AbsRun, Kept, AbsFind;
    ClosureSees(a, c, k, x);
    Lookable(before, x);
    Lookable(all, x);
  }
}
