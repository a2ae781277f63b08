/** The interpreter as it runs: one record whose frames and flags every method
    updates in place, with the loops of the program text. */
module FlagMachine {
  import opened Options
  import opened Syntax
  import opened FlagInterp

  datatype Status = Running | Stopped | OutOfFuel

  class Machine {
    var fr: Frames
    var hasRet: bool
    var ret: Val
    var hasBrk: bool
    var hasCont: bool

    constructor ()
      ensures St() == State([], false, VoidV, false, false)
    {
      fr, hasRet, ret, hasBrk, hasCont := [], false, VoidV, false, false;
    }

    ghost function St(): State
      reads this
    {
      State(fr, hasRet, ret, hasBrk, hasCont)
    }

    /** What a method that ended with this status has computed. */
    ghost function Ended(status: Status, v: Val): Res
      reads this
    {
      match status
      case Running => Go(St(), v)
      case Stopped => Stop
      case OutOfFuel => Dry
    }

    method Push(f: Frame)
      modifies this`fr
      ensures St() == Pushed(old(St()), f)
    {
      fr := [f] + fr;
    }

    method PopFrame()
      modifies this`fr
      ensures St() == Popped(old(St()))
    {
      fr := Pop(fr);
    }

    method EvalExpr(p: Program, n: nat, e: Expr) returns (status: Status, v: Val)
      modifies this
      ensures Ended(status, v) == FExpr(p, n, old(St()), e)
      decreases n, e, 1, 0
    {
      v := VoidV;
      match e {
        case Lit(w) => return Running, w;
        case Var(x) =>
          var b := Find(fr, x);
          if b.None? { return Stopped, VoidV; }
          return Running, b.value;
        case Not(x) =>
          status, v := EvalExpr(p, n, x);
          if status == Running { v := BoolV(!Truthy(v)); }
        case Neg(x) =>
          status, v := EvalExpr(p, n, x);
          if status == Running {
            var r := p.prims.neg(v);
            if r.None? { return Stopped, VoidV; }
            v := r.value;
          }
        case MkPay(tag, x) =>
          status, v := EvalExpr(p, n, x);
          if status == Running { v := PayV(tag, v); }
        case Bin(op, x, y) =>
          status, v := EvalExpr(p, n, x);
          if status != Running { return; }
          var l := v;
          status, v := EvalExpr(p, n, y);
          if status != Running { return; }
          var r := p.prims.bin(op, l, v);
          if r.None? { return Stopped, VoidV; }
          v := r.value;
        case AndAlso(x, y) =>
          status, v := EvalExpr(p, n, x);
          if status != Running { return; }
          if !Truthy(v) { return Running, BoolV(false); }
          status, v := EvalExpr(p, n, y);
          if status == Running { v := BoolV(Truthy(v)); }
        case OrElse(x, y) =>
          status, v := EvalExpr(p, n, x);
          if status != Running { return; }
          if Truthy(v) { return Running, BoolV(true); }
          status, v := EvalExpr(p, n, y);
          if status == Running { v := BoolV(Truthy(v)); }
        case Panic => return Stopped, VoidV;
        case Try(x) =>
          status, v := EvalExpr(p, n, x);
          if status != Running { return; }
          if IsBad(v) {
            ret, hasRet := v, true;
          } else {
            v := Unwrap(v);
          }
        case If(c, t, els) =>
          status, v := EvalExpr(p, n, c);
          if status != Running { return; }
          if Truthy(v) {
            status, v := EvalBlock(p, n, t);
          } else if els.Some? {
            status, v := EvalExpr(p, n, els.value);
          } else {
            v := VoidV;
          }
        case BlockE(b) => status, v := EvalBlock(p, n, b);
        case Call(_, _) => status, v := EvalCall(p, n, e);
        case Match(_, _) => status, v := EvalMatch(p, n, e);
      }
    }

    /** Evaluates the arguments left to right, then runs the callee. */
    method EvalCall(p: Program, n: nat, e: Expr) returns (status: Status, v: Val)
      requires e.Call?
      modifies this
      ensures Ended(status, v) == FExpr(p, n, old(St()), e)
      decreases n, e, 0, 0
    {
      if e.f !in p.fns || |p.fns[e.f].params| != |e.args| { return Stopped, VoidV; }
      ghost var s0 := St();
      var vals := [];
      var i := 0;
      assert vals + FArgs(p, n, s0, e, 0).1 == FArgs(p, n, s0, e, 0).1;
      while i < |e.args|
        invariant i <= |e.args| && |vals| == i
        invariant FArgs(p, n, s0, e, 0) ==
          (FArgs(p, n, St(), e, i).0, vals + FArgs(p, n, St(), e, i).1)
      {
        ghost var rest := FArgs(p, n, St(), e, i);
        status, v := EvalExpr(p, n, e.args[i]);
        if status != Running { return; }
        assert vals + ([v] + FArgs(p, n, St(), e, i + 1).1) == vals + [v] + FArgs(p, n, St(), e, i + 1).1;
        vals := vals + [v];
        i := i + 1;
      }
      assert vals + [] == vals;
      if n == 0 { return OutOfFuel, VoidV; }
      status, v := CallDecl(p, n - 1, p.fns[e.f], vals);
    }

    /** Binds the parameters in a frame above the caller's, runs the body, and
        puts back the caller's pending return. */
    method CallDecl(p: Program, n: nat, f: Fn, vals: seq<Val>) returns (status: Status, v: Val)
      requires |vals| == |f.params|
      modifies this
      ensures Ended(status, v) == FCall(p, n, old(St()), f, vals)
      decreases n, f.body, 2, 0
    {
      Push(map[]);
      var i := 0;
      while i < |vals|
        invariant i <= |vals| && fr != [] && St() == Pushed(old(St()), fr[0])
        invariant BindParams(p.prims, map[], f, vals, 0) == BindParams(p.prims, fr[0], f, vals, i)
      {
        var a := Adapt(p.prims, f.params[i].ann, vals[i]);
        if a.None? { return Stopped, VoidV; }
        fr := Declare(fr, f.params[i].x, a.value);
        i := i + 1;
      }
      var saveRet, saveVal := hasRet, ret;
      hasRet := false;
      status, v := EvalBlock(p, n, f.body);
      if status != Running { return; }
      v := if hasRet then ret else v;
      hasRet, ret := saveRet, saveVal;
      PopFrame();
    }

    /** The first arm whose pattern matches and whose guard holds. */
    method EvalMatch(p: Program, n: nat, e: Expr) returns (status: Status, v: Val)
      requires e.Match?
      modifies this
      ensures Ended(status, v) == FExpr(p, n, old(St()), e)
      decreases n, e, 0, 0
    {
      status, v := EvalExpr(p, n, e.scrut);
      if status != Running { return; }
      ghost var s0 := St();
      var w := v;
      var i := 0;
      while i < |e.arms|
        invariant i <= |e.arms|
        invariant FArms(p, n, s0, e, w, 0) == FArms(p, n, St(), e, w, i)
      {
        var arm := e.arms[i];
        var m := PatBind(arm.pat, w);
        if m.Some? {
          Push(m.value);
          var g := BoolV(true);
          if arm.guard.Some? {
            status, g := EvalExpr(p, n, arm.guard.value);
            if status != Running { return status, VoidV; }
          }
          if Truthy(g) {
            status, v := EvalExpr(p, n, arm.body);
            if status == Running { PopFrame(); }
            return;
          }
          PopFrame();
        }
        i := i + 1;
      }
      return Stopped, VoidV;
    }

    method EvalBlock(p: Program, n: nat, b: Block) returns (status: Status, v: Val)
      modifies this
      ensures Ended(status, v) == FBlock(p, n, old(St()), b)
      decreases n, b, 1, 0
    {
      Push(map[]);
      ghost var s0 := St();
      var i := 0;
      while i < |b.stmts| && !hasRet && !hasBrk && !hasCont
        invariant i <= |b.stmts|
        invariant FStmts(p, n, s0, b, 0) == FStmts(p, n, St(), b, i)
      {
        status := EvalStmt(p, n, b.stmts[i]);
        if status != Running { return status, VoidV; }
        i := i + 1;
      }
      status, v := Running, VoidV;
      if !hasRet && !hasBrk && !hasCont && b.tail.Some? {
        status, v := EvalExpr(p, n, b.tail.value);
        if status != Running { return; }
      }
      PopFrame();
      v := if hasRet then ret else v;
    }

    method EvalStmt(p: Program, n: nat, st: Stmt) returns (status: Status)
      modifies this
      ensures Ended(status, VoidV) == FStmt(p, n, old(St()), st)
      decreases n, st, 1, 0
    {
      status := Running;
      var v := VoidV;
      match st {
        case Let(x, ann, e) =>
          status, v := EvalExpr(p, n, e);
          if status == Running && x.Some? {
            var a := Adapt(p.prims, ann, v);
            if a.None? { return Stopped; }
            fr := Declare(fr, x.value, a.value);
          }
        case Return(None) => ret, hasRet := VoidV, true;
        case Return(Some(e)) =>
          status, v := EvalExpr(p, n, e);
          if status == Running { ret, hasRet := v, true; }
        case Break => hasBrk := true;
        case Continue => hasCont := true;
        case ExprS(e) => status, v := EvalExpr(p, n, e);
        case Assign(x, aop, e) =>
          var was := Find(fr, x);
          if was.None? { return Stopped; }
          status, v := EvalExpr(p, n, e);
          if status == Running {
            var a := Assigned(p.prims, aop, was.value, v);
            if a.None? { return Stopped; }
            fr := Set(fr, x, a.value);
          }
        case While(_, _) => status := RunWhile(p, n, st);
        case For(_, _, _, _, _) => status := RunFor(p, n, st);
      }
    }

    method RunWhile(p: Program, n: nat, st: Stmt) returns (status: Status)
      requires st.While?
      modifies this
      ensures Ended(status, VoidV) == FStmt(p, n, old(St()), st)
      decreases n, st, 0, 0
    {
      hasBrk, hasCont := false, false;
      ghost var s0 := St();
      var k: nat := n;
      while !hasRet && !hasBrk
        invariant k <= n
        invariant FWhile(p, n, s0, st) == FWhile(p, k, St(), st)
        decreases k, !hasRet && !hasBrk
      {
        var v;
        status, v := EvalExpr(p, k, st.cond);
        if status != Running { return; }
        if !Truthy(v) { break; }
        status, v := EvalBlock(p, k, st.body);
        if status != Running { return; }
        hasCont := false;
        if !hasRet && !hasBrk {
          if k == 0 { return OutOfFuel; }
          k := k - 1;
        }
      }
      hasBrk, hasCont := false, false;
      status := Running;
    }

    method RunFor(p: Program, n: nat, st: Stmt) returns (status: Status)
      requires st.For?
      modifies this
      ensures Ended(status, VoidV) == FStmt(p, n, old(St()), st)
      decreases n, st, 0, 2
    {
      var lo, hi;
      status, lo := EvalExpr(p, n, st.lo);
      if status != Running { return; }
      status, hi := EvalExpr(p, n, st.hi);
      if status != Running { return; }
      Push(if st.name.Some? then map[st.name.value := CountV(0)] else map[]);
      status := RunRange(p, n, st, p.prims.bound(lo), p.prims.bound(hi));
      if status == Running { PopFrame(); }
    }

    method RunRange(p: Program, n: nat, st: Stmt, first: int, last: int) returns (status: Status)
      requires st.For?
      modifies this
      ensures Ended(status, VoidV) == FFor(p, n, old(St()), st, first, last)
      decreases n, st, 0, 1
    {
      ghost var all := FFor(p, n, St(), st, first, last);
      var cur := first;
      var k: nat := n;
      while InRange(cur, last, st.incl)
        invariant k <= n
        invariant all == FFor(p, k, St(), st, cur, last)
        decreases k
      {
        var v;
        status, v := RunPass(p, k, st, cur);
        if status != Running { return; }
        if hasRet { return; }
        if hasBrk {
          hasBrk := false;
          return;
        }
        if k == 0 { return OutOfFuel; }
        hasCont := false;
        k, cur := k - 1, cur + 1;
      }
      status := Running;
    }

    /** The body once, with the loop variable at `cur`. */
    method RunPass(p: Program, n: nat, st: Stmt, cur: int) returns (status: Status, v: Val)
      requires st.For?
      modifies this
      ensures
        var s := old(St());
        Ended(status, v) == FBlock(p, n, if st.name.Some? then s.(fr := Declare(s.fr, st.name.value, CountV(cur)))
          else s, st.body)
      decreases n, st, 0, 0
    {
      if st.name.Some? { fr := Declare(fr, st.name.value, CountV(cur)); }
      status, v := EvalBlock(p, n, st.body);
    }
  }
}
