/** When a source environment and the C scopes agree, and what keeps them so. */
module SimBase {
  import opened Options
  import opened Syntax
  import opened Names
  import opened CLang
  import opened CFacts
  import opened Structured

  /** Every visible name holds the same value on both sides. */
  ghost predicate Agree(vis: set<string>, loc: Frames, sc: Scopes) {
    forall x :: x in vis ==> Find(loc, x).Some? && CFind(sc, Src(x)) == Find(loc, x)
  }

  /** The current scope has none of the names `xs`, and no temporary from `t` on. */
  ghost predicate Fresh(sc: Scopes, xs: set<string>, t: nat) {
    sc != [] && forall c :: c in sc[0].Keys ==> (c.Src? ==> c.x !in xs) && (c.Temp? ==> c.n < t)
  }

  /** Both sides are ready to run code that binds `xs` and counts from `t`. */
  ghost predicate Ready(vis: set<string>, t: nat, loc: Frames, sc: Scopes, xs: set<string>) {
    loc != [] && Agree(vis, loc, sc) && Fresh(sc, xs, t) && vis !! xs
  }

  /** The same end. What a function without a value returns does not matter. */
  predicate Ends(vd: bool, a: Out, c: COut) {
    match a
    case Norm(_) => c == CNorm
    case Brk => c == CBrk
    case Cont => c == CCont
    case Ret(v) => c.CRet? && (vd || c.v == v)
    case Halt => c == CHalt
    case Dry => c == CDry
    case Unbound => false
  }

  /** The same end, and agreement wherever the run goes on from there. */
  ghost predicate Matches(vd: bool, vis: set<string>, after: set<string>, a: Res, c: CRes) {
    && Ends(vd, a.out, c.out)
    && (a.out.Norm? ==> Agree(after, a.fr, c.sc))
    && (a.out.Brk? || a.out.Cont? ==> Agree(vis, a.fr, c.sc))
  }

  /** The same value, or the same failure. */
  predicate ValueIs(a: Out, c: CVal) {
    match a
    case Norm(v) => c == CIs(v)
    case Halt => c == CHalts
    case Dry => c == CDries
    case _ => false
  }

  /** As `ValueIs`, where nobody looks at the value. */
  predicate DropIs(a: Out, c: CVal) {
    match a
    case Norm(_) => c.CIs?
    case Halt => c == CHalts
    case Dry => c == CDries
    case _ => false
  }

  lemma PushAgree(vis: set<string>, m: Frame, loc: Frames, k: map<CName, Val>, sc: Scopes)
    requires Agree(vis, loc, sc) && m.Keys !! vis && forall c :: c in k && c.Src? ==> c.x !in vis
    ensures Agree(vis, [m] + loc, [k] + sc) && Agree(vis, [m] + loc, sc) && Agree(vis, loc, [k] + sc)
  {
    assert ([m] + loc)[1..] == loc && ([k] + sc)[1..] == sc;
  }

  lemma PopAgree(vis: set<string>, loc: Frames, sc: Scopes)
    requires Agree(vis, loc, sc) && loc != [] && loc[0].Keys !! vis
    ensures Agree(vis, Pop(loc), sc)
  {
  }

  lemma CPopAgree(vis: set<string>, loc: Frames, sc: Scopes)
    requires Agree(vis, loc, sc) && sc != [] && forall c :: c in sc[0].Keys && c.Src? ==> c.x !in vis
    ensures Agree(vis, loc, CPop(sc))
  {
    forall x | x in vis ensures CFind(CPop(sc), Src(x)) == CFind(sc, Src(x)) {
      assert Src(x) !in sc[0].Keys;
    }
  }

  function Bound(sc: Scopes, c: CName, v: Val): Scopes
    requires sc != []
  {
    [sc[0][c := v]] + sc[1..]
  }

  lemma BindAgree(vis: set<string>, loc: Frames, sc: Scopes, x: string, v: Val)
    requires Agree(vis, loc, sc) && loc != [] && sc != []
    ensures Agree(vis + {x}, Declare(loc, x, v), Bound(sc, Src(x), v))
  {
  }

  lemma TempAgree(vis: set<string>, loc: Frames, sc: Scopes, c: CName, v: Val)
    requires Agree(vis, loc, sc) && sc != [] && !c.Src?
    ensures Agree(vis, loc, Bound(sc, c, v))
    ensures CFind(Bound(sc, c, v), c) == Some(v)
  {
  }

  lemma {:induction false} FindSet(loc: Frames, x: string, v: Val, y: string)
    requires Find(loc, x).Some?
    ensures Find(Set(loc, x, v), y) == if y == x then Some(v) else Find(loc, y)
  {
    if x !in loc[0] {
      FindSet(loc[1..], x, v, y);
      assert Set(loc, x, v)[1..] == Set(loc[1..], x, v);
    }
  }

  lemma {:induction false} FindUpdate(sc: Scopes, c: CName, v: Val, d: CName)
    requires CFind(sc, c).Some?
    ensures CFind(CUpdate(sc, c, v), d) == if d == c then Some(v) else CFind(sc, d)
  {
    if c !in sc[0] {
      FindUpdate(sc[1..], c, v, d);
      assert CUpdate(sc, c, v)[1..] == CUpdate(sc[1..], c, v);
    }
  }

  lemma SetAgree(vis: set<string>, loc: Frames, sc: Scopes, x: string, v: Val)
    requires Agree(vis, loc, sc) && x in vis
    ensures Agree(vis, Set(loc, x, v), CUpdate(sc, Src(x), v))
  {
    forall y | y in vis
      ensures Find(Set(loc, x, v), y).Some? && CFind(CUpdate(sc, Src(x), v), Src(y)) == Find(Set(loc, x, v), y)
    {
      FindSet(loc, x, v, y);
      FindUpdate(sc, Src(x), v, Src(y));
    }
  }

  /** Setting a temporary does not show. */
  lemma SetTempAgree(vis: set<string>, loc: Frames, sc: Scopes, c: CName, v: Val)
    requires Agree(vis, loc, sc) && !c.Src? && CFind(sc, c).Some?
    ensures Agree(vis, loc, CUpdate(sc, c, v))
    ensures CFind(CUpdate(sc, c, v), c) == Some(v)
  {
    forall y | y in vis ensures CFind(CUpdate(sc, c, v), Src(y)) == CFind(sc, Src(y)) {
      FindUpdate(sc, c, v, Src(y));
    }
    FindUpdate(sc, c, v, c);
  }

  // ---------- Running confined code keeps the next piece fresh ----------

  lemma FreshAfter(sc: Scopes, after: Scopes, z: Zone, all: set<string>, xs: set<string>, t: nat, t': nat)
    requires Fresh(sc, all, t) && Stays(sc, after, z)
    requires xs <= all && z.decl !! xs && z.hi <= t' && t <= t'
    ensures Fresh(after, xs, t')
  {
  }

  /** Leaving a scope after confined code: agreement survives, and so does every
      name the scope did not have and the code did not declare. */
  lemma LeaveScope(vis: set<string>, loc: Frames, inner: Scopes, after: Scopes, z: Zone)
    requires Stays(inner, after, z) && z.decl !! vis && forall c :: c in inner[0].Keys ==> !c.Src?
    ensures Agree(vis, loc, after) ==> Agree(vis, loc, CPop(after))
    ensures forall c :: !DeclIn(z, c) && c !in inner[0].Keys ==> CFind(CPop(after), c) == CFind(after, c)
  {
    if Agree(vis, loc, after) {
      CPopAgree(vis, loc, after);
    }
  }

  /** The result temporary holds the value of a run that came to its end. */
  predicate Written(result: Option<CName>, a: Res, c: CRes) {
    a.out.Norm? && result.Some? ==> CFind(c.sc, result.value) == Some(a.out.v)
  }

  /** A temporary that is declared, with a number below `t`. */
  predicate Awaits(result: Option<CName>, sc: Scopes, t: nat) {
    result.Some? ==> result.value.Temp? && result.value.n < t && CFind(sc, result.value).Some?
  }

  // ---------- Running code piece by piece ----------

  lemma {:induction false} ExecAppend(cp: CProgram, n: nat, sc: Scopes, a: seq<CStmt>, b: seq<CStmt>)
    ensures CExec(cp, n, sc, a + b) ==
      var r := CExec(cp, n, sc, a); if r.out == CNorm then CExec(cp, n, r.sc, b) else r
    decreases a
  {
    if a == [] {
      assert a + b == b;
    } else {
      assert (a + b)[0] == a[0] && (a + b)[1..] == a[1..] + b;
      var r := CStep(cp, n, sc, a[0]);
      if r.out == CNorm {
        ExecAppend(cp, n, r.sc, a[1..], b);
      }
    }
  }

  lemma ExecOne(cp: CProgram, n: nat, sc: Scopes, s: CStmt)
    ensures CExec(cp, n, sc, [s]) == CStep(cp, n, sc, s)
  {
    var r := CStep(cp, n, sc, s);
    assert CExec(cp, n, r.sc, []) == CRes(r.sc, CNorm);
  }

  lemma ExecCons(cp: CProgram, n: nat, sc: Scopes, s: CStmt, rest: seq<CStmt>)
    ensures CExec(cp, n, sc, [s] + rest) ==
      var r := CStep(cp, n, sc, s); if r.out == CNorm then CExec(cp, n, r.sc, rest) else r
  {
    ExecOne(cp, n, sc, s);
    ExecAppend(cp, n, sc, [s], rest);
  }
}
