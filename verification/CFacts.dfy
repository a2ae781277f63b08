/** What emitted code may touch. A zone lists the source names a piece of code may
    declare or set and the temporaries it may use; running the code changes
    nothing else, and scopes below the current one keep their names. */
module CFacts {
  import opened Options
  import opened Syntax
  import opened CLang

  datatype Zone = Zone(decl: set<string>, sets: set<string>, lo: nat, hi: nat, extra: set<CName>)

  predicate DeclIn(z: Zone, c: CName) {
    (c.Src? && c.x in z.decl) || (c.Temp? && z.lo <= c.n < z.hi)
  }

  predicate SetIn(z: Zone, c: CName) {
    DeclIn(z, c) || (c.Src? && c.x in z.sets) || c in z.extra
  }

  predicate Confined(code: seq<CStmt>, z: Zone) {
    forall i :: 0 <= i < |code| ==> ConfinedStmt(code[i], z)
  }

  predicate ConfinedStmt(s: CStmt, z: Zone) {
    match s
    case CVarDecl(c, _) => DeclIn(z, c)
    case CSet(c, _) => SetIn(z, c)
    case CIf(_, t, e) => Confined(t, z) && Confined(e, z)
    case CBraces(b) => Confined(b, z)
    case CWhile(_, b) => Confined(b, z)
    case CFor(_, _, _, _, b) => Confined(b, z)
    case _ => true
  }

  // ---------- What stays ----------

  function Outside(m: map<CName, Val>, z: Zone): map<CName, Val> {
    map c | c in m && !SetIn(z, c) :: m[c]
  }

  /** The scopes without the names of the zone. */
  function Rest(sc: Scopes, z: Zone): (r: Scopes)
    ensures |r| == |sc|
  {
    if sc == [] then [] else [Outside(sc[0], z)] + Rest(sc[1..], z)
  }

  ghost function CKeys(sc: Scopes): (ks: seq<set<CName>>)
    ensures |ks| == |sc|
  {
    if sc == [] then [] else [sc[0].Keys] + CKeys(sc[1..])
  }

  /** After running confined code: the zone's names aside nothing has changed, and
      only the current scope has new names. */
  ghost predicate Stays(a: Scopes, b: Scopes, z: Zone) {
    && Rest(a, z) == Rest(b, z)
    && a != [] && b != []
    && CKeys(a[1..]) == CKeys(b[1..])
    && a[0].Keys <= b[0].Keys
    && forall c :: c in b[0].Keys && c !in a[0].Keys ==> DeclIn(z, c)
  }

  /** As above, for code between braces: no scope has new names. */
  ghost predicate Holds(a: Scopes, b: Scopes, z: Zone) {
    Rest(a, z) == Rest(b, z) && CKeys(a) == CKeys(b)
  }

  lemma {:induction false} RestFind(a: Scopes, b: Scopes, z: Zone, c: CName)
    requires Rest(a, z) == Rest(b, z) && !SetIn(z, c)
    ensures CFind(a, c) == CFind(b, c)
  {
    if a != [] {
      var x, y := Outside(a[0], z), Outside(b[0], z);
      assert x == Rest(a, z)[0] == Rest(b, z)[0] == y;
      assert Rest(a, z)[1..] == Rest(b, z)[1..];
      assert c in a[0] <==> c in x;
      assert c in b[0] <==> c in y;
      RestFind(a[1..], b[1..], z, c);
    }
  }

  lemma PushRest(m: map<CName, Val>, sc: Scopes, z: Zone)
    ensures Rest([m] + sc, z) == [Outside(m, z)] + Rest(sc, z)
    ensures CKeys([m] + sc) == [m.Keys] + CKeys(sc)
  {
    assert ([m] + sc)[1..] == sc;
  }

  lemma PopHolds(m: map<CName, Val>, sc: Scopes, after: Scopes, z: Zone)
    requires Stays([m] + sc, after, z)
    ensures Holds(sc, CPop(after), z)
  {
    PushRest(m, sc, z);
    assert ([m] + sc)[1..] == sc;
    assert Rest(after, z)[1..] == Rest(CPop(after), z);
  }

  lemma HoldsStays(a: Scopes, b: Scopes, z: Zone)
    requires Holds(a, b, z) && a != []
    ensures Stays(a, b, z)
  {
    assert CKeys(a)[0] == CKeys(b)[0] && CKeys(a)[1..] == CKeys(b)[1..];
  }

  lemma {:induction false} UpdateHolds(sc: Scopes, c: CName, v: Val, z: Zone)
    requires SetIn(z, c)
    ensures Holds(sc, CUpdate(sc, c, v), z)
  {
    if sc != [] {
      if c in sc[0] {
        assert Outside(sc[0][c := v], z) == Outside(sc[0], z);
        assert sc[0][c := v].Keys == sc[0].Keys;
      } else {
        UpdateHolds(sc[1..], c, v, z);
      }
    }
  }

  // ---------- Running confined code ----------

  lemma {:induction false} ExecStays(cp: CProgram, n: nat, sc: Scopes, code: seq<CStmt>, z: Zone)
    requires Confined(code, z) && sc != []
    ensures Stays(sc, CExec(cp, n, sc, code).sc, z)
    decreases n, code, 1, 0
  {
    if code != [] {
      assert ConfinedStmt(code[0], z);
      StepStays(cp, n, sc, code[0], z);
      var r := CStep(cp, n, sc, code[0]);
      if r.out == CNorm {
        assert Confined(code[1..], z);
        ExecStays(cp, n, r.sc, code[1..], z);
      }
    }
  }

  lemma {:induction false} ScopedHolds(cp: CProgram, n: nat, sc: Scopes, code: seq<CStmt>, z: Zone)
    requires Confined(code, z)
    ensures Holds(sc, CScoped(cp, n, sc, code).sc, z)
    decreases n, code, 2, 0
  {
    ExecStays(cp, n, [map[]] + sc, code, z);
    PopHolds(map[], sc, CExec(cp, n, [map[]] + sc, code).sc, z);
  }

  lemma {:induction false} StepStays(cp: CProgram, n: nat, sc: Scopes, s: CStmt, z: Zone)
    requires ConfinedStmt(s, z) && sc != []
    ensures Stays(sc, CStep(cp, n, sc, s).sc, z)
    decreases n, s, 1, 0
  {
    match s
    case CVarDecl(c, e) =>
      var v := CValue(cp, n, sc, e);
      if v.CIs? && c !in sc[0] {
        assert Outside(sc[0][c := v.v], z) == Outside(sc[0], z);
      }
    case CSet(c, e) =>
      var v := CValue(cp, n, sc, e);
      if v.CIs? {
        UpdateHolds(sc, c, v.v, z);
        HoldsStays(sc, CUpdate(sc, c, v.v), z);
      }
    case CIf(_, t, f) =>
      ScopedHolds(cp, n, sc, t, z);
      ScopedHolds(cp, n, sc, f, z);
      HoldsStays(sc, CScoped(cp, n, sc, t).sc, z);
      HoldsStays(sc, CScoped(cp, n, sc, f).sc, z);
    case CBraces(b) =>
      ScopedHolds(cp, n, sc, b, z);
      HoldsStays(sc, CScoped(cp, n, sc, b).sc, z);
    case CWhile(_, _) =>
      LoopHolds(cp, n, sc, s, z);
      HoldsStays(sc, CLoop(cp, n, sc, s).sc, z);
    case CFor(c, lo, _, _, _) =>
      if CFind(sc, lo).Some? {
        var m := map[c := CFind(sc, lo).value];
        RangeHolds(cp, n, [m] + sc, s, z);
        var r := CRange(cp, n, [m] + sc, s);
        assert CPop([m] + sc) == sc;
        HoldsStays(sc, CPop(r.sc), z);
      }
    case _ =>
  }

  lemma {:induction false} LoopHolds(cp: CProgram, n: nat, sc: Scopes, s: CStmt, z: Zone)
    requires ConfinedStmt(s, z) && s.CWhile?
    ensures Holds(sc, CLoop(cp, n, sc, s).sc, z)
    decreases n, s, 0, 0
  {
    ScopedHolds(cp, n, sc, s.body, z);
    if n > 0 {
      LoopHolds(cp, n - 1, CScoped(cp, n, sc, s.body).sc, s, z);
    }
  }

  /** The loop's own scope may change in its counter; those below it do not. */
  lemma {:induction false} RangeHolds(cp: CProgram, n: nat, sc: Scopes, s: CStmt, z: Zone)
    requires ConfinedStmt(s, z) && s.CFor? && sc != [] && s.c in sc[0]
    ensures CKeys(sc) == CKeys(CRange(cp, n, sc, s).sc)
    ensures Holds(CPop(sc), CPop(CRange(cp, n, sc, s).sc), z)
    decreases n, s, 0, 0
  {
    hide CStep, CRun, CExec, CScoped, CValue;
    ScopedHolds(cp, n, sc, s.body, z);
    var r, all := CScoped(cp, n, sc, s.body), CRange(cp, n, sc, s);
    HoldsBelow(sc, r.sc, z);
    if (r.out == CNorm || r.out == CCont) && n > 0 {
      var b := Bumped(r.sc, s.c);
      BumpHolds(r.sc, s.c);
      RangeHolds(cp, n - 1, b, s, z);
      assert all.sc == sc || all.sc == CRange(cp, n - 1, b, s).sc;
    } else {
      assert all.sc == sc || all.sc == r.sc;
    }
  }

  lemma HoldsBelow(a: Scopes, b: Scopes, z: Zone)
    requires Holds(a, b, z) && a != []
    ensures b != [] && a[0].Keys == b[0].Keys && Holds(CPop(a), CPop(b), z)
  {
    assert CKeys(a)[0] == CKeys(b)[0] && CKeys(a)[1..] == CKeys(b)[1..];
    assert Rest(a, z)[1..] == Rest(b, z)[1..];
  }

  lemma BumpHolds(sc: Scopes, c: CName)
    requires sc != [] && c in sc[0]
    ensures Bumped(sc, c) != [] && Bumped(sc, c)[0].Keys == sc[0].Keys && CPop(Bumped(sc, c)) == CPop(sc)
    ensures CKeys(Bumped(sc, c)) == CKeys(sc)
  {
    var b := Bumped(sc, c);
    assert b[0].Keys == sc[0].Keys;
    assert CKeys(b) == [b[0].Keys] + CKeys(b[1..]);
  }
}
