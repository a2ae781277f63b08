/** Matching at run time, and the check that a match over an enum leaves no variant
    out. */
module MatchCheck {
  import opened Options

  datatype Lit = LInt(i: int) | LFloat(text: string) | LStr(s: string) | LBool(b: bool)

  datatype Value =
    | VScalar(l: Lit)
    | VTuple(items: seq<Value>)
    | VTag(tag: string, items: seq<Value>)
    | VStruct(fields: seq<Field>)
    | VBox(inner: Value)
    | VOther

  datatype Field = Field(name: string, v: Value)

  datatype Pat =
    | PWild
    | PIdent(x: string)
    | PLit(l: Lit)
    | PTuple(elems: seq<Pat>)
    | PUnit(path: seq<string>)
    | PTag(path: seq<string>, elems: seq<Pat>)
    | PStruct(path: seq<string>, fields: seq<FieldPat>)

  datatype FieldPat = FieldPat(name: string, pat: Option<Pat>)

  /** One arm: a pattern, or alternatives between `|`, and perhaps a guard. */
  datatype Arm = Arm(alts: seq<Pat>, guarded: bool)

  datatype Bind = Bind(x: string, v: Value)

  datatype Bound = Bound(ok: bool, env: seq<Bind>)

  // ---------- Matching ----------

  /** Tries `p` on `v`; what was bound before a failure stays bound. */
  function PatBind(p: Pat, v: Value, env: seq<Bind>): Bound
    decreases p
  {
    match p
    case PWild => Bound(true, env)
    case PIdent(x) => Bound(true, [Bind(x, v)] + env)
    case PLit(l) => Bound(v.VScalar? && v.l == l && !l.LFloat?, env)
    case PTuple(ps) => if v.VTuple? then BindAll(ps, v.items, env) else Bound(false, env)
    case PUnit(path) => Bound(v.VTag? && path != [] && path[0] == v.tag && v.items == [], env)
    case PTag(path, ps) =>
      if v.VTag? && path != [] && path[0] == v.tag then BindAll(ps, v.items, env) else Bound(false, env)
    case PStruct(_, fs) =>
      var s := if v.VBox? then v.inner else v;
      if s.VStruct? then BindFields(fs, s.fields, env) else Bound(false, env)
  }

  function BindAll(ps: seq<Pat>, vs: seq<Value>, env: seq<Bind>): Bound
    decreases ps
  {
    if |ps| != |vs| then Bound(false, env)
    else if ps == [] then Bound(true, env)
    else
      var first := PatBind(ps[0], vs[0], env);
      if first.ok then BindAll(ps[1..], vs[1..], first.env) else first
  }

  function FindField(fs: seq<Field>, name: string): Option<Value> {
    if fs == [] then None else if fs[0].name == name then Some(fs[0].v) else FindField(fs[1..], name)
  }

  function BindFields(fs: seq<FieldPat>, vs: seq<Field>, env: seq<Bind>): Bound
    decreases fs
  {
    if fs == [] then Bound(true, env)
    else
      var f := fs[0];
      match FindField(vs, f.name)
      case None => Bound(false, env)
      case Some(v) =>
        match f.pat
        case None => BindFields(fs[1..], vs, [Bind(f.name, v)] + env)
        case Some(p) =>
          var b := PatBind(p, v, env);
          if b.ok then BindFields(fs[1..], vs, b.env) else b
  }

  /** The first alternative that fits. */
  function BindAlts(alts: seq<Pat>, v: Value, env: seq<Bind>): Bound {
    if alts == [] then Bound(false, env)
    else
      var first := PatBind(alts[0], v, env);
      if first.ok then first else BindAlts(alts[1..], v, first.env)
  }

  /** What a guard says, given its arm and what the arm's pattern bound. */
  type Guards = (nat, seq<Bind>) -> bool

  datatype Chosen = Chosen(arm: nat, env: seq<Bind>)

  predicate Takes(arms: seq<Arm>, i: nat, v: Value, guards: Guards)
    requires i < |arms|
  {
    var b := BindAlts(arms[i].alts, v, []);
    b.ok && (arms[i].guarded ==> guards(i, b.env))
  }

  /** Runs a match: the first arm whose pattern fits and whose guard agrees. */
  method RunMatch(arms: seq<Arm>, v: Value, guards: Guards) returns (r: Option<Chosen>)
    ensures r == None <==> forall i :: 0 <= i < |arms| ==> !Takes(arms, i, v, guards)
    ensures r != None ==>
      var i := r.value.arm;
      && i < |arms| && Takes(arms, i, v, guards) && r.value.env == BindAlts(arms[i].alts, v, []).env
      && forall j :: 0 <= j < i ==> !Takes(arms, j, v, guards)
  {
    for i := 0 to |arms|
      invariant forall j :: 0 <= j < i ==> !Takes(arms, j, v, guards)
    {
      var b := BindAlts(arms[i].alts, v, []);
      if b.ok {
        if arms[i].guarded && !guards(i, b.env) { continue; }
        assert Takes(arms, i, v, guards);
        return Some(Chosen(i, b.env));
      }
    }
    return None;
  }

  /** No arm takes `v`, and the program stops with an error. */
  ghost predicate FallsThrough(arms: seq<Arm>, v: Value, guards: Guards) {
    forall i :: 0 <= i < |arms| ==> !Takes(arms, i, v, guards)
  }

  // ---------- The check ----------

  predicate Whole(p: Pat) { p.PWild? || p.PIdent? }

  /** `p` counts as covering the variant `name`, whatever its payload pattern. */
  predicate Heads(p: Pat, name: string) {
    (p.PUnit? || p.PTag? || p.PStruct?) && p.path != [] && p.path[0] == name
  }

  predicate HasWhole(arms: seq<Arm>) {
    exists i, k :: 0 <= i < |arms| && 0 <= k < |arms[i].alts| && !arms[i].guarded && Whole(arms[i].alts[k])
  }

  predicate Covered(arms: seq<Arm>, name: string) {
    exists i, k :: 0 <= i < |arms| && 0 <= k < |arms[i].alts| && !arms[i].guarded && Heads(arms[i].alts[k], name)
  }

  predicate Accepted(names: seq<string>, arms: seq<Arm>) {
    HasWhole(arms) || forall j :: 0 <= j < |names| ==> Covered(arms, names[j])
  }

  /** The variants the error lists, in order; none when the match is accepted. */
  function Missing(names: seq<string>, arms: seq<Arm>): seq<string> {
    if names == [] then []
    else
      var j := |names| - 1;
      Missing(names[..j], arms) + if Covered(arms, names[j]) then [] else [names[j]]
  }

  /** Walks one arm's alternatives up to the first that takes everything. */
  method CoverArm(names: seq<string>, arm: Arm, covered: array<bool>) returns (whole: bool)
    requires covered.Length == |names|
    modifies covered
    ensures whole == exists k :: 0 <= k < |arm.alts| && Whole(arm.alts[k])
    ensures !whole ==> forall j :: 0 <= j < |names| ==>
      (covered[j] <==> old(covered[j]) || exists k :: 0 <= k < |arm.alts| && Heads(arm.alts[k], names[j]))
  {
    for k := 0 to |arm.alts|
      invariant forall i :: 0 <= i < k ==> !Whole(arm.alts[i])
      invariant forall j :: 0 <= j < |names| ==>
        (covered[j] <==> old(covered[j]) || exists i :: 0 <= i < k && Heads(arm.alts[i], names[j]))
    {
      if Whole(arm.alts[k]) { return true; }
      ghost var before := covered[..];
      for j := 0 to |names|
        invariant forall i :: j <= i < |names| ==> covered[i] == before[i]
        invariant forall i :: 0 <= i < j ==> (covered[i] <==> before[i] || Heads(arm.alts[k], names[i]))
      {
        if Heads(arm.alts[k], names[j]) { covered[j] := true; }
      }
    }
    return false;
  }

  /** Reports the variants left out, or nothing. */
  method Check(names: seq<string>, arms: seq<Arm>) returns (missing: seq<string>)
    ensures missing == if HasWhole(arms) then [] else Missing(names, arms)
  {
    var covered := new bool[|names|](_ => false);
    var whole, i := false, 0;
    while i < |arms| && !whole
      invariant 0 <= i <= |arms|
      invariant whole <==> HasWhole(arms[..i])
      invariant !whole ==> forall j :: 0 <= j < |names| ==> (covered[j] <==> Covered(arms[..i], names[j]))
    {
      ghost var before := covered[..];
      if !arms[i].guarded {
        whole := CoverArm(names, arms[i], covered);
      }
      CoverNext(arms, i);
      i := i + 1;
    }
    if whole {
      assert HasWhole(arms);
      return [];
    }
    assert arms[..|arms|] == arms;
    missing := [];
    for j := 0 to |names|
      invariant missing == Missing(names[..j], arms)
    {
      assert names[..j + 1][..j] == names[..j];
      if !covered[j] { missing := missing + [names[j]]; }
    }
    assert names[..|names|] == names;
  }

  /** One more arm. */
  lemma CoverNext(arms: seq<Arm>, i: nat)
    requires i < |arms|
    ensures HasWhole(arms[..i + 1]) <==>
      HasWhole(arms[..i]) || (!arms[i].guarded && exists k :: 0 <= k < |arms[i].alts| && Whole(arms[i].alts[k]))
    ensures forall name :: Covered(arms[..i + 1], name) <==>
      || Covered(arms[..i], name)
      || (!arms[i].guarded && exists k :: 0 <= k < |arms[i].alts| && Heads(arms[i].alts[k], name))
  {
    var now, next := arms[..i], arms[..i + 1];
    assert forall m :: 0 <= m < i ==> now[m] == next[m];
    assert next[i] == arms[i];
    if HasWhole(next) {
      var m, k :| 0 <= m < |next| && 0 <= k < |next[m].alts| && !next[m].guarded && Whole(next[m].alts[k]);
      assert m < i ==> Whole(now[m].alts[k]);
    }
    if HasWhole(now) {
      var m, k :| 0 <= m < |now| && 0 <= k < |now[m].alts| && !now[m].guarded && Whole(now[m].alts[k]);
      assert Whole(next[m].alts[k]);
    }
    forall name ensures Covered(next, name) <==>
      Covered(now, name) || (!arms[i].guarded && exists k :: 0 <= k < |arms[i].alts| && Heads(arms[i].alts[k], name))
    {
      CoverName(arms, i, name);
    }
  }

  lemma CoverName(arms: seq<Arm>, i: nat, name: string)
    requires i < |arms|
    ensures Covered(arms[..i + 1], name) <==>
      || Covered(arms[..i], name)
      || (!arms[i].guarded && exists k :: 0 <= k < |arms[i].alts| && Heads(arms[i].alts[k], name))
  {
    var now, next := arms[..i], arms[..i + 1];
    assert forall m :: 0 <= m < i ==> now[m] == next[m];
    assert next[i] == arms[i];
    if Covered(next, name) {
      var m, k :| 0 <= m < |next| && 0 <= k < |next[m].alts| && !next[m].guarded && Heads(next[m].alts[k], name);
      assert m < i ==> Heads(now[m].alts[k], name);
    }
    if Covered(now, name) {
      var m, k :| 0 <= m < |now| && 0 <= k < |now[m].alts| && !now[m].guarded && Heads(now[m].alts[k], name);
      assert Heads(next[m].alts[k], name);
    }
  }

  /** Nothing is reported if and only if the match is accepted. */
  lemma {:induction false} NothingMissing(names: seq<string>, arms: seq<Arm>)
    ensures Missing(names, arms) == [] <==> forall j :: 0 <= j < |names| ==> Covered(arms, names[j])
  {
    if names != [] {
      NothingMissing(names[..|names| - 1], arms);
      assert forall j :: 0 <= j < |names| - 1 ==> names[..|names| - 1][j] == names[j];
    }
  }
}
