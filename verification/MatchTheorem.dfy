/** An accepted match never falls through, and a rejected one can. */
module MatchTheorem {
  import opened Options
  import opened MatchCheck

  /** Types as far as patterns look into values. */
  datatype Ty =
    | TAny
    | TTuple(elems: seq<Ty>)
    | TStruct(fields: seq<FieldTy>)
    | TBox(inner: Ty)
    | TEnum(variants: seq<Variant>)

  datatype FieldTy = FieldTy(name: string, ty: Ty)

  datatype Variant = Variant(name: string, payload: seq<Ty>)

  function Names(vs: seq<Variant>): (names: seq<string>)
    ensures |names| == |vs| && forall j :: 0 <= j < |vs| ==> names[j] == vs[j].name
  {
    seq(|vs|, j requires 0 <= j < |vs| => vs[j].name)
  }

  ghost predicate HasType(v: Value, ty: Ty)
    decreases ty
  {
    match ty
    case TAny => true
    case TTuple(ts) => v.VTuple? && AllTyped(v.items, ts)
    case TStruct(fs) =>
      && v.VStruct? && |v.fields| == |fs|
      && forall i :: 0 <= i < |fs| ==> v.fields[i].name == fs[i].name && HasType(v.fields[i].v, fs[i].ty)
    case TBox(t) => v.VBox? && HasType(v.inner, t)
    case TEnum(vs) => v.VTag? && exists j :: 0 <= j < |vs| && vs[j].name == v.tag && AllTyped(v.items, vs[j].payload)
  }

  ghost predicate AllTyped(vs: seq<Value>, ts: seq<Ty>)
    decreases ts
  {
    |vs| == |ts| && (ts != [] ==> HasType(vs[0], ts[0]) && AllTyped(vs[1..], ts[1..]))
  }

  /** `p` fits every value of the type. */
  ghost predicate Irrefutable(p: Pat, ty: Ty)
    decreases p
  {
    match p
    case PWild => true
    case PIdent(_) => true
    case PLit(_) => false
    case PTuple(ps) => ty.TTuple? && AllIrrefutable(ps, ty.elems)
    case PUnit(path) =>
      && ty.TEnum? && path != []
      && forall j :: 0 <= j < |ty.variants| ==> ty.variants[j].name == path[0] && ty.variants[j].payload == []
    case PTag(path, ps) =>
      && ty.TEnum? && path != []
      && forall j :: 0 <= j < |ty.variants| ==>
           ty.variants[j].name == path[0] && AllIrrefutable(ps, ty.variants[j].payload)
    case PStruct(_, fs) =>
      var t := if ty.TBox? then ty.inner else ty;
      t.TStruct? && FieldsIrrefutable(fs, t.fields)
  }

  ghost predicate AllIrrefutable(ps: seq<Pat>, ts: seq<Ty>)
    decreases ps
  {
    |ps| == |ts| && (ps != [] ==> Irrefutable(ps[0], ts[0]) && AllIrrefutable(ps[1..], ts[1..]))
  }

  function FindTy(fs: seq<FieldTy>, name: string): Option<Ty> {
    if fs == [] then None else if fs[0].name == name then Some(fs[0].ty) else FindTy(fs[1..], name)
  }

  ghost predicate FieldsIrrefutable(fs: seq<FieldPat>, ts: seq<FieldTy>)
    decreases fs
  {
    fs != [] ==>
      && FindTy(ts, fs[0].name) != None
      && (fs[0].pat != None ==> Irrefutable(fs[0].pat.value, FindTy(ts, fs[0].name).value))
      && FieldsIrrefutable(fs[1..], ts)
  }

  // ---------- Irrefutable patterns fit ----------

  lemma {:induction false} IrrefutableFits(p: Pat, v: Value, ty: Ty, env: seq<Bind>)
    requires HasType(v, ty) && Irrefutable(p, ty)
    ensures PatBind(p, v, env).ok
    decreases p
  {
    match p
    case PTuple(ps) => AllFit(ps, v.items, ty.elems, env);
    case PTag(path, ps) =>
      var j :| 0 <= j < |ty.variants| && ty.variants[j].name == v.tag && AllTyped(v.items, ty.variants[j].payload);
      AllFit(ps, v.items, ty.variants[j].payload, env);
    case PStruct(_, fs) =>
      var s, t := if v.VBox? then v.inner else v, if ty.TBox? then ty.inner else ty;
      FieldsFit(fs, s.fields, t.fields, env);
    case _ =>
  }

  lemma {:induction false} AllFit(ps: seq<Pat>, vs: seq<Value>, ts: seq<Ty>, env: seq<Bind>)
    requires AllTyped(vs, ts) && AllIrrefutable(ps, ts)
    ensures BindAll(ps, vs, env).ok
    decreases ps
  {
    if ps != [] {
      IrrefutableFits(ps[0], vs[0], ts[0], env);
      AllFit(ps[1..], vs[1..], ts[1..], PatBind(ps[0], vs[0], env).env);
    }
  }

  lemma {:induction false} FieldTyped(vs: seq<Field>, ts: seq<FieldTy>, name: string)
    requires |vs| == |ts| && forall i :: 0 <= i < |ts| ==> vs[i].name == ts[i].name && HasType(vs[i].v, ts[i].ty)
    requires FindTy(ts, name) != None
    ensures FindField(vs, name) != None && HasType(FindField(vs, name).value, FindTy(ts, name).value)
  {
    if ts[0].name != name {
      FieldTyped(vs[1..], ts[1..], name);
    }
  }

  lemma {:induction false} FieldsFit(fs: seq<FieldPat>, vs: seq<Field>, ts: seq<FieldTy>, env: seq<Bind>)
    requires |vs| == |ts| && forall i :: 0 <= i < |ts| ==> vs[i].name == ts[i].name && HasType(vs[i].v, ts[i].ty)
    requires FieldsIrrefutable(fs, ts)
    ensures BindFields(fs, vs, env).ok
    decreases fs
  {
    if fs != [] {
      FieldTyped(vs, ts, fs[0].name);
      var v := FindField(vs, fs[0].name).value;
      match fs[0].pat
      case None => FieldsFit(fs[1..], vs, ts, [Bind(fs[0].name, v)] + env);
      case Some(p) =>
        IrrefutableFits(p, v, FindTy(ts, fs[0].name).value, env);
        FieldsFit(fs[1..], vs, ts, PatBind(p, v, env).env);
    }
  }

  // ---------- The theorem ----------

  /** `p` names the variant and takes all of it: right arity, and payload patterns
      that cannot fail. */
  ghost predicate TakesAll(p: Pat, v: Variant) {
    Heads(p, v.name) &&
    match p
    case PUnit(_) => v.payload == []
    case PTag(_, ps) => AllIrrefutable(ps, v.payload)
    case _ => false
  }

  /** Some arm without a guard has an alternative that takes all of the variant;
      others may look into its payload as they like. */
  ghost predicate Taken(arms: seq<Arm>, v: Variant) {
    exists i, k :: 0 <= i < |arms| && 0 <= k < |arms[i].alts| && !arms[i].guarded && TakesAll(arms[i].alts[k], v)
  }

  /** What the check does not see: a variant that is named is also taken as a whole,
      unless a catch-all is there. */
  ghost predicate Faithful(arms: seq<Arm>, vs: seq<Variant>) {
    HasWhole(arms) || forall j :: 0 <= j < |vs| && Covered(arms, vs[j].name) ==> Taken(arms, vs[j])
  }

  lemma {:induction false} AltFits(alts: seq<Pat>, k: nat, v: Value, env: seq<Bind>)
    requires k < |alts| && forall e :: PatBind(alts[k], v, e).ok
    ensures BindAlts(alts, v, env).ok
  {
    if k > 0 && !PatBind(alts[0], v, env).ok {
      AltFits(alts[1..], k - 1, v, PatBind(alts[0], v, env).env);
    }
  }

  lemma HeadFits(p: Pat, v: Value, variant: Variant)
    requires TakesAll(p, variant) && v.VTag? && v.tag == variant.name && AllTyped(v.items, variant.payload)
    ensures forall env :: PatBind(p, v, env).ok
  {
    forall env ensures PatBind(p, v, env).ok {
      if p.PTag? {
        AllFit(p.elems, v.items, variant.payload, env);
      }
    }
  }

  /** Where a catch-all is there, or each variant is taken as a whole by some arm
      without a guard, every value of the enum finds an arm. */
  lemma CoveredNeverFalls(arms: seq<Arm>, vs: seq<Variant>, v: Value, guards: Guards)
    requires HasWhole(arms) || forall j :: 0 <= j < |vs| ==> Taken(arms, vs[j])
    requires HasType(v, TEnum(vs))
    ensures !FallsThrough(arms, v, guards)
  {
    var j :| 0 <= j < |vs| && vs[j].name == v.tag && AllTyped(v.items, vs[j].payload);
    if HasWhole(arms) {
      var i, k :| 0 <= i < |arms| && 0 <= k < |arms[i].alts| && !arms[i].guarded && Whole(arms[i].alts[k]);
      AltFits(arms[i].alts, k, v, []);
      assert Takes(arms, i, v, guards);
    } else {
      assert Taken(arms, vs[j]);
      var i, k :|
        0 <= i < |arms| && 0 <= k < |arms[i].alts| && !arms[i].guarded && TakesAll(arms[i].alts[k], vs[j]);
      HeadFits(arms[i].alts[k], v, vs[j]);
      AltFits(arms[i].alts, k, v, []);
      assert Takes(arms, i, v, guards);
    }
  }

  /** Patterns that neither take everything nor name the variant reject it. */
  lemma {:induction false} OthersReject(alts: seq<Pat>, v: Value, env: seq<Bind>)
    requires v.VTag? && forall k :: 0 <= k < |alts| ==> !Whole(alts[k]) && !Heads(alts[k], v.tag)
    ensures !BindAlts(alts, v, env).ok
  {
    if alts != [] {
      assert !Whole(alts[0]) && !Heads(alts[0], v.tag);
      OthersReject(alts[1..], v, PatBind(alts[0], v, env).env);
    }
  }

  function Never(): Guards { (i, env) => false }

  lemma RejectedFalls(arms: seq<Arm>, v: Value)
    requires v.VTag? && !HasWhole(arms) && !Covered(arms, v.tag)
    ensures FallsThrough(arms, v, Never())
  {
    forall i | 0 <= i < |arms| ensures !Takes(arms, i, v, Never()) {
      if !arms[i].guarded {
        OthersReject(arms[i].alts, v, []);
      }
    }
  }

  /** Every variant has a value. */
  ghost predicate Inhabited(vs: seq<Variant>) {
    forall j :: 0 <= j < |vs| ==> exists items :: AllTyped(items, vs[j].payload)
  }

  /** A rejected match can fall through, whatever its payload patterns are. */
  lemma RejectedCanFall(arms: seq<Arm>, vs: seq<Variant>)
    requires Inhabited(vs) && !Accepted(Names(vs), arms)
    ensures exists v, guards :: HasType(v, TEnum(vs)) && FallsThrough(arms, v, guards)
  {
    var j :| 0 <= j < |vs| && !Covered(arms, Names(vs)[j]);
    assert exists items :: AllTyped(items, vs[j].payload);
    var items :| AllTyped(items, vs[j].payload);
    var v := VTag(vs[j].name, items);
    assert HasType(v, TEnum(vs));
    RejectedFalls(arms, v);
  }

  /** Where the variants that are named are also taken as a whole, the check accepts a
      match if and only if no value of the enum falls through, whatever the guards
      say. */
  lemma AcceptedExactly(arms: seq<Arm>, vs: seq<Variant>)
    requires Faithful(arms, vs) && Inhabited(vs)
    ensures Accepted(Names(vs), arms) <==>
      forall v, guards :: HasType(v, TEnum(vs)) ==> !FallsThrough(arms, v, guards)
  {
    if Accepted(Names(vs), arms) {
      assert HasWhole(arms) || forall j :: 0 <= j < |vs| ==> Taken(arms, vs[j]) by {
        forall j | 0 <= j < |vs| ensures HasWhole(arms) || Covered(arms, vs[j].name) {
          assert Names(vs)[j] == vs[j].name;
        }
      }
      forall v, guards | HasType(v, TEnum(vs)) ensures !FallsThrough(arms, v, guards) {
        CoveredNeverFalls(arms, vs, v, guards);
      }
    } else {
      RejectedCanFall(arms, vs);
    }
  }

  /** An arm without a guard takes `v`. */
  ghost predicate PlainTakes(arms: seq<Arm>, v: Value) {
    exists i :: 0 <= i < |arms| && !arms[i].guarded && BindAlts(arms[i].alts, v, []).ok
  }

  /** For any arms: no value falls through, whatever the guards say, if and only if
      the arms without a guard alone take each of them. */
  lemma GuardsDoNotCount(arms: seq<Arm>, v: Value)
    ensures (forall guards :: !FallsThrough(arms, v, guards)) <==> PlainTakes(arms, v)
  {
    if PlainTakes(arms, v) {
      var i :| 0 <= i < |arms| && !arms[i].guarded && BindAlts(arms[i].alts, v, []).ok;
      forall guards ensures !FallsThrough(arms, v, guards) {
        assert Takes(arms, i, v, guards);
      }
    } else {
      forall i | 0 <= i < |arms| ensures !Takes(arms, i, v, Never()) {
        assert !arms[i].guarded ==> !BindAlts(arms[i].alts, v, []).ok;
      }
      assert FallsThrough(arms, v, Never());
    }
  }

  /** A literal in a payload does no harm ahead of the whole variant or of a
      catch-all: both ordinary ways to write it are within the theorem. */
  lemma LiteralsAhead(payload: seq<Ty>)
    requires |payload| == 1
    ensures
      var vs := [Variant("Some", payload), Variant("None", [])];
      var one, any := Arm([PTag(["Some"], [PLit(LInt(1))])], false), Arm([PTag(["Some"], [PWild])], false);
      var none, other := Arm([PUnit(["None"])], false), Arm([PWild], false);
      Faithful([one, any, none], vs) && Faithful([one, other], vs)
  {
    var some, no := Variant("Some", payload), Variant("None", []);
    var one, any := Arm([PTag(["Some"], [PLit(LInt(1))])], false), Arm([PTag(["Some"], [PWild])], false);
    var none, other := Arm([PUnit(["None"])], false), Arm([PWild], false);
    var arms := [one, any, none];
    assert [PWild][1..] == [] && payload[1..] == [];
    assert TakesAll(arms[1].alts[0], some) && TakesAll(arms[2].alts[0], no);
    assert Taken(arms, some) && Taken(arms, no);
    assert Whole([one, other][1].alts[0]);
  }

  /** Why arms must take the whole variant: the check looks at the name alone, so a
      literal in the payload, or a bare name for a variant with one, is accepted. */
  lemma PayloadIsNotChecked(guards: Guards)
    ensures
      var arms := [Arm([PTag(["Some"], [PLit(LInt(1))]), PUnit(["None"])], false)];
      var two := VTag("Some", [VScalar(LInt(2))]);
      Accepted(["Some", "None"], arms) && FallsThrough(arms, two, guards)
    ensures
      var arms, two := [Arm([PUnit(["Some"]), PUnit(["None"])], false)], VTag("Some", [VScalar(LInt(2))]);
      Accepted(["Some", "None"], arms) && FallsThrough(arms, two, guards)
  {
    var two := VTag("Some", [VScalar(LInt(2))]);
    var some, bare, none := PTag(["Some"], [PLit(LInt(1))]), PUnit(["Some"]), PUnit(["None"]);
    var arms, bares := [Arm([some, none], false)], [Arm([bare, none], false)];
    assert Heads(arms[0].alts[0], "Some") && Heads(arms[0].alts[1], "None");
    assert Heads(bares[0].alts[0], "Some") && Heads(bares[0].alts[1], "None");
    assert !BindAll([PLit(LInt(1))], two.items, []).ok;
    assert arms[0].alts[1..] == [none] && bares[0].alts[1..] == [none] && [none][1..] == [];
  }
}
