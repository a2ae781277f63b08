/** What the canonical order is, about the blocks that the rendering of a manifest
    reads back to: by the schema, then by argument, then as they stood. */
module ManifestOrder {
  import opened Options
  import opened Text
  import opened Manifest
  import opened ManifestRender
  import opened ManifestTheorem
  import opened ManifestFixedPoint
  import opened Sorting

  // ---------- The order of strings ----------

  /** `a` is the start of `b`, or smaller at the first character that differs. */
  ghost predicate NotAfter(a: string, b: string) {
    exists k :: 0 <= k <= |a| && NotAfterAt(a, b, k)
  }

  predicate NotAfterAt(a: string, b: string, k: nat)
    requires k <= |a|
  {
    k <= |b| && a[..k] == b[..k] && (k == |a| || (k < |b| && a[k] < b[k]))
  }

  lemma {:induction false} NotBeforeIsNotAfter(a: string, b: string)
    requires !Before(b, a)
    ensures NotAfter(a, b)
  {
    if a == "" {
      assert NotAfterAt(a, b, 0);
    } else if a[0] < b[0] {
      assert NotAfterAt(a, b, 0);
    } else {
      NotBeforeIsNotAfter(a[1..], b[1..]);
      var k :| 0 <= k <= |a[1..]| && NotAfterAt(a[1..], b[1..], k);
      assert a[..k + 1] == [a[0]] + a[1..][..k] && b[..k + 1] == [b[0]] + b[1..][..k];
      assert NotAfterAt(a, b, k + 1);
    }
  }

  /** No element of a sorted list is before an earlier one. */
  lemma {:induction false} SortedPair<T(!new)>(xs: seq<T>, lt: (T, T) -> bool, i: nat, j: nat)
    requires Strict(lt) && Sorted(xs, lt) && i < j < |xs|
    ensures !lt(xs[j], xs[i])
  {
    assert !lt(xs[j - 1 + 1], xs[j - 1]);
    if i < j - 1 {
      SortedPair(xs, lt, i, j - 1);
    }
  }

  // ---------- Where blocks, fields and elements come ----------

  /** The argument of a block; none counts as the empty string. */
  function ArgOf(c: Content): string {
    match c.arg
    case None => ""
    case Some(a) => a
  }

  /** For every text and schema: in what the rendering reads back to, the schema's
      number of a block never falls, and arguments ascend where it stays the same; in a
      block the schema's number of a field never falls; in a list that is a set the
      elements ascend. */
  lemma RenderedInOrder(schema: Schema, text: string)
    ensures
      var out := Plains(Parse(Render(schema, Parse(text))).blocks);
      && (forall i, j :: 0 <= i < j < |out| ==>
           && schema.order(out[i].name) <= schema.order(out[j].name)
           && (schema.order(out[i].name) == schema.order(out[j].name) ==> NotAfter(ArgOf(out[i]), ArgOf(out[j]))))
      && (forall i, r, s :: 0 <= i < |out| && 0 <= r < s < |out[i].rows| ==>
           schema.pos(out[i].name, out[i].rows[r].key) <= schema.pos(out[i].name, out[i].rows[s].key))
      && (forall i, r :: 0 <= i < |out| && 0 <= r < |out[i].rows| ==> SetAscends(schema, out[i].name, out[i].rows[r]))
  {
    var cs := Plains(Parse(text).blocks);
    FormatIsFixedPoint(schema, text);
    var out := Canonical(schema, cs);
    CanonicalBlocks(schema, cs);
    forall i | 0 <= i < |out|
      ensures forall r, s :: 0 <= r < s < |out[i].rows| ==>
        schema.pos(out[i].name, out[i].rows[r].key) <= schema.pos(out[i].name, out[i].rows[s].key)
      ensures forall r :: 0 <= r < |out[i].rows| ==> SetAscends(schema, out[i].name, out[i].rows[r])
    {
      CanonicalIsNormal(schema, cs, i);
      var c :| c in cs && out[i] == Normal(schema, c);
      NormalOrder(schema, c);
    }
  }

  ghost predicate SetAscends(schema: Schema, name: string, row: Row) {
    row.value.VList? && schema.sorted(name, row.key) ==>
      forall i, j :: 0 <= i < j < |row.value.xs| ==> NotAfter(row.value.xs[i], row.value.xs[j])
  }

  lemma CanonicalBlocks(schema: Schema, cs: seq<Content>)
    ensures
      var out := Canonical(schema, cs);
      forall i, j :: 0 <= i < j < |out| ==>
        && schema.order(out[i].name) <= schema.order(out[j].name)
        && (schema.order(out[i].name) == schema.order(out[j].name) ==> NotAfter(ArgOf(out[i]), ArgOf(out[j])))
  {
    var lt, out := BlockOrder(schema), Canonical(schema, cs);
    OrdersAreStrict(schema, "");
    SortSorted(Normals(schema, cs), lt);
    forall i, j | 0 <= i < j < |out|
      ensures schema.order(out[i].name) <= schema.order(out[j].name)
      ensures schema.order(out[i].name) == schema.order(out[j].name) ==> NotAfter(ArgOf(out[i]), ArgOf(out[j]))
    {
      SortedPair(out, lt, i, j);
      if schema.order(out[i].name) == schema.order(out[j].name) {
        NotBeforeIsNotAfter(ArgOf(out[i]), ArgOf(out[j]));
      }
    }
  }

  lemma CanonicalIsNormal(schema: Schema, cs: seq<Content>, i: nat)
    requires i < |Canonical(schema, cs)|
    ensures exists c :: c in cs && Canonical(schema, cs)[i] == Normal(schema, c)
  {
    SortPart(Normals(schema, cs), BlockOrder(schema));
    assert Canonical(schema, cs)[i] in Normals(schema, cs);
    var k :| 0 <= k < |cs| && Canonical(schema, cs)[i] == Normals(schema, cs)[k];
    assert cs[k] in cs;
  }

  lemma NormalOrder(schema: Schema, c: Content)
    ensures
      var n := Normal(schema, c);
      && (forall r, s :: 0 <= r < s < |n.rows| ==>
           schema.pos(n.name, n.rows[r].key) <= schema.pos(n.name, n.rows[s].key))
      && forall r :: 0 <= r < |n.rows| ==> SetAscends(schema, n.name, n.rows[r])
  {
    var lt, rows := RowOrder(schema, c.name), Normal(schema, c).rows;
    OrdersAreStrict(schema, c.name);
    SortSorted(NormalRows(schema, c.name, c.rows), lt);
    forall r, s | 0 <= r < s < |rows|
      ensures schema.pos(c.name, rows[r].key) <= schema.pos(c.name, rows[s].key)
    {
      SortedPair(rows, lt, r, s);
    }
    SortPart(NormalRows(schema, c.name, c.rows), lt);
    forall r | 0 <= r < |rows|
      ensures SetAscends(schema, c.name, rows[r])
    {
      assert rows[r] in NormalRows(schema, c.name, c.rows);
      var k :| 0 <= k < |c.rows| && rows[r] == NormalRow(schema, c.name, c.rows[k]);
      NormalRowAscends(schema, c.name, c.rows[k]);
    }
  }

  lemma NormalRowAscends(schema: Schema, name: string, row: Row)
    ensures SetAscends(schema, name, NormalRow(schema, name, row))
  {
    if row.value.VList? && schema.sorted(name, row.key) {
      var xs := Sort(row.value.xs, Before);
      OrdersAreStrict(schema, name);
      SortSorted(row.value.xs, Before);
      forall i, j | 0 <= i < j < |xs|
        ensures NotAfter(xs[i], xs[j])
      {
        SortedPair(xs, Before, i, j);
        NotBeforeIsNotAfter(xs[i], xs[j]);
      }
    }
  }

  // ---------- Ties, and what is in them ----------

  /** What `f` gives for the elements with `p`, in order. */
  function Picked<T, U>(xs: seq<T>, p: T -> bool, f: T -> U): seq<U> {
    if xs == [] then [] else (if p(xs[0]) then [f(xs[0])] else []) + Picked(xs[1..], p, f)
  }

  lemma PickedNext<T, U>(x: T, xs: seq<T>, p: T -> bool, f: T -> U)
    ensures Picked([x] + xs, p, f) == if p(x) then [f(x)] + Picked(xs, p, f) else Picked(xs, p, f)
  {
    FirstOf(x, xs);
  }

  lemma {:induction false} PickedInsert<T(!new), U>(x: T, xs: seq<T>, lt: (T, T) -> bool, p: T -> bool, f: T -> U)
    requires forall y, z :: p(y) && p(z) ==> !lt(y, z)
    ensures Picked(Insert(x, xs, lt), p, f) == if p(x) then [f(x)] + Picked(xs, p, f) else Picked(xs, p, f)
  {
    hide Picked;
    PickedNext(x, xs, p, f);
    if xs != [] && lt(xs[0], x) {
      assert xs == [xs[0]] + xs[1..];
      PickedNext(xs[0], xs[1..], p, f);
      PickedNext(xs[0], Insert(x, xs[1..], lt), p, f);
      PickedInsert(x, xs[1..], lt, p, f);
    }
  }

  /** Elements that are not told apart keep their order. */
  lemma {:induction false} PickedSort<T(!new), U>(xs: seq<T>, lt: (T, T) -> bool, p: T -> bool, f: T -> U)
    requires forall y, z :: p(y) && p(z) ==> !lt(y, z)
    ensures Picked(Sort(xs, lt), p, f) == Picked(xs, p, f)
  {
    if xs != [] {
      PickedSort(xs[1..], lt, p, f);
      PickedInsert(xs[0], Sort(xs[1..], lt), lt, p, f);
    }
  }

  lemma {:induction false} PickedAlike<T, U>(xs: seq<T>, ys: seq<T>, p: T -> bool, f: T -> U)
    requires |xs| == |ys| && forall i :: 0 <= i < |xs| ==> p(xs[i]) == p(ys[i]) && f(xs[i]) == f(ys[i])
    ensures Picked(xs, p, f) == Picked(ys, p, f)
  {
    if xs != [] {
      PickedAlike(xs[1..], ys[1..], p, f);
    }
  }

  /** A field, with the elements of a list that is a set apart from it. */
  datatype Seen = Seen(row: Row, elements: multiset<string>)

  function See(schema: Schema, name: string, row: Row): Seen {
    if row.value.VList? && schema.sorted(name, row.key) then Seen(row.(value := VList([])), multiset(row.value.xs))
    else Seen(row, multiset{})
  }

  /** A block without its fields, and those of its fields that have the number `q`. */
  datatype Facet = Facet(head: Content, fields: seq<Seen>)

  function FacetOf(schema: Schema, q: int, c: Content): Facet {
    Facet(c.(rows := []), Picked(c.rows, (r: Row) => schema.pos(c.name, r.key)
      == q, (r: Row) => See(schema, c.name, r)))
  }

  /** The blocks that have the number `o` and the argument `arg`. */
  function Facets(schema: Schema, cs: seq<Content>, o: int, arg: string, q: int): seq<Facet> {
    Picked(cs, (c: Content) => schema.order(c.name) == o && ArgOf(c) == arg, (c: Content) => FacetOf(schema, q, c))
  }

  /** Blocks with the same number and argument keep their order, and so do the fields
      with the same number in a block; all of them keep their comments and values, and
      sets their elements. */
  lemma TiesStay(schema: Schema, text: string, o: int, arg: string, q: int)
    ensures
      var p := Parse(text);
      Facets(schema, Plains(Parse(Render(schema, p)).blocks), o, arg, q) == Facets(schema, Plains(p.blocks), o, arg, q)
  {
    FormatIsFixedPoint(schema, text);
    CanonicalTies(schema, Plains(Parse(text).blocks), o, arg, q);
  }

  lemma CanonicalTies(schema: Schema, cs: seq<Content>, o: int, arg: string, q: int)
    ensures Facets(schema, Canonical(schema, cs), o, arg, q) == Facets(schema, cs, o, arg, q)
  {
    var here := (c: Content) => schema.order(c.name) == o && ArgOf(c) == arg;
    var facet := (c: Content) => FacetOf(schema, q, c);
    BeforeStrict(arg, arg, arg);
    var lt := BlockOrder(schema);
    forall y, z | here(y) && here(z)
      ensures !lt(y, z)
    {
      assert Arg(y) == ArgOf(y) == arg == ArgOf(z) == Arg(z);
    }
    PickedSort(Normals(schema, cs), lt, here, facet);
    forall i | 0 <= i < |cs|
      ensures FacetOf(schema, q, Normals(schema, cs)[i]) == FacetOf(schema, q, cs[i])
    {
      NormalFacet(schema, q, cs[i]);
    }
    hide FacetOf, Picked, Sort, Before;
    PickedAlike(Normals(schema, cs), cs, here, facet);
  }

  lemma NormalFacet(schema: Schema, q: int, c: Content)
    ensures FacetOf(schema, q, Normal(schema, c)) == FacetOf(schema, q, c)
  {
    var there, see := (r: Row) => schema.pos(c.name, r.key) == q, (r: Row) => See(schema, c.name, r);
    var rows := NormalRows(schema, c.name, c.rows);
    PickedSort(rows, RowOrder(schema, c.name), there, see);
    forall i | 0 <= i < |rows|
      ensures See(schema, c.name, rows[i]) == See(schema, c.name, c.rows[i])
    {
      if c.rows[i].value.VList? {
        SortKeeps(c.rows[i].value.xs, Before);
      }
    }
    PickedAlike(rows, c.rows, there, see);
  }
}
