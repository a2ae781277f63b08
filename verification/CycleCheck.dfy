/** The package check for circular imports: a depth-first search over modules in
    name order. It reports at most one edge, and reports one exactly when the
    import graph has a cycle; the edge lies on a cycle. */
module CycleCheck {
  import opened Options

  datatype Decl = Use(imports: seq<seq<string>>) | OtherDecl

  datatype Mod = Mod(stem: string, decls: seq<Decl>)

  /** Anchored at the root of the search; `src` imports `dst`. */
  datatype Report = Report(root: nat, src: nat, dst: nat)

  // ---------- The import graph ----------

  /** The first module with this name. */
  function FindMod(ms: seq<Mod>, stem: string): (r: Option<nat>)
    ensures r.Some? ==> r.value < |ms| && ms[r.value].stem == stem
    ensures r.None? ==> forall i :: 0 <= i < |ms| ==> ms[i].stem != stem
  {
    if ms == [] then None
    else if ms[0].stem == stem then Some(0)
    else
      var r := FindMod(ms[1..], stem);
      if r.None? then None else Some(r.value + 1)
  }

  /** What an import of module `u` leads to: three segments, this package, another
      module. */
  function Target(pkg: string, ms: seq<Mod>, u: nat, segs: seq<string>): Option<nat>
    requires u < |ms|
  {
    if |segs| != 3 || segs[0] != pkg || segs[1] == ms[u].stem then None else FindMod(ms, segs[1])
  }

  predicate Imports(m: Mod, segs: seq<string>) {
    exists j, k :: 0 <= j < |m.decls| && m.decls[j].Use? && 0 <= k < |m.decls[j].imports|
      && m.decls[j].imports[k] == segs
  }

  ghost predicate Edge(pkg: string, ms: seq<Mod>, u: nat, v: nat) {
    u < |ms| && v < |ms| && exists segs :: Imports(ms[u], segs) && Target(pkg, ms, u, segs) == Some(v)
  }

  ghost predicate Walk(pkg: string, ms: seq<Mod>, w: seq<nat>) {
    forall i :: 0 <= i < |w| - 1 ==> Edge(pkg, ms, w[i], w[i + 1])
  }

  ghost predicate Closed(pkg: string, ms: seq<Mod>, w: seq<nat>) {
    |w| >= 2 && w[0] == w[|w| - 1] && Walk(pkg, ms, w)
  }

  ghost predicate HasCycle(pkg: string, ms: seq<Mod>) {
    exists w :: Closed(pkg, ms, w)
  }

  /** `u` and `v` are neighbours on a closed walk. */
  ghost predicate OnCycle(pkg: string, ms: seq<Mod>, u: nat, v: nat) {
    exists w :: Closed(pkg, ms, w) && w[|w| - 2] == u && w[|w| - 1] == v
  }

  /** In the order of finishing, every edge leads back. */
  ghost predicate LeadsBack(pkg: string, ms: seq<Mod>, order: seq<nat>) {
    forall i, v :: 0 <= i < |order| && Edge(pkg, ms, order[i], v) ==> v in order[..i]
  }

  /** Walking within such an order only goes down, so nothing comes back. */
  lemma {:induction false} WalksGoDown(pkg: string, ms: seq<Mod>, order: seq<nat>, w: seq<nat>, k: nat, i: nat)
    requires LeadsBack(pkg, ms, order) && Walk(pkg, ms, w) && k < |w| && i < |order| && order[i] == w[0]
    ensures exists j :: 0 <= j <= i - k && order[j] == w[k]
    decreases k
  {
    if k > 0 {
      WalksGoDown(pkg, ms, order, w, k - 1, i);
      var j :| 0 <= j <= i - (k - 1) && order[j] == w[k - 1];
      assert Edge(pkg, ms, w[k - 1], w[k - 1 + 1]);
      assert w[k] in order[..j];
      var j' :| 0 <= j' < j && order[..j][j'] == w[k];
      assert order[j'] == w[k];
    }
  }

  lemma OrderHasNoCycle(pkg: string, ms: seq<Mod>, order: seq<nat>)
    requires LeadsBack(pkg, ms, order) && forall u :: 0 <= u < |ms| ==> u in order
    ensures !HasCycle(pkg, ms)
  {
    if HasCycle(pkg, ms) {
      var w :| Closed(pkg, ms, w);
      assert Edge(pkg, ms, w[0], w[1]);
      var i := FirstIndex(order, w[0]);
      WalksGoDown(pkg, ms, order, w, |w| - 1, i);
      assert false;
    }
  }

  ghost function FirstIndex(order: seq<nat>, u: nat): (i: nat)
    requires u in order
    ensures i < |order| && order[i] == u && u !in order[..i]
  {
    if order[0] == u then 0 else
    assert u in order[1..];
    var i := FirstIndex(order[1..], u);
    assert order[..i + 1] == [order[0]] + order[1..][..i];
    i + 1
  }

  // ---------- Module order ----------

  /** Byte order of names. */
  predicate Leq(s: string, t: string) {
    s == [] || (t != [] && (s[0] < t[0] || (s[0] == t[0] && Leq(s[1..], t[1..]))))
  }

  lemma {:induction false} LeqTotal(s: string, t: string)
    ensures Leq(s, t) || Leq(t, s)
  {
    if s != [] && t != [] && s[0] == t[0] {
      LeqTotal(s[1..], t[1..]);
    }
  }

  lemma {:induction false} LeqTransitive(s: string, t: string, u: string)
    requires Leq(s, t) && Leq(t, u)
    ensures Leq(s, u)
  {
    if s != [] && t[0] == s[0] && u[0] == t[0] {
      LeqTransitive(s[1..], t[1..], u[1..]);
    }
  }

  predicate Sorted(ms: seq<Mod>) { forall i, j :: 0 <= i < j < |ms| ==> Leq(ms[i].stem, ms[j].stem) }

  predicate DistinctStems(ms: seq<Mod>) { forall i, j :: 0 <= i < j < |ms| ==> ms[i].stem != ms[j].stem }

  /** Whether there is a cycle does not depend on the order of the modules. */
  lemma ReorderKeepsCycles(pkg: string, a: seq<Mod>, b: seq<Mod>)
    requires multiset(a) == multiset(b) && DistinctStems(a) && DistinctStems(b)
    ensures HasCycle(pkg, a) <==> HasCycle(pkg, b)
  {
    if HasCycle(pkg, a) {
      ReorderKeepsCycle(pkg, a, b);
    }
    if HasCycle(pkg, b) {
      ReorderKeepsCycle(pkg, b, a);
    }
  }

  lemma ReorderKeepsCycle(pkg: string, a: seq<Mod>, b: seq<Mod>)
    requires multiset(a) == multiset(b) && DistinctStems(b) && HasCycle(pkg, a)
    ensures HasCycle(pkg, b)
  {
    var w :| Closed(pkg, a, w);
    forall i | 0 <= i < |w| ensures w[i] < |a| {
      assert i < |w| - 1 ==> Edge(pkg, a, w[i], w[i + 1]);
      assert i > 0 ==> Edge(pkg, a, w[i - 1], w[i - 1 + 1]);
    }
    var at := seq(|a|, i requires 0 <= i < |a| => Place(a, b, i));
    var w' := seq(|w|, i requires 0 <= i < |w| && w[i] < |a| => at[w[i]]);
    forall i | 0 <= i < |w'| - 1 ensures Edge(pkg, b, w'[i], w'[i + 1]) {
      assert Edge(pkg, a, w[i], w[i + 1]);
      var segs :| Imports(a[w[i]], segs) && Target(pkg, a, w[i], segs) == Some(w[i + 1]);
      assert b[w'[i]] == a[w[i]] && b[w'[i + 1]] == a[w[i + 1]];
      assert FindMod(b, segs[1]) == Some(w'[i + 1]);
      assert Target(pkg, b, w'[i], segs) == Some(w'[i + 1]);
    }
    assert Closed(pkg, b, w');
  }

  /** Where module `i` of `a` is in `b`. */
  ghost function Place(a: seq<Mod>, b: seq<Mod>, i: nat): (j: nat)
    requires multiset(a) == multiset(b) && i < |a|
    ensures j < |b| && b[j] == a[i]
  {
    assert a[i] in multiset(b);
    var j :| 0 <= j < |b| && b[j] == a[i];
    j
  }

  // ---------- The search ----------

  /** The marks say what is being visited and what is finished. */
  ghost predicate Marks(n: nat, done: seq<bool>, onstack: seq<bool>, path: seq<nat>, order: seq<nat>) {
    && |done| == n == |onstack|
    && (forall u :: u in path ==> u < n && u !in order)
    && (forall u :: u in order ==> u < n)
    && (forall u: nat :: u < n ==> (done[u] <==> u in path || u in order))
    && (forall u: nat :: u < n ==> (onstack[u] <==> u in path))
  }

  lemma MarkVisited(n: nat, done: seq<bool>, onstack: seq<bool>, path: seq<nat>, order: seq<nat>, cur: nat)
    requires Marks(n, done, onstack, path, order) && cur < n && !done[cur]
    ensures Marks(n, done[cur := true], onstack[cur := true], path + [cur], order)
  {
    assert forall u :: u in path + [cur] <==> u in path || u == cur;
  }

  lemma MarkFinished(n: nat, done: seq<bool>, onstack: seq<bool>, path: seq<nat>, order: seq<nat>, cur: nat)
    requires Marks(n, done, onstack, path + [cur], order) && cur < n && cur !in path
    ensures Marks(n, done, onstack[cur := false], path, order + [cur])
  {
    assert forall u :: u in path + [cur] <==> u in path || u == cur;
    assert forall u :: u in order + [cur] <==> u in order || u == cur;
  }

  lemma WalkOn(pkg: string, ms: seq<Mod>, path: seq<nat>, cur: nat)
    requires Walk(pkg, ms, path) && (path != [] ==> Edge(pkg, ms, path[|path| - 1], cur))
    ensures Walk(pkg, ms, path + [cur])
  {
    var w := path + [cur];
    forall i | 0 <= i < |w| - 1 ensures Edge(pkg, ms, w[i], w[i + 1]) {
      if i < |path| - 1 {
        assert Edge(pkg, ms, path[i], path[i + 1]);
      }
    }
  }

  class Checker {
    const pkg: string
    var ms: seq<Mod>
    var done: seq<bool>
    var onstack: seq<bool>
    var found: bool
    var reports: seq<Report>
    ghost var path: seq<nat>
    ghost var order: seq<nat>

    constructor (pkg: string, ms: seq<Mod>)
      ensures this.pkg == pkg && this.ms == ms && reports == []
    {
      this.pkg, this.ms, reports, found := pkg, ms, [], false;
      done, onstack := [], [];
      path, order := [], [];
    }

    ghost function Undone(): set<nat>
      reads this
    {
      set i: nat | i < |done| && !done[i]
    }

    /** No cycle so far: what is being visited is a walk, what is finished leads
        back, and the marks say which is which. */
    ghost predicate Searching()
      reads this
    {
      && !found && reports == []
      && Walk(pkg, ms, path) && LeadsBack(pkg, ms, order)
      && Marks(|ms|, done, onstack, path, order)
    }

    /** One report, anchored at the root of the search, on an edge of a cycle. */
    ghost predicate Reported(root: nat)
      reads this
    {
      && found && |reports| == 1 && reports[0].root == root
      && Edge(pkg, ms, reports[0].src, reports[0].dst)
      && OnCycle(pkg, ms, reports[0].src, reports[0].dst)
    }

    /** The edges of `u`, the innermost module of the path, in source order. */
    method VisitEdges(cur: nat, root: nat)
      requires Searching() && path != [] && path[|path| - 1] == cur
      modifies this`done, this`onstack, this`found, this`reports, this`path, this`order
      ensures |done| == |onstack| == |ms| && Undone() <= old(Undone())
      ensures found ==> Reported(root)
      ensures !found ==> Searching() && path == old(path) && old(order) <= order
      ensures !found ==> forall v :: Edge(pkg, ms, cur, v) ==> v in order
      decreases Undone(), 1
    {
      assert cur in path;
      var j := 0;
      while j < |ms[cur].decls|
        invariant j <= |ms[cur].decls|
        invariant Searching() && path == old(path) && old(order) <= order && Undone() <= old(Undone())
        invariant Followed(pkg, ms, cur, order, j)
      {
        var d := ms[cur].decls[j];
        if d.Use? {
          var k := 0;
          while k < |d.imports|
            invariant k <= |d.imports|
            invariant Searching() && path == old(path) && old(order) <= order && Undone() <= old(Undone())
            invariant Followed(pkg, ms, cur, order, j)
            invariant forall i, v :: 0 <= i < k && Target(pkg, ms, cur, d.imports[i]) == Some(v) ==> v in order
          {
            var t := Target(pkg, ms, cur, d.imports[k]);
            if t.Some? {
              assert Imports(ms[cur], d.imports[k]);
              assert Edge(pkg, ms, cur, t.value);
              if onstack[t.value] {
                CloseWalk(pkg, ms, path, cur, t.value);
                reports := reports + [Report(root, cur, t.value)];
                found := true;
                return;
              } else if !done[t.value] {
                ghost var before := order;
                Visit(t.value, root);
                if found { return; }
                assert forall v :: v in before ==> v in order;
              }
            }
            k := k + 1;
          }
        }
        j := j + 1;
      }
      forall v | Edge(pkg, ms, cur, v) ensures v in order {
        var segs :| Imports(ms[cur], segs) && Target(pkg, ms, cur, segs) == Some(v);
      }
    }

    method Visit(cur: nat, root: nat)
      requires Searching() && cur < |ms| && !done[cur]
      requires path != [] ==> Edge(pkg, ms, path[|path| - 1], cur)
      modifies this`done, this`onstack, this`found, this`reports, this`path, this`order
      ensures |done| == |onstack| == |ms| && Undone() <= old(Undone())
      ensures found ==> Reported(root)
      ensures !found ==> Searching() && path == old(path) && old(order) <= order && cur in order
      decreases Undone(), 0
    {
      ghost var before, trail := Undone(), path;
      MarkVisited(|ms|, done, onstack, path, order, cur);
      WalkOn(pkg, ms, path, cur);
      done := done[cur := true];
      onstack := onstack[cur := true];
      path := path + [cur];
      assert cur in before && cur !in Undone() && Undone() <= before;
      VisitEdges(cur, root);
      if !found {
        assert cur !in trail;
        MarkFinished(|ms|, done, onstack, trail, order, cur);
        Finish(pkg, ms, order, cur);
        path, order := trail, order + [cur];
      }
      onstack := onstack[cur := false];
    }

    /** Puts the modules in name order by exchanges. */
    method SortMods()
      modifies this`ms
      ensures Sorted(ms) && multiset(ms) == multiset(old(ms))
    {
      var a := 0;
      while a < |ms|
        invariant a <= |ms| == |old(ms)| && multiset(ms) == multiset(old(ms))
        invariant forall i, j :: 0 <= i < a && i < j < |ms| ==> Leq(ms[i].stem, ms[j].stem)
      {
        var b := a + 1;
        while b < |ms|
          invariant a < b <= |ms| == |old(ms)| && multiset(ms) == multiset(old(ms))
          invariant forall i, j :: 0 <= i < a && i < j < |ms| ==> Leq(ms[i].stem, ms[j].stem)
          invariant forall j :: a < j < b ==> Leq(ms[a].stem, ms[j].stem)
        {
          LeqTotal(ms[a].stem, ms[b].stem);
          if !Leq(ms[a].stem, ms[b].stem) {
            forall j | a < j < b ensures Leq(ms[b].stem, ms[j].stem) {
              LeqTransitive(ms[b].stem, ms[a].stem, ms[j].stem);
            }
            ms := ms[a := ms[b]][b := ms[a]];
          }
          b := b + 1;
        }
        a := a + 1;
      }
    }

    /** The whole check. Module names are file names of one directory, so they are
        distinct. */
    method Check()
      requires DistinctStems(ms) && reports == []
      modifies this
      ensures Sorted(ms) && multiset(ms) == multiset(old(ms))
      ensures |reports| == if HasCycle(pkg, old(ms)) then 1 else 0
      ensures forall r :: r in reports ==> Edge(pkg, ms, r.src, r.dst) && OnCycle(pkg, ms, r.src, r.dst)
      ensures |done| == |onstack| == |ms| && (forall i :: 0 <= i < |ms| ==> !done[i] && !onstack[i])
    {
      SortMods();
      SortKeepsDistinct(old(ms), ms);
      ReorderKeepsCycles(pkg, old(ms), ms);
      SearchAll();
      done := seq(|ms|, i => false);
      onstack := seq(|ms|, i => false);
    }

    /** Searches, and says what was found. */
    method SearchAll()
      requires reports == []
      modifies this`done, this`onstack, this`found, this`reports, this`path, this`order
      ensures |reports| == if HasCycle(pkg, ms) then 1 else 0
      ensures forall r :: r in reports ==> Edge(pkg, ms, r.src, r.dst) && OnCycle(pkg, ms, r.src, r.dst)
    {
      ghost var root := SearchRoots();
      if found {
        CycleThrough(pkg, ms, reports[0].src, reports[0].dst);
      } else {
        OrderHasNoCycle(pkg, ms, order);
      }
    }

    /** From every module not done yet, until something is found. */
    method SearchRoots() returns (ghost root: nat)
      requires reports == []
      modifies this`done, this`onstack, this`found, this`reports, this`path, this`order
      ensures if found then Reported(root) else Searching() && path == [] && forall u :: 0 <= u < |ms| ==> u in order
    {
      done := seq(|ms|, i => false);
      onstack := seq(|ms|, i => false);
      found, path, order := false, [], [];
      root := 0;
      var i := 0;
      while i < |ms| && !found
        invariant i <= |ms|
        invariant !found ==> Searching() && path == [] && forall u :: 0 <= u < i ==> u in order
        invariant found ==> Reported(root)
      {
        if !done[i] {
          ghost var before := order;
          root := i;
          Visit(i, i);
          assert !found ==> forall u :: u in before ==> u in order;
        }
        i := i + 1;
      }
    }
  }

  /** Every import in the first `j` declarations leads to a finished module. */
  ghost predicate Followed(pkg: string, ms: seq<Mod>, cur: nat, order: seq<nat>, j: nat) {
    && cur < |ms| && j <= |ms[cur].decls|
    && forall i, k, v ::
         (0 <= i < j && ms[cur].decls[i].Use? && 0 <= k < |ms[cur].decls[i].imports|) ==>
         Target(pkg, ms, cur, ms[cur].decls[i].imports[k]) == Some(v) ==> v in order
  }

  /** A module whose edges all lead to finished modules is finished next. */
  lemma Finish(pkg: string, ms: seq<Mod>, order: seq<nat>, cur: nat)
    requires LeadsBack(pkg, ms, order) && forall v :: Edge(pkg, ms, cur, v) ==> v in order
    ensures LeadsBack(pkg, ms, order + [cur])
  {
    var after := order + [cur];
    forall i, v | 0 <= i < |after| && Edge(pkg, ms, after[i], v) ensures v in after[..i] {
      assert i < |order| ==> after[..i] == order[..i];
      assert i == |order| ==> after[..i] == order;
    }
  }

  /** An edge from the end of a walk to a module on it closes the walk. */
  lemma CloseWalk(pkg: string, ms: seq<Mod>, path: seq<nat>, cur: nat, t: nat)
    requires Walk(pkg, ms, path) && path != [] && path[|path| - 1] == cur && t in path && Edge(pkg, ms, cur, t)
    ensures OnCycle(pkg, ms, cur, t)
  {
    var i :| 0 <= i < |path| && path[i] == t;
    var w := path[i..] + [t];
    forall k | 0 <= k < |w| - 1 ensures Edge(pkg, ms, w[k], w[k + 1]) {
      if k < |path[i..]| - 1 {
        assert Edge(pkg, ms, path[i + k], path[i + k + 1]);
      }
    }
    assert Closed(pkg, ms, w);
  }

  lemma CycleThrough(pkg: string, ms: seq<Mod>, u: nat, v: nat)
    requires OnCycle(pkg, ms, u, v)
    ensures HasCycle(pkg, ms)
  {
  }

  lemma SortKeepsDistinct(a: seq<Mod>, b: seq<Mod>)
    requires multiset(a) == multiset(b) && DistinctStems(a)
    ensures DistinctStems(b)
  {
    forall i, j | 0 <= i < j < |b| ensures b[i].stem != b[j].stem {
      NoRepeats(a, b, i, j);
      var x, y := Place(b, a, i), Place(b, a, j);
    }
  }

  lemma NoRepeats(a: seq<Mod>, b: seq<Mod>, i: nat, j: nat)
    requires multiset(a) == multiset(b) && i < j < |b| && DistinctStems(a)
    ensures b[i] != b[j]
  {
    var x := Place(b, a, i);
    assert a == a[..x] + [a[x]] + a[x + 1..];
    assert a[x] !in a[..x] && a[x] !in a[x + 1..];
    assert multiset(a)[a[x]] == 1;
    assert b == b[..j] + [b[j]] + b[j + 1..];
    assert b[i] in b[..j];
    assert multiset(b)[b[i]] >= 1 + multiset([b[j]])[b[i]];
  }
}
