/** Stable sorting by insertion, and the order of strings. */
module Sorting {
  /** A stable insertion sort; `lt` is a strict order. */
  function Sort<T>(xs: seq<T>, lt: (T, T) -> bool): seq<T> {
    if xs == [] then [] else Insert(xs[0], Sort(xs[1..], lt), lt)
  }

  function Insert<T>(x: T, xs: seq<T>, lt: (T, T) -> bool): seq<T> {
    if xs != [] && lt(xs[0], x) then [xs[0]] + Insert(x, xs[1..], lt) else [x] + xs
  }

  predicate Sorted<T>(xs: seq<T>, lt: (T, T) -> bool) {
    forall i :: 0 <= i < |xs| - 1 ==> !lt(xs[i + 1], xs[i])
  }

  /** Strings by their characters, a prefix first. */
  predicate Before(a: string, b: string) {
    b != "" && (a == "" || a[0] < b[0] || (a[0] == b[0] && Before(a[1..], b[1..])))
  }

  ghost predicate Strict<T(!new)>(lt: (T, T) -> bool) {
    && (forall x, y :: lt(x, y) ==> !lt(y, x))
    && (forall x, y, z :: !lt(x, y) && !lt(y, z) ==> !lt(x, z))
  }

  lemma {:induction false} InsertSorted<T(!new)>(x: T, xs: seq<T>, lt: (T, T) -> bool)
    requires Strict(lt) && Sorted(xs, lt)
    ensures Sorted(Insert(x, xs, lt), lt)
    ensures Insert(x, xs, lt) != [] && (Insert(x, xs, lt)[0] == x || (xs != [] && Insert(x, xs, lt)[0] == xs[0]))
  {
    if xs != [] && lt(xs[0], x) {
      TailSorted(xs, lt);
      InsertSorted(x, xs[1..], lt);
      var r := Insert(x, xs[1..], lt);
      assert r[0] == x || (|xs| > 1 && r[0] == xs[1]);
      ConsSorted(xs[0], r, lt);
    } else {
      ConsSorted(x, xs, lt);
    }
  }

  lemma TailSorted<T>(xs: seq<T>, lt: (T, T) -> bool)
    requires Sorted(xs, lt) && xs != []
    ensures Sorted(xs[1..], lt) && (|xs| > 1 ==> !lt(xs[1], xs[0]))
  {
    assert |xs| > 1 ==> !lt(xs[0 + 1], xs[0]);
    forall i | 0 <= i < |xs[1..]| - 1 ensures !lt(xs[1..][i + 1], xs[1..][i]) {
      assert !lt(xs[i + 1 + 1], xs[i + 1]);
    }
  }

  lemma ConsSorted<T>(x: T, xs: seq<T>, lt: (T, T) -> bool)
    requires Sorted(xs, lt) && (xs != [] ==> !lt(xs[0], x))
    ensures Sorted([x] + xs, lt)
  {
    var all := [x] + xs;
    forall i | 0 <= i < |all| - 1 ensures !lt(all[i + 1], all[i]) {
      assert i > 0 ==> !lt(xs[i - 1 + 1], xs[i - 1]);
    }
  }

  lemma {:induction false} SortSorted<T(!new)>(xs: seq<T>, lt: (T, T) -> bool)
    requires Strict(lt)
    ensures Sorted(Sort(xs, lt), lt)
  {
    if xs != [] {
      SortSorted(xs[1..], lt);
      InsertSorted(xs[0], Sort(xs[1..], lt), lt);
    }
  }

  /** What is sorted stays as it is. */
  lemma {:induction false} SortStays<T>(xs: seq<T>, lt: (T, T) -> bool)
    requires Sorted(xs, lt)
    ensures Sort(xs, lt) == xs
  {
    if xs != [] {
      TailSorted(xs, lt);
      SortStays(xs[1..], lt);
      assert xs == [xs[0]] + xs[1..];
    }
  }

  lemma {:induction false} SortKeeps<T>(xs: seq<T>, lt: (T, T) -> bool)
    ensures multiset(Sort(xs, lt)) == multiset(xs) && |Sort(xs, lt)| == |xs|
  {
    if xs != [] {
      SortKeeps(xs[1..], lt);
      InsertKeeps(xs[0], Sort(xs[1..], lt), lt);
      assert xs == [xs[0]] + xs[1..];
    }
  }

  lemma {:induction false} InsertKeeps<T>(x: T, xs: seq<T>, lt: (T, T) -> bool)
    ensures multiset(Insert(x, xs, lt)) == multiset{x} + multiset(xs) && |Insert(x, xs, lt)| == |xs| + 1
  {
    if xs != [] && lt(xs[0], x) {
      InsertKeeps(x, xs[1..], lt);
      assert xs == [xs[0]] + xs[1..];
    }
  }

  /** Sorting brings in nothing new. */
  lemma SortPart<T>(xs: seq<T>, lt: (T, T) -> bool)
    ensures forall x :: x in Sort(xs, lt) ==> x in xs
  {
    SortKeeps(xs, lt);
    assert forall x :: x in Sort(xs, lt) ==> x in multiset(xs);
  }

  lemma {:induction false} BeforeStrict(a: string, b: string, c: string)
    ensures Before(a, b) ==> !Before(b, a)
    ensures !Before(a, b) && !Before(b, c) ==> !Before(a, c)
    ensures !Before(a, b) && !Before(b, a) ==> a == b
  {
    if a != "" && b != "" {
      if c != "" {
        BeforeStrict(a[1..], b[1..], c[1..]);
      } else {
        BeforeStrict(a[1..], b[1..], "");
      }
      assert a == [a[0]] + a[1..] && b == [b[0]] + b[1..];
    }
  }

  /** Two elements in the wrong order. */
  lemma SortTwo<T>(x: T, y: T, lt: (T, T) -> bool)
    requires lt(y, x)
    ensures Sort([x, y], lt) == [y, x]
  {
    assert [x, y][1..] == [y] && [y][1..] == [];
    assert Insert(y, [], lt) == [y] && Insert(x, [], lt) == [x];
    assert Sort([y], lt) == [y];
  }

  // ---------- What sorting keeps ----------

  /** The values of `f`, each as often as it occurs. */
  function Bag<T, U>(xs: seq<T>, f: T -> U): multiset<U> {
    if xs == [] then multiset{} else multiset{f(xs[0])} + Bag(xs[1..], f)
  }

  lemma BagNext<T, U>(xs: seq<T>, f: T -> U)
    ensures Bag(xs, f) == if xs == [] then multiset{} else multiset{f(xs[0])} + Bag(xs[1..], f)
  {
  }

  lemma {:induction false} BagAppend<T, U>(a: seq<T>, b: seq<T>, f: T -> U)
    ensures Bag(a + b, f) == Bag(a, f) + Bag(b, f)
  {
    hide Bag;
    BagNext(a, f);
    BagNext(a + b, f);
    if a == [] {
      assert a + b == b;
    } else {
      BagAppend(a[1..], b, f);
      assert (a + b)[0] == a[0] && (a + b)[1..] == a[1..] + b;
    }
  }

  lemma {:induction false} BagInsert<T, U>(x: T, xs: seq<T>, lt: (T, T) -> bool, f: T -> U)
    ensures Bag(Insert(x, xs, lt), f) == multiset{f(x)} + Bag(xs, f)
  {
    FirstOf(x, xs);
    if xs != [] && lt(xs[0], x) {
      FirstOf(xs[0], Insert(x, xs[1..], lt));
      BagInsert(x, xs[1..], lt, f);
    }
  }

  lemma {:induction false} BagSort<T, U>(xs: seq<T>, lt: (T, T) -> bool, f: T -> U)
    ensures Bag(Sort(xs, lt), f) == Bag(xs, f)
  {
    if xs != [] {
      BagSort(xs[1..], lt, f);
      BagInsert(xs[0], Sort(xs[1..], lt), lt, f);
    }
  }

  // ---------- In place ----------

  /** `x` behind everything that is not greater, and before the rest. */
  function InsertLast<T>(xs: seq<T>, x: T, lt: (T, T) -> bool): seq<T> {
    if xs != [] && !lt(x, xs[0]) then [xs[0]] + InsertLast(xs[1..], x, lt) else [x] + xs
  }

  lemma FirstOf<T>(x: T, xs: seq<T>)
    ensures ([x] + xs)[0] == x && ([x] + xs)[1..] == xs
  {
  }

  /** Inserting one element from the front and another from the back, in either order. */
  lemma {:induction false} InsertsCommute<T(!new)>(y: T, xs: seq<T>, x: T, lt: (T, T) -> bool)
    requires Strict(lt)
    ensures Insert(y, InsertLast(xs, x, lt), lt) == InsertLast(Insert(y, xs, lt), x, lt)
  {
    if xs == [] {
      assert [x] + xs == [x] && [y] + xs == [y] && [y] + [x] == [y, x] && [x] + [y] == [x, y];
      assert Insert(y, [x][1..], lt) == [y] && InsertLast([y][1..], x, lt) == [x];
    } else {
      InsertsCommute(y, xs[1..], x, lt);
      var z, rest := xs[0], xs[1..];
      assert xs == [z] + rest;
      FirstOf(z, InsertLast(rest, x, lt));
      FirstOf(z, Insert(y, rest, lt));
      FirstOf(x, xs);
      FirstOf(y, xs);
      FirstOf(x, Insert(y, xs, lt));
    }
  }

  /** Sorting one element more is inserting it last. */
  lemma {:induction false} SortLast<T(!new)>(xs: seq<T>, x: T, lt: (T, T) -> bool)
    requires Strict(lt)
    ensures Sort(xs + [x], lt) == InsertLast(Sort(xs, lt), x, lt)
  {
    if xs == [] {
      assert xs + [x] == [x] && [x][1..] == [];
      assert [x] + [] == [x];
    } else {
      SortLast(xs[1..], x, lt);
      assert (xs + [x])[1..] == xs[1..] + [x];
      InsertsCommute(xs[0], Sort(xs[1..], lt), x, lt);
    }
  }

  /** Where the element goes. */
  lemma {:induction false} InsertLastAt<T(!new)>(xs: seq<T>, x: T, lt: (T, T) -> bool, b: nat)
    requires Strict(lt) && Sorted(xs, lt) && b <= |xs| && (b > 0 ==> !lt(x, xs[b - 1]))
    requires forall k :: b <= k < |xs| ==> lt(x, xs[k])
    ensures InsertLast(xs, x, lt) == xs[..b] + [x] + xs[b..]
  {
    if b == 0 {
      assert xs[..0] + [x] + xs[0..] == [x] + xs;
    } else {
      TailSorted(xs, lt);
      NotBefore(xs, x, lt, b - 1);
      InsertLastAt(xs[1..], x, lt, b - 1);
      assert xs[..b] + [x] + xs[b..] == [xs[0]] + (xs[1..][..b - 1] + [x] + xs[1..][b - 1..]);
    }
  }

  /** What does not come before an element does not come before those ahead of it. */
  lemma {:induction false} NotBefore<T(!new)>(xs: seq<T>, x: T, lt: (T, T) -> bool, k: nat)
    requires Strict(lt) && Sorted(xs, lt) && k < |xs| && !lt(x, xs[k])
    ensures !lt(x, xs[0])
  {
    if k > 0 {
      assert !lt(xs[k - 1 + 1], xs[k - 1]);
      NotBefore(xs, x, lt, k - 1);
    }
  }

  /** Takes element `i` down past the greater ones, which move up. */
  method ShiftIn<T(!new)>(a: array<T>, i: nat, lt: (T, T) -> bool)
    requires i < a.Length && Strict(lt) && Sorted(a[..i], lt)
    modifies a
    ensures a[..i + 1] == InsertLast(old(a[..i]), old(a[i]), lt)
    ensures forall k :: i < k < a.Length ==> a[k] == old(a[k])
  {
    hide InsertLast, Strict, Sorted;
    ghost var s := a[..i];
    var v := a[i];
    var b := i;
    while b > 0 && lt(v, a[b - 1])
      invariant b <= i && forall k :: 0 <= k < b ==> a[k] == s[k]
      invariant forall k :: b < k <= i ==> a[k] == s[k - 1] && lt(v, s[k - 1])
      invariant forall k :: i < k < a.Length ==> a[k] == old(a[k])
    {
      assert a[b - 1] == s[b - 1];
      a[b] := a[b - 1];
      b := b - 1;
    }
    forall k | b <= k < i
      ensures lt(v, s[k])
    {
      assert a[k + 1] == s[k + 1 - 1];
    }
    a[b] := v;
    InsertLastAt(s, v, lt, b);
    assert a[..i + 1] == s[..b] + [v] + s[b..];
  }

  /** The stable insertion sort that shifts greater elements up. */
  method InsertionSort<T(!new)>(a: array<T>, lt: (T, T) -> bool)
    requires Strict(lt)
    modifies a
    ensures a[..] == Sort(old(a[..]), lt)
  {
    hide Sort, InsertLast, Strict, Sorted;
    ghost var was := a[..];
    SortNothing(lt);
    for i := 0 to a.Length
      invariant a[..i] == Sort(was[..i], lt)
      invariant forall k :: i <= k < a.Length ==> a[k] == was[k]
    {
      SortSorted(was[..i], lt);
      SortLast(was[..i], was[i], lt);
      assert was[..i] + [was[i]] == was[..i + 1];
      ShiftIn(a, i, lt);
    }
    assert was[..a.Length] == was && a[..a.Length] == a[..];
  }

  lemma SortNothing<T>(lt: (T, T) -> bool)
    ensures Sort([], lt) == []
  {
  }
}
