/** The pass over import statements as it runs: run by run, with an array of the
    statements of each that is sorted in place, into one output buffer. */
module UsePass {
  import opened Options
  import opened Sorting
  import opened UseSyntax
  import opened UseNormal
  import UseTheorem

  /** Printing statements in front of others. */
  lemma {:induction false} PrintAppend(a: seq<Unit>, b: seq<Unit>, tail: Pieces)
    ensures PrintDoc(a + b, tail) == PrintDoc(a, PrintDoc(b, tail))
  {
    hide Print;
    if a == [] {
      assert a + b == b;
    } else {
      PrintAppend(a[1..], b, tail);
      assert (a + b)[1..] == a[1..] + b;
    }
  }

  lemma {:induction false} PrintBehind(a: seq<Unit>, tail: Pieces)
    ensures PrintDoc(a, tail) == PrintDoc(a, []) + tail
  {
    hide Print;
    if a == [] {
      assert [] + tail == tail;
    } else {
      PrintBehind(a[1..], tail);
      var u, p := a[0], PrintDoc(a[1..], []);
      assert u.pre + (Print(u.stmt) + p) + tail == u.pre + (Print(u.stmt) + (p + tail));
    }
  }

  /** One statement more. */
  lemma PrintLast(a: seq<Unit>, u: Unit)
    ensures PrintDoc(a + [u], []) == PrintDoc(a, []) + (u.pre + Print(u.stmt))
  {
    hide Print;
    PrintAppend(a, [u], []);
    PrintBehind(a, PrintDoc([u], []));
    assert [u][1..] == [] && u.pre + (Print(u.stmt) + []) == u.pre + Print(u.stmt);
  }

  /** Sorts the statements of a run, unless one of them holds a comment. */
  method OrderRun(idx: array<Stmt>)
    modifies idx
    ensures idx[..] == Ordered(old(idx[..]))
  {
    var frozen := false;
    for a := 0 to idx.Length
      invariant frozen <==> exists i :: 0 <= i < a && Frozen(idx[i])
    {
      if Frozen(idx[a]) {
        frozen := true;
      }
    }
    assert frozen <==> AnyFrozen(idx[..]) by {
      hide Frozen;
      assert forall i :: 0 <= i < idx.Length ==> idx[..][i] == idx[i];
    }
    if !frozen {
      UseTheorem.KeysStrict();
      InsertionSort(idx, ByPath());
    }
  }

  /** Writes a run: what stands before it, and its statements on lines of their own. */
  method WriteRun(pre: Pieces, idx: array<Stmt>) returns (out: Pieces)
    requires idx.Length > 0
    ensures out == PrintDoc(Stacked(pre, idx[..]), [])
  {
    hide Print, Tidy, PrintDoc;
    ghost var r := Stacked(pre, idx[..]);
    out := pre;
    for a := 0 to idx.Length
      invariant out == if a == 0 then pre else PrintDoc(r[..a], [])
    {
      PrintLast(r[..a], r[a]);
      assert r[..a] + [r[a]] == r[..a + 1] && r[a].stmt == Tidy(idx[a]);
      NothingYet(r[..0]);
      if a > 0 {
        out := out + [Break];
      }
      ghost var before := out;
      out := out + Print(Tidy(idx[a]));
      Grouping(PrintDoc(r[..a], []), r[a].pre, Print(Tidy(idx[a])));
      assert r[..0] == [];
      if a == 0 {
        Empty(r[a].pre + Print(Tidy(idx[a])));
      }
    }
    assert r[..idx.Length] == r;
  }

  lemma NothingYet(a: seq<Unit>)
    requires a == []
    ensures PrintDoc(a, []) == []
  {
  }

  lemma Empty(ps: Pieces)
    ensures [] + ps == ps
  {
  }

  lemma Grouping(a: Pieces, b: Pieces, c: Pieces)
    ensures a + b + c == a + (b + c)
  {
  }

  /** A run and what is settled behind it. */
  lemma NextRun(units: seq<Unit>, n: nat, tail: Pieces)
    requires units != [] && n == RunLen(units)
    ensures PrintDoc(Settle(units), tail) ==
      PrintDoc(SettleRun(units[..n]), []) + PrintDoc(Settle(units[n..]), tail)
  {
    hide PrintDoc, SettleRun;
    PrintAppend(SettleRun(units[..n]), Settle(units[n..]), tail);
    PrintBehind(SettleRun(units[..n]), PrintDoc(Settle(units[n..]), tail));
  }

  /** The last statement of the run that starts at `ri`. */
  method FindEnd(units: seq<Unit>, ri: nat) returns (re: nat)
    requires ri < |units|
    ensures ri <= re < |units| && re + 1 - ri == RunLen(units[ri..])
  {
    hide Ends;
    re := ri;
    while re + 1 < |units| && !Ends(units[re + 1].pre)
      invariant ri <= re < |units| && forall i :: ri < i <= re ==> !Ends(units[i].pre)
    {
      re := re + 1;
    }
    UseTheorem.RunLenIs(units[ri..], re + 1 - ri);
  }

  /** One run, ordered and written. */
  method PassRun(run: seq<Unit>) returns (text: Pieces)
    requires run != []
    ensures text == PrintDoc(SettleRun(run), [])
  {
    hide PrintDoc, Ordered;
    var idx := new Stmt[|run|](i requires 0 <= i < |run| => run[i].stmt);
    assert idx[..] == Stmts(run);
    OrderRun(idx);
    text := WriteRun(run[0].pre, idx);
  }

  /** The loop over all runs, and what stands behind the last. */
  method NormalizeUses(units: seq<Unit>, tail: Pieces) returns (out: Pieces)
    ensures out == PrintDoc(Settle(units), tail)
  {
    hide PrintDoc, Settle, SettleRun, RunLen;
    out := [];
    var ri := 0;
    assert units[0..] == units;
    Empty(PrintDoc(Settle(units), tail));
    while ri < |units|
      invariant ri <= |units|
      invariant PrintDoc(Settle(units), tail) == out + PrintDoc(Settle(units[ri..]), tail)
    {
      var re := FindEnd(units, ri);
      ghost var rest := units[ri..];
      NextRun(rest, re + 1 - ri, tail);
      assert rest[..re + 1 - ri] == units[ri..re + 1] && rest[re + 1 - ri..] == units[re + 1..];
      var text := PassRun(units[ri..re + 1]);
      Grouping(out, text, PrintDoc(Settle(units[re + 1..]), tail));
      out := out + text;
      ri := re + 1;
    }
    AtEnd(units[ri..], tail);
    out := out + tail;
  }

  lemma AtEnd(units: seq<Unit>, tail: Pieces)
    requires units == []
    ensures PrintDoc(Settle(units), tail) == tail
  {
  }
}
