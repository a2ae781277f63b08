/** The environment as the interpreter updates it, cell by cell, and the main
    result: over every well-bracketed run each lookup returns what a store that
    never reuses a frame returns. */
module EnvMachine {
  import opened Options
  import opened RecyclingEnv

  // ---------- Where cells come from and go to ----------

  /** One cell taken: the first free one, or, where none is free, the next new one. */
  predicate Taken(free: seq<nat>, free': seq<nat>, limit: nat, limit': nat, cell: nat) {
    if free == [] then free' == [] && cell == limit && limit' == limit + 1
    else free' == free[1..] && cell == free[0] && limit' == limit
  }

  /** Frame `t` has one binding more, in a cell that was taken for it. */
  ghost predicate OneBound(m: Layout, m': Layout, limit: nat, limit': nat, t: nat) {
    && t in m.chain && t in m'.chain && m'.chain[t] != [] && m'.chain[t][1..] == m.chain[t]
    && m'.freeE == m.freeE && Taken(m.freeB, m'.freeB, limit, limit', m'.chain[t][0])
  }

  /** Frame `t` has no bindings, and `list` is free. */
  ghost function Cleared(m: Layout, t: nat, list: seq<nat>): Layout { m.(chain := m.chain[t := []], freeB := list) }

  /** The cells of frame `t`'s bindings are free as well. */
  ghost predicate BindsFreed(m: Layout, m': Layout, t: nat) {
    t in m.chain && t in m'.chain && forall x :: x in m'.freeB <==> x in m.freeB || x in m.chain[t]
  }

  /** Frame `t`'s cell and those of its bindings are free as well, unless it is marked;
      then nothing is. */
  ghost predicate Recycled(m: Layout, m': Layout, t: nat) {
    if t in m.cap then m' == m
    else
      && t in m.at && t in m.chain && m'.freeE == [m.at[t]] + m.freeE
      && forall x :: x in m'.freeB <==> x in m.freeB || x in m.chain[t]
  }

  /** The bindings first, then the frame. */
  lemma RecycledLater(m0: Layout, m: Layout, m': Layout, t: nat)
    requires t !in m.cap && t in m0.at && m.at == m0.at && m.cap == m0.cap && m.freeE == m0.freeE
    requires BindsFreed(m0, m, t) && m.chain[t] == [] && Recycled(m, m', t)
    ensures Recycled(m0, m', t)
  {
  }

  class Env<V> {
    var envs: map<nat, EnvCell>
    var binds: map<nat, BindCell<V>>
    var top: Ptr
    var envFree: Ptr
    var bindFree: Ptr
    var saved: seq<Ptr>
    var clos: seq<Ptr>
    var limit: nat
    ghost var abs: Abs<V>
    ghost var lay: Layout

    constructor ()
      ensures Valid() && abs == Abs([], [], [], [])
    {
      envs, binds, top, envFree, bindFree, saved, clos, limit := map[], map[], None, None, None, [], [], 0;
      abs := Abs([], [], [], []);
      lay := Layout(map[], map[], [], [], {});
    }

    ghost function C(): Cells<V>
      reads this
    {
      Cells(envs, binds, top, envFree, bindFree, saved, clos, limit)
    }

    ghost predicate Valid()
      reads this
    {
      Inv(C(), abs, lay)
    }

    /** A frame cell: a free one, or a new one. */
    method AllocEnv() returns (e: nat)
      requires Valid()
      modifies this`envFree, this`limit, this`lay
      ensures Valid() && LooseEnv(C(), lay, e) && lay == old(lay).(freeE := lay.freeE)
      ensures Taken(old(lay).freeE, lay.freeE, old(limit), limit, e)
    {
      if envFree.Some? {
        e := envFree.value;
        TakeEnv(C(), abs, lay);
        envFree := envs[e].up;
        lay := lay.(freeE := lay.freeE[1..]);
      } else {
        e := limit;
        NewEnv(C(), abs, lay);
        limit := limit + 1;
      }
    }

    method AllocBind() returns (b: nat)
      requires Valid()
      modifies this`bindFree, this`limit, this`lay
      ensures Valid() && LooseBind(C(), lay, b) && lay == old(lay).(freeB := lay.freeB)
      ensures Taken(old(lay).freeB, lay.freeB, old(limit), limit, b)
    {
      if bindFree.Some? {
        b := bindFree.value;
        TakeBind(C(), abs, lay);
        bindFree := binds[b].next;
        lay := lay.(freeB := lay.freeB[1..]);
      } else {
        b := limit;
        NewBind(C(), abs, lay);
        limit := limit + 1;
      }
    }

    /** A new frame in the first free cell, if there is one. */
    method Push()
      requires Valid()
      modifies this
      ensures Valid() && abs == AbsPush(old(abs)) && lay.freeB == old(lay).freeB
      ensures top.Some? && Taken(old(lay).freeE, lay.freeE, old(limit), limit, top.value)
    {
      var e := AllocEnv();
      Link(e, top, Last(abs.stack), Pushed);
    }

    /** Puts a loose cell on top as a new frame above `up`. */
    method Link(e: nat, up: Ptr, ghost id: Option<nat>, kind: Kind)
      requires Valid() && LooseEnv(C(), lay, e) && LinkOk(id, kind, Last(abs.stack), lay.cap) && up == PtrTo(lay.at, id)
      modifies this
      ensures Valid() && abs == AbsLink(old(abs), id, kind)
      ensures top == Some(e) && limit == old(limit) && lay == LayLink(old(lay), |old(abs).frames|, e)
    {
      hide Inv, LooseEnv, AbsLink, LayLink, LinkOk;
      ghost var c' := Linked(C(), e, up, kind);
      ghost var a', m' := AbsLink(abs, id, kind), LayLink(lay, |abs.frames|, e);
      assert Inv(c', a', m') by {
        LinkFrame(C(), abs, lay, e, id, kind);
      }
      saved := if kind.Entered? then saved + [top] else saved;
      envs := envs[e := EnvCell(None, up, false)];
      top, abs, lay := Some(e), a', m';
      assert C() == c';
    }

    /** Hands a list of bindings to the free list, one by one. */
    method MoveBinds(start: Ptr, ghost was: seq<nat>) returns (ghost list: seq<nat>)
      requires Moving(binds, binds, start, was, bindFree, lay.freeB, was, lay.freeB)
      modifies this`binds, this`bindFree
      ensures Moving(old(binds), binds, None, [], bindFree, list, was, lay.freeB)
    {
      var b := start;
      ghost var rest := was;
      list := lay.freeB;
      while b.Some?
        invariant Moving(old(binds), binds, b, rest, bindFree, list, was, lay.freeB)
        decreases |rest|
      {
        MoveOne(old(binds), binds, b, rest, bindFree, list, was, lay.freeB);
        var cell := b.value;
        var nx := binds[cell].next;
        binds := binds[cell := binds[cell].(next := bindFree)];
        bindFree := b;
        rest, list := rest[1..], [cell] + list;
        b := nx;
      }
    }

    /** The top frame's cell gives up its bindings. */
    method FreeBinds(e: nat)
      requires Valid() && abs.stack != [] && top == Some(e) && e in envs
      modifies this
      ensures Valid() && abs == AbsClear(old(abs)) && top == old(top) && limit == old(limit)
      ensures var t := Last(old(abs).stack).value;
        lay == Cleared(old(lay), t, lay.freeB) && BindsFreed(old(lay), lay, t)
    {
      ghost var t, c := Last(abs.stack).value, C();
      TopMoves(c, abs, lay, t);
      ghost var list := MoveBinds(envs[e].head, lay.chain[t]);
      ClearHead(e, t, c, list);
    }

    /** After its bindings have moved from where they were in `c`. */
    method ClearHead(e: nat, ghost t: nat, ghost c: Cells<V>, ghost list: seq<nat>)
      requires Inv(c, abs, lay) && C() == c.(binds := binds, bindFree := bindFree)
      requires abs.stack != [] && t == Last(abs.stack).value && t in lay.at && lay.at[t] == e && t in lay.chain
      requires e in envs && Moving(c.binds, binds, None, [], bindFree, list, lay.chain[t], lay.freeB)
      modifies this`envs, this`lay, this`abs
      ensures Valid() && abs == AbsClear(old(abs))
      ensures lay == Cleared(old(lay), t, list) && lay.freeB == list && BindsFreed(old(lay), lay, t)
    {
      hide Inv, Moving, BindsFreed, AbsClear, Cleared;
      envs := envs[e := envs[e].(head := None)];
      ClearMoved(c, abs, lay, C(), list, t);
      lay, abs := Cleared(lay, t, list), AbsClear(abs);
    }

    /** What a block does to its own frame at its end; a marked frame is left alone. */
    method DropScope()
      requires Valid()
      modifies this
      ensures Valid() && lay.at == old(lay.at) && lay.cap == old(lay.cap) && top == old(top)
      ensures abs == if old(abs).stack == []
        || Last(old(abs).stack).value in old(lay.cap) then old(abs) else AbsClear(old(abs))
      ensures limit == old(limit) && lay.freeE == old(lay).freeE
      ensures
        if old(abs).stack == [] || Last(old(abs).stack).value in old(lay.cap) then lay == old(lay)
        else BindsFreed(old(lay), lay, Last(old(abs).stack).value) && lay.chain[Last(old(abs).stack).value] == []
    {
      assert abs.stack != [] ==> Last(abs.stack).value in lay.at;
      if top.None? { return; }
      var e := top.value;
      assert CellOk(envs, abs.frames, lay.at, lay.cap, Last(abs.stack).value);
      if envs[e].captured { return; }
      FreeBinds(e);
    }

    /** The top frame goes. Unless it is marked, its cell and its bindings are free. */
    method Pop()
      requires Valid() && abs.stack != [] && abs.kinds[|abs.kinds| - 1].Pushed?
      modifies this
      ensures Valid() && abs == AbsPop(old(abs)) && lay.cap == old(lay.cap)
      ensures Last(old(abs).stack).value !in lay.cap ==> Last(old(abs).stack).value !in lay.at
      ensures limit == old(limit) && Recycled(old(lay), lay, Last(old(abs).stack).value)
    {
      ghost var t := Last(abs.stack).value;
      assert t in lay.at;
      assert CellOk(envs, abs.frames, lay.at, lay.cap, t);
      var e := top.value;
      if envs[e].captured {
        PopKept(C(), abs, lay);
        top := envs[e].up;
        abs := AbsPop(abs);
      } else {
        ghost var a0 := abs;
        FreeBinds(e);
        FreeFrame(e, AbsPop(a0));
      }
    }

    /** The cell of the top frame goes to the free list. */
    method FreeFrame(e: nat, ghost a': Abs<V>)
      requires Valid() && abs.stack != [] && abs.kinds[|abs.kinds| - 1].Pushed?
      requires top == Some(e) && Last(abs.stack).value !in lay.cap
      requires Last(abs.stack).value in lay.chain && lay.chain[Last(abs.stack).value] == []
      requires a'.stack == abs.stack[..|abs.stack| - 1] && a'.kinds == abs.kinds[..|abs.stack| - 1]
      requires a'.clos == abs.clos
      requires |a'.frames| == |abs.frames|
      requires forall id :: 0 <= id < |abs.frames| && id != Last(abs.stack).value ==> a'.frames[id] == abs.frames[id]
      modifies this
      ensures Valid() && abs == a' && lay.cap == old(lay.cap)
      ensures lay.at.Keys == old(lay.at.Keys) - {Last(old(abs).stack).value}
      ensures lay.freeE == [e] + old(lay).freeE && lay.freeB == old(lay).freeB && limit == old(limit)
    {
      ghost var t := Last(abs.stack).value;
      assert CellOk(envs, abs.frames, lay.at, lay.cap, t);
      ghost var c', m' := Freed(C(), e), LayFree(lay, t);
      assert Inv(c', a', m') by {
        FreeTop(C(), abs, lay, a');
      }
      top := envs[e].up;
      envs := envs[e := EnvCell(None, envFree, false)];
      envFree, abs, lay := Some(e), a', m';
      assert C() == c';
    }

    /** The end of a block: its bindings first, then its frame. */
    method ExitBlock()
      requires Valid() && abs.stack != [] && abs.kinds[|abs.kinds| - 1].Pushed?
      modifies this
      ensures Valid() && abs == AbsPop(old(abs))
      ensures limit == old(limit) && Recycled(old(lay), lay, Last(old(abs).stack).value)
    {
      ghost var a0, m0, t := abs, lay, Last(abs.stack).value;
      TopMoves(C(), abs, lay, t);
      hide Inv, Recycled, BindsFreed, Moving;
      DropScope();
      ghost var m := lay;
      Pop();
      if t !in lay.cap {
        RecycledLater(m0, m, lay, t);
        ForgetTop(a0, t);
      }
    }

    /** The bindings of a frame that is gone may be said to have stayed. */
    ghost method ForgetTop(a0: Abs<V>, t: nat)
      requires Valid() && a0.stack != [] && |a0.kinds| == |a0.stack| && t == Last(a0.stack).value < |a0.frames|
      requires abs == AbsPop(AbsClear(a0)) && t !in lay.at
      modifies this`abs
      ensures Valid() && abs == AbsPop(a0)
    {
      hide Inv;
      ForgetCleared(C(), a0, lay, t);
      abs := AbsPop(a0);
    }

    /** The first binding of `x` from the top frame outwards, as a cell. */
    method FindBind(x: string) returns (b: Ptr, ghost id: nat, ghost k: nat)
      requires Valid()
      ensures b.None? <==> Owner(abs.frames, Last(abs.stack), x).None?
      ensures b.Some? ==>
        && Owner(abs.frames, Last(abs.stack), x) == Some(id) && id in lay.at && k < |lay.chain[id]|
        && b == Some(lay.chain[id][k]) && b.value in binds && binds[b.value].name == x
        && binds[b.value].slot == abs.frames[id].vars[x]
        && forall j :: 0 <= j < k ==> lay.chain[id][j] in binds && binds[lay.chain[id][j]].name != x
    {
      id, k, b := 0, 0, None;
      var e := top;
      ghost var cur := Last(abs.stack);
      while e.Some?
        invariant b.None? && (cur.Some? ==> cur.value in lay.at)
        invariant e == PtrTo(lay.at, cur)
        invariant Owner(abs.frames, Last(abs.stack), x) == Owner(abs.frames, cur, x)
        decreases if cur.Some? then cur.value + 1 else 0
      {
        id := cur.value;
        assert CellOk(envs, abs.frames, lay.at, lay.cap, id);
        assert BindsAt(envs, binds, abs.frames, lay.at, lay.chain, id);
        ghost var s := lay.chain[id];
        b, k := envs[e.value].head, 0;
        while b.Some?
          invariant k <= |s| && BindList(binds, b, s[k..])
          invariant forall j :: 0 <= j < k ==> s[j] in binds && binds[s[j]].name != x
          decreases |s| - k
        {
          assert s[k] == s[k..][0] && s[k..][1..] == s[k + 1..];
          VarsAt(binds, s, k, x);
          if binds[b.value].name == x { return; }
          b, k := binds[b.value].next, k + 1;
        }
        VarsAt(binds, s, k, x);
        e := envs[e.value].up;
        cur := abs.frames[id].up;
      }
    }

    method Find(x: string) returns (v: Option<V>)
      requires Valid()
      ensures v == AbsFind(abs, x)
    {
      var b, id, k := FindBind(x);
      v := if b.Some? then Some(binds[b.value].slot) else None;
    }

    /** Writes the binding that a lookup finds. */
    method Assign(x: string, v: V) returns (found: bool)
      requires Valid()
      modifies this
      ensures Valid()
      ensures var o := Owner(old(abs).frames, Last(old(abs).stack), x);
        found == o.Some? && abs == if o.Some? then AbsStore(old(abs), o.value, x, v) else old(abs)
    {
      var b, id, k := FindBind(x);
      found := b.Some?;
      if found {
        StoreSlot(C(), abs, lay, id, k, v);
        binds := binds[b.value := binds[b.value].(slot := v)];
        abs := AbsStore(abs, id, x, v);
      }
    }

    /** The cell of `x` in the top frame. */
    method FindInTop(x: string) returns (b: Ptr, ghost k: nat)
      requires Valid() && abs.stack != []
      ensures Last(abs.stack).value < |abs.frames|
      ensures b.Some? <==> x in abs.frames[Last(abs.stack).value].vars
      ensures b.Some? ==> var t := Last(abs.stack).value;
        && t in lay.at && k < |lay.chain[t]| && b == Some(lay.chain[t][k]) && b.value in binds
          && binds[b.value].name == x
        && forall j :: 0 <= j < k ==> lay.chain[t][j] in binds && binds[lay.chain[t][j]].name != x
    {
      ghost var t := Last(abs.stack).value;
      assert t in lay.at;
      assert CellOk(envs, abs.frames, lay.at, lay.cap, t);
      assert BindsAt(envs, binds, abs.frames, lay.at, lay.chain, t);
      ghost var s := lay.chain[t];
      b, k := envs[top.value].head, 0;
      while b.Some?
        invariant k <= |s| && BindList(binds, b, s[k..])
        invariant forall j :: 0 <= j < k ==> s[j] in binds && binds[s[j]].name != x
        decreases |s| - k
      {
        assert s[k] == s[k..][0] && s[k..][1..] == s[k + 1..];
        VarsAt(binds, s, k, x);
        if binds[b.value].name == x { return; }
        b, k := binds[b.value].next, k + 1;
      }
      VarsAt(binds, s, k, x);
    }

    /** Binds in the top frame. A name that is there already keeps its cell, and no
        cell is taken or moved for it. */
    method Let(x: string, v: V)
      requires Valid() && abs.stack != []
      modifies this
      ensures Last(old(abs).stack).value < |old(abs).frames|
      ensures Valid() && abs == AbsLet(old(abs), x, v)
      ensures x in old(abs).frames[Last(old(abs).stack).value].vars ==>
        lay == old(lay) && envs == old(envs) && binds.Keys == old(binds).Keys && limit == old(limit)
      ensures x !in old(abs).frames[Last(old(abs).stack).value].vars ==>
        OneBound(old(lay), lay, old(limit), limit, Last(old(abs).stack).value)
    {
      ghost var t := Last(abs.stack).value;
      var b, k := FindInTop(x);
      if b.Some? {
        StoreSlot(C(), abs, lay, t, k, v);
        binds := binds[b.value := binds[b.value].(slot := v)];
        abs := AbsStore(abs, t, x, v);
      } else {
        NewBinding(x, v);
      }
    }

    method NewBinding(x: string, v: V)
      requires Valid() && abs.stack != []
      modifies this
      ensures Last(old(abs).stack).value < |old(abs).frames|
      ensures Valid() && abs == AbsLet(old(abs), x, v)
      ensures OneBound(old(lay), lay, old(limit), limit, Last(old(abs).stack).value)
    {
      var cell := AllocBind();
      ghost var t := Last(abs.stack).value;
      assert t in lay.at;
      AddBind(C(), abs, lay, cell, x, v);
      var e := top.value;
      ghost var c' := C().(binds := binds[cell := BindCell(x, v, envs[e].head)],
        envs := envs[e := envs[e].(head := Some(cell))]);
      ghost var a', m' := AbsLet(abs, x, v), lay.(chain := lay.chain[t := [cell] + lay.chain[t]]);
      assert Inv(c', a', m');
      binds := binds[cell := BindCell(x, v, envs[e].head)];
      envs := envs[e := envs[e].(head := Some(cell))];
      lay, abs := m', a';
      assert C() == c';
    }

    /** Makes a closure: marks the current chain up to its end and keeps its start. */
    method Capture()
      requires Valid()
      modifies this
      ensures Valid() && abs == AbsCapture(old(abs))
    {
      ghost var c0 := C();
      ghost var seen := MarkUp();
      ghost var c', a', m' := c0.(envs := envs, clos := clos + [top]), AbsCapture(abs), lay.(cap := lay.cap + seen);
      assert Inv(c', a', m') by {
        MarkChain(c0, abs, lay, envs, seen);
      }
      clos, lay, abs := clos + [top], m', a';
      assert C() == c';
    }

    /** Walks the current chain to its end and marks every frame on it. */
    method MarkUp() returns (ghost seen: set<nat>)
      requires Valid()
      modifies this`envs
      ensures seen <= lay.at.Keys && UpClosed(abs, seen, None)
      ensures Last(abs.stack).Some? ==> Last(abs.stack).value in seen
      ensures Marked(old(envs), envs, lay.at, lay.freeE, seen)
    {
      ghost var c0, cur := C(), Last(abs.stack);
      seen := {};
      var q := top;
      while q.Some?
        invariant cur.Some? ==> cur.value in lay.at
        invariant q == PtrTo(lay.at, cur) && seen <= lay.at.Keys
        invariant UpClosed(abs, seen, cur)
        invariant Last(abs.stack).Some? ==> Last(abs.stack).value in seen || Last(abs.stack) == cur
        invariant Marked(c0.envs, envs, lay.at, lay.freeE, seen)
        invariant C() == c0.(envs := envs)
        decreases if cur.Some? then cur.value + 1 else 0
      {
        ghost var id := cur.value;
        assert CellOk(c0.envs, abs.frames, lay.at, lay.cap, id);
        MarkOne(c0, abs, lay, envs, seen, id);
        envs := envs[q.value := envs[q.value].(captured := true)];
        seen := seen + {id};
        q := envs[q.value].up;
        cur := abs.frames[id].up;
      }
    }

    /** A closure call puts the current top aside and runs above the closure's frame.
        Its frame is always a new cell. */
    method Enter(k: nat)
      requires Valid() && k < |abs.clos|
      modifies this
      ensures Valid() && abs == AbsEnter(old(abs), k)
      ensures top == Some(old(limit)) && limit == old(limit) + 1
      ensures lay.freeE == old(lay).freeE && lay.freeB == old(lay).freeB
    {
      var e := limit;
      NewEnv(C(), abs, lay);
      limit := limit + 1;
      Link(e, clos[k], abs.clos[k], Entered);
    }

    method Leave()
      requires Valid() && abs.stack != [] && abs.kinds[|abs.kinds| - 1].Entered?
      modifies this
      ensures Valid() && abs == AbsPop(old(abs))
      ensures lay.freeE == old(lay).freeE && lay.freeB == old(lay).freeB && limit == old(limit)
    {
      LeaveCall(C(), abs, lay);
      ghost var t := abs.stack[|abs.stack| - 1];
      var n := |saved| - 1;
      top := saved[n];
      saved := saved[..n];
      if t !in lay.cap {
        lay := lay.(at := lay.at - {t}, chain := lay.chain - {t});
      }
      abs := AbsPop(abs);
    }
  }

  /** Part of a frame's bindings has gone to the free list: `rest` is what is left of
      `was`, `list` is what the free list, once `free`, holds now. */
  ghost predicate Moving<V>(
      before: map<nat, BindCell<V>>, binds: map<nat, BindCell<V>>, b: Ptr, rest: seq<nat>, p: Ptr, list: seq<nat>,
      was: seq<nat>, free: seq<nat>)
  {
    && BindList(binds, b, rest) && BindList(binds, p, list)
    && Distinct(rest) && Distinct(list) && Apart(rest, list)
    && (forall x :: x in rest || x in list <==> x in was || x in free)
    && binds.Keys == before.Keys
    && (forall x :: x in rest ==> x in binds)
    && forall x :: x in before && x !in list ==> binds[x] == before[x]
  }

  /** Where the bindings of frame `t` start to move. */
  lemma TopMoves<V>(c: Cells<V>, a: Abs<V>, m: Layout, t: nat)
    requires Inv(c, a, m) && a.stack != [] && t == Last(a.stack).value
    ensures t in m.at && m.at[t] in c.envs && c.top == Some(m.at[t]) && t in m.chain && t < |a.frames|
    ensures Moving(c.binds, c.binds, c.envs[m.at[t]].head, m.chain[t], c.bindFree, m.freeB, m.chain[t], m.freeB)
  {
    assert t in m.at;
    assert BindsAt(c.envs, c.binds, a.frames, m.at, m.chain, t);
    assert Apart(m.chain[t], m.freeB);
  }

  /** Where they have moved. */
  lemma ClearMoved<V>(c: Cells<V>, a: Abs<V>, m: Layout, c': Cells<V>, list: seq<nat>, t: nat)
    requires Inv(c, a, m) && a.stack != [] && t == Last(a.stack).value && t in m.at && t in m.chain && m.at[t] in c.envs
    requires c' == c.(envs := c.envs[m.at[t] := c.envs[m.at[t]].(head := None)], binds := c'.binds,
      bindFree := c'.bindFree)
    requires Moving(c.binds, c'.binds, None, [], c'.bindFree, list, m.chain[t], m.freeB)
    ensures t < |a.frames| && Inv(c', AbsClear(a), Cleared(m, t, list)) && BindsFreed(m, Cleared(m, t, list), t)
    ensures Cleared(m, t, list).freeB == list
  {
    TopMoves(c, a, m, t);
    hide Inv;
    ClearTop(c, a, m, c', list);
  }

  lemma MoveOne<V>(
      before: map<nat, BindCell<V>>, binds: map<nat, BindCell<V>>, b: Ptr, rest: seq<nat>, p: Ptr, list: seq<nat>,
      was: seq<nat>, free: seq<nat>)
    requires Moving(before, binds, b, rest, p, list, was, free) && b.Some?
    ensures rest != [] && b.value in binds
    ensures Moving(before, binds[b.value := binds[b.value].(next := p)], binds[b.value].next, rest[1..], b,
      [b.value] + list, was, free)
  {
    var cell := b.value;
    var after := binds[cell := binds[cell].(next := p)];
    MoveMembers(rest, list, was, free);
    BindListFrame(binds, after, binds[cell].next, rest[1..]);
    BindListIn(binds, p, list);
    BindListFrame(binds, after, p, list);
    assert ([cell] + list)[1..] == list;
  }

  lemma MoveMembers(rest: seq<nat>, list: seq<nat>, was: seq<nat>, free: seq<nat>)
    requires rest != [] && Distinct(rest) && Distinct(list) && Apart(rest, list)
    requires forall x :: x in rest || x in list <==> x in was || x in free
    ensures Distinct(rest[1..]) && Distinct([rest[0]] + list) && Apart(rest[1..], [rest[0]] + list)
    ensures forall x :: x in rest[1..] || x in [rest[0]] + list <==> x in was || x in free
    ensures rest[0] !in rest[1..] && rest[0] !in list && forall x :: x in rest[1..] ==> x in rest
  {
    assert rest[0] in rest && forall x :: x in rest <==> x == rest[0] || x in rest[1..];
    assert forall x :: x in [rest[0]] + list <==> x == rest[0] || x in list;
  }

  /** The parents of the frames in `seen` are in it too, `cur` aside. */
  ghost predicate UpClosed<V>(a: Abs<V>, seen: set<nat>, cur: Option<nat>) {
    forall id :: id in seen && id < |a.frames| && a.frames[id].up.Some? ==>
      a.frames[id].up.value in seen || a.frames[id].up == cur
  }

  /** `envs` is `before` with the frames in `seen` marked. */
  ghost predicate Marked(
      before: map<nat, EnvCell>, envs: map<nat, EnvCell>, at: map<nat, nat>, free: seq<nat>, seen: set<nat>) {
    && envs.Keys == before.Keys
    && (forall id :: id in at && at[id] in before ==>
      envs[at[id]] == before[at[id]].(captured := before[at[id]].captured || id in seen))
    && (forall e :: e in before && e in free ==> envs[e] == before[e])
  }

  lemma MarkOne<V>(c: Cells<V>, a: Abs<V>, m: Layout, envs: map<nat, EnvCell>, seen: set<nat>, id: nat)
    requires Inv(c, a, m) && id in m.at && m.at[id] in c.envs && Marked(c.envs, envs, m.at, m.freeE, seen)
    ensures Marked(c.envs, envs[m.at[id] := envs[m.at[id]].(captured := true)], m.at, m.freeE, seen + {id})
  {
    forall i | i in m.at && i != id ensures m.at[i] != m.at[id] {
      assert OwnCells(m.at, m.chain, i, id);
    }
  }

  /** A dead frame may say anything. */
  lemma Forget<V>(c: Cells<V>, a: Abs<V>, m: Layout, a': Abs<V>, t: nat)
    requires Inv(c, a, m) && t !in m.at && a' == a.(frames := a'.frames) && |a'.frames| == |a.frames|
    requires forall id :: 0 <= id < |a.frames| && id != t ==> a'.frames[id] == a.frames[id]
    ensures Inv(c, a', m)
  {
    forall id | id in m.at ensures CellOk(c.envs, a'.frames, m.at, m.cap, id) {
      assert CellOk(c.envs, a.frames, m.at, m.cap, id);
    }
    forall id | id in m.at ensures BindsAt(c.envs, c.binds, a'.frames, m.at, m.chain, id) {
      assert BindsAt(c.envs, c.binds, a.frames, m.at, m.chain, id);
    }
    forall j | 0 <= j < |a.stack| ensures LinkAt(a'.frames, a.stack, a.kinds, m.cap, j) {
      assert LinkAt(a.frames, a.stack, a.kinds, m.cap, j);
    }
    forall id | id in m.cap ensures UpIn(a'.frames, m.cap, id) {
      assert UpIn(a.frames, m.cap, id);
      assert id < |a.frames| ==> a'.frames[id] == a.frames[id];
    }
  }

  lemma ForgetCleared<V>(c: Cells<V>, a: Abs<V>, m: Layout, t: nat)
    requires a.stack != [] && |a.kinds| == |a.stack| && t == Last(a.stack).value && t < |a.frames|
    requires Inv(c, AbsPop(AbsClear(a)), m) && t !in m.at
    ensures Inv(c, AbsPop(a), m)
  {
    hide Inv;
    Forget(c, AbsPop(AbsClear(a)), m, AbsPop(a), t);
  }

  // ---------- Whole runs ----------

  datatype Op<V> =
    | DoPush
    | DoPop
    | DoExitBlock
    | DoLet(x: string, v: V)
    | DoFind(x: string)
    | DoAssign(x: string, v: V)
    | DoCapture
    | DoEnter(k: nat)
    | DoLeave

  /** A frame is closed the way it was opened, and closures exist when called. */
  predicate Fits<V>(a: Abs<V>, op: Op<V>) {
    |a.kinds| == |a.stack| && (a.stack != [] ==> Last(a.stack).value < |a.frames|) &&
    match op
    case DoPop => a.stack != [] && a.kinds[|a.kinds| - 1].Pushed?
    case DoExitBlock => a.stack != [] && a.kinds[|a.kinds| - 1].Pushed?
    case DoLeave => a.stack != [] && a.kinds[|a.kinds| - 1].Entered?
    case DoLet(_, _) => a.stack != []
    case DoEnter(k) => k < |a.clos|
    case _ => true
  }

  /** What the reference store does, and what it answers to a lookup. */
  function AbsStep<V>(a: Abs<V>, op: Op<V>): (Abs<V>, Option<V>)
    requires Fits(a, op)
  {
    match op
    case DoPush => (AbsPush(a), None)
    case DoPop => (AbsPop(a), None)
    case DoExitBlock => (AbsPop(a), None)
    case DoLet(x, v) => (AbsLet(a, x, v), None)
    case DoFind(x) => (a, AbsFind(a, x))
    case DoAssign(x, v) =>
      var o := Owner(a.frames, Last(a.stack), x);
      (if o.Some? then AbsStore(a, o.value, x, v) else a, None)
    case DoCapture => (AbsCapture(a), None)
    case DoEnter(k) => (AbsEnter(a, k), None)
    case DoLeave => (AbsPop(a), None)
  }

  predicate Bracketed<V>(a: Abs<V>, ops: seq<Op<V>>)
    decreases |ops|
  {
    ops == [] || (Fits(a, ops[0]) && Bracketed(AbsStep(a, ops[0]).0, ops[1..]))
  }

  function Answers<V>(a: Abs<V>, ops: seq<Op<V>>): seq<Option<V>>
    requires Bracketed(a, ops)
    decreases |ops|
  {
    if ops == [] then [] else [AbsStep(a, ops[0]).1] + Answers(AbsStep(a, ops[0]).0, ops[1..])
  }

  method Step<V>(env: Env<V>, op: Op<V>) returns (r: Option<V>)
    requires env.Valid() && Fits(env.abs, op)
    modifies env
    ensures env.Valid() && (env.abs, r) == AbsStep(old(env.abs), op)
  {
    r := None;
    match op {
      case DoPush => env.Push();
      case DoPop => env.Pop();
      case DoExitBlock => env.ExitBlock();
      case DoLet(x, v) => env.Let(x, v);
      case DoFind(x) => r := env.Find(x);
      case DoAssign(x, v) => var found := env.Assign(x, v);
      case DoCapture => env.Capture();
      case DoEnter(k) => env.Enter(k);
      case DoLeave => env.Leave();
    }
  }

  /** The free lists are finite and repeat nothing, no live frame or binding is on
      them, no two live frames share a cell, and the parent of a marked frame is live
      and marked. */
  ghost predicate Safe<V>(c: Cells<V>, m: Layout) {
    && EnvList(c.envs, c.envFree, m.freeE) && Distinct(m.freeE)
    && BindList(c.binds, c.bindFree, m.freeB) && Distinct(m.freeB)
    && (forall id :: id in m.at ==> m.at[id] in c.envs && m.at[id] !in m.freeE)
    && (forall id, x :: id in m.chain && x in m.chain[id] ==> x in c.binds && x !in m.freeB)
    && (forall i, j :: i in m.at && j in m.at && i != j ==> m.at[i] != m.at[j])
    && (forall i, j, x :: i in m.chain && j in m.chain && i != j && x in m.chain[i] ==> x !in m.chain[j])
    && (forall id :: id in m.at && c.envs[m.at[id]].captured && c.envs[m.at[id]].up.Some? ==>
      exists p :: p in m.at && m.at[p] in c.envs && c.envs[m.at[id]].up == Some(m.at[p]) && c.envs[m.at[p]].captured)
  }

  lemma RecyclingIsSafe<V>(c: Cells<V>, a: Abs<V>, m: Layout)
    requires Inv(c, a, m)
    ensures Safe(c, m)
  {
    forall id | id in m.at
      ensures m.at[id] in c.envs && m.at[id] !in m.freeE
      ensures c.envs[m.at[id]].captured && c.envs[m.at[id]].up.Some? ==>
        exists p :: p in m.at && m.at[p] in c.envs && c.envs[m.at[id]].up == Some(m.at[p]) && c.envs[m.at[p]].captured
    {
      assert CellOk(c.envs, a.frames, m.at, m.cap, id);
      if c.envs[m.at[id]].captured && a.frames[id].up.Some? {
        assert UpIn(a.frames, m.cap, id);
        assert CellOk(c.envs, a.frames, m.at, m.cap, a.frames[id].up.value);
      }
    }
    forall id, x | id in m.chain && x in m.chain[id] ensures x in c.binds && x !in m.freeB {
      assert BindsAt(c.envs, c.binds, a.frames, m.at, m.chain, id);
    }
    forall i, j | i in m.at && j in m.at && i != j
      ensures m.at[i] != m.at[j] && forall x :: x in m.chain[i] ==> x !in m.chain[j]
    {
      assert OwnCells(m.at, m.chain, i, j);
    }
  }

  /** What a run has done to the reference store. */
  function AbsRun<V>(a: Abs<V>, ops: seq<Op<V>>): Abs<V>
    requires Bracketed(a, ops)
    decreases |ops|
  {
    if ops == [] then a else AbsRun(AbsStep(a, ops[0]).0, ops[1..])
  }

  /** A state of a run: the cells, and what they stand for. */
  datatype Seen<V> = Seen(c: Cells<V>, a: Abs<V>, m: Layout)

  /** State `i` is safe, and stands for what the reference store is after `i` steps. */
  ghost predicate SeenOk<V>(a: Abs<V>, ops: seq<Op<V>>, i: nat, s: Seen<V>)
    requires i <= |ops|
  {
    Inv(s.c, s.a, s.m) && Safe(s.c, s.m) && Bracketed(a, ops[..i]) && s.a == AbsRun(a, ops[..i])
  }

  lemma SeenLater<V>(a: Abs<V>, ops: seq<Op<V>>, i: nat, s: Seen<V>)
    requires Bracketed(a, ops) && 0 < i <= |ops| && SeenOk(AbsStep(a, ops[0]).0, ops[1..], i - 1, s)
    ensures SeenOk(a, ops, i, s)
  {
    hide Inv, Safe;
    assert ops[..i][0] == ops[0] && ops[..i][1..] == ops[1..][..i - 1];
  }

  /** Recycling is invisible, and it is safe: from the empty environment, any bracketed
      run answers every lookup as the store that never reuses a frame does, and each
      state on its way is as `Safe` says. */
  method Run<V>(ops: seq<Op<V>>) returns (answers: seq<Option<V>>, ghost states: seq<Seen<V>>)
    requires Bracketed(Abs([], [], [], []), ops)
    ensures answers == Answers(Abs([], [], [], []), ops)
    ensures |states| == |ops| + 1
    ensures forall i :: 0 <= i <= |ops| ==> SeenOk(Abs([], [], [], []), ops, i, states[i])
  {
    var env := new Env<V>();
    answers, states := RunFrom(env, ops);
  }

  /** From any state: the states go from that one to the one at the end. */
  method RunFrom<V>(env: Env<V>, ops: seq<Op<V>>) returns (answers: seq<Option<V>>, ghost states: seq<Seen<V>>)
    requires env.Valid() && Bracketed(env.abs, ops)
    modifies env
    ensures env.Valid() && answers == Answers(old(env.abs), ops) && |states| == |ops| + 1
    ensures states[0] == old(Seen(env.C(), env.abs, env.lay)) && states[|ops|] == Seen(env.C(), env.abs, env.lay)
    ensures forall i :: 0 <= i <= |ops| ==> SeenOk(old(env.abs), ops, i, states[i])
    decreases |ops|
  {
    hide Inv, Safe, SeenOk;
    ghost var first, a := Seen(env.C(), env.abs, env.lay), env.abs;
    FirstSeen(first, ops);
    answers, states := [], [first];
    if ops != [] {
      var r := Step(env, ops[0]);
      ghost var later;
      var rest;
      rest, later := RunFrom(env, ops[1..]);
      answers := [r] + rest;
      states := [first] + later;
      forall i | 0 < i <= |ops|
        ensures SeenOk(a, ops, i, states[i])
      {
        SeenLater(a, ops, i, later[i - 1]);
      }
    }
  }

  lemma FirstSeen<V>(s: Seen<V>, ops: seq<Op<V>>)
    requires Inv(s.c, s.a, s.m)
    ensures SeenOk(s.a, ops, 0, s)
  {
    hide Inv, Safe;
    RecyclingIsSafe(s.c, s.a, s.m);
    assert ops[..0] == [];
  }
}
