/** The interpreter's environment. Frames and bindings are cells that go through
    free lists; a closure keeps the whole chain it was made in by marking it. The
    reference is a store that never uses a frame twice. */
module RecyclingEnv {
  import opened Options

  type Ptr = Option<nat>

  // ---------- The reference: frames are only ever added ----------

  datatype Frame<V> = Frame(vars: map<string, V>, up: Option<nat>)

  /** How a frame came onto the stack: by a block or call, or by a closure call. */
  datatype Kind = Pushed | Entered

  datatype Abs<V> = Abs(frames: seq<Frame<V>>, stack: seq<nat>, kinds: seq<Kind>, clos: seq<Option<nat>>)

  function Last(stack: seq<nat>): Option<nat> { if stack == [] then None else Some(stack[|stack| - 1]) }

  function AbsLink<V>(a: Abs<V>, up: Option<nat>, kind: Kind): Abs<V> {
    Abs(a.frames + [Frame(map[], up)], a.stack + [|a.frames|], a.kinds + [kind], a.clos)
  }

  function AbsPush<V>(a: Abs<V>): Abs<V> { AbsLink(a, Last(a.stack), Pushed) }

  function AbsPop<V>(a: Abs<V>): Abs<V>
    requires a.stack != [] && |a.kinds| == |a.stack|
  {
    a.(stack := a.stack[..|a.stack| - 1], kinds := a.kinds[..|a.kinds| - 1])
  }

  function AbsCapture<V>(a: Abs<V>): Abs<V> { a.(clos := a.clos + [Last(a.stack)]) }

  /** A closure body runs above the frame the closure was made in. */
  function AbsEnter<V>(a: Abs<V>, k: nat): Abs<V>
    requires k < |a.clos|
  {
    AbsLink(a, a.clos[k], Entered)
  }

  function AbsLet<V>(a: Abs<V>, x: string, v: V): Abs<V>
    requires a.stack != [] && Last(a.stack).value < |a.frames|
  {
    AbsStore(a, Last(a.stack).value, x, v)
  }

  function AbsStore<V>(a: Abs<V>, id: nat, x: string, v: V): Abs<V>
    requires id < |a.frames|
  {
    a.(frames := a.frames[id := a.frames[id].(vars := a.frames[id].vars[x := v])])
  }

  /** The innermost frame, from `id` outwards, that binds `x`. */
  function Owner<V>(frames: seq<Frame<V>>, id: Option<nat>, x: string): (r: Option<nat>)
    ensures r.Some? ==> r.value < |frames| && x in frames[r.value].vars
    decreases if id.Some? then id.value + 1 else 0
  {
    if id.None? || id.value >= |frames| then None
    else if x in frames[id.value].vars then id
    else
      var up := frames[id.value].up;
      if up.Some? && up.value >= id.value then None else Owner(frames, up, x)
  }

  function AbsFind<V>(a: Abs<V>, x: string): Option<V> {
    var o := Owner(a.frames, Last(a.stack), x);
    if o.None? then None else Some(a.frames[o.value].vars[x])
  }

  // ---------- Cells and lists ----------

  datatype EnvCell = EnvCell(head: Ptr, up: Ptr, captured: bool)

  datatype BindCell<V> = BindCell(name: string, slot: V, next: Ptr)

  predicate Distinct(s: seq<nat>) { forall i, j :: 0 <= i < j < |s| ==> s[i] != s[j] }

  /** The bindings from `p` are exactly the cells `s`, in order. */
  predicate BindList<V>(binds: map<nat, BindCell<V>>, p: Ptr, s: seq<nat>)
    decreases |s|
  {
    if s == [] then p.None?
    else p == Some(s[0]) && s[0] in binds && BindList(binds, binds[s[0]].next, s[1..])
  }

  /** Free frames are linked through `up`. */
  predicate EnvList(envs: map<nat, EnvCell>, p: Ptr, s: seq<nat>)
    decreases |s|
  {
    if s == [] then p.None?
    else p == Some(s[0]) && s[0] in envs && EnvList(envs, envs[s[0]].up, s[1..])
  }

  /** What a list of bindings says; the first cell with a name counts. */
  function VarsOf<V>(binds: map<nat, BindCell<V>>, s: seq<nat>): map<string, V>
    requires forall a :: a in s ==> a in binds
  {
    if s == [] then map[] else VarsOf(binds, s[1..])[binds[s[0]].name := binds[s[0]].slot]
  }

  lemma {:induction false} BindListFrame<V>(
      binds: map<nat, BindCell<V>>, binds': map<nat, BindCell<V>>, p: Ptr, s: seq<nat>)
    requires BindList(binds, p, s) && forall a :: a in s ==> a in binds' && a in binds && binds'[a] == binds[a]
    ensures BindList(binds', p, s) && VarsOf(binds', s) == VarsOf(binds, s)
    decreases |s|
  {
    if s != [] {
      assert forall a :: a in s[1..] ==> a in s;
      BindListFrame(binds, binds', binds[s[0]].next, s[1..]);
    }
  }

  lemma {:induction false} BindListIn<V>(binds: map<nat, BindCell<V>>, p: Ptr, s: seq<nat>)
    requires BindList(binds, p, s)
    ensures forall a :: a in s ==> a in binds
    decreases |s|
  {
    if s != [] {
      BindListIn(binds, binds[s[0]].next, s[1..]);
      assert forall a :: a in s ==> a == s[0] || a in s[1..];
    }
  }

  lemma {:induction false} EnvListFrame(envs: map<nat, EnvCell>, envs': map<nat, EnvCell>, p: Ptr, s: seq<nat>)
    requires EnvList(envs, p, s) && forall a :: a in s ==> a in envs' && a in envs && envs'[a] == envs[a]
    ensures EnvList(envs', p, s)
    decreases |s|
  {
    if s != [] {
      assert forall a :: a in s[1..] ==> a in s;
      EnvListFrame(envs, envs', envs[s[0]].up, s[1..]);
    }
  }

  lemma {:induction false} EnvListIn(envs: map<nat, EnvCell>, p: Ptr, s: seq<nat>)
    requires EnvList(envs, p, s)
    ensures forall a :: a in s ==> a in envs
    decreases |s|
  {
    if s != [] {
      EnvListIn(envs, envs[s[0]].up, s[1..]);
      assert forall a :: a in s ==> a == s[0] || a in s[1..];
    }
  }

  /** Overwriting the slot of the first cell named `x`. */
  lemma {:induction false} VarsSet<V>(binds: map<nat, BindCell<V>>, s: seq<nat>, k: nat, v: V)
    requires (forall a :: a in s ==> a in binds) && k < |s| && Distinct(s)
    requires forall j :: 0 <= j < k ==> binds[s[j]].name != binds[s[k]].name
    ensures var b := binds[s[k] := binds[s[k]].(slot := v)];
      VarsOf(b, s) == VarsOf(binds, s)[binds[s[k]].name := v]
    decreases |s|
  {
    var b := binds[s[k] := binds[s[k]].(slot := v)];
    assert forall j :: 0 <= j < |s[1..]| ==> s[1..][j] == s[j + 1];
    if k == 0 {
      VarsFrame(binds, b, s[1..]);
    } else {
      VarsSet(binds, s[1..], k - 1, v);
    }
  }

  lemma {:induction false} VarsFrame<V>(binds: map<nat, BindCell<V>>, binds': map<nat, BindCell<V>>, s: seq<nat>)
    requires forall a :: a in s ==> a in binds && a in binds' && binds[a] == binds'[a]
    ensures VarsOf(binds, s) == VarsOf(binds', s)
  {
    if s != [] {
      assert forall a :: a in s[1..] ==> a in s;
      VarsFrame(binds, binds', s[1..]);
    }
  }

  /** Searching from the front finds what the list says. */
  lemma {:induction false} VarsAt<V>(binds: map<nat, BindCell<V>>, s: seq<nat>, k: nat, x: string)
    requires (forall a :: a in s ==> a in binds) && k <= |s|
    requires forall j :: 0 <= j < k ==> binds[s[j]].name != x
    ensures x in VarsOf(binds, s) <==> x in VarsOf(binds, s[k..])
    ensures k < |s| && binds[s[k]].name == x ==> x in VarsOf(binds, s) && VarsOf(binds, s)[x] == binds[s[k]].slot
    decreases |s|
  {
    if k > 0 {
      assert forall j :: 0 <= j < |s[1..]| ==> s[1..][j] == s[j + 1];
      assert s[1..][k - 1..] == s[k..];
      VarsAt(binds, s[1..], k - 1, x);
    } else {
      assert s[0..] == s;
    }
  }

  // ---------- The invariant ----------

  datatype Cells<V> = Cells(
    envs: map<nat, EnvCell>, binds: map<nat, BindCell<V>>, top: Ptr, envFree: Ptr, bindFree: Ptr,
    saved: seq<Ptr>, clos: seq<Ptr>, limit: nat)

  /** Where each live frame is, which cells its bindings are, what is free and
      which live frames are marked. */
  datatype Layout = Layout(at: map<nat, nat>, chain: map<nat, seq<nat>>, freeE: seq<nat>, freeB: seq<nat>,
    cap: set<nat>)

  function PtrTo(at: map<nat, nat>, id: Option<nat>): Ptr {
    if id.Some? && id.value in at then Some(at[id.value]) else None
  }

  /** Live frames: each has a cell of its own with the frame's bindings. */
  ghost predicate FramesOk<V>(
      envs: map<nat, EnvCell>, binds: map<nat, BindCell<V>>, frames: seq<Frame<V>>,
      at: map<nat, nat>, chain: map<nat, seq<nat>>, cap: set<nat>)
  {
    && chain.Keys == at.Keys
    && (forall id {:trigger CellOk(envs, frames, at, cap, id)} :: id in at ==> CellOk(envs, frames, at, cap, id))
    && (forall id {:trigger BindsAt(envs, binds, frames, at, chain, id)} :: id in at ==>
      BindsAt(envs, binds, frames, at, chain, id))
    && (forall i, j {:trigger OwnCells(at, chain, i, j)} :: i in at && j in at && i != j ==> OwnCells(at, chain, i, j))
  }

  ghost predicate Apart(s: seq<nat>, t: seq<nat>) { forall x :: x in s ==> x !in t }

  ghost predicate OwnCells(at: map<nat, nat>, chain: map<nat, seq<nat>>, i: nat, j: nat) {
    i in at && j in at && i in chain && j in chain && at[i] != at[j] && Apart(chain[i], chain[j])
  }

  predicate CellOk<V>(envs: map<nat, EnvCell>, frames: seq<Frame<V>>, at: map<nat, nat>, cap: set<nat>, id: nat) {
    && id in at && id < |frames| && at[id] in envs
    && var cell, up := envs[at[id]], frames[id].up;
    && (up.Some? ==> up.value < id && up.value in at)
    && cell.up == PtrTo(at, up)
    && cell.captured == (id in cap)
  }

  ghost predicate BindsAt<V>(
      envs: map<nat, EnvCell>, binds: map<nat, BindCell<V>>, frames: seq<Frame<V>>, at: map<nat, nat>,
      chain: map<nat, seq<nat>>, id: nat)
  {
    && id in at && id in chain && id < |frames| && at[id] in envs
    && BindsOk(binds, envs[at[id]].head, chain[id], frames[id].vars)
  }

  ghost predicate BindsOk<V>(binds: map<nat, BindCell<V>>, head: Ptr, chain: seq<nat>, vars: map<string, V>) {
    && BindList(binds, head, chain) && Distinct(chain)
    && (forall x :: x in chain ==> x in binds)
    && VarsOf(binds, chain) == vars
  }

  /** The free lists are finite, repeat nothing, and hold no live cell. */
  ghost predicate FreeEnvsOk(envs: map<nat, EnvCell>, free: Ptr, list: seq<nat>, at: map<nat, nat>, limit: nat) {
    && EnvList(envs, free, list) && Distinct(list)
    && (forall id :: id in at ==> at[id] !in list)
    && (forall e :: e in envs ==> e < limit)
  }

  ghost predicate FreeBindsOk<V>(
      binds: map<nat, BindCell<V>>, free: Ptr, list: seq<nat>, chain: map<nat, seq<nat>>, limit: nat) {
    && BindList(binds, free, list) && Distinct(list)
    && (forall id :: id in chain ==> Apart(chain[id], list))
    && (forall b :: b in binds ==> b < limit)
  }

  /** The marked frames are closed under `up` and hold every closure's frame. */
  ghost predicate CapOk<V>(
      frames: seq<Frame<V>>, ptrs: seq<Ptr>, clos: seq<Option<nat>>, at: map<nat, nat>, cap: set<nat>) {
    && cap <= at.Keys
    && (forall id {:trigger UpIn(frames, cap, id)} :: id in cap ==> UpIn(frames, cap, id))
    && |ptrs| == |clos|
    && forall k :: 0 <= k < |clos| ==> ptrs[k] == PtrTo(at, clos[k]) && (clos[k].Some? ==> clos[k].value in cap)
  }

  predicate UpIn<V>(frames: seq<Frame<V>>, cap: set<nat>, id: nat) {
    id < |frames| && frames[id].up.Some? ==> frames[id].up.value in cap
  }

  predicate OnStack(stack: seq<nat>, cap: set<nat>, id: nat) { id in cap || id in stack }

  /** Frames on the stack are live and in order of age; a live frame that is not on
      the stack is marked. */
  ghost predicate StackOk<V>(frames: seq<Frame<V>>, stack: seq<nat>, kinds: seq<Kind>, live: set<nat>, cap: set<nat>) {
    && |kinds| == |stack|
    && (forall j :: 0 <= j < |stack| ==> stack[j] in live && stack[j] < |frames|)
    && (forall i, j :: 0 <= i < j < |stack| ==> stack[i] < stack[j])
    && (forall id {:trigger OnStack(stack, cap, id)} :: id in live ==> OnStack(stack, cap, id))
    && (forall j {:trigger LinkAt(frames, stack, kinds, cap, j)} :: 0 <= j < |stack| ==>
      LinkAt(frames, stack, kinds, cap, j))
  }

  /** The frame at height `j` hangs from the one below it, or from a marked frame. */
  predicate LinkAt<V>(frames: seq<Frame<V>>, stack: seq<nat>, kinds: seq<Kind>, cap: set<nat>, j: nat) {
    && j < |stack| == |kinds| && stack[j] < |frames|
    && LinkOk(frames[stack[j]].up, kinds[j], if j == 0 then None else Some(stack[j - 1]), cap)
  }

  predicate LinkOk(up: Option<nat>, kind: Kind, below: Option<nat>, cap: set<nat>) {
    match kind
    case Pushed => up == below
    case Entered => up.Some? ==> up.value in cap
  }

  /** The tops that closure calls put aside. */
  ghost function Aside(stack: seq<nat>, kinds: seq<Kind>, at: map<nat, nat>): seq<Ptr>
    requires |kinds| == |stack|
  {
    if stack == [] then []
    else
      var n := |stack| - 1;
      Aside(stack[..n], kinds[..n], at) + if kinds[n].Entered? then [PtrTo(at, Last(stack[..n]))] else []
  }

  ghost predicate Inv<V>(c: Cells<V>, a: Abs<V>, m: Layout) {
    && FramesOk(c.envs, c.binds, a.frames, m.at, m.chain, m.cap)
    && FreeEnvsOk(c.envs, c.envFree, m.freeE, m.at, c.limit)
    && FreeBindsOk(c.binds, c.bindFree, m.freeB, m.chain, c.limit)
    && CapOk(a.frames, c.clos, a.clos, m.at, m.cap)
    && StackOk(a.frames, a.stack, a.kinds, m.at.Keys, m.cap)
    && c.top == PtrTo(m.at, Last(a.stack))
    && c.saved == Aside(a.stack, a.kinds, m.at)
  }

  // ---------- What each step keeps ----------

  /** A cell that no list and no live frame uses. */
  ghost predicate LooseEnv<V>(c: Cells<V>, m: Layout, e: nat) {
    e < c.limit && e !in m.freeE && forall id :: id in m.at ==> m.at[id] != e
  }

  ghost predicate LooseBind<V>(c: Cells<V>, m: Layout, b: nat) {
    b < c.limit && b !in m.freeB && forall id :: id in m.chain ==> b !in m.chain[id]
  }

  lemma TakeEnv<V>(c: Cells<V>, a: Abs<V>, m: Layout)
    requires Inv(c, a, m) && m.freeE != []
    ensures m.freeE[0] in c.envs
    ensures var c', m' := c.(envFree := c.envs[m.freeE[0]].up), m.(freeE := m.freeE[1..]);
      Inv(c', a, m') && LooseEnv(c', m', m.freeE[0])
  {
    assert forall x :: x in m.freeE[1..] ==> x in m.freeE;
    assert m.freeE[0] in m.freeE;
  }

  lemma NewEnv<V>(c: Cells<V>, a: Abs<V>, m: Layout)
    requires Inv(c, a, m)
    ensures Inv(c.(limit := c.limit + 1), a, m) && LooseEnv(c.(limit := c.limit + 1), m, c.limit)
  {
    EnvListIn(c.envs, c.envFree, m.freeE);
    forall id | id in m.at ensures m.at[id] != c.limit {
      assert CellOk(c.envs, a.frames, m.at, m.cap, id);
    }
  }

  lemma TakeBind<V>(c: Cells<V>, a: Abs<V>, m: Layout)
    requires Inv(c, a, m) && m.freeB != []
    ensures m.freeB[0] in c.binds
    ensures var c', m' := c.(bindFree := c.binds[m.freeB[0]].next), m.(freeB := m.freeB[1..]);
      Inv(c', a, m') && LooseBind(c', m', m.freeB[0])
  {
    assert forall x :: x in m.freeB[1..] ==> x in m.freeB;
    assert m.freeB[0] in m.freeB;
  }

  lemma NewBind<V>(c: Cells<V>, a: Abs<V>, m: Layout)
    requires Inv(c, a, m)
    ensures Inv(c.(limit := c.limit + 1), a, m) && LooseBind(c.(limit := c.limit + 1), m, c.limit)
  {
    BindListIn(c.binds, c.bindFree, m.freeB);
    forall id | id in m.chain ensures c.limit !in m.chain[id] {
      assert BindsAt(c.envs, c.binds, a.frames, m.at, m.chain, id);
    }
  }

  lemma {:induction false} AsideSame(stack: seq<nat>, kinds: seq<Kind>, at: map<nat, nat>, at': map<nat, nat>)
    requires |kinds| == |stack| && forall id :: id in stack ==> id in at && id in at' && at[id] == at'[id]
    ensures Aside(stack, kinds, at) == Aside(stack, kinds, at')
    decreases |stack|
  {
    if stack != [] {
      var n := |stack| - 1;
      assert forall id :: id in stack[..n] ==> id in stack;
      assert n > 0 ==> stack[..n][n - 1] == stack[n - 1];
      AsideSame(stack[..n], kinds[..n], at, at');
    }
  }

  /** A new frame in cell `e`, on top. */
  function Linked<V>(c: Cells<V>, e: nat, up: Ptr, kind: Kind): Cells<V> {
    c.(envs := c.envs[e := EnvCell(None, up, false)], top := Some(e),
       saved := if kind.Entered? then c.saved + [c.top] else c.saved)
  }

  function LayLink(m: Layout, n: nat, e: nat): Layout { m.(at := m.at[n := e], chain := m.chain[n := []]) }

  /** A new frame in a loose cell; `up` is the stack's top or a closure's frame. */
  lemma LinkFrame<V>(c: Cells<V>, a: Abs<V>, m: Layout, e: nat, up: Option<nat>, kind: Kind)
    requires Inv(c, a, m) && LooseEnv(c, m, e)
    requires LinkOk(up, kind, Last(a.stack), m.cap)
    ensures |a.frames| !in m.at
    ensures Inv(Linked(c, e, PtrTo(m.at, up), kind), AbsLink(a, up, kind), LayLink(m, |a.frames|, e))
  {
    var n := |a.frames|;
    var c', a', m' := Linked(c, e, PtrTo(m.at, up), kind), AbsLink(a, up, kind), LayLink(m, n, e);
    assert n !in m.at by {
      assert n in m.at ==> CellOk(c.envs, a.frames, m.at, m.cap, n);
    }
    LinkFrames(c, a, m, c', a', m', e, up, n);
    LinkFree(c, m, e, EnvCell(None, PtrTo(m.at, up), false), n);
    forall id | id in m.at ensures id <= n {
      assert CellOk(c.envs, a.frames, m.at, m.cap, id);
    }
    LinkCap(a, c.clos, m.at, m.cap, n, e, up);
    LinkStack(a, m.at.Keys, m.cap, up, kind, n);
    LinkAside(a, m.at, e, kind, n);
    assert m'.at.Keys == m.at.Keys + {n};
  }

  lemma LinkCap<V>(a: Abs<V>, ptrs: seq<Ptr>, at: map<nat, nat>, cap: set<nat>, n: nat, e: nat, up: Option<nat>)
    requires CapOk(a.frames, ptrs, a.clos, at, cap) && n == |a.frames| && n !in at
    requires forall id :: id in at ==> id <= n
    ensures CapOk(a.frames + [Frame(map[], up)], ptrs, a.clos, at[n := e], cap)
  {
    forall k | 0 <= k < |a.clos| ensures ptrs[k] == PtrTo(at[n := e], a.clos[k]) {
      assert a.clos[k].Some? ==> a.clos[k].value in cap;
    }
    forall id | id in cap ensures UpIn(a.frames + [Frame(map[], up)], cap, id) {
      assert UpIn(a.frames, cap, id);
      assert id != n;
    }
  }

  lemma LinkAside<V>(a: Abs<V>, at: map<nat, nat>, e: nat, kind: Kind, n: nat)
    requires |a.kinds| == |a.stack| && n !in at && forall j :: 0 <= j < |a.stack| ==> a.stack[j] in at
    ensures Aside(a.stack + [n], a.kinds + [kind], at[n := e]) ==
      if kind.Entered? then Aside(a.stack, a.kinds, at) + [PtrTo(at, Last(a.stack))] else Aside(a.stack, a.kinds, at)
  {
    assert (a.stack + [n])[..|a.stack|] == a.stack && (a.kinds + [kind])[..|a.stack|] == a.kinds;
    AsideSame(a.stack, a.kinds, at, at[n := e]);
  }

  lemma LinkFree<V>(c: Cells<V>, m: Layout, e: nat, cell: EnvCell, n: nat)
    requires FreeEnvsOk(c.envs, c.envFree, m.freeE, m.at, c.limit) && LooseEnv(c, m, e)
    requires FreeBindsOk(c.binds, c.bindFree, m.freeB, m.chain, c.limit)
    ensures FreeEnvsOk(c.envs[e := cell], c.envFree, m.freeE, m.at[n := e], c.limit)
    ensures FreeBindsOk(c.binds, c.bindFree, m.freeB, m.chain[n := []], c.limit)
  {
    EnvListIn(c.envs, c.envFree, m.freeE);
    EnvListFrame(c.envs, c.envs[e := cell], c.envFree, m.freeE);
  }

  lemma LinkFrames<V>(
      c: Cells<V>, a: Abs<V>, m: Layout, c': Cells<V>, a': Abs<V>, m': Layout, e: nat, up: Option<nat>, n: nat)
    requires FramesOk(c.envs, c.binds, a.frames, m.at, m.chain, m.cap) && LooseEnv(c, m, e)
    requires n == |a.frames| && n !in m.at && m.cap <= m.at.Keys && (up.Some? ==> up.value in m.at)
    requires c'.envs == c.envs[e := EnvCell(None, PtrTo(m.at, up), false)] && c'.binds == c.binds
    requires a'.frames == a.frames + [Frame(map[], up)]
    requires m'.at == m.at[n := e] && m'.chain == m.chain[n := []] && m'.cap == m.cap
    ensures FramesOk(c'.envs, c'.binds, a'.frames, m'.at, m'.chain, m'.cap)
  {
    forall id | id in m'.at ensures CellOk(c'.envs, a'.frames, m'.at, m'.cap, id) {
      assert id != n ==> CellOk(c.envs, a.frames, m.at, m.cap, id);
      assert up.Some? ==> CellOk(c.envs, a.frames, m.at, m.cap, up.value);
    }
    forall id | id in m'.at ensures BindsAt(c'.envs, c'.binds, a'.frames, m'.at, m'.chain, id) {
      assert id != n ==> BindsAt(c.envs, c.binds, a.frames, m.at, m.chain, id);
    }
    forall i, j | i in m'.at && j in m'.at && i != j ensures OwnCells(m'.at, m'.chain, i, j) {
      assert i != n && j != n ==> OwnCells(m.at, m.chain, i, j);
    }
  }

  lemma LinkStack<V>(a: Abs<V>, live: set<nat>, cap: set<nat>, up: Option<nat>, kind: Kind, n: nat)
    requires StackOk(a.frames, a.stack, a.kinds, live, cap) && n == |a.frames|
    requires LinkOk(up, kind, Last(a.stack), cap)
    ensures StackOk(a.frames + [Frame(map[], up)], a.stack + [n], a.kinds + [kind], live + {n}, cap)
  {
    forall j | 0 <= j <= |a.stack| ensures LinkAt(a.frames + [Frame(map[], up)], a.stack + [n], a.kinds + [kind],
      cap, j) {
      assert j < |a.stack| ==> LinkAt(a.frames, a.stack, a.kinds, cap, j);
    }
    forall id | id in live + {n} ensures OnStack(a.stack + [n], cap, id) {
      assert id != n ==> OnStack(a.stack, cap, id);
      assert (a.stack + [n])[|a.stack|] == n;
    }
  }

  // ---------- Leaving a frame ----------

  /** The stack without its last frame; every link below it is as before. */
  lemma PopStack<V>(
      frames: seq<Frame<V>>, frames': seq<Frame<V>>, stack: seq<nat>, kinds: seq<Kind>, live: set<nat>,
      live': set<nat>, cap: set<nat>)
    requires StackOk(frames, stack, kinds, live, cap) && stack != [] && |frames'| == |frames|
    requires forall id :: 0 <= id < |frames| && id != stack[|stack| - 1] ==> frames'[id] == frames[id]
    requires live' <= live && forall id :: id in live && id != stack[|stack| - 1] ==> id in live'
    requires stack[|stack| - 1] in live' ==> stack[|stack| - 1] in cap
    ensures StackOk(frames', stack[..|stack| - 1], kinds[..|stack| - 1], live', cap)
  {
    var n := |stack| - 1;
    forall id | id in live' ensures OnStack(stack[..n], cap, id) {
      assert OnStack(stack, cap, id);
      if id !in cap {
        var j :| 0 <= j < |stack| && stack[j] == id;
        assert stack[..n][j] == id;
      }
    }
    forall j | 0 <= j < n ensures LinkAt(frames', stack[..n], kinds[..n], cap, j) {
      assert LinkAt(frames, stack, kinds, cap, j);
    }
  }

  /** Only the names and values in the frames have changed. */
  lemma SameUps<V>(
      frames: seq<Frame<V>>, frames': seq<Frame<V>>, a: Abs<V>, ptrs: seq<Ptr>, at: map<nat, nat>, cap: set<nat>)
    requires |frames'| == |frames| && forall id :: 0 <= id < |frames| ==> frames'[id].up == frames[id].up
    ensures StackOk(frames, a.stack, a.kinds, at.Keys, cap) ==> StackOk(frames', a.stack, a.kinds, at.Keys, cap)
    ensures CapOk(frames, ptrs, a.clos, at, cap) ==> CapOk(frames', ptrs, a.clos, at, cap)
  {
    if StackOk(frames, a.stack, a.kinds, at.Keys, cap) {
      forall j | 0 <= j < |a.stack| ensures LinkAt(frames', a.stack, a.kinds, cap, j) {
        assert LinkAt(frames, a.stack, a.kinds, cap, j);
      }
      forall id | id in at.Keys ensures OnStack(a.stack, cap, id) {
      }
    }
    if CapOk(frames, ptrs, a.clos, at, cap) {
      forall id | id in cap ensures UpIn(frames', cap, id) {
        assert UpIn(frames, cap, id);
      }
    }
  }

  /** A marked frame leaves the stack and nothing else happens. */
  lemma PopKept<V>(c: Cells<V>, a: Abs<V>, m: Layout)
    requires Inv(c, a, m) && a.stack != [] && a.kinds[|a.kinds| - 1].Pushed? && a.stack[|a.stack| - 1] in m.cap
    ensures var t := a.stack[|a.stack| - 1];
      t in m.at && m.at[t] in c.envs && Inv(c.(top := c.envs[m.at[t]].up), AbsPop(a), m)
  {
    var t, n := a.stack[|a.stack| - 1], |a.stack| - 1;
    assert CellOk(c.envs, a.frames, m.at, m.cap, t);
    assert LinkAt(a.frames, a.stack, a.kinds, m.cap, n);
    PopStack(a.frames, a.frames, a.stack, a.kinds, m.at.Keys, m.at.Keys, m.cap);
  }

  /** Nothing live hangs from an unmarked frame at the top of the stack. */
  lemma TopIsUnreferenced<V>(c: Cells<V>, a: Abs<V>, m: Layout, id: nat)
    requires Inv(c, a, m) && a.stack != [] && Last(a.stack).value !in m.cap && id in m.at && id < |a.frames|
    ensures a.frames[id].up != Last(a.stack)
  {
    if id in m.cap {
      assert UpIn(a.frames, m.cap, id);
    } else {
      assert OnStack(a.stack, m.cap, id);
      var j :| 0 <= j < |a.stack| && a.stack[j] == id;
      assert LinkAt(a.frames, a.stack, a.kinds, m.cap, j);
    }
  }

  function AbsClear<V>(a: Abs<V>): Abs<V>
    requires a.stack != [] && Last(a.stack).value < |a.frames|
  {
    var t := Last(a.stack).value;
    a.(frames := a.frames[t := a.frames[t].(vars := map[])])
  }

  /** The frame at the top of the stack forgets its bindings, whose cells have gone
      to the free list. */
  lemma ClearTop<V>(c: Cells<V>, a: Abs<V>, m: Layout, c': Cells<V>, list: seq<nat>)
    requires Inv(c, a, m) && a.stack != [] && m.at[Last(a.stack).value] in c.envs
    requires var t := Last(a.stack).value;
      c'.envs == c.envs[m.at[t] := c.envs[m.at[t]].(head := None)]
    requires c' == c.(envs := c'.envs, binds := c'.binds, bindFree := c'.bindFree)
    requires BindList(c'.binds, c'.bindFree, list) && Distinct(list) && c'.binds.Keys == c.binds.Keys
    requires forall x :: x in list <==> x in m.freeB || x in m.chain[Last(a.stack).value]
    requires forall x :: x in c.binds && x !in list ==> c'.binds[x] == c.binds[x]
    ensures Inv(c', AbsClear(a), m.(chain := m.chain[Last(a.stack).value := []], freeB := list))
  {
    var t := Last(a.stack).value;
    var a', m' := AbsClear(a), m.(chain := m.chain[t := []], freeB := list);
    ClearFrames(c, a, m, c', list, t);
    forall id | id in m'.chain ensures Apart(m'.chain[id], list) {
      assert id != t ==> OwnCells(m.at, m.chain, id, t);
    }
    EnvListIn(c.envs, c.envFree, m.freeE);
    EnvListFrame(c.envs, c'.envs, c.envFree, m.freeE);
    SameUps(a.frames, a'.frames, a, c.clos, m.at, m.cap);
  }

  lemma ClearFrames<V>(c: Cells<V>, a: Abs<V>, m: Layout, c': Cells<V>, list: seq<nat>, t: nat)
    requires FramesOk(c.envs, c.binds, a.frames, m.at, m.chain, m.cap) && t in m.at && t < |a.frames|
    requires m.at[t] in c.envs
    requires forall id :: id in m.chain ==> Apart(m.chain[id], m.freeB)
    requires c'.envs == c.envs[m.at[t] := c.envs[m.at[t]].(head := None)] && c'.binds.Keys == c.binds.Keys
    requires forall x :: x in list <==> x in m.freeB || x in m.chain[t]
    requires forall x :: x in c.binds && x !in list ==> c'.binds[x] == c.binds[x]
    ensures FramesOk(c'.envs, c'.binds, a.frames[t := a.frames[t].(vars := map[])], m.at, m.chain[t := []], m.cap)
  {
    var frames, chain := a.frames[t := a.frames[t].(vars := map[])], m.chain[t := []];
    forall id | id in m.at ensures CellOk(c'.envs, frames, m.at, m.cap, id) {
      assert CellOk(c.envs, a.frames, m.at, m.cap, id);
      assert id != t ==> OwnCells(m.at, m.chain, id, t);
    }
    forall id | id in m.at ensures BindsAt(c'.envs, c'.binds, frames, m.at, chain, id) {
      assert BindsAt(c.envs, c.binds, a.frames, m.at, m.chain, id);
      if id != t {
        assert OwnCells(m.at, m.chain, id, t);
        BindListFrame(c.binds, c'.binds, c.envs[m.at[id]].head, m.chain[id]);
      }
    }
    forall i, j | i in m.at && j in m.at && i != j ensures OwnCells(m.at, chain, i, j) {
      assert OwnCells(m.at, m.chain, i, j);
    }
  }

  /** Cell `e`, at the top, goes to the free list. */
  function Freed<V>(c: Cells<V>, e: nat): Cells<V>
    requires e in c.envs
  {
    c.(envs := c.envs[e := EnvCell(None, c.envFree, false)], envFree := Some(e), top := c.envs[e].up)
  }

  function LayFree(m: Layout, t: nat): Layout
    requires t in m.at
  {
    m.(at := m.at - {t}, chain := m.chain - {t}, freeE := [m.at[t]] + m.freeE)
  }

  /** An unmarked frame without bindings leaves the stack, and its cell is free. */
  lemma FreeTop<V>(c: Cells<V>, a: Abs<V>, m: Layout, a': Abs<V>)
    requires Inv(c, a, m) && a.stack != [] && a.kinds[|a.kinds| - 1].Pushed?
    requires Last(a.stack).value !in m.cap && m.chain[Last(a.stack).value] == [] && m.at[Last(a.stack).value] in c.envs
    requires a'.stack == a.stack[..|a.stack| - 1] && a'.kinds == a.kinds[..|a.stack| - 1] && a'.clos == a.clos
    requires |a'.frames| == |a.frames|
    requires forall id :: 0 <= id < |a.frames| && id != Last(a.stack).value ==> a'.frames[id] == a.frames[id]
    ensures Inv(Freed(c, m.at[Last(a.stack).value]), a', LayFree(m, Last(a.stack).value))
  {
    var t := Last(a.stack).value;
    var e := m.at[t];
    var c', m' := Freed(c, e), LayFree(m, t);
    FreeTopFrames(c, a, m, a', t, c'.envs);
    EnvListIn(c.envs, c.envFree, m.freeE);
    EnvListFrame(c.envs, c'.envs, c.envFree, m.freeE);
    assert m'.freeE[1..] == m.freeE;
    forall id | id in m'.at ensures m'.at[id] !in m'.freeE {
      assert OwnCells(m.at, m.chain, id, t);
    }
    FreeTopRest(c, a, m, a', m'.at, t);
  }

  lemma FreeTopFrames<V>(c: Cells<V>, a: Abs<V>, m: Layout, a': Abs<V>, t: nat, envs: map<nat, EnvCell>)
    requires Inv(c, a, m) && Last(a.stack) == Some(t) && t in m.at && t !in m.cap && |a'.frames| == |a.frames|
    requires forall id :: 0 <= id < |a.frames| && id != t ==> a'.frames[id] == a.frames[id]
    requires envs.Keys == c.envs.Keys && forall e :: e in envs && e != m.at[t] ==> envs[e] == c.envs[e]
    ensures FramesOk(envs, c.binds, a'.frames, m.at - {t}, m.chain - {t}, m.cap)
  {
    var at, chain := m.at - {t}, m.chain - {t};
    forall id | id in at ensures CellOk(envs, a'.frames, at, m.cap, id) {
      assert CellOk(c.envs, a.frames, m.at, m.cap, id);
      assert OwnCells(m.at, m.chain, id, t);
      TopIsUnreferenced(c, a, m, id);
    }
    forall id | id in at ensures BindsAt(envs, c.binds, a'.frames, at, chain, id) {
      assert BindsAt(c.envs, c.binds, a.frames, m.at, m.chain, id);
      assert OwnCells(m.at, m.chain, id, t);
    }
    forall i, j | i in at && j in at && i != j ensures OwnCells(at, chain, i, j) {
      assert OwnCells(m.at, m.chain, i, j);
    }
  }

  lemma FreeTopRest<V>(c: Cells<V>, a: Abs<V>, m: Layout, a': Abs<V>, at: map<nat, nat>, t: nat)
    requires Inv(c, a, m) && a.stack != [] && t == a.stack[|a.stack| - 1] && t !in m.cap
    requires a.kinds[|a.kinds| - 1].Pushed?
    requires a'.stack == a.stack[..|a.stack| - 1] && a'.kinds == a.kinds[..|a.stack| - 1] && a'.clos == a.clos
    requires |a'.frames| == |a.frames|
    requires forall id :: 0 <= id < |a.frames| && id != t ==> a'.frames[id] == a.frames[id]
    requires at == m.at - {t}
    ensures CapOk(a'.frames, c.clos, a'.clos, at, m.cap)
    ensures StackOk(a'.frames, a'.stack, a'.kinds, at.Keys, m.cap)
    ensures c.saved == Aside(a'.stack, a'.kinds, at)
    ensures m.at[t] in c.envs && c.envs[m.at[t]].up == PtrTo(at, Last(a'.stack))
  {
    var n := |a.stack| - 1;
    assert CellOk(c.envs, a.frames, m.at, m.cap, t);
    PopStack(a.frames, a'.frames, a.stack, a.kinds, m.at.Keys, at.Keys, m.cap);
    AsideSame(a'.stack, a'.kinds, m.at, at);
    assert LinkAt(a.frames, a.stack, a.kinds, m.cap, n);
    FreeTopCap(a, a', c.clos, m, at, t);
  }

  lemma FreeTopCap<V>(a: Abs<V>, a': Abs<V>, ptrs: seq<Ptr>, m: Layout, at: map<nat, nat>, t: nat)
    requires CapOk(a.frames, ptrs, a.clos, m.at, m.cap) && t !in m.cap && at == m.at - {t}
    requires a'.clos == a.clos && |a'.frames| == |a.frames|
    requires forall id :: 0 <= id < |a.frames| && id != t ==> a'.frames[id] == a.frames[id]
    ensures CapOk(a'.frames, ptrs, a'.clos, at, m.cap)
  {
    forall k | 0 <= k < |a.clos| ensures ptrs[k] == PtrTo(at, a.clos[k]) {
      assert a.clos[k].Some? ==> a.clos[k].value in m.cap;
    }
    forall id | id in m.cap ensures UpIn(a'.frames, m.cap, id) {
      assert UpIn(a.frames, m.cap, id);
      assert id < |a.frames| ==> a'.frames[id] == a.frames[id];
    }
  }

  // ---------- Bindings ----------

  lemma {:induction false} BindListNext<V>(
      binds: map<nat, BindCell<V>>, binds': map<nat, BindCell<V>>, p: Ptr, s: seq<nat>)
    requires BindList(binds, p, s) && forall a :: a in s ==>
      a in binds' && a in binds && binds'[a].next == binds[a].next
    ensures BindList(binds', p, s)
    decreases |s|
  {
    if s != [] {
      assert forall a :: a in s[1..] ==> a in s;
      BindListNext(binds, binds', binds[s[0]].next, s[1..]);
    }
  }

  /** Writing the slot of the first cell with a name writes the variable. */
  lemma StoreSlot<V>(c: Cells<V>, a: Abs<V>, m: Layout, id: nat, k: nat, v: V)
    requires Inv(c, a, m) && id in m.at && k < |m.chain[id]| && m.chain[id][k] in c.binds
    requires forall j :: 0 <= j < k ==>
      m.chain[id][j] in c.binds && c.binds[m.chain[id][j]].name != c.binds[m.chain[id][k]].name
    ensures id < |a.frames|
    ensures var b := m.chain[id][k];
      Inv(c.(binds := c.binds[b := c.binds[b].(slot := v)]), AbsStore(a, id, c.binds[b].name, v), m)
  {
    var b := m.chain[id][k];
    var x := c.binds[b].name;
    assert BindsAt(c.envs, c.binds, a.frames, m.at, m.chain, id);
    var binds, a' := c.binds[b := c.binds[b].(slot := v)], AbsStore(a, id, x, v);
    forall i | i in m.at ensures CellOk(c.envs, a'.frames, m.at, m.cap, i) {
      assert CellOk(c.envs, a.frames, m.at, m.cap, i);
    }
    forall i | i in m.at ensures BindsAt(c.envs, binds, a'.frames, m.at, m.chain, i) {
      assert BindsAt(c.envs, c.binds, a.frames, m.at, m.chain, i);
      if i == id {
        VarsSet(c.binds, m.chain[id], k, v);
        BindListNext(c.binds, binds, c.envs[m.at[id]].head, m.chain[id]);
      } else {
        assert OwnCells(m.at, m.chain, i, id);
        BindListFrame(c.binds, binds, c.envs[m.at[i]].head, m.chain[i]);
      }
    }
    BindListIn(c.binds, c.bindFree, m.freeB);
    BindListFrame(c.binds, binds, c.bindFree, m.freeB);
    SameUps(a.frames, a'.frames, a, c.clos, m.at, m.cap);
  }

  /** A loose cell becomes the first binding of the top frame. */
  lemma AddBind<V>(c: Cells<V>, a: Abs<V>, m: Layout, b: nat, x: string, v: V)
    requires Inv(c, a, m) && a.stack != [] && LooseBind(c, m, b)
    ensures Last(a.stack).value in m.at && Last(a.stack).value < |a.frames| && m.at[Last(a.stack).value] in c.envs
    ensures var t := Last(a.stack).value;
      var e := m.at[t];
      var c' := c.(binds := c.binds[b := BindCell(x, v, c.envs[e].head)],
        envs := c.envs[e := c.envs[e].(head := Some(b))]);
      Inv(c', AbsLet(a, x, v), m.(chain := m.chain[t := [b] + m.chain[t]]))
  {
    var t := Last(a.stack).value;
    assert CellOk(c.envs, a.frames, m.at, m.cap, t);
    var e := m.at[t];
    var binds, envs := c.binds[b := BindCell(x, v, c.envs[e].head)], c.envs[e := c.envs[e].(head := Some(b))];
    AddBindFrames(c, a, m, b, x, v, t, binds, envs);
    var chain := m.chain[t := [b] + m.chain[t]];
    forall id | id in chain ensures Apart(chain[id], m.freeB) {
      assert Apart(m.chain[id], m.freeB);
    }
    BindListIn(c.binds, c.bindFree, m.freeB);
    BindListFrame(c.binds, binds, c.bindFree, m.freeB);
    EnvListIn(c.envs, c.envFree, m.freeE);
    EnvListFrame(c.envs, envs, c.envFree, m.freeE);
    SameUps(a.frames, AbsLet(a, x, v).frames, a, c.clos, m.at, m.cap);
  }

  lemma AddBindFrames<V>(
      c: Cells<V>, a: Abs<V>, m: Layout, b: nat, x: string, v: V, t: nat, binds: map<nat, BindCell<V>>,
      envs: map<nat, EnvCell>)
    requires FramesOk(c.envs, c.binds, a.frames, m.at, m.chain, m.cap) && LooseBind(c, m, b) && t in m.at
    requires t < |a.frames|
    requires m.at[t] in c.envs && binds == c.binds[b := BindCell(x, v, c.envs[m.at[t]].head)]
    requires envs == c.envs[m.at[t] := c.envs[m.at[t]].(head := Some(b))]
    ensures FramesOk(envs, binds, a.frames[t := a.frames[t].(vars := a.frames[t].vars[x := v])], m.at,
      m.chain[t := [b] + m.chain[t]], m.cap)
  {
    var frames, chain := a.frames[t := a.frames[t].(vars := a.frames[t].vars[x := v])], m.chain[t := [b] + m.chain[t]];
    forall id | id in m.at ensures CellOk(envs, frames, m.at, m.cap, id) {
      assert CellOk(c.envs, a.frames, m.at, m.cap, id);
      assert id != t ==> OwnCells(m.at, m.chain, id, t);
    }
    forall id | id in m.at ensures BindsAt(envs, binds, frames, m.at, chain, id) {
      assert BindsAt(c.envs, c.binds, a.frames, m.at, m.chain, id);
      BindListFrame(c.binds, binds, c.envs[m.at[id]].head, m.chain[id]);
      if id == t {
        assert chain[t][1..] == m.chain[t];
      } else {
        assert OwnCells(m.at, m.chain, id, t);
      }
    }
    forall i, j | i in m.at && j in m.at && i != j ensures OwnCells(m.at, chain, i, j) {
      assert OwnCells(m.at, m.chain, i, j);
    }
  }

  // ---------- Closures ----------

  /** Marking a whole chain and remembering its first frame. */
  lemma MarkChain<V>(c: Cells<V>, a: Abs<V>, m: Layout, envs: map<nat, EnvCell>, seen: set<nat>)
    requires Inv(c, a, m) && seen <= m.at.Keys && envs.Keys == c.envs.Keys
    requires forall id :: id in seen && id < |a.frames| && a.frames[id].up.Some? ==> a.frames[id].up.value in seen
    requires Last(a.stack).Some? ==> Last(a.stack).value in seen
    requires forall id :: id in m.at && m.at[id] in c.envs ==>
      envs[m.at[id]] == c.envs[m.at[id]].(captured := c.envs[m.at[id]].captured || id in seen)
    requires forall e :: e in c.envs && e in m.freeE ==> envs[e] == c.envs[e]
    ensures Inv(c.(envs := envs, clos := c.clos + [c.top]), AbsCapture(a), m.(cap := m.cap + seen))
  {
    MarkFrames(c, a, m, envs, seen);
    EnvListIn(c.envs, c.envFree, m.freeE);
    EnvListFrame(c.envs, envs, c.envFree, m.freeE);
    MoreMarked(a, m.at.Keys, m.cap, seen);
    forall id | id in m.cap + seen ensures UpIn(a.frames, m.cap + seen, id) {
      assert id in m.cap ==> UpIn(a.frames, m.cap, id);
    }
    assert CapOk(a.frames, c.clos + [c.top], a.clos + [Last(a.stack)], m.at, m.cap + seen);
  }

  lemma MarkFrames<V>(c: Cells<V>, a: Abs<V>, m: Layout, envs: map<nat, EnvCell>, seen: set<nat>)
    requires FramesOk(c.envs, c.binds, a.frames, m.at, m.chain, m.cap) && envs.Keys == c.envs.Keys
    requires forall id :: id in m.at && m.at[id] in c.envs ==>
      envs[m.at[id]] == c.envs[m.at[id]].(captured := c.envs[m.at[id]].captured || id in seen)
    ensures FramesOk(envs, c.binds, a.frames, m.at, m.chain, m.cap + seen)
  {
    forall id | id in m.at ensures CellOk(envs, a.frames, m.at, m.cap + seen, id) {
      assert CellOk(c.envs, a.frames, m.at, m.cap, id);
    }
    forall id | id in m.at ensures BindsAt(envs, c.binds, a.frames, m.at, m.chain, id) {
      assert BindsAt(c.envs, c.binds, a.frames, m.at, m.chain, id);
    }
  }

  lemma MoreMarked<V>(a: Abs<V>, live: set<nat>, cap: set<nat>, seen: set<nat>)
    requires StackOk(a.frames, a.stack, a.kinds, live, cap)
    ensures StackOk(a.frames, a.stack, a.kinds, live, cap + seen)
  {
    forall j | 0 <= j < |a.stack| ensures LinkAt(a.frames, a.stack, a.kinds, cap + seen, j) {
      assert LinkAt(a.frames, a.stack, a.kinds, cap, j);
    }
    forall id | id in live ensures OnStack(a.stack, cap + seen, id) {
      assert OnStack(a.stack, cap, id);
    }
  }

  /** A closure call ends: its frame is dropped, and its cell is not reused. */
  lemma LeaveCall<V>(c: Cells<V>, a: Abs<V>, m: Layout)
    requires Inv(c, a, m) && a.stack != [] && a.kinds[|a.kinds| - 1].Entered?
    ensures c.saved != []
    ensures var n, t := |c.saved| - 1, a.stack[|a.stack| - 1];
      var m' := if t in m.cap then m else m.(at := m.at - {t}, chain := m.chain - {t});
      Inv(c.(top := c.saved[n], saved := c.saved[..n]), AbsPop(a), m')
  {
    var n, t := |a.stack| - 1, a.stack[|a.stack| - 1];
    assert CellOk(c.envs, a.frames, m.at, m.cap, t);
    var m' := if t in m.cap then m else m.(at := m.at - {t}, chain := m.chain - {t});
    PopStack(a.frames, a.frames, a.stack, a.kinds, m.at.Keys, m'.at.Keys, m.cap);
    LeaveAside(a, m.at, m'.at, m.cap, t);
    var rest := Aside(a.stack[..n], a.kinds[..n], m'.at);
    assert c.saved == rest + [PtrTo(m'.at, Last(a.stack[..n]))];
    assert c.saved[..|c.saved| - 1] == rest;
    if t !in m.cap {
      FreeTopFrames(c, a, m, a, t, c.envs);
      FreeTopCap(a, a, c.clos, m, m'.at, t);
    }
  }

  lemma LeaveAside<V>(a: Abs<V>, at: map<nat, nat>, at': map<nat, nat>, cap: set<nat>, t: nat)
    requires StackOk(a.frames, a.stack, a.kinds, at.Keys, cap) && a.stack != [] && a.kinds[|a.kinds| - 1].Entered?
    requires t == a.stack[|a.stack| - 1] && (at' == at || at' == at - {t})
    ensures var n := |a.stack| - 1;
      Aside(a.stack, a.kinds, at) == Aside(a.stack[..n], a.kinds[..n], at') + [PtrTo(at', Last(a.stack[..n]))]
  {
    var n := |a.stack| - 1;
    forall id | id in a.stack[..n] ensures id in at' && at'[id] == at[id] {
      var j :| 0 <= j < n && a.stack[j] == id;
      assert a.stack[j] < a.stack[n];
    }
    AsideSame(a.stack[..n], a.kinds[..n], at, at');
    assert n > 0 ==> a.stack[..n][n - 1] in a.stack[..n];
  }
}
