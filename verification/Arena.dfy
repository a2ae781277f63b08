/** The compiler's memory pool: blocks that are filled from the front, where only
    the last allocation can grow in place. Addresses are numbers; where the system
    allocator puts a new block is a parameter, constrained as the system does. */
module Arena {
  const ALIGN: nat := 16
  const MIN_BLOCK: nat := 65536
  const HEADER: nat := 32

  function AlignUp(n: nat): (r: nat)
    ensures r % ALIGN == 0 && n <= r < n + ALIGN
  {
    (n + ALIGN - 1) / ALIGN * ALIGN
  }

  /** What an allocation of `n` bytes takes: never nothing. */
  function Foot(n: nat): (r: nat)
    ensures r % ALIGN == 0 && r >= ALIGN && n <= r
  {
    AlignUp(if n == 0 then 1 else n)
  }

  /** A block at `base`: a header, then `cap` bytes of which `used` are handed out. */
  datatype Block = Block(base: nat, cap: nat, used: nat) {
    function Start(): nat { base + HEADER }
    function Next(): nat { base + HEADER + used }
    function End(): nat { base + HEADER + cap }
  }

  /** A live allocation, in the block with number `blk`. */
  datatype Region = Region(lo: nat, len: nat, blk: nat)

  // ---------- What holds in every state ----------

  predicate BlockOk(b: Block) { b.base % ALIGN == 0 && b.used % ALIGN == 0 && b.used <= b.cap && b.cap > 0 }

  predicate BlocksApart(blocks: seq<Block>, i: nat, j: nat) {
    i < |blocks| && j < |blocks| && (blocks[i].End() <= blocks[j].base || blocks[j].End() <= blocks[i].base)
  }

  predicate RegionOk(blocks: seq<Block>, r: Region) {
    && r.blk < |blocks| && r.lo % ALIGN == 0 && r.len % ALIGN == 0 && r.len > 0
    && blocks[r.blk].Start() <= r.lo && r.lo + r.len <= blocks[r.blk].Next()
  }

  predicate RegionsApart(regions: seq<Region>, i: nat, j: nat) {
    && i < |regions| && j < |regions|
    && (regions[i].lo + regions[i].len <= regions[j].lo || regions[j].lo + regions[j].len <= regions[i].lo)
  }

  /** Bytes the system gave, not counting headers. */
  function Capacity(blocks: seq<Block>): nat {
    if blocks == [] then 0 else Capacity(blocks[..|blocks| - 1]) + blocks[|blocks| - 1].cap
  }

  /** Bytes handed out. */
  function Handed(regions: seq<Region>): nat {
    if regions == [] then 0 else Handed(regions[..|regions| - 1]) + regions[|regions| - 1].len
  }

  ghost predicate Blocks(blocks: seq<Block>) {
    && (forall i :: 0 <= i < |blocks| ==> BlockOk(blocks[i]))
    && (forall i, j {:trigger BlocksApart(blocks, i, j)} :: 0 <= i < j < |blocks| ==> BlocksApart(blocks, i, j))
  }

  ghost predicate Regions(blocks: seq<Block>, regions: seq<Region>) {
    && (forall i :: 0 <= i < |regions| ==> RegionOk(blocks, regions[i]))
    && (forall i, j {:trigger RegionsApart(regions, i, j)} :: 0 <= i < j < |regions| ==> RegionsApart(regions, i, j))
  }

  /** Space: the blocks before the last one weigh less than the last, and beyond the
      first block the total stays under four times what was handed out. */
  ghost predicate Bounded(blocks: seq<Block>, regions: seq<Region>) {
    && (blocks != [] ==> Capacity(blocks) < 2 * blocks[|blocks| - 1].cap)
    && (blocks != [] ==> blocks[|blocks| - 1].used <= Handed(regions))
    && (|blocks| > 1 ==> Capacity(blocks) < 4 * Handed(regions))
  }

  lemma HandedAppend(regions: seq<Region>, r: Region)
    ensures Handed(regions + [r]) == Handed(regions) + r.len
  {
    assert (regions + [r])[..|regions|] == regions;
  }

  lemma CapacityAppend(blocks: seq<Block>, b: Block)
    ensures Capacity(blocks + [b]) == Capacity(blocks) + b.cap
  {
    assert (blocks + [b])[..|blocks|] == blocks;
  }

  lemma {:induction false} HandedGrow(regions: seq<Region>, k: nat, by_: nat)
    requires k < |regions|
    ensures Handed(regions[k := regions[k].(len := regions[k].len + by_)]) == Handed(regions) + by_
    decreases |regions|
  {
    var n := |regions| - 1;
    var grown := regions[k := regions[k].(len := regions[k].len + by_)];
    if k == n {
      assert grown[..n] == regions[..n];
    } else {
      assert grown[..n] == regions[..n][k := regions[k].(len := regions[k].len + by_)];
      HandedGrow(regions[..n], k, by_);
    }
  }

  /** More of the last block in use changes no capacity. */
  lemma CapacityUse(blocks: seq<Block>, used: nat)
    requires blocks != []
    ensures var n := |blocks| - 1; Capacity(blocks[n := blocks[n].(used := used)]) == Capacity(blocks)
  {
    var n := |blocks| - 1;
    assert blocks[n := blocks[n].(used := used)][..n] == blocks[..n];
  }

  // ---------- Steps ----------

  /** What the system guarantees of a new block's place. */
  ghost predicate Room(blocks: seq<Block>, base: nat, cap: nat) {
    && base % ALIGN == 0
    && forall i :: 0 <= i < |blocks| ==> blocks[i].End() <= base || base + HEADER + cap <= blocks[i].base
  }

  /** Where the system puts the block that an allocation needs, if it needs one. */
  ghost predicate Placed(blocks: seq<Block>, base: nat, cap: nat) { cap > 0 ==> Room(blocks, base, cap) }

  lemma {:induction false} AddBlock(blocks: seq<Block>, regions: seq<Region>, base: nat, cap: nat)
    requires Blocks(blocks) && Regions(blocks, regions) && Room(blocks, base, cap) && cap > 0
    ensures Blocks(blocks + [Block(base, cap, 0)]) && Regions(blocks + [Block(base, cap, 0)], regions)
  {
    var after := blocks + [Block(base, cap, 0)];
    forall i, j | 0 <= i < j < |after| ensures BlocksApart(after, i, j) {
      assert j < |blocks| ==> BlocksApart(blocks, i, j);
    }
    forall i | 0 <= i < |regions| ensures RegionOk(after, regions[i]) {
      assert RegionOk(blocks, regions[i]);
    }
  }

  /** Taking the next `n` bytes of the last block. */
  lemma {:induction false} AddRegion(blocks: seq<Block>, regions: seq<Region>, n: nat)
    requires Blocks(blocks) && Regions(blocks, regions) && blocks != []
    requires n % ALIGN == 0 && n > 0 && blocks[|blocks| - 1].used + n <= blocks[|blocks| - 1].cap
    ensures var h := |blocks| - 1;
      var after := blocks[h := blocks[h].(used := blocks[h].used + n)];
      Blocks(after) && Regions(after, regions + [Region(blocks[h].Next(), n, h)])
  {
    var h := |blocks| - 1;
    var r := Region(blocks[h].Next(), n, h);
    var after, all := blocks[h := blocks[h].(used := blocks[h].used + n)], regions + [r];
    UseMore(blocks, regions, n);
    forall i, j | 0 <= i < j < |all| ensures RegionsApart(all, i, j) {
      if j < |regions| {
        assert RegionsApart(regions, i, j);
      } else {
        assert RegionOk(blocks, regions[i]);
        assert regions[i].blk < h ==> BlocksApart(blocks, regions[i].blk, h);
      }
    }
    forall i | 0 <= i < |all| ensures RegionOk(after, all[i]) {
    }
  }

  lemma UseMore(blocks: seq<Block>, regions: seq<Region>, n: nat)
    requires Blocks(blocks) && Regions(blocks, regions) && blocks != []
    requires n % ALIGN == 0 && blocks[|blocks| - 1].used + n <= blocks[|blocks| - 1].cap
    ensures var h := |blocks| - 1;
      var after := blocks[h := blocks[h].(used := blocks[h].used + n)];
      Blocks(after) && Regions(after, regions)
  {
    var h := |blocks| - 1;
    var after := blocks[h := blocks[h].(used := blocks[h].used + n)];
    forall i, j | 0 <= i < j < |after| ensures BlocksApart(after, i, j) {
      assert BlocksApart(blocks, i, j);
    }
    forall i | 0 <= i < |regions| ensures RegionOk(after, regions[i]) {
      assert RegionOk(blocks, regions[i]);
    }
  }

  /** A region that ends where the last block's free space starts is in that block,
      and no other region comes after it there. */
  lemma LastRegion(blocks: seq<Block>, regions: seq<Region>, k: nat)
    requires Blocks(blocks) && Regions(blocks, regions) && blocks != [] && k < |regions|
    requires regions[k].lo + regions[k].len == blocks[|blocks| - 1].Next()
    ensures regions[k].blk == |blocks| - 1
    ensures forall i :: 0 <= i < |regions| && i != k && regions[i].blk == |blocks| - 1 ==>
      regions[i].lo + regions[i].len <= regions[k].lo
  {
    var h := |blocks| - 1;
    assert RegionOk(blocks, regions[k]);
    assert regions[k].blk < h ==> BlocksApart(blocks, regions[k].blk, h);
    forall i | 0 <= i < |regions| && i != k
      && regions[i].blk == h ensures regions[i].lo + regions[i].len <= regions[k].lo {
      assert RegionOk(blocks, regions[i]);
      assert i < k ==> RegionsApart(regions, i, k);
      assert k < i ==> RegionsApart(regions, k, i);
    }
  }

  /** Growing the last allocation keeps all of it. */
  lemma {:induction false} GrowBound(blocks: seq<Block>, regions: seq<Region>, k: nat, more: nat)
    requires Blocks(blocks) && Regions(blocks, regions) && Bounded(blocks, regions)
    requires blocks != [] && k < |regions| && more % ALIGN == 0
    requires regions[k].lo + regions[k].len == blocks[|blocks| - 1].Next()
    requires blocks[|blocks| - 1].used + more <= blocks[|blocks| - 1].cap
    ensures var h := |blocks| - 1;
      var after := blocks[h := blocks[h].(used := blocks[h].used + more)];
      var all := regions[k := regions[k].(len := regions[k].len + more)];
      Blocks(after) && Regions(after, all) && Bounded(after, all)
  {
    GrowLast(blocks, regions, k, more);
    HandedGrow(regions, k, more);
    CapacityUse(blocks, blocks[|blocks| - 1].used + more);
  }

  /** An allocation lies in a block, and one that ends where the last block is used up
      to does not start before it. */
  lemma Behind(blocks: seq<Block>, regions: seq<Region>, k: nat)
    requires Blocks(blocks) && Regions(blocks, regions) && k < |regions|
    ensures blocks != []
    ensures
      var last := blocks[|blocks| - 1];
      regions[k].lo + regions[k].len == last.Next() ==> regions[k].lo >= last.Start()
  {
    assert RegionOk(blocks, regions[k]);
    if regions[k].lo + regions[k].len == blocks[|blocks| - 1].Next() {
      LastRegion(blocks, regions, k);
    }
  }

  /** Growing that region into the free space. */
  lemma {:induction false} GrowLast(blocks: seq<Block>, regions: seq<Region>, k: nat, more: nat)
    requires Blocks(blocks) && Regions(blocks, regions) && blocks != [] && k < |regions| && more % ALIGN == 0
    requires regions[k].lo + regions[k].len == blocks[|blocks| - 1].Next()
    requires blocks[|blocks| - 1].used + more <= blocks[|blocks| - 1].cap
    ensures var h := |blocks| - 1;
      var after := blocks[h := blocks[h].(used := blocks[h].used + more)];
      Blocks(after) && Regions(after, regions[k := regions[k].(len := regions[k].len + more)])
  {
    var h := |blocks| - 1;
    var after, all := blocks[h := blocks[h].(used := blocks[h].used + more)],
      regions[k := regions[k].(len := regions[k].len + more)];
    LastRegion(blocks, regions, k);
    UseMore(blocks, regions, more);
    forall i | 0 <= i < |all| ensures RegionOk(after, all[i]) {
      assert RegionOk(after, regions[i]);
    }
    hide Blocks;
    forall i, j | 0 <= i < j < |all| ensures RegionsApart(all, i, j) {
      GrowPair(blocks, regions, k, more, i, j);
    }
  }

  lemma GrowPair(blocks: seq<Block>, regions: seq<Region>, k: nat, more: nat, i: nat, j: nat)
    requires Blocks(blocks) && Regions(blocks, regions) && blocks != [] && k < |regions| && i < j < |regions|
    requires regions[k].lo + regions[k].len == blocks[|blocks| - 1].Next()
    requires blocks[|blocks| - 1].used + more <= blocks[|blocks| - 1].cap
    ensures RegionsApart(regions[k := regions[k].(len := regions[k].len + more)], i, j)
  {
    assert RegionsApart(regions, i, j);
    hide Blocks, Regions;
    GrowApart(blocks, regions, k, more, if i == k then j else i);
  }

  lemma GrowApart(blocks: seq<Block>, regions: seq<Region>, k: nat, more: nat, i: nat)
    requires Blocks(blocks) && Regions(blocks, regions) && blocks != [] && k < |regions| && i < |regions|
    requires regions[k].lo + regions[k].len == blocks[|blocks| - 1].Next()
    requires blocks[|blocks| - 1].used + more <= blocks[|blocks| - 1].cap
    ensures i == k
      || regions[i].lo + regions[i].len <= regions[k].lo
      || regions[k].lo + regions[k].len + more <= regions[i].lo
  {
    var h := |blocks| - 1;
    LastRegion(blocks, regions, k);
    assert RegionOk(blocks, regions[i]) && RegionOk(blocks, regions[k]);
    if i != k && regions[i].blk < h {
      assert BlocksApart(blocks, regions[i].blk, h);
    }
  }

  // ---------- Operations ----------

  /** The pool, the memory behind it, and the live allocations in the order they were
      made. What the system hands out is not zeroed: `mem` holds whatever was there. */
  datatype State = State(blocks: seq<Block>, mem: nat -> int, regions: seq<Region>)

  function Start(mem: nat -> int): State { State([], mem, []) }

  ghost predicate Ok(s: State) {
    Blocks(s.blocks) && Regions(s.blocks, s.regions) && Bounded(s.blocks, s.regions)
  }

  function Zeroed(mem: nat -> int, p: nat, n: nat): nat -> int { (q: nat) => if p <= q < p + n then 0 else mem(q) }

  predicate ZeroBetween(mem: nat -> int, lo: nat, hi: nat) { forall q: nat :: lo <= q < hi ==> mem(q) == 0 }

  /** How much a new block holds when one is needed for `n` more bytes, else 0. */
  function NewCap(blocks: seq<Block>, n: nat): nat {
    if blocks == [] then (if n < MIN_BLOCK then MIN_BLOCK else n)
    else
      var h := blocks[|blocks| - 1];
      if h.used + n <= h.cap then 0 else if n > 2 * h.cap then n else 2 * h.cap
  }

  /** The blocks after making room for `n` more bytes; `base` is where the system puts
      a new one. */
  function Grown(blocks: seq<Block>, n: nat, base: nat): (after: seq<Block>)
    requires n > 0
    ensures after != [] && after[|after| - 1].used + n <= after[|after| - 1].cap
  {
    var cap := NewCap(blocks, n);
    if cap > 0 then blocks + [Block(base, cap, 0)] else blocks
  }

  function Use(blocks: seq<Block>, n: nat): seq<Block>
    requires blocks != []
  {
    var h := |blocks| - 1;
    blocks[h := blocks[h].(used := blocks[h].used + n)]
  }

  /** Hands out `n` zeroed bytes. */
  function AllocTo(s: State, n: nat, base: nat): State {
    var need := Foot(n);
    var blocks := Grown(s.blocks, need, base);
    var p := blocks[|blocks| - 1].Next();
    State(Use(blocks, need), Zeroed(s.mem, p, need), s.regions + [Region(p, need, |blocks| - 1)])
  }

  /** Room for a larger footprint: the last allocation, space behind it, and nothing
      but zeroes between its contents and its end. */
  predicate CanGrow(blocks: seq<Block>, mem: nat -> int, p: nat, oldLen: nat, newLen: nat) {
    var was, need := Foot(oldLen), Foot(newLen);
    && need > was && blocks != []
    && p + was == blocks[|blocks| - 1].Next()
    && blocks[|blocks| - 1].used + (need - was) <= blocks[|blocks| - 1].cap
    && ZeroBetween(mem, p + oldLen, p + was)
  }

  function Longer(regions: seq<Region>, k: nat, more: nat): seq<Region>
    requires k < |regions|
  {
    regions[k := regions[k].(len := regions[k].len + more)]
  }

  /** Grows allocation `k` in place, when that can be. */
  function ExtendTo(s: State, k: nat, oldLen: nat, newLen: nat): State
    requires k < |s.regions|
  {
    if CanGrow(s.blocks, s.mem, s.regions[k].lo, oldLen, newLen) then
      var more := Foot(newLen) - Foot(oldLen);
      s.(blocks := Use(s.blocks, more), regions := Longer(s.regions, k, more))
    else s
  }

  lemma GrownBlocks(blocks: seq<Block>, regions: seq<Region>, n: nat, base: nat)
    requires Blocks(blocks) && Regions(blocks, regions) && n > 0 && Placed(blocks, base, NewCap(blocks, n))
    ensures Blocks(Grown(blocks, n, base)) && Regions(Grown(blocks, n, base), regions)
  {
    hide Blocks, Regions, Room;
    if NewCap(blocks, n) > 0 {
      AddBlock(blocks, regions, base, NewCap(blocks, n));
    }
  }

  /** A new block, if one is needed, weighs more than half of all, and all of them
      less than four times what will have been handed out. */
  lemma GrownWeighs(blocks: seq<Block>, regions: seq<Region>, n: nat, base: nat)
    requires Bounded(blocks, regions) && n > 0
    ensures
      var after := Grown(blocks, n, base);
      && Capacity(after) < 2 * after[|after| - 1].cap
      && after[|after| - 1].used <= Handed(regions)
      && (|after| > 1 ==> Capacity(after) < 4 * (Handed(regions) + n))
  {
    assert Capacity([]) == 0;
    hide Capacity, Handed;
    if NewCap(blocks, n) > 0 {
      CapacityAppend(blocks, Block(base, NewCap(blocks, n), 0));
    }
  }

  /** Taking `n` bytes from the last block keeps the bound on space. */
  lemma {:induction false} UseBounded(blocks: seq<Block>, regions: seq<Region>, n: nat, r: Region)
    requires blocks != [] && r.len == n && Capacity(blocks) < 2 * blocks[|blocks| - 1].cap
    requires blocks[|blocks| - 1].used <= Handed(regions)
    requires |blocks| > 1 ==> Capacity(blocks) < 4 * (Handed(regions) + n)
    ensures Bounded(Use(blocks, n), regions + [r])
  {
    hide Capacity, Handed;
    CapacityUse(blocks, blocks[|blocks| - 1].used + n);
    HandedAppend(regions, r);
  }

  lemma {:induction false} UseKeeps(blocks: seq<Block>, regions: seq<Region>, n: nat)
    requires Blocks(blocks) && Regions(blocks, regions) && blocks != [] && n % ALIGN == 0 && n > 0
    requires blocks[|blocks| - 1].used + n <= blocks[|blocks| - 1].cap
    ensures
      var h := |blocks| - 1;
      Blocks(Use(blocks, n)) && Regions(Use(blocks, n), regions + [Region(blocks[h].Next(), n, h)])
  {
    hide Blocks, Regions;
    AddRegion(blocks, regions, n);
  }

  lemma {:induction false} AllocKeeps(s: State, n: nat, base: nat)
    requires Ok(s) && Placed(s.blocks, base, NewCap(s.blocks, Foot(n)))
    ensures Ok(AllocTo(s, n, base))
  {
    hide Blocks, Regions, Bounded, Capacity, Handed, NewCap, Foot, Grown, Use, Placed;
    var blocks := Grown(s.blocks, Foot(n), base);
    var h := |blocks| - 1;
    GrownBlocks(s.blocks, s.regions, Foot(n), base);
    GrownWeighs(s.blocks, s.regions, Foot(n), base);
    UseKeeps(blocks, s.regions, Foot(n));
    UseBounded(blocks, s.regions, Foot(n), Region(blocks[h].Next(), Foot(n), h));
  }

  /** Only the last allocation of the last block ever grows. */
  lemma {:induction false} ExtendKeeps(s: State, k: nat, oldLen: nat, newLen: nat)
    requires Ok(s) && k < |s.regions| && s.regions[k].len == Foot(oldLen)
    ensures Ok(ExtendTo(s, k, oldLen, newLen))
    ensures CanGrow(s.blocks, s.mem, s.regions[k].lo, oldLen, newLen) ==>
      && s.regions[k].blk == |s.blocks| - 1
      && forall i :: 0 <= i < |s.regions| && i != k && s.regions[i].blk == |s.blocks| - 1 ==>
           s.regions[i].lo + s.regions[i].len <= s.regions[k].lo
  {
    hide Blocks, Regions, Bounded, ZeroBetween;
    if CanGrow(s.blocks, s.mem, s.regions[k].lo, oldLen, newLen) {
      GrowBound(s.blocks, s.regions, k, Foot(newLen) - Foot(oldLen));
      LastRegion(s.blocks, s.regions, k);
    }
  }

  // ---------- The pool ----------

  class Pool {
    var blocks: seq<Block>
    var mem: nat -> int
    ghost var regions: seq<Region>

    ghost function S(): State
      reads this
    {
      State(blocks, mem, regions)
    }

    constructor (mem: nat -> int)
      ensures S() == Start(mem)
    {
      blocks, this.mem, regions := [], mem, [];
    }

    method Alloc(n: nat, base: nat) returns (p: nat)
      requires Ok(S()) && Placed(blocks, base, NewCap(blocks, Foot(n)))
      modifies this
      ensures S() == AllocTo(old(S()), n, base) && Ok(S())
      ensures p == regions[|regions| - 1].lo && regions[|regions| - 1].len == Foot(n)
      ensures forall q: nat :: mem(q) == if p <= q < p + Foot(n) then 0 else old(mem)(q)
    {
      AllocKeeps(S(), n, base);
      var need := Foot(n);
      var cap := NewCap(blocks, need);
      if cap > 0 { blocks := blocks + [Block(base, cap, 0)]; }
      var h := |blocks| - 1;
      p := blocks[h].Next();
      blocks := blocks[h := blocks[h].(used := blocks[h].used + need)];
      mem := Zeroed(mem, p, need);
      regions := regions + [Region(p, need, h)];
    }

    /** Says whether allocation `k`, which starts at `p`, has the new footprint. */
    method TryExtend(p: nat, oldLen: nat, newLen: nat, ghost k: nat) returns (ok: bool)
      requires Ok(S()) && k < |regions| && regions[k].lo == p && regions[k].len == Foot(oldLen)
      modifies this
      ensures S() == ExtendTo(old(S()), k, oldLen, newLen) && Ok(S())
      ensures ok <==> regions[k].len == Foot(newLen)
      ensures mem == old(mem)
    {
      ExtendKeeps(S(), k, oldLen, newLen);
      Behind(blocks, regions, k);
      var was, need := Foot(oldLen), Foot(newLen);
      if need <= was { return need == was; }
      var h := |blocks| - 1;
      if p + was != blocks[h].Next() { return false; }
      if p < blocks[h].Start() { return false; }
      if blocks[h].used + (need - was) > blocks[h].cap { return false; }
      var clean := StillZero(p + oldLen, p + was);
      if !clean { return false; }
      blocks := blocks[h := blocks[h].(used := blocks[h].used + (need - was))];
      regions := Longer(regions, k, need - was);
      return true;
    }

    method StillZero(from: nat, to: nat) returns (clean: bool)
      ensures clean <==> ZeroBetween(mem, from, to)
    {
      var q := from;
      while q < to
        invariant from <= to ==> from <= q <= to
        invariant ZeroBetween(mem, from, q)
      {
        if mem(q) != 0 { return false; }
        q := q + 1;
      }
      return true;
    }
  }

  // ---------- Any run ----------

  /** What happens to a pool: allocations, extensions, and bytes written by its users. */
  datatype Op = Alloc(n: nat, base: nat) | Extend(k: nat, oldLen: nat, newLen: nat) | Write(q: nat, v: int)

  /** The system puts a block where nothing else is, and an extension names a live
      allocation and its length. */
  ghost predicate Allowed(s: State, op: Op) {
    match op
    case Alloc(n, base) => Placed(s.blocks, base, NewCap(s.blocks, Foot(n)))
    case Extend(k, oldLen, _) => k < |s.regions| && s.regions[k].len == Foot(oldLen)
    case Write(_, _) => true
  }

  ghost function Apply(s: State, op: Op): State
    requires Allowed(s, op)
  {
    match op
    case Alloc(n, base) => AllocTo(s, n, base)
    case Extend(k, oldLen, newLen) => ExtendTo(s, k, oldLen, newLen)
    case Write(p, v) => s.(mem := (q: nat) => if q == p then v else s.mem(q))
  }

  /** One operation after the other; what is not allowed is passed over. */
  ghost function Run(s: State, ops: seq<Op>): State
    decreases |ops|
  {
    if ops == [] then s else Run(if Allowed(s, ops[0]) then Apply(s, ops[0]) else s, ops[1..])
  }

  /** Allocations stay where they are, and at most get longer. */
  predicate Stays(before: seq<Region>, after: seq<Region>) {
    && |before| <= |after|
    && forall k :: 0 <= k < |before| ==>
         after[k].lo == before[k].lo && after[k].blk == before[k].blk && after[k].len >= before[k].len
  }

  lemma {:induction false} RunKeeps(s: State, ops: seq<Op>)
    requires Ok(s)
    ensures Ok(Run(s, ops)) && Stays(s.regions, Run(s, ops).regions)
    decreases |ops|
  {
    if ops != [] {
      var s' := if Allowed(s, ops[0]) then Apply(s, ops[0]) else s;
      if Allowed(s, ops[0]) {
        match ops[0]
        case Alloc(n, base) => AllocKeeps(s, n, base);
        case Extend(k, oldLen, newLen) => ExtendKeeps(s, k, oldLen, newLen);
        case Write(_, _) =>
      }
      RunKeeps(s', ops[1..]);
    }
  }

  predicate Inside(r: Region, q: nat) { r.lo <= q < r.lo + r.len }

  /** What a caller may rely on after any run from an empty pool: allocations are
      aligned, inside their block and apart from each other, those made earlier are
      where they were, and the pool never asks the system for more than its first
      block or four times what it handed out. */
  lemma RunGuarantee(mem: nat -> int, early: seq<Op>, late: seq<Op>)
    ensures
      var s := Run(Run(Start(mem), early), late);
      && (forall i :: 0 <= i < |s.regions| ==>
            && s.regions[i].lo % ALIGN == 0 && s.regions[i].blk < |s.blocks|
            && s.blocks[s.regions[i].blk].Start() <= s.regions[i].lo
            && s.regions[i].lo + s.regions[i].len <= s.blocks[s.regions[i].blk].End())
      && (forall i, j, q: nat {:trigger Inside(s.regions[i], q), Inside(s.regions[j], q)} ::
            0 <= i < j < |s.regions| && Inside(s.regions[i], q) ==> !Inside(s.regions[j], q))
      && Stays(Run(Start(mem), early).regions, s.regions)
      && (|s.blocks| <= 1 || Capacity(s.blocks) < 4 * Handed(s.regions))
  {
    var mid := Run(Start(mem), early);
    var s := Run(mid, late);
    RunKeeps(Start(mem), early);
    RunKeeps(mid, late);
    forall i | 0 <= i < |s.regions|
      ensures s.regions[i].lo % ALIGN == 0 && s.regions[i].blk < |s.blocks|
      ensures s.blocks[s.regions[i].blk].Start() <= s.regions[i].lo
      ensures s.regions[i].lo + s.regions[i].len <= s.blocks[s.regions[i].blk].End()
    {
      assert RegionOk(s.blocks, s.regions[i]);
    }
    forall i, j, q: nat | 0 <= i < j < |s.regions| && Inside(s.regions[i], q) ensures !Inside(s.regions[j], q) {
      assert RegionsApart(s.regions, i, j);
    }
  }

  // ---------- What is in the bytes ----------

  predicate Writes(op: Op, q: nat) { op.Write? && op.q == q }

  /** A byte of an allocation that is not written keeps what it holds: no later
      allocation clears it, and no extension does. */
  lemma {:induction false} BytesStay(s: State, ops: seq<Op>, k: nat, q: nat)
    requires Ok(s) && k < |s.regions| && k < |Run(s, ops).regions| && Inside(Run(s, ops).regions[k], q)
    requires forall i :: 0 <= i < |ops| ==> !Writes(ops[i], q)
    ensures Run(s, ops).mem(q) == s.mem(q)
    decreases |ops|
  {
    hide Ok, AllocTo, ExtendTo, Placed;
    if ops != [] {
      var s' := if Allowed(s, ops[0]) then Apply(s, ops[0]) else s;
      RunKeeps(s, ops[..1]);
      assert ops[..1][1..] == [];
      assert Run(s, ops[..1]) == s';
      BytesStay(s', ops[1..], k, q);
      if ops[0].Alloc? && Allowed(s, ops[0]) {
        ClearedElsewhere(s, ops[0].n, ops[0].base, ops[1..], k, q);
      } else if ops[0].Extend? && Allowed(s, ops[0]) {
        assert s'.mem == s.mem by {
          ExtendOnly(s, ops[0].k, ops[0].oldLen, ops[0].newLen);
        }
      }
    }
  }

  lemma ExtendOnly(s: State, k: nat, oldLen: nat, newLen: nat)
    requires k < |s.regions|
    ensures ExtendTo(s, k, oldLen, newLen).mem == s.mem
  {
  }

  /** An allocation does not clear what is in another one now or later. */
  lemma ClearedElsewhere(s: State, n: nat, base: nat, ops: seq<Op>, k: nat, q: nat)
    requires Ok(s) && Allowed(s, Alloc(n, base)) && k < |s.regions|
    requires var t := Run(AllocTo(s, n, base), ops); k < |t.regions| && Inside(t.regions[k], q)
    ensures AllocTo(s, n, base).mem(q) == s.mem(q)
  {
    var s' := AllocTo(s, n, base);
    AllocKeeps(s, n, base);
    RunKeeps(s', ops);
    var t, m := Run(s', ops), |s.regions|;
    assert RegionsApart(t.regions, k, m);
  }

  /** After any run `early`, an allocation of `n` bytes and any run `late`: a byte of
      that allocation which nobody has written since is zero, if it is one of those
      handed out first. One that an extension added holds what the memory there held
      before, and so is zero exactly if that was. */
  lemma AllocatedBytes(mem: nat -> int, early: seq<Op>, n: nat, base: nat, late: seq<Op>, q: nat)
    requires
      var s := Run(Start(mem), early);
      && Allowed(s, Alloc(n, base)) && |s.regions| < |Run(Apply(s, Alloc(n, base)), late).regions|
      && Inside(Run(Apply(s, Alloc(n, base)), late).regions[|s.regions|], q)
    requires forall i :: 0 <= i < |late| ==> !Writes(late[i], q)
    ensures
      var s := Run(Start(mem), early);
      var t := Run(Apply(s, Alloc(n, base)), late);
      t.mem(q) == if q < t.regions[|s.regions|].lo + Foot(n) then 0 else s.mem(q)
  {
    RunKeeps(Start(mem), early);
    var s := Run(Start(mem), early);
    var s' := Apply(s, Alloc(n, base));
    AllocKeeps(s, n, base);
    RunKeeps(s', late);
    BytesStay(s', late, |s.regions|, q);
  }

  /** What a user writes into an allocation stays there until the next write to it. */
  lemma WrittenBytesStay(mem: nat -> int, early: seq<Op>, q: nat, v: int, late: seq<Op>, k: nat)
    requires
      var s := Run(Start(mem), early);
      && k < |s.regions| && k < |Run(s, [Write(q, v)] + late).regions|
      && Inside(Run(s, [Write(q, v)] + late).regions[k], q)
    requires forall i :: 0 <= i < |late| ==> !Writes(late[i], q)
    ensures Run(Run(Start(mem), early), [Write(q, v)] + late).mem(q) == v
  {
    RunKeeps(Start(mem), early);
    var s := Run(Start(mem), early);
    var s' := Apply(s, Write(q, v));
    assert ([Write(q, v)] + late)[1..] == late;
    BytesStay(s', late, k, q);
  }

  /** An allocation grows in place exactly when it is to grow, ends where the last block
      is used up to, fits in what is left there, and holds nothing but zeroes from its
      contents on; what it gains is what was left. */
  lemma ExtendsExactly(s: State, k: nat, oldLen: nat, newLen: nat)
    requires Ok(s) && k < |s.regions| && s.regions[k].len == Foot(oldLen)
    ensures
      var r, t := s.regions[k], ExtendTo(s, k, oldLen, newLen);
      var last := s.blocks[|s.blocks| - 1];
      var more := Foot(newLen) - r.len;
      if && more > 0
         && r.lo + r.len == last.base + HEADER + last.used && last.used + more <= last.cap
         && forall q: nat :: r.lo + oldLen <= q < r.lo + r.len ==> s.mem(q) == 0
      then
        && t.regions == s.regions[k := Region(r.lo, r.len + more, r.blk)] && t.mem == s.mem
        && t.blocks == s.blocks[|s.blocks| - 1 := Block(last.base, last.cap, last.used + more)]
      else t == s
  {
    Behind(s.blocks, s.regions, k);
  }

  /** So an extension may add bytes that are not zero. */
  lemma ExtensionsAreNotCleared()
    ensures
      var s := Run(Start((q: nat) => 7), [Alloc(8, 0), Extend(0, 8, 24)]);
      |s.regions| == 1 && Inside(s.regions[0], 48) && s.mem(48) == 7 && s.mem(47) == 0
  {
    var ops := [Alloc(8, 0), Extend(0, 8, 24)];
    var s0 := Start((q: nat) => 7);
    assert Foot(8) == 16 && Foot(24) == 32 && NewCap([], 16) == MIN_BLOCK;
    var s1 := AllocTo(s0, 8, 0);
    assert s1.blocks == [Block(0, MIN_BLOCK, 16)] && s1.regions == [Region(32, 16, 0)];
    assert CanGrow(s1.blocks, s1.mem, 32, 8, 24);
    var s2 := ExtendTo(s1, 0, 8, 24);
    assert s2.regions == [Region(32, 32, 0)];
    assert ops[1..] == [Extend(0, 8, 24)] && ops[1..][1..] == [];
    assert Run(s0, ops) == Run(s1, ops[1..]) == Run(s2, []) == s2;
  }
}
