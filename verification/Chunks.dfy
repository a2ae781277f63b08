/** Parallel map and reduce over a list: the index range is cut into at most eight
    chunks, one worker thread each. The workers interleave freely, one element at a
    step; the caller joins them all and, for a reduce, combines their results. */
module Chunks {
  import opened Options

  const THREADS := 8

  /** The indices from `lo` up to, and without, `hi`. */
  datatype Chunk = Chunk(lo: nat, hi: nat)

  function Workers(n: nat): nat { if n < THREADS then n else THREADS }

  function Per(n: nat): nat
    requires n > 0
  {
    (n + Workers(n) - 1) / Workers(n)
  }

  /** What worker `k` of a map or of a reduce gets; the two clamp differently. */
  function ChunkOf(n: nat, k: nat, reduce: bool): Chunk
    requires n > 0
  {
    var lo, hi := k * Per(n), (k + 1) * Per(n);
    var hi := if hi > n then n else hi;
    if reduce then Chunk(if lo > hi then hi else lo, hi)
    else Chunk(lo, if lo >= hi then lo else hi)
  }

  predicate In(j: nat, c: Chunk) { c.lo <= j < c.hi }

  lemma PerCovers(n: nat)
    requires n > 0
    ensures Per(n) > 0 && Workers(n) * Per(n) >= n
  {
    var w := Workers(n);
    assert (n + w - 1) / w * w + (n + w - 1) % w == n + w - 1;
  }

  /** `j` is in the chunk numbered by its quotient, and in no other. */
  lemma WhichChunk(n: nat, j: nat, i: nat, reduce: bool)
    requires j < n
    ensures In(j, ChunkOf(n, i, reduce)) <==> i == j / Per(n)
  {
    PerCovers(n);
    var p, k := Per(n), j / Per(n);
    Quotient(j, p);
    if i < k {
      Times(i + 1, k, p);
    } else if k < i {
      Times(k + 1, i, p);
    }
  }

  lemma Times(a: nat, b: nat, p: nat)
    requires a <= b
    ensures a * p <= b * p
  {
    assert b * p == a * p + (b - a) * p;
  }

  lemma Quotient(j: nat, p: nat)
    requires p > 0
    ensures j / p * p <= j < (j / p + 1) * p
  {
    assert j == j / p * p + j % p;
  }

  /** Every index is in exactly one worker's chunk, and no chunk leaves the list. */
  lemma ChunksPartition(n: nat, j: nat, reduce: bool)
    requires j < n
    ensures j / Per(n) < Workers(n)
    ensures forall i: nat :: In(j, ChunkOf(n, i, reduce)) <==> i == j / Per(n)
    ensures forall i: nat, x: nat :: In(x, ChunkOf(n, i, reduce)) ==> x < n
  {
    PerCovers(n);
    var p, k := Per(n), j / Per(n);
    Quotient(j, p);
    if k >= Workers(n) {
      Times(Workers(n), k, p);
      assert false;
    }
    forall i: nat ensures In(j, ChunkOf(n, i, reduce)) <==> i == j / Per(n) {
      WhichChunk(n, j, i, reduce);
    }
  }

  /** The chunks of a reduce follow one another without gaps, from 0 to `n`. */
  lemma ChunksInOrder(n: nat, k: nat)
    requires n > 0
    ensures ChunkOf(n, 0, true).lo == 0
    ensures ChunkOf(n, k, true).hi == ChunkOf(n, k + 1, true).lo
    ensures ChunkOf(n, k, true).lo <= ChunkOf(n, k, true).hi <= n
    ensures k + 1 >= Workers(n) ==> ChunkOf(n, k, true).hi == n
  {
    PerCovers(n);
    Times(k, k + 1, Per(n));
    Times(k + 1, k + 2, Per(n));
    if k + 1 >= Workers(n) {
      Times(Workers(n), k + 1, Per(n));
    }
  }

  /** The bounds of one worker's chunk, clamped. */
  method OneChunk(n: nat, per: nat, k: nat, reduce: bool) returns (c: Chunk)
    requires n > 0 && per == Per(n)
    ensures c == ChunkOf(n, k, reduce)
  {
    var lo, hi := k * per, (k + 1) * per;
    if hi > n { hi := n; }
    if reduce {
      if lo > hi { lo := hi; }
    } else if lo >= hi {
      hi := lo;
    }
    c := Chunk(lo, hi);
  }

  /** The loop that hands out the chunks. */
  method HandOut(n: nat, reduce: bool) returns (chunks: seq<Chunk>)
    requires n > 0
    ensures |chunks| == Workers(n)
    ensures forall k :: 0 <= k < |chunks| ==> chunks[k] == ChunkOf(n, k, reduce)
  {
    hide ChunkOf;
    var w := if n < THREADS then n else THREADS;
    var per := (n + w - 1) / w;
    assert w == Workers(n) && per == Per(n);
    chunks := [];
    for k := 0 to w
      invariant |chunks| == k
      invariant forall i :: 0 <= i < k ==> chunks[i] == ChunkOf(n, i, reduce)
    {
      var c := OneChunk(n, per, k, reduce);
      chunks := chunks + [c];
    }
  }

  // ---------- Map ----------

  /** The cells of the new list, unwritten at first, and where each worker is. */
  datatype MapState<T> = MapState(dst: seq<Option<T>>, at: seq<nat>)

  function MapInit<T>(n: nat): MapState<T>
    requires n > 0
  {
    MapState(seq(n, _ => None), seq(Workers(n), k requires k >= 0 => ChunkOf(n, k, false).lo))
  }

  predicate Busy(n: nat, k: nat, at: seq<nat>, reduce: bool)
    requires n > 0
  {
    k < |at| && at[k] < ChunkOf(n, k, reduce).hi
  }

  /** Worker `k` writes the cell it is at. Writing past the list is stated as no step. */
  ghost predicate MapStep<S, T>(src: seq<S>, f: S -> T, k: nat, s: MapState<T>, t: MapState<T>)
    requires |src| > 0
  {
    && Busy(|src|, k, s.at, false)
    && s.at[k] < |src| && s.at[k] < |s.dst|
    && t == MapState(s.dst[s.at[k] := Some(f(src[s.at[k]]))], s.at[k := s.at[k] + 1])
  }

  /** The cells that have been written are those that some worker has passed. */
  ghost predicate MapInv<S, T>(src: seq<S>, f: S -> T, s: MapState<T>)
    requires |src| > 0
  {
    var n := |src|;
    && |s.dst| == n && |s.at| == Workers(n)
    && (forall k :: 0 <= k < |s.at| ==> ChunkOf(n, k, false).lo <= s.at[k] <= ChunkOf(n, k, false).hi)
    && (forall j, k :: 0 <= j < n && 0 <= k < |s.at| && In(j, ChunkOf(n, k, false)) ==>
          s.dst[j] == if j < s.at[k] then Some(f(src[j])) else None)
  }

  lemma MapStarts<S, T>(src: seq<S>, f: S -> T)
    requires |src| > 0
    ensures MapInv(src, f, MapInit(|src|))
  {
    assert forall k: nat :: ChunkOf(|src|, k, false).lo <= ChunkOf(|src|, k, false).hi;
  }

  /** A step writes one cell, in the list, that no worker has written before. */
  lemma MapKeeps<S, T>(src: seq<S>, f: S -> T, k: nat, s: MapState<T>, t: MapState<T>)
    requires |src| > 0 && MapInv(src, f, s) && MapStep(src, f, k, s, t)
    ensures MapInv(src, f, t) && s.dst[s.at[k]] == None
  {
    ChunksPartition(|src|, s.at[k], false);
    assert In(s.at[k], ChunkOf(|src|, k, false));
  }

  /** Two busy workers never write the same cell, and none writes past the list. */
  lemma NoRace<S, T>(src: seq<S>, f: S -> T, s: MapState<T>, k: nat, m: nat)
    requires |src| > 0 && MapInv(src, f, s)
    requires Busy(|src|, k, s.at, false) && Busy(|src|, m, s.at, false) && k != m
    ensures s.at[k] != s.at[m] && s.at[k] < |src| && exists t :: MapStep(src, f, k, s, t)
  {
    ChunksPartition(|src|, 0, false);
    assert In(s.at[k], ChunkOf(|src|, k, false));
    assert In(s.at[m], ChunkOf(|src|, m, false));
    ChunksPartition(|src|, s.at[k], false);
    assert MapStep(src, f, k, s,
                   MapState(s.dst[s.at[k] := Some(f(src[s.at[k]]))], s.at[k := s.at[k] + 1]));
  }

  predicate AllDone(n: nat, at: seq<nat>, reduce: bool)
    requires n > 0
  {
    forall k :: 0 <= k < |at| ==> !Busy(n, k, at, reduce)
  }

  ghost predicate MapMoves<S, T>(src: seq<S>, f: S -> T, s: MapState<T>, t: MapState<T>)
    requires |src| > 0
  {
    exists k :: MapStep(src, f, k, s, t)
  }

  ghost predicate MapRun<S, T>(src: seq<S>, f: S -> T, run: seq<MapState<T>>)
    requires |src| > 0
  {
    && run != [] && run[0] == MapInit(|src|)
    && forall i :: 0 <= i < |run| - 1 ==> MapMoves(src, f, run[i], run[i + 1])
  }

  lemma {:induction false} MapRunKeeps<S, T>(src: seq<S>, f: S -> T, run: seq<MapState<T>>, i: nat)
    requires |src| > 0 && MapRun(src, f, run) && i < |run|
    ensures MapInv(src, f, run[i])
  {
    if i == 0 {
      MapStarts(src, f);
    } else {
      MapRunKeeps(src, f, run, i - 1);
      assert MapMoves(src, f, run[i - 1], run[i - 1 + 1]);
      var k :| MapStep(src, f, k, run[i - 1], run[i]);
      MapKeeps(src, f, k, run[i - 1], run[i]);
    }
  }

  /** However the workers interleave: once all are done, the new list is the map. */
  lemma MapIsSequential<S, T>(src: seq<S>, f: S -> T, run: seq<MapState<T>>)
    requires |src| > 0 && MapRun(src, f, run)
    requires AllDone(|src|, run[|run| - 1].at, false)
    ensures |run[|run| - 1].dst| == |src|
    ensures forall j :: 0 <= j < |src| ==> run[|run| - 1].dst[j] == Some(f(src[j]))
  {
    var last := run[|run| - 1];
    MapRunKeeps(src, f, run, |run| - 1);
    forall j | 0 <= j < |src| ensures last.dst[j] == Some(f(src[j])) {
      ChunksPartition(|src|, j, false);
      var k := j / Per(|src|);
      assert In(j, ChunkOf(|src|, k, false)) && !Busy(|src|, k, last.at, false);
    }
  }

  // ---------- Reduce ----------

  function Fold<T>(f: (T, T) -> T, acc: T, xs: seq<T>): T {
    if xs == [] then acc else f(Fold(f, acc, xs[..|xs| - 1]), xs[|xs| - 1])
  }

  datatype ReduceState<T> = ReduceState(acc: seq<T>, at: seq<nat>)

  function ReduceInit<T>(n: nat, init: T): ReduceState<T>
    requires n > 0
  {
    ReduceState(seq(Workers(n), _ => init), seq(Workers(n), k requires k >= 0 => ChunkOf(n, k, true).lo))
  }

  ghost predicate ReduceStep<T>(src: seq<T>, f: (T, T) -> T, k: nat, s: ReduceState<T>, t: ReduceState<T>)
    requires |src| > 0
  {
    && Busy(|src|, k, s.at, true)
    && s.at[k] < |src| && k < |s.acc|
    && t == ReduceState(s.acc[k := f(s.acc[k], src[s.at[k]])], s.at[k := s.at[k] + 1])
  }

  ghost predicate ReduceMoves<T>(src: seq<T>, f: (T, T) -> T, s: ReduceState<T>, t: ReduceState<T>)
    requires |src| > 0
  {
    exists k :: ReduceStep(src, f, k, s, t)
  }

  ghost predicate ReduceRun<T>(src: seq<T>, init: T, f: (T, T) -> T, run: seq<ReduceState<T>>)
    requires |src| > 0
  {
    && run != [] && run[0] == ReduceInit(|src|, init)
    && forall i :: 0 <= i < |run| - 1 ==> ReduceMoves(src, f, run[i], run[i + 1])
  }

  ghost predicate ReduceInv<T>(src: seq<T>, init: T, f: (T, T) -> T, s: ReduceState<T>)
    requires |src| > 0
  {
    var n := |src|;
    && |s.acc| == Workers(n) && |s.at| == Workers(n)
    && forall k :: 0 <= k < |s.at| ==>
         && ChunkOf(n, k, true).lo <= s.at[k] <= ChunkOf(n, k, true).hi <= n
         && s.acc[k] == Fold(f, init, src[ChunkOf(n, k, true).lo..s.at[k]])
  }

  lemma ReduceKeeps<T>(src: seq<T>, init: T, f: (T, T) -> T, k: nat, s: ReduceState<T>, t: ReduceState<T>)
    requires |src| > 0 && ReduceInv(src, init, f, s) && ReduceStep(src, f, k, s, t)
    ensures ReduceInv(src, init, f, t)
  {
    var lo := ChunkOf(|src|, k, true).lo;
    FoldNext(src, lo, s.at[k], init, f);
  }

  lemma FoldNext<T>(src: seq<T>, lo: nat, i: nat, init: T, f: (T, T) -> T)
    requires lo <= i < |src|
    ensures Fold(f, init, src[lo..i + 1]) == f(Fold(f, init, src[lo..i]), src[i])
  {
    assert src[lo..i + 1][..i - lo] == src[lo..i];
  }

  lemma {:induction false} ReduceRunKeeps<T>(src: seq<T>, init: T, f: (T, T) -> T, run: seq<ReduceState<T>>, i: nat)
    requires |src| > 0 && ReduceRun(src, init, f, run) && i < |run|
    ensures ReduceInv(src, init, f, run[i])
  {
    if i == 0 {
      forall k: nat ensures ChunkOf(|src|, k, true).lo <= ChunkOf(|src|, k, true).hi <= |src| {
        ChunksInOrder(|src|, k);
      }
    } else {
      ReduceRunKeeps(src, init, f, run, i - 1);
      assert ReduceMoves(src, f, run[i - 1], run[i - 1 + 1]);
      var k :| ReduceStep(src, f, k, run[i - 1], run[i]);
      ReduceKeeps(src, init, f, k, run[i - 1], run[i]);
    }
  }

  /** What the caller makes of the workers' results: the first chunk's as it is, the
      others folded in, empty chunks passed over. */
  function Combine<T>(f: (T, T) -> T, init: T, chunks: seq<Chunk>, out: seq<T>): Option<T>
    requires |chunks| == |out|
  {
    if chunks == [] then None
    else
      var k := |chunks| - 1;
      var before := Combine(f, init, chunks[..k], out[..k]);
      if chunks[k].lo >= chunks[k].hi then before
      else if before == None then Some(out[k])
      else Some(f(before.value, out[k]))
  }

  method CombineLoop<T>(f: (T, T) -> T, init: T, chunks: seq<Chunk>, out: seq<T>) returns (acc: T)
    requires |chunks| == |out|
    ensures acc == match Combine(f, init, chunks, out) case Some(v) => v case None => init
  {
    acc := init;
    var first := true;
    for k := 0 to |chunks|
      invariant first == (Combine(f, init, chunks[..k], out[..k]) == None)
      invariant acc == match Combine(f, init, chunks[..k], out[..k]) case Some(v) => v case None => init
    {
      assert chunks[..k + 1][..k] == chunks[..k] && out[..k + 1][..k] == out[..k];
      if chunks[k].lo >= chunks[k].hi { continue; }
      if first {
        acc := out[k];
        first := false;
      } else {
        acc := f(acc, out[k]);
      }
    }
    assert chunks[..|chunks|] == chunks && out[..|out|] == out;
  }

  function ReduceChunks(n: nat, m: nat): (chunks: seq<Chunk>)
    requires n > 0
    ensures |chunks| == m && (forall k :: 0 <= k < m ==> chunks[k] == ChunkOf(n, k, true)) && InList(chunks, n)
  {
    assert forall k: nat :: ChunkOf(n, k, true).lo <= ChunkOf(n, k, true).hi <= n;
    seq(m, k requires k >= 0 => ChunkOf(n, k, true))
  }

  /** What a parallel reduce returns. */
  function ChunkedReduce<T>(src: seq<T>, init: T, f: (T, T) -> T): T {
    var n := |src|;
    if n == 0 then init
    else
      var chunks := ReduceChunks(n, Workers(n));
      match Combine(f, init, chunks, Outs(src, init, f, chunks))
      case Some(v) => v
      case None => init
  }

  function ChunkFold<T>(src: seq<T>, init: T, f: (T, T) -> T, c: Chunk): T
    requires c.lo <= c.hi <= |src|
  {
    Fold(f, init, src[c.lo..c.hi])
  }

  predicate InList(chunks: seq<Chunk>, n: nat) {
    forall k :: 0 <= k < |chunks| ==> chunks[k].lo <= chunks[k].hi <= n
  }

  /** What each worker brings back. */
  function Outs<T>(src: seq<T>, init: T, f: (T, T) -> T, chunks: seq<Chunk>): (out: seq<T>)
    requires InList(chunks, |src|)
    ensures |out| == |chunks| && forall k :: 0 <= k < |chunks| ==> out[k] == ChunkFold(src, init, f, chunks[k])
  {
    seq(|chunks|, k requires 0 <= k < |chunks| => ChunkFold(src, init, f, chunks[k]))
  }

  /** The order in which the workers run does not show in their results. */
  lemma ReduceIsDeterministic<T>(src: seq<T>, init: T, f: (T, T) -> T, run: seq<ReduceState<T>>)
    requires |src| > 0 && ReduceRun(src, init, f, run)
    requires AllDone(|src|, run[|run| - 1].at, true)
    ensures run[|run| - 1].acc == Outs(src, init, f, ReduceChunks(|src|, Workers(|src|)))
  {
    ReduceRunKeeps(src, init, f, run, |run| - 1);
    var last := run[|run| - 1];
    forall k | 0 <= k < |last.at| ensures last.acc[k] == Outs(src, init, f, ReduceChunks(|src|, Workers(|src|)))[k] {
      assert !Busy(|src|, k, last.at, true);
    }
  }

  ghost predicate Associative<T(!new)>(f: (T, T) -> T) {
    forall x, y, z :: f(f(x, y), z) == f(x, f(y, z))
  }

  /** Starting again from `init` in the middle of a product makes no difference. */
  ghost predicate Absorbs<T(!new)>(f: (T, T) -> T, init: T) {
    forall x, y :: f(f(f(init, x), init), y) == f(f(init, x), y)
  }

  lemma {:induction false} FoldSplit<T>(f: (T, T) -> T, acc: T, xs: seq<T>, ys: seq<T>)
    ensures Fold(f, acc, xs + ys) == Fold(f, Fold(f, acc, xs), ys)
  {
    if ys == [] {
      assert xs + ys == xs;
    } else {
      FoldSplit(f, acc, xs, ys[..|ys| - 1]);
      assert (xs + ys)[..|xs + ys| - 1] == xs + ys[..|ys| - 1];
    }
  }

  /** A fold pulls a left operand out, and a non-empty one starts with `init`. */
  lemma {:induction false} FoldFactors<T(!new)>(f: (T, T) -> T, a: T, b: T, xs: seq<T>)
    requires Associative(f)
    ensures f(a, Fold(f, b, xs)) == Fold(f, f(a, b), xs)
  {
    if xs != [] {
      FoldFactors(f, a, b, xs[..|xs| - 1]);
    }
  }

  lemma {:induction false} FoldIsProduct<T(!new)>(f: (T, T) -> T, init: T, xs: seq<T>) returns (x: T)
    requires Associative(f) && xs != []
    ensures Fold(f, init, xs) == f(init, x)
  {
    if |xs| == 1 {
      assert xs[..0] == [];
      x := xs[0];
    } else {
      var y := FoldIsProduct(f, init, xs[..|xs| - 1]);
      x := f(y, xs[|xs| - 1]);
    }
  }

  /** Joining two chunks' folds, for an operation that absorbs `init`. */
  lemma JoinFolds<T(!new)>(f: (T, T) -> T, init: T, xs: seq<T>, ys: seq<T>)
    requires Associative(f) && Absorbs(f, init) && xs != [] && ys != []
    ensures f(Fold(f, init, xs), Fold(f, init, ys)) == Fold(f, init, xs + ys)
  {
    FoldSplit(f, init, xs, ys);
    var a := Fold(f, init, xs);
    var p := FoldIsProduct(f, init, xs);
    var y := FoldIsProduct(f, init, ys);
    FoldFactors(f, a, init, ys);
    // f(a, init * y) = (a * init) * y = a * y
    SameStart(f, f(a, init), a, ys);
  }

  lemma {:induction false} SameStart<T(!new)>(f: (T, T) -> T, a: T, b: T, ys: seq<T>)
    requires ys != [] && f(a, ys[0]) == f(b, ys[0])
    ensures Fold(f, a, ys) == Fold(f, b, ys)
  {
    if |ys| == 1 {
      assert ys[..0] == [];
    } else {
      SameStart(f, a, b, ys[..|ys| - 1]);
    }
  }

  /** The chunks follow one another without gaps, from 0 to `hi`. */
  predicate Contiguous(chunks: seq<Chunk>, hi: nat) {
    if chunks == [] then hi == 0
    else
      var c := chunks[|chunks| - 1];
      c.lo <= c.hi == hi && Contiguous(chunks[..|chunks| - 1], c.lo)
  }

  lemma {:induction false} ReduceChunksContiguous(n: nat, m: nat, hi: nat)
    requires n > 0 && m > 0 && hi == ChunkOf(n, m - 1, true).hi
    ensures Contiguous(ReduceChunks(n, m), hi)
  {
    ChunksInOrder(n, m - 1);
    assert ReduceChunks(n, m)[..m - 1] == ReduceChunks(n, m - 1);
    if m > 1 {
      ChunksInOrder(n, m - 2);
      ReduceChunksContiguous(n, m - 1, ChunkOf(n, m - 2, true).hi);
    }
  }

  /** A fold up to `lo` and the one from there to `hi`, joined. */
  lemma JoinAt<T(!new)>(src: seq<T>, init: T, f: (T, T) -> T, lo: nat, hi: nat)
    requires 0 < lo < hi <= |src| && Associative(f) && Absorbs(f, init)
    ensures f(Fold(f, init, src[..lo]), Fold(f, init, src[lo..hi])) == Fold(f, init, src[..hi])
  {
    JoinFolds(f, init, src[..lo], src[lo..hi]);
    assert src[..lo] + src[lo..hi] == src[..hi];
  }

  /** Chunks without gaps, combined, are the fold of what they cover, whatever
      their sizes. */
  lemma {:induction false} CombineIsFold<T(!new)>(src: seq<T>, init: T, f: (T, T) -> T, chunks: seq<Chunk>, hi: nat)
    requires Associative(f) && Absorbs(f, init) && Contiguous(chunks, hi) && InList(chunks, |src|)
    ensures hi <= |src|
    ensures Combine(f, init, chunks, Outs(src, init, f, chunks)) == if hi == 0 then None
      else Some(Fold(f, init, src[..hi]))
  {
    if chunks != [] {
      var m := |chunks| - 1;
      var c := chunks[m];
      CombineIsFold(src, init, f, chunks[..m], c.lo);
      assert Outs(src, init, f, chunks)[..m] == Outs(src, init, f, chunks[..m]);
      if 0 < c.lo < c.hi {
        JoinAt(src, init, f, c.lo, c.hi);
      } else {
        assert src[0..c.hi] == src[..c.hi];
      }
    }
  }

  /** For an associative operation, the parallel reduce is the left fold on every
      list if and only if the operation absorbs `init`. */
  lemma ReduceRefinesFold<T(!new)>(init: T, f: (T, T) -> T)
    requires Associative(f)
    ensures (forall src: seq<T> :: ChunkedReduce(src, init, f) == Fold(f, init, src)) <==> Absorbs(f, init)
  {
    if Absorbs(f, init) {
      forall src: seq<T> ensures ChunkedReduce(src, init, f) == Fold(f, init, src) {
        if src != [] {
          var w := Workers(|src|);
          ChunksInOrder(|src|, w - 1);
          ReduceChunksContiguous(|src|, w, |src|);
          CombineIsFold(src, init, f, ReduceChunks(|src|, w), |src|);
          assert src[..|src|] == src;
        }
      }
    } else {
      var x, y :| f(f(f(init, x), init), y) != f(f(init, x), y);
      TwoElements(x, y, init, f);
    }
  }

  lemma FoldOne<T>(x: T, init: T, f: (T, T) -> T)
    ensures Fold(f, init, [x]) == f(init, x)
  {
    assert [x][..0] == [];
  }

  /** Two elements go to two workers. */
  lemma TwoElements<T>(x: T, y: T, init: T, f: (T, T) -> T)
    ensures ChunkedReduce([x, y], init, f) == f(f(init, x), f(init, y))
    ensures Fold(f, init, [x, y]) == f(f(init, x), y)
  {
    var src := [x, y];
    assert ChunkOf(2, 0, true) == Chunk(0, 1) && ChunkOf(2, 1, true) == Chunk(1, 2);
    assert src[0..1] == [x] && src[1..2] == [y] && src[..1] == [x];
    FoldOne(x, init, f);
    FoldOne(y, init, f);
    var chunks, out := [Chunk(0, 1), Chunk(1, 2)], [f(init, x), f(init, y)];
    assert Workers(2) == 2 && ReduceChunks(2, 2) == chunks;
    assert ChunkFold(src, init, f, chunks[0]) == Fold(f, init, [x]);
    assert ChunkFold(src, init, f, chunks[1]) == Fold(f, init, [y]);
    assert Outs(src, init, f, chunks) == out;
    assert chunks[..1] == [Chunk(0, 1)] && out[..1] == [f(init, x)];
    assert Combine(f, init, chunks[..1], out[..1]) == Some(f(init, x)) by {
      assert chunks[..1][..0] == [] && out[..1][..0] == [];
    }
  }

  /** A right identity absorbs, so sums from zero and products from one are safe. */
  lemma IdentityAbsorbs<T(!new)>(f: (T, T) -> T, init: T)
    requires forall x :: f(x, init) == x
    ensures Absorbs(f, init)
  {
  }

  /** Without associativity the two differ even for a start value of zero. */
  lemma SubtractionDiffers()
    ensures var minus := (x: int, y: int) => x - y;
      ChunkedReduce([1, 2], 0, minus) == 1 && Fold(minus, 0, [1, 2]) == -3
  {
    TwoElements(1, 2, 0, (x: int, y: int) => x - y);
  }

  /** Without the identity too: a start value of one is added once a worker. */
  lemma StartValueCountsTwice()
    ensures var plus := (x: int, y: int) => x + y;
      Associative(plus) && !Absorbs(plus, 1)
      && ChunkedReduce([1, 2], 1, plus) == 5 && Fold(plus, 1, [1, 2]) == 4
  {
    var plus := (x: int, y: int) => x + y;
    TwoElements(1, 2, 1, plus);
    assert plus(plus(plus(1, 0), 1), 0) != plus(plus(1, 0), 0);
  }
}
