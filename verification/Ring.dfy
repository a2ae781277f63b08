/** The ring buffer inside a channel of the native runtime.

    `Ring` is the value of the four buffer fields of a channel; `Channel` is the
    object whose fields the runtime updates in place while it holds the lock. */
module RingBuffer {

  datatype Ring = Ring(buf: seq<int>, head: nat, tail: nat, cnt: nat)

  predicate WellFormed(r: Ring) {
    && 0 < |r.buf|
    && r.head < |r.buf|
    && r.cnt <= |r.buf|
    && r.tail == (r.head + r.cnt) % |r.buf|
  }

  predicate IsFull(r: Ring) { r.cnt == |r.buf| }

  predicate IsEmpty(r: Ring) { r.cnt == 0 }

  /** The queued values, oldest first. */
  function Contents(r: Ring): (q: seq<int>)
    requires WellFormed(r)
  {
    seq(r.cnt, i requires 0 <= i < r.cnt => r.buf[(r.head + i) % |r.buf|])
  }

  /** Capacities below one are raised to one. */
  function Capacity(cap: int): nat { if cap < 1 then 1 else cap }

  function Make(cap: int): (r: Ring)
    ensures WellFormed(r) && Contents(r) == [] && |r.buf| == if cap < 1 then 1 else cap
  {
    Ring(seq(Capacity(cap), i => 0), 0, 0, 0)
  }

  function Put(r: Ring, v: int): Ring
    requires WellFormed(r) && !IsFull(r)
  {
    Ring(r.buf[r.tail := v], r.head, (r.tail + 1) % |r.buf|, r.cnt + 1)
  }

  function Take(r: Ring): (Ring, int)
    requires WellFormed(r) && !IsEmpty(r)
  {
    (Ring(r.buf, (r.head + 1) % |r.buf|, r.tail, r.cnt - 1), r.buf[r.head])
  }

  /** Below twice the modulus a remainder is the number itself or the number
      less one modulus. */
  lemma WrapOnce(x: nat, n: nat)
    requires x < 2 * n
    ensures x % n == if x < n then x else x - n
  {
    var q, m := x / n, x % n;
    assert x == q * n + m;
    if q >= 2 {
      Scale(2, q, n);
    } else if q <= 0 {
      Scale(q, 0, n);
    }
  }

  lemma Scale(a: int, b: int, n: nat)
    requires a <= b
    ensures a * n <= b * n
  {
    assert (b - a) * n >= 0;
  }

  /** A send appends at the back, a receive removes the front, and the ring
      invariant survives both. */
  lemma PutAppends(r: Ring, v: int)
    requires WellFormed(r) && !IsFull(r)
    ensures WellFormed(Put(r, v)) && Contents(Put(r, v)) == Contents(r) + [v]
  {
    var n := |r.buf|;
    var p := Put(r, v);
    WrapOnce(r.head + r.cnt, n);
    WrapOnce(r.head + r.cnt + 1, n);
    WrapOnce(r.tail + 1, n);
    assert WellFormed(p);
    forall i | 0 <= i < p.cnt
      ensures Contents(p)[i] == (Contents(r) + [v])[i]
    {
      WrapOnce(r.head + i, n);
    }
  }

  lemma TakeRemovesFront(r: Ring)
    requires WellFormed(r) && !IsEmpty(r)
    ensures WellFormed(Take(r).0) && Contents(r) == [Take(r).1] + Contents(Take(r).0)
  {
    var n := |r.buf|;
    var (t, v) := Take(r);
    WrapOnce(r.head + r.cnt, n);
    WrapOnce(r.head + 1, n);
    WrapOnce(t.head + t.cnt, n);
    assert WellFormed(t);
    forall i | 0 <= i < r.cnt
      ensures Contents(r)[i] == ([v] + Contents(t))[i]
    {
      WrapOnce(r.head + i, n);
      if i > 0 {
        WrapOnce(t.head + i - 1, n);
      }
    }
  }

  /** The channel object: the cells and the three indices that a sender or a
      receiver updates between taking and releasing the lock. */
  class Channel {
    var buf: array<int>
    var head: nat
    var tail: nat
    var cnt: nat
    var cap: nat

    ghost function View(): Ring
      reads this, buf
    {
      Ring(buf[..], head, tail, cnt)
    }

    ghost predicate Valid()
      reads this, buf
    {
      buf.Length == cap && WellFormed(View())
    }

    constructor (capacity: int)
      ensures Valid() && fresh(buf)
      ensures View() == Make(capacity)
    {
      var c := if capacity < 1 then 1 else capacity;
      cap := c;
      buf := new int[c](i => 0);
      head, tail, cnt := 0, 0, 0;
    }

    /** The locked part of a send: refuses a full ring, otherwise stores. */
    method TryPut(v: int) returns (stored: bool)
      requires Valid()
      modifies this`tail, this`cnt, buf
      ensures Valid()
      ensures stored == !IsFull(old(View()))
      ensures View() == if stored then Put(old(View()), v) else old(View())
      ensures Contents(View()) == old(Contents(View())) + if stored then [v] else []
    {
      ghost var r := View();
      if cnt == cap {
        return false;
      }
      PutAppends(r, v);
      buf[tail] := v;
      tail := (tail + 1) % cap;
      cnt := cnt + 1;
      assert View() == Put(r, v);
      return true;
    }

    /** The locked part of a receive: refuses an empty ring, otherwise removes
        the oldest value. */
    method TryTake() returns (taken: bool, v: int)
      requires Valid()
      modifies this`head, this`cnt
      ensures Valid()
      ensures taken == !IsEmpty(old(View()))
      ensures taken ==> (View(), v) == Take(old(View()))
      ensures !taken ==> View() == old(View())
      ensures old(Contents(View())) == (if taken then [v] else []) + Contents(View())
    {
      ghost var r := View();
      if cnt == 0 {
        return false, 0;
      }
      TakeRemovesFront(r);
      v := buf[head];
      head := (head + 1) % cap;
      cnt := cnt - 1;
      assert (View(), v) == Take(r);
      return true, v;
    }
  }
}
