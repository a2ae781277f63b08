/** What every step of the runtime keeps. */
module RuntimeInvariants {
  import opened Options
  import opened RingBuffer
  import opened Runtime

  // ---------- Locks and the registry ----------

  /** The channel whose lock a thread at `pc` holds. */
  function Held(s: State, pc: Pc): Option<nat> {
    match pc
    case Test(c, _) => Some(c)
    case Check(c, _) => Some(c)
    case Fail(c, _) => Some(c)
    case Wait(c, _) => Some(c)
    case Move(c, _) => Some(c)
    case Signal(c, _, _) => Some(c)
    case Release(c, _, _) => Some(c)
    case WakeSenders(i) => if i < |s.slots| then Some(s.slots[i]) else None
    case WakeReceivers(i) => if i < |s.slots| then Some(s.slots[i]) else None
    case BcastUnlock(i) => if i < |s.slots| then Some(s.slots[i]) else None
    case _ => None
  }

  /** A lock is recorded as taken by exactly the thread whose code holds it. */
  ghost predicate Mutex(s: State) {
    && (forall t :: 0 <= t < |s.tasks| ==>
          var h := Held(s, s.tasks[t].pc);
          h.Some? ==> h.value < |s.chans| && s.chans[h.value].mu == Some(t))
    && (forall c :: 0 <= c < |s.chans| && s.chans[c].mu.Some? ==>
          s.chans[c].mu.value < |s.tasks| && Held(s, s.tasks[s.chans[c].mu.value].pc) == Some(c))
  }

  /** The channel a thread is still registering, before the count covers it. */
  function Pending(pc: Pc): Option<nat> {
    match pc
    case MakeLock(c) => Some(c)
    case MakeStore(c) => Some(c)
    case MakeCount(c) => Some(c)
    case _ => None
  }

  predicate InRegistry(pc: Pc) { pc.MakeStore? || pc.MakeCount? || pc.MakeUnlock? }

  ghost predicate SlotsOk(s: State) {
    && s.nchans <= |s.slots|
    && (forall j :: 0 <= j < |s.slots| ==> s.slots[j] < |s.chans|)
    && (forall i, j :: 0 <= i < j < s.nchans ==> s.slots[i] != s.slots[j])
  }

  ghost predicate PcOk(s: State, t: nat)
    requires t < |s.tasks| && SlotsOk(s)
  {
    var pc := s.tasks[t].pc;
    && (IsOp(pc) || pc.MakeUnlock? ==> Published(s, pc.c))
    && (Pending(pc).Some? ==> Pending(pc).value < |s.chans| && !Published(s, Pending(pc).value))
    && (InRegistry(pc) ==> s.reg == Some(t))
    && (pc.MakeCount? ==> s.nchans < |s.slots| && s.slots[s.nchans] == pc.c)
    && (pc.Bcast? ==> pc.i <= s.nchans)
    && (pc.WakeSenders? || pc.WakeReceivers? || pc.BcastUnlock? ==> pc.i < s.nchans)
  }

  ghost predicate Registry(s: State) {
    && SlotsOk(s)
    && (forall t :: 0 <= t < |s.tasks| ==> PcOk(s, t))
    && (forall t, u :: 0 <= t < u < |s.tasks| && Pending(s.tasks[t].pc).Some? ==>
          Pending(s.tasks[t].pc) != Pending(s.tasks[u].pc))
  }

  /** What a step of thread `t` does to everything else: other threads keep
      their records, except that sleepers may be woken; channels, registry
      entries and cancellations are never taken back. */
  ghost predicate Frame(s: State, t: nat, s': State) {
    && |s.tasks| <= |s'.tasks|
    && (forall u :: 0 <= u < |s.tasks| && u != t ==>
          || s'.tasks[u] == s.tasks[u]
          || (s.tasks[u].pc.Asleep? &&
              s'.tasks[u] == s.tasks[u].(pc := Woken(s.tasks[u].pc.c, s.tasks[u].pc.op))))
    && (forall u :: |s.tasks| <= u < |s'.tasks| ==>
          s'.tasks[u].pc == Running && s'.tasks[u].state == 0 && s'.tasks[u].log == [])
    && |s.chans| <= |s'.chans|
    && s.nchans <= s'.nchans
    && s.cancelled <= s'.cancelled
    && (s.nchans <= |s.slots| ==> s.nchans <= |s'.slots| && s.slots[..s.nchans] == s'.slots[..s.nchans])
  }

  lemma FrameRunning(s: State, t: nat, ch: Choice)
    requires t < |s.tasks| && StepRunning(s, t, ch).Some?
    ensures Frame(s, t, StepRunning(s, t, ch).value)
  {
  }

  lemma FrameOp(s: State, t: nat)
    requires t < |s.tasks| && StepOp(s, t).Some?
    ensures Frame(s, t, StepOp(s, t).value)
  {
    hide Put, Take, IsFull, IsEmpty, WellFormed;
  }

  lemma FrameMake(s: State, t: nat)
    requires t < |s.tasks| && StepMake(s, t).Some?
    ensures Frame(s, t, StepMake(s, t).value)
  {
  }

  lemma FramePanic(s: State, t: nat)
    requires t < |s.tasks| && StepPanic(s, t).Some?
    ensures Frame(s, t, StepPanic(s, t).value)
  {
  }

  lemma StepFrame(s: State, t: nat, ch: Choice)
    requires Step(s, t, ch).Some?
    ensures Frame(s, t, Step(s, t, ch).value)
    ensures t < |s.tasks|
  {
    var pc := s.tasks[t].pc;
    if pc.Running? {
      FrameRunning(s, t, ch);
    } else if IsOp(pc) {
      FrameOp(s, t);
    } else if IsMake(pc) {
      FrameMake(s, t);
    } else if IsPanic(pc) {
      FramePanic(s, t);
    }
  }

  lemma PublishedStays(s: State, t: nat, s': State, c: nat)
    requires Frame(s, t, s') && s.nchans <= |s.slots| && s'.nchans <= |s'.slots| && Published(s, c)
    ensures Published(s', c)
  {
    assert s'.slots[..s'.nchans][..s.nchans] == s.slots[..s.nchans];
  }

  /** Only the registry steps touch the slots and their count. */
  lemma SlotsSame(s: State, t: nat, ch: Choice)
    requires Step(s, t, ch).Some? && t < |s.tasks| && !IsMake(s.tasks[t].pc)
    ensures Step(s, t, ch).value.slots == s.slots && Step(s, t, ch).value.nchans == s.nchans
    ensures Step(s, t, ch).value.reg == s.reg && |s.chans| <= |Step(s, t, ch).value.chans|
  {
  }

  lemma SlotsMake(s: State, t: nat)
    requires Registry(s) && t < |s.tasks| && StepMake(s, t).Some?
    ensures SlotsOk(StepMake(s, t).value)
  {
    assert PcOk(s, t);
  }

  lemma SlotsStep(s: State, t: nat, ch: Choice)
    requires Registry(s) && Step(s, t, ch).Some?
    ensures SlotsOk(Step(s, t, ch).value)
  {
    if IsMake(s.tasks[t].pc) {
      SlotsMake(s, t);
    } else {
      SlotsSame(s, t, ch);
    }
  }

  /** How a step of `t` changes the registry and its lock. */
  ghost predicate RegistryEffect(s: State, t: nat, s': State)
    requires t < |s.tasks| && t < |s'.tasks| && s.nchans <= |s.slots|
  {
    var pc, pc' := s.tasks[t].pc, s'.tasks[t].pc;
    && (s.reg.Some? && s.reg != Some(t) ==> s'.reg == s.reg && !InRegistry(pc'))
    && (InRegistry(pc') ==> s'.reg == Some(t))
    && (s'.slots == s.slots || pc.MakeStore?)
    && (s'.nchans == s.nchans || (pc.MakeCount? && s'.nchans == s.nchans + 1))
    && (Pending(pc').Some? ==> Pending(pc') == Pending(pc) || Pending(pc') == Some(|s.chans|))
    && (Pending(pc).Some? && pc'.MakeUnlock? ==> Pending(pc) == Some(pc.c))
    && (Pending(pc').Some? && Pending(pc).None? ==> pc'.MakeLock? && |s.chans| < |s'.chans|)
  }

  lemma RegistryEffectMake(s: State, t: nat)
    requires Registry(s) && t < |s.tasks| && StepMake(s, t).Some? && t < |StepMake(s, t).value.tasks|
    ensures RegistryEffect(s, t, StepMake(s, t).value)
  {
    assert PcOk(s, t);
  }

  lemma PendingOutside(s: State, t: nat, ch: Choice)
    requires Step(s, t, ch).Some? && t < |s.tasks| && t < |Step(s, t, ch).value.tasks| && !IsMake(s.tasks[t].pc)
    ensures var pc' := Step(s, t, ch).value.tasks[t].pc;
      IsMake(pc') ==> pc' == MakeLock(|s.chans|) && |s.chans| < |Step(s, t, ch).value.chans|
  {
    if IsOp(s.tasks[t].pc) {
      PendingOp(s, t);
    } else if IsPanic(s.tasks[t].pc) {
      PendingPanic(s, t);
    }
  }

  lemma PendingOp(s: State, t: nat)
    requires t < |s.tasks| && StepOp(s, t).Some? && t < |StepOp(s, t).value.tasks|
    ensures !IsMake(StepOp(s, t).value.tasks[t].pc)
  {
  }

  lemma PendingPanic(s: State, t: nat)
    requires t < |s.tasks| && StepPanic(s, t).Some? && t < |StepPanic(s, t).value.tasks|
    ensures !IsMake(StepPanic(s, t).value.tasks[t].pc)
  {
  }

  lemma RegistryEffectStep(s: State, t: nat, ch: Choice)
    requires Registry(s) && Step(s, t, ch).Some?
    requires t < |s.tasks| && t < |Step(s, t, ch).value.tasks|
    ensures RegistryEffect(s, t, Step(s, t, ch).value)
  {
    if IsMake(s.tasks[t].pc) {
      RegistryEffectMake(s, t);
    } else {
      SlotsSame(s, t, ch);
      PendingOutside(s, t, ch);
    }
  }

  lemma OwnPcOp(s: State, t: nat)
    requires Registry(s) && t < |s.tasks| && IsOp(s.tasks[t].pc) && StepOp(s, t).Some?
    ensures SlotsOk(StepOp(s, t).value) && PcOk(StepOp(s, t).value, t)
  {
    assert PcOk(s, t);
    assert StepOp(s, t).value.slots == s.slots && StepOp(s, t).value.nchans == s.nchans;
  }

  lemma OwnPcMake(s: State, t: nat)
    requires Registry(s) && t < |s.tasks| && IsMake(s.tasks[t].pc) && StepMake(s, t).Some?
    ensures SlotsOk(StepMake(s, t).value) && PcOk(StepMake(s, t).value, t)
  {
    hide Make, WellFormed, Put, Take, Capacity;
    assert PcOk(s, t);
    var s' := StepMake(s, t).value;
    if s.tasks[t].pc.MakeStore? {
      assert s'.slots[..s.nchans] == s.slots[..s.nchans];
    }
  }

  lemma OwnPcStep(s: State, t: nat, ch: Choice)
    requires Registry(s) && Step(s, t, ch).Some?
    ensures SlotsOk(Step(s, t, ch).value) && PcOk(Step(s, t, ch).value, t)
  {
    SlotsStep(s, t, ch);
    assert PcOk(s, t);
    var pc := s.tasks[t].pc;
    if IsOp(pc) {
      OwnPcOp(s, t);
    } else if IsMake(pc) {
      OwnPcMake(s, t);
    } else if IsPanic(pc) {
      OwnPcPanic(s, t);
    }
  }

  /** The broadcast visits the registry in order. */
  lemma PanicPath(s: State, t: nat)
    requires t < |s.tasks| && StepPanic(s, t).Some?
    ensures |StepPanic(s, t).value.tasks| == |s.tasks| && |StepPanic(s, t).value.chans| == |s.chans|
    ensures StepPanic(s, t).value.slots == s.slots && StepPanic(s, t).value.nchans == s.nchans
    ensures StepPanic(s, t).value.reg == s.reg
    ensures var pc, pc' := s.tasks[t].pc, StepPanic(s, t).value.tasks[t].pc;
      && (pc.Mark? ==> pc' == Cancel)
      && (pc.Cancel? ==> pc' == Bcast(0))
      && (pc.Bcast? ==> pc' == if s.nchans <= pc.i then Ended else WakeSenders(pc.i))
      && (pc.WakeSenders? ==> pc' == WakeReceivers(pc.i))
      && (pc.WakeReceivers? ==> pc' == BcastUnlock(pc.i))
      && (pc.BcastUnlock? ==> pc' == Bcast(pc.i + 1))
  {
  }

  lemma OwnPcPanic(s: State, t: nat)
    requires Registry(s) && t < |s.tasks| && IsPanic(s.tasks[t].pc) && StepPanic(s, t).Some?
    ensures SlotsOk(StepPanic(s, t).value) && PcOk(StepPanic(s, t).value, t)
  {
    assert PcOk(s, t);
    PanicPath(s, t);
  }

  lemma OtherPcStep(s: State, t: nat, s': State, u: nat)
    requires Registry(s) && Frame(s, t, s') && SlotsOk(s')
    requires t < |s.tasks| && RegistryEffect(s, t, s')
    requires u != t && u < |s'.tasks|
    ensures PcOk(s', u)
  {
    if u < |s.tasks| {
      assert PcOk(s, u) && PcOk(s, t);
      var pc := s.tasks[u].pc;
      if IsOp(pc) {
        PublishedStays(s, t, s', pc.c);
      } else if Pending(pc).Some? {
        assert Pending(pc) != Pending(s.tasks[t].pc);
        if s'.nchans != s.nchans {
          assert s'.slots[..s'.nchans] == s.slots[..s.nchans] + [s.slots[s.nchans]];
        }
      }
    }
  }

  lemma RegistryStep(s: State, t: nat, ch: Choice)
    requires Registry(s) && Step(s, t, ch).Some?
    ensures Registry(Step(s, t, ch).value)
  {
    var s' := Step(s, t, ch).value;
    SlotsStep(s, t, ch);
    StepFrame(s, t, ch);
    RegistryEffectStep(s, t, ch);
    OwnPcStep(s, t, ch);
    RegistryFrom(s, t, s');
  }

  lemma RegistryFrom(s: State, t: nat, s': State)
    requires Registry(s) && Frame(s, t, s') && SlotsOk(s')
    requires t < |s.tasks| && RegistryEffect(s, t, s') && PcOk(s', t)
    ensures Registry(s')
  {
    forall u | 0 <= u < |s'.tasks|
      ensures PcOk(s', u)
    {
      if u != t { OtherPcStep(s, t, s', u); }
    }
    forall u, w | 0 <= u < w < |s'.tasks| && Pending(s'.tasks[u].pc).Some?
      ensures Pending(s'.tasks[u].pc) != Pending(s'.tasks[w].pc)
    {
      if w < |s.tasks| {
        assert PcOk(s, u) && PcOk(s, w);
      }
    }
  }

  /** A step takes at most one lock and drops at most one. */
  ghost predicate LockEffect(s: State, t: nat, s': State)
    requires t < |s.tasks| && t < |s'.tasks| && |s.chans| <= |s'.chans|
  {
    var h, h' := Held(s, s.tasks[t].pc), Held(s', s'.tasks[t].pc);
    && (h'.Some? ==> h'.value < |s'.chans|)
    && (h'.Some? && h' != h ==> h'.value < |s.chans| && s.chans[h'.value].mu.None?)
    && (forall c :: 0 <= c < |s'.chans| ==>
          s'.chans[c].mu ==
            if h' == Some(c) then Some(t)
            else if h == Some(c) || |s.chans| <= c then None
            else s.chans[c].mu)
  }

  predicate HoldsOwn(s: State, t: nat)
    requires t < |s.tasks|
  {
    var h := Held(s, s.tasks[t].pc);
    h.Some? ==> h.value < |s.chans| && s.chans[h.value].mu == Some(t)
  }

  predicate PanicIndexOk(s: State, t: nat)
    requires t < |s.tasks|
  {
    var pc := s.tasks[t].pc;
    && s.nchans <= |s.slots|
    && (pc.WakeSenders? || pc.WakeReceivers? || pc.BcastUnlock? ==> pc.i < |s.slots|)
  }

  lemma LockEffectRunning(s: State, t: nat, ch: Choice)
    requires t < |s.tasks| && HoldsOwn(s, t) && PanicIndexOk(s, t) && StepRunning(s, t, ch).Some?
    requires s.tasks[t].pc.Running?
    requires |s.tasks| <= |StepRunning(s, t, ch).value.tasks| && |s.chans| <= |StepRunning(s, t, ch).value.chans|
    ensures LockEffect(s, t, StepRunning(s, t, ch).value)
  {
  }

  lemma LockEffectOp(s: State, t: nat)
    requires t < |s.tasks| && HoldsOwn(s, t) && PanicIndexOk(s, t) && StepOp(s, t).Some?
    requires |s.tasks| <= |StepOp(s, t).value.tasks| && |s.chans| <= |StepOp(s, t).value.chans|
    ensures LockEffect(s, t, StepOp(s, t).value)
  {
    var s' := StepOp(s, t).value;
    match s.tasks[t].pc
    case Lock(c, op) =>
    case Woken(c, op) =>
    case Test(c, op) =>
    case Check(c, op) =>
    case Fail(c, op) =>
    case Wait(c, op) =>
    case Asleep(c, op) =>
    case Move(c, op) =>
    case Signal(c, op, got) => assert s'.chans == s.chans;
    case Release(c, op, got) =>
  }

  lemma LockEffectMake(s: State, t: nat)
    requires t < |s.tasks| && HoldsOwn(s, t) && PanicIndexOk(s, t) && StepMake(s, t).Some?
    requires |s.tasks| <= |StepMake(s, t).value.tasks| && |s.chans| <= |StepMake(s, t).value.chans|
    ensures LockEffect(s, t, StepMake(s, t).value)
  {
  }

  lemma LockEffectPanic(s: State, t: nat)
    requires t < |s.tasks| && HoldsOwn(s, t) && PanicIndexOk(s, t) && StepPanic(s, t).Some?
    requires |s.tasks| <= |StepPanic(s, t).value.tasks| && |s.chans| <= |StepPanic(s, t).value.chans|
    ensures LockEffect(s, t, StepPanic(s, t).value)
  {
    var s' := StepPanic(s, t).value;
    match s.tasks[t].pc
    case Mark =>
    case Cancel =>
    case Bcast(i) =>
    case WakeSenders(i) => assert s'.chans == s.chans && s'.slots == s.slots;
    case WakeReceivers(i) => assert s'.chans == s.chans && s'.slots == s.slots;
    case BcastUnlock(i) => 
  }

  lemma LockEffectStep(s: State, t: nat, ch: Choice)
    requires Registry(s) && Mutex(s) && Step(s, t, ch).Some?
    ensures Frame(s, t, Step(s, t, ch).value) && t < |s.tasks|
    ensures LockEffect(s, t, Step(s, t, ch).value)
  {
    StepFrame(s, t, ch);
    assert PcOk(s, t);
    var pc := s.tasks[t].pc;
    if pc.Running? {
      LockEffectRunning(s, t, ch);
    } else if IsOp(pc) {
      LockEffectOp(s, t);
    } else if IsMake(pc) {
      LockEffectMake(s, t);
    } else if IsPanic(pc) {
      LockEffectPanic(s, t);
    }
  }

  lemma MutexStep(s: State, t: nat, ch: Choice)
    requires Registry(s) && Mutex(s) && Step(s, t, ch).Some?
    ensures Mutex(Step(s, t, ch).value)
  {
    var s' := Step(s, t, ch).value;
    LockEffectStep(s, t, ch);
    RegistryStep(s, t, ch);
    MutexFrom(s, t, s');
  }

  lemma HeldStays(s: State, t: nat, s': State, u: nat)
    requires Registry(s) && Frame(s, t, s') && u < |s.tasks| && u != t
    ensures Held(s', s'.tasks[u].pc) == Held(s, s.tasks[u].pc)
  {
    assert PcOk(s, u);
    var pc := s.tasks[u].pc;
    if pc.WakeSenders? || pc.WakeReceivers? || pc.BcastUnlock? {
      assert s'.slots[..s.nchans][pc.i] == s.slots[..s.nchans][pc.i];
    }
  }

  lemma MutexFrom(s: State, t: nat, s': State)
    requires Registry(s) && Mutex(s) && Frame(s, t, s')
    requires t < |s.tasks| && LockEffect(s, t, s')
    ensures Mutex(s')
  {
    forall u | 0 <= u < |s.tasks| && u != t
      ensures Held(s', s'.tasks[u].pc) == Held(s, s.tasks[u].pc)
    {
      HeldStays(s, t, s', u);
    }
  }

  // ---------- Queues and per-thread ledgers ----------

  function Vals(ms: seq<Msg>): seq<int> { seq(|ms|, i requires 0 <= i < |ms| => ms[i].v) }

  /** What `who` sent (or received), in order. */
  function By(ms: seq<Msg>, who: nat): seq<int> {
    if ms == [] then []
    else By(ms[..|ms| - 1], who) + if ms[|ms| - 1].who == who then [ms[|ms| - 1].v] else []
  }

  /** The values of the sends on `c` that reported success. */
  function SentOn(log: seq<Event>, c: nat): seq<int> {
    if log == [] then []
    else
      var e := log[|log| - 1];
      SentOn(log[..|log| - 1], c) + if e.Sent? && e.c == c then [e.v] else []
  }

  function ReceivedOn(log: seq<Event>, c: nat): seq<int> {
    if log == [] then []
    else
      var e := log[|log| - 1];
      ReceivedOn(log[..|log| - 1], c) + if e.Received? && e.c == c then [e.v] else []
  }

  lemma Appending(ms: seq<Msg>, m: Msg, log: seq<Event>, e: Event, who: nat, c: nat)
    ensures Vals(ms + [m]) == Vals(ms) + [m.v]
    ensures By(ms + [m], who) == By(ms, who) + if m.who == who then [m.v] else []
    ensures SentOn(log + [e], c) == SentOn(log, c) + if e.Sent? && e.c == c then [e.v] else []
    ensures ReceivedOn(log + [e], c) == ReceivedOn(log, c) + if e.Received? && e.c == c then [e.v] else []
  {
    assert (ms + [m])[..|ms|] == ms;
    assert (log + [e])[..|log|] == log;
  }

  /** A value already moved by a call that has not returned yet. */
  function InFlight(pc: Pc, c: nat, send: bool): seq<int> {
    if (pc.Signal? || pc.Release?) && pc.c == c && pc.op.Send? == send then [pc.got] else []
  }

  /** Everything accepted has been delivered or is still queued, in order. */
  ghost predicate QueueOk(ch: Chan) {
    WellFormed(ch.ring) && Vals(ch.accepted) == Vals(ch.delivered) + Contents(ch.ring)
  }

  ghost predicate Queues(s: State) {
    forall c :: 0 <= c < |s.chans| ==> QueueOk(s.chans[c])
  }

  function Accepted(s: State, c: nat): seq<Msg> { if c < |s.chans| then s.chans[c].accepted else [] }

  function Delivered(s: State, c: nat): seq<Msg> { if c < |s.chans| then s.chans[c].delivered else [] }

  function LogOf(s: State, t: nat): seq<Event> { if t < |s.tasks| then s.tasks[t].log else [] }

  function PcOf(s: State, t: nat): Pc { if t < |s.tasks| then s.tasks[t].pc else Running }

  /** Thread `t` has exactly the sends and receives on `c` that it was told of,
      plus the one it is about to be told of. */
  ghost predicate LedgerOk(s: State, t: nat, c: nat) {
    Row(Accepted(s, c), Delivered(s, c), LogOf(s, t), PcOf(s, t), t, c)
  }

  predicate Row(accepted: seq<Msg>, delivered: seq<Msg>, log: seq<Event>, pc: Pc, t: nat, c: nat) {
    && By(accepted, t) == SentOn(log, c) + InFlight(pc, c, true)
    && By(delivered, t) == ReceivedOn(log, c) + InFlight(pc, c, false)
  }

  ghost predicate Ledgers(s: State) {
    forall t: nat, c: nat :: LedgerOk(s, t, c)
  }

  /** Between the test and the move the answer of the test stays true. */
  ghost predicate Movers(s: State) {
    forall t :: 0 <= t < |s.tasks| && s.tasks[t].pc.Move? ==>
      var pc := s.tasks[t].pc;
      pc.c < |s.chans| && !Blocked(s.chans[pc.c].ring, pc.op)
  }

  predicate SameData(a: Chan, b: Chan) {
    a.ring == b.ring && a.accepted == b.accepted && a.delivered == b.delivered
  }

  /** Only a thread at `Move` on a channel changes the data of that channel. */
  ghost predicate DataEffect(s: State, t: nat, s': State)
    requires t < |s.tasks| && |s.chans| <= |s'.chans|
  {
    var pc := s.tasks[t].pc;
    && (forall c :: 0 <= c < |s.chans| && !(pc.Move? && pc.c == c) ==> SameData(s.chans[c], s'.chans[c]))
    && (forall c :: |s.chans| <= c < |s'.chans| ==>
          QueueOk(s'.chans[c]) && s'.chans[c].accepted == [] && s'.chans[c].delivered == [])
  }

  lemma DataEffectOp(s: State, t: nat)
    requires t < |s.tasks| && StepOp(s, t).Some? && |StepOp(s, t).value.chans| == |s.chans|
    ensures DataEffect(s, t, StepOp(s, t).value)
  {
  }

  lemma DataEffectPanic(s: State, t: nat)
    requires t < |s.tasks| && StepPanic(s, t).Some? && |StepPanic(s, t).value.chans| == |s.chans|
    ensures DataEffect(s, t, StepPanic(s, t).value)
  {
  }

  lemma DataEffectStep(s: State, t: nat, ch: Choice)
    requires Step(s, t, ch).Some?
    ensures Frame(s, t, Step(s, t, ch).value) && t < |s.tasks|
    ensures DataEffect(s, t, Step(s, t, ch).value)
  {
    StepFrame(s, t, ch);
    var pc := s.tasks[t].pc;
    var s' := Step(s, t, ch).value;
    if IsOp(pc) {
      assert |s'.chans| == |s.chans|;
      DataEffectOp(s, t);
    } else if IsPanic(pc) {
      assert |s'.chans| == |s.chans|;
      DataEffectPanic(s, t);
    }
  }

  /** What a step at `Move` does to its channel. */
  ghost predicate MoveEffect(s: State, t: nat, s': State)
    requires t < |s.tasks| && t < |s'.tasks|
  {
    var pc := s.tasks[t].pc;
    pc.Move? ==>
      && pc.c < |s.chans| <= |s'.chans|
      && WellFormed(s.chans[pc.c].ring) && !Blocked(s.chans[pc.c].ring, pc.op)
      && s'.tasks[t].pc.Signal? && s'.tasks[t].pc.c == pc.c && s'.tasks[t].pc.op == pc.op
      && s'.tasks[t].log == s.tasks[t].log
      && var ch, ch', m := s.chans[pc.c], s'.chans[pc.c], Msg(t, s'.tasks[t].pc.got);
         if pc.op.Send? then
           && ch'.ring == Put(ch.ring, m.v) && m.v == pc.op.val
           && ch'.accepted == ch.accepted + [m] && ch'.delivered == ch.delivered
         else
           && (ch'.ring, m.v) == Take(ch.ring)
           && ch'.accepted == ch.accepted && ch'.delivered == ch.delivered + [m]
  }

  lemma MoveEffectStep(s: State, t: nat, ch: Choice)
    requires Step(s, t, ch).Some? && t < |s.tasks| && t < |Step(s, t, ch).value.tasks|
    ensures MoveEffect(s, t, Step(s, t, ch).value)
  {
  }

  lemma QueuesStep(s: State, t: nat, ch: Choice)
    requires Queues(s) && Step(s, t, ch).Some?
    ensures Queues(Step(s, t, ch).value)
  {
    var s' := Step(s, t, ch).value;
    DataEffectStep(s, t, ch);
    MoveEffectStep(s, t, ch);
    QueuesFrom(s, t, s');
  }

  lemma QueuesFrom(s: State, t: nat, s': State)
    requires Queues(s) && Frame(s, t, s') && t < |s.tasks|
    requires DataEffect(s, t, s') && MoveEffect(s, t, s')
    ensures Queues(s')
  {
    forall c | 0 <= c < |s'.chans|
      ensures QueueOk(s'.chans[c])
    {
      var pc := s.tasks[t].pc;
      if c < |s.chans| && pc.Move? && pc.c == c {
        var was, m := s.chans[c], Msg(t, s'.tasks[t].pc.got);
        if pc.op.Send? {
          PutAppends(was.ring, m.v);
          Appending(was.accepted, m, [], Made(0), 0, 0);
        } else {
          TakeRemovesFront(was.ring);
          Appending(was.delivered, m, [], Made(0), 0, 0);
        }
      }
    }
  }

  /** How the log of the moving thread and its value in flight change. */
  ghost predicate LogEffect(s: State, t: nat, s': State)
    requires t < |s.tasks| && t < |s'.tasks|
  {
    var a, b := s.tasks[t], s'.tasks[t];
    && (a.pc.Release? ==>
          b.log == a.log + [if a.pc.op.Send? then Sent(a.pc.c, a.pc.got) else Received(a.pc.c, a.pc.got)]
          && b.pc.Running?)
    && (!a.pc.Release? && !a.pc.Move? ==>
          && (b.log == a.log || (|b.log| == |a.log| + 1 && b.log == a.log + [b.log[|a.log|]] &&
                                 !b.log[|a.log|].Sent? && !b.log[|a.log|].Received?))
          && (a.pc.Signal? ==> b.pc == Release(a.pc.c, a.pc.op, a.pc.got))
          && (!a.pc.Signal? ==> !b.pc.Signal? && !b.pc.Release?))
  }

  lemma LogEffectOp(s: State, t: nat)
    requires t < |s.tasks| && StepOp(s, t).Some? && t < |StepOp(s, t).value.tasks|
    ensures LogEffect(s, t, StepOp(s, t).value)
  {
  }

  lemma LogEffectRunning(s: State, t: nat, ch: Choice)
    requires t < |s.tasks| && s.tasks[t].pc.Running? && StepRunning(s, t, ch).Some?
    requires t < |StepRunning(s, t, ch).value.tasks|
    ensures LogEffect(s, t, StepRunning(s, t, ch).value)
  {
  }

  lemma LogEffectMake(s: State, t: nat)
    requires t < |s.tasks| && IsMake(s.tasks[t].pc) && StepMake(s, t).Some? && t < |StepMake(s, t).value.tasks|
    ensures LogEffect(s, t, StepMake(s, t).value)
  {
  }

  lemma LogEffectPanic(s: State, t: nat)
    requires t < |s.tasks| && IsPanic(s.tasks[t].pc) && StepPanic(s, t).Some? && t < |StepPanic(s, t).value.tasks|
    ensures LogEffect(s, t, StepPanic(s, t).value)
  {
  }

  lemma LogEffectJoin(s: State, t: nat)
    requires t < |s.tasks| && StepJoin(s, t).Some? && t < |StepJoin(s, t).value.tasks|
    ensures LogEffect(s, t, StepJoin(s, t).value)
  {
  }

  lemma LogEffectRest(s: State, t: nat, ch: Choice)
    requires Step(s, t, ch).Some? && t < |s.tasks| && t < |Step(s, t, ch).value.tasks| && !IsOp(s.tasks[t].pc)
    ensures LogEffect(s, t, Step(s, t, ch).value)
  {
    hide StepRunning, StepMake, StepPanic, StepJoin, LogEffect;
    if s.tasks[t].pc.Running? {
      LogEffectRunning(s, t, ch);
    } else if IsMake(s.tasks[t].pc) {
      LogEffectMake(s, t);
    } else if IsPanic(s.tasks[t].pc) {
      LogEffectPanic(s, t);
    } else {
      LogEffectJoin(s, t);
    }
  }

  lemma LogEffectStep(s: State, t: nat, ch: Choice)
    requires Step(s, t, ch).Some? && t < |s.tasks| && t < |Step(s, t, ch).value.tasks|
    ensures LogEffect(s, t, Step(s, t, ch).value)
  {
    if IsOp(s.tasks[t].pc) {
      LogEffectOp(s, t);
    } else {
      LogEffectRest(s, t, ch);
    }
  }

  lemma LedgersStep(s: State, t: nat, ch: Choice)
    requires Registry(s) && Ledgers(s) && Step(s, t, ch).Some?
    ensures Ledgers(Step(s, t, ch).value)
  {
    var s' := Step(s, t, ch).value;
    DataEffectStep(s, t, ch);
    MoveEffectStep(s, t, ch);
    LogEffectStep(s, t, ch);
    forall u: nat, c: nat
      ensures LedgerOk(s', u, c)
    {
      LedgerFrom(s, t, s', u, c);
    }
  }

  /** The ledger of a thread that did not move. */
  lemma OtherLedger(s: State, t: nat, s': State, u: nat, c: nat)
    requires Registry(s) && LedgerOk(s, u, c) && Frame(s, t, s') && t < |s.tasks| && u != t
    requires DataEffect(s, t, s') && MoveEffect(s, t, s') && LogEffect(s, t, s')
    ensures LedgerOk(s', u, c)
  {
    hide Registry, WellFormed;
    var pc := s.tasks[t].pc;
    assert LogOf(s', u) == LogOf(s, u);
    assert InFlight(PcOf(s', u), c, true) == InFlight(PcOf(s, u), c, true);
    assert InFlight(PcOf(s', u), c, false) == InFlight(PcOf(s, u), c, false);
    if pc.Move? && pc.c == c {
      var m := Msg(t, s'.tasks[t].pc.got);
      Appending(s.chans[c].accepted, m, [], Made(0), u, c);
      Appending(s.chans[c].delivered, m, [], Made(0), u, c);
    } else {
      assert Accepted(s', c) == Accepted(s, c) && Delivered(s', c) == Delivered(s, c);
    }
  }

  lemma LedgerFrom(s: State, t: nat, s': State, u: nat, c: nat)
    requires Registry(s) && Ledgers(s) && Frame(s, t, s') && t < |s.tasks|
    requires DataEffect(s, t, s') && MoveEffect(s, t, s') && LogEffect(s, t, s')
    ensures LedgerOk(s', u, c)
  {
    hide LedgerOk, LogEffect, DataEffect, MoveEffect;
    assert LedgerOk(s, u, c) && PcOk(s, t);
    if u == t {
      OwnLedger(s, t, s', c);
    } else {
      OtherLedger(s, t, s', u, c);
    }
  }

  lemma RowMove(acc: seq<Msg>, del: seq<Msg>, log: seq<Event>, pc: Pc, pc': Pc, t: nat, c: nat)
    requires pc.Move? && pc'.Signal? && pc'.c == pc.c && pc'.op == pc.op && Row(acc, del, log, pc, t, c)
    ensures pc.c == c && pc.op.Send? ==> Row(acc + [Msg(t, pc'.got)], del, log, pc', t, c)
    ensures pc.c == c && pc.op.Recv? ==> Row(acc, del + [Msg(t, pc'.got)], log, pc', t, c)
    ensures pc.c != c ==> Row(acc, del, log, pc', t, c)
  {
    Appending(acc, Msg(t, pc'.got), [], Made(0), t, c);
    Appending(del, Msg(t, pc'.got), [], Made(0), t, c);
  }

  lemma RowRelease(acc: seq<Msg>, del: seq<Msg>, log: seq<Event>, pc: Pc, t: nat, c: nat)
    requires pc.Release? && Row(acc, del, log, pc, t, c)
    ensures Row(acc, del, log + [if pc.op.Send? then Sent(pc.c, pc.got) else Received(pc.c, pc.got)], Running, t, c)
  {
    Appending([], Msg(0, 0), log, if pc.op.Send? then Sent(pc.c, pc.got) else Received(pc.c, pc.got), 0, c);
  }

  lemma IrrelevantEvent(log: seq<Event>, e: Event, c: nat)
    requires !e.Sent? && !e.Received?
    ensures SentOn(log + [e], c) == SentOn(log, c) && ReceivedOn(log + [e], c) == ReceivedOn(log, c)
  {
    Appending([], Msg(0, 0), log, e, 0, c);
  }

  lemma RowOther(acc: seq<Msg>, del: seq<Msg>, log: seq<Event>, pc: Pc, log': seq<Event>, pc': Pc, t: nat, c: nat)
    requires Row(acc, del, log, pc, t, c)
    requires InFlight(pc', c, true) == InFlight(pc, c, true) && InFlight(pc', c, false) == InFlight(pc, c, false)
    requires SentOn(log', c) == SentOn(log, c) && ReceivedOn(log', c) == ReceivedOn(log, c)
    ensures Row(acc, del, log', pc', t, c)
  {
  }

  lemma OwnLedger(s: State, t: nat, s': State, c: nat)
    requires t < |s.tasks| && t < |s'.tasks| && |s.chans| <= |s'.chans| && LedgerOk(s, t, c)
    requires DataEffect(s, t, s') && MoveEffect(s, t, s') && LogEffect(s, t, s')
    ensures LedgerOk(s', t, c)
  {
    var a, b := s.tasks[t], s'.tasks[t];
    var acc, del := Accepted(s, c), Delivered(s, c);
    if a.pc.Move? {
      RowMove(acc, del, a.log, a.pc, b.pc, t, c);
    } else {
      assert Accepted(s', c) == acc && Delivered(s', c) == del;
      if a.pc.Release? {
        RowRelease(acc, del, a.log, a.pc, t, c);
      } else {
        if b.log != a.log {
          IrrelevantEvent(a.log, b.log[|a.log|], c);
        }
        RowOther(acc, del, a.log, a.pc, b.log, b.pc, t, c);
      }
    }
  }

  // ---------- Movers ----------

  lemma MoversStep(s: State, t: nat, ch: Choice)
    requires Registry(s) && Mutex(s) && Movers(s) && Step(s, t, ch).Some?
    ensures Movers(Step(s, t, ch).value)
  {
    var s' := Step(s, t, ch).value;
    DataEffectStep(s, t, ch);
    OwnMove(s, t, ch);
    forall u | 0 <= u < |s'.tasks| && s'.tasks[u].pc.Move?
      ensures s'.tasks[u].pc.c < |s'.chans| &&
              !Blocked(s'.chans[s'.tasks[u].pc.c].ring, s'.tasks[u].pc.op)
    {
      if u != t && u < |s.tasks| {
        assert Held(s, s.tasks[u].pc) == Some(s.tasks[u].pc.c);
        assert Held(s, s.tasks[t].pc) != Some(s.tasks[u].pc.c);
      }
    }
  }

  lemma OwnMove(s: State, t: nat, ch: Choice)
    requires Step(s, t, ch).Some? && t < |s.tasks| && t < |Step(s, t, ch).value.tasks|
    ensures var s' := Step(s, t, ch).value;
      s'.tasks[t].pc.Move? ==>
        s'.tasks[t].pc.c < |s'.chans| && !Blocked(s'.chans[s'.tasks[t].pc.c].ring, s'.tasks[t].pc.op)
  {
    OpPcs(s, t, ch);
    if s.tasks[t].pc.Test? {
      assert Step(s, t, ch) == StepOp(s, t);
    }
  }

  /** Which steps lead to waiting and to moving. */
  lemma OpPcs(s: State, t: nat, ch: Choice)
    requires Step(s, t, ch).Some? && t < |s.tasks| && t < |Step(s, t, ch).value.tasks|
    ensures var pc, pc' := s.tasks[t].pc, Step(s, t, ch).value.tasks[t].pc;
      && (pc'.Move? ==> pc.Test?)
      && (pc'.Wait? ==> pc == Check(pc'.c, pc'.op) && !Stopped(s, t))
      && (pc'.Asleep? ==> pc == Wait(pc'.c, pc'.op))
  {
    if IsOp(s.tasks[t].pc) {
      OpPcsOp(s, t);
    }
  }

  lemma OpPcsOp(s: State, t: nat)
    requires t < |s.tasks| && StepOp(s, t).Some? && t < |StepOp(s, t).value.tasks|
    ensures var pc, pc' := s.tasks[t].pc, StepOp(s, t).value.tasks[t].pc;
      && (pc'.Move? ==> pc.Test?)
      && (pc'.Wait? ==> pc == Check(pc'.c, pc'.op) && !Stopped(s, t))
      && (pc'.Asleep? ==> pc == Wait(pc'.c, pc'.op))
  {
  }

  // ---------- Task states, scopes and joins ----------

  ghost predicate InScope(s: State, t: nat, scope: nat)
    requires t < |s.tasks|
  {
    s.tasks[t].scope == Some(scope)
  }

  predicate Stopped(s: State, t: nat)
    requires t < |s.tasks|
  {
    s.tasks[t].scope.Some? && s.tasks[t].scope.value in s.cancelled
  }

  /** The task record agrees with what the thread is doing, and what it was told
      agrees with the other records. */
  ghost predicate TaskOk(s: State, t: nat)
    requires t < |s.tasks|
  {
    var me := s.tasks[t];
    && (me.state == 2 <==> (IsPanic(me.pc) && !me.pc.Mark?) || (me.pc.Ended? && me.state != 1))
    && (me.state == 1 ==> me.pc.Ended?)
    && (me.state == 2 && !me.pc.Cancel? && me.scope.Some? ==> Stopped(s, t))
    && (me.pc.Fail? ==> Stopped(s, t))
    && (forall e :: e in me.log ==> EventOk(s, t, e))
  }

  ghost predicate EventOk(s: State, t: nat, e: Event)
    requires t < |s.tasks|
  {
    && (e.Failed? ==> Stopped(s, t))
    && (e.Joined? ==>
          && e.u < |s.tasks| && s.tasks[e.u].pc.Ended?
          && e.result == if s.tasks[e.u].state == 2 then None else Some(s.tasks[e.u].result))
    && (e.Made? ==> Published(s, e.c))
    && (e.Sent? || e.Received? ==> Published(s, e.c))
  }

  ghost predicate Tasks(s: State) {
    && (forall t :: 0 <= t < |s.tasks| ==> TaskOk(s, t))
    && (forall scope :: scope in s.cancelled ==>
          exists p :: 0 <= p < |s.tasks| && InScope(s, p, scope) && s.tasks[p].state == 2)
  }

  /** How a step of `t` changes its own record. */
  ghost predicate TaskEffect(s: State, t: nat, s': State)
    requires t < |s.tasks| && t < |s'.tasks|
  {
    var a, b := s.tasks[t], s'.tasks[t];
    && b.scope == a.scope
    && !a.pc.Ended?
    && (b.state == a.state || (a.pc.Mark? && b.state == 2 && b.pc.Cancel?)
        || (a.pc.Running? && b.pc.Ended? && b.state == 1))
    && (b.result == a.result || b.pc.Ended?)
    && (IsPanic(a.pc) ==> IsPanic(b.pc) || b.pc.Ended?)
    && (IsPanic(a.pc) && !a.pc.Mark? ==> !b.pc.Mark? && !b.pc.Cancel?)
    && (!IsPanic(a.pc) ==> !IsPanic(b.pc) || b.pc.Mark?)
    && (b.pc.Ended? ==> b.state == 1 || IsPanic(a.pc))
    && (a.pc.Mark? ==> b.pc.Cancel? && b.state == 2)
    && (a.pc.Cancel? && a.scope.Some? ==> a.scope.value in s'.cancelled)
    && (s'.cancelled == s.cancelled
        || (a.pc.Cancel? && a.scope.Some? && s'.cancelled == s.cancelled + {a.scope.value}))
    && (b.pc.Fail? ==> Stopped(s, t))
  }

  lemma TaskEffectOp(s: State, t: nat)
    requires t < |s.tasks| && StepOp(s, t).Some? && t < |StepOp(s, t).value.tasks|
    ensures TaskEffect(s, t, StepOp(s, t).value)
  {
  }

  lemma TaskEffectPanic(s: State, t: nat)
    requires t < |s.tasks| && IsPanic(s.tasks[t].pc) && StepPanic(s, t).Some? && t < |StepPanic(s, t).value.tasks|
    ensures TaskEffect(s, t, StepPanic(s, t).value)
  {
  }

  lemma TaskEffectMake(s: State, t: nat)
    requires t < |s.tasks| && IsMake(s.tasks[t].pc) && StepMake(s, t).Some? && t < |StepMake(s, t).value.tasks|
    ensures TaskEffect(s, t, StepMake(s, t).value)
  {
  }

  lemma TaskEffectStep(s: State, t: nat, ch: Choice)
    requires Step(s, t, ch).Some? && t < |s.tasks| && t < |Step(s, t, ch).value.tasks|
    ensures TaskEffect(s, t, Step(s, t, ch).value)
  {
    hide StepOp, StepMake, StepPanic;
    if IsOp(s.tasks[t].pc) {
      TaskEffectOp(s, t);
    } else if IsMake(s.tasks[t].pc) {
      TaskEffectMake(s, t);
    } else if IsPanic(s.tasks[t].pc) {
      TaskEffectPanic(s, t);
    }
  }

  /** The one event a step may add to the log of its thread is true. */
  lemma NewEvent(s: State, t: nat, ch: Choice)
    requires Registry(s) && Step(s, t, ch).Some? && t < |s.tasks| && t < |Step(s, t, ch).value.tasks|
    requires s.tasks[t].pc.Fail? ==> Stopped(s, t)
    ensures var s' := Step(s, t, ch).value;
      forall e :: e in s'.tasks[t].log && e !in s.tasks[t].log ==> EventOk(s', t, e)
  {
    assert PcOk(s, t);
    var s' := Step(s, t, ch).value;
    match s.tasks[t].pc
    case Fail(_, _) =>
    case Release(c, _, _) => assert s'.slots == s.slots && s'.nchans == s.nchans && Published(s, c);
    case MakeUnlock(c) => assert s'.slots == s.slots && s'.nchans == s.nchans && Published(s, c);
    case Joining(_, _) =>
    case _ => NoEvent(s, t, ch);
  }

  lemma NoEvent(s: State, t: nat, ch: Choice)
    requires Step(s, t, ch).Some? && t < |s.tasks| && t < |Step(s, t, ch).value.tasks|
    requires var pc := s.tasks[t].pc; !pc.Fail? && !pc.Release? && !pc.MakeUnlock? && !pc.Joining?
    ensures Step(s, t, ch).value.tasks[t].log == s.tasks[t].log
  {
  }

  lemma EventStays(s: State, t: nat, s': State, u: nat, e: Event)
    requires Frame(s, t, s') && t < |s.tasks| && TaskEffect(s, t, s')
    requires s.nchans <= |s.slots| && s'.nchans <= |s'.slots|
    requires u < |s.tasks| && EventOk(s, u, e)
    ensures EventOk(s', u, e)
  {
    if e.Made? || e.Sent? || e.Received? {
      PublishedStays(s, t, s', e.c);
    }
  }

  lemma TasksStep(s: State, t: nat, ch: Choice)
    requires Registry(s) && Tasks(s) && Step(s, t, ch).Some?
    ensures Tasks(Step(s, t, ch).value)
  {
    var s' := Step(s, t, ch).value;
    StepFrame(s, t, ch);
    TaskEffectStep(s, t, ch);
    SlotsStep(s, t, ch);
    assert TaskOk(s, t);
    NewEvent(s, t, ch);
    forall u | 0 <= u < |s'.tasks|
      ensures TaskOk(s', u)
    {
      TaskFrom(s, t, s', u);
    }
    forall scope | scope in s'.cancelled
      ensures exists p :: 0 <= p < |s'.tasks| && InScope(s', p, scope) && s'.tasks[p].state == 2
    {
      if scope in s.cancelled {
        var p :| 0 <= p < |s.tasks| && InScope(s, p, scope) && s.tasks[p].state == 2;
        assert InScope(s', p, scope) && s'.tasks[p].state == 2;
      } else {
        assert InScope(s', t, scope) && s'.tasks[t].state == 2;
      }
    }
  }

  lemma TaskFrom(s: State, t: nat, s': State, u: nat)
    requires Frame(s, t, s') && t < |s.tasks| && TaskEffect(s, t, s')
    requires s.nchans <= |s.slots| && s'.nchans <= |s'.slots|
    requires Tasks(s) && u < |s'.tasks|
    requires forall e :: e in s'.tasks[t].log && e !in s.tasks[t].log ==> EventOk(s', t, e)
    ensures TaskOk(s', u)
  {
    if u < |s.tasks| {
      assert TaskOk(s, u);
      forall e | e in s'.tasks[u].log
        ensures EventOk(s', u, e)
      {
        if e in s.tasks[u].log {
          EventStays(s, t, s', u, e);
        }
      }
    }
  }

  // ---------- The broadcast ----------

  predicate Parked(pc: Pc, c: nat) { (pc.Wait? || pc.Asleep?) && pc.c == c }

  /** No task of the scope waits on any of the first `n` registered channels. */
  ghost predicate Swept(s: State, scope: nat, n: nat) {
    forall t, j :: 0 <= t < |s.tasks| && 0 <= j < n && j < |s.slots| && InScope(s, t, scope) ==>
      !Parked(s.tasks[t].pc, s.slots[j])
  }

  ghost predicate NoSenders(s: State, scope: nat, c: nat) {
    forall t :: 0 <= t < |s.tasks| && InScope(s, t, scope) && Parked(s.tasks[t].pc, c) ==>
      s.tasks[t].pc.op.Recv?
  }

  /** How far the broadcast of thread `p` has cleared its scope. */
  ghost predicate SweepOk(s: State, p: nat, scope: nat)
    requires p < |s.tasks|
  {
    match s.tasks[p].pc
    case Bcast(i) => Swept(s, scope, i)
    case WakeSenders(i) => Swept(s, scope, i)
    case WakeReceivers(i) => Swept(s, scope, i) && (i < |s.slots| ==> NoSenders(s, scope, s.slots[i]))
    case BcastUnlock(i) => Swept(s, scope, i + 1)
    case Ended => s.tasks[p].state == 2 ==> Swept(s, scope, s.nchans)
    case _ => true
  }

  ghost predicate Sweeps(s: State) {
    forall p, scope :: 0 <= p < |s.tasks| && InScope(s, p, scope) ==> SweepOk(s, p, scope)
  }

  /** Once a scope is cancelled, none of its tasks starts to wait. */
  lemma NobodyParks(s: State, t: nat, ch: Choice, u: nat, c: nat)
    requires Registry(s) && Step(s, t, ch).Some?
    requires u < |s.tasks| && u < |Step(s, t, ch).value.tasks| && Stopped(s, u)
    requires Parked(Step(s, t, ch).value.tasks[u].pc, c)
    ensures Parked(s.tasks[u].pc, c) && s.tasks[u].pc.op == Step(s, t, ch).value.tasks[u].pc.op
  {
    StepFrame(s, t, ch);
    if u == t {
      OwnPark(s, t, ch, c);
    }
  }

  lemma OwnPark(s: State, t: nat, ch: Choice, c: nat)
    requires Step(s, t, ch).Some? && t < |s.tasks| && t < |Step(s, t, ch).value.tasks|
    requires Stopped(s, t) && Parked(Step(s, t, ch).value.tasks[t].pc, c)
    ensures Parked(s.tasks[t].pc, c) && s.tasks[t].pc.op == Step(s, t, ch).value.tasks[t].pc.op
  {
    OpPcs(s, t, ch);
  }

  lemma SweptStays(s: State, t: nat, ch: Choice, scope: nat, n: nat)
    requires Registry(s) && Step(s, t, ch).Some?
    requires scope in s.cancelled && n <= s.nchans && Swept(s, scope, n)
    ensures Swept(Step(s, t, ch).value, scope, n)
  {
    StepFrame(s, t, ch);
    var s' := Step(s, t, ch).value;
    SameScope(s, t, ch);
    forall u, j | 0 <= u < |s'.tasks| && 0 <= j < n && j < |s'.slots| && InScope(s', u, scope)
      ensures !Parked(s'.tasks[u].pc, s'.slots[j])
    {
      assert s'.slots[..s.nchans][j] == s.slots[..s.nchans][j];
      if u < |s.tasks| && Parked(s'.tasks[u].pc, s'.slots[j]) {
        assert InScope(s, u, scope);
        NobodyParks(s, t, ch, u, s'.slots[j]);
      }
    }
  }

  lemma SameScope(s: State, t: nat, ch: Choice)
    requires Step(s, t, ch).Some?
    ensures t < |s.tasks| <= |Step(s, t, ch).value.tasks|
    ensures forall u :: 0 <= u < |s.tasks| ==> Step(s, t, ch).value.tasks[u].scope == s.tasks[u].scope
  {
    StepFrame(s, t, ch);
    TaskEffectStep(s, t, ch);
  }

  /** A channel that the registry has just started to count has no waiters. */
  lemma SweptNew(s: State, t: nat, ch: Choice, scope: nat)
    requires Registry(s) && Step(s, t, ch).Some?
    requires scope in s.cancelled && Swept(s, scope, s.nchans)
    ensures Swept(Step(s, t, ch).value, scope, Step(s, t, ch).value.nchans)
  {
    var s' := Step(s, t, ch).value;
    SweptStays(s, t, ch, scope, s.nchans);
    SameScope(s, t, ch);
    StepFrame(s, t, ch);
    RegistryEffectStep(s, t, ch);
    assert PcOk(s, t);
    forall u, j | 0 <= u < |s'.tasks| && 0 <= j < s'.nchans && j < |s'.slots| && InScope(s', u, scope)
      ensures !Parked(s'.tasks[u].pc, s'.slots[j])
    {
      if j == s.nchans && u < |s.tasks| && Parked(s'.tasks[u].pc, s'.slots[j]) {
        assert InScope(s, u, scope) && PcOk(s, u);
        assert s'.slots[j] == s.slots[s.nchans];
        NobodyParks(s, t, ch, u, s'.slots[j]);
      }
    }
  }

  /** The broadcasting thread clears one more channel in each round. */
  lemma OwnSweep(s: State, t: nat, ch: Choice, scope: nat)
    requires Registry(s) && Mutex(s) && Tasks(s) && Sweeps(s) && Step(s, t, ch).Some?
    requires t < |s.tasks| && t < |Step(s, t, ch).value.tasks| && InScope(s, t, scope)
    ensures SweepOk(Step(s, t, ch).value, t, scope)
  {
    TaskEffectStep(s, t, ch);
    if IsPanic(s.tasks[t].pc) {
      assert SweepOk(s, t, scope) && PcOk(s, t) && TaskOk(s, t);
      SlotsSame(s, t, ch);
      PanicPath(s, t);
      OwnSweepPanic(s, t, ch, scope);
    } else {
      assert TaskOk(s, t);
    }
  }

  lemma OwnSweepPanic(s: State, t: nat, ch: Choice, scope: nat)
    requires Registry(s) && Mutex(s) && Step(s, t, ch).Some?
    requires t < |s.tasks| && t < |Step(s, t, ch).value.tasks| && IsPanic(s.tasks[t].pc)
    requires InScope(s, t, scope) && SweepOk(s, t, scope) && PcOk(s, t)
    requires !s.tasks[t].pc.Mark? && !s.tasks[t].pc.Cancel? ==> scope in s.cancelled
    ensures SweepOk(Step(s, t, ch).value, t, scope)
  {
    PanicPath(s, t);
    SlotsSame(s, t, ch);
    match s.tasks[t].pc
    case Bcast(i) => SweptStays(s, t, ch, scope, i);
    case WakeSenders(i) =>
      SweptStays(s, t, ch, scope, i);
      SendersWoken(s, t, ch, scope, i);
    case WakeReceivers(i) =>
      SweptStays(s, t, ch, scope, i);
      ReceiversWoken(s, t, ch, scope, i);
    case BcastUnlock(i) => SweptStays(s, t, ch, scope, i + 1);
    case _ =>
  }

  lemma LockedOut(s: State, t: nat, u: nat, c: nat)
    requires Mutex(s) && t < |s.tasks| && u < |s.tasks| && u != t && Held(s, s.tasks[t].pc) == Some(c)
    ensures s.tasks[u].pc.Wait? ==> s.tasks[u].pc.c != c
  {
    assert Held(s, s.tasks[u].pc) != Some(c);
  }

  lemma SendersWoken(s: State, t: nat, ch: Choice, scope: nat, i: nat)
    requires Registry(s) && Mutex(s) && Step(s, t, ch).Some?
    requires t < |s.tasks| && s.tasks[t].pc == WakeSenders(i) && i < |s.slots|
    ensures NoSenders(Step(s, t, ch).value, scope, s.slots[i])
  {
    var s' := Step(s, t, ch).value;
    var c := s.slots[i];
    assert s' == SetPc(WakeAll(s, c, true), t, WakeReceivers(i));
    forall u | 0 <= u < |s'.tasks| && Parked(s'.tasks[u].pc, c)
      ensures s'.tasks[u].pc.op.Recv?
    {
      if u != t { LockedOut(s, t, u, c); }
    }
  }

  lemma ReceiversWoken(s: State, t: nat, ch: Choice, scope: nat, i: nat)
    requires Registry(s) && Mutex(s) && Step(s, t, ch).Some?
    requires t < |s.tasks| && s.tasks[t].pc == WakeReceivers(i) && i < |s.slots|
    requires NoSenders(s, scope, s.slots[i]) && Swept(Step(s, t, ch).value, scope, i)
    ensures Swept(Step(s, t, ch).value, scope, i + 1)
  {
    var s' := Step(s, t, ch).value;
    var c := s.slots[i];
    assert s' == SetPc(WakeAll(s, c, false), t, BcastUnlock(i));
    forall u | 0 <= u < |s'.tasks| && InScope(s', u, scope)
      ensures !Parked(s'.tasks[u].pc, c)
    {
      if u != t {
        LockedOut(s, t, u, c);
        assert InScope(s, u, scope);
      }
    }
  }

  lemma OtherSweep(s: State, t: nat, ch: Choice, p: nat, scope: nat)
    requires Registry(s) && Tasks(s) && Sweeps(s) && Step(s, t, ch).Some?
    requires p < |s.tasks| && p < |Step(s, t, ch).value.tasks| && p != t && InScope(s, p, scope)
    ensures SweepOk(Step(s, t, ch).value, p, scope)
  {
    hide Step;
    var s' := Step(s, t, ch).value;
    StepFrame(s, t, ch);
    assert SweepOk(s, p, scope) && PcOk(s, p) && TaskOk(s, p);
    match s.tasks[p].pc
    case Bcast(i) => SweptStays(s, t, ch, scope, i);
    case WakeSenders(i) => SweptStays(s, t, ch, scope, i);
    case WakeReceivers(i) =>
      SweptStays(s, t, ch, scope, i);
      assert s'.slots[..s.nchans][i] == s.slots[..s.nchans][i];
      SendersStayAway(s, t, ch, scope, s.slots[i]);
    case BcastUnlock(i) => SweptStays(s, t, ch, scope, i + 1);
    case Ended => if s.tasks[p].state == 2 { SweptNew(s, t, ch, scope); }
    case _ =>
  }

  lemma SendersStayAway(s: State, t: nat, ch: Choice, scope: nat, c: nat)
    requires Registry(s) && Step(s, t, ch).Some? && scope in s.cancelled && NoSenders(s, scope, c)
    ensures NoSenders(Step(s, t, ch).value, scope, c)
  {
    var s' := Step(s, t, ch).value;
    SameScope(s, t, ch);
    StepFrame(s, t, ch);
    forall u | 0 <= u < |s'.tasks| && InScope(s', u, scope) && Parked(s'.tasks[u].pc, c)
      ensures s'.tasks[u].pc.op.Recv?
    {
      assert u < |s.tasks|;
      assert InScope(s, u, scope);
      NobodyParks(s, t, ch, u, c);
    }
  }

  lemma SweepsStep(s: State, t: nat, ch: Choice)
    requires Registry(s) && Mutex(s) && Tasks(s) && Sweeps(s) && Step(s, t, ch).Some?
    ensures Sweeps(Step(s, t, ch).value)
  {
    var s' := Step(s, t, ch).value;
    SameScope(s, t, ch);
    StepFrame(s, t, ch);
    forall p, scope | 0 <= p < |s'.tasks| && InScope(s', p, scope)
      ensures SweepOk(s', p, scope)
    {
      if p < |s.tasks| {
        assert InScope(s, p, scope);
        if p == t { OwnSweep(s, t, ch, scope); } else { OtherSweep(s, t, ch, p, scope); }
      }
    }
  }

  // ---------- The whole invariant ----------

  ghost predicate Inv(s: State) {
    && Registry(s)
    && Mutex(s)
    && Queues(s)
    && Ledgers(s)
    && Movers(s)
    && Tasks(s)
    && Sweeps(s)
  }

  lemma InitLedgers()
    ensures Ledgers(Init()) && Movers(Init())
  {
    forall t: nat, c: nat
      ensures LedgerOk(Init(), t, c)
    {
      assert LogOf(Init(), t) == [] && PcOf(Init(), t) == Running;
    }
  }

  lemma InitRest()
    ensures Registry(Init()) && Mutex(Init()) && Queues(Init()) && Tasks(Init()) && Sweeps(Init())
  {
  }

  lemma InvInit()
    ensures Inv(Init())
  {
    hide Registry, Mutex, Queues, Tasks, Sweeps, Ledgers, Movers;
    InitLedgers();
    InitRest();
  }

  lemma InvStep(s: State, t: nat, ch: Choice)
    requires Inv(s) && Step(s, t, ch).Some?
    ensures Inv(Step(s, t, ch).value)
  {
    RegistryStep(s, t, ch);
    MutexStep(s, t, ch);
    QueuesStep(s, t, ch);
    LedgersStep(s, t, ch);
    MoversStep(s, t, ch);
    TasksStep(s, t, ch);
    SweepsStep(s, t, ch);
  }

  lemma InvRun(run: seq<State>, sched: seq<(nat, Choice)>, i: nat)
    requires IsRun(run, sched) && i < |run|
    ensures Inv(run[i])
  {
    if i == 0 {
      InvInit();
    } else {
      InvRun(run, sched, i - 1);
      assert Step(run[i - 1], sched[i - 1].0, sched[i - 1].1) == Some(run[i - 1 + 1]);
      InvStep(run[i - 1], sched[i - 1].0, sched[i - 1].1);
    }
  }
}
