/** The native concurrency runtime as an interleaved step system (threads only,
    no coroutines).

    Every access to shared memory that another thread can observe is one step:
    taking and releasing a channel lock, reading the cancelled flag, going to
    sleep, writing the registry slot and then the registry count, and each round
    of the cancellation broadcast, which reads the registry without its lock. */
module Runtime {
  import opened Options
  import opened RingBuffer

  datatype Op = Send(val: int) | Recv

  datatype Pc =
    | Running
    // ct_ch_send and ct_ch_recv
    | Lock(c: nat, op: Op)
    | Test(c: nat, op: Op)
    | Check(c: nat, op: Op)
    | Fail(c: nat, op: Op)
    | Wait(c: nat, op: Op)
    | Asleep(c: nat, op: Op)
    | Woken(c: nat, op: Op)
    | Move(c: nat, op: Op)
    | Signal(c: nat, op: Op, got: int)
    | Release(c: nat, op: Op, got: int)
    // ct_ch_make and ct_ch_reg
    | MakeLock(c: nat)
    | MakeStore(c: nat)
    | MakeCount(c: nat)
    | MakeUnlock(c: nat)
    // ctron_panic and ct_cancel_broadcast
    | Mark
    | Cancel
    | Bcast(i: nat)
    | WakeSenders(i: nat)
    | WakeReceivers(i: nat)
    | BcastUnlock(i: nat)
    // ct_join and ct_join_or
    | Joining(u: nat, orElse: bool)
    | Ended

  /** What a thread's finished calls reported to it. */
  datatype Event =
    | Sent(c: nat, v: int)
    | Received(c: nat, v: int)
    | Failed(c: nat, op: Op)
    | Made(c: nat)
    | Joined(u: nat, result: Option<int>)

  /** A value together with the thread that sent it, or that received it. */
  datatype Msg = Msg(who: nat, v: int)

  /** `accepted` and `delivered` are histories; no step reads them. */
  datatype Chan = Chan(ring: Ring, mu: Option<nat>, accepted: seq<Msg>, delivered: seq<Msg>)

  /** `state` is 0 while the task runs, 1 once it returned, 2 once it panicked. */
  datatype Task = Task(scope: Option<nat>, state: nat, result: int, pc: Pc, log: seq<Event>)

  datatype State = State(
    chans: seq<Chan>,
    slots: seq<nat>,
    nchans: nat,
    reg: Option<nat>,
    cancelled: set<nat>,
    tasks: seq<Task>)

  /** What a thread does next; only running user code has a choice. */
  datatype Choice =
    | Go
    | DoOp(c: nat, op: Op)
    | DoMake(cap: int)
    | DoPanic
    | DoReturn(v: int)
    | DoSpawn(scope: Option<nat>)
    | DoJoin(u: nat, orElse: bool)

  // ---------- Steps ----------

  predicate Blocked(r: Ring, op: Op) {
    match op
    case Send(_) => IsFull(r)
    case Recv => IsEmpty(r)
  }

  /** A channel pointer leaves `ct_ch_make` only after the registry counts it. */
  predicate Published(s: State, c: nat) {
    c in s.slots[..if s.nchans <= |s.slots| then s.nchans else |s.slots|]
  }

  function SetPc(s: State, t: nat, pc: Pc): State
    requires t < |s.tasks|
  {
    s.(tasks := s.tasks[t := s.tasks[t].(pc := pc)])
  }

  function SetMu(s: State, c: nat, mu: Option<nat>): State
    requires c < |s.chans|
  {
    s.(chans := s.chans[c := s.chans[c].(mu := mu)])
  }

  function Log(s: State, t: nat, e: Event): State
    requires t < |s.tasks|
  {
    s.(tasks := s.tasks[t := s.tasks[t].(log := s.tasks[t].log + [e])])
  }

  /** Broadcast on one of the two condition variables of a channel. */
  function WakePc(pc: Pc, c: nat, senders: bool): Pc {
    if pc.Asleep? && pc.c == c && pc.op.Send? == senders then Woken(c, pc.op) else pc
  }

  function WakeAll(s: State, c: nat, senders: bool): State {
    s.(tasks := seq(|s.tasks|, u requires 0 <= u < |s.tasks| =>
                      s.tasks[u].(pc := WakePc(s.tasks[u].pc, c, senders))))
  }

  function Guard(b: bool, s: State): Option<State> { if b then Some(s) else None }

  function StepRunning(s: State, t: nat, ch: Choice): Option<State>
    requires t < |s.tasks|
  {
    match ch
    case Go => None
    case DoOp(c, op) => Guard(Published(s, c), SetPc(s, t, Lock(c, op)))
    case DoMake(cap) =>
      Some(SetPc(s.(chans := s.chans + [Chan(Make(cap), None, [], [])]), t, MakeLock(|s.chans|)))
    case DoPanic => Guard(t != 0, SetPc(s, t, Mark))
    case DoReturn(v) =>
      Guard(t != 0, s.(tasks := s.tasks[t := s.tasks[t].(pc := Ended, state := 1, result := v)]))
    case DoSpawn(scope) => Some(s.(tasks := s.tasks + [Task(scope, 0, 0, Running, [])]))
    case DoJoin(u, orElse) => Guard(u < |s.tasks|, SetPc(s, t, Joining(u, orElse)))
  }

  function StepOp(s: State, t: nat): Option<State>
    requires t < |s.tasks|
  {
    var me := s.tasks[t];
    match me.pc
    case Lock(c, op) =>
      if c < |s.chans| && s.chans[c].mu.None? then
        Some(SetMu(SetPc(s, t, Test(c, op)), c, Some(t))) else None
    case Woken(c, op) =>
      if c < |s.chans| && s.chans[c].mu.None? then
        Some(SetMu(SetPc(s, t, Test(c, op)), c, Some(t))) else None
    case Test(c, op) =>
      if c < |s.chans| then
        Some(SetPc(s, t, if Blocked(s.chans[c].ring, op) then Check(c, op) else Move(c, op))) else None
    case Check(c, op) =>
      var stop := me.scope.Some? && me.scope.value in s.cancelled;
      Some(SetPc(s, t, if stop then Fail(c, op) else Wait(c, op)))
    case Fail(c, op) =>
      if c < |s.chans| then
        Some(Log(SetMu(SetPc(s, t, Running), c, None), t, Failed(c, op))) else None
    case Wait(c, op) =>
      if c < |s.chans| then Some(SetMu(SetPc(s, t, Asleep(c, op)), c, None)) else None
    case Asleep(c, op) => Some(SetPc(s, t, Woken(c, op)))  // a spurious wake-up
    case Move(c, op) =>
      if c < |s.chans| && WellFormed(s.chans[c].ring) && !Blocked(s.chans[c].ring, op) then
        var ch := s.chans[c];
        match op
        case Send(v) =>
          var ch' := ch.(ring := Put(ch.ring, v), accepted := ch.accepted + [Msg(t, v)]);
          Some(SetPc(s.(chans := s.chans[c := ch']), t, Signal(c, op, v)))
        case Recv =>
          var (r, v) := Take(ch.ring);
          var ch' := ch.(ring := r, delivered := ch.delivered + [Msg(t, v)]);
          Some(SetPc(s.(chans := s.chans[c := ch']), t, Signal(c, op, v)))
      else None
    case Signal(c, op, got) =>
      Some(SetPc(WakeAll(s, c, op.Recv?), t, Release(c, op, got)))
    case Release(c, op, got) =>
      if c < |s.chans| then
        var e := if op.Send? then Sent(c, got) else Received(c, got);
        Some(Log(SetMu(SetPc(s, t, Running), c, None), t, e)) else None
    case _ => None
  }

  function StepMake(s: State, t: nat): Option<State>
    requires t < |s.tasks|
  {
    match s.tasks[t].pc
    case MakeLock(c) => Guard(s.reg.None?, SetPc(s.(reg := Some(t)), t, MakeStore(c)))
    case MakeStore(c) =>
      if s.nchans <= |s.slots| then
        Some(SetPc(s.(slots := s.slots[..s.nchans] + [c]), t, MakeCount(c))) else None
    case MakeCount(c) => Some(SetPc(s.(nchans := s.nchans + 1), t, MakeUnlock(c)))
    case MakeUnlock(c) => Some(Log(SetPc(s.(reg := None), t, Running), t, Made(c)))
    case _ => None
  }

  function StepPanic(s: State, t: nat): Option<State>
    requires t < |s.tasks|
  {
    var me := s.tasks[t];
    match me.pc
    case Mark => Some(s.(tasks := s.tasks[t := me.(pc := Cancel, state := 2)]))
    case Cancel =>
      Some(SetPc(s.(cancelled := s.cancelled + if me.scope.Some? then {me.scope.value} else {}), t, Bcast(0)))
    case Bcast(i) =>
      if s.nchans <= i then Some(SetPc(s, t, Ended))
      else if i < |s.slots| && s.slots[i] < |s.chans| && s.chans[s.slots[i]].mu.None? then
        Some(SetMu(SetPc(s, t, WakeSenders(i)), s.slots[i], Some(t)))
      else None
    case WakeSenders(i) =>
      if i < |s.slots| then Some(SetPc(WakeAll(s, s.slots[i], true), t, WakeReceivers(i))) else None
    case WakeReceivers(i) =>
      if i < |s.slots| then Some(SetPc(WakeAll(s, s.slots[i], false), t, BcastUnlock(i))) else None
    case BcastUnlock(i) =>
      if i < |s.slots| && s.slots[i] < |s.chans| then
        Some(SetMu(SetPc(s, t, Bcast(i + 1)), s.slots[i], None)) else None
    case _ => None
  }

  /** `ct_join` re-raises the panic of the task it waited for; the thread that is
      no task exits the process instead, which ends the run. */
  function StepJoin(s: State, t: nat): Option<State>
    requires t < |s.tasks|
  {
    match s.tasks[t].pc
    case Joining(u, orElse) =>
      if u < |s.tasks| && s.tasks[u].pc == Ended then
        if s.tasks[u].state != 2 then
          Some(Log(SetPc(s, t, Running), t, Joined(u, Some(s.tasks[u].result))))
        else if orElse then
          Some(Log(SetPc(s, t, Running), t, Joined(u, None)))
        else Guard(t != 0, SetPc(s, t, Mark))
      else None
    case _ => None
  }

  predicate IsOp(pc: Pc) {
    pc.Lock? || pc.Test? || pc.Check? || pc.Fail? || pc.Wait? || pc.Asleep? || pc.Woken? ||
    pc.Move? || pc.Signal? || pc.Release?
  }

  predicate IsMake(pc: Pc) { pc.MakeLock? || pc.MakeStore? || pc.MakeCount? || pc.MakeUnlock? }

  predicate IsPanic(pc: Pc) {
    pc.Mark? || pc.Cancel? || pc.Bcast? || pc.WakeSenders? || pc.WakeReceivers? || pc.BcastUnlock?
  }

  function Step(s: State, t: nat, ch: Choice): Option<State> {
    if |s.tasks| <= t then None
    else
      var pc := s.tasks[t].pc;
      if pc.Running? then StepRunning(s, t, ch)
      else if !ch.Go? then None
      else if IsOp(pc) then StepOp(s, t)
      else if IsMake(pc) then StepMake(s, t)
      else if IsPanic(pc) then StepPanic(s, t)
      else StepJoin(s, t)
  }

  /** One thread that is no task, no channel, nothing cancelled. */
  function Init(): State {
    State([], [], 0, None, {}, [Task(None, 0, 0, Running, [])])
  }

  /** A run: `sched[i]` says which thread moves, and how, from `run[i]`. */
  ghost predicate IsRun(run: seq<State>, sched: seq<(nat, Choice)>) {
    && |run| == |sched| + 1
    && run[0] == Init()
    && forall i :: 0 <= i < |sched| ==> Step(run[i], sched[i].0, sched[i].1) == Some(run[i + 1])
  }
}
