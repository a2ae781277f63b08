/** No wake-up is lost: whoever sleeps on a channel either cannot move, or is about
    to be woken by the thread that made the move possible. */
module RuntimeWakeups {
  import opened Options
  import opened RingBuffer
  import opened Runtime
  import opened RuntimeInvariants

  /** Thread `u` has moved a value of the other direction and is about to say so. */
  predicate WillWake(s: State, u: nat, c: nat, op: Op)
    requires u < |s.tasks|
  {
    var pc := s.tasks[u].pc;
    pc.Signal? && pc.c == c && pc.op.Send? != op.Send?
  }

  predicate Stuck(s: State, c: nat, op: Op) { c < |s.chans| && Blocked(s.chans[c].ring, op) }

  predicate SeesBlocked(pc: Pc) { pc.Check? || pc.Fail? || pc.Wait? }

  ghost predicate WakefulAt(s: State, t: nat)
    requires t < |s.tasks|
  {
    var pc := s.tasks[t].pc;
    && (SeesBlocked(pc) ==> Stuck(s, pc.c, pc.op))
    && (pc.Asleep? ==> Stuck(s, pc.c, pc.op) || exists u :: 0 <= u < |s.tasks| && WillWake(s, u, pc.c, pc.op))
  }

  ghost predicate Wakeful(s: State) {
    forall t :: 0 <= t < |s.tasks| ==> WakefulAt(s, t)
  }

  /** What a step of `t` does for sleepers and for those about to sleep. */
  ghost predicate WakeEffect(s: State, t: nat, s': State)
    requires t < |s.tasks| <= |s'.tasks|
  {
    var pc, pc' := s.tasks[t].pc, s'.tasks[t].pc;
    && (SeesBlocked(pc') ==>
         && s'.chans == s.chans
         && (pc == Check(pc'.c, pc'.op) || (pc == Test(pc'.c, pc'.op) && Stuck(s, pc'.c, pc'.op))))
    && (pc'.Asleep? ==> pc == Wait(pc'.c, pc'.op))
    && (pc.Signal? ==> forall u :: 0 <= u < |s'.tasks| && s'.tasks[u].pc.Asleep? && s'.tasks[u].pc.c == pc.c ==>
         s'.tasks[u].pc.op.Send? == pc.op.Send?)
  }

  lemma WakeEffectOp(s: State, t: nat)
    requires t < |s.tasks| && StepOp(s, t).Some? && t < |StepOp(s, t).value.tasks|
    ensures WakeEffect(s, t, StepOp(s, t).value)
  {
    hide Put, Take, WellFormed;
  }

  lemma WakeEffectStep(s: State, t: nat, ch: Choice)
    requires Step(s, t, ch).Some? && t < |s.tasks| <= |Step(s, t, ch).value.tasks|
    ensures WakeEffect(s, t, Step(s, t, ch).value)
  {
    hide StepOp, Put, Take, WellFormed;
    if IsOp(s.tasks[t].pc) {
      WakeEffectOp(s, t);
    }
  }

  /** A channel is blocked as before, unless the step moved a value on it. */
  lemma StuckStays(s: State, t: nat, s': State, c: nat, op: Op)
    requires Frame(s, t, s') && t < |s.tasks| && DataEffect(s, t, s') && Stuck(s, c, op)
    ensures !(s.tasks[t].pc.Move? && s.tasks[t].pc.c == c) ==> Stuck(s', c, op)
  {
    assert c < |s.chans|;
  }

  /** A move unblocks the other direction only, and is followed by the signal. */
  lemma MoveWakes(s: State, t: nat, s': State, op: Op)
    requires Frame(s, t, s') && t < |s.tasks| && MoveEffect(s, t, s') && s.tasks[t].pc.Move?
    requires Stuck(s, s.tasks[t].pc.c, op)
    ensures WillWake(s', t, s.tasks[t].pc.c, op)
  {
  }

  lemma WakefulStep(s: State, t: nat, ch: Choice)
    requires Inv(s) && Wakeful(s) && Step(s, t, ch).Some?
    ensures Wakeful(Step(s, t, ch).value)
  {
    var s' := Step(s, t, ch).value;
    DataEffectStep(s, t, ch);
    MoveEffectStep(s, t, ch);
    WakeEffectStep(s, t, ch);
    forall u | 0 <= u < |s'.tasks|
      ensures WakefulAt(s', u)
    {
      if u == t {
        OwnWakeful(s, t, s');
      } else if u < |s.tasks| && (SeesBlocked(s'.tasks[u].pc) || s'.tasks[u].pc.Asleep?) {
        OtherWakeful(s, t, s', u);
      }
    }
  }

  lemma OwnWakeful(s: State, t: nat, s': State)
    requires Wakeful(s) && Frame(s, t, s') && t < |s.tasks| && DataEffect(s, t, s') && WakeEffect(s, t, s')
    ensures WakefulAt(s', t)
  {
    assert WakefulAt(s, t);
    var pc, pc' := s.tasks[t].pc, s'.tasks[t].pc;
    if pc'.Asleep? {
      StuckStays(s, t, s', pc.c, pc.op);
    }
  }

  lemma OneHolder(s: State, t: nat, u: nat)
    requires Mutex(s) && t < |s.tasks| && u < |s.tasks| && t != u && Held(s, s.tasks[t].pc).Some?
    ensures Held(s, s.tasks[u].pc) != Held(s, s.tasks[t].pc)
  {
  }

  lemma OtherWakeful(s: State, t: nat, s': State, u: nat)
    requires Inv(s) && Wakeful(s) && Frame(s, t, s') && t < |s.tasks| && u < |s.tasks| && u != t
    requires DataEffect(s, t, s') && MoveEffect(s, t, s') && WakeEffect(s, t, s')
    requires SeesBlocked(s'.tasks[u].pc) || s'.tasks[u].pc.Asleep?
    ensures WakefulAt(s', u)
  {
    hide Registry, Queues, Ledgers, Tasks, Sweeps, Blocked;
    assert WakefulAt(s, u);
    var pc, me := s'.tasks[u].pc, s.tasks[t].pc;
    assert s.tasks[u].pc == pc;
    if Stuck(s, pc.c, pc.op) {
      if me.Move? {
        OneHolder(s, t, u);
      }
      StuckStays(s, t, s', pc.c, pc.op);
      if me.Move? && me.c == pc.c {
        MoveWakes(s, t, s', pc.op);
      }
    } else {
      var w :| 0 <= w < |s.tasks| && WillWake(s, w, pc.c, pc.op);
      if w != t {
        assert WillWake(s', w, pc.c, pc.op);
      }
    }
  }

  lemma WakefulRun(run: seq<State>, sched: seq<(nat, Choice)>, i: nat)
    requires IsRun(run, sched) && i < |run|
    ensures Wakeful(run[i])
  {
    hide Step, Inv;
    if i > 0 {
      WakefulRun(run, sched, i - 1);
      InvRun(run, sched, i - 1);
      assert Step(run[i - 1], sched[i - 1].0, sched[i - 1].1) == Some(run[i - 1 + 1]);
      WakefulStep(run[i - 1], sched[i - 1].0, sched[i - 1].1);
    }
  }

  /** In every reachable state, whoever sleeps on a channel finds it full, or empty;
      or else another thread has just taken a value, or stored one, still holds the
      channel's lock, and wakes the sleepers of the other direction with its next step. */
  lemma NoLostWakeup(run: seq<State>, sched: seq<(nat, Choice)>, i: nat, t: nat, c: nat, op: Op)
    requires IsRun(run, sched) && i < |run| && t < |run[i].tasks| && run[i].tasks[t].pc == Asleep(c, op)
    ensures c < |run[i].chans|
    ensures
      var full := if op.Send? then IsFull(run[i].chans[c].ring) else IsEmpty(run[i].chans[c].ring);
      full || (run[i].chans[c].mu.Some? &&
        var u := run[i].chans[c].mu.value;
        && u < |run[i].tasks| && run[i].tasks[u].pc.Signal? && run[i].tasks[u].pc.c == c
        && run[i].tasks[u].pc.op.Recv? == op.Send?
        && Step(run[i], u, Go).Some? && t < |Step(run[i], u, Go).value.tasks|
        && Step(run[i], u, Go).value.tasks[t].pc == Woken(c, op))
  {
    InvRun(run, sched, i);
    WakefulRun(run, sched, i);
    var s := run[i];
    assert WakefulAt(s, t) && PcOk(s, t);
    PublishedIn(s, c);
    if !Stuck(s, c, op) {
      var u :| 0 <= u < |s.tasks| && WillWake(s, u, c, op);
      assert Held(s, s.tasks[u].pc) == Some(c);
      NextWakes(s, u, t, c, op);
    }
  }

  lemma PublishedIn(s: State, c: nat)
    requires SlotsOk(s) && Published(s, c)
    ensures c < |s.chans|
  {
    var j :| 0 <= j < s.nchans && s.slots[..s.nchans][j] == c;
    assert s.slots[j] == c;
  }

  lemma NextWakes(s: State, u: nat, t: nat, c: nat, op: Op)
    requires u < |s.tasks| && t < |s.tasks| && WillWake(s, u, c, op) && s.tasks[t].pc == Asleep(c, op)
    ensures Step(s, u, Go).Some? && t < |Step(s, u, Go).value.tasks|
    ensures Step(s, u, Go).value.tasks[t].pc == Woken(c, op)
  {
  }

  /** So once nobody is about to signal on a channel, nobody sleeps on it who could
      move; and a channel is never both full for a sleeping sender and empty for a
      sleeping receiver. */
  lemma SleepersCannotMove(run: seq<State>, sched: seq<(nat, Choice)>, i: nat, t: nat, u: nat, c: nat, op: Op)
    requires IsRun(run, sched) && i < |run| && t < |run[i].tasks| && u < |run[i].tasks|
    requires forall w :: 0 <= w < |run[i].tasks| ==> !(run[i].tasks[w].pc.Signal? && run[i].tasks[w].pc.c == c)
    requires run[i].tasks[t].pc == Asleep(c, op)
    ensures c < |run[i].chans| && Blocked(run[i].chans[c].ring, op)
    ensures run[i].tasks[u].pc.Asleep? && run[i].tasks[u].pc.c == c ==> run[i].tasks[u].pc.op.Send? == op.Send?
  {
    NoLostWakeup(run, sched, i, t, c, op);
    InvRun(run, sched, i);
    assert QueueOk(run[i].chans[c]);
    if run[i].tasks[u].pc.Asleep? && run[i].tasks[u].pc.c == c {
      NoLostWakeup(run, sched, i, u, c, run[i].tasks[u].pc.op);
    }
  }
}
