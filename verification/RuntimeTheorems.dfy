/** What the native runtime promises, over every run of the step system. */
module RuntimeTheorems {
  import opened Options
  import opened RingBuffer
  import opened Runtime
  import opened RuntimeInvariants

  /** Bounded, ordered, exactly once: in every reachable state each ring is a
      ring, the accepted values are the delivered ones followed by the queued
      ones, and every thread's share of both histories is exactly what its
      successful calls reported, plus a call that moved its value and has not
      returned yet. A failed call therefore left no trace. */
  lemma DeliversExactlyOnceInOrder(run: seq<State>, sched: seq<(nat, Choice)>, i: nat, c: nat)
    requires IsRun(run, sched) && i < |run| && c < |run[i].chans|
    ensures var ch := run[i].chans[c];
      && 0 < |ch.ring.buf| && ch.ring.cnt <= |ch.ring.buf|
      && ch.ring.tail == (ch.ring.head + ch.ring.cnt) % |ch.ring.buf|
      && WellFormed(ch.ring)
      && Vals(ch.accepted) == Vals(ch.delivered) + Contents(ch.ring)
    ensures forall t :: 0 <= t < |run[i].tasks| ==>
      var me := run[i].tasks[t];
      && By(run[i].chans[c].accepted, t) == SentOn(me.log, c) + InFlight(me.pc, c, true)
      && By(run[i].chans[c].delivered, t) == ReceivedOn(me.log, c) + InFlight(me.pc, c, false)
  {
    InvRun(run, sched, i);
    forall t | 0 <= t < |run[i].tasks|
      ensures var me := run[i].tasks[t];
        && By(run[i].chans[c].accepted, t) == SentOn(me.log, c) + InFlight(me.pc, c, true)
        && By(run[i].chans[c].delivered, t) == ReceivedOn(me.log, c) + InFlight(me.pc, c, false)
    {
      assert LedgerOk(run[i], t, c);
    }
  }

  /** Histories only grow, so "in order" speaks about the whole run. */
  lemma HistoriesGrow(run: seq<State>, sched: seq<(nat, Choice)>, i: nat, j: nat, c: nat)
    requires IsRun(run, sched) && i <= j < |run| && c < |run[i].chans|
    ensures c < |run[j].chans|
    ensures run[i].chans[c].accepted <= run[j].chans[c].accepted
    ensures run[i].chans[c].delivered <= run[j].chans[c].delivered
    decreases j - i
  {
    hide Step, Inv;
    if i < j {
      assert Step(run[i], sched[i].0, sched[i].1) == Some(run[i + 1]);
      DataEffectStep(run[i], sched[i].0, sched[i].1);
      MoveEffectStep(run[i], sched[i].0, sched[i].1);
      assert SameData(run[i].chans[c], run[i + 1].chans[c]) || run[i].tasks[sched[i].0].pc.Move?;
      HistoriesGrow(run, sched, i + 1, j, c);
    }
  }

  /** Two threads never hold the same channel lock. */
  lemma MutualExclusion(run: seq<State>, sched: seq<(nat, Choice)>, i: nat, t: nat, u: nat)
    requires IsRun(run, sched) && i < |run| && t < |run[i].tasks| && u < |run[i].tasks| && t != u
    ensures Held(run[i], run[i].tasks[t].pc).Some? ==>
      Held(run[i], run[i].tasks[t].pc) != Held(run[i], run[i].tasks[u].pc)
  {
    InvRun(run, sched, i);
  }

  /** A task of the scope panicked and its broadcast loop ran to the end. */
  ghost predicate BroadcastDone(s: State, p: nat, scope: nat) {
    p < |s.tasks| && InScope(s, p, scope) && s.tasks[p].pc.Ended? && s.tasks[p].state == 2
  }

  lemma ClearOfWaiters(s: State, p: nat, scope: nat, t: nat)
    requires Inv(s) && BroadcastDone(s, p, scope) && t < |s.tasks| && InScope(s, t, scope)
    ensures !s.tasks[t].pc.Wait? && !s.tasks[t].pc.Asleep?
  {
    assert SweepOk(s, p, scope) && PcOk(s, t);
  }

  /** No lost cancellation: from the moment a panicking task of a scope has
      finished the broadcast loop, no task of that scope sleeps, or is about to
      sleep, on any channel, registered before, during or after the loop. */
  lemma NoLostCancellation(run: seq<State>, sched: seq<(nat, Choice)>, i: nat, j: nat, p: nat, scope: nat, t: nat)
    requires IsRun(run, sched) && i <= j < |run| && BroadcastDone(run[i], p, scope)
    requires t < |run[j].tasks| && InScope(run[j], t, scope)
    ensures !run[j].tasks[t].pc.Wait? && !run[j].tasks[t].pc.Asleep?
    ensures scope in run[j].cancelled
  {
    DoneStays(run, sched, i, j, p, scope);
    InvRun(run, sched, j);
    ClearOfWaiters(run[j], p, scope, t);
    assert TaskOk(run[j], p);
  }

  lemma DoneStays(run: seq<State>, sched: seq<(nat, Choice)>, i: nat, j: nat, p: nat, scope: nat)
    requires IsRun(run, sched) && i <= j < |run| && BroadcastDone(run[i], p, scope)
    ensures BroadcastDone(run[j], p, scope)
    decreases j - i
  {
    if i < j {
      assert Step(run[i], sched[i].0, sched[i].1) == Some(run[i + 1]);
      StepFrame(run[i], sched[i].0, sched[i].1);
      SameScope(run[i], sched[i].0, sched[i].1);
      TaskEffectStep(run[i], sched[i].0, sched[i].1);
      DoneStays(run, sched, i + 1, j, p, scope);
    }
  }

  /** A call that has not moved a value yet and is not asleep. */
  predicate Waiting(pc: Pc, c: nat, op: Op) {
    (pc.Lock? || pc.Woken? || pc.Test? || pc.Check? || pc.Fail?) && pc.c == c && pc.op == op
  }

  /** Own steps left until the error is reported. */
  function StepsLeft(pc: Pc): nat {
    match pc
    case Lock(_, _) => 4
    case Woken(_, _) => 4
    case Test(_, _) => 3
    case Check(_, _) => 2
    case _ => 1
  }

  function Moves(sched: seq<(nat, Choice)>, t: nat, i: nat, j: nat): nat
    requires i <= j <= |sched|
  {
    if i == j then 0 else Moves(sched, t, i, j - 1) + if sched[j - 1].0 == t then 1 else 0
  }

  lemma LogsGrow(run: seq<State>, sched: seq<(nat, Choice)>, j: nat, t: nat)
    requires IsRun(run, sched) && j < |sched| && t < |run[j].tasks|
    ensures t < |run[j + 1].tasks| && run[j].tasks[t].log <= run[j + 1].tasks[t].log
  {
    assert Step(run[j], sched[j].0, sched[j].1) == Some(run[j + 1]);
    StepFrame(run[j], sched[j].0, sched[j].1);
    LogEffectStep(run[j], sched[j].0, sched[j].1);
    MoveEffectStep(run[j], sched[j].0, sched[j].1);
  }

  /** One step of a waiting call of a cancelled scope on a blocked channel. */
  lemma WaitingStep(s: State, t: nat, ch: Choice, who: nat, c: nat, op: Op)
    requires Inv(s) && Step(s, who, ch).Some? && t < |s.tasks| && t < |Step(s, who, ch).value.tasks|
    requires Stopped(s, t) && Waiting(s.tasks[t].pc, c, op)
    requires c < |s.chans| && Blocked(s.chans[c].ring, op)
    ensures var a, b := s.tasks[t], Step(s, who, ch).value.tasks[t];
      if who != t then b == a
      else if a.pc.Fail? then b.log == a.log + [Failed(c, op)] && b.pc.Running?
      else b.log == a.log && Waiting(b.pc, c, op) && StepsLeft(b.pc) == StepsLeft(a.pc) - 1
  {
    StepFrame(s, who, ch);
  }

  /** After `n` own steps a call that began with log `log` either has reported
      the error or is that many steps closer to it. */
  predicate OnTheWay(log: seq<Event>, left: nat, n: nat, me: Task, c: nat, op: Op) {
    || log + [Failed(c, op)] <= me.log
    || (me.log == log && Waiting(me.pc, c, op) && StepsLeft(me.pc) + n == left)
  }

  lemma OneStepCloser(s: State, who: nat, ch: Choice, s': State, t: nat, c: nat, op: Op,
                      log: seq<Event>, left: nat, n: nat)
    requires Inv(s) && Step(s, who, ch) == Some(s') && t < |s.tasks| && t < |s'.tasks|
    requires s.tasks[t].log <= s'.tasks[t].log && Stopped(s, t)
    requires c < |s.chans| && Blocked(s.chans[c].ring, op)
    requires OnTheWay(log, left, n, s.tasks[t], c, op)
    ensures OnTheWay(log, left, if who == t then n + 1 else n, s'.tasks[t], c, op)
  {
    if !(log + [Failed(c, op)] <= s.tasks[t].log) {
      WaitingStep(s, t, ch, who, c, op);
    }
  }

  /** On a channel that stays blocked, a pending call of the scope reports the
      cancellation: its next event is the error, and it comes after at most
      four steps of its own thread. */
  lemma PendingCallReturnsErr(run: seq<State>, sched: seq<(nat, Choice)>, i: nat, j: nat,
                              p: nat, scope: nat, t: nat, c: nat, op: Op)
    requires IsRun(run, sched) && i <= j < |run| && BroadcastDone(run[i], p, scope)
    requires t < |run[i].tasks| && InScope(run[i], t, scope) && Waiting(run[i].tasks[t].pc, c, op)
    requires forall k :: i <= k <= j ==> c < |run[k].chans| && Blocked(run[k].chans[c].ring, op)
    ensures t < |run[j].tasks|
    ensures OnTheWay(run[i].tasks[t].log, StepsLeft(run[i].tasks[t].pc), Moves(sched, t, i, j), run[j].tasks[t], c, op)
    ensures Moves(sched, t, i, j) >= 4 ==> run[i].tasks[t].log + [Failed(c, op)] <= run[j].tasks[t].log
    decreases j - i
  {
    hide Step, BroadcastDone, Inv, Blocked;
    if i < j {
      PendingCallReturnsErr(run, sched, i, j - 1, p, scope, t, c, op);
      var (who, ch) := sched[j - 1];
      assert Step(run[j - 1], who, ch) == Some(run[j - 1 + 1]);
      LogsGrow(run, sched, j - 1, t);
      StillCancelled(run, sched, i, j - 1, p, scope, t);
      OneStepCloser(run[j - 1], who, ch, run[j], t, c, op,
                    run[i].tasks[t].log, StepsLeft(run[i].tasks[t].pc), Moves(sched, t, i, j - 1));
    }
  }

  lemma StillCancelled(run: seq<State>, sched: seq<(nat, Choice)>, i: nat, j: nat, p: nat, scope: nat, t: nat)
    requires IsRun(run, sched) && i <= j < |run| && BroadcastDone(run[i], p, scope)
    requires t < |run[i].tasks| && InScope(run[i], t, scope)
    ensures t < |run[j].tasks| && Stopped(run[j], t) && Inv(run[j])
  {
    InvRun(run, sched, j);
    DoneStays(run, sched, i, j, p, scope);
    ScopesStay(run, sched, i, j, t);
    assert TaskOk(run[j], p);
  }

  lemma ScopesStay(run: seq<State>, sched: seq<(nat, Choice)>, i: nat, j: nat, t: nat)
    requires IsRun(run, sched) && i <= j < |run| && t < |run[i].tasks|
    ensures t < |run[j].tasks| && run[j].tasks[t].scope == run[i].tasks[t].scope
    decreases j - i
  {
    if i < j {
      assert Step(run[i], sched[i].0, sched[i].1) == Some(run[i + 1]);
      SameScope(run[i], sched[i].0, sched[i].1);
      ScopesStay(run, sched, i + 1, j, t);
    }
  }

  /** Whoever holds a channel lock or the registry lock can always move, and a
      call that is not asleep is stopped by nothing but a taken channel lock. */
  lemma LockHolderCanMove(run: seq<State>, sched: seq<(nat, Choice)>, i: nat, t: nat)
    requires IsRun(run, sched) && i < |run| && t < |run[i].tasks|
    ensures Held(run[i], run[i].tasks[t].pc).Some? || InRegistry(run[i].tasks[t].pc) ==>
      Step(run[i], t, Go).Some?
    ensures run[i].tasks[t].pc.Lock? || run[i].tasks[t].pc.Woken? ==>
      var c := run[i].tasks[t].pc.c;
      c < |run[i].chans| && (Step(run[i], t, Go).None? <==> run[i].chans[c].mu.Some?)
  {
    InvRun(run, sched, i);
    HolderMoves(run[i], t);
  }

  lemma HolderMoves(s: State, t: nat)
    requires Inv(s) && t < |s.tasks|
    ensures Held(s, s.tasks[t].pc).Some? || InRegistry(s.tasks[t].pc) ==> Step(s, t, Go).Some?
    ensures s.tasks[t].pc.Lock? || s.tasks[t].pc.Woken? ==>
      s.tasks[t].pc.c < |s.chans| && (Step(s, t, Go).None? <==> s.chans[s.tasks[t].pc.c].mu.Some?)
  {
    assert PcOk(s, t);
    var pc := s.tasks[t].pc;
    if pc.Lock? || pc.Woken? {
      var j :| 0 <= j < s.nchans && s.slots[..s.nchans][j] == pc.c;
      assert s.slots[j] == pc.c;
    } else if pc.Move? {
      assert QueueOk(s.chans[pc.c]);
    }
  }

  /** A channel call fails only in a cancelled scope, and a scope is cancelled
      only by a task of its own that panicked. */
  lemma FailureHasACulprit(run: seq<State>, sched: seq<(nat, Choice)>, i: nat, t: nat, c: nat, op: Op)
    requires IsRun(run, sched) && i < |run| && t < |run[i].tasks| && Failed(c, op) in run[i].tasks[t].log
    ensures run[i].tasks[t].scope.Some?
    ensures exists p :: 0 <= p < |run[i].tasks| && run[i].tasks[p].state == 2 &&
                        InScope(run[i], p, run[i].tasks[t].scope.value)
  {
    InvRun(run, sched, i);
    assert TaskOk(run[i], t) && EventOk(run[i], t, Failed(c, op));
  }

  /** A join reports the result of a task that returned and an error for a task
      that panicked, after the task ended. */
  lemma JoinTellsTheTruth(run: seq<State>, sched: seq<(nat, Choice)>, i: nat, t: nat, u: nat, r: Option<int>)
    requires IsRun(run, sched) && i < |run| && t < |run[i].tasks| && Joined(u, r) in run[i].tasks[t].log
    ensures u < |run[i].tasks| && run[i].tasks[u].pc.Ended?
    ensures r.None? <==> run[i].tasks[u].state == 2
    ensures r.Some? ==> run[i].tasks[u].state == 1 && r.value == run[i].tasks[u].result
  {
    InvRun(run, sched, i);
    assert TaskOk(run[i], t) && EventOk(run[i], t, Joined(u, r));
    assert TaskOk(run[i], u);
  }
}
