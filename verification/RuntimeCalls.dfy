/** What was asked for is what is answered: the reports a thread gets are, one for one
    and in order, those of the calls it made. */
module RuntimeCalls {
  import opened Options
  import opened RingBuffer
  import opened Runtime
  import opened RuntimeInvariants

  predicate IsCall(ch: Choice) { ch.DoOp? || ch.DoMake? || ch.DoJoin? }

  /** The calls that user code of thread `t` made in the first `i` steps. */
  ghost function Asked(run: seq<State>, sched: seq<(nat, Choice)>, t: nat, i: nat): seq<Choice>
    requires IsRun(run, sched) && i < |run|
  {
    if i == 0 then []
    else
      Asked(run, sched, t, i - 1) +
      var (who, ch) := sched[i - 1];
      if who == t && t < |run[i - 1].tasks| && run[i - 1].tasks[t].pc.Running? && IsCall(ch) then [ch] else []
  }

  /** What may be reported for a call: the value that was sent, some value received,
      the channel that was made, the task that was joined; or that the call failed.
      That the joined task panicked is reported by `ct_join_or` alone. */
  predicate Answers(s: State, ch: Choice, e: Event) {
    match ch
    case DoOp(c, Send(v)) => e == Sent(c, v) || e == Failed(c, Send(v))
    case DoOp(c, Recv) => (e.Received? && e.c == c) || e == Failed(c, Recv)
    case DoMake(cap) => e.Made? && e.c < |s.chans| && |s.chans[e.c].ring.buf| == if cap < 1 then 1 else cap
    case DoJoin(u, orElse) => e.Joined? && e.u == u && (e.result == None ==> orElse)
    case _ => false
  }

  /** Where a thread stands with a call that is not answered yet. Only `ct_join` takes
      its caller along into a panic. */
  predicate Under(s: State, ch: Choice, pc: Pc) {
    match ch
    case DoOp(c, op) =>
      IsOp(pc) && pc.c == c && pc.op == op && (op.Send? && (pc.Signal? || pc.Release?) ==> pc.got == op.val)
    case DoMake(cap) => IsMake(pc) && pc.c < |s.chans| && |s.chans[pc.c].ring.buf| == if cap < 1 then 1 else cap
    case DoJoin(u, orElse) => pc == Joining(u, orElse) || (!orElse && (IsPanic(pc) || pc.Ended?))
    case _ => false
  }

  ghost predicate InOrder(s: State, asked: seq<Choice>, t: nat)
    requires t < |s.tasks|
  {
    var log, pc := s.tasks[t].log, s.tasks[t].pc;
    && |log| <= |asked| <= |log| + 1
    && (forall k :: 0 <= k < |log| ==> Answers(s, asked[k], log[k]))
    && (|asked| == |log| + 1 ==> Under(s, asked[|log|], pc))
    && (|asked| == |log| ==> pc.Running? || IsPanic(pc) || pc.Ended?)
  }

  /** What a step of `t` does to its call. */
  ghost predicate CallEffect(s: State, t: nat, ch: Choice, s': State)
    requires t < |s.tasks| && t < |s'.tasks|
  {
    var a, b := s.tasks[t], s'.tasks[t];
    if a.pc.Running? && IsCall(ch) then b.log == a.log && Under(s', ch, b.pc)
    else if a.pc.Running? then b.log == a.log && (b.pc.Running? || IsPanic(b.pc) || b.pc.Ended?)
    else if IsPanic(a.pc) then b.log == a.log && (IsPanic(b.pc) || b.pc.Ended?)
    else
      forall call :: Under(s, call, a.pc) ==>
        || (b.log == a.log && Under(s', call, b.pc))
        || (|b.log| == |a.log| + 1 && b.log[..|a.log|] == a.log && Answers(s', call, b.log[|a.log|]) && b.pc.Running?)
  }

  /** Rings keep their size. */
  ghost predicate SameSizes(s: State, s': State) {
    |s.chans| <= |s'.chans| && forall c :: 0 <= c < |s.chans| ==> |s'.chans[c].ring.buf| == |s.chans[c].ring.buf|
  }

  lemma SizesStep(s: State, t: nat, ch: Choice)
    requires Step(s, t, ch).Some?
    ensures SameSizes(s, Step(s, t, ch).value) && t < |s.tasks|
  {
    StepFrame(s, t, ch);
    DataEffectStep(s, t, ch);
    MoveEffectStep(s, t, ch);
    var s' := Step(s, t, ch).value;
    forall c | 0 <= c < |s.chans|
      ensures |s'.chans[c].ring.buf| == |s.chans[c].ring.buf|
    {
      assert SameData(s.chans[c], s'.chans[c]) || (s.tasks[t].pc.Move? && s.tasks[t].pc.c == c);
    }
  }

  lemma CallEffectOp(s: State, t: nat, ch: Choice)
    requires t < |s.tasks| && IsOp(s.tasks[t].pc) && StepOp(s, t).Some? && t < |StepOp(s, t).value.tasks|
    ensures CallEffect(s, t, ch, StepOp(s, t).value)
  {
    hide Put, Take, WellFormed;
  }

  lemma CallEffectMake(s: State, t: nat, ch: Choice)
    requires t < |s.tasks| && IsMake(s.tasks[t].pc) && StepMake(s, t).Some? && t < |StepMake(s, t).value.tasks|
    ensures CallEffect(s, t, ch, StepMake(s, t).value)
  {
  }

  lemma CallEffectRunning(s: State, t: nat, ch: Choice)
    requires t < |s.tasks| && s.tasks[t].pc.Running? && StepRunning(s, t, ch).Some?
    requires t < |StepRunning(s, t, ch).value.tasks|
    ensures CallEffect(s, t, ch, StepRunning(s, t, ch).value)
  {
  }

  lemma CallEffectStep(s: State, t: nat, ch: Choice)
    requires Step(s, t, ch).Some? && t < |s.tasks| && t < |Step(s, t, ch).value.tasks|
    ensures CallEffect(s, t, ch, Step(s, t, ch).value)
  {
    hide StepRunning, StepOp, StepMake, StepPanic, CallEffect;
    var pc := s.tasks[t].pc;
    if pc.Running? {
      CallEffectRunning(s, t, ch);
    } else if IsOp(pc) {
      CallEffectOp(s, t, ch);
    } else if IsMake(pc) {
      CallEffectMake(s, t, ch);
    } else if IsPanic(pc) {
      CallEffectPanic(s, t, ch);
    } else {
      CallEffectJoin(s, t, ch);
    }
  }

  lemma CallEffectPanic(s: State, t: nat, ch: Choice)
    requires t < |s.tasks| && IsPanic(s.tasks[t].pc) && StepPanic(s, t).Some? && t < |StepPanic(s, t).value.tasks|
    ensures CallEffect(s, t, ch, StepPanic(s, t).value)
  {
  }

  lemma CallEffectJoin(s: State, t: nat, ch: Choice)
    requires t < |s.tasks| && StepJoin(s, t).Some? && t < |StepJoin(s, t).value.tasks|
    ensures CallEffect(s, t, ch, StepJoin(s, t).value)
  {
  }

  lemma AnswersStay(s: State, s': State, ch: Choice, e: Event)
    requires SameSizes(s, s') && Answers(s, ch, e)
    ensures Answers(s', ch, e)
  {
  }

  /** The thread that moves. */
  lemma OwnOrder(s: State, t: nat, ch: Choice, s': State, asked: seq<Choice>)
    requires t < |s.tasks| && t < |s'.tasks| && InOrder(s, asked, t) && CallEffect(s, t, ch, s') && SameSizes(s, s')
    requires !s.tasks[t].pc.Ended?
    ensures InOrder(s', asked + (if s.tasks[t].pc.Running? && IsCall(ch) then [ch] else []), t)
  {
    hide Answers;
    var a, b := s.tasks[t], s'.tasks[t];
    forall k | 0 <= k < |a.log|
      ensures Answers(s', asked[k], a.log[k])
    {
      AnswersStay(s, s', asked[k], a.log[k]);
    }
  }

  /** Another one. */
  lemma OtherOrder(s: State, t: nat, s': State, u: nat, asked: seq<Choice>)
    requires u < |s.tasks| && u != t && InOrder(s, asked, u) && Frame(s, t, s') && SameSizes(s, s')
    ensures u < |s'.tasks| && InOrder(s', asked, u)
  {
    hide Answers;
    forall k | 0 <= k < |s.tasks[u].log|
      ensures Answers(s', asked[k], s.tasks[u].log[k])
    {
      AnswersStay(s, s', asked[k], s.tasks[u].log[k]);
    }
  }

  lemma EndedStays(s: State, t: nat, ch: Choice)
    requires Step(s, t, ch).Some? && t < |s.tasks|
    ensures !s.tasks[t].pc.Ended?
  {
  }

  lemma {:induction false} AskedBefore(run: seq<State>, sched: seq<(nat, Choice)>, t: nat, i: nat)
    requires IsRun(run, sched) && i < |run| && |run[i].tasks| <= t
    ensures Asked(run, sched, t, i) == []
  {
    if i > 0 {
      assert Step(run[i - 1], sched[i - 1].0, sched[i - 1].1) == Some(run[i - 1 + 1]);
      StepFrame(run[i - 1], sched[i - 1].0, sched[i - 1].1);
      AskedBefore(run, sched, t, i - 1);
    }
  }

  lemma {:induction false} OrderRun(run: seq<State>, sched: seq<(nat, Choice)>, i: nat, t: nat)
    requires IsRun(run, sched) && i < |run| && t < |run[i].tasks|
    ensures InOrder(run[i], Asked(run, sched, t, i), t)
  {
    hide Step, Frame, InOrder;
    if i == 0 {
      StartsInOrder();
    } else {
      var s := run[i - 1];
      var (who, ch) := sched[i - 1];
      assert Step(s, who, ch) == Some(run[i - 1 + 1]);
      StepFrame(s, who, ch);
      SizesStep(s, who, ch);
      if t < |s.tasks| {
        OrderRun(run, sched, i - 1, t);
        if who == t {
          TaskStays(s, who, ch);
          CallEffectStep(s, t, ch);
          EndedStays(s, t, ch);
          OwnOrder(s, t, ch, run[i], Asked(run, sched, t, i - 1));
        } else {
          OtherOrder(s, who, run[i], t, Asked(run, sched, t, i - 1));
          assert Asked(run, sched, t, i) == Asked(run, sched, t, i - 1) + [] == Asked(run, sched, t, i - 1);
        }
      } else {
        AskedBefore(run, sched, t, i - 1);
        assert Asked(run, sched, t, i) == [];
        NewInOrder(s, who, run[i], t);
      }
    }
  }

  lemma StartsInOrder()
    ensures |Init().tasks| == 1 && InOrder(Init(), [], 0)
  {
  }

  lemma TaskStays(s: State, t: nat, ch: Choice)
    requires Step(s, t, ch).Some?
    ensures t < |s.tasks| <= |Step(s, t, ch).value.tasks|
  {
    StepFrame(s, t, ch);
  }

  lemma NewInOrder(s: State, t: nat, s': State, u: nat)
    requires Frame(s, t, s') && |s.tasks| <= u < |s'.tasks|
    ensures InOrder(s', [], u)
  {
  }

  /** In every reachable state, what a thread was told are the answers to its calls, one
      for one and in order; at most the last call is not answered yet, and none when
      user code runs again. */
  lemma CallsAreAnswered(run: seq<State>, sched: seq<(nat, Choice)>, i: nat, t: nat)
    requires IsRun(run, sched) && i < |run| && t < |run[i].tasks|
    ensures
      var log, asked := run[i].tasks[t].log, Asked(run, sched, t, i);
      && |log| <= |asked| <= |log| + 1
      && (forall k :: 0 <= k < |log| ==> Answers(run[i], asked[k], log[k]))
      && (run[i].tasks[t].pc.Running? ==> |asked| == |log|)
      && (|asked| == |log| + 1 && (IsPanic(run[i].tasks[t].pc) || run[i].tasks[t].pc.Ended?) ==>
           exists u :: asked[|log|] == DoJoin(u, false))
  {
    hide Asked;
    OrderRun(run, sched, i, t);
    var log, asked, pc := run[i].tasks[t].log, Asked(run, sched, t, i), run[i].tasks[t].pc;
    if |asked| == |log| + 1 && (IsPanic(pc) || pc.Ended?) {
      assert asked[|log|] == DoJoin(asked[|log|].u, false);
    }
  }

  // ---------- Results and scopes ----------

  /** Some step spawned `t` in that scope. */
  ghost predicate SpawnedIn(run: seq<State>, sched: seq<(nat, Choice)>, t: nat, i: nat, scope: Option<nat>)
    requires IsRun(run, sched) && i < |run|
  {
    exists j :: 0 <= j < i && |run[j].tasks| == t && sched[j].1 == DoSpawn(scope)
  }

  ghost predicate ReturnedWith(run: seq<State>, sched: seq<(nat, Choice)>, t: nat, i: nat, v: int)
    requires IsRun(run, sched) && i < |run|
  {
    exists j :: 0 <= j < i && sched[j] == (t, DoReturn(v))
  }

  lemma ResultStep(s: State, t: nat, ch: Choice, u: nat)
    requires Step(s, t, ch).Some? && u < |Step(s, t, ch).value.tasks|
    ensures
      var s' := Step(s, t, ch).value;
      if u < |s.tasks| then
        && s'.tasks[u].scope == s.tasks[u].scope
        && (s'.tasks[u].state == 1 ==>
             || (s.tasks[u].state == 1 && s'.tasks[u].result == s.tasks[u].result)
             || (u == t && ch == DoReturn(s'.tasks[u].result)))
      else u == |s.tasks| && ch == DoSpawn(s'.tasks[u].scope) && s'.tasks[u].state == 0
  {
    hide Put, Take, WellFormed, Make;
    StepFrame(s, t, ch);
    var pc := s.tasks[t].pc;
    if IsOp(pc) {
      ResultOp(s, t);
    } else if IsPanic(pc) {
      ResultPanic(s, t);
    }
  }

  lemma ResultOp(s: State, t: nat)
    requires t < |s.tasks| && StepOp(s, t).Some?
    ensures
      var s' := StepOp(s, t).value;
      |s'.tasks| == |s.tasks| && forall u :: 0 <= u < |s.tasks| ==>
        s'.tasks[u].scope == s.tasks[u].scope && s'.tasks[u].state == s.tasks[u].state
        && s'.tasks[u].result == s.tasks[u].result
  {
    hide Put, Take, WellFormed;
  }

  lemma ResultPanic(s: State, t: nat)
    requires t < |s.tasks| && StepPanic(s, t).Some?
    ensures
      var s' := StepPanic(s, t).value;
      |s'.tasks| == |s.tasks| && forall u :: 0 <= u < |s.tasks| ==>
        s'.tasks[u].scope == s.tasks[u].scope && s'.tasks[u].result == s.tasks[u].result
        && (s'.tasks[u].state == s.tasks[u].state || s'.tasks[u].state == 2)
  {
  }

  lemma Later(run: seq<State>, sched: seq<(nat, Choice)>, t: nat, i: nat, scope: Option<nat>, v: int)
    requires IsRun(run, sched) && i + 1 < |run|
    ensures SpawnedIn(run, sched, t, i, scope) ==> SpawnedIn(run, sched, t, i + 1, scope)
    ensures ReturnedWith(run, sched, t, i, v) ==> ReturnedWith(run, sched, t, i + 1, v)
  {
  }

  /** A task belongs to the scope it was spawned in, and the result of one that returned
      is what it returned. */
  lemma {:induction false} TasksAreAsAsked(run: seq<State>, sched: seq<(nat, Choice)>, i: nat, t: nat)
    requires IsRun(run, sched) && i < |run| && t < |run[i].tasks|
    ensures if t == 0 then run[i].tasks[0].scope == None else SpawnedIn(run, sched, t, i, run[i].tasks[t].scope)
    ensures run[i].tasks[t].state == 1 ==> ReturnedWith(run, sched, t, i, run[i].tasks[t].result)
  {
    hide Step;
    if i > 0 {
      var s := run[i - 1];
      var (who, ch) := sched[i - 1];
      assert Step(s, who, ch) == Some(run[i - 1 + 1]);
      TaskStays(s, who, ch);
      ResultStep(s, who, ch, t);
      if t < |s.tasks| {
        TasksAreAsAsked(run, sched, i - 1, t);
        Later(run, sched, t, i - 1, run[i].tasks[t].scope, run[i].tasks[t].result);
        assert sched[i - 1] == (t, DoReturn(run[i].tasks[t].result)) ==>
          ReturnedWith(run, sched, t, i, run[i].tasks[t].result);
      } else {
        assert |run[i - 1].tasks| == t && sched[i - 1].1 == DoSpawn(run[i].tasks[t].scope);
      }
    }
  }
}
