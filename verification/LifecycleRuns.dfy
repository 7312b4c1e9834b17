/**
 What holds over whole runs of the runtime, provided no Shutdown takes its first lock while Run is
 still starting things up; and that this proviso is exactly what is needed.
 */
module LifecycleRuns {
  import opened Common
  import opened LifecycleProtocol

  lemma {:induction false} RunKeepsInv(s: State, steps: seq<Step>, t: State)
    requires Inv(s) && Reaches(s, steps, t) && Orderly(s, steps)
    ensures Inv(t) && Rank(s.state) <= Rank(t.state)
    decreases |steps|
  {
    if steps != [] {
      StepKeepsInv(s, steps[0]);
      RunKeepsInv(Do(s, steps[0]), steps[1..], t);
    }
  }

  /**
   Every orderly run closes shutdownDone at most once, and exactly when it is Stopped; every Shutdown
   that was not cut off by its context has returned the same error; names and components correspond;
   and what has been stopped is exactly what StoppedInOrder says, in that order.
   */
  lemma OrderlyRunsAreSafe(servers: seq<nat>, steps: seq<Step>, t: State)
    requires Reaches(Init(servers), steps, t) && Orderly(Init(servers), steps)
    ensures t.closes <= 1 && (t.closes == 1 <==> t.state == Stopped)
    ensures forall i, j :: 0 <= i < |t.calls| && 0 <= j < |t.calls| && t.calls[i].Answered? && t.calls[j].Answered? ==>
      t.calls[i].err == t.calls[j].err
    ensures IndexOK(t) && StoppedInOrder(t)
  {
    InitOK(servers);
    RunKeepsInv(Init(servers), steps, t);
    forall i | 0 <= i < |t.calls| ensures t.calls[i].Answered? ==> t.calls[i].err == t.err {
      assert CallOK(t, t.calls[i]);
    }
  }

  // ----- One leader, and answers are final

  predicate Settled(c: Call) {
    c.Answered? || c.CutOff?
  }

  /** From s to t calls only move on: settled ones stay, and no second call becomes the leader. */
  ghost predicate CallsMoveOn(s: State, t: State) {
    && |s.calls| <= |t.calls|
    && (forall i :: 0 <= i < |s.calls| && Settled(s.calls[i]) ==> t.calls[i] == s.calls[i])
    && (forall i :: 0 <= i < |s.calls| && t.calls[i].Leader? ==> s.calls[i].Leader?)
    && (Rank(s.state) >= 3 ==> forall i :: |s.calls| <= i < |t.calls| ==> !t.calls[i].Leader?)
  }

  lemma StepMovesOn(s: State, step: Step)
    requires Inv(s) && Enabled(s, step) && !Early(s, step)
    ensures CallsMoveOn(s, Do(s, step))
  {
    hide IndexOK, StopPlan, StartPlan;
  }

  lemma MovesOnTransitively(s: State, m: State, t: State)
    requires CallsMoveOn(s, m) && CallsMoveOn(m, t) && Rank(s.state) <= Rank(m.state)
    ensures CallsMoveOn(s, t)
  {
  }

  lemma {:induction false} RunMovesOn(s: State, steps: seq<Step>, t: State)
    requires Inv(s) && Reaches(s, steps, t) && Orderly(s, steps)
    ensures CallsMoveOn(s, t)
    decreases |steps|
  {
    if steps != [] {
      var m := Do(s, steps[0]);
      StepMovesOn(s, steps[0]);
      StepKeepsInv(s, steps[0]);
      RunMovesOn(m, steps[1..], t);
      MovesOnTransitively(s, m, t);
    }
  }

  /** In one orderly run at most one Shutdown call ever stops items. */
  lemma OneLeader(s: State, steps: seq<Step>, t: State, i: nat, j: nat)
    requires Inv(s) && Reaches(s, steps, t) && Orderly(s, steps)
    requires i < |s.calls| && s.calls[i].Leader? && j < |t.calls| && t.calls[j].Leader?
    ensures i == j
  {
    RunMovesOn(s, steps, t);
    assert CallOK(s, s.calls[i]);
  }

  // ----- The order of stopping

  /** Reversal, position by position. */
  lemma {:induction false} ReverseFlips<T>(s: seq<T>)
    ensures |Reverse(s)| == |s|
    ensures forall k :: 0 <= k < |s| ==> Reverse(s)[k] == s[|s| - 1 - k]
  {
    if s != [] {
      ReverseFlips(s[1..]);
      var front := Reverse(s[1..]);
      forall k | 0 <= k < |s| ensures Reverse(s)[k] == s[|s| - 1 - k] {
        assert k < |front| ==> front[k] == s[1..][|front| - 1 - k];
      }
    }
  }

  /** Servers start first, in order, then components in the order of their registration. */
  lemma StartPlanAt(s: State)
    ensures |StartPlan(s)| == |s.servers| + |s.components|
    ensures forall k :: 0 <= k < |s.servers| ==> StartPlan(s)[k] == Server(s.servers[k])
    ensures forall k :: |s.servers| <= k < |StartPlan(s)| ==>
              StartPlan(s)[k] == Part(s.components[k - |s.servers|])
  {
  }

  lemma StopPlanLength(s: State)
    ensures |StopPlan(s)| == |s.components| + |s.servers|
  {
    ReverseFlips(Parts(s.components));
    ReverseFlips(Servers(s.servers));
  }

  /** Components stop in reverse order of registration, then servers in reverse order. */
  lemma StopPlanAt(s: State, k: nat)
    requires k < |s.components| + |s.servers|
    ensures |StopPlan(s)| == |s.components| + |s.servers|
    ensures
      StopPlan(s)[k]
      == if k < |s.components| then Part(s.components[|s.components| - 1 - k])
         else Server(s.servers[|s.servers| - 1 - (k - |s.components|)])
  {
    ReverseFlips(Parts(s.components));
    ReverseFlips(Servers(s.servers));
  }

  /** Shutdown stops in the opposite order of the start. */
  lemma StopIsStartReversed(s: State)
    ensures StopPlan(s) == Reverse(StartPlan(s))
  {
    hide StartPlan, StopPlan, Reverse;
    var n := |StartPlan(s)|;
    StartPlanAt(s);
    StopPlanLength(s);
    ReverseFlips(StartPlan(s));
    forall k | 0 <= k < n ensures StopPlan(s)[k] == StartPlan(s)[n - 1 - k] {
      StopPlanAt(s, k);
    }
    assert |Reverse(StartPlan(s))| == |StopPlan(s)|;
  }

  /** A leader whose context did not end has stopped everything, once, in that order. */
  lemma UncutLeaderStopsAll(s: State, i: nat, errors: Error)
    requires Inv(s) && Enabled(s, FinishShutdown(i, errors)) && !s.calls[i].cut
    ensures s.stopped == StopPlan(s)
  {
    assert CallOK(s, s.calls[i]);
    assert s.stopped + [] == s.stopped;
  }

  // ----- The proviso is exact

  /** Some step of the run moves the state backwards, or shutdownDone has been closed twice, which panics. */
  ghost predicate Breaks(s: State, steps: seq<Step>, t: State)
    requires Reaches(s, steps, t)
    decreases |steps|
  {
    || t.closes > 1
    || (steps != [] && (Rank(Do(s, steps[0]).state) < Rank(s.state) || Breaks(Do(s, steps[0]), steps[1..], t)))
  }

  /** An orderly run to t after which, or on which, things break. */
  ghost predicate CanBreak(s: State) {
    exists steps, t :: Reaches(s, steps, t) && Orderly(s, steps) && Breaks(s, steps, t)
  }

  lemma {:induction false} OrderlyRunsDoNotBreak(s: State, steps: seq<Step>, t: State)
    requires Inv(s) && Reaches(s, steps, t) && Orderly(s, steps)
    ensures !Breaks(s, steps, t)
    decreases |steps|
  {
    RunKeepsInv(s, steps, t);
    if steps != [] {
      StepKeepsInv(s, steps[0]);
      OrderlyRunsDoNotBreak(Do(s, steps[0]), steps[1..], t);
    }
  }

  lemma CanBreakAfter(s: State, step: Step)
    requires Enabled(s, step) && !Early(s, step) && CanBreak(Do(s, step))
    ensures CanBreak(s)
  {
    hide Do, Enabled;
    var m := Do(s, step);
    var steps, t :| Reaches(m, steps, t) && Orderly(m, steps) && Breaks(m, steps, t);
    assert ([step] + steps)[1..] == steps;
    assert Reaches(s, [step] + steps, t) && Orderly(s, [step] + steps) && Breaks(s, [step] + steps, t);
  }

  lemma BreaksAtOnce(s: State, step: Step)
    requires Enabled(s, step) && !Early(s, step)
    requires Do(s, step).closes > 1 || Rank(Do(s, step).state) < Rank(s.state)
    ensures CanBreak(s)
  {
    var m := Do(s, step);
    assert [step][1..] == [] && Reaches(m, [], m) && Orderly(m, []);
    assert Reaches(s, [step], m) && Orderly(s, [step]) && Breaks(s, [step], m);
  }

  /** Once a Shutdown is under way, a Run that goes on starting ends by setting the state back to Running. */
  lemma {:induction false} StartingOnBreaks(s: State)
    requires s.state == Stopping && s.run.StartingUp? && s.run.started <= |s.run.plan|
    ensures CanBreak(s)
    decreases |s.run.plan| - s.run.started
  {
    if s.run.started == |s.run.plan| {
      BreaksAtOnce(s, SetRunning);
    } else {
      StartingOnBreaks(Do(s, StartItem(true)));
      CanBreakAfter(s, StartItem(true));
    }
  }

  /**
   If the start has failed instead, the runtime is Stopped while the leader is still stopping; it then
   closes again.
   */
  lemma {:induction false} DrainedLeaderBreaks(s: State, i: nat)
    requires s.state == Stopped && s.closes >= 1 && i < |s.calls| && s.calls[i].Leader?
    ensures CanBreak(s)
    decreases if i < |s.calls| && s.calls[i].Leader? then |s.calls[i].todo| else 0
  {
    if s.calls[i].todo == [] {
      BreaksAtOnce(s, FinishShutdown(i, []));
    } else {
      DrainedLeaderBreaks(Do(s, StopNext(i, [])), i);
      CanBreakAfter(s, StopNext(i, []));
    }
  }

  lemma {:induction false} FailedStartBreaks(s: State, i: nat)
    requires s.state == Stopping && s.run.StartFailed? && i < |s.calls| && s.calls[i].Leader?
    requires s.run.undone <= s.run.started <= |s.run.plan|
    ensures CanBreak(s)
    decreases s.run.started - s.run.undone
  {
    if s.run.undone == s.run.started {
      DrainedLeaderBreaks(Do(s, FinishStopped), i);
      CanBreakAfter(s, FinishStopped);
    } else {
      FailedStartBreaks(Do(s, UndoStart), i);
      CanBreakAfter(s, UndoStart);
    }
  }

  // ----- Runs that break

  lemma OneStep(s: State, step: Step, rest: seq<Step>, t: State)
    requires Enabled(s, step) && Reaches(Do(s, step), rest, t)
    ensures Reaches(s, [step] + rest, t)
  {
    assert ([step] + rest)[1..] == rest;
  }

  /** With nothing to start: a Shutdown gets in before Run's last section, which then sets Running again. */
  lemma EarlyShutdownIsUndone() returns (s: State, m: State, t: State)
    ensures Reaches(Init([]), [RunLock], s) && Early(s, ShutdownLock(false))
    ensures Reaches(s, [ShutdownLock(false)], m) && m.state == Stopping
    ensures Reaches(m, [SetRunning], t) && t.state == Running
  {
    s := Do(Init([]), RunLock);
    m := Do(s, ShutdownLock(false));
    t := Do(m, SetRunning);
    OneStep(Init([]), RunLock, [], s);
    OneStep(s, ShutdownLock(false), [], m);
    OneStep(m, SetRunning, [], t);
  }

  /** A leader with one item left, on a runtime that the failed start has already stopped. */
  lemma SecondClose(s: State, x: Item) returns (t: State)
    requires s.closes == 1 && s.calls == [Leader(false, [x], false, [])]
    ensures Reaches(s, [StopNext(0, [])] + [FinishShutdown(0, [])], t) && t.closes == 2
  {
    var m := Do(s, StopNext(0, []));
    t := Do(m, FinishShutdown(0, []));
    OneStep(m, FinishShutdown(0, []), [], t);
    OneStep(s, StopNext(0, []), [FinishShutdown(0, [])] + [], t);
  }

  /** A Shutdown gets in before the only server is started, and the server then does not start. */
  lemma FirstClose(s: State, x: Item) returns (t: State)
    requires s.state == Starting && s.closes == 0 && s.calls == [] && s.run == StartingUp([x], 0) && StopPlan(s) == [x]
    ensures Reaches(s, [ShutdownLock(false)] + ([StartItem(false)] + [FinishStopped]), t)
    ensures t.closes == 1 && t.calls == [Leader(false, [x], false, [])]
  {
    hide StopPlan;
    var a := Do(s, ShutdownLock(false));
    var b := Do(a, StartItem(false));
    t := Do(b, FinishStopped);
    OneStep(b, FinishStopped, [], t);
    OneStep(a, StartItem(false), [FinishStopped] + [], t);
    OneStep(s, ShutdownLock(false), [StartItem(false)] + [FinishStopped], t);
  }

  /** With one server, which then fails to start: finishStopped closes shutdownDone, and the leader closes it again. */
  lemma EarlyShutdownClosesTwice() returns (s: State, m: State, t: State)
    ensures Reaches(Init([0]), [RunLock], s) && Early(s, ShutdownLock(false))
    ensures Reaches(s, [ShutdownLock(false)] + ([StartItem(false)] + [FinishStopped]), m) && m.closes == 1
    ensures Reaches(m, [StopNext(0, [])] + [FinishShutdown(0, [])], t) && t.closes == 2
  {
    s := Do(Init([0]), RunLock);
    OneStep(Init([0]), RunLock, [], s);
    StopPlanAt(s, 0);
    assert s.run.plan == [Server(0)] && StopPlan(s) == [Server(0)];
    hide Do, Reaches, StopPlan;
    m := FirstClose(s, Server(0));
    t := SecondClose(m, Server(0));
  }

  /**
   The proviso is exact: from a good state, a step leads to a state from which an orderly run can
   break if and only if it is a Shutdown taking its first lock during the start.
   */
  lemma ProvisoIsExact(s: State, step: Step)
    requires Inv(s) && Enabled(s, step)
    ensures CanBreak(Do(s, step)) <==> Early(s, step)
  {
    hide IndexOK, StopPlan, StartPlan;
    var m := Do(s, step);
    if Early(s, step) {
      if s.run.StartingUp? {
        StartingOnBreaks(m);
      } else {
        FailedStartBreaks(m, |s.calls|);
      }
    } else {
      StepKeepsInv(s, step);
      forall steps, t | Reaches(m, steps, t) && Orderly(m, steps) ensures !Breaks(m, steps, t) {
        OrderlyRunsDoNotBreak(m, steps, t);
      }
    }
  }
}
