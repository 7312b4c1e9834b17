/**
 mesa.go's methods as code on the fields that runtimeMu guards. Each critical section is proved to be
 one step of the protocol (a registration of several components: one step each); between sections
 Interference stands for whatever the other goroutines do.
 */
module MesaRuntime {
  import opened Common
  import opened Text
  import opened LifecycleProtocol
  import opened LifecycleRuns

  ghost predicate Follows(s: State, t: State) {
    exists steps :: Reaches(s, steps, t)
  }

  lemma FollowsSelf(s: State)
    ensures Follows(s, s)
  {
    assert Reaches(s, [], s);
  }

  lemma {:induction false} ReachesConcat(s: State, a: seq<Step>, m: State, b: seq<Step>, t: State)
    requires Reaches(s, a, m) && Reaches(m, b, t)
    ensures Reaches(s, a + b, t)
    decreases |a|
  {
    hide Do, Enabled;
    if a == [] {
      assert a + b == b;
    } else {
      ReachesConcat(Do(s, a[0]), a[1..], m, b, t);
      assert (a + b)[1..] == a[1..] + b;
    }
  }

  lemma FollowsTransitively(s: State, m: State, t: State)
    requires Follows(s, m) && Follows(m, t)
    ensures Follows(s, t)
  {
    var a :| Reaches(s, a, m);
    var b :| Reaches(m, b, t);
    ReachesConcat(s, a, m, b, t);
  }

  lemma StepFollows(s: State, step: Step)
    requires Enabled(s, step)
    ensures Follows(s, Do(s, step))
  {
    assert Reaches(Do(s, step), [], Do(s, step));
    assert [step][1..] == [];
    assert Reaches(s, [step], Do(s, step));
  }

  datatype RegisterError = ErrRuntimeStarted | ErrNilComponent | ErrEmptyName | ErrComponentExists(name: string)

  /** Why a component (None is a nil interface) is not registered, if it is not. */
  function Objection(index: map<string, Component>, c: Option<Component>): Option<RegisterError> {
    if c.None? then Some(ErrNilComponent)
    else if TrimSpace(c.value.name) == "" then Some(ErrEmptyName)
    else if TrimSpace(c.value.name) in index then Some(ErrComponentExists(TrimSpace(c.value.name)))
    else None
  }

  /** What is left to do after Shutdown's first critical section. */
  datatype Role = Lead(items: seq<Item>) | Wait | Done(err: Error)

  datatype StartOutcome = Rejected | FailedAt(k: nat) | Started

  /** What a Shutdown call has to show so far. */
  datatype ShutdownResult = Returns(err: Error) | ReturnsContextError | StillWaiting

  predicate ShowsCall(r: ShutdownResult, bounded: bool, c: Call) {
    match r
    case Returns(err) => c == Answered(err)
    case ReturnsContextError => bounded && c == CutOff
    case StillWaiting => c == Waiter(bounded)
  }

  /** How many items are stopped before the context is found to have ended. */
  function StopCount(ends: seq<Option<string>>): (n: nat)
    ensures n <= |ends|
    ensures forall k :: 0 <= k < n ==> ends[k].None?
    ensures n < |ends| ==> ends[n].Some?
  {
    if ends == [] || ends[0].Some? then 0 else 1 + StopCount(ends[1..])
  }

  lemma {:induction false} NeverEnds(ends: seq<Option<string>>)
    requires forall k :: 0 <= k < |ends| ==> ends[k].None?
    ensures StopCount(ends) == |ends|
  {
    if ends != [] {
      NeverEnds(ends[1..]);
    }
  }

  function Joined(errors: seq<Error>): Error {
    if errors == [] then [] else Joined(errors[..|errors| - 1]) + errors[|errors| - 1]
  }

  lemma JoinedAppend(errors: seq<Error>, k: nat)
    requires k < |errors|
    ensures Joined(errors[..k + 1]) == Joined(errors[..k]) + errors[k]
  {
    assert errors[..k + 1][..k] == errors[..k];
  }

  /** The errors of the items that were stopped, and the context's if it ended. */
  function StopError(ends: seq<Option<string>>, errors: seq<Error>): Error
    requires |ends| == |errors|
  {
    var n := StopCount(ends);
    Joined(errors[..n]) + (if n < |ends| then [ends[n].value] else [])
  }

  /** The first n of the servers in order, then of the components in order. */
  function InStartOrder(servers: seq<nat>, components: seq<Component>, n: nat): seq<Item>
    requires n <= |servers| + |components|
  {
    seq(n, k requires 0 <= k < n =>
             if k < |servers| then Server(servers[k]) else Part(components[k - |servers|]))
  }

  lemma PlanIsInOrder(s: State, n: nat)
    requires n <= |s.servers| + |s.components|
    ensures n <= |StartPlan(s)| && StartPlan(s)[..n] == InStartOrder(s.servers, s.components, n)
  {
    hide StartPlan;
    StartPlanAt(s);
  }

  class Mesa {
    var state: RuntimeState
    var components: seq<Component>
    var index: map<string, Component>
    const servers: seq<nat>
    var cancelled: bool       // runtimeCancel was called, or a signal came
    var closes: nat           // how often shutdownDone was closed; a second time panics
    var shutdownErr: Error
    ghost var st: State
    ghost var starts: seq<Item>  // the Start calls Run has made
    ghost var stops: seq<Item>   // the Stop calls Run itself has made, after a start that failed

    ghost predicate Valid()
      reads this
    {
      && st.state == state && st.components == components && st.index == index && st.servers == servers
      && st.cancelled == cancelled && st.closes == closes && st.err == shutdownErr
    }

    constructor (servers: seq<nat>)
      ensures Valid() && st == Init(servers) && starts == [] && stops == []
    {
      this.servers := servers;
      state, components, index := New, [], map[];
      cancelled, closes, shutdownErr := false, 0, [];
      st, starts, stops := Init(servers), [], [];
    }

    /** Other goroutines run. `mine` is the caller's own Shutdown call, and Run's progress is Run's own. */
    method Interference(ghost mine: Option<nat>, ghost isRun: bool)
      requires Valid() && (mine.Some? ==> mine.value < |st.calls|)
      modifies this
      ensures Valid() && Follows(old(st), st)
      ensures mine.Some? ==> mine.value < |st.calls| && st.calls[mine.value] == old(st.calls)[mine.value]
      ensures isRun ==> st.run == old(st.run) && starts == old(starts) && stops == old(stops)
    {
      FollowsSelf(st);
    }

    // ----- Registration

    method RegisterOne(c: Component)
      requires Valid() && state == New && Objection(index, Some(c)).None?
      modifies this`components, this`index, this`st
      ensures Valid() && Enabled(old(st), Register(c)) && st == Do(old(st), Register(c)) && Follows(old(st), st)
      ensures components == old(components) + [c] && (old(IndexOK(st)) ==> IndexOK(st))
    {
      hide Follows, IndexOK;
      StepFollows(st, Register(c));
      if IndexOK(st) {
        RegisterKeepsIndex(st, c);
      }
      components := components + [c];
      index := index[TrimSpace(c.name) := c];
      st := Do(st, Register(c));
    }

    /**
     RegisterComponent, under the lock: the items before the first one that is objected to are
     registered, and stay registered when a later one is refused.
     */
    method RegisterComponent(items: seq<Option<Component>>) returns (r: Result<(), RegisterError>, n: nat)
      requires Valid()
      modifies this`components, this`index, this`st
      ensures Valid() && Follows(old(st), st) && (old(IndexOK(st)) ==> IndexOK(st))
      ensures state != New ==> r == Err(ErrRuntimeStarted) && n == 0
      ensures n <= |items| && |components| == |old(components)| + n && old(components) <= components
      ensures forall k :: 0 <= k < n ==> items[k] == Some(components[|old(components)| + k])
      ensures state == New ==>
        && (r.Ok? <==> n == |items|)
        && (r.Err? ==> Objection(index, items[n]) == Some(r.error))
    {
      hide IndexOK, Follows, Do, Enabled;
      n := 0;
      FollowsSelf(st);
      if state != New {
        return Err(ErrRuntimeStarted), 0;
      }
      ghost var s0, components0 := st, components;
      while n < |items|
        invariant n <= |items| && Valid() && Follows(s0, st)
        invariant old(IndexOK(st)) ==> IndexOK(st)
        invariant |components| == |components0| + n && components0 <= components
        invariant forall k :: 0 <= k < n ==> items[k] == Some(components[|components0| + k])
      {
        if items[n].None? {
          return Err(ErrNilComponent), n;
        }
        var c := items[n].value;
        var name := TrimSpace(c.name);
        if name == "" {
          return Err(ErrEmptyName), n;
        }
        if name in index {
          return Err(ErrComponentExists(name)), n;
        }
        ghost var s := st;
        RegisterOne(c);
        FollowsTransitively(s0, s, st);
        n := n + 1;
      }
      r := Ok(());
    }

    // ----- Shutdown

    /** The first critical section; `i` is the call's place in the protocol's list. */
    method Lock(bounded: bool, ghost byRun: bool) returns (role: Role, ghost i: nat)
      requires Valid() && (byRun ==> !bounded && Enabled(st, RunShutdown))
      modifies this`state, this`cancelled, this`st
      ensures Valid() && Follows(old(st), st)
      ensures st == Do(old(st), if byRun then RunShutdown else ShutdownLock(bounded))
      ensures i == |old(st).calls| && i < |st.calls|
      ensures
        match role
        case Done(err) => old(state) == Stopped && st.calls[i] == Answered(err) && err == shutdownErr
        case Wait => old(state) == Stopping && st.calls[i] == Waiter(bounded)
        case Lead(items) =>
          && Rank(old(state)) < 3 && items == StopPlan(old(st))
          && st.calls[i] == Leader(bounded, items, false, [])
    {
      ghost var step := if byRun then RunShutdown else ShutdownLock(bounded);
      StepFollows(st, step);
      i := |st.calls|;
      st := Do(st, step);
      if state == Stopped {
        return Done(shutdownErr), i;
      }
      if state == Stopping {
        return Wait, i;
      }
      state := Stopping;
      cancelled := true;
      var items := ReversedParts();
      items := ReversedServers(items);
      role := Lead(items);
    }

    /** The loop over components from the last one. */
    method ReversedParts() returns (items: seq<Item>)
      ensures items == Reverse(Parts(components))
    {
      items := [];
      var k := |components|;
      assert Parts(components)[k..] == [];
      while k > 0
        invariant 0 <= k <= |components| && items == Reverse(Parts(components)[k..])
      {
        k := k - 1;
        assert Parts(components)[k..][1..] == Parts(components)[k + 1..];
        items := items + [Part(components[k])];
      }
      assert Parts(components)[0..] == Parts(components);
    }

    /** The loop over servers, which appends to the components. */
    method ReversedServers(parts: seq<Item>) returns (items: seq<Item>)
      ensures items == parts + Reverse(Servers(servers))
    {
      items := parts;
      var k := |servers|;
      while k > 0
        invariant 0 <= k <= |servers| && items == parts + Reverse(Servers(servers)[k..])
      {
        k := k - 1;
        assert Servers(servers)[k..][1..] == Servers(servers)[k + 1..];
        items := items + [Server(servers[k])];
      }
      assert Servers(servers)[0..] == Servers(servers);
    }

    /** One round of stopItems: others run, then the context has ended or the next item's Stop returns. */
    method StopOne(item: Item, end: Option<string>, errors: Error, ghost i: nat, ghost c: Call)
      returns (result: Error)
      requires Valid() && i < |st.calls| && st.calls[i] == c && c.Leader? && c.todo != [] && item == c.todo[0]
      requires end.Some? ==> c.bounded && end.value != ""
      modifies this
      ensures Valid() && Follows(old(st), st) && i < |st.calls|
      ensures result == if end.Some? then [end.value] else errors
      ensures
        st.calls[i]
        == c.(todo := if end.Some? then [] else c.todo[1..], cut := c.cut || end.Some?, err := c.err + result)
    {
      hide Follows;
      ghost var s := st;
      Interference(Some(i), false);
      ghost var step := if end.Some? then CutStops(i, end.value) else StopNext(i, errors);
      StepFollows(st, step);
      FollowsTransitively(s, st, Do(st, step));
      st := Do(st, step);
      result := if end.Some? then [end.value] else errors;
    }

    /**
     stopItems, called by the leader: items are stopped in order until the context is found to have
     ended, whatever their Stop calls return. `ends[k]` is the context's error just before item k,
     `errors[k]` what its Stop returns (nothing, for an item that cannot be stopped).
     */
    method StopItems(items: seq<Item>, ends: seq<Option<string>>, errors: seq<Error>, ghost i: nat, ghost bounded: bool)
      returns (result: Error)
      requires Valid() && |ends| == |errors| == |items| && i < |st.calls|
      requires st.calls[i] == Leader(bounded, items, false, [])
      requires forall k :: 0 <= k < |ends| && ends[k].Some? ==> bounded && ends[k].value != ""
      modifies this
      ensures Valid() && Follows(old(st), st) && i < |st.calls|
      ensures result == StopError(ends, errors) && st.calls[i] == Leader(bounded, [], StopCount(ends) < |ends|, result)
    {
      hide Follows;
      ghost var s0 := st;
      FollowsSelf(s0);
      result := [];
      var k := 0;
      assert ends[0..] == ends && items[0..] == items;
      while k < |items|
        invariant 0 <= k <= |items| && Valid() && Follows(s0, st) && i < |st.calls|
        invariant st.calls[i] == Leader(bounded, items[k..], false, result)
        invariant result == Joined(errors[..k]) && StopCount(ends) == k + StopCount(ends[k..])
      {
        ghost var s := st;
        assert ends[k..][1..] == ends[k + 1..] && items[k..][1..] == items[k + 1..];
        JoinedAppend(errors, k);
        var more := StopOne(items[k], ends[k], errors[k], i, st.calls[i]);
        FollowsTransitively(s0, s, st);
        result := result + more;
        if ends[k].Some? {
          return;
        }
        k := k + 1;
      }
      assert errors[..k] == errors;
    }

    /** The leader's last critical section, after closing resources and telemetry. */
    method Finish(err: Error, ghost i: nat, ghost errors: Error)
      requires Valid() && Enabled(st, FinishShutdown(i, errors)) && err == st.calls[i].err + errors
      modifies this`state, this`shutdownErr, this`closes, this`st
      ensures Valid() && st == Do(old(st), FinishShutdown(i, errors)) && Follows(old(st), st)
    {
      StepFollows(st, FinishShutdown(i, errors));
      st := Do(st, FinishShutdown(i, errors));
      shutdownErr := err;
      state := Stopped;
      closes := closes + 1;
    }

    /** Lead: stop everything, close resources, then publish the error and close shutdownDone. */
    method LeadShutdown(
        items: seq<Item>, ends: seq<Option<string>>, errors: seq<Error>, closing: Error,
        ghost i: nat, ghost bounded: bool)
      returns (err: Error, ghost before: State)
      requires Valid() && |ends| == |errors| == |items| && i < |st.calls|
      requires st.calls[i] == Leader(bounded, items, false, [])
      requires forall k :: 0 <= k < |ends| && ends[k].Some? ==> bounded && ends[k].value != ""
      modifies this
      ensures Valid() && Follows(old(st), before) && Follows(before, st)
      ensures Enabled(before, FinishShutdown(i, closing)) && st == Do(before, FinishShutdown(i, closing))
      ensures err == StopError(ends, errors) + closing
      ensures i < |st.calls| && st.calls[i] == Answered(err) && shutdownErr == err && state == Stopped
    {
      hide Follows;
      ghost var s0 := st;
      err := StopItems(items, ends, errors, i, bounded);
      ghost var s1 := st;
      Interference(Some(i), false);
      before := st;
      FollowsTransitively(s0, s1, before);
      err := err + closing;
      Finish(err, i, closing);
    }

    /** A waiting call looks at its select; when both cases are ready, `preferContext` is the runtime's choice. */
    method LookAtSelect(bounded: bool, expired: bool, preferContext: bool, ghost i: nat) returns (r: ShutdownResult)
      requires Valid() && i < |st.calls| && st.calls[i] == Waiter(bounded) && (expired ==> bounded)
      modifies this`st
      ensures Valid() && Follows(old(st), st) && i < |st.calls| && ShowsCall(r, bounded, st.calls[i])
      ensures r == if closes > 0 && !(expired && preferContext) then Returns(shutdownErr)
                   else if expired then ReturnsContextError else StillWaiting
    {
      if closes > 0 && !(expired && preferContext) {
        StepFollows(st, WaiterWakes(i));
        st := Do(st, WaiterWakes(i));
        r := Returns(shutdownErr);
      } else if expired {
        StepFollows(st, WaiterCut(i));
        st := Do(st, WaiterCut(i));
        r := ReturnsContextError;
      } else {
        FollowsSelf(st);
        r := StillWaiting;
      }
    }

    /** Shutdown, from its first lock to its return, or to a look at the select for a call that waits. */
    method Shutdown(
        bounded: bool, expired: bool, preferContext: bool,
        ends: seq<Option<string>>, errors: seq<Error>, closing: Error, ghost byRun: bool)
      returns (r: ShutdownResult, ghost i: nat)
      requires Valid() && (byRun ==> !bounded && Enabled(st, RunShutdown))
      requires |ends| == |errors| == |servers| + |components| && (expired ==> bounded)
      requires forall k :: 0 <= k < |ends| && ends[k].Some? ==> bounded && ends[k].value != ""
      modifies this
      ensures Valid() && Follows(old(st), st)
      ensures i == |old(st).calls| && i < |st.calls| && ShowsCall(r, bounded, st.calls[i])
      ensures old(state) == Stopped ==> r == Returns(old(shutdownErr))
      ensures old(state) == Stopping ==>
        r == if closes > 0 && !(expired && preferContext) then Returns(shutdownErr)
             else if expired then ReturnsContextError else StillWaiting
      ensures Rank(old(state)) < 3 ==> r == Returns(StopError(ends, errors) + closing) && state == Stopped
    {
      hide Follows, Do;
      ghost var s0 := st;
      StopPlanLength(st);
      var role;
      role, i := Lock(bounded, byRun);
      ghost var s1 := st;
      match role {
        case Done(err) =>
          r := Returns(err);
        case Wait =>
          Interference(Some(i), false);
          ghost var s2 := st;
          FollowsTransitively(s0, s1, s2);
          r := LookAtSelect(bounded, expired, preferContext, i);
          FollowsTransitively(s0, s2, st);
        case Lead(items) =>
          var err;
          ghost var before;
          err, before := LeadShutdown(items, ends, errors, closing, i, bounded);
          FollowsTransitively(s0, s1, before);
          FollowsTransitively(s0, before, st);
          r := Returns(err);
      }
    }

    // ----- Run

    /** Run's first critical section; it copies the servers and components to start. */
    method RunFirst() returns (ok: bool, items: seq<Item>)
      requires Valid()
      modifies this`state, this`st
      ensures Valid() && Follows(old(st), st) && (ok <==> old(state) == New)
      ensures items == StartPlan(old(st))
      ensures if ok then st == Do(old(st), RunLock) && st.run == StartingUp(items, 0) else st == old(st)
    {
      items := Servers(servers) + Parts(components);
      ok := state == New;
      if ok {
        StepFollows(st, RunLock);
        state := Starting;
        st := Do(st, RunLock);
      } else {
        FollowsSelf(st);
      }
    }

    /** Run starts one more item, after whatever others did since the last. */
    method StartNext(item: Item, ok: bool, ghost plan: seq<Item>, ghost k: nat)
      requires Valid() && st.run == StartingUp(plan, k) && k < |plan| && item == plan[k]
      modifies this
      ensures Valid() && Follows(old(st), st)
      ensures st.run == if ok then StartingUp(plan, k + 1) else StartFailed(plan, k, 0)
      ensures starts == old(starts) + [item] && stops == old(stops) && (!ok ==> cancelled)
    {
      hide Follows;
      ghost var s := st;
      Interference(None, true);
      starts := starts + [item];
      StepFollows(st, StartItem(ok));
      FollowsTransitively(s, st, Do(st, StartItem(ok)));
      st := Do(st, StartItem(ok));
      if !ok {
        cancelled := true;
      }
    }

    /** One Stop call of the stopItems that Run makes when its start failed; its error is dropped. */
    method UndoOne(item: Item, ghost plan: seq<Item>, ghost started: nat, ghost undone: nat)
      requires Valid() && st.run == StartFailed(plan, started, undone) && undone < started <= |plan|
          && item == plan[undone]
      modifies this
      ensures Valid() && Follows(old(st), st) && st.run == StartFailed(plan, started, undone + 1)
      ensures starts == old(starts) && stops == old(stops) + [item]
    {
      hide Follows;
      ghost var s := st;
      Interference(None, true);
      StepFollows(st, UndoStart);
      FollowsTransitively(s, st, Do(st, UndoStart));
      st := Do(st, UndoStart);
      stops := stops + [item];
    }

    /** stopItems over what had been started, from the first, with a context that never ends. */
    method UndoStarted(started: seq<Item>, ghost plan: seq<Item>)
      requires Valid() && st.run == StartFailed(plan, |started|, 0) && started <= plan
      modifies this
      ensures Valid() && Follows(old(st), st) && st.run == StartFailed(plan, |started|, |started|)
      ensures starts == old(starts) && stops == old(stops) + started
      ensures Inv(st) ==> st.stopped == started
    {
      hide Follows;
      ghost var s0, stops0 := st, stops;
      FollowsSelf(s0);
      var k := 0;
      while k < |started|
        invariant 0 <= k <= |started| && Valid() && Follows(s0, st) && st.run == StartFailed(plan, |started|, k)
        invariant starts == old(starts) && stops == stops0 + started[..k]
      {
        ghost var s := st;
        UndoOne(started[k], plan, |started|, k);
        FollowsTransitively(s0, s, st);
        k := k + 1;
      }
    }

    /** finishStopped, after whatever others did meanwhile: an already closed shutdownDone is left alone. */
    method FinishStopped()
      requires Valid() && st.run.StartFailed? && st.run.undone == st.run.started
      modifies this
      ensures Valid() && Follows(old(st), st) && st.run == GaveUp(old(st).run.started) && state == Stopped
          && closes >= 1
      ensures starts == old(starts) && stops == old(stops)
    {
      hide Follows;
      ghost var s := st;
      Interference(None, true);
      ghost var step := Step.FinishStopped;
      StepFollows(st, step);
      FollowsTransitively(s, st, Do(st, step));
      st := Do(st, step);
      state := Stopped;
      if closes == 0 {
        closes := 1;
      }
    }

    /** After a failed start: stop what had been started, then publish that the runtime is stopped. */
    method GiveUp(started: seq<Item>, ghost plan: seq<Item>)
      requires Valid() && st.run == StartFailed(plan, |started|, 0) && started <= plan
      modifies this
      ensures Valid() && Follows(old(st), st) && st.run == GaveUp(|started|) && state == Stopped && closes >= 1
      ensures starts == old(starts) && stops == old(stops) + started
    {
      hide Follows, Do, Enabled;
      UndoStarted(started, plan);
      ghost var s := st;
      FinishStopped();
      FollowsTransitively(old(st), s, st);
    }

    /** Run's last critical section sets Running whatever the state has become. */
    method SetRunning()
      requires Valid() && st.run.StartingUp? && st.run.started == |st.run.plan|
      modifies this`state, this`st
      ensures Valid() && Follows(old(st), st) && st.run == Watching && state == Running
      ensures starts == old(starts) && stops == old(stops)
    {
      StepFollows(st, Step.SetRunning);
      st := Do(st, Step.SetRunning);
      state := Running;
    }

    /**
     Run up to the point where it waits for its context: `oks[k]` says whether item k starts. If one
     does not, the ones before it have been stopped by Run, in the order in which they were started.
     */
    method Run(oks: seq<bool>) returns (outcome: StartOutcome)
      requires Valid() && |oks| == |servers| + |components|
      modifies this
      ensures Valid() && Follows(old(st), st)
      ensures outcome.Rejected? <==> old(state) != New
      ensures outcome.Rejected? ==> st == old(st) && starts == old(starts)
      ensures outcome.FailedAt? ==>
        && outcome.k < |oks| && !oks[outcome.k] && (forall k :: 0 <= k < outcome.k ==> oks[k])
        && state == Stopped && closes >= 1 && st.run == GaveUp(outcome.k)
        && starts == old(starts) + InStartOrder(servers, old(components), outcome.k + 1)
        && stops == old(stops) + InStartOrder(servers, old(components), outcome.k)
        && (Inv(st) ==> st.stopped == StartPlan(st)[..outcome.k])
      ensures outcome.Started? ==>
        && (forall k :: 0 <= k < |oks| ==> oks[k]) && state == Running && st.run == Watching
        && starts == old(starts) + InStartOrder(servers, old(components), |oks|)
      ensures !outcome.FailedAt? ==> stops == old(stops)
    {
      hide Follows, Do, Enabled, StartPlan, InStartOrder;
      ghost var s0, starts0, stops0 := st, starts, stops;
      StartPlanAt(s0);
      var ok, items := RunFirst();
      if !ok {
        return Rejected;
      }
      var started := [];
      while |started| < |items|
        invariant started <= items && |items| == |oks| && Valid() && Follows(s0, st)
        invariant starts == starts0 + started && stops == stops0
        invariant st.run == StartingUp(items, |started|) && forall j :: 0 <= j < |started| ==> oks[j]
        decreases |items| - |started|
      {
        var k := |started|;
        ghost var s := st;
        StartNext(items[k], oks[k], items, k);
        FollowsTransitively(s0, s, st);
        if !oks[k] {
          s := st;
          GiveUp(started, items);
          FollowsTransitively(s0, s, st);
          assert started == items[..k] && started + [items[k]] == items[..k + 1];
          PlanIsInOrder(s0, k);
          PlanIsInOrder(s0, k + 1);
          return FailedAt(k);
        }
        started := started + [items[k]];
      }
      assert started == items[..|items|];
      PlanIsInOrder(s0, |items|);
      ghost var s := st;
      SetRunning();
      FollowsTransitively(s0, s, st);
      outcome := Started;
    }

    /** Run's end: once its context is done it shuts down with a context of its own that never ends. */
    method RunLast(errors: seq<Error>, closing: Error) returns (r: ShutdownResult, ghost i: nat)
      requires Valid() && st.run == Watching && cancelled && |errors| == |servers| + |components|
      modifies this
      ensures Valid() && Follows(old(st), st)
      ensures i == |old(st).calls| && i < |st.calls| && ShowsCall(r, false, st.calls[i]) && r != ReturnsContextError
      ensures old(state) == Stopped ==> r == Returns(old(shutdownErr))
      ensures Rank(old(state)) < 3 ==> r == Returns(Joined(errors) + closing) && state == Stopped
    {
      hide Follows;
      var never := seq(|errors|, k => None);
      NeverEnds(never);
      assert errors[..|errors|] == errors;
      r, i := Shutdown(false, false, false, never, errors, closing, true);
    }
  }
}
