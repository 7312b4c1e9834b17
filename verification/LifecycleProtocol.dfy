/**
 The runtime of mesa.go as a state machine whose steps are the critical sections under runtimeMu and
 the calls made between them: one Run that gets past its first lock, any number of Shutdown calls, and
 registrations. Errors are lists of messages, joined by appending; the empty list is nil.
 */
module LifecycleProtocol {
  import opened Common
  import opened Text

  datatype RuntimeState = New | Starting | Running | Stopping | Stopped

  type Error = seq<string>

  datatype Component = Component(id: nat, name: string)

  datatype Item = Server(id: nat) | Part(c: Component)

  /**
   NotRun also stands for further Run calls, which are turned away. StartFailed: an item did not start,
   and `undone` of the started ones have been stopped again. GaveUp: Run has returned that start's error.
   */
  datatype RunPhase =
    | NotRun
    | StartingUp(plan: seq<Item>, started: nat)
    | StartFailed(plan: seq<Item>, started: nat, undone: nat)
    | GaveUp(started: nat)
    | Watching
    | Returned

  /** A Shutdown call after its first lock. A call made by Run has a context that never ends. */
  datatype Call =
    | Leader(bounded: bool, todo: seq<Item>, cut: bool, err: Error)
    | Waiter(bounded: bool)
    | Answered(err: Error)
    | CutOff

  datatype State = State(
    state: RuntimeState, servers: seq<nat>, components: seq<Component>, index: map<string, Component>,
    run: RunPhase, calls: seq<Call>, closes: nat, err: Error, cancelled: bool, stopped: seq<Item>)

  datatype Step =
    | Register(c: Component)
    | RunLock
    | StartItem(ok: bool)
    | UndoStart
    | FinishStopped
    | SetRunning
    | Cancel
    | ShutdownLock(bounded: bool)
    | RunShutdown
    | StopNext(i: nat, errors: Error)
    | CutStops(i: nat, error: string)
    | FinishShutdown(i: nat, errors: Error)
    | WaiterWakes(i: nat)
    | WaiterCut(i: nat)

  function Rank(r: RuntimeState): nat {
    match r
    case New => 0
    case Starting => 1
    case Running => 2
    case Stopping => 3
    case Stopped => 4
  }

  function Reverse<T>(s: seq<T>): seq<T> {
    if s == [] then [] else Reverse(s[1..]) + [s[0]]
  }

  function Parts(cs: seq<Component>): seq<Item> {
    seq(|cs|, i requires 0 <= i < |cs| => Part(cs[i]))
  }

  function Servers(ids: seq<nat>): seq<Item> {
    seq(|ids|, i requires 0 <= i < |ids| => Server(ids[i]))
  }

  /** Start order: servers, then components. */
  function StartPlan(s: State): seq<Item> {
    Servers(s.servers) + Parts(s.components)
  }

  /** Stop order: components from the last registered, then servers from the last. */
  function StopPlan(s: State): seq<Item> {
    Reverse(Parts(s.components)) + Reverse(Servers(s.servers))
  }

  ghost predicate Enabled(s: State, step: Step) {
    match step
    case Register(c) => s.state == New && TrimSpace(c.name) != "" && TrimSpace(c.name) !in s.index
    case RunLock => s.state == New
    case StartItem(_) => s.run.StartingUp? && s.run.started < |s.run.plan|
    case UndoStart => s.run.StartFailed? && s.run.undone < s.run.started <= |s.run.plan|
    case FinishStopped => s.run.StartFailed? && s.run.undone == s.run.started
    case SetRunning => s.run.StartingUp? && s.run.started == |s.run.plan|
    case Cancel => s.run != NotRun
    case ShutdownLock(_) => true
    case RunShutdown => s.run.Watching? && s.cancelled
    case StopNext(i, _) => i < |s.calls| && s.calls[i].Leader? && s.calls[i].todo != []
    case CutStops(i, error) => i < |s.calls| && s.calls[i].Leader? && s.calls[i].bounded && s.calls[i].todo != []
        && error != ""
    case FinishShutdown(i, _) => i < |s.calls| && s.calls[i].Leader? && s.calls[i].todo == []
    case WaiterWakes(i) => i < |s.calls| && s.calls[i].Waiter? && s.closes > 0
    case WaiterCut(i) => i < |s.calls| && s.calls[i].Waiter? && s.calls[i].bounded
  }

  /** Shutdown's first critical section. */
  function Locked(s: State, bounded: bool): State {
    if s.state == Stopped then s.(calls := s.calls + [Answered(s.err)])
    else if s.state == Stopping then s.(calls := s.calls + [Waiter(bounded)])
    else s.(state := Stopping, cancelled := true, calls := s.calls + [Leader(bounded, StopPlan(s), false, [])])
  }

  ghost function Do(s: State, step: Step): State
    requires Enabled(s, step)
  {
    match step
    case Register(c) =>
      s.(components := s.components + [c], index := s.index[TrimSpace(c.name) := c])
    case RunLock => s.(state := Starting, run := StartingUp(StartPlan(s), 0))
    case StartItem(ok) =>
      if ok then s.(run := StartingUp(s.run.plan, s.run.started + 1))
      else s.(run := StartFailed(s.run.plan, s.run.started, 0), cancelled := true)
    case UndoStart =>
      s.(run := s.run.(undone := s.run.undone + 1), stopped := s.stopped + [s.run.plan[s.run.undone]])
    case FinishStopped =>
      s.(state := Stopped, closes := if s.closes == 0 then 1 else s.closes, run := GaveUp(s.run.started))
    case SetRunning => s.(state := Running, run := Watching)
    case Cancel => s.(cancelled := true)
    case ShutdownLock(bounded) => Locked(s, bounded)
    case RunShutdown => Locked(s, false).(run := Returned)
    case StopNext(i, errors) =>
      var c := s.calls[i];
      s.(calls := s.calls[i := c.(todo := c.todo[1..], err := c.err + errors)], stopped := s.stopped + [c.todo[0]])
    case CutStops(i, error) =>
      var c := s.calls[i];
      s.(calls := s.calls[i := c.(todo := [], cut := true, err := c.err + [error])])
    case FinishShutdown(i, errors) =>
      var err := s.calls[i].err + errors;
      s.(calls := s.calls[i := Answered(err)], err := err, state := Stopped, closes := s.closes + 1)
    case WaiterWakes(i) => s.(calls := s.calls[i := Answered(s.err)])
    case WaiterCut(i) => s.(calls := s.calls[i := CutOff])
  }

  ghost predicate Reaches(s: State, steps: seq<Step>, t: State)
    decreases |steps|
  {
    if steps == [] then s == t
    else Enabled(s, steps[0]) && Reaches(Do(s, steps[0]), steps[1..], t)
  }

  function Init(servers: seq<nat>): State {
    State(New, servers, [], map[], NotRun, [], 0, [], false, [])
  }

  /** A Shutdown that takes its first lock while Run is still starting things up. */
  predicate Early(s: State, step: Step) {
    s.state == Starting && step.ShutdownLock?
  }

  /** No step of the run is early. */
  ghost predicate Orderly(s: State, steps: seq<Step>)
    decreases |steps|
  {
    steps == [] || (!Early(s, steps[0]) && (Enabled(s, steps[0]) ==> Orderly(Do(s, steps[0]), steps[1..])))
  }

  // ----- The invariant

  /** Names are trimmed, non-empty and distinct, and the index maps exactly them to their components. */
  ghost predicate IndexOK(s: State) {
    && (forall i :: 0 <= i < |s.components| ==>
          var name := TrimSpace(s.components[i].name);
          name != "" && name in s.index && s.index[name] == s.components[i])
    && (forall i, j :: 0 <= i < j < |s.components| ==>
          TrimSpace(s.components[i].name) != TrimSpace(s.components[j].name))
    && (forall name :: name in s.index ==> s.index[name] in s.components && TrimSpace(s.index[name].name) == name)
  }

  /** What each call may be, given where the runtime is. */
  ghost predicate CallOK(s: State, c: Call) {
    match c
    case Leader(_, todo, cut, _) =>
      && s.state == Stopping
      && (if cut then todo == [] && s.stopped <= StopPlan(s) else s.stopped + todo == StopPlan(s))
    case Waiter(_) => s.state == Stopping || s.state == Stopped
    case Answered(err) => s.state == Stopped && err == s.err
    case CutOff => true
  }

  ghost predicate RunOK(s: State) {
    && (s.state == New ==> s.run == NotRun)
    && (s.state == Starting <==> s.run.StartingUp? || s.run.StartFailed?)
    && (s.state == Running ==> s.run == Watching)
    && (s.run.StartingUp? || s.run.StartFailed? ==> s.run.plan == StartPlan(s) && s.run.started <= |s.run.plan|)
    && (s.run.StartFailed? ==> s.run.undone <= s.run.started)
    && (s.run.GaveUp? ==> s.state == Stopped && s.run.started <= |StartPlan(s)|)
  }

  /**
   What has been stopped: after a failed start, the started items from the first, by Run itself;
   otherwise, by the leader, what it has got to in the stop order.
   */
  ghost predicate StoppedInOrder(s: State) {
    match s.run
    case StartFailed(plan, started, undone) => undone <= |plan| && s.stopped == plan[..undone]
    case GaveUp(started) => started <= |StartPlan(s)| && s.stopped == StartPlan(s)[..started]
    case _ => s.stopped <= StopPlan(s)
  }

  ghost predicate Inv(s: State) {
    && IndexOK(s) && RunOK(s)
    && (Rank(s.state) < 3 ==> s.calls == [] && (!s.run.StartFailed? ==> s.stopped == []))
    && s.closes == (if s.state == Stopped then 1 else 0)
    && (forall i :: 0 <= i < |s.calls| ==> CallOK(s, s.calls[i]))
    && (forall i, j :: 0 <= i < j < |s.calls| ==> !(s.calls[i].Leader? && s.calls[j].Leader?))
    && (s.state == Stopping ==> exists i :: 0 <= i < |s.calls| && s.calls[i].Leader?)
    && StoppedInOrder(s)
  }

  lemma InitOK(servers: seq<nat>)
    ensures Inv(Init(servers))
  {
  }

  lemma RegisterKeepsIndex(s: State, c: Component)
    requires IndexOK(s) && Enabled(s, Register(c))
    ensures IndexOK(Do(s, Register(c)))
  {
    hide TrimSpace;
  }

  /** Shutdown's first critical section, anywhere but in Starting. */
  lemma LockedKeepsInv(s: State, bounded: bool)
    requires Inv(s) && s.state != Starting
    ensures Inv(Locked(s, bounded)) && Rank(s.state) <= Rank(Locked(s, bounded).state)
  {
    hide IndexOK, StopPlan, StartPlan;
    var t := Locked(s, bounded);
    FrameOK(s, t);
    if s.state == Stopped || s.state == Stopping {
      forall j | 0 <= j < |s.calls| ensures CallOK(t, t.calls[j]) {
        assert CallOK(s, s.calls[j]);
      }
      if i :| 0 <= i < |s.calls| && s.calls[i].Leader? {
        assert t.calls[i].Leader?;
      }
    } else {
      assert t.calls[0].Leader?;
    }
  }

  /** The leader's call changes and stays the leader; no other call can be one. */
  lemma LeaderStepKeepsInv(s: State, t: State, i: nat, c: Call)
    requires Inv(s) && i < |s.calls| && s.calls[i].Leader? && c.Leader?
    requires t == s.(calls := s.calls[i := c], stopped := t.stopped) && t.stopped <= StopPlan(s) && CallOK(t, c)
    requires !s.run.StartFailed? && !s.run.GaveUp?
    ensures Inv(t)
  {
    hide IndexOK, RunOK, StopPlan;
    assert CallOK(s, s.calls[i]) && t.calls[i].Leader?;
    assert IndexOK(t) && RunOK(t) && StopPlan(t) == StopPlan(s) by {
      FrameOK(s, t);
    }
    forall j | 0 <= j < |t.calls| ensures CallOK(t, t.calls[j]) {
      assert CallOK(s, s.calls[j]);
    }
  }

  /** The index, Run and the stop order do not depend on the calls. */
  lemma FrameOK(s: State, t: State)
    requires IndexOK(s) && t.components == s.components && t.index == s.index && t.servers == s.servers
    ensures IndexOK(t) && StopPlan(t) == StopPlan(s) && StartPlan(t) == StartPlan(s)
    ensures RunOK(s) && t.run == s.run && t.state == s.state ==> RunOK(t)
  {
  }

  lemma StopNextKeepsInv(s: State, i: nat, errors: Error)
    requires Inv(s) && Enabled(s, StopNext(i, errors))
    ensures Inv(Do(s, StopNext(i, errors)))
  {
    hide IndexOK, RunOK, StopPlan;
    var c, t := s.calls[i], Do(s, StopNext(i, errors));
    assert CallOK(s, c);
    assert t.stopped + c.todo[1..] == s.stopped + c.todo;
    FrameOK(s, t);
    LeaderStepKeepsInv(s, t, i, t.calls[i]);
  }

  lemma CutStopsKeepsInv(s: State, i: nat, error: string)
    requires Inv(s) && Enabled(s, CutStops(i, error))
    ensures Inv(Do(s, CutStops(i, error)))
  {
    hide IndexOK, RunOK, StopPlan;
    var t := Do(s, CutStops(i, error));
    assert CallOK(s, s.calls[i]);
    FrameOK(s, t);
    LeaderStepKeepsInv(s, t, i, t.calls[i]);
  }

  /** The leader's last section: there was no answer before it, and from now on there is one error. */
  lemma FinishKeepsInv(s: State, i: nat, errors: Error)
    requires Inv(s) && Enabled(s, FinishShutdown(i, errors))
    ensures Inv(Do(s, FinishShutdown(i, errors))) && s.state == Stopping
  {
    hide IndexOK, StopPlan;
    var t := Do(s, FinishShutdown(i, errors));
    assert CallOK(s, s.calls[i]);
    FrameOK(s, t);
    forall j | 0 <= j < |t.calls| ensures CallOK(t, t.calls[j]) && !t.calls[j].Leader? {
      assert CallOK(s, s.calls[j]);
    }
  }

  /** A waiting call returns. */
  lemma WaiterKeepsInv(s: State, i: nat, c: Call)
    requires Inv(s) && i < |s.calls| && s.calls[i].Waiter?
    requires c == CutOff || (c == Answered(s.err) && s.closes > 0)
    ensures Inv(s.(calls := s.calls[i := c]))
  {
    hide IndexOK, RunOK, StopPlan;
    var t := s.(calls := s.calls[i := c]);
    assert CallOK(s, s.calls[i]);
    FrameOK(s, t);
    forall j | 0 <= j < |t.calls| ensures CallOK(t, t.calls[j]) {
      assert CallOK(s, s.calls[j]);
    }
    if s.state == Stopping {
      var j :| 0 <= j < |s.calls| && s.calls[j].Leader?;
      assert t.calls[j].Leader?;
    }
  }

  /** The steps that only Run, the caller's context and registration take. */
  lemma RunStepKeepsInv(s: State, step: Step)
    requires Inv(s) && Enabled(s, step)
    requires
      || step.Register? || step.RunLock? || step.StartItem? || step.UndoStart? || step.FinishStopped?
      || step.SetRunning? || step.Cancel?
    ensures Inv(Do(s, step)) && Rank(s.state) <= Rank(Do(s, step).state)
  {
    hide IndexOK, StopPlan, StartPlan;
    var t := Do(s, step);
    match step
    case Register(c) => RegisterKeepsIndex(s, c);
    case _ => FrameOK(s, t);
  }

  lemma RunShutdownKeepsInv(s: State)
    requires Inv(s) && Enabled(s, RunShutdown)
    ensures Inv(Do(s, RunShutdown)) && Rank(s.state) <= Rank(Do(s, RunShutdown).state)
  {
    hide IndexOK, StopPlan;
    LockedKeepsInv(s, false);
    var m, t := Locked(s, false), Do(s, RunShutdown);
    FrameOK(m, t);
    forall j | 0 <= j < |t.calls| ensures CallOK(t, t.calls[j]) {
      assert CallOK(m, m.calls[j]);
    }
  }

  lemma StepKeepsInv(s: State, step: Step)
    requires Inv(s) && Enabled(s, step) && !Early(s, step)
    ensures Inv(Do(s, step)) && Rank(s.state) <= Rank(Do(s, step).state)
  {
    hide IndexOK, StopPlan;
    match step
    case ShutdownLock(bounded) => LockedKeepsInv(s, bounded);
    case RunShutdown => RunShutdownKeepsInv(s);
    case StopNext(i, errors) => StopNextKeepsInv(s, i, errors);
    case CutStops(i, error) => CutStopsKeepsInv(s, i, error);
    case FinishShutdown(i, errors) => FinishKeepsInv(s, i, errors);
    case WaiterWakes(i) => WaiterKeepsInv(s, i, Answered(s.err));
    case WaiterCut(i) => WaiterKeepsInv(s, i, CutOff);
    case _ => RunStepKeepsInv(s, step);
  }
}
