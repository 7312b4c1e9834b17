/**
 When a row is processed by one worker at a time. The store has no fencing token, so exclusivity is
 a matter of when stale rows are requeued: the discipline below is exactly what preserves it, and
 the two ways the service is run both follow the discipline.
 */
module ReminderExclusive {
  import opened Common
  import opened ReminderModel
  import opened ReminderProtocol

  /** Failures recorded for a row since it was created or last rescheduled. */
  function FailuresSince(log: seq<Event>, id: int): nat {
    if log == [] then 0
    else
      var e := log[|log| - 1];
      if e == RowCreated(id) || e == Rescheduled(id) then 0
      else FailuresSince(log[..|log| - 1], id) + if e == FailureRecorded(id) then 1 else 0
  }

  lemma FailuresAppend(log: seq<Event>, e: Event, id: int)
    ensures FailuresSince(log + [e], id)
            == if e == RowCreated(id) || e == Rescheduled(id) then 0
               else FailuresSince(log, id) + if e == FailureRecorded(id) then 1 else 0
  {
    assert (log + [e])[..|log|] == log;
  }

  /** Every live snapshot equals its row, and no row has two. */
  ghost predicate Exclusive(s: State) {
    && (forall w :: 0 <= w < |s.live| ==>
          && s.live[w].row.id in s.rows
          && s.live[w].row == s.rows[s.live[w].row.id]
          && s.live[w].row.status == Processing)
    && (forall v, w :: 0 <= v < w < |s.live| ==> s.live[v].row.id != s.live[w].row.id)
  }

  /** retry_count equals the failures recorded since creation or the last reschedule. */
  ghost predicate CountsExact(s: State) {
    forall id :: id in s.rows ==> s.rows[id].retryCount == FailuresSince(s.log, id)
  }

  ghost predicate HasLive(s: State, id: int) {
    exists w :: 0 <= w < |s.live| && s.live[w].row.id == id
  }

  /** Only rows that no worker still holds are requeued. */
  ghost predicate Disciplined(s: State, step: Step) {
    step.Requeue? ==> !HasLive(s, step.id)
  }

  // ----- The discipline is exactly what keeps exclusivity

  lemma RemoveKeepsExclusive(s: State, w: nat)
    requires Exclusive(s) && w < |s.live|
    ensures Exclusive(s.(live := RemoveAt(s.live, w)))
    ensures !HasLive(s.(live := RemoveAt(s.live, w)), s.live[w].row.id)
  {
    var rest := RemoveAt(s.live, w);
    forall v | 0 <= v < |rest|
      ensures rest[v] == s.live[if v < w then v else v + 1]
      ensures rest[v].row.id != s.live[w].row.id
    {
    }
  }

  lemma WriteKeepsExclusive(s: State, id: int, row: Row)
    requires Exclusive(s) && !HasLive(s, id)
    ensures Exclusive(s.(rows := s.rows[id := row]))
  {
    forall w | 0 <= w < |s.live| ensures s.live[w].row.id != id {
      assert !HasLive(s, id);
    }
  }

  lemma OpenRowHasNoLive(s: State, id: int)
    requires Exclusive(s) && id in s.rows && s.rows[id].status != Processing
    ensures !HasLive(s, id)
  {
  }

  lemma ClaimKeepsExclusive(s: State, id: int, now: Time)
    requires RowsOK(s) && Exclusive(s) && Enabled(s, Claim(id, now))
    ensures Exclusive(Do(s, Claim(id, now)))
  {
    OpenRowHasNoLive(s, id);
    forall w | 0 <= w < |s.live| ensures s.live[w].row.id != id {
      assert !HasLive(s, id);
    }
  }

  /** A mark takes the snapshot away together with its hold on the row. */
  lemma MarkedKeepsExclusive(s: State, w: nat, row: Row, events: seq<Event>)
    requires Exclusive(s) && w < |s.live|
    ensures Exclusive(Marked(s, w, row, events))
  {
    RemoveKeepsExclusive(s, w);
    WriteKeepsExclusive(s.(live := RemoveAt(s.live, w)), s.live[w].row.id, row);
  }

  lemma RequeueIsExact(s: State, id: int, staleBefore: Time, now: Time)
    requires Exclusive(s) && Enabled(s, Requeue(id, staleBefore, now))
    ensures Exclusive(Do(s, Requeue(id, staleBefore, now))) <==> !HasLive(s, id)
  {
    if w :| 0 <= w < |s.live| && s.live[w].row.id == id {
      assert s.live[w].row != RequeueRow(s.rows[id], now);
    } else {
      WriteKeepsExclusive(s, id, RequeueRow(s.rows[id], now));
    }
  }

  lemma UserWriteKeepsExclusive(s: State, id: int, row: Row)
    requires Exclusive(s) && (id in s.rows ==> s.rows[id].status != Processing)
    ensures Exclusive(s.(rows := s.rows[id := row]))
  {
    assert !HasLive(s, id);
    WriteKeepsExclusive(s, id, row);
  }

  /** Exclusivity is kept by a step if and only if the step does not requeue a row some worker holds. */
  lemma DisciplineIsExact(s: State, step: Step)
    requires Inv(s) && Exclusive(s) && Enabled(s, step)
    ensures Exclusive(Do(s, step)) <==> Disciplined(s, step)
  {
    hide RowOK, KeysUnique, LiveOK, NewRow;
    match step
    case Create(p, now) => UserWriteKeepsExclusive(s, s.nextID, NewRow(s.nextID, p, now));
    case BurnID =>
    case Claim(id, now) => ClaimKeepsExclusive(s, id, now);
    case Notify(w, _) =>
    case MarkSent(w, at) => MarkedKeepsExclusive(s, w, SentRow(TableRow(s, w), at), []);
    case MarkRetry(w, next, now) =>
      var sn := s.live[w];
      MarkedKeepsExclusive(s, w, RetryRow(TableRow(s, w), sn.row.retryCount + 1, next, sn.phase.message, now),
                           [FailureRecorded(sn.row.id), Returned(sn.row.id)]);
    case MarkFailed(w, now) =>
      var sn := s.live[w];
      MarkedKeepsExclusive(s, w, FailedRow(TableRow(s, w), sn.row.retryCount + 1, sn.phase.message, now),
                           [FailureRecorded(sn.row.id)]);
    case Crash(w) => RemoveKeepsExclusive(s, w);
    case Requeue(id, staleBefore, now) => RequeueIsExact(s, id, staleBefore, now);
    case Cancel(id, now) => UserWriteKeepsExclusive(s, id, CanceledRow(s.rows[id], now));
    case Reschedule(id, at, now) => UserWriteKeepsExclusive(s, id, RescheduledRow(s.rows[id], at, now));
  }

  /** No mark conflicts: while processing is exclusive, every mark finds its row in processing. */
  lemma MarksNeverConflict(s: State, w: nat)
    requires Exclusive(s) && w < |s.live|
    ensures MarkApplies(s, w)
  {
  }

  // ----- Exact failure counts

  /** The failure count after the events of a mark. */
  lemma MarkCounts(log: seq<Event>, i: int, id: int)
    ensures FailuresSince(log + [FailureRecorded(i)], id) == FailuresSince(log, id) + if i == id then 1 else 0
    ensures FailuresSince(log + [FailureRecorded(i), Returned(i)], id)
            == FailuresSince(log, id) + if i == id then 1 else 0
  {
    var recorded := log + [FailureRecorded(i)];
    FailuresAppend(log, FailureRecorded(i), id);
    FailuresAppend(recorded, Returned(i), id);
    assert log + [FailureRecorded(i), Returned(i)] == recorded + [Returned(i)];
  }

  lemma MarkKeepsCounts(s: State, w: nat, row: Row, events: seq<Event>)
    requires Exclusive(s) && CountsExact(s) && w < |s.live|
    requires row.retryCount == s.live[w].row.retryCount + 1
    requires
      var i := s.live[w].row.id;
      events == [FailureRecorded(i)] || events == [FailureRecorded(i), Returned(i)]
    ensures CountsExact(Marked(s, w, row, events))
  {
    var i := s.live[w].row.id;
    var t := Marked(s, w, row, events);
    forall id | id in t.rows
      ensures t.rows[id].retryCount == FailuresSince(t.log, id)
    {
      MarkCounts(s.log, i, id);
    }
  }

  /** A step that logs no failure, creation or reschedule of an existing row, and leaves retry counts alone. */
  lemma QuietKeepsCounts(s: State, t: State, events: seq<Event>)
    requires CountsExact(s) && t.log == s.log + events && |events| <= 2
    requires forall k :: 0 <= k < |events| ==>
               !events[k].FailureRecorded? && !events[k].RowCreated? && !events[k].Rescheduled?
    requires t.rows.Keys == s.rows.Keys
    requires forall id :: id in s.rows ==> t.rows[id].retryCount == s.rows[id].retryCount
    ensures CountsExact(t)
  {
    forall id | id in t.rows
      ensures t.rows[id].retryCount == FailuresSince(t.log, id)
    {
      if |events| == 0 {
        assert t.log == s.log;
      } else if |events| == 1 {
        assert t.log == s.log + [events[0]];
        FailuresAppend(s.log, events[0], id);
      } else {
        assert t.log == (s.log + [events[0]]) + [events[1]];
        FailuresAppend(s.log, events[0], id);
        FailuresAppend(s.log + [events[0]], events[1], id);
      }
    }
  }

  lemma ResetKeepsCounts(s: State, t: State, id: int, e: Event, more: seq<Event>)
    requires CountsExact(s) && t.log == s.log + [e] + more && (e == RowCreated(id) || e == Rescheduled(id))
    requires more == [] || more == [Returned(id)]
    requires t.rows.Keys == s.rows.Keys + {id} && t.rows[id].retryCount == 0
    requires forall i :: i in s.rows && i != id ==> t.rows[i].retryCount == s.rows[i].retryCount
    ensures CountsExact(t)
  {
    forall i | i in t.rows
      ensures t.rows[i].retryCount == FailuresSince(t.log, i)
    {
      FailuresAppend(s.log, e, i);
      if more != [] {
        FailuresAppend(s.log + [e], Returned(id), i);
      } else {
        assert t.log == s.log + [e];
      }
    }
  }

  lemma StepKeepsCounts(s: State, step: Step)
    requires Inv(s) && Exclusive(s) && CountsExact(s) && Enabled(s, step)
    ensures CountsExact(Do(s, step))
  {
    hide Exclusive, RowsOK, KeysUnique, LiveOK, FailuresSince;
    var t := Do(s, step);
    match step
    case Create(p, now) => ResetKeepsCounts(s, t, s.nextID, RowCreated(s.nextID), []);
    case BurnID =>
    case Claim(id, _) => QuietKeepsCounts(s, t, [RowClaimed(id)]);
    case Notify(w, _) => QuietKeepsCounts(s, t, [Notified(s.live[w].row.id)]);
    case MarkSent(w, _) => QuietKeepsCounts(s, t, []);
    case MarkRetry(w, next, now) =>
      var sn := s.live[w];
      MarkKeepsCounts(s, w, RetryRow(TableRow(s, w), sn.row.retryCount + 1, next, sn.phase.message, now),
                      [FailureRecorded(sn.row.id), Returned(sn.row.id)]);
    case MarkFailed(w, now) =>
      var sn := s.live[w];
      MarkKeepsCounts(s, w, FailedRow(TableRow(s, w), sn.row.retryCount + 1, sn.phase.message, now),
                      [FailureRecorded(sn.row.id)]);
    case Crash(_) =>
    case Requeue(id, _, _) => QuietKeepsCounts(s, t, [Requeued(id), Returned(id)]);
    case Cancel(_, _) => QuietKeepsCounts(s, t, []);
    case Reschedule(id, _, _) =>
      ResetKeepsCounts(s, t, id, Rescheduled(id), if s.rows[id].status == Failed then [Returned(id)] else []);
  }

  // ----- Regime one: a common clock, and dispatches that end within processingTTL

  /** A step taken at an instant of the common clock. */
  datatype Tick = Tick(step: Step, at: Time)

  /**
   At every instant the snapshots still live are younger than ttl, and recovery computed its threshold
   as some earlier clock reading minus ttl.
   */
  ghost predicate TimelyTick(s: State, clock: Time, ttl: Time, k: Tick) {
    && clock <= k.at
    && Enabled(s, k.step)
    && (forall w :: 0 <= w < |s.live| ==> k.at < s.live[w].row.updatedAt + ttl)
    && (k.step.Requeue? ==> k.step.staleBefore + ttl <= k.at)
  }

  ghost predicate TimelyRun(s: State, clock: Time, ttl: Time, ticks: seq<Tick>, t: State)
    decreases |ticks|
  {
    if ticks == [] then s == t
    else
      && TimelyTick(s, clock, ttl, ticks[0])
      && TimelyRun(Do(s, ticks[0].step), ticks[0].at, ttl, ticks[1..], t)
  }

  lemma TimelyIsDisciplined(s: State, clock: Time, ttl: Time, k: Tick)
    requires Exclusive(s) && TimelyTick(s, clock, ttl, k)
    ensures Disciplined(s, k.step)
  {
  }

  lemma {:induction false} TimelyRunsAreExclusive(s: State, clock: Time, ttl: Time, ticks: seq<Tick>, t: State)
    requires Inv(s) && Exclusive(s) && CountsExact(s) && TimelyRun(s, clock, ttl, ticks, t)
    ensures Inv(t) && Exclusive(t) && CountsExact(t)
    decreases |ticks|
  {
    if ticks != [] {
      TimelyIsDisciplined(s, clock, ttl, ticks[0]);
      DisciplineIsExact(s, ticks[0].step);
      StepKeepsInv(s, ticks[0].step);
      StepKeepsCounts(s, ticks[0].step);
      TimelyRunsAreExclusive(Do(s, ticks[0].step), ticks[0].at, ttl, ticks[1..], t);
    }
  }

  // ----- Regime two: one service, which recovers only between its batches

  /** Runs in which, if `sole` is set, rows are requeued only while no snapshot is live. */
  ghost predicate Runs(sole: bool, s: State, steps: seq<Step>, t: State)
    decreases |steps|
  {
    if steps == [] then s == t
    else
      && Enabled(s, steps[0])
      && (sole && steps[0].Requeue? ==> s.live == [])
      && Runs(sole, Do(s, steps[0]), steps[1..], t)
  }

  /** The invariant of every run, and what a sole service adds to it. */
  ghost predicate Good(sole: bool, s: State) {
    Inv(s) && (sole ==> Exclusive(s) && CountsExact(s))
  }

  lemma StepKeepsGood(sole: bool, s: State, step: Step)
    requires Good(sole, s) && Enabled(s, step) && (sole && step.Requeue? ==> s.live == [])
    ensures Good(sole, Do(s, step))
  {
    hide Exclusive, CountsExact, Inv;
    StepKeepsInv(s, step);
    if sole {
      DisciplineIsExact(s, step);
      StepKeepsCounts(s, step);
    }
  }

  lemma {:induction false} RunKeepsGood(sole: bool, s: State, steps: seq<Step>, t: State)
    requires Good(sole, s) && Runs(sole, s, steps, t)
    ensures Good(sole, t)
    decreases |steps|
  {
    hide Good;
    if steps != [] {
      StepKeepsGood(sole, s, steps[0]);
      RunKeepsGood(sole, Do(s, steps[0]), steps[1..], t);
    }
  }

  /** While recovery happens only between batches, processing stays exclusive and failures are counted exactly. */
  lemma SingleRunsAreExclusive(s: State, steps: seq<Step>, t: State)
    requires Inv(s) && Exclusive(s) && CountsExact(s) && Runs(true, s, steps, t)
    ensures Inv(t) && Exclusive(t) && CountsExact(t)
  {
    RunKeepsGood(true, s, steps, t);
  }

  lemma {:induction false} RunsReach(sole: bool, s: State, steps: seq<Step>, t: State)
    requires Runs(sole, s, steps, t)
    ensures Reaches(s, steps, t)
    decreases |steps|
  {
    if steps != [] {
      RunsReach(sole, Do(s, steps[0]), steps[1..], t);
    }
  }

  lemma {:induction false} RunsConcat(sole: bool, s: State, a: seq<Step>, m: State, b: seq<Step>, t: State)
    requires Runs(sole, s, a, m) && Runs(sole, m, b, t)
    ensures Runs(sole, s, a + b, t)
    decreases |a|
  {
    hide Do, Enabled;
    if a == [] {
      assert a + b == b;
    } else {
      assert (a + b)[0] == a[0] && (a + b)[1..] == a[1..] + b;
      RunsConcat(sole, Do(s, a[0]), a[1..], m, b, t);
    }
  }

  // ----- What users can do

  predicate ByUser(step: Step) {
    step.Create? || step.BurnID? || step.Cancel? || step.Reschedule?
  }

  /** Steps of users never touch what workers hold, and are steps of every regime. */
  lemma {:induction false} UserRunsAreRuns(sole: bool, s: State, steps: seq<Step>, t: State)
    requires Reaches(s, steps, t) && forall i :: 0 <= i < |steps| ==> ByUser(steps[i])
    ensures Runs(sole, s, steps, t) && t.live == s.live
    decreases |steps|
  {
    if steps != [] {
      assert ByUser(steps[0]);
      UserRunsAreRuns(sole, Do(s, steps[0]), steps[1..], t);
    }
  }
}
