/**
 What a run does to one reminder, read off its steps: when it is due, how long a claim holds it, and
 that the log the bounds count is a faithful record.
 */
module ReminderLaws {
  import opened Common
  import opened ReminderModel
  import opened ReminderProtocol

  // ----- When a reminder is due

  /** The time a step asks to be reminded at: a create, a retry whose mark applies, or a reschedule. */
  ghost function SetsSchedule(s: State, step: Step, id: int): Option<Time>
    requires Enabled(s, step)
  {
    match step
    case Create(p, _) => if id == s.nextID then Some(p.scheduleAt) else None
    case MarkRetry(w, next, _) => if id == s.live[w].row.id && MarkApplies(s, w) then Some(next) else None
    case Reschedule(i, at, _) => if id == i then Some(at) else None
    case _ => None
  }

  /** The last such time in a run. */
  ghost function LastSchedule(s: State, steps: seq<Step>, t: State, id: int): Option<Time>
    requires Reaches(s, steps, t)
    decreases |steps|
  {
    if steps == [] then None
    else
      var later := LastSchedule(Do(s, steps[0]), steps[1..], t, id);
      if later.Some? then later else SetsSchedule(s, steps[0], id)
  }

  lemma StepSchedules(s: State, step: Step, id: int)
    requires Inv(s) && Enabled(s, step) && id in Do(s, step).rows
    ensures SetsSchedule(s, step, id).None? ==> id in s.rows
    ensures Do(s, step).rows[id].scheduleAt
         == match SetsSchedule(s, step, id) case Some(at) => at case None => s.rows[id].scheduleAt
  {
  }

  /** In every run a reminder is due when it was last asked to be, and at no other time. */
  lemma {:induction false} DueWhenLastAsked(s: State, steps: seq<Step>, t: State, id: int)
    requires Inv(s) && Reaches(s, steps, t) && id in t.rows
    ensures LastSchedule(s, steps, t, id).None? ==> id in s.rows
    ensures t.rows[id].scheduleAt
         == match LastSchedule(s, steps, t, id) case Some(at) => at case None => s.rows[id].scheduleAt
    decreases |steps|
  {
    if steps != [] {
      StepKeepsInv(s, steps[0]);
      DueWhenLastAsked(Do(s, steps[0]), steps[1..], t, id);
      if LastSchedule(Do(s, steps[0]), steps[1..], t, id).None? {
        StepSchedules(s, steps[0], id);
      }
    }
  }

  /** No reminder is ever claimed before the time last asked for. */
  lemma NoClaimIsEarly(steps: seq<Step>, t: State, id: int, at: Time)
    requires Reaches(Init, steps, t) && Enabled(t, Claim(id, at))
    ensures LastSchedule(Init, steps, t, id).Some? && LastSchedule(Init, steps, t, id).value <= at
  {
    InitWithinBudget(id);
    DueWhenLastAsked(Init, steps, t, id);
  }

  /** A recorded failure postpones: until something else is asked, no claim comes before the retry's time. */
  lemma RetryIsPostponed(s: State, w: nat, next: Time, now: Time, steps: seq<Step>, t: State, at: Time)
    requires Inv(s) && Enabled(s, MarkRetry(w, next, now)) && MarkApplies(s, w)
    requires Reaches(Do(s, MarkRetry(w, next, now)), steps, t)
    requires LastSchedule(Do(s, MarkRetry(w, next, now)), steps, t, s.live[w].row.id).None?
    requires Enabled(t, Claim(s.live[w].row.id, at))
    ensures at >= next
  {
    var id, m := s.live[w].row.id, Do(s, MarkRetry(w, next, now));
    StepKeepsInv(s, MarkRetry(w, next, now));
    DueWhenLastAsked(m, steps, t, id);
    StepSchedules(s, MarkRetry(w, next, now), id);
  }

  // ----- How long a claim holds

  /** A claim made at `since` can end by a mark of the row, or by a requeue whose threshold is not before it. */
  predicate EndsClaim(s: State, step: Step, id: int, since: Time) {
    match step
    case MarkSent(w, _) => w < |s.live| && s.live[w].row.id == id
    case MarkRetry(w, _, _) => w < |s.live| && s.live[w].row.id == id
    case MarkFailed(w, _) => w < |s.live| && s.live[w].row.id == id
    case Requeue(i, staleBefore, _) => i == id && staleBefore >= since
    case _ => false
  }

  ghost predicate NeverEndsClaim(s: State, steps: seq<Step>, t: State, id: int, since: Time)
    requires Reaches(s, steps, t)
    decreases |steps|
  {
    steps == []
    || (!EndsClaim(s, steps[0], id, since) && NeverEndsClaim(Do(s, steps[0]), steps[1..], t, id, since))
  }

  lemma {:induction false} HeldRowStays(s: State, steps: seq<Step>, t: State, id: int, since: Time)
    requires Inv(s) && Reaches(s, steps, t) && NeverEndsClaim(s, steps, t, id, since)
    requires id in s.rows && s.rows[id].status == Processing && s.rows[id].updatedAt == since
    ensures id in t.rows && t.rows[id] == s.rows[id]
    decreases |steps|
  {
    if steps != [] {
      StepKeepsInv(s, steps[0]);
      HeldRowStays(Do(s, steps[0]), steps[1..], t, id, since);
    }
  }

  /**
   Whatever users, other workers and crashes do, a claimed row stays in processing until it is marked or
   recovered, and only a threshold at or after its claim recovers it.
   */
  lemma ClaimHolds(s: State, id: int, since: Time, steps: seq<Step>, t: State)
    requires Inv(s) && Enabled(s, Claim(id, since)) && Reaches(Do(s, Claim(id, since)), steps, t)
    requires NeverEndsClaim(Do(s, Claim(id, since)), steps, t, id, since)
    ensures id in t.rows && t.rows[id].status == Processing
    ensures forall staleBefore, now ::
              Enabled(t, Requeue(id, staleBefore, now)) <==> staleBefore != 0 && since <= staleBefore
  {
    StepKeepsInv(s, Claim(id, since));
    HeldRowStays(Do(s, Claim(id, since)), steps, t, id, since);
  }

  // ----- The log tells what happened

  /** What a query asks about, said of a step and the states around it. */
  ghost predicate Happens(q: Query, s: State, step: Step)
    requires Enabled(s, step)
  {
    match q
    case Notifications(id) => step.Notify? && s.live[step.w].row.id == id
    case Requeues(id) => step.Requeue? && step.id == id
    case Reschedules(id) => step.Reschedule? && step.id == id
    case Returns(id) => id in s.rows && !IsPending(s, id) && IsPending(Do(s, step), id)
  }

  ghost function Occurrences(q: Query, s: State, steps: seq<Step>, t: State): nat
    requires Reaches(s, steps, t)
    decreases |steps|
  {
    if steps == [] then 0
    else (if Happens(q, s, steps[0]) then 1 else 0) + Occurrences(q, Do(s, steps[0]), steps[1..], t)
  }

  lemma AppendedCount(q: Query, log: seq<Event>, after: seq<Event>)
    requires log <= after && |after| <= |log| + 2
    ensures
      var n := |log|;
      Count(q, after) == Count(q, log)
                         + (if n < |after| && Matches(q, after[n]) then 1 else 0)
                         + (if n + 1 < |after| && Matches(q, after[n + 1]) then 1 else 0)
  {
    hide Count;
    var n := |log|;
    if n == |after| {
      assert after == log;
    } else if n + 1 == |after| {
      assert after == log + [after[n]];
      CountAppend(q, log, after[n]);
    } else {
      assert after == log + [after[n], after[n + 1]];
      CountAppendTwo(q, log, after[n], after[n + 1]);
    }
  }

  lemma StepIsLogged(q: Query, s: State, step: Step)
    requires Inv(s) && Enabled(s, step)
    ensures Count(q, Do(s, step).log) == Count(q, s.log) + if Happens(q, s, step) then 1 else 0
  {
    hide Count, RowOK, KeysUnique, LiveOK;
    AppendedCount(q, s.log, Do(s, step).log);
  }

  /** The log counts Notify calls, requeues, reschedules and returns to pending exactly as often as they happen. */
  lemma {:induction false} LogIsExact(q: Query, s: State, steps: seq<Step>, t: State)
    requires Inv(s) && Reaches(s, steps, t)
    ensures Count(q, t.log) == Count(q, s.log) + Occurrences(q, s, steps, t)
    decreases |steps|
  {
    if steps != [] {
      StepKeepsInv(s, steps[0]);
      StepIsLogged(q, s, steps[0]);
      LogIsExact(q, Do(s, steps[0]), steps[1..], t);
    }
  }
}
