/**
 At-least-once delivery. Whatever crashes, claims and promotions happen, every published message is,
 for every group, still to be read, pending, queued for a retry, or dealt with for good.
 */
module PubSubDelivery {
  import opened Common
  import opened Messages
  import opened PubSubProtocol

  // ----- Nothing is lost

  /** Entry i of the stream carries v, and group g has yet to read it or still has it pending. */
  ghost predicate HeldAt(s: State, g: nat, v: Value, i: nat) {
    && g < |s.groups| && i < |s.stream|
    && s.stream[i].Readable? && s.stream[i].copy.v == v
    && (i >= s.groups[g].cursor || i in s.groups[g].pending)
  }

  ghost predicate QueuedAt(s: State, g: nat, v: Value, attempt: int) {
    g < |s.groups| && Copy(v, attempt) in s.groups[g].retry
  }

  ghost predicate Held(s: State, g: nat, v: Value) {
    (exists i: nat :: HeldAt(s, g, v, i)) || (exists a :: QueuedAt(s, g, v, a))
  }

  predicate IsSuccess(e: Event, g: nat, v: Value) {
    e.Called? && e.g == g && e.v == v && e.ok
  }

  predicate IsGrave(d: Dead, g: nat, v: Value) {
    d.g == g && d.copy.v == v
  }

  /** Handled successfully, in the dead-letter stream, or given up on because dead-lettering is off. */
  ghost predicate Settled(c: Config, s: State, g: nat, v: Value) {
    || (exists k :: 0 <= k < |s.log| && IsSuccess(s.log[k], g, v))
    || (exists k :: 0 <= k < |s.dlq| && IsGrave(s.dlq[k], g, v))
    || (!c.dlq && Dropped(g, v) in s.log)
  }

  ghost predicate Accounted(c: Config, s: State, g: nat, v: Value) {
    Held(s, g, v) || Settled(c, s, g, v)
  }

  /** A flight that is only waiting for its XACK has succeeded. */
  ghost predicate SuccessesLogged(c: Config, s: State) {
    forall f :: 0 <= f < |s.flights| && s.flights[f].phase.Succeeded? && s.flights[f].entry.Readable? ==>
      Settled(c, s, s.flights[f].g, s.flights[f].entry.copy.v)
  }

  lemma SettledStays(c: Config, s: State, t: State, g: nat, v: Value)
    requires Settled(c, s, g, v) && s.log <= t.log && s.dlq <= t.dlq
    ensures Settled(c, t, g, v)
  {
    if k :| 0 <= k < |s.log| && IsSuccess(s.log[k], g, v) {
      assert IsSuccess(t.log[k], g, v);
    } else if k :| 0 <= k < |s.dlq| && IsGrave(s.dlq[k], g, v) {
      assert IsGrave(t.dlq[k], g, v);
    }
  }

  lemma StepOnlyAddsRecords(c: Config, s: State, step: Step)
    requires Enabled(c, s, step)
    ensures s.log <= Do(c, s, step).log && s.dlq <= Do(c, s, step).dlq
  {
  }

  lemma StepKeepsSuccesses(c: Config, s: State, step: Step)
    requires SuccessesLogged(c, s) && Enabled(c, s, step)
    ensures SuccessesLogged(c, Do(c, s, step))
  {
    var t := Do(c, s, step);
    StepOnlyAddsRecords(c, s, step);
    forall f | 0 <= f < |t.flights| && t.flights[f].phase.Succeeded? && t.flights[f].entry.Readable?
      ensures Settled(c, t, t.flights[f].g, t.flights[f].entry.copy.v)
    {
      var fl := t.flights[f];
      if fl in s.flights {
        var h :| 0 <= h < |s.flights| && s.flights[h] == fl;
        SettledStays(c, s, t, fl.g, fl.entry.copy.v);
      } else {
        NewSuccess(c, s, step, f);
      }
    }
  }

  /** The one way to become Succeeded is a call that returns no error. */
  lemma NewSuccess(c: Config, s: State, step: Step, f: nat)
    requires Enabled(c, s, step) && f < |Do(c, s, step).flights|
    requires Do(c, s, step).flights[f] !in s.flights
    requires Do(c, s, step).flights[f].phase.Succeeded? && Do(c, s, step).flights[f].entry.Readable?
    ensures Settled(c, Do(c, s, step), Do(c, s, step).flights[f].g, Do(c, s, step).flights[f].entry.copy.v)
  {
    var t := Do(c, s, step);
    var fl := t.flights[f];
    assert step.Call? && step.ok && t.flights == s.flights[step.f := fl] && f == step.f;
    assert IsSuccess(t.log[|s.log|], fl.g, fl.entry.copy.v);
  }

  /** Taking an entry off the pending list is only done once it is settled, or queued again in the same step. */
  lemma AckAccounts(c: Config, s: State, step: Step, f: nat, g: nat, v: Value, i: nat)
    requires Inv(s) && SuccessesLogged(c, s) && Enabled(c, s, step) && HeldAt(s, g, v, i)
    requires step == AckGarbage(f) || step == Bury(f) || step == Drop(f) || (step.Retry? && step.f == f)
        || step == AckDone(f)
    ensures Accounted(c, Do(c, s, step), g, v)
  {
    var t := Do(c, s, step);
    var fl := s.flights[f];
    assert FlightOK(s, fl) && EntryOK(s.stream[i]);
    if fl.g == g && fl.i == i {
      match step
      case Bury(_) => assert IsGrave(t.dlq[|s.dlq|], g, v);
      case Drop(_) => assert t.log[|s.log|] == Dropped(g, v);
      case Retry(_, now) =>
        LimitIsStored(c, g, v);
        assert QueuedAt(t, g, v, fl.phase.attempt + 1);
      case _ => SettledStays(c, s, t, g, v);
    } else {
      assert HeldAt(t, g, v, i);
    }
  }

  lemma HeldStaysAccounted(c: Config, s: State, step: Step, g: nat, v: Value, i: nat)
    requires Inv(s) && SuccessesLogged(c, s) && Enabled(c, s, step) && HeldAt(s, g, v, i)
    ensures Accounted(c, Do(c, s, step), g, v)
  {
    match step
    case AckGarbage(f) => AckAccounts(c, s, step, f, g, v, i);
    case Bury(f) => AckAccounts(c, s, step, f, g, v, i);
    case Drop(f) => AckAccounts(c, s, step, f, g, v, i);
    case Retry(f, _) => AckAccounts(c, s, step, f, g, v, i);
    case AckDone(f) => AckAccounts(c, s, step, f, g, v, i);
    case _ => assert HeldAt(Do(c, s, step), g, v, i);
  }

  /** A queued retry leaves its set only for the end of the shared stream. */
  lemma QueuedStaysAccounted(c: Config, s: State, step: Step, g: nat, v: Value, a: int)
    requires Inv(s) && Enabled(c, s, step) && QueuedAt(s, g, v, a)
    ensures Accounted(c, Do(c, s, step), g, v)
  {
    var t := Do(c, s, step);
    if step.Promote? && step.g == g && step.copy == Copy(v, a) {
      AppendedIsHeld(c, s, step, g, v);
    } else {
      assert QueuedAt(t, g, v, a);
    }
  }

  /** Whatever is put on the stream, every group has yet to read it. */
  lemma AppendedIsHeld(c: Config, s: State, step: Step, g: nat, v: Value)
    requires Inv(s) && Enabled(c, s, step) && g < |s.groups|
    requires step == Publish(v) || (step.Promote? && step.copy.v == v)
    ensures Held(Do(c, s, step), g, v)
  {
    assert GroupOK(s, g);
    assert HeldAt(Do(c, s, step), g, v, |s.stream|);
  }

  ghost predicate AllAccounted(c: Config, s: State) {
    forall g: nat, v :: g < |s.groups| && Published(v) in s.log ==> Accounted(c, s, g, v)
  }

  lemma StepKeepsAccounts(c: Config, s: State, step: Step)
    requires Inv(s) && SuccessesLogged(c, s) && AllAccounted(c, s) && Enabled(c, s, step)
    ensures AllAccounted(c, Do(c, s, step))
  {
    var t := Do(c, s, step);
    StepExtends(c, s, step);
    StepOnlyAddsRecords(c, s, step);
    forall g: nat, v | g < |t.groups| && Published(v) in t.log ensures Accounted(c, t, g, v) {
      assert Published(v) in s.log ==> Accounted(c, s, g, v);
      if Published(v) !in s.log {
        NewPublish(c, s, step, v);
        AppendedIsHeld(c, s, step, g, v);
      } else if i: nat :| HeldAt(s, g, v, i) {
        HeldStaysAccounted(c, s, step, g, v, i);
      } else if a :| QueuedAt(s, g, v, a) {
        QueuedStaysAccounted(c, s, step, g, v, a);
      } else {
        SettledStays(c, s, t, g, v);
      }
    }
  }

  lemma NewPublish(c: Config, s: State, step: Step, v: Value)
    requires Enabled(c, s, step) && Published(v) in Do(c, s, step).log && Published(v) !in s.log
    ensures step == Publish(v)
  {
  }

  lemma {:induction false} RunKeepsAccounts(c: Config, s: State, steps: seq<Step>, t: State)
    requires Inv(s) && SuccessesLogged(c, s) && AllAccounted(c, s) && Reaches(c, s, steps, t)
    ensures AllAccounted(c, t) && |t.groups| == |s.groups|
    decreases |steps|
  {
    if steps != [] {
      StepKeepsInv(c, s, steps[0]);
      StepKeepsSuccesses(c, s, steps[0]);
      StepKeepsAccounts(c, s, steps[0]);
      StepExtends(c, s, steps[0]);
      RunKeepsAccounts(c, Do(c, s, steps[0]), steps[1..], t);
    }
  }

  /**
   At least once: in every reachable state every published message is, for every group, unread,
   pending or queued for a retry, unless that group handled it, buried it, or dropped it with
   dead-lettering off. Two workers on one entry and crashes at any point are among the runs.
   */
  lemma NothingIsLost(c: Config, n: nat, steps: seq<Step>, t: State, g: nat, v: Value)
    requires Reaches(c, Init(n), steps, t) && g < n && Published(v) in t.log
    ensures Held(t, g, v) || Settled(c, t, g, v)
  {
    InitOK(n);
    RunKeepsAccounts(c, Init(n), steps, t);
    assert Accounted(c, t, g, v);
  }

  // ----- Nothing is made up

  /** Every copy on the stream or in a retry set is of a published message, and graves hold spent attempts. */
  ghost predicate Genuine(s: State) {
    && (forall i :: 0 <= i < |s.stream| && s.stream[i].Readable? ==> Published(s.stream[i].copy.v) in s.log)
    && (forall g: nat, copy :: g < |s.groups| && copy in s.groups[g].retry ==> Published(copy.v) in s.log)
    && (forall k :: 0 <= k < |s.dlq| ==>
          Published(s.dlq[k].copy.v) in s.log && s.dlq[k].copy.attempt >= MaxOf(s.dlq[k].copy.v))
  }

  lemma StepKeepsGenuine(c: Config, s: State, step: Step)
    requires Inv(s) && Genuine(s) && Enabled(c, s, step)
    ensures Genuine(Do(c, s, step))
  {
    var t := Do(c, s, step);
    StepOnlyAddsRecords(c, s, step);
    forall e | e in s.log ensures e in t.log {
    }
    match step
    case Publish(v) => assert t.log[|s.log|] == Published(v);
    case Retry(f, _) =>
      var fl := s.flights[f];
      assert FlightOK(s, fl) && EntryOK(s.stream[fl.i]);
      LimitIsStored(c, fl.g, fl.entry.copy.v);
    case Bury(f) =>
      var fl := s.flights[f];
      assert FlightOK(s, fl) && EntryOK(s.stream[fl.i]);
      LimitIsStored(c, fl.g, fl.entry.copy.v);
    case _ =>
  }

  lemma {:induction false} RunKeepsGenuine(c: Config, s: State, steps: seq<Step>, t: State)
    requires Inv(s) && Genuine(s) && Reaches(c, s, steps, t)
    ensures Genuine(t)
    decreases |steps|
  {
    if steps != [] {
      StepKeepsInv(c, s, steps[0]);
      StepKeepsGenuine(c, s, steps[0]);
      RunKeepsGenuine(c, Do(c, s, steps[0]), steps[1..], t);
    }
  }

  /**
   In every run, what is on the stream, queued or buried was published as it is, limit and time
   included, and nothing is buried before its last attempt.
   */
  lemma NothingIsMadeUp(c: Config, n: nat, steps: seq<Step>, t: State)
    requires Reaches(c, Init(n), steps, t)
    ensures Genuine(t)
  {
    InitOK(n);
    RunKeepsGenuine(c, Init(n), steps, t);
  }

  // ----- Retries are not early

  /** When the latest failure that queued this copy happened. */
  function LastFailure(log: seq<Event>, g: nat, copy: Copy): Option<int> {
    if log == [] then None
    else
      var e := log[|log| - 1];
      if e.Scheduled? && e.g == g && e.copy == copy then Some(e.failedAt)
      else LastFailure(log[..|log| - 1], g, copy)
  }

  /** A queued copy's score is its due time after the latest failure, in whole milliseconds. */
  ghost predicate ScoreMatches(c: Config, s: State, g: nat, copy: Copy)
    requires g < |s.groups| && copy in s.groups[g].retry
  {
    && g < |c.policies| && LastFailure(s.log, g, copy).Some?
    && s.groups[g].retry[copy] == UnixMilli(DueAt(c, g, copy.attempt, LastFailure(s.log, g, copy).value))
  }

  ghost predicate ScoresMatch(c: Config, s: State) {
    forall g: nat, copy :: g < |s.groups| && copy in s.groups[g].retry ==> ScoreMatches(c, s, g, copy)
  }

  lemma LastFailureAppend(log: seq<Event>, e: Event, g: nat, copy: Copy)
    ensures LastFailure(log + [e], g, copy)
            == if e.Scheduled? && e.g == g && e.copy == copy then Some(e.failedAt) else LastFailure(log, g, copy)
  {
    assert (log + [e])[..|log|] == log;
  }

  lemma StepKeepsScore(c: Config, s: State, step: Step, g: nat, copy: Copy)
    requires ScoresMatch(c, s) && Enabled(c, s, step)
    requires g < |s.groups| && copy in Do(c, s, step).groups[g].retry
    ensures ScoreMatches(c, Do(c, s, step), g, copy)
  {
    var t := Do(c, s, step);
    assert copy in s.groups[g].retry ==> ScoreMatches(c, s, g, copy);
    if t.log != s.log {
      var e := t.log[|s.log|];
      assert t.log == s.log + [e];
      LastFailureAppend(s.log, e, g, copy);
    }
  }

  lemma StepKeepsScores(c: Config, s: State, step: Step)
    requires ScoresMatch(c, s) && Enabled(c, s, step)
    ensures ScoresMatch(c, Do(c, s, step))
  {
    var t := Do(c, s, step);
    forall g: nat, copy | g < |t.groups| && copy in t.groups[g].retry ensures ScoreMatches(c, t, g, copy) {
      StepKeepsScore(c, s, step, g, copy);
    }
  }

  lemma {:induction false} RunKeepsScores(c: Config, s: State, steps: seq<Step>, t: State)
    requires ScoresMatch(c, s) && Reaches(c, s, steps, t)
    ensures ScoresMatch(c, t)
    decreases |steps|
  {
    if steps != [] {
      StepKeepsScores(c, s, steps[0]);
      RunKeepsScores(c, Do(c, s, steps[0]), steps[1..], t);
    }
  }

  /**
   In any run a queued copy can be promoted exactly from the millisecond on in which its group's latest
   failure to handle it plus the backoff for its attempt falls.
   */
  lemma PromotableWhenDue(c: Config, n: nat, steps: seq<Step>, t: State, g: nat, copy: Copy, now: int)
    requires Reaches(c, Init(n), steps, t) && g < |t.groups| && copy in t.groups[g].retry
    ensures g < |c.policies| && LastFailure(t.log, g, copy).Some?
    ensures
      var due := LastFailure(t.log, g, copy).value + RetryDelay(c.policies[g], copy.attempt);
      Enabled(c, t, Promote(g, copy, now)) <==> due / 1_000_000 <= now / 1_000_000
  {
    RunKeepsScores(c, Init(n), steps, t);
    assert ScoreMatches(c, t, g, copy);
  }

  /** So it is never promoted a millisecond or more too early: both times are cut to whole milliseconds. */
  lemma RetriesAreNotEarly(c: Config, n: nat, steps: seq<Step>, t: State, g: nat, copy: Copy, now: int)
    requires Reaches(c, Init(n), steps, t) && Enabled(c, t, Promote(g, copy, now))
    ensures g < |c.policies| && LastFailure(t.log, g, copy).Some?
    ensures now > LastFailure(t.log, g, copy).value + RetryDelay(c.policies[g], copy.attempt) - 1_000_000
  {
    PromotableWhenDue(c, n, steps, t, g, copy, now);
  }
}
