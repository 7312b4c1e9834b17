/**
 The work bound is attained: with every retry promoted as soon as it is queued, every group reads every
 retry of every group, and a message that always fails costs exactly as many calls as the bound allows.
 */
module PubSubTight {
  import opened Common
  import opened Messages
  import opened PubSubProtocol
  import opened PubSubWork

  /** Nobody is at work and nothing is queued: all that is left is what groups have yet to read, copies of v. */
  ghost predicate Calm(s: State, v: Value) {
    && Inv(s) && s.flights == []
    && (forall g :: 0 <= g < |s.groups| ==> s.groups[g].retry == map[])
    && (forall i :: 0 <= i < |s.stream| ==> s.stream[i].Readable? && s.stream[i].copy.v == v)
  }

  /** Group g has just failed on entry i, the next it had to read, and has nothing queued. */
  ghost predicate JustFailed(s: State, v: Value, g: nat, i: nat, a: int) {
    && Inv(s) && g < |s.groups| && s.flights == [Flight(g, i, 1, Readable(Copy(v, a)), Failed(a))]
    && 1 <= a <= MaxOf(v)
    && (forall h :: 0 <= h < |s.groups| ==> s.groups[h].retry == map[])
    && (forall j :: 0 <= j < |s.stream| ==> s.stream[j].Readable? && s.stream[j].copy.v == v)
  }

  predicate IsQuiet(e: Event) {
    e.ReadBy? || e.Scheduled? || e.Promoted? || e.Buried? || e.Dropped?
  }

  lemma FailedCallPotential(s: State, f: nat, v: Value)
    requires Inv(s) && f < |s.flights| && s.flights[f].phase.Ready? && s.flights[f].entry.Readable?
    requires s.flights[f].entry.copy.v == v
    ensures Potential(WithPhase(s, f, Failed(s.flights[f].phase.attempt)), v) == Potential(s, v) - 1
  {
    var a := s.flights[f].phase.attempt;
    AttemptPositive(s, f);
    PhasePotential(s, f, Failed(a), v);
    WeightUnfolds(|s.groups|, v, a);
  }

  /** A read and a failed call take one unit off the potential, which is the call. */
  lemma ReadAndFail(c: Config, s: State, g: nat, v: Value) returns (t: State, a: int)
    requires Calm(s, v) && g < |s.groups| && s.groups[g].cursor < |s.stream|
    ensures Reaches(c, s, [Read(g)] + [Call(0, false)], t)
    ensures JustFailed(t, v, g, s.groups[g].cursor, a) && |t.groups| == |s.groups|
    ensures t.log == s.log + [ReadBy(g, s.groups[g].cursor)] + [Called(g, s.groups[g].cursor, v, false)]
    ensures Potential(t, v) == Potential(s, v) - 1
  {
    hide Potential, EntryOK, GroupOK, FlightOK;
    var i := s.groups[g].cursor;
    a := s.stream[i].copy.attempt;
    assert 1 <= a <= MaxOf(v) by {
      AttemptInRange(s, i);
    }
    var m := Do(c, s, Read(g));
    StepKeepsInv(c, s, Read(g));
    ReadPotential(s, g, v);
    PotentialFrame(m.(log := s.log), m, v);
    t := Do(c, m, Call(0, false));
    StepKeepsInv(c, m, Call(0, false));
    FailedCallPotential(m, 0, v);
    PotentialFrame(WithPhase(m, 0, Failed(a)), t, v);
    OneStep(c, m, Call(0, false), [], t);
    assert [Call(0, false)] + [] == [Call(0, false)];
    OneStep(c, s, Read(g), [Call(0, false)], t);
  }

  lemma AttemptInRange(s: State, i: nat)
    requires Inv(s) && i < |s.stream| && s.stream[i].Readable?
    ensures 1 <= s.stream[i].copy.attempt <= MaxOf(s.stream[i].copy.v)
  {
    assert EntryOK(s.stream[i]);
  }

  /** A failure with attempts left is queued and promoted at once: the potential is as before. */
  lemma RetryAndPromote(c: Config, s: State, v: Value, g: nat, i: nat, a: int) returns (t: State, now: int)
    requires JustFailed(s, v, g, i, a) && a < MaxOf(v) && |s.groups| <= |c.policies|
    ensures Reaches(c, s, [Retry(0, 0)] + [Promote(g, Copy(v, a + 1), now)], t)
    ensures Calm(t, v) && |t.groups| == |s.groups| && Potential(t, v) == Potential(s, v)
    ensures t.log == s.log + [Scheduled(g, Copy(v, a + 1), 0)] + [Promoted(g, Copy(v, a + 1), now)]
  {
    hide Potential, EntryOK, GroupOK, FlightOK, RetryDelay;
    var copy := Copy(v, a + 1);
    now := DueAt(c, g, a + 1, 0);
    LimitIsStored(c, g, v);
    var m := Do(c, s, Retry(0, 0));
    StepKeepsInv(c, s, Retry(0, 0));
    RetryPotential(s, 0, UnixMilli(now), v);
    PotentialFrame(m.(log := s.log), m, v);
    t := Do(c, m, Promote(g, copy, now));
    StepKeepsInv(c, m, Promote(g, copy, now));
    PromotePotential(m, g, copy, v);
    PotentialFrame(t.(log := m.log), t, v);
    OneStep(c, m, Promote(g, copy, now), [], t);
    assert [Promote(g, copy, now)] + [] == [Promote(g, copy, now)];
    OneStep(c, s, Retry(0, 0), [Promote(g, copy, now)], t);
  }

  /** A failure at the last attempt is buried or dropped, which weighs nothing. */
  lemma GiveUp(c: Config, s: State, v: Value, g: nat, i: nat) returns (step: Step, t: State)
    requires JustFailed(s, v, g, i, MaxOf(v))
    ensures Reaches(c, s, [step], t)
    ensures Calm(t, v) && |t.groups| == |s.groups| && Potential(t, v) == Potential(s, v)
    ensures t.log == s.log + [if c.dlq then Buried(g, v) else Dropped(g, v)]
  {
    hide Potential, EntryOK, GroupOK, FlightOK;
    LimitIsStored(c, g, v);
    step := if c.dlq then Bury(0) else Drop(0);
    t := Do(c, s, step);
    StepKeepsInv(c, s, step);
    AckedPotential(s, 0, v);
    assert FlightWeight(|s.groups|, v)(s.flights[0]) == 0;
    PotentialFrame(Acked(s, 0), t, v);
    OneStep(c, s, step, [], t);
    assert [step] + [] == [step];
  }

  // ----- Counting

  lemma EventCounted(log: seq<Event>, e: Event, v: Value)
    requires IsQuiet(e) || (e.Called? && e.v == v)
    ensures Count(CallsOf(v), log + [e]) == Count(CallsOf(v), log) + if e.Called? then 1 else 0
    ensures Count(PublishesOf(v), log + [e]) == Count(PublishesOf(v), log)
    ensures Count(ClaimsOf(v), log + [e]) == Count(ClaimsOf(v), log)
  {
    CountAppend(CallsOf(v), log, e);
    CountAppend(PublishesOf(v), log, e);
    CountAppend(ClaimsOf(v), log, e);
  }

  /** One more call of v's handler, and no more publishes or claims of it. */
  ghost predicate OneMoreCall(before: seq<Event>, after: seq<Event>, v: Value) {
    && Count(CallsOf(v), after) == Count(CallsOf(v), before) + 1
    && Count(PublishesOf(v), after) == Count(PublishesOf(v), before)
    && Count(ClaimsOf(v), after) == Count(ClaimsOf(v), before)
  }

  lemma RoundCounted(before: seq<Event>, read: Event, call: Event, quiet: seq<Event>, v: Value)
    requires IsQuiet(read) && call.Called? && call.v == v && 1 <= |quiet| <= 2
    requires forall k :: 0 <= k < |quiet| ==> IsQuiet(quiet[k])
    ensures OneMoreCall(before, before + [read] + [call] + quiet, v)
  {
    hide Count;
    var a := before + [read] + [call];
    EventCounted(before, read, v);
    EventCounted(before + [read], call, v);
    EventCounted(a, quiet[0], v);
    if |quiet| == 2 {
      EventCounted(a + [quiet[0]], quiet[1], v);
      assert a + quiet == a + [quiet[0]] + [quiet[1]];
    } else {
      assert a + quiet == a + [quiet[0]];
    }
  }

  /** A group reads its next entry, fails on it, and the failure is retried or given up. */
  lemma Round(c: Config, s: State, g: nat, v: Value) returns (steps: seq<Step>, t: State)
    requires Calm(s, v) && g < |s.groups| <= |c.policies| && s.groups[g].cursor < |s.stream|
    ensures Reaches(c, s, steps, t) && Calm(t, v) && |t.groups| == |s.groups|
    ensures Potential(t, v) == Potential(s, v) - 1 && OneMoreCall(s.log, t.log, v)
  {
    hide Do, Enabled, Potential, Calm, JustFailed, OneMoreCall;
    var m, a := ReadAndFail(c, s, g, v);
    var i := s.groups[g].cursor;
    assert JustFailed(m, v, g, i, a);
    FailedInRange(m, v, g, i, a);
    var first, read, call := [Read(g)] + [Call(0, false)], ReadBy(g, i), Called(g, i, v, false);
    if a < MaxOf(v) {
      var now;
      t, now := RetryAndPromote(c, m, v, g, i, a);
      var quiet := [Scheduled(g, Copy(v, a + 1), 0)] + [Promoted(g, Copy(v, a + 1), now)];
      RoundCounted(s.log, read, call, quiet, v);
      assert t.log == s.log + [read] + [call] + quiet;
      steps := first + ([Retry(0, 0)] + [Promote(g, Copy(v, a + 1), now)]);
      ReachesConcat(c, s, first, m, [Retry(0, 0)] + [Promote(g, Copy(v, a + 1), now)], t);
    } else {
      var step;
      step, t := GiveUp(c, m, v, g, i);
      RoundCounted(s.log, read, call, [if c.dlq then Buried(g, v) else Dropped(g, v)], v);
      steps := first + [step];
      ReachesConcat(c, s, first, m, [step], t);
    }
  }

  lemma FailedInRange(s: State, v: Value, g: nat, i: nat, a: int)
    requires JustFailed(s, v, g, i, a)
    ensures 1 <= a <= MaxOf(v)
  {
  }

  // ----- Until nothing is left

  /** When every group has read everything and nothing is queued, no call is left. */
  lemma NothingLeft(s: State, v: Value)
    requires Calm(s, v) && forall g :: 0 <= g < |s.groups| ==> s.groups[g].cursor >= |s.stream|
    ensures Potential(s, v) == 0
  {
    var G := |s.groups|;
    forall group | group in s.groups ensures GroupWeight(G, v, s.stream)(group) == 0 {
      var g :| 0 <= g < |s.groups| && s.groups[g] == group;
      assert GroupOK(s, g);
      assert s.stream[group.cursor..] == [];
      EmptyRetryWeight(G, v, 2);
    }
    SumZero(s.groups, GroupWeight(G, v, s.stream));
  }

  /** From a calm state there is a run that makes exactly as many calls as the potential allows. */
  lemma {:induction false} Exhaust(c: Config, s: State, v: Value) returns (steps: seq<Step>, t: State)
    requires Calm(s, v) && |s.groups| <= |c.policies|
    ensures Reaches(c, s, steps, t)
    ensures Count(CallsOf(v), t.log) == Count(CallsOf(v), s.log) + Potential(s, v)
    ensures Count(PublishesOf(v), t.log) == Count(PublishesOf(v), s.log)
    ensures Count(ClaimsOf(v), t.log) == Count(ClaimsOf(v), s.log)
    decreases Potential(s, v)
  {
    hide Potential, Count, Do, Enabled;
    CalmPotential(s, v);
    if g :| 0 <= g < |s.groups| && s.groups[g].cursor < |s.stream| {
      var round, m := Round(c, s, g, v);
      CalmPotential(m, v);
      var rest;
      rest, t := Exhaust(c, m, v);
      steps := round + rest;
      ReachesConcat(c, s, round, m, rest, t);
    } else {
      NothingLeft(s, v);
      steps, t := [], s;
    }
  }

  lemma CalmPotential(s: State, v: Value)
    requires Calm(s, v)
    ensures Potential(s, v) >= 0
  {
    PotentialNonNegative(s, v);
  }

  /** After one publish to an empty topic the potential is the whole bound. */
  lemma PublishedPotential(c: Config, n: nat, v: Value) returns (s: State)
    requires Valid(v.message) && MaxOf(v) >= 1
    ensures Reaches(c, Init(n), [Publish(v)], s) && Calm(s, v) && |s.groups| == n
    ensures s.log == [Published(v)] && Potential(s, v) == n * PowerSum(n, MaxOf(v))
  {
    InitOK(n);
    s := Do(c, Init(n), Publish(v));
    StepKeepsInv(c, Init(n), Publish(v));
    OneStep(c, Init(n), Publish(v), [], s);
    assert [Publish(v)] + [] == [Publish(v)];
    var e := Readable(Copy(v, 1));
    PublishPotential(Init(n), e, v);
    PotentialFrame(s.(log := []), s, v);
    FreshGroupsWeigh(n, v, n);
    TreeOfGrants(n, MaxOf(v), n);
    assert Left(v, 1) == MaxOf(v);
  }

  /**
   For every number of groups and every limit there is a run with one publish and no claims in which
   the handlers are called n * (1 + n + ... + n^(M-1)) times: HandlerCallsAreBounded is an equality there.
   */
  lemma WorkBoundIsAttained(c: Config, n: nat, v: Value) returns (steps: seq<Step>, t: State)
    requires Valid(v.message) && MaxOf(v) >= 1 && n <= |c.policies|
    ensures Reaches(c, Init(n), steps, t)
    ensures Count(PublishesOf(v), t.log) == 1 && Count(ClaimsOf(v), t.log) == 0
    ensures Count(CallsOf(v), t.log) == n * PowerSum(n, MaxOf(v))
  {
    var s := PublishedPotential(c, n, v);
    OnePublish(v);
    hide Potential, Count, Do, Enabled, PowerSum;
    var rest;
    rest, t := Exhaust(c, s, v);
    steps := [Publish(v)] + rest;
    ReachesConcat(c, Init(n), [Publish(v)], s, rest, t);
  }

  lemma OnePublish(v: Value)
    ensures Count(PublishesOf(v), [Published(v)]) == 1
    ensures Count(CallsOf(v), [Published(v)]) == 0 && Count(ClaimsOf(v), [Published(v)]) == 0
  {
    var log := [Published(v)];
    assert log[..0] == [];
    assert Count(PublishesOf(v), log) == Count(PublishesOf(v), log[..0]) + 1;
  }
}
