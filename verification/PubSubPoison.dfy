/**
 Poison entries: how often one stream entry reaches one group's handler when consumers keep crashing
 on it. The delivery count of the pending list is what stops the loop, so a claim that cannot read
 the count is worth one more call.
 */
module PubSubPoison {
  import opened Common
  import opened Messages
  import opened PubSubProtocol
  import opened PubSubWork

  /** A flight of entry i in group g whose handler may still be called: its delivery or attempt is within the limit. */
  function Callable(g: nat, i: nat, max: int): Flight -> int {
    (fl: Flight) =>
      if fl.g == g && fl.i == i
         && ((fl.phase.Unread? && fl.delivery <= max) || (fl.phase.Ready? && fl.phase.attempt <= max)) then 1 else 0
  }

  /** Pending counts are delivery counts: a pending entry was read once and claimed the other times. */
  ghost predicate CountsMatch(s: State, g: nat, i: nat) {
    g < |s.groups| ==>
      && (s.groups[g].cursor <= i ==> Count(DeliveriesAt(g, i), s.log) == 0)
      && (i in s.groups[g].pending ==> s.groups[g].pending[i] == Count(DeliveriesAt(g, i), s.log))
  }

  /** No flight is a later delivery than the pending list has counted. */
  ghost predicate DeliveriesKnown(s: State, g: nat, i: nat) {
    forall f :: 0 <= f < |s.flights| && s.flights[f].g == g && s.flights[f].i == i ==>
      s.flights[f].delivery <= Count(DeliveriesAt(g, i), s.log)
  }

  ghost predicate Bounded(s: State, g: nat, i: nat, max: int) {
    Count(CallsAt(g, i), s.log) + Sum(s.flights, Callable(g, i, max))
    <= Min(Count(DeliveriesAt(g, i), s.log), max) + Count(BlindReadsAt(g, i), s.log)
  }

  ghost predicate PoisonInv(s: State, g: nat, i: nat, max: int) {
    CountsMatch(s, g, i) && DeliveriesKnown(s, g, i) && Bounded(s, g, i, max)
  }

  /** The entry at i, once there, has this limit. */
  ghost predicate HasLimit(s: State, i: nat, max: int) {
    i < |s.stream| ==> s.stream[i].Readable? && MaxOf(s.stream[i].copy.v) == max
  }

  lemma EventCounts(log: seq<Event>, e: Event, g: nat, i: nat)
    ensures Count(CallsAt(g, i), log + [e]) == Count(CallsAt(g, i), log) + (if Matches(CallsAt(g, i), e) then 1 else 0)
    ensures Count(DeliveriesAt(g, i), log + [e])
        == Count(DeliveriesAt(g, i), log) + (if Matches(DeliveriesAt(g, i), e) then 1 else 0)
    ensures Count(BlindReadsAt(g, i), log + [e])
        == Count(BlindReadsAt(g, i), log) + (if Matches(BlindReadsAt(g, i), e) then 1 else 0)
  {
    CountAppend(CallsAt(g, i), log, e);
    CountAppend(DeliveriesAt(g, i), log, e);
    CountAppend(BlindReadsAt(g, i), log, e);
  }

  /** One more delivery of entry j to group h, its n-th: at most one more call, and only while n is within the limit. */
  lemma DeliveryKeepsBound(s: State, t: State, e: Event, fl: Flight, g: nat, i: nat, max: int)
    requires DeliveriesKnown(s, g, i) && Bounded(s, g, i, max)
    requires t.flights == s.flights + [fl] && t.log == s.log + [e]
    requires (e.ReadBy? || e.ClaimedBy?) && e.g == fl.g && e.i == fl.i
    requires fl.g == g && fl.i == i ==> fl.delivery == Count(DeliveriesAt(g, i), s.log) + 1
    requires fl.g == g && fl.i == i && fl.delivery > max ==> Callable(g, i, max)(fl) == 0
    ensures DeliveriesKnown(t, g, i) && Bounded(t, g, i, max)
  {
    EventCounts(s.log, e, g, i);
    SumAppend(s.flights, fl, Callable(g, i, max));
  }

  lemma ReadKeepsCounts(c: Config, s: State, h: nat, g: nat, i: nat)
    requires Inv(s) && CountsMatch(s, g, i) && Enabled(c, s, Read(h))
    ensures CountsMatch(Do(c, s, Read(h)), g, i)
  {
    assert GroupOK(s, h);
    CountAppend(DeliveriesAt(g, i), s.log, ReadBy(h, s.groups[h].cursor));
  }

  lemma ReadKeepsPoison(c: Config, s: State, h: nat, g: nat, i: nat, max: int)
    requires Inv(s) && PoisonInv(s, g, i, max) && HasLimit(s, i, max) && max >= 1 && Enabled(c, s, Read(h))
    ensures PoisonInv(Do(c, s, Read(h)), g, i, max)
  {
    var j := s.groups[h].cursor;
    var e := s.stream[j];
    ReadKeepsCounts(c, s, h, g, i);
    DeliveryKeepsBound(s, Do(c, s, Read(h)), ReadBy(h, j), Flight(h, j, 1, e, Ready(StoredAttempt(e))), g, i, max);
  }

  lemma ClaimKeepsCounts(c: Config, s: State, h: nat, j: nat, g: nat, i: nat)
    requires Inv(s) && CountsMatch(s, g, i) && Enabled(c, s, Claim(h, j))
    ensures CountsMatch(Do(c, s, Claim(h, j)), g, i)
  {
    assert GroupOK(s, h);
    CountAppend(DeliveriesAt(g, i), s.log, ClaimedBy(h, j, s.stream[j]));
  }

  lemma ClaimKeepsPoison(c: Config, s: State, h: nat, j: nat, g: nat, i: nat, max: int)
    requires Inv(s) && PoisonInv(s, g, i, max) && Enabled(c, s, Claim(h, j))
    ensures PoisonInv(Do(c, s, Claim(h, j)), g, i, max)
  {
    var n := s.groups[h].pending[j] + 1;
    ClaimKeepsCounts(c, s, h, j, g, i);
    DeliveryKeepsBound(s, Do(c, s, Claim(h, j)), ClaimedBy(h, j, s.stream[j]), Flight(h, j, n, s.stream[j], Unread),
        g, i, max);
  }

  /** A flight moves on. It stays callable only if it was, or if a blind read or a call is logged for that. */
  lemma PhaseKeepsPoison(s: State, t: State, f: nat, phase: Phase, g: nat, i: nat, max: int)
    requires PoisonInv(s, g, i, max) && f < |s.flights|
    requires t.groups == s.groups && t.flights == s.flights[f := s.flights[f].(phase := phase)]
    requires Count(DeliveriesAt(g, i), t.log) == Count(DeliveriesAt(g, i), s.log)
    requires Count(CallsAt(g, i), t.log) - Count(CallsAt(g, i), s.log)
             + Callable(g, i, max)(s.flights[f].(phase := phase)) - Callable(g, i, max)(s.flights[f])
             <= Count(BlindReadsAt(g, i), t.log) - Count(BlindReadsAt(g, i), s.log)
    ensures PoisonInv(t, g, i, max)
  {
    SumUpdate(s.flights, f, s.flights[f].(phase := phase), Callable(g, i, max));
  }

  lemma CountReadKeepsPoison(c: Config, s: State, f: nat, ok: bool, g: nat, i: nat, max: int)
    requires Inv(s) && PoisonInv(s, g, i, max) && Enabled(c, s, CountRead(f, ok))
    ensures PoisonInv(Do(c, s, CountRead(f, ok)), g, i, max)
  {
    hide Count, Inv, Bounded;
    var fl := s.flights[f];
    var pending := s.groups[fl.g].pending;
    EventCounts(s.log, BlindRead(fl.g, fl.i), g, i);
    if ok && fl.i in pending && pending[fl.i] > 0 {
      PhaseKeepsPoison(s, Do(c, s, CountRead(f, ok)), f, Ready(pending[fl.i]), g, i, max);
    } else {
      PhaseKeepsPoison(s, Do(c, s, CountRead(f, ok)), f, Ready(StoredAttempt(fl.entry)), g, i, max);
    }
  }

  lemma CallKeepsPoison(c: Config, s: State, f: nat, ok: bool, g: nat, i: nat, max: int)
    requires Inv(s) && PoisonInv(s, g, i, max) && HasLimit(s, i, max) && max >= 1 && c.dlq && Enabled(c, s, Call(f, ok))
    ensures PoisonInv(Do(c, s, Call(f, ok)), g, i, max)
  {
    hide Count, CountsMatch, DeliveriesKnown, Bounded;
    var fl := s.flights[f];
    assert FlightOK(s, fl);
    EventCounts(s.log, Called(fl.g, fl.i, fl.entry.copy.v, ok), g, i);
    PhaseKeepsPoison(s, Do(c, s, Call(f, ok)), f, if ok then Succeeded else Failed(fl.phase.attempt), g, i, max);
  }

  lemma RemoveKeepsPoison(s: State, f: nat, g: nat, i: nat, max: int)
    requires PoisonInv(s, g, i, max) && f < |s.flights|
    ensures PoisonInv(s.(flights := RemoveAt(s.flights, f)), g, i, max)
  {
    SumRemove(s.flights, f, Callable(g, i, max));
    var rest := RemoveAt(s.flights, f);
    forall h | 0 <= h < |rest| && rest[h].g == g && rest[h].i == i
      ensures rest[h].delivery <= Count(DeliveriesAt(g, i), s.log)
    {
      assert rest[h] == s.flights[if h < f then h else h + 1];
    }
  }

  lemma AckKeepsPoison(s: State, f: nat, g: nat, i: nat, max: int)
    requires PoisonInv(s, g, i, max) && f < |s.flights| && s.flights[f].g < |s.groups|
    ensures PoisonInv(Acked(s, f), g, i, max)
  {
    RemoveKeepsPoison(s, f, g, i, max);
  }

  /** Publishing, burying, dropping, scheduling and promoting leave deliveries and calls alone. */
  lemma QuietKeepsPoison(s: State, t: State, e: Event, g: nat, i: nat, max: int)
    requires PoisonInv(s, g, i, max) && t.flights == s.flights && t.log == s.log + [e]
    requires e.Published? || e.Buried? || e.Dropped? || e.Scheduled? || e.Promoted?
    requires |t.groups| == |s.groups|
    requires g < |s.groups| ==> t.groups[g].cursor == s.groups[g].cursor && t.groups[g].pending == s.groups[g].pending
    ensures PoisonInv(t, g, i, max)
  {
    EventCounts(s.log, e, g, i);
  }

  lemma SameKeepsPoison(s: State, t: State, g: nat, i: nat, max: int)
    requires PoisonInv(s, g, i, max) && t.flights == s.flights && t.log == s.log && t.groups == s.groups
    ensures PoisonInv(t, g, i, max)
  {
  }

  lemma AckAndLogKeepsPoison(s: State, t: State, f: nat, e: Event, g: nat, i: nat, max: int)
    requires PoisonInv(s, g, i, max) && f < |s.flights| && s.flights[f].g < |s.groups|
    requires e.Published? || e.Buried? || e.Dropped? || e.Scheduled? || e.Promoted?
    requires t.flights == Acked(s, f).flights && t.log == s.log + [e] && |t.groups| == |s.groups|
    requires forall h :: 0 <= h < |t.groups| ==>
      t.groups[h].cursor == Acked(s, f).groups[h].cursor && t.groups[h].pending == Acked(s, f).groups[h].pending
    ensures PoisonInv(t, g, i, max)
  {
    AckKeepsPoison(s, f, g, i, max);
    QuietKeepsPoison(Acked(s, f), t, e, g, i, max);
  }

  lemma StepKeepsPoison(c: Config, s: State, step: Step, g: nat, i: nat, max: int)
    requires Inv(s) && PoisonInv(s, g, i, max) && HasLimit(s, i, max) && max >= 1 && c.dlq && Enabled(c, s, step)
    ensures PoisonInv(Do(c, s, step), g, i, max)
  {
    hide Count, CountsMatch, DeliveriesKnown, Bounded;
    match step
    case Publish(u) => QuietKeepsPoison(s, Do(c, s, step), Published(u), g, i, max);
    case Foreign => SameKeepsPoison(s, Do(c, s, step), g, i, max);
    case Read(h) => ReadKeepsPoison(c, s, h, g, i, max);
    case Claim(h, j) => ClaimKeepsPoison(c, s, h, j, g, i, max);
    case CountRead(f, ok) => CountReadKeepsPoison(c, s, f, ok, g, i, max);
    case AckGarbage(f) => AckKeepsPoison(s, f, g, i, max);
    case Call(f, ok) => CallKeepsPoison(c, s, f, ok, g, i, max);
    case Bury(f) =>
      AckAndLogKeepsPoison(s, Do(c, s, step), f, Buried(s.flights[f].g, s.flights[f].entry.copy.v), g, i, max);
    case Drop(f) =>
    case Retry(f, now) =>
      var fl := s.flights[f];
      AckAndLogKeepsPoison(s, Do(c, s, step), f, Scheduled(fl.g, NextCopy(c, fl), now), g, i, max);
    case AckDone(f) => AckKeepsPoison(s, f, g, i, max);
    case Crash(f) => RemoveKeepsPoison(s, f, g, i, max);
    case Promote(h, copy, now) => QuietKeepsPoison(s, Do(c, s, step), Promoted(h, copy, now), g, i, max);
  }

  lemma {:induction false} RunKeepsPoison(c: Config, s: State, steps: seq<Step>, t: State, g: nat, i: nat, max: int)
    requires Inv(s) && PoisonInv(s, g, i, max) && max >= 1 && c.dlq && Reaches(c, s, steps, t)
    requires HasLimit(t, i, max)
    ensures Inv(t) && PoisonInv(t, g, i, max) && s.stream <= t.stream
    decreases |steps|
  {
    if steps != [] {
      var m := Do(c, s, steps[0]);
      StepKeepsInv(c, s, steps[0]);
      StepExtends(c, s, steps[0]);
      RunExtendsStream(c, m, steps[1..], t);
      StepKeepsPoison(c, s, steps[0], g, i, max);
      RunKeepsPoison(c, m, steps[1..], t, g, i, max);
    }
  }

  lemma {:induction false} RunExtendsStream(c: Config, s: State, steps: seq<Step>, t: State)
    requires Reaches(c, s, steps, t)
    ensures s.stream <= t.stream
    decreases |steps|
  {
    if steps != [] {
      StepExtends(c, s, steps[0]);
      RunExtendsStream(c, Do(c, s, steps[0]), steps[1..], t);
    }
  }

  /**
   With dead-lettering on, one stream entry reaches one group's handler at most MaxDeliver times,
   plus once for every claim whose delivery count could not be read, however often consumers crash.
   */
  lemma PoisonEntriesAreBounded(c: Config, n: nat, steps: seq<Step>, t: State, g: nat, i: nat)
    requires c.dlq && Reaches(c, Init(n), steps, t)
    requires i < |t.stream| && t.stream[i].Readable?
    ensures Count(CallsAt(g, i), t.log) <= MaxOf(t.stream[i].copy.v) + Count(BlindReadsAt(g, i), t.log)
  {
    InitOK(n);
    RunKeepsInv(c, Init(n), steps, t);
    assert EntryOK(t.stream[i]);
    var max := MaxOf(t.stream[i].copy.v);
    RunKeepsPoison(c, Init(n), steps, t, g, i, max);
    SumNonNegative(t.flights, Callable(g, i, max));
  }

  // ----- A claim past the limit

  /**
   While an entry stays pending its delivery count never falls, and an entry once read does not become
   pending again.
   */
  lemma StepKeepsCount(c: Config, s: State, step: Step, g: nat, i: nat)
    requires Enabled(c, s, step) && g < |s.groups| && i < s.groups[g].cursor
    ensures |Do(c, s, step).groups| == |s.groups|
    ensures
      var before, after := s.groups[g], Do(c, s, step).groups[g];
      && before.cursor <= after.cursor
      && (i in after.pending ==> i in before.pending && before.pending[i] <= after.pending[i])
  {
    hide TooLate, Exhausted, Valid, UnixMilli, RetryDelay, NextCopy, StoredAttempt;
    match step
    case AckGarbage(f) => AckKeepsCount(s, f, g, i);
    case Bury(f) => AckKeepsCount(s, f, g, i);
    case Drop(f) => AckKeepsCount(s, f, g, i);
    case Retry(f, _) => AckKeepsCount(s, f, g, i);
    case AckDone(f) => AckKeepsCount(s, f, g, i);
    case _ =>
  }

  lemma AckKeepsCount(s: State, f: nat, g: nat, i: nat)
    requires f < |s.flights| && s.flights[f].g < |s.groups| && g < |s.groups|
    ensures |Acked(s, f).groups| == |s.groups| && Acked(s, f).groups[g].cursor == s.groups[g].cursor
    ensures
      var before, after := s.groups[g].pending, Acked(s, f).groups[g].pending;
      i in after ==> i in before && before[i] == after[i]
  {
  }

  lemma {:induction false} RunKeepsCount(c: Config, s: State, steps: seq<Step>, t: State, g: nat, i: nat)
    requires Reaches(c, s, steps, t) && g < |s.groups| && i < s.groups[g].cursor
    ensures |t.groups| == |s.groups| && i < t.groups[g].cursor
    ensures i in t.groups[g].pending ==> i in s.groups[g].pending && s.groups[g].pending[i] <= t.groups[g].pending[i]
    decreases |steps|
  {
    if steps != [] {
      StepKeepsCount(c, s, steps[0], g, i);
      RunKeepsCount(c, Do(c, s, steps[0]), steps[1..], t, g, i);
    }
  }

  lemma LatePhase(c: Config, s: State, f: nat, g: nat, i: nat)
    requires Inv(s) && Enabled(c, s, CountRead(f, true)) && s.flights[f].g == g && s.flights[f].i == i
    requires i in s.groups[g].pending && s.groups[g].pending[i] > 0
    ensures Do(c, s, CountRead(f, true)).flights[f] == s.flights[f].(phase := Ready(s.groups[g].pending[i]))
    ensures s.flights[f].entry == s.stream[i]
  {
    assert FlightOK(s, s.flights[f]);
  }

  lemma RunKeepsEntry(c: Config, s: State, steps: seq<Step>, t: State, i: nat)
    requires Reaches(c, s, steps, t) && i < |s.stream|
    ensures i < |t.stream| && t.stream[i] == s.stream[i]
  {
    RunExtendsStream(c, s, steps, t);
  }

  lemma PendingWasRead(s: State, g: nat, i: nat)
    requires Inv(s) && g < |s.groups| && i in s.groups[g].pending
    ensures i < s.groups[g].cursor <= |s.stream|
    ensures s.stream[i].Readable? ==> MaxOf(s.stream[i].copy.v) >= 1
  {
    assert GroupOK(s, g);
    assert EntryOK(s.stream[i]);
  }

  lemma BuryIsForced(c: Config, s: State, f: nat)
    requires c.dlq && Holds(s, f, true) && s.flights[f].phase.Ready?
    requires s.flights[f].phase.attempt > MaxOf(s.flights[f].entry.copy.v) >= 1
    ensures Enabled(c, s, Bury(f)) && !Enabled(c, s, Call(f, true)) && !Enabled(c, s, Call(f, false))
    ensures
      var fl, t := s.flights[f], Do(c, s, Bury(f));
      && t.dlq == s.dlq + [Dead(fl.g, fl.i, Copy(fl.entry.copy.v, fl.phase.attempt))]
      && fl.i !in t.groups[fl.g].pending && t.log == s.log + [Buried(fl.g, fl.entry.copy.v)]
  {
  }

  /**
   With dead-lettering on, a claim of an entry that was already delivered MaxDeliver times leads to its
   dead-lettering and to no handler call: whatever others do between the claim and the reading of the
   count, and between that and the decision, if the entry is still pending when the count is read then
   this delivery cannot be handed to the handler and can be buried.
   */
  lemma LateClaimsAreBuried(
      c: Config, s: State, g: nat, i: nat, first: seq<Step>, t: State, f: nat, more: seq<Step>, u: State, h: nat)
    requires Inv(s) && c.dlq && Enabled(c, s, Claim(g, i)) && s.stream[i].Readable?
    requires s.groups[g].pending[i] >= MaxOf(s.stream[i].copy.v)
    requires Reaches(c, Do(c, s, Claim(g, i)), first, t) && Enabled(c, t, CountRead(f, true))
    requires t.flights[f].g == g && t.flights[f].i == i && i in t.groups[g].pending
    requires Reaches(c, Do(c, t, CountRead(f, true)), more, u)
    requires h < |u.flights| && u.flights[h] == Do(c, t, CountRead(f, true)).flights[f]
    ensures Enabled(c, u, Bury(h)) && !Enabled(c, u, Call(h, true)) && !Enabled(c, u, Call(h, false))
    ensures
      var v, a, d := s.stream[i].copy.v, t.groups[g].pending[i], Do(c, u, Bury(h));
      && a > MaxOf(v) && d.dlq == u.dlq + [Dead(g, i, Copy(v, a))]
      && i !in d.groups[g].pending && d.log == u.log + [Buried(g, v)]
  {
    hide EntryOK, GroupOK, FlightOK, TooLate, Inv;
    var m := Do(c, s, Claim(g, i));
    PendingWasRead(s, g, i);
    StepKeepsInv(c, s, Claim(g, i));
    RunKeepsInv(c, m, first, t);
    RunKeepsCount(c, m, first, t, g, i);
    RunKeepsEntry(c, m, first, t, i);
    LatePhase(c, t, f, g, i);
    var r := Do(c, t, CountRead(f, true));
    RunKeepsGroups(c, r, more, u);
    BuryIsForced(c, u, h);
  }

  lemma {:induction false} RunKeepsGroups(c: Config, s: State, steps: seq<Step>, t: State)
    requires Reaches(c, s, steps, t)
    ensures |t.groups| == |s.groups|
    decreases |steps|
  {
    if steps != [] {
      StepExtends(c, s, steps[0]);
      RunKeepsGroups(c, Do(c, s, steps[0]), steps[1..], t);
    }
  }

  // ----- The bound is attained

  /** One group that has read one entry, delivered k times, and nobody working on it. */
  ghost predicate Orphaned(s: State, v: Value, k: nat) {
    && s.stream == [Readable(Copy(v, 1))] && |s.groups| == 1 && s.flights == []
    && s.groups[0].cursor == 1 && s.groups[0].pending == map[0 := k]
  }

  /** A consumer calls the handler and dies. */
  lemma CallAndCrash(c: Config, s: State, v: Value, k: nat, a: int) returns (t: State)
    requires |s.flights| == 1 && Orphaned(s.(flights := []), v, k)
    requires s.flights[0].g == 0 && s.flights[0].i == 0 && s.flights[0].entry == Readable(Copy(v, 1))
    requires s.flights[0].phase == Ready(a) && 1 <= a <= MaxOf(v)
    ensures Reaches(c, s, [Call(0, false)] + [Crash(0)], t) && Orphaned(t, v, k)
    ensures t.log == s.log + [Called(0, 0, v, false)]
  {
    var m := Do(c, s, Call(0, false));
    t := Do(c, m, Crash(0));
    OneStep(c, m, Crash(0), [], t);
    OneStep(c, s, Call(0, false), [Crash(0)] + [], t);
  }

  /** Another consumer claims the entry, reads the count or not, calls the handler and dies. */
  lemma ClaimRound(c: Config, s: State, v: Value, k: nat, ok: bool) returns (t: State)
    requires Orphaned(s, v, k) && MaxOf(v) >= 1 && (ok ==> k + 1 <= MaxOf(v))
    ensures Reaches(c, s, [Claim(0, 0)] + ([CountRead(0, ok)] + ([Call(0, false)] + [Crash(0)])), t)
        && Orphaned(t, v, k + 1)
    ensures
      t.log == s.log + [ClaimedBy(0, 0, Readable(Copy(v, 1)))] + (if ok then [] else [BlindRead(0, 0)])
          + [Called(0, 0, v, false)]
  {
    var m := Do(c, s, Claim(0, 0));
    var n := Do(c, m, CountRead(0, ok));
    assert n.log == m.log + (if ok then [] else [BlindRead(0, 0)]);
    t := CallAndCrash(c, n, v, k + 1, if ok then k + 1 else 1);
    OneStep(c, m, CountRead(0, ok), [Call(0, false)] + [Crash(0)], t);
    OneStep(c, s, Claim(0, 0), [CountRead(0, ok)] + ([Call(0, false)] + [Crash(0)]), t);
  }

  lemma RoundCounts(s: State, t: State, v: Value, ok: bool)
    requires
      t.log == s.log + [ClaimedBy(0, 0, Readable(Copy(v, 1)))] + (if ok then [] else [BlindRead(0, 0)])
          + [Called(0, 0, v, false)]
    ensures Count(CallsAt(0, 0), t.log) == Count(CallsAt(0, 0), s.log) + 1
    ensures Count(BlindReadsAt(0, 0), t.log) == Count(BlindReadsAt(0, 0), s.log) + if ok then 0 else 1
  {
    var a := s.log + [ClaimedBy(0, 0, Readable(Copy(v, 1)))];
    var b := if ok then a else a + [BlindRead(0, 0)];
    EventCounts(s.log, ClaimedBy(0, 0, Readable(Copy(v, 1))), 0, 0);
    EventCounts(a, BlindRead(0, 0), 0, 0);
    EventCounts(b, Called(0, 0, v, false), 0, 0);
    assert t.log == b + [Called(0, 0, v, false)];
  }

  /** Claims while the count allows another call, then `blind` claims that cannot read it. */
  lemma {:induction false} ClaimRounds(c: Config, s: State, v: Value, k: nat, blind: nat)
      returns (steps: seq<Step>, t: State)
    requires Orphaned(s, v, k) && 1 <= MaxOf(v)
    ensures Reaches(c, s, steps, t)
    ensures
      var rest := if k < MaxOf(v) then MaxOf(v) - k else 0;
      Count(CallsAt(0, 0), t.log) == Count(CallsAt(0, 0), s.log) + rest + blind
    ensures Count(BlindReadsAt(0, 0), t.log) == Count(BlindReadsAt(0, 0), s.log) + blind
    ensures t.stream == s.stream
    decreases if k < MaxOf(v) then MaxOf(v) - k else 0, blind
  {
    if k < MaxOf(v) || blind > 0 {
      var ok := k < MaxOf(v);
      var m := ClaimRound(c, s, v, k, ok);
      RoundCounts(s, m, v, ok);
      var rest;
      rest, t := ClaimRounds(c, m, v, k + 1, if ok then blind else blind - 1);
      var round := [Claim(0, 0)] + ([CountRead(0, ok)] + ([Call(0, false)] + [Crash(0)]));
      ReachesConcat(c, s, round, m, rest, t);
      steps := round + rest;
    } else {
      steps, t := [], s;
    }
  }

  lemma NoCounts()
    ensures Count(CallsAt(0, 0), []) == Count(BlindReadsAt(0, 0), []) == 0
  {
  }

  /** The first delivery: published, read, handed over, and the consumer dies. */
  lemma FirstRound(c: Config, v: Value) returns (t: State)
    requires Valid(v.message) && MaxOf(v) >= 1
    ensures Reaches(c, Init(1), [Publish(v)] + ([Read(0)] + ([Call(0, false)] + [Crash(0)])), t) && Orphaned(t, v, 1)
    ensures Count(CallsAt(0, 0), t.log) == 1 && Count(BlindReadsAt(0, 0), t.log) == 0
  {
    hide Count;
    var m := Do(c, Init(1), Publish(v));
    var n := Do(c, m, Read(0));
    t := CallAndCrash(c, n, v, 1, 1);
    OneStep(c, m, Read(0), [Call(0, false)] + [Crash(0)], t);
    OneStep(c, Init(1), Publish(v), [Read(0)] + ([Call(0, false)] + [Crash(0)]), t);
    NoCounts();
    EventCounts([], Published(v), 0, 0);
    assert [] + [Published(v)] == [Published(v)] && [Published(v)] + [ReadBy(0, 0)] == [Published(v), ReadBy(0, 0)];
    EventCounts([Published(v)], ReadBy(0, 0), 0, 0);
    EventCounts([Published(v), ReadBy(0, 0)], Called(0, 0, v, false), 0, 0);
    assert t.log == [Published(v), ReadBy(0, 0)] + [Called(0, 0, v, false)];
  }

  /** The bound is attained for every limit and every number of blind reads: each is worth one more call. */
  lemma PoisonBoundIsAttained(c: Config, v: Value, blind: nat) returns (steps: seq<Step>, t: State)
    requires Valid(v.message) && MaxOf(v) >= 1
    ensures Reaches(c, Init(1), steps, t) && t.stream == [Readable(Copy(v, 1))]
    ensures Count(BlindReadsAt(0, 0), t.log) == blind
    ensures Count(CallsAt(0, 0), t.log) == MaxOf(v) + Count(BlindReadsAt(0, 0), t.log)
  {
    var m := FirstRound(c, v);
    var rest;
    rest, t := ClaimRounds(c, m, v, 1, blind);
    var first := [Publish(v)] + ([Read(0)] + ([Call(0, false)] + [Crash(0)]));
    ReachesConcat(c, Init(1), first, m, rest, t);
    steps := first + rest;
  }
}
