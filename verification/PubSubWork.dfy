/**
 How often handlers can be called. Promotion puts a retry back on the shared stream, where every
 group reads it again, and a claim may lower an attempt; the bounds below survive both.
 */
module PubSubWork {
  import opened Common
  import opened Messages
  import opened PubSubProtocol

  // ----- Counting events

  datatype Query =
    | CallsOf(v: Value)
    | PublishesOf(v: Value)
    | ClaimsOf(v: Value)
    | CallsAt(g: nat, i: nat)
    | DeliveriesAt(g: nat, i: nat)
    | BlindReadsAt(g: nat, i: nat)
    | SuccessesOf(g: nat, v: Value)
    | DropsOf(g: nat, v: Value)

  predicate Matches(q: Query, e: Event) {
    match q
    case CallsOf(v) => e.Called? && e.v == v
    case PublishesOf(v) => e == Published(v)
    case ClaimsOf(v) => e.ClaimedBy? && e.entry.Readable? && e.entry.copy.v == v
    case CallsAt(g, i) => e.Called? && e.g == g && e.i == i
    case DeliveriesAt(g, i) => (e.ReadBy? || e.ClaimedBy?) && e.g == g && e.i == i
    case BlindReadsAt(g, i) => e == BlindRead(g, i)
    case SuccessesOf(g, v) => e.Called? && e.g == g && e.v == v && e.ok
    case DropsOf(g, v) => e == Dropped(g, v)
  }

  function Count(q: Query, log: seq<Event>): nat {
    if log == [] then 0
    else Count(q, log[..|log| - 1]) + if Matches(q, log[|log| - 1]) then 1 else 0
  }

  lemma CountAppend(q: Query, log: seq<Event>, e: Event)
    ensures Count(q, log + [e]) == Count(q, log) + if Matches(q, e) then 1 else 0
  {
    assert (log + [e])[..|log|] == log;
  }

  // ----- The tree of calls below one copy

  /** 1 + G + ... + G^(n-1): calls in a tree of depth n where each failure is seen by G groups. */
  function Tree(G: nat, n: nat): nat {
    if n == 0 then 0 else 1 + G * Tree(G, n - 1)
  }

  function Power(G: nat, n: nat): nat {
    if n == 0 then 1 else G * Power(G, n - 1)
  }

  function PowerSum(G: nat, n: nat): nat {
    if n == 0 then 0 else PowerSum(G, n - 1) + Power(G, n - 1)
  }

  lemma {:induction false} TreeIsPowerSum(G: nat, n: nat)
    ensures Tree(G, n) == PowerSum(G, n)
  {
    if n > 0 {
      TreeIsPowerSum(G, n - 1);
      PowerSumShift(G, n - 1);
    }
  }

  lemma {:induction false} PowerSumShift(G: nat, n: nat)
    ensures 1 + G * PowerSum(G, n) == PowerSum(G, n + 1)
  {
    if n > 0 {
      PowerSumShift(G, n - 1);
      Distributes(G, PowerSum(G, n - 1), Power(G, n - 1));
    } else {
      assert PowerSum(G, 1) == PowerSum(G, 0) + Power(G, 0);
    }
  }

  lemma Distributes(x: int, y: int, z: int)
    ensures x * (y + z) == x * y + x * z
  {
  }

  /** The same tree with the product written as repeated addition, which the potential below sums. */
  function Calls(G: nat, n: nat): int {
    if n == 0 then 0 else 1 + Times(Calls(G, n - 1), G)
  }

  lemma {:induction false} CallsIsTree(G: nat, n: nat)
    ensures Calls(G, n) == Tree(G, n)
  {
    if n > 0 {
      CallsIsTree(G, n - 1);
      TimesIsProduct(Calls(G, n - 1), G);
    }
  }

  lemma {:induction false} CallsNonNegative(G: nat, n: nat)
    ensures Calls(G, n) >= 0 && (n >= 1 ==> Calls(G, n) >= 1)
  {
    if n > 0 {
      CallsNonNegative(G, n - 1);
      TimesNonNegative(Calls(G, n - 1), G);
    }
  }

  lemma {:induction false} CallsMonotone(G: nat, m: nat, n: nat)
    requires m <= n
    ensures 0 <= Calls(G, m) <= Calls(G, n)
    ensures m >= 1 ==> Calls(G, m) >= 1
  {
    CallsNonNegative(G, m);
    CallsNonNegative(G, n);
    if m > 0 {
      CallsMonotone(G, m - 1, n - 1);
      TimesMonotone(Calls(G, m - 1), Calls(G, n - 1), G);
    }
  }

  // ----- The potential of a value

  /** Attempts left at attempt a, counting a itself; an attempt past the limit may still be one call. */
  function Left(v: Value, a: int): nat {
    if a < MaxOf(v) then MaxOf(v) - a + 1 else 1
  }

  /** The depth of the tree below a first attempt; published values have MaxOf(v) >= 1. */
  function Depth(v: Value): nat {
    if MaxOf(v) < 1 then 1 else MaxOf(v)
  }

  /** Calls below a handler about to be called at attempt a. */
  function Weight(G: nat, v: Value, a: int): int {
    Calls(G, Left(v, a))
  }

  /** Calls below a queued retry at attempt a: once promoted, every group sees it. */
  function QueuedWeight(G: nat, v: Value, a: int): int {
    Times(Weight(G, v, a), G)
  }

  /** Calls below a failed call at attempt a. */
  function FailedWeight(G: nat, v: Value, a: int): int {
    if a + 1 <= MaxOf(v) then QueuedWeight(G, v, a + 1) else 0
  }

  lemma WeightUnfolds(G: nat, v: Value, a: int)
    requires a >= 1
    ensures Weight(G, v, a) == 1 + FailedWeight(G, v, a)
    ensures 0 <= FailedWeight(G, v, a)
    ensures Weight(G, v, a) <= Calls(G, Depth(v))
    ensures 0 <= QueuedWeight(G, v, a)
  {
    CallsMonotone(G, Left(v, a), Left(v, a));
    TimesNonNegative(Weight(G, v, a), G);
    if a < MaxOf(v) {
      assert Left(v, a) == Left(v, a + 1) + 1;
      CallsMonotone(G, Left(v, a + 1), Left(v, a + 1));
      TimesNonNegative(Weight(G, v, a + 1), G);
    } else {
      assert Calls(G, 1) == 1 + Times(Calls(G, 0), G);
      TimesIsProduct(0, G);
    }
    CallsMonotone(G, Left(v, a), Depth(v));
  }

  function EntryWeight(G: nat, v: Value): StreamEntry -> int {
    (e: StreamEntry) => if e.Readable? && e.copy.v == v then Weight(G, v, e.copy.attempt) else 0
  }

  function FlightWeight(G: nat, v: Value): Flight -> int {
    (fl: Flight) =>
      if fl.entry.Garbage? || fl.entry.copy.v != v then 0
      else match fl.phase
        case Unread => Calls(G, Depth(v))
        case Ready(a) => Weight(G, v, a)
        case Failed(a) => FailedWeight(G, v, a)
        case Succeeded => 0
  }

  /** The retry set's share, from attempt a up. */
  function RetryWeight(G: nat, v: Value, retry: map<Copy, int>, a: nat): int
    decreases MaxOf(v) - a
  {
    if a > MaxOf(v) then 0
    else (if Copy(v, a) in retry then QueuedWeight(G, v, a) else 0) + RetryWeight(G, v, retry, a + 1)
  }

  /** A group's share: what it has not read yet, and what it has queued. */
  function GroupWeight(G: nat, v: Value, stream: seq<StreamEntry>): Group -> int {
    (group: Group) =>
      (if group.cursor <= |stream| then Sum(stream[group.cursor..], EntryWeight(G, v)) else 0)
      + RetryWeight(G, v, group.retry, 2)
  }

  function Potential(s: State, v: Value): int {
    var G := |s.groups|;
    Sum(s.groups, GroupWeight(G, v, s.stream)) + Sum(s.flights, FlightWeight(G, v))
  }

  /** Trees granted so far: one per group for a publish, one for a claim. */
  function Grants(s: State, v: Value): nat {
    GrantCount(|s.groups|, v, s.log)
  }

  function GrantCount(G: nat, v: Value, log: seq<Event>): nat {
    if log == [] then 0
    else
      var e := log[|log| - 1];
      GrantCount(G, v, log[..|log| - 1])
      + (if Matches(PublishesOf(v), e) then G else if Matches(ClaimsOf(v), e) then 1 else 0)
  }

  lemma GrantAppend(G: nat, v: Value, log: seq<Event>, e: Event)
    ensures GrantCount(G, v, log + [e])
            == GrantCount(G, v, log)
                + (if Matches(PublishesOf(v), e) then G else if Matches(ClaimsOf(v), e) then 1 else 0)
  {
    assert (log + [e])[..|log|] == log;
  }

  lemma {:induction false} GrantsAreCounts(G: nat, v: Value, log: seq<Event>)
    ensures GrantCount(G, v, log) == G * Count(PublishesOf(v), log) + Count(ClaimsOf(v), log)
  {
    if log != [] {
      var before, e := log[..|log| - 1], log[|log| - 1];
      GrantsAreCounts(G, v, before);
      Distributes(G, Count(PublishesOf(v), before), 1);
    }
  }

  function Budget(s: State, v: Value): int {
    Times(Calls(|s.groups|, Depth(v)), Grants(s, v))
  }

  ghost predicate WithinBudget(s: State, v: Value) {
    Count(CallsOf(v), s.log) + Potential(s, v) <= Budget(s, v)
  }

  // ----- How steps move the potential

  lemma {:induction false} RetryWeightFrame(G: nat, v: Value, r: map<Copy, int>, q: map<Copy, int>, a: nat)
    requires forall b :: a <= b ==> (Copy(v, b) in r <==> Copy(v, b) in q)
    ensures RetryWeight(G, v, r, a) == RetryWeight(G, v, q, a)
    decreases MaxOf(v) - a
  {
    if a <= MaxOf(v) {
      RetryWeightFrame(G, v, r, q, a + 1);
    }
  }

  lemma {:induction false} RetryWeightAdd(G: nat, v: Value, r: map<Copy, int>, copy: Copy, score: int, a: nat)
    requires copy.v == v && a <= copy.attempt <= MaxOf(v) && 1 <= a
    ensures RetryWeight(G, v, r[copy := score], a)
            == RetryWeight(G, v, r, a) + if copy in r then 0 else QueuedWeight(G, v, copy.attempt)
    decreases MaxOf(v) - a
  {
    if a == copy.attempt {
      RetryWeightFrame(G, v, r, r[copy := score], a + 1);
      WeightUnfolds(G, v, a);
    } else {
      RetryWeightAdd(G, v, r, copy, score, a + 1);
    }
  }

  lemma {:induction false} RetryWeightRemove(G: nat, v: Value, r: map<Copy, int>, copy: Copy, a: nat)
    requires copy.v == v && a <= copy.attempt <= MaxOf(v) && copy in r
    ensures RetryWeight(G, v, r - {copy}, a) == RetryWeight(G, v, r, a) - QueuedWeight(G, v, copy.attempt)
    decreases MaxOf(v) - a
  {
    if a == copy.attempt {
      RetryWeightFrame(G, v, r, r - {copy}, a + 1);
    } else {
      RetryWeightRemove(G, v, r, copy, a + 1);
    }
  }

  /** Appending to the stream: every group will read the new entry. */
  lemma GroupsSeeAppend(G: nat, v: Value, stream: seq<StreamEntry>, e: StreamEntry, groups: seq<Group>)
    requires forall g :: 0 <= g < |groups| ==> groups[g].cursor <= |stream|
    ensures Sum(groups, GroupWeight(G, v, stream + [e]))
            == Sum(groups, GroupWeight(G, v, stream)) + Times(EntryWeight(G, v)(e), |groups|)
  {
    forall group | group in groups
      ensures GroupWeight(G, v, stream + [e])(group) == GroupWeight(G, v, stream)(group) + EntryWeight(G, v)(e)
    {
      assert (stream + [e])[group.cursor..] == stream[group.cursor..] + [e];
      SumAppend(stream[group.cursor..], e, EntryWeight(G, v));
    }
    SumShift(groups, GroupWeight(G, v, stream), GroupWeight(G, v, stream + [e]), EntryWeight(G, v)(e));
  }

  /** The pending list carries no weight. */
  lemma PendingIsWeightless(
      G: nat, v: Value, stream: seq<StreamEntry>, groups: seq<Group>, g: nat, pending: map<nat, nat>)
    requires g < |groups|
    ensures Sum(groups[g := groups[g].(pending := pending)], GroupWeight(G, v, stream))
        == Sum(groups, GroupWeight(G, v, stream))
  {
    SumUpdate(groups, g, groups[g].(pending := pending), GroupWeight(G, v, stream));
  }

  lemma AckedPotential(s: State, f: nat, v: Value)
    requires f < |s.flights| && s.flights[f].g < |s.groups|
    ensures Potential(Acked(s, f), v) == Potential(s, v) - FlightWeight(|s.groups|, v)(s.flights[f])
  {
    var fl := s.flights[f];
    PendingIsWeightless(|s.groups|, v, s.stream, s.groups, fl.g, s.groups[fl.g].pending - {fl.i});
    SumRemove(s.flights, f, FlightWeight(|s.groups|, v));
  }

  lemma PhasePotential(s: State, f: nat, phase: Phase, v: Value)
    requires f < |s.flights|
    ensures Potential(WithPhase(s, f, phase), v)
            == Potential(s, v) - FlightWeight(|s.groups|, v)(s.flights[f])
               + FlightWeight(|s.groups|, v)(s.flights[f].(phase := phase))
  {
    SumUpdate(s.flights, f, s.flights[f].(phase := phase), FlightWeight(|s.groups|, v));
  }

  lemma FlightWeightNonNegative(G: nat, v: Value, fl: Flight)
    requires fl.phase.Ready? || fl.phase.Failed? ==> fl.phase.attempt >= 1
    ensures FlightWeight(G, v)(fl) >= 0
  {
    match fl.phase
    case Unread => CallsMonotone(G, 1, Depth(v));
    case Ready(a) => WeightUnfolds(G, v, a);
    case Failed(a) => WeightUnfolds(G, v, a);
    case Succeeded =>
  }

  // ----- Each step stays within budget

  /** What a step does to the three quantities of the bound. */
  lemma Account(s: State, t: State, v: Value, calls: nat, grants: nat)
    requires WithinBudget(s, v) && |t.groups| == |s.groups|
    requires Count(CallsOf(v), t.log) == Count(CallsOf(v), s.log) + calls
    requires Grants(t, v) == Grants(s, v) + grants
    requires Potential(t, v) + calls <= Potential(s, v) + Times(Calls(|s.groups|, Depth(v)), grants)
    ensures WithinBudget(t, v)
  {
    TimesAdd(Calls(|s.groups|, Depth(v)), Grants(s, v), grants);
  }

  /** The same for a step that grants nothing. */
  lemma AccountNoGrant(s: State, t: State, v: Value, calls: nat)
    requires WithinBudget(s, v) && |t.groups| == |s.groups|
    requires Count(CallsOf(v), t.log) == Count(CallsOf(v), s.log) + calls
    requires Grants(t, v) == Grants(s, v)
    requires Potential(t, v) + calls <= Potential(s, v)
    ensures WithinBudget(t, v)
  {
    hide Potential, Count, GrantCount;
  }

  /** The potential does not read the log or the dead-letter stream. */
  lemma PotentialFrame(s: State, t: State, v: Value)
    requires t.stream == s.stream && t.groups == s.groups && t.flights == s.flights
    ensures Potential(t, v) == Potential(s, v)
  {
  }

  /** The counters after one event. */
  lemma EventCounts(G: nat, log: seq<Event>, e: Event, v: Value)
    ensures Count(CallsOf(v), log + [e]) == Count(CallsOf(v), log) + (if Matches(CallsOf(v), e) then 1 else 0)
    ensures GrantCount(G, v, log + [e])
            == GrantCount(G, v, log)
                + (if Matches(PublishesOf(v), e) then G else if Matches(ClaimsOf(v), e) then 1 else 0)
  {
    CountAppend(CallsOf(v), log, e);
    GrantAppend(G, v, log, e);
  }

  lemma CursorsInRange(s: State)
    requires Inv(s)
    ensures forall g :: 0 <= g < |s.groups| ==> s.groups[g].cursor <= |s.stream|
  {
    forall g | 0 <= g < |s.groups| ensures s.groups[g].cursor <= |s.stream| {
      assert GroupOK(s, g);
    }
  }

  lemma PublishPotential(s: State, e: StreamEntry, v: Value)
    requires Inv(s)
    ensures Potential(s.(stream := s.stream + [e]), v)
        == Potential(s, v) + Times(EntryWeight(|s.groups|, v)(e), |s.groups|)
  {
    CursorsInRange(s);
    GroupsSeeAppend(|s.groups|, v, s.stream, e, s.groups);
  }

  lemma PublishKeepsBudget(c: Config, s: State, u: Value, v: Value)
    requires Inv(s) && WithinBudget(s, v) && Enabled(c, s, Publish(u))
    ensures WithinBudget(Do(c, s, Publish(u)), v)
  {
    hide Sum, Times, Calls, Count, GrantCount, GroupWeight, FlightWeight, WithinBudget, Potential;
    var G, e, t := |s.groups|, Readable(Copy(u, 1)), Do(c, s, Publish(u));
    PublishPotential(s, e, v);
    PotentialFrame(s.(stream := s.stream + [e]), t, v);
    EventCounts(G, s.log, Published(u), v);
    if u == v {
      assert Left(v, 1) == Depth(v);
      Account(s, t, v, 0, G);
    } else {
      TimesIsProduct(0, G);
      AccountNoGrant(s, t, v, 0);
    }
  }

  lemma ForeignKeepsBudget(c: Config, s: State, v: Value)
    requires Inv(s) && WithinBudget(s, v)
    ensures WithinBudget(Do(c, s, Foreign), v)
  {
    CursorsInRange(s);
    GroupsSeeAppend(|s.groups|, v, s.stream, Garbage, s.groups);
    TimesIsProduct(0, |s.groups|);
  }

  /** Reading moves an entry's weight from the group's unread part into the flight. */
  lemma ReadPotential(s: State, g: nat, v: Value)
    requires g < |s.groups| && s.groups[g].cursor < |s.stream|
    ensures
      var group, i := s.groups[g], s.groups[g].cursor;
      var e := s.stream[i];
      Potential(s.(groups := s.groups[g := group.(cursor := i + 1, pending := group.pending[i := 1])],
                   flights := s.flights + [Flight(g, i, 1, e, Ready(StoredAttempt(e)))]), v)
      == Potential(s, v)
  {
    var G, group, i := |s.groups|, s.groups[g], s.groups[g].cursor;
    var e := s.stream[i];
    SumUpdate(s.groups, g, group.(cursor := i + 1, pending := group.pending[i := 1]), GroupWeight(G, v, s.stream));
    assert s.stream[i..][1..] == s.stream[i + 1..];
    assert Sum(s.stream[i..], EntryWeight(G, v)) == EntryWeight(G, v)(e) + Sum(s.stream[i + 1..], EntryWeight(G, v));
    SumAppend(s.flights, Flight(g, i, 1, e, Ready(StoredAttempt(e))), FlightWeight(G, v));
  }

  lemma ReadKeepsBudget(c: Config, s: State, g: nat, v: Value)
    requires WithinBudget(s, v) && Enabled(c, s, Read(g))
    ensures WithinBudget(Do(c, s, Read(g)), v)
  {
    hide Sum, Times, Calls, Count, GrantCount, GroupWeight, FlightWeight, WithinBudget, Potential;
    var t := Do(c, s, Read(g));
    ReadPotential(s, g, v);
    PotentialFrame(t.(log := s.log), t, v);
    EventCounts(|s.groups|, s.log, ReadBy(g, s.groups[g].cursor), v);
    AccountNoGrant(s, t, v, 0);
  }

  /** A claim puts a whole tree in flight, whatever attempt it will read. */
  lemma ClaimPotential(s: State, g: nat, i: nat, n: nat, v: Value)
    requires g < |s.groups| && i < |s.stream|
    ensures
      var group := s.groups[g];
      Potential(s.(groups := s.groups[g := group.(pending := group.pending[i := n])],
                   flights := s.flights + [Flight(g, i, n, s.stream[i], Unread)]), v)
      == Potential(s, v) + (if s.stream[i].Readable? && s.stream[i].copy.v == v then Calls(|s.groups|, Depth(v)) else 0)
  {
    PendingIsWeightless(|s.groups|, v, s.stream, s.groups, g, s.groups[g].pending[i := n]);
    SumAppend(s.flights, Flight(g, i, n, s.stream[i], Unread), FlightWeight(|s.groups|, v));
  }

  lemma ClaimKeepsBudget(c: Config, s: State, g: nat, i: nat, v: Value)
    requires WithinBudget(s, v) && Enabled(c, s, Claim(g, i))
    ensures WithinBudget(Do(c, s, Claim(g, i)), v)
  {
    hide Sum, Times, Calls, Count, GrantCount, GroupWeight, FlightWeight, WithinBudget, Potential;
    var e, t := s.stream[i], Do(c, s, Claim(g, i));
    ClaimPotential(s, g, i, s.groups[g].pending[i] + 1, v);
    PotentialFrame(t.(log := s.log), t, v);
    EventCounts(|s.groups|, s.log, ClaimedBy(g, i, e), v);
    if e.Readable? && e.copy.v == v {
      TimesOne(Calls(|s.groups|, Depth(v)));
      Account(s, t, v, 0, 1);
    } else {
      AccountNoGrant(s, t, v, 0);
    }
  }

  lemma TimesOne(m: int)
    ensures Times(m, 1) == m
  {
    assert Times(m, 0) == 0;
  }

  lemma CountReadPotential(s: State, f: nat, a: int, v: Value)
    requires f < |s.flights| && s.flights[f].phase.Unread? && a >= 1
    ensures Potential(WithPhase(s, f, Ready(a)), v) <= Potential(s, v)
  {
    PhasePotential(s, f, Ready(a), v);
    WeightUnfolds(|s.groups|, v, a);
  }

  lemma StoredAttemptPositive(s: State, f: nat)
    requires Inv(s) && f < |s.flights|
    ensures StoredAttempt(s.flights[f].entry) >= 1
  {
    assert FlightOK(s, s.flights[f]) && EntryOK(s.stream[s.flights[f].i]);
  }

  lemma CountReadKeepsBudget(c: Config, s: State, f: nat, ok: bool, v: Value)
    requires Inv(s) && WithinBudget(s, v) && Enabled(c, s, CountRead(f, ok))
    ensures WithinBudget(Do(c, s, CountRead(f, ok)), v)
  {
    hide Sum, Times, Calls, Count, GrantCount, GroupWeight, FlightWeight, WithinBudget, Potential, Inv;
    var fl, t := s.flights[f], Do(c, s, CountRead(f, ok));
    var pending := s.groups[fl.g].pending;
    StoredAttemptPositive(s, f);
    CountReadPotential(s, f, if ok && fl.i in pending && pending[fl.i] > 0 then pending[fl.i]
        else StoredAttempt(fl.entry), v);
    PotentialFrame(t.(log := s.log), t, v);
    EventCounts(|s.groups|, s.log, BlindRead(fl.g, fl.i), v);
    AccountNoGrant(s, t, v, 0);
  }

  /** A call of v's handler spends one unit; calls for other values do not touch v. */
  lemma CallPotential(s: State, f: nat, ok: bool, v: Value)
    requires f < |s.flights| && s.flights[f].phase.Ready? && s.flights[f].entry.Readable?
    requires s.flights[f].phase.attempt >= 1
    ensures
      var fl := s.flights[f];
      Potential(WithPhase(s, f, if ok then Succeeded else Failed(fl.phase.attempt)), v)
      + (if fl.entry.copy.v == v then 1 else 0) <= Potential(s, v)
  {
    var a := s.flights[f].phase.attempt;
    PhasePotential(s, f, if ok then Succeeded else Failed(a), v);
    WeightUnfolds(|s.groups|, v, a);
  }

  lemma AttemptPositive(s: State, f: nat)
    requires Inv(s) && f < |s.flights|
    ensures s.flights[f].phase.Ready? || s.flights[f].phase.Failed? ==> s.flights[f].phase.attempt >= 1
  {
    assert FlightOK(s, s.flights[f]);
  }

  lemma CallKeepsBudget(c: Config, s: State, f: nat, ok: bool, v: Value)
    requires Inv(s) && WithinBudget(s, v) && Enabled(c, s, Call(f, ok))
    ensures WithinBudget(Do(c, s, Call(f, ok)), v)
  {
    hide Sum, Times, Calls, Count, GrantCount, GroupWeight, FlightWeight, WithinBudget, Potential, Inv, Limit;
    var fl, t := s.flights[f], Do(c, s, Call(f, ok));
    AttemptPositive(s, f);
    CallPotential(s, f, ok, v);
    PotentialFrame(t.(log := s.log), t, v);
    EventCounts(|s.groups|, s.log, Called(fl.g, fl.i, fl.entry.copy.v, ok), v);
    AccountNoGrant(s, t, v, if fl.entry.copy.v == v then 1 else 0);
  }

  lemma AckKeepsBudget(s: State, f: nat, v: Value)
    requires Inv(s) && WithinBudget(s, v) && f < |s.flights| && s.flights[f].g < |s.groups|
    ensures WithinBudget(Acked(s, f), v)
  {
    assert FlightOK(s, s.flights[f]);
    AckedPotential(s, f, v);
    FlightWeightNonNegative(|s.groups|, v, s.flights[f]);
  }

  /** Logging an event the bound does not count. */
  lemma QuietEventKeepsBudget(s: State, t: State, e: Event, v: Value)
    requires WithinBudget(s, v) && (e.Buried? || e.Dropped?)
    requires t.stream == s.stream && t.groups == s.groups && t.flights == s.flights && t.log == s.log + [e]
    ensures WithinBudget(t, v)
  {
    hide Potential, Count, GrantCount, WithinBudget;
    EventCounts(|s.groups|, s.log, e, v);
    PotentialFrame(s, t, v);
    AccountNoGrant(s, t, v, 0);
  }

  lemma CrashKeepsBudget(c: Config, s: State, f: nat, v: Value)
    requires Inv(s) && WithinBudget(s, v) && Enabled(c, s, Crash(f))
    ensures WithinBudget(Do(c, s, Crash(f)), v)
  {
    assert FlightOK(s, s.flights[f]);
    SumRemove(s.flights, f, FlightWeight(|s.groups|, v));
    FlightWeightNonNegative(|s.groups|, v, s.flights[f]);
  }

  /** Queueing a copy adds its weight to the group's share, unless an equal one is queued already. */
  lemma QueuePotential(s: State, g: nat, copy: Copy, score: int, v: Value)
    requires g < |s.groups| && CopyOK(copy, 2)
    ensures
      var group := s.groups[g];
      Potential(s.(groups := s.groups[g := group.(retry := group.retry[copy := score])]), v)
      == Potential(s, v)
         + (if copy.v == v && copy !in group.retry then QueuedWeight(|s.groups|, v, copy.attempt) else 0)
  {
    var G, group := |s.groups|, s.groups[g];
    SumUpdate(s.groups, g, group.(retry := group.retry[copy := score]), GroupWeight(G, v, s.stream));
    if copy.v == v {
      RetryWeightAdd(G, v, group.retry, copy, score, 2);
    } else {
      RetryWeightFrame(G, v, group.retry, group.retry[copy := score], 2);
    }
  }

  lemma QueuedNonNegative(G: nat, v: Value, a: int)
    requires a >= 1
    ensures QueuedWeight(G, v, a) >= 0
  {
    WeightUnfolds(G, v, a);
  }

  /** A failed flight weighs what its next attempt weighs once queued. */
  lemma FailedWeighsQueued(G: nat, v: Value, fl: Flight)
    requires fl.entry.Readable? && fl.phase.Failed? && fl.phase.attempt + 1 <= MaxOf(fl.entry.copy.v)
    ensures FlightWeight(G, v)(fl) == if fl.entry.copy.v == v then QueuedWeight(G, v, fl.phase.attempt + 1) else 0
  {
    hide QueuedWeight;
  }

  /** A retry pays the failed call's weight into the retry set. */
  lemma RetryPotential(s: State, f: nat, score: int, v: Value)
    requires Inv(s) && f < |s.flights| && s.flights[f].entry.Readable? && s.flights[f].phase.Failed?
    requires s.flights[f].phase.attempt + 1 <= MaxOf(s.flights[f].entry.copy.v) && s.flights[f].g < |s.groups|
    ensures
      var fl, a := s.flights[f], Acked(s, f);
      var copy := Copy(fl.entry.copy.v, fl.phase.attempt + 1);
      var t := a.(groups := a.groups[fl.g := a.groups[fl.g].(retry := a.groups[fl.g].retry[copy := score])]);
      && Potential(t, v) <= Potential(s, v)
      && (copy !in s.groups[fl.g].retry ==> Potential(t, v) == Potential(s, v))
  {
    hide Potential, FlightWeight, QueuedWeight;
    var fl := s.flights[f];
    assert FlightOK(s, fl);
    AckedPotential(s, f, v);
    FailedWeighsQueued(|s.groups|, v, fl);
    if fl.entry.copy.v == v {
      QueuedNonNegative(|s.groups|, v, fl.phase.attempt + 1);
    }
    QueuePotential(Acked(s, f), fl.g, Copy(fl.entry.copy.v, fl.phase.attempt + 1), score, v);
  }

  lemma RetryKeepsBudget(c: Config, s: State, f: nat, now: int, v: Value)
    requires Inv(s) && WithinBudget(s, v) && Enabled(c, s, Retry(f, now))
    ensures WithinBudget(Do(c, s, Retry(f, now)), v)
  {
    hide Count, GrantCount, WithinBudget, Potential, UnixMilli, DueAt;
    var fl := s.flights[f];
    assert FlightOK(s, fl) && EntryOK(s.stream[fl.i]);
    LimitIsStored(c, fl.g, fl.entry.copy.v);
    var copy, t := NextCopy(c, fl), Do(c, s, Retry(f, now));
    RetryPotential(s, f, UnixMilli(DueAt(c, fl.g, copy.attempt, now)), v);
    PotentialFrame(t.(log := s.log), t, v);
    EventCounts(|s.groups|, s.log, Scheduled(fl.g, copy, now), v);
    AccountNoGrant(s, t, v, 0);
  }

  lemma UnqueuePotential(s: State, g: nat, copy: Copy, v: Value)
    requires g < |s.groups| && CopyOK(copy, 2) && copy in s.groups[g].retry
    ensures
      var group := s.groups[g];
      Potential(s.(groups := s.groups[g := group.(retry := group.retry - {copy})]), v)
      == Potential(s, v) - (if copy.v == v then QueuedWeight(|s.groups|, v, copy.attempt) else 0)
  {
    var G, group := |s.groups|, s.groups[g];
    SumUpdate(s.groups, g, group.(retry := group.retry - {copy}), GroupWeight(G, v, s.stream));
    if copy.v == v {
      RetryWeightRemove(G, v, group.retry, copy, 2);
    } else {
      RetryWeightFrame(G, v, group.retry, group.retry - {copy}, 2);
    }
  }

  /** Promotion pays the queued weight out to every group's unread part. */
  lemma PromotePotential(s: State, g: nat, copy: Copy, v: Value)
    requires Inv(s) && g < |s.groups| && copy in s.groups[g].retry
    ensures
      var group := s.groups[g];
      Potential(s.(stream := s.stream + [Readable(copy)],
          groups := s.groups[g := group.(retry := group.retry - {copy})]), v)
      == Potential(s, v)
  {
    var group := s.groups[g];
    assert GroupOK(s, g) && CopyOK(copy, 2);
    UnqueuePotential(s, g, copy, v);
    var m := s.(groups := s.groups[g := group.(retry := group.retry - {copy})]);
    GroupUpdateKeepsInv(s, g, group.(retry := group.retry - {copy}));
    PublishPotential(m, Readable(copy), v);
    TimesIsProduct(0, |s.groups|);
    hide Sum, Times, Calls, GroupWeight, FlightWeight, Potential, Weight;
    assert m.(stream := m.stream + [Readable(copy)])
           == s.(stream := s.stream + [Readable(copy)], groups := s.groups[g := group.(retry := group.retry - {copy})]);
  }

  lemma PromoteKeepsBudget(c: Config, s: State, g: nat, copy: Copy, now: int, v: Value)
    requires Inv(s) && WithinBudget(s, v) && Enabled(c, s, Promote(g, copy, now))
    ensures WithinBudget(Do(c, s, Promote(g, copy, now)), v)
  {
    hide Sum, Times, Calls, Count, GrantCount, GroupWeight, FlightWeight, WithinBudget, Potential;
    var t := Do(c, s, Promote(g, copy, now));
    PromotePotential(s, g, copy, v);
    PotentialFrame(t.(log := s.log), t, v);
    EventCounts(|s.groups|, s.log, Promoted(g, copy, now), v);
    AccountNoGrant(s, t, v, 0);
  }

  lemma StepKeepsBudget(c: Config, s: State, step: Step, v: Value)
    requires Inv(s) && WithinBudget(s, v) && Enabled(c, s, step)
    ensures WithinBudget(Do(c, s, step), v)
  {
    hide WithinBudget;
    match step
    case Publish(u) => PublishKeepsBudget(c, s, u, v);
    case Foreign => ForeignKeepsBudget(c, s, v);
    case Read(g) => ReadKeepsBudget(c, s, g, v);
    case Claim(g, i) => ClaimKeepsBudget(c, s, g, i, v);
    case CountRead(f, ok) => CountReadKeepsBudget(c, s, f, ok, v);
    case AckGarbage(f) => AckKeepsBudget(s, f, v);
    case Call(f, ok) => CallKeepsBudget(c, s, f, ok, v);
    case Bury(f) =>
      AckKeepsBudget(s, f, v);
      QuietEventKeepsBudget(Acked(s, f), Do(c, s, step), Buried(s.flights[f].g, s.flights[f].entry.copy.v), v);
    case Drop(f) =>
      AckKeepsBudget(s, f, v);
      QuietEventKeepsBudget(Acked(s, f), Do(c, s, step), Dropped(s.flights[f].g, s.flights[f].entry.copy.v), v);
    case Retry(f, now) => RetryKeepsBudget(c, s, f, now, v);
    case AckDone(f) => AckKeepsBudget(s, f, v);
    case Crash(f) => CrashKeepsBudget(c, s, f, v);
    case Promote(g, copy, now) => PromoteKeepsBudget(c, s, g, copy, now, v);
  }

  lemma {:induction false} RunKeepsBudget(c: Config, s: State, steps: seq<Step>, t: State, v: Value)
    requires Inv(s) && WithinBudget(s, v) && Reaches(c, s, steps, t)
    ensures Inv(t) && WithinBudget(t, v) && |t.groups| == |s.groups|
    decreases |steps|
  {
    if steps != [] {
      StepKeepsInv(c, s, steps[0]);
      StepKeepsBudget(c, s, steps[0], v);
      StepExtends(c, s, steps[0]);
      RunKeepsBudget(c, Do(c, s, steps[0]), steps[1..], t, v);
    }
  }

  lemma PotentialNonNegative(s: State, v: Value)
    requires Inv(s)
    ensures Potential(s, v) >= 0
  {
    var G := |s.groups|;
    forall group | group in s.groups ensures GroupWeight(G, v, s.stream)(group) >= 0 {
      RetryWeightNonNegative(G, v, group.retry, 2);
      if group.cursor <= |s.stream| {
        UnreadNonNegative(s, G, v, group.cursor);
      }
    }
    SumNonNegative(s.groups, GroupWeight(G, v, s.stream));
    forall fl | fl in s.flights ensures FlightWeight(G, v)(fl) >= 0 {
      var f :| 0 <= f < |s.flights| && s.flights[f] == fl;
      assert FlightOK(s, s.flights[f]);
      FlightWeightNonNegative(G, v, fl);
    }
    SumNonNegative(s.flights, FlightWeight(G, v));
  }

  lemma UnreadNonNegative(s: State, G: nat, v: Value, from: nat)
    requires Inv(s) && from <= |s.stream|
    ensures Sum(s.stream[from..], EntryWeight(G, v)) >= 0
  {
    forall e | e in s.stream[from..] ensures EntryWeight(G, v)(e) >= 0 {
      var i :| from <= i < |s.stream| && s.stream[i] == e;
      assert EntryOK(s.stream[i]);
      if e.Readable? {
        WeightUnfolds(G, v, e.copy.attempt);
      }
    }
    SumNonNegative(s.stream[from..], EntryWeight(G, v));
  }

  lemma {:induction false} RetryWeightNonNegative(G: nat, v: Value, retry: map<Copy, int>, a: nat)
    requires a >= 1
    ensures RetryWeight(G, v, retry, a) >= 0
    decreases MaxOf(v) - a
  {
    if a <= MaxOf(v) {
      WeightUnfolds(G, v, a);
      RetryWeightNonNegative(G, v, retry, a + 1);
    }
  }

  lemma {:induction false} FreshGroupsWeigh(G: nat, v: Value, n: nat)
    ensures Sum(Init(n).groups, GroupWeight(G, v, [])) == 0
    decreases n
  {
    if n > 0 {
      assert Init(n).groups[1..] == Init(n - 1).groups;
      FreshGroupsWeigh(G, v, n - 1);
      EmptyRetryWeight(G, v, 2);
    }
  }

  lemma {:induction false} EmptyRetryWeight(G: nat, v: Value, a: nat)
    ensures RetryWeight(G, v, map[], a) == 0
    decreases MaxOf(v) - a
  {
    if a <= MaxOf(v) {
      EmptyRetryWeight(G, v, a + 1);
    }
  }

  /**
   The work bound: over every run with n groups, the handler calls for a value are at most
   (n * publishes + claims) * (1 + n + ... + n^(M-1)), where M is its stored MaxDeliver.
   */
  lemma HandlerCallsAreBounded(c: Config, n: nat, steps: seq<Step>, t: State, v: Value)
    requires Reaches(c, Init(n), steps, t)
    ensures Count(CallsOf(v), t.log)
            <= (n * Count(PublishesOf(v), t.log) + Count(ClaimsOf(v), t.log)) * PowerSum(n, Depth(v))
  {
    InitOK(n);
    InitWithinBudget(n, v);
    RunKeepsBudget(c, Init(n), steps, t, v);
    PotentialNonNegative(t, v);
    GrantsAreCounts(n, v, t.log);
    TreeOfGrants(n, Depth(v), Grants(t, v));
  }

  lemma InitWithinBudget(n: nat, v: Value)
    ensures WithinBudget(Init(n), v)
  {
    FreshGroupsWeigh(n, v, n);
    assert Times(Calls(n, Depth(v)), 0) == 0;
  }

  lemma TreeOfGrants(n: nat, depth: nat, grants: nat)
    ensures Times(Calls(n, depth), grants) == grants * PowerSum(n, depth)
  {
    CallsIsTree(n, depth);
    TreeIsPowerSum(n, depth);
    TimesIsProduct(Calls(n, depth), grants);
  }

  lemma {:induction false} PowerSumOfOne(k: nat)
    ensures PowerSum(1, k) == k && Power(1, k) == 1
  {
    if k > 0 {
      PowerSumOfOne(k - 1);
    }
  }

  /** With one group and no claims, a message published once is handed over at most MaxDeliver times. */
  lemma OneGroupWithoutClaims(c: Config, steps: seq<Step>, t: State, v: Value)
    requires Reaches(c, Init(1), steps, t) && MaxOf(v) >= 1
    requires Count(PublishesOf(v), t.log) == 1 && Count(ClaimsOf(v), t.log) == 0
    ensures Count(CallsOf(v), t.log) <= MaxOf(v)
  {
    HandlerCallsAreBounded(c, 1, steps, t, v);
    PowerSumOfOne(MaxOf(v));
  }
}
