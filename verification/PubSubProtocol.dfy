/**
 One topic of the Pub/Sub service (pubsub/service.go, pubsub/store.go) as a state machine over the
 Redis structures it uses: one append-only stream, and for each consumer group a cursor, a pending
 list with delivery counts and a retry set; plus the dead-letter stream and the handlers in flight.
 A command or Lua script is one step; batches are runs of single steps. A crash, or any command that
 fails, forgets a flight. MAXLEN trimming is assumed not to happen.
 */
module PubSubProtocol {
  import opened Common
  import opened Messages
  import opened Timestamp

  /** What identifies a published message: everything its retry envelopes carry but the attempt. */
  datatype Value = Value(message: Message, publishedAt: Stamp)

  datatype Copy = Copy(v: Value, attempt: int)

  /** A stream entry this package wrote, or one that never decodes. */
  datatype StreamEntry = Readable(copy: Copy) | Garbage

  /** The retry set maps a copy to its score: equal envelopes are one member. */
  datatype Group = Group(cursor: nat, pending: map<nat, nat>, retry: map<Copy, int>)

  /** Unread: claimed, with the delivery count not yet read. Ready: about to call the handler. */
  datatype Phase = Unread | Ready(attempt: int) | Failed(attempt: int) | Succeeded

  /** A delivery in a consumer's hands: which delivery of entry i to group g it is, and what it holds. */
  datatype Flight = Flight(g: nat, i: nat, delivery: nat, entry: StreamEntry, phase: Phase)

  datatype Dead = Dead(g: nat, i: nat, copy: Copy)

  datatype Event =
    | Published(v: Value)
    | ReadBy(g: nat, i: nat)
    | ClaimedBy(g: nat, i: nat, entry: StreamEntry)
    | BlindRead(g: nat, i: nat)                  // a claim whose delivery count could not be read
    | Called(g: nat, i: nat, v: Value, ok: bool) // a handler call and its outcome
    | Buried(g: nat, v: Value)
    | Dropped(g: nat, v: Value)
    | Scheduled(g: nat, copy: Copy, failedAt: int)
    | Promoted(g: nat, copy: Copy, at: int)

  datatype State = State(stream: seq<StreamEntry>, groups: seq<Group>, flights: seq<Flight>, dlq: seq<Dead>,
      log: seq<Event>)

  /** Per-group retry policy: the fallback limit for foreign messages, and the backoff buckets. */
  datatype Policy = Policy(maxDeliver: int, backoff: seq<int>)

  datatype Config = Config(dlq: bool, policies: seq<Policy>)

  datatype Step =
    | Publish(v: Value)
    | Foreign
    | Read(g: nat)
    | Claim(g: nat, i: nat)
    | CountRead(f: nat, ok: bool)
    | AckGarbage(f: nat)
    | Call(f: nat, ok: bool)
    | Bury(f: nat)
    | Drop(f: nat)
    | Retry(f: nat, now: int)
    | AckDone(f: nat)
    | Crash(f: nat)
    | Promote(g: nat, copy: Copy, now: int)

  const NANOS_PER_MILLI := 1_000_000

  /** time.UnixMilli, which rounds down. */
  function UnixMilli(t: int): int {
    t / NANOS_PER_MILLI
  }

  /** The backoff before an attempt: none for the first, then one bucket each, the last one repeating. */
  function RetryDelay(p: Policy, attempt: int): (d: int)
    ensures attempt <= 1 || p.backoff == [] ==> d == 0
    ensures 2 <= attempt <= |p.backoff| + 1 ==> d == p.backoff[attempt - 2]
    ensures attempt > |p.backoff| + 1 && p.backoff != [] ==> d == p.backoff[|p.backoff| - 1]
  {
    if attempt <= 1 then 0
    else if |p.backoff| == 0 then 0
    else if attempt - 2 >= |p.backoff| then p.backoff[|p.backoff| - 1]
    else p.backoff[attempt - 2]
  }

  function MaxOf(v: Value): int {
    v.message.maxDeliver
  }

  /** The limit handleEntry works with. */
  function Limit(c: Config, g: nat, v: Value): int {
    if MaxOf(v) > 0 || g >= |c.policies| then MaxOf(v) else c.policies[g].maxDeliver
  }

  function Capped(c: Config, g: nat, v: Value): Value {
    v.(message := v.message.(maxDeliver := Limit(c, g, v)))
  }

  function StoredAttempt(e: StreamEntry): int {
    if e.Readable? then e.copy.attempt else 1
  }

  predicate Holds(s: State, f: nat, readable: bool) {
    f < |s.flights| && s.flights[f].g < |s.groups| && s.flights[f].entry.Readable? == readable
  }

  /** handleEntry's first test: too many attempts already, and dead-lettering is on. */
  predicate TooLate(c: Config, fl: Flight)
    requires fl.entry.Readable? && fl.phase.Ready?
  {
    fl.phase.attempt > Limit(c, fl.g, fl.entry.copy.v) && c.dlq
  }

  /** After a failed call: no attempts are left. */
  predicate Exhausted(c: Config, fl: Flight)
    requires fl.entry.Readable? && fl.phase.Failed?
  {
    fl.phase.attempt + 1 > Limit(c, fl.g, fl.entry.copy.v)
  }

  ghost predicate Enabled(c: Config, s: State, step: Step) {
    match step
    case Publish(v) => Valid(v.message) && MaxOf(v) >= 1
    case Foreign => true
    case Read(g) => g < |s.groups| && s.groups[g].cursor < |s.stream|
    case Claim(g, i) => g < |s.groups| && i in s.groups[g].pending && i < |s.stream|
    case CountRead(f, _) => f < |s.flights| && s.flights[f].g < |s.groups| && s.flights[f].phase.Unread?
    case AckGarbage(f) => Holds(s, f, false) && s.flights[f].phase.Ready?
    case Call(f, _) => Holds(s, f, true) && s.flights[f].phase.Ready? && !TooLate(c, s.flights[f])
    case Bury(f) =>
      Holds(s, f, true) && var fl := s.flights[f];
      (fl.phase.Ready? && TooLate(c, fl)) || (fl.phase.Failed? && Exhausted(c, fl) && c.dlq)
    case Drop(f) => Holds(s, f, true) && s.flights[f].phase.Failed? && Exhausted(c, s.flights[f]) && !c.dlq
    case Retry(f, _) =>
      && Holds(s, f, true) && s.flights[f].phase.Failed? && !Exhausted(c, s.flights[f])
      && s.flights[f].g < |c.policies|
    case AckDone(f) => Holds(s, f, true) && s.flights[f].phase.Succeeded?
    case Crash(f) => f < |s.flights|
    case Promote(g, copy, now) =>
      && g < |s.groups| && copy in s.groups[g].retry
      && s.groups[g].retry[copy] <= UnixMilli(now)
  }

  /** XACK, and the end of the flight. */
  function Acked(s: State, f: nat): State
    requires f < |s.flights| && s.flights[f].g < |s.groups|
  {
    var fl := s.flights[f];
    var group := s.groups[fl.g];
    s.(groups := s.groups[fl.g := group.(pending := group.pending - {fl.i})], flights := RemoveAt(s.flights, f))
  }

  function WithPhase(s: State, f: nat, phase: Phase): State
    requires f < |s.flights|
  {
    s.(flights := s.flights[f := s.flights[f].(phase := phase)])
  }

  function Log(s: State, e: Event): State {
    s.(log := s.log + [e])
  }

  /** When a copy is due whose previous attempt failed in group g at the given time. */
  function DueAt(c: Config, g: nat, attempt: int, failedAt: int): int
    requires g < |c.policies|
  {
    failedAt + RetryDelay(c.policies[g], attempt)
  }

  /** The copy queued after a failed call. */
  function NextCopy(c: Config, fl: Flight): Copy
    requires fl.entry.Readable? && fl.phase.Failed?
  {
    Copy(Capped(c, fl.g, fl.entry.copy.v), fl.phase.attempt + 1)
  }

  ghost function Do(c: Config, s: State, step: Step): State
    requires Enabled(c, s, step)
  {
    match step
    case Publish(v) => Log(s.(stream := s.stream + [Readable(Copy(v, 1))]), Published(v))
    case Foreign => s.(stream := s.stream + [Garbage])
    case Read(g) =>
      var group, i := s.groups[g], s.groups[g].cursor;
      var e := s.stream[i];
      Log(s.(groups := s.groups[g := group.(cursor := i + 1, pending := group.pending[i := 1])],
             flights := s.flights + [Flight(g, i, 1, e, Ready(StoredAttempt(e)))]),
          ReadBy(g, i))
    case Claim(g, i) =>
      var group := s.groups[g];
      var n := group.pending[i] + 1;
      Log(s.(groups := s.groups[g := group.(pending := group.pending[i := n])],
             flights := s.flights + [Flight(g, i, n, s.stream[i], Unread)]),
          ClaimedBy(g, i, s.stream[i]))
    case CountRead(f, ok) =>
      var fl := s.flights[f];
      var pending := s.groups[fl.g].pending;
      if ok && fl.i in pending && pending[fl.i] > 0 then WithPhase(s, f, Ready(pending[fl.i]))
      else Log(WithPhase(s, f, Ready(StoredAttempt(fl.entry))), BlindRead(fl.g, fl.i))
    case AckGarbage(f) => Acked(s, f)
    case Call(f, ok) =>
      var fl := s.flights[f];
      Log(WithPhase(s, f, if ok then Succeeded else Failed(fl.phase.attempt)), Called(fl.g, fl.i, fl.entry.copy.v, ok))
    case Bury(f) =>
      var fl := s.flights[f];
      Log(Acked(s, f).(dlq := s.dlq + [Dead(fl.g, fl.i, Copy(fl.entry.copy.v, fl.phase.attempt))]),
          Buried(fl.g, fl.entry.copy.v))
    case Drop(f) =>
      var fl := s.flights[f];
      Log(Acked(s, f), Dropped(fl.g, fl.entry.copy.v))
    case Retry(f, now) =>
      var fl := s.flights[f];
      var copy := NextCopy(c, fl);
      var dueAt := DueAt(c, fl.g, copy.attempt, now);
      var a := Acked(s, f);
      var group := a.groups[fl.g];
      Log(a.(groups := a.groups[fl.g := group.(retry := group.retry[copy := UnixMilli(dueAt)])]),
          Scheduled(fl.g, copy, now))
    case AckDone(f) => Acked(s, f)
    case Crash(f) => s.(flights := RemoveAt(s.flights, f))
    case Promote(g, copy, now) =>
      var group := s.groups[g];
      Log(s.(stream := s.stream + [Readable(copy)], groups := s.groups[g := group.(retry := group.retry - {copy})]),
          Promoted(g, copy, now))
  }

  /** t is reached from s by the given steps. */
  ghost predicate Reaches(c: Config, s: State, steps: seq<Step>, t: State)
    decreases |steps|
  {
    if steps == [] then s == t
    else Enabled(c, s, steps[0]) && Reaches(c, Do(c, s, steps[0]), steps[1..], t)
  }

  lemma {:induction false} ReachesConcat(c: Config, s: State, a: seq<Step>, m: State, b: seq<Step>, t: State)
    requires Reaches(c, s, a, m) && Reaches(c, m, b, t)
    ensures Reaches(c, s, a + b, t)
    decreases |a|
  {
    hide Do, Enabled;
    if a == [] {
      assert a + b == b;
    } else {
      ReachesConcat(c, Do(c, s, a[0]), a[1..], m, b, t);
      assert (a + b)[1..] == a[1..] + b;
    }
  }

  lemma OneStep(c: Config, s: State, step: Step, rest: seq<Step>, t: State)
    requires Enabled(c, s, step) && Reaches(c, Do(c, s, step), rest, t)
    ensures Reaches(c, s, [step] + rest, t)
  {
    hide Do, Enabled;
    assert ([step] + rest)[1..] == rest;
  }

  /** An empty topic with n groups; creating a group later, at the start of the stream, is the same. */
  function Init(n: nat): State {
    State([], seq(n, _ => Group(0, map[], map[])), [], [], [])
  }

  // ----- Ranges: attempts, limits, cursors and counts

  ghost predicate CopyOK(copy: Copy, least: int) {
    least <= copy.attempt <= MaxOf(copy.v)
  }

  ghost predicate EntryOK(e: StreamEntry) {
    e.Readable? ==> CopyOK(e.copy, 1)
  }

  ghost predicate GroupOK(s: State, g: nat)
    requires g < |s.groups|
  {
    var group := s.groups[g];
    && group.cursor <= |s.stream|
    && (forall i :: i in group.pending ==> i < group.cursor && group.pending[i] >= 1)
    && (forall copy :: copy in group.retry ==> CopyOK(copy, 2))
  }

  ghost predicate FlightOK(s: State, fl: Flight) {
    && fl.g < |s.groups|
    && fl.i < s.groups[fl.g].cursor
    && fl.i < |s.stream| && fl.entry == s.stream[fl.i]
    && fl.delivery >= 1
    && (fl.phase.Ready? || fl.phase.Failed? ==> fl.phase.attempt >= 1)
    && (fl.phase.Failed? || fl.phase.Succeeded? ==> fl.entry.Readable?)
  }

  /**
   Every entry this code wrote has 1 <= attempt <= max_deliver, every queued retry has
   2 <= attempt <= max_deliver, and flights hold what the stream holds.
   */
  ghost predicate Inv(s: State) {
    && (forall i :: 0 <= i < |s.stream| ==> EntryOK(s.stream[i]))
    && (forall g :: 0 <= g < |s.groups| ==> GroupOK(s, g))
    && (forall f :: 0 <= f < |s.flights| ==> FlightOK(s, s.flights[f]))
  }

  lemma InitOK(n: nat)
    ensures Inv(Init(n))
  {
  }

  /** The limit never changes along a retry chain: the capped value is the value. */
  lemma LimitIsStored(c: Config, g: nat, v: Value)
    requires MaxOf(v) >= 1
    ensures Limit(c, g, v) == MaxOf(v) && Capped(c, g, v) == v
  {
  }

  lemma StreamGrowthKeepsInv(s: State, e: StreamEntry)
    requires Inv(s) && EntryOK(e)
    ensures Inv(s.(stream := s.stream + [e]))
  {
    var t := s.(stream := s.stream + [e]);
    forall g | 0 <= g < |t.groups| ensures GroupOK(t, g) {
      assert GroupOK(s, g);
    }
    forall f | 0 <= f < |t.flights| ensures FlightOK(t, t.flights[f]) {
      assert FlightOK(s, s.flights[f]);
    }
  }

  /** A group may be replaced by one whose cursor has not moved back. */
  lemma GroupUpdateKeepsInv(s: State, g: nat, group: Group)
    requires Inv(s) && g < |s.groups| && s.groups[g].cursor <= group.cursor
    requires GroupOK(s.(groups := s.groups[g := group]), g)
    ensures Inv(s.(groups := s.groups[g := group]))
  {
    var t := s.(groups := s.groups[g := group]);
    forall h | 0 <= h < |t.groups| ensures GroupOK(t, h) {
      assert GroupOK(s, h);
    }
    forall f | 0 <= f < |t.flights| ensures FlightOK(t, t.flights[f]) {
      assert FlightOK(s, s.flights[f]);
    }
  }

  lemma FlightAddKeepsInv(s: State, fl: Flight)
    requires Inv(s) && FlightOK(s, fl)
    ensures Inv(s.(flights := s.flights + [fl]))
  {
    var t := s.(flights := s.flights + [fl]);
    forall f | 0 <= f < |t.flights| ensures FlightOK(t, t.flights[f]) {
      assert f < |s.flights| ==> FlightOK(s, s.flights[f]);
    }
    forall g | 0 <= g < |t.groups| ensures GroupOK(t, g) {
      assert GroupOK(s, g);
    }
  }

  lemma FlightPhaseKeepsInv(s: State, f: nat, phase: Phase)
    requires Inv(s) && f < |s.flights| && FlightOK(s, s.flights[f].(phase := phase))
    ensures Inv(WithPhase(s, f, phase))
  {
    var t := WithPhase(s, f, phase);
    forall h | 0 <= h < |t.flights| ensures FlightOK(t, t.flights[h]) {
      assert FlightOK(s, s.flights[h]);
    }
    forall g | 0 <= g < |t.groups| ensures GroupOK(t, g) {
      assert GroupOK(s, g);
    }
  }

  lemma FlightRemoveKeepsInv(s: State, f: nat)
    requires Inv(s) && f < |s.flights|
    ensures Inv(s.(flights := RemoveAt(s.flights, f)))
  {
    var t := s.(flights := RemoveAt(s.flights, f));
    forall h | 0 <= h < |t.flights| ensures FlightOK(t, t.flights[h]) {
      assert FlightOK(s, s.flights[if h < f then h else h + 1]);
    }
    forall g | 0 <= g < |t.groups| ensures GroupOK(t, g) {
      assert GroupOK(s, g);
    }
  }

  lemma LogKeepsInv(s: State, log: seq<Event>, dlq: seq<Dead>)
    requires Inv(s)
    ensures Inv(s.(log := log, dlq := dlq))
  {
    var t := s.(log := log, dlq := dlq);
    forall h | 0 <= h < |t.flights| ensures FlightOK(t, t.flights[h]) {
      assert FlightOK(s, s.flights[h]);
    }
    forall g | 0 <= g < |t.groups| ensures GroupOK(t, g) {
      assert GroupOK(s, g);
    }
  }

  lemma AckedKeepsInv(s: State, f: nat)
    requires Inv(s) && f < |s.flights| && s.flights[f].g < |s.groups|
    ensures Inv(Acked(s, f))
  {
    var fl := s.flights[f];
    var group := s.groups[fl.g];
    assert GroupOK(s, fl.g);
    FlightRemoveKeepsInv(s, f);
    GroupUpdateKeepsInv(s.(flights := RemoveAt(s.flights, f)), fl.g, group.(pending := group.pending - {fl.i}));
  }

  lemma ReadKeepsInv(c: Config, s: State, g: nat)
    requires Inv(s) && Enabled(c, s, Read(g))
    ensures Inv(Do(c, s, Read(g)))
  {
    var group, i := s.groups[g], s.groups[g].cursor;
    assert GroupOK(s, g) && EntryOK(s.stream[i]);
    var group' := group.(cursor := i + 1, pending := group.pending[i := 1]);
    GroupUpdateKeepsInv(s, g, group');
    var a := s.(groups := s.groups[g := group']);
    var fl := Flight(g, i, 1, s.stream[i], Ready(StoredAttempt(s.stream[i])));
    FlightAddKeepsInv(a, fl);
    LogKeepsInv(a.(flights := s.flights + [fl]), s.log + [ReadBy(g, i)], s.dlq);
  }

  lemma ClaimKeepsInv(c: Config, s: State, g: nat, i: nat)
    requires Inv(s) && Enabled(c, s, Claim(g, i))
    ensures Inv(Do(c, s, Claim(g, i)))
  {
    var group := s.groups[g];
    assert GroupOK(s, g);
    var n := group.pending[i] + 1;
    var group' := group.(pending := group.pending[i := n]);
    GroupUpdateKeepsInv(s, g, group');
    var a := s.(groups := s.groups[g := group']);
    var fl := Flight(g, i, n, s.stream[i], Unread);
    FlightAddKeepsInv(a, fl);
    LogKeepsInv(a.(flights := s.flights + [fl]), s.log + [ClaimedBy(g, i, s.stream[i])], s.dlq);
  }

  lemma CountReadKeepsInv(c: Config, s: State, f: nat, ok: bool)
    requires Inv(s) && Enabled(c, s, CountRead(f, ok))
    ensures Inv(Do(c, s, CountRead(f, ok)))
  {
    var fl := s.flights[f];
    assert FlightOK(s, fl) && EntryOK(s.stream[fl.i]);
    var pending := s.groups[fl.g].pending;
    if ok && fl.i in pending && pending[fl.i] > 0 {
      FlightPhaseKeepsInv(s, f, Ready(pending[fl.i]));
    } else {
      FlightPhaseKeepsInv(s, f, Ready(StoredAttempt(fl.entry)));
      LogKeepsInv(WithPhase(s, f, Ready(StoredAttempt(fl.entry))), s.log + [BlindRead(fl.g, fl.i)], s.dlq);
    }
  }

  lemma CallKeepsInv(c: Config, s: State, f: nat, ok: bool)
    requires Inv(s) && Enabled(c, s, Call(f, ok))
    ensures Inv(Do(c, s, Call(f, ok)))
  {
    var fl := s.flights[f];
    assert FlightOK(s, fl);
    var phase := if ok then Succeeded else Failed(fl.phase.attempt);
    FlightPhaseKeepsInv(s, f, phase);
    LogKeepsInv(WithPhase(s, f, phase), s.log + [Called(fl.g, fl.i, fl.entry.copy.v, ok)], s.dlq);
  }

  lemma RetryKeepsInv(c: Config, s: State, f: nat, now: int)
    requires Inv(s) && Enabled(c, s, Retry(f, now))
    ensures Inv(Do(c, s, Retry(f, now)))
  {
    var fl := s.flights[f];
    assert FlightOK(s, fl) && EntryOK(s.stream[fl.i]);
    LimitIsStored(c, fl.g, fl.entry.copy.v);
    AckedKeepsInv(s, f);
    var a := Acked(s, f);
    assert GroupOK(a, fl.g);
    var group := a.groups[fl.g];
    var copy := NextCopy(c, fl);
    var dueAt := DueAt(c, fl.g, copy.attempt, now);
    var group' := group.(retry := group.retry[copy := UnixMilli(dueAt)]);
    GroupUpdateKeepsInv(a, fl.g, group');
    LogKeepsInv(a.(groups := a.groups[fl.g := group']), s.log + [Scheduled(fl.g, copy, now)], s.dlq);
  }

  lemma PromoteKeepsInv(c: Config, s: State, g: nat, copy: Copy, now: int)
    requires Inv(s) && Enabled(c, s, Promote(g, copy, now))
    ensures Inv(Do(c, s, Promote(g, copy, now)))
  {
    var group := s.groups[g];
    assert GroupOK(s, g);
    StreamGrowthKeepsInv(s, Readable(copy));
    var a := s.(stream := s.stream + [Readable(copy)]);
    assert GroupOK(a, g);
    var group' := group.(retry := group.retry - {copy});
    GroupUpdateKeepsInv(a, g, group');
    LogKeepsInv(a.(groups := a.groups[g := group']), s.log + [Promoted(g, copy, now)], s.dlq);
  }

  lemma StepKeepsInv(c: Config, s: State, step: Step)
    requires Inv(s) && Enabled(c, s, step)
    ensures Inv(Do(c, s, step))
  {
    match step
    case Publish(v) =>
      StreamGrowthKeepsInv(s, Readable(Copy(v, 1)));
      LogKeepsInv(s.(stream := s.stream + [Readable(Copy(v, 1))]), s.log + [Published(v)], s.dlq);
    case Foreign => StreamGrowthKeepsInv(s, Garbage);
    case Read(g) => ReadKeepsInv(c, s, g);
    case Claim(g, i) => ClaimKeepsInv(c, s, g, i);
    case CountRead(f, ok) => CountReadKeepsInv(c, s, f, ok);
    case AckGarbage(f) => AckedKeepsInv(s, f);
    case Call(f, ok) => CallKeepsInv(c, s, f, ok);
    case Bury(f) =>
      AckedKeepsInv(s, f);
      LogKeepsInv(Acked(s, f), Do(c, s, step).log, Do(c, s, step).dlq);
    case Drop(f) =>
      AckedKeepsInv(s, f);
      LogKeepsInv(Acked(s, f), Do(c, s, step).log, s.dlq);
    case Retry(f, now) => RetryKeepsInv(c, s, f, now);
    case AckDone(f) => AckedKeepsInv(s, f);
    case Crash(f) => FlightRemoveKeepsInv(s, f);
    case Promote(g, copy, now) => PromoteKeepsInv(c, s, g, copy, now);
  }

  /** The ranges hold in every reachable state, whatever claims, crashes and promotions did. */
  lemma {:induction false} RunKeepsInv(c: Config, s: State, steps: seq<Step>, t: State)
    requires Inv(s) && Reaches(c, s, steps, t)
    ensures Inv(t)
    decreases |steps|
  {
    if steps != [] {
      StepKeepsInv(c, s, steps[0]);
      RunKeepsInv(c, Do(c, s, steps[0]), steps[1..], t);
    }
  }

  /** In every run from the empty topic, stream entries and queued retries have attempts within their limits. */
  lemma AttemptsStayInRange(c: Config, n: nat, steps: seq<Step>, t: State)
    requires Reaches(c, Init(n), steps, t)
    ensures forall i :: 0 <= i < |t.stream| && t.stream[i].Readable? ==>
      1 <= t.stream[i].copy.attempt <= MaxOf(t.stream[i].copy.v)
    ensures forall g, copy :: 0 <= g < |t.groups| && copy in t.groups[g].retry ==> 2 <= copy.attempt <= MaxOf(copy.v)
  {
    InitOK(n);
    RunKeepsInv(c, Init(n), steps, t);
    forall i | 0 <= i < |t.stream| && t.stream[i].Readable? ensures CopyOK(t.stream[i].copy, 1) {
      assert EntryOK(t.stream[i]);
    }
    forall g, copy | 0 <= g < |t.groups| && copy in t.groups[g].retry ensures 2 <= copy.attempt <= MaxOf(copy.v) {
      assert GroupOK(t, g);
      assert CopyOK(copy, 2);
    }
  }

  /** Each step leaves the number of groups alone and only extends the log. */
  lemma StepExtends(c: Config, s: State, step: Step)
    requires Enabled(c, s, step)
    ensures |Do(c, s, step).groups| == |s.groups|
    ensures s.log <= Do(c, s, step).log && s.stream <= Do(c, s, step).stream
  {
  }
}
