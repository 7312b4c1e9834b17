/**
 The reminder table shared by any number of workers and users (reminder/store.go,
 reminder/service.go), as a state machine. Each step is one row's share of an atomic statement, or
 one action of a worker. Workers act on snapshots taken when they claim; they may crash or fall
 behind at any point, and a stale worker's mark is an ordinary step.
 */
module ReminderProtocol {
  import opened Common
  import opened ReminderModel

  /** Where a worker is with a claimed row. */
  datatype Phase = Claimed | Delivered | Rejected(message: string)

  /** A claimed row as the worker remembers it. */
  datatype Snapshot = Snapshot(row: Row, phase: Phase)

  datatype Event =
    | RowCreated(id: int)
    | RowClaimed(id: int)
    | Notified(id: int)
    | FailureRecorded(id: int)
    | Requeued(id: int)
    | Rescheduled(id: int)
    | Returned(id: int)   // the row went from another status to pending

  datatype State = State(rows: map<int, Row>, nextID: int, live: seq<Snapshot>, log: seq<Event>)

  datatype Step =
    | Create(params: CreateParams, now: Time)
    | BurnID                                     // a refused INSERT still consumes an id
    | Claim(id: int, now: Time)
    | Notify(w: nat, outcome: Outcome)
    | MarkSent(w: nat, at: Time)
    | MarkRetry(w: nat, next: Time, now: Time)
    | MarkFailed(w: nat, now: Time)
    | Crash(w: nat)                              // also a statement that returned an error
    | Requeue(id: int, staleBefore: Time, now: Time)
    | Cancel(id: int, now: Time)
    | Reschedule(id: int, at: Time, now: Time)

  const Init := State(map[], 1, [], [])

  ghost predicate KeyTaken(rows: map<int, Row>, key: string) {
    exists id :: id in rows && rows[id].key == key
  }

  /** Whether a mark finds its row in processing, the only guard the UPDATE has. */
  predicate MarkApplies(s: State, w: nat)
    requires w < |s.live|
  {
    var id := s.live[w].row.id;
    id in s.rows && s.rows[id].status == Processing
  }

  ghost predicate Enabled(s: State, step: Step) {
    match step
    case Create(p, now) => ValidParams(p) && !KeyTaken(s.rows, NewRow(s.nextID, p, now).key)
    case BurnID => true
    case Claim(id, now) => id in s.rows && s.rows[id].status == Pending && s.rows[id].scheduleAt <= now
    case Notify(w, _) => w < |s.live| && s.live[w].phase == Claimed
    case MarkSent(w, at) => w < |s.live| && s.live[w].phase == Delivered && at != 0
    case MarkRetry(w, next, _) =>
      && w < |s.live| && s.live[w].phase.Rejected? && next != 0
      && s.live[w].row.retryCount + 1 < s.live[w].row.maxRetry
    case MarkFailed(w, _) =>
      && w < |s.live| && s.live[w].phase.Rejected?
      && s.live[w].row.retryCount + 1 >= s.live[w].row.maxRetry
    case Crash(w) => w < |s.live|
    case Requeue(id, staleBefore, _) =>
      && id in s.rows && s.rows[id].status == Processing
      && staleBefore != 0 && s.rows[id].updatedAt <= staleBefore
    case Cancel(id, _) => id in s.rows && Open(s.rows[id])
    case Reschedule(id, at, _) => id in s.rows && Open(s.rows[id]) && at != 0
  }

  /** A mark statement: it writes only a row in processing, and ends the worker's interest either way. */
  function Marked(s: State, w: nat, row: Row, events: seq<Event>): State
    requires w < |s.live|
  {
    var rest := RemoveAt(s.live, w);
    if MarkApplies(s, w) then s.(rows := s.rows[s.live[w].row.id := row], live := rest, log := s.log + events)
    else s.(live := rest)
  }

  function TableRow(s: State, w: nat): Row
    requires w < |s.live|
  {
    var sn := s.live[w].row;
    if sn.id in s.rows then s.rows[sn.id] else sn
  }

  ghost function Do(s: State, step: Step): State
    requires Enabled(s, step)
  {
    match step
    case Create(p, now) =>
      s.(rows := s.rows[s.nextID := NewRow(s.nextID, p, now)], nextID := s.nextID + 1,
         log := s.log + [RowCreated(s.nextID)])
    case BurnID => s.(nextID := s.nextID + 1)
    case Claim(id, now) =>
      var row := ClaimRow(s.rows[id], now);
      s.(rows := s.rows[id := row], live := s.live + [Snapshot(row, Claimed)], log := s.log + [RowClaimed(id)])
    case Notify(w, outcome) =>
      var phase := if outcome.NotifyOk? then Delivered else Rejected(FailureMessage(outcome.text));
      s.(live := s.live[w := s.live[w].(phase := phase)], log := s.log + [Notified(s.live[w].row.id)])
    case MarkSent(w, at) => Marked(s, w, SentRow(TableRow(s, w), at), [])
    case MarkRetry(w, next, now) =>
      var sn := s.live[w];
      Marked(s, w, RetryRow(TableRow(s, w), sn.row.retryCount + 1, next, sn.phase.message, now),
             [FailureRecorded(sn.row.id), Returned(sn.row.id)])
    case MarkFailed(w, now) =>
      var sn := s.live[w];
      Marked(s, w, FailedRow(TableRow(s, w), sn.row.retryCount + 1, sn.phase.message, now),
             [FailureRecorded(sn.row.id)])
    case Crash(w) => s.(live := RemoveAt(s.live, w))
    case Requeue(id, _, now) =>
      s.(rows := s.rows[id := RequeueRow(s.rows[id], now)], log := s.log + [Requeued(id), Returned(id)])
    case Cancel(id, now) => s.(rows := s.rows[id := CanceledRow(s.rows[id], now)])
    case Reschedule(id, at, now) =>
      s.(rows := s.rows[id := RescheduledRow(s.rows[id], at, now)],
         log := s.log + [Rescheduled(id)] + (if s.rows[id].status == Failed then [Returned(id)] else []))
  }

  /** t is reached from s by the given steps. */
  ghost predicate Reaches(s: State, steps: seq<Step>, t: State)
    decreases |steps|
  {
    if steps == [] then s == t
    else Enabled(s, steps[0]) && Reaches(Do(s, steps[0]), steps[1..], t)
  }

  // ----- The row invariant, under stale snapshots

  ghost predicate RowOK(r: Row) {
    && r.maxRetry >= 1
    && r.scheduleAt != 0
    && (r.status in {Pending, Processing, Sent} ==> 0 <= r.retryCount < r.maxRetry)
    && (r.status == Failed ==> r.retryCount == r.maxRetry)
    && (r.status == Canceled ==> 0 <= r.retryCount <= r.maxRetry)
    && (r.retryCount > 0 <==> r.lastError != "")
    && (r.sentAt.Some? <==> r.status == Sent)
    && (r.canceledAt.Some? <==> r.status == Canceled)
  }

  /** What Create fixed once and for all: whom to remind of what, how often, and since when. */
  predicate SameReminder(a: Row, b: Row) {
    && a.id == b.id && a.key == b.key && a.userID == b.userID && a.channel == b.channel && a.payload == b.payload
    && a.maxRetry == b.maxRetry && a.createdAt == b.createdAt
  }

  /** What survives of a snapshot however stale it is. */
  ghost predicate SnapshotOK(rows: map<int, Row>, sn: Snapshot) {
    && sn.row.id in rows
    && SameReminder(rows[sn.row.id], sn.row)
    && 0 <= sn.row.retryCount < sn.row.maxRetry
    && (sn.phase.Rejected? ==> sn.phase.message != "")
  }

  ghost predicate RowsOK(s: State) {
    && s.nextID >= 1
    && forall id :: id in s.rows ==> 0 < id < s.nextID && s.rows[id].id == id && RowOK(s.rows[id])
  }

  ghost predicate KeysUnique(rows: map<int, Row>) {
    forall a, b :: a in rows && b in rows && rows[a].key == rows[b].key ==> a == b
  }

  ghost predicate LiveOK(s: State) {
    forall w :: 0 <= w < |s.live| ==> SnapshotOK(s.rows, s.live[w])
  }

  ghost predicate Inv(s: State) {
    RowsOK(s) && KeysUnique(s.rows) && LiveOK(s)
  }

  /** Replacing one row by another version of the same reminder. */
  lemma RowUpdateKeepsInv(s: State, id: int, row: Row)
    requires Inv(s) && id in s.rows && RowOK(row)
    requires SameReminder(row, s.rows[id])
    ensures Inv(s.(rows := s.rows[id := row]))
  {
    var t := s.(rows := s.rows[id := row]);
    forall w | 0 <= w < |t.live| ensures SnapshotOK(t.rows, t.live[w]) {
      assert SnapshotOK(s.rows, s.live[w]);
    }
  }

  lemma RemoveKeepsInv(s: State, w: nat)
    requires Inv(s) && w < |s.live|
    ensures Inv(s.(live := RemoveAt(s.live, w)))
  {
  }

  lemma MarkedKeepsInv(s: State, w: nat, row: Row, events: seq<Event>)
    requires Inv(s) && w < |s.live|
    requires MarkApplies(s, w) ==>
               RowOK(row) && row.id == s.live[w].row.id && SameReminder(row, s.rows[row.id])
    ensures Inv(Marked(s, w, row, events))
  {
    RemoveKeepsInv(s, w);
    if MarkApplies(s, w) {
      RowUpdateKeepsInv(s.(live := RemoveAt(s.live, w)), row.id, row);
    }
  }

  lemma CreateKeepsInv(s: State, p: CreateParams, now: Time)
    requires Inv(s) && Enabled(s, Create(p, now))
    ensures Inv(Do(s, Create(p, now)))
  {
    var t := Do(s, Create(p, now));
    assert s.nextID !in s.rows;
    forall w | 0 <= w < |t.live| ensures SnapshotOK(t.rows, t.live[w]) {
      assert SnapshotOK(s.rows, s.live[w]);
    }
  }

  lemma ClaimKeepsInv(s: State, id: int, now: Time)
    requires Inv(s) && Enabled(s, Claim(id, now))
    ensures Inv(Do(s, Claim(id, now)))
  {
    var t := Do(s, Claim(id, now));
    RowUpdateKeepsInv(s, id, ClaimRow(s.rows[id], now));
    forall w | 0 <= w < |t.live| ensures SnapshotOK(t.rows, t.live[w]) {
      assert w < |s.live| ==> t.live[w] == s.live[w];
    }
  }

  lemma NotifyKeepsInv(s: State, w: nat, outcome: Outcome)
    requires Inv(s) && Enabled(s, Notify(w, outcome))
    ensures Inv(Do(s, Notify(w, outcome)))
  {
    var t := Do(s, Notify(w, outcome));
    forall v | 0 <= v < |t.live| ensures SnapshotOK(t.rows, t.live[v]) {
      assert SnapshotOK(s.rows, s.live[v]);
    }
  }

  lemma MarkKeepsInv(s: State, step: Step)
    requires Inv(s) && Enabled(s, step) && (step.MarkSent? || step.MarkRetry? || step.MarkFailed?)
    ensures Inv(Do(s, step))
  {
    var sn := s.live[step.w];
    assert SnapshotOK(s.rows, sn);
    match step
    case MarkSent(w, at) =>
      MarkedKeepsInv(s, w, SentRow(TableRow(s, w), at), []);
    case MarkRetry(w, next, now) =>
      MarkedKeepsInv(s, w, RetryRow(TableRow(s, w), sn.row.retryCount + 1, next, sn.phase.message, now),
                     [FailureRecorded(sn.row.id), Returned(sn.row.id)]);
    case MarkFailed(w, now) =>
      MarkedKeepsInv(s, w, FailedRow(TableRow(s, w), sn.row.retryCount + 1, sn.phase.message, now),
                     [FailureRecorded(sn.row.id)]);
  }

  lemma StepKeepsInv(s: State, step: Step)
    requires Inv(s) && Enabled(s, step)
    ensures Inv(Do(s, step))
  {
    match step
    case Create(p, now) => CreateKeepsInv(s, p, now);
    case BurnID =>
    case Claim(id, now) => ClaimKeepsInv(s, id, now);
    case Notify(w, outcome) => NotifyKeepsInv(s, w, outcome);
    case MarkSent(_, _) => MarkKeepsInv(s, step);
    case MarkRetry(_, _, _) => MarkKeepsInv(s, step);
    case MarkFailed(_, _) => MarkKeepsInv(s, step);
    case Crash(w) => RemoveKeepsInv(s, w);
    case Requeue(id, _, now) => RowUpdateKeepsInv(s, id, RequeueRow(s.rows[id], now));
    case Cancel(id, now) => RowUpdateKeepsInv(s, id, CanceledRow(s.rows[id], now));
    case Reschedule(id, at, now) => RowUpdateKeepsInv(s, id, RescheduledRow(s.rows[id], at, now));
  }

  /** Every reachable table satisfies the row invariant, whatever stale workers and crashes did. */
  lemma {:induction false} RunKeepsInv(s: State, steps: seq<Step>, t: State)
    requires Inv(s) && Reaches(s, steps, t)
    ensures Inv(t)
    decreases |steps|
  {
    if steps != [] {
      StepKeepsInv(s, steps[0]);
      RunKeepsInv(Do(s, steps[0]), steps[1..], t);
    }
  }

  // ----- Sent and canceled are absorbing; cancel linearizes

  ghost predicate Final(s: State, id: int) {
    id in s.rows && s.rows[id].status in {Sent, Canceled}
  }

  lemma {:induction false} FinalRowsNeverChange(s: State, steps: seq<Step>, t: State, id: int)
    requires Inv(s) && Reaches(s, steps, t) && Final(s, id)
    ensures Final(t, id) && t.rows[id] == s.rows[id]
    decreases |steps|
  {
    if steps != [] {
      StepKeepsInv(s, steps[0]);
      FinalRowsNeverChange(Do(s, steps[0]), steps[1..], t, id);
    }
  }

  /** Rows are never deleted, and keep saying whom to remind of what. */
  lemma {:induction false} RowsPersist(s: State, steps: seq<Step>, t: State, id: int)
    requires Inv(s) && Reaches(s, steps, t) && id in s.rows
    ensures id in t.rows && SameReminder(t.rows[id], s.rows[id])
    decreases |steps|
  {
    if steps != [] {
      StepKeepsInv(s, steps[0]);
      RowsPersist(Do(s, steps[0]), steps[1..], t, id);
    }
  }

  // ----- The work bound

  /** A question about one event; Count answers it over a log. */
  datatype Query = Notifications(id: int) | Requeues(id: int) | Reschedules(id: int) | Returns(id: int)

  predicate Matches(q: Query, e: Event) {
    match q
    case Notifications(id) => e == Notified(id)
    case Requeues(id) => e == Requeued(id)
    case Reschedules(id) => e == Rescheduled(id)
    case Returns(id) => e == Returned(id)
  }

  function Count(q: Query, log: seq<Event>): nat {
    if log == [] then 0
    else Count(q, log[..|log| - 1]) + if Matches(q, log[|log| - 1]) then 1 else 0
  }

  lemma CountAppend(q: Query, log: seq<Event>, e: Event)
    ensures Count(q, log + [e]) == Count(q, log) + if Matches(q, e) then 1 else 0
  {
    assert (log + [e])[..|log|] == log;
  }

  lemma CountAppendTwo(q: Query, log: seq<Event>, e: Event, f: Event)
    ensures Count(q, log + [e, f])
        == Count(q, log) + (if Matches(q, e) then 1 else 0) + (if Matches(q, f) then 1 else 0)
  {
    assert log + [e, f] == (log + [e]) + [f];
    CountAppend(q, log, e);
    CountAppend(q, log + [e], f);
  }

  /** Notify calls a live snapshot can still lead to. */
  function Credit(id: int): Snapshot -> int {
    (sn: Snapshot) =>
      if sn.row.id != id then 0
      else match sn.phase
        case Claimed => sn.row.maxRetry - sn.row.retryCount
        case Rejected(_) => sn.row.maxRetry - sn.row.retryCount - 1
        case Delivered => 0
  }

  /** Notify calls a pending row can still lead to. */
  function RowCredit(s: State, id: int): int {
    if id in s.rows && s.rows[id].status == Pending then s.rows[id].maxRetry - s.rows[id].retryCount else 0
  }

  function Potential(s: State, id: int): int {
    Sum(s.live, Credit(id)) + RowCredit(s, id)
  }

  function MaxRetry(s: State, id: int): int {
    if id in s.rows then s.rows[id].maxRetry else 0
  }

  function Budget(s: State, id: int): int {
    Times(MaxRetry(s, id), 1 + Count(Requeues(id), s.log) + Count(Reschedules(id), s.log))
  }

  ghost predicate WithinBudget(s: State, id: int) {
    && Count(Notifications(id), s.log) + Potential(s, id) <= Budget(s, id)
    && (id >= s.nextID ==> Count(Notifications(id), s.log) == 0 && Sum(s.live, Credit(id)) == 0)
  }

  /** The counters of the bound after one more event. */
  lemma CountsAppend(log: seq<Event>, e: Event, id: int)
    ensures Count(Notifications(id), log + [e]) == Count(Notifications(id), log) + (if e == Notified(id) then 1 else 0)
    ensures Count(Requeues(id), log + [e]) == Count(Requeues(id), log) + (if e == Requeued(id) then 1 else 0)
    ensures Count(Reschedules(id), log + [e]) == Count(Reschedules(id), log) + (if e == Rescheduled(id) then 1 else 0)
  {
    CountAppend(Notifications(id), log, e);
    CountAppend(Requeues(id), log, e);
    CountAppend(Reschedules(id), log, e);
  }

  ghost predicate SameCounts(a: seq<Event>, b: seq<Event>, id: int) {
    && Count(Notifications(id), a) == Count(Notifications(id), b)
    && Count(Requeues(id), a) == Count(Requeues(id), b)
    && Count(Reschedules(id), a) == Count(Reschedules(id), b)
  }

  /** What the marks log does not touch the bound's counters. */
  lemma MarkEventsAreQuiet(log: seq<Event>, i: int, id: int)
    ensures SameCounts(log, log + [], id)
    ensures SameCounts(log, log + [FailureRecorded(i)], id)
    ensures SameCounts(log, log + [FailureRecorded(i), Returned(i)], id)
  {
    var recorded := log + [FailureRecorded(i)];
    assert log + [] == log;
    assert log + [FailureRecorded(i), Returned(i)] == recorded + [Returned(i)];
    CountsAppend(log, FailureRecorded(i), id);
    CountsAppend(recorded, Returned(i), id);
  }

  /** A mark pays the snapshot's credit into the row it returns to pending. */
  lemma MarkedKeepsBudget(s: State, w: nat, row: Row, events: seq<Event>, id: int)
    requires RowsOK(s) && LiveOK(s) && WithinBudget(s, id) && w < |s.live|
    requires row.id == s.live[w].row.id
    requires MarkApplies(s, w) ==> row.maxRetry == s.rows[row.id].maxRetry
    requires row.status == Pending ==> row.maxRetry - row.retryCount <= Credit(row.id)(s.live[w])
    requires SameCounts(s.log, s.log + events, id)
    ensures WithinBudget(Marked(s, w, row, events), id)
  {
    assert SnapshotOK(s.rows, s.live[w]);
    SumRemove(s.live, w, Credit(id));
  }

  lemma InsertKeepsBudget(s: State, row: Row, t: State, id: int)
    requires RowsOK(s) && WithinBudget(s, id)
    requires row.status == Pending && row.retryCount == 0 && row.maxRetry >= 1
    requires t == State(s.rows[s.nextID := row], s.nextID + 1, s.live, s.log + [RowCreated(s.nextID)])
    ensures WithinBudget(t, id)
  {
    CountsAppend(s.log, RowCreated(s.nextID), id);
    if id == s.nextID {
      TimesNonNegative(row.maxRetry, Count(Requeues(id), t.log) + Count(Reschedules(id), t.log));
    } else {
      assert Budget(t, id) == Budget(s, id) && RowCredit(t, id) == RowCredit(s, id);
    }
  }

  lemma CreateKeepsBudget(s: State, p: CreateParams, now: Time, id: int)
    requires RowsOK(s) && WithinBudget(s, id) && Enabled(s, Create(p, now))
    ensures WithinBudget(Do(s, Create(p, now)), id)
  {
    InsertKeepsBudget(s, NewRow(s.nextID, p, now), Do(s, Create(p, now)), id);
  }

  lemma ClaimKeepsBudget(s: State, i: int, now: Time, id: int)
    requires RowsOK(s) && LiveOK(s) && WithinBudget(s, id) && Enabled(s, Claim(i, now))
    ensures WithinBudget(Do(s, Claim(i, now)), id)
  {
    CountsAppend(s.log, RowClaimed(i), id);
    SumAppend(s.live, Snapshot(ClaimRow(s.rows[i], now), Claimed), Credit(id));
  }

  lemma NotifyKeepsBudget(s: State, w: nat, outcome: Outcome, id: int)
    requires RowsOK(s) && LiveOK(s) && WithinBudget(s, id) && Enabled(s, Notify(w, outcome))
    ensures WithinBudget(Do(s, Notify(w, outcome)), id)
  {
    var t := Do(s, Notify(w, outcome));
    CountsAppend(s.log, Notified(s.live[w].row.id), id);
    assert SnapshotOK(s.rows, s.live[w]);
    SumUpdate(s.live, w, t.live[w], Credit(id));
  }

  lemma MarkSentKeepsBudget(s: State, w: nat, at: Time, id: int)
    requires RowsOK(s) && LiveOK(s) && WithinBudget(s, id) && Enabled(s, MarkSent(w, at))
    ensures WithinBudget(Do(s, MarkSent(w, at)), id)
  {
    hide WithinBudget, Count, KeysUnique;
    var sn := s.live[w];
    assert SnapshotOK(s.rows, sn);
    MarkEventsAreQuiet(s.log, sn.row.id, id);
    MarkedKeepsBudget(s, w, SentRow(TableRow(s, w), at), [], id);
  }

  lemma MarkRetryKeepsBudget(s: State, w: nat, next: Time, now: Time, id: int)
    requires RowsOK(s) && LiveOK(s) && WithinBudget(s, id) && Enabled(s, MarkRetry(w, next, now))
    ensures WithinBudget(Do(s, MarkRetry(w, next, now)), id)
  {
    hide WithinBudget, Count, KeysUnique;
    var sn := s.live[w];
    assert SnapshotOK(s.rows, sn);
    MarkEventsAreQuiet(s.log, sn.row.id, id);
    MarkedKeepsBudget(s, w, RetryRow(TableRow(s, w), sn.row.retryCount + 1, next, sn.phase.message, now),
                      [FailureRecorded(sn.row.id), Returned(sn.row.id)], id);
  }

  lemma MarkFailedKeepsBudget(s: State, w: nat, now: Time, id: int)
    requires RowsOK(s) && LiveOK(s) && WithinBudget(s, id) && Enabled(s, MarkFailed(w, now))
    ensures WithinBudget(Do(s, MarkFailed(w, now)), id)
  {
    hide WithinBudget, Count, KeysUnique;
    var sn := s.live[w];
    assert SnapshotOK(s.rows, sn);
    MarkEventsAreQuiet(s.log, sn.row.id, id);
    MarkedKeepsBudget(s, w, FailedRow(TableRow(s, w), sn.row.retryCount + 1, sn.phase.message, now),
                      [FailureRecorded(sn.row.id)], id);
  }

  /** A row put back to pending is paid for by one more requeue or reschedule of it. */
  lemma GrantKeepsBudget(s: State, t: State, i: int, id: int)
    requires RowsOK(s) && WithinBudget(s, id) && i in s.rows && i in t.rows
    requires t.rows == s.rows[i := t.rows[i]] && t.live == s.live && t.nextID == s.nextID
    requires t.rows[i].maxRetry == s.rows[i].maxRetry && t.rows[i].retryCount >= 0
    requires Count(Notifications(id), t.log) == Count(Notifications(id), s.log)
    requires Count(Requeues(id), t.log) + Count(Reschedules(id), t.log)
             == Count(Requeues(id), s.log) + Count(Reschedules(id), s.log) + (if i == id then 1 else 0)
    ensures WithinBudget(t, id)
  {
  }

  lemma RequeueKeepsBudget(s: State, i: int, staleBefore: Time, now: Time, id: int)
    requires RowsOK(s) && LiveOK(s) && WithinBudget(s, id) && Enabled(s, Requeue(i, staleBefore, now))
    ensures WithinBudget(Do(s, Requeue(i, staleBefore, now)), id)
  {
    var t := Do(s, Requeue(i, staleBefore, now));
    var log := s.log + [Requeued(i)];
    assert t.log == log + [Returned(i)];
    CountsAppend(s.log, Requeued(i), id);
    CountsAppend(log, Returned(i), id);
    GrantKeepsBudget(s, t, i, id);
  }

  lemma RescheduleKeepsBudget(s: State, i: int, at: Time, now: Time, id: int)
    requires RowsOK(s) && LiveOK(s) && WithinBudget(s, id) && Enabled(s, Reschedule(i, at, now))
    ensures WithinBudget(Do(s, Reschedule(i, at, now)), id)
  {
    var t := Do(s, Reschedule(i, at, now));
    var log := s.log + [Rescheduled(i)];
    assert t.log == if s.rows[i].status == Failed then log + [Returned(i)] else log;
    CountsAppend(s.log, Rescheduled(i), id);
    CountsAppend(log, Returned(i), id);
    GrantKeepsBudget(s, t, i, id);
  }

  lemma CrashKeepsBudget(s: State, w: nat, id: int)
    requires RowsOK(s) && LiveOK(s) && WithinBudget(s, id) && Enabled(s, Crash(w))
    ensures WithinBudget(Do(s, Crash(w)), id)
  {
    assert SnapshotOK(s.rows, s.live[w]);
    SumRemove(s.live, w, Credit(id));
  }

  lemma StepKeepsBudget(s: State, step: Step, id: int)
    requires Inv(s) && WithinBudget(s, id) && Enabled(s, step)
    ensures WithinBudget(Do(s, step), id)
  {
    match step
    case Create(p, now) => CreateKeepsBudget(s, p, now, id);
    case BurnID =>
    case Claim(i, now) => ClaimKeepsBudget(s, i, now, id);
    case Notify(w, outcome) => NotifyKeepsBudget(s, w, outcome, id);
    case MarkSent(w, at) => MarkSentKeepsBudget(s, w, at, id);
    case MarkRetry(w, next, now) => MarkRetryKeepsBudget(s, w, next, now, id);
    case MarkFailed(w, now) => MarkFailedKeepsBudget(s, w, now, id);
    case Crash(w) => CrashKeepsBudget(s, w, id);
    case Requeue(i, staleBefore, now) => RequeueKeepsBudget(s, i, staleBefore, now, id);
    case Cancel(i, now) =>
    case Reschedule(i, at, now) => RescheduleKeepsBudget(s, i, at, now, id);
  }

  lemma {:induction false} RunKeepsBudget(s: State, steps: seq<Step>, t: State, id: int)
    requires Inv(s) && WithinBudget(s, id) && Reaches(s, steps, t)
    ensures Inv(t) && WithinBudget(t, id)
    decreases |steps|
  {
    if steps != [] {
      StepKeepsInv(s, steps[0]);
      StepKeepsBudget(s, steps[0], id);
      RunKeepsBudget(Do(s, steps[0]), steps[1..], t, id);
    }
  }

  lemma PotentialNonNegative(s: State, id: int)
    requires Inv(s)
    ensures Potential(s, id) >= 0
  {
    forall sn | sn in s.live ensures Credit(id)(sn) >= 0 {
      var w :| 0 <= w < |s.live| && s.live[w] == sn;
      assert SnapshotOK(s.rows, s.live[w]);
    }
    SumNonNegative(s.live, Credit(id));
  }

  lemma InitWithinBudget(id: int)
    ensures Inv(Init) && WithinBudget(Init, id)
  {
    assert Times(0, 1) == 0 && Sum([], Credit(id)) == 0;
  }

  /**
   The work bound: in every interleaving of workers, crashes, stale workers and user calls, the
   Notify calls for one reminder are at most max_retry * (1 + stale requeues + reschedules of it).
   */
  lemma NotificationsAreBounded(steps: seq<Step>, t: State, id: int)
    requires Reaches(Init, steps, t)
    ensures Count(Notifications(id), t.log)
            <= MaxRetry(t, id) * (1 + Count(Requeues(id), t.log) + Count(Reschedules(id), t.log))
  {
    hide Reaches, Count, Potential, MaxRetry, Inv;
    InitWithinBudget(id);
    RunKeepsBudget(Init, steps, t, id);
    PotentialNonNegative(t, id);
    TimesIsProduct(MaxRetry(t, id), 1 + Count(Requeues(id), t.log) + Count(Reschedules(id), t.log));
  }

  // ----- Two claims are separated by a return to pending

  predicate IsPending(s: State, id: int) {
    id in s.rows && s.rows[id].status == Pending
  }

  lemma {:induction false} CountOfPrefix(q: Query, a: seq<Event>, b: seq<Event>)
    requires a <= b
    ensures Count(q, a) <= Count(q, b)
    decreases |b|
  {
    if a == b {
    } else {
      CountOfPrefix(q, a, b[..|b| - 1]);
    }
  }

  lemma StepExtendsLog(s: State, step: Step)
    requires Enabled(s, step)
    ensures s.log <= Do(s, step).log
  {
  }

  lemma {:induction false} RunExtendsLog(s: State, steps: seq<Step>, t: State)
    requires Reaches(s, steps, t)
    ensures s.log <= t.log
    decreases |steps|
  {
    if steps != [] {
      StepExtendsLog(s, steps[0]);
      RunExtendsLog(Do(s, steps[0]), steps[1..], t);
    }
  }

  /** A row that becomes pending in one step is logged as returned. */
  lemma BecomingPendingIsLogged(s: State, step: Step, id: int)
    requires Inv(s) && Enabled(s, step) && id in s.rows
    requires !IsPending(s, id) && IsPending(Do(s, step), id)
    ensures Count(Returns(id), Do(s, step).log) > Count(Returns(id), s.log)
  {
    var log := Do(s, step).log;
    if step.MarkRetry? {
      assert log == s.log + [FailureRecorded(id), Returned(id)];
      CountAppendTwo(Returns(id), s.log, FailureRecorded(id), Returned(id));
    } else if step.Requeue? {
      assert log == s.log + [Requeued(id), Returned(id)];
      CountAppendTwo(Returns(id), s.log, Requeued(id), Returned(id));
    } else {
      assert step.Reschedule? && log == s.log + [Rescheduled(id), Returned(id)];
      CountAppendTwo(Returns(id), s.log, Rescheduled(id), Returned(id));
    }
  }

  lemma {:induction false} BecomingPendingNeedsReturn(s: State, steps: seq<Step>, t: State, id: int)
    requires Inv(s) && Reaches(s, steps, t) && id in s.rows && !IsPending(s, id) && IsPending(t, id)
    ensures Count(Returns(id), t.log) > Count(Returns(id), s.log)
    decreases |steps|
  {
    var m := Do(s, steps[0]);
    StepKeepsInv(s, steps[0]);
    RowsPersist(s, [steps[0]], m, id);
    StepExtendsLog(s, steps[0]);
    CountOfPrefix(Returns(id), s.log, m.log);
    if IsPending(m, id) {
      BecomingPendingIsLogged(s, steps[0], id);
      RunExtendsLog(m, steps[1..], t);
      CountOfPrefix(Returns(id), m.log, t.log);
    } else {
      BecomingPendingNeedsReturn(m, steps[1..], t, id);
    }
  }

  /** Between two claims of one row, in any run, some step returned it to pending. */
  lemma ClaimsAreSeparated(s: State, first: Time, steps: seq<Step>, t: State, second: Time, id: int)
    requires Inv(s) && Enabled(s, Claim(id, first))
    requires Reaches(Do(s, Claim(id, first)), steps, t) && Enabled(t, Claim(id, second))
    ensures Count(Returns(id), t.log) > Count(Returns(id), s.log)
  {
    var m := Do(s, Claim(id, first));
    StepKeepsInv(s, Claim(id, first));
    CountAppend(Returns(id), s.log, RowClaimed(id));
    BecomingPendingNeedsReturn(m, steps, t, id);
  }
}
