/**
 The store's statements and the worker loop as imperative code over one mutable table
 (reminder/store.go, reminder/service.go). Every method is proved to be a run of the protocol's
 steps; where the code makes two statements, other workers and users run in between.
 */
module ReminderStore {
  import opened Common
  import opened Text
  import opened ReminderModel
  import opened ReminderExclusive
  import opened ReminderProtocol
  import opened ReminderQuery

  /** t can be reached from s, in the regime of a sole service if `sole` is set. */
  ghost predicate Follows(sole: bool, s: State, t: State) {
    exists steps :: Runs(sole, s, steps, t)
  }

  lemma FollowsSelf(sole: bool, s: State)
    ensures Follows(sole, s, s)
  {
    assert Runs(sole, s, [], s);
  }

  lemma FollowsStep(sole: bool, s: State, step: Step)
    requires Enabled(s, step) && (sole && step.Requeue? ==> s.live == [])
    ensures Follows(sole, s, Do(s, step))
  {
    assert Runs(sole, Do(s, step), [], Do(s, step));
    assert [step][1..] == [];
    assert Runs(sole, s, [step], Do(s, step));
  }

  lemma FollowsTransitively(sole: bool, s: State, m: State, t: State)
    requires Follows(sole, s, m) && Follows(sole, m, t)
    ensures Follows(sole, s, t)
  {
    var a :| Runs(sole, s, a, m);
    var b :| Runs(sole, m, b, t);
    RunsConcat(sole, s, a, m, b, t);
  }

  lemma FollowsKeepsGood(sole: bool, s: State, t: State)
    requires Good(sole, s) && Follows(sole, s, t)
    ensures Good(sole, t)
  {
    var steps :| Runs(sole, s, steps, t);
    RunKeepsGood(sole, s, steps, t);
  }

  lemma StepFollows(sole: bool, s: State, step: Step)
    requires Good(sole, s) && Enabled(s, step) && (sole && step.Requeue? ==> s.live == [])
    ensures Good(sole, Do(s, step)) && Follows(sole, s, Do(s, step))
  {
    StepKeepsGood(sole, s, step);
    FollowsStep(sole, s, step);
  }

  /** t is s after steps of users only. */
  ghost predicate UserFollows(s: State, t: State) {
    exists steps :: Reaches(s, steps, t) && forall i :: 0 <= i < |steps| ==> ByUser(steps[i])
  }

  lemma UserStepsFollow(sole: bool, s: State, t: State)
    requires UserFollows(s, t)
    ensures Follows(sole, s, t) && t.live == s.live
  {
    var steps :| Reaches(s, steps, t) && forall i :: 0 <= i < |steps| ==> ByUser(steps[i]);
    UserRunsAreRuns(sole, s, steps, t);
  }

  // ----- Claiming

  ghost predicate Claimable(rows: map<int, Row>, r: Row, now: Time) {
    r.id in rows && rows[r.id] == r && r.status == Pending && r.scheduleAt <= now
  }

  function Snapshots(items: seq<Row>, now: Time): seq<Snapshot> {
    seq(|items|, i requires 0 <= i < |items| => Snapshot(ClaimRow(items[i], now), Phase.Claimed))
  }

  function ClaimEvents(items: seq<Row>): seq<Event> {
    seq(|items|, i requires 0 <= i < |items| => RowClaimed(items[i].id))
  }

  ghost predicate HasId(items: seq<Row>, id: int) {
    exists i :: 0 <= i < |items| && items[i].id == id
  }

  /** The UPDATE of ClaimDue. */
  ghost function ClaimTable(rows: map<int, Row>, items: seq<Row>, now: Time): map<int, Row> {
    map id | id in rows :: if HasId(items, id) then ClaimRow(rows[id], now) else rows[id]
  }

  lemma HasIdSplit(items: seq<Row>, id: int)
    requires items != []
    ensures HasId(items, id) <==> items[0].id == id || HasId(items[1..], id)
  {
    if HasId(items[1..], id) {
      var i :| 0 <= i < |items[1..]| && items[1..][i].id == id;
      assert items[i + 1].id == id;
    }
    if HasId(items, id) && items[0].id != id {
      var i :| 0 <= i < |items| && items[i].id == id;
      assert items[1..][i - 1].id == id;
    }
  }

  /** The state after ClaimDue's transaction commits. */
  ghost function AfterClaims(s: State, items: seq<Row>, now: Time): State {
    State(ClaimTable(s.rows, items, now), s.nextID, s.live + Snapshots(items, now), s.log + ClaimEvents(items))
  }

  ghost predicate ClaimableBatch(rows: map<int, Row>, items: seq<Row>, now: Time) {
    && (forall i :: 0 <= i < |items| ==> Claimable(rows, items[i], now))
    && (forall i, j :: 0 <= i < j < |items| ==> items[i].id != items[j].id)
  }

  lemma ClaimTableStep(rows: map<int, Row>, items: seq<Row>, now: Time)
    requires items != [] && ClaimableBatch(rows, items, now)
    ensures
      var after := rows[items[0].id := ClaimRow(items[0], now)];
      && ClaimableBatch(after, items[1..], now)
      && ClaimTable(after, items[1..], now) == ClaimTable(rows, items, now)
  {
    var id, rest := items[0].id, items[1..];
    var after := rows[id := ClaimRow(items[0], now)];
    assert Claimable(rows, items[0], now);
    forall i | 0 <= i < |rest| ensures Claimable(after, rest[i], now) {
      assert Claimable(rows, items[i + 1], now);
    }
    forall k ensures HasId(items, k) <==> k == id || HasId(rest, k) {
      HasIdSplit(items, k);
    }
    assert !HasId(rest, id);
  }

  lemma AfterClaimsStep(s: State, items: seq<Row>, now: Time)
    requires items != [] && ClaimableBatch(s.rows, items, now)
    ensures Enabled(s, Claim(items[0].id, now))
    ensures
      var m := Do(s, Claim(items[0].id, now));
      ClaimableBatch(m.rows, items[1..], now) && AfterClaims(m, items[1..], now) == AfterClaims(s, items, now)
  {
    assert Claimable(s.rows, items[0], now);
    ClaimTableStep(s.rows, items, now);
    var m := Do(s, Claim(items[0].id, now));
    assert m.live + Snapshots(items[1..], now) == s.live + Snapshots(items, now);
    assert m.log + ClaimEvents(items[1..]) == s.log + ClaimEvents(items);
  }

  lemma NoClaims(s: State, now: Time)
    ensures AfterClaims(s, [], now) == s
  {
    assert ClaimTable(s.rows, [], now) == s.rows;
  }

  /** Claiming a batch atomically is a run of single claims. */
  lemma {:induction false} BatchIsRun(sole: bool, s: State, items: seq<Row>, now: Time)
    requires ClaimableBatch(s.rows, items, now)
    ensures Follows(sole, s, AfterClaims(s, items, now))
    decreases |items|
  {
    if items == [] {
      NoClaims(s, now);
      FollowsSelf(sole, s);
    } else {
      AfterClaimsStep(s, items, now);
      FollowsStep(sole, s, Claim(items[0].id, now));
      var m := Do(s, Claim(items[0].id, now));
      BatchIsRun(sole, m, items[1..], now);
      FollowsTransitively(sole, s, m, AfterClaims(s, items, now));
    }
  }

  // ----- Requeueing

  predicate Stale(r: Row, staleBefore: Time) {
    r.status == Processing && r.updatedAt <= staleBefore
  }

  function RequeueTable(rows: map<int, Row>, staleBefore: Time, now: Time): map<int, Row> {
    map id | id in rows :: if Stale(rows[id], staleBefore) then RequeueRow(rows[id], now) else rows[id]
  }

  function StaleIds(rows: map<int, Row>, staleBefore: Time): (ids: set<int>)
    ensures forall id :: id in ids <==> id in rows && rows[id].status == Processing && rows[id].updatedAt <= staleBefore
  {
    set id | id in rows && Stale(rows[id], staleBefore)
  }

  /** Requeueing all stale rows in one statement is a run of single requeues, in any order. */
  lemma {:induction false} RequeueIsRun(sole: bool, s: State, staleBefore: Time, now: Time) returns (log: seq<Event>)
    requires staleBefore != 0 && (sole ==> s.live == [])
    ensures Follows(sole, s, State(RequeueTable(s.rows, staleBefore, now), s.nextID, s.live, log))
    decreases |StaleIds(s.rows, staleBefore)|
  {
    hide Follows;
    var stale := StaleIds(s.rows, staleBefore);
    if forall id :: id in s.rows ==> !Stale(s.rows[id], staleBefore) {
      assert RequeueTable(s.rows, staleBefore, now) == s.rows;
      FollowsSelf(sole, s);
      log := s.log;
    } else {
      var id :| id in s.rows && Stale(s.rows[id], staleBefore);
      var step := Requeue(id, staleBefore, now);
      var m := Do(s, step);
      assert StaleIds(m.rows, staleBefore) == stale - {id};
      log := RequeueIsRun(sole, m, staleBefore, now);
      FollowsStep(sole, s, step);
      assert RequeueTable(m.rows, staleBefore, now) == RequeueTable(s.rows, staleBefore, now);
      FollowsTransitively(sole, s, m, State(RequeueTable(m.rows, staleBefore, now), m.nextID, m.live, log));
    }
  }

  // ----- Retry delays

  const MINUTE: Time := 60_000_000_000

  /** The delay before the given attempt: the matching bucket, or the last one. */
  function RetryDelay(delays: seq<Time>, attempt: int): (d: Time)
    ensures (forall i :: 0 <= i < |delays| ==> delays[i] > 0) ==> d > 0
    ensures 1 <= attempt <= |delays| ==> d == delays[attempt - 1]
    ensures attempt > |delays| > 0 ==> d == delays[|delays| - 1]
    ensures attempt <= 0 || delays == [] ==> d == 60_000_000_000
  {
    if attempt <= 0 || |delays| == 0 then MINUTE
    else if attempt > |delays| then delays[|delays| - 1]
    else delays[attempt - 1]
  }

  lemma RowStays(sole: bool, s: State, t: State, id: int)
    requires Inv(s) && Follows(sole, s, t) && id in s.rows
    ensures id in t.rows && SameReminder(t.rows[id], s.rows[id])
  {
    var steps :| Runs(sole, s, steps, t);
    RunsReach(sole, s, steps, t);
    RowsPersist(s, steps, t, id);
  }

  /**
   The claimed items are unlocked due pending rows, at most `limit`, in order, brought to processing
   in the table and in memory; nothing else changed, and no unlocked due row precedes a claimed one.
   */
  ghost predicate ClaimsWhatIsDue(before: map<int, Row>, after: map<int, Row>, items: seq<Row>,
                                  now: Time, limit: int, locked: set<int>) {
    && |items| <= limit
    && after.Keys == before.Keys
    && Ascending(items)
    && (forall i :: 0 <= i < |items| ==>
          && items[i].id in before && items[i].id !in locked
          && before[items[i].id].status == Pending && before[items[i].id].scheduleAt <= now
          && items[i] == before[items[i].id].(status := Processing, updatedAt := now)
          && after[items[i].id] == items[i])
    && (forall id :: id in before && !HasId(items, id) ==> after[id] == before[id])
    && (forall id ::
          id in before && id !in locked && before[id].status == Pending && before[id].scheduleAt <= now
          && !HasId(items, id) ==>
            && |items| == limit
            && forall i :: 0 <= i < |items| ==> Less(KeyOf(items[i]), KeyOf(before[id])))
  }

  function DueRows(rows: map<int, Row>, now: Time, locked: set<int>): set<Row> {
    set id | id in rows && id !in locked && rows[id].status == Pending && rows[id].scheduleAt <= now :: rows[id]
  }

  lemma DueRowsDistinct(rows: map<int, Row>, now: Time, locked: set<int>)
    requires WellKeyed(rows)
    ensures DistinctIds(DueRows(rows, now, locked))
  {
  }

  predicate IsDue(rows: map<int, Row>, id: int, now: Time, locked: set<int>) {
    id in rows && id !in locked && rows[id].status == Pending && rows[id].scheduleAt <= now
  }

  /** The first `limit` unlocked due rows, in order. */
  ghost predicate IsSelection(rows: map<int, Row>, sel: seq<Row>, now: Time, limit: int, locked: set<int>) {
    && |sel| <= limit
    && Ascending(sel)
    && (forall i :: 0 <= i < |sel| ==> IsDue(rows, sel[i].id, now, locked) && rows[sel[i].id] == sel[i])
    && (forall id :: IsDue(rows, id, now, locked) && !HasId(sel, id) ==>
          |sel| == limit && forall i :: 0 <= i < |sel| ==> Less(KeyOf(sel[i]), KeyOf(rows[id])))
  }

  lemma PrefixIsSelection(rows: map<int, Row>, all: seq<Row>, now: Time, n: nat, locked: set<int>)
    requires n <= |all| && Ascending(all)
    requires forall r :: r in all <==> IsDue(rows, r.id, now, locked) && rows[r.id] == r
    requires WellKeyed(rows)
    ensures n < |all| ==> IsSelection(rows, all[..n], now, n, locked)
    ensures n == |all| ==> forall limit :: limit >= n ==> IsSelection(rows, all[..n], now, limit, locked)
  {
    var sel := all[..n];
    forall i | 0 <= i < n ensures IsDue(rows, sel[i].id, now, locked) && rows[sel[i].id] == sel[i] {
      assert sel[i] in all;
    }
    forall id | IsDue(rows, id, now, locked) && !HasId(sel, id)
      ensures n < |all| && forall i :: 0 <= i < n ==> Less(KeyOf(sel[i]), KeyOf(rows[id]))
    {
      assert rows[id] in all;
      var k :| 0 <= k < |all| && all[k] == rows[id];
      forall j | 0 <= j < n ensures all[j] != rows[id] {
        assert sel[j].id != id;
      }
    }
  }

  /** The locking SELECT. */
  method SelectDue(rows: map<int, Row>, now: Time, limit: int, locked: set<int>) returns (sel: seq<Row>)
    requires WellKeyed(rows) && limit > 0
    ensures IsSelection(rows, sel, now, limit, locked)
  {
    DueRowsDistinct(rows, now, locked);
    var all := OrderBy(DueRows(rows, now, locked));
    if |all| > limit {
      sel := all[..limit];
      PrefixIsSelection(rows, all, now, limit, locked);
    } else {
      sel := all;
      assert all[..|all|] == all;
      PrefixIsSelection(rows, all, now, |all|, locked);
    }
  }

  lemma SelectionIsClaimable(rows: map<int, Row>, sel: seq<Row>, now: Time, limit: int, locked: set<int>)
    requires IsSelection(rows, sel, now, limit, locked)
    ensures ClaimableBatch(rows, sel, now)
  {
    forall i, j | 0 <= i < j < |sel| ensures sel[i].id != sel[j].id {
      assert Less(KeyOf(sel[i]), KeyOf(sel[j]));
    }
  }

  lemma SelectionIsWhatIsDue(rows: map<int, Row>, sel: seq<Row>, now: Time, limit: int, locked: set<int>)
    requires IsSelection(rows, sel, now, limit, locked)
    ensures ClaimsWhatIsDue(rows, ClaimTable(rows, sel, now), ClaimedRows(sel, now), now, limit, locked)
  {
    SameIds(sel, now);
  }

  /** The UPDATE of ClaimDue, by the collected ids. */
  function ClaimByIds(rows: map<int, Row>, ids: seq<int>, now: Time): map<int, Row> {
    map id | id in rows :: if id in ids && rows[id].status == Pending then ClaimRow(rows[id], now) else rows[id]
  }

  lemma ClaimByIdsIsClaimTable(rows: map<int, Row>, sel: seq<Row>, ids: seq<int>, now: Time)
    requires ClaimableBatch(rows, sel, now)
    requires forall id :: id in ids <==> HasId(sel, id)
    ensures ClaimByIds(rows, ids, now) == ClaimTable(rows, sel, now)
  {
  }

  /** The snapshots a worker holds after claiming these items. */
  function Held(items: seq<Row>): seq<Snapshot> {
    seq(|items|, i requires 0 <= i < |items| => Snapshot(items[i], Phase.Claimed))
  }

  function ClaimedRows(items: seq<Row>, now: Time): seq<Row> {
    seq(|items|, i requires 0 <= i < |items| => ClaimRow(items[i], now))
  }

  lemma SameIds(items: seq<Row>, now: Time)
    ensures forall id :: HasId(ClaimedRows(items, now), id) <==> HasId(items, id)
  {
    forall id ensures HasId(ClaimedRows(items, now), id) <==> HasId(items, id) {
      if HasId(items, id) {
        var i :| 0 <= i < |items| && items[i].id == id;
        assert ClaimedRows(items, now)[i].id == id;
      }
    }
  }

  /** The loop of ClaimDue that collects the ids for the UPDATE. */
  method IdsOf(items: seq<Row>) returns (ids: seq<int>)
    ensures |ids| == |items|
    ensures forall i :: 0 <= i < |items| ==> ids[i] == items[i].id
    ensures forall id :: id in ids <==> HasId(items, id)
  {
    var a := new int[|items|];
    var i := 0;
    while i < |items|
      invariant 0 <= i <= |items|
      invariant forall j :: 0 <= j < i ==> a[j] == items[j].id
    {
      a[i] := items[i].id;
      i := i + 1;
    }
    ids := a[..];
    assert forall j :: 0 <= j < |items| ==> ids[j] == items[j].id;
  }

  /** The loop of ClaimDue that updates the claimed items in memory. */
  method BringUpToDate(items: array<Row>, now: Time)
    modifies items
    ensures items[..] == ClaimedRows(old(items[..]), now)
  {
    var i := 0;
    while i < items.Length
      invariant 0 <= i <= items.Length
      invariant forall j :: 0 <= j < i ==> items[j] == ClaimRow(old(items[j]), now)
      invariant forall j :: i <= j < items.Length ==> items[j] == old(items[j])
    {
      items[i] := items[i].(status := Processing);
      items[i] := items[i].(updatedAt := now);
      i := i + 1;
    }
  }

  lemma CreateFollows(sole: bool, s: State, p: CreateParams, now: Time, item: Row)
    requires Good(sole, s) && ValidParams(p) && item == NewRow(s.nextID, p, now) && !KeyTaken(s.rows, item.key)
    ensures Enabled(s, ReminderProtocol.Create(p, now))
    ensures
      var t := State(s.rows[item.id := item], s.nextID + 1, s.live, s.log + [RowCreated(item.id)]);
      t == Do(s, ReminderProtocol.Create(p, now)) && Good(sole, t) && Follows(sole, s, t)
  {
    StepFollows(sole, s, ReminderProtocol.Create(p, now));
  }

  // ----- The store

  /** The reminder with this key has been canceled. */
  ghost predicate IsCanceled(rows: map<int, Row>, key: string) {
    exists id :: id in rows && rows[id].key == key && rows[id].status == Canceled
  }

  ghost predicate IsOpen(rows: map<int, Row>, key: string) {
    exists id :: id in rows && rows[id].key == key && rows[id].status in {Pending, Failed}
  }

  /** When CancelByKey answers ErrStateConflict: the row it read was not canceled, and the row it found is not open. */
  ghost predicate CancelConflicts(read: map<int, Row>, found: map<int, Row>, key: string) {
    KeyTaken(read, key) && !IsCanceled(read, key) && !IsOpen(found, key)
  }

  /** The run of the race below: a create, then the other cancel. */
  lemma RaceRun(p: CreateParams) returns (read: State, found: State)
    requires ValidParams(p)
    ensures Reaches(Init, [Step.Create(p, 1)], read) && Reaches(read, [Cancel(1, 2)], found)
    ensures read.rows == map[1 := NewRow(1, p, 1)] && found.rows == map[1 := CanceledRow(NewRow(1, p, 1), 2)]
  {
    hide TrimSpace;
    var create, cancel := Step.Create(p, 1), Cancel(1, 2);
    read := Do(Init, create);
    found := Do(read, cancel);
    assert [create][1..] == [] && [cancel][1..] == [];
    assert Reaches(read, [], read) && Reaches(found, [], found);
  }

  /** Another cancel between its two statements makes CancelByKey refuse a reminder that is then canceled. */
  lemma CancelRaceConflicts() returns (read: State, found: State)
    ensures
      var p := CreateParams("key", "user", "channel", "payload", 5, 1);
      Reaches(Init, [Step.Create(p, 1)], read) && Reaches(read, [Cancel(1, 2)], found)
    ensures CancelConflicts(read.rows, found.rows, "key") && IsCanceled(found.rows, "key")
  {
    hide TrimSpace, Reaches, Enabled, Do;
    var p := CreateParams("key", "user", "channel", "payload", 5, 1);
    TrimIsIdentity("key");
    TrimIsIdentity("user");
    TrimIsIdentity("channel");
    TrimIsIdentity("payload");
    read, found := RaceRun(p);
    assert read.rows[1].key == "key" && found.rows[1].status == Canceled;
  }

  /** Every table the protocol can have is one that List can page through. */
  lemma ProtocolTablesAreStorable(s: State)
    requires Inv(s)
    ensures WellKeyed(s.rows) && Storable(s.rows)
  {
    forall id | id in s.rows ensures s.rows[id].id == id && id > 0 && s.rows[id].scheduleAt != 0 {
      assert RowOK(s.rows[id]);
    }
  }

  /**
   Of any reachable table, following NextCursor lists everything if and only if the page boundaries can
   be written.
   */
  lemma ReachableTablesPaginate(steps: seq<Step>, t: State, c: CursorCodec, p: ListParams)
    requires Reaches(Init, steps, t) && c.Lawful() && forall s :: s in p.statuses ==> ValidStatus(s)
    ensures WellKeyed(t.rows)
    ensures
      var all := Remaining(t.rows, FilterOf(p), None);
      var got := FollowPages(Lister(c, t.rows, p), "", |all| + 1);
      && got.Some? && got.value <= all
      && (got.value == all <==> BoundariesMarshal(c, Limit(p), all))
      && forall r :: r in all <==> r.id in t.rows && t.rows[r.id] == r && Asked(p, r)
  {
    hide Inv, Asked, Storable, CursorCodec.Lawful, FollowPages, BoundariesMarshal;
    assert Inv(Init) by {
      InitWithinBudget(0);
    }
    RunKeepsInv(Init, steps, t);
    ProtocolTablesAreStorable(t);
    PaginationIsComplete(c, t.rows, p);
  }

  /** The reminder that was asked for, due when asked, with no history yet. */
  predicate IsFresh(r: Row, p: CreateParams, now: Time) {
    && r.key == TrimSpace(p.key) && r.userID == TrimSpace(p.userID) && r.channel == TrimSpace(p.channel)
    && r.payload == p.payload && r.scheduleAt == p.scheduleAt
    && r.maxRetry == (if p.maxRetry > 0 then p.maxRetry else 3)
    && r.status == Pending && r.retryCount == 0 && r.lastError == ""
    && r.sentAt.None? && r.canceledAt.None? && r.createdAt == now && r.updatedAt == now
  }

  class Store {
    const sole: bool      // whether one service, working through this object, is the only worker
    var rows: map<int, Row>
    var nextID: int
    var clock: Time
    ghost var st: State   // the protocol state: this table, and what workers hold of it

    ghost predicate Valid()
      reads this
    {
      st.rows == rows && st.nextID == nextID && Good(sole, st) && clock > 0
    }

    constructor (clock: Time, sole: bool)
      requires clock > 0
      ensures Valid() && st == Init && this.sole == sole
    {
      this.sole := sole;
      rows, nextID, st := map[], 1, Init;
      this.clock := clock;
    }

    /**
     What others may do meanwhile: users only, if the service is the only worker, and anything at all
     otherwise. The snapshots in `mine` are this worker's own.
     */
    method Interference(ghost mine: multiset<Snapshot>)
      requires Valid() && mine <= multiset(st.live)
      modifies this
      ensures Valid() && Follows(sole, old(st), st)
      ensures sole ==> UserFollows(old(st), st)
      ensures mine <= multiset(st.live)
      ensures clock >= old(clock)
    {
      FollowsSelf(sole, st);
      assert Reaches(st, [], st);
    }

    /** The unique index on key. */
    method KeyExists(key: string) returns (taken: bool)
      ensures taken <==> KeyTaken(rows, key)
    {
      taken := exists id :: id in rows && rows[id].key == key;
    }

    /** The INSERT: it fails on a duplicate key, and consumes an id either way. */
    method Insert(p: CreateParams, item: Row) returns (ok: bool)
      requires Valid() && ValidParams(p) && item == NewRow(nextID, p, clock)
      modifies this
      ensures Valid() && Follows(sole, old(st), st)
      ensures ok <==> !KeyTaken(old(rows), item.key)
      ensures !ok ==> st == Do(old(st), BurnID)
      ensures clock == old(clock)
      ensures ok ==> Enabled(old(st), Step.Create(p, clock)) && st == Do(old(st), Step.Create(p, clock))
    {
      ghost var s := st;
      var taken := KeyExists(item.key);
      if taken {
        StepFollows(sole, s, BurnID);
        nextID := nextID + 1;
        st := Do(s, BurnID);
        return false;
      }
      CreateFollows(sole, s, p, clock, item);
      rows := rows[item.id := item];
      nextID := nextID + 1;
      st := Do(st, Step.Create(p, clock));
      ok := true;
    }

    method Create(p: CreateParams) returns (r: Result<Row, StoreError>)
      requires Valid()
      modifies this
      ensures Valid() && Follows(sole, old(st), st)
      ensures r.Err? ==> rows == old(rows) && st.live == old(st).live
      ensures r == Err(ErrInvalidReminder) <==>
                || TrimSpace(p.key) == "" || TrimSpace(p.userID) == "" || TrimSpace(p.channel) == ""
                || TrimSpace(p.payload) == "" || p.scheduleAt == 0
      ensures r == Err(ErrAlreadyExists) <==>
                r != Err(ErrInvalidReminder) && KeyTaken(old(rows), TrimSpace(p.key))
      ensures r.Ok? ==>
                && IsFresh(r.value, p, old(clock)) && r.value.id == old(nextID)
                && rows == old(rows)[r.value.id := r.value]
                && Enabled(old(st), Step.Create(p, clock)) && st == Do(old(st), Step.Create(p, clock))
    {
      if !ValidParams(p) {
        FollowsSelf(sole, st);
        return Err(ErrInvalidReminder);
      }
      var item := NewRow(nextID, p, clock);
      var ok := Insert(p, item);
      r := if ok then Ok(item) else Err(ErrAlreadyExists);
    }

    method GetByKey(key: string) returns (r: Result<Row, StoreError>)
      requires Valid()
      ensures TrimSpace(key) == "" <==> r == Err(ErrInvalidReminder)
      ensures r == Err(ErrNotFound) <==> TrimSpace(key) != "" && !KeyTaken(rows, TrimSpace(key))
      ensures r.Ok? ==> r.value.id in rows && rows[r.value.id] == r.value && r.value.key == TrimSpace(key)
      ensures r.Err? ==> r.error in {ErrInvalidReminder, ErrNotFound}
    {
      var k := TrimSpace(key);
      if k == "" {
        return Err(ErrInvalidReminder);
      }
      var found := KeyExists(k);
      if found {
        var id :| id in rows && rows[id].key == k;
        return Ok(rows[id]);
      }
      return Err(ErrNotFound);
    }

    // ----- Users

    /**
     CancelByKey reads the row and then updates it; anyone may act in between. `read` is the state its
     SELECT saw, `before` the state its last statement found. An error means this call changed nothing;
     success means the row is canceled, and FinalRowsNeverChange then keeps it so.
     */
    method CancelByKey(key: string) returns (r: Result<int, StoreError>, ghost read: State, ghost before: State)
      requires Valid()
      modifies this
      ensures Valid() && read == old(st) && Follows(sole, read, before) && Follows(sole, before, st)
      ensures r.Err? ==> st == before
      ensures r.Ok? ==>
                && Final(st, r.value) && rows[r.value].status == Canceled && rows[r.value].key == TrimSpace(key)
                && (st != before ==>
                      && Enabled(before, Cancel(r.value, clock)) && st == Do(before, Cancel(r.value, clock))
                      && before.rows[r.value].status in {Pending, Failed}
                      && rows == before.rows[r.value := before.rows[r.value].(
                           status := Canceled, canceledAt := Some(clock), updatedAt := clock)])
      ensures r == Err(ErrInvalidReminder) <==> TrimSpace(key) == ""
      ensures r == Err(ErrNotFound) <==> TrimSpace(key) != "" && !KeyTaken(read.rows, TrimSpace(key))
      ensures r == Err(ErrStateConflict)
          <==> TrimSpace(key) != "" && CancelConflicts(read.rows, before.rows, TrimSpace(key))
      ensures TrimSpace(key) != "" && IsCanceled(before.rows, TrimSpace(key)) ==>
                (r.Ok? <==> IsCanceled(read.rows, TrimSpace(key)))
    {
      hide Follows, TrimSpace, Exclusive, CountsExact, LiveOK, RowOK;
      read, before := st, st;
      FollowsSelf(sole, before);
      var found := GetByKey(key);
      if found.Err? {
        return Err(found.error), read, before;
      }
      var item := found.value;
      if item.status == Canceled {
        return Ok(item.id), read, before;
      }
      if item.status != Pending && item.status != Failed {
        return Err(ErrStateConflict), read, before;
      }
      Interference(multiset{});
      before := st;
      RowStays(sole, read, before, item.id);
      if Open(rows[item.id]) {
        ghost var step := Cancel(item.id, clock);
        StepFollows(sole, before, step);
        rows := rows[item.id := CanceledRow(rows[item.id], clock)];
        st := Do(before, step);
        r := Ok(item.id);
      } else {
        FollowsSelf(sole, before);
        r := Err(ErrStateConflict);
      }
    }

    /** RescheduleByKey has the same shape; success leaves a fresh pending row. */
    method RescheduleByKey(key: string, at: Time) returns (r: Result<int, StoreError>, ghost before: State)
      requires Valid()
      modifies this
      ensures Valid() && Follows(sole, old(st), before) && Follows(sole, before, st)
      ensures r.Err? ==> st == before
      ensures r == Err(ErrInvalidReminder) <==> TrimSpace(key) == "" || at == 0
      ensures r == Err(ErrNotFound) <==> TrimSpace(key) != "" && at != 0 && !KeyTaken(old(rows), TrimSpace(key))
      ensures r == Err(ErrStateConflict) <==>
                && TrimSpace(key) != "" && at != 0 && KeyTaken(old(rows), TrimSpace(key))
                && !IsOpen(before.rows, TrimSpace(key))
      ensures r.Ok? ==>
                && r.value in before.rows && before.rows[r.value].status in {Pending, Failed}
                && before.rows[r.value].key == TrimSpace(key)
                && rows == before.rows[r.value := before.rows[r.value].(
                     scheduleAt := at, status := Pending, retryCount := 0, lastError := "",
                     sentAt := None, canceledAt := None, updatedAt := clock)]
                && Enabled(before, Reschedule(r.value, at, clock)) && st == Do(before, Reschedule(r.value, at, clock))
    {
      hide Follows, TrimSpace, Exclusive, CountsExact, LiveOK, RowOK;
      before := st;
      FollowsSelf(sole, before);
      if TrimSpace(key) == "" || at == 0 {
        return Err(ErrInvalidReminder), before;
      }
      var found := GetByKey(key);
      if found.Err? {
        return Err(found.error), before;
      }
      var item := found.value;
      if item.status != Pending && item.status != Failed {
        return Err(ErrStateConflict), before;
      }
      ghost var read := st;
      Interference(multiset{});
      before := st;
      RowStays(sole, read, before, item.id);
      if Open(rows[item.id]) {
        ghost var step := Reschedule(item.id, at, clock);
        StepFollows(sole, before, step);
        rows := rows[item.id := RescheduledRow(rows[item.id], at, clock)];
        st := Do(before, step);
        r := Ok(item.id);
      } else {
        FollowsSelf(sole, before);
        r := Err(ErrStateConflict);
      }
    }

    // ----- The worker's statements

    /**
     ClaimDue: a locking SELECT in (schedule_at, id) order, one UPDATE, and a loop that brings the
     selected items up to date in memory. `locked` are rows other transactions hold.
     */
    method ClaimDue(now: Time, limit: int, locked: set<int>) returns (r: Result<seq<Row>, StoreError>)
      requires Valid()
      modifies this
      ensures Valid() && Follows(sole, old(st), st)
      ensures limit <= 0 <==> r.Err?
      ensures r.Err? ==> r.error == ErrInvalidReminder && st == old(st)
      ensures r.Ok? ==> ClaimsWhatIsDue(old(rows), rows, r.value, now, limit, locked)
      ensures r.Ok? ==> st.live == old(st).live + Held(r.value)
      ensures clock == old(clock)
    {
      hide Follows, ClaimsWhatIsDue, IsSelection, ClaimableBatch, RowOK, LiveOK, KeysUnique, Exclusive, CountsExact;
      if limit <= 0 {
        FollowsSelf(sole, st);
        return Err(ErrInvalidReminder);
      }
      ghost var s := st;
      var selected := SelectDue(rows, now, limit, locked);
      SelectionIsClaimable(rows, selected, now, limit, locked);
      SelectionIsWhatIsDue(rows, selected, now, limit, locked);
      BatchIsRun(sole, s, selected, now);
      FollowsKeepsGood(sole, s, AfterClaims(s, selected, now));
      if |selected| == 0 {
        NoClaims(s, now);
        assert selected == [] && ClaimedRows(selected, now) == [];
        return Ok([]);
      }
      var ids := IdsOf(selected);
      ClaimByIdsIsClaimTable(rows, selected, ids, now);
      rows := ClaimByIds(rows, ids, now);
      st := AfterClaims(s, selected, now);
      var items := new Row[|selected|](j requires 0 <= j < |selected| => selected[j]);
      assert items[..] == selected;
      BringUpToDate(items, now);
      assert Held(items[..]) == Snapshots(selected, now);
      r := Ok(items[..]);
    }

    /** One UPDATE over all rows whose processing is older than the threshold. */
    method RequeueStaleProcessing(staleBefore: Time) returns (r: Result<int, StoreError>)
      requires Valid() && (sole ==> st.live == [])
      modifies this
      ensures Valid() && Follows(sole, old(st), st)
      ensures staleBefore == 0 ==> r == Err(ErrInvalidReminder) && st == old(st)
      ensures staleBefore != 0 ==>
                && r == Ok(|StaleIds(old(rows), staleBefore)|)
                && rows == RequeueTable(old(rows), staleBefore, clock)
                && (forall id :: id in rows <==> id in old(rows))
                && (forall id :: id in rows ==>
                      rows[id] == if old(rows[id]).status == Processing && old(rows[id]).updatedAt <= staleBefore
                                  then old(rows[id]).(status := Pending, updatedAt := clock) else old(rows[id]))
                && st.live == old(st).live && nextID == old(nextID)
      ensures clock == old(clock)
    {
      if staleBefore == 0 {
        FollowsSelf(sole, st);
        return Err(ErrInvalidReminder);
      }
      ghost var s := st;
      r := Ok(|StaleIds(rows, staleBefore)|);
      ghost var after := RequeueIsRun(sole, s, staleBefore, clock);
      rows := RequeueTable(rows, staleBefore, clock);
      st := State(rows, nextID, s.live, after);
      FollowsKeepsGood(sole, s, st);
    }

    /**
     The mark statements write only a row in processing, whoever put it there. `w` is the position of
     the caller's snapshot, which each of them gives up.
     */
    method MarkSent(id: int, sentAt: Time, ghost w: nat) returns (r: Result<int, StoreError>)
      requires Valid() && w < |st.live| && st.live[w].row.id == id && st.live[w].phase == Delivered && sentAt != 0
      modifies this
      ensures Valid() && Follows(sole, old(st), st)
      ensures st == Do(old(st), ReminderProtocol.MarkSent(w, sentAt))
      ensures st.live == RemoveAt(old(st).live, w)
      ensures r == if id in old(rows) && old(rows[id]).status == Processing then Ok(id) else Err(ErrStateConflict)
      ensures r.Ok? <==> old(MarkApplies(st, w))
      ensures r.Err? ==> rows == old(rows)
      ensures r.Ok? ==>
                rows == old(rows)[id := old(rows[id]).(status := Sent, sentAt := Some(sentAt), updatedAt := sentAt)]
      ensures clock == old(clock)
    {
      hide Good, Follows;
      ghost var s := st;
      ghost var t := Do(s, ReminderProtocol.MarkSent(w, sentAt));
      StepFollows(sole, s, ReminderProtocol.MarkSent(w, sentAt));
      if id in rows && rows[id].status == Processing {
        rows := rows[id := SentRow(rows[id], sentAt)];
        r := Ok(id);
      } else {
        r := Err(ErrStateConflict);
      }
      st := t;
    }

    method MarkRetry(item: Row, next: Time, lastErr: string, ghost w: nat) returns (r: Result<int, StoreError>)
      requires Valid() && w < |st.live| && st.live[w] == Snapshot(item, Rejected(lastErr)) && next != 0
      requires item.retryCount + 1 < item.maxRetry
      modifies this
      ensures Valid() && Follows(sole, old(st), st)
      ensures st == Do(old(st), ReminderProtocol.MarkRetry(w, next, clock))
      ensures st.live == RemoveAt(old(st).live, w)
      ensures r == if item.id in old(rows) && old(rows[item.id]).status == Processing then Ok(item.id)
                   else Err(ErrStateConflict)
      ensures r.Ok? <==> old(MarkApplies(st, w))
      ensures r.Err? ==> rows == old(rows)
      ensures r.Ok? ==>
                rows == old(rows)[item.id := old(rows[item.id]).(status := Pending, retryCount := item.retryCount + 1,
                                    scheduleAt := next, lastError := lastErr, updatedAt := clock)]
      ensures clock == old(clock)
    {
      hide Good, Follows;
      ghost var s := st;
      ghost var t := Do(s, ReminderProtocol.MarkRetry(w, next, clock));
      StepFollows(sole, s, ReminderProtocol.MarkRetry(w, next, clock));
      if item.id in rows && rows[item.id].status == Processing {
        rows := rows[item.id := RetryRow(rows[item.id], item.retryCount + 1, next, lastErr, clock)];
        r := Ok(item.id);
      } else {
        r := Err(ErrStateConflict);
      }
      st := t;
    }

    method MarkFailed(item: Row, lastErr: string, ghost w: nat) returns (r: Result<int, StoreError>)
      requires Valid() && w < |st.live| && st.live[w] == Snapshot(item, Rejected(lastErr))
      requires item.retryCount + 1 >= item.maxRetry
      modifies this
      ensures Valid() && Follows(sole, old(st), st)
      ensures st == Do(old(st), ReminderProtocol.MarkFailed(w, clock))
      ensures st.live == RemoveAt(old(st).live, w)
      ensures r == if item.id in old(rows) && old(rows[item.id]).status == Processing then Ok(item.id)
                   else Err(ErrStateConflict)
      ensures r.Ok? <==> old(MarkApplies(st, w))
      ensures r.Err? ==> rows == old(rows)
      ensures r.Ok? ==>
                rows == old(rows)[item.id := old(rows[item.id]).(status := Failed, retryCount := item.retryCount + 1,
                                    lastError := lastErr, updatedAt := clock)]
      ensures clock == old(clock)
    {
      hide Good, Follows;
      ghost var s := st;
      ghost var t := Do(s, ReminderProtocol.MarkFailed(w, clock));
      StepFollows(sole, s, ReminderProtocol.MarkFailed(w, clock));
      if item.id in rows && rows[item.id].status == Processing {
        rows := rows[item.id := FailedRow(rows[item.id], item.retryCount + 1, lastErr, clock)];
        r := Ok(item.id);
      } else {
        r := Err(ErrStateConflict);
      }
      st := t;
    }

    /** The notifier's answer becomes part of this worker's snapshot. */
    ghost method Notified(w: nat, outcome: Outcome)
      requires Valid() && w < |st.live| && st.live[w].phase == Phase.Claimed
      modifies `st
      ensures Valid() && Follows(sole, old(st), st)
      ensures st == Do(old(st), Notify(w, outcome))
      ensures st.live == old(st).live[w := Snapshot(old(st).live[w].row, PhaseAfter(outcome))]
    {
      var t := Do(st, Notify(w, outcome));
      StepFollows(sole, st, Notify(w, outcome));
      st := t;
    }
  }

  // ----- The worker

  function PhaseAfter(outcome: Outcome): Phase {
    if outcome.NotifyOk? then Delivered else Rejected(FailureMessage(outcome.text))
  }

  /** A worker that held these snapshots has let go of the one it had just claimed for the item, and of no other. */
  ghost predicate HandsOver(live: seq<Snapshot>, item: Row, after: seq<Snapshot>) {
    multiset(after) == multiset(live) - multiset{Snapshot(item, Phase.Claimed)}
  }

  /** While only users act, the answer stays with the row it was given for, and its mark will apply. */
  lemma SoleOutcome(live: seq<Snapshot>, item: Row, at: nat, sn: Snapshot, s: State, t: State, w: nat)
    requires at < |live| && live[at] == Snapshot(item, Phase.Claimed) && s.live == live[at := sn]
    requires UserFollows(s, t) && Good(true, t) && w < |t.live| && t.live[w] == sn
    ensures MarkApplies(t, w) && HandsOver(live, item, RemoveAt(t.live, w))
  {
    UserStepsFollow(true, s, t);
    MarksNeverConflict(t, w);
    BagUpdate(live, at, sn);
    BagRemove(t.live, w);
  }

  /** The mark that dispatch owes for an outcome. */
  function MarkFor(item: Row, outcome: Outcome, w: nat, now: Time, delays: seq<Time>): Step {
    if outcome.NotifyOk? then Step.MarkSent(w, now)
    else if item.retryCount + 1 >= item.maxRetry then Step.MarkFailed(w, now)
    else Step.MarkRetry(w, now + RetryDelay(delays, item.retryCount + 1), now)
  }

  /** How a row in processing reads after the outcome of its notification has been recorded at `now`. */
  predicate Records(was: Row, item: Row, outcome: Outcome, row: Row, now: Time, delays: seq<Time>) {
    && SameReminder(row, was) && row.updatedAt == now && row.canceledAt == was.canceledAt
    && match outcome
       case NotifyOk =>
         && row.status == Sent && row.sentAt == Some(now)
         && row.retryCount == was.retryCount && row.lastError == was.lastError && row.scheduleAt == was.scheduleAt
       case NotifyError(text) =>
         && row.retryCount == item.retryCount + 1 && row.sentAt == was.sentAt
         && row.lastError == (if TrimSpace(text) != "" then TrimSpace(text) else "notify failed")
         && if item.retryCount + 1 < item.maxRetry
            then row.status == Pending && row.scheduleAt == now + RetryDelay(delays, item.retryCount + 1)
            else row.status == Failed && row.scheduleAt == was.scheduleAt
  }

  /** One outcome recorded: the state its mark found, the snapshot's place in it, and when. */
  datatype Settled = Settled(before: State, w: nat, now: Time, after: State)

  /** The item's outcome was recorded by the one mark it calls for; `failed` if that mark found the row taken away. */
  ghost predicate Settles(item: Row, outcome: Outcome, delays: seq<Time>, m: Settled, failed: bool) {
    && Enabled(m.before, MarkFor(item, outcome, m.w, m.now, delays))
    && m.before.live[m.w] == Snapshot(item, PhaseAfter(outcome))
    && m.after == Do(m.before, MarkFor(item, outcome, m.w, m.now, delays))
    && (failed <==> !MarkApplies(m.before, m.w))
  }

  function LastState(s: State, marks: seq<Settled>): State {
    if marks == [] then s else marks[|marks| - 1].after
  }

  /** The marks were made one after the other, from s on, with anything in between. */
  ghost predicate OneByOne(sole: bool, s: State, marks: seq<Settled>) {
    marks == []
    || var rest := marks[..|marks| - 1];
       OneByOne(sole, s, rest) && Follows(sole, LastState(s, rest), marks[|marks| - 1].before)
  }

  lemma OneMore(sole: bool, s: State, marks: seq<Settled>, m: Settled)
    requires OneByOne(sole, s, marks) && Follows(sole, LastState(s, marks), m.before)
    ensures OneByOne(sole, s, marks + [m]) && LastState(s, marks + [m]) == m.after
  {
    assert (marks + [m])[..|marks|] == marks;
  }

  function FailureCount(fails: seq<bool>): nat {
    if fails == [] then 0 else FailureCount(fails[..|fails| - 1]) + if fails[|fails| - 1] then 1 else 0
  }

  lemma FailureCountAppend(fails: seq<bool>, failed: bool)
    ensures FailureCount(fails + [failed]) == FailureCount(fails) + if failed then 1 else 0
  {
    assert (fails + [failed])[..|fails|] == fails;
  }

  /** Every item of a batch was settled, in order, from s to t; as many marks failed as are counted. */
  ghost predicate BatchSettled(
      sole: bool, s: State, items: seq<Row>, notify: Row -> Outcome, delays: seq<Time>, marks: seq<Settled>,
      fails: seq<bool>, failures: int, t: State) {
    && |marks| == |fails| == |items| && failures == FailureCount(fails)
    && OneByOne(sole, s, marks) && LastState(s, marks) == t
    && forall k :: 0 <= k < |items| ==> Settles(items[k], notify(items[k]), delays, marks[k], fails[k])
  }

  lemma NothingSettled(sole: bool, s: State, notify: Row -> Outcome, delays: seq<Time>)
    ensures BatchSettled(sole, s, [], notify, delays, [], [], 0, s)
  {
  }

  lemma OneMoreSettled(
      sole: bool, s: State, items: seq<Row>, notify: Row -> Outcome, delays: seq<Time>, marks: seq<Settled>,
      fails: seq<bool>, failures: int, t: State, item: Row, m: Settled, failed: bool)
    requires BatchSettled(sole, s, items, notify, delays, marks, fails, failures, t)
    requires Follows(sole, t, m.before) && Settles(item, notify(item), delays, m, failed)
    ensures BatchSettled(sole, s, items + [item], notify, delays, marks + [m], fails + [failed],
                         failures + (if failed then 1 else 0), m.after)
  {
    hide Follows, Settles, OneByOne, LastState, FailureCount;
    OneMore(sole, s, marks, m);
    FailureCountAppend(fails, failed);
  }

  /** One turn of the loop: the state it found, the time, the state after the claim, what was claimed, the end. */
  datatype Turn = Turn(start: State, now: Time, after: State, claimed: seq<Row>, end: State)

  /** The turn recovered what was stale, then claimed what was due. */
  ghost predicate IsTurn(sole: bool, turn: Turn, ttl: Time, batchSize: int, locked: set<int>) {
    && Follows(sole, turn.start, turn.after) && Follows(sole, turn.after, turn.end)
    && ClaimsWhatIsDue(RequeueTable(turn.start.rows, turn.now - ttl, turn.now), turn.after.rows, turn.claimed,
                       turn.now, batchSize, locked)
  }

  function LastEnd(s: State, turns: seq<Turn>): State {
    if turns == [] then s else turns[|turns| - 1].end
  }

  /** The turns were taken one after the other, from s on, with anything in between. */
  ghost predicate TurnByTurn(sole: bool, s: State, turns: seq<Turn>) {
    turns == []
    || var rest := turns[..|turns| - 1];
       TurnByTurn(sole, s, rest) && Follows(sole, LastEnd(s, rest), turns[|turns| - 1].start)
  }

  lemma OneMoreTurn(sole: bool, s: State, turns: seq<Turn>, turn: Turn)
    requires TurnByTurn(sole, s, turns) && Follows(sole, LastEnd(s, turns), turn.start)
    ensures TurnByTurn(sole, s, turns + [turn]) && LastEnd(s, turns + [turn]) == turn.end
  {
    assert (turns + [turn])[..|turns|] == turns;
  }

  function AllClaimed(turns: seq<Turn>): seq<Row> {
    if turns == [] then [] else AllClaimed(turns[..|turns| - 1]) + turns[|turns| - 1].claimed
  }

  lemma NoTurns(sole: bool, s: State)
    ensures AllClaimed([]) == [] && TurnByTurn(sole, s, []) && LastEnd(s, []) == s
  {
  }

  lemma AllClaimedAppend(turns: seq<Turn>, turn: Turn)
    ensures AllClaimed(turns + [turn]) == AllClaimed(turns) + turn.claimed
  {
    assert (turns + [turn])[..|turns|] == turns;
  }

  /** One reminder service working on the shared store; notify and the delays come from its options. */
  class Service {
    const store: Store
    const retryDelays: seq<Time>
    const processingTTL: Time
    const batchSize: int
    const notify: Row -> Outcome
    ghost var calls: seq<Row>   // the Notify calls this service has made

    ghost predicate Valid()
      reads this, store
    {
      && store.Valid()
      && batchSize > 0
      && forall i :: 0 <= i < |retryDelays| ==> retryDelays[i] > 0
    }

    constructor (store: Store, retryDelays: seq<Time>, processingTTL: Time, batchSize: int, notify: Row -> Outcome)
      requires store.Valid() && batchSize > 0
      requires forall i :: 0 <= i < |retryDelays| ==> retryDelays[i] > 0
      ensures Valid() && this.store == store && this.notify == notify && calls == []
    {
      this.store := store;
      this.retryDelays := retryDelays;
      this.processingTTL := processingTTL;
      this.batchSize := batchSize;
      this.notify := notify;
      calls := [];
    }

    /** The second half of dispatch: record the outcome. */
    method Settle(item: Row, outcome: Outcome, ghost w: nat) returns (failed: bool)
      requires Valid() && w < |store.st.live| && store.st.live[w] == Snapshot(item, PhaseAfter(outcome))
      modifies store
      ensures Valid()
      ensures Enabled(old(store.st), MarkFor(item, outcome, w, old(store.clock), retryDelays))
      ensures store.st == Do(old(store.st), MarkFor(item, outcome, w, old(store.clock), retryDelays))
      ensures Follows(store.sole, old(store.st), store.st)
      ensures store.st.live == RemoveAt(old(store.st).live, w) && store.clock == old(store.clock)
      ensures failed <==> !old(MarkApplies(store.st, w))
      ensures failed ==> store.rows == old(store.rows)
      ensures !failed ==>
                && item.id in old(store.rows) && old(store.rows[item.id]).status == Processing
                && item.id in store.rows && store.rows == old(store.rows)[item.id := store.rows[item.id]]
                && Records(old(store.rows[item.id]), item, outcome, store.rows[item.id], store.clock, retryDelays)
    {
      hide Good, Follows, Do, MarkApplies, RetryDelay, TrimSpace;
      var r: Result<int, StoreError>;
      if outcome.NotifyOk? {
        r := store.MarkSent(item.id, store.clock, w);
      } else {
        var message := FailureMessage(outcome.text);
        if item.retryCount + 1 >= item.maxRetry {
          r := store.MarkFailed(item, message, w);
        } else {
          var next := store.clock + RetryDelay(retryDelays, item.retryCount + 1);
          r := store.MarkRetry(item, next, message, w);
        }
      }
      failed := r.Err?;
    }

    /** The first half of dispatch: the Notify call, and whatever others do before its outcome is recorded. */
    method NotifyItem(item: Row, ghost mine: multiset<Snapshot>)
      returns (outcome: Outcome, ghost at: nat, ghost w: nat)
      requires Valid() && mine + multiset{Snapshot(item, Phase.Claimed)} <= multiset(store.st.live)
      modifies this`calls, store
      ensures Valid() && Follows(store.sole, old(store.st), store.st) && store.clock >= old(store.clock)
      ensures calls == old(calls) + [item] && outcome == notify(item)
      ensures at < |old(store.st).live| && old(store.st).live[at] == Snapshot(item, Phase.Claimed)
      ensures Follows(store.sole, Do(old(store.st), Notify(at, outcome)), store.st)
      ensures w < |store.st.live| && store.st.live[w] == Snapshot(item, PhaseAfter(outcome))
      ensures mine <= multiset(RemoveAt(store.st.live, w))
      ensures store.sole ==> MarkApplies(store.st, w) && HandsOver(old(store.st).live, item, RemoveAt(store.st.live, w))
    {
      hide Follows, UserFollows, Good, MarkApplies, Do, PhaseAfter, HandsOver;
      ghost var s0 := store.st;
      at := BagIndex(s0.live, Snapshot(item, Phase.Claimed));
      outcome := notify(item);
      calls := calls + [item];
      ghost var sn := Snapshot(item, PhaseAfter(outcome));
      store.Notified(at, outcome);
      OthersStay(s0.live, store.st.live, at, sn, mine);
      ghost var s1 := store.st;
      store.Interference(mine + multiset{sn});
      FollowsTransitively(store.sole, s0, s1, store.st);
      w := BagIndex(store.st.live, sn);
      OthersStay(store.st.live, RemoveAt(store.st.live, w), w, sn, mine);
      if store.sole {
        SoleOutcome(s0.live, item, at, sn, s1, store.st, w);
      }
    }

    /**
     dispatch: one Notify call on this worker's snapshot, then, after whatever happens meanwhile, the
     one mark its outcome calls for. `mine` are the worker's other snapshots. An error is returned
     exactly when the mark found the row no longer in processing, which never happens to a sole worker.
     */
    method Dispatch(item: Row, ghost mine: multiset<Snapshot>)
      returns (failed: bool, ghost at: nat, ghost before: State, ghost w: nat, ghost now: Time)
      requires Valid() && mine + multiset{Snapshot(item, Phase.Claimed)} <= multiset(store.st.live)
      modifies this`calls, store
      ensures Valid() && Follows(store.sole, old(store.st), store.st) && store.clock >= old(store.clock)
      ensures mine <= multiset(store.st.live)
      ensures calls == old(calls) + [item]
      ensures at < |old(store.st).live| && old(store.st).live[at] == Snapshot(item, Phase.Claimed)
      ensures Follows(store.sole, Do(old(store.st), Notify(at, notify(item))), before)
      ensures Follows(store.sole, old(store.st), before)
      ensures Enabled(before, MarkFor(item, notify(item), w, now, retryDelays))
      ensures w < |before.live| && before.live[w] == Snapshot(item, PhaseAfter(notify(item)))
      ensures store.st == Do(before, MarkFor(item, notify(item), w, now, retryDelays))
      ensures failed <==> !MarkApplies(before, w)
      ensures failed ==> store.rows == before.rows
      ensures !failed ==>
                && item.id in before.rows && before.rows[item.id].status == Processing
                && item.id in store.rows && store.rows == before.rows[item.id := store.rows[item.id]]
                && Records(before.rows[item.id], item, notify(item), store.rows[item.id], now, retryDelays)
      ensures store.sole ==> !failed && HandsOver(old(store.st).live, item, store.st.live)
    {
      hide Follows, Good, MarkApplies, Do, MarkFor, HandsOver, Records;
      ghost var s0 := store.st;
      var outcome;
      outcome, at, w := NotifyItem(item, mine);
      before, now := store.st, store.clock;
      failed := Settle(item, outcome, w);
      FollowsTransitively(store.sole, s0, before, store.st);
    }

    /** The body of processBatch's loop. */
    method DispatchOne(item: Row, ghost mine: multiset<Snapshot>) returns (failed: bool, ghost m: Settled)
      requires Valid() && mine + multiset{Snapshot(item, Phase.Claimed)} <= multiset(store.st.live)
      modifies this`calls, store
      ensures Valid() && Follows(store.sole, old(store.st), store.st)
      ensures mine <= multiset(store.st.live)
      ensures calls == old(calls) + [item] && store.clock >= old(store.clock)
      ensures Follows(store.sole, old(store.st), m.before) && m.after == store.st
      ensures Settles(item, notify(item), retryDelays, m, failed)
      ensures store.sole ==> !failed && HandsOver(old(store.st).live, item, store.st.live)
    {
      hide Follows, Good, Do, Enabled, MarkFor, MarkApplies, Records, HandsOver;
      ghost var at, before, w, now;
      failed, at, before, w, now := Dispatch(item, mine);
      m := Settled(before, w, now, store.st);
    }

    lemma NothingHeld()
      ensures Held([]) == []
    {
    }

    lemma HeldSplit(items: seq<Row>, i: nat)
      requires i < |items|
      ensures multiset(Held(items[i + 1..])) + multiset{Snapshot(items[i], Phase.Claimed)} == multiset(Held(items[i..]))
    {
      assert Held(items[i..]) == [Snapshot(items[i], Phase.Claimed)] + Held(items[i + 1..]);
    }

    /**
     The loop of processBatch: every claimed item is notified once, in order, and its outcome recorded,
     whatever the others return.
     */
    method DispatchAll(claimed: seq<Row>) returns (failures: int, ghost marks: seq<Settled>, ghost fails: seq<bool>)
      requires Valid() && multiset(Held(claimed)) <= multiset(store.st.live)
      modifies this`calls, store
      ensures Valid() && Follows(store.sole, old(store.st), store.st)
      ensures calls == old(calls) + claimed
      ensures 0 <= failures <= |claimed| && store.clock >= old(store.clock)
      ensures BatchSettled(store.sole, old(store.st), claimed, notify, retryDelays, marks, fails, failures, store.st)
      ensures store.sole && old(store.st).live == Held(claimed) ==> failures == 0 && store.st.live == []
    {
      hide Follows, Good, BatchSettled, Settles, Held;
      failures, marks, fails := 0, [], [];
      ghost var s0, calls0 := store.st, calls;
      var i := 0;
      assert claimed[0..] == claimed && claimed[..0] == [];
      FollowsSelf(store.sole, s0);
      NothingSettled(store.sole, s0, notify, retryDelays);
      NothingHeld();
      while i < |claimed|
        invariant 0 <= i <= |claimed| && 0 <= failures <= i
        invariant Valid() && Follows(store.sole, s0, store.st)
        invariant multiset(Held(claimed[i..])) <= multiset(store.st.live)
        invariant calls == calls0 + claimed[..i] && store.clock >= old(store.clock)
        invariant BatchSettled(store.sole, s0, claimed[..i], notify, retryDelays, marks, fails, failures, store.st)
        invariant store.sole && s0.live == Held(claimed)
            ==> failures == 0 && multiset(store.st.live) == multiset(Held(claimed[i..]))
      {
        HeldSplit(claimed, i);
        ghost var s1 := store.st;
        var failed, m := DispatchOne(claimed[i], multiset(Held(claimed[i + 1..])));
        FollowsTransitively(store.sole, s0, s1, store.st);
        OneMoreSettled(store.sole, s0, claimed[..i], notify, retryDelays, marks, fails, failures, s1, claimed[i], m,
                       failed);
        assert claimed[..i] + [claimed[i]] == claimed[..i + 1];
        marks, fails := marks + [m], fails + [failed];
        if failed {
          failures := failures + 1;
        }
        i := i + 1;
      }
      assert claimed[..i] == claimed && claimed[i..] == [];
    }

    /**
     processBatch: claim what is due, then notify every claimed item exactly once, in claim order,
     whatever the other dispatches return. `after` is the state right after the claim.
     */
    method ProcessBatch(locked: set<int>)
      returns (failures: int, claimed: seq<Row>, ghost after: State, ghost marks: seq<Settled>, ghost fails: seq<bool>)
      requires Valid()
      modifies this`calls, store
      ensures Valid() && Follows(store.sole, old(store.st), store.st)
      ensures ClaimsWhatIsDue(old(store.rows), after.rows, claimed, old(store.clock), batchSize, locked)
      ensures calls == old(calls) + claimed
      ensures Follows(store.sole, old(store.st), after) && Follows(store.sole, after, store.st)
      ensures BatchSettled(store.sole, after, claimed, notify, retryDelays, marks, fails, failures, store.st)
      ensures 0 <= failures <= |claimed| && store.clock >= old(store.clock)
      ensures store.sole && old(store.st).live == [] ==> failures == 0 && store.st.live == []
    {
      hide Follows, Good, ClaimsWhatIsDue, BatchSettled;
      ghost var s0 := store.st;
      var result := store.ClaimDue(store.clock, batchSize, locked);
      claimed := result.value;
      after := store.st;
      failures, marks, fails := DispatchAll(claimed);
      FollowsTransitively(store.sole, s0, after, store.st);
    }

    /**
     One turn of the loop: recover stale rows, then process a batch. A sole worker starts and ends its
     turns holding nothing, and none of its marks fails.
     */
    method Tick(locked: set<int>)
      returns (recovered: int, failures: int, claimed: seq<Row>, ghost after: State, ghost marks: seq<Settled>,
               ghost fails: seq<bool>)
      requires Valid() && store.clock > processingTTL && (store.sole ==> store.st.live == [])
      modifies this`calls, store
      ensures Valid() && Follows(store.sole, old(store.st), store.st)
      ensures recovered == |StaleIds(old(store.rows), old(store.clock) - processingTTL)|
      ensures IsTurn(store.sole, Turn(old(store.st), old(store.clock), after, claimed, store.st), processingTTL,
                     batchSize, locked)
      ensures calls == old(calls) + claimed
      ensures BatchSettled(store.sole, after, claimed, notify, retryDelays, marks, fails, failures, store.st)
      ensures 0 <= failures <= |claimed| && store.clock >= old(store.clock)
      ensures store.sole ==> failures == 0 && store.st.live == []
    {
      hide Follows, Good, ClaimsWhatIsDue, StaleIds, RequeueTable, BatchSettled;
      ghost var s0 := store.st;
      var requeued := store.RequeueStaleProcessing(store.clock - processingTTL);
      recovered := requeued.value;
      ghost var s1 := store.st;
      failures, claimed, after, marks, fails := ProcessBatch(locked);
      FollowsTransitively(store.sole, s0, s1, after);
      FollowsTransitively(store.sole, s0, s1, store.st);
    }

    /** The loop, for as many turns as `locked` is long; between turns anything others may do happens. */
    method Loop(locked: seq<set<int>>) returns (failures: int, ghost turns: seq<Turn>)
      requires Valid() && store.clock > processingTTL && (store.sole ==> store.st.live == [])
      modifies this`calls, store
      ensures Valid() && Follows(store.sole, old(store.st), store.st)
      ensures store.sole ==> failures == 0 && store.st.live == []
      ensures |turns| == |locked|
      ensures forall k :: 0 <= k < |turns| ==> IsTurn(store.sole, turns[k], processingTTL, batchSize, locked[k])
      ensures TurnByTurn(store.sole, old(store.st), turns) && LastEnd(old(store.st), turns) == store.st
      ensures calls == old(calls) + AllClaimed(turns) && failures <= |calls| - |old(calls)|
    {
      hide Follows, Good, UserFollows, IsTurn, AllClaimed, BatchSettled, TurnByTurn, LastEnd;
      failures, turns := 0, [];
      ghost var s0, calls0 := store.st, calls;
      FollowsSelf(store.sole, s0);
      NoTurns(store.sole, s0);
      var i := 0;
      while i < |locked|
        invariant 0 <= i <= |locked| && Valid() && Follows(store.sole, s0, store.st) && store.clock > processingTTL
        invariant store.sole ==> failures == 0 && store.st.live == []
        invariant |turns| == i
        invariant forall k :: 0 <= k < i ==> IsTurn(store.sole, turns[k], processingTTL, batchSize, locked[k])
        invariant TurnByTurn(store.sole, s0, turns) && LastEnd(s0, turns) == store.st
        invariant calls == calls0 + AllClaimed(turns) && failures <= |calls| - |calls0|
      {
        ghost var s1 := store.st;
        store.Interference(multiset{});
        ghost var s2, now := store.st, store.clock;
        if store.sole {
          UserStepsFollow(true, s1, s2);
        }
        FollowsTransitively(store.sole, s0, s1, s2);
        var recovered, failed, claimed;
        ghost var after, marks, fails;
        recovered, failed, claimed, after, marks, fails := Tick(locked[i]);
        FollowsTransitively(store.sole, s0, s2, store.st);
        ghost var turn := Turn(s2, now, after, claimed, store.st);
        AllClaimedAppend(turns, turn);
        OneMoreTurn(store.sole, s0, turns, turn);
        turns := turns + [turn];
        failures := failures + failed;
        i := i + 1;
      }
    }
  }
}
