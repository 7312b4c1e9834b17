/** The ordered SELECT behind claiming and listing, and keyset pagination on top of it (reminder/store.go). */
module ReminderQuery {
  import opened Common
  import opened Text
  import opened ReminderModel

  /** Rows are stored under their own ids. */
  predicate WellKeyed(m: map<int, Row>) {
    forall id :: id in m ==> m[id].id == id
  }

  type Table = m: map<int, Row> | WellKeyed(m) witness map[]

  /** A position in the (schedule_at, id) order. */
  datatype Key = Key(scheduleAt: Time, id: int)

  predicate Less(a: Key, b: Key) {
    a.scheduleAt < b.scheduleAt || (a.scheduleAt == b.scheduleAt && a.id < b.id)
  }

  function KeyOf(r: Row): Key {
    Key(r.scheduleAt, r.id)
  }

  ghost predicate Ascending(rows: seq<Row>) {
    forall i, j :: 0 <= i < j < |rows| ==> Less(KeyOf(rows[i]), KeyOf(rows[j]))
  }

  ghost predicate DistinctIds(rows: set<Row>) {
    forall a, b :: a in rows && b in rows && a.id == b.id ==> a == b
  }

  /** r comes before every other row of the set. */
  predicate IsFirst(r: Row, rows: set<Row>) {
    r in rows && forall o :: o in rows && o != r ==> Less(KeyOf(r), KeyOf(o))
  }

  lemma FirstOfExtended(x: Row, r: Row, rest: set<Row>)
    requires IsFirst(r, rest) && x !in rest && x.id != r.id
    ensures IsFirst(if Less(KeyOf(x), KeyOf(r)) then x else r, rest + {x})
  {
  }

  lemma {:induction false} FirstExists(rows: set<Row>)
    requires rows != {} && DistinctIds(rows)
    ensures exists r :: IsFirst(r, rows)
  {
    var x :| x in rows;
    var rest := rows - {x};
    if rest == {} {
      assert rows == rest + {x};
      assert IsFirst(x, rows);
    } else {
      FirstExists(rest);
      var r :| IsFirst(r, rest);
      FirstOfExtended(x, r, rest);
      assert rows == rest + {x};
    }
  }

  lemma FirstIsUnique(rows: set<Row>)
    ensures forall a, b :: IsFirst(a, rows) && IsFirst(b, rows) ==> a == b
  {
  }

  lemma AscendingPrepend(r: Row, rest: seq<Row>)
    requires Ascending(rest) && forall o :: o in rest ==> Less(KeyOf(r), KeyOf(o))
    ensures Ascending([r] + rest)
  {
  }

  /** ORDER BY schedule_at, id. */
  function OrderBy(rows: set<Row>): (out: seq<Row>)
    requires DistinctIds(rows)
    ensures Ascending(out)
    ensures |out| == |rows|
    ensures forall r :: r in out <==> r in rows
  {
    hide Less, KeyOf;
    if rows == {} then []
    else
      FirstExists(rows);
      FirstIsUnique(rows);
      var r :| r in rows && IsFirst(r, rows);
      var rest := OrderBy(rows - {r});
      AscendingPrepend(r, rest);
      [r] + rest
  }

  lemma HeadIsLeast(rows: seq<Row>, r: Row)
    requires Ascending(rows) && r in rows
    ensures rows[0] == r || Less(KeyOf(rows[0]), KeyOf(r))
    ensures r in rows[1..] <==> Less(KeyOf(rows[0]), KeyOf(r))
  {
    var i :| 0 <= i < |rows| && rows[i] == r;
    if i > 0 {
      assert rows[1..][i - 1] == r;
    }
    if r in rows[1..] {
      var j :| 0 <= j < |rows| - 1 && rows[1..][j] == r;
      assert rows[j + 1] == r;
    }
  }

  lemma EmptyHasNoElement(rows: seq<Row>)
    ensures rows == [] <==> forall r :: r !in rows
  {
    if rows != [] {
      assert rows[0] in rows;
    }
  }

  /** An ascending sequence is determined by its elements. */
  lemma {:induction false} AscendingIsUnique(a: seq<Row>, b: seq<Row>)
    requires Ascending(a) && Ascending(b)
    requires forall r :: r in a <==> r in b
    ensures a == b
  {
    if a == [] || b == [] {
      EmptyHasNoElement(a);
      EmptyHasNoElement(b);
    } else {
      assert a[0] in b && b[0] in a;
      HeadIsLeast(a, b[0]);
      HeadIsLeast(b, a[0]);
      forall r ensures r in a[1..] <==> r in b[1..] {
        if r in a {
          HeadIsLeast(a, r);
          HeadIsLeast(b, r);
        }
      }
      AscendingIsUnique(a[1..], b[1..]);
    }
  }

  // ----- List

  datatype ListParams = ListParams(
    userID: string, channel: string, statuses: seq<string>, scheduleFrom: Time, scheduleTo: Time,
    limit: int, cursor: string)

  /** By time, and at equal times by id. */
  lemma OrderIsByTimeThenId(rows: set<Row>, i: nat, j: nat)
    requires DistinctIds(rows) && i < j < |rows|
    ensures
      var out := OrderBy(rows);
      || out[i].scheduleAt < out[j].scheduleAt
      || (out[i].scheduleAt == out[j].scheduleAt && out[i].id < out[j].id)
  {
    hide OrderBy;
    assert Less(KeyOf(OrderBy(rows)[i]), KeyOf(OrderBy(rows)[j]));
  }

  function StatusText(s: Status): string {
    match s
    case Pending => "pending"
    case Processing => "processing"
    case Sent => "sent"
    case Failed => "failed"
    case Canceled => "canceled"
  }

  predicate ValidStatus(s: string) {
    s in {"pending", "processing", "sent", "failed", "canceled"}
  }

  lemma ValidStatusNames(s: string)
    ensures ValidStatus(s) <==> exists st :: StatusText(st) == s
  {
    assert StatusText(Pending) == "pending";
    assert StatusText(Processing) == "processing";
    assert StatusText(Sent) == "sent";
    assert StatusText(Failed) == "failed";
    assert StatusText(Canceled) == "canceled";
  }

  /** The WHERE clauses other than the cursor; empty and zero values mean no clause. */
  datatype Filter = Filter(userID: string, channel: string, statuses: seq<string>, scheduleFrom: Time, scheduleTo: Time)

  function FilterOf(p: ListParams): Filter {
    Filter(TrimSpace(p.userID), TrimSpace(p.channel), p.statuses, p.scheduleFrom, p.scheduleTo)
  }

  predicate Selected(f: Filter, r: Row) {
    && (f.userID == "" || r.userID == f.userID)
    && (f.channel == "" || r.channel == f.channel)
    && (f.statuses == [] || StatusText(r.status) in f.statuses)
    && (f.scheduleFrom == 0 || f.scheduleFrom <= r.scheduleAt)
    && (f.scheduleTo == 0 || r.scheduleAt <= f.scheduleTo)
  }

  function Limit(p: ListParams): (n: int)
    ensures 1 <= n <= 200
  {
    if p.limit <= 0 then 50 else if p.limit > 200 then 200 else p.limit
  }

  /**
   The JSON and base64 libraries behind the cursor. Marshalling a time fails outside the years RFC 3339
   can write; `marshals` says for which times it succeeds.
   */
  datatype CursorCodec = CursorCodec(
    marshals: Time -> bool, encode: Key -> string, decode: string -> Option<Key>)
  {
    /** Decoding inverts encoding, and an encoded cursor is not empty. */
    ghost predicate Lawful() {
      forall k: Key {:trigger encode(k)} :: marshals(k.scheduleAt) ==> decode(encode(k)) == Some(k) && encode(k) != ""
    }
  }

  /** encodeCursor ignores the marshalling error, so a time it cannot write yields the empty cursor. */
  function EncodeCursor(c: CursorCodec, k: Key): string {
    if c.marshals(k.scheduleAt) then c.encode(k) else ""
  }

  function DecodeCursor(c: CursorCodec, raw: string): Option<Key> {
    match c.decode(raw)
    case Some(k) => if k.scheduleAt == 0 || k.id <= 0 then None else Some(k)
    case None => None
  }

  datatype Page = Page(items: seq<Row>, nextCursor: string)

  /** The rows the query matches, after an optional position. */
  function Matching(m: Table, f: Filter, after: Option<Key>): set<Row> {
    set id | id in m && Selected(f, m[id]) && (after.None? || Less(after.value, KeyOf(m[id]))) :: m[id]
  }

  lemma MatchingDistinct(m: Table, f: Filter, after: Option<Key>)
    ensures DistinctIds(Matching(m, f, after))
  {
  }

  /** Everything the query matches from a position on, in order. */
  function Remaining(m: Table, f: Filter, after: Option<Key>): (rows: seq<Row>)
    ensures Ascending(rows)
    ensures forall r :: r in rows <==>
              r.id in m && m[r.id] == r && Selected(f, r) && (after.None? || Less(after.value, KeyOf(r)))
  {
    MatchingDistinct(m, f, after);
    OrderBy(Matching(m, f, after))
  }

  /** One page starting after a decoded position. */
  function PageAfter(c: CursorCodec, m: Table, p: ListParams, after: Option<Key>): Page
  {
    var rows := Remaining(m, FilterOf(p), after);
    if |rows| > Limit(p) then Page(rows[..Limit(p)], EncodeCursor(c, KeyOf(rows[Limit(p) - 1])))
    else Page(rows, "")
  }

  /** List, with the cursor given as raw text. */
  function List(c: CursorCodec, m: Table, p: ListParams): Result<Page, StoreError>
  {
    if exists s :: s in p.statuses && !ValidStatus(s) then Err(ErrInvalidReminder)
    else if p.cursor == "" then Ok(PageAfter(c, m, p, None))
    else match DecodeCursor(c, p.cursor)
      case None => Err(ErrInvalidReminder)
      case Some(k) => Ok(PageAfter(c, m, p, Some(k)))
  }

  /** What the parameters ask of a row; blank texts, no statuses and zero times ask nothing. */
  predicate Asked(p: ListParams, r: Row) {
    && (TrimSpace(p.userID) != "" ==> r.userID == TrimSpace(p.userID))
    && (TrimSpace(p.channel) != "" ==> r.channel == TrimSpace(p.channel))
    && (p.statuses != [] ==>
          match r.status
          case Pending => "pending" in p.statuses
          case Processing => "processing" in p.statuses
          case Sent => "sent" in p.statuses
          case Failed => "failed" in p.statuses
          case Canceled => "canceled" in p.statuses)
    && (p.scheduleFrom != 0 ==> r.scheduleAt >= p.scheduleFrom)
    && (p.scheduleTo != 0 ==> r.scheduleAt <= p.scheduleTo)
  }

  predicate BadCursor(c: CursorCodec, raw: string) {
    raw != "" && match c.decode(raw) case Some(k) => k.scheduleAt == 0 || k.id <= 0 case None => true
  }

  /** The row comes after the position the request's cursor names, if it has one. */
  predicate PastCursor(c: CursorCodec, p: ListParams, r: Row) {
    p.cursor != "" && c.decode(p.cursor).Some? ==>
      var k := c.decode(p.cursor).value;
      k.scheduleAt < r.scheduleAt || (k.scheduleAt == r.scheduleAt && k.id < r.id)
  }

  lemma SelectedIsAsked(p: ListParams, r: Row)
    ensures Selected(FilterOf(p), r) <==> Asked(p, r)
  {
  }

  /** A row that List may show: asked for, and past the cursor. */
  predicate Shown(c: CursorCodec, m: Table, p: ListParams, r: Row) {
    r.id in m && m[r.id] == r && Asked(p, r) && PastCursor(c, p, r)
  }

  lemma RemainingIsShown(c: CursorCodec, m: Table, p: ListParams, after: Option<Key>)
    requires !BadCursor(c, p.cursor) && after == (if p.cursor == "" then None else c.decode(p.cursor))
    ensures forall r :: r in Remaining(m, FilterOf(p), after) <==> Shown(c, m, p, r)
  {
    hide Asked, Selected, FilterOf;
    forall r ensures r in Remaining(m, FilterOf(p), after) <==> Shown(c, m, p, r) {
      SelectedIsAsked(p, r);
    }
  }

  /** A page as the caller reads it: the first rows of those that may be shown, and where the next page starts. */
  ghost predicate IsPage(c: CursorCodec, m: Table, p: ListParams, n: int, page: Page) {
    && |page.items| <= n
    && (forall i :: 0 <= i < |page.items| ==> Shown(c, m, p, page.items[i]))
    && Ascending(page.items)
    && (forall r :: Shown(c, m, p, r) && r !in page.items ==>
          |page.items| == n && forall i :: 0 <= i < n ==> Less(KeyOf(page.items[i]), KeyOf(r)))
    && page.nextCursor ==
         if (exists r :: Shown(c, m, p, r) && r !in page.items) && page.items != []
            && c.marshals(page.items[|page.items| - 1].scheduleAt)
         then c.encode(KeyOf(page.items[|page.items| - 1])) else ""
  }

  lemma PrefixIsPage(c: CursorCodec, m: Table, p: ListParams, n: int, all: seq<Row>)
    requires n > 0 && Ascending(all) && forall r :: r in all <==> Shown(c, m, p, r)
    ensures IsPage(c, m, p, n, PageOf(c, n, all))
  {
    hide Shown;
    var items := PageOf(c, n, all).items;
    forall r | Shown(c, m, p, r) && r !in items
      ensures |items| == n < |all| && forall i :: 0 <= i < n ==> Less(KeyOf(items[i]), KeyOf(r))
    {
      var k :| 0 <= k < |all| && all[k] == r;
      assert forall j :: 0 <= j < |items| ==> items[j] == all[j] && items[j] != r;
    }
    forall i | 0 <= i < |items| ensures Shown(c, m, p, items[i]) {
      assert items[i] == all[i];
    }
    if |all| > n {
      forall i | 0 <= i < n ensures items[i] != all[n] {
        assert Less(KeyOf(all[i]), KeyOf(all[n]));
      }
      assert all[n] in all;
    }
  }

  /**
   List on one table: refused exactly for an unknown status or a bad cursor; otherwise the first rows,
   50 of them unless asked for less or up to 200, of those asked for after the cursor.
   */
  lemma ListIsExact(c: CursorCodec, m: Table, p: ListParams)
    ensures List(c, m, p).Err? <==>
              (exists s :: s in p.statuses && !ValidStatus(s)) || BadCursor(c, p.cursor)
    ensures List(c, m, p).Err? ==> List(c, m, p).error == ErrInvalidReminder
    ensures List(c, m, p).Ok? ==>
              var n := if p.limit <= 0 then 50 else if p.limit >= 200 then 200 else p.limit;
              IsPage(c, m, p, n, List(c, m, p).value)
  {
    hide Remaining, Shown, IsPage;
    if List(c, m, p).Ok? {
      var after := if p.cursor == "" then None else c.decode(p.cursor);
      RemainingIsShown(c, m, p, after);
      PrefixIsPage(c, m, p, Limit(p), Remaining(m, FilterOf(p), after));
    }
  }

  // ----- Following NextCursor on a fixed table

  /** Rows the store holds: positive ids and schedule times that are not the zero time. */
  ghost predicate Storable(m: Table) {
    forall id :: id in m ==> id > 0 && m[id].scheduleAt != 0
  }

  /** In an ascending sequence, the rows after position n - 1 are those above its key. */
  lemma SuffixIsAbove(rows: seq<Row>, n: nat, r: Row)
    requires Ascending(rows) && 0 < n <= |rows|
    ensures r in rows[n..] <==> r in rows && Less(KeyOf(rows[n - 1]), KeyOf(r))
  {
    if r in rows {
      var i :| 0 <= i < |rows| && rows[i] == r;
      if i >= n {
        assert rows[n..][i - n] == r;
      }
    }
    if r in rows[n..] {
      var j :| 0 <= j < |rows| - n && rows[n..][j] == r;
      assert rows[j + n] == r;
    }
  }

  /** `all` lists, in order, what the filter matches after a position. */
  ghost predicate Remains(m: Table, f: Filter, after: Option<Key>, all: seq<Row>) {
    && Ascending(all)
    && forall r :: r in all <==>
         r.id in m && m[r.id] == r && Selected(f, r) && (after.None? || Less(after.value, KeyOf(r)))
  }

  /** What remains after the n-th remaining row is the rest of the sequence. */
  lemma RemainsAfter(m: Table, f: Filter, after: Option<Key>, all: seq<Row>, n: nat)
    requires Remains(m, f, after, all) && 0 < n <= |all|
    ensures Remains(m, f, Some(KeyOf(all[n - 1])), all[n..])
  {
    assert all[n - 1] in all;
    forall r {
      SuffixIsAbove(all, n, r);
    }
  }

  type Pager = string -> Result<Page, StoreError>

  /** The listing as a function of the cursor, everything else fixed. */
  function Lister(c: CursorCodec, m: Table, p: ListParams): Pager {
    (cursor: string) => List(c, m, p.(cursor := cursor))
  }

  /** A caller's loop: follow NextCursor until it is empty, and concatenate the pages. */
  function FollowPages(pager: Pager, cursor: string, fuel: nat): Option<seq<Row>>
    decreases fuel
  {
    if fuel == 0 then None
    else match pager(cursor)
      case Err(_) => None
      case Ok(page) =>
        if page.nextCursor == "" then Some(page.items)
        else match FollowPages(pager, page.nextCursor, fuel - 1)
          case None => None
          case Some(rest) => Some(page.items + rest)
  }

  /** The last row of every page but the last can be written as a cursor. */
  ghost predicate BoundariesMarshal(c: CursorCodec, n: nat, rows: seq<Row>)
    requires n > 0
    decreases |rows|
  {
    |rows| > n ==> c.marshals(rows[n - 1].scheduleAt) && BoundariesMarshal(c, n, rows[n..])
  }

  /** The request p asks for what follows the position `after`. */
  ghost predicate Positioned(c: CursorCodec, p: ListParams, after: Option<Key>) {
    && (forall s :: s in p.statuses ==> ValidStatus(s))
    && (after == None <==> p.cursor == "")
    && (after.Some? ==> DecodeCursor(c, p.cursor) == after)
  }

  function PageOf(c: CursorCodec, n: nat, all: seq<Row>): Page
    requires n > 0
  {
    if |all| > n then Page(all[..n], EncodeCursor(c, KeyOf(all[n - 1]))) else Page(all, "")
  }

  lemma ListServesPage(c: CursorCodec, m: Table, p: ListParams, after: Option<Key>, all: seq<Row>)
    requires Positioned(c, p, after) && Remains(m, FilterOf(p), after, all)
    ensures List(c, m, p) == Ok(PageOf(c, Limit(p), all))
  {
    hide Selected, FilterOf, Less, KeyOf, Limit, Remaining, CursorCodec.Lawful;
    AscendingIsUnique(all, Remaining(m, FilterOf(p), after));
  }

  /** A cursor this code issued for a storable row is accepted back and means that row's position. */
  lemma IssuedCursorPositions(c: CursorCodec, p: ListParams, after: Option<Key>, k: Key)
    requires c.Lawful() && Positioned(c, p, after)
    requires c.marshals(k.scheduleAt) && k.scheduleAt != 0 && k.id > 0
    ensures Positioned(c, p.(cursor := EncodeCursor(c, k)), Some(k))
  {
  }

  /** What cutting rows into pages of n yields when the walk ends at the first boundary that cannot be written. */
  function Paged(c: CursorCodec, n: nat, rows: seq<Row>): seq<Row>
    requires n > 0
    decreases |rows|
  {
    if |rows| <= n then rows
    else if !c.marshals(rows[n - 1].scheduleAt) then rows[..n]
    else rows[..n] + Paged(c, n, rows[n..])
  }

  lemma {:induction false} PagedIsPrefix(c: CursorCodec, n: nat, rows: seq<Row>)
    requires n > 0
    ensures Paged(c, n, rows) <= rows
    ensures Paged(c, n, rows) == rows <==> BoundariesMarshal(c, n, rows)
    decreases |rows|
  {
    if |rows| > n {
      PagedIsPrefix(c, n, rows[n..]);
      assert rows == rows[..n] + rows[n..];
    }
  }

  /** From this cursor on, the pager serves exactly `all`, n rows at a time. */
  ghost predicate Serves(pager: Pager, c: CursorCodec, n: nat, cursor: string, all: seq<Row>)
    requires n > 0
    decreases |all|
  {
    if |all| <= n then pager(cursor) == Ok(Page(all, ""))
    else
      var next := EncodeCursor(c, KeyOf(all[n - 1]));
      && pager(cursor) == Ok(Page(all[..n], next))
      && (c.marshals(all[n - 1].scheduleAt) ==> next != "" && Serves(pager, c, n, next, all[n..]))
  }

  lemma {:induction false} ServedIsPaged(pager: Pager, c: CursorCodec, n: nat, cursor: string, all: seq<Row>, fuel: nat)
    requires n > 0 && Serves(pager, c, n, cursor, all) && fuel > |all|
    ensures FollowPages(pager, cursor, fuel) == Some(Paged(c, n, all))
    decreases fuel
  {
    if |all| > n && c.marshals(all[n - 1].scheduleAt) {
      ServedIsPaged(pager, c, n, EncodeCursor(c, KeyOf(all[n - 1])), all[n..], fuel - 1);
    }
  }

  /** The position of a row that a storable table holds can be written and read. */
  lemma LastIsStorable(m: Table, f: Filter, after: Option<Key>, all: seq<Row>, n: nat)
    requires Storable(m) && Remains(m, f, after, all) && 0 < n <= |all|
    ensures KeyOf(all[n - 1]).scheduleAt != 0 && KeyOf(all[n - 1]).id > 0
  {
    assert all[n - 1] in all;
  }

  lemma {:induction false} ListerServes(
      c: CursorCodec, m: Table, p: ListParams, cursor: string, after: Option<Key>, all: seq<Row>)
    requires c.Lawful() && Storable(m) && Positioned(c, p.(cursor := cursor), after)
    requires Remains(m, FilterOf(p), after, all)
    ensures Serves(Lister(c, m, p), c, Limit(p), cursor, all)
    decreases |all|
  {
    hide Storable, Remains, Positioned, CursorCodec.Lawful, List;
    ListServesPage(c, m, p.(cursor := cursor), after, all);
    var n := Limit(p);
    if |all| > n && c.marshals(all[n - 1].scheduleAt) {
      var k := KeyOf(all[n - 1]);
      LastIsStorable(m, FilterOf(p), after, all, n);
      IssuedCursorPositions(c, p.(cursor := cursor), after, k);
      RemainsAfter(m, FilterOf(p), after, all, n);
      ListerServes(c, m, p, EncodeCursor(c, k), Some(k), all[n..]);
      EncodedIsNotEmpty(c, k);
    }
  }

  lemma EncodedIsNotEmpty(c: CursorCodec, k: Key)
    requires c.Lawful() && c.marshals(k.scheduleAt)
    ensures EncodeCursor(c, k) != ""
  {
    assert c.encode(k) != "";
  }

  lemma ServedPagination(pager: Pager, c: CursorCodec, n: nat, all: seq<Row>)
    requires n > 0 && Serves(pager, c, n, "", all)
    ensures
      var got := FollowPages(pager, "", |all| + 1);
      && got.Some?
      && got.value <= all
      && (got.value == all <==> BoundariesMarshal(c, n, all))
  {
    ServedIsPaged(pager, c, n, "", all, |all| + 1);
    PagedIsPrefix(c, n, all);
  }

  lemma RemainingIsAsked(m: Table, p: ListParams)
    ensures forall r :: r in Remaining(m, FilterOf(p), None) <==> r.id in m && m[r.id] == r && Asked(p, r)
  {
    hide Remaining, Selected, FilterOf, Asked;
    forall r
      ensures r in Remaining(m, FilterOf(p), None) <==> r.id in m && m[r.id] == r && Asked(p, r)
    {
      SelectedIsAsked(p, r);
    }
  }

  /**
   On a fixed table, following NextCursor from the start terminates, and the concatenated pages are
   the whole filtered table in order if and only if every page boundary can be written as a cursor.
   */
  lemma PaginationIsComplete(c: CursorCodec, m: Table, p: ListParams)
    requires c.Lawful() && Storable(m)
    requires forall s :: s in p.statuses ==> ValidStatus(s)
    ensures
      var all := Remaining(m, FilterOf(p), None);
      var got := FollowPages(Lister(c, m, p), "", |all| + 1);
      && got.Some?
      && got.value <= all
      && (got.value == all <==> BoundariesMarshal(c, Limit(p), all))
      && forall r :: r in all <==> r.id in m && m[r.id] == r && Asked(p, r)
  {
    RemainingIsAsked(m, p);
    hide Remaining, Selected, FilterOf, Asked, FollowPages, Serves, BoundariesMarshal, Lister, Storable;
    hide CursorCodec.Lawful;
    var all := Remaining(m, FilterOf(p), None);
    assert Remains(m, FilterOf(p), None, all);
    ListerServes(c, m, p, "", None, all);
    ServedPagination(Lister(c, m, p), c, Limit(p), all);
  }

  // ----- Following NextCursor while the table changes between pages

  datatype Walk = Walk(items: seq<Row>, finished: bool)

  /** One page from each table in turn, until NextCursor is empty or the tables run out. */
  function WalkPages(c: CursorCodec, tables: seq<Table>, p: ListParams): Walk
  {
    if tables == [] then Walk([], false)
    else match List(c, tables[0], p)
      case Err(_) => Walk([], false)
      case Ok(page) =>
        if page.nextCursor == "" then Walk(page.items, true)
        else
          var rest := WalkPages(c, tables[1..], p.(cursor := page.nextCursor));
          Walk(page.items + rest.items, rest.finished)
  }

  ghost predicate AllAbove(rows: seq<Row>, after: Option<Key>) {
    after.Some? ==> forall i :: 0 <= i < |rows| ==> Less(after.value, KeyOf(rows[i]))
  }

  lemma AscendingConcat(a: seq<Row>, b: seq<Row>)
    requires Ascending(a) && Ascending(b) && a != [] && AllAbove(b, Some(KeyOf(a[|a| - 1])))
    ensures Ascending(a + b)
  {
  }

  /** The row k.id is selected in the table, at its place in the order. */
  predicate Holds(m: Table, f: Filter, k: Key) {
    k.id in m && Selected(f, m[k.id]) && m[k.id].scheduleAt == k.scheduleAt
  }

  ghost predicate Steady(tables: seq<Table>, f: Filter, k: Key) {
    forall m :: m in tables ==> Holds(m, f, k)
  }

  /** Rows numbered k.id among these sit at k. */
  ghost predicate OnlyAt(rows: seq<Row>, k: Key) {
    forall i :: 0 <= i < |rows| && rows[i].id == k.id ==> KeyOf(rows[i]) == k
  }

  ghost predicate Shows(rows: seq<Row>, id: int) {
    exists i :: 0 <= i < |rows| && rows[i].id == id
  }

  /** One page either shows a steady row or ends before it. */
  lemma PageReachesRow(m: Table, f: Filter, after: Option<Key>, all: seq<Row>, k: Key, n: nat)
    requires Remains(m, f, after, all) && Holds(m, f, k) && (after.Some? ==> Less(after.value, k))
    requires 0 < n
    ensures Shows(all, k.id)
    ensures |all| > n ==> Shows(all[..n], k.id) || Less(KeyOf(all[n - 1]), k)
  {
    assert m[k.id] in all;
    var i :| 0 <= i < |all| && all[i] == m[k.id];
    if |all| > n && i < n {
      assert all[..n][i].id == k.id;
    }
  }

  lemma ShowsConcat(a: seq<Row>, b: seq<Row>, id: int)
    ensures Shows(a + b, id) <==> Shows(a, id) || Shows(b, id)
  {
    if Shows(a, id) {
      var i :| 0 <= i < |a| && a[i].id == id;
      assert (a + b)[i].id == id;
    }
    if Shows(b, id) {
      var i :| 0 <= i < |b| && b[i].id == id;
      assert (a + b)[|a| + i].id == id;
    }
  }

  /** One turn of a walk: the rows its page was cut from, and how the walk goes on. */
  lemma WalkTurn(c: CursorCodec, tables: seq<Table>, p: ListParams, after: Option<Key>) returns (all: seq<Row>)
    requires c.Lawful() && Positioned(c, p, after) && tables != [] && Storable(tables[0])
    ensures Remains(tables[0], FilterOf(p), after, all)
    ensures |all| <= Limit(p) ==> WalkPages(c, tables, p) == Walk(all, true)
    ensures |all| > Limit(p) && !c.marshals(all[Limit(p) - 1].scheduleAt) ==>
              WalkPages(c, tables, p) == Walk(all[..Limit(p)], true)
    ensures |all| > Limit(p) && c.marshals(all[Limit(p) - 1].scheduleAt) ==>
              var last := KeyOf(all[Limit(p) - 1]);
              var next := p.(cursor := EncodeCursor(c, last));
              var rest := WalkPages(c, tables[1..], next);
              && Positioned(c, next, Some(last)) && FilterOf(next) == FilterOf(p)
              && WalkPages(c, tables, p) == Walk(all[..Limit(p)] + rest.items, rest.finished)
  {
    var m := tables[0];
    all := Remaining(m, FilterOf(p), after);
    assert Remains(m, FilterOf(p), after, all);
    ListServesPage(c, m, p, after, all);
    if |all| > Limit(p) && c.marshals(all[Limit(p) - 1].scheduleAt) {
      assert all[Limit(p) - 1] in all;
      IssuedCursorPositions(c, p, after, KeyOf(all[Limit(p) - 1]));
    }
  }

  lemma RemainsAbove(m: Table, f: Filter, after: Option<Key>, all: seq<Row>)
    requires Remains(m, f, after, all)
    ensures AllAbove(all, after)
  {
    forall i | 0 <= i < |all| ensures after.Some? ==> Less(after.value, KeyOf(all[i])) {
      assert all[i] in all;
    }
  }

  /** A page, cut from what remains, and what a walk emits after it. */
  lemma PageAscends(all: seq<Row>, n: nat, rest: seq<Row>, after: Option<Key>)
    requires 0 < n <= |all| && Ascending(all) && AllAbove(all, after)
    requires Ascending(rest) && AllAbove(rest, Some(KeyOf(all[n - 1])))
    ensures Ascending(all[..n] + rest) && AllAbove(all[..n] + rest, after)
  {
    AscendingConcat(all[..n], rest);
  }

  lemma NoPages(c: CursorCodec, p: ListParams)
    ensures WalkPages(c, [], p) == Walk([], false)
  {
  }

  /**
   Whatever happens to the table between the pages, the emitted positions strictly increase, and all
   of them lie after the position the walk started from.
   */
  lemma {:induction false} WalkAscends(c: CursorCodec, tables: seq<Table>, p: ListParams, after: Option<Key>)
    requires c.Lawful() && Positioned(c, p, after)
    requires forall m :: m in tables ==> Storable(m)
    ensures Ascending(WalkPages(c, tables, p).items) && AllAbove(WalkPages(c, tables, p).items, after)
    decreases |tables|
  {
    hide WalkPages, Positioned, FilterOf, EncodeCursor, Storable, CursorCodec.Lawful, KeyOf, Less;
    if tables == [] {
      NoPages(c, p);
    } else {
      var all := WalkTurn(c, tables, p, after);
      var n := Limit(p);
      RemainsAbove(tables[0], FilterOf(p), after, all);
      if |all| > n {
        PageAscends(all, n, [], after);
        assert all[..n] + [] == all[..n];
      }
      if |all| > n && c.marshals(all[n - 1].scheduleAt) {
        var last := KeyOf(all[n - 1]);
        var next := p.(cursor := EncodeCursor(c, last));
        assert forall t :: t in tables[1..] ==> t in tables;
        WalkAscends(c, tables[1..], next, Some(last));
        PageAscends(all, n, WalkPages(c, tables[1..], next).items, after);
      }
    }
  }

  /** The walk ended, before k, at a page boundary whose time cannot be written as a cursor. */
  predicate StopsBefore(c: CursorCodec, items: seq<Row>, k: Key) {
    items != [] && var last := items[|items| - 1]; !c.marshals(last.scheduleAt) && Less(KeyOf(last), k)
  }

  lemma RemainsOnlyAt(m: Table, f: Filter, after: Option<Key>, all: seq<Row>, k: Key)
    requires Remains(m, f, after, all) && Holds(m, f, k)
    ensures OnlyAt(all, k)
  {
    forall i | 0 <= i < |all| && all[i].id == k.id ensures KeyOf(all[i]) == k {
      assert all[i] in all;
    }
  }

  /** The page shows the row, or the rest does, or the rest stops before it. */
  lemma PageThenRest(c: CursorCodec, page: seq<Row>, rest: seq<Row>, k: Key)
    requires page != [] && c.marshals(page[|page| - 1].scheduleAt)
    requires Shows(page, k.id) || Shows(rest, k.id) || StopsBefore(c, rest, k)
    ensures Shows(page + rest, k.id) || StopsBefore(c, page + rest, k)
  {
    ShowsConcat(page, rest, k.id);
    if StopsBefore(c, rest, k) {
      assert (page + rest)[|page + rest| - 1] == rest[|rest| - 1];
    }
  }

  lemma OnlyAtConcat(a: seq<Row>, b: seq<Row>, k: Key)
    requires OnlyAt(a, k) && OnlyAt(b, k)
    ensures OnlyAt(a + b, k)
  {
  }

  lemma OnlyAtPrefix(rows: seq<Row>, n: nat, k: Key)
    requires OnlyAt(rows, k)
    ensures n <= |rows| ==> OnlyAt(rows[..n], k)
  {
  }

  lemma NothingOnlyAt(k: Key)
    ensures OnlyAt([], k)
  {
  }

  /** A steady row is emitted at its own place, and not at all only by a walk that stops before it. */
  lemma {:induction false} WalkShows(c: CursorCodec, tables: seq<Table>, p: ListParams, after: Option<Key>, k: Key)
    requires c.Lawful() && Positioned(c, p, after)
    requires forall m :: m in tables ==> Storable(m)
    requires Steady(tables, FilterOf(p), k)
    ensures
      var w := WalkPages(c, tables, p);
      && OnlyAt(w.items, k)
      && (w.finished && (after.Some? ==> Less(after.value, k)) ==> Shows(w.items, k.id) || StopsBefore(c, w.items, k))
    decreases |tables|
  {
    hide WalkPages, Positioned, FilterOf, EncodeCursor, Storable, CursorCodec.Lawful, Holds, Less, Shows, Remains;
    hide KeyOf, Limit, OnlyAt;
    if tables == [] {
      NoPages(c, p);
      NothingOnlyAt(k);
    } else {
      assert tables[0] in tables;
      var all := WalkTurn(c, tables, p, after);
      var n := Limit(p);
      RemainsOnlyAt(tables[0], FilterOf(p), after, all, k);
      OnlyAtPrefix(all, n, k);
      if after.Some? ==> Less(after.value, k) {
        PageReachesRow(tables[0], FilterOf(p), after, all, k, n);
      }
      if |all| > n && c.marshals(all[n - 1].scheduleAt) {
        var next := p.(cursor := EncodeCursor(c, KeyOf(all[n - 1])));
        var rest := WalkPages(c, tables[1..], next);
        assert forall t :: t in tables[1..] ==> t in tables;
        WalkShows(c, tables[1..], next, Some(KeyOf(all[n - 1])), k);
        OnlyAtConcat(all[..n], rest.items, k);
        if Shows(all[..n], k.id) || Shows(rest.items, k.id) || StopsBefore(c, rest.items, k) {
          PageThenRest(c, all[..n], rest.items, k);
        }
      }
    }
  }

  /**
   A row that matches throughout at one schedule time is never emitted twice, and a walk that ends
   emits it if and only if it did not stop before it at a boundary that cannot be written as a cursor.
   */
  lemma WalkEmitsSteadyRowsOnce(c: CursorCodec, tables: seq<Table>, p: ListParams, k: Key)
    requires c.Lawful() && p.cursor == ""
    requires forall s :: s in p.statuses ==> ValidStatus(s)
    requires forall m :: m in tables ==> Storable(m)
    requires Steady(tables, FilterOf(p), k)
    ensures
      var w := WalkPages(c, tables, p);
      && (forall i, j :: 0 <= i < j < |w.items| ==> !(w.items[i].id == k.id && w.items[j].id == k.id))
      && (w.finished ==> (Shows(w.items, k.id) <==> !StopsBefore(c, w.items, k)))
  {
    WalkAscends(c, tables, p, None);
    WalkShows(c, tables, p, None, k);
    var w := WalkPages(c, tables, p);
    forall i, j | 0 <= i < j < |w.items|
      ensures !(w.items[i].id == k.id && w.items[j].id == k.id)
    {
      assert Less(KeyOf(w.items[i]), KeyOf(w.items[j]));
    }
    if i :| 0 <= i < |w.items| && w.items[i].id == k.id {
      assert KeyOf(w.items[i]) == k;
      assert i < |w.items| - 1 ==> Less(k, KeyOf(w.items[|w.items| - 1]));
    }
  }
}
