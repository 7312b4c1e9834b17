/** A table on which paging ends early, because its first page ends in the year 10000. */
module ReminderBoundary {
  import opened Common
  import opened Decimal
  import opened ReminderModel
  import opened ReminderQuery

  // ----- A lawful codec that refuses years above 9999

  /** Nanoseconds from 1970 to the first instant whose year has five digits. */
  const YEAR_10000: Time := 253_402_300_800_000_000_000

  function IntValue(s: string): Option<int> {
    if s != "" && s[0] == '-' then
      if AllDigits(s[1..]) then Some(-(DigitsValue(s[1..]) as int)) else None
    else if AllDigits(s) then Some(DigitsValue(s)) else None
  }

  function BeforeComma(s: string): (n: nat)
    ensures n <= |s|
  {
    if s == "" || s[0] == ',' then 0 else 1 + BeforeComma(s[1..])
  }

  function Encode(k: Key): string {
    Itoa(k.scheduleAt) + "," + Itoa(k.id)
  }

  function Decode(s: string): Option<Key> {
    var n := BeforeComma(s);
    if n == |s| then None
    else match (IntValue(s[..n]), IntValue(s[n + 1..]))
      case (Some(at), Some(id)) => Some(Key(at, id))
      case _ => None
  }

  const DecimalCodec := CursorCodec((t: Time) => t < YEAR_10000, Encode, Decode)

  lemma IntValueInvertsItoa(n: int)
    ensures IntValue(Itoa(n)) == Some(n) && ',' !in Itoa(n)
  {
    hide NatText, DigitsValue;
    var body := NatText(if n < 0 then -n else n);
    NatTextValue(if n < 0 then -n else n);
    assert ',' !in body && body[0] != '-' by {
      assert IsDigit(body[0]) && forall i :: 0 <= i < |body| ==> IsDigit(body[i]);
    }
    if n < 0 {
      assert Itoa(n) == ['-'] + body && Itoa(n)[1..] == body;
    }
  }

  lemma {:induction false} CommaFollows(a: string, b: string)
    requires ',' !in a
    ensures BeforeComma(a + "," + b) == |a|
  {
    var s := a + "," + b;
    if a == "" {
      assert s[0] == ',';
    } else {
      assert s[1..] == a[1..] + "," + b;
      CommaFollows(a[1..], b);
    }
  }

  lemma DecimalCodecIsLawful()
    ensures DecimalCodec.Lawful()
  {
    forall k: Key ensures Decode(Encode(k)) == Some(k) && Encode(k) != "" {
      var a, b := Itoa(k.scheduleAt), Itoa(k.id);
      IntValueInvertsItoa(k.scheduleAt);
      IntValueInvertsItoa(k.id);
      CommaFollows(a, b);
      assert (a + "," + b)[..|a|] == a && (a + "," + b)[|a| + 1..] == b;
    }
  }

  // ----- Two rows, one to a page

  function LateRow(id: int): Row {
    Row(id, "key", "user", "channel", "payload", YEAR_10000 + id, Pending, 0, 1, "", None, None, 1, 1)
  }

  function LateTable(): Table {
    map[1 := LateRow(1), 2 := LateRow(2)]
  }

  const ONE_A_PAGE := ListParams("", "", [], 0, 0, 1, "")

  lemma LateRowsSelected()
    ensures Selected(FilterOf(ONE_A_PAGE), LateRow(1)) && Selected(FilterOf(ONE_A_PAGE), LateRow(2))
    ensures Less(KeyOf(LateRow(1)), KeyOf(LateRow(2))) && LateRow(1).id == 1 && LateRow(2).id == 2
  {
  }

  lemma TwoRowsRemain(m: Table, f: Filter, a: Row, b: Row)
    requires a.id == 1 && b.id == 2 && m == map[1 := a, 2 := b]
    requires Selected(f, a) && Selected(f, b) && Less(KeyOf(a), KeyOf(b))
    ensures Remaining(m, f, None) == [a, b]
  {
    hide Selected, KeyOf, Less;
    var all := Remaining(m, f, None);
    forall r ensures r in all <==> r in [a, b] {
      assert r in [a, b] <==> r == a || r == b;
      assert r in all <==> r.id in m && m[r.id] == r && Selected(f, r);
    }
    assert Ascending([a, b]);
    AscendingIsUnique(all, [a, b]);
  }

  lemma LateRowsRemain()
    ensures Remaining(LateTable(), FilterOf(ONE_A_PAGE), None) == [LateRow(1), LateRow(2)]
  {
    LateRowsSelected();
    hide Selected, FilterOf, LateRow, KeyOf, Less;
    TwoRowsRemain(LateTable(), FilterOf(ONE_A_PAGE), LateRow(1), LateRow(2));
  }

  lemma StopsAtFirst(c: CursorCodec, pager: Pager, a: Row, b: Row)
    requires Serves(pager, c, 1, "", [a, b]) && !c.marshals(a.scheduleAt)
    ensures FollowPages(pager, "", 3) == Some([a])
  {
    hide FollowPages, Serves;
    var all := [a, b];
    ServedIsPaged(pager, c, 1, "", all, 3);
    assert all[..1] == [a];
  }

  /** Following NextCursor from the start yields the first row and stops: the second is never listed. */
  lemma PagingStopsEarly()
    ensures DecimalCodec.Lawful() && Storable(LateTable())
    ensures Remaining(LateTable(), FilterOf(ONE_A_PAGE), None) == [LateRow(1), LateRow(2)]
    ensures FollowPages(Lister(DecimalCodec, LateTable(), ONE_A_PAGE), "", 3) == Some([LateRow(1)])
  {
    hide FilterOf, Selected, CursorCodec.Lawful, Encode, Decode, Remaining, FollowPages, Serves, List, Lister;
    DecimalCodecIsLawful();
    LateRowsRemain();
    var all := [LateRow(1), LateRow(2)];
    assert Remains(LateTable(), FilterOf(ONE_A_PAGE), None, Remaining(LateTable(), FilterOf(ONE_A_PAGE), None));
    ListerServes(DecimalCodec, LateTable(), ONE_A_PAGE, "", None, all);
    StopsAtFirst(DecimalCodec, Lister(DecimalCodec, LateTable(), ONE_A_PAGE), LateRow(1), LateRow(2));
  }
}
