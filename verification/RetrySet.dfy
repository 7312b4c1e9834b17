/** The Redis sorted set that holds a group's queued retries: members in (score, text) order, each text once. */
module RetrySet {
  import opened Common

  datatype Member = Member(score: int, raw: string)

  /** Redis compares the texts of members with equal scores byte by byte, a proper prefix first. */
  predicate Less(a: string, b: string) {
    b != "" && (a == "" || a[0] < b[0] || (a[0] == b[0] && Less(a[1..], b[1..])))
  }

  predicate Before(m: Member, n: Member) {
    m.score < n.score || (m.score == n.score && Less(m.raw, n.raw))
  }

  predicate Sorted(z: seq<Member>) {
    forall i, j :: 0 <= i < j < |z| ==> Before(z[i], z[j])
  }

  predicate Distinct(z: seq<Member>) {
    forall i, j :: 0 <= i < j < |z| ==> z[i].raw != z[j].raw
  }

  predicate IsSet(z: seq<Member>) {
    Sorted(z) && Distinct(z)
  }

  lemma {:induction false} LessIsTotal(a: string, b: string)
    ensures a == b || Less(a, b) || Less(b, a)
  {
    if a != "" && b != "" && a[0] == b[0] {
      LessIsTotal(a[1..], b[1..]);
      assert a == [a[0]] + a[1..] && b == [b[0]] + b[1..];
    }
  }

  /** b follows a because a is a proper prefix of it, or has the smaller character where they first differ. */
  ghost predicate SmallerAt(a: string, b: string, k: nat) {
    k <= |a| && k < |b| && a[..k] == b[..k] && (k < |a| ==> a[k] < b[k])
  }

  lemma {:induction false} LessIsLexicographic(a: string, b: string)
    ensures Less(a, b) <==> exists k: nat :: SmallerAt(a, b, k)
  {
    if a == "" || b == "" || a[0] != b[0] {
      assert SmallerAt(a, b, 0) <==> Less(a, b);
      assert forall k: nat :: SmallerAt(a, b, k) && k > 0 ==> a[..k][0] == b[..k][0];
    } else {
      LessIsLexicographic(a[1..], b[1..]);
      forall k: nat ensures SmallerAt(a, b, k + 1) <==> SmallerAt(a[1..], b[1..], k) {
        if k < |a| && k + 1 < |b| {
          assert a[..k + 1] == [a[0]] + a[1..][..k] && b[..k + 1] == [b[0]] + b[1..][..k];
        }
      }
      if k: nat :| SmallerAt(a[1..], b[1..], k) {
        assert SmallerAt(a, b, k + 1);
      }
      if k: nat :| SmallerAt(a, b, k) {
        assert k > 0 && SmallerAt(a[1..], b[1..], k - 1);
      }
    }
  }

  /** Members by score, and with equal scores by text. */
  lemma SetInOrder(z: seq<Member>)
    requires IsSet(z)
    ensures forall i, j :: 0 <= i < j < |z| ==>
              || z[i].score < z[j].score
              || (z[i].score == z[j].score && exists k: nat :: SmallerAt(z[i].raw, z[j].raw, k))
  {
    hide Less, SmallerAt;
    forall i, j | 0 <= i < j < |z|
      ensures z[i].score < z[j].score
              || (z[i].score == z[j].score && exists k: nat :: SmallerAt(z[i].raw, z[j].raw, k))
    {
      assert Before(z[i], z[j]);
      LessIsLexicographic(z[i].raw, z[j].raw);
    }
  }

  lemma {:induction false} LessIsTransitive(a: string, b: string, c: string)
    requires Less(a, b) && Less(b, c)
    ensures Less(a, c)
  {
    if a != "" && b != "" && c != "" && a[0] == b[0] == c[0] {
      LessIsTransitive(a[1..], b[1..], c[1..]);
    }
  }

  lemma BeforeIsTransitive(a: Member, b: Member, c: Member)
    requires Before(a, b) && Before(b, c)
    ensures Before(a, c)
  {
    if a.score == b.score == c.score {
      LessIsTransitive(a.raw, b.raw, c.raw);
    }
  }

  // ----- ZREM and ZADD

  function Rem(z: seq<Member>, raw: string): seq<Member> {
    if z == [] then []
    else if z[0].raw == raw then z[1..]
    else [z[0]] + Rem(z[1..], raw)
  }

  function Insert(z: seq<Member>, m: Member): seq<Member> {
    if z == [] || Before(m, z[0]) then [m] + z else [z[0]] + Insert(z[1..], m)
  }

  function Add(z: seq<Member>, score: int, raw: string): seq<Member> {
    Insert(Rem(z, raw), Member(score, raw))
  }

  /** The head comes before everything in the tail. */
  lemma SetFromHead(z: seq<Member>)
    requires z != [] && IsSet(z[1..])
    requires forall n :: n in z[1..] ==> Before(z[0], n) && z[0].raw != n.raw
    ensures IsSet(z)
  {
    forall i, j | 0 <= i < j < |z| ensures Before(z[i], z[j]) && z[i].raw != z[j].raw {
      assert z[j] == z[1..][j - 1];
      assert i > 0 ==> z[i] == z[1..][i - 1];
    }
  }

  lemma TailIsSet(z: seq<Member>)
    requires IsSet(z) && z != []
    ensures IsSet(z[1..])
    ensures forall n :: n in z[1..] ==> Before(z[0], n) && z[0].raw != n.raw
  {
    forall n | n in z[1..] ensures Before(z[0], n) && z[0].raw != n.raw {
      var i :| 0 <= i < |z[1..]| && z[1..][i] == n;
      assert z[i + 1] == n;
    }
  }

  /** ZREM takes out that text and nothing else. */
  lemma {:induction false} RemIsExact(z: seq<Member>, raw: string)
    requires IsSet(z)
    ensures IsSet(Rem(z, raw))
    ensures forall m :: m in Rem(z, raw) <==> m in z && m.raw != raw
  {
    if z != [] {
      TailIsSet(z);
      if z[0].raw != raw {
        RemIsExact(z[1..], raw);
        var r := Rem(z, raw);
        assert r[1..] == Rem(z[1..], raw);
        SetFromHead(r);
      }
      assert z == [z[0]] + z[1..];
    }
  }

  lemma {:induction false} InsertIsExact(z: seq<Member>, m: Member)
    requires IsSet(z) && forall n :: n in z ==> n.raw != m.raw
    ensures IsSet(Insert(z, m))
    ensures forall n :: n in Insert(z, m) <==> n == m || n in z
  {
    if z != [] {
      TailIsSet(z);
      assert z == [z[0]] + z[1..];
      var r := Insert(z, m);
      if Before(m, z[0]) {
        forall n | n in z ensures Before(m, n) {
          if n != z[0] {
            BeforeIsTransitive(m, z[0], n);
          }
        }
        assert r[1..] == z;
      } else {
        InsertIsExact(z[1..], m);
        LessIsTotal(m.raw, z[0].raw);
        assert r[1..] == Insert(z[1..], m);
      }
      SetFromHead(r);
    }
  }

  /** ZADD sets one member's score and leaves the others alone. */
  lemma AddIsExact(z: seq<Member>, score: int, raw: string)
    requires IsSet(z)
    ensures IsSet(Add(z, score, raw))
    ensures forall m :: m in Add(z, score, raw) <==> m == Member(score, raw) || (m in z && m.raw != raw)
  {
    RemIsExact(z, raw);
    InsertIsExact(Rem(z, raw), Member(score, raw));
  }

  // ----- ZRANGEBYSCORE

  /** ZRANGEBYSCORE -inf max LIMIT 0 limit. */
  function RangeByScore(z: seq<Member>, max: int, limit: nat): seq<string> {
    if z == [] || limit == 0 then []
    else if z[0].score <= max then [z[0].raw] + RangeByScore(z[1..], max, limit - 1)
    else RangeByScore(z[1..], max, limit)
  }

  /** How many members are due. */
  function DueCount(z: seq<Member>, max: int): (n: nat)
    ensures n <= |z|
  {
    if z == [] then 0 else DueCount(z[1..], max) + if z[0].score <= max then 1 else 0
  }

  function Texts(z: seq<Member>): (r: seq<string>)
    ensures |r| == |z| && forall i :: 0 <= i < |z| ==> r[i] == z[i].raw
  {
    seq(|z|, i requires 0 <= i < |z| => z[i].raw)
  }

  /** Being sorted, the due members are the first ones, and the range is a prefix of them. */
  lemma {:induction false} RangeIsPrefix(z: seq<Member>, max: int, limit: nat)
    requires IsSet(z)
    ensures forall i :: 0 <= i < |z| ==> (z[i].score <= max <==> i < DueCount(z, max))
    ensures RangeByScore(z, max, limit) == Texts(z[..Min(limit, DueCount(z, max))])
  {
    if z != [] {
      TailIsSet(z);
      RangeIsPrefix(z[1..], max, if z[0].score <= max && limit > 0 then limit - 1 else limit);
      if z[0].score > max {
        forall n | n in z[1..] ensures n.score > max {
        }
        assert DueCount(z[1..], max) == 0 by {
          assert z[1..] != [] ==> z[1..][0] in z[1..];
        }
      } else if limit > 0 {
        var k := Min(limit - 1, DueCount(z[1..], max));
        assert z[..k + 1] == [z[0]] + z[1..][..k];
      }
    }
  }

  // ----- The set as a map from what its texts stand for to scores

  ghost predicate Represents<C(!new)>(z: seq<Member>, r: map<C, int>, text: C -> string) {
    && IsSet(z)
    && (forall c :: c in r ==> Member(r[c], text(c)) in z)
    && (forall m :: m in z ==> exists c :: c in r && m == Member(r[c], text(c)))
  }

  /** ZADD is the map update, when no two keys share a text. */
  lemma AddRepresents<C(!new)>(z: seq<Member>, r: map<C, int>, text: C -> string, c: C, score: int)
    requires Represents(z, r, text) && forall d :: d in r && text(d) == text(c) ==> d == c
    ensures Represents(Add(z, score, text(c)), r[c := score], text)
  {
    var y, q := Add(z, score, text(c)), r[c := score];
    AddIsExact(z, score, text(c));
    forall m | m in y ensures exists d :: d in q && m == Member(q[d], text(d)) {
      if m in z && m.raw != text(c) {
        var d :| d in r && m == Member(r[d], text(d));
        assert d in q && m == Member(q[d], text(d));
      } else {
        assert c in q && m == Member(q[c], text(c));
      }
    }
  }

  /** ZREM is the map removal. */
  lemma RemRepresents<C(!new)>(z: seq<Member>, r: map<C, int>, text: C -> string, c: C)
    requires Represents(z, r, text) && forall d :: d in r && text(d) == text(c) ==> d == c
    ensures Represents(Rem(z, text(c)), r - {c}, text)
  {
    var y, q := Rem(z, text(c)), r - {c};
    RemIsExact(z, text(c));
    forall m | m in y ensures exists d :: d in q && m == Member(q[d], text(d)) {
      var d :| d in r && m == Member(r[d], text(d));
      assert d in q && m == Member(q[d], text(d));
    }
  }
}
