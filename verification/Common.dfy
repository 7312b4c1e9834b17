/** Result types and the finite sums that the potential arguments of the two delivery protocols share. */
module Common {

  datatype Option<+T> = None | Some(value: T)

  datatype Result<+T, +E> = Ok(value: T) | Err(error: E)

  function Min(a: int, b: int): int {
    if a <= b then a else b
  }

  /** The sequence without its element at index i. */
  function RemoveAt<T>(s: seq<T>, i: nat): seq<T>
    requires i < |s|
  {
    s[..i] + s[i + 1..]
  }

  function Sum<T>(s: seq<T>, weight: T -> int): int {
    if s == [] then 0 else weight(s[0]) + Sum(s[1..], weight)
  }

  lemma {:induction false} SumConcat<T>(a: seq<T>, b: seq<T>, weight: T -> int)
    ensures Sum(a + b, weight) == Sum(a, weight) + Sum(b, weight)
  {
    if a == [] {
      assert a + b == b;
    } else {
      assert (a + b)[1..] == a[1..] + b;
      SumConcat(a[1..], b, weight);
    }
  }

  lemma SumAppend<T>(s: seq<T>, x: T, weight: T -> int)
    ensures Sum(s + [x], weight) == Sum(s, weight) + weight(x)
  {
    SumConcat(s, [x], weight);
    assert Sum([x], weight) == weight(x) + Sum([x][1..], weight);
  }

  lemma SumSplit<T>(s: seq<T>, i: nat, weight: T -> int)
    requires i < |s|
    ensures Sum(s, weight) == Sum(s[..i], weight) + weight(s[i]) + Sum(s[i + 1..], weight)
  {
    assert s == s[..i] + s[i..];
    SumConcat(s[..i], s[i..], weight);
    assert s[i..][1..] == s[i + 1..];
  }

  lemma SumUpdate<T>(s: seq<T>, i: nat, x: T, weight: T -> int)
    requires i < |s|
    ensures Sum(s[i := x], weight) == Sum(s, weight) - weight(s[i]) + weight(x)
  {
    SumSplit(s, i, weight);
    SumSplit(s[i := x], i, weight);
    assert s[i := x][..i] == s[..i] && s[i := x][i + 1..] == s[i + 1..];
  }

  lemma SumRemove<T>(s: seq<T>, i: nat, weight: T -> int)
    requires i < |s|
    ensures Sum(RemoveAt(s, i), weight) == Sum(s, weight) - weight(s[i])
  {
    SumSplit(s, i, weight);
    SumConcat(s[..i], s[i + 1..], weight);
  }

  lemma {:induction false} SumNonNegative<T>(s: seq<T>, weight: T -> int)
    requires forall x :: x in s ==> weight(x) >= 0
    ensures Sum(s, weight) >= 0
  {
    if s != [] {
      SumNonNegative(s[1..], weight);
    }
  }

  lemma {:induction false} SumZero<T>(s: seq<T>, weight: T -> int)
    requires forall x :: x in s ==> weight(x) == 0
    ensures Sum(s, weight) == 0
  {
    if s != [] {
      SumZero(s[1..], weight);
    }
  }

  /** m * n by repeated addition. */
  function Times(m: int, n: nat): int {
    if n == 0 then 0 else m + Times(m, n - 1)
  }

  lemma {:induction false} TimesIsProduct(m: int, n: nat)
    ensures Times(m, n) == m * n
  {
    if n > 0 {
      TimesIsProduct(m, n - 1);
      assert m * n == m * (n - 1) + m;
    }
  }

  lemma {:induction false} TimesNonNegative(m: int, n: nat)
    requires m >= 0
    ensures Times(m, n) >= 0
  {
    if n > 0 {
      TimesNonNegative(m, n - 1);
    }
  }

  lemma {:induction false} TimesMonotone(a: int, b: int, n: nat)
    requires a <= b
    ensures Times(a, n) <= Times(b, n)
  {
    if n > 0 {
      TimesMonotone(a, b, n - 1);
    }
  }

  lemma {:induction false} TimesAdd(m: int, a: nat, b: nat)
    ensures Times(m, a + b) == Times(m, a) + Times(m, b)
  {
    if b > 0 {
      TimesAdd(m, a, b - 1);
    }
  }

  /** A weight that grows by the same amount everywhere. */
  lemma {:induction false} SumShift<T>(s: seq<T>, before: T -> int, after: T -> int, x: int)
    requires forall e :: e in s ==> after(e) == before(e) + x
    ensures Sum(s, after) == Sum(s, before) + Times(x, |s|)
  {
    if s != [] {
      SumShift(s[1..], before, after, x);
    }
  }

  // ----- Sequences as bags

  lemma BagRemove<T>(s: seq<T>, i: nat)
    requires i < |s|
    ensures multiset(RemoveAt(s, i)) == multiset(s) - multiset{s[i]}
  {
    assert s == s[..i] + [s[i]] + s[i + 1..];
  }

  lemma BagUpdate<T>(s: seq<T>, i: nat, x: T)
    requires i < |s|
    ensures multiset(s[i := x]) == multiset(s) - multiset{s[i]} + multiset{x}
  {
    assert s == s[..i] + [s[i]] + s[i + 1..];
    assert s[i := x] == s[..i] + [x] + s[i + 1..];
  }

  lemma BagIndex<T>(s: seq<T>, x: T) returns (i: nat)
    requires x in multiset(s)
    ensures i < |s| && s[i] == x
  {
    i :| i < |s| && s[i] == x;
  }

  /** What is left of a bag of one's own when one of its elements is replaced or taken away. */
  lemma OthersStay<T>(s: seq<T>, after: seq<T>, i: nat, x: T, others: multiset<T>)
    requires i < |s| && others + multiset{s[i]} <= multiset(s)
    ensures after == s[i := x] ==> others + multiset{x} <= multiset(after)
    ensures after == RemoveAt(s, i) ==> others <= multiset(after)
  {
    BagUpdate(s, i, x);
    BagRemove(s, i);
  }

  // ----- Division

  lemma AtLeastOnce(d: int, m: int)
    requires d >= 1 && m > 0
    ensures d * m >= m
  {
  }

  lemma Quotient(n: int, m: int, q: int, r: int)
    requires m > 0 && n == q * m + r && 0 <= r < m
    ensures n / m == q && n % m == r
  {
    var d := n / m - q;
    assert n == n / m * m + n % m;
    assert d * m == n / m * m - q * m && (-d) * m == -(d * m);
    if d >= 1 {
      AtLeastOnce(d, m);
    } else if d <= -1 {
      AtLeastOnce(-d, m);
    }
  }
}
