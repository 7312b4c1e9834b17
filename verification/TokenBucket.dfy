/**
 The process-local rate limiter (middleware/production.go). The code keeps two variables, the
 tokens and the time of the last request; the specification below is a statement about every
 window of the request history. Time is in nanoseconds, tokens are exact reals.
 */
module TokenBucket {

  const NANOS_PER_SECOND: real := 1000000000.0

  /** One request and the limiter's answer. */
  datatype Answer = Answer(at: int, admitted: bool)

  type History = seq<Answer>

  /**
   Limiter parameters. `level` gives the tokens accrued by an instant; the argument below needs
   only that it never falls. RateLevel is the code's.
   */
  datatype Limit = Limit(burst: int, created: int, level: int -> real) {
    ghost predicate Valid() {
      && 0 < burst
      && forall a, b :: a <= b ==> level(a) <= level(b)
    }

    /** Tokens that accrue between two instants. */
    function Accrued(start: int, end: int): real {
      level(end) - level(start)
    }

    /** The most requests a window from start to end may admit. */
    function Allowance(start: int, end: int): real {
      burst as real + Accrued(start, end)
    }
  }

  /** Accrual at `rate` tokens a second. */
  function RateLevel(rate: int): int -> real {
    at => at as real * rate as real / NANOS_PER_SECOND
  }

  predicate Ordered(lim: Limit, h: History) {
    && (forall i :: 0 <= i < |h| ==> lim.created <= h[i].at)
    && (forall i, j :: 0 <= i < j < |h| ==> h[i].at <= h[j].at)
  }

  function LastTime(lim: Limit, h: History): int {
    if h == [] then lim.created else h[|h| - 1].at
  }

  function Admitted(h: History): nat {
    if h == [] then 0
    else Admitted(h[..|h| - 1]) + if h[|h| - 1].admitted then 1 else 0
  }

  // ----- The quantified limiter

  /** One more request at time `now` keeps the window that starts with request i within its allowance. */
  ghost predicate FitsWindow(lim: Limit, h: History, now: int, i: nat)
    requires i < |h|
  {
    Admitted(h[i..]) as real + 1.0 <= lim.Allowance(h[i].at, now)
  }

  /** One more request at time `now` keeps every window within its allowance. */
  ghost predicate Admissible(lim: Limit, h: History, now: int) {
    && Admitted(h) as real + 1.0 <= lim.Allowance(lim.created, now)
    && forall i :: 0 <= i < |h| ==> FitsWindow(lim, h, now, i)
  }

  /** A history in which every admission was admissible: any limiter that respects all windows. */
  ghost predicate RespectsWindows(lim: Limit, h: History) {
    forall n :: 0 <= n < |h| && h[n].admitted ==> Admissible(lim, h[..n], h[n].at)
  }

  /** The history the greedy quantified limiter produces: it admits exactly what is admissible. */
  ghost predicate Greedy(lim: Limit, h: History) {
    forall n :: 0 <= n < |h| ==> (h[n].admitted <==> Admissible(lim, h[..n], h[n].at))
  }

  // ----- The two-variable form

  function Min(a: real, b: real): real {
    if b > a then a else b
  }

  function Refill(lim: Limit, tokens: real, last: int, now: int): real {
    Min(lim.burst as real, tokens + lim.Accrued(last, now))
  }

  /** Tokens left after a history of requests, as the code's two variables account for them. */
  function Tokens(lim: Limit, h: History): real {
    if h == [] then lim.burst as real
    else
      var before := h[..|h| - 1];
      var t := Refill(lim, Tokens(lim, before), LastTime(lim, before), h[|h| - 1].at);
      if h[|h| - 1].admitted then t - 1.0 else t
  }

  /** What the code would decide for a request at `now`. */
  function Allows(lim: Limit, h: History, now: int): bool {
    Refill(lim, Tokens(lim, h), LastTime(lim, h), now) >= 1.0
  }

  // ----- Arithmetic of accrual

  lemma RateLevelIsRateTimesSeconds(rate: int, start: int, end: int)
    ensures RateLevel(rate)(end) - RateLevel(rate)(start) == (end - start) as real / 1_000_000_000.0 * rate as real
  {
    var a, b, r := start as real, end as real, rate as real;
    assert (end - start) as real == b - a;
    assert (b - a) * r == b * r - a * r;
  }

  /** A billion nanoseconds bring `rate` tokens. */
  lemma SecondBringsRate(rate: int, at: int)
    ensures RateLevel(rate)(at + 1_000_000_000) - RateLevel(rate)(at) == rate as real
  {
    RateLevelIsRateTimesSeconds(rate, at, at + 1_000_000_000);
  }

  lemma RateLevelNeverFalls(rate: int)
    requires rate > 0
    ensures forall a, b :: a <= b ==> RateLevel(rate)(a) <= RateLevel(rate)(b)
  {
    forall a: int, b: int | a <= b
      ensures RateLevel(rate)(a) <= RateLevel(rate)(b)
    {
      assert (b - a) as real * rate as real >= 0.0;
      RateLevelIsRateTimesSeconds(rate, a, b);
    }
  }

  lemma {:induction false} AdmittedConcat(a: History, b: History)
    ensures Admitted(a + b) == Admitted(a) + Admitted(b)
  {
    if b == [] {
      assert a + b == a;
    } else {
      assert (a + b)[..|a + b| - 1] == a + b[..|b| - 1];
      AdmittedConcat(a, b[..|b| - 1]);
    }
  }

  // ----- The fast form equals the quantified form

  /** What the window that starts with request i still allows at `now`. */
  function Slack(lim: Limit, h: History, now: int, i: nat): real
    requires i < |h|
  {
    lim.Allowance(h[i].at, now) - Admitted(h[i..]) as real
  }

  /** t is a lower envelope: no window has less left, and burst or some window is exactly t. */
  ghost predicate Envelope(lim: Limit, h: History, now: int, t: real) {
    && t <= lim.burst as real
    && t <= lim.Allowance(lim.created, now) - Admitted(h) as real
    && (forall i :: 0 <= i < |h| ==> t <= Slack(lim, h, now, i))
    && (t == lim.burst as real || exists i :: 0 <= i < |h| && t == Slack(lim, h, now, i))
  }

  /** How one more answer and a later instant change the slack of a window. */
  lemma SlackShifts(lim: Limit, b: History, q: Answer, now: int, i: nat)
    requires i <= |b|
    ensures i < |b| ==>
              Slack(lim, b + [q], now, i)
              == Slack(lim, b, q.at, i) - (if q.admitted then 1.0 else 0.0) + lim.Accrued(q.at, now)
    ensures i == |b| ==>
              Slack(lim, b + [q], now, i)
              == lim.burst as real - (if q.admitted then 1.0 else 0.0) + lim.Accrued(q.at, now)
  {
    assert (b + [q])[i..] == b[i..] + [q];
    AdmittedConcat(b[i..], [q]);
    assert [q][..0] == [];
  }

  lemma EnvelopeStep(lim: Limit, b: History, q: Answer, now: int, t: real, r: real)
    requires lim.Valid() && q.at <= now && Envelope(lim, b, q.at, t)
    requires r == Min(lim.burst as real, t - (if q.admitted then 1.0 else 0.0) + lim.Accrued(q.at, now))
    ensures Envelope(lim, b + [q], now, r)
  {
    var h := b + [q];
    AdmittedConcat(b, [q]);
    assert [q][..0] == [];
    forall i | 0 <= i < |h|
      ensures r <= Slack(lim, h, now, i)
    {
      SlackShifts(lim, b, q, now, i);
    }
    if r != lim.burst as real {
      if t == lim.burst as real {
        SlackShifts(lim, b, q, now, |b|);
        assert r == Slack(lim, h, now, |b|);
      } else {
        var i :| 0 <= i < |b| && t == Slack(lim, b, q.at, i);
        SlackShifts(lim, b, q, now, i);
        assert r == Slack(lim, h, now, i);
      }
    }
  }

  lemma {:induction false} RefillIsEnvelope(lim: Limit, h: History, now: int)
    requires lim.Valid() && Ordered(lim, h) && LastTime(lim, h) <= now
    ensures Envelope(lim, h, now, Refill(lim, Tokens(lim, h), LastTime(lim, h), now))
  {
    if h != [] {
      var b := h[..|h| - 1];
      var q := h[|h| - 1];
      assert Ordered(lim, b) && LastTime(lim, b) <= q.at;
      RefillIsEnvelope(lim, b, q.at);
      assert h == b + [q];
      EnvelopeStep(lim, b, q, now, Refill(lim, Tokens(lim, b), LastTime(lim, b), q.at),
                   Refill(lim, Tokens(lim, h), LastTime(lim, h), now));
    }
  }

  /** The constant-space test decides exactly the quantified condition, on every ordered history. */
  lemma FastFormIsExact(lim: Limit, h: History, now: int)
    requires lim.Valid() && Ordered(lim, h) && LastTime(lim, h) <= now
    ensures Allows(lim, h, now) <==> Admissible(lim, h, now)
  {
    RefillIsEnvelope(lim, h, now);
    var t := Refill(lim, Tokens(lim, h), LastTime(lim, h), now);
    if Allows(lim, h, now) {
      forall i | 0 <= i < |h| ensures FitsWindow(lim, h, now, i) {
        assert t <= Slack(lim, h, now, i);
      }
    } else {
      var i :| 0 <= i < |h| && t == Slack(lim, h, now, i);
      assert !FitsWindow(lim, h, now, i);
    }
  }

  // ----- Consequences for whole runs

  /** Tokens never leave [0, burst] when every admission passed the test. */
  lemma {:induction false} TokensStayInRange(lim: Limit, h: History)
    requires lim.Valid() && Ordered(lim, h) && RespectsWindows(lim, h)
    ensures 0.0 <= Tokens(lim, h) <= lim.burst as real
  {
    if h != [] {
      var b := h[..|h| - 1];
      var q := h[|h| - 1];
      PrefixRespects(lim, h, |h| - 1);
      TokensStayInRange(lim, b);
      if q.admitted {
        assert Admissible(lim, h[..|h| - 1], q.at);
        FastFormIsExact(lim, b, q.at);
      }
    }
  }

  lemma PrefixRespects(lim: Limit, h: History, n: nat)
    requires n <= |h| && RespectsWindows(lim, h)
    ensures RespectsWindows(lim, h[..n])
  {
    forall k | 0 <= k < n && h[..n][k].admitted
      ensures Admissible(lim, h[..n][..k], h[..n][k].at)
    {
      assert h[..n][..k] == h[..k];
      assert h[k].admitted;
    }
  }

  /** The requests admitted at instants in [start, end]. */
  function AdmittedWithin(h: History, start: int, end: int): nat {
    if h == [] then 0
    else
      var q := h[|h| - 1];
      AdmittedWithin(h[..|h| - 1], start, end) + if q.admitted && start <= q.at <= end then 1 else 0
  }

  lemma {:induction false} WithinAtMostSuffix(lim: Limit, h: History, i: nat, start: int, end: int)
    requires Ordered(lim, h) && i <= |h|
    requires forall k :: 0 <= k < i ==> h[k].at < start
    ensures AdmittedWithin(h, start, end) <= Admitted(h[i..])
  {
    if h != [] {
      var b := h[..|h| - 1];
      if i == |h| {
        assert h[i..] == [];
        WithinAtMostSuffix(lim, b, |b|, start, end);
        assert b[|b|..] == [];
      } else {
        WithinAtMostSuffix(lim, b, i, start, end);
        assert h[i..][..|h[i..]| - 1] == b[i..];
      }
    }
  }

  /** The index of the first request at or after start. */
  function FirstFrom(h: History, start: int): (i: nat)
    ensures i <= |h|
    ensures forall k :: 0 <= k < i ==> h[k].at < start
    ensures i < |h| ==> h[i].at >= start
  {
    if h == [] || h[0].at >= start then 0
    else
      var i := FirstFrom(h[1..], start);
      assert forall k :: 0 < k < i + 1 ==> h[k] == h[1..][k - 1];
      i + 1
  }

  /**
   Over any run of any window-respecting limiter, between any two instants at most
   burst + rate * (end - start) requests are admitted.
   */
  lemma {:induction false} WindowBound(lim: Limit, h: History, start: int, end: int)
    requires lim.Valid() && Ordered(lim, h) && RespectsWindows(lim, h) && start <= end
    ensures AdmittedWithin(h, start, end) as real <= lim.Allowance(start, end)
  {
    if h != [] {
      var b := h[..|h| - 1];
      var q := h[|h| - 1];
      PrefixRespects(lim, h, |h| - 1);
      if q.admitted && start <= q.at <= end {
        assert Admissible(lim, h[..|h| - 1], q.at);
        var i := FirstFrom(b, start);
        WithinAtMostSuffix(lim, b, i, start, end);
        if i < |b| {
          assert FitsWindow(lim, b, q.at, i);
        } else {
          assert b[i..] == [];
        }
      } else {
        WindowBound(lim, b, start, end);
      }
    }
  }

  /** Positions of the requests admitted at instants in [start, end]. */
  ghost function AdmittedAt(h: History, start: int, end: int): set<int> {
    set k | 0 <= k < |h| && h[k].admitted && start <= h[k].at <= end
  }

  lemma {:induction false} AdmittedWithinCounts(h: History, start: int, end: int)
    ensures AdmittedWithin(h, start, end) == |AdmittedAt(h, start, end)|
  {
    if h != [] {
      var n := |h| - 1;
      AdmittedWithinCounts(h[..n], start, end);
      var q, before := h[n], AdmittedAt(h[..n], start, end);
      assert AdmittedAt(h, start, end) == if q.admitted && start <= q.at <= end then before + {n} else before;
    }
  }

  /** What the middleware's limiter admits between two instants: no more than the burst and the rate's share. */
  lemma RateWindowBound(rate: int, burst: int, created: int, h: History, start: int, end: int)
    requires rate > 0 && burst > 0 && start <= end
    requires Ordered(Limit(burst, created, RateLevel(rate)), h)
    requires RespectsWindows(Limit(burst, created, RateLevel(rate)), h)
    ensures |AdmittedAt(h, start, end)| as real
            <= burst as real + (end - start) as real / 1_000_000_000.0 * rate as real
  {
    var lim := Limit(burst, created, RateLevel(rate));
    RateLevelNeverFalls(rate);
    WindowBound(lim, h, start, end);
    AdmittedWithinCounts(h, start, end);
    RateLevelIsRateTimesSeconds(rate, start, end);
  }

  /** One more request at `now` keeps the window from `start` within the burst and the rate's share of its length. */
  predicate Fits(rate: int, burst: int, admitted: nat, start: int, now: int) {
    admitted as real + 1.0 <= burst as real + (now - start) as real / 1_000_000_000.0 * rate as real
  }

  /** What the limiter's answer means for its captured numbers. */
  lemma AdmissibleByRate(rate: int, burst: int, created: int, h: History, now: int)
    ensures Admissible(Limit(burst, created, RateLevel(rate)), h, now) <==>
              && Fits(rate, burst, Admitted(h), created, now)
              && forall i :: 0 <= i < |h| ==> Fits(rate, burst, Admitted(h[i..]), h[i].at, now)
  {
    hide RateLevel;
    var lim := Limit(burst, created, RateLevel(rate));
    RateLevelIsRateTimesSeconds(rate, created, now);
    forall i | 0 <= i < |h|
      ensures FitsWindow(lim, h, now, i) <==> Fits(rate, burst, Admitted(h[i..]), h[i].at, now)
    {
      RateLevelIsRateTimesSeconds(rate, h[i].at, now);
    }
  }

  lemma GreedyRespectsWindows(lim: Limit, h: History)
    requires Greedy(lim, h)
    ensures RespectsWindows(lim, h)
  {
  }

  /** The last answer of a greedy history is the fast test's. */
  lemma GreedyLast(lim: Limit, b: History, q: Answer)
    requires lim.Valid() && Ordered(lim, b + [q]) && Greedy(lim, b + [q])
    ensures Ordered(lim, b) && Greedy(lim, b)
    ensures q.admitted <==> Allows(lim, b, q.at)
  {
    var h := b + [q];
    assert forall i :: 0 <= i < |b| ==> h[i] == b[i];
    forall k | 0 <= k < |b|
      ensures b[k].admitted <==> Admissible(lim, b[..k], b[k].at)
    {
      assert h[..k] == b[..k] && h[k] == b[k];
    }
    assert h[..|b|] == b && h[|b|] == q;
    FastFormIsExact(lim, b, q.at);
  }

  lemma RespectingLast(lim: Limit, b: History, q: Answer)
    requires lim.Valid() && Ordered(lim, b + [q]) && RespectsWindows(lim, b + [q])
    ensures Ordered(lim, b) && RespectsWindows(lim, b)
    ensures q.admitted ==> Allows(lim, b, q.at)
  {
    var h := b + [q];
    assert forall i :: 0 <= i < |b| ==> h[i] == b[i];
    PrefixRespects(lim, h, |b|);
    assert h[..|b|] == b && h[|b|] == q;
    FastFormIsExact(lim, b, q.at);
  }

  lemma OrderedExtends(lim: Limit, b: History, q: Answer)
    requires Ordered(lim, b) && LastTime(lim, b) <= q.at
    ensures Ordered(lim, b + [q])
  {
  }

  lemma GreedyExtends(lim: Limit, b: History, q: Answer)
    requires lim.Valid() && Ordered(lim, b) && Greedy(lim, b) && LastTime(lim, b) <= q.at
    requires q.admitted <==> Admissible(lim, b, q.at)
    ensures Ordered(lim, b + [q]) && Greedy(lim, b + [q])
  {
    hide Admissible, Ordered, LastTime, Limit.Valid;
    OrderedExtends(lim, b, q);
    var h := b + [q];
    forall n | 0 <= n < |h|
      ensures h[n].admitted <==> Admissible(lim, h[..n], h[n].at)
    {
      if n < |b| {
        assert h[..n] == b[..n] && h[n] == b[n];
      } else {
        assert h[..n] == b;
      }
    }
  }

  lemma AnswerStep(lim: Limit, b: History, q: Answer)
    ensures Admitted(b + [q]) == Admitted(b) + if q.admitted then 1 else 0
    ensures Tokens(lim, b + [q]) == Refill(lim, Tokens(lim, b), LastTime(lim, b), q.at) - if q.admitted then 1.0
        else 0.0
  {
    assert (b + [q])[..|b|] == b;
  }

  /** One request answered by both limiters keeps the token gap within the admission gap. */
  lemma GapStep(burst: real, tg: real, to: real, gap: int, accrued: real, ag: bool, ao: bool)
    requires to <= tg + gap as real && gap >= 0 && to <= burst
    requires ag <==> Min(burst, tg + accrued) >= 1.0
    requires ao ==> Min(burst, to + accrued) >= 1.0
    ensures
      var gap' := gap + (if ag then 1 else 0) - (if ao then 1 else 0);
      && gap' >= 0
      && Min(burst, to + accrued) - (if ao then 1.0 else 0.0)
         <= Min(burst, tg + accrued) - (if ag then 1.0 else 0.0) + gap' as real
  {
  }

  lemma TokensAtMostBurst(lim: Limit, h: History)
    ensures Tokens(lim, h) <= lim.burst as real
  {
  }

  /** One more request, answered by both limiters at the same time. */
  lemma GreedyStep(lim: Limit, g: History, o: History, p: Answer, q: Answer)
    requires Admitted(g) >= Admitted(o)
    requires Tokens(lim, o) <= Tokens(lim, g) + (Admitted(g) - Admitted(o)) as real
    requires Tokens(lim, o) <= lim.burst as real
    requires p.at == q.at && LastTime(lim, g) == LastTime(lim, o)
    requires p.admitted <==> Allows(lim, g, p.at)
    requires q.admitted ==> Allows(lim, o, q.at)
    ensures Admitted(g + [p]) >= Admitted(o + [q])
    ensures Tokens(lim, o + [q]) <= Tokens(lim, g + [p]) + (Admitted(g + [p]) - Admitted(o + [q])) as real
  {
    AnswerStep(lim, g, p);
    AnswerStep(lim, o, q);
    hide Tokens, Admitted, Limit.Accrued;
    GapStep(lim.burst as real, Tokens(lim, g), Tokens(lim, o), Admitted(g) - Admitted(o),
            lim.Accrued(LastTime(lim, g), p.at), p.admitted, q.admitted);
  }

  lemma NothingAdmitted(lim: Limit)
    ensures Admitted([]) == 0 && Tokens(lim, []) <= lim.burst as real
  {
  }

  /**
   The greedy limiter is the most permissive one: against any other window-respecting answers to
   the same request times it has admitted at least as many requests, at every point of the run.
   */
  lemma {:induction false} GreedyAdmitsMost(lim: Limit, greedy: History, other: History)
    requires lim.Valid() && Ordered(lim, greedy) && |greedy| == |other|
    requires forall i :: 0 <= i < |greedy| ==> greedy[i].at == other[i].at
    requires Greedy(lim, greedy) && RespectsWindows(lim, other)
    ensures Admitted(greedy) >= Admitted(other)
    ensures Tokens(lim, other) <= Tokens(lim, greedy) + (Admitted(greedy) - Admitted(other)) as real
  {
    hide RespectsWindows, Greedy, Ordered, Allows, Tokens, Admitted, Limit.Valid;
    if greedy == [] {
      assert other == [];
      NothingAdmitted(lim);
    } else {
      var n := |greedy| - 1;
      var g, o, p, q := greedy[..n], other[..n], greedy[n], other[n];
      assert greedy == g + [p] && other == o + [q];
      SameTimesOrdered(lim, greedy, other);
      GreedyLast(lim, g, p);
      RespectingLast(lim, o, q);
      GreedyAdmitsMost(lim, g, o);
      TokensAtMostBurst(lim, o);
      GreedyStep(lim, g, o, p, q);
    }
  }

  lemma SameTimesOrdered(lim: Limit, a: History, b: History)
    requires Ordered(lim, a) && |a| == |b|
    requires forall i :: 0 <= i < |a| ==> a[i].at == b[i].at
    ensures Ordered(lim, b)
  {
  }

  // ----- The closure

  lemma RequestStep(lim: Limit, h: History, now: int, t: real)
    requires lim.Valid() && Ordered(lim, h) && Greedy(lim, h) && LastTime(lim, h) <= now
    requires t == Refill(lim, Tokens(lim, h), LastTime(lim, h), now)
    ensures t >= 1.0 <==> Admissible(lim, h, now)
    ensures
      var h' := h + [Answer(now, t >= 1.0)];
      && Ordered(lim, h') && Greedy(lim, h') && LastTime(lim, h') == now
      && Tokens(lim, h') == (if t >= 1.0 then t - 1.0 else t)
      && 0.0 <= Tokens(lim, h') <= lim.burst as real
  {
    var q := Answer(now, t >= 1.0);
    FastFormIsExact(lim, h, now);
    GreedyExtends(lim, h, q);
    AnswerStep(lim, h, q);
    GreedyRespectsWindows(lim, h + [q]);
    TokensStayInRange(lim, h + [q]);
  }

  /** The middleware's captured variables; `history` records what it has answered so far. */
  class RateLimiter {
    const unlimited: bool
    const rate: int
    const burst: int
    var tokens: real
    var last: int
    ghost const created: int
    ghost var history: History

    ghost function Lim(): Limit {
      Limit(burst, created, RateLevel(rate))
    }

    ghost predicate Valid()
      reads this
    {
      !unlimited ==>
        && Lim().Valid()
        && Ordered(Lim(), history)
        && Greedy(Lim(), history)
        && tokens == Tokens(Lim(), history)
        && last == LastTime(Lim(), history)
    }

    constructor (rate: int, burst: int, now: int)
      ensures Valid() && history == []
      ensures unlimited <==> rate <= 0
      ensures this.rate == rate && created == now && this.burst == if burst < rate then rate else burst
      ensures !unlimited ==> Lim() == Limit(if burst < rate then rate else burst, now, RateLevel(rate))
    {
      this.unlimited := rate <= 0;
      this.rate := rate;
      var raised := burst;
      if raised < rate {
        raised := rate;
      }
      this.burst := raised;
      this.created := now;
      tokens := raised as real;
      last := now;
      history := [];
      if rate > 0 {
        RateLevelNeverFalls(rate);
      }
    }

    /** The refill, in the code's arithmetic. */
    method Refilled(now: int) returns (t: real)
      ensures t == Refill(Lim(), tokens, last, now)
    {
      t := tokens + (now - last) as real / NANOS_PER_SECOND * rate as real;
      RateLevelIsRateTimesSeconds(rate, last, now);
      if t > burst as real {
        t := burst as real;
      }
    }

    /** Answers one request. The clock is monotonic, as Go's is. */
    method Request(now: int) returns (allowed: bool)
      requires Valid() && (!unlimited ==> last <= now)
      modifies this
      ensures Valid()
      ensures unlimited ==> allowed
      ensures !unlimited ==> (allowed <==> Admissible(Lim(), old(history), now))
      ensures !unlimited ==>
                (allowed <==>
                 && Fits(rate, burst, Admitted(old(history)), created, now)
                 && forall i :: 0 <= i < |old(history)| ==>
                      Fits(rate, burst, Admitted(old(history)[i..]), old(history)[i].at, now))
      ensures !unlimited ==> history == old(history) + [Answer(now, allowed)]
      ensures !unlimited ==> 0.0 <= tokens <= burst as real
    {
      if unlimited {
        return true;
      }
      var t := Refilled(now);
      allowed := t >= 1.0;
      RequestStep(Lim(), history, now, t);
      AdmissibleByRate(rate, burst, created, history, now);
      if allowed {
        t := t - 1.0;
      }
      history := history + [Answer(now, allowed)];
      tokens := t;
      last := now;
    }
  }
}
