/**
 Timestamps in the date-time format of RFC 3339, section 5.6, as Go's RFC3339Nano layout writes them:
 fractional seconds without trailing zeros, and Z for UTC.
 */
module Timestamp {
  import opened Common
  import opened Decimal

  /** A wall-clock reading with its zone offset in minutes. */
  datatype Stamp = Stamp(year: int, month: int, day: int, hour: int, minute: int, second: int, nanos: int, offset: int)

  predicate IsLeap(year: int) {
    year % 4 == 0 && (year % 100 != 0 || year % 400 == 0)
  }

  function DaysIn(month: int, year: int): int {
    if month == 2 then (if IsLeap(year) then 29 else 28)
    else if month in {4, 6, 9, 11} then 30
    else 31
  }

  // ----- The calendar is the Gregorian one

  /** Leap years up to and including a year, counted from year 0. */
  function LeapsTo(year: int): int {
    year / 4 - year / 100 + year / 400
  }

  function DaysInYear(year: int, months: nat): int
    requires months <= 12
  {
    if months == 0 then 0 else DaysInYear(year, months - 1) + DaysIn(months, year)
  }

  function DaysOfYears(year: int, n: nat): int {
    if n == 0 then 0 else DaysOfYears(year, n - 1) + DaysInYear(year + n - 1, 12)
  }

  /** How a quotient grows by one step, and over 400. */
  lemma QuotientSteps(n: int, m: int, c: int)
    requires m > 0 && c * m == 400
    ensures n / m == (n - 1) / m + if n % m == 0 then 1 else 0
    ensures (n + 400) / m == n / m + c
  {
    var q, r := n / m, n % m;
    assert n == q * m + r;
    if r == 0 {
      assert (q - 1) * m == q * m - m;
      Quotient(n - 1, m, q - 1, m - 1);
    } else {
      Quotient(n - 1, m, q, r - 1);
    }
    assert (q + c) * m == q * m + 400;
    Quotient(n + 400, m, q + c, r);
  }

  lemma Divisible(n: int, m: int, k: int)
    requires m > 0 && k > 0 && n % (m * k) == 0
    ensures n % m == 0
  {
    var q := n / (m * k);
    assert n == q * (m * k) == (q * k) * m;
    Quotient(n, m, q * k, 0);
  }

  lemma LeapStep(year: int)
    ensures LeapsTo(year) == LeapsTo(year - 1) + if IsLeap(year) then 1 else 0
    ensures LeapsTo(year + 400) == LeapsTo(year) + 97
  {
    QuotientSteps(year, 4, 100);
    QuotientSteps(year, 100, 4);
    QuotientSteps(year, 400, 1);
    if year % 100 == 0 {
      Divisible(year, 4, 25);
    }
    if year % 400 == 0 {
      Divisible(year, 100, 4);
    }
  }

  lemma HalfYear(year: int)
    ensures DaysInYear(year, 6) == if IsLeap(year) then 182 else 181
  {
    hide IsLeap;
    assert DaysInYear(year, 2) == DaysInYear(year, 1) + DaysIn(2, year) && DaysInYear(year, 1) == DaysIn(1, year);
    assert DaysInYear(year, 4) == DaysInYear(year, 2) + DaysIn(3, year) + DaysIn(4, year);
    assert DaysInYear(year, 6) == DaysInYear(year, 4) + DaysIn(5, year) + DaysIn(6, year);
  }

  lemma YearHasDays(year: int)
    ensures DaysInYear(year, 12) == if IsLeap(year) then 366 else 365
  {
    hide IsLeap;
    HalfYear(year);
    assert DaysInYear(year, 8) == DaysInYear(year, 6) + DaysIn(7, year) + DaysIn(8, year);
    assert DaysInYear(year, 10) == DaysInYear(year, 8) + DaysIn(9, year) + DaysIn(10, year);
    assert DaysInYear(year, 12) == DaysInYear(year, 10) + DaysIn(11, year) + DaysIn(12, year);
  }

  lemma {:induction false} DaysOfYearsByLeaps(year: int, n: nat)
    ensures DaysOfYears(year, n) == 365 * n + LeapsTo(year + n - 1) - LeapsTo(year - 1)
  {
    if n > 0 {
      hide DaysInYear, LeapsTo, IsLeap;
      DaysOfYearsByLeaps(year, n - 1);
      YearHasDays(year + n - 1);
      LeapStep(year + n - 1);
    }
  }

  /** Any 400 consecutive years have 146097 days. */
  lemma FourCenturies(year: int)
    ensures DaysOfYears(year, 400) == 146097
  {
    hide DaysOfYears, LeapsTo;
    DaysOfYearsByLeaps(year, 400);
    LeapStep(year - 1);
  }

  predicate ValidStamp(t: Stamp) {
    && 0 <= t.year <= 9999
    && 1 <= t.month <= 12
    && 1 <= t.day <= DaysIn(t.month, t.year)
    && 0 <= t.hour <= 23 && 0 <= t.minute <= 59 && 0 <= t.second <= 59
    && 0 <= t.nanos <= 999_999_999
    && -1440 < t.offset < 1440
  }

  function TrimZeros(s: string): (r: string)
    ensures r <= s
  {
    if s != "" && s[|s| - 1] == '0' then TrimZeros(s[..|s| - 1]) else s
  }

  function Zeros(n: nat): (s: string)
    ensures |s| == n && AllDigits(s)
  {
    seq(n, i => '0')
  }

  /** The first nine digits, padded with zeros: nanoseconds, however many digits were written. */
  function NineDigits(s: string): (r: string)
    requires AllDigits(s)
    ensures |r| == 9 && AllDigits(r)
  {
    (s + Zeros(9))[..9]
  }

  lemma {:induction false} TrimZerosPads(s: string)
    requires AllDigits(s)
    ensures s == TrimZeros(s) + Zeros(|s| - |TrimZeros(s)|)
  {
    if s != "" && s[|s| - 1] == '0' {
      TrimZerosPads(s[..|s| - 1]);
      assert s == s[..|s| - 1] + ['0'];
    }
  }

  lemma NineDigitsInvertsTrim(s: string)
    requires |s| == 9 && AllDigits(s)
    ensures AllDigits(TrimZeros(s)) && NineDigits(TrimZeros(s)) == s
  {
    TrimZerosPads(s);
  }

  function FormatFraction(nanos: nat): string {
    if nanos == 0 then "" else "." + TrimZeros(Fixed(nanos, 9))
  }

  function FormatZone(offset: int): string {
    if offset == 0 then "Z"
    else
      var m := if offset < 0 then -offset else offset;
      (if offset < 0 then "-" else "+") + Fixed(m / 60, 2) + ":" + Fixed(m % 60, 2)
  }

  function FormatClock(t: Stamp): (s: string)
    requires ValidStamp(t)
    ensures |s| == 19
  {
    Fixed(t.year, 4) + "-" + Fixed(t.month, 2) + "-" + Fixed(t.day, 2) + "T"
    + Fixed(t.hour, 2) + ":" + Fixed(t.minute, 2) + ":" + Fixed(t.second, 2)
  }

  function Format(t: Stamp): string
    requires ValidStamp(t)
  {
    FormatClock(t) + FormatFraction(t.nanos) + FormatZone(t.offset)
  }

  // ----- Parsing

  /** A digit field at a position. */
  function Field(s: string, at: nat, w: nat): Option<nat> {
    if at + w <= |s| && AllDigits(s[at..at + w]) then Some(DigitsValue(s[at..at + w])) else None
  }

  predicate HasChar(s: string, at: nat, c: char) {
    at < |s| && s[at] == c
  }

  function DigitRun(s: string): (n: nat)
    ensures n <= |s| && AllDigits(s[..n])
    ensures n < |s| ==> !IsDigit(s[n])
  {
    if s == "" || !IsDigit(s[0]) then 0
    else
      var n := DigitRun(s[1..]);
      assert s[..n + 1] == [s[0]] + s[1..][..n];
      n + 1
  }

  /** An optional fraction: its nanoseconds, and how many characters it took. */
  function ParseFraction(s: string): (int, nat) {
    if HasChar(s, 0, '.') && |s| >= 2 && IsDigit(s[1]) then
      var n := DigitRun(s[1..]);
      (DigitsValue(NineDigits(s[1..][..n])), n + 1)
    else (0, 0)
  }

  function ParseZone(s: string): Option<int> {
    if s == "Z" then Some(0)
    else if |s| == 6 && (s[0] == '+' || s[0] == '-') && s[3] == ':' then
      match (Field(s, 1, 2), Field(s, 4, 2))
      case (Some(h), Some(m)) =>
        var total: int := h * 60 + m;
        if h <= 23 && m <= 59 then Some(if s[0] == '-' then -total else total) else None
      case _ => None
    else None
  }

  function Parse(s: string): Option<Stamp> {
    if HasChar(s, 4, '-') && HasChar(s, 7, '-') && HasChar(s, 10, 'T') && HasChar(s, 13, ':') && HasChar(s, 16, ':')
        && |s| >= 19 then
      match (Field(s, 0, 4), Field(s, 5, 2), Field(s, 8, 2), Field(s, 11, 2), Field(s, 14, 2), Field(s, 17, 2))
      case (Some(y), Some(mo), Some(d), Some(h), Some(mi), Some(sec)) =>
        var (nanos, taken) := ParseFraction(s[19..]);
        if taken > |s| - 19 then None
        else (
          match ParseZone(s[19 + taken..])
          case Some(offset) =>
            var t := Stamp(y, mo, d, h, mi, sec, nanos, offset);
            if ValidStamp(t) then Some(t) else None
          case None => None)
      case _ => None
    else None
  }

  // ----- Round trip

  lemma FieldOfFixed(s: string, at: nat, w: nat, n: nat)
    requires at + w <= |s| && s[at..at + w] == Fixed(n, w) && n < Pow10(w)
    ensures Field(s, at, w) == Some(n)
  {
    FixedValue(n, w);
  }

  lemma Powers()
    ensures Pow10(2) == 100 && Pow10(4) == 10_000 && Pow10(9) == 1_000_000_000
  {
    assert Pow10(1) == 10 && Pow10(3) == 1_000 && Pow10(5) == 100_000 && Pow10(6) == 1_000_000;
    assert Pow10(7) == 10_000_000 && Pow10(8) == 100_000_000;
  }

  lemma ZoneRoundTrip(offset: int)
    requires -1440 < offset < 1440
    ensures ParseZone(FormatZone(offset)) == Some(offset)
  {
    Powers();
    if offset != 0 {
      var m := if offset < 0 then -offset else offset;
      var s := FormatZone(offset);
      assert s[1..3] == Fixed(m / 60, 2) && s[4..6] == Fixed(m % 60, 2);
      FieldOfFixed(s, 1, 2, m / 60);
      FieldOfFixed(s, 4, 2, m % 60);
    }
  }

  lemma TrimmedIsNotEmpty(nanos: nat)
    requires 0 < nanos < Pow10(9)
    ensures TrimZeros(Fixed(nanos, 9)) != ""
  {
    var d := Fixed(nanos, 9);
    if TrimZeros(d) == "" {
      TrimZerosPads(d);
      assert d == Zeros(9);
      ZerosAreZero(9);
      FixedValue(nanos, 9);
      assert false;
    }
  }

  lemma {:induction false} ZerosAreZero(n: nat)
    ensures DigitsValue(Zeros(n)) == 0
  {
    if n > 0 {
      assert Zeros(n)[..n - 1] == Zeros(n - 1);
      ZerosAreZero(n - 1);
    }
  }

  lemma {:induction false} DigitRunIs(digits: string, rest: string)
    requires AllDigits(digits) && (rest == "" || !IsDigit(rest[0]))
    ensures DigitRun(digits + rest) == |digits|
  {
    if digits == "" {
      assert digits + rest == rest;
    } else {
      assert (digits + rest)[1..] == digits[1..] + rest;
      DigitRunIs(digits[1..], rest);
    }
  }

  lemma FractionRoundTrip(nanos: nat, zone: string)
    requires nanos <= 999_999_999 && zone != "" && !IsDigit(zone[0]) && zone[0] != '.'
    ensures ParseFraction(FormatFraction(nanos) + zone) == (nanos, |FormatFraction(nanos)|)
  {
    hide Fixed, TrimZeros, NineDigits, DigitsValue;
    Powers();
    if nanos == 0 {
      assert FormatFraction(nanos) + zone == zone;
    } else {
      var digits := TrimZeros(Fixed(nanos, 9));
      var s := FormatFraction(nanos) + zone;
      NineDigitsInvertsTrim(Fixed(nanos, 9));
      TrimmedIsNotEmpty(nanos);
      FixedValue(nanos, 9);
      assert s[1..] == digits + zone;
      DigitRunIs(digits, zone);
      assert (digits + zone)[..|digits|] == digits;
    }
  }

  lemma ClockFields(t: Stamp, s: string)
    requires ValidStamp(t) && FormatClock(t) <= s
    ensures HasChar(s, 4, '-') && HasChar(s, 7, '-') && HasChar(s, 10, 'T') && HasChar(s, 13, ':')
        && HasChar(s, 16, ':')
    ensures Field(s, 0, 4) == Some(t.year) && Field(s, 5, 2) == Some(t.month) && Field(s, 8, 2) == Some(t.day)
    ensures Field(s, 11, 2) == Some(t.hour) && Field(s, 14, 2) == Some(t.minute) && Field(s, 17, 2) == Some(t.second)
  {
    Powers();
    var c := FormatClock(t);
    assert forall i :: 0 <= i < 19 ==> s[i] == c[i];
    assert s[0..4] == Fixed(t.year, 4);
    assert s[5..7] == Fixed(t.month, 2);
    assert s[8..10] == Fixed(t.day, 2);
    assert s[11..13] == Fixed(t.hour, 2);
    assert s[14..16] == Fixed(t.minute, 2);
    assert s[17..19] == Fixed(t.second, 2);
    FieldOfFixed(s, 0, 4, t.year);
    FieldOfFixed(s, 5, 2, t.month);
    FieldOfFixed(s, 8, 2, t.day);
    FieldOfFixed(s, 11, 2, t.hour);
    FieldOfFixed(s, 14, 2, t.minute);
    FieldOfFixed(s, 17, 2, t.second);
  }

  /** A text whose pieces read as those of t parses as t. */
  lemma ParseOfPieces(s: string, t: Stamp, taken: nat)
    requires ValidStamp(t) && |s| >= 19 + taken
    requires HasChar(s, 4, '-') && HasChar(s, 7, '-') && HasChar(s, 10, 'T') && HasChar(s, 13, ':')
        && HasChar(s, 16, ':')
    requires Field(s, 0, 4) == Some(t.year) && Field(s, 5, 2) == Some(t.month) && Field(s, 8, 2) == Some(t.day)
    requires Field(s, 11, 2) == Some(t.hour) && Field(s, 14, 2) == Some(t.minute) && Field(s, 17, 2) == Some(t.second)
    requires ParseFraction(s[19..]) == (t.nanos, taken)
    requires ParseZone(s[19 + taken..]) == Some(t.offset)
    ensures Parse(s) == Some(t)
  {
    hide Field, HasChar, ParseFraction, ParseZone, ValidStamp;
  }

  /** Parsing inverts formatting on every timestamp the format can write. */
  lemma ParseInvertsFormat(t: Stamp)
    requires ValidStamp(t)
    ensures Parse(Format(t)) == Some(t)
  {
    ZoneStartsWithNoDigit(t.offset);
    hide Parse, ParseFraction, ParseZone, FormatFraction, FormatZone, FormatClock, Field, HasChar, DaysIn;
    var s := Format(t);
    var fraction, zone := FormatFraction(t.nanos), FormatZone(t.offset);
    ClockFields(t, s);
    assert s[19..] == fraction + zone;
    FractionRoundTrip(t.nanos, zone);
    assert s[19 + |fraction|..] == zone;
    ZoneRoundTrip(t.offset);
    ParseOfPieces(s, t, |fraction|);
  }

  lemma ZoneStartsWithNoDigit(offset: int)
    ensures FormatZone(offset) != "" && !IsDigit(FormatZone(offset)[0]) && FormatZone(offset)[0] != '.'
  {
  }
}
