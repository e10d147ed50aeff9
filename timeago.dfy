/**
 * `formatTimeAgo` of src/scanner.ts: integer bucketing of the milliseconds
 * elapsed since a timestamp. The current time is a parameter.
 */
module TimeAgo {

  /** The units `formatTimeAgo` can report, coarsest first. */
  datatype Unit = Years | Months | Weeks | Days | Hours | Minutes

  function Rank(u: Unit): nat {
    match u
    case Years => 0
    case Months => 1
    case Weeks => 2
    case Days => 3
    case Hours => 4
    case Minutes => 5
  }

  function Suffix(u: Unit): string {
    match u
    case Years => "y ago"
    case Months => "mo ago"
    case Weeks => "w ago"
    case Days => "d ago"
    case Hours => "h ago"
    case Minutes => "m ago"
  }

  /** A whole number of some unit, or "just now". */
  datatype Elapsed = Ago(amount: int, unit: Unit) | JustNow

  /**
   * How many whole units the difference `diff` (in milliseconds) amounts to,
   * each a floor of the next finer count. Dafny's division rounds towards
   * negative infinity for a positive divisor, as `Math.floor(x / d)` does.
   */
  function Amount(diff: int, u: Unit): int {
    var seconds := diff / 1000;
    var minutes := seconds / 60;
    var hours := minutes / 60;
    var days := hours / 24;
    match u
    case Years => days / 365
    case Months => days / 30
    case Weeks => days / 7
    case Days => days
    case Hours => hours
    case Minutes => minutes
  }

  /** `formatTimeAgo(timestamp)` with `Date.now()` given as `now`. */
  function FormatTimeAgo(now: int, timestamp: int): (r: Elapsed)
    ensures var diff := now - timestamp;
      && (r.Ago? ==> r.amount > 0 && r.amount == Amount(diff, r.unit))
      && (r.Ago? ==> forall u :: Rank(u) < Rank(r.unit) ==> Amount(diff, u) <= 0)
      && (r.JustNow? <==> forall u :: Amount(diff, u) <= 0)
  {
    var diff := now - timestamp;
    CoarserNotPositive(diff);
    var seconds := diff / 1000;
    var minutes := seconds / 60;
    var hours := minutes / 60;
    var days := hours / 24;
    var weeks := days / 7;
    var months := days / 30;
    var years := days / 365;
    if years > 0 then Ago(years, Years)
    else if months > 0 then Ago(months, Months)
    else if weeks > 0 then Ago(weeks, Weeks)
    else if days > 0 then Ago(days, Days)
    else if hours > 0 then Ago(hours, Hours)
    else if minutes > 0 then Ago(minutes, Minutes)
    else JustNow
  }

  /** Under a whole minute, no coarser unit has a positive count either. */
  lemma CoarserNotPositive(diff: int)
    ensures Amount(diff, Minutes) <= 0 ==> forall u :: Amount(diff, u) <= 0
  {
    var minutes := Amount(diff, Minutes);
    if minutes <= 0 {
      var hours := minutes / 60;
      NotPositiveQuotient(minutes, 60);
      NotPositiveQuotient(hours, 24);
      var days := hours / 24;
      NotPositiveQuotient(days, 7);
      NotPositiveQuotient(days, 30);
      NotPositiveQuotient(days, 365);
    }
  }

  lemma NotPositiveQuotient(x: int, d: int)
    requires x <= 0 && d > 0
    ensures x / d <= 0
  {
    assert x == d * (x / d) + x % d && x % d >= 0;
  }

  /** The string `formatTimeAgo` returns. */
  function Text(r: Elapsed): string {
    match r
    case JustNow => "just now"
    case Ago(n, u) => (if n >= 0 then Decimal(n) else "-" + Decimal(-n)) + Suffix(u)
  }

  function DigitChar(d: nat): (c: char)
    requires d < 10
    ensures '0' <= c <= '9'
  {
    ('0' as int + d) as char
  }

  predicate IsDigits(s: string) {
    forall i :: 0 <= i < |s| ==> '0' <= s[i] <= '9'
  }

  /** The decimal numeral of `n`, as a template literal prints it. */
  function Decimal(n: nat): (s: string)
    ensures |s| > 0 && IsDigits(s)
    ensures n > 0 ==> s[0] != '0'
  {
    if n < 10 then [DigitChar(n)] else Decimal(n / 10) + [DigitChar(n % 10)]
  }

  /** The value of a numeral: the reference reading that `Decimal` is checked against. */
  function DecimalValue(s: string): nat
    requires IsDigits(s)
  {
    if s == [] then 0 else DecimalValue(s[..|s| - 1]) * 10 + (s[|s| - 1] as int - '0' as int)
  }

  lemma {:induction false} DecimalRoundTrip(n: nat)
    ensures DecimalValue(Decimal(n)) == n
  {
    if n >= 10 {
      DecimalRoundTrip(n / 10);
      var s := Decimal(n);
      assert s[..|s| - 1] == Decimal(n / 10);
    }
  }

  // ---------------------------------------------------------------------------
  // The buckets as millisecond thresholds.

  const MINUTE_MS := 60_000
  const HOUR_MS := 3_600_000
  const DAY_MS := 86_400_000

  /** Flooring by `b` and then by `c` floors by `b * c`, for the constant divisors used here. */
  lemma DivDiv(a: int, b: int, c: int)
    requires (b, c) in {(1000, 60), (60_000, 60), (3_600_000, 24), (DAY_MS, 7), (DAY_MS, 30), (DAY_MS, 365)}
    ensures a / b / c == a / (b * c)
  {
    var q2, r2 := a / b / c, a / b % c;
    var r := a % b;
    assert a == (b * c) * q2 + (b * r2 + r);
    assert 0 <= b * r2 + r < b * c;
  }

  lemma PositiveQuotient(x: int, d: int)
    requires d > 0
    ensures x / d > 0 <==> x >= d
  {
    if x >= d {
      assert x == d * (x / d) + x % d && x % d < d;
    }
  }

  /** The counts of each unit in terms of the whole difference. */
  lemma AmountsAsQuotients(diff: int)
    ensures Amount(diff, Minutes) == diff / MINUTE_MS
    ensures Amount(diff, Hours) == diff / HOUR_MS
    ensures Amount(diff, Days) == diff / DAY_MS
    ensures Amount(diff, Weeks) == diff / (7 * DAY_MS)
    ensures Amount(diff, Months) == diff / (30 * DAY_MS)
    ensures Amount(diff, Years) == diff / (365 * DAY_MS)
  {
    DivDiv(diff, 1000, 60);
    DivDiv(diff, 60_000, 60);
    DivDiv(diff, 3_600_000, 24);
    DivDiv(diff, DAY_MS, 7);
    DivDiv(diff, DAY_MS, 30);
    DivDiv(diff, DAY_MS, 365);
  }

  /**
   * The unit reported depends only on which threshold the elapsed time has
   * passed: under a minute is "just now", under an hour is minutes, and so on
   * up to years from 365 days on.
   */
  lemma FormatTimeAgoThresholds(now: int, timestamp: int)
    ensures var diff, r := now - timestamp, FormatTimeAgo(now, timestamp);
      && (r.JustNow? <==> diff < MINUTE_MS)
      && (r.Ago? && r.unit == Minutes <==> MINUTE_MS <= diff < HOUR_MS)
      && (r.Ago? && r.unit == Hours <==> HOUR_MS <= diff < DAY_MS)
      && (r.Ago? && r.unit == Days <==> DAY_MS <= diff < 7 * DAY_MS)
      && (r.Ago? && r.unit == Weeks <==> 7 * DAY_MS <= diff < 30 * DAY_MS)
      && (r.Ago? && r.unit == Months <==> 30 * DAY_MS <= diff < 365 * DAY_MS)
      && (r.Ago? && r.unit == Years <==> 365 * DAY_MS <= diff)
  {
    var diff := now - timestamp;
    AmountsAsQuotients(diff);
    PositiveQuotient(diff, MINUTE_MS);
    PositiveQuotient(diff, HOUR_MS);
    PositiveQuotient(diff, DAY_MS);
    PositiveQuotient(diff, 7 * DAY_MS);
    PositiveQuotient(diff, 30 * DAY_MS);
    PositiveQuotient(diff, 365 * DAY_MS);
  }

  /**
   * The text of an elapsed time is "just now" exactly under a minute;
   * otherwise it is the decimal count, which reads back as the count,
   * followed by the unit's suffix.
   */
  lemma FormatTimeAgoTextShape(now: int, timestamp: int)
    ensures var s, r := Text(FormatTimeAgo(now, timestamp)), FormatTimeAgo(now, timestamp);
      && (s == "just now" <==> now - timestamp < MINUTE_MS)
      && (r.Ago? ==> s == Decimal(r.amount) + Suffix(r.unit) && DecimalValue(Decimal(r.amount)) == r.amount)
  {
    var s, r := Text(FormatTimeAgo(now, timestamp)), FormatTimeAgo(now, timestamp);
    FormatTimeAgoThresholds(now, timestamp);
    if r.Ago? {
      DecimalRoundTrip(r.amount);
      var suffix := Suffix(r.unit);
      assert suffix[|suffix| - 1] == 'o';
      assert s[|s| - 1] == suffix[|suffix| - 1];
      assert "just now"[7] == 'w';
    }
  }

  /** Every suffix ends in " ago". */
  lemma SuffixAgo(u: Unit)
    ensures |Suffix(u)| > 4 && Suffix(u)[|Suffix(u)| - 4..] == " ago"
  {
  }

  /**
   * `formatTimeAgo(timestamp)` as the string it returns: "just now" exactly
   * under a minute, and otherwise a count starting with a digit and ending
   * in " ago".
   */
  function FormatTimeAgoText(now: int, timestamp: int): (s: string)
    ensures s == "just now" <==> now - timestamp < MINUTE_MS
    ensures now - timestamp >= MINUTE_MS ==> |s| > 4 && s[|s| - 4..] == " ago" && '0' <= s[0] <= '9'
  {
    var r := FormatTimeAgo(now, timestamp);
    FormatTimeAgoTextShape(now, timestamp);
    if r.Ago? then
      SuffixAgo(r.unit);
      var d, suffix := Decimal(r.amount), Suffix(r.unit);
      assert (d + suffix)[|d + suffix| - 4..] == suffix[|suffix| - 4..];
      assert (d + suffix)[0] == d[0];
      Text(r)
    else Text(r)
  }
}
