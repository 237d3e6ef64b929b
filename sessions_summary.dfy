/** `GET /api/sessions/summary` (app/api/sessions/summary/route.ts): focus
    minutes for each of the last twelve calendar months, oldest first.

    Months are numbered absolutely, `year * 12 + month` with `month` in
    0..11, which is how `new Date(year, month - i, 1)` normalises a month
    that runs off either end of the year. The local-time instant at which a
    month begins is the parameter `monthStart`; a month's query range runs
    from its first instant to one millisecond before the next month's (the
    last day at 23:59:59.999). */
module SessionsSummary {
  import opened Common
  import opened Sessions

  /** One entry of the answer. The source sends the month's short name; the
      model keeps the year and month it is derived from. */
  datatype Bucket = Bucket(year: int, month: int, minutes: int)

  predicate InMonth(s: Session, monthStart: int -> int, abs: int) {
    monthStart(abs) <= s.startedAt <= monthStart(abs + 1) - 1
  }

  /** The per-month query and `reduce`: the summed durations of the 'focus'
      rows that start within `[lo, hi]`. */
  function FocusSeconds(rows: seq<Session>, lo: int, hi: int): int {
    if rows == [] then 0
    else
      var last := rows[|rows| - 1];
      FocusSeconds(rows[..|rows| - 1], lo, hi)
        + (if last.kind == "focus" && lo <= last.startedAt <= hi then Duration(last) else 0)
  }

  /** The entry for absolute month `abs`. */
  function BucketFor(rows: seq<Session>, monthStart: int -> int, abs: int): Bucket {
    Bucket(abs / 12, abs % 12,
      RoundMinutes(FocusSeconds(rows, monthStart(abs), monthStart(abs + 1) - 1)))
  }

  /** The handler's loop, `i` running from 11 down to 0. */
  method Summary(rows: seq<Session>, monthStart: int -> int, year: int, month: int) returns (out: seq<Bucket>)
    requires 0 <= month < 12
    ensures |out| == 12
    ensures forall k :: 0 <= k < 12 ==> out[k] == BucketFor(rows, monthStart, year * 12 + month - 11 + k)
  {
    out := [];
    var i := 11;
    while i >= 0
      invariant -1 <= i <= 11
      invariant |out| == 11 - i
      invariant forall k :: 0 <= k < |out| ==> out[k] == BucketFor(rows, monthStart, year * 12 + month - 11 + k)
    {
      var abs := year * 12 + month - i;
      var y, m := abs / 12, abs % 12;
      var lo := monthStart(y * 12 + m);
      var hi := monthStart(y * 12 + m + 1) - 1;
      var totalSec := FocusSeconds(rows, lo, hi);
      out := out + [Bucket(y, m, RoundMinutes(totalSec))];
      i := i - 1;
    }
  }

  // ----- properties -----

  /** The entries are consecutive months ending with the current one; each
      month number lies in 0..11 and the year rolls over between December and
      January. */
  lemma {:induction false} MonthsRunOldestFirst(rows: seq<Session>, monthStart: int -> int, year: int, month: int, k: int)
    requires 0 <= month < 12 && 0 <= k < 12
    ensures var b := BucketFor(rows, monthStart, year * 12 + month - 11 + k);
      && 0 <= b.month < 12
      && b.year * 12 + b.month == year * 12 + month - (11 - k)
      && (k == 11 ==> b.year == year && b.month == month)
      && (k < 11 ==>
            var c := BucketFor(rows, monthStart, year * 12 + month - 11 + k + 1);
            if b.month == 11 then c.year == b.year + 1 && c.month == 0
            else c.year == b.year && c.month == b.month + 1)
  {
  }

  /** With month starts strictly increasing, no session lies in two months,
      so no session is counted twice. */
  lemma MonthsDisjoint(s: Session, monthStart: int -> int, a: int, b: int)
    requires forall x, y :: x < y ==> monthStart(x) < monthStart(y)
    requires InMonth(s, monthStart, a) && InMonth(s, monthStart, b)
    ensures a == b
  {
    if a < b {
      assert false;
    } else if b < a {
      assert false;
    }
  }

  /** Only 'focus' rows that start inside the range count: one more row adds
      its duration when it is such a row and nothing otherwise. */
  lemma {:induction false} OnlyFocusCounts(rows: seq<Session>, s: Session, lo: int, hi: int)
    ensures FocusSeconds(rows + [s], lo, hi)
      == FocusSeconds(rows, lo, hi) + (if s.kind == "focus" && lo <= s.startedAt <= hi then Duration(s) else 0)
  {
    assert (rows + [s])[..|rows|] == rows;
  }

  /** Each bucket's seconds are exactly the durations of the focus rows that
      start inside its range, so a month without such rows reports 0. */
  lemma {:induction false} EmptyMonthIsZero(rows: seq<Session>, lo: int, hi: int)
    requires forall i :: 0 <= i < |rows| ==> rows[i].kind != "focus" || !(lo <= rows[i].startedAt <= hi)
    ensures FocusSeconds(rows, lo, hi) == 0
    ensures RoundMinutes(FocusSeconds(rows, lo, hi)) == 0
  {
    if rows != [] {
      EmptyMonthIsZero(rows[..|rows| - 1], lo, hi);
    }
  }

  /** A bucket's minutes round its focus seconds to the nearest minute, and
      are never negative when no duration is. */
  lemma {:induction false} BucketMinutes(rows: seq<Session>, monthStart: int -> int, abs: int)
    requires NonNegativeDurations(rows)
    ensures var b := BucketFor(rows, monthStart, abs);
      var sec := FocusSeconds(rows, monthStart(abs), monthStart(abs + 1) - 1);
      && sec >= 0 && b.minutes >= 0
      && 60 * b.minutes - 30 <= sec < 60 * b.minutes + 30
  {
    FocusSecondsNonNegative(rows, monthStart(abs), monthStart(abs + 1) - 1);
  }

  lemma {:induction false} FocusSecondsNonNegative(rows: seq<Session>, lo: int, hi: int)
    requires NonNegativeDurations(rows)
    ensures FocusSeconds(rows, lo, hi) >= 0
  {
    if rows != [] {
      FocusSecondsNonNegative(rows[..|rows| - 1], lo, hi);
    }
  }
}
