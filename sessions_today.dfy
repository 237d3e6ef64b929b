/** `GET /api/sessions/today` (app/api/sessions/today/route.ts): the day's
    focus and track minutes and its session count. The local day's bounds,
    00:00:00.000 and 23:59:59.999, are parameters. */
module SessionsToday {
  import opened Common
  import opened Sessions

  datatype Today = Today(focusMin: int, trackMin: int, sessions: nat)

  /** The store query: rows whose start lies in `[start, end]`, in table order. */
  function InDay(rows: seq<Session>, start: int, end: int): (r: seq<Session>)
    ensures |r| <= |rows|
    ensures forall s :: s in r <==> s in rows && start <= s.startedAt <= end
  {
    if rows == [] then []
    else
      var last := rows[|rows| - 1];
      var rest := InDay(rows[..|rows| - 1], start, end);
      assert rows == rows[..|rows| - 1] + [last];
      if start <= last.startedAt <= end then rest + [last] else rest
  }

  /** `filter(type === kind).reduce(a + (durationSec ?? 0))`. */
  function KindSeconds(rows: seq<Session>, kind: string): int {
    if rows == [] then 0
    else
      var last := rows[|rows| - 1];
      KindSeconds(rows[..|rows| - 1], kind) + (if last.kind == kind then Duration(last) else 0)
  }

  function DailyTotals(rows: seq<Session>, start: int, end: int): Today {
    var day := InDay(rows, start, end);
    Today(RoundMinutes(KindSeconds(day, "focus")), RoundMinutes(KindSeconds(day, "track")), |day|)
  }

  // ----- properties -----

  /** A day without sessions reports zeros. */
  lemma EmptyDay(rows: seq<Session>, start: int, end: int)
    requires forall i :: 0 <= i < |rows| ==> !(start <= rows[i].startedAt <= end)
    ensures DailyTotals(rows, start, end) == Today(0, 0, 0)
  {
  }

  /** Adding one more row changes the report exactly as its kind and start say:
      outside the day nothing changes; inside it counts once, and its duration
      goes to the focus or track seconds when it is of that kind. 'complete'
      markers and rows of other kinds only raise the count. */
  lemma {:induction false} AddRow(rows: seq<Session>, s: Session, start: int, end: int)
    ensures var day := InDay(rows, start, end);
      var day' := InDay(rows + [s], start, end);
      var inside := start <= s.startedAt <= end;
      && |day'| == |day| + (if inside then 1 else 0)
      && KindSeconds(day', "focus") == KindSeconds(day, "focus") + (if inside && s.kind == "focus" then Duration(s) else 0)
      && KindSeconds(day', "track") == KindSeconds(day, "track") + (if inside && s.kind == "track" then Duration(s) else 0)
  {
    var rs := rows + [s];
    assert rs[..|rs| - 1] == rows;
    var day' := InDay(rs, start, end);
    if start <= s.startedAt <= end {
      assert day'[..|day'| - 1] == InDay(rows, start, end);
    }
  }

  /** The minutes are the rounded sums of the in-day focus and track
      durations, and the count is the number of in-day rows of any kind. */
  lemma {:induction false} TotalsMeaning(rows: seq<Session>, start: int, end: int)
    requires NonNegativeDurations(rows)
    ensures var r := DailyTotals(rows, start, end);
      && var f := KindSeconds(InDay(rows, start, end), "focus");
      && var k := KindSeconds(InDay(rows, start, end), "track");
      && 60 * r.focusMin - 30 <= f < 60 * r.focusMin + 30
      && 60 * r.trackMin - 30 <= k < 60 * r.trackMin + 30
      && r.focusMin >= 0 && r.trackMin >= 0
      && r.sessions == |InDay(rows, start, end)|
  {
    KindSecondsNonNegative(InDay(rows, start, end), "focus");
    KindSecondsNonNegative(InDay(rows, start, end), "track");
  }

  lemma {:induction false} KindSecondsNonNegative(rows: seq<Session>, kind: string)
    requires forall s :: s in rows ==> Duration(s) >= 0
    ensures KindSeconds(rows, kind) >= 0
  {
    if rows != [] {
      KindSecondsNonNegative(rows[..|rows| - 1], kind);
    }
  }

  /** Only the rows of that kind contribute: a table whose rows all have some
      other kind (such as 'complete') adds up to nothing. */
  lemma {:induction false} OtherKindsAddNothing(rows: seq<Session>, kind: string)
    requires forall i :: 0 <= i < |rows| ==> rows[i].kind != kind
    ensures KindSeconds(rows, kind) == 0
  {
    if rows != [] {
      OtherKindsAddNothing(rows[..|rows| - 1], kind);
    }
  }
}
