/** What the tracker (components/TrackerTimer.tsx) and the pomodoro
    (components/PomodoroTimer.tsx) have in common: the session requests they
    send, their local-storage keys and their clock displays. */
module Timers {
  import opened Common

  /** The `POST /api/sessions` a handler sends, if any. */
  datatype Request =
    | NoRequest
    | StartSession(kind: string, taskId: Option<nat>, subtaskId: Option<nat>)
    | StopSession(id: int, elapsed: int)

  /** The component's props: the selected task and subtask. */
  datatype Props = Props(taskId: Option<nat>, subtaskId: Option<nat>)

  /** `${id ?? 'none'}`. */
  function IdText(id: Option<nat>): string {
    if id.Some? then Digits(id.value) else "none"
  }

  /** `${prefix}${taskId ?? 'none'}.${subtaskId ?? 'none'}`. */
  function StorageKey(prefix: string, p: Props): (k: string)
    ensures StartsWith(k, prefix)
  {
    prefix + IdText(p.taskId) + "." + IdText(p.subtaskId)
  }

  const TrackPrefix := "lifeos.track."
  const PomoPrefix := "lifeos.pomo."

  // ----- clock displays -----

  predicate AllDigits(s: string) {
    forall i :: 0 <= i < |s| ==> IsDigit(s[i])
  }

  /** The tracker's `hh:mm:ss`. */
  function FormatHms(seconds: nat): string {
    Pad2(seconds / 3600) + ":" + Pad2(seconds % 3600 / 60) + ":" + Pad2(seconds % 60)
  }

  /** The pomodoro's `mm:ss`. */
  function FormatMs(seconds: nat): string {
    Pad2(seconds / 60) + ":" + Pad2(seconds % 60)
  }

  /** Reads a display back: the last two fields are two digits each, below 60,
      after a colon; the first field is any number of digits. */
  function ParseTail(t: string): Option<(string, nat)> {
    if |t| >= 3 && t[|t| - 3] == ':' && AllDigits(t[|t| - 2..]) then
      var v := DecimalValue(t[|t| - 2..]);
      if v < 60 then Some((t[..|t| - 3], v)) else None
    else None
  }

  function ParseMs(t: string): Option<nat> {
    match ParseTail(t)
    case None => None
    case Some((head, ss)) =>
      if |head| >= 2 && AllDigits(head) then Some(60 * DecimalValue(head) + ss) else None
  }

  function ParseHms(t: string): Option<nat> {
    match ParseTail(t)
    case None => None
    case Some((rest, ss)) =>
      match ParseTail(rest)
      case None => None
      case Some((head, mm)) =>
        if |head| >= 2 && AllDigits(head) then Some(3600 * DecimalValue(head) + 60 * mm + ss) else None
  }

  lemma ParseTailOf(head: string, n: nat)
    requires n < 60
    ensures ParseTail(head + ":" + Pad2(n)) == Some((head, n))
  {
    var t := head + ":" + Pad2(n);
    assert t[|t| - 2..] == Pad2(n);
    assert t[..|t| - 3] == head;
    Pad2Value(n);
  }

  /** The tracker's display shows `seconds` exactly: hours of at least two
      digits, then minutes and seconds of two digits each, below 60. */
  lemma HmsRoundTrip(seconds: nat)
    ensures ParseHms(FormatHms(seconds)) == Some(seconds)
  {
    var hh, mm, ss := seconds / 3600, seconds % 3600 / 60, seconds % 60;
    ClockSplit(seconds);
    ParseTailOf(Pad2(hh) + ":" + Pad2(mm), ss);
    ParseTailOf(Pad2(hh), mm);
    Pad2Value(hh);
  }

  /** Hours, minutes and seconds put back together give the count. */
  lemma ClockSplit(seconds: nat)
    ensures seconds % 3600 / 60 < 60 && seconds % 60 < 60
    ensures 3600 * (seconds / 3600) + 60 * (seconds % 3600 / 60) + seconds % 60 == seconds
  {
    var hh, r := seconds / 3600, seconds % 3600;
    var mm, ss := r / 60, r % 60;
    assert r == 60 * mm + ss;
    assert seconds == 60 * (60 * hh + mm) + ss;
    SixtyDivMod(seconds, 60 * hh + mm, ss);
  }

  /** Division by 60 is determined by any quotient and remainder in range. */
  lemma SixtyDivMod(a: int, q: int, r: int)
    requires a == 60 * q + r && 0 <= r < 60
    ensures a % 60 == r && a / 60 == q
  {
    var q', r' := a / 60, a % 60;
    assert 60 * (q - q') == r' - r;
  }

  /** The pomodoro's display shows `seconds` exactly, seconds below 60. */
  lemma MsRoundTrip(seconds: nat)
    ensures ParseMs(FormatMs(seconds)) == Some(seconds)
  {
    ParseTailOf(Pad2(seconds / 60), seconds % 60);
    Pad2Value(seconds / 60);
  }
}
