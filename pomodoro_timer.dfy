/** The count-down pomodoro (components/PomodoroTimer.tsx). As for the
    tracker, each handler maps the state snapshot it reads to the state
    setters it issues and the session request it sends. The interval
    callback is created once, when the timer starts running, so the `stop`
    it calls reads the snapshot of THAT render while its setters land on the
    current state; `Tick` takes both. */
module PomodoroTimer {
  import opened Common
  import opened Timers

  datatype Mode = Focus | Break

  function ModeName(m: Mode): string {
    match m
    case Focus => "focus"
    case Break => "break"
  }

  datatype State = State(mode: Mode, minutes: nat, secondsLeft: nat, isRunning: bool, sessionId: Option<int>)

  const Initial := State(Focus, 25, 25 * 60, false, None)

  const FocusOptions: seq<nat> := [5, 10, 20, 30]
  const BreakOptions: seq<nat> := [5, 10]

  /** The duration buttons shown for a mode. */
  function Options(m: Mode): seq<nat> {
    if m == Focus then FocusOptions else BreakOptions
  }

  /** The time left never exceeds the chosen length. */
  predicate Valid(s: State) {
    s.secondsLeft <= s.minutes * 60
  }

  /** `pick(m)` as issued from a render whose snapshot is `snap`: the guard
      reads the snapshot, the setters land on `cur`. */
  function PickWithin(snap: State, cur: State, m: nat): State {
    if !snap.isRunning then cur.(minutes := m, secondsLeft := m * 60) else cur
  }

  function Pick(s: State, m: nat): State {
    PickWithin(s, s, m)
  }

  /** The Focus and Break buttons: switch mode and pick its default length,
      only while stopped. */
  function FocusButton(s: State): State {
    if !s.isRunning then Pick(s.(mode := Focus), 25) else s
  }

  function BreakButton(s: State): State {
    if !s.isRunning then Pick(s.(mode := Break), 5) else s
  }

  /** The `i`-th duration button of the current mode. */
  function OptionButton(s: State, i: nat): State
    requires i < |Options(s.mode)|
  {
    Pick(s, Options(s.mode)[i])
  }

  /** `start`; `newId` is the id in the server's reply. */
  function Start(s: State, p: Props, newId: int): (State, Request) {
    if s.isRunning then (s, NoRequest)
    else (s.(isRunning := true, sessionId := Some(newId)), StartSession(ModeName(s.mode), p.taskId, p.subtaskId))
  }

  /** `stop(fromUI, auto)` created in the render `snap`, its setters applied to
      `cur`. The elapsed time is the chosen length less the time left. */
  function StopWithin(snap: State, cur: State, auto: bool): (State, Request) {
    if !snap.isRunning then (cur, NoRequest)
    else if IdTruthy(snap.sessionId) then
      var elapsed := snap.minutes * 60 - snap.secondsLeft;
      var cur' := cur.(isRunning := false, sessionId := None);
      if auto && snap.mode == Focus then
        (PickWithin(snap, cur'.(mode := Break), 5), StopSession(snap.sessionId.value, elapsed))
      else (cur', StopSession(snap.sessionId.value, elapsed))
    else (cur.(isRunning := false), NoRequest)
  }

  /** The Stop button and the `lifeos:stopTimers` listener, both created in
      the current render. */
  function Stop(s: State): (State, Request) {
    StopWithin(s, s, false)
  }

  /** One interval tick on the current state `cur`, the interval having been
      created in the render `snap` (the one where running began). At one
      second left or less the timer auto-stops and shows 0. */
  function Tick(cur: State, snap: State): (State, Request)
    requires cur.isRunning && snap.isRunning
  {
    if cur.secondsLeft <= 1 then
      var (s', req) := StopWithin(snap, cur, true);
      (s'.(secondsLeft := 0), req)
    else (cur.(secondsLeft := cur.secondsLeft - 1), NoRequest)
  }

  /** The Reset button: stop without reporting and refill the clock. */
  function Reset(s: State): State {
    s.(isRunning := false, secondsLeft := s.minutes * 60)
  }

  /** What local storage holds under the key; missing fields are `None`. */
  datatype Stored = Stored(
    mode: Option<Mode>,
    minutes: Option<nat>,
    secondsLeft: Option<nat>,
    isRunning: Option<bool>,
    sessionId: Option<int>)

  function Persist(s: State): Stored {
    Stored(Some(s.mode), Some(s.minutes), Some(s.secondsLeft), Some(s.isRunning), s.sessionId)
  }

  /** The restore effect. An empty key resets the clock to 25 minutes and
      keeps the rest; a stored record fills each missing field with its
      default, the time left defaulting to the stored length in seconds. */
  function Restore(saved: Option<Stored>, s: State): State {
    match saved
    case None => s.(minutes := 25, secondsLeft := 25 * 60)
    case Some(d) =>
      var m := d.minutes.GetOr(25);
      State(d.mode.GetOr(Focus), m, d.secondsLeft.GetOr(m * 60), d.isRunning.GetOr(false), d.sessionId)
  }

  function Key(p: Props): string {
    StorageKey(PomoPrefix, p)
  }

  // ----- properties -----

  /** Choosing a length while stopped sets the clock full; while running it
      changes nothing. Either way the clock stays within the length. */
  lemma PickGuard(s: State, m: nat)
    requires Valid(s)
    ensures !s.isRunning ==> Pick(s, m).minutes == m && Pick(s, m).secondsLeft == m * 60
    ensures s.isRunning ==> Pick(s, m) == s
    ensures Valid(Pick(s, m)) && Pick(s, m).mode == s.mode && Pick(s, m).isRunning == s.isRunning
  {
  }

  /** The mode buttons select Focus/25 and Break/5 while stopped and are
      ignored while running; the duration buttons offer 5, 10, 20, 30 minutes
      in focus and 5, 10 in break. */
  lemma ButtonsChooseLength(s: State)
    ensures !s.isRunning ==> FocusButton(s) == s.(mode := Focus, minutes := 25, secondsLeft := 1500)
    ensures !s.isRunning ==> BreakButton(s) == s.(mode := Break, minutes := 5, secondsLeft := 300)
    ensures s.isRunning ==> FocusButton(s) == s && BreakButton(s) == s
    ensures s.mode == Focus ==> Options(s.mode) == [5, 10, 20, 30]
    ensures s.mode == Break ==> Options(s.mode) == [5, 10]
  {
  }

  /** `start` while running is a no-op; otherwise the session's type is the
      current mode and the clock is not touched. */
  lemma StartGuard(s: State, p: Props, newId: int)
    ensures var (s', req) := Start(s, p, newId);
      if s.isRunning then s' == s && req == NoRequest
      else && s'.isRunning && s'.sessionId == Some(newId)
           && s'.minutes == s.minutes && s'.secondsLeft == s.secondsLeft && s'.mode == s.mode
           && req == StartSession(if s.mode == Focus then "focus" else "break", p.taskId, p.subtaskId)
  {
  }

  /** A manual stop of a valid running timer reports the seconds counted
      down, between 0 and the chosen length, and never switches mode. */
  lemma StopElapsed(s: State)
    requires Valid(s)
    ensures var (s', req) := Stop(s);
      && (!s.isRunning ==> s' == s && req == NoRequest)
      && (s.isRunning ==> !s'.isRunning && s'.mode == s.mode && s'.minutes == s.minutes && s'.secondsLeft == s.secondsLeft)
      && (s.isRunning && IdTruthy(s.sessionId) <==> req.StopSession?)
      && (req.StopSession? ==>
            && req.id == s.sessionId.value && s'.sessionId.None?
            && req.elapsed == s.minutes * 60 - s.secondsLeft
            && 0 <= req.elapsed <= s.minutes * 60)
  {
  }

  /** A tick above one second counts down by one. At one second or less the
      timer stops at 0; when the render that started the interval held a
      session, that session is reported with the elapsed time as of that
      render, and a focus period turns into a break WITHOUT changing the
      length, because the `pick(5)` inside sees that render's running flag. */
  lemma TickCountsDown(cur: State, snap: State)
    requires cur.isRunning && snap.isRunning
    ensures var (s', req) := Tick(cur, snap);
      && (cur.secondsLeft > 1 ==> s' == cur.(secondsLeft := cur.secondsLeft - 1) && req == NoRequest)
      && (cur.secondsLeft <= 1 ==>
            && s'.secondsLeft == 0 && !s'.isRunning && s'.minutes == cur.minutes
            && (req.StopSession? <==> IdTruthy(snap.sessionId))
            && (req.StopSession? ==>
                  && req.id == snap.sessionId.value
                  && req.elapsed == snap.minutes * 60 - snap.secondsLeft
                  && s'.sessionId.None?
                  && s'.mode == (if snap.mode == Focus then Break else cur.mode))
            && (!req.StopSession? ==> s'.sessionId == cur.sessionId && s'.mode == cur.mode))
  {
  }

  /** The interval of a fresh start was created before the server's reply,
      in a render without a session: when it runs out it reports nothing,
      keeps the session id it holds by then and stays in its mode. */
  lemma FreshStartAutoStopReportsNothing(before: State, p: Props, newId: int)
    requires !before.isRunning && !IdTruthy(before.sessionId) && before.secondsLeft <= 1
    ensures var snap := before.(isRunning := true);
      var (cur, _) := Start(before, p, newId);
      var (s', req) := Tick(cur, snap);
      && req == NoRequest && !s'.isRunning && s'.secondsLeft == 0
      && s'.sessionId == Some(newId) && s'.mode == before.mode
  {
  }

  /** The evidently intended auto-stop reads the current render: a running
      focus period that holds a session and runs out reports that session
      with (almost) the whole length elapsed, releases it and turns into a
      break. */
  lemma AutoStopFromCurrentRender(s: State)
    requires s.isRunning && IdTruthy(s.sessionId) && s.secondsLeft <= 1 && Valid(s)
    ensures var (s', req) := Tick(s, s);
      && req == StopSession(s.sessionId.value, s.minutes * 60 - s.secondsLeft)
      && s.minutes * 60 - 1 <= req.elapsed <= s.minutes * 60
      && !s'.isRunning && s'.sessionId.None? && s'.secondsLeft == 0
      && (s.mode == Focus ==> s'.mode == Break)
  {
  }

  /** Every handler keeps the clock within the chosen length (for the tick,
      whatever render the interval came from). */
  lemma HandlersKeepValid(s: State, snap: State, p: Props, newId: int, m: nat)
    requires Valid(s)
    ensures Valid(Pick(s, m)) && Valid(FocusButton(s)) && Valid(BreakButton(s))
    ensures Valid(Start(s, p, newId).0) && Valid(Stop(s).0) && Valid(Reset(s))
    ensures s.isRunning && snap.isRunning ==> Valid(Tick(s, snap).0)
  {
  }

  /** `Reset` refills the clock to the chosen length and stops, keeping mode
      and session. */
  lemma ResetRefills(s: State)
    ensures Reset(s).secondsLeft == s.minutes * 60 && !Reset(s).isRunning
    ensures Reset(s).mode == s.mode && Reset(s).minutes == s.minutes && Reset(s).sessionId == s.sessionId
  {
  }

  /** Restoring what was persisted gives the state back; an empty key gives a
      full 25-minute clock; a record holding only a length gives a full clock
      of that length, stopped, in focus. */
  lemma RestorePersisted(s: State, other: State, m: nat)
    ensures Restore(Some(Persist(s)), other) == s
    ensures Restore(None, other).minutes == 25 && Restore(None, other).secondsLeft == 1500
    ensures Restore(Some(Stored(None, Some(m), None, None, None)), other) == State(Focus, m, m * 60, false, None)
    ensures Restore(Some(Stored(None, None, None, None, None)), other) == Initial
  {
  }

  /** The timer's state fields, updated in place by its handlers. */
  class Pomodoro {
    const props: Props
    var mode: Mode
    var minutes: nat
    var secondsLeft: nat
    var isRunning: bool
    var sessionId: Option<int>

    function Snapshot(): State
      reads this
    {
      State(mode, minutes, secondsLeft, isRunning, sessionId)
    }

    method Set(s: State)
      modifies this
      ensures Snapshot() == s
    {
      mode, minutes, secondsLeft, isRunning, sessionId := s.mode, s.minutes, s.secondsLeft, s.isRunning, s.sessionId;
    }

    constructor (p: Props)
      ensures props == p && Snapshot() == Initial
    {
      props := p;
      mode, minutes, secondsLeft, isRunning, sessionId := Focus, 25, 25 * 60, false, None;
    }

    method OnFocusButton()
      modifies this
      ensures Snapshot() == FocusButton(old(Snapshot()))
    {
      if !isRunning {
        mode, minutes, secondsLeft := Focus, 25, 25 * 60;
      }
    }

    method OnBreakButton()
      modifies this
      ensures Snapshot() == BreakButton(old(Snapshot()))
    {
      if !isRunning {
        mode, minutes, secondsLeft := Break, 5, 5 * 60;
      }
    }

    method OnOption(i: nat)
      requires i < |Options(mode)|
      modifies this
      ensures Snapshot() == OptionButton(old(Snapshot()), i)
    {
      if !isRunning {
        var m := Options(mode)[i];
        minutes, secondsLeft := m, m * 60;
      }
    }

    method OnStart(newId: int) returns (req: Request)
      modifies this
      ensures (Snapshot(), req) == Start(old(Snapshot()), props, newId)
    {
      var (s', r) := Start(Snapshot(), props, newId);
      Set(s');
      req := r;
    }

    method OnStop() returns (req: Request)
      modifies this
      ensures (Snapshot(), req) == Stop(old(Snapshot()))
    {
      var (s', r) := Stop(Snapshot());
      Set(s');
      req := r;
    }

    /** One tick of the interval created in the render `snap`. */
    method OnTick(snap: State) returns (req: Request)
      requires isRunning && snap.isRunning
      modifies this
      ensures (Snapshot(), req) == Tick(old(Snapshot()), snap)
    {
      var (s', r) := Tick(Snapshot(), snap);
      Set(s');
      req := r;
    }

    method OnReset()
      modifies this
      ensures Snapshot() == Reset(old(Snapshot()))
    {
      isRunning, secondsLeft := false, minutes * 60;
    }

    method OnRestore(saved: Option<Stored>)
      modifies this
      ensures Snapshot() == Restore(saved, old(Snapshot()))
    {
      Set(Restore(saved, Snapshot()));
    }
  }
}
