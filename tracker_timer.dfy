/** The count-up tracker (components/TrackerTimer.tsx). Each handler is a
    function from the state snapshot of the render it was created in to the
    next state and the session request it sends: every read inside a
    handler sees the values from before the call. The class holds the
    component's state fields and applies those functions. */
module TrackerTimer {
  import opened Common
  import opened Timers

  datatype State = State(seconds: nat, isRunning: bool, sessionId: Option<int>)

  const Initial := State(0, false, None)

  /** `start`; `newId` is the id in the server's reply. */
  function Start(s: State, p: Props, newId: int): (State, Request) {
    if s.isRunning then (s, NoRequest)
    else (s.(isRunning := true, sessionId := Some(newId)), StartSession("track", p.taskId, p.subtaskId))
  }

  /** `stop`: only a running timer stops; a held session is reported with
      the counted seconds and released. */
  function Stop(s: State): (State, Request) {
    if !s.isRunning then (s, NoRequest)
    else if IdTruthy(s.sessionId) then
      (s.(isRunning := false, sessionId := None), StopSession(s.sessionId.value, s.seconds))
    else (s.(isRunning := false), NoRequest)
  }

  /** The interval callback `s => s + 1`; the interval exists only while running. */
  function Tick(s: State): State
    requires s.isRunning
  {
    s.(seconds := s.seconds + 1)
  }

  /** `reset`. */
  function Reset(s: State): State {
    s.(seconds := 0, isRunning := false)
  }

  /** What local storage holds under the key; missing fields are `None`. */
  datatype Stored = Stored(seconds: Option<nat>, isRunning: Option<bool>, sessionId: Option<int>)

  /** The write effect. */
  function Persist(s: State): Stored {
    Stored(Some(s.seconds), Some(s.isRunning), s.sessionId)
  }

  /** The restore effect: nothing when the key is empty, otherwise the stored
      fields with 0, false and null for missing ones. */
  function Restore(saved: Option<Stored>, s: State): State {
    match saved
    case None => s
    case Some(d) => State(d.seconds.GetOr(0), d.isRunning.GetOr(false), d.sessionId)
  }

  function Key(p: Props): string {
    StorageKey(TrackPrefix, p)
  }

  // ----- properties -----

  /** `start` while running changes nothing and sends nothing; otherwise it
      runs, holds the new session and asks for a 'track' session for the
      selection, keeping the count. */
  lemma StartGuard(s: State, p: Props, newId: int)
    ensures var (s', req) := Start(s, p, newId);
      if s.isRunning then s' == s && req == NoRequest
      else && s'.isRunning && s'.seconds == s.seconds && s'.sessionId == Some(newId)
           && req == StartSession("track", p.taskId, p.subtaskId)
  {
  }

  /** `stop` while stopped is a no-op; otherwise the timer stops with its
      count intact, and a held session is reported with elapsed = the count
      and then released. */
  lemma StopReportsCount(s: State)
    ensures var (s', req) := Stop(s);
      && (!s.isRunning ==> s' == s && req == NoRequest)
      && (s.isRunning ==> !s'.isRunning && s'.seconds == s.seconds)
      && (s.isRunning && IdTruthy(s.sessionId) ==>
            s'.sessionId.None? && req == StopSession(s.sessionId.value, s.seconds))
      && (req.StopSession? ==> req.elapsed == s.seconds && req.elapsed >= 0)
  {
  }

  /** A tick adds exactly one second and touches nothing else. */
  lemma TickAddsOne(s: State)
    requires s.isRunning
    ensures Tick(s).seconds == s.seconds + 1
    ensures Tick(s).(seconds := s.seconds) == s
  {
  }

  /** `reset` zeroes the count and stops, but keeps the held session. */
  lemma ResetKeepsSession(s: State)
    ensures Reset(s).seconds == 0 && !Reset(s).isRunning && Reset(s).sessionId == s.sessionId
  {
  }

  /** Restoring what was persisted gives the state back; an empty record
      restores 0, false and null. */
  lemma RestorePersisted(s: State, other: State)
    ensures Restore(Some(Persist(s)), other) == s
    ensures Restore(Some(Stored(None, None, None)), other) == Initial
    ensures Restore(None, other) == other
  {
  }

  /** The timer's state fields, updated in place by its handlers. */
  class Tracker {
    const props: Props
    var seconds: nat
    var isRunning: bool
    var sessionId: Option<int>

    function Snapshot(): State
      reads this
    {
      State(seconds, isRunning, sessionId)
    }

    method Set(s: State)
      modifies this
      ensures Snapshot() == s
    {
      seconds, isRunning, sessionId := s.seconds, s.isRunning, s.sessionId;
    }

    constructor (p: Props)
      ensures props == p && Snapshot() == Initial
    {
      props := p;
      seconds, isRunning, sessionId := 0, false, None;
    }

    method OnStart(newId: int) returns (req: Request)
      modifies this
      ensures (Snapshot(), req) == Start(old(Snapshot()), props, newId)
    {
      var (s', r) := Start(Snapshot(), props, newId);
      Set(s');
      req := r;
    }

    method OnStop() returns (req: Request)
      modifies this
      ensures (Snapshot(), req) == Stop(old(Snapshot()))
    {
      var (s', r) := Stop(Snapshot());
      Set(s');
      req := r;
    }

    method OnTick()
      requires isRunning
      modifies this
      ensures Snapshot() == Tick(old(Snapshot()))
    {
      seconds := seconds + 1;
    }

    method OnReset()
      modifies this
      ensures Snapshot() == Reset(old(Snapshot()))
    {
      seconds, isRunning := 0, false;
    }

    method OnRestore(saved: Option<Stored>)
      modifies this
      ensures Snapshot() == Restore(saved, old(Snapshot()))
    {
      Set(Restore(saved, Snapshot()));
    }
  }
}
