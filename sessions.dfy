/** The session table and the `POST /api/sessions` actions `start`, `stop`
    and `complete` (app/api/sessions/route.ts). Timestamps are integers
    (milliseconds); the clock is the parameter `now`. */
module Sessions {
  import opened Common

  /** One row of the session table. `kind` is the stored `type` column:
      'focus', 'track', 'complete', or whatever the client sent (the
      pomodoro sends its mode, so 'break' rows exist too). */
  datatype Session = Session(
    id: nat,
    kind: string,
    startedAt: int,
    endedAt: Option<int>,
    durationSec: Option<int>,
    taskId: Option<int>,
    subtaskId: Option<int>)

  /** `durationSec ?? 0`, the value every aggregate adds up. */
  function Duration(s: Session): int {
    s.durationSec.GetOr(0)
  }

  /** Rows in strictly ascending id order, the order an autoincrement key
      produces. */
  predicate AscendingIds(rows: seq<Session>) {
    forall i, j :: 0 <= i < j < |rows| ==> rows[i].id < rows[j].id
  }

  /** No stored duration is negative. */
  predicate NonNegativeDurations(rows: seq<Session>) {
    forall i :: 0 <= i < |rows| ==> Duration(rows[i]) >= 0
  }

  /** The whole table: its rows and the next id the key will hand out. */
  datatype Table = Table(rows: seq<Session>, nextId: nat)

  predicate WellFormed(t: Table) {
    && AscendingIds(t.rows)
    && (forall i :: 0 <= i < |t.rows| ==> t.rows[i].id < t.nextId)
    && NonNegativeDurations(t.rows)
  }

  // ----- the three actions, as functions of the table -----

  /** `start`: a new unfinished row; `type` defaults to 'track', the links to null. */
  function Start(t: Table, kind: Option<string>, taskId: Option<int>, subtaskId: Option<int>, now: int): Table {
    Table(t.rows + [Session(t.nextId, kind.GetOr("track"), now, None, None, taskId, subtaskId)], t.nextId + 1)
  }

  /** The index of the row with key `id`, if there is one. */
  function IndexOf(rows: seq<Session>, id: int): (r: Option<nat>)
    ensures r.Some? ==> r.value < |rows| && rows[r.value].id == id
    ensures r.None? ==> forall i :: 0 <= i < |rows| ==> rows[i].id != id
  {
    if rows == [] then None
    else if rows[|rows| - 1].id == id then Some(|rows| - 1)
    else IndexOf(rows[..|rows| - 1], id)
  }

  /** The update `stop` writes into one row. */
  function Finalize(s: Session, elapsed: int, now: int): Session {
    s.(endedAt := Some(now), durationSec := Some(Max(elapsed, 0)))
  }

  /** `stop`: finalise the row with key `id`; `None` when no row has it (the
      store's update throws and nothing is written). */
  function Stop(t: Table, id: int, elapsed: int, now: int): Option<Table> {
    if IndexOf(t.rows, id).None? then None
    else
      Some(Table(
        seq(|t.rows|, i requires 0 <= i < |t.rows| =>
          if t.rows[i].id == id then Finalize(t.rows[i], elapsed, now) else t.rows[i]),
        t.nextId))
  }

  /** `complete`: a finished zero-length marker row. */
  function Complete(t: Table, taskId: Option<int>, subtaskId: Option<int>, now: int): Table {
    Table(t.rows + [Session(t.nextId, "complete", now, Some(now), Some(0), taskId, subtaskId)], t.nextId + 1)
  }

  // ----- properties of the actions -----

  /** `start` appends exactly one row, under a fresh id, with the defaults
      filled in and no end or duration; every earlier row is kept. */
  lemma StartAddsOneRow(t: Table, kind: Option<string>, taskId: Option<int>, subtaskId: Option<int>, now: int)
    requires WellFormed(t)
    ensures var t' := Start(t, kind, taskId, subtaskId, now);
      && WellFormed(t')
      && |t'.rows| == |t.rows| + 1
      && t'.rows[..|t.rows|] == t.rows
      && var s := t'.rows[|t.rows|];
      && IndexOf(t.rows, s.id).None?
      && s.startedAt == now
      && s.kind == (if kind.Some? then kind.value else "track")
      && s.taskId == taskId && s.subtaskId == subtaskId
      && s.endedAt.None? && s.durationSec.None?
  {
    var t' := Start(t, kind, taskId, subtaskId, now);
    assert IndexOf(t.rows, t.nextId).None?;
    assert forall i :: 0 <= i < |t.rows| ==> t'.rows[i] == t.rows[i];
  }

  /** `stop` succeeds exactly when the id is in the table; it then sets the
      end time and a non-negative duration on that row and on no other, and
      keeps the table well formed. */
  lemma StopOnlyTarget(t: Table, id: int, elapsed: int, now: int)
    requires WellFormed(t)
    ensures Stop(t, id, elapsed, now).Some? <==> exists i :: 0 <= i < |t.rows| && t.rows[i].id == id
    ensures match Stop(t, id, elapsed, now)
      case None => true
      case Some(t') =>
        && WellFormed(t')
        && t'.nextId == t.nextId && |t'.rows| == |t.rows|
        && forall i :: 0 <= i < |t.rows| ==>
             if t.rows[i].id == id then
               && t'.rows[i].durationSec == Some(if elapsed > 0 then elapsed else 0)
               && t'.rows[i].endedAt == Some(now)
               && t'.rows[i].(endedAt := t.rows[i].endedAt, durationSec := t.rows[i].durationSec) == t.rows[i]
             else t'.rows[i] == t.rows[i]
  {
    if IndexOf(t.rows, id).Some? {
      var k := IndexOf(t.rows, id).value;
      assert t.rows[k].id == id;
    }
  }

  /** Stopping the same session twice leaves what the second stop wrote: the
      same duration when `elapsed` repeats, the new one otherwise. */
  lemma StopTwiceLastWins(t: Table, id: int, e1: int, t1: int, e2: int, t2: int)
    requires Stop(t, id, e1, t1).Some?
    ensures Stop(Stop(t, id, e1, t1).value, id, e2, t2) == Stop(t, id, e2, t2)
  {
    var u := Stop(t, id, e1, t1).value;
    var k := IndexOf(t.rows, id).value;
    assert u.rows[k].id == id;
    assert Stop(u, id, e2, t2).value.rows == Stop(t, id, e2, t2).value.rows;
  }

  /** `complete` appends one finished row of type 'complete', zero seconds
      long, that starts and ends at `now`. */
  lemma CompleteAddsMarker(t: Table, taskId: Option<int>, subtaskId: Option<int>, now: int)
    requires WellFormed(t)
    ensures var t' := Complete(t, taskId, subtaskId, now);
      && WellFormed(t')
      && |t'.rows| == |t.rows| + 1
      && t'.rows[..|t.rows|] == t.rows
      && var s := t'.rows[|t.rows|];
      && IndexOf(t.rows, s.id).None?
      && s.kind == "complete" && s.durationSec == Some(0)
      && s.endedAt == Some(s.startedAt) && s.startedAt == now
      && s.taskId == taskId && s.subtaskId == subtaskId
  {
    var t' := Complete(t, taskId, subtaskId, now);
    assert IndexOf(t.rows, t.nextId).None?;
    assert forall i :: 0 <= i < |t.rows| ==> t'.rows[i] == t.rows[i];
  }

  // ----- the request handler -----

  /** The fields of the JSON body the handler reads. Absent and null are both
      `None`; `id` and `elapsed` are the results of `Number(...)`. */
  datatype Body = Body(
    action: Option<string>,
    kind: Option<string>,
    taskId: Option<int>,
    subtaskId: Option<int>,
    id: Option<int>,
    elapsed: Option<int>)

  datatype Response =
    | Started(id: nat, startedAt: int)
    | Stopped(id: nat)
    | Completed
    | StoreFailure          // the store's update threw: the request fails
    | Error(status: nat, message: string)

  /** The table as a mutable object: the handler's create and update calls
      change it in place. */
  class SessionStore {
    var rows: seq<Session>
    var nextId: nat

    function State(): Table
      reads this
    {
      Table(rows, nextId)
    }

    constructor ()
      ensures WellFormed(State()) && rows == []
    {
      rows := [];
      nextId := 1;
    }

    method Post(body: Body, now: int) returns (resp: Response)
      requires WellFormed(State())
      modifies this
      ensures WellFormed(State())
      ensures body.action == Some("start") ==>
        && State() == Start(old(State()), body.kind, body.taskId, body.subtaskId, now)
        && resp == Started(old(nextId), now)
      ensures body.action == Some("stop") ==>
        var r := if body.id.Some? then Stop(old(State()), body.id.value, body.elapsed.GetOr(0), now) else None;
        if r.Some? then State() == r.value && resp == Stopped(body.id.value)
        else State() == old(State()) && resp == StoreFailure
      ensures body.action == Some("complete") ==>
        State() == Complete(old(State()), body.taskId, body.subtaskId, now) && resp == Completed
      ensures body.action !in {Some("start"), Some("stop"), Some("complete")} ==>
        State() == old(State()) && resp == Error(400, "unknown action")
    {
      if body.action == Some("start") {
        StartAddsOneRow(State(), body.kind, body.taskId, body.subtaskId, now);
        resp := Started(nextId, now);
        rows := Start(State(), body.kind, body.taskId, body.subtaskId, now).rows;
        nextId := nextId + 1;
      } else if body.action == Some("stop") {
        var r := if body.id.Some? then Stop(State(), body.id.value, body.elapsed.GetOr(0), now) else None;
        if r.Some? {
          StopOnlyTarget(State(), body.id.value, body.elapsed.GetOr(0), now);
          rows := r.value.rows;
          resp := Stopped(body.id.value);
        } else {
          resp := StoreFailure;
        }
      } else if body.action == Some("complete") {
        CompleteAddsMarker(State(), body.taskId, body.subtaskId, now);
        rows := Complete(State(), body.taskId, body.subtaskId, now).rows;
        nextId := nextId + 1;
        resp := Completed;
      } else {
        resp := Error(400, "unknown action");
      }
    }
  }
}
