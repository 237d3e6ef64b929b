/** `GET /api/sessions/recent` (app/api/sessions/recent/route.ts): the fifty
    newest sessions, id descending, with minutes and linked titles. The
    joined task and subtask tables are maps from id to title. */
module SessionsRecent {
  import opened Common
  import opened Sessions

  const Limit: nat := 50

  /** One row of the answer. `startedAt` stands for the localised date string. */
  datatype Row = Row(
    id: nat,
    kind: string,
    minutes: int,
    startedAt: int,
    taskTitle: Option<string>,
    subtaskTitle: Option<string>)

  /** `task?.title ?? null` for an optional link into a title table. */
  function Title(link: Option<int>, titles: map<int, string>): Option<string> {
    if link.Some? && link.value in titles then Some(titles[link.value]) else None
  }

  function ToRow(s: Session, tasks: map<int, string>, subtasks: map<int, string>): Row {
    Row(s.id, s.kind, RoundMinutes(Duration(s)), s.startedAt, Title(s.taskId, tasks), Title(s.subtaskId, subtasks))
  }

  /** `orderBy: { id: 'desc' }, take: 50` over rows kept in ascending id
      order, then the `map` to rows. */
  function Recent(rows: seq<Session>, tasks: map<int, string>, subtasks: map<int, string>): (r: seq<Row>)
    ensures |r| == Min(Limit, |rows|)
  {
    var n := Min(Limit, |rows|);
    seq(n, i requires 0 <= i < n => ToRow(rows[|rows| - 1 - i], tasks, subtasks))
  }

  // ----- properties -----

  /** At most fifty rows, in strictly descending id order, and they are the
      newest sessions: the rows shown are the last ones of the table, and
      every session left out has a smaller id than every session shown. */
  lemma NewestFirst(rows: seq<Session>, tasks: map<int, string>, subtasks: map<int, string>)
    requires AscendingIds(rows)
    ensures var r := Recent(rows, tasks, subtasks);
      && |r| <= Limit
      && (forall i :: 0 <= i < |r| ==> r[i].id == rows[|rows| - 1 - i].id)
      && (forall i, j :: 0 <= i < j < |r| ==> r[i].id > r[j].id)
      && (forall k, i :: 0 <= k < |rows| - |r| && 0 <= i < |r| ==> rows[k].id < r[i].id)
  {
    var r := Recent(rows, tasks, subtasks);
    forall i | 0 <= i < |r| ensures r[i].id == rows[|rows| - 1 - i].id {
      assert r[i] == ToRow(rows[|rows| - 1 - i], tasks, subtasks);
    }
  }

  /** Each row carries its session's id and type unchanged, its duration
      rounded to minutes (0 when unset), and a title exactly when the session
      links to an existing task or subtask. */
  lemma RowsDescribeSessions(rows: seq<Session>, tasks: map<int, string>, subtasks: map<int, string>, i: nat)
    requires i < Min(Limit, |rows|)
    ensures var row := Recent(rows, tasks, subtasks)[i];
      var s := rows[|rows| - 1 - i];
      && row.id == s.id && row.kind == s.kind && row.startedAt == s.startedAt
      && (s.durationSec.None? ==> row.minutes == 0)
      && 60 * row.minutes - 30 <= Duration(s) < 60 * row.minutes + 30
      && (row.taskTitle.None? <==> s.taskId.None? || s.taskId.value !in tasks)
      && (row.subtaskTitle.None? <==> s.subtaskId.None? || s.subtaskId.value !in subtasks)
      && (row.taskTitle.Some? ==> row.taskTitle.value == tasks[s.taskId.value])
      && (row.subtaskTitle.Some? ==> row.subtaskTitle.value == subtasks[s.subtaskId.value])
  {
  }
}
