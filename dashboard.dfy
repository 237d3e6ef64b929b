/** The dashboard (app/dashboard.tsx): the task and subtask selection, the
    "Complete & Move to Done" sequence against the task store and the
    session table, and the two done lists. */
module Dashboard {
  import opened Common
  import opened Tasks
  import Sessions

  /** The page's state: the loaded task list and the two selections
      (`undefined` is `None`). */
  datatype View = View(tasks: seq<TaskWithSubtasks>, taskId: Option<int>, subtaskId: Option<int>)

  /** `onSelectTask`. */
  function SelectTask(v: View, id: int): View {
    v.(taskId := Some(id), subtaskId := None)
  }

  /** `onSelectSubtask`: the "(no subtask)" option reads as 0, and `0 ||
      undefined` is no selection. */
  function SelectSubtask(v: View, id: int): View {
    v.(subtaskId := if id == 0 then None else Some(id))
  }

  /** `load` with the fetched list: the first task is selected when none
      is. */
  function Load(v: View, fetched: seq<TaskWithSubtasks>): View {
    if !IdTruthy(v.taskId) && |fetched| > 0 then v.(tasks := fetched, taskId := Some(fetched[0].task.id))
    else v.(tasks := fetched)
  }

  /** `list.find(x => x.id === id)`. */
  function Find(list: seq<TaskWithSubtasks>, id: int): (r: Option<TaskWithSubtasks>)
    ensures r.Some? ==> r.value in list && r.value.task.id == id
    ensures r.None? ==> forall i :: 0 <= i < |list| ==> list[i].task.id != id
  {
    if list == [] then None
    else if list[0].task.id == id then Some(list[0])
    else Find(list[1..], id)
  }

  predicate AllDone(subs: seq<Subtask>) {
    forall i :: 0 <= i < |subs| ==> subs[i].status == "done"
  }

  /** The server side of `completeSelected` on a store that holds `s`: the
      subtask and, when its (freshly fetched) parent is finished, the
      selected task; or the selected task alone. */
  function CompleteTasks(s: Store, taskId: Option<int>, subtaskId: Option<int>): Store {
    if IdTruthy(subtaskId) then
      var reloaded := Seed(SetSubtaskStatus(s, subtaskId.value, "done"));
      var t := if taskId.Some? then Find(List(reloaded), taskId.value) else None;
      if t.Some? && |t.value.subtasks| > 0 && AllDone(t.value.subtasks) then SetTaskStatus(reloaded, taskId.value, "done")
      else reloaded
    else if IdTruthy(taskId) then SetTaskStatus(s, taskId.value, "done")
    else s
  }

  /** The state `completeSelected` leaves: the store after the updates and
      the reload, the session table with its marker, the page reloaded with
      no subtask selected. */
  datatype World = World(store: Store, log: Sessions.Table, view: View)

  function CompleteSelected(w: World, now: int): World {
    var log := Sessions.Complete(w.log, w.view.taskId, w.view.subtaskId, now);
    var store := Seed(CompleteTasks(w.store, w.view.taskId, w.view.subtaskId));
    World(store, log, Load(w.view.(subtaskId := None), List(store)))
  }

  /** A task with its title, as the done list shows it. */
  datatype DoneSubtask = DoneSubtask(subtask: Subtask, taskTitle: string)

  /** `tasks.filter(t => t.status === 'done')`. */
  function DoneTasks(list: seq<TaskWithSubtasks>): seq<TaskWithSubtasks> {
    if list == [] then []
    else (if list[0].task.status == "done" then [list[0]] else []) + DoneTasks(list[1..])
  }

  function DoneOf(t: TaskWithSubtasks, subs: seq<Subtask>): seq<DoneSubtask> {
    if subs == [] then []
    else (if subs[0].status == "done" then [DoneSubtask(subs[0], t.task.title)] else []) + DoneOf(t, subs[1..])
  }

  /** `tasks.flatMap(t => t.subtasks.map(s => ({ ...s, taskTitle: t.title }))).filter(...)`. */
  function DoneSubtasks(list: seq<TaskWithSubtasks>): seq<DoneSubtask> {
    if list == [] then [] else DoneOf(list[0], list[0].subtasks) + DoneSubtasks(list[1..])
  }

  // ----- properties -----

  /** Selecting a task clears the subtask; selecting the "(no subtask)"
      entry (0) leaves no subtask selected, any other id selects it. */
  lemma SelectionRules(v: View, id: int)
    ensures SelectTask(v, id).taskId == Some(id) && SelectTask(v, id).subtaskId.None?
    ensures SelectTask(v, id).tasks == v.tasks
    ensures SelectSubtask(v, id).subtaskId.None? <==> id == 0
    ensures id != 0 ==> SelectSubtask(v, id).subtaskId == Some(id)
    ensures SelectSubtask(v, id).taskId == v.taskId && SelectSubtask(v, id).tasks == v.tasks
  {
  }

  /** `load` selects the first task only when no task was selected. */
  lemma LoadSelectsFirst(v: View, fetched: seq<TaskWithSubtasks>)
    ensures Load(v, fetched).tasks == fetched && Load(v, fetched).subtaskId == v.subtaskId
    ensures IdTruthy(v.taskId) || fetched == [] ==> Load(v, fetched).taskId == v.taskId
    ensures !IdTruthy(v.taskId) && fetched != [] ==> Load(v, fetched).taskId == Some(fetched[0].task.id)
  {
  }

  /** The listing holds each task of the store with ITS subtasks, so finding
      a task in it finds the task's rows. */
  lemma FindInList(s: Store, id: int)
    ensures var r := Find(List(s), id);
      && (r.Some? <==> exists i :: 0 <= i < |s.tasks| && s.tasks[i].id == id)
      && (r.Some? ==> r.value.task in s.tasks && r.value.subtasks == SubtasksOf(s.subtasks, id))
  {
    var l := List(s);
    var r := Find(l, id);
    if r.Some? {
      var k :| 0 <= k < |l| && l[k] == r.value;
      assert l[k].task == s.tasks[|s.tasks| - 1 - k];
    } else {
      forall i | 0 <= i < |s.tasks| ensures s.tasks[i].id != id {
        assert l[|s.tasks| - 1 - i].task == s.tasks[i];
      }
    }
  }

  /** Completion always records exactly one 'complete' session with the
      current selection, even when nothing is selected, and reloads with no
      subtask selected. A selected task stays selected; with none selected,
      the reload selects the first task of the re-seeded listing. */
  lemma CompletionRecordsMarker(w: World, now: int)
    requires Sessions.WellFormed(w.log)
    ensures var w' := CompleteSelected(w, now);
      && |w'.log.rows| == |w.log.rows| + 1
      && w'.log.rows[..|w.log.rows|] == w.log.rows
      && w'.log.rows[|w.log.rows|].kind == "complete"
      && w'.log.rows[|w.log.rows|].taskId == w.view.taskId
      && w'.log.rows[|w.log.rows|].subtaskId == w.view.subtaskId
      && w'.view.subtaskId.None?
      && w'.view.tasks == List(w'.store)
      && (IdTruthy(w.view.taskId) ==> w'.view.taskId == w.view.taskId)
      && (!IdTruthy(w.view.taskId) ==> |w'.view.tasks| > 0 && w'.view.taskId == Some(w'.view.tasks[0].task.id))
  {
    Sessions.CompleteAddsMarker(w.log, w.view.taskId, w.view.subtaskId, now);
    SeedNonEmpty(CompleteTasks(w.store, w.view.taskId, w.view.subtaskId));
  }

  /** With only a task selected (a non-zero id), that task becomes done and
      nothing else in the store changes. */
  lemma TaskOnlyCompletion(s: Store, tid: int)
    requires WellFormed(s) && tid != 0
    ensures var r := CompleteTasks(s, Some(tid), None);
      && r.subtasks == s.subtasks && |r.tasks| == |s.tasks|
      && (forall i :: 0 <= i < |s.tasks| && s.tasks[i].id == tid ==> r.tasks[i] == s.tasks[i].(status := "done"))
      && (forall i :: 0 <= i < |s.tasks| && s.tasks[i].id != tid ==> r.tasks[i] == s.tasks[i])
  {
    SetStatusOnlyTarget(s, tid, "done");
  }

  /** `s` with subtask `sid` done: every subtask of task `tid` is done in it
      exactly when the task has some subtask and each of them is `sid` or
      was done already. */
  predicate ParentFinished(s: Store, tid: int, sid: int) {
    && (exists j :: 0 <= j < |s.subtasks| && s.subtasks[j].taskId == tid)
    && forall j :: 0 <= j < |s.subtasks| && s.subtasks[j].taskId == tid ==>
         s.subtasks[j].id == sid || s.subtasks[j].status == "done"
  }

  /** Marking one subtask done changes no key, no parent link, and no other
      subtask. */
  lemma MarkedSubtaskAt(s: Store, sid: int, j: nat)
    requires j < |s.subtasks|
    ensures var m := SetSubtaskStatus(s, sid, "done").subtasks[j];
      && m.id == s.subtasks[j].id && m.taskId == s.subtasks[j].taskId
      && (s.subtasks[j].id != sid ==> m == s.subtasks[j])
      && (s.subtasks[j].id == sid ==> m.status == "done")
  {
  }

  lemma KidsDoneIsFinished(s: Store, tid: nat, sid: int)
    requires var kids := SubtasksOf(SetSubtaskStatus(s, sid, "done").subtasks, tid);
      |kids| > 0 && AllDone(kids)
    ensures ParentFinished(s, tid, sid)
  {
    var s1 := SetSubtaskStatus(s, sid, "done");
    var kids := SubtasksOf(s1.subtasks, tid);
    assert kids[0] in s1.subtasks;
    var j0 :| 0 <= j0 < |s1.subtasks| && s1.subtasks[j0] == kids[0];
    MarkedSubtaskAt(s, sid, j0);
    forall j | 0 <= j < |s.subtasks| && s.subtasks[j].taskId == tid
      ensures s.subtasks[j].id == sid || s.subtasks[j].status == "done"
    {
      MarkedSubtaskAt(s, sid, j);
      assert s1.subtasks[j] in kids;
      var k :| 0 <= k < |kids| && kids[k] == s1.subtasks[j];
    }
  }

  lemma FinishedIsKidsDone(s: Store, tid: nat, sid: int)
    requires ParentFinished(s, tid, sid)
    ensures var kids := SubtasksOf(SetSubtaskStatus(s, sid, "done").subtasks, tid);
      |kids| > 0 && AllDone(kids)
  {
    var s1 := SetSubtaskStatus(s, sid, "done");
    var kids := SubtasksOf(s1.subtasks, tid);
    var j0 :| 0 <= j0 < |s.subtasks| && s.subtasks[j0].taskId == tid;
    MarkedSubtaskAt(s, sid, j0);
    assert s1.subtasks[j0] in kids;
    forall i | 0 <= i < |kids| ensures kids[i].status == "done" {
      assert kids[i] in s1.subtasks;
      var j :| 0 <= j < |s1.subtasks| && s1.subtasks[j] == kids[i];
      MarkedSubtaskAt(s, sid, j);
    }
  }

  /** Once `sid` is done, task `tid` has subtasks and all are done exactly
      when `ParentFinished` holds of the store before. */
  lemma AllDoneMeaning(s: Store, tid: nat, sid: int)
    ensures var kids := SubtasksOf(SetSubtaskStatus(s, sid, "done").subtasks, tid);
      |kids| > 0 && AllDone(kids) <==> ParentFinished(s, tid, sid)
  {
    var kids := SubtasksOf(SetSubtaskStatus(s, sid, "done").subtasks, tid);
    if |kids| > 0 && AllDone(kids) {
      KidsDoneIsFinished(s, tid, sid);
    }
    if ParentFinished(s, tid, sid) {
      FinishedIsKidsDone(s, tid, sid);
    }
  }

  /** With a subtask selected in a seeded store: that subtask becomes done;
      the selected task becomes done exactly when it was done already or all
      its subtasks are done once this one is (and it has at least one); no
      other task changes. The parent looked up is the SELECTED task. */
  lemma SubtaskCompletion(s: Store, tid: nat, sid: nat)
    requires WellFormed(s) && |s.tasks| > 0 && sid != 0
    ensures var r := CompleteTasks(s, Some(tid), Some(sid));
      && |r.tasks| == |s.tasks| && |r.subtasks| == |s.subtasks|
      && (forall j :: 0 <= j < |s.subtasks| ==>
            r.subtasks[j] == if s.subtasks[j].id == sid then s.subtasks[j].(status := "done") else s.subtasks[j])
      && (forall i :: 0 <= i < |s.tasks| && s.tasks[i].id != tid ==> r.tasks[i] == s.tasks[i])
      && (forall i :: 0 <= i < |s.tasks| && s.tasks[i].id == tid ==>
            && r.tasks[i].title == s.tasks[i].title
            && (r.tasks[i].status == "done" <==> s.tasks[i].status == "done" || ParentFinished(s, tid, sid)))
  {
    SubtaskBranch(s, tid, sid);
    SetStatusOnlyTarget(s, sid, "done");
    var s1 := SetSubtaskStatus(s, sid, "done");
    SetStatusOnlyTarget(s1, tid, "done");
  }

  /** The subtask branch of the completion: the subtask is marked, and the
      selected task is marked too exactly when `ParentFinished` holds (a
      missing task is then left alone either way). */
  lemma SubtaskBranch(s: Store, tid: nat, sid: nat)
    requires |s.tasks| > 0 && sid != 0
    ensures var s1 := SetSubtaskStatus(s, sid, "done");
      CompleteTasks(s, Some(tid), Some(sid)) == if ParentFinished(s, tid, sid) then SetTaskStatus(s1, tid, "done") else s1
  {
    var s1 := SetSubtaskStatus(s, sid, "done");
    assert Seed(s1) == s1;
    FindInList(s1, tid);
    AllDoneMeaning(s, tid, sid);
    var t := Find(List(s1), tid);
    if t.Some? {
      assert t.value.subtasks == SubtasksOf(s1.subtasks, tid);
    } else if ParentFinished(s, tid, sid) {
      assert SetTaskStatus(s1, tid, "done").tasks == s1.tasks;
    }
  }

  /** The done lists hold exactly the done tasks, and exactly the done
      subtasks of the listed tasks, each paired with its task's title. */
  lemma {:induction false} DoneTasksMembership(list: seq<TaskWithSubtasks>, t: TaskWithSubtasks)
    ensures t in DoneTasks(list) <==> t in list && t.task.status == "done"
  {
    if list != [] {
      DoneTasksMembership(list[1..], t);
      assert list == [list[0]] + list[1..];
    }
  }

  lemma {:induction false} DoneOfMembership(t: TaskWithSubtasks, subs: seq<Subtask>, d: DoneSubtask)
    ensures d in DoneOf(t, subs) <==> d.subtask in subs && d.subtask.status == "done" && d.taskTitle == t.task.title
  {
    if subs != [] {
      DoneOfMembership(t, subs[1..], d);
      assert subs == [subs[0]] + subs[1..];
    }
  }

  /** `d` is a done subtask of `t`, shown with `t`'s title. */
  predicate DoneUnder(t: TaskWithSubtasks, d: DoneSubtask) {
    d.subtask in t.subtasks && d.subtask.status == "done" && d.taskTitle == t.task.title
  }

  lemma {:induction false} DoneSubtasksMembership(list: seq<TaskWithSubtasks>, d: DoneSubtask)
    ensures d in DoneSubtasks(list) <==> exists i :: 0 <= i < |list| && DoneUnder(list[i], d)
  {
    if list != [] {
      DoneSubtasksMembership(list[1..], d);
      DoneOfMembership(list[0], list[0].subtasks, d);
      if d in DoneSubtasks(list[1..]) {
        var i :| 0 <= i < |list[1..]| && DoneUnder(list[1..][i], d);
        assert list[i + 1] == list[1..][i];
      }
      if exists i :: 0 <= i < |list| && DoneUnder(list[i], d) {
        var i :| 0 <= i < |list| && DoneUnder(list[i], d);
        if i > 0 {
          assert list[1..][i - 1] == list[i];
        }
      }
    }
  }

  /** The page's state fields. The store and the session table are the
      objects its requests reach. */
  class DashboardPage {
    var tasks: seq<TaskWithSubtasks>
    var taskId: Option<int>
    var subtaskId: Option<int>

    function State(): View
      reads this
    {
      View(tasks, taskId, subtaskId)
    }

    constructor ()
      ensures State() == View([], None, None)
    {
      tasks, taskId, subtaskId := [], None, None;
    }

    method OnSelectTask(id: int)
      modifies this
      ensures State() == SelectTask(old(State()), id)
    {
      taskId, subtaskId := Some(id), None;
    }

    method OnSelectSubtask(id: int)
      modifies this
      ensures State() == SelectSubtask(old(State()), id)
    {
      subtaskId := if id == 0 then None else Some(id);
    }

    /** `load`: `GET /api/tasks`, then the selection rule. */
    method OnLoad(store: TaskStore)
      requires WellFormed(store.State())
      modifies this, store
      ensures WellFormed(store.State()) && store.State() == Seed(old(store.State()))
      ensures State() == Load(old(State()), List(store.State()))
    {
      var t := store.Get();
      if !IdTruthy(taskId) && |t| > 0 {
        taskId := Some(t[0].task.id);
      }
      tasks := t;
    }

    /** `completeSelected`, step by step. */
    method OnCompleteSelected(store: TaskStore, log: Sessions.SessionStore, now: int)
      requires WellFormed(store.State()) && Sessions.WellFormed(log.State())
      modifies this, store, log
      ensures WellFormed(store.State()) && Sessions.WellFormed(log.State())
      ensures World(store.State(), log.State(), State())
        == CompleteSelected(World(old(store.State()), old(log.State()), old(State())), now)
    {
      var _ := log.Post(Sessions.Body(Some("complete"), None, taskId, subtaskId, None, None), now);
      CompleteTasksOn(store, taskId, subtaskId);
      subtaskId := None;
      OnLoad(store);
    }

    /** The status updates of `completeSelected`. */
    static method CompleteTasksOn(store: TaskStore, taskId: Option<int>, subtaskId: Option<int>)
      requires WellFormed(store.State())
      modifies store
      ensures WellFormed(store.State())
      ensures store.State() == CompleteTasks(old(store.State()), taskId, subtaskId)
    {
      if IdTruthy(subtaskId) {
        store.PatchSubtask(subtaskId.value, "done");
        var reloaded := store.Get();
        var t := if taskId.Some? then Find(reloaded, taskId.value) else None;
        if t.Some? && |t.value.subtasks| > 0 && AllDone(t.value.subtasks) {
          store.PatchTask(taskId.value, "done");
        }
      } else if IdTruthy(taskId) {
        store.PatchTask(taskId.value, "done");
      }
    }
  }
}
