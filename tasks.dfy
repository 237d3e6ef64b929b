/** The task store behind `GET` / `POST /api/tasks` (app/api/tasks/route.ts):
    first-run seeding, the id-descending listing and task creation. Both
    tables use autoincrement keys, so their rows are kept in ascending id
    order and `next...Id` is the key the next insert receives. */
module Tasks {
  import opened Common

  datatype Task = Task(id: nat, title: string, status: string)
  datatype Subtask = Subtask(id: nat, title: string, status: string, taskId: nat, order: int)

  /** The two tables as a value. */
  datatype Store = Store(tasks: seq<Task>, subtasks: seq<Subtask>, nextTaskId: nat, nextSubtaskId: nat)

  predicate WellFormed(s: Store) {
    && (forall i, j :: 0 <= i < j < |s.tasks| ==> s.tasks[i].id < s.tasks[j].id)
    && (forall i :: 0 <= i < |s.tasks| ==> s.tasks[i].id < s.nextTaskId)
    && (forall i, j :: 0 <= i < j < |s.subtasks| ==> s.subtasks[i].id < s.subtasks[j].id)
    && (forall i :: 0 <= i < |s.subtasks| ==> s.subtasks[i].id < s.nextSubtaskId)
  }

  /** The first-run tasks and their subtasks, in insertion order. */
  const Defaults: Template := [
    ("Workout", ["Warm-up", "Strength x3", "Cool down"]),
    ("Project 1 — (edit name)", ["Literature review", "Design experiment", "Data collection", "Analysis", "Write draft"]),
    ("Read papers", ["Pick 2 papers", "Skim & highlight", "Write 5 bullets each"]),
    ("Advisor meeting prep", ["Agenda", "Updates", "Questions", "Next steps"]),
    ("Coursework / TA", ["Prepare section", "Grade batch", "Office hours"]),
    ("Writing", ["Outline", "Write 300 words", "Revise 300 words"]),
    ("Coding experiments", ["Implement baseline", "Run ablation", "Plot results"])
  ]

  /** A list of task titles, each with its subtask titles. */
  type Template = seq<(string, seq<string>)>

  /** A new task row; the status column defaults to 'todo'. */
  function NewTask(id: nat, title: string): Task {
    Task(id, title, "todo")
  }

  /** The seeded tasks, keys from `first` on. */
  function SeededTasks(ds: Template, first: nat): seq<Task> {
    seq(|ds|, i requires 0 <= i < |ds| => NewTask(first + i, ds[i].0))
  }

  /** One seeded task's subtasks: keys from `first` on, `order` = position. */
  function SubsFor(taskId: nat, first: nat, names: seq<string>): seq<Subtask> {
    seq(|names|, i requires 0 <= i < |names| => Subtask(first + i, names[i], "todo", taskId, i))
  }

  /** The number of subtasks of the first `k` defaults. */
  function SubCount(ds: Template, k: nat): nat
    requires k <= |ds|
  {
    if k == 0 then 0 else SubCount(ds, k - 1) + |ds[k - 1].1|
  }

  /** The subtasks the nested loops insert for the first `k` defaults. */
  function SeededSubs(ds: Template, k: nat, firstTask: nat, firstSub: nat): (r: seq<Subtask>)
    requires k <= |ds|
    ensures |r| == SubCount(ds, k)
  {
    if k == 0 then []
    else (SeededSubs(ds, k - 1, firstTask, firstSub)
          + SubsFor(firstTask + k - 1, firstSub + SubCount(ds, k - 1), ds[k - 1].1))
  }

  /** `seedIfEmpty`: nothing when a task exists, otherwise every default task
      and its subtasks. */
  function Seed(s: Store): Store {
    if |s.tasks| > 0 then s
    else Store(
      SeededTasks(Defaults, s.nextTaskId),
      s.subtasks + SeededSubs(Defaults, |Defaults|, s.nextTaskId, s.nextSubtaskId),
      s.nextTaskId + |Defaults|,
      s.nextSubtaskId + SubCount(Defaults, |Defaults|))
  }

  /** A task as the listing returns it, with its subtasks. */
  datatype TaskWithSubtasks = TaskWithSubtasks(task: Task, subtasks: seq<Subtask>)

  /** The subtasks of task `id`, in table order. */
  function SubtasksOf(subtasks: seq<Subtask>, id: nat): (r: seq<Subtask>)
    ensures forall st :: st in r <==> st in subtasks && st.taskId == id
  {
    if subtasks == [] then []
    else
      var last := subtasks[|subtasks| - 1];
      assert subtasks == subtasks[..|subtasks| - 1] + [last];
      SubtasksOf(subtasks[..|subtasks| - 1], id) + (if last.taskId == id then [last] else [])
  }

  /** `findMany({ include: { subtasks: true }, orderBy: { id: 'desc' } })`. */
  function List(s: Store): (r: seq<TaskWithSubtasks>)
    ensures |r| == |s.tasks|
  {
    seq(|s.tasks|, i requires 0 <= i < |s.tasks| =>
      var t := s.tasks[|s.tasks| - 1 - i];
      TaskWithSubtasks(t, SubtasksOf(s.subtasks, t.id)))
  }

  /** `POST`: a new task titled as given, 'Untitled' only when the title is null or absent. */
  function Create(s: Store, title: Option<string>): Store {
    Store(s.tasks + [NewTask(s.nextTaskId, title.GetOr("Untitled"))], s.subtasks, s.nextTaskId + 1, s.nextSubtaskId)
  }

  /** The status change `PATCH /api/tasks/:id` makes, as the dashboard uses
      it: the task with that id takes the new status; no task has it, nothing
      changes. */
  function SetTaskStatus(s: Store, id: int, status: string): (r: Store)
    ensures |r.tasks| == |s.tasks| && r.subtasks == s.subtasks
    ensures r.nextTaskId == s.nextTaskId && r.nextSubtaskId == s.nextSubtaskId
  {
    s.(tasks := seq(|s.tasks|, i requires 0 <= i < |s.tasks| =>
      if s.tasks[i].id == id then s.tasks[i].(status := status) else s.tasks[i]))
  }

  /** The status change `PATCH /api/subtasks/:id` makes, likewise. */
  function SetSubtaskStatus(s: Store, id: int, status: string): (r: Store)
    ensures |r.subtasks| == |s.subtasks| && r.tasks == s.tasks
    ensures r.nextTaskId == s.nextTaskId && r.nextSubtaskId == s.nextSubtaskId
  {
    s.(subtasks := seq(|s.subtasks|, i requires 0 <= i < |s.subtasks| =>
      if s.subtasks[i].id == id then s.subtasks[i].(status := status) else s.subtasks[i]))
  }

  // ----- properties -----

  /** Seeding does nothing once a task exists, so a second seeding is a no-op. */
  lemma SeedIdempotent(s: Store)
    ensures |s.tasks| > 0 ==> Seed(s) == s
    ensures Seed(Seed(s)) == Seed(s)
  {
    assert |SeededTasks(Defaults, s.nextTaskId)| == 7;
  }

  /** Seeding an empty store creates the seven listed tasks, in list order,
      with fresh ascending keys, and 24 subtasks; it keeps the store well formed. */
  lemma SeedEmptyStore(s: Store)
    requires WellFormed(s) && s.tasks == []
    ensures var s' := Seed(s);
      && WellFormed(s')
      && |s'.tasks| == 7
      && (forall i :: 0 <= i < 7 ==> s'.tasks[i].title == Defaults[i].0 && s'.tasks[i].status == "todo")
      && |s'.subtasks| == |s.subtasks| + 24
      && s'.subtasks[..|s.subtasks|] == s.subtasks
  {
    var s' := Seed(s);
    SeededTasksFacts(s.nextTaskId);
    var subs := SeededSubs(Defaults, |Defaults|, s.nextTaskId, s.nextSubtaskId);
    assert s'.subtasks == s.subtasks + subs;
    SeededSubsIds(Defaults, |Defaults|, s.nextTaskId, s.nextSubtaskId);
    AppendAscending(s.subtasks, subs, s.nextSubtaskId);
    SubCountIs24();
  }

  /** The seeded tasks: seven, keys ascending from `first`, titled from the
      defaults, all 'todo'. */
  lemma SeededTasksFacts(first: nat)
    ensures var ts := SeededTasks(Defaults, first);
      && |ts| == 7
      && (forall i, j :: 0 <= i < j < |ts| ==> ts[i].id < ts[j].id)
      && (forall i :: 0 <= i < |ts| ==> ts[i].id == first + i)
      && (forall i :: 0 <= i < |ts| ==> ts[i].id < first + 7)
      && (forall i :: 0 <= i < 7 ==> ts[i].title == Defaults[i].0 && ts[i].status == "todo")
  {
  }

  /** Appending keys that run on from `next` to a table whose keys are all
      below `next` keeps the keys ascending. */
  lemma AppendAscending(old_: seq<Subtask>, added: seq<Subtask>, next: nat)
    requires forall i, j :: 0 <= i < j < |old_| ==> old_[i].id < old_[j].id
    requires forall i :: 0 <= i < |old_| ==> old_[i].id < next
    requires forall i :: 0 <= i < |added| ==> added[i].id == next + i
    ensures var all := old_ + added;
      && (forall i, j :: 0 <= i < j < |all| ==> all[i].id < all[j].id)
      && (forall i :: 0 <= i < |all| ==> all[i].id < next + |added|)
      && all[..|old_|] == old_
  {
  }

  lemma SubCountIs24()
    ensures SubCount(Defaults, |Defaults|) == 24
  {
    assert SubCount(Defaults, 1) == 3;
    assert SubCount(Defaults, 2) == 8;
    assert SubCount(Defaults, 3) == 11;
    assert SubCount(Defaults, 4) == 15;
    assert SubCount(Defaults, 5) == 18;
    assert SubCount(Defaults, 6) == 21;
  }

  /** The seeded subtask keys run consecutively from `firstSub`. */
  lemma {:induction false} SeededSubsIds(ds: Template, k: nat, firstTask: nat, firstSub: nat)
    requires k <= |ds|
    ensures forall i :: 0 <= i < SubCount(ds, k) ==> SeededSubs(ds, k, firstTask, firstSub)[i].id == firstSub + i
  {
    if k > 0 {
      SeededSubsIds(ds, k - 1, firstTask, firstSub);
    }
  }

  /** Default task `j` (of the first `k`) gets exactly its listed subtasks,
      in list order, linked to its key and numbered 0..n-1 by `order`: they
      form one contiguous block of the seeded subtasks. */
  lemma {:induction false} SeededSubsBlock(ds: Template, k: nat, firstTask: nat, firstSub: nat, j: nat)
    requires j < k <= |ds|
    ensures SubCount(ds, j + 1) <= SubCount(ds, k)
    ensures var block := SeededSubs(ds, k, firstTask, firstSub)[SubCount(ds, j)..SubCount(ds, j + 1)];
      && |block| == |ds[j].1|
      && forall i :: 0 <= i < |block| ==>
           block[i].taskId == firstTask + j && block[i].order == i
           && block[i].title == ds[j].1[i] && block[i].status == "todo"
  {
    SeededSubsPrefix(ds, k, j + 1, firstTask, firstSub);
    var whole := SeededSubs(ds, k, firstTask, firstSub);
    var upTo := SeededSubs(ds, j + 1, firstTask, firstSub);
    var own := SubsFor(firstTask + j, firstSub + SubCount(ds, j), ds[j].1);
    assert upTo == SeededSubs(ds, j, firstTask, firstSub) + own;
    assert whole[SubCount(ds, j)..SubCount(ds, j + 1)] == whole[..SubCount(ds, j + 1)][SubCount(ds, j)..];
    assert upTo[SubCount(ds, j)..] == own;
  }

  /** The subtasks of the first `m` defaults are the first ones seeded. */
  lemma {:induction false} SeededSubsPrefix(ds: Template, k: nat, m: nat, firstTask: nat, firstSub: nat)
    requires m <= k <= |ds|
    ensures SubCount(ds, m) <= SubCount(ds, k)
    ensures SeededSubs(ds, k, firstTask, firstSub)[..SubCount(ds, m)] == SeededSubs(ds, m, firstTask, firstSub)
  {
    if m < k {
      SeededSubsPrefix(ds, k - 1, m, firstTask, firstSub);
      var prev := SeededSubs(ds, k - 1, firstTask, firstSub);
      var whole := SeededSubs(ds, k, firstTask, firstSub);
      assert whole == prev + SubsFor(firstTask + k - 1, firstSub + SubCount(ds, k - 1), ds[k - 1].1);
      assert whole[..SubCount(ds, m)] == prev[..SubCount(ds, m)];
    }
  }

  /** The listing holds every task once, newest (largest key) first, each with
      exactly its own subtasks; after seeding it is never empty. */
  lemma ListNewestFirst(s: Store)
    requires WellFormed(s)
    ensures var r := List(s);
      && (forall i, j :: 0 <= i < j < |r| ==> r[i].task.id > r[j].task.id)
      && (forall t :: t in s.tasks <==> exists i :: 0 <= i < |r| && r[i].task == t)
      && (forall i, st :: 0 <= i < |r| ==> (st in r[i].subtasks <==> st in s.subtasks && st.taskId == r[i].task.id))
    ensures |List(Seed(s))| > 0
  {
    var r := List(s);
    forall i | 0 <= i < |r|
      ensures r[i] == TaskWithSubtasks(s.tasks[|s.tasks| - 1 - i], SubtasksOf(s.subtasks, s.tasks[|s.tasks| - 1 - i].id))
    {
    }
    forall t | t in s.tasks ensures exists i :: 0 <= i < |r| && r[i].task == t {
      var k :| 0 <= k < |s.tasks| && s.tasks[k] == t;
      assert r[|s.tasks| - 1 - k].task == t;
    }
    SeedNonEmpty(s);
  }

  /** After seeding there is at least one task. */
  lemma SeedNonEmpty(s: Store)
    ensures |List(Seed(s))| > 0
  {
    if |s.tasks| == 0 {
      SeededTasksFacts(s.nextTaskId);
    }
  }

  /** `POST` appends one 'todo' task under a fresh key; a given title is kept
      even when it is the empty string. */
  lemma CreateKeepsTitle(s: Store, title: Option<string>)
    requires WellFormed(s)
    ensures var s' := Create(s, title);
      && WellFormed(s')
      && s'.tasks[..|s.tasks|] == s.tasks && |s'.tasks| == |s.tasks| + 1
      && var t := s'.tasks[|s.tasks|];
      && (forall i :: 0 <= i < |s.tasks| ==> s.tasks[i].id != t.id)
      && t.status == "todo"
      && t.title == (if title.Some? then title.value else "Untitled")
  {
    assert Create(s, title).tasks[..|s.tasks|] == s.tasks;
  }

  /** A status change touches only the status of the rows with that id and
      keeps the store well formed. */
  lemma SetStatusOnlyTarget(s: Store, id: int, status: string)
    requires WellFormed(s)
    ensures var r := SetTaskStatus(s, id, status);
      && WellFormed(r)
      && (forall i :: 0 <= i < |s.tasks| ==> r.tasks[i] == if s.tasks[i].id == id then s.tasks[i].(status := status) else s.tasks[i])
    ensures var r := SetSubtaskStatus(s, id, status);
      && WellFormed(r)
      && (forall i :: 0 <= i < |s.subtasks| ==>
            r.subtasks[i] == if s.subtasks[i].id == id then s.subtasks[i].(status := status) else s.subtasks[i])
  {
    var r := SetTaskStatus(s, id, status);
    forall i | 0 <= i < |s.tasks|
      ensures r.tasks[i] == if s.tasks[i].id == id then s.tasks[i].(status := status) else s.tasks[i]
    {
    }
    var r2 := SetSubtaskStatus(s, id, status);
    forall i | 0 <= i < |s.subtasks|
      ensures r2.subtasks[i] == if s.subtasks[i].id == id then s.subtasks[i].(status := status) else s.subtasks[i]
    {
    }
  }

  /** The store as a mutable object: seeding and creation insert rows. */
  class TaskStore {
    var tasks: seq<Task>
    var subtasks: seq<Subtask>
    var nextTaskId: nat
    var nextSubtaskId: nat

    function State(): Store
      reads this
    {
      Store(tasks, subtasks, nextTaskId, nextSubtaskId)
    }

    constructor ()
      ensures WellFormed(State()) && tasks == [] && subtasks == []
    {
      tasks, subtasks := [], [];
      nextTaskId, nextSubtaskId := 1, 1;
    }

    /** `seedIfEmpty`, with its nested insertion loops. */
    method SeedIfEmpty()
      requires WellFormed(State())
      modifies this
      ensures WellFormed(State())
      ensures State() == Seed(old(State()))
    {
      if |tasks| > 0 {
        return;
      }
      ghost var before := State();
      InsertDefaults(Defaults);
      assert tasks == [] + SeededTasks(Defaults, before.nextTaskId);
      assert State() == Seed(before);
      SeedEmptyStore(before);
    }

    /** The outer loop of `seedIfEmpty`: each default task, then its subtasks. */
    method InsertDefaults(ds: Template)
      modifies this
      ensures tasks == old(tasks) + SeededTasks(ds, old(nextTaskId))
      ensures subtasks == old(subtasks) + SeededSubs(ds, |ds|, old(nextTaskId), old(nextSubtaskId))
      ensures nextTaskId == old(nextTaskId) + |ds|
      ensures nextSubtaskId == old(nextSubtaskId) + SubCount(ds, |ds|)
    {
      ghost var firstTask, firstSub := nextTaskId, nextSubtaskId;
      var k := 0;
      while k < |ds|
        invariant 0 <= k <= |ds|
        invariant tasks == old(tasks) + SeededTasks(ds, firstTask)[..k]
        invariant nextTaskId == firstTask + k
        invariant subtasks == old(subtasks) + SeededSubs(ds, k, firstTask, firstSub)
        invariant nextSubtaskId == firstSub + SubCount(ds, k)
      {
        var d := ds[k];
        var taskId := nextTaskId;
        tasks := tasks + [NewTask(taskId, d.0)];
        nextTaskId := nextTaskId + 1;
        InsertSubtasks(taskId, d.1);
        SeedStep(ds, firstTask, firstSub, k);
        AppendAssoc(old(tasks), SeededTasks(ds, firstTask)[..k], [NewTask(firstTask + k, ds[k].0)]);
        AppendAssoc(old(subtasks), SeededSubs(ds, k, firstTask, firstSub),
          SubsFor(firstTask + k, firstSub + SubCount(ds, k), ds[k].1));
        k := k + 1;
      }
      assert SeededTasks(ds, firstTask)[..k] == SeededTasks(ds, firstTask);
    }

    /** Appending is associative. */
    static lemma AppendAssoc<T>(a: seq<T>, b: seq<T>, c: seq<T>)
      ensures (a + b) + c == a + (b + c)
    {
    }

    /** One turn of the outer seeding loop in terms of the seeding functions. */
    static lemma SeedStep(ds: Template, firstTask: nat, firstSub: nat, k: nat)
      requires k < |ds|
      ensures SeededTasks(ds, firstTask)[..k + 1] == SeededTasks(ds, firstTask)[..k] + [NewTask(firstTask + k, ds[k].0)]
      ensures SeededSubs(ds, k + 1, firstTask, firstSub)
        == SeededSubs(ds, k, firstTask, firstSub) + SubsFor(firstTask + k, firstSub + SubCount(ds, k), ds[k].1)
      ensures SubCount(ds, k + 1) == SubCount(ds, k) + |ds[k].1|
    {
    }

    /** The inner loop of `seedIfEmpty`: one subtask per name, `order` = position. */
    method InsertSubtasks(taskId: nat, names: seq<string>)
      modifies this`subtasks, this`nextSubtaskId
      ensures subtasks == old(subtasks) + SubsFor(taskId, old(nextSubtaskId), names)
      ensures nextSubtaskId == old(nextSubtaskId) + |names|
    {
      var i := 0;
      while i < |names|
        invariant 0 <= i <= |names|
        invariant subtasks == old(subtasks) + SubsFor(taskId, old(nextSubtaskId), names)[..i]
        invariant nextSubtaskId == old(nextSubtaskId) + i
      {
        subtasks := subtasks + [Subtask(nextSubtaskId, names[i], "todo", taskId, i)];
        nextSubtaskId := nextSubtaskId + 1;
        i := i + 1;
      }
      assert SubsFor(taskId, old(nextSubtaskId), names)[..i] == SubsFor(taskId, old(nextSubtaskId), names);
    }

    /** `GET`: seed first, then list. */
    method Get() returns (r: seq<TaskWithSubtasks>)
      requires WellFormed(State())
      modifies this
      ensures WellFormed(State())
      ensures State() == Seed(old(State()))
      ensures r == List(State()) && |r| > 0
    {
      SeedIfEmpty();
      r := List(State());
      ListNewestFirst(old(State()));
    }

    /** `POST`. */
    method Post(title: Option<string>) returns (t: Task)
      requires WellFormed(State())
      modifies this
      ensures WellFormed(State())
      ensures State() == Create(old(State()), title)
      ensures t == NewTask(old(nextTaskId), title.GetOr("Untitled"))
    {
      CreateKeepsTitle(State(), title);
      t := NewTask(nextTaskId, title.GetOr("Untitled"));
      tasks := tasks + [t];
      nextTaskId := nextTaskId + 1;
    }

    /** The task status update the dashboard sends. */
    method PatchTask(id: int, status: string)
      requires WellFormed(State())
      modifies this
      ensures WellFormed(State())
      ensures State() == SetTaskStatus(old(State()), id, status)
    {
      SetStatusOnlyTarget(State(), id, status);
      tasks := SetTaskStatus(State(), id, status).tasks;
    }

    /** The subtask status update the dashboard sends. */
    method PatchSubtask(id: int, status: string)
      requires WellFormed(State())
      modifies this
      ensures WellFormed(State())
      ensures State() == SetSubtaskStatus(old(State()), id, status)
    {
      SetStatusOnlyTarget(State(), id, status);
      subtasks := SetSubtaskStatus(State(), id, status).subtasks;
    }
  }
}
