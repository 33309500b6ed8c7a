/**
 * The task-list service of `lib/services/taskService.ts`: per-user task
 * lists with title validation, creation, lookup, filtering and sorting,
 * field updates, deletion and bulk operations. Every operation reads the
 * user's list, changes it and writes it back whole; the stored lists are
 * the field `lists` of a `TaskStore`. Ids and timestamps (`uuidv4()`,
 * `new Date().toISOString()`) are parameters.
 */
module TaskService {
  import opened Wrappers
  import opened Text
  import opened JsonValue
  import ErrorHandling

  const TitleMinLength := 1
  const TitleMaxLength := 500
  const EmptyTitleMessage := "Task title cannot be empty"
  const LongTitleMessage := "Task title cannot exceed 500 characters"

  /** `Task`: `completedAt` and `metadata` are optional fields. */
  datatype Task = Task(id: string, title: string, completed: bool, createdAt: string, completedAt: Option<string>,
                       metadata: Option<Obj>)

  // ----- Titles -----

  /**
   * `validateTitle(title)`: an empty or all-white-space title, then one
   * longer than 500 UTF-16 code units before trimming, is refused with a
   * validation error on the field `title`.
   */
  function ValidateTitle(title: string): (r: Option<ErrorHandling.AppError>)
    ensures r.None? <==> Trim(title) != "" && Utf16Length(title) <= TitleMaxLength
    ensures r.Some? ==> r.value.ValidationError? && r.value.field == Some("title")
    ensures Trim(title) == "" ==> r == Some(ErrorHandling.ValidationError(EmptyTitleMessage, Some("title")))
  {
    if title == "" || |Trim(title)| < TitleMinLength then Some(ErrorHandling.ValidationError(EmptyTitleMessage, Some("title")))
    else if Utf16Length(title) > TitleMaxLength then Some(ErrorHandling.ValidationError(LongTitleMessage, Some("title")))
    else None
  }

  /** A title is refused as empty exactly when every character of it is white space. */
  lemma EmptyTitleIffBlank(title: string)
    ensures ValidateTitle(title) == Some(ErrorHandling.ValidationError(EmptyTitleMessage, Some("title")))
      <==> forall i :: 0 <= i < |title| ==> IsJsSpace(title[i])
  {
    TrimEmpty(title);
  }

  /**
   * A title made only of characters outside the Basic Multilingual Plane
   * (emoji, say) takes two code units per character, so at most 250 of
   * them are accepted.
   */
  lemma AstralTitleLimit(title: string)
    requires forall i :: 0 <= i < |title| ==> title[i] as int > 0xFFFF
    ensures ValidateTitle(title).None? <==> title != [] && |title| <= TitleMaxLength / 2
  {
    TrimEmpty(title);
    if title != [] {
      assert !IsJsSpace(title[0]);
    }
  }

  // ----- Lookup -----

  /** `tasks.findIndex(t => t.id === id)`: the first task with the id. */
  function FindIndex(tasks: seq<Task>, id: string): (r: Option<nat>)
    ensures r.Some? ==> r.value < |tasks| && tasks[r.value].id == id
    ensures r.Some? ==> forall j :: 0 <= j < r.value ==> tasks[j].id != id
    ensures r.None? <==> forall j :: 0 <= j < |tasks| ==> tasks[j].id != id
    decreases |tasks|
  {
    if tasks == [] then None
    else if tasks[0].id == id then Some(0)
    else match FindIndex(tasks[1..], id)
      case None => None
      case Some(i) => Some(i + 1)
  }

  function Ids(tasks: seq<Task>): (r: seq<string>)
    ensures |r| == |tasks| && forall i :: 0 <= i < |tasks| ==> r[i] == tasks[i].id
  {
    seq(|tasks|, i requires 0 <= i < |tasks| => tasks[i].id)
  }

  /** `{...current, ...update}`: the update's entries over a copy of the current ones. */
  function Merge(current: Option<Obj>, update: Obj): Obj {
    Assign(Assign(EmptyObj, if current.Some? then current.value else EmptyObj), update)
  }

  lemma MergeSpec(current: Option<Obj>, update: Obj)
    requires WfObj(update) && (current.Some? ==> WfObj(current.value))
    ensures forall k :: (Get(Merge(current, update), k) ==
      if k in update.fields then Some(update.fields[k]) else if current.Some? then Get(current.value, k) else None)
  {
    var base := if current.Some? then current.value else EmptyObj;
    AssignSpec(EmptyObj, base);
    AssignSpec(Assign(EmptyObj, base), update);
  }

  // ----- Creating -----

  /** The task `createTask` appends: trimmed title, not completed, metadata `{}` when none is given. */
  function NewTask(id: string, title: string, metadata: Option<Obj>, now: string): Task {
    Task(id, Trim(title), false, now, None, Some(if metadata.Some? then metadata.value else EmptyObj))
  }

  // ----- Updating -----

  /** The task after `updateTask`'s three optional changes, the title already validated. */
  function Updated(t: Task, title: Option<string>, completed: Option<bool>, metadata: Option<Obj>, now: string): Task {
    var t1 := if title.Some? then t.(title := Trim(title.value)) else t;
    var t2 := if completed.Some? then t1.(completed := completed.value,
                                          completedAt := if completed.value then Some(now) else None)
              else t1;
    if metadata.Some? then t2.(metadata := Some(Merge(t2.metadata, metadata.value))) else t2
  }

  /**
   * An update keeps the id and creation time, sets `completedAt` when it
   * completes the task and removes it when it reopens it, and merges the
   * metadata key by key, the update's values winning.
   */
  lemma UpdatedSpec(t: Task, title: Option<string>, completed: Option<bool>, metadata: Option<Obj>, now: string)
    requires metadata.Some? ==> WfObj(metadata.value) && (t.metadata.Some? ==> WfObj(t.metadata.value))
    ensures var u := Updated(t, title, completed, metadata, now);
      u.id == t.id && u.createdAt == t.createdAt
      && u.title == (if title.Some? then Trim(title.value) else t.title)
      && u.completed == (if completed.Some? then completed.value else t.completed)
      && (completed == Some(true) ==> u.completedAt == Some(now))
      && (completed == Some(false) ==> u.completedAt.None?)
      && (completed.None? ==> u.completedAt == t.completedAt)
      && (metadata.None? ==> u.metadata == t.metadata)
      && (metadata.Some? ==> u.metadata.Some? && forall k :: (Get(u.metadata.value, k) ==
           if k in metadata.value.fields then Some(metadata.value.fields[k])
           else if t.metadata.Some? then Get(t.metadata.value, k) else None))
  {
    if metadata.Some? {
      MergeSpec(t.metadata, metadata.value);
    }
  }

  // ----- Listing -----

  /** `params.filter && params.filter !== 'all'` filters: `'completed'` keeps completed tasks, any other value open ones. */
  predicate Keep(t: Task, filter: Option<string>) {
    if filter.None? || filter.value == "" || filter.value == "all" then true
    else if filter.value == "completed" then t.completed
    else !t.completed
  }

  function Filtered(tasks: seq<Task>, filter: Option<string>): (r: seq<Task>)
    ensures forall t :: t in r <==> t in tasks && Keep(t, filter)
    ensures multiset(r) <= multiset(tasks)
    ensures (forall t :: t in tasks ==> Keep(t, filter)) ==> r == tasks
    decreases |tasks|
  {
    if tasks == [] then []
    else
      var rest := Filtered(tasks[1..], filter);
      assert tasks == [tasks[0]] + tasks[1..];
      if Keep(tasks[0], filter) then [tasks[0]] + rest else rest
  }

  /** The value a task is sorted by: lower-cased title, priority (`'low'`), due date (`''`) or creation time. */
  function SortKey(t: Task, sortBy: Option<string>): string {
    if sortBy == Some("title") then LowerAscii(t.title)
    else if sortBy == Some("priority") then MetaText(t, "priority", "low")
    else if sortBy == Some("dueDate") then MetaText(t, "dueDate", "")
    else t.createdAt
  }

  /** `(t.metadata?.[name] as string) || fallback`. */
  function MetaText(t: Task, name: string, fallback: string): string {
    var v := if t.metadata.Some? then Get(t.metadata.value, name) else None;
    if Truthy(v) then ValueString(v.value) else fallback
  }

  /** The comparator's "`a` goes before `b`": smaller key first for `'asc'`, larger first otherwise. */
  predicate Before(a: Task, b: Task, sortBy: Option<string>, asc: bool) {
    if asc then LexLess(SortKey(a, sortBy), SortKey(b, sortBy)) else LexLess(SortKey(b, sortBy), SortKey(a, sortBy))
  }

  /** No task goes before one placed earlier. */
  predicate Sorted(s: seq<Task>, sortBy: Option<string>, asc: bool) {
    forall i, j :: 0 <= i < j < |s| ==> !Before(s[j], s[i], sortBy, asc)
  }

  lemma BeforeOrder(a: Task, b: Task, c: Task, sortBy: Option<string>, asc: bool)
    ensures !Before(a, a, sortBy, asc)
    ensures Before(a, b, sortBy, asc) && Before(b, c, sortBy, asc) ==> Before(a, c, sortBy, asc)
  {
    LexLessIrreflexive(SortKey(a, sortBy));
    if Before(a, b, sortBy, asc) && Before(b, c, sortBy, asc) {
      if asc {
        LexLessTransitive(SortKey(a, sortBy), SortKey(b, sortBy), SortKey(c, sortBy));
      } else {
        LexLessTransitive(SortKey(c, sortBy), SortKey(b, sortBy), SortKey(a, sortBy));
      }
    }
  }

  /** `x` placed before the first task it goes strictly before, so equal keys keep their order. */
  function Insert(s: seq<Task>, x: Task, sortBy: Option<string>, asc: bool): (r: seq<Task>)
    ensures multiset(r) == multiset(s) + multiset{x}
    decreases |s|
  {
    if s == [] then [x]
    else if Before(x, s[0], sortBy, asc) then [x] + s
    else
      assert s == [s[0]] + s[1..];
      [s[0]] + Insert(s[1..], x, sortBy, asc)
  }

  lemma {:induction false} InsertSorted(s: seq<Task>, x: Task, sortBy: Option<string>, asc: bool)
    requires Sorted(s, sortBy, asc)
    ensures Sorted(Insert(s, x, sortBy, asc), sortBy, asc)
    decreases |s|
  {
    if s == [] {
    } else if Before(x, s[0], sortBy, asc) {
      forall k | 0 <= k < |s| ensures !Before(s[k], x, sortBy, asc) {
        BeforeOrder(s[k], x, s[0], sortBy, asc);
        BeforeOrder(s[0], s[0], s[0], sortBy, asc);
      }
      ConsSorted(x, s, sortBy, asc);
    } else {
      InsertSorted(s[1..], x, sortBy, asc);
      var rest := Insert(s[1..], x, sortBy, asc);
      forall k | 0 <= k < |rest| ensures !Before(rest[k], s[0], sortBy, asc) {
        assert rest[k] in multiset(rest);
        if rest[k] != x {
          assert rest[k] in multiset(s[1..]);
          var m :| 0 <= m < |s[1..]| && s[1..][m] == rest[k];
          assert s[m + 1] == rest[k];
        }
      }
      ConsSorted(s[0], rest, sortBy, asc);
    }
  }

  /** A task that no later task goes before, put in front of a sorted sequence, keeps it sorted. */
  lemma ConsSorted(h: Task, rest: seq<Task>, sortBy: Option<string>, asc: bool)
    requires Sorted(rest, sortBy, asc)
    requires forall k :: 0 <= k < |rest| ==> !Before(rest[k], h, sortBy, asc)
    ensures Sorted([h] + rest, sortBy, asc)
  {
    var r := [h] + rest;
    forall i, j | 0 <= i < j < |r| ensures !Before(r[j], r[i], sortBy, asc) {
      assert r[j] == rest[j - 1];
      if i > 0 {
        assert r[i] == rest[i - 1];
      }
    }
  }

  /** `tasks.sort(...)`, as repeated insertion into a sorted prefix. */
  method SortTasks(tasks: seq<Task>, sortBy: Option<string>, asc: bool) returns (sorted: seq<Task>)
    ensures Sorted(sorted, sortBy, asc)
    ensures multiset(sorted) == multiset(tasks)
  {
    sorted := [];
    for i := 0 to |tasks|
      invariant Sorted(sorted, sortBy, asc)
      invariant multiset(sorted) == multiset(tasks[..i])
    {
      InsertSorted(sorted, tasks[i], sortBy, asc);
      sorted := Insert(sorted, tasks[i], sortBy, asc);
      assert tasks[..i + 1] == tasks[..i] + [tasks[i]];
    }
    assert tasks[..|tasks|] == tasks;
  }

  // ----- Bulk operations -----

  datatype BulkOp = Complete | Uncomplete | Delete | UpdateMetadata

  /** What one bulk operation does to the task at `i`. */
  function ApplyBulk(tasks: seq<Task>, i: nat, op: BulkOp, metadata: Option<Obj>, now: string): seq<Task>
    requires i < |tasks|
  {
    match op
    case Complete => tasks[i := tasks[i].(completed := true, completedAt := Some(now))]
    case Uncomplete => tasks[i := tasks[i].(completed := false, completedAt := None)]
    case Delete => tasks[..i] + tasks[i + 1..]
    case UpdateMetadata =>
      if metadata.Some? then tasks[i := tasks[i].(metadata := Some(Merge(tasks[i].metadata, metadata.value)))]
      else tasks
  }

  /** The tasks, the success count and the failed ids after the bulk loop has gone over `ids`. */
  function BulkRun(tasks: seq<Task>, op: BulkOp, ids: seq<string>, metadata: Option<Obj>, now: string)
    : (seq<Task>, nat, seq<string>)
    decreases |ids|
  {
    if ids == [] then (tasks, 0, [])
    else BulkStep(BulkRun(tasks, op, ids[..|ids| - 1], metadata, now), op, ids[|ids| - 1], metadata, now)
  }

  /** One id of the bulk loop: a missing id is recorded as failed, a found task is changed and counted. */
  function BulkStep(state: (seq<Task>, nat, seq<string>), op: BulkOp, id: string, metadata: Option<Obj>, now: string)
    : (seq<Task>, nat, seq<string>)
  {
    var (t, updated, failed) := state;
    match FindIndex(t, id)
    case None => (t, updated, failed + [id])
    case Some(i) => (ApplyBulk(t, i, op, metadata, now), updated + 1, failed)
  }

  /** The body of the bulk loop for one id. */
  method BulkOne(tasks: seq<Task>, updated: nat, failed: seq<string>, op: BulkOp, taskId: string,
                 metadata: Option<Obj>, now: string)
    returns (tasks': seq<Task>, updated': nat, failed': seq<string>)
    ensures (tasks', updated', failed') == BulkStep((tasks, updated, failed), op, taskId, metadata, now)
  {
    tasks', updated', failed' := tasks, updated, failed;
    var found := FindIndex(tasks, taskId);
    if found.None? {
      failed' := failed + [taskId];
    } else {
      var i := found.value;
      match op {
        case Complete =>
          tasks' := tasks[i := tasks[i].(completed := true, completedAt := Some(now))];
        case Uncomplete =>
          tasks' := tasks[i := tasks[i].(completed := false, completedAt := None)];
        case Delete =>
          tasks' := tasks[..i] + tasks[i + 1..];
        case UpdateMetadata =>
          if metadata.Some? {
            tasks' := tasks[i := tasks[i].(metadata := Some(Merge(tasks[i].metadata, metadata.value)))];
          }
      }
      updated' := updated + 1;
    }
  }

  /** Every id is counted once: as a success or as a failure. */
  lemma {:induction false} BulkCounts(tasks: seq<Task>, op: BulkOp, ids: seq<string>, metadata: Option<Obj>, now: string)
    ensures var (_, updated, failed) := BulkRun(tasks, op, ids, metadata, now);
      updated + |failed| == |ids|
    decreases |ids|
  {
    if ids != [] {
      BulkCounts(tasks, op, ids[..|ids| - 1], metadata, now);
    }
  }

  /** The ids a bulk operation cannot find in `tasks`, in input order. */
  function Missing(ids: seq<string>, tasks: seq<Task>): (r: seq<string>)
    ensures forall id :: id in r <==> id in ids && id !in Ids(tasks)
    decreases |ids|
  {
    if ids == [] then []
    else
      var rest := Missing(ids[..|ids| - 1], tasks);
      var id := ids[|ids| - 1];
      assert forall x :: x in ids <==> x in ids[..|ids| - 1] || x == id;
      if id in Ids(tasks) then rest else rest + [id]
  }

  lemma FindIndexByIds(tasks: seq<Task>, id: string)
    ensures FindIndex(tasks, id).None? <==> id !in Ids(tasks)
  {
    if id in Ids(tasks) {
      var j :| 0 <= j < |tasks| && Ids(tasks)[j] == id;
    }
  }

  /**
   * Operations other than `delete` keep the list's ids, in order, and fail
   * exactly on the ids that are not in it, in input order.
   */
  lemma {:induction false} BulkNonDelete(tasks: seq<Task>, op: BulkOp, ids: seq<string>, metadata: Option<Obj>, now: string)
    requires op != Delete
    ensures var (t, _, failed) := BulkRun(tasks, op, ids, metadata, now);
      Ids(t) == Ids(tasks) && failed == Missing(ids, tasks)
    decreases |ids|
  {
    if ids != [] {
      BulkNonDelete(tasks, op, ids[..|ids| - 1], metadata, now);
      var (t, _, _) := BulkRun(tasks, op, ids[..|ids| - 1], metadata, now);
      FindIndexByIds(t, ids[|ids| - 1]);
      var found := FindIndex(t, ids[|ids| - 1]);
      if found.Some? {
        assert Ids(ApplyBulk(t, found.value, op, metadata, now)) == Ids(t);
      }
    }
  }

  /** A `delete` batch removes one task per success. */
  lemma {:induction false} BulkDeleteShrinks(tasks: seq<Task>, ids: seq<string>, metadata: Option<Obj>, now: string)
    ensures var (t, updated, _) := BulkRun(tasks, Delete, ids, metadata, now);
      |t| + updated == |tasks|
    decreases |ids|
  {
    if ids != [] {
      BulkDeleteShrinks(tasks, ids[..|ids| - 1], metadata, now);
    }
  }

  // ----- The stored lists -----

  class TaskStore {
    /** Each user's task list, as `saveUserTasks` last wrote it. */
    var lists: map<string, seq<Task>>

    constructor(initial: map<string, seq<Task>>)
      ensures lists == initial
    {
      lists := initial;
    }

    /** `getUserTasks(userId)`: the stored list, or an empty one. */
    function TasksOf(userId: string): (r: seq<Task>)
      reads this
      ensures userId in lists ==> r == lists[userId]
      ensures userId !in lists ==> r == []
    {
      if userId in lists then lists[userId] else []
    }

    /** `createTask`: validates the title, then appends one new task. */
    method CreateTask(userId: string, title: string, metadata: Option<Obj>, id: string, now: string)
      returns (r: Result<Task, ErrorHandling.AppError>)
      modifies this
      ensures ValidateTitle(title).Some? ==> r == Err(ValidateTitle(title).value) && lists == old(lists)
      ensures ValidateTitle(title).None? ==>
        r == Ok(NewTask(id, title, metadata, now)) && lists == old(lists)[userId := old(TasksOf(userId)) + [r.value]]
    {
      var invalid := ValidateTitle(title);
      if invalid.Some? {
        return Err(invalid.value);
      }
      var tasks := TasksOf(userId);
      var task := Task(id, Trim(title), false, now, None, Some(if metadata.Some? then metadata.value else EmptyObj));
      tasks := tasks + [task];
      lists := lists[userId := tasks];
      return Ok(task);
    }

    /** `getTask`: the first task with the id, or `NotFoundError('Task', id)`. */
    method GetTask(userId: string, taskId: string) returns (r: Result<Task, ErrorHandling.AppError>)
      ensures r.Ok? <==> exists j :: 0 <= j < |TasksOf(userId)| && TasksOf(userId)[j].id == taskId
      ensures r.Ok? ==> r.value == TasksOf(userId)[FindIndex(TasksOf(userId), taskId).value]
      ensures r.Err? ==> r == Err(ErrorHandling.NotFoundError("Task", taskId))
    {
      var tasks := TasksOf(userId);
      var i := FindIndex(tasks, taskId);
      if i.None? {
        return Err(ErrorHandling.NotFoundError("Task", taskId));
      }
      return Ok(tasks[i.value]);
    }

    /**
     * `listTasks`: the user's tasks kept by the filter, sorted by the chosen
     * key (creation time by default), descending unless `'asc'` is asked
     * for; `total` is the number returned.
     */
    method ListTasks(userId: string, filter: Option<string>, sortBy: Option<string>, sortOrder: Option<string>)
      returns (tasks: seq<Task>, total: nat)
      ensures multiset(tasks) == multiset(Filtered(TasksOf(userId), filter))
      ensures forall t :: t in tasks <==> t in TasksOf(userId) && Keep(t, filter)
      ensures Sorted(tasks, sortBy, sortOrder == Some("asc"))
      ensures total == |tasks|
    {
      var kept := Filtered(TasksOf(userId), filter);
      tasks := SortTasks(kept, sortBy, sortOrder == Some("asc"));
      assert forall t :: t in tasks <==> t in multiset(kept);
      total := |tasks|;
    }

    /**
     * `updateTask`: `NotFoundError` for an unknown id and a validation error
     * for an invalid new title leave the list as it was; otherwise only
     * the found task changes.
     */
    method UpdateTask(userId: string, taskId: string, title: Option<string>, completed: Option<bool>, metadata: Option<Obj>,
                      now: string)
      returns (r: Result<Task, ErrorHandling.AppError>)
      modifies this
      ensures var tasks := old(TasksOf(userId));
        match FindIndex(tasks, taskId)
        case None => r == Err(ErrorHandling.NotFoundError("Task", taskId)) && lists == old(lists)
        case Some(i) =>
          if title.Some? && ValidateTitle(title.value).Some? then
            r == Err(ValidateTitle(title.value).value) && lists == old(lists)
          else
            r == Ok(Updated(tasks[i], title, completed, metadata, now))
            && lists == old(lists)[userId := tasks[i := r.value]]
    {
      var tasks := TasksOf(userId);
      var found := FindIndex(tasks, taskId);
      if found.None? {
        return Err(ErrorHandling.NotFoundError("Task", taskId));
      }
      var i := found.value;
      var task := tasks[i];
      if title.Some? {
        var invalid := ValidateTitle(title.value);
        if invalid.Some? {
          return Err(invalid.value);
        }
        task := task.(title := Trim(title.value));
      }
      if completed.Some? {
        task := task.(completed := completed.value);
        if completed.value {
          task := task.(completedAt := Some(now));
        } else {
          task := task.(completedAt := None);
        }
      }
      if metadata.Some? {
        task := task.(metadata := Some(Merge(task.metadata, metadata.value)));
      }
      tasks := tasks[i := task];
      lists := lists[userId := tasks];
      return Ok(task);
    }

    /** `deleteTask`: removes the first task with the id; an unknown id is `NotFoundError`. */
    method DeleteTask(userId: string, taskId: string) returns (failure: Option<ErrorHandling.AppError>)
      modifies this
      ensures var tasks := old(TasksOf(userId));
        match FindIndex(tasks, taskId)
        case None => failure == Some(ErrorHandling.NotFoundError("Task", taskId)) && lists == old(lists)
        case Some(i) => failure.None? && lists == old(lists)[userId := tasks[..i] + tasks[i + 1..]]
    {
      var tasks := TasksOf(userId);
      var found := FindIndex(tasks, taskId);
      if found.None? {
        return Some(ErrorHandling.NotFoundError("Task", taskId));
      }
      tasks := tasks[..found.value] + tasks[found.value + 1..];
      lists := lists[userId := tasks];
      return None;
    }

    /**
     * `bulkTaskOperation`: applies the operation to each id in turn,
     * counting successes and collecting the ids it cannot find; the list
     * is written back unless a `delete` batch found nothing.
     */
    method BulkTaskOperation(userId: string, op: BulkOp, taskIds: seq<string>, metadata: Option<Obj>, now: string)
      returns (updated: nat, failed: seq<string>)
      modifies this
      ensures var (t, u, f) := BulkRun(old(TasksOf(userId)), op, taskIds, metadata, now);
        updated == u && failed == f
        && lists == if op != Delete || u > 0 then old(lists)[userId := t] else old(lists)
    {
      var tasks := TasksOf(userId);
      updated := 0;
      failed := [];
      for k := 0 to |taskIds|
        invariant (tasks, updated, failed) == BulkRun(old(TasksOf(userId)), op, taskIds[..k], metadata, now)
        invariant lists == old(lists)
      {
        assert taskIds[..k + 1][..k] == taskIds[..k];
        tasks, updated, failed := BulkOne(tasks, updated, failed, op, taskIds[k], metadata, now);
      }
      assert taskIds[..|taskIds|] == taskIds;
      if op != Delete || updated > 0 {
        lists := lists[userId := tasks];
      }
    }
  }

  /** Deleting the task at `i` removes exactly that one occurrence and keeps the others in order. */
  lemma DeleteRemovesOne(tasks: seq<Task>, i: nat)
    requires i < |tasks|
    ensures multiset(tasks[..i] + tasks[i + 1..]) == multiset(tasks) - multiset{tasks[i]}
    ensures forall j :: 0 <= j < |tasks| - 1 ==> (tasks[..i] + tasks[i + 1..])[j] == if j < i then tasks[j] else tasks[j + 1]
  {
    DeleteMultiset(tasks, i);
    DeleteOrder(tasks, i);
  }

  lemma DeleteMultiset(tasks: seq<Task>, i: nat)
    requires i < |tasks|
    ensures multiset(tasks[..i] + tasks[i + 1..]) == multiset(tasks) - multiset{tasks[i]}
  {
    assert tasks == tasks[..i] + ([tasks[i]] + tasks[i + 1..]);
  }

  lemma DeleteOrder(tasks: seq<Task>, i: nat)
    requires i < |tasks|
    ensures forall j :: 0 <= j < |tasks| - 1 ==> (tasks[..i] + tasks[i + 1..])[j] == if j < i then tasks[j] else tasks[j + 1]
  {
  }
}
