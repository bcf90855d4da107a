/**
 * The planner's root record and the operations that update it in place:
 * adding and moving between days, adding, toggling and deleting tasks of the
 * active day, and the strength-goal map. Every operation that persists the
 * state first refreshes the cached streak, so the cache always agrees with
 * the days.
 */
module Planner {
  import opened Wrappers
  import opened Text
  import opened Model
  import opened Streak
  import opened Goals
  import opened Sorting

  /** The names given to a task whose name is blank after trimming. */
  const DEFAULT_EXERCISE: string := "Exercise"
  const DEFAULT_TITLE: string := "Problem"

  /** The form fields `addTask` reads, already converted to strings and numbers. */
  datatype Payload = Payload(category: string, exercise: string, sets: real, reps: real, weight: real, title: string)

  /** JavaScript's `%`, whose result takes the sign of the dividend. */
  function JsRem(a: int, b: int): (r: int)
    requires b > 0
    ensures -b < r < b
    ensures a >= 0 ==> r == a % b
    ensures a < 0 ==> r <= 0
  {
    if a >= 0 then a % b else -((-a) % b)
  }

  /** `((last?.weekdayIndex ?? -1) + 1) % 7`: the weekday index of the next new day. */
  function NextWeekday(days: seq<Day>): (w: int)
    ensures |days| == 0 ==> w == 0
    ensures |days| > 0 && 0 <= days[|days| - 1].weekdayIndex < 7 ==>
      0 <= w < 7 && w == (days[|days| - 1].weekdayIndex + 1) % 7
  {
    var prev := if |days| == 0 then -1 else days[|days| - 1].weekdayIndex;
    JsRem(prev + 1, 7)
  }

  /** The task `addTask` creates. */
  function NewTask(p: Payload, id: Id, now: int): Task
  {
    if p.category == MUSCLES then
      var ex := Trim(p.exercise);
      var name := if ex == "" then DEFAULT_EXERCISE else ex;
      Task(id, p.category, false, now, name, Some(name), p.sets, p.reps, p.weight)
    else
      var ti := Trim(p.title);
      Task(id, p.category, false, now, if ti == "" then DEFAULT_TITLE else ti, None, 0.0, 0.0, 0.0)
  }

  /**
   * A new task is not done; a strength task is named by its trimmed exercise,
   * or "Exercise" when that is blank, and its title is that same name; any
   * other task has its trimmed title, or "Problem" when that is blank.
   */
  lemma NewTaskSpec(p: Payload, id: Id, now: int)
    ensures var t := NewTask(p, id, now);
      && t.id == id && t.category == p.category && !t.done && t.createdAt == now
      && (p.category == MUSCLES ==>
            t.exercise == Some(t.title)
            && (Trim(p.exercise) != "" ==> t.title == Trim(p.exercise))
            && (Trim(p.exercise) == "" ==> t.title == DEFAULT_EXERCISE)
            && SetsOf(t) == p.sets && RepsOf(t) == p.reps && WeightOf(t) == p.weight)
      && (p.category != MUSCLES ==>
            t.exercise.None? && SetsOf(t) == 0.0 && RepsOf(t) == 0.0 && WeightOf(t) == 0.0
            && (Trim(p.title) != "" ==> t.title == Trim(p.title))
            && (Trim(p.title) == "" ==> t.title == DEFAULT_TITLE))
  {
  }

  /** The name of a new task never starts or ends with white space, and is never blank. */
  lemma NewTaskNameTrimmed(p: Payload, id: Id, now: int)
    ensures var name := NewTask(p, id, now).title;
      name != [] && !IsSpace(name[0]) && !IsSpace(name[|name| - 1])
  {
    var src := if p.category == MUSCLES then p.exercise else p.title;
    TrimSpec(src);
    var dflt := if p.category == MUSCLES then DEFAULT_EXERCISE else DEFAULT_TITLE;
    assert !IsSpace(dflt[0]) && !IsSpace(dflt[|dflt| - 1]);
  }

  /** `tasks.find(x => x.id === taskId)`, as an index. */
  function FirstTaskIndex(tasks: seq<Task>, taskId: Id): (r: Option<nat>)
    ensures r.Some? ==> r.value < |tasks| && tasks[r.value].id == taskId
    ensures r.Some? ==> forall j :: 0 <= j < r.value ==> tasks[j].id != taskId
    ensures r.None? <==> forall j :: 0 <= j < |tasks| ==> tasks[j].id != taskId
  {
    if tasks == [] then None
    else if tasks[0].id == taskId then Some(0)
    else match FirstTaskIndex(tasks[1..], taskId)
      case None => None
      case Some(k) => Some(k + 1)
  }

  /** The tasks after `toggleTask`: only the first task with the id has its `done` flipped. */
  function ToggleFirst(tasks: seq<Task>, taskId: Id): (r: seq<Task>)
    ensures |r| == |tasks|
    ensures FirstTaskIndex(tasks, taskId).None? ==> r == tasks
    ensures FirstTaskIndex(tasks, taskId).Some? ==>
      var k := FirstTaskIndex(tasks, taskId).value;
      r[k] == tasks[k].(done := !tasks[k].done) && forall j :: 0 <= j < |tasks| && j != k ==> r[j] == tasks[j]
  {
    match FirstTaskIndex(tasks, taskId)
    case None => tasks
    case Some(k) => tasks[k := tasks[k].(done := !tasks[k].done)]
  }

  /** Toggling the same task twice restores the tasks. */
  lemma ToggleTwice(tasks: seq<Task>, taskId: Id)
    ensures ToggleFirst(ToggleFirst(tasks, taskId), taskId) == tasks
  {
    var once := ToggleFirst(tasks, taskId);
    match FirstTaskIndex(tasks, taskId)
    case None =>
    case Some(k) =>
      assert FirstTaskIndex(once, taskId) == Some(k) by {
        assert forall j :: 0 <= j < k ==> once[j].id == tasks[j].id;
        FirstIndexUnique(once, taskId, k);
      }
  }

  /** The first index with an id is determined by the ids. */
  lemma FirstIndexUnique(tasks: seq<Task>, taskId: Id, k: nat)
    requires k < |tasks| && tasks[k].id == taskId
    requires forall j :: 0 <= j < k ==> tasks[j].id != taskId
    ensures FirstTaskIndex(tasks, taskId) == Some(k)
  {
  }

  /** `tasks.filter(t => t.id !== taskId)`. */
  function RemoveById(tasks: seq<Task>, taskId: Id): (r: seq<Task>)
    ensures |r| <= |tasks|
  {
    if tasks == [] then []
    else (if tasks[0].id == taskId then [] else [tasks[0]]) + RemoveById(tasks[1..], taskId)
  }

  /** The filter keeps exactly the tasks with another id. */
  lemma {:induction false} RemoveByIdMembers(tasks: seq<Task>, taskId: Id, t: Task)
    ensures t in RemoveById(tasks, taskId) <==> t in tasks && t.id != taskId
  {
    if tasks != [] {
      RemoveByIdMembers(tasks[1..], taskId, t);
      assert t in tasks <==> t == tasks[0] || t in tasks[1..];
    }
  }

  /** The filter of a concatenation is the concatenation of the filters, so the kept tasks stay in order. */
  lemma {:induction false} RemoveByIdAppend(a: seq<Task>, b: seq<Task>, taskId: Id)
    ensures RemoveById(a + b, taskId) == RemoveById(a, taskId) + RemoveById(b, taskId)
  {
    if a == [] {
      assert a + b == b;
    } else {
      var head := if a[0].id == taskId then [] else [a[0]];
      assert (a + b)[0] == a[0] && (a + b)[1..] == a[1..] + b;
      RemoveByIdAppend(a[1..], b, taskId);
      assert RemoveById(a + b, taskId) == head + (RemoveById(a[1..], taskId) + RemoveById(b, taskId));
      assert RemoveById(a, taskId) == head + RemoveById(a[1..], taskId);
    }
  }

  /** Removing an id that no task carries changes nothing. */
  lemma {:induction false} RemoveAbsent(tasks: seq<Task>, taskId: Id)
    requires forall j :: 0 <= j < |tasks| ==> tasks[j].id != taskId
    ensures RemoveById(tasks, taskId) == tasks
  {
    if tasks != [] {
      RemoveAbsent(tasks[1..], taskId);
    }
  }

  /** Removing is idempotent. */
  lemma {:induction false} RemoveTwice(tasks: seq<Task>, taskId: Id)
    ensures RemoveById(RemoveById(tasks, taskId), taskId) == RemoveById(tasks, taskId)
  {
    var r := RemoveById(tasks, taskId);
    forall j | 0 <= j < |r| ensures r[j].id != taskId {
      RemoveByIdMembers(tasks, taskId, r[j]);
    }
    RemoveAbsent(r, taskId);
  }

  /** The index `moveActiveDay(state, delta)` moves to, or `None` when it returns early. */
  function MoveTarget(days: seq<Day>, activeId: Option<Id>, delta: int): (r: Option<nat>)
    ensures r.Some? <==> DayIndexOf(days, activeId).Some? && 0 <= DayIndexOf(days, activeId).value + delta < |days|
    ensures r.Some? ==> r.value == DayIndexOf(days, activeId).value + delta
  {
    match DayIndexOf(days, activeId)
    case None => None
    case Some(idx) =>
      var next := idx + delta;
      if next < 0 || next >= |days| then None else Some(next)
  }

  /** No two days share an id. */
  ghost predicate DistinctDayIds(days: seq<Day>)
  {
    forall i, j :: 0 <= i < j < |days| ==> days[i].id != days[j].id
  }

  /** With distinct ids, the day an id names is found at its own index. */
  lemma DayIndexOfOwnId(days: seq<Day>, i: nat)
    requires DistinctDayIds(days) && i < |days|
    ensures DayIndexOf(days, Some(days[i].id)) == Some(i)
  {
  }

  /** Moving by `delta` and then by `-delta` returns to the day one started from. */
  lemma MoveBack(days: seq<Day>, activeId: Option<Id>, delta: int)
    requires DistinctDayIds(days)
    requires MoveTarget(days, activeId, delta).Some?
    ensures var t := MoveTarget(days, activeId, delta).value;
      MoveTarget(days, Some(days[t].id), -delta).Some?
      && Some(days[MoveTarget(days, Some(days[t].id), -delta).value].id) == activeId
  {
    var t := MoveTarget(days, activeId, delta).value;
    DayIndexOfOwnId(days, t);
  }

  /**
   * A new, empty day created no earlier than every other day is the newest
   * one and is not completed, so the streak drops to 0.
   */
  lemma AddedDayEndsStreak(days: seq<Day>, d: Day)
    requires d.tasks == []
    requires forall e :: e in days ==> e.createdAt <= d.createdAt
    ensures StreakOf(days + [d]) == 0
  {
    var all := days + [d];
    var sorted := SortByCreated(days);
    assert all[..|all| - 1] == days;
    assert SortByCreated(all) == Insert(d, sorted, CreatedAt);
    if sorted != [] {
      var last := sorted[|sorted| - 1];
      assert last in multiset(sorted);
      assert last in days;
    }
    assert SortByCreated(all) == sorted + [d];
  }

  /** A JavaScript-falsy active id (`null` or the empty string). */
  predicate Falsy(id: Option<Id>)
  {
    id.None? || id.value == ""
  }

  /** The root record `state`: its days, the active day's id, the cached streak and the strength goals. */
  class PlannerState {
    var days: seq<Day>
    var activeDayId: Option<Id>
    var streak: nat
    var goals: map<string, Goal>

    /** The cached streak agrees with the days. */
    ghost predicate StreakFresh()
      reads this
    {
      streak == StreakOf(days)
    }

    /** The state built when nothing is stored: one empty day with weekday 0, which is made active. */
    constructor Initial(id: Id, now: int)
      ensures days == [Day(id, 0, now, [])]
      ensures activeDayId == Some(id)
      ensures streak == 0 && goals == map[]
      ensures StreakFresh()
    {
      var first := [Day(id, 0, now, [])];
      assert !IsDayCompleted(first[0]);
      StreakZeroCases(first);
      days := first;
      activeDayId := Some(id);
      streak := 0;
      goals := map[];
    }

    /** A stored state as loaded: a falsy active id falls back to the first day's id, if there is one. */
    constructor Restore(days0: seq<Day>, activeDayId0: Option<Id>, streak0: nat, goals0: map<string, Goal>)
      ensures days == days0 && streak == streak0 && goals == goals0
      ensures !Falsy(activeDayId0) ==> activeDayId == activeDayId0
      ensures Falsy(activeDayId0) && |days0| > 0 ==> activeDayId == Some(days0[0].id)
      ensures Falsy(activeDayId0) && |days0| == 0 ==> activeDayId == None
    {
      days := days0;
      streak := streak0;
      goals := goals0;
      if Falsy(activeDayId0) {
        activeDayId := if |days0| > 0 then Some(days0[0].id) else None;
      } else {
        activeDayId := activeDayId0;
      }
    }

    /** `getActiveDay(state)`: the active day, else the first day, else none. */
    function ActiveDay(): (r: Option<Day>)
      reads this
      ensures r.None? <==> |days| == 0
      ensures r.Some? ==> r.value in days
      ensures r.Some? && DayIndexOf(days, activeDayId).Some? ==> activeDayId == Some(r.value.id)
      ensures r.Some? && DayIndexOf(days, activeDayId).None? ==> r.value == days[0]
    {
      match ActiveDayIndex(days, activeDayId)
      case None => None
      case Some(i) => Some(days[i])
    }

    /** The part of `saveState` that is not storage: refresh the cached streak. */
    method Save()
      modifies this
      ensures days == old(days) && activeDayId == old(activeDayId) && goals == old(goals)
      ensures StreakFresh()
    {
      streak := ComputeStreak(days);
    }

    /** `addDay(state)`: append an empty day after the last one's weekday, make it active, save. */
    method AddDay(id: Id, now: int)
      modifies this
      ensures days == old(days) + [Day(id, NextWeekday(old(days)), now, [])]
      ensures activeDayId == Some(id)
      ensures goals == old(goals)
      ensures StreakFresh()
    {
      var d := Day(id, NextWeekday(days), now, []);
      days := days + [d];
      activeDayId := Some(d.id);
      Save();
    }

    /** `setActiveDay(state, dayId)`: any id is accepted, even one no day carries. */
    method SetActiveDay(dayId: Id)
      modifies this
      ensures activeDayId == Some(dayId)
      ensures days == old(days) && goals == old(goals)
      ensures StreakFresh()
    {
      activeDayId := Some(dayId);
      Save();
    }

    /** `moveActiveDay(state, delta)`: nothing happens when the active id is unknown or the target is out of range. */
    method MoveActiveDay(delta: int)
      modifies this
      ensures days == old(days) && goals == old(goals)
      ensures MoveTarget(old(days), old(activeDayId), delta).None? ==>
        activeDayId == old(activeDayId) && streak == old(streak)
      ensures MoveTarget(old(days), old(activeDayId), delta).Some? ==>
        activeDayId == Some(days[MoveTarget(old(days), old(activeDayId), delta).value].id) && StreakFresh()
      ensures old(StreakFresh()) ==> StreakFresh()
    {
      var idx := DayIndexOf(days, activeDayId);
      if idx.None? {
        return;
      }
      var next := idx.value + delta;
      if next < 0 || next >= |days| {
        return;
      }
      activeDayId := Some(days[next].id);
      Save();
    }

    /** `resetActiveDay(state)`: empty the active day's task list. */
    method ResetActiveDay()
      modifies this
      ensures activeDayId == old(activeDayId) && goals == old(goals)
      ensures |old(days)| == 0 ==> days == old(days) && streak == old(streak)
      ensures |old(days)| > 0 ==>
        var i := ActiveDayIndex(old(days), old(activeDayId)).value;
        days == old(days)[i := old(days)[i].(tasks := [])] && StreakFresh()
      ensures old(StreakFresh()) ==> StreakFresh()
    {
      var i := ActiveDayIndex(days, activeDayId);
      if i.None? {
        return;
      }
      days := days[i.value := days[i.value].(tasks := [])];
      Save();
    }

    /** `addTask(state, payload)`: append a new undone task to the active day. */
    method AddTask(p: Payload, id: Id, now: int)
      modifies this
      ensures activeDayId == old(activeDayId) && goals == old(goals)
      ensures |old(days)| == 0 ==> days == old(days) && streak == old(streak)
      ensures |old(days)| > 0 ==>
        var i := ActiveDayIndex(old(days), old(activeDayId)).value;
        days == old(days)[i := old(days)[i].(tasks := old(days)[i].tasks + [NewTask(p, id, now)])] && StreakFresh()
      ensures old(StreakFresh()) ==> StreakFresh()
    {
      var i := ActiveDayIndex(days, activeDayId);
      if i.None? {
        return;
      }
      var day := days[i.value];
      var t := NewTask(p, id, now);
      days := days[i.value := day.(tasks := day.tasks + [t])];
      Save();
    }

    /** `toggleTask(state, taskId)`: flip the first task with that id in the active day. */
    method ToggleTask(taskId: Id)
      modifies this
      ensures activeDayId == old(activeDayId) && goals == old(goals)
      ensures var i := ActiveDayIndex(old(days), old(activeDayId));
        if i.None? || FirstTaskIndex(old(days)[i.value].tasks, taskId).None? then
          days == old(days) && streak == old(streak)
        else
          days == old(days)[i.value := old(days)[i.value].(tasks := ToggleFirst(old(days)[i.value].tasks, taskId))]
          && StreakFresh()
      ensures old(StreakFresh()) ==> StreakFresh()
    {
      var i := ActiveDayIndex(days, activeDayId);
      if i.None? {
        return;
      }
      var day := days[i.value];
      var k := FirstTaskIndex(day.tasks, taskId);
      if k.None? {
        return;
      }
      var t := day.tasks[k.value];
      days := days[i.value := day.(tasks := day.tasks[k.value := t.(done := !t.done)])];
      Save();
    }

    /** `deleteTask(state, taskId)`: drop every task with that id from the active day, then save. */
    method DeleteTask(taskId: Id)
      modifies this
      ensures activeDayId == old(activeDayId) && goals == old(goals)
      ensures |old(days)| == 0 ==> days == old(days) && streak == old(streak)
      ensures |old(days)| > 0 ==>
        var i := ActiveDayIndex(old(days), old(activeDayId)).value;
        days == old(days)[i := old(days)[i].(tasks := RemoveById(old(days)[i].tasks, taskId))] && StreakFresh()
      ensures old(StreakFresh()) ==> StreakFresh()
    {
      var i := ActiveDayIndex(days, activeDayId);
      if i.None? {
        return;
      }
      var day := days[i.value];
      days := days[i.value := day.(tasks := RemoveById(day.tasks, taskId))];
      Save();
    }

    /** `setMuscleGoal(state, exercise, weight, reps)`: store the goal under the canonical name. */
    method SetMuscleGoal(exercise: string, weight: real, reps: real)
      modifies this
      ensures days == old(days) && activeDayId == old(activeDayId)
      ensures goals == SetGoal(old(goals), exercise, weight, reps)
      ensures Norm(exercise) == "" ==> streak == old(streak)
      ensures Norm(exercise) != "" ==> StreakFresh()
      ensures old(StreakFresh()) ==> StreakFresh()
    {
      var key := Norm(exercise);
      if key == "" {
        return;
      }
      goals := goals[key := Goal(weight, reps)];
      Save();
    }

    /** `removeMuscleGoal(state, exercise)`: delete the goal under the canonical name. */
    method RemoveMuscleGoal(exercise: string)
      modifies this
      ensures days == old(days) && activeDayId == old(activeDayId)
      ensures goals == RemoveGoal(old(goals), exercise)
      ensures Norm(exercise) == "" ==> streak == old(streak)
      ensures Norm(exercise) != "" ==> StreakFresh()
      ensures old(StreakFresh()) ==> StreakFresh()
    {
      var key := Norm(exercise);
      if key == "" {
        return;
      }
      goals := goals - {key};
      Save();
    }
  }
}
