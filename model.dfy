/**
 * The records of the planner's state (`state.days`, each day's `tasks`,
 * `state.goals.muscles`) and the pure helpers of the store that read them:
 * the Epley one-rep-max estimate, the day-completion predicate and the
 * lookup of the active day.
 */
module Model {
  import opened Wrappers

  type Id = string

  /** The categories the scoring code recognises; any other string is stored but not scored. */
  const MUSCLES: string := "muscles"
  const BRAINS: string := "brains"
  const ENDURANCE: string := "endurance"
  const MENTAL: string := "mental"

  /**
   * A task as stored. A strength task created by `addTask` carries an
   * exercise name and its numbers; any other task has no exercise. The scoring
   * code reads `exercise`, `sets`, `reps` and `weight` independently of each
   * other and of the category, and an absent number is read as 0, so the
   * numbers are fields of every task, 0 where the stored object has none.
   */
  datatype Task = Task(id: Id, category: string, done: bool, createdAt: int, title: string,
                       exercise: Option<string>, sets: real, reps: real, weight: real)

  datatype Day = Day(id: Id, weekdayIndex: int, createdAt: int, tasks: seq<Task>)

  /** A strength goal as stored under its canonical exercise key. */
  datatype Goal = Goal(weight: real, reps: real)

  /** `t.exercise ?? t.title`: the name a task is scored and looked up under. */
  function ExerciseOf(t: Task): string
  {
    match t.exercise
    case Some(e) => e
    case None => t.title
  }

  /** `Number(t.weight ?? 0)`. */
  function WeightOf(t: Task): real { t.weight }

  /** `Number(t.reps ?? 0)`. */
  function RepsOf(t: Task): real { t.reps }

  /** `Number(t.sets ?? 0)`. */
  function SetsOf(t: Task): real { t.sets }

  /** `estimate1RM(t.weight, t.reps)` for a logged task. */
  function OneRM(t: Task): real
  {
    Estimate1RM(WeightOf(t), RepsOf(t))
  }

  /** The Epley estimate of the one-repetition maximum, `w * (1 + r / 30)`, and 0 for a non-positive input. */
  function Estimate1RM(weight: real, reps: real): (e: real)
    ensures weight <= 0.0 || reps <= 0.0 ==> e == 0.0
    ensures weight > 0.0 && reps > 0.0 ==> e > weight
    ensures e > 0.0 <==> weight > 0.0 && reps > 0.0
  {
    if weight <= 0.0 || reps <= 0.0 then 0.0 else weight * (1.0 + reps / 30.0)
  }

  /** More weight or more repetitions never lowers the estimate. */
  lemma Estimate1RMMonotone(w1: real, r1: real, w2: real, r2: real)
    requires w1 <= w2 && r1 <= r2
    ensures Estimate1RM(w1, r1) <= Estimate1RM(w2, r2)
  {
    if w1 > 0.0 && r1 > 0.0 {
      MulChain(w1, w2, 1.0 + r1 / 30.0, 1.0 + r2 / 30.0);
    }
  }

  /** Products of positive reals grow with both factors. */
  lemma MulChain(w1: real, w2: real, f1: real, f2: real)
    requires 0.0 < w1 <= w2 && 0.0 < f1 <= f2
    ensures w1 * f1 <= w2 * f2
  {
    MulMono(w1, w2, f1);
    MulMono(f1, f2, w2);
  }

  lemma MulMono(a: real, b: real, c: real)
    requires a <= b && c >= 0.0
    ensures a * c <= b * c && c * a <= c * b
  {
  }

  /** For equal repetitions the estimates are in the ratio of the weights. */
  lemma Estimate1RMScales(w: real, k: real, r: real)
    requires w > 0.0 && k > 0.0
    ensures Estimate1RM(k * w, r) == k * Estimate1RM(w, r)
  {
    assert k * w > 0.0;
  }

  /** `tasks.every(t => !!t?.done)`. */
  function AllDone(tasks: seq<Task>): (b: bool)
    ensures b <==> forall i :: 0 <= i < |tasks| ==> tasks[i].done
  {
    tasks == [] || (tasks[0].done && AllDone(tasks[1..]))
  }

  /** A day counts towards the streak when it has tasks and every one of them is done. */
  function IsDayCompleted(d: Day): (b: bool)
    ensures |d.tasks| == 0 ==> !b
    ensures |d.tasks| > 0 ==> (b <==> forall i :: 0 <= i < |d.tasks| ==> d.tasks[i].done)
  {
    if |d.tasks| == 0 then false else AllDone(d.tasks)
  }

  /** `days.findIndex(d => d.id === id)`, with `None` for -1. */
  function DayIndexOf(days: seq<Day>, id: Option<Id>): (r: Option<nat>)
    ensures r.Some? ==> r.value < |days| && id == Some(days[r.value].id)
    ensures r.Some? ==> forall j :: 0 <= j < r.value ==> id != Some(days[j].id)
    ensures r.None? <==> forall j :: 0 <= j < |days| ==> id != Some(days[j].id)
  {
    if days == [] then None
    else if id == Some(days[0].id) then Some(0)
    else match DayIndexOf(days[1..], id)
      case None => None
      case Some(k) => Some(k + 1)
  }

  /** `getActiveDay`: the first day with the active id, else the first day, else none. */
  function ActiveDayIndex(days: seq<Day>, activeId: Option<Id>): (r: Option<nat>)
    ensures r.None? <==> |days| == 0
    ensures r.Some? ==> r.value < |days|
    ensures r.Some? && (exists j :: 0 <= j < |days| && activeId == Some(days[j].id)) ==>
      activeId == Some(days[r.value].id) && forall j :: 0 <= j < r.value ==> activeId != Some(days[j].id)
    ensures r.Some? && (forall j :: 0 <= j < |days| ==> activeId != Some(days[j].id)) ==> r.value == 0
  {
    match DayIndexOf(days, activeId)
    case Some(i) => Some(i)
    case None => if |days| == 0 then None else Some(0)
  }

  /** Every task of every day, in order. */
  function AllTasks(days: seq<Day>): (ts: seq<Task>)
    ensures forall i, j :: 0 <= i < |days| && 0 <= j < |days[i].tasks| ==> days[i].tasks[j] in ts
    ensures forall t :: t in ts ==> exists i :: 0 <= i < |days| && t in days[i].tasks
  {
    if days == [] then [] else AllTasks(days[..|days| - 1]) + days[|days| - 1].tasks
  }
}
