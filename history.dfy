/**
 * `getMuscleHistory(state, exercise)`: every strength entry logged under an
 * exercise name, whatever its spelling, with the date of the day it was
 * logged on, oldest first.
 */
module History {
  import opened Text
  import opened Model
  import opened Sorting
  import opened Goals

  /** One row of the history: `{ date, sets, reps, weight, done }`. */
  datatype HistoryItem = HistoryItem(date: int, sets: real, reps: real, weight: real, done: bool)

  function DateOf(h: HistoryItem): int { h.date }

  /** A task belongs to the history of `key` when it is a strength task whose canonical name is `key`. */
  predicate Matches(t: Task, key: string)
  {
    t.category == MUSCLES && KeyOf(t) == key
  }

  /** The row pushed for task `t` of day `d`: the day's creation time is the date. */
  function ItemOf(d: Day, t: Task): HistoryItem
  {
    HistoryItem(d.createdAt, SetsOf(t), RepsOf(t), WeightOf(t), t.done)
  }

  /** The rows the inner loop pushes for the tasks `ts` of day `d`. */
  function DayItems(d: Day, ts: seq<Task>, key: string): seq<HistoryItem>
  {
    if ts == [] then []
    else
      var t := ts[|ts| - 1];
      DayItems(d, ts[..|ts| - 1], key) + (if Matches(t, key) then [ItemOf(d, t)] else [])
  }

  /** The rows both loops push for `days`, in visiting order. */
  function Collect(days: seq<Day>, key: string): seq<HistoryItem>
  {
    if days == [] then []
    else
      var d := days[|days| - 1];
      Collect(days[..|days| - 1], key) + DayItems(d, d.tasks, key)
  }

  /** The history of `exercise`: empty for a blank name, else the collected rows sorted by date. */
  function MuscleHistory(days: seq<Day>, exercise: string): seq<HistoryItem>
  {
    var key := Norm(exercise);
    if key == "" then [] else SortBy(Collect(days, key), DateOf)
  }

  /** `getMuscleHistory(state, exercise)`. */
  method GetMuscleHistory(days: seq<Day>, exercise: string) returns (items: seq<HistoryItem>)
    ensures items == MuscleHistory(days, exercise)
  {
    var key := Norm(exercise);
    if key == "" {
      return [];
    }
    items := [];
    var i := 0;
    while i < |days|
      invariant 0 <= i <= |days|
      invariant items == Collect(days[..i], key)
    {
      var d := days[i];
      assert days[..i + 1][..i] == days[..i];
      var j := 0;
      ghost var before := items;
      while j < |d.tasks|
        invariant 0 <= j <= |d.tasks|
        invariant items == before + DayItems(d, d.tasks[..j], key)
      {
        var t := d.tasks[j];
        assert d.tasks[..j + 1][..j] == d.tasks[..j];
        if t.category == MUSCLES {
          var exKey := Norm(ExerciseOf(t));
          if exKey == key {
            items := items + [HistoryItem(d.createdAt, SetsOf(t), RepsOf(t), WeightOf(t), t.done)];
          }
        }
        j := j + 1;
      }
      assert d.tasks[..j] == d.tasks;
      i := i + 1;
    }
    assert days[..i] == days;
    items := SortBy(items, DateOf);
  }

  /** The rows for a day are exactly the rows of its matching tasks. */
  lemma {:induction false} DayItemsMembers(d: Day, ts: seq<Task>, key: string, h: HistoryItem)
    ensures h in DayItems(d, ts, key) <==> exists j :: 0 <= j < |ts| && Matches(ts[j], key) && h == ItemOf(d, ts[j])
  {
    if ts != [] {
      var init := ts[..|ts| - 1];
      DayItemsMembers(d, init, key, h);
      if j :| 0 <= j < |init| && Matches(init[j], key) && h == ItemOf(d, init[j]) {
        assert ts[j] == init[j];
      }
      if j :| 0 <= j < |ts| && Matches(ts[j], key) && h == ItemOf(d, ts[j]) {
        if j < |init| {
          assert init[j] == ts[j];
        }
      }
    }
  }

  /** The collected rows are exactly the rows of the matching tasks of all days. */
  lemma {:induction false} CollectMembers(days: seq<Day>, key: string, h: HistoryItem)
    ensures h in Collect(days, key) <==>
      exists i, j :: 0 <= i < |days| && 0 <= j < |days[i].tasks| && Matches(days[i].tasks[j], key) && h == ItemOf(days[i], days[i].tasks[j])
  {
    if days != [] {
      var init, d := days[..|days| - 1], days[|days| - 1];
      assert Collect(days, key) == Collect(init, key) + DayItems(d, d.tasks, key);
      assert h in Collect(days, key) <==> h in Collect(init, key) || h in DayItems(d, d.tasks, key);
      CollectMembers(init, key, h);
      DayItemsMembers(d, d.tasks, key, h);
      if i, j :| 0 <= i < |init| && 0 <= j < |init[i].tasks| && Matches(init[i].tasks[j], key) && h == ItemOf(init[i], init[i].tasks[j]) {
        assert days[i] == init[i];
      }
      if i, j :| 0 <= i < |days| && 0 <= j < |days[i].tasks| && Matches(days[i].tasks[j], key) && h == ItemOf(days[i], days[i].tasks[j]) {
        if i < |init| {
          assert init[i] == days[i];
        }
      }
    }
  }

  /** The number of tasks of `ts` that belong to the history of `key`, counted from the front. */
  function MatchCount(ts: seq<Task>, key: string): nat
  {
    if ts == [] then 0 else (if Matches(ts[0], key) then 1 else 0) + MatchCount(ts[1..], key)
  }

  /** The number of tasks of all `days` that belong to the history of `key`. */
  function HistoryCount(days: seq<Day>, key: string): nat
  {
    if days == [] then 0 else MatchCount(days[0].tasks, key) + HistoryCount(days[1..], key)
  }

  lemma {:induction false} MatchCountAppend(ts: seq<Task>, t: Task, key: string)
    ensures MatchCount(ts + [t], key) == MatchCount(ts, key) + (if Matches(t, key) then 1 else 0)
  {
    if ts != [] {
      assert (ts + [t])[1..] == ts[1..] + [t];
      MatchCountAppend(ts[1..], t, key);
    }
  }

  lemma {:induction false} HistoryCountAppend(days: seq<Day>, d: Day, key: string)
    ensures HistoryCount(days + [d], key) == HistoryCount(days, key) + MatchCount(d.tasks, key)
  {
    if days != [] {
      assert (days + [d])[1..] == days[1..] + [d];
      HistoryCountAppend(days[1..], d, key);
    }
  }

  /** A day contributes one row per matching task. */
  lemma {:induction false} DayItemsCount(d: Day, ts: seq<Task>, key: string)
    ensures |DayItems(d, ts, key)| == MatchCount(ts, key)
  {
    if ts != [] {
      var init, t := ts[..|ts| - 1], ts[|ts| - 1];
      DayItemsCount(d, init, key);
      assert ts == init + [t];
      MatchCountAppend(init, t, key);
    }
  }

  /** The loops collect one row per matching task of any day. */
  lemma {:induction false} CollectCount(days: seq<Day>, key: string)
    ensures |Collect(days, key)| == HistoryCount(days, key)
  {
    if days != [] {
      var init, d := days[..|days| - 1], days[|days| - 1];
      CollectCount(init, key);
      DayItemsCount(d, d.tasks, key);
      assert days == init + [d];
      HistoryCountAppend(init, d, key);
    }
  }

  /** A blank exercise name has an empty history. */
  lemma BlankHasNoHistory(days: seq<Day>, exercise: string)
    requires forall c :: c in exercise ==> IsSpace(c)
    ensures MuscleHistory(days, exercise) == []
  {
    NormEmpty(exercise);
  }

  /**
   * The history holds a row exactly for each strength task of any day whose
   * canonical name equals the canonical query, dated by its day, and the
   * rows are in ascending date order; there are as many rows as matching
   * tasks.
   */
  lemma HistorySpec(days: seq<Day>, exercise: string, h: HistoryItem)
    requires Norm(exercise) != ""
    ensures SortedBy(MuscleHistory(days, exercise), DateOf)
    ensures |MuscleHistory(days, exercise)| == |Collect(days, Norm(exercise))| == HistoryCount(days, Norm(exercise))
    ensures h in MuscleHistory(days, exercise) <==>
      exists i, j :: 0 <= i < |days| && 0 <= j < |days[i].tasks| &&
        days[i].tasks[j].category == MUSCLES && KeyOf(days[i].tasks[j]) == Norm(exercise) &&
        h == ItemOf(days[i], days[i].tasks[j])
  {
    var key := Norm(exercise);
    SortByMembers(Collect(days, key), DateOf, h);
    CollectMembers(days, key, h);
    CollectCount(days, key);
  }

  /**
   * Rows sharing a date keep the order in which the loops push them: days in
   * list order, and tasks in day order within a day.
   */
  lemma HistoryKeepsLoopOrder(days: seq<Day>, exercise: string, date: int)
    requires Norm(exercise) != ""
    ensures WithKey(MuscleHistory(days, exercise), DateOf, date) == WithKey(Collect(days, Norm(exercise)), DateOf, date)
  {
    SortByStable(Collect(days, Norm(exercise)), DateOf, date);
  }

  /** Any two spellings with the same canonical name have the same history. */
  lemma HistoryIgnoresSpelling(days: seq<Day>, a: string, b: string)
    requires Norm(a) == Norm(b)
    ensures MuscleHistory(days, a) == MuscleHistory(days, b)
  {
  }
}
