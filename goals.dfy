/**
 * The strength-goal store (`state.goals.muscles`, keyed by canonical
 * exercise name), the best estimated one-rep maximum per exercise, and
 * `calcOverallMusclesProgress`, the mean attainment of all goals.
 */
module Goals {
  import opened Wrappers
  import opened Text
  import opened Numeric
  import opened Model

  /** `getMuscleGoal`: canonicalise the name, then look it up; `None` for an empty key or a missing goal. */
  function GetMuscleGoal(goals: map<string, Goal>, exercise: string): (r: Option<Goal>)
    ensures r.Some? ==> Norm(exercise) != "" && Norm(exercise) in goals && r.value == goals[Norm(exercise)]
    ensures r.None? ==> Norm(exercise) == "" || Norm(exercise) !in goals
  {
    var key := Norm(exercise);
    if key == "" then None
    else if key in goals then Some(goals[key])
    else None
  }

  /** The goal map after `setMuscleGoal(state, exercise, weight, reps)`. */
  function SetGoal(goals: map<string, Goal>, exercise: string, weight: real, reps: real): (g: map<string, Goal>)
    ensures Norm(exercise) == "" ==> g == goals
    ensures Norm(exercise) != "" ==> g.Keys == goals.Keys + {Norm(exercise)}
    ensures Norm(exercise) != "" ==> g[Norm(exercise)] == Goal(weight, reps)
    ensures forall k :: k in goals && k != Norm(exercise) ==> g[k] == goals[k]
  {
    var key := Norm(exercise);
    if key == "" then goals else goals[key := Goal(weight, reps)]
  }

  /** The goal map after `removeMuscleGoal(state, exercise)`. */
  function RemoveGoal(goals: map<string, Goal>, exercise: string): (g: map<string, Goal>)
    ensures Norm(exercise) == "" ==> g == goals
    ensures Norm(exercise) != "" ==> g.Keys == goals.Keys - {Norm(exercise)}
    ensures forall k :: k in g ==> k in goals && g[k] == goals[k]
  {
    var key := Norm(exercise);
    if key == "" then goals else goals - {key}
  }

  /** Setting a goal and reading it back under any spelling with the same key gives the goal. */
  lemma SetThenGet(goals: map<string, Goal>, exercise: string, weight: real, reps: real, query: string)
    requires Norm(query) == Norm(exercise) != ""
    ensures GetMuscleGoal(SetGoal(goals, exercise, weight, reps), query) == Some(Goal(weight, reps))
  {
  }

  /** Setting a goal leaves the goals of every other key as they were. */
  lemma SetLeavesOthers(goals: map<string, Goal>, exercise: string, weight: real, reps: real, query: string)
    requires Norm(query) != Norm(exercise)
    ensures GetMuscleGoal(SetGoal(goals, exercise, weight, reps), query) == GetMuscleGoal(goals, query)
  {
  }

  /** After removal the goal is gone; every other key keeps its goal. */
  lemma RemoveThenGet(goals: map<string, Goal>, exercise: string, query: string)
    ensures Norm(query) == Norm(exercise) ==> GetMuscleGoal(RemoveGoal(goals, exercise), query) == None
    ensures Norm(query) != Norm(exercise) ==>
      GetMuscleGoal(RemoveGoal(goals, exercise), query) == GetMuscleGoal(goals, query)
  {
  }

  /** Looking up an already canonical key is the same as looking up the name it came from. */
  lemma GetCanonical(goals: map<string, Goal>, exercise: string)
    ensures GetMuscleGoal(goals, Norm(exercise)) == GetMuscleGoal(goals, exercise)
  {
    NormIdempotent(exercise);
  }

  /** `setMuscleGoal(" Bench Press ", 100, 5)` is found by `getMuscleGoal("bench press")`. */
  lemma BenchPressRoundTrip(goals: map<string, Goal>, padded: string, lower: string)
    requires padded == " Bench Press " && lower == "bench press"
    ensures GetMuscleGoal(SetGoal(goals, padded, 100.0, 5.0), lower) == Some(Goal(100.0, 5.0))
  {
    BenchPressKey(padded, lower);
    SetThenGet(goals, padded, 100.0, 5.0, lower);
  }

  /** The key a logged task is grouped under: `String(t.exercise ?? t.title ?? "").trim().toLowerCase()`. */
  function KeyOf(t: Task): string
  {
    Norm(ExerciseOf(t))
  }

  /** A done strength task with a non-empty name takes part in the best-per-exercise map. */
  predicate Scored(t: Task)
  {
    t.done && t.category == MUSCLES && KeyOf(t) != ""
  }

  /** `bestByEx.get(k) ?? 0`. */
  function BestGet(best: map<string, real>, k: string): real
  {
    if k in best then best[k] else 0.0
  }

  /** One iteration of the loop that fills `bestByEx`: keep the larger estimate. */
  function BestStep(best: map<string, real>, t: Task): map<string, real>
  {
    if !Scored(t) then best
    else if OneRM(t) > BestGet(best, KeyOf(t)) then best[KeyOf(t) := OneRM(t)]
    else best
  }

  /** The map `bestByEx` after the loop has visited `ts`, starting from `best`. */
  function BestFrom(best: map<string, real>, ts: seq<Task>): map<string, real>
  {
    if ts == [] then best else BestStep(BestFrom(best, ts[..|ts| - 1]), ts[|ts| - 1])
  }

  /**
   * The map `bestByEx` after a pass over `ts`: every key is a non-empty
   * exercise name with a positive best estimate.
   */
  function Best(ts: seq<Task>): (best: map<string, real>)
    ensures forall k :: k in best ==> k != "" && best[k] > 0.0
  {
    if ts == [] then map[] else BestStep(Best(ts[..|ts| - 1]), ts[|ts| - 1])
  }

  /** Visiting `a` and then `b` is visiting `a + b`. */
  lemma {:induction false} BestFromAppend(best: map<string, real>, a: seq<Task>, b: seq<Task>)
    ensures BestFrom(BestFrom(best, a), b) == BestFrom(best, a + b)
  {
    if b == [] {
      assert a + b == a;
    } else {
      BestFromAppend(best, a, b[..|b| - 1]);
      assert (a + b)[..|a + b| - 1] == a + b[..|b| - 1];
    }
  }

  /** Starting from the empty map, the loop computes `Best`. */
  lemma {:induction false} BestFromEmpty(ts: seq<Task>)
    ensures BestFrom(map[], ts) == Best(ts)
  {
    if ts != [] {
      BestFromEmpty(ts[..|ts| - 1]);
    }
  }

  /** Every scored task's estimate is at most the best stored for its exercise. */
  lemma {:induction false} BestIsUpperBound(ts: seq<Task>, i: int)
    requires 0 <= i < |ts| && Scored(ts[i])
    ensures OneRM(ts[i]) <= BestGet(Best(ts), KeyOf(ts[i]))
  {
    var init, t := ts[..|ts| - 1], ts[|ts| - 1];
    if i < |ts| - 1 {
      assert init[i] == ts[i];
      BestIsUpperBound(init, i);
    }
  }

  /** The best stored for an exercise is the estimate of one of its scored tasks. */
  lemma {:induction false} BestIsAttained(ts: seq<Task>, k: string)
    requires k in Best(ts)
    ensures exists i :: 0 <= i < |ts| && Scored(ts[i]) && KeyOf(ts[i]) == k && OneRM(ts[i]) == Best(ts)[k]
  {
    var init, t := ts[..|ts| - 1], ts[|ts| - 1];
    var prev := Best(init);
    if k in prev && Best(ts)[k] == prev[k] {
      BestIsAttained(init, k);
      var i :| 0 <= i < |init| && Scored(init[i]) && KeyOf(init[i]) == k && OneRM(init[i]) == prev[k];
      assert ts[i] == init[i];
    } else {
      assert Scored(t) && KeyOf(t) == k && OneRM(t) == Best(ts)[k];
    }
  }

  /** An exercise has a best estimate exactly when some scored task for it has a positive estimate. */
  lemma BestHasKey(ts: seq<Task>, k: string)
    ensures k in Best(ts) <==> exists i :: 0 <= i < |ts| && Scored(ts[i]) && KeyOf(ts[i]) == k && OneRM(ts[i]) > 0.0
  {
    if k in Best(ts) {
      BestIsAttained(ts, k);
    }
    if i :| 0 <= i < |ts| && Scored(ts[i]) && KeyOf(ts[i]) == k && OneRM(ts[i]) > 0.0 {
      BestIsUpperBound(ts, i);
    }
  }

  /** The estimate a goal asks for, `estimate1RM(goal.weight, goal.reps)`. */
  function GoalRM(g: Goal): real
  {
    Estimate1RM(g.weight, g.reps)
  }

  /** `Math.max(0, Math.min(1, best / goal1))`: attainment of one goal. */
  function Ratio(best: real, goal1: real): (r: real)
    requires goal1 > 0.0
    ensures 0.0 <= r <= 1.0
    ensures best >= goal1 ==> r == 1.0
    ensures best <= 0.0 ==> r == 0.0
    ensures best > 0.0 ==> r > 0.0
    ensures 0.0 <= best <= goal1 ==> r * goal1 == best
  {
    Clamp(best / goal1, 0.0, 1.0)
  }

  /** The attainment of every goal whose own estimate is positive, against the best across all days. */
  function OverallRatios(goals: map<string, Goal>, best: map<string, real>): (ratios: map<string, real>)
    ensures ratios.Keys == set k | k in goals && GoalRM(goals[k]) > 0.0
    ensures forall k :: k in ratios ==> 0.0 <= ratios[k] <= 1.0
  {
    map k | k in goals && GoalRM(goals[k]) > 0.0 :: Ratio(BestGet(best, k), GoalRM(goals[k]))
  }

  /** `calcOverallMusclesProgress`: the mean attainment over goals; 0 with no goals or no usable goal. */
  ghost function OverallProgress(days: seq<Day>, goals: map<string, Goal>): real
  {
    if |goals| == 0 then 0.0
    else
      var ratios := OverallRatios(goals, Best(AllTasks(days)));
      if |ratios| == 0 then 0.0 else SumValues(ratios) / (|ratios| as real)
  }

  /** The overall progress always lies in `[0, 1]`, and is 0 when there are no goals. */
  lemma OverallProgressInUnit(days: seq<Day>, goals: map<string, Goal>)
    ensures 0.0 <= OverallProgress(days, goals) <= 1.0
    ensures |goals| == 0 ==> OverallProgress(days, goals) == 0.0
  {
    if |goals| > 0 {
      var ratios := OverallRatios(goals, Best(AllTasks(days)));
      if |ratios| > 0 {
        SumValuesUnit(ratios);
        MeanInUnit(SumValues(ratios), |ratios| as real);
      }
    }
  }

  /** When every goal has been reached on some day, the overall progress is 1. */
  lemma AllGoalsReached(days: seq<Day>, goals: map<string, Goal>)
    requires exists k :: k in goals && GoalRM(goals[k]) > 0.0
    requires forall k :: k in goals && GoalRM(goals[k]) > 0.0 ==> BestGet(Best(AllTasks(days)), k) >= GoalRM(goals[k])
    ensures OverallProgress(days, goals) == 1.0
  {
    var ratios := OverallRatios(goals, Best(AllTasks(days)));
    var k :| k in goals && GoalRM(goals[k]) > 0.0;
    assert k in ratios;
    SumValuesConst(ratios);
    assert |goals| > 0 by { assert k in goals; }
    MeanInUnit(SumValues(ratios), |ratios| as real);
  }

  /**
   * The loop that fills `bestByEx` from a list of tasks: skip tasks that are
   * not done strength tasks or have an empty name, keep the larger estimate.
   */
  method FoldBest(bestByEx: map<string, real>, tasks: seq<Task>) returns (best: map<string, real>)
    ensures best == BestFrom(bestByEx, tasks)
  {
    best := bestByEx;
    var j := 0;
    while j < |tasks|
      invariant 0 <= j <= |tasks|
      invariant best == BestFrom(bestByEx, tasks[..j])
    {
      var t := tasks[j];
      assert tasks[..j + 1][..j] == tasks[..j];
      if t.done && t.category == MUSCLES {
        var exKey := Norm(ExerciseOf(t));
        if exKey != "" {
          var one := Estimate1RM(WeightOf(t), RepsOf(t));
          var prev := if exKey in best then best[exKey] else 0.0;
          if one > prev {
            best := best[exKey := one];
          }
        }
      }
      j := j + 1;
    }
    assert tasks[..j] == tasks;
  }

  /** The first half of `calcOverallMusclesProgress`: the best estimate per exercise over every day. */
  method BestAcrossDays(days: seq<Day>) returns (bestByEx: map<string, real>)
    ensures bestByEx == Best(AllTasks(days))
  {
    bestByEx := map[];
    var i := 0;
    while i < |days|
      invariant 0 <= i <= |days|
      invariant bestByEx == BestFrom(map[], AllTasks(days[..i]))
    {
      assert AllTasks(days[..i + 1]) == AllTasks(days[..i]) + days[i].tasks by {
        assert days[..i + 1][..i] == days[..i];
      }
      BestFromAppend(map[], AllTasks(days[..i]), days[i].tasks);
      bestByEx := FoldBest(bestByEx, days[i].tasks);
      i := i + 1;
    }
    assert days[..i] == days;
    BestFromEmpty(AllTasks(days));
  }

  /** The second loop of `calcOverallMusclesProgress`: sum and count the attainment of every usable goal. */
  method SumGoalRatios(goals: map<string, Goal>, bestByEx: map<string, real>) returns (sum: real, cnt: nat)
    ensures sum == SumValues(OverallRatios(goals, bestByEx))
    ensures cnt == |OverallRatios(goals, bestByEx)|
  {
    ghost var ratios := OverallRatios(goals, bestByEx);
    sum := 0.0;
    cnt := 0;
    var pending := goals.Keys;
    assert pending * ratios.Keys == ratios.Keys;
    while pending != {}
      invariant pending <= goals.Keys
      invariant sum + SumOn(pending * ratios.Keys, ratios) == SumValues(ratios)
      invariant cnt + |pending * ratios.Keys| == |ratios.Keys|
      decreases pending
    {
      var exKey :| exKey in pending;
      SumOnTake(ratios, pending, exKey);
      var goal := goals[exKey];
      var goal1 := Estimate1RM(goal.weight, goal.reps);
      if goal1 > 0.0 {
        var cur1 := if exKey in bestByEx then bestByEx[exKey] else 0.0;
        var ratio := Max(0.0, Min(1.0, cur1 / goal1));
        assert ratio == ratios[exKey];
        sum := sum + ratio;
        cnt := cnt + 1;
      }
      pending := pending - {exKey};
    }
    assert |ratios.Keys| == |ratios|;
  }

  /** `calcOverallMusclesProgress(state)`. */
  method CalcOverallMusclesProgress(days: seq<Day>, goals: map<string, Goal>) returns (progress: real)
    ensures progress == OverallProgress(days, goals)
  {
    if |goals| == 0 {
      return 0.0;
    }
    var bestByEx := BestAcrossDays(days);
    var sum, cnt := SumGoalRatios(goals, bestByEx);
    progress := if cnt != 0 then sum / (cnt as real) else 0.0;
  }
}
