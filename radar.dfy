/**
 * The scores of the active day drawn on the day radar: a 0/1 indicator per
 * simple category (brains, endurance, mental), the strength score (the mean
 * attainment of the goals of the exercises done that day), and discipline,
 * the share of the four axes that are positive.
 */
module Radar {
  import opened Wrappers
  import opened Numeric
  import opened Model
  import opened Goals
  import Planner

  /** The five values `getDayScores` returns, each meant to lie in `[0, 1]`. */
  datatype DayScores = DayScores(muscles: real, brains: real, endurance: real, mental: real, discipline: real)

  const NoScores: DayScores := DayScores(0.0, 0.0, 0.0, 0.0, 0.0)

  /** Some task of the day in category `cat` is done. */
  ghost predicate HasDone(tasks: seq<Task>, cat: string)
  {
    exists i :: 0 <= i < |tasks| && tasks[i].done && tasks[i].category == cat
  }

  function Indicator(b: bool): real
  {
    if b then 1.0 else 0.0
  }

  /** `tasks.filter(t => t?.done && t.category === "muscles")`. */
  function DoneMuscles(tasks: seq<Task>): (r: seq<Task>)
    ensures |r| <= |tasks|
  {
    if tasks == [] then []
    else
      var t := tasks[|tasks| - 1];
      DoneMuscles(tasks[..|tasks| - 1]) + (if t.done && t.category == MUSCLES then [t] else [])
  }

  /** The filter keeps exactly the done strength tasks. */
  lemma {:induction false} DoneMusclesEmpty(tasks: seq<Task>)
    ensures DoneMuscles(tasks) == [] <==> forall i :: 0 <= i < |tasks| ==> !(tasks[i].done && tasks[i].category == MUSCLES)
  {
    if tasks != [] {
      var init := tasks[..|tasks| - 1];
      DoneMusclesEmpty(init);
      assert forall i :: 0 <= i < |init| ==> init[i] == tasks[i];
    }
  }

  /** The best-per-exercise loop skips the tasks the filter drops, so filtering first changes nothing. */
  lemma {:induction false} BestOfDoneMuscles(tasks: seq<Task>)
    ensures Best(DoneMuscles(tasks)) == Best(tasks)
  {
    if tasks != [] {
      var init, t := tasks[..|tasks| - 1], tasks[|tasks| - 1];
      BestOfDoneMuscles(init);
      assert Best(tasks) == BestStep(Best(init), t);
      if t.done && t.category == MUSCLES {
        var d := DoneMuscles(init) + [t];
        assert DoneMuscles(tasks) == d;
        assert d[..|d| - 1] == DoneMuscles(init);
        assert Best(d) == BestStep(Best(DoneMuscles(init)), t);
      } else {
        assert DoneMuscles(tasks) == DoneMuscles(init);
        assert !Scored(t);
      }
    }
  }

  /** `goal && goal.weight && goal.reps && estimate1RM(goal.weight, goal.reps) > 0`. */
  predicate UsableGoal(g: Goal)
  {
    g.weight != 0.0 && g.reps != 0.0 && GoalRM(g) > 0.0
  }

  /** The falsy checks are subsumed by the estimate check: a goal counts exactly when weight and reps are positive. */
  lemma UsableGoalIff(g: Goal)
    ensures UsableGoal(g) <==> g.weight > 0.0 && g.reps > 0.0
  {
  }

  /** The goal the day radar finds for an exercise key, through `getMuscleGoal`, when it is usable. */
  function UsableGoalOf(goals: map<string, Goal>, k: string): (r: Option<Goal>)
    ensures r.Some? ==> UsableGoal(r.value)
  {
    var g := GetMuscleGoal(goals, k);
    if g.Some? && UsableGoal(g.value) then g else None
  }

  /** The attainment of every exercise of the day that has a usable goal. */
  function DayRatios(goals: map<string, Goal>, best: map<string, real>): (ratios: map<string, real>)
    ensures forall k :: k in ratios ==> 0.0 <= ratios[k] <= 1.0
  {
    map k | k in best && UsableGoalOf(goals, k).Some? :: Ratio(best[k], GoalRM(UsableGoalOf(goals, k).value))
  }

  /** An exercise has an attainment exactly when it has a usable goal, and the attainment is its clamped ratio. */
  lemma DayRatiosAt(goals: map<string, Goal>, best: map<string, real>, k: string)
    requires k in best
    ensures k in DayRatios(goals, best) <==> UsableGoalOf(goals, k).Some?
    ensures k in DayRatios(goals, best) ==>
      DayRatios(goals, best)[k] == Ratio(best[k], GoalRM(UsableGoalOf(goals, k).value))
  {
  }

  /** The mean of the values of a map; 0 for an empty one. */
  ghost function Mean(m: map<string, real>): real
  {
    if |m| == 0 then 0.0 else SumValues(m) / (|m| as real)
  }

  /** A mean of values in `[0, 1]` lies in `[0, 1]`; a mean of positive values is positive. */
  lemma MeanBounds(m: map<string, real>)
    requires forall k :: k in m ==> 0.0 <= m[k] <= 1.0
    ensures 0.0 <= Mean(m) <= 1.0
    ensures |m| > 0 && (forall k :: k in m ==> m[k] > 0.0) ==> Mean(m) > 0.0
  {
    if |m| > 0 {
      SumValuesUnit(m);
      MeanInUnit(SumValues(m), |m| as real);
      if forall k :: k in m ==> m[k] > 0.0 {
        SumValuesPositive(m);
      }
    }
  }

  /**
   * `calcMusclesScore(state, tasks)`: 0 without a done strength task or
   * without a named exercise with a positive estimate, 0.2 when none of the
   * exercises has a usable goal, else the mean attainment.
   */
  ghost function MusclesScore(tasks: seq<Task>, goals: map<string, Goal>): real
  {
    var done := DoneMuscles(tasks);
    ScoreFromBest(|done| > 0, Best(done), goals)
  }

  /** The strength score once the done list has been checked and `bestByExercise` filled. */
  ghost function ScoreFromBest(anyDone: bool, best: map<string, real>, goals: map<string, Goal>): real
  {
    if !anyDone || |best| == 0 then 0.0
    else
      var ratios := DayRatios(goals, best);
      if |ratios| == 0 then 0.2 else Mean(ratios)
  }

  /** The best map of the done list is that of the whole day, and it is empty when nothing is done. */
  lemma DoneBest(tasks: seq<Task>)
    ensures Best(DoneMuscles(tasks)) == Best(tasks)
    ensures |DoneMuscles(tasks)| == 0 ==> |Best(tasks)| == 0
  {
    BestOfDoneMuscles(tasks);
    if |DoneMuscles(tasks)| == 0 {
      assert DoneMuscles(tasks) == [];
    }
  }

  /** On a non-empty best map the score is 0.2 with no usable goal and the mean attainment otherwise. */
  lemma MusclesScoreOfBest(tasks: seq<Task>, goals: map<string, Goal>)
    ensures |Best(tasks)| == 0 ==> MusclesScore(tasks, goals) == 0.0
    ensures |Best(tasks)| > 0 ==> MusclesScore(tasks, goals) == ScoreFromBest(true, Best(tasks), goals)
  {
    DoneBest(tasks);
  }

  /** The scores of a day's tasks: indicators, strength score and the discipline share. */
  ghost function DayScoresOf(tasks: seq<Task>, goals: map<string, Goal>): DayScores
  {
    var muscles := MusclesScore(tasks, goals);
    var brains := Indicator(HasDone(tasks, BRAINS));
    var endurance := Indicator(HasDone(tasks, ENDURANCE));
    var mental := Indicator(HasDone(tasks, MENTAL));
    WithDiscipline(muscles, brains, endurance, mental)
  }

  /** The four axes of a day completed with discipline: the share of them that are positive, in quarters. */
  function WithDiscipline(muscles: real, brains: real, endurance: real, mental: real): DayScores
  {
    DayScores(muscles, brains, endurance, mental, Discipline(muscles > 0.0, brains, endurance, mental))
  }

  /** The discipline share, given whether the strength axis is positive. */
  function Discipline(musclesUp: bool, brains: real, endurance: real, mental: real): real
  {
    (Indicator(musclesUp) + Indicator(brains != 0.0) + Indicator(endurance != 0.0) + Indicator(mental != 0.0)) / 4.0
  }

  /** `getDayScores(state)`: the scores of the active day, or all zeros with no day. */
  ghost function ScoresOf(days: seq<Day>, activeId: Option<Id>, goals: map<string, Goal>): DayScores
  {
    match ActiveDayIndex(days, activeId)
    case None => NoScores
    case Some(i) => DayScoresOf(days[i].tasks, goals)
  }

  /** The sum loop of `calcMusclesScore`: each exercise with a usable goal adds its clamped ratio. */
  method SumDayRatios(goals: map<string, Goal>, bestByExercise: map<string, real>) returns (sum: real, cnt: nat)
    ensures sum == SumValues(DayRatios(goals, bestByExercise))
    ensures cnt == |DayRatios(goals, bestByExercise)|
  {
    ghost var ratios := DayRatios(goals, bestByExercise);
    sum := 0.0;
    cnt := 0;
    var pending := bestByExercise.Keys;
    assert pending * ratios.Keys == ratios.Keys;
    while pending != {}
      invariant pending <= bestByExercise.Keys
      invariant sum + SumOn(pending * ratios.Keys, ratios) == SumValues(ratios)
      invariant cnt + |pending * ratios.Keys| == |ratios.Keys|
      decreases pending
    {
      var exKey :| exKey in pending;
      SumOnTake(ratios, pending, exKey);
      DayRatiosAt(goals, bestByExercise, exKey);
      var goal := GetMuscleGoal(goals, exKey);
      if goal.Some? && goal.value.weight != 0.0 && goal.value.reps != 0.0 {
        var goal1RM := Estimate1RM(goal.value.weight, goal.value.reps);
        if goal1RM > 0.0 {
          var cur1RM := bestByExercise[exKey];
          var ratio := Clamp(cur1RM / goal1RM, 0.0, 1.0);
          assert ratio == ratios[exKey];
          sum := sum + ratio;
          cnt := cnt + 1;
        }
      }
      pending := pending - {exKey};
    }
    assert |ratios.Keys| == |ratios|;
  }

  /** `calcMusclesScore(state, tasks)`. */
  method CalcMusclesScore(tasks: seq<Task>, goals: map<string, Goal>) returns (score: real)
    ensures score == MusclesScore(tasks, goals)
  {
    var done := DoneMuscles(tasks);
    if |done| == 0 {
      return 0.0;
    }
    var bestByExercise := FoldBest(map[], done);
    BestFromEmpty(done);
    if |bestByExercise| == 0 {
      return 0.0;
    }
    var sum, cnt := SumDayRatios(goals, bestByExercise);
    if cnt == 0 {
      return 0.2;
    }
    score := sum / (cnt as real);
  }

  /** The first loop of `getDayScores`: mark each simple category that has a done task. */
  method DoneCategories(tasks: seq<Task>) returns (brains: real, endurance: real, mental: real)
    ensures brains == Indicator(HasDone(tasks, BRAINS))
    ensures endurance == Indicator(HasDone(tasks, ENDURANCE))
    ensures mental == Indicator(HasDone(tasks, MENTAL))
  {
    brains, endurance, mental := 0.0, 0.0, 0.0;
    var j := 0;
    while j < |tasks|
      invariant 0 <= j <= |tasks|
      invariant brains == Indicator(HasDone(tasks[..j], BRAINS))
      invariant endurance == Indicator(HasDone(tasks[..j], ENDURANCE))
      invariant mental == Indicator(HasDone(tasks[..j], MENTAL))
    {
      var t := tasks[j];
      assert forall i :: 0 <= i < j ==> tasks[..j + 1][i] == tasks[..j][i];
      assert tasks[..j + 1][j] == t;
      if t.done && t.category != "" && t.category != MUSCLES {
        if t.category == BRAINS {
          brains := 1.0;
        } else if t.category == ENDURANCE {
          endurance := 1.0;
        } else if t.category == MENTAL {
          mental := 1.0;
        }
      }
      j := j + 1;
    }
    assert tasks[..j] == tasks;
  }

  /** `getDayScores(state)`. */
  method GetDayScores(s: Planner.PlannerState) returns (scores: DayScores)
    ensures scores == ScoresOf(s.days, s.activeDayId, s.goals)
  {
    var i := ActiveDayIndex(s.days, s.activeDayId);
    if i.None? {
      return NoScores;
    }
    var tasks := s.days[i.value].tasks;
    var brains, endurance, mental := DoneCategories(tasks);
    var muscles := CalcMusclesScore(tasks, s.goals);
    scores := WithDiscipline(muscles, brains, endurance, mental);
  }

  /** With no day at all every axis is 0. */
  lemma NoDayNoScores(activeId: Option<Id>, goals: map<string, Goal>)
    ensures ScoresOf([], activeId, goals) == NoScores
  {
  }

  /** The strength score lies in `[0, 1]`. */
  lemma MusclesScoreInUnit(tasks: seq<Task>, goals: map<string, Goal>)
    ensures 0.0 <= MusclesScore(tasks, goals) <= 1.0
  {
    var done := DoneMuscles(tasks);
    if |done| > 0 && |Best(done)| > 0 {
      MeanBounds(DayRatios(goals, Best(done)));
    }
  }

  /** A positive best estimate gives a positive attainment. */
  lemma DayRatiosPositive(goals: map<string, Goal>, best: map<string, real>)
    requires forall k :: k in best ==> best[k] > 0.0
    ensures forall k :: k in DayRatios(goals, best) ==> DayRatios(goals, best)[k] > 0.0
  {
    var ratios := DayRatios(goals, best);
    forall k | k in ratios ensures ratios[k] > 0.0 {
      assert ratios[k] == Ratio(best[k], GoalRM(UsableGoalOf(goals, k).value));
    }
  }

  /**
   * The strength score is positive exactly when some done strength task has
   * a non-empty name and a positive estimate, that is when `bestByExercise`
   * ends up non-empty.
   */
  lemma MusclesScorePositive(tasks: seq<Task>, goals: map<string, Goal>)
    ensures MusclesScore(tasks, goals) > 0.0 <==> |Best(tasks)| > 0
  {
    MusclesScoreOfBest(tasks, goals);
    var best := Best(tasks);
    if |best| > 0 {
      var ratios := DayRatios(goals, best);
      if |ratios| > 0 {
        DayRatiosPositive(goals, best);
        MeanBounds(ratios);
      }
    }
  }

  /** `bestByExercise` is non-empty exactly when some done strength task has a non-empty name and a positive estimate. */
  lemma BestNonEmpty(tasks: seq<Task>)
    ensures |Best(tasks)| > 0 <==> exists i :: 0 <= i < |tasks| && Scored(tasks[i]) && OneRM(tasks[i]) > 0.0
  {
    if |Best(tasks)| > 0 {
      var k :| k in Best(tasks);
      BestHasKey(tasks, k);
    }
    if i :| 0 <= i < |tasks| && Scored(tasks[i]) && OneRM(tasks[i]) > 0.0 {
      BestHasKey(tasks, KeyOf(tasks[i]));
    }
  }

  /** With done named exercises but no usable goal for any of them the score is the placeholder 0.2. */
  lemma NoUsableGoalPlaceholder(tasks: seq<Task>, goals: map<string, Goal>)
    requires |Best(tasks)| > 0
    requires forall k :: k in Best(tasks) ==> UsableGoalOf(goals, k).None?
    ensures MusclesScore(tasks, goals) == 0.2
  {
    MusclesScoreOfBest(tasks, goals);
    var ratios := DayRatios(goals, Best(tasks));
    assert |ratios| == 0 by {
      assert ratios.Keys == {};
    }
  }

  /** When every exercise of the day has a usable goal that it reaches, the score saturates at 1. */
  lemma AllGoalsReachedToday(tasks: seq<Task>, goals: map<string, Goal>)
    requires |Best(tasks)| > 0
    requires forall k :: k in Best(tasks) ==>
      UsableGoalOf(goals, k).Some? && Best(tasks)[k] >= GoalRM(UsableGoalOf(goals, k).value)
    ensures MusclesScore(tasks, goals) == 1.0
  {
    MusclesScoreOfBest(tasks, goals);
    AllReached(goals, Best(tasks));
  }

  /** The filled-map form of the saturation: every key reaching its usable goal gives a score of 1. */
  lemma AllReached(goals: map<string, Goal>, best: map<string, real>)
    requires |best| > 0
    requires forall k :: k in best ==>
      UsableGoalOf(goals, k).Some? && best[k] >= GoalRM(UsableGoalOf(goals, k).value)
    ensures ScoreFromBest(true, best, goals) == 1.0
  {
    var ratios := DayRatios(goals, best);
    var k :| k in best;
    assert UsableGoalOf(goals, k).Some?;
    assert k in ratios;
    forall j | j in ratios ensures ratios[j] == 1.0 {
      assert ratios[j] == Ratio(best[j], GoalRM(UsableGoalOf(goals, j).value));
    }
    SumValuesConst(ratios);
    var n := |ratios| as real;
    SumValuesUnit(ratios);
    MeanInUnit(SumValues(ratios), n);
  }

  /** Every axis of the day radar lies in `[0, 1]`. */
  lemma ScoresInUnit(days: seq<Day>, activeId: Option<Id>, goals: map<string, Goal>)
    ensures var s := ScoresOf(days, activeId, goals);
      0.0 <= s.muscles <= 1.0 && 0.0 <= s.brains <= 1.0 && 0.0 <= s.endurance <= 1.0
      && 0.0 <= s.mental <= 1.0 && 0.0 <= s.discipline <= 1.0
  {
    match ActiveDayIndex(days, activeId)
    case None =>
    case Some(i) => MusclesScoreInUnit(days[i].tasks, goals);
  }

  /**
   * Discipline counts the positive axes among strength, brains, endurance and
   * mental in quarters: it is 1 exactly when all four are positive and 0
   * exactly when none is.
   */
  lemma DisciplineCounts(tasks: seq<Task>, goals: map<string, Goal>)
    ensures var s := DayScoresOf(tasks, goals);
      && (s.discipline == 0.0 || s.discipline == 0.25 || s.discipline == 0.5 || s.discipline == 0.75 || s.discipline == 1.0)
      && (s.discipline == 1.0 <==> s.muscles > 0.0 && s.brains > 0.0 && s.endurance > 0.0 && s.mental > 0.0)
      && (s.discipline == 0.0 <==> s.muscles <= 0.0 && s.brains <= 0.0 && s.endurance <= 0.0 && s.mental <= 0.0)
  {
  }
}
