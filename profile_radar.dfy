/**
 * The scores of the profile radar: the overall progress towards the strength
 * goals, and the mean over all days of the five axes of the day radar, where
 * the strength axis of a day is `calcDayMuscles`, a variant of the day
 * radar's strength score that looks goals up by the exact exercise key and
 * gives the 0.2 placeholder also when no exercise was scored at all.
 */
module ProfileRadar {
  import opened Numeric
  import opened Model
  import opened Goals
  import Text
  import Radar
  import Planner

  /** The six values `getProfileScores` returns. */
  datatype ProfileScores = ProfileScores(progres: real, muscles: real, brains: real, endurance: real,
                                         mental: real, discipline: real)

  /** The attainment of every exercise of the day whose exact key holds a usable goal in `goals`. */
  function ProfileRatios(goals: map<string, Goal>, best: map<string, real>): (ratios: map<string, real>)
    ensures forall k :: k in ratios ==> 0.0 <= ratios[k] <= 1.0
  {
    map k | k in best && k in goals && Radar.UsableGoal(goals[k]) :: Ratio(best[k], GoalRM(goals[k]))
  }

  /**
   * `calcDayMuscles(state, tasks)`: 0 without a done strength task, 0.2 when
   * none of the scored exercises has a usable goal (also when none was
   * scored), else the mean attainment.
   */
  ghost function DayMuscles(tasks: seq<Task>, goals: map<string, Goal>): real
  {
    var done := Radar.DoneMuscles(tasks);
    if |done| == 0 then 0.0
    else
      var ratios := ProfileRatios(goals, Best(done));
      if |ratios| == 0 then 0.2 else Radar.Mean(ratios)
  }

  /**
   * The axes one day contributes to the profile. The strength axis counts
   * for discipline when a strength task is done, which is exactly when it is
   * positive (`DayMusclesBounds`).
   */
  ghost function DayAxes(tasks: seq<Task>, goals: map<string, Goal>): Radar.DayScores
  {
    var brains := Radar.Indicator(Radar.HasDone(tasks, BRAINS));
    var endurance := Radar.Indicator(Radar.HasDone(tasks, ENDURANCE));
    var mental := Radar.Indicator(Radar.HasDone(tasks, MENTAL));
    Radar.DayScores(DayMuscles(tasks, goals), brains, endurance, mental,
      Radar.Discipline(|Radar.DoneMuscles(tasks)| > 0, brains, endurance, mental))
  }

  /** The axis-wise sum of two sets of scores: one step of the `sum` object. */
  function AddScores(a: Radar.DayScores, b: Radar.DayScores): Radar.DayScores
  {
    Radar.DayScores(a.muscles + b.muscles, a.brains + b.brains, a.endurance + b.endurance,
                    a.mental + b.mental, a.discipline + b.discipline)
  }

  /** The axes of every day, in order. */
  ghost function AxesOf(days: seq<Day>, goals: map<string, Goal>): seq<Radar.DayScores>
  {
    seq(|days|, i requires 0 <= i < |days| => DayAxes(days[i].tasks, goals))
  }

  /** The axis-wise sum of a sequence of scores, as the day loop accumulates it. */
  function SumScores(xs: seq<Radar.DayScores>): Radar.DayScores
  {
    if xs == [] then Radar.NoScores else AddScores(SumScores(xs[..|xs| - 1]), xs[|xs| - 1])
  }

  /** `getProfileScores(state)`: the overall progress, and each axis averaged over the days (0 with no day). */
  ghost function ProfileOf(days: seq<Day>, goals: map<string, Goal>): ProfileScores
  {
    var progres := OverallProgress(days, goals);
    if |days| == 0 then ProfileScores(progres, 0.0, 0.0, 0.0, 0.0, 0.0)
    else
      var s := SumScores(AxesOf(days, goals));
      var n := |days| as real;
      ProfileScores(progres, s.muscles / n, s.brains / n, s.endurance / n, s.mental / n, s.discipline / n)
  }

  /** Every axis lies between 0 and `n`. */
  predicate Bounded(s: Radar.DayScores, n: real)
  {
    0.0 <= s.muscles <= n && 0.0 <= s.brains <= n && 0.0 <= s.endurance <= n
    && 0.0 <= s.mental <= n && 0.0 <= s.discipline <= n
  }

  /** The three axes that indicate a simple category. */
  datatype CategoryAxis = BrainsAxis | EnduranceAxis | MentalAxis

  function CategoryOf(a: CategoryAxis): string
  {
    match a
    case BrainsAxis => BRAINS
    case EnduranceAxis => ENDURANCE
    case MentalAxis => MENTAL
  }

  function Field(s: Radar.DayScores, a: CategoryAxis): real
  {
    match a
    case BrainsAxis => s.brains
    case EnduranceAxis => s.endurance
    case MentalAxis => s.mental
  }

  /** The positions whose indicator on axis `a` is set. */
  ghost function Ones(xs: seq<Radar.DayScores>, a: CategoryAxis): set<int>
  {
    set i | 0 <= i < |xs| && Field(xs[i], a) == 1.0
  }

  /** The indices of the days with a done task in category `cat`. */
  ghost function DaysWith(days: seq<Day>, cat: string): set<int>
  {
    set i | 0 <= i < |days| && Radar.HasDone(days[i].tasks, cat)
  }

  /** The sum loop of `calcDayMuscles`: each exercise whose key holds a usable goal adds its clamped ratio. */
  method SumProfileRatios(goals: map<string, Goal>, bestByEx: map<string, real>) returns (sum: real, cnt: nat)
    ensures sum == SumValues(ProfileRatios(goals, bestByEx))
    ensures cnt == |ProfileRatios(goals, bestByEx)|
  {
    ghost var ratios := ProfileRatios(goals, bestByEx);
    sum := 0.0;
    cnt := 0;
    var pending := bestByEx.Keys;
    assert pending * ratios.Keys == ratios.Keys;
    while pending != {}
      invariant pending <= bestByEx.Keys
      invariant sum + SumOn(pending * ratios.Keys, ratios) == SumValues(ratios)
      invariant cnt + |pending * ratios.Keys| == |ratios.Keys|
      decreases pending
    {
      var exKey :| exKey in pending;
      SumOnTake(ratios, pending, exKey);
      if exKey in goals && goals[exKey].weight != 0.0 && goals[exKey].reps != 0.0 {
        var goal := goals[exKey];
        var goal1 := Estimate1RM(goal.weight, goal.reps);
        if goal1 > 0.0 {
          var ratio := Clamp(bestByEx[exKey] / goal1, 0.0, 1.0);
          assert ratio == ratios[exKey];
          sum := sum + ratio;
          cnt := cnt + 1;
        }
      }
      pending := pending - {exKey};
    }
    assert |ratios.Keys| == |ratios|;
  }

  /** `calcDayMuscles(state, tasks)`. */
  method CalcDayMuscles(tasks: seq<Task>, goals: map<string, Goal>) returns (score: real)
    ensures score == DayMuscles(tasks, goals)
  {
    var done := Radar.DoneMuscles(tasks);
    if |done| == 0 {
      return 0.0;
    }
    var bestByEx := FoldBest(map[], done);
    BestFromEmpty(done);
    var sum, cnt := SumProfileRatios(goals, bestByEx);
    if cnt == 0 {
      return 0.2;
    }
    score := sum / (cnt as real);
  }

  /** The body of the day loop of `getProfileScores`: the category flags, the strength score and discipline of one day. */
  method ScoreDay(tasks: seq<Task>, goals: map<string, Goal>) returns (axes: Radar.DayScores)
    ensures axes == DayAxes(tasks, goals)
  {
    var brains, endurance, mental := 0.0, 0.0, 0.0;
    var j := 0;
    while j < |tasks|
      invariant 0 <= j <= |tasks|
      invariant brains == Radar.Indicator(Radar.HasDone(tasks[..j], BRAINS))
      invariant endurance == Radar.Indicator(Radar.HasDone(tasks[..j], ENDURANCE))
      invariant mental == Radar.Indicator(Radar.HasDone(tasks[..j], MENTAL))
    {
      var t := tasks[j];
      assert forall i :: 0 <= i < j ==> tasks[..j + 1][i] == tasks[..j][i];
      assert tasks[..j + 1][j] == t;
      if t.done {
        if t.category == BRAINS {
          brains := 1.0;
        }
        if t.category == ENDURANCE {
          endurance := 1.0;
        }
        if t.category == MENTAL {
          mental := 1.0;
        }
      }
      j := j + 1;
    }
    assert tasks[..j] == tasks;
    var muscles := CalcDayMuscles(tasks, goals);
    DayMusclesBounds(tasks, goals);
    axes := Radar.WithDiscipline(muscles, brains, endurance, mental);
  }

  /** The day loop of `getProfileScores`: the axis-wise sum of the axes of every day. */
  method SumDays(days: seq<Day>, goals: map<string, Goal>) returns (sum: Radar.DayScores)
    ensures sum == SumScores(AxesOf(days, goals))
  {
    ghost var seen: seq<Radar.DayScores> := [];
    sum := Radar.NoScores;
    var n := 0;
    while n < |days|
      invariant 0 <= n <= |days| && |seen| == n
      invariant forall i :: 0 <= i < n ==> seen[i] == DayAxes(days[i].tasks, goals)
      invariant sum == SumScores(seen)
    {
      var axes := ScoreDay(days[n].tasks, goals);
      SumScoresAppend(seen, axes);
      seen := seen + [axes];
      sum := AddScores(sum, axes);
      n := n + 1;
    }
    assert seen == AxesOf(days, goals);
  }

  /** `getProfileScores(state)`. */
  method GetProfileScores(s: Planner.PlannerState) returns (p: ProfileScores)
    ensures p == ProfileOf(s.days, s.goals)
  {
    var days, goals := s.days, s.goals;
    var progres := CalcOverallMusclesProgress(days, goals);
    if |days| == 0 {
      return ProfileScores(progres, 0.0, 0.0, 0.0, 0.0, 0.0);
    }
    var sum := SumDays(days, goals);
    var n := |days| as real;
    p := ProfileScores(progres, sum.muscles / n, sum.brains / n, sum.endurance / n, sum.mental / n, sum.discipline / n);
  }

  /** Every key of a best map is a canonical name: trimming and lowering it changes nothing. */
  lemma BestKeyCanonical(ts: seq<Task>, k: string)
    requires k in Best(ts)
    ensures k != "" && Text.Norm(k) == k
  {
    BestIsAttained(ts, k);
    var i :| 0 <= i < |ts| && Scored(ts[i]) && KeyOf(ts[i]) == k && OneRM(ts[i]) == Best(ts)[k];
    Text.NormIdempotent(ExerciseOf(ts[i]));
  }

  /** On a filled best map, looking goals up by exact key finds what `getMuscleGoal` finds. */
  lemma ProfileRatiosAgree(tasks: seq<Task>, goals: map<string, Goal>)
    ensures ProfileRatios(goals, Best(tasks)) == Radar.DayRatios(goals, Best(tasks))
  {
    var best := Best(tasks);
    forall k | k in best
      ensures (k in goals && Radar.UsableGoal(goals[k])) <==> Radar.UsableGoalOf(goals, k).Some?
      ensures k in goals && Radar.UsableGoal(goals[k]) ==> Radar.UsableGoalOf(goals, k).value == goals[k]
    {
      BestKeyCanonical(tasks, k);
    }
  }

  /**
   * The profile's strength score of a day agrees with the day radar's except
   * when strength tasks are done but none of them is scored: then the profile
   * gives the placeholder 0.2 and the day radar 0.
   */
  lemma DayMusclesVersusDayRadar(tasks: seq<Task>, goals: map<string, Goal>)
    ensures |Best(tasks)| > 0 ==> DayMuscles(tasks, goals) == Radar.MusclesScore(tasks, goals)
    ensures |Radar.DoneMuscles(tasks)| > 0 && |Best(tasks)| == 0 ==>
      DayMuscles(tasks, goals) == 0.2 && Radar.MusclesScore(tasks, goals) == 0.0
    ensures |Radar.DoneMuscles(tasks)| == 0 ==>
      DayMuscles(tasks, goals) == 0.0 && Radar.MusclesScore(tasks, goals) == 0.0
  {
    Radar.DoneBest(tasks);
    Radar.MusclesScoreOfBest(tasks, goals);
    ProfileRatiosAgree(tasks, goals);
    if |Best(tasks)| == 0 {
      assert ProfileRatios(goals, Best(tasks)).Keys == {};
    }
  }

  /** The strength score of a day lies in `[0, 1]`, and it is positive exactly when a strength task is done. */
  lemma DayMusclesBounds(tasks: seq<Task>, goals: map<string, Goal>)
    ensures 0.0 <= DayMuscles(tasks, goals) <= 1.0
    ensures DayMuscles(tasks, goals) > 0.0 <==> |Radar.DoneMuscles(tasks)| > 0
  {
    var done := Radar.DoneMuscles(tasks);
    if |done| > 0 {
      var best := Best(done);
      var ratios := ProfileRatios(goals, best);
      if |ratios| > 0 {
        forall k | k in ratios ensures ratios[k] > 0.0 {
          assert ratios[k] == Ratio(best[k], GoalRM(goals[k]));
        }
        Radar.MeanBounds(ratios);
      }
    }
  }

  /**
   * Done strength tasks none of whose exercises holds a usable goal under its
   * key (including when none was scored) give the placeholder 0.2.
   */
  lemma DayMusclesPlaceholder(tasks: seq<Task>, goals: map<string, Goal>)
    requires |Radar.DoneMuscles(tasks)| > 0
    requires forall k :: k in Best(tasks) ==> !(k in goals && Radar.UsableGoal(goals[k]))
    ensures DayMuscles(tasks, goals) == 0.2
  {
    Radar.DoneBest(tasks);
    assert ProfileRatios(goals, Best(tasks)).Keys == {};
  }

  /**
   * A day's axes lie in `[0, 1]`; its discipline counts the positive axes
   * among strength, brains, endurance and mental in quarters.
   */
  lemma DayAxesCounts(tasks: seq<Task>, goals: map<string, Goal>)
    ensures var a := DayAxes(tasks, goals);
      && 0.0 <= a.muscles <= 1.0 && (a.brains == 0.0 || a.brains == 1.0)
      && (a.endurance == 0.0 || a.endurance == 1.0) && (a.mental == 0.0 || a.mental == 1.0)
      && (a.discipline == 0.0 || a.discipline == 0.25 || a.discipline == 0.5 || a.discipline == 0.75 || a.discipline == 1.0)
      && (a.discipline == 1.0 <==> a.muscles > 0.0 && a.brains > 0.0 && a.endurance > 0.0 && a.mental > 0.0)
      && (a.discipline == 0.0 <==> a.muscles <= 0.0 && a.brains <= 0.0 && a.endurance <= 0.0 && a.mental <= 0.0)
  {
    DayMusclesBounds(tasks, goals);
  }

  /** Every axis of a day lies in `[0, 1]`. */
  lemma DayAxesInUnit(tasks: seq<Task>, goals: map<string, Goal>)
    ensures Bounded(DayAxes(tasks, goals), 1.0)
  {
    DayMusclesBounds(tasks, goals);
  }

  /** A category axis of a day is set exactly when the day has a done task in that category. */
  lemma DayAxisIndicator(tasks: seq<Task>, goals: map<string, Goal>, a: CategoryAxis)
    ensures Field(DayAxes(tasks, goals), a) == Radar.Indicator(Radar.HasDone(tasks, CategoryOf(a)))
  {
  }

  /** Summing one more score adds it axis by axis. */
  lemma SumScoresAppend(xs: seq<Radar.DayScores>, x: Radar.DayScores)
    ensures SumScores(xs + [x]) == AddScores(SumScores(xs), x)
  {
    assert (xs + [x])[..|xs|] == xs;
  }

  /** Summed over `|xs|` scores in `[0, 1]`, each axis lies between 0 and `|xs|`. */
  lemma {:induction false} SumScoresBounds(xs: seq<Radar.DayScores>)
    requires forall i :: 0 <= i < |xs| ==> Bounded(xs[i], 1.0)
    ensures Bounded(SumScores(xs), |xs| as real)
  {
    if xs != [] {
      var init := xs[..|xs| - 1];
      assert forall i :: 0 <= i < |init| ==> init[i] == xs[i];
      SumScoresBounds(init);
    }
  }

  /** A sum of disciplines in `[0, 1]` is 0 exactly when each of them is 0. */
  lemma {:induction false} SumScoresDisciplineZero(xs: seq<Radar.DayScores>)
    requires forall i :: 0 <= i < |xs| ==> Bounded(xs[i], 1.0)
    ensures SumScores(xs).discipline == 0.0 <==> forall i :: 0 <= i < |xs| ==> xs[i].discipline == 0.0
  {
    if xs != [] {
      var init := xs[..|xs| - 1];
      assert forall i :: 0 <= i < |init| ==> init[i] == xs[i];
      SumScoresDisciplineZero(init);
      SumScoresBounds(init);
    }
  }

  /** The set positions of a non-empty sequence: those of its front, and the last one when set. */
  lemma OnesLast(xs: seq<Radar.DayScores>, a: CategoryAxis)
    requires xs != []
    ensures var n := |xs| - 1;
      n !in Ones(xs[..n], a) &&
      Ones(xs, a) == Ones(xs[..n], a) + (if Field(xs[n], a) == 1.0 then {n} else {})
  {
    var n := |xs| - 1;
    assert forall i :: 0 <= i < n ==> xs[..n][i] == xs[i];
  }

  /** Each axis of a sum is the sum of that axis. */
  lemma FieldAdd(s: Radar.DayScores, x: Radar.DayScores, a: CategoryAxis)
    ensures Field(AddScores(s, x), a) == Field(s, a) + Field(x, a)
  {
  }

  /** A sum of 0/1 indicators counts the positions where the indicator is set. */
  lemma {:induction false} SumScoresCounts(xs: seq<Radar.DayScores>, a: CategoryAxis)
    requires forall i :: 0 <= i < |xs| ==> Field(xs[i], a) == 0.0 || Field(xs[i], a) == 1.0
    ensures Field(SumScores(xs), a) == |Ones(xs, a)| as real
  {
    if xs != [] {
      var n := |xs| - 1;
      var init := xs[..n];
      assert forall i :: 0 <= i < n ==> init[i] == xs[i];
      SumScoresCounts(init, a);
      FieldAdd(SumScores(init), xs[n], a);
      OnesLast(xs, a);
    }
  }

  /** The days with a done task in a category are the positions of the set indicator among the day axes. */
  lemma DaysWithAreOnes(days: seq<Day>, goals: map<string, Goal>, a: CategoryAxis)
    ensures DaysWith(days, CategoryOf(a)) == Ones(AxesOf(days, goals), a)
    ensures forall i :: 0 <= i < |days| ==>
      Field(AxesOf(days, goals)[i], a) == 0.0 || Field(AxesOf(days, goals)[i], a) == 1.0
  {
    var xs := AxesOf(days, goals);
    forall i | 0 <= i < |days|
      ensures Field(xs[i], a) == Radar.Indicator(Radar.HasDone(days[i].tasks, CategoryOf(a)))
    {
      DayAxisIndicator(days[i].tasks, goals, a);
    }
  }

  /** With no day every averaged axis is 0, and so is the progress: no goal has been approached. */
  lemma NoDaysProfile(goals: map<string, Goal>)
    ensures ProfileOf([], goals) == ProfileScores(0.0, 0.0, 0.0, 0.0, 0.0, 0.0)
  {
    var ratios := OverallRatios(goals, Best(AllTasks([])));
    if |goals| > 0 && |ratios| > 0 {
      assert AllTasks([]) == [];
      forall k | k in ratios ensures ratios[k] == 0.0 {
        assert ratios[k] == Ratio(BestGet(Best([]), k), GoalRM(goals[k]));
      }
      SumValuesZero(ratios);
    }
  }

  /** The day axes are each in `[0, 1]`. */
  lemma AxesInUnit(days: seq<Day>, goals: map<string, Goal>)
    ensures forall i :: 0 <= i < |days| ==> Bounded(AxesOf(days, goals)[i], 1.0)
  {
    forall i | 0 <= i < |days| ensures Bounded(AxesOf(days, goals)[i], 1.0) {
      DayAxesInUnit(days[i].tasks, goals);
    }
  }

  /** Every axis of the profile radar lies in `[0, 1]`. */
  lemma ProfileInUnit(days: seq<Day>, goals: map<string, Goal>)
    ensures var p := ProfileOf(days, goals);
      && 0.0 <= p.progres <= 1.0 && 0.0 <= p.muscles <= 1.0 && 0.0 <= p.brains <= 1.0
      && 0.0 <= p.endurance <= 1.0 && 0.0 <= p.mental <= 1.0 && 0.0 <= p.discipline <= 1.0
  {
    OverallProgressInUnit(days, goals);
    if |days| > 0 {
      var xs := AxesOf(days, goals);
      var s := SumScores(xs);
      var n := |days| as real;
      AxesInUnit(days, goals);
      SumScoresBounds(xs);
      MeanInUnit(s.muscles, n);
      MeanInUnit(s.brains, n);
      MeanInUnit(s.endurance, n);
      MeanInUnit(s.mental, n);
      MeanInUnit(s.discipline, n);
    }
  }

  /** Brains, endurance and mental are each the fraction of days with a done task in that category. */
  lemma CategoryShares(days: seq<Day>, goals: map<string, Goal>)
    requires |days| > 0
    ensures var p := ProfileOf(days, goals); var n := |days| as real;
      && p.brains == |DaysWith(days, BRAINS)| as real / n
      && p.endurance == |DaysWith(days, ENDURANCE)| as real / n
      && p.mental == |DaysWith(days, MENTAL)| as real / n
  {
    var xs := AxesOf(days, goals);
    DaysWithAreOnes(days, goals, BrainsAxis);
    SumScoresCounts(xs, BrainsAxis);
    DaysWithAreOnes(days, goals, EnduranceAxis);
    SumScoresCounts(xs, EnduranceAxis);
    DaysWithAreOnes(days, goals, MentalAxis);
    SumScoresCounts(xs, MentalAxis);
  }

  /** The profile's discipline is 0 exactly when no day has any positive axis. */
  lemma ProfileDisciplineZero(days: seq<Day>, goals: map<string, Goal>)
    ensures ProfileOf(days, goals).discipline == 0.0 <==>
      forall i :: 0 <= i < |days| ==> DayAxes(days[i].tasks, goals).discipline == 0.0
  {
    if |days| > 0 {
      var xs := AxesOf(days, goals);
      AxesInUnit(days, goals);
      SumScoresDisciplineZero(xs);
      var s := SumScores(xs);
      var n := |days| as real;
      SumScoresBounds(xs);
      MeanInUnit(s.discipline, n);
      assert ProfileOf(days, goals).discipline == s.discipline / n;
      forall i | 0 <= i < |days| ensures xs[i].discipline == DayAxes(days[i].tasks, goals).discipline {
      }
    }
  }
}
