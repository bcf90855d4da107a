# Planner core: state operations, streak and radar scores

This project models the core of a browser-based daily planner and proves properties of it in Dafny. The planner records days, and each day holds tasks. A task belongs to a category: strength, brains, endurance or mental. Every task record carries sets, repetitions and a weight, which are 0 where the task has none, and a strength task may also name its exercise. Alongside the days it keeps strength goals per exercise. It derives three kinds of values from that record:

- a streak of consecutive completed calendar days;
- a per-day radar of five scores;
- a profile radar that averages the per-day scores over all days and adds the overall progress towards the goals.

The model covers three files:

- `js/state/state.js`: the root record and its in-place operations on days, tasks and goals, plus the derived values. These are the Epley estimate of the one-repetition maximum, day completion, the streak, the exercise history and the overall goal progress.
- `js/ui/radar.js`: the scores of the active day (`getDayScores`, `calcMusclesScore`).
- `js/ui/profileRadar.js`: the profile scores (`getProfileScores`, `calcDayMuscles`).

Modules, in dependency order:

- `Wrappers`: `Option`.
- `Numeric`: `clamp`, and sums and means of the values of a map.
- `Text`: `String(s).trim().toLowerCase()`, the canonical exercise key.
- `Sorting`: the stable `Array.prototype.sort` by an integer key.
- `Model`: the records, `estimate1RM`, `isDayCompleted`, the active-day lookup.
- `Streak`: `computeStreak`.
- `Goals`: the goal map, the best estimate per exercise, `calcOverallMusclesProgress`.
- `History`: `getMuscleHistory`.
- `Planner`: the root record as a class whose methods update it in place.
- `Radar`: the day radar.
- `ProfileRadar`: the profile radar.

Each loop of the source is a method with loop invariants. Its `ensures` ties the result to a specification function, and lemmas prove the promised properties about that function. Arithmetic is on exact reals, so the estimate `w * (1 + r / 30)`, the clamped ratios and the means are exact.

The radar scores work as follows:

- Each non-strength axis of a day is a 0/1 indicator: it is 1 when some task of that category is done.
- Discipline counts four axes (strength, brains, endurance, mental) and scores a day in quarters.
- The profile's strength score of a day differs from the day radar's in one case. When done strength tasks exist but none yields a named exercise with a positive estimate, the profile gives 0.2 and the day radar gives 0. `ProfileRadar.DayMusclesVersusDayRadar` proves this.

## Model

| member | source | states |
|---|---|---|
| Numeric.Clamp | js/ui/radar.js:194-196 | the result lies in `[lo, hi]`; it is `v` inside the range, `hi` above it and `lo` below it |
| Text.TrimSpec | js/state/state.js:146-148 | `trim` gives the slice of the name left after removing white space at both ends, and neither end of it is white space |
| Text.LowerSpec | js/state/state.js:146-148 | lower-casing keeps the length and maps each character on its own |
| Text.NormIdempotent | js/state/state.js:211-213 | canonicalising a canonical key gives it back, so a stored key is found again under itself |
| Text.NormEmpty | js/state/state.js:124-125 | the key is empty exactly when the name is white space only, the case every goal operation rejects |
| Text.BenchPressKey | js/state/state.js:146-148 | `" Bench Press "` and `"bench press"` have the same key `"bench press"` |
| Sorting.SortBy | js/state/state.js:233 | the sort returns a permutation of its input (same length and multiset) in ascending key order |
| Sorting.SortBySortedIsIdentity | js/state/state.js:233 | sorting days already in creation order leaves them as they are |
| Sorting.SortByStable | js/state/state.js:187 | the sort is stable: for every key, the elements with that key keep their input order |
| Sorting.WithKeyInsert | js/state/state.js:233 | inserting an element puts it after every element with its key |
| Sorting.SortByMembers | js/state/state.js:187 | sorting keeps exactly the elements it is given |
| Model.Estimate1RM | js/state/state.js:194-199 | 0 when weight or reps is not positive; otherwise greater than the weight; positive exactly when both inputs are positive |
| Model.Estimate1RMMonotone | js/state/state.js:194-199 | more weight or more repetitions never lowers the estimate |
| Model.Estimate1RMScales | js/state/state.js:198 | at equal repetitions the estimates are in the ratio of the weights |
| Model.AllDone | js/state/state.js:266 | `every(t => t.done)` holds exactly when each task is done |
| Model.IsDayCompleted | js/state/state.js:263-267 | false for a day without tasks; otherwise true exactly when every task is done |
| Model.DayIndexOf | js/state/state.js:42-43 | `findIndex`: the index of the first day with the id, and `None` exactly when no day has it |
| Model.ActiveDayIndex | js/state/state.js:59-62 | `getActiveDay`: none exactly when there are no days; the first day with the active id if there is one, else the first day |
| Model.AllTasks | js/state/state.js:295-298 | the tasks visited by the nested loops are exactly the tasks of all days |
| Streak.ComputeStreak | js/state/state.js:228-261 | `computeStreak` returns the walk over the days sorted by creation time |
| Streak.WalkBack | js/state/state.js:235-258 | the backward loop with its two `break`s computes the walk from the newest day |
| Streak.RunIsLongest | js/state/state.js:238-258 | the counted days are completed and one calendar day apart, and the next older day does not continue the run |
| Streak.RunIsMaximal | js/state/state.js:238-258 | no run of completed consecutive calendar days from the newest day is longer than the one counted |
| Streak.StreakAtMostDays | js/state/state.js:228-261 | the streak never exceeds the number of days |
| Streak.LatestIsNewest | js/state/state.js:233 | after sorting, the last day is a day with the greatest creation time |
| Streak.StreakZeroCases | js/state/state.js:229-243 | 0 with no days or when the newest day is not completed; a positive streak means the newest day is completed |
| Streak.SameCalendarDayStops | js/state/state.js:252-254 | two completed newest days in one calendar day stop the streak at 1 |
| Streak.DayBucketNext | js/state/state.js:269-273 | a timestamp one day-length later falls on the next calendar day |
| Streak.ConsecutiveDaysAllCount | js/state/state.js:238-258 | completed days on consecutive calendar days all count |
| Streak.SortedDaysStay | js/state/state.js:233 | days already in creation order are not reordered |
| Streak.DailyDaysAllCount | js/state/state.js:228-261 | completed days created exactly one day apart give a streak equal to their number |
| Streak.ThreeConsecutiveDays | js/state/state.js:228-261 | three completed days one day apart give a streak of 3 |
| Streak.UndoneMiddleDay | js/state/state.js:242-243 | an undone day stops the walk before any older day is counted |
| Streak.GapBreaksStreak | js/state/state.js:252-254 | a missing calendar day between two completed days stops the streak at 1 |
| Goals.GetMuscleGoal | js/state/state.js:155-159 | the goal stored under the canonical key; `None` for a blank name or a missing key |
| Goals.SetGoal | js/state/state.js:123-136 | a blank name changes nothing; otherwise the canonical key maps to the new goal, and every other key keeps its goal |
| Goals.RemoveGoal | js/state/state.js:138-144 | a blank name changes nothing; otherwise exactly the canonical key is deleted and every other goal is kept |
| Goals.SetThenGet | js/state/state.js:123-159 | a goal set under one spelling is read back under any spelling with the same key |
| Goals.SetLeavesOthers | js/state/state.js:130 | setting a goal leaves every other key's goal as it was |
| Goals.RemoveThenGet | js/state/state.js:138-159 | after removal the goal is gone and every other key keeps its goal |
| Goals.GetCanonical | js/state/state.js:155-159 | looking up the canonical key finds what looking up the original name finds |
| Goals.BenchPressRoundTrip | js/state/state.js:123-159 | after `setMuscleGoal(" Bench Press ", 100, 5)`, `getMuscleGoal("bench press")` returns `{100, 5}` |
| Goals.Best | js/state/state.js:296-309 | every key of the best map is a non-empty name with a positive estimate |
| Goals.BestFromAppend | js/state/state.js:296-309 | visiting the tasks of one day after those of earlier days is one pass over all of them |
| Goals.BestFromEmpty | js/state/state.js:293-309 | the loop started from an empty map computes the best map |
| Goals.BestIsUpperBound | js/state/state.js:305-307 | every scored task's estimate is at most the best stored for its exercise |
| Goals.BestIsAttained | js/state/state.js:305-307 | each stored best is the estimate of a done, named strength task of that exercise |
| Goals.BestHasKey | js/state/state.js:299-307 | an exercise has a best exactly when some done strength task under that key has a positive estimate |
| Goals.Ratio | js/state/state.js:319 | the attainment lies in `[0, 1]`, saturates at 1 when the goal is reached, and is positive exactly for a positive best |
| Goals.OverallRatios | js/state/state.js:314-322 | exactly the goals with a positive goal estimate are counted, each with an attainment in `[0, 1]` |
| Goals.OverallProgressInUnit | js/state/state.js:287-325 | the overall progress lies in `[0, 1]` and is 0 with no goals |
| Goals.AllGoalsReached | js/state/state.js:311-324 | when every usable goal has been reached on some day the overall progress is 1 |
| Goals.FoldBest | js/state/state.js:298-308 | the inner loop keeps the larger estimate per canonical key over done, named strength tasks |
| Goals.BestAcrossDays | js/state/state.js:293-309 | the nested loops compute the best map over the tasks of all days |
| Goals.SumGoalRatios | js/state/state.js:311-322 | the sum loop adds the attainment of exactly the usable goals and counts them |
| Goals.CalcOverallMusclesProgress | js/state/state.js:287-325 | `calcOverallMusclesProgress` returns the mean attainment (0 with no goals or no usable goal) |
| History.GetMuscleHistory | js/state/state.js:163-189 | the loops and the sort compute the history of the canonical query |
| History.DayItemsMembers | js/state/state.js:172-184 | a day contributes a row exactly for each of its strength tasks under the key |
| History.CollectMembers | js/state/state.js:170-185 | the collected rows are exactly the rows of the matching strength tasks of all days |
| History.BlankHasNoHistory | js/state/state.js:164-165 | a blank query has an empty history |
| History.HistorySpec | js/state/state.js:163-189 | rows for exactly the strength tasks whose key equals the canonical query, dated by their day, in ascending date order, one row per matching task |
| History.HistoryKeepsLoopOrder | js/state/state.js:170-187 | rows with the same date keep the order in which the loops push them |
| History.DayItemsCount | js/state/state.js:172-184 | a day contributes one row per matching task |
| History.CollectCount | js/state/state.js:170-185 | the loops collect one row per matching task of any day |
| History.HistoryIgnoresSpelling | js/state/state.js:164 | two queries with the same key have the same history |
| Planner.JsRem | js/state/state.js:28 | JavaScript `%` agrees with the mathematical remainder on non-negative operands |
| Planner.NextWeekday | js/state/state.js:27-28 | the first day gets weekday 0, and a new day follows the last day's weekday modulo 7 |
| Planner.NewTaskSpec | js/state/state.js:77-94 | a new task is undone; a strength task is named by its trimmed exercise or "Exercise", and its title equals that name; a strength task keeps the sets, reps and weight it is given; any other task gets its trimmed title or "Problem", no exercise, and zero numbers |
| Planner.NewTaskNameTrimmed | js/state/state.js:86-93 | a new task's name is never blank and never starts or ends with white space |
| Planner.FirstTaskIndex | js/state/state.js:105-106 | `find` by id: the first index carrying the id, and `None` exactly when no task has it |
| Planner.ToggleFirst | js/state/state.js:105-108 | only the first task with the id has its `done` flipped; an unknown id changes nothing |
| Planner.ToggleTwice | js/state/state.js:100-110 | toggling the same id twice restores the tasks |
| Planner.RemoveByIdMembers | js/state/state.js:117 | the filter keeps exactly the tasks with another id |
| Planner.RemoveByIdAppend | js/state/state.js:117 | filtering preserves the order of the kept tasks |
| Planner.RemoveAbsent | js/state/state.js:117 | deleting an id no task has changes nothing |
| Planner.RemoveTwice | js/state/state.js:117 | deleting is idempotent |
| Planner.MoveTarget | js/state/state.js:41-50 | a move happens exactly when the active id is found and the target index is in range |
| Planner.MoveBack | js/state/state.js:41-50 | with distinct day ids, moving by `delta` and then by `-delta` returns to the starting day |
| Planner.AddedDayEndsStreak | js/state/state.js:26-34 | a new empty day that is the newest makes the streak 0 |
| Planner.PlannerState.Initial | js/state/state.js:6-20 | the default state: one empty day with weekday 0, made active, streak 0, no goals, and the cached streak is fresh |
| Planner.PlannerState.Restore | js/state/state.js:20 | a falsy active id falls back to the first day's id, or none without days |
| Planner.PlannerState.ActiveDay | js/state/state.js:59-62 | the active day is a day of the state; it carries the active id when one matches, else it is the first day |
| Planner.PlannerState.Save | js/state/state.js:223-225 | saving changes only the cached streak, which then equals `computeStreak` of the days |
| Planner.PlannerState.AddDay | js/state/state.js:26-34 | appends one empty day with the next weekday, makes it active, and the streak is fresh |
| Planner.PlannerState.SetActiveDay | js/state/state.js:36-39 | sets the active id to any id, and the streak is fresh |
| Planner.PlannerState.MoveActiveDay | js/state/state.js:41-50 | an unknown active id or an out-of-range target changes nothing; otherwise the target day becomes active |
| Planner.PlannerState.ResetActiveDay | js/state/state.js:52-57 | empties the task list of exactly the active day; nothing happens without days |
| Planner.PlannerState.AddTask | js/state/state.js:71-98 | appends exactly the new task to the active day's tasks and changes no other day; nothing happens without days |
| Planner.PlannerState.ToggleTask | js/state/state.js:100-110 | flips the first task with the id in the active day; an unknown id or no day changes nothing |
| Planner.PlannerState.DeleteTask | js/state/state.js:112-119 | removes every task with the id from the active day, keeping the others in order |
| Planner.PlannerState.SetMuscleGoal | js/state/state.js:123-136 | the goal map becomes `SetGoal` of the old one; a blank name is a no-op |
| Planner.PlannerState.RemoveMuscleGoal | js/state/state.js:138-144 | the goal map becomes `RemoveGoal` of the old one; a blank name is a no-op |
| Radar.DoneMusclesEmpty | js/ui/radar.js:135-136 | the done-strength filter is empty exactly when no task is a done strength task |
| Radar.BestOfDoneMuscles | js/ui/radar.js:135-149 | filtering before the best loop changes nothing, because the loop skips the same tasks |
| Radar.UsableGoalIff | js/ui/radar.js:159-162 | a goal is used exactly when its weight and reps are positive |
| Radar.UsableGoalOf | js/ui/radar.js:158-162 | the goal found through `getMuscleGoal` is returned only when it is usable |
| Radar.DayRatios | js/ui/radar.js:157-169 | every counted attainment lies in `[0, 1]` |
| Radar.DayRatiosAt | js/ui/radar.js:157-169 | an exercise is counted exactly when it has a usable goal, with its clamped ratio |
| Radar.MeanBounds | js/ui/radar.js:174 | a mean of attainments lies in `[0, 1]`, and is positive when they all are |
| Radar.DoneBest | js/ui/radar.js:135-152 | the best map of the done list is that of the day, and it is empty when nothing is done |
| Radar.MusclesScoreOfBest | js/ui/radar.js:151-175 | an empty best map scores 0; otherwise the score is 0.2 or the mean attainment |
| Radar.SumDayRatios | js/ui/radar.js:154-169 | the sum loop adds the clamped ratio of exactly the exercises with a usable goal and counts them |
| Radar.CalcMusclesScore | js/ui/radar.js:134-175 | `calcMusclesScore` returns the strength score of the day |
| Radar.DoneCategories | js/ui/radar.js:112-117 | each of brains, endurance and mental is 1 exactly when some done task has that category |
| Radar.GetDayScores | js/ui/radar.js:104-132 | `getDayScores` returns the scores of the active day |
| Radar.NoDayNoScores | js/ui/radar.js:104-108 | with no day all five axes are 0 |
| Radar.MusclesScoreInUnit | js/ui/radar.js:134-175 | the strength score lies in `[0, 1]` |
| Radar.DayRatiosPositive | js/ui/radar.js:165 | a positive best gives a positive attainment |
| Radar.MusclesScorePositive | js/ui/radar.js:134-175 | the strength score is positive exactly when `bestByExercise` is not empty |
| Radar.BestNonEmpty | js/ui/radar.js:139-152 | `bestByExercise` is non-empty exactly when some done strength task has a non-empty name and a positive estimate |
| Radar.NoUsableGoalPlaceholder | js/ui/radar.js:171-172 | exercises without any usable goal give the placeholder 0.2 |
| Radar.AllGoalsReachedToday | js/ui/radar.js:157-174 | when every exercise of the day reaches its usable goal the score saturates at 1 |
| Radar.AllReached | js/ui/radar.js:157-174 | on a filled best map, reaching every goal gives a mean of exactly 1 |
| Radar.ScoresInUnit | js/ui/radar.js:104-132 | every axis of the day radar lies in `[0, 1]` |
| Radar.DisciplineCounts | js/ui/radar.js:122-129 | discipline is a multiple of 1/4; it is 1 exactly when all four axes are positive and 0 exactly when none is |
| ProfileRadar.ProfileRatios | js/ui/profileRadar.js:165-175 | every attainment counted by exact key lies in `[0, 1]` |
| ProfileRadar.SumProfileRatios | js/ui/profileRadar.js:163-174 | the sum loop adds the clamped ratio of exactly the exercises whose key holds a usable goal, and counts them |
| ProfileRadar.CalcDayMuscles | js/ui/profileRadar.js:147-178 | `calcDayMuscles` returns the profile's strength score of the day |
| ProfileRadar.ScoreDay | js/ui/profileRadar.js:108-127 | one pass of the day loop gives the category flags, the strength score and the discipline of the day |
| ProfileRadar.SumDays | js/ui/profileRadar.js:104-135 | the day loop sums the axes of every day |
| ProfileRadar.GetProfileScores | js/ui/profileRadar.js:90-145 | `getProfileScores` returns the overall progress and the per-axis means over the days |
| ProfileRadar.BestKeyCanonical | js/ui/profileRadar.js:155 | every key of the best map is already canonical |
| ProfileRadar.ProfileRatiosAgree | js/ui/profileRadar.js:165-167 | on a best map, the exact-key lookup finds the same goals as `getMuscleGoal` |
| ProfileRadar.DayMusclesVersusDayRadar | js/ui/profileRadar.js:147-178 | the two strength scores agree except when done strength tasks yield no scored exercise: then the profile gives 0.2 and the day radar 0 |
| ProfileRadar.DayMusclesBounds | js/ui/profileRadar.js:147-178 | the strength score lies in `[0, 1]` and is positive exactly when a strength task is done |
| ProfileRadar.DayMusclesPlaceholder | js/ui/profileRadar.js:176 | done strength tasks without any usable goal, including when none was scored, give 0.2 |
| ProfileRadar.DayAxesCounts | js/ui/profileRadar.js:110-127 | a day's flags are 0 or 1; its discipline is a multiple of 1/4, 1 exactly when all four axes are positive and 0 exactly when none is |
| ProfileRadar.DayAxesInUnit | js/ui/profileRadar.js:110-127 | every axis of a day lies in `[0, 1]` |
| ProfileRadar.DayAxisIndicator | js/ui/profileRadar.js:112-117 | a category flag of a day is set exactly when the day has a done task in that category |
| ProfileRadar.SumScoresAppend | js/ui/profileRadar.js:129-133 | one more day adds its axes to the sums |
| ProfileRadar.SumScoresBounds | js/ui/profileRadar.js:129-135 | over `n` days each sum lies between 0 and `n` |
| ProfileRadar.SumScoresDisciplineZero | js/ui/profileRadar.js:133 | the discipline sum is 0 exactly when every day's discipline is 0 |
| ProfileRadar.SumScoresCounts | js/ui/profileRadar.js:130-132 | the sum of a category flag is the number of days with the flag set |
| ProfileRadar.DaysWithAreOnes | js/ui/profileRadar.js:110-117 | the days with a done task in a category are the days whose flag is set |
| ProfileRadar.NoDaysProfile | js/ui/profileRadar.js:99-102 | with no day every averaged axis is 0, and the progress is 0 too |
| ProfileRadar.AxesInUnit | js/ui/profileRadar.js:107-135 | the axes of each day lie in `[0, 1]` |
| ProfileRadar.ProfileInUnit | js/ui/profileRadar.js:137-144 | every axis of the profile, progress included, lies in `[0, 1]` |
| ProfileRadar.CategoryShares | js/ui/profileRadar.js:137-142 | brains, endurance and mental are each the fraction of days with a done task in that category |
| ProfileRadar.ProfileDisciplineZero | js/ui/profileRadar.js:121-143 | the discipline axis is 0 exactly when no day has a positive axis |

## Left out

- Persistence is not modelled. `loadState` and the storage half of `saveState` are left out, and `saveState` is modelled as refreshing the cached streak. `Planner.PlannerState.Restore` takes an already-parsed stored state.
- `Date.now()`, `uid()` and `Math.random` become parameters. Operations take the new id and the current time as arguments.
- Calendar days are read in UTC (`DayBucket(ts) = ts / 86400000`) instead of the local time zone of `startOfDay`. Time-zone offsets and daylight-saving days are not modelled. With whole-day buckets, `Math.round` of the difference is the difference itself.
- Missing `createdAt` values are not modelled. Every day has one, so the `?? 0` and `?? Date.now()` fallbacks of `computeStreak` and the history's date fallback are not modelled.
- `Number(...)` coercion, `NaN` and `|| 0` are not modelled. Numbers are exact reals and have already been coerced, so `Number(goalWeight) || 0` stores the value as given. Floating-point rounding and the order in which a JavaScript `Map` or object is iterated do not matter for exact sums, so both are left out.
- `toLowerCase` is modelled on ASCII letters only.
- `Array.isArray` guards are not modelled. Fields that are not arrays or objects cannot occur, because `days`, `tasks` and `goals` are always a sequence or a map.
- Aliasing of day and task objects is not modelled. Days and tasks are values, so an in-place update of a task or day becomes a reassignment of the state's `days` sequence.
- `getMuscleGoals` is the `goals` field of `Planner.PlannerState`, read directly.
- A goal key that clashes with an inherited object property (such as `constructor`) is not modelled. The goal map is a plain map.
- `setTaskFilter`, `setProfileField`, `setAvatar` and the profile and filter fields are not modelled. They are plain field writes and none of the modelled values read them.
- The canvas drawing (`drawRadar`, `drawProfileRadar`, `polygon`, `angleFor`), the user interface and event wiring, localisation, start-up code and the older default-state table are not modelled.
- Stored tasks always have a `title` string. An absent `exercise` is `None`, and absent `sets`, `reps` or `weight` are 0, as `?? 0` makes them.
- Planner.JsRem: only non-negative operands are tied to the mathematical remainder. For a negative dividend the contract states only the sign and the bound, because a last weekday below -1 does not occur in a stored state.
- The per-day discipline in `ProfileRadar.DayAxes` counts the strength axis when a strength task is done. The source tests `muscles > 0`. `ProfileRadar.DayMusclesBounds` proves the two tests equal, and `ProfileRadar.ScoreDay` computes discipline the way the source does.
