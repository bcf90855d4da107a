/**
 * `computeStreak`: sort a copy of the days by creation time, then walk from
 * the most recent day backwards, counting completed days whose calendar days
 * follow one another without a gap, and stop at the first day that breaks
 * the run.
 */
module Streak {
  import opened Wrappers
  import opened Model
  import opened Sorting

  const MS_PER_DAY: int := 86400000

  /**
   * The calendar day a timestamp falls on. `startOfDay` works in the local
   * time zone; here every timestamp is read in one fixed zone, UTC.
   */
  function DayBucket(ts: int): int
  {
    ts / MS_PER_DAY
  }

  function CreatedAt(d: Day): int { d.createdAt }

  /** `days.sort((a, b) => a.createdAt - b.createdAt)`. */
  function SortByCreated(days: seq<Day>): seq<Day>
  {
    SortBy(days, CreatedAt)
  }

  /**
   * The walk over `s` from its last element backwards. `prev` is the
   * calendar day of the last day accepted, `None` before the first one.
   */
  function Run(s: seq<Day>, prev: Option<int>): nat
  {
    if s == [] then 0
    else
      var d := s[|s| - 1];
      if !IsDayCompleted(d) then 0
      else if prev.Some? && prev.value - DayBucket(d.createdAt) != 1 then 0
      else 1 + Run(s[..|s| - 1], Some(DayBucket(d.createdAt)))
  }

  /** The streak of a list of days, in any order. */
  function StreakOf(days: seq<Day>): nat
  {
    Run(SortByCreated(days), None)
  }

  /** `computeStreak(state)`, on the state's days: sort a copy, then walk it backwards. */
  method ComputeStreak(days: seq<Day>) returns (streak: nat)
    ensures streak == StreakOf(days)
  {
    if |days| == 0 {
      return 0;
    }
    var sorted := SortByCreated(days);
    streak := WalkBack(sorted);
  }

  /** The loop of `computeStreak`, over the days in creation order. */
  method WalkBack(sorted: seq<Day>) returns (streak: nat)
    ensures streak == Run(sorted, None)
  {
    streak := 0;
    var prevDayStart: Option<int> := None;
    var i := |sorted|;
    assert sorted[..i] == sorted;
    while i > 0
      invariant 0 <= i <= |sorted|
      invariant streak + Run(sorted[..i], prevDayStart) == Run(sorted, None)
    {
      var d := sorted[i - 1];
      var start := DayBucket(d.createdAt);
      assert sorted[..i][..i - 1] == sorted[..i - 1];
      if !IsDayCompleted(d) {
        break;
      }
      if prevDayStart.None? {
        streak := streak + 1;
        prevDayStart := Some(start);
        i := i - 1;
        continue;
      }
      var diffDays := prevDayStart.value - start;
      if diffDays != 1 {
        break;
      }
      streak := streak + 1;
      prevDayStart := Some(start);
      i := i - 1;
    }
  }

  /**
   * The `j`-th most recent day of `s` continues a run that began at calendar
   * day `prev`: it is completed, and it lies exactly one calendar day before
   * the day accepted just before it.
   */
  ghost predicate Continues(s: seq<Day>, prev: Option<int>, j: nat)
    requires j < |s|
  {
    var d := s[|s| - 1 - j];
    && IsDayCompleted(d)
    && (if j == 0 then prev.None? || prev.value - DayBucket(d.createdAt) == 1
        else DayBucket(s[|s| - j].createdAt) - DayBucket(d.createdAt) == 1)
  }

  /** The `k` most recent days of `s` form a run. */
  ghost predicate IsRun(s: seq<Day>, prev: Option<int>, k: nat)
  {
    k <= |s| && forall j :: 0 <= j < k ==> Continues(s, prev, j)
  }

  /** Dropping the newest day of a run shifts the run by one. */
  lemma ContinuesShift(s: seq<Day>, prev: Option<int>, j: nat)
    requires |s| > 0 && j + 1 < |s|
    ensures Continues(s[..|s| - 1], Some(DayBucket(s[|s| - 1].createdAt)), j) <==> Continues(s, prev, j + 1)
  {
    var s' := s[..|s| - 1];
    assert s'[|s'| - 1 - j] == s[|s| - 1 - (j + 1)];
    if j > 0 {
      assert s'[|s'| - j] == s[|s| - (j + 1)];
    }
  }

  /**
   * The walk counts exactly the longest run: its days form a run, and the
   * next older day, if there is one, does not continue it.
   */
  lemma {:induction false} RunIsLongest(s: seq<Day>, prev: Option<int>)
    ensures IsRun(s, prev, Run(s, prev))
    ensures Run(s, prev) < |s| ==> !Continues(s, prev, Run(s, prev))
  {
    if s != [] && Continues(s, prev, 0) {
      var s', p' := s[..|s| - 1], Some(DayBucket(s[|s| - 1].createdAt));
      RunIsLongest(s', p');
      var k := Run(s', p');
      assert Run(s, prev) == k + 1;
      forall j | 0 <= j < k + 1 ensures Continues(s, prev, j) {
        if j > 0 {
          ContinuesShift(s, prev, j - 1);
        }
      }
      if k + 1 < |s| {
        ContinuesShift(s, prev, k);
      }
    }
  }

  /** No run is longer than the one the walk counts. */
  lemma RunIsMaximal(s: seq<Day>, prev: Option<int>, k: nat)
    requires IsRun(s, prev, k)
    ensures k <= Run(s, prev)
  {
    RunIsLongest(s, prev);
  }

  /** The streak never exceeds the number of days. */
  lemma StreakAtMostDays(days: seq<Day>)
    ensures StreakOf(days) <= |days|
  {
    RunIsLongest(SortByCreated(days), None);
  }

  /** The newest day after sorting is a day with the greatest creation time. */
  lemma LatestIsNewest(days: seq<Day>)
    requires |days| > 0
    ensures var s := SortByCreated(days);
      s[|s| - 1] in days && forall d :: d in days ==> d.createdAt <= s[|s| - 1].createdAt
  {
    var s := SortByCreated(days);
    assert s[|s| - 1] in multiset(s);
    forall d | d in days ensures d.createdAt <= s[|s| - 1].createdAt {
      assert d in multiset(days);
      var i :| 0 <= i < |s| && s[i] == d;
    }
  }

  /**
   * No days, or a newest day that is not completed, give a streak of 0; a
   * positive streak means the newest day is completed.
   */
  lemma StreakZeroCases(days: seq<Day>)
    ensures |days| == 0 ==> StreakOf(days) == 0
    ensures |days| > 0 && !IsDayCompleted(SortByCreated(days)[|days| - 1]) ==> StreakOf(days) == 0
    ensures StreakOf(days) > 0 ==> |days| > 0 && IsDayCompleted(SortByCreated(days)[|days| - 1])
  {
  }

  /** Two completed newest days on the same calendar day stop the run after one. */
  lemma SameCalendarDayStops(days: seq<Day>)
    requires |days| >= 2
    requires var s := SortByCreated(days);
      IsDayCompleted(s[|s| - 1]) && IsDayCompleted(s[|s| - 2])
      && DayBucket(s[|s| - 1].createdAt) == DayBucket(s[|s| - 2].createdAt)
    ensures StreakOf(days) == 1
  {
    var s := SortByCreated(days);
    RunIsLongest(s, None);
    var k := StreakOf(days);
    assert Continues(s, None, 0);
    assert !Continues(s, None, 1);
  }

  /** The calendar day one day-length later is the next calendar day. */
  lemma DayBucketNext(ts: int)
    ensures DayBucket(ts + MS_PER_DAY) == DayBucket(ts) + 1
  {
  }

  /** Completed days on consecutive calendar days, newest last, all count. */
  lemma ConsecutiveDaysAllCount(s: seq<Day>)
    requires forall i :: 0 <= i < |s| ==> IsDayCompleted(s[i])
    requires forall i :: 0 < i < |s| ==> DayBucket(s[i].createdAt) - DayBucket(s[i - 1].createdAt) == 1
    ensures Run(s, None) == |s|
  {
    forall j | 0 <= j < |s| ensures Continues(s, None, j) {
      if j > 0 {
        assert s[|s| - j] == s[(|s| - 1 - j) + 1];
      }
    }
    RunIsMaximal(s, None, |s|);
    RunIsLongest(s, None);
  }

  /** Days already in creation order stay as they are when sorted. */
  lemma SortedDaysStay(s: seq<Day>)
    requires forall i :: 0 < i < |s| ==> s[i - 1].createdAt <= s[i].createdAt
    ensures SortByCreated(s) == s
  {
    assert SortedBy(s, CreatedAt) by {
      forall i, j | 0 <= i < j < |s| ensures s[i].createdAt <= s[j].createdAt {
        SortedStep(s, i, j);
      }
    }
    SortBySortedIsIdentity(s, CreatedAt);
  }

  lemma {:induction false} SortedStep(s: seq<Day>, i: int, j: int)
    requires forall k :: 0 < k < |s| ==> s[k - 1].createdAt <= s[k].createdAt
    requires 0 <= i <= j < |s|
    ensures s[i].createdAt <= s[j].createdAt
    decreases j - i
  {
    if i < j {
      SortedStep(s, i, j - 1);
    }
  }

  /** Completed days created exactly one day apart, oldest first, all count. */
  lemma DailyDaysAllCount(s: seq<Day>)
    requires forall i :: 0 <= i < |s| ==> IsDayCompleted(s[i])
    requires forall i :: 0 < i < |s| ==> s[i].createdAt == s[i - 1].createdAt + MS_PER_DAY
    ensures StreakOf(s) == |s|
  {
    SortedDaysStay(s);
    forall i | 0 < i < |s| ensures DayBucket(s[i].createdAt) - DayBucket(s[i - 1].createdAt) == 1 {
      DayBucketNext(s[i - 1].createdAt);
    }
    ConsecutiveDaysAllCount(s);
  }

  /** Three completed days on consecutive calendar days give a streak of 3. */
  lemma ThreeConsecutiveDays(a: Day, b: Day, c: Day)
    requires IsDayCompleted(a) && IsDayCompleted(b) && IsDayCompleted(c)
    requires b.createdAt == a.createdAt + MS_PER_DAY && c.createdAt == b.createdAt + MS_PER_DAY
    ensures StreakOf([a, b, c]) == 3
  {
    var s := [a, b, c];
    forall i | 0 <= i < |s| ensures IsDayCompleted(s[i]) {
      if i == 0 {
        assert s[i] == a;
      } else if i == 1 {
        assert s[i] == b;
      } else {
        assert s[i] == c;
      }
    }
    DailyDaysAllCount(s);
  }

  /** An undone middle day stops the walk before the oldest day is reached. */
  lemma UndoneMiddleDay(a: Day, b: Day, c: Day)
    requires IsDayCompleted(a) && !IsDayCompleted(b) && IsDayCompleted(c)
    requires a.createdAt <= b.createdAt <= c.createdAt
    ensures StreakOf([a, b, c]) == 1
  {
    var s := [a, b, c];
    SortedDaysStay(s);
    assert Continues(s, None, 0) && !Continues(s, None, 1);
    RunIsMaximal(s, None, 1);
    RunIsLongest(s, None);
  }

  /** A calendar day without a day record breaks the run. */
  lemma GapBreaksStreak(a: Day, b: Day)
    requires IsDayCompleted(a) && IsDayCompleted(b)
    requires b.createdAt == a.createdAt + 2 * MS_PER_DAY
    ensures StreakOf([a, b]) == 1
  {
    var s := [a, b];
    SortedDaysStay(s);
    DayBucketNext(a.createdAt);
    DayBucketNext(a.createdAt + MS_PER_DAY);
    assert Continues(s, None, 0) && !Continues(s, None, 1);
    RunIsMaximal(s, None, 1);
    RunIsLongest(s, None);
  }
}
