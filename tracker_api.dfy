/** The SQLite-backed API of the second backend: weight logging with one row
    per (user, date), goals created with defaults on first read, an
    append-only water log summed per day, and the statistics route with its
    logging streak. Dates are day numbers; `DATE(timestamp)` of a meal is its
    `day`. Row ids come from per-table AUTOINCREMENT counters. */
module TrackerApi {
  import opened Common
  import opened Sql

  // ------------------------------------------------------------- streak

  /** `k` is the length of the unbroken run `today, today - 1, …` at the head
      of `dates`, stopping at the first date that breaks it. */
  predicate IsStreak(dates: seq<int>, today: int, k: int)
  {
    && 0 <= k <= |dates|
    && (forall j :: 0 <= j < k ==> dates[j] == today - j)
    && (k < |dates| ==> dates[k] != today - k)
  }

  /** The streak loop: walk the distinct meal dates, newest first, and count
      while each date is exactly `streak` days before today. */
  method ComputeStreak(dates: seq<int>, today: int) returns (streak: nat)
    ensures IsStreak(dates, today, streak)
  {
    streak := 0;
    var i := 0;
    while i < |dates|
      invariant 0 <= i <= |dates| && streak == i
      invariant forall j :: 0 <= j < i ==> dates[j] == today - j
    {
      var daysDiff := today - dates[i];
      if daysDiff == streak {
        streak := streak + 1;
      } else {
        break;
      }
      i := i + 1;
    }
  }

  /** The streak is determined by the dates. */
  lemma StreakUnique(dates: seq<int>, today: int, k1: int, k2: int)
    requires IsStreak(dates, today, k1) && IsStreak(dates, today, k2)
    ensures k1 == k2
  {
  }

  /** No meal today, or a newest date that is not today, means no streak. A
      future-dated meal at the head (a negative distance) gives 0 even when
      today also has meals. */
  lemma StreakNeedsToday(dates: seq<int>, today: int, k: int)
    requires IsStreak(dates, today, k)
    ensures dates == [] ==> k == 0
    ensures dates != [] && dates[0] != today ==> k == 0
    ensures dates != [] && dates[0] > today ==> k == 0
  {
  }

  /** Over distinct dates, newest first and none in the future, the streak is
      the length of the run of consecutive days ending today: each of
      `today, …, today - k + 1` is a meal date and `today - k` is not. */
  lemma StreakIsRun(dates: seq<int>, today: int, k: int)
    requires StrictlyDescending(dates)
    requires dates != [] ==> dates[0] <= today
    requires IsStreak(dates, today, k)
    ensures forall d :: today - k < d <= today ==> d in dates
    ensures today - k !in dates
    ensures k <= |dates|
  {
    forall d | today - k < d <= today ensures d in dates {
      assert dates[today - d] == d;
    }
    forall i | 0 <= i < |dates| ensures dates[i] != today - k {
      if i < k {
        assert dates[i] == today - i;
      } else if k < |dates| {
        if k == 0 {
          assert dates[i] <= dates[0];
          assert dates[0] != today;
        } else {
          assert dates[k - 1] == today - (k - 1);
          assert dates[k] < dates[k - 1];
          assert dates[i] <= dates[k];
        }
      }
    }
  }

  // ------------------------------------------------------------- tables

  datatype WeightLog = WeightLog(id: nat, userId: int, weight: int, date: int)

  /** A goals row; `PUT /api/goals` can store NULL in any goal. */
  datatype GoalsRow = GoalsRow(
    id: nat, userId: int, dailyCalorieGoal: Option<int>, proteinGoal: Option<int>,
    carbsGoal: Option<int>, fatsGoal: Option<int>, waterGoal: Option<int>, targetWeight: Option<int>)

  datatype WaterLog = WaterLog(id: nat, userId: int, amount: int, date: int)

  /** A meal row as the statistics route reads it: `day` is `DATE(timestamp)`. */
  datatype MealLog = MealLog(id: nat, userId: int, calories: int, day: int)

  /** The row `INSERT INTO goals (user_id)` creates: every column at its default. */
  function DefaultGoals(id: nat, userId: int): GoalsRow
  {
    GoalsRow(id, userId, Some(2000), Some(150), Some(200), Some(65), Some(8), Some(0))
  }

  /** The first row for (user, date): the row `SELECT … WHERE user_id = ? AND date = ?` finds. */
  function FindWeight(logs: seq<WeightLog>, userId: int, date: int): (r: Option<nat>)
    ensures r.Some? ==> r.value < |logs| && logs[r.value].userId == userId && logs[r.value].date == date
    ensures r.Some? ==> forall j :: 0 <= j < r.value ==> !(logs[j].userId == userId && logs[j].date == date)
    ensures r.None? ==> forall j :: 0 <= j < |logs| ==> !(logs[j].userId == userId && logs[j].date == date)
  {
    if logs == [] then None
    else if logs[0].userId == userId && logs[0].date == date then Some(0)
    else match FindWeight(logs[1..], userId, date)
      case None => None
      case Some(i) => Some(i + 1)
  }

  /** The weight table after `POST /api/weight`: the existing row's weight is
      updated, or a row is inserted with the next id. */
  function WeightAfter(logs: seq<WeightLog>, userId: int, weight: int, date: int, nextId: nat): seq<WeightLog>
  {
    match FindWeight(logs, userId, date)
    case Some(i) => logs[i := logs[i].(weight := weight)]
    case None => logs + [WeightLog(nextId, userId, weight, date)]
  }

  /** Logging weight is an upsert: a (user, date) with a row keeps its rows,
      with the new weight on the first; one without gets exactly one row; the
      rows of every other (user, date) are untouched. */
  lemma WeightUpsert(logs: seq<WeightLog>, userId: int, weight: int, date: int, nextId: nat)
    ensures var r := WeightAfter(logs, userId, weight, date, nextId);
      && (FindWeight(logs, userId, date).Some? ==>
            |r| == |logs| && FindWeight(r, userId, date) == FindWeight(logs, userId, date)
            && r[FindWeight(logs, userId, date).value].weight == weight)
      && (FindWeight(logs, userId, date).None? ==>
            |r| == |logs| + 1 && r[|logs|] == WeightLog(nextId, userId, weight, date))
      && (forall j :: 0 <= j < |logs| && !(logs[j].userId == userId && logs[j].date == date) ==> r[j] == logs[j])
  {
    var r := WeightAfter(logs, userId, weight, date, nextId);
    match FindWeight(logs, userId, date)
    case Some(i) =>
      assert r == logs[i := logs[i].(weight := weight)];
      FindWeightSame(logs, r, userId, date);
    case None =>
  }

  /** Two tables that agree on which rows carry each (user, date) give the same lookup. */
  lemma {:induction false} FindWeightSame(a: seq<WeightLog>, b: seq<WeightLog>, userId: int, date: int)
    requires |a| == |b|
    requires forall j :: 0 <= j < |a| ==> (a[j].userId == userId && a[j].date == date) == (b[j].userId == userId && b[j].date == date)
    ensures FindWeight(a, userId, date) == FindWeight(b, userId, date)
  {
    if a != [] {
      FindWeightSame(a[1..], b[1..], userId, date);
    }
  }

  /** Logging the same weight twice leaves the table as logging it once. */
  lemma WeightTwice(logs: seq<WeightLog>, userId: int, weight: int, date: int, id1: nat, id2: nat)
    ensures var once := WeightAfter(logs, userId, weight, date, id1);
      WeightAfter(once, userId, weight, date, id2) == once
  {
    var once := WeightAfter(logs, userId, weight, date, id1);
    WeightUpsert(logs, userId, weight, date, id1);
    match FindWeight(logs, userId, date)
    case Some(i) =>
      assert once[i].weight == weight;
      assert once[i := once[i].(weight := weight)] == once;
    case None =>
      FindWeightSame(logs + [WeightLog(id1, userId, weight, date)], once, userId, date);
      match FindWeight(once, userId, date)
      case Some(i) =>
        assert once[i := once[i].(weight := weight)] == once;
      case None =>
        assert false;
  }

  /** The goals row of a user: `SELECT * FROM goals WHERE user_id = ?`. */
  function FindGoals(goals: seq<GoalsRow>, userId: int): (r: Option<nat>)
    ensures r.Some? ==> r.value < |goals| && goals[r.value].userId == userId
    ensures r.None? ==> forall j :: 0 <= j < |goals| ==> goals[j].userId != userId
  {
    if goals == [] then None
    else if goals[0].userId == userId then Some(0)
    else match FindGoals(goals[1..], userId)
      case None => None
      case Some(i) => Some(i + 1)
  }

  function WaterKey(userId: int, date: int): WaterLog -> bool
  {
    (w: WaterLog) => w.userId == userId && w.date == date
  }

  function Amount(w: WaterLog): int
  {
    w.amount
  }

  /** `SUM(amount) … WHERE user_id = ? AND date = ?`, then `total || 0`. */
  function WaterTotal(water: seq<WaterLog>, userId: int, date: int): (total: int)
    ensures total == SumBy(water, When(WaterKey(userId, date), Amount))
    ensures (forall j :: 0 <= j < |water| ==> !WaterKey(userId, date)(water[j])) ==> total == 0
  {
    var rows := Filter(water, WaterKey(userId, date));
    SumFilter(water, WaterKey(userId, date), Amount);
    if rows == [] then
      assert forall w :: w !in rows;
      0
    else OrNum(Sum(rows, Amount), 0)
  }

  /** Water is append-only: logging adds the amount to that user's total for
      that date and leaves every other (user, date) total as it was. */
  lemma WaterLogged(water: seq<WaterLog>, row: WaterLog)
    ensures WaterTotal(water + [row], row.userId, row.date) == WaterTotal(water, row.userId, row.date) + row.amount
    ensures forall u, d :: !(u == row.userId && d == row.date) ==>
      WaterTotal(water + [row], u, d) == WaterTotal(water, u, d)
  {
    SumByAppend(water, [row], When(WaterKey(row.userId, row.date), Amount));
    forall u, d | !(u == row.userId && d == row.date)
      ensures WaterTotal(water + [row], u, d) == WaterTotal(water, u, d)
    {
      SumByAppend(water, [row], When(WaterKey(u, d), Amount));
    }
  }

  // --------------------------------------------------------- statistics

  function MealDay(m: MealLog): int { m.day }
  function MealCalories(m: MealLog): int { m.calories }

  /** The user's meals whose date is at most `days` days before today. */
  function WindowOf(userId: int, days: int, today: int): MealLog -> bool
  {
    (m: MealLog) => m.userId == userId && m.day >= today - days
  }

  function OfUser(userId: int): MealLog -> bool
  {
    (m: MealLog) => m.userId == userId
  }

  /** One row of `daily`: a date with meals, their calories and their number,
      and the calorie goal. */
  datatype DailyStat = DailyStat(date: int, calories: int, meals: int, goal: int)

  function DailyOf(goal: int): Group<MealLog> -> DailyStat
  {
    (g: Group<MealLog>) => DailyStat(g.key, SumBy(g.rows, MealCalories), |g.rows|, goal)
  }

  function DailyMeals(d: DailyStat): int { d.meals }

  /** `goals?.daily_calorie_goal || 2000`: no goals row, a NULL goal and a 0
      goal all give 2000. */
  function CalorieGoal(goals: Option<GoalsRow>): (g: int)
    ensures goals.Some? && goals.value.dailyCalorieGoal.Some? && goals.value.dailyCalorieGoal.value != 0
      ==> g == goals.value.dailyCalorieGoal.value
    ensures goals.None? || goals.value.dailyCalorieGoal.None? || goals.value.dailyCalorieGoal.value == 0
      ==> g == 2000
  {
    if goals.Some? then OrNum(goals.value.dailyCalorieGoal, 2000) else 2000
  }

  /** The daily rows: one per date with meals in the window, newest first. */
  function DailyStats(meals: seq<MealLog>, userId: int, days: int, today: int, goal: int): (r: seq<DailyStat>)
    ensures |r| == |DistinctAsc(Filter(meals, WindowOf(userId, days, today)), MealDay)|
    ensures forall i, j :: 0 <= i < j < |r| ==> r[i].date > r[j].date
    ensures forall i :: 0 <= i < |r| ==> r[i].goal == goal && r[i].meals > 0
    ensures var w := Filter(meals, WindowOf(userId, days, today));
      forall i :: 0 <= i < |r| ==>
        && HasKey(w, MealDay, r[i].date)
        && r[i].calories == SumBy(Filter(w, KeyIs(MealDay, r[i].date)), MealCalories)
        && r[i].meals == |Filter(w, KeyIs(MealDay, r[i].date))|
    ensures var w := Filter(meals, WindowOf(userId, days, today));
      forall k :: HasKey(w, MealDay, k) ==> exists i :: 0 <= i < |r| && r[i].date == k
  {
    MapSeq(GroupByDesc(Filter(meals, WindowOf(userId, days, today)), MealDay), DailyOf(goal))
  }

  /** `totalMeals`, the sum of the per-date meal counts, is the number of the
      user's meals in the window. */
  lemma TotalMealsCounts(meals: seq<MealLog>, userId: int, days: int, today: int, goal: int)
    ensures SumBy(DailyStats(meals, userId, days, today, goal), DailyMeals)
         == |Filter(meals, WindowOf(userId, days, today))|
  {
    var rows := Filter(meals, WindowOf(userId, days, today));
    var size := (g: Group<MealLog>) => |g.rows|;
    SumByMap(GroupByDesc(rows, MealDay), DailyOf(goal), DailyMeals, size);
    SumByPermutation(GroupByDesc(rows, MealDay), GroupBy(rows, MealDay), size);
    CountOverGroups(rows, MealDay);
  }

  datatype Statistics = Statistics(daily: seq<DailyStat>, totalMeals: int, streakDays: nat)

  // -------------------------------------------------------------- database

  class TrackerDb {
    var weightLogs: seq<WeightLog>
    var goals: seq<GoalsRow>
    var water: seq<WaterLog>
    var meals: seq<MealLog>
    var nextWeightId: nat
    var nextGoalsId: nat
    var nextWaterId: nat

    /** Ids are below each table's counter, and `goals.user_id` is UNIQUE. */
    predicate Valid()
      reads this
    {
      && (forall j :: 0 <= j < |weightLogs| ==> weightLogs[j].id < nextWeightId)
      && (forall j :: 0 <= j < |goals| ==> goals[j].id < nextGoalsId)
      && (forall j :: 0 <= j < |water| ==> water[j].id < nextWaterId)
      && (forall i, j :: 0 <= i < j < |goals| ==> goals[i].userId != goals[j].userId)
    }

    constructor ()
      ensures Valid()
      ensures weightLogs == [] && goals == [] && water == [] && meals == []
    {
      weightLogs, goals, water, meals := [], [], [], [];
      nextWeightId, nextGoalsId, nextWaterId := 1, 1, 1;
    }

    /** `POST /api/weight`: returns the updated or the inserted row. */
    method LogWeight(userId: int, weight: int, date: int) returns (row: WeightLog)
      requires Valid()
      modifies this
      ensures Valid()
      ensures weightLogs == WeightAfter(old(weightLogs), userId, weight, date, old(nextWeightId))
      ensures row in weightLogs && row.userId == userId && row.date == date && row.weight == weight
      ensures goals == old(goals) && water == old(water) && meals == old(meals)
      ensures nextGoalsId == old(nextGoalsId) && nextWaterId == old(nextWaterId)
    {
      var existing := FindWeight(weightLogs, userId, date);
      WeightUpsert(weightLogs, userId, weight, date, nextWeightId);
      var logs := WeightAfter(weightLogs, userId, weight, date, nextWeightId);
      if existing.Some? {
        row := logs[existing.value];
        assert forall j :: 0 <= j < |logs| ==> logs[j].id == weightLogs[j].id;
      } else {
        row := logs[|weightLogs|];
        nextWeightId := nextWeightId + 1;
      }
      weightLogs := logs;
    }

    /** `GET /api/goals/:userId`: the stored row, created with the defaults
        the first time. */
    method GetGoals(userId: int) returns (row: GoalsRow)
      requires Valid()
      modifies this
      ensures Valid()
      ensures row.userId == userId && row in goals
      ensures FindGoals(old(goals), userId).Some? ==>
        goals == old(goals) && row == old(goals)[FindGoals(old(goals), userId).value]
      ensures FindGoals(old(goals), userId).None? ==>
        row == DefaultGoals(old(nextGoalsId), userId) && goals == old(goals) + [row]
      ensures weightLogs == old(weightLogs) && water == old(water) && meals == old(meals)
      ensures nextWeightId == old(nextWeightId) && nextWaterId == old(nextWaterId)
    {
      var found := FindGoals(goals, userId);
      if found.Some? {
        row := goals[found.value];
      } else {
        row := DefaultGoals(nextGoalsId, userId);
        goals := goals + [row];
        nextGoalsId := nextGoalsId + 1;
      }
    }

    /** `POST /api/water`: always a new row. */
    method LogWater(userId: int, amount: int, date: int) returns (row: WaterLog)
      requires Valid()
      modifies this
      ensures Valid()
      ensures row == WaterLog(old(nextWaterId), userId, amount, date)
      ensures water == old(water) + [row]
      ensures weightLogs == old(weightLogs) && goals == old(goals) && meals == old(meals)
      ensures nextWeightId == old(nextWeightId) && nextGoalsId == old(nextGoalsId)
    {
      row := WaterLog(nextWaterId, userId, amount, date);
      water := water + [row];
      nextWaterId := nextWaterId + 1;
    }

    /** `GET /api/statistics/:userId`. */
    method GetStatistics(userId: int, days: int, today: int) returns (s: Statistics)
      requires Valid()
      ensures var goalsRow := if FindGoals(goals, userId).Some? then Some(goals[FindGoals(goals, userId).value]) else None;
        s.daily == DailyStats(meals, userId, days, today, CalorieGoal(goalsRow))
      ensures s.totalMeals == |Filter(meals, WindowOf(userId, days, today))|
      ensures IsStreak(DistinctDesc(Filter(meals, OfUser(userId)), MealDay), today, s.streakDays)
    {
      var found := FindGoals(goals, userId);
      var goalsRow := if found.Some? then Some(goals[found.value]) else None;
      var goal := CalorieGoal(goalsRow);
      var daily := DailyStats(meals, userId, days, today, goal);
      var dates := DistinctDesc(Filter(meals, OfUser(userId)), MealDay);
      var streak := ComputeStreak(dates, today);
      TotalMealsCounts(meals, userId, days, today, goal);
      s := Statistics(daily, SumBy(daily, DailyMeals), streak);
    }
  }

  /** On the real meal dates the streak counts the consecutive days back from
      today that have a meal, provided no meal is dated in the future. */
  lemma StreakOfMeals(meals: seq<MealLog>, userId: int, today: int, k: int)
    requires forall m :: m in meals && m.userId == userId ==> m.day <= today
    requires IsStreak(DistinctDesc(Filter(meals, OfUser(userId)), MealDay), today, k)
    ensures forall d :: today - k < d <= today ==> HasKey(Filter(meals, OfUser(userId)), MealDay, d)
    ensures !HasKey(Filter(meals, OfUser(userId)), MealDay, today - k)
  {
    var rows := Filter(meals, OfUser(userId));
    var dates := DistinctDesc(rows, MealDay);
    if dates != [] {
      assert dates[0] in dates;
      var j := HasKeyWitness(rows, MealDay, dates[0]);
      assert rows[j] in rows;
    }
    StreakIsRun(dates, today, k);
  }
}
