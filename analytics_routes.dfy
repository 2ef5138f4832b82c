/** The analytics routes of the `server/` API: the dashboard of today's
    totals against the user's goals, the weekly per-date series and the
    monthly aggregates. Each route reads the tables and builds a reply; none
    changes stored state. `today`, the first of the month and the user come
    in as parameters. */
module AnalyticsRoutes {
  import opened Common
  import opened Sql
  import opened ServerSchema

  // ---------------------------------------------------------- dashboard

  /** `SELECT … FROM users WHERE id = ?`. */
  function FindUser(users: seq<UserRow>, id: int): (r: Option<UserRow>)
    ensures r.Some? ==> r.value in users && r.value.id == id
    ensures r.None? ==> forall i :: 0 <= i < |users| ==> users[i].id != id
  {
    if users == [] then None
    else if users[0].id == id then Some(users[0])
    else FindUser(users[1..], id)
  }

  /** `user?.field || d`. */
  function GoalOr(user: Option<UserRow>, field: UserRow -> Option<int>, d: int): int
  {
    if user.Some? then OrNum(field(user.value), d) else d
  }

  datatype Goals = Goals(calories: int, protein: int, carbs: int, fats: int, water: int)

  function DashboardGoals(user: Option<UserRow>): Goals
  {
    Goals(GoalOr(user, (u: UserRow) => u.dailyCalorieGoal, 2000),
          GoalOr(user, (u: UserRow) => u.dailyProteinGoal, 150),
          GoalOr(user, (u: UserRow) => u.dailyCarbsGoal, 200),
          GoalOr(user, (u: UserRow) => u.dailyFatsGoal, 65),
          GoalOr(user, (u: UserRow) => u.dailyWaterGoal, 8))
  }

  /** The dashboard's fallback goals are the column defaults of `users`: a
      missing user, a new user and a user whose goals are all NULL or 0 all
      see 2000 kcal, 150 g protein, 200 g carbs, 65 g fats and 8 glasses. */
  lemma GoalsFallBackToDefaults(id: int, g1: Option<int>, g2: Option<int>, g3: Option<int>, g4: Option<int>, g5: Option<int>)
    requires g1 == None || g1 == Some(0)
    requires g2 == None || g2 == Some(0)
    requires g3 == None || g3 == Some(0)
    requires g4 == None || g4 == Some(0)
    requires g5 == None || g5 == Some(0)
    ensures DashboardGoals(None) == Goals(2000, 150, 200, 65, 8)
    ensures DashboardGoals(Some(NewUser(id))) == Goals(2000, 150, 200, 65, 8)
    ensures DashboardGoals(Some(UserRow(id, g1, g2, g3, g4, g5))) == Goals(2000, 150, 200, 65, 8)
  {
  }

  /** A goal the user has set (not NULL, not 0) is shown as it is, each goal
      independently of the others. */
  lemma GoalsKeepSetValues(u: UserRow)
    ensures u.dailyCalorieGoal.Some? && u.dailyCalorieGoal.value != 0 ==>
      DashboardGoals(Some(u)).calories == u.dailyCalorieGoal.value
    ensures u.dailyProteinGoal.Some? && u.dailyProteinGoal.value != 0 ==>
      DashboardGoals(Some(u)).protein == u.dailyProteinGoal.value
    ensures u.dailyCarbsGoal.Some? && u.dailyCarbsGoal.value != 0 ==>
      DashboardGoals(Some(u)).carbs == u.dailyCarbsGoal.value
    ensures u.dailyFatsGoal.Some? && u.dailyFatsGoal.value != 0 ==>
      DashboardGoals(Some(u)).fats == u.dailyFatsGoal.value
    ensures u.dailyWaterGoal.Some? && u.dailyWaterGoal.value != 0 ==>
      DashboardGoals(Some(u)).water == u.dailyWaterGoal.value
  {
  }

  function MealOn(userId: int, day: int): MealRow -> bool
  {
    (m: MealRow) => m.userId == userId && m.mealDate == day
  }

  function ExerciseOn(userId: int, day: int): ExerciseRow -> bool
  {
    (e: ExerciseRow) => e.userId == userId && e.entryDate == day
  }

  function WeightOf(userId: int): WeightRow -> bool
  {
    (w: WeightRow) => w.userId == userId
  }

  /** `ORDER BY entry_date DESC LIMIT 1`: a row with the latest date. */
  function LatestWeight(rows: seq<WeightRow>): (r: Option<WeightRow>)
    ensures r.None? <==> rows == []
    ensures r.Some? ==> r.value in rows
    ensures r.Some? ==> forall i :: 0 <= i < |rows| ==> rows[i].entryDate <= r.value.entryDate
  {
    if rows == [] then None
    else match LatestWeight(rows[1..])
      case None => Some(rows[0])
      case Some(w) => if rows[0].entryDate >= w.entryDate then Some(rows[0]) else Some(w)
  }

  datatype WeightPoint = WeightPoint(weight: int, entryDate: int)

  datatype Today = Today(
    calories: int, protein: int, carbs: int, fats: int, water: int,
    meals: int, exercises: int, caloriesBurned: int, netCalories: int)

  /** The dashboard's current weight: the user's latest log, or none. */
  function CurrentWeight(weights: seq<WeightRow>, userId: int): (p: Option<WeightPoint>)
    ensures var ws := Filter(weights, WeightOf(userId));
      && (p.None? <==> ws == [])
      && (p.Some? ==> forall i :: 0 <= i < |ws| ==> ws[i].entryDate <= p.value.entryDate)
      && (p.Some? ==> exists i :: 0 <= i < |ws| && ws[i].weight == p.value.weight && ws[i].entryDate == p.value.entryDate)
  {
    var ws := Filter(weights, WeightOf(userId));
    var latest := LatestWeight(ws);
    if latest.Some? then
      var i :| 0 <= i < |ws| && ws[i] == latest.value;
      Some(WeightPoint(latest.value.weight, latest.value.entryDate))
    else None
  }

  datatype Dashboard = Dashboard(goals: Goals, today: Today, weight: Option<WeightPoint>)

  /** The dashboard's "today" figures: sums over today's meals and exercises
      of the user, and the glasses of the first water log of the day. */
  function TodaySummary(meals: seq<MealRow>, water: seq<WaterRow>, exercises: seq<ExerciseRow>,
                        userId: int, today: int): (t: Today)
    ensures var ms := Filter(meals, MealOn(userId, today));
      && t.calories == SumBy(ms, Calories) && t.protein == SumBy(ms, Protein)
      && t.carbs == SumBy(ms, Carbs) && t.fats == SumBy(ms, Fats)
      && t.meals == |ms|
    ensures var es := Filter(exercises, ExerciseOn(userId, today));
      t.caloriesBurned == SumBy(es, Burned) && t.exercises == |es|
    ensures t.netCalories == t.calories - t.caloriesBurned
    ensures var ws := Filter(water, WaterOn(userId, today));
      t.water == if ws == [] then 0 else ws[0].glasses
  {
    var ms := Filter(meals, MealOn(userId, today));
    var es := Filter(exercises, ExerciseOn(userId, today));
    var ws := Filter(water, WaterOn(userId, today));
    SumOrZero(ms, Calories);
    SumOrZero(ms, Protein);
    SumOrZero(ms, Carbs);
    SumOrZero(ms, Fats);
    SumOrZero(es, Burned);
    var consumed := OrNum(Sum(ms, Calories), 0);
    var burned := OrNum(Sum(es, Burned), 0);
    Today(consumed, OrNum(Sum(ms, Protein), 0), OrNum(Sum(ms, Carbs), 0), OrNum(Sum(ms, Fats), 0),
          if ws == [] then 0 else OrNum(Some(ws[0].glasses), 0),
          OrNum(Some(|ms|), 0), OrNum(Some(|es|), 0), burned, consumed - burned)
  }

  /** `GET /dashboard`. */
  function DashboardOf(users: seq<UserRow>, meals: seq<MealRow>, water: seq<WaterRow>,
                       exercises: seq<ExerciseRow>, weights: seq<WeightRow>,
                       userId: int, today: int): (d: Dashboard)
    ensures d.goals == DashboardGoals(FindUser(users, userId))
    ensures var ms := Filter(meals, MealOn(userId, today));
      && d.today.calories == SumBy(ms, Calories) && d.today.protein == SumBy(ms, Protein)
      && d.today.carbs == SumBy(ms, Carbs) && d.today.fats == SumBy(ms, Fats)
      && d.today.meals == |ms|
    ensures var es := Filter(exercises, ExerciseOn(userId, today));
      d.today.caloriesBurned == SumBy(es, Burned) && d.today.exercises == |es|
    ensures d.today.netCalories == d.today.calories - d.today.caloriesBurned
    ensures var ws := Filter(water, WaterOn(userId, today));
      d.today.water == if ws == [] then 0 else ws[0].glasses
    ensures var ws := Filter(weights, WeightOf(userId));
      && (d.weight.None? <==> ws == [])
      && (d.weight.Some? ==> forall i :: 0 <= i < |ws| ==> ws[i].entryDate <= d.weight.value.entryDate)
    ensures var latest := LatestWeight(Filter(weights, WeightOf(userId)));
      d.weight == if latest.Some? then Some(WeightPoint(latest.value.weight, latest.value.entryDate)) else None
  {
    Dashboard(DashboardGoals(FindUser(users, userId)),
              TodaySummary(meals, water, exercises, userId, today),
              CurrentWeight(weights, userId))
  }

  /** With nothing logged today every "today" figure is 0, net calories included. */
  lemma DashboardEmptyDay(users: seq<UserRow>, weights: seq<WeightRow>, userId: int, today: int)
    ensures var t := DashboardOf(users, [], [], [], weights, userId, today).today;
      t == Today(0, 0, 0, 0, 0, 0, 0, 0, 0)
  {
  }

  /** Net calories can be negative: a day whose exercise burned more than was eaten. */
  lemma NetCaloriesCanBeNegative(userId: int, today: int)
    ensures DashboardOf([], [MealRow(1, userId, 300, 0, 0, 0, today)], [],
                        [ExerciseRow(1, userId, 30, 500, today)], [], userId, today).today.netCalories == -200
  {
    var ms := [MealRow(1, userId, 300, 0, 0, 0, today)];
    var es := [ExerciseRow(1, userId, 30, 500, today)];
    assert ms[1..] == [] && es[1..] == [];
    assert Filter(ms, MealOn(userId, today)) == ms;
    assert Filter(es, ExerciseOn(userId, today)) == es;
    assert SumBy(ms, Calories) == 300;
    assert SumBy(es, Burned) == 500;
    var d := DashboardOf([], ms, [], es, [], userId, today);
    assert d.today.netCalories == 300 - 500;
  }

  // ------------------------------------------------------------- weekly

  /** `d BETWEEN today - 7 AND today`. */
  predicate InWeek(d: int, today: int)
  {
    Between(d, today - 7, today)
  }

  /** The weekly window: the 8 calendar dates from a week ago to today, both ends included. */
  function WeekDates(today: int): (r: seq<int>)
    ensures |r| == 8
    ensures forall i :: 0 <= i < 8 ==> r[i] == today - 7 + i
    ensures forall d :: d in r <==> InWeek(d, today)
  {
    var r := seq(8, (i: int) => today - 7 + i);
    assert forall d :: InWeek(d, today) ==> r[d - today + 7] == d;
    r
  }

  function MealInWeek(userId: int, today: int): MealRow -> bool
  {
    (m: MealRow) => m.userId == userId && InWeek(m.mealDate, today)
  }

  function ExerciseInWeek(userId: int, today: int): ExerciseRow -> bool
  {
    (e: ExerciseRow) => e.userId == userId && InWeek(e.entryDate, today)
  }

  function WaterInWeek(userId: int, today: int): WaterRow -> bool
  {
    (w: WaterRow) => w.userId == userId && InWeek(w.entryDate, today)
  }

  function WeightInWeek(userId: int, today: int): WeightRow -> bool
  {
    (w: WeightRow) => w.userId == userId && InWeek(w.entryDate, today)
  }

  /** One row of the weekly meal series. */
  datatype MealDay = MealDay(mealDate: int, totalCalories: int, totalProtein: int, totalCarbs: int, totalFats: int)

  function MealDayOf(g: Group<MealRow>): MealDay
  {
    MealDay(g.key, SumBy(g.rows, Calories), SumBy(g.rows, Protein), SumBy(g.rows, Carbs), SumBy(g.rows, Fats))
  }

  function DayCalories(d: MealDay): int { d.totalCalories }

  /** The meal series of `GET /weekly`: one row per date of the week that has
      a meal, ascending by date, holding that date's sums. A date without
      meals has no row; it is not filled with zeros. */
  function WeeklyMeals(meals: seq<MealRow>, userId: int, today: int): (r: seq<MealDay>)
    ensures var rows := Filter(meals, MealInWeek(userId, today));
      var ks := DistinctAsc(rows, MealDate);
      && |r| == |ks|
      && (forall i :: 0 <= i < |r| ==> r[i].mealDate == ks[i])
      && (forall i :: 0 <= i < |r| ==>
            var day := Filter(rows, KeyIs(MealDate, ks[i]));
            && r[i].totalCalories == SumBy(day, Calories) && r[i].totalProtein == SumBy(day, Protein)
            && r[i].totalCarbs == SumBy(day, Carbs) && r[i].totalFats == SumBy(day, Fats))
    ensures forall i :: 0 <= i < |r| ==> InWeek(r[i].mealDate, today)
  {
    var rows := Filter(meals, MealInWeek(userId, today));
    var ks := DistinctAsc(rows, MealDate);
    var gs := GroupBy(rows, MealDate);
    forall i | 0 <= i < |gs| ensures gs[i].rows == Filter(rows, KeyIs(MealDate, ks[i])) && InWeek(ks[i], today) {
      GroupsOfRows(rows, MealDate, ks, i);
      assert ks[i] in ks;
      var j := HasKeyWitness(rows, MealDate, ks[i]);
      assert rows[j] in rows;
    }
    MapSeq(gs, MealDayOf)
  }

  /** The daily calorie totals of the series add up to the week's calories. */
  lemma WeeklyMealsTotal(meals: seq<MealRow>, userId: int, today: int)
    ensures SumBy(WeeklyMeals(meals, userId, today), DayCalories)
         == SumBy(Filter(meals, MealInWeek(userId, today)), Calories)
  {
    var rows := Filter(meals, MealInWeek(userId, today));
    var gs := GroupBy(rows, MealDate);
    SumByMap(gs, MealDayOf, DayCalories, GroupSum(Calories));
    SumOverGroups(rows, MealDate, Calories);
  }

  /** One row of the weekly exercise series. */
  datatype ExerciseDay = ExerciseDay(entryDate: int, totalCaloriesBurned: int, totalDuration: int)

  function ExerciseDayOf(g: Group<ExerciseRow>): ExerciseDay
  {
    ExerciseDay(g.key, SumBy(g.rows, Burned), SumBy(g.rows, Duration))
  }

  /** The exercise series of `GET /weekly`, sparse and ascending like the meal series. */
  function WeeklyExercises(exercises: seq<ExerciseRow>, userId: int, today: int): (r: seq<ExerciseDay>)
    ensures var rows := Filter(exercises, ExerciseInWeek(userId, today));
      var ks := DistinctAsc(rows, ExerciseDate);
      && |r| == |ks|
      && (forall i :: 0 <= i < |r| ==> r[i].entryDate == ks[i])
      && (forall i :: 0 <= i < |r| ==>
            var day := Filter(rows, KeyIs(ExerciseDate, ks[i]));
            r[i].totalCaloriesBurned == SumBy(day, Burned) && r[i].totalDuration == SumBy(day, Duration))
    ensures forall i :: 0 <= i < |r| ==> InWeek(r[i].entryDate, today)
  {
    var rows := Filter(exercises, ExerciseInWeek(userId, today));
    var ks := DistinctAsc(rows, ExerciseDate);
    var gs := GroupBy(rows, ExerciseDate);
    forall i | 0 <= i < |gs| ensures gs[i].rows == Filter(rows, KeyIs(ExerciseDate, ks[i])) && InWeek(ks[i], today) {
      GroupsOfRows(rows, ExerciseDate, ks, i);
      assert ks[i] in ks;
      var j := HasKeyWitness(rows, ExerciseDate, ks[i]);
      assert rows[j] in rows;
    }
    MapSeq(gs, ExerciseDayOf)
  }

  /** The water rows of the week, ascending by date. */
  function WeeklyWater(water: seq<WaterRow>, userId: int, today: int): (r: seq<WaterRow>)
    ensures SortedBy(r, WaterDate)
    ensures multiset(r) == multiset(Filter(water, WaterInWeek(userId, today)))
    ensures forall w :: w in r <==> w in water && w.userId == userId && InWeek(w.entryDate, today)
  {
    var f := Filter(water, WaterInWeek(userId, today));
    var r := SortBy(f, WaterDate);
    assert forall w :: w in r <==> w in multiset(r);
    assert forall w :: w in f <==> w in multiset(f);
    r
  }

  /** The weight rows of the week, ascending by date. */
  function WeeklyWeight(weights: seq<WeightRow>, userId: int, today: int): (r: seq<WeightRow>)
    ensures SortedBy(r, WeightDate)
    ensures multiset(r) == multiset(Filter(weights, WeightInWeek(userId, today)))
    ensures forall w :: w in r <==> w in weights && w.userId == userId && InWeek(w.entryDate, today)
  {
    var f := Filter(weights, WeightInWeek(userId, today));
    var r := SortBy(f, WeightDate);
    assert forall w :: w in r <==> w in multiset(r);
    assert forall w :: w in f <==> w in multiset(f);
    r
  }

  datatype Weekly = Weekly(meals: seq<MealDay>, exercises: seq<ExerciseDay>, water: seq<WaterRow>, weight: seq<WeightRow>)

  function WeeklyOf(meals: seq<MealRow>, exercises: seq<ExerciseRow>, water: seq<WaterRow>,
                    weights: seq<WeightRow>, userId: int, today: int): Weekly
  {
    Weekly(WeeklyMeals(meals, userId, today), WeeklyExercises(exercises, userId, today),
           WeeklyWater(water, userId, today), WeeklyWeight(weights, userId, today))
  }

  // ------------------------------------------------------------ monthly

  function MealInMonth(userId: int, monthStart: int, today: int): MealRow -> bool
  {
    (m: MealRow) => m.userId == userId && Between(m.mealDate, monthStart, today)
  }

  function ExerciseInMonth(userId: int, monthStart: int, today: int): ExerciseRow -> bool
  {
    (e: ExerciseRow) => e.userId == userId && Between(e.entryDate, monthStart, today)
  }

  datatype MealStats = MealStats(daysTracked: int, avgDailyCalories: Option<real>, avgDailyProtein: Option<real>)

  /** The meal statistics of `GET /monthly`: the number of dates with meals,
      and the mean over those dates of each date's calorie and protein sums;
      the means are NULL in a month without meals. */
  function MonthlyMeals(meals: seq<MealRow>, userId: int, monthStart: int, today: int): (s: MealStats)
    ensures var rows := Filter(meals, MealInMonth(userId, monthStart, today));
      && s.daysTracked == |DistinctAsc(rows, MealDate)|
      && (s.avgDailyCalories.None? <==> rows == [])
      && (s.avgDailyCalories.Some? ==> MeanOf(s.avgDailyCalories.value, s.daysTracked, SumBy(rows, Calories)))
      && (s.avgDailyProtein.None? <==> rows == [])
      && (s.avgDailyProtein.Some? ==> MeanOf(s.avgDailyProtein.value, s.daysTracked, SumBy(rows, Protein)))
  {
    var rows := Filter(meals, MealInMonth(userId, monthStart, today));
    var days := GroupBy(rows, MealDate);
    AvgOverGroups(rows, MealDate, Calories);
    AvgOverGroups(rows, MealDate, Protein);
    MealStats(|DistinctAsc(rows, MealDate)|, Avg(days, GroupSum(Calories)), Avg(days, GroupSum(Protein)))
  }

  datatype ExerciseStats = ExerciseStats(totalWorkouts: int, totalDuration: Option<int>, totalCaloriesBurned: Option<int>)

  /** The exercise statistics of `GET /monthly`: the number of workouts in the
      month and their summed duration and calories, NULL without workouts. */
  function MonthlyExercise(exercises: seq<ExerciseRow>, userId: int, monthStart: int, today: int): (s: ExerciseStats)
    ensures var rows := Filter(exercises, ExerciseInMonth(userId, monthStart, today));
      && s.totalWorkouts == |rows|
      && (s.totalDuration.None? <==> s.totalWorkouts == 0)
      && (s.totalDuration.Some? ==> s.totalDuration.value == SumBy(rows, Duration))
      && (s.totalCaloriesBurned.None? <==> s.totalWorkouts == 0)
      && (s.totalCaloriesBurned.Some? ==> s.totalCaloriesBurned.value == SumBy(rows, Burned))
  {
    var rows := Filter(exercises, ExerciseInMonth(userId, monthStart, today));
    ExerciseStats(|rows|, Sum(rows, Duration), Sum(rows, Burned))
  }

  /** Every workout of the month is counted once: its row adds one workout and
      its duration, whatever its date within the month. */
  lemma MonthlyExerciseAdd(exercises: seq<ExerciseRow>, userId: int, monthStart: int, today: int, e: ExerciseRow)
    requires e.userId == userId && monthStart <= e.entryDate <= today
    ensures var before := MonthlyExercise(exercises, userId, monthStart, today);
      var after := MonthlyExercise(exercises + [e], userId, monthStart, today);
      && after.totalWorkouts == before.totalWorkouts + 1
      && after.totalDuration == Some(OrNum(before.totalDuration, 0) + e.duration)
  {
    var p := ExerciseInMonth(userId, monthStart, today);
    FilterSnoc(exercises, e, p);
    SumSnoc(Filter(exercises, p), e, Duration);
  }

  datatype Monthly = Monthly(start: int, end: int, meals: MealStats, exercise: ExerciseStats)

  function MonthlyOf(meals: seq<MealRow>, exercises: seq<ExerciseRow>, userId: int, monthStart: int, today: int): Monthly
  {
    Monthly(monthStart, today, MonthlyMeals(meals, userId, monthStart, today),
            MonthlyExercise(exercises, userId, monthStart, today))
  }
}
