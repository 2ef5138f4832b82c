/** The data preparation of the client's analytics page: the weekly series
    the server sends become chart points keyed by "MM-DD", the protein, carbs
    and fats of the week are summed and turned into calories, and two panels
    are shown or hidden by what there is. Values the server may send as
    `null` are `None`. */
module AnalyticsPage {
  import opened Common

  /** One element of `weekly.meals` as JSON. */
  datatype MealDayJson = MealDayJson(
    mealDate: string, totalCalories: Option<int>, totalProtein: Option<int>,
    totalCarbs: Option<int>, totalFats: Option<int>)

  /** One element of `weekly.exercises`. */
  datatype ExerciseDayJson = ExerciseDayJson(entryDate: string, totalCaloriesBurned: Option<int>, totalDuration: Option<int>)

  /** One element of `weekly.weight` or `weekly.water`: a date and one value. */
  datatype DatedJson = DatedJson(entryDate: string, value: Option<int>)

  /** The weekly reply as far as it is present: the fetch may have failed, and
      any series may be missing. */
  datatype WeeklyJson = WeeklyJson(
    meals: Option<seq<MealDayJson>>, exercises: Option<seq<ExerciseDayJson>>,
    weight: Option<seq<DatedJson>>, water: Option<seq<DatedJson>>)

  datatype CaloriePoint = CaloriePoint(date: string, calories: Option<int>, protein: Option<int>, carbs: Option<int>, fats: Option<int>)
  datatype ExercisePoint = ExercisePoint(date: string, burned: Option<int>, duration: Option<int>)
  datatype Point = Point(date: string, value: Option<int>)

  /** `date.substring(5)`: "YYYY-MM-DD" becomes "MM-DD". */
  function ChartDate(date: string): (r: string)
    ensures |date| == 10 ==> |r| == 5 && date == date[..5] + r
  {
    Substring(date, 5)
  }

  function CaloriePointOf(m: MealDayJson): CaloriePoint
  {
    CaloriePoint(ChartDate(m.mealDate), m.totalCalories, m.totalProtein, m.totalCarbs, m.totalFats)
  }

  /** `weeklyData?.meals?.map(…) || []`: one point per meal day in the same
      order, and none when the series is missing. */
  function CalorieChartData(weekly: Option<WeeklyJson>): (r: seq<CaloriePoint>)
    ensures weekly.None? || weekly.value.meals.None? ==> r == []
    ensures weekly.Some? && weekly.value.meals.Some? ==>
      var ms := weekly.value.meals.value;
      && |r| == |ms|
      && forall i :: 0 <= i < |ms| ==>
           r[i].date == ChartDate(ms[i].mealDate) && r[i].calories == ms[i].totalCalories
           && r[i].protein == ms[i].totalProtein && r[i].carbs == ms[i].totalCarbs && r[i].fats == ms[i].totalFats
  {
    if weekly.Some? && weekly.value.meals.Some? then MapSeq(weekly.value.meals.value, CaloriePointOf) else []
  }

  function ExercisePointOf(e: ExerciseDayJson): ExercisePoint
  {
    ExercisePoint(ChartDate(e.entryDate), e.totalCaloriesBurned, e.totalDuration)
  }

  function PointOf(w: DatedJson): Point
  {
    Point(ChartDate(w.entryDate), w.value)
  }

  /** `weeklyData?.exercises?.map(…) || []`. */
  function ExerciseChartData(weekly: Option<WeeklyJson>): (r: seq<ExercisePoint>)
    ensures weekly.None? || weekly.value.exercises.None? ==> r == []
    ensures weekly.Some? && weekly.value.exercises.Some? ==>
      var es := weekly.value.exercises.value;
      && |r| == |es|
      && forall i :: 0 <= i < |es| ==>
           r[i].date == ChartDate(es[i].entryDate) && r[i].burned == es[i].totalCaloriesBurned
           && r[i].duration == es[i].totalDuration
  {
    if weekly.Some? && weekly.value.exercises.Some? then MapSeq(weekly.value.exercises.value, ExercisePointOf) else []
  }

  /** `weeklyData?.weight?.map(…) || []`. */
  function WeightChartData(weekly: Option<WeeklyJson>): (r: seq<Point>)
    ensures weekly.None? || weekly.value.weight.None? ==> r == []
    ensures weekly.Some? && weekly.value.weight.Some? ==>
      var ws := weekly.value.weight.value;
      && |r| == |ws|
      && forall i :: 0 <= i < |ws| ==> r[i] == Point(ChartDate(ws[i].entryDate), ws[i].value)
  {
    if weekly.Some? && weekly.value.weight.Some? then MapSeq(weekly.value.weight.value, PointOf) else []
  }

  /** `weeklyData?.water?.map(…) || []`. */
  function WaterChartData(weekly: Option<WeeklyJson>): (r: seq<Point>)
    ensures weekly.None? || weekly.value.water.None? ==> r == []
    ensures weekly.Some? && weekly.value.water.Some? ==>
      var ws := weekly.value.water.value;
      && |r| == |ws|
      && forall i :: 0 <= i < |ws| ==> r[i] == Point(ChartDate(ws[i].entryDate), ws[i].value)
  {
    if weekly.Some? && weekly.value.water.Some? then MapSeq(weekly.value.water.value, PointOf) else []
  }

  /** `d.protein || 0` and its siblings. */
  function ProteinOr0(d: CaloriePoint): int { OrNum(d.protein, 0) }
  function CarbsOr0(d: CaloriePoint): int { OrNum(d.carbs, 0) }
  function FatsOr0(d: CaloriePoint): int { OrNum(d.fats, 0) }

  /** One slice of the macro distribution. */
  datatype Macro = Macro(name: string, value: int, calories: int)

  /** `macroData`: the week's grams of protein, carbs and fats with their
      calories at 4, 4 and 9 kcal per gram, in that order. */
  function MacroData(chart: seq<CaloriePoint>): (r: seq<Macro>)
    ensures |r| == 3
    ensures r[0].name == "Protein" && r[1].name == "Carbs" && r[2].name == "Fats"
    ensures r[0].calories == 4 * r[0].value && r[1].calories == 4 * r[1].value && r[2].calories == 9 * r[2].value
    ensures r[0].value == SumBy(chart, ProteinOr0) && r[1].value == SumBy(chart, CarbsOr0)
         && r[2].value == SumBy(chart, FatsOr0)
  {
    var protein := SumBy(chart, ProteinOr0);
    var carbs := SumBy(chart, CarbsOr0);
    var fats := SumBy(chart, FatsOr0);
    [Macro("Protein", protein, protein * 4), Macro("Carbs", carbs, carbs * 4), Macro("Fats", fats, fats * 9)]
  }

  /** The macro calories of the week add up to 4 kcal per gram of protein and
      carbs and 9 per gram of fat, summed over the days. */
  lemma MacroCaloriesTotal(chart: seq<CaloriePoint>)
    ensures var r := MacroData(chart);
      r[0].calories + r[1].calories + r[2].calories
        == SumBy(chart, (d: CaloriePoint) => 4 * ProteinOr0(d) + 4 * CarbsOr0(d) + 9 * FatsOr0(d))
  {
    MacroSumLinear(chart);
  }

  lemma {:induction false} MacroSumLinear(chart: seq<CaloriePoint>)
    ensures 4 * SumBy(chart, ProteinOr0) + 4 * SumBy(chart, CarbsOr0) + 9 * SumBy(chart, FatsOr0)
         == SumBy(chart, (d: CaloriePoint) => 4 * ProteinOr0(d) + 4 * CarbsOr0(d) + 9 * FatsOr0(d))
  {
    if chart != [] {
      MacroSumLinear(chart[1..]);
    }
  }

  /** `macroData.some(d => d.value > 0)`: the distribution panel is shown. */
  predicate ShowDistribution(macros: seq<Macro>)
  {
    exists i :: 0 <= i < |macros| && macros[i].value > 0
  }

  /** The empty state: no calorie, exercise or weight points (water does not count). */
  predicate ShowEmptyState(weekly: Option<WeeklyJson>)
  {
    |CalorieChartData(weekly)| == 0 && |ExerciseChartData(weekly)| == 0 && |WeightChartData(weekly)| == 0
  }

  /** A macro value the server sends is never negative. */
  predicate NonNegativeMacros(chart: seq<CaloriePoint>)
  {
    forall i :: 0 <= i < |chart| ==> ProteinOr0(chart[i]) >= 0 && CarbsOr0(chart[i]) >= 0 && FatsOr0(chart[i]) >= 0
  }

  /** The distribution panel shows exactly when some total is positive, and,
      for non-negative values, exactly when some day has a positive amount of
      some macro. */
  lemma DistributionShown(chart: seq<CaloriePoint>)
    ensures var r := MacroData(chart);
      ShowDistribution(r) <==> r[0].value > 0 || r[1].value > 0 || r[2].value > 0
    ensures NonNegativeMacros(chart) ==>
      (ShowDistribution(MacroData(chart)) <==>
         exists i :: 0 <= i < |chart| && (ProteinOr0(chart[i]) > 0 || CarbsOr0(chart[i]) > 0 || FatsOr0(chart[i]) > 0))
  {
    var r := MacroData(chart);
    if r[0].value > 0 || r[1].value > 0 || r[2].value > 0 {
      if r[0].value > 0 {
        assert r[0].value > 0;
      } else if r[1].value > 0 {
        assert r[1].value > 0;
      } else {
        assert r[2].value > 0;
      }
    }
    if NonNegativeMacros(chart) {
      SumByPositive(chart, ProteinOr0);
      SumByPositive(chart, CarbsOr0);
      SumByPositive(chart, FatsOr0);
    }
  }

  /** The empty state shows exactly when the reply did not come or its meal,
      exercise and weight series are all absent or empty; then the
      distribution panel is hidden too. */
  lemma EmptyStateShown(weekly: Option<WeeklyJson>)
    ensures ShowEmptyState(weekly) <==>
      weekly.None? ||
      ((weekly.value.meals.None? || weekly.value.meals.value == [])
       && (weekly.value.exercises.None? || weekly.value.exercises.value == [])
       && (weekly.value.weight.None? || weekly.value.weight.value == []))
    ensures ShowEmptyState(weekly) ==> !ShowDistribution(MacroData(CalorieChartData(weekly)))
  {
    if ShowEmptyState(weekly) {
      var r := MacroData(CalorieChartData(weekly));
      assert r[0].value == 0 && r[1].value == 0 && r[2].value == 0;
    }
  }
}
