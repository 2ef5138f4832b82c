/** The file-backed record store of the Express backend: five JSON files
    (meals, weight history, water log, exercises, the user profile) that each
    operation reads, changes and writes back, plus the period statistics
    computed over them. Each file is a field of `Store`; an operation is one
    atomic step on those fields. Time is in milliseconds since the epoch; a
    calendar date (`'YYYY-MM-DD'`) is a day number, whose midnight is
    `day * DAY_MS`. Fresh ids (`uuidv4()`) and the clock are parameters. */
module DataService {
  import opened Common

  const DAY_MS: int := 24 * 60 * 60 * 1000

  // ------------------------------------------------------------ profile

  /** The JSON scalars a profile value can hold. */
  datatype Json = JNull | JBool(b: bool) | JNum(n: int) | JStr(s: string)

  /** JavaScript truthiness of a JSON scalar. */
  predicate Truthy(v: Json)
  {
    match v
    case JNull => false
    case JBool(b) => b
    case JNum(n) => n != 0
    case JStr(s) => s != ""
  }

  type Profile = map<string, Json>

  /** `profile.key || d`: an absent key and a falsy value both give `d`. */
  function ProfileOr(p: Profile, key: string, d: Json): Json
  {
    if key in p && Truthy(p[key]) then p[key] else d
  }

  /** The profile written when the profile file is first created. */
  function DefaultProfile(): Profile
  {
    map["name" := JStr(""), "age" := JNull, "gender" := JStr(""), "height" := JNull,
        "targetWeight" := JNull, "dailyCalorieGoal" := JNum(2000),
        "dailyWaterGoal" := JNum(8), "activityLevel" := JStr("moderate")]
  }

  /** `{ ...profile, ...updates }`: every key of either object, with the value
      from `updates` where both have the key. */
  function Merge(profile: Profile, updates: Profile): (r: Profile)
    ensures r.Keys == profile.Keys + updates.Keys
    ensures forall k :: k in updates ==> r[k] == updates[k]
    ensures forall k :: k in profile && k !in updates ==> r[k] == profile[k]
  {
    profile + updates
  }

  /** Merging the same updates twice is merging them once. */
  lemma MergeIdempotent(profile: Profile, updates: Profile)
    ensures Merge(Merge(profile, updates), updates) == Merge(profile, updates)
  {
  }

  // -------------------------------------------------------------- meals

  datatype Meal = Meal(
    id: string, timestamp: int, mealType: string, foodItems: seq<string>,
    calories: int, protein: int, carbs: int, fats: int, fiber: int, sugar: int,
    servingSize: string, imageUrl: Option<string>, driveUrl: Option<string>, notes: string)

  /** The request body of a new meal; every field may be missing. */
  datatype MealInput = MealInput(
    timestamp: Option<int>, mealType: Option<string>, foodItems: Option<seq<string>>,
    calories: Option<int>, protein: Option<int>, carbs: Option<int>, fats: Option<int>,
    fiber: Option<int>, sugar: Option<int>, servingSize: Option<string>,
    imageUrl: Option<string>, driveUrl: Option<string>, notes: Option<string>)

  /** `s || null` on a string: the empty string becomes null. */
  function NonEmpty(s: Option<string>): Option<string>
  {
    if s.Some? && s.value != "" then s else None
  }

  /** The record `addMeal` stores, each field defaulted by `||`. A timestamp,
      once given, is an ISO string and so always truthy; an array, even empty,
      is truthy too. */
  function NewMeal(d: MealInput, id: string, now: int): Meal
  {
    Meal(id, if d.timestamp.Some? then d.timestamp.value else now,
         OrStr(d.mealType, "snack"), if d.foodItems.Some? then d.foodItems.value else [],
         OrNum(d.calories, 0), OrNum(d.protein, 0), OrNum(d.carbs, 0), OrNum(d.fats, 0),
         OrNum(d.fiber, 0), OrNum(d.sugar, 0), OrStr(d.servingSize, ""),
         NonEmpty(d.imageUrl), NonEmpty(d.driveUrl), OrStr(d.notes, ""))
  }

  /** What a new meal holds: the given timestamp or now, the given meal type or
      'snack', the given food items or none, each given number or 0, and the
      given text or the empty string. */
  lemma NewMealFields(d: MealInput, id: string, now: int)
    ensures var m := NewMeal(d, id, now);
      && m.id == id
      && m.timestamp == (if d.timestamp.Some? then d.timestamp.value else now)
      && m.mealType == (if d.mealType.Some? && d.mealType.value != "" then d.mealType.value else "snack")
      && m.foodItems == (if d.foodItems.Some? then d.foodItems.value else [])
      && m.calories == (if d.calories.Some? then d.calories.value else 0)
      && m.protein == (if d.protein.Some? then d.protein.value else 0)
      && m.carbs == (if d.carbs.Some? then d.carbs.value else 0)
      && m.fats == (if d.fats.Some? then d.fats.value else 0)
      && m.fiber == (if d.fiber.Some? then d.fiber.value else 0)
      && m.sugar == (if d.sugar.Some? then d.sugar.value else 0)
      && (m.imageUrl.Some? ==> m.imageUrl == d.imageUrl && m.imageUrl.value != "")
      && (m.driveUrl.Some? ==> m.driveUrl == d.driveUrl && m.driveUrl.value != "")
  {
    OrZeroIsValue(d.calories);
    OrZeroIsValue(d.protein);
    OrZeroIsValue(d.carbs);
    OrZeroIsValue(d.fats);
    OrZeroIsValue(d.fiber);
    OrZeroIsValue(d.sugar);
  }

  /** The `start <= t <= end` test of `getMeals` and `getExercises`: a missing
      start is the epoch, a missing end is now. */
  predicate InRange(t: int, startDate: Option<int>, endDate: Option<int>, now: int)
  {
    (if startDate.Some? then startDate.value else 0) <= t
      && t <= (if endDate.Some? then endDate.value else now)
  }

  function MealInRange(startDate: Option<int>, endDate: Option<int>, now: int): Meal -> bool
  {
    (m: Meal) => InRange(m.timestamp, startDate, endDate, now)
  }

  function MealIdIsNot(id: string): Meal -> bool
  {
    (m: Meal) => m.id != id
  }

  /** `deleteMeal`: the meals whose id differs, in their order; every copy of a
      meal with that id goes, every other meal stays. */
  function WithoutMeal(meals: seq<Meal>, id: string): (r: seq<Meal>)
    ensures forall m :: multiset(r)[m] == if m.id != id then multiset(meals)[m] else 0
    ensures IsSubsequence(r, meals)
    ensures forall i :: 0 <= i < |r| ==> r[i].id != id
  {
    FilterMultiset(meals, MealIdIsNot(id));
    var r := Filter(meals, MealIdIsNot(id));
    assert forall i :: 0 <= i < |r| ==> r[i] in r;
    r
  }

  /** Deleting a meal that was just added under a fresh id restores the list. */
  lemma AddThenDelete(meals: seq<Meal>, d: MealInput, id: string, now: int)
    requires forall i :: 0 <= i < |meals| ==> meals[i].id != id
    ensures WithoutMeal(meals + [NewMeal(d, id, now)], id) == meals
  {
    FilterAppend(meals, [NewMeal(d, id, now)], MealIdIsNot(id));
    FilterAll(meals, MealIdIsNot(id));
  }

  /** Deleting twice is deleting once. */
  lemma DeleteIdempotent(meals: seq<Meal>, id: string)
    ensures WithoutMeal(WithoutMeal(meals, id), id) == WithoutMeal(meals, id)
  {
    var r := WithoutMeal(meals, id);
    FilterAll(r, MealIdIsNot(id));
  }

  // ---------------------------------------------------------- exercises

  datatype Exercise = Exercise(
    id: string, timestamp: int, kind: string, name: string, duration: int,
    caloriesBurned: int, distance: Option<int>, notes: string)

  datatype ExerciseInput = ExerciseInput(
    timestamp: Option<int>, kind: Option<string>, name: Option<string>, duration: Option<int>,
    caloriesBurned: Option<int>, distance: Option<int>, notes: Option<string>)

  /** The record `addExercise` stores. */
  function NewExercise(d: ExerciseInput, id: string, now: int): Exercise
  {
    Exercise(id, if d.timestamp.Some? then d.timestamp.value else now,
             OrStr(d.kind, "other"), OrStr(d.name, ""), OrNum(d.duration, 0),
             OrNum(d.caloriesBurned, 0),
             if d.distance.Some? && d.distance.value != 0 then d.distance else None,
             OrStr(d.notes, ""))
  }

  /** What a new exercise holds: type 'other', name '', duration and calories 0
      when missing, and a distance only when one is given and not 0. */
  lemma NewExerciseFields(d: ExerciseInput, id: string, now: int)
    ensures var e := NewExercise(d, id, now);
      && e.id == id
      && e.timestamp == (if d.timestamp.Some? then d.timestamp.value else now)
      && e.kind == (if d.kind.Some? && d.kind.value != "" then d.kind.value else "other")
      && e.duration == (if d.duration.Some? then d.duration.value else 0)
      && e.caloriesBurned == (if d.caloriesBurned.Some? then d.caloriesBurned.value else 0)
      && (e.distance.Some? <==> d.distance.Some? && d.distance.value != 0)
  {
    OrZeroIsValue(d.duration);
    OrZeroIsValue(d.caloriesBurned);
  }

  function ExerciseInRange(startDate: Option<int>, endDate: Option<int>, now: int): Exercise -> bool
  {
    (e: Exercise) => InRange(e.timestamp, startDate, endDate, now)
  }

  // ------------------------------------------------------------- weight

  /** One weigh-in; `weight` is copied from the request as it is, so it may be missing. */
  datatype WeightEntry = WeightEntry(id: string, date: int, weight: Option<int>, unit: string, notes: string)

  datatype WeightInput = WeightInput(date: Option<int>, weight: Option<int>, unit: Option<string>, notes: Option<string>)

  function WeightDay(e: WeightEntry): int
  {
    e.date
  }

  function NewWeight(d: WeightInput, id: string, today: int): WeightEntry
  {
    WeightEntry(id, if d.date.Some? then d.date.value else today, d.weight,
                OrStr(d.unit, "kg"), OrStr(d.notes, ""))
  }

  function OnDay(day: int): WeightEntry -> bool
  {
    (e: WeightEntry) => e.date == day
  }

  /** `history.push(e); history.sort(by date)`: the history grows by exactly
      the new entry and is sorted by date; an entry for a date already present
      is added beside the old one, never merged with it, and goes after every
      entry of the same or an earlier date. */
  lemma WeightAdded(history: seq<WeightEntry>, e: WeightEntry)
    requires SortedBy(history, WeightDay)
    ensures var r := SortBy(history + [e], WeightDay);
      && |r| == |history| + 1
      && SortedBy(r, WeightDay)
      && multiset(r) == multiset(history) + multiset{e}
      && |Filter(r, OnDay(e.date))| == |Filter(history, OnDay(e.date))| + 1
      && r == InsertBy(history, e, WeightDay)
  {
    var r := SortBy(history + [e], WeightDay);
    FilterAppend(history, [e], OnDay(e.date));
    FilterCountPermutation(r, history + [e], OnDay(e.date));
    SortAfterAppend(history, e, WeightDay);
  }

  // -------------------------------------------------------------- water

  /** The glasses drunk on one calendar day. */
  datatype WaterEntry = WaterEntry(id: string, date: int, glasses: int, timestamp: int)

  datatype WaterInput = WaterInput(date: Option<int>, glasses: Option<int>)

  function WaterOn(day: int): WaterEntry -> bool
  {
    (w: WaterEntry) => w.date == day
  }

  /** `water.find(w => w.date === date)`: the index of the first entry for the day. */
  function FirstOnDay(water: seq<WaterEntry>, day: int): (r: Option<nat>)
    ensures r.Some? ==> r.value < |water| && water[r.value].date == day
    ensures r.Some? ==> forall j :: 0 <= j < r.value ==> water[j].date != day
    ensures r.None? ==> forall j :: 0 <= j < |water| ==> water[j].date != day
  {
    if water == [] then None
    else if water[0].date == day then Some(0)
    else match FirstOnDay(water[1..], day)
      case None => None
      case Some(i) => Some(i + 1)
  }

  /** The water log after `addWaterIntake` of `amount` glasses on `day`: the
      first entry of the day is updated in place, or a new entry is appended. */
  function WaterAfter(water: seq<WaterEntry>, day: int, amount: int, id: string, now: int): seq<WaterEntry>
  {
    match FirstOnDay(water, day)
    case Some(i) => water[i := water[i].(glasses := water[i].glasses + amount, timestamp := now)]
    case None => water + [WaterEntry(id, day, amount, now)]
  }

  function Glasses(w: WaterEntry): int
  {
    w.glasses
  }

  /** The glasses logged on `day`, over every entry of that day. */
  function GlassesOn(water: seq<WaterEntry>, day: int): int
  {
    SumBy(water, When(WaterOn(day), Glasses))
  }

  /** Adding water accumulates: the day's total grows by the amount, every
      other day's total stays, every entry of another day stays where it was,
      and a new entry appears only when the day had none. */
  lemma WaterAccumulates(water: seq<WaterEntry>, day: int, amount: int, id: string, now: int)
    ensures var r := WaterAfter(water, day, amount, id, now);
      && GlassesOn(r, day) == GlassesOn(water, day) + amount
      && (forall other :: other != day ==> GlassesOn(r, other) == GlassesOn(water, other))
      && (forall j :: 0 <= j < |water| && water[j].date != day ==> r[j] == water[j])
      && |r| == |water| + (if FirstOnDay(water, day).Some? then 0 else 1)
  {
    var r := WaterAfter(water, day, amount, id, now);
    match FirstOnDay(water, day)
    case Some(i) =>
      var w := water[i].(glasses := water[i].glasses + amount, timestamp := now);
      assert r == water[i := w];
      SumByUpdate(water, i, w, When(WaterOn(day), Glasses));
      forall other | other != day
        ensures GlassesOn(r, other) == GlassesOn(water, other)
      {
        SumByUpdate(water, i, w, When(WaterOn(other), Glasses));
      }
    case None =>
      var w := WaterEntry(id, day, amount, now);
      SumByAppend(water, [w], When(WaterOn(day), Glasses));
      forall other | other != day
        ensures GlassesOn(r, other) == GlassesOn(water, other)
      {
        SumByAppend(water, [w], When(WaterOn(other), Glasses));
      }
  }

  /** After adding water, the entries of the day hold the old total plus the
      amount: this is what `getWaterIntake(day)` reads back. */
  lemma WaterReadBack(water: seq<WaterEntry>, day: int, amount: int, id: string, now: int)
    ensures SumBy(Filter(WaterAfter(water, day, amount, id, now), WaterOn(day)), Glasses)
         == SumBy(Filter(water, WaterOn(day)), Glasses) + amount
  {
    WaterAccumulates(water, day, amount, id, now);
    SumFilter(WaterAfter(water, day, amount, id, now), WaterOn(day), Glasses);
    SumFilter(water, WaterOn(day), Glasses);
  }

  // -------------------------------------------------------------- stats

  /** The clock at the moment of the call: now, local midnight of today and of
      the first of this month, all in milliseconds. */
  datatype Clock = Clock(now: int, dayStart: int, monthStart: int)

  predicate ValidClock(c: Clock)
  {
    c.dayStart <= c.now && c.monthStart <= c.dayStart && c.now - DAY_MS < c.dayStart
  }

  /** The start of the statistics window. */
  function WindowStart(period: string, c: Clock): (start: int)
    ensures period == "day" ==> start == c.dayStart
    ensures period == "month" ==> start == c.monthStart
    ensures period != "day" && period != "month" ==> start == c.now - 7 * DAY_MS
  {
    match period
    case "day" => c.dayStart
    case "week" => c.now - 7 * DAY_MS
    case "month" => c.monthStart
    case _ => c.now - 7 * DAY_MS
  }

  /** The averaging denominator: whole days from the window start to now, at least 1. */
  function Days(start: int, now: int): (d: int)
    ensures d >= 1
    ensures start < now ==> DAY_MS * (d - 1) < now - start <= DAY_MS * d
    ensures now <= start ==> d == 1
  {
    var c := CeilDiv(now - start, DAY_MS);
    if c < 1 then 1 else c
  }

  /** One day's window divides by 1 and the week's by 7. */
  lemma DaysOfPeriods(c: Clock)
    requires ValidClock(c)
    ensures Days(WindowStart("day", c), c.now) == 1
    ensures Days(WindowStart("week", c), c.now) == 7
    ensures Days(WindowStart("month", c), c.now) >= 1
  {
    var w := Days(c.now - 7 * DAY_MS, c.now);
    assert DAY_MS * (w - 1) < 7 * DAY_MS <= DAY_MS * w;
  }

  function MealSince(start: int): Meal -> bool
  {
    (m: Meal) => m.timestamp >= start
  }

  function ExerciseSince(start: int): Exercise -> bool
  {
    (e: Exercise) => e.timestamp >= start
  }

  /** A water entry's date, read as UTC midnight, is not before the start. */
  function WaterSince(start: int): WaterEntry -> bool
  {
    (w: WaterEntry) => w.date * DAY_MS >= start
  }

  function MealCalories(m: Meal): int { m.calories }
  function MealProtein(m: Meal): int { m.protein }
  function MealCarbs(m: Meal): int { m.carbs }
  function MealFats(m: Meal): int { m.fats }
  function MealFiber(m: Meal): int { m.fiber }
  function Burned(e: Exercise): int { e.caloriesBurned }

  datatype Stats = Stats(
    period: string, startDate: int, endDate: int,
    totalCalories: int, totalProtein: int, totalCarbs: int, totalFats: int, totalFiber: int,
    caloriesBurned: int, netCalories: int,
    avgDailyCalories: int, avgDailyProtein: int, avgDailyCarbs: int, avgDailyFats: int,
    totalWaterGlasses: int, avgDailyWater: int,
    dailyCalorieGoal: Json, dailyWaterGoal: Json, mealCount: int, exerciseCount: int)

  /** `getStats(period)` over the stored lists. A missing period is 'week'. */
  function StatsOf(meals: seq<Meal>, exercises: seq<Exercise>, water: seq<WaterEntry>,
                   profile: Profile, periodArg: Option<string>, c: Clock): (s: Stats)
    ensures s.startDate == WindowStart(s.period, c) && s.endDate == c.now
    ensures s.period == if periodArg.Some? then periodArg.value else "week"
    ensures s.netCalories == s.totalCalories - s.caloriesBurned
    ensures RoundsTo(s.totalCalories, Days(s.startDate, c.now), s.avgDailyCalories)
    ensures RoundsTo(s.totalProtein, Days(s.startDate, c.now), s.avgDailyProtein)
    ensures RoundsTo(s.totalCarbs, Days(s.startDate, c.now), s.avgDailyCarbs)
    ensures RoundsTo(s.totalFats, Days(s.startDate, c.now), s.avgDailyFats)
    ensures RoundsTo(s.totalWaterGlasses, Days(s.startDate, c.now), s.avgDailyWater)
    ensures s.dailyCalorieGoal == ProfileOr(profile, "dailyCalorieGoal", JNum(2000))
    ensures s.dailyWaterGoal == ProfileOr(profile, "dailyWaterGoal", JNum(8))
    ensures s.mealCount == |Filter(meals, MealSince(s.startDate))|
    ensures s.exerciseCount == |Filter(exercises, ExerciseSince(s.startDate))|
    ensures s.totalCalories == SumBy(meals, When(MealSince(s.startDate), MealCalories))
    ensures s.totalProtein == SumBy(meals, When(MealSince(s.startDate), MealProtein))
    ensures s.totalCarbs == SumBy(meals, When(MealSince(s.startDate), MealCarbs))
    ensures s.totalFats == SumBy(meals, When(MealSince(s.startDate), MealFats))
    ensures s.totalFiber == SumBy(meals, When(MealSince(s.startDate), MealFiber))
    ensures s.caloriesBurned == SumBy(exercises, When(ExerciseSince(s.startDate), Burned))
    ensures s.totalWaterGlasses == SumBy(water, When(WaterSince(s.startDate), Glasses))
  {
    var period := if periodArg.Some? then periodArg.value else "week";
    var start := WindowStart(period, c);
    var pm := Filter(meals, MealSince(start));
    var pe := Filter(exercises, ExerciseSince(start));
    var pw := Filter(water, WaterSince(start));
    SumFilter(meals, MealSince(start), MealCalories);
    SumFilter(meals, MealSince(start), MealProtein);
    SumFilter(meals, MealSince(start), MealCarbs);
    SumFilter(meals, MealSince(start), MealFats);
    SumFilter(meals, MealSince(start), MealFiber);
    SumFilter(exercises, ExerciseSince(start), Burned);
    SumFilter(water, WaterSince(start), Glasses);
    var totalCalories := SumBy(pm, MealCalories);
    var totalProtein := SumBy(pm, MealProtein);
    var totalCarbs := SumBy(pm, MealCarbs);
    var totalFats := SumBy(pm, MealFats);
    var totalFiber := SumBy(pm, MealFiber);
    var burned := SumBy(pe, Burned);
    var glasses := SumBy(pw, Glasses);
    var days := Days(start, c.now);
    Stats(period, start, c.now, totalCalories, totalProtein, totalCarbs, totalFats, totalFiber,
          burned, totalCalories - burned,
          RoundDiv(totalCalories, days), RoundDiv(totalProtein, days),
          RoundDiv(totalCarbs, days), RoundDiv(totalFats, days),
          glasses, RoundDiv(glasses, days),
          ProfileOr(profile, "dailyCalorieGoal", JNum(2000)),
          ProfileOr(profile, "dailyWaterGoal", JNum(8)),
          |pm|, |pe|)
  }

  /** The window has no upper bound: a meal stamped at or after the window
      start, even one in the future, adds one to the meal count and its
      calories to the total; a meal before the start changes neither. */
  lemma StatsAddMeal(meals: seq<Meal>, exercises: seq<Exercise>, water: seq<WaterEntry>,
                     profile: Profile, period: Option<string>, c: Clock, m: Meal)
    ensures var before := StatsOf(meals, exercises, water, profile, period, c);
      var after := StatsOf(meals + [m], exercises, water, profile, period, c);
      && (m.timestamp >= before.startDate ==>
            after.mealCount == before.mealCount + 1
            && after.totalCalories == before.totalCalories + m.calories)
      && (m.timestamp < before.startDate ==>
            after.mealCount == before.mealCount && after.totalCalories == before.totalCalories)
  {
    var start := StatsOf(meals, exercises, water, profile, period, c).startDate;
    FilterAppend(meals, [m], MealSince(start));
    SumByAppend(meals, [m], When(MealSince(start), MealCalories));
  }

  /** In the same way, a future exercise is counted and its calories burned
      lower the net calories. */
  lemma StatsAddExercise(meals: seq<Meal>, exercises: seq<Exercise>, water: seq<WaterEntry>,
                         profile: Profile, period: Option<string>, c: Clock, e: Exercise)
    ensures var before := StatsOf(meals, exercises, water, profile, period, c);
      var after := StatsOf(meals, exercises + [e], water, profile, period, c);
      && (e.timestamp >= before.startDate ==>
            after.exerciseCount == before.exerciseCount + 1
            && after.netCalories == before.netCalories - e.caloriesBurned)
      && (e.timestamp < before.startDate ==>
            after.exerciseCount == before.exerciseCount && after.netCalories == before.netCalories)
  {
    var start := StatsOf(meals, exercises, water, profile, period, c).startDate;
    FilterAppend(exercises, [e], ExerciseSince(start));
    SumByAppend(exercises, [e], When(ExerciseSince(start), Burned));
  }

  /** With nothing stored the totals and counts are 0 and the goals come from
      the profile, or 2000 kcal and 8 glasses when it has none. */
  lemma StatsEmpty(period: Option<string>, c: Clock)
    ensures var s := StatsOf([], [], [], map[], period, c);
      && s.totalCalories == 0 && s.caloriesBurned == 0 && s.netCalories == 0
      && s.avgDailyCalories == 0 && s.mealCount == 0 && s.exerciseCount == 0
      && s.dailyCalorieGoal == JNum(2000) && s.dailyWaterGoal == JNum(8)
  {
    var s := StatsOf([], [], [], map[], period, c);
    RoundsZero(Days(s.startDate, c.now), s.avgDailyCalories);
  }

  // -------------------------------------------------------------- store

  /** The five JSON files. */
  class Store {
    var meals: seq<Meal>
    var weights: seq<WeightEntry>
    var profile: Profile
    var water: seq<WaterEntry>
    var exercises: seq<Exercise>

    /** The weight history is kept sorted by date. */
    predicate Valid()
      reads this
    {
      SortedBy(weights, WeightDay)
    }

    /** The files as first created: empty lists and the default profile. */
    constructor ()
      ensures Valid()
      ensures meals == [] && weights == [] && water == [] && exercises == []
      ensures profile == DefaultProfile()
    {
      meals := [];
      weights := [];
      profile := DefaultProfile();
      water := [];
      exercises := [];
    }

    /** `getMeals`: with no bounds the stored list; otherwise exactly the meals
        with `start <= timestamp <= end`, in stored order. */
    function GetMeals(startDate: Option<int>, endDate: Option<int>, now: int): (r: seq<Meal>)
      reads this
      ensures startDate.None? && endDate.None? ==> r == meals
      ensures startDate.Some? || endDate.Some? ==>
        forall m :: multiset(r)[m] == if InRange(m.timestamp, startDate, endDate, now) then multiset(meals)[m] else 0
      ensures IsSubsequence(r, meals)
    {
      if startDate.None? && endDate.None? then
        IsSubsequenceRefl(meals);
        meals
      else
        FilterMultiset(meals, MealInRange(startDate, endDate, now));
        Filter(meals, MealInRange(startDate, endDate, now))
    }

    /** `getExercises`: the same window as `getMeals`, over exercises. */
    function GetExercises(startDate: Option<int>, endDate: Option<int>, now: int): (r: seq<Exercise>)
      reads this
      ensures startDate.None? && endDate.None? ==> r == exercises
      ensures startDate.Some? || endDate.Some? ==>
        forall e :: multiset(r)[e] == if InRange(e.timestamp, startDate, endDate, now) then multiset(exercises)[e] else 0
      ensures IsSubsequence(r, exercises)
    {
      if startDate.None? && endDate.None? then
        IsSubsequenceRefl(exercises);
        exercises
      else
        FilterMultiset(exercises, ExerciseInRange(startDate, endDate, now));
        Filter(exercises, ExerciseInRange(startDate, endDate, now))
    }

    /** `getWaterIntake`: the entries of one day, or all of them without a date. */
    function GetWaterIntake(date: Option<int>): (r: seq<WaterEntry>)
      reads this
      ensures date.None? ==> r == water
      ensures date.Some? ==> forall w :: multiset(r)[w] == if w.date == date.value then multiset(water)[w] else 0
      ensures date.Some? ==> IsSubsequence(r, water)
    {
      if date.None? then water
      else
        FilterMultiset(water, WaterOn(date.value));
        Filter(water, WaterOn(date.value))
    }

    /** `getStats`. */
    function GetStats(period: Option<string>, c: Clock): (s: Stats)
      reads this
      ensures s == StatsOf(meals, exercises, water, profile, period, c)
    {
      StatsOf(meals, exercises, water, profile, period, c)
    }

    method AddMeal(d: MealInput, id: string, now: int) returns (m: Meal)
      requires Valid()
      modifies this
      ensures Valid()
      ensures m == NewMeal(d, id, now) && meals == old(meals) + [m]
      ensures weights == old(weights) && profile == old(profile)
      ensures water == old(water) && exercises == old(exercises)
    {
      m := NewMeal(d, id, now);
      meals := meals + [m];
    }

    method DeleteMeal(id: string)
      requires Valid()
      modifies this
      ensures Valid()
      ensures meals == WithoutMeal(old(meals), id)
      ensures weights == old(weights) && profile == old(profile)
      ensures water == old(water) && exercises == old(exercises)
    {
      meals := WithoutMeal(meals, id);
    }

    method AddWeightEntry(d: WeightInput, id: string, today: int) returns (e: WeightEntry)
      requires Valid()
      modifies this
      ensures Valid()
      ensures e == NewWeight(d, id, today)
      ensures weights == SortBy(old(weights) + [e], WeightDay)
      ensures weights == InsertBy(old(weights), e, WeightDay)
      ensures meals == old(meals) && profile == old(profile)
      ensures water == old(water) && exercises == old(exercises)
    {
      e := NewWeight(d, id, today);
      var history := weights;
      var sorted := SortBy(history + [e], WeightDay);
      WeightAdded(history, e);
      assert sorted == InsertBy(history, e, WeightDay) && SortedBy(sorted, WeightDay);
      weights := sorted;
    }

    method UpdateUserProfile(updates: Profile) returns (r: Profile)
      requires Valid()
      modifies this
      ensures Valid()
      ensures r == Merge(old(profile), updates) && profile == r
      ensures meals == old(meals) && weights == old(weights)
      ensures water == old(water) && exercises == old(exercises)
    {
      r := Merge(profile, updates);
      profile := r;
    }

    /** `addWaterIntake`: the date defaults to today and the amount to 1 glass;
        the result is the updated or the new entry. */
    method AddWaterIntake(d: WaterInput, id: string, now: int, today: int) returns (w: WaterEntry)
      requires Valid()
      modifies this
      ensures Valid()
      ensures var day := if d.date.Some? then d.date.value else today;
        && water == WaterAfter(old(water), day, OrNum(d.glasses, 1), id, now)
        && w.date == day && w.timestamp == now && w in water
        && (FirstOnDay(old(water), day).None? ==> w == water[|water| - 1] && w.id == id)
        && (FirstOnDay(old(water), day).Some? ==>
              var i := FirstOnDay(old(water), day).value;
              && i < |water| && w == water[i] && w.id == old(water)[i].id
              && w.glasses == old(water)[i].glasses + OrNum(d.glasses, 1))
      ensures meals == old(meals) && weights == old(weights)
      ensures profile == old(profile) && exercises == old(exercises)
    {
      var day := if d.date.Some? then d.date.value else today;
      var amount := OrNum(d.glasses, 1);
      var found := FirstOnDay(water, day);
      water := WaterAfter(water, day, amount, id, now);
      if found.Some? {
        w := water[found.value];
      } else {
        w := water[|water| - 1];
      }
    }

    method AddExercise(d: ExerciseInput, id: string, now: int) returns (e: Exercise)
      requires Valid()
      modifies this
      ensures Valid()
      ensures e == NewExercise(d, id, now) && exercises == old(exercises) + [e]
      ensures meals == old(meals) && weights == old(weights)
      ensures profile == old(profile) && water == old(water)
    {
      e := NewExercise(d, id, now);
      exercises := exercises + [e];
    }
  }

  /** A meal added to the store is read back by `getMeals` without bounds, and
      by any window that contains its timestamp. */
  lemma AddedMealReadBack(meals: seq<Meal>, d: MealInput, id: string, now: int,
                          startDate: Option<int>, endDate: Option<int>)
    requires InRange(NewMeal(d, id, now).timestamp, startDate, endDate, now)
    ensures NewMeal(d, id, now) in Filter(meals + [NewMeal(d, id, now)], MealInRange(startDate, endDate, now))
  {
  }
}
