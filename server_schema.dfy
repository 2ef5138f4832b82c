/** The rows of the SQLite tables behind the `server/` routes. Dates
    (`meal_date`, `entry_date`) are day numbers; REAL columns are integers. */
module ServerSchema {
  import opened Common

  /** The goal columns of `users`; each is nullable with a column default. */
  datatype UserRow = UserRow(
    id: int, dailyCalorieGoal: Option<int>, dailyProteinGoal: Option<int>,
    dailyCarbsGoal: Option<int>, dailyFatsGoal: Option<int>, dailyWaterGoal: Option<int>)

  datatype MealRow = MealRow(
    id: int, userId: int, calories: int, protein: int, carbs: int, fats: int, mealDate: int)

  datatype WaterRow = WaterRow(id: int, userId: int, glasses: int, entryDate: int)

  datatype ExerciseRow = ExerciseRow(
    id: int, userId: int, duration: int, caloriesBurned: int, entryDate: int)

  datatype WeightRow = WeightRow(id: int, userId: int, weight: int, entryDate: int)

  /** A user row as `INSERT` leaves it when no goal is given. */
  function NewUser(id: int): UserRow
  {
    UserRow(id, Some(2000), Some(150), Some(200), Some(65), Some(8))
  }

  function Calories(m: MealRow): int { m.calories }
  function Protein(m: MealRow): int { m.protein }
  function Carbs(m: MealRow): int { m.carbs }
  function Fats(m: MealRow): int { m.fats }
  function MealDate(m: MealRow): int { m.mealDate }

  function Duration(e: ExerciseRow): int { e.duration }
  function Burned(e: ExerciseRow): int { e.caloriesBurned }
  function ExerciseDate(e: ExerciseRow): int { e.entryDate }

  function WaterDate(w: WaterRow): int { w.entryDate }

  /** `water_intake … WHERE user_id = ? AND entry_date = ?`. */
  function WaterOn(userId: int, day: int): WaterRow -> bool
  {
    (w: WaterRow) => w.userId == userId && w.entryDate == day
  }
  function WeightDate(w: WeightRow): int { w.entryDate }
}
