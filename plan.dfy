/** The plan routes of the backend (backend/app/routes/plan.py): the
    Mifflin-St Jeor BMR, the TDEE multiplier table, the goal adjustment, the
    static 7-day meal and workout tables, plan generation with its profile
    guard, model loop and static fallback, the wellness score, and recipe
    generation. */
module Plan {
  import opened Common
  import opened Models
  import opened LlmReply

  /** `calculate_bmr`: exact, since 6.25 is a dyadic rational; the default
      gender is "male". */
  function CalculateBmr(weight: int, height: int, age: int, gender: string := "male"): real {
    if gender == "male" then 10.0 * weight as real + 6.25 * height as real - 5.0 * age as real + 5.0
    else 10.0 * weight as real + 6.25 * height as real - 5.0 * age as real - 161.0
  }

  /** Four times the BMR is the integer 40w + 25h - 20a + 20 for "male", and
      every other gender gets the same value less 166. */
  lemma BmrInQuarters(weight: int, height: int, age: int, gender: string)
    ensures 4.0 * CalculateBmr(weight, height, age) == (40 * weight + 25 * height - 20 * age + 20) as real
    ensures gender != "male" ==>
      CalculateBmr(weight, height, age, gender) == CalculateBmr(weight, height, age) - 166.0
  {
  }

  /** BMR grows with weight and height and falls with age. */
  lemma BmrMonotone(w1: int, w2: int, h1: int, h2: int, a1: int, a2: int, gender: string)
    requires w1 <= w2 && h1 <= h2 && a2 <= a1
    ensures CalculateBmr(w1, h1, a1, gender) <= CalculateBmr(w2, h2, a2, gender)
  {
  }

  /** The `multipliers` table of `calculate_tdee`. */
  const Multipliers: map<string, real> := map[
    "sedentary" := 1.2, "light" := 1.375, "moderate" := 1.55,
    "very_active" := 1.725, "extra_active" := 1.9]

  /** `multipliers.get(activity_level, 1.55)`. */
  function Multiplier(activityLevel: string): (m: real)
    ensures activityLevel in Multipliers ==> m == Multipliers[activityLevel]
    ensures activityLevel !in Multipliers ==> m == 1.55
  {
    if activityLevel in Multipliers then Multipliers[activityLevel] else 1.55
  }

  /** `calculate_tdee`. The product `bmr * multiplier` in binary floating
      point followed by `int()` is the parameter `floatMulTrunc`. */
  function CalculateTdee(bmr: real, activityLevel: string, floatMulTrunc: (real, real) -> int): int {
    floatMulTrunc(bmr, Multiplier(activityLevel))
  }

  /** A level outside the table is treated exactly as "moderate". */
  lemma UnknownLevelIsModerate(bmr: real, activityLevel: string, floatMulTrunc: (real, real) -> int)
    requires activityLevel !in Multipliers
    ensures CalculateTdee(bmr, activityLevel, floatMulTrunc) == CalculateTdee(bmr, "moderate", floatMulTrunc)
  {
  }

  /** The multipliers rise strictly from "sedentary" to "extra_active"; each
      lies between 1.2 and 1.9. */
  lemma MultipliersOrdered()
    ensures Multiplier("sedentary") < Multiplier("light") < Multiplier("moderate")
      < Multiplier("very_active") < Multiplier("extra_active")
    ensures forall level :: 1.2 <= Multiplier(level) <= 1.9
  {
  }

  /** `adjust_calories_for_goal`. */
  function AdjustCaloriesForGoal(tdee: int, goal: string): int {
    if goal == "lose" then tdee - 500
    else if goal == "gain" then tdee + 300
    else tdee
  }

  /** A 500 kcal deficit for "lose", a 300 kcal surplus for "gain", and the
      TDEE itself for every other goal. */
  lemma GoalAdjustment(tdee: int, goal: string)
    ensures AdjustCaloriesForGoal(tdee, "lose") == tdee - 500
    ensures AdjustCaloriesForGoal(tdee, "gain") == tdee + 300
    ensures goal != "lose" && goal != "gain" ==> AdjustCaloriesForGoal(tdee, goal) == tdee
    ensures AdjustCaloriesForGoal(tdee, "lose") < AdjustCaloriesForGoal(tdee, goal)
      || AdjustCaloriesForGoal(tdee, "lose") == AdjustCaloriesForGoal(tdee, goal)
  {
  }

  /** One entry of a static meal table. */
  datatype MealDay = MealDay(day: int, breakfast: string, lunch: string, dinner: string)

  /** One entry of a static workout table. */
  datatype WorkoutDay = WorkoutDay(day: int, workout: string, duration: int)

  const VeganMeals: seq<MealDay> := [
    MealDay(1, "Harissa Shakshuka with chickpeas", "Couscous with roasted vegetables", "Tunisian lentil soup (Chorba)"),
    MealDay(2, "Olive oil flatbread with zaatar", "Stuffed peppers with quinoa", "Mechouia salad with chickpeas"),
    MealDay(3, "Tunisian chickpea stew", "Grilled eggplant with tahini", "Couscous with seven vegetables"),
    MealDay(4, "Whole grain msemen with honey", "Tunisian vegetable tajine", "Lentil salad with harissa dressing"),
    MealDay(5, "Fresh figs with almonds", "Brik with vegetables (no egg)", "White bean stew with harissa"),
    MealDay(6, "Tunisian chickpea soup", "Grilled vegetables with couscous", "Mechouia with olive oil"),
    MealDay(7, "Dates with nuts and mint tea", "Mediterranean veggie wrap", "Tunisian vegetable stew")]

  const KetoMeals: seq<MealDay> := [
    MealDay(1, "Tunisian brik with egg and tuna", "Grilled sea bass with harissa", "Lamb kebabs with mechouia"),
    MealDay(2, "Shakshuka with merguez", "Grilled sardines with olive oil", "Lamb tajine with vegetables"),
    MealDay(3, "Cheese omelette with harissa", "Grilled octopus salad", "Tunisian grilled chicken"),
    MealDay(4, "Brik with egg and harissa", "Sea bream with lemon", "Merguez with mechouia salad"),
    MealDay(5, "Poached eggs with olive oil", "Grilled prawns with garlic", "Lamb chops with herbs"),
    MealDay(6, "Tunisian egg tajine", "Grilled tuna steak", "Chicken with preserved lemon"),
    MealDay(7, "Shakshuka with merguez", "Mixed seafood grill", "Lamb kofta with salad")]

  const BalancedMeals: seq<MealDay> := [
    MealDay(1, "Tunisian breakfast with olive oil and eggs", "Couscous with chicken and vegetables", "Grilled fish with mechouia salad"),
    MealDay(2, "Brik with egg and tuna", "Lamb tajine with prunes", "Tunisian chickpea soup"),
    MealDay(3, "Msemen with honey and almonds", "Grilled sea bass with couscous", "Vegetable tajine"),
    MealDay(4, "Shakshuka with bread", "Chicken with preserved lemon", "Tunisian salad with tuna"),
    MealDay(5, "Tunisian pastry with dates", "Couscous royal (mixed meats)", "Grilled sardines with salad"),
    MealDay(6, "Olive oil flatbread with harissa", "Fish tagine with vegetables", "Lentil soup with bread"),
    MealDay(7, "Fresh figs with yogurt", "Lamb couscous", "Grilled prawns with salad")]

  /** `generate_meal_plan_by_diet`: `meal_plans.get(diet, meal_plans["balanced"])`;
      the goal is accepted and not used. */
  function MealPlanByDiet(diet: string, goal: string): seq<MealDay> {
    if diet == "vegan" then VeganMeals
    else if diet == "keto" then KetoMeals
    else BalancedMeals
  }

  const LoseWorkouts: seq<WorkoutDay> := [
    WorkoutDay(1, "Cardio - 30 min Running", 30),
    WorkoutDay(2, "Strength Training - Full Body", 45),
    WorkoutDay(3, "Cardio - 30 min Cycling", 30),
    WorkoutDay(4, "Strength Training - Upper Body", 45),
    WorkoutDay(5, "Cardio - 30 min Swimming", 30),
    WorkoutDay(6, "Strength Training - Lower Body", 45),
    WorkoutDay(7, "Active Rest - Yoga or Walking", 20)]

  const GainWorkouts: seq<WorkoutDay> := [
    WorkoutDay(1, "Strength Training - Chest & Triceps", 60),
    WorkoutDay(2, "Strength Training - Back & Biceps", 60),
    WorkoutDay(3, "Light Cardio - 20 min", 20),
    WorkoutDay(4, "Strength Training - Legs", 60),
    WorkoutDay(5, "Strength Training - Shoulders", 60),
    WorkoutDay(6, "Light Cardio - 20 min", 20),
    WorkoutDay(7, "Rest", 0)]

  const MaintainWorkouts: seq<WorkoutDay> := [
    WorkoutDay(1, "Full Body Strength Training", 45),
    WorkoutDay(2, "Cardio - 25 min Running", 25),
    WorkoutDay(3, "Full Body Strength Training", 45),
    WorkoutDay(4, "Cardio - 25 min Cycling", 25),
    WorkoutDay(5, "Full Body Strength Training", 45),
    WorkoutDay(6, "Active Rest - Yoga", 30),
    WorkoutDay(7, "Rest", 0)]

  /** `generate_workout_plan`: chosen by goal alone; the activity level is
      accepted and not used. */
  function WorkoutPlan(activityLevel: string, goal: string): seq<WorkoutDay> {
    if goal == "lose" then LoseWorkouts
    else if goal == "gain" then GainWorkouts
    else MaintainWorkouts
  }

  /** A week: seven entries for days 1 to 7 in order. */
  predicate IsWeekOfMeals(plan: seq<MealDay>) {
    |plan| == 7 && forall i :: 0 <= i < 7 ==> plan[i].day == i + 1
  }

  predicate IsWeekOfWorkouts(plan: seq<WorkoutDay>) {
    && |plan| == 7
    && (forall i :: 0 <= i < 7 ==> plan[i].day == i + 1)
    && (forall i :: 0 <= i < 7 ==> plan[i].duration >= 0)
  }

  /** Every diet gets a full week; an unknown diet gets the "balanced" table,
      and the goal never matters. */
  lemma MealPlanProperties(diet: string, goal: string, otherGoal: string)
    ensures IsWeekOfMeals(MealPlanByDiet(diet, goal))
    ensures diet != "vegan" && diet != "keto" ==> MealPlanByDiet(diet, goal) == MealPlanByDiet("balanced", goal)
    ensures MealPlanByDiet(diet, goal) == MealPlanByDiet(diet, otherGoal)
  {
  }

  /** Every goal gets a full week with non-negative durations; a goal other
      than "lose" or "gain" gets the maintain table, and the activity level
      never matters. */
  lemma WorkoutPlanProperties(activityLevel: string, otherLevel: string, goal: string)
    ensures IsWeekOfWorkouts(WorkoutPlan(activityLevel, goal))
    ensures goal != "lose" && goal != "gain" ==> WorkoutPlan(activityLevel, goal) == WorkoutPlan(activityLevel, "maintain")
    ensures WorkoutPlan(activityLevel, goal) == WorkoutPlan(otherLevel, goal)
  {
  }

  /** Python `int()` on a float: truncation toward zero. */
  function TruncToInt(x: real): (r: int)
    ensures (r as real) <= x < (r as real) + 1.0 || (r as real) - 1.0 < x <= (r as real)
    ensures 0.0 <= x ==> 0 <= r && r as real <= x < r as real + 1.0
    ensures x < 0.0 ==> r <= 0 && r as real - 1.0 < x <= r as real
  {
    if x >= 0.0 then x.Floor else -((-x).Floor)
  }

  /** The meal, workout and tips parts of a plan: the static tables, or the
      parts of the model's object (`ai_plan.get(key, [])`). */
  datatype PlanContent =
    | StaticPlan(mealPlan: seq<MealDay>, workoutRoutine: seq<WorkoutDay>)
    | ModelPlan(mealPlanJson: Json, workoutRoutineJson: Json, tips: Json)

  /** The object `generate_plan` returns. */
  datatype PlanResponse = PlanResponse(
    dailyCalories: int, bmr: int, tdee: int, goal: string, diet: string,
    content: PlanContent, aiGenerated: bool)

  const IncompleteProfile := HttpError(400, "Please complete your profile (age, weight, height) before generating a plan")

  /** `all([age, weight, height])`: each is set and non-zero. */
  predicate ProfileReadyForPlan(u: User) {
    TruthyInt(u.age) && TruthyInt(u.weight) && TruthyInt(u.height)
  }

  /** `dict.get(key, [])` on the model's object. */
  function GetOrEmptyList(fields: map<string, Json>, key: string): Json {
    if key in fields then fields[key] else JArr([])
  }

  /** The plan `generate_plan` returns, stated without its loop: the 400
      guard, then the plan from the first model whose reply parses, and
      otherwise the static tables. */
  function ExpectedPlan(u: User, b: Backend, floatMulTrunc: (real, real) -> int): Result<PlanResponse> {
    if !ProfileReadyForPlan(u) then Err(IncompleteProfile)
    else
      var bmr := CalculateBmr(u.weight.value, u.height.value, u.age.value);
      var tdee := CalculateTdee(bmr, OrDefault(u.activityLevel, "moderate"), floatMulTrunc);
      var goal := OrDefault(u.goal, "maintain");
      var diet := OrDefault(u.diet, "balanced");
      var calories := AdjustCaloriesForGoal(tdee, goal);
      var k := FirstParsed(b);
      if Reachable(b) && k < |ModelsToTry| then
        var fields := ParsedReply(b, ModelsToTry[k]).value;
        Ok(PlanResponse(calories, TruncToInt(bmr), tdee, goal, diet,
          ModelPlan(GetOrEmptyList(fields, "meal_plan"), GetOrEmptyList(fields, "workout_routine"),
            GetOrEmptyList(fields, "tips")), true))
      else
        Ok(PlanResponse(calories, TruncToInt(bmr), tdee, goal, diet,
          StaticPlan(MealPlanByDiet(diet, goal), WorkoutPlan(OrDefault(u.activityLevel, "moderate"), goal)), false))
  }

  /** `generate_plan`. */
  method GeneratePlan(u: User, b: Backend, floatMulTrunc: (real, real) -> int) returns (r: Result<PlanResponse>)
    ensures r == ExpectedPlan(u, b, floatMulTrunc)
  {
    if !(TruthyInt(u.age) && TruthyInt(u.weight) && TruthyInt(u.height)) {
      return Err(IncompleteProfile);
    }
    var bmr := CalculateBmr(u.weight.value, u.height.value, u.age.value);
    var tdee := CalculateTdee(bmr, OrDefault(u.activityLevel, "moderate"), floatMulTrunc);
    var calories := AdjustCaloriesForGoal(tdee, OrDefault(u.goal, "maintain"));
    if b.sdkInstalled && TruthyStr(b.apiKey) && !b.clientRaises {
      var k := TryModels(ModelsToTry, m => ParsedReply(b, m).Some?);
      if k < |ModelsToTry| {
        var fields := ParsedReply(b, ModelsToTry[k]).value;
        return Ok(PlanResponse(calories, TruncToInt(bmr), tdee, OrDefault(u.goal, "maintain"),
          OrDefault(u.diet, "balanced"),
          ModelPlan(GetOrEmptyList(fields, "meal_plan"), GetOrEmptyList(fields, "workout_routine"),
            GetOrEmptyList(fields, "tips")), true));
      }
    }
    var meals := MealPlanByDiet(OrDefault(u.diet, "balanced"), OrDefault(u.goal, "maintain"));
    var workouts := WorkoutPlan(OrDefault(u.activityLevel, "moderate"), OrDefault(u.goal, "maintain"));
    r := Ok(PlanResponse(calories, TruncToInt(bmr), tdee, OrDefault(u.goal, "maintain"),
      OrDefault(u.diet, "balanced"), StaticPlan(meals, workouts), false));
  }

  /** The guard: a plan is refused with 400 exactly when age, weight or
      height is missing or zero, whatever the model service does. */
  lemma PlanRefusedIffIncomplete(u: User, b: Backend, floatMulTrunc: (real, real) -> int)
    ensures ExpectedPlan(u, b, floatMulTrunc).Err? <==> !ProfileReadyForPlan(u)
    ensures ExpectedPlan(u, b, floatMulTrunc).Err? ==> ExpectedPlan(u, b, floatMulTrunc).error.status == 400
  {
  }

  /** Every plan carries the calorie target adjusted from the TDEE for the
      goal (defaulting to "maintain"), and the defaulted goal and diet. */
  lemma PlanCalories(u: User, b: Backend, floatMulTrunc: (real, real) -> int)
    requires ProfileReadyForPlan(u)
    ensures var p := ExpectedPlan(u, b, floatMulTrunc).value;
      && p.dailyCalories == AdjustCaloriesForGoal(p.tdee, OrDefault(u.goal, "maintain"))
      && p.goal == OrDefault(u.goal, "maintain") && p.diet == OrDefault(u.diet, "balanced")
      && p.tdee == CalculateTdee(CalculateBmr(u.weight.value, u.height.value, u.age.value),
           OrDefault(u.activityLevel, "moderate"), floatMulTrunc)
  {
  }

  /** The static fallback is used exactly when the service is unreachable or
      no model's reply parses, and it is marked as not generated; a
      generated plan comes from the first model whose reply parses. */
  lemma PlanFallback(u: User, b: Backend, floatMulTrunc: (real, real) -> int)
    requires ProfileReadyForPlan(u)
    ensures var p := ExpectedPlan(u, b, floatMulTrunc).value;
      && (p.aiGenerated <==> p.content.ModelPlan?)
      && (!p.aiGenerated <==> (!Reachable(b) || forall m :: m in ModelsToTry ==> ParsedReply(b, m).None?))
      && (!p.aiGenerated ==> p.content == StaticPlan(MealPlanByDiet(p.diet, p.goal),
            WorkoutPlan(OrDefault(u.activityLevel, "moderate"), p.goal)))
  {
    var k := FirstParsed(b);
    if k == |ModelsToTry| {
      forall m | m in ModelsToTry ensures ParsedReply(b, m).None? {
        var j :| 0 <= j < |ModelsToTry| && ModelsToTry[j] == m;
      }
    } else {
      assert ModelsToTry[k] in ModelsToTry;
    }
  }

  /** The response of `get_wellness_score`. */
  datatype Wellness = Wellness(wellnessScore: int, profileComplete: bool, recentActivitiesCount: int)

  function Point(b: bool): nat {
    if b then 1 else 0
  }

  /** How many of the six profile fields are truthy. */
  function ProfileFieldsSet(u: User): (n: nat)
    ensures n <= 6
  {
    Point(TruthyInt(u.age)) + Point(TruthyInt(u.weight)) + Point(TruthyInt(u.height))
    + Point(TruthyStr(u.goal)) + Point(TruthyStr(u.diet)) + Point(TruthyStr(u.activityLevel))
  }

  /** The consistency bonus for `n` recent activities. */
  function ConsistencyBonus(n: nat): int {
    if n >= 5 then 30 else if n >= 3 then 20 else if n >= 1 then 10 else 0
  }

  /** The unclamped score: 5 points per profile field, 5 per recent activity
      up to 40, and the bonus. */
  function WellnessTotal(u: User, n: nat): int {
    5 * ProfileFieldsSet(u) + (if 5 * n < 40 then 5 * n else 40) + ConsistencyBonus(n)
  }

  /** The number of activities the `.limit(7)` query returns. */
  function RecentCount(acts: seq<Activity>, owner: int): (n: nat)
    ensures n <= 7
  {
    |Take(OwnedActivities(acts, owner), 7)|
  }

  /** The six additions of `get_wellness_score` for the profile fields. */
  method ProfilePoints(u: User) returns (score: int)
    ensures score == 5 * ProfileFieldsSet(u)
  {
    score := 0;
    if TruthyInt(u.age) { score := score + 5; }
    if TruthyInt(u.weight) { score := score + 5; }
    if TruthyInt(u.height) { score := score + 5; }
    assert score == 5 * (Point(TruthyInt(u.age)) + Point(TruthyInt(u.weight)) + Point(TruthyInt(u.height)));
    if TruthyStr(u.goal) { score := score + 5; }
    if TruthyStr(u.diet) { score := score + 5; }
    if TruthyStr(u.activityLevel) { score := score + 5; }
  }

  /** `get_wellness_score`, computed with the successive additions of the route. */
  method WellnessScore(u: User, acts: seq<Activity>) returns (r: Wellness)
    ensures var n := RecentCount(acts, u.id);
      r == Wellness(Min100(WellnessTotal(u, n)), WellnessTotal(u, n) >= 30, n)
  {
    var score := ProfilePoints(u);
    var recent := Take(OwnedActivities(acts, u.id), 7);
    score := score + (if |recent| * 5 < 40 then |recent| * 5 else 40);
    if |recent| >= 5 {
      score := score + 30;
    } else if |recent| >= 3 {
      score := score + 20;
    } else if |recent| >= 1 {
      score := score + 10;
    }
    assert score == WellnessTotal(u, |recent|);
    r := Wellness(if score < 100 then score else 100, score >= 30, |recent|);
  }

  function Min100(x: int): int {
    if x < 100 then x else 100
  }

  /** The score is at most 6*5 + 35 + 30 = 95, so the clamp to 100 never
      changes it; with at least five recent activities `profile_complete`
      holds whatever the profile. */
  lemma WellnessBounds(u: User, acts: seq<Activity>)
    ensures var n := RecentCount(acts, u.id);
      && 0 <= WellnessTotal(u, n) <= 95
      && Min100(WellnessTotal(u, n)) == WellnessTotal(u, n)
      && (n >= 5 ==> WellnessTotal(u, n) >= 30)
      && (ProfileFieldsSet(u) == 6 ==> WellnessTotal(u, n) >= 30)
  {
    var n := RecentCount(acts, u.id);
    assert ProfileFieldsSet(u) <= 6;
    assert n <= 7;
  }

  /** `profile_complete` is the total reaching 30, not the six profile
      fields being set: a user with no profile fields and five activities is
      reported complete, and one with every field set and no activity too. */
  lemma ProfileCompleteIsTotal(u: User, acts: seq<Activity>)
    requires ProfileFieldsSet(u) == 0 && RecentCount(acts, u.id) >= 5
    ensures WellnessTotal(u, RecentCount(acts, u.id)) >= 30
  {
  }

  /** The response of `generate_recipe`: the parsed object, or an error. */
  const NoIngredients := HttpError(400, "Please provide ingredients")
  const RecipeUnavailable := HttpError(500, "Unable to generate recipe. Please try again.")
  const RecipeFailed := HttpError(500, "Recipe generation failed")

  /** `generate_recipe` as written: the `HTTPException(500, "Unable to
      generate recipe...")` raised inside the outer `try` is caught by its own
      `except Exception` and re-raised as "Recipe generation failed".
      `ingredients` is `ingredients.get("ingredients", "")`, `None` when the
      body has no such key. */
  method GenerateRecipe(ingredients: Option<Json>, b: Backend) returns (r: Result<map<string, Json>>)
    ensures r == ExpectedRecipe(ingredients, b, RecipeFailed)
  {
    var given := if ingredients.Some? then ingredients.value else JStr("");
    if !JsonTruthy(given) {
      return Err(NoIngredients);
    }
    if b.sdkInstalled && TruthyStr(b.apiKey) && !b.clientRaises {
      var k := TryModels(ModelsToTry, m => ParsedReply(b, m).Some?);
      if k < |ModelsToTry| {
        return Ok(ParsedReply(b, ModelsToTry[k]).value);
      }
    }
    r := Err(RecipeFailed);
  }

  /** The recipe route with the error a request gets when no model's reply
      parses given as `noRecipe`. */
  function ExpectedRecipe(ingredients: Option<Json>, b: Backend, noRecipe: HttpError): Result<map<string, Json>> {
    var given := if ingredients.Some? then ingredients.value else JStr("");
    if !JsonTruthy(given) then Err(NoIngredients)
    else if Reachable(b) && FirstParsed(b) < |ModelsToTry| then Ok(ParsedReply(b, ModelsToTry[FirstParsed(b)]).value)
    else Err(noRecipe)
  }

  /** As written, the detail "Unable to generate recipe. Please try again."
      is never returned: with ingredients given and no reply parsing, the
      request gets "Recipe generation failed". */
  lemma RecipeDetailSwallowed(ingredients: Option<Json>, b: Backend)
    requires ingredients.Some? && JsonTruthy(ingredients.value)
    requires !Reachable(b) || FirstParsed(b) == |ModelsToTry|
    ensures ExpectedRecipe(ingredients, b, RecipeFailed) == Err(RecipeFailed)
    ensures ExpectedRecipe(ingredients, b, RecipeFailed) != Err(RecipeUnavailable)
  {
  }

  /** The recipe route as evidently intended: the specific 500 detail
      reaches the client when no model's reply parses. */
  method GenerateRecipeIntended(ingredients: Option<Json>, b: Backend) returns (r: Result<map<string, Json>>)
    ensures r == ExpectedRecipe(ingredients, b, RecipeUnavailable)
    ensures r.Err? && r.error.status == 500 <==>
      JsonTruthy(if ingredients.Some? then ingredients.value else JStr(""))
      && (!Reachable(b) || forall m :: m in ModelsToTry ==> ParsedReply(b, m).None?)
    ensures r.Err? && r.error.status == 500 ==> r.error == RecipeUnavailable
  {
    var given := if ingredients.Some? then ingredients.value else JStr("");
    if !JsonTruthy(given) {
      return Err(NoIngredients);
    }
    if b.sdkInstalled && TruthyStr(b.apiKey) && !b.clientRaises {
      var k := TryModels(ModelsToTry, m => ParsedReply(b, m).Some?);
      if k < |ModelsToTry| {
        assert ModelsToTry[k] in ModelsToTry;
        return Ok(ParsedReply(b, ModelsToTry[k]).value);
      }
      forall m | m in ModelsToTry ensures ParsedReply(b, m).None? {
        var j :| 0 <= j < |ModelsToTry| && ModelsToTry[j] == m;
      }
    }
    r := Err(RecipeUnavailable);
  }
}
