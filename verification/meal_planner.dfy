/** The rule-based meal planner: a three-meal template picked by diet, an
    override for the first matching medical condition, then an adjustment
    for the latest glucose reading. */
module MealPlanner {
  import opened Wrappers
  import opened Text
  import opened Users

  /** Macros of one meal. The source keeps grams as text such as "45g";
      here they are numbers, and `Grams` is that text (see `GramsReadBack`). */
  datatype MealNutrition = MealNutrition(carbs: nat, protein: nat, fat: nat, calories: nat)

  datatype Meal = Meal(meal: string, time: string, description: string, nutrition: MealNutrition)

  /** The rendering `${n}g` of a gram amount. */
  function Grams(n: nat): string {
    NatToDecimal(n) + "g"
  }

  /** `parseInt` reads a rendered gram amount back as the same number, so
      computing on the numbers is computing on the source's strings. */
  lemma GramsReadBack(n: nat)
    ensures ParseIntJs(Grams(n)) == Some(n)
  {
    ParseIntOfDecimal(n, "g");
  }

  const MealNames: seq<string> := ["Breakfast", "Lunch", "Dinner"]
  const MealTimes: seq<string> := ["8:00 AM", "1:00 PM", "7:00 PM"]

  /** Three meals, with the fixed names and times, in order. */
  predicate WellFormed(plan: seq<Meal>) {
    && |plan| == 3
    && forall k :: 0 <= k < 3 ==> plan[k].meal == MealNames[k] && plan[k].time == MealTimes[k]
  }

  // -------------------------------------------------------------- templates

  datatype Diet = Vegetarian | NonVegetarian | Vegan | Other

  /** The `switch` on the preference: exact, case-sensitive matches only. */
  function DietOf(preference: string): (d: Diet)
    ensures d == Vegetarian <==> preference == "vegetarian"
    ensures d == NonVegetarian <==> preference == "non-vegetarian"
    ensures d == Vegan <==> preference == "vegan"
  {
    if preference == "vegetarian" then Vegetarian
    else if preference == "non-vegetarian" then NonVegetarian
    else if preference == "vegan" then Vegan
    else Other
  }

  /** Dish and macros of slot `k` for a diet. */
  function Dish(d: Diet, k: nat): (string, MealNutrition)
    requires k < 3
  {
    match d
    case Vegetarian =>
      if k == 0 then ("Vegetable upma with coconut chutney and sambar", MealNutrition(45, 12, 10, 320))
      else if k == 1 then ("Brown rice with dal, mixed vegetable curry, and cucumber raita", MealNutrition(60, 18, 8, 420))
      else ("Whole wheat roti with palak paneer and salad", MealNutrition(45, 20, 15, 400))
    case NonVegetarian =>
      if k == 0 then ("Egg omelette with vegetables and two whole wheat toast slices", MealNutrition(35, 25, 18, 380))
      else if k == 1 then ("Grilled chicken breast with quinoa and steamed broccoli", MealNutrition(40, 45, 12, 450))
      else ("Fish curry with brown rice and mixed vegetable salad", MealNutrition(50, 35, 15, 480))
    case Vegan =>
      if k == 0 then ("Oatmeal with almond butter, banana slices, and chia seeds", MealNutrition(55, 15, 12, 350))
      else if k == 1 then ("Quinoa bowl with chickpea curry, roasted vegetables, and tahini dressing", MealNutrition(65, 22, 15, 450))
      else ("Lentil soup with whole grain bread and mixed greens salad", MealNutrition(55, 20, 8, 400))
    case Other =>
      if k == 0 then ("Scrambled eggs with whole wheat toast and avocado", MealNutrition(35, 25, 18, 400))
      else if k == 1 then ("Grilled chicken breast with sweet potato and green beans", MealNutrition(45, 35, 12, 440))
      else ("Baked salmon with quinoa and roasted asparagus", MealNutrition(42, 38, 20, 500))
  }

  /** The base meals filled in for the diet of `preference`. */
  function Template(preference: string): (plan: seq<Meal>)
    ensures WellFormed(plan)
    ensures forall k :: 0 <= k < 3 ==>
      plan[k].description == Dish(DietOf(preference), k).0 && plan[k].nutrition == Dish(DietOf(preference), k).1
  {
    var d := DietOf(preference);
    seq(3, k requires 0 <= k < 3 => Meal(MealNames[k], MealTimes[k], Dish(d, k).0, Dish(d, k).1))
  }

  /** Any preference other than the three exact spellings, including a
      capitalised one, gets the default template. */
  lemma UnknownDietGetsDefault(preference: string)
    requires preference != "vegetarian" && preference != "non-vegetarian" && preference != "vegan"
    ensures Template(preference) == Template("")
  {
  }

  // ------------------------------------------------------------- conditions

  /** The fixed diabetic macros of slot `k`. */
  function DiabeticNutrition(k: nat): MealNutrition
    requires k < 3
  {
    if k == 0 then MealNutrition(30, 10, 8, 250)
    else if k == 1 then MealNutrition(25, 20, 10, 300)
    else MealNutrition(35, 25, 12, 350)
  }

  /** The dish swap of slot `k` in the diabetic branch. */
  function DiabeticDescription(description: string, k: nat): string
    requires k < 3
  {
    if k == 0 then ReplaceFirst(description, "upma", "vegetable poha")
    else if k == 1 then ReplaceFirst(description, "brown rice", "cauliflower rice")
    else ReplaceFirst(description, "brown rice", "quinoa")
  }

  const LowSodium := " (low sodium)"

  predicate Diabetic(conditions: string) {
    Contains(Lower(conditions), "diabetes")
  }

  predicate Hypertensive(conditions: string) {
    Contains(Lower(conditions), "hypertension")
  }

  /** The `if / else if` on the lower-cased conditions: diabetes sets the
      fixed low-carb macros (and swaps dishes), otherwise hypertension marks
      every dish low-sodium, otherwise nothing changes. */
  function ApplyConditions(plan: seq<Meal>, conditions: string): (r: seq<Meal>)
    requires WellFormed(plan)
    ensures WellFormed(r)
    ensures Diabetic(conditions) ==> forall k :: 0 <= k < 3 ==>
      r[k].nutrition == DiabeticNutrition(k) && r[k].description == DiabeticDescription(plan[k].description, k)
    ensures !Diabetic(conditions) && Hypertensive(conditions) ==> forall k :: 0 <= k < 3 ==>
      r[k].nutrition == plan[k].nutrition && r[k].description == plan[k].description + LowSodium
    ensures !Diabetic(conditions) && !Hypertensive(conditions) ==> r == plan
  {
    if Diabetic(conditions) then
      seq(3, k requires 0 <= k < 3 =>
        plan[k].(description := DiabeticDescription(plan[k].description, k), nutrition := DiabeticNutrition(k)))
    else if Hypertensive(conditions) then
      seq(3, k requires 0 <= k < 3 => plan[k].(description := plan[k].description + LowSodium))
    else plan
  }

  /** With diabetes the macros no longer depend on the diet at all. */
  lemma DiabetesIgnoresDiet(p1: string, p2: string, conditions: string)
    requires Diabetic(conditions)
    ensures forall k :: 0 <= k < 3 ==>
      ApplyConditions(Template(p1), conditions)[k].nutrition == ApplyConditions(Template(p2), conditions)[k].nutrition
  {
  }

  // ---------------------------------------------------------------- glucose

  const LowGlycemic := " (low glycemic)"
  const QuickEnergy := " with dates or honey"

  function Max(a: int, b: int): int {
    if a >= b then a else b
  }

  /** One meal under a high reading: 10 g fewer carbs but never below 10 g,
      50 kcal fewer but never below 200 kcal. */
  function LowerGlycemic(m: Meal): (r: Meal)
    ensures r.meal == m.meal && r.time == m.time
    ensures r.description == m.description + LowGlycemic
    ensures r.nutrition.carbs >= 10 && r.nutrition.calories >= 200
    ensures r.nutrition.carbs <= m.nutrition.carbs || m.nutrition.carbs < 10
    ensures m.nutrition.carbs >= 20 ==> r.nutrition.carbs + 10 == m.nutrition.carbs
    ensures m.nutrition.calories >= 250 ==> r.nutrition.calories + 50 == m.nutrition.calories
    ensures m.nutrition.carbs < 20 ==> r.nutrition.carbs == 10
    ensures m.nutrition.calories < 250 ==> r.nutrition.calories == 200
    ensures r.nutrition.protein == m.nutrition.protein && r.nutrition.fat == m.nutrition.fat
  {
    var n := m.nutrition;
    m.(description := m.description + LowGlycemic,
       nutrition := n.(carbs := Max(10, n.carbs - 10), calories := Max(200, n.calories - 50)))
  }

  /** The glucose step on `parseInt(latest_cgm)`: above 140 every meal is
      lowered, below 70 breakfast alone gets 15 g carbs and 80 kcal more, and
      a reading in 70..140 or no number at all changes nothing. */
  function ApplyGlucose(plan: seq<Meal>, latestCgm: string): (r: seq<Meal>)
    requires WellFormed(plan)
    ensures WellFormed(r)
    ensures HighReading(latestCgm) ==> forall k :: 0 <= k < 3 ==> r[k] == LowerGlycemic(plan[k])
    ensures LowReading(latestCgm) ==>
      && r[1..] == plan[1..]
      && r[0].description == plan[0].description + QuickEnergy
      && r[0].nutrition == plan[0].nutrition.(carbs := plan[0].nutrition.carbs + 15, calories := plan[0].nutrition.calories + 80)
    ensures !HighReading(latestCgm) && !LowReading(latestCgm) ==> r == plan
  {
    if HighReading(latestCgm) then LowerAll(plan)
    else if LowReading(latestCgm) then BoostBreakfast(plan)
    else plan
  }

  function LowerAll(plan: seq<Meal>): (r: seq<Meal>)
    requires WellFormed(plan)
    ensures WellFormed(r)
    ensures forall k :: 0 <= k < 3 ==> r[k] == LowerGlycemic(plan[k])
  {
    seq(3, k requires 0 <= k < 3 => LowerGlycemic(plan[k]))
  }

  function BoostBreakfast(plan: seq<Meal>): (r: seq<Meal>)
    requires WellFormed(plan)
    ensures WellFormed(r)
    ensures r[1..] == plan[1..]
    ensures r[0].description == plan[0].description + QuickEnergy
    ensures r[0].nutrition == plan[0].nutrition.(carbs := plan[0].nutrition.carbs + 15, calories := plan[0].nutrition.calories + 80)
  {
    var b := plan[0];
    var n := b.nutrition;
    var r := [b.(description := b.description + QuickEnergy,
                 nutrition := n.(carbs := n.carbs + 15, calories := n.calories + 80))] + plan[1..];
    assert r[1..] == plan[1..];
    r
  }

  predicate HighReading(latestCgm: string) {
    var g := ParseIntJs(latestCgm);
    g.Some? && g.value > 140
  }

  predicate LowReading(latestCgm: string) {
    var g := ParseIntJs(latestCgm);
    g.Some? && g.value < 70
  }

  /** A reading is never both high and low, and an unreadable one (`NaN`)
      is neither. */
  lemma ReadingsExclusive(latestCgm: string)
    ensures !(HighReading(latestCgm) && LowReading(latestCgm))
    ensures ParseIntJs(latestCgm).None? ==> !HighReading(latestCgm) && !LowReading(latestCgm)
  {
  }

  // ------------------------------------------------------------------- plan

  /** `createPersonalizedMealPlan`. */
  function CreatePersonalizedMealPlan(user: UserData): (plan: seq<Meal>)
    ensures WellFormed(plan)
    ensures HighReading(user.latestCgm) ==> forall k :: 0 <= k < 3 ==>
      plan[k].nutrition.carbs >= 10 && plan[k].nutrition.calories >= 200
  {
    ApplyGlucose(ApplyConditions(Template(user.dietaryPreference), user.medicalConditions), user.latestCgm)
  }

  /** A diabetic user with a high reading gets 20/15/25 g carbs and
      200/250/300 kcal whatever the diet. */
  lemma DiabeticHighReadingPlan(user: UserData)
    requires Diabetic(user.medicalConditions) && HighReading(user.latestCgm)
    ensures var plan := CreatePersonalizedMealPlan(user);
      && plan[0].nutrition.carbs == 20 && plan[0].nutrition.calories == 200
      && plan[1].nutrition.carbs == 15 && plan[1].nutrition.calories == 250
      && plan[2].nutrition.carbs == 25 && plan[2].nutrition.calories == 300
  {
    var mid := ApplyConditions(Template(user.dietaryPreference), user.medicalConditions);
    assert mid[0].nutrition == DiabeticNutrition(0);
    assert mid[1].nutrition == DiabeticNutrition(1);
    assert mid[2].nutrition == DiabeticNutrition(2);
  }

  /** A low reading changes breakfast alone: lunch and dinner are exactly
      what the condition step left. */
  lemma LowReadingTouchesBreakfastOnly(user: UserData)
    requires LowReading(user.latestCgm)
    ensures var before := ApplyConditions(Template(user.dietaryPreference), user.medicalConditions);
      var plan := CreatePersonalizedMealPlan(user);
      && plan[1] == before[1] && plan[2] == before[2]
      && plan[0].nutrition.carbs == before[0].nutrition.carbs + 15
      && plan[0].nutrition.calories == before[0].nutrition.calories + 80
  {
    var before := ApplyConditions(Template(user.dietaryPreference), user.medicalConditions);
    var plan := CreatePersonalizedMealPlan(user);
    assert plan[1..] == before[1..];
    assert plan[1] == plan[1..][0] && plan[2] == plan[1..][1];
  }
}
