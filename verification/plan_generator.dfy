/** The daily plan generator: fixed rule tables from a profile to the day's
    workout, diet, water and sleep targets. */
module PlanGenerator {
  import opened Types
  import Strings

  /** Rounds `num / den` to the nearest integer, halves upward
      (`Math.round` on the exact quotient). */
  function RoundHalfUp(num: int, den: int): (r: int)
    requires den > 0
    ensures r * den - den <= 2 * num - r * den < r * den + den
  {
    (2 * num + den) / (2 * den)
  }

  // ---------------------------------------------------------------- workout

  datatype WorkoutTemplate = WorkoutTemplate(name: string, exercises: seq<Exercise>, fitcoins: int)

  function WorkoutTemplateFor(goal: Goal): WorkoutTemplate
  {
    match goal
    case MuscleGain =>
      WorkoutTemplate("Muscle Building Workout", [
        Exercise("Push-ups", 3, "12-15", "60s"),
        Exercise("Squats", 3, "15-20", "60s"),
        Exercise("Dumbbell Rows", 3, "10-12", "90s"),
        Exercise("Plank", 3, "30-45s", "60s"),
        Exercise("Lunges", 3, "12 each leg", "60s")], 150)
    case StrengthGain =>
      WorkoutTemplate("Strength Training", [
        Exercise("Deadlifts", 4, "6-8", "2-3min"),
        Exercise("Bench Press", 4, "6-8", "2-3min"),
        Exercise("Squats", 4, "8-10", "2-3min"),
        Exercise("Overhead Press", 3, "8-10", "2min"),
        Exercise("Pull-ups", 3, "5-8", "2min")], 200)
    case StaminaGain =>
      WorkoutTemplate("Cardio & Endurance", [
        Exercise("Jumping Jacks", 3, "30s", "30s"),
        Exercise("High Knees", 3, "30s", "30s"),
        Exercise("Burpees", 3, "8-10", "60s"),
        Exercise("Mountain Climbers", 3, "30s", "30s"),
        Exercise("Running in Place", 3, "45s", "30s")], 120)
    case FatLoss =>
      WorkoutTemplate("Fat Burning Circuit", [
        Exercise("Burpees", 4, "10-12", "45s"),
        Exercise("Jump Squats", 4, "15-20", "45s"),
        Exercise("Push-ups", 3, "12-15", "45s"),
        Exercise("Plank Jacks", 3, "15-20", "45s"),
        Exercise("Bicycle Crunches", 3, "20 each side", "45s")], 180)
  }

  /** The workout reward per goal. */
  function WorkoutReward(goal: Goal): int
  {
    match goal
    case MuscleGain => 150
    case StrengthGain => 200
    case StaminaGain => 120
    case FatLoss => 180
  }

  /** `now` stands for `Date.now()`, the only input that is not the profile. */
  function GenerateWorkoutPlan(profile: UserProfile, now: nat): (plan: WorkoutPlan)
    ensures plan.id == "workout-" + Strings.NatToString(now)
    ensures |plan.exercises| == 5
    ensures !plan.completed
    ensures plan.fitcoins == WorkoutReward(profile.goal)
  {
    var t := WorkoutTemplateFor(profile.goal);
    WorkoutPlan("workout-" + Strings.NatToString(now), t.name, t.exercises, false, t.fitcoins)
  }

  /** Apart from its id, the workout plan is a function of the goal alone. */
  lemma WorkoutDependsOnlyOnGoal(p1: UserProfile, p2: UserProfile, now1: nat, now2: nat)
    requires p1.goal == p2.goal
    ensures GenerateWorkoutPlan(p1, now1).(id := "") == GenerateWorkoutPlan(p2, now2).(id := "")
    ensures GenerateWorkoutPlan(p1, now1).id == GenerateWorkoutPlan(p2, now2).id <==> now1 == now2
  {
    var s1 := Strings.NatToString(now1);
    var s2 := Strings.NatToString(now2);
    if s1 == s2 {
      Strings.DigitsValueOfNatToString(now1);
      Strings.DigitsValueOfNatToString(now2);
    }
    var pre := "workout-";
    if pre + s1 == pre + s2 {
      assert s1 == (pre + s1)[|pre|..];
      assert s2 == (pre + s2)[|pre|..];
    }
  }

  // ------------------------------------------------------------------- diet

  function MealsFor(goal: Goal): seq<Meal>
  {
    match goal
    case MuscleGain => [
      Meal("Protein Power Breakfast", "7:00 AM",
        ["Scrambled eggs", "Whole grain toast", "Greek yogurt", "Banana"], 450),
      Meal("Pre-Workout Snack", "10:00 AM",
        ["Protein shake", "Apple slices", "Almonds"], 280),
      Meal("Muscle Building Lunch", "1:00 PM",
        ["Grilled chicken breast", "Brown rice", "Steamed broccoli", "Avocado"], 520),
      Meal("Post-Workout Dinner", "7:00 PM",
        ["Lean beef", "Sweet potato", "Green salad", "Quinoa"], 480)]
    case StrengthGain => [
      Meal("High-Protein Breakfast", "7:00 AM",
        ["Oatmeal with protein powder", "Berries", "Nuts", "Milk"], 420),
      Meal("Mid-Morning Fuel", "10:30 AM",
        ["Greek yogurt", "Granola", "Honey"], 250),
      Meal("Power Lunch", "1:00 PM",
        ["Salmon fillet", "Quinoa", "Roasted vegetables", "Olive oil"], 550),
      Meal("Recovery Dinner", "7:30 PM",
        ["Turkey breast", "Brown rice", "Steamed spinach", "Chickpeas"], 460)]
    case StaminaGain => [
      Meal("Energy Breakfast", "6:30 AM",
        ["Whole grain cereal", "Banana", "Low-fat milk", "Berries"], 350),
      Meal("Pre-Workout Boost", "10:00 AM",
        ["Energy bar", "Orange juice", "Dates"], 200),
      Meal("Endurance Lunch", "12:30 PM",
        ["Pasta with lean meat", "Tomato sauce", "Green salad", "Whole grain bread"], 480),
      Meal("Recovery Dinner", "7:00 PM",
        ["Grilled fish", "Sweet potato", "Steamed vegetables", "Brown rice"], 430)]
    case FatLoss => [
      Meal("Lean Start", "7:30 AM",
        ["Egg whites", "Spinach", "Whole grain toast", "Grapefruit"], 280),
      Meal("Healthy Snack", "10:30 AM",
        ["Apple", "Almonds", "Green tea"], 150),
      Meal("Light Lunch", "1:00 PM",
        ["Grilled chicken salad", "Mixed greens", "Cucumber", "Olive oil dressing"], 320),
      Meal("Balanced Dinner", "6:30 PM",
        ["Grilled fish", "Steamed broccoli", "Cauliflower rice", "Lemon"], 280)]
  }

  const DietReward := 100

  function GenerateDietPlan(profile: UserProfile, now: nat): (plan: DietPlan)
    ensures plan.id == "diet-" + Strings.NatToString(now)
    ensures |plan.meals| == 4
    ensures !plan.completed
    ensures plan.fitcoins == 100
  {
    DietPlan("diet-" + Strings.NatToString(now), MealsFor(profile.goal), false, DietReward)
  }

  /** Apart from its id the diet plan is a function of the goal alone, and the
      four goals get four different menus. */
  lemma DietDependsOnlyOnGoal(p1: UserProfile, p2: UserProfile, now1: nat, now2: nat)
    ensures GenerateDietPlan(p1, now1).(id := "") == GenerateDietPlan(p2, now2).(id := "")
            <==> p1.goal == p2.goal
    ensures GenerateDietPlan(p1, now1).id == GenerateDietPlan(p2, now2).id <==> now1 == now2
  {
    var s1 := Strings.NatToString(now1);
    var s2 := Strings.NatToString(now2);
    if s1 == s2 {
      Strings.DigitsValueOfNatToString(now1);
      Strings.DigitsValueOfNatToString(now2);
    }
    var pre := "diet-";
    if pre + s1 == pre + s2 {
      assert s1 == (pre + s1)[|pre|..];
      assert s2 == (pre + s2)[|pre|..];
    }
    if p1.goal != p2.goal {
      assert MealsFor(p1.goal)[0].name != MealsFor(p2.goal)[0].name
          || MealsFor(p1.goal)[0].time != MealsFor(p2.goal)[0].time;
    }
  }

  // ------------------------------------------------------------------ water

  /** Extra water per goal, in millilitres. */
  function WaterAdjustment(goal: Goal): int
  {
    match goal
    case MuscleGain => 500
    case StrengthGain => 300
    case StaminaGain => 700
    case FatLoss => 400
  }

  /** The unrounded requirement in millilitres: 35 ml per kilogram plus the goal's offset. */
  function WaterNeed(weight: int, goal: Goal): int
  {
    weight * 35 + WaterAdjustment(goal)
  }

  /** The water target, counted in quarter-litres. */
  function WaterQuarters(weight: int, goal: Goal): int
  {
    RoundHalfUp(WaterNeed(weight, goal) * 4, 1000)
  }

  const WaterReward := 50

  /** The target is the quarter-litre multiple nearest the requirement
      (a requirement half-way between two multiples goes up). */
  function GenerateWaterGoal(profile: UserProfile): (w: WaterGoal)
    ensures w.target % 250 == 0
    ensures w.target - 125 <= WaterNeed(profile.weight, profile.goal) < w.target + 125
    ensures w.current == 0 && !w.completed && w.fitcoins == 50
  {
    WaterGoal(250 * WaterQuarters(profile.weight, profile.goal), 0, false, WaterReward)
  }

  /** Any quarter-litre multiple within half a quarter of the requirement
      (ties up) is the generated target: the target is uniquely determined. */
  lemma WaterTargetUnique(profile: UserProfile, t: int)
    requires t % 250 == 0
    requires t - 125 <= WaterNeed(profile.weight, profile.goal) < t + 125
    ensures GenerateWaterGoal(profile).target == t
  {
  }

  /** The closed integer form: (140 w + A + 500) div 1000 quarter-litres. */
  lemma WaterQuartersIntegerForm(weight: int, goal: Goal)
    ensures WaterQuarters(weight, goal) == (weight * 140 + 4 * WaterAdjustment(goal) + 500) / 1000
  {
  }

  lemma WaterTargetMonotone(p1: UserProfile, p2: UserProfile)
    requires p1.goal == p2.goal && p1.weight <= p2.weight
    ensures GenerateWaterGoal(p1).target <= GenerateWaterGoal(p2).target
  {
  }

  /** Over the form's weight range (30..200 kg) the target lies in [1.25 L, 7.75 L]. */
  lemma WaterTargetRange(profile: UserProfile)
    requires 30 <= profile.weight <= 200
    ensures 1250 <= GenerateWaterGoal(profile).target <= 7750
  {
  }

  // ------------------------------------------------------------------ sleep

  /** Recommended sleep by age, in tenths of an hour. */
  function AgeBaseTenths(age: int): int
  {
    if age < 18 then 90
    else if age < 26 then 85
    else if age < 65 then 80
    else 75
  }

  /** Extra sleep per goal, in tenths of an hour. */
  function SleepAdjustmentTenths(goal: Goal): int
  {
    match goal
    case MuscleGain => 5
    case StrengthGain => 5
    case StaminaGain => 0
    case FatLoss => 0
  }

  const SleepReward := 75

  /** The sleep target in half-hours: the base plus offset rounded to the
      nearest half-hour, a rounding that never moves these sums. */
  function GenerateSleepGoal(profile: UserProfile): (s: SleepGoal)
    ensures s.target * 5 == AgeBaseTenths(profile.age) + SleepAdjustmentTenths(profile.goal)
    ensures 15 <= s.target <= 19
    ensures s.actual == 0 && !s.completed && s.fitcoins == 75
  {
    var tenths := AgeBaseTenths(profile.age) + SleepAdjustmentTenths(profile.goal);
    SleepGoal(RoundHalfUp(tenths, 5), 0, false, SleepReward)
  }

  /** Older users never get a longer sleep target. */
  lemma SleepTargetNonIncreasingInAge(p1: UserProfile, p2: UserProfile)
    requires p1.goal == p2.goal && p1.age <= p2.age
    ensures GenerateSleepGoal(p2).target <= GenerateSleepGoal(p1).target
  {
  }

  /** The water target reads only weight and goal; the sleep target only age and goal. */
  lemma TargetsReadOnlyTheirInputs(p1: UserProfile, p2: UserProfile)
    ensures p1.weight == p2.weight && p1.goal == p2.goal ==>
      GenerateWaterGoal(p1) == GenerateWaterGoal(p2)
    ensures p1.age == p2.age && p1.goal == p2.goal ==>
      GenerateSleepGoal(p1) == GenerateSleepGoal(p2)
  {
  }

  /** Two examples: 70 kg fat loss gives 2.75 L; age 30 muscle gain gives 8.5 h. */
  lemma GeneratorExamples()
    ensures GenerateWaterGoal(UserProfile("", 30, 170, 70, FatLoss, Male)).target == 2750
    ensures GenerateSleepGoal(UserProfile("", 30, 170, 70, MuscleGain, Male)).target == 17
  {
  }
}
