/** Records of the fitness app.

    Every quantity is an integer in the unit that makes the app's rules exact:
    water in millilitres, sleep in half-hours, rewards in whole FitCoins.
 */
module Types {

  datatype Option<T> = None | Some(value: T)

  /** The four fitness goals a user can pick at onboarding. */
  datatype Goal = MuscleGain | StrengthGain | StaminaGain | FatLoss

  datatype Gender = Male | Female

  /** The identifier a goal carries in the app (and in storage). */
  function GoalId(g: Goal): string
  {
    match g
    case MuscleGain => "muscle_gain"
    case StrengthGain => "strength_gain"
    case StaminaGain => "stamina_gain"
    case FatLoss => "fat_loss"
  }

  /** Reads a goal identifier back; anything else is not a goal. */
  function GoalFromId(s: string): (r: Option<Goal>)
    ensures r.Some? ==> GoalId(r.value) == s
    ensures forall g: Goal :: GoalId(g) == s ==> r == Some(g)
  {
    if s == "muscle_gain" then Some(MuscleGain)
    else if s == "strength_gain" then Some(StrengthGain)
    else if s == "stamina_gain" then Some(StaminaGain)
    else if s == "fat_loss" then Some(FatLoss)
    else None
  }

  datatype UserProfile = UserProfile(
    name: string,
    age: int,       // years
    height: int,    // centimetres
    weight: int,    // kilograms
    goal: Goal,
    gender: Gender)

  datatype Exercise = Exercise(name: string, sets: nat, reps: string, restTime: string)

  datatype WorkoutPlan = WorkoutPlan(
    id: string, name: string, exercises: seq<Exercise>, completed: bool, fitcoins: int)

  datatype Meal = Meal(name: string, time: string, foods: seq<string>, calories: int)

  datatype DietPlan = DietPlan(id: string, meals: seq<Meal>, completed: bool, fitcoins: int)

  /** Water target and intake, in millilitres. */
  datatype WaterGoal = WaterGoal(target: int, current: int, completed: bool, fitcoins: int)

  /** Sleep target and hours slept, in half-hours. */
  datatype SleepGoal = SleepGoal(target: int, actual: int, completed: bool, fitcoins: int)

  datatype UserStats = UserStats(totalFitcoins: int, streak: int, level: int, completedTasks: int)

  /** The four completable task categories of a day. */
  datatype Category = WorkoutTask | DietTask | WaterTask | SleepTask

  /** The day's four completion flags. */
  datatype Flags = Flags(workout: bool, diet: bool, water: bool, sleep: bool)
  {
    predicate Done(c: Category)
    {
      match c
      case WorkoutTask => workout
      case DietTask => diet
      case WaterTask => water
      case SleepTask => sleep
    }

    predicate AllDone()
    {
      workout && diet && water && sleep
    }
  }

  const NoneDone := Flags(false, false, false, false)

  function B2I(b: bool): nat
  {
    if b then 1 else 0
  }

  /** How many of the four categories are done (the app's `filter(Boolean).length`). */
  function CountDone(f: Flags): (n: nat)
    ensures n <= 4
    ensures n == 4 <==> f.AllDone()
    ensures n == 0 <==> f == NoneDone
  {
    B2I(f.workout) + B2I(f.diet) + B2I(f.water) + B2I(f.sleep)
  }

  /** The verdict of the image-verification service. */
  datatype AiVerdict = AiVerdict(verified: bool, confidence: int, feedback: string)

  /** What a photo verification hands back to a card. */
  datatype VerificationData = VerificationData(imageUrl: string, timestamp: string, ai: AiVerdict)
}
