/** The dashboard: what it reads off the day's plans (count of completed
    categories, progress fraction, potential FitCoins, the goal label) and
    how it wires each category's completion to the reward handler. */
module Dashboard {
  import opened Types
  import Strings
  import App
  import PlanGenerator

  // -------------------------------------------------------------- reads

  /** "Tasks Completed": how many of the four plans are completed. */
  function TasksCompleted(p: App.Plans): (n: nat)
    ensures n <= 4
    ensures n == 4 <==> forall c :: p.FlagsOf().Done(c)
    ensures n == 0 <==> forall c :: !p.FlagsOf().Done(c)
  {
    var f := p.FlagsOf();
    assert f.Done(WorkoutTask) == f.workout && f.Done(DietTask) == f.diet;
    assert f.Done(WaterTask) == f.water && f.Done(SleepTask) == f.sleep;
    CountDone(f)
  }

  /** The width of the progress bar, as a fraction of its full length. */
  function ProgressFraction(p: App.Plans): (x: real)
    ensures 0.0 <= x <= 1.0
    ensures x == 1.0 <==> TasksCompleted(p) == 4
    ensures x == 0.0 <==> TasksCompleted(p) == 0
    ensures 4.0 * x == TasksCompleted(p) as real
  {
    TasksCompleted(p) as real / 4.0
  }

  /** The reward the dashboard passes along with a category's completion. */
  function RewardFor(p: App.Plans, c: Category): int
  {
    match c
    case WorkoutTask => p.workout.fitcoins
    case DietTask => p.diet.fitcoins
    case WaterTask => p.water.fitcoins
    case SleepTask => p.sleep.fitcoins
  }

  /** "Potential FitCoins": the four plans' rewards, done or not. */
  function PotentialFitcoins(p: App.Plans): int
  {
    p.workout.fitcoins + p.diet.fitcoins + p.water.fitcoins + p.sleep.fitcoins
  }

  /** The plans with their completed flags replaced. */
  function WithFlags(p: App.Plans, f: Flags): (r: App.Plans)
    ensures r.FlagsOf() == f
  {
    App.Plans(p.workout.(completed := f.workout), p.diet.(completed := f.diet),
              p.water.(completed := f.water), p.sleep.(completed := f.sleep))
  }

  /** The potential reads no flag, and is the sum of what each category pays. */
  lemma PotentialIgnoresFlags(p: App.Plans, f: Flags)
    ensures PotentialFitcoins(WithFlags(p, f)) == PotentialFitcoins(p)
    ensures PotentialFitcoins(p) == RewardFor(p, WorkoutTask) + RewardFor(p, DietTask)
                                  + RewardFor(p, WaterTask) + RewardFor(p, SleepTask)
  {
  }

  /** For generated plans the potential is the workout reward plus 225. */
  lemma GeneratedPotential(profile: UserProfile, now: nat)
    ensures PotentialFitcoins(App.GeneratePlans(profile, now)) ==
      PlanGenerator.WorkoutReward(profile.goal) + 225
    ensures 345 <= PotentialFitcoins(App.GeneratePlans(profile, now)) <= 425
  {
  }

  /** The goal in the header: the first `_` replaced by a space, upper-cased. */
  function GoalLabel(g: Goal): string
  {
    Strings.ToUpper(Strings.ReplaceFirst(GoalId(g), '_', ' '))
  }

  /** The index of the one underscore in a goal id. */
  function UnderscoreAt(g: Goal): (k: nat)
    ensures k < |GoalId(g)| && GoalId(g)[k] == '_'
    ensures forall i :: 0 <= i < |GoalId(g)| && i != k ==> GoalId(g)[i] != '_'
  {
    match g
    case MuscleGain => 6
    case StrengthGain => 8
    case StaminaGain => 7
    case FatLoss => 3
  }

  /** Replacing the first underscore of a string that holds exactly one leaves
      none, and upper-casing adds none. */
  lemma OneUnderscoreReplaced(id: string, j: int)
    requires 0 <= j < |id| && id[j] == '_'
    requires forall i :: 0 <= i < |id| && i != j ==> id[i] != '_'
    ensures '_' !in Strings.ToUpper(Strings.ReplaceFirst(id, '_', ' '))
  {
    var k := Strings.FirstIndex(id, '_');
    assert k == j;
    Strings.ReplaceFirstSplit(id, '_', ' ');
    var r := Strings.ReplaceFirst(id, '_', ' ');
    forall i | 0 <= i < |r|
      ensures Strings.ToUpper(r)[i] != '_'
    {
      assert r[i] != '_';
    }
  }

  /** Each goal id holds exactly one underscore, so the label has none left,
      and it is as long as the id. */
  lemma GoalLabelHasNoUnderscore(g: Goal)
    ensures '_' !in GoalLabel(g)
    ensures |GoalLabel(g)| == |GoalId(g)|
  {
    OneUnderscoreReplaced(GoalId(g), UnderscoreAt(g));
  }

  // ----------------------------------------------- one day of completions

  /** The event a category's card raises: its name and its plan's reward. */
  function CompletionEvent(p: App.Plans, c: Category): (e: App.Event)
    ensures e.kind == App.KindOf(App.CategoryName(c))
    ensures e.reward == RewardFor(p, c)
  {
    App.Event(App.Known(c), RewardFor(p, c))
  }

  /** Completion events for categories in the given order. */
  function Events(p: App.Plans, order: seq<Category>): (es: seq<App.Event>)
    ensures |es| == |order|
    ensures forall i :: 0 <= i < |order| ==> es[i] == CompletionEvent(p, order[i])
  {
    seq(|order|, i requires 0 <= i < |order| => CompletionEvent(p, order[i]))
  }

  predicate Distinct(order: seq<Category>)
  {
    forall i, j :: 0 <= i < j < |order| ==> order[i] != order[j]
  }

  /** The rewards of the categories that do not occur in `order`. */
  function Unpaid(p: App.Plans, order: seq<Category>): int
  {
    (if WorkoutTask in order then 0 else RewardFor(p, WorkoutTask))
    + (if DietTask in order then 0 else RewardFor(p, DietTask))
    + (if WaterTask in order then 0 else RewardFor(p, WaterTask))
    + (if SleepTask in order then 0 else RewardFor(p, SleepTask))
  }

  /** Completing distinct categories pays the potential minus what is left unpaid. */
  lemma {:induction false} PaidPlusUnpaid(p: App.Plans, order: seq<Category>)
    requires Distinct(order)
    ensures App.SumRewards(Events(p, order)) + Unpaid(p, order) == PotentialFitcoins(p)
    decreases |order|
  {
    if |order| > 0 {
      var rest := order[1..];
      assert Events(p, order)[1..] == Events(p, rest);
      assert Distinct(rest) by {
        forall i, j | 0 <= i < j < |rest| ensures rest[i] != rest[j] {
          assert rest[i] == order[i + 1] && rest[j] == order[j + 1];
        }
      }
      assert order[0] !in rest by {
        forall k | 0 <= k < |rest| ensures rest[k] != order[0] {
          assert rest[k] == order[k + 1];
        }
      }
      UnpaidStep(p, order);
      PaidPlusUnpaid(p, rest);
    }
  }

  /** Taking the first category off a distinct order leaves its reward unpaid again. */
  lemma UnpaidStep(p: App.Plans, order: seq<Category>)
    requires |order| > 0 && order[0] !in order[1..]
    ensures Unpaid(p, order[1..]) == Unpaid(p, order) + RewardFor(p, order[0])
  {
    var rest := order[1..];
    assert order == [order[0]] + rest;
    assert forall c :: c in order <==> c == order[0] || c in rest;
  }

  predicate RewardsNonNegative(p: App.Plans)
  {
    p.workout.fitcoins >= 0 && p.diet.fitcoins >= 0 && p.water.fitcoins >= 0 && p.sleep.fitcoins >= 0
  }

  /** Completing all four categories once each, in any order, from a day with
      none done: the streak grows by one, the total grows by exactly the
      potential plus one streak bonus, and the level stays, provided the
      potential does not reach the next level boundary. */
  lemma FullDay(p: App.Plans, stats: UserStats, order: seq<Category>)
    requires |order| == 4 && Distinct(order)
    requires RewardsNonNegative(p)
    requires stats.totalFitcoins + PotentialFitcoins(p) < App.LevelSpan * stats.level
    ensures var d := App.Run(App.Day(stats, NoneDone), Events(p, order));
      && d.flags.AllDone()
      && d.stats.streak == stats.streak + 1
      && d.stats.level == stats.level
      && d.stats.totalFitcoins == stats.totalFitcoins + PotentialFitcoins(p) + App.StreakBonus
  {
    var d0 := App.Day(stats, NoneDone);
    var es := Events(p, order);
    FreshEvents(p, order);
    App.StreakOnce(d0, es);
    CompletedDayCoversAll(p, stats, order);
    PaidPlusUnpaid(p, order);
    EventRewardsNonNegative(p, order);
    App.RunWithoutLevelUp(d0, es);
  }

  lemma EventRewardsNonNegative(p: App.Plans, order: seq<Category>)
    requires RewardsNonNegative(p)
    ensures forall i :: 0 <= i < |order| ==> Events(p, order)[i].reward >= 0
  {
  }

  /** Distinct categories make events of distinct, not-yet-done kinds. */
  lemma FreshEvents(p: App.Plans, order: seq<Category>)
    requires Distinct(order)
    ensures App.FreshDistinct(NoneDone, Events(p, order))
  {
    var es := Events(p, order);
    forall i, j | 0 <= i < j < |es| ensures es[i].kind != es[j].kind {
      assert order[i] != order[j];
    }
  }

  /** Four distinct completions from none done complete every category, so
      every category occurs in the order and none is left unpaid. */
  lemma CompletedDayCoversAll(p: App.Plans, stats: UserStats, order: seq<Category>)
    requires |order| == 4 && Distinct(order)
    ensures forall c :: c in order
    ensures Unpaid(p, order) == 0
  {
    var d0 := App.Day(stats, NoneDone);
    var es := Events(p, order);
    FreshEvents(p, order);
    App.StreakOnce(d0, es);
    var d := App.Run(d0, es);
    forall c: Category
      ensures c in order
    {
      assert d.flags.Done(c);
      var i :| 0 <= i < |es| && es[i].kind == App.Known(c);
      assert order[i] == c;
    }
  }

  /** The first day after onboarding, with the generated plans: whatever the
      goal and the order, all four completions leave the level at 1 and pay
      the workout reward plus 275; for muscle gain that is 425 FitCoins. */
  lemma FirstFullDay(profile: UserProfile, now: nat, order: seq<Category>)
    requires |order| == 4 && Distinct(order)
    ensures var d := App.Run(App.Day(App.InitialStats, NoneDone),
                             Events(App.GeneratePlans(profile, now), order));
      && d.stats.level == 1 && d.stats.streak == 2
      && d.stats.totalFitcoins == PlanGenerator.WorkoutReward(profile.goal) + 275
      && (profile.goal == MuscleGain ==> d.stats.totalFitcoins == 425)
  {
    GeneratedPotential(profile, now);
    FullDay(App.GeneratePlans(profile, now), App.InitialStats, order);
  }
}
