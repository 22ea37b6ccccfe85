/** The application shell: onboarding stats, hydration of the generated plans
    from saved progress, and the reward / level / streak transition run on
    every task completion. */
module App {
  import opened Types
  import PlanGenerator

  // ------------------------------------------------------------ day plans

  /** The day's four plans as the app holds them. */
  datatype Plans = Plans(workout: WorkoutPlan, diet: DietPlan, water: WaterGoal, sleep: SleepGoal)
  {
    function FlagsOf(): Flags
    {
      Flags(workout.completed, diet.completed, water.completed, sleep.completed)
    }
  }

  /** What is persisted for one user and one date. */
  datatype DailyProgress = DailyProgress(
    workoutCompleted: bool, dietCompleted: bool,
    waterCompleted: bool, waterCurrent: int,
    sleepCompleted: bool, sleepActual: int,
    fitcoinsEarned: int)

  function GeneratePlans(profile: UserProfile, now: nat): Plans
  {
    Plans(PlanGenerator.GenerateWorkoutPlan(profile, now), PlanGenerator.GenerateDietPlan(profile, now),
          PlanGenerator.GenerateWaterGoal(profile), PlanGenerator.GenerateSleepGoal(profile))
  }

  /** Freshly generated plans, overwritten by today's saved progress when there is one.
      Only the four flags, the water amount and the hours slept come from storage. */
  function Hydrate(generated: Plans, saved: Option<DailyProgress>): (p: Plans)
    ensures saved.None? ==> p == generated
    ensures saved.Some? ==>
      var s := saved.value;
      && p.FlagsOf() == Flags(s.workoutCompleted, s.dietCompleted, s.waterCompleted, s.sleepCompleted)
      && p.water.current == s.waterCurrent && p.sleep.actual == s.sleepActual
    ensures p.workout.(completed := false) == generated.workout.(completed := false)
    ensures p.diet.(completed := false) == generated.diet.(completed := false)
    ensures p.water.target == generated.water.target && p.water.fitcoins == generated.water.fitcoins
    ensures p.sleep.target == generated.sleep.target && p.sleep.fitcoins == generated.sleep.fitcoins
  {
    match saved
    case None => generated
    case Some(s) =>
      Plans(generated.workout.(completed := s.workoutCompleted),
            generated.diet.(completed := s.dietCompleted),
            generated.water.(completed := s.waterCompleted, current := s.waterCurrent),
            generated.sleep.(completed := s.sleepCompleted, actual := s.sleepActual))
  }

  /** Hydrated plans keep the generator's targets and rewards for the profile. */
  lemma HydratedTargetsAreGenerated(profile: UserProfile, now: nat, saved: Option<DailyProgress>)
    ensures var p := Hydrate(GeneratePlans(profile, now), saved);
      && p.workout.fitcoins == PlanGenerator.WorkoutReward(profile.goal)
      && p.diet.fitcoins == 100 && p.water.fitcoins == 50 && p.sleep.fitcoins == 75
      && p.water.target == PlanGenerator.GenerateWaterGoal(profile).target
      && p.sleep.target == PlanGenerator.GenerateSleepGoal(profile).target
  {
  }

  // ---------------------------------------------------------------- stats

  /** The stats written at onboarding. */
  const InitialStats := UserStats(0, 1, 1, 0)

  function OrDefault(x: int, d: int): int
  {
    if x == 0 then d else x
  }

  /** The storage layer fills a new stats row with `value || default`:
      a zero streak or level is stored as 1. */
  function StoredNewStats(s: UserStats): (r: UserStats)
    ensures r.streak >= 1 || r.streak == s.streak
    ensures r.streak == (if s.streak == 0 then 1 else s.streak)
    ensures r.level == (if s.level == 0 then 1 else s.level)
    ensures r.totalFitcoins == s.totalFitcoins && r.completedTasks == s.completedTasks
  {
    UserStats(OrDefault(s.totalFitcoins, 0), OrDefault(s.streak, 1), OrDefault(s.level, 1),
              OrDefault(s.completedTasks, 0))
  }

  /** Onboarding stats survive the storage defaults unchanged. */
  lemma OnboardingStatsStored()
    ensures StoredNewStats(InitialStats) == InitialStats
    ensures StoredNewStats(UserStats(0, 0, 0, 0)) == InitialStats
  {
  }

  /** Stats after login: the stored row, or a generated default row. */
  function LoadStats(stored: Option<UserStats>): (r: UserStats)
    ensures stored.Some? ==> r == stored.value
    ensures stored.None? ==> r == InitialStats
  {
    match stored
    case Some(s) => s
    case None => StoredNewStats(UserStats(0, 0, 0, 0))
  }

  // ------------------------------------------------------- reward engine

  const LevelSpan := 500
  const LevelUpBonus := 100
  const StreakBonus := 50

  /** The level a total of FitCoins is worth: one per full 500, starting at 1. */
  function LevelFor(total: int): int
  {
    total / LevelSpan + 1
  }

  /** The `type` argument of a completion: one of the four categories or any other string. */
  datatype TaskKind = Known(category: Category) | Unknown(name: string)

  function CategoryName(c: Category): string
  {
    match c
    case WorkoutTask => "workout"
    case DietTask => "diet"
    case WaterTask => "water"
    case SleepTask => "sleep"
  }

  /** Reads the `type` string a card passes to the handler. */
  function KindOf(t: string): (k: TaskKind)
    ensures k.Known? ==> CategoryName(k.category) == t
    ensures forall c: Category :: CategoryName(c) == t ==> k == Known(c)
  {
    if t == "workout" then Known(WorkoutTask)
    else if t == "diet" then Known(DietTask)
    else if t == "water" then Known(WaterTask)
    else if t == "sleep" then Known(SleepTask)
    else Unknown(t)
  }

  /** Sets the flag of the completed category; an unrecognised kind sets none. */
  function MarkDone(f: Flags, k: TaskKind): (r: Flags)
    ensures forall c :: r.Done(c) <==> f.Done(c) || k == Known(c)
  {
    match k
    case Known(WorkoutTask) => f.(workout := true)
    case Known(DietTask) => f.(diet := true)
    case Known(WaterTask) => f.(water := true)
    case Known(SleepTask) => f.(sleep := true)
    case Unknown(_) => f
  }

  /** The outcome of one completion: new stats, new flags, and the
      `fitcoins_earned` value written to today's progress row. */
  datatype Completion = Completion(stats: UserStats, flags: Flags, fitcoinsEarned: int)

  function Max(a: int, b: int): int
  {
    if a < b then b else a
  }

  /** One completion event. The level is re-evaluated once, on the total before
      any bonus; the streak grows and +50 is paid when, counting this event,
      all four categories are done. Nothing guards against a repeated kind. */
  function HandleTaskComplete(stats: UserStats, flags: Flags, kind: TaskKind, reward: int): (r: Completion)
    ensures r.stats.completedTasks == stats.completedTasks + 1
    ensures r.fitcoinsEarned == reward
    ensures forall c :: r.flags.Done(c) <==> flags.Done(c) || kind == Known(c)
    ensures r.stats.level == Max(stats.level, LevelFor(stats.totalFitcoins + reward))
    ensures r.stats.streak == if r.flags.AllDone() then stats.streak + 1 else stats.streak
    ensures r.stats.totalFitcoins == stats.totalFitcoins + reward
      + (if LevelFor(stats.totalFitcoins + reward) > stats.level then LevelUpBonus else 0)
      + (if r.flags.AllDone() then StreakBonus else 0)
  {
    var total := stats.totalFitcoins + reward;
    var newLevel := LevelFor(total);
    var leveled := newLevel > stats.level;
    var level := if leveled then newLevel else stats.level;
    var total' := if leveled then total + LevelUpBonus else total;
    var flags' := MarkDone(flags, kind);
    // The handler counts the flags it was rendered with, plus this event's type.
    var tasksCompleted := B2I(flags.workout || kind == Known(WorkoutTask))
                        + B2I(flags.diet || kind == Known(DietTask))
                        + B2I(flags.water || kind == Known(WaterTask))
                        + B2I(flags.sleep || kind == Known(SleepTask));
    assert tasksCompleted == CountDone(flags');
    var streakDay := tasksCompleted == 4;
    Completion(
      UserStats(if streakDay then total' + StreakBonus else total',
                if streakDay then stats.streak + 1 else stats.streak,
                level,
                stats.completedTasks + 1),
      flags', reward)
  }

  /** Level-up happens exactly when a 500 boundary above the current level is
      reached by the reward alone, and then pays exactly +100. */
  lemma LevelUpLaw(stats: UserStats, flags: Flags, kind: TaskKind, reward: int)
    ensures var r := HandleTaskComplete(stats, flags, kind, reward);
      && (r.stats.level > stats.level <==> (stats.totalFitcoins + reward) / 500 + 1 > stats.level)
      && r.stats.level >= stats.level
      && r.stats.streak >= stats.streak
  {
  }

  /** The bonuses are not seen by the level check: a streak bonus can carry the
      total across 500 without a level-up in the same event. */
  lemma BonusDoesNotLevelUp()
    ensures var r := HandleTaskComplete(UserStats(460, 1, 1, 3), Flags(true, true, true, false),
                                        Known(SleepTask), 30);
      r.stats.totalFitcoins == 540 && r.stats.level == 1 && LevelFor(r.stats.totalFitcoins) == 2
  {
  }

  /** With no guard in the handler, a second event of an already completed
      kind pays again, and once all four are done every further event pays
      the streak bonus again. */
  lemma RepeatedCompletionReawards(stats: UserStats, kind: TaskKind, reward: int)
    requires stats.totalFitcoins + reward < 500 * stats.level
    ensures var r := HandleTaskComplete(stats, Flags(true, true, true, true), kind, reward);
      r.stats.totalFitcoins == stats.totalFitcoins + reward + StreakBonus
      && r.stats.streak == stats.streak + 1
  {
  }

  // ----------------------------------------------------------- event runs

  /** The state the reward engine reads and writes within one day. */
  datatype Day = Day(stats: UserStats, flags: Flags)

  datatype Event = Event(kind: TaskKind, reward: int)

  function Step(d: Day, e: Event): Day
  {
    var r := HandleTaskComplete(d.stats, d.flags, e.kind, e.reward);
    Day(r.stats, r.flags)
  }

  function Run(d: Day, es: seq<Event>): Day
    decreases |es|
  {
    if |es| == 0 then d else Run(Step(d, es[0]), es[1..])
  }

  /** Across any sequence of completions level and streak never decrease,
      flags once set stay set, and every event counts one task. */
  lemma {:induction false} RunMonotone(d: Day, es: seq<Event>)
    ensures Run(d, es).stats.level >= d.stats.level
    ensures Run(d, es).stats.streak >= d.stats.streak
    ensures Run(d, es).stats.completedTasks == d.stats.completedTasks + |es|
    ensures forall c :: d.flags.Done(c) ==> Run(d, es).flags.Done(c)
    decreases |es|
  {
    if |es| > 0 {
      RunMonotone(Step(d, es[0]), es[1..]);
    }
  }

  /** Sum of the rewards carried by a sequence of events. */
  function SumRewards(es: seq<Event>): int
  {
    if |es| == 0 then 0 else es[0].reward + SumRewards(es[1..])
  }

  /** Events whose kinds are pairwise distinct categories not yet done. */
  predicate FreshDistinct(f: Flags, es: seq<Event>)
  {
    && (forall i :: 0 <= i < |es| ==> es[i].kind.Known? && !f.Done(es[i].kind.category))
    && (forall i, j :: 0 <= i < j < |es| ==> es[i].kind != es[j].kind)
  }

  /** Marking a category that was not done raises the count by exactly one. */
  lemma MarkFreshCount(f: Flags, c: Category)
    requires !f.Done(c)
    ensures CountDone(MarkDone(f, Known(c))) == CountDone(f) + 1
  {
    match c
    case WorkoutTask =>
    case DietTask =>
    case WaterTask =>
    case SleepTask =>
  }

  /** After the first event of a generated distinct run, the rest is generated and distinct too. */
  lemma FreshTail(d: Day, es: seq<Event>)
    requires FreshDistinct(d.flags, es) && |es| > 0
    ensures FreshDistinct(Step(d, es[0]).flags, es[1..])
  {
    var f1 := Step(d, es[0]).flags;
    var rest := es[1..];
    forall i | 0 <= i < |rest|
      ensures rest[i].kind.Known? && !f1.Done(rest[i].kind.category)
    {
      assert rest[i] == es[i + 1];
    }
    forall i, j | 0 <= i < j < |rest|
      ensures rest[i].kind != rest[j].kind
    {
      assert rest[i] == es[i + 1] && rest[j] == es[j + 1];
    }
  }

  /** Completing not-yet-done categories once each: every event raises the
      count of done categories by one, so the streak grows (and +50 is paid)
      only on the event that completes the fourth, and at most once. */
  lemma {:induction false} StreakOnce(d: Day, es: seq<Event>)
    requires FreshDistinct(d.flags, es)
    ensures CountDone(Run(d, es).flags) == CountDone(d.flags) + |es|
    ensures forall c :: Run(d, es).flags.Done(c) <==>
      d.flags.Done(c) || exists i :: 0 <= i < |es| && es[i].kind == Known(c)
    ensures Run(d, es).stats.streak ==
      d.stats.streak + (if |es| > 0 && CountDone(d.flags) + |es| == 4 then 1 else 0)
    decreases |es|
  {
    if |es| > 0 {
      var d1 := Step(d, es[0]);
      var rest := es[1..];
      MarkFreshCount(d.flags, es[0].kind.category);
      FreshTail(d, es);
      StreakOnce(d1, rest);
      if |rest| > 0 && CountDone(d1.flags) == 4 {
        // All four are done after the first event, yet `rest` holds one more generated category.
        assert false;
      }
      forall c
        ensures Run(d, es).flags.Done(c) <==>
          d.flags.Done(c) || exists i :: 0 <= i < |es| && es[i].kind == Known(c)
      {
        if exists i :: 0 <= i < |rest| && rest[i].kind == Known(c) {
          var i :| 0 <= i < |rest| && rest[i].kind == Known(c);
          assert es[i + 1].kind == Known(c);
        }
        if exists i :: 0 <= i < |es| && es[i].kind == Known(c) {
          var i :| 0 <= i < |es| && es[i].kind == Known(c);
          if i > 0 {
            assert rest[i - 1].kind == Known(c);
          }
        }
      }
    }
  }

  /** While the running total stays below the next level boundary, a run of
      generated distinct completions pays exactly its rewards plus at most one
      streak bonus and keeps the level. */
  lemma {:induction false} RunWithoutLevelUp(d: Day, es: seq<Event>)
    requires FreshDistinct(d.flags, es)
    requires forall i :: 0 <= i < |es| ==> es[i].reward >= 0
    requires d.stats.totalFitcoins + SumRewards(es) < LevelSpan * d.stats.level
    ensures Run(d, es).stats.level == d.stats.level
    ensures Run(d, es).stats.totalFitcoins == d.stats.totalFitcoins + SumRewards(es)
      + (if |es| > 0 && CountDone(d.flags) + |es| == 4 then StreakBonus else 0)
    decreases |es|
  {
    if |es| > 0 {
      var d1 := Step(d, es[0]);
      var rest := es[1..];
      RewardsNonNegative(rest);
      assert LevelFor(d.stats.totalFitcoins + es[0].reward) <= d.stats.level;
      MarkFreshCount(d.flags, es[0].kind.category);
      FreshTail(d, es);
      if CountDone(d.flags) + 1 == 4 {
        if |rest| > 0 {
          assert false;
        }
        assert Run(d, es) == Run(d1, rest) == d1;
      } else {
        RunWithoutLevelUp(d1, rest);
      }
    }
  }

  lemma {:induction false} RewardsNonNegative(es: seq<Event>)
    requires forall i :: 0 <= i < |es| ==> es[i].reward >= 0
    ensures SumRewards(es) >= 0
    decreases |es|
  {
    if |es| > 0 {
      assert forall i :: 0 <= i < |es| - 1 ==> es[1..][i].reward >= 0 by {
        forall i | 0 <= i < |es| - 1 ensures es[1..][i].reward >= 0 {
          assert es[1..][i] == es[i + 1];
        }
      }
      RewardsNonNegative(es[1..]);
    }
  }
}
