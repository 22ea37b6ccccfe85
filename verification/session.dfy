/** The running app for one day: the stats and the four plans it holds, the
    completion handler applied to them, and the water and sleep trackers'
    requests wired through `onUpdate` and `onComplete`. */
module Session {
  import opened Types
  import App
  import Dashboard
  import WaterTracker
  import SleepTracker

  datatype Session = Session(stats: UserStats, plans: App.Plans)

  /** The plans with the completed category's plan marked done. */
  function MarkPlan(p: App.Plans, kind: App.TaskKind): (r: App.Plans)
    ensures r.FlagsOf() == App.MarkDone(p.FlagsOf(), kind)
    ensures Dashboard.WithFlags(r, p.FlagsOf()) == Dashboard.WithFlags(p, p.FlagsOf())
  {
    match kind
    case Known(WorkoutTask) => p.(workout := p.workout.(completed := true))
    case Known(DietTask) => p.(diet := p.diet.(completed := true))
    case Known(WaterTask) => p.(water := p.water.(completed := true))
    case Known(SleepTask) => p.(sleep := p.sleep.(completed := true))
    case Unknown(_) => p
  }

  /** `onCompleteTask`: the reward transition on the held stats and flags;
      the completed plan is written back with its flag set and nothing else changed. */
  function CompleteTask(s: Session, kind: App.TaskKind, reward: int): (r: Session)
    ensures var c := App.HandleTaskComplete(s.stats, s.plans.FlagsOf(), kind, reward);
      r.stats == c.stats && r.plans.FlagsOf() == c.flags
    ensures r.plans.water.current == s.plans.water.current
    ensures r.plans.sleep.actual == s.plans.sleep.actual
    ensures Dashboard.WithFlags(r.plans, s.plans.FlagsOf()) == Dashboard.WithFlags(s.plans, s.plans.FlagsOf())
  {
    var c := App.HandleTaskComplete(s.stats, s.plans.FlagsOf(), kind, reward);
    Session(c.stats, MarkPlan(s.plans, kind))
  }

  /** A card's completion, with the reward the dashboard passes for its category. */
  function Complete(s: Session, c: Category): Session
  {
    CompleteTask(s, App.Known(c), Dashboard.RewardFor(s.plans, c))
  }

  /** The reward a category's completion carries is the `fitcoins` of the one
      plan that completion marks done, so every card is paid its own reward. */
  lemma RewardIsMarkedPlansReward(p: App.Plans, c: Category)
    requires !p.FlagsOf().Done(c)
    ensures var r := MarkPlan(p, App.Known(c));
      && (r.workout != p.workout || r.diet != p.diet || r.water != p.water || r.sleep != p.sleep)
      && (r.workout != p.workout ==> Dashboard.RewardFor(p, c) == p.workout.fitcoins)
      && (r.diet != p.diet ==> Dashboard.RewardFor(p, c) == p.diet.fitcoins)
      && (r.water != p.water ==> Dashboard.RewardFor(p, c) == p.water.fitcoins)
      && (r.sleep != p.sleep ==> Dashboard.RewardFor(p, c) == p.sleep.fitcoins)
  {
  }

  /** `onUpdateWater`: the held water goal gets the new amount. */
  function SetWater(s: Session, amount: int): (r: Session)
    ensures r.plans.water.current == amount
    ensures r.stats == s.stats && r.plans.FlagsOf() == s.plans.FlagsOf()
    ensures r.plans.water == s.plans.water.(current := amount)
    ensures r.plans.(water := s.plans.water) == s.plans
  {
    s.(plans := s.plans.(water := s.plans.water.(current := amount)))
  }

  /** `onUpdateSleep`: the held sleep goal gets the new hours. */
  function SetSleep(s: Session, hours: int): (r: Session)
    ensures r.plans.sleep.actual == hours
    ensures r.stats == s.stats && r.plans.FlagsOf() == s.plans.FlagsOf()
    ensures r.plans.sleep == s.plans.sleep.(actual := hours)
    ensures r.plans.(sleep := s.plans.sleep) == s.plans
  {
    s.(plans := s.plans.(sleep := s.plans.sleep.(actual := hours)))
  }

  // ------------------------------------------------------------- as written

  /** A glass added as the app does it. The tracker calls `onUpdate` then
      `onComplete` from one render, and both handlers rebuild the water goal
      from that render's copy: the completion handler's write, made last,
      carries the old amount and replaces the new one. */
  function AddGlassAsWritten(s: Session, g: WaterTracker.Glass): (r: Session)
    ensures var u := WaterTracker.AddWater(s.plans.water, g);
      && (u.completes ==> r.plans.water.current == s.plans.water.current && r.plans.water.completed)
      && (!u.completes ==> r.plans.water.current == u.amount)
  {
    var u := WaterTracker.AddWater(s.plans.water, g);
    if u.completes then Complete(s, WaterTask) else SetWater(s, u.amount)
  }

  /** Slider moved as the app does it; the completion write carries the old hours. */
  function SetSleepAsWritten(s: Session, hours: int): (r: Session)
    ensures var u := SleepTracker.UpdateSleep(s.plans.sleep, hours);
      && (u.completes ==> r.plans.sleep.actual == s.plans.sleep.actual && r.plans.sleep.completed)
      && (!u.completes ==> r.plans.sleep.actual == u.hours)
  {
    var u := SleepTracker.UpdateSleep(s.plans.sleep, hours);
    if u.completes then Complete(s, SleepTask) else SetSleep(s, u.hours)
  }

  /** The glass that reaches a 2750 ml target from 2500 ml marks the goal
      done, but the held amount stays 2500 ml while 2750 ml is what was saved;
      the card then shows 2.5 of 2.75 litres, completed, with its add buttons live. */
  lemma StaleWaterAmount()
    ensures var s := Session(App.InitialStats, App.Plans(
                       WorkoutPlan("w", "Workout", [], false, 150), DietPlan("d", [], false, 100),
                       WaterGoal(2750, 2500, false, 50), SleepGoal(16, 0, false, 75)));
      var u := WaterTracker.AddWater(s.plans.water, WaterTracker.Glass250);
      var r := AddGlassAsWritten(s, WaterTracker.Glass250);
      && u.completes && u.amount == 2750
      && r.plans.water.completed && r.plans.water.current == 2500
      && WaterTracker.AddEnabled(r.plans.water)
  {
  }

  /** Sleeping the full 8 hours of a 16 half-hour target marks sleep done, but
      the held hours stay 0, so the card labels that night Poor. */
  lemma StaleSleepHours()
    ensures var s := Session(App.InitialStats, App.Plans(
                       WorkoutPlan("w", "Workout", [], false, 150), DietPlan("d", [], false, 100),
                       WaterGoal(2750, 0, false, 50), SleepGoal(16, 0, false, 75)));
      var r := SetSleepAsWritten(s, 16);
      && r.plans.sleep.completed && r.plans.sleep.actual == 0
      && SleepTracker.QualityOf(r.plans.sleep.actual, r.plans.sleep.target) == SleepTracker.Poor
  {
  }

  // -------------------------------------------------------------- corrected

  /** A glass added with the completion applied on top of the updated amount.
      The held amount is what the tracker computed and what is saved; the goal
      is done exactly when it was or this glass completes it; the stats change
      exactly as the completion handler says, and only on that glass. */
  function AddGlass(s: Session, g: WaterTracker.Glass): (r: Session)
    ensures var u := WaterTracker.AddWater(s.plans.water, g);
      && r.plans.water.current == u.amount
      && (r.plans.water.completed <==> s.plans.water.completed || u.completes)
      && r.plans.water.target == s.plans.water.target
      && r.plans.water.fitcoins == s.plans.water.fitcoins
      && r.plans.workout == s.plans.workout && r.plans.diet == s.plans.diet
      && r.plans.sleep == s.plans.sleep
      && r.stats == (if u.completes
                     then App.HandleTaskComplete(s.stats, s.plans.FlagsOf(), App.Known(WaterTask),
                                                 s.plans.water.fitcoins).stats
                     else s.stats)
  {
    var u := WaterTracker.AddWater(s.plans.water, g);
    var updated := SetWater(s, u.amount);
    if u.completes then Complete(updated, WaterTask) else updated
  }

  /** A glass removed: only the held amount changes. */
  function RemoveGlass(s: Session, g: WaterTracker.Glass): (r: Session)
    ensures r.plans.water.current == WaterTracker.RemoveWater(s.plans.water, g).amount
    ensures r.stats == s.stats && r.plans.FlagsOf() == s.plans.FlagsOf()
    ensures r.plans.water == s.plans.water.(current := r.plans.water.current)
    ensures r.plans.(water := s.plans.water) == s.plans
  {
    SetWater(s, WaterTracker.RemoveWater(s.plans.water, g).amount)
  }

  /** The slider moved, with the completion applied on top of the updated
      hours: the held hours are the clamped ones, and the rest as for water. */
  function SetSleepHours(s: Session, hours: int): (r: Session)
    ensures var u := SleepTracker.UpdateSleep(s.plans.sleep, hours);
      && r.plans.sleep.actual == u.hours
      && (r.plans.sleep.completed <==> s.plans.sleep.completed || u.completes)
      && r.plans.sleep.target == s.plans.sleep.target
      && r.plans.sleep.fitcoins == s.plans.sleep.fitcoins
      && r.plans.workout == s.plans.workout && r.plans.diet == s.plans.diet
      && r.plans.water == s.plans.water
      && r.stats == (if u.completes
                     then App.HandleTaskComplete(s.stats, s.plans.FlagsOf(), App.Known(SleepTask),
                                                 s.plans.sleep.fitcoins).stats
                     else s.stats)
  {
    var u := SleepTracker.UpdateSleep(s.plans.sleep, hours);
    var updated := SetSleep(s, u.hours);
    if u.completes then Complete(updated, SleepTask) else updated
  }

  /** The stale write only affects the held amount: stats and flags agree with the corrected wiring. */
  lemma StaleWriteOnlyLosesAmount(s: Session, g: WaterTracker.Glass, hours: int)
    ensures AddGlassAsWritten(s, g).stats == AddGlass(s, g).stats
    ensures AddGlassAsWritten(s, g).plans.FlagsOf() == AddGlass(s, g).plans.FlagsOf()
    ensures AddGlassAsWritten(s, g) == AddGlass(s, g).(plans := AddGlassAsWritten(s, g).plans)
    ensures SetSleepAsWritten(s, hours).stats == SetSleepHours(s, hours).stats
  {
  }

  // ----------------------------------------------------------- water runs

  datatype WaterClick = Add(glass: WaterTracker.Glass) | Remove(glass: WaterTracker.Glass)

  function Click(s: Session, c: WaterClick): Session
  {
    match c
    case Add(g) => AddGlass(s, g)
    case Remove(g) => RemoveGlass(s, g)
  }

  function Clicks(s: Session, cs: seq<WaterClick>): Session
    decreases |cs|
  {
    if |cs| == 0 then s else Clicks(Click(s, cs[0]), cs[1..])
  }

  /** Any run of glass clicks keeps the held amount within [0, target] and,
      once the water goal is done, leaves the stats alone: the water reward is
      paid at most once a day. */
  lemma {:induction false} WaterClicksPayOnce(s: Session, cs: seq<WaterClick>)
    requires 0 <= s.plans.water.current <= s.plans.water.target
    ensures var r := Clicks(s, cs);
      && 0 <= r.plans.water.current <= r.plans.water.target
      && r.plans.water.target == s.plans.water.target
      && (s.plans.water.completed ==> r.stats == s.stats && r.plans.water.completed)
    decreases |cs|
  {
    if |cs| > 0 {
      var s1 := Click(s, cs[0]);
      WaterTracker.StaysInRange(s.plans.water, cs[0].glass);
      WaterClicksPayOnce(s1, cs[1..]);
    }
  }

  /** The same clicks with the app's wiring, where a completing glass keeps
      the old amount. */
  function ClicksAsWritten(s: Session, cs: seq<WaterClick>): Session
    decreases |cs|
  {
    if |cs| == 0 then s
    else
      var s1 := match cs[0]
        case Add(g) => AddGlassAsWritten(s, g)
        case Remove(g) => RemoveGlass(s, g);
      ClicksAsWritten(s1, cs[1..])
  }

  /** The stale write loses only the amount: since the completed flag is
      stored, the app as written also pays the water reward at most once
      and keeps the amount within [0, target]. */
  lemma {:induction false} WaterClicksAsWrittenPayOnce(s: Session, cs: seq<WaterClick>)
    requires 0 <= s.plans.water.current <= s.plans.water.target
    ensures var r := ClicksAsWritten(s, cs);
      && 0 <= r.plans.water.current <= r.plans.water.target
      && r.plans.water.target == s.plans.water.target
      && (s.plans.water.completed ==> r.stats == s.stats && r.plans.water.completed)
    decreases |cs|
  {
    if |cs| > 0 {
      var s1 := match cs[0]
        case Add(g) => AddGlassAsWritten(s, g)
        case Remove(g) => RemoveGlass(s, g);
      WaterTracker.StaysInRange(s.plans.water, cs[0].glass);
      WaterClicksAsWrittenPayOnce(s1, cs[1..]);
    }
  }
}
