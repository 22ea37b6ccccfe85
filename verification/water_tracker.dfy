/** The water card: add or remove one glass, clamped to [0, target], and
    raise the completion event the first time the target is reached. */
module WaterTracker {
  import opened Types

  /** The glass sizes on offer. */
  datatype Glass = Glass250 | Glass500 | Glass750 | Glass1000

  function Millilitres(g: Glass): (ml: int)
    ensures ml > 0 && ml % 250 == 0
  {
    match g
    case Glass250 => 250
    case Glass500 => 500
    case Glass750 => 750
    case Glass1000 => 1000
  }

  /** The card's request: the new amount for `onUpdate`, and whether `onComplete` is called. */
  datatype WaterUpdate = WaterUpdate(amount: int, completes: bool)

  /** One more glass, capped at the target; completes exactly when this glass
      reaches the target and the goal was not already completed. */
  function AddWater(w: WaterGoal, g: Glass): (u: WaterUpdate)
    ensures u.amount <= w.target
    ensures u.amount == w.current + Millilitres(g) || u.amount == w.target
    ensures w.current + Millilitres(g) < w.target ==> u.amount == w.current + Millilitres(g)
    ensures w.current + Millilitres(g) >= w.target ==> u.amount == w.target
    ensures w.current < w.target ==> w.current < u.amount
    ensures u.completes <==> w.current + Millilitres(g) >= w.target && !w.completed
    ensures u.completes ==> u.amount == w.target
  {
    var amount := if w.current + Millilitres(g) < w.target then w.current + Millilitres(g) else w.target;
    WaterUpdate(amount, amount >= w.target && !w.completed)
  }

  /** One glass less, floored at zero; never completes. */
  function RemoveWater(w: WaterGoal, g: Glass): (u: WaterUpdate)
    ensures u.amount >= 0
    ensures u.amount == w.current - Millilitres(g) || u.amount == 0
    ensures w.current >= 0 ==> u.amount <= w.current
    ensures w.current > 0 ==> u.amount < w.current
    ensures w.current - Millilitres(g) > 0 ==> u.amount == w.current - Millilitres(g)
    ensures w.current - Millilitres(g) <= 0 ==> u.amount == 0
    ensures !u.completes
  {
    var amount := if w.current - Millilitres(g) > 0 then w.current - Millilitres(g) else 0;
    WaterUpdate(amount, false)
  }

  /** The plus buttons are live while the target is not reached. */
  predicate AddEnabled(w: WaterGoal)
  {
    !(w.current >= w.target)
  }

  /** The minus button is live while some water is recorded. */
  predicate RemoveEnabled(w: WaterGoal)
  {
    !(w.current <= 0)
  }

  /** On a non-negative amount the minus button is live exactly when a click
      would change the amount: disabling it hides only no-op clicks. */
  lemma RemoveEnabledIffEffective(w: WaterGoal, g: Glass)
    requires 0 <= w.current
    ensures !RemoveEnabled(w) <==> RemoveWater(w, g).amount == w.current
  {
  }

  /** Amounts stay on the quarter-litre grid. */
  lemma QuarterLitreGrid(w: WaterGoal, g: Glass)
    requires w.current % 250 == 0 && w.target % 250 == 0
    ensures AddWater(w, g).amount % 250 == 0
    ensures RemoveWater(w, g).amount % 250 == 0
  {
  }

  /** Clamping keeps an in-range amount in range, whatever the button. */
  lemma StaysInRange(w: WaterGoal, g: Glass)
    requires 0 <= w.current <= w.target
    ensures 0 <= AddWater(w, g).amount <= w.target
    ensures 0 <= RemoveWater(w, g).amount <= w.target
  {
  }

  /** Adding to a completed goal never completes again, so the reward is
      requested at most once per goal. */
  lemma CompletesOnce(w: WaterGoal, g1: Glass, g2: Glass)
    requires AddWater(w, g1).completes
    ensures !AddWater(w.(current := AddWater(w, g1).amount, completed := true), g2).completes
    ensures !AddEnabled(w.(current := AddWater(w, g1).amount))
  {
  }
}
