/** The sleep card: a slider of hours (in half-hours here), clamped to
    [0, 12 h], that raises the completion event the first time the target is
    met, plus the quality label and the hint derived from the hours. */
module SleepTracker {
  import opened Types

  /** The slider's upper bound, 12 hours. */
  const MaxHalfHours := 24

  function Clamp(hours: int): (h: int)
    ensures 0 <= h <= MaxHalfHours
    ensures 0 <= hours <= MaxHalfHours ==> h == hours
    ensures hours < 0 ==> h == 0
    ensures hours > MaxHalfHours ==> h == MaxHalfHours
  {
    if hours < 0 then 0 else if hours > MaxHalfHours then MaxHalfHours else hours
  }

  /** The card's request: the clamped hours for `onUpdate`, and whether `onComplete` is called. */
  datatype SleepUpdate = SleepUpdate(hours: int, completes: bool)

  function UpdateSleep(s: SleepGoal, hours: int): (u: SleepUpdate)
    ensures 0 <= u.hours <= MaxHalfHours
    ensures u.hours == Clamp(hours)
    ensures u.completes <==> u.hours >= s.target && !s.completed
  {
    var clamped := Clamp(hours);
    SleepUpdate(clamped, clamped >= s.target && !s.completed)
  }

  /** A completed goal is never completed again, whatever the slider says. */
  lemma CompletesOnce(s: SleepGoal, h1: int, h2: int)
    requires UpdateSleep(s, h1).completes
    ensures !UpdateSleep(s.(actual := UpdateSleep(s, h1).hours, completed := true), h2).completes
  {
  }

  /** Every generated target (7.5 h to 9.5 h) can be met on the slider. */
  lemma TargetReachable(s: SleepGoal)
    requires 15 <= s.target <= 19 && !s.completed
    ensures UpdateSleep(s, MaxHalfHours).completes
  {
  }

  datatype Quality = Poor | Fair | Good | Excellent

  function Rank(q: Quality): nat
  {
    match q
    case Poor => 0
    case Fair => 1
    case Good => 2
    case Excellent => 3
  }

  /** Excellent at the target, Good from 80 %, Fair from 60 %, else Poor. */
  function QualityOf(actual: int, target: int): (q: Quality)
    ensures q == Excellent <==> actual >= target
    ensures q == Good <==> actual < target && 5 * actual >= 4 * target
    ensures q == Fair <==> 5 * actual < 4 * target && 5 * actual >= 3 * target && actual < target
    ensures q == Poor <==> 5 * actual < 3 * target && actual < target
  {
    if actual >= target then Excellent
    else if 5 * actual >= 4 * target then Good
    else if 5 * actual >= 3 * target then Fair
    else Poor
  }

  /** More sleep never gives a worse label. */
  lemma QualityMonotone(a1: int, a2: int, target: int)
    requires a1 <= a2 && target >= 0
    ensures Rank(QualityOf(a1, target)) <= Rank(QualityOf(a2, target))
  {
  }

  /** The "more needed" hint: shown only below the target, and then positive. */
  function MoreNeeded(hours: int, target: int): (r: Option<int>)
    ensures r.Some? <==> hours < target
    ensures r.Some? ==> r.value > 0 && hours + r.value == target
  {
    if hours < target then Some(target - hours) else None
  }

  /** Width of the progress bar, in percent of the target, capped at 100. */
  function ProgressWidth(actual: int, target: int): (pct: real)
    requires target > 0
    ensures pct <= 100.0
    ensures actual >= target <==> pct == 100.0
    ensures 0 <= actual ==> 0.0 <= pct
    ensures actual < target ==> pct * (target as real) == (actual as real) * 100.0
  {
    var p := (actual as real) * 100.0 / (target as real);
    if p < 100.0 then p else 100.0
  }

  /** Comparing a ratio p = x / t (t positive) with a threshold k is comparing
      x with k·t. */
  lemma ThresholdScaled(p: real, t: real, x: real, k: real)
    requires t > 0.0 && p * t == x
    ensures p >= k <==> x >= k * t
  {
    assert p * t - k * t == (p - k) * t;
    if p >= k {
      assert (p - k) * t >= 0.0;
    } else {
      assert (k - p) * t > 0.0;
    }
  }

  /** The bar and the quality label read the same ratio: the bar reaches 80 %
      exactly when the label is Good or better, and 60 % exactly when it is
      Fair or better; more sleep never shortens the bar. */
  lemma {:induction false} WidthAgreesWithQuality(actual: int, a2: int, target: int)
    requires target > 0 && actual <= a2
    ensures ProgressWidth(actual, target) >= 80.0 <==> Rank(QualityOf(actual, target)) >= Rank(Good)
    ensures ProgressWidth(actual, target) >= 60.0 <==> Rank(QualityOf(actual, target)) >= Rank(Fair)
    ensures ProgressWidth(actual, target) <= ProgressWidth(a2, target)
  {
    var t := target as real;
    if actual < target {
      var p := ProgressWidth(actual, target);
      var x := (actual as real) * 100.0;
      ThresholdScaled(p, t, x, 80.0);
      ThresholdScaled(p, t, x, 60.0);
      if a2 < target {
        ThresholdScaled(ProgressWidth(a2, target), t, (a2 as real) * 100.0, p);
      }
    }
  }
}
