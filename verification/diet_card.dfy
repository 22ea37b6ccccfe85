/** The diet card: tick meals by hand, or verify one meal by photo and
    confirm it; the completion event fires on a confirm that leaves every
    meal covered. */
module DietCard {
  import opened Types
  import Checklist
  import PlanGenerator

  datatype CardState = CardState(
    checked: set<int>,                 // ticked meal indices
    verifying: Option<int>,            // the meal under photo verification
    showPhoto: bool,                   // photo verification overlay open
    data: Option<VerificationData>,    // what the last verification returned
    showModal: bool,                   // verdict overlay open
    showDetails: bool)                 // the meal list expanded

  const Initial := CardState({}, None, false, None, false, false)

  predicate OverlayOpen(st: CardState)
  {
    st.showPhoto || st.showModal
  }

  predicate AllTicked(st: CardState, plan: DietPlan)
  {
    forall j :: 0 <= j < |plan.meals| ==> j in st.checked
  }

  // ----------------------------------------------------------- calories

  /** The day's calories: the meals' calories summed in order. */
  function TotalCalories(meals: seq<Meal>): int
  {
    if |meals| == 0 then 0 else TotalCalories(meals[..|meals| - 1]) + meals[|meals| - 1].calories
  }

  /** The `reduce` that computes the header's calorie count. */
  method SumCalories(meals: seq<Meal>) returns (total: int)
    ensures total == TotalCalories(meals)
  {
    total := 0;
    var i := 0;
    while i < |meals|
      invariant 0 <= i <= |meals|
      invariant total == TotalCalories(meals[..i])
    {
      assert meals[..i + 1][..i] == meals[..i];
      total := total + meals[i].calories;
      i := i + 1;
    }
    assert meals[..|meals|] == meals;
  }

  /** The generated menus total 1730, 1680, 1460 and 1030 kcal. */
  lemma GeneratedCalories(profile: UserProfile, now: nat)
    ensures TotalCalories(PlanGenerator.GenerateDietPlan(profile, now).meals) ==
      match profile.goal
      case MuscleGain => 1730
      case StrengthGain => 1680
      case StaminaGain => 1460
      case FatLoss => 1030
  {
    var m := PlanGenerator.GenerateDietPlan(profile, now).meals;
    assert m[..1][..0] == [];
    assert TotalCalories(m[..1]) == m[0].calories;
    assert m[..2][..1] == m[..1];
    assert TotalCalories(m[..2]) == m[0].calories + m[1].calories;
    assert m[..3][..2] == m[..2];
    assert TotalCalories(m[..3]) == m[0].calories + m[1].calories + m[2].calories;
    assert m[..3] == m[..|m| - 1];
  }

  // ----------------------------------------------------------- handlers

  function HandleMealComplete(st: CardState, i: int): (r: CardState)
    ensures i in r.checked <==> i !in st.checked
    ensures forall j :: j != i ==> (j in r.checked <==> j in st.checked)
    ensures r.(checked := st.checked) == st
  {
    st.(checked := Checklist.Toggle(st.checked, i))
  }

  function HandleVerifyMeal(st: CardState, i: int): (r: CardState)
    ensures r.verifying == Some(i) && r.showPhoto
    ensures r.(verifying := st.verifying, showPhoto := st.showPhoto) == st
  {
    st.(verifying := Some(i), showPhoto := true)
  }

  /** Stores the verification and shows the verdict; the `verified` flag is not read. */
  function HandleVerificationComplete(st: CardState, verified: bool, d: VerificationData): (r: CardState)
    ensures !r.showPhoto && r.showModal && r.data == Some(d)
    ensures r.checked == st.checked && r.verifying == st.verifying
    ensures r.(showPhoto := st.showPhoto, data := st.data, showModal := st.showModal) == st
  {
    st.(showPhoto := false, data := Some(d), showModal := true)
  }

  /** The ticks the completion check counts: the current ticks plus the meal being verified. */
  function CoveredAfterConfirm(st: CardState): set<int>
  {
    match st.verifying
    case Some(i) => st.checked + {i}
    case None => st.checked
  }

  /** Closes the verdict, toggles the verified meal and clears it, and decides
      whether `onComplete` is called: when the ticks plus the verified meal are
      as many as the meals and the plan is not yet completed. */
  function HandleConfirmCompletion(st: CardState, plan: DietPlan): (r: (CardState, bool))
    ensures !r.0.showModal && r.0.verifying.None?
    ensures st.verifying.Some? && st.verifying.value !in st.checked ==>
      r.0.checked == st.checked + {st.verifying.value}
    ensures st.verifying.Some? && st.verifying.value in st.checked ==>
      r.0.checked == st.checked - {st.verifying.value}
    ensures st.verifying.None? ==> r.0.checked == st.checked
    ensures r.0.showPhoto == st.showPhoto && r.0.data == st.data && r.0.showDetails == st.showDetails
    ensures r.1 <==> |CoveredAfterConfirm(st)| == |plan.meals| && !plan.completed
  {
    var closed := st.(showModal := false);
    var next := match st.verifying
      case Some(i) => HandleMealComplete(closed, i).(verifying := None)
      case None => closed;
    (next, |CoveredAfterConfirm(st)| == |plan.meals| && !plan.completed)
  }

  // ------------------------------------------------------ the card's UI

  datatype UiEvent =
    | ToggleMeal(index: int)
    | ClickVerify(index: int)
    | PhotoDone(verified: bool, result: VerificationData)
    | PhotoCancel
    | ModalClose
    | ModalConfirm
    | ToggleDetails

  /** Whether the control an event stands for is on screen and reachable.
      The ticks and Verify buttons are in the meal list, shown only while
      expanded; Verify is shown only for an unticked meal of an unfinished
      plan; an open overlay covers the card; Confirm is offered only for a verified photo. */
  predicate Available(st: CardState, plan: DietPlan, e: UiEvent)
  {
    match e
    case ToggleMeal(i) => !OverlayOpen(st) && st.showDetails && 0 <= i < |plan.meals|
    case ClickVerify(i) =>
      !OverlayOpen(st) && st.showDetails && 0 <= i < |plan.meals| && i !in st.checked
      && !plan.completed
    case PhotoDone(_, _) => st.showPhoto && st.verifying.Some?
    case PhotoCancel => st.showPhoto && st.verifying.Some?
    case ModalClose => st.showModal && st.data.Some? && st.verifying.Some?
    case ModalConfirm =>
      st.showModal && st.data.Some? && st.verifying.Some? && st.data.value.ai.verified
    case ToggleDetails => !OverlayOpen(st)
  }

  /** The card's state and, when `onComplete` is called, its argument. */
  datatype Output = Output(state: CardState, completion: Option<Option<VerificationData>>)

  function Step(st: CardState, plan: DietPlan, e: UiEvent): Output
  {
    if !Available(st, plan, e) then Output(st, None)
    else match e
      case ToggleMeal(i) => Output(HandleMealComplete(st, i), None)
      case ClickVerify(i) => Output(HandleVerifyMeal(st, i), None)
      case PhotoDone(v, d) => Output(HandleVerificationComplete(st, v, d), None)
      case PhotoCancel => Output(st.(showPhoto := false, verifying := None), None)
      case ModalClose => Output(st.(showModal := false, verifying := None), None)
      case ModalConfirm =>
        var r := HandleConfirmCompletion(st, plan);
        Output(r.0, if r.1 then Some(st.data) else None)
      case ToggleDetails => Output(st.(showDetails := !st.showDetails), None)
  }

  /** The meal rows, with their tick and Verify buttons, are rendered only
      while the meal plan is shown: with it collapsed neither changes
      anything, and "View Meal Plan" then "Hide Meal Plan" restores the state. */
  lemma DetailsGateMeals(st: CardState, plan: DietPlan, i: int)
    requires !OverlayOpen(st)
    ensures !st.showDetails ==> Step(st, plan, ToggleMeal(i)).state == st
    ensures !st.showDetails ==> Step(st, plan, ClickVerify(i)).state == st
    ensures st.showDetails && 0 <= i < |plan.meals| ==>
      Step(st, plan, ToggleMeal(i)).state.checked == Checklist.Toggle(st.checked, i)
    ensures Step(Step(st, plan, ToggleDetails).state, plan, ToggleDetails).state == st
  {
  }

  /** What holds of every state the card can reach. */
  predicate Inv(st: CardState, plan: DietPlan)
  {
    && Checklist.Within(st.checked, |plan.meals|)
    && (OverlayOpen(st) ==>
          st.verifying.Some? && 0 <= st.verifying.value < |plan.meals|
          && st.verifying.value !in st.checked)
    && (!OverlayOpen(st) ==> st.verifying.None?)
    && (st.showModal ==> st.data.Some?)
    && !(st.showPhoto && st.showModal)
  }

  lemma InitialInv(plan: DietPlan)
    ensures Inv(Initial, plan)
  {
  }

  /** On a reachable state, confirm fires exactly when the verified meal
      completes the menu, and its toggle then ticks (never unticks) that meal. */
  lemma ConfirmFiresIffMenuCovered(st: CardState, plan: DietPlan)
    requires Inv(st, plan) && st.showModal
    ensures var r := HandleConfirmCompletion(st, plan);
      && (r.1 <==> AllTicked(r.0, plan) && !plan.completed)
      && r.0.checked == CoveredAfterConfirm(st)
  {
    var r := HandleConfirmCompletion(st, plan);
    Checklist.FullIffAllTicked(CoveredAfterConfirm(st), |plan.meals|);
  }

  /** Every UI step keeps the invariant. Only Confirm of a verified photo can
      fire the completion event, and then every meal is ticked. Ticking by
      hand never fires it, and confirm or either cancel clears the meal under
      verification. */
  lemma StepSafe(st: CardState, plan: DietPlan, e: UiEvent)
    requires Inv(st, plan)
    ensures var o := Step(st, plan, e);
      && Inv(o.state, plan)
      && (o.completion.Some? ==>
            && e == ModalConfirm && !plan.completed
            && o.completion.value == st.data && st.data.value.ai.verified
            && AllTicked(o.state, plan))
      && (e.ToggleMeal? ==> o.completion.None?)
      && (Available(st, plan, e) && (e.ModalConfirm? || e.ModalClose? || e.PhotoCancel?) ==>
            o.state.verifying.None?)
  {
    if e == ModalConfirm && Available(st, plan, e) {
      ConfirmFiresIffMenuCovered(st, plan);
    }
  }
}
