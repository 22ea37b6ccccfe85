/** The workout card: tick the exercises, open photo verification once all
    are ticked, see the AI verdict, and confirm to raise the completion event. */
module WorkoutCard {
  import opened Types
  import Checklist

  datatype CardState = CardState(
    checked: set<int>,                 // ticked exercise indices
    showPhoto: bool,                   // photo verification overlay open
    data: Option<VerificationData>,    // what the last verification returned
    showModal: bool,                   // verdict overlay open
    showDetails: bool)                 // the exercise list expanded

  const Initial := CardState({}, false, None, false, false)

  predicate OverlayOpen(st: CardState)
  {
    st.showPhoto || st.showModal
  }

  predicate AllTicked(st: CardState, plan: WorkoutPlan)
  {
    forall j :: 0 <= j < |plan.exercises| ==> j in st.checked
  }

  // ----------------------------------------------------------- handlers

  function HandleExerciseComplete(st: CardState, i: int): (r: CardState)
    ensures i in r.checked <==> i !in st.checked
    ensures forall j :: j != i ==> (j in r.checked <==> j in st.checked)
    ensures r.(checked := st.checked) == st
  {
    st.(checked := Checklist.Toggle(st.checked, i))
  }

  /** Opens photo verification only when as many exercises are ticked as the plan has. */
  function HandleVerifyWorkout(st: CardState, plan: WorkoutPlan): (r: CardState)
    ensures r.(showPhoto := st.showPhoto) == st
    ensures r.showPhoto <==> st.showPhoto || |st.checked| == |plan.exercises|
  {
    if |st.checked| == |plan.exercises| then st.(showPhoto := true) else st
  }

  /** Stores the verification and shows the verdict; the `verified` flag is not read. */
  function HandleVerificationComplete(st: CardState, verified: bool, d: VerificationData): (r: CardState)
    ensures !r.showPhoto && r.showModal && r.data == Some(d) && r.checked == st.checked
    ensures r.(showPhoto := st.showPhoto, data := st.data, showModal := st.showModal) == st
  {
    st.(showPhoto := false, data := Some(d), showModal := true)
  }

  lemma VerdictFlagIgnored(st: CardState, d: VerificationData)
    ensures HandleVerificationComplete(st, true, d) == HandleVerificationComplete(st, false, d)
  {
  }

  /** Closes the verdict overlay and hands the stored verification to `onComplete`. */
  function HandleConfirmCompletion(st: CardState): (r: (CardState, Option<VerificationData>))
    ensures !r.0.showModal && r.0.(showModal := st.showModal) == st
    ensures r.1 == st.data
  {
    (st.(showModal := false), st.data)
  }

  // ------------------------------------------------------ the card's UI

  datatype UiEvent =
    | ToggleExercise(index: int)
    | ClickVerify
    | PhotoDone(verified: bool, result: VerificationData)
    | PhotoCancel
    | ModalClose
    | ModalConfirm
    | ToggleDetails

  /** The verify button is rendered only for an unfinished plan with every exercise ticked. */
  predicate VerifyOffered(st: CardState, plan: WorkoutPlan)
  {
    !plan.completed && |st.checked| == |plan.exercises|
  }

  /** Whether the control an event stands for is on screen and reachable.
      An open overlay covers the card; the exercise ticks are in the details
      list, shown only while expanded; the verdict overlay offers Confirm only
      for a verified photo. */
  predicate Available(st: CardState, plan: WorkoutPlan, e: UiEvent)
  {
    match e
    case ToggleExercise(i) => !OverlayOpen(st) && st.showDetails && 0 <= i < |plan.exercises|
    case ClickVerify => !OverlayOpen(st) && VerifyOffered(st, plan)
    case PhotoDone(_, _) => st.showPhoto
    case PhotoCancel => st.showPhoto
    case ModalClose => st.showModal && st.data.Some?
    case ModalConfirm => st.showModal && st.data.Some? && st.data.value.ai.verified
    case ToggleDetails => !OverlayOpen(st)
  }

  /** The card's state and, when `onComplete` is called, its argument. */
  datatype Output = Output(state: CardState, completion: Option<VerificationData>)

  function Step(st: CardState, plan: WorkoutPlan, e: UiEvent): Output
  {
    if !Available(st, plan, e) then Output(st, None)
    else match e
      case ToggleExercise(i) => Output(HandleExerciseComplete(st, i), None)
      case ClickVerify => Output(HandleVerifyWorkout(st, plan), None)
      case PhotoDone(v, d) => Output(HandleVerificationComplete(st, v, d), None)
      case PhotoCancel => Output(st.(showPhoto := false), None)
      case ModalClose => Output(st.(showModal := false), None)
      case ModalConfirm =>
        var r := HandleConfirmCompletion(st);
        Output(r.0, r.1)
      case ToggleDetails => Output(st.(showDetails := !st.showDetails), None)
  }

  /** The exercise rows are rendered only while the details are shown: with
      the list collapsed a tick changes nothing, and "View Workout" then
      "Hide Details" restores the state. */
  lemma DetailsGateTicks(st: CardState, plan: WorkoutPlan, i: int)
    requires !OverlayOpen(st)
    ensures !st.showDetails ==> Step(st, plan, ToggleExercise(i)).state == st
    ensures st.showDetails && 0 <= i < |plan.exercises| ==>
      Step(st, plan, ToggleExercise(i)).state.checked == Checklist.Toggle(st.checked, i)
    ensures Step(Step(st, plan, ToggleDetails).state, plan, ToggleDetails).state == st
  {
  }

  /** What holds of every state the card can reach. */
  predicate Inv(st: CardState, plan: WorkoutPlan)
  {
    && Checklist.Within(st.checked, |plan.exercises|)
    && (OverlayOpen(st) ==> |st.checked| == |plan.exercises|)
    && (st.showModal ==> st.data.Some?)
    && !(st.showPhoto && st.showModal)
  }

  lemma InitialInv(plan: WorkoutPlan)
    ensures Inv(Initial, plan)
  {
  }

  /** Every UI step keeps the invariant; the completion event fires only on
      Confirm of a verified photo, with every exercise ticked, and closes the
      overlay. */
  lemma StepSafe(st: CardState, plan: WorkoutPlan, e: UiEvent)
    requires Inv(st, plan)
    ensures var o := Step(st, plan, e);
      && Inv(o.state, plan)
      && (o.completion.Some? ==>
            && e == ModalConfirm
            && o.completion == st.data && o.completion.value.ai.verified
            && AllTicked(o.state, plan)
            && !OverlayOpen(o.state))
  {
    var o := Step(st, plan, e);
    if o.completion.Some? {
      Checklist.FullIffAllTicked(st.checked, |plan.exercises|);
    }
  }

  /** Once the plan is completed no new verification can start, so a card
      with no overlay open never raises the completion event again. */
  lemma CompletedPlanStaysQuiet(st: CardState, plan: WorkoutPlan, e: UiEvent)
    requires Inv(st, plan) && plan.completed && !OverlayOpen(st)
    ensures Step(st, plan, e).completion.None?
    ensures !OverlayOpen(Step(st, plan, e).state)
  {
  }
}
