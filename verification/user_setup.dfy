/** The onboarding form: a partial profile filled field by field, submitted
    only when every field is truthy in the JavaScript sense. */
module UserSetup {
  import opened Types
  import Strings

  /** The partial profile being filled in. Numeric fields hold what
      `parseInt` made of the input's text; `None` is a field never touched. */
  datatype Draft = Draft(
    name: Option<string>,
    age: Option<Strings.JsNumber>,
    height: Option<Strings.JsNumber>,
    weight: Option<Strings.JsNumber>,
    goal: Option<Goal>,
    gender: Option<Gender>)

  const EmptyDraft := Draft(None, None, None, None, None, None)

  /** The goal ids offered as radio buttons, in order. */
  const GoalChoices: seq<string> := ["muscle_gain", "strength_gain", "stamina_gain", "fat_loss"]

  /** The four choices are exactly the ids of the four goals. */
  lemma GoalChoicesAreTheGoals()
    ensures forall g: Goal :: GoalId(g) in GoalChoices
    ensures forall i :: 0 <= i < |GoalChoices| ==> GoalFromId(GoalChoices[i]).Some?
  {
    assert GoalId(MuscleGain) == GoalChoices[0];
    assert GoalId(StrengthGain) == GoalChoices[1];
    assert GoalId(StaminaGain) == GoalChoices[2];
    assert GoalId(FatLoss) == GoalChoices[3];
  }

  predicate TruthyText(f: Option<string>)
  {
    f.Some? && |f.value| > 0
  }

  /** A number is truthy unless it is missing, NaN or zero. */
  predicate TruthyNumber(f: Option<Strings.JsNumber>)
  {
    f.Some? && f.value.Num? && f.value.value != 0
  }

  /** The submit handler: the profile, when every field is truthy. No range is checked. */
  function Submit(d: Draft): (r: Option<UserProfile>)
    ensures r.Some? <==>
      TruthyText(d.name) && TruthyNumber(d.age) && TruthyNumber(d.height)
      && TruthyNumber(d.weight) && d.goal.Some? && d.gender.Some?
    ensures r.Some? ==>
      && Some(r.value.name) == d.name
      && Some(Strings.Num(r.value.age)) == d.age
      && Some(Strings.Num(r.value.height)) == d.height
      && Some(Strings.Num(r.value.weight)) == d.weight
      && Some(r.value.goal) == d.goal && Some(r.value.gender) == d.gender
  {
    if TruthyText(d.name) && TruthyNumber(d.age) && TruthyNumber(d.height)
       && TruthyNumber(d.weight) && d.goal.Some? && d.gender.Some?
    then Some(UserProfile(d.name.value, d.age.value.value, d.height.value.value,
                          d.weight.value.value, d.goal.value, d.gender.value))
    else None
  }

  /** One `onChange`: each input writes its own field; numeric inputs go through `parseInt`. */
  datatype Edit =
    | EditName(text: string)
    | EditAge(text: string)
    | EditHeight(text: string)
    | EditWeight(text: string)
    | PickGender(gender: Gender)
    | PickGoal(goal: Goal)

  function Apply(d: Draft, e: Edit): (r: Draft)
    ensures e.EditName? ==> r == d.(name := Some(e.text))
    ensures e.EditAge? ==> r == d.(age := Some(Strings.ParseInt(e.text)))
    ensures e.EditHeight? ==> r == d.(height := Some(Strings.ParseInt(e.text)))
    ensures e.EditWeight? ==> r == d.(weight := Some(Strings.ParseInt(e.text)))
    ensures e.PickGender? ==> r == d.(gender := Some(e.gender))
    ensures e.PickGoal? ==> r == d.(goal := Some(e.goal))
  {
    match e
    case EditName(t) => d.(name := Some(t))
    case EditAge(t) => d.(age := Some(Strings.ParseInt(t)))
    case EditHeight(t) => d.(height := Some(Strings.ParseInt(t)))
    case EditWeight(t) => d.(weight := Some(Strings.ParseInt(t)))
    case PickGender(g) => d.(gender := Some(g))
    case PickGoal(g) => d.(goal := Some(g))
  }

  function ApplyAll(d: Draft, es: seq<Edit>): Draft
    decreases |es|
  {
    if |es| == 0 then d else ApplyAll(Apply(d, es[0]), es[1..])
  }

  /** Clearing a numeric input (NaN) or typing 0 blocks the submit. */
  lemma EmptyOrZeroNumberRejected(d: Draft, t: string)
    requires t == "" || t == "0"
    ensures Submit(Apply(d, EditAge(t))).None?
    ensures Submit(Apply(d, EditHeight(t))).None?
    ensures Submit(Apply(d, EditWeight(t))).None?
  {
    if t == "0" {
      var k := Strings.DigitPrefixLength(t);
      assert k == 1;
      assert t[..1] == "0";
      assert Strings.DigitsValue(t[..1]) == Strings.DigitsValue("") * 10 + 0 by {
        assert t[..1][..0] == "";
      }
    }
  }

  /** The six inputs filled in the form's order. */
  function FillAll(name: string, ageText: string, heightText: string, weightText: string,
                   gender: Gender, goal: Goal): seq<Edit>
  {
    [EditName(name), EditAge(ageText), EditHeight(heightText), EditWeight(weightText),
     PickGender(gender), PickGoal(goal)]
  }

  /** Filling the six inputs submits exactly the parsed profile, whatever the
      numbers' ranges: `handleSubmit` itself checks no range. */
  lemma FilledFormSubmits(name: string, ageText: string, heightText: string, weightText: string,
                          gender: Gender, goal: Goal)
    requires |name| > 0
    requires TruthyNumber(Some(Strings.ParseInt(ageText)))
    requires TruthyNumber(Some(Strings.ParseInt(heightText)))
    requires TruthyNumber(Some(Strings.ParseInt(weightText)))
    ensures Submit(ApplyAll(EmptyDraft, FillAll(name, ageText, heightText, weightText, gender, goal)))
      == Some(UserProfile(name, Strings.ParseInt(ageText).value, Strings.ParseInt(heightText).value,
                          Strings.ParseInt(weightText).value, goal, gender))
  {
    var es := FillAll(name, ageText, heightText, weightText, gender, goal);
    var d6 := Draft(Some(name), Some(Strings.ParseInt(ageText)), Some(Strings.ParseInt(heightText)),
                    Some(Strings.ParseInt(weightText)), Some(goal), Some(gender));
    var d5 := d6.(goal := None);
    var d4 := d5.(gender := None);
    var d3 := d4.(weight := None);
    var d2 := d3.(height := None);
    var d1 := d2.(age := None);
    assert ApplyAll(d6, es[6..]) == d6;
    assert ApplyAll(d5, es[5..]) == d6 by { assert es[5..][1..] == es[6..]; }
    assert ApplyAll(d4, es[4..]) == d6 by { assert es[4..][1..] == es[5..]; }
    assert ApplyAll(d3, es[3..]) == d6 by { assert es[3..][1..] == es[4..]; }
    assert ApplyAll(d2, es[2..]) == d6 by { assert es[2..][1..] == es[3..]; }
    assert ApplyAll(d1, es[1..]) == d6 by { assert es[1..][1..] == es[2..]; }
    assert ApplyAll(EmptyDraft, es) == d6 by { assert es[0..] == es; }
  }

  /** An age of 5 and a weight of 500 kg pass `handleSubmit`'s own check; only
      the browser's min/max validation, which runs before it, stands in the way. */
  lemma OutOfRangeAccepted()
    ensures Submit(ApplyAll(EmptyDraft, FillAll("A", Strings.NatToString(5), Strings.NatToString(170),
                                                Strings.NatToString(500), Male, FatLoss)))
      == Some(UserProfile("A", 5, 170, 500, FatLoss, Male))
  {
    Strings.ParseIntOfNatToString(5);
    Strings.ParseIntOfNatToString(170);
    Strings.ParseIntOfNatToString(500);
    FilledFormSubmits("A", Strings.NatToString(5), Strings.NatToString(170), Strings.NatToString(500),
                      Male, FatLoss);
  }
}
