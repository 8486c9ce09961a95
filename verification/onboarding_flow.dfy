/**
  The six-step parent onboarding flow. A step counter moves between 1 and 6
  with Continue and Back; neither button checks the form. The form holds five
  text fields, one dream career and two multi-select tag lists.
 */
module OnboardingFlow {
  import TagToggle

  /** `steps.length` */
  const StepCount: int := 6

  /** The titles of the six career cards on step 3. */
  const CareerTitles: seq<string> :=
    ["Doctor", "Engineer", "IAS/UPSC Officer", "MBA/Business Leader",
     "Scientist/Researcher", "Not decided yet"]

  /** The strength chips on step 4. */
  const StrengthOptions: seq<string> :=
    ["Academically Strong", "Good Communication", "Leadership Qualities", "Curious Mind", "Determined"]

  /** The challenge chips on step 5. */
  const ChallengeOptions: seq<string> :=
    ["Concentration Issues", "Low Marks", "Exam Fear", "Lacks Direction",
     "Weak Communication", "Other Challenges"]

  datatype FormData = FormData(
    parentName: string,
    childName: string,
    childAge: string,
    childClass: string,
    location: string,
    dreamCareer: string,
    strengths: seq<string>,
    challenges: seq<string>)

  /** The five free-text inputs of step 2. */
  datatype TextField = ParentName | ChildName | ChildAge | ChildClass | Location

  function GetText(d: FormData, f: TextField): string
  {
    match f
    case ParentName => d.parentName
    case ChildName => d.childName
    case ChildAge => d.childAge
    case ChildClass => d.childClass
    case Location => d.location
  }

  datatype Flow = Flow(step: int, data: FormData)

  /** The flow as it mounts: step 1, empty texts, no career, no tags. */
  function Initial(): (f: Flow)
    ensures f.step == 1
    ensures forall t :: GetText(f.data, t) == ""
    ensures f.data.dreamCareer == "" && f.data.strengths == [] && f.data.challenges == []
  {
    Flow(1, FormData("", "", "", "", "", "", [], []))
  }

  /** `handleNext`: one step forward below the last step, no matter what the form holds. */
  function HandleNext(f: Flow): (r: Flow)
    ensures r.data == f.data
    ensures f.step < StepCount ==> r.step == f.step + 1
    ensures f.step >= StepCount ==> r == f
  {
    if f.step < StepCount then f.(step := f.step + 1) else f
  }

  /** `handleBack`: one step back above step 1. */
  function HandleBack(f: Flow): (r: Flow)
    ensures r.data == f.data
    ensures f.step > 1 ==> r.step == f.step - 1
    ensures f.step <= 1 ==> r == f
  {
    if f.step > 1 then f.(step := f.step - 1) else f
  }

  /** A text input's change handler: sets that field only. */
  function SetText(d: FormData, field: TextField, v: string): (r: FormData)
    ensures GetText(r, field) == v
    ensures forall g :: g != field ==> GetText(r, g) == GetText(d, g)
    ensures r.dreamCareer == d.dreamCareer && r.strengths == d.strengths && r.challenges == d.challenges
  {
    match field
    case ParentName => d.(parentName := v)
    case ChildName => d.(childName := v)
    case ChildAge => d.(childAge := v)
    case ChildClass => d.(childClass := v)
    case Location => d.(location := v)
  }

  /** A career card's click: the choice replaces any earlier one and nothing else moves. */
  function ChooseCareer(d: FormData, title: string): (r: FormData)
    ensures r.dreamCareer == title
    ensures r.(dreamCareer := d.dreamCareer) == d
  {
    d.(dreamCareer := title)
  }

  /** `toggleStrength`: flips one strength; challenges and the rest stay put. */
  function ToggleStrength(d: FormData, tag: string): (r: FormData)
    ensures tag in r.strengths <==> tag !in d.strengths
    ensures forall x :: x != tag ==> (x in r.strengths <==> x in d.strengths)
    ensures r.(strengths := d.strengths) == d
  {
    d.(strengths := TagToggle.Toggle(d.strengths, tag))
  }

  /** `toggleChallenge`: flips one challenge; strengths and the rest stay put. */
  function ToggleChallenge(d: FormData, tag: string): (r: FormData)
    ensures tag in r.challenges <==> tag !in d.challenges
    ensures forall x :: x != tag ==> (x in r.challenges <==> x in d.challenges)
    ensures r.(challenges := d.challenges) == d
  {
    d.(challenges := TagToggle.Toggle(d.challenges, tag))
  }

  /** The Back/Continue bar is rendered on every step but the last. */
  predicate NavBarShown(step: int)
  {
    step != StepCount
  }

  /** The Back button is disabled on step 1. */
  predicate BackDisabled(step: int)
  {
    step == 1
  }

  /** On a step in range, Back is disabled exactly when pressing it would do nothing. */
  lemma BackDisabledIffNoop(f: Flow)
    requires 1 <= f.step <= StepCount
    ensures BackDisabled(f.step) <==> HandleBack(f) == f
  {
  }

  /** On a step in range, the Continue bar is shown exactly when Continue would move. */
  lemma NavBarShownIffNextMoves(f: Flow)
    requires 1 <= f.step <= StepCount
    ensures NavBarShown(f.step) <==> HandleNext(f) != f
  {
  }

  /** Continue and Back undo each other inside the range. */
  lemma NextBackInverse(f: Flow)
    ensures 1 <= f.step < StepCount ==> HandleBack(HandleNext(f)) == f
    ensures 1 < f.step <= StepCount ==> HandleNext(HandleBack(f)) == f
  {
  }

  /** The user events of the flow; each control fires only on the step that renders it. */
  datatype Event =
    | Continue
    | Back
    | Typed(field: TextField, value: string)
    | PickCareer(title: string)
    | TapStrength(tag: string)
    | TapChallenge(tag: string)

  function Apply(f: Flow, e: Event): (r: Flow)
    ensures e.Typed? ==> r == if f.step == 2 then f.(data := SetText(f.data, e.field, e.value)) else f
    ensures e.PickCareer? ==>
      r == if f.step == 3 && e.title in CareerTitles then f.(data := ChooseCareer(f.data, e.title)) else f
    ensures e.TapStrength? ==>
      r == if f.step == 4 && e.tag in StrengthOptions then f.(data := ToggleStrength(f.data, e.tag)) else f
    ensures e.TapChallenge? ==>
      r == if f.step == 5 && e.tag in ChallengeOptions then f.(data := ToggleChallenge(f.data, e.tag)) else f
    ensures e.Continue? ==> r == HandleNext(f)
    ensures e.Back? ==> r == if f.step == StepCount then f else HandleBack(f)
    ensures !e.Continue? && !e.Back? ==> r.step == f.step
    ensures r.data != f.data ==>
      || (e.Typed? && f.step == 2)
      || (e.PickCareer? && f.step == 3 && r.data.dreamCareer == e.title)
      || (e.TapStrength? && f.step == 4 && (e.tag in r.data.strengths <==> e.tag !in f.data.strengths))
      || (e.TapChallenge? && f.step == 5 && (e.tag in r.data.challenges <==> e.tag !in f.data.challenges))
  {
    match e
    case Continue => if NavBarShown(f.step) then HandleNext(f) else f
    case Back => if NavBarShown(f.step) && !BackDisabled(f.step) then HandleBack(f) else f
    case Typed(field, v) => if f.step == 2 then f.(data := SetText(f.data, field, v)) else f
    case PickCareer(title) =>
      if f.step == 3 && title in CareerTitles then f.(data := ChooseCareer(f.data, title)) else f
    case TapStrength(tag) =>
      if f.step == 4 && tag in StrengthOptions then f.(data := ToggleStrength(f.data, tag)) else f
    case TapChallenge(tag) =>
      if f.step == 5 && tag in ChallengeOptions then f.(data := ToggleChallenge(f.data, tag)) else f
  }

  function Run(f: Flow, events: seq<Event>): Flow
    decreases |events|
  {
    if |events| == 0 then f else Run(Apply(f, events[0]), events[1..])
  }

  /** Invariant of every reachable flow. */
  ghost predicate Good(f: Flow)
  {
    && 1 <= f.step <= StepCount
    && (f.data.dreamCareer == "" || f.data.dreamCareer in CareerTitles)
    && TagToggle.Distinct(f.data.strengths)
    && TagToggle.Distinct(f.data.challenges)
    && (forall x :: x in f.data.strengths ==> x in StrengthOptions)
    && (forall x :: x in f.data.challenges ==> x in ChallengeOptions)
  }

  lemma ApplyKeepsGood(f: Flow, e: Event)
    requires Good(f)
    ensures Good(Apply(f, e))
  {
    match e
    case TapStrength(tag) =>
      TagToggle.ToggleKeepsDistinct(f.data.strengths, tag);
    case TapChallenge(tag) =>
      TagToggle.ToggleKeepsDistinct(f.data.challenges, tag);
    case _ =>
  }

  /**
    From the initial flow, any sequence of events keeps the step in 1..6, the
    career one of the six cards or unset, and both tag lists duplicate-free
    and drawn from their fixed options.
   */
  lemma {:induction false} ReachableIsGood(f: Flow, events: seq<Event>)
    requires Good(f)
    ensures Good(Run(f, events))
    decreases |events|
  {
    if |events| > 0 {
      ApplyKeepsGood(f, events[0]);
      ReachableIsGood(Apply(f, events[0]), events[1..]);
    }
  }

  lemma InitialIsGood()
    ensures Good(Initial())
  {
  }

  /** Five presses of Continue from the start reach the last step whatever the form holds. */
  lemma ContinueNeedsNoInput(d: FormData)
    ensures Run(Flow(1, d), [Continue, Continue, Continue, Continue, Continue]) == Flow(StepCount, d)
  {
  }

  /** Tapping an absent strength twice gives back the same form. */
  lemma StrengthTwiceRestores(d: FormData, tag: string)
    requires tag !in d.strengths
    ensures ToggleStrength(ToggleStrength(d, tag), tag) == d
  {
    TagToggle.ToggleTwiceAbsent(d.strengths, tag);
  }

  /** Tapping an absent challenge twice gives back the same form. */
  lemma ChallengeTwiceRestores(d: FormData, tag: string)
    requires tag !in d.challenges
    ensures ToggleChallenge(ToggleChallenge(d, tag), tag) == d
  {
    TagToggle.ToggleTwiceAbsent(d.challenges, tag);
  }
}
