/**
  The three-step enrollment wizard: student details, parent details, batch
  choice. The wizard holds a step counter and a record of twelve text fields;
  the "Next" button is enabled only when the fields the current step marks
  as required are non-empty, and pressing it on the last step hands the
  record to the caller instead of moving on.
 */
module EnrollmentForm {

  /** The accumulated form; every field is free text (selects store their option value). */
  datatype FormData = FormData(
    studentName: string,
    dateOfBirth: string,
    currentClass: string,
    schoolName: string,
    board: string,
    careerGoal: string,
    parentName: string,
    relationship: string,
    email: string,
    phone: string,
    alternatePhone: string,
    preferredBatch: string)

  /** The keys of `FormData`, as passed to the field-update callback. */
  datatype Field =
    | StudentName | DateOfBirth | CurrentClass | SchoolName | Board | CareerGoal
    | ParentName | Relationship | Email | Phone | AlternatePhone
    | PreferredBatch

  /** Reads one field of the form. */
  function Get(d: FormData, f: Field): string
  {
    match f
    case StudentName => d.studentName
    case DateOfBirth => d.dateOfBirth
    case CurrentClass => d.currentClass
    case SchoolName => d.schoolName
    case Board => d.board
    case CareerGoal => d.careerGoal
    case ParentName => d.parentName
    case Relationship => d.relationship
    case Email => d.email
    case Phone => d.phone
    case AlternatePhone => d.alternatePhone
    case PreferredBatch => d.preferredBatch
  }

  /** The wizard's state: the current step (a plain number) and the form. */
  datatype Wizard = Wizard(step: int, data: FormData)

  /** What a button press asks of the enclosing page, besides the new state. */
  datatype Effect =
    | NoEffect
    | Complete(snapshot: FormData)   // `onComplete(formData)`
    | GoBack                         // `onBack()`

  datatype Outcome = Outcome(wizard: Wizard, effect: Effect)

  /** The wizard as it mounts: step 1, every field the empty string. */
  function Initial(): (w: Wizard)
    ensures w.step == 1
    ensures forall f :: Get(w.data, f) == ""
  {
    Wizard(1, FormData("", "", "", "", "", "", "", "", "", "", "", ""))
  }

  /** `updateFormData`: replaces one field and keeps the others. */
  function Update(d: FormData, f: Field, v: string): (r: FormData)
    ensures Get(r, f) == v
    ensures forall g :: g != f ==> Get(r, g) == Get(d, g)
  {
    match f
    case StudentName => d.(studentName := v)
    case DateOfBirth => d.(dateOfBirth := v)
    case CurrentClass => d.(currentClass := v)
    case SchoolName => d.(schoolName := v)
    case Board => d.(board := v)
    case CareerGoal => d.(careerGoal := v)
    case ParentName => d.(parentName := v)
    case Relationship => d.(relationship := v)
    case Email => d.(email := v)
    case Phone => d.(phone := v)
    case AlternatePhone => d.(alternatePhone := v)
    case PreferredBatch => d.(preferredBatch := v)
  }

  /** The fields each step labels as required; any other step has none. */
  function Required(step: int): set<Field>
  {
    if step == 1 then {StudentName, DateOfBirth, CurrentClass, SchoolName, Board, CareerGoal}
    else if step == 2 then {ParentName, Relationship, Phone}
    else if step == 3 then {PreferredBatch}
    else {}
  }

  /** The input controls each step renders, hence the only fields a user can edit there. */
  function Rendered(step: int): set<Field>
  {
    if step == 1 then {StudentName, DateOfBirth, CurrentClass, Board, SchoolName, CareerGoal}
    else if step == 2 then {ParentName, Relationship, Email, Phone, AlternatePhone}
    else if step == 3 then {PreferredBatch}
    else {}
  }

  /** Every required field of the step is non-empty. */
  ghost predicate Filled(step: int, d: FormData)
  {
    forall f :: f in Required(step) ==> Get(d, f) != ""
  }

  /** `isStepValid`: presence checks only, and no step outside 1..3 is valid. */
  function IsStepValid(w: Wizard): (ok: bool)
    ensures ok <==> 1 <= w.step <= 3 && Filled(w.step, w.data)
  {
    var d := w.data;
    if w.step == 1 then
      assert Get(d, StudentName) == d.studentName && Get(d, DateOfBirth) == d.dateOfBirth;
      assert Get(d, CurrentClass) == d.currentClass && Get(d, SchoolName) == d.schoolName;
      assert Get(d, Board) == d.board && Get(d, CareerGoal) == d.careerGoal;
      d.studentName != "" && d.dateOfBirth != "" && d.currentClass != ""
      && d.schoolName != "" && d.board != "" && d.careerGoal != ""
    else if w.step == 2 then
      assert Get(d, ParentName) == d.parentName && Get(d, Relationship) == d.relationship;
      assert Get(d, Phone) == d.phone;
      d.parentName != "" && d.relationship != "" && d.phone != ""
    else if w.step == 3 then
      assert Get(d, PreferredBatch) == d.preferredBatch;
      d.preferredBatch != ""
    else
      false
  }

  /** `nextStep`: moves forward below step 3; at step 3 keeps the step and emits the form. */
  function NextStep(w: Wizard): (o: Outcome)
    ensures o.wizard.data == w.data
    ensures w.step < 3 ==> o.wizard.step == w.step + 1 && o.effect == NoEffect
    ensures w.step >= 3 ==> o.wizard == w && o.effect == Complete(w.data)
  {
    if w.step < 3 then Outcome(w.(step := w.step + 1), NoEffect)
    else Outcome(w, Complete(w.data))
  }

  /** `prevStep`: moves back above step 1; at step 1 calls `onBack` when one was supplied. */
  function PrevStep(w: Wizard, hasOnBack: bool): (o: Outcome)
    ensures o.wizard.data == w.data
    ensures w.step > 1 ==> o.wizard.step == w.step - 1 && o.effect == NoEffect
    ensures w.step <= 1 ==> o.wizard == w && (o.effect == GoBack <==> hasOnBack)
    ensures o.effect != GoBack ==> o.effect == NoEffect
  {
    if w.step > 1 then Outcome(w.(step := w.step - 1), NoEffect)
    else if hasOnBack then Outcome(w, GoBack)
    else Outcome(w, NoEffect)
  }

  /** A press of the "Next"/"Proceed to Payment" button, which is disabled while the step is invalid. */
  function PressNext(w: Wizard): (o: Outcome)
    ensures (o.wizard != w || o.effect != NoEffect) <==> IsStepValid(w)
    ensures o.effect.Complete? <==> IsStepValid(w) && w.step == 3
    ensures o.effect.Complete? ==> o.effect.snapshot == w.data && o.wizard == w
    ensures !o.effect.GoBack?
    ensures IsStepValid(w) && w.step < 3 ==> o == Outcome(w.(step := w.step + 1), NoEffect)
    ensures !IsStepValid(w) ==> o == Outcome(w, NoEffect)
  {
    if IsStepValid(w) then NextStep(w) else Outcome(w, NoEffect)
  }

  /** The user events the wizard reacts to. */
  datatype Event =
    | Typed(field: Field, value: string)
    | NextPressed
    | PrevPressed

  /** One event; typing into a field the current step does not render has no effect. */
  function Apply(w: Wizard, e: Event, hasOnBack: bool): (o: Outcome)
    ensures e.Typed? && e.field !in Rendered(w.step) ==> o == Outcome(w, NoEffect)
    ensures e.Typed? && e.field in Rendered(w.step) ==>
      o == Outcome(w.(data := Update(w.data, e.field, e.value)), NoEffect)
    ensures e.NextPressed? ==> o == PressNext(w)
    ensures e.PrevPressed? ==> o == PrevStep(w, hasOnBack)
    ensures o.effect.Complete? <==> e.NextPressed? && IsStepValid(w) && w.step == 3
    ensures o.effect.GoBack? <==> e.PrevPressed? && w.step <= 1 && hasOnBack
  {
    match e
    case Typed(f, v) =>
      if f in Rendered(w.step) then Outcome(w.(data := Update(w.data, f, v)), NoEffect)
      else Outcome(w, NoEffect)
    case NextPressed => PressNext(w)
    case PrevPressed => PrevStep(w, hasOnBack)
  }

  /** The final state and the effects emitted by a sequence of events, in order. */
  datatype Trace = Trace(wizard: Wizard, effects: seq<Effect>)

  function Run(w: Wizard, events: seq<Event>, hasOnBack: bool): (t: Trace)
    ensures |t.effects| == |events|
    decreases |events|
  {
    if |events| == 0 then Trace(w, [])
    else
      var o := Apply(w, events[0], hasOnBack);
      var rest := Run(o.wizard, events[1..], hasOnBack);
      Trace(rest.wizard, [o.effect] + rest.effects)
  }

  /** Invariant of every reachable wizard: the step is in 1..3 and every earlier step is complete. */
  ghost predicate Good(w: Wizard)
  {
    && 1 <= w.step <= 3
    && forall s :: 1 <= s < w.step ==> Filled(s, w.data)
  }

  /** The form satisfies all three steps' required-field checks. */
  ghost predicate Ready(d: FormData)
  {
    Filled(1, d) && Filled(2, d) && Filled(3, d)
  }

  lemma InitialIsGood()
    ensures Good(Initial())
  {
  }

  /** Fields a step renders are required by no other step. */
  lemma RenderedOnlyHere(s: int, k: int, f: Field)
    requires s != k && f in Rendered(k)
    ensures f !in Required(s)
  {
  }

  /** Editing a field the current step renders leaves every other step's check as it was. */
  lemma EditKeepsOtherSteps(w: Wizard, f: Field, v: string, s: int)
    requires f in Rendered(w.step) && s != w.step
    ensures Filled(s, Update(w.data, f, v)) <==> Filled(s, w.data)
  {
  }

  lemma ApplyKeepsGood(w: Wizard, e: Event, hasOnBack: bool)
    requires Good(w)
    ensures Good(Apply(w, e, hasOnBack).wizard)
    ensures Apply(w, e, hasOnBack).effect.Complete? ==> Ready(Apply(w, e, hasOnBack).effect.snapshot)
  {
    match e
    case Typed(f, v) =>
      if f in Rendered(w.step) {
        forall s | 1 <= s < w.step
          ensures Filled(s, Update(w.data, f, v))
        {
          EditKeepsOtherSteps(w, f, v, s);
        }
      }
    case NextPressed =>
    case PrevPressed =>
  }

  /**
    Every state reachable by user events is `Good`, and every snapshot handed
    on to payment has all three steps' required fields filled.
   */
  lemma {:induction false} RunKeepsGood(w: Wizard, events: seq<Event>, hasOnBack: bool)
    requires Good(w)
    ensures Good(Run(w, events, hasOnBack).wizard)
    ensures forall i :: 0 <= i < |events| && Run(w, events, hasOnBack).effects[i].Complete? ==>
              Ready(Run(w, events, hasOnBack).effects[i].snapshot)
    decreases |events|
  {
    if |events| > 0 {
      var o := Apply(w, events[0], hasOnBack);
      ApplyKeepsGood(w, events[0], hasOnBack);
      RunKeepsGood(o.wizard, events[1..], hasOnBack);
    }
  }

  /** From step 1 with a complete form, three presses of Next hand over that exact form. */
  lemma HappyPath(d: FormData, hasOnBack: bool)
    requires Ready(d)
    ensures Run(Wizard(1, d), [NextPressed, NextPressed, NextPressed], hasOnBack)
            == Trace(Wizard(3, d), [NoEffect, NoEffect, Complete(d)])
  {
  }

  /** Presence is all that is checked: email and the alternate phone never affect any step. */
  lemma OptionalFieldsIgnored(w: Wizard, f: Field, v: string)
    requires f == Email || f == AlternatePhone
    ensures IsStepValid(w.(data := Update(w.data, f, v))) == IsStepValid(w)
  {
  }

  /** Inside the wizard Next and Prev undo each other. */
  lemma NextPrevInverse(w: Wizard, hasOnBack: bool)
    ensures 1 <= w.step < 3 ==> PrevStep(NextStep(w).wizard, hasOnBack).wizard == w
    ensures 1 < w.step <= 3 ==> NextStep(PrevStep(w, hasOnBack).wizard).wizard == w
  {
  }
}
