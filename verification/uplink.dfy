/**
  The contact wizard (`UplinkTerminal`): a three-step form over identity, email,
  objective, mission parameters and budget. Moving forward validates only the
  fields of the current step; moving back validates nothing; submitting validates
  the whole schema and, after a simulated delay, always ends in success.
 */
module Uplink {
  import opened Text

  datatype Form = Form(identity: string, email: string, objective: string, parameters: string, budget: int)

  /** The email syntax rule of the schema, left abstract. */
  type EmailCheck = string -> bool

  /** The four radio options of step 2. */
  const Objectives: seq<string> :=
    ["Smart Contract Audit", "Full dApp Architecture", "DeFi Consultation", "Custom Integration"]

  /** The budget slider's range and step, and the form's default budget. */
  const BudgetMin: int := 1000
  const BudgetMax: int := 50000
  const BudgetStep: int := 500
  const DefaultBudget: int := 5000

  /** The form as mounted: only the budget has a default value. */
  const BlankForm: Form := Form("", "", "", "", DefaultBudget)

  datatype Field = Identity | Email | Objective | Parameters | Budget

  const AllFields: set<Field> := {Identity, Email, Objective, Parameters, Budget}

  /** The schema rule of one field. */
  predicate FieldOk(f: Form, field: Field, isEmail: EmailCheck) {
    match field
    case Identity => |f.identity| >= 2
    case Email => isEmail(f.email)
    case Objective => |f.objective| >= 1
    case Parameters => |f.parameters| >= 10
    case Budget => f.budget >= BudgetMin
  }

  /** `trigger(fields)`: every listed field passes its rule. */
  predicate FieldsOk(f: Form, fields: set<Field>, isEmail: EmailCheck) {
    forall field :: field in fields ==> FieldOk(f, field, isEmail)
  }

  /** The whole schema holds. */
  predicate SchemaOk(f: Form, isEmail: EmailCheck) {
    FieldsOk(f, AllFields, isEmail)
  }

  /** The fields `nextStep` validates on a step; no other step validates anything. */
  function StepFields(step: int): set<Field> {
    if step == 1 then {Identity, Email}
    else if step == 2 then {Objective}
    else if step == 3 then {Parameters}
    else {}
  }

  /** What `nextStep` computes as `isValid`: false unless the step is 1, 2 or 3. */
  predicate StepValid(step: int, f: Form, isEmail: EmailCheck) {
    1 <= step <= 3 && FieldsOk(f, StepFields(step), isEmail)
  }

  /**
    The wizard's state: `step`, `isSubmitting` and `isSuccess` as in the
    component, the form values, and the data last handed to the transmission
    action (`None` until a submission has passed validation).
   */
  datatype Wizard = Wizard(step: int, form: Form, isSubmitting: bool, isSuccess: bool, transmitted: Option<Form>)

  const Start: Wizard := Wizard(1, BlankForm, false, false, None)

  /** `nextStep`: validate the current step's fields and advance by one if they pass. */
  function NextStep(w: Wizard, isEmail: EmailCheck): (r: Wizard)
    ensures r.step == w.step + 1 || r == w
    ensures r.step == w.step + 1 <==> StepValid(w.step, w.form, isEmail)
    ensures r.form == w.form && r.isSubmitting == w.isSubmitting && r.isSuccess == w.isSuccess
    ensures r == w || r == w.(step := w.step + 1)
  {
    if StepValid(w.step, w.form, isEmail) then w.(step := w.step + 1) else w
  }

  /** From step 1, PROCEED succeeds exactly when the identity has two characters and the email is valid. */
  lemma AdvanceFromIdentity(w: Wizard, isEmail: EmailCheck)
    requires w.step == 1
    ensures NextStep(w, isEmail).step == 2 <==> |w.form.identity| >= 2 && isEmail(w.form.email)
    ensures NextStep(w, isEmail).step != 2 ==> NextStep(w, isEmail) == w
  {
    assert StepFields(1) == {Identity, Email};
    if |w.form.identity| >= 2 && isEmail(w.form.email) {
      assert FieldsOk(w.form, StepFields(1), isEmail);
    } else {
      assert !FieldOk(w.form, Identity, isEmail) || !FieldOk(w.form, Email, isEmail);
    }
  }

  /** From step 2, PROCEED depends on the objective alone: it succeeds exactly when one is chosen. */
  lemma AdvanceFromObjective(w: Wizard, isEmail: EmailCheck)
    requires w.step == 2
    ensures NextStep(w, isEmail).step == 3 <==> |w.form.objective| >= 1
    ensures NextStep(w, isEmail).step != 3 ==> NextStep(w, isEmail) == w
  {
    assert StepFields(2) == {Objective};
    if |w.form.objective| >= 1 {
      assert FieldsOk(w.form, StepFields(2), isEmail);
    } else {
      assert !FieldOk(w.form, Objective, isEmail);
    }
  }

  /** Two step-2 wizards that agree on the objective advance alike, whatever their other fields and email rule. */
  lemma ObjectiveStepIgnoresOtherFields(w1: Wizard, w2: Wizard, isEmail1: EmailCheck, isEmail2: EmailCheck)
    requires w1.step == 2 && w2.step == 2
    requires w1.form.objective == w2.form.objective
    ensures NextStep(w1, isEmail1).step == NextStep(w2, isEmail2).step
  {
    AdvanceFromObjective(w1, isEmail1);
    AdvanceFromObjective(w2, isEmail2);
  }

  /** The BACK buttons: step 2 goes to step 1 and step 3 to step 2, without validation. */
  function Back(w: Wizard): (r: Wizard)
    requires w.step == 2 || w.step == 3
    ensures r.step == w.step - 1
    ensures r.form == w.form && r.isSubmitting == w.isSubmitting && r.isSuccess == w.isSuccess
    ensures r.transmitted == w.transmitted
  {
    if w.step == 2 then w.(step := 1) else w.(step := 2)
  }

  /** `handleSubmit(onSubmit)`: on a valid form, start transmitting it; otherwise nothing changes. */
  function Submit(w: Wizard, isEmail: EmailCheck): (r: Wizard)
    ensures SchemaOk(w.form, isEmail) ==> r.isSubmitting && r.transmitted == Some(w.form)
    ensures !SchemaOk(w.form, isEmail) ==> r == w
    ensures r.step == w.step && r.form == w.form && r.isSuccess == w.isSuccess
  {
    if SchemaOk(w.form, isEmail) then w.(isSubmitting := true, transmitted := Some(w.form)) else w
  }

  /** The end of the simulated transmission delay: there is no failure outcome. */
  function TransmissionDone(w: Wizard): (r: Wizard)
    ensures !r.isSubmitting && r.isSuccess
    ensures r.step == w.step && r.form == w.form && r.transmitted == w.transmitted
  {
    w.(isSubmitting := false, isSuccess := true)
  }

  /** "Initiate New Uplink": back to step 1; the form values are kept, not reset. */
  function Restart(w: Wizard): (r: Wizard)
    ensures r.step == 1 && !r.isSuccess
    ensures r.form == w.form && r.isSubmitting == w.isSubmitting && r.transmitted == w.transmitted
  {
    w.(isSuccess := false, step := 1)
  }

  /** A budget the slider can produce: within range and on the 500 grid. */
  predicate OnGrid(budget: int) {
    BudgetMin <= budget <= BudgetMax && (budget - BudgetMin) % BudgetStep == 0
  }

  /**
    The value a range input with min 1000, max 50000 and step 500 reports for a
    requested position: clamped to the range, then rounded to the nearest step
    (halves upwards).
   */
  function SliderValue(raw: int): (v: int)
    ensures OnGrid(v)
    ensures raw <= BudgetMin ==> v == BudgetMin
    ensures raw >= BudgetMax ==> v == BudgetMax
    ensures BudgetMin <= raw <= BudgetMax ==> -BudgetStep / 2 < v - raw <= BudgetStep / 2
  {
    var c := if raw < BudgetMin then BudgetMin else if raw > BudgetMax then BudgetMax else raw;
    BudgetMin + BudgetStep * ((c - BudgetMin + BudgetStep / 2) / BudgetStep)
  }

  /** Grid values pass through the slider unchanged, so applying it twice is applying it once. */
  lemma SliderValueIdempotent(raw: int)
    ensures OnGrid(raw) ==> SliderValue(raw) == raw
    ensures SliderValue(SliderValue(raw)) == SliderValue(raw)
  {
    var v := SliderValue(raw);
    assert (v - BudgetMin) % BudgetStep == 0;
    var q := (v - BudgetMin) / BudgetStep;
    assert v == BudgetMin + BudgetStep * q;
    assert (v - BudgetMin + BudgetStep / 2) / BudgetStep == q;
    if OnGrid(raw) {
      var p := (raw - BudgetMin) / BudgetStep;
      assert raw == BudgetMin + BudgetStep * p;
      assert (raw - BudgetMin + BudgetStep / 2) / BudgetStep == p;
    }
  }

  /** The user's actions on the rendered wizard, and the end of the transmission delay. */
  datatype Control =
    | TypeIdentity(text: string)
    | TypeEmail(text: string)
    | PickObjective(option: nat)
    | TypeParameters(text: string)
    | SlideBudget(raw: int)
    | Proceed
    | GoBack
    | Initialize
    | Delay
    | NewUplink

  /** Which controls the current render offers. */
  predicate Available(w: Wizard, c: Control) {
    match c
    case TypeIdentity(_) => !w.isSuccess && w.step == 1
    case TypeEmail(_) => !w.isSuccess && w.step == 1
    case PickObjective(i) => !w.isSuccess && w.step == 2 && i < |Objectives|
    case TypeParameters(_) => !w.isSuccess && w.step == 3
    case SlideBudget(_) => !w.isSuccess && w.step == 3
    case Proceed => !w.isSuccess && (w.step == 1 || w.step == 2)
    case GoBack => !w.isSuccess && (w.step == 2 || w.step == 3)
    case Initialize => !w.isSuccess && w.step == 3 && !w.isSubmitting
    case Delay => w.isSubmitting
    case NewUplink => w.isSuccess
  }

  /** One user action; an action the render does not offer changes nothing. */
  function Press(w: Wizard, c: Control, isEmail: EmailCheck): (r: Wizard)
    ensures !Available(w, c) ==> r == w
  {
    if !Available(w, c) then w
    else
      match c
      case TypeIdentity(t) => w.(form := w.form.(identity := t))
      case TypeEmail(t) => w.(form := w.form.(email := t))
      case PickObjective(i) => w.(form := w.form.(objective := Objectives[i]))
      case TypeParameters(t) => w.(form := w.form.(parameters := t))
      case SlideBudget(raw) => w.(form := w.form.(budget := SliderValue(raw)))
      case Proceed => NextStep(w, isEmail)
      case GoBack => Back(w)
      case Initialize => Submit(w, isEmail)
      case Delay => TransmissionDone(w)
      case NewUplink => Restart(w)
  }

  function Run(w: Wizard, cs: seq<Control>, isEmail: EmailCheck): Wizard
    decreases |cs|
  {
    if cs == [] then w else Run(Press(w, cs[0], isEmail), cs[1..], isEmail)
  }

  /** What holds of every wizard the controls can reach. */
  predicate Invariant(w: Wizard, isEmail: EmailCheck) {
    && 1 <= w.step <= 3
    && OnGrid(w.form.budget)
    && (w.form.objective == "" || w.form.objective in Objectives)
    && !(w.isSubmitting && w.isSuccess)
    && (w.isSubmitting || w.isSuccess ==> w.transmitted.Some?)
    && (w.transmitted.Some? ==> SchemaOk(w.transmitted.value, isEmail))
  }

  lemma StartInvariant(isEmail: EmailCheck)
    ensures Invariant(Start, isEmail)
    ensures Start.form.budget == DefaultBudget
  {
    assert (DefaultBudget - BudgetMin) % BudgetStep == 0;
  }

  /** Every control keeps the invariant; in particular PROCEED never leaves step 3 towards step 4. */
  lemma PressKeepsInvariant(w: Wizard, c: Control, isEmail: EmailCheck)
    requires Invariant(w, isEmail)
    ensures Invariant(Press(w, c, isEmail), isEmail)
  {
  }

  lemma {:induction false} RunKeepsInvariant(w: Wizard, cs: seq<Control>, isEmail: EmailCheck)
    requires Invariant(w, isEmail)
    ensures Invariant(Run(w, cs, isEmail), isEmail)
    decreases |cs|
  {
    if cs != [] {
      PressKeepsInvariant(w, cs[0], isEmail);
      RunKeepsInvariant(Press(w, cs[0], isEmail), cs[1..], isEmail);
    }
  }

  /**
    Through the controls the step stays within 1..3, the budget rule never fails,
    and success is only ever reached after a form satisfying the whole schema was
    handed to the transmission action.
   */
  lemma Reachable(cs: seq<Control>, isEmail: EmailCheck)
    ensures 1 <= Run(Start, cs, isEmail).step <= 3
    ensures FieldOk(Run(Start, cs, isEmail).form, Budget, isEmail)
    ensures Run(Start, cs, isEmail).isSuccess ==>
      Run(Start, cs, isEmail).transmitted.Some? && SchemaOk(Run(Start, cs, isEmail).transmitted.value, isEmail)
  {
    StartInvariant(isEmail);
    RunKeepsInvariant(Start, cs, isEmail);
  }

  /**
    On a reachable wizard the budget never blocks submission: INITIALIZE starts a
    transmission exactly when identity, email, objective and parameters pass.
   */
  lemma SubmitGate(w: Wizard, isEmail: EmailCheck)
    requires Invariant(w, isEmail)
    requires Available(w, Initialize)
    ensures Press(w, Initialize, isEmail).isSubmitting <==>
      |w.form.identity| >= 2 && isEmail(w.form.email) && |w.form.objective| >= 1 && |w.form.parameters| >= 10
  {
    var f := w.form;
    if |f.identity| >= 2 && isEmail(f.email) && |f.objective| >= 1 && |f.parameters| >= 10 {
      assert forall field :: field in AllFields ==> FieldOk(f, field, isEmail);
    } else {
      assert !FieldOk(f, Identity, isEmail) || !FieldOk(f, Email, isEmail)
        || !FieldOk(f, Objective, isEmail) || !FieldOk(f, Parameters, isEmail);
    }
  }
}
