/** The input form: which controls it shows for the active record, the
    range each numeric control enforces, and the set of records the form can
    ever produce. */
module InputSection {
  import opened Types
  import opened Breakdown
  import opened Workspace
  import opened NumericInput

  /** The bounds of the control editing a numeric field; the digital-hours
      field has no control at all. */
  function FieldBounds(f: NumericField): Option<Bounds> {
    match f
    case TransportDist => Some(DefaultBounds.(max := 1500.0))
    case ElectricityKwh => Some(DefaultBounds.(max := 400.0))
    case AcHours => Some(DefaultBounds.(max := 24.0))
    case FoodWasteKg => Some(DefaultBounds.(max := 50.0))
    case WaterLiters => Some(DefaultBounds.(max := 3000.0))
    case WasteKg => Some(DefaultBounds.(max := 100.0))
    case DigitalHours => None
  }

  /** The category whose panel holds a numeric field. */
  function FieldCategory(f: NumericField): Category {
    match f
    case TransportDist => Transport
    case ElectricityKwh | AcHours => Energy
    case FoodWasteKg => Food
    case WaterLiters | WasteKg | DigitalHours => Lifestyle
  }

  /** Every control keeps the default lower bound 0; the upper bounds are
      1500 km, 400 kWh, 24 h, 50 kg, 3000 l and 100 kg. */
  lemma FieldBoundsTable(f: NumericField)
    ensures FieldBounds(f).Some? <==> f != DigitalHours
    ensures FieldBounds(f).Some? ==> FieldBounds(f).value.min == 0.0
    ensures f == TransportDist ==> FieldBounds(f) == Some(Bounds(0.0, 1500.0))
    ensures f == ElectricityKwh ==> FieldBounds(f) == Some(Bounds(0.0, 400.0))
    ensures f == AcHours ==> FieldBounds(f) == Some(Bounds(0.0, 24.0))
    ensures f == FoodWasteKg ==> FieldBounds(f) == Some(Bounds(0.0, 50.0))
    ensures f == WaterLiters ==> FieldBounds(f) == Some(Bounds(0.0, 3000.0))
    ensures f == WasteKg ==> FieldBounds(f) == Some(Bounds(0.0, 100.0))
  {
  }

  /** A control is on screen, and so can be used, only while its category's
      panel is switched on. */
  predicate FieldShown(inputs: UserInputs, f: NumericField) {
    FieldBounds(f).Some? && inputs.enabledCategories.Get(FieldCategory(f))
  }

  /** What the user can do to the form. */
  datatype FormEvent =
    | ToggleCategory(category: Category)
    | TypeInto(field: NumericField, entry: Entry)
    | PickTransportMode(mode: TransportMode)
    | PickDietType(diet: DietType)
    | ChooseRecord(simulation: bool)

  /** One event on the dashboard. A control that is not on screen cannot be
      used, so an event on it changes nothing; a typed entry reaches the
      record only when the field's validator passes a value on. */
  function FormStep(w: Workspace, ev: FormEvent): (r: Workspace)
    ensures r.isSimulation == (if ev.ChooseRecord? then ev.simulation else w.isSimulation)
    ensures !ev.ChooseRecord? ==> r.Inactive() == w.Inactive()
    ensures ev.TypeInto? && !FieldShown(w.Active(), ev.field) ==> r == w
    ensures ev.TypeInto? && FieldShown(w.Active(), ev.field) ==>
      r.Active() == (match HandleChange(FieldBounds(ev.field).value, ev.entry).propagated
                     case Some(v) => ApplyEdit(w.Active(), SetNumber(ev.field, v))
                     case None => w.Active())
  {
    match ev
    case ToggleCategory(c) => HandleToggleCategory(w, c)
    case TypeInto(f, e) =>
      if FieldShown(w.Active(), f) then
        match HandleChange(FieldBounds(f).value, e).propagated
        case Some(v) => HandleInputChange(w, SetNumber(f, v))
        case None => w
      else w
    case PickTransportMode(m) =>
      if w.Active().enabledCategories.transport then HandleInputChange(w, SetTransportMode(m)) else w
    case PickDietType(d) =>
      if w.Active().enabledCategories.food then HandleInputChange(w, SetDietType(d)) else w
    case ChooseRecord(sim) => SwitchRecord(w, sim)
  }

  /** A record the form can produce: every numeric field inside its
      control's range, and digital hours still 0. */
  predicate Admissible(inputs: UserInputs) {
    forall f: NumericField ::
      match FieldBounds(f)
      case Some(b) => b.min <= NumberOf(inputs, f) <= b.max
      case None => NumberOf(inputs, f) == 0.0
  }

  /** Both records of the dashboard are admissible. */
  predicate AdmissibleWorkspace(w: Workspace) {
    Admissible(w.current) && Admissible(w.simulated)
  }

  /** The dashboard as it opens. */
  const InitialWorkspace: Workspace := Workspace(InitialInputs, InitialInputs, false)

  lemma InitialAdmissible()
    ensures AdmissibleWorkspace(InitialWorkspace)
  {
    forall f: NumericField ensures NumberOf(InitialInputs, f) == 0.0 {
    }
  }

  /** A numeric edit with a value inside the field's range keeps a record
      admissible. */
  lemma EditKeepsAdmissible(inputs: UserInputs, f: NumericField, v: real)
    requires Admissible(inputs)
    requires FieldBounds(f).Some? && FieldBounds(f).value.min <= v <= FieldBounds(f).value.max
    ensures Admissible(ApplyEdit(inputs, SetNumber(f, v)))
  {
    var r := ApplyEdit(inputs, SetNumber(f, v));
    forall g: NumericField
      ensures match FieldBounds(g)
        case Some(b) => b.min <= NumberOf(r, g) <= b.max
        case None => NumberOf(r, g) == 0.0
    {
      if g != f {
        assert NumberOf(r, g) == NumberOf(inputs, g);
      }
    }
  }

  /** Every event keeps both records admissible. */
  lemma StepKeepsAdmissible(w: Workspace, ev: FormEvent)
    requires AdmissibleWorkspace(w)
    ensures AdmissibleWorkspace(FormStep(w, ev))
  {
    var r := FormStep(w, ev);
    match ev
    case ToggleCategory(c) =>
      assert SameActivity(r.Active(), w.Active());
      assert forall f: NumericField :: NumberOf(r.Active(), f) == NumberOf(w.Active(), f);
    case TypeInto(f, e) =>
      if FieldShown(w.Active(), f) {
        var b := FieldBounds(f).value;
        PropagatedInRange(b, e);
        match HandleChange(b, e).propagated
        case Some(v) => EditKeepsAdmissible(w.Active(), f, v);
        case None =>
      }
    case PickTransportMode(m) =>
      assert forall f: NumericField :: NumberOf(r.Active(), f) == NumberOf(w.Active(), f);
    case PickDietType(d) =>
      assert forall f: NumericField :: NumberOf(r.Active(), f) == NumberOf(w.Active(), f);
    case ChooseRecord(sim) =>
  }

  /** The dashboard after a run of events from its opening state. */
  function Run(w: Workspace, events: seq<FormEvent>): Workspace
    decreases |events|
  {
    if |events| == 0 then w else Run(FormStep(w, events[0]), events[1..])
  }

  lemma {:induction false} RunKeepsAdmissible(w: Workspace, events: seq<FormEvent>)
    requires AdmissibleWorkspace(w)
    ensures AdmissibleWorkspace(Run(w, events))
    decreases |events|
  {
    if |events| > 0 {
      StepKeepsAdmissible(w, events[0]);
      RunKeepsAdmissible(FormStep(w, events[0]), events[1..]);
    }
  }

  /** An admissible record is a nonnegative one with no digital term, so
      every figure the calculator derives from it is nonnegative. */
  lemma AdmissibleIsNonnegative(inputs: UserInputs)
    requires Admissible(inputs)
    ensures NonnegativeInputs(inputs)
    ensures inputs.digitalHours == 0.0
  {
    assert NumberOf(inputs, TransportDist) >= 0.0;
    assert NumberOf(inputs, ElectricityKwh) >= 0.0;
    assert NumberOf(inputs, AcHours) >= 0.0;
    assert NumberOf(inputs, FoodWasteKg) >= 0.0;
    assert NumberOf(inputs, WaterLiters) >= 0.0;
    assert NumberOf(inputs, WasteKg) >= 0.0;
    assert NumberOf(inputs, DigitalHours) == 0.0;
  }

  /** Whatever the user does, both records stay within the form's ranges and
      the digital-hours field keeps its initial 0. */
  lemma ReachableRecordsAdmissible(events: seq<FormEvent>)
    ensures AdmissibleWorkspace(Run(InitialWorkspace, events))
    ensures Run(InitialWorkspace, events).current.digitalHours == 0.0
    ensures Run(InitialWorkspace, events).simulated.digitalHours == 0.0
    ensures NonnegativeInputs(Run(InitialWorkspace, events).current)
    ensures NonnegativeInputs(Run(InitialWorkspace, events).simulated)
  {
    InitialAdmissible();
    RunKeepsAdmissible(InitialWorkspace, events);
    var w := Run(InitialWorkspace, events);
    AdmissibleIsNonnegative(w.current);
    AdmissibleIsNonnegative(w.simulated);
  }
}
