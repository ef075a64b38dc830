/** The dashboard's two input records, the user's own day and a test
    scenario, and the two handlers through which the form edits whichever
    record is active. */
module Workspace {
  import opened Types

  /** The numeric quantities of the input record. */
  datatype NumericField =
    | TransportDist | ElectricityKwh | AcHours | FoodWasteKg | WaterLiters | WasteKg | DigitalHours

  /** Reads one numeric quantity of a record. */
  function NumberOf(inputs: UserInputs, f: NumericField): real {
    match f
    case TransportDist => inputs.transportDist
    case ElectricityKwh => inputs.electricityKwh
    case AcHours => inputs.acHours
    case FoodWasteKg => inputs.foodWasteKg
    case WaterLiters => inputs.waterLiters
    case WasteKg => inputs.wasteKg
    case DigitalHours => inputs.digitalHours
  }

  /** One `onChange(key, value)` call of the form: a new number for a
      numeric field, or a new choice in one of the two selects. */
  datatype Edit =
    | SetNumber(field: NumericField, value: real)
    | SetTransportMode(mode: TransportMode)
    | SetDietType(diet: DietType)

  /** Two records agree everywhere except, possibly, on the category flags. */
  predicate SameActivity(a: UserInputs, b: UserInputs) {
    && (forall f: NumericField :: NumberOf(a, f) == NumberOf(b, f))
    && a.transportMode == b.transportMode
    && a.dietType == b.dietType
  }

  /** `{ ...p, [key]: val }`: the edited key takes the new value and every
      other key keeps its old one. */
  function ApplyEdit(inputs: UserInputs, e: Edit): (r: UserInputs)
    ensures r.enabledCategories == inputs.enabledCategories
    ensures e.SetNumber? ==>
      && NumberOf(r, e.field) == e.value
      && (forall g: NumericField :: g != e.field ==> NumberOf(r, g) == NumberOf(inputs, g))
      && r.transportMode == inputs.transportMode
      && r.dietType == inputs.dietType
    ensures e.SetTransportMode? ==>
      && r.transportMode == e.mode
      && (forall g: NumericField :: NumberOf(r, g) == NumberOf(inputs, g))
      && r.dietType == inputs.dietType
    ensures e.SetDietType? ==>
      && r.dietType == e.diet
      && (forall g: NumericField :: NumberOf(r, g) == NumberOf(inputs, g))
      && r.transportMode == inputs.transportMode
  {
    match e
    case SetNumber(f, v) =>
      (match f
       case TransportDist => inputs.(transportDist := v)
       case ElectricityKwh => inputs.(electricityKwh := v)
       case AcHours => inputs.(acHours := v)
       case FoodWasteKg => inputs.(foodWasteKg := v)
       case WaterLiters => inputs.(waterLiters := v)
       case WasteKg => inputs.(wasteKg := v)
       case DigitalHours => inputs.(digitalHours := v))
    case SetTransportMode(m) => inputs.(transportMode := m)
    case SetDietType(d) => inputs.(dietType := d)
  }

  /** Applying the same edit twice is the same as applying it once. */
  lemma ApplyEditIdempotent(inputs: UserInputs, e: Edit)
    ensures ApplyEdit(ApplyEdit(inputs, e), e) == ApplyEdit(inputs, e)
  {
  }

  /** `{ ...flags, [c]: !flags[c] }`. */
  function FlipFlag(flags: EnabledCategories, c: Category): (r: EnabledCategories)
    ensures r.Get(c) == !flags.Get(c)
    ensures forall d: Category :: d != c ==> r.Get(d) == flags.Get(d)
  {
    match c
    case Transport => flags.(transport := !flags.transport)
    case Energy => flags.(energy := !flags.energy)
    case Food => flags.(food := !flags.food)
    case Lifestyle => flags.(lifestyle := !flags.lifestyle)
  }

  /** Flipping a category flag touches nothing but that flag. */
  function ToggleInputs(inputs: UserInputs, c: Category): (r: UserInputs)
    ensures r.enabledCategories.Get(c) == !inputs.enabledCategories.Get(c)
    ensures forall d: Category :: d != c ==> r.enabledCategories.Get(d) == inputs.enabledCategories.Get(d)
    ensures SameActivity(r, inputs)
  {
    inputs.(enabledCategories := FlipFlag(inputs.enabledCategories, c))
  }

  /** Two toggles of the same category cancel out. */
  lemma ToggleTwice(inputs: UserInputs, c: Category)
    ensures ToggleInputs(ToggleInputs(inputs, c), c) == inputs
  {
    var r := ToggleInputs(ToggleInputs(inputs, c), c);
    assert forall d: Category :: r.enabledCategories.Get(d) == inputs.enabledCategories.Get(d);
    assert r.enabledCategories.transport == r.enabledCategories.Get(Transport);
    assert r.enabledCategories.energy == r.enabledCategories.Get(Energy);
    assert r.enabledCategories.food == r.enabledCategories.Get(Food);
    assert r.enabledCategories.lifestyle == r.enabledCategories.Get(Lifestyle);
    assert inputs.enabledCategories.transport == inputs.enabledCategories.Get(Transport);
    assert inputs.enabledCategories.energy == inputs.enabledCategories.Get(Energy);
    assert inputs.enabledCategories.food == inputs.enabledCategories.Get(Food);
    assert inputs.enabledCategories.lifestyle == inputs.enabledCategories.Get(Lifestyle);
    assert NumberOf(r, TransportDist) == NumberOf(inputs, TransportDist);
  }

  /** The dashboard's input state: the real record, the test scenario and
      which of the two the form is editing. */
  datatype Workspace = Workspace(current: UserInputs, simulated: UserInputs, isSimulation: bool)
  {
    /** The record the form shows and edits. */
    function Active(): UserInputs {
      if isSimulation then simulated else current
    }

    /** The record the form leaves alone. */
    function Inactive(): UserInputs {
      if isSimulation then current else simulated
    }
  }

  /** `handleInputChange`: the edit lands on the active record only. */
  function HandleInputChange(w: Workspace, e: Edit): (r: Workspace)
    ensures r.isSimulation == w.isSimulation
    ensures r.Active() == ApplyEdit(w.Active(), e)
    ensures r.Inactive() == w.Inactive()
  {
    if w.isSimulation then w.(simulated := ApplyEdit(w.simulated, e))
    else w.(current := ApplyEdit(w.current, e))
  }

  /** `handleToggleCategory`: the flip lands on the active record only. */
  function HandleToggleCategory(w: Workspace, c: Category): (r: Workspace)
    ensures r.isSimulation == w.isSimulation
    ensures r.Active() == ToggleInputs(w.Active(), c)
    ensures r.Inactive() == w.Inactive()
  {
    if w.isSimulation then w.(simulated := ToggleInputs(w.simulated, c))
    else w.(current := ToggleInputs(w.current, c))
  }

  /** The two record buttons: choose which record the form edits. */
  function SwitchRecord(w: Workspace, simulation: bool): (r: Workspace)
    ensures r.current == w.current && r.simulated == w.simulated
    ensures r.Active() == (if simulation then w.simulated else w.current)
  {
    w.(isSimulation := simulation)
  }

  /** In simulation mode the user's own record never changes, and outside
      it the test scenario never changes, whatever the edit. */
  lemma EditsStayInActiveRecord(w: Workspace, e: Edit, c: Category)
    ensures w.isSimulation ==> HandleInputChange(w, e).current == w.current
    ensures w.isSimulation ==> HandleToggleCategory(w, c).current == w.current
    ensures !w.isSimulation ==> HandleInputChange(w, e).simulated == w.simulated
    ensures !w.isSimulation ==> HandleToggleCategory(w, c).simulated == w.simulated
  {
  }
}
