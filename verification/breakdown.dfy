/** The daily emissions calculator: each of the four categories yields a
    user part (a linear formula over the inputs) and a systemic baseline,
    both scaled by the policy modifier and rounded to six decimals; the
    totals add the parts and carry a fixed +/-15% confidence band. */
module Breakdown {
  import opened Types
  import opened Constants
  import opened Rounding

  /** The day's inputs as the dashboard starts: nothing enabled, every
      quantity zero, walking and a vegan diet selected. */
  const InitialInputs: UserInputs := UserInputs(
    EnabledCategories(false, false, false, false),
    0.0, Walking, 0.0, 0.0, Vegan, 0.0, 0.0, 0.0, 0.0)

  /** The unscaled daily user figure of a category, in kg CO2e. */
  function UserFormula(inputs: UserInputs, c: Category): real {
    match c
    case Transport => inputs.transportDist * TransportFactor(inputs.transportMode)
    case Energy => inputs.electricityKwh * ElectricityKwhFactor + inputs.acHours * AcHourFactor
    case Food => DietFactor(inputs.dietType) + inputs.foodWasteKg * FoodWasteKgFactor
    case Lifestyle =>
      inputs.waterLiters * WaterLiterFactor + inputs.wasteKg * WasteKgFactor
      + inputs.digitalHours * DigitalHourFactor
  }

  /** Every quantity of the record is nonnegative, as the form's validator
      guarantees for everything it lets through. */
  predicate NonnegativeInputs(inputs: UserInputs) {
    && inputs.transportDist >= 0.0
    && inputs.electricityKwh >= 0.0
    && inputs.acHours >= 0.0
    && inputs.foodWasteKg >= 0.0
    && inputs.waterLiters >= 0.0
    && inputs.wasteKg >= 0.0
    && inputs.digitalHours >= 0.0
  }

  lemma UserFormulaNonnegative(inputs: UserInputs, c: Category)
    requires NonnegativeInputs(inputs)
    ensures UserFormula(inputs, c) >= 0.0
  {
    if c == Transport {
      var f := TransportFactor(inputs.transportMode);
      assert inputs.transportDist * f >= 0.0;
    }
  }

  /** One category's scaled, rounded pair. A disabled category adds nothing
      of the user's own; the baseline does not depend on the flag. */
  function GetComp(enabled: bool, userVal: real, baselineVal: real, modifier: real): (comp: CategoryComponent)
    ensures !enabled ==> comp.user == 0.0
    ensures enabled ==> -HalfUnit(6) <= comp.user - userVal * modifier <= HalfUnit(6)
    ensures enabled && userVal * modifier >= 0.0 ==> comp.user >= 0.0
    ensures OnGrid(baselineVal * modifier, 6) ==> comp.baseline == baselineVal * modifier
    ensures OnGrid(comp.user, 6) && OnGrid(comp.baseline, 6)
  {
    ExactIfOnGrid(baselineVal * modifier);
    ZeroOnGrid();
    ToFixedNear(userVal * modifier, 6);
    ToFixedSign(userVal * modifier, 6);
    ToFixedOnGridResult(userVal * modifier, 6);
    ToFixedOnGridResult(baselineVal * modifier, 6);
    CategoryComponent(if enabled then ToFixed(userVal * modifier, 6) else 0.0, ToFixed(baselineVal * modifier, 6))
  }

  lemma ExactIfOnGrid(x: real)
    ensures OnGrid(x, 6) ==> ToFixed(x, 6) == x
  {
    if OnGrid(x, 6) {
      ToFixedOnGrid(x, 6);
    }
  }

  lemma ZeroOnGrid()
    ensures OnGrid(0.0, 6)
  {
    OnGridZero(6);
  }

  /** Every scaled baseline is a whole number of millionths, so rounding
      to six decimals leaves it exact. */
  lemma ScaledBaselineOnGrid(c: Category, p: PolicyScenario)
    ensures OnGrid(MetabolicBaseline(c) * PolicyModifier(p), 6)
  {
  }

  /** The pair `getComp` yields for category c. A disabled category adds
      nothing of the user's own. */
  function CategoryComp(inputs: UserInputs, policy: PolicyScenario, c: Category): (comp: CategoryComponent)
    ensures !inputs.enabledCategories.Get(c) ==> comp.user == 0.0
    ensures inputs.enabledCategories.Get(c) ==>
      -HalfUnit(6) <= comp.user - UserFormula(inputs, c) * PolicyModifier(policy) <= HalfUnit(6)
    ensures OnGrid(comp.user, 6) && OnGrid(comp.baseline, 6)
  {
    GetComp(inputs.enabledCategories.Get(c), UserFormula(inputs, c), MetabolicBaseline(c), PolicyModifier(policy))
  }

  lemma CategoryCompUnfold(inputs: UserInputs, policy: PolicyScenario, c: Category)
    ensures CategoryComp(inputs, policy, c)
      == GetComp(inputs.enabledCategories.Get(c), UserFormula(inputs, c), MetabolicBaseline(c), PolicyModifier(policy))
  {
  }

  lemma GetCompScaledBaseline(enabled: bool, userVal: real, c: Category, policy: PolicyScenario)
    ensures GetComp(enabled, userVal, MetabolicBaseline(c), PolicyModifier(policy)).baseline
      == MetabolicBaseline(c) * PolicyModifier(policy)
  {
    ScaledBaselineOnGrid(c, policy);
  }

  /** A category's baseline is exactly its constant times the modifier,
      whatever the flag or the inputs: rounding never moves it. */
  lemma CategoryBaseline(inputs: UserInputs, policy: PolicyScenario, c: Category)
    ensures CategoryComp(inputs, policy, c).baseline == MetabolicBaseline(c) * PolicyModifier(policy)
  {
    CategoryCompUnfold(inputs, policy, c);
    GetCompScaledBaseline(inputs.enabledCategories.Get(c), UserFormula(inputs, c), c, policy);
  }

  /** With nonnegative inputs an enabled category's user part is nonnegative. */
  lemma CategoryUserNonnegative(inputs: UserInputs, policy: PolicyScenario, c: Category)
    requires NonnegativeInputs(inputs)
    ensures CategoryComp(inputs, policy, c).user >= 0.0
  {
    CategoryCompUnfold(inputs, policy, c);
    UserFormulaNonnegative(inputs, c);
    GetCompUserNonnegative(inputs.enabledCategories.Get(c), UserFormula(inputs, c), MetabolicBaseline(c), PolicyModifier(policy));
  }

  lemma GetCompUserNonnegative(enabled: bool, userVal: real, baselineVal: real, modifier: real)
    requires userVal >= 0.0 && modifier >= 0.0
    ensures GetComp(enabled, userVal, baselineVal, modifier).user >= 0.0
  {
    assert userVal * modifier >= 0.0;
  }

  /** Four parts on the grid of millionths add up to totals that rounding
      to six decimals leaves exact. */
  ghost predicate PartsOnGrid(t: CategoryComponent, e: CategoryComponent, f: CategoryComponent, l: CategoryComponent) {
    && OnGrid(t.user, 6) && OnGrid(e.user, 6) && OnGrid(f.user, 6) && OnGrid(l.user, 6)
    && OnGrid(t.baseline, 6) && OnGrid(e.baseline, 6) && OnGrid(f.baseline, 6) && OnGrid(l.baseline, 6)
  }

  /** The totals and the band of a breakdown from its four parts. */
  function Assemble(t: CategoryComponent, e: CategoryComponent, f: CategoryComponent, l: CategoryComponent): (b: CategoryBreakdown)
    ensures b.transport == t && b.energy == e && b.food == f && b.lifestyle == l
    ensures PartsOnGrid(t, e, f, l) ==>
      && b.totalUser == t.user + e.user + f.user + l.user
      && b.totalBaseline == t.baseline + e.baseline + f.baseline + l.baseline
      && b.total == b.totalUser + b.totalBaseline
    ensures b.confidenceRange == ConfidenceRange(
      (t.user + e.user + f.user + l.user + (t.baseline + e.baseline + f.baseline + l.baseline)) * 0.85,
      (t.user + e.user + f.user + l.user + (t.baseline + e.baseline + f.baseline + l.baseline)) * 1.15)
  {
    var totalUser := t.user + e.user + f.user + l.user;
    var totalBaseline := t.baseline + e.baseline + f.baseline + l.baseline;
    var total := totalUser + totalBaseline;
    TotalsExact(t, e, f, l);
    CategoryBreakdown(
      t, e, f, l,
      ToFixed(totalUser, 6), ToFixed(totalBaseline, 6), ToFixed(total, 6),
      ConfidenceRange(total * 0.85, total * 1.15))
  }

  /** The breakdown of one day's inputs under a policy scenario. */
  function CalculateBreakdown(inputs: UserInputs, policy: PolicyScenario): (b: CategoryBreakdown)
    ensures forall c: Category :: b.Component(c) == CategoryComp(inputs, policy, c)
    ensures b.totalUser == b.transport.user + b.energy.user + b.food.user + b.lifestyle.user
    ensures b.totalBaseline == b.transport.baseline + b.energy.baseline + b.food.baseline + b.lifestyle.baseline
    ensures b.total == b.totalUser + b.totalBaseline
    ensures b.confidenceRange == ConfidenceRange(b.total * 0.85, b.total * 1.15)
  {
    Assemble(
      CategoryComp(inputs, policy, Transport), CategoryComp(inputs, policy, Energy),
      CategoryComp(inputs, policy, Food), CategoryComp(inputs, policy, Lifestyle))
  }

  /** The shape every computed breakdown has: the totals are the sums of
      the parts and the band is the total give or take 15%. */
  predicate WellFormedBreakdown(b: CategoryBreakdown) {
    && b.totalUser == b.transport.user + b.energy.user + b.food.user + b.lifestyle.user
    && b.totalBaseline == b.transport.baseline + b.energy.baseline + b.food.baseline + b.lifestyle.baseline
    && b.total == b.totalUser + b.totalBaseline
    && b.confidenceRange == ConfidenceRange(b.total * 0.85, b.total * 1.15)
  }

  lemma CalculatedIsWellFormed(inputs: UserInputs, policy: PolicyScenario)
    ensures WellFormedBreakdown(CalculateBreakdown(inputs, policy))
  {
  }

  /** Each category of the breakdown: a disabled category adds no user
      part, an enabled one adds its formula times the modifier (to within
      rounding to six decimals), and the baseline is exactly the category's
      constant times the modifier. */
  lemma BreakdownParts(inputs: UserInputs, policy: PolicyScenario, c: Category)
    ensures var comp := CalculateBreakdown(inputs, policy).Component(c);
      && (!inputs.enabledCategories.Get(c) ==> comp.user == 0.0)
      && (inputs.enabledCategories.Get(c) ==>
           -HalfUnit(6) <= comp.user - UserFormula(inputs, c) * PolicyModifier(policy) <= HalfUnit(6))
      && comp.baseline == MetabolicBaseline(c) * PolicyModifier(policy)
  {
    var b := CalculateBreakdown(inputs, policy);
    assert b.Component(c) == CategoryComp(inputs, policy, c);
    CategoryBaseline(inputs, policy, c);
  }

  lemma SumOfFourOnGrid(a: real, b: real, c: real, d: real)
    requires OnGrid(a, 6) && OnGrid(b, 6) && OnGrid(c, 6) && OnGrid(d, 6)
    ensures OnGrid(a + b + c + d, 6)
  {
    OnGridAdd(a, b, 6);
    var ab := a + b;
    OnGridAdd(ab, c, 6);
    var abc := ab + c;
    OnGridAdd(abc, d, 6);
  }

  /** Parts on the grid of millionths add up to sums that rounding to six
      decimals leaves exact. */
  lemma TotalsExact(t: CategoryComponent, e: CategoryComponent, f: CategoryComponent, l: CategoryComponent)
    ensures PartsOnGrid(t, e, f, l) ==>
      && ToFixed(t.user + e.user + f.user + l.user, 6) == t.user + e.user + f.user + l.user
      && ToFixed(t.baseline + e.baseline + f.baseline + l.baseline, 6) == t.baseline + e.baseline + f.baseline + l.baseline
      && ToFixed((t.user + e.user + f.user + l.user) + (t.baseline + e.baseline + f.baseline + l.baseline), 6)
         == (t.user + e.user + f.user + l.user) + (t.baseline + e.baseline + f.baseline + l.baseline)
  {
    if PartsOnGrid(t, e, f, l) {
      var u := t.user + e.user + f.user + l.user;
      var s := t.baseline + e.baseline + f.baseline + l.baseline;
      SumOfFourOnGrid(t.user, e.user, f.user, l.user);
      SumOfFourOnGrid(t.baseline, e.baseline, f.baseline, l.baseline);
      OnGridAdd(u, s, 6);
      var total := u + s;
      ToFixedOnGrid(u, 6);
      ToFixedOnGrid(s, 6);
      ToFixedOnGrid(total, 6);
    }
  }

  /** Nonnegative inputs give nonnegative parts and totals, and then the
      confidence band brackets the total. */
  lemma BreakdownNonnegative(inputs: UserInputs, policy: PolicyScenario)
    requires NonnegativeInputs(inputs)
    ensures var b := CalculateBreakdown(inputs, policy);
      && (forall c: Category :: b.Component(c).user >= 0.0 && b.Component(c).baseline > 0.0)
      && b.totalUser >= 0.0 && b.totalBaseline > 0.0
      && b.confidenceRange.lo <= b.total <= b.confidenceRange.hi
  {
    var b := CalculateBreakdown(inputs, policy);
    forall c: Category ensures b.Component(c).user >= 0.0 && b.Component(c).baseline > 0.0 {
      CategoryUserNonnegative(inputs, policy, c);
      CategoryBaseline(inputs, policy, c);
      var m := PolicyModifier(policy);
      var base := MetabolicBaseline(c);
      assert base * m > 0.0;
    }
    assert b.transport == b.Component(Transport);
    assert b.energy == b.Component(Energy);
    assert b.food == b.Component(Food);
    assert b.lifestyle == b.Component(Lifestyle);
  }

  /** With no category enabled, as in the initial state, only the baselines
      remain: 1.2 + 3.5 + 4.2 + 0.8 = 9.7 kg per day, scaled by the policy. */
  lemma NothingEnabledLeavesBaseline(inputs: UserInputs, policy: PolicyScenario)
    requires inputs.enabledCategories == EnabledCategories(false, false, false, false)
    ensures CalculateBreakdown(inputs, policy).totalUser == 0.0
    ensures CalculateBreakdown(inputs, policy).totalBaseline == 9.7 * PolicyModifier(policy)
    ensures CalculateBreakdown(inputs, policy).total == 9.7 * PolicyModifier(policy)
  {
    var b := CalculateBreakdown(inputs, policy);
    assert b.transport == b.Component(Transport);
    assert b.energy == b.Component(Energy);
    assert b.food == b.Component(Food);
    assert b.lifestyle == b.Component(Lifestyle);
    CategoryBaseline(inputs, policy, Transport);
    CategoryBaseline(inputs, policy, Energy);
    CategoryBaseline(inputs, policy, Food);
    CategoryBaseline(inputs, policy, Lifestyle);
  }

  /** The digital term is the only user figure the form cannot reach; while
      it stays 0, lifestyle reduces to water and waste. */
  lemma DigitalTermSilent(inputs: UserInputs)
    requires inputs.digitalHours == 0.0
    ensures UserFormula(inputs, Lifestyle)
      == inputs.waterLiters * WaterLiterFactor + inputs.wasteKg * WasteKgFactor
  {
  }

  /** The dashboard opens showing only the systemic load: 9.7 kg per day
      under the baseline policy. */
  lemma InitialInputsBreakdown(policy: PolicyScenario)
    ensures CalculateBreakdown(InitialInputs, policy).totalUser == 0.0
    ensures CalculateBreakdown(InitialInputs, policy).total == 9.7 * PolicyModifier(policy)
  {
    NothingEnabledLeavesBaseline(InitialInputs, policy);
  }
}
