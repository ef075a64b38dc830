/** The fixed coefficient tables of the model: emission factors per unit of
    activity, the systemic baselines, the equivalence factors, the global
    thresholds, the archetype personas and the policy modifiers. Every table
    is a total function over its enumeration. */
module Constants {
  import opened Types

  /** kg CO2e per km for each transport mode. */
  function TransportFactor(m: TransportMode): (f: real)
    ensures f >= 0.0
    ensures f == 0.0 <==> (m == Bicycle || m == Walking)
  {
    match m
    case PetrolCar => 0.17
    case DieselCar => 0.171
    case ElectricCar => 0.047
    case PublicTransit => 0.082
    case Bicycle => 0.0
    case Walking => 0.0
  }

  const ElectricityKwhFactor: real := 0.475
  const AcHourFactor: real := 1.2

  /** kg CO2e per day for each diet. */
  function DietFactor(d: DietType): (f: real)
    ensures 2.9 <= f <= 7.2
  {
    match d
    case HighMeat => 7.2
    case MediumMeat => 5.6
    case LowMeat => 4.6
    case Vegetarian => 3.8
    case Vegan => 2.9
  }

  /** Position of a diet in the table, from most to least meat. */
  function DietRank(d: DietType): nat {
    match d
    case HighMeat => 0
    case MediumMeat => 1
    case LowMeat => 2
    case Vegetarian => 3
    case Vegan => 4
  }

  const FoodWasteKgFactor: real := 1.9
  const WaterLiterFactor: real := 0.0003
  const WasteKgFactor: real := 0.5
  const DigitalHourFactor: real := 0.04

  /** The inescapable daily load of each category, in kg CO2e. */
  function MetabolicBaseline(c: Category): (b: real)
    ensures 0.8 <= b <= 4.2
  {
    match c
    case Transport => 1.2
    case Energy => 3.5
    case Food => 4.2
    case Lifestyle => 0.8
  }

  const TreeYear: real := 21.0
  const CarKm: real := 0.17
  const SmartphoneCharge: real := 0.008
  const LpgCylinder: real := 43.5
  const OceanAbsorptionRate: real := 0.25
  const BiosphereSaturationCoefficient: real := 0.000000014

  const ParisAgreementAnnualMax: real := 2500.0
  const WorldAverageAnnual: real := 4700.0
  const HighIntensityThreshold: real := 15000.0

  const Archetypes: seq<Archetype> := [
    Archetype("climate-aligned", "Aligned Persona", 2100.0, "Meets 2030 sustainability benchmarks."),
    Archetype("urban-professional", "Urban Professional", 8500.0, "High travel and digital energy profile."),
    Archetype("global-average", "Global Average", 4700.0, "Baseline human metabolic impact.")
  ]

  /** The multiplier a policy scenario applies to every emission figure. */
  function PolicyModifier(p: PolicyScenario): (m: real)
    ensures 0.7 <= m <= 1.25
  {
    match p
    case Baseline => 1.0
    case CarbonTax => 1.25
    case GreenIncentive => 0.85
    case AggressiveTransition => 0.70
  }

  /** Diet factors fall strictly from high meat to vegan. */
  lemma DietFactorsStrictlyDecrease(d1: DietType, d2: DietType)
    ensures DietRank(d1) < DietRank(d2) <==> DietFactor(d1) > DietFactor(d2)
  {
  }

  /** Every per-unit emission factor and every baseline is nonnegative. */
  lemma FactorsNonnegative(m: TransportMode, d: DietType, c: Category)
    ensures TransportFactor(m) >= 0.0 && DietFactor(d) >= 0.0 && MetabolicBaseline(c) >= 0.0
    ensures ElectricityKwhFactor >= 0.0 && AcHourFactor >= 0.0 && FoodWasteKgFactor >= 0.0
    ensures WaterLiterFactor >= 0.0 && WasteKgFactor >= 0.0 && DigitalHourFactor >= 0.0
  {
  }

  /** The three annual thresholds are strictly ordered. */
  lemma ThresholdsOrdered()
    ensures 0.0 < ParisAgreementAnnualMax < WorldAverageAnnual < HighIntensityThreshold
  {
  }

  /** The archetype list is non-empty, as a seedless reduction over it needs,
      and every archetype has a positive annual figure. */
  lemma ArchetypesWellFormed()
    ensures |Archetypes| == 3
    ensures forall i :: 0 <= i < |Archetypes| ==> Archetypes[i].annualCO2 > 0.0
  {
  }
}
