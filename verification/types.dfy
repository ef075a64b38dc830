/** The records and enumerations of the carbon auditor: the daily input
    record, the per-category breakdown and the benchmarking archetypes. */
module Types {

  datatype Option<T> = None | Some(value: T)

  datatype TransportMode = PetrolCar | DieselCar | ElectricCar | PublicTransit | Bicycle | Walking

  datatype DietType = HighMeat | MediumMeat | LowMeat | Vegetarian | Vegan

  datatype PolicyScenario = Baseline | CarbonTax | GreenIncentive | AggressiveTransition

  /** The four emission categories, in the order the dashboard lists them. */
  datatype Category = Transport | Energy | Food | Lifestyle

  const CategoryOrder: seq<Category> := [Transport, Energy, Food, Lifestyle]

  /** Which categories the user has switched on. */
  datatype EnabledCategories = EnabledCategories(transport: bool, energy: bool, food: bool, lifestyle: bool)
  {
    function Get(c: Category): bool {
      match c
      case Transport => transport
      case Energy => energy
      case Food => food
      case Lifestyle => lifestyle
    }
  }

  /** One day of activity data as entered in the form. */
  datatype UserInputs = UserInputs(
    enabledCategories: EnabledCategories,
    transportDist: real,
    transportMode: TransportMode,
    electricityKwh: real,
    acHours: real,
    dietType: DietType,
    foodWasteKg: real,
    waterLiters: real,
    wasteKg: real,
    digitalHours: real)

  /** A category's daily emissions: what the user adds and the fixed systemic load. */
  datatype CategoryComponent = CategoryComponent(user: real, baseline: real)

  datatype ConfidenceRange = ConfidenceRange(lo: real, hi: real)

  datatype CategoryBreakdown = CategoryBreakdown(
    transport: CategoryComponent,
    energy: CategoryComponent,
    food: CategoryComponent,
    lifestyle: CategoryComponent,
    totalUser: real,
    totalBaseline: real,
    total: real,
    confidenceRange: ConfidenceRange)
  {
    function Component(c: Category): CategoryComponent {
      match c
      case Transport => transport
      case Energy => energy
      case Food => food
      case Lifestyle => lifestyle
    }
  }

  datatype Archetype = Archetype(id: string, name: string, annualCO2: real, description: string)
}
