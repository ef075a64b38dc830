/** The equivalents panel: the load it is handed restated as trees, phone
    charges, kilometres driven, gas cylinders, ocean uptake and a saturation
    index. The dashboard hands it the headline figure: the load up to the
    hovered day while the chart is hovered, and the annual load otherwise. */
module Equivalents {
  import opened Constants
  import opened Rounding

  /** `Math.ceil(x)`. */
  function Ceil(x: real): int {
    -((-x).Floor)
  }

  /** Trees needed: the fewest whole trees whose yearly uptake of
      21 kg covers the load. */
  function TreeCount(load: real): (n: int)
    ensures (n as real) * TreeYear >= load
    ensures ((n - 1) as real) * TreeYear < load
  {
    Ceil(load / TreeYear)
  }

  /** Phone charges: the most whole charges of 0.008 kg the load pays for. */
  function SmartphoneCharges(load: real): (n: int)
    ensures (n as real) * SmartphoneCharge <= load
    ensures ((n + 1) as real) * SmartphoneCharge > load
  {
    (load / SmartphoneCharge).Floor
  }

  /** Kilometres driven: the most whole kilometres of 0.17 kg the load pays
      for. */
  function DrivingKm(load: real): (n: int)
    ensures (n as real) * CarKm <= load
    ensures ((n + 1) as real) * CarKm > load
  {
    (load / CarKm).Floor
  }

  /** The three whole-number counts are nonnegative for a nonnegative load. */
  lemma CountsNonnegative(load: real)
    requires load >= 0.0
    ensures TreeCount(load) >= 0
    ensures SmartphoneCharges(load) >= 0
    ensures DrivingKm(load) >= 0
  {
    assert (TreeCount(load) as real) * TreeYear >= 0.0;
    assert ((SmartphoneCharges(load) + 1) as real) * SmartphoneCharge > 0.0;
    assert ((DrivingKm(load) + 1) as real) * CarKm > 0.0;
  }

  /** A heavier load never lowers a count. Each follows from the counts'
      characterisations alone. */
  lemma CountsMonotone(a: real, b: real)
    requires a <= b
    ensures TreeCount(a) <= TreeCount(b)
    ensures SmartphoneCharges(a) <= SmartphoneCharges(b)
    ensures DrivingKm(a) <= DrivingKm(b)
  {
  }

  /** Gas cylinders of 43.5 kg, to one decimal. */
  function LpgCylinders(load: real): (r: real)
    ensures -HalfUnit(1) <= r - load / LpgCylinder <= HalfUnit(1)
  {
    ToFixedNear(load / LpgCylinder, 1);
    ToFixed(load / LpgCylinder, 1)
  }

  /** The ocean's share at an uptake rate of a quarter, to one decimal. */
  function OceanAbsorption(load: real): (r: real)
    ensures -HalfUnit(1) <= r - load * OceanAbsorptionRate <= HalfUnit(1)
  {
    ToFixedNear(load * OceanAbsorptionRate, 1);
    ToFixed(load * OceanAbsorptionRate, 1)
  }

  /** The saturation index: the load times 0.014, to four decimals. */
  function SaturationIndex(load: real): (r: real)
    ensures -HalfUnit(4) <= r - load * 0.014 <= HalfUnit(4)
  {
    assert BiosphereSaturationCoefficient * 1000000.0 == 0.014;
    ToFixedNear(load * BiosphereSaturationCoefficient * 1000000.0, 4);
    ToFixed(load * BiosphereSaturationCoefficient * 1000000.0, 4)
  }

  /** The three rounded figures keep the order of loads. */
  lemma RoundedFiguresMonotone(a: real, b: real)
    requires a <= b
    ensures LpgCylinders(a) <= LpgCylinders(b)
    ensures OceanAbsorption(a) <= OceanAbsorption(b)
    ensures SaturationIndex(a) <= SaturationIndex(b)
  {
    ToFixedMonotone(a / LpgCylinder, b / LpgCylinder, 1);
    ToFixedMonotone(a * OceanAbsorptionRate, b * OceanAbsorptionRate, 1);
    ToFixedMonotone(a * BiosphereSaturationCoefficient * 1000000.0, b * BiosphereSaturationCoefficient * 1000000.0, 4);
  }

  /** The three rounded figures are nonnegative for a nonnegative load. */
  lemma RoundedFiguresNonnegative(load: real)
    requires load >= 0.0
    ensures LpgCylinders(load) >= 0.0
    ensures OceanAbsorption(load) >= 0.0
    ensures SaturationIndex(load) >= 0.0
  {
    ToFixedSign(load / LpgCylinder, 1);
    ToFixedSign(load * OceanAbsorptionRate, 1);
    ToFixedSign(load * BiosphereSaturationCoefficient * 1000000.0, 4);
  }
}
