/** The planet panel's figures over the annual load in kg: the stability
    index, the pollution factor that tints the globe, the cloud opacity and
    the status label. The 3D scene that consumes them is not modelled. */
module Earth {
  import opened Constants

  /** The stability index: 100 at no load, falling linearly to 0 at the
      high-intensity threshold, never below 0. Nothing caps it at 100 from
      above, so a negative load would give more than 100. */
  function Stability(annual: real): (r: real)
    ensures r >= 0.0
    ensures annual >= 0.0 ==> r <= 100.0
    ensures annual == 0.0 ==> r == 100.0
    ensures annual >= HighIntensityThreshold ==> r == 0.0
    ensures annual <= HighIntensityThreshold ==> r + annual / 150.0 == 100.0
  {
    var raw := 100.0 - annual / HighIntensityThreshold * 100.0;
    if raw < 0.0 then 0.0 else raw
  }

  /** A heavier load never raises the stability index. */
  lemma StabilityAntitone(a: real, b: real)
    requires a <= b
    ensures Stability(b) <= Stability(a)
  {
  }

  /** The pollution factor: the load's position between the Paris maximum
      and the high-intensity threshold, clamped to [0, 1]. */
  function Pollution(annual: real): (r: real)
    ensures 0.0 <= r <= 1.0
    ensures annual <= ParisAgreementAnnualMax ==> r == 0.0
    ensures annual >= HighIntensityThreshold ==> r == 1.0
    ensures ParisAgreementAnnualMax <= annual <= HighIntensityThreshold ==>
      r * 12500.0 == annual - ParisAgreementAnnualMax
  {
    var lo := ParisAgreementAnnualMax;
    var hi := HighIntensityThreshold;
    var raw := (annual - lo) / (hi - lo);
    var floored := if raw < 0.0 then 0.0 else raw;
    if floored > 1.0 then 1.0 else floored
  }

  /** A heavier load never lowers the pollution factor. */
  lemma PollutionMonotone(a: real, b: real)
    requires a <= b
    ensures Pollution(a) <= Pollution(b)
  {
  }

  /** The load meets the Paris maximum. */
  predicate IsHealthy(annual: real) {
    annual <= ParisAgreementAnnualMax
  }

  /** The load exceeds the world average. */
  predicate IsCritical(annual: real) {
    annual > WorldAverageAnnual
  }

  /** No load is both healthy and critical, because the Paris maximum lies
      below the world average. */
  lemma HealthyExcludesCritical(annual: real)
    ensures !(IsHealthy(annual) && IsCritical(annual))
    ensures IsHealthy(annual) ==> Pollution(annual) == 0.0
  {
  }

  datatype Status = Equilibrium | Emergency | Strain

  /** The status label: healthy first, then critical, and strain for the
      rest. */
  function StatusOf(annual: real): (s: Status)
    ensures s == Equilibrium <==> annual <= ParisAgreementAnnualMax
    ensures s == Emergency <==> annual > WorldAverageAnnual
    ensures s == Strain <==> ParisAgreementAnnualMax < annual <= WorldAverageAnnual
  {
    if IsHealthy(annual) then Equilibrium
    else if IsCritical(annual) then Emergency
    else Strain
  }

  /** A heavier load never moves the label back towards equilibrium. */
  lemma StatusMonotone(a: real, b: real)
    requires a <= b
    ensures StatusOf(a) == Emergency ==> StatusOf(b) == Emergency
    ensures StatusOf(b) == Equilibrium ==> StatusOf(a) == Equilibrium
  {
  }

  /** The cloud layer's opacity: 0.8 on a clean planet, thinned by up to
      0.35 as pollution rises. */
  function CloudOpacity(annual: real): (r: real)
    ensures 0.45 <= r <= 0.8
    ensures annual <= ParisAgreementAnnualMax ==> r == 0.8
    ensures annual >= HighIntensityThreshold ==> r == 0.45
  {
    0.8 - Pollution(annual) * 0.35
  }

  /** A heavier load never thickens the clouds. */
  lemma CloudOpacityAntitone(a: real, b: real)
    requires a <= b
    ensures CloudOpacity(b) <= CloudOpacity(a)
  {
    PollutionMonotone(a, b);
  }
}
