/** The persona panel: the archetype nearest to the annual load, the gap to
    it and the proximity bar. */
module Forensic {
  import opened Types
  import opened Constants
  import opened Rounding
  import Chart

  /** The annual load of a daily total: the total accumulated over 365 days,
      the same figure the headline shows when no day is hovered. */
  function AnnualLoad(dailyTotal: real): (a: real)
    ensures a == Chart.OverDays(dailyTotal, 365)
    ensures a == Chart.DisplayFigure(dailyTotal, None)
    ensures dailyTotal >= 0.0 ==> a >= dailyTotal
    ensures dailyTotal <= 0.0 ==> a <= dailyTotal
  {
    Chart.OverDaysIsProduct(dailyTotal, 365);
    dailyTotal * 365.0
  }

  /** How far an archetype's annual figure lies from the load. */
  function Distance(arch: Archetype, annual: real): (d: real)
    ensures d >= 0.0
  {
    Abs(arch.annualCO2 - annual)
  }

  /** The `reduce` over the list: `best` is the index kept so far and i the
      next index to compare; a later archetype replaces the kept one only
      when it is strictly closer. */
  function FoldNearest(xs: seq<Archetype>, annual: real, best: nat, i: nat): (k: nat)
    requires best < i <= |xs|
    ensures k < |xs|
    decreases |xs| - i
  {
    if i == |xs| then best
    else
      var next := if Distance(xs[i], annual) < Distance(xs[best], annual) then i else best;
      FoldNearest(xs, annual, next, i + 1)
  }

  /** The index `reduce` settles on: no archetype is strictly closer, and
      every one before it is strictly farther, so a tie keeps the earlier. */
  lemma {:induction false} FoldNearestIsFirstClosest(xs: seq<Archetype>, annual: real, best: nat, i: nat)
    requires best < i <= |xs|
    requires forall j :: 0 <= j < i ==> Distance(xs[best], annual) <= Distance(xs[j], annual)
    requires forall j :: 0 <= j < best ==> Distance(xs[best], annual) < Distance(xs[j], annual)
    ensures var k := FoldNearest(xs, annual, best, i);
      && (forall j :: 0 <= j < |xs| ==> Distance(xs[k], annual) <= Distance(xs[j], annual))
      && (forall j :: 0 <= j < k ==> Distance(xs[k], annual) < Distance(xs[j], annual))
    decreases |xs| - i
  {
    if i < |xs| {
      var next := if Distance(xs[i], annual) < Distance(xs[best], annual) then i else best;
      FoldNearestIsFirstClosest(xs, annual, next, i + 1);
    }
  }

  /** `nearestArchetype` over a list; like `reduce` without a seed, it needs
      a non-empty list. */
  function NearestIndex(xs: seq<Archetype>, annual: real): (k: nat)
    requires |xs| > 0
    ensures k < |xs|
    ensures forall j :: 0 <= j < |xs| ==> Distance(xs[k], annual) <= Distance(xs[j], annual)
    ensures forall j :: 0 <= j < k ==> Distance(xs[k], annual) < Distance(xs[j], annual)
  {
    FoldNearestIsFirstClosest(xs, annual, 0, 1);
    FoldNearest(xs, annual, 0, 1)
  }

  /** The archetype shown for an annual load. */
  function NearestArchetype(annual: real): (arch: Archetype)
    ensures arch in Archetypes
    ensures forall x :: x in Archetypes ==> Distance(arch, annual) <= Distance(x, annual)
  {
    var k := NearestIndex(Archetypes, annual);
    assert forall x :: x in Archetypes ==> exists j :: 0 <= j < |Archetypes| && Archetypes[j] == x;
    Archetypes[k]
  }

  /** With the list ordered Aligned (2100), Urban (8500), Global (4700), a
      load up to 3400 shows Aligned, one strictly between 3400 and 6600
      shows Global, and one from 6600 up shows Urban; the two boundaries are
      ties that the earlier archetype wins. */
  lemma NearestByRange(annual: real)
    ensures annual <= 3400.0 ==> NearestArchetype(annual).id == "climate-aligned"
    ensures 3400.0 < annual < 6600.0 ==> NearestArchetype(annual).id == "global-average"
    ensures annual >= 6600.0 ==> NearestArchetype(annual).id == "urban-professional"
  {
    var k := NearestIndex(Archetypes, annual);
    var d0 := Distance(Archetypes[0], annual);
    var d1 := Distance(Archetypes[1], annual);
    var d2 := Distance(Archetypes[2], annual);
    if annual <= 3400.0 {
      assert d0 <= d2 < d1;
      assert k == 0;
    } else if annual < 6600.0 {
      assert d2 < d0 && d2 < d1;
      assert k == 2;
    } else {
      assert d1 <= d2 < d0;
      assert k == 1;
    }
  }

  /** The gap shown next to the persona: the distance to the nearest
      archetype, which is the smallest distance to any archetype. */
  function Delta(annual: real): (d: real)
    ensures d >= 0.0
    ensures forall x :: x in Archetypes ==> d <= Distance(x, annual)
    ensures exists x :: x in Archetypes && d == Distance(x, annual)
  {
    Abs(annual - NearestArchetype(annual).annualCO2)
  }

  /** The proximity bar's width in percent: the load as a share of the
      nearest archetype's figure, capped at 100. */
  function ProximityWidth(annual: real): (w: real)
    ensures w <= 100.0
    ensures annual >= 0.0 ==> w >= 0.0
    ensures w == 100.0 <==> annual >= NearestArchetype(annual).annualCO2
  {
    var arch := NearestArchetype(annual);
    ArchetypesWellFormed();
    var share := annual / arch.annualCO2 * 100.0;
    if share < 100.0 then share else 100.0
  }
}
