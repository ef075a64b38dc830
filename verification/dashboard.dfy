/** How the dashboard feeds its panels from the user's own record: the
    planet, persona and advice panels receive its annual load, and the
    equivalents panel receives the headline figure, over the hovered day or
    over a year. */
module Dashboard {
  import opened Types
  import opened Breakdown
  import opened Workspace
  import opened InputSection
  import Chart
  import Earth
  import Forensic
  import Equivalents
  import ActionCenter

  /** Every record the form can reach has a nonnegative annual load. */
  lemma ReachableAnnualNonnegative(events: seq<FormEvent>, policy: PolicyScenario)
    ensures var w := Run(InitialWorkspace, events);
      && Forensic.AnnualLoad(CalculateBreakdown(w.current, policy).total) >= 0.0
      && Forensic.AnnualLoad(CalculateBreakdown(w.simulated, policy).total) >= 0.0
  {
    var w := Run(InitialWorkspace, events);
    ReachableRecordsAdmissible(events);
    BreakdownNonnegative(w.current, policy);
    BreakdownNonnegative(w.simulated, policy);
  }

  /** For a nonnegative daily total, the panels' figures stay in their
      ranges: the stability index and the proximity bar within [0, 100], the
      annual figure of the advice request a whole number of kilograms within
      0.5 of the annual load and never negative. */
  lemma AnnualPanelsInRange(b: CategoryBreakdown)
    requires b.total >= 0.0
    ensures var annual := Forensic.AnnualLoad(b.total);
      && 0.0 <= Earth.Stability(annual) <= 100.0
      && 0.0 <= Forensic.ProximityWidth(annual) <= 100.0
      && -0.5 <= ActionCenter.PromptAnnual(b) - annual <= 0.5
      && ActionCenter.PromptAnnual(b) >= 0.0
  {
    var r := ActionCenter.PromptAnnual(b);
    assert r.Floor as real == r && r >= -0.5;
  }

  /** For a nonnegative daily total, the headline figure and the counts the
      equivalents panel derives from it are nonnegative. The chart only
      reports a column's day as the hovered day, and every column's day is
      at least 1. */
  lemma HeadlineEquivalentsNonnegative(total: real, scrubbedDay: Option<real>)
    requires total >= 0.0
    requires scrubbedDay.Some? ==> scrubbedDay.value >= 1.0
    ensures var shown := Chart.DisplayFigure(total, scrubbedDay);
      && shown >= 0.0
      && Equivalents.TreeCount(shown) >= 0
      && Equivalents.SmartphoneCharges(shown) >= 0
      && Equivalents.DrivingKm(shown) >= 0
  {
    Equivalents.CountsNonnegative(Chart.DisplayFigure(total, scrubbedDay));
  }

  /** Every record the form can reach feeds the panels figures within their
      ranges. */
  lemma ReachablePanelsInRange(events: seq<FormEvent>, policy: PolicyScenario, scrubbedDay: Option<real>)
    requires scrubbedDay.Some? ==> scrubbedDay.value >= 1.0
    ensures var b := CalculateBreakdown(Run(InitialWorkspace, events).current, policy);
      var annual := Forensic.AnnualLoad(b.total);
      && 0.0 <= Earth.Stability(annual) <= 100.0
      && 0.0 <= Forensic.ProximityWidth(annual) <= 100.0
      && ActionCenter.PromptAnnual(b) >= 0.0
      && Equivalents.TreeCount(Chart.DisplayFigure(b.total, scrubbedDay)) >= 0
      && Equivalents.SmartphoneCharges(Chart.DisplayFigure(b.total, scrubbedDay)) >= 0
      && Equivalents.DrivingKm(Chart.DisplayFigure(b.total, scrubbedDay)) >= 0
  {
    var b := CalculateBreakdown(Run(InitialWorkspace, events).current, policy);
    ReachableAnnualNonnegative(events, policy);
    AnnualPanelsInRange(b);
    HeadlineEquivalentsNonnegative(b.total, scrubbedDay);
  }

  /** The yearly view's last column falls on day 365, so its `current`
      figure is the annual load to within half a cent. */
  lemma YearColumnIsAnnual(cur: CategoryBreakdown, sim: CategoryBreakdown, isSimulation: bool)
    ensures var p := Chart.ChartData(cur, sim, Chart.Yearly, isSimulation)[3];
      -Rounding.HalfUnit(2) <= p.current - Forensic.AnnualLoad(cur.total) <= Rounding.HalfUnit(2)
  {
    Chart.StepsShape(Chart.Yearly);
    Chart.HoveredColumnHeadline(cur, sim, Chart.Yearly, isSimulation, 3);
  }
}
