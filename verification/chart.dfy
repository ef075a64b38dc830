/** The projection chart: for each view scale a fixed table of day offsets,
    and for each offset a point holding the daily figures multiplied by the
    number of days, split into the stacked layers the chart draws. */
module Chart {
  import opened Types
  import opened Rounding
  import opened Breakdown

  datatype ViewScale = Daily | Weekly | Monthly | Yearly | Decade

  /** One column of the chart: a day offset and its caption. */
  datatype Step = Step(day: nat, caption: string)

  function DigitChar(d: nat): char
    requires d < 10
  {
    "0123456789"[d]
  }

  /** The decimal numeral of n, as a template literal prints it. */
  function NatToString(n: nat): (s: string)
    ensures |s| >= 1
    ensures forall i :: 0 <= i < |s| ==> '0' <= s[i] <= '9'
    decreases n
  {
    if n < 10 then [DigitChar(n)] else NatToString(n / 10) + [DigitChar(n % 10)]
  }

  /** The number a string of decimal digits denotes, most significant first. */
  function DigitsValue(s: string): nat
    requires forall i :: 0 <= i < |s| ==> '0' <= s[i] <= '9'
    decreases |s|
  {
    if |s| == 0 then 0
    else DigitsValue(s[..|s| - 1]) * 10 + ((s[|s| - 1] as int) - ('0' as int))
  }

  /** Reading a caption's numeral back gives the number printed. */
  lemma {:induction false} NatToStringRoundTrip(n: nat)
    ensures DigitsValue(NatToString(n)) == n
    decreases n
  {
    if n < 10 {
      DigitValue(n);
    } else {
      NatToStringRoundTrip(n / 10);
      DigitValue(n % 10);
      var s := NatToString(n);
      var q := NatToString(n / 10);
      assert s == q + [DigitChar(n % 10)];
      assert s[..|s| - 1] == q;
    }
  }

  /** A numeral has no leading zero unless it is the numeral of 0. */
  lemma {:induction false} NatToStringNoLeadingZero(n: nat)
    ensures NatToString(n)[0] == '0' ==> n == 0
    decreases n
  {
    if n < 10 {
      DigitValue(n);
    } else {
      NatToStringNoLeadingZero(n / 10);
      assert NatToString(n)[0] == NatToString(n / 10)[0];
    }
  }

  /** A digit character stands for its own value. */
  lemma DigitValue(d: nat)
    requires d < 10
    ensures (DigitChar(d) as int) - ('0' as int) == d
  {
  }

  /** The day offsets and captions of each view scale. */
  function Steps(scale: ViewScale): seq<Step> {
    match scale
    case Daily => seq(7, i requires 0 <= i < 7 => Step(i + 1, "Day " + NatToString(i + 1)))
    case Weekly => seq(5, i requires 0 <= i < 5 => Step((i + 1) * 7, "Week " + NatToString(i + 1)))
    case Monthly => seq(12, i requires 0 <= i < 12 => Step((i + 1) * 30, "Month " + NatToString(i + 1)))
    case Yearly => [Step(1, "Day 1"), Step(30, "1 Month"), Step(180, "6 Months"), Step(365, "1 Year")]
    case Decade => [Step(365, "Year 1"), Step(365 * 3, "Year 3"), Step(365 * 5, "Year 5"), Step(365 * 10, "Year 10")]
  }

  /** The day offsets of a scale, independently of how the table is built. */
  function StepDays(scale: ViewScale): seq<nat> {
    match scale
    case Daily => [1, 2, 3, 4, 5, 6, 7]
    case Weekly => [7, 14, 21, 28, 35]
    case Monthly => [30, 60, 90, 120, 150, 180, 210, 240, 270, 300, 330, 360]
    case Yearly => [1, 30, 180, 365]
    case Decade => [365, 1095, 1825, 3650]
  }

  predicate StrictlyIncreasing(days: seq<nat>) {
    forall i, j :: 0 <= i < j < |days| ==> days[i] < days[j]
  }

  /** Each scale has 7, 5, 12, 4 or 4 columns, at exactly the listed day
      offsets, which are positive and strictly increasing. */
  lemma StepsShape(scale: ViewScale)
    ensures |Steps(scale)| == |StepDays(scale)|
    ensures scale == Daily ==> |Steps(scale)| == 7
    ensures scale == Weekly ==> |Steps(scale)| == 5
    ensures scale == Monthly ==> |Steps(scale)| == 12
    ensures scale == Yearly || scale == Decade ==> |Steps(scale)| == 4
    ensures forall i :: 0 <= i < |Steps(scale)| ==> Steps(scale)[i].day == StepDays(scale)[i] >= 1
    ensures StrictlyIncreasing(StepDays(scale))
  {
    match scale
    case Daily => EvenSteps(Steps(scale), StepDays(scale), 1);
    case Weekly => EvenSteps(Steps(scale), StepDays(scale), 7);
    case Monthly => EvenSteps(Steps(scale), StepDays(scale), 30);
    case Yearly =>
    case Decade =>
  }

  /** A table whose i-th column falls on day (i + 1) * k. */
  lemma EvenSteps(steps: seq<Step>, days: seq<nat>, k: nat)
    requires k >= 1 && |steps| == |days|
    requires forall i :: 0 <= i < |steps| ==> steps[i].day == (i + 1) * k
    requires forall i :: 0 <= i < |days| ==> days[i] == (i + 1) * k
    ensures forall i :: 0 <= i < |steps| ==> steps[i].day == days[i] >= 1
    ensures StrictlyIncreasing(days)
  {
    forall i, j | 0 <= i < j < |days| ensures days[i] < days[j] {
      assert (i + 1) * k < (j + 1) * k;
    }
  }

  /** One plotted point. `simulated` is absent outside simulation mode. */
  datatype ChartPoint = ChartPoint(
    day: nat,
    caption: string,
    current: real,
    currentBaseline: real,
    currentUser: real,
    simulated: Option<real>,
    minRange: real,
    maxRange: real,
    systemicBase: real,
    transportUser: real,
    energyUser: real,
    foodUser: real,
    lifestyleUser: real)

  /** The point of one column: each daily figure times the number of days,
      rounded to cents, and the stacked layers rounded to four decimals. */
  function MakePoint(cur: CategoryBreakdown, sim: CategoryBreakdown, isSimulation: bool, s: Step): (p: ChartPoint)
    ensures p.day == s.day && p.caption == s.caption
    ensures p.simulated.Some? <==> isSimulation
  {
    ChartPoint(
      s.day,
      s.caption,
      ToFixed(OverDays(cur.total, s.day), 2),
      ToFixed(OverDays(cur.totalBaseline, s.day), 2),
      ToFixed(OverDays(cur.totalUser, s.day), 2),
      if isSimulation then Some(ToFixed(OverDays(sim.total, s.day), 2)) else None,
      ToFixed(OverDays(cur.confidenceRange.lo, s.day), 2),
      ToFixed(OverDays(cur.confidenceRange.hi, s.day), 2),
      ToFixed(OverDays(cur.totalBaseline, s.day), 4),
      ToFixed(OverDays(cur.transport.user, s.day), 4),
      ToFixed(OverDays(cur.energy.user, s.day), 4),
      ToFixed(OverDays(cur.food.user, s.day), 4),
      ToFixed(OverDays(cur.lifestyle.user, s.day), 4))
  }

  /** `chartData`: one point per column of the chosen scale. */
  function ChartData(cur: CategoryBreakdown, sim: CategoryBreakdown, scale: ViewScale, isSimulation: bool): (pts: seq<ChartPoint>)
    ensures |pts| == |StepDays(scale)|
    ensures forall i :: 0 <= i < |pts| ==> pts[i].day == StepDays(scale)[i]
    ensures forall i :: 0 <= i < |pts| ==> (pts[i].simulated.Some? <==> isSimulation)
    ensures forall i :: 0 <= i < |pts| ==> pts[i] == MakePoint(cur, sim, isSimulation, Steps(scale)[i])
  {
    StepsShape(scale);
    var steps := Steps(scale);
    seq(|steps|, i requires 0 <= i < |steps| => MakePoint(cur, sim, isSimulation, steps[i]))
  }

  /** The figure accumulated over n days at a daily rate, written as an
      n-fold sum so that the proofs below stay linear; `OverDaysIsProduct`
      shows it is the product `rate * n` the dashboard computes. */
  function OverDays(rate: real, n: nat): real
    decreases n
  {
    if n == 0 then 0.0 else OverDays(rate, n - 1) + rate
  }

  lemma {:induction false} OverDaysIsProduct(rate: real, n: nat)
    ensures OverDays(rate, n) == rate * (n as real)
    decreases n
  {
    if n > 0 {
      OverDaysIsProduct(rate, n - 1);
      assert rate * (n as real) == rate * ((n - 1) as real) + rate;
    }
  }

  /** Accumulating keeps the order of daily rates. */
  lemma {:induction false} OverDaysMonotone(a: real, b: real, n: nat)
    requires a <= b
    ensures OverDays(a, n) <= OverDays(b, n)
    decreases n
  {
    if n > 0 {
      OverDaysMonotone(a, b, n - 1);
    }
  }

  /** Accumulating a sum of five rates accumulates each of them. */
  lemma {:induction false} OverDaysAdd(a: real, b: real, c: real, d: real, e: real, n: nat)
    ensures OverDays(a + b + c + d + e, n)
      == OverDays(a, n) + OverDays(b, n) + OverDays(c, n) + OverDays(d, n) + OverDays(e, n)
    decreases n
  {
    if n > 0 {
      OverDaysAdd(a, b, c, d, e, n - 1);
    }
  }

  /** Each point's headline figures are the daily figures accumulated over
      its number of days, to within half a cent; by `OverDaysIsProduct` that
      is the daily figure times the number of days. */
  lemma PointTracksDailyRate(cur: CategoryBreakdown, sim: CategoryBreakdown, isSimulation: bool, s: Step)
    ensures var p := MakePoint(cur, sim, isSimulation, s);
      && -HalfUnit(2) <= p.current - OverDays(cur.total, s.day) <= HalfUnit(2)
      && -HalfUnit(2) <= p.currentBaseline - OverDays(cur.totalBaseline, s.day) <= HalfUnit(2)
      && -HalfUnit(2) <= p.currentUser - OverDays(cur.totalUser, s.day) <= HalfUnit(2)
      && (isSimulation ==> -HalfUnit(2) <= p.simulated.value - OverDays(sim.total, s.day) <= HalfUnit(2))
  {
    ToFixedNear(OverDays(cur.total, s.day), 2);
    ToFixedNear(OverDays(cur.totalBaseline, s.day), 2);
    ToFixedNear(OverDays(cur.totalUser, s.day), 2);
    ToFixedNear(OverDays(sim.total, s.day), 2);
  }

  /** A daily rate accumulated over n days and rounded to d decimals is
      within half a unit of the last place of the exact product. */
  lemma RoundedTracksRate(rate: real, n: nat, d: FractionDigits)
    ensures -HalfUnit(d) <= ToFixed(OverDays(rate, n), d) - rate * (n as real) <= HalfUnit(d)
  {
    OverDaysIsProduct(rate, n);
    ToFixedNear(OverDays(rate, n), d);
  }

  /** For a breakdown the calculator produced, the five stacked layers add
      up to the point's total, up to the rounding of the six figures
      involved: five layers at four decimals and the total at two. */
  lemma LayersAddUpToCurrent(b: CategoryBreakdown, sim: CategoryBreakdown, isSimulation: bool, s: Step)
    requires WellFormedBreakdown(b)
    ensures var p := MakePoint(b, sim, isSimulation, s);
      var layers := p.systemicBase + p.transportUser + p.energyUser + p.foodUser + p.lifestyleUser;
      -(5.0 * HalfUnit(4) + HalfUnit(2)) <= layers - p.current <= 5.0 * HalfUnit(4) + HalfUnit(2)
  {
    OverDaysAdd(b.totalBaseline, b.transport.user, b.energy.user, b.food.user, b.lifestyle.user, s.day);
    LayerSum(OverDays(b.totalBaseline, s.day), OverDays(b.transport.user, s.day),
      OverDays(b.energy.user, s.day), OverDays(b.food.user, s.day),
      OverDays(b.lifestyle.user, s.day), OverDays(b.total, s.day));
  }

  /** Five figures rounded to four decimals, against their sum rounded to
      two. */
  lemma LayerSum(bd: real, td: real, ed: real, fd: real, ld: real, total: real)
    requires total == bd + td + ed + fd + ld
    ensures var layers := ToFixed(bd, 4) + ToFixed(td, 4) + ToFixed(ed, 4) + ToFixed(fd, 4) + ToFixed(ld, 4);
      -(5.0 * HalfUnit(4) + HalfUnit(2)) <= layers - ToFixed(total, 2) <= 5.0 * HalfUnit(4) + HalfUnit(2)
  {
    ToFixedNear(bd, 4);
    ToFixedNear(td, 4);
    ToFixedNear(ed, 4);
    ToFixedNear(fd, 4);
    ToFixedNear(ld, 4);
    ToFixedNear(total, 2);
  }

  /** For a breakdown the calculator produced, with a nonnegative total, the
      band drawn around a point contains the point. */
  lemma BandContainsCurrent(b: CategoryBreakdown, sim: CategoryBreakdown, isSimulation: bool, s: Step)
    requires WellFormedBreakdown(b) && b.total >= 0.0
    ensures var p := MakePoint(b, sim, isSimulation, s);
      p.minRange <= p.current <= p.maxRange
  {
    OverDaysMonotone(b.confidenceRange.lo, b.total, s.day);
    OverDaysMonotone(b.total, b.confidenceRange.hi, s.day);
    ToFixedMonotone(OverDays(b.confidenceRange.lo, s.day), OverDays(b.total, s.day), 2);
    ToFixedMonotone(OverDays(b.total, s.day), OverDays(b.confidenceRange.hi, s.day), 2);
  }

  /** The headline figures: over the scrubbed day when one is hovered, over
      a year otherwise. A hovered day of 0 counts as none. */
  function DisplayFigure(dailyRate: real, scrubbedDay: Option<real>): (r: real)
    ensures scrubbedDay == None || scrubbedDay == Some(0.0) ==> r == dailyRate * 365.0
    ensures scrubbedDay.Some? && scrubbedDay.value != 0.0 ==> r == dailyRate * scrubbedDay.value
  {
    if scrubbedDay.Some? && scrubbedDay.value != 0.0 then dailyRate * scrubbedDay.value
    else dailyRate * 365.0
  }

  /** With a column of day d >= 1 hovered, the headline shows that column's
      `current` figure to within half a cent. */
  lemma HoveredHeadlineMatchesPoint(cur: CategoryBreakdown, sim: CategoryBreakdown, isSimulation: bool, s: Step)
    requires s.day >= 1
    ensures -HalfUnit(2) <= MakePoint(cur, sim, isSimulation, s).current - DisplayFigure(cur.total, Some(s.day as real)) <= HalfUnit(2)
  {
    HeadlineNearRounded(cur.total, s.day);
  }

  /** The headline figure over n >= 1 days is within half a cent of the
      chart's rounded accumulation over n days. */
  lemma HeadlineNearRounded(rate: real, n: nat)
    requires n >= 1
    ensures -HalfUnit(2) <= ToFixed(OverDays(rate, n), 2) - DisplayFigure(rate, Some(n as real)) <= HalfUnit(2)
  {
    assert DisplayFigure(rate, Some(n as real)) == rate * (n as real);
    RoundedTracksRate(rate, n, 2);
  }

  /** The chart reports a hovered column's day as the scrubbed day, and the
      headline then agrees with that column's point to within half a cent. */
  lemma HoveredColumnHeadline(cur: CategoryBreakdown, sim: CategoryBreakdown, scale: ViewScale, isSimulation: bool, i: nat)
    requires i < |StepDays(scale)|
    ensures var p := ChartData(cur, sim, scale, isSimulation)[i];
      -HalfUnit(2) <= p.current - DisplayFigure(cur.total, Some(p.day as real)) <= HalfUnit(2)
  {
    StepsShape(scale);
    var s := Steps(scale)[i];
    assert ChartData(cur, sim, scale, isSimulation)[i] == MakePoint(cur, sim, isSimulation, s);
    HoveredHeadlineMatchesPoint(cur, sim, isSimulation, s);
  }
}
