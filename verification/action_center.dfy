/** The advice panel: the heaviest category, the figures written into the
    advice request, and the tips shown after it. The external model's
    answer is a parameter: whether each stage of the request went through,
    and what its reply parsed to. */
module ActionCenter {
  import opened Types
  import opened Constants
  import opened Rounding
  import opened Breakdown

  /** A category's whole daily load: its user part plus its baseline. */
  function Load(b: CategoryBreakdown, c: Category): real {
    b.Component(c).user + b.Component(c).baseline
  }

  /** The position of a category in the order the panel scans them. */
  function Rank(c: Category): (i: nat)
    ensures i < |CategoryOrder| && CategoryOrder[i] == c
  {
    match c
    case Transport => 0
    case Energy => 1
    case Food => 2
    case Lifestyle => 3
  }

  /** The `reduce` over the category keys: `best` is the index kept so far
      and i the next index; the kept one stays only when strictly heavier. */
  function FoldHeaviest(b: CategoryBreakdown, cs: seq<Category>, best: nat, i: nat): (k: nat)
    requires best < i <= |cs|
    ensures k < |cs|
    decreases |cs| - i
  {
    if i == |cs| then best
    else
      var next := if Load(b, cs[best]) > Load(b, cs[i]) then best else i;
      FoldHeaviest(b, cs, next, i + 1)
  }

  /** The index `reduce` settles on is a heaviest one, and every one after it
      is strictly lighter, so a tie goes to the later category. */
  lemma {:induction false} FoldHeaviestIsLastHeaviest(b: CategoryBreakdown, cs: seq<Category>, best: nat, i: nat)
    requires best < i <= |cs|
    requires forall j :: 0 <= j < i ==> Load(b, cs[j]) <= Load(b, cs[best])
    requires forall j :: best < j < i ==> Load(b, cs[j]) < Load(b, cs[best])
    ensures var k := FoldHeaviest(b, cs, best, i);
      && (forall j :: 0 <= j < |cs| ==> Load(b, cs[j]) <= Load(b, cs[k]))
      && (forall j :: k < j < |cs| ==> Load(b, cs[j]) < Load(b, cs[k]))
    decreases |cs| - i
  {
    if i < |cs| {
      var next := if Load(b, cs[best]) > Load(b, cs[i]) then best else i;
      FoldHeaviestIsLastHeaviest(b, cs, next, i + 1);
    }
  }

  /** `highestCategory`: no category is heavier, and every category after it
      in the order transport, energy, food, lifestyle is strictly lighter. */
  function HighestCategory(b: CategoryBreakdown): (c: Category)
    ensures forall d: Category :: Load(b, d) <= Load(b, c)
    ensures forall d: Category :: Rank(d) > Rank(c) ==> Load(b, d) < Load(b, c)
  {
    FoldHeaviestIsLastHeaviest(b, CategoryOrder, 0, 1);
    var k := FoldHeaviest(b, CategoryOrder, 0, 1);
    assert forall d: Category :: CategoryOrder[Rank(d)] == d;
    CategoryOrder[k]
  }

  /** With every category switched off, food carries the largest baseline,
      so food is chosen under every policy. */
  lemma AllDisabledPicksFood(inputs: UserInputs, policy: PolicyScenario)
    requires inputs.enabledCategories == EnabledCategories(false, false, false, false)
    ensures HighestCategory(CalculateBreakdown(inputs, policy)) == Food
  {
    var b := CalculateBreakdown(inputs, policy);
    forall c: Category
      ensures b.Component(c).user == 0.0
      ensures b.Component(c).baseline == MetabolicBaseline(c) * PolicyModifier(policy)
    {
      CategoryBaseline(inputs, policy, c);
    }
    var m := PolicyModifier(policy);
    assert Load(b, Food) == 4.2 * m;
    assert Load(b, Transport) == 1.2 * m < Load(b, Food);
    assert Load(b, Energy) == 3.5 * m < Load(b, Food);
    assert Load(b, Lifestyle) == 0.8 * m < Load(b, Food);
  }

  /** The per-category figure written into the request: the whole load in
      kg per day, to two decimals. */
  function PromptFigure(b: CategoryBreakdown, c: Category): (r: real)
    ensures -HalfUnit(2) <= r - Load(b, c) <= HalfUnit(2)
    ensures Load(b, c) >= 0.0 ==> r >= 0.0
  {
    ToFixedNear(Load(b, c), 2);
    ToFixedSign(Load(b, c), 2);
    ToFixed(Load(b, c), 2)
  }

  /** The annual load written into the request, to whole kilograms. */
  function PromptAnnual(b: CategoryBreakdown): (r: real)
    ensures -0.5 <= r - b.total * 365.0 <= 0.5
    ensures r.Floor as real == r
  {
    ToFixedNear(b.total * 365.0, 0);
    ToFixedOnGridResult(b.total * 365.0, 0);
    ToFixed(b.total * 365.0, 0)
  }

  /** One suggested action and the saving it claims. */
  datatype Tip = Tip(action: string, reduction: string)

  /** The three tips shown whenever the request fails. */
  const FallbackTips: seq<Tip> := [
    Tip("Optimize transport metabolism (Shift 10km daily)", "approx. 620 kg saved annually"),
    Tip("Caloric source adjustment (Plant-based 3d/wk)", "approx. 400 kg saved annually"),
    Tip("Energy flux reduction (Decrease AC by 2h)", "approx. 876 kg saved annually")
  ]

  /** What `JSON.parse` makes of the reply's trimmed text: a list of tips,
      or a thrown `SyntaxError`. The parser itself is not modelled. */
  datatype ParseOutcome = ParsedTips(tips: seq<Tip>) | SyntaxError

  /** The reply of the content request: its `text`, which may be missing,
      and what parsing that text yields. */
  datatype Reply = Reply(text: Option<string>, parse: ParseOutcome)

  /** One run of the advice request, stage by stage: whether the client
      could be built, and the reply, or None when the request rejected. */
  datatype AdviceRun = AdviceRun(clientBuilt: bool, reply: Option<Reply>)

  /** How the request ended: the tips the model returned, or the `catch`. */
  datatype AdviceResponse = Received(tips: seq<Tip>) | Failed

  /** Every stage of the run went through: the client was built, the
      request resolved, the reply carried text, and that text parsed. */
  predicate Succeeded(run: AdviceRun) {
    && run.clientBuilt
    && run.reply.Some?
    && run.reply.value.text.Some?
    && run.reply.value.parse.ParsedTips?
  }

  /** The `try` block, in the order its statements run: building the
      client, awaiting the request, trimming `text` and parsing it. Any of
      them throwing lands in the `catch`. */
  function Attempt(run: AdviceRun): (r: AdviceResponse)
    ensures r.Received? <==> Succeeded(run)
    ensures r.Received? ==> r.tips == run.reply.value.parse.tips
  {
    if !run.clientBuilt then Failed
    else match run.reply
      case None => Failed
      case Some(reply) =>
        match reply.text
        case None => Failed
        case Some(_) =>
          match reply.parse
          case SyntaxError => Failed
          case ParsedTips(t) => Received(t)
  }

  /** The tips a run leaves on screen: whatever was parsed after a full
      success, and the three fallback tips after a failure at any stage. */
  function AdviceTips(run: AdviceRun): (tips: seq<Tip>)
    ensures !run.clientBuilt ==> tips == FallbackTips
    ensures run.reply.None? ==> tips == FallbackTips
    ensures run.reply.Some? && run.reply.value.text.None? ==> tips == FallbackTips
    ensures run.reply.Some? && run.reply.value.parse.SyntaxError? ==> tips == FallbackTips
    ensures Succeeded(run) ==> tips == run.reply.value.parse.tips
    ensures tips == FallbackTips || (Succeeded(run) && tips == run.reply.value.parse.tips)
  {
    match Attempt(run)
    case Received(t) => t
    case Failed => FallbackTips
  }
}
