/** Token budget of one summary request (internal/contextwindow/summary_budget.go). */
module SummaryBudget {
  import opened Text
  import opened Integers

  const RESERVE_PERCENT := 80
  const DEFAULT_SUMMARY_TOKENS := 4096
  const MINIMUM_SUMMARY_TOKENS := 64
  const ENVELOPE_TOKENS := 32
  const DEFAULT_CONTEXT_WINDOW := 64000

  datatype LimitResult = Limit(tokens: Int64) | InvalidBounds | Overflows | BelowMinimum

  /** No product leaves the 64-bit range: every intermediate value is an Int64. */
  function SummaryOutputLimit(outputReserve: Int64, modelMaxTokens: Int64): LimitResult {
    if outputReserve <= 0 || modelMaxTokens < 0 then InvalidBounds
    else if outputReserve > MAX_INT / RESERVE_PERCENT then Overflows
    else
      var product: Int64 := outputReserve * RESERVE_PERCENT;
      var reserveCap: Int64 := product / 100;
      var modelCap := if modelMaxTokens == 0 then DEFAULT_SUMMARY_TOKENS else modelMaxTokens;
      var limit := Min(reserveCap, modelCap);
      if limit < MINIMUM_SUMMARY_TOKENS then BelowMinimum else Limit(limit)
  }

  /** An allowance that four fifths of the reserve and the model's own limit both cover. */
  predicate Allowed(tokens: int, outputReserve: int, modelMaxTokens: int) {
    && 5 * tokens <= 4 * outputReserve
    && tokens <= (if modelMaxTokens == 0 then DEFAULT_SUMMARY_TOKENS else modelMaxTokens)
  }

  /** The limit is the largest allowance, and it is refused exactly when the smallest useful summary is not allowed. */
  lemma OutputLimitIsLargest(outputReserve: Int64, modelMaxTokens: Int64)
    requires 0 < outputReserve <= MAX_INT / RESERVE_PERCENT && 0 <= modelMaxTokens
    ensures var r := SummaryOutputLimit(outputReserve, modelMaxTokens);
      && (r.Limit? <==> Allowed(MINIMUM_SUMMARY_TOKENS, outputReserve, modelMaxTokens))
      && (r.Limit? ==>
        && r.tokens >= MINIMUM_SUMMARY_TOKENS
        && forall n: int :: Allowed(n, outputReserve, modelMaxTokens) <==> n <= r.tokens)
  {
    assert outputReserve * RESERVE_PERCENT / 100 == 4 * outputReserve / 5;
  }

  datatype BudgetInput = BudgetInput(
    contextWindow: int,
    systemPromptTokens: int,
    historyTokens: int,
    providerReserve: int,
    safetyMargin: int,
    envelopeTokens: int,
    maxOutputTokens: int
  )

  datatype Budget = Budget(
    contextWindow: int,
    fixed: int,
    history: int,
    maxInput: int,
    totalInput: int,
    providerReserve: int,
    safetyMargin: int,
    envelopeTokens: int,
    maxOutputTokens: int
  )

  function NewSummaryBudget(input: BudgetInput): Budget {
    var fixed := Max(input.systemPromptTokens, 0) + Max(input.envelopeTokens, 0);
    var maxInput := input.contextWindow - Max(input.maxOutputTokens, 0)
      - Max(input.providerReserve, 0) - Max(input.safetyMargin, 0);
    Budget(
      input.contextWindow, fixed, Max(input.historyTokens, 0), maxInput, fixed + Max(input.historyTokens, 0),
      input.providerReserve, input.safetyMargin, input.envelopeTokens, input.maxOutputTokens)
  }

  function AvailableHistoryTokens(budget: Budget): int {
    Max(budget.maxInput - budget.fixed, 0)
  }

  datatype BudgetDefect = FixedOverhead | InputOverflow

  function Validate(budget: Budget): Option<BudgetDefect> {
    if budget.contextWindow <= 0 || budget.maxOutputTokens <= 0 || budget.maxInput <= 0 ||
       budget.fixed > budget.maxInput then Some(FixedOverhead)
    else if budget.totalInput > budget.maxInput then Some(InputOverflow)
    else None
  }

  /** Everything a request takes out of the window: prompt, envelope, history, reply and both reserves. */
  function Demand(input: BudgetInput): int {
    Max(input.systemPromptTokens, 0) + Max(input.envelopeTokens, 0) + Max(input.historyTokens, 0)
    + Max(input.maxOutputTokens, 0) + Max(input.providerReserve, 0) + Max(input.safetyMargin, 0)
  }

  /**
   * A request passes its preflight exactly when it leaves room for input and a reply and its whole demand fits the
   * window. The defect names the fixed part exactly when no history, however short, would fit.
   */
  lemma PreflightMeansItFits(input: BudgetInput)
    ensures var defect := Validate(NewSummaryBudget(input));
      var empty := input.(historyTokens := 0);
      && (defect.None? <==>
        && input.maxOutputTokens > 0
        && NewSummaryBudget(input).maxInput > 0
        && Demand(input) <= input.contextWindow)
      && (defect == Some(FixedOverhead) <==> Validate(NewSummaryBudget(empty)).Some?)
  {
  }

  /** The history room of a budget is what its preflight admits: the same request passes with h tokens iff h fits. */
  lemma AvailableIsWhatPasses(input: BudgetInput, h: nat)
    requires Validate(NewSummaryBudget(input.(historyTokens := 0))).None?
    ensures Validate(NewSummaryBudget(input.(historyTokens := h))).None? <==>
      h <= AvailableHistoryTokens(NewSummaryBudget(input))
  {
  }

  /** A budget that has any history room at all and room for a reply passes without history. */
  lemma RoomMeansViable(input: BudgetInput)
    requires input.maxOutputTokens > 0 && AvailableHistoryTokens(NewSummaryBudget(input)) > 0
    requires input.contextWindow > 0
    ensures Validate(NewSummaryBudget(input.(historyTokens := 0))).None?
  {
  }

  /** Unknown or unusable catalog limits are replaced by finite ones. */
  function SummaryWindow(contextWindow: int): (r: int)
    ensures r >= MINIMUM_SUMMARY_TOKENS
  {
    if contextWindow < MINIMUM_SUMMARY_TOKENS then DEFAULT_CONTEXT_WINDOW else contextWindow
  }

  /** The runtime's limit for a summary reply: the catalog's, tightened by the configuration. */
  function RuntimeOutputLimit(outputReserve: Int64, modelMaxTokens: Int64, configured: Int64): LimitResult {
    match SummaryOutputLimit(outputReserve, Max(modelMaxTokens, 0))
    case Limit(limit) => Limit(if configured > 0 then Min(limit, configured) else limit)
    case refused => refused
  }

  /**
   * The runtime's limit is positive and the largest allowance that the configuration permits as well. A configured
   * limit may be smaller than the smallest useful summary: it only tightens, and never decides whether there is a
   * limit.
   */
  lemma RuntimeLimitIsLargest(outputReserve: Int64, modelMaxTokens: Int64, configured: Int64)
    requires 0 < outputReserve <= MAX_INT / RESERVE_PERCENT
    ensures var r := RuntimeOutputLimit(outputReserve, modelMaxTokens, configured);
      var modelMax := Max(modelMaxTokens, 0);
      && (r.Limit? <==> Allowed(MINIMUM_SUMMARY_TOKENS, outputReserve, modelMax))
      && (r.Limit? ==>
        && r.tokens > 0
        && forall n: int ::
          Allowed(n, outputReserve, modelMax) && (configured > 0 ==> n <= configured) <==> n <= r.tokens)
  {
    OutputLimitIsLargest(outputReserve, Max(modelMaxTokens, 0));
  }
}
