/**
 * What one strategy search computes, as functions of the state it starts in: running a plan,
 * replaying the governance call, reading risk, and the search over amounts
 * (packages/protocol-moonwell/src/strategy/execute.ts and search.ts). The methods of
 * StrategySearch are proved equal to these functions.
 */
module StrategySpec {
  import opened Wrappers
  import opened RiskPolicy
  import opened AnvilFork
  import opened Feasibility
  import opened Plans
  import opened BinarySearch

  datatype Destination = Destination(to: Address, payload: nat, value: int)

  /** A session together with the state it is run in. */
  datatype World<!L> = World(
    chain: Chain<L>,
    pinned: L,
    ledger: L,
    wallet: Address,
    comptroller: Address,
    temporalGovernor: Address,
    destination: Destination,
    policy: UserRiskPolicy,
    positions: seq<Position>,
    markets: seq<Market>,
    maxProbes: int)

  // ---------- running a plan ----------

  datatype CallRecord = CallRecord(to: Address, success: bool)

  datatype PlanRun<+L> = PlanRun(ledger: L, calls: seq<CallRecord>, reasons: seq<string>)

  /** The reason the preview of a call blocks it, if it does. */
  function PreviewReason(rule: Rule, preview: Preview): Option<string> {
    match preview
    case Empty => None
    case Threw(message) => Some(message)
    case ErrorCode(code) =>
      if rule == MTOKEN_REPAY_BORROW || rule == MTOKEN_MINT then
        if code != 0 then Some("mtoken_error") else None
      else if rule == ENTER_MARKETS then Some("result is not an array")
      else None
    case ErrorCodes(codes) =>
      if rule == MTOKEN_REPAY_BORROW || rule == MTOKEN_MINT then Some("mtoken_error")
      else if rule == ENTER_MARKETS && exists code :: code in codes && code != 0 then Some("enter_markets_error")
      else None
  }

  function PreviewOf<L>(chain: Chain<L>, l: L, wallet: Address, call: PlannedCall): Option<string> {
    PreviewReason(call.rule, chain.preview(l, Tx(wallet, call.to, call.data, 0)))
  }

  function SendOf<L>(chain: Chain<L>, l: L, wallet: Address, call: PlannedCall): Sent<L> {
    chain.send(l, Tx(wallet, call.to, call.data, call.value))
  }

  /** Calls run in order; the first one that is blocked or reverts ends the run. */
  function RunCalls<L>(chain: Chain<L>, l: L, wallet: Address, calls: seq<PlannedCall>): PlanRun<L> {
    if calls == [] then PlanRun(l, [], [])
    else
      var call := calls[0];
      var blocked := PreviewOf(chain, l, wallet, call);
      if blocked.Some? then PlanRun(l, [CallRecord(call.to, false)], [blocked.value])
      else
        var sent := SendOf(chain, l, wallet, call);
        if !sent.success then PlanRun(sent.ledger, [CallRecord(call.to, false)], [sent.error])
        else
          var rest := RunCalls(chain, sent.ledger, wallet, calls[1..]);
          PlanRun(rest.ledger, [CallRecord(call.to, true)] + rest.calls, rest.reasons)
  }

  // ---------- reading risk ----------

  function PricesAt<L>(chain: Chain<L>, l: L): Address -> int {
    (market: Address) => chain.price(l, market)
  }

  function EnrichedRisk<L>(chain: Chain<L>, l: L, wallet: Address): Result<RiskState> {
    var account :- chain.accountLiquidity(l, wallet);
    var positions :- chain.positions(l, wallet);
    var _ :- chain.oracleReads(l, wallet);
    Ok(WithDerivedBuffer(StateOf(account), BorrowValue(positions, PricesAt(chain, l))))
  }

  /** latestAnchor throws when the head block has no hash. */
  function RiskAtHead<L>(chain: Chain<L>, l: L, wallet: Address): Result<RiskState> {
    if !chain.hasHead(l) then Err("Anvil latest block is missing a hash") else EnrichedRisk(chain, l, wallet)
  }

  /** The governance call, sent by the funded Temporal Governor. */
  function ApplyChange<L>(w: World<L>, l: L): Sent<L> {
    w.chain.send(w.chain.fund(l, w.temporalGovernor),
                 Tx(w.temporalGovernor, w.destination.to, Opaque(w.destination.payload), w.destination.value))
  }

  function Buffer(risk: RiskState): Option<int> {
    if risk.derived.Some? then risk.derived.value.safetyBufferBps else None
  }

  // ---------- one branch ----------

  datatype BranchExecution = BranchExecution(
    callSuccess: seq<bool>, allSucceeded: bool, risk: RiskState, evaluation: PolicyEvaluation, reasons: seq<string>)

  function Successes(records: seq<CallRecord>): seq<bool> {
    seq(|records|, i requires 0 <= i < |records| => records[i].success)
  }

  function ReportedReasons(risk: RiskState, evaluation: PolicyEvaluation, maxShortfallRaw: int): seq<string> {
    if evaluation.passed && risk.shortfallRaw <= maxShortfallRaw then ["POLICY_PASSED"]
    else
      (if evaluation.passed then [] else evaluation.reasons)
      + if risk.shortfallRaw > maxShortfallRaw then ["SHORTFALL_ABOVE_EXPECTED"] else []
  }

  function BranchAfterPlan<L>(w: World<L>, run: PlanRun<L>, plan: TransactionPlan): Result<BranchExecution> {
    if run.reasons != [] then
      var risk :- RiskAtHead(w.chain, run.ledger, w.wallet);
      Ok(BranchExecution(Successes(run.calls), false, risk, EvaluatePolicy(risk, w.policy), run.reasons))
    else
      var applied := ApplyChange(w, run.ledger);
      var risk :- RiskAtHead(w.chain, applied.ledger, w.wallet);
      var evaluation := EvaluatePolicy(risk, w.policy);
      if !applied.success then
        Ok(BranchExecution(Successes(run.calls) + [false], false, risk, evaluation, [applied.error]))
      else
        Ok(BranchExecution(Successes(run.calls) + [true], true, risk, evaluation,
                           ReportedReasons(risk, evaluation, plan.maxShortfallRaw)))
  }

  function ExecutePlan<L>(w: World<L>, l: L, plan: TransactionPlan): PlanRun<L> {
    RunCalls(w.chain, w.chain.fundForGas(l, w.wallet), w.wallet, plan.calls)
  }

  function VerifyPlan<L>(w: World<L>, l: L, plan: TransactionPlan): Result<BranchExecution> {
    BranchAfterPlan(w, ExecutePlan(w, l, plan), plan)
  }

  // ---------- the search ----------

  /** What a search fixes before its first probe. */
  datatype Context = Context(
    strategyType: StrategyType, market: Address, underlying: Address, boundRaw: int,
    reasons: seq<string>, allowanceRaw: Uint256, collateralEnabled: bool)

  datatype BranchEvidence = BranchEvidence(
    amountRaw: int, verified: bool, reasons: seq<string>, callSuccess: seq<bool>,
    liquidityRaw: int, shortfallRaw: int, safetyBufferBps: Option<int>)

  datatype Status = VERIFIED | REJECTED | INFEASIBLE | NOT_REQUIRED | INCOMPLETE

  datatype SearchResult = SearchResult(
    strategyType: StrategyType, status: Status, amountRaw: Option<int>, boundRaw: int,
    reasons: seq<string>, plan: Option<TransactionPlan>, branches: seq<BranchEvidence>, probes: int)

  function PlanFor<L>(w: World<L>, ctx: Context, amount: int): Result<TransactionPlan> {
    BuildPlan(PlanInput(ctx.strategyType, ctx.market, ctx.underlying, w.comptroller, amount, ctx.boundRaw,
                        ctx.allowanceRaw, ctx.collateralEnabled, w.policy))
  }

  function Evidence(amount: int, branch: BranchExecution): BranchEvidence {
    BranchEvidence(amount, branch.allSucceeded && branch.evaluation.passed, branch.reasons, branch.callSuccess,
                   branch.risk.liquidityRaw, branch.risk.shortfallRaw, Buffer(branch.risk))
  }

  /** One probe, from the state the search starts in. */
  function Probe<L>(w: World<L>, ctx: Context, amount: int): Result<BranchEvidence> {
    var plan :- PlanFor(w, ctx, amount);
    var branch :- VerifyPlan(w, w.ledger, plan);
    Ok(Evidence(amount, branch))
  }

  function Verdict<L>(w: World<L>, ctx: Context, amount: int): Result<bool> {
    var evidence :- Probe(w, ctx, amount);
    Ok(evidence.verified)
  }

  function TestOf<L>(w: World<L>, ctx: Context): Test {
    (amount: int) => Verdict(w, ctx, amount)
  }

  /** The evidence of the probes that did not throw, in order. */
  function Branches<L>(w: World<L>, ctx: Context, probes: seq<int>): seq<BranchEvidence> {
    if probes == [] then []
    else
      var last := Probe(w, ctx, probes[|probes| - 1]);
      Branches(w, ctx, probes[..|probes| - 1]) + if last.Ok? then [last.value] else []
  }

  /** Array.prototype.find over the branches. */
  function FindVerified(branches: seq<BranchEvidence>, amount: int): Option<BranchEvidence> {
    if branches == [] then None
    else if branches[0].amountRaw == amount && branches[0].verified then Some(branches[0])
    else FindVerified(branches[1..], amount)
  }

  function FinalizeResult(ctx: Context, search: Search, branches: seq<BranchEvidence>, plan: Option<TransactionPlan>)
    : SearchResult
  {
    var probes := |search.probes|;
    if !search.complete then
      SearchResult(ctx.strategyType, INCOMPLETE, search.amount, ctx.boundRaw, ["PROBE_BUDGET_EXHAUSTED"], None,
                   branches, probes)
    else if search.amount.None? then
      SearchResult(ctx.strategyType, INFEASIBLE, None, ctx.boundRaw, ["NO_AMOUNT_PASSES_POLICY"] + ctx.reasons, None,
                   branches, probes)
    else
      var verified := FindVerified(branches, search.amount.value);
      if verified.Some? then
        SearchResult(ctx.strategyType, VERIFIED, search.amount, ctx.boundRaw, verified.value.reasons, plan, branches,
                     probes)
      else
        SearchResult(ctx.strategyType, REJECTED, search.amount, ctx.boundRaw, ["AMOUNT_NOT_VERIFIED"], None, branches,
                     probes)
  }

  /** MAX_SAFETY tests the bound only; the other goals search for the least amount. */
  function SearchAmounts<L>(w: World<L>, ctx: Context): Result<Search> {
    if w.policy.optimizationGoal == MAX_SAFETY then
      var passed :- Verdict(w, ctx, ctx.boundRaw);
      Ok(Search(if passed then Some(ctx.boundRaw) else None, [ctx.boundRaw], true))
    else FindMinimum(TestOf(w, ctx), 1, ctx.boundRaw, w.maxProbes)
  }

  function ResultOf<L>(w: World<L>, ctx: Context, search: Search): Result<SearchResult> {
    if search.amount.None? then Ok(FinalizeResult(ctx, search, Branches(w, ctx, search.probes), None))
    else
      var plan :- PlanFor(w, ctx, search.amount.value);
      Ok(FinalizeResult(ctx, search, Branches(w, ctx, search.probes), Some(plan)))
  }

  function SearchWithin<L>(w: World<L>, ctx: Context): Result<SearchResult> {
    var search :- SearchAmounts(w, ctx);
    ResultOf(w, ctx, search)
  }

  datatype ChangeOnly = ChangeOnly(passed: bool, riskBufferBps: Option<int>, reasons: seq<string>)

  function EvaluateChange<L>(w: World<L>): Result<ChangeOnly> {
    var applied := ApplyChange(w, w.ledger);
    if !applied.success then Ok(ChangeOnly(false, None, [applied.error]))
    else if !w.chain.hasHead(applied.ledger) then Ok(ChangeOnly(false, None, ["missing after-block hash"]))
    else
      var risk :- EnrichedRisk(w.chain, applied.ledger, w.wallet);
      var evaluation := EvaluatePolicy(risk, w.policy);
      Ok(ChangeOnly(evaluation.passed, Buffer(risk), evaluation.reasons))
  }

  // ---------- the reads at the anchor ----------

  function Tokens(positions: seq<Position>, markets: seq<Market>): set<Address> {
    (set p | p in positions :: p.underlying) + (set m | m in markets && m.underlying.Some? :: m.underlying.value)
  }

  function Balances<L>(w: World<L>): map<Address, Uint256> {
    map token | token in Tokens(w.positions, w.markets) :: w.chain.balanceOf(w.pinned, token, w.wallet)
  }

  function MarketSet(markets: seq<Market>): set<Address> {
    set m | m in markets :: m.market
  }

  function Constraints<L>(w: World<L>): map<Address, MarketConstraints> {
    map market | market in MarketSet(w.markets) :: ConstraintsOf(w.chain.market(w.pinned, market))
  }

  function Prices<L>(w: World<L>): map<Address, int> {
    map market | market in MarketSet(w.markets) :: w.chain.price(w.pinned, market)
  }

  function Assess<L>(w: World<L>, strategyType: StrategyType): Result<StrategyFeasibility> {
    var _ :- w.chain.anchorReads(w.pinned);
    if strategyType == REPAY_DEBT then AssessRepayFeasibility(w.positions, Balances(w), Prices(w), w.policy)
    else CollateralFeasibility(w.markets, w.positions, Balances(w), Constraints(w), Prices(w), w.policy)
  }

  /** Array.prototype.find over the positions: the first one in the market. */
  function CollateralEnabled(positions: seq<Position>, market: Address): bool {
    if positions == [] then false
    else if positions[0].market == market then positions[0].collateralEnabled
    else CollateralEnabled(positions[1..], market)
  }

  function ContextOf<L>(w: World<L>, strategyType: StrategyType, f: StrategyFeasibility): Context
    requires f.Feasible?
  {
    Context(strategyType, f.market, f.underlying, f.boundRaw, f.reasons,
            w.chain.allowance(w.pinned, f.underlying, w.wallet, f.market), CollateralEnabled(w.positions, f.market))
  }

  /** searchMoonwellStrategy. */
  function SearchStrategy<L>(w: World<L>, strategyType: StrategyType): Result<SearchResult> {
    var feasibility :- Assess(w, strategyType);
    if feasibility.Infeasible? then
      Ok(SearchResult(strategyType, INFEASIBLE, None, 0, feasibility.reasons, None, [], 0))
    else
      var changeOnly :- EvaluateChange(w);
      if changeOnly.passed then
        Ok(SearchResult(strategyType, NOT_REQUIRED, Some(0), feasibility.boundRaw,
                        ["POST_CHANGE_POLICY_PASSES"] + changeOnly.reasons, None, [], 0))
      else
        var _ :- w.chain.allowanceReads(w.pinned);
        SearchWithin(w, ContextOf(w, strategyType, feasibility))
  }
}
