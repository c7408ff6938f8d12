/**
 * packages/protocol-moonwell/src/strategy/plans.ts, with the checks of
 * packages/strategy-engine/src/amounts.ts and the API's allowlist
 * (apps/api/src/execution/allowlist.ts) that every prepared plan must pass.
 */
module Plans {
  import opened Wrappers
  import opened RiskPolicy
  import opened AnvilFork
  import opened Feasibility

  const BASE_CHAIN_ID: int := 8453

  datatype TransactionPlan = TransactionPlan(
    chainId: int,
    strategyType: StrategyType,
    market: Address,
    underlying: Address,
    amountRaw: int,
    calls: seq<PlannedCall>,
    maxShortfallRaw: int,
    minSafetyBufferBps: int)

  datatype PlanInput = PlanInput(
    strategyType: StrategyType,
    market: Address,
    underlying: Address,
    comptroller: Address,
    amountRaw: int,
    boundRaw: int,
    allowanceRaw: Uint256,
    collateralEnabled: bool,
    policy: UserRiskPolicy)

  function AssertPositiveAmount(amount: int, bound: int): Result<()> {
    if amount <= 0 then Err("Strategy amount must be positive")
    else if amount > bound then Err("Strategy amount exceeds feasible bound")
    else Ok(())
  }

  /** encodeFunctionData refuses an argument that is not a 256-bit unsigned integer. */
  function EncodeAmount(amount: int): Result<int> {
    if 0 <= amount < TWO_256 then Ok(amount) else Err("IntegerOutOfRangeError")
  }

  function ApproveCalls(input: PlanInput): Result<seq<PlannedCall>> {
    if input.allowanceRaw >= input.amountRaw then Ok([])
    else
      var amount :- EncodeAmount(input.amountRaw);
      var exact := PlannedCall(input.underlying, 0, Approve(input.market, amount), ERC20_APPROVE_EXACT);
      if input.allowanceRaw > 0 then
        Ok([PlannedCall(input.underlying, 0, Approve(input.market, 0), ERC20_APPROVE_RESET), exact])
      else Ok([exact])
  }

  function PlanOf(input: PlanInput, calls: seq<PlannedCall>): TransactionPlan {
    TransactionPlan(BASE_CHAIN_ID, input.strategyType, input.market, input.underlying, input.amountRaw, calls,
                    0, input.policy.minSafetyBufferBps)
  }

  function BuildRepayPlan(input: PlanInput): Result<TransactionPlan> {
    var _ :- AssertPositiveAmount(input.amountRaw, input.boundRaw);
    var approvals :- ApproveCalls(input);
    var amount :- EncodeAmount(input.amountRaw);
    Ok(PlanOf(input, approvals + [PlannedCall(input.market, 0, RepayBorrow(amount), MTOKEN_REPAY_BORROW)]))
  }

  function BuildAddCollateralPlan(input: PlanInput): Result<TransactionPlan> {
    var _ :- AssertPositiveAmount(input.amountRaw, input.boundRaw);
    var approvals :- ApproveCalls(input);
    var amount :- EncodeAmount(input.amountRaw);
    var mint := approvals + [PlannedCall(input.market, 0, Mint(amount), MTOKEN_MINT)];
    Ok(PlanOf(input,
      if input.collateralEnabled then mint
      else mint + [PlannedCall(input.comptroller, 0, EnterMarkets([input.market]), ENTER_MARKETS)]))
  }

  /** buildPlan of search.ts. */
  function BuildPlan(input: PlanInput): Result<TransactionPlan> {
    if input.strategyType == REPAY_DEBT then BuildRepayPlan(input) else BuildAddCollateralPlan(input)
  }

  /** A plan is built exactly for the amounts within the bound that fit a word. */
  lemma PlanBuiltIff(input: PlanInput)
    ensures BuildPlan(input).Ok? <==> 1 <= input.amountRaw <= input.boundRaw && input.amountRaw < TWO_256
  {
  }

  /** What a plan is built for, and the state it promises: no shortfall, and the policy's buffer. */
  lemma BuiltPlanCarries(input: PlanInput)
    requires BuildPlan(input).Ok?
    ensures var plan := BuildPlan(input).value;
            && plan.chainId == 8453 && plan.strategyType == input.strategyType && plan.amountRaw == input.amountRaw
            && plan.market == input.market && plan.underlying == input.underlying
            && plan.maxShortfallRaw == 0 && plan.minSafetyBufferBps == input.policy.minSafetyBufferBps
  {
  }

  // ---------- the allowlist ----------

  /** A call after decoding: which function, on which target, for which spender and amount. */
  datatype DecodedCall =
    | DecodedApprove(to: Address, spender: Address, amountRaw: int)
    | DecodedRepay(to: Address, amountRaw: int)
    | DecodedMint(to: Address, amountRaw: int)
    | DecodedEnter(to: Address, markets: seq<Address>)

  function DecodeApproval(call: PlannedCall, plan: TransactionPlan): Result<DecodedCall> {
    if !call.data.Approve? then Err("Approval call must be ERC20 approve")
    else if call.data.spender != plan.market then Err("Approval spender must be the mToken market")
    else if call.to != plan.underlying then Err("Approval target must be the underlying token")
    else if call.rule == ERC20_APPROVE_RESET && call.data.amount != 0 then Err("Reset approval must be zero")
    else if call.rule == ERC20_APPROVE_EXACT && call.data.amount != plan.amountRaw then
      Err("Exact approval must match the plan amount")
    else if call.data.amount == TWO_256 - 1 then Err("Unlimited approvals are not allowed")
    else Ok(DecodedApprove(call.to, call.data.spender, call.data.amount))
  }

  function DecodeRepay(call: PlannedCall, plan: TransactionPlan): Result<DecodedCall> {
    if !call.data.RepayBorrow? then Err("Repay call must be repayBorrow")
    else if call.to != plan.market then Err("Repay target must be the borrowed market")
    else if call.data.amount != plan.amountRaw then Err("Repay amount must match the plan")
    else Ok(DecodedRepay(call.to, call.data.amount))
  }

  function DecodeMint(call: PlannedCall, plan: TransactionPlan): Result<DecodedCall> {
    if !call.data.Mint? then Err("Collateral call must be mint")
    else if call.to != plan.market then Err("Mint target must be the collateral market")
    else if call.data.amount != plan.amountRaw then Err("Mint amount must match the plan")
    else Ok(DecodedMint(call.to, call.data.amount))
  }

  function DecodeEnter(call: PlannedCall, plan: TransactionPlan): Result<DecodedCall> {
    if !call.data.EnterMarkets? then Err("Comptroller call must be enterMarkets")
    else if call.data.markets != [plan.market] then Err("enterMarkets must include only the plan market")
    else Ok(DecodedEnter(call.to, call.data.markets))
  }

  function DecodePlannedCall(call: PlannedCall, plan: TransactionPlan): Result<DecodedCall> {
    if call.rule.UnknownRule? then Err("Unknown allowlist rule")
    else if call.value != 0 then Err("Execution calls must have zero value")
    else if plan.chainId != BASE_CHAIN_ID then Err("Execution is only allowed on Base 8453")
    else if call.rule == ERC20_APPROVE_EXACT || call.rule == ERC20_APPROVE_RESET then DecodeApproval(call, plan)
    else if call.rule == MTOKEN_REPAY_BORROW then DecodeRepay(call, plan)
    else if call.rule == MTOKEN_MINT then DecodeMint(call, plan)
    else DecodeEnter(call, plan)
  }

  function DecodeCalls(calls: seq<PlannedCall>, plan: TransactionPlan): Result<seq<DecodedCall>> {
    if calls == [] then Ok([])
    else
      var first :- DecodePlannedCall(calls[0], plan);
      var rest :- DecodeCalls(calls[1..], plan);
      Ok([first] + rest)
  }

  function AssertAllowlistedPlan(plan: TransactionPlan): Result<seq<DecodedCall>> {
    if plan.amountRaw <= 0 then Err("Plan amount must be positive")
    else if plan.amountRaw == TWO_256 - 1 then Err("Unlimited approvals are not allowed")
    else if plan.calls == [] then Err("Plan has no calls")
    else DecodeCalls(plan.calls, plan)
  }

  /** Every built plan is accepted, except the one whose amount is the unlimited-approval word. */
  lemma BuiltPlanAcceptedIff(input: PlanInput)
    requires BuildPlan(input).Ok?
    ensures AssertAllowlistedPlan(BuildPlan(input).value).Ok? <==> input.amountRaw != TWO_256 - 1
  {
    var plan := BuildPlan(input).value;
    if input.amountRaw != TWO_256 - 1 {
      forall c | c in plan.calls
        ensures DecodePlannedCall(c, plan).Ok?
      {
        if c in ApproveCalls(input).value {
          assert c.rule == ERC20_APPROVE_EXACT || c.rule == ERC20_APPROVE_RESET;
        }
      }
      AllDecode(plan.calls, plan);
    }
  }

  lemma {:induction false} AllDecode(calls: seq<PlannedCall>, plan: TransactionPlan)
    requires forall c :: c in calls ==> DecodePlannedCall(c, plan).Ok?
    ensures DecodeCalls(calls, plan).Ok?
  {
    if calls != [] {
      AllDecode(calls[1..], plan);
    }
  }

  /** What a signer may rely on for one decoded call; nothing is known of the target of an enterMarkets call. */
  ghost predicate Bounded(decoded: DecodedCall, plan: TransactionPlan) {
    match decoded
    case DecodedApprove(to, spender, amount) =>
      to == plan.underlying && spender == plan.market && (amount == 0 || amount == plan.amountRaw)
    case DecodedRepay(to, amount) => to == plan.market && amount == plan.amountRaw
    case DecodedMint(to, amount) => to == plan.market && amount == plan.amountRaw
    case DecodedEnter(_, markets) => markets == [plan.market]
  }

  lemma AcceptedCallBounded(call: PlannedCall, plan: TransactionPlan)
    requires DecodePlannedCall(call, plan).Ok?
    ensures plan.chainId == 8453 && call.value == 0 && Bounded(DecodePlannedCall(call, plan).value, plan)
  {
  }

  lemma DecodedFirst(calls: seq<PlannedCall>, plan: TransactionPlan)
    requires calls != [] && DecodeCalls(calls, plan).Ok?
    ensures DecodePlannedCall(calls[0], plan).Ok? && DecodeCalls(calls[1..], plan).Ok?
    ensures DecodeCalls(calls, plan).value
         == [DecodePlannedCall(calls[0], plan).value] + DecodeCalls(calls[1..], plan).value
  {
    hide DecodePlannedCall;
  }

  /**
   * Accepted plans, whoever built them, are for Base, send no value, approve 0 or the plan's amount to the plan's
   * market, move that amount there, and enter that market alone.
   */
  lemma {:induction false} AcceptedCallsBounded(calls: seq<PlannedCall>, plan: TransactionPlan)
    requires DecodeCalls(calls, plan).Ok?
    ensures var decoded := DecodeCalls(calls, plan).value;
            && |decoded| == |calls|
            && (calls != [] ==> plan.chainId == 8453)
            && forall i :: 0 <= i < |calls| ==> calls[i].value == 0 && Bounded(decoded[i], plan)
  {
    hide DecodePlannedCall, Bounded;
    if calls != [] {
      DecodedFirst(calls, plan);
      AcceptedCallsBounded(calls[1..], plan);
      AcceptedCallBounded(calls[0], plan);
    }
  }

  /** The contract that a call of this rule is meant for. */
  function MeantFor(rule: Rule, plan: TransactionPlan, comptroller: Address): Address {
    if rule == ERC20_APPROVE_EXACT || rule == ERC20_APPROVE_RESET then plan.underlying
    else if rule == ENTER_MARKETS then comptroller
    else plan.market
  }

  lemma {:induction false} AcceptedRules(calls: seq<PlannedCall>, plan: TransactionPlan, call: PlannedCall)
    requires DecodeCalls(calls, plan).Ok? && call in calls
    ensures DecodePlannedCall(call, plan).Ok?
  {
    hide DecodePlannedCall;
    DecodedFirst(calls, plan);
    if call != calls[0] {
      AcceptedRules(calls[1..], plan, call);
    }
  }

  /** A plan that enters the market at any address whatever is accepted. */
  lemma EnterTargetIsFree(plan: TransactionPlan, target: Address)
    requires plan.chainId == BASE_CHAIN_ID && 0 < plan.amountRaw != TWO_256 - 1
    requires plan.calls == [PlannedCall(target, 0, EnterMarkets([plan.market]), ENTER_MARKETS)]
    ensures AssertAllowlistedPlan(plan) == Ok([DecodedEnter(target, [plan.market])])
  {
    var decoded := DecodedEnter(target, [plan.market]);
    assert DecodePlannedCall(plan.calls[0], plan) == Ok(decoded);
    assert plan.calls[1..] == [] && DecodeCalls([], plan) == Ok([]);
    assert [decoded] + [] == [decoded];
  }

  /**
   * The targets of enterMarkets calls are the one thing the allowlist leaves open: an accepted plan
   * calls only the contracts it is meant for exactly when those go to the comptroller.
   */
  lemma TargetsMeantIff(plan: TransactionPlan, comptroller: Address)
    requires AssertAllowlistedPlan(plan).Ok?
    ensures (forall c :: c in plan.calls ==> c.to == MeantFor(c.rule, plan, comptroller))
       <==> (forall c :: c in plan.calls && c.rule == ENTER_MARKETS ==> c.to == comptroller)
    ensures (forall c :: c in plan.calls ==> c.to in {plan.underlying, plan.market, comptroller})
       <==> (forall c :: c in plan.calls && c.rule == ENTER_MARKETS ==>
               c.to in {plan.underlying, plan.market, comptroller})
  {
    hide DecodeCalls;
    forall c | c in plan.calls && c.rule != ENTER_MARKETS
      ensures c.to == MeantFor(c.rule, plan, comptroller)
    {
      AcceptedRules(plan.calls, plan, c);
    }
  }

  /** A built plan is one of those. */
  lemma BuiltPlanTargetsMeant(input: PlanInput)
    requires BuildPlan(input).Ok?
    ensures var plan := BuildPlan(input).value;
            forall c :: c in plan.calls ==> c.to == MeantFor(c.rule, plan, input.comptroller)
  {
  }
}
