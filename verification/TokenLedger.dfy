/**
 * A concrete ledger under the abstract chain: one ERC-20 token that refuses to approve a
 * non-zero amount over a non-zero allowance, and one mToken market that pulls the amount
 * with transferFrom. EIP-20, "Methods": approve, allowance and transferFrom. The plans of
 * plans.ts are run on it call by call.
 */
module TokenLedger {
  import opened Wrappers
  import opened RiskPolicy
  import opened AnvilFork
  import opened Feasibility
  import opened Plans
  import opened StrategySpec
  import opened StrategyTheorems

  /** Balances and allowances of the token, the wallet's debt and deposit, and its entered markets. */
  datatype Ledger = Ledger(
    balance: map<Address, Uint256>,
    allowance: map<(Address, Address), Uint256>,
    debt: nat,
    supplied: nat,
    entered: bool,
    changed: bool)

  /** The addresses of one deployment. */
  datatype Deployment = Deployment(token: Address, market: Address, comptroller: Address)

  predicate Distinct(d: Deployment, wallet: Address) {
    d.token != d.market && d.token != d.comptroller && d.market != d.comptroller && wallet != d.market
  }

  function BalanceOf(l: Ledger, owner: Address): Uint256 {
    if owner in l.balance then l.balance[owner] else 0
  }

  function AllowanceOf(l: Ledger, owner: Address, spender: Address): Uint256 {
    if (owner, spender) in l.allowance then l.allowance[(owner, spender)] else 0
  }

  /** approve overwrites, unless both the old and the new allowance are non-zero. */
  function ApproveOn(l: Ledger, owner: Address, spender: Address, amount: int): Option<Ledger> {
    if !(0 <= amount < TWO_256) || (amount != 0 && AllowanceOf(l, owner, spender) != 0) then None
    else Some(l.(allowance := l.allowance[(owner, spender) := amount]))
  }

  /** transferFrom by the spender itself: both the allowance and the balance must cover the amount. */
  function TransferFrom(l: Ledger, owner: Address, spender: Address, amount: int): Option<Ledger> {
    if !(0 <= amount <= AllowanceOf(l, owner, spender)) || amount > BalanceOf(l, owner) then None
    else
      var paid := l.balance[owner := BalanceOf(l, owner) - amount];
      var received := if spender in paid then paid[spender] else 0;
      if received + amount >= TWO_256 then None
      else
        Some(l.(balance := paid[spender := received + amount],
                allowance := l.allowance[(owner, spender) := AllowanceOf(l, owner, spender) - amount]))
  }

  /** repayBorrow, mint and enterMarkets of the wallet's market; anything else at its address reverts. */
  function MarketCall(l: Ledger, tx: Tx, d: Deployment): Option<Ledger> {
    match tx.data
    case RepayBorrow(amount) =>
      if amount > l.debt then None
      else
        var pulled := TransferFrom(l, tx.sender, d.market, amount);
        if pulled.None? || amount < 0 then None else Some(pulled.value.(debt := l.debt - amount))
    case Mint(amount) =>
      var pulled := TransferFrom(l, tx.sender, d.market, amount);
      if pulled.None? || amount < 0 then None else Some(pulled.value.(supplied := l.supplied + amount))
    case _ => None
  }

  function Apply(l: Ledger, tx: Tx, d: Deployment): Option<Ledger> {
    if tx.to == d.token && tx.data.Approve? then ApproveOn(l, tx.sender, tx.data.spender, tx.data.amount)
    else if tx.to == d.market then MarketCall(l, tx, d)
    else if tx.to == d.comptroller && tx.data.EnterMarkets? then Some(l.(entered := true))
    else if tx.data.Opaque? then Some(l.(changed := true))
    else None
  }

  /** A reverted transaction leaves the ledger as it was. */
  function SendOn(l: Ledger, tx: Tx, d: Deployment): Sent<Ledger> {
    var next := Apply(l, tx, d);
    if next.Some? then Sent(next.value, true, "") else Sent(l, false, "transaction reverted")
  }

  /** eth_call runs the same code and reports a revert as an error. */
  function PreviewOn(l: Ledger, tx: Tx, d: Deployment): Preview {
    if Apply(l, tx, d).None? then Threw("execution reverted")
    else if tx.data.EnterMarkets? then ErrorCodes([0])
    else if tx.data.Approve? then ErrorCode(1)
    else ErrorCode(0)
  }

  function ReadBalance(l: Ledger, d: Deployment, token: Address, owner: Address): Uint256 {
    if token == d.token then BalanceOf(l, owner) else 0
  }

  function ReadAllowance(l: Ledger, d: Deployment, token: Address, owner: Address, spender: Address): Uint256 {
    if token == d.token then AllowanceOf(l, owner, spender) else 0
  }

  /** The rules of the deployment; how risk is computed from the ledger is left open. */
  function TokenChain(d: Deployment, risk: Ledger -> AccountLiquidity): Chain<Ledger> {
    Chain(
      (l: Ledger, tx: Tx) => SendOn(l, tx, d),
      (l: Ledger, tx: Tx) => PreviewOn(l, tx, d),
      (l: Ledger, account: Address) => l,
      (l: Ledger, account: Address) => l,
      (l: Ledger) => true,
      (l: Ledger, wallet: Address) => Ok(risk(l)),
      (l: Ledger, wallet: Address) => Ok([Position(d.market, d.token, l.debt, l.entered)]),
      (l: Ledger, market: Address) => MANTISSA,
      (l: Ledger, token: Address, owner: Address) => ReadBalance(l, d, token, owner),
      (l: Ledger, token: Address, owner: Address, spender: Address) => ReadAllowance(l, d, token, owner, spender),
      (l: Ledger, market: Address) => MarketReads(false, 0, 0, 0),
      (l: Ledger, wallet: Address) => Ok(()),
      (l: Ledger) => Ok(()),
      (l: Ledger) => Ok(()))
  }

  // ---------- what a plan does ----------

  /** The allowance a plan was built with is the one the ledger holds, and the wallet can pay. */
  ghost predicate Payable(l: Ledger, d: Deployment, wallet: Address, input: PlanInput) {
    && input.market == d.market && input.underlying == d.token && input.comptroller == d.comptroller
    && input.allowanceRaw == AllowanceOf(l, wallet, d.market)
    && 1 <= input.amountRaw <= input.boundRaw && input.amountRaw <= BalanceOf(l, wallet)
    && BalanceOf(l, d.market) + input.amountRaw < TWO_256
    && (input.strategyType == REPAY_DEBT ==> input.amountRaw <= l.debt)
  }

  /** What is left of the allowance: max(0, initial - amount). */
  function AllowanceLeft(initial: int, amount: int): int {
    if initial >= amount then initial - amount else 0
  }

  /** after differs from before exactly by the plan's payment. */
  ghost predicate Paid(before: Ledger, after: Ledger, d: Deployment, wallet: Address, input: PlanInput) {
    var a := input.amountRaw;
    && BalanceOf(after, wallet) == BalanceOf(before, wallet) - a
    && BalanceOf(after, d.market) == BalanceOf(before, d.market) + a
    && (forall o: Address :: o != wallet && o != d.market ==> BalanceOf(after, o) == BalanceOf(before, o))
    && AllowanceOf(after, wallet, d.market) == AllowanceLeft(AllowanceOf(before, wallet, d.market), a)
    && (forall o: Address, s: Address :: (o, s) != (wallet, d.market) ==>
          AllowanceOf(after, o, s) == AllowanceOf(before, o, s))
    && after.debt == (if input.strategyType == REPAY_DEBT then before.debt - a else before.debt)
    && after.supplied == (if input.strategyType == ADD_COLLATERAL then before.supplied + a else before.supplied)
    && after.entered == (before.entered || (input.strategyType == ADD_COLLATERAL && !input.collateralEnabled))
    && after.changed == before.changed
  }

  /** The ledger after the approvals: exactly enough allowance. */
  function Approved(l: Ledger, d: Deployment, wallet: Address, input: PlanInput): Ledger
    requires 0 <= input.amountRaw < TWO_256
  {
    if input.allowanceRaw >= input.amountRaw then l
    else
      var reset := if input.allowanceRaw > 0 then l.(allowance := l.allowance[(wallet, d.market) := 0]) else l;
      reset.(allowance := reset.allowance[(wallet, d.market) := input.amountRaw])
  }

  lemma RunConcat<L>(chain: Chain<L>, l: L, wallet: Address, front: seq<PlannedCall>, back: seq<PlannedCall>)
    requires RunCalls(chain, l, wallet, front).reasons == []
    ensures RunCalls(chain, l, wallet, front + back).ledger
         == RunCalls(chain, RunCalls(chain, l, wallet, front).ledger, wallet, back).ledger
    ensures RunCalls(chain, l, wallet, front + back).reasons
         == RunCalls(chain, RunCalls(chain, l, wallet, front).ledger, wallet, back).reasons
  {
    if front == [] {
      assert front + back == back;
    } else {
      assert (front + back)[1..] == front[1..] + back;
      RunConcat(chain, SendOf(chain, l, wallet, front[0]).ledger, wallet, front[1..], back);
    }
  }

  lemma RunOne<L>(chain: Chain<L>, l: L, wallet: Address, call: PlannedCall)
    requires Succeeds(chain, l, wallet, call, SendOf(chain, l, wallet, call).ledger)
    ensures RunCalls(chain, l, wallet, [call]).reasons == []
    ensures RunCalls(chain, l, wallet, [call]).ledger == SendOf(chain, l, wallet, call).ledger
  {
  }

  /** No approval in a plan puts a non-zero allowance over a non-zero one, so none is refused. */
  lemma ApprovalsSucceed(l: Ledger, d: Deployment, risk: Ledger -> AccountLiquidity, wallet: Address, input: PlanInput)
    requires Distinct(d, wallet) && Payable(l, d, wallet, input)
    ensures input.amountRaw < TWO_256 && ApproveCalls(input).Ok?
    ensures var run := RunCalls(TokenChain(d, risk), l, wallet, ApproveCalls(input).value);
            run.reasons == [] && run.ledger == Approved(l, d, wallet, input)
  {
    if input.allowanceRaw < input.amountRaw {
      var chain := TokenChain(d, risk);
      var exact := PlannedCall(input.underlying, 0, Approve(input.market, input.amountRaw), ERC20_APPROVE_EXACT);
      if input.allowanceRaw > 0 {
        var reset := PlannedCall(input.underlying, 0, Approve(input.market, 0), ERC20_APPROVE_RESET);
        var cleared := l.(allowance := l.allowance[(wallet, d.market) := 0]);
        assert SendOf(chain, l, wallet, reset).ledger == cleared;
        RunOne(chain, l, wallet, reset);
        RunOne(chain, cleared, wallet, exact);
        RunConcat(chain, l, wallet, [reset], [exact]);
        assert [reset] + [exact] == [reset, exact];
      } else {
        RunOne(chain, l, wallet, exact);
      }
    }
  }

  /** The market pulls exactly the amount and consumes exactly the allowance given for it. */
  lemma PullPays(l: Ledger, d: Deployment, wallet: Address, input: PlanInput, mid: Ledger)
    requires Distinct(d, wallet) && Payable(l, d, wallet, input)
    requires mid == Approved(l, d, wallet, input)
    ensures var pulled := TransferFrom(mid, wallet, d.market, input.amountRaw);
            && pulled.Some?
            && BalanceOf(pulled.value, wallet) == BalanceOf(l, wallet) - input.amountRaw
            && BalanceOf(pulled.value, d.market) == BalanceOf(l, d.market) + input.amountRaw
            && (forall o: Address :: o != wallet && o != d.market ==> BalanceOf(pulled.value, o) == BalanceOf(l, o))
            && AllowanceOf(pulled.value, wallet, d.market)
               == AllowanceLeft(AllowanceOf(l, wallet, d.market), input.amountRaw)
            && (forall o: Address, s: Address :: (o, s) != (wallet, d.market) ==>
                  AllowanceOf(pulled.value, o, s) == AllowanceOf(l, o, s))
  {
  }

  lemma RepayRuns(l: Ledger, d: Deployment, risk: Ledger -> AccountLiquidity, wallet: Address, input: PlanInput)
    requires Distinct(d, wallet) && Payable(l, d, wallet, input) && input.strategyType == REPAY_DEBT
    ensures BuildPlan(input).Ok?
    ensures var run := RunCalls(TokenChain(d, risk), l, wallet, BuildPlan(input).value.calls);
            run.reasons == [] && Paid(l, run.ledger, d, wallet, input)
  {
    ApprovalsSucceed(l, d, risk, wallet, input);
    var mid := Approved(l, d, wallet, input);
    PullPays(l, d, wallet, input, mid);
    var repay := PlannedCall(input.market, 0, RepayBorrow(input.amountRaw), MTOKEN_REPAY_BORROW);
    RunOne(TokenChain(d, risk), mid, wallet, repay);
    RunConcat(TokenChain(d, risk), l, wallet, ApproveCalls(input).value, [repay]);
  }

  function MintCall(input: PlanInput): PlannedCall {
    PlannedCall(input.market, 0, Mint(input.amountRaw), MTOKEN_MINT)
  }

  function Minted(l: Ledger, d: Deployment, wallet: Address, input: PlanInput): Ledger
    requires Distinct(d, wallet) && Payable(l, d, wallet, input)
  {
    PullPays(l, d, wallet, input, Approved(l, d, wallet, input));
    TransferFrom(Approved(l, d, wallet, input), wallet, d.market, input.amountRaw).value
      .(supplied := l.supplied + input.amountRaw)
  }

  lemma MintRuns(l: Ledger, d: Deployment, risk: Ledger -> AccountLiquidity, wallet: Address, input: PlanInput)
    requires Distinct(d, wallet) && Payable(l, d, wallet, input)
    ensures ApproveCalls(input).Ok?
    ensures var run := RunCalls(TokenChain(d, risk), l, wallet, ApproveCalls(input).value + [MintCall(input)]);
            run.reasons == [] && run.ledger == Minted(l, d, wallet, input)
  {
    ApprovalsSucceed(l, d, risk, wallet, input);
    var mid := Approved(l, d, wallet, input);
    PullPays(l, d, wallet, input, mid);
    RunOne(TokenChain(d, risk), mid, wallet, MintCall(input));
    RunConcat(TokenChain(d, risk), l, wallet, ApproveCalls(input).value, [MintCall(input)]);
  }

  lemma MintedPays(l: Ledger, d: Deployment, wallet: Address, input: PlanInput)
    requires Distinct(d, wallet) && Payable(l, d, wallet, input) && input.strategyType == ADD_COLLATERAL
    ensures var minted := Minted(l, d, wallet, input);
            Paid(l, if input.collateralEnabled then minted else minted.(entered := true), d, wallet, input)
  {
    PullPays(l, d, wallet, input, Approved(l, d, wallet, input));
  }

  lemma AddCollateralRuns(l: Ledger, d: Deployment, risk: Ledger -> AccountLiquidity, wallet: Address, input: PlanInput)
    requires Distinct(d, wallet) && Payable(l, d, wallet, input) && input.strategyType == ADD_COLLATERAL
    ensures BuildPlan(input).Ok?
    ensures var run := RunCalls(TokenChain(d, risk), l, wallet, BuildPlan(input).value.calls);
            run.reasons == [] && Paid(l, run.ledger, d, wallet, input)
  {
    MintRuns(l, d, risk, wallet, input);
    MintedPays(l, d, wallet, input);
    if !input.collateralEnabled {
      var enter := PlannedCall(input.comptroller, 0, EnterMarkets([input.market]), ENTER_MARKETS);
      EnterRuns(Minted(l, d, wallet, input), d, risk, wallet, enter);
      RunConcat(TokenChain(d, risk), l, wallet, ApproveCalls(input).value + [MintCall(input)], [enter]);
    }
  }

  lemma EnterRuns(l: Ledger, d: Deployment, risk: Ledger -> AccountLiquidity, wallet: Address, enter: PlannedCall)
    requires Distinct(d, wallet) && enter.to == d.comptroller && enter.data.EnterMarkets? && enter.rule == ENTER_MARKETS
    ensures var run := RunCalls(TokenChain(d, risk), l, wallet, [enter]);
            run.reasons == [] && run.ledger == l.(entered := true)
  {
    RunOne(TokenChain(d, risk), l, wallet, enter);
  }

  /**
   * Run from the allowance it was built with, a plan succeeds at every call, so it never
   * approves non-zero over non-zero; it moves exactly its amount, leaves max(0, initial - amount)
   * of the allowance, and changes nothing else.
   */
  lemma PlanPaysExactly(l: Ledger, d: Deployment, risk: Ledger -> AccountLiquidity, wallet: Address, input: PlanInput)
    requires Distinct(d, wallet) && Payable(l, d, wallet, input)
    ensures BuildPlan(input).Ok?
    ensures var run := RunCalls(TokenChain(d, risk), l, wallet, BuildPlan(input).value.calls);
            run.reasons == [] && Paid(l, run.ledger, d, wallet, input)
  {
    if input.strategyType == REPAY_DEBT {
      RepayRuns(l, d, risk, wallet, input);
    } else {
      AddCollateralRuns(l, d, risk, wallet, input);
    }
  }

  // ---------- every probe of a search ----------

  /** A session opened on the token deployment at the anchor, with what is read there. */
  ghost predicate TokenSession(w: World<Ledger>, d: Deployment, risk: Ledger -> AccountLiquidity) {
    && w.chain == TokenChain(d, risk)
    && w.pinned == w.ledger
    && Distinct(d, w.wallet) && w.comptroller == d.comptroller
    && w.positions == [Position(d.market, d.token, w.ledger.debt, w.ledger.entered)]
    && w.markets == [Market(d.market, Some(d.token), true, true)]
  }

  lemma BoundIsPayable(w: World<Ledger>, d: Deployment, risk: Ledger -> AccountLiquidity, strategyType: StrategyType)
    requires TokenSession(w, d, risk)
    requires Assess(w, strategyType).Ok? && Assess(w, strategyType).value.Feasible?
    ensures var f := Assess(w, strategyType).value;
            && f.market == d.market && f.underlying == d.token
            && 1 <= f.boundRaw <= BalanceOf(w.ledger, w.wallet)
            && (strategyType == REPAY_DEBT ==> f.boundRaw <= w.ledger.debt)
  {
    assert d.token in Tokens(w.positions, w.markets) by {
      assert w.markets[0] in w.markets;
    }
    assert Balances(w)[d.token] == BalanceOf(w.ledger, w.wallet);
    if strategyType == REPAY_DEBT {
      RepayFeasibilitySound(w.positions, Balances(w), Prices(w), w.policy);
    } else {
      CollateralFeasibilitySound(w.markets, w.positions, Balances(w), Constraints(w), Prices(w), w.policy);
    }
  }

  /** Whatever was probed before, each probe meets the allowance baked into its plan and pays exactly. */
  lemma EveryProbePays(w: World<Ledger>, d: Deployment, risk: Ledger -> AccountLiquidity,
                       strategyType: StrategyType, ctx: Context, amount: int)
    requires TokenSession(w, d, risk) && Searched(w, strategyType, ctx)
    requires 1 <= amount <= ctx.boundRaw && BalanceOf(w.ledger, d.market) + amount < TWO_256
    ensures PlanFor(w, ctx, amount).Ok?
    ensures ExecutePlan(w, w.ledger, PlanFor(w, ctx, amount).value).reasons == []
    ensures Probe(w, ctx, amount).Ok?
    ensures var after := ExecutePlan(w, w.ledger, PlanFor(w, ctx, amount).value).ledger;
            && BalanceOf(after, w.wallet) == BalanceOf(w.ledger, w.wallet) - amount
            && AllowanceOf(after, w.wallet, d.market)
               == AllowanceLeft(AllowanceOf(w.ledger, w.wallet, d.market), amount)
  {
    BoundIsPayable(w, d, risk, strategyType);
    var input := PlanInput(ctx.strategyType, ctx.market, ctx.underlying, w.comptroller, amount, ctx.boundRaw,
                           ctx.allowanceRaw, ctx.collateralEnabled, w.policy);
    assert Payable(w.ledger, d, w.wallet, input);
    PlanPaysExactly(w.ledger, d, risk, w.wallet, input);
  }
}
