/**
 * The strategy search as it runs: every probe snapshots the fork, executes a plan on it,
 * applies the governance call, reads risk and reverts, also when something throws
 * (packages/protocol-moonwell/src/strategy/search.ts, execute.ts and run.ts). Each method is
 * proved equal to its function in StrategySpec and leaves the ledger as it found it.
 */
module StrategySearch {
  import opened Wrappers
  import opened RiskPolicy
  import opened AnvilFork
  import opened Feasibility
  import opened Plans
  import opened BinarySearch
  import opened StrategySpec

  class Session<L> {
    const anvil: Anvil<L>
    const wallet: Address
    const comptroller: Address
    const temporalGovernor: Address
    const destination: Destination
    var policy: UserRiskPolicy
    const positions: seq<Position>
    const markets: seq<Market>
    const maxProbes: int

    constructor (anvil: Anvil<L>, wallet: Address, comptroller: Address, temporalGovernor: Address,
                 destination: Destination, policy: UserRiskPolicy, positions: seq<Position>, markets: seq<Market>,
                 maxProbes: int)
      ensures this.anvil == anvil && this.policy == policy
      ensures View() == World(anvil.chain, anvil.pinned, anvil.ledger, wallet, comptroller, temporalGovernor,
                              destination, policy, positions, markets, maxProbes)
    {
      this.anvil := anvil;
      this.wallet, this.comptroller, this.temporalGovernor := wallet, comptroller, temporalGovernor;
      this.destination, this.policy := destination, policy;
      this.positions, this.markets, this.maxProbes := positions, markets, maxProbes;
    }

    ghost function View(): World<L>
      reads this, anvil
    {
      World(anvil.chain, anvil.pinned, anvil.ledger, wallet, comptroller, temporalGovernor,
            destination, policy, positions, markets, maxProbes)
    }

    // ---------- running a plan ----------

    method ExecutePlanCalls(plan: TransactionPlan) returns (calls: seq<CallRecord>, reasons: seq<string>)
      modifies anvil`ledger
      ensures PlanRun(anvil.ledger, calls, reasons) == ExecutePlan(old(View()), old(anvil.ledger), plan)
    {
      anvil.ImpersonateForGas(wallet);
      calls, reasons := [], [];
      ghost var start := anvil.ledger;
      for i := 0 to |plan.calls|
        invariant reasons == []
        invariant RunCalls(anvil.chain, start, wallet, plan.calls)
               == (var rest := RunCalls(anvil.chain, anvil.ledger, wallet, plan.calls[i..]);
                   PlanRun(rest.ledger, calls + rest.calls, rest.reasons))
      {
        var planned := plan.calls[i];
        assert plan.calls[i..][0] == planned && plan.calls[i..][1..] == plan.calls[i + 1..];
        var preview := anvil.chain.preview(anvil.ledger, Tx(wallet, planned.to, planned.data, 0));
        var blocked := PreviewReason(planned.rule, preview);
        if blocked.Some? {
          calls, reasons := calls + [CallRecord(planned.to, false)], [blocked.value];
          return;
        }
        var success, error := anvil.SendImpersonatedCall(Tx(wallet, planned.to, planned.data, planned.value));
        calls := calls + [CallRecord(planned.to, success)];
        if !success {
          reasons := [error];
          return;
        }
      }
    }

    method ApplyDestinationCall() returns (success: bool, error: string)
      modifies anvil`ledger
      ensures Sent(anvil.ledger, success, error) == ApplyChange(old(View()), old(anvil.ledger))
    {
      anvil.ImpersonateAndFund(temporalGovernor);
      success, error := anvil.SendImpersonatedCall(
        Tx(temporalGovernor, destination.to, Opaque(destination.payload), destination.value));
    }

    method ReadEnrichedRisk() returns (r: Result<RiskState>)
      ensures r == EnrichedRisk(anvil.chain, anvil.ledger, wallet)
    {
      var account :- anvil.chain.accountLiquidity(anvil.ledger, wallet);
      var current :- anvil.chain.positions(anvil.ledger, wallet);
      var _ :- anvil.chain.oracleReads(anvil.ledger, wallet);
      var borrowValueRaw := ReadBorrowValueRaw(current, PricesAt(anvil.chain, anvil.ledger));
      r := Ok(WithDerivedBuffer(StateOf(account), borrowValueRaw));
    }

    method ReadRiskAtHead() returns (r: Result<RiskState>)
      ensures r == RiskAtHead(anvil.chain, anvil.ledger, wallet)
    {
      if !anvil.chain.hasHead(anvil.ledger) {
        return Err("Anvil latest block is missing a hash");
      }
      r := ReadEnrichedRisk();
    }

    method VerifyExecutedPlan(plan: TransactionPlan) returns (r: Result<BranchExecution>)
      modifies anvil`ledger
      ensures r == VerifyPlan(old(View()), old(anvil.ledger), plan)
    {
      var calls, reasons := ExecutePlanCalls(plan);
      if reasons != [] {
        var risk :- ReadRiskAtHead();
        return Ok(BranchExecution(Successes(calls), false, risk, EvaluatePolicy(risk, policy), reasons));
      }
      var applied, error := ApplyDestinationCall();
      var risk :- ReadRiskAtHead();
      var evaluation := EvaluatePolicy(risk, policy);
      if !applied {
        return Ok(BranchExecution(Successes(calls) + [false], false, risk, evaluation, [error]));
      }
      r := Ok(BranchExecution(Successes(calls) + [true], true, risk, evaluation,
                              ReportedReasons(risk, evaluation, plan.maxShortfallRaw)));
    }

    // ---------- the change on its own ----------

    method AttemptChangeOnly() returns (r: Result<ChangeOnly>)
      modifies anvil`ledger
      ensures r == EvaluateChange(old(View()))
    {
      var success, error := ApplyDestinationCall();
      if !success {
        return Ok(ChangeOnly(false, None, [error]));
      }
      if !anvil.chain.hasHead(anvil.ledger) {
        return Ok(ChangeOnly(false, None, ["missing after-block hash"]));
      }
      var risk :- ReadEnrichedRisk();
      var evaluation := EvaluatePolicy(risk, policy);
      r := Ok(ChangeOnly(evaluation.passed, Buffer(risk), evaluation.reasons));
    }

    /** The finally clause reverts whatever the attempt returned or threw. */
    method EvaluateChangeOnly() returns (r: Result<ChangeOnly>)
      requires anvil.Valid()
      modifies anvil
      ensures anvil.Valid()
      ensures anvil.ledger == old(anvil.ledger) && anvil.snapshots == old(anvil.snapshots)
      ensures r == EvaluateChange(old(View()))
    {
      var snapshot := anvil.Snapshot();
      r := AttemptChangeOnly();
      anvil.Revert(snapshot);
    }

    // ---------- the reads at the anchor ----------

    method CollectBalances() returns (balances: map<Address, Uint256>)
      ensures balances == Balances(View())
      ensures forall token :: token in balances <==>
                (exists p :: p in positions && p.underlying == token)
                || exists m :: m in markets && m.underlying == Some(token)
      ensures forall token :: token in balances
                ==> balances[token] == anvil.chain.balanceOf(anvil.pinned, token, wallet)
    {
      var tokens: set<Address> := {};
      for i := 0 to |positions|
        invariant tokens == Tokens(positions[..i], [])
      {
        assert positions[..i + 1] == positions[..i] + [positions[i]];
        tokens := tokens + {positions[i].underlying};
      }
      assert positions[..|positions|] == positions;
      for i := 0 to |markets|
        invariant tokens == Tokens(positions, markets[..i])
      {
        assert markets[..i + 1] == markets[..i] + [markets[i]];
        if markets[i].underlying.Some? {
          tokens := tokens + {markets[i].underlying.value};
        }
      }
      assert markets[..|markets|] == markets;
      balances := map[];
      var left := tokens;
      while left != {}
        invariant left <= tokens
        invariant balances == map token | token in tokens - left :: anvil.chain.balanceOf(anvil.pinned, token, wallet)
        decreases left
      {
        var token :| token in left;
        balances := balances[token := anvil.chain.balanceOf(anvil.pinned, token, wallet)];
        left := left - {token};
      }
    }

    method CollectConstraints() returns (constraints: map<Address, MarketConstraints>)
      ensures constraints == Constraints(View())
      ensures forall market :: market in constraints <==> exists m :: m in markets && m.market == market
      ensures forall market :: market in constraints ==>
                var read, found := anvil.chain.market(anvil.pinned, market), constraints[market];
                && found.mintPaused == read.mintPaused
                && (found.remainingSupplyRaw.None? <==> read.supplyCapRaw == 0)
                && (found.remainingSupplyRaw.Some? ==>
                      var room := read.supplyCapRaw - read.totalSupply * read.exchangeRate / MANTISSA;
                      found.remainingSupplyRaw.value == if room > 0 then room else 0)
    {
      constraints := map[];
      for i := 0 to |markets|
        invariant constraints
               == map market | market in MarketSet(markets[..i]) ::
                    ConstraintsOf(anvil.chain.market(anvil.pinned, market))
      {
        assert markets[..i + 1] == markets[..i] + [markets[i]];
        var market := markets[i].market;
        constraints := constraints[market := ConstraintsOf(anvil.chain.market(anvil.pinned, market))];
      }
      assert markets[..|markets|] == markets;
    }

    method CollectPrices() returns (prices: map<Address, int>)
      ensures prices == Prices(View())
      ensures forall market :: market in prices <==> exists m :: m in markets && m.market == market
      ensures forall market :: market in prices ==> prices[market] == anvil.chain.price(anvil.pinned, market)
    {
      prices := map[];
      for i := 0 to |markets|
        invariant prices == map market | market in MarketSet(markets[..i]) :: anvil.chain.price(anvil.pinned, market)
      {
        assert markets[..i + 1] == markets[..i] + [markets[i]];
        var market := markets[i].market;
        prices := prices[market := anvil.chain.price(anvil.pinned, market)];
      }
      assert markets[..|markets|] == markets;
    }

    method AssessFeasibility(strategyType: StrategyType) returns (r: Result<StrategyFeasibility>)
      ensures r == Assess(View(), strategyType)
    {
      var _ :- anvil.chain.anchorReads(anvil.pinned);
      var balances := CollectBalances();
      var constraints := CollectConstraints();
      var prices := CollectPrices();
      if strategyType == REPAY_DEBT {
        r := AssessRepayFeasibility(positions, balances, prices, policy);
      } else {
        r := AssessAddCollateralFeasibility(markets, positions, balances, constraints, prices, policy);
      }
    }

    // ---------- the search ----------

    method SearchMoonwellStrategy(strategyType: StrategyType) returns (r: Result<SearchResult>)
      requires anvil.Valid()
      modifies anvil
      ensures anvil.Valid()
      ensures anvil.ledger == old(anvil.ledger) && anvil.snapshots == old(anvil.snapshots)
      ensures r == SearchStrategy(old(View()), strategyType)
    {
      var feasibility :- AssessFeasibility(strategyType);
      if feasibility.Infeasible? {
        return Ok(SearchResult(strategyType, INFEASIBLE, None, 0, feasibility.reasons, None, [], 0));
      }
      var changeOnly :- EvaluateChangeOnly();
      if changeOnly.passed {
        return Ok(SearchResult(strategyType, NOT_REQUIRED, Some(0), feasibility.boundRaw,
                               ["POST_CHANGE_POLICY_PASSES"] + changeOnly.reasons, None, [], 0));
      }
      var _ :- anvil.chain.allowanceReads(anvil.pinned);
      var ctx := Context(strategyType, feasibility.market, feasibility.underlying, feasibility.boundRaw,
                         feasibility.reasons,
                         anvil.chain.allowance(anvil.pinned, feasibility.underlying, wallet, feasibility.market),
                         CollateralEnabled(positions, feasibility.market));
      r := SearchFrom(ctx);
    }

    method SearchFrom(ctx: Context) returns (r: Result<SearchResult>)
      requires anvil.Valid()
      modifies anvil
      ensures anvil.Valid()
      ensures anvil.ledger == old(anvil.ledger) && anvil.snapshots == old(anvil.snapshots)
      ensures r == SearchWithin(old(View()), ctx)
    {
      var prober := new Prober(this, ctx);
      var search :- ProbeAmounts(prober);
      var plan := None;
      if search.amount.Some? {
        var built :- prober.MakePlan(search.amount.value);
        plan := Some(built);
      }
      r := Ok(FinalizeResult(ctx, search, prober.branches, plan));
    }

    method ProbeAmounts(prober: Prober<L>) returns (r: Result<Search>)
      requires anvil.Valid() && prober.session == this && prober.branches == []
      requires prober.start == View() && prober.test == TestOf(View(), prober.ctx) && prober.Faithful()
      modifies anvil, prober`branches
      ensures anvil.Valid()
      ensures anvil.ledger == old(anvil.ledger) && anvil.snapshots == old(anvil.snapshots)
      ensures r == SearchAmounts(old(View()), prober.ctx)
      ensures r.Ok? ==> prober.branches == Branches(old(View()), prober.ctx, r.value.probes)
    {
      var bound := prober.ctx.boundRaw;
      if policy.optimizationGoal == MAX_SAFETY {
        assert [bound][..0] == [];
        var passed :- prober.TestAmount(bound);
        r := Ok(Search(if passed then Some(bound) else None, [bound], true));
      } else {
        r := FindMinimumPassingAmount(prober, 1, bound, maxProbes);
      }
    }

    /** comparePinnedStrategies, from the opened session on. */
    method Compare(raiseBufferToForceSearch: bool) returns (r: Result<Comparison>)
      requires anvil.Valid()
      modifies this`policy, anvil
      ensures anvil.Valid() && anvil.ledger == old(anvil.ledger) && anvil.snapshots == old(anvil.snapshots)
      ensures r == CompareStrategies(old(View()), raiseBufferToForceSearch)
    {
      var changeOnly :- EvaluateChangeOnly();
      if raiseBufferToForceSearch && changeOnly.passed {
        policy := Raised(policy, changeOnly.riskBufferBps);
      }
      var repay :- SearchMoonwellStrategy(REPAY_DEBT);
      var addCollateral :- SearchMoonwellStrategy(ADD_COLLATERAL);
      r := Ok(Comparison(policy, changeOnly, repay, addCollateral));
    }
  }

  datatype Comparison = Comparison(
    policy: UserRiskPolicy, changeOnly: ChangeOnly, repay: SearchResult, addCollateral: SearchResult)

  /** The policy whose buffer is one above the measured one. */
  function Raised(policy: UserRiskPolicy, measured: Option<int>): UserRiskPolicy {
    policy.(minSafetyBufferBps := (if measured.Some? then measured.value else 0) + 1)
  }

  /** Both strategies are searched from the same state, so neither sees the other. */
  function CompareStrategies<L>(w: World<L>, raise: bool): Result<Comparison> {
    var changeOnly :- EvaluateChange(w);
    var policy := if raise && changeOnly.passed then Raised(w.policy, changeOnly.riskBufferBps) else w.policy;
    var repay :- SearchStrategy(w.(policy := policy), REPAY_DEBT);
    var addCollateral :- SearchStrategy(w.(policy := policy), ADD_COLLATERAL);
    Ok(Comparison(policy, changeOnly, repay, addCollateral))
  }

  /** The closure testAmount: what one search fixed, and the evidence pushed so far. */
  class Prober<L> {
    const session: Session<L>
    const ctx: Context
    var branches: seq<BranchEvidence>
    ghost const start: World<L>  // the state every probe starts in
    ghost const test: Test       // the verdicts in that state

    constructor (session: Session<L>, ctx: Context)
      ensures this.session == session && this.ctx == ctx && branches == []
      ensures start == session.View() && test == TestOf(start, ctx) && Faithful()
    {
      this.session, this.ctx := session, ctx;
      this.branches := [];
      this.start := session.View();
      this.test := TestOf(session.View(), ctx);
    }

    ghost predicate Faithful() {
      forall amount {:trigger Verdict(start, ctx, amount)} :: test(amount) == Verdict(start, ctx, amount)
    }

    method MakePlan(amount: int) returns (r: Result<TransactionPlan>)
      ensures r == PlanFor(session.View(), ctx, amount)
    {
      r := BuildPlan(PlanInput(ctx.strategyType, ctx.market, ctx.underlying, session.comptroller, amount, ctx.boundRaw,
                               ctx.allowanceRaw, ctx.collateralEnabled, session.policy));
    }

    method Attempt(amount: int) returns (r: Result<bool>)
      modifies session.anvil`ledger, this`branches
      ensures r == Verdict(old(session.View()), ctx, amount)
      ensures var evidence := Probe(old(session.View()), ctx, amount);
              branches == old(branches) + if evidence.Ok? then [evidence.value] else []
    {
      var plan :- MakePlan(amount);
      var branch :- session.VerifyExecutedPlan(plan);
      var evidence := Evidence(amount, branch);
      branches := branches + [evidence];
      r := Ok(evidence.verified);
    }

    /** One probe: whatever happens on the branch, the ledger afterwards is the one before. */
    method TestAmount(amount: int) returns (r: Result<bool>)
      requires session.anvil.Valid() && session.View() == start && Faithful()
      modifies session.anvil, this`branches
      ensures session.anvil.Valid() && session.View() == start
      ensures session.anvil.snapshots == old(session.anvil.snapshots)
      ensures r == test(amount)
      ensures var evidence := Probe(start, ctx, amount);
              branches == old(branches) + if evidence.Ok? then [evidence.value] else []
    {
      var snapshot := session.anvil.Snapshot();
      r := Attempt(amount);
      session.anvil.Revert(snapshot);
    }
  }

  // ---------- the loop ----------

  /** The variables of the search loop. */
  datatype Progress = Progress(low: int, high: int, found: Option<int>, probes: seq<int>)

  /** One turn of the loop takes p to q. */
  ghost predicate Turned(test: Test, maxProbes: int, p: Progress, q: Progress) {
    && p.low <= p.high && |p.probes| < maxProbes
    && var mid := Mid(p.low, p.high);
       && test(mid).Ok?
       && q == if test(mid).value then Progress(p.low, mid - 1, Some(mid), p.probes + [mid])
               else Progress(mid + 1, p.high, p.found, p.probes + [mid])
  }

  ghost predicate Turns(test: Test, maxProbes: int, history: seq<Progress>) {
    forall i :: 0 <= i < |history| - 1 ==> Turned(test, maxProbes, history[i], history[i + 1])
  }

  /** What the loop returns when it leaves at p. */
  ghost predicate Leaves(test: Test, maxProbes: int, p: Progress, r: Result<Search>) {
    if p.high < p.low then r == Ok(Search(p.found, p.probes, true))
    else if |p.probes| >= maxProbes then r == Ok(Search(p.found, p.probes, false))
    else test(Mid(p.low, p.high)).Err? && r == Err(test(Mid(p.low, p.high)).error)
  }

  /** The search from p on, added to what p has found. */
  ghost function Resume(test: Test, maxProbes: int, p: Progress): Result<Search> {
    var rest := Bisect(test, p.low, p.high, maxProbes - |p.probes|);
    if rest.Err? then rest else Ok(Continue(p.found, p.probes, rest.value))
  }

  lemma ResumeAtExit(test: Test, maxProbes: int, p: Progress, r: Result<Search>)
    requires Leaves(test, maxProbes, p, r)
    ensures Resume(test, maxProbes, p) == r
  {
    assert p.probes + [] == p.probes;
  }

  lemma ResumeTurn(test: Test, maxProbes: int, p: Progress, q: Progress)
    requires Turned(test, maxProbes, p, q)
    ensures Resume(test, maxProbes, p) == Resume(test, maxProbes, q)
  {
    var mid := Mid(p.low, p.high);
    var rest := Bisect(test, q.low, q.high, maxProbes - |q.probes|);
    if rest.Ok? {
      assert p.probes + ([mid] + rest.value.probes) == q.probes + rest.value.probes;
    }
  }

  /** A whole run of the loop computes the search it started. */
  lemma {:induction false} LoopFindsMinimum(test: Test, maxProbes: int, history: seq<Progress>, r: Result<Search>)
    requires history != [] && Turns(test, maxProbes, history)
    requires Leaves(test, maxProbes, history[|history| - 1], r)
    ensures Resume(test, maxProbes, history[0]) == r
    decreases |history|
  {
    if |history| == 1 {
      ResumeAtExit(test, maxProbes, history[0], r);
    } else {
      ResumeTurn(test, maxProbes, history[0], history[1]);
      LoopFindsMinimum(test, maxProbes, history[1..], r);
    }
  }

  lemma RunIsFindMinimum(test: Test, lo: int, hi: int, maxProbes: int, history: seq<Progress>, r: Result<Search>)
    requires lo <= hi && maxProbes > 0
    requires history != [] && history[0] == Progress(lo, hi, None, []) && Turns(test, maxProbes, history)
    requires Leaves(test, maxProbes, history[|history| - 1], r)
    ensures r == FindMinimum(test, lo, hi, maxProbes)
  {
    LoopFindsMinimum(test, maxProbes, history, r);
    var whole := Bisect(test, lo, hi, maxProbes);
    if whole.Ok? {
      assert [] + whole.value.probes == whole.value.probes;
    }
  }

  /** findMinimumPassingAmount; its test callback is the prober's TestAmount. */
  method FindMinimumPassingAmount<L>(prober: Prober<L>, lo: int, hi: int, maxProbes: int) returns (r: Result<Search>)
    requires prober.session.anvil.Valid() && prober.session.View() == prober.start && prober.Faithful()
    requires prober.branches == []
    modifies prober`branches, prober.session.anvil
    ensures prober.session.anvil.Valid() && prober.session.View() == prober.start
    ensures prober.session.anvil.snapshots == old(prober.session.anvil.snapshots)
    ensures r == FindMinimum(prober.test, lo, hi, maxProbes)
    ensures r.Ok? ==> prober.branches == Branches(prober.start, prober.ctx, r.value.probes)
  {
    if hi < lo || maxProbes <= 0 {
      return Ok(Search(None, [], true));
    }
    ghost var history: seq<Progress>;
    r, history := ProbeLoop(prober, lo, hi, maxProbes);
    RunIsFindMinimum(prober.test, lo, hi, maxProbes, history, r);
  }

  lemma HistoryGrows(test: Test, maxProbes: int, history: seq<Progress>, next: Progress)
    requires history != [] && Turns(test, maxProbes, history) && Turned(test, maxProbes, history[|history| - 1], next)
    ensures Turns(test, maxProbes, history + [next])
  {
    hide Turned;
  }

  lemma HistoryStarts(test: Test, maxProbes: int, start: Progress)
    ensures Turns(test, maxProbes, [start])
  {
  }

  lemma BranchAdded<L>(w: World<L>, ctx: Context, probes: seq<int>, mid: int)
    ensures Branches(w, ctx, probes + [mid])
         == Branches(w, ctx, probes) + if Probe(w, ctx, mid).Ok? then [Probe(w, ctx, mid).value] else []
    ensures Branches(w, ctx, []) == []
  {
    hide Probe;
    assert (probes + [mid])[..|probes|] == probes;
  }

  /** The while loop, with the progress it made. */
  method ProbeLoop<L>(prober: Prober<L>, lo: int, hi: int, maxProbes: int)
    returns (r: Result<Search>, ghost history: seq<Progress>)
    requires prober.session.anvil.Valid() && prober.session.View() == prober.start && prober.Faithful()
    requires prober.branches == [] && maxProbes > 0
    modifies prober`branches, prober.session.anvil
    ensures prober.session.anvil.Valid() && prober.session.View() == prober.start
    ensures prober.session.anvil.snapshots == old(prober.session.anvil.snapshots)
    ensures history != [] && history[0] == Progress(lo, hi, None, []) && Turns(prober.test, maxProbes, history)
    ensures Leaves(prober.test, maxProbes, history[|history| - 1], r)
    ensures r.Ok? ==> prober.branches == Branches(prober.start, prober.ctx, r.value.probes)
  {
    hide Turns, Verdict, Probe, Branches, Bisect, Mid;
    var low, high, found, probes := lo, hi, None, [];
    HistoryStarts(prober.test, maxProbes, Progress(lo, hi, None, []));
    BranchAdded(prober.start, prober.ctx, [], 0);
    history := [Progress(lo, hi, None, [])];
    while low <= high
      invariant prober.session.anvil.Valid() && prober.session.View() == prober.start
      invariant prober.session.anvil.snapshots == old(prober.session.anvil.snapshots)
      invariant |probes| <= maxProbes
      invariant prober.branches == Branches(prober.start, prober.ctx, probes)
      invariant history != [] && history[0] == Progress(lo, hi, None, [])
      invariant history[|history| - 1] == Progress(low, high, found, probes)
      invariant Turns(prober.test, maxProbes, history)
      decreases high - low
    {
      if |probes| >= maxProbes {
        return Ok(Search(found, probes, false)), history;
      }
      var mid := Mid(low, high);
      var answer := prober.TestAmount(mid);
      if answer.Err? {
        return Err(answer.error), history;
      }
      BranchAdded(prober.start, prober.ctx, probes, mid);
      probes := probes + [mid];
      if answer.value {
        found := Some(mid);
        high := mid - 1;
      } else {
        low := mid + 1;
      }
      HistoryGrows(prober.test, maxProbes, history, Progress(low, high, found, probes));
      history := history + [Progress(low, high, found, probes)];
    }
    r := Ok(Search(found, probes, true));
  }
}
