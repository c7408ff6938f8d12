/**
 * The search from end to end on one family of ledgers: the token deployment of TokenLedger with a
 * governance change that limits how much the wallet may owe. With enough probes the repay search
 * finds exactly the debt above the limit, or that the wallet cannot pay it.
 */
module LeastRepayment {
  import opened Wrappers
  import opened RiskPolicy
  import opened AnvilFork
  import opened Feasibility
  import opened Plans
  import opened BinarySearch
  import opened StrategySpec
  import opened StrategyTheorems
  import opened TokenLedger

  /** Before the change any debt is safe; after it, debt above the limit is shortfall. */
  function LimitedRisk(limit: nat): Ledger -> AccountLiquidity {
    (l: Ledger) =>
      if !l.changed || l.debt <= limit then AccountLiquidity(0, 1, 0) else AccountLiquidity(0, 0, l.debt - limit)
  }

  /** A session on that deployment, of a wallet that owes more than the limit and holds some of the token. */
  ghost predicate LimitSession(w: World<Ledger>, d: Deployment, limit: nat) {
    && TokenSession(w, d, LimitedRisk(limit))
    && w.ledger.debt > limit && !w.ledger.changed
    && BalanceOf(w.ledger, w.wallet) > 0
    && BalanceOf(w.ledger, d.market) + BalanceOf(w.ledger, w.wallet) < TWO_256
    && w.policy.allowRepayDebt && d.token !in w.policy.maxRepayRawByAsset
    && w.policy.minSafetyBufferBps <= 0 && w.policy.optimizationGoal != MAX_SAFETY
    && w.destination.to != d.token && w.destination.to != d.market && w.destination.to != d.comptroller
  }

  /** What the wallet can repay: its debt, as far as it holds the token. */
  function RepayBound(l: Ledger, wallet: Address): int {
    Min(l.debt, BalanceOf(l, wallet))
  }

  /** The context of the repay search. */
  function RepayContext(w: World<Ledger>, d: Deployment): Context {
    Context(REPAY_DEBT, d.market, d.token, RepayBound(w.ledger, w.wallet), ["HAS_DEBT", "HAS_UNDERLYING_BALANCE"],
            AllowanceOf(w.ledger, w.wallet, d.market), w.ledger.entered)
  }

  lemma RepayIsFeasible(w: World<Ledger>, d: Deployment, limit: nat)
    requires LimitSession(w, d, limit)
    ensures Assess(w, REPAY_DEBT)
         == Ok(Feasible(d.market, d.token, RepayBound(w.ledger, w.wallet), ["HAS_DEBT", "HAS_UNDERLYING_BALANCE"]))
    ensures ContextOf(w, REPAY_DEBT, Assess(w, REPAY_DEBT).value) == RepayContext(w, d)
  {
    var balance := BalanceOf(w.ledger, w.wallet);
    assert d.token in Tokens(w.positions, w.markets) by {
      assert w.markets[0] in w.markets;
    }
    assert Balances(w)[d.token] == balance;
    BoundOf(w.ledger.debt, balance);
    var bound := RepayBound(w.ledger, w.wallet);
    var usd := UsdValue(bound, Lookup(Prices(w), d.market));
    var candidate := Candidate(d.market, d.token, bound, usd, ["HAS_DEBT", "HAS_UNDERLYING_BALANCE"]);
    assert w.positions[1..] == [];
    assert RepayCandidates(w.positions[1..], Balances(w), Prices(w), w.policy) == Ok([]);
    assert Lookup(Balances(w), d.token) == Some(balance);
    assert [candidate] + [] == [candidate];
    assert RepayCandidates(w.positions, Balances(w), Prices(w), w.policy) == Ok([candidate]);
    assert [candidate][1..] == [];
    assert SortByUsd([candidate])[0] == candidate;
  }

  lemma BoundOf(debt: int, balance: int)
    ensures MinBound([debt, balance, debt]) == Min(debt, balance)
  {
    assert [debt, balance, debt][..2] == [debt, balance] && [debt, balance][..1] == [debt];
  }

  /** The governance call succeeds and only turns the limit on. */
  lemma ChangeTurnsLimitOn(w: World<Ledger>, d: Deployment, limit: nat, l: Ledger)
    requires LimitSession(w, d, limit)
    ensures ApplyChange(w, l) == Sent(l.(changed := true), true, "")
  {
  }

  lemma ChangeAloneFails(w: World<Ledger>, d: Deployment, limit: nat)
    requires LimitSession(w, d, limit)
    ensures EvaluateChange(w).Ok? && !EvaluateChange(w).value.passed
  {
    var after := w.ledger.(changed := true);
    ChangeTurnsLimitOn(w, d, limit, w.ledger);
    PassesIffSolvent(LimitedRisk(limit)(after),
                     BorrowValue([Position(d.market, d.token, after.debt, after.entered)], PricesAt(w.chain, after)),
                     w.policy);
  }

  /** A repayment is verified exactly when it brings the debt down to the limit. */
  lemma VerdictOnRepayment(w: World<Ledger>, d: Deployment, limit: nat, amount: int)
    requires LimitSession(w, d, limit) && 1 <= amount <= RepayBound(w.ledger, w.wallet)
    ensures Verdict(w, RepayContext(w, d), amount) == Ok(w.ledger.debt - amount <= limit)
  {
    hide BuildPlan, RunCalls, Paid, EvaluatePolicy;
    var ctx := RepayContext(w, d);
    var input := PlanInput(REPAY_DEBT, d.market, d.token, w.comptroller, amount, ctx.boundRaw, ctx.allowanceRaw,
                           ctx.collateralEnabled, w.policy);
    PlanPaysExactly(w.ledger, d, LimitedRisk(limit), w.wallet, input);
    var plan := BuildPlan(input).value;
    var run := ExecutePlan(w, w.ledger, plan);
    DebtAfter(w.ledger, run.ledger, d, w.wallet, input);
    ChangeTurnsLimitOn(w, d, limit, run.ledger);
    var after := run.ledger.(changed := true);
    PassesIffSolvent(LimitedRisk(limit)(after),
                     BorrowValue([Position(d.market, d.token, after.debt, after.entered)], PricesAt(w.chain, after)),
                     w.policy);
  }

  lemma DebtAfter(before: Ledger, after: Ledger, d: Deployment, wallet: Address, input: PlanInput)
    requires Paid(before, after, d, wallet, input) && input.strategyType == REPAY_DEBT
    ensures after.debt == before.debt - input.amountRaw && after.changed == before.changed
  {
  }

  /** A search over a test that never throws does not throw. */
  lemma {:induction false} TotalTestSearches(test: Test, lo: int, hi: int, budget: int)
    requires forall a :: lo <= a <= hi ==> test(a).Ok?
    ensures Bisect(test, lo, hi, budget).Ok?
    decreases hi - lo + 1
  {
    if lo <= hi && budget > 0 {
      if test(Mid(lo, hi)).value {
        TotalTestSearches(test, lo, Mid(lo, hi) - 1, budget - 1);
      } else {
        TotalTestSearches(test, Mid(lo, hi) + 1, hi, budget - 1);
      }
    }
  }

  /** On a threshold test a search with enough probes finds the threshold, or that it is out of reach. */
  lemma ThresholdIsFound(test: Test, hi: int, budget: nat, threshold: int)
    requires hi >= 1 && threshold >= 1 && budget > 0 && hi < Doubled(1, budget)
    requires forall a :: 1 <= a <= hi ==> test(a) == Ok(threshold <= a)
    ensures Bisect(test, 1, hi, budget).Ok?
    ensures Bisect(test, 1, hi, budget).value.complete
    ensures Bisect(test, 1, hi, budget).value.amount == if threshold <= hi then Some(threshold) else None
  {
    hide Bisect, Doubled;
    TotalTestSearches(test, 1, hi, budget);
    BudgetSuffices(test, 1, hi, budget);
    var s := Bisect(test, 1, hi, budget).value;
    MonotoneAnswerIsGlobalMinimum(test, 1, hi, budget, s);
    assert threshold <= hi ==> test(threshold) == Ok(true);
    if s.amount.Some? {
      AnswerPasses(test, 1, hi, budget, s);
      assert test(s.amount.value) == Ok(threshold <= s.amount.value);
    }
  }

  /**
   * With more than log2 of the bound in probes, the repay search returns VERIFIED with exactly the
   * debt above the limit when the wallet can pay it, and INFEASIBLE when it cannot.
   */
  lemma RepaySearchFindsTheExcess(w: World<Ledger>, d: Deployment, limit: nat)
    requires LimitSession(w, d, limit)
    requires w.maxProbes > 0 && RepayBound(w.ledger, w.wallet) < Doubled(1, w.maxProbes)
    ensures var r := SearchStrategy(w, REPAY_DEBT);
            var excess := w.ledger.debt - limit;
            && r.Ok?
            && (excess <= BalanceOf(w.ledger, w.wallet) ==>
                  r.value.status == VERIFIED && r.value.amountRaw == Some(excess))
            && (excess > BalanceOf(w.ledger, w.wallet) ==> r.value.status == INFEASIBLE)
  {
    hide Assess, EvaluateChange, Verdict, Bisect, ResultOf, ContextOf;
    var ctx := RepayContext(w, d);
    RepayIsFeasible(w, d, limit);
    ChangeAloneFails(w, d, limit);
    var test := TestOf(w, ctx);
    forall a | 1 <= a <= ctx.boundRaw
      ensures test(a) == Ok(w.ledger.debt - limit <= a)
    {
      VerdictOnRepayment(w, d, limit, a);
    }
    ThresholdIsFound(test, ctx.boundRaw, w.maxProbes, w.ledger.debt - limit);
    var s := SearchAmounts(w, ctx).value;
    ResultIsVerified(w, ctx, s);
  }

  /** Without a budget the same search answers INFEASIBLE, whatever repayment would rescue the wallet. */
  lemma NoBudgetMissesRescue(w: World<Ledger>, d: Deployment, limit: nat, amount: int)
    requires LimitSession(w, d, limit) && w.maxProbes <= 0
    requires 1 <= amount <= RepayBound(w.ledger, w.wallet)
    ensures SearchStrategy(w, REPAY_DEBT).Ok? && SearchStrategy(w, REPAY_DEBT).value.status == INFEASIBLE
    ensures PlanFor(w, RepayContext(w, d), amount).Ok?
    ensures Rescues(w, PlanFor(w, RepayContext(w, d), amount).value.calls) <==> w.ledger.debt - limit <= amount
  {
    hide EvaluateChange, Assess, Probe, PlanFor, Rescues, SearchStrategy, ContextOf;
    RepayIsFeasible(w, d, limit);
    ChangeAloneFails(w, d, limit);
    NoBudgetNeverRescues(w, REPAY_DEBT, RepayContext(w, d));
    VerdictOnRepayment(w, d, limit, amount);
    ProbeVerifiedIffRescues(w, RepayContext(w, d), amount);
  }

  /** A wallet that owes 3 and holds 5, and a limit of 1. */
  function ExampleSession(d: Deployment, maxProbes: int): World<Ledger> {
    var ledger := Ledger(map[4 := 5], map[], 3, 0, false, false);
    World(TokenChain(d, LimitedRisk(1)), ledger, ledger, 4, d.comptroller, 5, Destination(6, 0, 0),
          UserRiskPolicy(0, MIN_CAPITAL, true, true, map[], map[]),
          [Position(d.market, d.token, 3, false)], [Market(d.market, Some(d.token), true, true)], maxProbes)
  }

  /** There is such a session: the hypotheses above, and those on verified searches, can be met. */
  lemma SuchASessionExists() returns (w: World<Ledger>, d: Deployment)
    ensures LimitSession(w, d, 1) && w.maxProbes > 0 && RepayBound(w.ledger, w.wallet) < Doubled(1, w.maxProbes)
    ensures SearchStrategy(w, REPAY_DEBT).Ok?
    ensures SearchStrategy(w, REPAY_DEBT).value.status == VERIFIED
    ensures SearchStrategy(w, REPAY_DEBT).value.amountRaw == Some(2)
  {
    d := Deployment(1, 2, 3);
    w := ExampleSession(d, 2);
    assert Doubled(1, 1) == 2 && Doubled(1, 2) == 4;
    RepaySearchFindsTheExcess(w, d, 1);
  }

  /** And one without a budget, whose search is INFEASIBLE although repaying 2 rescues the wallet. */
  lemma RescueIsMissed() returns (w: World<Ledger>, d: Deployment)
    ensures LimitSession(w, d, 1) && w.maxProbes == 0
    ensures SearchStrategy(w, REPAY_DEBT).Ok? && SearchStrategy(w, REPAY_DEBT).value.status == INFEASIBLE
    ensures PlanFor(w, RepayContext(w, d), 2).Ok? && Rescues(w, PlanFor(w, RepayContext(w, d), 2).value.calls)
  {
    d := Deployment(1, 2, 3);
    w := ExampleSession(d, 0);
    NoBudgetMissesRescue(w, d, 1, 2);
  }
}
