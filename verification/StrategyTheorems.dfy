/**
 * What a search result means. A rescue is stated without the search: as a sequence of
 * ledgers, one per call, ending in a state where the governance call succeeds and the
 * wallet is solvent under its policy.
 */
module StrategyTheorems {
  import opened Wrappers
  import opened RiskPolicy
  import opened AnvilFork
  import opened Feasibility
  import opened Plans
  import opened BinarySearch
  import opened StrategySpec
  import opened StrategySearch

  // ---------- rescues ----------

  /**
   * The preview of a call lets it pass: repayBorrow and mint return no error code other than 0,
   * enterMarkets a list of codes that are all 0, and approve whatever it likes, but no preview throws.
   */
  predicate LetsPass(rule: Rule, preview: Preview) {
    match rule
    case MTOKEN_REPAY_BORROW => preview == Empty || preview == ErrorCode(0)
    case MTOKEN_MINT => preview == Empty || preview == ErrorCode(0)
    case ENTER_MARKETS =>
      preview == Empty || (preview.ErrorCodes? && forall code :: code in preview.codes ==> code == 0)
    case _ => !preview.Threw?
  }

  /** What is reported of a call that its preview does not let pass. */
  function Blame(rule: Rule, preview: Preview): string {
    if preview.Threw? then preview.message
    else if rule != ENTER_MARKETS then "mtoken_error"
    else if preview.ErrorCode? then "result is not an array" else "enter_markets_error"
  }

  lemma PreviewBlocksIff(rule: Rule, preview: Preview)
    ensures PreviewReason(rule, preview) == if LetsPass(rule, preview) then None else Some(Blame(rule, preview))
  {
  }

  /** The call is not blocked by its preview, and sending it succeeds and leads to `after`. */
  ghost predicate Succeeds<L>(chain: Chain<L>, before: L, wallet: Address, call: PlannedCall, after: L) {
    var sent := chain.send(before, Tx(wallet, call.to, call.data, call.value));
    && LetsPass(call.rule, chain.preview(before, Tx(wallet, call.to, call.data, 0)))
    && sent.success && sent.ledger == after
  }

  /** ls passes through the calls in order, every one succeeding. */
  ghost predicate Trace<L>(chain: Chain<L>, wallet: Address, calls: seq<PlannedCall>, ls: seq<L>) {
    && |ls| == |calls| + 1
    && forall i :: 0 <= i < |calls| ==> Succeeds(chain, ls[i], wallet, calls[i], ls[i + 1])
  }

  /** After the governance call the Comptroller reports no error and no shortfall, and the buffer is met. */
  ghost predicate SolventAfterChange<L>(w: World<L>, l: L) {
    var governor, call := w.temporalGovernor, w.destination;
    var applied := w.chain.send(w.chain.fund(l, governor), Tx(governor, call.to, Opaque(call.payload), call.value));
    && applied.success
    && w.chain.hasHead(applied.ledger)
    && var account := w.chain.accountLiquidity(applied.ledger, w.wallet);
       var positions := w.chain.positions(applied.ledger, w.wallet);
       && account.Ok? && positions.Ok?
       && Solvent(account.value, BorrowValue(positions.value, PricesAt(w.chain, applied.ledger)),
                  w.policy.minSafetyBufferBps)
  }

  /** Running the calls from the initial ledger, then the change, leaves the wallet solvent. */
  ghost predicate RescuedBy<L>(w: World<L>, calls: seq<PlannedCall>, ls: seq<L>) {
    && Trace(w.chain, w.wallet, calls, ls)
    && ls[0] == w.chain.fundForGas(w.ledger, w.wallet)
    && SolventAfterChange(w, ls[|calls|])
  }

  ghost predicate Rescues<L(!new)>(w: World<L>, calls: seq<PlannedCall>) {
    exists ls: seq<L> :: RescuedBy(w, calls, ls)
  }

  // ---------- running a plan is following a trace ----------

  ghost function LedgersOf<L>(chain: Chain<L>, l: L, wallet: Address, calls: seq<PlannedCall>): (ls: seq<L>)
    ensures |ls| == |calls| + 1 && ls[0] == l
  {
    if calls == [] then [l] else [l] + LedgersOf(chain, SendOf(chain, l, wallet, calls[0]).ledger, wallet, calls[1..])
  }

  /** A run that reports no reason is a chain of ledgers along which every call succeeds. */
  lemma {:induction false} CleanRunHasTrace<L>(chain: Chain<L>, l: L, wallet: Address, calls: seq<PlannedCall>)
    requires RunCalls(chain, l, wallet, calls).reasons == []
    ensures var ls := LedgersOf(chain, l, wallet, calls);
            Trace(chain, wallet, calls, ls) && RunCalls(chain, l, wallet, calls).ledger == ls[|calls|]
    ensures RunCalls(chain, l, wallet, calls).calls
         == seq(|calls|, i requires 0 <= i < |calls| => CallRecord(calls[i].to, true))
  {
    if calls != [] {
      var next := SendOf(chain, l, wallet, calls[0]).ledger;
      CleanRunHasTrace(chain, next, wallet, calls[1..]);
      var ls, rest := LedgersOf(chain, l, wallet, calls), LedgersOf(chain, next, wallet, calls[1..]);
      forall i | 0 <= i < |calls|
        ensures Succeeds(chain, ls[i], wallet, calls[i], ls[i + 1])
      {
        if i > 0 {
          assert Succeeds(chain, rest[i - 1], wallet, calls[1..][i - 1], rest[i]);
        }
      }
    }
  }

  /** And such a chain is a run that reports no reason and ends where the chain ends. */
  lemma {:induction false} TraceIsCleanRun<L>(chain: Chain<L>, wallet: Address, calls: seq<PlannedCall>, ls: seq<L>)
    requires Trace(chain, wallet, calls, ls)
    ensures RunCalls(chain, ls[0], wallet, calls).reasons == []
    ensures RunCalls(chain, ls[0], wallet, calls).ledger == ls[|calls|]
  {
    if calls != [] {
      assert Succeeds(chain, ls[0], wallet, calls[0], ls[1]);
      forall i | 0 <= i < |calls[1..]|
        ensures Succeeds(chain, ls[1..][i], wallet, calls[1..][i], ls[1..][i + 1])
      {
        assert Succeeds(chain, ls[i + 1], wallet, calls[i + 1], ls[i + 2]);
      }
      TraceIsCleanRun(chain, wallet, calls[1..], ls[1..]);
    }
  }

  /** The run reports no reason exactly when there is such a chain from the ledger it starts in. */
  lemma CleanRunIffTrace<L(!new)>(chain: Chain<L>, l: L, wallet: Address, calls: seq<PlannedCall>)
    ensures RunCalls(chain, l, wallet, calls).reasons == []
       <==> exists ls: seq<L> :: Trace(chain, wallet, calls, ls) && ls[0] == l
  {
    hide RunCalls, Succeeds;
    if RunCalls(chain, l, wallet, calls).reasons == [] {
      CleanRunHasTrace(chain, l, wallet, calls);
      var ls := LedgersOf(chain, l, wallet, calls);
      assert Trace(chain, wallet, calls, ls) && ls[0] == l;
    }
    if ls: seq<L> :| Trace(chain, wallet, calls, ls) && ls[0] == l {
      TraceIsCleanRun(chain, wallet, calls, ls);
    }
  }

  /** The call is blocked by its preview, or sent and reverted. */
  ghost predicate FailsAs<L>(chain: Chain<L>, before: L, wallet: Address, call: PlannedCall, after: L, reason: string) {
    var preview := chain.preview(before, Tx(wallet, call.to, call.data, 0));
    var sent := chain.send(before, Tx(wallet, call.to, call.data, call.value));
    if LetsPass(call.rule, preview) then !sent.success && after == sent.ledger && reason == sent.error
    else after == before && reason == Blame(call.rule, preview)
  }

  /** The records of n calls that succeeded, and of one more that failed. */
  function FailureRecords(calls: seq<PlannedCall>, n: nat): seq<CallRecord>
    requires n < |calls|
  {
    seq(n + 1, i requires 0 <= i <= n => CallRecord(calls[i].to, i < n))
  }

  /**
   * A run that reports a reason stops at the first call that fails: the calls before it succeed one
   * after the other, it is the last one recorded, and its reason is the only one.
   */
  lemma {:induction false} RunStopsAtFailure<L>(chain: Chain<L>, l: L, wallet: Address, calls: seq<PlannedCall>)
    returns (n: nat, ls: seq<L>)
    requires RunCalls(chain, l, wallet, calls).reasons != []
    ensures var run := RunCalls(chain, l, wallet, calls);
            && n < |calls| && Trace(chain, wallet, calls[..n], ls) && ls[0] == l
            && |run.reasons| == 1 && FailsAs(chain, ls[n], wallet, calls[n], run.ledger, run.reasons[0])
            && run.calls == FailureRecords(calls, n)
  {
    hide PreviewReason, LetsPass, Blame;
    var call := calls[0];
    var preview := chain.preview(l, Tx(wallet, call.to, call.data, 0));
    PreviewBlocksIff(call.rule, preview);
    var sent := SendOf(chain, l, wallet, call);
    if LetsPass(call.rule, preview) && sent.success {
      var m, rest := RunStopsAtFailure(chain, sent.ledger, wallet, calls[1..]);
      n, ls := m + 1, [l] + rest;
      TraceGrows(chain, l, wallet, calls, m, rest);
      assert FailureRecords(calls, n) == [CallRecord(call.to, true)] + FailureRecords(calls[1..], m);
    } else {
      n, ls := 0, [l];
      assert FailureRecords(calls, 0) == [CallRecord(call.to, false)];
    }
  }

  lemma TraceGrows<L>(chain: Chain<L>, l: L, wallet: Address, calls: seq<PlannedCall>, m: nat, rest: seq<L>)
    requires m < |calls| && Trace(chain, wallet, calls[1..][..m], rest)
    requires Succeeds(chain, l, wallet, calls[0], rest[0])
    ensures Trace(chain, wallet, calls[..m + 1], [l] + rest)
  {
    hide Succeeds;
    var ls := [l] + rest;
    forall i | 0 <= i < m + 1
      ensures Succeeds(chain, ls[i], wallet, calls[..m + 1][i], ls[i + 1])
    {
      if i > 0 {
        assert Succeeds(chain, rest[i - 1], wallet, calls[1..][..m][i - 1], rest[i]);
      }
    }
  }

  /** A risk read works exactly when there is a head block and each of its reads works. */
  lemma RiskReadIff<L>(w: World<L>, l: L)
    ensures RiskAtHead(w.chain, l, w.wallet).Ok?
       <==> && w.chain.hasHead(l) && w.chain.accountLiquidity(l, w.wallet).Ok? && w.chain.positions(l, w.wallet).Ok?
            && w.chain.oracleReads(l, w.wallet).Ok?
  {
  }

  // ---------- one probe ----------

  lemma RiskPassesIffSolvent<L>(w: World<L>, l: L)
    requires RiskAtHead(w.chain, l, w.wallet).Ok?
    ensures var positions := w.chain.positions(l, w.wallet);
            && w.chain.accountLiquidity(l, w.wallet).Ok? && positions.Ok?
            && (EvaluatePolicy(RiskAtHead(w.chain, l, w.wallet).value, w.policy).passed
               <==> Solvent(w.chain.accountLiquidity(l, w.wallet).value,
                            BorrowValue(positions.value, PricesAt(w.chain, l)), w.policy.minSafetyBufferBps))
  {
    PassesIffSolvent(w.chain.accountLiquidity(l, w.wallet).value,
                     BorrowValue(w.chain.positions(l, w.wallet).value, PricesAt(w.chain, l)), w.policy);
  }

  lemma BranchPassesIffSolvent<L>(w: World<L>, run: PlanRun<L>, plan: TransactionPlan)
    requires BranchAfterPlan(w, run, plan).Ok?
    ensures var b := BranchAfterPlan(w, run, plan).value;
            (b.allSucceeded && b.evaluation.passed) <==> (run.reasons == [] && SolventAfterChange(w, run.ledger))
  {
    if run.reasons == [] {
      RiskPassesIffSolvent(w, ApplyChange(w, run.ledger).ledger);
    }
  }

  /** A probe that does not throw is verified if and only if its plan rescues the wallet. */
  lemma ProbeVerifiedIffRescues<L(!new)>(w: World<L>, ctx: Context, amount: int)
    requires Probe(w, ctx, amount).Ok?
    ensures PlanFor(w, ctx, amount).Ok?
    ensures Probe(w, ctx, amount).value.verified <==> Rescues(w, PlanFor(w, ctx, amount).value.calls)
  {
    var plan := PlanFor(w, ctx, amount).value;
    var start := w.chain.fundForGas(w.ledger, w.wallet);
    var run := ExecutePlan(w, w.ledger, plan);
    BranchPassesIffSolvent(w, run, plan);
    if run.reasons == [] && SolventAfterChange(w, run.ledger) {
      CleanRunHasTrace(w.chain, start, w.wallet, plan.calls);
      assert RescuedBy(w, plan.calls, LedgersOf(w.chain, start, w.wallet, plan.calls));
    }
    if Rescues(w, plan.calls) {
      var ls :| RescuedBy(w, plan.calls, ls);
      TraceIsCleanRun(w.chain, w.wallet, plan.calls, ls);
    }
  }

  /** Every amount within the bound gets a plan: a probe can only throw while reading risk. */
  lemma PlanExistsWithinBound<L>(w: World<L>, ctx: Context, amount: int)
    requires ctx.boundRaw < TWO_256
    ensures PlanFor(w, ctx, amount).Ok? <==> 1 <= amount <= ctx.boundRaw
  {
    PlanBuiltIff(PlanInput(ctx.strategyType, ctx.market, ctx.underlying, w.comptroller, amount, ctx.boundRaw,
                           ctx.allowanceRaw, ctx.collateralEnabled, w.policy));
  }

  // ---------- the evidence ----------

  lemma {:induction false} ProbedAmountHasEvidence<L>(w: World<L>, ctx: Context, probes: seq<int>, amount: int)
    requires amount in probes && Probe(w, ctx, amount).Ok?
    ensures Probe(w, ctx, amount).value in Branches(w, ctx, probes)
  {
    if probes[|probes| - 1] != amount {
      ProbedAmountHasEvidence(w, ctx, probes[..|probes| - 1], amount);
    }
  }

  lemma {:induction false} EvidenceIsAProbe<L>(w: World<L>, ctx: Context, probes: seq<int>, b: BranchEvidence)
    requires b in Branches(w, ctx, probes)
    ensures b.amountRaw in probes && Probe(w, ctx, b.amountRaw) == Ok(b)
  {
    var front := probes[..|probes| - 1];
    if b in Branches(w, ctx, front) {
      EvidenceIsAProbe(w, ctx, front, b);
    }
  }

  lemma {:induction false} FindVerifiedFinds(branches: seq<BranchEvidence>, b: BranchEvidence)
    requires b in branches && b.verified
    ensures var r := FindVerified(branches, b.amountRaw);
            r.Some? && r.value in branches && r.value.verified && r.value.amountRaw == b.amountRaw
  {
    if branches[0] != b && !(branches[0].amountRaw == b.amountRaw && branches[0].verified) {
      FindVerifiedFinds(branches[1..], b);
    }
  }

  /** A verified branch reports exactly that the policy passed. */
  lemma VerifiedReportsPolicyPassed<L>(w: World<L>, ctx: Context, amount: int)
    requires Probe(w, ctx, amount).Ok? && Probe(w, ctx, amount).value.verified
    ensures Probe(w, ctx, amount).value.reasons == ["POLICY_PASSED"]
    ensures Probe(w, ctx, amount).value.shortfallRaw == 0
  {
    var plan := PlanFor(w, ctx, amount).value;
    var run := ExecutePlan(w, w.ledger, plan);
    BranchPassesIffSolvent(w, run, plan);
    RiskPassesIffSolvent(w, ApplyChange(w, run.ledger).ledger);
  }

  /**
   * What a probe reports: the success of every call made, the Comptroller's numbers for the ledger
   * these calls leave, and the reason of the call that failed or else what is wrong with that ledger.
   */
  lemma ProbeReports<L>(w: World<L>, ctx: Context, amount: int)
    requires Probe(w, ctx, amount).Ok?
    ensures var e, governor, change := Probe(w, ctx, amount).value, w.temporalGovernor, w.destination;
            var calls := PlanFor(w, ctx, amount).value.calls;
            var run := RunCalls(w.chain, w.chain.fundForGas(w.ledger, w.wallet), w.wallet, calls);
            var applied := w.chain.send(w.chain.fund(run.ledger, governor),
                                        Tx(governor, change.to, Opaque(change.payload), change.value));
            var end := if run.reasons == [] then applied.ledger else run.ledger;
            var account, positions := w.chain.accountLiquidity(end, w.wallet), w.chain.positions(end, w.wallet);
            && e.amountRaw == amount && account.Ok? && positions.Ok?
            && e.liquidityRaw == account.value.liquidityRaw && e.shortfallRaw == account.value.shortfallRaw
            && |e.callSuccess| == |run.calls| + (if run.reasons == [] then 1 else 0)
            && (forall i :: 0 <= i < |run.calls| ==> e.callSuccess[i] == run.calls[i].success)
            && (run.reasons == [] ==> e.callSuccess[|run.calls|] == applied.success)
            && e.reasons
               == if run.reasons != [] then run.reasons
                  else if !applied.success then [applied.error]
                  else
                    var borrowed := BorrowValue(positions.value, PricesAt(w.chain, end));
                    var wrong := Shortcomings(account.value, borrowed, w.policy.minSafetyBufferBps);
                    if wrong == [] then ["POLICY_PASSED"]
                    else wrong + if account.value.shortfallRaw > 0 then ["SHORTFALL_ABOVE_EXPECTED"] else []
  {
    hide RunCalls, BorrowValue, EvaluatePolicy, Shortcomings;
    var plan := PlanFor(w, ctx, amount).value;
    BuiltWithoutShortfall(w, ctx, amount);
    var run := ExecutePlan(w, w.ledger, plan);
    var end := if run.reasons == [] then ApplyChange(w, run.ledger).ledger else run.ledger;
    var account := w.chain.accountLiquidity(end, w.wallet).value;
    var borrowed := BorrowValue(w.chain.positions(end, w.wallet).value, PricesAt(w.chain, end));
    ReportsShortcomings(account, borrowed, w.policy);
    if Shortcomings(account, borrowed, w.policy.minSafetyBufferBps) == [] {
      NothingWrong(account, borrowed, w.policy.minSafetyBufferBps);
    }
  }

  lemma BuiltWithoutShortfall<L>(w: World<L>, ctx: Context, amount: int)
    requires PlanFor(w, ctx, amount).Ok?
    ensures PlanFor(w, ctx, amount).value.maxShortfallRaw == 0
  {
  }

  lemma NothingWrong(account: AccountLiquidity, borrowValueRaw: int, minBps: int)
    requires Shortcomings(account, borrowValueRaw, minBps) == []
    ensures account.shortfallRaw == 0
  {
  }

  /** The first position in the market is collateral. */
  ghost predicate FirstIsCollateral(positions: seq<Position>, market: Address) {
    exists i :: 0 <= i < |positions| && positions[i].market == market && positions[i].collateralEnabled
      && forall j :: 0 <= j < i ==> positions[j].market != market
  }

  lemma {:induction false} CollateralEnabledIff(positions: seq<Position>, market: Address)
    ensures CollateralEnabled(positions, market) <==> FirstIsCollateral(positions, market)
  {
    if positions != [] && positions[0].market != market {
      var rest := positions[1..];
      CollateralEnabledIff(rest, market);
      if FirstIsCollateral(rest, market) {
        var i :| 0 <= i < |rest| && rest[i].market == market && rest[i].collateralEnabled
          && forall j :: 0 <= j < i ==> rest[j].market != market;
        assert forall j :: 1 <= j < i + 1 ==> positions[j] == rest[j - 1];
        assert positions[i + 1] == rest[i];
      }
      if FirstIsCollateral(positions, market) {
        var i :| 0 <= i < |positions| && positions[i].market == market && positions[i].collateralEnabled
          && forall j :: 0 <= j < i ==> positions[j].market != market;
        assert rest[i - 1] == positions[i];
        assert forall j :: 0 <= j < i - 1 ==> rest[j] == positions[j + 1];
      }
    }
  }

  // ---------- what SearchAmounts returns ----------

  /** An answer was probed and passed. */
  lemma AnswerWasVerified<L>(w: World<L>, ctx: Context, s: Search)
    requires SearchAmounts(w, ctx) == Ok(s) && s.amount.Some? && 1 <= ctx.boundRaw
    ensures 1 <= s.amount.value <= ctx.boundRaw && s.amount.value in s.probes
    ensures Probe(w, ctx, s.amount.value).Ok? && Probe(w, ctx, s.amount.value).value.verified
  {
    if w.policy.optimizationGoal != MAX_SAFETY {
      AnswerPasses(TestOf(w, ctx), 1, ctx.boundRaw, w.maxProbes, s);
    }
  }

  /** A finished search that has an answer is reported as VERIFIED with that answer's plan; REJECTED never is. */
  lemma ResultIsVerified<L>(w: World<L>, ctx: Context, s: Search)
    requires SearchAmounts(w, ctx) == Ok(s) && 1 <= ctx.boundRaw
    ensures var r := ResultOf(w, ctx, s);
            && r.Ok?
            && r.value.status != REJECTED && r.value.status != NOT_REQUIRED
            && (r.value.status == INCOMPLETE <==> !s.complete)
            && (r.value.status == INFEASIBLE <==> s.complete && s.amount.None?)
            && (r.value.status == VERIFIED ==>
                  && r.value.amountRaw == s.amount
                  && r.value.plan == Some(PlanFor(w, ctx, s.amount.value).value)
                  && r.value.reasons == ["POLICY_PASSED"])
  {
    if s.amount.Some? {
      AnswerWasVerified(w, ctx, s);
      var amount := s.amount.value;
      ProbedAmountHasEvidence(w, ctx, s.probes, amount);
      FindVerifiedFinds(Branches(w, ctx, s.probes), Probe(w, ctx, amount).value);
      EvidenceIsAProbe(w, ctx, s.probes, FindVerified(Branches(w, ctx, s.probes), amount).value);
      VerifiedReportsPolicyPassed(w, ctx, amount);
    }
  }

  // ---------- the main results ----------

  /** A search that got past feasibility, the change on its own and the allowance read, to its first probe. */
  ghost predicate Searched<L>(w: World<L>, strategyType: StrategyType, ctx: Context) {
    && Assess(w, strategyType).Ok? && Assess(w, strategyType).value.Feasible?
    && ctx == ContextOf(w, strategyType, Assess(w, strategyType).value)
    && EvaluateChange(w).Ok? && !EvaluateChange(w).value.passed
    && w.chain.allowanceReads(w.pinned).Ok?
  }

  lemma FeasibleBoundFitsWord<L>(w: World<L>, strategyType: StrategyType)
    requires Assess(w, strategyType).Ok? && Assess(w, strategyType).value.Feasible?
    ensures 1 <= Assess(w, strategyType).value.boundRaw < TWO_256
  {
    if strategyType == REPAY_DEBT {
      RepayFeasibilitySound(w.positions, Balances(w), Prices(w), w.policy);
    } else {
      CollateralFeasibilitySound(w.markets, w.positions, Balances(w), Constraints(w), Prices(w), w.policy);
    }
  }

  /**
   * VERIFIED with amount a: the returned plan, run from the initial ledger and followed by the
   * governance call, succeeds at every call and leaves the wallet solvent. Under a minimising
   * goal, a - 1 would not do, whatever the ledger.
   */
  lemma VerifiedPlanRescues<L(!new)>(w: World<L>, strategyType: StrategyType, ctx: Context, r: SearchResult)
    requires Searched(w, strategyType, ctx)
    requires SearchStrategy(w, strategyType) == Ok(r) && r.status == VERIFIED
    ensures r.amountRaw.Some? && 1 <= r.amountRaw.value <= ctx.boundRaw
    ensures r.plan.Some? && Ok(r.plan.value) == PlanFor(w, ctx, r.amountRaw.value)
    ensures Rescues(w, r.plan.value.calls)
    ensures w.policy.optimizationGoal == MAX_SAFETY ==> r.amountRaw.value == ctx.boundRaw
    ensures w.policy.optimizationGoal != MAX_SAFETY && r.amountRaw.value > 1
        ==> PlanFor(w, ctx, r.amountRaw.value - 1).Ok?
            && !Rescues(w, PlanFor(w, ctx, r.amountRaw.value - 1).value.calls)
  {
    hide Probe, PlanFor, Rescues, Assess, EvaluateChange;
    FeasibleBoundFitsWord(w, strategyType);
    var s := SearchAmounts(w, ctx).value;
    ResultIsVerified(w, ctx, s);
    AnswerWasVerified(w, ctx, s);
    var a := s.amount.value;
    ProbeVerifiedIffRescues(w, ctx, a);
    if w.policy.optimizationGoal != MAX_SAFETY && a > 1 {
      BelowAnswerFailed(TestOf(w, ctx), 1, ctx.boundRaw, w.maxProbes, s);
      ProbeVerifiedIffRescues(w, ctx, a - 1);
    }
  }

  /** The change on its own passes exactly when it leaves the wallet solvent. */
  lemma ChangePassesIffSolvent<L>(w: World<L>)
    requires EvaluateChange(w).Ok?
    ensures EvaluateChange(w).value.passed <==> SolventAfterChange(w, w.ledger)
  {
    var applied := ApplyChange(w, w.ledger);
    if applied.success && w.chain.hasHead(applied.ledger) {
      RiskPassesIffSolvent(w, applied.ledger);
    }
  }

  /**
   * The statuses of a search that does not throw: NOT_REQUIRED exactly when a feasible strategy is not
   * needed, VERIFIED exactly with a plan, INCOMPLETE only with the budget used up, REJECTED never.
   */
  lemma StatusMeaning<L(!new)>(w: World<L>, strategyType: StrategyType, r: SearchResult)
    requires SearchStrategy(w, strategyType) == Ok(r)
    ensures r.status != REJECTED
    ensures r.status == NOT_REQUIRED
       <==> Assess(w, strategyType).value.Feasible? && SolventAfterChange(w, w.ledger)
    ensures r.plan.Some? <==> r.status == VERIFIED
    ensures r.status == INCOMPLETE ==> r.probes == w.maxProbes
  {
    hide Probe, PlanFor, EvaluateChange, SolventAfterChange, Assess;
    var f := Assess(w, strategyType).value;
    if f.Feasible? {
      ChangePassesIffSolvent(w);
    }
    if f.Feasible? && !EvaluateChange(w).value.passed {
      FeasibleBoundFitsWord(w, strategyType);
      var ctx := ContextOf(w, strategyType, f);
      var s := SearchAmounts(w, ctx).value;
      ResultIsVerified(w, ctx, s);
      if w.policy.optimizationGoal != MAX_SAFETY && w.maxProbes > 0 {
        ProbesWithinBudget(TestOf(w, ctx), 1, ctx.boundRaw, w.maxProbes, s);
      }
    }
  }

  lemma PassedChangeReports<L>(w: World<L>)
    requires EvaluateChange(w).Ok? && EvaluateChange(w).value.passed
    ensures EvaluateChange(w).value.reasons == ["POLICY_PASSED"]
  {
  }

  /** A search throws what the first of its reads throws: at the anchor, in the change, of the allowance. */
  lemma SearchThrows<L>(w: World<L>, strategyType: StrategyType)
    ensures w.chain.anchorReads(w.pinned).Err? ==>
              SearchStrategy(w, strategyType) == Err(w.chain.anchorReads(w.pinned).error)
    ensures Assess(w, strategyType).Ok? && Assess(w, strategyType).value.Feasible? ==>
              && (EvaluateChange(w).Err? ==> SearchStrategy(w, strategyType) == Err(EvaluateChange(w).error))
              && (EvaluateChange(w).Ok? && !SolventAfterChange(w, w.ledger)
                  && w.chain.allowanceReads(w.pinned).Err? ==>
                    SearchStrategy(w, strategyType) == Err(w.chain.allowanceReads(w.pinned).error))
  {
    hide EvaluateChange, SolventAfterChange, AssessRepayFeasibility, CollateralFeasibility;
    hide Balances, Prices, Constraints, SearchWithin;
    if EvaluateChange(w).Ok? {
      ChangePassesIffSolvent(w);
    }
  }

  /** What each status is reported with. */
  lemma ReportsByStatus<L>(w: World<L>, strategyType: StrategyType, r: SearchResult)
    requires SearchStrategy(w, strategyType) == Ok(r)
    ensures var f := Assess(w, strategyType).value;
            && r.strategyType == strategyType
            && (f.Infeasible? ==> r == SearchResult(strategyType, INFEASIBLE, None, 0, f.reasons, None, [], 0))
            && (f.Feasible? ==> r.boundRaw == f.boundRaw)
            && (r.status == NOT_REQUIRED ==>
                  r.reasons == ["POST_CHANGE_POLICY_PASSES", "POLICY_PASSED"] && r.amountRaw == Some(0))
            && (r.status == VERIFIED ==> r.reasons == ["POLICY_PASSED"])
            && (r.status == INCOMPLETE ==> r.reasons == ["PROBE_BUDGET_EXHAUSTED"])
            && (r.status == INFEASIBLE && f.Feasible? ==>
                  r.reasons == ["NO_AMOUNT_PASSES_POLICY"] + f.reasons && r.amountRaw == None)
  {
    hide EvaluateChange, Assess, PlanFor, Branches, SearchAmounts, FindVerified;
    var f := Assess(w, strategyType).value;
    if f.Feasible? {
      FeasibleBoundFitsWord(w, strategyType);
      var ctx := ContextOf(w, strategyType, f);
      if EvaluateChange(w).value.passed {
        PassedChangeReports(w);
      } else {
        ResultIsVerified(w, ctx, SearchAmounts(w, ctx).value);
      }
    }
  }

  /**
   * A search that found nothing: with a positive budget, repaying or supplying the whole bound
   * does not rescue the wallet. With no budget the same answer is given without a probe.
   */
  lemma InfeasibleMeansBoundFails<L(!new)>(w: World<L>, strategyType: StrategyType, ctx: Context, r: SearchResult)
    requires Searched(w, strategyType, ctx)
    requires SearchStrategy(w, strategyType) == Ok(r) && r.status == INFEASIBLE
    ensures w.policy.optimizationGoal == MAX_SAFETY || w.maxProbes > 0
        ==> PlanFor(w, ctx, ctx.boundRaw).Ok? && !Rescues(w, PlanFor(w, ctx, ctx.boundRaw).value.calls)
    ensures w.policy.optimizationGoal != MAX_SAFETY && w.maxProbes <= 0 ==> r.branches == [] && r.probes == 0
  {
    FeasibleBoundFitsWord(w, strategyType);
    var s := SearchAmounts(w, ctx).value;
    ResultIsVerified(w, ctx, s);
    if w.policy.optimizationGoal == MAX_SAFETY {
      ProbeVerifiedIffRescues(w, ctx, ctx.boundRaw);
    } else if w.maxProbes > 0 {
      CompleteNullProbedHigh(TestOf(w, ctx), 1, ctx.boundRaw, w.maxProbes, s);
      ProbeVerifiedIffRescues(w, ctx, ctx.boundRaw);
    }
  }

  /** No search with a minimising goal and no budget ever finds a rescue. */
  lemma NoBudgetNeverRescues<L>(w: World<L>, strategyType: StrategyType, ctx: Context)
    requires Searched(w, strategyType, ctx) && w.policy.optimizationGoal != MAX_SAFETY && w.maxProbes <= 0
    ensures SearchStrategy(w, strategyType).Ok? && SearchStrategy(w, strategyType).value.status == INFEASIBLE
  {
    hide Assess, EvaluateChange, Verdict, BuildPlan;
  }

  /** More of the asset never undoes a rescue. */
  ghost predicate AmountMonotone<L(!new)>(w: World<L>, ctx: Context) {
    forall a, b :: 1 <= a <= b <= ctx.boundRaw && Verdict(w, ctx, a) == Ok(true) ==> Verdict(w, ctx, b) == Ok(true)
  }

  /**
   * On an amount-monotone ledger the verified amount is the least rescuing one, and with a
   * positive budget "nothing found" means that no amount up to the bound rescues.
   */
  lemma MonotoneSearchIsOptimal<L(!new)>(
      w: World<L>, strategyType: StrategyType, ctx: Context, r: SearchResult, amount: int)
    requires Searched(w, strategyType, ctx) && AmountMonotone(w, ctx)
    requires w.policy.optimizationGoal != MAX_SAFETY && w.maxProbes > 0
    requires SearchStrategy(w, strategyType) == Ok(r)
    requires 1 <= amount <= ctx.boundRaw && Probe(w, ctx, amount).Ok?
    ensures r.status == VERIFIED
        ==> (Rescues(w, PlanFor(w, ctx, amount).value.calls) <==> r.amountRaw.value <= amount)
    ensures r.status == INFEASIBLE ==> !Rescues(w, PlanFor(w, ctx, amount).value.calls)
    ensures r.status == INCOMPLETE && r.amountRaw.Some? && r.amountRaw.value <= amount
        ==> Rescues(w, PlanFor(w, ctx, amount).value.calls)
  {
    hide Probe, PlanFor, Rescues, Assess, EvaluateChange;
    FeasibleBoundFitsWord(w, strategyType);
    var s := SearchAmounts(w, ctx).value;
    ResultIsVerified(w, ctx, s);
    var test := TestOf(w, ctx);
    assert Monotone(test, 1, ctx.boundRaw);
    MonotoneAnswerIsGlobalMinimum(test, 1, ctx.boundRaw, w.maxProbes, s);
    ProbeVerifiedIffRescues(w, ctx, amount);
    assert Probe(w, ctx, amount).value.verified <==> test(amount) == Ok(true);
  }

  /** Raising the buffer above the measured one forces a search exactly when the change leaves some debt. */
  lemma RaisedBufferForcesSearchIffDebt<L>(w: World<L>)
    requires EvaluateChange(w).Ok? && EvaluateChange(w).value.passed
    ensures var raised := w.(policy := Raised(w.policy, EvaluateChange(w).value.riskBufferBps));
            var after := ApplyChange(w, w.ledger).ledger;
            && EvaluateChange(raised).Ok? && w.chain.positions(after, w.wallet).Ok?
            && (EvaluateChange(raised).value.passed
                <==> BorrowValue(w.chain.positions(after, w.wallet).value, PricesAt(w.chain, after)) == 0)
  {
    var raised := w.(policy := Raised(w.policy, EvaluateChange(w).value.riskBufferBps));
    assert ApplyChange(raised, w.ledger) == ApplyChange(w, w.ledger);
  }

  /**
   * A comparison is the change on its own and two searches of the same world, one of each type. When
   * asked to, and when the change passes, they search with a buffer of one more than the measured one.
   */
  lemma ComparesBoth<L>(w: World<L>, raise: bool)
    requires CompareStrategies(w, raise).Ok?
    ensures var c := CompareStrategies(w, raise).value;
            var measured := c.changeOnly.riskBufferBps;
            && EvaluateChange(w) == Ok(c.changeOnly)
            && c.policy.minSafetyBufferBps
               == (if !raise || !c.changeOnly.passed then w.policy.minSafetyBufferBps
                   else if measured.Some? then measured.value + 1 else 1)
            && c.policy.(minSafetyBufferBps := w.policy.minSafetyBufferBps) == w.policy
            && SearchStrategy(w.(policy := c.policy), REPAY_DEBT) == Ok(c.repay)
            && SearchStrategy(w.(policy := c.policy), ADD_COLLATERAL) == Ok(c.addCollateral)
            && c.repay.strategyType == REPAY_DEBT && c.addCollateral.strategyType == ADD_COLLATERAL
  {
    hide EvaluateChange, SearchStrategy;
    var searched := w.(policy := CompareStrategies(w, raise).value.policy);
    SearchedType(searched, REPAY_DEBT);
    SearchedType(searched, ADD_COLLATERAL);
  }

  lemma SearchedType<L>(w: World<L>, strategyType: StrategyType)
    requires SearchStrategy(w, strategyType).Ok?
    ensures SearchStrategy(w, strategyType).value.strategyType == strategyType
  {
    hide EvaluateChange, Assess, SearchAmounts, PlanFor, Branches, FindVerified;
  }

  /** A comparison that raises the buffer searches both strategies whenever the change leaves some debt. */
  lemma RaisedComparisonSearches<L(!new)>(w: World<L>)
    requires CompareStrategies(w, true).Ok? && CompareStrategies(w, true).value.changeOnly.passed
    ensures var c := CompareStrategies(w, true).value;
            var after := ApplyChange(w, w.ledger).ledger;
            && w.chain.positions(after, w.wallet).Ok?
            && (BorrowValue(w.chain.positions(after, w.wallet).value, PricesAt(w.chain, after)) > 0 ==>
                  c.repay.status != NOT_REQUIRED && c.addCollateral.status != NOT_REQUIRED)
  {
    hide EvaluateChange, SearchStrategy, ApplyChange, BorrowValue, SolventAfterChange, Assess;
    var c := CompareStrategies(w, true).value;
    RaisedBufferForcesSearchIffDebt(w);
    ChangePassesIffSolvent(w.(policy := c.policy));
    StatusMeaning(w.(policy := c.policy), REPAY_DEBT, c.repay);
    StatusMeaning(w.(policy := c.policy), ADD_COLLATERAL, c.addCollateral);
  }
}
