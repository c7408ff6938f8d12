/**
 * Which asset the assessors of packages/protocol-moonwell/src/strategy/feasibility.ts choose, and
 * when they find none, in terms of the positions, the markets and the limits on them.
 */
module FeasibilityChoice {
  import opened Wrappers
  import opened RiskPolicy
  import opened AnvilFork
  import opened Feasibility

  /** The value of an amount at a price, in whole units; an asset without a positive price is worth 0. */
  function Worth(amount: int, market: Address, prices: map<Address, int>): int {
    if market in prices && prices[market] > 0 then amount * prices[market] / MANTISSA else 0
  }

  /** The user's maximum for an asset, if there is one, is a number and allows the amount. */
  ghost predicate WithinMax(maxima: map<Address, PolicyMax>, asset: Address, amount: int) {
    asset in maxima ==> maxima[asset].Decimal? && amount <= maxima[asset].raw
  }

  // ---------- repaying ----------

  /** A positive amount that is owed, held and allowed. */
  ghost predicate CanRepay(p: Position, amount: int, balances: map<Address, Uint256>, policy: UserRiskPolicy) {
    && 1 <= amount <= p.borrowedRaw
    && p.underlying in balances && amount <= balances[p.underlying]
    && WithinMax(policy.maxRepayRawByAsset, p.underlying, amount)
  }

  ghost predicate MostToRepay(p: Position, amount: int, balances: map<Address, Uint256>, policy: UserRiskPolicy) {
    CanRepay(p, amount, balances, policy) && forall a :: CanRepay(p, a, balances, policy) ==> a <= amount
  }

  ghost predicate NothingToRepay(p: Position, balances: map<Address, Uint256>, policy: UserRiskPolicy) {
    forall a :: !CanRepay(p, a, balances, policy)
  }

  lemma RepayBound(p: Position, balances: map<Address, Uint256>, policy: UserRiskPolicy)
    requires p.borrowedRaw > 0 && ParsePolicyMax(policy.maxRepayRawByAsset, p.underlying).Ok?
    ensures var max := ParsePolicyMax(policy.maxRepayRawByAsset, p.underlying).value;
            var bound := MinBound([p.borrowedRaw, OrElse(Lookup(balances, p.underlying), 0),
                                   OrElse(max, p.borrowedRaw)]);
            if bound > 0 then MostToRepay(p, bound, balances, policy) else NothingToRepay(p, balances, policy)
  {
    hide MinBound;
    var max := ParsePolicyMax(policy.maxRepayRawByAsset, p.underlying).value;
    MinOfThree(p.borrowedRaw, OrElse(Lookup(balances, p.underlying), 0), OrElse(max, p.borrowedRaw));
  }

  ghost predicate IsRepayment(
      c: Candidate, p: Position, balances: map<Address, Uint256>, prices: map<Address, int>, policy: UserRiskPolicy)
  {
    && c.market == p.market && c.underlying == p.underlying && MostToRepay(p, c.bound, balances, policy)
    && c.usd == Worth(c.bound, p.market, prices) && c.reasons == ["HAS_DEBT", "HAS_UNDERLYING_BALANCE"]
  }

  /** Positions in a list, from lo on and below hi, in order. */
  ghost predicate Ascend(at: seq<nat>, lo: nat, hi: nat) {
    && (forall i :: 0 <= i < |at| ==> lo <= at[i] < hi)
    && (forall i, j :: 0 <= i < j < |at| ==> at[i] < at[j])
  }

  /** The candidates stand for these positions, and no other one admits an amount. */
  ghost predicate RepaymentsAt(
      cs: seq<Candidate>, at: seq<nat>, from: nat, positions: seq<Position>, balances: map<Address, Uint256>,
      prices: map<Address, int>, policy: UserRiskPolicy)
  {
    && |at| == |cs| && Ascend(at, from, |positions|)
    && (forall i :: 0 <= i < |cs| ==> IsRepayment(cs[i], positions[at[i]], balances, prices, policy))
    && (forall k: nat :: from <= k < |positions| && k !in at ==> NothingToRepay(positions[k], balances, policy))
  }

  /** What the first position contributes. */
  lemma FirstRepayment(p: Position, balances: map<Address, Uint256>, prices: map<Address, int>, policy: UserRiskPolicy)
    ensures p.borrowedRaw <= 0 ==> NothingToRepay(p, balances, policy)
    ensures p.borrowedRaw > 0 && ParsePolicyMax(policy.maxRepayRawByAsset, p.underlying).Ok? ==>
              var max := ParsePolicyMax(policy.maxRepayRawByAsset, p.underlying).value;
              var bound := MinBound([p.borrowedRaw, OrElse(Lookup(balances, p.underlying), 0),
                                     OrElse(max, p.borrowedRaw)]);
              && (bound <= 0 <==> NothingToRepay(p, balances, policy))
              && (bound > 0 ==> MostToRepay(p, bound, balances, policy)
                                && UsdValue(bound, Lookup(prices, p.market)) == Worth(bound, p.market, prices))
  {
    hide MinBound;
    if p.borrowedRaw > 0 && ParsePolicyMax(policy.maxRepayRawByAsset, p.underlying).Ok? {
      RepayBound(p, balances, policy);
    }
  }

  lemma NoRepaymentFirst(
      cs: seq<Candidate>, at: seq<nat>, from: nat, positions: seq<Position>, balances: map<Address, Uint256>,
      prices: map<Address, int>, policy: UserRiskPolicy)
    requires from < |positions| && RepaymentsAt(cs, at, from + 1, positions, balances, prices, policy)
    requires NothingToRepay(positions[from], balances, policy)
    ensures RepaymentsAt(cs, at, from, positions, balances, prices, policy)
  {
    hide NothingToRepay, IsRepayment;
  }

  lemma RepaymentFirst(
      c: Candidate, cs: seq<Candidate>, at: seq<nat>, from: nat, positions: seq<Position>,
      balances: map<Address, Uint256>, prices: map<Address, int>, policy: UserRiskPolicy)
    requires from < |positions| && RepaymentsAt(cs, at, from + 1, positions, balances, prices, policy)
    requires IsRepayment(c, positions[from], balances, prices, policy)
    ensures RepaymentsAt([c] + cs, [from] + at, from, positions, balances, prices, policy)
  {
    hide NothingToRepay, IsRepayment;
  }

  lemma {:induction false} RepayCandidatesAre(
      positions: seq<Position>, from: nat, balances: map<Address, Uint256>, prices: map<Address, int>,
      policy: UserRiskPolicy)
    returns (at: seq<nat>)
    requires from <= |positions| && RepayCandidates(positions[from..], balances, prices, policy).Ok?
    ensures RepaymentsAt(RepayCandidates(positions[from..], balances, prices, policy).value, at, from, positions,
                         balances, prices, policy)
    decreases |positions| - from
  {
    hide MostToRepay, NothingToRepay, MinBound, UsdValue, Worth, RepaymentsAt;
    if from == |positions| {
      at := [];
      NoRepayments(positions, balances, prices, policy);
    } else {
      var p := positions[from];
      assert positions[from..][0] == p && positions[from..][1..] == positions[from + 1..];
      var rest := RepayCandidatesAre(positions, from + 1, balances, prices, policy);
      var cs := RepayCandidates(positions[from + 1..], balances, prices, policy).value;
      FirstRepayment(p, balances, prices, policy);
      if NothingToRepay(p, balances, policy) {
        at := rest;
        NoRepaymentFirst(cs, rest, from, positions, balances, prices, policy);
      } else {
        at := [from] + rest;
        var c := RepayCandidates(positions[from..], balances, prices, policy).value[0];
        RepaymentFirst(c, cs, rest, from, positions, balances, prices, policy);
      }
    }
  }

  lemma NoRepayments(
      positions: seq<Position>, balances: map<Address, Uint256>, prices: map<Address, int>, policy: UserRiskPolicy)
    ensures RepaymentsAt([], [], |positions|, positions, balances, prices, policy)
  {
  }

  /** The first of the positions whose most repayable amount is worth most. */
  ghost predicate BestRepayment(
      k: nat, bound: int, positions: seq<Position>, balances: map<Address, Uint256>, prices: map<Address, int>,
      policy: UserRiskPolicy)
  {
    && k < |positions| && MostToRepay(positions[k], bound, balances, policy)
    && forall j: nat, a :: j < |positions| && MostToRepay(positions[j], a, balances, policy) ==>
         && Worth(a, positions[j].market, prices) <= Worth(bound, positions[k].market, prices)
         && (j < k ==> Worth(a, positions[j].market, prices) < Worth(bound, positions[k].market, prices))
  }

  ghost predicate SomethingToRepay(positions: seq<Position>, balances: map<Address, Uint256>, policy: UserRiskPolicy) {
    exists p, amount :: p in positions && CanRepay(p, amount, balances, policy)
  }

  /** An open debt whose maximum is not a number. */
  ghost predicate MalformedRepayMax(positions: seq<Position>, policy: UserRiskPolicy) {
    exists p :: p in positions && p.borrowedRaw > 0 && p.underlying in policy.maxRepayRawByAsset
      && policy.maxRepayRawByAsset[p.underlying].NotDecimal?
  }

  lemma {:induction false} RepayErrorsIff(
      positions: seq<Position>, balances: map<Address, Uint256>, prices: map<Address, int>, policy: UserRiskPolicy)
    ensures RepayCandidates(positions, balances, prices, policy).Err? <==> MalformedRepayMax(positions, policy)
  {
    hide MinBound, UsdValue;
    if positions != [] {
      RepayErrorsIff(positions[1..], balances, prices, policy);
      assert positions == [positions[0]] + positions[1..];
    }
  }

  lemma FirstBestRepayment(
      cs: seq<Candidate>, at: seq<nat>, k: nat, positions: seq<Position>, balances: map<Address, Uint256>,
      prices: map<Address, int>, policy: UserRiskPolicy)
    requires RepaymentsAt(cs, at, 0, positions, balances, prices, policy) && FirstBest(cs, k)
    ensures BestRepayment(at[k], cs[k].bound, positions, balances, prices, policy)
  {
    hide Worth, CanRepay;
    forall j: nat, a | j < |positions| && MostToRepay(positions[j], a, balances, policy)
      ensures Worth(a, positions[j].market, prices) <= Worth(cs[k].bound, positions[at[k]].market, prices)
      ensures j < at[k] ==>
                Worth(a, positions[j].market, prices) < Worth(cs[k].bound, positions[at[k]].market, prices)
    {
      assert !NothingToRepay(positions[j], balances, policy);
      var i :| 0 <= i < |at| && at[i] == j;
      assert IsRepayment(cs[i], positions[j], balances, prices, policy);
      assert cs[i].bound == a;
    }
  }

  /**
   * Repaying is infeasible exactly when the policy disallows it or no position has an amount that is
   * owed, held and allowed. Otherwise it is the first of the positions whose largest such amount is
   * worth most, with that amount. It throws exactly when it is allowed and an open debt has a maximum
   * that is not a number.
   */
  lemma RepayChoice(
      positions: seq<Position>, balances: map<Address, Uint256>, prices: map<Address, int>, policy: UserRiskPolicy)
    ensures var f := AssessRepayFeasibility(positions, balances, prices, policy);
            && (f.Err? <==> policy.allowRepayDebt && MalformedRepayMax(positions, policy))
            && (!policy.allowRepayDebt ==> f == Ok(Infeasible(["POLICY_DISALLOWS_REPAY"])))
            && (policy.allowRepayDebt && f.Ok? ==>
                  if SomethingToRepay(positions, balances, policy)
                  then && f.value.Feasible? && f.value.reasons == ["HAS_DEBT", "HAS_UNDERLYING_BALANCE"]
                       && exists k: nat ::
                            && BestRepayment(k, f.value.boundRaw, positions, balances, prices, policy)
                            && f.value.market == positions[k].market && f.value.underlying == positions[k].underlying
                  else f.value == Infeasible(["NO_REPAY_ASSET_AT_ANCHOR"]))
  {
    hide RepayCandidates, BestRepayment, SortByUsd;
    RepayErrorsIff(positions, balances, prices, policy);
    if policy.allowRepayDebt && !MalformedRepayMax(positions, policy) {
      var cs := RepayCandidates(positions, balances, prices, policy).value;
      assert positions[0..] == positions;
      var at := RepayCandidatesAre(positions, 0, balances, prices, policy);
      if cs == [] {
        forall p, amount | p in positions
          ensures !CanRepay(p, amount, balances, policy)
        {
          var k :| 0 <= k < |positions| && positions[k] == p;
          assert NothingToRepay(positions[k], balances, policy);
        }
      } else {
        var k := SortPutsFirstBestFirst(cs);
        FirstBestRepayment(cs, at, k, positions, balances, prices, policy);
        assert IsRepayment(cs[k], positions[at[k]], balances, prices, policy);
        assert CanRepay(positions[at[k]], cs[k].bound, balances, policy);
      }
    }
  }

  // ---------- adding collateral ----------

  /** A market that can be supplied to. */
  ghost predicate Mintable(m: Market, constraints: map<Address, MarketConstraints>) {
    && m.supported && m.listed && m.underlying.Some?
    && m.market in constraints && !constraints[m.market].mintPaused
  }

  /** A positive amount that is held, allowed and still under the cap. */
  ghost predicate CanMint(
      m: Market, amount: int, balances: map<Address, Uint256>, constraints: map<Address, MarketConstraints>,
      policy: UserRiskPolicy)
  {
    && Mintable(m, constraints)
    && m.underlying.value in balances && 1 <= amount <= balances[m.underlying.value]
    && (constraints[m.market].remainingSupplyRaw.Some? ==> amount <= constraints[m.market].remainingSupplyRaw.value)
    && WithinMax(policy.maxCollateralRawByAsset, m.underlying.value, amount)
  }

  ghost predicate MostToMint(
      m: Market, amount: int, balances: map<Address, Uint256>, constraints: map<Address, MarketConstraints>,
      policy: UserRiskPolicy)
  {
    && CanMint(m, amount, balances, constraints, policy)
    && forall a :: CanMint(m, a, balances, constraints, policy) ==> a <= amount
  }

  ghost predicate NothingToMint(
      m: Market, balances: map<Address, Uint256>, constraints: map<Address, MarketConstraints>, policy: UserRiskPolicy)
  {
    forall a :: !CanMint(m, a, balances, constraints, policy)
  }

  /** The last position in the market is collateral. */
  ghost predicate IsCollateral(positions: seq<Position>, market: Address) {
    exists i :: 0 <= i < |positions| && positions[i].market == market && positions[i].collateralEnabled
      && forall j :: i < j < |positions| ==> positions[j].market != market
  }

  lemma {:induction false} EnteredIff(positions: seq<Position>, market: Address)
    ensures EnteredAsCollateral(positions, market) <==> IsCollateral(positions, market)
  {
    if positions != [] {
      var n := |positions| - 1;
      var front := positions[..n];
      EnteredIff(front, market);
      if positions[n].market == market {
        if positions[n].collateralEnabled {
          assert IsCollateral(positions, market);
        }
      } else {
        if IsCollateral(front, market) {
          var i :| 0 <= i < n && front[i].market == market && front[i].collateralEnabled
            && forall j :: i < j < n ==> front[j].market != market;
          assert positions[i] == front[i];
        }
        if IsCollateral(positions, market) {
          var i :| 0 <= i < |positions| && positions[i].market == market && positions[i].collateralEnabled
            && forall j :: i < j < |positions| ==> positions[j].market != market;
          assert front[i] == positions[i];
        }
      }
    }
  }

  ghost predicate IsMint(
      c: Candidate, m: Market, positions: seq<Position>, balances: map<Address, Uint256>,
      constraints: map<Address, MarketConstraints>, prices: map<Address, int>, policy: UserRiskPolicy)
  {
    && c.market == m.market && m.underlying == Some(c.underlying)
    && MostToMint(m, c.bound, balances, constraints, policy)
    && c.usd == Worth(c.bound, m.market, prices)
    && c.reasons == ["HAS_WALLET_BALANCE", "MINT_NOT_PAUSED"]
                    + if IsCollateral(positions, m.market) then ["ALREADY_COLLATERAL"] else []
  }

  /** A market whose balance is positive and whose maximum is not a number. */
  ghost predicate MalformedMintMax(
      m: Market, balances: map<Address, Uint256>, constraints: map<Address, MarketConstraints>, policy: UserRiskPolicy)
  {
    && Mintable(m, constraints)
    && m.underlying.value in balances && balances[m.underlying.value] > 0
    && m.underlying.value in policy.maxCollateralRawByAsset
    && policy.maxCollateralRawByAsset[m.underlying.value].NotDecimal?
  }

  lemma MintBound(
      m: Market, balances: map<Address, Uint256>, constraints: map<Address, MarketConstraints>, policy: UserRiskPolicy)
    requires Mintable(m, constraints) && m.underlying.value in balances
    requires ParsePolicyMax(policy.maxCollateralRawByAsset, m.underlying.value).Ok?
    ensures var balance := balances[m.underlying.value];
            var max := ParsePolicyMax(policy.maxCollateralRawByAsset, m.underlying.value).value;
            var bound := MinBound([balance, OrElse(max, balance),
                                   OrElse(constraints[m.market].remainingSupplyRaw, balance)]);
            if bound > 0 then MostToMint(m, bound, balances, constraints, policy)
            else NothingToMint(m, balances, constraints, policy)
  {
    hide MinBound;
    var balance := balances[m.underlying.value];
    var max := ParsePolicyMax(policy.maxCollateralRawByAsset, m.underlying.value).value;
    MinOfThree(balance, OrElse(max, balance), OrElse(constraints[m.market].remainingSupplyRaw, balance));
  }

  lemma OneMarket(
      m: Market, positions: seq<Position>, balances: map<Address, Uint256>,
      constraints: map<Address, MarketConstraints>, prices: map<Address, int>, policy: UserRiskPolicy)
    ensures var one := CollateralCandidate(m, positions, balances, constraints, prices, policy);
            && (one.Err? <==> MalformedMintMax(m, balances, constraints, policy))
            && (one.Ok? ==>
                  && (NothingToMint(m, balances, constraints, policy) <==> one.value == [])
                  && (one.value != [] ==>
                        |one.value| == 1
                        && IsMint(one.value[0], m, positions, balances, constraints, prices, policy)))
  {
    hide MinBound, EnteredAsCollateral, IsCollateral;
    EnteredIff(positions, m.market);
    if Mintable(m, constraints) && m.underlying.value in balances
       && ParsePolicyMax(policy.maxCollateralRawByAsset, m.underlying.value).Ok? {
      MintBound(m, balances, constraints, policy);
    }
  }

  /** The candidates stand for these markets, and no other one of the first n admits an amount. */
  ghost predicate MintsAt(
      cs: seq<Candidate>, at: seq<nat>, n: nat, markets: seq<Market>, positions: seq<Position>,
      balances: map<Address, Uint256>, constraints: map<Address, MarketConstraints>, prices: map<Address, int>,
      policy: UserRiskPolicy)
  {
    && n <= |markets| && |at| == |cs| && Ascend(at, 0, n)
    && (forall i :: 0 <= i < |cs| ==>
          IsMint(cs[i], markets[at[i]], positions, balances, constraints, prices, policy))
    && (forall k: nat :: k < n && k !in at ==> NothingToMint(markets[k], balances, constraints, policy))
  }

  lemma NoMintLast(
      cs: seq<Candidate>, at: seq<nat>, n: nat, markets: seq<Market>, positions: seq<Position>,
      balances: map<Address, Uint256>, constraints: map<Address, MarketConstraints>, prices: map<Address, int>,
      policy: UserRiskPolicy)
    requires n < |markets| && MintsAt(cs, at, n, markets, positions, balances, constraints, prices, policy)
    requires NothingToMint(markets[n], balances, constraints, policy)
    ensures MintsAt(cs, at, n + 1, markets, positions, balances, constraints, prices, policy)
  {
    hide NothingToMint, IsMint;
  }

  lemma MintLast(
      cs: seq<Candidate>, c: Candidate, at: seq<nat>, n: nat, markets: seq<Market>, positions: seq<Position>,
      balances: map<Address, Uint256>, constraints: map<Address, MarketConstraints>, prices: map<Address, int>,
      policy: UserRiskPolicy)
    requires n < |markets| && MintsAt(cs, at, n, markets, positions, balances, constraints, prices, policy)
    requires IsMint(c, markets[n], positions, balances, constraints, prices, policy)
    ensures MintsAt(cs + [c], at + [n], n + 1, markets, positions, balances, constraints, prices, policy)
  {
    hide NothingToMint, IsMint;
    assert forall k: nat :: k < n && k !in at + [n] ==> k !in at;
  }

  lemma {:induction false} CollateralCandidatesAre(
      markets: seq<Market>, n: nat, positions: seq<Position>, balances: map<Address, Uint256>,
      constraints: map<Address, MarketConstraints>, prices: map<Address, int>, policy: UserRiskPolicy)
    returns (at: seq<nat>)
    requires n <= |markets|
    requires CollateralCandidates(markets[..n], positions, balances, constraints, prices, policy).Ok?
    ensures MintsAt(CollateralCandidates(markets[..n], positions, balances, constraints, prices, policy).value, at, n,
                    markets, positions, balances, constraints, prices, policy)
  {
    hide CollateralCandidate, IsMint, NothingToMint, MintsAt;
    if n == 0 {
      at := [];
      NoMints(markets, positions, balances, constraints, prices, policy);
    } else {
      var m := markets[n - 1];
      assert markets[..n][..n - 1] == markets[..n - 1] && markets[..n][n - 1] == m;
      var cs := CollateralCandidates(markets[..n - 1], positions, balances, constraints, prices, policy).value;
      var earlier := CollateralCandidatesAre(markets, n - 1, positions, balances, constraints, prices, policy);
      var one := CollateralCandidate(m, positions, balances, constraints, prices, policy).value;
      OneMarket(m, positions, balances, constraints, prices, policy);
      if one == [] {
        at := earlier;
        assert cs + one == cs;
        NoMintLast(cs, earlier, n - 1, markets, positions, balances, constraints, prices, policy);
      } else {
        at := earlier + [n - 1];
        assert one == [one[0]];
        MintLast(cs, one[0], earlier, n - 1, markets, positions, balances, constraints, prices, policy);
      }
    }
  }

  lemma NoMints(
      markets: seq<Market>, positions: seq<Position>, balances: map<Address, Uint256>,
      constraints: map<Address, MarketConstraints>, prices: map<Address, int>, policy: UserRiskPolicy)
    ensures MintsAt([], [], 0, markets, positions, balances, constraints, prices, policy)
  {
  }

  lemma {:induction false} CollateralErrorsIff(
      markets: seq<Market>, positions: seq<Position>, balances: map<Address, Uint256>,
      constraints: map<Address, MarketConstraints>, prices: map<Address, int>, policy: UserRiskPolicy)
    ensures CollateralCandidates(markets, positions, balances, constraints, prices, policy).Err?
       <==> exists m :: m in markets && MalformedMintMax(m, balances, constraints, policy)
  {
    hide CollateralCandidate, MalformedMintMax;
    if markets != [] {
      var front, last := markets[..|markets| - 1], markets[|markets| - 1];
      CollateralErrorsIff(front, positions, balances, constraints, prices, policy);
      OneMarket(last, positions, balances, constraints, prices, policy);
      assert markets == front + [last];
    }
  }

  /** The first of the markets whose most mintable amount is worth most. */
  ghost predicate BestMint(
      k: nat, bound: int, markets: seq<Market>, balances: map<Address, Uint256>,
      constraints: map<Address, MarketConstraints>, prices: map<Address, int>, policy: UserRiskPolicy)
  {
    && k < |markets| && MostToMint(markets[k], bound, balances, constraints, policy)
    && forall j: nat, a :: j < |markets| && MostToMint(markets[j], a, balances, constraints, policy) ==>
         && Worth(a, markets[j].market, prices) <= Worth(bound, markets[k].market, prices)
         && (j < k ==> Worth(a, markets[j].market, prices) < Worth(bound, markets[k].market, prices))
  }

  lemma FirstBestMint(
      cs: seq<Candidate>, at: seq<nat>, k: nat, markets: seq<Market>, positions: seq<Position>,
      balances: map<Address, Uint256>, constraints: map<Address, MarketConstraints>, prices: map<Address, int>,
      policy: UserRiskPolicy)
    requires MintsAt(cs, at, |markets|, markets, positions, balances, constraints, prices, policy) && FirstBest(cs, k)
    ensures BestMint(at[k], cs[k].bound, markets, balances, constraints, prices, policy)
  {
    hide Worth, CanMint;
    forall j: nat, a | j < |markets| && MostToMint(markets[j], a, balances, constraints, policy)
      ensures Worth(a, markets[j].market, prices) <= Worth(cs[k].bound, markets[at[k]].market, prices)
      ensures j < at[k] ==> Worth(a, markets[j].market, prices) < Worth(cs[k].bound, markets[at[k]].market, prices)
    {
      assert !NothingToMint(markets[j], balances, constraints, policy);
      var i :| 0 <= i < |at| && at[i] == j;
      assert IsMint(cs[i], markets[j], positions, balances, constraints, prices, policy);
      assert cs[i].bound == a;
    }
  }

  ghost predicate SomethingToMint(
      markets: seq<Market>, balances: map<Address, Uint256>, constraints: map<Address, MarketConstraints>,
      policy: UserRiskPolicy)
  {
    exists m, amount :: m in markets && CanMint(m, amount, balances, constraints, policy)
  }

  /** The same for collateral: the first of the markets whose largest mintable amount is worth most. */
  lemma CollateralChoice(
      markets: seq<Market>, positions: seq<Position>, balances: map<Address, Uint256>,
      constraints: map<Address, MarketConstraints>, prices: map<Address, int>, policy: UserRiskPolicy)
    ensures var f := CollateralFeasibility(markets, positions, balances, constraints, prices, policy);
            && (f.Err? <==>
                  policy.allowAddCollateral
                  && exists m :: m in markets && MalformedMintMax(m, balances, constraints, policy))
            && (!policy.allowAddCollateral ==> f == Ok(Infeasible(["POLICY_DISALLOWS_ADD_COLLATERAL"])))
            && (policy.allowAddCollateral && f.Ok? ==>
                  if SomethingToMint(markets, balances, constraints, policy)
                  then && f.value.Feasible?
                       && exists k: nat ::
                            && BestMint(k, f.value.boundRaw, markets, balances, constraints, prices, policy)
                            && f.value.market == markets[k].market
                            && markets[k].underlying == Some(f.value.underlying)
                            && f.value.reasons
                               == ["HAS_WALLET_BALANCE", "MINT_NOT_PAUSED"]
                                  + if IsCollateral(positions, markets[k].market) then ["ALREADY_COLLATERAL"] else []
                  else f.value == Infeasible(["NO_MINTABLE_COLLATERAL_AT_ANCHOR"]))
  {
    hide CollateralCandidates, BestMint, SortByUsd, MalformedMintMax, IsCollateral;
    CollateralErrorsIff(markets, positions, balances, constraints, prices, policy);
    var all := CollateralCandidates(markets, positions, balances, constraints, prices, policy);
    if policy.allowAddCollateral && all.Ok? {
      var cs := all.value;
      assert markets[..|markets|] == markets;
      var at := CollateralCandidatesAre(markets, |markets|, positions, balances, constraints, prices, policy);
      if cs == [] {
        forall m, amount | m in markets
          ensures !CanMint(m, amount, balances, constraints, policy)
        {
          var k :| 0 <= k < |markets| && markets[k] == m;
          assert NothingToMint(markets[k], balances, constraints, policy);
        }
      } else {
        var k := SortPutsFirstBestFirst(cs);
        FirstBestMint(cs, at, k, markets, positions, balances, constraints, prices, policy);
        assert IsMint(cs[k], markets[at[k]], positions, balances, constraints, prices, policy);
        assert CanMint(markets[at[k]], cs[k].bound, balances, constraints, policy);
      }
    }
  }
}
