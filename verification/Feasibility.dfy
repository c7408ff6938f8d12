/** packages/protocol-moonwell/src/strategy/feasibility.ts and packages/strategy-engine/src/amounts.ts. */
module Feasibility {
  import opened Wrappers
  import opened RiskPolicy
  import opened AnvilFork

  datatype StrategyType = REPAY_DEBT | ADD_COLLATERAL

  datatype Market = Market(market: Address, underlying: Option<Address>, supported: bool, listed: bool)

  datatype MarketConstraints = MarketConstraints(mintPaused: bool, remainingSupplyRaw: Option<nat>)

  /** market and underlying are present exactly when feasible. */
  datatype StrategyFeasibility =
    | Infeasible(reasons: seq<string>)
    | Feasible(market: Address, underlying: Address, boundRaw: int, reasons: seq<string>)

  /** One asset that could be used, with the largest usable amount and its value. */
  datatype Candidate = Candidate(market: Address, underlying: Address, bound: int, usd: int, reasons: seq<string>)

  function Min(x: int, y: int): int {
    if y < x then y else x
  }

  function MinBound(values: seq<int>): (low: int)
    ensures values == [] ==> low == 0
    ensures values != [] ==> low in values && forall v :: v in values ==> low <= v
  {
    if values == [] then 0
    else if |values| == 1 then values[0]
    else
      var rest := MinBound(values[..|values| - 1]);
      assert values == values[..|values| - 1] + [values[|values| - 1]];
      Min(rest, values[|values| - 1])
  }

  lemma MinOfThree(a: int, b: int, c: int)
    ensures var m := MinBound([a, b, c]); m <= a && m <= b && m <= c && (m == a || m == b || m == c)
  {
    var values := [a, b, c];
    assert values[0] in values && values[1] in values && values[2] in values;
  }

  function ParsePolicyMax(caps: map<Address, PolicyMax>, asset: Address): Result<Option<nat>> {
    if asset !in caps then Ok(None)
    else if caps[asset].NotDecimal? then Err("Policy max amount is not a decimal integer")
    else Ok(Some(caps[asset].raw))
  }

  function UsdValue(amount: nat, price: Option<int>): (usd: nat)
    ensures usd > 0 ==> price.Some? && price.value > 0
  {
    if price.None? || price.value <= 0 then 0 else amount * price.value / MANTISSA
  }

  function OrElse(x: Option<nat>, y: int): int {
    if x.Some? then x.value else y
  }

  function Lookup<V>(m: map<Address, V>, key: Address): Option<V> {
    if key in m then Some(m[key]) else None
  }

  /** Supply still allowed under the cap; a zero cap means no cap. */
  function ConstraintsOf(onChain: MarketReads): MarketConstraints {
    var totalUnderlyingRaw := onChain.totalSupply * onChain.exchangeRate / MANTISSA;
    MarketConstraints(
      onChain.mintPaused,
      if onChain.supplyCapRaw == 0 then None
      else if onChain.supplyCapRaw > totalUnderlyingRaw then Some(onChain.supplyCapRaw - totalUnderlyingRaw)
      else Some(0))
  }

  /** A mint within the remaining supply keeps the market's underlying at or below its cap. */
  lemma RemainingSupplyRespectsCap(onChain: MarketReads, amount: nat)
    requires onChain.supplyCapRaw != 0
    ensures ConstraintsOf(onChain).remainingSupplyRaw.Some?
    ensures 0 < amount <= ConstraintsOf(onChain).remainingSupplyRaw.value
       <==> amount > 0 && onChain.totalSupply * onChain.exchangeRate / MANTISSA + amount <= onChain.supplyCapRaw
  {
  }

  // ---------- stable sort by value, largest first ----------

  function InsertByUsd(c: Candidate, sorted: seq<Candidate>): (r: seq<Candidate>)
    ensures |r| == |sorted| + 1
  {
    if sorted == [] || c.usd >= sorted[0].usd then [c] + sorted
    else [sorted[0]] + InsertByUsd(c, sorted[1..])
  }

  /** Array.prototype.sort is stable; inserting from the right before equals is the same order. */
  function SortByUsd(candidates: seq<Candidate>): (r: seq<Candidate>)
    ensures |r| == |candidates|
  {
    if candidates == [] then [] else InsertByUsd(candidates[0], SortByUsd(candidates[1..]))
  }

  /** k is the position of the first most valuable candidate. */
  ghost predicate FirstBest(candidates: seq<Candidate>, k: nat) {
    && k < |candidates|
    && (forall j :: 0 <= j < |candidates| ==> candidates[j].usd <= candidates[k].usd)
    && (forall j :: 0 <= j < k ==> candidates[j].usd < candidates[k].usd)
  }

  lemma {:induction false} SortPutsFirstBestFirst(candidates: seq<Candidate>) returns (k: nat)
    requires candidates != []
    ensures FirstBest(candidates, k) && SortByUsd(candidates)[0] == candidates[k]
  {
    if |candidates| == 1 {
      k := 0;
    } else {
      var rest := candidates[1..];
      var r := SortPutsFirstBestFirst(rest);
      assert forall j :: 0 < j < |candidates| ==> candidates[j] == rest[j - 1];
      k := if candidates[0].usd >= rest[r].usd then 0 else r + 1;
    }
  }

  // ---------- repay ----------

  function RepayCandidates(
    positions: seq<Position>, balances: map<Address, Uint256>, prices: map<Address, int>, policy: UserRiskPolicy)
    : Result<seq<Candidate>>
  {
    if positions == [] then Ok([])
    else
      var position := positions[0];
      if position.borrowedRaw <= 0 then RepayCandidates(positions[1..], balances, prices, policy)
      else
        var balance := OrElse(Lookup(balances, position.underlying), 0);
        var max :- ParsePolicyMax(policy.maxRepayRawByAsset, position.underlying);
        var bound := MinBound([position.borrowedRaw, balance, OrElse(max, position.borrowedRaw)]);
        var rest :- RepayCandidates(positions[1..], balances, prices, policy);
        if bound <= 0 then Ok(rest)
        else
          var usd := UsdValue(bound, Lookup(prices, position.market));
          Ok([Candidate(position.market, position.underlying, bound, usd, ["HAS_DEBT", "HAS_UNDERLYING_BALANCE"])]
             + rest)
  }

  function Choose(candidates: seq<Candidate>, reason: string): StrategyFeasibility {
    if candidates == [] then Infeasible([reason])
    else
      var best := SortByUsd(candidates)[0];
      Feasible(best.market, best.underlying, best.bound, best.reasons)
  }

  function AssessRepayFeasibility(
    positions: seq<Position>, balances: map<Address, Uint256>, prices: map<Address, int>, policy: UserRiskPolicy)
    : Result<StrategyFeasibility>
  {
    if !policy.allowRepayDebt then Ok(Infeasible(["POLICY_DISALLOWS_REPAY"]))
    else
      var candidates :- RepayCandidates(positions, balances, prices, policy);
      Ok(Choose(candidates, "NO_REPAY_ASSET_AT_ANCHOR"))
  }

  // ---------- add collateral ----------

  /** The Map built from positions keeps the last entry of a repeated market. */
  function EnteredAsCollateral(positions: seq<Position>, market: Address): bool {
    if positions == [] then false
    else if positions[|positions| - 1].market == market then positions[|positions| - 1].collateralEnabled
    else EnteredAsCollateral(positions[..|positions| - 1], market)
  }

  /** The candidate one market yields, or none when the loop skips it. */
  function CollateralCandidate(
    market: Market, positions: seq<Position>, balances: map<Address, Uint256>,
    constraints: map<Address, MarketConstraints>, prices: map<Address, int>, policy: UserRiskPolicy)
    : Result<seq<Candidate>>
  {
    if !market.supported || market.underlying.None? || !market.listed then Ok([])
    else if market.market !in constraints || constraints[market.market].mintPaused then Ok([])
    else
      var underlying := market.underlying.value;
      var balance := OrElse(Lookup(balances, underlying), 0);
      if balance <= 0 then Ok([])
      else
        var max :- ParsePolicyMax(policy.maxCollateralRawByAsset, underlying);
        var remaining := constraints[market.market].remainingSupplyRaw;
        var bound := MinBound([balance, OrElse(max, balance), OrElse(remaining, balance)]);
        if bound <= 0 then Ok([])
        else
          var reasons := ["HAS_WALLET_BALANCE", "MINT_NOT_PAUSED"]
            + if EnteredAsCollateral(positions, market.market) then ["ALREADY_COLLATERAL"] else [];
          Ok([Candidate(market.market, underlying, bound, UsdValue(bound, Lookup(prices, market.market)), reasons)])
  }

  function CollateralCandidates(
    markets: seq<Market>, positions: seq<Position>, balances: map<Address, Uint256>,
    constraints: map<Address, MarketConstraints>, prices: map<Address, int>, policy: UserRiskPolicy)
    : Result<seq<Candidate>>
  {
    if markets == [] then Ok([])
    else
      var earlier :- CollateralCandidates(markets[..|markets| - 1], positions, balances, constraints, prices, policy);
      var last :- CollateralCandidate(markets[|markets| - 1], positions, balances, constraints, prices, policy);
      Ok(earlier + last)
  }

  function CollateralFeasibility(
    markets: seq<Market>, positions: seq<Position>, balances: map<Address, Uint256>,
    constraints: map<Address, MarketConstraints>, prices: map<Address, int>, policy: UserRiskPolicy)
    : Result<StrategyFeasibility>
  {
    if !policy.allowAddCollateral then Ok(Infeasible(["POLICY_DISALLOWS_ADD_COLLATERAL"]))
    else
      var candidates :- CollateralCandidates(markets, positions, balances, constraints, prices, policy);
      Ok(Choose(candidates, "NO_MINTABLE_COLLATERAL_AT_ANCHOR"))
  }

  /** Errors of a prefix are errors of the whole list. */
  lemma {:induction false} CandidateErrorPersists(
    markets: seq<Market>, k: nat, positions: seq<Position>, balances: map<Address, Uint256>,
    constraints: map<Address, MarketConstraints>, prices: map<Address, int>, policy: UserRiskPolicy)
    requires k <= |markets|
    requires CollateralCandidates(markets[..k], positions, balances, constraints, prices, policy).Err?
    ensures CollateralCandidates(markets, positions, balances, constraints, prices, policy)
         == CollateralCandidates(markets[..k], positions, balances, constraints, prices, policy)
  {
    if k == |markets| {
      assert markets[..k] == markets;
    } else {
      assert markets[..|markets| - 1][..k] == markets[..k];
      CandidateErrorPersists(markets[..|markets| - 1], k, positions, balances, constraints, prices, policy);
    }
  }

  /** The loop of assessAddCollateralFeasibility. */
  method AssessAddCollateralFeasibility(
    markets: seq<Market>, positions: seq<Position>, balances: map<Address, Uint256>,
    constraints: map<Address, MarketConstraints>, prices: map<Address, int>, policy: UserRiskPolicy)
    returns (r: Result<StrategyFeasibility>)
    ensures r == CollateralFeasibility(markets, positions, balances, constraints, prices, policy)
  {
    if !policy.allowAddCollateral {
      return Ok(Infeasible(["POLICY_DISALLOWS_ADD_COLLATERAL"]));
    }
    var candidates: seq<Candidate> := [];
    for i := 0 to |markets|
      invariant CollateralCandidates(markets[..i], positions, balances, constraints, prices, policy) == Ok(candidates)
    {
      assert markets[..i + 1][..i] == markets[..i];
      var one := CollateralCandidate(markets[i], positions, balances, constraints, prices, policy);
      if one.Err? {
        CandidateErrorPersists(markets, i + 1, positions, balances, constraints, prices, policy);
        return Err(one.error);
      }
      candidates := candidates + one.value;
    }
    assert markets[..|markets|] == markets;
    r := Ok(Choose(candidates, "NO_MINTABLE_COLLATERAL_AT_ANCHOR"));
  }

  // ---------- what a feasible answer guarantees ----------

  /** The largest amount repayable in one position: what is owed, held and allowed. */
  ghost predicate UsableRepay(
      c: Candidate, position: Position, balances: map<Address, Uint256>, policy: UserRiskPolicy)
  {
    && c.market == position.market && c.underlying == position.underlying
    && 1 <= c.bound <= position.borrowedRaw
    && c.underlying in balances && c.bound <= balances[c.underlying]
    && (c.underlying in policy.maxRepayRawByAsset ==>
          policy.maxRepayRawByAsset[c.underlying].Decimal? && c.bound <= policy.maxRepayRawByAsset[c.underlying].raw)
    && (|| c.bound == position.borrowedRaw
        || c.bound == balances[c.underlying]
        || (c.underlying in policy.maxRepayRawByAsset && c.bound == policy.maxRepayRawByAsset[c.underlying].raw))
  }

  lemma {:induction false} RepayCandidatesUsable(
    positions: seq<Position>, balances: map<Address, Uint256>, prices: map<Address, int>, policy: UserRiskPolicy)
    requires RepayCandidates(positions, balances, prices, policy).Ok?
    ensures forall c :: c in RepayCandidates(positions, balances, prices, policy).value ==>
              exists p :: p in positions && UsableRepay(c, p, balances, policy)
  {
    if positions != [] {
      var rest := positions[1..];
      RepayCandidatesUsable(rest, balances, prices, policy);
      var all := RepayCandidates(positions, balances, prices, policy).value;
      forall c | c in all
        ensures exists p :: p in positions && UsableRepay(c, p, balances, policy)
      {
        if c in RepayCandidates(rest, balances, prices, policy).value {
          var p :| p in rest && UsableRepay(c, p, balances, policy);
          assert p in positions;
        } else {
          assert c == all[0];
          var position := positions[0];
          var max := ParsePolicyMax(policy.maxRepayRawByAsset, position.underlying).value;
          MinOfThree(position.borrowedRaw, OrElse(Lookup(balances, position.underlying), 0),
                     OrElse(max, position.borrowedRaw));
          assert UsableRepay(c, positions[0], balances, policy);
        }
      }
    }
  }

  /**
   * A feasible repayment names an open debt and the largest amount the debt, the wallet and
   * the policy allow, and no other usable debt is worth more.
   */
  lemma RepayFeasibilitySound(
    positions: seq<Position>, balances: map<Address, Uint256>, prices: map<Address, int>, policy: UserRiskPolicy)
    requires var f := AssessRepayFeasibility(positions, balances, prices, policy); f.Ok? && f.value.Feasible?
    ensures var f := AssessRepayFeasibility(positions, balances, prices, policy).value;
            && policy.allowRepayDebt
            && 1 <= f.boundRaw < TWO_256
            && (exists c, p :: p in positions && UsableRepay(c, p, balances, policy)
                  && c.market == f.market && c.underlying == f.underlying && c.bound == f.boundRaw
                  && forall other :: other in RepayCandidates(positions, balances, prices, policy).value ==>
                       other.usd <= c.usd)
  {
    var candidates := RepayCandidates(positions, balances, prices, policy).value;
    var k := SortPutsFirstBestFirst(candidates);
    RepayCandidatesUsable(positions, balances, prices, policy);
    var best := candidates[k];
    assert best in candidates;
    var p :| p in positions && UsableRepay(best, p, balances, policy);
    assert forall other :: other in candidates ==> other.usd <= best.usd;
  }

  /** The largest amount mintable in one market: what is held, allowed and still under the cap. */
  ghost predicate UsableMint(c: Candidate, m: Market, balances: map<Address, Uint256>,
                             constraints: map<Address, MarketConstraints>, policy: UserRiskPolicy) {
    && c.market == m.market && m.underlying == Some(c.underlying) && m.supported && m.listed
    && c.underlying in balances && 1 <= c.bound <= balances[c.underlying]
    && m.market in constraints && !constraints[m.market].mintPaused
    && (var room := constraints[m.market].remainingSupplyRaw; room.Some? ==> c.bound <= room.value)
    && (c.underlying in policy.maxCollateralRawByAsset ==>
          && policy.maxCollateralRawByAsset[c.underlying].Decimal?
          && c.bound <= policy.maxCollateralRawByAsset[c.underlying].raw)
    && (|| c.bound == balances[c.underlying]
        || Some(c.bound) == constraints[m.market].remainingSupplyRaw
        || (c.underlying in policy.maxCollateralRawByAsset
            && c.bound == policy.maxCollateralRawByAsset[c.underlying].raw))
  }

  lemma {:induction false} CollateralCandidatesUsable(
    markets: seq<Market>, positions: seq<Position>, balances: map<Address, Uint256>,
    constraints: map<Address, MarketConstraints>, prices: map<Address, int>, policy: UserRiskPolicy)
    requires CollateralCandidates(markets, positions, balances, constraints, prices, policy).Ok?
    ensures forall c :: c in CollateralCandidates(markets, positions, balances, constraints, prices, policy).value ==>
              exists m :: m in markets && UsableMint(c, m, balances, constraints, policy)
  {
    if markets != [] {
      var front, last := markets[..|markets| - 1], markets[|markets| - 1];
      CollateralCandidatesUsable(front, positions, balances, constraints, prices, policy);
      forall c | c in CollateralCandidates(markets, positions, balances, constraints, prices, policy).value
        ensures exists m :: m in markets && UsableMint(c, m, balances, constraints, policy)
      {
        if c in CollateralCandidates(front, positions, balances, constraints, prices, policy).value {
          var m :| m in front && UsableMint(c, m, balances, constraints, policy);
          assert m in markets;
        } else {
          var balance := balances[last.underlying.value];
          var max := ParsePolicyMax(policy.maxCollateralRawByAsset, last.underlying.value).value;
          MinOfThree(balance, OrElse(max, balance), OrElse(constraints[last.market].remainingSupplyRaw, balance));
          assert UsableMint(c, last, balances, constraints, policy);
        }
      }
    }
  }

  /**
   * A feasible mint names a listed, unpaused market and the largest amount the wallet, the policy and
   * the cap allow.
   */
  lemma CollateralFeasibilitySound(
    markets: seq<Market>, positions: seq<Position>, balances: map<Address, Uint256>,
    constraints: map<Address, MarketConstraints>, prices: map<Address, int>, policy: UserRiskPolicy)
    requires var f := CollateralFeasibility(markets, positions, balances, constraints, prices, policy);
             f.Ok? && f.value.Feasible?
    ensures var f := CollateralFeasibility(markets, positions, balances, constraints, prices, policy).value;
            && policy.allowAddCollateral
            && 1 <= f.boundRaw < TWO_256
            && (exists c, m :: m in markets && UsableMint(c, m, balances, constraints, policy)
                  && c.market == f.market && c.underlying == f.underlying && c.bound == f.boundRaw
                  && forall other ::
                       other in CollateralCandidates(markets, positions, balances, constraints, prices, policy).value
                       ==> other.usd <= c.usd)
  {
    var candidates := CollateralCandidates(markets, positions, balances, constraints, prices, policy).value;
    var k := SortPutsFirstBestFirst(candidates);
    CollateralCandidatesUsable(markets, positions, balances, constraints, prices, policy);
    var best := candidates[k];
    assert best in candidates;
    var m :| m in markets && UsableMint(best, m, balances, constraints, policy);
    assert forall other :: other in candidates ==> other.usd <= best.usd;
  }
}
