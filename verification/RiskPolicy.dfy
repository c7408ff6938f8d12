/**
 * packages/risk-engine: Comptroller status, safety buffer and policy evaluation,
 * and the oracle floor-sum of packages/protocol-moonwell/src/strategy/oracle.ts.
 */
module RiskPolicy {
  import opened Wrappers

  const MAX_BUFFER_BPS: int := 1_000_000
  const MANTISSA: int := 1_000_000_000_000_000_000

  datatype RiskStatus = SAFE | AT_RISK | SHORTFALL | UNKNOWN

  datatype OptimizationGoal = MIN_CAPITAL | MAX_SAFETY | MIN_TX_COUNT

  type Address = nat

  /** A policy cap is a string in the source; it either is a decimal integer or is rejected. */
  datatype PolicyMax = Decimal(raw: nat) | NotDecimal

  datatype UserRiskPolicy = UserRiskPolicy(
    minSafetyBufferBps: int,
    optimizationGoal: OptimizationGoal,
    allowRepayDebt: bool,
    allowAddCollateral: bool,
    maxRepayRawByAsset: map<Address, PolicyMax>,
    maxCollateralRawByAsset: map<Address, PolicyMax>)

  /** What getAccountLiquidity returns; three unsigned words. */
  datatype AccountLiquidity = AccountLiquidity(error: nat, liquidityRaw: nat, shortfallRaw: nat)

  /** derived is absent until withDerivedBuffer fills it in. */
  datatype Derived = Derived(safetyBufferBps: Option<int>, borrowValueRaw: int)

  datatype RiskState = RiskState(
    liquidityRaw: int,
    shortfallRaw: int,
    status: RiskStatus,
    derived: Option<Derived>)

  datatype PolicyEvaluation = PolicyEvaluation(passed: bool, reasons: seq<string>)

  datatype Position = Position(
    market: Address,
    underlying: Address,
    borrowedRaw: int,
    collateralEnabled: bool)

  function ClassifyRisk(liquidityRaw: int, shortfallRaw: int): RiskStatus {
    if shortfallRaw > 0 then SHORTFALL
    else if liquidityRaw == 0 then AT_RISK
    else SAFE
  }

  function ClassifyComptrollerLiquidity(account: AccountLiquidity): RiskStatus {
    if account.error != 0 then UNKNOWN
    else ClassifyRisk(account.liquidityRaw, account.shortfallRaw)
  }

  /** Both operands of the division are positive, so Euclidean and BigInt division agree. */
  function ComputeSafetyBufferBps(liquidityRaw: int, borrowValueRaw: int): (bps: Option<int>)
    ensures bps.Some? ==> 0 <= bps.value <= MAX_BUFFER_BPS
  {
    if borrowValueRaw <= 0 then None
    else if liquidityRaw <= 0 then Some(0)
    else
      var raw := liquidityRaw * 10000 / borrowValueRaw;
      if raw > MAX_BUFFER_BPS then Some(MAX_BUFFER_BPS) else Some(raw)
  }

  function WithDerivedBuffer(state: RiskState, borrowValueRaw: int): RiskState {
    state.(derived := Some(Derived(ComputeSafetyBufferBps(state.liquidityRaw, borrowValueRaw), borrowValueRaw)))
  }

  function BufferReasons(state: RiskState, policy: UserRiskPolicy): seq<string> {
    if policy.minSafetyBufferBps <= 0 || (state.derived.Some? && state.derived.value.borrowValueRaw == 0) then []
    else if state.derived.None? || state.derived.value.safetyBufferBps.None? then ["SAFETY_BUFFER_UNAVAILABLE"]
    else if state.derived.value.safetyBufferBps.value < policy.minSafetyBufferBps then ["SAFETY_BUFFER_BELOW_MINIMUM"]
    else []
  }

  function EvaluatePolicy(state: RiskState, policy: UserRiskPolicy): PolicyEvaluation {
    var reasons :=
      (if state.status == UNKNOWN then ["UNKNOWN_STATUS"] else [])
      + (if state.status == SHORTFALL then ["SHORTFALL"] else [])
      + BufferReasons(state, policy);
    PolicyEvaluation(reasons == [], if reasons == [] then ["POLICY_PASSED"] else reasons)
  }

  /** The state the adapter builds from one getAccountLiquidity read. */
  function StateOf(account: AccountLiquidity): RiskState {
    RiskState(account.liquidityRaw, account.shortfallRaw, ClassifyComptrollerLiquidity(account), None)
  }

  /** Each status by the three words of the read. */
  lemma StatusIff(account: AccountLiquidity)
    ensures var status := StateOf(account).status;
            && (status == UNKNOWN <==> account.error > 0)
            && (status == SHORTFALL <==> account.error == 0 && account.shortfallRaw > 0)
            && (status == AT_RISK <==> account.error == 0 && account.shortfallRaw == 0 && account.liquidityRaw == 0)
            && (status == SAFE <==> account.error == 0 && account.shortfallRaw == 0 && account.liquidityRaw > 0)
  {
  }

  /**
   * What passing means, in exact arithmetic on the Comptroller's numbers: no error, no
   * shortfall, and, when a buffer is demanded and there is debt, liquidity over borrow
   * value at least the demanded ratio, which must not exceed the cap.
   */
  predicate Solvent(account: AccountLiquidity, borrowValueRaw: int, minBps: int) {
    && account.error == 0
    && account.shortfallRaw == 0
    && (|| minBps <= 0
        || borrowValueRaw == 0
        || (minBps <= MAX_BUFFER_BPS && 10000 * account.liquidityRaw >= minBps * borrowValueRaw))
  }

  lemma FloorQuotientBound(n: int, d: int, k: int)
    requires d > 0
    ensures n / d >= k <==> n >= k * d
  {
    var q := n / d;
    assert q * d <= n < (q + 1) * d;
    if q >= k {
      assert k * d <= q * d;
    } else {
      assert (q + 1) * d <= k * d;
    }
  }

  /** Despite the floor and the cap, the policy passes exactly on the solvent states. */
  lemma PassesIffSolvent(account: AccountLiquidity, borrowValueRaw: nat, policy: UserRiskPolicy)
    ensures EvaluatePolicy(WithDerivedBuffer(StateOf(account), borrowValueRaw), policy).passed
       <==> Solvent(account, borrowValueRaw, policy.minSafetyBufferBps)
  {
    if borrowValueRaw > 0 {
      FloorQuotientBound(account.liquidityRaw * 10000, borrowValueRaw, policy.minSafetyBufferBps);
      if account.liquidityRaw == 0 && policy.minSafetyBufferBps > 0 {
        assert policy.minSafetyBufferBps * borrowValueRaw > 0;
      }
    }
  }

  /** What is wrong with a state, in the same terms. */
  function Shortcomings(account: AccountLiquidity, borrowValueRaw: int, minBps: int): seq<string> {
    (if account.error != 0 then ["UNKNOWN_STATUS"] else if account.shortfallRaw > 0 then ["SHORTFALL"] else [])
    + if minBps <= 0 || borrowValueRaw == 0
         || (minBps <= MAX_BUFFER_BPS && 10000 * account.liquidityRaw >= minBps * borrowValueRaw)
      then [] else ["SAFETY_BUFFER_BELOW_MINIMUM"]
  }

  /** The policy reports exactly what is wrong, or that nothing is. */
  lemma ReportsShortcomings(account: AccountLiquidity, borrowValueRaw: nat, policy: UserRiskPolicy)
    ensures var e := EvaluatePolicy(WithDerivedBuffer(StateOf(account), borrowValueRaw), policy);
            var wrong := Shortcomings(account, borrowValueRaw, policy.minSafetyBufferBps);
            e.passed == (wrong == []) && e.reasons == if wrong == [] then ["POLICY_PASSED"] else wrong
  {
    if borrowValueRaw > 0 {
      FloorQuotientBound(account.liquidityRaw * 10000, borrowValueRaw, policy.minSafetyBufferBps);
      if account.liquidityRaw == 0 && policy.minSafetyBufferBps > 0 {
        assert policy.minSafetyBufferBps * borrowValueRaw > 0;
      }
    }
  }

  lemma ScaleMonotone(k: int, x: int, y: int)
    requires k >= 0 && x <= y
    ensures k * x <= k * y
  {
  }

  /** More liquidity and less debt never turn a passing state into a failing one. */
  lemma PassingIsMonotone(account: AccountLiquidity, better: AccountLiquidity,
                          borrowValueRaw: nat, lessDebt: nat, policy: UserRiskPolicy)
    requires EvaluatePolicy(WithDerivedBuffer(StateOf(account), borrowValueRaw), policy).passed
    requires better.error == 0 && better.shortfallRaw == 0
    requires account.liquidityRaw <= better.liquidityRaw && lessDebt <= borrowValueRaw
    ensures EvaluatePolicy(WithDerivedBuffer(StateOf(better), lessDebt), policy).passed
  {
    PassesIffSolvent(account, borrowValueRaw, policy);
    PassesIffSolvent(better, lessDebt, policy);
    var min := policy.minSafetyBufferBps;
    if min > 0 && lessDebt > 0 {
      ScaleMonotone(min, lessDebt, borrowValueRaw);
      assert 10000 * better.liquidityRaw >= 10000 * account.liquidityRaw;
    }
  }

  // ---------- the borrow value ----------

  /** Borrows that have a positive amount and a positive price are the ones counted. */
  predicate Priced(position: Position, prices: Address -> int) {
    position.borrowedRaw > 0 && prices(position.market) > 0
  }

  function BorrowValue(positions: seq<Position>, prices: Address -> int): (total: nat) {
    if positions == [] then 0
    else
      var last := positions[|positions| - 1];
      BorrowValue(positions[..|positions| - 1], prices)
      + if Priced(last, prices) then last.borrowedRaw * prices(last.market) / MANTISSA else 0
  }

  /** The loop of readBorrowValueRaw. */
  method ReadBorrowValueRaw(positions: seq<Position>, prices: Address -> int) returns (total: int)
    ensures total == BorrowValue(positions, prices)
  {
    total := 0;
    for i := 0 to |positions|
      invariant total == BorrowValue(positions[..i], prices)
    {
      assert positions[..i + 1][..i] == positions[..i];
      var position := positions[i];
      if position.borrowedRaw > 0 {
        var price := prices(position.market);
        if price > 0 {
          total := total + position.borrowedRaw * price / MANTISSA;
        }
      }
    }
    assert positions[..|positions|] == positions;
  }

  /** The exact sum, scaled by the mantissa, with no rounding. */
  function ExactBorrowValue(positions: seq<Position>, prices: Address -> int): (total: nat) {
    if positions == [] then 0
    else
      var last := positions[|positions| - 1];
      ExactBorrowValue(positions[..|positions| - 1], prices)
      + if Priced(last, prices) then last.borrowedRaw * prices(last.market) else 0
  }

  function PricedCount(positions: seq<Position>, prices: Address -> int): (n: nat) {
    if positions == [] then 0
    else
      PricedCount(positions[..|positions| - 1], prices)
      + if Priced(positions[|positions| - 1], prices) then 1 else 0
  }

  /** The floor-sum never over-counts, and misses less than one unit per priced borrow. */
  lemma {:induction false} BorrowValueRounding(positions: seq<Position>, prices: Address -> int)
    ensures MANTISSA * BorrowValue(positions, prices) <= ExactBorrowValue(positions, prices)
    ensures ExactBorrowValue(positions, prices)
         <= MANTISSA * BorrowValue(positions, prices) + (MANTISSA - 1) * PricedCount(positions, prices)
  {
    if positions != [] {
      BorrowValueRounding(positions[..|positions| - 1], prices);
    }
  }
}
