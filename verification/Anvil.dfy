/**
 * The forked chain a search runs on. What the EVM does is abstract: a `Chain` is any
 * deterministic set of rules over any ledger type. `Anvil` is the process that owns one
 * ledger and its snapshot table (packages/simulation-core/src/actions.ts and anvil.ts).
 */
module AnvilFork {
  import opened Wrappers
  import opened RiskPolicy

  const TWO_256: int := 0x1_0000000000000000_0000000000000000_0000000000000000_0000000000000000

  /** What a balance or allowance read decodes to. */
  type Uint256 = x: int | 0 <= x < TWO_256

  /** Decoded calldata; Opaque stands for the governance payload. */
  datatype Calldata =
    | Approve(spender: Address, amount: int)
    | RepayBorrow(amount: int)
    | Mint(amount: int)
    | EnterMarkets(markets: seq<Address>)
    | Opaque(payload: nat)

  datatype Rule =
    | ERC20_APPROVE_EXACT
    | ERC20_APPROVE_RESET
    | MTOKEN_REPAY_BORROW
    | MTOKEN_MINT
    | ENTER_MARKETS
    | UnknownRule(name: string)

  datatype PlannedCall = PlannedCall(to: Address, value: int, data: Calldata, rule: Rule)

  datatype Tx = Tx(sender: Address, to: Address, data: Calldata, value: int)

  /** The ledger after a transaction was sent, and whether its receipt is a success. */
  datatype Sent<+L> = Sent(ledger: L, success: bool, error: string)

  /** What eth_call returned: nothing, the return code of an mToken call, the codes of enterMarkets, or an error. */
  datatype Preview =
    | Empty
    | ErrorCode(code: nat)
    | ErrorCodes(codes: seq<nat>)
    | Threw(message: string)

  datatype MarketReads = MarketReads(mintPaused: bool, supplyCapRaw: nat, totalSupply: nat, exchangeRate: nat)

  /**
   * One deterministic chain. The last three say whether the price reads of a risk read, the reads
   * before a search, and the allowance read of a search work, or what the first of them throws.
   */
  datatype Chain<!L> = Chain(
    send: (L, Tx) -> Sent<L>,
    preview: (L, Tx) -> Preview,
    fundForGas: (L, Address) -> L,
    fund: (L, Address) -> L,
    hasHead: L -> bool,
    accountLiquidity: (L, Address) -> Result<AccountLiquidity>,
    positions: (L, Address) -> Result<seq<Position>>,
    price: (L, Address) -> int,
    balanceOf: (L, Address, Address) -> Uint256,
    allowance: (L, Address, Address, Address) -> Uint256,
    market: (L, Address) -> MarketReads,
    oracleReads: (L, Address) -> Result<()>,
    anchorReads: L -> Result<()>,
    allowanceReads: L -> Result<()>)

  /** One Anvil process forked at a pinned block. */
  class Anvil<L> {
    const chain: Chain<L>
    const pinned: L            // the state at the anchor block; reads at that block see it
    var ledger: L              // the state at the head
    var snapshots: map<nat, L>
    var nextId: nat

    ghost predicate Valid()
      reads this
    {
      forall id :: id in snapshots ==> id < nextId
    }

    constructor (chain: Chain<L>, pinned: L)
      ensures Valid() && this.chain == chain && this.pinned == pinned && ledger == pinned
      ensures snapshots == map[]
    {
      this.chain := chain;
      this.pinned := pinned;
      this.ledger := pinned;
      this.snapshots := map[];
      this.nextId := 0;
    }

    method Snapshot() returns (id: nat)
      requires Valid()
      modifies this`snapshots, this`nextId
      ensures Valid()
      ensures id == old(nextId) && nextId == id + 1
      ensures snapshots == old(snapshots)[id := ledger]
    {
      id := nextId;
      snapshots := snapshots[id := ledger];
      nextId := nextId + 1;
    }

    /** Reverting restores the snapshot and discards it together with every later one. */
    method Revert(id: nat)
      requires Valid() && id in snapshots
      modifies this`ledger, this`snapshots
      ensures Valid()
      ensures ledger == old(snapshots)[id]
      ensures snapshots == map k | k in old(snapshots) && k < id :: old(snapshots)[k]
    {
      ledger := snapshots[id];
      snapshots := map k | k in snapshots && k < id :: snapshots[k];
    }

    method ImpersonateForGas(account: Address)
      modifies this`ledger
      ensures ledger == chain.fundForGas(old(ledger), account)
    {
      ledger := chain.fundForGas(ledger, account);
    }

    method ImpersonateAndFund(account: Address)
      modifies this`ledger
      ensures ledger == chain.fund(old(ledger), account)
    {
      ledger := chain.fund(ledger, account);
    }

    method SendImpersonatedCall(tx: Tx) returns (success: bool, error: string)
      modifies this`ledger
      ensures Sent(ledger, success, error) == chain.send(old(ledger), tx)
    {
      var sent := chain.send(ledger, tx);
      ledger := sent.ledger;
      success, error := sent.success, sent.error;
    }
  }
}
