/**
 * The index cursor and its rollback, packages/governance-core/src/reorg.ts and the cursor part of
 * packages/protocol-moonwell/src/governance/sync.ts and destination.ts.
 */
module GovernanceCursor {
  import opened Wrappers

  type Hash = string

  datatype Cursor = Cursor(lastProcessedBlock: nat, lastProcessedBlockHash: Hash, lastProposalId: nat)

  datatype Block = Block(number: nat, hash: Hash)

  /** One tick's view of a chain: its safe block, and the blocks it can read with the hash of each, if there is one. */
  datatype ChainView = ChainView(safe: Block, hashAt: nat -> Result<Option<Hash>>)

  const REORG_LOOKBACK_BLOCKS := 64

  /** Hashes are compared without regard to case; here they are all in one case. */
  function CursorHashMismatch(storedHash: Option<Hash>, currentHash: Option<Hash>): bool {
    if storedHash.None? || storedHash.value == "" || currentHash.None? || currentHash.value == ""
    then storedHash.Some? && storedHash.value != ""
    else storedHash.value != currentHash.value
  }

  function RollbackCursorBlock(lastProcessedBlock: nat): nat {
    if lastProcessedBlock > REORG_LOOKBACK_BLOCKS then lastProcessedBlock - REORG_LOOKBACK_BLOCKS else 0
  }

  function ApplyReorgRollback(cursor: Cursor, safeBlock: nat): Cursor {
    var rolled := RollbackCursorBlock(cursor.lastProcessedBlock);
    cursor.(lastProcessedBlock := if rolled < safeBlock then rolled else safeBlock)
  }

  /** A block that cannot be read counts as reorganised away. */
  function DetectReorg(view: ChainView, cursor: Option<Cursor>): bool {
    if cursor.None? then false
    else
      match view.hashAt(cursor.value.lastProcessedBlock)
      case Err(_) => true
      case Ok(hash) => CursorHashMismatch(Some(cursor.value.lastProcessedBlockHash), hash)
  }

  /** The cursor a tick saves: the safe block, or after a mismatch a rewound number with the safe hash. */
  function NextCursor(view: ChainView, previous: Option<Cursor>, lastProposalId: nat): Cursor {
    if previous.Some? && DetectReorg(view, previous) then
      Cursor(ApplyReorgRollback(previous.value, view.safe.number).lastProcessedBlock, view.safe.hash, lastProposalId)
    else Cursor(view.safe.number, view.safe.hash, lastProposalId)
  }

  /** The cursor after ticks over these views, in order. */
  function CursorAfter(previous: Option<Cursor>, views: seq<ChainView>, lastProposalId: nat): Option<Cursor> {
    if views == [] then previous
    else
      var front := CursorAfter(previous, views[..|views| - 1], lastProposalId);
      Some(NextCursor(views[|views| - 1], front, lastProposalId))
  }

  // ---------- assumptions on the chain ----------

  /** Blocks of different heights have different hashes, on every fork that is ever seen. */
  ghost predicate HashesTellHeights(view: ChainView, height: Hash -> nat) {
    && view.safe.hash != "" && height(view.safe.hash) == view.safe.number
    && forall n: nat :: view.hashAt(n).Ok? && view.hashAt(n).value.Some? ==> height(view.hashAt(n).value.value) == n
  }

  /** The safe head never moves back. */
  ghost predicate Advancing(views: seq<ChainView>, height: Hash -> nat) {
    && (forall i :: 0 <= i < |views| ==> HashesTellHeights(views[i], height))
    && (forall i, j :: 0 <= i < j < |views| ==> views[i].safe.number <= views[j].safe.number)
  }

  /** A cursor whose hash is that of a higher block than its number. */
  ghost predicate Stuck(cursor: Cursor, height: Hash -> nat) {
    cursor.lastProcessedBlockHash != "" && cursor.lastProcessedBlock < height(cursor.lastProcessedBlockHash)
  }

  // ---------- results ----------

  /** A reorganisation is seen when the cursor's block cannot be read or has not the cursor's hash, if there is one. */
  lemma DetectReorgIff(view: ChainView, cursor: Cursor)
    ensures DetectReorg(view, Some(cursor))
       <==> var hash := view.hashAt(cursor.lastProcessedBlock);
            hash.Err? || (cursor.lastProcessedBlockHash != "" && hash.value != Some(cursor.lastProcessedBlockHash))
  {
  }

  /** Without a mismatch the cursor is the safe block, number and hash. */
  lemma NoMismatchIsExact(view: ChainView, previous: Option<Cursor>, lastProposalId: nat)
    ensures var next := NextCursor(view, previous, lastProposalId);
            && next.lastProcessedBlockHash == view.safe.hash
            && next.lastProcessedBlock <= view.safe.number
            && (next.lastProcessedBlock == view.safe.number <==>
                  !DetectReorg(view, previous)
                  || view.safe.number <= RollbackCursorBlock(previous.value.lastProcessedBlock))
  {
  }

  /** On a chain that keeps the cursor's block, a tick sees no reorganisation. */
  lemma KeptBlockNoMismatch(view: ChainView, cursor: Cursor)
    requires cursor.lastProcessedBlockHash != ""
    requires view.hashAt(cursor.lastProcessedBlock) == Ok(Some(cursor.lastProcessedBlockHash))
    ensures !DetectReorg(view, Some(cursor))
  {
  }

  /** The number is rewound but the hash is not, so the next tick mismatches again. */
  lemma StuckStaysStuck(view: ChainView, cursor: Cursor, lastProposalId: nat, height: Hash -> nat)
    requires HashesTellHeights(view, height) && Stuck(cursor, height)
    requires height(cursor.lastProcessedBlockHash) <= view.safe.number
    ensures DetectReorg(view, Some(cursor))
    ensures var next := NextCursor(view, Some(cursor), lastProposalId);
            && next.lastProcessedBlock == RollbackCursorBlock(cursor.lastProcessedBlock)
            && Stuck(next, height)
            && height(next.lastProcessedBlockHash) == view.safe.number
  {
  }

  /** 64 blocks further back with each tick, and never below 0. */
  function Rewound(block: nat, ticks: nat): nat {
    if block > 64 * ticks then block - 64 * ticks else 0
  }

  lemma RewoundStep(block: nat, ticks: nat)
    ensures RollbackCursorBlock(Rewound(block, ticks)) == Rewound(block, ticks + 1)
  {
  }

  /** A mismatch at a block that is not above the safe head gets the cursor stuck, unless both are block 0. */
  lemma MismatchGetsStuck(view: ChainView, cursor: Cursor, lastProposalId: nat, height: Hash -> nat)
    requires HashesTellHeights(view, height) && DetectReorg(view, Some(cursor))
    requires cursor.lastProcessedBlock <= view.safe.number
    ensures Stuck(NextCursor(view, Some(cursor), lastProposalId), height) <==> view.safe.number > 0
    ensures NextCursor(view, Some(cursor), lastProposalId).lastProcessedBlock == Rewound(cursor.lastProcessedBlock, 1)
  {
  }

  /**
   * After a mismatch at a block not above the safe head, every later tick mismatches as well, and k
   * ticks leave the cursor at max(0, b - 64k) with the hash of the safe block.
   */
  lemma {:induction false} MismatchNeverHeals(
      cursor: Cursor, views: seq<ChainView>, lastProposalId: nat, height: Hash -> nat)
    requires Advancing(views, height) && views != []
    requires DetectReorg(views[0], Some(cursor))
    requires cursor.lastProcessedBlock <= views[0].safe.number && views[0].safe.number > 0
    ensures CursorAfter(Some(cursor), views, lastProposalId).Some?
    ensures var end := CursorAfter(Some(cursor), views, lastProposalId).value;
            && end.lastProcessedBlock == Rewound(cursor.lastProcessedBlock, |views|)
            && end.lastProcessedBlockHash == views[|views| - 1].safe.hash
            && end.lastProcessedBlock < views[|views| - 1].safe.number
            && Stuck(end, height)
    ensures DetectReorg(views[|views| - 1], CursorAfter(Some(cursor), views[..|views| - 1], lastProposalId))
    decreases |views|
  {
    var n := |views| - 1;
    var front := views[..n];
    if n == 0 {
      assert front == [];
      MismatchGetsStuck(views[0], cursor, lastProposalId, height);
    } else {
      MismatchNeverHeals(cursor, front, lastProposalId, height);
      StuckStaysStuck(views[n], CursorAfter(Some(cursor), front, lastProposalId).value, lastProposalId, height);
      RewoundStep(cursor.lastProcessedBlock, n);
    }
  }

  /** Each tick still sees the safe block of the tick before. */
  ghost predicate Unbroken(views: seq<ChainView>) {
    && (forall i :: 0 <= i < |views| ==> views[i].safe.hash != "")
    && (forall i :: 0 < i < |views| ==> views[i].hashAt(views[i - 1].safe.number) == Ok(Some(views[i - 1].safe.hash)))
  }

  /** Over every run without a reorganisation the cursor is exactly the last safe block. */
  lemma {:induction false} UnbrokenRunIsExact(views: seq<ChainView>, lastProposalId: nat)
    requires Unbroken(views) && views != []
    ensures CursorAfter(None, views, lastProposalId)
         == Some(Cursor(views[|views| - 1].safe.number, views[|views| - 1].safe.hash, lastProposalId))
    decreases |views|
  {
    var n := |views| - 1;
    if n == 0 {
      assert views[..n] == [];
    } else {
      UnbrokenRunIsExact(views[..n], lastProposalId);
      KeptBlockNoMismatch(views[n], CursorAfter(None, views[..n], lastProposalId).value);
    }
  }
}
