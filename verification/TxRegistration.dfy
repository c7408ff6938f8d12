/**
 * Registering the transactions of a prepared plan, registerTx of
 * apps/api/src/execution/execution.service.ts, and the classification of the state they leave,
 * apps/api/src/execution/verify-state.ts.
 */
module TxRegistration {
  import opened Wrappers
  import RiskPolicy
  import opened LowerCase

  datatype ExecutionStatus = PREPARED | SUBMITTED | VERIFIED | PARTIAL | MISMATCH | FAILED | EXPIRED

  datatype RiskStatus = SAFE | AT_RISK | SHORTFALL | UNKNOWN

  /** A risk state as it is classified; a safety buffer may have been derived. */
  datatype Risk = Risk(status: RiskStatus, liquidityRaw: int, shortfallRaw: int, safetyBufferBps: Option<int>)

  datatype Expected = Expected(maxShortfallRaw: int, minSafetyBufferBps: int)

  // ---------- classification ----------

  function BufferOf(after: Risk, borrowValueRaw: Option<int>): Option<int> {
    if after.safetyBufferBps.Some? then after.safetyBufferBps
    else if borrowValueRaw.Some? then RiskPolicy.ComputeSafetyBufferBps(after.liquidityRaw, borrowValueRaw.value)
    else None
  }

  /** A buffer of at least the minimum was derived, or is computed from the borrow value when none was. */
  predicate BufferAtLeast(after: Risk, borrowValueRaw: Option<int>, minimum: int) {
    match after.safetyBufferBps
    case Some(derived) => derived >= minimum
    case None =>
      borrowValueRaw.Some?
      && var computed := RiskPolicy.ComputeSafetyBufferBps(after.liquidityRaw, borrowValueRaw.value);
         computed.Some? && computed.value >= minimum
  }

  function ClassifyExecutionState(
    expected: Expected, before: Risk, after: Risk, submittedCalls: nat, confirmedCalls: nat, reverted: bool,
    borrowValueRaw: Option<int>): ExecutionStatus
  {
    if reverted then FAILED
    else if confirmedCalls == 0 then FAILED
    else if confirmedCalls < submittedCalls then PARTIAL
    else if after.shortfallRaw > expected.maxShortfallRaw then MISMATCH
    else if after.status == UNKNOWN then MISMATCH
    else if expected.minSafetyBufferBps > 0
         && (BufferOf(after, borrowValueRaw).None?
             || BufferOf(after, borrowValueRaw).value < expected.minSafetyBufferBps) then MISMATCH
    else if after.shortfallRaw < before.shortfallRaw then VERIFIED
    else if after.liquidityRaw > before.liquidityRaw then VERIFIED
    else if after.status != SHORTFALL && before.status == SHORTFALL then VERIFIED
    else if after.shortfallRaw == before.shortfallRaw && after.liquidityRaw == before.liquidityRaw then MISMATCH
    else VERIFIED
  }

  /** The two states tell apart that something has happened. */
  predicate Changed(before: Risk, after: Risk) {
    || after.shortfallRaw != before.shortfallRaw
    || after.liquidityRaw != before.liquidityRaw
    || (after.status != SHORTFALL && before.status == SHORTFALL)
  }

  /** With all calls confirmed the verdict is VERIFIED or MISMATCH, and exactly this decides which. */
  lemma VerifiedIff(expected: Expected, before: Risk, after: Risk, calls: nat, borrowValueRaw: Option<int>)
    requires calls > 0
    ensures var verdict := ClassifyExecutionState(expected, before, after, calls, calls, false, borrowValueRaw);
            && (verdict == VERIFIED || verdict == MISMATCH)
            && (verdict == VERIFIED <==>
                  && after.shortfallRaw <= expected.maxShortfallRaw
                  && after.status != UNKNOWN
                  && (expected.minSafetyBufferBps <= 0
                      || BufferAtLeast(after, borrowValueRaw, expected.minSafetyBufferBps))
                  && Changed(before, after))
  {
  }

  /** The other verdicts: FAILED without a receipt or with a revert, PARTIAL while receipts are missing. */
  lemma NotAllConfirmed(
      expected: Expected, before: Risk, after: Risk, submitted: nat, confirmed: nat, reverted: bool,
      borrowValueRaw: Option<int>)
    ensures var verdict :=
              ClassifyExecutionState(expected, before, after, submitted, confirmed, reverted, borrowValueRaw);
            && (verdict == FAILED <==> reverted || confirmed == 0)
            && (verdict == PARTIAL <==> !reverted && 0 < confirmed < submitted)
            && verdict in {FAILED, PARTIAL, VERIFIED, MISMATCH}
  {
    hide BufferOf;
  }

  /** Less liquidity or more shortfall than before. */
  predicate Worse(before: Risk, after: Risk) {
    after.liquidityRaw < before.liquidityRaw || after.shortfallRaw > before.shortfallRaw
  }

  /** What the plan expects of the state afterwards, whatever it was before. */
  predicate MeetsExpected(expected: Expected, after: Risk, borrowValueRaw: Option<int>) {
    && after.shortfallRaw <= expected.maxShortfallRaw
    && after.status != UNKNOWN
    && (expected.minSafetyBufferBps <= 0 || BufferAtLeast(after, borrowValueRaw, expected.minSafetyBufferBps))
  }

  /**
   * VERIFIED does not mean better: a state that is worse than before is VERIFIED exactly when every
   * call was confirmed and the state meets what is expected of it.
   */
  lemma WorseVerifiedIff(
      expected: Expected, before: Risk, after: Risk, submitted: nat, confirmed: nat, reverted: bool,
      borrowValueRaw: Option<int>)
    requires Worse(before, after)
    ensures ClassifyExecutionState(expected, before, after, submitted, confirmed, reverted, borrowValueRaw) == VERIFIED
       <==> !reverted && 0 < confirmed && submitted <= confirmed && MeetsExpected(expected, after, borrowValueRaw)
  {
  }

  /** Without a minimum buffer there is such a state for every state before. */
  lemma WorseStateToVerify(expected: Expected, before: Risk, calls: nat) returns (after: Risk)
    requires calls > 0 && expected.minSafetyBufferBps <= 0 && expected.maxShortfallRaw >= 0
    ensures after.status == SAFE && after.shortfallRaw >= 0 && Worse(before, after)
    ensures ClassifyExecutionState(expected, before, after, calls, calls, false, None) == VERIFIED
  {
    after := Risk(SAFE, before.liquidityRaw - 1, 0, None);
    WorseVerifiedIff(expected, before, after, calls, calls, false, None);
  }

  // ---------- the record ----------

  datatype CallReceipt = CallReceipt(txHash: string, success: bool)

  datatype Record = Record(
    wallet: string, calls: nat, txHashes: seq<string>, callReceipts: seq<CallReceipt>, expected: Expected,
    before: Option<Risk>, after: Option<Risk>, status: ExecutionStatus, expiresAt: Option<int>)

  /** One request, with what the chain and the risk read answer to it. */
  datatype Request = Request(
    wallet: string, txHash: string, callIndex: int, now: int, receipt: Result<bool>, risk: Result<Risk>)

  const NO_RISK := Risk(UNKNOWN, 0, 0, None)

  function CountSuccesses(receipts: seq<CallReceipt>): nat {
    if receipts == [] then 0
    else CountSuccesses(receipts[..|receipts| - 1]) + if receipts[|receipts| - 1].success then 1 else 0
  }

  predicate Final(status: ExecutionStatus) {
    status == VERIFIED || status == MISMATCH || status == FAILED
  }

  /** A request that is refused before the chain is asked, or answered from the record. */
  function Refusal(record: Record, r: Request): Option<string> {
    if Lower(record.wallet) != Lower(r.wallet) then Some("UNAUTHORIZED")
    else if record.status == EXPIRED || (record.expiresAt.Some? && record.expiresAt.value <= r.now) then
      Some("SIMULATION_STALE")
    else if Final(record.status) then Some("STRATEGY_POLICY_REJECTED")
    else if r.callIndex < 0 || r.callIndex >= record.calls then Some("INVALID_CONFIG")
    else if r.callIndex < |record.txHashes| then
      if Lower(record.txHashes[r.callIndex]) != Lower(r.txHash) then Some("MAINNET_STATE_MISMATCH") else None
    else if r.callIndex != |record.txHashes| then Some("INVALID_CONFIG")
    else None
  }

  /** The receipt of the next call: the new hashes and receipts, and what they make of the plan. */
  function Recorded(record: Record, r: Request, success: bool): Result<Record>
    requires r.callIndex >= 0
  {
    var hashes := record.txHashes + [r.txHash];
    var receipts := record.callReceipts + [CallReceipt(r.txHash, success)];
    var next := record.(txHashes := hashes, callReceipts := receipts);
    if success && CountSuccesses(receipts) == record.calls then
      var after :- r.risk;
      var before := if record.before.Some? then record.before.value else NO_RISK;
      Ok(next.(status := ClassifyExecutionState(record.expected, before, after.(safetyBufferBps := None),
                                                record.calls, record.calls, false, None),
               after := Some(after)))
    else Ok(next.(status := if success then SUBMITTED else FAILED))
  }

  function RegisterTx(record: Record, r: Request): Result<Record> {
    var refusal := Refusal(record, r);
    if refusal.Some? then Err(refusal.value)
    else if r.callIndex < |record.txHashes| then Ok(record)
    else
      var success :- r.receipt;
      Recorded(record, r, success)
  }

  /** The stored record after a request: a request that throws leaves it as it is. */
  function Stored(record: Record, r: Request): Record {
    match RegisterTx(record, r)
    case Ok(next) => next
    case Err(_) => record
  }

  function StoredAfter(record: Record, requests: seq<Request>): Record {
    if requests == [] then record
    else Stored(StoredAfter(record, requests[..|requests| - 1]), requests[|requests| - 1])
  }

  class ExecutionAttempt {
    var record: Record

    constructor (prepared: Record)
      ensures record == prepared
    {
      record := prepared;
    }

    method Register(r: Request) returns (result: Result<Record>)
      modifies this
      ensures result == RegisterTx(old(record), r)
      ensures record == Stored(old(record), r)
    {
      var current := record;
      if Lower(current.wallet) != Lower(r.wallet) {
        return Err("UNAUTHORIZED");
      }
      if current.status == EXPIRED || (current.expiresAt.Some? && current.expiresAt.value <= r.now) {
        return Err("SIMULATION_STALE");
      }
      if current.status == VERIFIED || current.status == MISMATCH || current.status == FAILED {
        return Err("STRATEGY_POLICY_REJECTED");
      }
      if r.callIndex < 0 || r.callIndex >= current.calls {
        return Err("INVALID_CONFIG");
      }
      if r.callIndex < |current.txHashes| {
        if Lower(current.txHashes[r.callIndex]) != Lower(r.txHash) {
          return Err("MAINNET_STATE_MISMATCH");
        }
        return Ok(current);
      }
      if r.callIndex != |current.txHashes| {
        return Err("INVALID_CONFIG");
      }
      var success :- r.receipt;
      var callReceipts := current.callReceipts + [CallReceipt(r.txHash, success)];
      var txHashes := current.txHashes + [r.txHash];
      var confirmed := CountSuccesses(callReceipts);
      var status := if success then SUBMITTED else FAILED;
      var after := current.after;
      if success && confirmed == current.calls {
        var read :- r.risk;
        after := Some(read);
        var before := if current.before.Some? then current.before.value else NO_RISK;
        status := ClassifyExecutionState(current.expected, before, read.(safetyBufferBps := None), current.calls,
                                         confirmed, false, None);
      }
      record := current.(txHashes := txHashes, callReceipts := callReceipts, status := status, after := after);
      result := Ok(record);
    }
  }

  // ---------- every series of requests ----------

  /** All but possibly the last receipt are successes. */
  ghost predicate OnlyLastReverts(receipts: seq<CallReceipt>) {
    forall i :: 0 <= i < |receipts| - 1 ==> receipts[i].success
  }

  ghost predicate AllSucceed(receipts: seq<CallReceipt>) {
    forall i :: 0 <= i < |receipts| ==> receipts[i].success
  }

  ghost predicate RecordOk(record: Record) {
    var n := |record.txHashes|;
    && record.calls > 0
    && |record.callReceipts| == n <= record.calls
    && (forall i :: 0 <= i < n ==> record.callReceipts[i].txHash == record.txHashes[i])
    && OnlyLastReverts(record.callReceipts)
    && (record.status == PREPARED <==> n == 0)
    && (record.status == SUBMITTED <==> 0 < n < record.calls && AllSucceed(record.callReceipts))
    && (record.status == FAILED <==> n > 0 && !record.callReceipts[n - 1].success)
    && (record.status == VERIFIED || record.status == MISMATCH
        <==> n == record.calls && AllSucceed(record.callReceipts))
    && record.status != PARTIAL && record.status != EXPIRED
    && (record.status == VERIFIED ==>
          && record.after.Some?
          && record.after.value.shortfallRaw <= record.expected.maxShortfallRaw
          && record.after.value.status != UNKNOWN
          && record.expected.minSafetyBufferBps <= 0)
  }

  lemma {:induction false} SuccessesOf(receipts: seq<CallReceipt>)
    ensures CountSuccesses(receipts) <= |receipts|
    ensures CountSuccesses(receipts) == |receipts| <==> AllSucceed(receipts)
  {
    if receipts != [] {
      SuccessesOf(receipts[..|receipts| - 1]);
    }
  }

  lemma NextReceipts(record: Record, r: Request, success: bool)
    requires RecordOk(record) && Refusal(record, r).None? && r.callIndex == |record.txHashes|
    ensures var receipts := record.callReceipts + [CallReceipt(r.txHash, success)];
            && OnlyLastReverts(receipts) && (AllSucceed(receipts) <==> success)
            && |receipts| == |record.txHashes| + 1 <= record.calls
            && (CountSuccesses(receipts) == |receipts| <==> success) && CountSuccesses(receipts) <= |receipts|
  {
    hide CountSuccesses, Lower;
    var receipts := record.callReceipts + [CallReceipt(r.txHash, success)];
    SuccessesOf(receipts);
    assert AllSucceed(record.callReceipts);
    assert receipts[|record.callReceipts|].success == success;
  }

  /** Who may register the next receipt: the owner, in time, of a plan that is neither final nor complete. */
  predicate MayRegister(record: Record, r: Request) {
    && Lower(record.wallet) == Lower(r.wallet)
    && record.status != EXPIRED && (record.expiresAt.None? || record.expiresAt.value > r.now)
    && record.status != VERIFIED && record.status != MISMATCH && record.status != FAILED
    && 0 <= r.callIndex == |record.txHashes| < record.calls
  }

  /** The answers of a record that is left as it is. */
  lemma RefusedWith(record: Record, r: Request)
    ensures var answer, owner := RegisterTx(record, r), Lower(record.wallet) == Lower(r.wallet);
            var expired := record.status == EXPIRED || (record.expiresAt.Some? && record.expiresAt.value <= r.now);
            var running := owner && !expired && record.status in {PREPARED, SUBMITTED, PARTIAL};
            && (!owner ==> answer == Err("UNAUTHORIZED"))
            && (owner && expired ==> answer == Err("SIMULATION_STALE"))
            && (owner && !expired && record.status in {VERIFIED, MISMATCH, FAILED} ==>
                  answer == Err("STRATEGY_POLICY_REJECTED"))
            && (running && (r.callIndex < 0 || r.callIndex >= record.calls || r.callIndex > |record.txHashes|) ==>
                  answer == Err("INVALID_CONFIG"))
            && (running && 0 <= r.callIndex < record.calls && r.callIndex < |record.txHashes| ==>
                  answer == if Lower(record.txHashes[r.callIndex]) == Lower(r.txHash) then Ok(record)
                            else Err("MAINNET_STATE_MISMATCH"))
            && (running && r.callIndex == |record.txHashes| < record.calls && r.receipt.Err? ==>
                  answer == Err(r.receipt.error))
  {
    hide Lower, Recorded;
  }

  /**
   * A request changes the record exactly when its sender may register the next receipt, the receipt
   * is there, and the risk is read when this was the last call. Then the hash and the receipt are
   * appended, a revert fails the plan, a success that is not the last one submits it, and the last
   * one is classified with every call confirmed.
   */
  lemma RegisteredIff(record: Record, r: Request)
    requires RecordOk(record)
    ensures var last := |record.txHashes| + 1 == record.calls;
            Stored(record, r) != record
            <==> MayRegister(record, r) && r.receipt.Ok? && (r.receipt == Ok(true) && last ==> r.risk.Ok?)
    ensures Stored(record, r) != record ==>
              var after := Stored(record, r);
              var last := |record.txHashes| + 1 == record.calls;
              && after.txHashes == record.txHashes + [r.txHash]
              && after.callReceipts == record.callReceipts + [CallReceipt(r.txHash, r.receipt.value)]
              && after.wallet == record.wallet && after.calls == record.calls && after.expected == record.expected
              && after.before == record.before && after.expiresAt == record.expiresAt
              && (r.receipt == Ok(false) ==> after.status == FAILED && after.after == record.after)
              && (r.receipt == Ok(true) && !last ==> after.status == SUBMITTED && after.after == record.after)
              && (r.receipt == Ok(true) && last ==>
                    && after.after == Some(r.risk.value)
                    && after.status
                       == ClassifyExecutionState(record.expected,
                                                 if record.before.Some? then record.before.value else NO_RISK,
                                                 r.risk.value.(safetyBufferBps := None), record.calls, record.calls,
                                                 false, None))
  {
    hide Lower, ClassifyExecutionState, CountSuccesses, OnlyLastReverts, AllSucceed;
    if MayRegister(record, r) && r.receipt.Ok? {
      NextReceipts(record, r, r.receipt.value);
      assert |record.txHashes + [r.txHash]| != |record.txHashes|;
    }
  }

  lemma RecordedOk(record: Record, r: Request, success: bool)
    requires RecordOk(record) && Refusal(record, r).None? && r.callIndex == |record.txHashes|
    requires Recorded(record, r, success).Ok?
    ensures RecordOk(Recorded(record, r, success).value)
  {
    hide CountSuccesses, Lower, ClassifyExecutionState, OnlyLastReverts, AllSucceed;
    var receipts := record.callReceipts + [CallReceipt(r.txHash, success)];
    NextReceipts(record, r, success);
    if success && CountSuccesses(receipts) == record.calls {
      var before := if record.before.Some? then record.before.value else NO_RISK;
      VerifiedIff(record.expected, before, r.risk.value.(safetyBufferBps := None), record.calls, None);
    }
  }

  /**
   * Over any series of requests: hashes and receipts form one gap-free prefix of the calls, only the
   * last receipt can be a revert, FAILED means exactly that, VERIFIED and MISMATCH mean that every
   * call succeeded, and PARTIAL and EXPIRED are never reached.
   */
  lemma {:induction false} SeriesOk(record: Record, requests: seq<Request>)
    requires RecordOk(record)
    ensures RecordOk(StoredAfter(record, requests))
    decreases |requests|
  {
    hide RecordOk, Recorded;
    if requests != [] {
      var n := |requests| - 1;
      SeriesOk(record, requests[..n]);
      var current, r := StoredAfter(record, requests[..n]), requests[n];
      if RegisterTx(current, r).Ok? && r.callIndex >= |current.txHashes| {
        RecordedOk(current, r, r.receipt.value);
      }
    }
  }

  /** What is registered stays registered, and a final status absorbs every later request. */
  lemma {:induction false} SeriesGrows(record: Record, requests: seq<Request>)
    ensures var after := StoredAfter(record, requests);
            && record.txHashes <= after.txHashes && record.callReceipts <= after.callReceipts
            && after.expected == record.expected && after.calls == record.calls
            && (Final(record.status) ==> after == record)
    decreases |requests|
  {
    if requests != [] {
      SeriesGrows(record, requests[..|requests| - 1]);
    }
  }

  /** No borrow value is passed, so a plan that asks for a buffer is never verified. */
  lemma PositiveBufferNeverVerified(record: Record, requests: seq<Request>)
    requires RecordOk(record) && record.expected.minSafetyBufferBps > 0
    ensures StoredAfter(record, requests).status != VERIFIED
  {
    SeriesOk(record, requests);
    SeriesGrows(record, requests);
  }

  /**
   * When the last call is registered and the wallet is worse off than before, the plan is VERIFIED
   * exactly when it asks for no buffer and the shortfall is known and within its bound.
   */
  lemma WorseIsRegisteredIff(record: Record, r: Request)
    requires RecordOk(record) && Refusal(record, r).None? && r.callIndex == |record.txHashes| == record.calls - 1
    requires r.receipt == Ok(true) && r.risk.Ok?
    requires Worse(if record.before.Some? then record.before.value else NO_RISK, r.risk.value)
    ensures RegisterTx(record, r).Ok?
    ensures RegisterTx(record, r).value.status == VERIFIED
       <==> && record.expected.minSafetyBufferBps <= 0
            && r.risk.value.status != UNKNOWN
            && r.risk.value.shortfallRaw <= record.expected.maxShortfallRaw
  {
    hide CountSuccesses, Lower, ClassifyExecutionState, OnlyLastReverts, AllSucceed, RecordOk;
    NextReceipts(record, r, true);
    var before := if record.before.Some? then record.before.value else NO_RISK;
    WorseVerifiedIff(record.expected, before, r.risk.value.(safetyBufferBps := None), record.calls, record.calls, false,
                     None);
  }

  /** The same request once more is answered with the record, unless it has made the record final. */
  lemma RepeatedRequestIff(record: Record, r: Request)
    requires RecordOk(record) && RegisterTx(record, r).Ok?
    ensures var next := RegisterTx(record, r).value;
            && (RegisterTx(next, r) == Ok(next) <==> !Final(next.status))
            && (Final(next.status) ==> RegisterTx(next, r) == Err("STRATEGY_POLICY_REJECTED"))
  {
    hide Lower, CountSuccesses, ClassifyExecutionState;
    if r.callIndex >= |record.txHashes| {
      RecordedOk(record, r, r.receipt.value);
    }
  }
}
