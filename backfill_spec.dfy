/**
 * What one pull of each backfill job computes, as functions of the
 * collaborators and the remaining range, each with a contract saying what
 * its result holds. Properties relating several of them (batch contents,
 * range progress, coverage of the whole range, agreement between the batch
 * and the single-block job) are proved in `BackfillProperties`.
 */
module BackfillSpec {
  import opened Wrappers
  import opened Primitives
  import opened Ranges
  import opened BackfillTypes

  /** `n.saturating_sub(1)`: the parent of block `n`, and 0 for block 0. */
  function SaturatingSub1(n: BlockNumber): (parent: BlockNumber)
    ensures parent <= n
    ensures n > 0 ==> parent + 1 == n
    ensures n == 0 ==> parent == 0
  {
    if n == 0 then 0 else n - 1
  }

  /**
   * Fetching block `n` for execution: a provider failure is passed on, and an
   * absent block is reported as `HeaderNotFound(n)`.
   */
  function FetchBlock(p: Provider, n: BlockNumber): (r: Result<Block, BlockExecutionError>)
    ensures r.Ok? <==> p.blockWithSenders(n).Ok? && p.blockWithSenders(n).value.Some?
    ensures r.Ok? ==> p.blockWithSenders(n) == Ok(Some(r.value))
    ensures p.blockWithSenders(n) == Ok(None) ==> r == Err(Other(HeaderNotFound(n)))
    ensures p.blockWithSenders(n).Err? ==> r == Err(Other(p.blockWithSenders(n).error))
  {
    match p.blockWithSenders(n)
    case Err(e) => Err(Other(e))
    case Ok(None) => Err(Other(HeaderNotFound(n)))
    case Ok(Some(b)) => Ok(b)
  }

  /**
   * One step of the batch loop for block `n` on the executor `acc`: fetch
   * the block, then execute it. The first failure is the step's error.
   */
  function StepOutcome(p: Provider, evm: EvmConfig, n: BlockNumber, acc: ExecState)
    : (r: Result<(Block, (ExecState, BlockResult)), BlockExecutionError>)
    ensures r.Ok? <==> FetchBlock(p, n).Ok? && evm.executeOne(acc, FetchBlock(p, n).value).Ok?
    ensures FetchBlock(p, n).Err? ==> r == Err(FetchBlock(p, n).error)
    ensures FetchBlock(p, n).Ok? && evm.executeOne(acc, FetchBlock(p, n).value).Err? ==>
      r == Err(Execution(evm.executeOne(acc, FetchBlock(p, n).value).error))
    ensures r.Ok? ==> r.value == (FetchBlock(p, n).value, evm.executeOne(acc, FetchBlock(p, n).value).value)
  {
    match FetchBlock(p, n)
    case Err(e) => Err(e)
    case Ok(b) =>
      match evm.executeOne(acc, b)
      case Err(x) => Err(Execution(x))
      case Ok(out) => Ok((b, out))
  }

  /** Total gas used by a sequence of blocks. */
  function GasUsed(bs: seq<Block>): nat
  {
    if bs == [] then 0 else GasUsed(bs[..|bs| - 1]) + bs[|bs| - 1].GasUsed()
  }

  /**
   * Executing `bs` in order on one accumulating executor: the final executor
   * state and the results, or the first execution error.
   */
  function ExecFold(evm: EvmConfig, acc: ExecState, bs: seq<Block>): Result<(ExecState, seq<BlockResult>), ExecError>
  {
    if bs == [] then Ok((acc, []))
    else
      match ExecFold(evm, acc, bs[..|bs| - 1])
      case Err(e) => Err(e)
      case Ok((a, rs)) =>
        match evm.executeOne(a, bs[|bs| - 1])
        case Err(e) => Err(e)
        case Ok((a', r)) => Ok((a', rs + [r]))
  }

  /** The variables of the batch loop: executor, blocks, results and gas so far. */
  datatype BatchState = BatchState(acc: ExecState, blocks: seq<Block>, results: seq<BlockResult>, gas: nat)

  /** The loop's state before its first iteration. */
  function EmptyBatch(acc: ExecState): BatchState
  {
    BatchState(acc, [], [], 0)
  }

  /**
   * The batch loop from block `n` on: fetch block `n`, add its gas, execute
   * it, record block and result, then stop if the thresholds say so or `n`
   * is the range's end, and otherwise go on with `n + 1`. `elapsed(k)` is
   * the batch's elapsed time as read after its `k`-th block.
   */
  function BatchFrom(p: Provider, evm: EvmConfig, th: Thresholds, elapsed: nat -> nat,
                     start: BlockNumber, end: BlockNumber, n: BlockNumber, st: BatchState)
    : (r: Result<BatchState, BlockExecutionError>)
    requires start <= n <= end
    ensures r.Ok? ==> |st.blocks| < |r.value.blocks| <= |st.blocks| + end - n + 1
    ensures r.Ok? ==> r.value.blocks[..|st.blocks|] == st.blocks
    ensures r.Ok? ==> |r.value.results| - |r.value.blocks| == |st.results| - |st.blocks|
    decreases end - n
  {
    match FetchBlock(p, n)
    case Err(e) => Err(e)
    case Ok(b) =>
      var gas := st.gas + b.GasUsed();
      match evm.executeOne(st.acc, b)
      case Err(x) => Err(Execution(x))
      case Ok((acc', res)) =>
        var st' := BatchState(acc', st.blocks + [b], st.results + [res], gas);
        if th.isEndOfBatch(n - start + 1, evm.sizeHint(acc'), gas, elapsed(|st'.blocks|)) || n == end then
          Ok(st')
        else
          BatchFrom(p, evm, th, elapsed, start, end, n + 1, st')
  }

  /**
   * The range left after a batch that ended with block `last`: the numbers
   * after `last`, up to the same end. (At `last == u64::MAX` nothing is left.)
   */
  function AdvancePast(r: RangeInclusive, last: BlockNumber): (r': RangeInclusive)
    ensures r'.end == r.end
    ensures last < U64_MAX ==> r' == Inclusive(last + 1, r.end)
    ensures !r.IsEmpty() && r.start <= last <= r.end ==>
      r'.Numbers() == r.Numbers()[last - r.start + 1..]
  {
    if last < U64_MAX then Inclusive(last + 1, r.end) else RangeInclusive(r.end, r.end, true)
  }

  /**
   * `last_block_number + 1..=end` as written, in `u64` arithmetic that wraps
   * (a build without overflow checks).
   */
  function AdvancePastAsWritten(r: RangeInclusive, last: BlockNumber): (r': RangeInclusive)
    ensures r'.end == r.end && !r'.exhausted
    ensures last < U64_MAX ==> r' == AdvancePast(r, last)
    ensures last == U64_MAX ==> r'.start == 0
  {
    Inclusive(((last + 1) % (U64_MAX + 1)) as BlockNumber, r.end)
  }

  /**
   * The fallible part of `execute_range`: open the parent state of the
   * range's first block, build one executor over it and run the batch loop
   * from the range's start.
   */
  function RangeBatch(p: Provider, evm: EvmConfig, th: Thresholds, elapsed: nat -> nat, r: RangeInclusive)
    : (res: Result<BatchState, BlockExecutionError>)
    requires !r.IsEmpty()
    ensures p.historyByBlockNumber(SaturatingSub1(r.start)).Err? ==>
      res == Err(Other(p.historyByBlockNumber(SaturatingSub1(r.start)).error))
    ensures res.Ok? ==> 1 <= |res.value.blocks| == |res.value.results| <= r.end - r.start + 1
  {
    match p.historyByBlockNumber(SaturatingSub1(r.start))
    case Err(e) => Err(Other(e))
    case Ok(snap) => BatchFrom(p, evm, th, elapsed, r.start, r.end, r.start, EmptyBatch(evm.batchExecutor(snap)))
  }

  /**
   * The segment a finished batch commits: its blocks, and the outcome built
   * from the executor's bundle and the results, anchored at the first
   * block's number.
   */
  function Segment(evm: EvmConfig, st: BatchState): (c: Chain)
    requires |st.blocks| >= 1
    ensures c.blocks == st.blocks && c.outcome.results == st.results
    ensures c.outcome.firstBlock == st.blocks[0].Number() && c.outcome.bundle == evm.takeBundle(st.acc)
  {
    Chain(st.blocks, ExecutionOutcome(st.blocks[0].Number(), evm.takeBundle(st.acc), st.results))
  }

  /**
   * `execute_range`: run one batch and, on success, return its segment with
   * the range advanced past the batch's last block; on error the error alone.
   */
  function ExecuteRange(p: Provider, evm: EvmConfig, th: Thresholds, elapsed: nat -> nat, r: RangeInclusive)
    : (res: Result<(Chain, RangeInclusive), BlockExecutionError>)
    requires !r.IsEmpty()
    ensures res.Err? <==> RangeBatch(p, evm, th, elapsed, r).Err?
    ensures res.Err? ==> res.error == RangeBatch(p, evm, th, elapsed, r).error
    ensures res.Ok? ==>
      var st := RangeBatch(p, evm, th, elapsed, r).value;
      && res.value.0 == Segment(evm, st)
      && res.value.0.blocks == st.blocks
      && res.value.0.outcome.results == st.results
      && res.value.0.outcome.bundle == evm.takeBundle(st.acc)
    ensures res.Ok? ==> 1 <= |res.value.0.blocks| == |res.value.0.outcome.results| <= r.end - r.start + 1
    ensures res.Ok? ==> res.value.0.outcome.firstBlock == res.value.0.blocks[0].Number()
    ensures res.Ok? ==> res.value.1.end == r.end
  {
    match RangeBatch(p, evm, th, elapsed, r)
    case Err(e) => Err(e)
    case Ok(st) => Ok((Segment(evm, st), AdvancePast(r, st.blocks[|st.blocks| - 1].Number())))
  }

  /**
   * `BackfillJob::next`: nothing once the range is empty; otherwise one
   * batch, with the range advanced on success and left as it was on error.
   */
  function BackfillStep(p: Provider, evm: EvmConfig, th: Thresholds, elapsed: nat -> nat, r: RangeInclusive)
    : (res: (Option<Result<Chain, BlockExecutionError>>, RangeInclusive))
    ensures res.0.None? <==> r.IsEmpty()
    ensures res.0.None? || res.0.value.Err? ==> res.1 == r
  {
    if r.IsEmpty() then (None, r)
    else
      match ExecuteRange(p, evm, th, elapsed, r)
      case Err(e) => (Some(Err(e)), r)
      case Ok((c, r')) => (Some(Ok(c)), r')
  }

  /**
   * `SingleBlockBackfillJob::execute_block`: fetch block `n`, then open the
   * state of its parent, execute the block on a fresh executor and take the
   * resulting bundle.
   */
  function ExecuteBlock(p: Provider, evm: EvmConfig, n: BlockNumber)
    : (r: Result<(Block, BlockExecutionOutput), BlockExecutionError>)
    ensures r.Ok? ==> p.blockWithSenders(n) == Ok(Some(r.value.0))
    ensures r.Ok? ==> p.historyByBlockNumber(SaturatingSub1(n)).Ok?
    ensures FetchBlock(p, n).Err? ==> r == Err(FetchBlock(p, n).error)
    ensures FetchBlock(p, n).Ok? && p.historyByBlockNumber(SaturatingSub1(n)).Err? ==>
      r == Err(Other(p.historyByBlockNumber(SaturatingSub1(n)).error))
    ensures FetchBlock(p, n).Ok? && p.historyByBlockNumber(SaturatingSub1(n)).Ok? ==>
      var exec := evm.executeOne(evm.batchExecutor(p.historyByBlockNumber(SaturatingSub1(n)).value), FetchBlock(p, n).value);
      && (r.Ok? <==> exec.Ok?)
      && (exec.Err? ==> r == Err(Execution(exec.error)))
      && (exec.Ok? ==> r.value.1 == BlockExecutionOutput(exec.value.1, evm.takeBundle(exec.value.0)))
  {
    match FetchBlock(p, n)
    case Err(e) => Err(e)
    case Ok(b) =>
      match p.historyByBlockNumber(SaturatingSub1(n))
      case Err(e) => Err(Other(e))
      case Ok(snap) =>
        match evm.executeOne(evm.batchExecutor(snap), b)
        case Err(x) => Err(Execution(x))
        case Ok((acc, res)) => Ok((b, BlockExecutionOutput(res, evm.takeBundle(acc))))
  }

  /**
   * `SingleBlockBackfillJob::next`: take the next number off the range first,
   * then execute that block; the number is consumed whatever the outcome.
   */
  function SingleBlockStep(p: Provider, evm: EvmConfig, r: RangeInclusive)
    : (res: (Option<Result<(Block, BlockExecutionOutput), BlockExecutionError>>, RangeInclusive))
    ensures res.0.None? <==> r.IsEmpty()
    ensures res.0.None? ==> res.1 == r
    ensures res.0.Some? ==> res.0.value == ExecuteBlock(p, evm, r.start) && r.Numbers() == [r.start] + res.1.Numbers()
  {
    match Next(r)
    case (None, r') => (None, r')
    case (Some(n), r') => (Some(ExecuteBlock(p, evm, n)), r')
  }
}
