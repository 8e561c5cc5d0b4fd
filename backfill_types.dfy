/**
 * The collaborators of the backfill jobs, each reduced to the narrow contract
 * the jobs use: a provider of historical state and blocks, an EVM
 * configuration that builds an accumulating executor, and the batch
 * thresholds. Their internals (the database, EVM execution, state bundles)
 * are opaque values here.
 */
module BackfillTypes {
  import opened Wrappers
  import opened Primitives

  /** The provider errors the jobs distinguish; every other one is `Database`. */
  datatype ProviderError = HeaderNotFound(number: BlockNumber) | Database(code: nat)

  /** A failure inside EVM execution of one block. */
  datatype ExecError = ExecError(code: nat)

  /**
   * `BlockExecutionError`: a provider error wrapped by
   * `BlockExecutionError::other`, or a failure of execution itself.
   */
  datatype BlockExecutionError = Other(provider: ProviderError) | Execution(cause: ExecError)

  /** A read-only view of the state as of some block (`history_by_block_number`). */
  datatype Snapshot = Snapshot(id: nat)

  /** The state a batch executor accumulates across the blocks it executes. */
  datatype ExecState = ExecState(id: nat)

  /** The per-block execution result (receipts, requests, gas). */
  datatype BlockResult = BlockResult(id: nat)

  /** A bundle of state changes taken out of an executor. */
  datatype Bundle = Bundle(id: nat)

  /** Pruning configuration carried by a batch job (never read by it). */
  datatype PruneModes = PruneModes(id: nat)

  /**
   * The provider: historical state by block number, and sealed blocks with
   * their recovered senders by number (`Ok(None)` when the block is absent).
   */
  datatype Provider = Provider(
    historyByBlockNumber: BlockNumber -> Result<Snapshot, ProviderError>,
    blockWithSenders: BlockNumber -> Result<Option<Block>, ProviderError>)

  /**
   * The assumption the batch job relies on when it reads block numbers back
   * from the blocks it fetched: a block found under number `n` is block `n`.
   */
  ghost predicate ReturnsRequestedBlocks(p: Provider)
  {
    forall n: BlockNumber ::
      p.blockWithSenders(n).Ok? && p.blockWithSenders(n).value.Some? ==>
        p.blockWithSenders(n).value.value.Number() == n
  }

  /**
   * The EVM configuration: `batch_executor` over a state snapshot,
   * `execute_one` (which folds one block into the executor's accumulated
   * state), `size_hint`, and `into_state().take_bundle()`.
   */
  datatype EvmConfig = EvmConfig(
    batchExecutor: Snapshot -> ExecState,
    executeOne: (ExecState, Block) -> Result<(ExecState, BlockResult), ExecError>,
    sizeHint: ExecState -> nat,
    takeBundle: ExecState -> Bundle)

  /**
   * `ExecutionStageThresholds`, through the one question the batch job asks
   * it: `is_end_of_batch(blocks, size, gas, elapsed)`.
   */
  datatype Thresholds = Thresholds(isEndOfBatch: (nat, nat, nat, nat) -> bool)

  /** Thresholds where only `max_blocks = k` can end a batch. */
  function MaxBlocks(k: nat): (th: Thresholds)
    ensures forall blocks: nat, size: nat, gas: nat, elapsed: nat ::
      th.isEndOfBatch(blocks, size, gas, elapsed) <==> blocks >= k
  {
    Thresholds((blocks: nat, size: nat, gas: nat, elapsed: nat) => blocks >= k)
  }

  /**
   * `ExecutionOutcome::from_blocks`: the bundle and the ordered per-block
   * results, anchored at the first block's number.
   */
  datatype ExecutionOutcome = ExecutionOutcome(firstBlock: BlockNumber, bundle: Bundle, results: seq<BlockResult>)

  /** `Chain`: the blocks of one committed segment and their combined outcome. */
  datatype Chain = Chain(blocks: seq<Block>, outcome: ExecutionOutcome)

  /** `BlockExecutionOutput`: one block's result and the state it produced. */
  datatype BlockExecutionOutput = BlockExecutionOutput(result: BlockResult, state: Bundle)
}
