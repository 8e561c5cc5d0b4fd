/**
 * The two backfill jobs as iterators over their remaining block range:
 * `BackfillJob` executes the range in batches and yields one chain segment
 * per batch; `SingleBlockBackfillJob` executes one block per step. Each
 * `next` is proved to compute exactly the step function of the same name in
 * `BackfillSpec`, whose properties are proved in `BackfillProperties`.
 */
module Backfill {
  import opened Wrappers
  import opened Primitives
  import opened Ranges
  import opened BackfillTypes
  import opened BackfillSpec

  /** A backfill job over a range, committing a chain segment per batch. */
  class BackfillJob {
    const evmConfig: EvmConfig
    const provider: Provider
    const pruneModes: PruneModes
    const thresholds: Thresholds
    var range: RangeInclusive
    const streamParallelism: nat

    constructor (evmConfig: EvmConfig, provider: Provider, pruneModes: PruneModes,
                 thresholds: Thresholds, range: RangeInclusive, streamParallelism: nat)
      ensures this.evmConfig == evmConfig && this.provider == provider
      ensures this.pruneModes == pruneModes && this.thresholds == thresholds
      ensures this.range == range && this.streamParallelism == streamParallelism
    {
      this.evmConfig := evmConfig;
      this.provider := provider;
      this.pruneModes := pruneModes;
      this.thresholds := thresholds;
      this.range := range;
      this.streamParallelism := streamParallelism;
    }

    /**
     * The block loop of `execute_range`: starting from the executor `acc0`,
     * fetch, execute and record the blocks of the current range in order
     * until the thresholds end the batch, the range's end is reached, or a
     * lookup or execution fails. `elapsed(k)` is the batch's elapsed time
     * as read after its `k`-th block.
     */
    method RunBatch(acc0: ExecState, elapsed: nat -> nat) returns (res: Result<BatchState, BlockExecutionError>)
      requires !range.IsEmpty()
      ensures res == BatchFrom(provider, evmConfig, thresholds, elapsed, range.start, range.end, range.start, EmptyBatch(acc0))
    {
      var start, end := range.start, range.end;
      ghost var spec := BatchFrom(provider, evmConfig, thresholds, elapsed, start, end, start, EmptyBatch(acc0));
      var n := start;
      var st := EmptyBatch(acc0);
      var done := false;
      res := Ok(st);
      while !done
        invariant start <= n <= end
        invariant !done ==> spec == BatchFrom(provider, evmConfig, thresholds, elapsed, start, end, n, st)
        invariant done ==> spec == res
        decreases end - n, if done then 0 else 1
      {
        match FetchBlock(provider, n) {
          case Err(e) =>
            res, done := Err(e), true;
          case Ok(b) =>
            var gas := st.gas + b.GasUsed();
            match evmConfig.executeOne(st.acc, b) {
              case Err(x) =>
                res, done := Err(Execution(x)), true;
              case Ok((acc', result)) =>
                st := BatchState(acc', st.blocks + [b], st.results + [result], gas);
                if thresholds.isEndOfBatch(n as nat - start + 1, evmConfig.sizeHint(acc'), gas, elapsed(|st.blocks|)) || n == end {
                  res, done := Ok(st), true;
                } else {
                  n := n + 1;
                }
            }
        }
      }
    }

    /**
     * `execute_range`: open the parent state of the range's first block,
     * run one batch on an executor over it and, on success, move the range
     * past the batch's last block and return the batch as a chain segment.
     * On error the range is left as it was.
     */
    method ExecuteRange(elapsed: nat -> nat) returns (res: Result<Chain, BlockExecutionError>)
      requires !range.IsEmpty()
      modifies this
      ensures (Some(res), range) == BackfillStep(provider, evmConfig, thresholds, elapsed, old(range))
    {
      match provider.historyByBlockNumber(SaturatingSub1(range.start))
      case Err(e) =>
        res := Err(Other(e));
      case Ok(snap) =>
        var batch := RunBatch(evmConfig.batchExecutor(snap), elapsed);
        match batch
        case Err(e) =>
          res := Err(e);
        case Ok(st) =>
          var last := st.blocks[|st.blocks| - 1].Number();
          range := AdvancePast(range, last);
          res := Ok(Segment(evmConfig, st));
    }

    /** `Iterator::next`: nothing once the range is empty, else one batch. */
    method Next(elapsed: nat -> nat) returns (item: Option<Result<Chain, BlockExecutionError>>)
      modifies this
      ensures (item, range) == BackfillStep(provider, evmConfig, thresholds, elapsed, old(range))
    {
      if range.IsEmpty() {
        return None;
      }
      var res := ExecuteRange(elapsed);
      item := Some(res);
    }

    /** `into_single_blocks`: the same range, one block per step. */
    method IntoSingleBlocks() returns (job: SingleBlockBackfillJob)
      ensures fresh(job)
      ensures job.evmConfig == evmConfig && job.provider == provider
      ensures job.range == range && job.streamParallelism == streamParallelism
    {
      job := new SingleBlockBackfillJob(this);
    }
  }

  /** A backfill job over a range, yielding each block with its own execution output. */
  class SingleBlockBackfillJob {
    const evmConfig: EvmConfig
    const provider: Provider
    var range: RangeInclusive
    const streamParallelism: nat

    /**
     * The conversion from a batch job: the collaborators, the remaining
     * range and the parallelism carry over; the thresholds and the pruning
     * configuration are dropped.
     */
    constructor (job: BackfillJob)
      ensures evmConfig == job.evmConfig && provider == job.provider
      ensures range == job.range && streamParallelism == job.streamParallelism
    {
      evmConfig := job.evmConfig;
      provider := job.provider;
      range := job.range;
      streamParallelism := job.streamParallelism;
    }

    /**
     * `Iterator::next`: take the next number off the range, then execute
     * that block; the number stays consumed whatever the outcome.
     */
    method Next() returns (item: Option<Result<(Block, BlockExecutionOutput), BlockExecutionError>>)
      modifies this
      ensures (item, range) == SingleBlockStep(provider, evmConfig, old(range))
    {
      var (number, rest) := Ranges.Next(range);
      range := rest;
      match number
      case None =>
        item := None;
      case Some(n) =>
        item := Some(BackfillSpec.ExecuteBlock(provider, evmConfig, n));
    }
  }
}
