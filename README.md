# Backfill jobs and pending-block origin, modelled in Dafny

This project models two pieces of an Ethereum execution client.

**The backfill job family.** It re-executes a historical, contiguous block
range against the EVM.
- `BackfillJob` is a pull-based iterator over the remaining range
  `start..=end`. Each pull does four things:
  - opens the state as of the parent of `start` (`start.saturating_sub(1)`);
  - fetches the blocks from `start` upwards and executes them on one
    accumulating batch executor, summing their gas;
  - after each block, asks the batch thresholds whether to stop;
  - yields the executed blocks as one chain segment and moves the range past
    the segment's last block.

  Any failure returns the error and leaves the range untouched.
- `SingleBlockBackfillJob` takes the next number off the range first. It then
  executes that block alone, on a fresh executor over its parent's state.
- A batch job converts into a single-block job. The conversion keeps the
  collaborators, the remaining range and the parallelism, and drops the
  thresholds and the pruning configuration.

**`PendingBlockEnvOrigin`.** This says where the pending block's environment
came from: the actual pending block received from the consensus layer, or a
header derived from the latest block. The model covers its four accessors.

Layout:
- `wrappers.dfy`: `Option` and `Result`.
- `primitives.dfy`: `u64` block numbers, hashes, headers and blocks.
- `ranges.dfy`: Rust's `RangeInclusive<u64>`, including its `exhausted` flag,
  with `is_empty` and `next`.
- `pending_block.dfy`: the pending-block origin and its accessors.
- `backfill_types.dfy`: the collaborators, each reduced to what the jobs use.
  - The provider: historical state and blocks by number.
  - The EVM configuration: build a batch executor, execute one block, size
    hint, take the bundle.
  - The batch thresholds: an opaque `is_end_of_batch`, plus the concrete
    `max_blocks = k` instance.
  - The chain and outcome values.
- `backfill_spec.dfy`: what one pull of each job computes, as functions of
  the collaborators and the remaining range.
- `backfill.dfy`: the two jobs as classes with a mutable `range`.
  - The batch loop of `execute_range` is a `while` loop.
  - Each method is proved to compute its specification function.
- `backfill_properties.dfy`: properties of the specification.
  - What a batch holds.
  - How far the range moves.
  - What draining a job yields.
  - How the batch job with `max_blocks = 1` and the single-block job agree.
  - The source's unit tests, stated as lemmas.

Collaborators and nondeterminism are parameters:
- The wall clock is an oracle `elapsed: nat -> nat`. It gives the batch's
  elapsed time as read after its k-th block. When a job is drained over
  several pulls, a per-pull clock `(pull, k) -> nat` is used instead.
- Properties about draining a range assume `ReturnsRequestedBlocks`: the
  provider returns, under number `n`, a block whose header number is `n`.
  The source reads the number back from the block, at
  crates/exex/exex/src/backfill/job.rs:136-137.

## Model

| member | source | states |
|---|---|---|
| Ranges.RangeInclusive.Numbers | crates/exex/exex/src/backfill/job.rs:91 | The numbers the range still yields: none exactly when it is empty; otherwise `start, start+1, …, end` in ascending order. |
| Ranges.Next | crates/exex/exex/src/backfill/job.rs:180-182 | `next()` on the range yields nothing exactly when the range is empty, and then leaves it alone. Otherwise it yields `start`, and the range left behind yields exactly the remaining numbers, so one number is consumed. |
| PendingBlock.IsActualPending | crates/rpc/rpc-eth-types/src/pending_block.rs:40-42 | True exactly for the `ActualPending` variant. |
| PendingBlock.IntoActualPending | crates/rpc/rpc-eth-types/src/pending_block.rs:45-50 | `Some` exactly when the origin is the actual pending block. In that case it is the block that variant wraps. |
| PendingBlock.StateBlockId | crates/rpc/rpc-eth-types/src/pending_block.rs:56-61 | The `Pending` tag exactly for `ActualPending`. For `DerivedFromLatest` it is a by-hash id naming the latest header's hash, with no canonical requirement. |
| PendingBlock.BuildTargetHash | crates/rpc/rpc-eth-types/src/pending_block.rs:68-73 | The parent hash of the actual pending block's header, or the hash of the latest header. |
| PendingBlock.DerivedStateIsBuildTarget | crates/rpc/rpc-eth-types/src/pending_block.rs:56-73 | For a derived origin, the state id names by hash exactly the block the pending block is built on. |
| PendingBlock.ActualPendingBuildsOnParent | crates/rpc/rpc-eth-types/src/pending_block.rs:56-73 | For the actual pending block, the state id is the `Pending` tag and the build target is that block's parent hash. |
| BackfillTypes.MaxBlocks | crates/exex/exex/src/backfill/job.rs:360-363 | The `max_blocks = k` thresholds end a batch exactly when the batch holds at least `k` blocks, whatever the size, gas or time. |
| BackfillSpec.FetchBlock | crates/exex/exex/src/backfill/job.rs:96-101 | The block lookup succeeds exactly when the provider returns a block. An absent block is the error `HeaderNotFound(n)`, and a provider error is passed on wrapped. |
| BackfillSpec.BatchFrom | crates/exex/exex/src/backfill/job.rs:91-134 | From block `n`, the loop adds at least one block and never more than are left up to `end`. It keeps the blocks already gathered as a prefix, and adds exactly one result per block. |
| BackfillSpec.SaturatingSub1 | crates/exex/exex/src/backfill/job.rs:80 | `n.saturating_sub(1)`, the number of the parent state: never above `n`, exactly `n - 1` when `n > 0`, and 0 at block 0. It is used in the same way at job.rs:220. |
| BackfillSpec.AdvancePast | crates/exex/exex/src/backfill/job.rs:146 | The remaining range after a batch ending at `last` keeps the same end. It is `last+1..=end` when `last < u64::MAX`. It yields exactly the numbers of the old range after `last`. |
| BackfillSpec.AdvancePastAsWritten | crates/exex/exex/src/backfill/job.rs:146 | `last + 1..=end` in wrapping `u64` arithmetic. It agrees with `AdvancePast` below `u64::MAX`, and at `u64::MAX` it starts again at 0. |
| BackfillSpec.RangeBatch | crates/exex/exex/src/backfill/job.rs:78-134 | A failing parent-state lookup at `start.saturating_sub(1)` is the batch's error, wrapped. A successful batch holds between one block and the whole range, with one result per block. Its other failures are stated by `RangeBatchFailsAtStep`, `StepFailureFailsRangeBatch` and `RangeBatchSucceeds`. |
| BackfillSpec.StepOutcome | crates/exex/exex/src/backfill/job.rs:96-118 | One iteration's fallible part succeeds exactly when the block is found and its execution succeeds. A lookup error, or `HeaderNotFound(n)` for a missing block, comes first; otherwise the execution failure is the step's error. |
| BackfillSpec.Segment | crates/exex/exex/src/backfill/job.rs:136-153 | The committed segment holds the batch's blocks and results, and the executor's bundle. It is anchored at its first block's number. |
| BackfillSpec.ExecuteRange | crates/exex/exex/src/backfill/job.rs:71-155 | `execute_range` fails exactly when the batch fails, and then its error is the batch's own error, unchanged. On success:<br>- the segment is the batch as a segment: its blocks and results in order, and the bundle taken from the final executor;<br>- it holds 1 to `end-start+1` blocks and as many results;<br>- it is anchored at its first block;<br>- the range keeps its end. |
| BackfillSpec.BackfillStep | crates/exex/exex/src/backfill/job.rs:47-53 | `next` yields nothing exactly when the range is empty. When it yields nothing or an error, the range is unchanged, so a retry starts at the same block. |
| BackfillSpec.ExecuteBlock | crates/exex/exex/src/backfill/job.rs:202-229 | `execute_block(n)` succeeds exactly when three steps succeed in order: the block lookup, the parent-state lookup at `n.saturating_sub(1)`, and the execution on a fresh executor over that state. The first failure is the result's error:<br>- a missing block gives `HeaderNotFound(n)`;<br>- a provider error is wrapped;<br>- an execution failure is passed on.<br>On success it returns the block the provider holds under `n`, with that execution's result and the executor's bundle. |
| BackfillSpec.SingleBlockStep | crates/exex/exex/src/backfill/job.rs:180-182 | `next` yields nothing exactly when the range is empty. Otherwise it yields `execute_block(start)`, and the range loses exactly its first number whatever the outcome. |
| BackfillProperties.BatchFromIsBatch | crates/exex/exex/src/backfill/job.rs:91-134 | Whatever the loop returns is a complete batch:<br>- its blocks are those fetched under consecutive numbers from `start`;<br>- they were executed in order on one executor;<br>- the gas is their sum;<br>- every threshold check before the last block said no, and the check after the last block said yes, unless the last block is `end`. |
| BackfillProperties.RangeBatchIsBatch | crates/exex/exex/src/backfill/job.rs:78-134 | A successful batch read its parent state successfully and is a complete batch over the executor built on that state. |
| BackfillProperties.BatchFromSameRun | crates/exex/exex/src/backfill/job.rs:91-134 | The loop is deterministic: a state the loop reaches from an earlier state on the same run finishes the batch the same way. |
| BackfillProperties.BatchFromFailsAtStep | crates/exex/exex/src/backfill/job.rs:91-134 | A failed loop failed at a step it reached:<br>- every earlier block was fetched and executed;<br>- no earlier threshold check ended the batch;<br>- that step's lookup or execution error is the loop's error. |
| BackfillProperties.RangeBatchFailsAtStep | crates/exex/exex/src/backfill/job.rs:78-134 | A batch that opened its parent state and then failed failed at a reached step, with that step's error. An absent block `m` gives `HeaderNotFound(m)`, and a failed `execute_one` gives its own error. |
| BackfillProperties.StepFailureFailsRangeBatch | crates/exex/exex/src/backfill/job.rs:78-134 | Conversely, if the run reaches a step whose fetch or execution fails, the batch fails with exactly that step's error. |
| BackfillProperties.RangeBatchSucceeds | crates/exex/exex/src/backfill/job.rs:78-134 | A batch succeeds exactly when its parent state opens and every step the loop reaches (fetch, then execute) succeeds. |
| BackfillProperties.BatchBlockNumbers | crates/exex/exex/src/backfill/job.rs:91-101 | Given a provider that returns the block asked for, the i-th block of a batch is block `start + i`. |
| BackfillProperties.BackfillStepYieldsBatch | crates/exex/exex/src/backfill/job.rs:47-153 | On a non-empty range, `next` yields the batch's own error and leaves the range as it was, or yields the batch as a segment: its blocks and results in order and the bundle of its final executor. |
| BackfillProperties.ExecuteRangeProgress | crates/exex/exex/src/backfill/job.rs:136-153 | Given a provider that returns the block asked for, a successful pull commits exactly the first `|blocks|` numbers of the range, anchored at the old `start`. The range left is the rest of the old range, with the same end; it is empty or starts strictly later. |
| BackfillProperties.CollectChains | crates/exex/exex/src/backfill/job.rs:283 | Draining a batch job with `collect::<Result<Vec<_>, _>>()`, given a provider that returns the block asked for. An empty range gives `Ok([])`. A failed first pull gives exactly that pull's error, so the drain stops at the first error. A successful drain of a non-empty range starts with the first pull's segment. It never yields more segments than the range has numbers. |
| BackfillProperties.ToChain | crates/exex/exex/src/backfill/job.rs:278-291 | The segment the tests expect from one block and its execution output: just that block, anchored at its number, with the output's bundle and its one result. This is `[(n, block)].into()` with `to_execution_outcome(n, output)`. |
| BackfillProperties.CollectCoversRange | crates/exex/exex/src/backfill/job.rs:47-53 | Draining a job without error yields segments whose blocks, concatenated, are every number of the original range once each, in order. Every segment is non-empty, has one result per block and is anchored at its first block. |
| BackfillProperties.CheckBeforeLastIsNegative | crates/exex/exex/src/backfill/job.rs:126-133 | For every block of a batch but the last, the threshold check after it said no. That check was given the count `j`, the size hint of the executor after `j` blocks, the gas of those blocks and the j-th time reading. |
| BackfillProperties.MaxBlocksBatchSize | crates/exex/exex/src/backfill/job.rs:126-133 | With `max_blocks = k`, a batch holds `min(k, blocks left)` blocks, and exactly one block when `k <= 1`. |
| BackfillProperties.OneBlockBatchMatchesSingleBlock | crates/exex/exex/src/backfill/job.rs:71-155 | A one-block batch equals executing that block with the single-block job, converted into a segment. |
| BackfillProperties.SingleBlockMatchesOneBlockBatch | crates/exex/exex/src/backfill/job.rs:202-229 | Conversely, a successful single-block execution of `start` is the batch job's result, as a one-block segment. This needs the range to hold one block (`start == end`), or thresholds with `is_end_of_batch(1, size, gas, t)` true for every size, gas and time. The remaining range is then advanced past `start`. |
| BackfillProperties.MaxBlocksOneYieldsSingleBlocks | crates/exex/exex/src/backfill/job.rs:47-53 | Draining a `max_blocks = 1` job without error yields one segment per number of the range. Each equals the single-block job's output for that number. |
| BackfillProperties.MaxBlocksOneStep | crates/exex/exex/src/backfill/job.rs:71-155 | Given a provider that returns the block asked for, one pull of a `max_blocks = 1` job yields the single-block job's output for `start`, as a segment. The range then loses exactly `start`. |
| BackfillProperties.MaxBlocksOneSucceedsWithSingleBlocks | crates/exex/exex/src/backfill/job.rs:47-53 | If every block of the range executes on its own, draining a `max_blocks = 1` job yields no error. |
| BackfillProperties.SingleItemsPerNumber | crates/exex/exex/src/backfill/job.rs:180-182 | Draining a single-block job yields exactly one item per number of the range, in order, each being `execute_block` of that number. |
| BackfillProperties.SingleItems | crates/exex/exex/src/backfill/job.rs:318-321 | Draining a single-block job with `collect::<Vec<_>>()`: one item per number of the range, errors included. A non-empty range's first item is `execute_block(start)`. |
| BackfillProperties.MaxBlocksOneMatchesSingleBlockJob | crates/exex/exex/src/backfill/job.rs:180-229 | A `max_blocks = 1` job drains without error exactly when every item of the single-block job over the same range is `Ok`. Its segments are then those items, converted into segments. |
| BackfillProperties.BackfillFirstBlock | crates/exex/exex/src/backfill/job.rs:280-291 | With any thresholds, draining a job over `1..=1` yields exactly one segment: block 1 and its single-block execution output. |
| BackfillProperties.SingleBlockFirstBlock | crates/exex/exex/src/backfill/job.rs:314-322 | The single-block job over `1..=1` yields exactly one item, the execution of block 1. |
| BackfillProperties.MaxBlocksOneOverTwoBlocks | crates/exex/exex/src/backfill/job.rs:360-378 | With `max_blocks = 1` over `1..=2`, draining yields exactly two segments. They hold block 1 and block 2 with their own outputs, in that order. |
| BackfillProperties.LastBlockWrapsAround | crates/exex/exex/src/backfill/job.rs:146 | After a successful batch over `u64::MAX..=u64::MAX`, the corrected update leaves an empty range. The update as written instead gives `0..=u64::MAX`, which holds 2^64 numbers. |
| BackfillProperties.AdvancePastNeverRewinds | crates/exex/exex/src/backfill/job.rs:146 | After a batch ending at `last` inside the range, every number left is above `last`, and exactly `end - last` numbers are left. |
| Backfill.BackfillJob.constructor | crates/exex/exex/src/backfill/job.rs:31-38 | The job holds exactly the given configuration and range. |
| Backfill.BackfillJob.RunBatch | crates/exex/exex/src/backfill/job.rs:91-134 | The imperative block loop (fetch, add gas, execute, push, check thresholds) returns exactly `BatchFrom` from the range's start, on an empty batch. |
| Backfill.BackfillJob.ExecuteRange | crates/exex/exex/src/backfill/job.rs:71-155 | On a non-empty range, the item and the new `range` are exactly those of `BackfillStep` on the old range. |
| Backfill.BackfillJob.Next | crates/exex/exex/src/backfill/job.rs:47-53 | The item and the new `range` are exactly those of `BackfillStep` on the old range. |
| Backfill.BackfillJob.IntoSingleBlocks | crates/exex/exex/src/backfill/job.rs:62-64 | Returns a new single-block job with the same configuration, range and parallelism. |
| Backfill.SingleBlockBackfillJob.constructor | crates/exex/exex/src/backfill/job.rs:232-241 | The conversion copies `evm_config`, `provider`, `range` and `stream_parallelism`. It drops the thresholds and the pruning configuration. |
| Backfill.SingleBlockBackfillJob.Next | crates/exex/exex/src/backfill/job.rs:180-182 | The item and the new `range` are exactly those of `SingleBlockStep` on the old range. |

## Left out

- EVM execution, execution results, state bundles, the executor's size hint
  and `ExecutionOutcome::from_blocks`. These are opaque values and functions
  of the EVM configuration.
- `SingleBlockBackfillJob::execute_block` calls `Executor::execute`. Its
  behaviour lives in a crate that is not part of this model. The model takes
  it as `execute_one` on a fresh batch executor followed by taking the
  bundle.
- The two block lookups are one function, `blockWithSenders`:
  `sealed_block_with_senders` in the batch job and `recovered_block` in the
  single-block job. Their difference (sealed block versus recovered block)
  is representation, not behaviour. Unsealing and resealing the block before
  execution (job.rs:113-116) is the identity here.
- `ExecutionStageThresholds::is_end_of_batch` is not part of this model. It
  is an opaque predicate, and `max_blocks = k` is modelled as "at least `k`
  blocks". The defaults of the other limits in the `max_blocks = 1` test
  (changes, gas, duration) are not modelled. The test lemmas use
  `max_blocks` alone.
- Timing (`Instant`, `Duration`) is an oracle parameter. The fetch and
  execution duration accumulators only feed logging and are left out.
- Logging (`debug!`, `trace!`) and `format_gas_throughput` are left out.
- `BatchFrom`, `RunBatch`: `cumulative_gas` is a `u64` in the source. Here it
  is an unbounded sum, so its overflow is not modelled. Gas of a real block
  range is far below `u64::MAX`.
- `BackfillJob::into_stream`, `SingleBlockBackfillJob::into_stream` and
  `StreamBackfillJob` are concurrent, and their source is not part of this
  model.
- The `PendingBlock` struct (an expiry `Instant` and shared pointers) and
  `PendingBlockEnv` hold no logic.
- Properties about draining a job (`CollectChains` and the lemmas over it)
  rely on `ReturnsRequestedBlocks`. So do four single-step lemmas:
  `BatchBlockNumbers`, `ExecuteRangeProgress`, `MaxBlocksOneStep` and
  `LastBlockWrapsAround`. The source reads each block's number back from the
  block (job.rs:137 and 146). A provider that returns block 0 under every
  number would therefore move the range backwards, and these properties do
  not hold for it.
- `Arc` sharing and `Clone` are not modelled. The classes hold values, and
  the conversion copies them.
- AdvancePast: at `last == u64::MAX`, `BackfillJob.ExecuteRange` and
  `BackfillStep` leave an empty range. The source computes
  `last_block_number + 1` at job.rs:146 instead, which panics with overflow
  checks and wraps to 0 without them. The model uses the corrected update;
  `AdvancePastAsWritten` keeps the source's arithmetic (see Findings).
- `Chain` is a sequence of blocks in execution order. The source's
  `Chain::new` (job.rs:153) keys its blocks by their number, as the test at
  job.rs:290 compares them. The two views agree when the provider returns
  the block asked for (`ReturnsRequestedBlocks`), since the batch then holds
  `start, start + 1, ...`.
- The single-block job is not retry-safe in the way the batch job is: a
  failed block is consumed all the same (job.rs:181). The model follows the
  code, and `SingleBlockStep` states this.

## Findings

| source | as written | input that shows it | evidently intended | confidence | as-written member | corrected member |
|---|---|---|---|---|---|---|
| crates/exex/exex/src/backfill/job.rs:146 | `self.range = last_block_number + 1..=*self.range.end()` adds 1 in `u64`. This panics with overflow checks and wraps to 0 without them. | A job over `u64::MAX..=u64::MAX` whose block executes: the new range is `0..=u64::MAX` in a build without overflow checks. | The range left after the last block of the range is empty, so the job ends. | not executed | BackfillProperties.LastBlockWrapsAround | BackfillProperties.AdvancePastNeverRewinds |
