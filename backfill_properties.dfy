/**
 * Properties of the backfill specification: what a successful batch holds,
 * how far it moves the range, what draining a job yields, and how the batch
 * job and the single-block job agree.
 */
module BackfillProperties {
  import opened Wrappers
  import opened Primitives
  import opened Ranges
  import opened BackfillTypes
  import opened BackfillSpec

  /** The numbers of a sequence of blocks, read from the blocks themselves. */
  function BlockNumbers(bs: seq<Block>): (ns: seq<BlockNumber>)
    ensures |ns| == |bs|
    ensures forall i :: 0 <= i < |bs| ==> ns[i] == bs[i].Number()
  {
    seq(|bs|, i requires 0 <= i < |bs| => bs[i].Number())
  }

  /**
   * Whether the threshold check made after the `k`-th block of a batch over
   * `bs` ends the batch: it is asked with the count `k`, the size of the
   * executor that has executed `bs[..k]`, the gas of `bs[..k]` and the time
   * read after the `k`-th block.
   */
  ghost predicate EndsBatchAfter(evm: EvmConfig, th: Thresholds, elapsed: nat -> nat,
                                 acc0: ExecState, bs: seq<Block>, k: nat)
  {
    1 <= k <= |bs| && ExecFold(evm, acc0, bs[..k]).Ok? &&
    th.isEndOfBatch(k, evm.sizeHint(ExecFold(evm, acc0, bs[..k]).value.0), GasUsed(bs[..k]), elapsed(k))
  }

  /**
   * The loop's state after the blocks `start .. n - 1`: each was fetched under
   * its number, all were executed in order on the executor started at
   * `acc0`, the gas is their sum, and no check after them ended the batch.
   */
  ghost predicate LoopInvariant(p: Provider, evm: EvmConfig, th: Thresholds, elapsed: nat -> nat,
                                start: BlockNumber, end: BlockNumber, acc0: ExecState, n: BlockNumber, st: BatchState)
  {
    start <= n <= end && |st.blocks| == n - start &&
    (forall i :: 0 <= i < |st.blocks| ==> FetchBlock(p, start + i) == Ok(st.blocks[i])) &&
    ExecFold(evm, acc0, st.blocks) == Ok((st.acc, st.results)) &&
    st.gas == GasUsed(st.blocks) &&
    (forall k :: 1 <= k <= |st.blocks| ==> !EndsBatchAfter(evm, th, elapsed, acc0, st.blocks, k))
  }

  /**
   * A complete batch from `start`: between one block and the rest of the
   * range, each fetched under its number and executed in order on one
   * executor, with gas the sum of theirs; no check before the last block
   * ended the batch, and the check after the last one did, unless it was
   * the range's end.
   */
  ghost predicate IsBatch(p: Provider, evm: EvmConfig, th: Thresholds, elapsed: nat -> nat,
                          start: BlockNumber, end: BlockNumber, acc0: ExecState, st: BatchState)
  {
    start <= end && 1 <= |st.blocks| <= end - start + 1 &&
    (forall i :: 0 <= i < |st.blocks| ==> FetchBlock(p, start + i) == Ok(st.blocks[i])) &&
    ExecFold(evm, acc0, st.blocks) == Ok((st.acc, st.results)) &&
    st.gas == GasUsed(st.blocks) &&
    (forall k :: 1 <= k < |st.blocks| ==> !EndsBatchAfter(evm, th, elapsed, acc0, st.blocks, k)) &&
    (EndsBatchAfter(evm, th, elapsed, acc0, st.blocks, |st.blocks|) || start + |st.blocks| - 1 == end)
  }

  /** Executing one more block extends the fold by that block's result. */
  lemma {:induction false} ExecFoldSnoc(evm: EvmConfig, acc0: ExecState, bs: seq<Block>, b: Block)
    requires ExecFold(evm, acc0, bs).Ok?
    ensures
      var (a, rs) := ExecFold(evm, acc0, bs).value;
      ExecFold(evm, acc0, bs + [b]) ==
        match evm.executeOne(a, b)
        case Err(e) => Err(e)
        case Ok((a', r)) => Ok((a', rs + [r]))
  {
    assert (bs + [b])[..|bs + [b]| - 1] == bs;
  }

  /** The checks after the first `|bs|` blocks do not depend on blocks added later. */
  lemma {:induction false} EndsBatchAfterPrefix(evm: EvmConfig, th: Thresholds, elapsed: nat -> nat,
                             acc0: ExecState, bs: seq<Block>, b: Block, k: nat)
    requires k <= |bs|
    ensures EndsBatchAfter(evm, th, elapsed, acc0, bs + [b], k) == EndsBatchAfter(evm, th, elapsed, acc0, bs, k)
  {
    assert (bs + [b])[..k] == bs[..k];
  }

  /** One iteration of the batch loop that does not stop keeps the loop invariant. */
  lemma {:induction false} LoopStep(p: Provider, evm: EvmConfig, th: Thresholds, elapsed: nat -> nat,
                 start: BlockNumber, end: BlockNumber, acc0: ExecState,
                 n: BlockNumber, st: BatchState, b: Block, acc': ExecState, res: BlockResult)
    requires LoopInvariant(p, evm, th, elapsed, start, end, acc0, n, st)
    requires FetchBlock(p, n) == Ok(b) && evm.executeOne(st.acc, b) == Ok((acc', res))
    ensures
      var st' := BatchState(acc', st.blocks + [b], st.results + [res], st.gas + b.GasUsed());
      && |st'.blocks| == n - start + 1
      && (forall i :: 0 <= i < |st'.blocks| ==> FetchBlock(p, start + i) == Ok(st'.blocks[i]))
      && ExecFold(evm, acc0, st'.blocks) == Ok((st'.acc, st'.results))
      && st'.gas == GasUsed(st'.blocks)
      && (forall k :: 1 <= k < |st'.blocks| ==> !EndsBatchAfter(evm, th, elapsed, acc0, st'.blocks, k))
      && (EndsBatchAfter(evm, th, elapsed, acc0, st'.blocks, |st'.blocks|) <==>
            th.isEndOfBatch(n - start + 1, evm.sizeHint(acc'), st'.gas, elapsed(|st'.blocks|)))
  {
    var bs := st.blocks + [b];
    ExecFoldSnoc(evm, acc0, st.blocks, b);
    assert bs[..|bs| - 1] == st.blocks;
    assert bs[..|bs|] == bs;
    forall k | 1 <= k < |bs|
      ensures !EndsBatchAfter(evm, th, elapsed, acc0, bs, k)
    {
      EndsBatchAfterPrefix(evm, th, elapsed, acc0, st.blocks, b, k);
    }
  }

  /** The batch loop, run from any state satisfying its invariant, ends in a complete batch. */
  lemma {:induction false} BatchFromIsBatch(p: Provider, evm: EvmConfig, th: Thresholds, elapsed: nat -> nat,
                                            start: BlockNumber, end: BlockNumber, acc0: ExecState,
                                            n: BlockNumber, st: BatchState)
    requires LoopInvariant(p, evm, th, elapsed, start, end, acc0, n, st)
    requires BatchFrom(p, evm, th, elapsed, start, end, n, st).Ok?
    ensures IsBatch(p, evm, th, elapsed, start, end, acc0, BatchFrom(p, evm, th, elapsed, start, end, n, st).value)
    decreases end - n
  {
    var b := FetchBlock(p, n).value;
    var acc', res := evm.executeOne(st.acc, b).value.0, evm.executeOne(st.acc, b).value.1;
    var st' := BatchState(acc', st.blocks + [b], st.results + [res], st.gas + b.GasUsed());
    LoopStep(p, evm, th, elapsed, start, end, acc0, n, st, b, acc', res);
    if !(th.isEndOfBatch(n - start + 1, evm.sizeHint(acc'), st'.gas, elapsed(|st'.blocks|)) || n == end) {
      assert LoopInvariant(p, evm, th, elapsed, start, end, acc0, n + 1, st');
      BatchFromIsBatch(p, evm, th, elapsed, start, end, acc0, n + 1, st');
    }
  }

  /**
   * What a successful batch holds: the parent state of the range's first
   * block was opened, and the batch is complete (`IsBatch`) for the
   * executor built over that state: blocks `start, start + 1, ...` as the
   * provider returned them, executed in order, with their summed gas; every
   * threshold check before the last block answered no (asked with the block
   * count and the gas so far), and the last block tripped its check or was
   * the end of the range.
   */
  lemma {:induction false} RangeBatchIsBatch(p: Provider, evm: EvmConfig, th: Thresholds, elapsed: nat -> nat, r: RangeInclusive)
    requires !r.IsEmpty() && RangeBatch(p, evm, th, elapsed, r).Ok?
    ensures p.historyByBlockNumber(SaturatingSub1(r.start)).Ok?
    ensures IsBatch(p, evm, th, elapsed, r.start, r.end,
                    evm.batchExecutor(p.historyByBlockNumber(SaturatingSub1(r.start)).value),
                    RangeBatch(p, evm, th, elapsed, r).value)
  {
    var acc0 := evm.batchExecutor(p.historyByBlockNumber(SaturatingSub1(r.start)).value);
    assert LoopInvariant(p, evm, th, elapsed, r.start, r.end, acc0, r.start, EmptyBatch(acc0));
    BatchFromIsBatch(p, evm, th, elapsed, r.start, r.end, acc0, r.start, EmptyBatch(acc0));
  }

  /** Given a provider that returns the blocks asked for, a batch holds `start, start + 1, ...`. */
  lemma {:induction false} BatchBlockNumbers(p: Provider, evm: EvmConfig, th: Thresholds, elapsed: nat -> nat, r: RangeInclusive)
    requires ReturnsRequestedBlocks(p)
    requires !r.IsEmpty() && RangeBatch(p, evm, th, elapsed, r).Ok?
    ensures
      var bs := RangeBatch(p, evm, th, elapsed, r).value.blocks;
      forall i :: 0 <= i < |bs| ==> bs[i].Number() == r.start + i
  {
    RangeBatchIsBatch(p, evm, th, elapsed, r);
    var bs := RangeBatch(p, evm, th, elapsed, r).value.blocks;
    forall i | 0 <= i < |bs|
      ensures bs[i].Number() == r.start + i
    {
      assert FetchBlock(p, r.start + i) == Ok(bs[i]);
      assert p.blockWithSenders(r.start + i) == Ok(Some(bs[i]));
    }
  }

  /** A fold that succeeds on a sequence of blocks succeeds on each of its prefixes. */
  lemma {:induction false} ExecFoldPrefix(evm: EvmConfig, acc0: ExecState, bs: seq<Block>, j: nat)
    requires j <= |bs| && ExecFold(evm, acc0, bs).Ok?
    ensures ExecFold(evm, acc0, bs[..j]).Ok?
    decreases |bs|
  {
    if j < |bs| {
      var front := bs[..|bs| - 1];
      assert front[..j] == bs[..j];
      ExecFoldPrefix(evm, acc0, front, j);
    } else {
      assert bs[..j] == bs;
    }
  }

  /** Two loop states on one run agree on the blocks both have gathered. */
  lemma {:induction false} SameRunPrefix(p: Provider, evm: EvmConfig, th: Thresholds, elapsed: nat -> nat,
                                         start: BlockNumber, end: BlockNumber, acc0: ExecState,
                                         n: BlockNumber, st: BatchState, m: BlockNumber, st': BatchState)
    requires LoopInvariant(p, evm, th, elapsed, start, end, acc0, n, st)
    requires LoopInvariant(p, evm, th, elapsed, start, end, acc0, m, st')
    requires n <= m
    ensures st'.blocks[..|st.blocks|] == st.blocks
  {
    forall i | 0 <= i < |st.blocks|
      ensures st'.blocks[i] == st.blocks[i]
    {
      assert FetchBlock(p, start + i) == Ok(st.blocks[i]);
      assert FetchBlock(p, start + i) == Ok(st'.blocks[i]);
    }
  }

  /**
   * A loop state behind another on the same run can fetch and execute its
   * next block, which is the next block of the state further on.
   */
  lemma {:induction false} SameRunNextBlock(p: Provider, evm: EvmConfig, th: Thresholds, elapsed: nat -> nat,
                                            start: BlockNumber, end: BlockNumber, acc0: ExecState,
                                            n: BlockNumber, st: BatchState, m: BlockNumber, st': BatchState)
    requires LoopInvariant(p, evm, th, elapsed, start, end, acc0, n, st)
    requires LoopInvariant(p, evm, th, elapsed, start, end, acc0, m, st')
    requires n < m
    ensures FetchBlock(p, n) == Ok(st'.blocks[|st.blocks|])
    ensures st'.blocks[..|st.blocks| + 1] == st.blocks + [st'.blocks[|st.blocks|]]
    ensures evm.executeOne(st.acc, st'.blocks[|st.blocks|]).Ok?
  {
    var k := |st.blocks|;
    var b := st'.blocks[k];
    SameRunPrefix(p, evm, th, elapsed, start, end, acc0, n, st, m, st');
    assert st'.blocks[..k + 1] == st.blocks + [b];
    ExecFoldPrefix(evm, acc0, st'.blocks, k + 1);
    ExecFoldSnoc(evm, acc0, st.blocks, b);
  }

  /**
   * A loop state behind another on the same run takes its next iteration
   * without stopping, into the state one block further on.
   */
  lemma {:induction false} SameRunStep(p: Provider, evm: EvmConfig, th: Thresholds, elapsed: nat -> nat,
                                       start: BlockNumber, end: BlockNumber, acc0: ExecState,
                                       n: BlockNumber, st: BatchState, m: BlockNumber, st': BatchState)
      returns (st1: BatchState)
    requires LoopInvariant(p, evm, th, elapsed, start, end, acc0, n, st)
    requires LoopInvariant(p, evm, th, elapsed, start, end, acc0, m, st')
    requires n < m
    ensures LoopInvariant(p, evm, th, elapsed, start, end, acc0, n + 1, st1)
    ensures BatchFrom(p, evm, th, elapsed, start, end, n, st) == BatchFrom(p, evm, th, elapsed, start, end, n + 1, st1)
  {
    var k := |st.blocks|;
    var b := st'.blocks[k];
    SameRunNextBlock(p, evm, th, elapsed, start, end, acc0, n, st, m, st');
    var acc', res := evm.executeOne(st.acc, b).value.0, evm.executeOne(st.acc, b).value.1;
    st1 := BatchState(acc', st.blocks + [b], st.results + [res], st.gas + b.GasUsed());
    LoopStep(p, evm, th, elapsed, start, end, acc0, n, st, b, acc', res);
    assert !EndsBatchAfter(evm, th, elapsed, acc0, st1.blocks, k + 1) by {
      assert !EndsBatchAfter(evm, th, elapsed, acc0, st'.blocks, k + 1);
      assert (st'.blocks[..k + 1])[..k + 1] == st'.blocks[..k + 1];
    }
  }

  /**
   * Loop states are determined by how far the loop got: two states that
   * satisfy the invariant at `n <= m` lie on the same run, so the loop
   * continued from either ends the same way.
   */
  lemma {:induction false} BatchFromSameRun(p: Provider, evm: EvmConfig, th: Thresholds, elapsed: nat -> nat,
                                            start: BlockNumber, end: BlockNumber, acc0: ExecState,
                                            n: BlockNumber, st: BatchState, m: BlockNumber, st': BatchState)
    requires LoopInvariant(p, evm, th, elapsed, start, end, acc0, n, st)
    requires LoopInvariant(p, evm, th, elapsed, start, end, acc0, m, st')
    requires n <= m
    ensures BatchFrom(p, evm, th, elapsed, start, end, n, st) == BatchFrom(p, evm, th, elapsed, start, end, m, st')
    decreases m - n
  {
    if n == m {
      SameRunPrefix(p, evm, th, elapsed, start, end, acc0, n, st, m, st');
      assert st'.blocks == st'.blocks[..|st.blocks|];
    } else {
      var st1 := SameRunStep(p, evm, th, elapsed, start, end, acc0, n, st, m, st');
      BatchFromSameRun(p, evm, th, elapsed, start, end, acc0, n + 1, st1, m, st');
    }
  }

  /**
   * A failed batch failed at some step the loop reached: the blocks before
   * it were fetched and executed and tripped no threshold, and the step's
   * own fetch or execution error is the batch's error.
   */
  lemma {:induction false} BatchFromFailsAtStep(p: Provider, evm: EvmConfig, th: Thresholds, elapsed: nat -> nat,
                                                start: BlockNumber, end: BlockNumber, acc0: ExecState,
                                                n: BlockNumber, st: BatchState)
      returns (m: BlockNumber, st': BatchState)
    requires LoopInvariant(p, evm, th, elapsed, start, end, acc0, n, st)
    requires BatchFrom(p, evm, th, elapsed, start, end, n, st).Err?
    ensures n <= m && LoopInvariant(p, evm, th, elapsed, start, end, acc0, m, st')
    ensures StepOutcome(p, evm, m, st'.acc) == Err(BatchFrom(p, evm, th, elapsed, start, end, n, st).error)
    decreases end - n
  {
    if StepOutcome(p, evm, n, st.acc).Err? {
      m, st' := n, st;
    } else {
      var b := FetchBlock(p, n).value;
      var acc', res := evm.executeOne(st.acc, b).value.0, evm.executeOne(st.acc, b).value.1;
      var st1 := BatchState(acc', st.blocks + [b], st.results + [res], st.gas + b.GasUsed());
      LoopStep(p, evm, th, elapsed, start, end, acc0, n, st, b, acc', res);
      assert LoopInvariant(p, evm, th, elapsed, start, end, acc0, n + 1, st1);
      m, st' := BatchFromFailsAtStep(p, evm, th, elapsed, start, end, acc0, n + 1, st1);
    }
  }

  /**
   * A batch whose run reaches a failing step fails with that step's error:
   * a missing block `m` gives `HeaderNotFound(m)`, a provider error is passed
   * on, and an execution failure is the batch's error.
   */
  lemma {:induction false} StepFailureFailsRangeBatch(p: Provider, evm: EvmConfig, th: Thresholds, elapsed: nat -> nat,
                                                      r: RangeInclusive, m: BlockNumber, st: BatchState)
    requires !r.IsEmpty() && p.historyByBlockNumber(SaturatingSub1(r.start)).Ok?
    requires LoopInvariant(p, evm, th, elapsed, r.start, r.end,
                           evm.batchExecutor(p.historyByBlockNumber(SaturatingSub1(r.start)).value), m, st)
    requires StepOutcome(p, evm, m, st.acc).Err?
    ensures RangeBatch(p, evm, th, elapsed, r) == Err(StepOutcome(p, evm, m, st.acc).error)
  {
    var acc0 := evm.batchExecutor(p.historyByBlockNumber(SaturatingSub1(r.start)).value);
    assert LoopInvariant(p, evm, th, elapsed, r.start, r.end, acc0, r.start, EmptyBatch(acc0));
    BatchFromSameRun(p, evm, th, elapsed, r.start, r.end, acc0, r.start, EmptyBatch(acc0), m, st);
  }

  /**
   * A failed batch whose parent state was opened failed at a reached step,
   * with that step's error.
   */
  lemma {:induction false} RangeBatchFailsAtStep(p: Provider, evm: EvmConfig, th: Thresholds, elapsed: nat -> nat,
                                                 r: RangeInclusive)
      returns (m: BlockNumber, st: BatchState)
    requires !r.IsEmpty() && p.historyByBlockNumber(SaturatingSub1(r.start)).Ok?
    requires RangeBatch(p, evm, th, elapsed, r).Err?
    ensures LoopInvariant(p, evm, th, elapsed, r.start, r.end,
                          evm.batchExecutor(p.historyByBlockNumber(SaturatingSub1(r.start)).value), m, st)
    ensures StepOutcome(p, evm, m, st.acc) == Err(RangeBatch(p, evm, th, elapsed, r).error)
  {
    var acc0 := evm.batchExecutor(p.historyByBlockNumber(SaturatingSub1(r.start)).value);
    assert LoopInvariant(p, evm, th, elapsed, r.start, r.end, acc0, r.start, EmptyBatch(acc0));
    m, st := BatchFromFailsAtStep(p, evm, th, elapsed, r.start, r.end, acc0, r.start, EmptyBatch(acc0));
  }

  /**
   * When a batch succeeds: exactly when the parent state opens and every
   * step the loop reaches (block fetched, then executed) succeeds.
   */
  lemma {:induction false} RangeBatchSucceeds(p: Provider, evm: EvmConfig, th: Thresholds, elapsed: nat -> nat,
                                              r: RangeInclusive)
    requires !r.IsEmpty()
    ensures RangeBatch(p, evm, th, elapsed, r).Ok? <==>
      && p.historyByBlockNumber(SaturatingSub1(r.start)).Ok?
      && forall m: BlockNumber, st: BatchState ::
           LoopInvariant(p, evm, th, elapsed, r.start, r.end,
                         evm.batchExecutor(p.historyByBlockNumber(SaturatingSub1(r.start)).value), m, st)
           ==> StepOutcome(p, evm, m, st.acc).Ok?
  {
    if p.historyByBlockNumber(SaturatingSub1(r.start)).Ok? {
      var acc0 := evm.batchExecutor(p.historyByBlockNumber(SaturatingSub1(r.start)).value);
      if RangeBatch(p, evm, th, elapsed, r).Err? {
        var m, st := RangeBatchFailsAtStep(p, evm, th, elapsed, r);
      } else {
        forall m: BlockNumber, st: BatchState | LoopInvariant(p, evm, th, elapsed, r.start, r.end, acc0, m, st)
          ensures StepOutcome(p, evm, m, st.acc).Ok?
        {
          if StepOutcome(p, evm, m, st.acc).Err? {
            StepFailureFailsRangeBatch(p, evm, th, elapsed, r, m, st);
          }
        }
      }
    }
  }

  /**
   * What `next` yields on a non-empty range: the batch's own error, with the
   * range untouched, or the batch as a segment, holding its blocks and
   * results in order and the bundle of its final executor.
   */
  lemma {:induction false} BackfillStepYieldsBatch(p: Provider, evm: EvmConfig, th: Thresholds, elapsed: nat -> nat,
                                                   r: RangeInclusive)
    requires !r.IsEmpty()
    ensures RangeBatch(p, evm, th, elapsed, r).Err? ==>
      BackfillStep(p, evm, th, elapsed, r) == (Some(Err(RangeBatch(p, evm, th, elapsed, r).error)), r)
    ensures RangeBatch(p, evm, th, elapsed, r).Ok? ==>
      var st := RangeBatch(p, evm, th, elapsed, r).value;
      var item := BackfillStep(p, evm, th, elapsed, r).0;
      && item == Some(Ok(Segment(evm, st)))
      && item.value.value.blocks == st.blocks
      && item.value.value.outcome.results == st.results
      && item.value.value.outcome.bundle == evm.takeBundle(st.acc)
  {
  }

  /**
   * Progress of one successful batch, given a provider that returns the
   * blocks asked for: the segment holds the first numbers of the range in
   * order, its outcome is anchored at the old start, and the range left
   * holds exactly the numbers after the segment, with the same end and a
   * larger start (or nothing at all).
   */
  lemma {:induction false} ExecuteRangeProgress(p: Provider, evm: EvmConfig, th: Thresholds, elapsed: nat -> nat,
                                                r: RangeInclusive)
    requires ReturnsRequestedBlocks(p)
    requires !r.IsEmpty() && ExecuteRange(p, evm, th, elapsed, r).Ok?
    ensures
      var (c, r') := ExecuteRange(p, evm, th, elapsed, r).value;
      && BlockNumbers(c.blocks) == r.Numbers()[..|c.blocks|]
      && c.outcome.firstBlock == r.start
      && r'.Numbers() == r.Numbers()[|c.blocks|..]
      && r'.end == r.end
      && (r'.IsEmpty() || r'.start > r.start)
  {
    var st := RangeBatch(p, evm, th, elapsed, r).value;
    BatchIsRangePrefix(p, evm, th, elapsed, r);
    var last := st.blocks[|st.blocks| - 1].Number();
    assert ExecuteRange(p, evm, th, elapsed, r).value == (Segment(evm, st), AdvancePast(r, last));
  }

  /** The blocks of a successful batch carry the first numbers of the range, the last one ending the prefix. */
  lemma {:induction false} BatchIsRangePrefix(p: Provider, evm: EvmConfig, th: Thresholds, elapsed: nat -> nat,
                                              r: RangeInclusive)
    requires ReturnsRequestedBlocks(p)
    requires !r.IsEmpty() && RangeBatch(p, evm, th, elapsed, r).Ok?
    ensures
      var bs := RangeBatch(p, evm, th, elapsed, r).value.blocks;
      && 1 <= |bs| <= |r.Numbers()|
      && bs[|bs| - 1].Number() == r.start + |bs| - 1
      && BlockNumbers(bs) == r.Numbers()[..|bs|]
  {
    BatchBlockNumbers(p, evm, th, elapsed, r);
    RangeBatchIsBatch(p, evm, th, elapsed, r);
  }

  /** Maps a per-call clock to the elapsed-time readings of one call to `next`. */
  function ClockOf(clock: (nat, nat) -> nat, call: nat): nat -> nat
  {
    k => clock(call, k)
  }

  /**
   * Draining a batch job into a `Result` of all its segments, as
   * `collect::<Result<Vec<_>, _>>()` does: stop with `Ok` once `next` yields
   * nothing, and with the first error. `clock(call, k)` is the time read
   * after the `k`-th block of the batch of the `call`-th pull.
   */
  function CollectChains(p: Provider, evm: EvmConfig, th: Thresholds, clock: (nat, nat) -> nat,
                         r: RangeInclusive, call: nat): (res: Result<seq<Chain>, BlockExecutionError>)
    requires ReturnsRequestedBlocks(p)
    ensures r.IsEmpty() ==> res == Ok([])
    ensures !r.IsEmpty() && ExecuteRange(p, evm, th, ClockOf(clock, call), r).Err? ==>
      res == Err(ExecuteRange(p, evm, th, ClockOf(clock, call), r).error)
    ensures !r.IsEmpty() && res.Ok? ==>
      ExecuteRange(p, evm, th, ClockOf(clock, call), r).Ok? &&
      |res.value| >= 1 && res.value[0] == ExecuteRange(p, evm, th, ClockOf(clock, call), r).value.0
    ensures res.Ok? ==> |res.value| <= |r.Numbers()|
    decreases |r.Numbers()|
  {
    var step := BackfillStep(p, evm, th, ClockOf(clock, call), r);
    if step.0.None? then Ok([])
    else if step.0.value.Err? then Err(step.0.value.error)
    else
      ExecuteRangeProgress(p, evm, th, ClockOf(clock, call), r);
      match CollectChains(p, evm, th, clock, step.1, call + 1)
      case Err(e) => Err(e)
      case Ok(cs) => Ok([step.0.value.value] + cs)
  }

  /** A drain that succeeds on a non-empty range is one successful batch followed by the drain of the rest. */
  lemma {:induction false} CollectChainsStep(p: Provider, evm: EvmConfig, th: Thresholds, clock: (nat, nat) -> nat,
                                             r: RangeInclusive, call: nat, cs: seq<Chain>)
    requires ReturnsRequestedBlocks(p)
    requires !r.IsEmpty() && CollectChains(p, evm, th, clock, r, call) == Ok(cs)
    ensures ExecuteRange(p, evm, th, ClockOf(clock, call), r).Ok?
    ensures
      var (c, r') := ExecuteRange(p, evm, th, ClockOf(clock, call), r).value;
      CollectChains(p, evm, th, clock, r', call + 1).Ok? &&
      cs == [c] + CollectChains(p, evm, th, clock, r', call + 1).value
  {
  }

  /** All blocks of a sequence of segments, in order. */
  function AllBlocks(cs: seq<Chain>): seq<Block>
  {
    if cs == [] then [] else cs[0].blocks + AllBlocks(cs[1..])
  }

  /**
   * If every pull succeeds, the segments together hold each number of the
   * range exactly once and in ascending order; each segment is non-empty,
   * has one result per block and is anchored at its own first block.
   */
  lemma {:induction false} CollectCoversRange(p: Provider, evm: EvmConfig, th: Thresholds, clock: (nat, nat) -> nat,
                                              r: RangeInclusive, call: nat, cs: seq<Chain>)
    requires ReturnsRequestedBlocks(p)
    requires CollectChains(p, evm, th, clock, r, call) == Ok(cs)
    ensures BlockNumbers(AllBlocks(cs)) == r.Numbers()
    ensures forall i :: 0 <= i < |cs| ==>
      1 <= |cs[i].blocks| == |cs[i].outcome.results| && cs[i].outcome.firstBlock == cs[i].blocks[0].Number()
    decreases |r.Numbers()|
  {
    if r.IsEmpty() {
      assert cs == [];
    } else {
      var c, r', rest := CollectCoversStep(p, evm, th, clock, r, call, cs);
      CollectCoversRange(p, evm, th, clock, r', call + 1, rest);
      CoversCons(c, rest, r'.Numbers());
    }
  }

  /** One step of `CollectCoversRange`: the first segment, the range after it and the rest of the drain. */
  lemma {:induction false} CollectCoversStep(p: Provider, evm: EvmConfig, th: Thresholds, clock: (nat, nat) -> nat,
                                             r: RangeInclusive, call: nat, cs: seq<Chain>)
    returns (c: Chain, r': RangeInclusive, rest: seq<Chain>)
    requires ReturnsRequestedBlocks(p)
    requires !r.IsEmpty() && CollectChains(p, evm, th, clock, r, call) == Ok(cs)
    ensures cs == [c] + rest && CollectChains(p, evm, th, clock, r', call + 1) == Ok(rest)
    ensures 1 <= |c.blocks| == |c.outcome.results| && c.outcome.firstBlock == c.blocks[0].Number()
    ensures BlockNumbers(c.blocks) + r'.Numbers() == r.Numbers() && |r'.Numbers()| < |r.Numbers()|
  {
    var el := ClockOf(clock, call);
    CollectChainsStep(p, evm, th, clock, r, call, cs);
    c, r' := ExecuteRange(p, evm, th, el, r).value.0, ExecuteRange(p, evm, th, el, r).value.1;
    rest := CollectChains(p, evm, th, clock, r', call + 1).value;
    ExecuteRangeSplitsRange(p, evm, th, el, r);
  }

  /** A successful batch splits the range into the segment's numbers followed by the range left. */
  lemma {:induction false} ExecuteRangeSplitsRange(p: Provider, evm: EvmConfig, th: Thresholds, elapsed: nat -> nat,
                                                   r: RangeInclusive)
    requires ReturnsRequestedBlocks(p)
    requires !r.IsEmpty() && ExecuteRange(p, evm, th, elapsed, r).Ok?
    ensures
      var (c, r') := ExecuteRange(p, evm, th, elapsed, r).value;
      BlockNumbers(c.blocks) + r'.Numbers() == r.Numbers() && |r'.Numbers()| < |r.Numbers()|
  {
    var (c, r') := ExecuteRange(p, evm, th, elapsed, r).value;
    ExecuteRangeProgress(p, evm, th, elapsed, r);
    assert r.Numbers() == r.Numbers()[..|c.blocks|] + r.Numbers()[|c.blocks|..];
  }

  /** Putting one well-formed segment in front of segments that cover `ns`. */
  lemma {:induction false} CoversCons(c: Chain, rest: seq<Chain>, ns: seq<BlockNumber>)
    requires 1 <= |c.blocks| == |c.outcome.results| && c.outcome.firstBlock == c.blocks[0].Number()
    requires BlockNumbers(AllBlocks(rest)) == ns
    requires forall i :: 0 <= i < |rest| ==>
      1 <= |rest[i].blocks| == |rest[i].outcome.results| && rest[i].outcome.firstBlock == rest[i].blocks[0].Number()
    ensures BlockNumbers(AllBlocks([c] + rest)) == BlockNumbers(c.blocks) + ns
    ensures forall i :: 0 <= i < |[c] + rest| ==>
      1 <= |([c] + rest)[i].blocks| == |([c] + rest)[i].outcome.results|
      && ([c] + rest)[i].outcome.firstBlock == ([c] + rest)[i].blocks[0].Number()
  {
    assert ([c] + rest)[1..] == rest;
    BlockNumbersAppend(c.blocks, AllBlocks(rest));
  }

  /** The numbers of concatenated blocks are the concatenated numbers. */
  lemma {:induction false} BlockNumbersAppend(a: seq<Block>, b: seq<Block>)
    ensures BlockNumbers(a + b) == BlockNumbers(a) + BlockNumbers(b)
  {
  }

  /**
   * Each threshold check before the last block of a successful batch was
   * asked with the executor that had run the first `j` blocks, their summed
   * gas and the `j`-th time reading, and answered no.
   */
  lemma {:induction false} CheckBeforeLastIsNegative(p: Provider, evm: EvmConfig, th: Thresholds, elapsed: nat -> nat,
                                                     r: RangeInclusive, j: nat)
    requires !r.IsEmpty() && RangeBatch(p, evm, th, elapsed, r).Ok?
    requires 1 <= j < |RangeBatch(p, evm, th, elapsed, r).value.blocks|
    ensures p.historyByBlockNumber(SaturatingSub1(r.start)).Ok?
    ensures
      var acc0 := evm.batchExecutor(p.historyByBlockNumber(SaturatingSub1(r.start)).value);
      var bs := RangeBatch(p, evm, th, elapsed, r).value.blocks[..j];
      ExecFold(evm, acc0, bs).Ok? &&
      !th.isEndOfBatch(j, evm.sizeHint(ExecFold(evm, acc0, bs).value.0), GasUsed(bs), elapsed(j))
  {
    RangeBatchIsBatch(p, evm, th, elapsed, r);
    var acc0 := evm.batchExecutor(p.historyByBlockNumber(SaturatingSub1(r.start)).value);
    var bs := RangeBatch(p, evm, th, elapsed, r).value.blocks;
    ExecFoldPrefix(evm, acc0, bs, j);
    assert !EndsBatchAfter(evm, th, elapsed, acc0, bs, j);
  }

  /**
   * With only `max_blocks = k` able to end a batch, a batch holds `k` blocks,
   * or what is left of the range if that is fewer; with `k <= 1` it holds one.
   */
  lemma {:induction false} MaxBlocksBatchSize(p: Provider, evm: EvmConfig, k: nat, elapsed: nat -> nat, r: RangeInclusive)
    requires !r.IsEmpty() && ExecuteRange(p, evm, MaxBlocks(k), elapsed, r).Ok?
    ensures
      var n := |ExecuteRange(p, evm, MaxBlocks(k), elapsed, r).value.0.blocks|;
      n == if k <= 1 then 1 else if k <= r.end - r.start + 1 then k else r.end - r.start + 1
  {
    var th := MaxBlocks(k);
    var st := RangeBatch(p, evm, th, elapsed, r).value;
    assert ExecuteRange(p, evm, th, elapsed, r).value.0 == Segment(evm, st);
    RangeBatchIsBatch(p, evm, th, elapsed, r);
    var bs := st.blocks;
    var n := |bs|;
    var j := if k == 0 then 1 else k;
    if j < n {
      CheckBeforeLastIsNegative(p, evm, th, elapsed, r, j);
    }
    assert n <= j;
    assert bs[..n] == bs;
  }

  /** The segment a single-block job's output amounts to, as the tests build it. */
  function ToChain(b: Block, out: BlockExecutionOutput): (c: Chain)
    ensures c.blocks == [b] && c.outcome.firstBlock == b.Number()
    ensures c.outcome.bundle == out.state && c.outcome.results == [out.result]
  {
    Chain([b], ExecutionOutcome(b.Number(), out.state, [out.result]))
  }

  /**
   * A batch of one block carries exactly what the single-block job returns
   * for that block: the same block, result and bundle.
   */
  lemma {:induction false} OneBlockBatchMatchesSingleBlock(p: Provider, evm: EvmConfig, th: Thresholds,
                                                           elapsed: nat -> nat, r: RangeInclusive)
    requires !r.IsEmpty() && ExecuteRange(p, evm, th, elapsed, r).Ok?
    requires |ExecuteRange(p, evm, th, elapsed, r).value.0.blocks| == 1
    ensures ExecuteBlock(p, evm, r.start).Ok?
    ensures
      var c := ExecuteRange(p, evm, th, elapsed, r).value.0;
      c == ToChain(ExecuteBlock(p, evm, r.start).value.0, ExecuteBlock(p, evm, r.start).value.1)
  {
    var st := RangeBatch(p, evm, th, elapsed, r).value;
    assert ExecuteRange(p, evm, th, elapsed, r).value.0 == Segment(evm, st);
    RangeBatchIsBatch(p, evm, th, elapsed, r);
    var acc0 := evm.batchExecutor(p.historyByBlockNumber(SaturatingSub1(r.start)).value);
    assert FetchBlock(p, r.start + 0) == Ok(st.blocks[0]);
    assert st.blocks[..0] == [];
    assert st.blocks == [] + [st.blocks[0]];
    assert ExecFold(evm, acc0, st.blocks[..0]) == Ok((acc0, []));
  }

  /**
   * Conversely, when the single-block job executes the range's first block
   * and the batch must end after it (the range ends there, or the
   * thresholds trip after any first block), the batch job yields that same
   * block and output as a one-block segment and moves past it.
   */
  lemma {:induction false} SingleBlockMatchesOneBlockBatch(p: Provider, evm: EvmConfig, th: Thresholds,
                                                           elapsed: nat -> nat, r: RangeInclusive,
                                                           b: Block, out: BlockExecutionOutput)
    requires !r.IsEmpty() && ExecuteBlock(p, evm, r.start) == Ok((b, out))
    requires r.start == r.end || forall size: nat, gas: nat, t: nat :: th.isEndOfBatch(1, size, gas, t)
    ensures ExecuteRange(p, evm, th, elapsed, r) == Ok((ToChain(b, out), AdvancePast(r, b.Number())))
  {
    var snap := p.historyByBlockNumber(SaturatingSub1(r.start)).value;
    var acc0 := evm.batchExecutor(snap);
    var (acc, res) := evm.executeOne(acc0, b).value;
    assert FetchBlock(p, r.start) == Ok(b);
    assert out == BlockExecutionOutput(res, evm.takeBundle(acc));
    var st' := BatchState(acc, [] + [b], [] + [res], 0 + b.GasUsed());
    assert th.isEndOfBatch(r.start - r.start + 1, evm.sizeHint(acc), st'.gas, elapsed(|st'.blocks|)) || r.start == r.end;
    assert BatchFrom(p, evm, th, elapsed, r.start, r.end, r.start, EmptyBatch(acc0)) == Ok(st');
    assert st'.blocks == [b] && st'.results == [res];
    assert ToChain(b, out) == Chain(st'.blocks, ExecutionOutcome(st'.blocks[0].Number(), evm.takeBundle(st'.acc), st'.results));
  }

  /** Single-block chains: the `i`-th segment is the `i`-th number's single-block output. */
  ghost predicate ChainsMatchSingleBlocks(p: Provider, evm: EvmConfig, ns: seq<BlockNumber>, cs: seq<Chain>)
  {
    |cs| == |ns| &&
    forall i :: 0 <= i < |ns| ==>
      ExecuteBlock(p, evm, ns[i]).Ok? &&
      cs[i] == ToChain(ExecuteBlock(p, evm, ns[i]).value.0, ExecuteBlock(p, evm, ns[i]).value.1)
  }

  /**
   * With `max_blocks = 1`, a batch job that drains without error yields one
   * segment per number of the range, each equal to what the single-block
   * job computes for that number.
   */
  lemma {:induction false} MaxBlocksOneYieldsSingleBlocks(p: Provider, evm: EvmConfig, clock: (nat, nat) -> nat,
                                                          r: RangeInclusive, call: nat, cs: seq<Chain>)
    requires ReturnsRequestedBlocks(p)
    requires CollectChains(p, evm, MaxBlocks(1), clock, r, call) == Ok(cs)
    ensures ChainsMatchSingleBlocks(p, evm, r.Numbers(), cs)
    decreases |r.Numbers()|
  {
    if !r.IsEmpty() {
      var el := ClockOf(clock, call);
      CollectChainsStep(p, evm, MaxBlocks(1), clock, r, call, cs);
      var (c, r') := ExecuteRange(p, evm, MaxBlocks(1), el, r).value;
      var rest := CollectChains(p, evm, MaxBlocks(1), clock, r', call + 1).value;
      MaxBlocksOneStep(p, evm, el, r);
      MaxBlocksOneYieldsSingleBlocks(p, evm, clock, r', call + 1, rest);
      ChainsMatchCons(p, evm, r.start, r'.Numbers(), c, rest);
    }
  }

  /**
   * One pull of a `max_blocks = 1` job: its segment is the single-block
   * job's output for `start`, and exactly that number leaves the range.
   */
  lemma {:induction false} MaxBlocksOneStep(p: Provider, evm: EvmConfig, el: nat -> nat, r: RangeInclusive)
    requires ReturnsRequestedBlocks(p)
    requires !r.IsEmpty() && ExecuteRange(p, evm, MaxBlocks(1), el, r).Ok?
    ensures
      var (c, r') := ExecuteRange(p, evm, MaxBlocks(1), el, r).value;
      && r.Numbers() == [r.start] + r'.Numbers()
      && ExecuteBlock(p, evm, r.start).Ok?
      && c == ToChain(ExecuteBlock(p, evm, r.start).value.0, ExecuteBlock(p, evm, r.start).value.1)
  {
    MaxBlocksOneConsumesStart(p, evm, el, r);
    MaxBlocksOneSegment(p, evm, el, r);
  }

  /** One pull of a `max_blocks = 1` job takes exactly `start` off the range. */
  lemma {:induction false} MaxBlocksOneConsumesStart(p: Provider, evm: EvmConfig, el: nat -> nat, r: RangeInclusive)
    requires ReturnsRequestedBlocks(p)
    requires !r.IsEmpty() && ExecuteRange(p, evm, MaxBlocks(1), el, r).Ok?
    ensures r.Numbers() == [r.start] + ExecuteRange(p, evm, MaxBlocks(1), el, r).value.1.Numbers()
  {
    MaxBlocksBatchSize(p, evm, 1, el, r);
    ExecuteRangeProgress(p, evm, MaxBlocks(1), el, r);
    assert r.Numbers() == r.Numbers()[..1] + r.Numbers()[1..];
  }

  /** The segment of one pull of a `max_blocks = 1` job is the single-block job's output for `start`. */
  lemma {:induction false} MaxBlocksOneSegment(p: Provider, evm: EvmConfig, el: nat -> nat, r: RangeInclusive)
    requires !r.IsEmpty() && ExecuteRange(p, evm, MaxBlocks(1), el, r).Ok?
    ensures ExecuteBlock(p, evm, r.start).Ok?
    ensures ExecuteRange(p, evm, MaxBlocks(1), el, r).value.0 ==
      ToChain(ExecuteBlock(p, evm, r.start).value.0, ExecuteBlock(p, evm, r.start).value.1)
  {
    MaxBlocksBatchSize(p, evm, 1, el, r);
    OneBlockBatchMatchesSingleBlock(p, evm, MaxBlocks(1), el, r);
  }

  /** Prepending a matching segment for one more number keeps the match. */
  lemma {:induction false} ChainsMatchCons(p: Provider, evm: EvmConfig, n: BlockNumber, ns: seq<BlockNumber>,
                                           c: Chain, rest: seq<Chain>)
    requires ExecuteBlock(p, evm, n).Ok? && c == ToChain(ExecuteBlock(p, evm, n).value.0, ExecuteBlock(p, evm, n).value.1)
    requires ChainsMatchSingleBlocks(p, evm, ns, rest)
    ensures ChainsMatchSingleBlocks(p, evm, [n] + ns, [c] + rest)
  {
    var ns', cs' := [n] + ns, [c] + rest;
    forall i | 0 <= i < |ns'|
      ensures ExecuteBlock(p, evm, ns'[i]).Ok? &&
        cs'[i] == ToChain(ExecuteBlock(p, evm, ns'[i]).value.0, ExecuteBlock(p, evm, ns'[i]).value.1)
    {
      if i > 0 {
        assert ns'[i] == ns[i - 1] && cs'[i] == rest[i - 1];
      }
    }
  }

  /**
   * With `max_blocks = 1`, the batch job drains without error whenever the
   * single-block job succeeds on every number of the range.
   */
  lemma {:induction false} MaxBlocksOneSucceedsWithSingleBlocks(p: Provider, evm: EvmConfig, clock: (nat, nat) -> nat,
                                                                r: RangeInclusive, call: nat)
    requires ReturnsRequestedBlocks(p)
    requires forall i :: 0 <= i < |r.Numbers()| ==> ExecuteBlock(p, evm, r.Numbers()[i]).Ok?
    ensures CollectChains(p, evm, MaxBlocks(1), clock, r, call).Ok?
    decreases |r.Numbers()|
  {
    if !r.IsEmpty() {
      var el := ClockOf(clock, call);
      var (b, out) := ExecuteBlock(p, evm, r.Numbers()[0]).value;
      SingleBlockMatchesOneBlockBatch(p, evm, MaxBlocks(1), el, r, b, out);
      ExecuteRangeProgress(p, evm, MaxBlocks(1), el, r);
      var r' := ExecuteRange(p, evm, MaxBlocks(1), el, r).value.1;
      assert r'.Numbers() == r.Numbers()[1..];
      MaxBlocksOneSucceedsWithSingleBlocks(p, evm, clock, r', call + 1);
    }
  }

  /**
   * Draining a single-block job into the list of its items, errors
   * included: the job goes on past a failed block.
   */
  function SingleItems(p: Provider, evm: EvmConfig, r: RangeInclusive)
    : (items: seq<Result<(Block, BlockExecutionOutput), BlockExecutionError>>)
    ensures |items| == |r.Numbers()|
    ensures !r.IsEmpty() ==> items[0] == ExecuteBlock(p, evm, r.start)
    decreases |r.Numbers()|
  {
    var step := SingleBlockStep(p, evm, r);
    if step.0.None? then [] else [step.0.value] + SingleItems(p, evm, step.1)
  }

  /**
   * A single-block job yields exactly one item per number of its range, in
   * ascending order, and the item for number `n` is `execute_block(n)`,
   * whether it succeeded or not.
   */
  lemma {:induction false} SingleItemsPerNumber(p: Provider, evm: EvmConfig, r: RangeInclusive)
    ensures |SingleItems(p, evm, r)| == |r.Numbers()|
    ensures forall i :: 0 <= i < |r.Numbers()| ==> SingleItems(p, evm, r)[i] == ExecuteBlock(p, evm, r.Numbers()[i])
    decreases |r.Numbers()|
  {
    var step := SingleBlockStep(p, evm, r);
    if step.0.Some? {
      SingleItemsPerNumber(p, evm, step.1);
    }
  }

  /**
   * With `max_blocks = 1`, the batch job and the single-block job agree item
   * by item: the batch job drains without error exactly when every item of
   * the single-block job is `Ok`, and then its `i`-th segment is the
   * single-block job's `i`-th block and output.
   */
  lemma {:induction false} MaxBlocksOneMatchesSingleBlockJob(p: Provider, evm: EvmConfig, clock: (nat, nat) -> nat,
                                                             r: RangeInclusive)
    requires ReturnsRequestedBlocks(p)
    ensures CollectChains(p, evm, MaxBlocks(1), clock, r, 0).Ok? <==>
      forall i :: 0 <= i < |SingleItems(p, evm, r)| ==> SingleItems(p, evm, r)[i].Ok?
    ensures CollectChains(p, evm, MaxBlocks(1), clock, r, 0).Ok? ==>
      var cs := CollectChains(p, evm, MaxBlocks(1), clock, r, 0).value;
      |cs| == |SingleItems(p, evm, r)| &&
      forall i :: 0 <= i < |cs| ==>
        cs[i] == ToChain(SingleItems(p, evm, r)[i].value.0, SingleItems(p, evm, r)[i].value.1)
  {
    SingleItemsPerNumber(p, evm, r);
    if CollectChains(p, evm, MaxBlocks(1), clock, r, 0).Ok? {
      MaxBlocksOneYieldsSingleBlocks(p, evm, clock, r, 0, CollectChains(p, evm, MaxBlocks(1), clock, r, 0).value);
    } else if forall i :: 0 <= i < |SingleItems(p, evm, r)| ==> SingleItems(p, evm, r)[i].Ok? {
      MaxBlocksOneSucceedsWithSingleBlocks(p, evm, clock, r, 0);
    }
  }

  /**
   * A batch job over `1..=1` yields one segment holding block 1 and the
   * output the single-block job computes for it, whatever the thresholds.
   */
  lemma {:induction false} BackfillFirstBlock(p: Provider, evm: EvmConfig, th: Thresholds, clock: (nat, nat) -> nat,
                                              b: Block, out: BlockExecutionOutput)
    requires ReturnsRequestedBlocks(p)
    requires ExecuteBlock(p, evm, 1) == Ok((b, out))
    ensures CollectChains(p, evm, th, clock, Inclusive(1, 1), 0) == Ok([ToChain(b, out)])
  {
    var r := Inclusive(1, 1);
    var r' := AdvancePast(r, b.Number());
    assert BackfillStep(p, evm, th, ClockOf(clock, 0), r) == (Some(Ok(ToChain(b, out))), r') by {
      SingleBlockMatchesOneBlockBatch(p, evm, th, ClockOf(clock, 0), r, b, out);
    }
    assert CollectChains(p, evm, th, clock, r', 1) == Ok([]) by {
      ExecuteRangeProgress(p, evm, th, ClockOf(clock, 0), r);
    }
    assert [ToChain(b, out)] + [] == [ToChain(b, out)];
  }

  /**
   * A single-block job over `1..=1` yields exactly one item, the output of
   * block 1.
   */
  lemma {:induction false} SingleBlockFirstBlock(p: Provider, evm: EvmConfig)
    ensures SingleItems(p, evm, Inclusive(1, 1)) == [ExecuteBlock(p, evm, 1)]
  {
    SingleItemsPerNumber(p, evm, Inclusive(1, 1));
  }

  /**
   * A batch job over `1..=2` with `max_blocks = 1` yields exactly two
   * segments, `[1]` and then `[2]`, each carrying that block's own output.
   */
  lemma {:induction false} MaxBlocksOneOverTwoBlocks(p: Provider, evm: EvmConfig, clock: (nat, nat) -> nat,
                                                     b1: Block, out1: BlockExecutionOutput,
                                                     b2: Block, out2: BlockExecutionOutput)
    requires ReturnsRequestedBlocks(p)
    requires ExecuteBlock(p, evm, 1) == Ok((b1, out1)) && ExecuteBlock(p, evm, 2) == Ok((b2, out2))
    ensures CollectChains(p, evm, MaxBlocks(1), clock, Inclusive(1, 2), 0) == Ok([ToChain(b1, out1), ToChain(b2, out2)])
  {
    var r := Inclusive(1, 2);
    assert CollectChains(p, evm, MaxBlocks(1), clock, r, 0).Ok? by {
      assert r.Numbers() == [1, 2];
      MaxBlocksOneSucceedsWithSingleBlocks(p, evm, clock, r, 0);
    }
    var cs := CollectChains(p, evm, MaxBlocks(1), clock, r, 0).value;
    assert ChainsMatchSingleBlocks(p, evm, [1, 2], cs) by {
      assert r.Numbers() == [1, 2];
      MaxBlocksOneYieldsSingleBlocks(p, evm, clock, r, 0, cs);
    }
    TwoMatchedChains(p, evm, cs, b1, out1, b2, out2);
  }

  /** Segments that match the single-block outputs of blocks 1 and 2 are exactly those two. */
  lemma {:induction false} TwoMatchedChains(p: Provider, evm: EvmConfig, cs: seq<Chain>,
                                            b1: Block, out1: BlockExecutionOutput,
                                            b2: Block, out2: BlockExecutionOutput)
    requires ExecuteBlock(p, evm, 1) == Ok((b1, out1)) && ExecuteBlock(p, evm, 2) == Ok((b2, out2))
    requires ChainsMatchSingleBlocks(p, evm, [1, 2], cs)
    ensures cs == [ToChain(b1, out1), ToChain(b2, out2)]
  {
    assert cs[0] == ToChain(b1, out1) by { assert [1, 2][0] == 1; }
    assert cs[1] == ToChain(b2, out2) by { assert [1, 2][1] == 2; }
  }

  /**
   * At the top of the `u64` range the update `last_block_number + 1..=end`
   * as written wraps: after a batch ending at block `u64::MAX` the range
   * becomes `0..=u64::MAX`, which is not empty, so the job would start over
   * from genesis. The corrected update leaves an empty range.
   */
  lemma {:induction false} LastBlockWrapsAround(p: Provider, evm: EvmConfig, th: Thresholds, elapsed: nat -> nat)
    requires ReturnsRequestedBlocks(p)
    requires ExecuteRange(p, evm, th, elapsed, Inclusive(U64_MAX, U64_MAX)).Ok?
    ensures
      var r := Inclusive(U64_MAX, U64_MAX);
      var last := ExecuteRange(p, evm, th, elapsed, r).value.0.blocks[0].Number();
      && ExecuteRange(p, evm, th, elapsed, r).value.1.IsEmpty()
      && AdvancePastAsWritten(r, last) == Inclusive(0, U64_MAX)
      && |AdvancePastAsWritten(r, last).Numbers()| == U64_MAX + 1
  {
    var r := Inclusive(U64_MAX, U64_MAX);
    ExecuteRangeProgress(p, evm, th, elapsed, r);
    var c := ExecuteRange(p, evm, th, elapsed, r).value.0;
    assert BlockNumbers(c.blocks)[0] == r.Numbers()[0];
  }

  /**
   * Corrected: advancing past the last block of a batch never re-enters the
   * range, even at `u64::MAX`; what is left is exactly the numbers after it.
   */
  lemma {:induction false} AdvancePastNeverRewinds(r: RangeInclusive, last: BlockNumber)
    requires !r.IsEmpty() && r.start <= last <= r.end
    ensures forall i :: 0 <= i < |AdvancePast(r, last).Numbers()| ==> AdvancePast(r, last).Numbers()[i] > last
    ensures |AdvancePast(r, last).Numbers()| == r.end - last
  {
    var ns := r.Numbers();
    assert AdvancePast(r, last).Numbers() == ns[last - r.start + 1..];
  }
}
