/**
 * The origin of the environment a pending block is built in: either the
 * pending block the consensus layer sent, or the latest header from which a
 * pending block is derived.
 */
module PendingBlock {
  import opened Wrappers
  import opened Primitives

  /** A receipt of the pending block; its contents are opaque here. */
  datatype Receipt = Receipt(encoded: seq<bv8>)

  /** `alloy_eips::BlockNumberOrTag`. */
  datatype BlockNumberOrTag = Latest | Finalized | Safe | Earliest | Pending | Num(number: U64)

  /** `RpcBlockHash`: a block hash and whether it must be canonical. */
  datatype RpcBlockHash = RpcBlockHash(blockHash: B256, requireCanonical: Option<bool>)

  /** `alloy_eips::BlockId`: a block named by hash, or by number or tag. */
  datatype BlockId = ByHash(hash: RpcBlockHash) | ByNumber(numberOrTag: BlockNumberOrTag)

  /** `PendingBlockEnvOrigin`. */
  datatype PendingBlockEnvOrigin =
    | ActualPending(block: Block, receipts: seq<Receipt>)
    | DerivedFromLatest(latest: SealedHeader)

  /** `is_actual_pending`: whether the origin is the block sent by the consensus layer. */
  predicate IsActualPending(o: PendingBlockEnvOrigin): (r: bool)
    ensures r <==> exists b, rs :: o == ActualPending(b, rs)
  {
    o.ActualPending?
  }

  /** `into_actual_pending`: the pending block, if the origin carries one. */
  function IntoActualPending(o: PendingBlockEnvOrigin): (r: Option<Block>)
    ensures r.Some? <==> IsActualPending(o)
    ensures r.Some? ==> o == ActualPending(r.value, o.receipts)
  {
    match o
    case ActualPending(block, _) => Some(block)
    case _ => None
  }

  /** `state_block_id`: the block whose state the pending environment reads. */
  function StateBlockId(o: PendingBlockEnvOrigin): (id: BlockId)
    ensures id == ByNumber(Pending) <==> IsActualPending(o)
    ensures id.ByHash? <==> !IsActualPending(o)
    ensures id.ByHash? ==> id.hash == RpcBlockHash(o.latest.hash, None)
  {
    match o
    case ActualPending(_, _) => ByNumber(Pending)
    case DerivedFromLatest(latest) => ByHash(RpcBlockHash(latest.hash, None))
  }

  /** `build_target_hash`: the hash of the block the pending block is built on. */
  function BuildTargetHash(o: PendingBlockEnvOrigin): (h: B256)
    ensures IntoActualPending(o).Some? ==> h == IntoActualPending(o).value.Header().parentHash
    ensures o.DerivedFromLatest? ==> h == o.latest.hash
  {
    match o
    case ActualPending(block, _) => block.Header().parentHash
    case DerivedFromLatest(latest) => latest.hash
  }

  /**
   * For a derived origin, the state is read from exactly the block the
   * pending block is built on: the id names, by hash, the build target.
   */
  lemma DerivedStateIsBuildTarget(o: PendingBlockEnvOrigin)
    requires !IsActualPending(o)
    ensures StateBlockId(o) == ByHash(RpcBlockHash(BuildTargetHash(o), None))
  {
  }

  /**
   * An actual pending block is built on its own parent, and its state is
   * named by the `pending` tag rather than by any hash.
   */
  lemma ActualPendingBuildsOnParent(o: PendingBlockEnvOrigin, b: Block)
    requires IntoActualPending(o) == Some(b)
    ensures BuildTargetHash(o) == b.Header().parentHash
    ensures StateBlockId(o) == ByNumber(Pending)
  {
  }
}
