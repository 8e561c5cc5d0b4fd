/** Block-level primitives shared by the backfill jobs and the pending-block origin. */
module Primitives {

  /** Largest value of a Rust `u64`. */
  const U64_MAX: nat := 0xFFFF_FFFF_FFFF_FFFF

  /** A Rust `u64`. */
  type U64 = n: nat | n <= U64_MAX

  /** `alloy_primitives::BlockNumber` is a `u64`. */
  type BlockNumber = U64

  /** A 32-byte hash (`B256`). */
  type B256 = s: seq<bv8> | |s| == 32 witness seq(32, (i: int) => 0 as bv8)

  /** A 20-byte account address. */
  type Address = s: seq<bv8> | |s| == 20 witness seq(20, (i: int) => 0 as bv8)

  /** The header fields the modelled code reads. */
  datatype Header = Header(number: BlockNumber, parentHash: B256, gasUsed: U64)

  /** A header together with its cached hash (`SealedHeader`). */
  datatype SealedHeader = SealedHeader(header: Header, hash: B256)

  /** An encoded transaction; its contents are opaque to the modelled code. */
  datatype Transaction = Transaction(encoded: seq<bv8>)

  /**
   * A sealed block with its recovered transaction senders (`RecoveredBlock`).
   * Splitting it into header, body and senders and putting it back together,
   * as the batch loop does before execution, yields the same value.
   */
  datatype Block = Block(sealed: SealedHeader, body: seq<Transaction>, senders: seq<Address>)
  {
    /** The block's own number, read from its header. */
    function Number(): BlockNumber { sealed.header.number }

    /** Gas used by the block, read from its header. */
    function GasUsed(): U64 { sealed.header.gasUsed }

    /** The block's header. */
    function Header(): Header { sealed.header }
  }
}
