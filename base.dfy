/** Shared vocabulary of the indexer: optional values, the outcome of an
    on-chain read, addresses, raw bytes and the envelope every event carries. */
module Base {

  datatype Option<+T> = None | Some(value: T)

  /** The answer of a `try_*` contract call: a value, or the call reverted. */
  datatype ReadResult<+T> = Ok(value: T) | Reverted

  /** The value of a read, or `fallback` when the call reverted. */
  function ReadOr<T>(r: ReadResult<T>, fallback: T): T {
    match r
    case Ok(x) => x
    case Reverted => fallback
  }

  type Byte = bv8
  type Bytes = seq<Byte>

  /** A 20-byte account address, read as a big-endian number. */
  const ADDRESS_BOUND: nat := 0x1_0000_0000_0000_0000_0000_0000_0000_0000_0000_0000
  type Address = a: nat | a < ADDRESS_BOUND

  /** `0x0000000000000000000000000000000000000000`: the "burned / not here" sentinel. */
  const ZERO_ADDRESS: Address := 0

  /** The block context stamped onto every entity a handler writes. */
  datatype Provenance = Provenance(blockNumber: nat, blockTimestamp: nat, transactionHash: Bytes)

  /** The envelope the indexing host hands to every handler together with the event's parameters. */
  datatype EventMeta = EventMeta(
    address: Address,
    blockNumber: nat,
    blockTimestamp: nat,
    transactionHash: Bytes,
    logIndex: nat)

  function ProvenanceOf(m: EventMeta): Provenance {
    Provenance(m.blockNumber, m.blockTimestamp, m.transactionHash)
  }
}
