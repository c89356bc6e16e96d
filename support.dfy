/** Shared types of the runtime: the account identity, the result every
    dispatchable call returns, and the block envelope (header + extrinsics). */
module Support {

  /** Accounts are identified by strings in the concrete runtime. */
  type AccountID = string

  datatype Option<+T> = None | Some(value: T)

  /** `Result<(), &'static str>`: success, or a failure carrying the exact message. */
  datatype DispatchResult = Ok | Err(error: string)

  /** A block header; only the block number is used. */
  datatype Header<N> = Header(blockNumber: N)

  /** One caller-attributed instruction. */
  datatype Extrinsic<A, C> = Extrinsic(caller: A, call: C)

  /** A header followed by the ordered extrinsics of the block. */
  datatype Block<H, X> = Block(header: H, extrinsics: seq<X>)
}
