/**
 * The wire records exchanged by sequencers and the unsigned 32-bit
 * arithmetic that the sequencer applies to their heights and gas limits.
 */
module Types {

  /** 2^32: Go's uint32 values are the integers modulo this. */
  const TWO_TO_THE_32: int := 0x1_0000_0000

  /** Go's uint32. */
  type Uint32 = x: int | 0 <= x < 0x1_0000_0000

  const MAX_UINT32: Uint32 := 0xFFFF_FFFF

  /** `a - b` on Go uint32 values: wraps around below zero. */
  function Sub32(a: Uint32, b: Uint32): (r: Uint32)
    ensures a >= b ==> r == a - b
    ensures a < b ==> r == a - b + TWO_TO_THE_32
  {
    (a - b) % TWO_TO_THE_32
  }

  /** `a + b` on Go uint32 values: wraps around above 2^32 - 1. */
  function Add32(a: Uint32, b: Uint32): (r: Uint32)
    ensures a + b < TWO_TO_THE_32 ==> r == a + b
    ensures a + b >= TWO_TO_THE_32 ==> r == a + b - TWO_TO_THE_32
  {
    (a + b) % TWO_TO_THE_32
  }

  /**
   * `latest == height - 1` computed in uint32 holds exactly when `height`
   * is the uint32 successor of `latest`; height 0 follows 2^32 - 1.
   */
  lemma PredecessorIsSuccessor(latest: Uint32, height: Uint32)
    ensures latest == Sub32(height, 1) <==> height == Add32(latest, 1)
    ensures height == 0 ==> (latest == Sub32(height, 1) <==> latest == MAX_UINT32)
  {
  }

  /** A transaction; only its sender and gas limit matter to the ledger. */
  datatype Transaction = Transaction(senderAddress: string, contractAddress: string, gasLimit: Uint32)

  /**
   * A proposed block. `qc` and `tc` are two independent vote lists, each
   * vote a boolean standing in for a signature; `transactions` is ordered
   * and that order is the order in which gas is debited.
   */
  datatype Block = Block(
    height: Uint32,
    leaderSignature: bool,
    qc: seq<bool>,
    tc: seq<bool>,
    transactions: seq<Transaction>)

  /** A peer's vote for the block after `prevHash`. */
  datatype SignedResponse = SignedResponse(height: Uint32, prevHash: string, signature: bool)

  /** A peer's timeout for the block after `prevHash`; same shape as a vote. */
  datatype SignedTimeout = SignedTimeout(height: Uint32, prevHash: string, signature: bool)
}
