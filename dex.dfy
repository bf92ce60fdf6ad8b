/**
 * The order-book venue's (OpenBook/Serum) instruction vocabulary used by the
 * invokers: order sides and types, the self-trade policy, the order payload
 * and the instruction value a client builds.
 */
module Dex {
  import opened Solana

  datatype Side = Bid | Ask

  datatype OrderType = Limit | ImmediateOrCancel | PostOnly

  datatype SelfTradeBehavior = DecrementTake | CancelProvide | AbortTransaction

  /** The payload shared by `NewOrderV3` and `ReplaceOrderByClientId`. */
  datatype NewOrderInstructionV3 = NewOrderInstructionV3(
    side: Side,
    limitPrice: NonZeroU64,
    maxCoinQty: NonZeroU64,
    orderType: OrderType,
    clientOrderId: u64,
    selfTradeBehavior: SelfTradeBehavior,
    limit: u16,
    maxNativePcQtyIncludingFees: NonZeroU64,
    maxTs: i64)

  /**
   * The venue instruction this program builds itself. The venue's other
   * instructions are built by its client library and appear in the model
   * only as descriptors (module Cpi).
   */
  datatype MarketInstruction = ReplaceOrderByClientId(order: NewOrderInstructionV3)

  /** An error of the venue's client library. */
  datatype DexError = DexError(code: nat)

  /**
   * Solana's `Instruction` as this program builds it for the venue. The data
   * field holds the instruction before `pack()` turns it into bytes.
   */
  datatype Instruction = Instruction(programId: Pubkey, accounts: seq<AccountMeta>, data: MarketInstruction)
}
