/**
 * The pymaker value types the engine consumes: `Wad` amounts, `Address`es, OasisDEX `Order`s
 * and the three event records `LogMake`, `LogTake` and `LogKill`. Only the fields the engine
 * reads are kept.
 */
module Pymaker {

  /** One token, in `Wad` units: a `Wad` is an integer count of 10^-18 tokens. */
  const WAD: int := 1_000_000_000_000_000_000

  /** A fixed-point amount with 18 decimals, held as its raw integer value. Subtraction may go negative. */
  type Wad = int

  /** An Ethereum address: a 160-bit number. */
  type Address = a: nat | a < 0x1_0000_0000_0000_0000_0000_0000_0000_0000_0000_0000

  /** A resting OasisDEX offer: `sell_how_much` of `sell_which_token` for `buy_how_much` of `buy_which_token`. */
  datatype Order = Order(
    orderId: nat,
    sellHowMuch: Wad,
    sellWhichToken: Address,
    buyHowMuch: Wad,
    buyWhichToken: Address,
    owner: Address,
    timestamp: int)

  /** A new offer was placed: `maker` pays `payAmount` of `payToken` for `buyAmount` of `buyToken`. */
  datatype LogMake = LogMake(
    orderId: nat,
    maker: Address,
    payToken: Address,
    payAmount: Wad,
    buyToken: Address,
    buyAmount: Wad,
    timestamp: int)

  /** An offer was (partially) filled: `takeAmount` left its sell side and `giveAmount` its buy side. */
  datatype LogTake = LogTake(
    orderId: nat,
    payToken: Address,
    buyToken: Address,
    takeAmount: Wad,
    giveAmount: Wad,
    timestamp: int)

  /** An offer was cancelled. */
  datatype LogKill = LogKill(orderId: nat, timestamp: int)

  /**
   * `Wad` division, `ratio(numerator, denominator)`. Its rounding, and what it does with a zero
   * denominator, belong to pymaker; the model keeps it as a parameter.
   */
  type Ratio = (Wad, Wad) -> Wad

  /** `Order.buy_to_sell_price`: buy amount over sell amount. */
  function BuyToSellPrice(o: Order, ratio: Ratio): Wad {
    ratio(o.buyHowMuch, o.sellHowMuch)
  }

  /** `Order.sell_to_buy_price`: sell amount over buy amount. */
  function SellToBuyPrice(o: Order, ratio: Ratio): Wad {
    ratio(o.sellHowMuch, o.buyHowMuch)
  }
}
