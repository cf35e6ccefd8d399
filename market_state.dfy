/**
 * `State`: one snapshot of the tracked book, and the price statistics drawn from it. The book
 * is set when the snapshot is made and never changed, so the statistics are functions of it.
 * Orders selling WETH for SAI are sell orders (asks), orders selling SAI for WETH are buy
 * orders (bids).
 */
module MarketState {
  import opened Wrappers
  import opened Sequences
  import opened Pymaker

  datatype State = State(timestamp: int, orderBook: seq<Order>, saiAddress: Address, wethAddress: Address)

  function IsSellOrder(sai: Address, weth: Address): Order -> bool {
    (o: Order) => o.buyWhichToken == sai && o.sellWhichToken == weth
  }

  function IsBuyOrder(sai: Address, weth: Address): Order -> bool {
    (o: Order) => o.buyWhichToken == weth && o.sellWhichToken == sai
  }

  /** `sell_orders`: the orders that sell WETH for SAI, in book order. */
  function SellOrders(s: State): (r: seq<Order>)
    ensures forall o :: o in r <==>
      o in s.orderBook && o.buyWhichToken == s.saiAddress && o.sellWhichToken == s.wethAddress
  {
    Filter(IsSellOrder(s.saiAddress, s.wethAddress), s.orderBook)
  }

  /** `buy_orders`: the orders that sell SAI for WETH, in book order. */
  function BuyOrders(s: State): (r: seq<Order>)
    ensures forall o :: o in r <==>
      o in s.orderBook && o.buyWhichToken == s.wethAddress && o.sellWhichToken == s.saiAddress
  {
    Filter(IsBuyOrder(s.saiAddress, s.wethAddress), s.orderBook)
  }

  /** `sell_prices`: SAI asked per WETH, one per sell order. */
  function SellPrices(s: State, ratio: Ratio): seq<Wad> {
    Map((o: Order) => BuyToSellPrice(o, ratio), SellOrders(s))
  }

  /** `buy_prices`: SAI bid per WETH, one per buy order. */
  function BuyPrices(s: State, ratio: Ratio): seq<Wad> {
    Map((o: Order) => SellToBuyPrice(o, ratio), BuyOrders(s))
  }

  /** `closest_sell_price`: the lowest ask. */
  function ClosestSellPrice(s: State, ratio: Ratio): Option<Wad> {
    Min(SellPrices(s, ratio))
  }

  /** `furthest_sell_price`: the highest ask. */
  function FurthestSellPrice(s: State, ratio: Ratio): Option<Wad> {
    Max(SellPrices(s, ratio))
  }

  /** `closest_buy_price`: the highest bid. */
  function ClosestBuyPrice(s: State, ratio: Ratio): Option<Wad> {
    Max(BuyPrices(s, ratio))
  }

  /** `furthest_buy_price`: the lowest bid. */
  function FurthestBuyPrice(s: State, ratio: Ratio): Option<Wad> {
    Min(BuyPrices(s, ratio))
  }

  /**
   * The sell statistics are defined exactly when the book holds a sell order; the closest is
   * the price of some sell order and at most every sell order's price, the furthest the price
   * of some sell order and at least every one; so the closest never exceeds the furthest.
   */
  lemma SellPriceRange(s: State, ratio: Ratio)
    ensures ClosestSellPrice(s, ratio).None? <==> SellOrders(s) == []
    ensures FurthestSellPrice(s, ratio).None? <==> SellOrders(s) == []
    ensures ClosestSellPrice(s, ratio).Some? ==>
      && (exists o :: o in SellOrders(s) && BuyToSellPrice(o, ratio) == ClosestSellPrice(s, ratio).value)
      && (exists o :: o in SellOrders(s) && BuyToSellPrice(o, ratio) == FurthestSellPrice(s, ratio).value)
      && ClosestSellPrice(s, ratio).value <= FurthestSellPrice(s, ratio).value
    ensures forall o :: o in SellOrders(s) ==>
      && ClosestSellPrice(s, ratio).Some?
      && ClosestSellPrice(s, ratio).value <= BuyToSellPrice(o, ratio) <= FurthestSellPrice(s, ratio).value
  {
    var price := (o: Order) => BuyToSellPrice(o, ratio);
    var prices := SellPrices(s, ratio);
    forall o | o in SellOrders(s) ensures price(o) in prices {
      MapIn(price, SellOrders(s), price(o));
    }
    if prices != [] {
      MapIn(price, SellOrders(s), Min(prices).value);
      MapIn(price, SellOrders(s), Max(prices).value);
    }
  }

  /**
   * The buy statistics are defined exactly when the book holds a buy order; the closest is the
   * highest bid and the furthest the lowest, so the closest is never below the furthest.
   */
  lemma BuyPriceRange(s: State, ratio: Ratio)
    ensures ClosestBuyPrice(s, ratio).None? <==> BuyOrders(s) == []
    ensures FurthestBuyPrice(s, ratio).None? <==> BuyOrders(s) == []
    ensures ClosestBuyPrice(s, ratio).Some? ==>
      && (exists o :: o in BuyOrders(s) && SellToBuyPrice(o, ratio) == ClosestBuyPrice(s, ratio).value)
      && (exists o :: o in BuyOrders(s) && SellToBuyPrice(o, ratio) == FurthestBuyPrice(s, ratio).value)
      && ClosestBuyPrice(s, ratio).value >= FurthestBuyPrice(s, ratio).value
    ensures forall o :: o in BuyOrders(s) ==>
      && ClosestBuyPrice(s, ratio).Some?
      && FurthestBuyPrice(s, ratio).value <= SellToBuyPrice(o, ratio) <= ClosestBuyPrice(s, ratio).value
  {
    var price := (o: Order) => SellToBuyPrice(o, ratio);
    var prices := BuyPrices(s, ratio);
    forall o | o in BuyOrders(s) ensures price(o) in prices {
      MapIn(price, BuyOrders(s), price(o));
    }
    if prices != [] {
      MapIn(price, BuyOrders(s), Min(prices).value);
      MapIn(price, BuyOrders(s), Max(prices).value);
    }
  }

  /** With two distinct tokens no order is both a sell and a buy order. */
  lemma SellAndBuyDisjoint(s: State)
    requires s.saiAddress != s.wethAddress
    ensures forall o :: o in SellOrders(s) ==> o !in BuyOrders(s)
  {
  }
}
