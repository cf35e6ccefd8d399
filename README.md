# OasisDEX market-maker statistics: the order-book replay

`OasisMarketMakerStats` follows how one market maker's offers on OasisDEX look over time.

- **Replay.** It takes every `LogMake`, `LogTake` and `LogKill` event of a block range. It
  collects their distinct timestamps and sorts them. For each timestamp in that order it:
  - starts from the last snapshot's order book, or the empty book for the first;
  - appends each Make of that timestamp, dropping the orders of other owners after each one;
  - reduces or removes the order each Take names;
  - removes the orders each Kill names;
  - records an immutable `State` snapshot.
- **Statistics.** Each `State` splits its book into sell orders (WETH for SAI) and buy orders
  (SAI for WETH). It reports:
  - the closest and furthest sell prices (lowest and highest ask);
  - the closest and furthest buy prices (highest and lowest bid).
  Each is `None` when there is no order of that kind.
- **Failure.** A Take whose tokens disagree with the order it names fails an `assert`, and the
  whole replay aborts.

The model has these modules:

- `Wrappers`: `Option` and `Result`.
- `Sequences`: Python's `filter`, `map`, `min`/`max` with a default, `sorted(set(...))` and
  `functools.reduce`, with their laws.
- `Pymaker`: the pymaker values the engine reads.
  - `Wad` is an integer count of 10^-18 tokens.
  - `Address` is a 160-bit number.
  - `Order`, `LogMake`, `LogTake` and `LogKill` keep only the fields the engine reads.
  - Wad division is a parameter `Ratio`.
- `BookEvents`: `apply_make`, `apply_take` and `apply_kill` as functions from the old book to
  the new one. The failing `assert` becomes an `Err` result.
- `MarketState`: `State` and its statistics.
- `OrderBookReplay`: the specification functions of the fold, plus its step-by-step form.
  - `ReduceStep` is the step and `Replay` is the whole fold.
  - The methods `MakeLoop`, `TakeLoop` and `KillLoop` are the three `for` loops of
    `reduce_func`. `ReduceFunc` is `reduce_func` and `Lifecycle` the fold in `lifecycle`.
  - Each method is proved to compute its specification function.
- `ReplayProperties`: what the replay guarantees:
  - one snapshot per distinct timestamp, in strictly increasing order;
  - each book derived from the previous one;
  - every order belongs to the tracked market maker;
  - an id that has left the book comes back only through a Make;
  - a failure always comes from a Take of the input.
- `Scenarios`: a worked replay for any token pair and any market maker, and a failing one.

Details of the code's behaviour that the model keeps:

- **Owner filter.** The filter runs after each Make, and a timestamp with no Make does not
  filter at all. `ReplayProperties.MakesFilterOnce` proves that filtering after each Make
  equals appending all the Makes and filtering once, whenever a timestamp has a Make.
  `ReplayProperties.ReplayFilterOnce` proves that, inside the replay, the two agree at every
  timestamp, because every book a step starts from holds only the tracked owner's orders.
- **Exhausted orders.** An order leaves the book when either remainder is zero *or negative*.
- **Duplicate ids.** A Take reduces only the first order with its id, but it removes every
  order with that id before appending the reduced one.
- **Order within a timestamp.** Takes at the same timestamp are applied in list order. The
  first mismatching Take ends the replay.

## Model

| member | source | states |
|---|---|---|
| Sequences.Filter | market_maker_stats/oasis_market_maker_stats.py:53-55 | the kept elements are exactly the elements of the input that satisfy the predicate, never more of them than the input has |
| Sequences.FilterConcat | market_maker_stats/oasis_market_maker_stats.py:174-175 | filtering a concatenation filters each part, so the kept orders keep their relative order |
| Sequences.FilterAll | market_maker_stats/oasis_market_maker_stats.py:174-175 | filtering a list whose every element passes returns the identical list |
| Sequences.FilterIdempotent | market_maker_stats/oasis_market_maker_stats.py:102 | filtering twice by the same predicate is filtering once |
| Sequences.FilterFirst | market_maker_stats/oasis_market_maker_stats.py:151 | the first element `filter` keeps is the first element of the list that passes |
| Sequences.FilterFilter | market_maker_stats/oasis_market_maker_stats.py:109-110 | filtering by one predicate and then another is filtering once by both |
| Sequences.FilterSnocFiltered | market_maker_stats/oasis_market_maker_stats.py:101-102 | appending to an already filtered list and filtering again is filtering the list with the element appended once |
| Sequences.FilterSnoc | market_maker_stats/oasis_market_maker_stats.py:100 | the filtered prefix grows by the next element exactly when that element passes |
| Sequences.Map | market_maker_stats/oasis_market_maker_stats.py:58 | one image per element, at the same position |
| Sequences.MapSnoc | market_maker_stats/oasis_market_maker_stats.py:58 | mapping one more element appends its image |
| Sequences.MapIn | market_maker_stats/oasis_market_maker_stats.py:58 | a value is in the mapped list exactly when it is the image of some element |
| Sequences.Min | market_maker_stats/oasis_market_maker_stats.py:42 | `None` exactly for the empty list, otherwise an element at most every element |
| Sequences.Max | market_maker_stats/oasis_market_maker_stats.py:45 | `None` exactly for the empty list, otherwise an element at least every element |
| Sequences.MinAtMostMax | market_maker_stats/oasis_market_maker_stats.py:41-45 | min and max are defined together and min never exceeds max |
| Sequences.Insert | market_maker_stats/oasis_market_maker_stats.py:117 | inserting into a strictly increasing list keeps it strictly increasing and adds exactly that value |
| Sequences.SortedDistinct | market_maker_stats/oasis_market_maker_stats.py:117 | `sorted(set(xs))` is strictly increasing and holds exactly the values of `xs` |
| Sequences.StrictlyIncreasingUnique | market_maker_stats/oasis_market_maker_stats.py:117 | two strictly increasing lists with the same values are equal, so the sorted distinct list is unique |
| Sequences.Reduce | market_maker_stats/oasis_market_maker_stats.py:118 | `functools.reduce` with a step that may raise: the steps run from the start value in input order, and the first failure is the result |
| Sequences.ReduceAppends | market_maker_stats/oasis_market_maker_stats.py:118 | a fold whose step appends one element yields one element per input, each prefix being the step on the prefix before it |
| Sequences.ReduceFails | market_maker_stats/oasis_market_maker_stats.py:118 | a failing fold failed at one of its inputs with that error |
| BookEvents.ApplyMake | market_maker_stats/oasis_market_maker_stats.py:140-148 | the old book unchanged with one order appended, whose id, amounts, tokens, owner and timestamp are the event's |
| BookEvents.MadeOrder | market_maker_stats/oasis_market_maker_stats.py:141-148 | the order a Make describes: its id, pay amount and token as the sell side, buy amount and token as the buy side, maker as owner, and timestamp |
| BookEvents.FindById | market_maker_stats/oasis_market_maker_stats.py:151 | `None` exactly when no order has the id, otherwise the first order of the book with that id |
| BookEvents.ApplyTake | market_maker_stats/oasis_market_maker_stats.py:150-172 | a Take for an id not in the book returns the book as it is; an error always names the Take's order id |
| BookEvents.TakeFails | market_maker_stats/oasis_market_maker_stats.py:153-155 | a Take fails exactly when its order is present and the sell token differs from the pay token or the buy token from the buy token; the sell check comes first |
| BookEvents.TakeMatched | market_maker_stats/oasis_market_maker_stats.py:157-170 | a matched Take reduces the order by the take and give amounts, keeps it as the last order exactly when both remainders are positive, leaves the other orders as they were and in order, and leaves at most one order with the id |
| BookEvents.ReappendOne | market_maker_stats/oasis_market_maker_stats.py:157-170 | removing every order with an id and appending at most one with it keeps the other orders and leaves the id present exactly when one was appended, as the last order |
| BookEvents.TakePreserves | market_maker_stats/oasis_market_maker_stats.py:150-172 | a successful Take adds no id, keeps a book of one owner's orders so, and keeps a book of positive orders positive |
| BookEvents.ApplyKill | market_maker_stats/oasis_market_maker_stats.py:174-175 | exactly the orders of the book with another id remain |
| BookEvents.KillAbsent | market_maker_stats/oasis_market_maker_stats.py:174-175 | killing an id absent from the book returns the identical book |
| BookEvents.KillConcat | market_maker_stats/oasis_market_maker_stats.py:174-175 | a Kill acts on each part of a book separately, keeping the order |
| BookEvents.KillIdempotent | market_maker_stats/oasis_market_maker_stats.py:174-175 | killing the same id twice is killing it once |
| BookEvents.KillUndoesMake | market_maker_stats/oasis_market_maker_stats.py:140-175 | killing the order a Make just added, under a new id, returns the book before the Make |
| MarketState.SellOrders | market_maker_stats/oasis_market_maker_stats.py:53-55 | exactly the orders of the book that buy SAI and sell WETH |
| MarketState.BuyOrders | market_maker_stats/oasis_market_maker_stats.py:60-62 | exactly the orders of the book that buy WETH and sell SAI |
| MarketState.SellPrices | market_maker_stats/oasis_market_maker_stats.py:57-58 | one buy-to-sell price per sell order, in book order |
| MarketState.BuyPrices | market_maker_stats/oasis_market_maker_stats.py:64-65 | one sell-to-buy price per buy order, in book order |
| MarketState.ClosestSellPrice | market_maker_stats/oasis_market_maker_stats.py:41-42 | the minimum of the sell prices, `None` without a sell order; its properties are `SellPriceRange` |
| MarketState.FurthestSellPrice | market_maker_stats/oasis_market_maker_stats.py:44-45 | the maximum of the sell prices, `None` without a sell order; its properties are `SellPriceRange` |
| MarketState.ClosestBuyPrice | market_maker_stats/oasis_market_maker_stats.py:47-48 | the maximum of the buy prices, `None` without a buy order; its properties are `BuyPriceRange` |
| MarketState.FurthestBuyPrice | market_maker_stats/oasis_market_maker_stats.py:50-51 | the minimum of the buy prices, `None` without a buy order; its properties are `BuyPriceRange` |
| MarketState.SellPriceRange | market_maker_stats/oasis_market_maker_stats.py:41-58 | the closest and furthest sell prices are `None` exactly when there is no sell order; otherwise each is the price of a sell order, every sell price lies between them, and closest ≤ furthest |
| MarketState.BuyPriceRange | market_maker_stats/oasis_market_maker_stats.py:47-65 | the closest and furthest buy prices are `None` exactly when there is no buy order; otherwise each is the price of a buy order, every buy price lies between them, and closest ≥ furthest |
| MarketState.SellAndBuyDisjoint | market_maker_stats/oasis_market_maker_stats.py:53-62 | with two distinct tokens no order is both a sell and a buy order |
| OrderBookReplay.EventTimestamps | market_maker_stats/oasis_market_maker_stats.py:117 | strictly increasing, holding exactly the timestamps that some Make, Take or Kill carries |
| OrderBookReplay.ApplyMakes | market_maker_stats/oasis_market_maker_stats.py:99-102 | the reference Make loop: each Make appended in list order, the book filtered to the owner after each; its closed form is `MakesFilterOnce` |
| OrderBookReplay.ApplyTakes | market_maker_stats/oasis_market_maker_stats.py:104-106 | the reference Take loop: each Take applied in list order, the first failure ending it; its properties are `TakesPreserve` and `TakesErrorSource` |
| OrderBookReplay.ApplyKills | market_maker_stats/oasis_market_maker_stats.py:108-110 | the reference Kill loop: each Kill applied in list order; its closed form is `KillsClosed` |
| OrderBookReplay.StepBook | market_maker_stats/oasis_market_maker_stats.py:99-110 | the book after one timestamp: its Makes, then its Takes, then its Kills, each selected by timestamp |
| OrderBookReplay.LastBook | market_maker_stats/oasis_market_maker_stats.py:94-97 | the book a step starts from: the last snapshot's, or the empty book |
| OrderBookReplay.NextStates | market_maker_stats/oasis_market_maker_stats.py:93-115 | the reference `reduce_func`: the snapshots with one more `State` for the timestamp, or the Take's error; its properties are `NextShape` and the `Step` lemmas |
| OrderBookReplay.ReduceStep | market_maker_stats/oasis_market_maker_stats.py:93-115 | `reduce_func` as the two-argument step handed to `reduce`, closing over the events and settings |
| OrderBookReplay.Replay | market_maker_stats/oasis_market_maker_stats.py:117-118 | the reference `lifecycle` fold over the sorted distinct timestamps from no snapshot; its properties are the `Replay` lemmas |
| OrderBookReplay.TakesErrSticky | market_maker_stats/oasis_market_maker_stats.py:104-106 | once a Take has failed, the later Takes do not change the outcome |
| OrderBookReplay.MakesPrefixStep | market_maker_stats/oasis_market_maker_stats.py:100-102 | one more Make of the list appends and filters when it has the step's timestamp and changes nothing otherwise |
| OrderBookReplay.TakesPrefixStep | market_maker_stats/oasis_market_maker_stats.py:105-106 | one more Take of the list is applied when it has the step's timestamp and nothing has failed, and changes nothing otherwise |
| OrderBookReplay.KillsPrefixStep | market_maker_stats/oasis_market_maker_stats.py:109-110 | one more Kill of the list is applied when it has the step's timestamp and changes nothing otherwise |
| OrderBookReplay.TakesFailAt | market_maker_stats/oasis_market_maker_stats.py:105-106 | a Take that fails inside the loop decides the outcome of the whole loop |
| OrderBookReplay.MakeLoop | market_maker_stats/oasis_market_maker_stats.py:99-102 | the loop's book is the one the Makes at the timestamp give, applied in list order with the owner filter after each |
| OrderBookReplay.TakeLoop | market_maker_stats/oasis_market_maker_stats.py:104-106 | the loop's outcome is the one the Takes at the timestamp give in list order, including the first failure |
| OrderBookReplay.KillLoop | market_maker_stats/oasis_market_maker_stats.py:108-110 | the loop's book is the one the Kills at the timestamp give in list order |
| OrderBookReplay.ReduceFunc | market_maker_stats/oasis_market_maker_stats.py:93-115 | the step's result is the reference step `NextStates`: the last book (or the empty one) through Makes, Takes and Kills, appended as a snapshot with the pair |
| OrderBookReplay.Lifecycle | market_maker_stats/oasis_market_maker_stats.py:117-118 | folding the step over the sorted distinct timestamps from no snapshot gives the reference replay `Replay` |
| ReplayProperties.MakesOwned | market_maker_stats/oasis_market_maker_stats.py:99-102 | after at least one Make, or from a book of the owner's orders, the book holds only the owner's orders |
| ReplayProperties.MakesOpen | market_maker_stats/oasis_market_maker_stats.py:99-102 | Makes with positive amounts keep every order's remainders positive |
| ReplayProperties.MakesIds | market_maker_stats/oasis_market_maker_stats.py:99-102 | the Make loop adds no id other than those of its Makes |
| ReplayProperties.MadeOrdersMap | market_maker_stats/oasis_market_maker_stats.py:141-148 | the orders of a list of Makes, built one at a time, are `map(MadeOrder, makes)` |
| ReplayProperties.MakesLast | market_maker_stats/oasis_market_maker_stats.py:100-102 | the Make loop's last Make is appended and the book filtered, and its order is the last of the made orders |
| ReplayProperties.MakesFilterOnce | market_maker_stats/oasis_market_maker_stats.py:99-102 | filtering after each Make equals appending all the Makes and filtering once; with no Make the book is not filtered |
| ReplayProperties.KillsClosed | market_maker_stats/oasis_market_maker_stats.py:108-110 | the Kill loop removes exactly the orders whose id some Kill names and keeps the others in their order |
| ReplayProperties.TakesPreserve | market_maker_stats/oasis_market_maker_stats.py:104-106 | a successful Take loop adds no id and keeps the book the owner's and positive |
| ReplayProperties.KillsPreserve | market_maker_stats/oasis_market_maker_stats.py:108-110 | the Kill loop only removes orders |
| ReplayProperties.StepOwned | market_maker_stats/oasis_market_maker_stats.py:93-110 | one step turns a book of the owner's orders into another such book |
| ReplayProperties.StepOpen | market_maker_stats/oasis_market_maker_stats.py:93-110 | with positive Makes, one step keeps every order's remainders positive |
| ReplayProperties.StepIds | market_maker_stats/oasis_market_maker_stats.py:93-110 | the only ids a step adds are those of the Makes at its timestamp |
| ReplayProperties.StepNoResurrection | market_maker_stats/oasis_market_maker_stats.py:93-110 | an id absent before a step, with no Make of it at that timestamp, is absent after it |
| ReplayProperties.TakesErrorSource | market_maker_stats/oasis_market_maker_stats.py:104-106 | a failing Take loop failed on one of its Takes, whose order's token differs from the event's |
| ReplayProperties.PrevBookIs | market_maker_stats/oasis_market_maker_stats.py:94-97 | the book before the first snapshot is empty, and before any other it is the previous snapshot's |
| ReplayProperties.NextShape | market_maker_stats/oasis_market_maker_stats.py:112-115 | a step keeps the given snapshots and appends one, with the step's timestamp and the pair |
| ReplayProperties.StepAppends | market_maker_stats/oasis_market_maker_stats.py:112-115 | the step given to `reduce` appends exactly one snapshot to any list |
| ReplayProperties.FoldAt | market_maker_stats/oasis_market_maker_stats.py:112-118 | the snapshot appended at index `i` carries the `i`-th timestamp and the pair, and its book is the step on the previous book |
| ReplayProperties.FoldFromEmpty | market_maker_stats/oasis_market_maker_stats.py:118 | the fold from no snapshot gives one snapshot per timestamp, in order, each derived from the one before |
| ReplayProperties.ReplayTimestamps | market_maker_stats/oasis_market_maker_stats.py:112-118 | one snapshot per distinct event timestamp, in strictly increasing order; a timestamp has a snapshot exactly when some event carries it; every snapshot carries the pair |
| ReplayProperties.ReplayDerived | market_maker_stats/oasis_market_maker_stats.py:93-118 | each snapshot's book is the step applied to the previous snapshot's book, or to the empty book for the first |
| ReplayProperties.ReplayEmpty | market_maker_stats/oasis_market_maker_stats.py:117-118 | the replay gives no snapshot and no error exactly when there is no event |
| ReplayProperties.DerivedOwned | market_maker_stats/oasis_market_maker_stats.py:93-118 | in a derived list of snapshots every book holds only the owner's orders |
| ReplayProperties.DerivedOpen | market_maker_stats/oasis_market_maker_stats.py:93-118 | in a derived list of snapshots, with positive Makes, every order has positive remainders |
| ReplayProperties.DerivedNoResurrection | market_maker_stats/oasis_market_maker_stats.py:93-118 | in a derived list with increasing timestamps, an absent id stays absent until a Make of it |
| ReplayProperties.ReplayOwned | market_maker_stats/oasis_market_maker_stats.py:93-118 | every order of every snapshot belongs to the tracked market maker |
| ReplayProperties.ReplayFilterOnce | market_maker_stats/oasis_market_maker_stats.py:99-102 | in the replay, every step's Make loop equals appending that timestamp's Makes to the previous book and filtering once, even with no Make |
| ReplayProperties.ReplayOpen | market_maker_stats/oasis_market_maker_stats.py:93-118 | when every Make has positive amounts, every order of every snapshot has positive remainders |
| ReplayProperties.ReplayNoResurrection | market_maker_stats/oasis_market_maker_stats.py:93-118 | an id absent from snapshot `i` is absent from every later snapshot `j` unless a Make of it is dated after `i` and no later than `j` |
| ReplayProperties.ReplayErrorSource | market_maker_stats/oasis_market_maker_stats.py:150-155 | when the replay fails, some Take of the input names an order whose token differs from the event's, with exactly that error |
| Scenarios.ScenarioTimestamps | market_maker_stats/oasis_market_maker_stats.py:117 | the worked events have the timestamps 100, 200, 300 and 400 |
| Scenarios.ScenarioMakes100 | market_maker_stats/oasis_market_maker_stats.py:99-102 | at 100 the market maker's ask and bid enter the book and the other account's ask is dropped |
| Scenarios.ScenarioStep100 | market_maker_stats/oasis_market_maker_stats.py:93-110 | the step at 100 gives the book of the ask and the bid |
| Scenarios.ScenarioHalfFill | market_maker_stats/oasis_market_maker_stats.py:157-168 | filling half the ask leaves half its amounts and moves it behind the bid |
| Scenarios.ScenarioStep200 | market_maker_stats/oasis_market_maker_stats.py:93-110 | the step at 200 gives the bid followed by the half ask |
| Scenarios.ScenarioRestFill | market_maker_stats/oasis_market_maker_stats.py:167-170 | filling the rest of the ask removes it |
| Scenarios.ScenarioStep300 | market_maker_stats/oasis_market_maker_stats.py:93-110 | the step at 300 leaves only the bid |
| Scenarios.ScenarioStep400 | market_maker_stats/oasis_market_maker_stats.py:174-175 | the Kill at 400 removes the bid and leaves the empty book |
| Scenarios.ScenarioFold400 | market_maker_stats/oasis_market_maker_stats.py:118 | folding the last timestamp onto the first three snapshots gives all four |
| Scenarios.ScenarioFold300 | market_maker_stats/oasis_market_maker_stats.py:118 | folding the last two timestamps onto the first two snapshots gives all four |
| Scenarios.ScenarioFold200 | market_maker_stats/oasis_market_maker_stats.py:118 | folding the last three timestamps onto the first snapshot gives all four |
| Scenarios.ScenarioReplay | market_maker_stats/oasis_market_maker_stats.py:88-118 | the whole replay: ask and bid at 100, bid and half ask at 200, bid alone at 300, empty at 400 |
| Scenarios.QuotePrices | market_maker_stats/oasis_market_maker_stats.py:58 | with 18-decimal division the ask, whole or half filled, asks 300 SAI per WETH and the bid offers 310 |
| Scenarios.ScenarioPrices100 | market_maker_stats/oasis_market_maker_stats.py:41-65 | at 100 both sell prices are 300 SAI and both buy prices 310 SAI |
| Scenarios.ScenarioPrices200 | market_maker_stats/oasis_market_maker_stats.py:41-58 | the half-filled ask keeps the closest sell price at 300 SAI |
| Scenarios.ScenarioPrices300 | market_maker_stats/oasis_market_maker_stats.py:41-65 | with the ask gone there is no sell price, and the closest buy price is 310 SAI |
| Scenarios.BadMakes100 | market_maker_stats/oasis_market_maker_stats.py:99-102 | the ask and bid of the failing scenario enter the book |
| Scenarios.BadStep100 | market_maker_stats/oasis_market_maker_stats.py:93-115 | the failing scenario's first step gives its first snapshot |
| Scenarios.BadTake | market_maker_stats/oasis_market_maker_stats.py:153-154 | a Take naming SAI as the token paid out of the WETH ask fails with a sell-token mismatch |
| Scenarios.BadStep200 | market_maker_stats/oasis_market_maker_stats.py:104-106 | the step holding that Take fails with that mismatch |
| Scenarios.ScenarioMismatch | market_maker_stats/oasis_market_maker_stats.py:117-118 | the whole replay fails with that mismatch and produces no snapshot |

## Left out

- `OasisMarketMakerStats.__init__`: argument parsing and the Web3 connection are not modelled. The three settings the replay reads (SAI, WETH and the market maker's address) are the parameter `Config`.
- Event fetching through `past_make`, `past_take` and `past_kill`: these are blockchain calls. Their three lists are the input `Events`.
- `draw`: the matplotlib chart and the float conversion of the timestamps are not modelled. The statistics it plots are modelled, as `MarketState`.
- Pymaker's `Wad`, `Address` and `Order` internals are foreign code. `Wad` is an unbounded integer and `Address` a 160-bit number. The `otc` reference every `Order` carries is dropped.
- Pymaker.BuyToSellPrice: the Wad division, its rounding and its zero-denominator behaviour are a parameter `Ratio`, so the price lemmas hold for any division. Only `Scenarios.QuotePrices` fixes one, an 18-decimal quotient.
- Running under `python -O` drops the two `assert`s of `apply_take`. The model keeps them, as the `Err` results of `ApplyTake`.
- ReplayProperties.ReplayErrorSource: it states that some Take of the input raised the error, not that it was the first mismatching Take in timestamp and list order.
- `market_maker_stats/radarrelay_market_maker_chart.py` and `market_maker_stats/paradex_market_maker_chart.py` are not part of this model. They only parse arguments, call remote services and draw.
