/**
 * Worked replays, for any token pair and any market maker. The market maker places an ask
 * (1 WETH for 300 SAI) and a bid (310 SAI for 1 WETH) at time 100, while another account
 * places an ask too; half the ask is filled at 200 and the rest at 300; the bid is cancelled
 * at 400. A Take whose token disagrees with its order aborts the replay.
 */
module Scenarios {
  import opened Wrappers
  import opened Sequences
  import opened Pymaker
  import opened BookEvents
  import opened MarketState
  import opened OrderBookReplay

  /** A fixed-point quotient with 18 decimals; any exact division gives the same prices below. */
  function QuoteRatio(): Ratio {
    (a: Wad, b: Wad) => if b == 0 then 0 else a * WAD / b
  }

  function Ask(c: Config): LogMake {
    LogMake(1, c.marketMakerAddress, c.wethAddress, WAD, c.saiAddress, 300 * WAD, 100)
  }

  function Bid(c: Config): LogMake {
    LogMake(2, c.marketMakerAddress, c.saiAddress, 310 * WAD, c.wethAddress, WAD, 100)
  }

  function Foreign(c: Config, other: Address): LogMake {
    LogMake(3, other, c.wethAddress, WAD, c.saiAddress, 299 * WAD, 100)
  }

  function HalfFill(c: Config, t: int): LogTake {
    LogTake(1, c.wethAddress, c.saiAddress, WAD / 2, 150 * WAD, t)
  }

  function Cancel(): LogKill {
    LogKill(2, 400)
  }

  function AskOrder(c: Config): Order {
    Order(1, WAD, c.wethAddress, 300 * WAD, c.saiAddress, c.marketMakerAddress, 100)
  }

  function BidOrder(c: Config): Order {
    Order(2, 310 * WAD, c.saiAddress, WAD, c.wethAddress, c.marketMakerAddress, 100)
  }

  function HalfAsk(c: Config): Order {
    Order(1, WAD / 2, c.wethAddress, 150 * WAD, c.saiAddress, c.marketMakerAddress, 100)
  }

  function Ev(c: Config, other: Address): Events {
    Events([Ask(c), Bid(c), Foreign(c, other)], [HalfFill(c, 200), HalfFill(c, 300)], [Cancel()])
  }

  function Snapshot(c: Config, t: int, book: seq<Order>): State {
    State(t, book, c.saiAddress, c.wethAddress)
  }

  lemma Filter2<T(!new)>(p: T -> bool, x: T, y: T)
    ensures Filter(p, [x, y]) == (if p(x) then [x] else []) + (if p(y) then [y] else [])
  {
    assert [x, y] == [x] + [y];
    FilterConcat(p, [x], [y]);
    FilterSingleton(p, x);
    FilterSingleton(p, y);
  }

  lemma Filter3<T(!new)>(p: T -> bool, x: T, y: T, z: T)
    ensures Filter(p, [x, y, z]) == (if p(x) then [x] else []) + (if p(y) then [y] else []) + (if p(z) then [z] else [])
  {
    assert [x, y, z] == [x, y] + [z];
    FilterConcat(p, [x, y], [z]);
    Filter2(p, x, y);
    FilterSingleton(p, z);
  }

  /** A step with no Make and no Kill, and one Take: the Take's outcome. */
  lemma StepOfOneTake(book: seq<Order>, t: int, ev: Events, owner: Address, k: LogTake)
    requires Filter(MakeAt(t), ev.makes) == [] && Filter(TakeAt(t), ev.takes) == [k] && Filter(KillAt(t), ev.kills) == []
    ensures StepBook(book, t, ev, owner) == ApplyTake(book, k)
  {
    assert [k] == [] + [k];
    ApplyTakesSnoc(book, [], k);
  }

  /** A step with no Make and no Take, and one Kill. */
  lemma StepOfOneKill(book: seq<Order>, t: int, ev: Events, owner: Address, k: LogKill)
    requires Filter(MakeAt(t), ev.makes) == [] && Filter(TakeAt(t), ev.takes) == [] && Filter(KillAt(t), ev.kills) == [k]
    ensures StepBook(book, t, ev, owner) == Ok(ApplyKill(book, k))
  {
    assert [k] == [] + [k];
    ApplyKillsSnoc(book, [], k);
  }

  /** A step with Makes only. */
  lemma StepOfMakes(book: seq<Order>, t: int, ev: Events, owner: Address)
    requires Filter(TakeAt(t), ev.takes) == [] && Filter(KillAt(t), ev.kills) == []
    ensures StepBook(book, t, ev, owner) == Ok(ApplyMakes(book, Filter(MakeAt(t), ev.makes), owner))
  {
  }

  lemma EvMakesAt(c: Config, other: Address, t: int)
    ensures Filter(MakeAt(t), Ev(c, other).makes) == if t == 100 then [Ask(c), Bid(c), Foreign(c, other)] else []
  {
    Filter3(MakeAt(t), Ask(c), Bid(c), Foreign(c, other));
  }

  lemma EvTakesAt(c: Config, other: Address, t: int)
    ensures Filter(TakeAt(t), Ev(c, other).takes) ==
      if t == 200 then [HalfFill(c, 200)] else if t == 300 then [HalfFill(c, 300)] else []
  {
    Filter2(TakeAt(t), HalfFill(c, 200), HalfFill(c, 300));
  }

  lemma EvKillsAt(c: Config, other: Address, t: int)
    ensures Filter(KillAt(t), Ev(c, other).kills) == if t == 400 then [Cancel()] else []
  {
    FilterSingleton(KillAt(t), Cancel());
  }

  /** The event times are 100 (the Makes), 200 and 300 (the Takes) and 400 (the Kill). */
  lemma ScenarioTimestamps(c: Config, other: Address)
    ensures EventTimestamps(Ev(c, other)) == [100, 200, 300, 400]
  {
    var ev := Ev(c, other);
    assert Ask(c) in ev.makes && HalfFill(c, 200) in ev.takes && HalfFill(c, 300) in ev.takes && Cancel() in ev.kills;
    assert forall t :: Occurs(ev, t) <==> t in [100, 200, 300, 400];
    StrictlyIncreasingUnique(EventTimestamps(ev), [100, 200, 300, 400]);
  }

  /** Two Makes of the tracked owner followed by a foreign one, on the empty book. */
  lemma TwoOwnedOneForeign(m1: LogMake, m2: LogMake, m3: LogMake, owner: Address)
    requires m1.maker == owner && m2.maker == owner && m3.maker != owner
    ensures ApplyMakes([], [m1, m2], owner) == [MadeOrder(m1), MadeOrder(m2)]
    ensures ApplyMakes([], [m1, m2, m3], owner) == [MadeOrder(m1), MadeOrder(m2)]
  {
    var o1, o2, o3 := MadeOrder(m1), MadeOrder(m2), MadeOrder(m3);
    assert [m1] == [] + [m1];
    ApplyMakesSnoc([], [], m1, owner);
    FilterSingleton(OwnedBy(owner), o1);
    assert [m1, m2] == [m1] + [m2];
    ApplyMakesSnoc([], [m1], m2, owner);
    assert [o1] + [o2] == [o1, o2];
    Filter2(OwnedBy(owner), o1, o2);
    assert [m1, m2, m3] == [m1, m2] + [m3];
    ApplyMakesSnoc([], [m1, m2], m3, owner);
    assert [o1, o2] + [o3] == [o1, o2, o3];
    Filter3(OwnedBy(owner), o1, o2, o3);
  }

  /** At 100 the market maker's ask and bid enter the book; the other account's ask is dropped. */
  lemma ScenarioStep100(c: Config, other: Address)
    requires other != c.marketMakerAddress
    ensures StepBook([], 100, Ev(c, other), c.marketMakerAddress) == Ok([AskOrder(c), BidOrder(c)])
  {
    EvTakesAt(c, other, 100);
    EvKillsAt(c, other, 100);
    StepOfMakes([], 100, Ev(c, other), c.marketMakerAddress);
    ScenarioMakes100(c, other);
  }

  lemma ScenarioMakes100(c: Config, other: Address)
    requires other != c.marketMakerAddress
    ensures ApplyMakes([], Filter(MakeAt(100), Ev(c, other).makes), c.marketMakerAddress) == [AskOrder(c), BidOrder(c)]
  {
    EvMakesAt(c, other, 100);
    TwoOwnedOneForeign(Ask(c), Bid(c), Foreign(c, other), c.marketMakerAddress);
  }

  /** The first Take halves the ask, which keeps its price and moves behind the bid. */
  lemma ScenarioHalfFill(c: Config)
    ensures ApplyTake([AskOrder(c), BidOrder(c)], HalfFill(c, 200)) == Ok([BidOrder(c), HalfAsk(c)])
  {
    Filter2(HasId(1), AskOrder(c), BidOrder(c));
    Filter2(HasOtherId(1), AskOrder(c), BidOrder(c));
    assert Filter(HasId(1), [AskOrder(c), BidOrder(c)]) == [AskOrder(c)];
    assert FindById([AskOrder(c), BidOrder(c)], 1) == Some(AskOrder(c));
    assert Filter(HasOtherId(1), [AskOrder(c), BidOrder(c)]) == [BidOrder(c)];
    assert WAD - WAD / 2 == WAD / 2;
    assert [BidOrder(c)] + [HalfAsk(c)] == [BidOrder(c), HalfAsk(c)];
  }

  lemma ScenarioStep200(c: Config, other: Address)
    ensures StepBook([AskOrder(c), BidOrder(c)], 200, Ev(c, other), c.marketMakerAddress) == Ok([BidOrder(c), HalfAsk(c)])
  {
    EvMakesAt(c, other, 200);
    EvTakesAt(c, other, 200);
    EvKillsAt(c, other, 200);
    StepOfOneTake([AskOrder(c), BidOrder(c)], 200, Ev(c, other), c.marketMakerAddress, HalfFill(c, 200));
    ScenarioHalfFill(c);
  }

  /** The second Take uses up the ask, which leaves the book. */
  lemma ScenarioRestFill(c: Config)
    ensures ApplyTake([BidOrder(c), HalfAsk(c)], HalfFill(c, 300)) == Ok([BidOrder(c)])
  {
    Filter2(HasId(1), BidOrder(c), HalfAsk(c));
    Filter2(HasOtherId(1), BidOrder(c), HalfAsk(c));
    assert [BidOrder(c)] + [] == [BidOrder(c)];
  }

  lemma ScenarioStep300(c: Config, other: Address)
    ensures StepBook([BidOrder(c), HalfAsk(c)], 300, Ev(c, other), c.marketMakerAddress) == Ok([BidOrder(c)])
  {
    EvMakesAt(c, other, 300);
    EvTakesAt(c, other, 300);
    EvKillsAt(c, other, 300);
    StepOfOneTake([BidOrder(c), HalfAsk(c)], 300, Ev(c, other), c.marketMakerAddress, HalfFill(c, 300));
    ScenarioRestFill(c);
  }

  /** At 400 the Kill removes the bid. */
  lemma ScenarioStep400(c: Config, other: Address)
    ensures StepBook([BidOrder(c)], 400, Ev(c, other), c.marketMakerAddress) == Ok([])
  {
    EvMakesAt(c, other, 400);
    EvTakesAt(c, other, 400);
    EvKillsAt(c, other, 400);
    StepOfOneKill([BidOrder(c)], 400, Ev(c, other), c.marketMakerAddress, Cancel());
    FilterSingleton(HasOtherId(2), BidOrder(c));
  }

  function Snapshots(c: Config): seq<State> {
    [Snapshot(c, 100, [AskOrder(c), BidOrder(c)]),
     Snapshot(c, 200, [BidOrder(c), HalfAsk(c)]),
     Snapshot(c, 300, [BidOrder(c)]),
     Snapshot(c, 400, [])]
  }

  /** The snapshots up to index `n`, and the next one appended. */
  lemma SnapshotsPrefix(c: Config, n: nat)
    requires n < 4
    ensures Snapshots(c)[..n] + [Snapshots(c)[n]] == Snapshots(c)[..n + 1]
    ensures n > 0 ==> LastBook(Snapshots(c)[..n]) == Snapshots(c)[n - 1].orderBook
  {
  }

  lemma NextOk(states: seq<State>, t: int, ev: Events, c: Config, book: seq<Order>)
    requires StepBook(LastBook(states), t, ev, c.marketMakerAddress) == Ok(book)
    ensures NextStates(states, t, ev, c) == Ok(states + [State(t, book, c.saiAddress, c.wethAddress)])
  {
  }

  lemma FoldCons(states: seq<State>, ts: seq<int>, ev: Events, c: Config, next: seq<State>)
    requires ts != [] && NextStates(states, ts[0], ev, c) == Ok(next)
    ensures Reduce(ReduceStep(ev, c), states, ts) == Reduce(ReduceStep(ev, c), next, ts[1..])
  {
  }

  lemma ScenarioFold400(c: Config, other: Address)
    ensures Reduce(ReduceStep(Ev(c, other), c), Snapshots(c)[..3], [400]) == Ok(Snapshots(c))
  {
    var s := Snapshots(c);
    SnapshotsPrefix(c, 3);
    assert s[..4] == s;
    ScenarioStep400(c, other);
    NextOk(s[..3], 400, Ev(c, other), c, []);
    FoldCons(s[..3], [400], Ev(c, other), c, s);
    assert [400][1..] == [];
  }

  lemma ScenarioFold300(c: Config, other: Address)
    ensures Reduce(ReduceStep(Ev(c, other), c), Snapshots(c)[..2], [300, 400]) == Ok(Snapshots(c))
  {
    var s := Snapshots(c);
    SnapshotsPrefix(c, 2);
    ScenarioStep300(c, other);
    NextOk(s[..2], 300, Ev(c, other), c, [BidOrder(c)]);
    FoldCons(s[..2], [300, 400], Ev(c, other), c, s[..3]);
    assert [300, 400][1..] == [400];
    ScenarioFold400(c, other);
  }

  lemma ScenarioFold200(c: Config, other: Address)
    ensures Reduce(ReduceStep(Ev(c, other), c), Snapshots(c)[..1], [200, 300, 400]) == Ok(Snapshots(c))
  {
    var s := Snapshots(c);
    SnapshotsPrefix(c, 1);
    ScenarioStep200(c, other);
    NextOk(s[..1], 200, Ev(c, other), c, [BidOrder(c), HalfAsk(c)]);
    FoldCons(s[..1], [200, 300, 400], Ev(c, other), c, s[..2]);
    assert [200, 300, 400][1..] == [300, 400];
    ScenarioFold300(c, other);
  }

  /**
   * The replay of the events: both of the market maker's orders at 100 (the other account's
   * is dropped), the ask halved and moved behind the bid at 200, the ask gone at 300, the bid
   * gone at 400.
   */
  lemma ScenarioReplay(c: Config, other: Address)
    requires other != c.marketMakerAddress
    ensures Replay(Ev(c, other), c) == Ok([
      State(100, [AskOrder(c), BidOrder(c)], c.saiAddress, c.wethAddress),
      State(200, [BidOrder(c), HalfAsk(c)], c.saiAddress, c.wethAddress),
      State(300, [BidOrder(c)], c.saiAddress, c.wethAddress),
      State(400, [], c.saiAddress, c.wethAddress)])
  {
    var s := Snapshots(c);
    ScenarioTimestamps(c, other);
    SnapshotsPrefix(c, 0);
    ScenarioStep100(c, other);
    NextOk([], 100, Ev(c, other), c, [AskOrder(c), BidOrder(c)]);
    FoldCons([], [100, 200, 300, 400], Ev(c, other), c, s[..1]);
    assert [100, 200, 300, 400][1..] == [200, 300, 400];
    ScenarioFold200(c, other);
  }

  lemma MapSingle<T, U>(f: T -> U, x: T)
    ensures Map(f, [x]) == [f(x)]
  {
  }

  lemma MinMaxSingle(x: int)
    ensures Min([x]) == Some(x) && Max([x]) == Some(x)
  {
  }

  /** The ask, half filled or not, asks 300 SAI per WETH; the bid offers 310. */
  lemma QuotePrices(c: Config)
    ensures BuyToSellPrice(AskOrder(c), QuoteRatio()) == 300 * WAD
    ensures BuyToSellPrice(HalfAsk(c), QuoteRatio()) == 300 * WAD
    ensures SellToBuyPrice(BidOrder(c), QuoteRatio()) == 310 * WAD
  {
    assert (300 * WAD) * WAD / WAD == 300 * WAD;
    assert (150 * WAD) * WAD / (WAD / 2) == 300 * WAD;
    assert (310 * WAD) * WAD / WAD == 310 * WAD;
  }

  /** At 100 the best ask is 300 SAI per WETH and the best bid 310 SAI per WETH. */
  lemma ScenarioPrices100(c: Config)
    requires c.saiAddress != c.wethAddress
    ensures var s := Snapshot(c, 100, [AskOrder(c), BidOrder(c)]);
      && ClosestSellPrice(s, QuoteRatio()) == Some(300 * WAD)
      && FurthestSellPrice(s, QuoteRatio()) == Some(300 * WAD)
      && ClosestBuyPrice(s, QuoteRatio()) == Some(310 * WAD)
      && FurthestBuyPrice(s, QuoteRatio()) == Some(310 * WAD)
  {
    var s := Snapshot(c, 100, [AskOrder(c), BidOrder(c)]);
    Filter2(IsSellOrder(c.saiAddress, c.wethAddress), AskOrder(c), BidOrder(c));
    Filter2(IsBuyOrder(c.saiAddress, c.wethAddress), AskOrder(c), BidOrder(c));
    assert SellOrders(s) == [AskOrder(c)];
    assert BuyOrders(s) == [BidOrder(c)];
    MapSingle((o: Order) => BuyToSellPrice(o, QuoteRatio()), AskOrder(c));
    MapSingle((o: Order) => SellToBuyPrice(o, QuoteRatio()), BidOrder(c));
    QuotePrices(c);
    MinMaxSingle(300 * WAD);
    MinMaxSingle(310 * WAD);
  }

  /** The half-filled ask keeps its price. */
  lemma ScenarioPrices200(c: Config)
    requires c.saiAddress != c.wethAddress
    ensures ClosestSellPrice(Snapshot(c, 200, [BidOrder(c), HalfAsk(c)]), QuoteRatio()) == Some(300 * WAD)
  {
    var s := Snapshot(c, 200, [BidOrder(c), HalfAsk(c)]);
    Filter2(IsSellOrder(c.saiAddress, c.wethAddress), BidOrder(c), HalfAsk(c));
    assert SellOrders(s) == [HalfAsk(c)];
    MapSingle((o: Order) => BuyToSellPrice(o, QuoteRatio()), HalfAsk(c));
    QuotePrices(c);
    MinMaxSingle(300 * WAD);
  }

  /** At 300 only the bid is left, so there is no ask. */
  lemma ScenarioPrices300(c: Config)
    requires c.saiAddress != c.wethAddress
    ensures ClosestSellPrice(Snapshot(c, 300, [BidOrder(c)]), QuoteRatio()) == None
    ensures ClosestBuyPrice(Snapshot(c, 300, [BidOrder(c)]), QuoteRatio()) == Some(310 * WAD)
  {
    var s := Snapshot(c, 300, [BidOrder(c)]);
    FilterSingleton(IsSellOrder(c.saiAddress, c.wethAddress), BidOrder(c));
    FilterSingleton(IsBuyOrder(c.saiAddress, c.wethAddress), BidOrder(c));
    assert SellOrders(s) == [];
    assert BuyOrders(s) == [BidOrder(c)];
    MapSingle((o: Order) => SellToBuyPrice(o, QuoteRatio()), BidOrder(c));
    QuotePrices(c);
    MinMaxSingle(310 * WAD);
  }

  /** A Take of the ask that names SAI, not WETH, as the token paid out. */
  function BadFill(c: Config): LogTake {
    LogTake(1, c.saiAddress, c.wethAddress, WAD / 2, 150 * WAD, 200)
  }

  function BadEv(c: Config): Events {
    Events([Ask(c), Bid(c)], [BadFill(c)], [Cancel()])
  }

  lemma BadMakes100(c: Config)
    ensures ApplyMakes([], [Ask(c), Bid(c)], c.marketMakerAddress) == [AskOrder(c), BidOrder(c)]
  {
    TwoOwnedOneForeign(Ask(c), Bid(c), Foreign(c, if c.marketMakerAddress == 0 then 1 else 0), c.marketMakerAddress);
  }

  lemma BadEvAt(c: Config, t: int)
    ensures Filter(MakeAt(t), BadEv(c).makes) == if t == 100 then [Ask(c), Bid(c)] else []
    ensures Filter(TakeAt(t), BadEv(c).takes) == if t == 200 then [BadFill(c)] else []
    ensures Filter(KillAt(t), BadEv(c).kills) == if t == 400 then [Cancel()] else []
  {
    Filter2(MakeAt(t), Ask(c), Bid(c));
    FilterSingleton(TakeAt(t), BadFill(c));
    FilterSingleton(KillAt(t), Cancel());
  }

  lemma BadStep100(c: Config)
    ensures NextStates([], 100, BadEv(c), c) == Ok(Snapshots(c)[..1])
  {
    BadEvAt(c, 100);
    StepOfMakes([], 100, BadEv(c), c.marketMakerAddress);
    BadMakes100(c);
    NextOk([], 100, BadEv(c), c, [AskOrder(c), BidOrder(c)]);
    assert [] + [Snapshot(c, 100, [AskOrder(c), BidOrder(c)])] == Snapshots(c)[..1];
  }

  /** The Take pays out SAI where the ask sells WETH. */
  lemma BadTake(c: Config)
    requires c.saiAddress != c.wethAddress
    ensures ApplyTake([AskOrder(c), BidOrder(c)], BadFill(c)) == Err(SellTokenMismatch(1, c.wethAddress, c.saiAddress))
  {
    Filter2(HasId(1), AskOrder(c), BidOrder(c));
    assert FindById([AskOrder(c), BidOrder(c)], 1) == Some(AskOrder(c));
  }

  lemma BadStep200(c: Config)
    requires c.saiAddress != c.wethAddress
    ensures NextStates(Snapshots(c)[..1], 200, BadEv(c), c) == Err(SellTokenMismatch(1, c.wethAddress, c.saiAddress))
  {
    assert LastBook(Snapshots(c)[..1]) == [AskOrder(c), BidOrder(c)];
    BadEvAt(c, 200);
    StepOfOneTake([AskOrder(c), BidOrder(c)], 200, BadEv(c), c.marketMakerAddress, BadFill(c));
    BadTake(c);
  }

  /** A Take naming the wrong pay token for the ask aborts the whole replay with that mismatch. */
  lemma ScenarioMismatch(c: Config)
    requires c.saiAddress != c.wethAddress
    ensures Replay(BadEv(c), c) == Err(SellTokenMismatch(1, c.wethAddress, c.saiAddress))
  {
    var ev := BadEv(c);
    assert Ask(c) in ev.makes && BadFill(c) in ev.takes && Cancel() in ev.kills;
    assert forall t :: Occurs(ev, t) <==> t in [100, 200, 400];
    StrictlyIncreasingUnique(EventTimestamps(ev), [100, 200, 400]);
    BadStep100(c);
    BadStep200(c);
    assert [100, 200, 400][1..] == [200, 400];
  }
}
