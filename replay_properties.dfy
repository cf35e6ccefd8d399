/**
 * What the replay promises about the snapshots it produces: one per distinct event timestamp,
 * in strictly increasing order, each derived from the one before; every order in every book
 * belongs to the tracked market maker; a failure always comes from a Take in the input.
 */
module ReplayProperties {
  import opened Wrappers
  import opened Sequences
  import opened Pymaker
  import opened BookEvents
  import opened MarketState
  import opened OrderBookReplay

  /** The ids the given Makes introduce. */
  function MadeIds(makes: seq<LogMake>): set<nat> {
    set m | m in makes :: m.orderId
  }

  /** Every Make offers and asks for a positive amount. */
  ghost predicate PositiveMakes(makes: seq<LogMake>) {
    forall m :: m in makes ==> m.payAmount > 0 && m.buyAmount > 0
  }

  // ---------------------------------------------------------------------------------------
  // One timestamp

  /** The Make loop ends with a book of the tracked owner's orders whenever it ran at least once. */
  lemma {:induction false} MakesOwned(book: seq<Order>, makes: seq<LogMake>, owner: Address)
    ensures makes != [] || AllOwnedBy(book, owner) ==> AllOwnedBy(ApplyMakes(book, makes, owner), owner)
    decreases |makes|
  {
    if makes != [] {
      MakesOwned(book, makes[..|makes| - 1], owner);
    }
  }

  /** The Make loop keeps a book open when its Makes are positive. */
  lemma {:induction false} MakesOpen(book: seq<Order>, makes: seq<LogMake>, owner: Address)
    requires AllOpen(book) && PositiveMakes(makes)
    ensures AllOpen(ApplyMakes(book, makes, owner))
    decreases |makes|
  {
    if makes != [] {
      var prefix := makes[..|makes| - 1];
      var m := makes[|makes| - 1];
      assert m in makes;
      assert forall x :: x in prefix ==> x in makes;
      MakesOpen(book, prefix, owner);
      var before := ApplyMakes(book, prefix, owner);
      forall o | o in ApplyMakes(book, makes, owner) ensures o in before || o == MadeOrder(m) {
      }
    }
  }

  /** The Make loop adds only the ids of its Makes. */
  lemma {:induction false} MakesIds(book: seq<Order>, makes: seq<LogMake>, owner: Address)
    ensures OrderIds(ApplyMakes(book, makes, owner)) <= OrderIds(book) + MadeIds(makes)
    decreases |makes|
  {
    if makes != [] {
      var prefix := makes[..|makes| - 1];
      var m := makes[|makes| - 1];
      assert m in makes;
      assert forall x :: x in prefix ==> x in makes;
      MakesIds(book, prefix, owner);
      var before := ApplyMakes(book, prefix, owner);
      forall id | id in OrderIds(ApplyMakes(book, makes, owner)) ensures id in OrderIds(book) + MadeIds(makes) {
        var o :| o in ApplyMakes(book, makes, owner) && o.orderId == id;
        if o in before {
          assert id in OrderIds(before);
        } else {
          assert o == MadeOrder(m);
        }
      }
    }
  }

  /** The Take loop adds no id and keeps the book the tracked owner's and open. */
  lemma {:induction false} TakesPreserve(book: seq<Order>, takes: seq<LogTake>, owner: Address)
    requires ApplyTakes(book, takes).Ok?
    ensures OrderIds(ApplyTakes(book, takes).value) <= OrderIds(book)
    ensures AllOwnedBy(book, owner) ==> AllOwnedBy(ApplyTakes(book, takes).value, owner)
    ensures AllOpen(book) ==> AllOpen(ApplyTakes(book, takes).value)
    decreases |takes|
  {
    if takes != [] {
      var prefix := takes[..|takes| - 1];
      TakesPreserve(book, prefix, owner);
      TakePreserves(ApplyTakes(book, prefix).value, takes[|takes| - 1], owner);
    }
  }

  /** The Kill loop only removes orders. */
  lemma {:induction false} KillsPreserve(book: seq<Order>, kills: seq<LogKill>)
    ensures forall o :: o in ApplyKills(book, kills) ==> o in book
    decreases |kills|
  {
    if kills != [] {
      KillsPreserve(book, kills[..|kills| - 1]);
    }
  }

  /** The ids the given Kills name. */
  function KilledIds(kills: seq<LogKill>): set<nat> {
    set k | k in kills :: k.orderId
  }

  function NotKilled(kills: seq<LogKill>): Order -> bool {
    (o: Order) => o.orderId !in KilledIds(kills)
  }

  /** The Kill loop removes exactly the orders whose id some Kill names, keeping the others in order. */
  lemma {:induction false} KillsClosed(book: seq<Order>, kills: seq<LogKill>)
    ensures ApplyKills(book, kills) == Filter(NotKilled(kills), book)
    decreases |kills|
  {
    if kills == [] {
      FilterAll(NotKilled(kills), book);
    } else {
      var prefix := kills[..|kills| - 1];
      var k := kills[|kills| - 1];
      KillsClosed(book, prefix);
      assert kills == prefix + [k];
      assert KilledIds(kills) == KilledIds(prefix) + {k.orderId};
      FilterFilter(NotKilled(prefix), HasOtherId(k.orderId), NotKilled(kills), book);
    }
  }

  /** One step keeps a book of the tracked owner's orders so. */
  lemma StepOwned(book: seq<Order>, t: int, ev: Events, owner: Address, r: seq<Order>)
    requires StepBook(book, t, ev, owner) == Ok(r)
    requires AllOwnedBy(book, owner)
    ensures AllOwnedBy(r, owner)
  {
    var made := ApplyMakes(book, Filter(MakeAt(t), ev.makes), owner);
    MakesOwned(book, Filter(MakeAt(t), ev.makes), owner);
    TakesPreserve(made, Filter(TakeAt(t), ev.takes), owner);
    KillsPreserve(ApplyTakes(made, Filter(TakeAt(t), ev.takes)).value, Filter(KillAt(t), ev.kills));
  }

  /** One step keeps an open book open when the Makes are positive. */
  lemma StepOpen(book: seq<Order>, t: int, ev: Events, owner: Address, r: seq<Order>)
    requires StepBook(book, t, ev, owner) == Ok(r)
    requires AllOpen(book) && PositiveMakes(ev.makes)
    ensures AllOpen(r)
  {
    var makes := Filter(MakeAt(t), ev.makes);
    var made := ApplyMakes(book, makes, owner);
    MakesOpen(book, makes, owner);
    TakesPreserve(made, Filter(TakeAt(t), ev.takes), owner);
    KillsPreserve(ApplyTakes(made, Filter(TakeAt(t), ev.takes)).value, Filter(KillAt(t), ev.kills));
  }

  /** The only ids one step can add are those of the Makes at its timestamp. */
  lemma StepIds(book: seq<Order>, t: int, ev: Events, owner: Address, r: seq<Order>)
    requires StepBook(book, t, ev, owner) == Ok(r)
    ensures OrderIds(r) <= OrderIds(book) + MadeIds(Filter(MakeAt(t), ev.makes))
  {
    var makes := Filter(MakeAt(t), ev.makes);
    var made := ApplyMakes(book, makes, owner);
    MakesIds(book, makes, owner);
    TakesPreserve(made, Filter(TakeAt(t), ev.takes), owner);
    KillsPreserve(ApplyTakes(made, Filter(TakeAt(t), ev.takes)).value, Filter(KillAt(t), ev.kills));
  }

  /** `list(map(apply_make's order, makes))`: the orders the Makes describe, in their order. */
  function MadeOrders(makes: seq<LogMake>): seq<Order>
    decreases |makes|
  {
    if makes == [] then [] else MadeOrders(makes[..|makes| - 1]) + [MadeOrder(makes[|makes| - 1])]
  }

  /** `MadeOrders` is `map(MadeOrder, makes)`. */
  lemma {:induction false} MadeOrdersMap(makes: seq<LogMake>)
    ensures MadeOrders(makes) == Map(MadeOrder, makes)
    decreases |makes|
  {
    if makes != [] {
      var prefix := makes[..|makes| - 1];
      MadeOrdersMap(prefix);
      assert makes == prefix + [makes[|makes| - 1]];
      MapSnoc(MadeOrder, prefix, makes[|makes| - 1]);
    }
  }

  /** The last Make of the loop, and its order as the last of `MadeOrders`. */
  lemma MakesLast(book: seq<Order>, makes: seq<LogMake>, owner: Address)
    requires makes != []
    ensures var prefix := makes[..|makes| - 1];
      var o := MadeOrder(makes[|makes| - 1]);
      && ApplyMakes(book, makes, owner) == Filter(OwnedBy(owner), ApplyMakes(book, prefix, owner) + [o])
      && MadeOrders(makes) == MadeOrders(prefix) + [o]
  {
  }

  /** The Make loop (filtering after each Make) equals appending all the Makes and filtering once. */
  lemma {:induction false} MakesFilterOnce(book: seq<Order>, makes: seq<LogMake>, owner: Address)
    ensures ApplyMakes(book, makes, owner) ==
      if makes == [] then book else Filter(OwnedBy(owner), book + MadeOrders(makes))
    decreases |makes|
  {
    if makes != [] {
      var prefix := makes[..|makes| - 1];
      var o := MadeOrder(makes[|makes| - 1]);
      MakesLast(book, makes, owner);
      MakesFilterOnce(book, prefix, owner);
      if prefix == [] {
        assert MadeOrders(prefix) == [];
        assert book + MadeOrders(makes) == book + [o];
      } else {
        var all := book + MadeOrders(prefix);
        assert ApplyMakes(book, prefix, owner) == Filter(OwnedBy(owner), all);
        FilterSnocFiltered(OwnedBy(owner), all, o);
        assert all + [o] == book + MadeOrders(makes);
      }
    }
  }

  /** Without a Make of that id at `t`, an id absent before a step is absent after it. */
  lemma StepNoResurrection(book: seq<Order>, t: int, ev: Events, owner: Address, id: nat, r: seq<Order>)
    requires StepBook(book, t, ev, owner) == Ok(r)
    requires id !in OrderIds(book)
    requires forall m :: m in ev.makes && m.timestamp == t ==> m.orderId != id
    ensures id !in OrderIds(r)
  {
    StepIds(book, t, ev, owner, r);
  }

  /** A failing step fails on a Take, at that timestamp, whose token disagrees with its order's. */
  lemma {:induction false} TakesErrorSource(book: seq<Order>, takes: seq<LogTake>)
    requires ApplyTakes(book, takes).Err?
    ensures exists k :: k in takes && Raises(k, ApplyTakes(book, takes).error)
    decreases |takes|
  {
    var prefix := takes[..|takes| - 1];
    var k := takes[|takes| - 1];
    assert k in takes;
    if ApplyTakes(book, prefix).Err? {
      TakesErrorSource(book, prefix);
      var j :| j in prefix && Raises(j, ApplyTakes(book, prefix).error);
      assert j in takes;
    } else {
      TakeFails(ApplyTakes(book, prefix).value, k);
      assert Raises(k, ApplyTakes(book, takes).error);
    }
  }

  /** `k` is a Take that raises `e`: its order's token is not the token the event names. */
  ghost predicate Raises(k: LogTake, e: TakeError) {
    match e
    case SellTokenMismatch(id, orderToken, payToken) =>
      k.orderId == id && k.payToken == payToken && orderToken != payToken
    case BuyTokenMismatch(id, orderToken, buyToken) =>
      k.orderId == id && k.buyToken == buyToken && orderToken != buyToken
  }

  // ---------------------------------------------------------------------------------------
  // The whole fold

  /** The book the snapshot at index `i` was derived from: the one before it, or the empty book. */
  function PrevBook(states: seq<State>, i: nat): seq<Order>
    requires i < |states|
  {
    LastBook(states[..i])
  }

  /** The book before the first snapshot is empty; before any other, it is the previous snapshot's. */
  lemma PrevBookIs(states: seq<State>, i: nat)
    requires i < |states|
    ensures PrevBook(states, i) == if i == 0 then [] else states[i - 1].orderBook
  {
    if i > 0 {
      assert states[..i][i - 1] == states[i - 1];
    }
  }

  /** Each snapshot is the step at its timestamp applied to the book before it. */
  ghost predicate Derived(states: seq<State>, ev: Events, owner: Address) {
    forall i {:trigger PrevBook(states, i)} :: 0 <= i < |states| ==>
      StepBook(PrevBook(states, i), states[i].timestamp, ev, owner) == Ok(states[i].orderBook)
  }

  /** The snapshots carry the timestamps `ts`, one each, in order, each with the pair. */
  ghost predicate Timeline(states: seq<State>, ts: seq<int>, cfg: Config) {
    && |states| == |ts|
    && forall i :: 0 <= i < |states| ==>
      && states[i].timestamp == ts[i]
      && states[i].saiAddress == cfg.saiAddress && states[i].wethAddress == cfg.wethAddress
  }

  /** One step appends one snapshot, with the step's timestamp and the pair. */
  lemma NextShape(states: seq<State>, t: int, ev: Events, cfg: Config)
    requires NextStates(states, t, ev, cfg).Ok?
    ensures var next := NextStates(states, t, ev, cfg).value;
      && |next| == |states| + 1 && next[..|states|] == states
      && next[|states|].timestamp == t
      && next[|states|].saiAddress == cfg.saiAddress && next[|states|].wethAddress == cfg.wethAddress
  {
  }

  /** `reduce_func` appends one snapshot to the ones it is given. */
  lemma StepAppends(ev: Events, cfg: Config)
    ensures forall s, t :: ReduceStep(ev, cfg)(s, t).Ok? ==>
      |ReduceStep(ev, cfg)(s, t).value| == |s| + 1 && ReduceStep(ev, cfg)(s, t).value[..|s|] == s
  {
    forall s, t | ReduceStep(ev, cfg)(s, t).Ok?
      ensures |ReduceStep(ev, cfg)(s, t).value| == |s| + 1 && ReduceStep(ev, cfg)(s, t).value[..|s|] == s
    {
      NextShape(s, t, ev, cfg);
    }
  }

  /** The snapshot a step appends to the first `i` snapshots, seen from the whole sequence. */
  lemma FoldAt(states: seq<State>, ts: seq<int>, ev: Events, cfg: Config, i: nat)
    requires i < |states| && i < |ts|
    requires NextStates(states[..i], ts[i], ev, cfg) == Ok(states[..i + 1])
    ensures states[i].timestamp == ts[i]
    ensures states[i].saiAddress == cfg.saiAddress && states[i].wethAddress == cfg.wethAddress
    ensures StepBook(PrevBook(states, i), states[i].timestamp, ev, cfg.marketMakerAddress) == Ok(states[i].orderBook)
  {
    NextShape(states[..i], ts[i], ev, cfg);
    assert states[..i + 1][i] == states[i];
  }

  /** The fold from no snapshot yields a timeline of its timestamps whose every snapshot is derived. */
  lemma FoldFromEmpty(ts: seq<int>, ev: Events, cfg: Config, states: seq<State>)
    requires Reduce(ReduceStep(ev, cfg), [], ts) == Ok(states)
    ensures Timeline(states, ts, cfg)
    ensures Derived(states, ev, cfg.marketMakerAddress)
  {
    StepAppends(ev, cfg);
    ReduceAppends(ReduceStep(ev, cfg), [], ts);
    forall i | 0 <= i < |states|
      ensures states[i].timestamp == ts[i]
      ensures states[i].saiAddress == cfg.saiAddress && states[i].wethAddress == cfg.wethAddress
      ensures StepBook(PrevBook(states, i), states[i].timestamp, ev, cfg.marketMakerAddress) == Ok(states[i].orderBook)
    {
      FoldAt(states, ts, ev, cfg, i);
    }
  }

  /**
   * There is one snapshot per distinct event timestamp, in strictly increasing order, and a
   * timestamp has a snapshot exactly when some Make, Take or Kill carries it.
   */
  lemma ReplayTimestamps(ev: Events, cfg: Config, states: seq<State>)
    requires Replay(ev, cfg) == Ok(states)
    ensures |states| == |EventTimestamps(ev)|
    ensures forall i :: 0 <= i < |states| ==> states[i].timestamp == EventTimestamps(ev)[i]
    ensures forall i, j :: 0 <= i < j < |states| ==> states[i].timestamp < states[j].timestamp
    ensures forall t :: Occurs(ev, t) <==> exists i :: 0 <= i < |states| && states[i].timestamp == t
    ensures forall i :: 0 <= i < |states| ==>
      states[i].saiAddress == cfg.saiAddress && states[i].wethAddress == cfg.wethAddress
  {
    var ts := EventTimestamps(ev);
    FoldFromEmpty(ts, ev, cfg, states);
    forall t ensures Occurs(ev, t) <==> exists i :: 0 <= i < |states| && states[i].timestamp == t {
      if Occurs(ev, t) {
        var i :| 0 <= i < |ts| && ts[i] == t;
        assert states[i].timestamp == t;
      }
      if exists i :: 0 <= i < |states| && states[i].timestamp == t {
        var i :| 0 <= i < |states| && states[i].timestamp == t;
        assert ts[i] in ts;
      }
    }
  }

  /** Each snapshot's book is the step's result on the previous snapshot's book, or on the empty book. */
  lemma ReplayDerived(ev: Events, cfg: Config, states: seq<State>)
    requires Replay(ev, cfg) == Ok(states)
    ensures Derived(states, ev, cfg.marketMakerAddress)
  {
    FoldFromEmpty(EventTimestamps(ev), ev, cfg, states);
  }

  /** The replay gives no snapshot, and no error, exactly when there are no events. */
  lemma ReplayEmpty(ev: Events, cfg: Config)
    ensures Replay(ev, cfg) == Ok([]) <==> ev.makes == [] && ev.takes == [] && ev.kills == []
  {
    var ts := EventTimestamps(ev);
    assert ts != [] ==> Occurs(ev, ts[0]);
    assert ev.makes != [] ==> Occurs(ev, ev.makes[0].timestamp);
    assert ev.takes != [] ==> Occurs(ev, ev.takes[0].timestamp);
    assert ev.kills != [] ==> Occurs(ev, ev.kills[0].timestamp);
    if Replay(ev, cfg) == Ok([]) {
      StepAppends(ev, cfg);
      ReduceAppends(ReduceStep(ev, cfg), [], ts);
    }
  }

  /** In a derived sequence of snapshots, every book up to index `i` is the tracked owner's. */
  lemma {:induction false} DerivedOwned(states: seq<State>, ev: Events, owner: Address, i: nat)
    requires Derived(states, ev, owner) && i < |states|
    ensures AllOwnedBy(states[i].orderBook, owner)
  {
    if i > 0 {
      DerivedOwned(states, ev, owner, i - 1);
    }
    StepOwned(PrevBook(states, i), states[i].timestamp, ev, owner, states[i].orderBook);
  }

  /** In a derived sequence of snapshots, every book up to index `i` is open when the Makes are positive. */
  lemma {:induction false} DerivedOpen(states: seq<State>, ev: Events, owner: Address, i: nat)
    requires Derived(states, ev, owner) && i < |states|
    requires PositiveMakes(ev.makes)
    ensures AllOpen(states[i].orderBook)
  {
    if i > 0 {
      DerivedOpen(states, ev, owner, i - 1);
    }
    StepOpen(PrevBook(states, i), states[i].timestamp, ev, owner, states[i].orderBook);
  }

  /** In a derived sequence with increasing timestamps, an absent id comes back only through a Make. */
  lemma {:induction false} DerivedNoResurrection(states: seq<State>, ev: Events, owner: Address, id: nat, i: nat, j: nat)
    requires Derived(states, ev, owner)
    requires forall a, b :: 0 <= a < b < |states| ==> states[a].timestamp < states[b].timestamp
    requires i <= j < |states|
    requires id !in OrderIds(states[i].orderBook)
    requires forall m :: m in ev.makes && m.orderId == id ==>
      !(states[i].timestamp < m.timestamp <= states[j].timestamp)
    ensures id !in OrderIds(states[j].orderBook)
    decreases j - i
  {
    if i < j {
      assert states[j - 1].timestamp < states[j].timestamp;
      DerivedNoResurrection(states, ev, owner, id, i, j - 1);
      PrevBookIs(states, j);
      StepNoResurrection(PrevBook(states, j), states[j].timestamp, ev, owner, id, states[j].orderBook);
    }
  }

  /** Every order of every snapshot belongs to the tracked market maker. */
  lemma ReplayOwned(ev: Events, cfg: Config, states: seq<State>)
    requires Replay(ev, cfg) == Ok(states)
    ensures forall s :: s in states ==> AllOwnedBy(s.orderBook, cfg.marketMakerAddress)
  {
    ReplayDerived(ev, cfg, states);
    forall i | 0 <= i < |states| ensures AllOwnedBy(states[i].orderBook, cfg.marketMakerAddress) {
      DerivedOwned(states, ev, cfg.marketMakerAddress, i);
    }
  }

  /**
   * In the replay, filtering after each Make equals appending all of a timestamp's Makes to the
   * previous book and filtering once, even at a timestamp without a Make: every book it starts
   * from holds only the tracked market maker's orders already.
   */
  lemma ReplayFilterOnce(ev: Events, cfg: Config, states: seq<State>, i: nat)
    requires Replay(ev, cfg) == Ok(states) && i < |states|
    ensures var makes := Filter(MakeAt(states[i].timestamp), ev.makes);
      ApplyMakes(PrevBook(states, i), makes, cfg.marketMakerAddress) ==
      Filter(OwnedBy(cfg.marketMakerAddress), PrevBook(states, i) + MadeOrders(makes))
  {
    var owner := cfg.marketMakerAddress;
    var book := PrevBook(states, i);
    var makes := Filter(MakeAt(states[i].timestamp), ev.makes);
    if i > 0 {
      ReplayOwned(ev, cfg, states);
      PrevBookIs(states, i);
      assert states[i - 1] in states;
    }
    assert AllOwnedBy(book, owner);
    MakesFilterOnce(book, makes, owner);
    if makes == [] {
      assert book + MadeOrders(makes) == book;
      FilterAll(OwnedBy(owner), book);
    }
  }

  /** When every Make is positive, every order of every snapshot has both amounts positive. */
  lemma ReplayOpen(ev: Events, cfg: Config, states: seq<State>)
    requires PositiveMakes(ev.makes)
    requires Replay(ev, cfg) == Ok(states)
    ensures forall s :: s in states ==> AllOpen(s.orderBook)
  {
    ReplayDerived(ev, cfg, states);
    forall i | 0 <= i < |states| ensures AllOpen(states[i].orderBook) {
      DerivedOpen(states, ev, cfg.marketMakerAddress, i);
    }
  }

  /**
   * An order id absent from the snapshot at index `i` stays absent up to index `j`, unless a
   * Make with that id is dated after snapshot `i` and no later than snapshot `j`.
   */
  lemma ReplayNoResurrection(ev: Events, cfg: Config, states: seq<State>, id: nat, i: nat, j: nat)
    requires Replay(ev, cfg) == Ok(states)
    requires i <= j < |states|
    requires id !in OrderIds(states[i].orderBook)
    requires forall m :: m in ev.makes && m.orderId == id ==>
      !(states[i].timestamp < m.timestamp <= states[j].timestamp)
    ensures id !in OrderIds(states[j].orderBook)
  {
    ReplayTimestamps(ev, cfg, states);
    ReplayDerived(ev, cfg, states);
    DerivedNoResurrection(states, ev, cfg.marketMakerAddress, id, i, j);
  }

  /** When the replay fails, some Take of the input raised the error. */
  lemma ReplayErrorSource(ev: Events, cfg: Config)
    requires Replay(ev, cfg).Err?
    ensures exists k :: k in ev.takes && Raises(k, Replay(ev, cfg).error)
  {
    var ts := EventTimestamps(ev);
    ReduceFails(ReduceStep(ev, cfg), [], ts);
    var s, i :| 0 <= i < |ts| && ReduceStep(ev, cfg)(s, ts[i]) == Err(Replay(ev, cfg).error);
    var t := ts[i];
    var made := ApplyMakes(LastBook(s), Filter(MakeAt(t), ev.makes), cfg.marketMakerAddress);
    TakesErrorSource(made, Filter(TakeAt(t), ev.takes));
    var k :| k in Filter(TakeAt(t), ev.takes) && Raises(k, Replay(ev, cfg).error);
  }
}
