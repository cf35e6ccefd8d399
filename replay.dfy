/**
 * `OasisMarketMakerStats.lifecycle`: the distinct timestamps of all events, sorted, are folded
 * with `reduce_func`; each step starts from the previous snapshot's book (the empty book at
 * first), applies that timestamp's Makes (filtering the book to the tracked market maker after
 * each one), then its Takes, then its Kills, and appends a new snapshot.
 *
 * The functions below are the specification of that fold; the methods `ReduceFunc` and
 * `Lifecycle` are its step-by-step form and are proved to compute the same thing.
 */
module OrderBookReplay {
  import opened Wrappers
  import opened Sequences
  import opened Pymaker
  import opened BookEvents
  import opened MarketState

  /** The settings of `OasisMarketMakerStats` that the replay reads. */
  datatype Config = Config(saiAddress: Address, wethAddress: Address, marketMakerAddress: Address)

  /** The three event lists fetched for the block range (`past_make`, `past_take`, `past_kill`). */
  datatype Events = Events(makes: seq<LogMake>, takes: seq<LogTake>, kills: seq<LogKill>)

  function MakeTimestamp(m: LogMake): int { m.timestamp }
  function TakeTimestamp(t: LogTake): int { t.timestamp }
  function KillTimestamp(k: LogKill): int { k.timestamp }

  function MakeAt(t: int): LogMake -> bool { (m: LogMake) => m.timestamp == t }
  function TakeAt(t: int): LogTake -> bool { (k: LogTake) => k.timestamp == t }
  function KillAt(t: int): LogKill -> bool { (k: LogKill) => k.timestamp == t }

  /** Some event of the batch carries timestamp `t`. */
  ghost predicate Occurs(ev: Events, t: int) {
    || (exists m :: m in ev.makes && m.timestamp == t)
    || (exists k :: k in ev.takes && k.timestamp == t)
    || (exists k :: k in ev.kills && k.timestamp == t)
  }

  /** `sorted(set(map(timestamp, past_make + past_take + past_kill)))`. */
  function EventTimestamps(ev: Events): (r: seq<int>)
    ensures StrictlyIncreasing(r)
    ensures forall t :: t in r <==> Occurs(ev, t)
  {
    var all := Map(MakeTimestamp, ev.makes) + Map(TakeTimestamp, ev.takes) + Map(KillTimestamp, ev.kills);
    MapInAll(MakeTimestamp, ev.makes);
    MapInAll(TakeTimestamp, ev.takes);
    MapInAll(KillTimestamp, ev.kills);
    SortedDistinct(all)
  }

  /** The Make loop: each Make appended, then the book filtered to `owner`. */
  function ApplyMakes(book: seq<Order>, makes: seq<LogMake>, owner: Address): seq<Order>
    decreases |makes|
  {
    if makes == [] then book
    else
      var before := ApplyMakes(book, makes[..|makes| - 1], owner);
      Filter(OwnedBy(owner), ApplyMake(before, makes[|makes| - 1]))
  }

  /** The Take loop: each Take applied in turn; the first failing `assert` ends the replay. */
  function ApplyTakes(book: seq<Order>, takes: seq<LogTake>): Result<seq<Order>, TakeError>
    decreases |takes|
  {
    if takes == [] then Ok(book)
    else match ApplyTakes(book, takes[..|takes| - 1])
      case Err(e) => Err(e)
      case Ok(before) => ApplyTake(before, takes[|takes| - 1])
  }

  /** The Kill loop: each Kill applied in turn. */
  function ApplyKills(book: seq<Order>, kills: seq<LogKill>): seq<Order>
    decreases |kills|
  {
    if kills == [] then book
    else ApplyKill(ApplyKills(book, kills[..|kills| - 1]), kills[|kills| - 1])
  }

  /** The book after the events at timestamp `t`: its Makes, then its Takes, then its Kills. */
  function StepBook(book: seq<Order>, t: int, ev: Events, owner: Address): Result<seq<Order>, TakeError> {
    var made := ApplyMakes(book, Filter(MakeAt(t), ev.makes), owner);
    match ApplyTakes(made, Filter(TakeAt(t), ev.takes))
    case Err(e) => Err(e)
    case Ok(taken) => Ok(ApplyKills(taken, Filter(KillAt(t), ev.kills)))
  }

  /** The book a step starts from: the last snapshot's, or the empty book. */
  function LastBook(states: seq<State>): seq<Order> {
    if states == [] then [] else states[|states| - 1].orderBook
  }

  /** `reduce_func(states, timestamp)`. */
  function NextStates(states: seq<State>, t: int, ev: Events, cfg: Config): Result<seq<State>, TakeError> {
    match StepBook(LastBook(states), t, ev, cfg.marketMakerAddress)
    case Err(e) => Err(e)
    case Ok(book) => Ok(states + [State(t, book, cfg.saiAddress, cfg.wethAddress)])
  }

  /** `reduce_func`, as the step handed to `reduce`. */
  function ReduceStep(ev: Events, cfg: Config): (seq<State>, int) -> Result<seq<State>, TakeError> {
    (states: seq<State>, t: int) => NextStates(states, t, ev, cfg)
  }

  /** The snapshots `lifecycle` hands to `draw`, or the error that aborted it. */
  function Replay(ev: Events, cfg: Config): Result<seq<State>, TakeError> {
    Reduce(ReduceStep(ev, cfg), [], EventTimestamps(ev))
  }

  // ---------------------------------------------------------------------------------------
  // The step-by-step form

  /** Once a Take has failed, later Takes do not matter. */
  lemma {:induction false} TakesErrSticky(book: seq<Order>, takes: seq<LogTake>, more: seq<LogTake>)
    requires ApplyTakes(book, takes).Err?
    ensures ApplyTakes(book, takes + more) == ApplyTakes(book, takes)
    decreases |more|
  {
    if more != [] {
      var all := takes + more;
      assert all[..|all| - 1] == takes + more[..|more| - 1];
      TakesErrSticky(book, takes, more[..|more| - 1]);
    } else {
      assert takes + more == takes;
    }
  }

  lemma ApplyMakesSnoc(book: seq<Order>, makes: seq<LogMake>, m: LogMake, owner: Address)
    ensures ApplyMakes(book, makes + [m], owner) == Filter(OwnedBy(owner), ApplyMake(ApplyMakes(book, makes, owner), m))
  {
    assert (makes + [m])[..|makes|] == makes;
  }

  lemma ApplyTakesSnoc(book: seq<Order>, takes: seq<LogTake>, t: LogTake)
    ensures ApplyTakes(book, takes + [t]) ==
      var before := ApplyTakes(book, takes);
      if before.Ok? then ApplyTake(before.value, t) else before
  {
    assert (takes + [t])[..|takes|] == takes;
  }

  lemma ApplyKillsSnoc(book: seq<Order>, kills: seq<LogKill>, k: LogKill)
    ensures ApplyKills(book, kills + [k]) == ApplyKill(ApplyKills(book, kills), k)
  {
    assert (kills + [k])[..|kills|] == kills;
  }

  /** One more Make of the event list seen by the Make loop. */
  lemma MakesPrefixStep(book: seq<Order>, makes: seq<LogMake>, i: nat, t: int, owner: Address)
    requires i < |makes|
    ensures ApplyMakes(book, Filter(MakeAt(t), makes[..i + 1]), owner) ==
      var before := ApplyMakes(book, Filter(MakeAt(t), makes[..i]), owner);
      if makes[i].timestamp == t then Filter(OwnedBy(owner), ApplyMake(before, makes[i])) else before
  {
    FilterSnoc(MakeAt(t), makes, i);
    var prev := Filter(MakeAt(t), makes[..i]);
    if makes[i].timestamp == t {
      assert MakeAt(t)(makes[i]);
      ApplyMakesSnoc(book, prev, makes[i], owner);
    } else {
      assert !MakeAt(t)(makes[i]);
      assert prev + [] == prev;
    }
  }

  /** One more Take of the event list seen by the Take loop. */
  lemma TakesPrefixStep(book: seq<Order>, takes: seq<LogTake>, i: nat, t: int)
    requires i < |takes|
    ensures ApplyTakes(book, Filter(TakeAt(t), takes[..i + 1])) ==
      var before := ApplyTakes(book, Filter(TakeAt(t), takes[..i]));
      if takes[i].timestamp == t && before.Ok? then ApplyTake(before.value, takes[i]) else before
  {
    FilterSnoc(TakeAt(t), takes, i);
    var prev := Filter(TakeAt(t), takes[..i]);
    if takes[i].timestamp == t {
      assert TakeAt(t)(takes[i]);
      ApplyTakesSnoc(book, prev, takes[i]);
    } else {
      assert !TakeAt(t)(takes[i]);
      assert prev + [] == prev;
    }
  }

  /** A failing Take of the Take loop fails the whole loop. */
  lemma TakesFailAt(book: seq<Order>, takes: seq<LogTake>, i: nat, t: int)
    requires i < |takes|
    requires ApplyTakes(book, Filter(TakeAt(t), takes[..i + 1])).Err?
    ensures ApplyTakes(book, Filter(TakeAt(t), takes)) == ApplyTakes(book, Filter(TakeAt(t), takes[..i + 1]))
  {
    FilterConcat(TakeAt(t), takes[..i + 1], takes[i + 1..]);
    assert takes[..i + 1] + takes[i + 1..] == takes;
    TakesErrSticky(book, Filter(TakeAt(t), takes[..i + 1]), Filter(TakeAt(t), takes[i + 1..]));
  }

  /** One more Kill of the event list seen by the Kill loop. */
  lemma KillsPrefixStep(book: seq<Order>, kills: seq<LogKill>, i: nat, t: int)
    requires i < |kills|
    ensures ApplyKills(book, Filter(KillAt(t), kills[..i + 1])) ==
      var before := ApplyKills(book, Filter(KillAt(t), kills[..i]));
      if kills[i].timestamp == t then ApplyKill(before, kills[i]) else before
  {
    FilterSnoc(KillAt(t), kills, i);
    var prev := Filter(KillAt(t), kills[..i]);
    if kills[i].timestamp == t {
      assert KillAt(t)(kills[i]);
      ApplyKillsSnoc(book, prev, kills[i]);
    } else {
      assert !KillAt(t)(kills[i]);
      assert prev + [] == prev;
    }
  }

  /** The first `for` loop of `reduce_func`: each Make at `t` appended, the book filtered after each. */
  method MakeLoop(book: seq<Order>, t: int, makes: seq<LogMake>, owner: Address) returns (r: seq<Order>)
    ensures r == ApplyMakes(book, Filter(MakeAt(t), makes), owner)
  {
    r := book;
    for i := 0 to |makes|
      invariant r == ApplyMakes(book, Filter(MakeAt(t), makes[..i]), owner)
    {
      MakesPrefixStep(book, makes, i, t, owner);
      if makes[i].timestamp == t {
        r := ApplyMake(r, makes[i]);
        r := Filter(OwnedBy(owner), r);
      }
    }
    assert makes[..|makes|] == makes;
  }

  /** The second `for` loop of `reduce_func`: each Take at `t` applied; a failing `assert` stops it. */
  method TakeLoop(book: seq<Order>, t: int, takes: seq<LogTake>) returns (r: Result<seq<Order>, TakeError>)
    ensures r == ApplyTakes(book, Filter(TakeAt(t), takes))
  {
    var current := book;
    for i := 0 to |takes|
      invariant ApplyTakes(book, Filter(TakeAt(t), takes[..i])) == Ok(current)
    {
      TakesPrefixStep(book, takes, i, t);
      if takes[i].timestamp == t {
        var taken := ApplyTake(current, takes[i]);
        if taken.Err? {
          TakesFailAt(book, takes, i, t);
          return Err(taken.error);
        }
        current := taken.value;
      }
    }
    assert takes[..|takes|] == takes;
    r := Ok(current);
  }

  /** The third `for` loop of `reduce_func`: each Kill at `t` applied. */
  method KillLoop(book: seq<Order>, t: int, kills: seq<LogKill>) returns (r: seq<Order>)
    ensures r == ApplyKills(book, Filter(KillAt(t), kills))
  {
    r := book;
    for i := 0 to |kills|
      invariant r == ApplyKills(book, Filter(KillAt(t), kills[..i]))
    {
      KillsPrefixStep(book, kills, i, t);
      if kills[i].timestamp == t {
        r := ApplyKill(r, kills[i]);
      }
    }
    assert kills[..|kills|] == kills;
  }

  /** `reduce_func`: the last snapshot's book run through its three loops, appended as a new snapshot. */
  method ReduceFunc(states: seq<State>, t: int, ev: Events, cfg: Config) returns (r: Result<seq<State>, TakeError>)
    ensures r == NextStates(states, t, ev, cfg)
  {
    var orderBook := if |states| == 0 then [] else states[|states| - 1].orderBook;
    orderBook := MakeLoop(orderBook, t, ev.makes, cfg.marketMakerAddress);
    var taken := TakeLoop(orderBook, t, ev.takes);
    if taken.Err? {
      return Err(taken.error);
    }
    orderBook := KillLoop(taken.value, t, ev.kills);
    r := Ok(states + [State(t, orderBook, cfg.saiAddress, cfg.wethAddress)]);
  }

  /** `lifecycle` without the fetching and the drawing: the fold over the sorted timestamps. */
  method Lifecycle(ev: Events, cfg: Config) returns (r: Result<seq<State>, TakeError>)
    ensures r == Replay(ev, cfg)
  {
    var timestamps := EventTimestamps(ev);
    var states: seq<State> := [];
    for i := 0 to |timestamps|
      invariant Reduce(ReduceStep(ev, cfg), states, timestamps[i..]) == Replay(ev, cfg)
    {
      assert timestamps[i..][1..] == timestamps[i + 1..];
      var next := ReduceFunc(states, timestamps[i], ev, cfg);
      if next.Err? {
        return Err(next.error);
      }
      states := next.value;
    }
    assert timestamps[|timestamps|..] == [];
    r := Ok(states);
  }
}
