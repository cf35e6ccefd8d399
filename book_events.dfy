/**
 * How one event changes an order book (`apply_make`, `apply_take`, `apply_kill` of
 * `OasisMarketMakerStats`). Each builds a new list and leaves its input alone, so each is a
 * function from the old book to the new one.
 */
module BookEvents {
  import opened Wrappers
  import opened Sequences
  import opened Pymaker

  /** The two `assert`s of `apply_take`: the event and the order it matched disagree on a token. */
  datatype TakeError =
    | SellTokenMismatch(orderId: nat, orderToken: Address, payToken: Address)
    | BuyTokenMismatch(orderId: nat, orderToken: Address, buyToken: Address)
  {
    function OrderId(): nat {
      match this
      case SellTokenMismatch(id, _, _) => id
      case BuyTokenMismatch(id, _, _) => id
    }
  }

  /** The ids of the orders in a book. */
  function OrderIds(book: seq<Order>): set<nat> {
    set o | o in book :: o.orderId
  }

  function HasId(id: nat): Order -> bool {
    (o: Order) => o.orderId == id
  }

  function HasOtherId(id: nat): Order -> bool {
    (o: Order) => o.orderId != id
  }

  function OwnedBy(owner: Address): Order -> bool {
    (o: Order) => o.owner == owner
  }

  /** Every order of the book belongs to `owner`. */
  ghost predicate AllOwnedBy(book: seq<Order>, owner: Address) {
    forall o :: o in book ==> o.owner == owner
  }

  /** Every order of the book has something left on both sides. */
  ghost predicate AllOpen(book: seq<Order>) {
    forall o :: o in book ==> o.sellHowMuch > 0 && o.buyHowMuch > 0
  }

  /** The order a `LogMake` describes. */
  function MadeOrder(m: LogMake): Order {
    Order(m.orderId, m.payAmount, m.payToken, m.buyAmount, m.buyToken, m.maker, m.timestamp)
  }

  /** `apply_make`: the book with the event's order appended. */
  function ApplyMake(book: seq<Order>, m: LogMake): (r: seq<Order>)
    ensures |r| == |book| + 1 && r[..|book|] == book
    ensures var o := r[|book|];
      && o.orderId == m.orderId && o.owner == m.maker && o.timestamp == m.timestamp
      && o.sellHowMuch == m.payAmount && o.sellWhichToken == m.payToken
      && o.buyHowMuch == m.buyAmount && o.buyWhichToken == m.buyToken
  {
    book + [MadeOrder(m)]
  }

  /** `next(filter(lambda order: order.order_id == id, book), None)`: the first order with that id, if any. */
  function FindById(book: seq<Order>, id: nat): (r: Option<Order>)
    ensures r.None? <==> id !in OrderIds(book)
    ensures r.Some? ==> r.value in book && r.value.orderId == id
    ensures r.Some? ==>
      exists i :: 0 <= i < |book| && book[i] == r.value && (forall j :: 0 <= j < i ==> book[j].orderId != id)
  {
    var matching := Filter(HasId(id), book);
    if matching == [] then
      assert forall o :: o in book ==> o !in matching;
      None
    else
      assert matching[0] in matching;
      FilterFirst(HasId(id), book);
      Some(matching[0])
  }

  /**
   * `apply_take`: an event for an order not in the book leaves the book as it is. Otherwise
   * the event's tokens must be the order's, or the `assert` fails; then every order with that
   * id is removed and the first one, reduced by the event's amounts, is appended again if
   * both of its remainders are still positive.
   */
  function ApplyTake(book: seq<Order>, t: LogTake): (r: Result<seq<Order>, TakeError>)
    ensures t.orderId !in OrderIds(book) ==> r == Ok(book)
    ensures r.Err? ==> r.error.OrderId() == t.orderId
  {
    match FindById(book, t.orderId)
    case None => Ok(book)
    case Some(o) =>
      if o.sellWhichToken != t.payToken then
        Err(SellTokenMismatch(o.orderId, o.sellWhichToken, t.payToken))
      else if o.buyWhichToken != t.buyToken then
        Err(BuyTokenMismatch(o.orderId, o.buyWhichToken, t.buyToken))
      else
        var remaining := Filter(HasOtherId(t.orderId), book);
        var reduced := o.(sellHowMuch := o.sellHowMuch - t.takeAmount,
                          buyHowMuch := o.buyHowMuch - t.giveAmount);
        if reduced.sellHowMuch > 0 && reduced.buyHowMuch > 0 then
          Ok(remaining + [reduced])
        else
          Ok(remaining)
  }

  /** `apply_kill`: the book without any order of that id, the others in their order. */
  function ApplyKill(book: seq<Order>, k: LogKill): (r: seq<Order>)
    ensures forall o :: o in r <==> o in book && o.orderId != k.orderId
  {
    Filter(HasOtherId(k.orderId), book)
  }

  /** Killing an id that is not in the book gives back the identical book. */
  lemma KillAbsent(book: seq<Order>, k: LogKill)
    requires k.orderId !in OrderIds(book)
    ensures ApplyKill(book, k) == book
  {
    FilterAll(HasOtherId(k.orderId), book);
  }

  /** A Take fails exactly when it matches an order whose tokens are not the event's. */
  lemma TakeFails(book: seq<Order>, t: LogTake)
    ensures ApplyTake(book, t).Err? <==>
      t.orderId in OrderIds(book) &&
      var o := FindById(book, t.orderId).value;
      o.sellWhichToken != t.payToken || o.buyWhichToken != t.buyToken
    ensures ApplyTake(book, t).Err? ==>
      var o := FindById(book, t.orderId).value;
      ApplyTake(book, t).error ==
        if o.sellWhichToken != t.payToken then SellTokenMismatch(t.orderId, o.sellWhichToken, t.payToken)
        else BuyTokenMismatch(t.orderId, o.buyWhichToken, t.buyToken)
  {
  }

  /**
   * A Take that matches: the order loses `takeAmount` on its sell side and `giveAmount` on its
   * buy side; it stays, as the last order, only when both remainders are positive; orders
   * with other ids are untouched and keep their order; at most one order has the id afterwards.
   */
  lemma TakeMatched(book: seq<Order>, t: LogTake)
    requires t.orderId in OrderIds(book)
    requires FindById(book, t.orderId).value.sellWhichToken == t.payToken
    requires FindById(book, t.orderId).value.buyWhichToken == t.buyToken
    ensures ApplyTake(book, t).Ok?
    ensures var r := ApplyTake(book, t).value;
      && Filter(HasOtherId(t.orderId), r) == Filter(HasOtherId(t.orderId), book)
      && |Filter(HasId(t.orderId), r)| <= 1
    ensures var r := ApplyTake(book, t).value;
      var o := FindById(book, t.orderId).value;
      && (t.orderId in OrderIds(r) <==> o.sellHowMuch - t.takeAmount > 0 && o.buyHowMuch - t.giveAmount > 0)
      && (t.orderId in OrderIds(r) ==>
            r[|r| - 1] == Order(o.orderId, o.sellHowMuch - t.takeAmount, o.sellWhichToken,
                                o.buyHowMuch - t.giveAmount, o.buyWhichToken, o.owner, o.timestamp))
  {
    var id := t.orderId;
    var o := FindById(book, id).value;
    var reduced := o.(sellHowMuch := o.sellHowMuch - t.takeAmount, buyHowMuch := o.buyHowMuch - t.giveAmount);
    var remaining := Filter(HasOtherId(id), book);
    if reduced.sellHowMuch > 0 && reduced.buyHowMuch > 0 {
      assert ApplyTake(book, t) == Ok(remaining + [reduced]);
      ReappendOne(book, id, reduced, [reduced]);
    } else {
      assert ApplyTake(book, t) == Ok(remaining);
      assert remaining + [] == remaining;
      ReappendOne(book, id, reduced, []);
    }
  }

  /**
   * Dropping every order with id `id` and appending at most one order with that id: the
   * other orders are as before, and the id is present once exactly when something was appended.
   */
  lemma ReappendOne(book: seq<Order>, id: nat, o: Order, tail: seq<Order>)
    requires o.orderId == id && (tail == [] || tail == [o])
    ensures var r := Filter(HasOtherId(id), book) + tail;
      && Filter(HasOtherId(id), r) == Filter(HasOtherId(id), book)
      && |Filter(HasId(id), r)| <= 1
      && (id in OrderIds(r) <==> tail != [])
      && (tail != [] ==> r[|r| - 1] == o)
  {
    var remaining := Filter(HasOtherId(id), book);
    var r := remaining + tail;
    FilterIdempotent(HasOtherId(id), book);
    FilterNone(HasId(id), remaining);
    if tail == [] {
      assert r == remaining;
      assert id !in OrderIds(r);
    } else {
      FilterConcat(HasOtherId(id), remaining, tail);
      FilterConcat(HasId(id), remaining, tail);
      FilterSingleton(HasOtherId(id), o);
      FilterSingleton(HasId(id), o);
      assert remaining + [] == remaining;
      assert o in r;
    }
  }

  /** A successful Take adds no id, keeps every order with the tracked owner, and keeps the book open. */
  lemma TakePreserves(book: seq<Order>, t: LogTake, owner: Address)
    requires ApplyTake(book, t).Ok?
    ensures OrderIds(ApplyTake(book, t).value) <= OrderIds(book)
    ensures AllOwnedBy(book, owner) ==> AllOwnedBy(ApplyTake(book, t).value, owner)
    ensures AllOpen(book) ==> AllOpen(ApplyTake(book, t).value)
  {
    var r := ApplyTake(book, t).value;
    if t.orderId in OrderIds(book) {
      var o := FindById(book, t.orderId).value;
      forall p | p in r
        ensures p.orderId in OrderIds(book)
        ensures p in book || (p.orderId == o.orderId && p.owner == o.owner &&
                              p.sellHowMuch > 0 && p.buyHowMuch > 0)
      {
        if p.orderId == t.orderId {
          TakeMatched(book, t);
        }
      }
    }
  }

  /** Killing keeps the relative order: it acts on each part of a book separately. */
  lemma KillConcat(a: seq<Order>, b: seq<Order>, k: LogKill)
    ensures ApplyKill(a + b, k) == ApplyKill(a, k) + ApplyKill(b, k)
  {
    FilterConcat(HasOtherId(k.orderId), a, b);
  }

  /** Killing the same id twice is killing it once. */
  lemma KillIdempotent(book: seq<Order>, k: LogKill)
    ensures ApplyKill(ApplyKill(book, k), k) == ApplyKill(book, k)
  {
    FilterIdempotent(HasOtherId(k.orderId), book);
  }

  /** Killing the order just made, when its id was new to the book, gives back the book. */
  lemma KillUndoesMake(book: seq<Order>, m: LogMake, k: LogKill)
    requires m.orderId !in OrderIds(book) && k.orderId == m.orderId
    ensures ApplyKill(ApplyMake(book, m), k) == book
  {
    KillConcat(book, [MadeOrder(m)], k);
    FilterSingleton(HasOtherId(k.orderId), MadeOrder(m));
    KillAbsent(book, k);
  }
}
