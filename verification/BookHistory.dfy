/**
 * One symbol's book over any run of insertions and executions. The book is never more than its history:
 * the orders that arrived, queued by price and then arrival, with the fills of the trade log applied.
 */
module BookHistory {
  import opened Orders
  import opened Crossing

  /** Multimap emplace: behind every equal price, so equal prices are served first come, first served. */
  function Enqueue(side: OrderSide, q: seq<Order>, o: Order): seq<Order> {
    if q == [] || Better(side, o.price, q[0].price) then [o] + q
    else [q[0]] + Enqueue(side, q[1..], o)
  }

  /** A new order joins its side of the book. */
  function Submit(b: Book, o: Order): Book {
    if o.side == BUY then b.(buys := Enqueue(BUY, b.buys, o)) else b.(sells := Enqueue(SELL, b.sells, o))
  }

  /** An insertion puts the order on its own side, where it now rests, and leaves the other side alone. */
  lemma SubmitRests(b: Book, o: Order) returns (k: nat)
    ensures k < |Submit(b, o).Side(o.side)| == |b.Side(o.side)| + 1 && Submit(b, o).Side(o.side)[k] == o
    ensures o.side == BUY ==> Submit(b, o).sells == b.sells
    ensures o.side == SELL ==> Submit(b, o).buys == b.buys
  {
    k := EnqueueRests(o.side, b.Side(o.side), o);
  }

  lemma {:induction false} EnqueueRests(side: OrderSide, q: seq<Order>, o: Order) returns (k: nat)
    ensures k < |Enqueue(side, q, o)| == |q| + 1 && Enqueue(side, q, o)[k] == o
  {
    if q == [] || Better(side, o.price, q[0].price) {
      k := 0;
    } else {
      k := EnqueueRests(side, q[1..], o);
      k := k + 1;
    }
  }

  /** Everybody who ever arrived on one side, in the order they are to be served. */
  function Queue(side: OrderSide, arrivals: seq<Order>): seq<Order> {
    if arrivals == [] then []
    else
      var n := |arrivals| - 1;
      var q := Queue(side, arrivals[..n]);
      if arrivals[n].side == side then Enqueue(side, q, arrivals[n]) else q
  }

  /** Price of the last trade naming the order. */
  function LastPrice(ts: seq<TradeRecord>, side: OrderSide, id: int, unfilled: real): real {
    if ts == [] then unfilled
    else
      var n := |ts| - 1;
      if Party(ts[n], side) == id then ts[n].price else LastPrice(ts[..n], side, id, unfilled)
  }

  /** An order with the fills of a trade log applied. */
  function Applied(side: OrderSide, o: Order, ts: seq<TradeRecord>): Order {
    o.(filledQty := o.filledQty + FilledBy(ts, side, o.orderId),
    avgFillPrice := LastPrice(ts, side, o.orderId, o.avgFillPrice))
  }

  /** A queue with the fills of a trade log applied and completed orders erased. */
  function Settle(side: OrderSide, q: seq<Order>, ts: seq<TradeRecord>): seq<Order> {
    if q == [] then []
    else
      var o, rest := Applied(side, q[0], ts), Settle(side, q[1..], ts);
      if o.IsComplete() then rest else [o] + rest
  }

  // ---------------------------------------------------------------- insertion

  /** Where emplace puts an order: after everything at least as good, before everything worse. */
  lemma {:induction false} InsertPlace(side: OrderSide, q: seq<Order>, o: Order) returns (k: nat)
    requires Sorted(side, q)
    ensures k <= |q| && Enqueue(side, q, o) == q[..k] + [o] + q[k..]
    ensures forall i :: 0 <= i < k ==> !Better(side, o.price, q[i].price)
    ensures forall i :: k <= i < |q| ==> Better(side, o.price, q[i].price)
  {
    if q == [] || Better(side, o.price, q[0].price) {
      k := 0;
    } else {
      var m := InsertPlace(side, q[1..], o);
      k := m + 1;
      assert q[1..][..m] == q[1..k] && q[1..][m..] == q[k..];
      assert q[..k] == [q[0]] + q[1..k];
    }
  }

  lemma InsertSorted(side: OrderSide, q: seq<Order>, o: Order)
    requires Sorted(side, q)
    ensures Sorted(side, Enqueue(side, q, o))
  {
    var k := InsertPlace(side, q, o);
  }

  lemma {:induction false} InsertIds(side: OrderSide, q: seq<Order>, o: Order, id: int)
    ensures HasId(Enqueue(side, q, o), id) <==> HasId(q, id) || o.orderId == id
  {
    if q == [] || Better(side, o.price, q[0].price) {
      HasIdCons(o, q, id);
    } else {
      InsertIds(side, q[1..], o, id);
      HasIdCons(q[0], Enqueue(side, q[1..], o), id);
      HasIdCons(q[0], q[1..], id);
      assert [q[0]] + q[1..] == q;
    }
  }

  lemma HasIdCons(o: Order, q: seq<Order>, id: int)
    ensures HasId([o] + q, id) <==> o.orderId == id || HasId(q, id)
  {
    if HasId(q, id) {
      var i :| 0 <= i < |q| && q[i].orderId == id;
      assert ([o] + q)[i + 1].orderId == id;
    }
    assert ([o] + q)[0] == o;
  }

  lemma InsertDistinct(side: OrderSide, q: seq<Order>, o: Order)
    requires Sorted(side, q) && DistinctIds(q) && !HasId(q, o.orderId)
    ensures DistinctIds(Enqueue(side, q, o))
  {
    var k := InsertPlace(side, q, o);
  }

  // ---------------------------------------------------------------- settling

  lemma {:induction false} UnnamedUnfilled(ts: seq<TradeRecord>, side: OrderSide, id: int, unfilled: real)
    requires forall t :: t in ts ==> Party(t, side) != id
    ensures FilledBy(ts, side, id) == 0 && LastPrice(ts, side, id, unfilled) == unfilled
  {
    if ts != [] {
      var n := |ts| - 1;
      assert ts[n] in ts && forall t :: t in ts[..n] ==> t in ts;
      UnnamedUnfilled(ts[..n], side, id, unfilled);
      assert ts == ts[..n] + [ts[n]];
      FilledByConcat(ts[..n], [ts[n]], side, id);
    }
  }

  lemma {:induction false} SettleIds(side: OrderSide, q: seq<Order>, ts: seq<TradeRecord>, id: int)
    requires HasId(Settle(side, q, ts), id)
    ensures HasId(q, id)
  {
    if q != [] {
      HasIdCons(q[0], q[1..], id);
      HasIdCons(Applied(side, q[0], ts), Settle(side, q[1..], ts), id);
      assert [q[0]] + q[1..] == q;
      if HasId(Settle(side, q[1..], ts), id) {
        SettleIds(side, q[1..], ts, id);
      }
    }
  }

  /** Settling keeps a queue sorted: its head is no better than the head of the full queue. */
  lemma {:induction false} SettleSorted(side: OrderSide, q: seq<Order>, ts: seq<TradeRecord>)
    requires Sorted(side, q)
    ensures Sorted(side, Settle(side, q, ts))
    ensures forall i :: 0 <= i < |Settle(side, q, ts)| ==>
                          q != [] && !Better(side, Settle(side, q, ts)[i].price, q[0].price)
  {
    if q != [] {
      SettleSorted(side, q[1..], ts);
    }
  }

  lemma {:induction false} SettleDistinct(side: OrderSide, q: seq<Order>, ts: seq<TradeRecord>)
    requires DistinctIds(q)
    ensures DistinctIds(Settle(side, q, ts)) && Open(Settle(side, q, ts))
  {
    if q != [] {
      var rest := Settle(side, q[1..], ts);
      SettleDistinct(side, q[1..], ts);
      if HasId(rest, q[0].orderId) {
        SettleIds(side, q[1..], ts, q[0].orderId);
      }
    }
  }

  /** An order that nobody traded with yet can be inserted before or after settling. */
  lemma {:induction false} SettleInsert(side: OrderSide, q: seq<Order>, o: Order, ts: seq<TradeRecord>)
    requires Sorted(side, q) && !o.IsComplete()
    requires forall t :: t in ts ==> Party(t, side) != o.orderId
    ensures Settle(side, Enqueue(side, q, o), ts) == Enqueue(side, Settle(side, q, ts), o)
  {
    UnnamedUnfilled(ts, side, o.orderId, o.avgFillPrice);
    assert Applied(side, o, ts) == o;
    if q == [] || Better(side, o.price, q[0].price) {
      SettleSorted(side, q, ts);
      assert Settle(side, [o] + q, ts) == [o] + Settle(side, q, ts) by {
        assert ([o] + q)[1..] == q;
      }
    } else {
      SettleInsert(side, q[1..], o, ts);
      var head, settled, rest := Applied(side, q[0], ts), Settle(side, q[1..], ts), Enqueue(side, q[1..], o);
      assert ([q[0]] + rest)[1..] == rest;
      if !head.IsComplete() {
        assert ([head] + settled)[1..] == settled;
      }
    }
  }

  lemma AppliedOther(side: OrderSide, o: Order, ts: seq<TradeRecord>, t: TradeRecord)
    ensures Party(t, side) != o.orderId ==> Applied(side, o, ts + [t]) == Applied(side, o, ts)
    ensures Party(t, side) == o.orderId
         ==> Applied(side, o, ts + [t]) == Applied(side, o, ts).Filled(t.quantity, t.price)
  {
    FilledByConcat(ts, [t], side, o.orderId);
    assert (ts + [t])[..|ts|] == ts;
  }

  lemma {:induction false} SettleUnnamed(side: OrderSide, q: seq<Order>, ts: seq<TradeRecord>, t: TradeRecord)
    requires !HasId(q, Party(t, side))
    ensures Settle(side, q, ts + [t]) == Settle(side, q, ts)
  {
    if q != [] {
      HasIdCons(q[0], q[1..], Party(t, side));
      assert [q[0]] + q[1..] == q;
      AppliedOther(side, q[0], ts, t);
      SettleUnnamed(side, q[1..], ts, t);
    }
  }

  /** A trade naming the head of the settled queue fills that head and touches nothing else. */
  lemma {:induction false} SettleExecute(side: OrderSide, q: seq<Order>, ts: seq<TradeRecord>, t: TradeRecord)
    requires DistinctIds(q)
    requires Settle(side, q, ts) != [] && Settle(side, q, ts)[0].orderId == Party(t, side)
    ensures Settle(side, q, ts + [t]) == FillTop(Settle(side, q, ts), t.quantity, t.price)
  {
    AppliedOther(side, q[0], ts, t);
    var rest := Settle(side, q[1..], ts);
    if Applied(side, q[0], ts).IsComplete() {
      assert Settle(side, q, ts) == rest;
      SettleIds(side, q[1..], ts, rest[0].orderId);
      SettleExecute(side, q[1..], ts, t);
    } else {
      SettleUnnamed(side, q[1..], ts, t);
      assert ([Applied(side, q[0], ts)] + rest)[1..] == rest;
    }
  }

  // ---------------------------------------------------------------- the arrival queue

  lemma {:induction false} QueueFacts(side: OrderSide, arrivals: seq<Order>)
    requires DistinctIds(arrivals)
    ensures Sorted(side, Queue(side, arrivals)) && DistinctIds(Queue(side, arrivals))
    ensures forall id :: HasId(Queue(side, arrivals), id) ==> HasId(arrivals, id)
  {
    if arrivals != [] {
      var n := |arrivals| - 1;
      var q, o := Queue(side, arrivals[..n]), arrivals[n];
      QueueFacts(side, arrivals[..n]);
      forall id | HasId(q, id)
        ensures HasId(arrivals, id) && id != o.orderId
      {
        var i :| 0 <= i < n && arrivals[..n][i].orderId == id;
        assert arrivals[i].orderId == id;
      }
      if o.side == side {
        InsertSorted(side, q, o);
        InsertDistinct(side, q, o);
        forall id | HasId(Enqueue(side, q, o), id)
          ensures HasId(arrivals, id)
        {
          InsertIds(side, q, o, id);
        }
      }
    }
  }

  /** In the queue, a comes before b. */
  ghost predicate Ahead(q: seq<Order>, a: int, b: int) {
    q != [] && ((q[0].orderId == a && HasId(q[1..], b)) || Ahead(q[1..], a, b))
  }

  lemma {:induction false} AheadHasIds(q: seq<Order>, a: int, b: int)
    requires Ahead(q, a, b)
    ensures HasId(q, a) && HasId(q[1..], b) && HasId(q, b)
  {
    assert [q[0]] + q[1..] == q;
    HasIdCons(q[0], q[1..], a);
    HasIdCons(q[0], q[1..], b);
    if !(q[0].orderId == a && HasId(q[1..], b)) {
      AheadHasIds(q[1..], a, b);
    }
  }

  /** Insertion never reorders those already waiting. */
  lemma {:induction false} AheadInsert(side: OrderSide, q: seq<Order>, o: Order, a: int, b: int)
    requires Ahead(q, a, b)
    ensures Ahead(Enqueue(side, q, o), a, b)
  {
    if Better(side, o.price, q[0].price) {
      assert ([o] + q)[1..] == q;
    } else {
      var rest := Enqueue(side, q[1..], o);
      assert ([q[0]] + rest)[1..] == rest;
      if q[0].orderId == a && HasId(q[1..], b) {
        InsertIds(side, q[1..], o, b);
      } else {
        AheadInsert(side, q[1..], o, a, b);
      }
    }
  }

  /** A newcomer goes behind everybody whose price is at least as good. */
  lemma {:induction false} InsertBehind(side: OrderSide, q: seq<Order>, o: Order, k: nat)
    requires Sorted(side, q) && k < |q| && !Better(side, o.price, q[k].price)
    ensures Ahead(Enqueue(side, q, o), q[k].orderId, o.orderId)
  {
    assert !Better(side, o.price, q[0].price);
    var rest := Enqueue(side, q[1..], o);
    assert ([q[0]] + rest)[1..] == rest;
    if k == 0 {
      InsertIds(side, q[1..], o, o.orderId);
    } else {
      InsertBehind(side, q[1..], o, k - 1);
    }
  }

  /** Every arrival of the side has its place in the queue. */
  lemma {:induction false} QueueMember(side: OrderSide, arrivals: seq<Order>, i: nat) returns (k: nat)
    requires DistinctIds(arrivals) && i < |arrivals| && arrivals[i].side == side
    ensures k < |Queue(side, arrivals)| && Queue(side, arrivals)[k] == arrivals[i]
  {
    var n := |arrivals| - 1;
    var q, o := Queue(side, arrivals[..n]), arrivals[n];
    QueueFacts(side, arrivals[..n]);
    if o.side != side {
      k := QueueMember(side, arrivals[..n], i);
    } else {
      var m := InsertPlace(side, q, o);
      if i == n {
        k := m;
      } else {
        var j := QueueMember(side, arrivals[..n], i);
        k := if j < m then j else j + 1;
      }
    }
  }

  lemma {:induction false} EarlierNoWorse(side: OrderSide, arrivals: seq<Order>, i: nat, j: nat)
    requires DistinctIds(arrivals) && i < j < |arrivals|
    requires arrivals[i].side == side && arrivals[j].side == side
    requires !Better(side, arrivals[j].price, arrivals[i].price)
    ensures Ahead(Queue(side, arrivals), arrivals[i].orderId, arrivals[j].orderId)
  {
    var n := |arrivals| - 1;
    var q, o := Queue(side, arrivals[..n]), arrivals[n];
    QueueFacts(side, arrivals[..n]);
    if j == n {
      var k := QueueMember(side, arrivals[..n], i);
      InsertBehind(side, q, o, k);
    } else {
      EarlierNoWorse(side, arrivals[..n], i, j);
      if o.side == side {
        AheadInsert(side, q, o, arrivals[i].orderId, arrivals[j].orderId);
      }
    }
  }

  lemma {:induction false} AheadByPlace(q: seq<Order>, k: nat, l: nat)
    requires k < l < |q|
    ensures Ahead(q, q[k].orderId, q[l].orderId)
  {
    if k == 0 {
      assert q[1..][l - 1].orderId == q[l].orderId;
    } else {
      AheadByPlace(q[1..], k - 1, l - 1);
    }
  }

  /** Nobody is both in front of and behind somebody else. */
  lemma {:induction false} AheadOneWay(q: seq<Order>, a: int, b: int)
    requires DistinctIds(q) && Ahead(q, a, b)
    ensures !Ahead(q, b, a)
  {
    AheadHasIds(q, a, b);
    if Ahead(q, b, a) {
      AheadHasIds(q, b, a);
      if q[0].orderId != a && q[0].orderId != b {
        AheadOneWay(q[1..], a, b);
      }
    }
  }

  lemma LaterBetter(side: OrderSide, arrivals: seq<Order>, i: nat, j: nat)
    requires DistinctIds(arrivals) && i < |arrivals| && j < |arrivals|
    requires arrivals[i].side == side && arrivals[j].side == side
    requires Better(side, arrivals[j].price, arrivals[i].price)
    ensures Ahead(Queue(side, arrivals), arrivals[j].orderId, arrivals[i].orderId)
  {
    QueueFacts(side, arrivals);
    var k := QueueMember(side, arrivals, j);
    var l := QueueMember(side, arrivals, i);
    AheadByPlace(Queue(side, arrivals), k, l);
  }

  /**
   * Served in price order, and in arrival order within a price: of two arrivals of a side, the later one is in
   * front exactly when its price is better, and otherwise the earlier one is.
   */
  lemma QueueOrder(side: OrderSide, arrivals: seq<Order>, i: nat, j: nat)
    requires DistinctIds(arrivals) && i < j < |arrivals|
    requires arrivals[i].side == side && arrivals[j].side == side
    ensures var q, a, b := Queue(side, arrivals), arrivals[i].orderId, arrivals[j].orderId;
            && (Ahead(q, b, a) <==> Better(side, arrivals[j].price, arrivals[i].price))
            && (Ahead(q, a, b) <==> !Better(side, arrivals[j].price, arrivals[i].price))
  {
    var q, a, b := Queue(side, arrivals), arrivals[i].orderId, arrivals[j].orderId;
    QueueFacts(side, arrivals);
    if Better(side, arrivals[j].price, arrivals[i].price) {
      LaterBetter(side, arrivals, i, j);
      AheadOneWay(q, b, a);
    } else {
      EarlierNoWorse(side, arrivals, i, j);
      AheadOneWay(q, a, b);
    }
  }

  /** While somebody ahead of b is still open, b is not at the head of the settled queue. */
  lemma {:induction false} NotYetServed(side: OrderSide, q: seq<Order>, ts: seq<TradeRecord>, a: int, b: int, k: nat)
    requires DistinctIds(q) && Ahead(q, a, b)
    requires k < |q| && q[k].orderId == a && !Applied(side, q[k], ts).IsComplete()
    ensures Settle(side, q, ts) != [] && Settle(side, q, ts)[0].orderId != b
  {
    AheadHasIds(q, a, b);
    var i :| 0 <= i < |q[1..]| && q[1..][i].orderId == b;
    assert q[i + 1].orderId == b;
    if q[0].orderId == a {
      assert k == 0;
    } else {
      NotYetServed(side, q[1..], ts, a, b, k - 1);
    }
  }

  // ---------------------------------------------------------------- the history of a book

  ghost predicate Arrived(arrivals: seq<Order>, side: OrderSide, id: int) {
    exists i :: 0 <= i < |arrivals| && arrivals[i].side == side && arrivals[i].orderId == id
  }

  /** Orders arrive unfilled, for at least one share, each with its own id. */
  ghost predicate FreshArrivals(arrivals: seq<Order>) {
    && DistinctIds(arrivals)
    && forall i :: 0 <= i < |arrivals| ==> arrivals[i].filledQty == 0 && arrivals[i].quantity >= 1
  }

  /** Every trade is for at least a share and pairs a buy and a sell that arrived here. */
  ghost predicate TradesNameArrivals(arrivals: seq<Order>, ts: seq<TradeRecord>) {
    forall t :: t in ts ==>
                  && t.quantity >= 1
                  && Arrived(arrivals, BUY, t.buyOrderId)
                  && Arrived(arrivals, SELL, t.sellOrderId)
  }

  function FilledOf(o: Order, ts: seq<TradeRecord>): int {
    FilledBy(ts, o.side, o.orderId)
  }

  ghost predicate NoOverfill(arrivals: seq<Order>, ts: seq<TradeRecord>) {
    forall i :: 0 <= i < |arrivals| ==> 0 <= FilledOf(arrivals[i], ts) <= arrivals[i].quantity
  }

  /** If a later, no better order of the same side got any share, the earlier one got all of its own. */
  ghost predicate PriceTimePriority(arrivals: seq<Order>, ts: seq<TradeRecord>) {
    forall i, j :: 0 <= i < j < |arrivals| && arrivals[i].side == arrivals[j].side
                   && !Better(arrivals[i].side, arrivals[j].price, arrivals[i].price)
                   && FilledOf(arrivals[j], ts) > 0
                   ==> FilledOf(arrivals[i], ts) == arrivals[i].quantity
  }

  ghost predicate IsSettled(b: Book, arrivals: seq<Order>, ts: seq<TradeRecord>) {
    && b.buys == Settle(BUY, Queue(BUY, arrivals), ts)
    && b.sells == Settle(SELL, Queue(SELL, arrivals), ts)
  }

  /** What every step of every run keeps true of a book, its arrivals and its trades. */
  ghost predicate History(b: Book, arrivals: seq<Order>, ts: seq<TradeRecord>) {
    && FreshArrivals(arrivals)
    && TradesNameArrivals(arrivals, ts)
    && NoOverfill(arrivals, ts)
    && PriceTimePriority(arrivals, ts)
    && IsSettled(b, arrivals, ts)
  }

  lemma HistoryStarts()
    ensures History(Book([], []), [], [])
  {
  }

  lemma HistoryValid(b: Book, arrivals: seq<Order>, ts: seq<TradeRecord>)
    requires FreshArrivals(arrivals) && IsSettled(b, arrivals, ts)
    ensures ValidBook(b)
  {
    QueueFacts(BUY, arrivals);
    QueueFacts(SELL, arrivals);
    SettleSorted(BUY, Queue(BUY, arrivals), ts);
    SettleSorted(SELL, Queue(SELL, arrivals), ts);
    SettleDistinct(BUY, Queue(BUY, arrivals), ts);
    SettleDistinct(SELL, Queue(SELL, arrivals), ts);
  }

  // ---------------------------------------------------------------- a new order arrives

  ghost predicate Newcomer(o: Order, arrivals: seq<Order>) {
    !HasId(arrivals, o.orderId) && o.filledQty == 0 && o.quantity >= 1
  }

  lemma NewcomerUnnamed(o: Order, arrivals: seq<Order>, ts: seq<TradeRecord>, side: OrderSide)
    requires Newcomer(o, arrivals) && TradesNameArrivals(arrivals, ts)
    ensures forall t :: t in ts ==> Party(t, side) != o.orderId
  {
  }

  lemma SubmitFills(o: Order, arrivals: seq<Order>, ts: seq<TradeRecord>)
    requires Newcomer(o, arrivals) && TradesNameArrivals(arrivals, ts)
    requires NoOverfill(arrivals, ts) && PriceTimePriority(arrivals, ts)
    ensures NoOverfill(arrivals + [o], ts) && PriceTimePriority(arrivals + [o], ts)
  {
    NewcomerUnnamed(o, arrivals, ts, o.side);
    UnnamedUnfilled(ts, o.side, o.orderId, 0.0);
  }

  lemma SubmitArrivals(o: Order, arrivals: seq<Order>, ts: seq<TradeRecord>)
    requires Newcomer(o, arrivals) && TradesNameArrivals(arrivals, ts) && FreshArrivals(arrivals)
    ensures FreshArrivals(arrivals + [o]) && TradesNameArrivals(arrivals + [o], ts)
  {
    forall t | t in ts
      ensures Arrived(arrivals + [o], BUY, t.buyOrderId) && Arrived(arrivals + [o], SELL, t.sellOrderId)
    {
      ArrivedMore(arrivals, o, BUY, t.buyOrderId);
      ArrivedMore(arrivals, o, SELL, t.sellOrderId);
    }
  }

  lemma ArrivedMore(arrivals: seq<Order>, o: Order, side: OrderSide, id: int)
    requires Arrived(arrivals, side, id)
    ensures Arrived(arrivals + [o], side, id)
  {
    var i :| 0 <= i < |arrivals| && arrivals[i].side == side && arrivals[i].orderId == id;
    assert (arrivals + [o])[i] == arrivals[i];
  }

  lemma SubmitSettled(b: Book, o: Order, arrivals: seq<Order>, ts: seq<TradeRecord>)
    requires Newcomer(o, arrivals) && FreshArrivals(arrivals)
    requires TradesNameArrivals(arrivals, ts) && IsSettled(b, arrivals, ts)
    ensures IsSettled(Submit(b, o), arrivals + [o], ts)
  {
    assert (arrivals + [o])[..|arrivals|] == arrivals;
    QueueFacts(o.side, arrivals);
    NewcomerUnnamed(o, arrivals, ts, o.side);
    SettleInsert(o.side, Queue(o.side, arrivals), o, ts);
  }

  lemma SubmitKeepsHistory(b: Book, o: Order, arrivals: seq<Order>, ts: seq<TradeRecord>)
    requires History(b, arrivals, ts) && Newcomer(o, arrivals)
    ensures History(Submit(b, o), arrivals + [o], ts)
  {
    SubmitFills(o, arrivals, ts);
    SubmitArrivals(o, arrivals, ts);
    SubmitSettled(b, o, arrivals, ts);
  }

  // ---------------------------------------------------------------- an iteration of the loop

  /** The head of one side of the book, traced back to its arrival. */
  lemma HeadArrival(side: OrderSide, arrivals: seq<Order>, ts: seq<TradeRecord>) returns (i: nat)
    requires FreshArrivals(arrivals) && Settle(side, Queue(side, arrivals), ts) != []
    ensures i < |arrivals| && arrivals[i].side == side
    ensures Settle(side, Queue(side, arrivals), ts)[0] == Applied(side, arrivals[i], ts)
  {
    var k := HeadOfSettled(side, Queue(side, arrivals), ts);
    i := QueueArrival(side, arrivals, k);
  }

  lemma {:induction false} HeadOfSettled(side: OrderSide, q: seq<Order>, ts: seq<TradeRecord>) returns (k: nat)
    requires Settle(side, q, ts) != []
    ensures k < |q| && Settle(side, q, ts)[0] == Applied(side, q[k], ts)
  {
    if Applied(side, q[0], ts).IsComplete() {
      k := HeadOfSettled(side, q[1..], ts);
      k := k + 1;
    } else {
      k := 0;
    }
  }

  lemma {:induction false} QueueArrival(side: OrderSide, arrivals: seq<Order>, k: nat) returns (i: nat)
    requires DistinctIds(arrivals) && k < |Queue(side, arrivals)|
    ensures i < |arrivals| && arrivals[i] == Queue(side, arrivals)[k] && arrivals[i].side == side
  {
    var n := |arrivals| - 1;
    var q, o := Queue(side, arrivals[..n]), arrivals[n];
    QueueFacts(side, arrivals[..n]);
    if o.side != side {
      i := QueueArrival(side, arrivals[..n], k);
    } else {
      var m := InsertPlace(side, q, o);
      if k == m {
        i := n;
      } else {
        i := QueueArrival(side, arrivals[..n], if k < m then k else k - 1);
      }
    }
  }

  lemma ExecuteFacts(symbol: string, b: Book, arrivals: seq<Order>, ts: seq<TradeRecord>) returns (x: nat, y: nat)
    requires FreshArrivals(arrivals) && IsSettled(b, arrivals, ts) && Crossed(b)
    ensures x < |arrivals| && arrivals[x].side == BUY && b.buys[0] == Applied(BUY, arrivals[x], ts)
    ensures y < |arrivals| && arrivals[y].side == SELL && b.sells[0] == Applied(SELL, arrivals[y], ts)
    ensures 1 <= TradeQty(b) <= b.buys[0].Remaining() && TradeQty(b) <= b.sells[0].Remaining()
  {
    x := HeadArrival(BUY, arrivals, ts);
    y := HeadArrival(SELL, arrivals, ts);
    HistoryValid(b, arrivals, ts);
  }

  lemma FilledOfMore(o: Order, ts: seq<TradeRecord>, t: TradeRecord)
    ensures FilledOf(o, ts + [t]) == FilledOf(o, ts) + (if Party(t, o.side) == o.orderId then t.quantity else 0)
  {
    FilledByConcat(ts, [t], o.side, o.orderId);
  }

  lemma ExecuteNoOverfill(symbol: string, b: Book, arrivals: seq<Order>, ts: seq<TradeRecord>)
    requires FreshArrivals(arrivals) && NoOverfill(arrivals, ts) && IsSettled(b, arrivals, ts) && Crossed(b)
    ensures NoOverfill(arrivals, ts + [TopTrade(symbol, b)])
  {
    var x, y := ExecuteFacts(symbol, b, arrivals, ts);
    var t := TopTrade(symbol, b);
    forall i | 0 <= i < |arrivals|
      ensures 0 <= FilledOf(arrivals[i], ts + [t]) <= arrivals[i].quantity
    {
      FilledOfMore(arrivals[i], ts, t);
      if Party(t, arrivals[i].side) == arrivals[i].orderId {
        assert i == if arrivals[i].side == BUY then x else y;
      }
    }
  }

  /** The order at the head of its side has nobody open ahead of it. */
  lemma HeadIsServedInTurn(side: OrderSide, arrivals: seq<Order>, ts: seq<TradeRecord>, i: nat, j: nat)
    requires FreshArrivals(arrivals) && NoOverfill(arrivals, ts) && i < j < |arrivals|
    requires arrivals[i].side == arrivals[j].side == side
    requires !Better(side, arrivals[j].price, arrivals[i].price)
    requires Settle(side, Queue(side, arrivals), ts) != []
    requires Settle(side, Queue(side, arrivals), ts)[0].orderId == arrivals[j].orderId
    ensures FilledOf(arrivals[i], ts) == arrivals[i].quantity
  {
    if FilledOf(arrivals[i], ts) < arrivals[i].quantity {
      QueueFacts(side, arrivals);
      QueueOrder(side, arrivals, i, j);
      var k := QueueMember(side, arrivals, i);
      NotYetServed(side, Queue(side, arrivals), ts, arrivals[i].orderId, arrivals[j].orderId, k);
    }
  }

  lemma ExecutePriority(symbol: string, b: Book, arrivals: seq<Order>, ts: seq<TradeRecord>)
    requires FreshArrivals(arrivals) && NoOverfill(arrivals, ts) && PriceTimePriority(arrivals, ts)
    requires IsSettled(b, arrivals, ts) && Crossed(b)
    ensures PriceTimePriority(arrivals, ts + [TopTrade(symbol, b)])
  {
    var t := TopTrade(symbol, b);
    ExecuteNoOverfill(symbol, b, arrivals, ts);
    var x, y := ExecuteFacts(symbol, b, arrivals, ts);
    forall i, j | 0 <= i < j < |arrivals| && arrivals[i].side == arrivals[j].side
                  && !Better(arrivals[i].side, arrivals[j].price, arrivals[i].price)
                  && FilledOf(arrivals[j], ts + [t]) > 0
      ensures FilledOf(arrivals[i], ts + [t]) == arrivals[i].quantity
    {
      FilledOfMore(arrivals[i], ts, t);
      FilledOfMore(arrivals[j], ts, t);
      if Party(t, arrivals[j].side) == arrivals[j].orderId {
        HeadIsServedInTurn(arrivals[j].side, arrivals, ts, i, j);
      }
      assert FilledOf(arrivals[i], ts) == arrivals[i].quantity;
      assert FilledOf(arrivals[i], ts + [t]) >= arrivals[i].quantity;
    }
  }

  lemma ExecuteSettled(symbol: string, b: Book, arrivals: seq<Order>, ts: seq<TradeRecord>)
    requires FreshArrivals(arrivals) && IsSettled(b, arrivals, ts) && Crossed(b)
    ensures IsSettled(Execute(b), arrivals, ts + [TopTrade(symbol, b)])
  {
    QueueFacts(BUY, arrivals);
    QueueFacts(SELL, arrivals);
    SettleExecute(BUY, Queue(BUY, arrivals), ts, TopTrade(symbol, b));
    SettleExecute(SELL, Queue(SELL, arrivals), ts, TopTrade(symbol, b));
  }

  lemma ExecuteNames(symbol: string, b: Book, arrivals: seq<Order>, ts: seq<TradeRecord>)
    requires FreshArrivals(arrivals) && TradesNameArrivals(arrivals, ts) && IsSettled(b, arrivals, ts) && Crossed(b)
    ensures TradesNameArrivals(arrivals, ts + [TopTrade(symbol, b)])
  {
    var x, y := ExecuteFacts(symbol, b, arrivals, ts);
    assert arrivals[x].orderId == b.buys[0].orderId && arrivals[y].orderId == b.sells[0].orderId;
  }

  lemma ExecuteKeepsHistory(symbol: string, b: Book, arrivals: seq<Order>, ts: seq<TradeRecord>)
    requires History(b, arrivals, ts) && Crossed(b)
    ensures History(Execute(b), arrivals, ts + [TopTrade(symbol, b)])
  {
    ExecuteNames(symbol, b, arrivals, ts);
    ExecuteNoOverfill(symbol, b, arrivals, ts);
    ExecutePriority(symbol, b, arrivals, ts);
    ExecuteSettled(symbol, b, arrivals, ts);
  }

  // ---------------------------------------------------------------- what a history says

  /** The order rests in the queue with that many shares filled. */
  ghost predicate RestsWith(q: seq<Order>, id: int, filled: int) {
    exists i :: 0 <= i < |q| && q[i].orderId == id && q[i].filledQty == filled
  }

  /** The trade log accounts for every order: what rests shows its fills, what is gone was filled to the share. */
  lemma SharesConserved(b: Book, arrivals: seq<Order>, ts: seq<TradeRecord>, i: nat)
    requires History(b, arrivals, ts) && i < |arrivals|
    ensures var o := arrivals[i];
            if HasId(b.Side(o.side), o.orderId)
            then FilledOf(o, ts) < o.quantity && RestsWith(b.Side(o.side), o.orderId, FilledOf(o, ts))
            else FilledOf(o, ts) == o.quantity
  {
    var o := arrivals[i];
    var q := Queue(o.side, arrivals);
    QueueFacts(o.side, arrivals);
    var k := QueueMember(o.side, arrivals, i);
    SettleEntry(o.side, q, ts, k);
    assert Applied(o.side, o, ts).filledQty == FilledOf(o, ts);
  }

  lemma {:induction false} SettleEntry(side: OrderSide, q: seq<Order>, ts: seq<TradeRecord>, k: nat)
    requires DistinctIds(q) && k < |q|
    ensures var s := Settle(side, q, ts);
            if Applied(side, q[k], ts).IsComplete() then !HasId(s, q[k].orderId) else Applied(side, q[k], ts) in s
    ensures !Applied(side, q[k], ts).IsComplete() ==> HasId(Settle(side, q, ts), q[k].orderId)
  {
    var head, rest := Applied(side, q[0], ts), Settle(side, q[1..], ts);
    HasIdCons(head, rest, q[k].orderId);
    if k == 0 {
      if HasId(rest, q[0].orderId) {
        SettleIds(side, q[1..], ts, q[0].orderId);
      }
    } else {
      SettleEntry(side, q[1..], ts, k - 1);
    }
  }

  /** Shares that the arrivals of one side have got, in all. */
  function TotalFilled(arrivals: seq<Order>, side: OrderSide, ts: seq<TradeRecord>): int {
    if arrivals == [] then 0
    else (if arrivals[0].side == side then FilledBy(ts, side, arrivals[0].orderId) else 0)
         + TotalFilled(arrivals[1..], side, ts)
  }

  /** Everything bought was sold, and both are the volume of the log. */
  lemma {:induction false} BoughtEqualsSold(arrivals: seq<Order>, ts: seq<TradeRecord>)
    requires DistinctIds(arrivals) && TradesNameArrivals(arrivals, ts)
    ensures TotalFilled(arrivals, BUY, ts) == Volume(ts) == TotalFilled(arrivals, SELL, ts)
  {
    if ts == [] {
      NothingFilled(arrivals, BUY);
      NothingFilled(arrivals, SELL);
    } else {
      assert ts[0] in ts && forall t :: t in ts[1..] ==> t in ts;
      BoughtEqualsSold(arrivals, ts[1..]);
      OneTradeFills(arrivals, BUY, ts);
      OneTradeFills(arrivals, SELL, ts);
    }
  }

  lemma {:induction false} NothingFilled(arrivals: seq<Order>, side: OrderSide)
    ensures TotalFilled(arrivals, side, []) == 0
  {
    if arrivals != [] {
      NothingFilled(arrivals[1..], side);
    }
  }

  lemma {:induction false} OneTradeFills(arrivals: seq<Order>, side: OrderSide, ts: seq<TradeRecord>)
    requires DistinctIds(arrivals) && ts != []
    ensures TotalFilled(arrivals, side, ts) == TotalFilled(arrivals, side, ts[1..])
         + (if Arrived(arrivals, side, Party(ts[0], side)) then ts[0].quantity else 0)
  {
    if arrivals != [] {
      var id := Party(ts[0], side);
      OneTradeFills(arrivals[1..], side, ts);
      ArrivedCons(arrivals, side, id);
    }
  }

  lemma ArrivedCons(arrivals: seq<Order>, side: OrderSide, id: int)
    requires arrivals != [] && DistinctIds(arrivals)
    ensures Arrived(arrivals, side, id) <==>
            (arrivals[0].side == side && arrivals[0].orderId == id) || Arrived(arrivals[1..], side, id)
    ensures arrivals[0].orderId == id ==> !Arrived(arrivals[1..], side, id)
  {
    if Arrived(arrivals[1..], side, id) {
      var i :| 0 <= i < |arrivals[1..]| && arrivals[1..][i].side == side && arrivals[1..][i].orderId == id;
      assert arrivals[i + 1].side == side && arrivals[i + 1].orderId == id;
    }
  }

  function Completed(arrivals: seq<Order>, ts: seq<TradeRecord>): nat {
    if arrivals == [] then 0
    else
      var n := |arrivals| - 1;
      Completed(arrivals[..n], ts) + (if FilledOf(arrivals[n], ts) >= arrivals[n].quantity then 1 else 0)
  }

  /** No order is lost: each arrival is either resting or completely filled. */
  lemma OrdersConserved(b: Book, arrivals: seq<Order>, ts: seq<TradeRecord>)
    requires History(b, arrivals, ts)
    ensures |arrivals| == |b.buys| + |b.sells| + Completed(arrivals, ts)
  {
    CountSettled(arrivals, ts);
  }

  lemma {:induction false} CountSettled(arrivals: seq<Order>, ts: seq<TradeRecord>)
    requires FreshArrivals(arrivals)
    ensures |arrivals| == |Settle(BUY, Queue(BUY, arrivals), ts)| + |Settle(SELL, Queue(SELL, arrivals), ts)|
                          + Completed(arrivals, ts)
  {
    if arrivals != [] {
      var n := |arrivals| - 1;
      var o := arrivals[n];
      CountSettled(arrivals[..n], ts);
      SettleInsertLength(o.side, Queue(o.side, arrivals[..n]), o, ts);
    }
  }

  lemma {:induction false} SettleInsertLength(side: OrderSide, q: seq<Order>, o: Order, ts: seq<TradeRecord>)
    ensures |Settle(side, Enqueue(side, q, o), ts)|
         == |Settle(side, q, ts)| + (if Applied(side, o, ts).IsComplete() then 0 else 1)
  {
    if q == [] || Better(side, o.price, q[0].price) {
      assert ([o] + q)[1..] == q;
    } else {
      var rest := Enqueue(side, q[1..], o);
      assert ([q[0]] + rest)[1..] == rest;
      SettleInsertLength(side, q[1..], o, ts);
    }
  }

  // ---------------------------------------------------------------- the average that is none

  /** The n-th trade is the last that names the order. */
  ghost predicate LastNaming(ts: seq<TradeRecord>, side: OrderSide, id: int, n: int) {
    0 <= n < |ts| && Party(ts[n], side) == id && forall k :: n < k < |ts| ==> Party(ts[k], side) != id
  }

  lemma LastNamingMore(ts: seq<TradeRecord>, side: OrderSide, id: int, m: int)
    requires ts != [] && LastNaming(ts[..|ts| - 1], side, id, m) && Party(ts[|ts| - 1], side) != id
    ensures LastNaming(ts, side, id, m) && ts[m] == ts[..|ts| - 1][m]
  {
    forall k | m < k < |ts|
      ensures Party(ts[k], side) != id
    {
      assert k < |ts| - 1 ==> ts[k] == ts[..|ts| - 1][k];
    }
  }

  lemma {:induction false} LastPriceIs(ts: seq<TradeRecord>, side: OrderSide, id: int, unfilled: real)
    ensures (exists n :: LastNaming(ts, side, id, n) && LastPrice(ts, side, id, unfilled) == ts[n].price)
         || (LastPrice(ts, side, id, unfilled) == unfilled && forall k :: 0 <= k < |ts| ==> Party(ts[k], side) != id)
  {
    if ts != [] {
      var n := |ts| - 1;
      if Party(ts[n], side) == id {
        assert LastNaming(ts, side, id, n);
      } else {
        LastPriceIs(ts[..n], side, id, unfilled);
        if exists m :: LastNaming(ts[..n], side, id, m) && LastPrice(ts, side, id, unfilled) == ts[..n][m].price {
          var m :| LastNaming(ts[..n], side, id, m) && LastPrice(ts, side, id, unfilled) == ts[..n][m].price;
          LastNamingMore(ts, side, id, m);
        } else {
          assert forall k :: 0 <= k < n ==> ts[k] == ts[..n][k];
        }
      }
    }
  }

  lemma {:induction false} EntryOfSettled(side: OrderSide, q: seq<Order>, ts: seq<TradeRecord>, k: nat) returns (i: nat)
    requires k < |Settle(side, q, ts)|
    ensures i < |q| && Settle(side, q, ts)[k] == Applied(side, q[i], ts)
  {
    if Applied(side, q[0], ts).IsComplete() {
      i := EntryOfSettled(side, q[1..], ts, k);
      i := i + 1;
    } else if k == 0 {
      i := 0;
    } else {
      i := EntryOfSettled(side, q[1..], ts, k - 1);
      i := i + 1;
    }
  }

  /**
   * What the book calls an order's average fill price is the price of the last trade that names it, and still what
   * it arrived with if none does.
   */
  lemma AverageIsLastPrice(b: Book, arrivals: seq<Order>, ts: seq<TradeRecord>, side: OrderSide, k: nat)
    returns (i: nat)
    requires History(b, arrivals, ts) && k < |b.Side(side)|
    ensures i < |arrivals| && arrivals[i].side == side && arrivals[i].orderId == b.Side(side)[k].orderId
    ensures var o := b.Side(side)[k];
            || (exists n :: LastNaming(ts, side, o.orderId, n) && o.avgFillPrice == ts[n].price)
            || (o.avgFillPrice == arrivals[i].avgFillPrice && o.filledQty == 0
                && forall n :: 0 <= n < |ts| ==> Party(ts[n], side) != o.orderId)
  {
    var j := EntryOfSettled(side, Queue(side, arrivals), ts, k);
    i := QueueArrival(side, arrivals, j);
    var a := arrivals[i];
    LastPriceIs(ts, side, a.orderId, a.avgFillPrice);
    if forall n :: 0 <= n < |ts| ==> Party(ts[n], side) != a.orderId {
      UnnamedUnfilled(ts, side, a.orderId, a.avgFillPrice);
    }
  }
}
